/**
 * The message handler's choice of reply (index.js:131-352): an order
 * command goes to the order service and its answer is turned into a reply;
 * any other message goes to the language model, or gets a fixed reply when
 * no API key is configured. Upstream calls are given as their outcomes.
 */
module Router {
  import opened Options
  import opened JsStrings
  import opened Json
  import opened OrderCommand
  import opened OrderFormat

  /** What the order service answered: the request failed, its body was `null`, or a body with these fields. */
  datatype OrderCall =
    | RequestFailed
    | NullBody
    | Answered(status: JsonValue, data: Option<Record>, message: JsonValue)

  datatype Part = Part(text: string)
  datatype Content = Content(parts: Option<seq<Part>>)
  datatype Candidate = Candidate(content: Option<Content>)

  /** What the language model answered: the request failed, or a body whose `candidates` may be missing. */
  datatype ChatCall =
    | ChatFailed
    | ChatAnswered(candidates: Option<seq<Candidate>>)

  /** What handling one message does, in order. */
  datatype Effect =
    | QueryOrderApi(orderNumber: string)
    | QueryChatModel(apiKey: string, prompt: string)
    | SendReply(text: string)

  /** index.js:300. */
  function NotFoundReply(orderNumber: string): string {
    "Numéro de commande '" + orderNumber + "' introuvable. Veuillez vérifier et réessayer."
  }

  const ApiErrorPrefix := "Une erreur est survenue lors de la récupération des données : "
  const UnknownApiError := "Erreur inconnue de l'API."

  /** index.js:302: the service's `message` when it is truthy, a fixed text otherwise. */
  function ApiErrorReply(message: JsonValue): string {
    ApiErrorPrefix + (if Truthy(message) then Text(message) else UnknownApiError)
  }

  /** index.js:308: sent whenever the order lookup throws. */
  const TechnicalErrorReply :=
    "Désolé, une erreur technique est survenue lors de la tentative de récupération des données de commande. Veuillez réessayer plus tard."

  /** index.js:322: sent when no API key for the language model is configured. */
  const MissingKeyReply := "Désolé, je ne peux pas répondre pour le moment. La clé API de l'IA est manquante."

  /** index.js:351: sent whenever the language model call or the reading of its answer throws. */
  const ChatErrorReply := "Désolé, je n'ai pas pu traiter votre demande pour le moment. L'IA a rencontré une erreur."

  /**
   * The success branch, where `getVal` reads `data` from `scope`: `None`
   * when no binding of `data` is visible to `getVal` (evaluating it throws a
   * ReferenceError), `Some(None)` when `data` is `null` or missing (reading a
   * key of it throws a TypeError), `Some(Some(record))` otherwise. A throw
   * yields `None`.
   */
  function SuccessReply(scope: Option<Option<Record>>, parse: DateParser): Option<string> {
    match scope
    case None => None
    case Some(None) => None
    case Some(Some(record)) => Some(OrderReplyText(record, parse))
  }

  /** The dispatch on the service's answer (index.js:164-309), `getVal` reading `data` from `scope`. */
  function OrderReplyIn(orderNumber: string, call: OrderCall, scope: Option<Option<Record>>, parse: DateParser): string {
    match call
    case RequestFailed => TechnicalErrorReply
    case NullBody => TechnicalErrorReply
    case Answered(status, _, message) =>
      if status == JStr("success") then
        match SuccessReply(scope, parse)
        case None => TechnicalErrorReply
        case Some(text) => text
      else if status == JStr("not_found") then NotFoundReply(orderNumber)
      else ApiErrorReply(message)
  }

  /**
   * The order reply as index.js is written: the `getVal` of line 135 is
   * declared where the `data` of line 175 is out of scope, so a success
   * answer always ends in the technical apology.
   */
  function OrderReplyAsWritten(orderNumber: string, call: OrderCall, parse: DateParser): string {
    OrderReplyIn(orderNumber, call, None, parse)
  }

  /** The order reply as intended: `getVal` reads the `data` of the service's answer. */
  function OrderReply(orderNumber: string, call: OrderCall, parse: DateParser): string {
    OrderReplyIn(orderNumber, call, if call.Answered? then Some(call.data) else None, parse)
  }

  /** `geminiResponse.data.candidates[0].content.parts[0].text`, or `None` where the access throws. */
  function FirstPartText(candidates: Option<seq<Candidate>>): Option<string> {
    match candidates
    case None => None
    case Some(cs) =>
      if |cs| == 0 then None
      else
        match cs[0].content
        case None => None
        case Some(content) =>
          match content.parts
          case None => None
          case Some(ps) => if |ps| == 0 then None else Some(ps[0].text)
  }

  /** The reply of the chat path once a key is configured (index.js:326-352). */
  function ChatReply(call: ChatCall): string {
    match call
    case ChatFailed => ChatErrorReply
    case ChatAnswered(candidates) =>
      match FirstPartText(candidates)
      case None => ChatErrorReply
      case Some(text) => text
  }

  /** `!GEMINI_API_KEY`: the variable is unset or empty. */
  predicate KeyMissing(apiKey: Option<string>) {
    apiKey == None || apiKey == Some("")
  }

  /**
   * Everything the handler does with one message body, in order; `orderCall`
   * and `chatCall` stand for whatever the upstream services answer. The
   * order path uses the corrected `OrderReply`; index.js as written answers
   * a found order as `OrderReplyAsWritten` does.
   */
  function HandleMessage(body: string, apiKey: Option<string>, orderCall: OrderCall, chatCall: ChatCall,
                         parse: DateParser): seq<Effect>
  {
    if IsOrderCommand(body) then
      var orderNumber := ExtractOrderNumber(body);
      [QueryOrderApi(orderNumber), SendReply(OrderReply(orderNumber, orderCall, parse))]
    else if KeyMissing(apiKey) then
      [SendReply(MissingKeyReply)]
    else
      [QueryChatModel(apiKey.value, body), SendReply(ChatReply(chatCall))]
  }

  function CountReplies(effects: seq<Effect>): nat {
    if effects == [] then 0 else (if effects[0].SendReply? then 1 else 0) + CountReplies(effects[1..])
  }

  // ---------------------------------------------------------------------------
  // Properties

  /** Every message gets exactly one reply, and it is the last thing the handler does. */
  lemma ExactlyOneReply(body: string, apiKey: Option<string>, orderCall: OrderCall, chatCall: ChatCall, parse: DateParser)
    ensures var effects := HandleMessage(body, apiKey, orderCall, chatCall, parse);
      effects != [] && effects[|effects| - 1].SendReply? && CountReplies(effects) == 1
  {
    var effects := HandleMessage(body, apiKey, orderCall, chatCall, parse);
    if |effects| == 1 {
      assert CountReplies(effects[1..]) == 0;
    } else {
      assert effects[1..][1..] == [];
      assert CountReplies(effects[1..][1..]) == 0;
      assert CountReplies(effects[1..]) == 1;
    }
  }

  /**
   * The order service is queried exactly when the body is an order command,
   * with the extracted order number; the language model never on that path.
   */
  lemma OrderPathIff(body: string, apiKey: Option<string>, orderCall: OrderCall, chatCall: ChatCall, parse: DateParser)
    ensures var effects := HandleMessage(body, apiKey, orderCall, chatCall, parse);
      (exists e :: e in effects && e.QueryOrderApi?) <==> IsOrderCommand(body)
    ensures var effects := HandleMessage(body, apiKey, orderCall, chatCall, parse);
      IsOrderCommand(body) ==>
        (effects[0] == QueryOrderApi(ExtractOrderNumber(body)) && forall e :: e in effects ==> !e.QueryChatModel?)
  {
    var effects := HandleMessage(body, apiKey, orderCall, chatCall, parse);
    if IsOrderCommand(body) {
      assert effects[0] in effects;
    }
  }

  /** Without an API key the language model is never called and the reply is the missing-key text. */
  lemma NoChatCallWithoutKey(body: string, apiKey: Option<string>, orderCall: OrderCall, chatCall: ChatCall, parse: DateParser)
    requires !IsOrderCommand(body) && KeyMissing(apiKey)
    ensures HandleMessage(body, apiKey, orderCall, chatCall, parse) == [SendReply(MissingKeyReply)]
    ensures forall e :: e in HandleMessage(body, apiKey, orderCall, chatCall, parse) ==> !e.QueryChatModel?
  {
  }

  /** With a key, the model gets the body as it was typed, and the reply is its first part's text or the apology. */
  lemma ChatPath(body: string, key: string, orderCall: OrderCall, chatCall: ChatCall, parse: DateParser)
    requires !IsOrderCommand(body) && key != ""
    ensures HandleMessage(body, Some(key), orderCall, chatCall, parse) ==
      [QueryChatModel(key, body), SendReply(ChatReply(chatCall))]
    ensures chatCall.ChatAnswered? && FirstPartText(chatCall.candidates).Some? ==>
      ChatReply(chatCall) == FirstPartText(chatCall.candidates).value
    ensures chatCall.ChatFailed? || FirstPartText(chatCall.candidates).None? ==> ChatReply(chatCall) == ChatErrorReply
  {
  }

  /** The first part's text is read exactly when there is a first candidate with content and a first part. */
  lemma FirstPartTextIff(candidates: Option<seq<Candidate>>)
    ensures FirstPartText(candidates).Some? <==>
      candidates.Some? && |candidates.value| > 0 && candidates.value[0].content.Some?
      && candidates.value[0].content.value.parts.Some? && |candidates.value[0].content.value.parts.value| > 0
    ensures FirstPartText(candidates).Some? ==>
      FirstPartText(candidates).value == candidates.value[0].content.value.parts.value[0].text
  {
  }

  /**
   * The reply to an order lookup: the formatted record on success, the
   * not-found text naming the order on `not_found`, the error text with the
   * service's message on any other status, and the technical apology when
   * the request or the reading of the answer throws.
   */
  lemma OrderReplyDispatch(orderNumber: string, call: OrderCall, parse: DateParser)
    ensures call.RequestFailed? || call.NullBody? ==> OrderReply(orderNumber, call, parse) == TechnicalErrorReply
    ensures call.Answered? && call.status == JStr("success") && call.data.Some? ==>
      OrderReply(orderNumber, call, parse) == OrderReplyText(call.data.value, parse)
    ensures call.Answered? && call.status == JStr("success") && call.data.None? ==>
      OrderReply(orderNumber, call, parse) == TechnicalErrorReply
    ensures call.Answered? && call.status == JStr("not_found") ==>
      OrderReply(orderNumber, call, parse) == NotFoundReply(orderNumber)
    ensures call.Answered? && call.status != JStr("success") && call.status != JStr("not_found") ==>
      OrderReply(orderNumber, call, parse) == ApiErrorReply(call.message)
  {
  }

  /** The not-found reply names the order that was looked up. */
  lemma NotFoundNamesOrder(orderNumber: string)
    ensures Contains(NotFoundReply(orderNumber), orderNumber)
  {
    ContainsMiddle("Numéro de commande '", orderNumber, "' introuvable. Veuillez vérifier et réessayer.");
  }

  /** The error reply carries the service's message when it has one, and the fixed text otherwise. */
  lemma ApiErrorCarriesMessage(message: JsonValue)
    ensures StartsWith(ApiErrorReply(message), ApiErrorPrefix)
    ensures Truthy(message) ==> EndsWith(ApiErrorReply(message), Text(message))
    ensures !Truthy(message) ==> EndsWith(ApiErrorReply(message), UnknownApiError)
  {
    var tail := if Truthy(message) then Text(message) else UnknownApiError;
    assert (ApiErrorPrefix + tail)[..|ApiErrorPrefix|] == ApiErrorPrefix;
    assert (ApiErrorPrefix + tail)[|ApiErrorPrefix + tail| - |tail|..] == tail;
  }

  /**
   * As written, an order that the service finds is answered with the
   * technical apology; the intended handler answers with the formatted
   * record, which opens with the order's identity line.
   */
  lemma GetValOutOfScope(orderNumber: string, record: Record, message: JsonValue, parse: DateParser)
    ensures var call := Answered(JStr("success"), Some(record), message);
      OrderReplyAsWritten(orderNumber, call, parse) == TechnicalErrorReply
      && OrderReply(orderNumber, call, parse) == OrderReplyText(record, parse)
      && StartsWith(OrderReply(orderNumber, call, parse), IdentityLine(record))
  {
    var call := Answered(JStr("success"), Some(record), message);
    assert SuccessReply(None, parse).None?;
    assert OrderReply(orderNumber, call, parse) == OrderReplyText(record, parse) by {
      assert SuccessReply(Some(call.data), parse) == Some(OrderReplyText(record, parse));
    }
    OrderReplyShape(record, parse);
  }

  /** Outside the success branch the scoping fault does not show: both versions agree. */
  lemma AsWrittenAgreesElsewhere(orderNumber: string, call: OrderCall, parse: DateParser)
    requires !(call.Answered? && call.status == JStr("success"))
    ensures OrderReplyAsWritten(orderNumber, call, parse) == OrderReply(orderNumber, call, parse)
  {
  }

  /** "of9999?" answered `not_found` queries order OF9999 and names it in the reply. */
  lemma NotFoundScenario(body: string, apiKey: Option<string>, record: Option<Record>, chatCall: ChatCall, parse: DateParser)
    requires Upper(body) == "OF9999?"
    ensures HandleMessage(body, apiKey, Answered(JStr("not_found"), record, JNull), chatCall, parse) ==
      [QueryOrderApi("OF9999"), SendReply(NotFoundReply("OF9999"))]
  {
    NoBlanksAround(body, "OF9999?");
    assert "OF9999?"[..6] == "OF9999";
    assert IsOrderCommand(body) by {
      assert Upper(body)[..2] == "OF";
    }
  }
}

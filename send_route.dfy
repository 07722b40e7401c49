/**
 * The `POST /send` route (index.js:50-66): checks that a number and a
 * message were given, turns the number into a WhatsApp chat id, and reports
 * whether the message went out. The WhatsApp client is given as whether it
 * is ready and what sending yields.
 */
module SendRoute {
  import opened Options
  import opened JsStrings
  import opened Json

  /** The suffix of a personal chat id. */
  const ChatSuffix := "@c.us"

  /** `number.includes('@c.us') ? number : `${number}@c.us``. */
  function FormatNumber(number: string): string {
    if Contains(number, ChatSuffix) then number else number + ChatSuffix
  }

  /** What sending yielded: the sent message's id, or the thrown error's `message`, `statusCode` and `responseBody`. */
  datatype SendAttempt =
    | Delivered(id: string)
    | DeliveryFailed(message: JsonValue, statusCode: JsonValue, responseBody: JsonValue)

  /** The JSON body of a response. */
  datatype SendBody =
    | MissingFields
    | Sent(id: string, note: string)
    | ClientNotReady
    | SendFailed(details: JsonValue, statusCode: JsonValue, responseBody: JsonValue)

  /** The route either answers with a status and a body, or throws before it answers. */
  datatype SendResponse = NoResponse | Respond(status: int, body: SendBody)

  /** A message handed to the WhatsApp client, and to which chat. */
  datatype Dispatch = Dispatch(chatId: string, message: JsonValue)

  datatype SendOutcome = SendOutcome(dispatched: Option<Dispatch>, response: SendResponse)

  /** `x || 'N/A'`. */
  function OrNotAvailable(v: JsonValue): JsonValue {
    if Truthy(v) then v else JStr("N/A")
  }

  /**
   * The route for a request body with fields `number` and `message` (`JNull`
   * when absent). A truthy `number` that is not a string has no `includes`
   * method: the TypeError is thrown outside the `try`, so the route itself
   * sends no response. `NoResponse` stands for that escaping error; what
   * follows from it (an unhandled promise rejection, or a 500 from the web
   * framework) depends on framework and runtime versions.
   */
  function HandleSend(number: JsonValue, message: JsonValue, clientReady: bool, attempt: SendAttempt): SendOutcome {
    if !Truthy(number) || !Truthy(message) then SendOutcome(None, Respond(400, MissingFields))
    else if !number.JStr? then SendOutcome(None, NoResponse)
    else
      var chatId := FormatNumber(number.s);
      if !clientReady then SendOutcome(None, Respond(500, ClientNotReady))
      else
        var dispatched := Some(Dispatch(chatId, message));
        match attempt
        case Delivered(id) => SendOutcome(dispatched, Respond(200, Sent(id, "Message sent to " + number.s)))
        case DeliveryFailed(m, code, body) =>
          SendOutcome(dispatched, Respond(500, SendFailed(m, OrNotAvailable(code), OrNotAvailable(body))))
  }

  // ---------------------------------------------------------------------------
  // Properties

  /** A formatted number always contains the suffix and begins with the number as given. */
  lemma FormatNumberHasSuffix(number: string)
    ensures Contains(FormatNumber(number), ChatSuffix)
    ensures StartsWith(FormatNumber(number), number)
  {
    if !Contains(number, ChatSuffix) {
      ContainsSuffix(number, ChatSuffix);
      assert (number + ChatSuffix)[..|number|] == number;
    }
  }

  /** The number is left alone exactly when it already contains the suffix. */
  lemma FormatNumberUnchangedIff(number: string)
    ensures FormatNumber(number) == number <==> Contains(number, ChatSuffix)
  {
    if !Contains(number, ChatSuffix) {
      assert |FormatNumber(number)| == |number| + 5;
    }
  }

  /** Formatting twice gives what formatting once gives. */
  lemma FormatNumberIdempotent(number: string)
    ensures FormatNumber(FormatNumber(number)) == FormatNumber(number)
  {
    FormatNumberHasSuffix(number);
  }

  /** A request is rejected with 400, and nothing is sent, exactly when a field is missing or falsy. */
  lemma MissingFieldsIff(number: JsonValue, message: JsonValue, clientReady: bool, attempt: SendAttempt)
    ensures var out := HandleSend(number, message, clientReady, attempt);
      (out.response.Respond? && out.response.status == 400) <==> (!Truthy(number) || !Truthy(message))
    ensures !Truthy(number) || !Truthy(message) ==>
      HandleSend(number, message, clientReady, attempt) == SendOutcome(None, Respond(400, MissingFields))
  {
  }

  /**
   * A message is handed to the client exactly when both fields are given,
   * the number is a string and the client is ready; it goes to the
   * formatted chat id.
   */
  lemma DispatchIff(number: JsonValue, message: JsonValue, clientReady: bool, attempt: SendAttempt)
    ensures var out := HandleSend(number, message, clientReady, attempt);
      out.dispatched.Some? <==> Truthy(number) && Truthy(message) && number.JStr? && clientReady
    ensures var out := HandleSend(number, message, clientReady, attempt);
      out.dispatched.Some? ==>
        out.dispatched.value == Dispatch(FormatNumber(number.s), message)
        && Contains(out.dispatched.value.chatId, ChatSuffix)
  {
    if Truthy(number) && number.JStr? {
      FormatNumberHasSuffix(number.s);
    }
  }

  /**
   * Every response is 200, 400 or 500; 200 exactly when the message was
   * delivered, and 500 when the client is not ready or sending failed. Only
   * a non-string number leaves the request without a response.
   */
  lemma StatusCodes(number: JsonValue, message: JsonValue, clientReady: bool, attempt: SendAttempt)
    ensures var r := HandleSend(number, message, clientReady, attempt).response;
      r.NoResponse? <==> Truthy(number) && Truthy(message) && !number.JStr?
    ensures var r := HandleSend(number, message, clientReady, attempt).response;
      r.Respond? ==> r.status == 200 || r.status == 400 || r.status == 500
    ensures var r := HandleSend(number, message, clientReady, attempt).response;
      (r.Respond? && r.status == 200) <==>
        Truthy(number) && Truthy(message) && number.JStr? && clientReady && attempt.Delivered?
    ensures var r := HandleSend(number, message, clientReady, attempt).response;
      Truthy(number) && Truthy(message) && number.JStr? && !clientReady ==> r == Respond(500, ClientNotReady)
  {
  }

  /** The success note names the number as given, not the formatted chat id. */
  lemma SentNoteUsesRawNumber(number: string, message: JsonValue, id: string)
    requires number != "" && Truthy(message)
    ensures HandleSend(JStr(number), message, true, Delivered(id)).response
      == Respond(200, Sent(id, "Message sent to " + number))
  {
  }
}

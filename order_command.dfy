/**
 * Recognising an order command ("OF17001?", "of17001") in a chat message and
 * deriving the order number sent to the order service (index.js:154-160).
 */
module OrderCommand {
  import opened JsStrings

  /** `message.body.toUpperCase().startsWith('OF')`: the body is not trimmed first. */
  predicate IsOrderCommand(body: string) {
    StartsWith(Upper(body), "OF")
  }

  /** The order number: the upper-cased, trimmed body, less one trailing `?` if there is one. */
  function ExtractOrderNumber(body: string): string {
    DropQuestionMark(Trim(Upper(body)))
  }

  /** `if (orderNumber.endsWith('?')) orderNumber = orderNumber.slice(0, -1)`. */
  function DropQuestionMark(orderNumber: string): string {
    if EndsWith(orderNumber, "?") then orderNumber[..|orderNumber| - 1] else orderNumber
  }

  /** An order command is exactly a body whose first two characters are `o`/`O` then `f`/`F`. */
  lemma OrderCommandIff(body: string)
    ensures IsOrderCommand(body) <==>
      |body| >= 2 && (body[0] == 'o' || body[0] == 'O') && (body[1] == 'f' || body[1] == 'F')
  {
    if |body| >= 2 {
      assert Upper(body)[..2] == [UpperChar(body[0]), UpperChar(body[1])];
    }
  }

  /** The order number of an order command begins with "OF"; at most one `?` is removed from the end. */
  lemma OrderNumberShape(body: string)
    requires IsOrderCommand(body)
    ensures |ExtractOrderNumber(body)| >= 2 && ExtractOrderNumber(body)[..2] == "OF"
    ensures var t := Trim(Upper(body));
      ExtractOrderNumber(body) == t || ExtractOrderNumber(body) + "?" == t
  {
    var u := Upper(body);
    assert u[..2] == "OF";
    TrimmedCommand(u);
  }

  lemma TrimmedCommand(u: string)
    requires |u| >= 2 && u[..2] == "OF"
    ensures |DropQuestionMark(Trim(u))| >= 2 && DropQuestionMark(Trim(u))[..2] == "OF"
    ensures DropQuestionMark(Trim(u)) == Trim(u) || DropQuestionMark(Trim(u)) + "?" == Trim(u)
  {
    assert u[0] == 'O' && u[1] == 'F';
    TrimOfNonBlankStart(u);
    var t := TrimEnd(u);
    TrimEndRemovesWhitespace(u);
    assert t == u[..|t|];
    // the removed tail is whitespace, and 'F' at index 1 is not
    assert |t| >= 2;
    assert t[..2] == "OF";
    if EndsWith(t, "?") {
      assert t[|t| - 1] == '?';
      assert |t| >= 3;
      assert t[..|t| - 1][..2] == "OF";
      assert t[..|t| - 1] + "?" == t;
    }
  }

  /** Case does not matter: a body and its upper-cased form give the same command and order number. */
  lemma CaseInsensitive(body: string)
    ensures IsOrderCommand(Upper(body)) == IsOrderCommand(body)
    ensures ExtractOrderNumber(Upper(body)) == ExtractOrderNumber(body)
  {
    UpperIdempotent(body);
  }

  /** Only one `?` is removed: a trimmed body ending in "??" gives an order number that still ends in `?`. */
  lemma OnlyOneQuestionMarkRemoved(body: string)
    requires EndsWith(Trim(Upper(body)), "??")
    ensures EndsWith(ExtractOrderNumber(body), "?")
    ensures ExtractOrderNumber(body) + "?" == Trim(Upper(body))
  {
    DropOneOfTwo(Trim(Upper(body)));
  }

  lemma DropOneOfTwo(t: string)
    requires EndsWith(t, "??")
    ensures EndsWith(DropQuestionMark(t), "?") && DropQuestionMark(t) + "?" == t
  {
    assert t[|t| - 1] == '?' && t[|t| - 2] == '?';
    assert EndsWith(t, "?") by {
      assert t[|t| - 1..] == [t[|t| - 1]];
    }
    var n := t[..|t| - 1];
    assert n[|n| - 1..] == [t[|t| - 2]];
    assert n + "?" == t;
  }

  /** "of12345?" and "OF12345" name the same order; "OF1??" keeps one `?`. */
  lemma OrderNumberExamples(a: string, b: string, c: string)
    requires Upper(a) == "OF12345?" && Upper(b) == "OF12345" && Upper(c) == "OF1??"
    ensures ExtractOrderNumber(a) == ExtractOrderNumber(b) == "OF12345"
    ensures ExtractOrderNumber(c) == "OF1?"
  {
    NoBlanksAround(a, "OF12345?");
    NoBlanksAround(b, "OF12345");
    NoBlanksAround(c, "OF1??");
  }

  lemma NoBlanksAround(body: string, u: string)
    requires Upper(body) == u && u != [] && !IsWhitespace(u[0]) && !IsWhitespace(u[|u| - 1])
    ensures ExtractOrderNumber(body) == if u[|u| - 1] == '?' then u[..|u| - 1] else u
  {
  }

  /** Words such as "offre" count as commands; a leading blank sends the message to the chat path. */
  lemma CommandPrefixExamples()
    ensures IsOrderCommand("offre") && IsOrderCommand("of12345?")
    ensures !IsOrderCommand(" OF1") && !IsOrderCommand("") && !IsOrderCommand("O")
  {
    OrderCommandIff(" OF1");
    OrderCommandIff("offre");
    OrderCommandIff("of12345?");
    OrderCommandIff("O");
  }
}

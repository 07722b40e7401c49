/**
 * The reply built from one order record (index.js:135-151, 176-298): an
 * identity line, the present fields in a fixed order, a `---` separator and
 * four production dates, the whole trimmed.
 */
module OrderFormat {
  import opened Options
  import opened JsStrings
  import opened Json

  /** One block of the first section: a field on a line of its own, or several fields joined on one line. */
  datatype Field = Single(key: string) | Joined(keys: seq<string>, joiner: string)

  /** The blocks of the first section, in the order the handler pushes them (index.js:184-268). */
  const Layout: seq<Field> := DoorLayout + FinishLayout + FittingsLayout + ExtrasLayout

  /** Door type, temperature, opening side and dimensions (index.js:184-207). */
  const DoorLayout: seq<Field> := [
    Joined(["Type", "Simple/Double"], " - "),
    Single("Température"),
    Single("Sens"),
    Single("Détails sens"),
    Joined(["Hauteur", "Largeur", "Épaisseur"], " x ")
  ]

  /** Coatings, protections, frame and panel, sill and PVC return (index.js:209-234). */
  const FinishLayout: seq<Field> := [
    Joined(["Revêtement Extérieur", "Revêtement Intérieur"], " / "),
    Joined(["Protection Extérieure", "Protection Intérieure"], " / "),
    Joined(["Cadre", "Ép. Panneau"], ", "),
    Single("Seuil"),
    Single("Retour PVC")
  ]

  /** Hinges, hinge quantity, closing, lock and guide system (index.js:236-254). */
  const FittingsLayout: seq<Field> := [
    Single("Charnières"),
    Single("Quantité Charnières"),
    Single("Fermeture"),
    Single("Serrure"),
    Single("Système Guide")
  ]

  /** Handles, accessories and free-form information (index.js:256-268). */
  const ExtrasLayout: seq<Field> := [
    Joined(["Poignée Mobile", "Poignée Fixe"], " / "),
    Single("Accessoires"),
    Single("Infos")
  ]

  function Keys(f: Field): seq<string> {
    match f
    case Single(key) => [key]
    case Joined(keys, _) => keys
  }

  /** A field counts as present when `getVal` finds a truthy value for it. */
  predicate Present(data: Record, key: string) {
    Truthy(GetVal(data, key))
  }

  /** `if (getVal(key)) parts.push(getVal(key))`: the field's text when present, nothing otherwise. */
  function PartOf(data: Record, key: string): seq<string> {
    if Present(data, key) then [Text(GetVal(data, key))] else []
  }

  /** The rendered values of the present fields among `keys`, in order (what `dimParts`, `revParts`, … collect). */
  function PresentParts(data: Record, keys: seq<string>): seq<string> {
    if keys == [] then [] else PartOf(data, keys[0]) + PresentParts(data, keys[1..])
  }

  /** The line one block contributes, as the block of index.js:184-268 that handles it pushes. */
  function FieldLine(data: Record, f: Field): seq<string> {
    match f
    case Single(key) => PartOf(data, key)
    case Joined(keys, joiner) =>
      var parts := PresentParts(data, keys);
      if |parts| > 0 then [Join(parts, joiner)] else []
  }

  /** The lines of a sequence of blocks, block by block. */
  function BodyLines(data: Record, fields: seq<Field>): seq<string> {
    if fields == [] then [] else FieldLine(data, fields[0]) + BodyLines(data, fields[1..])
  }

  /** `*<Numéro>*`, followed by ` - <Numéro Client>` when the client number is present (index.js:180-181). */
  function IdentityLine(data: Record): string {
    var head := "*" + Text(GetVal(data, "Numéro")) + "*";
    if Present(data, "Numéro Client") then head + " - " + Text(GetVal(data, "Numéro Client")) else head
  }

  /** The lines of the first section: the identity line, then every block's line in layout order. */
  function OrderLines(data: Record): seq<string> {
    [IdentityLine(data)] + BodyLines(data, Layout)
  }

  type Day = d: int | 1 <= d <= 31 witness 1
  type Month = m: int | 1 <= m <= 12 witness 1

  /** What `getDate()` and `getMonth() + 1` yield for a parseable date. */
  datatype CalendarDay = CalendarDay(day: Day, month: Month)

  /** `new Date(value)` followed by the validity test: the day and month, or nothing for an invalid date. */
  type DateParser = JsonValue -> Option<CalendarDay>

  /** `DD.MM`, each number padded to two digits with `padStart(2, '0')`. */
  function DDMM(d: CalendarDay): string {
    PadStart(NatToString(d.day), 2, '0') + "." + PadStart(NatToString(d.month), 2, '0')
  }

  /** Reads `DD.MM` back. */
  function ParseDDMM(s: string): Option<CalendarDay> {
    if |s| == 5 && IsDigit(s[0]) && IsDigit(s[1]) && s[2] == '.' && IsDigit(s[3]) && IsDigit(s[4]) then
      var day := 10 * DigitValue(s[0]) + DigitValue(s[1]);
      var month := 10 * DigitValue(s[3]) + DigitValue(s[4]);
      if 1 <= day <= 31 && 1 <= month <= 12 then Some(CalendarDay(day, month)) else None
    else None
  }

  /** `DD.MM` is five characters with the dot in the middle, and reads back as the same day and month. */
  lemma DDMMRoundTrip(d: CalendarDay)
    ensures |DDMM(d)| == 5 && DDMM(d)[2] == '.'
    ensures ParseDDMM(DDMM(d)) == Some(d)
  {
    var dd := PadStart(NatToString(d.day), 2, '0');
    var mm := PadStart(NatToString(d.month), 2, '0');
    PadTwoDigits(d.day);
    PadTwoDigits(d.month);
    var s := dd + "." + mm;
    assert s[0] == dd[0] && s[1] == dd[1] && s[2] == '.' && s[3] == mm[0] && s[4] == mm[1];
  }

  /**
   * `formatDateToDDMM`: empty for a falsy value, `DD.MM` for a value the
   * parser accepts, and the value's own text for one it rejects.
   */
  function FormatDateToDDMM(value: JsonValue, parse: DateParser): string {
    if !Truthy(value) then ""
    else
      match parse(value)
      case None => Text(value)
      case Some(d) => DDMM(d)
  }

  /**
   * A date renders empty exactly when its value is falsy; a date the parser
   * accepts renders as five characters that read back as the parsed day and
   * month; any other value renders as its own text.
   */
  lemma FormatDateToDDMMSpec(value: JsonValue, parse: DateParser)
    ensures FormatDateToDDMM(value, parse) == "" <==> !Truthy(value)
    ensures Truthy(value) && parse(value).Some? ==>
      |FormatDateToDDMM(value, parse)| == 5 && ParseDDMM(FormatDateToDDMM(value, parse)) == parse(value)
    ensures Truthy(value) && parse(value).None? ==> FormatDateToDDMM(value, parse) == Text(value)
  {
    if Truthy(value) && parse(value).Some? {
      DDMMRoundTrip(parse(value).value);
    }
  }

  /** The four date lines, always present, in the order Tole, Aluminium, Injection, Montage (index.js:276-286). */
  function DateLines(data: Record, parse: DateParser): seq<string> {
    [ "*Tole*: " + FormatDateToDDMM(GetVal(data, "Tole Aluminium"), parse),
      "*Aluminium*: " + FormatDateToDDMM(GetVal(data, "Aluminium"), parse),
      "*Injection*: " + FormatDateToDDMM(GetVal(data, "Injection"), parse),
      "*Montage*: " + FormatDateToDDMM(GetVal(data, "Montage"), parse) ]
  }

  /** The date section with every date empty, as the comparison at index.js:292 spells it. */
  const EmptyDateSection := "*Tole*: \n*Aluminium*: \n*Injection*: \n*Montage*: "

  /** The reply for a found order: both sections separated by `---`, trimmed. */
  function OrderReplyText(data: Record, parse: DateParser): string {
    Trim(Join(OrderLines(data), "\n") + "\n\n---\n" + Join(DateLines(data, parse), "\n"))
  }

  // ---------------------------------------------------------------------------
  // Properties of the first section

  /** Only present values are collected, none of them empty, and none at all exactly when no field is present. */
  lemma {:induction false} PresentPartsSpec(data: Record, keys: seq<string>)
    ensures |PresentParts(data, keys)| <= |keys|
    ensures forall i :: 0 <= i < |PresentParts(data, keys)| ==> PresentParts(data, keys)[i] != ""
    ensures PresentParts(data, keys) == [] <==> forall k :: k in keys ==> !Present(data, k)
  {
    if keys != [] {
      PresentPartsSpec(data, keys[1..]);
      assert forall k :: k in keys ==> k == keys[0] || k in keys[1..];
    }
  }

  /** `part` is the text of one of the present fields among `keys`. */
  predicate TextOfPresent(data: Record, keys: seq<string>, part: string) {
    exists k :: k in keys && Present(data, k) && part == Text(GetVal(data, k))
  }

  /** Every collected part is the text of a field of the block that is present. */
  lemma {:induction false} PresentPartsSound(data: Record, keys: seq<string>)
    ensures forall i :: 0 <= i < |PresentParts(data, keys)| ==> TextOfPresent(data, keys, PresentParts(data, keys)[i])
  {
    if keys != [] {
      PresentPartsSound(data, keys[1..]);
      var head := PartOf(data, keys[0]);
      var rest := PresentParts(data, keys[1..]);
      assert PresentParts(data, keys) == head + rest;
      forall i | 0 <= i < |head + rest|
        ensures TextOfPresent(data, keys, (head + rest)[i])
      {
        if i < |head| {
          assert keys[0] in keys && Present(data, keys[0]);
        } else {
          assert (head + rest)[i] == rest[i - |head|];
          assert TextOfPresent(data, keys[1..], rest[i - |head|]);
          var k :| k in keys[1..] && Present(data, k) && rest[i - |head|] == Text(GetVal(data, k));
          assert k in keys;
        }
      }
    }
  }

  /** The text of every present field of the block is among the collected parts. */
  lemma {:induction false} PresentPartsComplete(data: Record, keys: seq<string>)
    ensures forall k :: k in keys && Present(data, k) ==> Text(GetVal(data, k)) in PresentParts(data, keys)
  {
    if keys != [] {
      PresentPartsComplete(data, keys[1..]);
      assert forall k :: k in keys ==> k == keys[0] || k in keys[1..];
    }
  }

  /** Parts are collected in key order: the parts of two runs of keys are those of the first, then those of the second. */
  lemma {:induction false} PresentPartsAppend(data: Record, a: seq<string>, b: seq<string>)
    ensures PresentParts(data, a + b) == PresentParts(data, a) + PresentParts(data, b)
  {
    if a == [] {
      assert a + b == b;
    } else {
      assert (a + b)[0] == a[0] && (a + b)[1..] == a[1..] + b;
      PresentPartsAppend(data, a[1..], b);
    }
  }

  /** A block gives no line when none of its fields is present, and otherwise exactly one non-empty line. */
  lemma FieldLineSpec(data: Record, f: Field)
    ensures |FieldLine(data, f)| <= 1
    ensures FieldLine(data, f) == [] <==> forall k :: k in Keys(f) ==> !Present(data, k)
    ensures FieldLine(data, f) != [] ==> FieldLine(data, f)[0] != ""
  {
    if f.Joined? {
      PresentPartsSpec(data, f.keys);
    }
  }

  /** Every line of the first section after the identity line is non-empty, at most one per block. */
  lemma {:induction false} BodyLinesSpec(data: Record, fields: seq<Field>)
    ensures |BodyLines(data, fields)| <= |fields|
    ensures forall i :: 0 <= i < |BodyLines(data, fields)| ==> BodyLines(data, fields)[i] != ""
  {
    if fields != [] {
      FieldLineSpec(data, fields[0]);
      BodyLinesSpec(data, fields[1..]);
    }
  }

  /** The lines of two runs of blocks are the lines of the first run followed by those of the second. */
  lemma {:induction false} BodyLinesAppend(data: Record, a: seq<Field>, b: seq<Field>)
    ensures BodyLines(data, a + b) == BodyLines(data, a) + BodyLines(data, b)
  {
    if a == [] {
      assert a + b == b;
    } else {
      assert (a + b)[0] == a[0] && (a + b)[1..] == a[1..] + b;
      BodyLinesAppend(data, a[1..], b);
    }
  }

  /** Lines keep the order of their blocks: everything before block `i` comes first, everything after it last. */
  lemma BodyLinesSplit(data: Record, fields: seq<Field>, i: nat)
    requires i < |fields|
    ensures BodyLines(data, fields) ==
      BodyLines(data, fields[..i]) + FieldLine(data, fields[i]) + BodyLines(data, fields[i + 1..])
  {
    assert fields == fields[..i] + ([fields[i]] + fields[i + 1..]);
    BodyLinesAppend(data, fields[..i], [fields[i]] + fields[i + 1..]);
    BodyLinesAppend(data, [fields[i]], fields[i + 1..]);
    assert BodyLines(data, [fields[i]]) == FieldLine(data, fields[i]) + BodyLines(data, []);
  }

  /** The blocks produce no line at all exactly when none of their fields is present. */
  lemma {:induction false} BodyLinesEmpty(data: Record, fields: seq<Field>)
    ensures BodyLines(data, fields) == [] <==>
      forall f, k :: f in fields && k in Keys(f) ==> !Present(data, k)
  {
    if fields != [] {
      FieldLineSpec(data, fields[0]);
      BodyLinesEmpty(data, fields[1..]);
      assert forall f :: f in fields ==> f == fields[0] || f in fields[1..];
    }
  }

  /** A block of one field gives a line exactly when the field is present, and that line is the field's text. */
  lemma SingleFieldLine(data: Record, key: string)
    ensures FieldLine(data, Single(key)) == if key in data && Truthy(data[key]) then [Text(data[key])] else []
  {
  }

  /** A two-field block joins the present values with its joiner, and shows one value alone without a joiner. */
  lemma PairFieldLine(data: Record, a: string, b: string, joiner: string)
    ensures FieldLine(data, Joined([a, b], joiner)) ==
      if Present(data, a) && Present(data, b) then [Text(GetVal(data, a)) + joiner + Text(GetVal(data, b))]
      else if Present(data, a) then [Text(GetVal(data, a))]
      else if Present(data, b) then [Text(GetVal(data, b))]
      else []
  {
    assert [a, b][1..] == [b] && [b][1..] == [];
    var parts := PresentParts(data, [a, b]);
    assert PresentParts(data, [b]) == if Present(data, b) then [Text(GetVal(data, b))] else [];
    if Present(data, a) && Present(data, b) {
      assert parts == [Text(GetVal(data, a)), Text(GetVal(data, b))];
      assert Join(parts, joiner) == Text(GetVal(data, a)) + joiner + Join([Text(GetVal(data, b))], joiner);
    } else if Present(data, a) {
      assert parts == [Text(GetVal(data, a))];
    } else if Present(data, b) {
      assert parts == [Text(GetVal(data, b))];
    }
  }

  /**
   * A three-field block (`Hauteur x Largeur x Épaisseur`) joins whichever
   * values are present, in field order, with its joiner between them.
   */
  lemma TripleFieldLine(data: Record, a: string, b: string, c: string, joiner: string)
    ensures var ta, tb, tc := Text(GetVal(data, a)), Text(GetVal(data, b)), Text(GetVal(data, c));
      FieldLine(data, Joined([a, b, c], joiner)) ==
        if Present(data, a) && Present(data, b) && Present(data, c) then [ta + joiner + tb + joiner + tc]
        else if Present(data, a) && Present(data, b) then [ta + joiner + tb]
        else if Present(data, a) && Present(data, c) then [ta + joiner + tc]
        else if Present(data, b) && Present(data, c) then [tb + joiner + tc]
        else if Present(data, a) then [ta]
        else if Present(data, b) then [tb]
        else if Present(data, c) then [tc]
        else []
  {
    var ta, tb, tc := Text(GetVal(data, a)), Text(GetVal(data, b)), Text(GetVal(data, c));
    TripleParts(data, a, b, c);
    var parts := PresentParts(data, [a, b, c]);
    if |parts| == 3 {
      JoinThree(parts[0], parts[1], parts[2], joiner);
      assert parts == [parts[0], parts[1], parts[2]];
    } else if |parts| == 2 {
      JoinTwo(parts[0], parts[1], joiner);
      assert parts == [parts[0], parts[1]];
    }
  }

  /** The identity line starts with the starred order number, is `**` when both numbers are empty, and the check at index.js:182 never drops it. */
  lemma IdentityLineKept(data: Record)
    ensures StartsWith(IdentityLine(data), "*" + Text(GetVal(data, "Numéro")) + "*")
    ensures !Present(data, "Numéro") && !Present(data, "Numéro Client") ==> IdentityLine(data) == "**"
    ensures Trim(IdentityLine(data)) != "*"
  {
    var line := IdentityLine(data);
    var head := "*" + Text(GetVal(data, "Numéro")) + "*";
    assert line[..|head|] == head;
    TrimOfNonBlankStart(line);
    var t := TrimEnd(line);
    TrimEndRemovesWhitespace(line);
    // the closing star of the head is not whitespace, so trimming stops at or after it
    assert line[|head| - 1] == '*';
    assert |t| >= |head| >= 2;
  }

  // ---------------------------------------------------------------------------
  // The whole reply

  /** Trimming a reply that opens, and whose date section opens, with `*` only touches the end of the date section. */
  lemma TrimAroundSeparator(first: string, id: string, dates: string)
    requires StartsWith(first, id) && id != [] && id[0] == '*' && dates != [] && dates[0] == '*'
    ensures Trim(first + "\n\n---\n" + dates) == first + "\n\n---\n" + TrimEnd(dates)
    ensures StartsWith(first + "\n\n---\n" + TrimEnd(dates), id)
  {
    var head := first + "\n\n---\n";
    assert (head + dates)[0] == first[0] == '*';
    TrimOfNonBlankStart(head + dates);
    TrimEndBefore(head, dates);
    assert (head + TrimEnd(dates))[..|id|] == first[..|id|];
  }

  /** Of four lines joined, trimming the end only touches the last line when that line opens with `*`. */
  lemma TrimLastOfFour(l0: string, l1: string, l2: string, l3: string)
    requires l3 != [] && l3[0] == '*'
    ensures TrimEnd(Join([l0, l1, l2, l3], "\n")) == l0 + "\n" + l1 + "\n" + l2 + "\n" + TrimEnd(l3)
  {
    JoinFour(l0, l1, l2, l3, "\n");
    TrimEndBefore(l0 + "\n" + l1 + "\n" + l2 + "\n", l3);
  }

  /** The reply is the first section, the separator and the date section; the trim leaves the reply's start, which is the identity line, untouched. */
  lemma OrderReplyShape(data: Record, parse: DateParser)
    ensures OrderReplyText(data, parse) ==
      Join(OrderLines(data), "\n") + "\n\n---\n" + TrimEnd(Join(DateLines(data, parse), "\n"))
    ensures StartsWith(OrderReplyText(data, parse), IdentityLine(data))
  {
    var lines := OrderLines(data);
    var dateLines := DateLines(data, parse);
    IdentityLineKept(data);
    assert lines[0] == IdentityLine(data);
    assert dateLines[0][0] == '*';
    TrimAroundSeparator(Join(lines, "\n"), IdentityLine(data), Join(dateLines, "\n"));
  }

  /** Every reply to a found order is non-empty and opens with the `*` of the identity line. */
  lemma OrderReplyOpensWithStar(data: Record, parse: DateParser)
    ensures |OrderReplyText(data, parse)| > 0 && OrderReplyText(data, parse)[0] == '*'
  {
    OrderReplyShape(data, parse);
    IdentityLineKept(data);
    assert IdentityLine(data)[0] == '*';
  }

  /** Of the date section only the end of the Montage line can be trimmed. */
  lemma DateSectionTrimmed(data: Record, parse: DateParser)
    ensures var lines := DateLines(data, parse);
      TrimEnd(Join(lines, "\n")) == lines[0] + "\n" + lines[1] + "\n" + lines[2] + "\n" + TrimEnd(lines[3])
  {
    var lines := DateLines(data, parse);
    assert lines == [lines[0], lines[1], lines[2], lines[3]];
    assert lines[3][0] == '*';
    TrimLastOfFour(lines[0], lines[1], lines[2], lines[3]);
  }

  /** A missing Montage date leaves `*Montage*:` at the end of the reply. */
  lemma MissingMontageTrimmed(value: JsonValue, parse: DateParser)
    requires !Truthy(value)
    ensures TrimEnd("*Montage*: " + FormatDateToDDMM(value, parse)) == "*Montage*:"
  {
    assert FormatDateToDDMM(value, parse) == "";
    assert "*Montage*: " + "" == "*Montage*: ";
    assert TrimEnd("*Montage*: ") == "*Montage*:";
  }

  /** A date the parser accepts renders as `DD.MM`, whose last character is a digit. */
  lemma ParsedDateEndsInDigit(value: JsonValue, parse: DateParser)
    requires Truthy(value) && parse(value).Some?
    ensures |FormatDateToDDMM(value, parse)| == 5 && IsDigit(FormatDateToDDMM(value, parse)[4])
  {
    var d := parse(value).value;
    assert FormatDateToDDMM(value, parse) == DDMM(d);
    PadTwoDigits(d.day);
    PadTwoDigits(d.month);
  }

  /** A Montage date the parser accepts ends in a digit, so the trim keeps it whole. */
  lemma ParsedMontageKept(value: JsonValue, parse: DateParser)
    requires Truthy(value) && parse(value).Some?
    ensures TrimEnd("*Montage*: " + FormatDateToDDMM(value, parse)) == "*Montage*: " + FormatDateToDDMM(value, parse)
  {
    var m := FormatDateToDDMM(value, parse);
    ParsedDateEndsInDigit(value, parse);
    KeptAfterLabel("*Montage*: ", m);
  }

  lemma KeptAfterLabel(head: string, m: string)
    requires |m| == 5 && IsDigit(m[4])
    ensures TrimEnd(head + m) == head + m
  {
    var line := head + m;
    assert line[|line| - 1] == m[4];
    TrimEndOfNonBlankEnd(line);
  }

  /** With no date present the date section is the four bare labels, the last one losing its trailing blank. */
  lemma NoDatesTrimmed(data: Record, parse: DateParser)
    requires !Present(data, "Tole Aluminium") && !Present(data, "Aluminium")
    requires !Present(data, "Injection") && !Present(data, "Montage")
    ensures TrimEnd(Join(DateLines(data, parse), "\n")) ==
      "*Tole*: " + "\n" + "*Aluminium*: " + "\n" + "*Injection*: " + "\n" + "*Montage*:"
  {
    DateSectionTrimmed(data, parse);
    MissingMontageTrimmed(GetVal(data, "Montage"), parse);
    FormatDateToDDMMSpec(GetVal(data, "Tole Aluminium"), parse);
    FormatDateToDDMMSpec(GetVal(data, "Aluminium"), parse);
    FormatDateToDDMMSpec(GetVal(data, "Injection"), parse);
    var lines := DateLines(data, parse);
    assert lines[0] == "*Tole*: " && lines[1] == "*Aluminium*: " && lines[2] == "*Injection*: ";
  }

  /**
   * A record with nothing to show but its order number (any other field,
   * such as a status, is ignored) gives the starred number and the four
   * date labels with no date.
   */
  lemma OnlyOrderNumberReply(data: Record, parse: DateParser)
    requires forall f, k :: f in Layout && k in Keys(f) ==> !Present(data, k)
    requires !Present(data, "Numéro Client")
    requires !Present(data, "Tole Aluminium") && !Present(data, "Aluminium")
    requires !Present(data, "Injection") && !Present(data, "Montage")
    ensures OrderReplyText(data, parse) ==
      "*" + Text(GetVal(data, "Numéro")) + "*" + "\n\n---\n"
      + ("*Tole*: " + "\n" + "*Aluminium*: " + "\n" + "*Injection*: " + "\n" + "*Montage*:")
  {
    BodyLinesEmpty(data, Layout);
    assert OrderLines(data) == [IdentityLine(data)];
    OrderReplyShape(data, parse);
    NoDatesTrimmed(data, parse);
  }

  // ---------------------------------------------------------------------------
  // The handler's step-by-step construction

  lemma PairParts(data: Record, a: string, b: string)
    ensures PresentParts(data, [a, b]) == PartOf(data, a) + PartOf(data, b)
  {
    assert [a, b][1..] == [b] && [b][1..] == [];
    assert PresentParts(data, [b]) == PartOf(data, b) + PresentParts(data, []);
  }

  lemma TripleParts(data: Record, a: string, b: string, c: string)
    ensures PresentParts(data, [a, b, c]) == PartOf(data, a) + PartOf(data, b) + PartOf(data, c)
  {
    assert [a, b, c][1..] == [b, c];
    PairParts(data, b, c);
  }

  /** Pushing the line of the next pending block leaves the lines still to come unchanged. */
  lemma NextBlock(data: Record, parts: seq<string>, pending: seq<Field>)
    requires pending != []
    ensures (parts + FieldLine(data, pending[0])) + BodyLines(data, pending[1..]) == parts + BodyLines(data, pending)
  {
    assert BodyLines(data, pending) == FieldLine(data, pending[0]) + BodyLines(data, pending[1..]);
  }

  /** `let v = getVal(key); if (v) parts.push(v);`: one field on a line of its own. */
  method PushSingle(data: Record, parts: seq<string>, key: string, ghost pending: seq<Field>)
    returns (parts': seq<string>, ghost pending': seq<Field>)
    requires pending != [] && pending[0] == Single(key)
    ensures parts' == parts + FieldLine(data, Single(key))
    ensures pending' == pending[1..] && parts' + BodyLines(data, pending') == parts + BodyLines(data, pending)
  {
    parts' := parts;
    var value := GetVal(data, key);
    if Truthy(value) {
      parts' := parts' + [Text(value)];
    }
    assert parts' == parts + PartOf(data, key);
    pending' := pending[1..];
    NextBlock(data, parts, pending);
  }

  /** Collects the present values of two fields and pushes them joined, when there is at least one. */
  method PushPair(data: Record, parts: seq<string>, a: string, b: string, joiner: string, ghost pending: seq<Field>)
    returns (parts': seq<string>, ghost pending': seq<Field>)
    requires pending != [] && pending[0] == Joined([a, b], joiner)
    ensures parts' == parts + FieldLine(data, Joined([a, b], joiner))
    ensures pending' == pending[1..] && parts' + BodyLines(data, pending') == parts + BodyLines(data, pending)
  {
    var collected: seq<string> := [];
    if Truthy(GetVal(data, a)) {
      collected := collected + [Text(GetVal(data, a))];
    }
    assert collected == PartOf(data, a);
    if Truthy(GetVal(data, b)) {
      collected := collected + [Text(GetVal(data, b))];
    }
    assert collected == PartOf(data, a) + PartOf(data, b);
    PairParts(data, a, b);
    parts' := parts;
    if |collected| > 0 {
      parts' := parts' + [Join(collected, joiner)];
    }
    pending' := pending[1..];
    NextBlock(data, parts, pending);
  }

  /** Collects the present values of three fields and pushes them joined, when there is at least one. */
  method PushTriple(data: Record, parts: seq<string>, a: string, b: string, c: string, joiner: string, ghost pending: seq<Field>)
    returns (parts': seq<string>, ghost pending': seq<Field>)
    requires pending != [] && pending[0] == Joined([a, b, c], joiner)
    ensures parts' == parts + FieldLine(data, Joined([a, b, c], joiner))
    ensures pending' == pending[1..] && parts' + BodyLines(data, pending') == parts + BodyLines(data, pending)
  {
    var collected: seq<string> := [];
    if Truthy(GetVal(data, a)) {
      collected := collected + [Text(GetVal(data, a))];
    }
    assert collected == PartOf(data, a);
    if Truthy(GetVal(data, b)) {
      collected := collected + [Text(GetVal(data, b))];
    }
    assert collected == PartOf(data, a) + PartOf(data, b);
    if Truthy(GetVal(data, c)) {
      collected := collected + [Text(GetVal(data, c))];
    }
    assert collected == PartOf(data, a) + PartOf(data, b) + PartOf(data, c);
    TripleParts(data, a, b, c);
    parts' := parts;
    if |collected| > 0 {
      parts' := parts' + [Join(collected, joiner)];
    }
    pending' := pending[1..];
    NextBlock(data, parts, pending);
  }

  /** The handler's pushes for the door blocks, in order. */
  method PushDoorBlocks(data: Record, parts: seq<string>) returns (parts': seq<string>)
    ensures parts' == parts + BodyLines(data, DoorLayout)
  {
    ghost var pending := DoorLayout;
    parts' := parts;
    parts', pending := PushPair(data, parts', "Type", "Simple/Double", " - ", pending);
    parts', pending := PushSingle(data, parts', "Température", pending);
    parts', pending := PushSingle(data, parts', "Sens", pending);
    parts', pending := PushSingle(data, parts', "Détails sens", pending);
    parts', pending := PushTriple(data, parts', "Hauteur", "Largeur", "Épaisseur", " x ", pending);
    assert pending == [];
  }

  /** The handler's pushes for the finish blocks, in order. */
  method PushFinishBlocks(data: Record, parts: seq<string>) returns (parts': seq<string>)
    ensures parts' == parts + BodyLines(data, FinishLayout)
  {
    ghost var pending := FinishLayout;
    parts' := parts;
    parts', pending := PushPair(data, parts', "Revêtement Extérieur", "Revêtement Intérieur", " / ", pending);
    parts', pending := PushPair(data, parts', "Protection Extérieure", "Protection Intérieure", " / ", pending);
    parts', pending := PushPair(data, parts', "Cadre", "Ép. Panneau", ", ", pending);
    parts', pending := PushSingle(data, parts', "Seuil", pending);
    parts', pending := PushSingle(data, parts', "Retour PVC", pending);
    assert pending == [];
  }

  /** The handler's pushes for the fittings blocks, in order. */
  method PushFittingsBlocks(data: Record, parts: seq<string>) returns (parts': seq<string>)
    ensures parts' == parts + BodyLines(data, FittingsLayout)
  {
    ghost var pending := FittingsLayout;
    parts' := parts;
    parts', pending := PushSingle(data, parts', "Charnières", pending);
    parts', pending := PushSingle(data, parts', "Quantité Charnières", pending);
    parts', pending := PushSingle(data, parts', "Fermeture", pending);
    parts', pending := PushSingle(data, parts', "Serrure", pending);
    parts', pending := PushSingle(data, parts', "Système Guide", pending);
    assert pending == [];
  }

  /** The handler's pushes for the last blocks, in order. */
  method PushExtrasBlocks(data: Record, parts: seq<string>) returns (parts': seq<string>)
    ensures parts' == parts + BodyLines(data, ExtrasLayout)
  {
    ghost var pending := ExtrasLayout;
    parts' := parts;
    parts', pending := PushPair(data, parts', "Poignée Mobile", "Poignée Fixe", " / ", pending);
    parts', pending := PushSingle(data, parts', "Accessoires", pending);
    parts', pending := PushSingle(data, parts', "Infos", pending);
    assert pending == [];
  }

  /** The lines of the whole layout are those of its four groups in turn. */
  lemma LayoutLines(data: Record)
    ensures BodyLines(data, Layout) ==
      BodyLines(data, DoorLayout) + BodyLines(data, FinishLayout)
      + BodyLines(data, FittingsLayout) + BodyLines(data, ExtrasLayout)
  {
    BodyLinesAppend(data, DoorLayout + FinishLayout + FittingsLayout, ExtrasLayout);
    BodyLinesAppend(data, DoorLayout + FinishLayout, FittingsLayout);
    BodyLinesAppend(data, DoorLayout, FinishLayout);
  }

  /**
   * Lines 180-182 of index.js: the identity line is built and pushed unless
   * it trims to a lone `*`, which never happens.
   */
  method PushIdentity(data: Record) returns (replyMessageParts: seq<string>)
    ensures replyMessageParts == [IdentityLine(data)]
  {
    replyMessageParts := [];
    var lineNumClient := "*" + Text(GetVal(data, "Numéro")) + "*";
    if Truthy(GetVal(data, "Numéro Client")) {
      lineNumClient := lineNumClient + " - " + Text(GetVal(data, "Numéro Client"));
    }
    assert lineNumClient == IdentityLine(data);
    IdentityLineKept(data);
    if Trim(lineNumClient) != "*" {
      replyMessageParts := replyMessageParts + [lineNumClient];
    }
  }

  /** The first section (index.js:176-268): the identity line, then the line of each block in layout order. */
  method FirstSection(data: Record) returns (replyMessageParts: seq<string>)
    ensures replyMessageParts == OrderLines(data)
  {
    replyMessageParts := PushIdentity(data);
    replyMessageParts := PushDoorBlocks(data, replyMessageParts);
    replyMessageParts := PushFinishBlocks(data, replyMessageParts);
    replyMessageParts := PushFittingsBlocks(data, replyMessageParts);
    replyMessageParts := PushExtrasBlocks(data, replyMessageParts);
    LayoutLines(data);
    ConcatFour([IdentityLine(data)], BodyLines(data, DoorLayout), BodyLines(data, FinishLayout),
      BodyLines(data, FittingsLayout), BodyLines(data, ExtrasLayout));
  }

  /**
   * The success branch of the order handler (index.js:176-298), step by
   * step: the identity line, each block in turn, the date section, the
   * separator and the final trim. It yields the reply `OrderReplyText`
   * describes; in particular neither of the two checks that could drop the
   * identity line or the date section ever does.
   */
  method FormatOrder(data: Record, parse: DateParser) returns (reply: string)
    ensures reply == OrderReplyText(data, parse)
  {
    var replyMessageParts := FirstSection(data);

    var firstSectionContent := Join(replyMessageParts, "\n");
    var finalReplyMessage := firstSectionContent;

    var toleAluminium := FormatDateToDDMM(GetVal(data, "Tole Aluminium"), parse);
    var aluminium := FormatDateToDDMM(GetVal(data, "Aluminium"), parse);
    var injection := FormatDateToDDMM(GetVal(data, "Injection"), parse);
    var montage := FormatDateToDDMM(GetVal(data, "Montage"), parse);
    var secondSectionParts: seq<string> := [];
    secondSectionParts := secondSectionParts + ["*Tole*: " + toleAluminium];
    secondSectionParts := secondSectionParts + ["*Aluminium*: " + aluminium];
    secondSectionParts := secondSectionParts + ["*Injection*: " + injection];
    secondSectionParts := secondSectionParts + ["*Montage*: " + montage];
    assert secondSectionParts == DateLines(data, parse);
    var secondSectionContent := Join(secondSectionParts, "\n");

    assert firstSectionContent != "" by {
      assert StartsWith(firstSectionContent, replyMessageParts[0]);
      assert IdentityLine(data)[0] == '*';
    }
    if firstSectionContent != "" || Trim(secondSectionContent) != EmptyDateSection {
      if finalReplyMessage != "" {
        finalReplyMessage := finalReplyMessage + "\n";
      }
      finalReplyMessage := finalReplyMessage + "\n---\n";
      finalReplyMessage := finalReplyMessage + secondSectionContent;
    }
    assert finalReplyMessage == firstSectionContent + "\n" + "\n---\n" + secondSectionContent;
    Separator(firstSectionContent, secondSectionContent);
    reply := Trim(finalReplyMessage);
  }

  /** Regrouping four appended runs; kept apart so the solver sees it without the push methods' contracts. */
  lemma ConcatFour<T>(p: seq<T>, a: seq<T>, b: seq<T>, c: seq<T>, d: seq<T>)
    ensures p + (a + b + c + d) == p + a + b + c + d
  {
  }

  /** The newline and the separator the handler appends one after the other form `\n\n---\n`. */
  lemma Separator(first: string, second: string)
    ensures first + "\n" + "\n---\n" + second == first + "\n\n---\n" + second
  {
    assert "\n" + "\n---\n" == "\n\n---\n";
  }
}

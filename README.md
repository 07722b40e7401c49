# WhatsApp order bot — Dafny model

The bot is a Node.js service that sits on a WhatsApp account. It answers
chat messages in two ways. A message that begins with `OF`, in any case, is
an order command such as `OF17001?`. The bot extracts the order number,
queries an order-lookup web service for it, and is meant to reply with
the order's fields formatted as WhatsApp text. As written, a found order
is answered with a technical-error apology instead; see "## Findings".
Any other message is passed to a generative language model, and the
model's answer is sent back. A small
HTTP endpoint, `POST /send`, lets other services send a WhatsApp message
through the same account.

This project models the decision logic of `index.js`:

- `OrderCommand` models order-command recognition and order-number
  extraction (index.js:154-160).
- `OrderFormat` models the reply formatter. This covers `getVal`,
  `formatDateToDDMM`, the first section's field blocks in source order,
  the separator and the four-line date section (index.js:135-151,
  176-298).
  - The formatter is also written as a step-by-step method, `FormatOrder`,
    which pushes each block onto a list as the handler does. Its result is
    proved equal to the specification function `OrderReplyText`.
- `Router` models reply selection for every message. This covers the order
  path and its service answers (`success`, `not_found`, other statuses,
  thrown errors) and the chat path: the missing API key, the model's first
  candidate part, and the model failing (index.js:153-352).
  - `HandleMessage` and the lemmas about it model the corrected handler,
    whose order path answers as `OrderReply`.
  - The handler as written is `OrderReplyAsWritten`, and
    `GetValOutOfScope` and `AsWrittenAgreesElsewhere` state how the two
    differ.
- `SendRoute` models the `/send` endpoint: field validation, number
  formatting, the readiness check, success and failure bodies
  (index.js:50-76).
- `JsStrings` and `Json` give the JavaScript built-ins these rely on:
  - `toUpperCase`, `trim`, `startsWith`, `endsWith`, `includes`, `join`
    and `padStart`;
  - truthiness;
  - `String(v)`;
  - `x || ''`.

External effects are data:
- A message handler returns the list of effects it performs: the
  order-service query, the language-model query and the reply.
- The outcome of each remote call is a parameter.
- Date parsing (`new Date(v)`) is a parameter function that either gives
  a calendar day or fails.

Two checks in the formatter never fire. The model follows the code:

- The identity line (`*Numéro* - Numéro Client`) is never dropped. The
  check at index.js:182 drops it when it trims to `'*'`, but an identity
  line with both values empty is `**`, so the line is always kept
  (`OrderFormat.IdentityLineKept`).
- The separator and the date section are always appended. The comments at
  index.js:290-291 say they are meant to be left out when the date section
  holds only its empty labels. The guard at index.js:292 trims the date
  section before comparing it with a skeleton that ends in a space, so the
  two never match. Also, the first section is never empty.
  - Trimming the whole reply then removes the trailing blank after
    `*Montage*:` when no montage date is known
    (`OrderFormat.NoDatesTrimmed`, `OrderFormat.MissingMontageTrimmed`).

## Model

| member | source | states |
|---|---|---|
| JsStrings.UpperLeavesNoLowerCase | index.js:154 | no ASCII lower-case letter is left after upper-casing |
| JsStrings.UpperChangesOnlyLowerCase | index.js:154 | exactly the ASCII lower-case letters change, each to its capital |
| JsStrings.UpperIdempotent | index.js:154-155 | upper-casing an upper-cased string changes nothing |
| JsStrings.Trim | index.js:155 | the trimmed string is no longer than the input, and neither of its ends is ECMAScript whitespace |
| JsStrings.TrimStartRemovesWhitespace | index.js:155 | everything removed from the front by trimming is whitespace |
| JsStrings.TrimEndRemovesWhitespace | index.js:155 | everything removed from the end by trimming is whitespace |
| JsStrings.Join | index.js:271-272 | a joined list starts with its first element, followed by the separator when there is more than one element |
| JsStrings.PadTwoDigits | index.js:145-146 | a number below 100 padded to two places is two digits that read back as the number |
| Json.GetVal | index.js:135 | `data[key] \|\| ''` is truthy exactly when the stored value is; it is then that value; it renders empty exactly when it is falsy |
| Json.Text | index.js:180 | a truthy value never renders as the empty string |
| OrderCommand.IsOrderCommand | index.js:154 | the command test, on the upper-cased body with no trimming; characterised by `OrderCommandIff` |
| OrderCommand.ExtractOrderNumber | index.js:155-160 | the order number: upper-cased, trimmed, one trailing `?` dropped; characterised by `OrderNumberShape` |
| OrderCommand.OrderCommandIff | index.js:154 | a message is an order command exactly when its first two characters are `o`/`O` then `f`/`F`; leading blanks are not skipped |
| OrderCommand.OrderNumberShape | index.js:155-160 | the order number of a command starts with `OF`, and it is the trimmed upper-cased body or that body less one final `?` |
| OrderCommand.OnlyOneQuestionMarkRemoved | index.js:158-160 | a body ending in `??` keeps one `?` in the order number |
| OrderCommand.CaseInsensitive | index.js:154-155 | a body and its upper-cased form are the same command with the same order number |
| OrderCommand.OrderNumberExamples | index.js:155-160 | `of12345?` and `OF12345` both give order `OF12345`, and `OF1??` gives `OF1?` |
| OrderCommand.CommandPrefixExamples | index.js:154 | `offre` counts as a command; ` OF1`, `O` and the empty message do not |
| OrderFormat.DDMMRoundTrip | index.js:145-147 | the `DD.MM` text of a calendar day is five characters and parses back to the same day and month |
| OrderFormat.FormatDateToDDMM | index.js:138-151 | the date helper over a parameter parser; characterised by `FormatDateToDDMMSpec` |
| OrderFormat.FormatDateToDDMMSpec | index.js:138-151 | a falsy value gives the empty string; a parseable one gives `DD.MM` of the parsed day; any other value comes back as it was |
| OrderFormat.ParsedDateEndsInDigit | index.js:145-147 | a parsed date renders ending in a digit, so trimming never touches it |
| OrderFormat.PresentPartsSpec | index.js:203-207 | a block collects at most one part per field, none of them empty, and none at all exactly when no field is present |
| OrderFormat.PresentPartsSound | index.js:203-207 | every collected part is the text of a present field of the block |
| OrderFormat.PresentPartsComplete | index.js:203-207 | the text of every present field of the block is collected |
| OrderFormat.PresentPartsAppend | index.js:203-207 | parts are collected in field order: the parts of two runs of fields are those of the first, then those of the second |
| OrderFormat.FieldLineSpec | index.js:184-268 | a block gives at most one line, which is non-empty, and gives no line exactly when none of its fields is present |
| OrderFormat.BodyLinesSpec | index.js:184-268 | the first section has at most one line per block, and each line is non-empty |
| OrderFormat.BodyLinesAppend | index.js:184-268 | the lines of consecutive block groups are the concatenation of each group's lines |
| OrderFormat.BodyLinesSplit | index.js:184-268 | the lines of a layout split at any block into the lines before and after it |
| OrderFormat.BodyLinesEmpty | index.js:184-268 | the first section has no body lines exactly when no key of the layout is present |
| OrderFormat.SingleFieldLine | index.js:191-192 | a one-key block gives its value's text when present and nothing otherwise |
| OrderFormat.PairFieldLine | index.js:185-188 | a two-key block joins the present values with its separator, or gives the single present one alone |
| OrderFormat.TripleFieldLine | index.js:203-207 | the dimensions block joins whichever of height, width and thickness are present, in that order, with ` x ` between them |
| OrderFormat.IdentityLineKept | index.js:180-182 | the identity line always passes the trim check, even when both values are empty |
| OrderFormat.OrderReplyText | index.js:176-298 | the reply to a found order: the first section, the separator and the date section, trimmed; characterised by `OrderReplyShape` and the lemmas after it |
| OrderFormat.OrderReplyShape | index.js:271-298 | the reply is the first section, the `---` separator and the trimmed date section, and it starts with the identity line |
| OrderFormat.OrderReplyOpensWithStar | index.js:180-298 | every order reply begins with `*` |
| OrderFormat.DateSectionTrimmed | index.js:283-298 | trimming the reply only touches the montage line of the date section |
| OrderFormat.MissingMontageTrimmed | index.js:286-298 | with no montage date the final line is `*Montage*:` without its trailing blank |
| OrderFormat.ParsedMontageKept | index.js:286-298 | a parsed montage date ends the reply unchanged |
| OrderFormat.NoDatesTrimmed | index.js:276-298 | with no dates the date section is the fixed four labels, the last one without its blank |
| OrderFormat.OnlyOrderNumberReply | index.js:176-298 | a record that has only an order number replies with the starred number, the separator and the empty labels |
| OrderFormat.PushSingle | index.js:191-192 | pushing a one-key block appends exactly that block's line |
| OrderFormat.PushPair | index.js:185-188 | pushing a two-key block appends exactly that block's line |
| OrderFormat.PushTriple | index.js:203-207 | pushing a three-key block appends exactly that block's line |
| OrderFormat.PushDoorBlocks | index.js:184-207 | the door-type to dimension blocks append exactly their lines |
| OrderFormat.PushFinishBlocks | index.js:209-234 | the finish to PVC-return blocks append exactly their lines |
| OrderFormat.PushFittingsBlocks | index.js:236-254 | the hinge to guide blocks append exactly their lines |
| OrderFormat.PushExtrasBlocks | index.js:256-268 | the handle to information blocks append exactly their lines |
| OrderFormat.PushIdentity | index.js:180-182 | the parts start with the identity line alone |
| OrderFormat.FirstSection | index.js:176-268 | the first section's parts are the identity line followed by every block's line in layout order |
| OrderFormat.FormatOrder | index.js:176-298 | the step-by-step handler builds exactly the specified order reply |
| Router.HandleMessage | index.js:153-352 | the effects of one message with the corrected order reply; characterised by the lemmas below |
| Router.OrderReply | index.js:164-308 | the reply to an order lookup with `getVal` reading the answer's record; characterised by `OrderReplyDispatch` |
| Router.OrderReplyAsWritten | index.js:135-308 | the reply to an order lookup as written, with `getVal` unable to see `data`; characterised by `GetValOutOfScope` and `AsWrittenAgreesElsewhere` |
| Router.ExactlyOneReply | index.js:153-352 | every message gets exactly one reply, and it is the last effect |
| Router.OrderPathIff | index.js:154-170 | the order service is queried exactly for order commands, with the extracted number, and the language model never on that path |
| Router.NoChatCallWithoutKey | index.js:318-323 | without an API key the model is not called and the missing-key text is sent |
| Router.ChatPath | index.js:326-352 | with a key the model gets the body as typed; the reply is the first part's text, or the apology when the call fails or has no part |
| Router.FirstPartTextIff | index.js:346-347 | the first part's text is found exactly when the first candidate has content with a first part |
| Router.OrderReplyDispatch | index.js:164-308 | success gives the formatted order, `not_found` the not-found text, any other status the error text, and a thrown error the technical apology |
| Router.NotFoundNamesOrder | index.js:299-300 | the not-found reply contains the order number |
| Router.ApiErrorCarriesMessage | index.js:301-303 | the error reply has the fixed prefix and ends with the service's message, or with the fixed unknown-error text when there is none |
| Router.GetValOutOfScope | index.js:135-180 | as written, a found order is answered with the technical apology; the corrected handler answers with the formatted order |
| Router.AsWrittenAgreesElsewhere | index.js:299-308 | outside the success branch the as-written and the corrected handler agree |
| Router.NotFoundScenario | index.js:154-300 | `of9999?` answered `not_found` queries `OF9999` and replies naming it |
| SendRoute.FormatNumber | index.js:56 | the chat id of a number; characterised by the three lemmas below |
| SendRoute.HandleSend | index.js:50-76 | the `/send` route; characterised by `MissingFieldsIff`, `DispatchIff`, `StatusCodes` and `SentNoteUsesRawNumber` |
| SendRoute.FormatNumberHasSuffix | index.js:56 | the chat id contains `@c.us` and begins with the number as given |
| SendRoute.FormatNumberUnchangedIff | index.js:56 | the number is left alone exactly when it already contains `@c.us` |
| SendRoute.FormatNumberIdempotent | index.js:56 | formatting a chat id again changes nothing |
| SendRoute.MissingFieldsIff | index.js:50-54 | the answer is 400, with nothing sent, exactly when a field is missing or falsy |
| SendRoute.DispatchIff | index.js:56-60 | a message goes to the client exactly when both fields are given, the number is a string and the client is ready, and it goes to the formatted chat id |
| SendRoute.StatusCodes | index.js:52-75 | responses are 200, 400 or 500; 200 exactly on delivery; 500 when the client is not ready; no response only for a non-string number |
| SendRoute.SentNoteUsesRawNumber | index.js:62 | the success note names the number as given, not the chat id |

## Left out

- The Express server, the QR-code page, the WhatsApp client's lifecycle events, the `axios` transport and console logging are not modelled. They are I/O; their outcomes enter the model as parameters.
- `message.getChat()` is not modelled. Its result is unused, and if it throws, the handler stops before any of the modelled logic runs.
- Reply promises that are not awaited are not modelled. The model treats each reply as sent once, in order; ordering with other chats and concurrency are out of scope.
- `toUpperCase` is modelled for ASCII letters only. Unicode case mappings, including ones that change the length such as `ß` to `SS`, are not modelled.
- Field values are JSON scalars with integer numbers. Arrays, objects and non-integer numbers are not modelled, nor is how `String()` renders them.
- Json.Text: numbers are unbounded integers rendered in plain decimal. JavaScript numbers are doubles, so integers above 2^53 are not all distinct, and `String()` renders magnitudes of 10^21 and above in exponent form (`1e+21`). The model does not capture either.
- SendRoute.HandleSend: a truthy `number` that is not a string (for example a numeric cell sent as `33612345678`) throws at index.js:56, outside the `try`. The model records this as `NoResponse`, meaning the route sends nothing itself. What happens next depends on versions the source does not pin. Express 4 leaves an unhandled promise rejection, which ends the process on Node 15 and later. Express 5 answers 500.
- `new Date(v)` is a parameter function from a value to an optional calendar day. Date-string syntax, time zones and the `Invalid Date` check are not modelled.
- A first candidate part without a `text` field would make the bot reply with `undefined`. The model gives every part a text string.
- The `status: qrCodeString` field of the 500 not-ready body depends on the QR-code lifecycle, so it is not modelled.
- Router.GetValOutOfScope: it states that the corrected reply starts with the identity line, not that it differs from the technical apology, because the apology is a long literal.

## Findings

| source | as written | input that shows it | evidently intended | confidence | as-written member | corrected member |
|---|---|---|---|---|---|---|
| index.js:135 | `getVal` reads `data`, which is declared only later, inside the success branch, so every call throws a ReferenceError and the catch sends the technical apology | any order command answered with status `success` and a record | `getVal` reads the record of the service's answer (`apiResponse.data`) | high; not executed | Router.OrderReplyAsWritten (shown by Router.GetValOutOfScope) | Router.OrderReply |

# gsvg in Dafny

A verified model of gsvg, an SVG/XML reformatter. gsvg prints every tag, attribute
and text run on a line of its own, with consistent indentation, so that SVG files
give readable diffs. The model covers four parts:

- **Tokenizer** (`parser.dfy`, module `Parser`): the listeners that turn the XML
  scanner's events into a flat token list. Each token carries its nesting depth.
  The listeners keep a stack of open tag names and a one-shot flag. The flag
  swallows the synthetic close event that follows a self-closing tag. The
  mutable state is the class `Tokenizer`, one object per call. It is specified
  by the pure transition `Step` and its fold `Run`.
- **Renderer** (`renderer.dfy`, module `Renderer`): indent-option normalisation,
  the node-kind tables, and the raw lines of each token. The raw lines are
  placed onto a growing list of output lines, glued to the last line or on a
  new indented line. The mutable output is the class `LineWriter`. It is
  specified by the pure `Place` and its fold `PlaceAll`.
- **Facade** (`gsvg.dfy`, module `Gsvg`): `getLines` (exported as `.array`)
  and the formatter that drops blank lines, joins with newlines and adds a final
  newline.
- **Command-line validator** (`cli_args.dfy`, module `CliArgs`): the ordered
  checks on flags and positional arguments. The first failing check decides
  the error.

Supporting modules:

- `Text` holds the JavaScript whitespace class, `split('\n')`, `join('\n')`,
  repetition and the default string sort.
- `Values` holds the JavaScript values an option or flag can hold.
- `Scanner` holds the scanner's events.
- `Wrappers` holds `Option` and `Result`.

A thrown error or a rejected promise is a `Failure` (or `Some(error)` in the
validator).

In two places the model keeps what the code does rather than what one might
expect:

- An open tag pushes its name onto the stack even when it is self-closing. The
  synthetic close event pops it again.
- Whitespace-only text is kept when a `text` element is anywhere on the stack,
  not only when it is the innermost one.

The renderer as written dispatches on the token's `name` field. The model
renders by token kind (`Dispatch`, `InlineStart`) and keeps the name-based
dispatch as `DispatchAsWritten` and `InlineStartAsWritten`. "Findings" below
shows where the two differ.

## Model

| member | source | states |
|---|---|---|
| Text.IsBlank | index.js:14-16 | a string is blank exactly when every character is whitespace |
| Text.SplitNoNewline | lib/renderer.js:111 | no piece of `split('\n')` holds a newline |
| Text.JoinSplit | lib/renderer.js:111 | joining the pieces of a split with newlines gives the string back |
| Text.SplitJoin | index.js:26 | splitting a join of newline-free lines gives the lines back |
| Text.SplitLine | lib/renderer.js:111 | a newline-free string splits into itself alone |
| Text.SplitPrefix | lib/renderer.js:111 | a newline-free line followed by a newline splits off as the first piece |
| Text.Repeat | lib/renderer.js:69-79 | `k` copies of a unit have length `k` times the unit's, and start with the unit |
| Text.RepeatChar | lib/renderer.js:54 | repeating one space gives nothing but spaces |
| Text.RepeatPeriodic | lib/renderer.js:73-76 | each character of a repetition past the first copy equals the one a unit earlier |
| Text.RepeatAppend | lib/renderer.js:73-76 | appending the unit once more, as the loop does, gives the next repetition |
| Text.LexLeTotal | lib/renderer.js:126 | the default sort order is total |
| Text.LexLeAntisymmetric | lib/renderer.js:126 | the default sort order is antisymmetric |
| Text.LexLeTransitive | lib/renderer.js:126 | the default sort order is transitive |
| Text.Insert | lib/renderer.js:126 | inserting into a sorted list keeps it sorted and adds exactly that element |
| Text.Sort | lib/renderer.js:126 | `sort()` gives an ascending permutation of its input |
| Parser.Pop | lib/parser.js:51 | `pop()` removes the last entry when there is one and leaves an empty stack empty |
| Parser.Step | lib/parser.js:11-85 | each listener appends at most one token and never changes earlier ones. A new token's depth is the stack length at the moment it is built. An open tag's depth is taken before its push; a close tag's after its pop. The one-shot flag is set by a self-closing open tag and cleared by the next close, which then emits no token. Text becomes a token iff it is not blank or `text` is on the stack. Payloads are stored verbatim |
| Parser.Run | lib/parser.js:87-107 | feeding the events fails exactly when one of them is an error, and otherwise only extends the token list |
| Parser.Tokenization | lib/parser.js:87-107 | the tokenization fails exactly when some event is a scanner error |
| Parser.TokenizationOfEmpty | lib/parser.js:87-107 | an empty document gives an empty token list |
| Parser.FirstErrorWins | lib/parser.js:92-96 | the call fails with the message of the first error event |
| Parser.RunConcat | lib/parser.js:87-107 | running two stretches of error-free events in turn is running their concatenation |
| Parser.StackShape | lib/parser.js:39-63 | while the open/close balance stays above a floor, the stack's bottom entries survive and its length moves by the balance |
| Parser.SkipCleared | lib/parser.js:43-45 | when each self-closing open is followed by its synthetic close, the one-shot flag is clear again after any stretch of events |
| Parser.RunElement | lib/parser.js:39-63 | an element's events run as its open event, then its content, then its close event |
| Parser.MatchingCloseDepth | lib/parser.js:50-55 | a close-tag token has the depth of its matching open tag and comes right after the content's tokens; the stack is restored afterwards |
| Parser.SelfClosingSuppressed | lib/parser.js:43-60 | a self-closing tag and its synthetic close give the open token alone and leave the stack and flag as they were |
| Parser.Tokenizer.constructor | lib/parser.js:88-90 | each call starts with no tokens, a clear flag and an empty stack |
| Parser.Tokenizer.OnProcessingInstruction | lib/parser.js:18-21 | the listener changes the state exactly as `Step` does |
| Parser.Tokenizer.OnDoctype | lib/parser.js:23-29 | the listener changes the state exactly as `Step` does |
| Parser.Tokenizer.OnCData | lib/parser.js:31-37 | the listener changes the state exactly as `Step` does |
| Parser.Tokenizer.OnOpenTag | lib/parser.js:39-48 | the listener changes the state exactly as `Step` does |
| Parser.Tokenizer.OnCloseTag | lib/parser.js:50-63 | the listener changes the state exactly as `Step` does |
| Parser.Tokenizer.OnComment | lib/parser.js:65-71 | the listener changes the state exactly as `Step` does |
| Parser.Tokenizer.OnText | lib/parser.js:73-85 | the listener changes the state exactly as `Step` does |
| Parser.Parse | lib/parser.js:87-107 | the driver returns the tokenization of the events, and fails exactly when an error event occurs |
| Renderer.Delimiters | lib/renderer.js:34-43 | the table has an entry exactly for the simple node names and the two open-tag rows. Every entry but the text one opens with `<` and closes with `>`, and text has empty delimiters |
| Renderer.SimpleNodesDelimited | lib/renderer.js:21-43 | every simple node name has delimiters in the table |
| Renderer.IndentUnit | lib/renderer.js:45-67 | a non-negative whole number `n` gives exactly `n` spaces; an all-space or all-tab string is returned unchanged; anything else fails with that value |
| Renderer.NormalizeOptions | lib/renderer.js:137-150 | defaults replace undefined options. The call succeeds iff both units are valid. An invalid shiftwidth fails with its value first; with a valid shiftwidth, an invalid extra indent fails with the extra indent's value. The attribute indent is the shiftwidth unit followed by the extra unit |
| Renderer.DefaultIndents | lib/renderer.js:137-150 | with no options the shiftwidth is two spaces and the attribute indent three |
| Renderer.DispatchAsWritten | lib/renderer.js:152-157 | as written, a token takes the simple path exactly when its `name` is a simple node name, wrapped in that name's table entry. A token that is neither that nor an open tag has no path |
| Renderer.InlineStartAsWritten | lib/renderer.js:93-95 | as written, close tags, CDATA, text, comments and doctypes are glued as their kind says. An element or processing instruction whose own name is not `closetag` is glued exactly when that name is `cdata`, `textnode` or `br` |
| Renderer.InlineStartByKind | lib/renderer.js:93-95 | CDATA and text are glued. An element is glued only when it is `br`, and a close tag unless it closes `g`, `defs` or `svg`. Comments, doctypes and processing instructions never are |
| Renderer.Dispatch | lib/renderer.js:152-157 | exactly the open tags take the open-tag path, and every other token is wrapped around its own body |
| Renderer.DispatchFollowsTable | lib/renderer.js:34-43 | every non-open token is wrapped in the table's delimiters for its name; an `xml` declaration in the `xml` entry |
| Renderer.OpenTagDelimitersFollowTable | lib/renderer.js:120-122 | an open tag uses the `selfclosingtag` or the `opentag` entry of the table |
| Renderer.AsWrittenAgrees | lib/renderer.js:93-95 | where no element or processing instruction borrows a reserved name, the name-based dispatch and inline test equal the kind-based ones |
| Renderer.CommentElementAsWritten | lib/renderer.js:153 | as written, the element `<comment/>` takes the comment path with body `undefined` |
| Renderer.StylesheetAsWritten | lib/renderer.js:117-118 | as written, a processing instruction other than `xml` reaches the open-tag path, which has no attributes to read |
| Renderer.SimpleLines | lib/renderer.js:107-112 | a simple token gives at least one raw line |
| Renderer.SimpleLinesRejoin | lib/renderer.js:107-112 | a simple token's raw lines hold no newline and rejoin to opening delimiter, body and closing delimiter |
| Renderer.AttributeNames | lib/renderer.js:118 | `Object.keys` lists each attribute's name, in order |
| Renderer.LookupFinds | lib/renderer.js:129 | `attributes[name]` is the value of the first attribute with that name |
| Renderer.AttributeLines | lib/renderer.js:128-130 | one line per name, each `indent` then `name="value"` |
| Renderer.AttributeLinesSnoc | lib/renderer.js:128-130 | one more name adds its line at the end |
| Renderer.SortedNames | lib/renderer.js:118-126 | the rendered names are as many as the attributes, and each is an attribute's name |
| Renderer.SortedNamesAscending | lib/renderer.js:126 | the rendered names are ascending and a permutation of the attribute names |
| Renderer.OpenTagLines | lib/renderer.js:114-135 | an open tag gives one line more than it has attributes |
| Renderer.OpenTagLayout | lib/renderer.js:114-135 | the first line is `<` and the name. Then comes one line per attribute in ascending name order, indented by `indent(depth)` and the attribute indent, as `name="value"`. `>` or ` />` ends the last line |
| Renderer.TokenLines | lib/renderer.js:152-157 | every token gives at least one raw line |
| Renderer.Place | lib/renderer.js:92-104 | placing never changes a line before the last one. The count grows by the number of raw lines, one less when glued. A glued first line extends the last line; otherwise it starts a new line after the indent. The other raw lines follow verbatim |
| Renderer.TokenGroup | lib/renderer.js:92-95 | a token's group has at least one raw line |
| Renderer.PlaceAllPrefix | lib/renderer.js:152-158 | the output after `n` tokens depends only on those tokens |
| Renderer.Groups | lib/renderer.js:152-158 | one group per token, each with at least one raw line; the group at each position is that token's group, so the order is the tokens' order |
| Renderer.EarlierLinesKept | lib/renderer.js:81-104 | placing more groups never shrinks the output and never changes a line before the last one so far |
| Renderer.RenderedKeepsEarlierLines | lib/renderer.js:152-158 | rendering more tokens leaves every line before the last one so far as it was |
| Renderer.BareOpenTagLines | lib/renderer.js:114-135 | an open tag without attributes is the one line `<name>` or `<name />` |
| Renderer.CloseTagLines | lib/renderer.js:107-112 | a close tag is the one line `</name>` |
| Renderer.BareOpenTagGroup | lib/renderer.js:92-104 | such an open tag, other than `br`, starts a new line at its depth's indent |
| Renderer.CloseTagGroup | lib/renderer.js:92-95 | a close tag is glued unless it closes `g`, `defs` or `svg` |
| Renderer.GroupsOf | lib/renderer.js:152-158 | the groups of a token list are its tokens' groups |
| Renderer.NestedContainerGroups | lib/renderer.js:92-104 | nested `g`, `defs` or `svg` elements give four unglued one-line groups, with the inner ones one level in |
| Renderer.NestedGroupsPlaced | lib/renderer.js:92-104 | four such groups are placed as four lines, each after its indent |
| Renderer.NestedGroups | test/module.test.js:80-88 | `<g><g></g></g>` with the default options renders as `<g>`, `  <g>`, `  </g>`, `</g>` |
| Renderer.LineWriter.constructor | lib/renderer.js:146-150 | a render starts with no output lines and the normalised indents |
| Renderer.LineWriter.IndentString | lib/renderer.js:69-79 | the loop builds `level` copies of the shiftwidth unit |
| Renderer.LineWriter.AppendLines | lib/renderer.js:82-90 | the lines from `start` on are appended in order |
| Renderer.LineWriter.PushLines | lib/renderer.js:92-104 | the output becomes the placement of the lines, glued or on a new line at the token's indent |
| Renderer.LineWriter.PushSimpleNode | lib/renderer.js:107-112 | the output becomes the placement of the token's split, delimited text, glued or at its depth's indent |
| Renderer.LineWriter.PushOpenTag | lib/renderer.js:114-135 | the output becomes the placement of the open tag's lines (see `OpenTagLayout`) at its depth's indent, glued only for `br` |
| Renderer.LineWriter.PushToken | lib/renderer.js:152-157 | the output becomes the placement of the token's group |
| Renderer.LineWriter.PushNext | lib/renderer.js:152-158 | one turn of the loop takes the output from the placement of the first `i` tokens to that of the first `i + 1` |
| Renderer.LineWriter.PushAll | lib/renderer.js:152-158 | from an empty output, the loop leaves the placement of every token's group in order |
| Renderer.Rendering | lib/renderer.js:137-161 | the render fails exactly when the options are invalid, and then with the options' error |
| Renderer.Render | lib/renderer.js:137-161 | the method computes `Rendering`: the options' failure, or the fold of `Place` over every token's group |
| Gsvg.OptionsOrEmpty | index.js:7 | missing options become an empty options record |
| Gsvg.GetLines | index.js:6-12 | a scanner error is reported first, as a parse error carrying the tokenizer's message. Otherwise the call succeeds exactly when the options are valid, with the rendered lines of the tokens, and fails with the options' own error |
| Gsvg.RemoveBlankStrings | index.js:18-22 | the kept lines are exactly the input's non-blank lines |
| Gsvg.RemoveBlankStringsConcat | index.js:18-22 | filtering distributes over concatenation, so order is kept |
| Gsvg.RemoveBlankStringsKeepsAll | index.js:18-22 | with no blank line, nothing is removed |
| Gsvg.Format | index.js:24-28 | the formatter fails exactly when `getLines` does, with its error. On success the output is the non-blank lines joined with newlines, plus a newline |
| Gsvg.FormatReadsBack | index.js:24-28 | when `getLines` succeeds with newline-free lines, splitting the output at newlines gives the non-blank lines and an empty last piece; with no non-blank line the output is `"\n"` |
| Gsvg.FormatOfNonBlankLines | index.js:24-30 | with no blank line in `.array`, the output is that array joined with newlines, plus a newline |
| Gsvg.FormatOfEmptyDocument | index.js:24-28 | an empty document gives no lines and the output `"\n"` |
| Gsvg.JoinSnoc | index.js:26 | joining one more line adds a newline and that line |
| Gsvg.FormatSplitsIntoNonBlankLines | index.js:26 | splitting the output at newlines gives back the non-blank lines and the empty piece after the final newline |
| CliArgs.CliFlag | lib/validate-cli-args.js:12-17 | one dash for a one-character flag, two otherwise, then the flag |
| CliArgs.CliFlagInjective | lib/validate-cli-args.js:12-17 | different non-empty flags are shown differently |
| CliArgs.IsValidIndentString | lib/validate-cli-args.js:3-4 | an accepted indent string is all spaces or all tabs, and one that starts with a tab is the single tab |
| Values.NonNegativeIntegerIsNat | lib/validate-cli-args.js:8-10 | `isPositiveInteger` holds exactly for the numbers that are natural numbers |
| CliArgs.ParsedFlags | lib/validate-cli-args.js:36-39 | the filter keeps at most as many flags as it is given |
| CliArgs.ParsedFlagsMembers | lib/validate-cli-args.js:36-39 | exactly the long flags and the short flags without an alias are examined |
| CliArgs.ParsedFlagsConcat | lib/validate-cli-args.js:36-39 | the filter distributes over concatenation, so the examined flags keep their key order |
| CliArgs.CheckFlag | lib/validate-cli-args.js:46-73 | a flag that is no alias value is an invalid flag; every error names the flag as typed |
| CliArgs.CheckFlagOrder | lib/validate-cli-args.js:56-72 | for a supported flag, each failing check raises its own error and an earlier check wins: indent value type, then indent string, then a missing parameter, then a parameter on a boolean flag |
| CliArgs.StringOnBooleanFlag | lib/validate-cli-args.js:70-72 | a supported boolean flag given a string fails with `does not accept a parameter` |
| CliArgs.CheckFlagAccepts | lib/validate-cli-args.js:52-72 | a flag passes iff it is supported, an indent flag holds a non-negative integer or a valid indent string, and it holds a boolean exactly when it is a boolean flag |
| CliArgs.CheckFlags | lib/validate-cli-args.js:46-73 | every error the flag checks report is one of the per-flag errors |
| CliArgs.CheckFlagsPass | lib/validate-cli-args.js:46-73 | the flags pass exactly when each flag passes |
| CliArgs.CheckFlagsFirstFailure | lib/validate-cli-args.js:46-73 | the error reported is that of the first failing flag |
| CliArgs.InPlace | lib/validate-cli-args.js:89 | `--in-place` is set only when some `inPlace` entry is truthy, and never without an `inPlace` entry |
| CliArgs.InPlaceFirstEntry | lib/validate-cli-args.js:89 | `--in-place` is set exactly when the first `inPlace` entry is truthy |
| CliArgs.Validate | lib/validate-cli-args.js:35-97 | a flag error is reported exactly when some examined flag fails, and it is the flag checks' own error, that of the first failing flag |
| CliArgs.FlagsAccepted | lib/validate-cli-args.js:36-73 | the flag checks pass exactly when every examined flag is acceptable |
| CliArgs.ValidateAccepts | lib/validate-cli-args.js:35-97 | the arguments pass exactly when every examined flag is acceptable, stdin comes with at most one positional argument, there are at most two, some input exists, and `--in-place` comes with exactly one |
| CliArgs.PositionalChecks | lib/validate-cli-args.js:76-96 | once the flags pass, the positional, input and `--in-place` errors come in the source's order |
| CliArgs.ValidIndentIsRenderable | lib/validate-cli-args.js:3-4 | an indent value the validator accepts is one the renderer accepts |
| CliArgs.TwoTabsOnlyRenderable | lib/validate-cli-args.js:3-4 | the converse fails: the renderer takes `"\t\t"`, which the validator refuses |

## Left out

- The `sax` scanner itself is left out: lexing, entity decoding, well-formedness
  diagnostics and `resume()` after an error. A document is the sequence of
  events the scanner would report. An error event fails the call with its message.
- Promises and I/O are left out. The callbacks run in event order, and a
  rejection is a `Failure` whose first error wins.
- The `config` module is not part of this model. Its defaults, two and one, are
  the constants `DefaultShiftwidth` and `DefaultAttrExtraIndent`.
- cli.js is not modelled: argument parsing by `meow`, the expansion of `t` into a
  tab, file and stream handling, help, version and exit codes. The validator
  takes the parsed flags as an ordered list and the positional arguments as a
  count.
- `Object.keys` order and unique keys are assumed rather than modelled. The
  attributes and flags are given in key order with distinct names. `Lookup`
  returns the first attribute with a name.
- Numbers are exact reals, and NaN and the infinities are not represented.
  `indent + 1` in `new Array(indent + 1)` is taken without rounding.
- Text.LexLe orders strings by Unicode code point per character. The source's
  default `sort()` compares UTF-16 code units, and the two differ only for
  characters beyond the Basic Multilingual Plane.
- CliArgs.CliFlag and CliArgs.Examined count a flag's length in code points,
  while `flag.length === 1` in lib/validate-cli-args.js:14 and `flag.length > 1` at
  line 38 count UTF-16 code units. A one-character flag beyond the Basic
  Multilingual Plane gets two dashes in the source and one in the model, and the
  source examines it as a long flag while `ParsedFlags` treats it as a short one.
- `String.prototype.isBlank` is the free function `IsBlank`. The prototype
  change is not modelled.
- Renderer.Place: an inline first token with no output yet has its first line
  dropped. The source writes it to the array property `-1`, which is not an
  element.
- Renderer.IndentUnit: the error carries the rejected value, not the text of the message
  `getIndentUnit` throws. A whole number of 4294967295 or more succeeds in the model
  with that many spaces, while `new Array(indent + 1)` at lib/renderer.js:54 throws a
  `RangeError` once the array length exceeds 2^32 - 1; that error is not modelled.
- Renderer.Dispatch: renders by token kind, not as the source does (see Findings).
  The `TypeError` thrown for a non-`xml` processing instruction appears only as the
  marker `TypeError` of `DispatchAsWritten`.

## Findings

| source | as written | input that shows it | evidently intended | confidence | as-written member | corrected member |
|---|---|---|---|---|---|---|
| lib/renderer.js:153 | the render loop picks the simple-node path when `node.name` is in `simpleNodes`, and the `delimiters` entry for `node.name` after that. `name` is the element name for an open tag and the target for a processing instruction. | the element `<comment/>` renders as `<!--undefined-->`. `<?xml-stylesheet href="a.css"?>` reaches `pushOpenTags`, where `Object.keys(undefined)` throws | dispatch by token kind: open tags through `pushOpenTags`, each other kind in its own delimiters, a processing instruction as `<?target body?>` | high; not executed | Renderer.DispatchAsWritten, Renderer.CommentElementAsWritten, Renderer.StylesheetAsWritten | Renderer.Dispatch, Renderer.AsWrittenAgrees, Renderer.DispatchFollowsTable |

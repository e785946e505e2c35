# yaml-rust tokenizer and emitter in Dafny

This project models the two stateful parts of the yaml-rust library: the
YAML tokenizer (`Scanner` in `src/scanner.rs`, with its character classes
in `src/scanner/funcs.rs` and its position record in
`src/scanner/marker.rs`) and the block-style YAML writer (`YamlEmitter` in
`src/emitter.rs`).

**Tokenizer.** `Scanning.Scanner` is a class with the fields of the Rust
struct: the position `mark`, the token queue `tokens`, the indentation
stack (`indent` and `indents`), the flow depth `flowLevel` (an 8-bit
newtype), the simple-key slots `simpleKeys`, and the flags and counters
of the source. The character stream is the constant `input`. The
lookahead buffer is its length `bufLen`, and it holds the next `bufLen`
characters of the input, padded with `'\0'` (`Decoders.At`). Each method
of the source is a method here, and its contract ties the new state to
the old. The class invariant `Valid` covers:

- the indentation stack starts at -1 and increases;
- there is one key slot per flow level once the stream has started;
- every possible simple key lies behind the position;
- the queue positions the keys would insert at exist.

Every `scan_*` loop is proved against a pure reference function over the
input. These functions are in `Decoders` (runs, numbers, escapes),
`Directives` (`%YAML`, `%TAG`, tags), `FlowScalars`, `PlainScalars`,
`BlockScalars` and `Dispatch` (skipping and the choice of fetcher). The
lemmas there state what the scanned text means: round trips of
quoted-scalar spellings of any text without line breaks, chomping, folding, error triggers and
progress. `ScanState` gives the pure view of the indentation stack, the
simple keys and the token queue. Its lemmas show that rolling and
unrolling balance, that an inserted token lands where it should, and that
stale keys are cleared.

The scanner is at a *quiet end of input* (`AtQuietEnd`) when the input is
exhausted at the position, the position starts a line, no block
collection is open and no simple key is possible. From there the only
token left is StreamEnd. The fetch chain, from `fetch_next_token` up to
`next`, states which token it produces in two cases: the first call, and
a quiet end of input. Together these give the `test_empty` case: an empty
document yields StreamStart, then StreamEnd, then nothing.

**Emitter.** `Emitting.YamlEmitter` is a class whose writer is a string
`out` that the methods append to. For each `emit_*` method there is a
function `WriteX` that gives the writer after the method, as a function
of the writer before it. The methods are proved to keep `level` balanced.
Lemmas about the `WriteX` functions state that:

- output is only appended and does not depend on what came before;
- every line of a block collection is indented two spaces per level;
- empty collections and the leaves have fixed texts;
- `dump` writes `---` first.

## Model

| member | source | states |
|---|---|---|
| Funcs.IsDigit | src/scanner/funcs.rs:13-15 | every decimal digit is also a word character and a hex digit |
| Scalars.MarkAfter | src/scanner.rs:138-148 | the position after consuming the input up to index j has index j |
| Funcs.IsHex | src/scanner/funcs.rs:21-23 | every hex digit (either case) is also a word character |
| Funcs.IsBreakz | src/scanner/funcs.rs:25-27 | true exactly for '\n', '\r' and the end-of-input '\0' |
| Funcs.IsBlankz | src/scanner/funcs.rs:29-31 | true exactly for space, tab, '\n', '\r' and '\0'; every break-or-end character is one |
| Funcs.IsFlow | src/scanner/funcs.rs:33-35 | a flow indicator is neither a word character nor white space |
| Funcs.AsHex | src/scanner/funcs.rs:37-44 | the value of each digit range, always below 16; a non-digit is excluded as the source's `unreachable!()` |
| Funcs.HexDigit | src/scanner/funcs.rs:37-44 | for every value below 16 there is a hex digit that `as_hex` maps back to it |
| Funcs.ToLower | src/scanner/funcs.rs:37-44 | lower-casing keeps a hex digit a hex digit |
| Funcs.AsHexIgnoresCase | src/scanner/funcs.rs:37-44 | upper- and lower-case letters have the same value |
| Funcs.HexDigitOfAsHex | src/scanner/funcs.rs:37-44 | `as_hex` is injective up to letter case: the inverse gives back the lower-cased digit |
| Markers.New | src/scanner/marker.rs:9-23 | each accessor returns the argument the marker was built from |
| Markers.EqualIffFieldsEqual | src/scanner/marker.rs:1-6 | the derived equality holds exactly when index, line and column agree |
| Markers.Advance | src/scanner.rs:138-148 | consuming one character adds one to the index; '\n' moves to column 0 of the next line, anything else (a lone '\r' included) to the next column |
| Markers.AdvanceIsAdvanced | src/scanner.rs:138-148 | every `skip` moves the position strictly forward in reading order |
| Markers.AdvanceAllCounts | src/scanner.rs:138-148 | consuming a string adds its length to the index and its number of '\n' to the line |
| Markers.AdvanceAllSameLine | src/scanner.rs:138-148 | consuming a string without '\n' keeps the line and adds its length to the column |
| Markers.AdvanceAllAfterNewline | src/scanner.rs:138-148 | after the last '\n' the column counts only the characters that follow it |
| Markers.AdvanceAllSnoc | src/scanner.rs:138-148 | consuming one more character is one more `skip` |
| Scalars.MarkAfterTrans | src/scanner.rs:138-148 | consuming up to j and then up to k is the same as consuming up to k |
| Scalars.MarkAfterIsAdvanceAll | src/scanner.rs:138-148 | the position after consuming input up to j is the position after consuming that slice of the input |
| Scalars.MarkAfterSameLine | src/scanner.rs:138-148 | consuming characters other than a line feed keeps the line and adds one column per character |
| Scalars.MarkAfterMoves | src/scanner.rs:138-148 | consuming input never moves the position back, and consuming anything moves it strictly forward |
| Scalars.BlankStep | src/scanner.rs:1306-1327 | one turn of the blank/break loop always consumes at least one character and stays inside the input |
| Scalars.CommentFromStarted | src/scanner.rs:1634-1646 | once the comment text has started, the loop takes every character up to the line end |
| Scalars.CommentTextIsRest | src/scanner.rs:1625-1651 | the comment text is the rest of the line after the leading run of '#' and ' ' |
| Scalars.CommentTextShape | src/scanner.rs:1625-1651 | the comment text holds no line break and does not start with '#' or ' ' |
| Tokens.NewSimpleKey | src/scanner.rs:1599-1605 | `SimpleKey::new(mark)` is neither possible nor required and is marked at `mark` |
| ScanState.IncreasingPairwise | src/scanner.rs:1573-1597 | every saved indentation level is below every level pushed after it |
| ScanState.Rolled | src/scanner.rs:1578-1586 | rolling keeps a valid stack, only pushes, and its top is `col` exactly when `col` was deeper than the current level |
| ScanState.Unrolled | src/scanner.rs:1593-1596 | unrolling keeps a valid stack, is a prefix, leaves a top not deeper than `col`, and pops only levels deeper than `col` |
| ScanState.UnrollStep | src/scanner.rs:1593-1596 | a level deeper than `col` is never the bottom -1 level, so the `pop().unwrap()` cannot fail |
| ScanState.UnrolledIsPrefix | src/scanner.rs:1593-1596 | unrolling keeps exactly the levels up to the last one not deeper than `col` |
| ScanState.UnrollCancelsRoll | src/scanner.rs:1573-1597 | rolling to `c` and then unrolling to a shallower `d` is unrolling to `d` |
| ScanState.UnrolledToBottom | src/scanner.rs:1589-1597 | `unroll_indent(-1)` leaves only the bottom level -1 |
| ScanState.UnrollIdempotent | src/scanner.rs:1589-1597 | unrolling a second time to the same column changes nothing |
| ScanState.BlockEnds | src/scanner.rs:1593-1596 | the tokens `unroll_indent` queues: as many BlockEnd tokens as levels popped |
| ScanState.BlockEndsAll | src/scanner.rs:1593-1596 | every one of them is a BlockEnd at the current position |
| ScanState.Inserted | src/scanner.rs:192-199 | `insert_token` puts the token at `pos`, keeps the tokens before it and shifts the rest by one |
| ScanState.InsertedThenRemoved | src/scanner.rs:192-199 | removing the inserted token gives back the original queue |
| ScanState.KeyQueuedInserted | src/scanner.rs:1527-1542 | a simple key turned into a key queues Key at the key's queue position, preceded by BlockMappingStart when the key's column opens a block mapping |
| ScanState.KeyRemoved | src/scanner.rs:1615-1623 | removing the current level's key only makes keys impossible, and the current one is impossible afterwards |
| ScanState.ClearedKeeps | src/scanner.rs:341-353 | making keys impossible keeps every fact about the keys that are still possible |
| ScanState.KeyNumbersGrow | src/scanner.rs:1605 | queueing more tokens keeps every key's queue position inside the queue |
| ScanState.Refreshed | src/scanner.rs:343-351 | a key stays possible exactly when it was possible and is neither on an earlier line nor more than 1024 characters back; nothing else changes |
| ScanState.RefreshedCleared | src/scanner.rs:341-353 | `stale_simple_keys` only makes keys impossible |
| ScanState.KeysBehindMoved | src/scanner.rs:1599-1613 | a key saved behind the position stays behind it while the scanner moves on |
| ScanState.KeySaved | src/scanner.rs:1599-1613 | where a simple key is allowed, the current level's slot becomes a possible key with the required flag, queue number and position; the other slots are kept; otherwise nothing changes |
| ScanState.BehindNotAfter | src/scanner.rs:1599-1613 | a key strictly behind the position is not after it |
| ScanState.KeysNotAfterAdvanced | src/scanner.rs:1599-1613 | a key saved at the position is strictly behind once any character was consumed |
| ScanState.KeysBehindAtLineStart | src/scanner.rs:343-345 | at the start of a line, every possible key behind the position is on an earlier line, so the staleness test clears it |
| ScanState.KeyNumbersPopped | src/scanner.rs:297-313 | handing out the queue head when no key waits on it keeps every key's queue position in the queue |
| ScanState.RefreshedClearsEarlierLines | src/scanner.rs:341-353 | when every possible key is on an earlier line, none is possible after `stale_simple_keys` |
| Decoders.At | src/scanner.rs:129-136 | the reader delivers the input's own characters and '\0' for ever once the input is exhausted; a non-'\0' character is inside the input |
| Decoders.InClass | src/scanner.rs:503-507 | no class of characters the scanner consumes runs of contains the '\0' that pads the input |
| Decoders.SpanEnd | src/scanner.rs:503-507 | a run of class characters ends at the first character outside the class, and never beyond the input |
| Decoders.SpanEndRun | src/scanner.rs:503-507 | every character before the end of the run is of the class |
| Decoders.FromU32 | src/scanner.rs:786-792 | `char::from_u32` succeeds exactly on Unicode scalar values (below 0xD800, or 0xE000 up to 0x10FFFF) and keeps the code |
| Decoders.Pow | src/scanner.rs:526-551 | a power of a positive base is at least 1, so the bound on a run of digits is never 0 |
| Decoders.PowMonotone | src/scanner.rs:526-551 | a power of ten grows with its exponent |
| Decoders.DigitValue | src/scanner.rs:538 | a digit's value `c - '0'` is below ten |
| Decoders.DecimalValue | src/scanner.rs:526-551 | the `val * 10 + digit` accumulation has fewer decimal places than the run has digits |
| Decoders.DecimalSnoc | src/scanner.rs:537-538 | each turn multiplies the value by ten and adds the new digit |
| Decoders.NineDigitsFitU32 | src/scanner.rs:531-538 | the nine-digit limit keeps the u32 accumulation `val * 10 + digit` from overflowing |
| Decoders.DecimalDigits | src/scanner.rs:526-551 | the k-digit spelling of a number is k decimal digits |
| Decoders.DecimalRoundTrip | src/scanner.rs:526-551 | reading back the decimal spelling of a number gives that number |
| Decoders.HexValue | src/scanner.rs:1262-1272 | the `(value << 4) + digit` accumulation of k hex digits is below 16^k |
| Decoders.HexDigits | src/scanner.rs:1262-1272 | the k-digit lower-case hex spelling of a number is k hex digits |
| Decoders.HexRoundTrip | src/scanner.rs:1262-1272 | reading back the hex spelling of a number gives that number |
| Decoders.EscapeCodeLength | src/scanner.rs:1246-1248 | `\x`, `\u` and `\U` announce 2, 4 and 8 hex digits, and none of them is a one-letter escape |
| Decoders.LeadWidth | src/scanner.rs:752-765 | a leading octet announces at most four octets |
| Decoders.LeadWidthMasks | src/scanner.rs:753-764 | the width is the one the masks 0x80, 0xE0, 0xF0 and 0xF8 select, 0 when none matches |
| Decoders.IsTrailMask | src/scanner.rs:767 | a trailing octet is one with `octet & 0xC0 == 0x80` |
| Decoders.BreakAt | src/scanner.rs:179-190 | a line break is two characters for CR LF, one for a lone CR or LF, none elsewhere |
| Decoders.Slice | src/scanner.rs:129-136 | the k characters the lookahead buffer holds from position i |
| Decoders.Span | src/scanner.rs:503-507 | the run collected by a class loop is as long as the loop advances |
| Decoders.SpanChars | src/scanner.rs:503-507 | the run holds the input's characters, each of the class |
| Decoders.SpanCons | src/scanner.rs:503-507 | a run starting with a class character is that character followed by the run from the next position |
| Decoders.SpanNil | src/scanner.rs:503-507 | a run starting outside the class is empty |
| Decoders.OctetAt | src/scanner.rs:751 | the octet `(as_hex(d1) << 4) + as_hex(d2)` is below 256 |
| Decoders.UriOctet | src/scanner.rs:742-778 | one turn takes an escaped `%hh` octet of three characters; the leading one sets width and code, a later one appends to the code as `code * 256 + octet` |
| Decoders.UriOctetsLength | src/scanner.rs:741-784 | the remaining turns take three characters per announced octet |
| Decoders.UriEscapeLength | src/scanner.rs:738-793 | a decoded URI escape spans three characters per octet its leading octet announces |
| Decoders.UriEscapeAscii | src/scanner.rs:738-793 | an escaped octet below 0x80 stands for itself and spans three characters |
| Decoders.UriEscapeConcatenates | src/scanner.rs:773 | a two-octet escape gives the code `lead * 256 + trail`, the octets concatenated rather than decoded as UTF-8 |
| Decoders.UriEscapeRejects | src/scanner.rs:752-772 | a stray trailing octet or an octet from 0xF8 cannot lead; a lead octet followed by a non-trailing escaped octet fails |
| Decoders.QuotedEscape | src/scanner.rs:1223-1290 | a decoded escape spans the backslash, the letter and as many hex digits as the letter announces |
| Decoders.QuotedEscapeU4 | src/scanner.rs:1223-1290 | `\u` followed by the four hex digits of a scalar value decodes to that character |
| Decoders.QuotedEscapeUnknown | src/scanner.rs:1249-1255 | a letter that is neither a one-letter escape nor `x`, `u`, `U` is the unknown-escape error |
| Directives.VersionDigitsValue | src/scanner.rs:526-551 | the digit loop accepts exactly one to nine digits in all and yields their decimal value; no digit is the missing-number error, a tenth digit the too-long error |
| Directives.VersionNumberValue | src/scanner.rs:526-551 | a version number is the decimal value of the one to nine digits at the position, so it always fits the u32; the two errors as above |
| Directives.VersionValue | src/scanner.rs:475-497 | a YAML directive value, when it is read, consumes input |
| Directives.TagHandle | src/scanner.rs:649-683 | a handle starts with '!' and is as long as the input it consumes; in a %TAG directive it is "!" or ends with '!'; no '!' at the start is the missing-'!' error |
| Directives.UriStep | src/scanner.rs:716-722 | each turn of the URI loop consumes at least one character |
| Directives.UriRunExtends | src/scanner.rs:709-726 | the URI loop only appends, and each character it consumes adds to the text |
| Directives.TagUri | src/scanner.rs:685-736 | without a head the URI is never empty: with no URI character at the position it is the missing-URI error |
| Directives.TagUriKeepsHead | src/scanner.rs:692-699 | the URI starts with the head's characters after its '!' |
| Directives.UriRunVerbatim | src/scanner.rs:709-726 | a URI without '%' escapes is the run of URI characters, taken over character for character |
| Directives.TagDirectiveValue | src/scanner.rs:553-582 | a %TAG value has a handle starting with '!' and a non-empty prefix |
| Directives.TagPrefix | src/scanner.rs:562-581 | the prefix of a %TAG directive is never empty |
| Directives.DirectiveValue | src/scanner.rs:424-444 | a directive value is a version or a tag directive; an unknown directive is skipped to the end of the line and gives an empty TagDirective |
| Directives.DirectiveLineEnd | src/scanner.rs:445-457 | after the blanks and an optional comment the position is at neither a blank nor, unless a comment starts there, anything else but the line end |
| Directives.DirectiveName | src/scanner.rs:499-524 | a name is the non-empty run of word characters at the position; an empty run and a run followed by something other than white space are the two distinct errors |
| Directives.DirectiveRest | src/scanner.rs:423-472 | what follows a directive name is a version or a tag directive |
| Directives.DirectiveAt | src/scanner.rs:419-473 | a directive is a version or a tag directive and consumes at least the '%' |
| Directives.TagEnd | src/scanner.rs:637-646 | a tag is accepted only when white space or end of input follows it |
| Directives.VerbatimTag | src/scanner.rs:602-615 | a verbatim tag `!<...>` has no handle and spans at least `!<>` |
| Directives.ShorthandTag | src/scanner.rs:616-635 | a shorthand tag has the empty handle (the lone `!`), the handle "!", or a named handle `!...!` |
| Directives.TagAt | src/scanner.rs:593-647 | a tag is followed by white space or end of input, and its handle is empty, "!" or `!...!` |
| Directives.TagAtEnds | src/scanner.rs:593-647 | a tag fails where its verbatim or shorthand form fails, and otherwise is accepted or rejected by the end check after the tag's length |
| Dispatch.SkipTarget | src/scanner.rs:355-378 | skipping stops at a character that ends the loop; a line break outside flow collections allows a simple key, and inside a flow collection the flag is unchanged |
| Dispatch.SkipTargetStays | src/scanner.rs:355-378 | where nothing is to be skipped, the scanner stays put |
| Dispatch.SkipTargetIdempotent | src/scanner.rs:355-378 | skipping again from where skipping stopped changes nothing |
| Dispatch.Classify | src/scanner.rs:222-294 | end of input is the stream end and nothing else is; block scalars are chosen only outside flow collections; directives and document indicators only at column 0, the latter only on `---`/`...` followed by white space |
| Dispatch.PlainFetchConsumes | src/scanner.rs:287-293 | where the plain-scalar fetcher is chosen, the plain scanner consumes at least one character, so the main loop makes progress |
| Dispatch.ClassifyApplies | src/scanner.rs:222-294 | every fetcher is called only on the character it handles |
| Dispatch.PlainIndicatorStarts | src/scanner.rs:270-289 | outside flow collections '-', '?' and ':' before a non-blank character start a plain scalar |
| Dispatch.NoBlockScalarInFlow | src/scanner.rs:278-293 | inside a flow collection '\|' and '>' start plain scalars, not block scalars |
| BlockScalars.BlockHeader | src/scanner.rs:966-1003 | the header gives strip, clip or keep and an indentation indicator of at most 9, consuming at most two characters, and nothing exactly when neither indicator is there; it fails exactly on an indicator of 0, before or after the chomping sign |
| BlockScalars.HeaderOrderIrrelevant | src/scanner.rs:966-1003 | the chomping and indentation indicators mean the same in either order |
| BlockScalars.HeaderLineEnd | src/scanner.rs:1005-1018 | the blanks and comment after the header never move the position back |
| BlockScalars.AutoIndent | src/scanner.rs:1135-1143 | a scalar without an indentation indicator is indented at least as deep as its deepest leading line, deeper than its parent and at least 1, and at one of those three values |
| BlockScalars.IndentSpaces | src/scanner.rs:1108-1111 | the space loop stops at the first character that is not an indentation space: any non-space, or column `indent` once the indentation is known |
| BlockScalars.BreaksTurnAt | src/scanner.rs:1107-1132 | one turn ends at a tab in the indentation, at the start of a line with content, or consumes a line break |
| BlockScalars.BlockBreaks | src/scanner.rs:1104-1145 | the leading empty lines end at a line with content; a known indentation is kept, an unknown one becomes deeper than the parent's and at least 1; a tab in the indentation fails where it is |
| BlockScalars.BlockLineAt | src/scanner.rs:1047-1080 | a turn either reads one content line and consumes input, or ends the loop, leaving the text and pending breaks unchanged when it stops where it started |
| BlockScalars.LineJoin | src/scanner.rs:1049-1061 | a literal scalar adds the pending line break and the empty lines; a folded one replaces a single break between two lines that start with no blank by a space, or by the empty lines when there are some |
| BlockScalars.LineEnd | src/scanner.rs:1070-1079 | after a content line the loop ends at end of input or consumes the line break and the empty lines after it |
| BlockScalars.BlockLines | src/scanner.rs:1047-1080 | the content loop never moves back |
| BlockScalars.Chomped | src/scanner.rs:1082-1089 | strip drops the final line break and the trailing empty lines, clip keeps the final line break only, keep keeps both |
| BlockScalars.BlockContent | src/scanner.rs:1033-1089 | the token starts after the header line and no later than where scanning stopped |
| BlockScalars.HeaderLine | src/scanner.rs:962-1031 | the header line consumes the indicator and gives a chomping in {-1,0,1} and an indicator of at most 9; its errors are the zero indicator and the missing line break, both marked at the indicator |
| BlockScalars.IndicatedIndent | src/scanner.rs:1033-1039 | an indentation indicator gives an indentation deeper than the parent's; without one the indentation is still unknown (0) |
| BlockScalars.BlockScalar | src/scanner.rs:950-1102 | a block scalar's token starts after its indicator and no later than where scanning stopped |
| BlockScalars.ChompingOrder | src/scanner.rs:1082-1089 | strip, clip and keep read the same lines and fail alike; strip's text is a prefix of clip's, clip's of keep's |
| BlockScalars.IndicatorZeroExample | src/scanner.rs:984-990 | `\|0` is the zero-indicator error, marked at the indicator |
| BlockScalars.NoLineBreakExample | src/scanner.rs:1020-1026 | `\| x` is the missing-line-break error |
| BlockScalars.TabExample | src/scanner.rs:1117-1124 | a tab where the indentation of `\|` is still unknown is an error, marked at the tab |
| BlockScalars.OneLineContent | src/scanner.rs:1041-1089 | ` a` followed by a line break and an empty line reads `a` with its final break and the empty line chomped as asked |
| BlockScalars.StripExample | src/scanner.rs:1082-1089 | `\|-` drops the final line break and the empty line |
| BlockScalars.ClipExample | src/scanner.rs:1082-1089 | `\|` keeps the final line break only |
| BlockScalars.KeepExample | src/scanner.rs:1082-1089 | `\|+` keeps the final line break and the empty line |
| BlockScalars.TwoLinesFirstTurn | src/scanner.rs:1104-1145 | the indentation of the first line becomes the scalar's, and the first turn reads its text |
| BlockScalars.TwoLinesSecondTurn | src/scanner.rs:1047-1069 | the second line is joined by a line break in a literal scalar and by a space in a folded one |
| BlockScalars.TwoLinesContent | src/scanner.rs:1041-1089 | two content lines give `a`, `b` joined and clipped, in both styles |
| BlockScalars.FoldedExample | src/scanner.rs:950-1102 | `>` folds two lines into one joined by a space |
| BlockScalars.LiteralExample | src/scanner.rs:950-1102 | `\|` keeps the same two lines apart |
| PlainScalars.Flushed | src/scanner.rs:1415-1436 | once the pending white space is added to the text, the fold is over and, after a line break, the break buffer is emptied |
| PlainScalars.PlainRun | src/scanner.rs:1403-1441 | the run stops at white space, '\0' or an indicator; when it stops at once nothing changes; otherwise the text ends in a non-blank character |
| PlainScalars.PlainBlanks | src/scanner.rs:1448-1475 | the white-space loop stops at the first character that is neither blank nor a break, consumes whatever white space is there, and once a line break was seen the fold stays open |
| PlainScalars.PlainTurnAt | src/scanner.rs:1386-1481 | a turn that goes on consumes input, and one that ends never moves back |
| PlainScalars.PlainFrom | src/scanner.rs:1386-1481 | scanning on from a position never moves back |
| PlainScalars.PlainScalar | src/scanner.rs:1376-1491 | a plain scalar never moves back from its start |
| PlainScalars.PlainFromEndsInText | src/scanner.rs:1415-1441 | white space is added only when a run follows it, so the text never ends in white space (section 7.3.3 of YAML 1.2) |
| PlainScalars.PlainScalarEndsInText | src/scanner.rs:1376-1491 | a plain scalar's text is empty or ends in a non-blank character |
| PlainScalars.PlainScalarConsumes | src/scanner.rs:1386-1441 | where the scanner is not at a document indicator, a '#' or an indicator, a plain scalar consumes at least one character |
| PlainScalars.PlainWordsExample | src/scanner.rs:1376-1491 | `a b` at the top level is one scalar with its inner space kept |
| PlainScalars.PlainColonInFlowExample | src/scanner.rs:1405-1410 | inside a flow collection ':' before ',' ends the scalar |
| PlainScalars.PlainColonInBlockExample | src/scanner.rs:1405-1412 | outside flow collections ':' not followed by white space and ',' belong to the scalar |
| PlainScalars.PlainIndentEndExample | src/scanner.rs:1477-1485 | a continuation line left of the required indentation ends the scalar, and the line break seen allows a simple key |
| PlainScalars.PlainTabExample | src/scanner.rs:1450-1455 | a tab in the indentation of a continuation line is the plain-scalar tab error |
| PlainScalars.RunTake | src/scanner.rs:1438-1440 | with nothing pending a run takes the character as it is |
| PlainScalars.RunStop | src/scanner.rs:1403-1413 | a run stops at white space, '\0' or an indicator and changes nothing |
| FlowScalars.QuotedRunStep | src/scanner.rs:1203-1297 | a turn that goes on consumes input; a run that stops where it is stops at white space or the closing quote, and without an escaped line break it stops where it is with the text unchanged |
| FlowScalars.QuotedRun | src/scanner.rs:1203-1297 | the non-blank loop never moves back, and if it consumes nothing it is at white space or the closing quote |
| FlowScalars.QuotedRunStops | src/scanner.rs:1203-1297 | a run ends only at white space or the closing quote, or just after an escaped line break |
| FlowScalars.SingleQuotedRunSucceeds | src/scanner.rs:1203-1213 | single-quoted scalars have no escapes, so their runs never fail and never stop at an escaped line break |
| FlowScalars.QuotedBlanks | src/scanner.rs:1305-1327 | the white-space loop stops at the first character that is neither blank nor a break and consumes whatever white space is there |
| FlowScalars.QuotedTurn | src/scanner.rs:1174-1347 | a turn either reaches the closing quote or consumes input and goes on |
| FlowScalars.FlowScalarFrom | src/scanner.rs:1174-1351 | a scalar read spans past the position it was scanned on from |
| FlowScalars.FlowScalar | src/scanner.rs:1162-1364 | a quoted scalar spans at least its two quotes |
| FlowScalars.RunTakes | src/scanner.rs:1293-1296 | a character that is neither white space, nor a quote, nor a backslash is added to the text as it is |
| FlowScalars.RunTakesDoubled | src/scanner.rs:1206-1210 | in a single-quoted scalar `''` adds one quote |
| FlowScalars.RunStops | src/scanner.rs:1203-1213 | the run stops at white space and at a closing quote that is not doubled |
| FlowScalars.RunStopsEscapedBreak | src/scanner.rs:1215-1221 | in a double-quoted scalar a backslash before a line break ends the run after the break, with the escaped-break flag set |
| FlowScalars.ScalarCloses | src/scanner.rs:1298-1302 | a run that stops at the closing quote ends the scalar past that quote |
| FlowScalars.ScalarContinues | src/scanner.rs:1305-1347 | a run that stops at white space goes on after it, with the white space folded into the text |
| FlowScalars.ScalarAtIndicator | src/scanner.rs:1175-1189 | a document indicator at the start of a line inside the scalar is the quoted-document-indicator error |
| FlowScalars.DoubledQuoteExample | src/scanner.rs:1206-1210 | `'it''s'` reads `it's` |
| FlowScalars.FoldedLineExample | src/scanner.rs:1328-1343 | a single line break with indentation inside a quoted scalar folds into one space |
| FlowScalars.SingleQuotedBody | src/scanner.rs:1206-1210 | the single-quoted spelling of a text is at least as long as the text |
| FlowScalars.DoubleQuotedBody | src/scanner.rs:1223-1236 | the double-quoted spelling of a text is at least as long as the text |
| FlowScalars.RunTakesEscaped | src/scanner.rs:1234-1236 | in a double-quoted scalar `\"` and `\\` add the escaped character |
| FlowScalars.CharSpelling | src/scanner.rs:1205-1238 | one character's spelling inside quotes is never empty and ends with the character itself: `''` for a quote in single quotes, a backslash before a quote or a backslash in double quotes |
| FlowScalars.HoldsSplit | src/scanner.rs:1203-1297 | where the spelling of a blank-free text is in the input, its first character is no white space and the spelling of each part is in the input in turn |
| FlowScalars.SpelledSplit | src/scanner.rs:1203-1297 | the spelling of a non-empty blank-free text is the spelling of its first character followed by that of the rest, both present in the input in that order |
| FlowScalars.QuotedTakes | src/scanner.rs:1203-1297 | a character other than white space, in its spelling, joins the run of the non-blank loop, which goes on after the spelling |
| FlowScalars.QuotedRunReads | src/scanner.rs:1203-1297 | the non-blank loop over the spelling of a blank-free text, followed by a blank or the closing quote, gives back exactly the text and stops where the spelling ends |
| FlowScalars.SpellingAppend | src/scanner.rs:1203-1297 | the spelling of a concatenation is the concatenation of the spellings |
| FlowScalars.SpellingBlanks | src/scanner.rs:1305-1314 | spaces and tabs are spelled as they are |
| FlowScalars.SpellingHead | src/scanner.rs:1205-1238 | the spelling of a non-empty text starts with its first character, or with the quote or backslash before it |
| FlowScalars.SpellingNoBreakz | src/scanner.rs:1203-1297 | quoting a text without line breaks adds none |
| FlowScalars.HoldsAppend | src/scanner.rs:1203-1297 | the input holds a concatenation from a position exactly when it holds the first part there and the second right after it |
| FlowScalars.HoldsOneLine | src/scanner.rs:1203-1297 | where the input holds a text without line breaks it has no line feed |
| FlowScalars.StaysOnLine | src/scanner.rs:1174-1189 | reading on over the spelling of a text without line breaks keeps the opening quote's line and counts one column per character, so no document-indicator check can fire |
| FlowScalars.WordLength | src/scanner.rs:1203-1297 | the longest blank-free prefix of a text: nothing before it is a blank, and a blank follows it when the text goes on |
| FlowScalars.BlanksLength | src/scanner.rs:1305-1327 | the longest all-blank prefix of a text: everything before it is a blank, and a non-blank follows it when the text goes on |
| FlowScalars.BlanksRead | src/scanner.rs:1305-1314 | before any line break the white-space loop keeps every blank it reads and stops at the first character that is neither blank nor break |
| FlowScalars.SpellingStart | src/scanner.rs:1203-1304 | the spelling of a text without line breaks, closed by the quote, starts with a blank exactly when the text does, never with a line break, and with the closing quote when the text is empty |
| FlowScalars.WordSplit | src/scanner.rs:1203-1297 | a text without line breaks splits into its blank-free prefix and a rest that is empty or starts with a blank, and its spelling splits the same way |
| FlowScalars.BlanksSplit | src/scanner.rs:1305-1327 | a text splits after its leading blanks, and those blanks are spelled as they are |
| FlowScalars.WordParts | src/scanner.rs:1203-1304 | the spelling of a text in the input is that of its blank-free prefix, which ends at a blank or at the closing quote, followed by that of the rest |
| FlowScalars.BlanksStretch | src/scanner.rs:1305-1327 | after a run, the white-space loop over spelled blanks reads exactly the leading blanks of the rest of the text, keeps them, and stops where the next part's spelling starts |
| FlowScalars.WordStart | src/scanner.rs:1203-1297 | the spelling of a non-empty blank-free text starts with a character that is not white space, so the run is not empty |
| FlowScalars.TurnCloses | src/scanner.rs:1298-1302 | a turn over the spelling of a blank-free text followed by the closing quote ends the scalar with the text read, past that quote |
| FlowScalars.WordThenBlanks | src/scanner.rs:1203-1347 | a turn over a blank-free part followed by blanks adds that part and the blanks as they are, and leaves the scan, further on but not past the spelling, where the rest's spelling starts |
| FlowScalars.TurnGoesOn | src/scanner.rs:1203-1347 | a turn whose run reads a blank-free part and whose white-space loop reads blanks only goes on with the part and the blanks added to the text |
| FlowScalars.QuotedTurnOver | src/scanner.rs:1174-1347 | one turn over the spelling of a text without line breaks either ends the scalar with the whole text read, or reads a shorter first part and goes on, on the same line, where the rest's spelling starts |
| FlowScalars.QuotedReads | src/scanner.rs:1174-1351 | scanning on over the spelling of a text without line breaks up to the closing quote adds exactly that text, blanks included, and ends past the quote |
| FlowScalars.SingleQuotedRoundTrip | src/scanner.rs:1162-1364 | a quote, the doubled-quote spelling of any text without line breaks (blanks included) and a quote not followed by another scan back to that text, spanning exactly those characters |
| FlowScalars.DoubleQuotedRoundTrip | src/scanner.rs:1162-1364 | a quote, the backslash-escaped spelling of any text without line breaks (blanks included) and a quote scan back to that text, spanning exactly those characters |
| FlowScalars.EscapedBreakExample | src/scanner.rs:1215-1221 | an escaped line break joins two lines with nothing between them and drops the indentation after it |
| FlowScalars.UnterminatedExample | src/scanner.rs:1191-1196 | a quoted scalar without its closing quote is the end-of-stream error |
| FlowScalars.UnknownEscapeExample | src/scanner.rs:1249-1255 | `\q` is the unknown-escape error |
| FlowScalars.DocumentIndicatorExample | src/scanner.rs:1175-1189 | `---` at the start of a line inside a quoted scalar is the document-indicator error |
| FlowScalars.FirstLineFolded | src/scanner.rs:1305-1347 | the first line of `'a` followed by a line break is read as `a` with the break folded into one space before the next turn |
| FlowScalars.FirstBreak | src/scanner.rs:1316-1324 | the first line break seen goes to the leading break and starts the fold |
| Emitting.IndentWidth | src/emitter.rs:293-298 | `emit_indent` writes two spaces per level above 0 and nothing at level 0 and below |
| Emitting.Spaces | src/emitter.rs:293-298 | the indentation is as wide as asked |
| Emitting.DecimalText | src/emitter.rs:114-117 | the `Display` digits of a number are a non-empty run of decimal digits |
| Emitting.DecimalTextValue | src/emitter.rs:114-117 | reading the digits back gives the number |
| Emitting.IntText | src/emitter.rs:114-117 | a negative integer is written as '-' and the digits of its magnitude, any other as its digits |
| Emitting.ItemNext | src/emitter.rs:146-170 | each turn of the sequence loop (an entry, with the inline comment after it if any) moves forward and stays within the sequence, so the loop ends |
| Emitting.PairNext | src/emitter.rs:184-218 | each turn of the mapping loop (an entry, with the inline comment after it if any) moves forward and stays within the mapping, so the loop ends |
| Emitting.HeadComment | src/emitter.rs:74-87 | what `dump` writes on the `---` line is an inline comment |
| Emitting.SpacesAreSpaces | src/emitter.rs:293-298 | every character of the indentation is a space |
| Emitting.IndentWidthMonotone | src/emitter.rs:293-298 | a deeper level is indented at least as wide |
| Emitting.IndentedFlat | src/emitter.rs:95-135 | writing text without a line break keeps every line's indentation |
| Emitting.IndentedTrans | src/emitter.rs:95-135 | two indented writes in a row are one indented write |
| Emitting.IndentedWeaken | src/emitter.rs:95-135 | a write indented by n is indented by anything less |
| Emitting.IndentedLineBegin | src/emitter.rs:275-279 | `emit_line_begin` is followed by the indentation of its level |
| Emitting.IndentedValueIndent | src/emitter.rs:281-291 | `emit_value_indent` either writes one space or starts a line indented one level deeper |
| Emitting.IndentedChain | src/emitter.rs:95-135 | a write indented by n followed by one indented deeper is indented by n |
| Emitting.NodeIndented | src/emitter.rs:95-135 | block indentation: every line break a node writes at a level is followed by the indentation of the level inside it |
| Emitting.ArrayIndented | src/emitter.rs:137-173 | every line a sequence writes is indented for the level inside it |
| Emitting.ItemsIndented | src/emitter.rs:146-170 | every line the sequence loop writes is indented for the sequence's inner level |
| Emitting.ItemIndented | src/emitter.rs:146-170 | every line one entry writes is indented for the sequence's inner level |
| Emitting.HashIndented | src/emitter.rs:175-221 | every line a mapping writes is indented for the level inside it |
| Emitting.PairsIndented | src/emitter.rs:184-218 | every line the mapping loop writes is indented for the mapping's inner level |
| Emitting.PairIndented | src/emitter.rs:184-218 | every line one entry writes is indented for the mapping's inner level |
| Emitting.EntryIndented | src/emitter.rs:202-213 | a complex `?` key, its `:` line and the value, and a simple key with its value, are all indented for the mapping's inner level |
| Emitting.ValueArrayIndented | src/emitter.rs:235-245 | a sequence written as a value, with its value indent, is indented one level deeper |
| Emitting.ValueIndented | src/emitter.rs:227-273 | every line a value writes is indented for the level inside its parent |
| Emitting.AppendAssoc | src/emitter.rs:95-135 | writing is appending: appends associate |
| Emitting.LineBeginPrefix | src/emitter.rs:275-279 | a line begin appends the same text whatever was written before it |
| Emitting.ValueIndentPrefix | src/emitter.rs:281-291 | a value indent appends the same text whatever was written before it |
| Emitting.NodePrefix | src/emitter.rs:95-135 | the writer is only appended to, and what a node appends does not depend on what was written before |
| Emitting.ArrayPrefix | src/emitter.rs:137-173 | what a sequence appends does not depend on what was written before |
| Emitting.ItemsPrefix | src/emitter.rs:146-170 | what the sequence loop appends does not depend on what was written before |
| Emitting.ItemPrefix | src/emitter.rs:146-170 | what one entry appends does not depend on what was written before |
| Emitting.HashPrefix | src/emitter.rs:175-221 | what a mapping appends does not depend on what was written before |
| Emitting.PairsPrefix | src/emitter.rs:184-218 | what the mapping loop appends does not depend on what was written before |
| Emitting.PairPrefix | src/emitter.rs:184-218 | what one mapping entry appends does not depend on what was written before |
| Emitting.EntryPrefix | src/emitter.rs:202-213 | what a key and its value append does not depend on what was written before |
| Emitting.ValuePrefix | src/emitter.rs:227-273 | what a value appends does not depend on what was written before |
| Emitting.NodeAppends | src/emitter.rs:95-135 | `emit_node` appends the node's own text to the writer |
| Emitting.DumpHeader | src/emitter.rs:71-93 | `dump` writes `---`, the inline comment that opens the document if any, a line break, then the document's text at level -1 |
| Emitting.CommentKeyValueIgnored | src/emitter.rs:196-199 | the value of a comment key is never written, even a comment: the mapping from comment `a` to comment `b` is emittable and dumps as `---` and `#a` |
| Emitting.EmptyCollections | src/emitter.rs:137-141 | an empty sequence is `[]` and an empty mapping `{}`; after an indicator they follow a space |
| Emitting.LeafTexts | src/emitter.rs:107-133 | booleans are `true`/`false`, null and bad values `~`, an alias nothing, an inline comment ` #text`, another comment `#text` |
| Emitting.IntegerText | src/emitter.rs:114-117 | an integer is written as its decimal digits, after '-' when negative, and the digits read back give its magnitude |
| Emitting.YamlEmitter.constructor | src/emitter.rs:45-52 | a new emitter has written nothing, is compact and is at level -1 |
| Emitting.YamlEmitter.SetCompact | src/emitter.rs:62-64 | switches compact inline notation as asked |
| Emitting.YamlEmitter.EmitIndent | src/emitter.rs:293-298 | appends the indentation of the current level, one space per turn |
| Emitting.YamlEmitter.EmitLineBegin | src/emitter.rs:275-279 | appends a line break and the indentation of the current level |
| Emitting.YamlEmitter.EmitValueIndent | src/emitter.rs:281-291 | appends one space in compact mode after a short indicator, otherwise a line indented one level deeper; the level is restored |
| Emitting.YamlEmitter.Dump | src/emitter.rs:71-93 | appends what `WriteDump` says (header line, then the document at level -1) and leaves the level at -1 |
| Emitting.YamlEmitter.EmitNode | src/emitter.rs:95-135 | appends the node's text at the current level and restores the level |
| Emitting.YamlEmitter.EmitArray | src/emitter.rs:137-173 | appends the sequence's text, entries one level deeper, and restores the level |
| Emitting.YamlEmitter.EmitItem | src/emitter.rs:147-169 | appends one turn of the sequence loop and returns where the next turn starts |
| Emitting.YamlEmitter.EmitHash | src/emitter.rs:175-221 | appends the mapping's text, entries one level deeper, and restores the level |
| Emitting.YamlEmitter.EmitPair | src/emitter.rs:185-217 | appends one turn of the mapping loop and returns where the next turn starts |
| Emitting.YamlEmitter.EmitEntry | src/emitter.rs:202-213 | appends a key and its value as a complex or a simple key |
| Emitting.YamlEmitter.EmitValue | src/emitter.rs:227-273 | appends a value after an indicator, its leading inline comment first, and restores the level |
| Scanning.Scanner.Buffer | src/scanner.rs:129-136 | the lookahead buffer holds, in order, the next characters of the input, padded with '\0' past its end |
| Scanning.Scanner.FetchingIsValid | src/scanner.rs:209-220 | the state in which a token may be fetched is exactly a valid scanner whose stream has started, whose end is not yet queued and which holds no available token |
| Scanning.Scanner.BetweenKept | src/scanner.rs:209-220 | scanning a token, which changes only the reader, the position and the end of the queue, keeps the state between two fetches |
| Scanning.Scanner.constructor | src/scanner.rs:103-123 | a new scanner is at index 0, line 1, column 0, with an empty buffer and queue, simple keys allowed but no key slot yet, indent -1, flow level 0, no stream start or end produced, no token handed out, and satisfies the scanner invariant |
| Scanning.Scanner.Lookahead | src/scanner.rs:129-136 | the buffer grows to at least `count` characters and never shrinks |
| Scanning.Scanner.Skip | src/scanner.rs:138-148 | consumes one buffered character: the index advances by one, a line feed starts a new line at column 0, anything else advances the column |
| Scanning.Scanner.SkipLine | src/scanner.rs:150-157 | consumes a CRLF pair, a single CR or LF, or nothing; after a LF or CRLF the mark is on the next line at column 0 |
| Scanning.Scanner.ReadBreak | src/scanner.rs:179-190 | appends one '\n' to the text for any line break and consumes the break (CRLF as one) |
| Scanning.Scanner.InsertToken | src/scanner.rs:192-199 | the queue is the old queue with the token inserted at `pos`, and the scanner invariant is kept |
| Scanning.Scanner.RollIndent | src/scanner.rs:1573-1587 | outside flow context and only for a column deeper than the indent, pushes the indent and queues the token, at the end or at the given position; otherwise nothing changes |
| Scanning.Scanner.UnrollIndent | src/scanner.rs:1589-1597 | outside flow context pops every indentation level deeper than the column, queuing one BlockEnd per level popped; in flow context nothing changes; the state between two fetches is kept |
| Scanning.Scanner.PopLevelsAbove | src/scanner.rs:1593-1596 | the loop leaves the levels as `Unrolled` says, and the queue gains one BlockEnd at the position per level popped |
| Scanning.Scanner.PopIndent | src/scanner.rs:1594-1595 | one level popped and one BlockEnd queued at the mark |
| Scanning.Scanner.RemoveSimpleKey | src/scanner.rs:1615-1623 | fails with "simple key expected" exactly when the innermost key is possible and required, leaving the keys unchanged; otherwise marks it impossible |
| Scanning.Scanner.SaveSimpleKey | src/scanner.rs:1599-1613 | when a simple key is allowed, replaces the innermost key with a possible one at the mark, required in flow context at the indent column, numbered by the tokens seen so far; fails exactly when the key it replaces was required |
| Scanning.Scanner.StaleSimpleKeys | src/scanner.rs:341-353 | succeeds exactly when no possible and required key is stale (on an earlier line or more than 1024 characters back); on success every stale key becomes impossible and nothing else changes |
| Scanning.Scanner.IncreaseFlowLevel | src/scanner.rs:879-886 | pushes a fresh key slot and raises the 8-bit flow level, failing with "recursion limit exceeded" exactly at 255 |
| Scanning.Scanner.DecreaseFlowLevel | src/scanner.rs:888-893 | in flow context lowers the level and pops the innermost key slot; at level 0 nothing changes |
| Scanning.Scanner.ScanAlphas | src/scanner.rs:503-507 | returns the longest run of word characters at the mark and moves past it |
| Scanning.Scanner.SkipBlanks | src/scanner.rs:447-450 | moves past the longest run of spaces and tabs |
| Scanning.Scanner.SkipToBreakz | src/scanner.rs:453-456 | moves to the first line break or end of input |
| Scanning.Scanner.ScanDirectiveName | src/scanner.rs:499-524 | succeeds exactly as `DirectiveName` does, with its value and length; errors are marked where the name starts |
| Scanning.Scanner.ScanVersionDirectiveNumber | src/scanner.rs:526-551 | succeeds exactly as `VersionNumber` does (one to nine digits), with its value and length |
| Scanning.Scanner.ScanVersionDirectiveValue | src/scanner.rs:475-497 | succeeds exactly as `VersionValue` does and returns the VersionDirective token with its major and minor numbers |
| Scanning.Scanner.ScanTagHandle | src/scanner.rs:649-683 | succeeds exactly as `TagHandle` does, with its value and length, and always moves past the leading '!' on success |
| Scanning.Scanner.PeekOctet | src/scanner.rs:742-750 | succeeds exactly when '%' and two hex digits are at the mark, with the octet they spell |
| Scanning.Scanner.ScanUriOctet | src/scanner.rs:742-779 | one turn of the escape loop: succeeds exactly as `UriOctet` does, consuming three characters; on error the mark does not move |
| Scanning.Scanner.ScanUriEscapes | src/scanner.rs:738-793 | succeeds exactly as `UriEscape` does, with the decoded character and the length of its escapes |
| Scanning.Scanner.ScanUriChar | src/scanner.rs:717-722 | one URI character: succeeds exactly as `UriStep` does, decoding an escape or copying the character |
| Scanning.Scanner.ScanTagUri | src/scanner.rs:685-736 | succeeds exactly as `TagUri` does: the head after its first character followed by the URI run, failing when nothing at all was read |
| Scanning.Scanner.ScanUriRun | src/scanner.rs:709-726 | the URI loop: succeeds exactly as `UriRun` does, with its text and length |
| Scanning.Scanner.ScanTagDirectiveValue | src/scanner.rs:553-582 | succeeds exactly as `TagDirectiveValue` does and returns the TagDirective token with its handle and prefix |
| Scanning.Scanner.ScanTagPrefix | src/scanner.rs:570 | succeeds exactly as `TagPrefix` does |
| Scanning.Scanner.ScanDirectiveValue | src/scanner.rs:424-444 | succeeds exactly as `DirectiveValue` does: YAML and TAG are scanned, any other name skips the line and yields an empty TagDirective |
| Scanning.Scanner.SkipDirectiveTrail | src/scanner.rs:445-457 | moves to `DirectiveLineEnd`: past the blanks and a comment |
| Scanning.Scanner.ScanDirectiveRest | src/scanner.rs:424-472 | succeeds exactly as `DirectiveRest` does, consuming the value, the rest of the line and its break |
| Scanning.Scanner.ScanDirective | src/scanner.rs:419-473 | succeeds exactly as `DirectiveAt` does, with the token marked at '%'; a bad name is reported where the name starts, anything else at '%' |
| Scanning.Scanner.ScanVerbatimTag | src/scanner.rs:602-615 | succeeds exactly as `VerbatimTag` does: a URI between "!<" and '>' |
| Scanning.Scanner.ScanShorthandTag | src/scanner.rs:617-634 | succeeds exactly as `ShorthandTag` does: a handle and a suffix, or "!" and the suffix, or an empty handle with suffix "!" |
| Scanning.Scanner.ScanTag | src/scanner.rs:593-647 | succeeds exactly as `TagAt` does and returns the Tag token at the mark |
| Scanning.Scanner.ScanTagForm | src/scanner.rs:600-635 | after "!<" scans a verbatim tag, otherwise a shorthand one, exactly as `VerbatimTag` or `ShorthandTag` decode it, with errors marked at the '!' |
| Scanning.Scanner.ScanAnchor | src/scanner.rs:806-837 | reads the name of word characters after '*' or '&'; succeeds exactly when the name is non-empty and followed by a blank, a break, the end or one of `?:,]}%@` and a backtick |
| Scanning.Scanner.FetchComment | src/scanner.rs:1625-1651 | moves to the end of the line and queues a Comment token holding the text after the leading '#' and spaces |
| Scanning.Scanner.PeekHexCode | src/scanner.rs:1260-1272 | succeeds exactly when the next n buffered characters are hex digits, with the number they spell |
| Scanning.Scanner.SkipN | src/scanner.rs:1286-1288 | consumes n characters and ends at the mark they lead to |
| Scanning.Scanner.ScanEscape | src/scanner.rs:1223-1290 | succeeds exactly as `QuotedEscape` does, with the decoded character and the length of the escape |
| Scanning.Scanner.ScanQuotedChar | src/scanner.rs:1204-1295 | one turn of the run loop: stops or steps exactly as `QuotedRunStep` says, failing only where it fails |
| Scanning.Scanner.ScanQuotedRun | src/scanner.rs:1203-1297 | the run of non-blank characters: succeeds exactly as `QuotedRun` does, with its text, its end and whether it ended at an escaped break |
| Scanning.Scanner.ConsumeBlank | src/scanner.rs:1307-1325 | one blank or break, as `BlankStep` says |
| Scanning.Scanner.ScanQuotedBlanks | src/scanner.rs:1306-1327 | the blanks and breaks between runs, with the pending whitespace `QuotedBlanks` says |
| Scanning.Scanner.ScanQuotedTurn | src/scanner.rs:1174-1348 | one turn of the scalar loop: fails, closes or continues exactly as `QuotedTurn` says, rejecting a document indicator at column 0 and the end of input |
| Scanning.Scanner.ScanQuotedPiece | src/scanner.rs:1198-1347 | past the two error checks, the run and the closing quote or the folded white space after it agree with `QuotedTurn` |
| Scanning.Scanner.ScanQuotedTail | src/scanner.rs:1298-1347 | stops at the closing quote, or consumes the blanks and returns their join |
| Scanning.Scanner.ScanFlowScalar | src/scanner.rs:1162-1364 | succeeds exactly as `FlowScalar` does and returns the single- or double-quoted Scalar token at the opening quote |
| Scanning.Scanner.ScanPlainRun | src/scanner.rs:1403-1441 | the run of non-blank characters of a plain scalar, as `PlainRun` says |
| Scanning.Scanner.ScanPlainBlanks | src/scanner.rs:1448-1475 | the blanks and breaks after a run, failing exactly where `PlainBlanks` finds a tab in the indentation |
| Scanning.Scanner.ScanPlainTurn | src/scanner.rs:1386-1481 | one turn of the plain scalar loop, as `PlainTurnAt` says |
| Scanning.Scanner.ScanPlainScalar | src/scanner.rs:1376-1491 | succeeds exactly as `PlainScalar` does and returns the Plain Scalar token; a simple key becomes allowed when the scalar ended in line breaks |
| Scanning.Scanner.ScanBlockIndicators | src/scanner.rs:963-1003 | the chomping and indentation indicators in either order, as `BlockHeader` says, failing on an indentation indicator of 0 |
| Scanning.Scanner.ScanIndentSpaces | src/scanner.rs:1107-1111 | the indentation spaces of one line, as `IndentSpaces` says |
| Scanning.Scanner.ScanBreaksTurn | src/scanner.rs:1106-1133 | one line of the break loop, as `BreaksTurnAt` says, failing on a tab in the indentation |
| Scanning.Scanner.ScanBlockBreaks | src/scanner.rs:1104-1145 | the empty lines before content, with the indentation they settle, as `BlockBreaks` says |
| Scanning.Scanner.ScanLineText | src/scanner.rs:1065-1069 | appends the rest of the line to the text and stops at its break |
| Scanning.Scanner.ScanBlockHeader | src/scanner.rs:962-1031 | the header line after '\|' or '>', with its result exactly `HeaderLine` |
| Scanning.Scanner.ScanHeaderLineEnd | src/scanner.rs:1006-1031 | after the blanks and a comment the header line must end, and its break is consumed |
| Scanning.Scanner.ScanBlockLine | src/scanner.rs:1047-1080 | one content line and the breaks after it, as `BlockLineAt` says |
| Scanning.Scanner.ScanLineEnd | src/scanner.rs:1071-1079 | the end of a content line, as `LineEnd` says |
| Scanning.Scanner.ScanBlockContent | src/scanner.rs:1033-1101 | the content lines and chomping, with the token exactly as `BlockContent` says |
| Scanning.Scanner.ScanBlockScalar | src/scanner.rs:950-1102 | succeeds exactly as `BlockScalar` does and returns the Literal or Folded Scalar token marked where the content starts |
| Scanning.Scanner.SkipStep | src/scanner.rs:359-376 | one turn of the skip loop: stops where `SkipStops` holds and otherwise moves forward keeping the skip target |
| Scanning.Scanner.SkipBlank | src/scanner.rs:360-361 | a space, or a tab where allowed, keeps the skip target |
| Scanning.Scanner.SkipBreak | src/scanner.rs:362-368 | a line break keeps the skip target, allowing a simple key outside flow context |
| Scanning.Scanner.SkipComment | src/scanner.rs:369-374 | a comment skipped when comments are not kept keeps the skip target |
| Scanning.Scanner.SkipToNextToken | src/scanner.rs:355-378 | ends exactly at `SkipTarget`: past blanks, breaks and (unless kept) comments, with simple keys allowed after a break outside flow context |
| Scanning.Scanner.FetchStreamStart | src/scanner.rs:380-388 | indent -1, stream started, simple key allowed, one fresh key slot and the StreamStart token queued |
| Scanning.Scanner.CloseAllBlocks | src/scanner.rs:397 | outside flow context closes every open block with one BlockEnd each |
| Scanning.Scanner.Enqueue | src/scanner.rs:401-402 | appends the token and keeps the invariant |
| Scanning.Scanner.QueueIndicators | src/scanner.rs:933-937 | consumes an indicator of n characters and queues its token at its start |
| Scanning.Scanner.SkipIndicator | src/scanner.rs:860-861 | consumes a one-character indicator |
| Scanning.Scanner.QueueIndicator | src/scanner.rs:860-863 | consumes a one-character indicator and queues its token at its start |
| Scanning.Scanner.EndLine | src/scanner.rs:392-397 | moves the mark to a new line when not at column 0 and closes every open block |
| Scanning.Scanner.FetchStreamEnd | src/scanner.rs:390-404 | starts a new line unless at column 0, closes all blocks, fails exactly when the innermost key is required, and otherwise only clears keys, disallows simple keys and queues StreamEnd |
| Scanning.Scanner.QueueComment | src/scanner.rs:288 | queues the Comment token and keeps the invariant |
| Scanning.Scanner.QueueStreamEnd | src/scanner.rs:401-402 | queues StreamEnd and marks the end queued |
| Scanning.Scanner.FetchFlowEntry | src/scanner.rs:867-877 | fails exactly when the innermost key is required; otherwise removes it, allows a simple key and queues FlowEntry at the ',' |
| Scanning.Scanner.FetchFlowCollectionStart | src/scanner.rs:839-852 | saves a simple key, pushes a key slot and raises the flow level, failing on a required key or at flow level 255; then queues the start token at the bracket |
| Scanning.Scanner.FetchFlowCollectionEnd | src/scanner.rs:854-865 | removes the simple key, lowers the flow level, disallows simple keys and queues the end token at the bracket |
| Scanning.Scanner.EndBlocksAtIndicator | src/scanner.rs:927-929 | closes every open block, removes the simple key and disallows simple keys |
| Scanning.Scanner.FetchDocumentIndicator | src/scanner.rs:926-939 | closes all blocks, removes the simple key and queues DocumentStart or DocumentEnd for the three-character marker |
| Scanning.Scanner.FetchDirective | src/scanner.rs:406-417 | closes all blocks, removes the simple key and queues the directive token `DirectiveAt` decodes, failing on a required key or where it fails |
| Scanning.Scanner.QueueDirective | src/scanner.rs:412-414 | scans the directive and queues its token |
| Scanning.Scanner.FetchBlockEntry | src/scanner.rs:895-924 | fails in flow context or where entries are not allowed; otherwise rolls the indent with BlockSequenceStart, removes the key and queues BlockEntry |
| Scanning.Scanner.FetchKey | src/scanner.rs:1493-1522 | fails in block context where keys are not allowed; otherwise rolls the indent with BlockMappingStart, removes the key and queues Key |
| Scanning.Scanner.QueueKey | src/scanner.rs:1529-1539 | inserts Key at the saved key's token number, and BlockMappingStart before it when the indent rolls |
| Scanning.Scanner.InsertSimpleKey | src/scanner.rs:1527-1542 | for a possible key, inserts Key and perhaps BlockMappingStart before the tokens that followed it, and removes the key |
| Scanning.Scanner.ConsumeSimpleKey | src/scanner.rs:1541-1542 | the key is no longer possible and simple keys are disallowed |
| Scanning.Scanner.ComplexValue | src/scanner.rs:1544-1565 | without a key, fails in block context where a value is not allowed, else rolls the indent |
| Scanning.Scanner.FetchValue | src/scanner.rs:1524-1571 | with a possible key inserts Key (and BlockMappingStart) where the key began; otherwise fails only in block context where values are not allowed; then queues Value |
| Scanning.Scanner.SaveKeyBeforeToken | src/scanner.rs:796-797 | saves a simple key and disallows the next one |
| Scanning.Scanner.QueueAnchor | src/scanner.rs:799-801 | scans the anchor or alias and queues its token |
| Scanning.Scanner.FetchAnchor | src/scanner.rs:795-804 | saves a simple key, disallows the next and queues the Anchor or Alias token |
| Scanning.Scanner.QueueTag | src/scanner.rs:588-589 | scans the tag and queues its token |
| Scanning.Scanner.FetchTag | src/scanner.rs:584-591 | saves a simple key, disallows the next and queues the Tag token |
| Scanning.Scanner.QueueFlowScalar | src/scanner.rs:1152-1158 | scans the quoted scalar, queues it and records that a value may follow right after it |
| Scanning.Scanner.FetchFlowScalar | src/scanner.rs:1147-1160 | saves a simple key, disallows the next and queues the quoted scalar, recording that a value may follow right after it |
| Scanning.Scanner.QueuePlainScalar | src/scanner.rs:1370-1372 | scans the plain scalar and queues it |
| Scanning.Scanner.FetchPlainScalar | src/scanner.rs:1366-1374 | saves a simple key, disallows the next (re-allowed after line breaks) and queues the plain scalar |
| Scanning.Scanner.QueueBlockScalar | src/scanner.rs:944-946 | scans the block scalar and queues it |
| Scanning.Scanner.FetchBlockScalar | src/scanner.rs:941-948 | saves a simple key (failing when the key it replaces was required), allows the next and queues the block scalar as `BlockScalar` decodes it |
| Scanning.Scanner.FetchToken | src/scanner.rs:227-294 | the dispatch on the next character: an unexpected character fails; every other success queues at least one token, the last of the kind the chosen fetcher yields (`Yields`), and moves forward, except at the end of the stream, where with no open block and no possible key it queues exactly StreamEnd and stays put |
| Scanning.Scanner.FetchDocumentToken | src/scanner.rs:233-255 | a directive, a document indicator or a comment moves forward and queues a token whose kind is the one the fetcher yields |
| Scanning.Scanner.FetchIndicatorToken | src/scanner.rs:259-272 | a flow or block indicator moves forward and queues a token whose kind is the one the fetcher yields |
| Scanning.Scanner.FetchNodeToken | src/scanner.rs:274-293 | an anchor, tag or scalar moves forward and queues a token whose kind and scalar style are the ones the fetcher yields |
| Scanning.Scanner.FetchNextToken | src/scanner.rs:209-295 | the first call queues StreamStart at the position and leaves the block context as the only level with an impossible key; every later success queues a token and moves forward, unless it queued the stream end; at the end of the input, at column 0, outside every block and with no possible key it queues exactly StreamEnd |
| Scanning.Scanner.FetchInStream | src/scanner.rs:218-294 | after StreamStart: a success queues a token and moves forward or queues StreamEnd; at a quiet end of input it queues exactly StreamEnd and stays put |
| Scanning.Scanner.ToNextToken | src/scanner.rs:218-225 | skips to where `SkipTarget` says; fails exactly when a required key went stale; otherwise every key is `Refreshed`, the blocks deeper than the column are `Unrolled` and the queue gains exactly their BlockEnd tokens; at a quiet end of input it changes nothing |
| Scanning.Scanner.SkipAndRetire | src/scanner.rs:218-220 | skips to where `SkipTarget` says, then fails exactly when a required key went stale and otherwise leaves every key `Refreshed` |
| Scanning.Scanner.CloseDeeperBlocks | src/scanner.rs:222-225 | outside flow context the levels become `Unrolled` at the column and the queue gains exactly one BlockEnd per level closed; at least four characters are buffered |
| Scanning.Scanner.FetchSkip | src/scanner.rs:218 | skips to where `SkipTarget` says and stops on a character that starts a token; at the end of the input it does not move |
| Scanning.Scanner.FetchStale | src/scanner.rs:220 | fails, with "simple key expect ':'", exactly when a possible and required key is stale; on success every key is `Refreshed`; when no key is possible the keys are unchanged |
| Scanning.Scanner.FetchLookahead | src/scanner.rs:225 | buffers at least `count` characters |
| Scanning.Scanner.KeyAtHead | src/scanner.rs:323-328 | whether a possible key waits at the head of the queue |
| Scanning.Scanner.NeedMore | src/scanner.rs:321-328 | fails exactly when a required key went stale; otherwise every key is `Refreshed` and more tokens are needed exactly when a possible key waits at the queue head; never once StreamEnd is queued or when no key is possible |
| Scanning.Scanner.FetchTurn | src/scanner.rs:317-336 | one turn of the loop: done exactly when the queue is not empty and no key is pending; otherwise it fetches one token, which starts the stream or moves forward or queues StreamEnd |
| Scanning.Scanner.FetchMoreTokens | src/scanner.rs:315-339 | on success a token is available and no possible key waits at the head of the queue; from the initial state the queue is exactly StreamStart, and from an empty queue at a quiet end of input exactly StreamEnd |
| Scanning.Scanner.NextToken | src/scanner.rs:297-313 | after the stream end returns nothing; otherwise returns the head of the queue, counts it and records the stream end; the first token is StreamStart at the start position, and at a quiet end of input with an empty queue the token is StreamEnd |
| Scanning.Scanner.PopToken | src/scanner.rs:305-311 | removes and returns the head of the queue and counts it; only taking StreamEnd ends the stream |
| Scanning.Scanner.Next | src/scanner.rs:40-52 | after an error returns nothing and keeps the error; otherwise returns the next token or records the error; the first token of a fresh scanner is StreamStart, and at a quiet end of input StreamEnd follows |
| Scanning.EmptyInputTokens | src/scanner.rs:1705-1712 | an empty document yields StreamStart, then StreamEnd, both at index 0, line 1, column 0, and then no token |

## Left out

- The reader `T: Iterator<Item = char>` is the fixed sequence `input`, and `rdrPos` counts the characters read from it. The buffer's characters are not stored: `bufLen` says how many are buffered, and `Buffer()` gives them from the input.
- Error messages are `ErrorKind` values, not strings. `ScanError` keeps the marker and the kind.
- The emitter's `fmt::Write` sink never fails, so `EmitError` is not modelled.
- The `debug_comment!`/`println!` output and the fixture-file tests are I/O.
- `need_quotes` and `escape_str` live in a module that is not part of this model. They are the parameters of `Emitting.Quoting`.
- The standard-library `Display` of `Real` is not modelled: a `Real` keeps the spelling it was read with. `Display` of `Integer` is modelled by `DecimalText`.
- `char::from_u32` is the Unicode scalar-value range check `Decoders.FromU32`. The Unicode tables are not modelled.
- `scan_uri_escapes` builds multi-octet codes by concatenating the octets (`code << 8`). The model does the same and claims no UTF-8 round trip.
- The types, error and loader modules (`Token`, `TokenType`, `SimpleKey`, `ScanError`, `Yaml`) are not part of this model. Their shapes are rebuilt from how the scanner and the emitter use them.
- The `_directive` and `_is_secondary` parameters of `scan_tag_uri` and `scan_uri_escapes` are unused in the source. They are kept, and nothing depends on them.
- The block scalar style spelled `Foled` in the source is `Folded` here.
- `get_error`, `stream_started`, `stream_ended`, `mark` and `ch`/`ch_is` only read a field. The model reads the field directly (`Ch(k)` for the buffer).
- `allow_simple_key` and `disallow_simple_key` only assign the flag. Each method's contract says what it leaves there.
- Scanner methods on their error paths: the contracts state the error value but not the partial state left behind. After an error `next` stores it and returns nothing for ever, so that state is never read again.
- FlowScalars.SingleQuotedRoundTrip and FlowScalars.DoubleQuotedRoundTrip: texts with line breaks are not covered. Inside quotes a line break is folded (a lone one reads back as a space), so writing the text between quotes is not the inverse of scanning there.
- Scanning.Scanner.FetchNextToken: states what the first call and a fetch at a quiet end of input queue. Other successes are stated only to queue a token and make progress. Which tokens each branch queues is stated by the individual fetchers, not repeated here.
- Scanning.Scanner.FetchMoreTokens: states that a token is available and that no possible key waits at the queue head. It says which tokens were queued only from the initial state and at a quiet end of input.
- Scanning.Scanner.NextToken: states which token is returned when one was already available, for the first call, and at a quiet end of input. After any other fetch it states only that a token was returned and counted.
- Emitting.YamlEmitter.EmitValue: a comment in value position panics (`unreachable!`) in the source. Here it is a precondition. `Emittable` forbids a comment only where `emit_value` would be reached: as the value of a key that is not a comment, at any depth. The value of a comment key is never written and is not constrained.
- Scanning.Scanner.FetchToken: states the kind of the last token queued and progress. The whole token sequence and the state changes are stated by the individual fetchers' contracts, not repeated here.
- Scanning.Scanner.FetchDocumentToken: states the kind of the token queued and progress. The token's contents are stated by `FetchDirective`, `FetchDocumentIndicator` and `FetchComment`.
- Scanning.Scanner.FetchIndicatorToken: states the kind of the last token queued and progress. The collection starts and ends queued before it, and the new levels and keys, are stated by the individual indicator fetchers.
- Scanning.Scanner.FetchNodeToken: states the kind and scalar style of the token queued and progress. The token's contents are stated by the anchor, tag and scalar fetchers.
- Iterator, clone and debug formatting are not modelled. Of the scanner's own unit tests only `test_empty` is modelled, as `Scanning.EmptyInputTokens`.

/** The choices `fetch_next_token` makes: where `skip_to_next_token` stops
    (white space, line breaks and, when comments are not kept, comments are
    skipped), and which fetcher the character found there selects. */
module Dispatch {
  import opened Funcs
  import opened Tokens
  import opened Decoders
  import opened Scalars
  import opened PlainScalars

  /** What stops `skip_to_next_token`: anything but a space, a line break,
      a tab where tabs are skipped (inside a flow collection or where no
      simple key is allowed) and a comment that is not kept. */
  predicate SkipStops(c: char, inFlow: bool, allowed: bool, withComments: bool) {
    c != ' ' && !IsBreak(c) && !(c == '\t' && (inFlow || !allowed)) && !(c == '#' && !withComments)
  }

  /** `skip_to_next_token` from position `i`: where it stops, and whether a
      simple key is allowed there (a line break in block context allows
      one). */
  function SkipTarget(input: seq<char>, i: nat, inFlow: bool, allowed: bool, withComments: bool): (r: (nat, bool))
    ensures i <= r.0 && SkipStops(At(input, r.0), inFlow, r.1, withComments)
    ensures allowed ==> r.1
    ensures inFlow ==> r.1 == allowed
    decreases |input| - i
  {
    var c := At(input, i);
    if c == ' ' || (c == '\t' && (inFlow || !allowed)) then
      SkipTarget(input, i + 1, inFlow, allowed, withComments)
    else if IsBreak(c) then
      SkipTarget(input, i + BreakAt(input, i), inFlow, allowed || !inFlow, withComments)
    else if c == '#' && !withComments then
      var j := SpanEnd(input, i, NonBreakz);
      assert j > i by {
        assert InClass(c, NonBreakz);
      }
      SkipTarget(input, j, inFlow, allowed, withComments)
    else (i, allowed)
  }

  /** Where nothing is to be skipped, `skip_to_next_token` stays put. */
  lemma SkipTargetStays(input: seq<char>, i: nat, inFlow: bool, allowed: bool, withComments: bool)
    requires SkipStops(At(input, i), inFlow, allowed, withComments)
    ensures SkipTarget(input, i, inFlow, allowed, withComments) == (i, allowed)
  {
  }

  /** Skipping is idempotent: skipping again from where it stopped stays
      there. */
  lemma SkipTargetIdempotent(input: seq<char>, i: nat, inFlow: bool, allowed: bool, withComments: bool)
    ensures var r := SkipTarget(input, i, inFlow, allowed, withComments);
      SkipTarget(input, r.0, inFlow, r.1, withComments) == r
  {
    var r := SkipTarget(input, i, inFlow, allowed, withComments);
    SkipTargetStays(input, r.0, inFlow, r.1, withComments);
  }

  /** The fetcher `fetch_next_token` calls. */
  datatype Fetch =
    | FetchStreamEnd
    | FetchDirective
    | FetchDocumentIndicator(start: bool)
    | FetchFlowCollectionStart(sequence: bool)
    | FetchFlowCollectionEnd(sequence: bool)
    | FetchFlowEntry
    | FetchBlockEntry
    | FetchKey
    | FetchValue
    | FetchAnchor(alias: bool)
    | FetchTag
    | FetchBlockScalar(literal: bool)
    | FetchFlowScalar(single: bool)
    | FetchPlainScalar
    | FetchComment
    | Unexpected(c: char)

  /** The kind of the last token the fetcher `f` queues when it succeeds
      (the block-collection starts and ends it may queue first come before
      it); an unexpected character queues none. */
  predicate Yields(f: Fetch, t: TokenType) {
    match f
    case FetchStreamEnd => t == StreamEnd
    case FetchDirective => t.VersionDirective? || t.TagDirective?
    case FetchDocumentIndicator(start) => t == if start then DocumentStart else DocumentEnd
    case FetchFlowCollectionStart(sequence) => t == if sequence then FlowSequenceStart else FlowMappingStart
    case FetchFlowCollectionEnd(sequence) => t == if sequence then FlowSequenceEnd else FlowMappingEnd
    case FetchFlowEntry => t == FlowEntry
    case FetchBlockEntry => t == BlockEntry
    case FetchKey => t == Key
    case FetchValue => t == Value
    case FetchAnchor(alias) => if alias then t.Alias? else t.Anchor?
    case FetchTag => t.Tag?
    case FetchBlockScalar(literal) => t.Scalar? && t.style == if literal then Literal else Folded
    case FetchFlowScalar(single) => t.Scalar? && t.style == if single then SingleQuoted else DoubleQuoted
    case FetchPlainScalar => t.Scalar? && t.style == Plain
    case FetchComment => t.Comment?
    case Unexpected(_) => false
  }

  /** The fetcher for the token at position `i`, column `col`, in the order
      the source tests: end of input; at column 0 a directive or a document
      indicator; then the indicator characters, where '-', '?' and ':' are
      indicators only before white space (':' also, inside a flow
      collection, before a flow indicator or right after a JSON-like key,
      `adjacent`), and '|' and '>' only outside flow collections; '%', '@'
      and '`' cannot start a token; anything else starts a plain scalar. */
  function Classify(input: seq<char>, i: nat, col: nat, inFlow: bool, adjacent: bool, withComments: bool): (f: Fetch)
    ensures f != FetchStreamEnd <==> !IsZ(At(input, i))
    ensures f.FetchBlockScalar? ==> !inFlow
    ensures f.FetchDirective? || f.FetchDocumentIndicator? ==> col == 0
    ensures f.FetchDocumentIndicator? ==> DocIndicatorAt(input, i)
  {
    var c := At(input, i);
    var nc := At(input, i + 1);
    if IsZ(c) then FetchStreamEnd
    else if col == 0 && c == '%' then FetchDirective
    else if col == 0 && c == '-' && DocIndicatorAt(input, i) then FetchDocumentIndicator(true)
    else if col == 0 && c == '.' && DocIndicatorAt(input, i) then FetchDocumentIndicator(false)
    else if c == '[' then FetchFlowCollectionStart(true)
    else if c == '{' then FetchFlowCollectionStart(false)
    else if c == ']' then FetchFlowCollectionEnd(true)
    else if c == '}' then FetchFlowCollectionEnd(false)
    else if c == ',' then FetchFlowEntry
    else if c == '-' && IsBlankz(nc) then FetchBlockEntry
    else if c == '?' && IsBlankz(nc) then FetchKey
    else if c == ':' && (IsBlankz(nc) || (inFlow && (IsFlow(nc) || adjacent))) then FetchValue
    else if c == '*' then FetchAnchor(true)
    else if c == '&' then FetchAnchor(false)
    else if c == '!' then FetchTag
    else if c == '|' && !inFlow then FetchBlockScalar(true)
    else if c == '>' && !inFlow then FetchBlockScalar(false)
    else if c == '\'' then FetchFlowScalar(true)
    else if c == '"' then FetchFlowScalar(false)
    else if c == '-' then FetchPlainScalar
    else if (c == ':' || c == '?') && !IsBlankz(nc) && !inFlow then FetchPlainScalar
    else if c == '#' && withComments then FetchComment
    else if c == '%' || c == '@' || c == '`' then Unexpected(c)
    else FetchPlainScalar
  }

  /** Where `skip_to_next_token` stopped and the plain scalar fetcher is
      chosen, the plain scanner consumes at least one character: the main
      loop of the scanner always makes progress. */
  lemma PlainFetchConsumes(input: seq<char>, i: nat, col: nat, inFlow: bool, allowed: bool, adjacent: bool, withComments: bool)
    requires SkipStops(At(input, i), inFlow, allowed, withComments)
    requires Classify(input, i, col, inFlow, adjacent, withComments) == FetchPlainScalar
    ensures PlainConsumes(input, i, inFlow, col)
  {
  }

  /** What the fetcher `f` needs at position `i`: the character it is
      chosen for (for a plain scalar, that the plain scanner consumes
      something). */
  predicate Applies(f: Fetch, input: seq<char>, i: nat, col: nat, inFlow: bool) {
    var c := At(input, i);
    match f
    case FetchStreamEnd => IsZ(c)
    case FetchDirective => c == '%'
    case FetchDocumentIndicator(start) => DocIndicatorAt(input, i) && c == (if start then '-' else '.')
    case FetchFlowCollectionStart(sequence) => c == (if sequence then '[' else '{')
    case FetchFlowCollectionEnd(sequence) => c == (if sequence then ']' else '}')
    case FetchFlowEntry => c == ','
    case FetchBlockEntry => c == '-'
    case FetchKey => c == '?'
    case FetchValue => c == ':'
    case FetchAnchor(alias) => c == (if alias then '*' else '&')
    case FetchTag => c == '!'
    case FetchBlockScalar(literal) => c == (if literal then '|' else '>')
    case FetchFlowScalar(single) => c == (if single then '\'' else '"')
    case FetchPlainScalar => PlainConsumes(input, i, inFlow, col)
    case FetchComment => c == '#'
    case Unexpected(u) => u == c
  }

  /** Where `skip_to_next_token` stopped, the fetcher `Classify` chooses
      applies: every fetcher is called only on the character it handles. */
  lemma ClassifyApplies(input: seq<char>, i: nat, col: nat, inFlow: bool, allowed: bool, adjacent: bool, withComments: bool)
    requires SkipStops(At(input, i), inFlow, allowed, withComments)
    ensures Applies(Classify(input, i, col, inFlow, adjacent, withComments), input, i, col, inFlow)
  {
    if Classify(input, i, col, inFlow, adjacent, withComments) == FetchPlainScalar {
      PlainFetchConsumes(input, i, col, inFlow, allowed, adjacent, withComments);
    }
  }

  /** The indicators of section 7.3.3 of YAML 1.2 that a plain scalar may
      start with: '-', '?' and ':' followed by a character that is not
      white space (outside flow collections for '?' and ':'). */
  lemma PlainIndicatorStarts(input: seq<char>, i: nat, col: nat, adjacent: bool, withComments: bool)
    requires At(input, i) in {'-', '?', ':'} && !IsBlankz(At(input, i + 1))
    requires !(col == 0 && DocIndicatorAt(input, i))
    ensures Classify(input, i, col, false, adjacent, withComments) == FetchPlainScalar
  {
  }

  /** Inside a flow collection '|' and '>' start plain scalars, not block
      scalars. */
  lemma NoBlockScalarInFlow(input: seq<char>, i: nat, col: nat, adjacent: bool, withComments: bool)
    requires At(input, i) in {'|', '>'}
    ensures Classify(input, i, col, true, adjacent, withComments) == FetchPlainScalar
  {
  }
}

/** What the scalar scanners share: document indicators, the position
    reached by consuming input, and the white space a scanner has read
    between two runs of text but not yet added to the scalar (line folding,
    section 6.5 of YAML 1.2).  Also the anchor and comment helpers. */
module Scalars {
  import opened Funcs
  import opened Markers
  import opened Tokens
  import opened Decoders

  /** `---` or `...` followed by white space or end of input. */
  predicate DocIndicatorAt(input: seq<char>, i: nat) {
    ((At(input, i) == '-' && At(input, i + 1) == '-' && At(input, i + 2) == '-') ||
     (At(input, i) == '.' && At(input, i + 1) == '.' && At(input, i + 2) == '.')) &&
    IsBlankz(At(input, i + 3))
  }

  /** The position reached from `m` by consuming, one `skip` each, the
      input characters from `m.index` up to `j`. */
  function MarkAfter(input: seq<char>, m: Marker, j: nat): (r: Marker)
    requires m.index <= j
    ensures r.index == j
    decreases j - m.index
  {
    if j == m.index then m else Advance(MarkAfter(input, m, j - 1), At(input, j - 1))
  }

  /** Consuming up to `j` and then up to `k` is consuming up to `k`. */
  lemma {:induction false} MarkAfterTrans(input: seq<char>, m: Marker, j: nat, k: nat)
    requires m.index <= j <= k
    ensures MarkAfter(input, MarkAfter(input, m, j), k) == MarkAfter(input, m, k)
    decreases k - j
  {
    if k > j {
      MarkAfterTrans(input, m, j, k - 1);
    }
  }

  /** `MarkAfter` is `AdvanceAll` over the characters consumed. */
  lemma {:induction false} MarkAfterIsAdvanceAll(input: seq<char>, m: Marker, j: nat)
    requires m.index <= j
    ensures MarkAfter(input, m, j) == AdvanceAll(m, Slice(input, m.index, j - m.index))
    decreases j - m.index
  {
    if j > m.index {
      MarkAfterIsAdvanceAll(input, m, j - 1);
      AdvanceAllSnoc(m, Slice(input, m.index, j - 1 - m.index), At(input, j - 1));
    }
  }

  /** Consuming characters other than '\n' from a position on the starting
      line keeps that line and adds one column per character. */
  lemma {:induction false} MarkAfterSameLine(input: seq<char>, m: Marker, i: nat, k: nat)
    requires m.index <= i <= k
    requires MarkAfter(input, m, i).line == m.line && MarkAfter(input, m, i).col == m.col + (i - m.index)
    requires forall t :: i <= t < k ==> At(input, t) != '\n'
    ensures MarkAfter(input, m, k).line == m.line && MarkAfter(input, m, k).col == m.col + (k - m.index)
    decreases k - i
  {
    if k > i {
      MarkAfterSameLine(input, m, i, k - 1);
    }
  }

  /** Consuming input never moves the position backwards, and consuming
      something moves it strictly forward. */
  lemma {:induction false} MarkAfterMoves(input: seq<char>, m: Marker, j: nat)
    requires m.index <= j
    ensures Moved(m, MarkAfter(input, m, j))
    ensures j > m.index ==> Advanced(m, MarkAfter(input, m, j))
    decreases j - m.index
  {
    if j > m.index + 1 {
      MarkAfterMoves(input, m, j - 1);
    }
  }

  /** The white space read since the last run of text: blanks seen before
      any line break, the first line break, the line breaks after it, and
      whether a line break (or, in a double-quoted scalar, an escaped one)
      was seen.  Line breaks are kept as '\n'. */
  datatype Pending = Pending(whitespaces: string, leadingBreak: string, trailingBreaks: string, leadingBlanks: bool)

  /** One turn of a scalar scanner's white-space loop at a blank or a line
      break: blanks are kept only until the first line break, which goes to
      `leadingBreak` and drops them; later breaks go to `trailingBreaks`. */
  function BlankStep(input: seq<char>, i: nat, p: Pending): (r: (nat, Pending))
    requires IsBlank(At(input, i)) || IsBreak(At(input, i))
    ensures i < r.0 <= |input|
  {
    var c := At(input, i);
    if IsBlank(c) then
      (i + 1, if p.leadingBlanks then p else p.(whitespaces := p.whitespaces + [c]))
    else if p.leadingBlanks then
      (i + BreakAt(input, i), p.(trailingBreaks := p.trailingBreaks + "\n"))
    else
      (i + BreakAt(input, i), p.(whitespaces := [], leadingBreak := p.leadingBreak + "\n", leadingBlanks := true))
  }

  /** What the pending white space adds to the text when the next run of
      text starts: the blanks when no line break was seen; otherwise a lone
      line break folds into one space and n > 1 line breaks into n - 1
      newlines; after an escaped line break only the breaks that follow it
      are kept. */
  function Joined(p: Pending): string {
    if p.leadingBlanks then
      if p.leadingBreak == [] then p.leadingBreak + p.trailingBreaks
      else if p.trailingBreaks == [] then " "
      else p.trailingBreaks
    else p.whitespaces
  }

  /** What may follow an anchor or alias name. */
  predicate AnchorEnd(c: char) {
    IsBlankz(c) || c in {'?', ':', ',', ']', '}', '%', '@', '`'}
  }
  /** The text `fetch_comment` collects from position `j` on: '#' and ' '
      characters are dropped until the first other character, which starts
      the text; the text runs to the end of the line. */
  function CommentFrom(input: seq<char>, j: nat, started: bool, acc: string): string
    decreases |input| - j
  {
    var c := At(input, j);
    if IsBreakz(c) then acc
    else if !started && (c == '#' || c == ' ') then CommentFrom(input, j + 1, false, acc)
    else CommentFrom(input, j + 1, true, acc + [c])
  }

  /** The text of the comment whose '#' is just before position `i`. */
  function CommentText(input: seq<char>, i: nat): string {
    CommentFrom(input, i, false, [])
  }

  /** Once started, the text takes every character up to the line end. */
  lemma {:induction false} CommentFromStarted(input: seq<char>, j: nat, acc: string)
    ensures CommentFrom(input, j, true, acc) == acc + Span(input, j, NonBreakz)
    decreases |input| - j
  {
    var c := At(input, j);
    if IsBreakz(c) {
      SpanNil(input, j, NonBreakz);
    } else {
      CommentFromStarted(input, j + 1, acc + [c]);
      SpanCons(input, j, NonBreakz);
    }
  }

  /** A comment's text is the rest of its line after the leading run of
      '#' and ' ' characters. */
  lemma {:induction false} CommentTextIsRest(input: seq<char>, i: nat)
    ensures CommentText(input, i) == Span(input, SpanEnd(input, i, CommentLead), NonBreakz)
    decreases |input| - i
  {
    var c := At(input, i);
    if c == '#' || c == ' ' {
      CommentTextIsRest(input, i + 1);
    } else if IsBreakz(c) {
      SpanNil(input, i, NonBreakz);
    } else {
      assert [] + [c] == [c];
      CommentFromStarted(input, i + 1, [c]);
      SpanCons(input, i, NonBreakz);
    }
  }

  /** So the text holds no line break and starts with neither '#' nor ' '. */
  lemma CommentTextShape(input: seq<char>, i: nat)
    ensures var s := CommentText(input, i);
      (forall k :: 0 <= k < |s| ==> !IsBreakz(s[k])) && (s != [] ==> s[0] != '#' && s[0] != ' ')
  {
    var l := SpanEnd(input, i, CommentLead);
    CommentTextIsRest(input, i);
    SpanChars(input, l, NonBreakz);
  }
}

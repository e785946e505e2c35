/** Reference definitions for `scan_block_scalar`: literal (`|`) and folded
    (`>`) scalars, section 8.1 of YAML 1.2.  After the header (chomping and
    indentation indicators, then an optional comment) come the leading
    empty lines, which also fix the indentation when no indicator gave it;
    then one line of content at a time, each followed by the empty lines
    after it. */
module BlockScalars {
  import opened Funcs
  import opened Markers
  import opened Tokens
  import opened Decoders
  import opened Scalars

  /** The block scalar header: chomping (-1 strip, 0 clip, 1 keep), the
      indentation indicator (0 when absent) and where the header ends; or
      an indentation indicator of 0, which is an error. */
  datatype Header = Header(chomping: int, increment: nat, next: nat) | HeaderFailed

  function Chomping(c: char): int {
    if c == '+' then 1 else if c == '-' then -1 else 0
  }

  /** The indicators after the `|` or `>` at `i - 1`, in either order
      (section 8.1.1 of YAML 1.2). */
  function BlockHeader(input: seq<char>, i: nat): (h: Header)
    ensures h.Header? ==> h.chomping in {-1, 0, 1} && h.increment <= 9 && i <= h.next <= i + 2
    ensures h.Header? ==> (h.next == i <==> h.chomping == 0 && h.increment == 0)
    ensures h.HeaderFailed? <==> (At(input, i) == '0' || (At(input, i) in {'+', '-'} && At(input, i + 1) == '0'))
  {
    var c := At(input, i);
    var d := At(input, i + 1);
    if c == '+' || c == '-' then
      if IsDigit(d) then
        if d == '0' then HeaderFailed else Header(Chomping(c), DigitValue(d), i + 2)
      else Header(Chomping(c), 0, i + 1)
    else if IsDigit(c) then
      if c == '0' then HeaderFailed
      else if d == '+' || d == '-' then Header(Chomping(d), DigitValue(c), i + 2)
      else Header(0, DigitValue(c), i + 1)
    else Header(0, 0, i)
  }

  /** The two indicators mean the same in either order. */
  lemma HeaderOrderIrrelevant(a: seq<char>, b: seq<char>, i: nat)
    requires At(a, i) in {'+', '-'} && IsDigit(At(a, i + 1)) && At(a, i + 1) != '0'
    requires At(b, i) == At(a, i + 1) && At(b, i + 1) == At(a, i)
    ensures BlockHeader(a, i) == BlockHeader(b, i)
  {
  }

  /** Where the header's line ends: after blanks and an optional comment
      the line must end (or the input); the position of that line break or
      end of input. */
  function HeaderLineEnd(input: seq<char>, i: nat): (j: nat)
    ensures i <= j
  {
    var k := SpanEnd(input, i, Blank);
    if At(input, k) == '#' then SpanEnd(input, k, NonBreakz) else k
  }

  /** The indentation a block scalar without an indentation indicator gets:
      the deepest indentation among its leading empty lines and its first
      line, but at least one more than its parent's and at least 1. */
  function AutoIndent(maxIndent: nat, parentIndent: int): (r: nat)
    ensures r >= 1 && r >= maxIndent && r >= parentIndent + 1
    ensures r == maxIndent || r == parentIndent + 1 || r == 1
  {
    if maxIndent >= parentIndent + 1 && maxIndent >= 1 then maxIndent
    else if parentIndent + 1 >= 1 then parentIndent + 1
    else 1
  }

  /** The spaces of indentation from position `i` of the scalar that
      starts at `m0`: all of them while the indentation is not known
      (`indent == 0`), otherwise those left of column `indent`. */
  function IndentSpaces(input: seq<char>, m0: Marker, i: nat, indent: nat): (j: nat)
    requires m0.index <= i
    ensures i <= j
    ensures !((indent == 0 || MarkAfter(input, m0, j).col < indent) && At(input, j) == ' ')
    decreases |input| - i
  {
    if (indent == 0 || MarkAfter(input, m0, i).col < indent) && At(input, i) == ' ' then
      IndentSpaces(input, m0, i + 1, indent)
    else i
  }

  /** One turn of `block_scalar_breaks`'s loop from position `i`: the
      indentation spaces, then a tab where indentation was expected (an
      error), or the end of the empty lines, or a line break; with the
      deepest column reached so far. */
  datatype BreaksTurn = TurnTab(at: nat) | TurnEnd(next: nat, maxIndent: nat) | TurnBreak(next: nat, maxIndent: nat)

  function BreaksTurnAt(input: seq<char>, m0: Marker, i: nat, indent: nat, maxIndent: nat): (r: BreaksTurn)
    requires m0.index <= i
    ensures r.TurnTab? ==> i <= r.at && At(input, r.at) == '\t'
    ensures r.TurnEnd? ==> i <= r.next && !IsBreak(At(input, r.next))
    ensures r.TurnBreak? ==> i < r.next
  {
    var j := IndentSpaces(input, m0, i, indent);
    var col := MarkAfter(input, m0, j).col;
    var mx := if col > maxIndent then col else maxIndent;
    if (indent == 0 || col < indent) && At(input, j) == '\t' then TurnTab(j)
    else if !IsBreak(At(input, j)) then TurnEnd(j, mx)
    else TurnBreak(j + BreakAt(input, j), mx)
  }

  /** What `block_scalar_breaks` reaches: the start of a line with content,
      the indentation now in force and the line breaks read; or a tab where
      indentation was expected, at position `at`. */
  datatype Breaks = Breaks(next: nat, indent: nat, breaks: string) | BreaksTab(at: nat)

  /** `block_scalar_breaks` from position `i`: turns until a line that is
      not empty, each line break added to `breaks` as '\n'.  An unknown
      indentation (`indent == 0`) is then fixed from the deepest column
      reached. */
  function BlockBreaks(input: seq<char>, m0: Marker, i: nat, indent: nat, maxIndent: nat, parentIndent: int, breaks: string): (r: Breaks)
    requires m0.index <= i
    ensures r.Breaks? ==> i <= r.next && !IsBreak(At(input, r.next)) && r.indent >= 1
    ensures r.Breaks? && indent != 0 ==> r.indent == indent
    ensures r.Breaks? && indent == 0 ==> r.indent >= parentIndent + 1
    ensures r.BreaksTab? ==> i <= r.at && At(input, r.at) == '\t'
    decreases |input| - i
  {
    match BreaksTurnAt(input, m0, i, indent, maxIndent)
    case TurnTab(j) => BreaksTab(j)
    case TurnEnd(j, mx) => Breaks(j, if indent == 0 then AutoIndent(mx, parentIndent) else indent, breaks)
    case TurnBreak(k, mx) => BlockBreaks(input, m0, k, indent, mx, parentIndent, breaks + "\n")
  }

  /** The end of the content lines: the text so far, the line break after
      the last line and the empty lines after it (kept apart for
      chomping), and where scanning stopped; or a tab in an indentation. */
  datatype Body = Body(text: string, leadingBreak: string, trailingBreaks: string, next: nat) | BodyTab(at: nat)

  /** One turn of the content-line loop of `scan_block_scalar` from
      position `i`: the loop ends (`LinesEnded`, with what it leaves), or
      one content line is read together with the empty lines after it. */
  datatype LineTurn = LinesEnded(body: Body) | LineRead(text: string, next: nat, trailingBreaks: string, leadingBlank: bool)

  /** The loop goes on while the line starts at column `indent` and the
      input goes on.  Before the line the line break after the previous
      one is added to the text, except that in a folded scalar a single
      break between two lines that do not start with a blank becomes a
      space (and is dropped when empty lines follow it); the empty lines
      are added as they are. */
  function BlockLineAt(input: seq<char>, m0: Marker, i: nat, literal: bool, indent: nat, parentIndent: int,
                       text: string, leadingBreak: string, trailingBreaks: string, leadingBlank: bool): (r: LineTurn)
    requires m0.index <= i && indent >= 1
    ensures r.LinesEnded? && r.body.Body? ==> i <= r.body.next
    ensures r.LinesEnded? && r.body.BodyTab? ==> i <= r.body.at
    ensures r.LinesEnded? && r.body.Body? && r.body.next == i ==> r.body == Body(text, leadingBreak, trailingBreaks, i)
    ensures r.LineRead? ==> i < r.next
  {
    if !(MarkAfter(input, m0, i).col == indent && !IsZ(At(input, i))) then
      LinesEnded(Body(text, leadingBreak, trailingBreaks, i))
    else
      var trailingBlank := IsBlank(At(input, i));
      var t := LineJoin(literal, text, leadingBreak, trailingBreaks, leadingBlank, trailingBlank) + Span(input, i, NonBreakz);
      LineEnd(input, m0, SpanEnd(input, i, NonBreakz), indent, parentIndent, t, trailingBlank)
  }

  /** The text before a content line's characters: the pending line break
      (or, folded, a space or nothing) and the empty lines before it. */
  function LineJoin(literal: bool, text: string, leadingBreak: string, trailingBreaks: string,
                    leadingBlank: bool, trailingBlank: bool): (r: string)
    ensures literal ==> r == text + leadingBreak + trailingBreaks
    ensures !literal && leadingBreak == "\n" && !leadingBlank && !trailingBlank ==>
      r == text + (if trailingBreaks == [] then " " else trailingBreaks)
  {
    var joined :=
      if !literal && leadingBreak != [] && !leadingBlank && !trailingBlank then
        (if trailingBreaks == [] then text + " " else text)
      else text + leadingBreak;
    joined + trailingBreaks
  }

  /** What follows a content line that ends at `j` with text `t`: the end
      of the input, or its line break and the empty lines after it. */
  function LineEnd(input: seq<char>, m0: Marker, j: nat, indent: nat, parentIndent: int, t: string, trailingBlank: bool): (r: LineTurn)
    requires m0.index <= j && IsBreakz(At(input, j))
    ensures r.LinesEnded? && r.body.Body? ==> j <= r.body.next
    ensures r.LinesEnded? && r.body.BodyTab? ==> j <= r.body.at
    ensures r.LineRead? ==> j < r.next
  {
    if IsZ(At(input, j)) then LinesEnded(Body(t, [], [], j))
    else
      match BlockBreaks(input, m0, j + BreakAt(input, j), indent, 0, parentIndent, [])
      case BreaksTab(x) => LinesEnded(BodyTab(x))
      case Breaks(k, _, b) => LineRead(t, k, b, trailingBlank)
  }

  /** The content lines from position `i`, turn after turn; after a line
      the pending line break is '\n'. */
  function BlockLines(input: seq<char>, m0: Marker, i: nat, literal: bool, indent: nat, parentIndent: int,
                      text: string, leadingBreak: string, trailingBreaks: string, leadingBlank: bool): (r: Body)
    requires m0.index <= i && indent >= 1
    ensures r.Body? ==> i <= r.next
    ensures r.BodyTab? ==> i <= r.at
    decreases |input| - i
  {
    match BlockLineAt(input, m0, i, literal, indent, parentIndent, text, leadingBreak, trailingBreaks, leadingBlank)
    case LinesEnded(b) => b
    case LineRead(t, k, b, blank) => BlockLines(input, m0, k, literal, indent, parentIndent, t, "\n", b, blank)
  }

  /** The text with the final line break and the empty lines after the
      last content line chomped: strip drops both, clip keeps the line
      break, keep keeps both (section 8.1.1.2 of YAML 1.2). */
  function Chomped(text: string, leadingBreak: string, trailingBreaks: string, chomping: int): (r: string)
    ensures chomping == -1 ==> r == text
    ensures chomping == 0 ==> r == text + leadingBreak
    ensures chomping == 1 ==> r == text + leadingBreak + trailingBreaks
  {
    var t := if chomping != -1 then text + leadingBreak else text;
    if chomping == 1 then t + trailingBreaks else t
  }

  /** A block scalar read: its text, where its content starts (the token's
      position) and where scanning stopped. */
  datatype BlockRead = BlockRead(text: string, start: nat, next: nat)

  /** The part of a block scalar after its header line, from position
      `first` with the indentation the header gave (0 when none). */
  function BlockContent(input: seq<char>, m0: Marker, first: nat, literal: bool, indent: nat, parentIndent: int, chomping: int): (r: Result<BlockRead>)
    requires m0.index <= first
    ensures r.Ok? ==> first <= r.value.start <= r.value.next
  {
    match BlockBreaks(input, m0, first, indent, 0, parentIndent, [])
    case BreaksTab(x) => Err(ScanError(MarkAfter(input, m0, x), BlockScalarTab))
    case Breaks(start, ind, b) =>
      match BlockLines(input, m0, start, literal, ind, parentIndent, [], [], b, false)
      case BodyTab(x) => Err(ScanError(MarkAfter(input, m0, x), BlockScalarTab))
      case Body(t, lb, tb, next) => Ok(BlockRead(Chomped(t, lb, tb, chomping), start, next))
  }

  /** The header line of the block scalar at the `|` or `>` marked `m0`:
      its chomping, its indentation indicator and where the next line
      starts.  Errors, marked at `m0`: an indentation indicator of 0, and
      anything but a comment after the indicators. */
  function HeaderLine(input: seq<char>, m0: Marker): (r: Result<(int, nat, nat)>)
    ensures r.Ok? ==> m0.index < r.value.2 && r.value.0 in {-1, 0, 1} && r.value.1 <= 9
    ensures r.Err? ==> r.error.mark == m0 && r.error.kind in {IndentIndicatorZero, BlockScalarNoLineBreak}
  {
    match BlockHeader(input, m0.index + 1)
    case HeaderFailed => Err(ScanError(m0, IndentIndicatorZero))
    case Header(chomping, increment, h) =>
      var e := HeaderLineEnd(input, h);
      if !IsBreakz(At(input, e)) then Err(ScanError(m0, BlockScalarNoLineBreak))
      else Ok((chomping, increment, e + BreakAt(input, e)))
  }

  /** The indentation an indentation indicator gives, relative to the
      parent's (0 when there is none, to be found from the content). */
  function IndicatedIndent(increment: nat, parentIndent: int): (r: nat)
    ensures increment == 0 <==> r == 0
    ensures increment > 0 ==> r >= parentIndent + 1
  {
    if increment > 0 then (if parentIndent >= 0 then parentIndent + increment else increment) else 0
  }

  /** `scan_block_scalar` at the `|` or `>` marked `m0`, the scanner's
      indentation being `parentIndent`.  Errors: an indentation indicator
      of 0 and anything but a comment after the header are marked at `m0`;
      a tab in an indentation is marked where it is. */
  function BlockScalar(input: seq<char>, m0: Marker, literal: bool, parentIndent: int): (r: Result<BlockRead>)
    ensures r.Ok? ==> m0.index < r.value.start <= r.value.next
  {
    match HeaderLine(input, m0)
    case Err(e) => Err(e)
    case Ok((chomping, increment, first)) =>
      BlockContent(input, m0, first, literal, IndicatedIndent(increment, parentIndent), parentIndent, chomping)
  }

  /** Chomping only decides what of the final line break and the empty
      lines after the content is kept: strip keeps a prefix of what clip
      keeps, clip a prefix of what keep keeps, and all three read the
      same lines. */
  lemma ChompingOrder(input: seq<char>, m0: Marker, first: nat, literal: bool, indent: nat, parentIndent: int)
    requires m0.index <= first
    ensures var strip := BlockContent(input, m0, first, literal, indent, parentIndent, -1);
      var clip := BlockContent(input, m0, first, literal, indent, parentIndent, 0);
      var keep := BlockContent(input, m0, first, literal, indent, parentIndent, 1);
      (strip.Ok? <==> clip.Ok?) && (clip.Ok? <==> keep.Ok?) &&
      (strip.Err? ==> strip == clip == keep) &&
      (strip.Ok? ==>
        strip.value.start == clip.value.start == keep.value.start &&
        strip.value.next == clip.value.next == keep.value.next &&
        strip.value.text <= clip.value.text <= keep.value.text)
  {
    match BlockBreaks(input, m0, first, indent, 0, parentIndent, [])
    case BreaksTab(x) =>
    case Breaks(start, ind, b) =>
      match BlockLines(input, m0, start, literal, ind, parentIndent, [], [], b, false)
      case BodyTab(x) =>
      case Body(t, lb, tb, next) =>
        assert t <= t + lb;
        assert t + lb <= t + lb + tb;
  }

  /** The header `|0`: an indentation indicator of 0 is an error. */
  lemma IndicatorZeroExample(input: string)
    requires input == "|0\n a"
    ensures BlockScalar(input, Marker(0, 1, 0), true, -1) == Err(ScanError(Marker(0, 1, 0), IndentIndicatorZero))
  {
  }

  /** `| x`: text after the header that is not a comment is an error. */
  lemma NoLineBreakExample(input: string)
    requires input == "| x"
    ensures BlockScalar(input, Marker(0, 1, 0), true, -1) == Err(ScanError(Marker(0, 1, 0), BlockScalarNoLineBreak))
  {
    assert BlockHeader(input, 1) == Header(0, 0, 1);
    assert SpanEnd(input, 2, Blank) == 2;
    assert HeaderLineEnd(input, 1) == 2;
  }

  /** `|⏎⇥a`: a tab where the indentation is still unknown is an error,
      marked at the tab. */
  lemma TabExample(input: string)
    requires input == "|\n\ta"
    ensures BlockScalar(input, Marker(0, 1, 0), true, -1) == Err(ScanError(Marker(2, 2, 0), BlockScalarTab))
  {
    var m0 := Marker(0, 1, 0);
    assert MarkAfter(input, m0, 2) == Marker(2, 2, 0);
    assert HeaderLine(input, m0) == Ok((0, 0, 2));
    assert BlockBreaks(input, m0, 2, 0, 0, -1, []) == BreaksTab(2);
  }

  /** The content ` a⏎⏎` after a header line ending at position 2: one
      line `a` at the indentation of its first line, its line break and
      one empty line, chomped as `c` says. */
  lemma OneLineContent(input: string, c: int)
    requires |input| == 7 && input[2..] == "\n a\n\n" && MarkAfter(input, Marker(0, 1, 0), 3) == Marker(3, 2, 0)
    ensures BlockContent(input, Marker(0, 1, 0), 3, true, 0, -1, c) == Ok(BlockRead(Chomped("a", "\n", "\n", c), 4, 7))
  {
    var m0 := Marker(0, 1, 0);
    assert input[3] == ' ' && input[4] == 'a' && input[5] == '\n' && input[6] == '\n';
    assert MarkAfter(input, m0, 4) == Marker(4, 2, 1);
    assert IndentSpaces(input, m0, 3, 0) == 4;
    assert BreaksTurnAt(input, m0, 3, 0, 0) == TurnEnd(4, 1);
    assert BlockBreaks(input, m0, 3, 0, 0, -1, []) == Breaks(4, 1, []);
    SpanCons(input, 4, NonBreakz);
    SpanNil(input, 5, NonBreakz);
    assert Span(input, 4, NonBreakz) == "a" && SpanEnd(input, 4, NonBreakz) == 5;
    assert MarkAfter(input, m0, 6) == Marker(6, 3, 0);
    assert MarkAfter(input, m0, 7) == Marker(7, 4, 0);
    assert BreaksTurnAt(input, m0, 6, 1, 0) == TurnBreak(7, 0);
    assert BreaksTurnAt(input, m0, 7, 1, 0) == TurnEnd(7, 0);
    assert BlockBreaks(input, m0, 6, 1, 0, -1, []) == Breaks(7, 1, "\n");
    assert LineJoin(true, [], [], [], false, false) + "a" == "a";
    assert BlockLineAt(input, m0, 4, true, 1, -1, [], [], [], false) == LineRead("a", 7, "\n", false);
    assert BlockLineAt(input, m0, 7, true, 1, -1, "a", "\n", "\n", false) == LinesEnded(Body("a", "\n", "\n", 7));
    assert BlockLines(input, m0, 7, true, 1, -1, "a", "\n", "\n", false) == Body("a", "\n", "\n", 7);
    assert BlockLines(input, m0, 4, true, 1, -1, [], [], [], false) == Body("a", "\n", "\n", 7);
  }

  /** `|-`: strip drops the final line break and the empty line. */
  lemma StripExample(input: string)
    requires input == "|-\n a\n\n"
    ensures BlockScalar(input, Marker(0, 1, 0), true, -1) == Ok(BlockRead("a", 4, 7))
  {
    var m0 := Marker(0, 1, 0);
    assert input[2..] == "\n a\n\n";
    assert MarkAfter(input, m0, 3) == Marker(3, 2, 0);
    assert HeaderLine(input, m0) == Ok((-1, 0, 3));
    OneLineContent(input, -1);
  }

  /** `|`: clip keeps the final line break only. */
  lemma ClipExample(input: string)
    requires input == "| \n a\n\n"
    ensures BlockScalar(input, Marker(0, 1, 0), true, -1) == Ok(BlockRead("a\n", 4, 7))
  {
    var m0 := Marker(0, 1, 0);
    assert input[2..] == "\n a\n\n";
    assert MarkAfter(input, m0, 3) == Marker(3, 2, 0);
    assert SpanEnd(input, 1, Blank) == 2;
    assert HeaderLine(input, m0) == Ok((0, 0, 3));
    OneLineContent(input, 0);
    assert Chomped("a", "\n", "\n", 0) == "a\n";
  }

  /** `|+`: keep keeps the final line break and the empty line. */
  lemma KeepExample(input: string)
    requires input == "|+\n a\n\n"
    ensures BlockScalar(input, Marker(0, 1, 0), true, -1) == Ok(BlockRead("a\n\n", 4, 7))
  {
    var m0 := Marker(0, 1, 0);
    assert input[2..] == "\n a\n\n";
    assert MarkAfter(input, m0, 3) == Marker(3, 2, 0);
    assert HeaderLine(input, m0) == Ok((1, 0, 3));
    OneLineContent(input, 1);
    assert Chomped("a", "\n", "\n", 1) == "a\n\n";
  }

  /** The first turn over ` a⏎ b⏎` after a header line ending at position
      1: the line `a`, then the indentation of the next line. */
  lemma TwoLinesFirstTurn(input: string, literal: bool)
    requires |input| == 8 && input[1..] == "\n a\n b\n" && MarkAfter(input, Marker(0, 1, 0), 2) == Marker(2, 2, 0)
    ensures BlockBreaks(input, Marker(0, 1, 0), 2, 0, 0, -1, []) == Breaks(3, 1, [])
    ensures BlockLineAt(input, Marker(0, 1, 0), 3, literal, 1, -1, [], [], [], false) == LineRead("a", 6, [], false)
    ensures MarkAfter(input, Marker(0, 1, 0), 6) == Marker(6, 3, 1)
  {
    var m0 := Marker(0, 1, 0);
    assert input[2] == ' ' && input[3] == 'a' && input[4] == '\n' && input[5] == ' ' && input[6] == 'b';
    assert MarkAfter(input, m0, 3) == Marker(3, 2, 1);
    assert IndentSpaces(input, m0, 2, 0) == 3;
    assert BreaksTurnAt(input, m0, 2, 0, 0) == TurnEnd(3, 1);
    SpanCons(input, 3, NonBreakz);
    SpanNil(input, 4, NonBreakz);
    assert Span(input, 3, NonBreakz) == "a" && SpanEnd(input, 3, NonBreakz) == 4;
    assert MarkAfter(input, m0, 5) == Marker(5, 3, 0);
    assert MarkAfter(input, m0, 6) == Marker(6, 3, 1);
    assert IndentSpaces(input, m0, 5, 1) == 6;
    assert BreaksTurnAt(input, m0, 5, 1, 0) == TurnEnd(6, 1);
    assert BlockBreaks(input, m0, 5, 1, 0, -1, []) == Breaks(6, 1, []);
    assert LineJoin(literal, [], [], [], false, false) + "a" == "a";
  }

  /** The second turn over ` a⏎ b⏎`: the line `b`, joined to `a` by the
      line break in a literal scalar and by a space in a folded one. */
  lemma TwoLinesSecondTurn(input: string, literal: bool)
    requires |input| == 8 && input[1..] == "\n a\n b\n" && MarkAfter(input, Marker(0, 1, 0), 6) == Marker(6, 3, 1)
    ensures BlockLineAt(input, Marker(0, 1, 0), 6, literal, 1, -1, "a", "\n", [], false)
      == LineRead(if literal then "a\nb" else "a b", 8, [], false)
  {
    var m0 := Marker(0, 1, 0);
    assert input[6] == 'b' && input[7] == '\n';
    SpanCons(input, 6, NonBreakz);
    SpanNil(input, 7, NonBreakz);
    assert Span(input, 6, NonBreakz) == "b" && SpanEnd(input, 6, NonBreakz) == 7;
    assert MarkAfter(input, m0, 8) == Marker(8, 4, 0);
    assert BreaksTurnAt(input, m0, 8, 1, 0) == TurnEnd(8, 0);
    assert BlockBreaks(input, m0, 8, 1, 0, -1, []) == Breaks(8, 1, []);
    assert LineJoin(literal, "a", "\n", [], false, false) + "b" == if literal then "a\nb" else "a b";
  }

  /** ` a⏎ b⏎` after a header line ending at position 1, clipped. */
  lemma TwoLinesContent(input: string, literal: bool)
    requires |input| == 8 && input[1..] == "\n a\n b\n" && MarkAfter(input, Marker(0, 1, 0), 2) == Marker(2, 2, 0)
    ensures BlockContent(input, Marker(0, 1, 0), 2, literal, 0, -1, 0)
      == Ok(BlockRead(if literal then "a\nb\n" else "a b\n", 3, 8))
  {
    var m0 := Marker(0, 1, 0);
    TwoLinesFirstTurn(input, literal);
    TwoLinesSecondTurn(input, literal);
    var t := if literal then "a\nb" else "a b";
    assert MarkAfter(input, m0, 8).col == 0;
    assert BlockLines(input, m0, 8, literal, 1, -1, t, "\n", [], false) == Body(t, "\n", [], 8);
    assert BlockLines(input, m0, 3, literal, 1, -1, [], [], [], false) == Body(t, "\n", [], 8);
    assert Chomped(t, "\n", [], 0) == if literal then "a\nb\n" else "a b\n";
  }

  /** `>`: two lines folded into one, joined by a space. */
  lemma FoldedExample(input: string)
    requires input == ">\n a\n b\n"
    ensures BlockScalar(input, Marker(0, 1, 0), false, -1) == Ok(BlockRead("a b\n", 3, 8))
  {
    var m0 := Marker(0, 1, 0);
    assert input[1..] == "\n a\n b\n";
    assert MarkAfter(input, m0, 2) == Marker(2, 2, 0);
    assert HeaderLine(input, m0) == Ok((0, 0, 2));
    TwoLinesContent(input, false);
  }

  /** `|`: the same two lines kept apart. */
  lemma LiteralExample(input: string)
    requires input == "|\n a\n b\n"
    ensures BlockScalar(input, Marker(0, 1, 0), true, -1) == Ok(BlockRead("a\nb\n", 3, 8))
  {
    var m0 := Marker(0, 1, 0);
    assert input[1..] == "\n a\n b\n";
    assert MarkAfter(input, m0, 2) == Marker(2, 2, 0);
    assert HeaderLine(input, m0) == Ok((0, 0, 2));
    TwoLinesContent(input, true);
  }
}

/** Reference definitions for `scan_flow_scalar`: single- and double-quoted
    scalars (sections 7.3.1 and 7.3.2 of YAML 1.2).  The scanner alternates
    a run of non-blank characters, where quotes and escapes are decoded,
    with a stretch of white space that is folded. */
module FlowScalars {
  import opened Funcs
  import opened Markers
  import opened Tokens
  import opened Decoders
  import opened Scalars

  /** A run of a quoted scalar: the text so far, where the run stops, and
      whether it stopped after an escaped line break; or the escape error
      that ended it. */
  datatype Run = Run(text: string, next: nat, escapedBreak: bool) | RunFailed(kind: ErrorKind)

  /** The quote that ends the scalar. */
  predicate Closing(c: char, single: bool) {
    (single && c == '\'') || (!single && c == '"')
  }

  /** One turn of the non-blank loop of a quoted scalar at position `i`:
      either a character (or a doubled quote, or an escape) is added to the
      text and the loop goes on at `next`, or the run stops. */
  datatype RunStep = Step(text: string, next: nat) | Stopped(run: Run)

  /** The turn at position `i`: the run stops at white space, at the
      closing quote, and after an escaped line break; in a single-quoted
      scalar `''` stands for one quote; in a double-quoted one a backslash
      starts an escape (section 5.7 of YAML 1.2). */
  function QuotedRunStep(input: seq<char>, i: nat, single: bool, text: string): (r: RunStep)
    ensures r.Step? ==> i < r.next
    ensures r.Stopped? && r.run.Run? ==> i <= r.run.next
    ensures r.Stopped? && r.run.Run? && r.run.next == i ==> IsBlankz(At(input, i)) || Closing(At(input, i), single)
    ensures r.Stopped? && r.run.Run? && !r.run.escapedBreak ==>
      r.run.next == i && r.run.text == text
  {
    var c := At(input, i);
    if IsBlankz(c) then Stopped(Run(text, i, false))
    else if single && c == '\'' && At(input, i + 1) == '\'' then Step(text + ['\''], i + 2)
    else if Closing(c, single) then Stopped(Run(text, i, false))
    else if !single && c == '\\' && IsBreak(At(input, i + 1)) then
      Stopped(Run(text, i + 1 + BreakAt(input, i + 1), true))
    else if !single && c == '\\' then
      match QuotedEscape(input, i)
      case Failed(k) => Stopped(RunFailed(k))
      case Decoded(ch, n) => Step(text + [ch], i + n)
    else Step(text + [c], i + 1)
  }

  /** The non-blank characters of a quoted scalar from position `i`, added
      to `text`, up to white space, the closing quote or an escaped line
      break. */
  function QuotedRun(input: seq<char>, i: nat, single: bool, text: string): (r: Run)
    ensures r.Run? ==> i <= r.next
    ensures r.Run? && r.next == i ==> IsBlankz(At(input, i)) || Closing(At(input, i), single)
    decreases |input| - i
  {
    match QuotedRunStep(input, i, single, text)
    case Stopped(run) => run
    case Step(t, j) => QuotedRun(input, j, single, t)
  }

  /** A run stops only where the scanner must look at something else:
      white space, a closing quote, or just after an escaped line break. */
  lemma {:induction false} QuotedRunStops(input: seq<char>, i: nat, single: bool, text: string)
    ensures var r := QuotedRun(input, i, single, text);
      r.Run? && !r.escapedBreak ==> IsBlankz(At(input, r.next)) || Closing(At(input, r.next), single)
    decreases |input| - i
  {
    match QuotedRunStep(input, i, single, text)
    case Stopped(run) =>
    case Step(t, j) => QuotedRunStops(input, j, single, t);
  }

  /** Single-quoted scalars have no escapes, so their runs never fail. */
  lemma {:induction false} SingleQuotedRunSucceeds(input: seq<char>, i: nat, text: string)
    ensures QuotedRun(input, i, true, text).Run? && !QuotedRun(input, i, true, text).escapedBreak
    decreases |input| - i
  {
    match QuotedRunStep(input, i, true, text)
    case Stopped(run) =>
    case Step(t, j) => SingleQuotedRunSucceeds(input, j, t);
  }

  /** The white space after a run, up to the next character that is neither
      a blank nor a line break. */
  function QuotedBlanks(input: seq<char>, i: nat, p: Pending): (r: (nat, Pending))
    ensures i <= r.0 && !IsBlank(At(input, r.0)) && !IsBreak(At(input, r.0))
    ensures IsBlank(At(input, i)) || IsBreak(At(input, i)) ==> i < r.0
    decreases |input| - i
  {
    if IsBlank(At(input, i)) || IsBreak(At(input, i)) then
      var s := BlankStep(input, i, p);
      QuotedBlanks(input, s.0, s.1)
    else (i, p)
  }

  /** What one turn of `scan_flow_scalar`'s loop reaches: the closing quote
      at `next`, or the start of the next run at `next`, with the text so
      far; or an error. */
  datatype Turn = Closed(text: string, next: nat) | Continued(text: string, next: nat) | TurnFailed(kind: ErrorKind)

  /** One turn from position `i` of the quoted scalar whose opening quote
      is at `m0`: a document indicator at the start of a line and the end of
      the input are errors; otherwise a run, then either the closing quote
      or white space that is folded into the text. */
  function QuotedTurn(input: seq<char>, m0: Marker, i: nat, single: bool, text: string): (r: Turn)
    requires m0.index < i
    ensures r.Closed? ==> i <= r.next
    ensures r.Continued? ==> i < r.next
  {
    if MarkAfter(input, m0, i).col == 0 && DocIndicatorAt(input, i) then TurnFailed(QuotedDocumentIndicator)
    else if At(input, i) == '\0' then TurnFailed(QuotedEndOfStream)
    else match QuotedRun(input, i, single, text)
      case RunFailed(k) => TurnFailed(k)
      case Run(t, j, escapedBreak) =>
        if Closing(At(input, j), single) then Closed(t, j)
        else
          var b := QuotedBlanks(input, j, Pending([], [], [], escapedBreak));
          Continued(t + Joined(b.1), b.0)
  }

  /** The quoted scalar whose opening quote is at `m0`, scanned on from `i`
      with `text` read so far: the text and the number of characters from
      the opening quote to past the closing one, or the error. */
  function FlowScalarFrom(input: seq<char>, m0: Marker, i: nat, single: bool, text: string): (r: Decoded<string>)
    requires m0.index < i
    ensures r.Decoded? ==> r.length > i - m0.index
    decreases |input| - i
  {
    match QuotedTurn(input, m0, i, single, text)
    case TurnFailed(k) => Failed(k)
    case Closed(t, j) => Decoded(t, j + 1 - m0.index)
    case Continued(t, k) => FlowScalarFrom(input, m0, k, single, t)
  }

  /** `scan_flow_scalar` at the opening quote `m0`. */
  function FlowScalar(input: seq<char>, m0: Marker, single: bool): (r: Decoded<string>)
    ensures r.Decoded? ==> r.length >= 2
  {
    FlowScalarFrom(input, m0, m0.index + 1, single, [])
  }

  /** A character that is neither white space, nor a quote that ends or
      doubles, nor a backslash joins the run. */
  lemma RunTakes(input: seq<char>, i: nat, single: bool, text: string, next: string)
    requires var c := At(input, i);
      !IsBlankz(c) && !Closing(c, single) && !(single && c == '\'') && !(!single && c == '\\')
    requires next == text + [At(input, i)]
    ensures QuotedRun(input, i, single, text) == QuotedRun(input, i + 1, single, next)
  {
  }

  /** In a single-quoted scalar, `''` adds one quote to the run. */
  lemma RunTakesDoubled(input: seq<char>, i: nat, text: string, next: string)
    requires At(input, i) == '\'' && At(input, i + 1) == '\'' && next == text + ['\'']
    ensures QuotedRun(input, i, true, text) == QuotedRun(input, i + 2, true, next)
  {
  }

  /** White space, or a closing quote that is not doubled, ends the run. */
  lemma RunStops(input: seq<char>, i: nat, single: bool, text: string)
    requires var c := At(input, i);
      IsBlankz(c) || (Closing(c, single) && !(single && At(input, i + 1) == '\''))
    ensures QuotedRun(input, i, single, text) == Run(text, i, false)
  {
  }

  /** A backslash before a line break ends the run after the break. */
  lemma RunStopsEscapedBreak(input: seq<char>, i: nat, text: string)
    requires At(input, i) == '\\' && IsBreak(At(input, i + 1))
    ensures QuotedRun(input, i, false, text) == Run(text, i + 1 + BreakAt(input, i + 1), true)
  {
  }

  /** A run that stops at the closing quote ends the scalar. */
  lemma ScalarCloses(input: seq<char>, m0: Marker, i: nat, single: bool, text: string, t: string, j: nat)
    requires m0.index < i && MarkAfter(input, m0, i).col != 0 && At(input, i) != '\0'
    requires QuotedRun(input, i, single, text) == Run(t, j, false) && Closing(At(input, j), single)
    ensures FlowScalarFrom(input, m0, i, single, text) == Decoded(t, j + 1 - m0.index)
  {
  }

  /** A run that stops at white space goes on after that white space,
      folded into the text. */
  lemma ScalarContinues(input: seq<char>, m0: Marker, i: nat, single: bool, text: string, t: string, j: nat,
                        escapedBreak: bool, k: nat, p: Pending)
    requires m0.index < i && !(MarkAfter(input, m0, i).col == 0 && DocIndicatorAt(input, i)) && At(input, i) != '\0'
    requires QuotedRun(input, i, single, text) == Run(t, j, escapedBreak) && !Closing(At(input, j), single)
    requires QuotedBlanks(input, j, Pending([], [], [], escapedBreak)) == (k, p)
    ensures FlowScalarFrom(input, m0, i, single, text) == FlowScalarFrom(input, m0, k, single, t + Joined(p))
  {
  }

  /** A document indicator at the start of a line inside the scalar is an
      error. */
  lemma ScalarAtIndicator(input: seq<char>, m0: Marker, i: nat, single: bool, text: string)
    requires m0.index < i && MarkAfter(input, m0, i).col == 0 && DocIndicatorAt(input, i)
    ensures FlowScalarFrom(input, m0, i, single, text) == Failed(QuotedDocumentIndicator)
  {
  }

  /** `'it''s'`: a doubled quote inside a single-quoted scalar stands for
      one quote. */
  lemma DoubledQuoteExample(input: string)
    requires input == "'it''s'"
    ensures FlowScalar(input, Marker(0, 1, 0), true) == Decoded("it's", 7)
  {
    RunTakes(input, 1, true, "", "i");
    RunTakes(input, 2, true, "i", "it");
    RunTakesDoubled(input, 3, "it", "it'");
    RunTakes(input, 5, true, "it'", "it's");
    RunStops(input, 6, true, "it's");
    ScalarCloses(input, Marker(0, 1, 0), 1, true, "", "it's", 6);
  }

  /** `'a⏎  b'`: a single line break with the indentation after it folds
      into one space. */
  lemma FoldedLineExample(input: string)
    requires input == "'a\n  b'"
    ensures FlowScalar(input, Marker(0, 1, 0), true) == Decoded("a b", 7)
  {
    var m0 := Marker(0, 1, 0);
    var p := Pending([], "\n", [], true);
    RunTakes(input, 1, true, "", "a");
    RunStops(input, 2, true, "a");
    FirstBreak(input, 2);
    assert QuotedBlanks(input, 4, p) == (5, p);
    assert QuotedBlanks(input, 2, Pending([], [], [], false)) == (5, p);
    ScalarContinues(input, m0, 1, true, "", "a", 2, false, 5, p);
    assert "a" + Joined(p) == "a ";
    RunTakes(input, 5, true, "a ", "a b");
    RunStops(input, 6, true, "a b");
    assert MarkAfter(input, m0, 3) == Marker(3, 2, 0);
    assert MarkAfter(input, m0, 5) == Marker(5, 2, 2);
    ScalarCloses(input, m0, 5, true, "a ", "a b", 6);
  }

  /** The spelling of the character `c` of a text: with its quote doubled
      in a single-quoted scalar, behind a backslash when it is a quote or a
      backslash in a double-quoted one. */
  function CharSpelling(c: char, single: bool): (r: string)
    ensures |r| > 0 && r[|r| - 1] == c
  {
    if single then (if c == '\'' then "''" else [c])
    else (if c == '"' || c == '\\' then ['\\', c] else [c])
  }

  /** The body of a single-quoted scalar spelling `s`: each quote doubled. */
  function SingleQuotedBody(s: string): (r: string)
    ensures |r| >= |s|
  {
    if s == [] then []
    else CharSpelling(s[0], true) + SingleQuotedBody(s[1..])
  }

  /** The body of a double-quoted scalar spelling `s`: each quote and each
      backslash escaped with a backslash. */
  function DoubleQuotedBody(s: string): (r: string)
    ensures |r| >= |s|
  {
    if s == [] then []
    else CharSpelling(s[0], false) + DoubleQuotedBody(s[1..])
  }

  /** `s` has no white space, line break or '\0', so a quoted spelling of
      it is a single run. */
  predicate NoBlankz(s: string) {
    forall k :: 0 <= k < |s| ==> !IsBlankz(s[k])
  }

  /** `input` holds `body` from position `i` on. */
  predicate HoldsAt(input: seq<char>, i: nat, body: string) {
    forall k :: 0 <= k < |body| ==> At(input, i + k) == body[k]
  }

  /** What `HoldsAt` and `NoBlankz` give for the first character of `s`
      and its spelling `head`, and for the rest. */
  lemma HoldsSplit(input: seq<char>, i: nat, s: string, head: string, rest: string)
    requires |s| > 0 && NoBlankz(s) && HoldsAt(input, i, head + rest)
    ensures !IsBlankz(s[0]) && NoBlankz(s[1..]) && HoldsAt(input, i + |head|, rest)
    ensures forall k :: 0 <= k < |head| ==> At(input, i + k) == head[k]
  {
    assert !IsBlankz(s[0]);
    forall k | 0 <= k < |s[1..]| ensures !IsBlankz(s[1..][k]) {
      assert s[1..][k] == s[k + 1];
    }
    forall k | 0 <= k < |rest| ensures At(input, i + |head| + k) == rest[k] {
      assert (head + rest)[|head| + k] == rest[k];
    }
    forall k | 0 <= k < |head| ensures At(input, i + k) == head[k] {
      assert (head + rest)[k] == head[k];
    }
  }

  /** In a double-quoted scalar, `\"` and `\\` add the escaped character to
      the run. */
  lemma RunTakesEscaped(input: seq<char>, i: nat, text: string, c: char)
    requires c == '"' || c == '\\'
    requires At(input, i) == '\\' && At(input, i + 1) == c
    ensures QuotedRun(input, i, false, text) == QuotedRun(input, i + 2, false, text + [c])
  {
    assert QuotedEscape(input, i) == Decoded(c, 2);
  }

  /** The spelling of a non-empty text is the spelling of its first
      character followed by that of the rest; what `HoldsAt` and `NoBlankz`
      give for each part. */
  lemma SpelledSplit(input: seq<char>, i: nat, single: bool, s: string, acc: string) returns (head: string)
    requires s != [] && NoBlankz(s) && HoldsAt(input, i, Spelling(s, single))
    ensures head == CharSpelling(s[0], single) && !IsBlankz(s[0])
    ensures forall k :: 0 <= k < |head| ==> At(input, i + k) == head[k]
    ensures i + |head| + |Spelling(s[1..], single)| == i + |Spelling(s, single)|
    ensures NoBlankz(s[1..]) && HoldsAt(input, i + |head|, Spelling(s[1..], single))
    ensures acc + [s[0]] + s[1..] == acc + s
  {
    head := CharSpelling(s[0], single);
    assert Spelling(s, single) == head + Spelling(s[1..], single);
    HoldsSplit(input, i, s, head, Spelling(s[1..], single));
    assert acc + [s[0]] + s[1..] == acc + s;
  }

  /** A character that is not white space, spelled with its quote doubled
      in single quotes, or behind a backslash when it is a quote or a
      backslash in double quotes, joins the run. */
  lemma QuotedTakes(input: seq<char>, i: nat, single: bool, c: char, acc: string, head: string)
    requires !IsBlankz(c) && head == CharSpelling(c, single)
    requires forall k :: 0 <= k < |head| ==> At(input, i + k) == head[k]
    ensures QuotedRun(input, i, single, acc) == QuotedRun(input, i + |head|, single, acc + [c])
  {
    assert At(input, i + 0) == head[0];
    if single && c == '\'' {
      assert At(input, i + 1) == head[1];
      RunTakesDoubled(input, i, acc, acc + [c]);
    } else if !single && (c == '"' || c == '\\') {
      assert At(input, i + 1) == head[1];
      RunTakesEscaped(input, i, acc, c);
    } else {
      RunTakes(input, i, single, acc, acc + [c]);
    }
  }

  /** A run over the spelling of a blank-free text, up to a blank or the
      closing quote, gives back the text and stops where the spelling
      ends. */
  lemma {:induction false} QuotedRunReads(input: seq<char>, i: nat, single: bool, s: string, acc: string)
    requires NoBlankz(s) && HoldsAt(input, i, Spelling(s, single))
    requires var j := i + |Spelling(s, single)|; IsBlank(At(input, j)) || ClosesAt(input, j, single)
    ensures QuotedRun(input, i, single, acc) == Run(acc + s, i + |Spelling(s, single)|, false)
    decreases |s|
  {
    if s == [] {
      assert acc + s == acc;
      RunStops(input, i, single, acc);
    } else {
      var head := SpelledSplit(input, i, single, s, acc);
      QuotedTakes(input, i, single, s[0], acc, head);
      QuotedRunReads(input, i + |head|, single, s[1..], acc + [s[0]]);
    }
  }

  /** `s` has no line break and no '\0': its quoted spelling stays on one
      line, and the only white space in it is blanks. */
  predicate NoBreakz(s: string) {
    forall k :: 0 <= k < |s| ==> !IsBreakz(s[k])
  }

  /** The spelling of `s` inside single or double quotes. */
  function Spelling(s: string, single: bool): string {
    if single then SingleQuotedBody(s) else DoubleQuotedBody(s)
  }

  /** The quote at `j` closes the scalar: in single quotes it is not
      doubled. */
  predicate ClosesAt(input: seq<char>, j: nat, single: bool) {
    Closing(At(input, j), single) && !(single && At(input, j + 1) == '\'')
  }

  /** The spelling of a concatenation is the concatenation of spellings. */
  lemma {:induction false} SpellingAppend(a: string, b: string, single: bool)
    ensures Spelling(a + b, single) == Spelling(a, single) + Spelling(b, single)
    decreases |a|
  {
    if a == [] {
      assert a + b == b;
    } else {
      var h := CharSpelling(a[0], single);
      assert (a + b)[0] == a[0] && (a + b)[1..] == a[1..] + b;
      assert Spelling(a + b, single) == h + Spelling(a[1..] + b, single);
      SpellingAppend(a[1..], b, single);
      assert Spelling(a, single) == h + Spelling(a[1..], single);
      assert h + (Spelling(a[1..], single) + Spelling(b, single)) ==
             (h + Spelling(a[1..], single)) + Spelling(b, single);
    }
  }

  /** Blanks are spelled as they are. */
  lemma {:induction false} SpellingBlanks(b: string, single: bool)
    requires forall k :: 0 <= k < |b| ==> IsBlank(b[k])
    ensures Spelling(b, single) == b
    decreases |b|
  {
    if b != [] {
      assert IsBlank(b[0]);
      assert forall k :: 0 <= k < |b[1..]| ==> IsBlank(b[1..][k]) by {
        forall k | 0 <= k < |b[1..]| ensures IsBlank(b[1..][k]) {
          assert b[1..][k] == b[k + 1];
        }
      }
      SpellingBlanks(b[1..], single);
      assert [b[0]] + b[1..] == b;
    }
  }

  /** The spelling of a non-empty text starts with its first character, or
      with the quote or backslash that doubles or escapes it. */
  lemma SpellingHead(s: string, single: bool)
    requires s != []
    ensures |Spelling(s, single)| > 0
    ensures var c := Spelling(s, single)[0]; c == s[0] || c == '\'' || c == '\\'
    ensures s[0] != '\'' && s[0] != '"' && s[0] != '\\' ==> Spelling(s, single)[0] == s[0]
  {
  }

  /** Quoting adds no line break and no '\0'. */
  lemma {:induction false} SpellingNoBreakz(s: string, single: bool)
    requires NoBreakz(s)
    ensures NoBreakz(Spelling(s, single))
    decreases |s|
  {
    if s != [] {
      assert NoBreakz(s[1..]) by {
        forall k | 0 <= k < |s[1..]| ensures !IsBreakz(s[1..][k]) {
          assert s[1..][k] == s[k + 1];
        }
      }
      SpellingNoBreakz(s[1..], single);
      var head := CharSpelling(s[0], single);
      assert Spelling(s, single) == head + Spelling(s[1..], single);
      assert !IsBreakz(s[0]);
      forall k | 0 <= k < |Spelling(s, single)| ensures !IsBreakz(Spelling(s, single)[k]) {
        if k >= |head| {
          assert Spelling(s, single)[k] == Spelling(s[1..], single)[k - |head|];
        }
      }
    }
  }

  /** `input` holds `a + b` from `i` exactly when it holds `a` from `i`
      and `b` after it. */
  lemma HoldsAppend(input: seq<char>, i: nat, a: string, b: string)
    requires HoldsAt(input, i, a + b)
    ensures HoldsAt(input, i, a) && HoldsAt(input, i + |a|, b)
  {
    forall k | 0 <= k < |a| ensures At(input, i + k) == a[k] {
      assert (a + b)[k] == a[k];
    }
    forall k | 0 <= k < |b| ensures At(input, i + |a| + k) == b[k] {
      assert (a + b)[|a| + k] == b[k];
    }
  }

  /** Where `input` holds a text with no line break, it has no '\n'. */
  lemma HoldsOneLine(input: seq<char>, i: nat, body: string)
    requires HoldsAt(input, i, body) && NoBreakz(body)
    ensures forall t :: i <= t < i + |body| ==> At(input, t) != '\n'
  {
    forall t | i <= t < i + |body| ensures At(input, t) != '\n' {
      assert At(input, i + (t - i)) == body[t - i];
    }
  }

  /** Reading on over the spelling of a text without line breaks stays on
      the opening quote's line. */
  lemma StaysOnLine(input: seq<char>, m0: Marker, i: nat, single: bool, s: string, k: nat)
    requires m0.index < i <= k <= i + |Spelling(s, single)|
    requires MarkAfter(input, m0, i).line == m0.line && MarkAfter(input, m0, i).col == m0.col + (i - m0.index)
    requires NoBreakz(s) && HoldsAt(input, i, Spelling(s, single))
    ensures MarkAfter(input, m0, k).line == m0.line && MarkAfter(input, m0, k).col == m0.col + (k - m0.index)
  {
    SpellingNoBreakz(s, single);
    HoldsOneLine(input, i, Spelling(s, single));
    MarkAfterSameLine(input, m0, i, k);
  }

  /** The length of the longest prefix of `s` without blanks. */
  function WordLength(s: string): (n: nat)
    ensures n <= |s|
    ensures forall k :: 0 <= k < n ==> !IsBlank(s[k])
    ensures n < |s| ==> IsBlank(s[n])
  {
    if s == [] || IsBlank(s[0]) then 0
    else
      var m := WordLength(s[1..]);
      assert forall k :: 1 <= k < 1 + m ==> s[k] == s[1..][k - 1];
      1 + m
  }

  /** The length of the longest prefix of `s` of blanks. */
  function BlanksLength(s: string): (n: nat)
    ensures n <= |s|
    ensures forall k :: 0 <= k < n ==> IsBlank(s[k])
    ensures n < |s| ==> !IsBlank(s[n])
  {
    if s == [] || !IsBlank(s[0]) then 0
    else
      var m := BlanksLength(s[1..]);
      assert forall k :: 1 <= k < 1 + m ==> s[k] == s[1..][k - 1];
      1 + m
  }

  /** The white-space loop keeps the blanks it reads, while no line break
      has been seen. */
  lemma {:induction false} BlanksRead(input: seq<char>, j: nat, b: string, ws: string)
    requires forall k :: 0 <= k < |b| ==> IsBlank(b[k])
    requires HoldsAt(input, j, b)
    requires !IsBlank(At(input, j + |b|)) && !IsBreak(At(input, j + |b|))
    ensures QuotedBlanks(input, j, Pending(ws, [], [], false)) == (j + |b|, Pending(ws + b, [], [], false))
    decreases |b|
  {
    if b == [] {
      assert ws + b == ws;
    } else {
      assert [b[0]] + b[1..] == b;
      HoldsAppend(input, j, [b[0]], b[1..]);
      assert At(input, j + 0) == b[0];
      assert forall k :: 0 <= k < |b[1..]| ==> IsBlank(b[1..][k]) by {
        forall k | 0 <= k < |b[1..]| ensures IsBlank(b[1..][k]) {
          assert b[1..][k] == b[k + 1];
        }
      }
      BlanksRead(input, j + 1, b[1..], ws + [b[0]]);
      assert ws + [b[0]] + b[1..] == ws + b;
    }
  }

  /** Where the spelling of a text without line breaks starts, followed by
      the closing quote: a blank exactly when the text starts with one, and
      the closing quote when the text is empty. */
  lemma SpellingStart(input: seq<char>, i: nat, single: bool, s: string)
    requires NoBreakz(s) && HoldsAt(input, i, Spelling(s, single))
    requires ClosesAt(input, i + |Spelling(s, single)|, single)
    ensures !IsBreakz(At(input, i))
    ensures s != [] && IsBlank(s[0]) ==> IsBlank(At(input, i))
    ensures s == [] || !IsBlank(s[0]) ==> !IsBlank(At(input, i))
    ensures s == [] ==> ClosesAt(input, i, single)
  {
    if s != [] {
      SpellingHead(s, single);
      assert !IsBreakz(s[0]);
      assert At(input, i + 0) == Spelling(s, single)[0];
    }
  }

  /** A text splits into its blank-free prefix `w` and the rest `r`, which
      starts with a blank, and its spelling splits the same way. */
  lemma WordSplit(s: string, single: bool) returns (w: string, r: string)
    requires NoBreakz(s)
    ensures s == w + r && NoBlankz(w) && NoBreakz(r) && (r == [] || IsBlank(r[0]))
    ensures Spelling(s, single) == Spelling(w, single) + Spelling(r, single)
  {
    var n := WordLength(s);
    w, r := s[..n], s[n..];
    assert s == w + r;
    SpellingAppend(w, r, single);
    forall k | 0 <= k < n ensures !IsBlankz(w[k]) {
      assert w[k] == s[k];
    }
    forall k | 0 <= k < |r| ensures !IsBreakz(r[k]) {
      assert r[k] == s[n + k];
    }
  }

  /** A text that starts with blanks splits after them; the blanks are
      spelled as they are. */
  lemma BlanksSplit(r: string, single: bool)
    requires NoBreakz(r)
    ensures var b := BlanksLength(r);
      r == r[..b] + r[b..] && NoBreakz(r[b..]) && (r[b..] == [] || !IsBlank(r[b..][0])) &&
      forall k :: 0 <= k < b ==> IsBlank(r[..b][k])
    ensures var b := BlanksLength(r); Spelling(r, single) == r[..b] + Spelling(r[b..], single)
  {
    var b := BlanksLength(r);
    assert r == r[..b] + r[b..];
    SpellingAppend(r[..b], r[b..], single);
    forall k | 0 <= k < b ensures IsBlank(r[..b][k]) {
      assert r[..b][k] == r[k];
    }
    SpellingBlanks(r[..b], single);
    forall k | 0 <= k < |r[b..]| ensures !IsBreakz(r[b..][k]) {
      assert r[b..][k] == r[b + k];
    }
  }

  /** The spelling of `s` from `i` is the spelling of its blank-free prefix
      `w`, followed by the spelling of the rest `r`, which starts at a blank
      or at the closing quote. */
  lemma WordParts(input: seq<char>, i: nat, single: bool, s: string) returns (w: string, r: string)
    requires NoBreakz(s) && HoldsAt(input, i, Spelling(s, single))
    requires ClosesAt(input, i + |Spelling(s, single)|, single)
    ensures s == w + r && NoBlankz(w) && NoBreakz(r) && (r == [] || IsBlank(r[0]))
    ensures HoldsAt(input, i, Spelling(w, single)) && HoldsAt(input, i + |Spelling(w, single)|, Spelling(r, single))
    ensures |Spelling(s, single)| == |Spelling(w, single)| + |Spelling(r, single)|
    ensures IsBlank(At(input, i + |Spelling(w, single)|)) || ClosesAt(input, i + |Spelling(w, single)|, single)
  {
    w, r := WordSplit(s, single);
    HoldsAppend(input, i, Spelling(w, single), Spelling(r, single));
    SpellingStart(input, i + |Spelling(w, single)|, single, r);
  }

  /** After a run, the white-space loop over the spelling of `r`, which
      starts with a blank, keeps the leading blanks `bl` of `r` as they are
      and stops where the spelling of the rest starts. */
  lemma BlanksStretch(input: seq<char>, j: nat, single: bool, r: string) returns (bl: string, rest: string)
    requires r != [] && IsBlank(r[0]) && NoBreakz(r) && HoldsAt(input, j, Spelling(r, single))
    requires ClosesAt(input, j + |Spelling(r, single)|, single)
    ensures IsBlank(At(input, j))
    ensures r == bl + rest && |bl| > 0 && NoBreakz(rest)
    ensures QuotedBlanks(input, j, Pending([], [], [], false)) == (j + |bl|, Pending(bl, [], [], false))
    ensures HoldsAt(input, j + |bl|, Spelling(rest, single)) && |Spelling(r, single)| == |bl| + |Spelling(rest, single)|
  {
    SpellingStart(input, j, single, r);
    var b := BlanksLength(r);
    BlanksSplit(r, single);
    bl, rest := r[..b], r[b..];
    HoldsAppend(input, j, bl, Spelling(rest, single));
    SpellingStart(input, j + b, single, rest);
    BlanksRead(input, j, bl, []);
    assert [] + bl == bl;
  }

  /** The spelling of a non-empty blank-free text starts with no white
      space. */
  lemma WordStart(input: seq<char>, i: nat, single: bool, w: string)
    requires w != [] && NoBlankz(w) && HoldsAt(input, i, Spelling(w, single))
    ensures !IsBlankz(At(input, i))
  {
    SpellingHead(w, single);
    assert !IsBlankz(w[0]);
    assert At(input, i + 0) == Spelling(w, single)[0];
  }

  /** A turn over the spelling of a blank-free text followed by the closing
      quote ends the scalar with the text read. */
  lemma TurnCloses(input: seq<char>, m0: Marker, i: nat, single: bool, acc: string, s: string)
    requires m0.index < i && MarkAfter(input, m0, i).col != 0
    requires NoBlankz(s) && HoldsAt(input, i, Spelling(s, single))
    requires ClosesAt(input, i + |Spelling(s, single)|, single)
    ensures FlowScalarFrom(input, m0, i, single, acc) == Decoded(acc + s, i + |Spelling(s, single)| + 1 - m0.index)
  {
    QuotedRunReads(input, i, single, s, acc);
    if s != [] {
      WordStart(input, i, single, s);
    }
    ScalarCloses(input, m0, i, single, acc, acc + s, i + |Spelling(s, single)|);
  }

  /** Text read in three parts after `acc`, regrouped. */
  lemma Regrouped(acc: string, w: string, bl: string, rest: string)
    ensures acc + w + bl == acc + (w + bl)
    ensures acc + (w + bl) + rest == acc + (w + (bl + rest))
  {
  }

  /** Where a turn over the spelling of `s` = `w` + `r`, with `r` starting
      with blanks, leaves the scan: the run over `w` stops at the first
      blank, the white-space loop keeps the blanks `bl` of `r` as they are,
      and the spelling of the rest of `r` starts at `k`; `t` is what the
      turn adds to the text. */
  lemma WordThenBlanks(input: seq<char>, m0: Marker, i: nat, single: bool, acc: string, s: string, w: string, r: string)
      returns (bl: string, k: nat, t: string, rest: string)
    requires m0.index < i && MarkAfter(input, m0, i).col == m0.col + (i - m0.index)
    requires s == w + r && NoBlankz(w) && NoBreakz(r) && r != [] && IsBlank(r[0])
    requires HoldsAt(input, i, Spelling(w, single)) && HoldsAt(input, i + |Spelling(w, single)|, Spelling(r, single))
    requires |Spelling(s, single)| == |Spelling(w, single)| + |Spelling(r, single)|
    requires ClosesAt(input, i + |Spelling(s, single)|, single)
    ensures MarkAfter(input, m0, i).col != 0 && At(input, i) != '\0' && IsBlank(At(input, i + |Spelling(w, single)|))
    ensures QuotedBlanks(input, i + |Spelling(w, single)|, Pending([], [], [], false)) == (k, Pending(bl, [], [], false))
    ensures acc + w + Joined(Pending(bl, [], [], false)) == acc + t
    ensures i < k <= i + |Spelling(s, single)| && |rest| < |s| && acc + t + rest == acc + s
    ensures NoBreakz(rest) && HoldsAt(input, k, Spelling(rest, single))
    ensures k + |Spelling(rest, single)| == i + |Spelling(s, single)|
  {
    var j := i + |Spelling(w, single)|;
    bl, rest := BlanksStretch(input, j, single, r);
    k, t := j + |bl|, w + bl;
    if w != [] {
      WordStart(input, i, single, w);
    }
    assert Joined(Pending(bl, [], [], false)) == bl;
    Regrouped(acc, w, bl, rest);
  }

  /** A turn over the spelling of a blank-free text `w`, followed by the
      blanks `bl`, reads `w` and the blanks, and the scan goes on at `k`. */
  lemma TurnGoesOn(input: seq<char>, m0: Marker, i: nat, single: bool, acc: string, w: string, bl: string, k: nat, t: string)
    requires m0.index < i && MarkAfter(input, m0, i).col != 0 && At(input, i) != '\0'
    requires NoBlankz(w) && HoldsAt(input, i, Spelling(w, single)) && IsBlank(At(input, i + |Spelling(w, single)|))
    requires QuotedBlanks(input, i + |Spelling(w, single)|, Pending([], [], [], false)) == (k, Pending(bl, [], [], false))
    requires acc + w + Joined(Pending(bl, [], [], false)) == acc + t
    ensures FlowScalarFrom(input, m0, i, single, acc) == FlowScalarFrom(input, m0, k, single, acc + t)
  {
    QuotedRunReads(input, i, single, w, acc);
    ScalarContinues(input, m0, i, single, acc, acc + w, i + |Spelling(w, single)|, false, k, Pending(bl, [], [], false));
  }

  /** One turn over the spelling of a text without line breaks, from `i`
      on the opening quote's line and up to the closing quote: either it
      ends the scalar with the whole text read (`done`), or it reads the
      first part `t` of the text and the scan goes on, still on that line,
      at `k`, where the spelling of the rest starts. */
  lemma QuotedTurnOver(input: seq<char>, m0: Marker, i: nat, single: bool, acc: string, s: string)
      returns (done: bool, k: nat, t: string, rest: string)
    requires m0.index < i
    requires MarkAfter(input, m0, i).line == m0.line && MarkAfter(input, m0, i).col == m0.col + (i - m0.index)
    requires NoBreakz(s) && HoldsAt(input, i, Spelling(s, single))
    requires ClosesAt(input, i + |Spelling(s, single)|, single)
    ensures done ==>
      FlowScalarFrom(input, m0, i, single, acc) == Decoded(acc + s, i + |Spelling(s, single)| + 1 - m0.index)
    ensures !done ==> m0.index < k && |rest| < |s| && acc + t + rest == acc + s
    ensures !done ==> MarkAfter(input, m0, k).line == m0.line && MarkAfter(input, m0, k).col == m0.col + (k - m0.index)
    ensures !done ==> NoBreakz(rest) && HoldsAt(input, k, Spelling(rest, single))
    ensures !done ==> k + |Spelling(rest, single)| == i + |Spelling(s, single)|
    ensures !done ==> FlowScalarFrom(input, m0, i, single, acc) == FlowScalarFrom(input, m0, k, single, acc + t)
  {
    var w, r := WordParts(input, i, single, s);
    if r == [] {
      assert w == s;
      TurnCloses(input, m0, i, single, acc, s);
      done, k, t, rest := true, i, s, [];
    } else {
      var bl;
      bl, k, t, rest := WordThenBlanks(input, m0, i, single, acc, s, w, r);
      TurnGoesOn(input, m0, i, single, acc, w, bl, k, t);
      StaysOnLine(input, m0, i, single, s, k);
      done := false;
    }
  }

  /** Scanning on from `i`, on the opening quote's line, over the spelling
      of a text without line breaks and up to the closing quote, adds that
      text: blank-free stretches are read by runs, and the blanks between
      them are kept as they are. */
  lemma {:induction false} QuotedReads(input: seq<char>, m0: Marker, i: nat, single: bool, acc: string, s: string)
    requires m0.index < i
    requires MarkAfter(input, m0, i).line == m0.line && MarkAfter(input, m0, i).col == m0.col + (i - m0.index)
    requires NoBreakz(s) && HoldsAt(input, i, Spelling(s, single))
    requires ClosesAt(input, i + |Spelling(s, single)|, single)
    ensures FlowScalarFrom(input, m0, i, single, acc) == Decoded(acc + s, i + |Spelling(s, single)| + 1 - m0.index)
    decreases |s|
  {
    var done, k, t, rest := QuotedTurnOver(input, m0, i, single, acc, s);
    if !done {
      QuotedReads(input, m0, k, single, acc + t, rest);
    }
  }

  /** Round trip: `'` + the doubled-quote body of a text without line
      breaks + `'` scans back to the text, blanks included, whatever
      follows it other than another quote. */
  lemma SingleQuotedRoundTrip(input: seq<char>, m0: Marker, s: string)
    requires NoBreakz(s) && At(input, m0.index) == '\''
    requires HoldsAt(input, m0.index + 1, SingleQuotedBody(s))
    requires var j := m0.index + 1 + |SingleQuotedBody(s)|; At(input, j) == '\'' && At(input, j + 1) != '\''
    ensures FlowScalar(input, m0, true) == Decoded(s, |SingleQuotedBody(s)| + 2)
  {
    assert MarkAfter(input, m0, m0.index + 1) == Advance(m0, '\'');
    QuotedReads(input, m0, m0.index + 1, true, [], s);
    assert [] + s == s;
  }

  /** Round trip: `"` + the escaped body of a text without line breaks +
      `"` scans back to the text, blanks included. */
  lemma DoubleQuotedRoundTrip(input: seq<char>, m0: Marker, s: string)
    requires NoBreakz(s) && At(input, m0.index) == '"'
    requires HoldsAt(input, m0.index + 1, DoubleQuotedBody(s))
    requires At(input, m0.index + 1 + |DoubleQuotedBody(s)|) == '"'
    ensures FlowScalar(input, m0, false) == Decoded(s, |DoubleQuotedBody(s)| + 2)
  {
    assert MarkAfter(input, m0, m0.index + 1) == Advance(m0, '"');
    QuotedReads(input, m0, m0.index + 1, false, [], s);
    assert [] + s == s;
  }

  /** `"a\⏎  b"`: an escaped line break joins the lines with nothing in
      between, and the indentation after it is dropped. */
  lemma EscapedBreakExample(input: string)
    requires input == "\"a\\\n  b\""
    ensures FlowScalar(input, Marker(0, 1, 0), false) == Decoded("ab", 8)
  {
    var m0 := Marker(0, 1, 0);
    var p := Pending([], [], [], true);
    RunTakes(input, 1, false, "", "a");
    assert BreakAt(input, 3) == 1;
    RunStopsEscapedBreak(input, 2, "a");
    assert QuotedBlanks(input, 5, p) == (6, p);
    assert QuotedBlanks(input, 4, p) == (6, p);
    ScalarContinues(input, m0, 1, false, "", "a", 4, true, 6, p);
    assert "a" + Joined(p) == "a";
    RunTakes(input, 6, false, "a", "ab");
    RunStops(input, 7, false, "ab");
    assert MarkAfter(input, m0, 3) == Marker(3, 1, 3);
    assert MarkAfter(input, m0, 6) == Marker(6, 2, 2);
    ScalarCloses(input, m0, 6, false, "a", "ab", 7);
  }

  /** `'ab` with no closing quote fails at the end of the input. */
  lemma UnterminatedExample(input: string)
    requires input == "'ab"
    ensures FlowScalar(input, Marker(0, 1, 0), true) == Failed(QuotedEndOfStream)
  {
    var m0 := Marker(0, 1, 0);
    var p := Pending([], [], [], false);
    RunTakes(input, 1, true, "", "a");
    RunTakes(input, 2, true, "a", "ab");
    RunStops(input, 3, true, "ab");
    ScalarContinues(input, m0, 1, true, "", "ab", 3, false, 3, p);
    assert "ab" + Joined(p) == "ab";
  }

  /** `"\q"`: an escape letter that YAML does not define is an error. */
  lemma UnknownEscapeExample(input: string)
    requires input == "\"\\q\""
    ensures FlowScalar(input, Marker(0, 1, 0), false) == Failed(UnknownEscape)
  {
    assert QuotedEscape(input, 1) == Failed(UnknownEscape);
    assert QuotedRunStep(input, 1, false, "") == Stopped(RunFailed(UnknownEscape));
    assert QuotedTurn(input, Marker(0, 1, 0), 1, false, "") == TurnFailed(UnknownEscape);
  }

  /** `'a⏎--- b'`: a document marker at the start of a line inside a quoted
      scalar is an error. */
  lemma DocumentIndicatorExample(input: string)
    requires input == "'a\n--- b'"
    ensures FlowScalar(input, Marker(0, 1, 0), true) == Failed(QuotedDocumentIndicator)
  {
    var m0 := Marker(0, 1, 0);
    var text := FirstLineFolded(input, m0);
    assert MarkAfter(input, m0, 3) == Marker(3, 2, 0);
    assert DocIndicatorAt(input, 3);
    ScalarAtIndicator(input, m0, 3, true, text);
  }

  /** In `'a⏎--- b'` the first line is read and its line break folded
      before the marker is reached. */
  lemma FirstLineFolded(input: string, m0: Marker) returns (text: string)
    requires input == "'a\n--- b'" && m0 == Marker(0, 1, 0)
    ensures text == "a " && FlowScalarFrom(input, m0, 1, true, []) == FlowScalarFrom(input, m0, 3, true, text)
  {
    var p := Pending([], "\n", [], true);
    RunTakes(input, 1, true, "", "a");
    RunStops(input, 2, true, "a");
    FirstBreak(input, 2);
    assert QuotedBlanks(input, 2, Pending([], [], [], false)) == (3, p);
    ScalarContinues(input, m0, 1, true, "", "a", 2, false, 3, p);
    text := "a" + Joined(p);
  }

  /** A '\n' seen before any other line break starts the fold. */
  lemma FirstBreak(input: seq<char>, i: nat)
    requires At(input, i) == '\n'
    ensures BlankStep(input, i, Pending([], [], [], false)) == (i + 1, Pending([], "\n", [], true))
  {
    assert [] + "\n" == "\n";
  }
}

/** Reference definitions for `scan_plain_scalar` (plain style, section
    7.3.3 of YAML 1.2).  Like the quoted scanner it alternates a run of
    non-blank characters with a stretch of white space, but the pending
    white space survives from one turn to the next and is only added to the
    text when another run starts; the scalar ends at an indicator, a
    comment, a document marker, or a line indented no deeper than its
    parent. */
module PlainScalars {
  import opened Funcs
  import opened Markers
  import opened Tokens
  import opened Decoders
  import opened Scalars
  import opened FlowScalars

  /** An indicator that ends the run at `c` (followed by `next`): ':' before
      white space, or (inside a flow collection) before a flow indicator;
      inside a flow collection also a flow indicator itself. */
  predicate PlainStop(c: char, next: char, inFlow: bool) {
    (c == ':' && (IsBlankz(next) || (inFlow && IsFlow(next)))) || (inFlow && IsFlow(c))
  }

  /** `s` ends in a character that is neither white space nor '\0'. */
  predicate EndsInText(s: string) {
    |s| > 0 && !IsBlankz(s[|s| - 1])
  }

  /** The pending white space once it has been added to the text: after a
      line break the break buffers are emptied and the fold is over;
      otherwise the blanks are emptied. */
  function Flushed(p: Pending): (q: Pending)
    ensures !q.leadingBlanks && q.leadingBreak == (if p.leadingBlanks then [] else p.leadingBreak)
  {
    if p.leadingBlanks then p.(leadingBreak := [], trailingBreaks := [], leadingBlanks := false)
    else p.(whitespaces := [])
  }

  /** The non-blank loop from position `i`: each character is appended to
      `text`, preceded by the folded pending white space when there is
      some; stops at white space, '\0' or an indicator.  Gives where it
      stopped, the text and what is still pending. */
  function PlainRun(input: seq<char>, i: nat, inFlow: bool, text: string, p: Pending): (r: (nat, string, Pending))
    ensures i <= r.0
    ensures IsBlankz(At(input, r.0)) || PlainStop(At(input, r.0), At(input, r.0 + 1), inFlow)
    ensures r.0 == i ==> r.1 == text && r.2 == p
    ensures r.1 == text || EndsInText(r.1)
    decreases |input| - i
  {
    var c := At(input, i);
    if IsBlankz(c) || PlainStop(c, At(input, i + 1), inFlow) then (i, text, p)
    else
      var t := if p.leadingBlanks || p.whitespaces != [] then text + Joined(p) else text;
      var q := if p.leadingBlanks || p.whitespaces != [] then Flushed(p) else p;
      PlainRun(input, i + 1, inFlow, t + [c], q)
  }

  /** The white-space loop of a plain scalar: what is left after it, or a
      tab met in the indentation of a continuation line. */
  datatype Blanks = Blanks(next: nat, pending: Pending) | TabInIndent

  /** The white-space loop from position `i` of the scalar that starts at
      `m0`: blanks and line breaks go into the pending white space as in
      the quoted scanner; a tab after a line break in a column left of
      `indent` is an error. */
  function PlainBlanks(input: seq<char>, m0: Marker, i: nat, indent: int, p: Pending): (r: Blanks)
    requires m0.index <= i
    ensures r.Blanks? ==> i <= r.next && !IsBlank(At(input, r.next)) && !IsBreak(At(input, r.next))
    ensures r.Blanks? && (IsBlank(At(input, i)) || IsBreak(At(input, i))) ==> i < r.next
    ensures r.Blanks? && r.next == i ==> r.pending == p
    ensures r.Blanks? && p.leadingBlanks ==> r.pending.leadingBlanks
    decreases |input| - i
  {
    var c := At(input, i);
    if IsBlank(c) && p.leadingBlanks && MarkAfter(input, m0, i).col < indent && c == '\t' then TabInIndent
    else if IsBlank(c) || IsBreak(c) then
      var s := BlankStep(input, i, p);
      PlainBlanks(input, m0, s.0, indent, s.1)
    else Blanks(i, p)
  }

  /** What one turn of `scan_plain_scalar`'s loop reaches: the next turn's
      position, text and pending white space, or the end of the scalar, or
      the tab error. */
  datatype PlainTurn = Again(next: nat, text: string, pending: Pending) | Ended(next: nat, text: string, pending: Pending) | TabFailed

  /** One turn from position `i` of the plain scalar that starts at `m0`,
      `indent` being one more than the indentation of its parent.  The
      scalar ends before a document indicator at the start of a line,
      before a '#', at an indicator or '\0' after a run, and (outside flow
      collections) when the white space ends left of `indent`. */
  function PlainTurnAt(input: seq<char>, m0: Marker, i: nat, inFlow: bool, indent: int, text: string, p: Pending): (r: PlainTurn)
    requires m0.index <= i
    ensures r.Again? ==> i < r.next
    ensures r.Ended? ==> i <= r.next
  {
    if MarkAfter(input, m0, i).col == 0 && DocIndicatorAt(input, i) then Ended(i, text, p)
    else if At(input, i) == '#' then Ended(i, text, p)
    else
      var run := PlainRun(input, i, inFlow, text, p);
      if !(IsBlank(At(input, run.0)) || IsBreak(At(input, run.0))) then Ended(run.0, run.1, run.2)
      else match PlainBlanks(input, m0, run.0, indent, run.2)
        case TabInIndent => TabFailed
        case Blanks(k, q) =>
          if !inFlow && MarkAfter(input, m0, k).col < indent then Ended(k, run.1, q)
          else Again(k, run.1, q)
  }

  /** A plain scalar read: its text, the position after what was consumed,
      and whether it ended in white space that contained a line break (then
      a simple key is allowed again); or the tab error. */
  datatype PlainResult = PlainRead(text: string, next: nat, leadingBlanks: bool) | PlainTabError

  /** The plain scalar that starts at `m0`, scanned on from `i` with
      `text` read and `p` pending. */
  function PlainFrom(input: seq<char>, m0: Marker, i: nat, inFlow: bool, indent: int, text: string, p: Pending): (r: PlainResult)
    requires m0.index <= i
    ensures r.PlainRead? ==> i <= r.next
    decreases |input| - i
  {
    match PlainTurnAt(input, m0, i, inFlow, indent, text, p)
    case TabFailed => PlainTabError
    case Ended(k, t, q) => PlainRead(t, k, q.leadingBlanks)
    case Again(k, t, q) => PlainFrom(input, m0, k, inFlow, indent, t, q)
  }

  /** `scan_plain_scalar` at `m0`, inside a flow collection or not, with
      the scanner's indentation `indent`. */
  function PlainScalar(input: seq<char>, m0: Marker, inFlow: bool, indent: int): (r: PlainResult)
    ensures r.PlainRead? ==> m0.index <= r.next
  {
    PlainFrom(input, m0, m0.index, inFlow, indent + 1, [], Pending([], [], [], false))
  }

  /** Where the plain scanner consumes at least one character: not at a
      document indicator at the start of a line nor at a '#', and either at
      white space or at a character that does not end a run. */
  predicate PlainConsumes(input: seq<char>, i: nat, inFlow: bool, col: nat) {
    !(col == 0 && DocIndicatorAt(input, i)) && At(input, i) != '#' &&
    (IsBlank(At(input, i)) || IsBreak(At(input, i)) ||
     (!IsBlankz(At(input, i)) && !PlainStop(At(input, i), At(input, i + 1), inFlow)))
  }

  /** A plain scalar never ends in white space: the folded white space is
      added to the text only when a run follows it (section 7.3.3 of YAML
      1.2: plain scalars exclude trailing white space). */
  lemma {:induction false} PlainFromEndsInText(input: seq<char>, m0: Marker, i: nat, inFlow: bool, indent: int, text: string, p: Pending)
    requires m0.index <= i && (text == [] || EndsInText(text))
    ensures var r := PlainFrom(input, m0, i, inFlow, indent, text, p);
      r.PlainRead? ==> r.text == [] || EndsInText(r.text)
    decreases |input| - i
  {
    match PlainTurnAt(input, m0, i, inFlow, indent, text, p)
    case TabFailed =>
    case Ended(k, t, q) =>
    case Again(k, t, q) => PlainFromEndsInText(input, m0, k, inFlow, indent, t, q);
  }

  lemma PlainScalarEndsInText(input: seq<char>, m0: Marker, inFlow: bool, indent: int)
    ensures var r := PlainScalar(input, m0, inFlow, indent);
      r.PlainRead? ==> r.text == [] || EndsInText(r.text)
  {
    PlainFromEndsInText(input, m0, m0.index, inFlow, indent + 1, [], Pending([], [], [], false));
  }

  /** Where `PlainConsumes` holds, a plain scalar that is read consumes at
      least one character, so the scanner's main loop makes progress. */
  lemma PlainScalarConsumes(input: seq<char>, m0: Marker, inFlow: bool, indent: int)
    requires PlainConsumes(input, m0.index, inFlow, m0.col)
    ensures var r := PlainScalar(input, m0, inFlow, indent);
      r.PlainRead? ==> m0.index < r.next
  {
    var i := m0.index;
    var p0 := Pending([], [], [], false);
    assert MarkAfter(input, m0, i) == m0;
    var run := PlainRun(input, i, inFlow, [], p0);
    if run.0 == i {
      assert IsBlank(At(input, i)) || IsBreak(At(input, i));
    }
    match PlainTurnAt(input, m0, i, inFlow, indent + 1, [], p0)
    case TabFailed =>
    case Ended(k, t, q) =>
    case Again(k, t, q) =>
  }

  /** `a b` at the top level is one scalar with its inner space kept. */
  lemma PlainWordsExample(input: string)
    requires input == "a b"
    ensures PlainScalar(input, Marker(0, 1, 0), false, -1) == PlainRead("a b", 3, false)
  {
    var m0 := Marker(0, 1, 0);
    var p0 := Pending([], [], [], false);
    var p1 := Pending(" ", [], [], false);
    RunTake(input, 0, false, [], p0);
    RunStop(input, 1, false, [] + [At(input, 0)], p0);
    assert [] + [At(input, 0)] == "a";
    assert PlainBlanks(input, m0, 2, 0, p1) == Blanks(2, p1);
    assert PlainBlanks(input, m0, 1, 0, p0) == Blanks(2, p1);
    assert MarkAfter(input, m0, 1).col == 1;
    assert MarkAfter(input, m0, 2).col == 2;
    assert PlainTurnAt(input, m0, 0, false, 0, [], p0) == Again(2, "a", p1);
    assert "a" + Joined(p1) + [At(input, 2)] == "a b";
    RunStop(input, 3, false, "a b", p0);
    assert PlainRun(input, 2, false, "a", p1) == (3, "a b", p0);
    assert PlainTurnAt(input, m0, 2, false, 0, "a", p1) == Ended(3, "a b", p0);
  }

  /** `a:,b` inside a flow collection: the ':' before a ',' ends the
      scalar. */
  lemma PlainColonInFlowExample(input: string)
    requires input == "a:,b"
    ensures PlainScalar(input, Marker(0, 1, 0), true, -1) == PlainRead("a", 1, false)
  {
    var m0 := Marker(0, 1, 0);
    var p0 := Pending([], [], [], false);
    assert MarkAfter(input, m0, 0) == m0;
    RunTake(input, 0, true, [], p0);
    RunStop(input, 1, true, [] + [At(input, 0)], p0);
    assert [] + [At(input, 0)] == "a";
    assert PlainTurnAt(input, m0, 0, true, 0, [], p0) == Ended(1, "a", p0);
  }

  /** `a:,b` outside flow collections: a ':' that is not followed by white
      space is part of the scalar, and so is ','. */
  lemma PlainColonInBlockExample(input: string)
    requires input == "a:,b"
    ensures PlainScalar(input, Marker(0, 1, 0), false, -1) == PlainRead("a:,b", 4, false)
  {
    var m0 := Marker(0, 1, 0);
    var p0 := Pending([], [], [], false);
    assert MarkAfter(input, m0, 0) == m0;
    RunTake(input, 0, false, [], p0);
    RunTake(input, 1, false, "a", p0);
    RunTake(input, 2, false, "a:", p0);
    RunTake(input, 3, false, "a:,", p0);
    RunStop(input, 4, false, "a:,b", p0);
    assert [] + [At(input, 0)] == "a";
    assert "a" + [At(input, 1)] == "a:" && "a:" + [At(input, 2)] == "a:," && "a:," + [At(input, 3)] == "a:,b";
    assert PlainTurnAt(input, m0, 0, false, 0, [], p0) == Ended(4, "a:,b", p0);
  }

  /** `a⏎b` where the scalar must be indented past column 0: the line break
      ends it, and the break is left pending, so a simple key is allowed
      after it. */
  lemma PlainIndentEndExample(input: string)
    requires input == "a\nb"
    ensures PlainScalar(input, Marker(0, 1, 0), false, 0) == PlainRead("a", 2, true)
  {
    var m0 := Marker(0, 1, 0);
    var p0 := Pending([], [], [], false);
    var p1 := Pending([], "\n", [], true);
    RunTake(input, 0, false, [], p0);
    RunStop(input, 1, false, [] + [At(input, 0)], p0);
    assert [] + [At(input, 0)] == "a";
    FirstBreak(input, 1);
    assert MarkAfter(input, m0, 1).col == 1;
    assert PlainBlanks(input, m0, 2, 1, p1) == Blanks(2, p1);
    assert PlainBlanks(input, m0, 1, 1, p0) == Blanks(2, p1);
    assert MarkAfter(input, m0, 2).col == 0;
    assert PlainTurnAt(input, m0, 0, false, 1, [], p0) == Ended(2, "a", p1);
  }

  /** `a⏎⇥b` where the scalar must be indented past column 0: a tab in the
      indentation of the continuation line is an error. */
  lemma PlainTabExample(input: string)
    requires input == "a\n\tb"
    ensures PlainScalar(input, Marker(0, 1, 0), false, 0) == PlainTabError
  {
    var m0 := Marker(0, 1, 0);
    var p0 := Pending([], [], [], false);
    var p1 := Pending([], "\n", [], true);
    RunTake(input, 0, false, [], p0);
    RunStop(input, 1, false, [] + [At(input, 0)], p0);
    FirstBreak(input, 1);
    assert MarkAfter(input, m0, 1).col == 1;
    assert MarkAfter(input, m0, 2).col == 0;
    assert PlainBlanks(input, m0, 2, 1, p1) == TabInIndent;
    assert PlainBlanks(input, m0, 1, 1, p0) == TabInIndent;
    assert PlainTurnAt(input, m0, 0, false, 1, [], p0) == TabFailed;
  }

  /** A run with nothing pending takes the character at `i` as it is. */
  lemma RunTake(input: seq<char>, i: nat, inFlow: bool, text: string, p: Pending)
    requires !IsBlankz(At(input, i)) && !PlainStop(At(input, i), At(input, i + 1), inFlow)
    requires p == Pending([], [], [], false)
    ensures PlainRun(input, i, inFlow, text, p) == PlainRun(input, i + 1, inFlow, text + [At(input, i)], p)
  {
  }

  /** A run stops at white space, '\0' or an indicator. */
  lemma RunStop(input: seq<char>, i: nat, inFlow: bool, text: string, p: Pending)
    requires IsBlankz(At(input, i)) || PlainStop(At(input, i), At(input, i + 1), inFlow)
    ensures PlainRun(input, i, inFlow, text, p) == (i, text, p)
  {
  }
}

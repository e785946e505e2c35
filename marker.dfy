/** A position in the character stream: how many characters were consumed,
    and the line (from 1 for the scanner) and column (from 0) reached.
    Copied by value; only the scanner's `skip` and end-of-stream handling
    update it. */
module Markers {

  datatype Marker = Marker(index: nat, line: nat, col: nat)

  /** The constructor: each accessor returns the argument it was built from. */
  function New(index: nat, line: nat, col: nat): (m: Marker)
    ensures Index(m) == index && Line(m) == line && Col(m) == col
  {
    Marker(index, line, col)
  }

  function Index(m: Marker): nat {
    m.index
  }

  function Line(m: Marker): nat {
    m.line
  }

  function Col(m: Marker): nat {
    m.col
  }

  /** Two markers are equal exactly when index, line and column agree. */
  lemma EqualIffFieldsEqual(a: Marker, b: Marker)
    ensures a == b <==> (Index(a) == Index(b) && Line(a) == Line(b) && Col(a) == Col(b))
  {
  }

  /** The position after consuming `c`: one character further, and either the
      start of the next line (after '\n') or the next column of this line.
      A lone '\r' counts as an ordinary column, as in the source. */
  function Advance(m: Marker, c: char): (r: Marker)
    ensures r.index == m.index + 1
    ensures c == '\n' ==> r.line == m.line + 1 && r.col == 0
    ensures c != '\n' ==> r.line == m.line && r.col == m.col + 1
  {
    if c == '\n' then Marker(m.index + 1, m.line + 1, 0)
    else Marker(m.index + 1, m.line, m.col + 1)
  }

  /** `a` is strictly before `b` in reading order (earlier line, or same line
      and smaller column). */
  predicate Before(a: Marker, b: Marker) {
    a.line < b.line || (a.line == b.line && a.col < b.col)
  }

  /** `a` is not after `b` and `b` consumed at least as much as `a`. */
  predicate Moved(a: Marker, b: Marker) {
    a.index <= b.index && (a.line < b.line || (a.line == b.line && a.col <= b.col))
  }

  /** `b` consumed strictly more than `a` and is strictly later. */
  predicate Advanced(a: Marker, b: Marker) {
    a.index < b.index && Before(a, b)
  }

  /** `b` is `a` or strictly later: what any sequence of `skip`s leaves. */
  predicate Progressed(a: Marker, b: Marker) {
    a == b || Advanced(a, b)
  }

  /** Consuming one character always moves the position strictly forward. */
  lemma AdvanceIsAdvanced(m: Marker, c: char)
    ensures Advanced(m, Advance(m, c))
  {
  }

  /** The position after consuming every character of `s` in turn. */
  function AdvanceAll(m: Marker, s: seq<char>): (r: Marker)
    decreases |s|
  {
    if s == [] then m else AdvanceAll(Advance(m, s[0]), s[1..])
  }

  function CountNewlines(s: seq<char>): nat {
    if s == [] then 0 else (if s[0] == '\n' then 1 else 0) + CountNewlines(s[1..])
  }

  /** Consuming `s` advances the index by |s| and the line by the number of
      '\n' characters in `s`. */
  lemma {:induction false} AdvanceAllCounts(m: Marker, s: seq<char>)
    ensures AdvanceAll(m, s).index == m.index + |s|
    ensures AdvanceAll(m, s).line == m.line + CountNewlines(s)
    decreases |s|
  {
    if s != [] {
      AdvanceAllCounts(Advance(m, s[0]), s[1..]);
    }
  }

  /** On a stretch without '\n' the column grows by the number of characters. */
  lemma {:induction false} AdvanceAllSameLine(m: Marker, s: seq<char>)
    requires '\n' !in s
    ensures AdvanceAll(m, s) == Marker(m.index + |s|, m.line, m.col + |s|)
    decreases |s|
  {
    if s != [] {
      assert '\n' !in s[1..] by {
        forall i | 0 <= i < |s[1..]| ensures s[1..][i] != '\n' {
          assert s[1..][i] == s[i + 1];
        }
      }
      AdvanceAllSameLine(Advance(m, s[0]), s[1..]);
    }
  }

  /** After a '\n' the column counts only the characters following it. */
  lemma {:induction false} AdvanceAllAfterNewline(m: Marker, s: seq<char>, t: seq<char>)
    requires '\n' !in t
    ensures AdvanceAll(m, s + ['\n'] + t).col == |t|
    decreases |s|
  {
    if s == [] {
      assert s + ['\n'] + t == ['\n'] + t;
      assert (['\n'] + t)[1..] == t;
      AdvanceAllSameLine(Advance(m, '\n'), t);
    } else {
      assert (s + ['\n'] + t)[1..] == s[1..] + ['\n'] + t;
      AdvanceAllAfterNewline(Advance(m, s[0]), s[1..], t);
    }
  }

  /** Consuming one more character after `s` is one more `Advance`. */
  lemma {:induction false} AdvanceAllSnoc(m: Marker, s: seq<char>, c: char)
    ensures AdvanceAll(m, s + [c]) == Advance(AdvanceAll(m, s), c)
    decreases |s|
  {
    if s == [] {
      assert [] + [c] == [c];
    } else {
      assert (s + [c])[1..] == s[1..] + [c];
      AdvanceAllSnoc(Advance(m, s[0]), s[1..], c);
    }
  }
}

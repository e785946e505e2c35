/** The block-style YAML writer of `src/emitter.rs`.  A `YamlEmitter`
    appends text to a writer while it walks a document tree; its `level`
    counts the block collections it is inside and sets the indentation, two
    spaces per level.  What each method leaves in the writer is given by a
    function of the writer's earlier content, the tree, the level and the
    `compact` switch, and the lemmas below are stated about those functions. */
module Emitting {
  import opened Funcs
  import opened Tokens
  import opened Decoders

  /** The document tree of the loader module, which is not part of this
      model.  A hash is an insertion-ordered list of key/value pairs; a
      `Real` keeps the spelling it was read with. */
  datatype Yaml =
    | Real(repr: string)
    | Integer(value: int)
    | String(text: string)
    | Boolean(b: bool)
    | Array(items: seq<Yaml>)
    | Hash(entries: seq<(Yaml, Yaml)>)
    | Alias(id: nat)
    | Null
    | BadValue
    | Comment(comment: string, inline: bool)

  predicate IsInlineComment(y: Yaml) {
    y.Comment? && y.inline
  }

  /** How strings are written: `need_quotes` and `escape_str` come from a
      helper module that is not part of this model, so they are parameters. */
  datatype Quoting = Quoting(needQuotes: string -> bool, escape: string -> string)

  /** `emit_value` refuses a comment, so no hash may map a key to a comment,
      at any depth, where the value is written.  The value of a comment key
      is never written (the key alone is, or it is skipped), so it is not
      constrained. */
  predicate Emittable(y: Yaml)
    decreases y
  {
    match y
    case Array(v) => forall i :: 0 <= i < |v| ==> Emittable(v[i])
    case Hash(h) => forall i :: 0 <= i < |h| ==>
      h[i].0.Comment? || (!h[i].1.Comment? && Emittable(h[i].0) && Emittable(h[i].1))
    case _ => true
  }

  /** `best_indent`: the spaces per nesting level. */
  const BestIndent: nat := 2

  /** The width `emit_indent` writes at `level`: nothing at level 0 and
      below (the top level is -1). */
  function IndentWidth(level: int): (n: nat)
    ensures level > 0 ==> n == level * 2
    ensures level <= 0 ==> n == 0
  {
    if level > 0 then level * 2 else 0
  }

  function Spaces(n: nat): (s: string)
    ensures |s| == n
  {
    if n == 0 then [] else Spaces(n - 1) + " "
  }

  /** The decimal spelling of a natural number. */
  function DecimalText(n: nat): (s: string)
    ensures |s| > 0 && AllDigits(s)
  {
    if n < 10 then [HexDigit(n)] else DecimalText(n / 10) + [HexDigit(n % 10)]
  }

  /** Reading the spelling back gives the number. */
  lemma {:induction false} DecimalTextValue(n: nat)
    ensures DecimalValue(DecimalText(n)) == n
  {
    if n >= 10 {
      DecimalTextValue(n / 10);
      DecimalSnoc(DecimalText(n / 10), HexDigit(n % 10));
    }
  }

  /** `Display` of an `i64`: an optional minus sign, then the digits. */
  function IntText(v: int): (s: string)
    ensures v < 0 ==> |s| >= 2 && s[0] == '-' && s[1..] == DecimalText(-v)
    ensures v >= 0 ==> s == DecimalText(v)
  {
    if v < 0 then "-" + DecimalText(-v) else DecimalText(v)
  }

  /** `emit_indent`: the writer `w` followed by the indentation of `level`. */
  function Indent(w: string, level: int): string {
    w + Spaces(IndentWidth(level))
  }

  /** `emit_line_begin`: a new line, indented for `level`. */
  function LineBegin(w: string, level: int): string {
    Indent(w + "\n", level)
  }

  /** `emit_value_indent`: one space when the value follows a short
      indicator in compact mode, else a new line indented one level deeper. */
  function ValueIndent(w: string, inline: bool, compact: bool, level: int): string {
    if inline && compact then w + " " else Indent(w + "\n", level + 1)
  }

  /** What `emit_node` writes for a node that is not a collection; an alias
      writes nothing. */
  function LeafText(q: Quoting, y: Yaml): string
    requires !y.Array? && !y.Hash?
  {
    match y
    case String(s) => if q.needQuotes(s) then q.escape(s) else s
    case Boolean(b) => if b then "true" else "false"
    case Integer(v) => IntText(v)
    case Real(r) => r
    case Comment(c, inline) => if inline then " #" + c else "#" + c
    case Null => "~"
    case BadValue => "~"
    case Alias(_) => []
  }

  /** `emit_node`: the writer `w` after writing node `y` at nesting level
      `level`. */
  function WriteNode(q: Quoting, w: string, y: Yaml, level: int, compact: bool): string
    decreases y, 4
  {
    match y
    case Array(_) => WriteArray(q, w, y, 0, level, compact)
    case Hash(_) => WriteHash(q, w, y, level, compact)
    case _ => w + LeafText(q, y)
  }

  /** `emit_array` on the items of `y` from `from` on. */
  function WriteArray(q: Quoting, w: string, y: Yaml, from: nat, level: int, compact: bool): string
    requires y.Array? && from <= |y.items|
    decreases y, 3
  {
    if from == |y.items| then w + "[]" else WriteItems(q, w, y, from, true, level + 1, compact)
  }

  /** Where the next turn of `emit_array`'s loop starts after the turn
      at item `i`: an inline comment right after an entry is written with
      it (`next_if`), so that turn takes two items. */
  function ItemNext(y: Yaml, i: nat, first: bool): (n: nat)
    requires y.Array? && i < |y.items|
    ensures i < n <= |y.items|
  {
    var e := y.items[i];
    if !(first && IsInlineComment(e)) && !e.Comment? && i + 1 < |y.items| && IsInlineComment(y.items[i + 1])
    then i + 2 else i + 1
  }

  /** `emit_array`'s loop from item `i` on, at the level inside the
      sequence; `first` while no item was written yet (the source's
      `idx == -1`). */
  function WriteItems(q: Quoting, w: string, y: Yaml, i: nat, first: bool, level: int, compact: bool): string
    requires y.Array? && i <= |y.items|
    decreases y, 2, |y.items| - i
  {
    if i == |y.items| then w
    else
      WriteItems(q, WriteItem(q, w, y, i, first, level, compact), y, ItemNext(y, i, first),
                 first && IsInlineComment(y.items[i]), level, compact)
  }

  /** One turn of `emit_array`'s loop, at item `i`.  Leading inline comments
      belong to the parent and are skipped; items after the first start on
      a new line; a comment is written as it is, any other item as `-` and
      the value, followed by the inline comment after it, if any. */
  function WriteItem(q: Quoting, w: string, y: Yaml, i: nat, first: bool, level: int, compact: bool): string
    requires y.Array? && i < |y.items|
    decreases y, 1
  {
    var e := y.items[i];
    if first && IsInlineComment(e) then w
    else
      var w1 := if first then w else LineBegin(w, level);
      if e.Comment? then WriteNode(q, w1, e, level, compact)
      else
        var w2 := WriteValue(q, w1 + "-", true, e, level, compact);
        if ItemNext(y, i, first) == i + 2 then WriteNode(q, w2, y.items[i + 1], level, compact) else w2
  }

  /** `emit_hash` on the entries of `y`. */
  function WriteHash(q: Quoting, w: string, y: Yaml, level: int, compact: bool): string
    requires y.Hash?
    decreases y, 3
  {
    if y.entries == [] then w + "{}" else WritePairs(q, w, y, 0, true, level + 1, compact)
  }

  /** Where the next turn of `emit_hash`'s loop starts after the turn at
      entry `i`. */
  function PairNext(y: Yaml, i: nat, first: bool): (n: nat)
    requires y.Hash? && i < |y.entries|
    ensures i < n <= |y.entries|
  {
    var k := y.entries[i].0;
    if !(first && IsInlineComment(k)) && !k.Comment? && i + 1 < |y.entries| && IsInlineComment(y.entries[i + 1].0)
    then i + 2 else i + 1
  }

  /** `emit_hash`'s loop from entry `i` on, at the level inside the mapping. */
  function WritePairs(q: Quoting, w: string, y: Yaml, i: nat, first: bool, level: int, compact: bool): string
    requires y.Hash? && i <= |y.entries|
    decreases y, 2, |y.entries| - i
  {
    if i == |y.entries| then w
    else
      WritePairs(q, WritePair(q, w, y, i, first, level, compact), y, PairNext(y, i, first),
                 first && IsInlineComment(y.entries[i].0), level, compact)
  }

  /** One turn of `emit_hash`'s loop, at entry `i`: as for sequences, with
      a comment key in place of a comment item and the entry in place of
      `-` and the value. */
  function WritePair(q: Quoting, w: string, y: Yaml, i: nat, first: bool, level: int, compact: bool): string
    requires y.Hash? && i < |y.entries|
    decreases y, 1
  {
    var k := y.entries[i].0;
    if first && IsInlineComment(k) then w
    else
      var w1 := if first then w else LineBegin(w, level);
      if k.Comment? then WriteNode(q, w1, k, level, compact)
      else
        var w2 := WriteEntry(q, w1, y, i, level, compact);
        if PairNext(y, i, first) == i + 2 then WriteNode(q, w2, y.entries[i + 1].0, level, compact) else w2
  }

  /** An entry whose key is not a comment: a collection key is written
      `?` and the key as a value, then on a new line `:` and the value;
      any other key is written as a node, followed directly by `:` and the
      value. */
  function WriteEntry(q: Quoting, w: string, y: Yaml, i: nat, level: int, compact: bool): string
    requires y.Hash? && i < |y.entries| && !y.entries[i].0.Comment?
    decreases y, 0
  {
    var (k, v) := y.entries[i];
    if k.Hash? || k.Array? then
      WriteValue(q, LineBegin(WriteValue(q, w + "?", true, k, level, compact), level) + ":", true, v, level, compact)
    else
      WriteValue(q, WriteNode(q, w, k, level, compact) + ":", false, v, level, compact)
  }

  /** `emit_value`: a node after a `-`, `?` or `:` indicator.  A collection
      that starts with an inline comment writes it first, since the comment
      belongs to the line of the indicator.  A comment is never a value in
      an emittable tree, and the source stops there; the writer is left as
      it is. */
  function WriteValue(q: Quoting, w: string, inline: bool, y: Yaml, level: int, compact: bool): string
    decreases y, 5
  {
    match y
    case Array(v) =>
      if v == [] then w + " []"
      else if IsInlineComment(v[0]) then
        WriteArray(q, ValueIndent(WriteNode(q, w, v[0], level, compact), inline, compact, level), y, 1, level, compact)
      else WriteArray(q, ValueIndent(w, inline, compact, level), y, 0, level, compact)
    case Hash(h) =>
      if h == [] then w + " {}"
      else
        var w1 := if IsInlineComment(h[0].0) then WriteNode(q, w, h[0].0, level, compact) else w;
        WriteHash(q, ValueIndent(w1, inline, compact, level), y, level, compact)
    case Comment(_, _) => w
    case _ => WriteNode(q, w + " ", y, level, compact)
  }

  /** The inline comment `dump` writes on the `---` line: the one that opens
      a top-level sequence, or keys the first entry of a top-level mapping. */
  function HeadComment(doc: Yaml): (c: Option<Yaml>)
    ensures c.Some? ==> IsInlineComment(c.value)
  {
    match doc
    case Array(v) => if v != [] && IsInlineComment(v[0]) then Some(v[0]) else None
    case Hash(h) => if h != [] && IsInlineComment(h[0].0) then Some(h[0].0) else None
    case _ => None
  }

  /** `dump`: the `---` line, then the document at level -1. */
  function WriteDump(q: Quoting, w: string, doc: Yaml, compact: bool): string
  {
    var w1 := match HeadComment(doc) case Some(c) => w + "---" + LeafText(q, c) case None => w + "---";
    WriteNode(q, w1 + "\n", doc, -1, compact)
  }

  /** Every character `Spaces` writes is a space. */
  lemma {:induction false} SpacesAreSpaces(n: nat)
    ensures forall i :: 0 <= i < n ==> Spaces(n)[i] == ' '
  {
    if n > 0 {
      SpacesAreSpaces(n - 1);
      assert Spaces(n) == Spaces(n - 1) + " ";
    }
  }

  /** `IndentWidth` grows with the level. */
  lemma IndentWidthMonotone(level: int)
    ensures IndentWidth(level) <= IndentWidth(level + 1)
  {
  }

  predicate NoBreak(s: string) {
    forall i :: 0 <= i < |s| ==> s[i] != '\n'
  }

  /** No leaf of `y` writes a line break: `escape_str`, `Display` of a real
      and comment texts are single lines. */
  predicate SingleLineLeaves(q: Quoting, y: Yaml)
    decreases y
  {
    match y
    case Array(v) => forall i :: 0 <= i < |v| ==> SingleLineLeaves(q, v[i])
    case Hash(h) => forall i :: 0 <= i < |h| ==> SingleLineLeaves(q, h[i].0) && SingleLineLeaves(q, h[i].1)
    case _ => NoBreak(LeafText(q, y))
  }

  /** `r` extends the writer `w`, and each line break written after `w` is
      followed by at least `n` spaces. */
  predicate Indented(w: string, r: string, n: nat) {
    w <= r &&
    forall i :: |w| <= i < |r| && r[i] == '\n' ==>
      i + n < |r| && forall j :: i < j <= i + n ==> r[j] == ' '
  }

  lemma IndentedFlat(w: string, s: string, n: nat)
    requires NoBreak(s)
    ensures Indented(w, w + s, n)
  {
    forall i | |w| <= i < |w + s|
      ensures (w + s)[i] != '\n'
    {
      assert (w + s)[i] == s[i - |w|];
    }
  }

  lemma IndentedTrans(a: string, b: string, c: string, n: nat)
    requires Indented(a, b, n) && Indented(b, c, n)
    ensures Indented(a, c, n)
  {
    forall i | |a| <= i < |c| && c[i] == '\n'
      ensures i + n < |c| && forall j :: i < j <= i + n ==> c[j] == ' '
    {
      if i < |b| {
        assert b[i] == c[i];
        assert forall j :: i < j <= i + n ==> b[j] == c[j];
      }
    }
  }

  lemma IndentedWeaken(a: string, b: string, n: nat, m: nat)
    requires Indented(a, b, n) && m <= n
    ensures Indented(a, b, m)
  {
  }

  /** `emit_line_begin` is followed by the indentation of its level. */
  lemma IndentedLineBegin(w: string, level: int)
    ensures Indented(w, LineBegin(w, level), IndentWidth(level))
  {
    var n := IndentWidth(level);
    var r := LineBegin(w, level);
    SpacesAreSpaces(n);
    assert r == w + ("\n" + Spaces(n));
    forall i | |w| <= i < |r| && r[i] == '\n'
      ensures i + n < |r| && forall j :: i < j <= i + n ==> r[j] == ' '
    {
      forall j | i < j <= i + n
        ensures r[j] == ' '
      {
        assert r[j] == Spaces(n)[j - |w| - 1];
      }
    }
  }

  lemma IndentedValueIndent(w: string, inline: bool, compact: bool, level: int)
    ensures Indented(w, ValueIndent(w, inline, compact, level), IndentWidth(level + 1))
  {
    if inline && compact {
      IndentedFlat(w, " ", IndentWidth(level + 1));
    } else {
      IndentedLineBegin(w, level + 1);
    }
  }

  /** Chaining two writes, the second of which indents at least as deep. */
  lemma IndentedChain(a: string, b: string, c: string, n: nat, m: nat)
    requires Indented(a, b, n) && Indented(b, c, m) && n <= m
    ensures Indented(a, c, n)
  {
    IndentedWeaken(b, c, m, n);
    IndentedTrans(a, b, c, n);
  }

  /** Block indentation: every line break a node writes at nesting level
      `level` is followed by the indentation of the level inside it, so the
      lines of a nested collection are indented deeper than its parent's. */
  lemma {:induction false} NodeIndented(q: Quoting, w: string, y: Yaml, level: int, compact: bool)
    requires SingleLineLeaves(q, y)
    ensures Indented(w, WriteNode(q, w, y, level, compact), IndentWidth(level + 1))
    decreases y, 4
  {
    match y
    case Array(_) => ArrayIndented(q, w, y, 0, level, compact);
    case Hash(_) => HashIndented(q, w, y, level, compact);
    case _ => IndentedFlat(w, LeafText(q, y), IndentWidth(level + 1));
  }

  lemma {:induction false} ArrayIndented(q: Quoting, w: string, y: Yaml, from: nat, level: int, compact: bool)
    requires y.Array? && from <= |y.items| && SingleLineLeaves(q, y)
    ensures Indented(w, WriteArray(q, w, y, from, level, compact), IndentWidth(level + 1))
    decreases y, 3
  {
    if from == |y.items| {
      IndentedFlat(w, "[]", IndentWidth(level + 1));
    } else {
      ItemsIndented(q, w, y, from, true, level + 1, compact);
    }
  }

  lemma {:induction false} ItemsIndented(q: Quoting, w: string, y: Yaml, i: nat, first: bool, level: int, compact: bool)
    requires y.Array? && i <= |y.items| && SingleLineLeaves(q, y)
    ensures Indented(w, WriteItems(q, w, y, i, first, level, compact), IndentWidth(level))
    decreases y, 2, |y.items| - i
  {
    if i < |y.items| {
      var w1 := WriteItem(q, w, y, i, first, level, compact);
      ItemIndented(q, w, y, i, first, level, compact);
      ItemsIndented(q, w1, y, ItemNext(y, i, first), first && IsInlineComment(y.items[i]), level, compact);
      IndentedTrans(w, w1, WriteItems(q, w, y, i, first, level, compact), IndentWidth(level));
    }
  }

  lemma {:induction false} ItemIndented(q: Quoting, w: string, y: Yaml, i: nat, first: bool, level: int, compact: bool)
    requires y.Array? && i < |y.items| && SingleLineLeaves(q, y)
    ensures Indented(w, WriteItem(q, w, y, i, first, level, compact), IndentWidth(level))
    decreases y, 1
  {
    var e := y.items[i];
    var n := IndentWidth(level);
    IndentWidthMonotone(level);
    if !(first && IsInlineComment(e)) {
      var w1 := if first then w else LineBegin(w, level);
      if !first {
        IndentedLineBegin(w, level);
      }
      assert SingleLineLeaves(q, e);
      if e.Comment? {
        NodeIndented(q, w1, e, level, compact);
        IndentedChain(w, w1, WriteNode(q, w1, e, level, compact), n, IndentWidth(level + 1));
      } else {
        IndentedFlat(w1, "-", n);
        IndentedTrans(w, w1, w1 + "-", n);
        var w2 := WriteValue(q, w1 + "-", true, e, level, compact);
        ValueIndented(q, w1 + "-", true, e, level, compact);
        IndentedChain(w, w1 + "-", w2, n, IndentWidth(level + 1));
        if ItemNext(y, i, first) == i + 2 {
          assert SingleLineLeaves(q, y.items[i + 1]);
          NodeIndented(q, w2, y.items[i + 1], level, compact);
          IndentedChain(w, w2, WriteNode(q, w2, y.items[i + 1], level, compact), n, IndentWidth(level + 1));
        }
      }
    }
  }

  lemma {:induction false} HashIndented(q: Quoting, w: string, y: Yaml, level: int, compact: bool)
    requires y.Hash? && SingleLineLeaves(q, y)
    ensures Indented(w, WriteHash(q, w, y, level, compact), IndentWidth(level + 1))
    decreases y, 3
  {
    if y.entries == [] {
      IndentedFlat(w, "{}", IndentWidth(level + 1));
    } else {
      PairsIndented(q, w, y, 0, true, level + 1, compact);
    }
  }

  lemma {:induction false} PairsIndented(q: Quoting, w: string, y: Yaml, i: nat, first: bool, level: int, compact: bool)
    requires y.Hash? && i <= |y.entries| && SingleLineLeaves(q, y)
    ensures Indented(w, WritePairs(q, w, y, i, first, level, compact), IndentWidth(level))
    decreases y, 2, |y.entries| - i
  {
    if i < |y.entries| {
      var w1 := WritePair(q, w, y, i, first, level, compact);
      PairIndented(q, w, y, i, first, level, compact);
      PairsIndented(q, w1, y, PairNext(y, i, first), first && IsInlineComment(y.entries[i].0), level, compact);
      IndentedTrans(w, w1, WritePairs(q, w, y, i, first, level, compact), IndentWidth(level));
    }
  }

  lemma {:induction false} PairIndented(q: Quoting, w: string, y: Yaml, i: nat, first: bool, level: int, compact: bool)
    requires y.Hash? && i < |y.entries| && SingleLineLeaves(q, y)
    ensures Indented(w, WritePair(q, w, y, i, first, level, compact), IndentWidth(level))
    decreases y, 1
  {
    var k := y.entries[i].0;
    var n := IndentWidth(level);
    IndentWidthMonotone(level);
    if !(first && IsInlineComment(k)) {
      var w1 := if first then w else LineBegin(w, level);
      if !first {
        IndentedLineBegin(w, level);
      }
      assert SingleLineLeaves(q, k);
      if k.Comment? {
        NodeIndented(q, w1, k, level, compact);
        IndentedChain(w, w1, WriteNode(q, w1, k, level, compact), n, IndentWidth(level + 1));
      } else {
        var w2 := WriteEntry(q, w1, y, i, level, compact);
        EntryIndented(q, w1, y, i, level, compact);
        IndentedTrans(w, w1, w2, n);
        if PairNext(y, i, first) == i + 2 {
          assert SingleLineLeaves(q, y.entries[i + 1].0);
          NodeIndented(q, w2, y.entries[i + 1].0, level, compact);
          IndentedChain(w, w2, WriteNode(q, w2, y.entries[i + 1].0, level, compact), n, IndentWidth(level + 1));
        }
      }
    }
  }

  lemma {:induction false} EntryIndented(q: Quoting, w: string, y: Yaml, i: nat, level: int, compact: bool)
    requires y.Hash? && i < |y.entries| && !y.entries[i].0.Comment? && SingleLineLeaves(q, y)
    ensures Indented(w, WriteEntry(q, w, y, i, level, compact), IndentWidth(level))
    decreases y, 0
  {
    var (k, v) := y.entries[i];
    var n := IndentWidth(level);
    IndentWidthMonotone(level);
    assert SingleLineLeaves(q, k) && SingleLineLeaves(q, v);
    if k.Hash? || k.Array? {
      IndentedFlat(w, "?", n);
      var w1 := WriteValue(q, w + "?", true, k, level, compact);
      ValueIndented(q, w + "?", true, k, level, compact);
      IndentedChain(w, w + "?", w1, n, IndentWidth(level + 1));
      var w2 := LineBegin(w1, level);
      IndentedLineBegin(w1, level);
      IndentedTrans(w, w1, w2, n);
      IndentedFlat(w2, ":", n);
      IndentedTrans(w, w2, w2 + ":", n);
      ValueIndented(q, w2 + ":", true, v, level, compact);
      IndentedChain(w, w2 + ":", WriteValue(q, w2 + ":", true, v, level, compact), n, IndentWidth(level + 1));
    } else {
      var w1 := WriteNode(q, w, k, level, compact);
      NodeIndented(q, w, k, level, compact);
      IndentedWeaken(w, w1, IndentWidth(level + 1), n);
      IndentedFlat(w1, ":", n);
      IndentedTrans(w, w1, w1 + ":", n);
      ValueIndented(q, w1 + ":", false, v, level, compact);
      IndentedChain(w, w1 + ":", WriteValue(q, w1 + ":", false, v, level, compact), n, IndentWidth(level + 1));
    }
  }

  /** The collection part of `emit_value` on a sequence, from item `from`. */
  lemma {:induction false} ValueArrayIndented(q: Quoting, w: string, inline: bool, y: Yaml, from: nat, level: int, compact: bool)
    requires y.Array? && from <= |y.items| && SingleLineLeaves(q, y)
    ensures Indented(w, WriteArray(q, ValueIndent(w, inline, compact, level), y, from, level, compact), IndentWidth(level + 1))
    decreases y, 4
  {
    var w1 := ValueIndent(w, inline, compact, level);
    IndentedValueIndent(w, inline, compact, level);
    ArrayIndented(q, w1, y, from, level, compact);
    IndentedTrans(w, w1, WriteArray(q, w1, y, from, level, compact), IndentWidth(level + 1));
  }

  lemma {:induction false} ValueIndented(q: Quoting, w: string, inline: bool, y: Yaml, level: int, compact: bool)
    requires SingleLineLeaves(q, y)
    ensures Indented(w, WriteValue(q, w, inline, y, level, compact), IndentWidth(level + 1))
    decreases y, 5
  {
    var n := IndentWidth(level + 1);
    match y
    case Array(v) =>
      if v == [] {
        IndentedFlat(w, " []", n);
      } else {
        if IsInlineComment(v[0]) {
          var w1 := WriteNode(q, w, v[0], level, compact);
          assert SingleLineLeaves(q, v[0]);
          NodeIndented(q, w, v[0], level, compact);
          ValueArrayIndented(q, w1, inline, y, 1, level, compact);
          IndentedTrans(w, w1, WriteValue(q, w, inline, y, level, compact), n);
        } else {
          ValueArrayIndented(q, w, inline, y, 0, level, compact);
        }
      }
    case Hash(h) =>
      if h == [] {
        IndentedFlat(w, " {}", n);
      } else {
        var w1 := if IsInlineComment(h[0].0) then WriteNode(q, w, h[0].0, level, compact) else w;
        if IsInlineComment(h[0].0) {
          assert SingleLineLeaves(q, h[0].0);
          NodeIndented(q, w, h[0].0, level, compact);
        }
        var w2 := ValueIndent(w1, inline, compact, level);
        IndentedValueIndent(w1, inline, compact, level);
        IndentedTrans(w, w1, w2, n);
        HashIndented(q, w2, y, level, compact);
        IndentedTrans(w, w2, WriteHash(q, w2, y, level, compact), n);
      }
    case Comment(_, _) =>
    case _ =>
      IndentedFlat(w, " ", n);
      NodeIndented(q, w + " ", y, level, compact);
      IndentedTrans(w, w + " ", WriteNode(q, w + " ", y, level, compact), n);
  }

  lemma AppendAssoc(a: string, b: string, c: string)
    ensures (a + b) + c == a + (b + c)
  {
  }

  lemma LineBeginPrefix(a: string, b: string, level: int)
    ensures LineBegin(a + b, level) == a + LineBegin(b, level)
  {
    AppendAssoc(a, b, "\n");
    AppendAssoc(a, b + "\n", Spaces(IndentWidth(level)));
  }

  lemma ValueIndentPrefix(a: string, b: string, inline: bool, compact: bool, level: int)
    ensures ValueIndent(a + b, inline, compact, level) == a + ValueIndent(b, inline, compact, level)
  {
    if inline && compact {
      AppendAssoc(a, b, " ");
    } else {
      LineBeginPrefix(a, b, level + 1);
    }
  }

  /** The writer is only appended to, and what a node appends does not
      depend on what was written before it. */
  lemma {:induction false} NodePrefix(q: Quoting, a: string, b: string, y: Yaml, level: int, compact: bool)
    ensures WriteNode(q, a + b, y, level, compact) == a + WriteNode(q, b, y, level, compact)
    decreases y, 4
  {
    match y
    case Array(_) => ArrayPrefix(q, a, b, y, 0, level, compact);
    case Hash(_) => HashPrefix(q, a, b, y, level, compact);
    case _ => AppendAssoc(a, b, LeafText(q, y));
  }

  lemma {:induction false} ArrayPrefix(q: Quoting, a: string, b: string, y: Yaml, from: nat, level: int, compact: bool)
    requires y.Array? && from <= |y.items|
    ensures WriteArray(q, a + b, y, from, level, compact) == a + WriteArray(q, b, y, from, level, compact)
    decreases y, 3
  {
    if from == |y.items| {
      AppendAssoc(a, b, "[]");
    } else {
      ItemsPrefix(q, a, b, y, from, true, level + 1, compact);
    }
  }

  lemma {:induction false} ItemsPrefix(q: Quoting, a: string, b: string, y: Yaml, i: nat, first: bool, level: int, compact: bool)
    requires y.Array? && i <= |y.items|
    ensures WriteItems(q, a + b, y, i, first, level, compact) == a + WriteItems(q, b, y, i, first, level, compact)
    decreases y, 2, |y.items| - i
  {
    if i < |y.items| {
      ItemPrefix(q, a, b, y, i, first, level, compact);
      ItemsPrefix(q, a, WriteItem(q, b, y, i, first, level, compact), y, ItemNext(y, i, first),
                  first && IsInlineComment(y.items[i]), level, compact);
    }
  }

  lemma {:induction false} ItemPrefix(q: Quoting, a: string, b: string, y: Yaml, i: nat, first: bool, level: int, compact: bool)
    requires y.Array? && i < |y.items|
    ensures WriteItem(q, a + b, y, i, first, level, compact) == a + WriteItem(q, b, y, i, first, level, compact)
    decreases y, 1
  {
    var e := y.items[i];
    if !(first && IsInlineComment(e)) {
      var b1 := if first then b else LineBegin(b, level);
      if !first {
        LineBeginPrefix(a, b, level);
      }
      if e.Comment? {
        NodePrefix(q, a, b1, e, level, compact);
      } else {
        AppendAssoc(a, b1, "-");
        ValuePrefix(q, a, b1 + "-", true, e, level, compact);
        if ItemNext(y, i, first) == i + 2 {
          NodePrefix(q, a, WriteValue(q, b1 + "-", true, e, level, compact), y.items[i + 1], level, compact);
        }
      }
    }
  }

  lemma {:induction false} HashPrefix(q: Quoting, a: string, b: string, y: Yaml, level: int, compact: bool)
    requires y.Hash?
    ensures WriteHash(q, a + b, y, level, compact) == a + WriteHash(q, b, y, level, compact)
    decreases y, 3
  {
    if y.entries == [] {
      AppendAssoc(a, b, "{}");
    } else {
      PairsPrefix(q, a, b, y, 0, true, level + 1, compact);
    }
  }

  lemma {:induction false} PairsPrefix(q: Quoting, a: string, b: string, y: Yaml, i: nat, first: bool, level: int, compact: bool)
    requires y.Hash? && i <= |y.entries|
    ensures WritePairs(q, a + b, y, i, first, level, compact) == a + WritePairs(q, b, y, i, first, level, compact)
    decreases y, 2, |y.entries| - i
  {
    if i < |y.entries| {
      PairPrefix(q, a, b, y, i, first, level, compact);
      PairsPrefix(q, a, WritePair(q, b, y, i, first, level, compact), y, PairNext(y, i, first),
                  first && IsInlineComment(y.entries[i].0), level, compact);
    }
  }

  lemma {:induction false} PairPrefix(q: Quoting, a: string, b: string, y: Yaml, i: nat, first: bool, level: int, compact: bool)
    requires y.Hash? && i < |y.entries|
    ensures WritePair(q, a + b, y, i, first, level, compact) == a + WritePair(q, b, y, i, first, level, compact)
    decreases y, 1
  {
    var k := y.entries[i].0;
    if !(first && IsInlineComment(k)) {
      var b1 := if first then b else LineBegin(b, level);
      if !first {
        LineBeginPrefix(a, b, level);
      }
      if k.Comment? {
        NodePrefix(q, a, b1, k, level, compact);
      } else {
        EntryPrefix(q, a, b1, y, i, level, compact);
        if PairNext(y, i, first) == i + 2 {
          NodePrefix(q, a, WriteEntry(q, b1, y, i, level, compact), y.entries[i + 1].0, level, compact);
        }
      }
    }
  }

  lemma {:induction false} EntryPrefix(q: Quoting, a: string, b: string, y: Yaml, i: nat, level: int, compact: bool)
    requires y.Hash? && i < |y.entries| && !y.entries[i].0.Comment?
    ensures WriteEntry(q, a + b, y, i, level, compact) == a + WriteEntry(q, b, y, i, level, compact)
    decreases y, 0
  {
    var (k, v) := y.entries[i];
    if k.Hash? || k.Array? {
      AppendAssoc(a, b, "?");
      ValuePrefix(q, a, b + "?", true, k, level, compact);
      var b1 := WriteValue(q, b + "?", true, k, level, compact);
      LineBeginPrefix(a, b1, level);
      AppendAssoc(a, LineBegin(b1, level), ":");
      ValuePrefix(q, a, LineBegin(b1, level) + ":", true, v, level, compact);
    } else {
      NodePrefix(q, a, b, k, level, compact);
      var b1 := WriteNode(q, b, k, level, compact);
      AppendAssoc(a, b1, ":");
      ValuePrefix(q, a, b1 + ":", false, v, level, compact);
    }
  }

  lemma {:induction false} ValuePrefix(q: Quoting, a: string, b: string, inline: bool, y: Yaml, level: int, compact: bool)
    ensures WriteValue(q, a + b, inline, y, level, compact) == a + WriteValue(q, b, inline, y, level, compact)
    decreases y, 5
  {
    match y
    case Array(v) =>
      if v == [] {
        AppendAssoc(a, b, " []");
      } else if IsInlineComment(v[0]) {
        NodePrefix(q, a, b, v[0], level, compact);
        var b1 := WriteNode(q, b, v[0], level, compact);
        ValueIndentPrefix(a, b1, inline, compact, level);
        ArrayPrefix(q, a, ValueIndent(b1, inline, compact, level), y, 1, level, compact);
      } else {
        ValueIndentPrefix(a, b, inline, compact, level);
        ArrayPrefix(q, a, ValueIndent(b, inline, compact, level), y, 0, level, compact);
      }
    case Hash(h) =>
      if h == [] {
        AppendAssoc(a, b, " {}");
      } else {
        var b1 := if IsInlineComment(h[0].0) then WriteNode(q, b, h[0].0, level, compact) else b;
        if IsInlineComment(h[0].0) {
          NodePrefix(q, a, b, h[0].0, level, compact);
        }
        ValueIndentPrefix(a, b1, inline, compact, level);
        HashPrefix(q, a, ValueIndent(b1, inline, compact, level), y, level, compact);
      }
    case Comment(_, _) =>
    case _ =>
      AppendAssoc(a, b, " ");
      NodePrefix(q, a, b + " ", y, level, compact);
  }

  /** The text a node writes, whatever was written before it. */
  function NodeText(q: Quoting, y: Yaml, level: int, compact: bool): string {
    WriteNode(q, [], y, level, compact)
  }

  /** `emit_node` appends `NodeText` to the writer. */
  lemma NodeAppends(q: Quoting, w: string, y: Yaml, level: int, compact: bool)
    ensures WriteNode(q, w, y, level, compact) == w + NodeText(q, y, level, compact)
  {
    NodePrefix(q, w, [], y, level, compact);
    assert w + [] == w;
  }

  /** `dump` writes `---`, the inline comment that opens the document if
      there is one, a line break, and then the document's text at level -1. */
  lemma DumpHeader(q: Quoting, w: string, doc: Yaml, compact: bool)
    ensures var head := if HeadComment(doc).Some? then " #" + HeadComment(doc).value.comment else [];
      WriteDump(q, w, doc, compact) == w + ("---" + head + "\n") + NodeText(q, doc, -1, compact)
  {
    var head := if HeadComment(doc).Some? then " #" + HeadComment(doc).value.comment else [];
    var w1 := match HeadComment(doc) case Some(c) => w + "---" + LeafText(q, c) case None => w + "---";
    assert w1 + "\n" == w + ("---" + head + "\n");
    NodeAppends(q, w1 + "\n", doc, -1, compact);
  }

  /** An empty sequence is written `[]` and an empty mapping `{}`; after an
      indicator they follow a space. */
  lemma EmptyCollections(q: Quoting, w: string, inline: bool, level: int, compact: bool)
    ensures NodeText(q, Array([]), level, compact) == "[]"
    ensures NodeText(q, Hash([]), level, compact) == "{}"
    ensures WriteValue(q, w, inline, Array([]), level, compact) == w + " []"
    ensures WriteValue(q, w, inline, Hash([]), level, compact) == w + " {}"
  {
  }

  /** A comment key's value is never written, even when it is a comment
      itself: the mapping from comment `a` to comment `b` dumps as the
      header line and `#a`. */
  lemma CommentKeyValueIgnored(q: Quoting, compact: bool)
    ensures var doc := Hash([(Yaml.Comment("a", false), Yaml.Comment("b", false))]);
      Emittable(doc) && WriteDump(q, [], doc, compact) == "---\n#a"
  {
    var doc := Hash([(Yaml.Comment("a", false), Yaml.Comment("b", false))]);
    assert WritePair(q, "---\n", doc, 0, true, 0, compact) == "---\n#a";
  }

  /** The fixed texts of the leaves. */
  lemma LeafTexts(q: Quoting, level: int, compact: bool, c: string, id: nat)
    ensures NodeText(q, Boolean(true), level, compact) == "true"
    ensures NodeText(q, Boolean(false), level, compact) == "false"
    ensures NodeText(q, Null, level, compact) == "~" && NodeText(q, BadValue, level, compact) == "~"
    ensures NodeText(q, Yaml.Alias(id), level, compact) == []
    ensures NodeText(q, Yaml.Comment(c, true), level, compact) == " #" + c
    ensures NodeText(q, Yaml.Comment(c, false), level, compact) == "#" + c
  {
    assert [] + "true" == "true";
    assert [] + "false" == "false";
    assert [] + "~" == "~";
    assert [] + (" #" + c) == " #" + c;
    assert [] + ("#" + c) == "#" + c;
  }

  /** An integer is written as its decimal digits, after a minus sign when
      it is negative; reading the digits back gives its magnitude. */
  lemma IntegerText(q: Quoting, v: int, level: int, compact: bool)
    ensures var t := NodeText(q, Integer(v), level, compact);
      if v < 0 then |t| >= 2 && t[0] == '-' && AllDigits(t[1..]) && DecimalValue(t[1..]) == -v
      else AllDigits(t) && DecimalValue(t) == v
  {
    assert NodeText(q, Integer(v), level, compact) == IntText(v);
    if v < 0 {
      DecimalTextValue(-v);
    } else {
      DecimalTextValue(v);
    }
  }

  class YamlEmitter {
    /** Everything written to the writer so far. */
    var out: string
    const bestIndent: nat := BestIndent
    var compact: bool
    var level: int
    const quoting: Quoting

    /** `YamlEmitter::new`: nothing written, compact, level -1. */
    constructor (quoting: Quoting)
      ensures out == [] && compact && level == -1 && this.quoting == quoting
    {
      out := [];
      compact := true;
      level := -1;
      this.quoting := quoting;
    }

    /** `compact`: switches compact inline notation on or off. */
    method SetCompact(compact: bool)
      modifies this`compact
      ensures this.compact == compact
    {
      this.compact := compact;
    }

    /** `is_compact`. */
    function IsCompact(): bool
      reads this`compact
    {
      compact
    }

    /** `emit_indent`: one space per turn, `level * best_indent` turns. */
    method EmitIndent()
      modifies this`out
      ensures out == Indent(old(out), level)
    {
      var n := level * bestIndent;
      var k: nat := 0;
      while k < n
        invariant k <= IndentWidth(level) && out == old(out) + Spaces(k)
      {
        out := out + " ";
        k := k + 1;
      }
    }

    method EmitLineBegin()
      modifies this`out
      ensures out == LineBegin(old(out), level)
    {
      out := out + "\n";
      EmitIndent();
    }

    method EmitValueIndent(inline: bool)
      modifies this`out, this`level
      ensures out == ValueIndent(old(out), inline, compact, level) && level == old(level)
    {
      if inline && compact {
        out := out + " ";
      } else {
        out := out + "\n";
        level := level + 1;
        EmitIndent();
        level := level - 1;
      }
    }

    /** `dump`: the header line with its inline comment, then the document
        from level -1. */
    method Dump(doc: Yaml)
      requires Emittable(doc)
      modifies this`out, this`level
      ensures out == WriteDump(quoting, old(out), doc, compact) && level == -1
    {
      out := out + "---";
      match HeadComment(doc) {
        case Some(c) =>
          EmitNode(c);
        case None =>
      }
      out := out + "\n";
      level := -1;
      EmitNode(doc);
    }

    method EmitNode(node: Yaml)
      requires Emittable(node)
      modifies this`out, this`level
      ensures out == WriteNode(quoting, old(out), node, old(level), compact) && level == old(level)
      decreases node, 4
    {
      match node
      case Array(_) => EmitArray(node, 0);
      case Hash(_) => EmitHash(node);
      case String(s) =>
        if quoting.needQuotes(s) {
          out := out + quoting.escape(s);
        } else {
          out := out + s;
        }
      case Boolean(b) =>
        if b {
          out := out + "true";
        } else {
          out := out + "false";
        }
      case Integer(v) => out := out + IntText(v);
      case Real(r) => out := out + r;
      case Comment(c, inline) =>
        if inline {
          out := out + (" #" + c);
        } else {
          out := out + ("#" + c);
        }
      case Null => out := out + "~";
      case BadValue => out := out + "~";
      case Alias(_) =>
    }

    /** `emit_array` on the items of `node` from `from` on. */
    method EmitArray(node: Yaml, from: nat)
      requires node.Array? && from <= |node.items| && Emittable(node)
      modifies this`out, this`level
      ensures out == WriteArray(quoting, old(out), node, from, old(level), compact) && level == old(level)
      decreases node, 3
    {
      var items := node.items;
      if from == |items| {
        out := out + "[]";
        return;
      }
      level := level + 1;
      var first := true;
      var i := from;
      while i < |items|
        invariant from <= i <= |items| && level == old(level) + 1
        invariant WriteItems(quoting, out, node, i, first, level, compact) ==
          WriteItems(quoting, old(out), node, from, true, level, compact)
        decreases |items| - i
      {
        var skip := first && IsInlineComment(items[i]);
        i := EmitItem(node, i, first);
        first := skip;
      }
      level := level - 1;
    }

    /** One turn of `emit_array`'s loop, at item `i`; returns where the next
        turn starts. */
    method EmitItem(node: Yaml, i: nat, first: bool) returns (next: nat)
      requires node.Array? && i < |node.items| && Emittable(node)
      modifies this`out, this`level
      ensures out == WriteItem(quoting, old(out), node, i, first, old(level), compact) && level == old(level)
      ensures next == ItemNext(node, i, first)
      decreases node, 0
    {
      var items := node.items;
      var entry := items[i];
      next := i + 1;
      if first && IsInlineComment(entry) {
        return;
      }
      if !first {
        EmitLineBegin();
      }
      if entry.Comment? {
        EmitNode(entry);
        return;
      }
      out := out + "-";
      EmitValue(true, entry);
      if i + 1 < |items| && IsInlineComment(items[i + 1]) {
        EmitNode(items[i + 1]);
        next := i + 2;
      }
    }

    /** `emit_hash` on the entries of `node`. */
    method EmitHash(node: Yaml)
      requires node.Hash? && Emittable(node)
      modifies this`out, this`level
      ensures out == WriteHash(quoting, old(out), node, old(level), compact) && level == old(level)
      decreases node, 3
    {
      var entries := node.entries;
      if entries == [] {
        out := out + "{}";
        return;
      }
      level := level + 1;
      var first := true;
      var i := 0;
      while i < |entries|
        invariant i <= |entries| && level == old(level) + 1
        invariant WritePairs(quoting, out, node, i, first, level, compact) ==
          WritePairs(quoting, old(out), node, 0, true, level, compact)
        decreases |entries| - i
      {
        var skip := first && IsInlineComment(entries[i].0);
        i := EmitPair(node, i, first);
        first := skip;
      }
      level := level - 1;
    }

    /** One turn of `emit_hash`'s loop, at entry `i`; returns where the next
        turn starts. */
    method EmitPair(node: Yaml, i: nat, first: bool) returns (next: nat)
      requires node.Hash? && i < |node.entries| && Emittable(node)
      modifies this`out, this`level
      ensures out == WritePair(quoting, old(out), node, i, first, old(level), compact) && level == old(level)
      ensures next == PairNext(node, i, first)
      decreases node, 1
    {
      var entries := node.entries;
      var key := entries[i].0;
      next := i + 1;
      if first && IsInlineComment(key) {
        return;
      }
      if !first {
        EmitLineBegin();
      }
      if key.Comment? {
        EmitNode(key);
        return;
      }
      EmitEntry(node, i);
      if i + 1 < |entries| && IsInlineComment(entries[i + 1].0) {
        EmitNode(entries[i + 1].0);
        next := i + 2;
      }
    }

    /** The part of `emit_hash`'s loop that writes an entry whose key is not
        a comment. */
    method EmitEntry(node: Yaml, i: nat)
      requires node.Hash? && i < |node.entries| && Emittable(node) && !node.entries[i].0.Comment?
      modifies this`out, this`level
      ensures out == WriteEntry(quoting, old(out), node, i, old(level), compact) && level == old(level)
      decreases node, 0
    {
      var (key, value) := node.entries[i];
      if key.Hash? || key.Array? {
        out := out + "?";
        EmitValue(true, key);
        EmitLineBegin();
        out := out + ":";
        EmitValue(true, value);
      } else {
        EmitNode(key);
        out := out + ":";
        EmitValue(false, value);
      }
    }

    /** `emit_value`. */
    method EmitValue(inline: bool, value: Yaml)
      requires Emittable(value) && !value.Comment?
      modifies this`out, this`level
      ensures out == WriteValue(quoting, old(out), inline, value, old(level), compact) && level == old(level)
      decreases value, 5
    {
      if value.Array? {
        var arr := value.items;
        if arr == [] {
          out := out + " []";
          return;
        }
        var from := 0;
        if IsInlineComment(arr[0]) {
          EmitNode(arr[0]);
          from := 1;
        }
        EmitValueIndent(inline);
        EmitArray(value, from);
      } else if value.Hash? {
        var hash := value.entries;
        if hash == [] {
          out := out + " {}";
          return;
        }
        if IsInlineComment(hash[0].0) {
          EmitNode(hash[0].0);
        }
        EmitValueIndent(inline);
        EmitHash(value);
      } else {
        out := out + " ";
        EmitNode(value);
      }
    }
  }
}

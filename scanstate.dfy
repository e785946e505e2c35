/** Pure views of the tokenizer's bookkeeping: the indentation stack, the
    simple-key slots and the token queue.  The scanner's methods are proved
    against these functions, and the lemmas below say why the bookkeeping
    stays consistent. */
module ScanState {
  import opened Markers
  import opened Tokens

  /** An indentation stack (the saved levels followed by the current one):
      it starts at -1, the level outside every block collection, and each
      level is deeper than the one it was pushed over. */
  predicate StackOk(levels: seq<int>) {
    |levels| > 0 && levels[0] == -1 && Increasing(levels)
  }

  /** Each level is deeper than the one below it. */
  predicate Increasing(levels: seq<int>) {
    |levels| <= 1 ||
    (levels[|levels| - 2] < levels[|levels| - 1] && Increasing(levels[..|levels| - 1]))
  }

  /** Increasing in the usual pairwise sense. */
  lemma {:induction false} IncreasingPairwise(levels: seq<int>, i: nat, j: nat)
    requires Increasing(levels) && i < j < |levels|
    ensures levels[i] < levels[j]
    decreases |levels|
  {
    var p := levels[..|levels| - 1];
    if j < |levels| - 1 {
      IncreasingPairwise(p, i, j);
    } else if i < |levels| - 2 {
      IncreasingPairwise(p, i, |levels| - 2);
    }
  }

  /** `roll_indent` on the stack: `col` is pushed only when it is deeper than
      the current level. */
  function Rolled(levels: seq<int>, col: int): (r: seq<int>)
    requires StackOk(levels)
    ensures StackOk(r)
    ensures levels <= r && |r| <= |levels| + 1
    ensures r[|r| - 1] == if levels[|levels| - 1] < col then col else levels[|levels| - 1]
  {
    if levels[|levels| - 1] < col then
      assert (levels + [col])[..|levels|] == levels;
      levels + [col]
    else levels
  }

  /** The token `roll_indent` queues at the end of the queue: one, when
      outside flow collections `col` is deeper than the current level. */
  function RollTokens(levels: seq<int>, inFlow: bool, col: int, t: Token): seq<Token>
    requires |levels| > 0
  {
    if !inFlow && levels[|levels| - 1] < col then [t] else []
  }

  /** `unroll_indent` on the stack: every level deeper than `col` is popped
      and nothing else, so the result is a prefix whose top is at most `col`. */
  function Unrolled(levels: seq<int>, col: int): (r: seq<int>)
    requires StackOk(levels) && col >= -1
    ensures StackOk(r) && r <= levels && r[|r| - 1] <= col
    ensures forall i :: |r| <= i < |levels| ==> levels[i] > col
    decreases |levels|
  {
    if levels[|levels| - 1] <= col then levels
    else
      assert StackOk(levels[..|levels| - 1]);
      Unrolled(levels[..|levels| - 1], col)
  }

  /** One step of unrolling: the top level is deeper than `col`, so it is
      not the bottom one and popping it leaves the result unchanged. */
  lemma UnrollStep(levels: seq<int>, col: int)
    requires StackOk(levels) && col >= -1 && levels[|levels| - 1] > col
    ensures |levels| >= 2 && StackOk(levels[..|levels| - 1])
    ensures Unrolled(levels, col) == Unrolled(levels[..|levels| - 1], col)
  {
  }

  /** Unrolling keeps exactly the prefix up to the last level that is not
      deeper than `col`. */
  lemma {:induction false} UnrolledIsPrefix(levels: seq<int>, k: nat, col: int)
    requires StackOk(levels) && col >= -1 && 1 <= k <= |levels| && levels[k - 1] <= col
    requires forall i :: k <= i < |levels| ==> levels[i] > col
    ensures Unrolled(levels, col) == levels[..k]
    decreases |levels|
  {
    if k < |levels| {
      UnrollStep(levels, col);
      var p := levels[..|levels| - 1];
      assert p[..k] == levels[..k];
      UnrolledIsPrefix(p, k, col);
    }
  }

  /** Pushing a level and then unrolling to a shallower column is the same
      as unrolling directly: roll and unroll are balanced. */
  lemma {:induction false} UnrollCancelsRoll(levels: seq<int>, c: int, d: int)
    requires StackOk(levels) && -1 <= d < c
    ensures Unrolled(Rolled(levels, c), d) == Unrolled(levels, d)
  {
    if levels[|levels| - 1] < c {
      assert (levels + [c])[..|levels|] == levels;
    }
  }

  /** Unrolling to -1 leaves only the bottom level. */
  lemma UnrolledToBottom(levels: seq<int>)
    requires StackOk(levels)
    ensures Unrolled(levels, -1) == [-1]
  {
    forall i | 1 <= i < |levels|
      ensures levels[i] > -1
    {
      IncreasingPairwise(levels, 0, i);
    }
    UnrolledIsPrefix(levels, 1, -1);
  }

  /** Unrolling twice to the same column changes nothing the second time. */
  lemma UnrollIdempotent(levels: seq<int>, col: int)
    requires StackOk(levels) && col >= -1
    ensures Unrolled(Unrolled(levels, col), col) == Unrolled(levels, col)
  {
  }

  /** `n` BlockEnd tokens at position `m`. */
  function BlockEnds(m: Marker, n: nat): (r: seq<Token>)
    ensures |r| == n
  {
    if n == 0 then [] else BlockEnds(m, n - 1) + [Token(m, BlockEnd)]
  }

  /** How many block collections `unroll_indent(-1)` closes: none inside a
      flow collection, every open one outside. */
  function OpenBlocks(levels: seq<int>, inFlow: bool): nat
    requires |levels| > 0
  {
    if inFlow then 0 else |levels| - 1
  }

  /** Every token of `BlockEnds(m, n)` is a BlockEnd at `m`. */
  lemma {:induction false} BlockEndsAll(m: Marker, n: nat)
    ensures forall i :: 0 <= i < n ==> BlockEnds(m, n)[i] == Token(m, BlockEnd)
  {
    if n > 0 {
      BlockEndsAll(m, n - 1);
    }
  }

  /** The queue with `t` inserted before position `pos`. */
  function Inserted(q: seq<Token>, pos: nat, t: Token): (r: seq<Token>)
    requires pos <= |q|
    ensures |r| == |q| + 1 && r[pos] == t
    ensures r[..pos] == q[..pos] && r[pos + 1..] == q[pos..]
  {
    q[..pos] + [t] + q[pos..]
  }

  /** Removing the inserted token gives back the original queue. */
  lemma InsertedThenRemoved(q: seq<Token>, pos: nat, t: Token)
    requires pos <= |q|
    ensures Inserted(q, pos, t)[..pos] + Inserted(q, pos, t)[pos + 1..] == q
  {
  }

  /** The queue once a simple key turns out to be a key: its Key token goes
      at queue position `pos`, preceded by `start` when the key's column
      opens a block mapping. */
  function KeyQueued(q: seq<Token>, pos: nat, key: Token, levels: seq<int>, inFlow: bool, col: int, start: Token)
    : seq<Token>
    requires pos <= |q| && |levels| > 0
  {
    q[..pos] + RollTokens(levels, inFlow, col, start) + [key] + q[pos..]
  }

  /** `KeyQueued` is what inserting the key and then, when the column
      opens a block mapping, the mapping start at the same position gives. */
  lemma KeyQueuedInserted(q: seq<Token>, pos: nat, key: Token, levels: seq<int>, inFlow: bool, col: int, start: Token)
    requires pos <= |q| && |levels| > 0
    ensures KeyQueued(q, pos, key, levels, inFlow, col, start) ==
      if !inFlow && levels[|levels| - 1] < col then Inserted(Inserted(q, pos, key), pos, start)
      else Inserted(q, pos, key)
  {
    var q1 := Inserted(q, pos, key);
    assert q1[..pos] == q[..pos];
    assert q1[pos..] == [key] + q[pos..];
    assert q[..pos] + [] + [key] + q[pos..] == q1;
  }

  /** Every simple key that is still possible starts strictly before `m`. */
  predicate KeysBehind(keys: seq<SimpleKey>, m: Marker) {
    forall i :: 0 <= i < |keys| && keys[i].possible ==> Before(keys[i].mark, m)
  }

  /** Every simple key that is still possible starts at or before `m`. */
  predicate KeysNotAfter(keys: seq<SimpleKey>, m: Marker) {
    forall i :: 0 <= i < |keys| && keys[i].possible ==> !Before(m, keys[i].mark)
  }

  /** The slots after a successful `remove_simple_key`: the key of the
      current flow level is no longer possible. */
  function KeyRemoved(keys: seq<SimpleKey>): (r: seq<SimpleKey>)
    requires |keys| > 0
    ensures Cleared(r, keys) && !r[|r| - 1].possible
  {
    keys[|keys| - 1 := keys[|keys| - 1].(possible := false)]
  }

  /** A possible key's Key token would go at or after the queue head and at
      or before its tail (queue positions are counted over the stream). */
  predicate KeyNumbersOk(keys: seq<SimpleKey>, parsed: nat, queued: nat) {
    forall i :: 0 <= i < |keys| && keys[i].possible ==>
      parsed <= keys[i].tokenNumber <= parsed + queued
  }

  /** Some possible key would insert its Key token before the queue head. */
  predicate KeyPending(keys: seq<SimpleKey>, parsed: nat) {
    exists i :: 0 <= i < |keys| && keys[i].possible && keys[i].tokenNumber == parsed
  }

  predicate NoPossibleKey(keys: seq<SimpleKey>) {
    forall i :: 0 <= i < |keys| ==> !keys[i].possible
  }

  predicate KeysOnEarlierLines(keys: seq<SimpleKey>, m: Marker) {
    forall i :: 0 <= i < |keys| && keys[i].possible ==> keys[i].mark.line < m.line
  }

  /** `after` is `before` with some keys made impossible. */
  predicate Cleared(after: seq<SimpleKey>, before: seq<SimpleKey>) {
    |after| == |before| &&
    forall i :: 0 <= i < |after| && after[i].possible ==> after[i] == before[i]
  }

  /** Making keys impossible keeps every fact about the possible keys. */
  lemma ClearedKeeps(after: seq<SimpleKey>, before: seq<SimpleKey>, m: Marker, parsed: nat, queued: nat)
    requires Cleared(after, before)
    ensures KeysBehind(before, m) ==> KeysBehind(after, m)
    ensures KeyNumbersOk(before, parsed, queued) ==> KeyNumbersOk(after, parsed, queued)
    ensures KeysOnEarlierLines(before, m) ==> KeysOnEarlierLines(after, m)
    ensures !KeyPending(before, parsed) ==> !KeyPending(after, parsed)
  {
  }

  /** Queueing more tokens keeps the key numbers within the queue. */
  lemma KeyNumbersGrow(keys: seq<SimpleKey>, parsed: nat, queued: nat, more: nat)
    requires queued <= more
    ensures KeyNumbersOk(keys, parsed, queued) ==> KeyNumbersOk(keys, parsed, more)
  {
  }

  /** `stale_simple_keys`' test: a possible key that is on an earlier line
      or more than 1024 characters back can no longer become a key. */
  predicate IsStale(k: SimpleKey, m: Marker) {
    k.possible && (k.mark.line < m.line || k.mark.index + 1024 < m.index)
  }

  function Refreshed(k: SimpleKey, m: Marker): (r: SimpleKey)
    ensures r.possible <==> k.possible && !IsStale(k, m)
    ensures r.(possible := k.possible) == k
  {
    if IsStale(k, m) then k.(possible := false) else k
  }

  /** `after` is `before` with every key refreshed at `m`. */
  predicate AllRefreshed(after: seq<SimpleKey>, before: seq<SimpleKey>, m: Marker) {
    |after| == |before| && forall i :: 0 <= i < |after| ==> after[i] == Refreshed(before[i], m)
  }

  /** No key that is stale at `m` is required: `stale_simple_keys` then
      succeeds. */
  predicate NoRequiredStale(keys: seq<SimpleKey>, m: Marker) {
    forall i :: 0 <= i < |keys| ==> !(IsStale(keys[i], m) && keys[i].required)
  }

  /** Refreshing every key only makes keys impossible. */
  lemma RefreshedCleared(after: seq<SimpleKey>, before: seq<SimpleKey>, m: Marker)
    requires AllRefreshed(after, before, m)
    ensures Cleared(after, before)
  {
    forall i | 0 <= i < |after| && after[i].possible
      ensures after[i] == before[i]
    {
      assert after[i].(possible := before[i].possible) == before[i];
    }
  }

  /** Moving forward keeps possible keys behind. */
  lemma KeysBehindMoved(keys: seq<SimpleKey>, a: Marker, b: Marker)
    requires KeysBehind(keys, a) && Moved(a, b)
    ensures KeysBehind(keys, b)
  {
  }

  /** The slots after a successful `save_simple_key`: where a simple key is
      allowed, the key of the current flow level becomes `SimpleKey(true,
      required, number, m)`; otherwise nothing changes. */
  function KeySaved(keys: seq<SimpleKey>, allowed: bool, required: bool, number: nat, m: Marker): (r: seq<SimpleKey>)
    requires allowed ==> |keys| > 0
    ensures |r| == |keys|
    ensures allowed ==> r[|r| - 1] == SimpleKey(true, required, number, m) && r[..|r| - 1] == keys[..|keys| - 1]
    ensures !allowed ==> r == keys
  {
    if allowed then keys[|keys| - 1 := SimpleKey(true, required, number, m)] else keys
  }

  /** Keys strictly behind are not after. */
  lemma BehindNotAfter(keys: seq<SimpleKey>, m: Marker)
    requires KeysBehind(keys, m)
    ensures KeysNotAfter(keys, m)
  {
  }

  /** A key saved at `a` is strictly behind once a character was consumed. */
  lemma KeysNotAfterAdvanced(keys: seq<SimpleKey>, a: Marker, b: Marker)
    requires KeysNotAfter(keys, a) && Advanced(a, b)
    ensures KeysBehind(keys, b)
  {
  }

  /** At the start of a line, a key strictly behind is on an earlier line. */
  lemma KeysBehindAtLineStart(keys: seq<SimpleKey>, m: Marker)
    requires KeysBehind(keys, m) && m.col == 0
    ensures KeysOnEarlierLines(keys, m)
  {
  }

  /** Handing out the queue head when no possible key would insert its Key
      token before it keeps every key's queue position in the queue. */
  lemma KeyNumbersPopped(keys: seq<SimpleKey>, parsed: nat, queued: nat)
    requires queued > 0 && KeyNumbersOk(keys, parsed, queued) && !KeyPending(keys, parsed)
    ensures KeyNumbersOk(keys, parsed + 1, queued - 1)
  {
  }

  /** After refreshing, no possible key is left on an earlier line; so when
      all possible keys were on earlier lines, none is possible any more. */
  lemma RefreshedClearsEarlierLines(after: seq<SimpleKey>, before: seq<SimpleKey>, m: Marker)
    requires AllRefreshed(after, before, m)
    requires KeysOnEarlierLines(before, m)
    ensures NoPossibleKey(after)
  {
  }
}

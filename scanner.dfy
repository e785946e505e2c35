/** The YAML tokenizer of `src/scanner.rs`: a state machine over the input
    characters that fills a queue of tokens.  Its state is a lookahead
    buffer padded with '\0', a position, the token queue (into which Key and
    BlockMappingStart tokens are inserted after the fact), the stack of
    block indentation levels, the flow nesting depth and one simple-key
    slot per flow level. */
module Scanning {
  import opened Funcs
  import opened Markers
  import opened Tokens
  import opened Decoders
  import opened Scalars
  import opened ScanState
  import opened Directives
  import opened FlowScalars
  import opened PlainScalars
  import opened BlockScalars
  import opened Dispatch

  /** `flow_level` is a `u8`. */
  newtype u8 = x: int | 0 <= x < 256

  class Scanner {
    /** The characters the reader delivers, in order. */
    const input: seq<char>
    /** How many characters were taken from the reader so far. */
    var rdrPos: nat
    var mark: Marker
    var tokens: seq<Token>
    /** The length of the lookahead buffer; its contents are `Buffer()`. */
    var bufLen: nat
    var error: Option<ScanError>
    const withComments: bool

    var streamStartProduced: bool
    var streamEndProduced: bool
    var adjacentValueAllowedAt: nat
    var simpleKeyAllowed: bool
    var simpleKeys: seq<SimpleKey>
    var indent: int
    var indents: seq<int>
    var flowLevel: u8
    var tokensParsed: nat
    var tokenAvailable: bool
    /** A StreamEnd token was queued. */
    ghost var streamEndQueued: bool

    /** The buffer holds what the reader delivered after the current
        position. */
    ghost predicate Buffered()
      reads this`rdrPos, this`bufLen, this`mark
    {
      rdrPos == mark.index + bufLen
    }

    /** `buffer[k]`: the reader delivers the input characters in order and
        '\0' after the last, so the `k`-th buffered character is the input
        character `k` places after the position. */
    function Ch(k: nat): char
      reads this`mark, this`bufLen
      requires k < bufLen
    {
      At(input, mark.index + k)
    }

    /** The buffer's contents. */
    function Buffer(): (b: seq<char>)
      reads this`mark, this`bufLen
      ensures |b| == bufLen && forall k :: 0 <= k < bufLen ==> b[k] == Ch(k)
    {
      Slice(input, mark.index, bufLen)
    }

    /** Buffered, and no padding character was ever consumed. */
    ghost predicate Reading()
      reads this`rdrPos, this`bufLen, this`mark
    {
      Buffered() && mark.index <= |input|
    }

    /** The indentation stack: the saved levels, then the current one. */
    function Levels(): seq<int>
      reads this`indent, this`indents
    {
      indents + [indent]
    }

    ghost predicate IndentsOk()
      reads this`indent, this`indents
    {
      StackOk(Levels())
    }

    /** Once the stream has started there is one simple-key slot per flow
        level plus one for the block context. */
    ghost predicate SlotsOk()
      reads this`streamStartProduced, this`simpleKeys, this`flowLevel, this`indents
    {
      (streamStartProduced ==> |simpleKeys| == flowLevel as int + 1) &&
      (!streamStartProduced ==> simpleKeys == [] && flowLevel == 0 && indents == [])
    }

    /** Possible simple keys lie behind the position, and the queue positions
        they would insert a Key token at exist.  A token is available when
        the queue is not empty and no possible key would insert a Key token
        before its head. */
    ghost predicate KeysOk()
      reads this`simpleKeys, this`mark, this`tokensParsed, this`tokens, this`tokenAvailable
    {
      KeysBehind(simpleKeys, mark) && KeyNumbersOk(simpleKeys, tokensParsed, |tokens|) &&
      (tokenAvailable ==> |tokens| > 0 && !KeyPending(simpleKeys, tokensParsed))
    }

    /** Once StreamEnd is queued, it is the last token until it is taken,
        and every possible key is on an earlier line (the stream end forced
        a new line), so no further token is ever fetched. */
    ghost predicate EndOk()
      reads this`streamEndQueued, this`streamEndProduced, this`streamStartProduced, this`simpleKeys, this`mark, this`tokens
    {
      (streamEndProduced ==> streamEndQueued) &&
      (streamEndQueued && !streamEndProduced ==>
        streamStartProduced && KeysOnEarlierLines(simpleKeys, mark) && |tokens| > 0 &&
        tokens[|tokens| - 1].tokenType == StreamEnd)
    }

    ghost predicate Valid()
      reads this`rdrPos, this`bufLen, this`mark, this`indent, this`indents, this`streamStartProduced,
        this`simpleKeys, this`flowLevel, this`tokensParsed, this`tokens, this`tokenAvailable,
        this`streamEndQueued, this`streamEndProduced
    {
      Reading() && IndentsOk() && SlotsOk() && KeysOk() && EndOk()
    }

    /** Scanning a token changes only the reader, the position and the end
        of the queue, so the state stays between two fetches while the
        reader stays valid. */
    twostate lemma BetweenKept()
      requires old(Between()) && Reading() && |old(tokens)| <= |tokens|
      requires unchanged(this`indent, this`indents, this`streamStartProduced, this`simpleKeys, this`flowLevel,
        this`tokensParsed, this`tokenAvailable, this`streamEndQueued, this`streamEndProduced)
      ensures Between()
    {
      KeyNumbersGrow(simpleKeys, tokensParsed, |old(tokens)|, |tokens|);
    }

    /** Between two fetches inside the stream: StreamStart is queued,
        StreamEnd is not, no token was handed out from the current batch,
        and the queue positions of possible keys exist. */
    ghost predicate Between()
      reads this`rdrPos, this`bufLen, this`mark, this`indent, this`indents, this`streamStartProduced,
        this`simpleKeys, this`flowLevel, this`tokensParsed, this`tokens, this`tokenAvailable,
        this`streamEndQueued, this`streamEndProduced
    {
      Reading() && IndentsOk() && SlotsOk() && streamStartProduced && !streamEndQueued && !streamEndProduced &&
      !tokenAvailable && KeyNumbersOk(simpleKeys, tokensParsed, |tokens|)
    }

    /** The state a fetcher starts from and, when it succeeds, leaves:
        between fetches, with every possible key behind the position. */
    ghost predicate Fetching()
      reads this`rdrPos, this`bufLen, this`mark, this`indent, this`indents, this`streamStartProduced,
        this`simpleKeys, this`flowLevel, this`tokensParsed, this`tokens, this`tokenAvailable,
        this`streamEndQueued, this`streamEndProduced
    {
      Between() && KeysBehind(simpleKeys, mark)
    }

    /** Just after `fetch_stream_start`: the block context is the only
        level, at indentation -1, and its simple-key slot holds no key. */
    ghost predicate Started()
      reads this`streamStartProduced, this`streamEndQueued, this`flowLevel, this`indent, this`indents, this`simpleKeys
    {
      streamStartProduced && !streamEndQueued && flowLevel == 0 && Levels() == [-1] &&
      simpleKeys == [NewSimpleKey(Marker(0, 0, 0))]
    }

    /** The input is exhausted at the position, which starts a line, no
        block collection is open and no simple key is possible: all that is
        left to fetch is StreamEnd. */
    ghost predicate AtQuietEnd()
      reads this`mark, this`flowLevel, this`indent, this`indents, this`simpleKeys
    {
      At(input, mark.index) == '\0' && mark.col == 0 && flowLevel == 0 && Levels() == [-1] &&
      NoPossibleKey(simpleKeys)
    }

    /** Fetching is exactly validity inside the stream with no token handed
        out. */
    lemma FetchingIsValid()
      ensures Fetching() <==> Valid() && streamStartProduced && !streamEndQueued && !tokenAvailable
    {
    }

    /** `Scanner::new`: nothing read, position (0, line 1, column 0),
        indentation -1, simple keys allowed. */
    constructor (input: seq<char>, withComments: bool)
      ensures this.input == input && this.withComments == withComments
      ensures mark == Marker(0, 1, 0) && bufLen == 0 && rdrPos == 0 && tokens == []
      ensures error == None && !streamStartProduced && !streamEndProduced
      ensures adjacentValueAllowedAt == 0 && simpleKeyAllowed && simpleKeys == []
      ensures indent == -1 && indents == [] && flowLevel == 0
      ensures tokensParsed == 0 && !tokenAvailable
      ensures Valid()
    {
      this.input := input;
      rdrPos := 0;
      bufLen := 0;
      mark := New(0, 1, 0);
      tokens := [];
      error := None;
      this.withComments := withComments;
      streamStartProduced := false;
      streamEndProduced := false;
      adjacentValueAllowedAt := 0;
      simpleKeyAllowed := true;
      simpleKeys := [];
      indent := -1;
      indents := [];
      flowLevel := 0;
      tokensParsed := 0;
      tokenAvailable := false;
      streamEndQueued := false;
    }

    /** Fills the buffer to `count` characters from the reader, '\0' once
        it is exhausted; a buffer that is long enough is left alone. */
    method Lookahead(count: nat)
      requires Buffered()
      modifies this`bufLen, this`rdrPos
      ensures Buffered()
      ensures bufLen == if old(bufLen) >= count then old(bufLen) else count
    {
      if bufLen >= count {
        return;
      }
      var n := count - bufLen;
      var k := 0;
      while k < n
        invariant 0 <= k <= n && Buffered() && bufLen == old(bufLen) + k
      {
        rdrPos := rdrPos + 1;
        bufLen := bufLen + 1;
        k := k + 1;
      }
    }

    /** Consumes the head of the buffer: one character further, and the next
        line after '\n' or the next column otherwise. */
    method Skip()
      requires Buffered() && bufLen > 0
      modifies this`bufLen, this`mark
      ensures Buffered() && bufLen == old(bufLen) - 1
      ensures mark == Advance(old(mark), old(Ch(0)))
      ensures Advanced(old(mark), mark)
      ensures old(Ch(0)) != '\0' ==> mark.index <= |input|
    {
      var c := Ch(0);
      bufLen := bufLen - 1;
      mark := Advance(mark, c);
    }

    /** Consumes one line break (CR LF counts as one) if there is one. */
    method SkipLine()
      requires Reading() && bufLen >= 1 && (Ch(0) == '\r' ==> bufLen >= 2)
      modifies this`bufLen, this`mark
      ensures Reading() && bufLen == old(bufLen) - BreakAt(input, old(mark.index))
      ensures mark.index == old(mark.index) + BreakAt(input, old(mark.index))
      ensures Moved(old(mark), mark) && mark == MarkAfter(input, old(mark), mark.index)
      ensures old(Ch(0)) == '\n' || (old(Ch(0)) == '\r' && old(Ch(1)) == '\n') ==>
        mark.line == old(mark.line) + 1 && mark.col == 0
    {
      if Ch(0) == '\r' && Ch(1) == '\n' {
        Skip();
        assert mark == MarkAfter(input, old(mark), mark.index);
        Skip();
      } else if IsBreak(Ch(0)) {
        Skip();
      }
    }

    /** Consumes the line break at the head and appends it to `s`, always
        as '\n'. */
    method ReadBreak(s: string) returns (t: string)
      requires Reading() && bufLen >= 2 && IsBreak(Ch(0))
      modifies this`bufLen, this`mark
      ensures Reading() && t == s + "\n"
      ensures bufLen == old(bufLen) - BreakAt(input, old(mark.index))
      ensures mark.index == old(mark.index) + BreakAt(input, old(mark.index))
      ensures Advanced(old(mark), mark) && mark == MarkAfter(input, old(mark), mark.index)
      ensures old(Ch(0)) == '\n' || old(Ch(1)) == '\n' ==>
        mark.line == old(mark.line) + 1 && mark.col == 0
    {
      if Ch(0) == '\r' && Ch(1) == '\n' {
        t := s + "\n";
        Skip();
        assert mark == MarkAfter(input, old(mark), mark.index);
        Skip();
      } else {
        t := s + "\n";
        Skip();
      }
    }

    /** Inserts `tok` before queue position `pos` by appending it and
        swapping it down. */
    method InsertToken(pos: nat, tok: Token)
      requires pos <= |tokens|
      modifies this`tokens
      ensures tokens == Inserted(old(tokens), pos, tok)
      ensures old(Fetching()) ==> Fetching()
    {
      var oldLen := |tokens|;
      KeyNumbersGrow(simpleKeys, tokensParsed, oldLen, oldLen + 1);
      tokens := tokens + [tok];
      var i := 0;
      while i < oldLen - pos
        invariant 0 <= i <= oldLen - pos
        invariant tokens == old(tokens)[..oldLen - i] + [tok] + old(tokens)[oldLen - i..]
      {
        var a, b := oldLen - i, oldLen - i - 1;
        ghost var before := tokens;
        tokens := tokens[a := tokens[b]][b := tokens[a]];
        assert tokens == old(tokens)[..b] + [tok] + old(tokens)[b..] by {
          assert forall k :: 0 <= k < |tokens| ==>
            tokens[k] == (old(tokens)[..b] + [tok] + old(tokens)[b..])[k];
        }
        i := i + 1;
      }
    }

    /** `roll_indent`: in block context, a column deeper than the current
        indentation pushes it and queues `tok` (at queue position `number`
        when given, counted over the stream, else at the end). */
    method RollIndent(col: nat, number: Option<nat>, tok: TokenType, m: Marker)
      requires IndentsOk()
      requires number.Some? ==> tokensParsed <= number.value <= tokensParsed + |tokens|
      modifies this`indent, this`indents, this`tokens
      ensures IndentsOk() && |old(tokens)| <= |tokens|
      ensures Levels() == if flowLevel > 0 then old(Levels()) else Rolled(old(Levels()), col)
      ensures flowLevel > 0 ==> tokens == old(tokens)
      ensures flowLevel == 0 && old(indent) < col ==>
        tokens == match number
          case Some(n) => Inserted(old(tokens), n - tokensParsed, Token(m, tok))
          case None => old(tokens) + [Token(m, tok)]
      ensures old(indent) >= col ==> tokens == old(tokens)
      ensures number.None? ==> tokens == old(tokens) + RollTokens(old(Levels()), flowLevel > 0, col, Token(m, tok))
      ensures number.Some? ==>
        tokens == if flowLevel == 0 && old(indent) < col then Inserted(old(tokens), number.value - tokensParsed, Token(m, tok))
                  else old(tokens)
      ensures old(Fetching()) ==> Fetching()
    {
      ghost var queued := |tokens|;
      if flowLevel > 0 {
        assert tokens == old(tokens) + [];
        return;
      }
      if indent < col {
        ghost var levels := Levels();
        indents := indents + [indent];
        indent := col;
        assert Levels() == Rolled(levels, col);
        match number
        case Some(n) => InsertToken(n - tokensParsed, Token(m, tok));
        case None => tokens := tokens + [Token(m, tok)];
        KeyNumbersGrow(simpleKeys, tokensParsed, queued, |tokens|);
      } else {
        assert tokens == old(tokens) + [];
      }
    }

    /** `unroll_indent`: in block context, pops every level deeper than
        `col`, queueing one BlockEnd per level popped. */
    method UnrollIndent(col: int)
      requires IndentsOk() && col >= -1
      modifies this`indent, this`indents, this`tokens
      ensures IndentsOk()
      ensures flowLevel > 0 ==> Levels() == old(Levels()) && tokens == old(tokens)
      ensures flowLevel == 0 ==> Levels() == Unrolled(old(Levels()), col)
      ensures flowLevel == 0 ==>
        |Levels()| <= |old(Levels())| && tokens == old(tokens) + BlockEnds(mark, |old(Levels())| - |Levels()|)
      ensures |old(tokens)| <= |tokens| && (old(Fetching()) ==> Fetching())
    {
      if flowLevel > 0 {
        return;
      }
      ghost var queued := |tokens|;
      PopLevelsAbove(col);
      KeyNumbersGrow(simpleKeys, tokensParsed, queued, |tokens|);
    }

    /** The loop of `unroll_indent`: while the current level is deeper than
        `col`, a BlockEnd is queued and the saved level becomes current. */
    method PopLevelsAbove(col: int)
      requires IndentsOk() && col >= -1
      modifies this`indent, this`indents, this`tokens
      ensures IndentsOk() && Levels() == Unrolled(old(Levels()), col)
      ensures |Levels()| <= |old(Levels())| && tokens == old(tokens) + BlockEnds(mark, |old(Levels())| - |Levels()|)
    {
      ghost var levels := Levels();
      ghost var popped := 0;
      while indent > col
        invariant |Levels()| + popped == |levels| && Levels() == levels[..|Levels()|]
        invariant forall i :: |Levels()| <= i < |levels| ==> levels[i] > col
        invariant tokens == old(tokens) + BlockEnds(mark, popped)
        decreases |indents|
      {
        assert Levels()[0] == -1;
        PopIndent();
        popped := popped + 1;
      }
      UnrolledIsPrefix(levels, |Levels()|, col);
    }

    /** One turn of `unroll_indent`'s loop: a BlockEnd is queued and the
        saved level becomes the current one. */
    method PopIndent()
      requires |indents| > 0
      modifies this`indent, this`indents, this`tokens
      ensures Levels() == old(Levels()[..|Levels()| - 1])
      ensures tokens == old(tokens) + [Token(mark, BlockEnd)]
    {
      ghost var current := Levels();
      tokens := tokens + [Token(mark, BlockEnd)];
      indent := indents[|indents| - 1];
      indents := indents[..|indents| - 1];
      assert Levels() == current[..|current| - 1];
    }

    /** `remove_simple_key`: fails when the slot of the current flow level
        holds a key that is both possible and required; otherwise that key
        is no longer possible. */
    method RemoveSimpleKey() returns (r: Result<()>)
      requires |simpleKeys| > 0
      modifies this`simpleKeys
      ensures |simpleKeys| == old(|simpleKeys|)
      ensures var last := old(simpleKeys[|simpleKeys| - 1]);
        (r.Err? <==> last.possible && last.required) &&
        (r.Err? ==> simpleKeys == old(simpleKeys) && r.error == ScanError(mark, SimpleKeyExpected)) &&
        (r.Ok? ==> simpleKeys == KeyRemoved(old(simpleKeys)))
      ensures Cleared(simpleKeys, old(simpleKeys))
      ensures old(Valid()) ==> Valid()
      ensures old(Fetching()) ==> Fetching()
    {
      var last := simpleKeys[|simpleKeys| - 1];
      if last.possible && last.required {
        return Err(ScanError(mark, SimpleKeyExpected));
      }
      simpleKeys := KeyRemoved(simpleKeys);
      ClearedKeeps(simpleKeys, old(simpleKeys), mark, tokensParsed, |tokens|);
      return Ok(());
    }

    /** `save_simple_key`: where a simple key is allowed, the current
        position becomes the possible key of the current flow level,
        required when it sits in a flow collection at the indentation
        column.  The key it replaces is removed first. */
    method SaveSimpleKey() returns (r: Result<()>)
      requires simpleKeyAllowed ==> |simpleKeys| > 0
      modifies this`simpleKeys
      ensures |simpleKeys| == old(|simpleKeys|)
      ensures r.Err? <==>
        simpleKeyAllowed && old(simpleKeys[|simpleKeys| - 1]).possible && old(simpleKeys[|simpleKeys| - 1]).required
      ensures r.Err? ==> simpleKeys == old(simpleKeys) && r.error == ScanError(mark, SimpleKeyExpected)
      ensures r.Ok? ==>
        simpleKeys == KeySaved(old(simpleKeys), simpleKeyAllowed, flowLevel > 0 && indent == mark.col, tokensParsed + |tokens|, mark)
      ensures old(Fetching()) && r.Ok? ==> Between() && KeysNotAfter(simpleKeys, mark)
    {
      if Fetching() {
        BehindNotAfter(simpleKeys, mark);
      }
      var required := flowLevel > 0 && indent == mark.col;
      if simpleKeyAllowed {
        var sk := NewSimpleKey(mark);
        sk := sk.(possible := true, required := required, tokenNumber := tokensParsed + |tokens|);
        var removed := RemoveSimpleKey();
        if removed.Err? {
          return removed;
        }
        simpleKeys := simpleKeys[|simpleKeys| - 1 := sk];
      }
      return Ok(());
    }

    /** `stale_simple_keys`: a possible key on an earlier line or more than
        1024 characters back stops being possible; if it was required that
        is an error. */
    method StaleSimpleKeys() returns (r: Result<()>)
      modifies this`simpleKeys
      ensures |simpleKeys| == old(|simpleKeys|)
      ensures r.Ok? <==> NoRequiredStale(old(simpleKeys), mark)
      ensures r.Ok? ==> AllRefreshed(simpleKeys, old(simpleKeys), mark)
      ensures r.Err? ==> r.error == ScanError(mark, SimpleKeyExpectColon)
      ensures r.Ok? ==> Cleared(simpleKeys, old(simpleKeys))
      ensures r.Ok? && old(Valid()) ==> Valid()
      ensures r.Ok? && old(Fetching()) ==> Fetching()
    {
      var i := 0;
      while i < |simpleKeys|
        invariant 0 <= i <= |simpleKeys| == |old(simpleKeys)|
        invariant forall j :: 0 <= j < i ==>
          simpleKeys[j] == Refreshed(old(simpleKeys)[j], mark) &&
          !(IsStale(old(simpleKeys)[j], mark) && old(simpleKeys)[j].required)
        invariant forall j :: i <= j < |simpleKeys| ==> simpleKeys[j] == old(simpleKeys)[j]
      {
        var sk := simpleKeys[i];
        if sk.possible && (sk.mark.line < mark.line || sk.mark.index + 1024 < mark.index) {
          if sk.required {
            return Err(ScanError(mark, SimpleKeyExpectColon));
          }
          simpleKeys := simpleKeys[i := sk.(possible := false)];
        }
        i := i + 1;
      }
      RefreshedCleared(simpleKeys, old(simpleKeys), mark);
      ClearedKeeps(simpleKeys, old(simpleKeys), mark, tokensParsed, |tokens|);
      return Ok(());
    }

    /** `increase_flow_level`: pushes an empty slot for the new level, then
        fails if the u8 depth would overflow. */
    method IncreaseFlowLevel() returns (r: Result<()>)
      modifies this`simpleKeys, this`flowLevel
      ensures simpleKeys == old(simpleKeys) + [NewSimpleKey(Marker(0, 0, 0))]
      ensures r.Err? <==> old(flowLevel) == 255
      ensures r.Ok? ==> flowLevel as int == old(flowLevel) as int + 1
      ensures r.Err? ==> flowLevel == old(flowLevel) && r.error == ScanError(mark, RecursionLimit)
      ensures r.Ok? && old(Between() && KeysNotAfter(simpleKeys, mark)) ==> Between() && KeysNotAfter(simpleKeys, mark)
    {
      simpleKeys := simpleKeys + [NewSimpleKey(New(0, 0, 0))];
      if flowLevel == 255 {
        return Err(ScanError(mark, RecursionLimit));
      }
      flowLevel := flowLevel + 1;
      return Ok(());
    }

    /** `decrease_flow_level`: leaves a flow level and drops its slot; does
        nothing outside flow collections. */
    method DecreaseFlowLevel()
      requires flowLevel > 0 ==> |simpleKeys| > 0
      modifies this`simpleKeys, this`flowLevel
      ensures old(flowLevel) > 0 ==>
        flowLevel as int == old(flowLevel) as int - 1 && simpleKeys == old(simpleKeys[..|simpleKeys| - 1])
      ensures old(flowLevel) == 0 ==> flowLevel == 0 && simpleKeys == old(simpleKeys)
      ensures old(Fetching()) ==> Fetching()
    {
      if flowLevel > 0 {
        flowLevel := flowLevel - 1;
        simpleKeys := simpleKeys[..|simpleKeys| - 1];
      }
    }

    /** The source's `while is_alpha(ch) { string.push(ch); skip;
        lookahead(1) }` loops: consumes the run of word characters and
        returns it. */
    method ScanAlphas() returns (s: string)
      requires Reading()
      modifies this`bufLen, this`rdrPos, this`mark
      ensures Reading() && bufLen >= 1 && Moved(old(mark), mark)
      ensures mark.index == SpanEnd(input, old(mark.index), Alpha)
      ensures s == Span(input, old(mark.index), Alpha)
    {
      var start := mark.index;
      s := [];
      Lookahead(1);
      while IsAlpha(Ch(0))
        invariant Reading() && bufLen >= 1 && Moved(old(mark), mark)
        invariant start <= mark.index
        invariant SpanEnd(input, mark.index, Alpha) == SpanEnd(input, start, Alpha)
        invariant s == Slice(input, start, mark.index - start)
        decreases |input| - mark.index
      {
        s := s + [Ch(0)];
        Skip();
        Lookahead(1);
      }
    }

    /** The source's `while is_blank(ch) { skip; lookahead(1) }` loops. */
    method SkipBlanks()
      requires Reading()
      modifies this`bufLen, this`rdrPos, this`mark
      ensures Reading() && bufLen >= 1 && Moved(old(mark), mark)
      ensures mark.index == SpanEnd(input, old(mark.index), Blank) && mark == MarkAfter(input, old(mark), mark.index)
    {
      Lookahead(1);
      while IsBlank(Ch(0))
        invariant Reading() && bufLen >= 1 && Moved(old(mark), mark)
        invariant SpanEnd(input, mark.index, Blank) == SpanEnd(input, old(mark.index), Blank)
        invariant old(mark.index) <= mark.index && mark == MarkAfter(input, old(mark), mark.index)
        decreases |input| - mark.index
      {
        Skip();
        Lookahead(1);
      }
    }

    /** The source's `while !is_breakz(ch) { skip; lookahead(1) }` loops,
        which skip the rest of a line. */
    method SkipToBreakz()
      requires Reading()
      modifies this`bufLen, this`rdrPos, this`mark
      ensures Reading() && bufLen >= 1 && Moved(old(mark), mark)
      ensures mark.index == SpanEnd(input, old(mark.index), NonBreakz) && mark == MarkAfter(input, old(mark), mark.index)
    {
      Lookahead(1);
      while !IsBreakz(Ch(0))
        invariant Reading() && bufLen >= 1 && Moved(old(mark), mark)
        invariant SpanEnd(input, mark.index, NonBreakz) == SpanEnd(input, old(mark.index), NonBreakz)
        invariant old(mark.index) <= mark.index && mark == MarkAfter(input, old(mark), mark.index)
        decreases |input| - mark.index
      {
        Skip();
        Lookahead(1);
      }
    }

    /** `scan_directive_name`: the name as `DirectiveName` reads it,
        errors reported where the name starts. */
    method ScanDirectiveName() returns (r: Result<string>)
      requires Reading()
      modifies this`bufLen, this`rdrPos, this`mark
      ensures Reading() && bufLen >= 1 && Moved(old(mark), mark)
      ensures var d := DirectiveName(input, old(mark.index));
        (r.Ok? <==> d.Decoded?) &&
        (r.Ok? ==> r.value == d.value && mark.index == old(mark.index) + d.length) &&
        (r.Err? ==> r.error == ScanError(old(mark), d.kind))
    {
      var startMark := mark;
      var s := ScanAlphas();
      if s == [] {
        return Err(ScanError(startMark, DirectiveNoName));
      }
      if !IsBlankz(Ch(0)) {
        return Err(ScanError(startMark, DirectiveBadNameChar));
      }
      return Ok(s);
    }

    /** `scan_version_directive_number`, errors reported at `m`. */
    method ScanVersionDirectiveNumber(m: Marker) returns (r: Result<nat>)
      requires Reading()
      modifies this`bufLen, this`rdrPos, this`mark
      ensures Reading() && bufLen >= 1 && Moved(old(mark), mark)
      ensures var d := VersionNumber(input, old(mark.index));
        (r.Ok? <==> d.Decoded?) &&
        (r.Ok? ==> r.value == d.value && mark.index == old(mark.index) + d.length) &&
        (r.Err? ==> r.error == ScanError(m, d.kind))
    {
      var start := mark.index;
      var val: nat := 0;
      var length := 0;
      Lookahead(1);
      while IsDigit(Ch(0))
        invariant Reading() && bufLen >= 1 && Moved(old(mark), mark)
        invariant length == mark.index - start
        invariant VersionDigits(input, mark.index, length, val) == VersionNumber(input, start)
        decreases |input| - mark.index
      {
        if length + 1 > 9 {
          return Err(ScanError(m, VersionTooLong));
        }
        length := length + 1;
        val := val * 10 + DigitValue(Ch(0));
        Skip();
        Lookahead(1);
      }
      if length == 0 {
        return Err(ScanError(m, VersionNoNumber));
      }
      return Ok(val);
    }

    /** `scan_version_directive_value`: the token for `%YAML MAJOR.MINOR`,
        marked and with errors reported at `m`. */
    method ScanVersionDirectiveValue(m: Marker) returns (r: Result<Token>)
      requires Reading()
      modifies this`bufLen, this`rdrPos, this`mark
      ensures Reading() && bufLen >= 1 && Moved(old(mark), mark)
      ensures var d := VersionValue(input, old(mark.index));
        (r.Ok? <==> d.Decoded?) &&
        (r.Ok? ==>
          r.value == Token(m, VersionDirective(d.value.0, d.value.1)) &&
          mark.index == old(mark.index) + d.length) &&
        (r.Err? ==> r.error == ScanError(m, d.kind))
    {
      SkipBlanks();
      var major := ScanVersionDirectiveNumber(m);
      if major.Err? {
        return Err(major.error);
      }
      if Ch(0) != '.' {
        return Err(ScanError(m, VersionNoDot));
      }
      Skip();
      var minor := ScanVersionDirectiveNumber(m);
      if minor.Err? {
        return Err(minor.error);
      }
      return Ok(Token(m, VersionDirective(major.value, minor.value)));
    }

    /** `scan_tag_handle`, errors reported at `m`. */
    method ScanTagHandle(directive: bool, m: Marker) returns (r: Result<string>)
      requires Reading()
      modifies this`bufLen, this`rdrPos, this`mark
      ensures Reading() && bufLen >= 1 && Moved(old(mark), mark)
      ensures r.Ok? ==> Advanced(old(mark), mark)
      ensures var d := TagHandle(input, old(mark.index), directive);
        (r.Ok? <==> d.Decoded?) &&
        (r.Ok? ==> r.value == d.value && mark.index == old(mark.index) + d.length) &&
        (r.Err? ==> r.error == ScanError(m, d.kind))
    {
      Lookahead(1);
      if Ch(0) != '!' {
        return Err(ScanError(m, TagNoBang));
      }
      var s := [Ch(0)];
      Skip();
      var name := ScanAlphas();
      s := s + name;
      if Ch(0) == '!' {
        s := s + [Ch(0)];
        Skip();
        Lookahead(1);
      } else if directive && s != "!" {
        return Err(ScanError(m, TagDirectiveNoBang));
      }
      return Ok(s);
    }

    /** Looks at the next three characters for an escaped octet `%XX`,
        without consuming them. */
    method PeekOctet(m: Marker) returns (r: Result<nat>)
      requires Buffered()
      modifies this`bufLen, this`rdrPos
      ensures Buffered() && bufLen >= 3
      ensures r.Ok? <==> IsEscapedOctet(input, mark.index)
      ensures r.Ok? ==> r.value == OctetAt(input, mark.index)
      ensures r.Err? ==> r.error == ScanError(m, UriNoOctet)
    {
      Lookahead(3);
      if !(Ch(0) == '%' && IsHex(Ch(1)) && IsHex(Ch(2))) {
        return Err(ScanError(m, UriNoOctet));
      }
      return Ok(AsHex(Ch(1)) * 16 + AsHex(Ch(2)));
    }

    /** One turn of `scan_uri_escapes`' loop: the escaped octet at the
        position, taken as the leading octet while `width` is 0 and as a
        trailing one after. */
    method ScanUriOctet(width: nat, code: nat, m: Marker) returns (r: Result<(nat, nat)>)
      requires Reading()
      modifies this`bufLen, this`rdrPos, this`mark
      ensures Reading() && Moved(old(mark), mark)
      ensures var d := UriOctet(input, old(mark.index), width, code);
        (r.Ok? <==> d.Decoded?) &&
        (r.Ok? ==> r.value == d.value && mark.index == old(mark.index) + 3) &&
        (r.Err? ==> r.error == ScanError(m, d.kind) && mark == old(mark))
    {
      var octet := PeekOctet(m);
      if octet.Err? {
        return Err(octet.error);
      }
      var next := (width, code * 256 + octet.value);
      if width == 0 {
        var w := LeadWidth(octet.value);
        if w == 0 {
          return Err(ScanError(m, UriBadLeadOctet));
        }
        next := (w, octet.value);
      } else if !IsTrail(octet.value) {
        return Err(ScanError(m, UriBadTrailOctet));
      }
      Skip();
      Skip();
      Skip();
      return Ok(next);
    }

    /** `scan_uri_escapes`: one escaped character, as `UriEscape` decodes
        it, errors reported at `m`. */
    method ScanUriEscapes(directive: bool, m: Marker) returns (r: Result<char>)
      requires Reading()
      modifies this`bufLen, this`rdrPos, this`mark
      ensures Reading() && Moved(old(mark), mark)
      ensures var d := UriEscape(input, old(mark.index));
        (r.Ok? <==> d.Decoded?) &&
        (r.Ok? ==> r.value == d.value && mark.index == old(mark.index) + d.length) &&
        (r.Err? ==> r.error == ScanError(m, d.kind))
    {
      var width: nat := 0;
      var code: nat := 0;
      var start := mark.index;
      while true
        invariant Reading() && Moved(old(mark), mark) && start <= mark.index
        invariant width == 0 ==> mark.index == start && code == 0
        invariant UriOctets(input, mark.index, width, code, mark.index - start) == UriEscape(input, start)
        decreases if width == 0 then 4 else width
      {
        var step := ScanUriOctet(width, code, m);
        if step.Err? {
          return Err(step.error);
        }
        width, code := step.value.0 - 1, step.value.1;
        if width == 0 {
          break;
        }
      }
      match FromU32(code)
      case Some(c) =>
        return Ok(c);
      case None =>
        return Err(ScanError(m, UriBadCodepoint));
    }

    /** One turn of `scan_tag_uri`'s loop, at a URI character. */
    method ScanUriChar(directive: bool, m: Marker) returns (r: Result<char>)
      requires Reading() && bufLen >= 1 && IsUriChar(Ch(0))
      modifies this`bufLen, this`rdrPos, this`mark
      ensures Reading() && Moved(old(mark), mark)
      ensures var d := UriStep(input, old(mark.index));
        (r.Ok? <==> d.Decoded?) &&
        (r.Ok? ==> r.value == d.value && mark.index == old(mark.index) + d.length) &&
        (r.Err? ==> r.error == ScanError(m, d.kind))
    {
      if Ch(0) == '%' {
        r := ScanUriEscapes(directive, m);
      } else {
        r := Ok(Ch(0));
        Skip();
      }
    }

    /** `scan_tag_uri` after the handle `head`, errors reported at `m`. */
    method ScanTagUri(directive: bool, isSecondary: bool, head: string, m: Marker) returns (r: Result<string>)
      requires Reading()
      modifies this`bufLen, this`rdrPos, this`mark
      ensures Reading() && Moved(old(mark), mark)
      ensures r.Ok? ==> bufLen >= 1
      ensures var d := TagUri(input, old(mark.index), head);
        (r.Ok? <==> d.Decoded?) &&
        (r.Ok? ==> r.value == d.value && mark.index == old(mark.index) + d.length) &&
        (r.Err? ==> r.error == ScanError(m, d.kind))
    {
      var start := mark.index;
      r := ScanUriRun(directive, if |head| > 1 then head[1..] else [], m);
      if r.Ok? && |head| == 0 && mark.index == start {
        r := Err(ScanError(m, TagNoUri));
      }
    }

    /** The loop of `scan_tag_uri`: URI characters and escapes appended to
        `init` up to the first other character. */
    method ScanUriRun(directive: bool, init: string, m: Marker) returns (r: Result<string>)
      requires Reading()
      modifies this`bufLen, this`rdrPos, this`mark
      ensures Reading() && Moved(old(mark), mark)
      ensures r.Ok? ==> bufLen >= 1
      ensures var d := UriRun(input, old(mark.index), init, 0);
        (r.Ok? <==> d.Decoded?) &&
        (r.Ok? ==> r.value == d.value && mark.index == old(mark.index) + d.length) &&
        (r.Err? ==> r.error == ScanError(m, d.kind))
    {
      var start := mark.index;
      var s := init;
      ghost var goal := UriRun(input, start, s, 0);
      Lookahead(1);
      while IsUriChar(Ch(0))
        invariant Reading() && bufLen >= 1 && Moved(old(mark), mark) && start <= mark.index
        invariant UriRun(input, mark.index, s, mark.index - start) == goal
        decreases |input| - mark.index
      {
        ghost var i := mark.index;
        var e := ScanUriChar(directive, m);
        if e.Err? {
          return Err(e.error);
        }
        assert UriRun(input, i, s, i - start) == UriRun(input, mark.index, s + [e.value], mark.index - start);
        s := s + [e.value];
        Lookahead(1);
      }
      return Ok(s);
    }

    /** `scan_tag_directive_value`: the token for `%TAG HANDLE PREFIX`,
        marked and with errors reported at `m`. */
    method ScanTagDirectiveValue(m: Marker) returns (r: Result<Token>)
      requires Reading()
      modifies this`bufLen, this`rdrPos, this`mark
      ensures Reading() && Moved(old(mark), mark)
      ensures var d := TagDirectiveValue(input, old(mark.index));
        (r.Ok? <==> d.Decoded?) &&
        (r.Ok? ==>
          r.value == Token(m, TagDirective(d.value.0, d.value.1)) &&
          mark.index == old(mark.index) + d.length) &&
        (r.Err? ==> r.error == ScanError(m, d.kind))
    {
      SkipBlanks();
      var handle := ScanTagHandle(true, m);
      if handle.Err? {
        return Err(handle.error);
      }
      var isSecondary := handle.value == "!!";
      var prefix := ScanTagPrefix(isSecondary, m);
      if prefix.Err? {
        return Err(prefix.error);
      }
      return Ok(Token(m, TagDirective(handle.value, prefix.value)));
    }

    /** The prefix of a TAG directive, after its handle. */
    method ScanTagPrefix(isSecondary: bool, m: Marker) returns (r: Result<string>)
      requires Reading()
      modifies this`bufLen, this`rdrPos, this`mark
      ensures Reading() && Moved(old(mark), mark)
      ensures var d := TagPrefix(input, old(mark.index));
        (r.Ok? <==> d.Decoded?) &&
        (r.Ok? ==> r.value == d.value && mark.index == old(mark.index) + d.length) &&
        (r.Err? ==> r.error == ScanError(m, d.kind))
    {
      SkipBlanks();
      var prefix := ScanTagUri(true, isSecondary, [], m);
      if prefix.Err? {
        return Err(prefix.error);
      }
      Lookahead(1);
      if IsBlankz(Ch(0)) {
        return Ok(prefix.value);
      }
      return Err(ScanError(m, TagDirectiveNoBlank));
    }

    /** The part of `scan_directive` that reads the value of the directive
        named `name`, whose token is marked at `m`. */
    method ScanDirectiveValue(name: string, m: Marker) returns (r: Result<Token>)
      requires Reading()
      modifies this`bufLen, this`rdrPos, this`mark
      ensures Reading() && Moved(old(mark), mark)
      ensures var d := DirectiveValue(input, old(mark.index), name);
        (r.Ok? <==> d.Decoded?) &&
        (r.Ok? ==> r.value == Token(m, d.value) && mark.index == old(mark.index) + d.length) &&
        (r.Err? ==> r.error == ScanError(m, d.kind))
    {
      if name == "YAML" {
        r := ScanVersionDirectiveValue(m);
      } else if name == "TAG" {
        r := ScanTagDirectiveValue(m);
      } else {
        SkipToBreakz();
        r := Ok(Token(m, TagDirective([], [])));
      }
    }

    /** The part of `scan_directive` after the value: blanks, then a comment
        if one starts there. */
    method SkipDirectiveTrail()
      requires Reading()
      modifies this`bufLen, this`rdrPos, this`mark
      ensures Reading() && bufLen >= 1 && Moved(old(mark), mark)
      ensures mark.index == DirectiveLineEnd(input, old(mark.index))
    {
      SkipBlanks();
      if Ch(0) == '#' {
        SkipToBreakz();
      }
    }

    /** The part of `scan_directive` after the name: the value, the rest of
        the line and its break; the token is marked at `m`, and so are the
        errors. */
    method ScanDirectiveRest(name: string, m: Marker) returns (r: Result<Token>)
      requires Reading()
      modifies this`bufLen, this`rdrPos, this`mark
      ensures Reading() && Moved(old(mark), mark)
      ensures var d := DirectiveRest(input, old(mark.index), name);
        (r.Ok? <==> d.Decoded?) &&
        (r.Ok? ==> r.value == Token(m, d.value) && mark.index == old(mark.index) + d.length) &&
        (r.Err? ==> r.error == ScanError(m, d.kind))
    {
      var tok := ScanDirectiveValue(name, m);
      if tok.Err? {
        return Err(tok.error);
      }
      SkipDirectiveTrail();
      if !IsBreakz(Ch(0)) {
        return Err(ScanError(m, DirectiveNoLineBreak));
      }
      if IsBreak(Ch(0)) {
        Lookahead(2);
        SkipLine();
      }
      return Ok(tok.value);
    }

    /** `scan_directive` at a '%': the directive's token, marked at the
        '%'.  A malformed name is reported where the name starts, every
        other error at the '%'. */
    method ScanDirective() returns (r: Result<Token>)
      requires Reading() && bufLen >= 1 && Ch(0) == '%'
      modifies this`bufLen, this`rdrPos, this`mark
      ensures Reading() && Advanced(old(mark), mark)
      ensures var d := DirectiveAt(input, old(mark.index));
        (r.Ok? <==> d.Decoded?) &&
        (r.Ok? ==> r.value == Token(old(mark), d.value) && mark.index == old(mark.index) + d.length) &&
        (r.Err? ==>
          r.error == ScanError(
            if DirectiveName(input, old(mark.index) + 1).Decoded? then old(mark) else Advance(old(mark), '%'),
            d.kind))
    {
      var startMark := mark;
      Skip();
      ghost var nameAt := mark.index;
      assert nameAt == startMark.index + 1;
      var name := ScanDirectiveName();
      if name.Err? {
        return Err(name.error);
      }
      r := ScanDirectiveRest(name.value, startMark);
    }
    /** The verbatim branch of `scan_tag`, at `!<`; errors marked at `m`. */
    method ScanVerbatimTag(m: Marker) returns (r: Result<(string, string)>)
      requires Reading() && bufLen >= 2 && Ch(0) == '!' && Ch(1) == '<'
      modifies this`bufLen, this`rdrPos, this`mark
      ensures Reading() && Moved(old(mark), mark)
      ensures r.Ok? ==> Advanced(old(mark), mark)
      ensures var d := VerbatimTag(input, old(mark.index));
        (r.Ok? <==> d.Decoded?) &&
        (r.Ok? ==> r.value == d.value && mark.index == old(mark.index) + d.length) &&
        (r.Err? ==> r.error == ScanError(m, d.kind))
    {
      Skip();
      Skip();
      var uri := ScanTagUri(false, false, [], m);
      if uri.Err? {
        return Err(uri.error);
      }
      if Ch(0) != '>' {
        return Err(ScanError(m, TagNoClosingAngle));
      }
      Skip();
      return Ok(([], uri.value));
    }

    /** The `!handle!suffix` / `!suffix` branch of `scan_tag`; errors marked
        at `m`. */
    method ScanShorthandTag(m: Marker) returns (r: Result<(string, string)>)
      requires Reading()
      modifies this`bufLen, this`rdrPos, this`mark
      ensures Reading() && Moved(old(mark), mark)
      ensures r.Ok? ==> Advanced(old(mark), mark)
      ensures var d := ShorthandTag(input, old(mark.index));
        (r.Ok? <==> d.Decoded?) &&
        (r.Ok? ==> r.value == d.value && mark.index == old(mark.index) + d.length) &&
        (r.Err? ==> r.error == ScanError(m, d.kind))
    {
      var h := ScanTagHandle(false, m);
      if h.Err? {
        return Err(h.error);
      }
      var handle := h.value;
      if |handle| >= 2 && handle[0] == '!' && handle[|handle| - 1] == '!' {
        var secondary := handle == "!!";
        var uri := ScanTagUri(false, secondary, [], m);
        if uri.Err? {
          return Err(uri.error);
        }
        return Ok((handle, uri.value));
      }
      var uri := ScanTagUri(false, false, handle, m);
      if uri.Err? {
        return Err(uri.error);
      }
      var suffix := uri.value;
      handle := "!";
      if suffix == [] {
        handle := [];
        suffix := "!";
      }
      return Ok((handle, suffix));
    }

    /** The tag itself, without the check that ends it: verbatim after
        "!<", shorthand otherwise; errors are marked at `m`. */
    method ScanTagForm(m: Marker) returns (r: Result<(string, string)>)
      requires Reading() && bufLen >= 2 && Ch(0) == '!'
      modifies this`bufLen, this`rdrPos, this`mark
      ensures Reading() && Moved(old(mark), mark)
      ensures r.Ok? ==> Advanced(old(mark), mark)
      ensures var d := if At(input, old(mark.index) + 1) == '<' then VerbatimTag(input, old(mark.index))
        else ShorthandTag(input, old(mark.index));
        (r.Ok? <==> d.Decoded?) &&
        (r.Ok? ==> r.value == d.value && mark.index == old(mark.index) + d.length) &&
        (r.Err? ==> r.error == ScanError(m, d.kind))
    {
      if Ch(1) == '<' {
        r := ScanVerbatimTag(m);
      } else {
        r := ScanShorthandTag(m);
      }
    }

    /** `scan_tag` at a '!': the token and the errors are marked at the
        '!'. */
    method ScanTag() returns (r: Result<Token>)
      requires Reading() && bufLen >= 1 && Ch(0) == '!'
      modifies this`bufLen, this`rdrPos, this`mark
      ensures Reading() && Moved(old(mark), mark)
      ensures r.Ok? ==> Advanced(old(mark), mark)
      ensures var d := TagAt(input, old(mark.index));
        (r.Ok? <==> d.Decoded?) &&
        (r.Ok? ==>
          r.value == Token(old(mark), Tag(d.value.0, d.value.1)) &&
          mark.index == old(mark.index) + d.length) &&
        (r.Err? ==> r.error == ScanError(old(mark), d.kind))
    {
      var startMark := mark;
      Lookahead(2);
      var t := ScanTagForm(startMark);
      ghost var d := if At(input, startMark.index + 1) == '<' then VerbatimTag(input, startMark.index)
        else ShorthandTag(input, startMark.index);
      TagAtEnds(input, startMark.index);
      if t.Err? {
        return Err(t.error);
      }
      assert mark.index == startMark.index + d.length;
      Lookahead(1);
      if IsBlankz(Ch(0)) {
        return Ok(Token(startMark, Tag(t.value.0, t.value.1)));
      }
      return Err(ScanError(startMark, TagNoBlank));
    }

    /** `scan_anchor` at a '&' (an anchor) or a '*' (an alias): the name is
        the run of word characters after it, and must be followed by white
        space or an indicator that may end it.  The token and the error are
        marked at the '&' or '*'. */
    method ScanAnchor(alias: bool) returns (r: Result<Token>)
      requires Reading() && bufLen >= 1 && Ch(0) == (if alias then '*' else '&')
      modifies this`bufLen, this`rdrPos, this`mark
      ensures Reading() && Advanced(old(mark), mark)
      ensures var name := Span(input, old(mark.index) + 1, Alpha);
        mark.index == old(mark.index) + 1 + |name| &&
        (r.Ok? <==> name != [] && AnchorEnd(At(input, mark.index))) &&
        (r.Ok? ==> r.value == Token(old(mark), if alias then Alias(name) else Anchor(name))) &&
        (r.Err? ==> r.error == ScanError(old(mark), AnchorNoName))
    {
      var startMark := mark;
      Skip();
      var s := ScanAlphas();
      if s == [] || !AnchorEnd(Ch(0)) {
        return Err(ScanError(startMark, AnchorNoName));
      }
      if alias {
        return Ok(Token(startMark, Alias(s)));
      }
      return Ok(Token(startMark, Anchor(s)));
    }
    /** `fetch_comment` at a '#': queues a Comment token, marked at the '#',
        whose text is the rest of the line after the leading '#' and ' '
        characters. */
    method FetchComment()
      requires Reading() && bufLen >= 1 && Ch(0) == '#'
      modifies this`bufLen, this`rdrPos, this`mark, this`tokens
      ensures Reading() && bufLen >= 1 && Advanced(old(mark), mark)
      ensures mark.index == SpanEnd(input, old(mark.index), NonBreakz)
      ensures tokens == old(tokens) + [Token(old(mark), Comment(CommentText(input, old(mark.index) + 1)))]
    {
      var startMark := mark;
      var comment := [];
      var started := false;
      Skip();
      Lookahead(1);
      var start := mark.index;
      while !IsBreakz(Ch(0))
        invariant Reading() && bufLen >= 1 && Advanced(startMark, mark) && start <= mark.index
        invariant SpanEnd(input, mark.index, NonBreakz) == SpanEnd(input, start, NonBreakz)
        invariant CommentFrom(input, mark.index, started, comment) == CommentText(input, start)
        invariant tokens == old(tokens)
        decreases |input| - mark.index
      {
        var c := Ch(0);
        if !started && (c == '#' || c == ' ') {
          Skip();
          Lookahead(1);
          continue;
        } else {
          started := true;
        }
        comment := comment + [c];
        Skip();
        Lookahead(1);
      }
      tokens := tokens + [Token(startMark, Comment(comment))];
    }

    /** The value of the `n` hex digits at the head of the buffer,
        accumulated as `(value << 4) + digit`, or None when one of them is
        not a hex digit.  At most 8 digits are read, so the source's `u32`
        accumulator does not overflow. */
    method PeekHexCode(n: nat) returns (v: Option<nat>)
      requires n <= bufLen
      ensures v.Some? <==> AllHex(Slice(input, mark.index, n))
      ensures v.Some? ==> v.value == HexValue(Slice(input, mark.index, n))
    {
      var value: nat := 0;
      var k: nat := 0;
      while k < n
        invariant k <= n && AllHex(Slice(input, mark.index, k)) && value == HexValue(Slice(input, mark.index, k))
      {
        if !IsHex(Ch(k)) {
          assert Slice(input, mark.index, n)[k] == Ch(k);
          return None;
        }
        assert Slice(input, mark.index, k + 1)[..k] == Slice(input, mark.index, k);
        value := value * 16 + AsHex(Ch(k));
        k := k + 1;
      }
      return Some(value);
    }

    /** `for _ in 0..n { skip }` over characters of the input. */
    method SkipN(n: nat)
      requires Reading() && n <= bufLen && mark.index + n <= |input|
      modifies this`bufLen, this`mark
      ensures Reading() && bufLen == old(bufLen) - n
      ensures mark.index == old(mark.index) + n && mark == MarkAfter(input, old(mark), mark.index)
    {
      var k := 0;
      while k < n
        invariant k <= n && Reading() && bufLen == old(bufLen) - k
        invariant mark.index == old(mark.index) + k && mark == MarkAfter(input, old(mark), mark.index)
      {
        Skip();
        k := k + 1;
      }
    }

    /** The escape sequence at the head of the buffer (a backslash and the
        character after it) in a double-quoted scalar: a one-letter escape,
        or `\x`, `\u`, `\U` followed by 2, 4 or 8 hex digits.  Errors are
        marked at `startMark`. */
    method ScanEscape(startMark: Marker) returns (r: Result<char>)
      requires Reading() && bufLen >= 2 && Ch(0) == '\\'
      modifies this`bufLen, this`rdrPos, this`mark
      ensures Reading()
      ensures var d := QuotedEscape(input, old(mark.index));
        (r.Ok? <==> d.Decoded?) &&
        (r.Ok? ==> r.value == d.value && mark.index == old(mark.index) + d.length &&
                   mark == MarkAfter(input, old(mark), mark.index)) &&
        (r.Err? ==> r.error == ScanError(startMark, d.kind))
    {
      var c := Ch(1);
      var simple := EscapeChar(c);
      var codeLength := EscapeCodeLength(c);
      if simple.None? && codeLength == 0 {
        return Err(ScanError(startMark, UnknownEscape));
      }
      SkipN(2);
      if codeLength == 0 {
        return Ok(simple.value);
      }
      Lookahead(codeLength);
      var value := PeekHexCode(codeLength);
      if value.None? {
        return Err(ScanError(startMark, EscapeNoHex));
      }
      var decoded := FromU32(value.value);
      if decoded.None? {
        return Err(ScanError(startMark, EscapeBadCodepoint));
      }
      assert IsHex(Slice(input, mark.index, codeLength)[codeLength - 1]);
      ghost var digitsAt := mark;
      SkipN(codeLength);
      MarkAfterTrans(input, old(mark), digitsAt.index, mark.index);
      return Ok(decoded.value);
    }

    /** One turn of the non-blank loop of `scan_flow_scalar`, as
        `QuotedRunStep` reads it: `stop` when the run ends, with
        `escapedBreak` when it ended after an escaped line break. */
    method ScanQuotedChar(single: bool, startMark: Marker, text: string) returns (r: Result<string>, stop: bool, escapedBreak: bool)
      requires Reading() && bufLen >= 2
      modifies this`bufLen, this`rdrPos, this`mark
      ensures Reading()
      ensures var st := QuotedRunStep(input, old(mark.index), single, text);
        (r.Err? <==> st.Stopped? && st.run.RunFailed?) &&
        (r.Err? ==> r.error == ScanError(startMark, st.run.kind)) &&
        (r.Ok? ==>
          bufLen >= 2 && old(mark.index) <= mark.index && mark == MarkAfter(input, old(mark), mark.index) &&
          (stop <==> st.Stopped?) &&
          (st.Stopped? ==> st.run == Run(r.value, mark.index, escapedBreak)) &&
          (st.Step? ==> st == Step(r.value, mark.index)))
    {
      ghost var st := QuotedRunStep(input, mark.index, single, text);
      var c := Ch(0);
      if IsBlankz(c) {
        return Ok(text), true, false;
      } else if single && c == '\'' && Ch(1) == '\'' {
        assert st == Step(text + ['\''], mark.index + 2);
        SkipN(2);
        Lookahead(2);
        return Ok(text + ['\'']), false, false;
      } else if Closing(c, single) {
        return Ok(text), true, false;
      } else if !single && c == '\\' && IsBreak(Ch(1)) {
        assert st == Stopped(Run(text, mark.index + 1 + BreakAt(input, mark.index + 1), true));
        Lookahead(3);
        Skip();
        ghost var before := mark;
        SkipLine();
        MarkAfterTrans(input, old(mark), before.index, mark.index);
        Lookahead(2);
        return Ok(text), true, true;
      } else if !single && c == '\\' {
        var e := ScanEscape(startMark);
        if e.Err? {
          assert st == Stopped(RunFailed(e.error.kind));
          return Err(e.error), true, false;
        }
        assert st == Step(text + [e.value], mark.index);
        Lookahead(2);
        return Ok(text + [e.value]), false, false;
      }
      assert st == Step(text + [c], mark.index + 1);
      Skip();
      Lookahead(2);
      return Ok(text + [c]), false, false;
    }

    /** The non-blank loop of `scan_flow_scalar`: consumes a run, adding
        its characters to `text` with doubled quotes and escapes decoded;
        stops at white space, at the closing quote, or after an escaped
        line break. */
    method ScanQuotedRun(single: bool, startMark: Marker, text: string) returns (r: Result<string>, escapedBreak: bool)
      requires Reading() && bufLen >= 2
      modifies this`bufLen, this`rdrPos, this`mark
      ensures Reading()
      ensures var run := QuotedRun(input, old(mark.index), single, text);
        (r.Ok? <==> run.Run?) &&
        (r.Ok? ==> r.value == run.text && escapedBreak == run.escapedBreak && mark.index == run.next &&
                   mark == MarkAfter(input, old(mark), mark.index)) &&
        (r.Err? ==> r.error == ScanError(startMark, run.kind))
    {
      ghost var run := QuotedRun(input, old(mark.index), single, text);
      var s := text;
      var stop := false;
      escapedBreak := false;
      while !stop
        invariant Reading() && bufLen >= 2
        invariant old(mark.index) <= mark.index && mark == MarkAfter(input, old(mark), mark.index)
        invariant !stop ==> QuotedRun(input, mark.index, single, s) == run
        invariant stop ==> run == Run(s, mark.index, escapedBreak)
        decreases |input| - mark.index, !stop
      {
        ghost var before := mark;
        var step;
        step, stop, escapedBreak := ScanQuotedChar(single, startMark, s);
        if step.Err? {
          return step, false;
        }
        MarkAfterTrans(input, old(mark), before.index, mark.index);
        s := step.value;
      }
      return Ok(s), escapedBreak;
    }

    /** One turn of the white-space loops of `scan_flow_scalar` and
        `scan_plain_scalar`: a blank is kept until the first line break, the
        first line break goes to `leadingBreak`, later ones to
        `trailingBreaks`. */
    method ConsumeBlank(p: Pending) returns (q: Pending)
      requires Reading() && bufLen >= 1 && (IsBlank(Ch(0)) || IsBreak(Ch(0)))
      modifies this`bufLen, this`rdrPos, this`mark
      ensures Reading() && bufLen >= 0
      ensures var s := BlankStep(input, old(mark.index), p);
        mark.index == s.0 && q == s.1 && mark == MarkAfter(input, old(mark), mark.index)
    {
      if IsBlank(Ch(0)) {
        if p.leadingBlanks {
          q := p;
          Skip();
        } else {
          q := p.(whitespaces := p.whitespaces + [Ch(0)]);
          Skip();
        }
      } else {
        Lookahead(2);
        if p.leadingBlanks {
          var t := ReadBreak(p.trailingBreaks);
          q := p.(trailingBreaks := t);
        } else {
          var t := ReadBreak(p.leadingBreak);
          q := p.(whitespaces := [], leadingBreak := t, leadingBlanks := true);
        }
      }
    }

    /** The white-space loop of `scan_flow_scalar`. */
    method ScanQuotedBlanks(p: Pending) returns (q: Pending)
      requires Reading()
      modifies this`bufLen, this`rdrPos, this`mark
      ensures Reading() && bufLen >= 1
      ensures var b := QuotedBlanks(input, old(mark.index), p);
        mark.index == b.0 && q == b.1 && mark == MarkAfter(input, old(mark), mark.index)
    {
      q := p;
      Lookahead(1);
      while IsBlank(Ch(0)) || IsBreak(Ch(0))
        invariant Reading() && bufLen >= 1
        invariant old(mark.index) <= mark.index && mark == MarkAfter(input, old(mark), mark.index)
        invariant QuotedBlanks(input, mark.index, q) == QuotedBlanks(input, old(mark.index), p)
        decreases |input| - mark.index
      {
        ghost var before := mark;
        q := ConsumeBlank(q);
        MarkAfterTrans(input, old(mark), before.index, mark.index);
        Lookahead(1);
      }
    }

    /** One turn of `scan_flow_scalar`'s loop, as `QuotedTurn` reads it;
        the closing quote is not consumed.  `startMark` is the opening
        quote. */
    method ScanQuotedTurn(single: bool, startMark: Marker, text: string) returns (r: Result<string>, closed: bool)
      requires Reading() && startMark.index < mark.index && mark == MarkAfter(input, startMark, mark.index)
      modifies this`bufLen, this`rdrPos, this`mark
      ensures Reading()
      ensures var t := QuotedTurn(input, startMark, old(mark.index), single, text);
        (r.Err? <==> t.TurnFailed?) &&
        (r.Err? ==> r.error == ScanError(startMark, t.kind)) &&
        (r.Ok? ==>
          (closed <==> t.Closed?) && r.value == t.text && mark.index == t.next && bufLen >= 1 &&
          (closed ==> Closing(Ch(0), single)) && mark == MarkAfter(input, startMark, mark.index))
    {
      ghost var t := QuotedTurn(input, startMark, mark.index, single, text);
      Lookahead(4);
      if mark.col == 0 &&
         ((Ch(0) == '-' && Ch(1) == '-' && Ch(2) == '-') || (Ch(0) == '.' && Ch(1) == '.' && Ch(2) == '.')) &&
         IsBlankz(Ch(3))
      {
        assert DocIndicatorAt(input, mark.index);
        assert t == TurnFailed(QuotedDocumentIndicator);
        return Err(ScanError(startMark, QuotedDocumentIndicator)), false;
      }
      assert !(MarkAfter(input, startMark, mark.index).col == 0 && DocIndicatorAt(input, mark.index));
      if IsZ(Ch(0)) {
        assert t == TurnFailed(QuotedEndOfStream);
        return Err(ScanError(startMark, QuotedEndOfStream)), false;
      }
      Lookahead(2);
      r, closed := ScanQuotedPiece(single, startMark, text);
    }

    /** The turn of `scan_flow_scalar`'s loop past its two error checks: a
        run, then the closing quote or the white space folded after it. */
    method ScanQuotedPiece(single: bool, startMark: Marker, text: string) returns (r: Result<string>, closed: bool)
      requires Reading() && bufLen >= 2 && startMark.index < mark.index && mark == MarkAfter(input, startMark, mark.index)
      requires !(mark.col == 0 && DocIndicatorAt(input, mark.index)) && At(input, mark.index) != '\0'
      modifies this`bufLen, this`rdrPos, this`mark
      ensures Reading()
      ensures var t := QuotedTurn(input, startMark, old(mark.index), single, text);
        (r.Err? <==> t.TurnFailed?) &&
        (r.Err? ==> r.error == ScanError(startMark, t.kind)) &&
        (r.Ok? ==>
          (closed <==> t.Closed?) && r.value == t.text && mark.index == t.next && bufLen >= 1 &&
          (closed ==> Closing(Ch(0), single)) && mark == MarkAfter(input, startMark, mark.index))
    {
      ghost var t := QuotedTurn(input, startMark, mark.index, single, text);
      ghost var runFrom := QuotedRun(input, mark.index, single, text);
      var run, escapedBreak := ScanQuotedRun(single, startMark, text);
      if run.Err? {
        assert t == TurnFailed(runFrom.kind);
        return run, false;
      }
      assert runFrom == Run(run.value, mark.index, escapedBreak);
      MarkAfterTrans(input, startMark, old(mark.index), mark.index);
      ghost var runEnd := mark;
      var joined;
      closed, joined := ScanQuotedTail(single, escapedBreak);
      MarkAfterTrans(input, startMark, runEnd.index, mark.index);
      if closed {
        assert t == Closed(run.value, mark.index);
        return run, true;
      }
      assert t == Continued(run.value + joined, mark.index);
      return Ok(run.value + joined), false;
    }

    /** The end of a turn of `scan_flow_scalar`'s loop, after a run: at the
        closing quote nothing is consumed; otherwise the white space is
        consumed and `joined` is what it folds to. */
    method ScanQuotedTail(single: bool, escapedBreak: bool) returns (closed: bool, joined: string)
      requires Reading()
      modifies this`bufLen, this`rdrPos, this`mark
      ensures Reading() && bufLen >= 1
      ensures old(mark.index) <= mark.index && mark == MarkAfter(input, old(mark), mark.index)
      ensures closed <==> Closing(At(input, old(mark.index)), single)
      ensures closed ==> mark == old(mark) && Closing(Ch(0), single)
      ensures !closed ==>
        var b := QuotedBlanks(input, old(mark.index), Pending([], [], [], escapedBreak));
        joined == Joined(b.1) && mark.index == b.0
    {
      Lookahead(1);
      if Closing(Ch(0), single) {
        return true, [];
      }
      var p := ScanQuotedBlanks(Pending([], [], [], escapedBreak));
      return false, Joined(p);
    }

    /** `scan_flow_scalar` at the opening quote: the scalar `FlowScalar`
        reads, as a token marked at the opening quote; errors are marked
        there too. */
    method ScanFlowScalar(single: bool) returns (r: Result<Token>)
      requires Reading() && bufLen >= 1 && Ch(0) == (if single then '\'' else '"')
      modifies this`bufLen, this`rdrPos, this`mark
      ensures Reading()
      ensures var d := FlowScalar(input, old(mark), single);
        (r.Ok? <==> d.Decoded?) &&
        (r.Ok? ==>
          r.value == Token(old(mark), Scalar(if single then SingleQuoted else DoubleQuoted, d.value)) &&
          mark.index == old(mark.index) + d.length && mark == MarkAfter(input, old(mark), mark.index)) &&
        (r.Err? ==> r.error == ScanError(old(mark), d.kind))
    {
      var startMark := mark;
      var s: string := [];
      Skip();
      var closed := false;
      while !closed
        invariant Reading() && startMark.index < mark.index && mark == MarkAfter(input, startMark, mark.index)
        invariant !closed ==> FlowScalarFrom(input, startMark, mark.index, single, s) == FlowScalar(input, startMark, single)
        invariant closed ==>
          bufLen >= 1 && Closing(Ch(0), single) &&
          FlowScalar(input, startMark, single) == Decoded(s, mark.index + 1 - startMark.index)
        decreases |input| - mark.index, !closed
      {
        var turn;
        turn, closed := ScanQuotedTurn(single, startMark, s);
        if turn.Err? {
          return Err(turn.error);
        }
        s := turn.value;
      }
      ghost var closeAt := mark;
      Skip();
      assert mark == MarkAfter(input, startMark, mark.index) by {
        assert mark == Advance(closeAt, At(input, closeAt.index));
      }
      if single {
        return Ok(Token(startMark, Scalar(SingleQuoted, s)));
      }
      return Ok(Token(startMark, Scalar(DoubleQuoted, s)));
    }

    /** The non-blank loop of `scan_plain_scalar`, as `PlainRun` reads it:
        the pending white space is added before the first character. */
    method ScanPlainRun(inFlow: bool, text: string, p: Pending) returns (t: string, q: Pending)
      requires Reading() && bufLen >= 2
      modifies this`bufLen, this`rdrPos, this`mark
      ensures Reading() && bufLen >= 2
      ensures var run := PlainRun(input, old(mark.index), inFlow, text, p);
        mark.index == run.0 && t == run.1 && q == run.2 && mark == MarkAfter(input, old(mark), mark.index)
    {
      ghost var run := PlainRun(input, old(mark.index), inFlow, text, p);
      t, q := text, p;
      while !IsBlankz(Ch(0))
        invariant Reading() && bufLen >= 2
        invariant old(mark.index) <= mark.index && mark == MarkAfter(input, old(mark), mark.index)
        invariant PlainRun(input, mark.index, inFlow, t, q) == run
        decreases |input| - mark.index
      {
        var c := Ch(0);
        if (c == ':' && (IsBlankz(Ch(1)) || (inFlow && IsFlow(Ch(1))))) ||
           (inFlow && (c == ',' || c == '[' || c == ']' || c == '{' || c == '}'))
        {
          assert run == (mark.index, t, q);
          return;
        }
        if q.leadingBlanks || q.whitespaces != [] {
          t := t + Joined(q);
          q := Flushed(q);
        }
        t := t + [c];
        Skip();
        Lookahead(2);
      }
      assert run == (mark.index, t, q);
    }

    /** The white-space loop of `scan_plain_scalar`, as `PlainBlanks` reads
        it; the tab error is marked at the start of the scalar. */
    method ScanPlainBlanks(startMark: Marker, indent: int, p: Pending) returns (r: Result<Pending>)
      requires Reading() && bufLen >= 1
      requires startMark.index <= mark.index && mark == MarkAfter(input, startMark, mark.index)
      modifies this`bufLen, this`rdrPos, this`mark
      ensures Reading()
      ensures var b := PlainBlanks(input, startMark, old(mark.index), indent, p);
        (r.Err? <==> b.TabInIndent?) &&
        (r.Err? ==> r.error == ScanError(startMark, PlainTab)) &&
        (r.Ok? ==>
          r.value == b.pending && mark.index == b.next && bufLen >= 1 &&
          startMark.index <= mark.index && mark == MarkAfter(input, startMark, mark.index))
    {
      ghost var b := PlainBlanks(input, startMark, old(mark.index), indent, p);
      var q := p;
      while IsBlank(Ch(0)) || IsBreak(Ch(0))
        invariant Reading() && bufLen >= 1
        invariant old(mark.index) <= mark.index && mark == MarkAfter(input, startMark, mark.index)
        invariant PlainBlanks(input, startMark, mark.index, indent, q) == b
        decreases |input| - mark.index
      {
        if IsBlank(Ch(0)) && q.leadingBlanks && mark.col < indent && Ch(0) == '\t' {
          return Err(ScanError(startMark, PlainTab));
        }
        ghost var before := mark;
        q := ConsumeBlank(q);
        MarkAfterTrans(input, startMark, before.index, mark.index);
        Lookahead(1);
      }
      return Ok(q);
    }

    /** One turn of `scan_plain_scalar`'s loop, as `PlainTurnAt` reads it:
        `ended` when the scalar ends here. */
    method ScanPlainTurn(startMark: Marker, inFlow: bool, indent: int, text: string, p: Pending)
      returns (r: Result<(string, Pending)>, ended: bool)
      requires Reading() && startMark.index <= mark.index && mark == MarkAfter(input, startMark, mark.index)
      modifies this`bufLen, this`rdrPos, this`mark
      ensures Reading()
      ensures var tu := PlainTurnAt(input, startMark, old(mark.index), inFlow, indent, text, p);
        (r.Err? <==> tu.TabFailed?) &&
        (r.Err? ==> r.error == ScanError(startMark, PlainTab)) &&
        (r.Ok? ==>
          (ended <==> tu.Ended?) && r.value == (tu.text, tu.pending) && mark.index == tu.next &&
          startMark.index <= mark.index && mark == MarkAfter(input, startMark, mark.index))
    {
      ghost var tu := PlainTurnAt(input, startMark, mark.index, inFlow, indent, text, p);
      Lookahead(4);
      if mark.col == 0 &&
         ((Ch(0) == '-' && Ch(1) == '-' && Ch(2) == '-') || (Ch(0) == '.' && Ch(1) == '.' && Ch(2) == '.')) &&
         IsBlankz(Ch(3))
      {
        assert DocIndicatorAt(input, mark.index);
        return Ok((text, p)), true;
      }
      assert !(MarkAfter(input, startMark, mark.index).col == 0 && DocIndicatorAt(input, mark.index));
      if Ch(0) == '#' {
        return Ok((text, p)), true;
      }
      ghost var runFrom := mark;
      var t, q := ScanPlainRun(inFlow, text, p);
      MarkAfterTrans(input, startMark, runFrom.index, mark.index);
      if !(IsBlank(Ch(0)) || IsBreak(Ch(0))) {
        assert tu == Ended(mark.index, t, q);
        return Ok((t, q)), true;
      }
      Lookahead(1);
      var b := ScanPlainBlanks(startMark, indent, q);
      if b.Err? {
        return Err(b.error), false;
      }
      if !inFlow && mark.col < indent {
        assert tu == Ended(mark.index, t, b.value);
        return Ok((t, b.value)), true;
      }
      assert tu == Again(mark.index, t, b.value);
      return Ok((t, b.value)), false;
    }

    /** `scan_plain_scalar`: the scalar `PlainScalar` reads, inside a flow
        collection when the flow level is positive, at one more than the
        current indentation; marked where it starts.  When it ended in
        white space holding a line break, a simple key is allowed again. */
    method ScanPlainScalar() returns (r: Result<Token>)
      requires Reading()
      modifies this`bufLen, this`rdrPos, this`mark, this`simpleKeyAllowed
      ensures Reading()
      ensures var d := PlainScalar(input, old(mark), flowLevel > 0, indent);
        (r.Ok? <==> d.PlainRead?) &&
        (r.Ok? ==>
          r.value == Token(old(mark), Scalar(Plain, d.text)) &&
          mark.index == d.next && mark == MarkAfter(input, old(mark), mark.index) &&
          simpleKeyAllowed == (d.leadingBlanks || old(simpleKeyAllowed))) &&
        (r.Err? ==> r.error == ScanError(old(mark), PlainTab) && simpleKeyAllowed == old(simpleKeyAllowed))
    {
      var indent := indent + 1;
      var startMark := mark;
      var inFlow := flowLevel > 0;
      var text: string := [];
      var pending := Pending([], [], [], false);
      ghost var d := PlainScalar(input, startMark, inFlow, this.indent);
      var ended := false;
      while !ended
        invariant Reading() && startMark.index <= mark.index && mark == MarkAfter(input, startMark, mark.index)
        invariant !ended ==> PlainFrom(input, startMark, mark.index, inFlow, indent, text, pending) == d
        invariant ended ==> d == PlainRead(text, mark.index, pending.leadingBlanks)
        invariant simpleKeyAllowed == old(simpleKeyAllowed)
        decreases |input| - mark.index, !ended
      {
        var turn;
        turn, ended := ScanPlainTurn(startMark, inFlow, indent, text, pending);
        if turn.Err? {
          return Err(turn.error);
        }
        text, pending := turn.value.0, turn.value.1;
      }
      if pending.leadingBlanks {
        simpleKeyAllowed := true;
      }
      return Ok(Token(startMark, Scalar(Plain, text)));
    }
 
    /** The chomping and indentation indicators of a block scalar header,
        in either order, as `BlockHeader` reads them; an indentation
        indicator of 0 is an error marked at `startMark`. */
    method ScanBlockIndicators(startMark: Marker) returns (r: Result<(int, nat)>)
      requires Reading()
      modifies this`bufLen, this`rdrPos, this`mark
      ensures Reading()
      ensures var h := BlockHeader(input, old(mark.index));
        (r.Err? <==> h.HeaderFailed?) &&
        (r.Err? ==> r.error == ScanError(startMark, IndentIndicatorZero)) &&
        (r.Ok? ==> r.value == (h.chomping, h.increment) && mark.index == h.next &&
                   mark == MarkAfter(input, old(mark), mark.index))
    {
      var chomping := 0;
      var increment := 0;
      Lookahead(2);
      if Ch(0) == '+' || Ch(0) == '-' {
        chomping := if Ch(0) == '+' then 1 else -1;
        Skip();
        Lookahead(1);
        if IsDigit(Ch(0)) {
          if Ch(0) == '0' {
            return Err(ScanError(startMark, IndentIndicatorZero));
          }
          increment := DigitValue(Ch(0));
          ghost var before := mark;
          Skip();
          MarkAfterTrans(input, old(mark), before.index, mark.index);
        }
      } else if IsDigit(Ch(0)) {
        if Ch(0) == '0' {
          return Err(ScanError(startMark, IndentIndicatorZero));
        }
        increment := DigitValue(Ch(0));
        Skip();
        Lookahead(1);
        if Ch(0) == '+' || Ch(0) == '-' {
          chomping := if Ch(0) == '+' then 1 else -1;
          ghost var before := mark;
          Skip();
          MarkAfterTrans(input, old(mark), before.index, mark.index);
        }
      }
      return Ok((chomping, increment));
    }

    /** The indentation spaces at the start of a line of a block scalar
        that starts at `m0`, as `IndentSpaces` reads them. */
    method ScanIndentSpaces(m0: Marker, indent: nat)
      requires Reading() && m0.index <= mark.index && mark == MarkAfter(input, m0, mark.index)
      modifies this`bufLen, this`rdrPos, this`mark
      ensures Reading() && bufLen >= 1
      ensures mark.index == IndentSpaces(input, m0, old(mark.index), indent)
      ensures old(mark.index) <= mark.index && mark == MarkAfter(input, m0, mark.index)
    {
      Lookahead(1);
      while (indent == 0 || mark.col < indent) && Ch(0) == ' '
        invariant Reading() && bufLen >= 1
        invariant old(mark.index) <= mark.index && mark == MarkAfter(input, m0, mark.index)
        invariant IndentSpaces(input, m0, mark.index, indent) == IndentSpaces(input, m0, old(mark.index), indent)
        decreases |input| - mark.index
      {
        Skip();
        Lookahead(1);
      }
    }

    /** One turn of `block_scalar_breaks`'s loop, as `BreaksTurnAt` reads
        it: `ended` at a line that is not empty (not consumed), otherwise
        the line break is consumed and added to `breaks`. */
    method ScanBreaksTurn(m0: Marker, indent: nat, maxIndent: nat, breaks: string)
      returns (r: Result<(nat, string)>, ended: bool)
      requires Reading() && m0.index <= mark.index && mark == MarkAfter(input, m0, mark.index)
      modifies this`bufLen, this`rdrPos, this`mark
      ensures Reading()
      ensures var tu := BreaksTurnAt(input, m0, old(mark.index), indent, maxIndent);
        (r.Err? <==> tu.TurnTab?) &&
        (r.Err? ==> r.error == ScanError(MarkAfter(input, m0, tu.at), BlockScalarTab)) &&
        (r.Ok? ==>
          (ended <==> tu.TurnEnd?) && mark.index == tu.next && r.value.0 == tu.maxIndent &&
          r.value.1 == (if ended then breaks else breaks + "\n") && (ended ==> bufLen >= 1) &&
          old(mark.index) <= mark.index && mark == MarkAfter(input, m0, mark.index))
    {
      ghost var tu := BreaksTurnAt(input, m0, mark.index, indent, maxIndent);
      ScanIndentSpaces(m0, indent);
      var mx := maxIndent;
      if mark.col > mx {
        mx := mark.col;
      }
      if (indent == 0 || mark.col < indent) && Ch(0) == '\t' {
        assert tu == TurnTab(mark.index);
        return Err(ScanError(mark, BlockScalarTab)), false;
      }
      if !IsBreak(Ch(0)) {
        assert tu == TurnEnd(mark.index, mx);
        return Ok((mx, breaks)), true;
      }
      assert tu == TurnBreak(mark.index + BreakAt(input, mark.index), mx);
      Lookahead(2);
      ghost var before := mark;
      var s := ReadBreak(breaks);
      MarkAfterTrans(input, m0, before.index, mark.index);
      return Ok((mx, s)), false;
    }

    /** `block_scalar_breaks`, as `BlockBreaks` reads it from the current
        position with no column reached yet; the tab error is marked where
        the tab is. */
    method ScanBlockBreaks(m0: Marker, indent: nat, breaks: string) returns (r: Result<(nat, string)>)
      requires Reading() && m0.index <= mark.index && mark == MarkAfter(input, m0, mark.index)
      modifies this`bufLen, this`rdrPos, this`mark
      ensures Reading()
      ensures var b := BlockBreaks(input, m0, old(mark.index), indent, 0, this.indent, breaks);
        (r.Err? <==> b.BreaksTab?) &&
        (r.Err? ==> r.error == ScanError(MarkAfter(input, m0, b.at), BlockScalarTab)) &&
        (r.Ok? ==>
          r.value == (b.indent, b.breaks) && mark.index == b.next && bufLen >= 1 &&
          old(mark.index) <= mark.index && mark == MarkAfter(input, m0, mark.index))
    {
      ghost var b := BlockBreaks(input, m0, mark.index, indent, 0, this.indent, breaks);
      var maxIndent: nat := 0;
      var s := breaks;
      var ended := false;
      while !ended
        invariant Reading() && old(mark.index) <= mark.index && mark == MarkAfter(input, m0, mark.index)
        invariant !ended ==> BlockBreaks(input, m0, mark.index, indent, maxIndent, this.indent, s) == b
        invariant ended ==>
          bufLen >= 1 &&
          b == Breaks(mark.index, if indent == 0 then AutoIndent(maxIndent, this.indent) else indent, s)
        decreases |input| - mark.index, !ended
      {
        var turn;
        turn, ended := ScanBreaksTurn(m0, indent, maxIndent, s);
        if turn.Err? {
          return Err(turn.error);
        }
        maxIndent, s := turn.value.0, turn.value.1;
      }
      var resolved: nat := if indent == 0 then AutoIndent(maxIndent, this.indent) else indent;
      return Ok((resolved, s));
    }

    /** The characters of a content line of a block scalar, up to its line
        break or the end of the input, appended to `text`. */
    method ScanLineText(m0: Marker, text: string) returns (t: string)
      requires Reading() && m0.index <= mark.index && mark == MarkAfter(input, m0, mark.index)
      modifies this`bufLen, this`rdrPos, this`mark
      ensures Reading() && bufLen >= 1
      ensures t == text + Span(input, old(mark.index), NonBreakz) && mark.index == SpanEnd(input, old(mark.index), NonBreakz)
      ensures old(mark.index) <= mark.index && mark == MarkAfter(input, m0, mark.index)
    {
      t := text;
      ghost var start := mark.index;
      ghost var end := SpanEnd(input, start, NonBreakz);
      ghost var line := text + Span(input, start, NonBreakz);
      Lookahead(1);
      while !IsBreakz(Ch(0))
        invariant Reading() && bufLen >= 1
        invariant start <= mark.index && mark == MarkAfter(input, m0, mark.index)
        invariant SpanEnd(input, mark.index, NonBreakz) == end
        invariant t + Span(input, mark.index, NonBreakz) == line
        decreases |input| - mark.index
      {
        ghost var i := mark.index;
        SpanCons(input, i, NonBreakz);
        t := t + [Ch(0)];
        Skip();
        assert mark == MarkAfter(input, m0, i + 1);
        Lookahead(1);
      }
      SpanNil(input, mark.index, NonBreakz);
    }

    /** The header line of `scan_block_scalar`, as `HeaderLine` reads it:
        the indicator at `startMark` is skipped, then the chomping and
        indentation indicators, blanks, an optional comment and the line
        break; `r` holds chomping, indentation indicator and where the
        next line starts. */
    method ScanBlockHeader(startMark: Marker) returns (r: Result<(int, nat, nat)>)
      requires Reading() && bufLen >= 1 && Ch(0) != '\0' && startMark == mark
      modifies this`bufLen, this`rdrPos, this`mark
      ensures Reading()
      ensures r == HeaderLine(input, startMark)
      ensures r.Ok? ==> mark.index == r.value.2 && mark == MarkAfter(input, startMark, mark.index)
    {
      Skip();
      Lookahead(1);
      ghost var before := mark;
      assert before == MarkAfter(input, startMark, before.index);
      var ind := ScanBlockIndicators(startMark);
      if ind.Err? {
        return Err(ind.error);
      }
      MarkAfterTrans(input, startMark, before.index, mark.index);
      var ended := ScanHeaderLineEnd(startMark);
      if !ended {
        return Err(ScanError(startMark, BlockScalarNoLineBreak));
      }
      return Ok((ind.value.0, ind.value.1, mark.index));
    }

    /** The rest of a block scalar's header line, as `HeaderLineEnd`
        reads it: blanks and an optional comment, then the line break,
        which is consumed; `ended` is false when something else follows. */
    method ScanHeaderLineEnd(startMark: Marker) returns (ended: bool)
      requires Reading() && startMark.index <= mark.index && mark == MarkAfter(input, startMark, mark.index)
      modifies this`bufLen, this`rdrPos, this`mark
      ensures Reading()
      ensures var e := HeaderLineEnd(input, old(mark.index));
        (ended <==> IsBreakz(At(input, e))) &&
        (ended ==> mark.index == e + BreakAt(input, e) && mark == MarkAfter(input, startMark, mark.index))
    {
      ghost var before := mark;
      SkipBlanks();
      MarkAfterTrans(input, startMark, before.index, mark.index);
      if Ch(0) == '#' {
        before := mark;
        SkipToBreakz();
        MarkAfterTrans(input, startMark, before.index, mark.index);
      }
      if !IsBreakz(Ch(0)) {
        return false;
      }
      if IsBreak(Ch(0)) {
        Lookahead(2);
        before := mark;
        SkipLine();
        MarkAfterTrans(input, startMark, before.index, mark.index);
      }
      return true;
    }

    /** One turn of the content-line loop of `scan_block_scalar`, as
        `BlockLineAt` reads it; a tab in the indentation after the line
        is an error marked where the tab is. */
    method ScanBlockLine(m0: Marker, literal: bool, indent: nat, text: string, leadingBreak: string,
                         trailingBreaks: string, leadingBlank: bool) returns (r: Result<LineTurn>)
      requires Reading() && m0.index <= mark.index && mark == MarkAfter(input, m0, mark.index) && indent >= 1
      modifies this`bufLen, this`rdrPos, this`mark
      ensures Reading()
      ensures var tu := BlockLineAt(input, m0, old(mark.index), literal, indent, this.indent, text, leadingBreak, trailingBreaks, leadingBlank);
        (r.Err? <==> tu.LinesEnded? && tu.body.BodyTab?) &&
        (r.Err? ==> r.error == ScanError(MarkAfter(input, m0, tu.body.at), BlockScalarTab)) &&
        (r.Ok? ==>
          r.value == tu && old(mark.index) <= mark.index && mark == MarkAfter(input, m0, mark.index) &&
          mark.index == (if tu.LineRead? then tu.next else tu.body.next))
    {
      ghost var tu := BlockLineAt(input, m0, mark.index, literal, indent, this.indent, text, leadingBreak, trailingBreaks, leadingBlank);
      Lookahead(1);
      if !(mark.col == indent && !IsZ(Ch(0))) {
        return Ok(LinesEnded(Body(text, leadingBreak, trailingBreaks, mark.index)));
      }
      var trailingBlank := IsBlank(Ch(0));
      var s := text;
      if !literal && leadingBreak != [] && !leadingBlank && !trailingBlank {
        if trailingBreaks == [] {
          s := s + " ";
        }
      } else {
        s := s + leadingBreak;
      }
      s := s + trailingBreaks;
      assert s == LineJoin(literal, text, leadingBreak, trailingBreaks, leadingBlank, trailingBlank);
      s := ScanLineText(m0, s);
      assert tu == LineEnd(input, m0, mark.index, indent, this.indent, s, trailingBlank);
      r := ScanLineEnd(m0, indent, s, trailingBlank);
    }

    /** The end of a content line of a block scalar, as `LineEnd` reads
        it. */
    method ScanLineEnd(m0: Marker, indent: nat, t: string, trailingBlank: bool) returns (r: Result<LineTurn>)
      requires Reading() && bufLen >= 1 && m0.index <= mark.index && mark == MarkAfter(input, m0, mark.index) && indent >= 1
      requires IsBreakz(Ch(0))
      modifies this`bufLen, this`rdrPos, this`mark
      ensures Reading()
      ensures var tu := LineEnd(input, m0, old(mark.index), indent, this.indent, t, trailingBlank);
        (r.Err? <==> tu.LinesEnded? && tu.body.BodyTab?) &&
        (r.Err? ==> r.error == ScanError(MarkAfter(input, m0, tu.body.at), BlockScalarTab)) &&
        (r.Ok? ==>
          r.value == tu && old(mark.index) <= mark.index && mark == MarkAfter(input, m0, mark.index) &&
          mark.index == (if tu.LineRead? then tu.next else tu.body.next))
    {
      ghost var j := mark.index;
      if IsZ(Ch(0)) {
        return Ok(LinesEnded(Body(t, [], [], mark.index)));
      }
      Lookahead(2);
      ghost var before := mark;
      var lb := ReadBreak([]);
      MarkAfterTrans(input, m0, before.index, mark.index);
      ghost var b := BlockBreaks(input, m0, mark.index, indent, 0, this.indent, []);
      assert LineEnd(input, m0, j, indent, this.indent, t, trailingBlank) ==
        (if b.BreaksTab? then LinesEnded(BodyTab(b.at)) else LineRead(t, b.next, b.breaks, trailingBlank));
      var br := ScanBlockBreaks(m0, indent, []);
      if br.Err? {
        return Err(br.error);
      }
      return Ok(LineRead(t, mark.index, br.value.1, trailingBlank));
    }

    /** The part of `scan_block_scalar` after the header line, as
        `BlockContent` reads it: the leading empty lines, the content
        lines, then chomping; the token is marked where the content
        starts. */
    method ScanBlockContent(m0: Marker, literal: bool, indent: nat, chomping: int) returns (r: Result<Token>)
      requires Reading() && m0.index <= mark.index && mark == MarkAfter(input, m0, mark.index)
      modifies this`bufLen, this`rdrPos, this`mark
      ensures Reading()
      ensures var c := BlockContent(input, m0, old(mark.index), literal, indent, this.indent, chomping);
        (r.Err? <==> c.Err?) &&
        (r.Err? ==> r.error == c.error) &&
        (r.Ok? ==>
          r.value == Token(MarkAfter(input, m0, c.value.start), Scalar(if literal then Literal else Folded, c.value.text)) &&
          mark.index == c.value.next && mark == MarkAfter(input, m0, mark.index))
    {
      ghost var first := mark.index;
      var br := ScanBlockBreaks(m0, indent, []);
      if br.Err? {
        return Err(br.error);
      }
      var ind := br.value.0;
      var trailingBreaks := br.value.1;
      Lookahead(1);
      var contentMark := mark;
      ghost var body := BlockLines(input, m0, mark.index, literal, ind, this.indent, [], [], trailingBreaks, false);
      var text: string := [];
      var leadingBreak: string := [];
      var leadingBlank := false;
      var ended := false;
      while !ended
        invariant Reading() && contentMark.index <= mark.index && mark == MarkAfter(input, m0, mark.index)
        invariant !ended ==>
          BlockLines(input, m0, mark.index, literal, ind, this.indent, text, leadingBreak, trailingBreaks, leadingBlank) == body
        invariant ended ==> body == Body(text, leadingBreak, trailingBreaks, mark.index)
        decreases |input| - mark.index, !ended
      {
        var turn := ScanBlockLine(m0, literal, ind, text, leadingBreak, trailingBreaks, leadingBlank);
        if turn.Err? {
          return Err(turn.error);
        }
        match turn.value
        case LinesEnded(b) =>
          text, leadingBreak, trailingBreaks, ended := b.text, b.leadingBreak, b.trailingBreaks, true;
        case LineRead(t, _, b, blank) =>
          text, leadingBreak, trailingBreaks, leadingBlank := t, "\n", b, blank;
      }
      if chomping != -1 {
        text := text + leadingBreak;
      }
      if chomping == 1 {
        text := text + trailingBreaks;
      }
      if literal {
        return Ok(Token(contentMark, Scalar(Literal, text)));
      }
      return Ok(Token(contentMark, Scalar(Folded, text)));
    }

    /** `scan_block_scalar` at the `|` (`literal`) or `>`: the scalar
        `BlockScalar` reads with the current indentation as the parent's,
        as a token marked where its content starts. */
    method ScanBlockScalar(literal: bool) returns (r: Result<Token>)
      requires Reading() && bufLen >= 1 && Ch(0) == (if literal then '|' else '>')
      modifies this`bufLen, this`rdrPos, this`mark
      ensures Reading()
      ensures var b := BlockScalar(input, old(mark), literal, indent);
        (r.Err? <==> b.Err?) &&
        (r.Err? ==> r.error == b.error) &&
        (r.Ok? ==>
          r.value == Token(MarkAfter(input, old(mark), b.value.start), Scalar(if literal then Literal else Folded, b.value.text)) &&
          mark.index == b.value.next && mark == MarkAfter(input, old(mark), mark.index))
    {
      var startMark := mark;
      var header := ScanBlockHeader(startMark);
      if header.Err? {
        return Err(header.error);
      }
      var increment := header.value.1;
      var blockIndent: nat := 0;
      if increment > 0 {
        blockIndent := if indent >= 0 then indent + increment else increment;
      }
      assert blockIndent == IndicatedIndent(increment, indent);
      ghost var content := BlockContent(input, startMark, mark.index, literal, blockIndent, indent, header.value.0);
      assert BlockScalar(input, startMark, literal, indent) == content;
      r := ScanBlockContent(startMark, literal, blockIndent, header.value.0);
    }

    /** One step of `skip_to_next_token`: skips a blank, a line break
        (which, in block context, allows a simple key) or a comment that is
        not kept, or reports that there is nothing to skip. */
    method SkipStep() returns (stop: bool)
      requires Reading()
      modifies this`bufLen, this`rdrPos, this`mark, this`simpleKeyAllowed
      ensures Reading() && old(mark.index) <= mark.index && mark == MarkAfter(input, old(mark), mark.index)
      ensures stop ==>
        bufLen >= 1 && mark == old(mark) && simpleKeyAllowed == old(simpleKeyAllowed) &&
        SkipStops(Ch(0), flowLevel > 0, simpleKeyAllowed, withComments)
      ensures !stop ==>
        old(mark.index) < mark.index &&
        SkipTarget(input, mark.index, flowLevel > 0, simpleKeyAllowed, withComments) ==
        SkipTarget(input, old(mark.index), flowLevel > 0, old(simpleKeyAllowed), withComments)
    {
      Lookahead(1);
      var c := Ch(0);
      if c == ' ' || (c == '\t' && (flowLevel > 0 || !simpleKeyAllowed)) {
        SkipBlank();
        return false;
      }
      if c == '\n' || c == '\r' {
        SkipBreak();
        return false;
      }
      if c == '#' && !withComments {
        SkipComment();
        return false;
      }
      return true;
    }

    /** Skips a space, or a tab where tabs are skipped. */
    method SkipBlank()
      requires Reading() && bufLen >= 1
      requires Ch(0) == ' ' || (Ch(0) == '\t' && (flowLevel > 0 || !simpleKeyAllowed))
      modifies this`bufLen, this`mark
      ensures Reading() && old(mark.index) < mark.index && mark == MarkAfter(input, old(mark), mark.index)
      ensures SkipTarget(input, mark.index, flowLevel > 0, simpleKeyAllowed, withComments) ==
        SkipTarget(input, old(mark.index), flowLevel > 0, simpleKeyAllowed, withComments)
    {
      ghost var m0 := mark;
      Skip();
      assert mark == MarkAfter(input, m0, m0.index + 1);
    }

    /** Skips a line break; in block context a simple key is allowed after
        it. */
    method SkipBreak()
      requires Reading() && bufLen >= 1 && IsBreak(Ch(0))
      modifies this`bufLen, this`rdrPos, this`mark, this`simpleKeyAllowed
      ensures Reading() && old(mark.index) < mark.index && mark == MarkAfter(input, old(mark), mark.index)
      ensures SkipTarget(input, mark.index, flowLevel > 0, simpleKeyAllowed, withComments) ==
        SkipTarget(input, old(mark.index), flowLevel > 0, old(simpleKeyAllowed), withComments)
    {
      Lookahead(2);
      SkipLine();
      if flowLevel == 0 {
        simpleKeyAllowed := true;
      }
    }

    /** Skips a comment that is not kept, up to the line break. */
    method SkipComment()
      requires Reading() && bufLen >= 1 && Ch(0) == '#' && !withComments
      modifies this`bufLen, this`rdrPos, this`mark
      ensures Reading() && old(mark.index) < mark.index && mark == MarkAfter(input, old(mark), mark.index)
      ensures SkipTarget(input, mark.index, flowLevel > 0, simpleKeyAllowed, withComments) ==
        SkipTarget(input, old(mark.index), flowLevel > 0, simpleKeyAllowed, withComments)
    {
      assert InClass(Ch(0), NonBreakz);
      SkipToBreakz();
    }

    /** `skip_to_next_token`: skips what `SkipTarget` skips. */
    method SkipToNextToken()
      requires Reading()
      modifies this`bufLen, this`rdrPos, this`mark, this`simpleKeyAllowed
      ensures Reading() && bufLen >= 1
      ensures (mark.index, simpleKeyAllowed) == SkipTarget(input, old(mark.index), flowLevel > 0, old(simpleKeyAllowed), withComments)
      ensures old(mark.index) <= mark.index && mark == MarkAfter(input, old(mark), mark.index)
    {
      ghost var target := SkipTarget(input, mark.index, flowLevel > 0, simpleKeyAllowed, withComments);
      var stop := false;
      while !stop
        invariant Reading() && old(mark.index) <= mark.index && mark == MarkAfter(input, old(mark), mark.index)
        invariant !stop ==> SkipTarget(input, mark.index, flowLevel > 0, simpleKeyAllowed, withComments) == target
        invariant stop ==>
          bufLen >= 1 && target == (mark.index, simpleKeyAllowed)
        decreases |input| - mark.index, !stop
      {
        ghost var before := mark;
        stop := SkipStep();
        MarkAfterTrans(input, old(mark), before.index, mark.index);
        if stop {
          SkipTargetStays(input, mark.index, flowLevel > 0, simpleKeyAllowed, withComments);
        }
      }
    }

    /** `fetch_stream_start`: the indentation is reset to -1, simple keys
        are allowed, StreamStart is queued at the position and the block
        context gets its simple-key slot. */
    method FetchStreamStart()
      requires Valid() && !streamStartProduced
      modifies this`indent, this`streamStartProduced, this`simpleKeyAllowed, this`tokens, this`simpleKeys
      ensures Valid() && streamStartProduced && simpleKeyAllowed
      ensures Levels() == [-1] && simpleKeys == [NewSimpleKey(Marker(0, 0, 0))]
      ensures tokens == old(tokens) + [Token(mark, StreamStart(Utf8))]
    {
      var m := mark;
      indent := -1;
      streamStartProduced := true;
      simpleKeyAllowed := true;
      tokens := tokens + [Token(m, StreamStart(Utf8))];
      simpleKeys := simpleKeys + [NewSimpleKey(New(0, 0, 0))];
    }

    /** `unroll_indent(-1)`: outside flow collections every open block
        collection is closed. */
    method CloseAllBlocks()
      requires IndentsOk()
      modifies this`indent, this`indents, this`tokens
      ensures IndentsOk() && Levels() == if flowLevel > 0 then old(Levels()) else [-1]
      ensures |old(tokens)| <= |tokens|
      ensures tokens == old(tokens) + BlockEnds(mark, OpenBlocks(old(Levels()), flowLevel > 0))
      ensures old(Fetching()) ==> Fetching()
    {
      ghost var levels := Levels();
      UnrollIndent(-1);
      if flowLevel == 0 {
        UnrolledToBottom(levels);
      } else {
        assert tokens == old(tokens) + [];
      }
    }

    /** Queues a token behind the others. */
    method Enqueue(t: Token)
      requires !streamEndQueued
      modifies this`tokens
      ensures tokens == old(tokens) + [t]
      ensures old(Valid()) ==> Valid()
      ensures old(Fetching()) ==> Fetching()
    {
      KeyNumbersGrow(simpleKeys, tokensParsed, |tokens|, |tokens| + 1);
      tokens := tokens + [t];
    }

    /** Consumes the `n` indicator characters at the head and queues `t`
        marked where they began; a key saved at the position is then behind
        the mark. */
    method QueueIndicators(n: nat, t: TokenType)
      requires Between() && KeysNotAfter(simpleKeys, mark) && 1 <= n <= bufLen && mark.index + n <= |input|
      modifies this`bufLen, this`mark, this`tokens
      ensures Fetching() && bufLen == old(bufLen) - n
      ensures mark == MarkAfter(input, old(mark), old(mark.index) + n) && tokens == old(tokens) + [Token(old(mark), t)]
    {
      var m := mark;
      SkipN(n);
      MarkAfterMoves(input, m, mark.index);
      KeysNotAfterAdvanced(simpleKeys, m, mark);
      Enqueue(Token(m, t));
    }

    /** Consumes the indicator character at the head; a key saved at the
        position is then behind it. */
    method SkipIndicator()
      requires Between() && KeysNotAfter(simpleKeys, mark) && bufLen >= 1 && Ch(0) != '\0'
      modifies this`bufLen, this`mark
      ensures Fetching() && bufLen == old(bufLen) - 1
      ensures mark == Advance(old(mark), old(Ch(0)))
    {
      ghost var m := mark;
      Skip();
      KeysNotAfterAdvanced(simpleKeys, m, mark);
    }

    /** Consumes the indicator character at the head and queues `t` marked
        where the indicator was. */
    method QueueIndicator(t: TokenType)
      requires Between() && KeysNotAfter(simpleKeys, mark) && bufLen >= 1 && Ch(0) != '\0'
      modifies this`bufLen, this`mark, this`tokens
      ensures Fetching() && bufLen == old(bufLen) - 1
      ensures mark == Advance(old(mark), old(Ch(0))) && tokens == old(tokens) + [Token(old(mark), t)]
    {
      var startMark := mark;
      SkipIndicator();
      Enqueue(Token(startMark, t));
    }

    /** The first half of `fetch_stream_end`: the position is forced to the
        start of a line and every block collection is closed. */
    method EndLine()
      requires Fetching()
      modifies this`mark, this`indent, this`indents, this`tokens
      ensures Fetching() && KeysOnEarlierLines(simpleKeys, mark)
      ensures mark == if old(mark.col) != 0 then Marker(old(mark.index), old(mark.line) + 1, 0) else old(mark)
      ensures Levels() == if flowLevel > 0 then old(Levels()) else [-1]
      ensures tokens == old(tokens) + BlockEnds(mark, OpenBlocks(old(Levels()), flowLevel > 0))
    {
      if mark.col != 0 {
        mark := mark.(col := 0, line := mark.line + 1);
      }
      assert KeysBehind(simpleKeys, mark);
      KeysBehindAtLineStart(simpleKeys, mark);
      CloseAllBlocks();
    }

    /** `fetch_stream_end`: the position is forced to the start of a line,
        every block collection is closed, the simple key of the current
        level is removed and StreamEnd is queued.  It fails when that key
        was required. */
    method FetchStreamEnd() returns (r: Result<()>)
      requires Fetching()
      modifies this`mark, this`indent, this`indents, this`tokens, this`simpleKeys, this`simpleKeyAllowed, this`streamEndQueued
      ensures mark == if old(mark.col) != 0 then Marker(old(mark.index), old(mark.line) + 1, 0) else old(mark)
      ensures var last := old(simpleKeys[|simpleKeys| - 1]);
        (r.Err? <==> last.possible && last.required) &&
        (r.Err? ==> r.error == ScanError(mark, SimpleKeyExpected))
      ensures r.Ok? ==> Valid() && streamEndQueued && !simpleKeyAllowed && Cleared(simpleKeys, old(simpleKeys))
      ensures r.Ok? ==> Levels() == if flowLevel > 0 then old(Levels()) else [-1]
      ensures r.Ok? ==>
        tokens == old(tokens) + BlockEnds(mark, OpenBlocks(old(Levels()), flowLevel > 0)) + [Token(mark, StreamEnd)]
    {
      EndLine();
      ghost var keys := simpleKeys;
      var removed := RemoveSimpleKey();
      if removed.Err? {
        return removed;
      }
      ClearedKeeps(simpleKeys, keys, mark, tokensParsed, |tokens|);
      simpleKeyAllowed := false;
      QueueStreamEnd();
      return Ok(());
    }

    /** `fetch_comment` between two fetches. */
    method QueueComment()
      requires Fetching() && bufLen >= 1 && Ch(0) == '#'
      modifies this`bufLen, this`rdrPos, this`mark, this`tokens
      ensures Fetching() && Advanced(old(mark), mark)
      ensures mark.index == SpanEnd(input, old(mark.index), NonBreakz)
      ensures tokens == old(tokens) + [Token(old(mark), Comment(CommentText(input, old(mark.index) + 1)))]
    {
      ghost var m := mark;
      FetchComment();
      BetweenKept();
      KeysBehindMoved(simpleKeys, m, mark);
    }

    /** The last step of `fetch_stream_end`: StreamEnd is queued, and with
        every possible key on an earlier line nothing can be fetched after
        it. */
    method QueueStreamEnd()
      requires Fetching() && KeysOnEarlierLines(simpleKeys, mark)
      modifies this`tokens, this`streamEndQueued
      ensures Valid() && streamEndQueued && tokens == old(tokens) + [Token(mark, StreamEnd)]
    {
      Enqueue(Token(mark, StreamEnd));
      FetchingIsValid();
      streamEndQueued := true;
    }

    /** `fetch_flow_entry` at a ',': the current key is removed, a simple
        key is allowed after the ',', and FlowEntry is queued. */
    method FetchFlowEntry() returns (r: Result<()>)
      requires Fetching() && bufLen >= 1 && Ch(0) == ','
      modifies this`bufLen, this`mark, this`tokens, this`simpleKeys, this`simpleKeyAllowed
      ensures var last := old(simpleKeys[|simpleKeys| - 1]);
        (r.Err? <==> last.possible && last.required) &&
        (r.Err? ==> r.error == ScanError(old(mark), SimpleKeyExpected))
      ensures r.Ok? ==>
        Fetching() && mark == Advance(old(mark), ',') && simpleKeyAllowed &&
        simpleKeys == KeyRemoved(old(simpleKeys)) && tokens == old(tokens) + [Token(old(mark), FlowEntry)]
    {
      var removed := RemoveSimpleKey();
      if removed.Err? {
        return removed;
      }
      simpleKeyAllowed := true;
      BehindNotAfter(simpleKeys, mark);
      QueueIndicator(FlowEntry);
      return Ok(());
    }

    /** `fetch_flow_collection_start` at a '[' or '{': the position may
        start a simple key, a flow level is entered (failing beyond 255
        levels), a simple key is allowed after the indicator, and
        FlowSequenceStart or FlowMappingStart is queued. */
    method FetchFlowCollectionStart(sequence: bool) returns (r: Result<()>)
      requires Fetching() && bufLen >= 1 && Ch(0) == (if sequence then '[' else '{')
      modifies this`bufLen, this`mark, this`tokens, this`simpleKeys, this`simpleKeyAllowed, this`flowLevel
      ensures var last := old(simpleKeys[|simpleKeys| - 1]);
        var keyError := old(simpleKeyAllowed) && last.possible && last.required;
        (r.Err? <==> keyError || old(flowLevel) == 255) &&
        (r.Err? ==> r.error == ScanError(old(mark), if keyError then SimpleKeyExpected else RecursionLimit))
      ensures r.Ok? ==>
        Fetching() && mark == Advance(old(mark), if sequence then '[' else '{') && simpleKeyAllowed &&
        flowLevel as int == old(flowLevel) as int + 1 &&
        simpleKeys ==
          KeySaved(old(simpleKeys), old(simpleKeyAllowed), old(flowLevel) > 0 && old(indent) == old(mark.col),
                   old(tokensParsed + |tokens|), old(mark)) + [NewSimpleKey(Marker(0, 0, 0))] &&
        tokens == old(tokens) + [Token(old(mark), if sequence then FlowSequenceStart else FlowMappingStart)]
    {
      ghost var keys := KeySaved(simpleKeys, simpleKeyAllowed, flowLevel > 0 && indent == mark.col,
                                 tokensParsed + |tokens|, mark);
      var saved := SaveSimpleKey();
      if saved.Err? {
        return saved;
      }
      assert simpleKeys == keys;
      var increased := IncreaseFlowLevel();
      if increased.Err? {
        return increased;
      }
      simpleKeyAllowed := true;
      QueueIndicator(if sequence then FlowSequenceStart else FlowMappingStart);
      return Ok(());
    }

    /** `fetch_flow_collection_end` at a ']' or '}': the current key is
        removed, the flow level is left (outside flow collections nothing
        is left), no simple key is allowed after the indicator, and
        FlowSequenceEnd or FlowMappingEnd is queued. */
    method FetchFlowCollectionEnd(sequence: bool) returns (r: Result<()>)
      requires Fetching() && bufLen >= 1 && Ch(0) == (if sequence then ']' else '}')
      modifies this`bufLen, this`mark, this`tokens, this`simpleKeys, this`simpleKeyAllowed, this`flowLevel
      ensures var last := old(simpleKeys[|simpleKeys| - 1]);
        (r.Err? <==> last.possible && last.required) &&
        (r.Err? ==> r.error == ScanError(old(mark), SimpleKeyExpected))
      ensures r.Ok? ==>
        Fetching() && mark == Advance(old(mark), if sequence then ']' else '}') && !simpleKeyAllowed &&
        (old(flowLevel) > 0 ==>
          flowLevel as int == old(flowLevel) as int - 1 && simpleKeys == old(simpleKeys[..|simpleKeys| - 1])) &&
        (old(flowLevel) == 0 ==> flowLevel == 0 && simpleKeys == KeyRemoved(old(simpleKeys))) &&
        tokens == old(tokens) + [Token(old(mark), if sequence then FlowSequenceEnd else FlowMappingEnd)]
    {
      var removed := RemoveSimpleKey();
      if removed.Err? {
        return removed;
      }
      DecreaseFlowLevel();
      simpleKeyAllowed := false;
      BehindNotAfter(simpleKeys, mark);
      QueueIndicator(if sequence then FlowSequenceEnd else FlowMappingEnd);
      return Ok(());
    }

    /** What `fetch_directive` and `fetch_document_indicator` do before
        scanning: every block collection is closed, the current key is
        removed and no simple key is allowed. */
    method EndBlocksAtIndicator() returns (r: Result<()>)
      requires Fetching()
      modifies this`indent, this`indents, this`tokens, this`simpleKeys, this`simpleKeyAllowed
      ensures var last := old(simpleKeys[|simpleKeys| - 1]);
        (r.Err? <==> last.possible && last.required) &&
        (r.Err? ==> r.error == ScanError(mark, SimpleKeyExpected))
      ensures r.Ok? ==>
        Fetching() && !simpleKeyAllowed &&
        Levels() == (if flowLevel > 0 then old(Levels()) else [-1]) && simpleKeys == KeyRemoved(old(simpleKeys)) &&
        tokens == old(tokens) + BlockEnds(mark, OpenBlocks(old(Levels()), flowLevel > 0))
    {
      CloseAllBlocks();
      r := RemoveSimpleKey();
      if r.Ok? {
        simpleKeyAllowed := false;
      }
    }

    /** `fetch_document_indicator` at "---" or "..." followed by white
        space: every block collection is closed, the current key is
        removed, no simple key is allowed, the three characters are
        consumed and DocumentStart or DocumentEnd is queued. */
    method FetchDocumentIndicator(start: bool) returns (r: Result<()>)
      requires Fetching() && bufLen >= 4 && DocIndicatorAt(input, mark.index) && Ch(0) == (if start then '-' else '.')
      modifies this`bufLen, this`mark, this`indent, this`indents, this`tokens, this`simpleKeys, this`simpleKeyAllowed
      ensures var last := old(simpleKeys[|simpleKeys| - 1]);
        (r.Err? <==> last.possible && last.required) &&
        (r.Err? ==> r.error == ScanError(old(mark), SimpleKeyExpected))
      ensures r.Ok? ==>
        Fetching() && mark == MarkAfter(input, old(mark), old(mark.index) + 3) && !simpleKeyAllowed &&
        Levels() == (if flowLevel > 0 then old(Levels()) else [-1]) && simpleKeys == KeyRemoved(old(simpleKeys)) &&
        tokens == old(tokens) + BlockEnds(old(mark), OpenBlocks(old(Levels()), flowLevel > 0)) +
                  [Token(old(mark), if start then DocumentStart else DocumentEnd)]
    {
      var closed := EndBlocksAtIndicator();
      if closed.Err? {
        return closed;
      }
      assert At(input, mark.index + 2) != '\0';
      BehindNotAfter(simpleKeys, mark);
      QueueIndicators(3, if start then DocumentStart else DocumentEnd);
      return Ok(());
    }

    /** `fetch_directive` at a '%' in column 0: every block collection is
        closed, the current key is removed, no simple key is allowed, and
        the directive's token is queued. */
    method FetchDirective() returns (r: Result<()>)
      requires Fetching() && bufLen >= 1 && Ch(0) == '%'
      modifies this`bufLen, this`rdrPos, this`mark, this`indent, this`indents, this`tokens, this`simpleKeys,
        this`simpleKeyAllowed
      ensures var last := old(simpleKeys[|simpleKeys| - 1]);
        var keyError := last.possible && last.required;
        var d := DirectiveAt(input, old(mark.index));
        (r.Err? <==> keyError || d.Failed?) &&
        (r.Err? ==>
          r.error ==
            if keyError then ScanError(old(mark), SimpleKeyExpected)
            else ScanError(
              if DirectiveName(input, old(mark.index) + 1).Decoded? then old(mark) else Advance(old(mark), '%'),
              d.kind)) &&
        (r.Ok? ==>
          Fetching() && Advanced(old(mark), mark) && mark.index == old(mark.index) + d.length &&
          !simpleKeyAllowed && Levels() == (if flowLevel > 0 then old(Levels()) else [-1]) &&
          simpleKeys == KeyRemoved(old(simpleKeys)) &&
          tokens == old(tokens) + BlockEnds(old(mark), OpenBlocks(old(Levels()), flowLevel > 0)) + [Token(old(mark), d.value)])
    {
      var closed := EndBlocksAtIndicator();
      if closed.Err? {
        return closed;
      }
      BehindNotAfter(simpleKeys, mark);
      r := QueueDirective();
    }

    /** The scanning half of `fetch_directive`: `ScanDirective` between two
        fetches, queueing the directive's token; every simple key is then
        strictly behind the mark. */
    method QueueDirective() returns (r: Result<()>)
      requires Between() && KeysNotAfter(simpleKeys, mark) && bufLen >= 1 && Ch(0) == '%'
      modifies this`bufLen, this`rdrPos, this`mark, this`tokens
      ensures var d := DirectiveAt(input, old(mark.index));
        (r.Ok? <==> d.Decoded?) &&
        (r.Ok? ==>
          Fetching() && Advanced(old(mark), mark) && mark.index == old(mark.index) + d.length &&
          tokens == old(tokens) + [Token(old(mark), d.value)]) &&
        (r.Err? ==>
          r.error == ScanError(
            if DirectiveName(input, old(mark.index) + 1).Decoded? then old(mark) else Advance(old(mark), '%'),
            d.kind))
    {
      ghost var m := mark;
      var tok := ScanDirective();
      if tok.Err? {
        return Err(tok.error);
      }
      BetweenKept();
      KeysNotAfterAdvanced(simpleKeys, m, mark);
      Enqueue(tok.value);
      return Ok(());
    }
    /** `fetch_block_entry` at a '-' followed by white space: only in block
        context and where a simple key is allowed; the column may open a
        block sequence, the current key is removed, a simple key is allowed
        after the indicator, and BlockEntry is queued. */
    method FetchBlockEntry() returns (r: Result<()>)
      requires Fetching() && bufLen >= 1 && Ch(0) == '-'
      modifies this`bufLen, this`mark, this`indent, this`indents, this`tokens, this`simpleKeys,
        this`simpleKeyAllowed
      ensures var last := old(simpleKeys[|simpleKeys| - 1]);
        (r.Err? <==> flowLevel > 0 || !old(simpleKeyAllowed) || (last.possible && last.required)) &&
        (r.Err? ==>
          r.error == ScanError(old(mark),
            if flowLevel > 0 then BlockEntryInFlow
            else if !old(simpleKeyAllowed) then BlockEntryNotAllowed
            else SimpleKeyExpected))
      ensures r.Ok? ==>
        Fetching() && mark == Advance(old(mark), '-') && simpleKeyAllowed &&
        Levels() == Rolled(old(Levels()), old(mark.col)) && simpleKeys == KeyRemoved(old(simpleKeys)) &&
        tokens == old(tokens) + RollTokens(old(Levels()), false, old(mark.col), Token(old(mark), BlockSequenceStart)) +
                  [Token(old(mark), BlockEntry)]
    {
      if flowLevel > 0 {
        return Err(ScanError(mark, BlockEntryInFlow));
      }
      if !simpleKeyAllowed {
        return Err(ScanError(mark, BlockEntryNotAllowed));
      }
      RollIndent(mark.col, None, BlockSequenceStart, mark);
      var removed := RemoveSimpleKey();
      if removed.Err? {
        return removed;
      }
      simpleKeyAllowed := true;
      BehindNotAfter(simpleKeys, mark);
      QueueIndicator(BlockEntry);
      return Ok(());
    }

    /** `fetch_key` at a '?' starting a complex key: in block context only
        where a simple key is allowed, and the column may open a block
        mapping; the current key is removed, a simple key is allowed after
        the indicator only in block context, and Key is queued. */
    method FetchKey() returns (r: Result<()>)
      requires Fetching() && bufLen >= 1 && Ch(0) == '?'
      modifies this`bufLen, this`mark, this`indent, this`indents, this`tokens, this`simpleKeys,
        this`simpleKeyAllowed
      ensures var last := old(simpleKeys[|simpleKeys| - 1]);
        var notAllowed := flowLevel == 0 && !old(simpleKeyAllowed);
        (r.Err? <==> notAllowed || (last.possible && last.required)) &&
        (r.Err? ==> r.error == ScanError(old(mark), if notAllowed then KeyNotAllowed else SimpleKeyExpected))
      ensures r.Ok? ==>
        Fetching() && mark == Advance(old(mark), '?') && simpleKeyAllowed == (flowLevel == 0) &&
        Levels() == (if flowLevel > 0 then old(Levels()) else Rolled(old(Levels()), old(mark.col))) &&
        simpleKeys == KeyRemoved(old(simpleKeys)) &&
        tokens == old(tokens) + RollTokens(old(Levels()), flowLevel > 0, old(mark.col), Token(old(mark), BlockMappingStart)) +
                  [Token(old(mark), Key)]
    {
      if flowLevel == 0 {
        if !simpleKeyAllowed {
          return Err(ScanError(mark, KeyNotAllowed));
        }
        RollIndent(mark.col, None, BlockMappingStart, mark);
      }
      var removed := RemoveSimpleKey();
      if removed.Err? {
        return removed;
      }
      simpleKeyAllowed := flowLevel == 0;
      BehindNotAfter(simpleKeys, mark);
      QueueIndicator(Key);
      return Ok(());
    }

    /** The queue half of `InsertSimpleKey`: the Key token of a key saved
        at `km` with number `n` goes to its queue position, preceded by a
        BlockMappingStart at `m` when `km`'s column opens a block mapping. */
    method QueueKey(n: nat, km: Marker, m: Marker)
      requires Fetching() && tokensParsed <= n <= tokensParsed + |tokens|
      modifies this`indent, this`indents, this`tokens
      ensures Fetching()
      ensures Levels() == if flowLevel > 0 then old(Levels()) else Rolled(old(Levels()), km.col)
      ensures var inserted := Inserted(old(tokens), n - tokensParsed, Token(km, Key));
        tokens == if flowLevel == 0 && old(indent) < km.col then Inserted(inserted, n - tokensParsed, Token(m, BlockMappingStart))
                  else inserted
    {
      InsertToken(n - tokensParsed, Token(km, Key));
      ghost var inserted, opens := tokens, flowLevel == 0 && indent < km.col;
      assert inserted == Inserted(old(tokens), n - tokensParsed, Token(km, Key)) && indent == old(indent);
      RollIndent(km.col, Some(n), BlockMappingStart, m);
      assert tokens == if opens then Inserted(inserted, n - tokensParsed, Token(m, BlockMappingStart)) else inserted;
    }

    method InsertSimpleKey()
      requires Fetching() && simpleKeys[|simpleKeys| - 1].possible
      modifies this`indent, this`indents, this`tokens, this`simpleKeys, this`simpleKeyAllowed
      ensures Fetching() && !simpleKeyAllowed && simpleKeys == KeyRemoved(old(simpleKeys))
      ensures var sk := old(simpleKeys[|simpleKeys| - 1]);
        Levels() == (if flowLevel > 0 then old(Levels()) else Rolled(old(Levels()), sk.mark.col))
      ensures var sk := old(simpleKeys[|simpleKeys| - 1]);
        tokens == KeyQueued(old(tokens), sk.tokenNumber - tokensParsed, Token(sk.mark, Key), old(Levels()),
                            flowLevel > 0, sk.mark.col, Token(mark, BlockMappingStart))
    {
      var sk := simpleKeys[|simpleKeys| - 1];
      ghost var q, levels, pos := tokens, Levels(), sk.tokenNumber - tokensParsed;
      ghost var key, start := Token(sk.mark, Key), Token(mark, BlockMappingStart);
      KeyQueuedInserted(q, pos, key, levels, flowLevel > 0, sk.mark.col, start);
      assert levels[|levels| - 1] == indent;
      QueueKey(sk.tokenNumber, sk.mark, mark);
      ghost var queued := tokens;
      assert queued == KeyQueued(q, pos, key, levels, flowLevel > 0, sk.mark.col, start);
      ConsumeSimpleKey();
      assert sk == old(simpleKeys[|simpleKeys| - 1]) && tokens == queued;
      assert q == old(tokens) && levels == old(Levels()) && tokensParsed == old(tokensParsed) &&
        flowLevel == old(flowLevel) && mark == old(mark);
    }

    /** The saved key of the innermost level has become a key: it is no
        longer possible, and no simple key is allowed next. */
    method ConsumeSimpleKey()
      requires Fetching()
      modifies this`simpleKeys, this`simpleKeyAllowed
      ensures Fetching() && !simpleKeyAllowed && simpleKeys == KeyRemoved(old(simpleKeys))
    {
      ghost var keys := simpleKeys;
      simpleKeys := simpleKeys[|simpleKeys| - 1 := simpleKeys[|simpleKeys| - 1].(possible := false)];
      ClearedKeeps(simpleKeys, keys, mark, tokensParsed, |tokens|);
      simpleKeyAllowed := false;
    }

    /** The complex-key half of `fetch_value`: in block context a simple
        key must be allowed and the column of the ':' may open a block
        mapping; a simple key is allowed next only in block context. */
    method ComplexValue() returns (r: Result<()>)
      requires Fetching()
      modifies this`indent, this`indents, this`tokens, this`simpleKeyAllowed
      ensures (r.Err? <==> flowLevel == 0 && !old(simpleKeyAllowed)) &&
        (r.Err? ==> r.error == ScanError(mark, ValueNotAllowed))
      ensures r.Ok? ==>
        Fetching() && simpleKeyAllowed == (flowLevel == 0) &&
        Levels() == (if flowLevel > 0 then old(Levels()) else Rolled(old(Levels()), mark.col)) &&
        tokens == old(tokens) + RollTokens(old(Levels()), flowLevel > 0, mark.col, Token(mark, BlockMappingStart))
    {
      if flowLevel == 0 {
        if !simpleKeyAllowed {
          return Err(ScanError(mark, ValueNotAllowed));
        }
        RollIndent(mark.col, None, BlockMappingStart, mark);
      }
      simpleKeyAllowed := flowLevel == 0;
      return Ok(());
    }

    /** `fetch_value` at a ':' that may end a key: a possible simple key
        becomes the key (see `InsertSimpleKey`), otherwise the ':' follows a
        complex key (see `ComplexValue`); Value is queued. */
    method FetchValue() returns (r: Result<()>)
      requires Fetching() && bufLen >= 1 && Ch(0) == ':'
      modifies this`bufLen, this`mark, this`indent, this`indents, this`tokens, this`simpleKeys,
        this`simpleKeyAllowed
      ensures var sk := old(simpleKeys[|simpleKeys| - 1]);
        (r.Err? <==> !sk.possible && flowLevel == 0 && !old(simpleKeyAllowed)) &&
        (r.Err? ==> r.error == ScanError(old(mark), ValueNotAllowed))
      ensures r.Ok? ==> Fetching() && mark == Advance(old(mark), ':')
      ensures var sk := old(simpleKeys[|simpleKeys| - 1]);
        r.Ok? && sk.possible ==>
          !simpleKeyAllowed && simpleKeys == KeyRemoved(old(simpleKeys)) &&
          Levels() == (if flowLevel > 0 then old(Levels()) else Rolled(old(Levels()), sk.mark.col)) &&
          tokens == KeyQueued(old(tokens), sk.tokenNumber - tokensParsed, Token(sk.mark, Key), old(Levels()),
                              flowLevel > 0, sk.mark.col, Token(old(mark), BlockMappingStart)) + [Token(old(mark), Value)]
      ensures var sk := old(simpleKeys[|simpleKeys| - 1]);
        r.Ok? && !sk.possible ==>
          simpleKeyAllowed == (flowLevel == 0) && simpleKeys == old(simpleKeys) &&
          Levels() == (if flowLevel > 0 then old(Levels()) else Rolled(old(Levels()), old(mark.col))) &&
          tokens == old(tokens) + RollTokens(old(Levels()), flowLevel > 0, old(mark.col), Token(old(mark), BlockMappingStart)) +
                    [Token(old(mark), Value)]
    {
      if simpleKeys[|simpleKeys| - 1].possible {
        InsertSimpleKey();
      } else {
        r := ComplexValue();
        if r.Err? {
          return r;
        }
      }
      BehindNotAfter(simpleKeys, mark);
      QueueIndicator(Value);
      return Ok(());
    }
    /** What `fetch_anchor`, `fetch_tag`, `fetch_flow_scalar` and
        `fetch_plain_scalar` do first: the position may start a simple key,
        and no simple key is allowed inside the token. */
    method SaveKeyBeforeToken() returns (r: Result<()>)
      requires Fetching()
      modifies this`simpleKeys, this`simpleKeyAllowed
      ensures var last := old(simpleKeys[|simpleKeys| - 1]);
        (r.Err? <==> old(simpleKeyAllowed) && last.possible && last.required) &&
        (r.Err? ==> r.error == ScanError(mark, SimpleKeyExpected))
      ensures r.Ok? ==>
        Between() && KeysNotAfter(simpleKeys, mark) && !simpleKeyAllowed &&
        simpleKeys == KeySaved(old(simpleKeys), old(simpleKeyAllowed), flowLevel > 0 && indent == mark.col,
                               tokensParsed + |tokens|, mark)
    {
      r := SaveSimpleKey();
      if r.Ok? {
        simpleKeyAllowed := false;
      }
    }

    /** `scan_anchor` between two fetches, queueing its token. */
    method QueueAnchor(alias: bool) returns (r: Result<()>)
      requires Between() && KeysNotAfter(simpleKeys, mark) && bufLen >= 1 && Ch(0) == (if alias then '*' else '&')
      modifies this`bufLen, this`rdrPos, this`mark, this`tokens
      ensures var name := Span(input, old(mark.index) + 1, Alpha);
        (r.Ok? <==> name != [] && AnchorEnd(At(input, old(mark.index) + 1 + |name|))) &&
        (r.Ok? ==>
          Fetching() && Advanced(old(mark), mark) && mark.index == old(mark.index) + 1 + |name| &&
          tokens == old(tokens) + [Token(old(mark), if alias then Alias(name) else Anchor(name))]) &&
        (r.Err? ==> r.error == ScanError(old(mark), AnchorNoName))
    {
      ghost var m := mark;
      var tok := ScanAnchor(alias);
      if tok.Err? {
        return Err(tok.error);
      }
      BetweenKept();
      KeysNotAfterAdvanced(simpleKeys, m, mark);
      Enqueue(tok.value);
      return Ok(());
    }

    /** `fetch_anchor` at a '&' or, for an alias, a '*'. */
    method FetchAnchor(alias: bool) returns (r: Result<()>)
      requires Fetching() && bufLen >= 1 && Ch(0) == (if alias then '*' else '&')
      modifies this`bufLen, this`rdrPos, this`mark, this`tokens, this`simpleKeys, this`simpleKeyAllowed
      ensures var last := old(simpleKeys[|simpleKeys| - 1]);
        var keyError := old(simpleKeyAllowed) && last.possible && last.required;
        var name := Span(input, old(mark.index) + 1, Alpha);
        (r.Err? <==> keyError || name == [] || !AnchorEnd(At(input, old(mark.index) + 1 + |name|))) &&
        (r.Err? ==> r.error == ScanError(old(mark), if keyError then SimpleKeyExpected else AnchorNoName))
      ensures var name := Span(input, old(mark.index) + 1, Alpha);
        r.Ok? ==>
          Fetching() && Advanced(old(mark), mark) && mark.index == old(mark.index) + 1 + |name| &&
          !simpleKeyAllowed &&
          simpleKeys == KeySaved(old(simpleKeys), old(simpleKeyAllowed), old(flowLevel > 0 && indent == mark.col),
                                 old(tokensParsed + |tokens|), old(mark)) &&
          tokens == old(tokens) + [Token(old(mark), if alias then Alias(name) else Anchor(name))]
    {
      ghost var keys := KeySaved(simpleKeys, simpleKeyAllowed, flowLevel > 0 && indent == mark.col, tokensParsed + |tokens|, mark);
      r := SaveKeyBeforeToken();
      if r.Ok? {
        assert simpleKeys == keys;
        r := QueueAnchor(alias);
      }
    }

    /** `scan_tag` between two fetches, queueing its token. */
    method QueueTag() returns (r: Result<()>)
      requires Between() && KeysNotAfter(simpleKeys, mark) && bufLen >= 1 && Ch(0) == '!'
      modifies this`bufLen, this`rdrPos, this`mark, this`tokens
      ensures var d := TagAt(input, old(mark.index));
        (r.Ok? <==> d.Decoded?) &&
        (r.Ok? ==>
          Fetching() && Advanced(old(mark), mark) && mark.index == old(mark.index) + d.length &&
          tokens == old(tokens) + [Token(old(mark), Tag(d.value.0, d.value.1))]) &&
        (r.Err? ==> r.error == ScanError(old(mark), d.kind))
    {
      ghost var m := mark;
      var tok := ScanTag();
      if tok.Err? {
        return Err(tok.error);
      }
      BetweenKept();
      KeysNotAfterAdvanced(simpleKeys, m, mark);
      Enqueue(tok.value);
      return Ok(());
    }

    /** `fetch_tag` at a '!'. */
    method FetchTag() returns (r: Result<()>)
      requires Fetching() && bufLen >= 1 && Ch(0) == '!'
      modifies this`bufLen, this`rdrPos, this`mark, this`tokens, this`simpleKeys, this`simpleKeyAllowed
      ensures var last := old(simpleKeys[|simpleKeys| - 1]);
        var keyError := old(simpleKeyAllowed) && last.possible && last.required;
        var d := TagAt(input, old(mark.index));
        (r.Err? <==> keyError || d.Failed?) &&
        (r.Err? ==> r.error == ScanError(old(mark), if keyError then SimpleKeyExpected else d.kind))
      ensures var d := TagAt(input, old(mark.index));
        r.Ok? ==>
          Fetching() && Advanced(old(mark), mark) && mark.index == old(mark.index) + d.length &&
          !simpleKeyAllowed &&
          simpleKeys == KeySaved(old(simpleKeys), old(simpleKeyAllowed), old(flowLevel > 0 && indent == mark.col),
                                 old(tokensParsed + |tokens|), old(mark)) &&
          tokens == old(tokens) + [Token(old(mark), Tag(d.value.0, d.value.1))]
    {
      ghost var keys := KeySaved(simpleKeys, simpleKeyAllowed, flowLevel > 0 && indent == mark.col, tokensParsed + |tokens|, mark);
      r := SaveKeyBeforeToken();
      if r.Ok? {
        assert simpleKeys == keys;
        r := QueueTag();
      }
    }

    /** `scan_flow_scalar` between two fetches, queueing its token; a ':'
        may follow the scalar directly as a value indicator (JSON-like keys
        in flow). */
    method QueueFlowScalar(single: bool) returns (r: Result<()>)
      requires Between() && KeysNotAfter(simpleKeys, mark) && bufLen >= 1 && Ch(0) == (if single then '\'' else '"')
      modifies this`bufLen, this`rdrPos, this`mark, this`tokens, this`adjacentValueAllowedAt
      ensures var d := FlowScalar(input, old(mark), single);
        (r.Ok? <==> d.Decoded?) &&
        (r.Ok? ==>
          Fetching() && mark == MarkAfter(input, old(mark), old(mark.index) + d.length) &&
          adjacentValueAllowedAt == mark.index &&
          tokens == old(tokens) + [Token(old(mark), Scalar(if single then SingleQuoted else DoubleQuoted, d.value))]) &&
        (r.Err? ==> r.error == ScanError(old(mark), d.kind))
    {
      ghost var m := mark;
      var tok := ScanFlowScalar(single);
      if tok.Err? {
        return Err(tok.error);
      }
      BetweenKept();
      MarkAfterMoves(input, m, mark.index);
      KeysNotAfterAdvanced(simpleKeys, m, mark);
      adjacentValueAllowedAt := mark.index;
      Enqueue(tok.value);
      return Ok(());
    }

    /** `fetch_flow_scalar` at a quote. */
    method FetchFlowScalar(single: bool) returns (r: Result<()>)
      requires Fetching() && bufLen >= 1 && Ch(0) == (if single then '\'' else '"')
      modifies this`bufLen, this`rdrPos, this`mark, this`tokens, this`simpleKeys, this`simpleKeyAllowed,
        this`adjacentValueAllowedAt
      ensures var last := old(simpleKeys[|simpleKeys| - 1]);
        var keyError := old(simpleKeyAllowed) && last.possible && last.required;
        var d := FlowScalar(input, old(mark), single);
        (r.Err? <==> keyError || d.Failed?) &&
        (r.Err? ==> r.error == ScanError(old(mark), if keyError then SimpleKeyExpected else d.kind))
      ensures var d := FlowScalar(input, old(mark), single);
        r.Ok? ==>
          Fetching() && mark == MarkAfter(input, old(mark), old(mark.index) + d.length) &&
          adjacentValueAllowedAt == mark.index && !simpleKeyAllowed &&
          simpleKeys == KeySaved(old(simpleKeys), old(simpleKeyAllowed), old(flowLevel > 0 && indent == mark.col),
                                 old(tokensParsed + |tokens|), old(mark)) &&
          tokens == old(tokens) + [Token(old(mark), Scalar(if single then SingleQuoted else DoubleQuoted, d.value))]
    {
      ghost var keys := KeySaved(simpleKeys, simpleKeyAllowed, flowLevel > 0 && indent == mark.col, tokensParsed + |tokens|, mark);
      r := SaveKeyBeforeToken();
      if r.Ok? {
        assert simpleKeys == keys;
        r := QueueFlowScalar(single);
      }
    }
    /** `scan_plain_scalar` between two fetches, queueing its token. */
    method QueuePlainScalar() returns (r: Result<()>)
      requires Between() && KeysNotAfter(simpleKeys, mark) && PlainConsumes(input, mark.index, flowLevel > 0, mark.col)
      modifies this`bufLen, this`rdrPos, this`mark, this`tokens, this`simpleKeyAllowed
      ensures var d := PlainScalar(input, old(mark), flowLevel > 0, indent);
        (r.Ok? <==> d.PlainRead?) &&
        (r.Ok? ==>
          Fetching() && old(mark.index) < d.next && mark == MarkAfter(input, old(mark), d.next) &&
          simpleKeyAllowed == (d.leadingBlanks || old(simpleKeyAllowed)) &&
          tokens == old(tokens) + [Token(old(mark), Scalar(Plain, d.text))]) &&
        (r.Err? ==> r.error == ScanError(old(mark), PlainTab))
    {
      ghost var m := mark;
      PlainScalarConsumes(input, mark, flowLevel > 0, indent);
      var tok := ScanPlainScalar();
      if tok.Err? {
        return Err(tok.error);
      }
      BetweenKept();
      MarkAfterMoves(input, m, mark.index);
      KeysNotAfterAdvanced(simpleKeys, m, mark);
      Enqueue(tok.value);
      return Ok(());
    }

    /** `fetch_plain_scalar`, where the plain scanner consumes something. */
    method FetchPlainScalar() returns (r: Result<()>)
      requires Fetching() && PlainConsumes(input, mark.index, flowLevel > 0, mark.col)
      modifies this`bufLen, this`rdrPos, this`mark, this`tokens, this`simpleKeys, this`simpleKeyAllowed
      ensures var last := old(simpleKeys[|simpleKeys| - 1]);
        var keyError := old(simpleKeyAllowed) && last.possible && last.required;
        var d := PlainScalar(input, old(mark), flowLevel > 0, indent);
        (r.Err? <==> keyError || d.PlainTabError?) &&
        (r.Err? ==> r.error == ScanError(old(mark), if keyError then SimpleKeyExpected else PlainTab))
      ensures var d := PlainScalar(input, old(mark), flowLevel > 0, indent);
        r.Ok? ==>
          Fetching() && old(mark.index) < d.next && mark == MarkAfter(input, old(mark), d.next) &&
          simpleKeyAllowed == d.leadingBlanks &&
          simpleKeys == KeySaved(old(simpleKeys), old(simpleKeyAllowed), old(flowLevel > 0 && indent == mark.col),
                                 old(tokensParsed + |tokens|), old(mark)) &&
          tokens == old(tokens) + [Token(old(mark), Scalar(Plain, d.text))]
    {
      ghost var keys := KeySaved(simpleKeys, simpleKeyAllowed, flowLevel > 0 && indent == mark.col, tokensParsed + |tokens|, mark);
      r := SaveKeyBeforeToken();
      if r.Ok? {
        assert simpleKeys == keys;
        r := QueuePlainScalar();
      }
    }

    /** `scan_block_scalar` between two fetches, queueing its token. */
    method QueueBlockScalar(literal: bool) returns (r: Result<()>)
      requires Between() && KeysNotAfter(simpleKeys, mark) && bufLen >= 1 && Ch(0) == (if literal then '|' else '>')
      modifies this`bufLen, this`rdrPos, this`mark, this`tokens
      ensures var b := BlockScalar(input, old(mark), literal, indent);
        (r.Err? <==> b.Err?) &&
        (r.Err? ==> r.error == b.error) &&
        (r.Ok? ==>
          Fetching() && mark == MarkAfter(input, old(mark), b.value.next) &&
          tokens == old(tokens) +
            [Token(MarkAfter(input, old(mark), b.value.start), Scalar(if literal then Literal else Folded, b.value.text))])
    {
      ghost var m := mark;
      var tok := ScanBlockScalar(literal);
      if tok.Err? {
        return Err(tok.error);
      }
      BetweenKept();
      MarkAfterMoves(input, m, mark.index);
      KeysNotAfterAdvanced(simpleKeys, m, mark);
      Enqueue(tok.value);
      return Ok(());
    }

    /** `fetch_block_scalar` at a '|' (`literal`) or '>': the position may
        start a simple key, and a simple key is allowed after the scalar. */
    method FetchBlockScalar(literal: bool) returns (r: Result<()>)
      requires Fetching() && bufLen >= 1 && Ch(0) == (if literal then '|' else '>')
      modifies this`bufLen, this`rdrPos, this`mark, this`tokens, this`simpleKeys, this`simpleKeyAllowed
      ensures var last := old(simpleKeys[|simpleKeys| - 1]);
        var keyError := old(simpleKeyAllowed) && last.possible && last.required;
        var b := BlockScalar(input, old(mark), literal, indent);
        (r.Err? <==> keyError || b.Err?) &&
        (r.Err? ==> r.error == if keyError then ScanError(old(mark), SimpleKeyExpected) else b.error)
      ensures var b := BlockScalar(input, old(mark), literal, indent);
        r.Ok? ==>
          Fetching() && mark == MarkAfter(input, old(mark), b.value.next) && simpleKeyAllowed &&
          simpleKeys == KeySaved(old(simpleKeys), old(simpleKeyAllowed), old(flowLevel > 0 && indent == mark.col),
                                 old(tokensParsed + |tokens|), old(mark)) &&
          tokens == old(tokens) +
            [Token(MarkAfter(input, old(mark), b.value.start), Scalar(if literal then Literal else Folded, b.value.text))]
    {
      ghost var keys := KeySaved(simpleKeys, simpleKeyAllowed, flowLevel > 0 && indent == mark.col, tokensParsed + |tokens|, mark);
      r := SaveSimpleKey();
      if r.Err? {
        return;
      }
      assert simpleKeys == keys;
      simpleKeyAllowed := true;
      r := QueueBlockScalar(literal);
    }

    /** The fetcher dispatch of `fetch_next_token`, once the position is at
        the next token: the fetcher `Classify` chose runs.  A successful
        fetch queues at least one token and either consumes input or
        queues StreamEnd; '%', '@' and '`' outside a directive are errors. */
    method FetchToken(f: Fetch) returns (r: Result<()>)
      requires Fetching() && bufLen >= 4 && Applies(f, input, mark.index, mark.col, flowLevel > 0)
      modifies this`bufLen, this`rdrPos, this`mark, this`indent, this`indents, this`tokens, this`simpleKeys,
        this`simpleKeyAllowed, this`flowLevel, this`adjacentValueAllowedAt, this`streamEndQueued
      ensures f.Unexpected? ==> r == Err(ScanError(mark, UnexpectedCharacter(f.c)))
      ensures r.Ok? ==> Valid() && !tokenAvailable && |old(tokens)| < |tokens|
      ensures r.Ok? ==> Yields(f, tokens[|tokens| - 1].tokenType)
      ensures r.Ok? && f.FetchStreamEnd? ==> streamEndQueued && mark.index == old(mark.index)
      ensures r.Ok? && !f.FetchStreamEnd? ==> Fetching() && old(mark.index) < mark.index
      ensures f.FetchStreamEnd? && old(AtQuietEnd()) ==>
        r.Ok? && mark == old(mark) && tokens == old(tokens) + [Token(mark, StreamEnd)] && NoPossibleKey(simpleKeys)
    {
      if f.FetchStreamEnd? {
        r := FetchStreamEnd();
        return;
      } else if f.Unexpected? {
        return Err(ScanError(mark, UnexpectedCharacter(f.c)));
      } else if f.FetchDirective? || f.FetchDocumentIndicator? || f.FetchComment? {
        r := FetchDocumentToken(f);
      } else if f.FetchAnchor? || f.FetchTag? || f.FetchBlockScalar? || f.FetchFlowScalar? || f.FetchPlainScalar? {
        r := FetchNodeToken(f);
      } else {
        r := FetchIndicatorToken(f);
      }
      if r.Ok? {
        FetchingIsValid();
      }
    }

    /** The fetchers of directives, document indicators and comments. */
    method FetchDocumentToken(f: Fetch) returns (r: Result<()>)
      requires f.FetchDirective? || f.FetchDocumentIndicator? || f.FetchComment?
      requires Fetching() && bufLen >= 4 && Applies(f, input, mark.index, mark.col, flowLevel > 0)
      modifies this`bufLen, this`rdrPos, this`mark, this`indent, this`indents, this`tokens, this`simpleKeys,
        this`simpleKeyAllowed
      ensures r.Ok? ==> Fetching() && old(mark.index) < mark.index && |old(tokens)| < |tokens|
      ensures r.Ok? ==> Yields(f, tokens[|tokens| - 1].tokenType)
    {
      match f
      case FetchDirective => r := FetchDirective();
      case FetchDocumentIndicator(start) => r := FetchDocumentIndicator(start);
      case FetchComment =>
        QueueComment();
        r := Ok(());
    }

    /** The fetchers of the flow and block indicators. */
    method FetchIndicatorToken(f: Fetch) returns (r: Result<()>)
      requires f.FetchFlowCollectionStart? || f.FetchFlowCollectionEnd? || f.FetchFlowEntry? || f.FetchBlockEntry? ||
               f.FetchKey? || f.FetchValue?
      requires Fetching() && bufLen >= 1 && Applies(f, input, mark.index, mark.col, flowLevel > 0)
      modifies this`bufLen, this`mark, this`indent, this`indents, this`tokens, this`simpleKeys,
        this`simpleKeyAllowed, this`flowLevel
      ensures r.Ok? ==> Fetching() && old(mark.index) < mark.index && |old(tokens)| < |tokens|
      ensures r.Ok? ==> Yields(f, tokens[|tokens| - 1].tokenType)
    {
      match f
      case FetchFlowCollectionStart(sequence) => r := FetchFlowCollectionStart(sequence);
      case FetchFlowCollectionEnd(sequence) => r := FetchFlowCollectionEnd(sequence);
      case FetchFlowEntry => r := FetchFlowEntry();
      case FetchBlockEntry => r := FetchBlockEntry();
      case FetchKey => r := FetchKey();
      case FetchValue => r := FetchValue();
    }

    /** The fetchers of the node properties and scalars. */
    method FetchNodeToken(f: Fetch) returns (r: Result<()>)
      requires f.FetchAnchor? || f.FetchTag? || f.FetchBlockScalar? || f.FetchFlowScalar? || f.FetchPlainScalar?
      requires Fetching() && bufLen >= 1 && Applies(f, input, mark.index, mark.col, flowLevel > 0)
      modifies this`bufLen, this`rdrPos, this`mark, this`tokens, this`simpleKeys, this`simpleKeyAllowed,
        this`adjacentValueAllowedAt
      ensures r.Ok? ==> Fetching() && old(mark.index) < mark.index && |old(tokens)| < |tokens|
      ensures r.Ok? ==> Yields(f, tokens[|tokens| - 1].tokenType)
    {
      match f
      case FetchAnchor(alias) => r := FetchAnchor(alias);
      case FetchTag => r := FetchTag();
      case FetchBlockScalar(literal) => r := FetchBlockScalar(literal);
      case FetchFlowScalar(single) => r := FetchFlowScalar(single);
      case FetchPlainScalar => r := FetchPlainScalar();
    }

    /** `fetch_next_token`: the first call queues StreamStart; later calls
        move to the next token (`ToNextToken`) and run the fetcher
        `Classify` chooses there.  Each successful call queues a token and,
        after StreamStart, consumes input or queues StreamEnd. */
    method FetchNextToken() returns (r: Result<()>)
      requires Valid() && !tokenAvailable && !streamEndQueued
      modifies this`bufLen, this`rdrPos, this`mark, this`indent, this`indents, this`tokens, this`simpleKeys,
        this`simpleKeyAllowed, this`flowLevel, this`adjacentValueAllowedAt, this`streamEndQueued,
        this`streamStartProduced
      ensures !old(streamStartProduced) ==>
        r.Ok? && Started() && mark == old(mark) && tokens == old(tokens) + [Token(old(mark), StreamStart(Utf8))]
      ensures old(streamStartProduced) && old(AtQuietEnd()) ==>
        r.Ok? && streamEndQueued && NoPossibleKey(simpleKeys) && mark == old(mark) &&
        tokens == old(tokens) + [Token(old(mark), StreamEnd)]
      ensures r.Ok? ==> Valid() && !tokenAvailable && |old(tokens)| < |tokens| && streamStartProduced
      ensures r.Ok? && old(streamStartProduced) ==>
        old(mark.index) < mark.index || (old(mark.index) == mark.index && streamEndQueued)
    {
      Lookahead(1);
      if !streamStartProduced {
        FetchStreamStart();
        return Ok(());
      }
      FetchingIsValid();
      r := FetchInStream();
    }

    /** `fetch_next_token` once the stream has started: move to the next
        token and run the fetcher `Classify` chooses there. */
    method FetchInStream() returns (r: Result<()>)
      requires Fetching()
      modifies this`bufLen, this`rdrPos, this`mark, this`indent, this`indents, this`tokens, this`simpleKeys,
        this`simpleKeyAllowed, this`flowLevel, this`adjacentValueAllowedAt, this`streamEndQueued
      ensures old(AtQuietEnd()) ==>
        r.Ok? && streamEndQueued && NoPossibleKey(simpleKeys) && mark == old(mark) &&
        tokens == old(tokens) + [Token(old(mark), StreamEnd)]
      ensures r.Ok? ==> Valid() && !tokenAvailable && |old(tokens)| < |tokens|
      ensures r.Ok? ==> old(mark.index) < mark.index || (old(mark.index) == mark.index && streamEndQueued)
    {
      r := ToNextToken();
      if r.Err? {
        return;
      }
      var f := Classify(input, mark.index, mark.col, flowLevel > 0, mark.index == adjacentValueAllowedAt, withComments);
      ClassifyApplies(input, mark.index, mark.col, flowLevel > 0, simpleKeyAllowed, mark.index == adjacentValueAllowedAt,
                      withComments);
      r := FetchToken(f);
    }

    /** The first half of `fetch_next_token`: skip to the next token, retire
        the stale simple keys and close the block levels deeper than the
        column reached; at least four characters are then buffered. */
    method ToNextToken() returns (r: Result<()>)
      requires Fetching()
      modifies this`bufLen, this`rdrPos, this`mark, this`indent, this`indents, this`tokens, this`simpleKeys,
        this`simpleKeyAllowed
      ensures r.Ok? ==> Fetching() && bufLen >= 4
      ensures SkipStops(At(input, mark.index), flowLevel > 0, simpleKeyAllowed, withComments)
      ensures (mark.index, simpleKeyAllowed) ==
        SkipTarget(input, old(mark.index), flowLevel > 0, old(simpleKeyAllowed), withComments)
      ensures r.Ok? && flowLevel == 0 ==> Levels() == Unrolled(old(Levels()), mark.col)
      ensures r.Ok? ==>
        |Levels()| <= |old(Levels())| && tokens == old(tokens) + BlockEnds(mark, |old(Levels())| - |Levels()|)
      ensures r.Ok? <==> NoRequiredStale(old(simpleKeys), mark)
      ensures r.Ok? ==> AllRefreshed(simpleKeys, old(simpleKeys), mark)
      ensures r.Err? ==> r.error == ScanError(mark, SimpleKeyExpectColon)
      ensures |old(tokens)| <= |tokens|
      ensures old(AtQuietEnd()) ==> r.Ok? && mark == old(mark) && tokens == old(tokens) && AtQuietEnd()
    {
      r := SkipAndRetire();
      if r.Err? {
        return;
      }
      assert tokens == old(tokens) && Levels() == old(Levels());
      CloseDeeperBlocks();
    }

    /** `unroll_indent(mark.col)` and `lookahead(4)` between two fetches:
        the block levels deeper than the column are closed, one BlockEnd
        each. */
    method CloseDeeperBlocks()
      requires Fetching()
      modifies this`bufLen, this`rdrPos, this`indent, this`indents, this`tokens
      ensures Fetching() && bufLen >= 4
      ensures flowLevel == 0 ==> Levels() == Unrolled(old(Levels()), mark.col)
      ensures flowLevel > 0 ==> Levels() == old(Levels())
      ensures |Levels()| <= |old(Levels())| && tokens == old(tokens) + BlockEnds(mark, |old(Levels())| - |Levels()|)
      ensures old(AtQuietEnd()) ==> tokens == old(tokens) && AtQuietEnd()
    {
      UnrollIndent(mark.col);
      FetchLookahead(4);
    }

    /** `skip_to_next_token`, then `stale_simple_keys` at the position
        reached. */
    method SkipAndRetire() returns (r: Result<()>)
      requires Fetching()
      modifies this`bufLen, this`rdrPos, this`mark, this`simpleKeys, this`simpleKeyAllowed
      ensures r.Ok? ==> Fetching()
      ensures SkipStops(At(input, mark.index), flowLevel > 0, simpleKeyAllowed, withComments)
      ensures (mark.index, simpleKeyAllowed) ==
        SkipTarget(input, old(mark.index), flowLevel > 0, old(simpleKeyAllowed), withComments)
      ensures r.Ok? <==> NoRequiredStale(old(simpleKeys), mark)
      ensures r.Ok? ==> AllRefreshed(simpleKeys, old(simpleKeys), mark)
      ensures r.Err? ==> r.error == ScanError(mark, SimpleKeyExpectColon)
      ensures At(input, old(mark.index)) == '\0' ==> mark == old(mark)
      ensures NoPossibleKey(old(simpleKeys)) ==> r.Ok? && simpleKeys == old(simpleKeys)
      ensures old(AtQuietEnd()) ==> r.Ok? && AtQuietEnd()
    {
      FetchSkip();
      r := FetchStale();
    }

    /** `skip_to_next_token` between two fetches. */
    method FetchSkip()
      requires Fetching()
      modifies this`bufLen, this`rdrPos, this`mark, this`simpleKeyAllowed
      ensures Fetching() && bufLen >= 1
      ensures (mark.index, simpleKeyAllowed) ==
        SkipTarget(input, old(mark.index), flowLevel > 0, old(simpleKeyAllowed), withComments)
      ensures SkipStops(At(input, mark.index), flowLevel > 0, simpleKeyAllowed, withComments)
      ensures At(input, old(mark.index)) == '\0' ==> mark == old(mark)
    {
      ghost var m0 := mark;
      if At(input, m0.index) == '\0' {
        SkipTargetStays(input, m0.index, flowLevel > 0, simpleKeyAllowed, withComments);
      }
      SkipToNextToken();
      MarkAfterMoves(input, m0, mark.index);
      BetweenKept();
      KeysBehindMoved(simpleKeys, m0, mark);
    }

    /** `stale_simple_keys` between two fetches. */
    method FetchStale() returns (r: Result<()>)
      requires Fetching()
      modifies this`simpleKeys
      ensures r.Ok? ==> Fetching()
      ensures r.Err? ==> r.error == ScanError(mark, SimpleKeyExpectColon)
      ensures r.Ok? <==> NoRequiredStale(old(simpleKeys), mark)
      ensures r.Ok? ==> AllRefreshed(simpleKeys, old(simpleKeys), mark)
      ensures NoPossibleKey(old(simpleKeys)) ==> r.Ok? && simpleKeys == old(simpleKeys)
    {
      r := StaleSimpleKeys();
    }

    /** `lookahead` between two fetches. */
    method FetchLookahead(count: nat)
      requires Fetching()
      modifies this`bufLen, this`rdrPos
      ensures Fetching() && bufLen >= count
    {
      Lookahead(count);
      BetweenKept();
    }

    /** The loop over the simple keys in `fetch_more_tokens`: is there a
        possible key whose Key token would go before the queue head? */
    method KeyAtHead() returns (pending: bool)
      ensures pending == KeyPending(simpleKeys, tokensParsed)
    {
      var i := 0;
      while i < |simpleKeys|
        invariant 0 <= i <= |simpleKeys|
        invariant forall j :: 0 <= j < i ==> !(simpleKeys[j].possible && simpleKeys[j].tokenNumber == tokensParsed)
      {
        if simpleKeys[i].possible && simpleKeys[i].tokenNumber == tokensParsed {
          return true;
        }
        i := i + 1;
      }
      return false;
    }

    /** The test `fetch_more_tokens` makes on a queue that is not empty:
        the stale keys are retired, then more tokens are needed exactly
        when a possible key would insert a Key token before the head.
        Once StreamEnd is queued none is needed. */
    method NeedMore() returns (r: Result<bool>)
      requires Valid() && !tokenAvailable && !streamEndProduced && |tokens| > 0
      modifies this`simpleKeys
      ensures r.Err? ==> r.error == ScanError(mark, SimpleKeyExpectColon)
      ensures r.Ok? <==> NoRequiredStale(old(simpleKeys), mark)
      ensures r.Ok? ==> AllRefreshed(simpleKeys, old(simpleKeys), mark)
      ensures r.Ok? ==> Valid() && (r.value <==> KeyPending(simpleKeys, tokensParsed))
      ensures r.Ok? && streamEndQueued ==> !r.value
      ensures NoPossibleKey(old(simpleKeys)) ==> r == Ok(false) && simpleKeys == old(simpleKeys)
    {
      ghost var keys := simpleKeys;
      var stale := StaleSimpleKeys();
      if stale.Err? {
        return Err(stale.error);
      }
      var pending := KeyAtHead();
      if streamEndQueued {
        RefreshedClearsEarlierLines(simpleKeys, keys, mark);
      }
      return Ok(pending);
    }

    /** On an empty queue before the stream starts, `fetch_more_tokens`
        stays at `m0` and queues StreamStart alone. */
    ghost predicate StartingAt(m0: Marker)
      reads this
    {
      mark == m0 &&
      ((!streamStartProduced && tokens == []) || (Started() && tokens == [Token(m0, StreamStart(Utf8))]))
    }

    /** On an empty queue at a quiet end of input, `fetch_more_tokens`
        stays at `m0` and queues StreamEnd alone, with no possible key left. */
    ghost predicate EndingAt(m0: Marker)
      reads this
    {
      mark == m0 && streamStartProduced &&
      ((AtQuietEnd() && tokens == []) || (NoPossibleKey(simpleKeys) && tokens == [Token(m0, StreamEnd)]))
    }

    /** `fetch_more_tokens`: fetches until the queue is not empty and no
        possible simple key would insert a Key token before its head; then
        a token is available.  The loop ends: each fetch starts the stream,
        consumes input or queues StreamEnd, after which every simple key
        is on an earlier line, stale, and no further fetch is needed. */
    method FetchMoreTokens() returns (r: Result<()>)
      requires Valid() && !tokenAvailable && !streamEndProduced
      modifies this`bufLen, this`rdrPos, this`mark, this`indent, this`indents, this`tokens, this`simpleKeys,
        this`simpleKeyAllowed, this`flowLevel, this`adjacentValueAllowedAt, this`streamEndQueued,
        this`streamStartProduced, this`tokenAvailable
      ensures r.Ok? ==> Valid() && tokenAvailable && |tokens| > 0 && !KeyPending(simpleKeys, tokensParsed)
      ensures !old(streamStartProduced) && old(tokens) == [] ==>
        r.Ok? && Started() && mark == old(mark) && tokens == [Token(old(mark), StreamStart(Utf8))]
      ensures old(streamStartProduced) && old(tokens) == [] && old(AtQuietEnd()) ==>
        r.Ok? && mark == old(mark) && tokens == [Token(old(mark), StreamEnd)]
    {
      ghost var m0 := mark;
      ghost var starting := !streamStartProduced && tokens == [];
      ghost var ending := streamStartProduced && tokens == [] && AtQuietEnd();
      while true
        invariant Valid() && !tokenAvailable && !streamEndProduced
        invariant starting ==> StartingAt(m0)
        invariant ending ==> EndingAt(m0)
        decreases if streamStartProduced then 0 else 1, |input| - mark.index, if streamEndQueued then 0 else 1
      {
        var done := FetchTurn();
        if done.Err? {
          return Err(done.error);
        }
        if done.value {
          break;
        }
      }
      tokenAvailable := true;
      r := Ok(());
    }

    /** One turn of the loop in `fetch_more_tokens`: it is done when the
        queue is not empty and no possible key is pending before its head;
        otherwise it fetches one more token, which starts the stream,
        consumes input or queues StreamEnd.  Both special starts of the
        loop (`StartingAt`, `EndingAt`) are kept. */
    method FetchTurn() returns (r: Result<bool>)
      requires Valid() && !tokenAvailable && !streamEndProduced
      modifies this`bufLen, this`rdrPos, this`mark, this`indent, this`indents, this`tokens, this`simpleKeys,
        this`simpleKeyAllowed, this`flowLevel, this`adjacentValueAllowedAt, this`streamEndQueued,
        this`streamStartProduced
      ensures r.Ok? ==> Valid() && !tokenAvailable && !streamEndProduced
      ensures r == Ok(true) ==> |tokens| > 0 && !KeyPending(simpleKeys, tokensParsed)
      ensures r == Ok(false) ==> streamStartProduced
      ensures r == Ok(false) && old(streamStartProduced) ==>
        old(mark.index) < mark.index || (old(mark.index) == mark.index && !old(streamEndQueued) && streamEndQueued)
      ensures old(StartingAt(mark)) ==> r.Ok? && StartingAt(old(mark))
      ensures old(EndingAt(mark)) ==> r.Ok? && EndingAt(old(mark))
    {
      var needMore := true;
      if |tokens| > 0 {
        if StartingAt(mark) || EndingAt(mark) {
          assert NoPossibleKey(simpleKeys);
        }
        var checked := NeedMore();
        if checked.Err? {
          return Err(checked.error);
        }
        needMore := checked.value;
      }
      if !needMore {
        return Ok(true);
      }
      var fetched := FetchNextToken();
      if fetched.Err? {
        return Err(fetched.error);
      }
      r := Ok(false);
    }

    /** `next_token`: after StreamEnd was handed out there are no more
        tokens; otherwise the head of the queue is handed out, fetching
        more first unless a token is available, and handing out StreamEnd
        ends the stream. */
    method NextToken() returns (r: Result<Option<Token>>)
      requires Valid()
      modifies this`bufLen, this`rdrPos, this`mark, this`indent, this`indents, this`tokens, this`simpleKeys,
        this`simpleKeyAllowed, this`flowLevel, this`adjacentValueAllowedAt, this`streamEndQueued,
        this`streamStartProduced, this`tokenAvailable, this`tokensParsed, this`streamEndProduced
      ensures old(streamEndProduced) ==> r == Ok(None) && tokens == old(tokens) && streamEndProduced
      ensures r.Ok? ==> Valid()
      ensures r.Ok? && !old(streamEndProduced) ==>
        r.value.Some? && !tokenAvailable && tokensParsed == old(tokensParsed) + 1 &&
        (streamEndProduced <==> r.value.value.tokenType == StreamEnd)
      ensures old(tokenAvailable) && !old(streamEndProduced) ==>
        r == Ok(Some(old(tokens[0]))) && tokens == old(tokens[1..])
      ensures !old(streamStartProduced) && !old(streamEndProduced) && old(tokens) == [] ==>
        r == Ok(Some(Token(old(mark), StreamStart(Utf8)))) && Started() && mark == old(mark) && tokens == []
      ensures old(streamStartProduced) && !old(streamEndProduced) && old(tokens) == [] && old(AtQuietEnd()) ==>
        r == Ok(Some(Token(old(mark), StreamEnd))) && streamEndProduced
    {
      if streamEndProduced {
        return Ok(None);
      }
      if !tokenAvailable {
        var fetched := FetchMoreTokens();
        if fetched.Err? {
          return Err(fetched.error);
        }
      }
      var t := PopToken();
      return Ok(Some(t));
    }

    /** The hand-out step of `next_token`: the available head of the queue
        is taken, and taking StreamEnd ends the stream. */
    method PopToken() returns (t: Token)
      requires Valid() && tokenAvailable && !streamEndProduced
      modifies this`tokens, this`tokenAvailable, this`tokensParsed, this`streamEndProduced, this`streamEndQueued
      ensures Valid() && !tokenAvailable && tokensParsed == old(tokensParsed) + 1
      ensures t == old(tokens[0]) && tokens == old(tokens[1..])
      ensures streamEndProduced <==> t.tokenType == StreamEnd
      ensures t.tokenType != StreamEnd ==> streamEndQueued == old(streamEndQueued)
    {
      KeyNumbersPopped(simpleKeys, tokensParsed, |tokens|);
      t := tokens[0];
      tokens := tokens[1..];
      tokenAvailable := false;
      tokensParsed := tokensParsed + 1;
      if t.tokenType == StreamEnd {
        streamEndProduced := true;
        streamEndQueued := true;
      }
    }

    /** `Iterator::next`: the tokens of `next_token` until the first error,
        which is kept; after it, and after StreamEnd, there are none. */
    method Next() returns (t: Option<Token>)
      requires error.None? ==> Valid()
      modifies this`bufLen, this`rdrPos, this`mark, this`indent, this`indents, this`tokens, this`simpleKeys,
        this`simpleKeyAllowed, this`flowLevel, this`adjacentValueAllowedAt, this`streamEndQueued,
        this`streamStartProduced, this`tokenAvailable, this`tokensParsed, this`streamEndProduced, this`error
      ensures error.None? ==> Valid()
      ensures old(error).Some? ==> t.None? && error == old(error) && tokens == old(tokens)
      ensures old(error).None? && old(streamEndProduced) ==> t.None? && error.None?
      ensures old(error).None? && error.None? && !old(streamEndProduced) ==>
        t.Some? && tokensParsed == old(tokensParsed) + 1 && (streamEndProduced <==> t.value.tokenType == StreamEnd)
      ensures error.Some? ==> t.None?
      ensures old(error).None? && !old(streamStartProduced) && !old(streamEndProduced) && old(tokens) == [] ==>
        t == Some(Token(old(mark), StreamStart(Utf8))) && error.None? && Started() && mark == old(mark) &&
        tokens == [] && !streamEndProduced
      ensures (old(error).None? && old(streamStartProduced) && !old(streamEndProduced) && old(tokens) == [] &&
               old(AtQuietEnd())) ==>
        t == Some(Token(old(mark), StreamEnd)) && error.None? && streamEndProduced
    {
      if error.Some? {
        return None;
      }
      var r := NextToken();
      match r
      case Ok(token) => t := token;
      case Err(e) =>
        error := Some(e);
        t := None;
    }
  }

  /** An empty document: the scanner hands out StreamStart and then
      StreamEnd, both at the start of the input, and after them nothing. */
  method EmptyInputTokens(withComments: bool) returns (first: Option<Token>, second: Option<Token>, third: Option<Token>)
    ensures first == Some(Token(Marker(0, 1, 0), StreamStart(Utf8)))
    ensures second == Some(Token(Marker(0, 1, 0), StreamEnd))
    ensures third == None
  {
    var scanner := new Scanner([], withComments);
    first := scanner.Next();
    second := scanner.Next();
    third := scanner.Next();
  }
}

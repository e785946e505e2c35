/** Reference definitions for the directive and tag scanners: what
    `scan_version_directive_value`, `scan_tag_handle` and `scan_tag_uri` of
    `src/scanner.rs` read from a position of the input, as functions of the
    input.  The scanner's methods are proved to agree with them. */
module Directives {
  import opened Funcs
  import opened Tokens
  import opened Decoders

  /** The version-number loop from position `i`, having read `length`
      digits of value `val`: a tenth digit or no digit at all is an error. */
  function VersionDigits(input: seq<char>, i: nat, length: nat, val: nat): Decoded<nat>
    decreases |input| - i
  {
    var c := At(input, i);
    if IsDigit(c) then
      if length + 1 > 9 then Failed(VersionTooLong)
      else VersionDigits(input, i + 1, length + 1, val * 10 + DigitValue(c))
    else if length == 0 then Failed(VersionNoNumber)
    else Decoded(val, length)
  }

  /** `scan_version_directive_number` at position `i`. */
  function VersionNumber(input: seq<char>, i: nat): Decoded<nat> {
    VersionDigits(input, i, 0, 0)
  }

  /** The loop, started with the digits `p` already read, accepts exactly
      one to nine digits in all and yields their decimal value. */
  lemma {:induction false} VersionDigitsValue(input: seq<char>, i: nat, p: seq<char>)
    requires AllDigits(p) && |p| <= 9
    ensures var s := Span(input, i, Digit);
      var d := VersionDigits(input, i, |p|, DecimalValue(p));
      (d.Decoded? <==> 1 <= |p| + |s| <= 9) &&
      (d.Decoded? ==> AllDigits(p + s) && d.value == DecimalValue(p + s) && d.length == |p| + |s|) &&
      (d.Failed? ==> d.kind == if |p| + |s| == 0 then VersionNoNumber else VersionTooLong)
    decreases |input| - i
  {
    var c := At(input, i);
    if IsDigit(c) {
      SpanCons(input, i, Digit);
      if |p| + 1 <= 9 {
        var q, t := p + [c], Span(input, i + 1, Digit);
        DecimalSnoc(p, c);
        VersionDigitsValue(input, i + 1, q);
        assert q + t == p + ([c] + t);
      }
    } else {
      SpanNil(input, i, Digit);
      assert p + Span(input, i, Digit) == p;
    }
  }

  /** A version number is the decimal value of the one to nine digits at
      `i`, so it always fits the source's u32. */
  lemma VersionNumberValue(input: seq<char>, i: nat)
    ensures var s := Span(input, i, Digit);
      var d := VersionNumber(input, i);
      (d.Decoded? <==> 1 <= |s| <= 9) &&
      (d.Decoded? ==> AllDigits(s) && d.value == DecimalValue(s) && d.length == |s| && d.value < 0x1_0000_0000) &&
      (d.Failed? ==> d.kind == if |s| == 0 then VersionNoNumber else VersionTooLong)
  {
    var s := Span(input, i, Digit);
    VersionDigitsValue(input, i, []);
    assert [] + s == s;
    if 1 <= |s| <= 9 {
      NineDigitsFitU32(s);
    }
  }

  /** `scan_version_directive_value` at position `i`: blanks, the major
      number, '.', the minor number. */
  function VersionValue(input: seq<char>, i: nat): (d: Decoded<(nat, nat)>)
    ensures d.Decoded? ==> d.length > 0
  {
    var j := SpanEnd(input, i, Blank);
    match VersionNumber(input, j)
    case Failed(k) => Failed(k)
    case Decoded(major, n) =>
      if At(input, j + n) != '.' then Failed(VersionNoDot)
      else
        match VersionNumber(input, j + n + 1)
        case Failed(k) => Failed(k)
        case Decoded(minor, n2) => Decoded((major, minor), j - i + n + 1 + n2)
  }

  /** `scan_tag_handle` at position `i`: '!', word characters, and '!' if
      present.  A handle without the closing '!' is only accepted as "!"
      inside a %TAG directive. */
  function TagHandle(input: seq<char>, i: nat, directive: bool): (d: Decoded<string>)
    ensures d.Decoded? ==> |d.value| == d.length >= 1 && d.value[0] == '!'
    ensures d.Decoded? && directive ==> d.value == "!" || (|d.value| >= 2 && d.value[|d.value| - 1] == '!')
    ensures At(input, i) != '!' ==> d == Failed(TagNoBang)
  {
    if At(input, i) != '!' then Failed(TagNoBang)
    else
      var name := Span(input, i + 1, Alpha);
      if At(input, i + 1 + |name|) == '!' then Decoded(['!'] + name + ['!'], |name| + 2)
      else if directive && name != [] then Failed(TagDirectiveNoBang)
      else Decoded(['!'] + name, |name| + 1)
  }

  /** One turn of `scan_tag_uri`'s loop at a URI character: an escape is
      decoded, any other character taken as it is. */
  function UriStep(input: seq<char>, i: nat): (d: Decoded<char>)
    ensures d.Decoded? ==> d.length >= 1
  {
    if At(input, i) != '%' then Decoded(At(input, i), 1)
    else
      var e := UriEscape(input, i);
      if e.Decoded? then
        UriEscapeLength(input, i);
        e
      else e
  }

  /** The loop of `scan_tag_uri` from position `i`, with `acc` built and
      `consumed` characters read so far: URI characters, each '%' escape
      decoded to one character, up to the first character that cannot
      appear in a URI. */
  function UriRun(input: seq<char>, i: nat, acc: string, consumed: nat): (d: Decoded<string>)
    decreases |input| - i
  {
    if !IsUriChar(At(input, i)) then Decoded(acc, consumed)
    else
      match UriStep(input, i)
      case Failed(k) => Failed(k)
      case Decoded(ch, n) => UriRun(input, i + n, acc + [ch], consumed + n)
  }

  /** The run only appends to what was built, one character per turn, and
      each turn reads at least one character. */
  lemma {:induction false} UriRunExtends(input: seq<char>, i: nat, acc: string, consumed: nat)
    ensures var d := UriRun(input, i, acc, consumed);
      d.Decoded? ==> acc <= d.value && consumed <= d.length && (d.length > consumed ==> |d.value| > |acc|)
    decreases |input| - i
  {
    if IsUriChar(At(input, i)) {
      var e := UriStep(input, i);
      if e.Decoded? {
        UriRunExtends(input, i + e.length, acc + [e.value], consumed + e.length);
      }
    }
  }

  /** `scan_tag_uri` at position `i` after the handle `head`: the head
      without its '!', then the run; it is an error if both are empty. */
  function TagUri(input: seq<char>, i: nat, head: string): (d: Decoded<string>)
    ensures d.Decoded? && |head| == 0 ==> d.value != []
    ensures |head| == 0 && !IsUriChar(At(input, i)) ==> d == Failed(TagNoUri)
  {
    UriRunExtends(input, i, if |head| > 1 then head[1..] else [], 0);
    match UriRun(input, i, if |head| > 1 then head[1..] else [], 0)
    case Failed(k) => Failed(k)
    case Decoded(s, n) =>
      if |head| == 0 && n == 0 then Failed(TagNoUri) else Decoded(s, n)
  }

  /** The URI starts with the head's characters after its '!'. */
  lemma TagUriKeepsHead(input: seq<char>, i: nat, head: string)
    requires |head| > 1 && TagUri(input, i, head).Decoded?
    ensures head[1..] <= TagUri(input, i, head).value
  {
    UriRunExtends(input, i, head[1..], 0);
  }

  /** A URI without escapes is taken over character for character. */
  lemma {:induction false} UriRunVerbatim(input: seq<char>, i: nat, acc: string, consumed: nat)
    requires forall k :: i <= k < SpanEnd(input, i, UriChars) ==> At(input, k) != '%'
    ensures UriRun(input, i, acc, consumed) ==
      Decoded(acc + Span(input, i, UriChars), consumed + |Span(input, i, UriChars)|)
    decreases |input| - i
  {
    if IsUriChar(At(input, i)) {
      SpanCons(input, i, UriChars);
      UriRunVerbatim(input, i + 1, acc + [At(input, i)], consumed + 1);
      assert acc + [At(input, i)] + Span(input, i + 1, UriChars) == acc + Span(input, i, UriChars);
    } else {
      SpanNil(input, i, UriChars);
      assert acc + [] == acc;
    }
  }

  /** `scan_tag_directive_value` at position `i`: blanks, a handle, then
      the prefix that `TagPrefix` reads. */
  function TagDirectiveValue(input: seq<char>, i: nat): (d: Decoded<(string, string)>)
    ensures d.Decoded? ==> |d.value.0| >= 1 && d.value.0[0] == '!' && |d.value.1| >= 1
  {
    var j := SpanEnd(input, i, Blank);
    match TagHandle(input, j, true)
    case Failed(k) => Failed(k)
    case Decoded(handle, n) =>
      match TagPrefix(input, j + n)
      case Failed(e) => Failed(e)
      case Decoded(prefix, n2) => Decoded((handle, prefix), j + n + n2 - i)
  }

  /** The second half of `scan_tag_directive_value` at position `i`:
      blanks, a prefix, then white space or end of input. */
  function TagPrefix(input: seq<char>, i: nat): (d: Decoded<string>)
    ensures d.Decoded? ==> |d.value| >= 1
  {
    var k := SpanEnd(input, i, Blank);
    match TagUri(input, k, [])
    case Failed(e) => Failed(e)
    case Decoded(prefix, n) =>
      if IsBlankz(At(input, k + n)) then Decoded(prefix, k + n - i)
      else Failed(TagDirectiveNoBlank)
  }

  /** The value of a directive named `name`, read from position `j`: a
      YAML or TAG directive has one; any other directive is skipped to the
      end of the line and gives an empty TagDirective. */
  function DirectiveValue(input: seq<char>, j: nat, name: string): (d: Decoded<TokenType>)
    ensures d.Decoded? ==> d.value.VersionDirective? || d.value.TagDirective?
    ensures name != "YAML" && name != "TAG" ==>
      d == Decoded(TagDirective([], []), SpanEnd(input, j, NonBreakz) - j)
  {
    if name == "YAML" then
      match VersionValue(input, j)
      case Failed(k) => Failed(k)
      case Decoded(v, n) => Decoded(VersionDirective(v.0, v.1), n)
    else if name == "TAG" then
      match TagDirectiveValue(input, j)
      case Failed(k) => Failed(k)
      case Decoded(v, n) => Decoded(TagDirective(v.0, v.1), n)
    else Decoded(TagDirective([], []), SpanEnd(input, j, NonBreakz) - j)
  }

  /** Where a directive's line ends, from position `e` after its value:
      past blanks and a comment, if there is one. */
  function DirectiveLineEnd(input: seq<char>, e: nat): (k: nat)
    ensures e <= k
    ensures At(input, k) != '#' ==> !IsBlank(At(input, k))
  {
    var e1 := SpanEnd(input, e, Blank);
    if At(input, e1) == '#' then SpanEnd(input, e1, NonBreakz) else e1
  }

  /** `scan_directive_name` at position `i`: a non-empty run of word
      characters followed by white space or end of input. */
  function DirectiveName(input: seq<char>, i: nat): (d: Decoded<string>)
    ensures d.Decoded? ==> d.value == Span(input, i, Alpha) && d.length == |d.value| > 0
    ensures d.Failed? ==> d.kind == if Span(input, i, Alpha) == [] then DirectiveNoName else DirectiveBadNameChar
  {
    var name := Span(input, i, Alpha);
    if name == [] then Failed(DirectiveNoName)
    else if !IsBlankz(At(input, SpanEnd(input, i, Alpha))) then Failed(DirectiveBadNameChar)
    else Decoded(name, |name|)
  }

  /** What `scan_directive` reads after the name, from position `j`: the
      value, blanks, an optional comment, and the line break, which is
      consumed. */
  function DirectiveRest(input: seq<char>, j: nat, name: string): (d: Decoded<TokenType>)
    ensures d.Decoded? ==> d.value.VersionDirective? || d.value.TagDirective?
  {
    match DirectiveValue(input, j, name)
    case Failed(k) => Failed(k)
    case Decoded(t, n) =>
      var e := DirectiveLineEnd(input, j + n);
      if !IsBreakz(At(input, e)) then Failed(DirectiveNoLineBreak)
      else Decoded(t, e + BreakAt(input, e) - j)
  }

  /** `scan_directive` with the '%' at position `i`; the length counts from
      the '%'. */
  function DirectiveAt(input: seq<char>, i: nat): (d: Decoded<TokenType>)
    ensures d.Decoded? ==> (d.value.VersionDirective? || d.value.TagDirective?) && d.length >= 1
  {
    match DirectiveName(input, i + 1)
    case Failed(k) => Failed(k)
    case Decoded(name, n) =>
      match DirectiveRest(input, i + 1 + n, name)
      case Failed(k) => Failed(k)
      case Decoded(t, l) => Decoded(t, 1 + n + l)
  }

  /** The end of a tag: white space or end of input must follow. */
  function TagEnd(input: seq<char>, i: nat, t: (string, string), n: nat): (d: Decoded<(string, string)>)
    ensures d.Decoded? ==> d == Decoded(t, n) && IsBlankz(At(input, i + n))
  {
    if IsBlankz(At(input, i + n)) then Decoded(t, n) else Failed(TagNoBlank)
  }

  /** A verbatim tag `!<...>` with the '!' at position `i`: no handle, the
      URI between the angle brackets as suffix. */
  function VerbatimTag(input: seq<char>, i: nat): (d: Decoded<(string, string)>)
    ensures d.Decoded? ==> d.value.0 == [] && d.length >= 3
  {
    match TagUri(input, i + 2, [])
    case Failed(k) => Failed(k)
    case Decoded(suffix, n) =>
      if At(input, i + 2 + n) != '>' then Failed(TagNoClosingAngle)
      else Decoded(([], suffix), n + 3)
  }

  /** `!handle!suffix` or `!suffix` with the '!' at position `i`; the
      second has the handle "!", and the lone `!` is the empty handle with
      the suffix "!". */
  function ShorthandTag(input: seq<char>, i: nat): (d: Decoded<(string, string)>)
    ensures d.Decoded? ==> d.length >= 1
    ensures d.Decoded? ==>
      (d.value.0 == [] || d.value.0 == "!" ||
       (|d.value.0| >= 2 && d.value.0[0] == '!' && d.value.0[|d.value.0| - 1] == '!'))
  {
    match TagHandle(input, i, false)
    case Failed(k) => Failed(k)
    case Decoded(handle, n) =>
      if |handle| >= 2 && handle[0] == '!' && handle[|handle| - 1] == '!' then
        match TagUri(input, i + n, [])
        case Failed(k) => Failed(k)
        case Decoded(suffix, n2) => Decoded((handle, suffix), n + n2)
      else
        match TagUri(input, i + n, handle)
        case Failed(k) => Failed(k)
        case Decoded(suffix, n2) =>
          Decoded(if suffix == [] then ([], "!") else ("!", suffix), n + n2)
  }

  /** `scan_tag` with the '!' at position `i`: a verbatim or a shorthand
      tag, which white space or end of input must follow. */
  function TagAt(input: seq<char>, i: nat): (d: Decoded<(string, string)>)
    ensures d.Decoded? ==> d.length >= 1 && IsBlankz(At(input, i + d.length))
    ensures d.Decoded? ==>
      (d.value.0 == [] || d.value.0 == "!" ||
       (|d.value.0| >= 2 && d.value.0[0] == '!' && d.value.0[|d.value.0| - 1] == '!'))
  {
    match if At(input, i + 1) == '<' then VerbatimTag(input, i) else ShorthandTag(input, i)
    case Failed(k) => Failed(k)
    case Decoded(t, n) => TagEnd(input, i, t, n)
  }

  /** `TagAt` fails where the tag itself fails, and otherwise is the end
      check after the tag's length. */
  lemma TagAtEnds(input: seq<char>, i: nat)
    ensures var d := if At(input, i + 1) == '<' then VerbatimTag(input, i) else ShorthandTag(input, i);
      TagAt(input, i) == if d.Failed? then Failed(d.kind) else TagEnd(input, i, d.value, d.length)
  {
  }
}

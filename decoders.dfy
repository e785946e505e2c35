/** Pure reference definitions for what the tokenizer reads: the padded
    input stream, runs of characters of one class, decimal version numbers,
    hexadecimal escape codes, the escape table of double-quoted scalars and
    the octet classes of URI escapes.  The scanner's methods are proved
    against these functions. */
module Decoders {
  import opened Funcs
  import opened Tokens

  /** The character the reader delivers at position `i`: the input itself,
      then '\0' for ever once it is exhausted (`unwrap_or('\0')`). */
  function At(input: seq<char>, i: nat): (c: char)
    ensures i >= |input| ==> c == '\0'
    ensures c != '\0' ==> i < |input|
  {
    if i < |input| then input[i] else '\0'
  }

  /** A character that may appear in a tag URI (section 6.8.2 of YAML 1.2),
      '%' included as the start of an escaped octet. */
  predicate IsUriChar(c: char) {
    c in {';', '/', '?', ':', '@', '&', '=', '+', '$', ',', '.', '!', '~', '*', '\'', '(', ')', '[', ']', '%'}
      || IsAlpha(c)
  }

  /** The classes of characters the scanner consumes runs of. */
  datatype CharClass = Alpha | Digit | Blank | NonBreakz | UriChars | CommentLead

  /** `c` is in class `cls`; no class contains the '\0' that pads the
      input. */
  function InClass(c: char, cls: CharClass): (r: bool)
    ensures r ==> c != '\0'
  {
    match cls
    case Alpha => IsAlpha(c)
    case Digit => IsDigit(c)
    case Blank => IsBlank(c)
    case NonBreakz => !IsBreakz(c)
    case UriChars => IsUriChar(c)
    case CommentLead => c == '#' || c == ' '
  }

  /** The first position at or after `i` whose character is not in class
      `cls`. */
  function SpanEnd(input: seq<char>, i: nat, cls: CharClass): (j: nat)
    ensures i <= j && (j > i ==> j <= |input|)
    ensures !InClass(At(input, j), cls)
    decreases |input| - i
  {
    if InClass(At(input, i), cls) then SpanEnd(input, i + 1, cls) else i
  }

  /** Every character before `SpanEnd` is in the class. */
  lemma {:induction false} SpanEndRun(input: seq<char>, i: nat, cls: CharClass)
    ensures forall k :: i <= k < SpanEnd(input, i, cls) ==> InClass(At(input, k), cls)
    decreases |input| - i
  {
    if InClass(At(input, i), cls) {
      SpanEndRun(input, i + 1, cls);
    }
  }

  /** `char::from_u32`: defined exactly on Unicode scalar values. */
  function FromU32(v: nat): (r: Option<char>)
    ensures r.Some? <==> (v < 0xD800 || 0xE000 <= v < 0x11_0000)
    ensures r.Some? ==> r.value as int == v
  {
    if v < 0xD800 || 0xE000 <= v < 0x11_0000 then Some(v as char) else None
  }

  /** `b` to the power `n`: the bound a run of `n` digits in base `b`
      stays below. */
  function Pow(b: nat, n: nat): (p: nat)
    requires b >= 1
    ensures p >= 1
  {
    if n == 0 then 1 else b * Pow(b, n - 1)
  }

  lemma {:induction false} PowMonotone(b: nat, m: nat, n: nat)
    requires b >= 1 && m <= n
    ensures Pow(b, m) <= Pow(b, n)
    decreases n
  {
    if m < n {
      PowMonotone(b, m, n - 1);
      assert b * Pow(b, n - 1) >= Pow(b, n - 1);
    }
  }

  predicate AllDigits(s: seq<char>) {
    forall i :: 0 <= i < |s| ==> IsDigit(s[i])
  }

  predicate AllHex(s: seq<char>) {
    forall i :: 0 <= i < |s| ==> IsHex(s[i])
  }

  function DigitValue(c: char): (v: nat)
    requires IsDigit(c)
    ensures v < 10
  {
    c as int - '0' as int
  }

  /** The value of a run of decimal digits, accumulated left to right as the
      version-number loop does (`val * 10 + digit`); it has fewer decimal
      places than the run has digits. */
  function DecimalValue(s: seq<char>): (v: nat)
    requires AllDigits(s)
    ensures v < Pow(10, |s|)
  {
    if s == [] then 0
    else
      var p := DecimalValue(s[..|s| - 1]);
      assert p * 10 + DigitValue(s[|s| - 1]) < Pow(10, |s| - 1) * 10;
      p * 10 + DigitValue(s[|s| - 1])
  }

  /** One more digit multiplies the value by ten and adds the digit. */
  lemma DecimalSnoc(s: seq<char>, c: char)
    requires AllDigits(s) && IsDigit(c)
    ensures AllDigits(s + [c]) && DecimalValue(s + [c]) == DecimalValue(s) * 10 + DigitValue(c)
  {
    assert (s + [c])[..|s|] == s;
  }

  /** A version number of at most nine digits fits in a u32, so the source's
      `val * 10 + digit` cannot overflow. */
  lemma NineDigitsFitU32(s: seq<char>)
    requires AllDigits(s) && |s| <= 9
    ensures DecimalValue(s) < 0x1_0000_0000
  {
    PowMonotone(10, |s|, 9);
    assert Pow(10, 9) == 1_000_000_000;
  }

  /** The `k`-digit decimal spelling of `n` (with leading zeros). */
  function DecimalDigits(n: nat, k: nat): (s: seq<char>)
    ensures |s| == k && AllDigits(s)
  {
    if k == 0 then [] else DecimalDigits(n / 10, k - 1) + [('0' as int + n % 10) as char]
  }

  /** Reading back a decimal spelling gives the number spelled. */
  lemma {:induction false} DecimalRoundTrip(n: nat, k: nat)
    requires n < Pow(10, k)
    ensures DecimalValue(DecimalDigits(n, k)) == n
  {
    if k > 0 {
      var s := DecimalDigits(n, k);
      assert s[..k - 1] == DecimalDigits(n / 10, k - 1);
      DecimalRoundTrip(n / 10, k - 1);
    }
  }

  /** The value of a run of hex digits, accumulated as `(value << 4) + digit`. */
  function HexValue(s: seq<char>): (v: nat)
    requires AllHex(s)
    ensures v < Pow(16, |s|)
  {
    if s == [] then 0
    else
      var p := HexValue(s[..|s| - 1]);
      assert p * 16 + AsHex(s[|s| - 1]) < Pow(16, |s| - 1) * 16;
      p * 16 + AsHex(s[|s| - 1])
  }

  /** The `k`-digit lower-case hexadecimal spelling of `n`. */
  function HexDigits(n: nat, k: nat): (s: seq<char>)
    ensures |s| == k && AllHex(s)
  {
    if k == 0 then [] else HexDigits(n / 16, k - 1) + [HexDigit(n % 16)]
  }

  /** Reading back a hexadecimal spelling gives the number spelled. */
  lemma {:induction false} HexRoundTrip(n: nat, k: nat)
    requires n < Pow(16, k)
    ensures HexValue(HexDigits(n, k)) == n
  {
    if k > 0 {
      var s := HexDigits(n, k);
      assert s[..k - 1] == HexDigits(n / 16, k - 1);
      HexRoundTrip(n / 16, k - 1);
    }
  }

  /** The character denoted by a one-letter escape in a double-quoted scalar
      (section 5.7 of YAML 1.2); `None` for the hex escapes and unknown letters. */
  function EscapeChar(c: char): Option<char> {
    match c
    case '0' => Some('\0')
    case 'a' => Some('\U{7}')
    case 'b' => Some('\U{8}')
    case 't' => Some('\t')
    case '\t' => Some('\t')
    case 'n' => Some('\n')
    case 'v' => Some('\U{B}')
    case 'f' => Some('\U{C}')
    case 'r' => Some('\r')
    case 'e' => Some('\U{1B}')
    case ' ' => Some(' ')
    case '"' => Some('"')
    case '\'' => Some('\'')
    case '\\' => Some('\\')
    case 'N' => Some('\U{85}')
    case '_' => Some('\U{A0}')
    case 'L' => Some('\U{2028}')
    case 'P' => Some('\U{2029}')
    case _ => None
  }

  /** The number of hex digits that follow `\x`, `\u` and `\U`; 0 otherwise. */
  function EscapeCodeLength(c: char): (n: nat)
    ensures n in {0, 2, 4, 8}
    ensures n > 0 ==> EscapeChar(c).None?
  {
    if c == 'x' then 2 else if c == 'u' then 4 else if c == 'U' then 8 else 0
  }

  /** The number of octets announced by the leading octet of a URI escape,
      as in UTF-8; 0 for an octet that cannot lead. */
  function LeadWidth(octet: nat): (w: nat)
    requires octet < 256
    ensures w <= 4
  {
    if octet < 0x80 then 1
    else if 0xC0 <= octet < 0xE0 then 2
    else if 0xE0 <= octet < 0xF0 then 3
    else if 0xF0 <= octet < 0xF8 then 4
    else 0
  }

  /** `LeadWidth` is the width the scanner reads off the octet's high bits
      with the masks 0x80, 0xE0, 0xF0 and 0xF8. */
  lemma LeadWidthMasks(octet: nat)
    requires octet < 256
    ensures var b := octet as bv8;
      LeadWidth(octet) ==
        if b & 0x80 == 0x00 then 1
        else if b & 0xE0 == 0xC0 then 2
        else if b & 0xF0 == 0xE0 then 3
        else if b & 0xF8 == 0xF0 then 4
        else 0
  {
  }

  /** A trailing octet has the form 10xxxxxx. */
  predicate IsTrail(octet: nat) {
    0x80 <= octet < 0xC0
  }

  /** `IsTrail` is the scanner's mask test `octet & 0xC0 == 0x80`. */
  lemma IsTrailMask(octet: nat)
    requires octet < 256
    ensures IsTrail(octet) <==> (octet as bv8) & 0xC0 == 0x80
  {
  }

  /** The length of the line break at position `i`: 2 for CR LF, 1 for a
      lone CR or LF, 0 when there is no break there. */
  function BreakAt(input: seq<char>, i: nat): (n: nat)
    ensures n <= 2 && (n > 0 <==> IsBreak(At(input, i)))
    ensures n == 2 <==> At(input, i) == '\r' && At(input, i + 1) == '\n'
  {
    if At(input, i) == '\r' && At(input, i + 1) == '\n' then 2
    else if IsBreak(At(input, i)) then 1
    else 0
  }

  /** The `k` characters the reader delivers from position `i` on. */
  function Slice(input: seq<char>, i: nat, k: nat): (s: seq<char>)
    ensures |s| == k && forall j :: 0 <= j < k ==> s[j] == At(input, i + j)
  {
    if k == 0 then [] else Slice(input, i, k - 1) + [At(input, i + k - 1)]
  }

  /** The run of class-`cls` characters that starts at `i`. */
  function Span(input: seq<char>, i: nat, cls: CharClass): (s: seq<char>)
    ensures |s| == SpanEnd(input, i, cls) - i
  {
    Slice(input, i, SpanEnd(input, i, cls) - i)
  }

  /** The run holds the input's characters from `i` on, each of class `cls`. */
  lemma SpanChars(input: seq<char>, i: nat, cls: CharClass)
    ensures var s := Span(input, i, cls);
      forall k :: 0 <= k < |s| ==> s[k] == At(input, i + k) && InClass(s[k], cls)
  {
    SpanEndRun(input, i, cls);
  }

  /** A run that starts with a class-`cls` character is that character
      followed by the run from the next position. */
  lemma SpanCons(input: seq<char>, i: nat, cls: CharClass)
    requires InClass(At(input, i), cls)
    ensures Span(input, i, cls) == [At(input, i)] + Span(input, i + 1, cls)
  {
    var s, t := Span(input, i, cls), Span(input, i + 1, cls);
    assert |s| == |t| + 1;
    assert forall k :: 0 <= k < |s| ==> s[k] == ([At(input, i)] + t)[k];
  }

  /** A run that starts outside the class is empty. */
  lemma SpanNil(input: seq<char>, i: nat, cls: CharClass)
    requires !InClass(At(input, i), cls)
    ensures Span(input, i, cls) == []
  {
  }

  /** What a decoder makes of the input at a position: a value and the number
      of characters it spans, or the reason it fails. */
  datatype Decoded<T> = Decoded(value: T, length: nat) | Failed(kind: ErrorKind)

  /** `%` followed by two hex digits at position `i`. */
  predicate IsEscapedOctet(input: seq<char>, i: nat) {
    At(input, i) == '%' && IsHex(At(input, i + 1)) && IsHex(At(input, i + 2))
  }

  function OctetAt(input: seq<char>, i: nat): (o: nat)
    requires IsEscapedOctet(input, i)
    ensures o < 256
  {
    AsHex(At(input, i + 1)) * 16 + AsHex(At(input, i + 2))
  }

  /** One turn of `scan_uri_escapes`' loop at position `i`: with `width`
      octets still expected (0 before the leading one) and the code built
      so far, the width and code once the escaped octet there is taken. */
  function UriOctet(input: seq<char>, i: nat, width: nat, code: nat): (r: Decoded<(nat, nat)>)
    ensures r.Decoded? ==> IsEscapedOctet(input, i) && r.length == 3
    ensures r.Decoded? && width > 0 ==> r.value == (width, code * 256 + OctetAt(input, i))
    ensures r.Decoded? && width == 0 ==>
      r.value == (LeadWidth(OctetAt(input, i)), OctetAt(input, i)) && 1 <= r.value.0 <= 4
  {
    if !IsEscapedOctet(input, i) then Failed(UriNoOctet)
    else
      var o := OctetAt(input, i);
      if width == 0 then
        if LeadWidth(o) == 0 then Failed(UriBadLeadOctet) else Decoded((LeadWidth(o), o), 3)
      else if !IsTrail(o) then Failed(UriBadTrailOctet)
      else Decoded((width, code * 256 + o), 3)
  }

  /** The rest of a URI escape from position `i`, `consumed` characters
      after its start: octets are taken until the announced width is
      reached, and the code they make must be a Unicode scalar value. */
  function UriOctets(input: seq<char>, i: nat, width: nat, code: nat, consumed: nat): Decoded<char>
    decreases if width == 0 then 4 else width
  {
    match UriOctet(input, i, width, code)
    case Failed(k) => Failed(k)
    case Decoded(next, _) =>
      if next.0 == 1 then
        match FromU32(next.1)
        case None => Failed(UriBadCodepoint)
        case Some(c) => Decoded(c, consumed + 3)
      else UriOctets(input, i + 3, next.0 - 1, next.1, consumed + 3)
  }

  /** One URI escape at position `i`: a leading octet that announces the
      width, then width - 1 trailing octets, giving the character whose code
      is the octets concatenated. */
  function UriEscape(input: seq<char>, i: nat): Decoded<char> {
    UriOctets(input, i, 0, 0, 0)
  }

  lemma {:induction false} UriOctetsLength(input: seq<char>, i: nat, width: nat, code: nat, consumed: nat)
    requires width > 0
    ensures UriOctets(input, i, width, code, consumed).Decoded? ==>
      UriOctets(input, i, width, code, consumed).length == consumed + 3 * width
    decreases width
  {
    var d := UriOctet(input, i, width, code);
    if d.Decoded? && d.value.0 != 1 {
      UriOctetsLength(input, i + 3, width - 1, d.value.1, consumed + 3);
    }
  }

  /** A decoded URI escape spans three characters per octet its leading
      octet announces. */
  lemma UriEscapeLength(input: seq<char>, i: nat)
    requires UriEscape(input, i).Decoded?
    ensures IsEscapedOctet(input, i)
    ensures UriEscape(input, i).length == 3 * LeadWidth(OctetAt(input, i))
  {
    var d := UriOctet(input, i, 0, 0);
    if d.Decoded? && d.value.0 != 1 {
      UriOctetsLength(input, i + 3, d.value.0 - 1, d.value.1, 3);
    }
  }

  /** An escaped octet below 0x80 stands for itself. */
  lemma UriEscapeAscii(input: seq<char>, i: nat)
    requires IsEscapedOctet(input, i) && OctetAt(input, i) < 0x80
    ensures UriEscape(input, i) == Decoded(OctetAt(input, i) as char, 3)
  {
  }

  /** A two-octet escape yields the code `lead * 256 + trail`: the octets are
      concatenated, not decoded as UTF-8 (leads from 0xD8 on give surrogate
      codes and fail). */
  lemma UriEscapeConcatenates(input: seq<char>, i: nat)
    requires IsEscapedOctet(input, i) && IsEscapedOctet(input, i + 3)
    requires 0xC0 <= OctetAt(input, i) < 0xD8 && 0x80 <= OctetAt(input, i + 3) < 0xC0
    ensures UriEscape(input, i) == Decoded((OctetAt(input, i) * 256 + OctetAt(input, i + 3)) as char, 6)
  {
    var o := OctetAt(input, i);
    assert UriOctet(input, i, 0, 0) == Decoded((2, o), 3);
    var code: nat := o * 256 + OctetAt(input, i + 3);
    assert UriOctet(input, i + 3, 1, o) == Decoded((1, code), 3);
  }

  /** A stray trailing octet cannot start an escape, and a lead octet must
      be followed by as many trailing octets as it announces. */
  lemma UriEscapeRejects(input: seq<char>, i: nat)
    requires IsEscapedOctet(input, i)
    ensures 0x80 <= OctetAt(input, i) < 0xC0 || 0xF8 <= OctetAt(input, i) ==>
      UriEscape(input, i) == Failed(UriBadLeadOctet)
    ensures 0xC0 <= OctetAt(input, i) < 0xF8 && IsEscapedOctet(input, i + 3) && !IsTrail(OctetAt(input, i + 3)) ==>
      UriEscape(input, i) == Failed(UriBadTrailOctet)
  {
    var o := OctetAt(input, i);
    if 0xC0 <= o < 0xF8 {
      assert UriOctet(input, i, 0, 0) == Decoded((LeadWidth(o), o), 3);
    }
  }

  /** The escape sequence at position `i` of a double-quoted scalar (`i` is
      at the backslash): a one-letter escape spans 2 characters, `\x`, `\u`
      and `\U` span 2 plus 2, 4 or 8 hex digits. */
  function QuotedEscape(input: seq<char>, i: nat): (r: Decoded<char>)
    ensures r.Decoded? ==> r.length == 2 + EscapeCodeLength(At(input, i + 1))
  {
    var c := At(input, i + 1);
    if EscapeChar(c).Some? then Decoded(EscapeChar(c).value, 2)
    else
      var n := EscapeCodeLength(c);
      if n == 0 then Failed(UnknownEscape)
      else
        var digits := Slice(input, i + 2, n);
        if !AllHex(digits) then Failed(EscapeNoHex)
        else match FromU32(HexValue(digits))
          case None => Failed(EscapeBadCodepoint)
          case Some(ch) => Decoded(ch, 2 + n)
  }

  /** `\u` followed by the four-digit spelling of a scalar value decodes
      to that character. */
  lemma QuotedEscapeU4(input: seq<char>, i: nat, v: nat)
    requires v < 0xD800
    requires At(input, i + 1) == 'u' && Slice(input, i + 2, 4) == HexDigits(v, 4)
    ensures QuotedEscape(input, i) == Decoded(v as char, 6)
  {
    assert Pow(16, 4) == 0x1_0000;
    HexRoundTrip(v, 4);
  }

  /** A letter that is neither a one-letter escape nor a hex-escape
      introducer is rejected. */
  lemma QuotedEscapeUnknown(input: seq<char>, i: nat)
    requires EscapeChar(At(input, i + 1)).None? && !(At(input, i + 1) in {'x', 'u', 'U'})
    ensures QuotedEscape(input, i) == Failed(UnknownEscape)
  {
  }
}

/**
 * Byte-level text helpers the crate relies on from Rust's standard library
 * and from the `atoi` crate: `<[u8]>::escape_ascii`, `str::trim` and
 * `atoi::atoi`. The readers turn XML text bytes into strings with these.
 */
module Bytes {
  import opened Wrappers

  newtype byte = x: int | 0 <= x < 256

  // ----------------------------------------------------------------------
  // escape_ascii: every byte becomes the text Rust's `escape_default` gives
  // ----------------------------------------------------------------------

  predicate IsHexDigit(c: char)
  {
    '0' <= c <= '9' || 'a' <= c <= 'f'
  }

  function HexValue(c: char): (n: int)
    requires IsHexDigit(c)
    ensures 0 <= n < 16
  {
    if c <= '9' then c as int - '0' as int else c as int - 'a' as int + 10
  }

  /** Lower-case hexadecimal digit, as `escape_default` writes it. */
  function HexDigit(n: int): (c: char)
    requires 0 <= n < 16
    ensures IsHexDigit(c) && HexValue(c) == n
  {
    if n < 10 then ('0' as int + n) as char else ('a' as int + n - 10) as char
  }

  /** A byte that `escape_default` copies through unchanged. */
  predicate PlainByte(b: byte)
  {
    0x20 <= b <= 0x7e && b != 0x5c && b != 0x27 && b != 0x22
  }

  predicate IsPrintableText(s: string)
  {
    forall i :: 0 <= i < |s| ==> ' ' <= s[i] <= '~'
  }

  /**
   * One byte escaped: tab, carriage return and newline become `\t`, `\r` and
   * `\n`; a backslash and both quotes get a backslash in front; the other
   * printable ASCII bytes stay themselves; everything else becomes `\xNN`.
   */
  function EscapeByte(b: byte): (s: string)
    ensures 1 <= |s| <= 4 && IsPrintableText(s)
    ensures |s| == 1 <==> PlainByte(b)
    ensures |s| == 1 ==> s[0] as int == b as int
    ensures |s| > 1 ==> s[0] == '\\'
  {
    if b == 0x09 then "\\t"
    else if b == 0x0d then "\\r"
    else if b == 0x0a then "\\n"
    else if b == 0x5c then "\\\\"
    else if b == 0x27 then "\\'"
    else if b == 0x22 then "\\\""
    else if 0x20 <= b <= 0x7e then [b as int as char]
    else ['\\', 'x', HexDigit(b as int / 16), HexDigit(b as int % 16)]
  }

  /** `<[u8]>::escape_ascii().to_string()`: the escapes of the bytes, in order. */
  function EscapeAscii(bs: seq<byte>): (s: string)
    ensures |s| >= |bs| && IsPrintableText(s)
    ensures bs != [] ==> s != []
  {
    if bs == [] then "" else EscapeByte(bs[0]) + EscapeAscii(bs[1..])
  }

  function Prepend(b: byte, rest: Option<seq<byte>>): Option<seq<byte>>
  {
    match rest
    case None => None
    case Some(t) => Some([b] + t)
  }

  function SimpleEscape(c: char): byte
  {
    match c
    case 't' => 0x09
    case 'r' => 0x0d
    case 'n' => 0x0a
    case '\\' => 0x5c
    case '\'' => 0x27
    case _ => 0x22
  }

  /** Reads escaped text back into the bytes it came from; None if it is not escaped text. */
  function UnescapeAscii(s: string): Option<seq<byte>>
    decreases |s|
  {
    if s == [] then Some([])
    else if s[0] != '\\' then
      if ' ' <= s[0] <= '~' then Prepend(s[0] as int as byte, UnescapeAscii(s[1..])) else None
    else if |s| >= 2 && s[1] in "trn\\'\"" then Prepend(SimpleEscape(s[1]), UnescapeAscii(s[2..]))
    else if |s| >= 4 && s[1] == 'x' && IsHexDigit(s[2]) && IsHexDigit(s[3]) then
      Prepend((HexValue(s[2]) * 16 + HexValue(s[3])) as byte, UnescapeAscii(s[4..]))
    else None
  }

  lemma UnescapeEscapeByte(b: byte, rest: string)
    ensures UnescapeAscii(EscapeByte(b) + rest) == Prepend(b, UnescapeAscii(rest))
  {
    var e := EscapeByte(b);
    var s := e + rest;
    if |e| == 1 {
      assert s[0] == e[0] && s[1..] == rest;
    } else if |e| == 2 {
      assert s[0] == '\\' && s[1] == e[1] && s[2..] == rest;
    } else {
      assert s[0] == '\\' && s[1] == 'x' && s[2] == e[2] && s[3] == e[3] && s[4..] == rest;
    }
  }

  /** Escaping loses nothing: the original bytes can always be read back. */
  lemma {:induction false} EscapeRoundTrip(bs: seq<byte>)
    ensures UnescapeAscii(EscapeAscii(bs)) == Some(bs)
  {
    if bs != [] {
      EscapeRoundTrip(bs[1..]);
      UnescapeEscapeByte(bs[0], EscapeAscii(bs[1..]));
      assert [bs[0]] + bs[1..] == bs;
    }
  }

  /** Two byte strings with the same escape are equal. */
  lemma EscapeInjective(a: seq<byte>, b: seq<byte>)
    requires EscapeAscii(a) == EscapeAscii(b)
    ensures a == b
  {
    EscapeRoundTrip(a);
    EscapeRoundTrip(b);
  }

  // ----------------------------------------------------------------------
  // str::trim
  // ----------------------------------------------------------------------

  /** Unicode White_Space, the set `char::is_whitespace` uses. */
  predicate IsWhitespace(c: char)
  {
    var n := c as int;
    (0x09 <= n <= 0x0d) || n == 0x20 || n == 0x85 || n == 0xa0 || n == 0x1680
    || (0x2000 <= n <= 0x200a) || n == 0x2028 || n == 0x2029 || n == 0x202f
    || n == 0x205f || n == 0x3000
  }

  /** Drops leading white space; what is left is a suffix of `s`. */
  function TrimStart(s: string): (t: string)
    ensures |t| <= |s| && t == s[|s| - |t|..]
    ensures forall i :: 0 <= i < |s| - |t| ==> IsWhitespace(s[i])
    ensures t != [] ==> !IsWhitespace(t[0])
    decreases |s|
  {
    if s != [] && IsWhitespace(s[0]) then TrimStart(s[1..]) else s
  }

  /** Drops trailing white space; what is left is a prefix of `s`. */
  function TrimEnd(s: string): (t: string)
    ensures |t| <= |s| && t == s[..|t|]
    ensures forall i :: |t| <= i < |s| ==> IsWhitespace(s[i])
    ensures t != [] ==> !IsWhitespace(t[|t| - 1])
    decreases |s|
  {
    if s != [] && IsWhitespace(s[|s| - 1]) then TrimEnd(s[..|s| - 1]) else s
  }

  function Trim(s: string): string
  {
    TrimEnd(TrimStart(s))
  }

  lemma TrimSlice(s: string)
    ensures var t, k := Trim(s), |s| - |TrimStart(s)|;
      0 <= k <= |s| - |t| && t == s[k..k + |t|]
  {
    var u := TrimStart(s);
    var t := TrimEnd(u);
    var k := |s| - |u|;
    assert u == s[k..];
    assert t == u[..|t|];
    forall i | 0 <= i < |t| ensures t[i] == s[k + i] {
      assert t[i] == u[i];
    }
  }

  lemma TrimRight(s: string)
    ensures var t, k := Trim(s), |s| - |TrimStart(s)|;
      forall i :: k + |t| <= i < |s| ==> IsWhitespace(s[i])
  {
    var u := TrimStart(s);
    var t := TrimEnd(u);
    var k := |s| - |u|;
    forall i | k + |t| <= i < |s| ensures IsWhitespace(s[i]) {
      assert s[i] == u[i - k];
    }
  }

  lemma TrimEnds(s: string)
    ensures Trim(s) != [] ==> !IsWhitespace(Trim(s)[0]) && !IsWhitespace(Trim(s)[|Trim(s)| - 1])
  {
    var u := TrimStart(s);
    var t := TrimEnd(u);
    if t != [] {
      assert t[0] == u[0];
    }
  }

  /**
   * `trim` keeps a contiguous piece of `s`, starting at `k`, and removes
   * only white space around it.
   */
  lemma TrimSpec(s: string)
    ensures var t, k := Trim(s), |s| - |TrimStart(s)|;
      0 <= k <= |s| - |t| && t == s[k..k + |t|]
      && (forall i :: 0 <= i < k ==> IsWhitespace(s[i]))
      && (forall i :: k + |t| <= i < |s| ==> IsWhitespace(s[i]))
      && (t != [] ==> !IsWhitespace(t[0]) && !IsWhitespace(t[|t| - 1]))
  {
    TrimSlice(s);
    TrimRight(s);
    TrimEnds(s);
  }

  /** Trimming printable text leaves printable ASCII text. */
  lemma TrimPrintable(s: string)
    requires IsPrintableText(s)
    ensures IsPrintableText(Trim(s)) && IsAscii(Trim(s))
  {
    TrimSpec(s);
    var t, k := Trim(s), |s| - |TrimStart(s)|;
    forall i | 0 <= i < |t| ensures ' ' <= t[i] <= '~' && t[i] as int < 128 {
      assert t[i] == s[k + i];
    }
  }

  // ----------------------------------------------------------------------
  // atoi::atoi and decimal rendering
  // ----------------------------------------------------------------------

  predicate IsDigit(b: byte)
  {
    0x30 <= b <= 0x39
  }

  /** The longest run of decimal digits at the front of `bs`. */
  function DigitPrefix(bs: seq<byte>): (ds: seq<byte>)
    ensures |ds| <= |bs| && ds == bs[..|ds|]
    ensures forall i :: 0 <= i < |ds| ==> IsDigit(ds[i])
    ensures |ds| < |bs| ==> !IsDigit(bs[|ds|])
  {
    if bs != [] && IsDigit(bs[0]) then [bs[0]] + DigitPrefix(bs[1..]) else []
  }

  function DecimalValue(ds: seq<byte>): nat
    requires forall i :: 0 <= i < |ds| ==> IsDigit(ds[i])
  {
    if ds == [] then 0
    else
      assert IsDigit(ds[|ds| - 1]);
      DecimalValue(ds[..|ds| - 1]) * 10 + (ds[|ds| - 1] as int - 0x30)
  }

  /**
   * `atoi::atoi::<T>` for an integer type whose values are `lo..=hi`: an
   * optional `+` or `-`, then the longest run of digits. It gives None when it
   * consumes nothing at all and when the value does not fit the type; a lone
   * sign consumes one byte and reads as 0.
   */
  function Atoi(bs: seq<byte>, lo: int, hi: int): (r: Option<int>)
    ensures r.Some? ==> lo <= r.value <= hi
    ensures bs == [] ==> r == None
    ensures bs != [] && !IsDigit(bs[0]) && bs[0] != 0x2b && bs[0] != 0x2d ==> r == None
  {
    var signed := |bs| > 0 && (bs[0] == 0x2b || bs[0] == 0x2d);
    var offset := if signed then 1 else 0;
    var ds := DigitPrefix(bs[offset..]);
    if offset + |ds| == 0 then None
    else
      var v: int := if signed && bs[0] == 0x2d then -(DecimalValue(ds) as int) else DecimalValue(ds);
      if lo <= v <= hi then Some(v) else None
  }

  function DigitChar(d: int): (c: char)
    requires 0 <= d < 10
    ensures '0' <= c <= '9'
  {
    ('0' as int + d) as char
  }

  /** `n.to_string()` for an unsigned integer: its decimal digits, no leading zeros. */
  function NatToString(n: nat): (s: string)
    ensures |s| >= 1
    ensures forall i :: 0 <= i < |s| ==> '0' <= s[i] <= '9'
  {
    if n < 10 then [DigitChar(n)] else NatToString(n / 10) + [DigitChar(n % 10)]
  }

  predicate IsAscii(s: string)
  {
    forall i :: 0 <= i < |s| ==> s[i] as int < 128
  }

  /** `str::as_bytes` for ASCII text. */
  function AsciiBytes(s: string): (bs: seq<byte>)
    requires IsAscii(s)
    ensures |bs| == |s|
    ensures forall i :: 0 <= i < |s| ==> bs[i] as int == s[i] as int
  {
    seq(|s|, i requires 0 <= i < |s| => s[i] as int as byte)
  }

  /** Text made only of printable ASCII other than a backslash and the two quotes. */
  predicate IsPlainText(s: string)
  {
    forall i :: 0 <= i < |s| ==> ' ' <= s[i] <= '~' && s[i] != '\\' && s[i] != '\'' && s[i] != '"'
  }

  /** Plain text survives the trip to bytes and back through the escaping unchanged. */
  lemma {:induction false} PlainTextRoundTrip(s: string)
    requires IsPlainText(s)
    ensures IsAscii(s) && EscapeAscii(AsciiBytes(s)) == s
    decreases |s|
  {
    if s != [] {
      PlainTextRoundTrip(s[1..]);
      var bs := AsciiBytes(s);
      assert bs[1..] == AsciiBytes(s[1..]);
      assert PlainByte(bs[0]);
      assert EscapeByte(bs[0]) == [s[0]];
      assert s == [s[0]] + s[1..];
    }
  }

  lemma {:induction false} DecimalValueOfString(n: nat)
    ensures IsAscii(NatToString(n))
    ensures var bs := AsciiBytes(NatToString(n));
      (forall i :: 0 <= i < |bs| ==> IsDigit(bs[i])) && DecimalValue(bs) == n
  {
    var s := NatToString(n);
    var bs := AsciiBytes(s);
    if n >= 10 {
      DecimalValueOfString(n / 10);
      var front := AsciiBytes(NatToString(n / 10));
      assert bs[..|bs| - 1] == front;
    }
  }

  lemma DigitPrefixOfDigits(ds: seq<byte>)
    requires forall i :: 0 <= i < |ds| ==> IsDigit(ds[i])
    ensures DigitPrefix(ds) == ds
  {
    var p := DigitPrefix(ds);
    if |p| < |ds| {
      assert false;
    }
  }

  /** Rendering a number in decimal and reading it back with atoi gives the number. */
  lemma AtoiOfNatToString(n: nat, lo: int, hi: int)
    requires lo <= n <= hi
    ensures Atoi(AsciiBytes(NatToString(n)), lo, hi) == Some(n)
  {
    DecimalValueOfString(n);
    var bs := AsciiBytes(NatToString(n));
    assert IsDigit(bs[0]);
    assert bs[0..] == bs;
    DigitPrefixOfDigits(bs);
  }

  predicate AllDigits(s: string)
  {
    forall i :: 0 <= i < |s| ==> '0' <= s[i] <= '9'
  }

  /** The value of a run of decimal digit characters. */
  function DigitsValue(s: string): nat
    requires AllDigits(s)
  {
    if s == [] then 0 else DigitsValue(s[..|s| - 1]) * 10 + (s[|s| - 1] as int - '0' as int)
  }

  /**
   * `str::parse::<u64>`: an optional `+`, then one or more digits and nothing
   * else (no sign `-`, no spaces), with a value that fits in 64 bits.
   */
  function ParseU64(s: string): (r: Option<int>)
    ensures r.Some? ==> 0 <= r.value <= U64_MAX
    ensures r.Some? ==> s != [] && (s[0] == '+' || '0' <= s[0] <= '9')
  {
    var d := if |s| > 0 && s[0] == '+' then s[1..] else s;
    if d != [] && AllDigits(d) && DigitsValue(d) <= U64_MAX then Some(DigitsValue(d)) else None
  }

  lemma {:induction false} DigitsValueOfNatToString(n: nat)
    ensures AllDigits(NatToString(n)) && DigitsValue(NatToString(n)) == n
  {
    if n >= 10 {
      DigitsValueOfNatToString(n / 10);
      var s := NatToString(n);
      assert s[..|s| - 1] == NatToString(n / 10);
    }
  }

  /** A numeral as `to_string` writes it: digits only, no leading zero except in "0". */
  predicate IsNumeral(s: string)
  {
    |s| >= 1 && AllDigits(s) && (s[0] == '0' ==> |s| == 1)
  }

  lemma {:induction false} LeadingDigitPositive(s: string)
    requires |s| >= 1 && AllDigits(s) && s[0] != '0'
    ensures DigitsValue(s) >= 1
    decreases |s|
  {
    if |s| > 1 {
      LeadingDigitPositive(s[..|s| - 1]);
    }
  }

  /** `to_string` writes a numeral, and its digits are worth the number. */
  lemma {:induction false} NatToStringIsNumeral(n: nat)
    ensures IsNumeral(NatToString(n)) && DigitsValue(NatToString(n)) == n
  {
    DigitsValueOfNatToString(n);
    if n >= 10 {
      NatToStringIsNumeral(n / 10);
      assert NatToString(n)[0] == NatToString(n / 10)[0];
    }
  }

  /** Every numeral is what `to_string` writes for its value. */
  lemma {:induction false} NumeralIsNatToString(s: string)
    requires IsNumeral(s)
    ensures NatToString(DigitsValue(s)) == s
    decreases |s|
  {
    if |s| > 1 {
      var front := s[..|s| - 1];
      assert front[0] == s[0];
      NumeralIsNatToString(front);
      LeadingDigitPositive(front);
      var v := DigitsValue(s);
      assert v / 10 == DigitsValue(front) && v % 10 == s[|s| - 1] as int - '0' as int;
      assert s == front + [s[|s| - 1]];
    } else {
      assert NatToString(DigitsValue(s)) == [s[0]];
    }
  }

  /** A number written in decimal parses back to itself. */
  lemma ParseU64OfNatToString(n: nat)
    requires n <= U64_MAX
    ensures ParseU64(NatToString(n)) == Some(n)
  {
    DigitsValueOfNatToString(n);
  }

  // Integer ranges of the Rust types the readers parse into.
  const U8_MAX: int := 0xff
  const U16_MAX: int := 0xffff
  const U64_MAX: int := 0xffff_ffff_ffff_ffff
  const I64_MIN: int := -0x8000_0000_0000_0000
  const I64_MAX: int := 0x7fff_ffff_ffff_ffff
}

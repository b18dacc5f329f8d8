/** String helpers of the Rust standard library that the core relies on: `str::trim`, decimal
    `to_string` of integers, ASCII lower-casing, and the UTF-8 bytes of a string (`as_bytes`). */
module Text {
  import opened Ints

  // ---------------------------------------------------------------------------------------------
  // `str::trim`
  // ---------------------------------------------------------------------------------------------

  /** `char::is_whitespace`: the Unicode White_Space property. */
  predicate IsWhitespace(c: char) {
    || ('\t' <= c <= '\r')
    || c == ' ' || c == '\U{85}' || c == '\U{A0}' || c == '\U{1680}'
    || ('\U{2000}' <= c <= '\U{200A}')
    || c == '\U{2028}' || c == '\U{2029}' || c == '\U{202F}' || c == '\U{205F}' || c == '\U{3000}'
  }

  predicate AllWhitespace(s: string) {
    forall i :: 0 <= i < |s| ==> IsWhitespace(s[i])
  }

  /** No whitespace at either end: what `trim` produces. */
  predicate IsTrimmed(s: string) {
    s != [] ==> !IsWhitespace(s[0]) && !IsWhitespace(s[|s| - 1])
  }

  /** `trim_start`: drops the leading whitespace and keeps the rest. */
  function TrimStart(s: string): (r: string)
    ensures |r| <= |s| && r == s[|s| - |r|..]
    ensures AllWhitespace(s[..|s| - |r|])
    ensures r != [] ==> !IsWhitespace(r[0])
  {
    if s != [] && IsWhitespace(s[0]) then TrimStart(s[1..]) else s
  }

  /** `trim_end`: drops the trailing whitespace and keeps the rest. */
  function TrimEnd(s: string): (r: string)
    ensures |r| <= |s| && r == s[..|r|]
    ensures AllWhitespace(s[|r|..])
    ensures r != [] ==> !IsWhitespace(r[|r| - 1])
  {
    if s != [] && IsWhitespace(s[|s| - 1]) then
      var r := TrimEnd(s[..|s| - 1]);
      assert s[|r|..] == s[..|s| - 1][|r|..] + [s[|s| - 1]];
      r
    else s
  }

  /** `trim`: the input with its leading and trailing whitespace removed. */
  function Trim(s: string): (r: string)
    ensures IsTrimmed(r)
    ensures r == [] <==> AllWhitespace(s)
    ensures |r| <= |s|
  {
    var a := TrimStart(s);
    TrimEmptyOnlyIfBlank(s);
    TrimEnd(a)
  }

  lemma TrimEmptyOnlyIfBlank(s: string)
    ensures TrimEnd(TrimStart(s)) == [] <==> AllWhitespace(s)
  {
    var a := TrimStart(s);
    var k := |s| - |a|;
    assert a[0..] == a;
    assert s[..|s|] == s;
    if a != [] { assert a[0] == s[k]; }
  }

  /** The trimmed string is the piece of the input between its leading and trailing whitespace. */
  lemma TrimIsInfix(s: string)
    ensures var k := |s| - |TrimStart(s)|;
      k + |Trim(s)| <= |s| && Trim(s) == s[k..k + |Trim(s)|]
  {
    var a := TrimStart(s);
    var k := |s| - |a|;
    var r := TrimEnd(a);
    assert Trim(s) == r;
    SuffixSlices(s, k, |r|);
  }

  /** What `trim` drops on either side is whitespace. */
  lemma TrimDropsWhitespace(s: string)
    ensures var k := |s| - |TrimStart(s)|;
      k + |Trim(s)| <= |s| && AllWhitespace(s[..k]) && AllWhitespace(s[k + |Trim(s)|..])
  {
    var a := TrimStart(s);
    var k := |s| - |a|;
    var r := TrimEnd(a);
    assert Trim(s) == r;
    SuffixSlices(s, k, |r|);
  }

  lemma SuffixSlices(s: string, k: nat, j: nat)
    requires k + j <= |s|
    ensures s[k..][..j] == s[k..k + j] && s[k..][j..] == s[k + j..]
  {
  }

  /** A string without surrounding whitespace is left as it is, so `trim` is idempotent. */
  lemma {:induction false} TrimOfTrimmed(s: string)
    requires IsTrimmed(s)
    ensures Trim(s) == s
  {
    assert TrimStart(s) == s;
    assert TrimEnd(s) == s;
  }

  lemma TrimIdempotent(s: string)
    ensures Trim(Trim(s)) == Trim(s)
  {
    TrimOfTrimmed(Trim(s));
  }

  // ---------------------------------------------------------------------------------------------
  // Decimal rendering (`to_string` on integers)
  // ---------------------------------------------------------------------------------------------

  predicate IsDigit(c: char) {
    '0' <= c <= '9'
  }

  predicate AllDigits(s: string) {
    forall i :: 0 <= i < |s| ==> IsDigit(s[i])
  }

  function DigitChar(d: nat): (c: char)
    requires d < 10
    ensures IsDigit(c) && c as int - '0' as int == d
  {
    ('0' as int + d) as char
  }

  /** The decimal digits of `n`, without leading zeros. */
  function NatToDecimal(n: nat): (r: string)
    ensures |r| >= 1 && AllDigits(r)
    ensures |r| > 1 ==> r[0] != '0'
  {
    if n < 10 then [DigitChar(n)] else NatToDecimal(n / 10) + [DigitChar(n % 10)]
  }

  /** The value of a string of decimal digits (the inverse of NatToDecimal). */
  function DecimalValue(s: string): nat
    requires AllDigits(s)
  {
    if s == [] then 0 else DecimalValue(s[..|s| - 1]) * 10 + (s[|s| - 1] as int - '0' as int)
  }

  lemma {:induction false} NatDecimalRoundTrip(n: nat)
    ensures DecimalValue(NatToDecimal(n)) == n
  {
    if n >= 10 {
      var r := NatToDecimal(n);
      assert r[..|r| - 1] == NatToDecimal(n / 10);
      NatDecimalRoundTrip(n / 10);
    }
  }

  /** `i32::to_string` and friends: a minus sign for negative values, then the digits. */
  function IntToDecimal(n: int): (r: string)
  {
    if n < 0 then "-" + NatToDecimal(-n) else NatToDecimal(n)
  }

  /** Reading a rendered integer back. */
  function ParseInt(s: string): int
    requires s != [] && (s[0] == '-' ==> |s| > 1 && AllDigits(s[1..])) && (s[0] != '-' ==> AllDigits(s))
  {
    if s[0] == '-' then -(DecimalValue(s[1..]) as int) else DecimalValue(s)
  }

  /** Rendering an integer in decimal loses nothing: it reads back as the same integer. */
  lemma IntDecimalRoundTrip(n: int)
    ensures var r := IntToDecimal(n);
      r != [] && (r[0] == '-' ==> |r| > 1 && AllDigits(r[1..])) && (r[0] != '-' ==> AllDigits(r))
      && ParseInt(r) == n
  {
    if n < 0 {
      var r := IntToDecimal(n);
      assert r[1..] == NatToDecimal(-n);
      NatDecimalRoundTrip(-n);
    } else {
      NatDecimalRoundTrip(n);
    }
  }

  /** Distinct integers render to distinct strings. */
  lemma IntDecimalInjective(a: int, b: int)
    ensures IntToDecimal(a) == IntToDecimal(b) ==> a == b
  {
    IntDecimalRoundTrip(a);
    IntDecimalRoundTrip(b);
  }

  // ---------------------------------------------------------------------------------------------
  // Error messages of the form "<title>: <text>"
  // ---------------------------------------------------------------------------------------------

  function Titled(title: string, text: string): string {
    title + ": " + text
  }

  /** Position of the first colon, or the length when there is none. */
  function FirstColon(s: string): nat {
    if s == [] || s[0] == ':' then 0 else 1 + FirstColon(s[1..])
  }

  lemma {:induction false} FirstColonOfTitled(t: string, x: string)
    requires forall i :: 0 <= i < |t| ==> t[i] != ':'
    ensures FirstColon(Titled(t, x)) == |t|
  {
    if t != [] {
      assert Titled(t, x)[1..] == Titled(t[1..], x);
      FirstColonOfTitled(t[1..], x);
    }
  }

  /** With colon-free titles, a message determines both its title and its text. */
  lemma TitledInjective(t1: string, x1: string, t2: string, x2: string)
    requires forall i :: 0 <= i < |t1| ==> t1[i] != ':'
    requires forall i :: 0 <= i < |t2| ==> t2[i] != ':'
    ensures Titled(t1, x1) == Titled(t2, x2) ==> t1 == t2 && x1 == x2
  {
    var m1, m2 := Titled(t1, x1), Titled(t2, x2);
    FirstColonOfTitled(t1, x1);
    FirstColonOfTitled(t2, x2);
    assert t1 == m1[..|t1|] && x1 == m1[|t1| + 2..];
    assert t2 == m2[..|t2|] && x2 == m2[|t2| + 2..];
  }

  // ---------------------------------------------------------------------------------------------
  // Lower-casing
  // ---------------------------------------------------------------------------------------------

  function LowerChar(c: char): char {
    if 'A' <= c <= 'Z' then (c as int + 32) as char else c
  }

  /** `to_lowercase`, on the ASCII letters. */
  function ToLower(s: string): (r: string)
    ensures |r| == |s|
    ensures forall i :: 0 <= i < |s| ==> r[i] == LowerChar(s[i])
  {
    if s == [] then [] else [LowerChar(s[0])] + ToLower(s[1..])
  }

  predicate HasNoUpper(s: string) {
    forall i :: 0 <= i < |s| ==> !('A' <= s[i] <= 'Z')
  }

  /** Lowercasing leaves no upper-case letter and changes nothing in a string without one, so it is
      idempotent. */
  lemma ToLowerFixesLower(s: string)
    ensures HasNoUpper(ToLower(s))
    ensures HasNoUpper(s) ==> ToLower(s) == s
  {
  }

  // ---------------------------------------------------------------------------------------------
  // UTF-8 (`str::as_bytes`, byte offsets of `&s[..n]`)
  // ---------------------------------------------------------------------------------------------

  /** Number of bytes the UTF-8 encoding of `c` takes. */
  function CharWidth(c: char): nat {
    if c as int < 0x80 then 1 else if c as int < 0x800 then 2 else if c as int < 0x1_0000 then 3 else 4
  }

  function EncodeChar(c: char): (r: seq<byte>)
    ensures |r| == CharWidth(c)
  {
    var n := c as int;
    if n < 0x80 then [n as byte]
    else if n < 0x800 then [(0xC0 + n / 0x40) as byte, (0x80 + n % 0x40) as byte]
    else if n < 0x1_0000 then
      [(0xE0 + n / 0x1000) as byte, (0x80 + (n / 0x40) % 0x40) as byte, (0x80 + n % 0x40) as byte]
    else
      [(0xF0 + n / 0x4_0000) as byte, (0x80 + (n / 0x1000) % 0x40) as byte,
       (0x80 + (n / 0x40) % 0x40) as byte, (0x80 + n % 0x40) as byte]
  }

  /** The UTF-8 bytes of a string. */
  function Utf8(s: string): (r: seq<byte>)
    ensures |r| == ByteLength(s)
  {
    if s == [] then [] else EncodeChar(s[0]) + Utf8(s[1..])
  }

  /** The width a lead byte announces: `0xxxxxxx` one byte, `110xxxxx` two, `1110xxxx` three, and
      `11110xxx` four. */
  function LeadWidth(b: byte): nat {
    if b < 0x80 then 1 else if b < 0xE0 then 2 else if b < 0xF0 then 3 else 4
  }

  /** The code point a well-formed encoding of one character spells. */
  function DecodeChar(bs: seq<byte>): int
    requires 1 <= |bs| <= 4
  {
    if |bs| == 1 then bs[0] as int
    else if |bs| == 2 then (bs[0] as int - 0xC0) * 0x40 + (bs[1] as int - 0x80)
    else if |bs| == 3 then (bs[0] as int - 0xE0) * 0x1000 + (bs[1] as int - 0x80) * 0x40 + (bs[2] as int - 0x80)
    else (bs[0] as int - 0xF0) * 0x4_0000 + (bs[1] as int - 0x80) * 0x1000 + (bs[2] as int - 0x80) * 0x40
         + (bs[3] as int - 0x80)
  }

  /** The lead byte of a character's encoding announces its width, and the bytes decode back to it. */
  lemma EncodeCharRoundTrip(c: char)
    ensures LeadWidth(EncodeChar(c)[0]) == CharWidth(c)
    ensures DecodeChar(EncodeChar(c)) == c as int
  {
    var n := c as int;
    if n < 0x80 {
    } else if n < 0x800 {
      assert n == (n / 0x40) * 0x40 + n % 0x40;
    } else if n < 0x1_0000 {
      assert n / 0x40 == (n / 0x1000) * 0x40 + (n / 0x40) % 0x40;
      assert n == (n / 0x40) * 0x40 + n % 0x40;
    } else {
      assert n / 0x1000 == (n / 0x4_0000) * 0x40 + (n / 0x1000) % 0x40;
      assert n / 0x40 == (n / 0x1000) * 0x40 + (n / 0x40) % 0x40;
      assert n == (n / 0x40) * 0x40 + n % 0x40;
    }
  }

  /** Distinct strings have distinct UTF-8 bytes, so hashing the bytes of a URL loses nothing
      before the hash itself. */
  lemma {:induction false} Utf8Injective(s: string, t: string)
    ensures Utf8(s) == Utf8(t) ==> s == t
  {
    if Utf8(s) == Utf8(t) && s != [] && t != [] {
      var w := CharWidth(s[0]);
      EncodeCharRoundTrip(s[0]);
      EncodeCharRoundTrip(t[0]);
      assert Utf8(s)[0] == EncodeChar(s[0])[0] && Utf8(t)[0] == EncodeChar(t[0])[0];
      assert CharWidth(t[0]) == w;
      assert EncodeChar(s[0]) == Utf8(s)[..w] == Utf8(t)[..w] == EncodeChar(t[0]);
      assert s[0] == t[0];
      assert Utf8(s[1..]) == Utf8(s)[w..] == Utf8(t)[w..] == Utf8(t[1..]);
      Utf8Injective(s[1..], t[1..]);
      assert s == [s[0]] + s[1..] && t == [t[0]] + t[1..];
    }
  }

  function ByteLength(s: string): nat {
    if s == [] then 0 else CharWidth(s[0]) + ByteLength(s[1..])
  }

  /** `s.is_char_boundary(n)`: byte offset `n` falls between two characters (or at either end). */
  predicate IsCharBoundary(s: string, n: nat) {
    if n == 0 then true
    else if s == [] then false
    else n >= CharWidth(s[0]) && IsCharBoundary(s[1..], n - CharWidth(s[0]))
  }

  /** A boundary never lies beyond the end of the string. */
  lemma {:induction false} BoundaryWithinLength(s: string, n: nat)
    requires IsCharBoundary(s, n)
    ensures n <= ByteLength(s)
  {
    if n > 0 { BoundaryWithinLength(s[1..], n - CharWidth(s[0])); }
  }

  lemma BoundaryImpliesLength(s: string, n: nat)
    ensures IsCharBoundary(s, n) ==> n <= ByteLength(s)
  {
    if IsCharBoundary(s, n) { BoundaryWithinLength(s, n); }
  }

  /** In an ASCII string every byte offset up to its length is a boundary. */
  lemma {:induction false} AsciiBoundary(s: string, n: nat)
    requires forall i :: 0 <= i < |s| ==> s[i] as int < 0x80
    requires n <= |s|
    ensures IsCharBoundary(s, n)
  {
    if n > 0 { AsciiBoundary(s[1..], n - 1); }
  }
}

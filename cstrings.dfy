/**
 * The few C library services the core relies on, stated on Dafny strings:
 * `tolower`, `strcasecmp`, `strncasecmp`, the `%d` and `%04x` conversions of
 * `printf`, a run of blanks (`memset(buf, ' ', n)`) and `strcpy`. A character stands
 * for one byte of a C string; only the ASCII letters are case-folded, as in
 * the "C" locale.
 */
module CStrings {

  datatype Option<T> = None | Some(value: T)

  /** The contents of a NUL-terminated C string: it holds no NUL itself. A
      NULL pointer is `None` of an `Option<CString>`. */
  type CString = s: string | forall i :: 0 <= i < |s| ==> s[i] != '\0'

  /** `tolower` in the "C" locale. */
  function ToLower(c: char): char {
    if 'A' <= c <= 'Z' then (c as int + 32) as char else c
  }

  function Lower(s: string): (r: string)
    ensures |r| == |s|
    ensures forall i :: 0 <= i < |s| ==> r[i] == ToLower(s[i])
  {
    if s == [] then [] else [ToLower(s[0])] + Lower(s[1..])
  }

  /** `strcasecmp(a, b) == 0`. */
  predicate EqualIgnoreCase(a: string, b: string) {
    |a| == |b| && forall i :: 0 <= i < |a| ==> ToLower(a[i]) == ToLower(b[i])
  }

  /** `strncasecmp(prefix, s, strlen(prefix)) == 0`: `s` begins with `prefix`,
      ignoring case (a shorter `s` differs at its terminator). */
  predicate StartsWithIgnoreCase(s: string, prefix: string) {
    |prefix| <= |s| && forall i :: 0 <= i < |prefix| ==> ToLower(prefix[i]) == ToLower(s[i])
  }

  /** Case-insensitive equality is equality of the lower-cased strings. */
  lemma EqualIgnoreCaseIsLowerEquality(a: string, b: string)
    ensures EqualIgnoreCase(a, b) <==> Lower(a) == Lower(b)
  {
    if Lower(a) == Lower(b) {
      assert |a| == |b|;
      forall i | 0 <= i < |a| ensures ToLower(a[i]) == ToLower(b[i]) {
        assert Lower(a)[i] == Lower(b)[i];
      }
    }
    if EqualIgnoreCase(a, b) {
      assert Lower(a) == Lower(b);
    }
  }

  // ---------------------------------------------------------------- %d

  predicate IsDigit(c: char) {
    '0' <= c <= '9'
  }

  predicate AllDigits(s: string) {
    forall i :: 0 <= i < |s| ==> IsDigit(s[i])
  }

  function DigitChar(d: nat): char
    requires d < 10
  {
    ('0' as int + d) as char
  }

  /** `printf("%d", n)` for a non-negative `n`: its decimal digits, most
      significant first, without leading zeros. */
  function NatToDecimal(n: nat): (s: string)
    ensures 1 <= |s| && AllDigits(s)
    ensures |s| > 1 ==> s[0] != '0'
    decreases n
  {
    if n < 10 then [DigitChar(n)] else NatToDecimal(n / 10) + [DigitChar(n % 10)]
  }

  /** `printf("%d", i)` / `printf("%lld", i)` for any integer. */
  function IntToDecimal(i: int): (s: string)
    ensures 1 <= |s|
  {
    if i < 0 then "-" + NatToDecimal(-i) else NatToDecimal(i)
  }

  /** The value of a string of decimal digits (the reading side of `%d`). */
  function DecimalValue(s: string): nat
    requires AllDigits(s)
  {
    if s == [] then 0 else DecimalValue(s[..|s| - 1]) * 10 + (s[|s| - 1] as int - '0' as int)
  }

  /** Reading back what `%d` printed gives the number printed. */
  lemma {:induction false} DecimalRoundTrip(n: nat)
    ensures DecimalValue(NatToDecimal(n)) == n
    decreases n
  {
    if n >= 10 {
      var s := NatToDecimal(n);
      assert s[..|s| - 1] == NatToDecimal(n / 10);
      DecimalRoundTrip(n / 10);
    }
  }

  /** The reading side of `IntToDecimal`. */
  function IntValue(s: string): Option<int> {
    if |s| >= 2 && s[0] == '-' && AllDigits(s[1..]) then Some(0 - DecimalValue(s[1..]) as int)
    else if |s| >= 1 && AllDigits(s) then Some(DecimalValue(s))
    else None
  }

  /** Signed decimal rendering is invertible, so distinct integers print differently. */
  lemma IntRoundTrip(i: int)
    ensures IntValue(IntToDecimal(i)) == Some(i)
  {
    if i < 0 {
      assert IntToDecimal(i)[1..] == NatToDecimal(-i);
      DecimalRoundTrip(-i);
    } else {
      DecimalRoundTrip(i);
    }
  }

  // ---------------------------------------------------------------- %04x

  predicate IsHexDigit(c: char) {
    '0' <= c <= '9' || 'a' <= c <= 'f'
  }

  function HexChar(d: nat): (c: char)
    requires d < 16
    ensures IsHexDigit(c)
  {
    if d < 10 then ('0' as int + d) as char else ('a' as int + d - 10) as char
  }

  function HexDigitValue(c: char): (d: nat)
    requires IsHexDigit(c)
    ensures d < 16
  {
    if c <= '9' then c as int - '0' as int else c as int - 'a' as int + 10
  }

  lemma HexCharValue(d: nat)
    requires d < 16
    ensures HexDigitValue(HexChar(d)) == d
  {
  }

  /** `printf("%04x", n)` for `n` below 0x10000: exactly four lowercase hex digits. */
  function Hex4(n: nat): (s: string)
    requires n < 0x1_0000
    ensures |s| == 4 && forall i :: 0 <= i < 4 ==> IsHexDigit(s[i])
  {
    [HexChar(n / 0x1000), HexChar(n / 0x100 % 0x10), HexChar(n / 0x10 % 0x10), HexChar(n % 0x10)]
  }

  /** The value of four hex digits. */
  function Hex4Value(s: string): nat
    requires |s| == 4 && forall i :: 0 <= i < 4 ==> IsHexDigit(s[i])
  {
    HexDigitValue(s[0]) * 0x1000 + HexDigitValue(s[1]) * 0x100 + HexDigitValue(s[2]) * 0x10 + HexDigitValue(s[3])
  }

  /** Reading back what `%04x` printed gives the number printed. */
  lemma Hex4RoundTrip(n: nat)
    requires n < 0x1_0000
    ensures Hex4Value(Hex4(n)) == n
  {
    var a, b, c, d := n / 0x1000, n / 0x100 % 0x10, n / 0x10 % 0x10, n % 0x10;
    HexCharValue(a);
    HexCharValue(b);
    HexCharValue(c);
    HexCharValue(d);
    assert n / 0x100 == a * 0x10 + b;
    assert n / 0x10 == (n / 0x100) * 0x10 + c;
    assert n == (n / 0x10) * 0x10 + d;
  }

  // ---------------------------------------------------------------- blanks

  /** `n` blanks, as `memset(buf, ' ', n)` writes them. */
  function Spaces(n: nat): (s: string)
    ensures |s| == n && forall i :: 0 <= i < n ==> s[i] == ' '
  {
    seq(n, _ => ' ')
  }

  // ---------------------------------------------------------------- strcpy

  /** `strcpy(buf + pos, s)`: the characters of `s` and a terminating NUL
      written from index `pos`; nothing before `pos` and nothing after the
      NUL changes. */
  method StrCpy(buf: array<char>, pos: nat, s: string)
    requires pos + |s| < buf.Length
    modifies buf
    ensures buf[..pos] == old(buf[..pos])
    ensures buf[pos..pos + |s|] == s && buf[pos + |s|] == '\0'
    ensures buf[..pos + |s|] == old(buf[..pos]) + s
    ensures buf[pos + |s| + 1..] == old(buf[pos + |s| + 1..])
  {
    var i := 0;
    while i < |s|
      invariant 0 <= i <= |s|
      invariant buf[..pos] == old(buf[..pos])
      invariant buf[pos..pos + i] == s[..i]
      invariant buf[pos + i..] == old(buf[pos + i..])
    {
      buf[pos + i] := s[i];
      i := i + 1;
    }
    buf[pos + |s|] := '\0';
    assert buf[..pos + |s|] == buf[..pos] + buf[pos..pos + |s|];
  }
}

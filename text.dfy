/**
 * String building blocks that the naming and configuration code relies on:
 * decimal rendering of integers (Python's `str(int)`, `f"{n:02d}"`,
 * `f"{n:+}"`), `str.replace` with a one-character pattern, and ASCII
 * lower-casing.
 */
module Text {

  predicate IsDigit(c: char) {
    '0' <= c <= '9'
  }

  predicate AllDigits(s: string) {
    forall i :: 0 <= i < |s| ==> IsDigit(s[i])
  }

  function DigitChar(d: nat): (c: char)
    requires d < 10
    ensures IsDigit(c)
  {
    (d + '0' as int) as char
  }

  function DigitValue(c: char): (d: nat)
    requires IsDigit(c)
    ensures d < 10
  {
    (c as int - '0' as int) as nat
  }

  /** The decimal digits of `n`, most significant first, without leading zeros. */
  function Decimal(n: nat): (r: string)
    ensures |r| >= 1 && AllDigits(r)
    ensures (r[0] == '0') == (n == 0)
  {
    if n < 10 then [DigitChar(n)] else Decimal(n / 10) + [DigitChar(n % 10)]
  }

  /** Reads a string of decimal digits back as a number. */
  function ParseDecimal(s: string): nat
    requires AllDigits(s)
  {
    if s == [] then 0 else ParseDecimal(s[..|s| - 1]) * 10 + DigitValue(s[|s| - 1])
  }

  lemma {:induction false} DecimalRoundTrip(n: nat)
    ensures ParseDecimal(Decimal(n)) == n
  {
    if n >= 10 {
      var s := Decimal(n);
      assert s[..|s| - 1] == Decimal(n / 10);
      DecimalRoundTrip(n / 10);
    }
  }

  function Pow10(k: nat): (r: nat)
    ensures r >= 1
  {
    if k == 0 then 1 else 10 * Pow10(k - 1)
  }

  /** A number below `10^width` has at most `width` digits. */
  lemma {:induction false} DecimalFits(n: nat, width: nat)
    requires 1 <= width && n < Pow10(width)
    ensures |Decimal(n)| <= width
  {
    if n >= 10 {
      DecimalFits(n / 10, width - 1);
    }
  }

  function Zeros(k: nat): (r: string)
    ensures |r| == k && forall i :: 0 <= i < k ==> r[i] == '0'
  {
    if k == 0 then [] else Zeros(k - 1) + "0"
  }

  /**
   * Python's `f"{n:0<width>d}"` for a non-negative `n`: the decimal digits of
   * `n`, left-padded with zeros to at least `width` characters.
   */
  function ZeroPad(n: nat, width: nat): (r: string)
    ensures |r| == if width > |Decimal(n)| then width else |Decimal(n)|
    ensures AllDigits(r)
    ensures r[|r| - |Decimal(n)|..] == Decimal(n)
    ensures forall i :: 0 <= i < |r| - |Decimal(n)| ==> r[i] == '0'
  {
    var digits := Decimal(n);
    if width > |digits| then Zeros(width - |digits|) + digits else digits
  }

  /** Python's `f"{n:+}"`: the decimal digits of `|n|` behind an explicit sign. */
  function SignedIntToString(n: int): (r: string)
    ensures |r| >= 2 && AllDigits(r[1..])
    ensures r[0] == (if n < 0 then '-' else '+')
  {
    (if n < 0 then "-" else "+") + Decimal(if n < 0 then -n else n)
  }

  /** Reads `SignedIntToString` back. */
  function ParseSigned(s: string): int
    requires |s| >= 1 && AllDigits(s[1..])
  {
    var magnitude: int := ParseDecimal(s[1..]);
    if s[0] == '-' then -magnitude else magnitude
  }

  lemma SignedRoundTrip(n: int)
    ensures ParseSigned(SignedIntToString(n)) == n
  {
    var s := SignedIntToString(n);
    assert s[1..] == Decimal(if n < 0 then -n else n);
    DecimalRoundTrip(if n < 0 then -n else n);
  }

  /** Python's `s.replace(c, r)` for a one-character pattern `c`. */
  function ReplaceAll(s: string, c: char, r: string): string
  {
    if s == [] then [] else (if s[0] == c then r else [s[0]]) + ReplaceAll(s[1..], c, r)
  }

  lemma {:induction false} ReplaceAllConcat(a: string, b: string, c: char, r: string)
    ensures ReplaceAll(a + b, c, r) == ReplaceAll(a, c, r) + ReplaceAll(b, c, r)
  {
    if a == [] {
      assert a + b == b;
    } else {
      assert (a + b)[0] == a[0] && (a + b)[1..] == a[1..] + b;
      ReplaceAllConcat(a[1..], b, c, r);
    }
  }

  /** After the replacement the pattern is gone, unless the replacement brings it back. */
  lemma {:induction false} ReplaceAllRemoves(s: string, c: char, r: string)
    requires c !in r
    ensures c !in ReplaceAll(s, c, r)
  {
    if s != [] {
      ReplaceAllRemoves(s[1..], c, r);
    }
  }

  /** Every other character occurs in the result exactly when it occurred before. */
  lemma {:induction false} ReplaceAllKeeps(s: string, c: char, r: string, d: char)
    requires d != c && d !in r
    ensures d in ReplaceAll(s, c, r) <==> d in s
  {
    if s != [] {
      ReplaceAllKeeps(s[1..], c, r, d);
      assert s == [s[0]] + s[1..];
    }
  }

  /** A string without the pattern is returned unchanged. */
  lemma {:induction false} ReplaceAllWithout(s: string, c: char, r: string)
    requires c !in s
    ensures ReplaceAll(s, c, r) == s
  {
    if s != [] {
      ReplaceAllWithout(s[1..], c, r);
      assert s == [s[0]] + s[1..];
    }
  }

  function LowerChar(c: char): char {
    if 'A' <= c <= 'Z' then (c as int - 'A' as int + 'a' as int) as char else c
  }

  /** `str.lower()` restricted to ASCII letters. */
  function AsciiLower(s: string): (r: string)
    ensures |r| == |s|
  {
    if s == [] then [] else [LowerChar(s[0])] + AsciiLower(s[1..])
  }
}

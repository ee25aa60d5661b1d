/** The one numeric format the core's log messages use: `{:08X}` applied to an
    HRESULT reinterpreted as `unsigned int` — eight upper-case hexadecimal
    digits, zero padded. */
module Format {

  import opened Basics

  predicate IsHexDigit(c: char) {
    ('0' <= c <= '9') || ('A' <= c <= 'F')
  }

  function HexDigit(d: nat): (c: char)
    requires d < 16
    ensures IsHexDigit(c)
  {
    if d < 10 then (48 + d) as char else (55 + d) as char
  }

  function DigitValue(c: char): (d: nat)
    requires IsHexDigit(c)
    ensures d < 16
  {
    if c <= '9' then c as int - 48 else c as int - 55
  }

  function Pow16(n: nat): (r: nat)
    ensures r > 0
  {
    if n == 0 then 1 else 16 * Pow16(n - 1)
  }

  /** The lowest `n` hexadecimal digits of `x`, most significant first. */
  function HexDigits(x: nat, n: nat): (r: string)
    ensures |r| == n
    ensures forall i :: 0 <= i < |r| ==> IsHexDigit(r[i])
  {
    if n == 0 then "" else HexDigits(x / 16, n - 1) + [HexDigit(x % 16)]
  }

  /** `std::format("{:08X}", x)` for a 32-bit unsigned `x`. */
  function Hex8(x: u32): (r: string)
    ensures |r| == 8
    ensures forall i :: 0 <= i < |r| ==> IsHexDigit(r[i])
  {
    HexDigits(x, 8)
  }

  /** Reads a string of hexadecimal digits back as a number. */
  function ParseHex(s: string): nat
    requires forall i :: 0 <= i < |s| ==> IsHexDigit(s[i])
  {
    if s == [] then 0 else 16 * ParseHex(s[..|s| - 1]) + DigitValue(s[|s| - 1])
  }

  lemma DigitRoundTrip(d: nat)
    requires d < 16
    ensures DigitValue(HexDigit(d)) == d
  {
  }

  /** Division by 16 then by `p` splits `x` into its residue modulo `16 * p`. */
  lemma ModSplit(x: nat, p: nat)
    requires p > 0
    ensures 16 * ((x / 16) % p) + x % 16 == x % (16 * p)
  {
    var q := x / 16;
    var a := q / p;
    var b := q % p;
    assert q == p * a + b;
    assert x == 16 * q + x % 16;
    assert x == (16 * p) * a + (16 * b + x % 16);
    assert 0 <= 16 * b + x % 16 < 16 * p;
    ModUnique(x, 16 * p, a, 16 * b + x % 16);
  }

  lemma ModUnique(x: int, m: int, k: int, s: int)
    requires m > 0 && 0 <= s < m && x == m * k + s
    ensures x % m == s
  {
    var k' := x / m;
    var s' := x % m;
    assert x == m * k' + s';
    if k' != k {
      var d := k - k';
      assert m * k - m * k' == m * d by { MulSub(m, k, k'); }
      assert m * d == s' - s;
      if d >= 1 {
        MulAtLeast(m, d);
      } else {
        MulAtLeast(m, -d);
      }
    }
  }

  lemma MulSub(m: int, a: int, b: int)
    ensures m * a - m * b == m * (a - b)
  {
  }

  lemma MulAtLeast(m: int, d: int)
    requires m > 0 && d >= 1
    ensures m * d >= m
  {
  }

  /** Formatting then parsing `n` digits recovers `x` modulo 16^n. */
  lemma {:induction false} HexDigitsRoundTrip(x: nat, n: nat)
    ensures ParseHex(HexDigits(x, n)) == x % Pow16(n)
  {
    if n > 0 {
      var s := HexDigits(x, n);
      assert s[..|s| - 1] == HexDigits(x / 16, n - 1);
      HexDigitsRoundTrip(x / 16, n - 1);
      DigitRoundTrip(x % 16);
      ModSplit(x, Pow16(n - 1));
    }
  }

  /** The `{:08X}` rendering of a 32-bit value is lossless. */
  lemma Hex8RoundTrip(x: u32)
    ensures ParseHex(Hex8(x)) == x
  {
    HexDigitsRoundTrip(x, 8);
    assert Pow16(8) == U32_LIMIT;
  }
}

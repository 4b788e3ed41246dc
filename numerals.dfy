/** Decimal text of numbers: Python's `str(int)`, `int(...)`, `float(...)` on the strings the
    scripts' patterns capture, and the format specs `{:3d}`, `{:04d}` and `{:.3f}`. */
module Numerals {
  import opened Text

  function DigitChar(d: nat): (c: char)
    requires d < 10
    ensures IsDigit(c)
  {
    ('0' as int + d) as char
  }

  function DigitValue(c: char): (d: nat)
    requires IsDigit(c)
    ensures d < 10
  {
    c as int - '0' as int
  }

  predicate AllDigits(s: string) {
    forall i | 0 <= i < |s| :: IsDigit(s[i])
  }

  /** `str(n)` for a natural number: decimal digits without leading zeros. */
  function NatToString(n: nat): (s: string)
    ensures |s| >= 1 && AllDigits(s)
    decreases n
  {
    if n < 10 then [DigitChar(n)] else NatToString(n / 10) + [DigitChar(n % 10)]
  }

  /** `int(s)` for a string of digits; leading zeros are allowed. */
  function DigitsValue(s: string): nat
    requires AllDigits(s)
  {
    if s == [] then 0 else DigitsValue(s[..|s| - 1]) * 10 + DigitValue(s[|s| - 1])
  }

  lemma {:induction false} NatToStringValue(n: nat)
    ensures DigitsValue(NatToString(n)) == n
    decreases n
  {
    if n >= 10 {
      NatToStringValue(n / 10);
      var s := NatToString(n);
      assert s[..|s| - 1] == NatToString(n / 10);
    }
  }

  /** What `-?\d+` matches: an optional minus sign and at least one digit. */
  predicate IsIntLiteral(s: string) {
    |s| >= 1 && (if s[0] == '-' then |s| >= 2 && AllDigits(s[1..]) else AllDigits(s))
  }

  /** `int(s)` for what `-?\d+` matches; it never fails. */
  function IntValue(s: string): int
    requires IsIntLiteral(s)
  {
    if s[0] == '-' then 0 - DigitsValue(s[1..]) as int else DigitsValue(s)
  }

  /** `str(i)`, which is also what `{i}` prints in an f-string. */
  function IntToString(i: int): (s: string)
    ensures IsIntLiteral(s)
    ensures i >= 0 ==> AllDigits(s)
  {
    if i < 0 then "-" + NatToString(-i) else NatToString(i)
  }

  /** Printing an int and reading it back with `int()` gives the int. */
  lemma {:induction false} IntToStringValue(i: int)
    ensures IntValue(IntToString(i)) == i
  {
    if i < 0 {
      assert IntToString(i)[1..] == NatToString(-i);
      NatToStringValue(-i);
    } else {
      NatToStringValue(i);
    }
  }

  /** What `[\d.]+` matches. */
  predicate IsDecimalRun(s: string) {
    |s| >= 1 && forall i | 0 <= i < |s| :: IsDigit(s[i]) || s[i] == '.'
  }

  /** Whether `float(s)` succeeds on a match of `[\d.]+`: at most one point and at least
      one digit (`float(".")` and `float("1.2.3")` raise ValueError). */
  predicate FloatConvertible(s: string) {
    && IsDecimalRun(s)
    && (forall i, j | 0 <= i < j < |s| :: !(s[i] == '.' && s[j] == '.'))
    && (exists i | 0 <= i < |s| :: IsDigit(s[i]))
  }

  function Pow10(n: nat): (p: nat)
    ensures p >= 1
  {
    if n == 0 then 1 else 10 * Pow10(n - 1)
  }

  /** The position of the first `c` in `s`. */
  function IndexOf(s: string, c: char): (k: nat)
    requires c in s
    ensures k < |s| && s[k] == c && c !in s[..k]
  {
    if s[0] == c then 0 else 1 + IndexOf(s[1..], c)
  }

  /** The value `float(s)` denotes, as an exact rational number. */
  function DecimalValue(s: string): real
    requires FloatConvertible(s)
  {
    if '.' in s then
      var k := IndexOf(s, '.');
      assert AllDigits(s[k + 1..]) by {
        forall i | k + 1 <= i < |s| ensures IsDigit(s[i]) {
          assert s[i] != '.';
        }
      }
      DigitsValue(s[..k]) as real + DigitsValue(s[k + 1..]) as real / Pow10(|s| - k - 1) as real
    else
      DigitsValue(s) as real
  }

  /** Rounding to the nearest integer, ties to even: how `format` rounds the last digit. */
  function RoundHalfEven(y: real): (r: int)
    ensures y - 0.5 <= r as real <= y + 0.5
  {
    var f := y.Floor;
    var d := y - f as real;
    if d < 0.5 then f else if d > 0.5 then f + 1 else if f % 2 == 0 then f else f + 1
  }

  /** The number of thousandths `{x:.3f}` prints for a non-negative `x`. */
  function Thousandths(x: real): (k: nat)
    requires x >= 0.0
    ensures x * 1000.0 - 0.5 <= k as real <= x * 1000.0 + 0.5
  {
    RoundHalfEven(x * 1000.0)
  }

  function ThreeDigits(r: nat): (s: string)
    requires r < 1000
    ensures |s| == 3 && AllDigits(s)
  {
    [DigitChar(r / 100), DigitChar(r / 10 % 10), DigitChar(r % 10)]
  }

  /** `f"{x:.3f}"`: a minus sign for a negative `x`, then the rounded magnitude. */
  function Fixed3(x: real): (s: string)
    ensures x >= 0.0 ==> FloatConvertible(s) && s == Fixed3Magnitude(x)
    ensures forall i | 0 <= i < |s| :: IsDigit(s[i]) || s[i] == '.' || s[i] == '-'
  {
    if x < 0.0 then "-" + Fixed3Magnitude(-x) else Fixed3Magnitude(x)
  }

  /** `f"{x:.3f}"` for a non-negative `x`. */
  function Fixed3Magnitude(x: real): (s: string)
    requires x >= 0.0
    ensures FloatConvertible(s)
    ensures |s| >= 5 && s[|s| - 4] == '.' && AllDigits(s[..|s| - 4]) && AllDigits(s[|s| - 3..])
  {
    var k := Thousandths(x);
    var s := NatToString(k / 1000) + "." + ThreeDigits(k % 1000);
    assert FloatConvertible(s) by {
      var n := |NatToString(k / 1000)|;
      assert s[n] == '.' && IsDigit(s[0]);
      forall i, j | 0 <= i < j < |s| ensures !(s[i] == '.' && s[j] == '.') {
        assert i != n ==> IsDigit(s[i]);
        assert j != n ==> IsDigit(s[j]);
      }
    }
    assert s[..|s| - 4] == NatToString(k / 1000);
    assert s[|s| - 3..] == ThreeDigits(k % 1000);
    s
  }

  lemma {:induction false} ThreeDigitsValue(r: nat)
    requires r < 1000
    ensures DigitsValue(ThreeDigits(r)) == r
  {
    var s := ThreeDigits(r);
    var d0, d1, d2 := r / 100, r / 10 % 10, r % 10;
    assert DigitsValue(s[..1]) == d0 by {
      assert s[..1][..0] == [];
    }
    assert DigitsValue(s[..2]) == d0 * 10 + d1 by {
      assert s[..2][..1] == s[..1];
    }
    assert s[..|s| - 1] == s[..2];
    assert DigitsValue(s) == (d0 * 10 + d1) * 10 + d2;
    assert r == d0 * 100 + d1 * 10 + d2;
  }

  /** Reading back what `{x:.3f}` printed gives `x` rounded to thousandths, not `x`. */
  lemma {:induction false} Fixed3Value(x: real)
    requires x >= 0.0
    ensures DecimalValue(Fixed3(x)) == Thousandths(x) as real / 1000.0
  {
    var k := Thousandths(x);
    var a := NatToString(k / 1000);
    var b := ThreeDigits(k % 1000);
    var s := a + "." + b;
    assert s == Fixed3Magnitude(x);
    assert '.' in s by { assert s[|a|] == '.'; }
    var i := IndexOf(s, '.');
    assert s[..|a|] == a;
    assert i == |a|;
    assert s[..i] == a;
    assert s[i + 1..] == b;
    NatToStringValue(k / 1000);
    ThreeDigitsValue(k % 1000);
    assert Pow10(3) == 1000;
    assert DecimalValue(s) == (k / 1000) as real + (k % 1000) as real / 1000.0;
  }

  /** `format(s, ">w")`: right-aligned in a field of width `w`, padded with spaces. */
  function PadLeft(s: string, w: nat): (r: string)
    ensures |r| >= |s| && r[|r| - |s|..] == s
    ensures forall i | 0 <= i < |r| - |s| :: r[i] == ' '
  {
    if |s| >= w then s else seq(w - |s|, _ => ' ') + s
  }

  /** `f"{n:04d}"`: at least four digits, zero-padded on the left. */
  function ZeroPad4(n: nat): (s: string)
    ensures |s| >= 4 && AllDigits(s)
  {
    var d := NatToString(n);
    if |d| >= 4 then d else seq(4 - |d|, _ => '0') + d
  }

  lemma {:induction false} LeadingZerosValue(z: nat, d: string)
    requires AllDigits(d)
    ensures AllDigits(seq(z, _ => '0') + d)
    ensures DigitsValue(seq(z, _ => '0') + d) == DigitsValue(d)
    decreases |d|
  {
    var s := seq(z, _ => '0') + d;
    if d == [] {
      assert s == seq(z, _ => '0');
      ZerosValue(z);
    } else {
      LeadingZerosValue(z, d[..|d| - 1]);
      assert s[..|s| - 1] == seq(z, _ => '0') + d[..|d| - 1];
    }
  }

  lemma {:induction false} ZerosValue(z: nat)
    ensures AllDigits(seq(z, _ => '0')) && DigitsValue(seq(z, _ => '0')) == 0
    decreases z
  {
    if z > 0 {
      ZerosValue(z - 1);
      assert seq(z, _ => '0')[..z - 1] == seq(z - 1, _ => '0');
    }
  }

  /** Distinct counters give distinct zero-padded names. */
  lemma {:induction false} ZeroPad4Injective(m: nat, n: nat)
    requires ZeroPad4(m) == ZeroPad4(n)
    ensures m == n
  {
    ZeroPad4Value(m);
    ZeroPad4Value(n);
  }

  lemma {:induction false} ZeroPad4Value(n: nat)
    ensures DigitsValue(ZeroPad4(n)) == n
  {
    var d := NatToString(n);
    NatToStringValue(n);
    if |d| < 4 {
      LeadingZerosValue(4 - |d|, d);
    }
  }
}

/** The parts of Unity's Mathf that the game relies on, over exact reals. */
module Mathf {

  /** Mathf.PI, the single-precision value of pi, written out exactly. */
  const PI: real := 3.1415927410125732421875

  /** The full turn used to wrap phases, 2 * Mathf.PI. */
  const TwoPI: real := 2.0 * PI

  /** The largest single-precision float, float.MaxValue. */
  const FloatMax: real := 340282346638528859811704183484516925440.0

  function Abs(x: real): (r: real)
    ensures r >= 0.0
    ensures r == x || r == -x
  {
    if x < 0.0 then -x else x
  }

  /** Mathf.Clamp01: values below 0 become 0, values above 1 become 1. */
  function Clamp01(x: real): (r: real)
    ensures 0.0 <= r <= 1.0
    ensures 0.0 <= x <= 1.0 ==> r == x
    ensures x <= 0.0 ==> r == 0.0
    ensures x >= 1.0 ==> r == 1.0
  {
    if x < 0.0 then 0.0 else if x > 1.0 then 1.0 else x
  }

  /** Mathf.Lerp, which clamps its parameter before interpolating. */
  function Lerp(a: real, b: real, t: real): (r: real)
    ensures a <= b ==> a <= r <= b
    ensures b <= a ==> b <= r <= a
    ensures t <= 0.0 ==> r == a
    ensures t >= 1.0 ==> r == b
  {
    ScaleWithinUnit(b - a, Clamp01(t));
    a + Scale(b - a, Clamp01(t))
  }

  /** A distance scaled by a factor in [0, 1]. */
  function Scale(d: real, c: real): real
    requires 0.0 <= c <= 1.0
  {
    d * c
  }

  /** Scaling by a factor in [0, 1] keeps a value between 0 and itself, and the ends are exact. */
  lemma ScaleWithinUnit(d: real, c: real)
    requires 0.0 <= c <= 1.0
    ensures d >= 0.0 ==> 0.0 <= Scale(d, c) <= d
    ensures d <= 0.0 ==> d <= Scale(d, c) <= 0.0
    ensures c == 0.0 ==> Scale(d, c) == 0.0
    ensures c == 1.0 ==> Scale(d, c) == d
  {
    if c == 0.0 {
    } else if c == 1.0 {
    } else {
      assert d - d * c == d * (1.0 - c);
      if d >= 0.0 {
        MulNonNegative(d, 1.0 - c);
        MulNonNegative(d, c);
      } else {
        MulNonNegative(-d, c);
        MulNonNegative(-d, 1.0 - c);
      }
    }
  }

  lemma MulNonNegative(x: real, y: real)
    requires x >= 0.0 && y >= 0.0
    ensures x * y >= 0.0
  {
  }

  /** Mathf.Sign: 1 for zero and for positive values, -1 otherwise. */
  function Sign(x: real): (r: real)
    ensures r == 1.0 || r == -1.0
    ensures r == 1.0 <==> x >= 0.0
  {
    if x >= 0.0 then 1.0 else -1.0
  }

  /** Mathf.Clamp on integers. */
  function ClampInt(v: int, lo: int, hi: int): (r: int)
    requires lo <= hi
    ensures lo <= r <= hi
    ensures lo <= v <= hi ==> r == v
  {
    if v < lo then lo else if v > hi then hi else v
  }

  /** Mathf.Clamp on floats: the lower bound is tested first, so it wins when the bounds cross. */
  function Clamp(v: real, lo: real, hi: real): (r: real)
    ensures lo <= hi ==> lo <= r <= hi
    ensures lo <= v <= hi ==> r == v
    ensures v < lo ==> r == lo
  {
    if v < lo then lo else if v > hi then hi else v
  }

  /** Interpolating from m down to 0 and from 0 up to m with the same parameter always adds up to m. */
  lemma LerpComplement(m: real, t: real)
    ensures Lerp(m, 0.0, t) + Lerp(0.0, m, t) == m
  {
  }

  /** Decimal text of an integer, as C# string interpolation writes it. */
  function IntToString(n: int): (s: string)
    ensures |s| >= 1
    decreases if n < 0 then -n + 1 else n
  {
    if n < 0 then "-" + NatToString(-n)
    else NatToString(n)
  }

  function NatToString(n: nat): (s: string)
    ensures |s| >= 1
    ensures forall k :: 0 <= k < |s| ==> '0' <= s[k] <= '9'
  {
    if n < 10 then [Digit(n)] else NatToString(n / 10) + [Digit(n % 10)]
  }

  function Digit(d: nat): (c: char)
    requires d < 10
    ensures '0' <= c <= '9'
  {
    ['0', '1', '2', '3', '4', '5', '6', '7', '8', '9'][d]
  }
}

// Scalar helpers standing in for the engine's Mathf routines and the C# (int) cast.
// Scalars are modelled as mathematical reals, not IEEE floats.
module Numerics {

  /** Mathf.Clamp(v, lo, hi): below lo gives lo, above hi gives hi, otherwise v. */
  function Clamp(v: real, lo: real, hi: real): (r: real)
    requires lo <= hi
    ensures lo <= r <= hi
    ensures lo <= v <= hi ==> r == v
    ensures v <= lo ==> r == lo
    ensures hi <= v ==> r == hi
  {
    if v < lo then lo else if v > hi then hi else v
  }

  /** Mathf.Min */
  function Min(a: real, b: real): (r: real)
    ensures r <= a && r <= b
    ensures r == a || r == b
  {
    if a < b then a else b
  }

  /** Mathf.Max */
  function Max(a: real, b: real): (r: real)
    ensures a <= r && b <= r
    ensures r == a || r == b
  {
    if a < b then b else a
  }

  /** Mathf.Abs */
  function Abs(a: real): (r: real)
    ensures 0.0 <= r
    ensures r == a || r == -a
  {
    if a < 0.0 then -a else a
  }

  /** Mathf.Pow(a, 2.0), the only power the core takes. */
  function Square(a: real): (r: real)
    ensures 0.0 <= r
    ensures -1.0 <= a <= 1.0 ==> r <= 1.0
  {
    SquareBounds(a);
    a * a
  }

  lemma SquareBounds(a: real)
    ensures 0.0 <= a * a
    ensures -1.0 <= a <= 1.0 ==> a * a <= 1.0
  {
    if a < 0.0 {
      assert a * a == (-a) * (-a);
    }
    if 0.0 <= a <= 1.0 {
      assert a * a <= a * 1.0;
    }
    if -1.0 <= a < 0.0 {
      assert (-a) * (-a) <= (-a) * 1.0;
    }
  }

  /** The C# cast (int)v: truncation toward zero. */
  function Trunc(v: real): (n: int)
    ensures 0.0 <= v ==> n as real <= v < n as real + 1.0
    ensures v < 0.0 ==> n as real - 1.0 < v <= n as real
    ensures 0 <= n ==> -1.0 < v
  {
    if 0.0 <= v then v.Floor else -((-v).Floor)
  }

  /** Clamping a value already clamped to the same range changes nothing. */
  lemma ClampIdempotent(v: real, lo: real, hi: real)
    requires lo <= hi
    ensures Clamp(Clamp(v, lo, hi), lo, hi) == Clamp(v, lo, hi)
  {
  }

  /** Clamping is monotone: the order of two inputs survives. */
  lemma ClampMonotone(v1: real, v2: real, lo: real, hi: real)
    requires lo <= hi
    requires v1 <= v2
    ensures Clamp(v1, lo, hi) <= Clamp(v2, lo, hi)
  {
  }

  /** Clamping to a range that straddles zero keeps the sign of its input, both ways. */
  lemma ClampSign(v: real, lo: real, hi: real)
    requires lo < 0.0 < hi
    ensures Clamp(v, lo, hi) < 0.0 <==> v < 0.0
    ensures Clamp(v, lo, hi) == 0.0 <==> v == 0.0
    ensures Clamp(v, lo, hi) > 0.0 <==> v > 0.0
  {
  }
}

/** Scalar helpers with torch's semantics, over exact reals: rounding (torch.round),
    truncation (Python int() and the int64 cast), clamping (Tensor.clamp) and
    summation (Tensor.sum). */
module Numerics {

  /** torch.round: rounding half to even. */
  function Round(x: real): int
  {
    var f := x.Floor;
    var d := x - f as real;
    if d < 0.5 then f
    else if d > 0.5 then f + 1
    else if f % 2 == 0 then f else f + 1
  }

  /** Round gives an integer nearest to x, a tie going to the even neighbour. */
  lemma RoundIsNearest(x: real)
    ensures -0.5 <= x - Round(x) as real <= 0.5
    ensures x - Round(x) as real == 0.5 || x - Round(x) as real == -0.5 ==> Round(x) % 2 == 0
  {
  }

  /** The postconditions of Round pin it down: no other integer is that close. */
  lemma RoundIsUnique(x: real, n: int)
    requires -0.5 <= x - n as real <= 0.5
    requires x - n as real == 0.5 || x - n as real == -0.5 ==> n % 2 == 0
    ensures Round(x) == n
  {
  }

  /** Python int() of a float and the int64 cast: truncation toward zero. */
  function Trunc(v: real): (r: int)
    ensures 0.0 <= v ==> r as real <= v < r as real + 1.0
    ensures v < 0.0 ==> r as real - 1.0 < v <= r as real
  {
    if v >= 0.0 then v.Floor else -((-v).Floor)
  }

  /** Tensor.clamp on an integer code: min(max(n, lo), hi). When lo > hi every
      value becomes hi, as in torch. */
  function Clamp(n: int, lo: int, hi: int): (r: int)
    ensures lo <= hi ==> lo <= r <= hi
    ensures lo <= hi ==> (r == n <==> lo <= n <= hi)
    ensures lo <= hi && n < lo ==> r == lo
    ensures hi < n ==> r == hi
  {
    var m := if n < lo then lo else n;
    if m > hi then hi else m
  }

  /** Tensor.clamp on a real value: min(max(v, lo), hi). */
  function ClampReal(v: real, lo: real, hi: real): (r: real)
    ensures lo <= hi ==> lo <= r <= hi
    ensures lo <= hi ==> (r == v <==> lo <= v <= hi)
    ensures lo <= hi && v < lo ==> r == lo
    ensures hi < v ==> r == hi
  {
    var m := if v < lo then lo else v;
    if m > hi then hi else m
  }

  /** Tensor.sum over a flat tensor. */
  function Sum(s: seq<real>): real
  {
    if s == [] then 0.0 else s[0] + Sum(s[1..])
  }

  /** A sum of zeros is zero. */
  lemma {:induction false} SumZeros(a: seq<real>)
    requires forall i :: 0 <= i < |a| ==> a[i] == 0.0
    ensures Sum(a) == 0.0
  {
    if a != [] {
      SumZeros(a[1..]);
    }
  }

  /** Integers as reals, element by element (an integral tensor cast to float). */
  function AsReals(z: seq<int>): seq<real>
  {
    seq(|z|, c requires 0 <= c < |z| => z[c] as real)
  }

  /** Every element of s multiplied by f. */
  function Scaled(s: seq<real>, f: real): (r: seq<real>)
    ensures |r| == |s|
  {
    seq(|s|, i requires 0 <= i < |s| => s[i] * f)
  }

  /** Multiplying every element by f multiplies the sum by f. */
  lemma {:induction false} SumScaled(s: seq<real>, f: real)
    ensures Sum(Scaled(s, f)) == Sum(s) * f
  {
    if s != [] {
      var r := Scaled(s, f);
      SumScaled(s[1..], f);
      assert forall i :: 0 <= i < |s| - 1 ==> r[1..][i] == Scaled(s[1..], f)[i];
      assert r[1..] == Scaled(s[1..], f);
      assert Sum(r) == r[0] + Sum(r[1..]);
    }
  }

  /** `t *= f` on a tensor held in a buffer: every element multiplied by f, in place. */
  method MultiplyInPlace(a: array<real>, f: real)
    modifies a
    ensures a[..] == Scaled(old(a[..]), f)
  {
    ghost var before := a[..];
    for i := 0 to a.Length
      invariant forall j :: 0 <= j < i ==> a[j] == before[j] * f
      invariant forall j :: i <= j < a.Length ==> a[j] == before[j]
    {
      a[i] := a[i] * f;
    }
    assert forall j :: 0 <= j < a.Length ==> Scaled(before, f)[j] == before[j] * f;
    assert a[..] == Scaled(before, f);
  }
}

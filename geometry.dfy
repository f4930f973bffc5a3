/** 3-vectors and per-atom vector fields (NumPy arrays of shape (natoms, 3))
    over exact reals. */
module Geometry {

  datatype Vec3 = Vec3(x: real, y: real, z: real)

  const Zero := Vec3(0.0, 0.0, 0.0)

  /** Component `j` (0 = x, 1 = y, 2 = z), NumPy's `v[j]`. */
  function Comp(v: Vec3, j: nat): real
    requires j < 3
  {
    if j == 0 then v.x else if j == 1 then v.y else v.z
  }

  /** The unit-free vector that is `c` in component `j` and zero elsewhere. */
  function Axis(j: nat, c: real): (v: Vec3)
    requires j < 3
    ensures forall m :: 0 <= m < 3 ==> Comp(v, m) == if m == j then c else 0.0
  {
    if j == 0 then Vec3(c, 0.0, 0.0) else if j == 1 then Vec3(0.0, c, 0.0) else Vec3(0.0, 0.0, c)
  }

  function Add(a: Vec3, b: Vec3): Vec3 {
    Vec3(a.x + b.x, a.y + b.y, a.z + b.z)
  }

  function Sub(a: Vec3, b: Vec3): Vec3 {
    Vec3(a.x - b.x, a.y - b.y, a.z - b.z)
  }

  function Scale(c: real, a: Vec3): Vec3 {
    Vec3(c * a.x, c * a.y, c * a.z)
  }

  function Dot(a: Vec3, b: Vec3): real {
    a.x * b.x + a.y * b.y + a.z * b.z
  }

  /** Squared Euclidean length. */
  function Norm2(a: Vec3): real {
    Dot(a, a)
  }

  lemma Norm2NonNegative(a: Vec3)
    ensures Norm2(a) >= 0.0
  {
    assert a.x * a.x >= 0.0 && a.y * a.y >= 0.0 && a.z * a.z >= 0.0;
  }

  /** A per-atom field of 3-vectors (positions or forces). */
  type Field = seq<Vec3>

  function Zeros(n: nat): (f: Field)
    ensures |f| == n && forall i :: 0 <= i < n ==> f[i] == Zero
  {
    seq(n, i => Zero)
  }

  function AddF(a: Field, b: Field): (f: Field)
    requires |a| == |b|
    ensures |f| == |a| && forall i :: 0 <= i < |a| ==> f[i] == Add(a[i], b[i])
  {
    seq(|a|, i requires 0 <= i < |a| => Add(a[i], b[i]))
  }

  function SubF(a: Field, b: Field): (f: Field)
    requires |a| == |b|
    ensures |f| == |a| && forall i :: 0 <= i < |a| ==> f[i] == Sub(a[i], b[i])
  {
    seq(|a|, i requires 0 <= i < |a| => Sub(a[i], b[i]))
  }

  function ScaleF(c: real, a: Field): (f: Field)
    ensures |f| == |a| && forall i :: 0 <= i < |a| ==> f[i] == Scale(c, a[i])
  {
    seq(|a|, i requires 0 <= i < |a| => Scale(c, a[i]))
  }

  /** `np.dot(a.flat, b.flat)`. */
  function DotF(a: Field, b: Field): real
    requires |a| == |b|
  {
    if a == [] then 0.0 else DotF(a[..|a| - 1], b[..|b| - 1]) + Dot(a[|a| - 1], b[|b| - 1])
  }

  /** `np.linalg.norm(a) ** 2`: the squared Frobenius norm. */
  function Norm2F(a: Field): real {
    if a == [] then 0.0 else Norm2F(a[..|a| - 1]) + Norm2(a[|a| - 1])
  }

  lemma {:induction false} Norm2FNonNegative(a: Field)
    ensures Norm2F(a) >= 0.0
  {
    if a != [] {
      Norm2FNonNegative(a[..|a| - 1]);
      Norm2NonNegative(a[|a| - 1]);
    }
  }

  lemma {:induction false} Norm2FOfZeros(n: nat)
    ensures Norm2F(Zeros(n)) == 0.0
  {
    if n > 0 {
      assert Zeros(n)[..n - 1] == Zeros(n - 1);
      Norm2FOfZeros(n - 1);
    }
  }

  lemma AddFZeros(a: Field)
    ensures AddF(Zeros(|a|), a) == a
  {
  }

  lemma AddFAssoc(a: Field, b: Field, c: Field)
    requires |a| == |b| == |c|
    ensures AddF(AddF(a, b), c) == AddF(a, AddF(b, c))
  {
  }

  lemma SubFSelf(a: Field)
    ensures SubF(a, a) == Zeros(|a|)
  {
    assert forall i :: 0 <= i < |a| ==> SubF(a, a)[i] == Zeros(|a|)[i];
  }

  lemma ScaleFByZero(a: Field)
    ensures ScaleF(0.0, a) == Zeros(|a|)
  {
    assert forall i :: 0 <= i < |a| ==> ScaleF(0.0, a)[i] == Zeros(|a|)[i];
  }

  /** Subtracting a scaled field is adding its negation. */
  lemma SubScaledIsAddNegated(a: Field, b: Field, c: real)
    requires |a| == |b|
    ensures SubF(a, ScaleF(c, b)) == AddF(a, ScaleF(-c, b))
  {
    forall i | 0 <= i < |a|
      ensures SubF(a, ScaleF(c, b))[i] == AddF(a, ScaleF(-c, b))[i]
    {
      assert (-c) * b[i].x == -(c * b[i].x);
      assert (-c) * b[i].y == -(c * b[i].y);
      assert (-c) * b[i].z == -(c * b[i].z);
    }
  }
}

/** The vector value types of src/vector.hpp and src/vector.cpp.  The
    source's `f32` components are modelled as `real`, so only facts that do
    not depend on rounding are stated.  `sin`, `cos` and the division by a
    zero component are not modelled: angles enter as their cosine and sine,
    and divisors are required to be non-zero. */
module Vector {

  datatype Vec2 = Vec2(x: real, y: real)
  datatype Vec3 = Vec3(x: real, y: real, z: real)
  datatype Vec4 = Vec4(x: real, y: real, z: real, w: real)

  // ---------------------------------------------------------------------
  // Initializer-list constructors

  /** Entry i of an initializer list after zero padding. */
  function At(list: seq<real>, i: nat): real
  {
    if i < |list| then list[i] else 0.0
  }

  /** The two loops shared by the initializer-list constructors: copy the
      list into `data`, then zero the remaining entries.  A list longer
      than the vector would overrun `data`, so it is a precondition. */
  method InitData(list: seq<real>, n: nat) returns (data: seq<real>)
    requires |list| <= n
    ensures |data| == n
    ensures forall i :: 0 <= i < |list| ==> data[i] == list[i]
    ensures forall i :: |list| <= i < n ==> data[i] == 0.0
  {
    var a := new real[n];
    var i := 0;
    while i < |list|
      invariant 0 <= i <= |list|
      invariant forall k :: 0 <= k < i ==> a[k] == list[k]
    {
      a[i] := list[i];
      i := i + 1;
    }
    while i < n
      invariant |list| <= i <= n
      invariant forall k :: 0 <= k < |list| ==> a[k] == list[k]
      invariant forall k :: |list| <= k < i ==> a[k] == 0.0
    {
      a[i] := 0.0;
      i := i + 1;
    }
    data := a[..];
  }

  /** `Vec2f(std::initializer_list<f32>)`. */
  function Vec2Of(list: seq<real>): (r: Vec2)
    requires |list| <= 2
    ensures |list| == 2 ==> r == Vec2(list[0], list[1])
    ensures |list| < 2 ==> r.y == 0.0
    ensures list == [] ==> r == Vec2(0.0, 0.0)
  {
    Vec2(At(list, 0), At(list, 1))
  }

  /** `Vec3f(std::initializer_list<f32>)`. */
  function Vec3Of(list: seq<real>): (r: Vec3)
    requires |list| <= 3
    ensures |list| == 3 ==> r == Vec3(list[0], list[1], list[2])
    ensures |list| < 3 ==> r.z == 0.0
    ensures list == [] ==> r == Vec3(0.0, 0.0, 0.0)
  {
    Vec3(At(list, 0), At(list, 1), At(list, 2))
  }

  /** `Vec4f(std::initializer_list<f32>)`: after padding, w is overwritten
      with 1, even when the list gives four values. */
  function Vec4Of(list: seq<real>): (r: Vec4)
    requires |list| <= 4
    ensures r.w == 1.0
    ensures |list| >= 3 ==> r.x == list[0] && r.y == list[1] && r.z == list[2]
    ensures list == [] ==> r == Vec4(0.0, 0.0, 0.0, 1.0)
  {
    Vec4(At(list, 0), At(list, 1), At(list, 2), 1.0)
  }

  method NewVec2(list: seq<real>) returns (v: Vec2)
    requires |list| <= 2
    ensures v == Vec2Of(list)
  {
    var data := InitData(list, 2);
    v := Vec2(data[0], data[1]);
  }

  method NewVec3(list: seq<real>) returns (v: Vec3)
    requires |list| <= 3
    ensures v == Vec3Of(list)
  {
    var data := InitData(list, 3);
    v := Vec3(data[0], data[1], data[2]);
  }

  method NewVec4(list: seq<real>) returns (v: Vec4)
    requires |list| <= 4
    ensures v == Vec4Of(list)
  {
    var data := InitData(list, 4);
    v := Vec4(data[0], data[1], data[2], 1.0);
  }

  /** The default `Vec4f()` sets only w; x, y and z keep whatever the
      storage held, given here as `junk`. */
  function DefaultVec4(junk: Vec3): (r: Vec4)
    ensures r.w == 1.0
  {
    Vec4(junk.x, junk.y, junk.z, 1.0)
  }

  /** `Vec4f(Vec3f)`: copy x, y, z and set w to 1. */
  function Extend(v: Vec3): (r: Vec4)
    ensures r.w == 1.0
    ensures r.x == v.x && r.y == v.y && r.z == v.z
  {
    Vec4(v.x, v.y, v.z, 1.0)
  }

  // ---------------------------------------------------------------------
  // Conversions of src/vector.cpp

  /** `operator[]` of `Vec4f`. */
  function Get4(v: Vec4, i: nat): real
    requires i < 4
  {
    if i == 0 then v.x else if i == 1 then v.y else if i == 2 then v.z else v.w
  }

  /** The xy of a `Vec4f`, as `Vec2f(Vec4f)` copies it. */
  function Truncate2(v: Vec4): Vec2
  {
    Vec2(v.x, v.y)
  }

  /** The xyz of a `Vec4f`, as `Vec3f(Vec4f)` copies it. */
  function Truncate3(v: Vec4): Vec3
  {
    Vec3(v.x, v.y, v.z)
  }

  /** `Vec2f(Vec4f)`: copies `data[i]` for i < 2. */
  method Vec2FromVec4(v: Vec4) returns (r: Vec2)
    ensures r == Truncate2(v)
  {
    var data := new real[2];
    var i := 0;
    while i < 2
      invariant 0 <= i <= 2
      invariant forall k :: 0 <= k < i ==> data[k] == Get4(v, k)
    {
      data[i] := Get4(v, i);
      i := i + 1;
    }
    r := Vec2(data[0], data[1]);
  }

  /** `Vec3f(Vec4f)`: copies `data[i]` for i < 3. */
  method Vec3FromVec4(v: Vec4) returns (r: Vec3)
    ensures r == Truncate3(v)
  {
    var data := new real[3];
    var i := 0;
    while i < 3
      invariant 0 <= i <= 3
      invariant forall k :: 0 <= k < i ==> data[k] == Get4(v, k)
    {
      data[i] := Get4(v, i);
      i := i + 1;
    }
    r := Vec3(data[0], data[1], data[2]);
  }

  /** Neither conversion reads w. */
  lemma TruncateIgnoresW(v: Vec4, w: real)
    ensures Truncate2(v.(w := w)) == Truncate2(v) == Vec2(v.x, v.y)
    ensures Truncate3(v.(w := w)) == Truncate3(v) == Vec3(v.x, v.y, v.z)
  {
  }

  /** Extending a `Vec3f` and truncating it back gives the vector back. */
  lemma TruncateExtend(v: Vec3)
    ensures Truncate3(Extend(v)) == v
  {
  }

  // ---------------------------------------------------------------------
  // Arithmetic

  function Add2(a: Vec2, b: Vec2): Vec2 { Vec2Of([a.x + b.x, a.y + b.y]) }
  function Sub2(a: Vec2, b: Vec2): Vec2 { Vec2Of([a.x - b.x, a.y - b.y]) }
  function Add3(a: Vec3, b: Vec3): Vec3 { Vec3Of([a.x + b.x, a.y + b.y, a.z + b.z]) }
  function Sub3(a: Vec3, b: Vec3): Vec3 { Vec3Of([a.x - b.x, a.y - b.y, a.z - b.z]) }
  function Add4(a: Vec4, b: Vec4): Vec4 { Vec4Of([a.x + b.x, a.y + b.y, a.z + b.z, a.w + b.w]) }
  function Sub4(a: Vec4, b: Vec4): Vec4 { Vec4Of([a.x - b.x, a.y - b.y, a.z - b.z, a.w - b.w]) }

  /** `operator*(Vec)` as written: the y component is multiplied by `v.x`. */
  function Mul2(a: Vec2, b: Vec2): Vec2 { Vec2Of([a.x * b.x, a.y * b.x]) }
  function Mul3(a: Vec3, b: Vec3): Vec3 { Vec3Of([a.x * b.x, a.y * b.x, a.z * b.z]) }
  function Mul4(a: Vec4, b: Vec4): Vec4 { Vec4Of([a.x * b.x, a.y * b.x, a.z * b.z, a.w * b.w]) }

  /** The component-wise products `operator*(Vec)` is evidently meant to
      compute. */
  function Hadamard2(a: Vec2, b: Vec2): Vec2 { Vec2Of([a.x * b.x, a.y * b.y]) }
  function Hadamard3(a: Vec3, b: Vec3): Vec3 { Vec3Of([a.x * b.x, a.y * b.y, a.z * b.z]) }
  function Hadamard4(a: Vec4, b: Vec4): Vec4 { Vec4Of([a.x * b.x, a.y * b.y, a.z * b.z, a.w * b.w]) }

  function Scale2(a: Vec2, s: real): Vec2 { Vec2Of([a.x * s, a.y * s]) }
  function Scale3(a: Vec3, s: real): Vec3 { Vec3Of([a.x * s, a.y * s, a.z * s]) }
  function Scale4(a: Vec4, s: real): Vec4 { Vec4Of([a.x * s, a.y * s, a.z * s, a.w * s]) }

  function Div2(a: Vec2, b: Vec2): Vec2
    requires b.x != 0.0 && b.y != 0.0
  {
    Vec2Of([a.x / b.x, a.y / b.y])
  }

  function DivScalar2(a: Vec2, s: real): Vec2
    requires s != 0.0
  {
    Vec2Of([a.x / s, a.y / s])
  }

  function Div3(a: Vec3, b: Vec3): Vec3
    requires b.x != 0.0 && b.y != 0.0 && b.z != 0.0
  {
    Vec3Of([a.x / b.x, a.y / b.y, a.z / b.z])
  }

  function DivScalar3(a: Vec3, s: real): Vec3
    requires s != 0.0
  {
    Vec3Of([a.x / s, a.y / s, a.z / s])
  }

  function Div4(a: Vec4, b: Vec4): Vec4
    requires b.x != 0.0 && b.y != 0.0 && b.z != 0.0 && b.w != 0.0
  {
    Vec4Of([a.x / b.x, a.y / b.y, a.z / b.z, a.w / b.w])
  }

  function DivScalar4(a: Vec4, s: real): Vec4
    requires s != 0.0
  {
    Vec4Of([a.x / s, a.y / s, a.z / s, a.w / s])
  }

  /** The `Vec2f` operators: adding then subtracting the same vector gives
      it back, addition commutes, and dividing by a non-zero scalar undoes
      scaling by it, as does dividing by the vector (s, s). */
  lemma Vec2Laws(a: Vec2, b: Vec2, s: real)
    ensures Sub2(Add2(a, b), b) == a && Add2(a, b) == Add2(b, a)
    ensures s != 0.0 ==> DivScalar2(Scale2(a, s), s) == a
    ensures s != 0.0 ==> Div2(a, Vec2(s, s)) == DivScalar2(a, s)
  {
  }

  /** Adding then subtracting the same `Vec3f` gives the vector back. */
  lemma AddSub3(a: Vec3, b: Vec3)
    ensures Sub3(Add3(a, b), b) == a
    ensures Add3(a, b) == Add3(b, a)
  {
  }

  /** Every `Vec4f` operator builds its result from an initializer list, so
      its w is 1 whatever the operands' w: in particular `a - a` has w = 1
      and `a + b` does not add the w components. */
  lemma Vec4OpsResetW(a: Vec4, b: Vec4, s: real)
    ensures Add4(a, b).w == 1.0 && Sub4(a, b).w == 1.0
    ensures Mul4(a, b).w == 1.0 && Scale4(a, s).w == 1.0
    ensures b.x != 0.0 && b.y != 0.0 && b.z != 0.0 && b.w != 0.0 ==> Div4(a, b).w == 1.0
    ensures s != 0.0 ==> DivScalar4(a, s).w == 1.0
    ensures Sub4(a, a) == Vec4(0.0, 0.0, 0.0, 1.0)
    ensures Add4(a, b).x == a.x + b.x && Add4(a, b).y == a.y + b.y && Add4(a, b).z == a.z + b.z
  {
  }

  /** Dividing by a scalar undoes scaling by it. */
  lemma ScaleDiv3(a: Vec3, s: real)
    requires s != 0.0
    ensures DivScalar3(Scale3(a, s), s) == a
    ensures Div3(a, Vec3(s, s, s)) == DivScalar3(a, s)
  {
  }

  /** The quirk of `operator*(Vec)` in `Vec2f`: the product's y is
      `a.y * b.x`, which differs from `a.y * b.y` as soon as the second
      operand's x and y differ. */
  lemma Mul2UsesXForY()
    ensures Mul2(Vec2(1.0, 1.0), Vec2(1.0, 2.0)) != Hadamard2(Vec2(1.0, 1.0), Vec2(1.0, 2.0))
  {
    assert Mul2(Vec2(1.0, 1.0), Vec2(1.0, 2.0)).y == 1.0;
  }

  /** The same quirk in `Vec3f`. */
  lemma Mul3UsesXForY()
    ensures Mul3(Vec3(1.0, 1.0, 1.0), Vec3(1.0, 2.0, 1.0)) != Hadamard3(Vec3(1.0, 1.0, 1.0), Vec3(1.0, 2.0, 1.0))
  {
    var u, v := Vec3(1.0, 1.0, 1.0), Vec3(1.0, 2.0, 1.0);
    assert Mul3(u, v).y == 1.0;
    assert Hadamard3(u, v).y == 2.0;
  }

  /** Because of the quirk, the `Vec3f` product is not commutative. */
  lemma Mul3NotCommutative()
    ensures Mul3(Vec3(1.0, 1.0, 1.0), Vec3(1.0, 2.0, 1.0)) != Mul3(Vec3(1.0, 2.0, 1.0), Vec3(1.0, 1.0, 1.0))
  {
    var u, v := Vec3(1.0, 1.0, 1.0), Vec3(1.0, 2.0, 1.0);
    assert Mul3(u, v).y == 1.0;
    assert Mul3(v, u).y == 2.0;
  }

  /** The same quirk in `Vec4f`. */
  lemma Mul4UsesXForY()
    ensures Mul4(Vec4(1.0, 1.0, 1.0, 1.0), Vec4(1.0, 2.0, 1.0, 1.0)) != Hadamard4(Vec4(1.0, 1.0, 1.0, 1.0), Vec4(1.0, 2.0, 1.0, 1.0))
  {
    var u, v := Vec4(1.0, 1.0, 1.0, 1.0), Vec4(1.0, 2.0, 1.0, 1.0);
    assert Mul4(u, v).y == 1.0 by { assert u.y * v.x == 1.0; }
    assert Hadamard4(u, v).y == 2.0 by { assert u.y * v.y == 2.0; }
  }

  /** The corrected products are commutative and have (1, 1, ...) as unit. */
  lemma HadamardLaws(a2: Vec2, b2: Vec2, a3: Vec3, b3: Vec3, a4: Vec4, b4: Vec4)
    ensures Hadamard2(a2, b2) == Hadamard2(b2, a2) && Hadamard2(a2, Vec2(1.0, 1.0)) == a2
    ensures Hadamard3(a3, b3) == Hadamard3(b3, a3) && Hadamard3(a3, Vec3(1.0, 1.0, 1.0)) == a3
    ensures Hadamard4(a4, b4) == Hadamard4(b4, a4)
    ensures Hadamard4(a4, Vec4(1.0, 1.0, 1.0, 1.0)) == a4.(w := 1.0)
  {
  }

  // ---------------------------------------------------------------------
  // Products

  function Dot2(a: Vec2, b: Vec2): real { a.x * b.x + a.y * b.y }
  function Dot3(a: Vec3, b: Vec3): real { a.x * b.x + a.y * b.y + a.z * b.z }
  function Dot4(a: Vec4, b: Vec4): real { a.x * b.x + a.y * b.y + a.z * b.z + a.w * b.w }

  function LenSquared3(v: Vec3): real { Dot3(v, v) }

  function Cross(a: Vec3, b: Vec3): Vec3
  {
    Vec3Of([a.y * b.z - a.z * b.y, a.z * b.x - a.x * b.z, a.x * b.y - a.y * b.x])
  }

  lemma DotSymmetric(a2: Vec2, b2: Vec2, a3: Vec3, b3: Vec3, a4: Vec4, b4: Vec4)
    ensures Dot2(a2, b2) == Dot2(b2, a2)
    ensures Dot3(a3, b3) == Dot3(b3, a3)
    ensures Dot4(a4, b4) == Dot4(b4, a4)
  {
  }

  /** `cross` is anti-symmetric, vanishes on equal operands and is
      orthogonal to both of them. */
  lemma CrossLaws(a: Vec3, b: Vec3)
    ensures Cross(a, b) == Scale3(Cross(b, a), -1.0)
    ensures Cross(a, a) == Vec3(0.0, 0.0, 0.0)
    ensures Dot3(a, Cross(a, b)) == 0.0
    ensures Dot3(b, Cross(a, b)) == 0.0
  {
    var c := Cross(a, b);
    assert c == Vec3(a.y * b.z - a.z * b.y, a.z * b.x - a.x * b.z, a.x * b.y - a.y * b.x);
    assert a.x * (a.y * b.z - a.z * b.y) + a.y * (a.z * b.x - a.x * b.z) + a.z * (a.x * b.y - a.y * b.x) == 0.0;
    assert b.x * (a.y * b.z - a.z * b.y) + b.y * (a.z * b.x - a.x * b.z) + b.z * (a.x * b.y - a.y * b.x) == 0.0;
  }

  // ---------------------------------------------------------------------
  // Rotations about one axis; `c` and `s` stand for cos(angle), sin(angle).

  function RotateX(v: Vec3, c: real, s: real): (r: Vec3)
    ensures r.x == v.x
  {
    Vec3Of([v.x, v.y * c - v.z * s, v.y * s + v.z * c])
  }

  function RotateY(v: Vec3, c: real, s: real): (r: Vec3)
    ensures r.y == v.y
  {
    Vec3Of([v.x * c - v.z * s, v.y, v.x * s + v.z * c])
  }

  function RotateZ(v: Vec3, c: real, s: real): (r: Vec3)
    ensures r.z == v.z
  {
    Vec3Of([v.x * c - v.y * s, v.x * s + v.y * c, v.z])
  }

  /** On the unit circle, rotating about x by (c, -s) undoes the rotation
      by (c, s). */
  lemma RotateXInverse(v: Vec3, c: real, s: real)
    requires c * c + s * s == 1.0
    ensures RotateX(RotateX(v, c, s), c, -s) == v
  {
    var r := RotateX(v, c, s);
    assert r.y * c + r.z * s == v.y * (c * c + s * s);
    assert -r.y * s + r.z * c == v.z * (c * c + s * s);
  }
}

/** The matrix value types `Mat3x3f` and `Mat4x4f` of src/matrix.hpp, as
    n-by-n sequences of rows over `real` (n is 3 or 4).  `sin`, `cos` and
    `tan` are not modelled: the rotations take the cosine and sine of their
    angle, and `perspective` takes tan(fov / 2). */
module Matrix {
  import opened Vector

  type Matrix = seq<seq<real>>

  predicate IsSquare(m: Matrix, n: nat)
  {
    |m| == n && forall i :: 0 <= i < n ==> |m[i]| == n
  }

  /** The value-initialised matrix `Mat{}`: all entries zero. */
  function Zero(n: nat): (r: Matrix)
    ensures IsSquare(r, n)
  {
    seq(n, _ => seq(n, _ => 0.0))
  }

  /** m with entry (i, j) replaced by v. */
  function Set(m: Matrix, i: nat, j: nat, v: real): (r: Matrix)
    requires i < |m| && j < |m[i]|
  {
    m[i := m[i][j := v]]
  }

  // ---------------------------------------------------------------------
  // operator[]

  /** The assertion of `operator[]` as written: the row index is checked
      against `size()`, the number of entries, not the number of rows. */
  predicate RowAsserted(i: nat, n: nat)
  {
    i < n * n
  }

  /** Row 15 of a `Mat4x4f` passes the assertion although the matrix has
      four rows, and so does row 8 of a `Mat3x3f`. */
  lemma RowAssertAdmitsMissingRows()
    ensures RowAsserted(15, 4) && 15 >= 4
    ensures RowAsserted(8, 3) && 8 >= 3
  {
  }

  /** The check `operator[]` evidently intends: the index is a row. */
  predicate RowInRange(i: nat, n: nat)
  {
    i < n
  }

  /** The intended check admits exactly the rows of the matrix, and each of
      them also passes the assertion as written. */
  lemma RowInRangeExact(m: Matrix, n: nat, i: nat)
    requires IsSquare(m, n)
    ensures RowInRange(i, n) <==> i < |m|
    ensures RowInRange(i, n) ==> RowAsserted(i, n)
  {
    if i < n {
      assert i * 1 <= i * n;
    }
  }

  // ---------------------------------------------------------------------
  // identity, scale, translate

  predicate IsIdentity(m: Matrix, n: nat)
  {
    IsSquare(m, n) && forall i, j :: 0 <= i < n && 0 <= j < n ==> m[i][j] == if i == j then 1.0 else 0.0
  }

  /** `identity()`: a zero matrix whose diagonal is set to 1 in a loop. */
  method Identity(n: nat) returns (r: Matrix)
    ensures IsIdentity(r, n)
  {
    r := Zero(n);
    var i := 0;
    while i < n
      invariant 0 <= i <= n && IsSquare(r, n)
      invariant forall p, q :: 0 <= p < n && 0 <= q < n ==> r[p][q] == if p == q && p < i then 1.0 else 0.0
    {
      r := Set(r, i, i, 1.0);
      i := i + 1;
    }
  }

  /** `Mat4x4f::scale(args...)`: the identity with its first |s| diagonal
      entries multiplied by the arguments; at most four arguments. */
  method Scale4(s: seq<real>) returns (r: Matrix)
    requires |s| <= 4
    ensures IsSquare(r, 4)
    ensures forall i, j :: 0 <= i < 4 && 0 <= j < 4 ==>
      r[i][j] == if i != j then 0.0 else if i < |s| then s[i] else 1.0
  {
    r := Identity(4);
    var i := 0;
    while i < |s|
      invariant 0 <= i <= |s| && IsSquare(r, 4)
      invariant forall p, q :: 0 <= p < 4 && 0 <= q < 4 ==>
        r[p][q] == if p != q then 0.0 else if p < i then s[p] else 1.0
    {
      r := Set(r, i, i, r[i][i] * s[i]);
      i := i + 1;
    }
  }

  /** `Mat3x3f::scale(args...)`: unlike the 4x4 version it starts from the
      zero matrix, so a diagonal entry without an argument stays 0. */
  method Scale3(s: seq<real>) returns (r: Matrix)
    requires |s| <= 3
    ensures IsSquare(r, 3)
    ensures forall i, j :: 0 <= i < 3 && 0 <= j < 3 ==>
      r[i][j] == if i == j && i < |s| then s[i] else 0.0
  {
    r := Zero(3);
    var i := 0;
    while i < |s|
      invariant 0 <= i <= |s| && IsSquare(r, 3)
      invariant forall p, q :: 0 <= p < 3 && 0 <= q < 3 ==>
        r[p][q] == if p == q && p < i then s[p] else 0.0
    {
      r := Set(r, i, i, s[i]);
      i := i + 1;
    }
  }

  /** The layout of `translate(args...)`: the identity with the arguments
      down column 3. */
  predicate IsTranslation(r: Matrix, s: seq<real>)
  {
    IsSquare(r, 4) && forall i, j :: 0 <= i < 4 && 0 <= j < 4 ==>
      r[i][j] == if j == 3 && i < |s| then s[i] else if i == j then 1.0 else 0.0
  }

  /** `Mat4x4f::translate(args...)`; a fourth argument overwrites the 1 in
      the corner. */
  method Translate(s: seq<real>) returns (r: Matrix)
    requires |s| <= 4
    ensures IsTranslation(r, s)
  {
    r := Identity(4);
    var i := 0;
    while i < |s|
      invariant 0 <= i <= |s| && IsSquare(r, 4)
      invariant forall p, q :: 0 <= p < 4 && 0 <= q < 4 ==>
        r[p][q] == if q == 3 && p < i then s[p] else if p == q then 1.0 else 0.0
    {
      r := Set(r, i, 3, s[i]);
      i := i + 1;
    }
  }

  // ---------------------------------------------------------------------
  // Matrix-vector product

  /** Row i of m times v, summed over the first k columns. */
  function RowDot(m: Matrix, i: nat, v: Vec4, k: nat): real
    requires IsSquare(m, 4) && i < 4 && k <= 4
  {
    if k == 0 then 0.0 else RowDot(m, i, v, k - 1) + m[i][k - 1] * Get4(v, k - 1)
  }

  /** `operator*(const Mat4x4f &, const Vec4f &)`: component i is row i of
      the matrix dotted with v; w is computed like the other components. */
  function MulVec(m: Matrix, v: Vec4): Vec4
    requires IsSquare(m, 4)
  {
    Vec4(m[0][0] * v.x + m[0][1] * v.y + m[0][2] * v.z + m[0][3] * v.w,
         m[1][0] * v.x + m[1][1] * v.y + m[1][2] * v.z + m[1][3] * v.w,
         m[2][0] * v.x + m[2][1] * v.y + m[2][2] * v.z + m[2][3] * v.w,
         m[3][0] * v.x + m[3][1] * v.y + m[3][2] * v.z + m[3][3] * v.w)
  }

  /** Row i of m dotted with v, written out. */
  lemma RowDotUnfold(m: Matrix, i: nat, v: Vec4)
    requires IsSquare(m, 4) && i < 4
    ensures RowDot(m, i, v, 4) == m[i][0] * v.x + m[i][1] * v.y + m[i][2] * v.z + m[i][3] * v.w
  {
    assert RowDot(m, i, v, 1) == m[i][0] * v.x;
    assert RowDot(m, i, v, 2) == m[i][0] * v.x + m[i][1] * v.y;
  }

  /** Component i of the matrix-vector product is row i dotted with v. */
  lemma MulVecRows(m: Matrix, v: Vec4)
    requires IsSquare(m, 4)
    ensures forall i :: 0 <= i < 4 ==> Get4(MulVec(m, v), i) == RowDot(m, i, v, 4)
  {
    RowDotUnfold(m, 0, v);
    RowDotUnfold(m, 1, v);
    RowDotUnfold(m, 2, v);
    RowDotUnfold(m, 3, v);
  }

  /** `operator*(const Mat3x3f &, const Vec3f &)`. */
  function MulVec3(m: Matrix, v: Vec3): (r: Vec3)
    requires IsSquare(m, 3)
    ensures r == Truncate3(MulVec(Embed3(m), Extend(v)))
  {
    Vec3(m[0][0] * v.x + m[0][1] * v.y + m[0][2] * v.z,
         m[1][0] * v.x + m[1][1] * v.y + m[1][2] * v.z,
         m[2][0] * v.x + m[2][1] * v.y + m[2][2] * v.z)
  }

  /** A 3x3 matrix as the upper-left block of a 4x4 one with zero border. */
  function Embed3(m: Matrix): (r: Matrix)
    requires IsSquare(m, 3)
    ensures IsSquare(r, 4)
  {
    [m[0] + [0.0], m[1] + [0.0], m[2] + [0.0], [0.0, 0.0, 0.0, 0.0]]
  }

  /** The identity leaves every vector unchanged. */
  lemma MulVecIdentity(id: Matrix, v: Vec4)
    requires IsIdentity(id, 4)
    ensures MulVec(id, v) == v
  {
    assert id[0] == [1.0, 0.0, 0.0, 0.0];
    assert id[1] == [0.0, 1.0, 0.0, 0.0];
    assert id[2] == [0.0, 0.0, 1.0, 0.0];
    assert id[3] == [0.0, 0.0, 0.0, 1.0];
  }

  /** A translation moves a point with w = 1 by (tx, ty, tz) and keeps
      w = 1. */
  lemma TranslatePoint(t: Matrix, tx: real, ty: real, tz: real, p: Vec3)
    requires IsTranslation(t, [tx, ty, tz])
    ensures MulVec(t, Extend(p)) == Vec4(p.x + tx, p.y + ty, p.z + tz, 1.0)
  {
    assert t[0] == [1.0, 0.0, 0.0, tx];
    assert t[1] == [0.0, 1.0, 0.0, ty];
    assert t[2] == [0.0, 0.0, 1.0, tz];
    assert t[3] == [0.0, 0.0, 0.0, 1.0];
  }

  // ---------------------------------------------------------------------
  // Rotations and perspective

  /** The layout of the rotations: the identity except in the plane of
      axes p and q, which holds the 2-D rotation by (c, s). */
  predicate IsPlaneRotation(r: Matrix, p: nat, q: nat, c: real, s: real)
    requires p < q < 4
  {
    && IsSquare(r, 4)
    && r[p][p] == c && r[p][q] == -s && r[q][p] == s && r[q][q] == c
    && forall i, j :: 0 <= i < 4 && 0 <= j < 4 && !(i in {p, q} && j in {p, q}) ==>
         r[i][j] == if i == j then 1.0 else 0.0
  }

  /** `rotation_x`: rotation in the y-z plane. */
  method RotationX(c: real, s: real) returns (r: Matrix)
    ensures IsPlaneRotation(r, 1, 2, c, s)
  {
    r := Identity(4);
    r := Set(r, 1, 1, c);
    r := Set(r, 1, 2, -s);
    r := Set(r, 2, 1, s);
    r := Set(r, 2, 2, c);
  }

  /** `rotation_y`: rotation in the x-z plane. */
  method RotationY(c: real, s: real) returns (r: Matrix)
    ensures IsPlaneRotation(r, 0, 2, c, s)
  {
    r := Identity(4);
    r := Set(r, 0, 0, c);
    r := Set(r, 0, 2, -s);
    r := Set(r, 2, 0, s);
    r := Set(r, 2, 2, c);
  }

  /** `rotation_z`: rotation in the x-y plane. */
  method RotationZ(c: real, s: real) returns (r: Matrix)
    ensures IsPlaneRotation(r, 0, 1, c, s)
  {
    r := Identity(4);
    r := Set(r, 0, 0, c);
    r := Set(r, 0, 1, -s);
    r := Set(r, 1, 0, s);
    r := Set(r, 1, 1, c);
  }

  /** Applying `rotation_x` to `Vec4f(v)` and truncating gives
      `rotate_x(v)`, and w stays 1. */
  lemma RotationXAgrees(r: Matrix, c: real, s: real, v: Vec3)
    requires IsPlaneRotation(r, 1, 2, c, s)
    ensures Truncate3(MulVec(r, Extend(v))) == RotateX(v, c, s) && MulVec(r, Extend(v)).w == 1.0
  {
    assert r[0] == [1.0, 0.0, 0.0, 0.0] && r[3] == [0.0, 0.0, 0.0, 1.0];
    assert r[1] == [0.0, c, -s, 0.0] && r[2] == [0.0, s, c, 0.0];
  }

  /** Applying `rotation_y` to `Vec4f(v)` and truncating gives
      `rotate_y(v)`, and w stays 1. */
  lemma RotationYAgrees(r: Matrix, c: real, s: real, v: Vec3)
    requires IsPlaneRotation(r, 0, 2, c, s)
    ensures Truncate3(MulVec(r, Extend(v))) == RotateY(v, c, s) && MulVec(r, Extend(v)).w == 1.0
  {
    assert r[1] == [0.0, 1.0, 0.0, 0.0] && r[3] == [0.0, 0.0, 0.0, 1.0];
    assert r[0] == [c, 0.0, -s, 0.0] && r[2] == [s, 0.0, c, 0.0];
  }

  /** Applying `rotation_z` to `Vec4f(v)` and truncating gives
      `rotate_z(v)`, and w stays 1. */
  lemma RotationZAgrees(r: Matrix, c: real, s: real, v: Vec3)
    requires IsPlaneRotation(r, 0, 1, c, s)
    ensures Truncate3(MulVec(r, Extend(v))) == RotateZ(v, c, s) && MulVec(r, Extend(v)).w == 1.0
  {
    assert r[2] == [0.0, 0.0, 1.0, 0.0] && r[3] == [0.0, 0.0, 0.0, 1.0];
    assert r[0] == [c, -s, 0.0, 0.0] && r[1] == [s, c, 0.0, 0.0];
  }

  /** The layout of `perspective`: only (0,0), (1,1), (2,2), (2,3) and
      (3,2) may be non-zero, and (3,2) is 1. */
  predicate IsPerspective(m: Matrix)
  {
    && IsSquare(m, 4)
    && m[3][2] == 1.0
    && forall i, j :: 0 <= i < 4 && 0 <= j < 4 && !(i == j && i < 3) && (i, j) != (2, 3) && (i, j) != (3, 2) ==>
         m[i][j] == 0.0
  }

  /** `perspective(fov, aspect, near, far)` with `tanHalf` = tan(fov / 2).
      Division by zero is not modelled, so tan(fov / 2) and far - near
      must be non-zero. */
  method Perspective(tanHalf: real, aspect: real, near: real, far: real) returns (m: Matrix)
    requires tanHalf != 0.0 && far != near
    ensures IsPerspective(m)
    ensures m[0][0] == aspect * (1.0 / tanHalf) && m[1][1] == 1.0 / tanHalf
    ensures m[2][2] == far / (far - near) && m[2][3] == (-far * near) / (far - near)
  {
    m := Zero(4);
    m := Set(m, 0, 0, aspect * (1.0 / tanHalf));
    m := Set(m, 1, 1, 1.0 / tanHalf);
    m := Set(m, 2, 2, far / (far - near));
    m := Set(m, 2, 3, (-far * near) / (far - near));
    m := Set(m, 3, 2, 1.0);
  }

  /** The projected w is the input z, whatever the input w. */
  lemma PerspectiveKeepsDepth(m: Matrix, v: Vec4)
    requires IsPerspective(m)
    ensures MulVec(m, v).w == v.z
    ensures MulVec(m, v).x == m[0][0] * v.x && MulVec(m, v).y == m[1][1] * v.y
  {
    assert m[3] == [0.0, 0.0, 1.0, 0.0];
    assert m[0][1] == 0.0 && m[0][2] == 0.0 && m[0][3] == 0.0;
    assert m[1][0] == 0.0 && m[1][2] == 0.0 && m[1][3] == 0.0;
  }

  // ---------------------------------------------------------------------
  // Matrix-matrix product

  /** Row i of b times column j of a, summed over the first k terms. */
  function RowCol(b: Matrix, a: Matrix, n: nat, i: nat, j: nat, k: nat): real
    requires IsSquare(a, n) && IsSquare(b, n) && i < n && j < n && k <= n
  {
    if k == 0 then 0.0 else RowCol(b, a, n, i, j, k - 1) + b[i][k - 1] * a[k - 1][j]
  }

  /** The conventional product b·a. */
  function Product(b: Matrix, a: Matrix, n: nat): (r: Matrix)
    requires IsSquare(a, n) && IsSquare(b, n)
    ensures IsSquare(r, n)
  {
    seq(n, i requires 0 <= i < n => seq(n, j requires 0 <= j < n => RowCol(b, a, n, i, j, n)))
  }

  /** The innermost loop of `operator*`: for every row r, entry (r, m)
      accumulates a[k][m] * b[r][k]. */
  method AddTerm(c: Matrix, a: Matrix, b: Matrix, n: nat, m: nat, k: nat) returns (d: Matrix)
    requires IsSquare(a, n) && IsSquare(b, n) && IsSquare(c, n) && m < n && k < n
    ensures IsSquare(d, n)
    ensures forall r :: 0 <= r < n ==> d[r][m] == c[r][m] + a[k][m] * b[r][k]
    ensures forall r, j :: 0 <= r < n && 0 <= j < n && j != m ==> d[r][j] == c[r][j]
  {
    d := c;
    var row := 0;
    while row < n
      invariant 0 <= row <= n && IsSquare(d, n)
      invariant forall r :: 0 <= r < row ==> d[r][m] == c[r][m] + a[k][m] * b[r][k]
      invariant forall r :: row <= r < n ==> d[r] == c[r]
      invariant forall r, j :: 0 <= r < n && 0 <= j < n && j != m ==> d[r][j] == c[r][j]
    {
      d := Set(d, row, m, d[row][m] + a[k][m] * b[row][k]);
      row := row + 1;
    }
  }

  /** The two inner loops of `operator*` for column m: entry (r, m) becomes
      row r of b times column m of a. */
  method FillColumn(c: Matrix, a: Matrix, b: Matrix, n: nat, m: nat) returns (d: Matrix)
    requires IsSquare(a, n) && IsSquare(b, n) && IsSquare(c, n) && m < n
    requires forall r :: 0 <= r < n ==> c[r][m] == 0.0
    ensures IsSquare(d, n)
    ensures forall r :: 0 <= r < n ==> d[r][m] == RowCol(b, a, n, r, m, n)
    ensures forall r, j :: 0 <= r < n && 0 <= j < n && j != m ==> d[r][j] == c[r][j]
  {
    d := c;
    var k := 0;
    while k < n
      invariant 0 <= k <= n && IsSquare(d, n)
      invariant forall r :: 0 <= r < n ==> d[r][m] == RowCol(b, a, n, r, m, k)
      invariant forall r, j :: 0 <= r < n && 0 <= j < n && j != m ==> d[r][j] == c[r][j]
    {
      d := AddTerm(d, a, b, n, m, k);
      k := k + 1;
    }
  }

  /** `operator*(a, b)`: the triple loop accumulates c[n][m] += a[k][m] *
      b[n][k], which is the product b·a, not a·b. */
  method Mul(a: Matrix, b: Matrix, n: nat) returns (c: Matrix)
    requires IsSquare(a, n) && IsSquare(b, n)
    ensures c == Product(b, a, n)
  {
    c := Zero(n);
    var m := 0;
    while m < n
      invariant 0 <= m <= n && IsSquare(c, n)
      invariant forall r, j :: 0 <= r < n && 0 <= j < m ==> c[r][j] == RowCol(b, a, n, r, j, n)
      invariant forall r, j :: 0 <= r < n && m <= j < n ==> c[r][j] == 0.0
    {
      c := FillColumn(c, a, b, n, m);
      m := m + 1;
    }
    var p := Product(b, a, n);
    assert forall r :: 0 <= r < n ==> c[r] == p[r];
  }

  /** Row i of the identity against column j of a, over the first k terms. */
  lemma {:induction false} RowColIdentityLeft(id: Matrix, a: Matrix, n: nat, i: nat, j: nat, k: nat)
    requires IsIdentity(id, n) && IsSquare(a, n) && i < n && j < n && k <= n
    ensures RowCol(id, a, n, i, j, k) == if i < k then a[i][j] else 0.0
  {
    if k > 0 {
      RowColIdentityLeft(id, a, n, i, j, k - 1);
    }
  }

  /** Row i of a against column j of the identity, over the first k terms. */
  lemma {:induction false} RowColIdentityRight(a: Matrix, id: Matrix, n: nat, i: nat, j: nat, k: nat)
    requires IsIdentity(id, n) && IsSquare(a, n) && i < n && j < n && k <= n
    ensures RowCol(a, id, n, i, j, k) == if j < k then a[i][j] else 0.0
  {
    if k > 0 {
      RowColIdentityRight(a, id, n, i, j, k - 1);
    }
  }

  /** The identity is a two-sided unit of the product. */
  lemma ProductIdentity(a: Matrix, id: Matrix, n: nat)
    requires IsIdentity(id, n) && IsSquare(a, n)
    ensures Product(id, a, n) == a
    ensures Product(a, id, n) == a
  {
    var l, r := Product(id, a, n), Product(a, id, n);
    forall i, j | 0 <= i < n && 0 <= j < n
      ensures l[i][j] == a[i][j] && r[i][j] == a[i][j]
    {
      RowColIdentityLeft(id, a, n, i, j, n);
      RowColIdentityRight(a, id, n, i, j, n);
    }
    assert forall i :: 0 <= i < n ==> l[i] == a[i];
    assert forall i :: 0 <= i < n ==> r[i] == a[i];
  }
}

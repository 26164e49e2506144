/** `Matrix` of the math module: 4x4 matrices stored as 16 numbers in a flat
    array, row by row, with points as row vectors (`p' = p * M`, translation
    in slots 12, 13 and 14). Functions give the value of each matrix; the
    methods overwrite an array in place, as the source does. */
module Matrices {
  import opened Numbers
  import opened Vectors

  predicate IsMatrix(m: seq<real>) {
    |m| == 16
  }

  /** The `identity` getter. */
  function Identity(): (m: seq<real>)
    ensures IsMatrix(m)
  {
    [1.0, 0.0, 0.0, 0.0,
     0.0, 1.0, 0.0, 0.0,
     0.0, 0.0, 1.0, 0.0,
     0.0, 0.0, 0.0, 1.0]
  }

  /** One row of a product: the row vector `row` times the matrix `b`, each
      entry summed left to right as the source does. */
  function RowTimes(row: seq<real>, b: seq<real>): (p: seq<real>)
    requires |row| == 4 && IsMatrix(b)
    ensures |p| == 4
  {
    [row[0] * b[0] + row[1] * b[4] + row[2] * b[8] + row[3] * b[12],
     row[0] * b[1] + row[1] * b[5] + row[2] * b[9] + row[3] * b[13],
     row[0] * b[2] + row[1] * b[6] + row[2] * b[10] + row[3] * b[14],
     row[0] * b[3] + row[1] * b[7] + row[2] * b[11] + row[3] * b[15]]
  }

  /** The row-major product `a * b`, row by row. */
  function MatMul(a: seq<real>, b: seq<real>): (p: seq<real>)
    requires IsMatrix(a) && IsMatrix(b)
    ensures IsMatrix(p)
  {
    RowTimes(a[0..4], b) + RowTimes(a[4..8], b) + RowTimes(a[8..12], b) + RowTimes(a[12..16], b)
  }

  /** What `setScaled(m, v)` leaves in `m`: diagonal `(x, y, z, 1)`, zeros elsewhere. */
  function ScaleMatrix(v: Vec): (m: seq<real>)
    requires !HasNaN(v)
    ensures IsMatrix(m)
  {
    [v.x.val, 0.0, 0.0, 0.0,
     0.0, v.y.val, 0.0, 0.0,
     0.0, 0.0, v.z.val, 0.0,
     0.0, 0.0, 0.0, 1.0]
  }

  /** The matrix `rotateX(m, angle)` multiplies `m` by; `angle` in degrees. */
  function RotationX(math: HostMath, angle: real): (m: seq<real>)
    ensures IsMatrix(m)
  {
    var s := math.sin(ToRadians(angle));
    var c := math.cos(ToRadians(angle));
    [1.0, 0.0, 0.0, 0.0,
     0.0, c, s, 0.0,
     0.0, -s, c, 0.0,
     0.0, 0.0, 0.0, 1.0]
  }

  /** The matrix `rotateY(m, angle)` multiplies `m` by. */
  function RotationY(math: HostMath, angle: real): (m: seq<real>)
    ensures IsMatrix(m)
  {
    var s := math.sin(ToRadians(angle));
    var c := math.cos(ToRadians(angle));
    [c, 0.0, -s, 0.0,
     0.0, 1.0, 0.0, 0.0,
     s, 0.0, c, 0.0,
     0.0, 0.0, 0.0, 1.0]
  }

  /** The matrix `rotateZ(m, angle)` multiplies `m` by. */
  function RotationZ(math: HostMath, angle: real): (m: seq<real>)
    ensures IsMatrix(m)
  {
    var s := math.sin(ToRadians(angle));
    var c := math.cos(ToRadians(angle));
    [c, -s, 0.0, 0.0,
     s, c, 0.0, 0.0,
     0.0, 0.0, 1.0, 0.0,
     0.0, 0.0, 0.0, 1.0]
  }

  /** What `rotate(m, v)` leaves in `m`: rotation about X by `v.x`, then Y by
      `v.y`, then Z by `v.z`, each applied as `m := m * R`. */
  function Rotated(math: HostMath, m: seq<real>, v: Vec): (r: seq<real>)
    requires IsMatrix(m) && !HasNaN(v)
    ensures IsMatrix(r)
  {
    MatMul(MatMul(MatMul(m, RotationX(math, v.x.val)), RotationY(math, v.y.val)), RotationZ(math, v.z.val))
  }

  /** `translation(v)`: the identity with `v` in slots 12, 13 and 14. */
  function Translation(v: Vec): (m: seq<real>)
    requires !HasNaN(v)
    ensures IsMatrix(m)
  {
    Identity()[12 := v.x.val][13 := v.y.val][14 := v.z.val]
  }

  /** The homogeneous row vector `(v, 1) * m` computed by `Vector3.transform` before its division by `w`. */
  function Homogeneous(m: seq<real>, v: Vec): (h: seq<real>)
    requires IsMatrix(m) && !HasNaN(v)
    ensures |h| == 4
  {
    [Column(m, v, 0), Column(m, v, 1), Column(m, v, 2), Column(m, v, 3)]
  }

  /** Entry `c` of `(v, 1) * m`. */
  function Column(m: seq<real>, v: Vec, c: int): real
    requires IsMatrix(m) && !HasNaN(v) && 0 <= c < 4
  {
    v.x.val * m[c] + v.y.val * m[4 + c] + v.z.val * m[8 + c] + m[12 + c]
  }

  /** `Vector3.transform(v, m)`: the homogeneous product divided by its `w`. */
  function TransformVec(m: seq<real>, v: Vec): (r: Vec)
    requires IsMatrix(m) && !HasNaN(v) && Homogeneous(m, v)[3] != 0.0
    ensures !HasNaN(r)
  {
    var h := Homogeneous(m, v);
    RealVec(h[0] / h[3], h[1] / h[3], h[2] / h[3])
  }

  /** The three axes `lookAt` derives: forward `z`, right `x`, up `y`. */
  datatype Basis = Basis(xAxis: Vec, yAxis: Vec, zAxis: Vec)

  function LookAtBasis(math: HostMath, eye: Vec, target: Vec, up: Vec): (b: Basis)
    requires !HasNaN(eye) && !HasNaN(target) && !HasNaN(up)
    ensures !HasNaN(b.xAxis) && !HasNaN(b.yAxis) && !HasNaN(b.zAxis)
  {
    var zAxis := Normalized(math, Diff(target, eye));
    var xAxis := Normalized(math, Cross(up, zAxis));
    var yAxis := Normalized(math, Cross(zAxis, xAxis));
    Basis(xAxis, yAxis, zAxis)
  }

  /** A matrix laid out as `lookAt` lays it out, from any three axes. */
  function ViewLayout(xa: Vec, ya: Vec, za: Vec, eye: Vec): (m: seq<real>)
    requires !HasNaN(xa) && !HasNaN(ya) && !HasNaN(za) && !HasNaN(eye)
    ensures IsMatrix(m)
  {
    [xa.x.val, ya.x.val, za.x.val, 0.0,
     xa.y.val, ya.y.val, za.y.val, 0.0,
     xa.z.val, ya.z.val, za.z.val, 0.0,
     -Dot(xa, eye).val, -Dot(ya, eye).val, -Dot(za, eye).val, 1.0]
  }

  /** What `lookAt(m, eye, target, up)` leaves in `m`: the axes in columns
      0 to 2 and, in row 3, minus the eye's coordinate along each axis. */
  function LookAtMatrix(math: HostMath, eye: Vec, target: Vec, up: Vec): (m: seq<real>)
    requires !HasNaN(eye) && !HasNaN(target) && !HasNaN(up)
    ensures IsMatrix(m)
  {
    var b := LookAtBasis(math, eye, target, up);
    ViewLayout(b.xAxis, b.yAxis, b.zAxis, eye)
  }

  /** The divisions `perspectiveFovLH` performs are defined. */
  predicate PerspectiveDefined(math: HostMath, fov: real, aspect: real, near: real, far: real) {
    math.tan(fov * 0.5) != 0.0 && aspect != 0.0 && near != far
  }

  /** What `perspectiveFovLH(m, fov, aspect, near, far)` leaves in `m`. */
  function Perspective(math: HostMath, fov: real, aspect: real, near: real, far: real): (m: seq<real>)
    requires PerspectiveDefined(math, fov, aspect, near, far)
    ensures IsMatrix(m)
  {
    var t := 1.0 / math.tan(fov * 0.5);
    [t / aspect, 0.0, 0.0, 0.0,
     0.0, t, 0.0, 0.0,
     0.0, 0.0, -far / (near - far), 1.0,
     0.0, 0.0, (near * far) / (near - far), 0.0]
  }

  /* ---------------------------------------------------------------- */
  /* Properties                                                        */
  /* ---------------------------------------------------------------- */

  /** A row vector times the identity is itself. */
  lemma RowTimesIdentity(row: seq<real>)
    requires |row| == 4
    ensures RowTimes(row, Identity()) == row
  {
  }

  /** Multiplying by the identity on the right leaves a matrix unchanged. */
  lemma {:induction false} MatMulIdentityRight(a: seq<real>)
    requires IsMatrix(a)
    ensures MatMul(a, Identity()) == a
  {
    RowTimesIdentity(a[0..4]);
    RowTimesIdentity(a[4..8]);
    RowTimesIdentity(a[8..12]);
    RowTimesIdentity(a[12..16]);
    assert a == a[0..4] + a[4..8] + a[8..12] + a[12..16];
  }

  /** Multiplying by the identity on the left leaves a matrix unchanged. */
  lemma MatMulIdentityLeft(a: seq<real>)
    requires IsMatrix(a)
    ensures MatMul(Identity(), a) == a
  {
    assert RowTimes(Identity()[0..4], a) == a[0..4];
    assert RowTimes(Identity()[4..8], a) == a[4..8];
    assert RowTimes(Identity()[8..12], a) == a[8..12];
    assert RowTimes(Identity()[12..16], a) == a[12..16];
    assert a == a[0..4] + a[4..8] + a[8..12] + a[12..16];
  }

  /** The scale matrix of `(1, 1, 1)` is the identity. */
  lemma ScaleOfOneIsIdentity()
    ensures ScaleMatrix(One) == Identity()
  {
  }

  /** Two translations compose into the translation by the sum. */
  lemma TranslationsCompose(a: Vec, b: Vec)
    requires !HasNaN(a) && !HasNaN(b)
    ensures MatMul(Translation(a), Translation(b)) == Translation(Sum(a, b))
  {
    var ta, tb := Translation(a), Translation(b);
    MatMulIdentityLeft(tb);
    assert RowTimes(ta[0..4], tb) == Identity()[0..4];
    assert RowTimes(ta[4..8], tb) == Identity()[4..8];
    assert RowTimes(ta[8..12], tb) == Identity()[8..12];
    assert RowTimes(ta[12..16], tb) == [a.x.val + b.x.val, a.y.val + b.y.val, a.z.val + b.z.val, 1.0];
  }

  /** Translating a point by `translation(v)` adds `v` to it. */
  lemma TranslationMovesPoints(v: Vec, p: Vec)
    requires !HasNaN(v) && !HasNaN(p)
    ensures Homogeneous(Translation(v), p)[3] == 1.0
    ensures TransformVec(Translation(v), p) == Sum(p, v)
  {
  }

  /** Under `sin 0 = 0` and `cos 0 = 1`, rotating by the zero vector leaves a matrix unchanged. */
  lemma RotatedByZero(math: HostMath, m: seq<real>)
    requires IsMatrix(m) && TrigAtZero(math)
    ensures Rotated(math, m, Zero) == m
  {
    assert ToRadians(0.0) == 0.0;
    assert RotationX(math, 0.0) == Identity();
    assert RotationY(math, 0.0) == Identity();
    assert RotationZ(math, 0.0) == Identity();
    MatMulIdentityRight(m);
  }

  /** A linear map: the last column is `(0, 0, 0, 1)` and the translation row is zero. */
  predicate IsLinear(m: seq<real>)
    requires IsMatrix(m)
  {
    m[3] == 0.0 && m[7] == 0.0 && m[11] == 0.0 && m[15] == 1.0 &&
    m[12] == 0.0 && m[13] == 0.0 && m[14] == 0.0
  }

  /** Products of linear maps are linear. */
  lemma MatMulKeepsLinear(a: seq<real>, b: seq<real>)
    requires IsMatrix(a) && IsMatrix(b) && IsLinear(a) && IsLinear(b)
    ensures IsLinear(MatMul(a, b))
  {
    var p := MatMul(a, b);
    assert p[12..16] == RowTimes(a[12..16], b);
    assert a[12..16] == [0.0, 0.0, 0.0, 1.0];
  }

  /** Rotating keeps a matrix linear. */
  lemma RotatedKeepsLinear(math: HostMath, m: seq<real>, v: Vec)
    requires IsMatrix(m) && IsLinear(m) && !HasNaN(v)
    ensures IsLinear(Rotated(math, m, v))
  {
    var rx := MatMul(m, RotationX(math, v.x.val));
    MatMulKeepsLinear(m, RotationX(math, v.x.val));
    var ry := MatMul(rx, RotationY(math, v.y.val));
    MatMulKeepsLinear(rx, RotationY(math, v.y.val));
    MatMulKeepsLinear(ry, RotationZ(math, v.z.val));
  }

  /** Following a linear map by `translation(v)` keeps its 3x3 part and puts
      `v` in the translation row. */
  lemma LinearThenTranslation(a: seq<real>, v: Vec)
    requires IsMatrix(a) && IsLinear(a) && !HasNaN(v)
    ensures MatMul(a, Translation(v)) == a[12 := v.x.val][13 := v.y.val][14 := v.z.val]
  {
    var t := Translation(v);
    assert RowTimes(a[0..4], t) == a[0..4];
    assert RowTimes(a[4..8], t) == a[4..8];
    assert RowTimes(a[8..12], t) == a[8..12];
    assert a[12..16] == [0.0, 0.0, 0.0, 1.0];
    assert RowTimes(a[12..16], t) == [v.x.val, v.y.val, v.z.val, 1.0];
    assert a[12 := v.x.val][13 := v.y.val][14 := v.z.val]
      == a[0..4] + a[4..8] + a[8..12] + [v.x.val, v.y.val, v.z.val, 1.0];
  }

  /** A linear map sends a point to a point with `w = 1`, so `transform` divides by one. */
  lemma LinearKeepsW(m: seq<real>, v: Vec)
    requires IsMatrix(m) && IsLinear(m) && !HasNaN(v)
    ensures Homogeneous(m, v)[3] == 1.0
    ensures TransformVec(m, v) == RealVec(Homogeneous(m, v)[0], Homogeneous(m, v)[1], Homogeneous(m, v)[2])
  {
  }

  /** The view matrix built by `lookAt` gives every point its coordinates in
      the camera's frame: the projections of `p - eye` on the right, up and
      forward axes. */
  lemma LookAtCoordinates(math: HostMath, eye: Vec, target: Vec, up: Vec, p: Vec)
    requires !HasNaN(eye) && !HasNaN(target) && !HasNaN(up) && !HasNaN(p)
    ensures var b := LookAtBasis(math, eye, target, up);
            var d := Diff(p, eye);
            Homogeneous(LookAtMatrix(math, eye, target, up), p)
              == [Dot(b.xAxis, d).val, Dot(b.yAxis, d).val, Dot(b.zAxis, d).val, 1.0]
  {
    var b := LookAtBasis(math, eye, target, up);
    ViewCoordinates(LookAtMatrix(math, eye, target, up), b.xAxis, b.yAxis, b.zAxis, eye, p);
  }

  lemma ViewCoordinates(m: seq<real>, xa: Vec, ya: Vec, za: Vec, eye: Vec, p: Vec)
    requires !HasNaN(xa) && !HasNaN(ya) && !HasNaN(za) && !HasNaN(eye) && !HasNaN(p)
    requires m == ViewLayout(xa, ya, za, eye)
    ensures Homogeneous(m, p) == [Dot(xa, Diff(p, eye)).val, Dot(ya, Diff(p, eye)).val, Dot(za, Diff(p, eye)).val, 1.0]
  {
    AxisCoordinate(m, 0, xa, eye, p);
    AxisCoordinate(m, 1, ya, eye, p);
    AxisCoordinate(m, 2, za, eye, p);
    assert Column(m, p, 3) == p.x.val * 0.0 + p.y.val * 0.0 + p.z.val * 0.0 + 1.0;
  }

  /** One column of the view matrix: an axis `a` down column `c` and `-a . eye`
      in its translation slot project a point onto `a` relative to the eye. */
  lemma AxisCoordinate(m: seq<real>, c: int, a: Vec, eye: Vec, p: Vec)
    requires IsMatrix(m) && 0 <= c < 3 && !HasNaN(a) && !HasNaN(eye) && !HasNaN(p)
    requires m[c] == a.x.val && m[4 + c] == a.y.val && m[8 + c] == a.z.val && m[12 + c] == -Dot(a, eye).val
    ensures Column(m, p, c) == Dot(a, Diff(p, eye)).val
  {
    var px, py, pz := p.x.val, p.y.val, p.z.val;
    var ex, ey, ez := eye.x.val, eye.y.val, eye.z.val;
    DotOfReals(a, eye);
    DotOfReals(a, Diff(p, eye));
    assert Diff(p, eye) == RealVec(px - ex, py - ey, pz - ez);
    assert Column(m, p, c) == px * a.x.val + py * a.y.val + pz * a.z.val - (a.x.val * ex + a.y.val * ey + a.z.val * ez);
  }

  /** The view matrix built by `lookAt` sends the eye to the origin. */
  lemma LookAtSendsEyeToOrigin(math: HostMath, eye: Vec, target: Vec, up: Vec)
    requires !HasNaN(eye) && !HasNaN(target) && !HasNaN(up)
    ensures Homogeneous(LookAtMatrix(math, eye, target, up), eye) == [0.0, 0.0, 0.0, 1.0]
  {
    LookAtCoordinates(math, eye, target, up, eye);
  }

  /** The depth row of the perspective matrix, `z * m[10] + m[14]`, is
      `far * (near - z) / (near - far)`. */
  lemma PerspectiveDepth(near: real, far: real, z: real)
    requires near != far
    ensures z * (-far / (near - far)) + (near * far) / (near - far) == far * (near - z) / (near - far)
    ensures z == near ==> far * (near - z) / (near - far) == 0.0
    ensures z == far ==> far * (near - z) / (near - far) == z
  {
    var d := near - far;
    assert z * (-far / d) == (-far * z) / d;
    assert (-far * z) / d + (near * far) / d == (near * far - far * z) / d;
    assert near * far - far * z == far * (near - z);
  }

  /** The perspective matrix keeps the view depth in `w`, maps depth `near`
      to 0 and depth `far` to `w`, and scales x and y by the focal factors. */
  lemma PerspectiveDepthRange(math: HostMath, fov: real, aspect: real, near: real, far: real, p: Vec)
    requires PerspectiveDefined(math, fov, aspect, near, far) && !HasNaN(p)
    ensures var h := Homogeneous(Perspective(math, fov, aspect, near, far), p);
            && h[3] == p.z.val
            && (p.z.val == near ==> h[2] == 0.0)
            && (p.z.val == far ==> h[2] == h[3])
            && h[1] * math.tan(fov * 0.5) == p.y.val
            && h[0] * math.tan(fov * 0.5) * aspect == p.x.val
  {
    var m := Perspective(math, fov, aspect, near, far);
    var h := Homogeneous(m, p);
    var t := 1.0 / math.tan(fov * 0.5);
    PerspectiveDepth(near, far, p.z.val);
    assert h[2] == p.z.val * (-far / (near - far)) + (near * far) / (near - far);
    assert t * math.tan(fov * 0.5) == 1.0;
    assert h[1] == p.y.val * t;
    assert h[0] == p.x.val * (t / aspect);
    assert (t / aspect) * aspect == t;
  }

  /** The slot layout of the perspective matrix: `m[11] = 1`, `m[15] = 0`,
      zeros off the pattern, `m[5] * tan(fov/2) = 1` and `m[0] * aspect = m[5]`. */
  lemma PerspectiveLayout(math: HostMath, fov: real, aspect: real, near: real, far: real)
    requires PerspectiveDefined(math, fov, aspect, near, far)
    ensures var m := Perspective(math, fov, aspect, near, far);
            && m[11] == 1.0 && m[15] == 0.0
            && m[1] == 0.0 && m[2] == 0.0 && m[3] == 0.0 && m[4] == 0.0 && m[6] == 0.0
            && m[7] == 0.0 && m[8] == 0.0 && m[9] == 0.0 && m[12] == 0.0 && m[13] == 0.0
            && m[5] * math.tan(fov * 0.5) == 1.0
            && m[0] * aspect == m[5]
  {
    var t := 1.0 / math.tan(fov * 0.5);
    assert t * math.tan(fov * 0.5) == 1.0;
    assert (t / aspect) * aspect == t;
  }

  /* ---------------------------------------------------------------- */
  /* In-place operations on Float32Array-like buffers                  */
  /* ---------------------------------------------------------------- */

  /** The `identity` getter: a new array holding the identity. */
  method NewIdentity() returns (m: array<real>)
    ensures fresh(m) && m[..] == Identity()
  {
    var id := Identity();
    m := new real[16](i requires 0 <= i < 16 => id[i]);
  }

  /** `setIdentity(m)`: overwrites all 16 slots and returns `m`. */
  method SetIdentity(m: array<real>) returns (r: array<real>)
    requires m.Length == 16
    modifies m
    ensures r == m && m[..] == Identity()
  {
    var id := Identity();
    forall i | 0 <= i < 16 {
      m[i] := id[i];
    }
    r := m;
  }

  /** `setScaled(m, v)`: resets all 16 slots, whatever `m` held, and returns `m`. */
  method SetScaled(m: array<real>, v: Vec) returns (r: array<real>)
    requires m.Length == 16 && !HasNaN(v)
    modifies m
    ensures r == m && m[..] == ScaleMatrix(v)
  {
    var scaled := ScaleMatrix(v);
    forall i | 0 <= i < 16 {
      m[i] := scaled[i];
    }
    r := m;
  }

  /** One of the four blocks of `multiply`: computes row `r` of `a * b` from
      the current row `r` of `a`, then writes it back. */
  method MultiplyRow(a: array<real>, b: array<real>, r: int)
    requires a.Length == 16 && b.Length == 16 && a != b && 0 <= r < 4
    modifies a
    ensures a[..] == old(a[..4 * r]) + RowTimes(old(a[4 * r..4 * r + 4]), b[..]) + old(a[4 * r + 4..])
  {
    var w, x, y, z := RowEntries(a, b, r);
    WriteRow(a, r, w, x, y, z);
  }

  /** The four sums of one block of `multiply`, read from row `r` of `a`
      and the columns of `b`: they are row `r` of `a * b`. */
  method RowEntries(a: array<real>, b: array<real>, r: int) returns (w: real, x: real, y: real, z: real)
    requires a.Length == 16 && b.Length == 16 && 0 <= r < 4
    ensures [w, x, y, z] == RowTimes(a[4 * r..4 * r + 4], b[..])
  {
    w := a[4 * r] * b[0] + a[4 * r + 1] * b[4] + a[4 * r + 2] * b[8] + a[4 * r + 3] * b[12];
    x := a[4 * r] * b[1] + a[4 * r + 1] * b[5] + a[4 * r + 2] * b[9] + a[4 * r + 3] * b[13];
    y := a[4 * r] * b[2] + a[4 * r + 1] * b[6] + a[4 * r + 2] * b[10] + a[4 * r + 3] * b[14];
    z := a[4 * r] * b[3] + a[4 * r + 1] * b[7] + a[4 * r + 2] * b[11] + a[4 * r + 3] * b[15];
    ghost var row, b0 := a[4 * r..4 * r + 4], b[..];
    assert row[0] == a[4 * r] && row[1] == a[4 * r + 1] && row[2] == a[4 * r + 2] && row[3] == a[4 * r + 3];
    assert RowTimes(row, b0)[0] == w && RowTimes(row, b0)[1] == x;
    assert RowTimes(row, b0)[2] == y && RowTimes(row, b0)[3] == z;
    FourEntries(RowTimes(row, b0), w, x, y, z);
  }

  /** A sequence of four is the display of its four entries. */
  lemma FourEntries(p: seq<real>, w: real, x: real, y: real, z: real)
    requires |p| == 4 && p[0] == w && p[1] == x && p[2] == y && p[3] == z
    ensures p == [w, x, y, z]
  {
  }

  /** The four stores that end each row of `multiply`. */
  method WriteRow(a: array<real>, r: int, w: real, x: real, y: real, z: real)
    requires a.Length == 16 && 0 <= r < 4
    modifies a
    ensures a[..] == old(a[..4 * r]) + [w, x, y, z] + old(a[4 * r + 4..])
  {
    a[4 * r] := w;
    a[4 * r + 1] := x;
    a[4 * r + 2] := y;
    a[4 * r + 3] := z;
    assert a[..] == old(a[..4 * r]) + [w, x, y, z] + old(a[4 * r + 4..]);
  }

  /** `multiply(a, b)`: overwrites `a` with `a * b`, row by row, and returns
      `a`. Each row of `b` is read again after rows of `a` were written, so
      the two arrays must be distinct. */
  method Multiply(a: array<real>, b: array<real>) returns (r: array<real>)
    requires a.Length == 16 && b.Length == 16 && a != b
    modifies a
    ensures r == a && a[..] == MatMul(old(a[..]), b[..])
  {
    ghost var a0, b0 := a[..], b[..];
    ghost var r0, r1 := RowTimes(a0[0..4], b0), RowTimes(a0[4..8], b0);
    ghost var r2, r3 := RowTimes(a0[8..12], b0), RowTimes(a0[12..16], b0);
    MultiplyRow(a, b, 0);
    assert a[..] == r0 + a0[4..];
    ghost var a1 := a[..];
    assert a1[..4] == r0 && a1[4..8] == a0[4..8] && a1[8..] == a0[8..];
    MultiplyRow(a, b, 1);
    assert a[..] == r0 + r1 + a0[8..];
    ghost var a2 := a[..];
    assert a2[..8] == r0 + r1 && a2[8..12] == a0[8..12] && a2[12..] == a0[12..];
    MultiplyRow(a, b, 2);
    assert a[..] == r0 + r1 + r2 + a0[12..];
    ghost var a3 := a[..];
    assert a3[..12] == r0 + r1 + r2 && a3[12..16] == a0[12..16] && a3[16..] == [];
    MultiplyRow(a, b, 3);
    r := a;
  }

  /** `rotateX(m, angle)`: `m := m * RotationX(angle)`; returns `m`. */
  method RotateX(math: HostMath, m: array<real>, angle: real) returns (r: array<real>)
    requires m.Length == 16
    modifies m
    ensures r == m && m[..] == MatMul(old(m[..]), RotationX(math, angle))
  {
    var rot := RotationX(math, angle);
    var b := new real[16](i requires 0 <= i < 16 => rot[i]);
    assert b[..] == rot;
    r := Multiply(m, b);
  }

  /** `rotateY(m, angle)`: `m := m * RotationY(angle)`; returns `m`. */
  method RotateY(math: HostMath, m: array<real>, angle: real) returns (r: array<real>)
    requires m.Length == 16
    modifies m
    ensures r == m && m[..] == MatMul(old(m[..]), RotationY(math, angle))
  {
    var rot := RotationY(math, angle);
    var b := new real[16](i requires 0 <= i < 16 => rot[i]);
    assert b[..] == rot;
    r := Multiply(m, b);
  }

  /** `rotateZ(m, angle)`: `m := m * RotationZ(angle)`; returns `m`. */
  method RotateZ(math: HostMath, m: array<real>, angle: real) returns (r: array<real>)
    requires m.Length == 16
    modifies m
    ensures r == m && m[..] == MatMul(old(m[..]), RotationZ(math, angle))
  {
    var rot := RotationZ(math, angle);
    var b := new real[16](i requires 0 <= i < 16 => rot[i]);
    assert b[..] == rot;
    r := Multiply(m, b);
  }

  /** `rotate(m, v)`: rotates about X, then Y, then Z, in place; returns `m`. */
  method Rotate(math: HostMath, m: array<real>, v: Vec) returns (r: array<real>)
    requires m.Length == 16 && !HasNaN(v)
    modifies m
    ensures r == m && m[..] == Rotated(math, old(m[..]), v)
  {
    r := RotateX(math, m, v.x.val);
    r := RotateY(math, m, v.y.val);
    r := RotateZ(math, m, v.z.val);
  }

  /** `translation(v)`: a new identity array with `v` written into slots 12 to 14. */
  method NewTranslation(v: Vec) returns (m: array<real>)
    requires !HasNaN(v)
    ensures fresh(m) && m[..] == Translation(v)
  {
    m := NewIdentity();
    m[12] := v.x.val;
    m[13] := v.y.val;
    m[14] := v.z.val;
  }

  /** `lookAt(m, eye, target, up)`: overwrites all 16 slots with the view matrix and returns `m`. */
  method LookAt(math: HostMath, m: array<real>, eye: Vec, target: Vec, up: Vec) returns (r: array<real>)
    requires m.Length == 16 && !HasNaN(eye) && !HasNaN(target) && !HasNaN(up)
    modifies m
    ensures r == m && m[..] == LookAtMatrix(math, eye, target, up)
  {
    var zAxis := Normalized(math, Diff(target, eye));
    var xAxis := Normalized(math, Cross(up, zAxis));
    var yAxis := Normalized(math, Cross(zAxis, xAxis));
    var ex := -Dot(xAxis, eye).val;
    var ey := -Dot(yAxis, eye).val;
    var ez := -Dot(zAxis, eye).val;
    var layout := [xAxis.x.val, yAxis.x.val, zAxis.x.val, 0.0,
                   xAxis.y.val, yAxis.y.val, zAxis.y.val, 0.0,
                   xAxis.z.val, yAxis.z.val, zAxis.z.val, 0.0,
                   ex, ey, ez, 1.0];
    forall i | 0 <= i < 16 {
      m[i] := layout[i];
    }
    assert m[..] == layout;
    r := m;
  }

  /** `perspectiveFovLH(m, fov, aspect, near, far)`: overwrites all 16 slots and returns `m`. */
  method PerspectiveFovLH(math: HostMath, m: array<real>, fov: real, aspect: real, near: real, far: real)
    returns (r: array<real>)
    requires m.Length == 16 && PerspectiveDefined(math, fov, aspect, near, far)
    modifies m
    ensures r == m && m[..] == Perspective(math, fov, aspect, near, far)
  {
    var tan := 1.0 / math.tan(fov * 0.5);
    var layout := [tan / aspect, 0.0, 0.0, 0.0,
                   0.0, tan, 0.0, 0.0,
                   0.0, 0.0, -far / (near - far), 1.0,
                   0.0, 0.0, (near * far) / (near - far), 0.0];
    forall i | 0 <= i < 16 {
      m[i] := layout[i];
    }
    assert m[..] == layout;
    r := m;
  }
}

/**
 Unit quaternions and rotation matrices over exact reals. Square roots are passed in: a parameter
 named `root` or `norm` is the non-negative root of the value given beside it.
 */
module Quaternion {

  datatype Quat = Quat(w: real, x: real, y: real, z: real)

  datatype Vector = Vector(x: real, y: real, z: real)

  datatype Matrix = Matrix(
    a00: real, a01: real, a02: real,
    a10: real, a11: real, a12: real,
    a20: real, a21: real, a22: real)

  const IDENTITY := Quat(1.0, 0.0, 0.0, 0.0)
  const DEGENERATE := 0.000000001

  // Scalar building blocks of the matrix entries.

  function Squares(a: real, b: real, c: real, d: real): real {
    a * a + b * b + c * c + d * d
  }

  function Short(a: real, b: real): real {
    1.0 - 2.0 * (a * a + b * b)
  }

  function Diag(a: real, b: real, c: real, d: real): real {
    a * a + b * b - c * c - d * d
  }

  function Plus(a: real, b: real, c: real, d: real): real {
    2.0 * (a * b + c * d)
  }

  function Minus(a: real, b: real, c: real, d: real): real {
    2.0 * (a * b - c * d)
  }

  function Half(a: real): real {
    0.5 * a
  }

  predicate IsRoot(root: real, value: real) {
    root >= 0.0 && root * root == value
  }

  function Dot(a: Quat, b: Quat): real {
    a.w * b.w + a.x * b.x + a.y * b.y + a.z * b.z
  }

  function NormSquared(q: Quat): real {
    Squares(q.w, q.x, q.y, q.z)
  }

  predicate Unit(q: Quat) {
    NormSquared(q) == 1.0
  }

  function Negated(q: Quat): Quat {
    Quat(-q.w, -q.x, -q.y, -q.z)
  }

  function Halved(q: Quat): Quat {
    Quat(Half(q.w), Half(q.x), Half(q.y), Half(q.z))
  }

  /** A unit quaternion with a non-negative scalar part; a degenerate one becomes the identity. */
  function Normalized(q: Quat, norm: real): Quat
    requires IsRoot(norm, NormSquared(q))
  {
    var n := if norm < DEGENERATE then IDENTITY else Quat(q.w / norm, q.x / norm, q.y / norm, q.z / norm);
    if n.w < 0.0 then Negated(n) else n
  }

  // The components of the Hamilton product of (w, x, y, z) and (u, p, q, r).

  function MulW(w: real, x: real, y: real, z: real, u: real, p: real, q: real, r: real): real {
    w * u - x * p - y * q - z * r
  }

  function MulX(w: real, x: real, y: real, z: real, u: real, p: real, q: real, r: real): real {
    w * p + x * u + y * r - z * q
  }

  function MulY(w: real, x: real, y: real, z: real, u: real, p: real, q: real, r: real): real {
    w * q - x * r + y * u + z * p
  }

  function MulZ(w: real, x: real, y: real, z: real, u: real, p: real, q: real, r: real): real {
    w * r + x * q - y * p + z * u
  }

  function Multiply(a: Quat, b: Quat): Quat {
    Quat(MulW(a.w, a.x, a.y, a.z, b.w, b.x, b.y, b.z),
         MulX(a.w, a.x, a.y, a.z, b.w, b.x, b.y, b.z),
         MulY(a.w, a.x, a.y, a.z, b.w, b.x, b.y, b.z),
         MulZ(a.w, a.x, a.y, a.z, b.w, b.x, b.y, b.z))
  }

  function Derivative(q: Quat, norm: real, omega: Vector): Quat
    requires IsRoot(norm, NormSquared(q))
  {
    Halved(Multiply(Normalized(q, norm), Quat(0.0, omega.x, omega.y, omega.z)))
  }

  /** The body-to-world rotation of a unit quaternion. */
  function RotationOf(q: Quat): Matrix {
    Matrix(Short(q.y, q.z), Minus(q.x, q.y, q.z, q.w), Plus(q.x, q.z, q.y, q.w),
           Plus(q.x, q.y, q.z, q.w), Short(q.x, q.z), Minus(q.y, q.z, q.x, q.w),
           Minus(q.x, q.z, q.y, q.w), Plus(q.y, q.z, q.x, q.w), Short(q.x, q.y))
  }

  function ToRotation(q: Quat, norm: real): Matrix
    requires IsRoot(norm, NormSquared(q))
  {
    RotationOf(Normalized(q, norm))
  }

  // ------------------------------------------------------- rotation to quaternion

  function Trace(m: Matrix): real {
    m.a00 + m.a11 + m.a22
  }

  /** Which component the conversion divides by: the scalar, or the first greatest diagonal entry's axis. */
  datatype Branch = Scalar | AxisX | AxisY | AxisZ

  function BranchOf(m: Matrix): Branch {
    if Trace(m) > 0.0 then Scalar
    else if m.a00 >= m.a11 && m.a00 >= m.a22 then AxisX
    else if m.a11 >= m.a22 then AxisY
    else AxisZ
  }

  /** What the conversion takes the square root of. */
  function Radicand(m: Matrix): real {
    match BranchOf(m)
    case Scalar => Trace(m) + 1.0
    case AxisX => 1.0 + m.a00 - m.a11 - m.a22
    case AxisY => 1.0 + m.a11 - m.a00 - m.a22
    case AxisZ => 1.0 + m.a22 - m.a00 - m.a11
  }

  /** The conversion before it normalises, for a matrix that is a rotation already. */
  function Extracted(m: Matrix, root: real): Quat
    requires root > 0.0
  {
    var s := root * 2.0;
    match BranchOf(m)
    case Scalar => Quat(0.25 * s, (m.a21 - m.a12) / s, (m.a02 - m.a20) / s, (m.a10 - m.a01) / s)
    case AxisX => Quat((m.a21 - m.a12) / s, 0.25 * s, (m.a01 + m.a10) / s, (m.a02 + m.a20) / s)
    case AxisY => Quat((m.a02 - m.a20) / s, (m.a01 + m.a10) / s, 0.25 * s, (m.a12 + m.a21) / s)
    case AxisZ => Quat((m.a10 - m.a01) / s, (m.a02 + m.a20) / s, (m.a12 + m.a21) / s, 0.25 * s)
  }

  function FromRotation(m: Matrix, root: real, norm: real): Quat
    requires root > 0.0 && IsRoot(norm, NormSquared(Extracted(m, root)))
  {
    Normalized(Extracted(m, root), norm)
  }

  // ------------------------------------------------------------------- round trip

  /** The component that a branch divides by. */
  function Pivot(q: Quat, b: Branch): real {
    match b
    case Scalar => q.w
    case AxisX => q.x
    case AxisY => q.y
    case AxisZ => q.z
  }

  /** The diagonal of a rotation in terms of the squares of the components. */
  predicate Diagonal(m: Matrix, ww: real, xx: real, yy: real, zz: real) {
    && m.a00 == 1.0 - 2.0 * (yy + zz) && m.a11 == 1.0 - 2.0 * (xx + zz) && m.a22 == 1.0 - 2.0 * (xx + yy)
    && ww + xx + yy + zz == 1.0
  }

  /** The sums and differences of the entries off the diagonal. */
  predicate OffDiagonal(m: Matrix, q: Quat) {
    && m.a21 - m.a12 == 4.0 * (q.w * q.x) && m.a02 - m.a20 == 4.0 * (q.w * q.y) && m.a10 - m.a01 == 4.0 * (q.w * q.z)
    && m.a01 + m.a10 == 4.0 * (q.x * q.y) && m.a02 + m.a20 == 4.0 * (q.x * q.z) && m.a12 + m.a21 == 4.0 * (q.y * q.z)
  }

  lemma RotationParts(q: Quat)
    requires Unit(q)
    ensures Diagonal(RotationOf(q), q.w * q.w, q.x * q.x, q.y * q.y, q.z * q.z)
    ensures OffDiagonal(RotationOf(q), q)
  {
    PlusMinus(q.y, q.z, q.x, q.w);
    PlusMinus(q.x, q.z, q.y, q.w);
    PlusMinus(q.x, q.y, q.z, q.w);
    hide Plus, Minus;
  }

  lemma PlusMinus(a: real, b: real, c: real, d: real)
    ensures Plus(a, b, c, d) - Minus(a, b, c, d) == 4.0 * (d * c)
    ensures Plus(a, b, c, d) + Minus(a, b, c, d) == 4.0 * (a * b)
  {
  }

  /** The branch always picks a component whose square is at least a quarter, and takes the root of four times it. */
  lemma PivotIsLarge(m: Matrix, ww: real, xx: real, yy: real, zz: real)
    requires Diagonal(m, ww, xx, yy, zz)
    ensures var square := match BranchOf(m) case Scalar => ww case AxisX => xx case AxisY => yy case AxisZ => zz;
            Radicand(m) == 4.0 * square && 4.0 * square >= 1.0
  {
  }

  lemma ZeroFactor(a: real, b: real)
    requires a * b == 0.0 && b > 0.0
    ensures a == 0.0
  {
  }

  /** The root is twice the size of the pivot, so the divisor is not zero. */
  lemma RootOfSquare(root: real, p: real)
    requires IsRoot(root, 4.0 * (p * p)) && 4.0 * (p * p) >= 1.0
    ensures p != 0.0 && root == if p > 0.0 then 2.0 * p else -2.0 * p
  {
    var d := if p > 0.0 then 2.0 * p else -2.0 * p;
    assert (root - d) * (root + d) == 0.0;
    ZeroFactor(root - d, root + d);
  }

  lemma Ratio(p: real, c: real, s: real, v: real)
    requires p != 0.0 && s == (if p > 0.0 then 4.0 * p else -4.0 * p) && v == 4.0 * (c * p)
    ensures v / s == if p > 0.0 then c else -c
  {
    if p > 0.0 {
      assert v == c * s;
    } else {
      assert v == (-c) * s;
    }
  }

  function Signed(q: Quat, p: real): Quat {
    if p > 0.0 then q else Negated(q)
  }

  lemma ExtractsScalar(m: Matrix, root: real, q: Quat)
    requires BranchOf(m) == Scalar && OffDiagonal(m, q) && root > 0.0 && q.w != 0.0
    requires root == if q.w > 0.0 then 2.0 * q.w else -2.0 * q.w
    ensures Extracted(m, root) == Signed(q, q.w)
  {
    Ratio(q.w, q.x, root * 2.0, m.a21 - m.a12);
    Ratio(q.w, q.y, root * 2.0, m.a02 - m.a20);
    Ratio(q.w, q.z, root * 2.0, m.a10 - m.a01);
  }

  lemma ExtractsAxisX(m: Matrix, root: real, q: Quat)
    requires BranchOf(m) == AxisX && OffDiagonal(m, q) && root > 0.0 && q.x != 0.0
    requires root == if q.x > 0.0 then 2.0 * q.x else -2.0 * q.x
    ensures Extracted(m, root) == Signed(q, q.x)
  {
    Ratio(q.x, q.w, root * 2.0, m.a21 - m.a12);
    Ratio(q.x, q.y, root * 2.0, m.a01 + m.a10);
    Ratio(q.x, q.z, root * 2.0, m.a02 + m.a20);
  }

  lemma ExtractsAxisY(m: Matrix, root: real, q: Quat)
    requires BranchOf(m) == AxisY && OffDiagonal(m, q) && root > 0.0 && q.y != 0.0
    requires root == if q.y > 0.0 then 2.0 * q.y else -2.0 * q.y
    ensures Extracted(m, root) == Signed(q, q.y)
  {
    Ratio(q.y, q.w, root * 2.0, m.a02 - m.a20);
    Ratio(q.y, q.x, root * 2.0, m.a01 + m.a10);
    Ratio(q.y, q.z, root * 2.0, m.a12 + m.a21);
  }

  lemma ExtractsAxisZ(m: Matrix, root: real, q: Quat)
    requires BranchOf(m) == AxisZ && OffDiagonal(m, q) && root > 0.0 && q.z != 0.0
    requires root == if q.z > 0.0 then 2.0 * q.z else -2.0 * q.z
    ensures Extracted(m, root) == Signed(q, q.z)
  {
    Ratio(q.z, q.w, root * 2.0, m.a10 - m.a01);
    Ratio(q.z, q.x, root * 2.0, m.a02 + m.a20);
    Ratio(q.z, q.y, root * 2.0, m.a12 + m.a21);
  }

  /**
   In each of the four branches the divisor is not zero, and the conversion of the rotation of a unit
   quaternion gives back that quaternion with the sign that makes the component it divides by positive.
   */
  lemma ExtractsUpToSign(q: Quat, root: real)
    requires Unit(q) && IsRoot(root, Radicand(RotationOf(q)))
    ensures var m := RotationOf(q);
            && root > 0.0 && Pivot(q, BranchOf(m)) != 0.0
            && Extracted(m, root) == Signed(q, Pivot(q, BranchOf(m)))
  {
    var m := RotationOf(q);
    RotationParts(q);
    hide RotationOf, Extracted, OffDiagonal, Signed;
    PivotIsLarge(m, q.w * q.w, q.x * q.x, q.y * q.y, q.z * q.z);
    hide Diagonal, Radicand;
    RootOfSquare(root, Pivot(q, BranchOf(m)));
    match BranchOf(m)
    case Scalar => ExtractsScalar(m, root, q);
    case AxisX => ExtractsAxisX(m, root, q);
    case AxisY => ExtractsAxisY(m, root, q);
    case AxisZ => ExtractsAxisZ(m, root, q);
  }

  /** Normalising a unit quaternion only makes its scalar part non-negative. */
  lemma NormalizesUnit(q: Quat, norm: real)
    requires Unit(q) && IsRoot(norm, NormSquared(q))
    ensures norm == 1.0 && Normalized(q, norm) == if q.w < 0.0 then Negated(q) else q
  {
    assert (norm - 1.0) * (norm + 1.0) == 0.0;
    ZeroFactor(norm - 1.0, norm + 1.0);
  }

  lemma NegationKeeps(q: Quat)
    ensures RotationOf(Negated(q)) == RotationOf(q) && NormSquared(Negated(q)) == NormSquared(q)
  {
    hide Short, Plus, Minus, Squares;
    SignsCancel(q.w, q.x, q.y, q.z);
    SignsCancel(q.x, q.y, q.z, q.w);
    SignsCancel(q.x, q.z, q.y, q.w);
    SignsCancel(q.y, q.z, q.x, q.w);
  }

  lemma SignsCancel(a: real, b: real, c: real, d: real)
    ensures Squares(-a, -b, -c, -d) == Squares(a, b, c, d) && Short(-a, -b) == Short(a, b)
    ensures Plus(-a, -b, -c, -d) == Plus(a, b, c, d) && Minus(-a, -b, -c, -d) == Minus(a, b, c, d)
  {
  }

  /**
   The round trip: converting the rotation of a unit quaternion gives that quaternion or its negation,
   whichever has a non-negative scalar part, and the same rotation again.
   */
  lemma RoundTrip(q: Quat, root: real, norm: real)
    requires Unit(q) && IsRoot(root, Radicand(RotationOf(q))) && root > 0.0
    requires IsRoot(norm, NormSquared(Extracted(RotationOf(q), root)))
    ensures var r := FromRotation(RotationOf(q), root, norm);
            && (r == q || r == Negated(q)) && r.w >= 0.0 && Unit(r) && RotationOf(r) == RotationOf(q)
  {
    ExtractsUpToSign(q, root);
    var x := Extracted(RotationOf(q), root);
    NegationKeeps(q);
    hide RotationOf, Extracted, Radicand;
    assert Unit(x);
    NormalizesUnit(x, norm);
    NegationKeeps(x);
    assert Negated(Negated(q)) == q;
  }

  // ----------------------------------------------------------------------- products

  function Times(a: real, b: real): real {
    a * b
  }

  lemma SquaresMultiply(w: real, x: real, y: real, z: real, u: real, p: real, q: real, r: real)
    ensures var W, X := w * u - x * p - y * q - z * r, w * p + x * u + y * r - z * q;
            var Y, Z := w * q - x * r + y * u + z * p, w * r + x * q - y * p + z * u;
            Squares(W, X, Y, Z) == Times(Squares(w, x, y, z), Squares(u, p, q, r))
  {
  }

  lemma SquaresOfProduct(w: real, x: real, y: real, z: real, u: real, p: real, q: real, r: real)
    ensures var W, X := MulW(w, x, y, z, u, p, q, r), MulX(w, x, y, z, u, p, q, r);
            var Y, Z := MulY(w, x, y, z, u, p, q, r), MulZ(w, x, y, z, u, p, q, r);
            Squares(W, X, Y, Z) == Times(Squares(w, x, y, z), Squares(u, p, q, r))
  {
    hide Squares, Times;
    SquaresMultiply(w, x, y, z, u, p, q, r);
  }

  /** The norm of a product is the product of the norms. */
  lemma ProductOfNorms(a: Quat, b: Quat)
    ensures NormSquared(Multiply(a, b)) == NormSquared(a) * NormSquared(b)
  {
    hide Squares, MulW, MulX, MulY, MulZ;
    SquaresOfProduct(a.w, a.x, a.y, a.z, b.w, b.x, b.y, b.z);
    assert Times(NormSquared(a), NormSquared(b)) == NormSquared(a) * NormSquared(b);
  }

  /** A row times a column. */
  function Row(a: real, b: real, c: real, x: real, y: real, z: real): real {
    a * x + b * y + c * z
  }

  function Product(m: Matrix, n: Matrix): Matrix {
    Matrix(Row(m.a00, m.a01, m.a02, n.a00, n.a10, n.a20),
           Row(m.a00, m.a01, m.a02, n.a01, n.a11, n.a21),
           Row(m.a00, m.a01, m.a02, n.a02, n.a12, n.a22),
           Row(m.a10, m.a11, m.a12, n.a00, n.a10, n.a20),
           Row(m.a10, m.a11, m.a12, n.a01, n.a11, n.a21),
           Row(m.a10, m.a11, m.a12, n.a02, n.a12, n.a22),
           Row(m.a20, m.a21, m.a22, n.a00, n.a10, n.a20),
           Row(m.a20, m.a21, m.a22, n.a01, n.a11, n.a21),
           Row(m.a20, m.a21, m.a22, n.a02, n.a12, n.a22))
  }

  /** The rotation without the use of the unit norm on the diagonal. */
  function Homogeneous(v: Quat): Matrix {
    Matrix(Diag(v.w, v.x, v.y, v.z), Minus(v.x, v.y, v.z, v.w), Plus(v.x, v.z, v.y, v.w),
           Plus(v.x, v.y, v.z, v.w), Diag(v.w, v.y, v.x, v.z), Minus(v.y, v.z, v.x, v.w),
           Minus(v.x, v.z, v.y, v.w), Plus(v.y, v.z, v.x, v.w), Diag(v.w, v.z, v.x, v.y))
  }

  lemma ShortForUnit(a: real, b: real, c: real, d: real)
    requires Squares(a, b, c, d) == 1.0
    ensures Short(c, d) == Diag(a, b, c, d)
  {
  }

  lemma SquaresSwap(a: real, b: real, c: real, d: real)
    ensures Squares(a, b, c, d) == Squares(a, c, b, d) == Squares(a, d, b, c)
  {
  }

  lemma HomogeneousForUnit(q: Quat)
    requires Unit(q)
    ensures RotationOf(q) == Homogeneous(q)
  {
    hide Short, Diag, Plus, Minus, Squares;
    SquaresSwap(q.w, q.x, q.y, q.z);
    ShortForUnit(q.w, q.x, q.y, q.z);
    ShortForUnit(q.w, q.y, q.x, q.z);
    ShortForUnit(q.w, q.z, q.x, q.y);
  }

  lemma PolynomialX0(w: real, x: real, y: real, z: real, u: real, p: real, q: real, r: real)
    ensures var W, X := w * u - x * p - y * q - z * r, w * p + x * u + y * r - z * q;
            var Y, Z := w * q - x * r + y * u + z * p, w * r + x * q - y * p + z * u;
            Diag(W, X, Y, Z) ==
               Row(Diag(w, x, y, z), Minus(x, y, z, w), Plus(x, z, y, w),
                   Diag(u, p, q, r), Plus(p, q, r, u), Minus(p, r, q, u))
  {
  }

  lemma PolynomialX1(w: real, x: real, y: real, z: real, u: real, p: real, q: real, r: real)
    ensures var W, X := w * u - x * p - y * q - z * r, w * p + x * u + y * r - z * q;
            var Y, Z := w * q - x * r + y * u + z * p, w * r + x * q - y * p + z * u;
            Minus(X, Y, Z, W) ==
               Row(Diag(w, x, y, z), Minus(x, y, z, w), Plus(x, z, y, w),
                   Minus(p, q, r, u), Diag(u, q, p, r), Plus(q, r, p, u))
  {
  }

  lemma PolynomialX2(w: real, x: real, y: real, z: real, u: real, p: real, q: real, r: real)
    ensures var W, X := w * u - x * p - y * q - z * r, w * p + x * u + y * r - z * q;
            var Y, Z := w * q - x * r + y * u + z * p, w * r + x * q - y * p + z * u;
            Plus(X, Z, Y, W) ==
               Row(Diag(w, x, y, z), Minus(x, y, z, w), Plus(x, z, y, w),
                   Plus(p, r, q, u), Minus(q, r, p, u), Diag(u, r, p, q))
  {
  }

  lemma RowX(w: real, x: real, y: real, z: real, u: real, p: real, q: real, r: real)
    ensures var W, X := MulW(w, x, y, z, u, p, q, r), MulX(w, x, y, z, u, p, q, r);
            var Y, Z := MulY(w, x, y, z, u, p, q, r), MulZ(w, x, y, z, u, p, q, r);
            && Diag(W, X, Y, Z) ==
               Row(Diag(w, x, y, z), Minus(x, y, z, w), Plus(x, z, y, w),
                   Diag(u, p, q, r), Plus(p, q, r, u), Minus(p, r, q, u))
            && Minus(X, Y, Z, W) ==
               Row(Diag(w, x, y, z), Minus(x, y, z, w), Plus(x, z, y, w),
                   Minus(p, q, r, u), Diag(u, q, p, r), Plus(q, r, p, u))
            && Plus(X, Z, Y, W) ==
               Row(Diag(w, x, y, z), Minus(x, y, z, w), Plus(x, z, y, w),
                   Plus(p, r, q, u), Minus(q, r, p, u), Diag(u, r, p, q))
  {
    hide Diag, Plus, Minus, Row;
    PolynomialX0(w, x, y, z, u, p, q, r);
    PolynomialX1(w, x, y, z, u, p, q, r);
    PolynomialX2(w, x, y, z, u, p, q, r);
  }

  lemma PolynomialY0(w: real, x: real, y: real, z: real, u: real, p: real, q: real, r: real)
    ensures var W, X := w * u - x * p - y * q - z * r, w * p + x * u + y * r - z * q;
            var Y, Z := w * q - x * r + y * u + z * p, w * r + x * q - y * p + z * u;
            Plus(X, Y, Z, W) ==
               Row(Plus(x, y, z, w), Diag(w, y, x, z), Minus(y, z, x, w),
                   Diag(u, p, q, r), Plus(p, q, r, u), Minus(p, r, q, u))
  {
  }

  lemma PolynomialY1(w: real, x: real, y: real, z: real, u: real, p: real, q: real, r: real)
    ensures var W, X := w * u - x * p - y * q - z * r, w * p + x * u + y * r - z * q;
            var Y, Z := w * q - x * r + y * u + z * p, w * r + x * q - y * p + z * u;
            Diag(W, Y, X, Z) ==
               Row(Plus(x, y, z, w), Diag(w, y, x, z), Minus(y, z, x, w),
                   Minus(p, q, r, u), Diag(u, q, p, r), Plus(q, r, p, u))
  {
  }

  lemma PolynomialY2(w: real, x: real, y: real, z: real, u: real, p: real, q: real, r: real)
    ensures var W, X := w * u - x * p - y * q - z * r, w * p + x * u + y * r - z * q;
            var Y, Z := w * q - x * r + y * u + z * p, w * r + x * q - y * p + z * u;
            Minus(Y, Z, X, W) ==
               Row(Plus(x, y, z, w), Diag(w, y, x, z), Minus(y, z, x, w),
                   Plus(p, r, q, u), Minus(q, r, p, u), Diag(u, r, p, q))
  {
  }

  lemma RowY(w: real, x: real, y: real, z: real, u: real, p: real, q: real, r: real)
    ensures var W, X := MulW(w, x, y, z, u, p, q, r), MulX(w, x, y, z, u, p, q, r);
            var Y, Z := MulY(w, x, y, z, u, p, q, r), MulZ(w, x, y, z, u, p, q, r);
            && Plus(X, Y, Z, W) ==
               Row(Plus(x, y, z, w), Diag(w, y, x, z), Minus(y, z, x, w),
                   Diag(u, p, q, r), Plus(p, q, r, u), Minus(p, r, q, u))
            && Diag(W, Y, X, Z) ==
               Row(Plus(x, y, z, w), Diag(w, y, x, z), Minus(y, z, x, w),
                   Minus(p, q, r, u), Diag(u, q, p, r), Plus(q, r, p, u))
            && Minus(Y, Z, X, W) ==
               Row(Plus(x, y, z, w), Diag(w, y, x, z), Minus(y, z, x, w),
                   Plus(p, r, q, u), Minus(q, r, p, u), Diag(u, r, p, q))
  {
    hide Diag, Plus, Minus, Row;
    PolynomialY0(w, x, y, z, u, p, q, r);
    PolynomialY1(w, x, y, z, u, p, q, r);
    PolynomialY2(w, x, y, z, u, p, q, r);
  }

  lemma PolynomialZ0(w: real, x: real, y: real, z: real, u: real, p: real, q: real, r: real)
    ensures var W, X := w * u - x * p - y * q - z * r, w * p + x * u + y * r - z * q;
            var Y, Z := w * q - x * r + y * u + z * p, w * r + x * q - y * p + z * u;
            Minus(X, Z, Y, W) ==
               Row(Minus(x, z, y, w), Plus(y, z, x, w), Diag(w, z, x, y),
                   Diag(u, p, q, r), Plus(p, q, r, u), Minus(p, r, q, u))
  {
  }

  lemma PolynomialZ1(w: real, x: real, y: real, z: real, u: real, p: real, q: real, r: real)
    ensures var W, X := w * u - x * p - y * q - z * r, w * p + x * u + y * r - z * q;
            var Y, Z := w * q - x * r + y * u + z * p, w * r + x * q - y * p + z * u;
            Plus(Y, Z, X, W) ==
               Row(Minus(x, z, y, w), Plus(y, z, x, w), Diag(w, z, x, y),
                   Minus(p, q, r, u), Diag(u, q, p, r), Plus(q, r, p, u))
  {
  }

  lemma PolynomialZ2(w: real, x: real, y: real, z: real, u: real, p: real, q: real, r: real)
    ensures var W, X := w * u - x * p - y * q - z * r, w * p + x * u + y * r - z * q;
            var Y, Z := w * q - x * r + y * u + z * p, w * r + x * q - y * p + z * u;
            Diag(W, Z, X, Y) ==
               Row(Minus(x, z, y, w), Plus(y, z, x, w), Diag(w, z, x, y),
                   Plus(p, r, q, u), Minus(q, r, p, u), Diag(u, r, p, q))
  {
  }

  lemma RowZ(w: real, x: real, y: real, z: real, u: real, p: real, q: real, r: real)
    ensures var W, X := MulW(w, x, y, z, u, p, q, r), MulX(w, x, y, z, u, p, q, r);
            var Y, Z := MulY(w, x, y, z, u, p, q, r), MulZ(w, x, y, z, u, p, q, r);
            && Minus(X, Z, Y, W) ==
               Row(Minus(x, z, y, w), Plus(y, z, x, w), Diag(w, z, x, y),
                   Diag(u, p, q, r), Plus(p, q, r, u), Minus(p, r, q, u))
            && Plus(Y, Z, X, W) ==
               Row(Minus(x, z, y, w), Plus(y, z, x, w), Diag(w, z, x, y),
                   Minus(p, q, r, u), Diag(u, q, p, r), Plus(q, r, p, u))
            && Diag(W, Z, X, Y) ==
               Row(Minus(x, z, y, w), Plus(y, z, x, w), Diag(w, z, x, y),
                   Plus(p, r, q, u), Minus(q, r, p, u), Diag(u, r, p, q))
  {
    hide Diag, Plus, Minus, Row;
    PolynomialZ0(w, x, y, z, u, p, q, r);
    PolynomialZ1(w, x, y, z, u, p, q, r);
    PolynomialZ2(w, x, y, z, u, p, q, r);
  }

  lemma RowXMultiplies(a: Quat, b: Quat)
    ensures var h, p := Homogeneous(Multiply(a, b)), Product(Homogeneous(a), Homogeneous(b));
            h.a00 == p.a00 && h.a01 == p.a01 && h.a02 == p.a02
  {
    hide Diag, Plus, Minus, Row, MulW, MulX, MulY, MulZ;
    RowX(a.w, a.x, a.y, a.z, b.w, b.x, b.y, b.z);
  }

  lemma RowYMultiplies(a: Quat, b: Quat)
    ensures var h, p := Homogeneous(Multiply(a, b)), Product(Homogeneous(a), Homogeneous(b));
            h.a10 == p.a10 && h.a11 == p.a11 && h.a12 == p.a12
  {
    hide Diag, Plus, Minus, Row, MulW, MulX, MulY, MulZ;
    RowY(a.w, a.x, a.y, a.z, b.w, b.x, b.y, b.z);
  }

  lemma RowZMultiplies(a: Quat, b: Quat)
    ensures var h, p := Homogeneous(Multiply(a, b)), Product(Homogeneous(a), Homogeneous(b));
            h.a20 == p.a20 && h.a21 == p.a21 && h.a22 == p.a22
  {
    hide Diag, Plus, Minus, Row, MulW, MulX, MulY, MulZ;
    RowZ(a.w, a.x, a.y, a.z, b.w, b.x, b.y, b.z);
  }

  /** The rotation of a product of unit quaternions is the product of their rotations. */
  lemma ProductOfRotations(a: Quat, b: Quat)
    requires Unit(a) && Unit(b)
    ensures Unit(Multiply(a, b)) && RotationOf(Multiply(a, b)) == Product(RotationOf(a), RotationOf(b))
  {
    ProductOfNorms(a, b);
    HomogeneousForUnit(a);
    HomogeneousForUnit(b);
    hide RotationOf, Homogeneous, Product, Multiply, Squares;
    assert Unit(Multiply(a, b));
    HomogeneousForUnit(Multiply(a, b));
    RowXMultiplies(a, b);
    RowYMultiplies(a, b);
    RowZMultiplies(a, b);
  }

  // --------------------------------------------------------------------- kinematics

  lemma OrthogonalParts(w: real, x: real, y: real, z: real, p: real, q: real, r: real)
    ensures var W, X := 0.5 * (w * 0.0 - x * p - y * q - z * r), 0.5 * (w * p + x * 0.0 + y * r - z * q);
            var Y, Z := 0.5 * (w * q - x * r + y * 0.0 + z * p), 0.5 * (w * r + x * q - y * p + z * 0.0);
            Dot(Quat(w, x, y, z), Quat(W, X, Y, Z)) == 0.0
  {
  }

  /** The derivative of a quaternion is orthogonal to the unit quaternion it is taken at, so the norm is kept. */
  lemma DerivativeIsOrthogonal(q: Quat, norm: real, omega: Vector)
    requires IsRoot(norm, NormSquared(q))
    ensures Dot(Normalized(q, norm), Derivative(q, norm, omega)) == 0.0
  {
    var n := Normalized(q, norm);
    hide Dot, Normalized;
    OrthogonalParts(n.w, n.x, n.y, n.z, omega.x, omega.y, omega.z);
    assert Quat(n.w, n.x, n.y, n.z) == n;
  }

  function Skew(omega: Vector): Matrix {
    Matrix(0.0, -omega.z, omega.y, omega.z, 0.0, -omega.x, -omega.y, omega.x, 0.0)
  }

  // The derivatives of the building blocks by the product rule.

  function ShortAlong(a: real, b: real, da: real, db: real): real {
    -4.0 * (a * da + b * db)
  }

  function PlusAlong(a: real, b: real, c: real, d: real, da: real, db: real, dc: real, dd: real): real {
    2.0 * (da * b + a * db + dc * d + c * dd)
  }

  function MinusAlong(a: real, b: real, c: real, d: real, da: real, db: real, dc: real, dd: real): real {
    2.0 * (da * b + a * db - dc * d - c * dd)
  }

  /** The derivative of the rotation along d: see RotationExpands. */
  function RotationAlong(q: Quat, d: Quat): Matrix {
    Matrix(ShortAlong(q.y, q.z, d.y, d.z),
           MinusAlong(q.x, q.y, q.z, q.w, d.x, d.y, d.z, d.w),
           PlusAlong(q.x, q.z, q.y, q.w, d.x, d.z, d.y, d.w),
           PlusAlong(q.x, q.y, q.z, q.w, d.x, d.y, d.z, d.w),
           ShortAlong(q.x, q.z, d.x, d.z),
           MinusAlong(q.y, q.z, q.x, q.w, d.y, d.z, d.x, d.w),
           MinusAlong(q.x, q.z, q.y, q.w, d.x, d.z, d.y, d.w),
           PlusAlong(q.y, q.z, q.x, q.w, d.y, d.z, d.x, d.w),
           ShortAlong(q.x, q.y, d.x, d.y))
  }

  function ShortSquared(da: real, db: real): real {
    -2.0 * (da * da + db * db)
  }

  function Step(a: real, da: real, h: real): real {
    a + h * da
  }

  function Expansion(value: real, first: real, second: real, h: real): real {
    value + h * first + h * h * second
  }

  lemma ShortExpands(a: real, b: real, da: real, db: real, h: real)
    ensures Short(Step(a, da, h), Step(b, db, h)) ==
            Expansion(Short(a, b), ShortAlong(a, b, da, db), ShortSquared(da, db), h)
  {
  }

  lemma PlusExpands(a: real, b: real, c: real, d: real, da: real, db: real, dc: real, dd: real, h: real)
    ensures Plus(Step(a, da, h), Step(b, db, h), Step(c, dc, h), Step(d, dd, h)) ==
            Expansion(Plus(a, b, c, d), PlusAlong(a, b, c, d, da, db, dc, dd), Plus(da, db, dc, dd), h)
  {
  }

  lemma MinusExpands(a: real, b: real, c: real, d: real, da: real, db: real, dc: real, dd: real, h: real)
    ensures Minus(Step(a, da, h), Step(b, db, h), Step(c, dc, h), Step(d, dd, h)) ==
            Expansion(Minus(a, b, c, d), MinusAlong(a, b, c, d, da, db, dc, dd), Minus(da, db, dc, dd), h)
  {
  }

  function Moved(q: Quat, d: Quat, h: real): Quat {
    Quat(Step(q.w, d.w, h), Step(q.x, d.x, h), Step(q.y, d.y, h), Step(q.z, d.z, h))
  }

  /** The part of the rotation that is quadratic in the components. */
  function Quadratic(d: Quat): Matrix {
    Matrix(ShortSquared(d.y, d.z), Minus(d.x, d.y, d.z, d.w), Plus(d.x, d.z, d.y, d.w),
           Plus(d.x, d.y, d.z, d.w), ShortSquared(d.x, d.z), Minus(d.y, d.z, d.x, d.w),
           Minus(d.x, d.z, d.y, d.w), Plus(d.y, d.z, d.x, d.w), ShortSquared(d.x, d.y))
  }

  function Expanded(m: Matrix, first: Matrix, second: Matrix, h: real): Matrix {
    Matrix(Expansion(m.a00, first.a00, second.a00, h), Expansion(m.a01, first.a01, second.a01, h),
           Expansion(m.a02, first.a02, second.a02, h), Expansion(m.a10, first.a10, second.a10, h),
           Expansion(m.a11, first.a11, second.a11, h), Expansion(m.a12, first.a12, second.a12, h),
           Expansion(m.a20, first.a20, second.a20, h), Expansion(m.a21, first.a21, second.a21, h),
           Expansion(m.a22, first.a22, second.a22, h))
  }

  /** Moving a quaternion by h along d changes its rotation by h times the derivative, and a remainder in h squared. */
  lemma RotationExpands(q: Quat, d: Quat, h: real)
    ensures RotationOf(Moved(q, d, h)) == Expanded(RotationOf(q), RotationAlong(q, d), Quadratic(d), h)
  {
    hide Short, Plus, Minus, Expansion, ShortAlong, PlusAlong, MinusAlong, ShortSquared, Step;
    ShortExpands(q.y, q.z, d.y, d.z, h);
    ShortExpands(q.x, q.z, d.x, d.z, h);
    ShortExpands(q.x, q.y, d.x, d.y, h);
    PlusExpands(q.x, q.z, q.y, q.w, d.x, d.z, d.y, d.w, h);
    PlusExpands(q.x, q.y, q.z, q.w, d.x, d.y, d.z, d.w, h);
    PlusExpands(q.y, q.z, q.x, q.w, d.y, d.z, d.x, d.w, h);
    MinusExpands(q.x, q.y, q.z, q.w, d.x, d.y, d.z, d.w, h);
    MinusExpands(q.y, q.z, q.x, q.w, d.y, d.z, d.x, d.w, h);
    MinusExpands(q.x, q.z, q.y, q.w, d.x, d.z, d.y, d.w, h);
  }

  lemma RatesX(w: real, x: real, y: real, z: real, p: real, q: real, r: real)
    ensures var W, X := 0.5 * (w * 0.0 - x * p - y * q - z * r), 0.5 * (w * p + x * 0.0 + y * r - z * q);
            var Y, Z := 0.5 * (w * q - x * r + y * 0.0 + z * p), 0.5 * (w * r + x * q - y * p + z * 0.0);
            && ShortAlong(y, z, Y, Z) ==
               Row(Diag(w, x, y, z), Minus(x, y, z, w), Plus(x, z, y, w), 0.0, r, -q)
            && MinusAlong(x, y, z, w, X, Y, Z, W) ==
               Row(Diag(w, x, y, z), Minus(x, y, z, w), Plus(x, z, y, w), -r, 0.0, p)
            && PlusAlong(x, z, y, w, X, Z, Y, W) ==
               Row(Diag(w, x, y, z), Minus(x, y, z, w), Plus(x, z, y, w), q, -p, 0.0)
  {
  }

  lemma KinematicsX(w: real, x: real, y: real, z: real, p: real, q: real, r: real)
    ensures var W, X := Half(MulW(w, x, y, z, 0.0, p, q, r)), Half(MulX(w, x, y, z, 0.0, p, q, r));
            var Y, Z := Half(MulY(w, x, y, z, 0.0, p, q, r)), Half(MulZ(w, x, y, z, 0.0, p, q, r));
            && ShortAlong(y, z, Y, Z) ==
               Row(Diag(w, x, y, z), Minus(x, y, z, w), Plus(x, z, y, w), 0.0, r, -q)
            && MinusAlong(x, y, z, w, X, Y, Z, W) ==
               Row(Diag(w, x, y, z), Minus(x, y, z, w), Plus(x, z, y, w), -r, 0.0, p)
            && PlusAlong(x, z, y, w, X, Z, Y, W) ==
               Row(Diag(w, x, y, z), Minus(x, y, z, w), Plus(x, z, y, w), q, -p, 0.0)
  {
    hide ShortAlong, PlusAlong, MinusAlong, Row, Diag, Plus, Minus;
    RatesX(w, x, y, z, p, q, r);
  }

  lemma RatesY(w: real, x: real, y: real, z: real, p: real, q: real, r: real)
    ensures var W, X := 0.5 * (w * 0.0 - x * p - y * q - z * r), 0.5 * (w * p + x * 0.0 + y * r - z * q);
            var Y, Z := 0.5 * (w * q - x * r + y * 0.0 + z * p), 0.5 * (w * r + x * q - y * p + z * 0.0);
            && PlusAlong(x, y, z, w, X, Y, Z, W) ==
               Row(Plus(x, y, z, w), Diag(w, y, x, z), Minus(y, z, x, w), 0.0, r, -q)
            && ShortAlong(x, z, X, Z) ==
               Row(Plus(x, y, z, w), Diag(w, y, x, z), Minus(y, z, x, w), -r, 0.0, p)
            && MinusAlong(y, z, x, w, Y, Z, X, W) ==
               Row(Plus(x, y, z, w), Diag(w, y, x, z), Minus(y, z, x, w), q, -p, 0.0)
  {
  }

  lemma KinematicsY(w: real, x: real, y: real, z: real, p: real, q: real, r: real)
    ensures var W, X := Half(MulW(w, x, y, z, 0.0, p, q, r)), Half(MulX(w, x, y, z, 0.0, p, q, r));
            var Y, Z := Half(MulY(w, x, y, z, 0.0, p, q, r)), Half(MulZ(w, x, y, z, 0.0, p, q, r));
            && PlusAlong(x, y, z, w, X, Y, Z, W) ==
               Row(Plus(x, y, z, w), Diag(w, y, x, z), Minus(y, z, x, w), 0.0, r, -q)
            && ShortAlong(x, z, X, Z) ==
               Row(Plus(x, y, z, w), Diag(w, y, x, z), Minus(y, z, x, w), -r, 0.0, p)
            && MinusAlong(y, z, x, w, Y, Z, X, W) ==
               Row(Plus(x, y, z, w), Diag(w, y, x, z), Minus(y, z, x, w), q, -p, 0.0)
  {
    hide ShortAlong, PlusAlong, MinusAlong, Row, Diag, Plus, Minus;
    RatesY(w, x, y, z, p, q, r);
  }

  lemma RatesZ(w: real, x: real, y: real, z: real, p: real, q: real, r: real)
    ensures var W, X := 0.5 * (w * 0.0 - x * p - y * q - z * r), 0.5 * (w * p + x * 0.0 + y * r - z * q);
            var Y, Z := 0.5 * (w * q - x * r + y * 0.0 + z * p), 0.5 * (w * r + x * q - y * p + z * 0.0);
            && MinusAlong(x, z, y, w, X, Z, Y, W) ==
               Row(Minus(x, z, y, w), Plus(y, z, x, w), Diag(w, z, x, y), 0.0, r, -q)
            && PlusAlong(y, z, x, w, Y, Z, X, W) ==
               Row(Minus(x, z, y, w), Plus(y, z, x, w), Diag(w, z, x, y), -r, 0.0, p)
            && ShortAlong(x, y, X, Y) ==
               Row(Minus(x, z, y, w), Plus(y, z, x, w), Diag(w, z, x, y), q, -p, 0.0)
  {
  }

  lemma KinematicsZ(w: real, x: real, y: real, z: real, p: real, q: real, r: real)
    ensures var W, X := Half(MulW(w, x, y, z, 0.0, p, q, r)), Half(MulX(w, x, y, z, 0.0, p, q, r));
            var Y, Z := Half(MulY(w, x, y, z, 0.0, p, q, r)), Half(MulZ(w, x, y, z, 0.0, p, q, r));
            && MinusAlong(x, z, y, w, X, Z, Y, W) ==
               Row(Minus(x, z, y, w), Plus(y, z, x, w), Diag(w, z, x, y), 0.0, r, -q)
            && PlusAlong(y, z, x, w, Y, Z, X, W) ==
               Row(Minus(x, z, y, w), Plus(y, z, x, w), Diag(w, z, x, y), -r, 0.0, p)
            && ShortAlong(x, y, X, Y) ==
               Row(Minus(x, z, y, w), Plus(y, z, x, w), Diag(w, z, x, y), q, -p, 0.0)
  {
    hide ShortAlong, PlusAlong, MinusAlong, Row, Diag, Plus, Minus;
    RatesZ(w, x, y, z, p, q, r);
  }

  /** Along the derivative of a unit quaternion the rotation changes by itself times the skew matrix of omega. */
  lemma KinematicsMatch(q: Quat, omega: Vector)
    requires Unit(q)
    ensures RotationAlong(q, Halved(Multiply(q, Quat(0.0, omega.x, omega.y, omega.z)))) ==
            Product(RotationOf(q), Skew(omega))
  {
    HomogeneousForUnit(q);
    hide ShortAlong, PlusAlong, MinusAlong, Row, Diag, Plus, Minus, Short, Half, MulW, MulX, MulY, MulZ, RotationOf;
    KinematicsX(q.w, q.x, q.y, q.z, omega.x, omega.y, omega.z);
    KinematicsY(q.w, q.x, q.y, q.z, omega.x, omega.y, omega.z);
    KinematicsZ(q.w, q.x, q.y, q.z, omega.x, omega.y, omega.z);
  }
}

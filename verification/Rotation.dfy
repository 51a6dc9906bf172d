/**
 The conversion of rotation matrices in the other direction: every rotation matrix is the rotation of
 the quaternion that the conversion extracts from it, and unit quaternions give nothing else.
 */
module Rotation {
  import opened Quaternion

  // ------------------------------------------------------------ rotation matrices

  function Inner(u: Vector, v: Vector): real {
    u.x * v.x + u.y * v.y + u.z * v.z
  }

  function Minor(a: real, b: real, c: real, d: real): real {
    a * b - c * d
  }

  function Cross(u: Vector, v: Vector): Vector {
    Vector(Minor(u.y, v.z, u.z, v.y), Minor(u.z, v.x, u.x, v.z), Minor(u.x, v.y, u.y, v.x))
  }

  function Row0(m: Matrix): Vector { Vector(m.a00, m.a01, m.a02) }
  function Row1(m: Matrix): Vector { Vector(m.a10, m.a11, m.a12) }
  function Row2(m: Matrix): Vector { Vector(m.a20, m.a21, m.a22) }

  function Determinant(m: Matrix): real {
    Inner(Cross(Row0(m), Row1(m)), Row2(m))
  }

  predicate Orthonormal(u: Vector, v: Vector, w: Vector) {
    && Inner(u, u) == 1.0 && Inner(v, v) == 1.0 && Inner(w, w) == 1.0
    && Inner(u, v) == 0.0 && Inner(v, w) == 0.0 && Inner(w, u) == 0.0
  }

  /** The rows are unit vectors at right angles, and the determinant is one. */
  predicate IsRotation(m: Matrix) {
    Orthonormal(Row0(m), Row1(m), Row2(m)) && Determinant(m) == 1.0
  }

  // --------------------------------------------------------- what a rotation keeps

  lemma Square(a: real)
    ensures a * a >= 0.0 && (a * a == 0.0 ==> a == 0.0)
  {
    if a > 0.0 && a * a == 0.0 {
      ZeroFactor(a, a);
    } else if a < 0.0 && (-a) * (-a) == 0.0 {
      ZeroFactor(-a, -a);
    }
  }

  lemma Vanishes(u: Vector)
    requires Inner(u, u) == 0.0
    ensures u == Vector(0.0, 0.0, 0.0)
  {
    Square(u.x);
    Square(u.y);
    Square(u.z);
  }

  function Less(u: Vector, v: Vector): Vector {
    Vector(u.x - v.x, u.y - v.y, u.z - v.z)
  }

  lemma Lagrange(u: Vector, v: Vector)
    ensures Inner(Cross(u, v), Cross(u, v)) == Inner(u, u) * Inner(v, v) - Inner(u, v) * Inner(u, v)
  {
  }

  lemma Distance(c: Vector, w: Vector)
    ensures Inner(Less(c, w), Less(c, w)) == Inner(c, c) - 2.0 * Inner(c, w) + Inner(w, w)
  {
  }

  /** Of three unit vectors at right angles that are right-handed, the third is the cross product of the others. */
  lemma CrossIsThird(u: Vector, v: Vector, w: Vector)
    requires Orthonormal(u, v, w) && Inner(Cross(u, v), w) == 1.0
    ensures Cross(u, v) == w
  {
    hide Inner, Cross, Less;
    var c := Cross(u, v);
    Lagrange(u, v);
    Distance(c, w);
    Vanishes(Less(c, w));
    Apart(c, w);
  }

  lemma Apart(u: Vector, v: Vector)
    requires Less(u, v) == Vector(0.0, 0.0, 0.0)
    ensures u == v
  {
  }

  lemma Cyclic(u: Vector, v: Vector, w: Vector)
    ensures Inner(Cross(u, v), w) == Inner(Cross(v, w), u) == Inner(Cross(w, u), v)
  {
  }

  /** Every entry of a rotation is its own cofactor. */
  predicate OwnCofactors(m: Matrix) {
    Cross(Row0(m), Row1(m)) == Row2(m) && Cross(Row1(m), Row2(m)) == Row0(m) && Cross(Row2(m), Row0(m)) == Row1(m)
  }

  lemma RotationIsOwnCofactors(m: Matrix)
    requires IsRotation(m)
    ensures OwnCofactors(m)
  {
    var u, v, w := Row0(m), Row1(m), Row2(m);
    Cyclic(u, v, w);
    hide Inner, Cross;
    CrossIsThird(u, v, w);
    CrossIsThird(v, w, u);
    CrossIsThird(w, u, v);
  }

  function Column0(m: Matrix): Vector { Vector(m.a00, m.a10, m.a20) }
  function Column1(m: Matrix): Vector { Vector(m.a01, m.a11, m.a21) }
  function Column2(m: Matrix): Vector { Vector(m.a02, m.a12, m.a22) }

  /** The cofactors of the three columns, by the rows they come from. */
  function Cofactors0(u: Vector, v: Vector, w: Vector): Vector { Vector(Cross(v, w).x, Cross(w, u).x, Cross(u, v).x) }
  function Cofactors1(u: Vector, v: Vector, w: Vector): Vector { Vector(Cross(v, w).y, Cross(w, u).y, Cross(u, v).y) }
  function Cofactors2(u: Vector, v: Vector, w: Vector): Vector { Vector(Cross(v, w).z, Cross(w, u).z, Cross(u, v).z) }

  // Laplace's expansion along each column, and along one column with the cofactors of the next.

  lemma Laplace0(a: real, b: real, c: real, d: real, e: real, f: real, g: real, h: real, i: real)
    ensures a * Minor(e, i, f, h) + d * Minor(h, c, i, b) + g * Minor(b, f, c, e) ==
            Minor(b, f, c, e) * g + Minor(c, d, a, f) * h + Minor(a, e, b, d) * i
    ensures a * Minor(f, g, d, i) + d * Minor(i, a, g, c) + g * Minor(c, d, a, f) == 0.0
  {
  }

  lemma Laplace1(a: real, b: real, c: real, d: real, e: real, f: real, g: real, h: real, i: real)
    ensures b * Minor(f, g, d, i) + e * Minor(i, a, g, c) + h * Minor(c, d, a, f) ==
            Minor(b, f, c, e) * g + Minor(c, d, a, f) * h + Minor(a, e, b, d) * i
    ensures b * Minor(d, h, e, g) + e * Minor(g, b, h, a) + h * Minor(a, e, b, d) == 0.0
  {
  }

  lemma Laplace2(a: real, b: real, c: real, d: real, e: real, f: real, g: real, h: real, i: real)
    ensures c * Minor(d, h, e, g) + f * Minor(g, b, h, a) + i * Minor(a, e, b, d) ==
            Minor(b, f, c, e) * g + Minor(c, d, a, f) * h + Minor(a, e, b, d) * i
    ensures c * Minor(e, i, f, h) + f * Minor(h, c, i, b) + i * Minor(b, f, c, e) == 0.0
  {
  }

  lemma ExpandsColumns(u: Vector, v: Vector, w: Vector)
    ensures var determinant := Inner(Cross(u, v), w);
            && Inner(Vector(u.x, v.x, w.x), Cofactors0(u, v, w)) == determinant
            && Inner(Vector(u.y, v.y, w.y), Cofactors1(u, v, w)) == determinant
            && Inner(Vector(u.z, v.z, w.z), Cofactors2(u, v, w)) == determinant
    ensures Inner(Vector(u.x, v.x, w.x), Cofactors1(u, v, w)) == 0.0
    ensures Inner(Vector(u.y, v.y, w.y), Cofactors2(u, v, w)) == 0.0
    ensures Inner(Vector(u.z, v.z, w.z), Cofactors0(u, v, w)) == 0.0
  {
    hide Minor;
    Laplace0(u.x, u.y, u.z, v.x, v.y, v.z, w.x, w.y, w.z);
    Laplace1(u.x, u.y, u.z, v.x, v.y, v.z, w.x, w.y, w.z);
    Laplace2(u.x, u.y, u.z, v.x, v.y, v.z, w.x, w.y, w.z);
  }

  /** The columns are orthonormal as well. */
  lemma ColumnsAreOrthonormal(m: Matrix)
    requires IsRotation(m)
    ensures Orthonormal(Column0(m), Column1(m), Column2(m))
  {
    var u, v, w := Row0(m), Row1(m), Row2(m);
    hide Inner, Cross;
    RotationIsOwnCofactors(m);
    ExpandsColumns(u, v, w);
  }

  // ------------------------------------------------------------- the ten products

  function Four(a: real, b: real): real {
    4.0 * (a * b)
  }

  /** Four times the products of the components of the quaternion that a matrix stands for. */
  predicate Products(m: Matrix, q: Quat) {
    && Four(q.w, q.w) == 1.0 + m.a00 + m.a11 + m.a22 && Four(q.x, q.x) == 1.0 + m.a00 - m.a11 - m.a22
    && Four(q.y, q.y) == 1.0 - m.a00 + m.a11 - m.a22 && Four(q.z, q.z) == 1.0 - m.a00 - m.a11 + m.a22
    && Four(q.w, q.x) == m.a21 - m.a12 && Four(q.w, q.y) == m.a02 - m.a20 && Four(q.w, q.z) == m.a10 - m.a01
    && Four(q.x, q.y) == m.a01 + m.a10 && Four(q.x, q.z) == m.a02 + m.a20 && Four(q.y, q.z) == m.a12 + m.a21
  }

  lemma ProductsGiveRotation(m: Matrix, q: Quat)
    requires Products(m, q)
    ensures Unit(q) && RotationOf(q) == m
  {
    PlusMinus(q.y, q.z, q.x, q.w);
    PlusMinus(q.x, q.z, q.y, q.w);
    PlusMinus(q.x, q.y, q.z, q.w);
    hide Plus, Minus;
  }

  /**
   The numerators x, y and z that go with the pivot r: their squares, and their products with each other,
   are r times the other products.
   */
  predicate SquaresMatch(m: Matrix, r: real, x: real, y: real, z: real) {
    && Times(x, x) == Times(r, 1.0 + m.a00 - m.a11 - m.a22)
    && Times(y, y) == Times(r, 1.0 - m.a00 + m.a11 - m.a22)
    && Times(z, z) == Times(r, 1.0 - m.a00 - m.a11 + m.a22)
  }

  predicate ProductsMatch(m: Matrix, r: real, x: real, y: real, z: real) {
    && Times(x, y) == Times(r, m.a01 + m.a10) && Times(x, z) == Times(r, m.a02 + m.a20)
    && Times(y, z) == Times(r, m.a12 + m.a21)
  }

  predicate Numerators(m: Matrix, r: real, x: real, y: real, z: real) {
    SquaresMatch(m, r, x, y, z) && ProductsMatch(m, r, x, y, z)
  }

  // What cofactors, rows and columns say about three pairs of opposite entries: (p, q), (s, t) and (u, v).

  predicate FromCofactors(a: real, b: real, c: real, p: real, q: real, s: real, t: real, u: real, v: real) {
    a == Minor(b, c, p, q) && v == Minor(q, s, c, u) && u == Minor(p, t, v, c)
  }

  predicate FromRightAngles(a: real, b: real, c: real, p: real, q: real, s: real, t: real, u: real, v: real) {
    && p * p + q * q == 1.0 + a * a - b * b - c * c
    && q * t == -(a * u + v * b) && p * s == -(a * v + u * b)
  }

  lemma OppositeCofactors(m: Matrix)
    requires OwnCofactors(m)
    ensures FromCofactors(m.a00, m.a11, m.a22, m.a12, m.a21, m.a02, m.a20, m.a01, m.a10)
    ensures FromCofactors(m.a22, m.a00, m.a11, m.a01, m.a10, m.a21, m.a12, m.a20, m.a02)
    ensures FromCofactors(m.a11, m.a22, m.a00, m.a20, m.a02, m.a10, m.a01, m.a12, m.a21)
  {
    hide Minor;
  }

  lemma OppositeEntries(m: Matrix)
    requires Orthonormal(Row0(m), Row1(m), Row2(m)) && Orthonormal(Column0(m), Column1(m), Column2(m))
    ensures FromRightAngles(m.a00, m.a11, m.a22, m.a12, m.a21, m.a02, m.a20, m.a01, m.a10)
    ensures FromRightAngles(m.a22, m.a00, m.a11, m.a01, m.a10, m.a21, m.a12, m.a20, m.a02)
    ensures FromRightAngles(m.a11, m.a22, m.a00, m.a20, m.a02, m.a10, m.a01, m.a12, m.a21)
  {
  }

  lemma Differences(a: real, b: real, c: real, p: real, q: real, s: real, t: real, u: real, v: real)
    requires FromCofactors(a, b, c, p, q, s, t, u, v) && FromRightAngles(a, b, c, p, q, s, t, u, v)
    ensures Times(q - p, q - p) == Times(1.0 + a + b + c, 1.0 + a - b - c)
    ensures Times(q - p, s - t) == Times(1.0 + a + b + c, u + v)
  {
  }

  lemma TimesCommutes(a: real, b: real)
    ensures Times(a, b) == Times(b, a)
  {
  }

  lemma ScalarNumerators(m: Matrix)
    requires IsRotation(m)
    ensures Numerators(m, 1.0 + m.a00 + m.a11 + m.a22, m.a21 - m.a12, m.a02 - m.a20, m.a10 - m.a01)
  {
    hide OwnCofactors, Orthonormal, Determinant, FromCofactors, FromRightAngles, Times;
    RotationIsOwnCofactors(m);
    ColumnsAreOrthonormal(m);
    OppositeCofactors(m);
    OppositeEntries(m);
    Differences(m.a00, m.a11, m.a22, m.a12, m.a21, m.a02, m.a20, m.a01, m.a10);
    Differences(m.a22, m.a00, m.a11, m.a01, m.a10, m.a21, m.a12, m.a20, m.a02);
    Differences(m.a11, m.a22, m.a00, m.a20, m.a02, m.a10, m.a01, m.a12, m.a21);
    TimesCommutes(m.a10 - m.a01, m.a21 - m.a12);
  }

  // --------------------------------------------------------------- the four branches

  datatype Turn = None | AboutX | AboutY | AboutZ

  function Turned(u: Vector, t: Turn): Vector {
    match t
    case None => u
    case AboutX => Vector(u.x, -u.y, -u.z)
    case AboutY => Vector(-u.x, u.y, -u.z)
    case AboutZ => Vector(-u.x, -u.y, u.z)
  }

  function FromRows(u: Vector, v: Vector, w: Vector): Matrix {
    Matrix(u.x, u.y, u.z, v.x, v.y, v.z, w.x, w.y, w.z)
  }

  /** Turning a rotation by half a turn about an axis makes that axis' pivot the scalar one. */
  function HalfTurn(m: Matrix, t: Turn): Matrix {
    FromRows(Turned(Row0(m), t), Turned(Row1(m), t), Turned(Row2(m), t))
  }

  lemma TurnKeepsInner(u: Vector, v: Vector, t: Turn)
    ensures Inner(Turned(u, t), Turned(v, t)) == Inner(u, v)
  {
  }

  lemma TurnKeepsCross(u: Vector, v: Vector, t: Turn)
    ensures Cross(Turned(u, t), Turned(v, t)) == Turned(Cross(u, v), t)
  {
  }

  lemma HalfTurnIsRotation(m: Matrix, t: Turn)
    requires IsRotation(m)
    ensures IsRotation(HalfTurn(m, t))
  {
    var u, v, w := Row0(m), Row1(m), Row2(m);
    var n := HalfTurn(m, t);
    assert Row0(n) == Turned(u, t) && Row1(n) == Turned(v, t) && Row2(n) == Turned(w, t);
    hide Inner, Cross, Turned, HalfTurn, Row0, Row1, Row2;
    TurnKeepsInner(u, u, t);
    TurnKeepsInner(v, v, t);
    TurnKeepsInner(w, w, t);
    TurnKeepsInner(u, v, t);
    TurnKeepsInner(v, w, t);
    TurnKeepsInner(w, u, t);
    TurnKeepsCross(u, v, t);
    TurnKeepsInner(Cross(u, v), w, t);
  }

  /** The radicand is never small, so there is always something to divide by. */
  lemma RadicandIsLarge(m: Matrix)
    ensures Radicand(m) >= 1.0
  {
  }

  function Over(a: real, root: real): real
    requires root > 0.0
  {
    a / (root * 2.0)
  }

  function Quarter(root: real): real {
    0.25 * (root * 2.0)
  }

  /** Dividing by twice the root makes the products of the numerators those of the quotients. */
  lemma Quotient(r: real, root: real, a: real, b: real, t: real)
    requires IsRoot(root, r) && root > 0.0 && r > 0.0 && Times(a, b) == Times(r, t)
    ensures Four(Over(a, root), Over(b, root)) == t
  {
    var s := root * 2.0;
    var x, y := a / s, b / s;
    assert a == x * s && b == y * s;
    ProductOfQuotients(x, y, root);
    assert r * (4.0 * (x * y)) == r * t;
    Cancel(r, 4.0 * (x * y), t);
  }

  lemma ProductOfQuotients(x: real, y: real, root: real)
    requires root > 0.0
    ensures (x * (root * 2.0)) * (y * (root * 2.0)) == (root * root) * (4.0 * (x * y))
  {
  }

  lemma Cancel(r: real, a: real, b: real)
    requires r > 0.0 && Times(r, a) == Times(r, b)
    ensures a == b
  {
    if a > b {
      ZeroFactor(r, a - b);
    } else if a < b {
      ZeroFactor(r, b - a);
    }
  }

  lemma Pivoted(root: real, r: real, a: real)
    requires IsRoot(root, r) && root > 0.0
    ensures Four(Quarter(root), Quarter(root)) == r && Four(Quarter(root), Over(a, root)) == a
  {
    var s := root * 2.0;
    var x := a / s;
    assert a == x * s;
  }

  /** With a positive pivot, the quotients are the components of a quaternion with the ten products. */
  lemma QuotientsHaveProducts(m: Matrix, root: real, x: real, y: real, z: real)
    requires IsRoot(root, 1.0 + m.a00 + m.a11 + m.a22) && root > 0.0 && 1.0 + m.a00 + m.a11 + m.a22 > 0.0
    requires x == m.a21 - m.a12 && y == m.a02 - m.a20 && z == m.a10 - m.a01
    requires Numerators(m, 1.0 + m.a00 + m.a11 + m.a22, x, y, z)
    ensures Products(m, Quat(Quarter(root), Over(x, root), Over(y, root), Over(z, root)))
  {
    hide Four, Over, Quarter, IsRoot, Times;
    var r := 1.0 + m.a00 + m.a11 + m.a22;
    Quotient(r, root, x, x, 1.0 + m.a00 - m.a11 - m.a22);
    Quotient(r, root, y, y, 1.0 - m.a00 + m.a11 - m.a22);
    Quotient(r, root, z, z, 1.0 - m.a00 - m.a11 + m.a22);
    Quotient(r, root, x, y, m.a01 + m.a10);
    Quotient(r, root, x, z, m.a02 + m.a20);
    Quotient(r, root, y, z, m.a12 + m.a21);
    Pivoted(root, r, x);
    Pivoted(root, r, y);
    Pivoted(root, r, z);
  }

  /** The quaternion of a half turn of a matrix, turned back. */
  function TurnedBack(q: Quat, t: Turn): Quat {
    match t
    case None => q
    case AboutX => Quat(-q.x, q.w, q.z, -q.y)
    case AboutY => Quat(-q.y, -q.z, q.w, q.x)
    case AboutZ => Quat(-q.z, q.y, -q.x, q.w)
  }

  lemma FourOfNegation(a: real, b: real)
    ensures Four(a, b) == Four(b, a) == Four(-a, -b) == Four(-b, -a)
    ensures Four(-a, b) == Four(a, -b) == Four(-b, a) == Four(b, -a) == -Four(a, b)
  {
  }

  /** Turning back keeps the ten products. */
  lemma TurnedBackHasProducts(m: Matrix, q: Quat, t: Turn)
    requires Products(HalfTurn(m, t), q)
    ensures Products(m, TurnedBack(q, t))
  {
    hide Four;
    FourOfNegation(q.w, q.x);
    FourOfNegation(q.w, q.y);
    FourOfNegation(q.w, q.z);
    FourOfNegation(q.x, q.x);
    FourOfNegation(q.x, q.y);
    FourOfNegation(q.x, q.z);
    FourOfNegation(q.y, q.y);
    FourOfNegation(q.y, q.z);
    FourOfNegation(q.z, q.z);
  }

  function TurnOf(b: Branch): Turn {
    match b
    case Scalar => None
    case AxisX => AboutX
    case AxisY => AboutY
    case AxisZ => AboutZ
  }

  /** What the conversion extracts in a branch is what it would extract from the half turn, turned back. */
  lemma ExtractedIsTurnedBack(m: Matrix, root: real)
    requires root > 0.0
    ensures var n := HalfTurn(m, TurnOf(BranchOf(m)));
            && Radicand(m) == 1.0 + n.a00 + n.a11 + n.a22
            && Extracted(m, root) ==
               TurnedBack(Quat(Quarter(root), Over(n.a21 - n.a12, root), Over(n.a02 - n.a20, root),
                               Over(n.a10 - n.a01, root)), TurnOf(BranchOf(m)))
  {
  }

  /** In each branch the extracted quaternion has the ten products of the matrix. */
  lemma ExtractedHasProducts(m: Matrix, root: real)
    requires IsRotation(m) && IsRoot(root, Radicand(m)) && root > 0.0
    ensures Products(m, Extracted(m, root))
  {
    var t := TurnOf(BranchOf(m));
    var n := HalfTurn(m, t);
    RadicandIsLarge(m);
    HalfTurnIsRotation(m, t);
    ExtractedIsTurnedBack(m, root);
    hide IsRotation, Products, Extracted, Radicand, BranchOf, HalfTurn, TurnOf, TurnedBack, Over, Quarter, IsRoot;
    var x, y, z := n.a21 - n.a12, n.a02 - n.a20, n.a10 - n.a01;
    ScalarNumerators(n);
    QuotientsHaveProducts(n, root, x, y, z);
    TurnedBackHasProducts(m, Quat(Quarter(root), Over(x, root), Over(y, root), Over(z, root)), t);
  }

  /**
   Every rotation matrix comes back: the quaternion that the conversion gives for it has unit norm
   and a non-negative scalar part, and its rotation is that matrix.
   */
  lemma MatrixRoundTrip(m: Matrix, root: real, norm: real)
    requires IsRotation(m) && IsRoot(root, Radicand(m)) && root > 0.0
    requires IsRoot(norm, NormSquared(Extracted(m, root)))
    ensures var q := FromRotation(m, root, norm);
            Unit(q) && q.w >= 0.0 && RotationOf(q) == m
  {
    var q := Extracted(m, root);
    hide IsRotation, Products, Extracted, Radicand, RotationOf;
    ExtractedHasProducts(m, root);
    ProductsGiveRotation(m, q);
    NormalizesUnit(q, norm);
    NegationKeeps(q);
  }

  // ------------------------------------------------------------ and nothing else

  function Conjugate(q: Quat): Quat {
    Quat(q.w, -q.x, -q.y, -q.z)
  }

  function Transposed(m: Matrix): Matrix {
    Matrix(m.a00, m.a10, m.a20, m.a01, m.a11, m.a21, m.a02, m.a12, m.a22)
  }

  lemma ConjugateSigns(a: real, b: real, c: real, d: real)
    ensures Plus(-a, -b, -c, d) == Minus(a, b, c, d) && Minus(-a, -b, -c, d) == Plus(a, b, c, d)
    ensures Short(-a, -b) == Short(a, b) && Squares(d, -a, -b, -c) == Squares(d, a, b, c)
  {
  }

  lemma ConjugateTransposes(q: Quat)
    ensures NormSquared(Conjugate(q)) == NormSquared(q)
    ensures RotationOf(Conjugate(q)) == Transposed(RotationOf(q))
  {
    hide Plus, Minus, Short, Squares;
    ConjugateSigns(q.x, q.y, q.z, q.w);
    ConjugateSigns(q.x, q.z, q.y, q.w);
    ConjugateSigns(q.y, q.z, q.x, q.w);
  }

  lemma ConjugateInverts(q: Quat)
    requires Unit(q)
    ensures Multiply(q, Conjugate(q)) == IDENTITY
  {
  }

  /** A matrix whose product with its transpose is the identity has orthonormal rows. */
  lemma OrthonormalByProduct(m: Matrix)
    requires Product(m, Transposed(m)) == RotationOf(IDENTITY)
    ensures Orthonormal(Row0(m), Row1(m), Row2(m))
  {
  }

  // The cofactors of the third row, without the use of the unit norm.

  lemma ThirdRowX(w: real, x: real, y: real, z: real)
    ensures Minor(Minus(x, y, z, w), Minus(y, z, x, w), Plus(x, z, y, w), Diag(w, y, x, z)) ==
            Times(Squares(w, x, y, z), Minus(x, z, y, w))
  {
  }

  lemma ThirdRowY(w: real, x: real, y: real, z: real)
    ensures Minor(Plus(x, z, y, w), Plus(x, y, z, w), Diag(w, x, y, z), Minus(y, z, x, w)) ==
            Times(Squares(w, x, y, z), Plus(y, z, x, w))
  {
  }

  lemma ThirdRowZ(w: real, x: real, y: real, z: real)
    ensures Minor(Diag(w, x, y, z), Diag(w, y, x, z), Minus(x, y, z, w), Plus(x, y, z, w)) ==
            Times(Squares(w, x, y, z), Diag(w, z, x, y))
  {
  }

  lemma TimesOne(a: real)
    ensures Times(1.0, a) == a
  {
  }

  lemma ThirdRowIsCross(q: Quat)
    requires Unit(q)
    ensures Cross(Row0(Homogeneous(q)), Row1(Homogeneous(q))) == Row2(Homogeneous(q))
  {
    var h := Row2(Homogeneous(q));
    TimesOne(h.x);
    TimesOne(h.y);
    TimesOne(h.z);
    hide Minor, Times, Squares, Plus, Minus, Diag;
    ThirdRowX(q.w, q.x, q.y, q.z);
    ThirdRowY(q.w, q.x, q.y, q.z);
    ThirdRowZ(q.w, q.x, q.y, q.z);
  }

  /** Unit quaternions give rotation matrices, so those are exactly the matrices that come back. */
  lemma UnitQuaternionsRotate(q: Quat)
    requires Unit(q)
    ensures IsRotation(RotationOf(q))
  {
    hide Multiply, Unit, Product, Orthonormal, Conjugate, Transposed, Homogeneous, RotationOf, Inner, Cross;
    hide Row0, Row1, Row2;
    ConjugateTransposes(q);
    ConjugateInverts(q);
    assert Unit(Conjugate(q)) by { SameNorm(q, Conjugate(q)); }
    ProductOfRotations(q, Conjugate(q));
    var m := RotationOf(q);
    OrthonormalByProduct(m);
    HomogeneousForUnit(q);
    ThirdRowIsCross(q);
    assert Inner(Row2(m), Row2(m)) == 1.0 by { ThirdIsUnit(Row0(m), Row1(m), Row2(m)); }
  }

  lemma SameNorm(p: Quat, q: Quat)
    requires Unit(p) && NormSquared(p) == NormSquared(q)
    ensures Unit(q)
  {
  }

  lemma ThirdIsUnit(u: Vector, v: Vector, w: Vector)
    requires Orthonormal(u, v, w)
    ensures Inner(w, w) == 1.0
  {
  }

  // ------------------------------------------------------------- any quaternion

  lemma SquaresScale(a: real, b: real, c: real, d: real, n: real)
    ensures Squares(a * n, b * n, c * n, d * n) == Times(n * n, Squares(a, b, c, d))
  {
  }

  lemma SquaresOfQuotients(a: real, b: real, c: real, d: real, n: real)
    requires n > 0.0
    ensures Times(n * n, Squares(a / n, b / n, c / n, d / n)) == Squares(a, b, c, d)
  {
    hide Squares, Times;
    var w, x, y, z := a / n, b / n, c / n, d / n;
    assert a == w * n && b == x * n && c == y * n && d == z * n;
    SquaresScale(w, x, y, z, n);
  }

  lemma ScaledToOne(r: real, a: real)
    requires r > 0.0 && Times(r, a) == r
    ensures a == 1.0
  {
    assert (a - 1.0) * r == 0.0;
    ZeroFactor(a - 1.0, r);
  }

  lemma NormalizedIsUnit(q: Quat, norm: real)
    requires IsRoot(norm, NormSquared(q))
    ensures Unit(Normalized(q, norm))
  {
    var n := if norm < DEGENERATE then IDENTITY else Quat(q.w / norm, q.x / norm, q.y / norm, q.z / norm);
    assert Unit(n) by {
      if norm >= DEGENERATE {
        hide Squares, Times;
        SquaresOfQuotients(q.w, q.x, q.y, q.z, norm);
        ScaledToOne(norm * norm, NormSquared(n));
      }
    }
    NegationKeeps(n);
    hide Squares, Negated;
  }

  /**
   For any quaternion at all, unit or not: the matrix is a rotation, and converting it back gives the
   normalised quaternion or its negation, and the same matrix.
   */
  lemma QuaternionRoundTrip(q: Quat, length: real, root: real, norm: real)
    requires IsRoot(length, NormSquared(q))
    requires IsRoot(root, Radicand(ToRotation(q, length))) && root > 0.0
    requires IsRoot(norm, NormSquared(Extracted(ToRotation(q, length), root)))
    ensures var n, r := Normalized(q, length), FromRotation(ToRotation(q, length), root, norm);
            && IsRotation(ToRotation(q, length)) && (r == n || r == Negated(n)) && r.w >= 0.0
            && RotationOf(r) == ToRotation(q, length)
  {
    hide Normalized, Extracted, Radicand, RotationOf, FromRotation, IsRotation, Unit;
    NormalizedIsUnit(q, length);
    UnitQuaternionsRotate(Normalized(q, length));
    RoundTrip(Normalized(q, length), root, norm);
  }
}

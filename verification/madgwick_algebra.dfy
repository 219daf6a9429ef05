/**
 * Algebra behind the filter's hand-expanded formulas in madgwick.dfy.
 *
 * `RotateAndScaleVector` is checked against the quaternion conjugation
 * conj(q) (0, d) q, and the coefficients of `GradientStep` against the
 * partial derivatives of the rotated reference.  Each polynomial identity is
 * proved on its own over plain real variables, and the lemmas that connect
 * it to the functions only pass variables and selectors along; this keeps
 * every proof obligation small for the solver.
 */
module MadgwickAlgebra {
  import opened Common
  import opened Madgwick

  /**
   * The formula is the conjugation conj(q) (0, d2) q, halved, up to a term
   * that vanishes when q has unit length.
   */
  lemma RotateAndScaleIsSandwich(q: Quat, d2: Vec3)
    ensures Scale3(2.0, RotateAndScaleVector(q, d2))
         == Add3(VecPart(Mul(Mul(Conj(q), Pure(d2)), q)), Scale3(1.0 - NormSq4(q), d2))
  {
    var a, b, c, e, x, y, z := q.q0, q.q1, q.q2, q.q3, d2.x, d2.y, d2.z;
    assert q == Quat(a, b, c, e) && d2 == Vec3(x, y, z);
    SandwichComponentX(a, b, c, e, x, y, z);
    SandwichComponentY(a, b, c, e, x, y, z);
    SandwichComponentZ(a, b, c, e, x, y, z);
  }

  /**
   * For a unit quaternion the formula is exactly half of conj(q) (0, d2) q:
   * the reference direction seen from the sensor frame.
   */
  lemma RotateAndScaleIsConjugation(q: Quat, d2: Vec3)
    requires NormSq4(q) == 1.0
    ensures Scale3(2.0, RotateAndScaleVector(q, d2)) == VecPart(Mul(Mul(Conj(q), Pure(d2)), q))
  {
    RotateAndScaleIsSandwich(q, d2);
    assert Scale3(1.0 - NormSq4(q), d2) == Scale3(0.0, d2) == Zero3;
  }

  /**
   * The step adds the gradient of |f|^2 / 2 with respect to the quaternion:
   * component i of the increment is the residual dotted with the partial
   * derivative of the rotated reference along axis i.
   */
  lemma GradientStepIsGradient(q: Quat, d2: Vec3, m: Vec3, s: Quat)
    ensures var f := Residual(q, d2, m);
      GradientStep(q, d2, m, s)
        == Add4(s, Quat(Dot3(f, Partial(q, d2, 0)), Dot3(f, Partial(q, d2, 1)),
                        Dot3(f, Partial(q, d2, 2)), Dot3(f, Partial(q, d2, 3))))
  {
    PartialAxis0X(q, d2); PartialAxis0Y(q, d2); PartialAxis0Z(q, d2);
    PartialAxis1X(q, d2); PartialAxis1Y(q, d2); PartialAxis1Z(q, d2);
    PartialAxis2X(q, d2); PartialAxis2Y(q, d2); PartialAxis2Z(q, d2);
    PartialAxis3X(q, d2); PartialAxis3Y(q, d2); PartialAxis3Z(q, d2);
    GradientOfRows(q, d2, Residual(q, d2, m), s, Partial(q, d2, 0), Partial(q, d2, 1), Partial(q, d2, 2), Partial(q, d2, 3));
  }

  // ---- conj(q) (0, d) q, component by component

  lemma ConjTimesPure(a: real, b: real, c: real, e: real, x: real, y: real, z: real)
    ensures Mul(Conj(Quat(a, b, c, e)), Pure(Vec3(x, y, z)))
         == Quat(b * x + c * y + e * z, a * x - c * z + e * y, a * y + b * z - e * x, a * z - b * y + c * x)
  {
  }

  lemma MulRightX(p: Quat, a: real, b: real, c: real, e: real)
    ensures Mul(p, Quat(a, b, c, e)).q1 == p.q0 * b + p.q1 * a + p.q2 * e - p.q3 * c
  {
  }

  lemma SandwichPolyX(a: real, b: real, c: real, e: real, x: real, y: real, z: real, p0: real, p1: real, p2: real, p3: real)
    requires p0 == b * x + c * y + e * z && p1 == a * x - c * z + e * y
    requires p2 == a * y + b * z - e * x && p3 == a * z - b * y + c * x
    ensures p0 * b + p1 * a + p2 * e - p3 * c == x * (a * a + b * b - c * c - e * e) + y * (2.0 * b * c + 2.0 * a * e) + z * (2.0 * b * e - 2.0 * a * c)
  {
  }

  /** Component q1 of conj(q) (0, d) q, expanded. */
  lemma SandwichX(a: real, b: real, c: real, e: real, x: real, y: real, z: real)
    ensures Mul(Mul(Conj(Quat(a, b, c, e)), Pure(Vec3(x, y, z))), Quat(a, b, c, e)).q1
         == x * (a * a + b * b - c * c - e * e) + y * (2.0 * b * c + 2.0 * a * e) + z * (2.0 * b * e - 2.0 * a * c)
  {
    var p := Mul(Conj(Quat(a, b, c, e)), Pure(Vec3(x, y, z)));
    ConjTimesPure(a, b, c, e, x, y, z);
    MulRightX(p, a, b, c, e);
    SandwichPolyX(a, b, c, e, x, y, z, p.q0, p.q1, p.q2, p.q3);
  }

  lemma MulRightY(p: Quat, a: real, b: real, c: real, e: real)
    ensures Mul(p, Quat(a, b, c, e)).q2 == p.q0 * c - p.q1 * e + p.q2 * a + p.q3 * b
  {
  }

  lemma SandwichPolyY(a: real, b: real, c: real, e: real, x: real, y: real, z: real, p0: real, p1: real, p2: real, p3: real)
    requires p0 == b * x + c * y + e * z && p1 == a * x - c * z + e * y
    requires p2 == a * y + b * z - e * x && p3 == a * z - b * y + c * x
    ensures p0 * c - p1 * e + p2 * a + p3 * b == x * (2.0 * b * c - 2.0 * a * e) + y * (a * a - b * b + c * c - e * e) + z * (2.0 * c * e + 2.0 * a * b)
  {
  }

  /** Component q2 of conj(q) (0, d) q, expanded. */
  lemma SandwichY(a: real, b: real, c: real, e: real, x: real, y: real, z: real)
    ensures Mul(Mul(Conj(Quat(a, b, c, e)), Pure(Vec3(x, y, z))), Quat(a, b, c, e)).q2
         == x * (2.0 * b * c - 2.0 * a * e) + y * (a * a - b * b + c * c - e * e) + z * (2.0 * c * e + 2.0 * a * b)
  {
    var p := Mul(Conj(Quat(a, b, c, e)), Pure(Vec3(x, y, z)));
    ConjTimesPure(a, b, c, e, x, y, z);
    MulRightY(p, a, b, c, e);
    SandwichPolyY(a, b, c, e, x, y, z, p.q0, p.q1, p.q2, p.q3);
  }

  lemma MulRightZ(p: Quat, a: real, b: real, c: real, e: real)
    ensures Mul(p, Quat(a, b, c, e)).q3 == p.q0 * e + p.q1 * c - p.q2 * b + p.q3 * a
  {
  }

  lemma SandwichPolyZ(a: real, b: real, c: real, e: real, x: real, y: real, z: real, p0: real, p1: real, p2: real, p3: real)
    requires p0 == b * x + c * y + e * z && p1 == a * x - c * z + e * y
    requires p2 == a * y + b * z - e * x && p3 == a * z - b * y + c * x
    ensures p0 * e + p1 * c - p2 * b + p3 * a == x * (2.0 * b * e + 2.0 * a * c) + y * (2.0 * c * e - 2.0 * a * b) + z * (a * a - b * b - c * c + e * e)
  {
  }

  /** Component q3 of conj(q) (0, d) q, expanded. */
  lemma SandwichZ(a: real, b: real, c: real, e: real, x: real, y: real, z: real)
    ensures Mul(Mul(Conj(Quat(a, b, c, e)), Pure(Vec3(x, y, z))), Quat(a, b, c, e)).q3
         == x * (2.0 * b * e + 2.0 * a * c) + y * (2.0 * c * e - 2.0 * a * b) + z * (a * a - b * b - c * c + e * e)
  {
    var p := Mul(Conj(Quat(a, b, c, e)), Pure(Vec3(x, y, z)));
    ConjTimesPure(a, b, c, e, x, y, z);
    MulRightZ(p, a, b, c, e);
    SandwichPolyZ(a, b, c, e, x, y, z, p.q0, p.q1, p.q2, p.q3);
  }

  // ---- the formula, component by component

  lemma UnfoldX(a: real, b: real, c: real, e: real, x: real, y: real, z: real)
    ensures RotateAndScaleVector(Quat(a, b, c, e), Vec3(x, y, z)).x == x * (0.5 - c * c - e * e) + y * (a * e + b * c) + z * (b * e - a * c)
  {
  }

  lemma UnfoldY(a: real, b: real, c: real, e: real, x: real, y: real, z: real)
    ensures RotateAndScaleVector(Quat(a, b, c, e), Vec3(x, y, z)).y == x * (b * c - a * e) + y * (0.5 - b * b - e * e) + z * (a * b + c * e)
  {
  }

  lemma UnfoldZ(a: real, b: real, c: real, e: real, x: real, y: real, z: real)
    ensures RotateAndScaleVector(Quat(a, b, c, e), Vec3(x, y, z)).z == x * (a * c + b * e) + y * (c * e - a * b) + z * (0.5 - b * b - c * c)
  {
  }

  lemma ExpandX(a: real, b: real, c: real, e: real, x: real, y: real, z: real)
    ensures 2.0 * (x * (0.5 - c * c - e * e) + y * (a * e + b * c) + z * (b * e - a * c))
         == x * (a * a + b * b - c * c - e * e) + y * (2.0 * b * c + 2.0 * a * e) + z * (2.0 * b * e - 2.0 * a * c) + (1.0 - (a * a + b * b + c * c + e * e)) * x
  {
  }

  lemma DoubledX(a: real, b: real, c: real, e: real, x: real, y: real, z: real, r: real, n: real)
    requires r == x * (0.5 - c * c - e * e) + y * (a * e + b * c) + z * (b * e - a * c)
    requires n == a * a + b * b + c * c + e * e
    ensures 2.0 * r == x * (a * a + b * b - c * c - e * e) + y * (2.0 * b * c + 2.0 * a * e) + z * (2.0 * b * e - 2.0 * a * c) + (1.0 - n) * x
  {
    ExpandX(a, b, c, e, x, y, z);
  }

  /** Component x of the formula, doubled: the sandwich term plus a multiple of d that vanishes for |q| = 1. */
  lemma RotatedX(a: real, b: real, c: real, e: real, x: real, y: real, z: real)
    ensures 2.0 * RotateAndScaleVector(Quat(a, b, c, e), Vec3(x, y, z)).x
         == x * (a * a + b * b - c * c - e * e) + y * (2.0 * b * c + 2.0 * a * e) + z * (2.0 * b * e - 2.0 * a * c) + (1.0 - NormSq4(Quat(a, b, c, e))) * x
  {
    UnfoldX(a, b, c, e, x, y, z);
    DoubledX(a, b, c, e, x, y, z, RotateAndScaleVector(Quat(a, b, c, e), Vec3(x, y, z)).x, NormSq4(Quat(a, b, c, e)));
  }

  lemma SandwichComponentX(a: real, b: real, c: real, e: real, x: real, y: real, z: real)
    ensures 2.0 * RotateAndScaleVector(Quat(a, b, c, e), Vec3(x, y, z)).x
         == Mul(Mul(Conj(Quat(a, b, c, e)), Pure(Vec3(x, y, z))), Quat(a, b, c, e)).q1
            + (1.0 - NormSq4(Quat(a, b, c, e))) * x
  {
    SandwichX(a, b, c, e, x, y, z);
    RotatedX(a, b, c, e, x, y, z);
  }

  lemma ExpandY(a: real, b: real, c: real, e: real, x: real, y: real, z: real)
    ensures 2.0 * (x * (b * c - a * e) + y * (0.5 - b * b - e * e) + z * (a * b + c * e))
         == x * (2.0 * b * c - 2.0 * a * e) + y * (a * a - b * b + c * c - e * e) + z * (2.0 * c * e + 2.0 * a * b) + (1.0 - (a * a + b * b + c * c + e * e)) * y
  {
  }

  lemma DoubledY(a: real, b: real, c: real, e: real, x: real, y: real, z: real, r: real, n: real)
    requires r == x * (b * c - a * e) + y * (0.5 - b * b - e * e) + z * (a * b + c * e)
    requires n == a * a + b * b + c * c + e * e
    ensures 2.0 * r == x * (2.0 * b * c - 2.0 * a * e) + y * (a * a - b * b + c * c - e * e) + z * (2.0 * c * e + 2.0 * a * b) + (1.0 - n) * y
  {
    ExpandY(a, b, c, e, x, y, z);
  }

  /** Component y of the formula, doubled: the sandwich term plus a multiple of d that vanishes for |q| = 1. */
  lemma RotatedY(a: real, b: real, c: real, e: real, x: real, y: real, z: real)
    ensures 2.0 * RotateAndScaleVector(Quat(a, b, c, e), Vec3(x, y, z)).y
         == x * (2.0 * b * c - 2.0 * a * e) + y * (a * a - b * b + c * c - e * e) + z * (2.0 * c * e + 2.0 * a * b) + (1.0 - NormSq4(Quat(a, b, c, e))) * y
  {
    UnfoldY(a, b, c, e, x, y, z);
    DoubledY(a, b, c, e, x, y, z, RotateAndScaleVector(Quat(a, b, c, e), Vec3(x, y, z)).y, NormSq4(Quat(a, b, c, e)));
  }

  lemma SandwichComponentY(a: real, b: real, c: real, e: real, x: real, y: real, z: real)
    ensures 2.0 * RotateAndScaleVector(Quat(a, b, c, e), Vec3(x, y, z)).y
         == Mul(Mul(Conj(Quat(a, b, c, e)), Pure(Vec3(x, y, z))), Quat(a, b, c, e)).q2
            + (1.0 - NormSq4(Quat(a, b, c, e))) * y
  {
    SandwichY(a, b, c, e, x, y, z);
    RotatedY(a, b, c, e, x, y, z);
  }

  lemma ExpandZ(a: real, b: real, c: real, e: real, x: real, y: real, z: real)
    ensures 2.0 * (x * (a * c + b * e) + y * (c * e - a * b) + z * (0.5 - b * b - c * c))
         == x * (2.0 * b * e + 2.0 * a * c) + y * (2.0 * c * e - 2.0 * a * b) + z * (a * a - b * b - c * c + e * e) + (1.0 - (a * a + b * b + c * c + e * e)) * z
  {
  }

  lemma DoubledZ(a: real, b: real, c: real, e: real, x: real, y: real, z: real, r: real, n: real)
    requires r == x * (a * c + b * e) + y * (c * e - a * b) + z * (0.5 - b * b - c * c)
    requires n == a * a + b * b + c * c + e * e
    ensures 2.0 * r == x * (2.0 * b * e + 2.0 * a * c) + y * (2.0 * c * e - 2.0 * a * b) + z * (a * a - b * b - c * c + e * e) + (1.0 - n) * z
  {
    ExpandZ(a, b, c, e, x, y, z);
  }

  /** Component z of the formula, doubled: the sandwich term plus a multiple of d that vanishes for |q| = 1. */
  lemma RotatedZ(a: real, b: real, c: real, e: real, x: real, y: real, z: real)
    ensures 2.0 * RotateAndScaleVector(Quat(a, b, c, e), Vec3(x, y, z)).z
         == x * (2.0 * b * e + 2.0 * a * c) + y * (2.0 * c * e - 2.0 * a * b) + z * (a * a - b * b - c * c + e * e) + (1.0 - NormSq4(Quat(a, b, c, e))) * z
  {
    UnfoldZ(a, b, c, e, x, y, z);
    DoubledZ(a, b, c, e, x, y, z, RotateAndScaleVector(Quat(a, b, c, e), Vec3(x, y, z)).z, NormSq4(Quat(a, b, c, e)));
  }

  lemma SandwichComponentZ(a: real, b: real, c: real, e: real, x: real, y: real, z: real)
    ensures 2.0 * RotateAndScaleVector(Quat(a, b, c, e), Vec3(x, y, z)).z
         == Mul(Mul(Conj(Quat(a, b, c, e)), Pure(Vec3(x, y, z))), Quat(a, b, c, e)).q3
            + (1.0 - NormSq4(Quat(a, b, c, e))) * z
  {
    SandwichZ(a, b, c, e, x, y, z);
    RotatedZ(a, b, c, e, x, y, z);
  }

  // ---- the partial derivatives of the formula, by central differences

  lemma Shift0(q: Quat)
    ensures Add4(q, Basis(0)) == Quat(q.q0 + 1.0, q.q1, q.q2, q.q3)
    ensures Sub4(q, Basis(0)) == Quat(q.q0 - 1.0, q.q1, q.q2, q.q3)
  {
  }

  lemma Diff0X(a: real, b: real, c: real, e: real, x: real, y: real, z: real, up: real, dn: real)
    requires up == a + 1.0 && dn == a - 1.0
    ensures 0.5 * ((x * (0.5 - c * c - e * e) + y * (up * e + b * c) + z * (b * e - up * c)) - (x * (0.5 - c * c - e * e) + y * (dn * e + b * c) + z * (b * e - dn * c))) == y * e - z * c
  {
  }

  lemma AtShift0X(a: real, b: real, c: real, e: real, x: real, y: real, z: real, up: real, dn: real)
    requires up == a + 1.0 && dn == a - 1.0
    ensures 0.5 * (RotateAndScaleVector(Quat(up, b, c, e), Vec3(x, y, z)).x - RotateAndScaleVector(Quat(dn, b, c, e), Vec3(x, y, z)).x)
         == y * e - z * c
  {
    UnfoldX(up, b, c, e, x, y, z);
    UnfoldX(dn, b, c, e, x, y, z);
    Diff0X(a, b, c, e, x, y, z, up, dn);
  }

  /** Component x of the partial derivative along axis 0: entry (x, 0) of the step's coefficients. */
  lemma PartialAxis0X(q: Quat, d2: Vec3)
    ensures Partial(q, d2, 0).x == d2.y * q.q3 - d2.z * q.q2
  {
    Shift0(q);
    AtShift0X(q.q0, q.q1, q.q2, q.q3, d2.x, d2.y, d2.z, Add4(q, Basis(0)).q0, Sub4(q, Basis(0)).q0);
  }

  lemma Diff0Y(a: real, b: real, c: real, e: real, x: real, y: real, z: real, up: real, dn: real)
    requires up == a + 1.0 && dn == a - 1.0
    ensures 0.5 * ((x * (b * c - up * e) + y * (0.5 - b * b - e * e) + z * (up * b + c * e)) - (x * (b * c - dn * e) + y * (0.5 - b * b - e * e) + z * (dn * b + c * e))) == -x * e + z * b
  {
  }

  lemma AtShift0Y(a: real, b: real, c: real, e: real, x: real, y: real, z: real, up: real, dn: real)
    requires up == a + 1.0 && dn == a - 1.0
    ensures 0.5 * (RotateAndScaleVector(Quat(up, b, c, e), Vec3(x, y, z)).y - RotateAndScaleVector(Quat(dn, b, c, e), Vec3(x, y, z)).y)
         == -x * e + z * b
  {
    UnfoldY(up, b, c, e, x, y, z);
    UnfoldY(dn, b, c, e, x, y, z);
    Diff0Y(a, b, c, e, x, y, z, up, dn);
  }

  /** Component y of the partial derivative along axis 0: entry (y, 0) of the step's coefficients. */
  lemma PartialAxis0Y(q: Quat, d2: Vec3)
    ensures Partial(q, d2, 0).y == -d2.x * q.q3 + d2.z * q.q1
  {
    Shift0(q);
    AtShift0Y(q.q0, q.q1, q.q2, q.q3, d2.x, d2.y, d2.z, Add4(q, Basis(0)).q0, Sub4(q, Basis(0)).q0);
  }

  lemma Diff0Z(a: real, b: real, c: real, e: real, x: real, y: real, z: real, up: real, dn: real)
    requires up == a + 1.0 && dn == a - 1.0
    ensures 0.5 * ((x * (up * c + b * e) + y * (c * e - up * b) + z * (0.5 - b * b - c * c)) - (x * (dn * c + b * e) + y * (c * e - dn * b) + z * (0.5 - b * b - c * c))) == x * c - y * b
  {
  }

  lemma AtShift0Z(a: real, b: real, c: real, e: real, x: real, y: real, z: real, up: real, dn: real)
    requires up == a + 1.0 && dn == a - 1.0
    ensures 0.5 * (RotateAndScaleVector(Quat(up, b, c, e), Vec3(x, y, z)).z - RotateAndScaleVector(Quat(dn, b, c, e), Vec3(x, y, z)).z)
         == x * c - y * b
  {
    UnfoldZ(up, b, c, e, x, y, z);
    UnfoldZ(dn, b, c, e, x, y, z);
    Diff0Z(a, b, c, e, x, y, z, up, dn);
  }

  /** Component z of the partial derivative along axis 0: entry (z, 0) of the step's coefficients. */
  lemma PartialAxis0Z(q: Quat, d2: Vec3)
    ensures Partial(q, d2, 0).z == d2.x * q.q2 - d2.y * q.q1
  {
    Shift0(q);
    AtShift0Z(q.q0, q.q1, q.q2, q.q3, d2.x, d2.y, d2.z, Add4(q, Basis(0)).q0, Sub4(q, Basis(0)).q0);
  }

  lemma Shift1(q: Quat)
    ensures Add4(q, Basis(1)) == Quat(q.q0, q.q1 + 1.0, q.q2, q.q3)
    ensures Sub4(q, Basis(1)) == Quat(q.q0, q.q1 - 1.0, q.q2, q.q3)
  {
  }

  lemma Diff1X(a: real, b: real, c: real, e: real, x: real, y: real, z: real, up: real, dn: real)
    requires up == b + 1.0 && dn == b - 1.0
    ensures 0.5 * ((x * (0.5 - c * c - e * e) + y * (a * e + up * c) + z * (up * e - a * c)) - (x * (0.5 - c * c - e * e) + y * (a * e + dn * c) + z * (dn * e - a * c))) == y * c + z * e
  {
  }

  lemma AtShift1X(a: real, b: real, c: real, e: real, x: real, y: real, z: real, up: real, dn: real)
    requires up == b + 1.0 && dn == b - 1.0
    ensures 0.5 * (RotateAndScaleVector(Quat(a, up, c, e), Vec3(x, y, z)).x - RotateAndScaleVector(Quat(a, dn, c, e), Vec3(x, y, z)).x)
         == y * c + z * e
  {
    UnfoldX(a, up, c, e, x, y, z);
    UnfoldX(a, dn, c, e, x, y, z);
    Diff1X(a, b, c, e, x, y, z, up, dn);
  }

  /** Component x of the partial derivative along axis 1: entry (x, 1) of the step's coefficients. */
  lemma PartialAxis1X(q: Quat, d2: Vec3)
    ensures Partial(q, d2, 1).x == d2.y * q.q2 + d2.z * q.q3
  {
    Shift1(q);
    AtShift1X(q.q0, q.q1, q.q2, q.q3, d2.x, d2.y, d2.z, Add4(q, Basis(1)).q1, Sub4(q, Basis(1)).q1);
  }

  lemma Diff1Y(a: real, b: real, c: real, e: real, x: real, y: real, z: real, up: real, dn: real)
    requires up == b + 1.0 && dn == b - 1.0
    ensures 0.5 * ((x * (up * c - a * e) + y * (0.5 - up * up - e * e) + z * (a * up + c * e)) - (x * (dn * c - a * e) + y * (0.5 - dn * dn - e * e) + z * (a * dn + c * e))) == x * c - 2.0 * y * b + z * a
  {
  }

  lemma AtShift1Y(a: real, b: real, c: real, e: real, x: real, y: real, z: real, up: real, dn: real)
    requires up == b + 1.0 && dn == b - 1.0
    ensures 0.5 * (RotateAndScaleVector(Quat(a, up, c, e), Vec3(x, y, z)).y - RotateAndScaleVector(Quat(a, dn, c, e), Vec3(x, y, z)).y)
         == x * c - 2.0 * y * b + z * a
  {
    UnfoldY(a, up, c, e, x, y, z);
    UnfoldY(a, dn, c, e, x, y, z);
    Diff1Y(a, b, c, e, x, y, z, up, dn);
  }

  /** Component y of the partial derivative along axis 1: entry (y, 1) of the step's coefficients. */
  lemma PartialAxis1Y(q: Quat, d2: Vec3)
    ensures Partial(q, d2, 1).y == d2.x * q.q2 - 2.0 * d2.y * q.q1 + d2.z * q.q0
  {
    Shift1(q);
    AtShift1Y(q.q0, q.q1, q.q2, q.q3, d2.x, d2.y, d2.z, Add4(q, Basis(1)).q1, Sub4(q, Basis(1)).q1);
  }

  lemma Diff1Z(a: real, b: real, c: real, e: real, x: real, y: real, z: real, up: real, dn: real)
    requires up == b + 1.0 && dn == b - 1.0
    ensures 0.5 * ((x * (a * c + up * e) + y * (c * e - a * up) + z * (0.5 - up * up - c * c)) - (x * (a * c + dn * e) + y * (c * e - a * dn) + z * (0.5 - dn * dn - c * c))) == x * e - y * a - 2.0 * z * b
  {
  }

  lemma AtShift1Z(a: real, b: real, c: real, e: real, x: real, y: real, z: real, up: real, dn: real)
    requires up == b + 1.0 && dn == b - 1.0
    ensures 0.5 * (RotateAndScaleVector(Quat(a, up, c, e), Vec3(x, y, z)).z - RotateAndScaleVector(Quat(a, dn, c, e), Vec3(x, y, z)).z)
         == x * e - y * a - 2.0 * z * b
  {
    UnfoldZ(a, up, c, e, x, y, z);
    UnfoldZ(a, dn, c, e, x, y, z);
    Diff1Z(a, b, c, e, x, y, z, up, dn);
  }

  /** Component z of the partial derivative along axis 1: entry (z, 1) of the step's coefficients. */
  lemma PartialAxis1Z(q: Quat, d2: Vec3)
    ensures Partial(q, d2, 1).z == d2.x * q.q3 - d2.y * q.q0 - 2.0 * d2.z * q.q1
  {
    Shift1(q);
    AtShift1Z(q.q0, q.q1, q.q2, q.q3, d2.x, d2.y, d2.z, Add4(q, Basis(1)).q1, Sub4(q, Basis(1)).q1);
  }

  lemma Shift2(q: Quat)
    ensures Add4(q, Basis(2)) == Quat(q.q0, q.q1, q.q2 + 1.0, q.q3)
    ensures Sub4(q, Basis(2)) == Quat(q.q0, q.q1, q.q2 - 1.0, q.q3)
  {
  }

  lemma Diff2X(a: real, b: real, c: real, e: real, x: real, y: real, z: real, up: real, dn: real)
    requires up == c + 1.0 && dn == c - 1.0
    ensures 0.5 * ((x * (0.5 - up * up - e * e) + y * (a * e + b * up) + z * (b * e - a * up)) - (x * (0.5 - dn * dn - e * e) + y * (a * e + b * dn) + z * (b * e - a * dn))) == -2.0 * x * c + y * b - z * a
  {
  }

  lemma AtShift2X(a: real, b: real, c: real, e: real, x: real, y: real, z: real, up: real, dn: real)
    requires up == c + 1.0 && dn == c - 1.0
    ensures 0.5 * (RotateAndScaleVector(Quat(a, b, up, e), Vec3(x, y, z)).x - RotateAndScaleVector(Quat(a, b, dn, e), Vec3(x, y, z)).x)
         == -2.0 * x * c + y * b - z * a
  {
    UnfoldX(a, b, up, e, x, y, z);
    UnfoldX(a, b, dn, e, x, y, z);
    Diff2X(a, b, c, e, x, y, z, up, dn);
  }

  /** Component x of the partial derivative along axis 2: entry (x, 2) of the step's coefficients. */
  lemma PartialAxis2X(q: Quat, d2: Vec3)
    ensures Partial(q, d2, 2).x == -2.0 * d2.x * q.q2 + d2.y * q.q1 - d2.z * q.q0
  {
    Shift2(q);
    AtShift2X(q.q0, q.q1, q.q2, q.q3, d2.x, d2.y, d2.z, Add4(q, Basis(2)).q2, Sub4(q, Basis(2)).q2);
  }

  lemma Diff2Y(a: real, b: real, c: real, e: real, x: real, y: real, z: real, up: real, dn: real)
    requires up == c + 1.0 && dn == c - 1.0
    ensures 0.5 * ((x * (b * up - a * e) + y * (0.5 - b * b - e * e) + z * (a * b + up * e)) - (x * (b * dn - a * e) + y * (0.5 - b * b - e * e) + z * (a * b + dn * e))) == x * b + z * e
  {
  }

  lemma AtShift2Y(a: real, b: real, c: real, e: real, x: real, y: real, z: real, up: real, dn: real)
    requires up == c + 1.0 && dn == c - 1.0
    ensures 0.5 * (RotateAndScaleVector(Quat(a, b, up, e), Vec3(x, y, z)).y - RotateAndScaleVector(Quat(a, b, dn, e), Vec3(x, y, z)).y)
         == x * b + z * e
  {
    UnfoldY(a, b, up, e, x, y, z);
    UnfoldY(a, b, dn, e, x, y, z);
    Diff2Y(a, b, c, e, x, y, z, up, dn);
  }

  /** Component y of the partial derivative along axis 2: entry (y, 2) of the step's coefficients. */
  lemma PartialAxis2Y(q: Quat, d2: Vec3)
    ensures Partial(q, d2, 2).y == d2.x * q.q1 + d2.z * q.q3
  {
    Shift2(q);
    AtShift2Y(q.q0, q.q1, q.q2, q.q3, d2.x, d2.y, d2.z, Add4(q, Basis(2)).q2, Sub4(q, Basis(2)).q2);
  }

  lemma Diff2Z(a: real, b: real, c: real, e: real, x: real, y: real, z: real, up: real, dn: real)
    requires up == c + 1.0 && dn == c - 1.0
    ensures 0.5 * ((x * (a * up + b * e) + y * (up * e - a * b) + z * (0.5 - b * b - up * up)) - (x * (a * dn + b * e) + y * (dn * e - a * b) + z * (0.5 - b * b - dn * dn))) == x * a + y * e - 2.0 * z * c
  {
  }

  lemma AtShift2Z(a: real, b: real, c: real, e: real, x: real, y: real, z: real, up: real, dn: real)
    requires up == c + 1.0 && dn == c - 1.0
    ensures 0.5 * (RotateAndScaleVector(Quat(a, b, up, e), Vec3(x, y, z)).z - RotateAndScaleVector(Quat(a, b, dn, e), Vec3(x, y, z)).z)
         == x * a + y * e - 2.0 * z * c
  {
    UnfoldZ(a, b, up, e, x, y, z);
    UnfoldZ(a, b, dn, e, x, y, z);
    Diff2Z(a, b, c, e, x, y, z, up, dn);
  }

  /** Component z of the partial derivative along axis 2: entry (z, 2) of the step's coefficients. */
  lemma PartialAxis2Z(q: Quat, d2: Vec3)
    ensures Partial(q, d2, 2).z == d2.x * q.q0 + d2.y * q.q3 - 2.0 * d2.z * q.q2
  {
    Shift2(q);
    AtShift2Z(q.q0, q.q1, q.q2, q.q3, d2.x, d2.y, d2.z, Add4(q, Basis(2)).q2, Sub4(q, Basis(2)).q2);
  }

  lemma Shift3(q: Quat)
    ensures Add4(q, Basis(3)) == Quat(q.q0, q.q1, q.q2, q.q3 + 1.0)
    ensures Sub4(q, Basis(3)) == Quat(q.q0, q.q1, q.q2, q.q3 - 1.0)
  {
  }

  lemma Diff3X(a: real, b: real, c: real, e: real, x: real, y: real, z: real, up: real, dn: real)
    requires up == e + 1.0 && dn == e - 1.0
    ensures 0.5 * ((x * (0.5 - c * c - up * up) + y * (a * up + b * c) + z * (b * up - a * c)) - (x * (0.5 - c * c - dn * dn) + y * (a * dn + b * c) + z * (b * dn - a * c))) == -2.0 * x * e + y * a + z * b
  {
  }

  lemma AtShift3X(a: real, b: real, c: real, e: real, x: real, y: real, z: real, up: real, dn: real)
    requires up == e + 1.0 && dn == e - 1.0
    ensures 0.5 * (RotateAndScaleVector(Quat(a, b, c, up), Vec3(x, y, z)).x - RotateAndScaleVector(Quat(a, b, c, dn), Vec3(x, y, z)).x)
         == -2.0 * x * e + y * a + z * b
  {
    UnfoldX(a, b, c, up, x, y, z);
    UnfoldX(a, b, c, dn, x, y, z);
    Diff3X(a, b, c, e, x, y, z, up, dn);
  }

  /** Component x of the partial derivative along axis 3: entry (x, 3) of the step's coefficients. */
  lemma PartialAxis3X(q: Quat, d2: Vec3)
    ensures Partial(q, d2, 3).x == -2.0 * d2.x * q.q3 + d2.y * q.q0 + d2.z * q.q1
  {
    Shift3(q);
    AtShift3X(q.q0, q.q1, q.q2, q.q3, d2.x, d2.y, d2.z, Add4(q, Basis(3)).q3, Sub4(q, Basis(3)).q3);
  }

  lemma Diff3Y(a: real, b: real, c: real, e: real, x: real, y: real, z: real, up: real, dn: real)
    requires up == e + 1.0 && dn == e - 1.0
    ensures 0.5 * ((x * (b * c - a * up) + y * (0.5 - b * b - up * up) + z * (a * b + c * up)) - (x * (b * c - a * dn) + y * (0.5 - b * b - dn * dn) + z * (a * b + c * dn))) == -x * a - 2.0 * y * e + z * c
  {
  }

  lemma AtShift3Y(a: real, b: real, c: real, e: real, x: real, y: real, z: real, up: real, dn: real)
    requires up == e + 1.0 && dn == e - 1.0
    ensures 0.5 * (RotateAndScaleVector(Quat(a, b, c, up), Vec3(x, y, z)).y - RotateAndScaleVector(Quat(a, b, c, dn), Vec3(x, y, z)).y)
         == -x * a - 2.0 * y * e + z * c
  {
    UnfoldY(a, b, c, up, x, y, z);
    UnfoldY(a, b, c, dn, x, y, z);
    Diff3Y(a, b, c, e, x, y, z, up, dn);
  }

  /** Component y of the partial derivative along axis 3: entry (y, 3) of the step's coefficients. */
  lemma PartialAxis3Y(q: Quat, d2: Vec3)
    ensures Partial(q, d2, 3).y == -d2.x * q.q0 - 2.0 * d2.y * q.q3 + d2.z * q.q2
  {
    Shift3(q);
    AtShift3Y(q.q0, q.q1, q.q2, q.q3, d2.x, d2.y, d2.z, Add4(q, Basis(3)).q3, Sub4(q, Basis(3)).q3);
  }

  lemma Diff3Z(a: real, b: real, c: real, e: real, x: real, y: real, z: real, up: real, dn: real)
    requires up == e + 1.0 && dn == e - 1.0
    ensures 0.5 * ((x * (a * c + b * up) + y * (c * up - a * b) + z * (0.5 - b * b - c * c)) - (x * (a * c + b * dn) + y * (c * dn - a * b) + z * (0.5 - b * b - c * c))) == x * b + y * c
  {
  }

  lemma AtShift3Z(a: real, b: real, c: real, e: real, x: real, y: real, z: real, up: real, dn: real)
    requires up == e + 1.0 && dn == e - 1.0
    ensures 0.5 * (RotateAndScaleVector(Quat(a, b, c, up), Vec3(x, y, z)).z - RotateAndScaleVector(Quat(a, b, c, dn), Vec3(x, y, z)).z)
         == x * b + y * c
  {
    UnfoldZ(a, b, c, up, x, y, z);
    UnfoldZ(a, b, c, dn, x, y, z);
    Diff3Z(a, b, c, e, x, y, z, up, dn);
  }

  /** Component z of the partial derivative along axis 3: entry (z, 3) of the step's coefficients. */
  lemma PartialAxis3Z(q: Quat, d2: Vec3)
    ensures Partial(q, d2, 3).z == d2.x * q.q1 + d2.y * q.q2
  {
    Shift3(q);
    AtShift3Z(q.q0, q.q1, q.q2, q.q3, d2.x, d2.y, d2.z, Add4(q, Basis(3)).q3, Sub4(q, Basis(3)).q3);
  }

  // ---- the step's increment, row by row

  lemma IncrementUnfold0(q: Quat, d2: Vec3, f: Vec3, s: Quat)
    ensures AddGradient(q, d2, f, s).q0 == s.q0 + (d2.y * q.q3 - d2.z * q.q2) * f.x + (-d2.x * q.q3 + d2.z * q.q1) * f.y + (d2.x * q.q2 - d2.y * q.q1) * f.z
  {
  }

  lemma RowDot0(q: Quat, d2: Vec3, f: Vec3, s: real, g: real, p: Vec3)
    requires g == s + (d2.y * q.q3 - d2.z * q.q2) * f.x + (-d2.x * q.q3 + d2.z * q.q1) * f.y + (d2.x * q.q2 - d2.y * q.q1) * f.z
    requires p.x == d2.y * q.q3 - d2.z * q.q2 && p.y == -d2.x * q.q3 + d2.z * q.q1 && p.z == d2.x * q.q2 - d2.y * q.q1
    ensures g == s + Dot3(f, p)
  {
  }

  lemma Row0(q: Quat, d2: Vec3, f: Vec3, s: Quat, p: Vec3)
    requires p == Vec3(d2.y * q.q3 - d2.z * q.q2, -d2.x * q.q3 + d2.z * q.q1, d2.x * q.q2 - d2.y * q.q1)
    ensures AddGradient(q, d2, f, s).q0 == s.q0 + Dot3(f, p)
  {
    IncrementUnfold0(q, d2, f, s);
    RowDot0(q, d2, f, s.q0, AddGradient(q, d2, f, s).q0, p);
  }

  lemma IncrementUnfold1(q: Quat, d2: Vec3, f: Vec3, s: Quat)
    ensures AddGradient(q, d2, f, s).q1 == s.q1 + (d2.y * q.q2 + d2.z * q.q3) * f.x + (d2.x * q.q2 - 2.0 * d2.y * q.q1 + d2.z * q.q0) * f.y + (d2.x * q.q3 - d2.y * q.q0 - 2.0 * d2.z * q.q1) * f.z
  {
  }

  lemma RowDot1(q: Quat, d2: Vec3, f: Vec3, s: real, g: real, p: Vec3)
    requires g == s + (d2.y * q.q2 + d2.z * q.q3) * f.x + (d2.x * q.q2 - 2.0 * d2.y * q.q1 + d2.z * q.q0) * f.y + (d2.x * q.q3 - d2.y * q.q0 - 2.0 * d2.z * q.q1) * f.z
    requires p.x == d2.y * q.q2 + d2.z * q.q3 && p.y == d2.x * q.q2 - 2.0 * d2.y * q.q1 + d2.z * q.q0 && p.z == d2.x * q.q3 - d2.y * q.q0 - 2.0 * d2.z * q.q1
    ensures g == s + Dot3(f, p)
  {
  }

  lemma Row1(q: Quat, d2: Vec3, f: Vec3, s: Quat, p: Vec3)
    requires p == Vec3(d2.y * q.q2 + d2.z * q.q3, d2.x * q.q2 - 2.0 * d2.y * q.q1 + d2.z * q.q0, d2.x * q.q3 - d2.y * q.q0 - 2.0 * d2.z * q.q1)
    ensures AddGradient(q, d2, f, s).q1 == s.q1 + Dot3(f, p)
  {
    IncrementUnfold1(q, d2, f, s);
    RowDot1(q, d2, f, s.q1, AddGradient(q, d2, f, s).q1, p);
  }

  lemma IncrementUnfold2(q: Quat, d2: Vec3, f: Vec3, s: Quat)
    ensures AddGradient(q, d2, f, s).q2 == s.q2 + (-2.0 * d2.x * q.q2 + d2.y * q.q1 - d2.z * q.q0) * f.x + (d2.x * q.q1 + d2.z * q.q3) * f.y + (d2.x * q.q0 + d2.y * q.q3 - 2.0 * d2.z * q.q2) * f.z
  {
  }

  lemma RowDot2(q: Quat, d2: Vec3, f: Vec3, s: real, g: real, p: Vec3)
    requires g == s + (-2.0 * d2.x * q.q2 + d2.y * q.q1 - d2.z * q.q0) * f.x + (d2.x * q.q1 + d2.z * q.q3) * f.y + (d2.x * q.q0 + d2.y * q.q3 - 2.0 * d2.z * q.q2) * f.z
    requires p.x == -2.0 * d2.x * q.q2 + d2.y * q.q1 - d2.z * q.q0 && p.y == d2.x * q.q1 + d2.z * q.q3 && p.z == d2.x * q.q0 + d2.y * q.q3 - 2.0 * d2.z * q.q2
    ensures g == s + Dot3(f, p)
  {
  }

  lemma Row2(q: Quat, d2: Vec3, f: Vec3, s: Quat, p: Vec3)
    requires p == Vec3(-2.0 * d2.x * q.q2 + d2.y * q.q1 - d2.z * q.q0, d2.x * q.q1 + d2.z * q.q3, d2.x * q.q0 + d2.y * q.q3 - 2.0 * d2.z * q.q2)
    ensures AddGradient(q, d2, f, s).q2 == s.q2 + Dot3(f, p)
  {
    IncrementUnfold2(q, d2, f, s);
    RowDot2(q, d2, f, s.q2, AddGradient(q, d2, f, s).q2, p);
  }

  lemma IncrementUnfold3(q: Quat, d2: Vec3, f: Vec3, s: Quat)
    ensures AddGradient(q, d2, f, s).q3 == s.q3 + (-2.0 * d2.x * q.q3 + d2.y * q.q0 + d2.z * q.q1) * f.x + (-d2.x * q.q0 - 2.0 * d2.y * q.q3 + d2.z * q.q2) * f.y + (d2.x * q.q1 + d2.y * q.q2) * f.z
  {
  }

  lemma RowDot3(q: Quat, d2: Vec3, f: Vec3, s: real, g: real, p: Vec3)
    requires g == s + (-2.0 * d2.x * q.q3 + d2.y * q.q0 + d2.z * q.q1) * f.x + (-d2.x * q.q0 - 2.0 * d2.y * q.q3 + d2.z * q.q2) * f.y + (d2.x * q.q1 + d2.y * q.q2) * f.z
    requires p.x == -2.0 * d2.x * q.q3 + d2.y * q.q0 + d2.z * q.q1 && p.y == -d2.x * q.q0 - 2.0 * d2.y * q.q3 + d2.z * q.q2 && p.z == d2.x * q.q1 + d2.y * q.q2
    ensures g == s + Dot3(f, p)
  {
  }

  lemma Row3(q: Quat, d2: Vec3, f: Vec3, s: Quat, p: Vec3)
    requires p == Vec3(-2.0 * d2.x * q.q3 + d2.y * q.q0 + d2.z * q.q1, -d2.x * q.q0 - 2.0 * d2.y * q.q3 + d2.z * q.q2, d2.x * q.q1 + d2.y * q.q2)
    ensures AddGradient(q, d2, f, s).q3 == s.q3 + Dot3(f, p)
  {
    IncrementUnfold3(q, d2, f, s);
    RowDot3(q, d2, f, s.q3, AddGradient(q, d2, f, s).q3, p);
  }

  lemma GradientOfRows(q: Quat, d2: Vec3, f: Vec3, s: Quat, p0: Vec3, p1: Vec3, p2: Vec3, p3: Vec3)
    requires p0 == Vec3(d2.y * q.q3 - d2.z * q.q2, -d2.x * q.q3 + d2.z * q.q1, d2.x * q.q2 - d2.y * q.q1)
    requires p1 == Vec3(d2.y * q.q2 + d2.z * q.q3, d2.x * q.q2 - 2.0 * d2.y * q.q1 + d2.z * q.q0, d2.x * q.q3 - d2.y * q.q0 - 2.0 * d2.z * q.q1)
    requires p2 == Vec3(-2.0 * d2.x * q.q2 + d2.y * q.q1 - d2.z * q.q0, d2.x * q.q1 + d2.z * q.q3, d2.x * q.q0 + d2.y * q.q3 - 2.0 * d2.z * q.q2)
    requires p3 == Vec3(-2.0 * d2.x * q.q3 + d2.y * q.q0 + d2.z * q.q1, -d2.x * q.q0 - 2.0 * d2.y * q.q3 + d2.z * q.q2, d2.x * q.q1 + d2.y * q.q2)
    ensures AddGradient(q, d2, f, s) == Add4(s, Quat(Dot3(f, p0), Dot3(f, p1), Dot3(f, p2), Dot3(f, p3)))
  {
    Row0(q, d2, f, s, p0);
    Row1(q, d2, f, s, p1);
    Row2(q, d2, f, s, p2);
    Row3(q, d2, f, s, p3);
  }
}

/** Exact real-valued 3-vectors and quaternions: the part of Blender's
    `mathutils` (Vector, Quaternion) that the relative-motion computation uses.
    Floating point is replaced by `real`, so every identity below is exact. */
module Quaternions {

  /** A 3-vector (a bone or object location). */
  datatype Vec3 = Vec3(x: real, y: real, z: real)

  /** The quaternion w + x·i + y·j + z·k, in mathutils' (w, x, y, z) order. */
  datatype Quat = Quat(w: real, x: real, y: real, z: real)

  const Zero: Vec3 := Vec3(0.0, 0.0, 0.0)

  /** The identity rotation (1, 0, 0, 0). */
  const Identity: Quat := Quat(1.0, 0.0, 0.0, 0.0)

  // ---------------------------------------------------------------------------
  // Vectors
  // ---------------------------------------------------------------------------

  function Add(a: Vec3, b: Vec3): Vec3
  {
    Vec3(a.x + b.x, a.y + b.y, a.z + b.z)
  }

  function Scale(s: real, v: Vec3): Vec3
  {
    Vec3(s * v.x, s * v.y, s * v.z)
  }

  function LengthSq(v: Vec3): real
  {
    v.x * v.x + v.y * v.y + v.z * v.z
  }

  /** `a - b`: a fresh vector that, added back to `b`, gives `a`. */
  function Sub(a: Vec3, b: Vec3): (r: Vec3)
    ensures Add(b, r) == a
    ensures r == Zero <==> a == b
  {
    Vec3(a.x - b.x, a.y - b.y, a.z - b.z)
  }

  // ---------------------------------------------------------------------------
  // Quaternions
  // ---------------------------------------------------------------------------

  /** The squared norm w² + x² + y² + z². */
  function NormSq(q: Quat): real
  {
    q.w * q.w + q.x * q.x + q.y * q.y + q.z * q.z
  }

  /** A unit quaternion, the kind that represents a rotation. */
  predicate IsUnit(q: Quat)
  {
    NormSq(q) == 1.0
  }

  /** The real number `s` seen as a quaternion. */
  function Scalar(s: real): Quat
  {
    Quat(s, 0.0, 0.0, 0.0)
  }

  /** The vector `v` seen as a pure quaternion (0, v). */
  function Pure(v: Vec3): Quat
  {
    Quat(0.0, v.x, v.y, v.z)
  }

  function VectorPart(q: Quat): Vec3
  {
    Vec3(q.x, q.y, q.z)
  }

  /** `Quaternion.conjugated()`: a fresh quaternion with the vector part negated. */
  function Conj(q: Quat): (r: Quat)
    ensures NormSq(r) == NormSq(q)
    ensures r.w == q.w && VectorPart(r) == Scale(-1.0, VectorPart(q))
  {
    Quat(q.w, -q.x, -q.y, -q.z)
  }

  /** The Hamilton product p·q, which is what mathutils' `p * q` computes.
      (1, 0, 0, 0) is a unit on both sides. */
  function Mul(p: Quat, q: Quat): (r: Quat)
    ensures p == Identity ==> r == q
    ensures q == Identity ==> r == p
  {
    Quat(p.w * q.w - p.x * q.x - p.y * q.y - p.z * q.z,
         p.w * q.x + p.x * q.w + p.y * q.z - p.z * q.y,
         p.w * q.y - p.x * q.z + p.y * q.w + p.z * q.x,
         p.w * q.z + p.x * q.y - p.y * q.x + p.z * q.w)
  }

  /** The sandwich q·(0, v)·q̄ whose vector part is `v` rotated by `q`. */
  function Sandwich(q: Quat, v: Vec3): Quat
  {
    Mul(Mul(q, Pure(v)), Conj(q))
  }

  /** Models `v.rotate(q)` for a unit `q`: the vector part of q·(0, v)·q̄.
      mathutils normalises `q` first, so for other `q` this is |q|² times its
      result. */
  function Rotate(v: Vec3, q: Quat): (r: Vec3)
    ensures v == Zero ==> r == Zero
  {
    VectorPart(Sandwich(q, v))
  }

  // ---------------------------------------------------------------------------
  // Algebra of the Hamilton product
  // ---------------------------------------------------------------------------

  /** A real factor commutes with every quaternion and scales it. */
  lemma MulScalar(s: real, q: Quat)
    ensures Mul(Scalar(s), q) == Mul(q, Scalar(s))
    ensures Mul(q, Scalar(s)) == Quat(s * q.w, s * q.x, s * q.y, s * q.z)
  {
  }

  /** q·q̄ = q̄·q = |q|², so the conjugate inverts a unit quaternion. */
  lemma MulConj(q: Quat)
    ensures Mul(q, Conj(q)) == Scalar(NormSq(q))
    ensures Mul(Conj(q), q) == Scalar(NormSq(q))
  {
  }

  // Associativity is proved component by component: each side of each
  // component is first expanded into a plain real polynomial in the
  // components of a, b and c, and the polynomials are then compared. Each step
  // is kept separate so that the nonlinear arithmetic stays small.

  lemma ExpandLeftW(a: Quat, b: Quat, c: Quat)
    ensures Mul(Mul(a, b), c).w
         == (a.w * b.w - a.x * b.x - a.y * b.y - a.z * b.z) * c.w
          - (a.w * b.x + a.x * b.w + a.y * b.z - a.z * b.y) * c.x
          - (a.w * b.y - a.x * b.z + a.y * b.w + a.z * b.x) * c.y
          - (a.w * b.z + a.x * b.y - a.y * b.x + a.z * b.w) * c.z
  {
  }

  lemma ExpandLeftX(a: Quat, b: Quat, c: Quat)
    ensures Mul(Mul(a, b), c).x
         == (a.w * b.w - a.x * b.x - a.y * b.y - a.z * b.z) * c.x
          + (a.w * b.x + a.x * b.w + a.y * b.z - a.z * b.y) * c.w
          + (a.w * b.y - a.x * b.z + a.y * b.w + a.z * b.x) * c.z
          - (a.w * b.z + a.x * b.y - a.y * b.x + a.z * b.w) * c.y
  {
  }

  lemma ExpandLeftY(a: Quat, b: Quat, c: Quat)
    ensures Mul(Mul(a, b), c).y
         == (a.w * b.w - a.x * b.x - a.y * b.y - a.z * b.z) * c.y
          - (a.w * b.x + a.x * b.w + a.y * b.z - a.z * b.y) * c.z
          + (a.w * b.y - a.x * b.z + a.y * b.w + a.z * b.x) * c.w
          + (a.w * b.z + a.x * b.y - a.y * b.x + a.z * b.w) * c.x
  {
  }

  lemma ExpandLeftZ(a: Quat, b: Quat, c: Quat)
    ensures Mul(Mul(a, b), c).z
         == (a.w * b.w - a.x * b.x - a.y * b.y - a.z * b.z) * c.z
          + (a.w * b.x + a.x * b.w + a.y * b.z - a.z * b.y) * c.y
          - (a.w * b.y - a.x * b.z + a.y * b.w + a.z * b.x) * c.x
          + (a.w * b.z + a.x * b.y - a.y * b.x + a.z * b.w) * c.w
  {
  }

  lemma ExpandRightW(a: Quat, b: Quat, c: Quat)
    ensures Mul(a, Mul(b, c)).w
         == a.w * (b.w * c.w - b.x * c.x - b.y * c.y - b.z * c.z)
          - a.x * (b.w * c.x + b.x * c.w + b.y * c.z - b.z * c.y)
          - a.y * (b.w * c.y - b.x * c.z + b.y * c.w + b.z * c.x)
          - a.z * (b.w * c.z + b.x * c.y - b.y * c.x + b.z * c.w)
  {
  }

  lemma ExpandRightX(a: Quat, b: Quat, c: Quat)
    ensures Mul(a, Mul(b, c)).x
         == a.w * (b.w * c.x + b.x * c.w + b.y * c.z - b.z * c.y)
          + a.x * (b.w * c.w - b.x * c.x - b.y * c.y - b.z * c.z)
          + a.y * (b.w * c.z + b.x * c.y - b.y * c.x + b.z * c.w)
          - a.z * (b.w * c.y - b.x * c.z + b.y * c.w + b.z * c.x)
  {
  }

  lemma ExpandRightY(a: Quat, b: Quat, c: Quat)
    ensures Mul(a, Mul(b, c)).y
         == a.w * (b.w * c.y - b.x * c.z + b.y * c.w + b.z * c.x)
          - a.x * (b.w * c.z + b.x * c.y - b.y * c.x + b.z * c.w)
          + a.y * (b.w * c.w - b.x * c.x - b.y * c.y - b.z * c.z)
          + a.z * (b.w * c.x + b.x * c.w + b.y * c.z - b.z * c.y)
  {
  }

  lemma ExpandRightZ(a: Quat, b: Quat, c: Quat)
    ensures Mul(a, Mul(b, c)).z
         == a.w * (b.w * c.z + b.x * c.y - b.y * c.x + b.z * c.w)
          + a.x * (b.w * c.y - b.x * c.z + b.y * c.w + b.z * c.x)
          - a.y * (b.w * c.x + b.x * c.w + b.y * c.z - b.z * c.y)
          + a.z * (b.w * c.w - b.x * c.x - b.y * c.y - b.z * c.z)
  {
  }

  lemma AssocPolynomials(a: Quat, b: Quat, c: Quat)
    ensures   (a.w * b.w - a.x * b.x - a.y * b.y - a.z * b.z) * c.w
            - (a.w * b.x + a.x * b.w + a.y * b.z - a.z * b.y) * c.x
            - (a.w * b.y - a.x * b.z + a.y * b.w + a.z * b.x) * c.y
            - (a.w * b.z + a.x * b.y - a.y * b.x + a.z * b.w) * c.z
         == a.w * (b.w * c.w - b.x * c.x - b.y * c.y - b.z * c.z)
            - a.x * (b.w * c.x + b.x * c.w + b.y * c.z - b.z * c.y)
            - a.y * (b.w * c.y - b.x * c.z + b.y * c.w + b.z * c.x)
            - a.z * (b.w * c.z + b.x * c.y - b.y * c.x + b.z * c.w)
    ensures   (a.w * b.w - a.x * b.x - a.y * b.y - a.z * b.z) * c.x
            + (a.w * b.x + a.x * b.w + a.y * b.z - a.z * b.y) * c.w
            + (a.w * b.y - a.x * b.z + a.y * b.w + a.z * b.x) * c.z
            - (a.w * b.z + a.x * b.y - a.y * b.x + a.z * b.w) * c.y
         == a.w * (b.w * c.x + b.x * c.w + b.y * c.z - b.z * c.y)
            + a.x * (b.w * c.w - b.x * c.x - b.y * c.y - b.z * c.z)
            + a.y * (b.w * c.z + b.x * c.y - b.y * c.x + b.z * c.w)
            - a.z * (b.w * c.y - b.x * c.z + b.y * c.w + b.z * c.x)
    ensures   (a.w * b.w - a.x * b.x - a.y * b.y - a.z * b.z) * c.y
            - (a.w * b.x + a.x * b.w + a.y * b.z - a.z * b.y) * c.z
            + (a.w * b.y - a.x * b.z + a.y * b.w + a.z * b.x) * c.w
            + (a.w * b.z + a.x * b.y - a.y * b.x + a.z * b.w) * c.x
         == a.w * (b.w * c.y - b.x * c.z + b.y * c.w + b.z * c.x)
            - a.x * (b.w * c.z + b.x * c.y - b.y * c.x + b.z * c.w)
            + a.y * (b.w * c.w - b.x * c.x - b.y * c.y - b.z * c.z)
            + a.z * (b.w * c.x + b.x * c.w + b.y * c.z - b.z * c.y)
    ensures   (a.w * b.w - a.x * b.x - a.y * b.y - a.z * b.z) * c.z
            + (a.w * b.x + a.x * b.w + a.y * b.z - a.z * b.y) * c.y
            - (a.w * b.y - a.x * b.z + a.y * b.w + a.z * b.x) * c.x
            + (a.w * b.z + a.x * b.y - a.y * b.x + a.z * b.w) * c.w
         == a.w * (b.w * c.z + b.x * c.y - b.y * c.x + b.z * c.w)
            + a.x * (b.w * c.y - b.x * c.z + b.y * c.w + b.z * c.x)
            - a.y * (b.w * c.x + b.x * c.w + b.y * c.z - b.z * c.y)
            + a.z * (b.w * c.w - b.x * c.x - b.y * c.y - b.z * c.z)
  {
  }

  lemma MulAssoc(a: Quat, b: Quat, c: Quat)
    ensures Mul(Mul(a, b), c) == Mul(a, Mul(b, c))
  {
    ExpandLeftW(a, b, c);
    ExpandRightW(a, b, c);
    ExpandLeftX(a, b, c);
    ExpandRightX(a, b, c);
    ExpandLeftY(a, b, c);
    ExpandRightY(a, b, c);
    ExpandLeftZ(a, b, c);
    ExpandRightZ(a, b, c);
    AssocPolynomials(a, b, c);
  }

  /** Conjugation is an involution. */
  lemma ConjConj(q: Quat)
    ensures Conj(Conj(q)) == q
  {
  }

  /** The squared norm is multiplicative. The proof goes through the same
      expand-then-compare steps as associativity; without them the solver
      finds the identity on some random seeds but not on others. */
  lemma NormSqMul(p: Quat, q: Quat)
    ensures NormSq(Mul(p, q)) == NormSq(p) * NormSq(q)
  {
    ExpandNormSqMul(p, q);
    ExpandNormSqProduct(p, q);
    NormSqPolynomials(p, q);
  }

  lemma ExpandNormSqMul(p: Quat, q: Quat)
    ensures NormSq(Mul(p, q))
         == (p.w * q.w - p.x * q.x - p.y * q.y - p.z * q.z) * (p.w * q.w - p.x * q.x - p.y * q.y - p.z * q.z)
          + (p.w * q.x + p.x * q.w + p.y * q.z - p.z * q.y) * (p.w * q.x + p.x * q.w + p.y * q.z - p.z * q.y)
          + (p.w * q.y - p.x * q.z + p.y * q.w + p.z * q.x) * (p.w * q.y - p.x * q.z + p.y * q.w + p.z * q.x)
          + (p.w * q.z + p.x * q.y - p.y * q.x + p.z * q.w) * (p.w * q.z + p.x * q.y - p.y * q.x + p.z * q.w)
  {
  }

  lemma ExpandNormSqProduct(p: Quat, q: Quat)
    ensures NormSq(p) * NormSq(q)
         == (p.w * p.w + p.x * p.x + p.y * p.y + p.z * p.z) * (q.w * q.w + q.x * q.x + q.y * q.y + q.z * q.z)
  {
  }

  lemma NormSqPolynomials(p: Quat, q: Quat)
    ensures (p.w * q.w - p.x * q.x - p.y * q.y - p.z * q.z) * (p.w * q.w - p.x * q.x - p.y * q.y - p.z * q.z)
          + (p.w * q.x + p.x * q.w + p.y * q.z - p.z * q.y) * (p.w * q.x + p.x * q.w + p.y * q.z - p.z * q.y)
          + (p.w * q.y - p.x * q.z + p.y * q.w + p.z * q.x) * (p.w * q.y - p.x * q.z + p.y * q.w + p.z * q.x)
          + (p.w * q.z + p.x * q.y - p.y * q.x + p.z * q.w) * (p.w * q.z + p.x * q.y - p.y * q.x + p.z * q.w)
         == (p.w * p.w + p.x * p.x + p.y * p.y + p.z * p.z) * (q.w * q.w + q.x * q.x + q.y * q.y + q.z * q.z)
  {
  }

  // ---------------------------------------------------------------------------
  // Rotation of vectors
  // ---------------------------------------------------------------------------

  /** The sandwich never has a scalar part, so `Pure` of the rotated vector
      recovers the whole sandwich. */
  lemma SandwichIsPure(v: Vec3, q: Quat)
    ensures Pure(Rotate(v, q)) == Sandwich(q, v)
  {
  }

  /** Rotating scales the squared length by |q|⁴; a unit quaternion keeps it. */
  lemma RotateLength(v: Vec3, q: Quat)
    ensures LengthSq(Rotate(v, q)) == NormSq(q) * NormSq(q) * LengthSq(v)
    ensures IsUnit(q) ==> LengthSq(Rotate(v, q)) == LengthSq(v)
  {
    var r := Rotate(v, q);
    SandwichIsPure(v, q);
    assert NormSq(Pure(r)) == LengthSq(r);
    assert NormSq(Pure(v)) == LengthSq(v);
    NormSqMul(q, Pure(v));
    NormSqMul(Mul(q, Pure(v)), Conj(q));
  }

  /** Rotating by q and then by q̄ scales by |q|⁴; for a unit q it undoes the rotation. */
  lemma RotateConj(v: Vec3, q: Quat)
    ensures Rotate(Rotate(v, q), Conj(q)) == Scale(NormSq(q) * NormSq(q), v)
    ensures IsUnit(q) ==> Rotate(Rotate(v, q), Conj(q)) == v
  {
    var n := NormSq(q);
    var u := Rotate(v, q);
    var c := Conj(q);
    SandwichIsPure(v, q);
    SandwichIsPure(u, c);
    // Pure(u) = q·V·q̄, so the second sandwich is (q̄·q)·V·(q̄·q) = n·V·n.
    calc {
      Pure(Rotate(u, c));
      Mul(Mul(c, Pure(u)), Conj(c));
      Mul(Mul(c, Mul(Mul(q, Pure(v)), c)), q);
      { MulAssoc(q, Pure(v), c); }
      Mul(Mul(c, Mul(q, Mul(Pure(v), c))), q);
      { MulAssoc(c, q, Mul(Pure(v), c)); }
      Mul(Mul(Mul(c, q), Mul(Pure(v), c)), q);
      { MulConj(q); }
      Mul(Mul(Scalar(n), Mul(Pure(v), c)), q);
      { MulAssoc(Scalar(n), Mul(Pure(v), c), q); MulAssoc(Pure(v), c, q); }
      Mul(Scalar(n), Mul(Pure(v), Mul(c, q)));
      { MulConj(q); }
      Mul(Scalar(n), Mul(Pure(v), Scalar(n)));
      { MulScalar(n, Pure(v)); MulScalar(n, Mul(Pure(v), Scalar(n))); }
      Pure(Scale(n * n, v));
    }
    assert Rotate(u, c) == VectorPart(Pure(Rotate(u, c)));
  }

  /** The inverse direction: rotating by q̄ and then by q also undoes a unit rotation. */
  lemma ConjRotate(v: Vec3, q: Quat)
    requires IsUnit(q)
    ensures Rotate(Rotate(v, Conj(q)), q) == v
  {
    RotateConj(v, Conj(q));
  }

  /** Rotation is linear, so it distributes over a difference. */
  lemma RotateSub(a: Vec3, b: Vec3, q: Quat)
    ensures Rotate(Sub(a, b), q) == Sub(Rotate(a, q), Rotate(b, q))
  {
  }
}

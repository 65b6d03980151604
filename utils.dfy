/** The shared helpers `distance`, `clamp` and `in_vision_cone`. */
module Utils {
  import opened Geometry

  /** `distance(a, b)`: the Euclidean distance between two positions. */
  function Distance(lib: MathLib, a: Vec, b: Vec): (r: real)
    requires Sound(lib)
    ensures r >= 0.0
    ensures r == 0.0 <==> a == b
  {
    var d := Sub(a, b);
    assert d == Zero <==> a == b;
    Length(lib, d)
  }

  /** The distance does not depend on the order of its arguments. */
  lemma DistanceSymmetric(lib: MathLib, a: Vec, b: Vec)
    requires Sound(lib)
    ensures Distance(lib, a, b) == Distance(lib, b, a)
  {
    LengthSquared(lib, Sub(a, b));
    LengthSquared(lib, Sub(b, a));
    SqNeg(a.x - b.x);
    SqNeg(a.y - b.y);
    assert NormSq(Sub(a, b)) == NormSq(Sub(b, a));
    RootUnique(Distance(lib, a, b), Distance(lib, b, a));
  }

  /** `clamp(val, low, high) = max(low, min(high, val))`. */
  function Clamp(v: real, lo: real, hi: real): (r: real)
    ensures lo <= hi ==> lo <= r <= hi
    ensures lo <= v <= hi ==> r == v
    ensures v < lo ==> r == lo
    ensures lo <= hi && hi < v ==> r == hi
    ensures hi < lo ==> r == lo
  {
    var m := if hi <= v then hi else v;
    if lo >= m then lo else m
  }

  /** Clamping a clamped value changes nothing, whatever the bounds. */
  lemma ClampIdempotent(v: real, lo: real, hi: real)
    ensures Clamp(Clamp(v, lo, hi), lo, hi) == Clamp(v, lo, hi)
  {
  }

  /** The sight test without square roots: `p / sqrt(n) >= c` for `p` the dot product of the
      facing with the offset and `n` the squared length of that offset. */
  predicate ConeTest(p: real, n: real, c: real)
  {
    if c >= 0.0 then p >= 0.0 && Sq(p) >= Sq(c) * n
    else p >= 0.0 || Sq(p) <= Sq(c) * n
  }

  /** `in_vision_cone(agent, target)`: the target is at a non-zero distance of at most the vision
      distance, and the unit vector toward it makes a dot product of at least `cosHalfVision` with
      the facing. Positions are top-left corners; no maze is consulted, so walls do not block sight. */
  function InVisionCone(lib: MathLib, pos: Vec, facing: Vec, visionDistance: real, cosHalfVision: real, target: Vec): (r: bool)
    requires Sound(lib)
    ensures target == pos ==> !r
    ensures NormSq(Sub(target, pos)) > Sq(visionDistance) ==> !r
  {
    var d := Sub(target, pos);
    var distSq := Sq(d.x) + Sq(d.y);
    if distSq == 0.0 || distSq > Sq(visionDistance) then false
    else
      var root := lib.sqrt(distSq);
      assert SqrtRoot(lib, distSq);
      SqZero(root);
      var invDist := 1.0 / root;
      var toTarget := Vec(d.x * invDist, d.y * invDist);
      Dot(facing, toTarget) >= cosHalfVision
  }

  /** Dividing a dot product by a positive length and comparing with `c` is the root-free test. */
  lemma ConeCore(p: real, m: real, c: real)
    requires m > 0.0
    ensures p >= c * m <==> ConeTest(p, Sq(m), c)
  {
    SqMul(c, m);
    if c >= 0.0 {
      ProductNonNeg(c * m, c, m);
      if p >= 0.0 {
        SqMonotone(p, c * m);
      }
    } else {
      ProductPos(-(c * m), -c, m);
      SqMul(-c, m);
      if p < 0.0 {
        SqMonotone(-(c * m), -p);
        SqNeg(p);
      }
    }
  }

  /** The exact sight condition: in range (the range bound is inclusive) and within the cone
      (the cone edge is inclusive), stated with the distance to the target. */
  lemma VisionConeExact(lib: MathLib, pos: Vec, facing: Vec, visionDistance: real, cosHalfVision: real, target: Vec)
    requires Sound(lib)
    ensures var d := Sub(target, pos);
      InVisionCone(lib, pos, facing, visionDistance, cosHalfVision, target)
      <==> 0.0 < NormSq(d) <= Sq(visionDistance) && Dot(facing, d) >= cosHalfVision * Length(lib, d)
  {
    var d := Sub(target, pos);
    var n := NormSq(d);
    if 0.0 < n <= Sq(visionDistance) {
      var m := lib.sqrt(n);
      assert SqrtRoot(lib, n);
      SqZero(m);
      LengthIsRoot(lib, d, m);
      var inv := 1.0 / m;
      assert Dot(facing, Vec(d.x * inv, d.y * inv)) == Dot(facing, d) / m;
      assert Dot(facing, d) / m >= cosHalfVision <==> Dot(facing, d) >= cosHalfVision * m;
    }
  }

  /** The same condition with no root at all, by comparing squares. */
  lemma VisionConeRootFree(lib: MathLib, pos: Vec, facing: Vec, visionDistance: real, cosHalfVision: real, target: Vec)
    requires Sound(lib)
    ensures var d := Sub(target, pos);
      InVisionCone(lib, pos, facing, visionDistance, cosHalfVision, target)
      <==> 0.0 < NormSq(d) <= Sq(visionDistance) && ConeTest(Dot(facing, d), NormSq(d), cosHalfVision)
  {
    var d := Sub(target, pos);
    VisionConeExact(lib, pos, facing, visionDistance, cosHalfVision, target);
    if NormSq(d) > 0.0 {
      LengthSquared(lib, d);
      ConeCore(Dot(facing, d), Length(lib, d), cosHalfVision);
    }
  }

  /** A target straight ahead at exactly the vision distance is seen: the range test is `>`,
      not `>=`, and any cone half-angle has a cosine of at most one. */
  lemma SeenAtFullRange(lib: MathLib, pos: Vec, facing: Vec, visionDistance: real, cosHalfVision: real)
    requires Sound(lib)
    requires NormSq(facing) == 1.0 && visionDistance > 0.0 && cosHalfVision <= 1.0
    ensures InVisionCone(lib, pos, facing, visionDistance, cosHalfVision, Add(pos, Scale(facing, visionDistance)))
  {
    var target := Add(pos, Scale(facing, visionDistance));
    var d := Sub(target, pos);
    assert d == Scale(facing, visionDistance);
    ScaledUnit(facing, visionDistance);
    SqPos(visionDistance);
    assert 0.0 < NormSq(d) <= Sq(visionDistance);
    ConeAtFullRange(visionDistance, cosHalfVision);
    assert ConeTest(Dot(facing, d), NormSq(d), cosHalfVision);
    VisionConeRootFree(lib, pos, facing, visionDistance, cosHalfVision, target);
  }

  lemma ConeAtFullRange(v: real, c: real)
    requires v > 0.0 && c <= 1.0
    ensures ConeTest(v, Sq(v), c)
  {
    if c >= 0.0 {
      SqMonotone(c, 1.0);
      SqPos(v);
      ProductNonNeg((1.0 - Sq(c)) * Sq(v), 1.0 - Sq(c), Sq(v));
    }
  }
}

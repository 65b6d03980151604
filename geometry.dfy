/** Points and vectors in pixel space, squares of reals, Python's `int()` truncation and the
    host math routines (`math.hypot`, `math.sqrt`, `math.cos`, `math.pi`) the game calls. */
module Geometry {

  datatype Option<T> = None | Some(value: T)

  /** A pixel-space point or displacement: the source's `(x, y)` tuples and `.x`/`.y` pairs. */
  datatype Vec = Vec(x: real, y: real)

  const Zero := Vec(0.0, 0.0)

  function Add(a: Vec, b: Vec): Vec { Vec(a.x + b.x, a.y + b.y) }

  function Sub(a: Vec, b: Vec): Vec { Vec(a.x - b.x, a.y - b.y) }

  function Scale(a: Vec, k: real): Vec { Vec(a.x * k, a.y * k) }

  function Dot(a: Vec, b: Vec): real { a.x * b.x + a.y * b.y }

  /** The square of a real. Every square in the model goes through this function. */
  function Sq(a: real): real { a * a }

  // ----- arithmetic on products and squares -----

  lemma ProductPos(p: real, a: real, b: real)
    requires p == a * b && a > 0.0 && b > 0.0
    ensures p > 0.0
  {
  }

  lemma ProductNonNeg(p: real, a: real, b: real)
    requires p == a * b && a >= 0.0 && b >= 0.0
    ensures p >= 0.0
  {
  }

  lemma SqPos(a: real)
    requires a != 0.0
    ensures Sq(a) > 0.0
  {
    if a > 0.0 {
      ProductPos(Sq(a), a, a);
    } else {
      ProductPos(Sq(a), -a, -a);
    }
  }

  lemma SqNonNeg(a: real)
    ensures Sq(a) >= 0.0
  {
    if a != 0.0 {
      SqPos(a);
    }
  }

  lemma SqZero(a: real)
    ensures Sq(a) == 0.0 <==> a == 0.0
  {
    if a != 0.0 {
      SqPos(a);
    }
  }

  /** Non-negative reals compare like their squares. */
  lemma SqMonotone(a: real, b: real)
    requires a >= 0.0 && b >= 0.0
    ensures a < b <==> Sq(a) < Sq(b)
  {
    if a < b {
      ProductPos(Sq(b) - Sq(a), b - a, b + a);
    } else {
      ProductNonNeg(Sq(a) - Sq(b), a - b, a + b);
    }
  }

  /** Two non-negative roots of the same square are equal. */
  lemma RootUnique(a: real, b: real)
    requires a >= 0.0 && b >= 0.0 && Sq(a) == Sq(b)
    ensures a == b
  {
    SqMonotone(a, b);
    SqMonotone(b, a);
  }

  lemma SqNeg(a: real)
    ensures Sq(-a) == Sq(a)
  {
  }

  lemma SqMul(a: real, b: real)
    ensures Sq(a * b) == Sq(a) * Sq(b)
  {
  }

  // ----- vector lengths -----

  /** Squared Euclidean length: never negative, and positive exactly for a non-zero vector. */
  function NormSq(a: Vec): (r: real)
    ensures r >= 0.0
    ensures r > 0.0 <==> a != Zero
  {
    SqNonNeg(a.x);
    SqNonNeg(a.y);
    SqZero(a.x);
    SqZero(a.y);
    Sq(a.x) + Sq(a.y)
  }

  /** The host math library, as real functions supplied by the caller. */
  datatype MathLib = MathLib(hypot: (real, real) -> real, sqrt: real -> real, cos: real -> real, pi: real)

  /** `math.hypot(dx, dy)` is the non-negative square root of `dx*dx + dy*dy`. */
  predicate HypotRoot(lib: MathLib, dx: real, dy: real)
  {
    lib.hypot(dx, dy) >= 0.0 && Sq(lib.hypot(dx, dy)) == Sq(dx) + Sq(dy)
  }

  /** `math.sqrt(v)` of a non-negative `v` is its non-negative square root. */
  predicate SqrtRoot(lib: MathLib, v: real)
  {
    v >= 0.0 ==> lib.sqrt(v) >= 0.0 && Sq(lib.sqrt(v)) == v
  }

  /** What the model assumes of the host library: `hypot` and `sqrt` return non-negative roots.
      The facts are reached through `HypotRoot` and `SqrtRoot`, so that a proof sees them only
      where it asks for them. */
  ghost predicate Sound(lib: MathLib)
  {
    && (forall dx: real, dy: real :: HypotRoot(lib, dx, dy))
    && (forall v: real :: SqrtRoot(lib, v))
  }

  /** `math.hypot(d.x, d.y)`: the length of `d`, zero exactly for the zero vector. */
  function Length(lib: MathLib, d: Vec): (r: real)
    requires Sound(lib)
    ensures r >= 0.0
    ensures r > 0.0 <==> d != Zero
  {
    var r := lib.hypot(d.x, d.y);
    assert HypotRoot(lib, d.x, d.y);
    assert Sq(r) == NormSq(d);
    SqZero(r);
    r
  }

  /** The length squared is the squared length. */
  lemma LengthSquared(lib: MathLib, d: Vec)
    requires Sound(lib)
    ensures Sq(Length(lib, d)) == NormSq(d)
  {
    assert HypotRoot(lib, d.x, d.y);
  }

  /** Lengths compare like squared lengths, so distances may be compared without roots. */
  lemma LengthLess(lib: MathLib, a: Vec, b: Vec)
    requires Sound(lib)
    ensures Length(lib, a) < Length(lib, b) <==> NormSq(a) < NormSq(b)
  {
    LengthSquared(lib, a);
    LengthSquared(lib, b);
    SqMonotone(Length(lib, a), Length(lib, b));
  }

  /** A length is at most `t` exactly when `t` is non-negative and the squared length at most `t*t`. */
  lemma LengthAtMost(lib: MathLib, d: Vec, t: real)
    requires Sound(lib)
    ensures Length(lib, d) <= t <==> t >= 0.0 && NormSq(d) <= Sq(t)
  {
    LengthSquared(lib, d);
    if t >= 0.0 {
      SqMonotone(t, Length(lib, d));
    }
  }

  /** A length is determined by its square: any non-negative root of `NormSq(d)` is `Length(d)`. */
  lemma LengthIsRoot(lib: MathLib, d: Vec, m: real)
    requires Sound(lib) && m >= 0.0 && Sq(m) == NormSq(d)
    ensures Length(lib, d) == m
  {
    LengthSquared(lib, d);
    RootUnique(Length(lib, d), m);
  }

  /** Dividing a vector by its own length gives a vector of squared length one. */
  lemma UnitLength(dx: real, dy: real, m: real)
    requires m > 0.0 && Sq(m) == Sq(dx) + Sq(dy)
    ensures Sq(dx / m) + Sq(dy / m) == 1.0
  {
    var u := dx / m;
    var v := dy / m;
    assert Sq(dx) == Sq(u) * Sq(m);
    assert Sq(dy) == Sq(v) * Sq(m);
    SqPos(m);
    UnitCore(Sq(u), Sq(v), Sq(m), Sq(dx), Sq(dy));
  }

  lemma UnitCore(u: real, v: real, m: real, a: real, b: real)
    requires m > 0.0 && a == u * m && b == v * m && m == a + b
    ensures u + v == 1.0
  {
    assert (u + v - 1.0) * m == 0.0;
  }

  /** A unit vector scaled by `k` has squared length `k*k` and dot product `k` with itself. */
  lemma ScaledUnit(f: Vec, k: real)
    requires NormSq(f) == 1.0
    ensures NormSq(Scale(f, k)) == Sq(k) && Dot(f, Scale(f, k)) == k
  {
    SqMul(f.x, k);
    SqMul(f.y, k);
    assert NormSq(Scale(f, k)) == Sq(k) * NormSq(f);
    assert Dot(f, Scale(f, k)) == k * NormSq(f);
  }

  // ----- Python integer conversions -----

  /** Python's `int()` on a float: truncation toward zero. */
  function Trunc(v: real): (r: int)
    ensures 0.0 <= v ==> 0 <= r && r as real <= v < r as real + 1.0
    ensures v < 0.0 ==> r <= 0 && r as real - 1.0 < v <= r as real
  {
    if v >= 0.0 then v.Floor else -((-v).Floor)
  }

  /** Python's `max(a, b)` on ints. */
  function MaxInt(a: int, b: int): (r: int)
    ensures r >= a && r >= b && (r == a || r == b)
  {
    if a >= b then a else b
  }
}

/**
 * Shared real-valued vocabulary: three-component vectors (three.js `Vector3`
 * and `Euler` values), the clamp and lerp helpers of `THREE.MathUtils`, and the
 * transcendental functions of JavaScript's `Math`, which the model does not
 * define but receives as a parameter satisfying a handful of axioms.
 */
module RealMath {

  /** A three.js `Vector3` (or the x/y/z angles of an `Euler`), as a value. */
  datatype Vec3 = Vec3(x: real, y: real, z: real)
  {
    function Plus(o: Vec3): Vec3 { Vec3(x + o.x, y + o.y, z + o.z) }
    function Minus(o: Vec3): Vec3 { Vec3(x - o.x, y - o.y, z - o.z) }
    function Scale(k: real): Vec3 { Vec3(k * x, k * y, k * z) }
  }

  const Zero := Vec3(0.0, 0.0, 0.0)

  /** The last element of a nonempty sequence. */
  function Last(s: seq<real>): real
    requires |s| > 0
  {
    s[|s| - 1]
  }

  /** One of the `"x" | "y" | "z"` axis names used to index a vector or an `Euler`. */
  datatype Axis = X | Y | Z

  /** `v[axis]`. */
  function Component(v: Vec3, a: Axis): real
  {
    match a
    case X => v.x
    case Y => v.y
    case Z => v.z
  }

  /** `v[axis] = value`: that component replaced, the other two kept. */
  function WithComponent(v: Vec3, a: Axis, value: real): (r: Vec3)
    ensures Component(r, a) == value
    ensures forall b :: b != a ==> Component(r, b) == Component(v, b)
  {
    match a
    case X => v.(x := value)
    case Y => v.(y := value)
    case Z => v.(z := value)
  }

  /** `x * x`; kept as a function so that squared terms match wherever they occur. */
  function Sq(x: real): (r: real)
    ensures r >= 0.0
  {
    x * x
  }

  function Dot(a: Vec3, b: Vec3): real { a.x * b.x + a.y * b.y + a.z * b.z }

  /** Squared Euclidean distance, the quantity under `distanceTo`'s square root. */
  function Dist2(a: Vec3, b: Vec3): (r: real)
    ensures r >= 0.0
  {
    var d := a.Minus(b);
    Dot(d, d)
  }

  /**
   * JavaScript's `Math.PI`, `Math.exp`, `Math.sin`, `Math.cos` and `Math.sqrt`.
   * They are left uninterpreted; `Sound` lists all the model relies on.
   */
  datatype Transcendentals = Transcendentals(
    pi: real,
    exp: real -> real,
    sin: real -> real,
    cos: real -> real,
    sqrt: real -> real)

  function Sqrt(m: Transcendentals, t: real): real { m.sqrt(t) }
  function Sin(m: Transcendentals, t: real): real { m.sin(t) }
  function Cos(m: Transcendentals, t: real): real { m.cos(t) }
  function Exp(m: Transcendentals, t: real): real { m.exp(t) }

  ghost predicate Sound(m: Transcendentals)
  {
    && 3.14 < m.pi < 3.15
    && (forall t :: -1.0 <= Sin(m, t) <= 1.0)
    && (forall t :: -1.0 <= Cos(m, t) <= 1.0)
    && (forall t :: t >= 0.0 ==> Sqrt(m, t) >= 0.0 && Sqrt(m, t) * Sqrt(m, t) == t)
    && Exp(m, 0.0) == 1.0
    && (forall t :: t <= 0.0 ==> 0.0 < Exp(m, t) <= 1.0)
  }

  /** `v.copy(start); v[axis] += offset`: moved by `offset` along one axis. */
  function Displaced(start: Vec3, axis: Axis, offset: real): (p: Vec3)
    ensures Component(p, axis) == Component(start, axis) + offset
    ensures forall a :: a != axis ==> Component(p, a) == Component(start, a)
  {
    WithComponent(start, axis, Component(start, axis) + offset)
  }

  /**
   * `sin(t)^2 + cos(t)^2 == 1`, needed only where a rotation must preserve
   * lengths; kept apart from `Sound` so that the other proofs do not carry it.
   */
  ghost predicate UnitCircle(m: Transcendentals)
  {
    forall t :: Sin(m, t) * Sin(m, t) + Cos(m, t) * Cos(m, t) == 1.0
  }

  /** Euclidean distance as `Vector3.distanceTo` computes it. */
  function Distance(m: Transcendentals, a: Vec3, b: Vec3): real
  {
    Sqrt(m, Dist2(a, b))
  }

  function Abs(v: real): (r: real)
    ensures r >= 0.0 && (r == v || r == -v)
  {
    if v < 0.0 then -v else v
  }

  function Min(a: real, b: real): (r: real)
    ensures r <= a && r <= b && (r == a || r == b)
  {
    if a <= b then a else b
  }

  function Max(a: real, b: real): (r: real)
    ensures r >= a && r >= b && (r == a || r == b)
  {
    if a >= b then a else b
  }

  /** `THREE.MathUtils.clamp(v, lo, hi)`, i.e. `Math.max(lo, Math.min(hi, v))`. */
  function Clamp(v: real, lo: real, hi: real): (r: real)
    requires lo <= hi
    ensures lo <= r <= hi
    ensures lo <= v <= hi ==> r == v
    ensures v < lo ==> r == lo
    ensures v > hi ==> r == hi
  {
    Max(lo, Min(hi, v))
  }

  /** `THREE.MathUtils.lerp(a, b, t)`, the affine blend `(1 - t) * a + t * b`. */
  function Lerp(a: real, b: real, t: real): (r: real)
    ensures t == 0.0 ==> r == a
    ensures t == 1.0 ==> r == b
  {
    (1.0 - t) * a + t * b
  }

  /** A root is below a nonnegative bound exactly when its square is below the bound's square. */
  lemma SqrtBelow(m: Transcendentals, x: real, c: real)
    requires Sound(m) && x >= 0.0 && c >= 0.0
    ensures Sqrt(m, x) < c <==> x < c * c
  {
    var s := Sqrt(m, x);
    assert s >= 0.0 && s * s == x;
    if s < c {
      SquareMonotone(s, c);
    } else {
      SquareMonotoneWeak(c, s);
    }
  }

  /** The same comparison against a root strictly above, as the dead zone test uses it. */
  lemma SqrtAbove(m: Transcendentals, x: real, c: real)
    requires Sound(m) && x >= 0.0 && c >= 0.0
    ensures Sqrt(m, x) > c <==> x > c * c
  {
    var s := Sqrt(m, x);
    assert s >= 0.0 && s * s == x;
    if s > c {
      SquareMonotone(c, s);
    } else {
      SquareMonotoneWeak(s, c);
    }
  }

  lemma SquareMonotone(a: real, b: real)
    requires 0.0 <= a < b
    ensures a * a < b * b
  {
    calc {
      a * a;
    <=
      a * b;
    <
      b * b;
    }
  }

  lemma SquareMonotoneWeak(a: real, b: real)
    requires 0.0 <= a <= b
    ensures a * a <= b * b
  {
    calc {
      a * a;
    <=
      a * b;
    <=
      b * b;
    }
  }

  /** A factor in [-1, 1] never grows a magnitude. */
  lemma UnitFactor(s: real, b: real)
    requires -1.0 <= s <= 1.0
    ensures Abs(s * b) <= Abs(b)
  {
    var a := Abs(b);
    NonnegativeProduct(1.0 - s, a);
    NonnegativeProduct(1.0 + s, a);
    assert Abs(s * b) == Abs(s) * a;
  }

  /** Scaling by a factor in [0, 1] neither grows a value nor flips its sign. */
  lemma Damped(b: real, f: real)
    requires 0.0 <= f <= 1.0
    ensures Abs(b * f) <= Abs(b) && (b * f) * b >= 0.0
  {
    UnitFactor(f, b);
    NonnegativeProduct(f, b * b);
    assert (b * f) * b == f * (b * b);
  }

  lemma NonnegativeProduct(a: real, b: real)
    requires a >= 0.0 && b >= 0.0
    ensures a * b >= 0.0
  {
  }

  /**
   * `Math.sin(elapsed * rate + phase) * amplitude`, the periodic motion of the
   * obstacles; it never exceeds the amplitude in magnitude.
   */
  function Oscillation(m: Transcendentals, elapsed: real, rate: real, phase: real, amplitude: real): (r: real)
    requires Sound(m)
    ensures Abs(r) <= Abs(amplitude)
  {
    var s := Sin(m, elapsed * rate + phase);
    UnitFactor(s, amplitude);
    s * amplitude
  }

  /** A distance is below `c` exactly when `c` is positive and the squared distance is below `c * c`. */
  lemma DistanceBelow(m: Transcendentals, a: Vec3, b: Vec3, c: real)
    requires Sound(m)
    ensures Distance(m, a, b) < c <==> c > 0.0 && Dist2(a, b) < c * c
  {
    if c >= 0.0 {
      SqrtBelow(m, Dist2(a, b), c);
    }
  }

  /** The square root is monotone on nonnegative arguments. */
  lemma SqrtMonotone(m: Transcendentals, x: real, y: real)
    requires Sound(m) && 0.0 <= x <= y
    ensures Sqrt(m, x) <= Sqrt(m, y)
  {
    var sx, sy := Sqrt(m, x), Sqrt(m, y);
    assert sx >= 0.0 && sx * sx == x && sy >= 0.0 && sy * sy == y;
    if sx > sy {
      SquareMonotone(sy, sx);
    }
  }
}

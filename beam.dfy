/**
 * The rotating beam obstacle (`client/src/components/RotatingBeam.tsx`): a
 * bar turning about one axis of its group at `elapsed * speed + timeOffset`
 * radians. In a mission the drone is hit when its distance to the nearest
 * point of the bar's centre segment is below `thickness / 2 + 0.6`, and a hit
 * deals 15 damage subject to the 2-second cooldown.
 */
module BeamModel {
  import opened RealMath
  import opened Collision
  import GameStore

  const DEFAULT_LENGTH := 8.0
  const DEFAULT_THICKNESS := 0.3
  const DEFAULT_SPEED := 0.5
  const DEFAULT_AXIS := Y
  /** Added to half the thickness to form the collision radius. */
  const HIT_MARGIN := 0.6
  const BEAM_DAMAGE := 15

  /** The world-space ends of the bar's centre line. */
  datatype Segment = Segment(start: Vec3, end: Vec3)

  /**
   * Where the bar-local point `(h, 0, 0)` lands, relative to the group's
   * position, once the group is turned by `angle` about `axis` (the rotation
   * matrices of three.js).
   */
  function RotatedOffset(h: real, axis: Axis, angle: real, m: Transcendentals): Vec3
  {
    match axis
    case X => Vec3(h, 0.0, 0.0)
    case Y => Vec3(h * Cos(m, angle), 0.0, -(h * Sin(m, angle)))
    case Z => Vec3(h * Cos(m, angle), h * Sin(m, angle), 0.0)
  }

  /**
   * `(-length / 2, 0, 0)` and `(length / 2, 0, 0)` rotated by `angle` about
   * `axis` and placed at the group's position, for a group whose parents
   * carry no transform; the ends lie symmetrically about that position.
   */
  function BeamEnds(center: Vec3, length: real, axis: Axis, angle: real, m: Transcendentals): (s: Segment)
    ensures s.start.Plus(s.end) == center.Scale(2.0)
  {
    Segment(center.Plus(RotatedOffset(-length / 2.0, axis, angle, m)),
            center.Plus(RotatedOffset(length / 2.0, axis, angle, m)))
  }

  /** Turning the bar does not change its length: the ends are `length` apart. */
  lemma BeamEndsApart(center: Vec3, length: real, axis: Axis, angle: real, m: Transcendentals)
    requires UnitCircle(m)
    ensures var s := BeamEnds(center, length, axis, angle, m);
            Dist2(s.end, s.start) == length * length
  {
    var s := BeamEnds(center, length, axis, angle, m);
    var c, sn := Cos(m, angle), Sin(m, angle);
    var d := s.end.Minus(s.start);
    assert sn * sn + c * c == 1.0;
    match axis
    case X =>
      assert d == Vec3(length, 0.0, 0.0);
    case Y =>
      assert d == Vec3(length * c, 0.0, -(length * sn));
      calc {
        Dot(d, d);
        (length * c) * (length * c) + (length * sn) * (length * sn);
        (length * length) * (c * c + sn * sn);
        length * length;
      }
    case Z =>
      assert d == Vec3(length * c, length * sn, 0.0);
      calc {
        Dot(d, d);
        (length * c) * (length * c) + (length * sn) * (length * sn);
        (length * length) * (c * c + sn * sn);
        length * length;
      }
  }

  /** `Math.max(0, Math.min(1, droneToStart.dot(lineDir) / lineLengthSq))`. */
  function SegmentParameter(p: Vec3, s: Segment): (t: real)
    requires Dist2(s.end, s.start) > 0.0
    ensures 0.0 <= t <= 1.0
  {
    var lineDir := s.end.Minus(s.start);
    Max(0.0, Min(1.0, Dot(p.Minus(s.start), lineDir) / Dot(lineDir, lineDir)))
  }

  /** The point `start + t * lineDir` of the segment at parameter `t`. */
  function PointAt(s: Segment, t: real): Vec3
  {
    s.start.Plus(s.end.Minus(s.start).Scale(t))
  }

  function ClosestPoint(p: Vec3, s: Segment): Vec3
    requires Dist2(s.end, s.start) > 0.0
  {
    PointAt(s, SegmentParameter(p, s))
  }

  /** The closest point is nearer to `p` than any other point of the segment. */
  lemma ClosestPointIsClosest(p: Vec3, s: Segment, u: real)
    requires Dist2(s.end, s.start) > 0.0 && 0.0 <= u <= 1.0
    ensures Dist2(p, ClosestPoint(p, s)) <= Dist2(p, PointAt(s, u))
  {
    var dir := s.end.Minus(s.start);
    var t := SegmentParameter(p, s);
    var W, k, L := Dist2(p, s.start), Dot(p.Minus(s.start), dir), Dot(dir, dir);
    ExpandAlongLine(p, s.start, dir, t);
    ExpandAlongLine(p, s.start, dir, u);
    ClampedVertexIsMinimum(W, k, L, t, u);
  }

  /** In particular it is no farther than either end of the bar. */
  lemma ClosestPointNoFartherThanEnds(p: Vec3, s: Segment)
    requires Dist2(s.end, s.start) > 0.0
    ensures Dist2(p, ClosestPoint(p, s)) <= Dist2(p, s.start)
    ensures Dist2(p, ClosestPoint(p, s)) <= Dist2(p, s.end)
  {
    ClosestPointIsClosest(p, s, 0.0);
    ClosestPointIsClosest(p, s, 1.0);
    assert PointAt(s, 0.0) == s.start;
    assert PointAt(s, 1.0) == s.end;
  }

  /** `W - 2 t k + t^2 L`: the squared distance along a line as a polynomial in `t`. */
  function Quadratic(W: real, k: real, L: real, t: real): real
  {
    W - 2.0 * t * k + t * t * L
  }

  /** The squared distance from `p` along the line `start + t * dir`, expanded in `t`. */
  lemma ExpandAlongLine(p: Vec3, start: Vec3, dir: Vec3, t: real)
    ensures Dist2(p, start.Plus(dir.Scale(t)))
            == Quadratic(Dist2(p, start), Dot(p.Minus(start), dir), Dot(dir, dir), t)
  {
    var w := p.Minus(start);
    var e := p.Minus(start.Plus(dir.Scale(t)));
    assert e == Vec3(w.x - t * dir.x, w.y - t * dir.y, w.z - t * dir.z);
    ComponentExpand(w.x, dir.x, t);
    ComponentExpand(w.y, dir.y, t);
    ComponentExpand(w.z, dir.z, t);
    var a, b, c := w.x * dir.x, w.y * dir.y, w.z * dir.z;
    var u, v, z := dir.x * dir.x, dir.y * dir.y, dir.z * dir.z;
    assert 2.0 * t * (a + b + c) == 2.0 * t * a + 2.0 * t * b + 2.0 * t * c;
    assert t * t * (u + v + z) == t * t * u + t * t * v + t * t * z;
  }

  lemma ComponentExpand(w: real, d: real, t: real)
    ensures (w - t * d) * (w - t * d) == w * w - 2.0 * t * (w * d) + t * t * (d * d)
  {
  }

  /** On [0, 1], `Quadratic(W, k, L, _)` with `L > 0` is smallest at `t = max(0, min(1, k / L))`. */
  lemma ClampedVertexIsMinimum(W: real, k: real, L: real, t: real, u: real)
    requires L > 0.0 && 0.0 <= u <= 1.0 && t == Max(0.0, Min(1.0, k / L))
    ensures Quadratic(W, k, L, t) <= Quadratic(W, k, L, u)
  {
    var q := k / L;
    assert k == q * L;
    assert Quadratic(W, k, L, u) - Quadratic(W, k, L, t) == (u - t) * ((u + t) * L - 2.0 * k);
    if q < 0.0 {
      assert t == 0.0;
      assert k < 0.0 by { NonnegativeProduct(-q, L); assert (-q) * L > 0.0; }
      NonnegativeProduct(u, u * L);
      NonnegativeProduct(u, (u + t) * L - 2.0 * k);
    } else if q > 1.0 {
      assert t == 1.0;
      assert k > L by { NonnegativeProduct(q - 1.0, L); assert (q - 1.0) * L > 0.0; }
      assert (u + t) * L <= 2.0 * L;
      NonnegativeProduct(1.0 - u, 2.0 * k - (u + t) * L);
      assert (u - t) * ((u + t) * L - 2.0 * k) == (1.0 - u) * (2.0 * k - (u + t) * L);
    } else {
      assert t == q;
      assert (u + t) * L - 2.0 * k == (u - t) * L;
      NonnegativeProduct((u - t) * (u - t), L);
      calc {
        Quadratic(W, k, L, u) - Quadratic(W, k, L, t);
        (u - t) * ((u + t) * L - 2.0 * k);
        (u - t) * ((u - t) * L);
        ((u - t) * (u - t)) * L;
      >=
        0.0;
      }
    }
  }

  /**
   * The hit test. A bar of length zero has `lineLengthSq == 0`, so `t` is
   * `NaN` and the comparison with the collision radius is false.
   */
  predicate BeamHit(m: Transcendentals, p: Vec3, s: Segment, thickness: real)
  {
    Dist2(s.end, s.start) > 0.0 && Distance(m, p, ClosestPoint(p, s)) < thickness / 2.0 + HIT_MARGIN
  }

  /** The hit test compared without the square root. */
  lemma BeamHitIff(m: Transcendentals, p: Vec3, s: Segment, thickness: real)
    requires Sound(m)
    ensures BeamHit(m, p, s, thickness) <==>
              && Dist2(s.end, s.start) > 0.0
              && thickness / 2.0 + HIT_MARGIN > 0.0
              && Dist2(p, ClosestPoint(p, s)) < (thickness / 2.0 + HIT_MARGIN) * (thickness / 2.0 + HIT_MARGIN)
  {
    if Dist2(s.end, s.start) > 0.0 {
      DistanceBelow(m, p, ClosestPoint(p, s), thickness / 2.0 + HIT_MARGIN);
    }
  }

  /** A drone within the collision radius of either end of a nondegenerate bar is hit. */
  lemma NearEndIsHit(m: Transcendentals, p: Vec3, s: Segment, thickness: real)
    requires Sound(m) && Dist2(s.end, s.start) > 0.0
    requires Distance(m, p, s.start) < thickness / 2.0 + HIT_MARGIN
             || Distance(m, p, s.end) < thickness / 2.0 + HIT_MARGIN
    ensures BeamHit(m, p, s, thickness)
  {
    var c := ClosestPoint(p, s);
    ClosestPointNoFartherThanEnds(p, s);
    SqrtMonotone(m, Dist2(p, c), Dist2(p, s.start));
    SqrtMonotone(m, Dist2(p, c), Dist2(p, s.end));
  }

  /** One mounted beam: its group's rotation and its `lastHitTime`. */
  class BeamInstance {
    const center: Vec3
    const length: real
    const thickness: real
    const speed: real
    const axis: Axis
    /** `Math.random() * Math.PI * 2`, drawn once per instance. */
    const timeOffset: real
    var rotation: Vec3
    const cooldown: Cooldown

    /** Only the beam's own axis is ever turned. */
    ghost predicate Valid()
      reads this, cooldown
    {
      && cooldown.Valid()
      && forall a :: a != axis ==> Component(rotation, a) == 0.0
    }

    constructor (center: Vec3, length: real, thickness: real, speed: real, axis: Axis, timeOffset: real)
      ensures this.center == center && this.length == length && this.thickness == thickness
      ensures this.speed == speed && this.axis == axis && this.timeOffset == timeOffset
      ensures rotation == Zero && fresh(cooldown) && cooldown.hits == []
      ensures Valid()
    {
      this.center := center;
      this.length := length;
      this.thickness := thickness;
      this.speed := speed;
      this.axis := axis;
      this.timeOffset := timeOffset;
      rotation := Zero;
      cooldown := new Cooldown();
    }

    /**
     * One frame at clock time `elapsed`: the rotation on the beam's axis is
     * set, and in a mission a hit is a collision at `elapsed`, dealing 15
     * damage when the cooldown has passed. `ends` are the bar's world-space
     * ends, taken as given: the mesh's world matrix is rebuilt from the
     * group's world matrix as last rendered, so they follow the previous
     * frame's rotation rather than the one just set.
     */
    method Frame(elapsed: real, dronePos: Vec3, mode: GameStore.GameMode, ends: Segment, log: DamageLog, m: Transcendentals)
      requires Sound(m) && Valid()
      modifies this`rotation, cooldown, log
      ensures Valid()
      ensures rotation == WithComponent(old(rotation), axis, elapsed * speed + timeOffset)
      ensures mode == GameStore.Mission && BeamHit(m, dronePos, ends, thickness) ==>
                && cooldown.hits == old(cooldown.hits) + [elapsed]
                && log.events == old(log.events)
                                 + (if CooledDown(old(cooldown.lastHitTime), elapsed) then [BEAM_DAMAGE] else [])
      ensures !(mode == GameStore.Mission && BeamHit(m, dronePos, ends, thickness)) ==>
                && cooldown.hits == old(cooldown.hits)
                && cooldown.lastHitTime == old(cooldown.lastHitTime)
                && log.events == old(log.events)
    {
      var time := elapsed * speed + timeOffset;
      Turn(time);
      if mode == GameStore.Mission {
        TestHit(elapsed, dronePos, ends, log, m);
      }
    }

    /** `groupRef.current.rotation[axis] = time`. */
    method Turn(time: real)
      requires Valid()
      modifies this`rotation
      ensures rotation == WithComponent(old(rotation), axis, time)
      ensures Valid()
    {
      if axis == Y {
        rotation := rotation.(y := time);
      } else if axis == X {
        rotation := rotation.(x := time);
      } else {
        rotation := rotation.(z := time);
      }
      assert rotation == WithComponent(old(rotation), axis, time);
    }

    /** The mission-mode hit test and cooldown update. */
    method TestHit(now: real, dronePos: Vec3, ends: Segment, log: DamageLog, m: Transcendentals)
      requires Valid()
      modifies cooldown, log
      ensures Valid()
      ensures BeamHit(m, dronePos, ends, thickness) ==>
                && cooldown.hits == old(cooldown.hits) + [now]
                && log.events == old(log.events)
                                 + (if CooledDown(old(cooldown.lastHitTime), now) then [BEAM_DAMAGE] else [])
      ensures !BeamHit(m, dronePos, ends, thickness) ==>
                && cooldown.hits == old(cooldown.hits)
                && cooldown.lastHitTime == old(cooldown.lastHitTime)
                && log.events == old(log.events)
    {
      var lineDir := ends.end.Minus(ends.start);
      var lineLengthSq := Dot(lineDir, lineDir);
      if lineLengthSq > 0.0 {
        var closestPoint := ClosestPoint(dronePos, ends);
        var distance := Distance(m, dronePos, closestPoint);
        if distance < thickness / 2.0 + HIT_MARGIN {
          cooldown.Hit(now, BEAM_DAMAGE, log);
        }
      }
    }
  }
}

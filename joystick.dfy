/**
 * The on-screen joystick (`client/src/components/Joystick.tsx`): a pointer
 * position inside the widget becomes a stick offset clamped to the widget's
 * usable radius, and an output pair in [-1, 1] x [-1, 1] after normalising,
 * a per-axis dead zone, a gain of 1.5 and a final clamp. Releasing the pointer
 * recentres the stick.
 */
module JoystickModel {
  import opened RealMath
  import DroneStore

  const AXIS_DEAD_ZONE := 0.05
  const GAIN := 1.5
  /** Pixels between the stick's travel and the widget's edge. */
  const RIM := 20.0

  /** A bounding client rectangle. */
  datatype Rect = Rect(left: real, top: real, width: real, height: real)
  {
    function Right(): real { left + width }
    function Bottom(): real { top + height }
    function CenterX(): real { left + width / 2.0 }
    function CenterY(): real { top + height / 2.0 }
    /** How far from the centre the stick may travel: `width / 2 - 20`. */
    function MaxRadius(): real { width / 2.0 - RIM }
  }

  /** The pointer-down test: the point lies in the rectangle, edges included. */
  predicate Contains(rect: Rect, x: real, y: real)
  {
    rect.left <= x <= rect.Right() && rect.top <= y <= rect.Bottom()
  }

  predicate InUnitSquare(s: DroneStore.Stick)
  {
    -1.0 <= s.x <= 1.0 && -1.0 <= s.y <= 1.0
  }

  /**
   * The offset from the centre, pulled back onto the circle of radius
   * `maxRadius` when it lies outside: it ends up within the circle, on the
   * same ray from the centre, and unchanged when it was already inside.
   */
  function ClampToRadius(dx: real, dy: real, maxRadius: real, m: Transcendentals): (p: DroneStore.Stick)
    requires Sound(m) && maxRadius > 0.0
    ensures Sq(p.x) + Sq(p.y) <= Sq(maxRadius)
    ensures Sq(dx) + Sq(dy) > Sq(maxRadius) ==> Sq(p.x) + Sq(p.y) == Sq(maxRadius)
    ensures Sq(dx) + Sq(dy) <= Sq(maxRadius) ==> p == DroneStore.Stick(dx, dy)
    ensures p.x * dy == p.y * dx
    ensures p.x * dx >= 0.0 && p.y * dy >= 0.0
  {
    var distance := Sqrt(m, Sq(dx) + Sq(dy));
    SqrtAbove(m, Sq(dx) + Sq(dy), maxRadius);
    if distance > maxRadius then
      ClampGeometry(dx, dy, maxRadius, distance);
      DroneStore.Stick((dx / distance) * maxRadius, (dy / distance) * maxRadius)
    else
      assert dx * dx >= 0.0 && dy * dy >= 0.0;
      DroneStore.Stick(dx, dy)
  }

  /** Rescaling an offset of length `d` to length `r` keeps its ray. */
  lemma ClampGeometry(dx: real, dy: real, r: real, d: real)
    requires 0.0 < r < d && d * d == Sq(dx) + Sq(dy)
    ensures var px, py := (dx / d) * r, (dy / d) * r;
            && Sq(px) + Sq(py) == Sq(r)
            && px * dy == py * dx
            && px * dx >= 0.0 && py * dy >= 0.0
  {
    var k := r / d;
    assert k > 0.0;
    assert (dx / d) * r == dx * k && (dy / d) * r == dy * k;
    assert k * d == r;
    ScaledSquares(dx, dy, k, d);
    assert (dx * k) * dy == (dy * k) * dx;
    NonnegativeProduct(k, dx * dx);
    NonnegativeProduct(k, dy * dy);
    assert (dx * k) * dx == k * (dx * dx);
    assert (dy * k) * dy == k * (dy * dy);
  }

  /** Scaling both coordinates by `k` scales the squared length by `k * k`. */
  lemma ScaledSquares(dx: real, dy: real, k: real, d: real)
    requires d * d == Sq(dx) + Sq(dy)
    ensures Sq(dx * k) + Sq(dy * k) == Sq(k * d)
  {
    assert Sq(dx * k) == Sq(dx) * Sq(k);
    assert Sq(dy * k) == Sq(dy) * Sq(k);
    assert Sq(k * d) == Sq(k) * (d * d);
  }

  /**
   * One axis: values within 0.05 of zero become 0, then the gain of 1.5
   * and the clamp to [-1, 1]. Nonzero outputs are at least 0.075 in
   * magnitude, keep the sign of the input, grow linearly, and saturate at
   * +-1 from 2/3 onward.
   */
  function AxisOutput(n: real): (r: real)
    ensures -1.0 <= r <= 1.0
    ensures Abs(n) < AXIS_DEAD_ZONE ==> r == 0.0
    ensures r != 0.0 ==> Abs(r) >= AXIS_DEAD_ZONE * GAIN
    ensures r > 0.0 ==> n > 0.0
    ensures r < 0.0 ==> n < 0.0
    ensures n >= 2.0 / 3.0 ==> r == 1.0
    ensures n <= -2.0 / 3.0 ==> r == -1.0
    ensures AXIS_DEAD_ZONE <= Abs(n) <= 2.0 / 3.0 ==> r == GAIN * n
  {
    var live := if Abs(n) < AXIS_DEAD_ZONE then 0.0 else n;
    Clamp(live * GAIN, -1.0, 1.0)
  }

  /** The stick offset drawn and the value pair passed to `onMove`. */
  datatype Move = Move(stick: DroneStore.Stick, output: DroneStore.Stick)

  /** `handleMove(clientX, clientY)` for a widget occupying `rect`. */
  function HandleMove(clientX: real, clientY: real, rect: Rect, m: Transcendentals): (mv: Move)
    requires Sound(m) && rect.MaxRadius() > 0.0
    ensures Sq(mv.stick.x) + Sq(mv.stick.y) <= Sq(rect.MaxRadius())
    ensures InUnitSquare(mv.output)
    ensures mv.output.x == AxisOutput(mv.stick.x / rect.MaxRadius())
    ensures mv.output.y == AxisOutput(-mv.stick.y / rect.MaxRadius())
  {
    var maxRadius := rect.MaxRadius();
    var p := ClampToRadius(clientX - rect.CenterX(), clientY - rect.CenterY(), maxRadius, m);
    Move(p, DroneStore.Stick(AxisOutput(p.x / maxRadius), AxisOutput(-p.y / maxRadius)))
  }

  /**
   * The output points the way the pointer is from the centre: right is
   * positive x, and up (a smaller client y) is positive y.
   */
  lemma HandleMoveFollowsPointer(clientX: real, clientY: real, rect: Rect, m: Transcendentals)
    requires Sound(m) && rect.MaxRadius() > 0.0
    ensures var mv := HandleMove(clientX, clientY, rect, m);
            && (clientX > rect.CenterX() ==> mv.output.x >= 0.0)
            && (clientX < rect.CenterX() ==> mv.output.x <= 0.0)
            && (clientY > rect.CenterY() ==> mv.output.y <= 0.0)
            && (clientY < rect.CenterY() ==> mv.output.y >= 0.0)
  {
    var maxRadius := rect.MaxRadius();
    var p := ClampToRadius(clientX - rect.CenterX(), clientY - rect.CenterY(), maxRadius, m);
    SignOfProduct(p.x, clientX - rect.CenterX());
    SignOfProduct(p.y, clientY - rect.CenterY());
    QuotientSign(p.x, maxRadius);
    QuotientSign(-p.y, maxRadius);
  }

  /** Dividing by a positive number keeps the sign. */
  lemma QuotientSign(a: real, b: real)
    requires b > 0.0
    ensures a >= 0.0 ==> a / b >= 0.0
    ensures a <= 0.0 ==> a / b <= 0.0
  {
    assert (a / b) * b == a;
  }

  /** A product is nonnegative only if a nonzero factor's partner has its sign. */
  lemma SignOfProduct(p: real, d: real)
    requires p * d >= 0.0
    ensures d > 0.0 ==> p >= 0.0
    ensures d < 0.0 ==> p <= 0.0
  {
  }

  /** The widget's drag flag, drawn stick offset and the values sent to `onMove`. */
  class JoystickWidget {
    var isDragging: bool
    var stickPosition: DroneStore.Stick
    var emitted: seq<DroneStore.Stick>

    /** Everything sent to `onMove` lies in [-1, 1] x [-1, 1]. */
    ghost predicate Valid()
      reads this
    {
      forall i :: 0 <= i < |emitted| ==> InUnitSquare(emitted[i])
    }

    constructor ()
      ensures !isDragging && stickPosition == DroneStore.Stick(0.0, 0.0) && emitted == []
      ensures Valid()
    {
      isDragging := false;
      stickPosition := DroneStore.Stick(0.0, 0.0);
      emitted := [];
    }

    method Move(clientX: real, clientY: real, rect: Rect, m: Transcendentals)
      requires Sound(m) && rect.MaxRadius() > 0.0 && Valid()
      modifies this`stickPosition, this`emitted
      ensures var mv := HandleMove(clientX, clientY, rect, m);
              stickPosition == mv.stick && emitted == old(emitted) + [mv.output]
      ensures Valid()
    {
      var mv := HandleMove(clientX, clientY, rect, m);
      stickPosition := mv.stick;
      emitted := emitted + [mv.output];
    }

    /** A press inside the widget starts a drag and moves the stick; outside it does nothing. */
    method PointerDown(clientX: real, clientY: real, rect: Rect, m: Transcendentals)
      requires Sound(m) && rect.MaxRadius() > 0.0 && Valid()
      modifies this`isDragging, this`stickPosition, this`emitted
      ensures Contains(rect, clientX, clientY) ==>
                var mv := HandleMove(clientX, clientY, rect, m);
                isDragging && stickPosition == mv.stick && emitted == old(emitted) + [mv.output]
      ensures !Contains(rect, clientX, clientY) ==>
                isDragging == old(isDragging) && stickPosition == old(stickPosition)
                && emitted == old(emitted)
      ensures Valid()
    {
      if rect.left <= clientX <= rect.Right() && rect.top <= clientY <= rect.Bottom() {
        isDragging := true;
        Move(clientX, clientY, rect, m);
      }
    }

    /** Pointer movement moves the stick only during a drag. */
    method PointerMove(clientX: real, clientY: real, rect: Rect, m: Transcendentals)
      requires Sound(m) && rect.MaxRadius() > 0.0 && Valid()
      modifies this`stickPosition, this`emitted
      ensures isDragging ==>
                var mv := HandleMove(clientX, clientY, rect, m);
                stickPosition == mv.stick && emitted == old(emitted) + [mv.output]
      ensures !isDragging ==> stickPosition == old(stickPosition) && emitted == old(emitted)
      ensures Valid()
    {
      if !isDragging {
        return;
      }
      Move(clientX, clientY, rect, m);
    }

    /** Release or cancel: the drag ends, the stick recentres and (0, 0) is sent. */
    method PointerUp()
      requires Valid()
      modifies this`isDragging, this`stickPosition, this`emitted
      ensures !isDragging && stickPosition == DroneStore.Stick(0.0, 0.0)
      ensures emitted == old(emitted) + [DroneStore.Stick(0.0, 0.0)]
      ensures Valid()
    {
      isDragging := false;
      stickPosition := DroneStore.Stick(0.0, 0.0);
      emitted := emitted + [DroneStore.Stick(0.0, 0.0)];
    }
  }
}

/**
 * The robot: its body layout, the bang-bang control law that steers it toward
 * the pointer, and the impulses it gives the urls it touches, staying itself
 * immovable.
 */
module Robots {
  import opened Wrappers
  import opened Vectorial
  import opened Geometry
  import opened Consts
  import opened Helpers
  import opened Urls

  /** `ROBOT_ACCELERATION`: ten times gravity. */
  const ACCELERATION: real := GRAVITY * 10.0
  const HEAD_RADIUS: real := 50.0
  const HEAD_RELATIVE: Vec := Vec(0.0, 30.0)

  /** The x-mirror of a point, `Matrix.setToScale(identity, -1, 1)` applied to it. */
  function Mirror(p: Vec): Vec {
    Vec(-p.x, p.y)
  }

  /** The side part of the body (`points1`). */
  function SidePoints(width: real, height: real, skew: real, thickness: real): seq<Vec> {
    [ Vec(-width / 2.0 + skew, 0.0),
      Vec(-width / 2.0, -height),
      Vec(-width / 2.0 + thickness, -height),
      Vec(-width / 2.0 + thickness + skew, 0.0) ]
  }

  /** The three body polygons in local coordinates: the base (`points2`) and both sides. */
  function Layout(width: real, height: real, skew: real, thickness: real): (polys: seq<seq<Vec>>)
    requires height != 0.0
    ensures |polys| == 3 && |polys[0]| == |polys[1]| == |polys[2]| == 4
  {
    var points1 := SidePoints(width, height, skew, thickness);
    var points3 := [Mirror(points1[0]), Mirror(points1[1]), Mirror(points1[2]), Mirror(points1[3])];
    var ratio := thickness / height;
    var points2 := [ points1[0],
                     Vec(-width / 2.0 + skew * (1.0 - ratio), -thickness),
                     Vec(width / 2.0 - skew * (1.0 - ratio), -thickness),
                     points3[0] ];
    [points2, points1, points3]
  }

  /** The body is left-right symmetric: one side mirrors the other and the base mirrors itself end to end. */
  lemma LayoutSymmetric(width: real, height: real, skew: real, thickness: real)
    requires height != 0.0
    ensures var polys := Layout(width, height, skew, thickness);
      && (forall k :: 0 <= k < 4 ==> polys[2][k] == Mirror(polys[1][k]))
      && (forall k :: 0 <= k < 4 ==> polys[0][3 - k] == Mirror(polys[0][k]))
  {
  }

  /** `translatedMouseX`: the pointer fraction mapped onto the positions the robot's centre can take. */
  function Target(width: real, mouseX: real): real {
    width / 2.0 + (WORLD_SIZE - width) * mouseX
  }

  /** With the pointer inside the canvas the target keeps the whole body inside the world. */
  lemma {:induction false} TargetInWorld(width: real, mouseX: real)
    requires 0.0 <= width <= WORLD_SIZE && 0.0 <= mouseX <= 1.0
    ensures width / 2.0 <= Target(width, mouseX) <= WORLD_SIZE - width / 2.0
  {
    var room := WORLD_SIZE - width;
    assert room * mouseX >= 0.0 by {
      NonnegativeProduct(room, mouseX);
    }
    assert room - room * mouseX >= 0.0 by {
      NonnegativeProduct(room, 1.0 - mouseX);
    }
  }

  lemma NonnegativeProduct(a: real, b: real)
    requires a >= 0.0 && b >= 0.0
    ensures a * b >= 0.0
  {
  }

  /** `destinationAtFullStop`, written as the source writes it. */
  function StopPoint(x: real, vx: real): real {
    var timeToFullStop := Abs(vx / ACCELERATION);
    x + 2.0 * vx * timeToFullStop - Sign(vx) as real * ACCELERATION * timeToFullStop * timeToFullStop / 2.0
  }

  /**
   * The projected stop point lies three times as far ahead as the kinematic
   * stopping distance `v|v| / 2A` under constant deceleration `A`.
   */
  lemma {:induction false} StopPointIsThreeStoppingDistances(x: real, vx: real)
    ensures StopPoint(x, vx) == x + 3.0 * (vx * Abs(vx) / (2.0 * ACCELERATION))
  {
    var a := ACCELERATION;
    var t := Abs(vx / a);
    assert t == Abs(vx) / a;
    assert Sign(vx) as real * Abs(vx) * Abs(vx) == vx * Abs(vx);
    assert 2.0 * vx * t == 2.0 * (vx * Abs(vx) / a);
    assert Sign(vx) as real * a * t * t / 2.0 == vx * Abs(vx) / (2.0 * a) by {
      assert a * t * t == Abs(vx) * Abs(vx) / a;
    }
  }

  /** How much `step` adds to `speed.x` when the robot is at `x` moving at `vx` toward `target`. */
  function ControlDelta(x: real, vx: real, target: real): (dv: real)
    ensures dv == ACCELERATION || dv == -ACCELERATION || dv == 0.0
  {
    var robotDirection := Sign(vx);
    var mouseDirection := Sign(target - x);
    if mouseDirection != robotDirection then ACCELERATION * mouseDirection as real
    else if Sign(target - StopPoint(x, vx)) == robotDirection then ACCELERATION * robotDirection as real
    else -(ACCELERATION * robotDirection as real)
  }

  /** Moving away from the target, or not moving, the robot accelerates toward it (and not at all when on it). */
  lemma WrongDirection(x: real, vx: real, target: real)
    requires Sign(target - x) != Sign(vx)
    ensures ControlDelta(x, vx, target) == ACCELERATION * Sign(target - x) as real
    ensures target == x ==> ControlDelta(x, vx, target) == 0.0
  {
  }

  /**
   * Moving toward the target, the robot keeps accelerating exactly when its
   * projected stop point is still short of the target, and brakes otherwise.
   */
  lemma SameDirection(x: real, vx: real, target: real)
    requires Sign(target - x) == Sign(vx) && vx != 0.0
    ensures ControlDelta(x, vx, target) == ACCELERATION * Sign(vx) as real
      <==> Sign(target - StopPoint(x, vx)) == Sign(vx)
    ensures ControlDelta(x, vx, target) == -ACCELERATION * Sign(vx) as real
      <==> Sign(target - StopPoint(x, vx)) != Sign(vx)
  {
  }

  /** At rest on the target the robot stays at rest. */
  lemma RestsOnTarget(x: real)
    ensures ControlDelta(x, 0.0, x) == 0.0
  {
  }

  /** The impulse `collide` gives a url with speed `v` at `p`, at contact `c`, against a robot moving at `robotSpeed`. */
  function RobotImpulse(geo: Oracles, v: Vec, p: Vec, robotSpeed: Vec, c: Vec): Vec {
    var collisionSpeed := Subtract(v, robotSpeed);
    var direction := Subtract(c, p);
    var projection := geo.projection(direction, collisionSpeed);
    if Dot(direction, collisionSpeed) > 0.0 then Subtract(v, Scale(projection, RESTITUTION)) else v
  }

  /** The url's speed after the contacts found in order, each resolved from the speed the previous one left. */
  function Impulses(geo: Oracles, v: Vec, p: Vec, robotSpeed: Vec, contacts: seq<Option<Vec>>): Vec
    decreases |contacts|
  {
    if contacts == [] then v
    else
      var last := contacts[|contacts| - 1];
      var before := Impulses(geo, v, p, robotSpeed, contacts[..|contacts| - 1]);
      if last.Some? then RobotImpulse(geo, before, p, robotSpeed, last.value) else before
  }

  /** How many of the contacts push the url: at most one per contact. */
  function Pushes(geo: Oracles, v: Vec, p: Vec, robotSpeed: Vec, contacts: seq<Option<Vec>>): (n: nat)
    ensures n <= |contacts|
    decreases |contacts|
  {
    if contacts == [] then 0
    else
      var last := contacts[|contacts| - 1];
      var init := contacts[..|contacts| - 1];
      var before := Impulses(geo, v, p, robotSpeed, init);
      var n := Pushes(geo, v, p, robotSpeed, init);
      if last.Some? && RobotImpulse(geo, before, p, robotSpeed, last.value) != before then n + 1 else n
  }

  /** With no push at all the url's speed is what it was. */
  lemma {:induction false} NoPushNoChange(geo: Oracles, v: Vec, p: Vec, robotSpeed: Vec, contacts: seq<Option<Vec>>)
    requires Pushes(geo, v, p, robotSpeed, contacts) == 0
    ensures Impulses(geo, v, p, robotSpeed, contacts) == v
    decreases |contacts|
  {
    if contacts != [] {
      NoPushNoChange(geo, v, p, robotSpeed, contacts[..|contacts| - 1]);
    }
  }

  /** The contacts `checkCollision` finds for a url at `p`: the head first, then each body polygon. */
  function ContactsAt(geo: Oracles, head: Vec, transformed: seq<seq<Vec>>, p: Vec): (cs: seq<Option<Vec>>)
    ensures |cs| == 1 + |transformed|
    ensures cs[0] == geo.circleHit(Geometry.Circle(head, HEAD_RADIUS), UrlCircle(p))
    ensures forall i :: 0 <= i < |transformed| ==> cs[i + 1] == geo.polygonHit(transformed[i], UrlCircle(p))
  {
    [geo.circleHit(Geometry.Circle(head, HEAD_RADIUS), UrlCircle(p))]
      + seq(|transformed|, i requires 0 <= i < |transformed| => geo.polygonHit(transformed[i], UrlCircle(p)))
  }

  /** The robot-collision pass of a tick: every url gets the impulses of its own contacts. */
  function RobotPass(geo: Oracles, vs: seq<UrlView>, head: Vec, transformed: seq<seq<Vec>>, robotSpeed: Vec): (r: seq<UrlView>)
    ensures |r| == |vs|
    ensures forall k :: 0 <= k < |vs| ==>
      r[k] == vs[k].(speed := Impulses(geo, vs[k].speed, vs[k].position, robotSpeed, ContactsAt(geo, head, transformed, vs[k].position)))
  {
    seq(|vs|, k requires 0 <= k < |vs| =>
      vs[k].(speed := Impulses(geo, vs[k].speed, vs[k].position, robotSpeed, ContactsAt(geo, head, transformed, vs[k].position))))
  }

  /** The body dimensions `createRobot` derives from the stored robot settings. */
  datatype Dimensions = Dimensions(width: real, height: real, skew: real, thickness: real)

  /** `createRobot`'s arithmetic on the stored settings, each a fraction in [0, 1]. */
  function CreateRobotDimensions(sw: real, ss: real, st: real, sh: real): (d: Dimensions)
    requires 0.0 <= sw <= 1.0 && 0.0 <= ss <= 1.0 && 0.0 <= st <= 1.0 && 0.0 <= sh <= 1.0
    ensures 80.0 <= d.width <= 430.0 && d.width <= WORLD_SIZE
    ensures 0.0 < d.thickness < d.height
    ensures 0.0 < d.skew <= 0.4 * d.width
  {
    var width := 80.0 + 350.0 * sw;
    var skew := width * (0.1 + 0.3 * ss);
    var thickness := width * (0.1 + 0.2 * st);
    var height := thickness + 10.0 + 90.0 * sh;
    assert skew <= width * 0.4 by {
      NonnegativeProduct(width, 0.3 - 0.3 * ss);
      assert width * 0.4 - skew == width * (0.3 - 0.3 * ss);
    }
    assert skew > 0.0 by {
      NonnegativeProduct(width, 0.3 * ss);
      assert skew == 0.1 * width + width * (0.3 * ss);
    }
    assert thickness > 0.0 by {
      NonnegativeProduct(width, 0.2 * st);
      assert thickness == 0.1 * width + width * (0.2 * st);
    }
    Dimensions(width, height, skew, thickness)
  }

  class Robot {
    const width: real
    const height: real
    const skew: real
    const thickness: real
    /** Each body polygon's local points. */
    const polygons: seq<seq<Vec>>
    var position: Vec
    var speed: Vec
    var dead: bool
    /** The head circle's centre. */
    var head: Vec
    /** Each body polygon's world points, as its last `preStep` left them. */
    var transformed: seq<seq<Vec>>

    ghost predicate Valid()
      reads this
    {
      |polygons| == 3 && |transformed| == |polygons|
    }

    constructor (width: real, height: real, skew: real, thickness: real)
      requires height != 0.0
      ensures Valid()
      ensures this.width == width && this.height == height && this.skew == skew && this.thickness == thickness
      ensures polygons == Layout(width, height, skew, thickness)
      ensures position == Zero && speed == Zero && !dead && head == Zero
    {
      this.width := width;
      this.height := height;
      this.skew := skew;
      this.thickness := thickness;
      polygons := Layout(width, height, skew, thickness);
      transformed := Layout(width, height, skew, thickness);
      position := Zero;
      speed := Zero;
      dead := false;
      head := Zero;
    }

    /** `step()` with the pointer fraction `mouseX`. */
    method Step(mouseX: real, geo: Oracles)
      requires Valid()
      modifies this
      ensures Valid()
      ensures head == Add(position, HEAD_RELATIVE)
      ensures forall i :: 0 <= i < |polygons| ==> transformed[i] == geo.transform(polygons[i], position, old(speed.x))
      ensures position == old(position) && dead == old(dead)
      ensures speed == Vec(old(speed.x) + ControlDelta(position.x, old(speed.x), Target(width, mouseX)), old(speed.y))
    {
      head := Add(position, HEAD_RELATIVE);
      for i := 0 to |polygons|
        invariant |transformed| == |polygons|
        invariant forall k :: 0 <= k < i ==> transformed[k] == geo.transform(polygons[k], position, speed.x)
        invariant head == Add(position, HEAD_RELATIVE) && position == old(position)
        invariant speed == old(speed) && dead == old(dead)
      {
        transformed := transformed[i := geo.transform(polygons[i], position, speed.x)];
      }
      var robotDirection := Sign(speed.x);
      var target := Target(width, mouseX);
      var mouseDirection := Sign(target - position.x);
      if mouseDirection != robotDirection {
        speed := speed.(x := speed.x + ACCELERATION * mouseDirection as real);
      } else {
        var destination := StopPoint(position.x, speed.x);
        if Sign(target - destination) == robotDirection {
          speed := speed.(x := speed.x + ACCELERATION * robotDirection as real);
        } else {
          speed := speed.(x := speed.x - ACCELERATION * robotDirection as real);
        }
      }
    }

    /** `collide(url)` at the contact point `contact`. */
    method Collide(url: Url, contact: Vec, geo: Oracles)
      modifies url
      ensures url.position == old(url.position) && url.code == old(url.code)
      ensures url.speed == RobotImpulse(geo, old(url.speed), url.position, speed, contact)
    {
      var collisionSpeed := Subtract(url.speed, speed);
      var direction := Subtract(contact, url.position);
      var projection := geo.projection(direction, collisionSpeed);
      if Dot(direction, collisionSpeed) > 0.0 {
        url.speed := Subtract(url.speed, Scale(projection, RESTITUTION));
      }
    }

    /** `checkCollision(url)`: up to four sequential impulses; the robot itself never moves. */
    method CheckCollision(url: Url, geo: Oracles)
      requires Valid()
      modifies url
      ensures url.position == old(url.position) && url.code == old(url.code)
      ensures url.speed == Impulses(geo, old(url.speed), url.position, speed, ContactsAt(geo, head, transformed, url.position))
    {
      ghost var cs := ContactsAt(geo, head, transformed, url.position);
      var contact := geo.circleHit(Geometry.Circle(head, HEAD_RADIUS), url.Circle());
      if contact.Some? {
        Collide(url, contact.value, geo);
      }
      assert cs[..1] == [contact];
      for i := 0 to |polygons|
        invariant url.position == old(url.position) && url.code == old(url.code)
        invariant url.speed == Impulses(geo, old(url.speed), url.position, speed, cs[..i + 1])
      {
        contact := geo.polygonHit(transformed[i], url.Circle());
        assert cs[i + 1] == contact;
        assert cs[..i + 2][..i + 1] == cs[..i + 1];
        if contact.Some? {
          Collide(url, contact.value, geo);
        }
      }
      assert cs[..|polygons| + 1] == cs;
    }
  }
}

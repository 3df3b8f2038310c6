/**
 * The two camera rigs that follow the taxi. The chase camera moves a fixed
 * fraction of the way toward a point behind and above the taxi each frame;
 * the minimap camera is put directly above the taxi, looking down, with no
 * smoothing.
 */
module Cameras {
  import opened SceneGraph
  import opened Vehicle

  /** The chase camera's offset from the taxi before it is turned with the taxi. */
  const ChaseOffset := Vec3(0.0, 5.0, 10.0)

  /** The fraction of the remaining distance the chase camera covers per frame. */
  const ChaseBlend: real := 0.1

  const MinimapHeight: real := 100.0
  const MinimapUp := Vec3(0.0, 0.0, -1.0)

  function Position(p: Pose): Vec3
  {
    Vec3(p.x, p.y, p.z)
  }

  /** Rotation of v by `angle` radians about the +y axis. */
  function RotateY(v: Vec3, angle: real, sin: real -> real, cos: real -> real): Vec3
  {
    Vec3(v.x * cos(angle) + v.z * sin(angle), v.y, -v.x * sin(angle) + v.z * cos(angle))
  }

  /** Moves `from` the fraction `alpha` of the way toward `to`. */
  function Lerp(from: Vec3, to: Vec3, alpha: real): Vec3
  {
    Vec3(from.x + (to.x - from.x) * alpha, from.y + (to.y - from.y) * alpha, from.z + (to.z - from.z) * alpha)
  }

  /** Where the chase camera is heading: the taxi plus the offset turned by its heading. */
  function ChaseGoal(p: Pose, sin: real -> real, cos: real -> real): Vec3
  {
    Position(p).Plus(RotateY(ChaseOffset, p.yaw, sin, cos))
  }

  /** One frame of the chase camera. */
  function ChaseFollow(camera: Vec3, p: Pose, sin: real -> real, cos: real -> real): Vec3
  {
    Lerp(camera, ChaseGoal(p, sin, cos), ChaseBlend)
  }

  function MinimapEye(p: Pose): Vec3
  {
    Vec3(p.x, MinimapHeight, p.z)
  }

  function MinimapLookAt(p: Pose): Vec3
  {
    Vec3(p.x, 0.0, p.z)
  }

  /** One blend step leaves 0.9 of the gap to the goal on every axis, so a
      camera already at its goal stays there. */
  lemma LerpShrinksGap(from: Vec3, to: Vec3)
    ensures Lerp(from, to, ChaseBlend).Minus(to) == from.Minus(to).Times(0.9)
    ensures Lerp(to, to, ChaseBlend) == to
  {
  }

  /** 0.9 to the power n. */
  function Decay(n: nat): (r: real)
    ensures 0.0 < r <= 1.0
    ensures n > 0 ==> r < 1.0
  {
    if n == 0 then 1.0 else 0.9 * Decay(n - 1)
  }

  /** n blend steps toward a fixed goal. */
  function Approach(from: Vec3, to: Vec3, n: nat): Vec3
  {
    if n == 0 then from else Lerp(Approach(from, to, n - 1), to, ChaseBlend)
  }

  lemma TimesTimes(g: Vec3, a: real, b: real)
    ensures g.Times(a).Times(b) == g.Times(b * a)
  {
    assert b * (a * g.x) == (b * a) * g.x;
    assert b * (a * g.y) == (b * a) * g.y;
    assert b * (a * g.z) == (b * a) * g.z;
  }

  /** After n steps toward a fixed goal the gap is 0.9^n of the first gap. */
  lemma {:induction false} ApproachGap(from: Vec3, to: Vec3, n: nat)
    ensures Approach(from, to, n).Minus(to) == from.Minus(to).Times(Decay(n))
  {
    if n > 0 {
      ApproachGap(from, to, n - 1);
      LerpShrinksGap(Approach(from, to, n - 1), to);
      TimesTimes(from.Minus(to), Decay(n - 1), 0.9);
    }
  }

  /** The gap shrinks geometrically but never closes: after any number of
      steps the camera is at its goal exactly when it started there. */
  lemma {:induction false} ApproachNeverArrives(from: Vec3, to: Vec3, n: nat)
    ensures Approach(from, to, n) == to <==> from == to
  {
    ApproachGap(from, to, n);
    var g := from.Minus(to);
    var d := Decay(n);
    if Approach(from, to, n) == to {
      assert d * g.x == 0.0 && d * g.y == 0.0 && d * g.z == 0.0;
      assert from == to;
    }
  }

  /** The chase goal is 5 above the taxi and 10 behind it along its heading:
      horizontally it is exactly where 50 frames of reversing would take the taxi. */
  lemma ChaseGoalBehindTaxi(p: Pose, sin: real -> real, cos: real -> real)
    ensures ChaseGoal(p, sin, cos).Minus(Position(p)) == Vec3(10.0 * sin(p.yaw), 5.0, 10.0 * cos(p.yaw))
    ensures ChaseGoal(p, sin, cos).x - p.x == 50.0 * (Step(p, map["ArrowDown" := true], sin, cos).x - p.x)
    ensures ChaseGoal(p, sin, cos).z - p.z == 50.0 * (Step(p, map["ArrowDown" := true], sin, cos).z - p.z)
  {
    assert Held(map["ArrowDown" := true], "ArrowDown");
    assert !Held(map["ArrowDown" := true], "ArrowUp");
  }

  /** Where sin and cos agree at the heading (sin^2 + cos^2 = 1), the goal is
      exactly 10 from the taxi horizontally. */
  lemma ChaseGoalDistance(p: Pose, sin: real -> real, cos: real -> real)
    requires sin(p.yaw) * sin(p.yaw) + cos(p.yaw) * cos(p.yaw) == 1.0
    ensures var d := ChaseGoal(p, sin, cos).Minus(Position(p)); d.x * d.x + d.z * d.z == 100.0
  {
    ChaseGoalBehindTaxi(p, sin, cos);
  }

  /** The minimap camera is exactly above the taxi, at height 100, and looks
      straight down at it. */
  lemma MinimapOverTaxi(p: Pose)
    ensures MinimapEye(p).x == p.x && MinimapEye(p).z == p.z && MinimapEye(p).y == MinimapHeight
    ensures MinimapLookAt(p).Minus(MinimapEye(p)) == Vec3(0.0, -MinimapHeight, 0.0)
  {
  }
}

/** The computer car's path following (ComputerCar in main.py): the bounded
    turn toward the current waypoint, the waypoint index, the early stop once
    the path is exhausted and the per-level speed scaling. */
module Steering {
  import opened Environment
  import opened Kinematics

  /** Speed the computer car gains per level. */
  const LEVEL_SPEED_STEP: real := 0.2

  /** The heading, in degrees, that points from the car toward a target
      (dx, dy) away.  A target level with the car (dy == 0) is handled
      without dividing; a target below the car adds half a turn. */
  function DesiredHeading(dx: real, dy: real, env: Env): (h: real)
    ensures dy == 0.0 ==> h == 90.0
    ensures dy < 0.0 ==> h == env.atanDeg(dx / dy)
    ensures dy > 0.0 ==> h == env.atanDeg(dx / dy) + 180.0
  {
    var base := if dy == 0.0 then 90.0 else env.atanDeg(dx / dy);
    if dy > 0.0 then base + 180.0 else base
  }

  /** The one-sided wrap of the heading difference: only a difference of
      half a turn or more is brought down by a full turn. */
  function Wrapped(diff: real): (d: real)
    ensures diff >= 180.0 ==> d == diff - 360.0
    ensures diff < 180.0 ==> d == diff
    ensures diff < 540.0 ==> d < 180.0
  {
    if diff >= 180.0 then diff - 360.0 else diff
  }

  /** Turn from `angle` by at most `rotationVel` so as to shrink the
      (wrapped) heading difference `d`; the turn never overshoots. */
  function Turned(angle: real, rotationVel: real, d: real): (r: real)
    ensures rotationVel >= 0.0 ==> -rotationVel <= r - angle <= rotationVel
    ensures rotationVel >= 0.0 ==> Abs(d + (r - angle)) == Max(Abs(d) - rotationVel, 0.0)
    ensures rotationVel >= 0.0 && d > 0.0 ==> d + (r - angle) >= 0.0
    ensures rotationVel >= 0.0 && d <= 0.0 ==> d + (r - angle) <= 0.0
  {
    if d > 0.0 then angle - Min(rotationVel, Abs(d))
    else angle + Min(rotationVel, Abs(d))
  }

  /** calculate_angle: the new heading of a car at `s` steering toward `target`. */
  function Steered(s: CarState, target: Point, rotationVel: real, env: Env): (a: real)
    ensures rotationVel >= 0.0 ==> -rotationVel <= a - s.angle <= rotationVel
  {
    var desired := DesiredHeading(target.0 as real - s.x, target.1 as real - s.y, env);
    Turned(s.angle, rotationVel, Wrapped(s.angle - desired))
  }

  /** The computer car's state: its kinematics and its waypoint index. */
  datatype Pilot = Pilot(car: CarState, point: int)

  predicate OnPath(p: Pilot, path: seq<Point>) {
    0 <= p.point <= |path|
  }

  /** ComputerCar.move: nothing once the path is exhausted; otherwise steer,
      advance the waypoint index when the current waypoint is reached, and
      take one step along the new heading. */
  function Drive(p: Pilot, path: seq<Point>, rotationVel: real, env: Env): (r: Pilot)
    requires 0 <= p.point
    ensures p.point <= r.point <= p.point + 1
    ensures OnPath(p, path) ==> OnPath(r, path)
    ensures p.point >= |path| ==> r == p
    ensures r.car.vel == p.car.vel
    ensures rotationVel >= 0.0 ==> -rotationVel <= r.car.angle - p.car.angle <= rotationVel
  {
    if p.point >= |path| then p
    else
      var target := path[p.point];
      var turned := p.car.(angle := Steered(p.car, target, rotationVel, env));
      var next := if env.rectContains(turned.x, turned.y, target) then p.point + 1 else p.point;
      Pilot(Moved(turned, env), next)
  }

  /** n ticks of driving. */
  function DriveN(p: Pilot, path: seq<Point>, rotationVel: real, env: Env, n: nat): Pilot
    requires 0 <= p.point
    decreases n
  {
    if n == 0 then p
    else
      var q := Drive(p, path, rotationVel, env);
      DriveN(q, path, rotationVel, env, n - 1)
  }

  /** Over any number of ticks the waypoint index only grows, by at most one
      per tick, never passes the end of the path, and the speed is untouched. */
  lemma {:induction false} DriveNProgress(p: Pilot, path: seq<Point>, rotationVel: real, env: Env, n: nat)
    requires OnPath(p, path)
    ensures var r := DriveN(p, path, rotationVel, env, n);
      OnPath(r, path) && p.point <= r.point <= p.point + n && r.car.vel == p.car.vel
    decreases n
  {
    if n > 0 {
      DriveNProgress(Drive(p, path, rotationVel, env), path, rotationVel, env, n - 1);
    }
  }

  /** Once the last waypoint is passed the car never moves again; in
      particular a car with an empty path stays where it is. */
  lemma {:induction false} ExhaustedPathIsIdle(p: Pilot, path: seq<Point>, rotationVel: real, env: Env, n: nat)
    requires p.point >= |path| && p.point >= 0
    ensures DriveN(p, path, rotationVel, env, n) == p
    decreases n
  {
    if n > 0 {
      ExhaustedPathIsIdle(Drive(p, path, rotationVel, env), path, rotationVel, env, n - 1);
    }
  }

  /** The computer car's speed on a level. */
  function LevelSpeed(maxVel: real, level: int): (v: real)
    ensures level >= 1 ==> v >= maxVel
    ensures level == 1 ==> v == maxVel
  {
    maxVel + (level - 1) as real * LEVEL_SPEED_STEP
  }

  /** Each level makes the computer car faster by the same step. */
  lemma LevelSpeedStep(maxVel: real, level: int)
    ensures LevelSpeed(maxVel, level + 1) == LevelSpeed(maxVel, level) + LEVEL_SPEED_STEP
  {
  }

  lemma LevelSpeedOnThirdLevel()
    ensures LevelSpeed(2.0, 3) == 2.4
  {
  }

  /** ComputerCar.next_level: back to the start, heading 0, at the level's
      speed, and at the first waypoint. */
  function NextLevelPilot(cfg: CarConfig, level: int): (p: Pilot)
    ensures p.point == 0 && p.car.angle == 0.0
    ensures p.car.x == cfg.startX && p.car.y == cfg.startY
    ensures p.car.vel == LevelSpeed(cfg.maxVel, level)
    ensures level >= 1 ==> p.car.vel >= cfg.maxVel
  {
    Pilot(Start(cfg).(vel := LevelSpeed(cfg.maxVel, level)), 0)
  }
}

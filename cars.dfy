/** The car objects of main.py.  `Car` is AbstractCar: the fields every car
    updates in place and the operations both cars share.  PlayerCar and
    ComputerCar extend it by composition: each owns one `Car` (`body`) and
    adds its own fields.  Every method is proved against the functions of
    modules Kinematics and Steering. */
module Cars {
  import opened Environment
  import opened Kinematics
  import opened Steering

  class Car {
    var x: real
    var y: real
    var angle: real
    var vel: real
    const maxVel: real
    const rotationVel: real
    const startX: real
    const startY: real
    const sprite: Sprite

    function State(): CarState
      reads this
    {
      CarState(x, y, angle, vel)
    }

    function Config(): CarConfig {
      CarConfig(maxVel, rotationVel, startX, startY, sprite)
    }

    constructor (maxVel: real, rotationVel: real, startX: real, startY: real, sprite: Sprite)
      ensures Config() == CarConfig(maxVel, rotationVel, startX, startY, sprite)
      ensures State() == Start(Config())
    {
      this.maxVel := maxVel;
      this.rotationVel := rotationVel;
      this.startX := startX;
      this.startY := startY;
      this.sprite := sprite;
      x, y := startX, startY;
      angle := 0.0;
      vel := 0.0;
    }

    method Rotate(left: bool, right: bool)
      modifies this`angle
      ensures State() == old(State()).(angle := Rotated(old(angle), rotationVel, left, right))
    {
      if left {
        angle := angle + rotationVel;
      } else if right {
        angle := angle - rotationVel;
      }
    }

    method Move(env: Env)
      modifies this`x, this`y
      ensures State() == Moved(old(State()), env)
    {
      var vertical := env.cosDeg(angle) * vel;
      var horizontal := env.sinDeg(angle) * vel;
      y := y - vertical;
      x := x - horizontal;
    }

    method MoveForward(env: Env)
      modifies this
      ensures State() == Moved(old(State()).(vel := Accelerated(old(vel), maxVel)), env)
      ensures vel <= maxVel
    {
      vel := Min(vel + ACCELERATION, maxVel);
      Move(env);
    }

    method MoveBackward(env: Env)
      modifies this
      ensures State() == Moved(old(State()).(vel := Reversing(old(vel), maxVel)), env)
      ensures vel >= -maxVel / 2.0
    {
      vel := Max(vel - ACCELERATION, -maxVel / 2.0);
      Move(env);
    }

    /** The overlap of a track mask placed at (originX, originY) with this car. */
    method Collide(mask: Mask, originX: real, originY: real, env: Env) returns (poi: Option<Point>)
      ensures poi == Overlap(State(), sprite, mask, originX, originY, env)
    {
      var offsetX := Trunc(x - originX);
      var offsetY := Trunc(y - originY);
      poi := env.overlap(mask, sprite, offsetX, offsetY);
    }

    method Reset()
      modifies this
      ensures State() == Start(Config())
    {
      x, y := startX, startY;
      angle := 0.0;
      vel := 0.0;
    }
  }

  const PLAYER_START_X: real := 145.0
  const PLAYER_START_Y: real := 200.0
  const COMPUTER_START_X: real := 175.0
  const COMPUTER_START_Y: real := 200.0

  class PlayerCar {
    const body: Car
    var lastCrashTime: real

    function State(): Player
      reads this, body
    {
      Player(body.State(), lastCrashTime)
    }

    constructor (maxVel: real, rotationVel: real)
      ensures fresh(body)
      ensures body.Config() == CarConfig(maxVel, rotationVel, PLAYER_START_X, PLAYER_START_Y, RedCar)
      ensures State() == Player(Start(body.Config()), 0.0)
    {
      body := new Car(maxVel, rotationVel, PLAYER_START_X, PLAYER_START_Y, RedCar);
      lastCrashTime := 0.0;
    }

    /** No throttle this tick: friction, then one step. */
    method ReduceSpeed(env: Env)
      modifies body
      ensures State() == old(State()).(car := Moved(old(body.State()).(vel := Coasted(old(body.vel))), env))
      ensures body.vel >= 0.0
      ensures old(body.vel) >= 0.0 ==> body.vel <= old(body.vel)
    {
      body.vel := Max(body.vel - ACCELERATION / 2.0, 0.0);
      body.Move(env);
    }

    /** Reverse and damp the velocity, take one step, and play the crash cue
        (reported in `cue`) unless one played within the last 0.3 s. */
    method Bounce(env: Env, now: real) returns (cue: bool)
      modifies this, body
      ensures State() == Bumped(old(State()), env, now)
      ensures cue == CuePlays(old(lastCrashTime), now, env.soundLoaded)
    {
      body.vel := -body.vel / 1.5;
      body.Move(env);
      cue := false;
      if env.soundLoaded && now - lastCrashTime > CRASH_CUE_GAP {
        cue := true;
        lastCrashTime := now;
      }
    }
  }

  class ComputerCar {
    const body: Car
    const path: seq<Point>
    var currentPoint: int

    ghost predicate Valid()
      reads this
    {
      0 <= currentPoint <= |path|
    }

    function State(): Pilot
      reads this, body
    {
      Pilot(body.State(), currentPoint)
    }

    /** A computer car starts at full speed, unlike the player's. */
    constructor (maxVel: real, rotationVel: real, path: seq<Point> := [])
      ensures fresh(body) && Valid() && this.path == path
      ensures body.Config() == CarConfig(maxVel, rotationVel, COMPUTER_START_X, COMPUTER_START_Y, GreenCar)
      ensures State() == Pilot(Start(body.Config()).(vel := maxVel), 0)
    {
      var b := new Car(maxVel, rotationVel, COMPUTER_START_X, COMPUTER_START_Y, GreenCar);
      b.vel := maxVel;
      body := b;
      this.path := path;
      currentPoint := 0;
    }

    /** Turn toward the current waypoint by at most the rotation speed. */
    method CalculateAngle(env: Env)
      requires 0 <= currentPoint < |path|
      modifies body`angle
      ensures body.angle == Steered(old(body.State()), path[currentPoint], body.rotationVel, env)
      ensures body.rotationVel >= 0.0 ==> Abs(body.angle - old(body.angle)) <= body.rotationVel
    {
      var (targetX, targetY) := path[currentPoint];
      var xDiff := targetX as real - body.x;
      var yDiff := targetY as real - body.y;
      var desired: real;
      if yDiff == 0.0 {
        desired := 90.0;
      } else {
        desired := env.atanDeg(xDiff / yDiff);
      }
      if targetY as real > body.y {
        desired := desired + 180.0;
      }
      var diff := body.angle - desired;
      if diff >= 180.0 {
        diff := diff - 360.0;
      }
      if diff > 0.0 {
        body.angle := body.angle - Min(body.rotationVel, Abs(diff));
      } else {
        body.angle := body.angle + Min(body.rotationVel, Abs(diff));
      }
    }

    /** Move on to the next waypoint once the current one is under the car. */
    method UpdatePathPoint(env: Env)
      requires 0 <= currentPoint < |path|
      modifies this`currentPoint
      ensures currentPoint == old(currentPoint) + (if env.rectContains(body.x, body.y, path[old(currentPoint)]) then 1 else 0)
      ensures currentPoint <= |path|
    {
      var target := path[currentPoint];
      if env.rectContains(body.x, body.y, target) {
        currentPoint := currentPoint + 1;
      }
    }

    method Move(env: Env)
      requires Valid()
      modifies this, body
      ensures Valid()
      ensures State() == Drive(old(State()), path, body.rotationVel, env)
    {
      if currentPoint >= |path| {
        return;
      }
      CalculateAngle(env);
      UpdatePathPoint(env);
      body.Move(env);
    }

    method NextLevel(level: int)
      modifies this, body
      ensures Valid()
      ensures State() == NextLevelPilot(body.Config(), level)
    {
      body.Reset();
      body.vel := body.maxVel + (level - 1) as real * LEVEL_SPEED_STEP;
      currentPoint := 0;
    }
  }
}

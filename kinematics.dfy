/** Vehicle kinematics shared by both cars (AbstractCar and PlayerCar in
    main.py): the clamped velocity updates, rotation, the positional update
    and the player's bounce with its debounced crash cue.  Everything here is
    a function on values; the classes in module Cars are proved against it. */
module Kinematics {
  import opened Environment

  /** Speed gained or lost per tick of throttle, the same for every car. */
  const ACCELERATION: real := 0.1

  /** Minimum time between two crash cues, in seconds. */
  const CRASH_CUE_GAP: real := 0.3

  /** The state a car changes from tick to tick. */
  datatype CarState = CarState(x: real, y: real, angle: real, vel: real)

  /** The fixed parameters a car is created with. */
  datatype CarConfig = CarConfig(maxVel: real, rotationVel: real, startX: real, startY: real, sprite: Sprite)

  /** The state `reset` restores: start position, heading 0, at rest. */
  function Start(cfg: CarConfig): CarState {
    CarState(cfg.startX, cfg.startY, 0.0, 0.0)
  }

  /** Throttle: speed up by one step, never beyond the maximum. */
  function Accelerated(vel: real, maxVel: real): (r: real)
    ensures r <= maxVel
    ensures r <= vel + ACCELERATION
    ensures r == maxVel || r == vel + ACCELERATION
  {
    Min(vel + ACCELERATION, maxVel)
  }

  /** Reverse throttle: slow down by one step, never below half the maximum backwards. */
  function Reversing(vel: real, maxVel: real): (r: real)
    ensures r >= -maxVel / 2.0
    ensures r >= vel - ACCELERATION
    ensures r == -maxVel / 2.0 || r == vel - ACCELERATION
  {
    Max(vel - ACCELERATION, -maxVel / 2.0)
  }

  /** No throttle: friction of half a step, which never makes the speed negative. */
  function Coasted(vel: real): (r: real)
    ensures r >= 0.0
    ensures vel >= 0.0 ==> r <= vel
    ensures vel == 0.0 ==> r == 0.0
    ensures vel >= ACCELERATION / 2.0 ==> r == vel - ACCELERATION / 2.0
    ensures vel <= ACCELERATION / 2.0 ==> r == 0.0
  {
    Max(vel - ACCELERATION / 2.0, 0.0)
  }

  /** Bounce: the velocity is reversed and damped by a factor of 1.5. */
  function Bounced(vel: real): (r: real)
    ensures vel == -1.5 * r
    ensures vel > 0.0 ==> r < 0.0
    ensures vel < 0.0 ==> r > 0.0
    ensures Abs(r) <= Abs(vel)
  {
    -vel / 1.5
  }

  /** Steering input: left takes precedence over right, neither leaves the heading. */
  function Rotated(angle: real, rotationVel: real, left: bool, right: bool): (r: real)
    ensures left ==> r == angle + rotationVel
    ensures !left && right ==> r == angle - rotationVel
    ensures !left && !right ==> r == angle
  {
    if left then angle + rotationVel
    else if right then angle - rotationVel
    else angle
  }

  /** One step along the heading: at angle 0 the car moves up (towards smaller y). */
  function Moved(s: CarState, env: Env): (r: CarState)
    ensures r.angle == s.angle && r.vel == s.vel
    ensures s.vel == 0.0 ==> r == s
  {
    s.(x := s.x - env.sinDeg(s.angle) * s.vel, y := s.y - env.cosDeg(s.angle) * s.vel)
  }

  /** The overlap of a track mask, placed at (originX, originY), with a car's mask. */
  function Overlap(s: CarState, sprite: Sprite, mask: Mask, originX: real, originY: real, env: Env): Option<Point> {
    env.overlap(mask, sprite, Trunc(s.x - originX), Trunc(s.y - originY))
  }

  /** The car's mask does not turn with the car: heading and speed play no
      part, and positions that truncate to the same offset give the same
      overlap. */
  lemma OverlapIgnoresHeading(s: CarState, t: CarState, sprite: Sprite, mask: Mask, originX: real, originY: real, env: Env)
    requires Trunc(s.x - originX) == Trunc(t.x - originX)
    requires Trunc(s.y - originY) == Trunc(t.y - originY)
    ensures Overlap(s, sprite, mask, originX, originY, env) == Overlap(t, sprite, mask, originX, originY, env)
  {
  }

  /** Moving less than a pixel to the right of the mask's origin, away from
      it, does not change the overlap: the offset is truncated. */
  lemma SubPixelMoveKeepsOverlap(s: CarState, dx: real, sprite: Sprite, mask: Mask, originX: real, originY: real, env: Env)
    requires s.x - originX == Trunc(s.x - originX) as real
    requires s.x >= originX && 0.0 <= dx < 1.0
    ensures Overlap(s.(x := s.x + dx), sprite, mask, originX, originY, env) == Overlap(s, sprite, mask, originX, originY, env)
  {
    var n := Trunc(s.x - originX);
    assert Trunc(s.x + dx - originX) == n;
  }

  // ---------------------------------------------------------------------
  // The player's velocity over any sequence of updates

  /** The updates a tick can apply to the player's velocity. */
  datatype Control = Throttle | Reverse | Coast | Bounce | Stop

  function Apply(vel: real, maxVel: real, c: Control): real {
    match c
    case Throttle => Accelerated(vel, maxVel)
    case Reverse => Reversing(vel, maxVel)
    case Coast => Coasted(vel)
    case Bounce => Bounced(vel)
    case Stop => 0.0
  }

  function ApplyAll(vel: real, maxVel: real, cs: seq<Control>): real
    decreases |cs|
  {
    if cs == [] then vel else ApplyAll(Apply(vel, maxVel, cs[0]), maxVel, cs[1..])
  }

  /** The velocity range the player's car actually keeps: a bounce from full
      speed reaches two thirds of the maximum backwards. */
  predicate InEnvelope(vel: real, maxVel: real) {
    -(2.0 * maxVel) / 3.0 <= vel <= maxVel
  }

  /** The narrower range the throttle updates alone keep. */
  predicate InThrottleRange(vel: real, maxVel: real) {
    -maxVel / 2.0 <= vel <= maxVel
  }

  lemma ApplyKeepsEnvelope(vel: real, maxVel: real, c: Control)
    requires maxVel >= 0.0 && InEnvelope(vel, maxVel)
    ensures InEnvelope(Apply(vel, maxVel, c), maxVel)
  {
  }

  /** Whatever the order of throttle, reverse, friction, bounces and resets,
      the player's velocity stays within [-2*maxVel/3, maxVel]. */
  lemma {:induction false} EnvelopeInvariant(vel: real, maxVel: real, cs: seq<Control>)
    requires maxVel >= 0.0 && InEnvelope(vel, maxVel)
    ensures InEnvelope(ApplyAll(vel, maxVel, cs), maxVel)
    decreases |cs|
  {
    if cs != [] {
      ApplyKeepsEnvelope(vel, maxVel, cs[0]);
      EnvelopeInvariant(Apply(vel, maxVel, cs[0]), maxVel, cs[1..]);
    }
  }

  /** Without bounces the velocity stays within [-maxVel/2, maxVel]. */
  lemma {:induction false} ThrottleRangeWithoutBounce(vel: real, maxVel: real, cs: seq<Control>)
    requires maxVel >= 0.0 && InThrottleRange(vel, maxVel)
    requires forall i :: 0 <= i < |cs| ==> cs[i] != Bounce
    ensures InThrottleRange(ApplyAll(vel, maxVel, cs), maxVel)
    decreases |cs|
  {
    if cs != [] {
      assert cs[0] != Bounce;
      ThrottleRangeWithoutBounce(Apply(vel, maxVel, cs[0]), maxVel, cs[1..]);
    }
  }

  /** A bounce from full speed leaves the narrower range: 4 becomes -8/3 < -2. */
  lemma BounceLeavesThrottleRange()
    ensures InThrottleRange(4.0, 4.0)
    ensures !InThrottleRange(ApplyAll(4.0, 4.0, [Bounce]), 4.0)
    ensures InEnvelope(ApplyAll(4.0, 4.0, [Bounce]), 4.0)
  {
  }

  lemma BounceFromThree()
    ensures Bounced(3.0) == -2.0
  {
  }

  /** n repetitions of one control. */
  function Repeated(c: Control, n: nat): seq<Control> {
    if n == 0 then [] else [c] + Repeated(c, n - 1)
  }

  /** Friction alone brings a forward-moving car to rest, half a step per tick. */
  lemma {:induction false} CoastingClosedForm(vel: real, maxVel: real, n: nat)
    requires vel >= 0.0
    ensures ApplyAll(vel, maxVel, Repeated(Coast, n)) == Max(vel - n as real * (ACCELERATION / 2.0), 0.0)
    decreases n
  {
    if n > 0 {
      var cs := Repeated(Coast, n);
      assert cs[0] == Coast && cs[1..] == Repeated(Coast, n - 1);
      CoastingClosedForm(Coasted(vel), maxVel, n - 1);
    }
  }

  /** A car at rest with no throttle stays exactly at rest. */
  lemma AtRestStaysAtRest(maxVel: real, n: nat)
    ensures ApplyAll(0.0, maxVel, Repeated(Coast, n)) == 0.0
  {
    CoastingClosedForm(0.0, maxVel, n);
  }

  /** Full throttle gains one step per tick until the maximum, then holds it. */
  lemma {:induction false} ThrottleClosedForm(vel: real, maxVel: real, n: nat)
    requires vel <= maxVel
    ensures ApplyAll(vel, maxVel, Repeated(Throttle, n)) == Min(vel + n as real * ACCELERATION, maxVel)
    decreases n
  {
    if n > 0 {
      var cs := Repeated(Throttle, n);
      assert cs[0] == Throttle && cs[1..] == Repeated(Throttle, n - 1);
      ThrottleClosedForm(Accelerated(vel, maxVel), maxVel, n - 1);
    }
  }

  // ---------------------------------------------------------------------
  // The player's bounce and its debounced crash cue

  /** The player's car together with the time of the last crash cue. */
  datatype Player = Player(car: CarState, lastCrash: real)

  /** The crash cue plays when a sound is loaded and more than 0.3 s have
      passed since the last cue. */
  predicate CuePlays(lastCrash: real, now: real, soundLoaded: bool) {
    soundLoaded && now - lastCrash > CRASH_CUE_GAP
  }

  /** After a cue at `now`, a later bounce plays the cue again exactly when
      it comes more than 0.3 s later: the debounce window. */
  lemma DebounceWindow(p: Player, env: Env, now: real, next: real)
    requires CuePlays(p.lastCrash, now, env.soundLoaded)
    ensures CuePlays(Bumped(p, env, now).lastCrash, next, env.soundLoaded) <==> next > now + CRASH_CUE_GAP
  {
  }

  /** PlayerCar.bounce: reverse and damp, move once, maybe play the cue. */
  function Bumped(p: Player, env: Env, now: real): (r: Player)
    ensures r.car.vel == Bounced(p.car.vel) && r.car.angle == p.car.angle
    ensures CuePlays(p.lastCrash, now, env.soundLoaded) ==> r.lastCrash == now
    ensures !CuePlays(p.lastCrash, now, env.soundLoaded) ==> r.lastCrash == p.lastCrash
  {
    Player(Moved(p.car.(vel := Bounced(p.car.vel)), env),
           if CuePlays(p.lastCrash, now, env.soundLoaded) then now else p.lastCrash)
  }

  /** The times at which the cue plays, for bounces at the given times. */
  function Cues(lastCrash: real, times: seq<real>, soundLoaded: bool): seq<real>
    decreases |times|
  {
    if times == [] then []
    else if CuePlays(lastCrash, times[0], soundLoaded) then [times[0]] + Cues(times[0], times[1..], soundLoaded)
    else Cues(lastCrash, times[1..], soundLoaded)
  }

  /** Each cue comes more than 0.3 s after the one before it (and after the
      last recorded cue), whatever the bounce times. */
  lemma {:induction false} CuesSpaced(lastCrash: real, times: seq<real>, soundLoaded: bool)
    ensures var c := Cues(lastCrash, times, soundLoaded);
      (|c| > 0 ==> c[0] - lastCrash > CRASH_CUE_GAP) &&
      forall i :: 0 < i < |c| ==> c[i] - c[i - 1] > CRASH_CUE_GAP
    decreases |times|
  {
    if times != [] {
      CuesSpaced(times[0], times[1..], soundLoaded);
      CuesSpaced(lastCrash, times[1..], soundLoaded);
    }
  }
}

/** The decision logic of handle_collision in main.py: which response each
    mask-overlap result selects, and in what order the three checks mutate
    the player car, the computer car and the session.  The overlap test is
    the collaborator `Env.overlap`; it is asked about each car at the state
    the car is in when the source asks. */
module Collision {
  import opened Environment
  import opened Kinematics
  import opened Steering
  import opened Progress
  import opened Cars
  import opened GameState

  /** Where the finish-line mask lies on the track. */
  const FINISH_X: real := 130.0
  const FINISH_Y: real := 250.0

  /** The computer car's waypoints, in track pixels. */
  const PATH: seq<Point> := [
    (175, 119), (110, 70), (56, 133), (70, 481), (318, 731), (404, 680), (418, 521), (507, 475),
    (600, 551), (613, 715), (736, 713), (734, 399), (611, 357), (409, 343), (433, 257), (697, 258),
    (738, 123), (581, 71), (303, 78), (275, 377), (176, 388), (178, 260)]

  /** What a player's overlap with the finish line leads to. */
  datatype Response = Ignore | Rebound | Advance

  /** No overlap: nothing.  An overlap in the mask's first row means the car
      came at the line from the wrong side: a bounce.  Any other overlap
      completes the level. */
  function FinishResponse(poi: Option<Point>): (r: Response)
    ensures r == Ignore <==> poi.None?
    ensures r == Rebound <==> poi.Some? && poi.value.1 == 0
    ensures r == Advance <==> poi.Some? && poi.value.1 != 0
  {
    match poi
    case None => Ignore
    case Some((_, row)) => if row == 0 then Rebound else Advance
  }

  /** Everything handle_collision may change. */
  datatype World = World(player: Player, computer: Pilot, session: Session)

  /** First check: the player against the track border, bounce and one more step. */
  function BorderStep(w: World, pc: CarConfig, env: Env, now: real): (r: World)
    ensures r.session == w.session && r.computer == w.computer
    ensures Overlap(w.player.car, pc.sprite, TrackBorder, 0.0, 0.0, env).None? ==> r == w
    ensures Overlap(w.player.car, pc.sprite, TrackBorder, 0.0, 0.0, env).Some? ==>
      r.player.car.vel == Bounced(w.player.car.vel) && r.player.car.angle == w.player.car.angle &&
      r.player.lastCrash == Bumped(w.player, env, now).lastCrash
  {
    if Overlap(w.player.car, pc.sprite, TrackBorder, 0.0, 0.0, env).Some? then
      var bumped := Bumped(w.player, env, now);
      w.(player := bumped.(car := Moved(bumped.car, env)))
    else w
  }

  /** Second check: the computer car on the finish line wins, and the whole
      session starts over at level 1. */
  function ComputerFinishStep(w: World, pc: CarConfig, cc: CarConfig, env: Env): (r: World)
    ensures r.player.lastCrash == w.player.lastCrash
    ensures Overlap(w.computer.car, cc.sprite, FinishLine, FINISH_X, FINISH_Y, env).None? ==> r == w
    ensures Overlap(w.computer.car, cc.sprite, FinishLine, FINISH_X, FINISH_Y, env).Some? ==>
      r.session == Fresh(1) && r.player.car == Start(pc) && r.computer == NextLevelPilot(cc, 1)
  {
    if Overlap(w.computer.car, cc.sprite, FinishLine, FINISH_X, FINISH_Y, env).Some? then
      var s := Fresh(1);
      World(w.player.(car := Start(pc)), NextLevelPilot(cc, s.level), s)
    else w
  }

  /** Third check: the player on the finish line, with the clock read at `later`. */
  function PlayerFinishStep(w: World, pc: CarConfig, cc: CarConfig, env: Env, later: real): (r: World)
    ensures r.session == w.session || r.session == Advanced(w.session, later)
    ensures r.session == w.session ==> r.computer == w.computer
    ensures r.session != w.session ==>
      r.player.car == Start(pc) && r.computer == NextLevelPilot(cc, w.session.level + 1) &&
      r.player.lastCrash == w.player.lastCrash
  {
    match FinishResponse(Overlap(w.player.car, pc.sprite, FinishLine, FINISH_X, FINISH_Y, env))
    case Ignore => w
    case Rebound => w.(player := Bumped(w.player, env, later))
    case Advance =>
      var s := Advanced(w.session, later);
      World(w.player.(car := Start(pc)), NextLevelPilot(cc, s.level), s)
  }

  /** The three checks in order.  The clock reads `now` during the border
      check and `later` during the finish check; after a computer win the
      source pauses two seconds in between. */
  function Collided(w: World, pc: CarConfig, cc: CarConfig, env: Env, now: real, later: real): (r: World)
    ensures r.player.lastCrash == w.player.lastCrash || r.player.lastCrash == now || r.player.lastCrash == later
    ensures r.computer == w.computer || r.computer.point == 0
    ensures r.session != w.session ==> r.computer.point == 0
  {
    PlayerFinishStep(ComputerFinishStep(BorderStep(w, pc, env, now), pc, cc, env), pc, cc, env, later)
  }

  function WorldOf(player: PlayerCar, computer: ComputerCar, game: GameInfo): World
    reads player, player.body, computer, computer.body, game
  {
    World(player.State(), computer.State(), game.State())
  }

  /** handle_collision.  `now` is the clock during the border check and
      `later` the clock during the player's finish check. */
  method HandleCollision(player: PlayerCar, computer: ComputerCar, game: GameInfo, env: Env, now: real, later: real)
    requires player.body != computer.body
    requires computer.Valid()
    modifies player, player.body, computer, computer.body, game
    ensures computer.Valid()
    ensures WorldOf(player, computer, game)
         == Collided(old(WorldOf(player, computer, game)), player.body.Config(), computer.body.Config(), env, now, later)
  {
    var border := player.body.Collide(TrackBorder, 0.0, 0.0, env);
    if border.Some? {
      var _ := player.Bounce(env, now);
      player.body.Move(env);
    }

    var computerFinish := computer.body.Collide(FinishLine, FINISH_X, FINISH_Y, env);
    if computerFinish.Some? {
      game.Reset();
      player.body.Reset();
      computer.NextLevel(game.level);
    }

    var playerFinish := player.body.Collide(FinishLine, FINISH_X, FINISH_Y, env);
    if playerFinish.Some? {
      if playerFinish.value.1 == 0 {
        var _ := player.Bounce(env, later);
      } else {
        game.NextLevel(later);
        player.body.Reset();
        computer.NextLevel(game.level);
      }
    }
  }

  // ---------------------------------------------------------------------
  // What each overlap result leads to

  /** No overlap anywhere: nothing changes. */
  lemma QuietTickChangesNothing(w: World, pc: CarConfig, cc: CarConfig, env: Env, now: real, later: real)
    requires Overlap(w.player.car, pc.sprite, TrackBorder, 0.0, 0.0, env).None?
    requires Overlap(w.computer.car, cc.sprite, FinishLine, FINISH_X, FINISH_Y, env).None?
    requires Overlap(w.player.car, pc.sprite, FinishLine, FINISH_X, FINISH_Y, env).None?
    ensures Collided(w, pc, cc, env, now, later) == w
  {
  }

  /** A border hit reverses and damps the player's velocity and leaves the
      level alone when nothing reaches the finish line. */
  lemma BorderHitBounces(w: World, pc: CarConfig, cc: CarConfig, env: Env, now: real, later: real)
    requires Overlap(w.player.car, pc.sprite, TrackBorder, 0.0, 0.0, env).Some?
    requires Overlap(w.computer.car, cc.sprite, FinishLine, FINISH_X, FINISH_Y, env).None?
    requires Overlap(BorderStep(w, pc, env, now).player.car, pc.sprite, FinishLine, FINISH_X, FINISH_Y, env).None?
    ensures var r := Collided(w, pc, cc, env, now, later);
      r.player.car.vel == Bounced(w.player.car.vel) && r.session == w.session && r.computer == w.computer
  {
  }

  /** The computer reaching the finish line restarts the session at level 1
      with no time banked, whatever level was being played, provided the
      player's start position is clear of the finish line. */
  lemma ComputerWinRestartsSession(w: World, pc: CarConfig, cc: CarConfig, env: Env, now: real, later: real)
    requires Overlap(w.computer.car, cc.sprite, FinishLine, FINISH_X, FINISH_Y, env).Some?
    requires Overlap(Start(pc), pc.sprite, FinishLine, FINISH_X, FINISH_Y, env).None?
    ensures var r := Collided(w, pc, cc, env, now, later);
      r.session.level == 1 && r.session.totalTime == 0 && !r.session.started &&
      r.player.car == Start(pc) && r.computer == NextLevelPilot(cc, 1)
  {
  }

  /** A crossing from the right side completes exactly one level. */
  lemma ValidCrossingAdvancesOneLevel(w: World, pc: CarConfig, cc: CarConfig, env: Env, now: real, later: real, poi: Point)
    requires Overlap(w.player.car, pc.sprite, TrackBorder, 0.0, 0.0, env).None?
    requires Overlap(w.computer.car, cc.sprite, FinishLine, FINISH_X, FINISH_Y, env).None?
    requires Overlap(w.player.car, pc.sprite, FinishLine, FINISH_X, FINISH_Y, env) == Some(poi)
    requires poi.1 != 0
    ensures var r := Collided(w, pc, cc, env, now, later);
      r.session.level == w.session.level + 1 && !r.session.started &&
      r.session.totalTime == w.session.totalTime + LevelTime(w.session, later) &&
      r.player.car == Start(pc) && r.computer == NextLevelPilot(cc, w.session.level + 1)
  {
  }

  /** A crossing from the wrong side bounces the player and changes no level. */
  lemma WrongSideCrossingRebounds(w: World, pc: CarConfig, cc: CarConfig, env: Env, now: real, later: real, column: int)
    requires Overlap(w.player.car, pc.sprite, TrackBorder, 0.0, 0.0, env).None?
    requires Overlap(w.computer.car, cc.sprite, FinishLine, FINISH_X, FINISH_Y, env).None?
    requires Overlap(w.player.car, pc.sprite, FinishLine, FINISH_X, FINISH_Y, env) == Some((column, 0))
    ensures var r := Collided(w, pc, cc, env, now, later);
      r.session == w.session && r.computer == w.computer &&
      r.player == Bumped(w.player, env, later)
  {
  }

  /** Collision handling keeps the player's velocity within [-2*maxVel/3, maxVel]. */
  lemma CollisionKeepsEnvelope(w: World, pc: CarConfig, cc: CarConfig, env: Env, now: real, later: real)
    requires pc.maxVel >= 0.0 && InEnvelope(w.player.car.vel, pc.maxVel)
    ensures InEnvelope(Collided(w, pc, cc, env, now, later).player.car.vel, pc.maxVel)
  {
  }

  /** The waypoint index is either kept or reset to 0, and stays on the path. */
  lemma CollisionKeepsPathIndex(w: World, pc: CarConfig, cc: CarConfig, env: Env, now: real, later: real, path: seq<Point>)
    requires OnPath(w.computer, path)
    ensures var r := Collided(w, pc, cc, env, now, later);
      OnPath(r.computer, path) && (r.computer.point == w.computer.point || r.computer.point == 0)
  {
  }

  /** In one tick the level stays, goes up by one, or restarts at 1 (or 2,
      when the restarted player already stands on the finish line). */
  lemma LevelChangesPerTick(w: World, pc: CarConfig, cc: CarConfig, env: Env, now: real, later: real)
    ensures var l := Collided(w, pc, cc, env, now, later).session.level;
      l == w.session.level || l == w.session.level + 1 || l == 1 || l == 2
  {
  }

  /** A border bounce that plays the cue, then a computer win, then a
      wrong-side crossing from the start position: the pause after the win
      lets the second bounce play the cue again, and its time is recorded. */
  lemma SecondCueAfterComputerWin(w: World, pc: CarConfig, cc: CarConfig, env: Env, now: real, later: real, column: int)
    requires Overlap(w.player.car, pc.sprite, TrackBorder, 0.0, 0.0, env).Some?
    requires CuePlays(w.player.lastCrash, now, env.soundLoaded)
    requires Overlap(w.computer.car, cc.sprite, FinishLine, FINISH_X, FINISH_Y, env).Some?
    requires Overlap(Start(pc), pc.sprite, FinishLine, FINISH_X, FINISH_Y, env) == Some((column, 0))
    requires later >= now + 2.0
    ensures var r := Collided(w, pc, cc, env, now, later);
      r.player.lastCrash == later && r.session == Fresh(1)
  {
  }

  // ---------------------------------------------------------------------
  // The objects the game starts with

  /** The player's car (top speed 4, turn rate 4), the computer car (top
      speed 2, turn rate 4, following PATH) and a session at level 1. */
  method NewGame() returns (player: PlayerCar, computer: ComputerCar, game: GameInfo)
    ensures fresh(player) && fresh(player.body) && fresh(computer) && fresh(computer.body) && fresh(game)
    ensures player.body != computer.body && computer.Valid()
    ensures player.body.Config() == CarConfig(4.0, 4.0, PLAYER_START_X, PLAYER_START_Y, RedCar)
    ensures player.State() == Player(Start(player.body.Config()), 0.0)
    ensures computer.body.Config() == CarConfig(2.0, 4.0, COMPUTER_START_X, COMPUTER_START_Y, GreenCar)
    ensures computer.path == PATH && |computer.path| == 22
    ensures computer.State() == Pilot(Start(computer.body.Config()).(vel := 2.0), 0)
    ensures game.State() == Fresh(1)
  {
    player := new PlayerCar(4.0, 4.0);
    computer := new ComputerCar(2.0, 4.0, PATH);
    game := new GameInfo(1);
  }
}

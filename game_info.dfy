/** GameInfo of main.py: the level and timing fields the game loop updates
    in place, proved against the functions of module Progress.  Reading the
    wall clock is replaced by the argument `now`. */
module GameState {
  import opened Progress

  class GameInfo {
    var level: int
    var started: bool
    var levelStartTime: real
    var totalTime: int

    function State(): Session
      reads this
    {
      Session(level, started, levelStartTime, totalTime)
    }

    constructor (level: int := 1)
      ensures State() == Fresh(level)
    {
      this.level := level;
      started := false;
      levelStartTime := 0.0;
      totalTime := 0;
    }

    /** Bank the time of the level just finished and move one level up. */
    method NextLevel(now: real)
      modifies this
      ensures State() == Advanced(old(State()), now)
    {
      var t := GetLevelTime(now);
      totalTime := totalTime + t;
      level := level + 1;
      started := false;
    }

    method Reset()
      modifies this
      ensures State() == Fresh(1)
    {
      level := 1;
      started := false;
      levelStartTime := 0.0;
      totalTime := 0;
    }

    method GameFinished() returns (finished: bool)
      ensures finished <==> Finished(State())
    {
      finished := level > LEVELS;
    }

    method StartLevel(now: real)
      modifies this
      ensures State() == Begun(old(State()), now)
    {
      started := true;
      levelStartTime := now;
    }

    method GetLevelTime(now: real) returns (t: int)
      ensures t == LevelTime(State(), now)
    {
      if !started {
        return 0;
      }
      t := RoundHalfEven(now - levelStartTime);
    }
  }
}

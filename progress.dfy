/** The level and session bookkeeping of GameInfo in main.py, as functions
    on a `Session` value; class GameState.GameInfo is proved against them.
    The clock is an argument `now` (seconds). */
module Progress {

  /** Number of levels; passing the last one finishes the game. */
  const LEVELS: int := 10

  datatype Session = Session(level: int, started: bool, levelStartTime: real, totalTime: int)

  /** A new session at a given level: not started, no time recorded. */
  function Fresh(level: int): Session {
    Session(level, false, 0.0, 0)
  }

  predicate Finished(s: Session) {
    s.level > LEVELS
  }

  /** Rounding to the nearest integer, ties to the even one (Python's round). */
  function RoundHalfEven(r: real): (n: int)
    ensures -0.5 <= n as real - r <= 0.5
    ensures n as real - r == 0.5 || r - n as real == 0.5 ==> n % 2 == 0
  {
    var f := r.Floor;
    var frac := r - f as real;
    if frac < 0.5 then f
    else if frac > 0.5 then f + 1
    else if f % 2 == 0 then f
    else f + 1
  }

  /** The two properties of RoundHalfEven determine it: it agrees with any
      integer within half of r that is even on ties. */
  lemma RoundUnique(r: real, m: int)
    requires -0.5 <= m as real - r <= 0.5
    requires m as real - r == 0.5 || r - m as real == 0.5 ==> m % 2 == 0
    ensures m == RoundHalfEven(r)
  {
  }

  /** get_level_time: whole seconds since the level started, 0 before it has. */
  function LevelTime(s: Session, now: real): (t: int)
    ensures !s.started ==> t == 0
    ensures s.started ==> -0.5 <= t as real - (now - s.levelStartTime) <= 0.5
    ensures s.started && now >= s.levelStartTime ==> t >= 0
  {
    if !s.started then 0 else RoundHalfEven(now - s.levelStartTime)
  }

  /** start_level: the level is running from `now`. */
  function Begun(s: Session, now: real): (r: Session)
    ensures r.started && r.levelStartTime == now
    ensures forall later :: LevelTime(r, later) == RoundHalfEven(later - now)
    ensures LevelTime(r, now) == 0
    ensures r.level == s.level && r.totalTime == s.totalTime
  {
    s.(started := true, levelStartTime := now)
  }

  /** next_level: bank the level's time, go one level up, wait for the start. */
  function Advanced(s: Session, now: real): (r: Session)
    ensures r.level == s.level + 1 && !r.started
    ensures r.totalTime == s.totalTime + LevelTime(s, now)
    ensures s.started && now >= s.levelStartTime ==> r.totalTime >= s.totalTime
    ensures forall later :: LevelTime(r, later) == 0
  {
    s.(totalTime := s.totalTime + LevelTime(s, now), level := s.level + 1, started := false)
  }

  /** Passing the last level is what finishes the game. */
  lemma AdvanceFinishes(s: Session, now: real)
    ensures Finished(Advanced(s, now)) <==> s.level >= LEVELS
  {
  }

  // ---------------------------------------------------------------------
  // Sessions over a sequence of events

  datatype Event = StartLevel(at: real) | NextLevel(at: real) | ResetGame

  function Step(s: Session, e: Event): Session {
    match e
    case StartLevel(t) => Begun(s, t)
    case NextLevel(t) => Advanced(s, t)
    case ResetGame => Fresh(1)
  }

  function Replay(s: Session, es: seq<Event>): Session
    decreases |es|
  {
    if es == [] then s else Replay(Step(s, es[0]), es[1..])
  }

  /** The number of level advances among the events. */
  function Advances(es: seq<Event>): nat
    decreases |es|
  {
    if es == [] then 0 else (if es[0].NextLevel? then 1 else 0) + Advances(es[1..])
  }

  /** Without a reset, the level is the starting level plus the number of advances. */
  lemma {:induction false} LevelCountsAdvances(s: Session, es: seq<Event>)
    requires forall i :: 0 <= i < |es| ==> !es[i].ResetGame?
    ensures Replay(s, es).level == s.level + Advances(es)
    decreases |es|
  {
    if es != [] {
      LevelCountsAdvances(Step(s, es[0]), es[1..]);
    }
  }

  /** From a fresh game the player has won exactly when ten levels were passed. */
  lemma FinishedAfterTenLevels(es: seq<Event>)
    requires forall i :: 0 <= i < |es| ==> !es[i].ResetGame?
    ensures Finished(Replay(Fresh(1), es)) <==> Advances(es) >= LEVELS
  {
    LevelCountsAdvances(Fresh(1), es);
  }

  /** Event times that never go back, starting no earlier than the level start. */
  predicate ClockMonotone(s: Session, es: seq<Event>)
    requires forall i :: 0 <= i < |es| ==> !es[i].ResetGame?
  {
    (forall i :: 0 <= i < |es| ==> s.levelStartTime <= es[i].at) &&
    (forall i, j :: 0 <= i <= j < |es| ==> es[i].at <= es[j].at)
  }

  /** With a clock that never goes back, the banked total time never shrinks
      until the game is reset. */
  lemma {:induction false} TotalTimeNeverShrinks(s: Session, es: seq<Event>)
    requires forall i :: 0 <= i < |es| ==> !es[i].ResetGame?
    requires ClockMonotone(s, es)
    ensures Replay(s, es).totalTime >= s.totalTime
    decreases |es|
  {
    if es != [] {
      var s' := Step(s, es[0]);
      var rest := es[1..];
      assert forall i :: 0 <= i < |rest| ==> rest[i] == es[i + 1];
      assert forall i :: 0 <= i < |rest| ==> s'.levelStartTime <= rest[i].at by {
        forall i | 0 <= i < |rest|
          ensures s'.levelStartTime <= rest[i].at
        {
          assert s'.levelStartTime == s.levelStartTime || s'.levelStartTime == es[0].at;
          assert es[0].at <= es[i + 1].at;
        }
      }
      TotalTimeNeverShrinks(s', rest);
    }
  }
}

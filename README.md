# CarRacing simulation core in Dafny

A model of the simulation core of the two-car racing game in `main.py`: the
player's car and the path-following computer car, their clamped velocity
updates, rotation and bounce; the computer car's bounded steering toward its
waypoints and its waypoint index; the level and timing bookkeeping of
`GameInfo`; and the decision logic of `handle_collision`, which picks a
border bounce, a full restart when the computer wins, a bounce for a
wrong-side finish crossing, or a level advance.

Layout:

- `environment.dfy` (module `Environment`): the collaborators the core uses
  but does not implement (sine, cosine and arc tangent in degrees, the
  pixel-mask overlap test, the sprite rectangle test, whether the crash
  sound loaded), bundled as one `Env` value passed to every operation.
  Also `Option` and truncation toward zero.
- `kinematics.dfy` (module `Kinematics`): car state and the shared update
  rules as functions; the player's velocity over any sequence of updates;
  the bounce with its debounced crash cue.
- `steering.dfy` (module `Steering`): the computer car's heading update,
  path following, and per-level speed.
- `progress.dfy` (module `Progress`): `GameInfo`'s state as a `Session`
  value, Python's `round`, level time, level advance, and sessions over
  sequences of events.
- `cars.dfy` (module `Cars`): the classes `Car` (AbstractCar),
  `PlayerCar` and `ComputerCar`. The two subclasses own a `Car` (`body`)
  instead of inheriting from it. Every method states its new state as a
  function of the old one, using the functions above.
- `game_info.dfy` (module `GameState`): the class `GameInfo`.
- `collision.dfy` (module `Collision`): `handle_collision` as a method on
  the three objects, the same logic as a function on a `World` value, and
  what each overlap result leads to.

The clock (`time.time()`) is an argument `now: real`. Scalars are `real`,
so the values are exact. Python's `round` is modelled as round-half-to-even.
`int()` on a float is modelled as truncation toward zero.

Four behaviours of the code differ from what one might expect of such a
game. The model follows the code in each case:

- Velocity range. One might expect the player's velocity to stay within
  the throttle limits `[-max_vel/2, max_vel]`. `bounce` (main.py:121) breaks
  that bound: it turns 4 into -8/3. The model proves the range the code
  does keep, `[-2*max_vel/3, max_vel]` (`EnvelopeInvariant`). It also proves
  that the narrower range holds when no bounce happens
  (`ThrottleRangeWithoutBounce`).
- Heading wrap. One might expect the heading difference to be normalised
  to the shorter way round. The code (main.py:146) only brings a difference
  of 180 or more down by 360. A difference below -180 is left as it is, so
  the car then turns the long way round. `Wrapped` states exactly the
  one-sided behaviour: a difference of 180 or more, however large, loses
  360 once, and any other difference is kept.
- Car mask. One might expect the car's collision shape to rotate with the
  car. The code (main.py:100) builds the mask from the unrotated bitmap, so
  the overlap depends only on the sprite and the integer offset, and that
  is the signature of `Env.overlap`.
- Computer win. One might expect a computer win to always restart the
  session at level 1. In the code, the player's finish check (main.py:184)
  runs after the reset, with the player already back at the start
  position. If that position overlaps the finish mask away from row 0, the
  same tick advances to level 2. Whether it does depends on the bitmaps, so
  `ComputerWinRestartsSession` takes "the start position does not overlap
  the finish line" as a hypothesis. `LevelChangesPerTick` lists the
  possible outcomes.

The clock is read twice in `handle_collision`: `now` during the border
check, and `later` during the player's finish check. After a computer win
the code pauses two seconds between them (main.py:177), so `later` can be
well after `now`; `SecondCueAfterComputerWin` shows a consequence.

## Model

| member | source | states |
|---|---|---|
| Environment.Trunc | main.py:101 | the mask offset is the float difference truncated toward zero: within one unit of it, on the side of zero |
| Environment.TruncIsNotFloor | main.py:101 | truncation differs from flooring below zero (-0.5 gives 0, not -1) |
| Kinematics.Accelerated | main.py:88 | throttle gives `min(vel + 0.1, max_vel)`: never above `max_vel`, never more than one step up, and equal to one of the two |
| Kinematics.Reversing | main.py:91 | reverse gives `max(vel - 0.1, -max_vel/2)`: never below `-max_vel/2`, never more than one step down, and equal to one of the two |
| Kinematics.Coasted | main.py:117 | friction never makes the velocity negative, never raises a non-negative velocity, keeps 0 at 0, and takes off exactly half a step when that stays non-negative |
| Kinematics.Bounced | main.py:121 | a bounce reverses the sign and damps by 1.5: `vel == -1.5 * r`, and the magnitude does not grow |
| Kinematics.Rotated | main.py:82-84 | left adds `rotation_vel`, otherwise right subtracts it, otherwise the heading is kept; left takes precedence |
| Kinematics.Moved | main.py:93-98 | a step changes only the position; a car at rest does not move |
| Kinematics.OverlapIgnoresHeading | main.py:99-102 | the overlap of a car with a mask depends only on the truncated offset of its position, not on heading or speed, because the car's mask is not rotated |
| Kinematics.SubPixelMoveKeepsOverlap | main.py:101 | moving less than one pixel away from the mask origin from a whole-pixel offset does not change the overlap |
| Kinematics.ApplyKeepsEnvelope | main.py:88-121 | each velocity update (throttle, reverse, friction, bounce, reset) keeps `[-2*max_vel/3, max_vel]` |
| Kinematics.EnvelopeInvariant | main.py:87-128 | over any sequence of velocity updates the player's velocity stays within `[-2*max_vel/3, max_vel]` |
| Kinematics.ThrottleRangeWithoutBounce | main.py:87-92 | without bounces the velocity stays within `[-max_vel/2, max_vel]` |
| Kinematics.BounceLeavesThrottleRange | main.py:120-122 | a bounce from velocity 4 with `max_vel` 4 leaves `[-2, 4]` but stays in the wider range |
| Kinematics.BounceFromThree | main.py:121 | a bounce turns 3.0 into -2.0 |
| Kinematics.CoastingClosedForm | main.py:116-118 | n ticks of friction from a non-negative velocity give `max(vel - 0.05 n, 0)` |
| Kinematics.AtRestStaysAtRest | main.py:117 | a car at rest with no throttle stays at exactly 0 for any number of ticks |
| Kinematics.ThrottleClosedForm | main.py:87-89 | n ticks of throttle from at most `max_vel` give `min(vel + 0.1 n, max_vel)` |
| Kinematics.Bumped | main.py:120-128 | the player's bounce damps and reverses the velocity, keeps the heading, and records the time only when the crash cue plays |
| Kinematics.DebounceWindow | main.py:124-128 | after a cue, the next bounce plays the cue exactly when it comes more than 0.3 s later (the condition `CuePlays` of main.py:126) |
| Kinematics.CuesSpaced | main.py:124-128 | for any bounce times, each crash cue comes more than 0.3 s after the previous one |
| Steering.DesiredHeading | main.py:139-144 | a target level with the car gives heading 90 without a division; a target below the car adds 180 to the arc tangent |
| Steering.Wrapped | main.py:145-146 | a difference of 180 or more is lowered by exactly 360, any smaller one is kept; so the result is below 180 only when the difference started below 540 |
| Steering.Turned | main.py:147-148 | the heading changes by at most `rotation_vel`; the remaining difference shrinks to `max(abs(d) - rotation_vel, 0)` and never changes sign |
| Steering.Steered | main.py:138-148 | one steering step turns the computer car by at most `rotation_vel` |
| Steering.Drive | main.py:149-157 | one tick: nothing once the path is exhausted; otherwise the index grows by at most 1 and stays within the path, the speed is kept, the turn is bounded |
| Steering.DriveNProgress | main.py:149-157 | over n ticks the index is non-decreasing, grows by at most n, never exceeds the path length, and the speed is unchanged |
| Steering.ExhaustedPathIsIdle | main.py:154 | once the index reaches the path length (at once for an empty path) the car never changes again |
| Steering.LevelSpeed | main.py:161 | the computer's speed on level 1 is `max_vel` and never below it from level 1 on |
| Steering.LevelSpeedStep | main.py:161 | each level adds exactly 0.2 to the computer's speed |
| Steering.LevelSpeedOnThirdLevel | main.py:161 | `max_vel` 2 on level 3 gives 2.4 |
| Steering.NextLevelPilot | main.py:159-162 | next level puts the computer car at its start position, heading 0, index 0, at speed `LevelSpeed(max_vel, level)`, which is `max_vel + 0.2 (level - 1)` |
| Progress.RoundHalfEven | main.py:71 | the rounded value is within 1/2 of the input, and even on ties |
| Progress.RoundUnique | main.py:71 | those two properties determine the rounded value |
| Progress.LevelTime | main.py:69-71 | 0 when not started; otherwise within 1/2 second of the elapsed time, and non-negative when the clock has not gone back |
| Progress.Begun | main.py:65-67 | starting a level marks it started with its start time exactly `now`, so every later level time is `round(later - now)`; level and total are kept |
| Progress.Advanced | main.py:51-55 | next level raises the level by exactly 1, clears `started`, adds the level time to the total, and the new level reads 0 s |
| Progress.AdvanceFinishes | main.py:62-63 | advancing finishes the game exactly when the level was already 10 or more |
| Progress.LevelCountsAdvances | main.py:51-60 | without a reset, the level is the starting level plus the number of advances |
| Progress.FinishedAfterTenLevels | main.py:44-63 | from a fresh game, `game_finished` holds exactly after ten or more advances |
| Progress.TotalTimeNeverShrinks | main.py:51-71 | with a clock that never goes back, the total time never decreases until a reset |
| Cars.Car.constructor | main.py:74-81 | a new car is at its start position, heading 0, at rest |
| Cars.Car.Rotate | main.py:82-84 | only the heading changes, as `Rotated` says |
| Cars.Car.Move | main.py:93-98 | only the position changes, as `Moved` says |
| Cars.Car.MoveForward | main.py:87-89 | velocity becomes `Accelerated`, then one step; afterwards `vel <= max_vel` |
| Cars.Car.MoveBackward | main.py:90-92 | velocity becomes `Reversing`, then one step; afterwards `vel >= -max_vel/2` |
| Cars.Car.Collide | main.py:99-102 | the overlap is asked for at the truncated offset of the car from the mask's origin |
| Cars.Car.Reset | main.py:103-106 | position, heading and velocity are back to the start values |
| Cars.PlayerCar.constructor | main.py:108-114 | the player's car starts at (145, 200) at rest with no crash recorded |
| Cars.PlayerCar.ReduceSpeed | main.py:116-118 | friction then one step; afterwards `vel >= 0`, and not above a non-negative old velocity |
| Cars.PlayerCar.Bounce | main.py:120-128 | the new state is `Bumped`; the cue plays exactly when a sound is loaded and more than 0.3 s have passed |
| Cars.ComputerCar.constructor | main.py:130-137 | the computer car starts at (175, 200) at full speed, index 0, on the given path (empty by default) |
| Cars.ComputerCar.CalculateAngle | main.py:138-148 | only the heading changes, to `Steered`, by at most `rotation_vel` |
| Cars.ComputerCar.UpdatePathPoint | main.py:149-152 | the index goes up by one exactly when the car's rectangle contains the current waypoint |
| Cars.ComputerCar.Move | main.py:153-157 | the new state is `Drive` of the old one, and the index stays within the path |
| Cars.ComputerCar.NextLevel | main.py:159-162 | the new state is `NextLevelPilot` for the given level |
| GameState.GameInfo.constructor | main.py:45-49 | a new session at the given level (1 by default), not started, no time |
| GameState.GameInfo.NextLevel | main.py:51-55 | the new state is `Advanced` of the old one |
| GameState.GameInfo.Reset | main.py:56-60 | back to level 1, not started, start time 0, total time 0 |
| GameState.GameInfo.GameFinished | main.py:62-63 | true exactly when the level is above 10 |
| GameState.GameInfo.StartLevel | main.py:65-67 | started, with the level start time set to `now` |
| GameState.GameInfo.GetLevelTime | main.py:69-71 | the level time of the current state |
| Collision.BorderStep | main.py:166-168 | without a border overlap nothing changes; with one the player's velocity is damped and reversed, the heading kept and the crash time updated as `Bumped` says; session and computer car are never touched |
| Collision.ComputerFinishStep | main.py:171-182 | without a computer overlap nothing changes; with one the session is `Fresh(1)`, the player is at the start and the computer car at level-1 speed; the crash time is kept |
| Collision.PlayerFinishStep | main.py:184-191 | the session is kept or becomes `Advanced` at `later`; when kept the computer car is too; when advanced both cars restart for the next level and the crash time is kept |
| Collision.Collided | main.py:165-191 | the crash time after a tick is the old one, `now` or `later`; the computer car is kept or back at waypoint 0, and it is back at 0 whenever the session changed |
| Collision.FinishResponse | main.py:184-191 | no overlap leads to nothing; an overlap in row 0 to a bounce; any other overlap to a level advance (each both ways) |
| Collision.HandleCollision | main.py:165-191 | the three objects end up as `Collided` of their old state, with the border check at clock `now` and the finish check at clock `later`; the waypoint index stays within the path |
| Collision.QuietTickChangesNothing | main.py:165-191 | with no overlap anywhere nothing changes |
| Collision.BorderHitBounces | main.py:166-168 | a border hit alone reverses and damps the velocity and keeps level and computer car |
| Collision.ComputerWinRestartsSession | main.py:171-182 | a computer win resets to level 1 with total time 0, the player at the start and the computer at level-1 speed, whatever the level was |
| Collision.ValidCrossingAdvancesOneLevel | main.py:184-191 | a crossing outside row 0 raises the level by exactly 1, banks the level time as read at `later`, and restarts both cars for the new level |
| Collision.WrongSideCrossingRebounds | main.py:184-187 | a crossing in row 0 bounces the player and leaves level, times and computer car alone |
| Collision.CollisionKeepsEnvelope | main.py:165-191 | collision handling keeps the player's velocity within `[-2*max_vel/3, max_vel]` |
| Collision.CollisionKeepsPathIndex | main.py:171-191 | the waypoint index is kept or reset to 0, and stays within the path |
| Collision.LevelChangesPerTick | main.py:165-191 | in one tick the level stays, rises by one, or restarts at 1 (2 if the restarted player is already on the finish line) |
| Collision.SecondCueAfterComputerWin | main.py:165-191 | a cued border bounce, a computer win and a row-0 crossing from the start give a second cue, recorded at `later`, when the finish check comes 2 s or more after the border check |
| Collision.NewGame | main.py:198-200 | the game starts with the player's car (top speed 4, turn rate 4) at rest at (145, 200), the computer car (top speed 2, turn rate 4) at full speed on the 22-waypoint path of main.py:39-40, and a session at level 1 |

## Left out

- Asset loading, the window, fonts and drawing (`draw`, main.py:8-37, 85-86, 205-218, 256-267) are rendering and I/O.
- The game loop (main.py:194-286) is left out: event polling, key reading and the waits for a key press. Only its creation of the three objects (main.py:198-200) is modelled, as `Collision.NewGame`. It orchestrates the modelled operations; its cooperative suspensions are concurrency plumbing. `EnvelopeInvariant` covers any order in which the loop applies the velocity updates.
- The message and the two-second pause after a computer win (main.py:173-177) are left out: they are drawing and a cooperative suspension. The effect of the pause on the clock is kept: `HandleCollision` takes a separate reading `later` for the finish check.
- The trigonometry of `move` and the arc tangent of `calculate_angle` are collaborators (`Env.sinDeg`, `Env.cosDeg`, `Env.atanDeg`); nothing about them is assumed.
- Floating-point rounding is not modelled: the scalars are exact reals.
- Building the pixel masks and `Mask.overlap` (main.py:99-102) are the collaborator `Env.overlap`; only the offset computation is modelled.
- `pygame.Rect(...).collidepoint` (main.py:151-152) is the collaborator `Env.rectContains`, which also covers the Rect's integer conversion of the position.
- Playing the crash sound is the `cue` result of `PlayerCar.Bounce`; the sound itself is left out.
- Cars.PlayerCar.Bounce: the source reads the clock inside each bounce; the model takes it as the argument `now`. `HandleCollision` passes `now` to the border bounce and `later` to the finish-check bounce and level advance, so the pause after a computer win is seen. Without a computer win the two checks are microseconds apart in the source, and any `later` is allowed.
- Steering.DesiredHeading: the source adds pi in radians and then converts to degrees; the model adds 180 to the heading in degrees.

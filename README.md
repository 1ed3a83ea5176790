# Ping: a verified model of the Pong core

This project models the game logic of `ping`, a small Pong game written
with pygame that hands its state to a learning controller.

- All of `ping/ball.py` is modelled except the colour fills. A 25 by 25 ball bounces off the top and
  bottom walls. When it leaves through the left or the right wall it is
  clamped, stopped and scores a point for the player on the other side, and
  a reset is left pending.
- From `ping/game.py` the model covers:
  - the reward rule against a score snapshot;
  - the decay of the exploration parameter epsilon;
  - the reflection of the ball off the bats;
  - the four-number state vector sent to the controller;
  - the NPC switch;
  - the order of the stages inside one pass of `game_loop`.

The model has three files:

- `geometry.dfy` (module `Geometry`) restates the part of pygame's `Rect`
  that the game uses. This covers the edge setters, `move_ip`, and
  `colliderect`. In `colliderect`, an empty rectangle collides with nothing
  and rectangles that only share an edge do not collide.
- `ping_ball.dfy` (module `PingBall`) models the ball.
  - `Resolve` is a pure function on the value `BallState`. It is the
    specification of `update`: the four edge checks in source order.
  - The lemmas beside it prove the playfield invariant, the scoring rules
    and the bounce rules.
  - The class `Ball` has the source's mutable fields. Each of its methods is
    proved to change its state exactly as the matching function says.
  - The class `Scoreboard` is the score dictionary that `update` increments
    in place.
- `ping_game.dfy` (module `PingGame`) models the game.
  - Each stage of a pass is a function on the value `GameState`.
  - `NextTick` composes the stages in the order of `game_loop`, and `Run`
    iterates `NextTick` while `running` holds.
  - The class `Game` holds the same state in fields.
  - `Game.Tick` and `Game.GameLoop` are proved equal to `NextTick` and `Run`.

Epsilon is kept in integer thousandths: 1000 stands for 1.0, the floor 100
for 0.1, and one step of 1 for 0.001.

Three behaviours of the code differ from what a reader of the game might
expect (an idempotent top bounce, a reward each point, every gain paid).
The model follows the code each time:

- The top check fires at `top <= 0` and negates `vy` unconditionally. A ball
  resting at the top wall therefore gets `vy` flipped on every call, and the
  step is not idempotent. `TopBounceNotIdempotent` proves this.
- `game_loop` never calls `get_reward`. The reward rule is modelled and
  proved on its own.
- Both scores can grow between two calls of `get_reward`. The reward then
  reports only p1's gain, and the new snapshot swallows p2's.
  `RewardAbsorbsSimultaneousP2Gain` proves this.

## Model

| member | source | states |
|---|---|---|
| Geometry.SetLeft | ping/ball.py:18 | assigning `rect.left` puts the left edge at the value and keeps the top and the size |
| Geometry.SetRight | ping/ball.py:25 | assigning `rect.right` puts the right edge at the value and keeps the top and the size |
| Geometry.SetTop | ping/ball.py:32 | assigning `rect.top` puts the top edge at the value and keeps the left edge and the size |
| Geometry.SetBottom | ping/ball.py:36 | assigning `rect.bottom` puts the bottom edge at the value and keeps the left edge and the size |
| Geometry.Moved | ping/game.py:148 | `move_ip(speed)` shifts all four edges by the speed and keeps the size |
| Geometry.Collide | ping/game.py:74-76 | pygame's `colliderect`: both rectangles non-empty and their edges strictly overlapping on both axes; `CollideIffSharedPoint` characterises it |
| Geometry.CollideIffSharedPoint | ping/game.py:73-77 | the overlap test of `colliderect` holds exactly when some point lies inside both rectangles |
| PingBall.FlipsAreInvolutions | ping/ball.py:39-43 | each reversal negates only its own component, undoes itself, and the two reversals commute |
| PingBall.RecentredPlacesCorner | ping/ball.py:51-56 | a reset puts the top-left corner (not the centre) at the stored middle, sets speed (10, 8), clears the flag, keeps the size, and a second reset changes nothing |
| PingBall.Recentred | ping/ball.py:51-56 | `reset_ball`'s effect: corner at the stored middle, size and middle kept, speed (10, 8), flag cleared |
| PingBall.LeftEdge | ping/ball.py:17-22 | the left block as a function; `HorizontalOutcome` characterises it together with the right block |
| PingBall.RightEdge | ping/ball.py:24-29 | the right block as a function; `HorizontalOutcome` characterises it together with the left block |
| PingBall.TopEdge | ping/ball.py:31-33 | the top block as a function; `VerticalOutcome` and `TopEdgeBounces` characterise it |
| PingBall.BottomEdge | ping/ball.py:35-37 | the bottom block as a function; `VerticalOutcome` and `BottomEdgeBounces` characterise it |
| PingBall.HorizontalChecks | ping/ball.py:17-29 | the left block, then the right block on its result; `HorizontalOutcome` characterises it |
| PingBall.VerticalChecks | ping/ball.py:31-37 | the top block, then the bottom block on its result; `VerticalOutcome` characterises it |
| PingBall.Resolve | ping/ball.py:16-37 | `update` adds 0 or 1 to each score entry and keeps the ball's size and middle point |
| PingBall.HorizontalOutcome | ping/ball.py:17-29 | for a 25 by 25 ball at most one horizontal check fires; the ball ends inside 0..800 across, and p1 or p2 gains a point exactly on a right or left exit, with the ball clamped, stopped and flagged for reset |
| PingBall.VerticalOutcome | ping/ball.py:31-37 | the vertical checks clamp the ball into 0..600 and negate vy for the wall that fires; they keep vx, the position across and the reset flag, and a stopped ball stays stopped |
| PingBall.HorizontalChecksClamp | ping/ball.py:17-29 | after the left and right checks a 25 by 25 ball lies within 0..800 across |
| PingBall.VerticalChecksClamp | ping/ball.py:31-37 | after the top and bottom checks a 25 by 25 ball lies within 0..600 down and has not moved across |
| PingBall.ResolveKeepsBallInPlayfield | ping/ball.py:16-37 | after `update` the 25 by 25 ball satisfies 0 <= left, right <= 800, 0 <= top and bottom <= 600 |
| PingBall.ResolveScoresOnlyOnHorizontalExit | ping/ball.py:17-29 | p1 gains one exactly when the right edge was past 800 and p2 exactly when the left edge was below 0; both never happen together |
| PingBall.LeftExitScoresForP2 | ping/ball.py:17-22 | on a left exit: left edge 0, speed (0, 0), p2 + 1, p1 unchanged, reset pending |
| PingBall.RightExitScoresForP1 | ping/ball.py:24-29 | on a right exit: right edge 800, speed (0, 0), p1 + 1, p2 unchanged, reset pending |
| PingBall.ResolveScoresAtMostOnce | ping/ball.py:16-37 | at most one point per `update`; a scoring update ends stopped with a reset pending even if a wall bounce also fired; without a horizontal exit the score, the flag and vx are kept |
| PingBall.TopEdgeBounces | ping/ball.py:31-33 | at top <= 0 the top becomes 0 and vy is negated whatever its sign; the score is untouched |
| PingBall.BottomEdgeBounces | ping/ball.py:35-37 | at bottom >= 600 the bottom becomes 600 and vy is negated; the score is untouched |
| PingBall.TopBounceNotIdempotent | ping/ball.py:31-33 | a ball at top 0 moving down has vy negated by one `update` and restored by the next |
| PingBall.Scoreboard.constructor | ping/game.py:54 | the score starts at p1 = 0, p2 = 0 |
| PingBall.Ball.constructor | ping/ball.py:5-14 | a new ball is 25 by 25 at the origin, with speed (10, 8), no reset pending and the given middle point |
| PingBall.Ball.Update | ping/ball.py:16-37 | the ball and the score change exactly as `Resolve` says, the ball stays 25 by 25 and ends in the playfield |
| PingBall.Ball.CheckHorizontalEdges | ping/ball.py:17-29 | the left and right blocks change the ball and the score as the two horizontal checks say |
| PingBall.Ball.CheckVerticalEdges | ping/ball.py:31-37 | the top and bottom blocks change the ball as the two vertical checks say |
| PingBall.Ball.ReverseVerticalDirection | ping/ball.py:39-40 | vy is negated and only the speed changes |
| PingBall.Ball.ReverseHorizontalDirection | ping/ball.py:42-43 | vx is negated and only the speed changes |
| PingBall.Ball.StopBall | ping/ball.py:45-46 | the speed becomes (0, 0) |
| PingBall.Ball.SetBallSpeed | ping/ball.py:48-49 | the speed becomes the given pair, (10, 8) by default |
| PingBall.Ball.ResetBall | ping/ball.py:51-56 | speed (10, 8), corner at (x_middle, y_middle), flag cleared, nothing else changed |
| PingGame.Reward | ping/game.py:121-130 | the reward is -1000, 0 or 1000; -1000 exactly when p1 grew, which takes precedence; 1000 exactly when p2 grew and p1 did not; the snapshot becomes the score exactly when the reward is nonzero |
| PingGame.RewardPaidOnce | ping/game.py:122-129 | asking again with the returned snapshot and the same score gives 0 |
| PingGame.RewardAbsorbsSimultaneousP2Gain | ping/game.py:122-127 | when both players gained, the reward is -1000, and p2's gain is then never rewarded |
| PingGame.Decay | ping/game.py:117-119 | above the floor epsilon drops by exactly one step and so never below the floor; at or below the floor it is unchanged; it never increases |
| PingGame.DecayTimes | ping/game.py:117-119 | n calls of `update_epsilon` never raise epsilon, never take it below the floor from above, and never move a value at or below the floor; `DecayTimesClosedForm` gives the exact value |
| PingGame.DecayTimesClosedForm | ping/game.py:117-119 | n decays lower epsilon by n down to the floor and then hold it there |
| PingGame.EpsilonSchedule | ping/game.py:52 | from 1.0, epsilon is 1.0 - 0.001 n for n <= 900 calls and 0.1 afterwards |
| PingGame.BatReflect | ping/game.py:73-77 | vx is negated once per overlapped bat (so unchanged when both or neither overlap) and vy is kept |
| PingGame.BallNeverOverlapsBothBats | ping/game.py:73-77 | with the bats in their columns, a 25-wide ball cannot overlap both |
| PingGame.NpcToggle | ping/game.py:87-92 | the down key switches the NPC off even when the up key is also held; the up key alone switches it on; neither key leaves it unchanged |
| PingGame.OutputData | ping/game.py:104-110 | five entries under distinct keys, the last being the score |
| PingGame.Values | ping/game.py:113 | the values in key order, one per entry |
| PingGame.PrepareData | ping/game.py:112-115 | the first four values, or all of them when fewer |
| PingGame.StateVectorIsPositions | ping/game.py:104-115 | the state vector is exactly [left bat y, right bat y, ball x, ball y]; the score is dropped |
| PingGame.AsWrittenLoopRaisesInFirstPass | ping/game.py:135-166 | as written, the first pass raises at `print_score` with epsilon not decayed and one vector sent; the state up to there agrees with the corrected pass |
| PingGame.NextTickKeepsInvariants | ping/game.py:143-149 | a pass keeps the ball 25 by 25 and in the playfield, and adds at most one point in total, never removing one |
| PingGame.ResetComesFirst | ping/game.py:143-148 | a pending reset is consumed before the controller looks and before the ball moves: the vector shows the corner at the middle and the ball moves from there at the default speed |
| PingGame.UpdateBeforeBatTest | ping/game.py:148-157 | the bat test sees the ball after `update` and can only change vx |
| PingGame.RightExitFirstPass | ping/game.py:148-149 | a ball at (795, 300) moving (10, 0) ends the pass clamped to right edge 800, stopped, with p1 scoring and a reset pending |
| PingGame.RightExitSecondPass | ping/game.py:143-149 | the next pass shows the controller the corner at (400, 300), and the ball moves on to (410, 308) at speed (10, 8) |
| PingGame.ConsumeQuit | ping/game.py:137-141 | an Escape key-down clears `running` and changes nothing else; the pass still runs to its end (`NextTick` states the effect on `running`) |
| PingGame.ConsumeReset | ping/game.py:143-144 | a pending reset recentres the ball before anything else; `ResetComesFirst` states what the controller and the move then see |
| PingGame.MoveBall | ping/game.py:148 | the ball's rectangle moves by its speed, through `Geometry.Moved` |
| PingGame.UpdateBall | ping/game.py:149 | the ball and the score become `Resolve` of the moved ball and the score; `NextTickKeepsInvariants` states the playfield and scoring facts |
| PingGame.MoveBats | ping/game.py:156 | `check_bat_move` replaces the two bats by the given rectangles |
| PingGame.HitBats | ping/game.py:157 | only the ball's speed changes: vy is kept and vx is negated exactly when the ball overlaps one bat but not both |
| PingGame.ToggleNpc | ping/game.py:158 | `npc_on` becomes `NpcToggle` of its old value and the two keys |
| PingGame.MoveNpc | ping/game.py:160-161 | the left bat takes the given rectangle only while the NPC is on |
| PingGame.TickFront | ping/game.py:137-161 | the stages from the Escape check to the NPC move, in source order; `UpdateBeforeBatTest` and `NextTickKeepsInvariants` state what the composition does |
| PingGame.NextTick | ping/game.py:136-166 | one pass decays epsilon exactly once, sends the controller the epsilon it started with, clears `running` exactly on Escape, never touches the reward snapshot, and sends two four-number vectors |
| PingGame.Run | ping/game.py:135-167 | the loop makes at most one pass per input, stops early only when `running` has been cleared, decays epsilon exactly once per pass and never touches the reward snapshot |
| PingGame.RunAsWritten | ping/game.py:163 | as written the loop finishes only when it makes no pass; otherwise it raises `AttributeError` for `print_score` after one vector was sent and with epsilon not decayed |
| PingGame.RunStep | ping/game.py:135-166 | a loop that runs one pass continues from the state that pass leaves |
| PingGame.RunKeepsInvariants | ping/game.py:135-166 | over any run the ball stays 25 by 25, is in the playfield once a pass has run, and the score grows by at most one point per pass |
| PingGame.RunWithoutEscapeUsesEveryInput | ping/game.py:136-141 | without Escape every input gives a pass and the game is still running at the end |
| PingGame.Initial | ping/game.py:25-57 | a new game starts running, with a 25 by 25 ball inside the playfield, no reset pending, the NPC off, epsilon 1.0 and zero scores equal to the snapshot |
| PingGame.EpsilonAfterPasses | ping/game.py:135-166 | from a new game and n passes without Escape, epsilon is 1.0 - 0.001 n, or 0.1 once n >= 900 |
| PingGame.Game.constructor | ping/game.py:25-57 | a new game has the ball's corner at (400, 300) with speed (10, 8), zero scores and snapshot, epsilon 1.0, the NPC off and `running` set |
| PingGame.Game.CheckBatMove | ping/game.py:60-70 | only the two bats change, to the given rectangles |
| PingGame.Game.CheckBallHitsBat | ping/game.py:73-77 | only the ball's speed changes, as `BatReflect` says for the current overlaps |
| PingGame.Game.MovesNpcPlayer | ping/game.py:79-85 | only the left bat changes, to the given rectangle |
| PingGame.Game.TurnNpcOnOrOff | ping/game.py:87-92 | `npc_on` changes as `NpcToggle` says |
| PingGame.Game.UpdateEpsilon | ping/game.py:117-119 | epsilon changes as `Decay` says |
| PingGame.Game.GetReward | ping/game.py:121-130 | the reward and the new snapshot are as `Reward` says |
| PingGame.Game.ConsumeEvents | ping/game.py:137-144 | Escape clears `running` and a pending reset is consumed |
| PingGame.Game.MoveAndUpdateBall | ping/game.py:148-149 | the ball moves by its speed and is then resolved against the walls |
| PingGame.Game.MoveBatsAndNpc | ping/game.py:156-161 | bat move, bat reflection, NPC switch and NPC move, in that order |
| PingGame.Game.Tick | ping/game.py:136-166 | one pass changes the game and reports exactly as `NextTick` says |
| PingGame.Game.GameLoop | ping/game.py:135-167 | the loop's final state and its trace of feedback are exactly `Run` of the inputs |

## Left out

- Rendering is not modelled: the screen, surfaces, fonts, `blit`, `display.flip`, `clock.tick`, the colour fills `set_black` and `set_white`, `print_npc_status`, `game_score` and the `print` on line 164.
- The `Ai` controller (`receive_state`, `update_state`, `model.save`) is code outside this model. Its inputs appear as `Feedback` values. It is assumed not to change the game.
- Event polling is not modelled. Each pass takes a `TickInput` that says whether an Escape key-down arrived.
- Bat motion depends on `ping/bat.py`, which is not part of this model, and on live key state. `check_bat_move` and `moves_npc_player` take the bats' new rectangles as inputs, so the rule that keeps the left bat still while the NPC plays is not captured.
- `moves_npc_player`'s random draw and its chase rule are not modelled; the left bat it produces is an input.
- Epsilon is modelled in exact thousandths. With Python floats, 1 - 0.001 n drifts, so the real loop may stop one step before or after 0.1.
- The middle point is `600 / 2 = 300.0`, a float in Python. It is modelled as the integer 300, which is what a pygame rectangle stores.
- pygame rectangles hold C ints, so their wrap-around for huge coordinates is not modelled.
- The default `Ball` argument of `Game()` is built once when the class is defined and shared by every `Game`. The model gives each game a fresh ball.
- The `games` counter, the fonts, the screen rectangle and the colour constants are not modelled. None of them is read by the modelled logic.
- The loop is run over a finite sequence of inputs. A game that never receives Escape is captured only by its finite prefixes.
- `get_reward` is modelled on its own because `game_loop` never calls it.

## Findings

| source | as written | input that shows it | evidently intended | confidence | as-written member | corrected member |
|---|---|---|---|---|---|---|
| ping/game.py:163 | every pass calls `self.print_score()`, but that method is commented out (lines 99-102), so the call raises `AttributeError` | any new game: the first pass of `game_loop` raises after the NPC move, before `update_state` and `update_epsilon` | draw the score and finish the pass, so the controller gets its report and epsilon decays once per pass | not executed | PingGame.AsWrittenLoopRaisesInFirstPass | PingGame.Game.GameLoop |

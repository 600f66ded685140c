# Block push/pull model

This project models the block entity of the Solarus 2D game engine
(`src/entities/Block.cpp`). A block is a map entity the hero can push or pull.
It keeps a move counter: 0 means it can no longer move, 1 means it can move once,
and 2 means it can move without limit. It has push and pull permissions, an
allowed direction (-1 for any) and a cooldown date before which it refuses to
move. It also remembers the position it last settled at and where it was created.
A one-shot flag makes sure the push sound plays only once per push. While the
hero holds the block, a movement is attached that makes the block follow the hero.

The project is split into three files:

- `block_logic.dfy` (module `BlockLogic`) holds the block's state as a value
  (`BlockState`). Each of the block's operations is a transition function on
  that value, and lemmas state what the operations promise: the six gates of a
  push or pull, the cooldown, move consumption, reset and re-arming.
- `block_runs.dfy` (module `BlockRuns`) models any sequence of calls on one
  block (`Op`, `Step`, `Run`). Lemmas proved by induction over these sequences
  show that the counter invariant holds throughout and that the counter never
  rises without a reset or re-arm. They also show that a block with no moves
  left refuses every attempt, that the push sound plays at most once between
  two attempts, and that removal from the map is final and happens only on a
  hole, lava or deep water.
- `block.dfy` (module `BlockEntity`) holds `class Block`, whose methods update
  the fields in place as the C++ methods do. Each method's postcondition ties
  its new state (`State()`) to a transition of `BlockLogic` or to a
  single-field update.
  `ResetScenario` is a client that constructs a block at (10, 20) with one move,
  pushes it to (26, 20), lets go, checks that a second push is refused, resets
  it and pushes it again.

The clock (`System::now()`) is an explicit `now` parameter. The hero enters as
a value: its grabbing-or-pulling state, its animation direction (0..3) and its
position. The ground below the block enters as a `Ground` value. Sounds are
recorded in a log instead of being played: the class's ghost field `sounds`,
or the `sounds` component of `BlockState`.

`Block.cpp` overrides only the hole and teletransporter opinions among the
terrain-like entities, so the model has no deep-water obstacle opinion.

## Model

| member | source | states |
|---|---|---|
| BlockEntity.Block.constructor | src/entities/Block.cpp:47-73 | a new block is idle, settled at its creation point, with both counters equal to the given 0..2 value and a cooldown that is already over; a counter outside 0..2 is a fatal error (precondition) |
| BlockEntity.Block.IsGroundObserver | src/entities/Block.cpp:94-96 | blocks always observe the ground below them |
| BlockEntity.Block.IsHoleObstacle | src/entities/Block.cpp:112-114 | a hole never stops a block |
| BlockEntity.Block.IsTeletransporterObstacle | src/entities/Block.cpp:121-124 | a teletransporter never stops a block |
| BlockEntity.Block.IsHeroObstacle | src/entities/Block.cpp:131-133 | the hero is an obstacle iff no movement is attached; when the hero is not an obstacle, no push or pull can start |
| BlockEntity.Block.IsEnemyObstacle | src/entities/Block.cpp:140-142 | enemies are always obstacles |
| BlockEntity.Block.IsDestructibleObstacle | src/entities/Block.cpp:149-151 | destructible items are always obstacles |
| BlockEntity.Block.StartMovementByHero | src/entities/Block.cpp:203-230 | the result is true exactly when all six gates pass (`MayStart`); on refusal nothing changes; on acceptance the block follows the hero at its current offset and the push sound is re-armed; the counter invariant is kept |
| BlockEntity.Block.NotifyPositionChanged | src/entities/Block.cpp:235-250 | the push sound is played and the flag set only when a movement is attached and the flag was clear; nothing else changes |
| BlockEntity.Block.NotifyGroundBelowChanged | src/entities/Block.cpp:267-286 | a hole (jump sound), lava or deep water (splash sound) removes the block from the map; any other ground changes nothing |
| BlockEntity.Block.StopMovementByHero | src/entities/Block.cpp:292-307 | the movement is detached and the cooldown set to now + MovingDelay; a move is counted only if the block left its last settled position |
| BlockEntity.Block.Reset | src/entities/Block.cpp:328-339 | position and last position go back to the creation point and the counter to its initial value; detaching and the cooldown happen only if a movement was attached |
| BlockEntity.Block.IsPushable | src/entities/Block.cpp:345-347 | answers the push permission, whatever the move counter; when it is false every push is refused |
| BlockEntity.Block.SetPushable | src/entities/Block.cpp:353-355 | only the push permission changes |
| BlockEntity.Block.IsPullable | src/entities/Block.cpp:361-363 | answers the pull permission, whatever the move counter; when it is false every pull is refused |
| BlockEntity.Block.SetPullable | src/entities/Block.cpp:370-372 | only the pull permission changes |
| BlockEntity.Block.GetMaximumMoves | src/entities/Block.cpp:383-385 | returns the initial counter (0..2), not the remaining one |
| BlockEntity.Block.SetMaximumMoves | src/entities/Block.cpp:395-402 | both the remaining and the initial counter become n; n outside 0..2 is a fatal error (precondition) |
| BlockLogic.EffectiveDirection | src/entities/Block.cpp:206-212 | a push moves the block in the hero's facing direction, a pull in the opposite one |
| BlockLogic.Started | src/entities/Block.cpp:223-229 | after acceptance a follow movement is attached whose offset puts the block exactly where it is relative to the hero; the sound flag is cleared; nothing else changes |
| BlockLogic.Stopped | src/entities/Block.cpp:292-307 | after letting go, no movement, cooldown now + MovingDelay, the last position equals the current one; the counter changes iff the block moved and had one move left, and then becomes 0; the invariant is kept |
| BlockLogic.PositionChanged | src/entities/Block.cpp:239-242 | the sound flag ends set iff it was set or a movement is attached; the log gains a push sound exactly when the flag goes from clear to set |
| BlockLogic.GroundBelowChanged | src/entities/Block.cpp:267-286 | the block is removed, with one sound logged, iff the ground swallows it (hole, lava, deep water); otherwise the state is unchanged; no push sound is logged |
| BlockLogic.ResetAt | src/entities/Block.cpp:328-339 | after reset the block is at its creation point, settled there, idle, with its initial counter; the cooldown is refreshed only if a movement was attached; the invariant is kept |
| BlockLogic.WithMaximumMoves | src/entities/Block.cpp:395-402 | re-arming sets both counters to n, which restores the invariant whatever the previous state |
| BlockLogic.CooldownAfterStop | src/entities/Block.cpp:214-221 | after a stop at date t, an attempt before t + MovingDelay is refused; one at or after it is accepted iff a move is left and the permission and direction gates pass |
| BlockLogic.DirectionGate | src/entities/Block.cpp:206-219 | with the other gates passing and a fixed direction, a push is accepted iff the hero faces that direction and a pull iff the hero faces the opposite one |
| BlockLogic.SingleMoveIsConsumed | src/entities/Block.cpp:298-305 | a one-move block that moved and is let go has 0 moves and refuses every attempt |
| BlockLogic.ResetRestores | src/entities/Block.cpp:328-339 | reset brings back the creation position and the initial counter; resetting again changes nothing; a stop right after a reset uses up no move |
| BlockLogic.RearmThenReset | src/entities/Block.cpp:395-402 | after re-arming with n, a reset restores n |
| BlockRuns.Step | src/entities/Block.cpp:203-402 | every single call keeps the counter invariant and the creation point |
| BlockRuns.Run | src/entities/Block.cpp:67-68 | the counter invariant holds after any sequence of calls, and the creation point is kept |
| BlockRuns.StepCounter | src/entities/Block.cpp:292-307 | a call other than a reset or re-arm keeps the counter or drops it from 1 to 0, and keeps an idle block with 0 moves idle with 0 moves |
| BlockRuns.CounterNeverRises | src/entities/Block.cpp:303-305 | without a reset or re-arm the counter stays as it was, or drops from 1 to 0 |
| BlockRuns.StepInitialCounter | src/entities/Block.cpp:383-402 | a call other than a re-arm keeps the initial counter |
| BlockRuns.InitialCounterKept | src/entities/Block.cpp:374-385 | without a re-arm the value reported by get_maximum_moves never changes, whatever the moves and resets |
| BlockRuns.StaysExhausted | src/entities/Block.cpp:214-215 | an idle block with 0 moves stays idle with 0 moves until reset or re-armed |
| BlockRuns.ExhaustedBlockNeverMoves | src/entities/Block.cpp:214-221 | an idle block with 0 moves refuses every push or pull attempted before a reset or re-arm |
| BlockRuns.SingleMoveExhausts | src/entities/Block.cpp:298-305 | a one-move block that moved and was let go refuses every later attempt until reset or re-armed |
| BlockRuns.StepPushSound | src/entities/Block.cpp:239-241 | any call other than a push or pull attempt logs a push sound exactly when it sets the sound flag |
| BlockRuns.PushSoundOnce | src/entities/Block.cpp:237-242 | between two attempts the push sound is logged at most once, and never if it was already played |
| BlockRuns.StepRemoval | src/entities/Block.cpp:267-286 | a call keeps a removed block removed, and removes a block only when it reports a hole, lava or deep water below it |
| BlockRuns.RemovalOnlyBySwallowingGround | src/entities/Block.cpp:267-286 | a removed block stays removed, and a block on the map is removed only by a hole, lava or deep water below it |

## Left out

- `MovingDelay` is given the engine's value of 500 ms. The constant is declared in `include/entities/Block.h`, which is not part of this model. The proofs assume nothing about its value.
- Dates are unbounded integers. The width and wrap-around of the engine's timestamps are declared outside `Block.cpp`.
- `is_obstacle_for` forwards to the other entity's `is_block_obstacle`, whose code is not part of this model.
- `notify_created`, `notify_collision`, `notify_collision_with_switch`, `notify_action_command_pressed` and `notify_obstacle_reached` only call collaborators (detectors, switches, the hero, the keys effect) whose code is not part of this model.
- `notify_moving_by`, `notify_moved_by` and the position notification in `notify_position_changed` are fire-and-forget script callbacks and are dropped.
- `check_collision_with_detectors` and `update_ground_below` in `notify_position_changed` are base-class code. The resulting ground change enters as an explicit `NotifyGroundBelowChanged` call.
- Sound playback is replaced by an append to a sound log.
- Sprite creation, `set_drawn_in_y_order`, the 16x16 size, the origin (8, 13), the layer, the name and `get_type` are not modelled, because no operation here depends on them.
- The allowed direction is stored as given, because `set_direction` is base-class code.
- The follow movement's trajectory is not modelled. Position changes enter as `SetXY` (class) or `MovedTo` (runs) with an arbitrary point.
- Removal from the map is a flag. The map's deferred removal, and the fact that a removed block gets no more calls, belong to the map.
- `include/entities/Stream.h` declares the stream entity without code, so there is no behaviour to model.
- `include/Types.h`, `src/lowlevel/Hq4xFilter.cpp` and the editor's Java files are declarations, an image filter wrapper and UI code outside the block logic.

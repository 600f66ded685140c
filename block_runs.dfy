/**
 * Runs of a block: the sequences of calls the engine and the scripts make on
 * one block over time, and what holds along any such run.
 */
module BlockRuns {
  import opened BlockLogic

  /** One call on the block. MovedTo stands for the engine moving the block
      (by its attached movement or otherwise) and then notifying it. */
  datatype Op =
    | StartByHero(hero: Hero, now: int)
    | StopByHero(now: int)
    | MovedTo(xy: Point)
    | GroundBelowChanged(ground: Ground)
    | Reset(now: int)
    | SetMaximumMoves(n: int)
    | SetPushable(pushable: bool)
    | SetPullable(pullable: bool)

  /** A call the block accepts: re-arming with a counter outside 0..2 is a
      fatal assertion failure. */
  predicate Admissible(op: Op) {
    op.SetMaximumMoves? ==> 0 <= op.n <= 2
  }

  predicate AllAdmissible(ops: seq<Op>) {
    forall i :: 0 <= i < |ops| ==> Admissible(ops[i])
  }

  /** A call that restores or overwrites the move counter. */
  predicate Rearms(op: Op) {
    op.Reset? || op.SetMaximumMoves?
  }

  predicate NoRearm(ops: seq<Op>) {
    forall i :: 0 <= i < |ops| ==> !Rearms(ops[i])
  }

  /** The effect of one call on the block's state. */
  function Step(s: BlockState, op: Op): (t: BlockState)
    requires Admissible(op)
    ensures s.Valid() ==> t.Valid()
    ensures t.initialPosition == s.initialPosition
  {
    match op
    case StartByHero(hero, now) => if MayStart(s, hero, now) then Started(s, hero) else s
    case StopByHero(now) => Stopped(s, now)
    case MovedTo(xy) => PositionChanged(s.(xy := xy))
    case GroundBelowChanged(ground) => BlockLogic.GroundBelowChanged(s, ground)
    case Reset(now) => ResetAt(s, now)
    case SetMaximumMoves(n) => WithMaximumMoves(s, n)
    case SetPushable(pushable) => s.(canBePushed := pushable)
    case SetPullable(pullable) => s.(canBePulled := pullable)
  }

  /** The state after the calls `ops`, in order, starting from `s`. */
  function Run(s: BlockState, ops: seq<Op>): (t: BlockState)
    requires AllAdmissible(ops)
    ensures s.Valid() ==> t.Valid()
    ensures t.initialPosition == s.initialPosition
    decreases |ops|
  {
    if ops == [] then s
    else
      var before := Run(s, ops[..|ops| - 1]);
      Step(before, ops[|ops| - 1])
  }

  /** One call that is not a reset or a re-arm keeps the move counter, or
      uses up a single move. */
  lemma StepCounter(s: BlockState, op: Op)
    requires Admissible(op) && !Rearms(op)
    ensures Step(s, op).maximumMoves == s.maximumMoves
         || (s.maximumMoves == 1 && Step(s, op).maximumMoves == 0)
    ensures s.maximumMoves == 0 && s.movement == NoMovement ==>
      Step(s, op).maximumMoves == 0 && Step(s, op).movement == NoMovement
  {
  }

  /** Without a reset or a re-arm, the move counter never rises: an unlimited
      block stays unlimited and a single-move block can only lose its move. */
  lemma {:induction false} CounterNeverRises(s: BlockState, ops: seq<Op>)
    requires AllAdmissible(ops) && NoRearm(ops)
    ensures Run(s, ops).maximumMoves == s.maximumMoves
         || (s.maximumMoves == 1 && Run(s, ops).maximumMoves == 0)
    decreases |ops|
  {
    if ops != [] {
      var prefix, last := ops[..|ops| - 1], ops[|ops| - 1];
      CounterNeverRises(s, prefix);
      StepCounter(Run(s, prefix), last);
    }
  }

  /** One call other than a re-arm keeps the counter a reset restores. */
  lemma StepInitialCounter(s: BlockState, op: Op)
    requires Admissible(op) && !op.SetMaximumMoves?
    ensures Step(s, op).initialMaximumMoves == s.initialMaximumMoves
  {
  }

  /** The value get_maximum_moves reports is changed only by re-arming,
      however the block is moved or reset. */
  lemma {:induction false} InitialCounterKept(s: BlockState, ops: seq<Op>)
    requires AllAdmissible(ops)
    requires forall i :: 0 <= i < |ops| ==> !ops[i].SetMaximumMoves?
    ensures Run(s, ops).initialMaximumMoves == s.initialMaximumMoves
    decreases |ops|
  {
    if ops != [] {
      var prefix, last := ops[..|ops| - 1], ops[|ops| - 1];
      InitialCounterKept(s, prefix);
      StepInitialCounter(Run(s, prefix), last);
    }
  }

  /** An idle block with no move left stays idle with no move left. */
  lemma {:induction false} StaysExhausted(s: BlockState, ops: seq<Op>)
    requires AllAdmissible(ops) && NoRearm(ops)
    requires s.maximumMoves == 0 && s.movement == NoMovement
    ensures Run(s, ops).maximumMoves == 0 && Run(s, ops).movement == NoMovement
    decreases |ops|
  {
    if ops != [] {
      var prefix, last := ops[..|ops| - 1], ops[|ops| - 1];
      StaysExhausted(s, prefix);
      StepCounter(Run(s, prefix), last);
    }
  }

  /** An idle block with no move left refuses every push or pull until it is
      reset or re-armed. */
  lemma ExhaustedBlockNeverMoves(s: BlockState, ops: seq<Op>)
    requires AllAdmissible(ops) && NoRearm(ops)
    requires s.maximumMoves == 0 && s.movement == NoMovement
    ensures forall i :: 0 <= i < |ops| && ops[i].StartByHero? ==>
      !MayStart(Run(s, ops[..i]), ops[i].hero, ops[i].now)
  {
    forall i | 0 <= i < |ops| && ops[i].StartByHero?
      ensures !MayStart(Run(s, ops[..i]), ops[i].hero, ops[i].now)
    {
      assert forall j :: 0 <= j < i ==> ops[..i][j] == ops[j];
      StaysExhausted(s, ops[..i]);
    }
  }

  /** A single-move block that was moved and let go refuses every later push
      or pull until it is reset or re-armed. */
  lemma SingleMoveExhausts(s: BlockState, now: int, ops: seq<Op>)
    requires AllAdmissible(ops) && NoRearm(ops)
    requires s.maximumMoves == 1 && s.xy != s.lastPosition
    ensures forall i :: 0 <= i < |ops| && ops[i].StartByHero? ==>
      !MayStart(Run(Stopped(s, now), ops[..i]), ops[i].hero, ops[i].now)
  {
    ExhaustedBlockNeverMoves(Stopped(s, now), ops);
  }

  /** One call other than a push or pull attempt plays the push sound exactly
      when it sets the sound flag. */
  lemma StepPushSound(s: BlockState, op: Op)
    requires Admissible(op) && !op.StartByHero?
    ensures PushSounds(Step(s, op).sounds) + (if s.soundPlayed then 1 else 0)
         == PushSounds(s.sounds) + (if Step(s, op).soundPlayed then 1 else 0)
  {
  }

  /** Between two push or pull attempts the push sound is played at most once:
      exactly once if it had not been played yet and the block was moved
      while a movement was attached, never if it had. */
  lemma {:induction false} PushSoundOnce(s: BlockState, ops: seq<Op>)
    requires AllAdmissible(ops)
    requires forall i :: 0 <= i < |ops| ==> !ops[i].StartByHero?
    ensures PushSounds(Run(s, ops).sounds) + (if s.soundPlayed then 1 else 0)
         == PushSounds(s.sounds) + (if Run(s, ops).soundPlayed then 1 else 0)
    ensures PushSounds(Run(s, ops).sounds) <= PushSounds(s.sounds) + 1
    ensures s.soundPlayed ==> PushSounds(Run(s, ops).sounds) == PushSounds(s.sounds)
    decreases |ops|
  {
    if ops != [] {
      var prefix, last := ops[..|ops| - 1], ops[|ops| - 1];
      PushSoundOnce(s, prefix);
      StepPushSound(Run(s, prefix), last);
      assert Run(s, ops) == Step(Run(s, prefix), last);
    }
  }

  /** One call keeps a removed block removed, and removes a block only when
      it reports a swallowing ground below it. */
  lemma StepRemoval(s: BlockState, op: Op)
    requires Admissible(op)
    ensures !s.onMap ==> !Step(s, op).onMap
    ensures s.onMap && !Step(s, op).onMap ==> op.GroundBelowChanged? && SwallowsBlock(op.ground)
  {
  }

  /** Once removed from the map the block is never back; and a block that was
      on the map is removed only by a hole, lava or deep water below it. */
  lemma {:induction false} RemovalOnlyBySwallowingGround(s: BlockState, ops: seq<Op>)
    requires AllAdmissible(ops)
    ensures !s.onMap ==> !Run(s, ops).onMap
    ensures s.onMap && !Run(s, ops).onMap ==>
      exists i :: 0 <= i < |ops| && ops[i].GroundBelowChanged? && SwallowsBlock(ops[i].ground)
    decreases |ops|
  {
    if ops != [] {
      var prefix, last := ops[..|ops| - 1], ops[|ops| - 1];
      RemovalOnlyBySwallowingGround(s, prefix);
      var before := Run(s, prefix);
      assert Run(s, ops) == Step(before, last);
      StepRemoval(before, last);
      if s.onMap && !Run(s, ops).onMap {
        if before.onMap {
          assert ops[|ops| - 1].GroundBelowChanged? && SwallowsBlock(ops[|ops| - 1].ground);
        } else {
          var i :| 0 <= i < |prefix| && prefix[i].GroundBelowChanged? && SwallowsBlock(prefix[i].ground);
          assert ops[i] == prefix[i];
        }
      }
    }
  }
}

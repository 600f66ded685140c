/**
 * The state of a pushable/pullable block as a value, and the transitions the
 * block's operations apply to it. The class in block.dfy is specified by these
 * functions; the lemmas here and in block_runs.dfy state what they promise.
 */
module BlockLogic {

  /** Cooldown, in milliseconds, before a block that was let go can move again.
      The proofs assume nothing about its value. */
  const MovingDelay: int := 500

  /** Value of the allowed-direction field meaning "any direction". */
  const AnyDirection: int := -1

  /** The four animation directions of the hero: 0 right, 1 up, 2 left, 3 down. */
  type Direction = d: int | 0 <= d < 4

  datatype Point = Point(x: int, y: int)

  /** The terrain kinds below an entity's origin point. */
  datatype Ground =
    | Empty | Traversable | Wall | LowWall
    | DeepWater | ShallowWater | Grass | Hole
    | Ice | Ladder | Prickle | Lava

  /** The sounds a block asks the audio system to play ("hero_pushes",
      "jump", "splash"). */
  datatype Sound = HeroPushes | Jump | Splash

  /** The movement attached to the block: none, or a movement that follows
      the hero at a fixed offset (dx, dy) from the hero's position. */
  datatype Movement = NoMovement | FollowHero(dx: int, dy: int)

  /** What the block reads from the hero when a push or pull starts. */
  datatype Hero = Hero(grabbingOrPulling: bool, animationDirection: Direction, xy: Point)

  /** Every field of a block that its operations read or write. */
  datatype BlockState = BlockState(
    maximumMoves: int,          // remaining moves: 0 none, 1 once, 2 unlimited
    initialMaximumMoves: int,   // the value given at construction or by SetMaximumMoves
    canBePushed: bool,
    canBePulled: bool,
    direction: int,             // the only direction it can be moved in, or AnyDirection
    whenCanMove: int,           // date before which it refuses to move
    xy: Point,
    lastPosition: Point,        // where it settled the last time it was let go
    initialPosition: Point,
    soundPlayed: bool,          // the push sound was played for the attached movement
    movement: Movement,
    onMap: bool,
    sounds: seq<Sound>)         // every sound the block has played, in order
  {
    /** The block's invariant: both move counters are 0, 1 or 2. */
    predicate Valid() {
      0 <= maximumMoves <= 2 && 0 <= initialMaximumMoves <= 2
    }
  }

  /** The number of push sounds in a log of sounds. */
  function PushSounds(log: seq<Sound>): nat {
    if log == [] then 0
    else PushSounds(log[..|log| - 1]) + (if log[|log| - 1] == HeroPushes then 1 else 0)
  }

  lemma PushSoundsAppend(log: seq<Sound>, s: Sound)
    ensures PushSounds(log + [s]) == PushSounds(log) + (if s == HeroPushes then 1 else 0)
  {
    assert (log + [s])[..|log|] == log;
  }

  /** The direction the block would move in: a pull moves it towards the hero,
      opposite to where the hero faces. */
  function EffectiveDirection(hero: Hero): (d: Direction)
    ensures hero.grabbingOrPulling ==> (d + 2) % 4 == hero.animationDirection
    ensures !hero.grabbingOrPulling ==> d == hero.animationDirection
  {
    if hero.grabbingOrPulling then (hero.animationDirection + 2) % 4
    else hero.animationDirection
  }

  /** The block lets itself be moved in the hero's effective direction. */
  predicate DirectionAllowed(s: BlockState, hero: Hero) {
    s.direction == AnyDirection || EffectiveDirection(hero) == s.direction
  }

  /** The block accepts the kind of interaction the hero attempts. */
  predicate InteractionAllowed(s: BlockState, hero: Hero) {
    if hero.grabbingOrPulling then s.canBePulled else s.canBePushed
  }

  /** The six gates of a push or pull attempt, all of which must pass. */
  predicate MayStart(s: BlockState, hero: Hero, now: int) {
    && s.movement == NoMovement
    && s.maximumMoves != 0
    && !(now < s.whenCanMove)
    && InteractionAllowed(s, hero)
    && DirectionAllowed(s, hero)
  }

  /** The state after an accepted push or pull: the block follows the hero at
      the offset it has from the hero now, and the push sound is re-armed. */
  function Started(s: BlockState, hero: Hero): (t: BlockState)
    ensures t.movement.FollowHero?
    ensures t.xy == Point(hero.xy.x + t.movement.dx, hero.xy.y + t.movement.dy)
    ensures !t.soundPlayed
    ensures t == s.(movement := t.movement, soundPlayed := false)
  {
    s.(movement := FollowHero(s.xy.x - hero.xy.x, s.xy.y - hero.xy.y), soundPlayed := false)
  }

  /** The state after the hero lets go of the block at date `now`. */
  function Stopped(s: BlockState, now: int): (t: BlockState)
    ensures t.movement == NoMovement && t.whenCanMove == now + MovingDelay
    ensures t.lastPosition == t.xy
    ensures t.maximumMoves != s.maximumMoves <==> s.xy != s.lastPosition && s.maximumMoves == 1
    ensures t.maximumMoves != s.maximumMoves ==> t.maximumMoves == 0
    ensures t == s.(movement := NoMovement, whenCanMove := t.whenCanMove,
                    lastPosition := t.lastPosition, maximumMoves := t.maximumMoves)
    ensures s.Valid() ==> t.Valid()
  {
    var moved := s.xy != s.lastPosition;
    s.(movement := NoMovement,
       whenCanMove := now + MovingDelay,
       lastPosition := if moved then s.xy else s.lastPosition,
       maximumMoves := if moved && s.maximumMoves == 1 then 0 else s.maximumMoves)
  }

  /** The state after the block is told that its position changed: the push
      sound is played once per attached movement. */
  function PositionChanged(s: BlockState): (t: BlockState)
    ensures t.soundPlayed <==> s.soundPlayed || s.movement.FollowHero?
    ensures PushSounds(t.sounds) == PushSounds(s.sounds) + (if t.soundPlayed && !s.soundPlayed then 1 else 0)
    ensures t == s.(soundPlayed := t.soundPlayed, sounds := t.sounds)
  {
    if s.movement != NoMovement && !s.soundPlayed then
      PushSoundsAppend(s.sounds, HeroPushes);
      s.(soundPlayed := true, sounds := s.sounds + [HeroPushes])
    else s
  }

  /** The grounds a block falls, sinks or drowns into. */
  predicate SwallowsBlock(ground: Ground) {
    ground == Hole || ground == Lava || ground == DeepWater
  }

  /** The state after the ground below the block changed to `ground`. */
  function GroundBelowChanged(s: BlockState, ground: Ground): (t: BlockState)
    ensures !SwallowsBlock(ground) ==> t == s
    ensures SwallowsBlock(ground) ==> !t.onMap && |t.sounds| == |s.sounds| + 1
    ensures SwallowsBlock(ground) ==> t == s.(onMap := false, sounds := t.sounds)
    ensures PushSounds(t.sounds) == PushSounds(s.sounds)
  {
    match ground
    case Hole =>
      PushSoundsAppend(s.sounds, Jump);
      s.(onMap := false, sounds := s.sounds + [Jump])
    case Lava | DeepWater =>
      PushSoundsAppend(s.sounds, Splash);
      s.(onMap := false, sounds := s.sounds + [Splash])
    case _ => s
  }

  /** The state after a reset at date `now`. */
  function ResetAt(s: BlockState, now: int): (t: BlockState)
    ensures t.xy == t.initialPosition && t.lastPosition == t.initialPosition
    ensures t.maximumMoves == t.initialMaximumMoves && t.movement == NoMovement
    ensures t.whenCanMove == if s.movement.FollowHero? then now + MovingDelay else s.whenCanMove
    ensures t == s.(xy := t.xy, lastPosition := t.lastPosition, maximumMoves := t.maximumMoves,
                    movement := NoMovement, whenCanMove := t.whenCanMove)
    ensures s.Valid() ==> t.Valid()
  {
    var wasMoving := s.movement != NoMovement;
    s.(movement := NoMovement,
       whenCanMove := if wasMoving then now + MovingDelay else s.whenCanMove,
       xy := s.initialPosition,
       lastPosition := s.initialPosition,
       maximumMoves := s.initialMaximumMoves)
  }

  /** The state after the move counters are re-armed to `n`. */
  function WithMaximumMoves(s: BlockState, n: int): (t: BlockState)
    requires 0 <= n <= 2
    ensures t.Valid()
    ensures t.maximumMoves == n && t.initialMaximumMoves == n
    ensures t == s.(maximumMoves := n, initialMaximumMoves := n)
  {
    s.(maximumMoves := n, initialMaximumMoves := n)
  }

  /** Letting go of the block closes it for MovingDelay: an attempt before
      that is refused, and one from then on is accepted exactly when the other
      gates pass. */
  lemma CooldownAfterStop(s: BlockState, hero: Hero, now: int, later: int)
    ensures later < now + MovingDelay ==> !MayStart(Stopped(s, now), hero, later)
    ensures later >= now + MovingDelay ==>
      (MayStart(Stopped(s, now), hero, later) <==>
         Stopped(s, now).maximumMoves != 0 && InteractionAllowed(s, hero) && DirectionAllowed(s, hero))
  {
  }

  /** When every other gate passes, a block with a fixed direction accepts
      exactly the pushes in that direction and the pulls in the opposite one. */
  lemma DirectionGate(s: BlockState, hero: Hero, now: int)
    requires s.movement == NoMovement && s.maximumMoves != 0 && now >= s.whenCanMove
    requires InteractionAllowed(s, hero)
    requires 0 <= s.direction < 4
    ensures !hero.grabbingOrPulling ==> (MayStart(s, hero, now) <==> hero.animationDirection == s.direction)
    ensures hero.grabbingOrPulling ==> (MayStart(s, hero, now) <==> (s.direction + 2) % 4 == hero.animationDirection)
  {
    if hero.grabbingOrPulling {
      var d: int := EffectiveDirection(hero);
      assert (d + 2) % 4 == hero.animationDirection;
    }
  }

  /** A block that has been moved and let go once with a single move left
      refuses every later attempt until it is re-armed. */
  lemma SingleMoveIsConsumed(s: BlockState, now: int, hero: Hero, later: int)
    requires s.maximumMoves == 1 && s.xy != s.lastPosition
    ensures Stopped(s, now).maximumMoves == 0
    ensures !MayStart(Stopped(s, now), hero, later)
  {
  }

  /** Reset brings back the constructed position and counter, and re-arms
      a block whose single move was used up. */
  lemma ResetRestores(s: BlockState, now: int, later: int)
    ensures ResetAt(s, now).xy == s.initialPosition
    ensures ResetAt(s, now).maximumMoves == s.initialMaximumMoves
    ensures ResetAt(ResetAt(s, now), later) == ResetAt(s, now)
    ensures Stopped(ResetAt(s, now), later).maximumMoves == s.initialMaximumMoves
  {
  }

  /** Re-arming overwrites what reset restores, unlike a plain reset which
      brings back whatever was last set. */
  lemma RearmThenReset(s: BlockState, n: int, now: int)
    requires 0 <= n <= 2
    ensures ResetAt(WithMaximumMoves(s, n), now).maximumMoves == n
  {
  }
}

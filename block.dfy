/**
 * A block: a map entity the hero can push or pull, a limited number of times,
 * in one direction or any, with a cooldown between two moves. The fields are
 * updated in place by the methods; each method's new state is tied to a
 * transition of module BlockLogic or to a single-field update.
 */
module BlockEntity {
  import opened BlockLogic

  class Block {
    var maximumMoves: int
    var initialMaximumMoves: int
    var canBePushed: bool
    var canBePulled: bool
    var direction: int
    var whenCanMove: int
    var xy: Point
    var lastPosition: Point
    const initialPosition: Point
    var soundPlayed: bool
    var movement: Movement
    var onMap: bool
    ghost var sounds: seq<Sound>

    ghost predicate Valid()
      reads this
    {
      0 <= maximumMoves <= 2 && 0 <= initialMaximumMoves <= 2
    }

    /** The block's fields as a value. */
    ghost function State(): (s: BlockState)
      reads this
      ensures s.Valid() == Valid()
    {
      BlockState(maximumMoves, initialMaximumMoves, canBePushed, canBePulled,
                 direction, whenCanMove, xy, lastPosition, initialPosition,
                 soundPlayed, movement, onMap, sounds)
    }

    /** A block at (x, y), idle and settled there, movable from date `now` on.
        A move counter outside 0..2 is a fatal assertion failure. */
    constructor (x: int, y: int, direction: int, canBePushed: bool, canBePulled: bool,
                 maximumMoves: int, now: int)
      requires 0 <= maximumMoves <= 2
      ensures Valid()
      ensures this.maximumMoves == maximumMoves && this.initialMaximumMoves == maximumMoves
      ensures this.canBePushed == canBePushed && this.canBePulled == canBePulled
      ensures this.direction == direction && whenCanMove == now
      ensures xy == Point(x, y) && lastPosition == xy && initialPosition == xy
      ensures !soundPlayed && movement == NoMovement && onMap && sounds == []
    {
      this.maximumMoves := maximumMoves;
      this.initialMaximumMoves := maximumMoves;
      this.canBePushed := canBePushed;
      this.canBePulled := canBePulled;
      this.direction := direction;
      whenCanMove := now;
      xy := Point(x, y);
      lastPosition := Point(x, y);
      initialPosition := Point(x, y);
      soundPlayed := false;
      movement := NoMovement;
      onMap := true;
      sounds := [];
    }

    /** Blocks react to the ground below them. */
    function IsGroundObserver(): (r: bool)
      ensures r
    {
      true
    }

    /** A hole never stops a block, so that it can be pushed into one. */
    function IsHoleObstacle(): (r: bool)
      ensures !r
    {
      false
    }

    /** A teletransporter never stops a block, so that it can be pushed into
        a hole that has one. */
    function IsTeletransporterObstacle(): (r: bool)
      ensures !r
    {
      false
    }

    /** The hero can walk into the block exactly while it is being moved; a
        block the hero cannot walk into is one no push or pull can start on. */
    function IsHeroObstacle(): (r: bool)
      reads this
      ensures r <==> movement == NoMovement
      ensures !r ==> forall hero, now :: !MayStart(State(), hero, now)
    {
      movement == NoMovement
    }

    /** Enemies are always stopped by a block. */
    function IsEnemyObstacle(): (r: bool)
      ensures r
    {
      true
    }

    /** Destructible items are always stopped by a block. */
    function IsDestructibleObstacle(): (r: bool)
      ensures r
    {
      true
    }

    /** The hero tries to push or pull the block at date `now`. */
    method StartMovementByHero(hero: Hero, now: int) returns (accepted: bool)
      requires Valid()
      modifies this
      ensures Valid()
      ensures accepted == MayStart(old(State()), hero, now)
      ensures State() == if accepted then Started(old(State()), hero) else old(State())
    {
      var pulling := hero.grabbingOrPulling;
      var allowedDirection := direction;
      var heroDirection: int := hero.animationDirection;
      if pulling {
        heroDirection := (heroDirection + 2) % 4;
      }
      if || movement != NoMovement
         || maximumMoves == 0
         || now < whenCanMove
         || (pulling && !canBePulled)
         || (!pulling && !canBePushed)
         || (allowedDirection != AnyDirection && heroDirection != allowedDirection)
      {
        return false;
      }
      var dx := xy.x - hero.xy.x;
      var dy := xy.y - hero.xy.y;
      movement := FollowHero(dx, dy);
      soundPlayed := false;
      return true;
    }

    /** The block has just moved: the first move under an attached movement
        plays the push sound. */
    method NotifyPositionChanged()
      modifies this
      ensures State() == PositionChanged(old(State()))
    {
      if movement != NoMovement && !soundPlayed {
        sounds := sounds + [HeroPushes];
        soundPlayed := true;
      }
    }

    /** The ground below the block changed: a hole, lava or deep water
        removes it from the map. */
    method NotifyGroundBelowChanged(ground: Ground)
      modifies this
      ensures State() == BlockLogic.GroundBelowChanged(old(State()), ground)
    {
      match ground {
        case Hole =>
          sounds := sounds + [Jump];
          onMap := false;
        case Lava | DeepWater =>
          sounds := sounds + [Splash];
          onMap := false;
        case _ =>
      }
    }

    /** The hero lets go of the block at date `now`. */
    method StopMovementByHero(now: int)
      requires Valid()
      modifies this
      ensures Valid()
      ensures State() == Stopped(old(State()), now)
    {
      movement := NoMovement;
      whenCanMove := now + MovingDelay;
      if xy.x != lastPosition.x || xy.y != lastPosition.y {
        lastPosition := xy;
        if maximumMoves == 1 {
          maximumMoves := 0;
        }
      }
    }

    /** Puts the block back where and as it was created (or last re-armed). */
    method Reset(now: int)
      requires Valid()
      modifies this
      ensures Valid()
      ensures State() == ResetAt(old(State()), now)
    {
      if movement != NoMovement {
        movement := NoMovement;
        whenCanMove := now + MovingDelay;
      }
      xy := initialPosition;
      lastPosition := initialPosition;
      maximumMoves := initialMaximumMoves;
    }

    /** Moves the block to `p`, as its attached movement or a script does,
        without notifying it. */
    method SetXY(p: Point)
      modifies this
      ensures State() == old(State()).(xy := p)
    {
      xy := p;
    }

    /** Whether the hero may push the block, independently of the moves left;
        a block that cannot be pushed refuses every push. */
    function IsPushable(): (r: bool)
      reads this
      ensures r == State().canBePushed
      ensures !r ==> forall hero: Hero, now: int :: !hero.grabbingOrPulling ==> !MayStart(State(), hero, now)
    {
      canBePushed
    }

    method SetPushable(pushable: bool)
      modifies this
      ensures State() == old(State()).(canBePushed := pushable)
    {
      canBePushed := pushable;
    }

    /** Whether the hero may pull the block, independently of the moves left;
        a block that cannot be pulled refuses every pull. */
    function IsPullable(): (r: bool)
      reads this
      ensures r == State().canBePulled
      ensures !r ==> forall hero: Hero, now: int :: hero.grabbingOrPulling ==> !MayStart(State(), hero, now)
    {
      canBePulled
    }

    method SetPullable(pullable: bool)
      modifies this
      ensures State() == old(State()).(canBePulled := pullable)
    {
      canBePulled := pullable;
    }

    /** The move counter given at construction or by the last re-arm, however
        many moves the block has used since. */
    function GetMaximumMoves(): (r: int)
      reads this
      requires Valid()
      ensures 0 <= r <= 2
      ensures r == State().initialMaximumMoves
    {
      initialMaximumMoves
    }

    /** Re-arms the block with `n` moves: both the remaining and the restored
        counter become `n`. A counter outside 0..2 is a fatal assertion failure. */
    method SetMaximumMoves(n: int)
      requires 0 <= n <= 2
      modifies this
      ensures Valid()
      ensures State() == WithMaximumMoves(old(State()), n)
    {
      initialMaximumMoves := n;
      maximumMoves := n;
    }
  }

  /** A block created at (10, 20) with one move, pushed to (26, 20) and let
      go, then reset: it is back at (10, 20) with its move restored, and in
      between it refused a second push. */
  method ResetScenario(now: int)
  {
    var block := new Block(10, 20, AnyDirection, true, false, 1, now);
    var hero := Hero(false, 0, Point(-6, 20));
    var accepted := block.StartMovementByHero(hero, now);
    assert accepted;
    block.SetXY(Point(26, 20));
    block.NotifyPositionChanged();
    assert block.sounds == [HeroPushes];
    block.StopMovementByHero(now + 100);
    assert block.maximumMoves == 0;
    accepted := block.StartMovementByHero(hero, now + 100 + MovingDelay);
    assert !accepted;
    block.Reset(now + 200);
    assert block.xy == Point(10, 20) && block.maximumMoves == 1;
    accepted := block.StartMovementByHero(hero, now + 100 + MovingDelay);
    assert accepted;
  }
}

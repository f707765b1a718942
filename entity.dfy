/**
 * The moving-object base of entity.py and the capped gravity step that every
 * falling object of the game (entities with MAX_ACCELERATION, items with their
 * own smaller cap) applies once per frame.
 */
module Entities {
  import opened Settings
  import opened Sprites
  import opened Animations

  /** One gravity step: add GRAVITY, then clamp to `cap`.  The result is the
      smaller of the two candidates. */
  function Fall(vy: int, cap: int): (r: int)
    ensures r <= cap && r <= vy + GRAVITY
    ensures r == cap || r == vy + GRAVITY
  {
    var v := vy + GRAVITY;
    if v > cap then cap else v
  }

  /** `n` consecutive gravity steps. */
  function Falls(vy: int, cap: int, n: nat): int
    decreases n
  {
    if n == 0 then vy else Fall(Falls(vy, cap, n - 1), cap)
  }

  /** Starting at or below the cap, the speed grows by GRAVITY per frame until
      it reaches the cap and then stays there. */
  lemma {:induction false} FallsClosedForm(vy: int, cap: int, n: nat)
    requires vy <= cap
    ensures Falls(vy, cap, n) == if vy + n * GRAVITY < cap then vy + n * GRAVITY else cap
    decreases n
  {
    if n > 0 {
      FallsClosedForm(vy, cap, n - 1);
    }
  }

  /** The value given to the `dead` setter: a boolean, or anything else. */
  datatype Arg = BoolArg(value: bool) | OtherArg

  /** The base entity: a rectangle with a facing direction (0 left, 1 right),
      a dead flag, a velocity, a speed and its own animation. */
  class Entity {
    var box: Sprite
    var direction: int
    var dead: bool
    var vx: int
    var vy: int
    var speed: int
    const animation: Animation

    ghost predicate Valid()
      reads this, animation
    {
      animation.owner == this && animation.Valid()
    }

    /** A new entity faces left, is alive and is still, with an empty
        animation started at frame `tick`. */
    constructor (x: int, y: int, width: int, height: int, tick: int)
      ensures Valid() && fresh(animation)
      ensures box == Sprite(x, y, width, height)
      ensures direction == 0 && !dead && vx == 0 && vy == 0 && speed == 0
      ensures animation.State() == AnimState([], 0, tick, 0, false)
    {
      box := Sprite(x, y, width, height);
      direction := 0;
      dead := false;
      vx := 0;
      vy := 0;
      speed := 0;
      animation := new Animation([], 0, tick);
      new;
      animation.owner := this;
    }

    /** `hit`: the entity dies; hitting a dead entity keeps it dead. */
    method Hit()
      modifies this
      ensures dead
      ensures box == old(box) && direction == old(direction)
      ensures vx == old(vx) && vy == old(vy) && speed == old(speed)
    {
      dead := true;
    }

    /** The `dead` setter: only a boolean argument is stored; any other value
        leaves the entity as it was. */
    method SetDead(arg: Arg)
      modifies this
      ensures dead == (if arg.BoolArg? then arg.value else old(dead))
      ensures box == old(box) && direction == old(direction)
      ensures vx == old(vx) && vy == old(vy) && speed == old(speed)
    {
      if arg.BoolArg? {
        dead := arg.value;
      }
    }
  }
}

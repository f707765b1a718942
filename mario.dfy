/**
 * The player (mario.py).  Mario is an object whose fields every frame
 * updates in place, so he is the class `Mario`; each of his methods is proved
 * against a function on the value `MarioState`, and the rules of the game
 * (the size state machine, the score bookkeeping, the flag-pole bonus) are
 * lemmas and contracts about those functions.
 *
 * The lists Mario's update works on (tiles, enemies, items) are changed in
 * place; what he appends to the caller's item and particle lists is returned
 * as the sequences of new objects.  `World` is the value picture of those
 * lists: the update functions take a world and give back the changed one,
 * with the new items and particles appended.
 */
module Players {
  import opened Settings
  import opened Outcomes
  import opened Sprites
  import opened Animations
  import opened Entities
  import opened LevelTiles
  import opened Items
  import opened Particles
  import opened Enemies
  import opened Seqs

  /** Horizontal walking speed. */
  const MARIO_SPEED: int := 4
  /** Upward speed a jump takes away from vy. */
  const JUMP_FORCE: int := 12
  /** Frames Mario stays invulnerable after shrinking (FPS * 2). */
  const INVULNERABLE_TIME: int := FPS * 2
  /** vy after a stomp: -jump_force / 1.2, which is exactly -10. */
  const STOMP_VY: int := -10
  /** vy of the death jump. */
  const DEATH_VY: int := -15
  const STOMP_POINTS: int := 100
  const COIN_POINTS: int := 100
  const MUSHROOM_POINTS: int := 1000

  /** The flag-pole descent: Mario slides 2 pixels per frame while his feet
      are above y = 128 + 32. */
  const POLE_BASE: int := 128
  const POLE_SLIDE: int := 2
  /** Past this x, walking to the castle, Mario stands on the ground row. */
  const POLE_PASSED_X: int := WORLD_WIDTH - TILE_SIZE * 21
  const CASTLE_GROUND: int := TILE_SIZE * 11
  /** At this x Mario is inside the castle. */
  const CASTLE_DOOR_X: int := WORLD_WIDTH - TILE_SIZE * 8

  /** Hold delays: FPS / 6 for most actions, FPS / 15 for growing, FPS for
      the death pose. */
  const ACTION_DELAY: int := FPS / 6
  const GROW_DELAY: int := FPS / 15
  const DEATH_DELAY: int := FPS

  const DEAD_IMAGE: Image := Image(96, 40, 16, 16, 1)
  const SMALL_STAND: Image := Image(0, 40, 16, 16, 1)
  const SMALL_WALK: seq<Image> := [Image(16, 40, 16, 16, 1), Image(32, 40, 16, 16, 1), Image(48, 40, 16, 16, 1)]
  const SMALL_JUMP: Image := Image(80, 40, 16, 16, 1)
  const SMALL_TURN: Image := Image(64, 40, 16, 16, 1)
  const SMALL_GRAB: seq<Image> := [Image(112, 40, 16, 16, 1), Image(128, 40, 16, 16, 1)]
  const GROW_FRAMES: seq<Image> :=
    [Image(0, 88, 16, 32, 1), Image(16, 88, 16, 32, 1), Image(32, 88, 16, 32, 1), Image(48, 88, 16, 32, 1),
     Image(64, 88, 16, 32, 1), Image(80, 88, 16, 32, 1), Image(96, 88, 16, 32, 1), Image(112, 88, 16, 32, 1),
     Image(128, 88, 16, 32, 1), Image(144, 88, 16, 32, 1)]
  const BIG_STAND: Image := Image(0, 56, 16, 32, 1)
  const BIG_JUMP: Image := Image(80, 56, 16, 32, 1)
  const BIG_WALK: seq<Image> := [Image(16, 56, 16, 32, 1), Image(32, 56, 16, 32, 1), Image(48, 56, 16, 32, 1)]
  const BIG_TURN: Image := Image(64, 56, 16, 32, 1)
  const BIG_CROUCH: Image := Image(96, 56, 16, 32, 1)
  const BIG_GRAB: seq<Image> := [Image(112, 56, 16, 32, 1), Image(128, 56, 16, 32, 1)]

  /** The action names of `change_action`; `Other` is any other string, which
      the source stores and then rejects. */
  datatype Action = Stand | Walk | Turn | Jump | Grow | Crouch | Grab | Death | Other(name: string)

  const ACTION_NAMES: set<string> := {"stand", "walk", "turn", "jump", "grow", "crouch", "grab", "death"}

  /** The action a name stands for. */
  function ActionNamed(name: string): Action
  {
    if name == "stand" then Stand
    else if name == "walk" then Walk
    else if name == "turn" then Turn
    else if name == "jump" then Jump
    else if name == "grow" then Grow
    else if name == "crouch" then Crouch
    else if name == "grab" then Grab
    else if name == "death" then Death
    else Other(name)
  }

  /** The `action` property: the name of the stored action. */
  function NameOf(a: Action): string
  {
    match a
    case Stand => "stand"
    case Walk => "walk"
    case Turn => "turn"
    case Jump => "jump"
    case Grow => "grow"
    case Crouch => "crouch"
    case Grab => "grab"
    case Death => "death"
    case Other(name) => name
  }

  /** The `action` property reports the name last passed to `change_action`,
      accepted or not, and exactly the eight names are accepted. */
  lemma ActionNames(name: string)
    ensures NameOf(ActionNamed(name)) == name
    ensures !ActionNamed(name).Other? <==> name in ACTION_NAMES
  {
  }

  /** Every accepted action is named by its own name. */
  lemma KnownActionNames(a: Action)
    requires !a.Other?
    ensures ActionNamed(NameOf(a)) == a
    ensures NameOf(a) in ACTION_NAMES
  {
  }

  /** The hold delay and frame list `change_action` gives an action. */
  datatype Look = Look(delay: int, frames: seq<Image>)

  /** The look of each action (big or small where the source asks), or None
      for a name it rejects. */
  function ActionLook(a: Action, big: bool): (r: Option<Look>)
    ensures r.None? <==> a.Other?
    ensures r.Some? ==> |r.value.frames| > 0 && r.value.delay >= 0
  {
    match a
    case Stand => Some(Look(ACTION_DELAY, [if big then BIG_STAND else SMALL_STAND]))
    case Walk => Some(Look(ACTION_DELAY, if big then BIG_WALK else SMALL_WALK))
    case Turn => Some(Look(ACTION_DELAY, [if big then BIG_TURN else SMALL_TURN]))
    case Jump => Some(Look(ACTION_DELAY, [if big then BIG_JUMP else SMALL_JUMP]))
    case Grow => Some(Look(GROW_DELAY, GROW_FRAMES))
    case Crouch => Some(Look(ACTION_DELAY, [BIG_CROUCH]))
    case Grab => Some(Look(ACTION_DELAY, if big then BIG_GRAB else SMALL_GRAB))
    case Death => Some(Look(DEATH_DELAY, [DEAD_IMAGE, DEAD_IMAGE, DEAD_IMAGE]))
    case Other(_) => None
  }

  /** A snapshot of Mario. */
  datatype MarioState = MarioState(
    box: Sprite, direction: int, dead: bool, vx: int, vy: int,
    canJump: bool, score: int, coins: int, big: bool,
    invulnerable: bool, invulnerableCount: int, action: Action,
    finishingOnPole: bool, finishingInsideCastle: bool,
    landingFlagPoleY: int, landingScoreAdded: bool, anim: AnimState)

  /** `Mario(x, y)` created at frame `tick`: small, standing, facing left. */
  function MarioStart(x: int, y: int, tick: int): (m: MarioState)
    ensures m.box == Sprite(x, y, 16, 16) && m.direction == 0 && !m.dead && m.vx == 0 && m.vy == 0
    ensures !m.big && !m.invulnerable && !m.canJump && m.score == 0 && m.coins == 0 && m.action == Stand
    ensures !m.finishingOnPole && !m.finishingInsideCastle && !m.landingScoreAdded
    ensures m.anim == AnimState([SMALL_STAND], 0, tick, ACTION_DELAY, false)
  {
    MarioState(Sprite(x, y, 16, 16), 0, false, 0, 0, false, 0, 0, false, false, 0, Stand,
               false, false, 0, false, AnimState([SMALL_STAND], 0, tick, ACTION_DELAY, false))
  }

  /** `change_action(a)` at frame `tick`: the action is stored first; an
      accepted one then sets the delay and restarts the animation on its
      frames, a rejected one changes nothing else. */
  function Acted(m: MarioState, a: Action, tick: int): (r: MarioState)
    ensures r.action == a
    ensures r.(action := m.action, anim := m.anim) == m
    ensures a.Other? ==> r.anim == m.anim
    ensures !a.Other? ==> r.anim.CursorInRange() && r.anim.current == 0 && r.anim.startTime == tick && !r.anim.playedOnce
  {
    match ActionLook(a, m.big)
    case None => m.(action := a)
    case Some(look) => m.(action := a, anim := WithFrames(WithDelay(m.anim, look.delay), look.frames, tick))
  }

  /** What `change_action` reports: ValueError for a name it does not know. */
  function ActionChecked(a: Action): (r: Result<Action>)
    ensures r.Ok? <==> !a.Other?
    ensures r.Ok? ==> r.value == a
  {
    if a.Other? then Err(ValueError("Action " + a.name + " is not valid")) else Ok(a)
  }

  /** As written, `change_action` stores a name it then rejects: the call
      reports ValueError, yet Mario's action has become that name and his
      animation is left as it was. */
  lemma RejectedActionStored(m: MarioState, name: string, tick: int)
    requires name !in ACTION_NAMES
    ensures ActionChecked(ActionNamed(name)).Err?
    ensures Acted(m, ActionNamed(name), tick).action == Other(name)
    ensures Acted(m, ActionNamed(name), tick).anim == m.anim
  {
    ActionNames(name);
    assert ActionNamed(name) == Other(name);
  }

  /** `change_action` with its check made before the assignment, as evidently
      intended: a rejected name reports ValueError and leaves Mario as he
      was; an accepted one changes the action and the look. */
  function ActedChecked(m: MarioState, a: Action, tick: int): (r: (MarioState, Result<Action>))
    ensures r.1 == ActionChecked(a)
    ensures r.1.Err? ==> r.0 == m
    ensures r.1.Ok? ==> r.0.action == a && r.0.(action := m.action, anim := m.anim) == m
  {
    if a.Other? then (m, ActionChecked(a)) else (Acted(m, a, tick), Ok(a))
  }

  /** Both agree wherever the call is accepted, which is every call Mario
      makes himself: only a rejected name tells them apart. */
  lemma ActedCheckedAgrees(m: MarioState, a: Action, tick: int)
    ensures ActedChecked(m, a, tick).1.Ok? <==> !a.Other?
    ensures !a.Other? ==> ActedChecked(m, a, tick).0 == Acted(m, a, tick)
    ensures a.Other? ==> ActedChecked(m, a, tick).0 == m && Acted(m, a, tick) == m.(action := a)
  {
  }

  /** `die`: dead, jumping up at 15 pixels per frame, in the death pose. */
  function Died(m: MarioState, tick: int): MarioState
  {
    Acted(m.(dead := true, vy := DEATH_VY), Death, tick)
  }

  /** `__grow`: only a small Mario grows, upwards, to 32 pixels. */
  function Grown(m: MarioState, tick: int): MarioState
  {
    if m.big then m
    else Acted(m.(big := true, box := m.box.(y := m.box.y - 16, height := 32)), Grow, tick)
  }

  /** `hit`: no effect while invulnerable; a big Mario shrinks (keeping his
      feet where they were) and turns invulnerable; a small one dies. */
  function Hurt(m: MarioState, tick: int): MarioState
  {
    if m.invulnerable then m
    else if m.big then
      Acted(m.(invulnerable := true, big := false, box := m.box.(y := m.box.y + 16, height := 16)), Stand, tick)
    else Died(m, tick)
  }

  /** The score part of `increase_score(points)`. */
  function Scored(m: MarioState, points: int): (r: MarioState)
    ensures r.score == m.score + points && r.(score := m.score) == m
  {
    m.(score := m.score + points)
  }

  /** The counter part of `add_coin`. */
  function Coined(m: MarioState): (r: MarioState)
    ensures r.coins == m.coins + 1 && r.(coins := m.coins) == m
  {
    m.(coins := m.coins + 1)
  }

  /** The total of the points shown by the score texts among `ps`. */
  function Points(ps: seq<ParticleState>): int
    decreases |ps|
  {
    if ps == [] then 0
    else Points(ps[..|ps| - 1]) + (if ps[|ps| - 1].kind == ScoreText then ps[|ps| - 1].score else 0)
  }

  /** The number of coins among `ps`. */
  function CoinCount(ps: seq<ParticleState>): nat
    decreases |ps|
  {
    if ps == [] then 0
    else CoinCount(ps[..|ps| - 1]) + (if ps[|ps| - 1].kind == CoinParticle then 1 else 0)
  }

  lemma {:induction false} BooksAppend(a: seq<ParticleState>, b: seq<ParticleState>)
    ensures Points(a + b) == Points(a) + Points(b)
    ensures CoinCount(a + b) == CoinCount(a) + CoinCount(b)
    decreases |b|
  {
    if b == [] {
      assert a + b == a;
    } else {
      var n := |b| - 1;
      assert (a + b)[..|a + b| - 1] == a + b[..n];
      assert (a + b)[|a + b| - 1] == b[n];
      BooksAppend(a, b[..n]);
    }
  }

  /** A lone score text books its points and no coin. */
  lemma TextBooks(p: ParticleState)
    requires p.kind == ScoreText
    ensures Points([p]) == p.score && CoinCount([p]) == 0
  {
    assert [p][..0] == [];
  }

  /** Mario's score rose by exactly the points of the score texts he
      appended, and his coin count by exactly the number of coins. */
  ghost predicate Booked(m: MarioState, r: MarioState, spawned: seq<ParticleState>)
  {
    r.score == m.score + Points(spawned) && r.coins == m.coins + CoinCount(spawned)
  }

  /** The lists Mario's update reads and appends to, as values. */
  datatype World = World(tiles: seq<TileState>, enemies: seq<EnemyState>, items: seq<ItemState>, particles: seq<ParticleState>)

  /** The input snapshot of a frame: the arrows, the jump key and B.
      `jump` stands for `KEY_UP or KEY_SPACE` (mario.py:146). */
  datatype Keys = Keys(left: bool, right: bool, jump: bool, down: bool, b: bool)

  /** `__apply_gravity`. */
  function Gravity(m: MarioState): (r: MarioState)
    ensures r.vy <= MAX_ACCELERATION && r.(vy := m.vy) == m
  {
    m.(vy := Fall(m.vy, MAX_ACCELERATION))
  }

  /** The invulnerability clock of one normal frame. */
  function Countdown(m: MarioState): (r: MarioState)
    ensures r.score == m.score && r.coins == m.coins
  {
    if !m.invulnerable then m
    else if m.invulnerableCount + 1 >= INVULNERABLE_TIME then m.(invulnerable := false, invulnerableCount := 0)
    else m.(invulnerableCount := m.invulnerableCount + 1)
  }

  /** `n` frames of the clock. */
  function Countdowns(m: MarioState, n: nat): MarioState
    decreases n
  {
    if n == 0 then m else Countdown(Countdowns(m, n - 1))
  }

  /** From a hit (invulnerable, clock at 0) Mario stays invulnerable for
      exactly INVULNERABLE_TIME - 1 further frames of play; the frame after
      that clears the flag and the clock. */
  lemma {:induction false} InvulnerabilityEnds(m: MarioState, k: nat)
    requires m.invulnerable && m.invulnerableCount == 0
    requires k < INVULNERABLE_TIME
    ensures Countdowns(m, k).invulnerable && Countdowns(m, k).invulnerableCount == k
    ensures !Countdowns(m, k + 1).invulnerable && Countdowns(m, k + 1).invulnerableCount == 0 <== k + 1 == INVULNERABLE_TIME
    decreases k
  {
    if k > 0 {
      InvulnerabilityEnds(m, k - 1);
    }
  }

  /** The jump, crouch and landing poses (the `can_jump` branch). */
  function Controls(m: MarioState, keys: Keys, tick: int): (r: MarioState)
    ensures r.score == m.score && r.coins == m.coins
  {
    if m.canJump then
      if keys.jump then m.(vy := m.vy - JUMP_FORCE)
      else if keys.down && m.big then
        if m.action != Crouch then Acted(m, Crouch, tick) else m
      else if m.action == Jump then Acted(m, Stand, tick)
      else m
    else if m.action != Jump then Acted(m, Jump, tick)
    else m
  }

  /** `__update_walk_animation(d)`: on the ground, changing direction turns;
      a turn becomes a walk only once its animation has played. */
  function WalkAnim(m: MarioState, d: int, tick: int): (r: MarioState)
    ensures r.(action := m.action, anim := m.anim) == m
  {
    if !m.canJump then m
    else
      var m1 := if m.direction != d then Acted(m, Turn, tick) else m;
      if m1.action == Walk then m1
      else if m1.action == Turn then
        if m1.anim.playedOnce then Acted(m1, Walk, tick) else m1
      else Acted(m1, Walk, tick)
  }

  /** An arrow key held: the speed towards direction `d`, the walking
      poses, then the facing. */
  function Held(m: MarioState, d: int, tick: int): (r: MarioState)
    ensures r.score == m.score && r.coins == m.coins
    ensures r.direction == d && r.vx == (if d == 0 then -MARIO_SPEED else MARIO_SPEED)
  {
    WalkAnim(m.(vx := if d == 0 then -MARIO_SPEED else MARIO_SPEED), d, tick).(direction := d)
  }

  /** Standing still again: a walk or a turn without speed becomes a
      stand. */
  function Stopped(m: MarioState, tick: int): (r: MarioState)
    ensures r.score == m.score && r.coins == m.coins
    ensures r.vx == m.vx
    ensures m.vx == 0 ==> r.action != Walk && r.action != Turn
  {
    if m.vx == 0 && (m.action == Walk || m.action == Turn) then Acted(m, Stand, tick) else m
  }

  /** The arrow keys: the horizontal speed, the facing and the walking
      poses. */
  function Steered(m: MarioState, keys: Keys, tick: int): (r: MarioState)
    ensures r.score == m.score && r.coins == m.coins
  {
    var m0 := m.(vx := 0);
    var m1 := if keys.left then Held(m0, 0, tick) else m0;
    var m2 := if keys.right then Held(m1, 1, tick) else m1;
    Stopped(m2, tick)
  }

  /** The start of a normal frame: the invulnerability clock, gravity, the
      jump and walk controls. */
  function Controlled(m: MarioState, keys: Keys, tick: int): (r: MarioState)
    ensures r.score == m.score && r.coins == m.coins
  {
    Steered(Controls(Gravity(Countdown(m)), keys, tick), keys, tick)
  }

  /** Turning never walks at once: on the ground, a change of direction
      leaves Mario in the turn pose, with a freshly started animation. */
  lemma TurnBeforeWalk(m: MarioState, d: int, tick: int)
    requires m.canJump && m.direction != d
    ensures WalkAnim(m, d, tick).action == Turn
    ensures !WalkAnim(m, d, tick).anim.playedOnce
  {
  }

  /** One tile of `__check_horizontal_collisions`. */
  function SideStep(m: MarioState, t: TileState): (r: MarioState)
    ensures r == m.(box := r.box, finishingOnPole := r.finishingOnPole, landingFlagPoleY := r.landingFlagPoleY)
    ensures r.box.y == m.box.y && r.box.width == m.box.width && r.box.height == m.box.height
    ensures m.finishingOnPole ==> r.finishingOnPole
  {
    if !m.box.Intersects(t.box) then m
    else if m.direction == 0 then m.(box := m.box.WithLeft(t.box.Right()))
    else SideRight(m, t)
  }

  /** An overlap while facing right: the pole or its tip is grabbed, a flag
      piece is passed through, anything else stops Mario at its left edge. */
  function SideRight(m: MarioState, t: TileState): (r: MarioState)
    ensures r == m.(box := r.box, finishingOnPole := r.finishingOnPole, landingFlagPoleY := r.landingFlagPoleY)
    ensures r.box.y == m.box.y && r.box.width == m.box.width && r.box.height == m.box.height
    ensures m.finishingOnPole ==> r.finishingOnPole
  {
    if !t.IsFlagPiece() then m.(box := m.box.WithRight(t.box.Left()))
    else if !m.finishingOnPole && (t.kind == FlagPole || t.kind == FlagTip) then
      m.(landingFlagPoleY := t.box.y, box := m.box.WithCenterX(t.box.CenterX()), finishingOnPole := true)
    else m
  }

  /** `__check_horizontal_collisions`: the horizontal pass never moves Mario
      vertically, and once on the pole he stays on it. */
  function SidePass(m: MarioState, ts: seq<TileState>): (r: MarioState)
    ensures r == m.(box := r.box, finishingOnPole := r.finishingOnPole, landingFlagPoleY := r.landingFlagPoleY)
    ensures r.box.y == m.box.y && r.box.width == m.box.width && r.box.height == m.box.height
    ensures m.finishingOnPole ==> r.finishingOnPole
    decreases |ts|
  {
    if ts == [] then m else SideStep(SidePass(m, ts[..|ts| - 1]), ts[|ts| - 1])
  }

  /** Facing left, an overlap puts Mario's left edge on the tile's right
      edge; facing right, his right edge goes on the tile's left edge unless
      the tile is a flag piece; running into the pole or its tip records the
      tile's y, centres Mario on it and starts the finish. */
  lemma SideStepResolves(m: MarioState, t: TileState)
    requires m.box.Intersects(t.box)
    ensures var r := SideStep(m, t);
      && (m.direction == 0 ==> r.box.Left() == t.box.Right())
      && (m.direction != 0 && !t.IsFlagPiece() ==> r.box.Right() == t.box.Left())
      && (m.direction != 0 && !m.finishingOnPole && (t.kind == FlagPole || t.kind == FlagTip) ==>
            r.finishingOnPole && r.landingFlagPoleY == t.box.y && r.box.CenterX() == t.box.CenterX())
      && (m.direction != 0 && t.IsFlagPiece() && (m.finishingOnPole || t.kind == FinishFlag) ==> r == m)
  {
  }

  /** What one step of a pass over tiles, enemies or items produces: the new
      Mario, the new states of the elements it stepped over, and the items and
      particles it appended. */
  datatype Bumped = Bumped(m: MarioState, tiles: seq<TileState>, items: seq<ItemState>, particles: seq<ParticleState>)

  /** `add_coin` for a block at (x, y) followed by `increase_score(100)`:
      one coin and 100 points, shown by a coin over the block and a score
      text at Mario. */
  function CoinPaid(m: MarioState, x: int, y: int, tick: int): (r: (MarioState, seq<ParticleState>))
    ensures Booked(m, r.0, r.1)
    ensures r.0.coins == m.coins + 1 && r.0.score == m.score + COIN_POINTS
    ensures r.0 == m.(score := r.0.score, coins := r.0.coins)
    ensures r.1 == [CoinState(x, y, tick), ScoreTextState(m.box.x, m.box.y, COIN_POINTS)]
  {
    var ps := [CoinState(x, y, tick), ScoreTextState(m.box.x, m.box.y, COIN_POINTS)];
    assert ps[..1] == [ps[0]] && [ps[0]][..0] == [];
    assert Points([ps[0]]) == 0 && CoinCount([ps[0]]) == 1;
    assert Points(ps) == COIN_POINTS && CoinCount(ps) == 1;
    (Scored(Coined(m), COIN_POINTS), ps)
  }

  /** A head hit on an unused QuestionBlock uses it up; if it holds a
      mushroom, a big Mario gets a coin and a small one releases the
      mushroom. */
  function QuestionHit(m: MarioState, t: TileState, tick: int): (r: Bumped)
    ensures |r.tiles| == 1 && r.tiles[0].kind == t.kind && r.tiles[0].box == t.box
    ensures t.Ok() ==> r.tiles[0].Ok()
    ensures Booked(m, r.m, r.particles)
    ensures r.m == m.(score := r.m.score, coins := r.m.coins)
  {
    if t.used then Bumped(m, [t], [], [])
    else
      var u := Used(t);
      match QuestionItem(u)
      case None => Bumped(m, [u], [], [])
      case Some(item) =>
        if m.big then
          var (m1, ps) := CoinPaid(m, t.box.x, t.box.y, tick);
          Bumped(m1, [u], [], ps)
        else Bumped(m, [u], [item], [])
  }

  /** A head hit on a CoinBlock hits it and pays a coin while it gives
      coins. */
  function CoinBlockHit(m: MarioState, t: TileState, tick: int): (r: Bumped)
    ensures |r.tiles| == 1 && r.tiles[0].kind == t.kind && r.tiles[0].box == t.box
    ensures t.Ok() ==> r.tiles[0].Ok()
    ensures Booked(m, r.m, r.particles)
    ensures r.m == m.(score := r.m.score, coins := r.m.coins)
  {
    var h := CoinHit(t);
    if h.givesCoins then
      var (m1, ps) := CoinPaid(m, t.box.x, t.box.y, tick);
      Bumped(m1, [h], [], ps)
    else Bumped(m, [h], [], [])
  }

  /** A head hit on tile `t` once Mario's top is on its bottom: a breakable
      Block breaks under a big Mario and bounces under a small one; other
      tiles do not react. */
  function HeadHit(m: MarioState, t: TileState, tick: int): (r: Bumped)
    ensures |r.tiles| == 1 && r.tiles[0].kind == t.kind && r.tiles[0].box == t.box
    ensures t.Ok() ==> r.tiles[0].Ok()
    ensures Booked(m, r.m, r.particles)
    ensures r.m == m.(score := r.m.score, coins := r.m.coins)
  {
    if t.kind == Block then
      if t.breakable then
        if m.big then Bumped(m, [Destroyed(t)], [], []) else Bumped(m, [Bounced(t)], [], [])
      else Bumped(m, [t], [], [])
    else if t.kind == QuestionBlock then QuestionHit(m, t, tick)
    else if t.kind == CoinBlock then CoinBlockHit(m, t, tick)
    else Bumped(m, [t], [], [])
  }

  /** One tile of `__check_vertical_collisions`: flag pieces are passed
      through; falling onto a tile lands on it, anything else is a head hit;
      either way vy ends at 0. */
  function BumpStep(m: MarioState, t: TileState, tick: int): (r: Bumped)
    ensures |r.tiles| == 1 && r.tiles[0].kind == t.kind && r.tiles[0].box == t.box
    ensures t.Ok() ==> r.tiles[0].Ok()
    ensures Booked(m, r.m, r.particles)
    ensures r.m == m.(box := r.m.box, canJump := r.m.canJump, vy := r.m.vy, score := r.m.score, coins := r.m.coins)
    ensures r.m.box.x == m.box.x && r.m.box.width == m.box.width && r.m.box.height == m.box.height
  {
    if !m.box.Intersects(t.box) || t.IsFlagPiece() then Bumped(m, [t], [], [])
    else if m.vy > 0 then Bumped(m.(box := m.box.WithBottom(t.box.Top()), canJump := true, vy := 0), [t], [], [])
    else HeadHit(m.(box := m.box.WithTop(t.box.Bottom()), vy := 0), t, tick)
  }

  /** `__check_vertical_collisions` over a tile list: every tile keeps its
      kind, rectangle and invariant, Mario never moves horizontally, and the
      score and coins grow by what the appended particles show. */
  function BumpPass(m: MarioState, ts: seq<TileState>, tick: int): (r: Bumped)
    ensures SameTiles(ts, r.tiles)
    ensures Booked(m, r.m, r.particles)
    ensures r.m == m.(box := r.m.box, canJump := r.m.canJump, vy := r.m.vy, score := r.m.score, coins := r.m.coins)
    ensures r.m.box.x == m.box.x && r.m.box.width == m.box.width && r.m.box.height == m.box.height
    decreases |ts|
  {
    if ts == [] then Bumped(m, [], [], [])
    else
      var n := |ts| - 1;
      var p := BumpPass(m, ts[..n], tick);
      var s := BumpStep(p.m, ts[n], tick);
      BooksAppend(p.particles, s.particles);
      SameTilesAppend(ts[..n], p.tiles, ts[n], s.tiles[0]);
      PrefixSnoc(ts, n);
      assert ts[..n + 1] == ts;
      assert s.tiles == [s.tiles[0]];
      BumpedTwice(m, p.m, s.m);
      Bumped(s.m, p.tiles + s.tiles, p.items + s.items, p.particles + s.particles)
  }

  /** Two vertical bumps in a row change no more of Mario than one does. */
  lemma BumpedTwice(m: MarioState, a: MarioState, b: MarioState)
    requires a == m.(box := a.box, canJump := a.canJump, vy := a.vy, score := a.score, coins := a.coins)
    requires a.box.x == m.box.x && a.box.width == m.box.width && a.box.height == m.box.height
    requires b == a.(box := b.box, canJump := b.canJump, vy := b.vy, score := b.score, coins := b.coins)
    requires b.box.x == a.box.x && b.box.width == a.box.width && b.box.height == a.box.height
    ensures b == m.(box := b.box, canJump := b.canJump, vy := b.vy, score := b.score, coins := b.coins)
    ensures b.box.x == m.box.x && b.box.width == m.box.width && b.box.height == m.box.height
  {
  }

  /** `rs` is `ts` after a pass: the same length, and each tile keeps its
      kind, its rectangle and its invariant. */
  ghost predicate SameTiles(ts: seq<TileState>, rs: seq<TileState>)
  {
    && |rs| == |ts|
    && forall j :: 0 <= j < |ts| ==>
         rs[j].kind == ts[j].kind && rs[j].box == ts[j].box && (ts[j].Ok() ==> rs[j].Ok())
  }

  lemma SameTilesAppend(ts: seq<TileState>, rs: seq<TileState>, t: TileState, r: TileState)
    requires SameTiles(ts, rs)
    requires r.kind == t.kind && r.box == t.box && (t.Ok() ==> r.Ok())
    ensures SameTiles(ts + [t], rs + [r])
  {
  }

  /** The pass over the first i + 1 tiles is the pass over the first i
      followed by the step over the i-th. */
  lemma BumpPassStep(m: MarioState, ts: seq<TileState>, i: int, tick: int)
    requires 0 <= i < |ts|
    ensures var p := BumpPass(m, ts[..i], tick);
      var s := BumpStep(p.m, ts[i], tick);
      BumpPass(m, ts[..i + 1], tick) == Bumped(s.m, p.tiles + s.tiles, p.items + s.items, p.particles + s.particles)
  {
    assert ts[..i + 1][..i] == ts[..i];
  }

  /** Landing on a solid tile stands Mario on it and lets him jump. */
  lemma Landing(m: MarioState, t: TileState, tick: int)
    requires m.box.Intersects(t.box) && !t.IsFlagPiece() && m.vy > 0
    ensures var r := BumpStep(m, t, tick);
      r.m.box.Bottom() == t.box.Top() && r.m.canJump && r.m.vy == 0 && r.tiles == [t] && r.items == [] && r.particles == []
  {
  }

  /** A head hit puts Mario's top on the tile's bottom and vy at 0. */
  lemma HeadHitSnaps(m: MarioState, t: TileState, tick: int)
    requires m.box.Intersects(t.box) && !t.IsFlagPiece() && m.vy <= 0
    ensures BumpStep(m, t, tick).m.box.Top() == t.box.Bottom()
    ensures BumpStep(m, t, tick).m.vy == 0
  {
  }

  /** A head hit destroys a breakable Block exactly when Mario is big and
      bounces it otherwise. */
  lemma HeadHitBlock(m: MarioState, t: TileState, tick: int)
    requires m.box.Intersects(t.box) && !t.IsFlagPiece() && m.vy <= 0
    requires t.kind == Block && t.breakable
    ensures BumpStep(m, t, tick).tiles == [if m.big then Destroyed(t) else Bounced(t)]
    ensures BumpStep(m, t, tick).particles == [] && BumpStep(m, t, tick).items == []
  {
  }

  /** A head hit on an unused mushroom block uses it up; a big Mario gets a
      coin, 100 points and the two particles, a small one releases the
      mushroom above the block. */
  lemma HeadHitQuestion(m: MarioState, t: TileState, tick: int)
    requires m.box.Intersects(t.box) && !t.IsFlagPiece() && m.vy <= 0
    requires t.kind == QuestionBlock && !t.used && t.itemType == "mushroom"
    ensures BumpStep(m, t, tick).tiles == [Used(t)]
    ensures m.big ==> var r := BumpStep(m, t, tick);
      && r.m.score == m.score + COIN_POINTS && r.m.coins == m.coins + 1 && r.items == []
      && r.particles == [CoinState(t.box.x, t.box.y, tick), ScoreTextState(m.box.x, t.box.Bottom(), COIN_POINTS)]
    ensures !m.big ==> var r := BumpStep(m, t, tick);
      && r.items == [QuestionItem(t).value] && r.particles == [] && r.m.score == m.score && r.m.coins == m.coins
  {
  }

  /** A used QuestionBlock no longer reacts. */
  lemma HeadHitUsed(m: MarioState, t: TileState, tick: int)
    requires m.box.Intersects(t.box) && !t.IsFlagPiece() && m.vy <= 0
    requires t.kind == QuestionBlock && t.used
    ensures BumpStep(m, t, tick).tiles == [t]
    ensures BumpStep(m, t, tick).items == [] && BumpStep(m, t, tick).particles == []
  {
  }

  /** A head hit on a CoinBlock hits it, and pays a coin worth 100 exactly
      while the block still gives coins after the hit. */
  lemma HeadHitCoinBlock(m: MarioState, t: TileState, tick: int)
    requires m.box.Intersects(t.box) && !t.IsFlagPiece() && m.vy <= 0
    requires t.kind == CoinBlock
    ensures BumpStep(m, t, tick).tiles == [CoinHit(t)]
    ensures CoinHit(t).givesCoins ==> var r := BumpStep(m, t, tick);
      r.m.coins == m.coins + 1 && r.m.score == m.score + COIN_POINTS && |r.particles| == 2
    ensures !CoinHit(t).givesCoins ==> var r := BumpStep(m, t, tick);
      r.m.coins == m.coins && r.m.score == m.score && r.particles == []
  {
  }

  /** The result of a pass over enemies: the new Mario, the new enemy
      states and the particles appended. */
  datatype Clash = Clash(m: MarioState, enemies: seq<EnemyState>, particles: seq<ParticleState>)

  /** One enemy of `__check_horizontal_enemies_collision`: a harmful enemy
      hits Mario; a harmless KoopaTroopa (a still shell) is kicked in Mario's
      direction. */
  function SideClash(m: MarioState, e: EnemyState, tick: int): (r: Clash)
    ensures |r.enemies| == 1 && r.particles == []
    ensures r.m.score == m.score && r.m.coins == m.coins
  {
    if !m.box.Intersects(e.box) then Clash(m, [e], [])
    else if e.DoesDamage() then Clash(Hurt(m, tick), [e], [])
    else if e.kind == Koopa then Clash(m, [Struck(e, m.direction, tick)], [])
    else Clash(m, [e], [])
  }

  function SideClashes(m: MarioState, es: seq<EnemyState>, tick: int): (r: Clash)
    ensures |r.enemies| == |es| && r.particles == []
    ensures r.m.score == m.score && r.m.coins == m.coins
    decreases |es|
  {
    if es == [] then Clash(m, [], [])
    else
      var p := SideClashes(m, es[..|es| - 1], tick);
      var s := SideClash(p.m, es[|es| - 1], tick);
      Clash(s.m, p.enemies + s.enemies, [])
  }

  /** The pass over a prefix of the list gives the prefix of the pass's
      enemies: an enemy's new state depends only on the ones before it. */
  lemma {:induction false} SideClashesPrefix(m: MarioState, es: seq<EnemyState>, k: int, tick: int)
    requires 0 <= k <= |es|
    ensures SideClashes(m, es[..k], tick).enemies == SideClashes(m, es, tick).enemies[..k]
    decreases |es|
  {
    if k < |es| {
      var n := |es| - 1;
      assert es[..n][..k] == es[..k];
      SideClashesPrefix(m, es[..n], k, tick);
    } else {
      assert es[..k] == es;
    }
  }

  /** The pass over the first i + 1 enemies is the pass over the first i
      followed by the i-th, which also gives the i-th enemy of the whole
      pass. */
  lemma SideClashesStep(m: MarioState, es: seq<EnemyState>, i: int, tick: int)
    requires 0 <= i < |es|
    ensures var p := SideClashes(m, es[..i], tick);
      var s := SideClash(p.m, es[i], tick);
      SideClashes(m, es[..i + 1], tick) == Clash(s.m, p.enemies + s.enemies, [])
    ensures SideClashes(m, es, tick).enemies[i] == SideClash(SideClashes(m, es[..i], tick).m, es[i], tick).enemies[0]
  {
    assert es[..i + 1][..i] == es[..i];
    SideClashesPrefix(m, es, i + 1, tick);
  }

  /** One enemy of `__check_vertical_enemies_collision`: falling onto a live
      enemy scores 100 (with a score text where Mario was), bounces Mario off
      at vy = -10 standing on the enemy, and hits it (a KoopaTroopa in
      Mario's direction); touching a harmful enemy otherwise hits Mario. */
  function StompStep(m: MarioState, e: EnemyState, tick: int): (r: Clash)
    ensures |r.enemies| == 1
    ensures Booked(m, r.m, r.particles)
  {
    if !m.box.Intersects(e.box) then Clash(m, [e], [])
    else if m.vy > 0 then
      if e.dead then Clash(m, [e], []) else Stomped(m, e, tick)
    else if e.DoesDamage() then Clash(Hurt(m, tick), [e], [])
    else Clash(m, [e], [])
  }

  /** Landing on a live enemy: 100 points with their score text, the bounce
      and the hit. */
  function Stomped(m: MarioState, e: EnemyState, tick: int): (r: Clash)
    ensures |r.enemies| == 1
    ensures Booked(m, r.m, r.particles)
  {
    var m1 := Scored(m, STOMP_POINTS).(vy := STOMP_VY, box := m.box.WithBottom(e.box.Top()));
    var text := [ScoreTextState(m.box.x, m.box.y, STOMP_POINTS)];
    TextBooks(text[0]);
    if e.kind == Koopa then
      var e1 := Struck(e, m1.direction, tick);
      var m2 := if e1.hidden then m1.(box := m1.box.WithBottom(e1.box.Top())) else m1;
      Clash(m2, [e1], text)
    else Clash(m1, [Struck(e, 0, tick)], text)
  }

  function Stomps(m: MarioState, es: seq<EnemyState>, tick: int): (r: Clash)
    ensures |r.enemies| == |es|
    ensures Booked(m, r.m, r.particles)
    decreases |es|
  {
    if es == [] then Clash(m, [], [])
    else
      var p := Stomps(m, es[..|es| - 1], tick);
      var s := StompStep(p.m, es[|es| - 1], tick);
      BooksAppend(p.particles, s.particles);
      Clash(s.m, p.enemies + s.enemies, p.particles + s.particles)
  }

  lemma {:induction false} StompsPrefix(m: MarioState, es: seq<EnemyState>, k: int, tick: int)
    requires 0 <= k <= |es|
    ensures Stomps(m, es[..k], tick).enemies == Stomps(m, es, tick).enemies[..k]
    decreases |es|
  {
    if k < |es| {
      var n := |es| - 1;
      var p := Stomps(m, es[..n], tick);
      assert Stomps(m, es, tick).enemies == p.enemies + StompStep(p.m, es[n], tick).enemies;
      assert es[..n][..k] == es[..k];
      StompsPrefix(m, es[..n], k, tick);
    } else {
      assert es[..k] == es;
    }
  }

  /** The stomp pass over the first i + 1 enemies is the pass over the first
      i followed by the i-th. */
  lemma StompsStep(m: MarioState, es: seq<EnemyState>, i: int, tick: int)
    requires 0 <= i < |es|
    ensures var p := Stomps(m, es[..i], tick);
      var s := StompStep(p.m, es[i], tick);
      Stomps(m, es[..i + 1], tick) == Clash(s.m, p.enemies + s.enemies, p.particles + s.particles)
  {
    assert es[..i + 1][..i] == es[..i];
  }

  /** The stomp pass carried on from `c` over the enemies from the i-th on. */
  function StompsFrom(c: Clash, es: seq<EnemyState>, i: int, tick: int): (r: Clash)
    requires 0 <= i <= |es|
    ensures |r.enemies| == |c.enemies| + |es| - i
    decreases |es| - i
  {
    if i == |es| then c
    else
      var s := StompStep(c.m, es[i], tick);
      StompsFrom(Clash(s.m, c.enemies + s.enemies, c.particles + s.particles), es, i + 1, tick)
  }

  /** Carrying the pass on from where the first i enemies left it finishes
      the whole pass. */
  lemma {:induction false} StompsFromPrefix(m: MarioState, es: seq<EnemyState>, i: int, tick: int)
    requires 0 <= i <= |es|
    ensures StompsFrom(Stomps(m, es[..i], tick), es, i, tick) == Stomps(m, es, tick)
    decreases |es| - i
  {
    if i == |es| {
      assert es[..i] == es;
    } else {
      StompsStep(m, es, i, tick);
      StompsFromPrefix(m, es, i + 1, tick);
    }
  }

  /** The pass carried on from the start is the pass. */
  lemma StompsFromStart(m: MarioState, es: seq<EnemyState>, tick: int)
    ensures StompsFrom(Clash(m, [], []), es, 0, tick) == Stomps(m, es, tick)
  {
    assert es[..0] == [];
    StompsFromPrefix(m, es, 0, tick);
  }

  /** The i-th enemy of the whole stomp pass is the i-th enemy's step after
      the pass over the enemies before it. */
  lemma StompsEnemyAt(m: MarioState, es: seq<EnemyState>, i: int, tick: int)
    requires 0 <= i < |es|
    ensures Stomps(m, es, tick).enemies[i] == StompStep(Stomps(m, es[..i], tick).m, es[i], tick).enemies[0]
  {
    assert es[..i + 1][..i] == es[..i];
    StompsPrefix(m, es, i + 1, tick);
  }

  /** A stomp: landing on a live enemy gives exactly 100 points and one score
      text, leaves Mario standing on the enemy with vy = -10, and hits the
      enemy, a KoopaTroopa in Mario's direction. */
  lemma Stomp(m: MarioState, e: EnemyState, tick: int)
    requires m.box.Intersects(e.box) && m.vy > 0 && !e.dead
    ensures StompStep(m, e, tick).m.score == m.score + STOMP_POINTS
    ensures StompStep(m, e, tick).m.vy == STOMP_VY
    ensures StompStep(m, e, tick).m.box.Bottom() == e.box.Top()
    ensures StompStep(m, e, tick).particles == [ScoreTextState(m.box.x, m.box.y, STOMP_POINTS)]
    ensures StompStep(m, e, tick).m.big == m.big && StompStep(m, e, tick).m.dead == m.dead
  {
    if e.kind == Koopa {
      assert Struck(e, m.direction, tick).box == e.box;
    }
  }

  /** The stomped enemy is hit: a KoopaTroopa in Mario's direction, a Goomba
      with the default direction 0. */
  lemma StompHits(m: MarioState, e: EnemyState, tick: int)
    requires m.box.Intersects(e.box) && m.vy > 0 && !e.dead
    ensures StompStep(m, e, tick).enemies == [Struck(e, if e.kind == Koopa then m.direction else 0, tick)]
  {
  }

  /** The result of the item pass. */
  datatype Pickup = Pickup(m: MarioState, items: seq<ItemState>, particles: seq<ParticleState>)

  /** One item of `__check_items_collision`: touching a Mushroom uses it,
      grows Mario and scores 1000. */
  function PickupStep(m: MarioState, it: ItemState, tick: int): (r: Pickup)
    ensures |r.items| == 1
    ensures Booked(m, r.m, r.particles)
  {
    if it.mushroom && m.box.Intersects(it.box) then
      var g := Grown(m, tick);
      Pickup(Scored(g, MUSHROOM_POINTS), [UsedItem(it)], [ScoreTextState(g.box.x, g.box.y, MUSHROOM_POINTS)])
    else Pickup(m, [it], [])
  }

  function Pickups(m: MarioState, its: seq<ItemState>, tick: int): (r: Pickup)
    ensures |r.items| == |its|
    ensures Booked(m, r.m, r.particles)
    decreases |its|
  {
    if its == [] then Pickup(m, [], [])
    else
      var p := Pickups(m, its[..|its| - 1], tick);
      var s := PickupStep(p.m, its[|its| - 1], tick);
      BooksAppend(p.particles, s.particles);
      Pickup(s.m, p.items + s.items, p.particles + s.particles)
  }

  lemma {:induction false} PickupsPrefix(m: MarioState, its: seq<ItemState>, k: int, tick: int)
    requires 0 <= k <= |its|
    ensures Pickups(m, its[..k], tick).items == Pickups(m, its, tick).items[..k]
    decreases |its|
  {
    if k < |its| {
      var n := |its| - 1;
      assert its[..n][..k] == its[..k];
      PickupsPrefix(m, its[..n], k, tick);
    } else {
      assert its[..k] == its;
    }
  }

  /** The item pass over the first i + 1 items is the pass over the first i
      followed by the i-th. */
  lemma PickupsStep(m: MarioState, its: seq<ItemState>, i: int, tick: int)
    requires 0 <= i < |its|
    ensures var p := Pickups(m, its[..i], tick);
      var s := PickupStep(p.m, its[i], tick);
      && Pickups(m, its[..i + 1], tick).m == s.m
      && Pickups(m, its[..i + 1], tick).particles == p.particles + s.particles
  {
    assert its[..i + 1][..i] == its[..i];
  }

  /** The i-th item of the whole pass is the i-th item's step after the pass
      over the items before it. */
  lemma PickupsItemAt(m: MarioState, its: seq<ItemState>, i: int, tick: int)
    requires 0 <= i < |its|
    ensures Pickups(m, its, tick).items[i] == PickupStep(Pickups(m, its[..i], tick).m, its[i], tick).items[0]
  {
    assert its[..i + 1][..i] == its[..i];
    PickupsPrefix(m, its, i + 1, tick);
  }

  /** Touching a Mushroom marks it used, makes Mario big (32 pixels tall,
      feet where they were) and gives exactly 1000 points. */
  lemma MushroomPickup(m: MarioState, it: ItemState, tick: int)
    requires it.mushroom && m.box.Intersects(it.box)
    ensures var r := PickupStep(m, it, tick);
      && r.items == [UsedItem(it)] && r.m.big && r.m.box.height == (if m.big then m.box.height else 32)
      && r.m.box.Bottom() == (if m.big then m.box.Bottom() else m.box.y + 16)
      && r.m.score == m.score + MUSHROOM_POINTS && |r.particles| == 1
  {
  }

  /** Mario moved by (dx, dy). */
  function Shifted(m: MarioState, dx: int, dy: int): (r: MarioState)
    ensures r.box.x == m.box.x + dx && r.box.y == m.box.y + dy
    ensures r == m.(box := r.box) && r.box.width == m.box.width && r.box.height == m.box.height
  {
    m.(box := m.box.(x := m.box.x + dx, y := m.box.y + dy))
  }

  /** The horizontal half of a normal frame (mario.py:178-180): the move by
      vx, the tile pass and the sideways enemy pass, which leave the score
      and the coins alone. */
  function Sideways(m: MarioState, es: seq<EnemyState>, ts: seq<TileState>, tick: int): (r: Clash)
    ensures |r.enemies| == |es| && r.particles == []
    ensures r.m.score == m.score && r.m.coins == m.coins
  {
    var m1 := SidePass(Shifted(m, m.vx, 0), ts);
    SideClashes(m1, es, tick)
  }

  /** What the vertical half produces: the new Mario, tiles, enemies and
      items, and the particles it appended. */
  datatype Fallout = Fallout(m: MarioState, tiles: seq<TileState>, enemies: seq<EnemyState>, items: seq<ItemState>, particles: seq<ParticleState>)

  /** The vertical half (mario.py:181-187): the move by vy with `can_jump`
      cleared, the tile pass, the stomp pass and the item pass, which also
      sees the mushrooms the tile pass released. */
  function Downwards(m: MarioState, ts: seq<TileState>, es: seq<EnemyState>, its: seq<ItemState>, tick: int): (r: Fallout)
    ensures Booked(m, r.m, r.particles)
    ensures SameTiles(ts, r.tiles) && |r.enemies| == |es| && |r.items| >= |its|
  {
    var b := BumpPass(Shifted(m.(canJump := false), 0, m.vy), ts, tick);
    var s := Stomps(b.m, es, tick);
    var p := Pickups(s.m, its + b.items, tick);
    BooksAppend(b.particles, s.particles);
    BooksAppend(b.particles + s.particles, p.particles);
    Fallout(p.m, b.tiles, s.enemies, p.items, b.particles + s.particles + p.particles)
  }

  /** The horizontal half is the move, then the tile pass, then the enemy
      pass. */
  lemma SidewaysSplit(m0: MarioState, es: seq<EnemyState>, ts: seq<TileState>, tick: int, m1: MarioState, m2: MarioState)
    requires m1 == Shifted(m0, m0.vx, 0) && m2 == SidePass(m1, ts)
    ensures Sideways(m0, es, ts, tick) == SideClashes(m2, es, tick)
  {
  }

  /** The vertical half is the fall, then the tile pass, the stomp pass and
      the item pass. */
  lemma DownwardsSplit(m: MarioState, ts: seq<TileState>, es: seq<EnemyState>, its: seq<ItemState>, tick: int,
                       b: Bumped, s: Clash, p: Pickup)
    requires b == BumpPass(Shifted(m.(canJump := false), 0, m.vy), ts, tick)
    requires s == Stomps(b.m, es, tick) && p == Pickups(s.m, its + b.items, tick)
    ensures Downwards(m, ts, es, its, tick) == Fallout(p.m, b.tiles, s.enemies, p.items, b.particles + s.particles + p.particles)
  {
  }

  /** The three lists are well kept, with snapshots `ts`, `es` and
      `its`. */
  ghost predicate WorldAre(tiles: seq<Tile>, ts: seq<TileState>, enemies: seq<Enemy>, es: seq<EnemyState>,
                           items: seq<Item>, its: seq<ItemState>)
    reads tiles, TileAnimations(tiles), enemies, EnemyAnimations(enemies), items
  {
    TilesAre(tiles, ts) && EnemiesAre(enemies, es) && ItemsAre(items, its)
  }

  /** The tile and item lists are well kept, with snapshots `ts` and
      `its`. */
  ghost predicate TilesItemsAre(tiles: seq<Tile>, ts: seq<TileState>, items: seq<Item>, its: seq<ItemState>)
    reads tiles, TileAnimations(tiles), items
  {
    TilesAre(tiles, ts) && ItemsAre(items, its)
  }

  /** The enemy and item lists are well kept, with snapshots `es` and
      `its`. */
  ghost predicate EnemiesItemsAre(enemies: seq<Enemy>, es: seq<EnemyState>, items: seq<Item>, its: seq<ItemState>)
    reads enemies, EnemyAnimations(enemies), items
  {
    EnemiesAre(enemies, es) && ItemsAre(items, its)
  }

  /** The tile and enemy lists are well kept, with snapshots `ts` and
      `es`. */
  ghost predicate TilesEnemiesAre(tiles: seq<Tile>, ts: seq<TileState>, enemies: seq<Enemy>, es: seq<EnemyState>)
    reads tiles, TileAnimations(tiles), enemies, EnemyAnimations(enemies)
  {
    TilesAre(tiles, ts) && EnemiesAre(enemies, es)
  }

  /** A normal frame is the controls, the horizontal half, the vertical half
      and the bounds. */
  lemma PlaySplit(m: MarioState, ts: seq<TileState>, es: seq<EnemyState>, its: seq<ItemState>, keys: Keys, tick: int,
                  m1: MarioState, c: Clash, f: Fallout)
    requires m1 == Controlled(m, keys, tick) && c == Sideways(m1, es, ts, tick)
    requires f == Downwards(c.m, ts, c.enemies, its, tick)
    ensures PlayStep(m, ts, es, its, keys, tick) == f.(m := Bounded(f.m, keys, tick))
  {
  }

  /** The moves and collisions of a normal frame (mario.py:178-187). */
  function Moved(m: MarioState, ts: seq<TileState>, es: seq<EnemyState>, its: seq<ItemState>, tick: int): (r: Fallout)
    ensures Booked(m, r.m, r.particles)
    ensures SameTiles(ts, r.tiles) && |r.enemies| == |es| && |r.items| >= |its|
  {
    var c := Sideways(m, es, ts, tick);
    Downwards(c.m, ts, c.enemies, its, tick)
  }

  /** The end of a normal frame: Mario cannot leave the world on the left,
      dies below the screen, and B gives a double-force jump. */
  function Bounded(m: MarioState, keys: Keys, tick: int): (r: MarioState)
    ensures r.score == m.score && r.coins == m.coins
  {
    var m1 := if m.box.x < 0 then m.(box := m.box.(x := 0)) else m;
    var m2 := if m1.box.y > SCREEN_HEIGHT then Died(m1, tick) else m1;
    if keys.b then m2.(vy := -JUMP_FORCE * 2) else m2
  }

  /** A normal frame (mario.py:137-194): the score and the coins grow by
      exactly what the appended particles show, and every tile keeps its
      kind, rectangle and invariant. */
  function PlayStep(m: MarioState, ts: seq<TileState>, es: seq<EnemyState>, its: seq<ItemState>, keys: Keys, tick: int): (r: Fallout)
    ensures Booked(m, r.m, r.particles)
    ensures SameTiles(ts, r.tiles) && |r.enemies| == |es| && |r.items| >= |its|
  {
    var f := Moved(Controlled(m, keys, tick), ts, es, its, tick);
    f.(m := Bounded(f.m, keys, tick))
  }

  /** What ends a grow or a death (mario.py:196-202): once the grow animation
      has played Mario stands; a dead Mario keeps falling. */
  function AfterPlay(m: MarioState, tick: int): (r: MarioState)
    ensures r.score == m.score && r.coins == m.coins
  {
    if m.action == Grow then
      if m.anim.playedOnce then Acted(m, Stand, tick) else m
    else if m.action == Death then
      var g := Gravity(m);
      g.(box := g.box.(y := g.box.y + g.vy))
    else m
  }

  /** Python's floor division `a // b`. */
  function FloorDiv(a: int, b: int): int
    requires b != 0
  {
    if b > 0 then a / b else (-a) / (-b)
  }

  /** The flag-pole bonus for grabbing the pole at height `y`:
      int(50000 / y // 100 * 100), which divides by zero at y = 0. */
  function FlagBonus(y: int): (r: Result<int>)
    ensures r.Err? <==> y == 0
  {
    if y == 0 then Err(ZeroDivisionError("float division by zero"))
    else Ok(FloorDiv(50000, 100 * y) * 100)
  }

  /** For a pole grabbed at y > 0 the bonus is 50000 / y rounded down to
      hundreds, and the higher the grab (the smaller y), the larger the
      bonus. */
  lemma FlagBonusRounds(y: int, y2: int)
    requires 0 < y <= y2
    ensures var b := FlagBonus(y).value;
      b % 100 == 0 && 0 <= b && b * y <= 50000 && 50000 < (b + 100) * y
    ensures FlagBonus(y2).value <= FlagBonus(y).value
  {
    var d, d2 := 100 * y, 100 * y2;
    var q, q2 := 50000 / d, 50000 / d2;
    DivBounds(50000, d);
    DivBounds(50000, d2);
    assert (q * 100) * y == q * d;
    assert (q * 100 + 100) * y == (q + 1) * d;
    MulMonotone(q2, d, d2);
    if q2 > q {
      MulMonotone(d, q + 1, q2);
      assert false;
    }
  }

  /** Euclidean division by a positive divisor brackets the dividend. */
  lemma DivBounds(a: nat, d: int)
    requires d > 0
    ensures 0 <= a / d && (a / d) * d <= a < (a / d + 1) * d
  {
    assert a == (a / d) * d + a % d;
  }

  lemma MulMonotone(a: int, b: int, c: int)
    requires a >= 0 && b <= c
    ensures a * b <= a * c
  {
    assert a * c - a * b == a * (c - b);
  }

  /** Changing to action `a` only when Mario is not in it already, so that
      a running animation is not restarted. */
  function Posed(m: MarioState, a: Action, tick: int): (r: MarioState)
    ensures r.action == a && r.(action := m.action, anim := m.anim) == m
    ensures m.action == a ==> r == m
  {
    if m.action != a then Acted(m, a, tick) else m
  }

  /** Four pixels towards the castle: facing left (direction 0) while
      before the pole, and facing right (direction 1) once past it, as the
      source sets it. */
  function TowardsCastle(m: MarioState): (r: MarioState)
    ensures r.box.x == m.box.x + MARIO_SPEED && r.box.width == m.box.width
    ensures r == m.(box := r.box, direction := r.direction)
    ensures r.direction == (if r.box.x >= POLE_PASSED_X then 1 else 0)
  {
    var m1 := m.(box := m.box.(x := m.box.x + MARIO_SPEED));
    if m1.box.x >= POLE_PASSED_X then m1.(direction := 1, box := m1.box.WithBottom(CASTLE_GROUND))
    else m1.(direction := 0)
  }

  /** The first steps of a frame at the bottom of the pole: four pixels
      towards the castle, onto the ground row past the pole, in the walking
      pose, with gravity. */
  function CastleWalk(m: MarioState, tick: int): (r: MarioState)
    ensures r.box.x == m.box.x + MARIO_SPEED
    ensures r.score == m.score && r.coins == m.coins && r.landingScoreAdded == m.landingScoreAdded
    ensures r.finishingOnPole == m.finishingOnPole && r.finishingInsideCastle == m.finishingInsideCastle
    ensures r.action == Walk
  {
    var g := Gravity(Posed(TowardsCastle(m), Walk, tick));
    Shifted(g, 0, g.vy)
  }

  /** At the bottom of the pole Mario walks to the castle (mario.py:115-133):
      four pixels a frame, entering the castle once past its door, with only
      coin blocks able to change his score. */
  function WalkToCastle(m: MarioState, ts: seq<TileState>, tick: int): (r: Bumped)
    ensures Booked(m, r.m, r.particles) && SameTiles(ts, r.tiles)
    ensures r.m.box.x == m.box.x + MARIO_SPEED
    ensures r.m.finishingInsideCastle <==> m.finishingInsideCastle || r.m.box.x >= CASTLE_DOOR_X
    ensures r.m.landingScoreAdded == m.landingScoreAdded && r.m.finishingOnPole == m.finishingOnPole
  {
    var c := CastleWalk(m, tick);
    var b := BumpPass(c, ts, tick);
    var inside := m.finishingInsideCastle || b.m.box.x >= CASTLE_DOOR_X;
    Bumped(b.m.(finishingInsideCastle := inside), b.tiles, b.items, b.particles)
  }

  /** The walk to the castle is the walk, the tile pass and the door
      test. */
  lemma WalkToCastleSplit(m: MarioState, ts: seq<TileState>, tick: int, c: MarioState, b: Bumped)
    requires c == CastleWalk(m, tick) && b == BumpPass(c, ts, tick)
    ensures WalkToCastle(m, ts, tick)
         == Bumped(b.m.(finishingInsideCastle := b.m.finishingInsideCastle || b.m.box.x >= CASTLE_DOOR_X),
                   b.tiles, b.items, b.particles)
  {
  }

  /** Feet above the pole's base: big and y < 128, or small and
      y - height < 128. */
  predicate OnPole(m: MarioState)
  {
    (m.big && m.box.y < POLE_BASE) || (!m.big && m.box.y - m.box.height < POLE_BASE)
  }

  /** The first frame at the bottom of the pole: the bonus, shown by a score
      text, then the walk. */
  function BonusWalk(m: MarioState, ts: seq<TileState>, bonus: int, tick: int): (r: Bumped)
    ensures Booked(m, r.m, r.particles) && SameTiles(ts, r.tiles)
    ensures |r.particles| > 0 && r.particles[0] == ScoreTextState(m.box.x, m.box.y, bonus)
    ensures r.m.score == m.score + bonus + Points(r.particles[1..])
    ensures r.m.landingScoreAdded
  {
    var text := ScoreTextState(m.box.x, m.box.y, bonus);
    var b := WalkToCastle(Scored(m, bonus).(landingScoreAdded := true), ts, tick);
    TextBooks(text);
    BooksAppend([text], b.particles);
    assert ([text] + b.particles)[1..] == b.particles;
    b.(particles := [text] + b.particles)
  }

  /** The first frame at the bottom of the pole is the walk after the
      bonus, with the bonus's score text ahead of its particles. */
  lemma BonusWalkSplit(m: MarioState, ts: seq<TileState>, bonus: int, tick: int)
    ensures var w := WalkToCastle(Scored(m, bonus).(landingScoreAdded := true), ts, tick);
      BonusWalk(m, ts, bonus, tick) == w.(particles := [ScoreTextState(m.box.x, m.box.y, bonus)] + w.particles)
  {
  }

  /** A frame on the flag pole (mario.py:96-133): slide down in the grab
      pose; at the bottom, collect the bonus once (a division by zero for a
      pole at y = 0), then walk to the castle.  Only the division fails, and
      it changes nothing. */
  function PoleStep(m: MarioState, ts: seq<TileState>, tick: int): (r: (Bumped, Option<PyError>))
    ensures Booked(m, r.0.m, r.0.particles) && SameTiles(ts, r.0.tiles)
    ensures r.1.Some? <==> !OnPole(m) && !m.landingScoreAdded && m.landingFlagPoleY == 0
    ensures r.1.Some? ==> r.0 == Bumped(m, ts, [], [])
  {
    if OnPole(m) then
      (BumpPass(Shifted(Posed(m, Grab, tick), 0, POLE_SLIDE), ts, tick), None)
    else if !m.landingScoreAdded then
      match FlagBonus(m.landingFlagPoleY)
      case Err(e) =>
        assert SameTiles(ts, ts);
        (Bumped(m, ts, [], []), Some(e))
      case Ok(bonus) => (BonusWalk(m, ts, bonus, tick), None)
    else (WalkToCastle(m, ts, tick), None)
  }

  /** The pole bonus is paid once: the first frame at the bottom of the pole
      shows it in a score text, adds it and sets `landing_score_added`; once
      that is set, a frame adds only what the tile pass pays. */
  lemma PoleBonusOnce(m: MarioState, ts: seq<TileState>, tick: int)
    requires m.finishingOnPole && !OnPole(m) && m.landingFlagPoleY != 0
    ensures PoleStep(m, ts, tick).1.None? && PoleStep(m, ts, tick).0.m.landingScoreAdded
    ensures !m.landingScoreAdded ==> var r := PoleStep(m, ts, tick).0;
      && |r.particles| > 0
      && r.particles[0] == ScoreTextState(m.box.x, m.box.y, FlagBonus(m.landingFlagPoleY).value)
      && r.m.score == m.score + FlagBonus(m.landingFlagPoleY).value + Points(r.particles[1..])
    ensures m.landingScoreAdded ==>
      PoleStep(m, ts, tick).0.particles == BumpPass(CastleWalk(m, tick), ts, tick).particles
  {
  }

  /** `update` at frame `tick` with input `keys` (mario.py:92-202): the
      animation steps, then a pole frame, or a normal frame unless Mario is
      growing or dying, then the end of a grow or death.  Mario's score and
      coins grow by exactly what the particles he appended show, the earlier
      particles and items stay, and a failed frame changes no list. */
  function MarioStep(m: MarioState, w: World, keys: Keys, tick: int): (r: (MarioState, World, Option<PyError>))
    ensures |r.1.particles| >= |w.particles| && r.1.particles[..|w.particles|] == w.particles
    ensures Booked(m, r.0, r.1.particles[|w.particles|..])
    ensures SameTiles(w.tiles, r.1.tiles) && |r.1.enemies| == |w.enemies| && |r.1.items| >= |w.items|
    ensures r.2.Some? ==> r.1 == w
  {
    var m0 := m.(anim := Step(m.anim, tick));
    if m0.finishingOnPole then
      var (b, err) := PoleStep(m0, w.tiles, tick);
      assert (w.particles + b.particles)[|w.particles|..] == b.particles;
      assert err.Some? ==> w.items + b.items == w.items && w.particles + b.particles == w.particles;
      (b.m, World(b.tiles, w.enemies, w.items + b.items, w.particles + b.particles), err)
    else
      var f := Played(m0, w.tiles, w.enemies, w.items, keys, tick);
      assert (w.particles + f.particles)[|w.particles|..] == f.particles;
      (AfterPlay(f.m, tick), World(f.tiles, f.enemies, f.items, w.particles + f.particles), None)
  }

  /** A frame on the pole is the pole step, with what its tile pass
      releases and spawns appended. */
  lemma MarioStepOnPole(m: MarioState, w: World, keys: Keys, tick: int)
    requires m.finishingOnPole
    ensures var p := PoleStep(m.(anim := Step(m.anim, tick)), w.tiles, tick);
      MarioStep(m, w, keys, tick)
        == (p.0.m, World(p.0.tiles, w.enemies, w.items + p.0.items, w.particles + p.0.particles), p.1)
  {
  }

  /** A frame off the pole is a normal frame (or none while growing or
      dying) followed by the end of a grow or a death, and never fails. */
  lemma MarioStepOffPole(m: MarioState, w: World, keys: Keys, tick: int)
    requires !m.finishingOnPole
    ensures var f := Played(m.(anim := Step(m.anim, tick)), w.tiles, w.enemies, w.items, keys, tick);
      MarioStep(m, w, keys, tick)
        == (AfterPlay(f.m, tick), World(f.tiles, f.enemies, f.items, w.particles + f.particles), None)
  {
  }

  /** A frame off the pole before the end of a grow or a death: a normal
      frame, except that a growing or dying Mario does not move and touches
      no list. */
  function Played(m: MarioState, ts: seq<TileState>, es: seq<EnemyState>, its: seq<ItemState>, keys: Keys, tick: int): (r: Fallout)
    ensures Booked(m, r.m, r.particles)
    ensures SameTiles(ts, r.tiles) && |r.enemies| == |es| && |r.items| >= |its|
    ensures m.action == Grow || m.action == Death ==> r == Fallout(m, ts, es, its, [])
  {
    if m.action != Grow && m.action != Death then PlayStep(m, ts, es, its, keys, tick)
    else
      assert SameTiles(ts, ts);
      Fallout(m, ts, es, its, [])
  }

  /** The size state machine: `hit` does nothing while invulnerable; it
      shrinks a big Mario to 16 pixels (y + 16, invulnerable, standing) and
      kills a small one (dead, vy = -15, death pose). */
  lemma HitStateMachine(m: MarioState, tick: int)
    ensures m.invulnerable ==> Hurt(m, tick) == m
    ensures !m.invulnerable && m.big ==> var r := Hurt(m, tick);
      && !r.big && r.invulnerable && r.box == m.box.(y := m.box.y + 16, height := 16)
      && r.action == Stand && r.dead == m.dead && r.anim.frames == [SMALL_STAND]
    ensures !m.invulnerable && !m.big ==> var r := Hurt(m, tick);
      && r.dead && r.vy == DEATH_VY && r.action == Death && r.box == m.box && !r.big
  {
  }

  /** `__grow` is idempotent and only a small Mario grows: big, 32 pixels
      tall, 16 pixels higher, in the grow pose. */
  lemma GrowStateMachine(m: MarioState, tick: int, tick2: int)
    ensures Grown(Grown(m, tick), tick2) == Grown(m, tick)
    ensures m.big ==> Grown(m, tick) == m
    ensures !m.big ==> var r := Grown(m, tick);
      && r.big && r.box == m.box.(y := m.box.y - 16, height := 32) && r.action == Grow
      && r.anim.frames == GROW_FRAMES && r.anim.delay == GROW_DELAY && !r.invulnerable == !m.invulnerable
  {
  }

  /** A hit undoes a grow: a small, vulnerable 16-pixel Mario who grows and is
      then hit is back in his rectangle, small, and invulnerable. */
  lemma HitUndoesGrow(m: MarioState, tick: int, tick2: int)
    requires !m.big && !m.invulnerable && m.box.height == 16
    ensures var r := Hurt(Grown(m, tick), tick2);
      r.box == m.box && !r.big && r.invulnerable && r.dead == m.dead
  {
  }

  /** Mario.  Each method is proved against the function above that states
      what it does; `update` takes the lists it changes in place and returns
      the items and particles it appended. */
  class Mario {
    var box: Sprite
    var direction: int
    var dead: bool
    var vx: int
    var vy: int
    var canJump: bool
    var score: int
    var coins: int
    var big: bool
    var invulnerable: bool
    var invulnerableCount: int
    var action: Action
    var finishingOnPole: bool
    var finishingInsideCastle: bool
    var landingFlagPoleY: int
    var landingScoreAdded: bool
    const animation: Animation

    function State(): MarioState
      reads this, animation
    {
      MarioState(box, direction, dead, vx, vy, canJump, score, coins, big, invulnerable, invulnerableCount,
                 action, finishingOnPole, finishingInsideCastle, landingFlagPoleY, landingScoreAdded,
                 animation.State())
    }

    ghost predicate Valid()
      reads this, animation
    {
      animation.owner == this && animation.Valid()
    }

    /** `Mario(x, y)` at frame `tick`. */
    constructor (x: int, y: int, tick: int)
      ensures Valid() && fresh(animation)
      ensures State() == MarioStart(x, y, tick)
    {
      box := Sprite(x, y, 16, 16);
      direction := 0;
      dead := false;
      vx := 0;
      vy := 0;
      canJump := false;
      score := 0;
      coins := 0;
      big := false;
      invulnerable := false;
      invulnerableCount := 0;
      action := Stand;
      finishingOnPole := false;
      finishingInsideCastle := false;
      landingFlagPoleY := 0;
      landingScoreAdded := false;
      animation := new Animation([], 0, tick);
      new;
      animation.owner := this;
      var _ := ChangeAction(Stand, tick);
    }

    /** `change_action(a)`: a rejected name is stored and reported. */
    method ChangeAction(a: Action, tick: int) returns (r: Result<Action>)
      modifies this, animation
      ensures animation.owner == old(animation.owner)
      ensures old(Valid()) ==> Valid()
      ensures State() == Acted(old(State()), a, tick)
      ensures r == ActionChecked(a)
    {
      action := a;
      match ActionLook(a, big)
      case None =>
        r := ActionChecked(a);
      case Some(look) =>
        animation.SetDelay(look.delay);
        animation.SetFrames(look.frames, tick);
        r := Ok(a);
    }

    /** `die`. */
    method Die(tick: int)
      requires Valid()
      modifies this, animation
      ensures Valid()
      ensures State() == Died(old(State()), tick)
    {
      dead := true;
      vy := DEATH_VY;
      var _ := ChangeAction(Death, tick);
    }

    /** `__grow`. */
    method Grow(tick: int)
      requires Valid()
      modifies this, animation
      ensures Valid()
      ensures State() == Grown(old(State()), tick)
    {
      if !big {
        big := true;
        box := box.(y := box.y - 16);
        box := box.(height := 32);
        var _ := ChangeAction(Action.Grow, tick);
      }
    }

    /** `hit`. */
    method Hit(tick: int)
      requires Valid()
      modifies this, animation
      ensures Valid()
      ensures State() == Hurt(old(State()), tick)
    {
      if !invulnerable {
        if big {
          invulnerable := true;
          big := false;
          box := box.(y := box.y + 16);
          box := box.(height := 16);
          var _ := ChangeAction(Stand, tick);
        } else {
          Die(tick);
        }
      }
    }

    /** `increase_score(points, particles)`: the score text it appends is
        returned as a request. */
    method IncreaseScore(points: int) returns (text: Spawn)
      modifies this
      ensures State() == Scored(old(State()), points)
      ensures SpawnState(text) == ScoreTextState(box.x, box.y, points)
    {
      score := score + points;
      text := TextSpawn(box.x, box.y, points);
    }

    /** `add_coin(x, y, particles)`: the coin it appends is returned as a
        request. */
    method AddCoin(x: int, y: int, tick: int) returns (coin: Spawn)
      modifies this
      ensures State() == Coined(old(State()))
      ensures SpawnState(coin) == CoinState(x, y, tick)
    {
      coins := coins + 1;
      coin := CoinSpawn(x, y, tick);
    }

    /** `__check_horizontal_collisions(tiles)`. */
    method CheckSideTiles(tiles: seq<Tile>)
      modifies this
      ensures State() == SidePass(old(State()), States(tiles))
    {
      ghost var ts := States(tiles);
      ghost var m0 := State();
      var i := 0;
      while i < |tiles|
        invariant 0 <= i <= |tiles|
        invariant States(tiles) == ts
        invariant State() == SidePass(m0, ts[..i])
      {
        assert ts[..i + 1][..i] == ts[..i];
        SideTile(tiles[i]);
        i := i + 1;
      }
      assert ts[..|tiles|] == ts;
    }

    /** One tile of `__check_horizontal_collisions`. */
    method SideTile(t: Tile)
      modifies this
      ensures State() == SideStep(old(State()), t.State())
    {
      if box.Intersects(t.box) {
        if direction == 0 {
          box := box.WithLeft(t.box.Right());
        } else {
          SideTileRight(t);
        }
      }
    }

    /** An overlap with tile `t` while facing right. */
    method SideTileRight(t: Tile)
      modifies this
      ensures State() == SideRight(old(State()), t.State())
    {
      if !finishingOnPole {
        if t.kind == FlagPole || t.kind == FlagTip {
          landingFlagPoleY := t.box.y;
          box := box.WithCenterX(t.box.CenterX());
          finishingOnPole := true;
        } else if t.kind != FinishFlag {
          box := box.WithRight(t.box.Left());
        }
      } else if !(t.kind == FlagPole || t.kind == FinishFlag || t.kind == FlagTip) {
        box := box.WithRight(t.box.Left());
      }
    }

    /** `add_coin` for a block at (x, y) then `increase_score(100)`: the coin
        and the score text, in that order. */
    method PayCoin(x: int, y: int, tick: int, ghost r: (MarioState, seq<ParticleState>)) returns (sp: seq<Spawn>)
      requires r == CoinPaid(State(), x, y, tick)
      modifies this
      ensures State() == r.0 && SpawnStates(sp) == r.1
    {
      var coin := AddCoin(x, y, tick);
      var text := IncreaseScore(COIN_POINTS);
      sp := [coin, text];
    }

    /** A head hit on a QuestionBlock. */
    method QuestionHitOn(t: Tile, tick: int, ghost h: Bumped) returns (rel: seq<Release>, sp: seq<Spawn>)
      requires h == QuestionHit(State(), t.State(), tick)
      requires t.Valid() && t.kind == QuestionBlock
      modifies this, t
      ensures t.Valid()
      ensures State() == h.m && t.State() == h.tiles[0] && ReleaseStates(rel) == h.items && SpawnStates(sp) == h.particles
    {
      rel, sp := [], [];
      if !t.used {
        ghost var t0 := t.State();
        t.Use();
        rel, sp := QuestionItemOn(t, tick, t0, h);
      }
    }

    /** The item of a QuestionBlock just used, which had snapshot `t0`
        before: a Mushroom is released for small Mario, a coin paid to big
        Mario. */
    method QuestionItemOn(t: Tile, tick: int, ghost t0: TileState, ghost h: Bumped) returns (rel: seq<Release>, sp: seq<Spawn>)
      requires !t0.used && t.State() == Used(t0) && h == QuestionHit(State(), t0, tick)
      modifies this
      ensures State() == h.m && ReleaseStates(rel) == h.items && SpawnStates(sp) == h.particles
    {
      rel, sp := [], [];
      if t.itemType == "mushroom" {
        ReleaseIsQuestionItem(t.State());
        if big {
          sp := PayCoin(t.box.x, t.box.y, tick, CoinPaid(State(), t.box.x, t.box.y, tick));
        } else {
          rel := [Release(t.box.x, t.box.y)];
        }
      }
    }

    /** A head hit on a CoinBlock. */
    method CoinBlockHitOn(t: Tile, tick: int, ghost h: Bumped) returns (sp: seq<Spawn>)
      requires h == CoinBlockHit(State(), t.State(), tick)
      requires t.Valid() && t.kind == CoinBlock
      modifies this, t
      ensures t.Valid()
      ensures State() == h.m && t.State() == h.tiles[0] && h.items == [] && SpawnStates(sp) == h.particles
    {
      sp := [];
      t.Hit();
      if t.givesCoins {
        sp := PayCoin(t.box.x, t.box.y, tick, CoinPaid(State(), t.box.x, t.box.y, tick));
      }
    }

    /** A head hit on tile `t`, Mario's top already on its bottom. */
    method HeadHitOn(t: Tile, tick: int, ghost h: Bumped) returns (rel: seq<Release>, sp: seq<Spawn>)
      requires h == HeadHit(State(), t.State(), tick)
      requires t.Valid()
      modifies this, t
      ensures t.Valid()
      ensures State() == h.m && t.State() == h.tiles[0] && ReleaseStates(rel) == h.items && SpawnStates(sp) == h.particles
    {
      rel, sp := [], [];
      if t.kind == Block {
        if t.breakable {
          if big {
            t.Destroy();
          } else {
            t.Bounce();
          }
        }
      } else if t.kind == QuestionBlock {
        rel, sp := QuestionHitOn(t, tick, QuestionHit(State(), t.State(), tick));
      } else if t.kind == CoinBlock {
        sp := CoinBlockHitOn(t, tick, CoinBlockHit(State(), t.State(), tick));
      }
    }

    /** One tile of `__check_vertical_collisions`. */
    method BumpTile(t: Tile, tick: int, ghost b: Bumped) returns (rel: seq<Release>, sp: seq<Spawn>)
      requires b == BumpStep(State(), t.State(), tick)
      requires t.Valid()
      modifies this, t
      ensures t.Valid()
      ensures State() == b.m && t.State() == b.tiles[0] && ReleaseStates(rel) == b.items && SpawnStates(sp) == b.particles
    {
      rel, sp := [], [];
      if !box.Intersects(t.box) || t.kind == FlagPole || t.kind == FinishFlag || t.kind == FlagTip {
        assert b == Bumped(State(), [t.State()], [], []);
      } else {
        if vy > 0 {
          Land(t);
        } else {
          ghost var h := HeadHit(State().(box := box.WithTop(t.box.Bottom()), vy := 0), t.State(), tick);
          assert b == h;
          rel, sp := HeadBump(t, tick, h);
        }
      }
    }

    /** The i-th tile of `__check_vertical_collisions` in the tile list:
        Mario and that tile take their next states, the other tiles keep
        theirs. */
    method BumpAt(tiles: seq<Tile>, i: int, tick: int, ghost b: Bumped) returns (rel: seq<Release>, sp: seq<Spawn>)
      requires 0 <= i < |tiles| && TilesOk(tiles)
      requires b == BumpStep(State(), tiles[i].State(), tick)
      modifies this, tiles[i]
      ensures TilesOk(tiles)
      ensures State() == b.m && tiles[i].State() == b.tiles[0] && ReleaseStates(rel) == b.items && SpawnStates(sp) == b.particles
      ensures forall j :: 0 <= j < |tiles| && j != i ==> tiles[j].State() == old(tiles[j].State())
    {
      rel, sp := BumpTile(tiles[i], tick, b);
    }

    /** The i-th tile of the pass whose result over the tiles before it is
        `p`: the requests it makes are appended to `rel0` and `sp0`. */
    method BumpPassAt(tiles: seq<Tile>, i: int, tick: int, rel0: seq<Release>, sp0: seq<Spawn>,
                      ghost ts: seq<TileState>, ghost p: Bumped)
      returns (rel: seq<Release>, sp: seq<Spawn>, ghost q: Bumped)
      requires 0 <= i < |tiles| == |ts| && |p.tiles| == i && TilesOk(tiles)
      requires State() == p.m && ReleaseStates(rel0) == p.items && SpawnStates(sp0) == p.particles
      requires States(tiles) == p.tiles + ts[i..]
      modifies this, tiles[i]
      ensures var s := BumpStep(p.m, ts[i], tick);
        q == Bumped(s.m, p.tiles + s.tiles, p.items + s.items, p.particles + s.particles)
      ensures TilesOk(tiles) && |q.tiles| == i + 1
      ensures State() == q.m && ReleaseStates(rel) == q.items && SpawnStates(sp) == q.particles
      ensures States(tiles) == q.tiles + ts[i + 1..]
    {
      ghost var b := BumpStep(p.m, ts[i], tick);
      assert tiles[i].State() == ts[i];
      var r, s := BumpAt(tiles, i, tick, b);
      ReleaseStatesAppend(rel0, r);
      SpawnStatesAppend(sp0, s);
      rel, sp, q := rel0 + r, sp0 + s, Bumped(b.m, p.tiles + b.tiles, p.items + b.items, p.particles + b.particles);
    }

    /** `__check_vertical_collisions(tiles, items, particles)`: the Mushrooms
        and particles it appends are returned as requests. */
    method CheckBumps(tiles: seq<Tile>, tick: int, ghost final: Bumped) returns (rel: seq<Release>, sp: seq<Spawn>)
      requires TilesOk(tiles) && final == BumpPass(State(), States(tiles), tick)
      modifies this, tiles
      ensures TilesOk(tiles)
      ensures State() == final.m && States(tiles) == final.tiles
      ensures ReleaseStates(rel) == final.items && SpawnStates(sp) == final.particles
    {
      ghost var ts := States(tiles);
      ghost var m0 := State();
      ghost var p := BumpPass(m0, [], tick);
      rel, sp := [], [];
      var i := 0;
      while i < |tiles|
        invariant 0 <= i <= |tiles|
        invariant TilesOk(tiles)
        invariant p == BumpPass(m0, ts[..i], tick) && |p.tiles| == i
        invariant State() == p.m && ReleaseStates(rel) == p.items && SpawnStates(sp) == p.particles
        invariant States(tiles) == p.tiles + ts[i..]
      {
        BumpPassStep(m0, ts, i, tick);
        rel, sp, p := BumpPassAt(tiles, i, tick, rel, sp, ts, p);
        i := i + 1;
      }
      assert ts[..|tiles|] == ts;
    }

    /** Falling onto tile `t`: the bottom goes on its top, Mario can jump
        and vy goes to 0. */
    method Land(t: Tile)
      modifies this
      ensures State() == old(State()).(box := old(box).WithBottom(t.box.Top()), canJump := true, vy := 0)
    {
      box := box.WithBottom(t.box.Top());
      canJump := true;
      vy := 0;
    }

    /** Rising into tile `t`: the top goes on its bottom, vy to 0, then the
        head hit. */
    method HeadBump(t: Tile, tick: int, ghost h: Bumped) returns (rel: seq<Release>, sp: seq<Spawn>)
      requires h == HeadHit(State().(box := box.WithTop(t.box.Bottom()), vy := 0), t.State(), tick)
      requires t.Valid()
      modifies this, t
      ensures t.Valid()
      ensures State() == h.m && t.State() == h.tiles[0] && ReleaseStates(rel) == h.items && SpawnStates(sp) == h.particles
    {
      box := box.WithTop(t.box.Bottom());
      vy := 0;
      rel, sp := HeadHitOn(t, tick, h);
    }

    /** One enemy of `__check_horizontal_enemies_collision`. */
    method SideClashWith(enemies: seq<Enemy>, i: int, tick: int, ghost c: Clash)
      requires 0 <= i < |enemies| && Valid() && EnemiesOk(enemies)
      requires c == SideClash(State(), enemies[i].State(), tick)
      modifies this, animation, enemies[i], enemies[i].animation
      ensures Valid() && EnemiesOk(enemies)
      ensures State() == c.m && enemies[i].State() == c.enemies[0]
      ensures forall j :: 0 <= j < |enemies| && j != i ==> enemies[j].State() == old(enemies[j].State())
    {
      var e := enemies[i];
      if box.Intersects(e.box) {
        if e.DoesDamage() {
          Hit(tick);
        } else if e.kind == Koopa {
          e.Hit(direction, tick);
        }
      }
    }

    /** The i-th enemy of the side pass from `m0` over the snapshots `es`,
        after the enemies before it left the pass at `c`; `c'` is where the
        pass stands after it. */
    method SideClashNext(enemies: seq<Enemy>, i: int, tick: int, ghost m0: MarioState, ghost es: seq<EnemyState>, ghost c: Clash)
      returns (ghost c': Clash)
      requires 0 <= i < |enemies| == |es| && c == SideClashes(m0, es[..i], tick)
      requires Valid() && EnemiesOk(enemies)
      requires State() == c.m && EnemyStates(enemies) == c.enemies + es[i..]
      modifies this, animation, enemies, EnemyAnimations(enemies)
      ensures c' == SideClashes(m0, es[..i + 1], tick)
      ensures Valid() && EnemiesOk(enemies)
      ensures State() == c'.m && EnemyStates(enemies) == c'.enemies + es[i + 1..]
    {
      SideClashesStep(m0, es, i, tick);
      assert enemies[i].State() == es[i];
      ghost var s := SideClash(c.m, es[i], tick);
      SideClashWith(enemies, i, tick, s);
      c' := Clash(s.m, c.enemies + s.enemies, []);
    }

    /** `__check_horizontal_enemies_collision(enemies)`. */
    method CheckSideEnemies(enemies: seq<Enemy>, tick: int)
      requires Valid() && EnemiesOk(enemies)
      modifies this, animation, enemies, EnemyAnimations(enemies)
      ensures Valid() && EnemiesOk(enemies)
      ensures var c := SideClashes(old(State()), old(EnemyStates(enemies)), tick);
        State() == c.m && EnemyStates(enemies) == c.enemies
    {
      ghost var es := EnemyStates(enemies);
      ghost var m0 := State();
      ghost var c := SideClashes(m0, [], tick);
      var i := 0;
      while i < |enemies|
        invariant 0 <= i <= |enemies|
        invariant Valid() && EnemiesOk(enemies)
        invariant c == SideClashes(m0, es[..i], tick)
        invariant State() == c.m && EnemyStates(enemies) == c.enemies + es[i..]
      {
        c := SideClashNext(enemies, i, tick, m0, es, c);
        i := i + 1;
      }
      AllTaken(es, i, c.enemies);
    }

    /** One enemy of `__check_vertical_enemies_collision`: the score text of
        a stomp is returned as a request. */
    method StompOn(enemies: seq<Enemy>, i: int, tick: int, ghost c: Clash) returns (sp: seq<Spawn>)
      requires 0 <= i < |enemies| && Valid() && EnemiesOk(enemies)
      requires c == StompStep(State(), enemies[i].State(), tick)
      modifies this, animation, enemies[i], enemies[i].animation
      ensures Valid() && EnemiesOk(enemies)
      ensures State() == c.m && enemies[i].State() == c.enemies[0] && SpawnStates(sp) == c.particles
      ensures forall j :: 0 <= j < |enemies| && j != i ==> enemies[j].State() == old(enemies[j].State())
    {
      sp := [];
      var e := enemies[i];
      if box.Intersects(e.box) {
        if vy > 0 {
          if !e.dead {
            sp := StompEnemy(e, tick, c);
          }
        } else if e.DoesDamage() {
          Hit(tick);
        }
      }
    }

    /** Landing on the live enemy `e`: 100 points, the bounce, the hit. */
    method StompEnemy(e: Enemy, tick: int, ghost c: Clash) returns (sp: seq<Spawn>)
      requires Valid() && e.Valid()
      requires c == Stomped(State(), e.State(), tick)
      modifies this, e, e.animation
      ensures Valid() && e.Valid()
      ensures State() == c.m && e.State() == c.enemies[0] && SpawnStates(sp) == c.particles
    {
      var text := IncreaseScore(STOMP_POINTS);
      vy := STOMP_VY;
      box := box.WithBottom(e.box.Top());
      if e.kind == Koopa {
        e.Hit(direction, tick);
        if e.hidden {
          box := box.WithBottom(e.box.Top());
        }
      } else {
        e.Hit(0, tick);
      }
      sp := [text];
    }

    /** The i-th enemy of the stomp pass, after the enemies before it left
        the pass at `c`; `c'` is where the pass stands after it. */
    method StompNext(enemies: seq<Enemy>, i: int, tick: int, sp0: seq<Spawn>, ghost es: seq<EnemyState>, ghost c: Clash)
      returns (sp: seq<Spawn>, ghost c': Clash)
      requires 0 <= i < |enemies| == |es| && |c.enemies| == i
      requires Valid() && EnemiesOk(enemies)
      requires State() == c.m && SpawnStates(sp0) == c.particles && EnemyStates(enemies) == c.enemies + es[i..]
      modifies this, animation, enemies[i], enemies[i].animation
      ensures var s := StompStep(c.m, es[i], tick);
        c' == Clash(s.m, c.enemies + s.enemies, c.particles + s.particles)
      ensures Valid() && EnemiesOk(enemies)
      ensures State() == c'.m && SpawnStates(sp) == c'.particles && EnemyStates(enemies) == c'.enemies + es[i + 1..]
    {
      assert enemies[i].State() == es[i];
      ghost var s := StompStep(c.m, es[i], tick);
      var t := StompOn(enemies, i, tick, s);
      SpawnStatesAppend(sp0, t);
      sp, c' := sp0 + t, Clash(s.m, c.enemies + s.enemies, c.particles + s.particles);
    }

    /** `__check_vertical_enemies_collision(enemies, particles)`: the score
        texts it appends are returned as requests. */
    method CheckStomps(enemies: seq<Enemy>, tick: int) returns (sp: seq<Spawn>)
      requires Valid() && EnemiesOk(enemies)
      modifies this, animation, enemies, EnemyAnimations(enemies)
      ensures Valid() && EnemiesOk(enemies)
      ensures var c := Stomps(old(State()), old(EnemyStates(enemies)), tick);
        State() == c.m && EnemyStates(enemies) == c.enemies && SpawnStates(sp) == c.particles
    {
      ghost var es := EnemyStates(enemies);
      ghost var m0 := State();
      ghost var c := Clash(m0, [], []);
      StompsFromStart(m0, es, tick);
      assert es[0..] == es;
      sp := [];
      var i := 0;
      while i < |enemies|
        invariant 0 <= i <= |enemies| && |c.enemies| == i
        invariant StompsFrom(c, es, i, tick) == Stomps(m0, es, tick)
        invariant Valid() && EnemiesOk(enemies)
        invariant State() == c.m && SpawnStates(sp) == c.particles && EnemyStates(enemies) == c.enemies + es[i..]
      {
        sp, c := StompNext(enemies, i, tick, sp, es, c);
        i := i + 1;
      }
      assert es[i..] == [] && c.enemies + es[i..] == c.enemies;
    }

    /** One item of `__check_items_collision`: the score text of a pickup is
        returned as a request. */
    method PickupOn(items: seq<Item>, i: int, tick: int, ghost c: Pickup) returns (sp: seq<Spawn>)
      requires 0 <= i < |items| && Valid() && ItemsOk(items)
      requires c == PickupStep(State(), items[i].State(), tick)
      modifies this, animation, items[i]
      ensures Valid() && ItemsOk(items)
      ensures State() == c.m && items[i].State() == c.items[0] && SpawnStates(sp) == c.particles
      ensures forall j :: 0 <= j < |items| && j != i ==> items[j].State() == old(items[j].State())
    {
      sp := [];
      var it := items[i];
      if it.mushroom && box.Intersects(it.box) {
        it.Use();
        Grow(tick);
        var text := IncreaseScore(MUSHROOM_POINTS);
        sp := [text];
      }
    }

    /** The i-th item of the item pass that starts from `m0` over the
        snapshots `its`, whose result is `final`. */
    method PickupAt(items: seq<Item>, i: int, tick: int, sp0: seq<Spawn>,
                    ghost m0: MarioState, ghost its: seq<ItemState>, ghost final: Pickup)
      returns (sp: seq<Spawn>)
      requires 0 <= i < |items| == |its| && final == Pickups(m0, its, tick)
      requires Valid() && ItemsOk(items)
      requires State() == Pickups(m0, its[..i], tick).m
      requires SpawnStates(sp0) == Pickups(m0, its[..i], tick).particles
      requires ItemStates(items) == final.items[..i] + its[i..]
      modifies this, animation, items[i]
      ensures Valid() && ItemsOk(items)
      ensures State() == Pickups(m0, its[..i + 1], tick).m
      ensures SpawnStates(sp) == Pickups(m0, its[..i + 1], tick).particles
      ensures ItemStates(items) == final.items[..i + 1] + its[i + 1..]
    {
      ghost var before := ItemStates(items);
      assert items[i].State() == before[i] == its[i];
      ghost var c := PickupStep(Pickups(m0, its[..i], tick).m, its[i], tick);
      PickupsStep(m0, its, i, tick);
      PickupsItemAt(m0, its, i, tick);
      var s := PickupOn(items, i, tick, c);
      SpawnStatesAppend(sp0, s);
      sp := sp0 + s;
      Replaced(ItemStates(items), before, i, final.items[i]);
      Advanced(final.items, its, i, ItemStates(items));
    }

    /** `__check_items_collision(items, particles)`: the score texts it
        appends are returned as requests. */
    method CheckPickups(items: seq<Item>, tick: int) returns (sp: seq<Spawn>)
      requires Valid() && ItemsOk(items)
      modifies this, animation, items
      ensures Valid() && ItemsOk(items)
      ensures var c := Pickups(old(State()), old(ItemStates(items)), tick);
        State() == c.m && ItemStates(items) == c.items && SpawnStates(sp) == c.particles
    {
      ghost var its := ItemStates(items);
      ghost var m0 := State();
      ghost var final := Pickups(m0, its, tick);
      sp := [];
      var i := 0;
      NothingAhead(final.items, its);
      assert its[0..] == its;
      while i < |items|
        invariant 0 <= i <= |items|
        invariant Valid() && ItemsOk(items)
        invariant State() == Pickups(m0, its[..i], tick).m
        invariant SpawnStates(sp) == Pickups(m0, its[..i], tick).particles
        invariant ItemStates(items) == final.items[..i] + its[i..]
      {
        sp := PickupAt(items, i, tick, sp, m0, its, final);
        i := i + 1;
      }
      assert |final.items| == i;
      AllTaken(its, i, final.items);
      AllTaken(final.items, i, []);
    }

    /** `__apply_gravity`. */
    method ApplyGravity()
      modifies this
      ensures State() == Gravity(old(State()))
    {
      vy := vy + GRAVITY;
      if vy > MAX_ACCELERATION {
        vy := MAX_ACCELERATION;
      }
    }

    /** The invulnerability clock of a normal frame. */
    method CountInvulnerable()
      modifies this
      ensures State() == Countdown(old(State()))
    {
      if invulnerable {
        invulnerableCount := invulnerableCount + 1;
        if invulnerableCount >= INVULNERABLE_TIME {
          invulnerable := false;
          invulnerableCount := 0;
        }
      }
    }

    /** The `can_jump` branch of a normal frame: jump, crouch or land. */
    method CheckJump(keys: Keys, tick: int)
      requires Valid()
      modifies this, animation
      ensures Valid()
      ensures State() == Controls(old(State()), keys, tick)
    {
      if canJump {
        if keys.jump {
          vy := vy - JUMP_FORCE;
        } else if keys.down && big {
          if action != Crouch {
            var _ := ChangeAction(Crouch, tick);
          }
        } else if action == Jump {
          var _ := ChangeAction(Stand, tick);
        }
      } else if action != Jump {
        var _ := ChangeAction(Jump, tick);
      }
    }

    /** `__update_walk_animation(d)`. */
    method UpdateWalkAnimation(d: int, tick: int)
      requires Valid()
      modifies this, animation
      ensures Valid()
      ensures State() == WalkAnim(old(State()), d, tick)
    {
      if canJump {
        if direction != d {
          var _ := ChangeAction(Turn, tick);
        }
        if action != Walk {
          if action == Turn {
            if animation.playedOnce {
              var _ := ChangeAction(Walk, tick);
            }
          } else {
            var _ := ChangeAction(Walk, tick);
          }
        }
      }
    }

    /** The arrow keys of a normal frame. */
    method Steer(keys: Keys, tick: int)
      requires Valid()
      modifies this, animation
      ensures Valid()
      ensures State() == Steered(old(State()), keys, tick)
    {
      vx := 0;
      if keys.left {
        WalkTowards(0, tick);
      }
      if keys.right {
        WalkTowards(1, tick);
      }
      StopWalking(tick);
    }

    /** An arrow key held. */
    method WalkTowards(d: int, tick: int)
      requires Valid() && (d == 0 || d == 1)
      modifies this, animation
      ensures Valid()
      ensures State() == Held(old(State()), d, tick)
    {
      SpeedTowards(d, tick);
      Face(d);
    }

    /** The speed towards direction `d` and the walking poses. */
    method SpeedTowards(d: int, tick: int)
      requires Valid()
      modifies this, animation
      ensures Valid()
      ensures State() == WalkAnim(old(State()).(vx := if d == 0 then -MARIO_SPEED else MARIO_SPEED), d, tick)
    {
      vx := if d == 0 then -MARIO_SPEED else MARIO_SPEED;
      UpdateWalkAnimation(d, tick);
    }

    /** Facing direction `d`. */
    method Face(d: int)
      requires Valid()
      modifies this
      ensures Valid()
      ensures State() == old(State()).(direction := d)
    {
      direction := d;
    }

    /** A walk or a turn without speed becomes a stand. */
    method StopWalking(tick: int)
      requires Valid()
      modifies this, animation
      ensures Valid()
      ensures State() == Stopped(old(State()), tick)
    {
      if vx == 0 && (action == Walk || action == Turn) {
        var _ := ChangeAction(Stand, tick);
      }
    }

    /** The start of a normal frame: clock, gravity, jump and arrows. */
    method Control(keys: Keys, tick: int)
      requires Valid()
      modifies this, animation
      ensures Valid()
      ensures State() == Controlled(old(State()), keys, tick)
    {
      CountInvulnerable();
      ApplyGravity();
      CheckJump(keys, tick);
      Steer(keys, tick);
    }

    /** The end of a normal frame: the left edge, the fall below the screen
        and the B key. */
    method Bound(keys: Keys, tick: int)
      requires Valid()
      modifies this, animation
      ensures Valid()
      ensures State() == Bounded(old(State()), keys, tick)
    {
      if box.x < 0 {
        box := box.(x := 0);
      }
      if box.y > SCREEN_HEIGHT {
        Die(tick);
      }
      if keys.b {
        vy := -JUMP_FORCE * 2;
      }
    }

    /** The end of a grow or a death. */
    method FinishAction(tick: int)
      requires Valid()
      modifies this, animation
      ensures Valid()
      ensures State() == AfterPlay(old(State()), tick)
    {
      if action == Action.Grow {
        if animation.playedOnce {
          var _ := ChangeAction(Stand, tick);
        }
      } else if action == Death {
        ApplyGravity();
        box := box.(y := box.y + vy);
      }
    }

    /** The horizontal half of a normal frame: the move by vx, the tile pass
        and the sideways enemy pass, from Mario `m0`, enemies `es` and tiles
        `ts`. */
    method MoveSideways(tiles: seq<Tile>, enemies: seq<Enemy>, tick: int,
                        ghost m0: MarioState, ghost es: seq<EnemyState>, ghost ts: seq<TileState>)
      requires Valid() && EnemiesOk(enemies)
      requires State() == m0 && EnemyStates(enemies) == es && States(tiles) == ts
      modifies this, animation, enemies, EnemyAnimations(enemies)
      ensures Valid() && EnemiesOk(enemies)
      ensures State() == Sideways(m0, es, ts, tick).m && EnemyStates(enemies) == Sideways(m0, es, ts, tick).enemies
    {
      ghost var m2 := ShiftAgainstTiles(tiles, enemies);
      CheckSideEnemies(enemies, tick);
      SidewaysSplit(m0, es, ts, tick, Shifted(m0, m0.vx, 0), m2);
    }

    /** The move by vx and the side tile pass. */
    method ShiftAgainstTiles(tiles: seq<Tile>, ghost enemies: seq<Enemy>) returns (ghost m2: MarioState)
      requires Valid() && EnemiesOk(enemies)
      modifies this
      ensures Valid() && State() == m2
      ensures EnemiesOk(enemies) && EnemyStates(enemies) == old(EnemyStates(enemies))
      ensures m2 == SidePass(Shifted(old(State()), old(State()).vx, 0), States(tiles))
    {
      Shift(vx, 0);
      CheckSideTiles(tiles);
      m2 := State();
    }

    /** A move by (dx, dy). */
    method Shift(dx: int, dy: int)
      modifies this
      ensures State() == Shifted(old(State()), dx, dy)
    {
      box := box.(x := box.x + dx, y := box.y + dy);
    }

    /** The vertical half of a normal frame from Mario `m0`, tiles `ts`,
        enemies `es` and items `its`: the move by vy, the tile pass, the
        stomp pass and the item pass over the items together with the
        Mushrooms the tile pass released, which `all` returns appended to
        `items`. */
    method MoveDownwards(tiles: seq<Tile>, enemies: seq<Enemy>, items: seq<Item>, tick: int,
                         ghost m0: MarioState, ghost ts: seq<TileState>, ghost es: seq<EnemyState>, ghost its: seq<ItemState>)
      returns (all: seq<Item>, sp: seq<Spawn>)
      requires Valid() && State() == m0 && TilesAre(tiles, ts) && EnemiesAre(enemies, es) && ItemsAre(items, its)
      requires Apart(tiles, enemies)
      modifies this, animation, tiles, enemies, EnemyAnimations(enemies), items
      ensures Valid() && TilesOk(tiles) && EnemiesOk(enemies) && ItemsOk(all)
      ensures |all| >= |items| && all[..|items|] == items
      ensures forall j :: |items| <= j < |all| ==> fresh(all[j])
      ensures var f := Downwards(m0, ts, es, its, tick);
        && State() == f.m && States(tiles) == f.tiles && EnemyStates(enemies) == f.enemies
        && ItemStates(all) == f.items && SpawnStates(sp) == f.particles
    {
      ghost var b := BumpPass(Shifted(m0.(canJump := false), 0, m0.vy), ts, tick);
      var rel, sp1 := FallOnTiles(tiles, enemies, items, tick, m0, ts, es, its);
      ghost var s := Stomps(b.m, es, tick);
      var sp2 := StompKeeping(tiles, enemies, items, tick, b.m, b.tiles, es, its);
      var sp3;
      all, sp3 := PickKeeping(tiles, enemies, items, rel, tick, s.m, b.tiles, s.enemies, its);
      SpawnStatesAppend(sp1, sp2);
      SpawnStatesAppend(sp1 + sp2, sp3);
      sp := sp1 + sp2 + sp3;
      DownwardsSplit(m0, ts, es, its, tick, b, s, Pickups(s.m, its + b.items, tick));
    }

    /** The fall and the tile pass, which leave the enemies and the items
        alone. */
    method FallOnTiles(tiles: seq<Tile>, enemies: seq<Enemy>, items: seq<Item>, tick: int,
                       ghost m0: MarioState, ghost ts: seq<TileState>, ghost es: seq<EnemyState>, ghost its: seq<ItemState>)
      returns (rel: seq<Release>, sp: seq<Spawn>)
      requires Valid() && State() == m0 && TilesAre(tiles, ts) && EnemiesItemsAre(enemies, es, items, its)
      requires Apart(tiles, enemies)
      modifies this, tiles
      ensures Valid()
      ensures var b := BumpPass(Shifted(m0.(canJump := false), 0, m0.vy), ts, tick);
        && State() == b.m && TilesAre(tiles, b.tiles) && ReleaseStates(rel) == b.items && SpawnStates(sp) == b.particles
      ensures EnemiesItemsAre(enemies, es, items, its)
    {
      StartFall();
      rel, sp := BumpKeeping(tiles, enemies, items, tick, BumpPass(State(), ts, tick), es, its);
    }

    /** The tile pass, which leaves the enemies and the items alone. */
    method BumpKeeping(tiles: seq<Tile>, enemies: seq<Enemy>, items: seq<Item>, tick: int,
                       ghost b: Bumped, ghost es: seq<EnemyState>, ghost its: seq<ItemState>)
      returns (rel: seq<Release>, sp: seq<Spawn>)
      requires Valid() && TilesOk(tiles) && EnemiesItemsAre(enemies, es, items, its)
      requires Apart(tiles, enemies) && b == BumpPass(State(), States(tiles), tick)
      modifies this, tiles
      ensures Valid() && State() == b.m && TilesAre(tiles, b.tiles)
      ensures ReleaseStates(rel) == b.items && SpawnStates(sp) == b.particles
      ensures EnemiesItemsAre(enemies, es, items, its)
    {
      rel, sp := CheckBumps(tiles, tick, b);
    }

    /** The stomp pass, which leaves the tiles and the items alone. */
    method StompKeeping(tiles: seq<Tile>, enemies: seq<Enemy>, items: seq<Item>, tick: int,
                        ghost m0: MarioState, ghost ts: seq<TileState>, ghost es: seq<EnemyState>, ghost its: seq<ItemState>)
      returns (sp: seq<Spawn>)
      requires Valid() && State() == m0 && EnemiesAre(enemies, es) && TilesItemsAre(tiles, ts, items, its)
      requires Apart(tiles, enemies)
      modifies this, animation, enemies, EnemyAnimations(enemies)
      ensures Valid()
      ensures var s := Stomps(m0, es, tick);
        State() == s.m && EnemiesAre(enemies, s.enemies) && SpawnStates(sp) == s.particles
      ensures TilesItemsAre(tiles, ts, items, its)
    {
      sp := CheckStomps(enemies, tick);
    }

    /** `ReleaseAndPick`, which leaves the tiles and the enemies alone. */
    method PickKeeping(tiles: seq<Tile>, enemies: seq<Enemy>, items: seq<Item>, rel: seq<Release>, tick: int,
                       ghost m0: MarioState, ghost ts: seq<TileState>, ghost es: seq<EnemyState>, ghost its: seq<ItemState>)
      returns (all: seq<Item>, sp: seq<Spawn>)
      requires Valid() && State() == m0 && ItemsAre(items, its) && TilesEnemiesAre(tiles, ts, enemies, es)
      requires Apart(tiles, enemies)
      modifies this, animation, items
      ensures Valid() && ItemsOk(all)
      ensures |all| >= |items| && all[..|items|] == items
      ensures forall j :: |items| <= j < |all| ==> fresh(all[j])
      ensures var p := Pickups(m0, its + ReleaseStates(rel), tick);
        State() == p.m && ItemStates(all) == p.items && SpawnStates(sp) == p.particles
      ensures TilesEnemiesAre(tiles, ts, enemies, es)
    {
      all, sp := ReleaseAndPick(items, rel, tick, m0, its);
    }

    /** The Mushrooms `rel` asks for, appended to `items` as new objects,
        then the item pass over the whole list. */
    method ReleaseAndPick(items: seq<Item>, rel: seq<Release>, tick: int, ghost m0: MarioState, ghost its: seq<ItemState>)
      returns (all: seq<Item>, sp: seq<Spawn>)
      requires Valid() && State() == m0 && ItemsAre(items, its)
      modifies this, animation, items
      ensures Valid() && ItemsOk(all)
      ensures |all| >= |items| && all[..|items|] == items
      ensures forall j :: |items| <= j < |all| ==> fresh(all[j])
      ensures var p := Pickups(m0, its + ReleaseStates(rel), tick);
        State() == p.m && ItemStates(all) == p.items && SpawnStates(sp) == p.particles
    {
      all := AppendReleased(items, rel);
      sp := CheckPickups(all, tick);
    }

    /** The frame sequencers of Mario, of the tiles and of the enemies are
        three separate groups. */
    ghost predicate Apart(tiles: seq<Tile>, enemies: seq<Enemy>)
    {
      && animation !in TileAnimations(tiles)
      && animation !in EnemyAnimations(enemies)
      && TileAnimations(tiles) !! EnemyAnimations(enemies)
    }

    /** The start of the vertical half: `can_jump` cleared, the move by
        vy. */
    method StartFall()
      modifies this
      ensures State() == Shifted(old(State()).(canJump := false), 0, old(vy))
    {
      canJump := false;
      box := box.(y := box.y + vy);
    }

    /** Every frame sequencer has one owner, so Mario's, the tiles' and the
        enemies' are apart. */
    lemma ApartByOwnership(tiles: seq<Tile>, enemies: seq<Enemy>)
      requires Valid() && TilesOk(tiles) && EnemiesOk(enemies)
      ensures Apart(tiles, enemies)
    {
      forall t | t in tiles
        ensures t.animation != animation
        ensures t.animation !in EnemyAnimations(enemies)
      {
        var i :| 0 <= i < |tiles| && tiles[i] == t;
        assert t.Valid();
      }
      forall e | e in enemies
        ensures e.animation != animation
      {
        var j :| 0 <= j < |enemies| && enemies[j] == e;
        assert e.Valid();
      }
    }

    /** A normal frame from Mario `m0`, tiles `ts`, enemies `es` and items
        `its`: controls, both halves of the move, the bounds.  `all` is the
        item list with the released Mushrooms appended. */
    method PlayFrame(tiles: seq<Tile>, enemies: seq<Enemy>, items: seq<Item>, keys: Keys, tick: int,
                     ghost m0: MarioState, ghost ts: seq<TileState>, ghost es: seq<EnemyState>, ghost its: seq<ItemState>)
      returns (all: seq<Item>, sp: seq<Spawn>)
      requires Valid() && State() == m0 && WorldAre(tiles, ts, enemies, es, items, its) && Apart(tiles, enemies)
      modifies this, animation, tiles, enemies, EnemyAnimations(enemies), items
      ensures Valid() && TilesOk(tiles) && EnemiesOk(enemies) && ItemsOk(all)
      ensures |all| >= |items| && all[..|items|] == items
      ensures forall j :: |items| <= j < |all| ==> fresh(all[j])
      ensures var f := PlayStep(m0, ts, es, its, keys, tick);
        && State() == f.m && States(tiles) == f.tiles && EnemyStates(enemies) == f.enemies
        && ItemStates(all) == f.items && SpawnStates(sp) == f.particles
    {
      ControlKeeping(tiles, enemies, items, keys, tick, ts, es, its);
      ghost var m1 := State();
      ghost var c := Sideways(m1, es, ts, tick);
      SideKeeping(tiles, enemies, items, tick, m1, ts, es, its);
      ghost var f := Downwards(c.m, ts, c.enemies, its, tick);
      all, sp := MoveDownwards(tiles, enemies, items, tick, c.m, ts, c.enemies, its);
      BoundKeeping(tiles, enemies, all, keys, tick, f.tiles, f.enemies, f.items);
      PlaySplit(m0, ts, es, its, keys, tick, m1, c, f);
    }

    /** `Control`, which leaves the three lists alone. */
    method ControlKeeping(tiles: seq<Tile>, enemies: seq<Enemy>, items: seq<Item>, keys: Keys, tick: int,
                          ghost ts: seq<TileState>, ghost es: seq<EnemyState>, ghost its: seq<ItemState>)
      requires Valid() && WorldAre(tiles, ts, enemies, es, items, its) && Apart(tiles, enemies)
      modifies this, animation
      ensures Valid() && State() == Controlled(old(State()), keys, tick)
      ensures WorldAre(tiles, ts, enemies, es, items, its)
    {
      Control(keys, tick);
    }

    /** `Bound`, which leaves the three lists alone. */
    method BoundKeeping(tiles: seq<Tile>, enemies: seq<Enemy>, items: seq<Item>, keys: Keys, tick: int,
                        ghost ts: seq<TileState>, ghost es: seq<EnemyState>, ghost its: seq<ItemState>)
      requires Valid() && WorldAre(tiles, ts, enemies, es, items, its) && Apart(tiles, enemies)
      modifies this, animation
      ensures Valid() && State() == Bounded(old(State()), keys, tick)
      ensures WorldAre(tiles, ts, enemies, es, items, its)
    {
      Bound(keys, tick);
    }

    /** The horizontal half, which leaves the tiles and the items alone. */
    method SideKeeping(tiles: seq<Tile>, enemies: seq<Enemy>, items: seq<Item>, tick: int,
                       ghost m0: MarioState, ghost ts: seq<TileState>, ghost es: seq<EnemyState>, ghost its: seq<ItemState>)
      requires Valid() && State() == m0 && EnemiesAre(enemies, es) && TilesItemsAre(tiles, ts, items, its)
      requires Apart(tiles, enemies)
      modifies this, animation, enemies, EnemyAnimations(enemies)
      ensures Valid() && State() == Sideways(m0, es, ts, tick).m
      ensures EnemiesAre(enemies, Sideways(m0, es, ts, tick).enemies)
      ensures TilesItemsAre(tiles, ts, items, its)
    {
      MoveSideways(tiles, enemies, tick, m0, es, ts);
    }

    /** A frame at the bottom of the pole: the walk to the castle. */
    method WalkCastle(tiles: seq<Tile>, tick: int, ghost w: Bumped) returns (rel: seq<Release>, sp: seq<Spawn>)
      requires Valid() && TilesOk(tiles) && animation !in TileAnimations(tiles)
      requires w == WalkToCastle(State(), States(tiles), tick)
      modifies this, animation, tiles
      ensures Valid() && TilesOk(tiles)
      ensures State() == w.m && States(tiles) == w.tiles && ReleaseStates(rel) == w.items && SpawnStates(sp) == w.particles
    {
      ghost var m0, ts := State(), States(tiles);
      CastleStep(tiles, tick, ts);
      ghost var c := State();
      ghost var b := BumpPass(c, ts, tick);
      rel, sp := BumpToDoor(tiles, tick, b);
      WalkToCastleSplit(m0, ts, tick, c, b);
    }

    /** The tile pass of the walk to the castle, then the door test. */
    method BumpToDoor(tiles: seq<Tile>, tick: int, ghost b: Bumped) returns (rel: seq<Release>, sp: seq<Spawn>)
      requires Valid() && TilesOk(tiles) && b == BumpPass(State(), States(tiles), tick)
      modifies this, tiles
      ensures Valid() && TilesAre(tiles, b.tiles) && ReleaseStates(rel) == b.items && SpawnStates(sp) == b.particles
      ensures State() == b.m.(finishingInsideCastle := b.m.finishingInsideCastle || b.m.box.x >= CASTLE_DOOR_X)
    {
      rel, sp := CheckBumps(tiles, tick, b);
      EnterCastle(tiles, b.tiles);
    }

    /** Past the castle door Mario is inside the castle; nothing else
        changes. */
    method EnterCastle(tiles: seq<Tile>, ghost ts: seq<TileState>)
      requires Valid() && TilesAre(tiles, ts)
      modifies this
      ensures Valid() && TilesAre(tiles, ts)
      ensures State() == old(State()).(finishingInsideCastle := old(finishingInsideCastle) || old(box.x) >= CASTLE_DOOR_X)
    {
      finishingInsideCastle := finishingInsideCastle || box.x >= CASTLE_DOOR_X;
    }


    /** The steps of the walk to the castle before the tile pass, which leave
        the tiles alone. */
    method CastleStep(tiles: seq<Tile>, tick: int, ghost ts: seq<TileState>)
      requires Valid() && TilesAre(tiles, ts) && animation !in TileAnimations(tiles)
      modifies this, animation
      ensures Valid() && State() == CastleWalk(old(State()), tick) && TilesAre(tiles, ts)
    {
      CastleMove(tick);
    }

    /** The move of the walk to the castle: four pixels to the right, onto
        the ground past the pole, the walking pose, gravity. */
    method CastleMove(tick: int)
      requires Valid()
      modifies this, animation
      ensures Valid() && State() == CastleWalk(old(State()), tick)
    {
      HeadForCastle();
      Pose(Walk, tick);
      ApplyGravity();
      Shift(0, vy);
    }

    /** The move towards the castle, before the walking pose. */
    method HeadForCastle()
      modifies this
      ensures State() == TowardsCastle(old(State()))
    {
      box := box.(x := box.x + MARIO_SPEED);
      if box.x >= POLE_PASSED_X {
        direction := 1;
        box := box.WithBottom(CASTLE_GROUND);
      } else {
        direction := 0;
      }
    }

    /** `change_action(a)` unless Mario is in action `a` already. */
    method Pose(a: Action, tick: int)
      requires Valid()
      modifies this, animation
      ensures Valid() && State() == Posed(old(State()), a, tick)
    {
      if action != a {
        var _ := ChangeAction(a, tick);
      }
    }

    /** A frame on the flag pole; a pole at y = 0 makes the bonus divide by
        zero, reported as the error and changing nothing. */
    method PoleFrame(tiles: seq<Tile>, tick: int, ghost r: (Bumped, Option<PyError>))
      returns (rel: seq<Release>, sp: seq<Spawn>, err: Option<PyError>)
      requires Valid() && TilesOk(tiles) && animation !in TileAnimations(tiles)
      requires r == PoleStep(State(), States(tiles), tick)
      modifies this, animation, tiles
      ensures Valid() && TilesOk(tiles)
      ensures State() == r.0.m && States(tiles) == r.0.tiles && ReleaseStates(rel) == r.0.items
      ensures SpawnStates(sp) == r.0.particles && err == r.1
    {
      if (big && box.y < POLE_BASE) || (!big && box.y - box.height < POLE_BASE) {
        rel, sp := PoleSlide(tiles, tick, r.0);
        err := None;
      } else if !landingScoreAdded {
        rel, sp, err := BonusFrame(tiles, tick, r);
      } else {
        rel, sp := WalkCastle(tiles, tick, r.0);
        err := None;
      }
    }

    /** Sliding down the pole in the grab pose, then the tile pass. */
    method PoleSlide(tiles: seq<Tile>, tick: int, ghost b: Bumped) returns (rel: seq<Release>, sp: seq<Spawn>)
      requires Valid() && TilesOk(tiles) && animation !in TileAnimations(tiles)
      requires b == BumpPass(Shifted(Posed(State(), Grab, tick), 0, POLE_SLIDE), States(tiles), tick)
      modifies this, animation, tiles
      ensures Valid() && TilesOk(tiles)
      ensures State() == b.m && States(tiles) == b.tiles && ReleaseStates(rel) == b.items && SpawnStates(sp) == b.particles
    {
      SlideStep(tiles, tick, States(tiles));
      rel, sp := CheckBumps(tiles, tick, b);
    }

    /** The slide before the tile pass, which leaves the tiles alone. */
    method SlideStep(tiles: seq<Tile>, tick: int, ghost ts: seq<TileState>)
      requires Valid() && TilesAre(tiles, ts) && animation !in TileAnimations(tiles)
      modifies this, animation
      ensures Valid() && TilesAre(tiles, ts)
      ensures State() == Shifted(Posed(old(State()), Grab, tick), 0, POLE_SLIDE)
    {
      Pose(Grab, tick);
      Shift(0, POLE_SLIDE);
    }

    /** The first frame at the bottom of the pole: the bonus, or the
        division by zero of a pole at y = 0. */
    method BonusFrame(tiles: seq<Tile>, tick: int, ghost r: (Bumped, Option<PyError>))
      returns (rel: seq<Release>, sp: seq<Spawn>, err: Option<PyError>)
      requires Valid() && TilesOk(tiles) && animation !in TileAnimations(tiles)
      requires !OnPole(State()) && !landingScoreAdded && r == PoleStep(State(), States(tiles), tick)
      modifies this, animation, tiles
      ensures Valid() && TilesOk(tiles)
      ensures State() == r.0.m && States(tiles) == r.0.tiles && ReleaseStates(rel) == r.0.items
      ensures SpawnStates(sp) == r.0.particles && err == r.1
    {
      var bonus := FlagBonus(landingFlagPoleY);
      if bonus.Err? {
        rel, sp, err := [], [], Some(bonus.error);
      } else {
        rel, sp := PayAndWalk(tiles, tick, bonus.value, r.0);
        err := None;
      }
    }

    /** The bonus paid with its score text, then the walk to the castle. */
    method PayAndWalk(tiles: seq<Tile>, tick: int, bonus: int, ghost b: Bumped) returns (rel: seq<Release>, sp: seq<Spawn>)
      requires Valid() && TilesOk(tiles) && animation !in TileAnimations(tiles)
      requires b == BonusWalk(State(), States(tiles), bonus, tick)
      modifies this, animation, tiles
      ensures Valid() && TilesOk(tiles)
      ensures State() == b.m && States(tiles) == b.tiles && ReleaseStates(rel) == b.items && SpawnStates(sp) == b.particles
    {
      ghost var ts := States(tiles);
      ghost var m0 := State();
      BonusWalkSplit(m0, ts, bonus, tick);
      var text := PayBonus(tiles, bonus, ts);
      ghost var w := WalkToCastle(State(), ts, tick);
      assert b == w.(particles := [SpawnState(text)] + w.particles);
      rel, sp := WalkCastle(tiles, tick, w);
      SpawnStatesAppend([text], sp);
      sp := [text] + sp;
    }

    /** The bonus added and marked as paid; the tiles are left alone. */
    method PayBonus(tiles: seq<Tile>, bonus: int, ghost ts: seq<TileState>) returns (text: Spawn)
      requires Valid() && TilesAre(tiles, ts)
      modifies this
      ensures Valid() && TilesAre(tiles, ts)
      ensures State() == Scored(old(State()), bonus).(landingScoreAdded := true)
      ensures SpawnState(text) == ScoreTextState(old(box.x), old(box.y), bonus)
    {
      text := IncreaseScore(bonus);
      landingScoreAdded := true;
    }

    /** `update(tiles, enemies, items, particles)` at frame `tick` with input
        `keys`: the tiles and enemies are changed in place; `all` is the item
        list with what the frame appended, `spawned` the particles it
        appended, created in the order the source appends them, and `err`
        the error a pole at y = 0 raises. */
    method Update(tiles: seq<Tile>, enemies: seq<Enemy>, items: seq<Item>, keys: Keys, tick: int)
      returns (all: seq<Item>, spawned: seq<Particle>, err: Option<PyError>)
      requires Valid() && TilesOk(tiles) && EnemiesOk(enemies) && ItemsOk(items)
      modifies this, animation, tiles, enemies, EnemyAnimations(enemies), items
      ensures Valid() && TilesOk(tiles) && EnemiesOk(enemies) && ItemsOk(all) && ParticlesOk(spawned)
      ensures |all| >= |items| && all[..|items|] == items
      ensures (forall j :: |items| <= j < |all| ==> fresh(all[j])) && (forall j :: 0 <= j < |spawned| ==> fresh(spawned[j].Repr()))
      ensures var r := MarioStep(old(State()), World(old(States(tiles)), old(EnemyStates(enemies)), old(ItemStates(items)), []), keys, tick);
        && State() == r.0 && States(tiles) == r.1.tiles && EnemyStates(enemies) == r.1.enemies
        && ItemStates(all) == r.1.items && ParticleStates(spawned) == r.1.particles && err == r.2
    {
      ApartByOwnership(tiles, enemies);
      ghost var ts, es, its := States(tiles), EnemyStates(enemies), ItemStates(items);
      ghost var m := State();
      StepKeeping(tiles, enemies, items, tick, ts, es, its);
      all, spawned, err := Advance(tiles, enemies, items, keys, tick, m, ts, es, its);
    }

    /** The rest of `update` after the animation step: a pole frame or a
        frame off the pole, then the particles it asked for, created. */
    method Advance(tiles: seq<Tile>, enemies: seq<Enemy>, items: seq<Item>, keys: Keys, tick: int,
                   ghost m: MarioState, ghost ts: seq<TileState>, ghost es: seq<EnemyState>, ghost its: seq<ItemState>)
      returns (all: seq<Item>, spawned: seq<Particle>, err: Option<PyError>)
      requires Valid() && State() == m.(anim := Step(m.anim, tick))
      requires WorldAre(tiles, ts, enemies, es, items, its) && Apart(tiles, enemies)
      modifies this, animation, tiles, enemies, EnemyAnimations(enemies), items
      ensures Valid() && ParticlesOk(spawned) && |all| >= |items| && all[..|items|] == items
      ensures (forall j :: |items| <= j < |all| ==> fresh(all[j])) && (forall j :: 0 <= j < |spawned| ==> fresh(spawned[j].Repr()))
      ensures var r := MarioStep(m, World(ts, es, its, []), keys, tick);
        && State() == r.0 && WorldAre(tiles, r.1.tiles, enemies, r.1.enemies, all, r.1.items)
        && ParticleStates(spawned) == r.1.particles && err == r.2
    {
      var sp;
      all, sp, err := PoleOrPlay(tiles, enemies, items, keys, tick, m, ts, es, its);
      ghost var r := MarioStep(m, World(ts, es, its, []), keys, tick);
      spawned := SpawnKeeping(tiles, enemies, all, sp, r.0, r.1.tiles, r.1.enemies, r.1.items);
    }

    /** `SpawnAll`, which leaves Mario and the three lists alone. */
    method SpawnKeeping(tiles: seq<Tile>, enemies: seq<Enemy>, items: seq<Item>, sp: seq<Spawn>,
                        ghost m: MarioState, ghost ts: seq<TileState>, ghost es: seq<EnemyState>, ghost its: seq<ItemState>)
      returns (spawned: seq<Particle>)
      requires Valid() && State() == m && WorldAre(tiles, ts, enemies, es, items, its)
      ensures Valid() && State() == m && WorldAre(tiles, ts, enemies, es, items, its)
      ensures ParticlesOk(spawned) && ParticleStates(spawned) == SpawnStates(sp)
      ensures forall j :: 0 <= j < |spawned| ==> fresh(spawned[j].Repr())
    {
      spawned := SpawnAll(sp);
    }

    /** A pole frame or a frame off the pole, by `finishing_on_pole`. */
    method PoleOrPlay(tiles: seq<Tile>, enemies: seq<Enemy>, items: seq<Item>, keys: Keys, tick: int,
                      ghost m: MarioState, ghost ts: seq<TileState>, ghost es: seq<EnemyState>, ghost its: seq<ItemState>)
      returns (all: seq<Item>, sp: seq<Spawn>, err: Option<PyError>)
      requires Valid() && State() == m.(anim := Step(m.anim, tick))
      requires WorldAre(tiles, ts, enemies, es, items, its) && Apart(tiles, enemies)
      modifies this, animation, tiles, enemies, EnemyAnimations(enemies), items
      ensures Valid() && |all| >= |items| && all[..|items|] == items
      ensures forall j :: |items| <= j < |all| ==> fresh(all[j])
      ensures var r := MarioStep(m, World(ts, es, its, []), keys, tick);
        && State() == r.0 && WorldAre(tiles, r.1.tiles, enemies, r.1.enemies, all, r.1.items)
        && SpawnStates(sp) == r.1.particles && err == r.2
    {
      if finishingOnPole {
        all, sp, err := PoleUpdate(tiles, enemies, items, keys, tick, m, ts, es, its);
      } else {
        all, sp := PlayUpdate(tiles, enemies, items, keys, tick, m, ts, es, its);
        err := None;
      }
    }

    /** The animation step that starts every frame, which leaves the three
        lists alone. */
    method StepKeeping(tiles: seq<Tile>, enemies: seq<Enemy>, items: seq<Item>, tick: int,
                       ghost ts: seq<TileState>, ghost es: seq<EnemyState>, ghost its: seq<ItemState>)
      requires Valid() && WorldAre(tiles, ts, enemies, es, items, its) && Apart(tiles, enemies)
      modifies animation
      ensures Valid() && State() == old(State()).(anim := Step(old(State()).anim, tick))
      ensures WorldAre(tiles, ts, enemies, es, items, its)
    {
      animation.Update(tick);
    }

    /** A frame on the pole with the Mushrooms its tile pass releases
        appended to the items; the enemies are left alone. */
    method PoleUpdate(tiles: seq<Tile>, enemies: seq<Enemy>, items: seq<Item>, ghost keys: Keys, tick: int,
                      ghost m: MarioState, ghost ts: seq<TileState>, ghost es: seq<EnemyState>, ghost its: seq<ItemState>)
      returns (all: seq<Item>, sp: seq<Spawn>, err: Option<PyError>)
      requires Valid() && State() == m.(anim := Step(m.anim, tick)) && m.finishingOnPole
      requires WorldAre(tiles, ts, enemies, es, items, its) && Apart(tiles, enemies)
      modifies this, animation, tiles
      ensures Valid() && |all| >= |items| && all[..|items|] == items
      ensures forall j :: |items| <= j < |all| ==> fresh(all[j])
      ensures var r := MarioStep(m, World(ts, es, its, []), keys, tick);
        && State() == r.0 && WorldAre(tiles, r.1.tiles, enemies, r.1.enemies, all, r.1.items)
        && SpawnStates(sp) == r.1.particles && err == r.2
    {
      ghost var p := PoleStep(State(), ts, tick);
      var rel;
      rel, sp, err := PoleKeeping(tiles, enemies, items, tick, p, es, its);
      all := AppendReleased(items, rel);
      MarioStepOnPole(m, World(ts, es, its, []), keys, tick);
      assert [] + p.0.particles == p.0.particles;
    }

    /** `PoleFrame`, which leaves the enemies and items alone. */
    method PoleKeeping(tiles: seq<Tile>, enemies: seq<Enemy>, items: seq<Item>, tick: int,
                       ghost r: (Bumped, Option<PyError>), ghost es: seq<EnemyState>, ghost its: seq<ItemState>)
      returns (rel: seq<Release>, sp: seq<Spawn>, err: Option<PyError>)
      requires Valid() && TilesOk(tiles) && EnemiesItemsAre(enemies, es, items, its) && Apart(tiles, enemies)
      requires r == PoleStep(State(), States(tiles), tick)
      modifies this, animation, tiles
      ensures Valid() && TilesAre(tiles, r.0.tiles) && EnemiesItemsAre(enemies, es, items, its)
      ensures State() == r.0.m && ReleaseStates(rel) == r.0.items && SpawnStates(sp) == r.0.particles && err == r.1
    {
      rel, sp, err := PoleFrame(tiles, tick, r);
    }

    /** A frame off the pole: a normal frame unless Mario is growing or
        dying, then the end of a grow or a death. */
    method PlayUpdate(tiles: seq<Tile>, enemies: seq<Enemy>, items: seq<Item>, keys: Keys, tick: int,
                      ghost m: MarioState, ghost ts: seq<TileState>, ghost es: seq<EnemyState>, ghost its: seq<ItemState>)
      returns (all: seq<Item>, sp: seq<Spawn>)
      requires Valid() && State() == m.(anim := Step(m.anim, tick)) && !m.finishingOnPole
      requires WorldAre(tiles, ts, enemies, es, items, its) && Apart(tiles, enemies)
      modifies this, animation, tiles, enemies, EnemyAnimations(enemies), items
      ensures Valid() && |all| >= |items| && all[..|items|] == items
      ensures forall j :: |items| <= j < |all| ==> fresh(all[j])
      ensures var r := MarioStep(m, World(ts, es, its, []), keys, tick);
        && State() == r.0 && WorldAre(tiles, r.1.tiles, enemies, r.1.enemies, all, r.1.items)
        && SpawnStates(sp) == r.1.particles && r.2.None?
    {
      ghost var f := Played(State(), ts, es, its, keys, tick);
      all, sp := PlayOrWait(tiles, enemies, items, keys, tick, State(), ts, es, its);
      FinishKeeping(tiles, enemies, all, tick, f.tiles, f.enemies, f.items);
      MarioStepOffPole(m, World(ts, es, its, []), keys, tick);
      assert [] + f.particles == f.particles;
    }

    /** A normal frame, or nothing while Mario is growing or dying. */
    method PlayOrWait(tiles: seq<Tile>, enemies: seq<Enemy>, items: seq<Item>, keys: Keys, tick: int,
                      ghost m0: MarioState, ghost ts: seq<TileState>, ghost es: seq<EnemyState>, ghost its: seq<ItemState>)
      returns (all: seq<Item>, sp: seq<Spawn>)
      requires Valid() && State() == m0 && WorldAre(tiles, ts, enemies, es, items, its) && Apart(tiles, enemies)
      modifies this, animation, tiles, enemies, EnemyAnimations(enemies), items
      ensures Valid() && |all| >= |items| && all[..|items|] == items
      ensures forall j :: |items| <= j < |all| ==> fresh(all[j])
      ensures var f := Played(m0, ts, es, its, keys, tick);
        && State() == f.m && WorldAre(tiles, f.tiles, enemies, f.enemies, all, f.items)
        && SpawnStates(sp) == f.particles
    {
      if action != Action.Grow && action != Death {
        all, sp := PlayFrame(tiles, enemies, items, keys, tick, m0, ts, es, its);
      } else {
        all, sp := items, [];
      }
    }

    /** `FinishAction`, which leaves the three lists alone. */
    method FinishKeeping(tiles: seq<Tile>, enemies: seq<Enemy>, items: seq<Item>, tick: int,
                         ghost ts: seq<TileState>, ghost es: seq<EnemyState>, ghost its: seq<ItemState>)
      requires Valid() && WorldAre(tiles, ts, enemies, es, items, its) && Apart(tiles, enemies)
      modifies this, animation
      ensures Valid() && State() == AfterPlay(old(State()), tick)
      ensures WorldAre(tiles, ts, enemies, es, items, its)
    {
      FinishAction(tick);
    }
  }
}

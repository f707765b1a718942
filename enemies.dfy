/**
 * The enemies of enemies.py: the Goomba, which walks, turns at walls and
 * dies when crushed, and the KoopaTroopa, which patrols a band around its
 * spawn point, hides in its shell when stomped and, kicked, slides and
 * breaks blocks.  The two subclasses of Enemy become one class with a
 * `kind` tag; every update is proved against a function on `EnemyState`
 * that mirrors the source method by method.
 */
module Enemies {
  import opened Settings
  import opened Sprites
  import opened Animations
  import opened Collisions
  import opened Entities
  import opened LevelTiles
  import opened TilePasses

  datatype EnemyKind = Goomba | Koopa

  /** Hold delay of the walking frames (FPS / 2). */
  const WALK_DELAY: int := FPS / 2
  const GOOMBA_FRAMES: seq<Image> := [Image(0, 0, 16, 16, 1), Image(16, 0, 16, 16, 1)]
  /** The squashed Goomba, shown alone once it is hit. */
  const GOOMBA_DEAD: Image := Image(32, 0, 16, 16, 1)
  const KOOPA_FRAMES: seq<Image> := [Image(0, 16, 16, 24, 1), Image(16, 16, 16, 24, 1)]
  /** Horizontal speed of a kicked shell. */
  const SHELL_SPEED: int := 6

  /** A snapshot of an enemy.  `hidden`, `initX` and `shellMoving` only mean
      something for a KoopaTroopa. */
  datatype EnemyState = EnemyState(
    kind: EnemyKind, box: Sprite, direction: int, dead: bool, vx: int, vy: int,
    speed: int, hidden: bool, initX: int, shellMoving: bool, anim: AnimState)
  {
    /** `does_damage`: a Goomba hurts while alive; a KoopaTroopa hurts while
        walking, and in its shell only while the shell moves. */
    predicate DoesDamage()
    {
      if kind == Koopa then !hidden || vx != 0 || vy != 0 else !dead
    }
  }

  /** `Goomba(x, y)` created at frame `tick`. */
  function GoombaState(x: int, y: int, tick: int): (s: EnemyState)
    ensures s.kind == Goomba && s.box == Sprite(x, y, 16, 16) && s.speed == GOOMBA_SPEED
    ensures s.direction == 0 && !s.dead && s.vx == 0 && s.vy == 0 && s.DoesDamage()
    ensures s.anim == AnimState(GOOMBA_FRAMES, 0, tick, WALK_DELAY, false)
  {
    EnemyState(Goomba, Sprite(x, y, 16, 16), 0, false, 0, 0, GOOMBA_SPEED, false, 0, false,
               AnimState(GOOMBA_FRAMES, 0, tick, WALK_DELAY, false))
  }

  /** `KoopaTroopa(x, y)` created at frame `tick`: 24 pixels tall, walking,
      patrolling around x. */
  function KoopaState(x: int, y: int, tick: int): (s: EnemyState)
    ensures s.kind == Koopa && s.box == Sprite(x, y, 16, 24) && s.speed == KOOPA_SPEED && s.initX == x
    ensures s.direction == 0 && !s.dead && !s.hidden && !s.shellMoving && s.DoesDamage()
    ensures s.anim == AnimState(KOOPA_FRAMES, 0, tick, WALK_DELAY, false)
  {
    EnemyState(Koopa, Sprite(x, y, 16, 24), 0, false, 0, 0, KOOPA_SPEED, false, x, false,
               AnimState(KOOPA_FRAMES, 0, tick, WALK_DELAY, false))
  }

  /** `Goomba.hit` at frame `tick`: show the squashed frame and die. */
  function Crush(s: EnemyState, tick: int): (r: EnemyState)
    ensures r.dead && r.anim == WithFrames(s.anim, [GOOMBA_DEAD], tick)
    ensures r.(dead := s.dead, anim := s.anim) == s
  {
    s.(anim := WithFrames(s.anim, [GOOMBA_DEAD], tick), dead := true)
  }

  /** `hit(direction)` at frame `tick`.  A KoopaTroopa hides on the first hit
      (and stops); once hidden, each hit starts or stops the shell and turns
      it to `direction`. */
  function Struck(s: EnemyState, direction: int, tick: int): EnemyState
  {
    if s.kind == Goomba then Crush(s, tick)
    else if s.hidden then s.(shellMoving := !s.shellMoving, direction := direction)
    else s.(hidden := true, vx := 0)
  }

  /** `Enemy.update`: an enemy that has fallen below the screen is dead. */
  function Fallen(s: EnemyState): (r: EnemyState)
    ensures r.dead == (s.dead || s.box.y > SCREEN_HEIGHT)
    ensures r.(dead := s.dead) == s
  {
    if s.box.y > SCREEN_HEIGHT then s.(dead := true) else s
  }

  /** The facing direction as a horizontal velocity of magnitude `speed`. */
  function Heading(direction: int, speed: int): (v: int)
    ensures direction == 0 ==> v == -speed
    ensures direction != 0 ==> v == speed
  {
    if direction == 0 then -speed else speed
  }

  /** A living Goomba's gravity, walking velocity and horizontal move. */
  function Walk(s: EnemyState): EnemyState
  {
    var vx := Heading(s.direction, s.speed);
    s.(vy := Fall(s.vy, MAX_ACCELERATION), vx := vx, box := s.box.(x := s.box.x + vx))
  }

  /** The vertical move by the current vertical velocity. */
  function Drop(s: EnemyState): EnemyState
  {
    s.(box := s.box.(y := s.box.y + s.vy))
  }

  /** `Goomba._check_horizontal_collisions`. */
  function Turned(s: EnemyState, ts: seq<TileState>): EnemyState
  {
    var (b, d) := TurnPass(s.box, s.direction, Boxes(ts));
    s.(box := b, direction := d)
  }

  /** One tile of `Goomba._check_vertical_collisions`: landing while falling
      on a Block that is broken or bouncing kills the Goomba. */
  function GoombaLandStep(s: EnemyState, t: TileState, tick: int): EnemyState
  {
    if !s.box.Intersects(t.box) then s
    else
      var landed := s.(box := LandStep(s.box, s.vy, t.box), vy := 0);
      if s.vy > 0 && t.kind == Block && (t.broken || t.bouncing) then Crush(landed, tick) else landed
  }

  function GoombaLand(s: EnemyState, ts: seq<TileState>, tick: int): EnemyState
    decreases |ts|
  {
    if ts == [] then s
    else GoombaLandStep(GoombaLand(s, ts[..|ts| - 1], tick), ts[|ts| - 1], tick)
  }

  /** Whether another enemy kills a Goomba at `box`: a KoopaTroopa shell that
      does damage and overlaps it. */
  predicate ShellThreat(box: Sprite, e: EnemyState)
  {
    e.kind == Koopa && e.hidden && e.DoesDamage() && box.Intersects(e.box)
  }

  /** `Goomba._check_other_enemy_collision` over the other enemies. */
  function GoombaShells(s: EnemyState, others: seq<EnemyState>, tick: int): EnemyState
    decreases |others|
  {
    if others == [] then s
    else
      var r := GoombaShells(s, others[..|others| - 1], tick);
      if ShellThreat(r.box, others[|others| - 1]) then Crush(r, tick) else r
  }

  /** `GoombaShells` over one more enemy. */
  lemma GoombaShellsSnoc(s: EnemyState, others: seq<EnemyState>, e: EnemyState, tick: int)
    ensures var r := GoombaShells(s, others, tick);
      GoombaShells(s, others + [e], tick) == if ShellThreat(r.box, e) then Crush(r, tick) else r
  {
    assert (others + [e])[..|others|] == others;
  }

  /** `Goomba.update` at frame `tick` against the tiles and the other enemies. */
  function GoombaStep(s: EnemyState, ts: seq<TileState>, others: seq<EnemyState>, tick: int): EnemyState
  {
    var s1 := Fallen(s).(anim := Step(s.anim, tick));
    if s1.dead then s1
    else GoombaShells(GoombaLand(Drop(Turned(Walk(s1), ts)), ts, tick), others, tick)
  }

  /** Whether x has left the band of KOOPA_AREA pixels around initX. */
  predicate OutOfArea(s: EnemyState)
  {
    s.initX - s.box.x > KOOPA_AREA || s.box.x - s.initX > KOOPA_AREA
  }

  /** A KoopaTroopa's gravity, direction, velocity and horizontal move. */
  function Steer(s: EnemyState): EnemyState
  {
    var vy := Fall(s.vy, MAX_ACCELERATION);
    var d := if !s.hidden && OutOfArea(s) then Flip(s.direction) else s.direction;
    var vx := if !s.hidden then Heading(d, s.speed)
              else if s.shellMoving then Heading(d, SHELL_SPEED)
              else 0;
    s.(vy := vy, direction := d, vx := vx, box := s.box.(x := s.box.x + vx))
  }

  /** Whether the KoopaTroopa's horizontal pass, started at `box` facing
      `direction`, destroys tile j: the pass turns at every tile it touches
      exactly as a walker does, and when `shell` (the enemy is a moving
      shell) it destroys each breakable Block it touches on the way. */
  predicate Breaks(box: Sprite, direction: int, shell: bool, ts: seq<TileState>, j: int)
    requires 0 <= j < |ts|
  {
    && shell && ts[j].kind == Block && ts[j].breakable
    && TurnPass(box, direction, Boxes(ts[..j])).0.Intersects(ts[j].box)
  }

  /** The tile states after `KoopaTroopa._check_horizontal_collisions`. */
  function Swept(box: Sprite, direction: int, shell: bool, ts: seq<TileState>): (r: seq<TileState>)
    ensures |r| == |ts|
    ensures forall j :: 0 <= j < |ts| ==>
      r[j] == if Breaks(box, direction, shell, ts, j) then Destroyed(ts[j]) else ts[j]
  {
    seq(|ts|, j requires 0 <= j < |ts| =>
      if Breaks(box, direction, shell, ts, j) then Destroyed(ts[j]) else ts[j])
  }

  /** Whether the enemy is a kicked KoopaTroopa shell. */
  predicate Shell(s: EnemyState)
  {
    s.hidden && s.shellMoving
  }

  /** `KoopaTroopa._check_vertical_collisions`. */
  function Settled(s: EnemyState, ts: seq<TileState>): EnemyState
  {
    var (b, v) := SettlePass(s.box, s.vy, Boxes(ts));
    s.(box := b, vy := v)
  }

  /** `KoopaTroopa.update` at frame `tick`: the new enemy and the new tile
      states. */
  function KoopaStep(s: EnemyState, ts: seq<TileState>, tick: int): (EnemyState, seq<TileState>)
  {
    var s1 := Steer(Fallen(s).(anim := Step(s.anim, tick)));
    var ts2 := Swept(s1.box, s1.direction, Shell(s1), ts);
    (Settled(Drop(Turned(s1, ts)), ts2), ts2)
  }

  /** Hitting a Goomba twice in the same frame is the same as hitting it
      once. */
  lemma GoombaHitIdempotent(s: EnemyState, d1: int, d2: int, tick: int)
    requires s.kind == Goomba
    ensures Struck(Struck(s, d1, tick), d2, tick) == Struck(s, d1, tick)
    ensures Struck(s, d1, tick).dead && !Struck(s, d1, tick).DoesDamage()
  {
  }

  /** The first hit hides a walking KoopaTroopa and stops it; a hit on a
      resting shell kicks it towards `direction`, so that its next update
      moves it at SHELL_SPEED and it does damage; the hit after that stops
      it again. */
  lemma KoopaHitCycle(s: EnemyState, direction: int, tick: int)
    requires s.kind == Koopa && !s.hidden && !s.shellMoving
    requires direction == 0 || direction == 1
    ensures var h := Struck(s, 0, tick);
      h.hidden && !h.shellMoving && h.vx == 0 && h.box == s.box
    ensures var k := Struck(Struck(s, 0, tick), direction, tick);
      && k.hidden && k.shellMoving && k.direction == direction
      && Steer(k).vx == (if direction == 0 then -SHELL_SPEED else SHELL_SPEED)
      && Steer(k).DoesDamage()
    ensures var k := Struck(Struck(s, 0, tick), direction, tick);
      var stop := Struck(k, direction, tick);
      stop.hidden && !stop.shellMoving && Steer(stop).vx == 0
  {
  }

  /** A dead Goomba no longer moves: an update only steps its animation. */
  lemma DeadGoombaStill(s: EnemyState, ts: seq<TileState>, others: seq<EnemyState>, tick: int)
    requires s.kind == Goomba && s.dead
    ensures GoombaStep(s, ts, others, tick) == s.(anim := Step(s.anim, tick))
  {
  }

  /** A Goomba squashed at frame t0 (walking delay FPS / 2) shows its single
      squashed frame until the 16th update after it, which sets
      `played_once`: the level removes it then. */
  lemma CorpseLifetime(s: EnemyState, t0: int, k: nat)
    requires s.anim.delay == WALK_DELAY
    ensures Run(Crush(s, t0).anim, t0, k).playedOnce <== k == 16
    ensures !Run(Crush(s, t0).anim, t0, k).playedOnce <== k < 16
  {
    FirstPlayedOnce(s.anim, [GOOMBA_DEAD], t0);
  }

  /** The Goomba's vertical pass moves it exactly as the enemies' settle pass
      does; apart from its rectangle, vertical speed, flag and frames nothing
      changes, and the frames change only when it dies by landing on a broken
      or bouncing Block. */
  lemma {:induction false} GoombaLandSettles(s: EnemyState, ts: seq<TileState>, tick: int)
    ensures var r := GoombaLand(s, ts, tick);
      && (r.box, r.vy) == SettlePass(s.box, s.vy, Boxes(ts))
      && r.(box := s.box, vy := s.vy, dead := s.dead, anim := s.anim) == s
      && (r.dead <==> s.dead || r.anim != s.anim || (r.anim == s.anim && r.dead))
      && (r.anim == s.anim || (r.dead && r.anim == WithFrames(s.anim, [GOOMBA_DEAD], tick)))
      && (s.dead ==> r.dead)
    decreases |ts|
  {
    if ts != [] {
      var init := ts[..|ts| - 1];
      GoombaLandSettles(s, init, tick);
      assert Boxes(ts)[..|ts| - 1] == Boxes(init);
    }
  }

  /** A falling Goomba that lands on a broken or bouncing Block stands on it
      and is dead. */
  lemma CrushedByBlock(s: EnemyState, t: TileState, tick: int)
    requires s.box.Intersects(t.box) && s.vy > 0
    requires t.kind == Block && (t.broken || t.bouncing)
    ensures var r := GoombaLandStep(s, t, tick);
      r.dead && r.box.Bottom() == t.box.Top() && r.vy == 0 && r.anim.frames == [GOOMBA_DEAD]
  {
  }

  /** The other-enemies pass kills the Goomba exactly when some other enemy
      is a damaging shell overlapping it. */
  lemma {:induction false} GoombaShellsIff(s: EnemyState, others: seq<EnemyState>, tick: int)
    ensures GoombaShells(s, others, tick) ==
      if exists j :: 0 <= j < |others| && ShellThreat(s.box, others[j]) then Crush(s, tick) else s
    decreases |others|
  {
    if others != [] {
      var init := others[..|others| - 1];
      GoombaShellsIff(s, init, tick);
      if exists j :: 0 <= j < |init| && ShellThreat(s.box, init[j]) {
        var j :| 0 <= j < |init| && ShellThreat(s.box, init[j]);
        assert others[j] == init[j];
      } else if ShellThreat(s.box, others[|others| - 1]) {
      } else {
        forall j | 0 <= j < |others|
          ensures !ShellThreat(s.box, others[j])
        {
          if j < |init| {
            assert others[j] == init[j];
          }
        }
      }
    }
  }

  /** A living Goomba's update: it stays 16 x 16, falls no faster than
      MAX_ACCELERATION, keeps walking at its speed and faces left or right. */
  lemma GoombaStepFacts(s: EnemyState, ts: seq<TileState>, others: seq<EnemyState>, tick: int)
    requires s.kind == Goomba && !s.dead && s.box.y <= SCREEN_HEIGHT
    requires s.direction == 0 || s.direction == 1
    ensures var r := GoombaStep(s, ts, others, tick);
      && r.kind == Goomba && r.speed == s.speed
      && r.box.width == s.box.width && r.box.height == s.box.height
      && r.vy <= MAX_ACCELERATION
      && (r.vx == s.speed || r.vx == -s.speed)
      && (r.direction == 0 || r.direction == 1)
  {
    var s1 := Fallen(s).(anim := Step(s.anim, tick));
    var w := Walk(s1);
    TurnPassKeepsRow(w.box, w.direction, Boxes(ts));
    var t := Drop(Turned(w, ts));
    GoombaLandSettles(t, ts, tick);
    SettlePassStops(t.box, t.vy, Boxes(ts));
    var l := GoombaLand(t, ts, tick);
    GoombaShellsIff(l, others, tick);
  }

  /** One KoopaTroopa update: a walker moves at its speed towards its
      direction, turning first when it has left its band; a moving shell
      slides at SHELL_SPEED; a resting shell does not move sideways, and once
      it also stands still vertically it does no damage.  The size never
      changes, so a shell keeps its 24-pixel height. */
  lemma KoopaStepFacts(s: EnemyState, ts: seq<TileState>, tick: int)
    requires s.kind == Koopa
    ensures var (r, _) := KoopaStep(s, ts, tick);
      && r.kind == Koopa && r.hidden == s.hidden && r.shellMoving == s.shellMoving
      && r.box.width == s.box.width && r.box.height == s.box.height
      && r.vy <= MAX_ACCELERATION
      && (!s.hidden ==> r.vx == Heading(Steer(s).direction, s.speed))
      && (!s.hidden ==> Steer(s).direction == if OutOfArea(s) then Flip(s.direction) else s.direction)
      && (s.hidden && s.shellMoving ==> (r.vx == SHELL_SPEED || r.vx == -SHELL_SPEED))
      && (s.hidden && !s.shellMoving ==> r.vx == 0)
      && (s.hidden && !s.shellMoving && r.vy == 0 ==> !r.DoesDamage())
  {
    var s1 := Steer(Fallen(s).(anim := Step(s.anim, tick)));
    var s2 := Drop(Turned(s1, ts));
    TurnPassKeepsRow(s1.box, s1.direction, Boxes(ts));
    SettlePassStops(s2.box, s2.vy, Boxes(Swept(s1.box, s1.direction, Shell(s1), ts)));
  }

  /** A walking KoopaTroopa or a resting shell breaks nothing. */
  lemma KoopaSparesTiles(s: EnemyState, ts: seq<TileState>, tick: int)
    requires s.kind == Koopa && !(s.hidden && s.shellMoving)
    ensures KoopaStep(s, ts, tick).1 == ts
  {
  }

  class Enemy {
    const kind: EnemyKind
    var box: Sprite
    var direction: int
    var dead: bool
    var vx: int
    var vy: int
    const speed: int
    var hidden: bool
    const initX: int
    var shellMoving: bool
    const animation: Animation

    function State(): EnemyState
      reads this, animation
    {
      EnemyState(kind, box, direction, dead, vx, vy, speed, hidden, initX, shellMoving, animation.State())
    }

    ghost predicate Valid()
      reads this, animation
    {
      animation.owner == this && animation.Valid()
    }

    constructor NewGoomba(x: int, y: int, tick: int)
      ensures Valid() && fresh(animation)
      ensures State() == GoombaState(x, y, tick)
    {
      kind := Goomba;
      box := Sprite(x, y, 16, 16);
      direction := 0;
      dead := false;
      vx := 0;
      vy := 0;
      speed := GOOMBA_SPEED;
      hidden := false;
      initX := 0;
      shellMoving := false;
      animation := new Animation([], 0, tick);
      new;
      animation.SetFrames(GOOMBA_FRAMES, tick);
      animation.SetDelay(WALK_DELAY);
      animation.owner := this;
    }

    constructor NewKoopa(x: int, y: int, tick: int)
      ensures Valid() && fresh(animation)
      ensures State() == KoopaState(x, y, tick)
    {
      kind := Koopa;
      box := Sprite(x, y, 16, 24);
      direction := 0;
      dead := false;
      vx := 0;
      vy := 0;
      speed := KOOPA_SPEED;
      hidden := false;
      initX := x;
      shellMoving := false;
      animation := new Animation([], 0, tick);
      new;
      animation.SetFrames(KOOPA_FRAMES, tick);
      animation.SetDelay(WALK_DELAY);
      animation.owner := this;
    }

    /** `hit(direction)` at frame `tick`. */
    method Hit(direction: int, tick: int)
      requires Valid()
      modifies this, animation
      ensures Valid()
      ensures State() == Struck(old(State()), direction, tick)
    {
      if kind == Goomba {
        animation.SetFrames([GOOMBA_DEAD], tick);
        dead := true;
      } else if hidden {
        shellMoving := !shellMoving;
        this.direction := direction;
      } else {
        hidden := true;
        vx := 0;
      }
    }

    /** `update(tiles, enemies)` at frame `tick`.  A KoopaTroopa may destroy
        tiles; a Goomba reads the other enemies of the list. */
    method Update(tiles: seq<Tile>, enemies: seq<Enemy>, tick: int)
      requires Valid() && TilesOk(tiles) && OwnAnimations(enemies)
      modifies this, animation, tiles
      ensures Valid() && TilesOk(tiles)
      ensures kind == Goomba ==>
        && State() == GoombaStep(old(State()), old(States(tiles)), Others(enemies, old(EnemyStates(enemies)), this), tick)
        && States(tiles) == old(States(tiles))
      ensures kind == Koopa ==> (State(), States(tiles)) == KoopaStep(old(State()), old(States(tiles)), tick)
    {
      if kind == Goomba {
        UpdateGoomba(tiles, enemies, tick);
      } else {
        UpdateKoopa(tiles, tick);
      }
    }

    /** `Enemy.update` followed by the animation step: the start of both
        subclasses' updates. */
    method UpdateBase(tick: int)
      requires Valid()
      modifies this, animation
      ensures Valid()
      ensures State() == Fallen(old(State())).(anim := Step(old(State()).anim, tick))
    {
      if box.y > SCREEN_HEIGHT {
        dead := true;
      }
      animation.Update(tick);
    }

    /** `Goomba.update`. */
    method UpdateGoomba(tiles: seq<Tile>, enemies: seq<Enemy>, tick: int)
      requires Valid() && kind == Goomba && OwnAnimations(enemies)
      modifies this, animation
      ensures Valid()
      ensures State() == GoombaStep(old(State()), States(tiles), Others(enemies, old(EnemyStates(enemies)), this), tick)
    {
      ghost var all := EnemyStates(enemies);
      assert forall j :: 0 <= j < |enemies| && enemies[j] != this ==> enemies[j].animation != animation;
      UpdateBase(tick);
      if !dead {
        WalkGoomba(tiles);
        LandOnTiles(tiles, tick);
        CheckShells(enemies, tick, all);
      }
    }

    /** A living Goomba's gravity, walk, `_check_horizontal_collisions` and
        vertical move. */
    method WalkGoomba(tiles: seq<Tile>)
      modifies this
      ensures State() == Drop(Turned(Walk(old(State())), States(tiles)))
    {
      vy := Fall(vy, MAX_ACCELERATION);
      vx := Heading(direction, speed);
      box := box.(x := box.x + vx);
      TurnAtTiles(tiles);
      box := box.(y := box.y + vy);
    }

    /** `KoopaTroopa.update`. */
    method UpdateKoopa(tiles: seq<Tile>, tick: int)
      requires Valid() && kind == Koopa
      requires Distinct(tiles) && forall j :: 0 <= j < |tiles| ==> tiles[j].Valid()
      modifies this, animation, tiles
      ensures Valid() && forall j :: 0 <= j < |tiles| ==> tiles[j].Valid()
      ensures (State(), States(tiles)) == KoopaStep(old(State()), old(States(tiles)), tick)
    {
      assert forall j :: 0 <= j < |tiles| ==> tiles[j].animation != animation;
      UpdateBase(tick);
      SteerKoopa();
      CollideKoopa(tiles);
    }

    /** `KoopaTroopa._check_horizontal_collisions`, the vertical move and
        `KoopaTroopa._check_vertical_collisions`. */
    method CollideKoopa(tiles: seq<Tile>)
      requires Distinct(tiles) && forall j :: 0 <= j < |tiles| ==> tiles[j].Valid()
      modifies this, tiles
      ensures forall j :: 0 <= j < |tiles| ==> tiles[j].Valid()
      ensures var ts := old(States(tiles));
        var s := old(State());
        var ts2 := Swept(s.box, s.direction, Shell(s), ts);
        State() == Settled(Drop(Turned(s, ts)), ts2) && States(tiles) == ts2
    {
      SweepTiles(tiles);
      SettleOnTiles(tiles);
    }

    /** `KoopaTroopa._check_horizontal_collisions`. */
    method SweepTiles(tiles: seq<Tile>)
      requires Distinct(tiles) && forall j :: 0 <= j < |tiles| ==> tiles[j].Valid()
      modifies this, tiles
      ensures forall j :: 0 <= j < |tiles| ==> tiles[j].Valid()
      ensures State() == Turned(old(State()), old(States(tiles)))
      ensures States(tiles) == Swept(old(box), old(direction), Shell(old(State())), old(States(tiles)))
    {
      var b, d := SweepPass(tiles, box, direction, hidden && shellMoving);
      Face(b, d);
    }

    /** The rectangle and the direction a horizontal check leaves. */
    method Face(b: Sprite, d: int)
      modifies this
      ensures State() == old(State()).(box := b, direction := d)
    {
      box, direction := b, d;
    }

    /** The vertical move and `KoopaTroopa._check_vertical_collisions`. */
    method SettleOnTiles(tiles: seq<Tile>)
      modifies this
      ensures State() == Settled(Drop(old(State())), States(tiles))
    {
      box, vy := SettleTiles(tiles, box.(y := box.y + vy), vy);
    }

    /** The KoopaTroopa's gravity, direction and velocity choice and its
        horizontal move. */
    method SteerKoopa()
      modifies this
      ensures State() == Steer(old(State()))
    {
      vy := Fall(vy, MAX_ACCELERATION);
      if !hidden {
        if initX - box.x > KOOPA_AREA || box.x - initX > KOOPA_AREA {
          direction := Flip(direction);
        }
        vx := Heading(direction, speed);
      } else if shellMoving {
        vx := Heading(direction, SHELL_SPEED);
      } else {
        vx := 0;
      }
      box := box.(x := box.x + vx);
    }

    /** `Goomba._check_horizontal_collisions`. */
    method TurnAtTiles(tiles: seq<Tile>)
      modifies this
      ensures State() == Turned(old(State()), States(tiles))
    {
      box, direction := TurnTiles(tiles, box, direction);
    }

    /** `Goomba._check_vertical_collisions` at frame `tick`. */
    method LandOnTiles(tiles: seq<Tile>, tick: int)
      requires Valid()
      modifies this, animation
      ensures Valid()
      ensures State() == GoombaLand(old(State()), States(tiles), tick)
    {
      ghost var ts := States(tiles);
      ghost var s0 := State();
      var i := 0;
      while i < |tiles|
        invariant 0 <= i <= |tiles| && Valid()
        invariant States(tiles) == ts
        invariant State() == GoombaLand(s0, ts[..i], tick)
      {
        assert ts[..i + 1][..i] == ts[..i];
        LandOn(tiles[i], tick);
        i := i + 1;
      }
      assert ts[..|tiles|] == ts;
    }

    /** One tile of `Goomba._check_vertical_collisions`. */
    method LandOn(tile: Tile, tick: int)
      requires Valid()
      modifies this, animation
      ensures Valid()
      ensures State() == GoombaLandStep(old(State()), tile.State(), tick)
    {
      if box.Intersects(tile.box) {
        if vy > 0 {
          box := box.WithBottom(tile.box.Top());
          if tile.kind == Block && (tile.broken || tile.bouncing) {
            animation.SetFrames([GOOMBA_DEAD], tick);
            dead := true;
          }
        } else {
          box := box.WithTop(tile.box.Bottom());
        }
        vy := 0;
      }
    }

    /** `Goomba._check_other_enemy_collision` at frame `tick`, where `all`
        holds the snapshots of the enemies other than this one. */
    method CheckShells(enemies: seq<Enemy>, tick: int, ghost all: seq<EnemyState>)
      requires Valid() && |all| == |enemies|
      requires forall j :: 0 <= j < |enemies| && enemies[j] != this ==>
        enemies[j].animation != animation && enemies[j].State() == all[j]
      modifies this, animation
      ensures Valid()
      ensures State() == GoombaShells(old(State()), Others(enemies, all, this), tick)
    {
      ghost var s0 := State();
      var i := 0;
      while i < |enemies|
        invariant 0 <= i <= |enemies| && Valid()
        invariant box == s0.box
        invariant forall j :: 0 <= j < |enemies| && enemies[j] != this ==> enemies[j].State() == all[j]
        invariant State() == GoombaShells(s0, Others(enemies[..i], all[..i], this), tick)
      {
        OthersSnoc(enemies, all, this, i);
        if enemies[i] != this {
          GoombaShellsSnoc(s0, Others(enemies[..i], all[..i], this), all[i], tick);
          CheckShell(enemies[i], tick);
          assert enemies[i].State() == all[i];
        } else {
          assert Others(enemies[..i + 1], all[..i + 1], this) == Others(enemies[..i], all[..i], this);
        }
        i := i + 1;
      }
      assert enemies[..|enemies|] == enemies;
      assert all[..|enemies|] == all;
    }

    /** One other enemy of `Goomba._check_other_enemy_collision`. */
    method CheckShell(enemy: Enemy, tick: int)
      requires Valid() && enemy != this && enemy.animation != animation
      modifies this, animation
      ensures Valid()
      ensures State() ==
        if ShellThreat(old(box), enemy.State()) then Crush(old(State()), tick) else old(State())
    {
      if box.Intersects(enemy.box) {
        if enemy.kind == Koopa && enemy.hidden && enemy.DoesDamage() {
          animation.SetFrames([GOOMBA_DEAD], tick);
          dead := true;
        }
      }
    }

    /** `does_damage`. */
    predicate DoesDamage()
      reads this, animation
    {
      State().DoesDamage()
    }
  }

  /** The loop of `KoopaTroopa._check_horizontal_collisions` for a
      rectangle `box` facing `direction`; `shell` tells whether the enemy is
      a moving shell.  Returns the new rectangle and direction. */
  method SweepPass(tiles: seq<Tile>, box: Sprite, direction: int, shell: bool) returns (b: Sprite, d: int)
    requires Distinct(tiles)
    modifies tiles
    ensures (b, d) == TurnPass(box, direction, Boxes(old(States(tiles))))
    ensures States(tiles) == Swept(box, direction, shell, old(States(tiles)))
  {
    ghost var ts := States(tiles);
    ghost var boxes := Boxes(ts);
    ghost var swept := Swept(box, direction, shell, ts);
    b, d := box, direction;
    var i := 0;
    while i < |tiles|
      invariant 0 <= i <= |tiles|
      invariant (b, d) == TurnPass(box, direction, boxes[..i])
      invariant forall j :: 0 <= j < i ==> tiles[j].State() == swept[j]
      invariant forall j :: i <= j < |tiles| ==> tiles[j].State() == ts[j]
    {
      b, d := SweepTile(tiles[i], b, d, box, direction, shell, ts, i);
      assert forall j :: 0 <= j < |tiles| && j != i ==> tiles[j] != tiles[i];
      i := i + 1;
    }
    assert boxes[..|tiles|] == boxes;
  }

  /** One tile of the sweep, the i-th of the snapshots `ts`: turn at it when
      the rectangle `b` touches it, and destroy it when it is a breakable
      Block and the enemy is a moving shell. */
  method SweepTile(tile: Tile, b: Sprite, d: int, ghost box: Sprite, ghost direction: int, shell: bool,
                   ghost ts: seq<TileState>, ghost i: int)
    returns (b': Sprite, d': int)
    requires 0 <= i < |ts| && tile.State() == ts[i]
    requires (b, d) == TurnPass(box, direction, Boxes(ts)[..i])
    modifies tile
    ensures (b', d') == TurnPass(box, direction, Boxes(ts)[..i + 1])
    ensures tile.State() == Swept(box, direction, shell, ts)[i]
  {
    assert Boxes(ts)[..i + 1][..i] == Boxes(ts)[..i];
    assert Boxes(ts[..i]) == Boxes(ts)[..i];
    b', d' := b, d;
    if b.Intersects(tile.box) {
      if d == 0 {
        b' := b.WithLeft(tile.box.Right());
        d' := 1;
      } else {
        b' := b.WithRight(tile.box.Left());
        d' := 0;
      }
      if tile.kind == Block {
        if shell && tile.breakable {
          tile.Destroy();
        }
      }
    }
  }

  /** Every enemy of the list owns its animation, so no two enemies share
      one. */
  ghost predicate OwnAnimations(enemies: seq<Enemy>)
    reads enemies, set e | e in enemies :: e.animation
  {
    forall i :: 0 <= i < |enemies| ==> enemies[i].animation.owner == enemies[i]
  }

  /** Of the snapshots `states` of the list `enemies`, those of the enemies
      other than `self`, in order. */
  function Others(enemies: seq<Enemy>, states: seq<EnemyState>, self: Enemy): (r: seq<EnemyState>)
    requires |states| == |enemies|
    decreases |enemies|
  {
    if enemies == [] then []
    else
      var n := |enemies| - 1;
      Others(enemies[..n], states[..n], self) + (if enemies[n] == self then [] else [states[n]])
  }

  /** `Others` keeps exactly the snapshots at the positions where the list
      holds another enemy than `self`. */
  lemma {:induction false} OthersExactly(enemies: seq<Enemy>, states: seq<EnemyState>, self: Enemy, e: EnemyState)
    requires |states| == |enemies|
    ensures e in Others(enemies, states, self) <==>
      exists j :: 0 <= j < |enemies| && enemies[j] != self && states[j] == e
    decreases |enemies|
  {
    if enemies != [] {
      var n := |enemies| - 1;
      var tail := if enemies[n] == self then [] else [states[n]];
      assert Others(enemies, states, self) == Others(enemies[..n], states[..n], self) + tail;
      OthersExactly(enemies[..n], states[..n], self, e);
      if exists j :: 0 <= j < n && enemies[..n][j] != self && states[..n][j] == e {
        var j :| 0 <= j < n && enemies[..n][j] != self && states[..n][j] == e;
        assert enemies[j] != self && states[j] == e;
      }
      if exists j :: 0 <= j < |enemies| && enemies[j] != self && states[j] == e {
        var j :| 0 <= j < |enemies| && enemies[j] != self && states[j] == e;
        if j < n {
          assert enemies[..n][j] != self && states[..n][j] == e;
        }
      }
    }
  }

  /** `Others` over one more position of the list. */
  lemma OthersSnoc(enemies: seq<Enemy>, states: seq<EnemyState>, self: Enemy, i: int)
    requires |states| == |enemies| && 0 <= i < |enemies|
    ensures Others(enemies[..i + 1], states[..i + 1], self) ==
      Others(enemies[..i], states[..i], self) + (if enemies[i] == self then [] else [states[i]])
  {
    assert enemies[..i + 1][..i] == enemies[..i];
    assert states[..i + 1][..i] == states[..i];
  }

  /** What `self`'s own snapshot is does not matter to `Others`. */
  lemma {:induction false} OthersIgnoreSelf(enemies: seq<Enemy>, a: seq<EnemyState>, b: seq<EnemyState>, self: Enemy)
    requires |a| == |enemies| && |b| == |enemies|
    requires forall j :: 0 <= j < |enemies| && enemies[j] != self ==> a[j] == b[j]
    ensures Others(enemies, a, self) == Others(enemies, b, self)
    decreases |enemies|
  {
    if enemies != [] {
      var n := |enemies| - 1;
      OthersIgnoreSelf(enemies[..n], a[..n], b[..n], self);
    }
  }

  /** The animations of the enemies of a list. */
  function EnemyAnimations(enemies: seq<Enemy>): set<Animation>
  {
    set e | e in enemies :: e.animation
  }

  /** An enemy list as the level keeps it: every enemy keeps its invariant
      and no enemy appears twice. */
  ghost predicate EnemiesOk(enemies: seq<Enemy>)
    reads enemies, EnemyAnimations(enemies)
  {
    && (forall i :: 0 <= i < |enemies| ==> enemies[i].Valid())
    && (forall i, j :: 0 <= i < j < |enemies| ==> enemies[i] != enemies[j])
  }

  /** A well-kept enemy list whose snapshots are `es`. */
  ghost predicate EnemiesAre(enemies: seq<Enemy>, es: seq<EnemyState>)
    reads enemies, EnemyAnimations(enemies)
  {
    EnemiesOk(enemies) && EnemyStates(enemies) == es
  }

  /** An enemy list whose enemies are in the states `es`, one by one. */
  lemma EnemyStatesOf(enemies: seq<Enemy>, es: seq<EnemyState>)
    requires |enemies| == |es| && forall j :: 0 <= j < |enemies| ==> enemies[j].State() == es[j]
    ensures EnemyStates(enemies) == es
  {
  }

  /** The snapshots of an enemy list, in order. */
  function EnemyStates(enemies: seq<Enemy>): (r: seq<EnemyState>)
    reads enemies, EnemyAnimations(enemies)
    ensures |r| == |enemies|
    ensures forall i :: 0 <= i < |enemies| ==> r[i] == enemies[i].State()
  {
    seq(|enemies|, i reads enemies, EnemyAnimations(enemies)
                     requires 0 <= i < |enemies| => enemies[i].State())
  }

  /** The enemies of a list and their animations. */
  ghost function EnemyObjects(es: seq<Enemy>): set<object>
  {
    (set e | e in es :: e as object) + (set e | e in es :: e.animation as object)
  }
}

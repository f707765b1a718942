/**
 * Short-lived visual effects (particles.py): the score text that floats up,
 * the coin that jumps out of a block, the four-piece burst of a broken block
 * and the castle fireworks.  Every particle starts showing; the level drops
 * a particle once it stops showing.  The source's subclasses become one
 * class with a `kind` tag; the pieces of a burst are objects of their own.
 */
module Particles {
  import opened Settings
  import opened Sprites
  import opened Animations
  import opened Outcomes

  datatype ParticleKind = ScoreText | CoinParticle | BrokenBlocks | Firework

  /** Frames a score text rises and a burst piece flies (FPS). */
  const LIFETIME: int := FPS

  /** The coin's three frames and hold delay (FPS / 5). */
  const COIN_FRAMES: seq<Image> := [Image(0, 144, 8, 16, 0), Image(8, 144, 8, 16, 0), Image(16, 144, 8, 16, 0)]
  const COIN_DELAY: int := FPS / 5
  /** The firework's three frames and hold delay (FPS / 10). */
  const FIREWORK_FRAMES: seq<Image> := [Image(32, 144, 16, 16, 0), Image(48, 144, 16, 16, 0), Image(64, 144, 16, 16, 0)]
  const FIREWORK_DELAY: int := FPS / 10

  /** The animation state of a particle kind that has none. */
  const NO_ANIMATION: AnimState := AnimState([], 0, 0, 0, false)

  /** Triangular numbers: Tri(k) = 0 + 1 + ... + (k - 1). */
  function Tri(k: nat): (r: int)
    ensures 2 * r == k * (k - 1)
  {
    if k == 0 then 0 else Tri(k - 1) + (k - 1)
  }

  /** A snapshot of one piece of a broken block. */
  datatype PieceState = PieceState(box: Sprite, showing: bool, vx: int, vy: int, direction: int, timeCount: int)

  /** The launch velocity (vx, vy) of a piece by direction: 0 upper left,
      1 upper right, 2 bottom right, 3 bottom left; any other direction raises
      ValueError.  Left pieces fly left, upper pieces fly higher. */
  function PieceLaunch(direction: int): (r: Result<(int, int)>)
    ensures r.Ok? <==> 0 <= direction <= 3
    ensures r.Ok? ==> r.value.0 == (if direction == 0 || direction == 3 then -5 else 5)
    ensures r.Ok? ==> r.value.1 == (if direction <= 1 then -7 else -5)
  {
    if direction == 0 then Ok((-5, -7))
    else if direction == 1 then Ok((5, -7))
    else if direction == 2 then Ok((5, -5))
    else if direction == 3 then Ok((-5, -5))
    else Err(ValueError("Direction is not valid"))
  }

  /** `BrokenBlockParticle(x, y, direction)` for a valid direction. */
  function NewPieceState(x: int, y: int, direction: int): (p: PieceState)
    requires 0 <= direction <= 3
    ensures p.showing && p.timeCount == 0 && p.box == Sprite(x, y, 0, 0) && p.direction == direction
    ensures (p.vx, p.vy) == PieceLaunch(direction).value
  {
    var v := PieceLaunch(direction).value;
    PieceState(Sprite(x, y, 0, 0), true, v.0, v.1, direction, 0)
  }

  /** `BrokenBlockParticle.update`. */
  function PieceStep(p: PieceState): PieceState
  {
    if p.timeCount >= LIFETIME then p.(showing := false)
    else p.(box := p.box.(x := p.box.x + p.vx, y := p.box.y + p.vy), vy := p.vy + GRAVITY, timeCount := p.timeCount + 1)
  }

  function PieceSteps(p: PieceState, n: nat): PieceState
    decreases n
  {
    if n == 0 then p else PieceStep(PieceSteps(p, n - 1))
  }

  /** A new piece flies ballistically for FPS updates: after k of them it has
      moved by k * vx across and k * vy plus the gravity triangle down, and
      its vertical speed has grown by k. */
  lemma {:induction false} PieceFlight(p: PieceState, k: nat)
    requires p.timeCount == 0 && p.showing
    requires k <= LIFETIME
    ensures PieceSteps(p, k) == p.(box := p.box.(x := p.box.x + k * p.vx, y := p.box.y + k * p.vy + Tri(k)),
                                   vy := p.vy + k, timeCount := k)
    decreases k
  {
    if k > 0 {
      PieceFlight(p, k - 1);
      assert (k - 1) * p.vx + p.vx == k * p.vx;
      assert (k - 1) * p.vy + Tri(k - 1) + (p.vy + (k - 1)) == k * p.vy + Tri(k);
    }
  }

  /** During its flight the piece's counter counts its updates. */
  lemma {:induction false} PieceClock(p: PieceState, k: nat)
    requires p.timeCount == 0
    requires k <= LIFETIME
    ensures PieceSteps(p, k).timeCount == k && PieceSteps(p, k).showing == p.showing
    decreases k
  {
    if k > 0 {
      PieceClock(p, k - 1);
    }
  }

  /** After its `flight` = FPS updates of flight, every further update only
      hides the piece: it stops moving. */
  lemma {:induction false} PieceLanded(p: PieceState, flight: nat, n: nat)
    requires p.timeCount == 0 && p.showing
    requires flight == LIFETIME && n > flight
    ensures PieceSteps(p, n) == PieceSteps(p, flight).(showing := false)
    decreases n
  {
    PieceClock(p, flight);
    if n > flight + 1 {
      PieceLanded(p, flight, n - 1);
    }
  }

  /** A snapshot of a particle: the fields of all kinds together, with the
      animation of a Coin or Firework and the pieces of a burst. */
  datatype ParticleState = ParticleState(
    kind: ParticleKind, box: Sprite, showing: bool, timeCount: int, score: int,
    vx: int, vy: int, anim: AnimState, pieces: seq<PieceState>)

  /** `ScoreText(x, y, score)`. */
  function ScoreTextState(x: int, y: int, score: int): (p: ParticleState)
    ensures p.kind == ScoreText && p.showing && p.box == Sprite(x, y, 0, 0) && p.score == score && p.timeCount == 0
  {
    ParticleState(ScoreText, Sprite(x, y, 0, 0), true, 0, score, 0, 0, NO_ANIMATION, [])
  }

  /** `Coin(x, y)` created at frame `tick` for a block at (x, y): 8 x 16, four
      pixels right of the block's x and one tile above it, jumping up at 10
      pixels per frame. */
  function CoinState(x: int, y: int, tick: int): (p: ParticleState)
    ensures p.kind == CoinParticle && p.showing && p.box == Sprite(x + 4, y - 16, 8, 16) && p.vy == -10
    ensures p.anim == AnimState(COIN_FRAMES, 0, tick, COIN_DELAY, false)
  {
    ParticleState(CoinParticle, Sprite(x + 4, y - 16, 8, 16), true, 0, 0, 0, -10,
                  AnimState(COIN_FRAMES, 0, tick, COIN_DELAY, false), [])
  }

  /** `BrokenBlockParticles(x, y)`: four pieces with directions 0..3; the two
      lower ones start 8 pixels below the block's y. */
  function BurstState(x: int, y: int): (p: ParticleState)
    ensures p.kind == BrokenBlocks && p.showing && p.box == Sprite(x, y, 0, 0)
    ensures |p.pieces| == 4
    ensures forall i :: 0 <= i < 4 ==> p.pieces[i] == NewPieceState(x, if i >= 2 then y + 8 else y, i)
  {
    ParticleState(BrokenBlocks, Sprite(x, y, 0, 0), true, 0, 0, 0, 0, NO_ANIMATION,
                  [NewPieceState(x, y, 0), NewPieceState(x, y, 1), NewPieceState(x, y + 8, 2), NewPieceState(x, y + 8, 3)])
  }

  /** `Firework(x, y)` created at frame `tick`, with the velocity the random
      draws produced. */
  function FireworkState(x: int, y: int, vx: int, vy: int, tick: int): (p: ParticleState)
    ensures p.kind == Firework && p.showing && p.box == Sprite(x, y, 0, 0) && p.vx == vx && p.vy == vy
    ensures p.anim == AnimState(FIREWORK_FRAMES, 0, tick, FIREWORK_DELAY, false)
  {
    ParticleState(Firework, Sprite(x, y, 0, 0), true, 0, 0, vx, vy,
                  AnimState(FIREWORK_FRAMES, 0, tick, FIREWORK_DELAY, false), [])
  }

  /** Every piece of a burst steps once. */
  function PiecesStep(ps: seq<PieceState>): (r: seq<PieceState>)
    ensures |r| == |ps|
    ensures forall i :: 0 <= i < |ps| ==> r[i] == PieceStep(ps[i])
  {
    seq(|ps|, i requires 0 <= i < |ps| => PieceStep(ps[i]))
  }

  /** `update` of each particle kind at frame `tick`. */
  function ParticleStep(p: ParticleState, tick: int): ParticleState
  {
    match p.kind
    case ScoreText =>
      if p.timeCount >= LIFETIME then p.(showing := false)
      else p.(box := p.box.(y := p.box.y - 1), timeCount := p.timeCount + 1)
    case CoinParticle =>
      var a := Step(p.anim, tick);
      if a.playedOnce then p.(anim := a, showing := false)
      else p.(anim := a, box := p.box.(y := p.box.y + p.vy), vy := p.vy + GRAVITY)
    case BrokenBlocks =>
      p.(pieces := PiecesStep(p.pieces))
    case Firework =>
      var a := Step(p.anim, tick);
      if a.playedOnce then p.(anim := a, showing := false)
      else p.(anim := a, box := p.box.(x := p.box.x + p.vx, y := p.box.y + p.vy))
  }

  /** `n` updates at the frame ticks t0 + 1, ..., t0 + n. */
  function ParticleRun(p: ParticleState, t0: int, n: nat): ParticleState
    decreases n
  {
    if n == 0 then p else ParticleStep(ParticleRun(p, t0, n - 1), t0 + n)
  }

  /** A score text rises one pixel per update for FPS updates while showing,
      and the next update hides it where it is. */
  lemma {:induction false} ScoreTextRise(x: int, y: int, score: int, t0: int, k: nat)
    requires k <= LIFETIME + 1
    ensures var p := ParticleRun(ScoreTextState(x, y, score), t0, k);
      && p.kind == ScoreText
      && if k <= LIFETIME then p.showing && p.box.y == y - k && p.timeCount == k
      else !p.showing && p.box.y == y - LIFETIME
    decreases k
  {
    if k > 0 {
      ScoreTextRise(x, y, score, t0, k - 1);
    }
  }

  /** A Coin or Firework steps its animation on every update, and it is
      showing exactly as long as that animation has not played once. */
  lemma {:induction false} AnimatedParticleRun(p: ParticleState, t0: int, n: nat)
    requires p.kind == CoinParticle || p.kind == Firework
    requires p.showing && !p.anim.playedOnce
    ensures ParticleRun(p, t0, n).anim == Run(p.anim, t0, n)
    ensures ParticleRun(p, t0, n).showing == !Run(p.anim, t0, n).playedOnce
    ensures ParticleRun(p, t0, n).kind == p.kind
    decreases n
  {
    if n > 0 {
      AnimatedParticleRun(p, t0, n - 1);
      var q := ParticleRun(p, t0, n - 1);
      StepSticky(q.anim, t0 + n);
    }
  }

  /** `played_once`, once set, survives an update. */
  lemma StepSticky(a: AnimState, tick: int)
    ensures a.playedOnce ==> Step(a, tick).playedOnce
  {
  }

  /** A Coin or Firework whose animation was just started at frame t0 shows
      while its animation plays through once, and hides on the update that
      completes it. */
  lemma AnimatedLifetime(p: ParticleState, t0: int)
    requires p.kind == CoinParticle || p.kind == Firework
    requires p.showing && |p.anim.frames| > 0 && p.anim.delay >= 0
    requires p.anim == AnimState(p.anim.frames, 0, t0, p.anim.delay, false)
    ensures forall k: nat :: k < |p.anim.frames| * (p.anim.delay + 1) ==> ParticleRun(p, t0, k).showing
    ensures !ParticleRun(p, t0, |p.anim.frames| * (p.anim.delay + 1)).showing
  {
    FirstPlayedOnce(p.anim, p.anim.frames, t0);
    assert WithFrames(p.anim, p.anim.frames, t0) == p.anim;
    forall k: nat | k < |p.anim.frames| * (p.anim.delay + 1)
      ensures ParticleRun(p, t0, k).showing
    {
      AnimatedParticleRun(p, t0, k);
    }
    AnimatedParticleRun(p, t0, |p.anim.frames| * (p.anim.delay + 1));
  }

  /** A Coin created at frame t0 and updated once per later frame shows for
      20 updates and hides at the 21st: three frames held for FPS / 5 + 1
      ticks each. */
  lemma CoinLifetime(x: int, y: int, t0: int, k: nat)
    ensures ParticleRun(CoinState(x, y, t0), t0, k).showing <== k < 21
    ensures !ParticleRun(CoinState(x, y, t0), t0, k).showing <== k == 21
  {
    var c := CoinState(x, y, t0);
    assert |c.anim.frames| * (c.anim.delay + 1) == 21;
    AnimatedLifetime(c, t0);
  }

  /** A Firework created at frame t0 shows for 11 updates and hides at the
      12th: three frames held for FPS / 10 + 1 ticks each. */
  lemma FireworkLifetime(x: int, y: int, vx: int, vy: int, t0: int, k: nat)
    ensures ParticleRun(FireworkState(x, y, vx, vy, t0), t0, k).showing <== k < 12
    ensures !ParticleRun(FireworkState(x, y, vx, vy, t0), t0, k).showing <== k == 12
  {
    var f := FireworkState(x, y, vx, vy, t0);
    assert |f.anim.frames| * (f.anim.delay + 1) == 12;
    AnimatedLifetime(f, t0);
  }

  /** A burst only steps its pieces: it never stops showing by itself, so the
      level never drops it. */
  lemma {:induction false} BurstAlwaysShowing(p: ParticleState, t0: int, n: nat)
    requires p.kind == BrokenBlocks && p.showing
    ensures ParticleRun(p, t0, n).showing && ParticleRun(p, t0, n).kind == BrokenBlocks
    ensures |ParticleRun(p, t0, n).pieces| == |p.pieces|
    decreases n
  {
    if n > 0 {
      BurstAlwaysShowing(p, t0, n - 1);
    }
  }

  /** Under `ParticleRun`, a burst's i-th piece has taken as many updates
      as the burst. */
  lemma {:induction false} RunPieces(p: ParticleState, t0: int, n: nat)
    requires p.kind == BrokenBlocks
    ensures ParticleRun(p, t0, n).kind == BrokenBlocks && |ParticleRun(p, t0, n).pieces| == |p.pieces|
    ensures forall i :: 0 <= i < |p.pieces| ==> ParticleRun(p, t0, n).pieces[i] == PieceSteps(p.pieces[i], n)
    decreases n
  {
    if n > 0 {
      RunPieces(p, t0, n - 1);
    }
  }

  /** As written, a burst outlives its pieces: one update after the last of
      its four pieces has stopped showing, the burst still shows. */
  lemma BurstOutlivesPieces(x: int, y: int, t0: int)
    ensures var r := ParticleRun(BurstState(x, y), t0, LIFETIME + 1);
      r.showing && |r.pieces| == 4 && forall i :: 0 <= i < 4 ==> !r.pieces[i].showing
  {
    var b := BurstState(x, y);
    BurstAlwaysShowing(b, t0, LIFETIME + 1);
    RunPieces(b, t0, LIFETIME + 1);
    forall i | 0 <= i < 4
      ensures !PieceSteps(b.pieces[i], LIFETIME + 1).showing
    {
      PieceLanded(b.pieces[i], LIFETIME, LIFETIME + 1);
    }
  }

  /** Whether some piece of a burst is still showing. */
  predicate AnyShowing(ps: seq<PieceState>)
  {
    exists i :: 0 <= i < |ps| && ps[i].showing
  }

  /** A burst's update as evidently intended: its pieces step, and the burst
      stops showing together with its last piece. */
  function SettledBurstStep(p: ParticleState): (r: ParticleState)
    ensures r.kind == p.kind && |r.pieces| == |p.pieces|
    ensures forall i :: 0 <= i < |p.pieces| ==> r.pieces[i] == PieceStep(p.pieces[i])
    ensures r.showing <==> exists i :: 0 <= i < |r.pieces| && r.pieces[i].showing
  {
    var ps := PiecesStep(p.pieces);
    p.(pieces := ps, showing := AnyShowing(ps))
  }

  /** `n` updates of a burst as evidently intended. */
  function SettledBurstRun(p: ParticleState, n: nat): ParticleState
    decreases n
  {
    if n == 0 then p else SettledBurstStep(SettledBurstRun(p, n - 1))
  }

  /** Under `SettledBurstRun`, each piece has taken as many updates as the
      burst. */
  lemma {:induction false} SettledPieces(p: ParticleState, n: nat)
    ensures |SettledBurstRun(p, n).pieces| == |p.pieces|
    ensures forall i :: 0 <= i < |p.pieces| ==> SettledBurstRun(p, n).pieces[i] == PieceSteps(p.pieces[i], n)
    decreases n
  {
    if n > 0 {
      SettledPieces(p, n - 1);
    }
  }

  /** With the intended update, a new burst is showing after n updates if
      and only if n <= FPS, so the level drops it once its pieces are gone. */
  lemma BurstSettles(x: int, y: int, n: nat)
    ensures SettledBurstRun(BurstState(x, y), n).showing <==> n <= LIFETIME
  {
    var b := BurstState(x, y);
    SettledPieces(b, n);
    if 0 < n <= LIFETIME {
      PieceClock(b.pieces[0], n);
      assert SettledBurstRun(b, n).pieces[0].showing;
    } else if n > LIFETIME {
      forall i | 0 <= i < 4
        ensures !SettledBurstRun(b, n).pieces[i].showing
      {
        PieceLanded(b.pieces[i], LIFETIME, n);
      }
    }
  }

  /** One piece of a broken block. */
  class Piece {
    var box: Sprite
    var showing: bool
    const vx: int
    var vy: int
    const direction: int
    var timeCount: int
    /** The burst this piece belongs to. */
    ghost var owner: object

    function State(): PieceState
      reads this
    {
      PieceState(box, showing, vx, vy, direction, timeCount)
    }

    /** A piece whose direction the caller has already checked. */
    constructor (x: int, y: int, direction: int)
      requires 0 <= direction <= 3
      ensures State() == NewPieceState(x, y, direction) && owner == this
    {
      var v := PieceLaunch(direction).value;
      box := Sprite(x, y, 0, 0);
      showing := true;
      vx := v.0;
      vy := v.1;
      this.direction := direction;
      timeCount := 0;
      owner := this;
    }

    /** `BrokenBlockParticle(x, y, direction)` with its argument check. */
    static method New(x: int, y: int, direction: int) returns (r: Result<Piece>)
      ensures r.Ok? <==> 0 <= direction <= 3
      ensures r.Ok? ==> fresh(r.value) && r.value.State() == NewPieceState(x, y, direction)
      ensures r.Err? ==> r.error == PieceLaunch(direction).error
    {
      if 0 <= direction <= 3 {
        var p := new Piece(x, y, direction);
        r := Ok(p);
      } else {
        r := Err(ValueError("Direction is not valid"));
      }
    }

    method Update()
      modifies this
      ensures State() == PieceStep(old(State())) && owner == old(owner)
    {
      if timeCount >= LIFETIME {
        showing := false;
      } else {
        box := box.(x := box.x + vx, y := box.y + vy);
        vy := vy + GRAVITY;
        timeCount := timeCount + 1;
      }
    }
  }

  /** The snapshots of a list of pieces. */
  function PieceStates(pieces: seq<Piece>): (r: seq<PieceState>)
    reads pieces
    ensures |r| == |pieces|
    ensures forall i :: 0 <= i < |pieces| ==> r[i] == pieces[i].State()
  {
    seq(|pieces|, i reads pieces requires 0 <= i < |pieces| => pieces[i].State())
  }

  class Particle {
    const kind: ParticleKind
    var box: Sprite
    var showing: bool
    var timeCount: int
    /** ScoreText only: the points shown. */
    const score: int
    var vx: int
    var vy: int
    /** Coin and Firework only. */
    const animation: Animation?
    /** The four pieces of a burst at (x, y), in direction order; the two
        lower ones start 8 pixels below the block. */
    static method NewPieces(x: int, y: int) returns (made: seq<Piece>)
      ensures |made| == 4
      ensures forall j :: 0 <= j < 4 ==> fresh(made[j])
      ensures forall j :: 0 <= j < 4 ==> made[j].State() == NewPieceState(x, if j >= 2 then y + 8 else y, j)
      ensures forall j, k :: 0 <= j < k < 4 ==> made[j] != made[k]
    {
      made := [];
      var i := 0;
      while i < 4
        invariant 0 <= i <= 4 && |made| == i
        invariant forall j :: 0 <= j < i ==> fresh(made[j])
        invariant forall j :: 0 <= j < i ==> made[j].State() == NewPieceState(x, if j >= 2 then y + 8 else y, j)
        invariant forall j, k :: 0 <= j < k < i ==> made[j] != made[k]
      {
        var p: Piece;
        if i >= 2 {
          p := new Piece(x, y + 8, i);
        } else {
          p := new Piece(x, y, i);
        }
        made := made + [p];
        i := i + 1;
      }
    }

    /** BrokenBlocks only: the four pieces. */
    const pieces: seq<Piece>

    /** The objects this particle's state lives in: itself, its animation
        and its pieces. */
    function Repr(): set<object>
    {
      {this} + (if animation == null then {} else {animation}) + set i | 0 <= i < |pieces| :: pieces[i]
    }

    function State(): ParticleState
      reads Repr()
    {
      ParticleState(kind, box, showing, timeCount, score, vx, vy,
                    if animation == null then NO_ANIMATION else animation.State(),
                    PieceStates(pieces))
    }

    ghost predicate Valid()
      reads Repr()
    {
      && (animation != null <==> kind == CoinParticle || kind == Firework)
      && (animation != null ==> animation.owner == this && animation.Valid())
      && (kind == BrokenBlocks ==> |pieces| == 4)
      && (kind != BrokenBlocks ==> pieces == [])
      && (forall i :: 0 <= i < |pieces| ==> pieces[i].owner == this)
      && (forall i, j :: 0 <= i < j < |pieces| ==> pieces[i] != pieces[j])
    }

    constructor NewScoreText(x: int, y: int, score: int)
      ensures Valid() && State() == ScoreTextState(x, y, score)
    {
      kind := ScoreText;
      box := Sprite(x, y, 0, 0);
      showing := true;
      timeCount := 0;
      this.score := score;
      vx := 0;
      vy := 0;
      animation := null;
      pieces := [];
    }

    constructor NewCoin(x: int, y: int, tick: int)
      ensures Valid() && fresh(animation) && State() == CoinState(x, y, tick)
    {
      kind := CoinParticle;
      box := Sprite(x + 4, y - 16, 8, 16);
      showing := true;
      timeCount := 0;
      score := 0;
      vx := 0;
      vy := -10;
      animation := new Animation(COIN_FRAMES, COIN_DELAY, tick);
      pieces := [];
      new;
      animation.owner := this;
    }

    constructor NewBrokenBlocks(x: int, y: int)
      ensures Valid() && fresh(pieces) && State() == BurstState(x, y)
    {
      kind := BrokenBlocks;
      box := Sprite(x, y, 0, 0);
      showing := true;
      timeCount := 0;
      score := 0;
      vx := 0;
      vy := 0;
      animation := null;
      var made := NewPieces(x, y);
      pieces := made;
      new;
      AdoptPieces();
      assert PieceStates(pieces) == BurstState(x, y).pieces;
    }

    /** Makes this particle the owner of its pieces; nothing else changes. */
    ghost method AdoptPieces()
      modifies pieces
      ensures forall j :: 0 <= j < |pieces| ==> pieces[j].owner == this
      ensures forall j :: 0 <= j < |pieces| ==> pieces[j].State() == old(pieces[j].State())
    {
      var i := 0;
      while i < |pieces|
        invariant 0 <= i <= |pieces|
        invariant forall j :: 0 <= j < i ==> pieces[j].owner == this
        invariant forall j :: 0 <= j < |pieces| ==> pieces[j].State() == old(pieces[j].State())
      {
        pieces[i].owner := this;
        i := i + 1;
      }
    }

    constructor NewFirework(x: int, y: int, vx: int, vy: int, tick: int)
      requires -10 <= vx <= 10 && -6 <= vy <= -2
      ensures Valid() && fresh(animation) && pieces == [] && State() == FireworkState(x, y, vx, vy, tick)
    {
      kind := Firework;
      box := Sprite(x, y, 0, 0);
      showing := true;
      timeCount := 0;
      score := 0;
      this.vx := vx;
      this.vy := vy;
      animation := new Animation(FIREWORK_FRAMES, FIREWORK_DELAY, tick);
      pieces := [];
      new;
      animation.owner := this;
    }

    /** `update` at frame `tick`. */
    method Update(tick: int)
      requires Valid()
      modifies this, animation, pieces
      ensures Valid()
      ensures State() == ParticleStep(old(State()), tick)
    {
      match kind
      case ScoreText =>
        if timeCount >= LIFETIME {
          showing := false;
        } else {
          box := box.(y := box.y - 1);
          timeCount := timeCount + 1;
        }
      case CoinParticle =>
        animation.Update(tick);
        if animation.playedOnce {
          showing := false;
        } else {
          box := box.(y := box.y + vy);
          vy := vy + GRAVITY;
        }
      case BrokenBlocks =>
        UpdatePieces();
      case Firework =>
        animation.Update(tick);
        if animation.playedOnce {
          showing := false;
        } else {
          box := box.(x := box.x + vx, y := box.y + vy);
        }
    }

    /** The burst's loop over its pieces. */
    method UpdatePieces()
      requires Valid() && kind == BrokenBlocks
      modifies pieces
      ensures Valid()
      ensures PieceStates(pieces) == PiecesStep(old(PieceStates(pieces)))
    {
      ghost var before := PieceStates(pieces);
      var i := 0;
      while i < |pieces|
        invariant 0 <= i <= |pieces|
        invariant forall j :: 0 <= j < i ==> pieces[j].State() == PieceStep(before[j])
        invariant forall j :: i <= j < |pieces| ==> pieces[j].State() == before[j]
        invariant forall j :: 0 <= j < |pieces| ==> pieces[j].owner == this
      {
        pieces[i].Update();
        i := i + 1;
      }
    }
  }

  /** Two well-kept particle lists with no particle in common make a
      well-kept list, whose snapshots are theirs end to end. */
  lemma ParticlesAppend(a: seq<Particle>, b: seq<Particle>)
    requires ParticlesOk(a) && ParticlesOk(b)
    requires forall i, j :: 0 <= i < |a| && 0 <= j < |b| ==> a[i] != b[j]
    ensures ParticlesOk(a + b)
    ensures ParticleStates(a + b) == ParticleStates(a) + ParticleStates(b)
  {
    assert forall i :: 0 <= i < |a + b| ==> (a + b)[i] == if i < |a| then a[i] else b[i - |a|];
  }

  /** The objects of a particle list: the particles, their animations and
      their pieces. */
  function ParticleParts(ps: seq<Particle>): set<object>
  {
    set p, o | p in ps && o in p.Repr() :: o
  }

  /** The snapshots of a particle list, in order. */
  function ParticleStates(ps: seq<Particle>): (r: seq<ParticleState>)
    reads ParticleParts(ps)
    ensures |r| == |ps|
    ensures forall i :: 0 <= i < |ps| ==> r[i] == ps[i].State()
  {
    seq(|ps|, i reads ParticleParts(ps) requires 0 <= i < |ps| => ps[i].State())
  }

  /** A particle list as the level keeps it: every particle keeps its
      invariant and no particle appears twice. */
  ghost predicate ParticlesOk(ps: seq<Particle>)
    reads ParticleParts(ps)
  {
    && (forall i :: 0 <= i < |ps| ==> ps[i].Valid())
    && (forall i, j :: 0 <= i < j < |ps| ==> ps[i] != ps[j])
  }

  /** A particle that Mario's update appends: a score text or a coin. */
  datatype Spawn = TextSpawn(x: int, y: int, points: int) | CoinSpawn(x: int, y: int, tick: int)

  /** The particle a request stands for, as it is created. */
  function SpawnState(s: Spawn): (p: ParticleState)
    ensures s.TextSpawn? ==> p == ScoreTextState(s.x, s.y, s.points)
    ensures s.CoinSpawn? ==> p == CoinState(s.x, s.y, s.tick)
  {
    match s
    case TextSpawn(x, y, points) => ScoreTextState(x, y, points)
    case CoinSpawn(x, y, tick) => CoinState(x, y, tick)
  }

  /** The particles a list of requests stands for, in order. */
  function SpawnStates(ss: seq<Spawn>): (r: seq<ParticleState>)
    ensures |r| == |ss|
    ensures forall i :: 0 <= i < |ss| ==> r[i] == SpawnState(ss[i])
  {
    seq(|ss|, i requires 0 <= i < |ss| => SpawnState(ss[i]))
  }

  lemma SpawnStatesAppend(a: seq<Spawn>, b: seq<Spawn>)
    ensures SpawnStates(a + b) == SpawnStates(a) + SpawnStates(b)
  {
    assert forall i :: 0 <= i < |a + b| ==> (a + b)[i] == if i < |a| then a[i] else b[i - |a|];
  }

  /** Creates the particle `s` asks for. */
  method SpawnOne(s: Spawn) returns (p: Particle)
    ensures fresh(p.Repr()) && p.Valid() && p.State() == SpawnState(s)
  {
    if s.TextSpawn? {
      p := new Particle.NewScoreText(s.x, s.y, s.points);
    } else {
      p := new Particle.NewCoin(s.x, s.y, s.tick);
    }
  }

  /** Creates the particles `ss` asks for, in order: new, distinct objects
      that keep their invariant. */
  method SpawnAll(ss: seq<Spawn>) returns (ps: seq<Particle>)
    ensures ParticlesOk(ps) && ParticleStates(ps) == SpawnStates(ss)
    ensures forall i :: 0 <= i < |ps| ==> fresh(ps[i].Repr())
  {
    ps := [];
    var i := 0;
    while i < |ss|
      invariant 0 <= i <= |ss|
      invariant |ps| == i
      invariant forall j :: 0 <= j < i ==> fresh(ps[j].Repr()) && ps[j].Valid() && ps[j].State() == SpawnState(ss[j])
      invariant forall j, k :: 0 <= j < k < i ==> ps[j] != ps[k]
    {
      var p := SpawnOne(ss[i]);
      ps := ps + [p];
      i := i + 1;
    }
  }
}

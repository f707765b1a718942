/**
 * The static pieces of a level (level_tiles.py).  The source's subclasses of
 * Tile become one class with a `kind` tag.  A tile never moves: its collision
 * rectangle is a constant, and a bouncing Block only moves the drawn
 * `bounceY`.  The state that does change is captured by the value
 * `TileState`, and every mutator is proved against a function on it.
 */
module LevelTiles {
  import opened Settings
  import opened Sprites
  import opened Animations

  datatype TileKind = Floor | Block | StairBlock | CoinBlock | QuestionBlock | Pipe | FlagPole | FlagTip | FinishFlag

  /** Frames a bounce lasts (FPS / 3). */
  const BOUNCE_TIME: int := FPS / 3

  /** The five frames of the question-mark animation and their hold delay,
      FPS / 4 = 7.5, which `elapsed > delay` treats like 7. */
  const QUESTION_FRAMES: seq<Image> :=
    [Image(0, 0, 16, 16, 0), Image(16, 0, 16, 16, 0), Image(32, 0, 16, 16, 0),
     Image(48, 0, 16, 16, 0), Image(64, 0, 16, 16, 0)]
  const QUESTION_DELAY: int := 7

  /** A snapshot of a tile: its constant kind, rectangle and construction
      arguments, and its changing flags and counters. */
  datatype TileState = TileState(
    kind: TileKind, box: Sprite, breakable: bool, itemType: string,
    broken: bool, bouncing: bool, bounceY: int, bounceCount: int,
    coins: int, givesCoins: bool, used: bool)
  {
    /** The flag pieces Mario passes through. */
    predicate IsFlagPiece()
    {
      kind == FlagPole || kind == FlagTip || kind == FinishFlag
    }

    /** At rest the drawn y is the tile's y and the counter is 0; while
        bouncing the drawn y is raised by the counter, which stays within
        0..BOUNCE_TIME. */
    predicate BounceOk()
    {
      if bouncing then bounceY == box.y - bounceCount && 0 <= bounceCount <= BOUNCE_TIME
      else bounceY == box.y && bounceCount == 0
    }

    /** Only a Block bounces, and a block that has stopped giving coins has
        none left. */
    predicate Ok()
    {
      BounceOk() && (kind != Block ==> !bouncing) && (!givesCoins ==> coins <= 0)
    }
  }

  /** A tile of the given kind as its constructor leaves it. */
  function Fresh(kind: TileKind, box: Sprite, breakable: bool, itemType: string, coins: int): (t: TileState)
    ensures t.Ok() && !t.broken && !t.bouncing && !t.used
  {
    TileState(kind, box, breakable, itemType, false, false, box.y, 0, coins, true, false)
  }

  /** `destroy` (Tile and Block alike). */
  function Destroyed(t: TileState): (r: TileState)
    ensures r.broken
    ensures r.(broken := t.broken) == t
    ensures t.Ok() ==> r.Ok()
  {
    t.(broken := true)
  }

  /** `Block.bounce`. */
  function Bounced(t: TileState): (r: TileState)
    requires t.kind == Block
    ensures r.bouncing
    ensures t.Ok() ==> r.Ok()
    ensures t.Ok() && !t.bouncing ==> r.bounceY == t.box.y && r.bounceCount == 0
    ensures r.(bouncing := t.bouncing) == t
  {
    t.(bouncing := true)
  }

  /** `Block.update`: one frame of the bounce.  A resting block is unchanged;
      a bouncing one rises a pixel per frame until the counter reaches
      BOUNCE_TIME, and the next frame puts it back at rest. */
  function BlockStep(t: TileState): (r: TileState)
    ensures t.Ok() ==> r.Ok()
    ensures !t.bouncing ==> r == t
    ensures r.kind == t.kind && r.box == t.box && r.broken == t.broken
    ensures r.coins == t.coins && r.givesCoins == t.givesCoins && r.used == t.used
  {
    if !t.bouncing then t
    else if t.bounceCount >= BOUNCE_TIME then t.(bounceY := t.box.y, bouncing := false, bounceCount := 0)
    else t.(bounceY := t.bounceY - 1, bounceCount := t.bounceCount + 1)
  }

  /** `update` of any tile, apart from the question-mark animation. */
  function TileStep(t: TileState): (r: TileState)
    ensures t.Ok() ==> r.Ok()
    ensures r.broken == t.broken && r.kind == t.kind && r.box == t.box
  {
    if t.kind == Block then BlockStep(t) else t
  }

  /** `n` frames of Block.update. */
  function BlockSteps(t: TileState, n: nat): TileState
    decreases n
  {
    if n == 0 then t else BlockStep(BlockSteps(t, n - 1))
  }

  /** `CoinBlock.hit`: take a coin while there is one, otherwise stop giving. */
  function CoinHit(t: TileState): (r: TileState)
    ensures t.Ok() ==> r.Ok()
    ensures r.coins <= t.coins && (t.coins > 0 ==> r.coins == t.coins - 1)
    ensures r.givesCoins == (t.givesCoins && t.coins > 0)
    ensures r.broken == t.broken && r.kind == t.kind && r.box == t.box
  {
    if t.coins > 0 then t.(coins := t.coins - 1) else t.(givesCoins := false)
  }

  /** `n` hits in a row. */
  function CoinHits(t: TileState, n: nat): TileState
    decreases n
  {
    if n == 0 then t else CoinHit(CoinHits(t, n - 1))
  }

  /** `QuestionBlock.use`. */
  function Used(t: TileState): (r: TileState)
    ensures r.used
    ensures r.(used := t.used) == t
    ensures t.Ok() ==> r.Ok()
  {
    t.(used := true)
  }

  /** After `bounce()` on a resting Block, each of the first BOUNCE_TIME
      updates raises the drawn y by one pixel, and the update after them ends
      the bounce with the drawn y back at the tile's y. */
  lemma {:induction false} BounceCycle(t: TileState, k: nat)
    requires t.kind == Block && t.Ok() && !t.bouncing
    requires k <= BOUNCE_TIME + 1
    ensures var r := BlockSteps(Bounced(t), k);
      if k <= BOUNCE_TIME then r.bouncing && r.bounceY == t.box.y - k && r.bounceCount == k
      else !r.bouncing && r.bounceY == t.box.y && r.bounceCount == 0
    ensures BlockSteps(Bounced(t), k).box == t.box
    decreases k
  {
    if k > 0 {
      BounceCycle(t, k - 1);
    }
  }

  /** `broken` is never cleared: no tile operation resets it. */
  lemma BrokenSticky(t: TileState)
    requires t.broken
    ensures TileStep(t).broken && CoinHit(t).broken && Used(t).broken
    ensures t.kind == Block ==> Bounced(t).broken
  {
  }

  /** A CoinBlock created with N >= 0 coins: after k hits it holds
      max(N - k, 0) coins, and it still gives coins exactly when k <= N, so
      exactly the first N hits pay out. */
  lemma {:induction false} CoinHitsClosedForm(t: TileState, k: nat)
    requires t.kind == CoinBlock && t.givesCoins && t.coins >= 0
    ensures CoinHits(t, k).coins == if k <= t.coins then t.coins - k else 0
    ensures CoinHits(t, k).givesCoins <==> k <= t.coins
    decreases k
  {
    if k > 0 {
      CoinHitsClosedForm(t, k - 1);
    }
  }

  /** `gives_coins` never turns true again, and the count never goes below
      where it started or below zero once it was non-negative. */
  lemma {:induction false} CoinHitsMonotone(t: TileState, k: nat)
    ensures !t.givesCoins ==> !CoinHits(t, k).givesCoins
    ensures CoinHits(t, k).coins <= t.coins
    ensures t.coins >= 0 ==> CoinHits(t, k).coins >= 0
    decreases k
  {
    if k > 0 {
      CoinHitsMonotone(t, k - 1);
    }
  }

  class Tile {
    const kind: TileKind
    const box: Sprite
    /** Block only: Mario breaks it when big. */
    const breakable: bool
    /** QuestionBlock only: what it releases ("mushroom"). */
    const itemType: string
    /** Pipe only: which quarter of the pipe (drawing only). */
    const orientation: int
    /** QuestionBlock only: the question-mark animation. */
    const animation: Animation?

    var broken: bool
    var bouncing: bool
    var bounceY: int
    var bounceCount: int
    var coins: int
    var givesCoins: bool
    var used: bool

    function State(): TileState
      reads this
    {
      TileState(kind, box, breakable, itemType, broken, bouncing, bounceY, bounceCount, coins, givesCoins, used)
    }

    ghost predicate Valid()
      reads this, animation
    {
      && State().Ok()
      && (animation != null <==> kind == QuestionBlock)
      && (animation != null ==> animation.owner == this && animation.Valid())
    }

    /** Floor, StairBlock, FlagPole, FlagTip and FinishFlag: a 16 x 16 tile at
        (x, y) with nothing but the `broken` flag. */
    constructor Plain(kind: TileKind, x: int, y: int)
      requires kind in {Floor, StairBlock, FlagPole, FlagTip, FinishFlag}
      ensures Valid()
      ensures State() == Fresh(kind, Sprite(x, y, TILE_SIZE, TILE_SIZE), false, "", 0)
    {
      this.kind := kind;
      box := Sprite(x, y, TILE_SIZE, TILE_SIZE);
      breakable := false;
      itemType := "";
      orientation := 0;
      animation := null;
      broken := false;
      bouncing := false;
      bounceY := y;
      bounceCount := 0;
      coins := 0;
      givesCoins := true;
      used := false;
    }

    /** `Block(x, y, breakable)`: at rest, drawn at its own y. */
    constructor NewBlock(x: int, y: int, breakable: bool)
      ensures Valid()
      ensures State() == Fresh(Block, Sprite(x, y, TILE_SIZE, TILE_SIZE), breakable, "", 0)
    {
      kind := Block;
      box := Sprite(x, y, TILE_SIZE, TILE_SIZE);
      this.breakable := breakable;
      itemType := "";
      orientation := 0;
      animation := null;
      broken := false;
      bouncing := false;
      bounceY := y;
      bounceCount := 0;
      coins := 0;
      givesCoins := true;
      used := false;
    }

    /** `CoinBlock(x, y, coins)`: gives coins until a hit finds none left. */
    constructor NewCoinBlock(x: int, y: int, coins: int)
      ensures Valid()
      ensures State() == Fresh(CoinBlock, Sprite(x, y, TILE_SIZE, TILE_SIZE), false, "", coins)
    {
      kind := CoinBlock;
      box := Sprite(x, y, TILE_SIZE, TILE_SIZE);
      breakable := false;
      itemType := "";
      orientation := 0;
      animation := null;
      broken := false;
      bouncing := false;
      bounceY := y;
      bounceCount := 0;
      this.coins := coins;
      givesCoins := true;
      used := false;
    }

    /** `QuestionBlock(x, y, itemtype)` created at frame `tick`: unused, with
        its question-mark animation started. */
    constructor NewQuestionBlock(x: int, y: int, itemType: string, tick: int)
      ensures Valid() && fresh(animation)
      ensures State() == Fresh(QuestionBlock, Sprite(x, y, TILE_SIZE, TILE_SIZE), false, itemType, 0)
      ensures animation != null && animation.State() == AnimState(QUESTION_FRAMES, 0, tick, QUESTION_DELAY, false)
    {
      kind := QuestionBlock;
      box := Sprite(x, y, TILE_SIZE, TILE_SIZE);
      breakable := false;
      this.itemType := itemType;
      orientation := 0;
      animation := new Animation(QUESTION_FRAMES, QUESTION_DELAY, tick);
      broken := false;
      bouncing := false;
      bounceY := y;
      bounceCount := 0;
      coins := 0;
      givesCoins := true;
      used := false;
      new;
      animation.owner := this;
    }

    /** `Pipe(x, y, orientation)`. */
    constructor NewPipe(x: int, y: int, orientation: int)
      ensures Valid() && this.orientation == orientation
      ensures State() == Fresh(Pipe, Sprite(x, y, TILE_SIZE, TILE_SIZE), false, "", 0)
    {
      kind := Pipe;
      box := Sprite(x, y, TILE_SIZE, TILE_SIZE);
      breakable := false;
      itemType := "";
      this.orientation := orientation;
      animation := null;
      broken := false;
      bouncing := false;
      bounceY := y;
      bounceCount := 0;
      coins := 0;
      givesCoins := true;
      used := false;
    }

    /** `update` at frame `tick`: a Block steps its bounce, a QuestionBlock
        steps its animation, every other tile stays as it is. */
    method Update(tick: int)
      requires Valid()
      modifies this, animation
      ensures Valid()
      ensures State() == TileStep(old(State()))
      ensures animation != null ==> animation.State() == Step(old(animation.State()), tick)
    {
      if kind == Block {
        if bouncing {
          if bounceCount >= BOUNCE_TIME {
            bounceY := box.y;
            bouncing := false;
            bounceCount := 0;
          } else {
            bounceY := bounceY - 1;
            bounceCount := bounceCount + 1;
          }
        }
      } else if kind == QuestionBlock {
        animation.Update(tick);
      }
    }

    method Destroy()
      modifies this
      ensures old(Valid()) ==> Valid()
      ensures State() == Destroyed(old(State()))
    {
      broken := true;
    }

    method Bounce()
      requires Valid() && kind == Block
      modifies this
      ensures Valid()
      ensures State() == Bounced(old(State()))
    {
      bouncing := true;
    }

    /** `CoinBlock.hit`. */
    method Hit()
      requires Valid() && kind == CoinBlock
      modifies this
      ensures Valid()
      ensures State() == CoinHit(old(State()))
    {
      if coins > 0 {
        coins := coins - 1;
      } else {
        givesCoins := false;
      }
    }

    /** `QuestionBlock.use`. */
    method Use()
      requires Valid() && kind == QuestionBlock
      modifies this
      ensures Valid()
      ensures State() == Used(old(State()))
    {
      used := true;
    }
  }

  /** The snapshots of a tile list, in order. */
  function States(tiles: seq<Tile>): (r: seq<TileState>)
    reads tiles
    ensures |r| == |tiles|
    ensures forall i :: 0 <= i < |tiles| ==> r[i] == tiles[i].State()
  {
    seq(|tiles|, i reads tiles requires 0 <= i < |tiles| => tiles[i].State())
  }

  /** A level's tile list: every tile keeps its invariant and no tile object
      appears twice, so updating one tile leaves the others alone. */
  ghost predicate TilesOk(tiles: seq<Tile>)
    reads tiles, TileAnimations(tiles)
  {
    && (forall i :: 0 <= i < |tiles| ==> tiles[i].Valid())
    && Distinct(tiles)
  }

  /** A well-kept tile list whose snapshots are `ts`. */
  ghost predicate TilesAre(tiles: seq<Tile>, ts: seq<TileState>)
    reads tiles, TileAnimations(tiles)
  {
    TilesOk(tiles) && States(tiles) == ts
  }

  /** The frame sequencers of a tile list (those of its QuestionBlocks). */
  function TileAnimations(tiles: seq<Tile>): set<Animation?>
  {
    set t | t in tiles :: t.animation
  }

  /** No tile object appears twice in the list. */
  ghost predicate Distinct(tiles: seq<Tile>)
  {
    forall i, j :: 0 <= i < j < |tiles| ==> tiles[i] != tiles[j]
  }

  /** The collision rectangles of a list of tile objects, which never change. */
  function TileBoxes(tiles: seq<Tile>): (r: seq<Sprite>)
    ensures |r| == |tiles|
    ensures forall i :: 0 <= i < |tiles| ==> r[i] == tiles[i].box
  {
    seq(|tiles|, i requires 0 <= i < |tiles| => tiles[i].box)
  }

  lemma BoxesOfStates(tiles: seq<Tile>)
    ensures Boxes(States(tiles)) == TileBoxes(tiles)
  {
  }

  /** The collision rectangles of a tile list, in order. */
  function Boxes(tiles: seq<TileState>): (r: seq<Sprite>)
    ensures |r| == |tiles|
    ensures forall i :: 0 <= i < |tiles| ==> r[i] == tiles[i].box
  {
    seq(|tiles|, i requires 0 <= i < |tiles| => tiles[i].box)
  }

  /** The tiles of a list, as objects. */
  ghost function TileSet(ts: seq<Tile>): set<object>
  {
    set t | t in ts :: t as object
  }

  /** The tiles of a list and their animations. */
  ghost function TileObjects(ts: seq<Tile>): set<object>
  {
    TileSet(ts) + (set t | t in ts && t.animation != null :: t.animation as object)
  }
}

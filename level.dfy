/**
 * The level (level.py): the camera that follows Mario and never scrolls
 * back, the two parallax background images, the construction of a level
 * from its text, and the frame update that runs Mario, the enemies, the
 * items, the particles and the tiles, prunes the lists and keeps the timer
 * and the lives.  Each list pass is a loop proved against a function on the
 * snapshots, and the lemmas state what the passes promise.
 */
module Levels {
  import opened Settings
  import opened Outcomes
  import opened Sprites
  import opened Animations
  import opened LevelTiles
  import opened Items
  import opened Particles
  import opened Enemies
  import opened Players
  import opened LevelPasses

  /** Width of one background image and how much slower it scrolls. */
  const BACKGROUND_WIDTH: int := 256
  const PARALLAX_SCROLL: int := 3
  /** Mario starts a game with five lives. */
  const STARTING_LIVES: int := 5
  /** The flag on the castle starts at y = 100 and is raised to y = 80. */
  const FLAG_START_Y: int := 100
  const FLAG_TOP_Y: int := 80
  /** A firework is launched every ten frames at the end of the level. */
  const FIREWORK_PERIOD: int := 10
  /** Points per frame while the remaining time is counted down. */
  const TIME_BONUS: int := 200

  // ---------------------------------------------------------------------
  // Building a level from its text

  /** The stair block and flag tip characters of the level text. */
  const STAIR_CHAR: char := '\U{25A0}'
  const FLAG_TIP_CHAR: char := '\U{BA}'

  /** The characters that place a tile. */
  predicate TileChar(c: char)
  {
    c in {'F', 'B', '<', '>', '(', ')', 'Q', 'C', STAIR_CHAR, FLAG_TIP_CHAR, '|', '/'}
  }

  /** The tile that character `c` of the level text places for the cell at
      (x, y), as a list of at most one; `coins` is the random draw a block
      with coins takes.  A finish flag sits half a tile to the right. */
  function Placed(c: char, x: int, y: int, coins: int): (r: seq<TileState>)
    ensures |r| <= 1 && (|r| == 1 <==> TileChar(c))
    ensures |r| == 1 ==> var t := r[0];
      && t.box == Sprite(if c == '/' then x + TILE_SIZE / 2 else x, y, TILE_SIZE, TILE_SIZE)
      && t.Ok() && !t.broken && !t.bouncing && !t.used
  {
    var box := Sprite(x, y, TILE_SIZE, TILE_SIZE);
    if c == 'F' then [Fresh(Floor, box, false, "", 0)]
    else if c == 'B' then [Fresh(Block, box, true, "", 0)]
    else if c == '<' || c == '>' || c == '(' || c == ')' then [Fresh(Pipe, box, false, "", 0)]
    else if c == 'Q' then [Fresh(QuestionBlock, box, false, "mushroom", 0)]
    else if c == 'C' then [Fresh(CoinBlock, box, false, "", coins)]
    else if c == STAIR_CHAR then [Fresh(StairBlock, box, false, "", 0)]
    else if c == FLAG_TIP_CHAR then [Fresh(FlagTip, box, false, "", 0)]
    else if c == '|' then [Fresh(FlagPole, box, false, "", 0)]
    else if c == '/' then [Fresh(FinishFlag, box.(x := x + TILE_SIZE / 2), false, "", 0)]
    else []
  }

  /** The tiles row `r` of the level text places, left to right. */
  function RowTiles(row: string, r: int, coinsAt: (int, int) -> int): seq<TileState>
    decreases |row|
  {
    if row == [] then []
    else
      var n := |row| - 1;
      RowTiles(row[..n], r, coinsAt) + Placed(row[n], n * TILE_SIZE, r * TILE_SIZE, coinsAt(r, n))
  }

  /** The tiles the level text places, row by row. */
  function TextTiles(level: seq<string>, coinsAt: (int, int) -> int): seq<TileState>
    decreases |level|
  {
    if level == [] then []
    else
      var n := |level| - 1;
      TextTiles(level[..n], coinsAt) + RowTiles(level[n], n, coinsAt)
  }

  /** Where the player starts after row `r`, from `p` before it: the last
      'P' of the row, or `p`. */
  function RowStart(row: string, r: int, p: (int, int)): (int, int)
    decreases |row|
  {
    if row == [] then p
    else
      var n := |row| - 1;
      if row[n] == 'P' then (n * TILE_SIZE, r * TILE_SIZE) else RowStart(row[..n], r, p)
  }

  /** Where the player starts: at the last 'P' of the text, or at (0, 0). */
  function LevelStart(level: seq<string>): (int, int)
    decreases |level|
  {
    if level == [] then (0, 0)
    else
      var n := |level| - 1;
      RowStart(level[n], n, LevelStart(level[..n]))
  }

  /** The cells of a row that hold a tile character. */
  function TileCells(row: string): set<int>
  {
    set j | 0 <= j < |row| && TileChar(row[j])
  }

  /** A row places exactly one tile per tile character. */
  lemma {:induction false} RowTilesCount(row: string, r: int, coinsAt: (int, int) -> int)
    ensures |RowTiles(row, r, coinsAt)| == |TileCells(row)|
    decreases |row|
  {
    if row != [] {
      var n := |row| - 1;
      RowTilesCount(row[..n], r, coinsAt);
      if TileChar(row[n]) {
        assert TileCells(row) == TileCells(row[..n]) + {n};
      } else {
        assert TileCells(row) == TileCells(row[..n]);
      }
    }
  }

  /** Every tile of a row is the one some cell of the row places. */
  lemma {:induction false} RowTilesSound(row: string, r: int, coinsAt: (int, int) -> int, t: TileState)
    requires t in RowTiles(row, r, coinsAt)
    ensures exists j :: 0 <= j < |row| && Placed(row[j], j * TILE_SIZE, r * TILE_SIZE, coinsAt(r, j)) == [t]
    decreases |row|
  {
    var n := |row| - 1;
    var front := row[..n];
    if t in RowTiles(front, r, coinsAt) {
      RowTilesSound(front, r, coinsAt, t);
      var j :| 0 <= j < |front| && Placed(front[j], j * TILE_SIZE, r * TILE_SIZE, coinsAt(r, j)) == [t];
      assert front[j] == row[j];
    } else {
      assert Placed(row[n], n * TILE_SIZE, r * TILE_SIZE, coinsAt(r, n)) == [t];
    }
  }

  /** Every tile character of a row places its tile in the row's list. */
  lemma {:induction false} RowTilesComplete(row: string, r: int, coinsAt: (int, int) -> int, j: int)
    requires 0 <= j < |row| && TileChar(row[j])
    ensures Placed(row[j], j * TILE_SIZE, r * TILE_SIZE, coinsAt(r, j))[0] in RowTiles(row, r, coinsAt)
    decreases |row|
  {
    var n := |row| - 1;
    if j < n {
      RowTilesComplete(row[..n], r, coinsAt, j);
      assert row[..n][j] == row[j];
    }
  }

  /** No 'P' in the text: the player starts at (0, 0). */
  lemma {:induction false} LevelStartDefault(level: seq<string>)
    requires forall r, c :: 0 <= r < |level| && 0 <= c < |level[r]| ==> level[r][c] != 'P'
    ensures LevelStart(level) == (0, 0)
    decreases |level|
  {
    if level != [] {
      var n := |level| - 1;
      var front := level[..n];
      assert forall r :: 0 <= r < n ==> front[r] == level[r];
      LevelStartDefault(front);
      RowStartDefault(level[n], n, (0, 0));
    }
  }

  /** A row without 'P' keeps the start it was given. */
  lemma {:induction false} RowStartDefault(row: string, r: int, p: (int, int))
    requires forall c :: 0 <= c < |row| ==> row[c] != 'P'
    ensures RowStart(row, r, p) == p
    decreases |row|
  {
    if row != [] {
      var n := |row| - 1;
      assert forall c :: 0 <= c < n ==> row[..n][c] == row[c];
      RowStartDefault(row[..n], r, p);
    }
  }

  /** The player starts at the last 'P' of the text in reading order. */
  lemma {:induction false} LevelStartLast(level: seq<string>, r: int, c: int)
    requires 0 <= r < |level| && 0 <= c < |level[r]| && level[r][c] == 'P'
    requires forall c' :: c < c' < |level[r]| ==> level[r][c'] != 'P'
    requires forall r', c' :: r < r' < |level| && 0 <= c' < |level[r']| ==> level[r'][c'] != 'P'
    ensures LevelStart(level) == (c * TILE_SIZE, r * TILE_SIZE)
    decreases |level|
  {
    var n := |level| - 1;
    var front := level[..n];
    if r < n {
      assert forall k :: 0 <= k < n ==> front[k] == level[k];
      LevelStartLast(front, r, c);
      RowStartDefault(level[n], n, LevelStart(front));
    } else {
      RowStartLast(level[n], n, LevelStart(front), c);
    }
  }

  /** Within a row, the last 'P' sets the start. */
  lemma {:induction false} RowStartLast(row: string, r: int, p: (int, int), c: int)
    requires 0 <= c < |row| && row[c] == 'P'
    requires forall c' :: c < c' < |row| ==> row[c'] != 'P'
    ensures RowStart(row, r, p) == (c * TILE_SIZE, r * TILE_SIZE)
    decreases |row|
  {
    var n := |row| - 1;
    if c < n {
      assert forall k :: 0 <= k < n ==> row[..n][k] == row[k];
      RowStartLast(row[..n], r, p, c);
    }
  }

  /** The tile objects character `c` places for the cell at (x, y). */
  method MakeTiles(c: char, x: int, y: int, coins: int, tick: int) returns (made: seq<Tile>)
    ensures TilesOk(made) && States(made) == Placed(c, x, y, coins)
    ensures forall j :: 0 <= j < |made| ==> fresh(made[j]) && (made[j].animation == null || fresh(made[j].animation))
  {
    var t: Tile;
    if c == 'F' {
      t := new Tile.Plain(Floor, x, y);
    } else if c == 'B' {
      t := new Tile.NewBlock(x, y, true);
    } else if c == '<' {
      t := new Tile.NewPipe(x, y, 0);
    } else if c == '>' {
      t := new Tile.NewPipe(x, y, 1);
    } else if c == '(' {
      t := new Tile.NewPipe(x, y, 3);
    } else if c == ')' {
      t := new Tile.NewPipe(x, y, 2);
    } else if c == 'Q' {
      t := new Tile.NewQuestionBlock(x, y, "mushroom", tick);
    } else if c == 'C' {
      t := new Tile.NewCoinBlock(x, y, coins);
    } else if c == STAIR_CHAR {
      t := new Tile.Plain(StairBlock, x, y);
    } else if c == FLAG_TIP_CHAR {
      t := new Tile.Plain(FlagTip, x, y);
    } else if c == '|' {
      t := new Tile.Plain(FlagPole, x, y);
    } else if c == '/' {
      t := new Tile.Plain(FinishFlag, x + TILE_SIZE / 2, y);
    } else {
      made := [];
      return;
    }
    made := [t];
  }

  /** Two well-kept tile lists with no tile in common make a well-kept
      list, whose snapshots are theirs end to end. */
  lemma TilesAppend(a: seq<Tile>, b: seq<Tile>)
    requires TilesOk(a) && TilesOk(b)
    requires forall i, j :: 0 <= i < |a| && 0 <= j < |b| ==> a[i] != b[j]
    ensures TilesOk(a + b) && States(a + b) == States(a) + States(b)
  {
    assert forall i :: 0 <= i < |a + b| ==> (a + b)[i] == if i < |a| then a[i] else b[i - |a|];
  }

  /** `create_level`: Mario is created at (0, 0), then the text is read row
      by row, left to right; a 'P' creates Mario again at its cell and every
      tile character appends its tile.  `coinsAt` stands for the coin draws
      of the coin blocks. */
  method BuildLevel(level: seq<string>, tick: int, coinsAt: (int, int) -> int) returns (player: Mario, tiles: seq<Tile>)
    ensures fresh(player) && fresh(player.animation) && player.Valid()
    ensures player.State() == MarioStart(LevelStart(level).0, LevelStart(level).1, tick)
    ensures TilesOk(tiles) && States(tiles) == TextTiles(level, coinsAt)
    ensures forall t :: t in tiles ==> fresh(t) && (t.animation == null || fresh(t.animation))
  {
    player := new Mario(0, 0, tick);
    tiles := [];
    var r := 0;
    while r < |level|
      invariant 0 <= r <= |level|
      invariant fresh(player) && fresh(player.animation) && player.Valid()
      invariant player.State() == MarioStart(LevelStart(level[..r]).0, LevelStart(level[..r]).1, tick)
      invariant TilesOk(tiles) && States(tiles) == TextTiles(level[..r], coinsAt)
      invariant forall t :: t in tiles ==> fresh(t) && (t.animation == null || fresh(t.animation))
    {
      player, tiles := BuildRow(level, r, tick, coinsAt, player, tiles);
      r := r + 1;
    }
    assert level[..r] == level;
  }

  /** One row of `create_level`. */
  method BuildRow(level: seq<string>, r: int, tick: int, coinsAt: (int, int) -> int, player0: Mario, tiles0: seq<Tile>)
    returns (player: Mario, tiles: seq<Tile>)
    requires 0 <= r < |level| && player0.Valid() && TilesOk(tiles0)
    requires player0.State() == MarioStart(LevelStart(level[..r]).0, LevelStart(level[..r]).1, tick)
    requires States(tiles0) == TextTiles(level[..r], coinsAt)
    ensures player == player0 || (fresh(player) && fresh(player.animation))
    ensures player.Valid() && player.State() == MarioStart(LevelStart(level[..r + 1]).0, LevelStart(level[..r + 1]).1, tick)
    ensures TilesOk(tiles) && States(tiles) == TextTiles(level[..r + 1], coinsAt)
    ensures forall t :: t in tiles ==> t in tiles0 || (fresh(t) && (t.animation == null || fresh(t.animation)))
  {
    LevelSnoc(level, r, coinsAt);
    player, tiles := BuildCells(level[r], r, tick, coinsAt, LevelStart(level[..r]), player0, tiles0);
  }

  /** The cells of row `r`, left to right, after Mario at `start` and the
      tiles `tiles0`. */
  method BuildCells(row: string, r: int, tick: int, coinsAt: (int, int) -> int, start: (int, int),
                    player0: Mario, tiles0: seq<Tile>)
    returns (player: Mario, tiles: seq<Tile>)
    requires player0.Valid() && TilesOk(tiles0)
    requires player0.State() == MarioStart(start.0, start.1, tick)
    ensures player == player0 || (fresh(player) && fresh(player.animation))
    ensures player.Valid() && player.State() == MarioStart(RowStart(row, r, start).0, RowStart(row, r, start).1, tick)
    ensures TilesOk(tiles) && States(tiles) == old(States(tiles0)) + RowTiles(row, r, coinsAt)
    ensures forall t :: t in tiles ==> t in tiles0 || (fresh(t) && (t.animation == null || fresh(t.animation)))
  {
    player, tiles := player0, tiles0;
    var c := 0;
    ghost var before := States(tiles0);
    while c < |row|
      invariant 0 <= c <= |row|
      invariant player == player0 || (fresh(player) && fresh(player.animation))
      invariant player.Valid() && player.State() == MarioStart(RowStart(row[..c], r, start).0, RowStart(row[..c], r, start).1, tick)
      invariant TilesOk(tiles) && States(tiles) == before + RowTiles(row[..c], r, coinsAt)
      invariant forall t :: t in tiles ==> t in tiles0 || (fresh(t) && (t.animation == null || fresh(t.animation)))
    {
      player, tiles := PlaceNext(row, c, r, tick, coinsAt, start, before, player, tiles);
      c := c + 1;
    }
    assert row[..c] == row;
  }

  /** The c-th cell of a row that the cells before it left at Mario
      `player0` and the tiles `tiles0`, whose states continue `before`. */
  method PlaceNext(row: string, c: int, r: int, tick: int, coinsAt: (int, int) -> int, start: (int, int),
                   ghost before: seq<TileState>, player0: Mario, tiles0: seq<Tile>)
    returns (player: Mario, tiles: seq<Tile>)
    requires 0 <= c < |row|
    requires player0.Valid() && TilesOk(tiles0)
    requires player0.State() == MarioStart(RowStart(row[..c], r, start).0, RowStart(row[..c], r, start).1, tick)
    requires States(tiles0) == before + RowTiles(row[..c], r, coinsAt)
    ensures player == player0 || (fresh(player) && fresh(player.animation))
    ensures player.Valid()
    ensures player.State() == MarioStart(RowStart(row[..c + 1], r, start).0, RowStart(row[..c + 1], r, start).1, tick)
    ensures TilesOk(tiles) && States(tiles) == before + RowTiles(row[..c + 1], r, coinsAt)
    ensures forall t :: t in tiles ==> t in tiles0 || (fresh(t) && (t.animation == null || fresh(t.animation)))
  {
    RowSnoc(row, c, r, coinsAt, start);
    player, tiles := PlaceCell(row[c], c * TILE_SIZE, r * TILE_SIZE, coinsAt(r, c), tick, player0, tiles0);
  }

  /** The level's tiles and start one row further on. */
  lemma LevelSnoc(level: seq<string>, r: int, coinsAt: (int, int) -> int)
    requires 0 <= r < |level|
    ensures TextTiles(level[..r + 1], coinsAt) == TextTiles(level[..r], coinsAt) + RowTiles(level[r], r, coinsAt)
    ensures LevelStart(level[..r + 1]) == RowStart(level[r], r, LevelStart(level[..r]))
  {
    assert level[..r + 1][..r] == level[..r];
  }

  /** The row's tiles and start one cell further on. */
  lemma RowSnoc(row: string, c: int, r: int, coinsAt: (int, int) -> int, p: (int, int))
    requires 0 <= c < |row|
    ensures RowTiles(row[..c + 1], r, coinsAt) == RowTiles(row[..c], r, coinsAt) + Placed(row[c], c * TILE_SIZE, r * TILE_SIZE, coinsAt(r, c))
    ensures RowStart(row[..c + 1], r, p) == if row[c] == 'P' then (c * TILE_SIZE, r * TILE_SIZE) else RowStart(row[..c], r, p)
  {
    assert row[..c + 1][..c] == row[..c];
  }

  /** One cell of `create_level`: a 'P' creates Mario there, a tile
      character appends its tile, anything else is skipped. */
  method PlaceCell(ch: char, x: int, y: int, coins: int, tick: int, player0: Mario, tiles0: seq<Tile>)
    returns (player: Mario, tiles: seq<Tile>)
    requires player0.Valid() && TilesOk(tiles0)
    ensures player == player0 || (fresh(player) && fresh(player.animation))
    ensures player.Valid() && player.State() == if ch == 'P' then MarioStart(x, y, tick) else old(player0.State())
    ensures TilesOk(tiles) && States(tiles) == old(States(tiles0)) + Placed(ch, x, y, coins)
    ensures forall t :: t in tiles ==> t in tiles0 || (fresh(t) && (t.animation == null || fresh(t.animation)))
  {
    if ch == 'P' {
      player := new Mario(x, y, tick);
      tiles := tiles0;
    } else {
      var made := MakeTiles(ch, x, y, coins, tick);
      TilesAppend(tiles0, made);
      player, tiles := player0, tiles0 + made;
    }
  }

  // ---------------------------------------------------------------------
  // Camera

  /** A snapshot of the camera: its x, the largest x it has reached, and
      the width of the world. */
  datatype CameraState = CameraState(x: int, maximumX: int, worldWidth: int)
  {
    /** `x_shift`: what is added to a world x to draw it. */
    function XShift(): int { -x }

    /** The camera has never scrolled back and stays inside the world. */
    predicate Inv()
    {
      0 <= maximumX <= x <= worldWidth - SCREEN_WIDTH
    }
  }

  /** `focus(target)`: the furthest x so far is recorded first, then the
      camera centres on the target, clamped to [maximum_x, world_width -
      SCREEN_WIDTH]. */
  function Focused(c: CameraState, target: Sprite): (r: CameraState)
    ensures r.worldWidth == c.worldWidth
    ensures r.maximumX == (if c.x > c.maximumX then c.x else c.maximumX)
  {
    var m := if c.x > c.maximumX then c.x else c.maximumX;
    var x := target.CenterX() - SCREEN_WIDTH / 2;
    var x' := if x < m then m else if x > c.worldWidth - SCREEN_WIDTH then c.worldWidth - SCREEN_WIDTH else x;
    CameraState(x', m, c.worldWidth)
  }

  /** The camera never scrolls back: `maximum_x` never decreases, and while
      the world is at least a screen wide the camera stays between
      `maximum_x` and the right end of the world, centred on the target
      whenever that is possible. */
  lemma FocusKeepsCamera(c: CameraState, target: Sprite)
    requires c.Inv()
    ensures var r := Focused(c, target);
      var t := target.CenterX() - SCREEN_WIDTH / 2;
      && r.Inv() && r.maximumX >= c.maximumX && r.maximumX == c.x
      && (c.x <= t <= c.worldWidth - SCREEN_WIDTH ==> r.x == t)
  {
  }

  class Camera {
    var x: int
    var maximumX: int
    const worldWidth: int

    function State(): CameraState
      reads this
    {
      CameraState(x, maximumX, worldWidth)
    }

    /** `Camera(world_width)`: at the left end of the world. */
    constructor (worldWidth: int)
      ensures State() == CameraState(0, 0, worldWidth)
      ensures worldWidth >= SCREEN_WIDTH ==> State().Inv()
    {
      x := 0;
      maximumX := 0;
      this.worldWidth := worldWidth;
    }

    method Focus(target: Sprite)
      modifies this
      ensures State() == Focused(old(State()), target)
    {
      if x > maximumX {
        maximumX := x;
      }
      x := target.CenterX() - SCREEN_WIDTH / 2;
      if x < maximumX {
        x := maximumX;
      } else if x > worldWidth - SCREEN_WIDTH {
        x := worldWidth - SCREEN_WIDTH;
      }
    }
  }

  // ---------------------------------------------------------------------
  // Background

  /** A snapshot of the background: where the two images are, which one is
      on the left, and how many times the left one has jumped ahead. */
  datatype BackgroundState = BackgroundState(x1: int, x2: int, firstLeft: bool, change: int)
  {
    /** The two images sit side by side, the left one at `change` image
        widths. */
    predicate Inv()
    {
      && change >= 0
      && (firstLeft ==> x1 == BACKGROUND_WIDTH * change && x2 == x1 + BACKGROUND_WIDTH)
      && (!firstLeft ==> x2 == BACKGROUND_WIDTH * change && x1 == x2 + BACKGROUND_WIDTH)
    }
  }

  const BACKGROUND_START: BackgroundState := BackgroundState(0, BACKGROUND_WIDTH, true, 0)

  /** `update(x_shift)`: once the camera has scrolled past another stretch
      of three image widths, the left image jumps to the right of the other
      one. */
  function Scrolled(b: BackgroundState, xShift: int): (r: BackgroundState)
  {
    var divisor := -xShift / (BACKGROUND_WIDTH * PARALLAX_SCROLL);
    if divisor > b.change then
      if b.firstLeft then BackgroundState(b.x2 + BACKGROUND_WIDTH, b.x2, false, b.change + 1)
      else BackgroundState(b.x1, b.x1 + BACKGROUND_WIDTH, true, b.change + 1)
    else b
  }

  /** The images stay side by side, the left one moves at most one image
      width per update, and it has moved exactly when the camera has passed
      another 768 pixels. */
  lemma ScrollKeepsImagesTogether(b: BackgroundState, xShift: int)
    requires b.Inv()
    ensures var r := Scrolled(b, xShift);
      && r.Inv() && b.change <= r.change <= b.change + 1
      && (r.change > b.change <==> -xShift / (BACKGROUND_WIDTH * PARALLAX_SCROLL) > b.change)
  {
  }

  class Background {
    var x1: int
    var x2: int
    var firstLeft: bool
    var change: int

    function State(): BackgroundState
      reads this
    {
      BackgroundState(x1, x2, firstLeft, change)
    }

    constructor ()
      ensures State() == BACKGROUND_START && State().Inv()
    {
      x1 := 0;
      x2 := BACKGROUND_WIDTH;
      firstLeft := true;
      change := 0;
    }

    method Update(xShift: int)
      modifies this
      ensures State() == Scrolled(old(State()), xShift)
    {
      var divisor := -xShift / (BACKGROUND_WIDTH * PARALLAX_SCROLL);
      if divisor > change {
        if firstLeft {
          x1 := x2 + BACKGROUND_WIDTH;
          firstLeft := false;
        } else {
          x2 := x1 + BACKGROUND_WIDTH;
          firstLeft := true;
        }
        change := change + 1;
      }
    }
  }

  // ---------------------------------------------------------------------
  // The level's frame, on snapshots

  /** A snapshot of the level: the timer, the lives, the height of the flag
      on the castle, whether the game has asked to quit, and the snapshots
      of Mario, the camera, the background and the four lists. */
  datatype LevelState = LevelState(
    time: int, lives: int, flagY: int, quit: bool,
    player: MarioState, camera: CameraState, background: BackgroundState,
    tiles: seq<TileState>, enemies: seq<EnemyState>, items: seq<ItemState>, particles: seq<ParticleState>)

  /** The random draws one frame may take: the kind of a spawned enemy (a
      KoopaTroopa one time in four), the velocity of a firework, and the
      coins of every coin block (1 to 5) should the level be rebuilt. */
  datatype Draws = Draws(koopa: bool, fireworkVx: int, fireworkVy: int, coinsAt: (int, int) -> int)
  {
    /** The ranges `Firework` draws its velocity from. */
    predicate Ok()
    {
      -10 <= fireworkVx <= 10 && -6 <= fireworkVy <= -2
    }
  }

  /** `world_width`: one tile per character of the first row. */
  function WorldWidth(level: seq<string>): int
    requires |level| > 0
  {
    |level[0]| * TILE_SIZE
  }

  /** `reset_level`, and the first half of building a level: the timer
      starts over, the lists are rebuilt from the text, a new Mario stands
      at his start, and the camera and the background start over; the lives
      and the flag are kept. */
  function Restarted(s: LevelState, level: seq<string>, coinsAt: (int, int) -> int, tick: int): (r: LevelState)
    requires |level| > 0
  {
    var start := LevelStart(level);
    s.(time := STARTING_TIME, player := MarioStart(start.0, start.1, tick),
       camera := CameraState(0, 0, WorldWidth(level)), background := BACKGROUND_START,
       tiles := TextTiles(level, coinsAt), enemies := [], items := [], particles := [])
  }

  /** `player.update(...)`: Mario's frame over the tiles, the enemies and
      the items, with the particles he spawns appended to the level's. */
  function PlayerMoved(s: LevelState, keys: Keys, tick: int): (r: (LevelState, Option<PyError>))
    ensures |r.0.particles| >= |s.particles| && r.0.particles[..|s.particles|] == s.particles
    ensures |r.0.enemies| == |s.enemies|
    ensures r.0.(player := s.player, tiles := s.tiles, enemies := s.enemies, items := s.items, particles := s.particles) == s
  {
    var step := MarioStep(s.player, World(s.tiles, s.enemies, s.items, []), keys, tick);
    var w := step.1;
    assert (s.particles + w.particles)[..|s.particles|] == s.particles;
    (s.(player := step.0, tiles := w.tiles, enemies := w.enemies, items := w.items, particles := s.particles + w.particles), step.2)
  }

  /** `camera.focus(player)`, `background.update(camera.x_shift)`, and
      Mario pushed forward to `minimum_x_mario` if he is left of it. */
  function Followed(s: LevelState): (r: LevelState)
    ensures r.camera == Focused(s.camera, s.player.box)
    ensures r.player.box.x >= r.camera.maximumX
    ensures r.player == s.player.(box := s.player.box.(x := r.player.box.x))
    ensures r.player.box.x == s.player.box.x || r.player.box.x == r.camera.maximumX
    ensures r.(player := s.player, camera := s.camera, background := s.background) == s
  {
    var t := Trailed(s.player, s.camera, s.background);
    s.(player := t.0, camera := t.1, background := t.2)
  }

  /** Mario, the camera and the background after the camera has followed
      Mario. */
  function Trailed(m: MarioState, c: CameraState, b: BackgroundState): (MarioState, CameraState, BackgroundState)
  {
    var c' := Focused(c, m.box);
    var m' := if m.box.x < c'.maximumX then m.(box := m.box.(x := c'.maximumX)) else m;
    (m', c', Scrolled(b, c'.XShift()))
  }

  /** Normal play: Mario is not growing, not sliding down the pole and not
      dead. */
  predicate Playing(m: MarioState)
  {
    m.action != Action.Grow && !m.finishingOnPole && !m.dead
  }

  /** `spawn_enemies`, then the enemy loop with Mario at his x, then the
      timer. */
  function Skirmish(s: LevelState, tick: int, koopa: bool): (r: LevelState)
  {
    var es := Spawned(s.enemies, s.camera.XShift(), tick, koopa);
    var sw := EnemiesPass(es, [], s.tiles, s.player.box.x, tick);
    Ticked(s.(enemies := sw.kept, tiles := sw.tiles), tick)
  }

  /** The timer of normal play: a second goes by every FPS frames, and Mario
      dies once no time is left. */
  function Ticked(s: LevelState, tick: int): (r: LevelState)
    ensures r.time == (if tick % FPS == 0 then s.time - 1 else s.time)
    ensures r.player == (if tick % FPS == 0 && r.time <= 0 then Died(s.player, tick) else s.player)
    ensures r.(time := s.time, player := s.player) == s
  {
    if tick % FPS != 0 then s
    else if s.time - 1 <= 0 then s.(time := s.time - 1, player := Died(s.player, tick))
    else s.(time := s.time - 1)
  }

  /** Inside the castle: the flag rises one pixel a frame up to y = 80;
      while time is left, a firework goes up every ten frames, Mario earns
      200 points and the time drops by two; then the time is set to 0. */
  function Celebrated(s: LevelState, tick: int, vx: int, vy: int): (r: LevelState)
  {
    var y := if s.flagY > FLAG_TOP_Y then s.flagY - 1 else s.flagY;
    if s.time > 0 then
      var fireworks := if tick % FIREWORK_PERIOD == 0 then [FireworkState(SCREEN_WIDTH / 2 - s.camera.XShift(), y, vx, vy, tick)] else [];
      s.(flagY := y, time := s.time - 2, player := s.player.(score := s.player.score + TIME_BONUS),
         particles := s.particles + fireworks)
    else s.(flagY := y, time := 0)
  }

  /** `Celebrated` on a level given by its counters and the snapshots of
      its objects. */
  lemma CelebratedParts(time: int, lives: int, flagY: int, quit: bool, p: PartStates, tick: int, vx: int, vy: int,
                         launch: bool, x: int, y: int)
    requires launch == (tick % FIREWORK_PERIOD == 0) && x == SCREEN_WIDTH / 2 - p.1.XShift()
    requires y == if flagY > FLAG_TOP_Y then flagY - 1 else flagY
    ensures Celebrated(LevelState(time, lives, flagY, quit, p.0, p.1, p.2, p.3, p.4, p.5, p.6), tick, vx, vy)
      == if time > 0 then
           LevelState(time - 2, lives, y, quit, p.0.(score := p.0.score + TIME_BONUS), p.1, p.2, p.3, p.4, p.5,
                      p.6 + if launch then [FireworkState(x, y, vx, vy, tick)] else [])
         else LevelState(0, lives, y, quit, p.0, p.1, p.2, p.3, p.4, p.5, p.6)
  {
  }

  /** Mario is dead: once his death animation has played, a life is taken
      and the level starts over, or with no life left the game asks to
      quit. */
  function Mourned(s: LevelState, level: seq<string>, coinsAt: (int, int) -> int, tick: int): (r: LevelState)
    requires |level| > 0
  {
    if !s.player.anim.playedOnce then s
    else if s.lives > 0 then Restarted(s.(lives := s.lives - 1), level, coinsAt, tick)
    else s.(quit := true)
  }

  /** The middle of `update`: normal play, the end in the castle, or death. */
  function Branched(s: LevelState, level: seq<string>, tick: int, d: Draws): (r: LevelState)
    requires |level| > 0
  {
    if Playing(s.player) then Skirmish(s, tick, d.koopa)
    else if s.player.finishingInsideCastle then Celebrated(s, tick, d.fireworkVx, d.fireworkVy)
    else if s.player.dead then Mourned(s, level, d.coinsAt, tick)
    else s
  }

  /** The end of `update`: the item loop, the particle loop and the tile
      loop, which appends the debris of the broken tiles to the particles. */
  function Cleaned(s: LevelState, tick: int): (r: LevelState)
    ensures r.(tiles := s.tiles, items := s.items, particles := s.particles) == s
  {
    var sweep := TilesPass(s.tiles, [], []);
    s.(items := ItemsKept(s.items, s.tiles), particles := ParticlesKept(s.particles, tick) + sweep.debris,
       tiles := sweep.kept)
  }

  /** `Level.update` at frame `tick` with the keys held and the draws made:
      the state after the frame, or the error Mario's update raised, with
      the state as that update left it. */
  function LevelStep(s: LevelState, level: seq<string>, keys: Keys, tick: int, d: Draws): (r: (LevelState, Option<PyError>))
    requires |level| > 0
  {
    var moved := PlayerMoved(s, keys, tick);
    if moved.1.Some? then moved else (Rest(moved.0, level, tick, d), None)
  }

  /** The rest of `update` once Mario's update is done. */
  function Rest(s: LevelState, level: seq<string>, tick: int, d: Draws): (r: LevelState)
    requires |level| > 0
  {
    Cleaned(Branched(Followed(s), level, tick, d), tick)
  }

  /** Mario starts inside the world: both coordinates of his start are at
      least 0. */
  lemma {:induction false} LevelStartInWorld(level: seq<string>)
    ensures LevelStart(level).0 >= 0 && LevelStart(level).1 >= 0
    decreases |level|
  {
    if level != [] {
      var n := |level| - 1;
      LevelStartInWorld(level[..n]);
      RowStartInWorld(level[n], n, LevelStart(level[..n]));
    }
  }

  /** A row moves a start inside the world to a start inside the world. */
  lemma {:induction false} RowStartInWorld(row: string, r: int, p: (int, int))
    requires r >= 0 && p.0 >= 0 && p.1 >= 0
    ensures RowStart(row, r, p).0 >= 0 && RowStart(row, r, p).1 >= 0
    decreases |row|
  {
    if row != [] && row[|row| - 1] != 'P' {
      RowStartInWorld(row[..|row| - 1], r, p);
    }
  }

  /** What every frame keeps: the camera has never scrolled back and stays
      inside the world, the background images sit side by side, the lives
      are not negative and the flag is not above y = 80. */
  predicate LevelInv(s: LevelState, level: seq<string>)
    requires |level| > 0
  {
    && s.camera.Inv() && s.camera.worldWidth == WorldWidth(level)
    && s.background.Inv() && s.lives >= 0 && s.flagY >= FLAG_TOP_Y
  }

  /** A level that starts over meets the invariant, keeping its lives and
      its flag, with Mario inside the world and not left of the camera. */
  lemma RestartedInv(s: LevelState, level: seq<string>, coinsAt: (int, int) -> int, tick: int)
    requires |level| > 0 && WorldWidth(level) >= SCREEN_WIDTH && s.lives >= 0 && s.flagY >= FLAG_TOP_Y
    ensures var r := Restarted(s, level, coinsAt, tick);
      && LevelInv(r, level) && r.lives == s.lives && r.flagY == s.flagY
      && r.player.box.x >= r.camera.maximumX && r.player.box.y >= 0
  {
    LevelStartInWorld(level);
  }

  /** Following Mario keeps the invariant and leaves him not left of the
      camera's `minimum_x_mario`. */
  lemma FollowedInv(s: LevelState, level: seq<string>)
    requires |level| > 0 && WorldWidth(level) >= SCREEN_WIDTH && LevelInv(s, level)
    ensures LevelInv(Followed(s), level)
  {
    FocusKeepsCamera(s.camera, s.player.box);
    ScrollKeepsImagesTogether(s.background, Focused(s.camera, s.player.box).XShift());
  }

  /** The middle of the frame keeps the invariant; it keeps Mario not left
      of the camera, and it takes at most one life, only from a dead Mario
      whose animation has played, and only when one is left. */
  lemma BranchedInv(s: LevelState, level: seq<string>, tick: int, d: Draws)
    requires |level| > 0 && WorldWidth(level) >= SCREEN_WIDTH && LevelInv(s, level)
    ensures var r := Branched(s, level, tick, d);
      && LevelInv(r, level)
      && (s.player.box.x >= s.camera.maximumX ==> r.player.box.x >= r.camera.maximumX)
      && r.lives == (if Dying(s.player) && s.lives > 0 then s.lives - 1 else s.lives)
      && r.quit == (s.quit || (Dying(s.player) && s.lives == 0))
  {
    if !Playing(s.player) && !s.player.finishingInsideCastle && s.player.dead && s.player.anim.playedOnce && s.lives > 0 {
      RestartedInv(s.(lives := s.lives - 1), level, d.coinsAt, tick);
    }
  }

  /** The branch of `update` that takes a life: Mario is dead (not growing,
      not on the pole, not in the castle) and his animation has played. */
  predicate Dying(m: MarioState)
  {
    !Playing(m) && !m.finishingInsideCastle && m.dead && m.anim.playedOnce
  }

  /** A frame keeps the level invariant.  A frame that does not fail leaves
      Mario not left of `minimum_x_mario`; it never brings the enemies above
      four unless there were more already; it takes a life only from a dying
      Mario with a life left, and asks to quit only when none is left. */
  lemma LevelStepKeeps(s: LevelState, level: seq<string>, keys: Keys, tick: int, d: Draws)
    requires |level| > 0 && WorldWidth(level) >= SCREEN_WIDTH && LevelInv(s, level)
    ensures var (r, err) := LevelStep(s, level, keys, tick, d);
      var m := PlayerMoved(s, keys, tick).0.player;
      && LevelInv(r, level)
      && (err.None? ==> r.player.box.x >= r.camera.maximumX)
      && |r.enemies| <= (if |s.enemies| < MAX_ENEMIES then MAX_ENEMIES else |s.enemies|)
      && r.lives == (if err.None? && Dying(m) && s.lives > 0 then s.lives - 1 else s.lives)
      && r.quit == (s.quit || (err.None? && Dying(m) && s.lives == 0))
  {
    var moved := PlayerMoved(s, keys, tick);
    if moved.1.None? {
      RestKeeps(moved.0, level, tick, d);
    }
  }

  /** The rest of the frame keeps the invariant, leaves Mario not left of
      `minimum_x_mario`, keeps the enemies at most four unless there were
      more, and takes a life only from a dying Mario with a life left. */
  lemma RestKeeps(s: LevelState, level: seq<string>, tick: int, d: Draws)
    requires |level| > 0 && WorldWidth(level) >= SCREEN_WIDTH && LevelInv(s, level)
    ensures var r := Rest(s, level, tick, d);
      && LevelInv(r, level) && r.player.box.x >= r.camera.maximumX
      && |r.enemies| <= (if |s.enemies| < MAX_ENEMIES then MAX_ENEMIES else |s.enemies|)
      && r.lives == (if Dying(s.player) && s.lives > 0 then s.lives - 1 else s.lives)
      && r.quit == (s.quit || (Dying(s.player) && s.lives == 0))
  {
    var f := Followed(s);
    FollowedInv(s, level);
    BranchedInv(f, level, tick, d);
    BranchedBoundsEnemies(f, level, tick, d);
  }

  /** The middle of the frame brings the enemies to at most four, unless
      there were more already. */
  lemma BranchedBoundsEnemies(s: LevelState, level: seq<string>, tick: int, d: Draws)
    requires |level| > 0
    ensures |Branched(s, level, tick, d).enemies| <= if |s.enemies| < MAX_ENEMIES then MAX_ENEMIES else |s.enemies|
  {
    if Playing(s.player) {
      var es := Spawned(s.enemies, s.camera.XShift(), tick, d.koopa);
      EnemiesPassKeeps(es, [], s.tiles, s.player.box.x, tick);
    }
  }

  /** The timer of normal play: a second goes by every FPS frames, and once
      no time is left Mario dies; the lives and the flag stay. */
  lemma PlayTimer(s: LevelState, tick: int, koopa: bool)
    ensures var r := Skirmish(s, tick, koopa);
      && r.time == (if tick % FPS == 0 then s.time - 1 else s.time)
      && (tick % FPS == 0 && s.time <= 1 ==> r.player.dead && r.player.action == Death)
      && (tick % FPS != 0 || s.time > 1 ==> r.player == s.player)
      && r.lives == s.lives && r.flagY == s.flagY
  {
  }

  /** Inside the castle: while time is left, each frame turns two seconds
      into 200 points; then the time is 0.  The flag rises one pixel a frame
      until it reaches y = 80, and no life is taken. */
  lemma CastleTimer(s: LevelState, tick: int, vx: int, vy: int)
    ensures var r := Celebrated(s, tick, vx, vy);
      && r.time == (if s.time > 0 then s.time - 2 else 0)
      && r.player == s.player.(score := s.player.score + (if s.time > 0 then TIME_BONUS else 0))
      && r.flagY == (if s.flagY > FLAG_TOP_Y then s.flagY - 1 else s.flagY) && r.lives == s.lives
  {
  }

  /** The rest of the frame runs the branch of `update` that Mario's state
      selects, between following him and the list loops. */
  lemma RestBranches(s: LevelState, level: seq<string>, tick: int, d: Draws)
    requires |level| > 0
    ensures var f := Followed(s);
      && (Playing(s.player) ==> Rest(s, level, tick, d) == Cleaned(Skirmish(f, tick, d.koopa), tick))
      && (!Playing(s.player) && s.player.finishingInsideCastle ==>
            Rest(s, level, tick, d) == Cleaned(Celebrated(f, tick, d.fireworkVx, d.fireworkVy), tick))
      && (Dying(s.player) ==> Rest(s, level, tick, d) == Cleaned(Mourned(f, level, d.coinsAt, tick), tick))
      && f.time == s.time && f.flagY == s.flagY && f.player.score == s.player.score
  {
  }

  /** Mario's update leaves the timer, the lives and the flag alone, so the
      two lemmas above speak of the time before the frame. */
  lemma PlayerKeepsClock(s: LevelState, keys: Keys, tick: int)
    ensures var r := PlayerMoved(s, keys, tick).0;
      r.time == s.time && r.lives == s.lives && r.flagY == s.flagY && r.quit == s.quit
  {
  }

  /** After the rest of the frame no tile is broken and no item is used:
      the loops at the end of `update` removed them all. */
  lemma SweptClean(s: LevelState, level: seq<string>, tick: int, d: Draws)
    requires |level| > 0
    ensures var r := Rest(s, level, tick, d);
      (forall k :: 0 <= k < |r.tiles| ==> !r.tiles[k].broken) && (forall k :: 0 <= k < |r.items| ==> !r.items[k].used)
  {
    var b := Branched(Followed(s), level, tick, d);
    TilesPassSplit(b.tiles, [], []);
  }

  // ---------------------------------------------------------------------
  // The level object

  /** A level as `Level(level)` builds it at frame `tick`: full time, five
      lives, the flag on the castle at y = 100, and the rest as a restart
      leaves it. */
  function Opening(level: seq<string>, coinsAt: (int, int) -> int, tick: int): (r: LevelState)
    requires |level| > 0
  {
    var start := LevelStart(level);
    LevelState(STARTING_TIME, STARTING_LIVES, FLAG_START_Y, false, MarioStart(start.0, start.1, tick),
               CameraState(0, 0, WorldWidth(level)), BACKGROUND_START, TextTiles(level, coinsAt), [], [], [])
  }

  /** A new level meets the invariant when it is at least a screen wide, and
      is the level a restart would build, with five lives. */
  lemma OpeningInv(level: seq<string>, coinsAt: (int, int) -> int, tick: int)
    requires |level| > 0 && WorldWidth(level) >= SCREEN_WIDTH
    ensures var r := Opening(level, coinsAt, tick);
      && LevelInv(r, level) && r.player.box.x >= r.camera.maximumX
      && r == Restarted(r, level, coinsAt, tick) && r.lives == STARTING_LIVES
  {
    RestartedInv(Opening(level, coinsAt, tick), level, coinsAt, tick);
  }

  /** Two well-kept enemy lists with no enemy in common make a well-kept
      list, whose snapshots are theirs end to end. */
  lemma EnemiesAppend(a: seq<Enemy>, b: seq<Enemy>)
    requires EnemiesOk(a) && EnemiesOk(b)
    requires forall i, j :: 0 <= i < |a| && 0 <= j < |b| ==> a[i] != b[j]
    ensures EnemiesOk(a + b) && EnemyStates(a + b) == EnemyStates(a) + EnemyStates(b)
  {
    assert forall i :: 0 <= i < |a + b| ==> (a + b)[i] == if i < |a| then a[i] else b[i - |a|];
  }

  /** The objects Mario's update may change: Mario, his animation, the
      tiles, the enemies with their animations and the items. */
  ghost function Footprint(player: Mario, tiles: seq<Tile>, enemies: seq<Enemy>, items: seq<Item>): set<object>
  {
    {player, player.animation} + TileSet(tiles) + EnemyObjects(enemies) + ItemObjects(items)
  }

  /** `player.update(tiles, enemies, items, particles)`: Mario's frame over
      the tiles, the enemies and the items, with the items he adds in `all`
      and the particles he spawns in `spawned`; nothing outside his
      footprint changes. */
  method MoveMario(player: Mario, tiles: seq<Tile>, enemies: seq<Enemy>, items: seq<Item>, keys: Keys, tick: int)
      returns (all: seq<Item>, spawned: seq<Particle>, err: Option<PyError>)
    requires player.Valid() && TilesOk(tiles) && EnemiesOk(enemies) && ItemsOk(items)
    modifies Footprint(player, tiles, enemies, items)
    ensures player.Valid() && TilesOk(tiles) && EnemiesOk(enemies) && ItemsOk(all) && ParticlesOk(spawned)
    ensures |all| >= |items| && all[..|items|] == items
    ensures (forall j :: |items| <= j < |all| ==> fresh(all[j])) && (forall j :: 0 <= j < |spawned| ==> fresh(spawned[j].Repr()))
    ensures forall j :: 0 <= j < |spawned| ==> fresh(spawned[j])
    ensures forall o | o in ItemObjects(all) - ItemObjects(items) :: fresh(o)
    ensures forall o | o in ParticleParts(spawned) :: fresh(o)
    ensures var r := MarioStep(old(player.State()), World(old(States(tiles)), old(EnemyStates(enemies)), old(ItemStates(items)), []), keys, tick);
      && player.State() == r.0 && States(tiles) == r.1.tiles && EnemyStates(enemies) == r.1.enemies
      && ItemStates(all) == r.1.items && ParticleStates(spawned) == r.1.particles && err == r.2
  {
    ghost var fp := Footprint(player, tiles, enemies, items);
    assert forall a :: a in EnemyAnimations(enemies) ==> a in fp;
    assert forall t :: t in tiles ==> t in fp;
    assert forall t :: t in enemies ==> t in fp;
    assert forall t :: t in items ==> t in fp;
    assert player in fp && player.animation in fp;
    all, spawned, err := player.Update(tiles, enemies, items, keys, tick);
    NewPartsFresh(items, all, spawned);
  }

  /** Objects appended by a step were all allocated during it. */
  twostate lemma NewPartsFresh(before: seq<Item>, new after: seq<Item>, new born: seq<Particle>)
    requires before <= after
    requires forall k | |before| <= k < |after| :: fresh(after[k])
    requires forall k | 0 <= k < |born| :: fresh(born[k].Repr())
    ensures forall o | o in ItemObjects(after) - ItemObjects(before) :: fresh(o)
    ensures forall o | o in ParticleParts(born) :: fresh(o)
  {
    assert forall k | 0 <= k < |before| :: after[k] == before[k] && before[k] in before;
    forall o | o in ItemObjects(after) - ItemObjects(before)
      ensures fresh(o)
    {
      var x :| x in after && o == x as object;
      var k :| 0 <= k < |after| && after[k] == x;
    }
    forall o | o in ParticleParts(born)
      ensures fresh(o)
    {
      var p, o' :| p in born && o' in p.Repr() && o == o';
      var k :| 0 <= k < |born| && born[k] == p;
    }
  }


  /** Particles none of whose objects changed keep their invariant and
      their snapshots. */
  twostate lemma ParticlesUntouched(ps: seq<Particle>)
    requires old(ParticlesOk(ps)) && unchanged(ParticleParts(ps))
    ensures ParticlesOk(ps) && ParticleStates(ps) == old(ParticleStates(ps))
  {
    forall i | 0 <= i < |ps|
      ensures ps[i].Valid() && ps[i].State() == old(ps[i].State())
    {
      var p := ps[i];
      assert p in ps;
      assert forall o :: o in p.Repr() ==> o in ParticleParts(ps);
    }
  }

  /** Mario with an untouched animation keeps his invariant and his
      snapshot. */
  twostate lemma MarioUntouched(m: Mario)
    requires old(m.Valid()) && unchanged(m, m.animation)
    ensures m.Valid() && m.State() == old(m.State())
  {
  }

  /** Tiles none of whose objects changed keep their invariant and their
      snapshots. */
  twostate lemma TilesUntouched(ts: seq<Tile>)
    requires old(TilesOk(ts)) && unchanged(TileObjects(ts))
    ensures TilesOk(ts) && States(ts) == old(States(ts))
  {
    assert forall t | t in ts :: t in TileObjects(ts) && (t.animation != null ==> t.animation in TileObjects(ts));
  }

  /** Enemies none of whose objects changed keep their invariant and their
      snapshots. */
  twostate lemma EnemiesUntouched(es: seq<Enemy>)
    requires old(EnemiesOk(es)) && unchanged(EnemyObjects(es))
    ensures EnemiesOk(es) && EnemyStates(es) == old(EnemyStates(es))
  {
    assert forall e | e in es :: e in EnemyObjects(es) && e.animation in EnemyObjects(es);
  }

  /** Items none of which changed keep their invariant and their
      snapshots. */
  twostate lemma ItemsUntouched(xs: seq<Item>)
    requires old(ItemsOk(xs)) && unchanged(ItemObjects(xs))
    ensures ItemsOk(xs) && ItemStates(xs) == old(ItemStates(xs))
  {
    assert forall x | x in xs :: x in ItemObjects(xs);
  }

  /** Every object a level's state lives in: Mario and his animation, the
      camera, the background, the tiles, the enemies and the animations
      they own, the items, and the particles with their pieces. */
  ghost function Objects(player: Mario, camera: Camera, background: Background, tiles: seq<Tile>,
                         enemies: seq<Enemy>, items: seq<Item>, particles: seq<Particle>): set<object>
  {
    {player, player.animation, camera, background} + TileObjects(tiles) + EnemyObjects(enemies)
      + ItemObjects(items) + ParticleParts(particles)
  }

  /** Each object of a level, and each animation they own, is one of its
      objects. */
  lemma ObjectsCover(player: Mario, camera: Camera, background: Background, tiles: seq<Tile>,
                     enemies: seq<Enemy>, items: seq<Item>, particles: seq<Particle>)
    ensures var objs := Objects(player, camera, background, tiles, enemies, items, particles);
      && player in objs && player.animation in objs && camera in objs && background in objs
      && (forall t :: t in tiles ==> t in objs && (t.animation == null || t.animation in objs))
      && (forall e :: e in enemies ==> e in objs && e.animation in objs)
      && (forall x :: x in items ==> x in objs)
      && ParticleParts(particles) <= objs
  {
  }

  /** A level is none of the objects it holds. */
  lemma LevelOutside(l: Level, player: Mario, camera: Camera, background: Background, tiles: seq<Tile>,
                     enemies: seq<Enemy>, items: seq<Item>, particles: seq<Particle>)
    ensures l !in Objects(player, camera, background, tiles, enemies, items, particles)
  {
    assert l !in TileObjects(tiles);
    assert l !in EnemyObjects(enemies);
    assert l !in ItemObjects(items);
    assert l !in ParticleParts(particles) by {
      forall p | p in particles ensures l !in p.Repr() { }
    }
  }

  /** Mario's frame over a level's objects: the items he releases join
      the item list and the particles he spawns join the particle list,
      and only those objects are new. */
  method MoveParts(m: Mario, cam: Camera, bg: Background, ts: seq<Tile>, es: seq<Enemy>, xs: seq<Item>,
                   ps: seq<Particle>, keys: Keys, tick: int)
      returns (all: seq<Item>, ps': seq<Particle>, err: Option<PyError>)
    requires PartsOk(m, cam, bg, ts, es, xs, ps)
    modifies Footprint(m, ts, es, xs)
    ensures PartsOk(m, cam, bg, ts, es, all, ps')
    ensures forall o | o in Objects(m, cam, bg, ts, es, all, ps') :: o in Objects(m, cam, bg, ts, es, xs, ps) || fresh(o)
    ensures var r := MarioStep(old(m.State()), World(old(States(ts)), old(EnemyStates(es)), old(ItemStates(xs)), []), keys, tick);
      && Parts(m, cam, bg, ts, es, all, ps')
        == (r.0, old(cam.State()), old(bg.State()), r.1.tiles, r.1.enemies, r.1.items, old(ParticleStates(ps)) + r.1.particles)
      && err == r.2
  {
    FootprintApart(m, cam, bg, ts, es, xs, ps);
    assert forall o :: o in ParticleParts(ps) ==> allocated(o);
    assert forall i :: 0 <= i < |ps| ==> allocated(ps[i]);
    var spawned;
    all, spawned, err := MoveMario(m, ts, es, xs, keys, tick);
    ParticlesUntouched(ps);
    PartsAfterMove(m, cam, bg, ts, es, xs, all, ps, spawned);
    GrowthFresh(m, cam, bg, ts, es, xs, all, ps, spawned);
    ps' := ps + spawned;
  }

  /** The objects a move adds to a level are the items and particles it created. */
  twostate lemma GrowthFresh(new m: Mario, new cam: Camera, new bg: Background, new ts: seq<Tile>, new es: seq<Enemy>,
                             new xs: seq<Item>, new all: seq<Item>, new ps: seq<Particle>, new spawned: seq<Particle>)
    requires forall o | o in ItemObjects(all) - ItemObjects(xs) :: fresh(o)
    requires forall o | o in ParticleParts(spawned) :: fresh(o)
    ensures forall o | o in Objects(m, cam, bg, ts, es, all, ps + spawned) :: o in Objects(m, cam, bg, ts, es, xs, ps) || fresh(o)
  {
    PartsAppend(ps, spawned);
    assert Objects(m, cam, bg, ts, es, all, ps + spawned) - Objects(m, cam, bg, ts, es, xs, ps)
      <= (ItemObjects(all) - ItemObjects(xs)) + ParticleParts(spawned);
  }

  /** The objects a level holds, each list well kept and Mario valid. */
  ghost predicate PartsOk(player: Mario, camera: Camera, background: Background, tiles: seq<Tile>,
                          enemies: seq<Enemy>, items: seq<Item>, particles: seq<Particle>)
    reads Objects(player, camera, background, tiles, enemies, items, particles)
  {
    ObjectsCover(player, camera, background, tiles, enemies, items, particles);
    player.Valid() && TilesOk(tiles) && EnemiesOk(enemies) && ItemsOk(items) && ParticlesOk(particles)
  }

  /** Snapshots of Mario, the camera, the background and the four lists. */
  type PartStates = (MarioState, CameraState, BackgroundState, seq<TileState>, seq<EnemyState>, seq<ItemState>, seq<ParticleState>)

  /** The snapshots of the objects a level holds. */
  ghost function Parts(player: Mario, camera: Camera, background: Background, tiles: seq<Tile>,
                       enemies: seq<Enemy>, items: seq<Item>, particles: seq<Particle>)
    : PartStates
    reads Objects(player, camera, background, tiles, enemies, items, particles)
  {
    ObjectsCover(player, camera, background, tiles, enemies, items, particles);
    (player.State(), camera.State(), background.State(), States(tiles), EnemyStates(enemies), ItemStates(items),
     ParticleStates(particles))
  }

  /** In a well-kept level, Mario's footprint lies among the level's
      objects and misses the camera, the background and every particle. */
  lemma FootprintApart(player: Mario, camera: Camera, background: Background, tiles: seq<Tile>, enemies: seq<Enemy>,
                       items: seq<Item>, particles: seq<Particle>)
    requires PartsOk(player, camera, background, tiles, enemies, items, particles)
    ensures Footprint(player, tiles, enemies, items) <= Objects(player, camera, background, tiles, enemies, items, particles)
    ensures camera !in Footprint(player, tiles, enemies, items) && background !in Footprint(player, tiles, enemies, items)
    ensures ParticleParts(particles) !! Footprint(player, tiles, enemies, items)
  {
    ViewApart(player, camera, background, tiles, enemies, items, particles);
    ParticlesOffFootprint(player, camera, background, tiles, enemies, items, particles);
  }

  /** In a well-kept level, the camera and the background are not in
      Mario's footprint. */
  lemma ViewApart(player: Mario, camera: Camera, background: Background, tiles: seq<Tile>, enemies: seq<Enemy>,
                  items: seq<Item>, particles: seq<Particle>)
    requires PartsOk(player, camera, background, tiles, enemies, items, particles)
    ensures camera !in Footprint(player, tiles, enemies, items) && background !in Footprint(player, tiles, enemies, items)
  {
    player.ApartByOwnership(tiles, enemies);
  }

  /** In a well-kept level, no particle object is in Mario's footprint. */
  lemma ParticlesOffFootprint(player: Mario, camera: Camera, background: Background, tiles: seq<Tile>, enemies: seq<Enemy>,
                              items: seq<Item>, particles: seq<Particle>)
    requires PartsOk(player, camera, background, tiles, enemies, items, particles)
    ensures ParticleParts(particles) !! Footprint(player, tiles, enemies, items)
    ensures player !in ParticleParts(particles) && player.animation !in ParticleParts(particles)
    ensures ParticleParts(particles) !! TileSet(tiles) && ParticleParts(particles) !! EnemyObjects(enemies)
    ensures ParticleParts(particles) !! ItemObjects(items)
  {
    player.ApartByOwnership(tiles, enemies);
    forall o | o in ParticleParts(particles)
      ensures o != player && o != player.animation && o !in TileSet(tiles)
      ensures o !in EnemyObjects(enemies) && o !in ItemObjects(items)
    {
      var p :| p in particles && o in p.Repr();
      var i :| 0 <= i < |particles| && particles[i] == p;
      assert p.Valid();
    }
  }

  /** A well-kept level after Mario's frame, with the items he released
      and the particles he spawned appended, is a well-kept level whose
      objects gained just those. */
  lemma PartsAfterMove(player: Mario, camera: Camera, background: Background, tiles: seq<Tile>, enemies: seq<Enemy>,
                       items: seq<Item>, all: seq<Item>, particles: seq<Particle>, spawned: seq<Particle>)
    requires player.Valid() && TilesOk(tiles) && EnemiesOk(enemies) && ItemsOk(all)
    requires ParticlesOk(particles) && ParticlesOk(spawned) && items <= all
    requires forall i, j :: 0 <= i < |particles| && 0 <= j < |spawned| ==> particles[i] != spawned[j]
    ensures PartsOk(player, camera, background, tiles, enemies, all, particles + spawned)
    ensures Objects(player, camera, background, tiles, enemies, all, particles + spawned)
      == Objects(player, camera, background, tiles, enemies, items, particles) + ItemObjects(all) + ParticleParts(spawned)
    ensures Parts(player, camera, background, tiles, enemies, all, particles + spawned)
      == (player.State(), camera.State(), background.State(), States(tiles), EnemyStates(enemies), ItemStates(all),
          ParticleStates(particles) + ParticleStates(spawned))
  {
    ParticlesAppend(particles, spawned);
    PartsAppend(particles, spawned);
    assert ItemObjects(items) <= ItemObjects(all) by {
      forall x | x in items ensures x in all {
        var k :| 0 <= k < |items| && items[k] == x;
        assert all[k] == x;
      }
    }
  }

  /** The parts of two particle lists end to end are the parts of each. */
  lemma PartsAppend(a: seq<Particle>, b: seq<Particle>)
    ensures ParticleParts(a + b) == ParticleParts(a) + ParticleParts(b)
  {
  }

  /** The parts of a sub-list of particles are parts of the list. */
  lemma PartsOfSublist(kept: seq<Particle>, ps: seq<Particle>)
    requires forall x :: x in kept ==> x in ps
    ensures ParticleParts(kept) <= ParticleParts(ps)
  {
  }

  lemma TileObjectFrom(ts: seq<Tile>, o: object)
    requires o in TileObjects(ts)
    ensures exists t :: t in ts && (o == t || o == t.animation)
  {
  }

  /** `create_level`, with the tiles' objects all new. */
  method CreateLevel(level: seq<string>, tick: int, coinsAt: (int, int) -> int)
      returns (player: Mario, tiles: seq<Tile>)
    ensures fresh(player) && fresh(player.animation) && player.Valid()
    ensures player.State() == MarioStart(LevelStart(level).0, LevelStart(level).1, tick)
    ensures TilesOk(tiles) && States(tiles) == TextTiles(level, coinsAt)
    ensures forall o | o in TileObjects(tiles) :: fresh(o)
  {
    player, tiles := BuildLevel(level, tick, coinsAt);
    forall o | o in TileObjects(tiles)
      ensures fresh(o)
    {
      TileObjectFrom(tiles, o);
    }
  }

  /** What `create_level` followed by a new camera and background builds:
      Mario and the tiles as the text places them, the camera at the
      world's left edge and the background at its start, all new. */
  method Layout(level: seq<string>, tick: int, coinsAt: (int, int) -> int)
      returns (player: Mario, tiles: seq<Tile>, enemies: seq<Enemy>, items: seq<Item>, particles: seq<Particle>,
               camera: Camera, background: Background)
    requires |level| > 0
    ensures enemies == [] && items == [] && particles == []
    ensures PartsOk(player, camera, background, tiles, enemies, items, particles)
    ensures forall o | o in Objects(player, camera, background, tiles, enemies, items, particles) :: fresh(o)
    ensures camera.worldWidth == WorldWidth(level)
    ensures Parts(player, camera, background, tiles, enemies, items, particles) ==
      (MarioStart(LevelStart(level).0, LevelStart(level).1, tick), CameraState(0, 0, WorldWidth(level)),
       BACKGROUND_START, TextTiles(level, coinsAt), [], [], [])
  {
    camera := new Camera(|level[0]| * TILE_SIZE);
    background := new Background();
    player, tiles := CreateLevel(level, tick, coinsAt);
    enemies, items, particles := [], [], [];
    ObjectsWithoutLists(player, camera, background, tiles, enemies, items, particles);
    LayoutFresh(player, camera, background, tiles, enemies, items, particles);
  }

  /** A level built from new parts and empty lists owns only new objects. */
  twostate lemma LayoutFresh(new player: Mario, new camera: Camera, new background: Background, new tiles: seq<Tile>,
                             new enemies: seq<Enemy>, new items: seq<Item>, new particles: seq<Particle>)
    requires enemies == [] && items == [] && particles == []
    requires fresh(player) && fresh(player.animation) && fresh(camera) && fresh(background)
    requires forall o | o in TileObjects(tiles) :: fresh(o)
    ensures forall o | o in Objects(player, camera, background, tiles, enemies, items, particles) :: fresh(o)
  {
    ObjectsWithoutLists(player, camera, background, tiles, enemies, items, particles);
  }

  /** A level with no enemies, items or particles owns Mario, the camera,
      the background and the tiles. */
  lemma ObjectsWithoutLists(player: Mario, camera: Camera, background: Background, tiles: seq<Tile>,
                            enemies: seq<Enemy>, items: seq<Item>, particles: seq<Particle>)
    requires enemies == [] && items == [] && particles == []
    ensures Objects(player, camera, background, tiles, enemies, items, particles)
      == {player, player.animation, camera, background} + TileObjects(tiles)
    ensures EnemiesOk(enemies) && ItemsOk(items) && ParticlesOk(particles)
    ensures EnemyStates(enemies) == [] && ItemStates(items) == [] && ParticleStates(particles) == []
  {
    assert EnemyObjects([]) == {} && ItemObjects([]) == {} && ParticleParts([]) == {};
  }

  /** In a well-kept level, the particles' objects miss Mario, the camera,
      the background, the tiles with their animations, the enemies with
      theirs and the items. */
  lemma ParticlePartsApart(player: Mario, camera: Camera, background: Background, tiles: seq<Tile>,
                           enemies: seq<Enemy>, items: seq<Item>, particles: seq<Particle>)
    requires PartsOk(player, camera, background, tiles, enemies, items, particles)
    ensures player !in ParticleParts(particles) && player.animation !in ParticleParts(particles)
    ensures camera !in ParticleParts(particles) && background !in ParticleParts(particles)
    ensures ParticleParts(particles) !! TileObjects(tiles) && ParticleParts(particles) !! TileSet(tiles)
    ensures ParticleParts(particles) !! EnemyObjects(enemies)
    ensures ParticleParts(particles) !! ItemObjects(items)
  {
    ParticlesOffFootprint(player, camera, background, tiles, enemies, items, particles);
    ParticlesOffTiles(player, camera, background, tiles, enemies, items, particles);
  }

  /** In a well-kept level, no particle object is a tile or a tile's
      animation. */
  lemma ParticlesOffTiles(player: Mario, camera: Camera, background: Background, tiles: seq<Tile>,
                          enemies: seq<Enemy>, items: seq<Item>, particles: seq<Particle>)
    requires PartsOk(player, camera, background, tiles, enemies, items, particles)
    ensures ParticleParts(particles) !! TileObjects(tiles)
  {
    forall o | o in ParticleParts(particles)
      ensures o !in TileObjects(tiles)
    {
      var p :| p in particles && o in p.Repr();
      var i :| 0 <= i < |particles| && particles[i] == p;
      assert p.Valid();
      forall t | t in tiles && t.animation != null
        ensures o != t.animation
      {
        var j :| 0 <= j < |tiles| && tiles[j] == t;
        assert t.Valid();
      }
    }
  }

  /** The enemy loop over a level's objects, with Mario at his x: the
      enemies and the tiles take their next states, the enemies that are
      gone leave the list, and nothing else changes. */
  method EnemiesAmong(m: Mario, cam: Camera, bg: Background, ts: seq<Tile>, es: seq<Enemy>, xs: seq<Item>,
                      ps: seq<Particle>, tick: int, ghost p: PartStates) returns (kept: seq<Enemy>)
    requires PartsOk(m, cam, bg, ts, es, xs, ps) && Parts(m, cam, bg, ts, es, xs, ps) == p
    modifies EnemyObjects(es), TileSet(ts)
    ensures PartsOk(m, cam, bg, ts, kept, xs, ps)
    ensures Objects(m, cam, bg, ts, kept, xs, ps) <= Objects(m, cam, bg, ts, es, xs, ps)
    ensures var sw := EnemiesPass(p.4, [], p.3, p.0.box.x, tick);
      Parts(m, cam, bg, ts, kept, xs, ps) == (p.0, p.1, p.2, sw.tiles, sw.kept, p.5, p.6)
  {
    ParticlePartsApart(m, cam, bg, ts, es, xs, ps);
    m.ApartByOwnership(ts, es);
    kept := EnemiesPruned(m, ts, es, xs, ps, tick, p.0, p.3, p.4, p.5, p.6);
    PartsFrom(m, cam, bg, ts, kept, xs, ps);
    assert EnemyObjects(kept) <= EnemyObjects(es);
  }

  /** The enemy loop with Mario, the items and the particles looking on. */
  method EnemiesPruned(m: Mario, ts: seq<Tile>, es: seq<Enemy>, xs: seq<Item>, ps: seq<Particle>, tick: int,
                       ghost m0: MarioState, ghost ts0: seq<TileState>, ghost es0: seq<EnemyState>,
                       ghost xs0: seq<ItemState>, ghost ps0: seq<ParticleState>) returns (kept: seq<Enemy>)
    requires m.Valid() && m.State() == m0 && m.animation !in EnemyAnimations(es)
    requires TilesOk(ts) && States(ts) == ts0 && EnemiesOk(es) && EnemyStates(es) == es0
    requires ItemsOk(xs) && ItemStates(xs) == xs0 && ParticlesOk(ps) && ParticleStates(ps) == ps0
    requires ParticleParts(ps) !! EnemyObjects(es) && ParticleParts(ps) !! TileSet(ts)
    modifies EnemyObjects(es), TileSet(ts)
    ensures m.Valid() && m.State() == m0 && ItemsOk(xs) && ItemStates(xs) == xs0
    ensures ParticlesOk(ps) && ParticleStates(ps) == ps0
    ensures var sw := EnemiesPass(es0, [], ts0, m0.box.x, tick);
      TilesOk(ts) && States(ts) == sw.tiles && EnemiesOk(kept) && EnemyStates(kept) == sw.kept
    ensures forall x :: x in kept ==> x in es
  {
    assert forall o | o in ParticleParts(ps) :: allocated(o);
    kept := PruneEnemies(es, ts, m.box.x, tick);
    MarioUntouched(m);
    ItemsUntouched(xs);
    ParticlesUntouched(ps);
  }

  /** The item loop over a level's objects: the items take their next
      states against the tiles, the used ones leave the list, and nothing
      else changes. */
  method ItemsAmong(m: Mario, cam: Camera, bg: Background, ts: seq<Tile>, es: seq<Enemy>, xs: seq<Item>,
                    ps: seq<Particle>) returns (kept: seq<Item>)
    requires PartsOk(m, cam, bg, ts, es, xs, ps)
    modifies ItemObjects(xs)
    ensures PartsOk(m, cam, bg, ts, es, kept, ps)
    ensures Objects(m, cam, bg, ts, es, kept, ps) <= Objects(m, cam, bg, ts, es, xs, ps)
    ensures var p := old(Parts(m, cam, bg, ts, es, xs, ps));
      Parts(m, cam, bg, ts, es, kept, ps) == (p.0, p.1, p.2, p.3, p.4, ItemsKept(p.5, p.3), p.6)
  {
    ItemsApart(ps, xs);
    kept := PruneItems(xs, ts);
    MarioUntouched(m);
    TilesUntouched(ts);
    EnemiesUntouched(es);
    ParticlesUntouched(ps);
    PartsFrom(m, cam, bg, ts, es, kept, ps);
    assert ItemObjects(kept) <= ItemObjects(xs);
  }

  /** Items and the objects of particles are of different kinds. */
  lemma ItemsApart(ps: seq<Particle>, xs: seq<Item>)
    ensures ParticleParts(ps) !! ItemObjects(xs)
  {
  }

  /** A level's objects each well kept make a well-kept level, whose
      snapshots are theirs. */
  lemma PartsFrom(m: Mario, cam: Camera, bg: Background, ts: seq<Tile>, es: seq<Enemy>, xs: seq<Item>,
                  ps: seq<Particle>)
    requires m.Valid() && TilesOk(ts) && EnemiesOk(es) && ItemsOk(xs) && ParticlesOk(ps)
    ensures PartsOk(m, cam, bg, ts, es, xs, ps)
    ensures Parts(m, cam, bg, ts, es, xs, ps)
      == (m.State(), cam.State(), bg.State(), States(ts), EnemyStates(es), ItemStates(xs), ParticleStates(ps))
  {
  }

  /** The particle loop over a level's objects: the particles take their
      next states, the ones no longer showing leave the list, and nothing
      else changes. */
  method ParticlesAmong(m: Mario, cam: Camera, bg: Background, ts: seq<Tile>, es: seq<Enemy>, xs: seq<Item>,
                        ps: seq<Particle>, tick: int, ghost p: PartStates) returns (kept: seq<Particle>)
    requires PartsOk(m, cam, bg, ts, es, xs, ps) && Parts(m, cam, bg, ts, es, xs, ps) == p
    modifies ParticleParts(ps)
    ensures PartsOk(m, cam, bg, ts, es, xs, kept)
    ensures Objects(m, cam, bg, ts, es, xs, kept) <= Objects(m, cam, bg, ts, es, xs, ps)
    ensures Parts(m, cam, bg, ts, es, xs, kept) == (p.0, p.1, p.2, p.3, p.4, p.5, ParticlesKept(p.6, tick))
  {
    ParticlePartsApart(m, cam, bg, ts, es, xs, ps);
    kept := PruneParticles(ps, tick);
    MarioUntouched(m);
    TilesUntouched(ts);
    EnemiesUntouched(es);
    ItemsUntouched(xs);
    PartsFrom(m, cam, bg, ts, es, xs, kept);
    PartsOfSublist(kept, ps);
  }

  /** The tile loop over a level's objects: the tiles take their next
      states, the broken ones leave the list and their bursts join the
      particles, and nothing else changes. */
  method TilesAmong(m: Mario, cam: Camera, bg: Background, ts: seq<Tile>, es: seq<Enemy>, xs: seq<Item>,
                    ps: seq<Particle>, tick: int, ghost p: PartStates) returns (kept: seq<Tile>, ps': seq<Particle>)
    requires PartsOk(m, cam, bg, ts, es, xs, ps) && Parts(m, cam, bg, ts, es, xs, ps) == p
    modifies TileObjects(ts)
    ensures PartsOk(m, cam, bg, kept, es, xs, ps')
    ensures var r := TilesPass(p.3, [], []);
      Parts(m, cam, bg, kept, es, xs, ps') == (p.0, p.1, p.2, r.kept, p.4, p.5, p.6 + r.debris)
  {
    ParticlePartsApart(m, cam, bg, ts, es, xs, ps);
    m.ApartByOwnership(ts, es);
    assert forall i :: 0 <= i < |ps| ==> allocated(ps[i]);
    var debris;
    kept, debris := TilesPruned(m, ts, ps, tick, p.0, p.3, p.6);
    EnemiesUntouched(es);
    ItemsUntouched(xs);
    DebrisJoined(ps, debris);
    ps' := ps + debris;
    PartsFrom(m, cam, bg, kept, es, xs, ps');
  }

  /** The tile loop with Mario and the particles looking on. */
  method TilesPruned(m: Mario, ts: seq<Tile>, ps: seq<Particle>, tick: int,
                     ghost m0: MarioState, ghost ts0: seq<TileState>, ghost ps0: seq<ParticleState>)
      returns (kept: seq<Tile>, debris: seq<Particle>)
    requires m.Valid() && m.State() == m0 && m.animation !in TileAnimations(ts)
    requires TilesOk(ts) && States(ts) == ts0 && ParticlesOk(ps) && ParticleStates(ps) == ps0
    requires ParticleParts(ps) !! TileObjects(ts)
    modifies TileObjects(ts)
    ensures m.Valid() && m.State() == m0 && ParticlesOk(ps) && ParticleStates(ps) == ps0
    ensures var r := TilesPass(ts0, [], []);
      TilesOk(kept) && States(kept) == r.kept && ParticlesOk(debris) && ParticleStates(debris) == r.debris
    ensures forall x :: x in kept ==> x in ts
    ensures forall k :: 0 <= k < |debris| ==> fresh(debris[k].Repr())
  {
    kept, debris := PruneTiles(ts, tick);
    MarioUntouched(m);
    ParticlesUntouched(ps);
  }

  /** Particles allocated during a step, appended to particles that
      existed before it, make a well-kept list. */
  twostate lemma DebrisJoined(new ps: seq<Particle>, new debris: seq<Particle>)
    requires ParticlesOk(ps) && ParticlesOk(debris)
    requires forall k :: 0 <= k < |debris| ==> fresh(debris[k].Repr())
    requires forall i :: 0 <= i < |ps| ==> old(allocated(ps[i]))
    ensures ParticlesOk(ps + debris)
    ensures ParticleStates(ps + debris) == ParticleStates(ps) + ParticleStates(debris)
  {
    forall i, j | 0 <= i < |ps| && 0 <= j < |debris|
      ensures ps[i] != debris[j]
    {
      assert debris[j] in debris[j].Repr();
    }
    ParticlesAppend(ps, debris);
  }

  /** `player.die()` inside a level: only Mario changes. */
  method DieAmong(m: Mario, cam: Camera, bg: Background, ts: seq<Tile>, es: seq<Enemy>, xs: seq<Item>,
                  ps: seq<Particle>, tick: int)
    requires PartsOk(m, cam, bg, ts, es, xs, ps)
    modifies m, m.animation
    ensures PartsOk(m, cam, bg, ts, es, xs, ps)
    ensures var p := old(Parts(m, cam, bg, ts, es, xs, ps));
      Parts(m, cam, bg, ts, es, xs, ps) == (Died(p.0, tick), p.1, p.2, p.3, p.4, p.5, p.6)
  {
    ParticlePartsApart(m, cam, bg, ts, es, xs, ps);
    m.ApartByOwnership(ts, es);
    m.Die(tick);
    TilesUntouched(ts);
    EnemiesUntouched(es);
    ItemsUntouched(xs);
    ParticlesUntouched(ps);
    PartsFrom(m, cam, bg, ts, es, xs, ps);
  }

  /** `player.score += points` inside a level: only Mario's score
      changes. */
  method AwardAmong(m: Mario, cam: Camera, bg: Background, ts: seq<Tile>, es: seq<Enemy>, xs: seq<Item>,
                    ps: seq<Particle>, points: int, ghost p: PartStates)
    requires PartsOk(m, cam, bg, ts, es, xs, ps) && Parts(m, cam, bg, ts, es, xs, ps) == p
    modifies m
    ensures PartsOk(m, cam, bg, ts, es, xs, ps)
    ensures Parts(m, cam, bg, ts, es, xs, ps) == (p.0.(score := p.0.score + points), p.1, p.2, p.3, p.4, p.5, p.6)
  {
    m.score := m.score + points;
    TilesUntouched(ts);
    EnemiesUntouched(es);
    ItemsUntouched(xs);
    ParticlesUntouched(ps);
    PartsFrom(m, cam, bg, ts, es, xs, ps);
  }

  /** The camera follows Mario over a level's objects, the background
      scrolls with it, and Mario is kept from going back; nothing else
      changes. */
  method FollowAmong(m: Mario, cam: Camera, bg: Background, ts: seq<Tile>, es: seq<Enemy>, xs: seq<Item>,
                     ps: seq<Particle>, ghost p: PartStates)
    requires PartsOk(m, cam, bg, ts, es, xs, ps) && Parts(m, cam, bg, ts, es, xs, ps) == p
    modifies m, cam, bg
    ensures PartsOk(m, cam, bg, ts, es, xs, ps)
    ensures var t := Trailed(p.0, p.1, p.2);
      Parts(m, cam, bg, ts, es, xs, ps) == (t.0, t.1, t.2, p.3, p.4, p.5, p.6)
  {
    Trail(m, cam, bg);
    TilesUntouched(ts);
    EnemiesUntouched(es);
    ItemsUntouched(xs);
    ParticlesUntouched(ps);
    PartsFrom(m, cam, bg, ts, es, xs, ps);
  }

  /** `camera.focus(player)`, `background.update(camera.x_shift)` and the
      push forward, on the three objects. */
  method Trail(m: Mario, cam: Camera, bg: Background)
    requires m.Valid()
    modifies m, cam, bg
    ensures m.Valid() && (m.State(), cam.State(), bg.State()) == old(Trailed(m.State(), cam.State(), bg.State()))
  {
    cam.Focus(m.box);
    bg.Update(cam.State().XShift());
    if m.box.x < cam.maximumX {
      m.box := m.box.(x := cam.maximumX);
    }
  }

  /** A new firework joins a level's particles; it and its animation are
      the only new objects. */
  method LaunchAmong(m: Mario, cam: Camera, bg: Background, ts: seq<Tile>, es: seq<Enemy>, xs: seq<Item>,
                     ps: seq<Particle>, x: int, y: int, vx: int, vy: int, tick: int, ghost p: PartStates)
      returns (ps': seq<Particle>)
    requires PartsOk(m, cam, bg, ts, es, xs, ps) && Parts(m, cam, bg, ts, es, xs, ps) == p
    requires -10 <= vx <= 10 && -6 <= vy <= -2
    ensures PartsOk(m, cam, bg, ts, es, xs, ps')
    ensures Parts(m, cam, bg, ts, es, xs, ps') == (p.0, p.1, p.2, p.3, p.4, p.5, p.6 + [FireworkState(x, y, vx, vy, tick)])
    ensures forall o | o in Objects(m, cam, bg, ts, es, xs, ps') :: o in Objects(m, cam, bg, ts, es, xs, ps) || fresh(o)
  {
    ghost var r0 := Objects(m, cam, bg, ts, es, xs, ps);
    var f := NewFireworkAmid(m, ts, es, xs, ps, x, y, vx, vy, tick);
    PartsFrom(m, cam, bg, ts, es, xs, ps);
    PartsWithParticle(m, cam, bg, ts, es, xs, ps, f);
    ps' := ps + [f];
    assert Objects(m, cam, bg, ts, es, xs, ps') == r0 + {f, f.animation};
  }

  /** `Firework(x, y, vx, vy)`: a new firework, beside lists it leaves as
      they were. */
  method NewFireworkAmid(m: Mario, ts: seq<Tile>, es: seq<Enemy>, xs: seq<Item>, ps: seq<Particle>,
                         x: int, y: int, vx: int, vy: int, tick: int)
      returns (f: Particle)
    requires m.Valid() && TilesOk(ts) && EnemiesOk(es) && ItemsOk(xs) && ParticlesOk(ps)
    requires -10 <= vx <= 10 && -6 <= vy <= -2
    ensures m.Valid() && TilesOk(ts) && EnemiesOk(es) && ItemsOk(xs) && ParticlesOk(ps)
    ensures m.State() == old(m.State()) && States(ts) == old(States(ts)) && EnemyStates(es) == old(EnemyStates(es))
    ensures ItemStates(xs) == old(ItemStates(xs)) && ParticleStates(ps) == old(ParticleStates(ps))
    ensures fresh(f) && fresh(f.animation) && f.Valid() && f.State() == FireworkState(x, y, vx, vy, tick)
    ensures f.Repr() == {f, f.animation} && f !in ps
  {
    assert forall i :: 0 <= i < |ps| ==> allocated(ps[i]);
    f := new Particle.NewFirework(x, y, vx, vy, tick);
    assert f !in ps && f.Repr() == {f, f.animation};
    MarioUntouched(m);
    TilesUntouched(ts);
    EnemiesUntouched(es);
    ItemsUntouched(xs);
    ParticlesUntouched(ps);
  }

  /** A new particle joins a level's particle list at its end. */
  lemma PartsWithParticle(player: Mario, camera: Camera, background: Background, tiles: seq<Tile>,
                          enemies: seq<Enemy>, items: seq<Item>, particles: seq<Particle>, f: Particle)
    requires PartsOk(player, camera, background, tiles, enemies, items, particles) && f.Valid()
    requires f !in particles
    ensures PartsOk(player, camera, background, tiles, enemies, items, particles + [f])
    ensures Objects(player, camera, background, tiles, enemies, items, particles + [f])
      == Objects(player, camera, background, tiles, enemies, items, particles) + f.Repr()
    ensures var p := Parts(player, camera, background, tiles, enemies, items, particles);
      Parts(player, camera, background, tiles, enemies, items, particles + [f]) == (p.0, p.1, p.2, p.3, p.4, p.5, p.6 + [f.State()])
  {
    assert ParticlesOk([f]) && ParticleStates([f]) == [f.State()];
    ParticlesAppend(particles, [f]);
    PartsAppend(particles, [f]);
    assert ParticleParts([f]) == f.Repr();
    PartsFrom(player, camera, background, tiles, enemies, items, particles + [f]);
  }

  /** One frame in the castle while time is left: 200 points for Mario
      and, when `launch` holds, a firework at the end of the particles. */
  method CastleAmong(m: Mario, cam: Camera, bg: Background, ts: seq<Tile>, es: seq<Enemy>, xs: seq<Item>,
                     ps: seq<Particle>, launch: bool, x: int, y: int, vx: int, vy: int, tick: int, ghost p: PartStates)
      returns (ps': seq<Particle>)
    requires PartsOk(m, cam, bg, ts, es, xs, ps) && Parts(m, cam, bg, ts, es, xs, ps) == p
    requires -10 <= vx <= 10 && -6 <= vy <= -2
    modifies m
    ensures PartsOk(m, cam, bg, ts, es, xs, ps')
    ensures Parts(m, cam, bg, ts, es, xs, ps')
      == (p.0.(score := p.0.score + TIME_BONUS), p.1, p.2, p.3, p.4, p.5,
          p.6 + if launch then [FireworkState(x, y, vx, vy, tick)] else [])
    ensures forall o | o in Objects(m, cam, bg, ts, es, xs, ps') :: o in Objects(m, cam, bg, ts, es, xs, ps) || fresh(o)
  {
    AwardAmong(m, cam, bg, ts, es, xs, ps, TIME_BONUS, p);
    ghost var q := Parts(m, cam, bg, ts, es, xs, ps);
    if launch {
      ps' := LaunchAmong(m, cam, bg, ts, es, xs, ps, x, y, vx, vy, tick, q);
    } else {
      ps' := ps;
      assert q.6 + [] == q.6;
    }
  }

  /** When `spawn_enemies` spawns, the new enemy is the list's last. */
  lemma SpawnedOne(es: seq<EnemyState>, xShift: int, tick: int, koopa: bool)
    requires |es| < MAX_ENEMIES && tick % SPAWN_PERIOD == 0
    ensures Spawned(es, xShift, tick, koopa)
      == es + [if koopa then KoopaState(SCREEN_WIDTH - xShift, 0, tick) else GoombaState(SCREEN_WIDTH - xShift, 0, tick)]
  {
  }

  /** A new enemy joins a level's enemy list at its end. */
  lemma PartsWithEnemy(player: Mario, camera: Camera, background: Background, tiles: seq<Tile>,
                       enemies: seq<Enemy>, items: seq<Item>, particles: seq<Particle>, e: Enemy)
    requires PartsOk(player, camera, background, tiles, enemies, items, particles) && e.Valid()
    requires e !in enemies
    ensures PartsOk(player, camera, background, tiles, enemies + [e], items, particles)
    ensures Objects(player, camera, background, tiles, enemies + [e], items, particles)
      == Objects(player, camera, background, tiles, enemies, items, particles) + {e, e.animation}
    ensures var p := Parts(player, camera, background, tiles, enemies, items, particles);
      Parts(player, camera, background, tiles, enemies + [e], items, particles) == (p.0, p.1, p.2, p.3, p.4 + [e.State()], p.5, p.6)
  {
    assert EnemiesOk([e]) && EnemyStates([e]) == [e.State()];
    EnemiesAppend(enemies, [e]);
    assert forall x :: x in enemies + [e] <==> x in enemies || x == e;
    assert EnemyObjects(enemies + [e]) == EnemyObjects(enemies) + {e, e.animation};
    PartsFrom(player, camera, background, tiles, enemies + [e], items, particles);
  }

  /** The level: the timer, the lives, the flag, Mario, the camera, the
      background and the four lists. */
  class Level {
    var time: int
    var lives: int
    var flagY: int
    /** Set once the game has asked to quit (`pyxel.quit`). */
    var quitRequested: bool
    var player: Mario
    var camera: Camera
    var background: Background
    var tiles: seq<Tile>
    var enemies: seq<Enemy>
    var items: seq<Item>
    var particles: seq<Particle>
    const levelData: seq<string>
    const worldWidth: int

    /** Every object the level's state lives in. */
    ghost var Repr: set<object>

    ghost function State(): LevelState
      reads this, Objects(player, camera, background, tiles, enemies, items, particles)
    {
      var p := Parts(player, camera, background, tiles, enemies, items, particles);
      LevelState(time, lives, flagY, quitRequested, p.0, p.1, p.2, p.3, p.4, p.5, p.6)
    }

    ghost predicate Valid()
      reads this, Repr
    {
      && Repr == Objects(player, camera, background, tiles, enemies, items, particles) && this !in Repr
      && PartsOk(player, camera, background, tiles, enemies, items, particles)
      && |levelData| > 0 && worldWidth == WorldWidth(levelData) && camera.worldWidth == worldWidth
    }

    /** No two of Mario, the tiles, the enemies and the particles share an
        animation, since each animation has one owner. */
    lemma Apart()
      requires Valid()
      ensures player.Apart(tiles, enemies)
      ensures forall p :: p in particles && p.animation != null ==>
        && p.animation != player.animation && p.animation !in TileAnimations(tiles)
        && p.animation !in EnemyAnimations(enemies)
    {
      player.ApartByOwnership(tiles, enemies);
      forall p | p in particles && p.animation != null
        ensures p.animation != player.animation && p.animation !in TileAnimations(tiles)
        ensures p.animation !in EnemyAnimations(enemies)
      {
        var i :| 0 <= i < |particles| && particles[i] == p;
        assert p.Valid();
      }
    }

    /** `Level(level)` at frame `tick`, `coinsAt` standing for the coin
        draws. */
    constructor (level: seq<string>, tick: int, coinsAt: (int, int) -> int)
      requires |level| > 0
      ensures Valid() && levelData == level && forall o | o in Repr :: fresh(o)
      ensures State() == Opening(level, coinsAt, tick)
    {
      var p, ts, es, xs, ps, cam, bg := Layout(level, tick, coinsAt);
      time, lives, flagY, quitRequested := STARTING_TIME, STARTING_LIVES, FLAG_START_Y, false;
      player, camera, background := p, cam, bg;
      tiles, enemies, items, particles := ts, es, xs, ps;
      worldWidth, levelData := |level[0]| * TILE_SIZE, level;
      Repr := Objects(p, cam, bg, ts, es, xs, ps);
      new;
      LevelOutside(this, p, cam, bg, ts, es, xs, ps);
    }

    /** `player.update(self.tiles, self.enemies, self.items, self.particles)`:
        the items Mario releases join the item list and the particles he
        spawns join the particle list. */
    method MovePlayer(keys: Keys, tick: int) returns (err: Option<PyError>)
      requires Valid()
      modifies this, Repr
      ensures Valid() && forall o | o in Repr :: o in old(Repr) || fresh(o)
      ensures (State(), err) == PlayerMoved(old(State()), keys, tick)
    {
      var m, cam, bg, ts, es, xs, ps := player, camera, background, tiles, enemies, items, particles;
      FootprintApart(m, cam, bg, ts, es, xs, ps);
      LevelOutside(this, m, cam, bg, ts, es, xs, ps);
      var all, ps';
      ghost var objs := Repr;
      all, ps', err := MoveParts(m, cam, bg, ts, es, xs, ps, keys, tick);
      ghost var grown := Objects(m, cam, bg, ts, es, all, ps');
      assert forall o | o in grown :: o in objs || fresh(o);
      Store(time, lives, flagY, quitRequested, m, cam, bg, ts, es, all, ps');
    }

    /** Sets the timer, the lives, the flag, the quit request and the
        objects of the level. */
    method Store(time': int, lives': int, flagY': int, quit': bool, m: Mario, cam: Camera, bg: Background,
                 ts: seq<Tile>, es: seq<Enemy>, xs: seq<Item>, ps: seq<Particle>)
      requires PartsOk(m, cam, bg, ts, es, xs, ps)
      requires |levelData| > 0 && worldWidth == WorldWidth(levelData) && cam.worldWidth == worldWidth
      modifies this
      ensures Valid() && Repr == Objects(m, cam, bg, ts, es, xs, ps)
      ensures player == m && tiles == ts && enemies == es && items == xs && particles == ps
      ensures var p := old(Parts(m, cam, bg, ts, es, xs, ps));
        State() == LevelState(time', lives', flagY', quit', p.0, p.1, p.2, p.3, p.4, p.5, p.6)
    {
      LevelOutside(this, m, cam, bg, ts, es, xs, ps);
      Assign(time', lives', flagY', quit', m, cam, bg, ts, es, xs, ps);
      MarioUntouched(m);
      TilesUntouched(ts);
      EnemiesUntouched(es);
      ItemsUntouched(xs);
      ParticlesUntouched(ps);
      PartsFrom(m, cam, bg, ts, es, xs, ps);
    }

    /** Sets every field of the level. */
    method Assign(time': int, lives': int, flagY': int, quit': bool, m: Mario, cam: Camera, bg: Background,
                  ts: seq<Tile>, es: seq<Enemy>, xs: seq<Item>, ps: seq<Particle>)
      modifies this
      ensures time == time' && lives == lives' && flagY == flagY' && quitRequested == quit'
      ensures player == m && camera == cam && background == bg
      ensures tiles == ts && enemies == es && items == xs && particles == ps
      ensures Repr == Objects(m, cam, bg, ts, es, xs, ps)
    {
      AssignParts(m, cam, bg, ts, es, xs, ps);
      Repr := Objects(m, cam, bg, ts, es, xs, ps);
      time := time';
      lives := lives';
      flagY := flagY';
      quitRequested := quit';
    }

    /** Sets the objects of the level. */
    method AssignParts(m: Mario, cam: Camera, bg: Background, ts: seq<Tile>, es: seq<Enemy>, xs: seq<Item>,
                       ps: seq<Particle>)
      modifies this
      ensures player == m && camera == cam && background == bg
      ensures tiles == ts && enemies == es && items == xs && particles == ps
    {
      player := m;
      camera := cam;
      background := bg;
      tiles := ts;
      enemies := es;
      items := xs;
      particles := ps;
    }

    /** `camera.focus(player)`, `background.update(camera.x_shift)`, and
        Mario pushed forward to `minimum_x_mario` if he is left of it. */
    method Follow()
      requires Valid()
      modifies player, camera, background
      ensures Valid() && Repr == old(Repr)
      ensures State() == Followed(old(State()))
    {
      FollowAmong(player, camera, background, tiles, enemies, items, particles,
                  Parts(player, camera, background, tiles, enemies, items, particles));
    }

    /** `spawn_enemies`: with fewer than four enemies, every five seconds a
        new one enters at the right edge of the screen. */
    method SpawnEnemies(tick: int, koopa: bool)
      requires Valid()
      modifies this
      ensures Valid() && forall o | o in Repr :: o in old(Repr) || fresh(o)
      ensures State() == old(State()).(enemies := Spawned(old(State()).enemies, old(State()).camera.XShift(), tick, koopa))
    {
      if |enemies| < MAX_ENEMIES && tick % SPAWN_PERIOD == 0 {
        SpawnOne(tick, koopa);
      } else {
        assert |State().enemies| == |enemies|;
      }
    }

    /** The spawning branch: a Koopa or a Goomba enters at the right edge of the screen. */
    method SpawnOne(tick: int, koopa: bool)
      requires Valid() && |enemies| < MAX_ENEMIES && tick % SPAWN_PERIOD == 0
      modifies this
      ensures Valid() && forall o | o in Repr :: o in old(Repr) || fresh(o)
      ensures State() == old(State()).(enemies := Spawned(old(State()).enemies, old(State()).camera.XShift(), tick, koopa))
    {
      ghost var s := State();
      ghost var r0 := Repr;
      assert |s.enemies| == |enemies| && s.camera == camera.State();
      var xShift := camera.State().XShift();
      SpawnedOne(s.enemies, xShift, tick, koopa);
      var e := SpawnEnemy(xShift, tick, koopa);
      assert Repr == r0 && State() == s;
      AddEnemy(e);
      assert Repr == r0 + {e, e.animation};
    }

    /** Appends a new enemy to the level's list. */
    method AddEnemy(e: Enemy)
      requires Valid() && e.Valid() && e !in enemies
      modifies this
      ensures Valid() && Repr == old(Repr) + {e, e.animation}
      ensures State() == old(State()).(enemies := old(State()).enemies + [e.State()])
    {
      PartsWithEnemy(player, camera, background, tiles, enemies, items, particles, e);
      Store(time, lives, flagY, quitRequested, player, camera, background, tiles, enemies + [e], items, particles);
    }

    /** The enemy loop, with Mario at his x. */
    method UpdateEnemies(tick: int)
      requires Valid()
      modifies this, Repr
      ensures Valid() && Repr <= old(Repr)
      ensures var s := old(State()); var sw := EnemiesPass(s.enemies, [], s.tiles, s.player.box.x, tick);
        State() == s.(enemies := sw.kept, tiles := sw.tiles)
    {
      var m, cam, bg, ts, es, xs, ps := player, camera, background, tiles, enemies, items, particles;
      var kept := EnemiesAmong(m, cam, bg, ts, es, xs, ps, tick, Parts(m, cam, bg, ts, es, xs, ps));
      Store(time, lives, flagY, quitRequested, m, cam, bg, ts, kept, xs, ps);
    }

    /** The timer of normal play. */
    method CountDown(tick: int)
      requires Valid()
      modifies this, Repr
      ensures Valid() && Repr == old(Repr)
      ensures State() == Ticked(old(State()), tick)
    {
      if tick % FPS == 0 {
        TimeLeft(tick);
      }
    }

    /** A second of the timer passes, and Mario dies when none is left. */
    method TimeLeft(tick: int)
      requires Valid() && tick % FPS == 0
      modifies this, Repr
      ensures Valid() && Repr == old(Repr)
      ensures State() == Ticked(old(State()), tick)
    {
      if time - 1 <= 0 {
        TimeUp(tick);
      } else {
        TimeDown(tick);
      }
    }

    /** A second of the timer passes. */
    method TimeDown(tick: int)
      requires Valid() && tick % FPS == 0 && time - 1 > 0
      modifies this
      ensures Valid() && Repr == old(Repr)
      ensures State() == Ticked(old(State()), tick)
    {
      var m, cam, bg, ts, es, xs, ps := player, camera, background, tiles, enemies, items, particles;
      Store(time - 1, lives, flagY, quitRequested, m, cam, bg, ts, es, xs, ps);
    }

    /** The last second of the timer runs out: Mario dies. */
    method TimeUp(tick: int)
      requires Valid() && tick % FPS == 0 && time - 1 <= 0
      modifies this, Repr
      ensures Valid() && Repr == old(Repr)
      ensures State() == Ticked(old(State()), tick)
    {
      var m, cam, bg, ts, es, xs, ps := player, camera, background, tiles, enemies, items, particles;
      DieAmong(m, cam, bg, ts, es, xs, ps, tick);
      Store(time - 1, lives, flagY, quitRequested, m, cam, bg, ts, es, xs, ps);
    }

    /** Normal play: `spawn_enemies`, the enemy loop and the timer. */
    method Play(tick: int, koopa: bool)
      requires Valid()
      modifies this, Repr
      ensures Valid() && forall o | o in Repr :: o in old(Repr) || fresh(o)
      ensures State() == Skirmish(old(State()), tick, koopa)
    {
      SpawnEnemies(tick, koopa);
      UpdateEnemies(tick);
      CountDown(tick);
    }

    /** Inside the castle: the flag rises, and while time is left a
        firework goes up every ten frames and each frame turns two units of
        time into 200 points. */
    method Celebrate(tick: int, vx: int, vy: int)
      requires Valid() && -10 <= vx <= 10 && -6 <= vy <= -2
      modifies this, Repr
      ensures Valid() && forall o | o in Repr :: o in old(Repr) || fresh(o)
      ensures State() == Celebrated(old(State()), tick, vx, vy)
    {
      var m, cam, bg, ts, es, xs, ps := player, camera, background, tiles, enemies, items, particles;
      var t, l, fy, qr := time, lives, flagY, quitRequested;
      ghost var p := Parts(m, cam, bg, ts, es, xs, ps);
      assert State() == LevelState(t, l, fy, qr, p.0, p.1, p.2, p.3, p.4, p.5, p.6);
      var y := if fy > FLAG_TOP_Y then fy - 1 else fy;
      var launch, x := tick % FIREWORK_PERIOD == 0, SCREEN_WIDTH / 2 - cam.State().XShift();
      CelebratedParts(t, l, fy, qr, p, tick, vx, vy, launch, x, y);
      if t > 0 {
        FootprintApart(m, cam, bg, ts, es, xs, ps);
        LevelOutside(this, m, cam, bg, ts, es, xs, ps);
        ghost var objs := Repr;
        var ps' := CastleAmong(m, cam, bg, ts, es, xs, ps, launch, x, y, vx, vy, tick, p);
        ghost var grown := Objects(m, cam, bg, ts, es, xs, ps');
        assert forall o | o in grown :: o in objs || fresh(o);
        Store(t - 2, l, y, qr, m, cam, bg, ts, es, xs, ps');
      } else {
        Store(0, l, y, qr, m, cam, bg, ts, es, xs, ps);
      }
    }

    /** `reset_level`: the level is built again from its text, with new
        objects throughout. */
    method ResetLevel(tick: int, coinsAt: (int, int) -> int)
      requires Valid()
      modifies this
      ensures Valid() && forall o | o in Repr :: fresh(o)
      ensures State() == Restarted(old(State()), levelData, coinsAt, tick)
    {
      var m, ts, es, xs, ps, cam, bg := Layout(levelData, tick, coinsAt);
      Store(STARTING_TIME, lives, flagY, quitRequested, m, cam, bg, ts, es, xs, ps);
    }

    /** Mario is dead: once his death animation has played, a life is
        taken and the level starts over, or the game asks to quit. */
    method Mourn(tick: int, coinsAt: (int, int) -> int)
      requires Valid()
      modifies this
      ensures Valid() && forall o | o in Repr :: o in old(Repr) || fresh(o)
      ensures State() == Mourned(old(State()), levelData, coinsAt, tick)
    {
      if player.animation.playedOnce {
        if lives > 0 {
          LoseLife(tick, coinsAt);
        } else {
          Store(time, lives, flagY, true, player, camera, background, tiles, enemies, items, particles);
        }
      }
    }

    /** A life taken and the level started over. */
    method LoseLife(tick: int, coinsAt: (int, int) -> int)
      requires Valid() && lives > 0
      modifies this
      ensures Valid() && forall o | o in Repr :: fresh(o)
      ensures var s := old(State()); State() == Restarted(s.(lives := s.lives - 1), levelData, coinsAt, tick)
    {
      Store(time, lives - 1, flagY, quitRequested, player, camera, background, tiles, enemies, items, particles);
      ResetLevel(tick, coinsAt);
    }

    /** The middle of `update`: normal play, the end in the castle, or
        death. */
    method Branch(tick: int, d: Draws)
      requires Valid() && d.Ok()
      modifies this, Repr
      ensures Valid() && forall o | o in Repr :: o in old(Repr) || fresh(o)
      ensures State() == Branched(old(State()), levelData, tick, d)
    {
      if player.action != Action.Grow && !player.finishingOnPole && !player.dead {
        Play(tick, d.koopa);
      } else if player.finishingInsideCastle {
        Celebrate(tick, d.fireworkVx, d.fireworkVy);
      } else if player.dead {
        Mourn(tick, d.coinsAt);
      }
    }

    /** The item loop. */
    method SweepItems()
      requires Valid()
      modifies this, Repr
      ensures Valid() && Repr <= old(Repr)
      ensures var s := old(State()); State() == s.(items := ItemsKept(s.items, s.tiles))
    {
      var m, cam, bg, ts, es, xs, ps := player, camera, background, tiles, enemies, items, particles;
      var kept := ItemsAmong(m, cam, bg, ts, es, xs, ps);
      Store(time, lives, flagY, quitRequested, m, cam, bg, ts, es, kept, ps);
    }

    /** The particle loop. */
    method SweepParticles(tick: int)
      requires Valid()
      modifies this, Repr
      ensures Valid() && Repr <= old(Repr)
      ensures var s := old(State()); State() == s.(particles := ParticlesKept(s.particles, tick))
    {
      var m, cam, bg, ts, es, xs, ps := player, camera, background, tiles, enemies, items, particles;
      var kept := ParticlesAmong(m, cam, bg, ts, es, xs, ps, tick, Parts(m, cam, bg, ts, es, xs, ps));
      Store(time, lives, flagY, quitRequested, m, cam, bg, ts, es, xs, kept);
    }

    /** The tile loop, whose broken tiles leave their bursts behind. */
    method SweepTiles(tick: int)
      requires Valid()
      modifies this, Repr
      ensures Valid()
      ensures var s := old(State()); var r := TilesPass(s.tiles, [], []);
        State() == s.(tiles := r.kept, particles := s.particles + r.debris)
    {
      var m, cam, bg, ts, es, xs, ps := player, camera, background, tiles, enemies, items, particles;
      var kept, ps' := TilesAmong(m, cam, bg, ts, es, xs, ps, tick, Parts(m, cam, bg, ts, es, xs, ps));
      Store(time, lives, flagY, quitRequested, m, cam, bg, kept, es, xs, ps');
    }

    /** The item, particle and tile loops that end `update`. */
    method Sweep(tick: int)
      requires Valid()
      modifies this, Repr
      ensures Valid()
      ensures State() == Cleaned(old(State()), tick)
    {
      SweepItems();
      SweepParticles(tick);
      SweepTiles(tick);
    }

    /** `update` once Mario's own update is done. */
    method Finish(tick: int, d: Draws)
      requires Valid() && d.Ok()
      modifies this, Repr
      ensures Valid()
      ensures State() == Rest(old(State()), levelData, tick, d)
    {
      Follow();
      Branch(tick, d);
      Sweep(tick);
    }

    /** `update` at frame `tick` with the keys held and the draws made: an
        error raised by Mario's update ends the frame there. */
    method Update(keys: Keys, tick: int, d: Draws) returns (err: Option<PyError>)
      requires Valid() && d.Ok()
      modifies this, Repr
      ensures Valid()
      ensures (State(), err) == LevelStep(old(State()), levelData, keys, tick, d)
    {
      err := MovePlayer(keys, tick);
      if err.None? {
        Finish(tick, d);
      }
    }
  }
}

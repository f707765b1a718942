/**
 * The loops over the tile list that every moving object of the game runs
 * after each move: each walks the tiles in order, resolves the overlap with
 * every tile it touches and works only on local copies of the rectangle and
 * speed, so each is a method that returns the new values and is proved
 * equal to the matching pass of the Collisions module.
 */
module TilePasses {
  import opened Sprites
  import opened Collisions
  import opened LevelTiles

  /** The walkers' horizontal loop (Goomba and Mushroom
      `_check_horizontal_collisions`): the new rectangle and direction. */
  method TurnTiles(tiles: seq<Tile>, box: Sprite, direction: int) returns (b: Sprite, d: int)
    ensures (b, d) == TurnPass(box, direction, Boxes(States(tiles)))
  {
    var boxes := TileBoxes(tiles);
    b, d := box, direction;
    var i := 0;
    while i < |boxes|
      invariant 0 <= i <= |boxes|
      invariant (b, d) == TurnPass(box, direction, boxes[..i])
    {
      assert boxes[..i + 1][..i] == boxes[..i];
      if b.Intersects(boxes[i]) {
        if d == 0 {
          b := b.WithLeft(boxes[i].Right());
          d := 1;
        } else {
          b := b.WithRight(boxes[i].Left());
          d := 0;
        }
      }
      i := i + 1;
    }
    assert boxes[..|boxes|] == boxes;
    BoxesOfStates(tiles);
  }

  /** The base item's horizontal loop (`Item._check_horizontal_collisions`):
      pushed back by the sign of `vx`. */
  method PushTiles(tiles: seq<Tile>, box: Sprite, vx: int) returns (b: Sprite)
    ensures b == PushPass(box, vx, Boxes(States(tiles)))
  {
    var boxes := TileBoxes(tiles);
    b := box;
    var i := 0;
    while i < |boxes|
      invariant 0 <= i <= |boxes|
      invariant b == PushPass(box, vx, boxes[..i])
    {
      assert boxes[..i + 1][..i] == boxes[..i];
      if b.Intersects(boxes[i]) {
        if vx > 0 {
          b := b.WithRight(boxes[i].Left());
        } else {
          b := b.WithLeft(boxes[i].Right());
        }
      }
      i := i + 1;
    }
    assert boxes[..|boxes|] == boxes;
    BoxesOfStates(tiles);
  }

  /** The base item's vertical loop (`Item._check_vertical_collisions`):
      lands or bumps, and keeps its speed. */
  method SlideTiles(tiles: seq<Tile>, box: Sprite, vy: int) returns (b: Sprite)
    ensures b == SlidePass(box, vy, Boxes(States(tiles)))
  {
    var boxes := TileBoxes(tiles);
    b := box;
    var i := 0;
    while i < |boxes|
      invariant 0 <= i <= |boxes|
      invariant b == SlidePass(box, vy, boxes[..i])
    {
      assert boxes[..i + 1][..i] == boxes[..i];
      if b.Intersects(boxes[i]) {
        if vy > 0 {
          b := b.WithBottom(boxes[i].Top());
        } else {
          b := b.WithTop(boxes[i].Bottom());
        }
      }
      i := i + 1;
    }
    assert boxes[..|boxes|] == boxes;
    BoxesOfStates(tiles);
  }

  /** The enemies' vertical loop (`_check_vertical_collisions` of the
      KoopaTroopa): lands or bumps, and every contact stops the vertical
      speed. */
  method SettleTiles(tiles: seq<Tile>, box: Sprite, vy: int) returns (b: Sprite, v: int)
    ensures (b, v) == SettlePass(box, vy, Boxes(States(tiles)))
  {
    var boxes := TileBoxes(tiles);
    b, v := box, vy;
    var i := 0;
    while i < |boxes|
      invariant 0 <= i <= |boxes|
      invariant (b, v) == SettlePass(box, vy, boxes[..i])
    {
      assert boxes[..i + 1][..i] == boxes[..i];
      if b.Intersects(boxes[i]) {
        if v > 0 {
          b := b.WithBottom(boxes[i].Top());
        } else {
          b := b.WithTop(boxes[i].Bottom());
        }
        v := 0;
      }
      i := i + 1;
    }
    assert boxes[..|boxes|] == boxes;
    BoxesOfStates(tiles);
  }
}

/**
 * The collision responses the entity classes share.  Each `_check_*_collisions`
 * loop of the source walks the tile list in order and, for every tile the
 * entity's rectangle intersects at that moment, snaps one edge of the entity
 * onto the tile.  Here one step is a function of the current rectangle and one
 * tile, and a pass is the fold of that step over the tiles, defined on the
 * prefix so that a loop's invariant after i tiles is the pass over tiles[..i].
 */
module Collisions {
  import opened Sprites

  /** The direction after turning around: 0 (left) becomes 1, anything else 0. */
  function Flip(direction: int): (d: int)
    ensures d == 0 || d == 1
    ensures direction == 0 || direction == 1 ==> d != direction
  {
    if direction == 0 then 1 else 0
  }

  /** A walker's (Goomba, KoopaTroopa, Mushroom) response to one tile: on
      overlap it snaps the edge on its facing side (0 = left, 1 = right) to the
      tile and turns around. */
  function TurnStep(box: Sprite, direction: int, tile: Sprite): (Sprite, int)
  {
    if !box.Intersects(tile) then (box, direction)
    else if direction == 0 then (box.WithLeft(tile.Right()), 1)
    else (box.WithRight(tile.Left()), 0)
  }

  function TurnPass(box: Sprite, direction: int, tiles: seq<Sprite>): (Sprite, int)
    decreases |tiles|
  {
    if tiles == [] then (box, direction)
    else
      var (b, d) := TurnPass(box, direction, tiles[..|tiles| - 1]);
      TurnStep(b, d, tiles[|tiles| - 1])
  }

  /** The base Item's response to one tile: the side is chosen by the sign of
      the horizontal velocity, and the item does not turn. */
  function PushStep(box: Sprite, vx: int, tile: Sprite): Sprite
  {
    if !box.Intersects(tile) then box
    else if vx > 0 then box.WithRight(tile.Left())
    else box.WithLeft(tile.Right())
  }

  function PushPass(box: Sprite, vx: int, tiles: seq<Sprite>): Sprite
    decreases |tiles|
  {
    if tiles == [] then box
    else PushStep(PushPass(box, vx, tiles[..|tiles| - 1]), vx, tiles[|tiles| - 1])
  }

  /** The vertical response to one tile: falling (vy > 0) lands on the tile's
      top, anything else bumps the tile's bottom. */
  function LandStep(box: Sprite, vy: int, tile: Sprite): Sprite
  {
    if !box.Intersects(tile) then box
    else if vy > 0 then box.WithBottom(tile.Top())
    else box.WithTop(tile.Bottom())
  }

  /** The base Item's vertical pass: the velocity is left as it is. */
  function SlidePass(box: Sprite, vy: int, tiles: seq<Sprite>): Sprite
    decreases |tiles|
  {
    if tiles == [] then box
    else LandStep(SlidePass(box, vy, tiles[..|tiles| - 1]), vy, tiles[|tiles| - 1])
  }

  /** One step of the enemies' vertical pass: a contact also stops the fall. */
  function SettleStep(box: Sprite, vy: int, tile: Sprite): (Sprite, int)
  {
    if box.Intersects(tile) then (LandStep(box, vy, tile), 0) else (box, vy)
  }

  /** The enemies' vertical pass: after the first contact vy is 0, so later
      overlaps are resolved upwards. */
  function SettlePass(box: Sprite, vy: int, tiles: seq<Sprite>): (Sprite, int)
    decreases |tiles|
  {
    if tiles == [] then (box, vy)
    else
      var (b, v) := SettlePass(box, vy, tiles[..|tiles| - 1]);
      SettleStep(b, v, tiles[|tiles| - 1])
  }

  /** A turning step resolves the overlap with that tile: the walker ends flush
      with the tile on its facing side, no longer overlaps it, faces the other
      way, and has moved only horizontally. */
  lemma TurnStepResolves(box: Sprite, direction: int, tile: Sprite)
    requires box.Solid() && tile.Solid() && box.Intersects(tile)
    requires direction == 0 || direction == 1
    ensures var (b, d) := TurnStep(box, direction, tile);
      && d == Flip(direction)
      && (direction == 0 ==> b.Left() == tile.Right())
      && (direction == 1 ==> b.Right() == tile.Left())
      && !b.Intersects(tile)
      && b.y == box.y && b.width == box.width && b.height == box.height
  {
  }

  /** A whole turning pass only moves the walker horizontally, and the
      direction is either left as it was or set to 0 or 1. */
  lemma {:induction false} TurnPassKeepsRow(box: Sprite, direction: int, tiles: seq<Sprite>)
    ensures var (b, d) := TurnPass(box, direction, tiles);
      && b.y == box.y && b.width == box.width && b.height == box.height
      && (d == direction || d == 0 || d == 1)
    decreases |tiles|
  {
    if tiles != [] {
      TurnPassKeepsRow(box, direction, tiles[..|tiles| - 1]);
    }
  }

  /** Without any overlap a turning pass changes nothing: a walker turns only
      at a wall. */
  lemma {:induction false} TurnPassClear(box: Sprite, direction: int, tiles: seq<Sprite>)
    requires forall i :: 0 <= i < |tiles| ==> !box.Intersects(tiles[i])
    ensures TurnPass(box, direction, tiles) == (box, direction)
    decreases |tiles|
  {
    if tiles != [] {
      TurnPassClear(box, direction, tiles[..|tiles| - 1]);
    }
  }

  /** The base Item's horizontal response: right edge onto the tile's left
      edge when moving right, left edge onto the tile's right edge otherwise. */
  lemma PushStepResolves(box: Sprite, vx: int, tile: Sprite)
    requires box.Intersects(tile)
    ensures var b := PushStep(box, vx, tile);
      && (vx > 0 ==> b.Right() == tile.Left())
      && (vx <= 0 ==> b.Left() == tile.Right())
      && b.y == box.y && b.width == box.width && b.height == box.height
  {
  }

  /** A pushing pass moves only horizontally. */
  lemma {:induction false} PushPassKeepsRow(box: Sprite, vx: int, tiles: seq<Sprite>)
    ensures var b := PushPass(box, vx, tiles);
      b.y == box.y && b.width == box.width && b.height == box.height
    decreases |tiles|
  {
    if tiles != [] {
      PushPassKeepsRow(box, vx, tiles[..|tiles| - 1]);
    }
  }

  /** A vertical step resolves the overlap with that tile and moves the
      entity only vertically. */
  lemma LandStepResolves(box: Sprite, vy: int, tile: Sprite)
    requires box.Solid() && tile.Solid() && box.Intersects(tile)
    ensures var b := LandStep(box, vy, tile);
      && (vy > 0 ==> b.Bottom() == tile.Top())
      && (vy <= 0 ==> b.Top() == tile.Bottom())
      && !b.Intersects(tile)
      && b.x == box.x && b.width == box.width && b.height == box.height
  {
  }

  /** A sliding pass moves only vertically. */
  lemma {:induction false} SlidePassKeepsColumn(box: Sprite, vy: int, tiles: seq<Sprite>)
    ensures var b := SlidePass(box, vy, tiles);
      b.x == box.x && b.width == box.width && b.height == box.height
    decreases |tiles|
  {
    if tiles != [] {
      SlidePassKeepsColumn(box, vy, tiles[..|tiles| - 1]);
    }
  }

  /** After the enemies' vertical pass the entity has moved only vertically,
      and its velocity is either unchanged or stopped. */
  lemma {:induction false} SettlePassStops(box: Sprite, vy: int, tiles: seq<Sprite>)
    ensures var (b, v) := SettlePass(box, vy, tiles);
      && b.x == box.x && b.width == box.width && b.height == box.height
      && (v == 0 || v == vy)
    decreases |tiles|
  {
    if tiles != [] {
      SettlePassStops(box, vy, tiles[..|tiles| - 1]);
    }
  }
}

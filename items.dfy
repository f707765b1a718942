/**
 * Power-ups (items.py).  `Item` is the base class (pushed out of tiles by the
 * sign of its velocity) and a Mushroom is an Item with the `mushroom` tag,
 * which walks, turns at walls and hops off bouncing or broken blocks.  Each
 * frame applies the capped gravity step, then moves horizontally and resolves
 * against the tiles, then moves vertically and resolves again.
 */
module Items {
  import opened Settings
  import opened Sprites
  import opened Outcomes
  import opened Collisions
  import opened Entities
  import opened LevelTiles
  import opened TilePasses

  /** The items' gravity cap, smaller than MAX_ACCELERATION. */
  const ITEM_MAX_ACCEL: int := 3
  const MUSHROOM_SPEED: int := 1
  /** The vertical speed a Mushroom hops with. */
  const HOP_VY: int := -10

  /** A snapshot of an item; `speed` and `direction` are the Mushroom's. */
  datatype ItemState = ItemState(
    mushroom: bool, box: Sprite, used: bool, vx: int, vy: int,
    maxAccel: int, speed: int, direction: int)

  /** `Item(x, y)`: 16 x 16, unused, still. */
  function NewItemState(x: int, y: int): (s: ItemState)
    ensures !s.mushroom && !s.used && s.vx == 0 && s.vy == 0 && s.maxAccel == ITEM_MAX_ACCEL
    ensures s.box == Sprite(x, y, ITEM_SIZE, ITEM_SIZE)
  {
    ItemState(false, Sprite(x, y, ITEM_SIZE, ITEM_SIZE), false, 0, 0, ITEM_MAX_ACCEL, 0, 0)
  }

  /** `Mushroom(x, y, direction)`: only direction 0 or 1 is accepted, any
      other integer raises ValueError. */
  function NewMushroomState(x: int, y: int, direction: int): (r: Result<ItemState>)
    ensures r.Ok? <==> direction == 0 || direction == 1
    ensures r.Ok? ==> r.value.mushroom && r.value.direction == direction && r.value.speed == MUSHROOM_SPEED
    ensures r.Ok? ==> r.value == NewItemState(x, y).(mushroom := true, speed := MUSHROOM_SPEED, direction := direction)
    ensures r.Err? ==> r.error.ValueError?
  {
    if direction == 0 || direction == 1 then
      Ok(NewItemState(x, y).(mushroom := true, speed := MUSHROOM_SPEED, direction := direction))
    else Err(ValueError("Value of the 'direction' parameter is not valid"))
  }

  /** `QuestionBlock.get_item`: a "mushroom" block releases a Mushroom one
      item-height above itself, heading right; any other block releases
      nothing. */
  function QuestionItem(t: TileState): (r: Option<ItemState>)
    ensures r.Some? <==> t.itemType == "mushroom"
    ensures r.Some? ==> r.value.mushroom && r.value.direction == 1 && !r.value.used
    ensures r.Some? ==> r.value.box == Sprite(t.box.x, t.box.y - ITEM_SIZE, ITEM_SIZE, ITEM_SIZE)
  {
    if t.itemType == "mushroom" then Some(NewMushroomState(t.box.x, t.box.y - ITEM_SIZE, 1).value)
    else None
  }

  /** The Mushroom's vertical response to one tile: it lands on anything it
      falls onto, and landing on a Block that is broken or bouncing makes it
      hop (vy = -10) and turn around; rising into a tile snaps its top to the
      tile's bottom.  The speed is not reset on landing. */
  function HopStep(box: Sprite, vy: int, direction: int, t: TileState): (Sprite, int, int)
  {
    if !box.Intersects(t.box) then (box, vy, direction)
    else if vy > 0 then
      if t.kind == Block && (t.broken || t.bouncing) then (box.WithBottom(t.box.Top()), HOP_VY, Flip(direction))
      else (box.WithBottom(t.box.Top()), vy, direction)
    else (box.WithTop(t.box.Bottom()), vy, direction)
  }

  function HopPass(box: Sprite, vy: int, direction: int, ts: seq<TileState>): (Sprite, int, int)
    decreases |ts|
  {
    if ts == [] then (box, vy, direction)
    else
      var (b, v, d) := HopPass(box, vy, direction, ts[..|ts| - 1]);
      HopStep(b, v, d, ts[|ts| - 1])
  }

  /** `_check_horizontal_collisions`: a Mushroom turns at walls, a base item
      is pushed back by the sign of vx. */
  function HorizontalPass(s: ItemState, ts: seq<TileState>): ItemState
  {
    if s.mushroom then
      var (b, d) := TurnPass(s.box, s.direction, Boxes(ts));
      s.(box := b, direction := d)
    else s.(box := PushPass(s.box, s.vx, Boxes(ts)))
  }

  /** `_check_vertical_collisions`: a Mushroom may hop off blocks, a base item
      only lands or bumps. */
  function VerticalPass(s: ItemState, ts: seq<TileState>): ItemState
  {
    if s.mushroom then
      var (b, v, d) := HopPass(s.box, s.vy, s.direction, ts);
      s.(box := b, vy := v, direction := d)
    else s.(box := SlidePass(s.box, s.vy, Boxes(ts)))
  }

  /** `update(tiles)` of an item (Item.update, then for a Mushroom the
      velocity that follows its direction). */
  function ItemStep(s: ItemState, ts: seq<TileState>): ItemState
  {
    var s1 := s.(vy := Fall(s.vy, s.maxAccel));
    var s2 := HorizontalPass(s1.(box := s1.box.(x := s1.box.x + s1.vx)), ts);
    var s3 := VerticalPass(s2.(box := s2.box.(y := s2.box.y + s2.vy)), ts);
    if s.mushroom then s3.(vx := if s3.direction == 0 then -s3.speed else s3.speed) else s3
  }

  /** `use`. */
  function UsedItem(s: ItemState): (r: ItemState)
    ensures r.used
    ensures r.(used := s.used) == s
  {
    s.(used := true)
  }

  /** Landing on a bouncing or broken Block: the Mushroom stands on the block,
      hops with vy = -10 and reverses its direction. */
  lemma HopOffBlock(box: Sprite, vy: int, direction: int, t: TileState)
    requires box.Intersects(t.box) && vy > 0
    requires t.kind == Block && (t.broken || t.bouncing)
    requires direction == 0 || direction == 1
    ensures var (b, v, d) := HopStep(box, vy, direction, t);
      b.Bottom() == t.box.Top() && v == -10 && d == 1 - direction && b.x == box.x
  {
  }

  /** The vertical pass keeps the direction in 0..1, leaves the speed either
      as it was or at the hop speed, and moves only vertically. */
  lemma {:induction false} HopPassFacts(box: Sprite, vy: int, direction: int, ts: seq<TileState>)
    requires direction == 0 || direction == 1
    ensures var (b, v, d) := HopPass(box, vy, direction, ts);
      && (d == 0 || d == 1)
      && (v == vy || v == HOP_VY)
      && b.x == box.x && b.width == box.width && b.height == box.height
    decreases |ts|
  {
    if ts != [] {
      HopPassFacts(box, vy, direction, ts[..|ts| - 1]);
    }
  }

  /** One frame of an item: the vertical speed ends at most at the item's
      gravity cap, the size and `used` never change, and a Mushroom keeps a
      direction of 0 or 1 and ends the frame moving that way at its speed. */
  lemma ItemStepFacts(s: ItemState, ts: seq<TileState>)
    requires s.maxAccel >= HOP_VY
    requires s.mushroom ==> s.direction == 0 || s.direction == 1
    ensures var r := ItemStep(s, ts);
      && r.vy <= s.maxAccel
      && r.box.width == s.box.width && r.box.height == s.box.height
      && r.used == s.used && r.mushroom == s.mushroom
      && (s.mushroom ==> (r.direction == 0 || r.direction == 1) &&
                         r.vx == (if r.direction == 0 then -s.speed else s.speed))
  {
    var s1 := s.(vy := Fall(s.vy, s.maxAccel));
    var m1 := s1.(box := s1.box.(x := s1.box.x + s1.vx));
    var s2 := HorizontalPass(m1, ts);
    var m2 := s2.(box := s2.box.(y := s2.box.y + s2.vy));
    if s.mushroom {
      TurnPassKeepsRow(m1.box, m1.direction, Boxes(ts));
      HopPassFacts(m2.box, m2.vy, m2.direction, ts);
    } else {
      PushPassKeepsRow(m1.box, m1.vx, Boxes(ts));
      SlidePassKeepsColumn(m2.box, m2.vy, Boxes(ts));
    }
  }

  class Item {
    const mushroom: bool
    var box: Sprite
    var used: bool
    var vx: int
    var vy: int
    const maxAccel: int
    const speed: int
    var direction: int

    function State(): ItemState
      reads this
    {
      ItemState(mushroom, box, used, vx, vy, maxAccel, speed, direction)
    }

    ghost predicate Valid()
      reads this
    {
      && maxAccel == ITEM_MAX_ACCEL
      && box.width == ITEM_SIZE && box.height == ITEM_SIZE
      && (mushroom ==> (direction == 0 || direction == 1) && speed == MUSHROOM_SPEED)
    }

    /** `Item(x, y)`. */
    constructor (x: int, y: int)
      ensures Valid() && State() == NewItemState(x, y)
    {
      mushroom := false;
      box := Sprite(x, y, ITEM_SIZE, ITEM_SIZE);
      used := false;
      vx := 0;
      vy := 0;
      maxAccel := ITEM_MAX_ACCEL;
      speed := 0;
      direction := 0;
    }

    /** A Mushroom whose direction the caller has already checked. */
    constructor Mushroom(x: int, y: int, direction: int)
      requires direction == 0 || direction == 1
      ensures Valid() && State() == NewMushroomState(x, y, direction).value
    {
      mushroom := true;
      box := Sprite(x, y, ITEM_SIZE, ITEM_SIZE);
      used := false;
      vx := 0;
      vy := 0;
      maxAccel := ITEM_MAX_ACCEL;
      speed := MUSHROOM_SPEED;
      this.direction := direction;
    }

    /** `Mushroom(x, y, direction)` with its argument check: a Mushroom for
        direction 0 or 1, ValueError otherwise. */
    static method NewMushroom(x: int, y: int, direction: int) returns (r: Result<Item>)
      ensures r.Ok? <==> NewMushroomState(x, y, direction).Ok?
      ensures r.Ok? ==> fresh(r.value) && r.value.Valid() && r.value.State() == NewMushroomState(x, y, direction).value
      ensures r.Err? ==> r.error == NewMushroomState(x, y, direction).error
    {
      if direction == 0 || direction == 1 {
        var m := new Item.Mushroom(x, y, direction);
        r := Ok(m);
      } else {
        r := Err(ValueError("Value of the 'direction' parameter is not valid"));
      }
    }

    /** `update(tiles)`. */
    method Update(tiles: seq<Tile>)
      requires Valid()
      modifies this
      ensures Valid()
      ensures State() == ItemStep(old(State()), States(tiles))
    {
      ghost var ts := States(tiles);
      FallAndSlide();
      HorizontalCollisions(tiles, ts);
      Drop();
      VerticalCollisions(tiles, ts);
      if mushroom {
        FollowDirection();
      }
    }

    /** Gravity, capped at `max_accel`, then the move by vx. */
    method FallAndSlide()
      requires Valid()
      modifies this
      ensures Valid()
      ensures var s1 := old(State()).(vy := Fall(old(vy), maxAccel));
        State() == s1.(box := s1.box.(x := s1.box.x + s1.vx))
    {
      vy := vy + GRAVITY;
      if vy > maxAccel {
        vy := maxAccel;
      }
      box := box.(x := box.x + vx);
    }

    /** The move by vy. */
    method Drop()
      requires Valid()
      modifies this
      ensures Valid()
      ensures State() == old(State()).(box := old(box).(y := old(box.y) + old(vy)))
    {
      box := box.(y := box.y + vy);
    }

    /** A Mushroom's speed follows its direction. */
    method FollowDirection()
      requires Valid()
      modifies this
      ensures Valid()
      ensures State() == old(State()).(vx := if old(direction) == 0 then -speed else speed)
    {
      if direction == 0 {
        vx := -speed;
      } else {
        vx := speed;
      }
    }

    /** The horizontal pass: a Mushroom turns at walls, a base item is pushed
        back by the sign of vx. */
    method HorizontalCollisions(tiles: seq<Tile>, ghost ts: seq<TileState>)
      requires Valid() && States(tiles) == ts
      modifies this
      ensures Valid() && States(tiles) == ts
      ensures State() == HorizontalPass(old(State()), ts)
    {
      if mushroom {
        TurnAtWalls(tiles);
      } else {
        PushBack(tiles);
      }
    }

    /** A Mushroom turns at the walls it meets. */
    method TurnAtWalls(tiles: seq<Tile>)
      requires Valid() && mushroom
      modifies this
      ensures Valid()
      ensures var (b, d) := TurnPass(old(box), old(direction), Boxes(States(tiles)));
        State() == old(State()).(box := b, direction := d)
    {
      box, direction := TurnTiles(tiles, box, direction);
      TurnPassKeepsRow(old(box), old(direction), Boxes(States(tiles)));
    }

    /** A base item is pushed back by the sign of vx. */
    method PushBack(tiles: seq<Tile>)
      requires Valid()
      modifies this
      ensures Valid()
      ensures State() == old(State()).(box := PushPass(old(box), vx, Boxes(States(tiles))))
    {
      box := PushTiles(tiles, box, vx);
      PushPassKeepsRow(old(box), vx, Boxes(States(tiles)));
    }

    /** The vertical pass: a Mushroom may hop off blocks, a base item only
        lands or bumps. */
    method VerticalCollisions(tiles: seq<Tile>, ghost ts: seq<TileState>)
      requires Valid() && States(tiles) == ts
      modifies this
      ensures Valid() && States(tiles) == ts
      ensures State() == VerticalPass(old(State()), ts)
    {
      if mushroom {
        HopOnBlocks(tiles);
      } else {
        LandOrBump(tiles);
      }
    }

    /** A Mushroom lands, bumps, or hops off a bouncing or broken Block. */
    method HopOnBlocks(tiles: seq<Tile>)
      requires Valid() && mushroom
      modifies this
      ensures Valid()
      ensures var (b, v, d) := HopPass(old(box), old(vy), old(direction), States(tiles));
        State() == old(State()).(box := b, vy := v, direction := d)
    {
      box, vy, direction := HopTiles(tiles, box, vy, direction);
      HopPassFacts(old(box), old(vy), old(direction), States(tiles));
    }

    /** A base item only lands or bumps. */
    method LandOrBump(tiles: seq<Tile>)
      requires Valid()
      modifies this
      ensures Valid()
      ensures State() == old(State()).(box := SlidePass(old(box), vy, Boxes(States(tiles))))
    {
      box := SlideTiles(tiles, box, vy);
      SlidePassKeepsColumn(old(box), vy, Boxes(States(tiles)));
    }

    /** `use`: idempotent, and nothing but `used` changes. */
    method Use()
      modifies this
      ensures State() == UsedItem(old(State()))
      ensures old(Valid()) ==> Valid()
    {
      used := true;
    }
  }

  /** The Mushroom's vertical loop (`Mushroom._check_vertical_collisions`):
      the new rectangle, vertical speed and direction. */
  method HopTiles(tiles: seq<Tile>, box: Sprite, vy: int, direction: int) returns (b: Sprite, v: int, d: int)
    ensures (b, v, d) == HopPass(box, vy, direction, States(tiles))
  {
    ghost var ts := States(tiles);
    b, v, d := box, vy, direction;
    var i := 0;
    while i < |tiles|
      invariant 0 <= i <= |tiles|
      invariant (b, v, d) == HopPass(box, vy, direction, ts[..i])
    {
      assert ts[..i + 1][..i] == ts[..i];
      var tile := tiles[i];
      if b.Intersects(tile.box) {
        if v > 0 {
          b := b.WithBottom(tile.box.Top());
          if tile.kind == Block && (tile.broken || tile.bouncing) {
            v := HOP_VY;
            if d == 0 {
              d := 1;
            } else {
              d := 0;
            }
          }
        } else {
          b := b.WithTop(tile.box.Bottom());
        }
      }
      i := i + 1;
    }
    assert ts[..|tiles|] == ts;
  }

  /** `QuestionBlock.get_item` on a block object: the new Mushroom it
      releases, if any. */
  method GetItem(t: Tile) returns (r: Option<Item>)
    ensures r.Some? <==> QuestionItem(t.State()).Some?
    ensures r.Some? ==> fresh(r.value) && r.value.Valid() && r.value.State() == QuestionItem(t.State()).value
  {
    if t.itemType == "mushroom" {
      var item := new Item.Mushroom(t.box.x, t.box.y - ITEM_SIZE, 1);
      r := Some(item);
    } else {
      r := None;
    }
  }

  /** An item list as the level keeps it: every item keeps its invariant and
      no item appears twice. */
  ghost predicate ItemsOk(items: seq<Item>)
    reads items
  {
    && (forall i :: 0 <= i < |items| ==> items[i].Valid())
    && (forall i, j :: 0 <= i < j < |items| ==> items[i] != items[j])
  }

  /** A well-kept item list whose snapshots are `its`. */
  ghost predicate ItemsAre(items: seq<Item>, its: seq<ItemState>)
    reads items
  {
    ItemsOk(items) && ItemStates(items) == its
  }

  /** Two well-kept item lists with no item in common make a well-kept
      list, whose snapshots are theirs end to end. */
  lemma ItemsAppend(a: seq<Item>, b: seq<Item>)
    requires ItemsOk(a) && ItemsOk(b)
    requires forall i, j :: 0 <= i < |a| && 0 <= j < |b| ==> a[i] != b[j]
    ensures ItemsOk(a + b)
    ensures ItemStates(a + b) == ItemStates(a) + ItemStates(b)
  {
    assert forall i :: 0 <= i < |a + b| ==> (a + b)[i] == if i < |a| then a[i] else b[i - |a|];
  }

  /** The snapshots of an item list, in order. */
  function ItemStates(items: seq<Item>): (r: seq<ItemState>)
    reads items
    ensures |r| == |items|
    ensures forall i :: 0 <= i < |items| ==> r[i] == items[i].State()
  {
    seq(|items|, i reads items requires 0 <= i < |items| => items[i].State())
  }
  /** A Mushroom that the QuestionBlock with top-left corner (x, y) has
      released, recorded as a request until the item list receives it. */
  datatype Release = Release(x: int, y: int)

  /** The Mushroom a request stands for: the one `get_item` makes. */
  function ReleaseState(r: Release): (s: ItemState)
    ensures s.mushroom && s.direction == 1 && !s.used
    ensures s.box == Sprite(r.x, r.y - ITEM_SIZE, ITEM_SIZE, ITEM_SIZE)
  {
    NewMushroomState(r.x, r.y - ITEM_SIZE, 1).value
  }

  /** A mushroom block's `get_item` gives exactly the Mushroom that a
      request at the block's corner stands for. */
  lemma ReleaseIsQuestionItem(t: TileState)
    requires t.itemType == "mushroom"
    ensures QuestionItem(t) == Some(ReleaseState(Release(t.box.x, t.box.y)))
  {
  }

  /** The items a list of requests stands for, in order. */
  function ReleaseStates(rs: seq<Release>): (r: seq<ItemState>)
    ensures |r| == |rs|
    ensures forall i :: 0 <= i < |rs| ==> r[i] == ReleaseState(rs[i])
  {
    seq(|rs|, i requires 0 <= i < |rs| => ReleaseState(rs[i]))
  }

  lemma ReleaseStatesAppend(a: seq<Release>, b: seq<Release>)
    ensures ReleaseStates(a + b) == ReleaseStates(a) + ReleaseStates(b)
  {
    assert forall i :: 0 <= i < |a + b| ==> (a + b)[i] == if i < |a| then a[i] else b[i - |a|];
  }

  /** `items` with the Mushrooms `rs` asks for appended as new objects, in
      order; the items already there stay first. */
  method AppendReleased(items: seq<Item>, rs: seq<Release>) returns (all: seq<Item>)
    requires ItemsOk(items)
    ensures ItemsOk(all) && ItemStates(all) == ItemStates(items) + ReleaseStates(rs)
    ensures |all| == |items| + |rs| && all[..|items|] == items
    ensures forall j :: |items| <= j < |all| ==> fresh(all[j])
  {
    var made := ReleaseAll(rs);
    ItemsAppend(items, made);
    all := items + made;
  }

  /** Creates the Mushrooms `rs` asks for, in order: new, distinct items
      that keep their invariant. */
  method ReleaseAll(rs: seq<Release>) returns (items: seq<Item>)
    ensures ItemsOk(items) && ItemStates(items) == ReleaseStates(rs)
    ensures forall i :: 0 <= i < |items| ==> fresh(items[i])
  {
    items := [];
    var i := 0;
    while i < |rs|
      invariant 0 <= i <= |rs| && |items| == i
      invariant forall j :: 0 <= j < i ==> fresh(items[j]) && items[j].Valid() && items[j].State() == ReleaseState(rs[j])
      invariant forall j, k :: 0 <= j < k < i ==> items[j] != items[k]
    {
      var it := new Item.Mushroom(rs[i].x, rs[i].y - ITEM_SIZE, 1);
      items := items + [it];
      i := i + 1;
    }
  }

  /** The items of a list, as objects. */
  ghost function ItemObjects(items: seq<Item>): set<object>
  {
    set x | x in items :: x as object
  }
}

/**
 * The list passes of `Level.update` (level.py): each list is walked from
 * its last element to its first, every element is updated, and those that
 * are finished are deleted where they stand.  Each loop is proved against
 * a tail-recursive function that follows it step by step, and lemmas
 * relate that function to a plain, order-keeping filter of the updated
 * elements.  The enemy spawn lives here too.
 */
module LevelPasses {
  import opened Settings
  import opened Sprites
  import opened Animations
  import opened LevelTiles
  import opened Items
  import opened Particles
  import opened Enemies
  import opened Seqs

  // ---------------------------------------------------------------------
  // Sequences

  // ---------------------------------------------------------------------
  // Items

  /** The backward item loop: the items still to visit are `pending`, the
      kept items after them are `done`; a used item is deleted. */
  function ItemsPass(pending: seq<ItemState>, done: seq<ItemState>, ts: seq<TileState>): seq<ItemState>
    decreases |pending|
  {
    if pending == [] then done
    else
      var n := |pending| - 1;
      var u := ItemStep(pending[n], ts);
      ItemsPass(pending[..n], if u.used then done else [u] + done, ts)
  }

  /** Every item updated against the tiles, in order, the used ones left
      out. */
  function ItemsKept(its: seq<ItemState>, ts: seq<TileState>): (r: seq<ItemState>)
    ensures |r| <= |its|
    ensures forall k :: 0 <= k < |r| ==> !r[k].used
    decreases |its|
  {
    if its == [] then []
    else
      var u := ItemStep(its[0], ts);
      (if u.used then [] else [u]) + ItemsKept(its[1..], ts)
  }

  lemma {:induction false} ItemsKeptSnoc(its: seq<ItemState>, ts: seq<TileState>)
    requires its != []
    ensures var u := ItemStep(its[|its| - 1], ts);
      ItemsKept(its, ts) == ItemsKept(its[..|its| - 1], ts) + (if u.used then [] else [u])
    decreases |its|
  {
    var n := |its| - 1;
    if n > 0 {
      ItemsKeptSnoc(its[1..], ts);
      assert its[1..][..n - 1] == its[..n][1..];
      assert its[1..][n - 1] == its[n];
    }
  }

  /** The backward loop deletes exactly the items that are used after
      their update, and keeps the others in their order. */
  lemma {:induction false} ItemsPassKept(pending: seq<ItemState>, done: seq<ItemState>, ts: seq<TileState>)
    ensures ItemsPass(pending, done, ts) == ItemsKept(pending, ts) + done
    decreases |pending|
  {
    if pending != [] {
      var n := |pending| - 1;
      var u := ItemStep(pending[n], ts);
      ItemsPassKept(pending[..n], if u.used then done else [u] + done, ts);
      ItemsKeptSnoc(pending, ts);
    }
  }

  /** Every item that is not used after its update is kept. */
  lemma {:induction false} ItemsKeptComplete(its: seq<ItemState>, ts: seq<TileState>, k: int)
    requires 0 <= k < |its| && !ItemStep(its[k], ts).used
    ensures ItemStep(its[k], ts) in ItemsKept(its, ts)
    decreases |its|
  {
    if k > 0 {
      ItemsKeptComplete(its[1..], ts, k - 1);
    }
  }

  /** The item loop of `Level.update`: every item is updated against the
      tiles, from the last to the first, and deleted once it is used. */
  method PruneItems(items: seq<Item>, tiles: seq<Tile>) returns (kept: seq<Item>)
    requires ItemsOk(items)
    modifies ItemObjects(items)
    ensures ItemsOk(kept) && ItemStates(kept) == ItemsKept(old(ItemStates(items)), States(tiles))
    ensures forall x :: x in kept ==> x in items
  {
    ghost var its := ItemStates(items);
    ghost var ts := States(tiles);
    ghost var done: seq<ItemState> := [];
    kept := items;
    var i := |items| - 1;
    assert its[..i + 1] == its;
    while i >= 0
      invariant -1 <= i < |items|
      invariant ItemsOk(kept) && ItemStates(kept) == its[..i + 1] + done
      invariant forall x :: x in kept ==> x in items
      invariant ItemsPass(its[..i + 1], done, ts) == ItemsPass(its, [], ts)
    {
      ItemsPassStep(its, i, done, ts);
      PrefixSnoc(its, i);
      assert kept[i] in kept && kept[i] in ItemObjects(items);
      kept, done := PruneItemAt(kept, i, tiles, its[..i], its[i], done, ts);
      i := i - 1;
    }
    ItemsPassKept(its, [], ts);
  }

  /** One turn of the item loop: the i-th item, with snapshot `x` between
      the snapshots `a` before it and `d` after it, is updated and deleted
      if it is used. */
  method PruneItemAt(items: seq<Item>, i: int, tiles: seq<Tile>,
                     ghost a: seq<ItemState>, ghost x: ItemState, ghost d: seq<ItemState>, ghost ts: seq<TileState>)
    returns (kept: seq<Item>, ghost d': seq<ItemState>)
    requires ItemsOk(items) && ItemStates(items) == a + [x] + d && |a| == i && States(tiles) == ts
    modifies items[i]
    ensures var u := ItemStep(x, ts); d' == if u.used then d else [u] + d
    ensures ItemsOk(kept) && ItemStates(kept) == a + d'
    ensures forall y :: y in kept ==> y in items
  {
    StepItem(items, i, tiles);
    ghost var u := ItemStep(x, ts);
    assert ItemStates(items) == a + [u] + d;
    if items[i].used {
      ItemsDeleted(items, i, a, u, d);
      kept, d' := items[..i] + items[i + 1..], d;
    } else {
      kept, d' := items, [u] + d;
    }
  }

  /** The item loop's function, one step on. */
  lemma ItemsPassStep(its: seq<ItemState>, i: int, done: seq<ItemState>, ts: seq<TileState>)
    requires 0 <= i < |its|
    ensures var u := ItemStep(its[i], ts);
      ItemsPass(its[..i + 1], done, ts) == ItemsPass(its[..i], if u.used then done else [u] + done, ts)
  {
    assert its[..i + 1][..i] == its[..i];
  }

  /** Deleting the i-th item of a well-kept list. */
  lemma ItemsDeleted(items: seq<Item>, i: int, a: seq<ItemState>, u: ItemState, d: seq<ItemState>)
    requires ItemsOk(items) && ItemStates(items) == a + [u] + d && |a| == i
    ensures ItemsOk(items[..i] + items[i + 1..]) && ItemStates(items[..i] + items[i + 1..]) == a + d
    ensures forall x :: x in items[..i] + items[i + 1..] ==> x in items
  {
    var rest := items[..i] + items[i + 1..];
    assert forall k :: 0 <= k < |rest| ==> rest[k] == items[if k < i then k else k + 1];
  }

  /** One item of the loop: `update(tiles)` on the i-th item; the others
      are left alone. */
  method StepItem(items: seq<Item>, i: int, tiles: seq<Tile>)
    requires ItemsOk(items) && 0 <= i < |items|
    modifies items[i]
    ensures ItemsOk(items)
    ensures ItemStates(items) == old(ItemStates(items))[i := ItemStep(old(items[i].State()), States(tiles))]
  {
    items[i].Update(tiles);
  }

  // ---------------------------------------------------------------------
  // Particles

  /** The backward particle loop: a particle that has stopped showing is
      deleted. */
  function ParticlesPass(pending: seq<ParticleState>, done: seq<ParticleState>, tick: int): seq<ParticleState>
    decreases |pending|
  {
    if pending == [] then done
    else
      var n := |pending| - 1;
      var u := ParticleStep(pending[n], tick);
      ParticlesPass(pending[..n], if u.showing then [u] + done else done, tick)
  }

  /** Every particle updated, in order, the ones no longer showing left
      out. */
  function ParticlesKept(ps: seq<ParticleState>, tick: int): (r: seq<ParticleState>)
    ensures |r| <= |ps|
    ensures forall k :: 0 <= k < |r| ==> r[k].showing
    decreases |ps|
  {
    if ps == [] then []
    else
      var u := ParticleStep(ps[0], tick);
      (if u.showing then [u] else []) + ParticlesKept(ps[1..], tick)
  }

  lemma {:induction false} ParticlesKeptSnoc(ps: seq<ParticleState>, tick: int)
    requires ps != []
    ensures var u := ParticleStep(ps[|ps| - 1], tick);
      ParticlesKept(ps, tick) == ParticlesKept(ps[..|ps| - 1], tick) + (if u.showing then [u] else [])
    decreases |ps|
  {
    var n := |ps| - 1;
    if n > 0 {
      ParticlesKeptSnoc(ps[1..], tick);
      assert ps[1..][..n - 1] == ps[..n][1..];
      assert ps[1..][n - 1] == ps[n];
    }
  }

  /** The backward loop deletes exactly the particles that stop showing
      in their update, and keeps the others in their order. */
  lemma {:induction false} ParticlesPassKept(pending: seq<ParticleState>, done: seq<ParticleState>, tick: int)
    ensures ParticlesPass(pending, done, tick) == ParticlesKept(pending, tick) + done
    decreases |pending|
  {
    if pending != [] {
      var n := |pending| - 1;
      var u := ParticleStep(pending[n], tick);
      ParticlesPassKept(pending[..n], if u.showing then [u] + done else done, tick);
      ParticlesKeptSnoc(pending, tick);
    }
  }

  /** Every particle still showing after its update is kept. */
  lemma {:induction false} ParticlesKeptComplete(ps: seq<ParticleState>, tick: int, k: int)
    requires 0 <= k < |ps| && ParticleStep(ps[k], tick).showing
    ensures ParticleStep(ps[k], tick) in ParticlesKept(ps, tick)
    decreases |ps|
  {
    if k > 0 {
      ParticlesKeptComplete(ps[1..], tick, k - 1);
    }
  }

  /** Two different particles that keep their invariant share no object. */
  lemma ParticlesApart(p: Particle, q: Particle)
    requires p != q && p.Valid() && q.Valid()
    ensures p.Repr() !! q.Repr()
  {
    forall j | 0 <= j < |p.pieces|
      ensures p.pieces[j] !in q.pieces
    {
      assert p.pieces[j].owner == p;
    }
  }

  /** The i-th particle of a well-kept list shares no object with the
      others. */
  lemma ParticlesApartFrom(ps: seq<Particle>, i: int)
    requires ParticlesOk(ps) && 0 <= i < |ps|
    ensures forall k :: 0 <= k < |ps| && k != i ==> ps[k].Repr() !! ps[i].Repr()
  {
    forall k | 0 <= k < |ps| && k != i
      ensures ps[k].Repr() !! ps[i].Repr()
    {
      ParticlesApart(ps[k], ps[i]);
    }
  }

  /** One particle of the loop: `update()` on the i-th particle; the others
      are left alone. */
  method StepParticle(ps: seq<Particle>, i: int, tick: int)
    requires ParticlesOk(ps) && 0 <= i < |ps|
    modifies ps[i].Repr()
    ensures ParticlesOk(ps)
    ensures ParticleStates(ps) == old(ParticleStates(ps))[i := ParticleStep(old(ps[i].State()), tick)]
  {
    ghost var before := ParticleStates(ps);
    ParticlesApartFrom(ps, i);
    UpdateParticle(ps, i, tick);
    ghost var now := ParticleStates(ps);
    forall k | 0 <= k < |ps| && k != i
      ensures now[k] == before[k]
    {
    }
    Replaced(now, before, i, ParticleStep(before[i], tick));
  }

  /** `update()` on the i-th particle, which shares no object with the
      others. */
  method UpdateParticle(ps: seq<Particle>, i: int, tick: int)
    requires ParticlesOk(ps) && 0 <= i < |ps|
    requires forall k :: 0 <= k < |ps| && k != i ==> ps[k].Repr() !! ps[i].Repr()
    modifies ps[i].Repr()
    ensures ParticlesOk(ps)
    ensures ps[i].State() == ParticleStep(old(ps[i].State()), tick)
    ensures forall k :: 0 <= k < |ps| && k != i ==> ps[k].State() == old(ps[k].State())
  {
    ps[i].Update(tick);
  }

  /** The particle loop of `Level.update`: every particle is updated, from
      the last to the first, and deleted once it stops showing. */
  method PruneParticles(particles: seq<Particle>, tick: int) returns (kept: seq<Particle>)
    requires ParticlesOk(particles)
    modifies ParticleParts(particles)
    ensures ParticlesOk(kept) && ParticleStates(kept) == ParticlesKept(old(ParticleStates(particles)), tick)
    ensures forall x :: x in kept ==> x in particles
  {
    ghost var ps := ParticleStates(particles);
    ghost var done: seq<ParticleState> := [];
    kept := particles;
    var i := |particles| - 1;
    assert ps[..i + 1] == ps;
    while i >= 0
      invariant -1 <= i < |particles|
      invariant ParticlesOk(kept) && ParticleStates(kept) == ps[..i + 1] + done
      invariant forall x :: x in kept ==> x in particles
      invariant ParticlesPass(ps[..i + 1], done, tick) == ParticlesPass(ps, [], tick)
    {
      ParticlesPassStep(ps, i, done, tick);
      PrefixSnoc(ps, i);
      assert kept[i] in kept;
      assert kept[i].Repr() <= ParticleParts(particles);
      kept, done := PruneParticleAt(kept, i, tick, ps[..i], ps[i], done);
      i := i - 1;
    }
    ParticlesPassKept(ps, [], tick);
  }

  /** One turn of the particle loop: the i-th particle, with snapshot `x`
      between `a` and `d`, is updated and deleted if it stops showing. */
  method PruneParticleAt(ps: seq<Particle>, i: int, tick: int,
                         ghost a: seq<ParticleState>, ghost x: ParticleState, ghost d: seq<ParticleState>)
    returns (kept: seq<Particle>, ghost d': seq<ParticleState>)
    requires ParticlesOk(ps) && ParticleStates(ps) == a + [x] + d && |a| == i
    modifies ps[i].Repr()
    ensures var u := ParticleStep(x, tick); d' == if u.showing then [u] + d else d
    ensures ParticlesOk(kept) && ParticleStates(kept) == a + d'
    ensures forall y :: y in kept ==> y in ps
  {
    StepParticle(ps, i, tick);
    ghost var u := ParticleStep(x, tick);
    assert ParticleStates(ps) == a + [u] + d;
    if !ps[i].showing {
      ParticlesDeleted(ps, i, a, u, d);
      kept, d' := ps[..i] + ps[i + 1..], d;
    } else {
      kept, d' := ps, [u] + d;
    }
  }

  /** The particle loop's function, one step on. */
  lemma ParticlesPassStep(ps: seq<ParticleState>, i: int, done: seq<ParticleState>, tick: int)
    requires 0 <= i < |ps|
    ensures var u := ParticleStep(ps[i], tick);
      ParticlesPass(ps[..i + 1], done, tick) == ParticlesPass(ps[..i], if u.showing then [u] + done else done, tick)
  {
    assert ps[..i + 1][..i] == ps[..i];
  }

  /** Deleting the i-th particle of a well-kept list. */
  lemma ParticlesDeleted(ps: seq<Particle>, i: int, a: seq<ParticleState>, u: ParticleState, d: seq<ParticleState>)
    requires ParticlesOk(ps) && ParticleStates(ps) == a + [u] + d && |a| == i
    ensures ParticlesOk(ps[..i] + ps[i + 1..]) && ParticleStates(ps[..i] + ps[i + 1..]) == a + d
    ensures forall x :: x in ps[..i] + ps[i + 1..] ==> x in ps
  {
    var rest := ps[..i] + ps[i + 1..];
    assert forall k :: 0 <= k < |rest| ==> rest[k] == ps[if k < i then k else k + 1];
  }

  // ---------------------------------------------------------------------
  // Tiles

  /** What the tile loop leaves: the tiles kept and the burst particles it
      appended. */
  datatype TileSweep = TileSweep(kept: seq<TileState>, debris: seq<ParticleState>)

  /** The burst a broken tile leaves, at its (x, y). */
  function BurstOf(t: TileState): ParticleState
  {
    BurstState(t.box.x, t.box.y)
  }

  /** The backward tile loop: a tile broken after its update is deleted
      and a burst of four pieces is appended at its place. */
  function TilesPass(pending: seq<TileState>, done: seq<TileState>, debris: seq<ParticleState>): TileSweep
    decreases |pending|
  {
    if pending == [] then TileSweep(done, debris)
    else
      var n := |pending| - 1;
      var u := TileStep(pending[n]);
      if u.broken then TilesPass(pending[..n], done, debris + [BurstOf(u)])
      else TilesPass(pending[..n], [u] + done, debris)
  }

  /** Every tile updated, in order, the broken ones left out. */
  function TilesKept(ts: seq<TileState>): (r: seq<TileState>)
    ensures |r| <= |ts|
    ensures forall k :: 0 <= k < |r| ==> !r[k].broken
    decreases |ts|
  {
    if ts == [] then []
    else (if ts[0].broken then [] else [TileStep(ts[0])]) + TilesKept(ts[1..])
  }

  /** One burst per broken tile, at the tile's place, from the last tile to
      the first (the order the backward loop appends them). */
  function Debris(ts: seq<TileState>): (r: seq<ParticleState>)
    ensures |r| + |TilesKept(ts)| == |ts|
    decreases |ts|
  {
    if ts == [] then []
    else Debris(ts[1..]) + (if ts[0].broken then [BurstOf(ts[0])] else [])
  }

  lemma {:induction false} TilesKeptSnoc(ts: seq<TileState>)
    requires ts != []
    ensures var t := ts[|ts| - 1];
      TilesKept(ts) == TilesKept(ts[..|ts| - 1]) + (if t.broken then [] else [TileStep(t)])
    decreases |ts|
  {
    var n := |ts| - 1;
    if n > 0 {
      TilesKeptSnoc(ts[1..]);
      assert ts[1..][..n - 1] == ts[..n][1..];
      assert ts[1..][n - 1] == ts[n];
      assert ts[..n][0] == ts[0];
    }
  }

  lemma {:induction false} DebrisSnoc(ts: seq<TileState>)
    requires ts != []
    ensures var t := ts[|ts| - 1];
      Debris(ts) == (if t.broken then [BurstOf(t)] else []) + Debris(ts[..|ts| - 1])
    decreases |ts|
  {
    var n := |ts| - 1;
    if n > 0 {
      DebrisSnoc(ts[1..]);
      assert ts[1..][..n - 1] == ts[..n][1..];
      assert ts[1..][n - 1] == ts[n];
      assert ts[..n][0] == ts[0];
    }
  }

  /** The backward loop deletes exactly the broken tiles, keeps the others
      in their order, and appends one burst per deleted tile. */
  lemma {:induction false} TilesPassSplit(pending: seq<TileState>, done: seq<TileState>, debris: seq<ParticleState>)
    ensures TilesPass(pending, done, debris) == TileSweep(TilesKept(pending) + done, debris + Debris(pending))
    decreases |pending|
  {
    if pending != [] {
      var n := |pending| - 1;
      var u := TileStep(pending[n]);
      var kept, bursts := TilesKept(pending[..n]), Debris(pending[..n]);
      assert TilesKept(pending) == kept + (if u.broken then [] else [u]) by {
        TilesKeptSnoc(pending);
      }
      assert Debris(pending) == (if u.broken then [BurstOf(u)] else []) + bursts by {
        DebrisSnoc(pending);
      }
      if u.broken {
        assert TilesPass(pending[..n], done, debris + [BurstOf(u)]) == TileSweep(kept + done, debris + [BurstOf(u)] + bursts) by {
          TilesPassSplit(pending[..n], done, debris + [BurstOf(u)]);
        }
        assert debris + [BurstOf(u)] + bursts == debris + ([BurstOf(u)] + bursts);
      } else {
        assert TilesPass(pending[..n], [u] + done, debris) == TileSweep(kept + ([u] + done), debris + bursts) by {
          TilesPassSplit(pending[..n], [u] + done, debris);
        }
        assert kept + ([u] + done) == kept + [u] + done;
      }
    }
  }

  /** Every burst stands at the place of a broken tile. */
  lemma {:induction false} DebrisFromBroken(ts: seq<TileState>, k: int)
    requires 0 <= k < |Debris(ts)|
    ensures exists j :: 0 <= j < |ts| && ts[j].broken && Debris(ts)[k] == BurstOf(ts[j])
    decreases |ts|
  {
    var rest := Debris(ts[1..]);
    if k < |rest| {
      DebrisFromBroken(ts[1..], k);
      var j :| 0 <= j < |ts[1..]| && ts[1..][j].broken && rest[k] == BurstOf(ts[1..][j]);
      assert ts[j + 1] == ts[1..][j];
    }
  }

  /** One tile of the loop: `update()` on the i-th tile; the others are
      left alone. */
  method StepTile(tiles: seq<Tile>, i: int, tick: int)
    requires TilesOk(tiles) && 0 <= i < |tiles|
    modifies tiles[i], tiles[i].animation
    ensures TilesOk(tiles)
    ensures States(tiles) == old(States(tiles))[i := TileStep(old(tiles[i].State()))]
  {
    ghost var before := States(tiles);
    UpdateTile(tiles, i, tick);
    Replaced(States(tiles), before, i, TileStep(before[i]));
  }

  /** `update()` on the i-th tile of a well-kept list. */
  method UpdateTile(tiles: seq<Tile>, i: int, tick: int)
    requires TilesOk(tiles) && 0 <= i < |tiles|
    modifies tiles[i], tiles[i].animation
    ensures TilesOk(tiles)
    ensures tiles[i].State() == TileStep(old(tiles[i].State()))
    ensures forall k :: 0 <= k < |tiles| && k != i ==> tiles[k].State() == old(tiles[k].State())
  {
    forall k | 0 <= k < |tiles| && k != i && tiles[k].animation != null
      ensures tiles[k].animation != tiles[i].animation
    {
      assert tiles[k].Valid() && tiles[i].Valid();
    }
    tiles[i].Update(tick);
  }

  /** A tile's update leaves a list of bursts alone. */
  method StepTileBeside(tiles: seq<Tile>, i: int, tick: int, ghost debris: seq<Particle>)
    requires TilesOk(tiles) && 0 <= i < |tiles|
    requires ParticlesOk(debris) && Bursts(debris)
    modifies tiles[i], tiles[i].animation
    ensures TilesOk(tiles)
    ensures States(tiles) == old(States(tiles))[i := TileStep(old(tiles[i].State()))]
    ensures ParticlesOk(debris) && ParticleStates(debris) == old(ParticleStates(debris))
  {
    assert tiles[i] !in ParticleParts(debris) && tiles[i].animation !in ParticleParts(debris);
    StepTile(tiles, i, tick);
  }

  /** The tile loop of `Level.update`: every tile is updated, from the last
      to the first, and a broken one is deleted and leaves a burst of
      pieces, returned in the order they are appended. */
  method PruneTiles(tiles: seq<Tile>, tick: int) returns (kept: seq<Tile>, debris: seq<Particle>)
    requires TilesOk(tiles)
    modifies TileObjects(tiles)
    ensures TilesOk(kept) && ParticlesOk(debris)
    ensures var r := TilesPass(old(States(tiles)), [], []);
      States(kept) == r.kept && ParticleStates(debris) == r.debris
    ensures forall x :: x in kept ==> x in tiles
    ensures forall k :: 0 <= k < |debris| ==> fresh(debris[k].Repr())
  {
    ghost var ts := States(tiles);
    ghost var full := TilesPass(ts, [], []);
    ghost var done: seq<TileState> := [];
    ghost var ds: seq<ParticleState> := [];
    kept, debris := tiles, [];
    var i := |tiles| - 1;
    assert ts[..i + 1] == ts;
    assert ParticleStates(debris) == ds;
    while i >= 0
      invariant -1 <= i < |tiles|
      invariant TilesOk(kept) && States(kept) == ts[..i + 1] + done
      invariant forall x :: x in kept ==> x in tiles
      invariant ParticlesOk(debris) && Bursts(debris) && ParticleStates(debris) == ds
      invariant forall k :: 0 <= k < |debris| ==> fresh(debris[k].Repr())
      invariant TilesPass(ts[..i + 1], done, ds) == full
    {
      PrefixSnoc(ts, i);
      assert kept[i] in kept && kept[i] in tiles && kept[i] in TileObjects(tiles);
      assert kept[i].animation != null ==> kept[i].animation in TileObjects(tiles);
      ghost var done0, ds0 := done, ds;
      kept, done, debris, ds := PruneTileAt(kept, i, tick, ts[..i], ts[i], done, debris, ds);
      TilesPassNext(ts, i, done0, ds0, done, ds);
      i := i - 1;
    }
  }

  /** The particles of a list are all bursts, which have no animation. */
  predicate Bursts(ps: seq<Particle>)
  {
    forall k :: 0 <= k < |ps| ==> ps[k].animation == null
  }

  /** One turn of the tile loop: the i-th tile, with snapshot `x` between
      `a` and `d`, is updated; if it is broken it is deleted and a burst at
      its place is appended to `debris`, whose snapshots are `ds`. */
  method PruneTileAt(tiles: seq<Tile>, i: int, tick: int,
                     ghost a: seq<TileState>, ghost x: TileState, ghost d: seq<TileState>,
                     debris: seq<Particle>, ghost ds: seq<ParticleState>)
    returns (kept: seq<Tile>, ghost d': seq<TileState>, debris': seq<Particle>, ghost ds': seq<ParticleState>)
    requires TilesOk(tiles) && States(tiles) == a + [x] + d && |a| == i
    requires ParticlesOk(debris) && Bursts(debris) && ParticleStates(debris) == ds
    modifies tiles[i], tiles[i].animation
    ensures var u := TileStep(x);
      && d' == (if u.broken then d else [u] + d)
      && ds' == ds + (if u.broken then [BurstOf(u)] else [])
    ensures TilesOk(kept) && States(kept) == a + d'
    ensures ParticlesOk(debris') && Bursts(debris') && ParticleStates(debris') == ds'
    ensures forall y :: y in kept ==> y in tiles
    ensures forall k :: 0 <= k < |debris'| ==> debris'[k] in debris || fresh(debris'[k].Repr())
  {
    StepTileBeside(tiles, i, tick, debris);
    ghost var u := TileStep(x);
    assert States(tiles) == a + [u] + d;
    if tiles[i].broken {
      debris', ds' := AppendBurst(debris, ds, tiles[i].box.x, tiles[i].box.y);
      TilesDeleted(tiles, i, a, u, d);
      kept, d' := tiles[..i] + tiles[i + 1..], d;
    } else {
      kept, d', debris', ds' := tiles, [u] + d, debris, ds;
    }
  }

  /** A burst of four pieces at (x, y), appended to a list of bursts. */
  method AppendBurst(debris: seq<Particle>, ghost ds: seq<ParticleState>, x: int, y: int)
    returns (debris': seq<Particle>, ghost ds': seq<ParticleState>)
    requires ParticlesOk(debris) && Bursts(debris) && ParticleStates(debris) == ds
    ensures ParticlesOk(debris') && Bursts(debris') && ParticleStates(debris') == ds'
    ensures ds' == ds + [BurstState(x, y)]
    ensures forall k :: 0 <= k < |debris'| ==> debris'[k] in debris || fresh(debris'[k].Repr())
  {
    var burst := new Particle.NewBrokenBlocks(x, y);
    ParticlesAppend(debris, [burst]);
    debris', ds' := debris + [burst], ds + [BurstState(x, y)];
  }

  /** The tile loop's function, one step on, in the terms the loop uses. */
  lemma TilesPassNext(ts: seq<TileState>, i: int, done: seq<TileState>, ds: seq<ParticleState>,
                      done': seq<TileState>, ds': seq<ParticleState>)
    requires 0 <= i < |ts|
    requires var u := TileStep(ts[i]);
      && done' == (if u.broken then done else [u] + done)
      && ds' == ds + (if u.broken then [BurstOf(u)] else [])
    ensures TilesPass(ts[..i], done', ds') == TilesPass(ts[..i + 1], done, ds)
  {
    TilesPassStep(ts, i, done, ds);
    assert ds + [] == ds;
  }

  /** The tile loop's function, one step on. */
  lemma TilesPassStep(ts: seq<TileState>, i: int, done: seq<TileState>, debris: seq<ParticleState>)
    requires 0 <= i < |ts|
    ensures var u := TileStep(ts[i]);
      TilesPass(ts[..i + 1], done, debris) ==
        if u.broken then TilesPass(ts[..i], done, debris + [BurstOf(u)]) else TilesPass(ts[..i], [u] + done, debris)
  {
    assert ts[..i + 1][..i] == ts[..i];
  }

  /** Deleting the i-th tile of a well-kept list. */
  lemma TilesDeleted(tiles: seq<Tile>, i: int, a: seq<TileState>, u: TileState, d: seq<TileState>)
    requires TilesOk(tiles) && States(tiles) == a + [u] + d && |a| == i
    ensures TilesOk(tiles[..i] + tiles[i + 1..]) && States(tiles[..i] + tiles[i + 1..]) == a + d
    ensures forall x :: x in tiles[..i] + tiles[i + 1..] ==> x in tiles
  {
    var rest := tiles[..i] + tiles[i + 1..];
    assert forall k :: 0 <= k < |rest| ==> rest[k] == tiles[if k < i then k else k + 1];
  }

  // ---------------------------------------------------------------------
  // Enemies

  /** `update(tiles, enemies)` of either kind, given the snapshots of the
      other enemies of the list; a KoopaTroopa may change the tiles. */
  function EnemyStep(e: EnemyState, ts: seq<TileState>, others: seq<EnemyState>, tick: int): (EnemyState, seq<TileState>)
  {
    if e.kind == Goomba then (GoombaStep(e, ts, others, tick), ts) else KoopaStep(e, ts, tick)
  }

  /** An enemy the level deletes after its update: more than two screens
      away from Mario at `px`, or dead with its animation played once. */
  predicate Gone(e: EnemyState, px: int)
  {
    Abs(px - e.box.x) > 2 * SCREEN_WIDTH || (e.dead && e.anim.playedOnce)
  }

  function Abs(n: int): int
  {
    if n < 0 then -n else n
  }

  /** The updated enemies that are not gone, in order. */
  function Survivors(us: seq<EnemyState>, px: int): (r: seq<EnemyState>)
    ensures |r| <= |us|
    ensures forall k :: 0 <= k < |r| ==> !Gone(r[k], px)
    decreases |us|
  {
    if us == [] then []
    else (if Gone(us[0], px) then [] else [us[0]]) + Survivors(us[1..], px)
  }

  lemma {:induction false} SurvivorsSnoc(us: seq<EnemyState>, u: EnemyState, px: int)
    ensures Survivors(us + [u], px) == Survivors(us, px) + (if Gone(u, px) then [] else [u])
    decreases |us|
  {
    if us != [] {
      SurvivorsSnoc(us[1..], u, px);
      assert (us + [u])[1..] == us[1..] + [u];
    }
  }

  /** Every updated enemy that is not gone survives. */
  lemma {:induction false} SurvivorsComplete(us: seq<EnemyState>, px: int, k: int)
    requires 0 <= k < |us| && !Gone(us[k], px)
    ensures us[k] in Survivors(us, px)
    decreases |us|
  {
    if k > 0 {
      SurvivorsComplete(us[1..], px, k - 1);
    }
  }

  /** What the enemy loop leaves: the enemies kept, every enemy as its own
      update left it (in list order), and the tiles. */
  datatype Swarm = Swarm(kept: seq<EnemyState>, updated: seq<EnemyState>, tiles: seq<TileState>)

  /** The backward enemy loop: the enemies still to visit are `pending`,
      the kept ones after them are `done`.  Each enemy is updated against
      the current tiles and the current list without itself, then deleted
      if it is gone.  The kept enemies are exactly the updated ones that
      are not gone, in their order. */
  function EnemiesPass(pending: seq<EnemyState>, done: seq<EnemyState>, ts: seq<TileState>, px: int, tick: int): (r: Swarm)
    ensures |r.updated| == |pending|
    decreases |pending|
  {
    if pending == [] then Swarm(done, [], ts)
    else
      var n := |pending| - 1;
      var (u, ts') := EnemyStep(pending[n], ts, pending[..n] + done, tick);
      var r := EnemiesPass(pending[..n], if Gone(u, px) then done else [u] + done, ts', px, tick);
      Swarm(r.kept, r.updated + [u], r.tiles)
  }

  /** The kept enemies are exactly the updated ones that are not gone, in
      their order, ahead of the ones kept before. */
  lemma {:induction false} EnemiesPassKeeps(pending: seq<EnemyState>, done: seq<EnemyState>, ts: seq<TileState>,
                                            px: int, tick: int)
    ensures var r := EnemiesPass(pending, done, ts, px, tick);
      r.kept == Survivors(r.updated, px) + done
    decreases |pending|
  {
    if pending != [] {
      var n := |pending| - 1;
      var step := EnemyStep(pending[n], ts, pending[..n] + done, tick);
      var u := step.0;
      var d := if Gone(u, px) then done else [u] + done;
      var r := EnemiesPass(pending[..n], d, step.1, px, tick);
      assert EnemiesPass(pending, done, ts, px, tick) == Swarm(r.kept, r.updated + [u], r.tiles);
      assert r.kept == Survivors(r.updated, px) + d by {
        EnemiesPassKeeps(pending[..n], d, step.1, px, tick);
      }
      assert Survivors(r.updated + [u], px) + done == Survivors(r.updated, px) + d by {
        SurvivorsSnoc(r.updated, u, px);
        if !Gone(u, px) {
          assert Survivors(r.updated, px) + [u] + done == Survivors(r.updated, px) + d;
        }
      }
    }
  }

  /** Of a list without repeats, the snapshots of the enemies other than
      the i-th are all snapshots but the i-th. */
  lemma {:induction false} OthersOfDistinct(enemies: seq<Enemy>, states: seq<EnemyState>, i: int)
    requires |states| == |enemies| && 0 <= i < |enemies|
    requires forall j, k :: 0 <= j < k < |enemies| ==> enemies[j] != enemies[k]
    ensures Others(enemies, states, enemies[i]) == states[..i] + states[i + 1..]
    decreases |enemies|
  {
    var n := |enemies| - 1;
    if i == n {
      OthersNone(enemies[..n], states[..n], enemies[i]);
    } else {
      OthersOfDistinct(enemies[..n], states[..n], i);
      assert states[..n][i + 1..] + [states[n]] == states[i + 1..];
    }
  }

  /** An enemy not in the list: `Others` keeps every snapshot. */
  lemma {:induction false} OthersNone(enemies: seq<Enemy>, states: seq<EnemyState>, self: Enemy)
    requires |states| == |enemies| && self !in enemies
    ensures Others(enemies, states, self) == states
    decreases |enemies|
  {
    if enemies != [] {
      var n := |enemies| - 1;
      OthersNone(enemies[..n], states[..n], self);
    }
  }

  /** The i-th enemy of a well-kept list shares neither itself nor its
      animation with the others. */
  lemma EnemiesApartFrom(enemies: seq<Enemy>, i: int)
    requires EnemiesOk(enemies) && 0 <= i < |enemies|
    ensures OwnAnimations(enemies)
    ensures forall k :: 0 <= k < |enemies| && k != i ==>
      enemies[k] != enemies[i] && enemies[k].animation != enemies[i].animation
  {
    forall k | 0 <= k < |enemies| && k != i
      ensures enemies[k] != enemies[i] && enemies[k].animation != enemies[i].animation
    {
      assert enemies[k].Valid() && enemies[i].Valid();
    }
  }

  /** One enemy of the loop: `update(tiles, enemies)` on the i-th enemy,
      with snapshot `x` between `a` and `d`, given the current list; the
      other enemies are left alone. */
  method StepEnemy(enemies: seq<Enemy>, i: int, tiles: seq<Tile>, tick: int,
                   ghost a: seq<EnemyState>, ghost x: EnemyState, ghost d: seq<EnemyState>)
    requires EnemiesOk(enemies) && TilesOk(tiles) && EnemyStates(enemies) == a + [x] + d && |a| == i
    modifies enemies[i], enemies[i].animation, tiles
    ensures EnemiesOk(enemies) && TilesOk(tiles)
    ensures var r := EnemyStep(x, old(States(tiles)), a + d, tick);
      EnemyStates(enemies) == a + [r.0] + d && States(tiles) == r.1
  {
    ghost var es := EnemyStates(enemies);
    OthersOfDistinct(enemies, es, i);
    assert es[..i] == a && es[i + 1..] == d;
    EnemiesApartFrom(enemies, i);
    ghost var r := EnemyStep(x, States(tiles), a + d, tick);
    UpdateEnemy(enemies, i, tiles, tick, a + d);
    ghost var after := a + [r.0] + d;
    forall k | 0 <= k < |enemies|
      ensures enemies[k].State() == after[k]
    {
      if k != i {
        assert after[k] == es[k];
      }
    }
    EnemyStatesOf(enemies, after);
  }

  /** `update(tiles, enemies)` on the i-th enemy, whose fellow enemies'
      snapshots are `others`. */
  method UpdateEnemy(enemies: seq<Enemy>, i: int, tiles: seq<Tile>, tick: int, ghost others: seq<EnemyState>)
    requires EnemiesOk(enemies) && 0 <= i < |enemies| && TilesOk(tiles) && OwnAnimations(enemies)
    requires forall k :: 0 <= k < |enemies| && k != i ==>
      enemies[k] != enemies[i] && enemies[k].animation != enemies[i].animation
    requires Others(enemies, EnemyStates(enemies), enemies[i]) == others
    modifies enemies[i], enemies[i].animation, tiles
    ensures EnemiesOk(enemies) && TilesOk(tiles)
    ensures forall k :: 0 <= k < |enemies| && k != i ==> enemies[k].State() == old(enemies[k].State())
    ensures var r := EnemyStep(old(enemies[i].State()), old(States(tiles)), others, tick);
      enemies[i].State() == r.0 && States(tiles) == r.1
  {
    ghost var r := EnemyStep(enemies[i].State(), States(tiles), others, tick);
    UpdateOneEnemy(enemies[i], tiles, enemies, tick, others, r);
  }

  /** `update(tiles, enemies)` on enemy `e` of the list. */
  method UpdateOneEnemy(e: Enemy, tiles: seq<Tile>, enemies: seq<Enemy>, tick: int,
                        ghost others: seq<EnemyState>, ghost r: (EnemyState, seq<TileState>))
    requires e.Valid() && TilesOk(tiles) && OwnAnimations(enemies)
    requires Others(enemies, EnemyStates(enemies), e) == others
    requires r == EnemyStep(e.State(), States(tiles), others, tick)
    modifies e, e.animation, tiles
    ensures e.Valid() && TilesOk(tiles)
    ensures e.State() == r.0 && States(tiles) == r.1
  {
    e.Update(tiles, enemies, tick);
  }

  /** The enemy loop of `Level.update` with Mario at `px`: every enemy is
      updated, from the last to the first, and deleted when it is gone. */
  method PruneEnemies(enemies: seq<Enemy>, tiles: seq<Tile>, px: int, tick: int) returns (kept: seq<Enemy>)
    requires EnemiesOk(enemies) && TilesOk(tiles)
    modifies EnemyObjects(enemies), TileSet(tiles)
    ensures EnemiesOk(kept) && TilesOk(tiles)
    ensures var r := EnemiesPass(old(EnemyStates(enemies)), [], old(States(tiles)), px, tick);
      EnemyStates(kept) == r.kept && States(tiles) == r.tiles
    ensures forall x :: x in kept ==> x in enemies
  {
    ghost var es := EnemyStates(enemies);
    ghost var full := EnemiesPass(es, [], States(tiles), px, tick);
    ghost var done: seq<EnemyState> := [];
    kept := enemies;
    var i := |enemies| - 1;
    assert es[..i + 1] == es;
    assert forall t | t in tiles :: t in TileSet(tiles);
    while i >= 0
      invariant -1 <= i < |enemies|
      invariant EnemiesOk(kept) && TilesOk(tiles) && EnemyStates(kept) == es[..i + 1] + done
      invariant forall x :: x in kept ==> x in enemies
      invariant var r := EnemiesPass(es[..i + 1], done, States(tiles), px, tick);
        r.kept == full.kept && r.tiles == full.tiles
    {
      kept, done := PruneNext(enemies, kept, i, tiles, px, tick, es, full, done);
      i := i - 1;
    }
    NothingAhead(es, done);
    EnemiesPassEmpty(es, done, States(tiles), px, tick);
  }

  /** With no enemy left to visit, the pass keeps `done` and leaves the
      tiles as they are. */
  lemma EnemiesPassEmpty(es: seq<EnemyState>, done: seq<EnemyState>, ts: seq<TileState>, px: int, tick: int)
    ensures EnemiesPass(es[..0], done, ts, px, tick) == Swarm(done, [], ts)
  {
    assert es[..0] == [];
  }

  /** One turn of the enemy loop, from its invariant at `i` to its invariant at `i - 1`. */
  method PruneNext(enemies: seq<Enemy>, kept: seq<Enemy>, i: int, tiles: seq<Tile>, px: int, tick: int,
                   ghost es: seq<EnemyState>, ghost full: Swarm, ghost done: seq<EnemyState>)
    returns (kept': seq<Enemy>, ghost done': seq<EnemyState>)
    requires 0 <= i < |es|
    requires EnemiesOk(kept) && TilesOk(tiles) && EnemyStates(kept) == es[..i + 1] + done
    requires forall x :: x in kept ==> x in enemies
    requires var r := EnemiesPass(es[..i + 1], done, States(tiles), px, tick);
      r.kept == full.kept && r.tiles == full.tiles
    modifies EnemyObjects(enemies), TileSet(tiles)
    ensures EnemiesOk(kept') && TilesOk(tiles) && EnemyStates(kept') == es[..i] + done'
    ensures forall x :: x in kept' ==> x in enemies
    ensures var r := EnemiesPass(es[..i], done', States(tiles), px, tick);
      r.kept == full.kept && r.tiles == full.tiles
  {
    ghost var ts0 := States(tiles);
    PrefixSnoc(es, i);
    assert kept[i] in kept && kept[i] in enemies;
    assert kept[i] in EnemyObjects(enemies) && kept[i].animation in EnemyObjects(enemies);
    assert forall t | t in tiles :: t in TileSet(tiles);
    kept', done' := PruneEnemyAt(kept, i, tiles, px, tick, es[..i], es[i], done);
    EnemiesPassNext(es, i, done, ts0, px, tick, done', States(tiles));
  }

  /** One turn of the enemy loop: the i-th enemy, with snapshot `x` between
      `a` and `d`, is updated and deleted if it is gone. */
  method PruneEnemyAt(enemies: seq<Enemy>, i: int, tiles: seq<Tile>, px: int, tick: int,
                      ghost a: seq<EnemyState>, ghost x: EnemyState, ghost d: seq<EnemyState>)
    returns (kept: seq<Enemy>, ghost d': seq<EnemyState>)
    requires EnemiesOk(enemies) && TilesOk(tiles) && EnemyStates(enemies) == a + [x] + d && |a| == i
    modifies enemies[i], enemies[i].animation, tiles
    ensures var r := EnemyStep(x, old(States(tiles)), a + d, tick);
      && d' == (if Gone(r.0, px) then d else [r.0] + d)
      && States(tiles) == r.1
    ensures EnemiesOk(kept) && TilesOk(tiles) && EnemyStates(kept) == a + d'
    ensures forall y :: y in kept ==> y in enemies
  {
    StepEnemy(enemies, i, tiles, tick, a, x, d);
    ghost var u := EnemyStep(x, old(States(tiles)), a + d, tick).0;
    if Abs(px - enemies[i].box.x) > 2 * SCREEN_WIDTH {
      EnemiesDeleted(enemies, i, a, u, d);
      kept, d' := enemies[..i] + enemies[i + 1..], d;
    } else if enemies[i].dead && enemies[i].animation.playedOnce {
      EnemiesDeleted(enemies, i, a, u, d);
      kept, d' := enemies[..i] + enemies[i + 1..], d;
    } else {
      kept, d' := enemies, [u] + d;
    }
  }

  /** The enemy loop's function, one step on. */
  lemma EnemiesPassStep(es: seq<EnemyState>, i: int, done: seq<EnemyState>, ts: seq<TileState>, px: int, tick: int)
    requires 0 <= i < |es|
    ensures var (u, ts') := EnemyStep(es[i], ts, es[..i] + done, tick);
      var r := EnemiesPass(es[..i + 1], done, ts, px, tick);
      var r' := EnemiesPass(es[..i], if Gone(u, px) then done else [u] + done, ts', px, tick);
      r.kept == r'.kept && r.tiles == r'.tiles
  {
    assert es[..i + 1][..i] == es[..i];
  }

  /** The same step, stated on the values the loop holds after its turn. */
  lemma EnemiesPassNext(es: seq<EnemyState>, i: int, done: seq<EnemyState>, ts: seq<TileState>, px: int, tick: int,
                        done': seq<EnemyState>, ts': seq<TileState>)
    requires 0 <= i < |es|
    requires var r := EnemyStep(es[i], ts, es[..i] + done, tick);
      done' == (if Gone(r.0, px) then done else [r.0] + done) && ts' == r.1
    ensures var r := EnemiesPass(es[..i + 1], done, ts, px, tick);
      var r' := EnemiesPass(es[..i], done', ts', px, tick);
      r.kept == r'.kept && r.tiles == r'.tiles
  {
    EnemiesPassStep(es, i, done, ts, px, tick);
  }

  /** Deleting the i-th enemy of a well-kept list. */
  lemma EnemiesDeleted(enemies: seq<Enemy>, i: int, a: seq<EnemyState>, u: EnemyState, d: seq<EnemyState>)
    requires EnemiesOk(enemies) && EnemyStates(enemies) == a + [u] + d && |a| == i
    ensures EnemiesOk(enemies[..i] + enemies[i + 1..]) && EnemyStates(enemies[..i] + enemies[i + 1..]) == a + d
    ensures forall x :: x in enemies[..i] + enemies[i + 1..] ==> x in enemies
  {
    var rest := enemies[..i] + enemies[i + 1..];
    assert forall k :: 0 <= k < |rest| ==> rest[k] == enemies[if k < i then k else k + 1];
  }

  // ---------------------------------------------------------------------
  // Spawning

  /** At most four enemies are spawned by the level. */
  const MAX_ENEMIES: int := 4
  /** An enemy is spawned every five seconds. */
  const SPAWN_PERIOD: int := FPS * 5

  /** `spawn_enemies` at frame `tick`, the camera shifted by `xShift`, with
      the random draw `koopa` (a KoopaTroopa one time in four): a new enemy
      one screen right of the camera's left edge, at the top. */
  function Spawned(es: seq<EnemyState>, xShift: int, tick: int, koopa: bool): (r: seq<EnemyState>)
    ensures |es| <= |r| <= |es| + 1 && r[..|es|] == es
    ensures |r| <= if |es| < MAX_ENEMIES then MAX_ENEMIES else |es|
    ensures |r| == |es| + 1 <==> |es| < MAX_ENEMIES && tick % SPAWN_PERIOD == 0
  {
    if |es| < MAX_ENEMIES && tick % SPAWN_PERIOD == 0 then
      var x := SCREEN_WIDTH - xShift;
      es + [if koopa then KoopaState(x, 0, tick) else GoombaState(x, 0, tick)]
    else es
  }

  /** The new enemy of `spawn_enemies`. */
  method SpawnEnemy(xShift: int, tick: int, koopa: bool) returns (e: Enemy)
    ensures fresh(e) && fresh(e.animation) && e.Valid()
    ensures e.State() == (if koopa then KoopaState(SCREEN_WIDTH - xShift, 0, tick) else GoombaState(SCREEN_WIDTH - xShift, 0, tick))
  {
    if koopa {
      e := new Enemy.NewKoopa(SCREEN_WIDTH - xShift, 0, tick);
    } else {
      e := new Enemy.NewGoomba(SCREEN_WIDTH - xShift, 0, tick);
    }
  }
}

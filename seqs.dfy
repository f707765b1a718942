/** Small facts about sequence slices that the loops over the level's lists use. */
module Seqs {

  /** The first i + 1 elements are the first i and the i-th. */
  lemma PrefixSnoc<T>(s: seq<T>, i: int)
    requires 0 <= i < |s|
    ensures s[..i + 1] == s[..i] + [s[i]]
  {
  }

  /** Nothing taken from the front leaves the rest as it is. */
  lemma NothingAhead<T>(s: seq<T>, d: seq<T>)
    ensures s[..0] + d == d
  {
    assert s[..0] == [];
  }

  /** Once a loop has gone through all of `s`, its prefix is `s` and nothing is left of it. */
  lemma AllTaken<T>(s: seq<T>, i: int, d: seq<T>)
    requires i == |s|
    ensures s[..i] == s && s[i..] == [] && d + s[i..] == d
  {
    assert s[i..] == [];
  }

  /** A sequence that agrees with `before` everywhere but at i, where it
      holds u. */
  lemma Replaced<T>(now: seq<T>, before: seq<T>, i: int, u: T)
    requires |now| == |before| && 0 <= i < |now| && now[i] == u
    requires forall k :: 0 <= k < |now| && k != i ==> now[k] == before[k]
    ensures now == before[i := u]
  {
  }

  /** A loop that has replaced the first i elements of `rest` by those of
      `done` and now replaces the i-th has replaced the first i + 1. */
  lemma Advanced<T>(done: seq<T>, rest: seq<T>, i: int, now: seq<T>)
    requires 0 <= i < |done| && |done| == |rest|
    requires now == (done[..i] + rest[i..])[i := done[i]]
    ensures now == done[..i + 1] + rest[i + 1..]
  {
    assert forall k :: 0 <= k < |now| ==> now[k] == (done[..i + 1] + rest[i + 1..])[k];
  }
}

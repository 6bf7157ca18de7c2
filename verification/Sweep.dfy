/**
 The reclaim sweep: XAUTOCLAIM walks the pending list from a cursor, a bounded
 stretch per pass, and hands back where to go on (consumer.py, _reclaim_orphans).
 However the passes fall, a pending entry that stays idle is claimed within as
 many passes as the list has entries, plus one to wrap around.
 */
module Sweep {
  import opened Protocol
  import opened Sums

  /** A pending list in entry order. */
  predicate Ascending(pel: seq<EntryId>) {
    forall i, j :: 0 <= i < j < |pel| ==> pel[i] < pel[j]
  }

  /** The first position at or after `start`. */
  function Position(pel: seq<EntryId>, start: EntryId): (i: nat)
    ensures i <= |pel|
    ensures forall k :: 0 <= k < i ==> pel[k] < start
    ensures i < |pel| ==> pel[i] >= start
  {
    if pel == [] || pel[0] >= start then 0
    else
      var i := 1 + Position(pel[1..], start);
      assert forall k :: 0 < k < i ==> pel[k] == pel[1..][k - 1];
      i
  }

  /** The idle entries of a stretch of the list, in its order. */
  function Idle(pel: seq<EntryId>, idle: set<EntryId>): seq<EntryId> {
    if pel == [] then [] else (if pel[0] in idle then [pel[0]] else []) + Idle(pel[1..], idle)
  }

  /** What one walk claims, and the position it stops at: `count` claims or `budget` entries, whichever is first. */
  function Walk(pel: seq<EntryId>, idle: set<EntryId>, i: nat, count: nat, budget: nat): (r: (seq<EntryId>, nat))
    requires i <= |pel|
    ensures i <= r.1 <= |pel| && |r.0| <= count
    ensures i < |pel| && count > 0 && budget > 0 ==> r.1 > i
    ensures forall k :: i <= k < r.1 && pel[k] in idle ==> pel[k] in r.0
    ensures forall e :: e in r.0 ==> e in idle && exists k :: i <= k < r.1 && pel[k] == e
    ensures r.0 == Idle(pel[i..r.1], idle)
    ensures r.1 == |pel| || |r.0| == count || r.1 - i == budget
    decreases |pel| - i
  {
    if i == |pel| || count == 0 || budget == 0 then ([], i)
    else if pel[i] in idle then
      var r := Walk(pel, idle, i + 1, count - 1, budget - 1);
      ([pel[i]] + r.0, r.1)
    else Walk(pel, idle, i + 1, count, budget - 1)
  }

  /** XAUTOCLAIM: the claimed entries and the next cursor; the end of the list restarts at 0. */
  function AutoClaim(pel: seq<EntryId>, idle: set<EntryId>, start: EntryId, count: nat): (r: (seq<EntryId>, EntryId))
    ensures |r.0| <= count
    ensures forall e :: e in r.0 ==> e in pel && e in idle
  {
    var w := Walk(pel, idle, Position(pel, start), count, 10 * count);
    (w.0, if w.1 == |pel| then 0 else pel[w.1])
  }

  /**
   The walk starts at the first entry at or after the cursor and claims the idle
   entries up to where it stops: at the end of the list, with `count` claims, or
   after ten times as many entries. The next walk goes on from there, or from 0.
   */
  lemma AutoClaimForm(pel: seq<EntryId>, idle: set<EntryId>, start: EntryId, count: nat) returns (i: nat, stop: nat)
    ensures i <= stop <= |pel| && (forall k :: 0 <= k < i ==> pel[k] < start) && (i < |pel| ==> pel[i] >= start)
    ensures AutoClaim(pel, idle, start, count) == (Idle(pel[i..stop], idle), if stop == |pel| then 0 else pel[stop])
    ensures stop == |pel| || |AutoClaim(pel, idle, start, count).0| == count || stop - i == 10 * count
  {
    i := Position(pel, start);
    stop := Walk(pel, idle, i, count, 10 * count).1;
  }

  lemma {:induction false} IdleAscends(pel: seq<EntryId>, idle: set<EntryId>)
    requires Ascending(pel)
    ensures Ascending(Idle(pel, idle)) && forall e :: e in Idle(pel, idle) <==> e in pel && e in idle
  {
    if pel != [] {
      assert pel == [pel[0]] + pel[1..];
      IdleAscends(pel[1..], idle);
      var rest := Idle(pel[1..], idle);
      assert forall k :: 0 <= k < |rest| ==> rest[k] in rest;
    }
  }

  /** Entries are claimed in order, each once. */
  lemma ClaimsAscend(pel: seq<EntryId>, idle: set<EntryId>, start: EntryId, count: nat)
    requires Ascending(pel)
    ensures Ascending(AutoClaim(pel, idle, start, count).0)
  {
    var i := Position(pel, start);
    IdleAscends(pel[i..Walk(pel, idle, i, count, 10 * count).1], idle);
  }

  // ------------------------------------------------------------- progress

  function Between(pel: seq<EntryId>, lo: EntryId, hi: EntryId): set<EntryId> {
    set e | e in pel && lo <= e <= hi
  }

  function From(pel: seq<EntryId>, lo: EntryId): set<EntryId> {
    set e | e in pel && lo <= e
  }

  /** How far the sweep is from having visited `x`. */
  function Distance(pel: seq<EntryId>, cursor: EntryId, x: EntryId): nat {
    if cursor <= x then |Between(pel, cursor, x)|
    else |From(pel, cursor)| + |Between(pel, 0, x)| + 1
  }

  /** A pass either claims `x` or gets closer to it. */
  lemma PassProgress(pel: seq<EntryId>, idle: set<EntryId>, cursor: EntryId, count: nat, x: EntryId)
    requires Ascending(pel) && count >= 1 && x in pel && x in idle
    ensures var r := AutoClaim(pel, idle, cursor, count);
            x in r.0 || Distance(pel, r.1, x) < Distance(pel, cursor, x)
  {
    var i := Position(pel, cursor);
    var w := Walk(pel, idle, i, count, 10 * count);
    var next := if w.1 == |pel| then 0 else pel[w.1];
    var at :| 0 <= at < |pel| && pel[at] == x;
    if cursor <= x {
      assert at >= i;
      if at >= w.1 {
        assert next == pel[w.1] <= x;
        assert pel[i] in Between(pel, cursor, x) && pel[i] !in Between(pel, next, x);
        SubsetSize(Between(pel, next, x), Between(pel, cursor, x));
      }
    } else if w.1 == |pel| {
      assert next == 0;
    } else {
      assert next == pel[w.1] > pel[i] >= cursor;
      assert pel[i] in From(pel, cursor) && pel[i] !in From(pel, next);
      SubsetSize(From(pel, next), From(pel, cursor));
    }
  }

  /** Entries only leave the list: the distance does not grow. */
  lemma ShrinkDistance(pel: seq<EntryId>, pel': seq<EntryId>, cursor: EntryId, x: EntryId)
    requires forall e :: e in pel' ==> e in pel
    ensures Distance(pel', cursor, x) <= Distance(pel, cursor, x)
  {
    SubsetSize(Between(pel', cursor, x), Between(pel, cursor, x));
    SubsetSize(From(pel', cursor), From(pel, cursor));
    SubsetSize(Between(pel', 0, x), Between(pel, 0, x));
  }

  lemma {:induction false} DistinctSize(pel: seq<EntryId>)
    requires Ascending(pel)
    ensures |From(pel, 0)| == |pel|
  {
    if pel != [] {
      assert pel == [pel[0]] + pel[1..];
      assert From(pel, 0) == {pel[0]} + From(pel[1..], 0);
      assert pel[0] !in From(pel[1..], 0);
      DistinctSize(pel[1..]);
    }
  }

  lemma DistanceBound(pel: seq<EntryId>, cursor: EntryId, x: EntryId)
    requires Ascending(pel)
    ensures Distance(pel, cursor, x) <= |pel| + 1
  {
    var all := From(pel, 0);
    DistinctSize(pel);
    if cursor <= x {
      SubsetSize(Between(pel, cursor, x), all);
    } else {
      assert From(pel, cursor) !! Between(pel, 0, x);
      assert |From(pel, cursor) + Between(pel, 0, x)| == |From(pel, cursor)| + |Between(pel, 0, x)|;
      SubsetSize(From(pel, cursor) + Between(pel, 0, x), all);
    }
  }

  // --------------------------------------------------------------- the sweep

  /** What one pass meets: the pending list, who is idle in it, and the free capacity asked for. */
  datatype Pass = Pass(pel: seq<EntryId>, idle: set<EntryId>, count: nat)

  predicate PassOk(p: Pass, x: EntryId) {
    Ascending(p.pel) && p.count >= 1 && x in p.pel && x in p.idle
  }

  predicate Shrinks(p: Pass, q: Pass) {
    forall e :: e in q.pel ==> e in p.pel
  }

  /** From each pass to the next, entries only leave the list. */
  ghost predicate OnlyShrinks(passes: seq<Pass>) {
    forall i, k :: 0 <= i < k < |passes| && k == i + 1 ==> Shrinks(passes[i], passes[k])
  }

  /** Some pass of the sweep claims `x`. */
  predicate Claims(passes: seq<Pass>, cursor: EntryId, x: EntryId)
    decreases |passes|
  {
    passes != [] &&
    var r := AutoClaim(passes[0].pel, passes[0].idle, cursor, passes[0].count);
    x in r.0 || Claims(passes[1..], r.1, x)
  }

  lemma {:induction false} SweepFrom(passes: seq<Pass>, cursor: EntryId, x: EntryId)
    requires forall i :: 0 <= i < |passes| ==> PassOk(passes[i], x)
    requires OnlyShrinks(passes)
    requires passes != [] && |passes| >= Distance(passes[0].pel, cursor, x)
    ensures Claims(passes, cursor, x)
    decreases |passes|
  {
    var p := passes[0];
    var r := AutoClaim(p.pel, p.idle, cursor, p.count);
    assert PassOk(p, x);
    PassProgress(p.pel, p.idle, cursor, p.count, x);
    if x !in r.0 {
      assert x in Between(p.pel, if r.1 <= x then r.1 else 0, x);
      if |passes| > 1 {
        assert Shrinks(passes[0], passes[1]);
        ShrinkDistance(p.pel, passes[1].pel, r.1, x);
        SweepFrom(passes[1..], r.1, x);
      }
    }
  }

  /**
   While the pending list only shrinks, from any cursor, one more pass than the
   list has entries is enough to claim every entry that stays pending and idle.
   */
  lemma SweepClaimsEveryIdleEntry(passes: seq<Pass>, cursor: EntryId, x: EntryId)
    requires forall i :: 0 <= i < |passes| ==> PassOk(passes[i], x)
    requires OnlyShrinks(passes)
    requires passes != [] && |passes| >= |passes[0].pel| + 1
    ensures Claims(passes, cursor, x)
  {
    assert PassOk(passes[0], x);
    DistanceBound(passes[0].pel, cursor, x);
    SweepFrom(passes, cursor, x);
  }
}

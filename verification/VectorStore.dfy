/**
 The in-memory vector store (src/app/adapters/providers/fake.py): buckets that
 remember insertion order, and ranked retrieval that must not depend on it.
 */
module VectorStore {
  import opened Jobs
  import opened Similarity

  type Metadata = map<string, Json>

  datatype Entry = Entry(values: Vec, metadata: Metadata)

  datatype Item = Item(id: string, values: Vec, metadata: Metadata)

  datatype Match = Match(id: string, score: real, metadata: Metadata)

  /** A Python dict: its entries, and the order its keys were first inserted in. */
  datatype Bucket = Bucket(order: seq<string>, entries: map<string, Entry>)

  const EMPTY := Bucket([], map[])

  predicate Listed(b: Bucket) {
    && (forall i, j :: 0 <= i < j < |b.order| ==> b.order[i] != b.order[j])
    && (forall i :: 0 <= i < |b.order| ==> b.order[i] in b.entries)
    && (forall id :: id in b.entries ==> id in b.order)
  }

  function Put(b: Bucket, item: Item): (r: Bucket)
    ensures Listed(b) ==> Listed(r)
  {
    Bucket(if item.id in b.entries then b.order else b.order + [item.id],
           b.entries[item.id := Entry(item.values, item.metadata)])
  }

  function PutAll(b: Bucket, items: seq<Item>): (r: Bucket)
    ensures Listed(b) ==> Listed(r)
  {
    if items == [] then b else Put(PutAll(b, items[..|items| - 1]), items[|items| - 1])
  }

  lemma {:induction false} PutAllConcat(b: Bucket, xs: seq<Item>, ys: seq<Item>)
    ensures PutAll(b, xs + ys) == PutAll(PutAll(b, xs), ys)
  {
    if ys == [] {
      assert xs + ys == xs;
    } else {
      assert (xs + ys)[..|xs + ys| - 1] == xs + ys[..|ys| - 1];
      PutAllConcat(b, xs, ys[..|ys| - 1]);
    }
  }

  predicate SameKeys(a: Bucket, b: Bucket) {
    a.order == b.order && a.entries.Keys == b.entries.Keys
  }

  /** Which keys there are, and in which order, does not depend on the values. */
  lemma {:induction false} PutAllKeys(a: Bucket, b: Bucket, items: seq<Item>)
    requires SameKeys(a, b)
    ensures SameKeys(PutAll(a, items), PutAll(b, items))
  {
    if items != [] { PutAllKeys(a, b, items[..|items| - 1]); }
  }

  /** Items whose ids are all there already add no key. */
  lemma {:induction false} PutAllPresent(b: Bucket, items: seq<Item>)
    requires forall i :: 0 <= i < |items| ==> items[i].id in b.entries
    ensures SameKeys(PutAll(b, items), b)
  {
    if items != [] { PutAllPresent(b, items[..|items| - 1]); }
  }

  lemma {:induction false} PutAllHasAll(b: Bucket, items: seq<Item>)
    ensures forall i :: 0 <= i < |items| ==> items[i].id in PutAll(b, items).entries
    ensures b.entries.Keys <= PutAll(b, items).entries.Keys
  {
    if items != [] {
      var n := |items| - 1;
      PutAllHasAll(b, items[..n]);
      forall i | 0 <= i < |items| ensures items[i].id in PutAll(b, items).entries {
        if i < n { assert items[..n][i] == items[i]; }
      }
    }
  }

  /** A key's value after the upsert: from the last item that names it, or as it was. */
  lemma {:induction false} PutAllValue(a: Bucket, b: Bucket, items: seq<Item>, id: string)
    requires (exists i :: 0 <= i < |items| && items[i].id == id)
             || (id in a.entries && id in b.entries && a.entries[id] == b.entries[id])
    ensures id in PutAll(a, items).entries && id in PutAll(b, items).entries
    ensures PutAll(a, items).entries[id] == PutAll(b, items).entries[id]
  {
    if items != [] {
      var n := |items| - 1;
      if items[n].id != id {
        if exists i :: 0 <= i < |items| && items[i].id == id {
          var i :| 0 <= i < |items| && items[i].id == id;
          assert items[..n][i].id == id;
        }
        PutAllValue(a, b, items[..n], id);
      }
    }
  }

  lemma {:induction false} PutAllElsewhere(b: Bucket, items: seq<Item>, id: string)
    requires forall i :: 0 <= i < |items| ==> items[i].id != id
    ensures id in PutAll(b, items).entries <==> id in b.entries
    ensures id in b.entries ==> PutAll(b, items).entries[id] == b.entries[id]
  {
    if items != [] { PutAllElsewhere(b, items[..|items| - 1], id); }
  }

  predicate IsLast(items: seq<Item>, i: nat) {
    i < |items| && forall j :: i < j < |items| ==> items[j].id != items[i].id
  }

  /** What an upsert stores: for each id, the last item that names it; other entries are left alone. */
  ghost predicate Stores(before: map<string, Entry>, items: seq<Item>, after: map<string, Entry>) {
    && (forall i :: 0 <= i < |items| ==> items[i].id in after)
    && (forall i :: 0 <= i < |items| && IsLast(items, i) ==>
      after[items[i].id] == Entry(items[i].values, items[i].metadata))
    && (forall id :: id in before ==> id in after)
    && (forall id :: id in after && (forall i :: 0 <= i < |items| ==> items[i].id != id) ==>
          id in before && after[id] == before[id])
  }

  lemma {:induction false} PutAllLast(b: Bucket, items: seq<Item>, i: nat)
    requires IsLast(items, i)
    ensures items[i].id in PutAll(b, items).entries
    ensures PutAll(b, items).entries[items[i].id] == Entry(items[i].values, items[i].metadata)
  {
    var n := |items| - 1;
    if i < n {
      assert items[n].id != items[i].id && items[..n][i] == items[i];
      LastInPrefix(items, i, n);
      PutAllLast(b, items[..n], i);
    }
  }

  lemma LastInPrefix(items: seq<Item>, i: nat, n: nat)
    requires IsLast(items, i) && i < n <= |items|
    ensures IsLast(items[..n], i)
  {
  }

  lemma PutAllSays(b: Bucket, items: seq<Item>)
    ensures Stores(b.entries, items, PutAll(b, items).entries)
  {
    var after := PutAll(b, items).entries;
    PutAllHasAll(b, items);
    forall i | 0 <= i < |items| && IsLast(items, i)
      ensures after[items[i].id] == Entry(items[i].values, items[i].metadata)
    {
      PutAllLast(b, items, i);
    }
    forall id | id in after && (forall i :: 0 <= i < |items| ==> items[i].id != id)
      ensures id in b.entries && after[id] == b.entries[id]
    {
      PutAllElsewhere(b, items, id);
    }
  }

  /** An upsert absorbs any earlier, possibly incomplete, upsert of the same items. */
  lemma UpsertAbsorbs(b: Bucket, items: seq<Item>, n: nat)
    requires n <= |items|
    ensures PutAll(PutAll(b, items[..n]), items) == PutAll(b, items)
  {
    var part := PutAll(b, items[..n]);
    assert items == items[..n] + items[n..];
    PutAllConcat(b, items[..n], items[n..]);
    PutAllConcat(part, items[..n], items[n..]);
    PutAllHasAll(b, items[..n]);
    PutAllPresent(part, items[..n]);
    PutAllKeys(PutAll(part, items[..n]), part, items[n..]);
    SameValues(b, items, n);
  }

  lemma SameValues(b: Bucket, items: seq<Item>, n: nat)
    requires n <= |items|
    requires SameKeys(PutAll(PutAll(b, items[..n]), items), PutAll(b, items))
    ensures PutAll(PutAll(b, items[..n]), items).entries == PutAll(b, items).entries
  {
    var part := PutAll(b, items[..n]);
    forall id | id in PutAll(b, items).entries
      ensures id in PutAll(part, items).entries && PutAll(part, items).entries[id] == PutAll(b, items).entries[id]
    {
      if forall i :: 0 <= i < |items| ==> items[i].id != id {
        PutAllElsewhere(b, items, id);
        PutAllElsewhere(b, items[..n], id);
      }
      PutAllValue(part, b, items, id);
    }
  }

  // ---------------------------------------------------------------- ordering

  /** Lexicographic order by code point, as Python compares strings. */
  predicate StrLess(a: string, b: string) {
    b != [] && (a == [] || a[0] < b[0] || (a[0] == b[0] && StrLess(a[1..], b[1..])))
  }

  lemma {:induction false} StrTotal(a: string, b: string)
    ensures StrLess(a, b) || a == b || StrLess(b, a)
  {
    if a != [] && b != [] && a[0] == b[0] {
      StrTotal(a[1..], b[1..]);
      assert a == [a[0]] + a[1..] && b == [b[0]] + b[1..];
    }
  }

  lemma {:induction false} StrTransitive(a: string, b: string, c: string)
    requires StrLess(a, b) && StrLess(b, c)
    ensures StrLess(a, c)
  {
    if a != [] && a[0] == b[0] && b[0] == c[0] {
      StrTransitive(a[1..], b[1..], c[1..]);
    }
  }

  lemma {:induction false} StrIrreflexive(a: string)
    ensures !StrLess(a, a)
  {
    if a != [] { StrIrreflexive(a[1..]); }
  }

  /** `a` and `b` agree before position `k`, where `a` ends or has the smaller character. */
  predicate SmallerAt(a: string, b: string, k: nat) {
    k <= |a| && k < |b| && a[..k] == b[..k] && (k == |a| || a[k] < b[k])
  }

  lemma SharedHead(a: string, b: string, k: nat)
    requires SmallerAt(a, b, k) && k > 0
    ensures a != [] && b != [] && a[0] == b[0]
  {
    assert a[..k][0] == b[..k][0];
  }

  /** This is the lexicographic order: some such position exists. */
  lemma {:induction false} StrLessIff(a: string, b: string)
    ensures StrLess(a, b) <==> exists k: nat :: SmallerAt(a, b, k)
  {
    if a != [] && b != [] && a[0] == b[0] {
      StrLessIff(a[1..], b[1..]);
      if k: nat :| SmallerAt(a[1..], b[1..], k) {
        assert a[..k + 1] == [a[0]] + a[1..][..k] && b[..k + 1] == [b[0]] + b[1..][..k];
        assert SmallerAt(a, b, k + 1);
      }
      if k: nat :| SmallerAt(a, b, k) {
        if k > 0 {
          assert a[1..][..k - 1] == a[..k][1..] && b[1..][..k - 1] == b[..k][1..];
          assert SmallerAt(a[1..], b[1..], k - 1);
        }
      }
    } else {
      assert SmallerAt(a, b, 0) <==> b != [] && (a == [] || a[0] < b[0]);
      forall k: nat | SmallerAt(a, b, k) ensures k == 0 {
        if k > 0 { SharedHead(a, b, k); }
      }
    }
  }

  /** `a` ranks ahead of `b`: higher score, then smaller id. */
  predicate Before(a: Match, b: Match) {
    a.score > b.score || (a.score == b.score && StrLess(a.id, b.id))
  }

  lemma BeforeTotal(a: Match, b: Match)
    requires a.id != b.id
    ensures Before(a, b) || Before(b, a)
  {
    StrTotal(a.id, b.id);
  }

  lemma BeforeTransitive(a: Match, b: Match, c: Match)
    requires Before(a, b) && Before(b, c)
    ensures Before(a, c)
  {
    if a.score == b.score == c.score { StrTransitive(a.id, b.id, c.id); }
  }

  lemma BeforeIrreflexive(a: Match)
    ensures !Before(a, a)
  {
    StrIrreflexive(a.id);
  }

  ghost predicate Ranked(ms: seq<Match>) {
    forall i, j :: 0 <= i < j < |ms| ==> Before(ms[i], ms[j])
  }

  ghost predicate SameMatches(a: seq<Match>, b: seq<Match>) {
    forall m :: m in a <==> m in b
  }

  /** Two rankings of the same matches are the same list. */
  lemma {:induction false} RankingIsUnique(a: seq<Match>, b: seq<Match>)
    requires Ranked(a) && Ranked(b) && SameMatches(a, b)
    ensures a == b
  {
    BothEmpty(a, b);
    if a != [] {
      SameHead(a, b);
      SameTail(a, b);
      RankingIsUnique(a[1..], b[1..]);
      assert a == [a[0]] + a[1..] && b == [b[0]] + b[1..];
    }
  }

  lemma BothEmpty(a: seq<Match>, b: seq<Match>)
    requires SameMatches(a, b)
    ensures a == [] <==> b == []
  {
    if a != [] { assert a[0] in b; }
    if b != [] { assert b[0] in a; }
  }

  lemma SameHead(a: seq<Match>, b: seq<Match>)
    requires Ranked(a) && Ranked(b) && SameMatches(a, b) && a != [] && b != []
    ensures a[0] == b[0]
  {
    assert a[0] in a && b[0] in b;
    var i :| 0 <= i < |b| && b[i] == a[0];
    var j :| 0 <= j < |a| && a[j] == b[0];
    if i > 0 && j > 0 {
      BeforeTransitive(a[0], b[0], a[0]);
      BeforeIrreflexive(a[0]);
      assert false;
    }
  }

  lemma HeadNotInTail(a: seq<Match>)
    requires Ranked(a) && a != []
    ensures a[0] !in a[1..] && Ranked(a[1..])
  {
    BeforeIrreflexive(a[0]);
  }

  lemma SameTail(a: seq<Match>, b: seq<Match>)
    requires Ranked(a) && Ranked(b) && SameMatches(a, b) && a != [] && b != [] && a[0] == b[0]
    ensures Ranked(a[1..]) && Ranked(b[1..]) && SameMatches(a[1..], b[1..])
  {
    HeadNotInTail(a);
    HeadNotInTail(b);
    forall m ensures m in a[1..] <==> m in b[1..] {
      assert m in a <==> m == a[0] || m in a[1..];
      assert m in b <==> m == b[0] || m in b[1..];
    }
  }

  // ------------------------------------------------------------------ query

  function ToMatch(q: Vec, b: Bucket, id: string): Match
    requires id in b.entries
  {
    Match(id, Score(q, b.entries[id].values), b.entries[id].metadata)
  }

  /** Where the next match goes in an already ranked list. */
  function InsertRanked(ms: seq<Match>, m: Match): seq<Match> {
    if ms == [] || Before(m, ms[0]) then [m] + ms else [ms[0]] + InsertRanked(ms[1..], m)
  }

  lemma {:induction false} InsertKeepsRanked(ms: seq<Match>, m: Match)
    requires Ranked(ms) && (forall i :: 0 <= i < |ms| ==> ms[i].id != m.id)
    ensures Ranked(InsertRanked(ms, m))
    ensures forall x :: x in InsertRanked(ms, m) <==> x in ms || x == m
  {
    if ms == [] {
    } else if Before(m, ms[0]) {
      forall i | 0 < i < |ms| ensures Before(m, ms[i]) { BeforeTransitive(m, ms[0], ms[i]); }
    } else {
      BeforeTotal(m, ms[0]);
      InsertKeepsRanked(ms[1..], m);
      assert ms == [ms[0]] + ms[1..];
      var rest := InsertRanked(ms[1..], m);
      forall i | 0 <= i < |rest| ensures Before(ms[0], rest[i]) { assert rest[i] in rest; }
    }
  }

  /** The ranking of a whole bucket: all its matches, best first. */
  ghost predicate RankingOf(q: Vec, b: Bucket, ms: seq<Match>) {
    && Ranked(ms)
    && (forall m :: m in ms <==> m.id in b.entries && m == ToMatch(q, b, m.id))
  }

  ghost predicate DistinctIds(ms: seq<Match>) {
    forall i, j :: 0 <= i < j < |ms| ==> ms[i].id != ms[j].id
  }

  function SortAll(ms: seq<Match>): seq<Match> {
    if ms == [] then [] else InsertRanked(SortAll(ms[..|ms| - 1]), ms[|ms| - 1])
  }

  lemma {:induction false} SortAllRanks(ms: seq<Match>)
    requires DistinctIds(ms)
    ensures Ranked(SortAll(ms)) && SameMatches(SortAll(ms), ms)
  {
    if ms != [] {
      var n := |ms| - 1;
      var rest := SortAll(ms[..n]);
      SortAllRanks(ms[..n]);
      forall k | 0 <= k < |rest| ensures rest[k].id != ms[n].id { assert rest[k] in ms[..n]; }
      InsertKeepsRanked(rest, ms[n]);
      assert ms == ms[..n] + [ms[n]];
    }
  }

  /** One match per key, in insertion order. */
  function Scored(q: Vec, b: Bucket): (ms: seq<Match>)
    requires Listed(b)
    ensures |ms| == |b.order| && forall i :: 0 <= i < |ms| ==> ms[i] == ToMatch(q, b, b.order[i])
  {
    seq(|b.order|, i requires 0 <= i < |b.order| => ToMatch(q, b, b.order[i]))
  }

  function Ranking(q: Vec, b: Bucket): seq<Match>
    requires Listed(b)
  {
    SortAll(Scored(q, b))
  }

  lemma RankingRanks(q: Vec, b: Bucket)
    requires Listed(b)
    ensures RankingOf(q, b, Ranking(q, b))
  {
    var ms := Scored(q, b);
    SortAllRanks(ms);
    forall m ensures m in ms <==> m.id in b.entries && m == ToMatch(q, b, m.id) {
      if m.id in b.entries && m == ToMatch(q, b, m.id) {
        var i :| 0 <= i < |b.order| && b.order[i] == m.id;
        assert ms[i] == m;
      }
    }
  }

  /** Python's `[:k]`. */
  function Slice(ms: seq<Match>, k: int): seq<Match> {
    if k >= |ms| then ms else if k >= 0 then ms[..k] else if |ms| + k >= 0 then ms[..|ms| + k] else []
  }

  predicate OutRanks(score: real, id: string, score': real, id': string) {
    score > score' || (score == score' && StrLess(id, id'))
  }

  /**
   What a query returns: matches with the score and metadata of the stored entry,
   in rank order, as many as asked for (a negative number drops that many from the
   end), and no entry left out ranks before one returned.
   */
  ghost predicate Answers(q: Vec, topK: int, entries: map<string, Entry>, r: seq<Match>) {
    && (forall i :: 0 <= i < |r| ==>
          r[i].id in entries && r[i].score == Score(q, entries[r[i].id].values)
            && r[i].metadata == entries[r[i].id].metadata)
    && (forall i, j :: 0 <= i < j < |r| ==> OutRanks(r[i].score, r[i].id, r[j].score, r[j].id))
    && |r| == (if topK >= |entries| then |entries| else if topK >= 0 then topK
               else if |entries| + topK >= 0 then |entries| + topK else 0)
    && (forall id :: id in entries && (forall i :: 0 <= i < |r| ==> r[i].id != id) ==>
          forall i :: 0 <= i < |r| ==> OutRanks(r[i].score, r[i].id, Score(q, entries[id].values), id))
  }

  lemma {:induction false} InsertSize(ms: seq<Match>, m: Match)
    ensures |InsertRanked(ms, m)| == |ms| + 1
  {
    if ms != [] && !Before(m, ms[0]) { InsertSize(ms[1..], m); }
  }

  lemma {:induction false} SortSize(ms: seq<Match>)
    ensures |SortAll(ms)| == |ms|
  {
    if ms != [] {
      SortSize(ms[..|ms| - 1]);
      InsertSize(SortAll(ms[..|ms| - 1]), ms[|ms| - 1]);
    }
  }

  lemma {:induction false} DistinctCount(order: seq<string>, keys: set<string>)
    requires forall i, j :: 0 <= i < j < |order| ==> order[i] != order[j]
    requires forall id :: id in keys <==> id in order
    ensures |keys| == |order|
  {
    if order == [] {
      assert keys == {};
    } else {
      var n := |order| - 1;
      assert order == order[..n] + [order[n]];
      DistinctCount(order[..n], keys - {order[n]});
    }
  }

  lemma RankingSize(q: Vec, b: Bucket)
    requires Listed(b)
    ensures |Ranking(q, b)| == |b.entries|
  {
    SortSize(Scored(q, b));
    DistinctCount(b.order, b.entries.Keys);
    assert |b.entries| == |b.entries.Keys|;
  }

  /** Every match in the ranking is a stored entry's, and ranks before the ones after it. */
  lemma RankingAnswers(q: Vec, b: Bucket)
    requires Listed(b)
    ensures var all := Ranking(q, b);
            && (forall i :: 0 <= i < |all| ==>
                  && all[i].id in b.entries && all[i].score == Score(q, b.entries[all[i].id].values)
                  && all[i].metadata == b.entries[all[i].id].metadata)
            && (forall i, j :: 0 <= i < j < |all| ==> OutRanks(all[i].score, all[i].id, all[j].score, all[j].id))
  {
    var all := Ranking(q, b);
    RankingRanks(q, b);
    forall i | 0 <= i < |all| ensures all[i].id in b.entries && all[i] == ToMatch(q, b, all[i].id) {
      assert all[i] in all;
    }
  }

  /** Where an entry stands in the ranking. */
  lemma PlaceOf(q: Vec, b: Bucket, id: string) returns (k: nat)
    requires Listed(b) && id in b.entries
    ensures k < |Ranking(q, b)| && Ranking(q, b)[k].id == id
    ensures Ranking(q, b)[k].score == Score(q, b.entries[id].values)
  {
    RankingRanks(q, b);
    assert ToMatch(q, b, id) in Ranking(q, b);
    k :| 0 <= k < |Ranking(q, b)| && Ranking(q, b)[k] == ToMatch(q, b, id);
  }

  lemma SliceIsPrefix(ms: seq<Match>, k: int)
    ensures |Slice(ms, k)| <= |ms| && Slice(ms, k) == ms[..|Slice(ms, k)|]
  {
  }

  lemma QueryAnswers(q: Vec, b: Bucket, topK: int)
    requires Listed(b)
    ensures Answers(q, topK, b.entries, Slice(Ranking(q, b), topK))
  {
    var all := Ranking(q, b);
    var r := Slice(all, topK);
    RankingAnswers(q, b);
    RankingSize(q, b);
    SliceIsPrefix(all, topK);
    forall id | id in b.entries && (forall i :: 0 <= i < |r| ==> r[i].id != id)
      ensures forall i :: 0 <= i < |r| ==> OutRanks(r[i].score, r[i].id, Score(q, b.entries[id].values), id)
    {
      var k := PlaceOf(q, b, id);
    }
  }

  class FakeVectorStore {
    var ns: map<string, Bucket>

    ghost predicate Valid()
      reads this
    {
      forall name :: name in ns ==> Listed(ns[name])
    }

    function BucketOf(namespace: string): Bucket
      reads this
    {
      if namespace in ns then ns[namespace] else EMPTY
    }

    constructor ()
      ensures Valid() && ns == map[]
    {
      ns := map[];
    }

    /** Inserts or replaces each item in turn; other namespaces are left alone. */
    method Upsert(items: seq<Item>, namespace: string)
      requires Valid()
      modifies this
      ensures Valid()
      ensures ns == old(ns)[namespace := PutAll(old(BucketOf(namespace)), items)]
      ensures ns.Keys == old(ns.Keys) + {namespace}
      ensures forall name :: name in old(ns) && name != namespace ==> ns[name] == old(ns)[name]
      ensures Stores(if namespace in old(ns) then old(ns)[namespace].entries else map[], items, ns[namespace].entries)
    {
      PutAllSays(BucketOf(namespace), items);
      var bucket := BucketOf(namespace);
      for i := 0 to |items|
        invariant bucket == PutAll(old(BucketOf(namespace)), items[..i])
      {
        assert items[..i + 1][..i] == items[..i];
        bucket := Put(bucket, items[i]);
      }
      assert items[..|items|] == items;
      ns := ns[namespace := bucket];
    }

    /** Scores every entry in insertion order, sorts, and cuts: the first `topK` of the namespace's ranking. */
    method Query(vector: Vec, topK: int, namespace: string) returns (r: seq<Match>)
      requires Valid()
      ensures r == Slice(Ranking(vector, BucketOf(namespace)), topK)
      ensures Answers(vector, topK, if namespace in ns then ns[namespace].entries else map[], r)
    {
      var b := BucketOf(namespace);
      var scored: seq<Match> := [];
      for i := 0 to |b.order|
        invariant |scored| == i
        invariant forall k :: 0 <= k < i ==> scored[k] == ToMatch(vector, b, b.order[k])
      {
        scored := scored + [ToMatch(vector, b, b.order[i])];
      }
      assert scored == Scored(vector, b);
      scored := SortMatches(scored);
      r := Slice(scored, topK);
      QueryAnswers(vector, b, topK);
    }
  }

  /** Python's in-place sort by rank, on a list of our own. */
  method SortMatches(ms: seq<Match>) returns (r: seq<Match>)
    ensures r == SortAll(ms)
    ensures DistinctIds(ms) ==> Ranked(r) && SameMatches(r, ms)
  {
    r := [];
    for i := 0 to |ms|
      invariant r == SortAll(ms[..i])
    {
      assert ms[..i + 1][..i] == ms[..i];
      r := InsertRanked(r, ms[i]);
    }
    assert ms[..|ms|] == ms;
    if DistinctIds(ms) { SortAllRanks(ms); }
  }

  // ------------------------------------------------------------ main results

  /** The ranking is a function of what a bucket holds: the order of insertion does not matter. */
  lemma RankingDependsOnContents(q: Vec, a: Bucket, b: Bucket)
    requires Listed(a) && Listed(b) && a.entries == b.entries
    ensures Ranking(q, a) == Ranking(q, b)
  {
    RankingRanks(q, a);
    RankingRanks(q, b);
    RankingIsUnique(Ranking(q, a), Ranking(q, b));
  }

  ghost predicate DistinctItems(items: seq<Item>) {
    forall i, j :: 0 <= i < j < |items| ==> items[i].id != items[j].id
  }

  lemma {:induction false} PutAllStores(b: Bucket, items: seq<Item>, i: nat)
    requires DistinctItems(items) && i < |items|
    ensures items[i].id in PutAll(b, items).entries
    ensures PutAll(b, items).entries[items[i].id] == Entry(items[i].values, items[i].metadata)
  {
    var n := |items| - 1;
    if i < n { PutAllStores(b, items[..n], i); }
  }

  /** Upserting the same items in another order gives the same answers. */
  lemma InsertionOrderDoesNotMatter(q: Vec, b: Bucket, xs: seq<Item>, ys: seq<Item>)
    requires Listed(b) && DistinctItems(xs) && DistinctItems(ys) && (forall x :: x in xs <==> x in ys)
    ensures Ranking(q, PutAll(b, xs)) == Ranking(q, PutAll(b, ys))
  {
    SameStored(b, xs, ys);
    SameStored(b, ys, xs);
    assert PutAll(b, xs).entries == PutAll(b, ys).entries;
    RankingDependsOnContents(q, PutAll(b, xs), PutAll(b, ys));
  }

  lemma SameStored(b: Bucket, xs: seq<Item>, ys: seq<Item>)
    requires DistinctItems(xs) && DistinctItems(ys) && (forall x :: x in xs <==> x in ys)
    ensures forall id :: id in PutAll(b, xs).entries ==>
              id in PutAll(b, ys).entries && PutAll(b, ys).entries[id] == PutAll(b, xs).entries[id]
  {
    forall id | id in PutAll(b, xs).entries
      ensures id in PutAll(b, ys).entries && PutAll(b, ys).entries[id] == PutAll(b, xs).entries[id]
    {
      if i :| 0 <= i < |xs| && xs[i].id == id {
        assert xs[i] in ys;
        var j :| 0 <= j < |ys| && ys[j] == xs[i];
        PutAllStores(b, xs, i);
        PutAllStores(b, ys, j);
      } else {
        forall j | 0 <= j < |ys| ensures ys[j].id != id { assert ys[j] in xs; }
        PutAllElsewhere(b, xs, id);
        PutAllElsewhere(b, ys, id);
      }
    }
  }

  /** No omitted match outranks a returned one, and the returned ones are as many as asked for. */
  lemma TopKIsBest(q: Vec, b: Bucket, k: int, m: Match, omitted: Match)
    requires Listed(b) && k >= 0 && m in Slice(Ranking(q, b), k)
    requires omitted in Ranking(q, b) && omitted !in Slice(Ranking(q, b), k)
    ensures Before(m, omitted) && |Slice(Ranking(q, b), k)| == k
  {
    RankingRanks(q, b);
    var ranking := Ranking(q, b);
    var r := Slice(ranking, k);
    var i :| 0 <= i < |r| && r[i] == m;
    var j :| 0 <= j < |ranking| && ranking[j] == omitted;
    assert r == ranking[..k] && forall x :: 0 <= x < k ==> r[x] in r;
  }
}

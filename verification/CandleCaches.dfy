/**
 The bounded candle cache: a sorted list per token and interval, filled in any order.
 */
module CandleCaches {
  import opened Common
  import opened Candles

  // ----- One list -----

  ghost predicate Ascending(list: seq<Candle>) {
    forall i, j :: 0 <= i < j < |list| ==> list[i].ts < list[j].ts
  }

  /** Replaces the candle of the same time, or inserts the new one at its place. */
  function Upsert(list: seq<Candle>, c: Candle): seq<Candle> {
    if list == [] then [c]
    else if list[0].ts < c.ts then [list[0]] + Upsert(list[1..], c)
    else if list[0].ts == c.ts then [c] + list[1..]
    else [c] + list
  }

  function Newest(list: seq<Candle>, n: nat): seq<Candle> {
    if |list| <= n then list else list[|list| - n..]
  }

  lemma {:induction false} UpsertAt(list: seq<Candle>, c: Candle, i: nat)
    requires Ascending(list) && i <= |list|
    requires forall j :: 0 <= j < i ==> list[j].ts < c.ts
    requires i < |list| ==> c.ts <= list[i].ts
    ensures Upsert(list, c) ==
            list[..i] + [c] + if i < |list| && list[i].ts == c.ts then list[i + 1..] else list[i..]
    decreases i
  {
    if i > 0 {
      var first, rest := list[0], list[1..];
      UpsertAt(rest, c, i - 1);
      assert Upsert(list, c) == [first] + Upsert(rest, c);
      hide Upsert, Ascending;
      SpliceOneOn(list, c, i, if i < |list| && list[i].ts == c.ts then 1 else 0);
    } else {
      assert list[..0] == [];
    }
  }

  /** A splice behind the first element is a splice of the whole list one place on. */
  lemma SpliceOneOn(list: seq<Candle>, c: Candle, i: nat, dropped: nat)
    requires 1 <= i && i + dropped <= |list|
    ensures var rest := list[1..];
            [list[0]] + (rest[..i - 1] + [c] + rest[i - 1 + dropped..]) == list[..i] + [c] + list[i + dropped..]
  {
    var rest := list[1..];
    assert [list[0]] + rest[..i - 1] == list[..i];
    assert rest[i - 1 + dropped..] == list[i + dropped..];
  }

  /** The place of a time in an ascending list. */
  lemma {:induction false} PlaceOf(list: seq<Candle>, ts: int) returns (i: nat)
    requires Ascending(list)
    ensures i <= |list| && (forall j :: 0 <= j < i ==> list[j].ts < ts) && (i < |list| ==> ts <= list[i].ts)
  {
    i := 0;
    while i < |list| && list[i].ts < ts
      invariant i <= |list| && forall j :: 0 <= j < i ==> list[j].ts < ts
    {
      i := i + 1;
    }
  }

  lemma UpsertContents(list: seq<Candle>, c: Candle)
    requires Ascending(list)
    ensures var u := Upsert(list, c);
            && Ascending(u)
            && |list| <= |u| <= |list| + 1
            && (forall x :: x in u <==> x == c || (x in list && x.ts != c.ts))
            && (|u| == |list| + 1 <==> forall i :: 0 <= i < |list| ==> list[i].ts != c.ts)
  {
    var i := PlaceOf(list, c.ts);
    UpsertAt(list, c, i);
    hide Upsert;
    if i < |list| {
      assert forall j :: i < j < |list| ==> list[j].ts > list[i].ts;
    }
  }

  /** All candles of one key given so far, the last one winning for each time. */
  function LastWrite(inserted: seq<Candle>): map<int, Candle> {
    if inserted == [] then map[]
    else LastWrite(inserted[..|inserted| - 1])[inserted[|inserted| - 1].ts := inserted[|inserted| - 1]]
  }

  /** The specification: the newest `n` entries of the map, oldest first. */
  ghost predicate IsNewest(list: seq<Candle>, m: map<int, Candle>, n: nat) {
    && Ascending(list)
    && |list| <= n
    && (forall i :: 0 <= i < |list| ==> list[i].ts in m && m[list[i].ts] == list[i])
    && (forall t :: t in m ==> m[t] in list || (|list| == n && forall i :: 0 <= i < |list| ==> t < list[i].ts))
  }

  function CacheRun(n: nat, inserted: seq<Candle>): seq<Candle> {
    if inserted == [] then []
    else Newest(Upsert(CacheRun(n, inserted[..|inserted| - 1]), inserted[|inserted| - 1]), n)
  }

  lemma InsertKeepsNewest(list: seq<Candle>, m: map<int, Candle>, n: nat, c: Candle)
    requires n >= 1 && IsNewest(list, m, n)
    requires forall t :: t in m ==> m[t].ts == t
    ensures IsNewest(Newest(Upsert(list, c), n), m[c.ts := c], n)
  {
    var m' := m[c.ts := c];
    var r := Newest(Upsert(list, c), n);
    NewestFits(Upsert(list, c), n);
    EntriesInMap(list, m, n, c);
    forall t | t in m'
      ensures m'[t] in r || (|r| == n && forall i :: 0 <= i < |r| ==> t < r[i].ts)
    {
      TimeIsCovered(list, m, n, c, t);
    }
    hide Upsert, Newest, Ascending;
  }

  /** A time of the map is in the new list, or older than a full one. */
  lemma TimeIsCovered(list: seq<Candle>, m: map<int, Candle>, n: nat, c: Candle, t: int)
    requires n >= 1 && IsNewest(list, m, n) && t in m[c.ts := c]
    requires forall x :: x in m ==> m[x].ts == x
    ensures var r := Newest(Upsert(list, c), n);
            m[c.ts := c][t] in r || (|r| == n && forall i :: 0 <= i < |r| ==> t < r[i].ts)
  {
    UpsertContents(list, c);
    var u, m' := Upsert(list, c), m[c.ts := c];
    hide Upsert, Newest, Ascending;
    if m'[t] in u {
      InUpsert(u, n, m'[t]);
    } else {
      BeforeUpsert(list, u, n, c, t);
    }
  }

  lemma EntriesInMap(list: seq<Candle>, m: map<int, Candle>, n: nat, c: Candle)
    requires IsNewest(list, m, n)
    ensures var r, m' := Newest(Upsert(list, c), n), m[c.ts := c];
            Ascending(r) && forall i :: 0 <= i < |r| ==> r[i].ts in m' && m'[r[i].ts] == r[i]
  {
    UpsertContents(list, c);
    var u, m' := Upsert(list, c), m[c.ts := c];
    hide Upsert;
    forall x | x in u
      ensures x.ts in m' && m'[x.ts] == x
    {
      if x != c {
        var i :| 0 <= i < |list| && list[i] == x;
      }
    }
    hide IsNewest;
    NewestKeeps(u, n);
    hide Ascending, Newest;
    var r := Newest(u, n);
    forall i | 0 <= i < |r|
      ensures r[i].ts in m' && m'[r[i].ts] == r[i]
    {
      assert r[i] in r;
    }
  }

  lemma NewestFits(u: seq<Candle>, n: nat)
    ensures |Newest(u, n)| <= n
  {
  }

  lemma NewestKeeps(u: seq<Candle>, n: nat)
    requires Ascending(u)
    ensures Ascending(Newest(u, n)) && forall x :: x in Newest(u, n) ==> x in u
  {
  }

  lemma InUpsert(u: seq<Candle>, n: nat, x: Candle)
    requires Ascending(u) && x in u
    ensures var r := Newest(u, n);
            x in r || (|r| == n && forall i :: 0 <= i < |r| ==> x.ts < r[i].ts)
  {
    var p :| 0 <= p < |u| && u[p] == x;
    var r := Newest(u, n);
    if p >= |u| - |r| {
      assert r[p - (|u| - |r|)] == x;
    }
  }

  lemma BeforeUpsert(list: seq<Candle>, u: seq<Candle>, n: nat, c: Candle, t: int)
    requires n >= 1 && Ascending(list) && |list| == n && u == Upsert(list, c)
    requires forall i :: 0 <= i < |list| ==> t < list[i].ts
    ensures var r := Newest(u, n);
            |r| == n && forall i :: 0 <= i < |r| ==> t < r[i].ts
  {
    UpsertContents(list, c);
    var r := Newest(u, n);
    forall i | 0 <= i < |r|
      ensures t < r[i].ts
    {
      if |u| == n {
        var j :| 0 <= j < |list| && list[j].ts == c.ts;
        assert r[i] in u;
      } else {
        assert u[0] in u && u[0].ts < u[i + 1].ts && r[i] == u[i + 1] && u[i + 1] in u;
      }
    }
  }

  lemma {:induction false} LastWriteKeys(inserted: seq<Candle>)
    ensures forall t :: t in LastWrite(inserted) ==> LastWrite(inserted)[t].ts == t
  {
    if inserted != [] {
      LastWriteKeys(inserted[..|inserted| - 1]);
    }
  }

  /** Whatever the insertion order, the list holds the newest entries of the last-write-wins map. */
  lemma {:induction false} CacheRefinesMap(n: nat, inserted: seq<Candle>)
    requires n >= 1
    ensures IsNewest(CacheRun(n, inserted), LastWrite(inserted), n)
  {
    if inserted != [] {
      var init, c := inserted[..|inserted| - 1], inserted[|inserted| - 1];
      CacheRefinesMap(n, init);
      LastWriteKeys(init);
      InsertKeepsNewest(CacheRun(n, init), LastWrite(init), n, c);
    }
  }

  lemma NewestUnique(a: seq<Candle>, b: seq<Candle>, m: map<int, Candle>, n: nat)
    requires IsNewest(a, m, n) && IsNewest(b, m, n)
    ensures a == b
  {
    forall x | x in a
      ensures x in b
    {
      NewestContained(a, b, m, n, x);
    }
    forall x | x in b
      ensures x in a
    {
      NewestContained(b, a, m, n, x);
    }
    SameElementsSameList(a, b);
  }

  lemma NewerContained(a: seq<Candle>, b: seq<Candle>, m: map<int, Candle>, n: nat, x: Candle, y: Candle)
    requires IsNewest(a, m, n) && IsNewest(b, m, n) && x in a && y in b && x.ts < y.ts
    ensures y in a
  {
    assert y.ts in m && m[y.ts] == y;
  }

  lemma NewestContained(a: seq<Candle>, b: seq<Candle>, m: map<int, Candle>, n: nat, x: Candle)
    requires IsNewest(a, m, n) && IsNewest(b, m, n) && x in a
    ensures x in b
  {
    if x !in b {
      assert x.ts in m && m[x.ts] == x;
      forall y | y in b
        ensures y in a && y != x
      {
        NewerContained(a, b, m, n, x, y);
      }
      MoreElements(b, a, x);
    }
  }

  /** An ascending list whose elements all lie in `a`, with one more in `a`, is shorter. */
  lemma MoreElements(b: seq<Candle>, a: seq<Candle>, x: Candle)
    requires Ascending(a) && Ascending(b) && x in a
    requires forall y :: y in b ==> y in a && y != x
    ensures |b| < |a|
  {
    AscendingSet(a);
    AscendingSet(b);
    var sa, sb := (set y | y in a), (set y | y in b);
    assert x in sa && x !in sb;
    assert sb <= sa;
    ProperSubset(sb, sa);
  }

  lemma ProperSubset<T>(s: set<T>, t: set<T>)
    requires s < t
    ensures |s| < |t|
  {
    var x :| x in t && x !in s;
    assert s <= t - {x};
    SubsetSize(s, t - {x});
  }

  lemma {:induction false} SubsetSize<T>(s: set<T>, t: set<T>)
    requires s <= t
    ensures |s| <= |t|
    decreases s
  {
    if s != {} {
      var x :| x in s;
      SubsetSize(s - {x}, t - {x});
    }
  }

  lemma {:induction false} AscendingSet(a: seq<Candle>)
    requires Ascending(a)
    ensures |(set y | y in a)| == |a|
  {
    if a != [] {
      var init, last := a[..|a| - 1], a[|a| - 1];
      AscendingSet(init);
      assert (set y | y in a) == (set y | y in init) + {last};
      assert last !in init;
    }
  }

  lemma {:induction false} SameElementsSameList(a: seq<Candle>, b: seq<Candle>)
    requires Ascending(a) && Ascending(b)
    requires forall x :: x in a <==> x in b
    ensures a == b
  {
    if a == [] {
      assert forall i :: 0 <= i < |b| ==> b[i] in b;
    } else {
      assert a[|a| - 1] in b;
      var a', b' := a[..|a| - 1], b[..|b| - 1];
      var x, y := a[|a| - 1], b[|b| - 1];
      assert y in a;
      assert x == y;
      forall z
        ensures z in a' <==> z in b'
      {
        assert z in a <==> z in a' || z == x;
        assert z in b <==> z in b' || z == y;
        assert x !in a' && y !in b';
      }
      SameElementsSameList(a', b');
    }
  }

  lemma {:induction false} LastWriteOfDistinct(inserted: seq<Candle>)
    requires forall i, j :: 0 <= i < j < |inserted| ==> inserted[i].ts != inserted[j].ts
    ensures forall t, c :: t in LastWrite(inserted) && LastWrite(inserted)[t] == c <==> c in inserted && c.ts == t
  {
    if inserted != [] {
      var init, last := inserted[..|inserted| - 1], inserted[|inserted| - 1];
      LastWriteOfDistinct(init);
      forall t, c
        ensures t in LastWrite(inserted) && LastWrite(inserted)[t] == c <==> c in inserted && c.ts == t
      {
        assert c in inserted <==> c in init || c == last;
        assert c in init ==> c.ts != last.ts;
      }
    }
  }

  lemma {:induction false} MultisetMember(a: seq<Candle>, b: seq<Candle>)
    requires multiset(a) == multiset(b)
    ensures forall x :: x in a <==> x in b
  {
    forall x
      ensures x in a <==> x in b
    {
      assert x in a <==> x in multiset(a);
      assert x in b <==> x in multiset(b);
    }
  }

  ghost predicate DistinctTimes(inserted: seq<Candle>) {
    forall i, j :: 0 <= i < j < |inserted| ==> inserted[i].ts != inserted[j].ts
  }

  /** With distinct times, any two orders of insertion leave the same list. */
  lemma InsertionOrderIrrelevant(n: nat, a: seq<Candle>, b: seq<Candle>)
    requires n >= 1 && multiset(a) == multiset(b)
    requires DistinctTimes(a) && DistinctTimes(b)
    ensures CacheRun(n, a) == CacheRun(n, b)
  {
    hide CacheRun, IsNewest;
    CacheRefinesMap(n, a);
    CacheRefinesMap(n, b);
    LastWriteOfDistinct(a);
    LastWriteOfDistinct(b);
    MultisetMember(a, b);
    var ma, mb := LastWrite(a), LastWrite(b);
    assert forall t :: t in ma ==> t in mb && mb[t] == ma[t];
    assert forall t :: t in mb ==> t in ma;
    assert ma == mb;
    NewestUnique(CacheRun(n, a), CacheRun(n, b), ma, n);
  }

  // ----- All lists -----

  function KeyOf(c: Candle): Key {
    Key(c.token, c.interval)
  }

  function OfKey(inserted: seq<Candle>, k: Key): seq<Candle> {
    if inserted == [] then []
    else
      OfKey(inserted[..|inserted| - 1], k) +
      if KeyOf(inserted[|inserted| - 1]) == k then [inserted[|inserted| - 1]] else []
  }

  lemma OfKeySnoc(inserted: seq<Candle>, c: Candle, k: Key)
    ensures OfKey(inserted + [c], k) == OfKey(inserted, k) + if KeyOf(c) == k then [c] else []
  {
    assert (inserted + [c])[..|inserted|] == inserted;
  }

  lemma CacheRunSnoc(n: nat, inserted: seq<Candle>, c: Candle)
    ensures CacheRun(n, inserted + [c]) == Newest(Upsert(CacheRun(n, inserted), c), n)
  {
    assert (inserted + [c])[..|inserted|] == inserted;
  }

  function ListOf(cache: map<Key, seq<Candle>>, k: Key): seq<Candle> {
    if k in cache then cache[k] else []
  }

  /** Every stored list is what its own insertions leave. */
  ghost predicate Agrees(cache: map<Key, seq<Candle>>, n: nat, inserted: seq<Candle>) {
    forall k :: ListOf(cache, k) == CacheRun(n, OfKey(inserted, k))
  }

  lemma AgreesAt(cache: map<Key, seq<Candle>>, n: nat, inserted: seq<Candle>, c: Candle, r: seq<Candle>, k: Key)
    requires Agrees(cache, n, inserted)
    requires r == Newest(Upsert(ListOf(cache, KeyOf(c)), c), n)
    ensures ListOf(cache[KeyOf(c) := r], k) == CacheRun(n, OfKey(inserted + [c], k))
  {
    OfKeySnoc(inserted, c, k);
    CacheRunSnoc(n, OfKey(inserted, k), c);
    assert ListOf(cache, k) == CacheRun(n, OfKey(inserted, k));
    if k != KeyOf(c) {
      assert OfKey(inserted, k) + [] == OfKey(inserted, k);
    }
  }

  lemma AgreesAfter(cache: map<Key, seq<Candle>>, n: nat, inserted: seq<Candle>, c: Candle, r: seq<Candle>)
    requires Agrees(cache, n, inserted)
    requires r == Newest(Upsert(ListOf(cache, KeyOf(c)), c), n)
    ensures Agrees(cache[KeyOf(c) := r], n, inserted + [c])
  {
    forall k
      ensures ListOf(cache[KeyOf(c) := r], k) == CacheRun(n, OfKey(inserted + [c], k))
    {
      AgreesAt(cache, n, inserted, c, r, k);
    }
  }

  lemma StoredListAscends(cache: map<Key, seq<Candle>>, n: nat, inserted: seq<Candle>, k: Key)
    requires n >= 1 && Agrees(cache, n, inserted)
    ensures Ascending(ListOf(cache, k))
  {
    CacheRefinesMap(n, OfKey(inserted, k));
  }

  class CandleCache {
    const maxCandles: nat
    var cache: map<Key, seq<Candle>>
    /** Everything ever inserted, in order. */
    ghost var inserted: seq<Candle>

    ghost predicate Valid()
      reads this
    {
      maxCandles >= 1 && Agrees(cache, maxCandles, inserted)
    }

    constructor (limit: int := 800)
      ensures Valid() && inserted == []
      ensures maxCandles == if limit == 0 then 800 else MaxInt(1, limit)
    {
      maxCandles := if limit == 0 then 800 else MaxInt(1, limit);
      cache := map[];
      inserted := [];
    }

    /** `None` stands for a candle the guards drop: absent, or without a finite key or time. */
    method AddCandle(candle: Option<Candle>)
      requires Valid()
      modifies this
      ensures Valid()
      ensures inserted == old(inserted) + if candle.Some? then [candle.value] else []
    {
      if candle.None? {
        return;
      }
      var c := candle.value;
      var key := KeyOf(c);
      var arr := if key in cache then cache[key] else [];
      hide Agrees, CacheRun, LastWrite, OfKey, Upsert, Ascending;
      assert arr == ListOf(cache, key);
      StoredListAscends(cache, maxCandles, inserted, key);
      arr := PlaceWithin(arr, c, maxCandles);
      AgreesAfter(cache, maxCandles, inserted, c, arr);
      cache := cache[key := arr];
      inserted := inserted + [c];
    }

    /** Places a candle and evicts from the front what exceeds the limit. */
    static method PlaceWithin(list: seq<Candle>, c: Candle, limit: nat) returns (arr: seq<Candle>)
      requires Ascending(list)
      ensures arr == Newest(Upsert(list, c), limit)
    {
      hide Upsert;
      arr := Place(list, c);
      if |arr| > limit {
        arr := arr[|arr| - limit..];
      }
    }

    /** Appends, overwrites or splices, looking for the place only when the candle is not the newest. */
    static method Place(list: seq<Candle>, c: Candle) returns (arr: seq<Candle>)
      requires Ascending(list)
      ensures arr == Upsert(list, c)
    {
      arr := list;
      if |arr| == 0 {
        arr := [c];
      } else {
        var last := arr[|arr| - 1];
        if c.ts > last.ts {
          UpsertAt(list, c, |list|);
          arr := arr + [c];
        } else if c.ts == last.ts {
          UpsertAt(list, c, |list| - 1);
          arr := arr[|arr| - 1 := c];
        } else {
          var idx := 0;
          while idx < |arr| && arr[idx].ts <= c.ts
            invariant 0 <= idx <= |arr|
            invariant forall j :: 0 <= j < idx ==> arr[j].ts <= c.ts
          {
            idx := idx + 1;
          }
          if idx > 0 && arr[idx - 1].ts == c.ts {
            UpsertAt(list, c, idx - 1);
            arr := arr[idx - 1 := c];
          } else {
            UpsertAt(list, c, idx);
            arr := arr[..idx] + [c] + arr[idx..];
          }
        }
      }
    }

    method AddCandles(candles: seq<Option<Candle>>)
      requires Valid()
      modifies this
      ensures Valid()
      ensures inserted == old(inserted) + Present(candles)
    {
      var i := 0;
      while i < |candles|
        invariant 0 <= i <= |candles|
        invariant Valid()
        invariant inserted == old(inserted) + Present(candles[..i])
      {
        AddCandle(candles[i]);
        assert candles[..i + 1][..i] == candles[..i];
        i := i + 1;
      }
      assert candles[..i] == candles;
    }

    /** The newest candles of one key; a zero limit asks for all that are kept. */
    method GetCandles(token: int, interval: Minutes, limit: int) returns (r: seq<Candle>)
      requires Valid()
      ensures IsNewest(r, LastWrite(OfKey(inserted, Key(token, interval))),
                       if limit == 0 then maxCandles else MinInt(maxCandles, MaxInt(1, limit)))
    {
      var key := Key(token, interval);
      CacheRefinesMap(maxCandles, OfKey(inserted, key));
      LastWriteKeys(OfKey(inserted, key));
      var arr := if key in cache then cache[key] else [];
      assert arr == ListOf(cache, key);
      if |arr| == 0 {
        return [];
      }
      if limit == 0 {
        return arr;
      }
      var lim := MaxInt(1, limit);
      r := if |arr| <= lim then arr else arr[|arr| - lim..];
      SuffixIsNewest(arr, LastWrite(OfKey(inserted, key)), maxCandles, lim);
    }
  }

  function Present(candles: seq<Option<Candle>>): seq<Candle> {
    if candles == [] then []
    else
      var last := candles[|candles| - 1];
      Present(candles[..|candles| - 1]) + if last.Some? then [last.value] else []
  }

  lemma SuffixIsNewest(list: seq<Candle>, m: map<int, Candle>, n: nat, lim: nat)
    requires IsNewest(list, m, n) && lim >= 1
    requires forall t :: t in m ==> m[t].ts == t
    ensures IsNewest(Newest(list, lim), m, MinInt(n, lim))
  {
    var r := Newest(list, lim);
    forall t | t in m
      ensures m[t] in r || (|r| == MinInt(n, lim) && forall i :: 0 <= i < |r| ==> t < r[i].ts)
    {
      if m[t] in list {
        var p :| 0 <= p < |list| && list[p] == m[t];
        if p >= |list| - |r| {
          assert r[p - (|list| - |r|)] == m[t];
        }
      }
    }
  }
}

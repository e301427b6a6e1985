/** A stable sort by a three-level rank, and filtering, as `Array.prototype.sort` and `filter` do them. */
module Sorting {
  import opened Common

  /** Better ranks come first: `first` before not, then smaller `second`, then smaller `third`. */
  datatype Rank = Rank(first: bool, second: real, third: real)

  predicate Le(a: Rank, b: Rank) {
    if a.first != b.first then a.first
    else if a.second != b.second then a.second < b.second
    else a.third <= b.third
  }

  /** Places `x` after everything that does not rank behind it. */
  function Insert<T>(s: seq<T>, x: T, rank: T -> Rank): seq<T> {
    if s == [] then [x]
    else if Le(rank(s[0]), rank(x)) then [s[0]] + Insert(s[1..], x, rank)
    else [x] + s
  }

  function SortBy<T>(s: seq<T>, rank: T -> Rank): seq<T> {
    if s == [] then [] else Insert(SortBy(s[..|s| - 1], rank), s[|s| - 1], rank)
  }

  ghost predicate Ranked<T>(s: seq<T>, rank: T -> Rank) {
    forall i, j :: 0 <= i <= j < |s| ==> Le(rank(s[i]), rank(s[j]))
  }

  lemma {:induction false} InsertRanks<T>(s: seq<T>, x: T, rank: T -> Rank)
    requires Ranked(s, rank)
    ensures Ranked(Insert(s, x, rank), rank)
    ensures multiset(Insert(s, x, rank)) == multiset(s) + multiset{x}
  {
    InsertAdds(s, x, rank);
    var r := Insert(s, x, rank);
    if s != [] && Le(rank(s[0]), rank(x)) {
      InsertRanks(s[1..], x, rank);
      InsertAdds(s[1..], x, rank);
      var t := Insert(s[1..], x, rank);
      assert r == [s[0]] + t;
      hide Insert;
      forall i, j | 0 <= i <= j < |r|
        ensures Le(rank(r[i]), rank(r[j]))
      {
        if i == 0 && j > 0 {
          assert t[j - 1] in multiset(t);
          assert t[j - 1] == x || t[j - 1] in s[1..];
        }
      }
    }
  }

  lemma {:induction false} InsertAdds<T>(s: seq<T>, x: T, rank: T -> Rank)
    ensures multiset(Insert(s, x, rank)) == multiset(s) + multiset{x}
  {
    if s != [] {
      assert s == [s[0]] + s[1..];
      InsertAdds(s[1..], x, rank);
    }
  }

  lemma {:induction false} SortRanks<T>(s: seq<T>, rank: T -> Rank)
    ensures Ranked(SortBy(s, rank), rank)
    ensures multiset(SortBy(s, rank)) == multiset(s)
  {
    if s != [] {
      SortRanks(s[..|s| - 1], rank);
      InsertRanks(SortBy(s[..|s| - 1], rank), s[|s| - 1], rank);
      assert s == s[..|s| - 1] + [s[|s| - 1]];
    }
  }

  function Filter<T>(s: seq<T>, p: T -> bool): seq<T> {
    if s == [] then []
    else Filter(s[..|s| - 1], p) + if p(s[|s| - 1]) then [s[|s| - 1]] else []
  }

  /** `e` has exactly the elements of `s` that satisfy `p`. */
  ghost predicate Selects<T(!new)>(e: seq<T>, s: seq<T>, p: T -> bool) {
    forall x :: x in e <==> x in s && p(x)
  }

  lemma {:induction false} FilterMembers<T(!new)>(s: seq<T>, p: T -> bool)
    ensures Selects(Filter(s, p), s, p)
  {
    if s != [] {
      FilterMembers(s[..|s| - 1], p);
      assert forall x :: x in s <==> x in s[..|s| - 1] || x == s[|s| - 1];
    }
  }

  lemma {:induction false} FilterRanked<T(!new)>(s: seq<T>, p: T -> bool, rank: T -> Rank)
    requires Ranked(s, rank)
    ensures Ranked(Filter(s, p), rank)
  {
    if s != [] {
      var init, last := s[..|s| - 1], s[|s| - 1];
      FilterRanked(init, p, rank);
      FilterMembers(init, p);
      var f := Filter(init, p);
      forall i | 0 <= i < |f|
        ensures Le(rank(f[i]), rank(last))
      {
        assert f[i] in f;
        assert f[i] in init;
      }
    }
  }

  ghost predicate SameElements<T(!new)>(a: seq<T>, b: seq<T>) {
    forall x :: x in a <==> x in b
  }

  lemma SortMembers<T(!new)>(s: seq<T>, rank: T -> Rank)
    ensures SameElements(SortBy(s, rank), s)
  {
    SortRanks(s, rank);
    forall x
      ensures x in SortBy(s, rank) <==> x in s
    {
      assert x in SortBy(s, rank) <==> x in multiset(SortBy(s, rank));
      assert x in s <==> x in multiset(s);
    }
  }

  /**
   The first survivor of a sorted list is a least element among the survivors, and there is one unless none exists.
   */
  lemma FirstIsLeast<T(!new)>(s: seq<T>, p: T -> bool, rank: T -> Rank)
    ensures var e := Filter(SortBy(s, rank), p);
            && (e == [] <==> forall x :: x in s ==> !p(x))
            && (e != [] ==> e[0] in s && p(e[0]) && forall x :: x in s && p(x) ==> Le(rank(e[0]), rank(x)))
  {
    hide SortBy, Filter;
    SortRanks(s, rank);
    SortMembers(s, rank);
    FilterMembers(SortBy(s, rank), p);
    FilterRanked(SortBy(s, rank), p, rank);
    HeadLeast(Filter(SortBy(s, rank), p), rank);
  }

  lemma HeadLeast<T(!new)>(e: seq<T>, rank: T -> Rank)
    requires Ranked(e, rank)
    ensures e == [] <==> forall x :: x !in e
    ensures e != [] ==> e[0] in e && forall x :: x in e ==> Le(rank(e[0]), rank(x))
  {
    if e != [] {
      assert e[0] in e;
    }
  }

  function Head<T>(s: seq<T>): Option<T> {
    if s == [] then None else Some(s[0])
  }

  /**
   A stable sort keeps the first of several best elements in front: a newcomer leads only by ranking strictly ahead.
   */
  lemma HeadOfLonger<T(!new)>(s: seq<T>, x: T, rank: T -> Rank)
    ensures Head(SortBy(s + [x], rank)) ==
            match Head(SortBy(s, rank))
            case None => Some(x)
            case Some(h) => Some(if Le(rank(h), rank(x)) then h else x)
  {
    assert (s + [x])[..|s|] == s;
  }

  lemma FilterOfLonger<T>(s: seq<T>, x: T, p: T -> bool)
    ensures Filter(s + [x], p) == Filter(s, p) + if p(x) then [x] else []
  {
    assert (s + [x])[..|s|] == s;
  }

  /** Filtering first and sorting then also puts a least survivor in front. */
  lemma LeastSurvivor<T(!new)>(s: seq<T>, p: T -> bool, rank: T -> Rank)
    ensures var h := Head(SortBy(Filter(s, p), rank));
            && (h.None? <==> forall x :: x in s ==> !p(x))
            && (h.Some? ==> h.value in s && p(h.value) && forall x :: x in s && p(x) ==> Le(rank(h.value), rank(x)))
  {
    hide SortBy, Filter;
    FilterMembers(s, p);
    SortRanks(Filter(s, p), rank);
    SortMembers(Filter(s, p), rank);
    HeadLeast(SortBy(Filter(s, p), rank), rank);
  }

  function HasRank<T>(rank: T -> Rank, k: Rank): T -> bool {
    (x: T) => rank(x) == k
  }

  lemma {:induction false} FilterJoins<T>(a: seq<T>, b: seq<T>, p: T -> bool)
    ensures Filter(a + b, p) == Filter(a, p) + Filter(b, p)
  {
    if b == [] {
      assert a + b == a;
    } else {
      FilterJoins(a, b[..|b| - 1], p);
      assert (a + b)[..|a + b| - 1] == a + b[..|b| - 1];
    }
  }

  lemma {:induction false} NoneKept<T>(s: seq<T>, p: T -> bool)
    requires forall x :: x in s ==> !p(x)
    ensures Filter(s, p) == []
  {
    if s != [] {
      assert forall x :: x in s[..|s| - 1] ==> x in s;
      NoneKept(s[..|s| - 1], p);
    }
  }

  lemma {:induction false} InsertGoesLast<T>(s: seq<T>, x: T, rank: T -> Rank, k: Rank)
    requires Ranked(s, rank)
    ensures Filter(Insert(s, x, rank), HasRank(rank, k)) == Filter(s + [x], HasRank(rank, k))
  {
    var p := HasRank(rank, k);
    FilterJoins(s, [x], p);
    if s == [] {
      assert s + [x] == [x];
    } else if Le(rank(s[0]), rank(x)) {
      InsertGoesLast(s[1..], x, rank, k);
      FilterJoins([s[0]], Insert(s[1..], x, rank), p);
      FilterJoins([s[0]], s[1..] + [x], p);
      assert s + [x] == [s[0]] + (s[1..] + [x]);
    } else {
      FilterJoins([x], s, p);
      BehindAreOthers(s, x, rank, k);
    }
  }

  lemma BehindAreOthers<T>(s: seq<T>, x: T, rank: T -> Rank, k: Rank)
    requires Ranked(s, rank) && s != [] && !Le(rank(s[0]), rank(x))
    ensures var p := HasRank(rank, k);
            Filter([x], p) + Filter(s, p) == Filter(s, p) + Filter([x], p)
  {
    var p := HasRank(rank, k);
    assert [x][..0] == [] && Filter([], p) == [];
    if rank(x) == k {
      forall y | y in s
        ensures !p(y)
      {
        var i :| 0 <= i < |s| && s[i] == y;
        assert Le(rank(s[0]), rank(s[i]));
      }
      NoneKept(s, p);
    }
  }

  /** The sort is stable: elements of one rank stay in the order they came. */
  lemma {:induction false} SortIsStable<T>(s: seq<T>, rank: T -> Rank, k: Rank)
    ensures Filter(SortBy(s, rank), HasRank(rank, k)) == Filter(s, HasRank(rank, k))
  {
    if s != [] {
      var init, last, p := s[..|s| - 1], s[|s| - 1], HasRank(rank, k);
      SortIsStable(init, rank, k);
      SortRanks(init, rank);
      InsertGoesLast(SortBy(init, rank), last, rank, k);
      FilterJoins(SortBy(init, rank), [last], p);
      FilterJoins(init, [last], p);
      assert s == init + [last];
    }
  }
}

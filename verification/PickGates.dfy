/** The gates, the wall and the ranking of the contract pick, as inequalities on the numbers of a row. */
module PickGates {
  import opened Common
  import opened Sorting
  import opened OptionsRouter

  // ---------- the gates ----------

  /** The spread limit is the setting, a quarter more from stage 1 on, cut to 88 percent about to expire. */
  lemma SpreadLimit(s: Settings, c: Chain, stage: nat)
    ensures var m, soon := s.maxSpread, s.hardening && c.dte.Some? && c.dte.value <= 1.0;
            && (stage == 0 && !soon ==> MaxBps(s, c, stage) == m)
            && (stage >= 1 && !soon ==> MaxBps(s, c, stage) == m + m / 4.0)
            && (stage == 0 && soon ==> MaxBps(s, c, stage) == m - 0.12 * m)
            && (stage >= 1 && soon ==> MaxBps(s, c, stage) == m + 0.1 * m)
  {
  }

  predicate Within(x: Option<real>, low: real, high: real) {
    x.Some? && low <= x.value <= high
  }

  /** The order book of a row that passes; `soon` says that the hardened limits apply. */
  predicate GoodBook(s: Settings, soon: bool, r: Row) {
    && (r.spreadChange.Some? ==> r.spreadChange.value <= s.spreadRise)
    && r.flicker <= s.flickerBlock
    && (r.health.Some? ==> r.health.value - s.minHealth >= if soon then 5.0 else 0.0)
    && r.depth >= s.minDepth && (soon ==> r.depth >= s.hardMinDepth)
    && (s.minDepth <= 0.0 && !(soon && s.hardMinDepth > 0.0) ==> r.depth > 0.0)
    && (s.liqEnabled ==> GoodPool(s, r))
  }

  predicate GoodPool(s: Settings, r: Row) {
    && (s.liqEnabled ==> LiqScore(r, s.liqMaxSpread) >= s.liqMinScore)
    && r.spread.Some? && r.spread.value <= s.liqMaxSpread
    && r.depth >= s.liqMinDepth && r.depth >= 0.0
    && r.volume >= s.liqMinVolume && r.volume >= 0.0
    && r.oi >= s.liqMinOi && r.oi >= 0.0
  }

  predicate GoodGreeks(s: Settings, dte: Option<real>, stage: nat, r: Row) {
    && (s.greeksRequired ==> r.iv.Some? && r.gamma.Some?)
    && (r.iv.Some? ==> r.iv.value <= s.ivMax)
    && (r.ivChange.Some? ==> r.ivChange.value + s.ivDrop >= 0.0)
    && (s.deltaEnforce && stage in {0, 1, 2} ==>
          && (s.greeksRequired ==> r.delta.Some?)
          && (r.delta.Some? && r.delta.value >= 0.0 ==> s.deltaMin <= r.delta.value <= s.deltaMax)
          && (r.delta.Some? && r.delta.value < 0.0 ==> s.deltaMin <= -r.delta.value <= s.deltaMax))
    && (r.gamma.Some? && dte.Some? && dte.value <= s.gammaGateDte && stage in {0, 1, 2, 3} ==>
          r.gamma.value <= s.gammaMax)
  }

  /** Strictly on the near side of the wall. */
  predicate Clear(s: Settings, wall: Option<Wall>, r: Row) {
    wall.Some? && s.wallBlock ==>
      && (s.isCall ==> r.strike < wall.value.strike)
      && (!s.isCall ==> r.strike > wall.value.strike)
  }

  lemma PoolInNumbers(s: Settings, r: Row)
    ensures LiqOk(s, r) <==> GoodPool(s, r)
  {
    hide LiqScore;
  }

  /**
   A row passes every gate but the premium band exactly when its spread is within the limit, its book and greeks are
   good and it stands clear of the wall.
   */
  lemma GatesExact(s: Settings, c: Chain, stage: nat, r: Row)
    ensures var soon := s.hardening && c.dte.Some? && c.dte.value <= 1.0;
            HardOk(s, c, stage, r) <==>
            && r.spread.Some? && r.spread.value <= MaxBps(s, c, stage)
            && GoodBook(s, soon, r) && GoodGreeks(s, c.dte, stage, r) && Clear(s, ChainWall(s, c), r)
  {
    hide LiqOk, GoodPool, ChainWall, MaxBps;
    PoolInNumbers(s, r);
  }

  /** What the premium gate, the premium band and the rescue window ask of the last price. */
  lemma PremiumInNumbers(s: Settings, c: Chain, stage: nat, r: Row)
    ensures stage in {0, 1} ==> (PremOk(s, stage, r) <==> r.ltp.Some? ==> s.minPrem <= r.ltp.value <= s.maxPrem)
    ensures stage >= 2 ==>
              (PremOk(s, stage, r) <==> r.ltp.Some? ==> s.minPrem <= r.ltp.value + 25.0 <= s.maxPrem + 50.0)
    ensures Ok(s, c, stage, r) <==> HardOk(s, c, stage, r) && PremOk(s, stage, r)
    ensures Rescued(s, c, stage, r) <==>
            HardOk(s, c, stage, r) && r.ltp.Some? && s.minPrem <= r.ltp.value + s.slackDown
            && r.ltp.value - s.slackUp <= s.maxPrem
    ensures s.requireOk ==> (Eligible(s, c, stage, r) <==> PremOk(s, stage, r) && HardOk(s, c, stage, r))
    ensures !s.requireOk && s.enforcePremBand ==> (Eligible(s, c, stage, r) <==> PremOk(s, stage, r))
    ensures !s.requireOk && !s.enforcePremBand ==> Eligible(s, c, stage, r)
  {
    hide HardOk;
  }

  // ---------- liquidity ----------

  predicate Clamped(x: real, y: real) {
    (x <= 0.0 ==> y == 0.0) && (0.0 <= x <= 100.0 ==> y == x) && (x >= 100.0 ==> y == 100.0)
  }

  /** The score is the base plus up to 45 points, all at no spread and none from the cap on. */
  lemma LiqScoreInNumbers(r: Row, cap: real, share: real)
    requires 0.0 <= share <= 1.0
    ensures var limit := if cap < 1.0 then 1.0 else cap;
            && (r.spread.None? || r.spread.value >= limit ==> Clamped(r.liqBase, LiqScore(r, cap)))
            && (r.spread.Some? && r.spread.value <= 0.0 ==> Clamped(r.liqBase + 45.0, LiqScore(r, cap)))
            && (r.spread.Some? && r.spread.value == share * limit ==>
                  Clamped(r.liqBase + 45.0 - 45.0 * share, LiqScore(r, cap)))
  {
    if r.spread.Some? {
      var limit := if cap < 1.0 then 1.0 else cap;
      QuotientSide(r.spread.value, limit, share);
    }
  }

  lemma QuotientSide(x: real, d: real, share: real)
    requires d >= 1.0
    ensures x >= d ==> x / d >= 1.0
    ensures x <= 0.0 ==> x / d <= 0.0
    ensures x == share * d ==> x / d == share
  {
    var q := x / d;
    assert q * d == x;
    if x >= d && q < 1.0 {
      MulMonoStrict(d, q, 1.0);
    }
    if x <= 0.0 && q > 0.0 {
      MulMonoStrict(d, 0.0, q);
    }
    if x == share * d {
      assert (q - share) * d == 0.0;
    }
  }

  ghost predicate BestFirst(rows: seq<Row>, cap: real) {
    forall i, j :: 0 <= i <= j < |rows| ==> LiqScore(rows[i], cap) >= LiqScore(rows[j], cap)
  }

  /**
   The anchor's scope: rows of the chain that pass the liquidity gate, best score first, at most the top N, and none
   left out that scores higher than one taken or while there was room.
   */
  lemma ScopeInNumbers(s: Settings, c: Chain)
    ensures var scope := ScopedRows(s, c);
            && (forall r :: r in scope ==> r in c.rows && GoodPool(s, r))
            && BestFirst(scope, s.liqMaxSpread)
            && (s.liqTopN > 0 ==> |scope| <= s.liqTopN)
            && forall r :: r in c.rows && GoodPool(s, r) && r !in scope ==>
                 && |scope| == s.liqTopN > 0
                 && forall x :: x in scope ==> LiqScore(x, s.liqMaxSpread) >= LiqScore(r, s.liqMaxSpread)
  {
    hide Filter, SortBy, LiqScore, LiqOk, GoodPool;
    var rank, passes := ByLiquidity(s.liqMaxSpread), PassesLiquidity(s);
    var sorted := SortBy(c.rows, rank);
    var liquid := Filter(sorted, passes);
    SortRanks(c.rows, rank);
    SortMembers(c.rows, rank);
    FilterMembers(sorted, passes);
    FilterRanked(sorted, passes, rank);
    assert forall r :: r in liquid <==> r in c.rows && GoodPool(s, r) by {
      forall r
        ensures LiqOk(s, r) <==> GoodPool(s, r)
      {
        PoolInNumbers(s, r);
      }
    }
    RankedIsBestFirst(liquid, s.liqMaxSpread);
    TakeBest(liquid, s.liqMaxSpread, ScopedRows(s, c));
  }

  lemma RankedIsBestFirst(rows: seq<Row>, cap: real)
    requires Ranked(rows, ByLiquidity(cap))
    ensures BestFirst(rows, cap)
  {
    hide LiqScore;
    forall i, j | 0 <= i <= j < |rows|
      ensures LiqScore(rows[i], cap) >= LiqScore(rows[j], cap)
    {
      assert Le(ByLiquidity(cap)(rows[i]), ByLiquidity(cap)(rows[j]));
    }
  }

  lemma TakeBest(pool: seq<Row>, cap: real, taken: seq<Row>)
    requires BestFirst(pool, cap) && taken <= pool
    ensures BestFirst(taken, cap)
    ensures forall r, x :: r in pool && r !in taken && x in taken ==> LiqScore(x, cap) >= LiqScore(r, cap)
  {
    hide LiqScore;
    forall r, x | r in pool && r !in taken && x in taken
      ensures LiqScore(x, cap) >= LiqScore(r, cap)
    {
      var j :| 0 <= j < |pool| && pool[j] == r;
      var i :| 0 <= i < |taken| && taken[i] == x;
      assert pool[i] == x && i <= j;
    }
  }

  // ---------- the delta anchor ----------

  /** Nearer the target: a delta in the band beats one outside it, then the smaller miss, then the nearer strike. */
  predicate Nearer(s: Settings, fallback: real, b: Row, r: Row)
    requires b.delta.Some? && r.delta.Some?
  {
    var x, y := AbsReal(b.delta.value), AbsReal(r.delta.value);
    var inB, inR := s.deltaMin <= x <= s.deltaMax, s.deltaMin <= y <= s.deltaMax;
    var missB, missR := AbsReal(x - s.deltaTarget), AbsReal(y - s.deltaTarget);
    && (inR ==> inB)
    && (inR == inB ==> missB <= missR)
    && (inR == inB && missB == missR ==> AbsReal(b.strike - fallback) <= AbsReal(r.strike - fallback))
  }

  /** The rows the anchor is sought in: the liquid scope, or the whole chain when nothing in it is liquid. */
  function Pool(s: Settings, c: Chain): seq<Row> {
    if |ScopedRows(s, c)| > 0 then ScopedRows(s, c) else c.rows
  }

  /** The desired strike is the base strike, or that of the pool's row nearest the target delta. */
  lemma DesiredInNumbers(s: Settings, c: Chain)
    ensures !s.deltaNearest || (forall r :: r in Pool(s, c) ==> r.delta.None?) ==> DesiredStrike(s, c) == c.baseStrike
    ensures s.deltaNearest && (exists r :: r in Pool(s, c) && r.delta.Some?) ==>
              exists b :: && b in Pool(s, c) && b.delta.Some? && b.strike == DesiredStrike(s, c)
                          && forall r :: r in Pool(s, c) && r.delta.Some? ==> Nearer(s, c.baseStrike, b, r)
  {
    hide ScopedRows, PickDeltaAnchorStrike;
    var k := PickDeltaAnchorStrike(s, Pool(s, c), c.baseStrike);
    AnchorIsNearest(s, Pool(s, c), c.baseStrike);
    assert s.deltaNearest ==> DesiredStrike(s, c) == k;
    if exists r :: r in Pool(s, c) && r.delta.Some? {
      hide Pool, DesiredStrike;
      var b :| && b in Pool(s, c) && b.delta.Some? && b.strike == k
               && forall r :: r in Pool(s, c) && r.delta.Some? ==>
                    Le(DeltaRank(s, c.baseStrike)(b), DeltaRank(s, c.baseStrike)(r));
      forall r | r in Pool(s, c) && r.delta.Some?
        ensures Nearer(s, c.baseStrike, b, r)
      {
        RankIsNearer(s, c.baseStrike, b, r);
      }
    }
  }

  lemma RankIsNearer(s: Settings, fallback: real, b: Row, r: Row)
    requires b.delta.Some? && r.delta.Some?
    ensures Le(DeltaRank(s, fallback)(b), DeltaRank(s, fallback)(r)) <==> Nearer(s, fallback, b, r)
  {
  }

  // ---------- the wall ----------

  ghost predicate IsAscending(a: seq<real>) {
    forall i, j :: 0 <= i <= j < |a| ==> a[i] <= a[j]
  }

  /** `a` holds the positive open interests of the rows, each as often as it occurs. */
  ghost predicate Collects(a: seq<real>, rows: seq<Row>) {
    forall x :: multiset(a)[x] == if x > 0.0 then multiset(Interests(rows))[x] else 0
  }

  /** The median is the middle one of the positive open interests in order, or halfway between the two middle ones. */
  lemma MedianInNumbers(rows: seq<Row>) returns (a: seq<real>)
    ensures IsAscending(a) && Collects(a, rows)
    ensures a == [] <==> MedianOi(rows).None?
    ensures forall h: nat :: |a| == 2 * h + 1 ==> MedianOi(rows) == Some(a[h])
    ensures forall h: nat :: |a| == 2 * h + 2 ==> MedianOi(rows).Some? && 2.0 * MedianOi(rows).value == a[h] + a[h + 1]
  {
    hide Filter, SortBy;
    var ois := Interests(rows);
    a := SortBy(Filter(ois, Positive()), Ascending());
    SortRanks(Filter(ois, Positive()), Ascending());
    forall i, j | 0 <= i <= j < |a|
      ensures a[i] <= a[j]
    {
      assert Le(Ascending()(a[i]), Ascending()(a[j]));
    }
    forall x
      ensures multiset(a)[x] == if x > 0.0 then multiset(ois)[x] else 0
    {
      FilterKeepsCount(ois, Positive(), x);
    }
  }

  lemma {:induction false} FilterKeepsCount<T>(s: seq<T>, p: T -> bool, x: T)
    ensures multiset(Filter(s, p))[x] == if p(x) then multiset(s)[x] else 0
  {
    if s != [] {
      FilterKeepsCount(s[..|s| - 1], p, x);
      assert s == s[..|s| - 1] + [s[|s| - 1]];
    }
  }

  /** The `i`-th strike out stands at row `n`, the first of that strike, with open interest, growing if it has to. */
  ghost predicate Stands(s: Settings, rows: seq<Row>, desired: real, step: real, i: nat, n: nat) {
    && n < |rows|
    && (s.isCall ==> rows[n].strike == desired + i as real * step)
    && (!s.isCall ==> rows[n].strike == desired - i as real * step)
    && (forall m :: 0 <= m < n ==> rows[m].strike != rows[n].strike)
    && rows[n].oi > 0.0
    && (s.wallNeedsChange ==> rows[n].oiChange.Some? && rows[n].oiChange.value > 0.0)
  }

  lemma {:induction false} FirstAt(rows: seq<Row>, strike: real, n: nat)
    requires n < |rows| && rows[n].strike == strike && forall m :: 0 <= m < n ==> rows[m].strike != strike
    ensures RowAt(rows, strike) == Some(rows[n])
  {
    if n > 0 {
      assert rows[0].strike != strike;
      assert rows[1..][n - 1] == rows[n];
      FirstAt(rows[1..], strike, n - 1);
    }
  }

  lemma {:induction false} FoundFirst(rows: seq<Row>, strike: real) returns (n: nat)
    requires RowAt(rows, strike).Some?
    ensures n < |rows| && rows[n].strike == strike && forall m :: 0 <= m < n ==> rows[m].strike != strike
  {
    n := 0;
    if rows[0].strike != strike {
      n := FoundFirst(rows[1..], strike);
      forall m | 0 <= m < n + 1
        ensures rows[m].strike != strike
      {
        assert m > 0 ==> rows[m] == rows[1..][m - 1];
      }
      n := n + 1;
    }
  }

  lemma WallStrikeInNumbers(s: Settings, desired: real, step: real, i: nat)
    ensures WallStrike(s, desired, step, i) ==
            if s.isCall then desired + i as real * step else desired - i as real * step
  {
  }

  lemma WallAtStands(s: Settings, rows: seq<Row>, desired: real, step: real, i: nat, n: nat)
    requires Stands(s, rows, desired, step, i, n)
    ensures WallAt(s, rows, desired, step, i) == Some(Wall(rows[n].strike, rows[n].oi))
  {
    hide WallStrike, RowAt;
    WallStrikeInNumbers(s, desired, step, i);
    FirstAt(rows, rows[n].strike, n);
  }

  lemma WallAtFound(s: Settings, rows: seq<Row>, desired: real, step: real, i: nat) returns (n: nat)
    requires WallAt(s, rows, desired, step, i).Some?
    ensures Stands(s, rows, desired, step, i, n)
    ensures WallAt(s, rows, desired, step, i) == Some(Wall(rows[n].strike, rows[n].oi))
  {
    hide WallStrike, RowAt;
    WallStrikeInNumbers(s, desired, step, i);
    n := FoundFirst(rows, WallStrike(s, desired, step, i));
    FirstAt(rows, WallStrike(s, desired, step, i), n);
  }

  ghost predicate Reach(s: Settings, i: nat) {
    1 <= i && (i == 1 || i <= s.wallStrikes)
  }

  /** Out of all that stand within reach, the most open interest, the nearest of equals, and enough for a wall. */
  ghost predicate IsWall(s: Settings, c: Chain, i: nat, n: nat) {
    var d, rows := DesiredStrike(s, c), c.rows;
    && Reach(s, i) && Stands(s, rows, d, c.step, i, n)
    && (forall j: nat, m: nat :: Reach(s, j) && Stands(s, rows, d, c.step, j, m) ==>
          rows[m].oi <= rows[n].oi && (rows[m].oi == rows[n].oi ==> i <= j))
    && MedianOi(rows).Some? && rows[n].oi >= MedianOi(rows).value * s.wallMult
  }

  /**
   The wall lies `i` steps above the desired strike for a call and below it for a put; without one, nothing within
   reach has enough open interest.
   */
  lemma WallExact(s: Settings, c: Chain) returns (i: nat, n: nat)
    ensures ChainWall(s, c).Some? ==>
              IsWall(s, c, i, n) && ChainWall(s, c) == Some(Wall(c.rows[n].strike, c.rows[n].oi))
    ensures ChainWall(s, c).None? ==>
              forall j: nat, m: nat :: Reach(s, j) && Stands(s, c.rows, DesiredStrike(s, c), c.step, j, m) ==>
                               MedianOi(c.rows).Some? && c.rows[m].oi < MedianOi(c.rows).value * s.wallMult
  {
    hide DesiredStrike, MedianOi, Stands, WallAt;
    var d, reach := DesiredStrike(s, c), MaxInt(1, s.wallStrikes);
    i := BiggestWallDominates(s, c.rows, d, c.step, reach);
    n := 0;
    MedianIsPositive(c.rows);
    var best := BiggestWall(s, c.rows, d, c.step, reach);
    hide BiggestWall;
    if best.Some? {
      n := WallAtFound(s, c.rows, d, c.step, i);
    }
    forall j: nat, m: nat | Reach(s, j) && Stands(s, c.rows, d, c.step, j, m)
      ensures m < |c.rows| && c.rows[m].oi > 0.0 && c.rows[m] in c.rows && best.Some?
      ensures c.rows[m].oi <= best.value.oi && (c.rows[m].oi == best.value.oi ==> i <= j)
    {
      WallAtStands(s, c.rows, d, c.step, j, m);
      StandsHasInterest(s, c.rows, d, c.step, j, m);
    }
  }

  lemma StandsHasInterest(s: Settings, rows: seq<Row>, desired: real, step: real, i: nat, n: nat)
    requires Stands(s, rows, desired, step, i, n)
    ensures n < |rows| && rows[n].oi > 0.0
  {
  }

  // ---------- ranking and choice ----------

  /**
   The score is that of the distance to the desired strike in steps, with 60 points for a row at or behind the wall
   and 10 for any other beside one.
   */
  lemma ScoreInNumbers(s: Settings, c: Chain, r: Row) returns (steps: real, penalty: real)
    ensures Score(s, c, r) == s.score(r, steps, penalty)
    ensures var away := if r.strike < DesiredStrike(s, c) then DesiredStrike(s, c) - r.strike
                        else r.strike - DesiredStrike(s, c);
            (if c.step > 0.0 then steps * c.step else steps) == away == Distance(s, c, r)
    ensures ChainWall(s, c).None? ==> penalty == 0.0
    ensures ChainWall(s, c).Some? ==>
              var k := ChainWall(s, c).value.strike;
              var hurt := r.strike == k || (r.strike > k && s.isCall) || (r.strike < k && !s.isCall);
              penalty == if hurt then 60.0 else 10.0
  {
    hide ChainWall, DesiredStrike;
    var wall := ChainWall(s, c);
    penalty := if WallBlocks(s, wall, r) then 60.0 else if wall.Some? then 10.0 else 0.0;
    steps := if c.step > 0.0 then Distance(s, c, r) / c.step else Distance(s, c, r);
  }

  /** A smaller score comes first, of equal scores the strike nearer the desired one. */
  predicate NoWorse(s: Settings, c: Chain, p: Row, r: Row) {
    && Score(s, c, p) <= Score(s, c, r)
    && (Score(s, c, p) == Score(s, c, r) ==> Distance(s, c, p) <= Distance(s, c, r))
  }

  lemma RanksInNumbers(s: Settings, c: Chain, stage: nat, p: Row, r: Row)
    ensures Le(RowRank(s, c, stage)(p), RowRank(s, c, stage)(r)) <==>
            && (Ok(s, c, stage, r) ==> Ok(s, c, stage, p))
            && (Ok(s, c, stage, p) == Ok(s, c, stage, r) ==> NoWorse(s, c, p, r))
    ensures Le(RescueRank(s, c)(p), RescueRank(s, c)(r)) <==> NoWorse(s, c, p, r)
  {
    hide Score, Distance, Ok;
  }

  /** A pick is a row of the chain; the fallback makes one only when all its settings are on and nothing is eligible. */
  lemma ChoiceInNumbers(s: Settings, c: Chain, stage: nat)
    ensures var p := Choose(s, c, stage);
            && (p.Some? && !p.value.byFallback ==>
                  && p.value.row in c.rows && Eligible(s, c, stage, p.value.row)
                  && forall r :: r in c.rows && Eligible(s, c, stage, r) ==>
                       && (Ok(s, c, stage, r) ==> Ok(s, c, stage, p.value.row))
                       && (Ok(s, c, stage, p.value.row) == Ok(s, c, stage, r) ==> NoWorse(s, c, p.value.row, r)))
            && (p.None? || p.value.byFallback ==> forall r :: r in c.rows ==> !Eligible(s, c, stage, r))
            && (p.Some? && p.value.byFallback ==>
                  && s.premFallback && s.requireOk && s.enforcePremBand
                  && p.value.row in c.rows && Rescued(s, c, stage, p.value.row)
                  && forall r :: r in c.rows && Rescued(s, c, stage, r) ==> NoWorse(s, c, p.value.row, r))
            && (p.None? && s.premFallback && s.requireOk && s.enforcePremBand ==>
                  forall r :: r in c.rows ==> !Rescued(s, c, stage, r))
  {
    hide Choose, Eligible, Rescued, RowRank, RescueRank, Ok, NoWorse;
    ChoiceIsLeast(s, c, stage);
    forall p, r
      ensures Le(RowRank(s, c, stage)(p), RowRank(s, c, stage)(r)) <==>
              && (Ok(s, c, stage, r) ==> Ok(s, c, stage, p))
              && (Ok(s, c, stage, p) == Ok(s, c, stage, r) ==> NoWorse(s, c, p, r))
      ensures Le(RescueRank(s, c)(p), RescueRank(s, c)(r)) <==> NoWorse(s, c, p, r)
    {
      RanksInNumbers(s, c, stage, p, r);
    }
  }

  /**
   A pick within the limits of its stage: spread, book, greeks and premium, and when it has a wall beside it, `i`
   steps out at row `n`, below that strike for a call and above it for a put.
   */
  ghost predicate KeepsLimits(s: Settings, c: Chain, stage: nat, p: Pick, i: nat, n: nat) {
    var r, soon := p.row, s.hardening && c.dte.Some? && c.dte.value <= 1.0;
    var slack := if stage < 2 then 0.0 else 25.0;
    && r.spread.Some? && r.spread.value <= MaxBps(s, c, stage)
    && GoodBook(s, soon, r) && GoodGreeks(s, c.dte, stage, r)
    && (!p.byFallback && r.ltp.Some? ==> s.minPrem - slack <= r.ltp.value <= s.maxPrem + slack)
    && (p.byFallback ==> r.ltp.Some? && s.minPrem - s.slackDown <= r.ltp.value <= s.maxPrem + s.slackUp)
    && (ChainWall(s, c).Some? && s.wallBlock ==>
          && IsWall(s, c, i, n)
          && (s.isCall ==> r.strike < DesiredStrike(s, c) + i as real * c.step)
          && (!s.isCall ==> r.strike > DesiredStrike(s, c) - i as real * c.step))
  }

  /** With all gates required, every pick keeps the limits of its stage, whether the fallback made it or not. */
  lemma PickKeepsLimits(s: Settings, c: Chain, stage: nat) returns (i: nat, n: nat)
    requires s.requireOk && Choose(s, c, stage).Some?
    ensures Choose(s, c, stage).value.row in c.rows
    ensures KeepsLimits(s, c, stage, Choose(s, c, stage).value, i, n)
  {
    hide Choose, Ok, HardOk, PremOk, Eligible, Rescued, GoodBook, GoodGreeks, NoWorse;
    hide DesiredStrike, ChainWall, MedianOi;
    ChoiceInNumbers(s, c, stage);
    var r := Choose(s, c, stage).value.row;
    PremiumInNumbers(s, c, stage, r);
    GatesExact(s, c, stage, r);
    i, n := WallExact(s, c);
  }
}

/** Drawdown, streaks and grouped reports of src/backtest/analytics.js. */
module Analytics {
  import opened Common
  import opened Sorting

  /** A closed trade; times are milliseconds, `None` when missing, as are excursions and holding time. */
  datatype Trade = Trade(
    exitTs: Option<int>, entryTs: Option<int>, grossPnl: real, netPnl: real, tag: string,
    holdMinutes: Option<real>, mfe: Option<real>, mae: Option<real>)

  function Gross(): Trade -> real {
    (t: Trade) => t.grossPnl
  }

  function Net(): Trade -> real {
    (t: Trade) => t.netPnl
  }

  function SumOf(s: seq<Trade>, f: Trade -> real): real {
    if s == [] then 0.0 else SumOf(s[..|s| - 1], f) + f(s[|s| - 1])
  }

  lemma SumOfLonger(s: seq<Trade>, t: Trade, f: Trade -> real)
    ensures SumOf(s + [t], f) == SumOf(s, f) + f(t)
  {
    assert (s + [t])[..|s|] == s;
  }

  // ---------- losing streaks ----------

  predicate LosingRun(trades: seq<Trade>, a: int, b: int) {
    0 <= a <= b <= |trades| && forall i :: a <= i < b ==> trades[i].netPnl < 0.0
  }

  /** The length of a longest run of consecutive losses. */
  method LongestLosingStreak(trades: seq<Trade>) returns (best: nat)
    ensures exists a, b :: LosingRun(trades, a, b) && b - a == best
    ensures forall a, b :: LosingRun(trades, a, b) ==> b - a <= best
  {
    best := 0;
    var current := 0;
    assert LosingRun(trades, 0, 0);
    for i := 0 to |trades|
      invariant current <= i && LosingRun(trades, i - current, i)
      invariant current < i ==> trades[i - current - 1].netPnl >= 0.0
      invariant exists a, b :: LosingRun(trades, a, b) && b - a == best
      invariant forall a, b :: LosingRun(trades, a, b) && b <= i ==> b - a <= best
    {
      ghost var before := current;
      if trades[i].netPnl < 0.0 {
        current := current + 1;
        best := MaxInt(best, current);
        assert LosingRun(trades, i + 1 - current, i + 1);
      } else {
        current := 0;
      }
      forall a, b | LosingRun(trades, a, b) && b <= i + 1
        ensures b - a <= best
      {
        if b == i + 1 && a <= i {
          assert trades[i].netPnl < 0.0;
          assert a >= i - before by {
            assert a < i - before ==> a <= i - before - 1 < b;
          }
        }
      }
    }
  }

  // ---------- drawdown ----------

  /** Equity after the first `k` trades. */
  function Equity(capital: real, trades: seq<Trade>, k: nat): real
    requires k <= |trades|
  {
    capital + SumOf(trades[..k], Net())
  }

  lemma EquityStep(capital: real, trades: seq<Trade>, k: nat)
    requires k < |trades|
    ensures Equity(capital, trades, k + 1) == Equity(capital, trades, k) + trades[k].netPnl
  {
    assert trades[..k + 1] == trades[..k] + [trades[k]];
    SumOfLonger(trades[..k], trades[k], Net());
  }

  /** `peak` is the highest equity over the first `k` trades, the starting capital included. */
  ghost predicate IsPeak(capital: real, trades: seq<Trade>, k: nat, peak: real) {
    && k <= |trades|
    && (exists i :: 0 <= i <= k && Equity(capital, trades, i) == peak)
    && forall i :: 0 <= i <= k ==> Equity(capital, trades, i) <= peak
  }

  /** `drop` is the deepest fall from any point to a later one within the first `k` trades. */
  ghost predicate IsDeepestDrop(capital: real, trades: seq<Trade>, k: nat, drop: real) {
    && k <= |trades|
    && (exists i, j :: 0 <= i <= j <= k && Equity(capital, trades, i) - Equity(capital, trades, j) == drop)
    && forall i, j :: 0 <= i <= j <= k ==> Equity(capital, trades, i) - Equity(capital, trades, j) <= drop
  }

  lemma PeakStep(capital: real, trades: seq<Trade>, k: nat, peak: real)
    requires IsPeak(capital, trades, k, peak) && k < |trades|
    ensures IsPeak(capital, trades, k + 1, MaxReal(peak, Equity(capital, trades, k + 1)))
  {
    hide Equity;
    var i :| 0 <= i <= k && Equity(capital, trades, i) == peak;
    assert 0 <= i <= k + 1;
  }

  lemma DropStep(capital: real, trades: seq<Trade>, k: nat, peak: real, drop: real)
    requires k < |trades| && IsDeepestDrop(capital, trades, k, drop) && IsPeak(capital, trades, k + 1, peak)
    ensures IsDeepestDrop(capital, trades, k + 1, MaxReal(drop, peak - Equity(capital, trades, k + 1)))
  {
    hide Equity;
    var top :| 0 <= top <= k + 1 && Equity(capital, trades, top) == peak;
    var i, j :| 0 <= i <= j <= k && Equity(capital, trades, i) - Equity(capital, trades, j) == drop;
    assert 0 <= i <= j <= k + 1;
    assert Equity(capital, trades, top) - Equity(capital, trades, k + 1) == peak - Equity(capital, trades, k + 1);
  }

  datatype Point = Point(equity: real, drawdown: real, drawdownPct: real)

  function ByExit(): Trade -> Rank {
    (t: Trade) =>
      var time := if t.exitTs.Some? then t.exitTs.value else if t.entryTs.Some? then t.entryTs.value else 0;
      Rank(true, time as real, 0.0)
  }

  /** The trades in order of exit, those at the same time as they came. */
  function Ordered(trades: seq<Trade>): (o: seq<Trade>) {
    SortBy(trades, ByExit())
  }

  lemma OrderedKeepsTrades(trades: seq<Trade>)
    ensures multiset(Ordered(trades)) == multiset(trades) && |Ordered(trades)| == |trades|
    ensures Ranked(Ordered(trades), ByExit())
  {
    SortRanks(trades, ByExit());
    assert |multiset(Ordered(trades))| == |multiset(trades)|;
  }

  /**
   * What a point of the curve says: equity after its trade, the fall from the highest equity so far, and that fall in
   * percent of the peak.
   */
  ghost predicate OnCurve(capital: real, trades: seq<Trade>, k: nat, p: Point) {
    && 1 <= k <= |trades|
    && p.equity == Equity(capital, trades, k)
    && IsPeak(capital, trades, k, p.equity + p.drawdown)
    && p.drawdownPct == if p.equity + p.drawdown > 0.0 then p.drawdown / (p.equity + p.drawdown) * 100.0 else 0.0
  }

  method BuildClosedTradeCurves(trades: seq<Trade>, startingCapital: real) returns (curve: seq<Point>)
    ensures |curve| == |trades| == |Ordered(trades)|
    ensures forall k :: 0 <= k < |curve| ==> OnCurve(startingCapital, Ordered(trades), k + 1, curve[k])
  {
    hide Equity, IsPeak;
    var ordered := Ordered(trades);
    OrderedKeepsTrades(trades);
    curve := [];
    var equity, peak := startingCapital, startingCapital;
    StartsAtCapital(startingCapital, ordered);
    for k := 0 to |ordered|
      invariant |curve| == k && equity == Equity(startingCapital, ordered, k)
      invariant IsPeak(startingCapital, ordered, k, peak)
      invariant forall i :: 0 <= i < |curve| ==> OnCurve(startingCapital, ordered, i + 1, curve[i])
    {
      EquityStep(startingCapital, ordered, k);
      PeakStep(startingCapital, ordered, k, peak);
      equity := equity + ordered[k].netPnl;
      peak := MaxReal(peak, equity);
      var drawdown := peak - equity;
      var pct := if peak > 0.0 then drawdown / peak * 100.0 else 0.0;
      assert equity + drawdown == peak;
      curve := curve + [Point(equity, drawdown, pct)];
    }
  }

  lemma StartsAtCapital(capital: real, trades: seq<Trade>)
    ensures Equity(capital, trades, 0) == capital
    ensures IsPeak(capital, trades, 0, capital) && IsDeepestDrop(capital, trades, 0, 0.0)
  {
    assert Equity(capital, trades, 0) - Equity(capital, trades, 0) == 0.0;
  }

  /** The drawdown part of the group metrics: one pass from zero over the ordered trades. */
  method MaxDrawdownContribution(trades: seq<Trade>) returns (deepest: real)
    ensures IsDeepestDrop(0.0, Ordered(trades), |Ordered(trades)|, deepest)
  {
    hide Equity, IsPeak, IsDeepestDrop;
    var ordered := Ordered(trades);
    var running, peak := 0.0, 0.0;
    deepest := 0.0;
    StartsAtCapital(0.0, ordered);
    for k := 0 to |ordered|
      invariant running == Equity(0.0, ordered, k)
      invariant IsPeak(0.0, ordered, k, peak)
      invariant IsDeepestDrop(0.0, ordered, k, deepest)
    {
      EquityStep(0.0, ordered, k);
      PeakStep(0.0, ordered, k, peak);
      running := running + ordered[k].netPnl;
      peak := MaxReal(peak, running);
      DropStep(0.0, ordered, k, peak, deepest);
      deepest := MaxReal(deepest, peak - running);
    }
  }

  /** The highest point of a drawdown curve, zero for an empty one. */
  ghost predicate IsHighestDrawdown(curve: seq<Point>, d: real) {
    && (d == 0.0 || exists k :: 0 <= k < |curve| && curve[k].drawdown == d)
    && d >= 0.0 && forall k :: 0 <= k < |curve| ==> curve[k].drawdown <= d
  }

  /**
   * The running-peak curve and the definition agree: its highest point is the deepest fall between any two moments,
   * whatever the starting capital, and so it is also what the group metrics compute from zero.
   */
  lemma HighestDrawdownIsDeepestDrop(capital: real, trades: seq<Trade>, curve: seq<Point>, d: real, drop: real)
    requires |curve| == |trades|
    requires forall k :: 0 <= k < |curve| ==> OnCurve(capital, trades, k + 1, curve[k])
    requires IsHighestDrawdown(curve, d) && IsDeepestDrop(0.0, trades, |trades|, drop)
    ensures d == drop && IsDeepestDrop(capital, trades, |trades|, d)
  {
    hide OnCurve;
    var i, j :| 0 <= i <= j <= |trades| && Equity(0.0, trades, i) - Equity(0.0, trades, j) == drop;
    assert Equity(0.0, trades, 0) - Equity(0.0, trades, 0) == 0.0;
    FallsShowOnTheCurve(capital, trades, curve, d, i, j);
    if d != 0.0 {
      var k :| 0 <= k < |curve| && curve[k].drawdown == d;
      var top := CurvePeak(capital, trades, k + 1, curve[k]);
      assert Equity(0.0, trades, top) - Equity(0.0, trades, k + 1) <= drop;
    }
    assert Equity(capital, trades, i) - Equity(capital, trades, j) == drop;
    forall a, b | 0 <= a <= b <= |trades|
      ensures Equity(capital, trades, a) - Equity(capital, trades, b) <= drop
    {
      assert Equity(0.0, trades, a) - Equity(0.0, trades, b) <= drop;
    }
  }

  lemma CurvePeak(capital: real, trades: seq<Trade>, k: nat, p: Point) returns (top: nat)
    requires OnCurve(capital, trades, k, p)
    ensures top <= k && Equity(capital, trades, top) - Equity(capital, trades, k) == p.drawdown
  {
    hide Equity;
    var i :| 0 <= i <= k && Equity(capital, trades, i) == p.equity + p.drawdown;
    top := i;
  }

  lemma FallsShowOnTheCurve(capital: real, trades: seq<Trade>, curve: seq<Point>, d: real, i: nat, j: nat)
    requires |curve| == |trades| && i <= j <= |trades|
    requires forall k :: 0 <= k < |curve| ==> OnCurve(capital, trades, k + 1, curve[k])
    requires IsHighestDrawdown(curve, d)
    ensures Equity(0.0, trades, i) - Equity(0.0, trades, j) <= d
  {
    if j > 0 {
      var p := curve[j - 1];
      assert OnCurve(capital, trades, j - 1 + 1, p);
      assert Equity(capital, trades, i) <= p.equity + p.drawdown;
    }
  }

  // ---------- group metrics ----------

  function IsWin(): Trade -> bool {
    (t: Trade) => t.netPnl > 0.0
  }

  function IsLoss(): Trade -> bool {
    (t: Trade) => t.netPnl <= 0.0
  }

  function SafeAvg(total: real, count: nat): real {
    if count > 0 then total / (count as real) else 0.0
  }

  /** A profit factor of `None` is infinite. */
  datatype Metrics = Metrics(
    trades: nat, wins: nat, losses: nat, winRate: real, grossPnl: real, netPnl: real, avgWin: real, avgLoss: real,
    payoff: real, expectancy: real, profitFactor: Option<real>, maxDrawdown: real,
    avgHoldMin: real, avgMfe: real, avgMae: real)

  lemma {:induction false} WinsAndLosses(s: seq<Trade>)
    ensures |Filter(s, IsWin())| + |Filter(s, IsLoss())| == |s|
    ensures SumOf(Filter(s, IsWin()), Net()) + SumOf(Filter(s, IsLoss()), Net()) == SumOf(s, Net())
  {
    if s != [] {
      var init, last := s[..|s| - 1], s[|s| - 1];
      WinsAndLosses(init);
      assert Filter(init, IsWin()) + [] == Filter(init, IsWin());
      assert Filter(init, IsLoss()) + [] == Filter(init, IsLoss());
      SumOfLonger(Filter(init, IsWin()), last, Net());
      SumOfLonger(Filter(init, IsLoss()), last, Net());
    }
  }

  lemma AverageTimesCount(total: real, count: nat)
    ensures count > 0 ==> SafeAvg(total, count) * (count as real) == total
  {
  }

  /** Winning trades sum to a profit, losing ones to no profit. */
  lemma {:induction false} SumsHaveSigns(s: seq<Trade>)
    ensures var wins, losses := Filter(s, IsWin()), Filter(s, IsLoss());
            && SumOf(wins, Net()) >= 0.0 && (wins != [] ==> SumOf(wins, Net()) > 0.0) && SumOf(losses, Net()) <= 0.0
  {
    if s != [] {
      var init, last := s[..|s| - 1], s[|s| - 1];
      SumsHaveSigns(init);
      assert Filter(init, IsWin()) + [] == Filter(init, IsWin());
      assert Filter(init, IsLoss()) + [] == Filter(init, IsLoss());
      SumOfLonger(Filter(init, IsWin()), last, Net());
      SumOfLonger(Filter(init, IsLoss()), last, Net());
    }
  }

  // ---------- averages of what is known ----------

  function Known(f: Trade -> Option<real>): Trade -> bool {
    (t: Trade) => f(t).Some?
  }

  function ValueOf(f: Trade -> Option<real>): Trade -> real {
    (t: Trade) => if f(t).Some? then f(t).value else 0.0
  }

  /** The average of `f` over the trades that have it, 0 when none has. */
  ghost predicate IsAverage(trades: seq<Trade>, f: Trade -> Option<real>, avg: real) {
    var known := Filter(trades, Known(f));
    if known == [] then avg == 0.0 else avg * (|known| as real) == SumOf(known, ValueOf(f))
  }

  method AverageKnown(trades: seq<Trade>, f: Trade -> Option<real>) returns (avg: real)
    ensures IsAverage(trades, f, avg)
  {
    var known := Filter(trades, Known(f));
    avg := SafeAvg(SumOf(known, ValueOf(f)), |known|);
    AverageTimesCount(SumOf(known, ValueOf(f)), |known|);
  }

  // ---------- ratios of wins and losses ----------

  /** What the winners made over what the losers lost; infinite when nothing was lost. */
  function ProfitFactor(won: real, lost: real, wins: nat): Option<real> {
    if AbsReal(lost) > 0.0 then Some(won / AbsReal(lost)) else if wins > 0 then None else Some(0.0)
  }

  function Payoff(avgWin: real, avgLoss: real, losses: nat): real {
    if losses > 0 then AbsReal(avgWin / (if avgLoss == 0.0 then 1.0 else avgLoss)) else 0.0
  }

  lemma QuotientAboveOne(a: real, b: real)
    requires b > 0.0
    ensures a / b > 1.0 <==> a > b
  {
    assert a == a / b * b;
    if a / b > 1.0 {
      assert (a / b - 1.0) * b > 0.0;
    } else {
      assert (1.0 - a / b) * b >= 0.0;
    }
  }

  lemma ProfitFactorTells(won: real, lost: real, wins: nat)
    requires won >= 0.0 >= lost && (wins > 0 <==> won > 0.0)
    ensures var p := ProfitFactor(won, lost, wins);
            p.None? || p.value > 1.0 <==> won + lost > 0.0
  {
    if lost < 0.0 {
      QuotientAboveOne(won, -lost);
    }
  }

  lemma ProfitFactorTimes(won: real, lost: real, wins: nat)
    requires won >= 0.0 >= lost && (wins > 0 <==> won > 0.0)
    ensures var p := ProfitFactor(won, lost, wins);
            && (p.Some? ==> p.value * -lost == won && (wins == 0 ==> p.value == 0.0))
            && (p.None? <==> wins > 0 && lost == 0.0)
  {
  }

  lemma PayoffTells(avgWin: real, avgLoss: real, losses: nat)
    requires avgWin >= 0.0 >= avgLoss && losses > 0
    ensures Payoff(avgWin, avgLoss, losses) * (if avgLoss == 0.0 then 1.0 else -avgLoss) == avgWin
  {
    if avgLoss < 0.0 {
      assert avgWin / avgLoss == -(avgWin / -avgLoss);
      assert avgWin / -avgLoss >= 0.0;
      assert Payoff(avgWin, avgLoss, losses) == avgWin / -avgLoss;
    }
  }

  lemma AverageSign(total: real, count: nat)
    ensures total >= 0.0 ==> SafeAvg(total, count) >= 0.0
    ensures total <= 0.0 ==> SafeAvg(total, count) <= 0.0
  {
    if count > 0 && total < 0.0 {
      assert (-total) / count as real >= 0.0;
      assert total / count as real == -((-total) / count as real);
    }
  }

  lemma RatiosHold(won: real, lost: real, wins: nat, losses: nat)
    requires won >= 0.0 >= lost && (wins > 0 <==> won > 0.0) && (losses == 0 ==> lost == 0.0)
    ensures var avgWin, avgLoss, factor := SafeAvg(won, wins), SafeAvg(lost, losses), ProfitFactor(won, lost, wins);
            && avgWin * wins as real == won && avgLoss * losses as real == lost && avgWin >= 0.0 >= avgLoss
            && (factor.None? || factor.value > 1.0 <==> won + lost > 0.0)
            && (factor.Some? ==> factor.value * -lost == won && (wins == 0 ==> factor.value == 0.0))
            && (factor.None? <==> wins > 0 && lost == 0.0)
            && (wins == 0 ==> avgWin == 0.0) && (losses == 0 ==> avgLoss == 0.0)
            && (if losses == 0 then Payoff(avgWin, avgLoss, losses) == 0.0
                else Payoff(avgWin, avgLoss, losses) * (if avgLoss == 0.0 then 1.0 else -avgLoss) == avgWin)
  {
    AverageTimesCount(won, wins);
    AverageTimesCount(lost, losses);
    AverageSign(won, wins);
    AverageSign(lost, losses);
    ProfitFactorTells(won, lost, wins);
    ProfitFactorTimes(won, lost, wins);
    hide ProfitFactor;
    if losses > 0 {
      hide SafeAvg;
      PayoffTells(SafeAvg(won, wins), SafeAvg(lost, losses), losses);
    }
  }

  /**
   * What the metrics of a group say.  The averages account for the whole result: wins times the average win plus
   * losses times the average loss is the net.
   */
  ghost predicate Measures(trades: seq<Trade>, m: Metrics) {
    var won, lost := SumOf(Filter(trades, IsWin()), Net()), SumOf(Filter(trades, IsLoss()), Net());
    && m.trades == |trades| == m.wins + m.losses && m.wins == |Filter(trades, IsWin())|
    && m.grossPnl == SumOf(trades, Gross()) && m.netPnl == SumOf(trades, Net())
    && m.avgWin * (m.wins as real) == won && m.avgLoss * (m.losses as real) == lost && m.netPnl == won + lost
    && (m.wins == 0 ==> m.avgWin == 0.0) && (m.losses == 0 ==> m.avgLoss == 0.0) && m.avgWin >= 0.0 >= m.avgLoss
    && m.winRate * (m.trades as real) == 100.0 * (m.wins as real) && m.expectancy * (m.trades as real) == m.netPnl
    && (m.trades == 0 ==> m.winRate == 0.0 && m.expectancy == 0.0)
    && (m.profitFactor.None? <==> m.wins > 0 && lost == 0.0)
    && (m.profitFactor.Some? ==> m.profitFactor.value * -lost == won && (m.wins == 0 ==> m.profitFactor.value == 0.0))
    && (if m.losses == 0 then m.payoff == 0.0
        else m.payoff * (if m.avgLoss == 0.0 then 1.0 else -m.avgLoss) == m.avgWin)
    && IsAverage(trades, (t: Trade) => t.holdMinutes, m.avgHoldMin)
    && IsAverage(trades, (t: Trade) => t.mfe, m.avgMfe) && IsAverage(trades, (t: Trade) => t.mae, m.avgMae)
    && IsDeepestDrop(0.0, Ordered(trades), |Ordered(trades)|, m.maxDrawdown)
  }

  /** The profit factor exceeds one, or is infinite, exactly when the group earned money. */
  method ComputeGroupMetrics(trades: seq<Trade>) returns (m: Metrics)
    ensures Measures(trades, m)
    ensures m.profitFactor.None? || m.profitFactor.value > 1.0 <==> m.netPnl > 0.0
  {
    hide IsDeepestDrop, SumOf, SafeAvg, Filter, IsAverage, ProfitFactor, Payoff;
    var wins, losses := Filter(trades, IsWin()), Filter(trades, IsLoss());
    var gross, net := SumOf(trades, Gross()), SumOf(trades, Net());
    var won, lost := SumOf(wins, Net()), SumOf(losses, Net());
    var deepest := MaxDrawdownContribution(trades);
    var hold := AverageKnown(trades, (t: Trade) => t.holdMinutes);
    var mfe := AverageKnown(trades, (t: Trade) => t.mfe);
    var mae := AverageKnown(trades, (t: Trade) => t.mae);
    var avgWin, avgLoss := SafeAvg(won, |wins|), SafeAvg(lost, |losses|);
    WinsAndLosses(trades);
    AverageTimesCount(net, |trades|);
    AverageTimesCount(|wins| as real * 100.0, |trades|);
    SumsHaveSigns(trades);
    EmptySums(wins);
    EmptySums(losses);
    EmptySums(trades);
    RatiosHold(won, lost, |wins|, |losses|);
    m := Metrics(|trades|, |wins|, |losses|, SafeAvg(|wins| as real * 100.0, |trades|), gross, net, avgWin, avgLoss,
                 Payoff(avgWin, avgLoss, |losses|), SafeAvg(net, |trades|), ProfitFactor(won, lost, |wins|), deepest,
                 hold, mfe, mae);
  }

  lemma EmptySums(s: seq<Trade>)
    ensures |s| == 0 ==> SumOf(s, Net()) == 0.0
  {
  }

  // ---------- grouped reports ----------

  function HasKey<K(==)>(keyFn: Trade -> K, key: K): Trade -> bool {
    (t: Trade) => keyFn(t) == key
  }

  ghost predicate NoRepeats<K(!new)>(keys: seq<K>) {
    forall k :: multiset(keys)[k] <= 1
  }

  /** `keys` lists the keys of the trades, each once. */
  ghost predicate KeysOf<K(!new)>(keys: seq<K>, trades: seq<Trade>, keyFn: Trade -> K) {
    && NoRepeats(keys)
    && (forall t :: t in trades ==> keyFn(t) in keys)
    && forall k :: k in keys ==> exists t :: t in trades && keyFn(t) == k
  }

  /** The grouping loop: one group per key, in order of first trade, each holding its trades in their order. */
  method GroupTrades<K(==, !new)>(trades: seq<Trade>, keyFn: Trade -> K)
    returns (order: seq<K>, groups: map<K, seq<Trade>>)
    ensures KeysOf(order, trades, keyFn)
    ensures forall k :: k in groups <==> k in order
    ensures forall k :: k in groups ==> groups[k] == Filter(trades, HasKey(keyFn, k))
  {
    hide Filter, KeysOf;
    order, groups := [], map[];
    NoKeysYet(keyFn);
    assert trades[..0] == [];
    for i := 0 to |trades|
      invariant KeysOf(order, trades[..i], keyFn)
      invariant forall k :: k in groups <==> k in order
      invariant forall k :: k in groups ==> groups[k] == Filter(trades[..i], HasKey(keyFn, k))
    {
      var t := trades[i];
      var key := keyFn(t);
      ghost var oldOrder := order;
      assert trades[..i + 1] == trades[..i] + [t];
      if key !in groups {
        KeysCover(order, trades[..i], keyFn, key);
        NothingFiltered(trades[..i], HasKey(keyFn, key));
        groups := groups[key := []];
        order := order + [key];
      }
      GroupGrows(trades[..i], t, keyFn, groups);
      groups := groups[key := groups[key] + [t]];
      KeysGrow(oldOrder, trades[..i], t, keyFn);
    }
    assert trades[..|trades|] == trades;
  }

  lemma NoKeysYet<K(!new)>(keyFn: Trade -> K)
    ensures KeysOf([], [], keyFn)
  {
  }

  lemma KeysCover<K(!new)>(keys: seq<K>, trades: seq<Trade>, keyFn: Trade -> K, key: K)
    requires KeysOf(keys, trades, keyFn) && key !in keys
    ensures forall t :: t in trades ==> !HasKey(keyFn, key)(t)
  {
  }

  /** One more trade joins the group of its key and no other. */
  lemma GroupGrows<K(!new)>(trades: seq<Trade>, t: Trade, keyFn: Trade -> K, groups: map<K, seq<Trade>>)
    requires keyFn(t) in groups && forall k :: k in groups ==> groups[k] == Filter(trades, HasKey(keyFn, k))
    ensures var grown := groups[keyFn(t) := groups[keyFn(t)] + [t]];
            forall k :: k in grown ==> grown[k] == Filter(trades + [t], HasKey(keyFn, k))
  {
    hide Filter;
    forall k | k in groups
      ensures (if k == keyFn(t) then groups[k] + [t] else groups[k]) == Filter(trades + [t], HasKey(keyFn, k))
    {
      FilterOfLonger(trades, t, HasKey(keyFn, k));
      assert groups[k] + [] == groups[k];
    }
  }

  lemma {:induction false} NothingFiltered(s: seq<Trade>, p: Trade -> bool)
    requires forall t :: t in s ==> !p(t)
    ensures Filter(s, p) == []
  {
    if s != [] {
      NothingFiltered(s[..|s| - 1], p);
    }
  }

  lemma KeysGrow<K(!new)>(keys: seq<K>, trades: seq<Trade>, t: Trade, keyFn: Trade -> K)
    requires KeysOf(keys, trades, keyFn)
    ensures KeysOf(if keyFn(t) in keys then keys else keys + [keyFn(t)], trades + [t], keyFn)
  {
    var key := keyFn(t);
    var now := if key in keys then keys else keys + [key];
    assert forall u :: u in trades + [t] <==> u in trades || u == t;
    if key !in keys {
      assert multiset(now) == multiset(keys) + multiset{key};
      assert multiset(keys)[key] == 0;
    }
    forall k | k in now
      ensures exists u :: u in trades + [t] && keyFn(u) == k
    {
      if k == key {
        assert t in trades + [t];
      } else {
        var u :| u in trades && keyFn(u) == k;
        assert u in trades + [t];
      }
    }
  }

  /** The report rows in the order of their keys. */
  method BuildGroupedReport<K(==, !new)>(trades: seq<Trade>, keyFn: Trade -> K, keyRank: K -> Rank)
    returns (keys: seq<K>, rows: seq<Metrics>)
    ensures |rows| == |keys| && KeysOf(keys, trades, keyFn) && Ranked(keys, keyRank)
    ensures forall i :: 0 <= i < |rows| ==> Measures(Filter(trades, HasKey(keyFn, keys[i])), rows[i])
    ensures TotalNet(rows) == SumOf(trades, Net()) && TotalTrades(rows) == |trades|
  {
    hide KeysOf, SumOf, SortBy, Filter, Measures;
    var order, groups := GroupTrades(trades, keyFn);
    keys := SortBy(order, keyRank);
    SortRanks(order, keyRank);
    SortedKeys(order, keys, trades, keyFn);
    rows := [];
    for i := 0 to |keys|
      invariant |rows| == i
      invariant forall j :: 0 <= j < i ==> Measures(Filter(trades, HasKey(keyFn, keys[j])), rows[j])
    {
      assert keys[i] in keys;
      var m := ComputeGroupMetrics(groups[keys[i]]);
      rows := rows + [m];
    }
    RowsTotal(trades, keyFn, keys, rows);
    GroupsPartition(trades, keyFn, keys);
  }

  lemma SortedKeys<K(!new)>(order: seq<K>, keys: seq<K>, trades: seq<Trade>, keyFn: Trade -> K)
    requires KeysOf(order, trades, keyFn) && multiset(keys) == multiset(order)
    ensures KeysOf(keys, trades, keyFn)
    ensures forall k :: k in keys <==> k in order
  {
    assert forall k :: k in keys <==> k in multiset(keys);
    assert forall k :: k in order <==> k in multiset(order);
  }

  function TotalNet(rows: seq<Metrics>): real {
    if rows == [] then 0.0 else TotalNet(rows[..|rows| - 1]) + rows[|rows| - 1].netPnl
  }

  function TotalTrades(rows: seq<Metrics>): nat {
    if rows == [] then 0 else TotalTrades(rows[..|rows| - 1]) + rows[|rows| - 1].trades
  }

  function NetOverKeys<K(==)>(trades: seq<Trade>, keyFn: Trade -> K, keys: seq<K>): real {
    if keys == [] then 0.0
    else NetOverKeys(trades, keyFn, keys[..|keys| - 1]) + SumOf(Filter(trades, HasKey(keyFn, keys[|keys| - 1])), Net())
  }

  function CountOverKeys<K(==)>(trades: seq<Trade>, keyFn: Trade -> K, keys: seq<K>): nat {
    if keys == [] then 0
    else CountOverKeys(trades, keyFn, keys[..|keys| - 1]) + |Filter(trades, HasKey(keyFn, keys[|keys| - 1]))|
  }

  lemma {:induction false} RowsTotal<K>(trades: seq<Trade>, keyFn: Trade -> K, keys: seq<K>, rows: seq<Metrics>)
    requires |rows| == |keys|
    requires forall i :: 0 <= i < |rows| ==> Measures(Filter(trades, HasKey(keyFn, keys[i])), rows[i])
    ensures TotalNet(rows) == NetOverKeys(trades, keyFn, keys)
            && TotalTrades(rows) == CountOverKeys(trades, keyFn, keys)
  {
    hide SumOf, Filter, IsAverage, IsDeepestDrop;
    if keys != [] {
      RowsTotal(trades, keyFn, keys[..|keys| - 1], rows[..|rows| - 1]);
    }
  }

  /**
   * The groups split the trades: over any list of their keys without repeats, results and counts add up to the whole.
   */
  lemma {:induction false} GroupsPartition<K(!new)>(trades: seq<Trade>, keyFn: Trade -> K, keys: seq<K>)
    requires NoRepeats(keys) && forall t :: t in trades ==> keyFn(t) in keys
    ensures NetOverKeys(trades, keyFn, keys) == SumOf(trades, Net())
    ensures CountOverKeys(trades, keyFn, keys) == |trades|
  {
    if trades == [] {
      NoTradesNoTotals(keyFn, keys);
    } else {
      hide *;
      var init, t := trades[..|trades| - 1], trades[|trades| - 1];
      assert init + [t] == trades && t in trades;
      assert forall u :: u in init ==> u in trades;
      GroupsPartition(init, keyFn, keys);
      OneTradeOneGroup(init, t, keyFn, keys);
      SumOfLonger(init, t, Net());
      NetIs(t);
    }
  }

  lemma NetIs(t: Trade)
    ensures Net()(t) == t.netPnl
  {
  }

  lemma {:induction false} NoTradesNoTotals<K>(keyFn: Trade -> K, keys: seq<K>)
    ensures NetOverKeys([], keyFn, keys) == 0.0 && CountOverKeys([], keyFn, keys) == 0
  {
    if keys != [] {
      NoTradesNoTotals(keyFn, keys[..|keys| - 1]);
    }
  }

  lemma {:induction false} OneTradeOneGroup<K(!new)>(trades: seq<Trade>, t: Trade, keyFn: Trade -> K, keys: seq<K>)
    requires NoRepeats(keys)
    ensures NetOverKeys(trades + [t], keyFn, keys)
         == NetOverKeys(trades, keyFn, keys) + if keyFn(t) in keys then t.netPnl else 0.0
    ensures CountOverKeys(trades + [t], keyFn, keys)
         == CountOverKeys(trades, keyFn, keys) + if keyFn(t) in keys then 1 else 0
  {
    hide Filter, SumOf;
    if keys != [] {
      var init, last := keys[..|keys| - 1], keys[|keys| - 1];
      assert keys == init + [last];
      assert multiset(keys) == multiset(init) + multiset{last};
      assert NoRepeats(init) && last !in init by {
        assert forall k :: multiset(init)[k] <= multiset(keys)[k];
        assert multiset(keys)[last] == multiset(init)[last] + 1;
      }
      OneTradeOneGroup(trades, t, keyFn, init);
      var group := Filter(trades, HasKey(keyFn, last));
      FilterOfLonger(trades, t, HasKey(keyFn, last));
      SumOfLonger(group, t, Net());
      assert group + [] == group;
    }
  }

  // ---------- the measures, trade by trade ----------

  /** One more trade adds its own results and counts as a win exactly when it earned money. */
  lemma OneMoreTrade(trades: seq<Trade>, t: Trade)
    ensures SumOf(trades + [t], Gross()) == SumOf(trades, Gross()) + t.grossPnl && SumOf([], Gross()) == 0.0
    ensures SumOf(trades + [t], Net()) == SumOf(trades, Net()) + t.netPnl && SumOf([], Net()) == 0.0
    ensures Filter(trades + [t], IsWin()) == Filter(trades, IsWin()) + if t.netPnl > 0.0 then [t] else []
    ensures Filter(trades + [t], IsLoss()) == Filter(trades, IsLoss()) + if t.netPnl > 0.0 then [] else [t]
  {
    SumOfLonger(trades, t, Gross());
    SumOfLonger(trades, t, Net());
    FilterOfLonger(trades, t, IsWin());
    FilterOfLonger(trades, t, IsLoss());
  }

  /** Only a trade that has the value enters its average. */
  lemma OneMoreKnown(trades: seq<Trade>, t: Trade, f: Trade -> Option<real>)
    ensures var known, more := Filter(trades, Known(f)), Filter(trades + [t], Known(f));
            match f(t)
            case None => more == known
            case Some(x) => more == known + [t] && SumOf(more, ValueOf(f)) == SumOf(known, ValueOf(f)) + x
  {
    FilterOfLonger(trades, t, Known(f));
    SumOfLonger(Filter(trades, Known(f)), t, ValueOf(f));
    assert Filter(trades, Known(f)) + [] == Filter(trades, Known(f));
  }

  /** When a trade counts: at its exit, without one at its entry, without either at time zero. */
  predicate CountsAt(t: Trade, time: int) {
    || t.exitTs == Some(time)
    || (t.exitTs == None && t.entryTs == Some(time))
    || (t.exitTs == None && t.entryTs == None && time == 0)
  }

  /** The curves and the drawdown go through the trades in order of time. */
  lemma OrderInNumbers(trades: seq<Trade>, i: nat, j: nat, before: int, after: int)
    requires i < j < |Ordered(trades)| && CountsAt(Ordered(trades)[i], before) && CountsAt(Ordered(trades)[j], after)
    ensures before <= after
  {
    OrderedKeepsTrades(trades);
    var o := Ordered(trades);
    assert Le(ByExit()(o[i]), ByExit()(o[j]));
  }

  /** The trades of one time stay in the order they came. */
  lemma TiesKeepOrder(trades: seq<Trade>, time: int)
    ensures var at := HasRank(ByExit(), Rank(true, time as real, 0.0));
            (forall t :: at(t) <==> CountsAt(t, time)) && Filter(Ordered(trades), at) == Filter(trades, at)
  {
    SortIsStable(trades, ByExit(), Rank(true, time as real, 0.0));
  }
}

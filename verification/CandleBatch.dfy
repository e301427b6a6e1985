/**
 What the stream of bars means: each bar summarises one maximal run of ticks in one bucket,
 coarser bars are merges of finer ones, and no volume is lost.
 */
module CandleBatch {
  import opened Common
  import opened Candles
  import opened CandleRuns

  // ----- The tick-only lane, read from the end -----

  function TradeList(events: seq<LaneEvent>): seq<Trade> {
    if events == [] then []
    else (if events[0].Traded? then [events[0].trade] else []) + TradeList(events[1..])
  }

  function FeedTrades(k: Key, trades: seq<Trade>): Lane {
    if trades == [] then IDLE
    else LaneTrade(FeedTrades(k, trades[..|trades| - 1]), k, trades[|trades| - 1])
  }

  function BarsOf(k: Key, trades: seq<Trade>): seq<Candle> {
    Bars(FeedTrades(k, trades))
  }

  lemma FeedSnoc(k: Key, fed: seq<Trade>, t: Trade)
    ensures FeedTrades(k, fed + [t]) == LaneTrade(FeedTrades(k, fed), k, t)
  {
    assert (fed + [t])[..|fed|] == fed;
  }

  lemma {:induction false} LaneRunFeeds(k: Key, fed: seq<Trade>, events: seq<LaneEvent>)
    ensures LaneRun(FeedTrades(k, fed), k, TradesOf(events)) == FeedTrades(k, fed + TradeList(events))
    decreases events
  {
    hide LaneTrade, LaneRun, TradesOf, FeedTrades, TradeList;
    if events == [] {
      NoEventsNoTrades(k, FeedTrades(k, fed));
      assert fed + [] == fed;
    } else {
      TradesOfStep(events, FeedTrades(k, fed), k);
      TradeListStep(events);
      var rest := TradeList(events[1..]);
      match events[0] {
        case Traded(t) =>
          FeedSnoc(k, fed, t);
          LaneRunFeeds(k, fed + [t], events[1..]);
          assert fed + [t] + rest == fed + ([t] + rest);
        case Timer(_, _, _) =>
          LaneRunFeeds(k, fed, events[1..]);
          assert [] + rest == rest;
      }
    }
  }

  lemma NoEventsNoTrades(k: Key, l: Lane)
    ensures LaneRun(l, k, TradesOf([])) == l && TradeList([]) == []
  {
  }

  lemma TradeListStep(events: seq<LaneEvent>)
    requires events != []
    ensures TradeList(events) == (if events[0].Traded? then [events[0].trade] else []) + TradeList(events[1..])
  {
  }

  lemma AbsorbKeepsIdentity(c: Candle, price: real, vol: real)
    ensures var a := Absorb(c, price, vol);
            a.token == c.token && a.interval == c.interval && a.ts == c.ts && a.source == Live && !a.synthetic
  {
  }

  /** A bar of lane `k` made of ticks. */
  predicate LiveBar(c: Candle, k: Key) {
    c.source == Live && !c.synthetic && c.token == k.token && c.interval == k.interval
  }

  lemma {:induction false} LastBarIsCurrent(k: Key, trades: seq<Trade>)
    requires trades != []
    ensures var l := FeedTrades(k, trades);
            l.cur.Some? && LiveBar(l.cur.value, k) && l.cur.value.ts == BucketStart(trades[|trades| - 1].ts, k.interval)
  {
    hide BucketStart, Absorb;
    if |trades| > 1 {
      var init, t := trades[..|trades| - 1], trades[|trades| - 1];
      LastBarIsCurrent(k, init);
      AbsorbKeepsIdentity(FeedTrades(k, init).cur.value, t.price, t.vol);
    }
  }

  /** The bars of a lane whose bar in progress is live, before and after one more trade. */
  lemma BarsAfter(l: Lane, k: Key, t: Trade)
    requires l.cur.Some? && LiveBar(l.cur.value, k)
    ensures Bars(l) == LiveBars(l.out) + [l.cur.value]
    ensures Bars(LaneTrade(l, k, t)) ==
            if l.cur.value.ts == BucketStart(t.ts, k.interval)
            then LiveBars(l.out) + [Absorb(l.cur.value, t.price, t.vol)]
            else LiveBars(l.out) + [l.cur.value] + [NewCandle(k, BucketStart(t.ts, k.interval), t.price, t.vol)]
  {
    hide BucketStart, Absorb, LiveBars;
    AbsorbKeepsIdentity(l.cur.value, t.price, t.vol);
    LiveBarsSnoc(l.out, Closed(l.cur.value, ByTick));
  }

  /** A trade extends the last bar when it falls into its bucket, else it starts the next bar. */
  function Extend(k: Key, bars: seq<Candle>, t: Trade): seq<Candle> {
    var bucket := BucketStart(t.ts, k.interval);
    if bars != [] && bars[|bars| - 1].ts == bucket
    then bars[..|bars| - 1] + [Absorb(bars[|bars| - 1], t.price, t.vol)]
    else bars + [NewCandle(k, bucket, t.price, t.vol)]
  }

  /** The bars of a lane grow trade by trade. */
  lemma BarsSnoc(k: Key, trades: seq<Trade>, t: Trade)
    ensures BarsOf(k, trades + [t]) == Extend(k, BarsOf(k, trades), t)
    ensures var bars := BarsOf(k, trades);
            && (trades == [] <==> bars == [])
            && (trades != [] ==> bars[|bars| - 1].ts == BucketStart(trades[|trades| - 1].ts, k.interval))
  {
    hide BucketStart, Absorb, LiveBars;
    FeedSnoc(k, trades, t);
    var l := FeedTrades(k, trades);
    if trades == [] {
      assert LiveBars([]) == [] by { NoBars(); }
    } else {
      LastBarIsCurrent(k, trades);
      BarsAfter(l, k, t);
      var bars := BarsOf(k, trades);
      assert bars[..|bars| - 1] == LiveBars(l.out);
    }
  }

  lemma NoBars()
    ensures LiveBars([]) == []
  {
  }

  lemma {:induction false} BarsAreLive(k: Key, trades: seq<Trade>)
    ensures forall i :: 0 <= i < |BarsOf(k, trades)| ==> LiveBar(BarsOf(k, trades)[i], k)
  {
    hide BucketStart, Absorb, FeedTrades;
    if trades == [] {
      assert FeedTrades(k, []) == IDLE by { NothingFed(k); }
    } else {
      var init, t := trades[..|trades| - 1], trades[|trades| - 1];
      assert init + [t] == trades;
      BarsAreLive(k, init);
      BarsSnoc(k, init, t);
      var bars := BarsOf(k, init);
      if bars != [] {
        AbsorbKeepsIdentity(bars[|bars| - 1], t.price, t.vol);
      }
    }
  }

  lemma NothingFed(k: Key)
    ensures FeedTrades(k, []) == IDLE
  {
  }

  // ----- Stream equals batch -----

  function Flatten<T>(groups: seq<seq<T>>): seq<T> {
    if groups == [] then [] else Flatten(groups[..|groups| - 1]) + groups[|groups| - 1]
  }

  /** `groups` cuts the trades into maximal runs of one bucket each. */
  ghost predicate IsRuns(k: Key, groups: seq<seq<Trade>>, trades: seq<Trade>) {
    && Flatten(groups) == trades
    && (forall i :: 0 <= i < |groups| ==> groups[i] != [])
    && (forall i, j :: 0 <= i < |groups| && 0 <= j < |groups[i]| ==>
                         BucketStart(groups[i][j].ts, k.interval) == BucketStart(groups[i][0].ts, k.interval))
    && (forall i :: 0 < i < |groups| ==>
                      BucketStart(groups[i][0].ts, k.interval) != BucketStart(groups[i - 1][0].ts, k.interval))
  }

  function SumVol(trades: seq<Trade>): real {
    if trades == [] then 0.0 else SumVol(trades[..|trades| - 1]) + trades[|trades| - 1].vol
  }

  /** First price, highest, lowest, last price, summed volume. */
  ghost predicate IsBarOf(c: Candle, k: Key, g: seq<Trade>) {
    && g != []
    && c.token == k.token && c.interval == k.interval && c.ts == BucketStart(g[0].ts, k.interval)
    && c.source == Live && !c.synthetic
    && c.open == g[0].price && c.close == g[|g| - 1].price && c.volume == SumVol(g)
    && (forall i :: 0 <= i < |g| ==> c.low <= g[i].price <= c.high)
    && (exists i :: 0 <= i < |g| && g[i].price == c.high)
    && (exists i :: 0 <= i < |g| && g[i].price == c.low)
  }

  lemma AbsorbExtendsBar(c: Candle, k: Key, g: seq<Trade>, t: Trade)
    requires IsBarOf(c, k, g)
    ensures IsBarOf(Absorb(c, t.price, t.vol), k, g + [t])
  {
    var g' := g + [t];
    assert g'[..|g|] == g;
    var hi :| 0 <= hi < |g| && g[hi].price == c.high;
    var lo :| 0 <= lo < |g| && g[lo].price == c.low;
    assert g'[hi].price == c.high && g'[lo].price == c.low && g'[|g|].price == t.price;
  }

  lemma NewBarOf(k: Key, t: Trade)
    ensures IsBarOf(NewCandle(k, BucketStart(t.ts, k.interval), t.price, t.vol), k, [t])
  {
    assert [t][0].price == t.price;
    assert SumVol([t]) == SumVol([]) + t.vol;
  }

  /** The runs with one more trade. */
  function RunsWith(k: Key, g: seq<seq<Trade>>, t: Trade): seq<seq<Trade>> {
    if g != [] && g[|g| - 1] != [] && BucketStart(g[|g| - 1][0].ts, k.interval) == BucketStart(t.ts, k.interval)
    then g[..|g| - 1] + [g[|g| - 1] + [t]]
    else g + [[t]]
  }

  function Runs(k: Key, trades: seq<Trade>): seq<seq<Trade>> {
    if trades == [] then [] else RunsWith(k, Runs(k, trades[..|trades| - 1]), trades[|trades| - 1])
  }

  lemma RunsExtend(k: Key, g: seq<seq<Trade>>, trades: seq<Trade>, t: Trade)
    requires IsRuns(k, g, trades) && g != []
    requires BucketStart(g[|g| - 1][0].ts, k.interval) == BucketStart(t.ts, k.interval)
    ensures IsRuns(k, g[..|g| - 1] + [g[|g| - 1] + [t]], trades + [t])
  {
    hide BucketStart;
    var last := g[|g| - 1];
    var r := g[..|g| - 1] + [last + [t]];
    assert r[..|r| - 1] == g[..|g| - 1];
    assert Flatten(r) == Flatten(g[..|g| - 1]) + (last + [t]);
    assert Flatten(g) == Flatten(g[..|g| - 1]) + last;
    assert forall i :: 0 <= i < |r| ==> r[i] != [] && r[i][0] == g[i][0];
  }

  lemma RunsAppend(k: Key, g: seq<seq<Trade>>, trades: seq<Trade>, t: Trade)
    requires IsRuns(k, g, trades)
    requires g != [] ==> BucketStart(g[|g| - 1][0].ts, k.interval) != BucketStart(t.ts, k.interval)
    ensures IsRuns(k, g + [[t]], trades + [t])
  {
    hide BucketStart;
    var r := g + [[t]];
    assert r[..|r| - 1] == g;
    assert forall i :: 0 <= i < |g| ==> r[i] == g[i];
  }

  lemma {:induction false} RunsAreRuns(k: Key, trades: seq<Trade>)
    ensures IsRuns(k, Runs(k, trades), trades)
  {
    hide BucketStart;
    if trades != [] {
      var init, t := trades[..|trades| - 1], trades[|trades| - 1];
      RunsAreRuns(k, init);
      var g: seq<seq<Trade>> := Runs(k, init);
      assert init + [t] == trades;
      if g != [] && BucketStart(g[|g| - 1][0].ts, k.interval) == BucketStart(t.ts, k.interval) {
        RunsExtend(k, g, init, t);
      } else {
        RunsAppend(k, g, init, t);
      }
    }
  }

  /** Every tick lies in the time of its bar, and neighbouring bars start at different times. */
  ghost predicate TicksInBars(bars: seq<Candle>, g: seq<seq<Trade>>, m: Minutes)
    requires |bars| == |g|
  {
    && (forall i, j :: 0 <= i < |g| && 0 <= j < |g[i]| ==> StartsBar(bars[i].ts, g[i][j].ts, m))
    && (forall i :: 0 < i < |g| ==> bars[i].ts != bars[i - 1].ts)
  }

  lemma BarsHoldTheirTicks(k: Key, trades: seq<Trade>, g: seq<seq<Trade>>, bars: seq<Candle>)
    requires IsRuns(k, g, trades) && BarsOfRuns(k, bars, g)
    ensures TicksInBars(bars, g, k.interval)
  {
    hide BucketStart, StartsBar, Flatten;
    forall i | 0 <= i < |g|
      ensures g[i] != [] && bars[i].ts == BucketStart(g[i][0].ts, k.interval)
    {
      assert IsBarOf(bars[i], k, g[i]);
    }
    forall i, j | 0 <= i < |g| && 0 <= j < |g[i]|
      ensures StartsBar(bars[i].ts, g[i][j].ts, k.interval)
    {
      BucketHolds(g[i][j].ts, k.interval, bars[i].ts);
    }
  }

  lemma StreamEqualsBatch(k: Key, trades: seq<Trade>)
    ensures var g, bars := Runs(k, trades), BarsOf(k, trades);
            && IsRuns(k, g, trades)
            && |bars| == |g| && TicksInBars(bars, g, k.interval)
            && forall i :: 0 <= i < |g| ==> IsBarOf(bars[i], k, g[i])
  {
    RunsAreRuns(k, trades);
    hide IsRuns;
    BarsMatchRuns(k, trades);
    BarsHoldTheirTicks(k, trades, Runs(k, trades), BarsOf(k, trades));
  }

  /** Each bar folds the run of the same number. */
  ghost predicate BarsOfRuns(k: Key, bars: seq<Candle>, g: seq<seq<Trade>>) {
    |bars| == |g| && forall i :: 0 <= i < |g| ==> IsBarOf(bars[i], k, g[i])
  }

  lemma {:induction false} BarsMatchRuns(k: Key, trades: seq<Trade>)
    ensures BarsOfRuns(k, BarsOf(k, trades), Runs(k, trades))
  {
    if trades != [] {
      var init, t := trades[..|trades| - 1], trades[|trades| - 1];
      assert init + [t] == trades;
      BarsMatchRuns(k, init);
      BarsSnoc(k, init, t);
      hide BarsOf;
      OneMoreTrade(k, BarsOf(k, init), Runs(k, init), t);
    }
  }

  lemma OneMoreTrade(k: Key, bars: seq<Candle>, g: seq<seq<Trade>>, t: Trade)
    requires BarsOfRuns(k, bars, g)
    ensures BarsOfRuns(k, Extend(k, bars, t), RunsWith(k, g, t))
  {
    hide BucketStart, Absorb;
    NewBarOf(k, t);
    if g != [] {
      AbsorbExtendsBar(bars[|bars| - 1], k, g[|g| - 1], t);
      assert g[|g| - 1] != [] && bars[|bars| - 1].ts == BucketStart(g[|g| - 1][0].ts, k.interval);
    }
    hide IsBarOf;
  }

  /** The same for the builder: with the timer running, provided it never has to reopen a bar. */
  lemma ChartEqualsBatch(intervals: seq<Minutes>, events: seq<Event>, k: Key)
    requires NoReopening(IDLE, k, Project(k, intervals, None, events))
    ensures var trades := TradeList(Project(k, intervals, None, events));
            var g, chart := Runs(k, trades), Chart(intervals, events, k);
            && IsRuns(k, g, trades)
            && |chart| == |g| && TicksInBars(chart, g, k.interval)
            && forall i :: 0 <= i < |g| ==> IsBarOf(chart[i], k, g[i])
  {
    ChartIsBarsOf(intervals, events, k);
    StreamEqualsBatch(k, TradeList(Project(k, intervals, None, events)));
  }

  lemma ChartIsBarsOf(intervals: seq<Minutes>, events: seq<Event>, k: Key)
    requires NoReopening(IDLE, k, Project(k, intervals, None, events))
    ensures Chart(intervals, events, k) == BarsOf(k, TradeList(Project(k, intervals, None, events)))
  {
    var lane := Project(k, intervals, None, events);
    RunSplitsIntoLanes(Outcome(EMPTY, []), intervals, events, k);
    LaneErasure(IDLE, IDLE, k, lane);
    LaneRunFeeds(k, [], lane);
    assert [] + TradeList(lane) == TradeList(lane);
  }

  // ----- Coarser bars are merges of finer bars -----

  function Rebucket(c: Candle, n: Minutes): Candle {
    c.(interval := n, ts := BucketStart(c.ts, n))
  }

  function Merge(a: Candle, b: Candle): Candle {
    a.(high := MaxReal(a.high, b.high), low := MinReal(a.low, b.low), close := b.close, volume := a.volume + b.volume)
  }

  /** Merges neighbouring fine bars that share an n-minute bucket. */
  function Coarsen(bars: seq<Candle>, n: Minutes): seq<Candle> {
    if bars == [] then []
    else AddFine(Coarsen(bars[..|bars| - 1], n), bars[|bars| - 1], n)
  }

  function AddFine(coarse: seq<Candle>, b: Candle, n: Minutes): seq<Candle> {
    var last := |coarse| - 1;
    if coarse != [] && coarse[last].ts == BucketStart(b.ts, n)
    then coarse[..last] + [Merge(coarse[last], b)]
    else coarse + [Rebucket(b, n)]
  }

  /** Flooring to multiples of `m` first does not change the quotient by a multiple of `m`. */
  lemma NestedFloor(a: nat, m: nat, q: nat)
    requires m >= 1 && q >= 1
    ensures m * q >= 1
    ensures a / m * m / (m * q) == a / (m * q)
  {
    var b, s := a / m, a % m;
    var x, y := b / q, b % q;
    Remainders(m, q, y, s);
    Expanded(m, q, x, y, b);
    assert a == m * b + s;
    DivUnique(a, m * q, x, m * y + s);
    assert a / m * m == m * b;
    DivUnique(a / m * m, m * q, x, m * y);
  }

  lemma Remainders(m: nat, q: nat, y: nat, s: nat)
    requires y < q && s < m
    ensures m * q >= 1 && 0 <= m * y <= m * y + s < m * q
  {
    MulNonneg(m, y);
    MulNonneg(m, q - y - 1);
    assert m * (q - y - 1) == m * q - m * y - m;
  }

  lemma Expanded(m: nat, q: nat, x: int, y: int, b: int)
    requires b == q * x + y
    ensures m * b == m * q * x + m * y
  {
    assert m * b == m * (q * x) + m * y;
    assert m * (q * x) == m * q * x;
  }

  lemma FloorInRange(a: nat, m: nat)
    requires m >= 1
    ensures 0 <= a / m * m <= a
  {
    assert a == m * (a / m) + a % m;
    assert a / m * m == m * (a / m);
    MulNonneg(m, a / m);
  }

  lemma BucketsNest(ts: int, m: Minutes, n: Minutes)
    requires n % m == 0
    ensures BucketStart(BucketStart(ts, m), n) == BucketStart(ts, n)
  {
    var minute := ts / MS_PER_MINUTE % 60;
    var hour := ts - ts % MS_PER_HOUR;
    var floor := minute / m * m;
    FloorInRange(minute, m);
    StartsWithin(ts, m, minute, hour);
    StartsWithin(ts, n, minute, hour);
    hide BucketStart;
    StartInHour(hour, floor, n);
    FloorsNest(minute, m, n);
  }

  lemma StartsWithin(ts: int, n: Minutes, minute: int, hour: int)
    requires minute == ts / MS_PER_MINUTE % 60 && hour == ts - ts % MS_PER_HOUR
    ensures BucketStart(ts, n) == hour + minute / n * n * MS_PER_MINUTE && hour % MS_PER_HOUR == 0
  {
  }

  lemma FloorsNest(minute: nat, m: Minutes, n: Minutes)
    requires n % m == 0
    ensures minute / m * m / n == minute / n
  {
    assert n == m * (n / m);
    NestedFloor(minute, m, n / m);
  }

  lemma StartInHour(hour: int, minute: int, n: Minutes)
    requires hour % MS_PER_HOUR == 0 && 0 <= minute < 60
    ensures BucketStart(hour + minute * MS_PER_MINUTE, n) == hour + minute / n * n * MS_PER_MINUTE
  {
    HourMinute(hour, minute);
  }

  lemma HourMinute(hour: int, minute: int)
    requires hour % MS_PER_HOUR == 0 && 0 <= minute < 60
    ensures var b := hour + minute * MS_PER_MINUTE;
            b / MS_PER_MINUTE % 60 == minute && b - b % MS_PER_HOUR == hour
  {
    var h := hour / MS_PER_HOUR;
    assert hour == 3600000 * h;
  }

  lemma CoarsenSnoc(bars: seq<Candle>, b: Candle, n: Minutes)
    ensures Coarsen(bars + [b], n) == AddFine(Coarsen(bars, n), b, n)
  {
    assert (bars + [b])[..|bars|] == bars;
  }

  lemma {:induction false} CoarseLastBucket(bars: seq<Candle>, n: Minutes)
    requires bars != []
    ensures var c := Coarsen(bars, n);
            c != [] && c[|c| - 1].ts == BucketStart(bars[|bars| - 1].ts, n)
  {
  }

  ghost predicate AllLive(bars: seq<Candle>) {
    forall i :: 0 <= i < |bars| ==> bars[i].source == Live && !bars[i].synthetic
  }

  lemma AddFineAbsorb(coarse: seq<Candle>, b: Candle, t: Trade, n: Minutes)
    requires b.source == Live && !b.synthetic
    requires AllLive(coarse)
    ensures var r := AddFine(coarse, b, n);
            AddFine(coarse, Absorb(b, t.price, t.vol), n) ==
            r[..|r| - 1] + [Absorb(r[|r| - 1], t.price, t.vol)]
  {
    var last := |coarse| - 1;
    if coarse != [] && coarse[last].ts == BucketStart(b.ts, n) {
      var m1 := Merge(coarse[last], Absorb(b, t.price, t.vol));
      var m2 := Absorb(Merge(coarse[last], b), t.price, t.vol);
      assert m1.volume == m2.volume;
      assert m1 == m2;
    }
  }

  lemma {:induction false} CoarsenLive(bars: seq<Candle>, n: Minutes)
    requires AllLive(bars)
    ensures AllLive(Coarsen(bars, n))
  {
    if bars != [] {
      CoarsenLive(bars[..|bars| - 1], n);
    }
  }

  /** For nested intervals, every tick list gives the same coarse bars directly or through the fine ones. */
  lemma {:induction false} CoarseningCommutes(token: int, m: Minutes, n: Minutes, trades: seq<Trade>)
    requires n % m == 0
    ensures Coarsen(BarsOf(Key(token, m), trades), n) == BarsOf(Key(token, n), trades)
  {
    hide Coarsen, BarsOf, Extend;
    if trades == [] {
      NoFineNoCoarse(token, m, n);
    } else {
      var init, t := trades[..|trades| - 1], trades[|trades| - 1];
      assert init + [t] == trades;
      CoarseningCommutes(token, m, n, init);
      BarsSnoc(Key(token, m), init, t);
      BarsSnoc(Key(token, n), init, t);
      BarsAreLive(Key(token, m), init);
      BarsAreLive(Key(token, n), init);
      CoarsenExtends(token, m, n, BarsOf(Key(token, m), init), t);
    }
  }

  lemma NoFineNoCoarse(token: int, m: Minutes, n: Minutes)
    ensures BarsOf(Key(token, m), []) == BarsOf(Key(token, n), []) == [] && Coarsen([], n) == []
  {
  }

  /** Extending the fine bars by a trade and then merging is merging and then extending. */
  lemma CoarsenExtends(token: int, m: Minutes, n: Minutes, fine: seq<Candle>, t: Trade)
    requires n % m == 0 && AllLive(fine) && AllLive(Coarsen(fine, n))
    ensures Coarsen(Extend(Key(token, m), fine, t), n) == Extend(Key(token, n), Coarsen(fine, n), t)
  {
    hide BucketStart, Absorb, Coarsen;
    BucketsNest(t.ts, m, n);
    if fine != [] && fine[|fine| - 1].ts == BucketStart(t.ts, m) {
      CoarsenAbsorbed(fine, t, n);
      CoarseLastBucket(fine, n);
    } else {
      CoarsenSnoc(fine, NewCandle(Key(token, m), BucketStart(t.ts, m), t.price, t.vol), n);
      AddFineTrade(Coarsen(fine, n), Key(token, m), t, n);
    }
  }

  lemma CoarsenAbsorbed(fine: seq<Candle>, t: Trade, n: Minutes)
    requires fine != []
    requires AllLive(fine)
    ensures var last := |fine| - 1;
            var c := Coarsen(fine, n);
            c != [] && Coarsen(fine[..last] + [Absorb(fine[last], t.price, t.vol)], n) ==
            c[..|c| - 1] + [Absorb(c[|c| - 1], t.price, t.vol)]
  {
    var prefix, b := fine[..|fine| - 1], fine[|fine| - 1];
    CoarsenLive(prefix, n);
    CoarsenSnoc(prefix, Absorb(b, t.price, t.vol), n);
    AddFineAbsorb(Coarsen(prefix, n), b, t, n);
  }

  /** A fine bar that holds a single trade merges exactly as the trade would be absorbed. */
  lemma AddFineTrade(coarse: seq<Candle>, k: Key, t: Trade, n: Minutes)
    requires n % k.interval == 0
    requires AllLive(coarse)
    ensures AddFine(coarse, NewCandle(k, BucketStart(t.ts, k.interval), t.price, t.vol), n)
         == Extend(Key(k.token, n), coarse, t)
  {
    BucketsNest(t.ts, k.interval, n);
  }

  lemma {:induction false} IntervalTradesOnce(k: Key, intervals: seq<Minutes>, t: Trade)
    requires Multiplicity(intervals, k.interval) <= 1
    ensures IntervalTrades(k, intervals, k.token, t) ==
            if Multiplicity(intervals, k.interval) == 1 then [Traded(t)] else []
  {
    if intervals != [] {
      IntervalTradesOnce(k, intervals[1..], t);
    }
  }

  lemma {:induction false} SameTickTrades(
      token: int, m: Minutes, n: Minutes, intervals: seq<Minutes>, prev: Option<real>, ticks: seq<Tick>)
    requires Multiplicity(intervals, m) == Multiplicity(intervals, n) == 1
    ensures TickTrades(Key(token, m), intervals, prev, ticks) == TickTrades(Key(token, n), intervals, prev, ticks)
    decreases ticks
  {
    if ticks != [] {
      var t := ticks[0];
      SameTickTrades(token, m, n, intervals, PrevAfter(prev, token, t), ticks[1..]);
      if Usable(t) && t.token == token {
        var tr := Trade(t.ts, t.price.value, VolAdd(prev, t.ltq, t.dayVol));
        IntervalTradesOnce(Key(token, m), intervals, tr);
        IntervalTradesOnce(Key(token, n), intervals, tr);
      }
    }
  }

  lemma {:induction false} SameLaneEvents(
      token: int, m: Minutes, n: Minutes, intervals: seq<Minutes>, prev: Option<real>, events: seq<Event>)
    requires Multiplicity(intervals, m) == Multiplicity(intervals, n) == 1
    ensures Project(Key(token, m), intervals, prev, events) == Project(Key(token, n), intervals, prev, events)
    decreases events
  {
    if events != [] {
      match events[0] {
        case OnTicks(ticks) =>
          SameTickTrades(token, m, n, intervals, prev, ticks);
          SameLaneEvents(token, m, n, intervals, PrevAfterAll(prev, token, ticks), events[1..]);
        case FinalizeDue(_, _, _) =>
          SameLaneEvents(token, m, n, intervals, prev, events[1..]);
      }
    }
  }

  /** In one builder, the n-minute chart is the m-minute chart merged, timer calls included. */
  lemma ChartsNest(intervals: seq<Minutes>, events: seq<Event>, token: int, m: Minutes, n: Minutes)
    requires n % m == 0 && Multiplicity(intervals, m) == Multiplicity(intervals, n) == 1
    requires NoReopening(IDLE, Key(token, m), Project(Key(token, m), intervals, None, events))
    requires NoReopening(IDLE, Key(token, n), Project(Key(token, n), intervals, None, events))
    ensures Coarsen(Chart(intervals, events, Key(token, m)), n) == Chart(intervals, events, Key(token, n))
  {
    SameLaneEvents(token, m, n, intervals, None, events);
    ChartIsBarsOf(intervals, events, Key(token, m));
    ChartIsBarsOf(intervals, events, Key(token, n));
    CoarseningCommutes(token, m, n, TradeList(Project(Key(token, m), intervals, None, events)));
  }

  // ----- Volume -----

  function ClosedVolume(cs: seq<Closed>): real {
    if cs == [] then 0.0 else ClosedVolume(cs[..|cs| - 1]) + cs[|cs| - 1].bar.volume
  }

  /** Volume over all bars of a lane, placeholders and the bar in progress included. */
  function TotalVolume(l: Lane): real {
    ClosedVolume(l.out) + if l.cur.Some? then l.cur.value.volume else 0.0
  }

  function FedVolume(events: seq<LaneEvent>): real {
    if events == [] then 0.0
    else (if events[0].Traded? then events[0].trade.vol else 0.0) + FedVolume(events[1..])
  }

  lemma ClosedVolumeSnoc(cs: seq<Closed>, c: Closed)
    ensures ClosedVolume(cs + [c]) == ClosedVolume(cs) + c.bar.volume
  {
    assert (cs + [c])[..|cs|] == cs;
  }

  lemma {:induction false} TimerKeepsVolume(l: Lane, now: int, graceMs: int, bars: int)
    ensures TotalVolume(LaneTimer(l, now, graceMs, bars)) == TotalVolume(l)
    decreases bars
  {
    if bars > 0 && l.cur.Some? && IsDue(l.cur.value, now, graceMs) {
      ClosedVolumeSnoc(l.out, Closed(l.cur.value, ByTimer(now, StaleMs(now, l.last))));
      TimerKeepsVolume(CloseByTimer(l, now), now, graceMs, bars - 1);
    }
  }

  lemma {:induction false} LaneVolume(l: Lane, k: Key, events: seq<LaneEvent>)
    ensures TotalVolume(LaneRun(l, k, events)) == TotalVolume(l) + FedVolume(events)
    decreases events
  {
    if events != [] {
      LaneVolume(LaneStep(l, k, events[0]), k, events[1..]);
      match events[0] {
        case Traded(t) =>
          if l.cur.Some? {
            ClosedVolumeSnoc(l.out, Closed(l.cur.value, ByTick));
          }
        case Timer(now, graceMs, maxBars) =>
          TimerKeepsVolume(l, now, graceMs, maxBars);
      }
    }
  }

  /** The day-volume readings of one token over a whole run. */
  function DayVolumes(token: int, ticks: seq<Tick>): seq<real> {
    if ticks == [] then []
    else (if Usable(ticks[0]) && ticks[0].token == token then [ticks[0].dayVol] else []) + DayVolumes(token, ticks[1..])
  }

  function AllTicks(events: seq<Event>): seq<Tick> {
    if events == [] then []
    else (if events[0].OnTicks? then events[0].ticks else []) + AllTicks(events[1..])
  }

  function Multiplicity(intervals: seq<Minutes>, m: Minutes): nat {
    if intervals == [] then 0 else (if intervals[0] == m then 1 else 0) + Multiplicity(intervals[1..], m)
  }

  /** Volume the ticks of one token add per interval. */
  function TokenVolume(token: int, prev: Option<real>, ticks: seq<Tick>): real
    decreases ticks
  {
    if ticks == [] then 0.0
    else
      var t := ticks[0];
      (if Usable(t) && t.token == token then VolAdd(prev, t.ltq, t.dayVol) else 0.0) +
      TokenVolume(token, PrevAfter(prev, token, t), ticks[1..])
  }

  lemma {:induction false} FedVolumeConcat(a: seq<LaneEvent>, b: seq<LaneEvent>)
    ensures FedVolume(a + b) == FedVolume(a) + FedVolume(b)
  {
    if a == [] {
      assert a + b == b;
    } else {
      assert (a + b)[0] == a[0] && (a + b)[1..] == a[1..] + b;
      FedVolumeConcat(a[1..], b);
    }
  }

  lemma {:induction false} TicksVolume(k: Key, intervals: seq<Minutes>, prev: Option<real>, ticks: seq<Tick>)
    requires Multiplicity(intervals, k.interval) == 1
    ensures FedVolume(TickTrades(k, intervals, prev, ticks)) == TokenVolume(k.token, prev, ticks)
    decreases ticks
  {
    if ticks != [] {
      var t := ticks[0];
      var rest := TickTrades(k, intervals, PrevAfter(prev, k.token, t), ticks[1..]);
      TicksVolume(k, intervals, PrevAfter(prev, k.token, t), ticks[1..]);
      if Usable(t) && t.token == k.token {
        var tr := Trade(t.ts, t.price.value, VolAdd(prev, t.ltq, t.dayVol));
        IntervalTradesOnce(k, intervals, tr);
        FedVolumeConcat([Traded(tr)], rest);
        assert FedVolume([Traded(tr)]) == tr.vol + FedVolume([]);
      } else {
        assert [] + rest == rest;
      }
    }
  }

  lemma {:induction false} TokenVolumeConcat(token: int, prev: Option<real>, a: seq<Tick>, b: seq<Tick>)
    ensures TokenVolume(token, prev, a + b) ==
            TokenVolume(token, prev, a) + TokenVolume(token, PrevAfterAll(prev, token, a), b)
    decreases a
  {
    if a == [] {
      assert a + b == b;
    } else {
      assert (a + b)[0] == a[0] && (a + b)[1..] == a[1..] + b;
      TokenVolumeConcat(token, PrevAfter(prev, token, a[0]), a[1..], b);
    }
  }

  lemma {:induction false} ProjectedVolume(k: Key, intervals: seq<Minutes>, prev: Option<real>, events: seq<Event>)
    requires Multiplicity(intervals, k.interval) == 1
    ensures FedVolume(Project(k, intervals, prev, events)) == TokenVolume(k.token, prev, AllTicks(events))
    decreases events
  {
    if events != [] {
      match events[0] {
        case OnTicks(ticks) =>
          var prev' := PrevAfterAll(prev, k.token, ticks);
          TicksVolume(k, intervals, prev, ticks);
          ProjectedVolume(k, intervals, prev', events[1..]);
          FedVolumeConcat(TickTrades(k, intervals, prev, ticks), Project(k, intervals, prev', events[1..]));
          TokenVolumeConcat(k.token, prev, ticks, AllTicks(events[1..]));
        case FinalizeDue(now, graceMs, maxBars) =>
          ProjectedVolume(k, intervals, prev, events[1..]);
          FedVolumeConcat([Timer(now, graceMs, maxBars)], Project(k, intervals, prev, events[1..]));
          assert FedVolume([Timer(now, graceMs, maxBars)]) == 0.0;
          assert [] + AllTicks(events[1..]) == AllTicks(events[1..]);
      }
    }
  }

  /** Sum of the readings just before the day volume dropped. */
  function ResetSum(d: seq<real>): real {
    if |d| < 2 then 0.0
    else ResetSum(d[1..]) + if d[1] < d[0] then d[0] else 0.0
  }

  lemma {:induction false} DeltasTelescope(token: int, prev: Option<real>, ticks: seq<Tick>)
    requires forall i :: 0 <= i < |ticks| ==> ticks[i].ltq <= 0.0 && ticks[i].dayVol >= 0.0
    requires prev.Some? ==> prev.value >= 0.0
    ensures var d := (if prev.Some? then [prev.value] else []) + DayVolumes(token, ticks);
            TokenVolume(token, prev, ticks) == (if d == [] then 0.0 else d[|d| - 1] - d[0] + ResetSum(d))
    decreases ticks
  {
    hide VolAdd, ResetSum;
    var old' := if prev.Some? then [prev.value] else [];
    if ticks == [] {
      ResetSumShort(old');
      assert old' + DayVolumes(token, ticks) == old';
    } else {
      var t := ticks[0];
      DeltaOf(prev, t.ltq, t.dayVol);
      DeltasTelescope(token, PrevAfter(prev, token, t), ticks[1..]);
      if Usable(t) && t.token == token {
        var rest := [t.dayVol] + DayVolumes(token, ticks[1..]);
        assert DayVolumes(token, ticks) == rest;
        if prev.Some? {
          ResetSumCons(prev.value, rest);
          assert (old' + rest)[|rest|] == rest[|rest| - 1];
        }
        assert old' + rest == if prev.Some? then [prev.value] + rest else rest;
      } else {
        assert [] + DayVolumes(token, ticks[1..]) == DayVolumes(token, ticks[1..]);
      }
    }
  }

  lemma ResetSumShort(d: seq<real>)
    requires |d| < 2
    ensures ResetSum(d) == 0.0
  {
  }

  /** Without a last-traded quantity a tick adds the change of the day volume, counted afresh after a reset. */
  lemma DeltaOf(prev: Option<real>, ltq: real, dayVol: real)
    requires ltq <= 0.0 && dayVol >= 0.0
    ensures VolAdd(prev, ltq, dayVol) ==
            if prev.None? then 0.0 else dayVol - prev.value + if dayVol < prev.value then prev.value else 0.0
  {
  }

  lemma ResetSumCons(p: real, rest: seq<real>)
    requires rest != []
    ensures ResetSum([p] + rest) == ResetSum(rest) + if rest[0] < p then p else 0.0
  {
    assert ([p] + rest)[1..] == rest;
  }

  /**
   The volume shown over all bars of a token is the same for every configured interval, whatever
   the timer did, and it telescopes through day-volume resets.
   */
  lemma VolumeConserved(intervals: seq<Minutes>, events: seq<Event>, k: Key)
    requires Multiplicity(intervals, k.interval) == 1
    requires forall i :: 0 <= i < |AllTicks(events)| ==>
                           AllTicks(events)[i].ltq <= 0.0 && AllTicks(events)[i].dayVol >= 0.0
    ensures var d := DayVolumes(k.token, AllTicks(events));
            TotalVolume(LaneOf(Run(Outcome(EMPTY, []), intervals, events), k)) ==
            if d == [] then 0.0 else d[|d| - 1] - d[0] + ResetSum(d)
  {
    RunSplitsIntoLanes(Outcome(EMPTY, []), intervals, events, k);
    LaneVolume(IDLE, k, Project(k, intervals, None, events));
    ProjectedVolume(k, intervals, None, events);
    DeltasTelescope(k.token, None, AllTicks(events));
    assert [] + DayVolumes(k.token, AllTicks(events)) == DayVolumes(k.token, AllTicks(events));
  }
}

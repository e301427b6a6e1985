/**
 Whole-run properties of the candle engine.  A run of the builder splits into independent
 lanes, one per token and interval; each property is proved on lanes and then carried back
 to the builder.
 */
module CandleRuns {
  import opened Common
  import opened Candles

  datatype Trade = Trade(ts: int, price: real, vol: real)

  datatype LaneEvent = Traded(trade: Trade) | Timer(now: int, graceMs: int, maxBars: int)

  datatype Lane = Lane(cur: Option<Candle>, last: Option<int>, out: seq<Closed>)

  const IDLE := Lane(None, None, [])

  // ----- One lane -----

  function LaneTrade(l: Lane, k: Key, t: Trade): Lane {
    var bucket := BucketStart(t.ts, k.interval);
    var fresh' := Some(NewCandle(k, bucket, t.price, t.vol));
    match l.cur
    case None => Lane(fresh', Some(t.ts), l.out)
    case Some(c) =>
      if c.ts != bucket then Lane(fresh', Some(t.ts), l.out + [Closed(c, ByTick)])
      else Lane(Some(Absorb(c, t.price, t.vol)), Some(t.ts), l.out)
  }

  function LaneTimer(l: Lane, now: int, graceMs: int, bars: int): Lane
    decreases bars
  {
    if bars <= 0 || l.cur.None? || !IsDue(l.cur.value, now, graceMs) then l
    else LaneTimer(CloseByTimer(l, now), now, graceMs, bars - 1)
  }

  function CloseByTimer(l: Lane, now: int): Lane
    requires l.cur.Some?
  {
    Lane(Some(Placeholder(l.cur.value)), l.last, l.out + [Closed(l.cur.value, ByTimer(now, StaleMs(now, l.last)))])
  }

  /** Bar number `i` of a timer call that starts from `c`: `c` itself, then flat bars at its close, without a gap. */
  function TimerBar(c: Candle, i: nat): Candle {
    if i == 0 then c
    else Candle(c.token, c.interval, c.ts + i * (c.interval * 60000), c.close, c.close, c.close, c.close, 0.0,
                SyntheticTimer, true)
  }

  /** The bar is over by the grace, and the time is not within it. */
  predicate Overdue(c: Candle, i: nat, now: int, graceMs: int) {
    var start, length := c.ts + i * (c.interval * 60000), c.interval * 60000;
    now >= start + length + graceMs && !StartsBar(start, now, c.interval)
  }

  lemma FirstIsDue(c: Candle, now: int, graceMs: int)
    ensures IsDue(c, now, graceMs) <==> Overdue(c, 0, now, graceMs)
    ensures TimerBar(c, 0) == c
  {
    BucketHolds(now, c.interval, c.ts);
    assert 0 * (c.interval * 60000) == 0;
    hide BucketStart, StartsBar;
  }

  lemma NextTimerBar(c: Candle, i: nat, now: int, graceMs: int)
    ensures TimerBar(Placeholder(c), i) == TimerBar(c, i + 1)
    ensures Overdue(Placeholder(c), i, now, graceMs) <==> Overdue(c, i + 1, now, graceMs)
  {
    OneBarOn(c, i);
    hide StartsBar;
  }

  lemma OneBarOn(c: Candle, i: nat)
    ensures Placeholder(c).ts + i * (c.interval * 60000) == c.ts + (i + 1) * (c.interval * 60000)
  {
    var length := c.interval * 60000;
    assert (i + 1) * length == i * length + length;
  }

  /** Bar `i` counted from `l` was overdue and was closed in `r`, noting the time and the age of the last tick. */
  ghost predicate ClosedAt(l: Lane, r: Lane, now: int, graceMs: int, i: nat)
    requires l.cur.Some? && |l.out| + i < |r.out|
  {
    && Overdue(l.cur.value, i, now, graceMs)
    && r.out[|l.out| + i].bar == TimerBar(l.cur.value, i)
    && r.out[|l.out| + i].finalizedBy == ByTimer(now, if l.last.Some? then Some(now - l.last.value) else None)
  }

  /** From `l` to `r`, `n` bars were closed: all that were over by the grace, but no more than allowed. */
  ghost predicate ClosedOnTime(l: Lane, r: Lane, now: int, graceMs: int, bars: int, n: nat)
    requires l.cur.Some?
  {
    && n <= MaxInt(0, bars) && r.cur == Some(TimerBar(l.cur.value, n)) && r.last == l.last
    && |r.out| == |l.out| + n && r.out[..|l.out|] == l.out
    && (forall i :: 0 <= i < n ==> ClosedAt(l, r, now, graceMs, i))
    && (n < bars ==> !Overdue(l.cur.value, n, now, graceMs))
  }

  /**
   A timer call closes the bar in progress and flat bars after it, as many as are over by the grace at that time, but
   no more than allowed; each records the time and how long ago the last tick was, and the next bar is in progress.
   */
  lemma {:induction false} TimerCloses(l: Lane, now: int, graceMs: int, bars: int) returns (n: nat)
    requires l.cur.Some?
    ensures ClosedOnTime(l, LaneTimer(l, now, graceMs, bars), now, graceMs, bars, n)
    decreases bars
  {
    FirstIsDue(l.cur.value, now, graceMs);
    n := 0;
    if bars > 0 && IsDue(l.cur.value, now, graceMs) {
      hide *;
      var next := CloseByTimer(l, now);
      ClosedHasNext(l, now);
      var m := TimerCloses(next, now, graceMs, bars - 1);
      TimerStep(l, next, LaneTimer(next, now, graceMs, bars - 1), now, graceMs, bars, m);
      n := m + 1;
      TimerUnfolds(l, now, graceMs, bars);
    } else {
      NothingClosed(l, now, graceMs, bars);
    }
  }

  lemma ClosedHasNext(l: Lane, now: int)
    requires l.cur.Some?
    ensures CloseByTimer(l, now).cur.Some?
  {
  }

  lemma TimerUnfolds(l: Lane, now: int, graceMs: int, bars: int)
    requires bars > 0 && l.cur.Some? && IsDue(l.cur.value, now, graceMs)
    ensures LaneTimer(l, now, graceMs, bars) == LaneTimer(CloseByTimer(l, now), now, graceMs, bars - 1)
  {
    hide IsDue, CloseByTimer;
  }

  lemma NothingClosed(l: Lane, now: int, graceMs: int, bars: int)
    requires l.cur.Some? && (bars <= 0 || !IsDue(l.cur.value, now, graceMs))
    ensures ClosedOnTime(l, LaneTimer(l, now, graceMs, bars), now, graceMs, bars, 0)
  {
    FirstIsDue(l.cur.value, now, graceMs);
    hide IsDue, Overdue;
  }

  /** The bars closed after the first are those the call closes from the placeholder on. */
  lemma TimerStep(l: Lane, next: Lane, r: Lane, now: int, graceMs: int, bars: int, m: nat)
    requires bars > 0 && l.cur.Some? && next == CloseByTimer(l, now) && next.cur.Some?
    requires Overdue(l.cur.value, 0, now, graceMs) && ClosedOnTime(next, r, now, graceMs, bars - 1, m)
    ensures ClosedOnTime(l, r, now, graceMs, bars, m + 1)
  {
    var c := l.cur.value;
    NextTimerBar(c, m, now, graceMs);
    hide Overdue, TimerBar, ClosedAt, Placeholder;
    assert r.out[..|l.out|] == next.out[..|l.out|] == l.out;
    forall i | 0 <= i < m + 1
      ensures ClosedAt(l, r, now, graceMs, i)
    {
      if i == 0 {
        FirstClosed(l, next, r, now, graceMs);
      } else {
        ClosedOneOn(l, next, r, now, graceMs, i - 1);
      }
    }
  }

  lemma FirstClosed(l: Lane, next: Lane, r: Lane, now: int, graceMs: int)
    requires l.cur.Some? && next == CloseByTimer(l, now) && Overdue(l.cur.value, 0, now, graceMs)
    requires |next.out| <= |r.out| && r.out[..|next.out|] == next.out
    ensures ClosedAt(l, r, now, graceMs, 0)
  {
    FirstIsDue(l.cur.value, now, graceMs);
    hide Overdue, TimerBar;
    assert r.out[|l.out|] == next.out[|l.out|];
  }

  lemma ClosedOneOn(l: Lane, next: Lane, r: Lane, now: int, graceMs: int, i: nat)
    requires l.cur.Some? && next == CloseByTimer(l, now) && next.cur.Some? && |next.out| + i < |r.out|
    requires ClosedAt(next, r, now, graceMs, i)
    ensures ClosedAt(l, r, now, graceMs, i + 1)
  {
    NextTimerBar(l.cur.value, i, now, graceMs);
    hide Overdue, TimerBar, Placeholder;
  }

  function LaneStep(l: Lane, k: Key, e: LaneEvent): Lane {
    match e
    case Traded(t) => LaneTrade(l, k, t)
    case Timer(now, graceMs, maxBars) => LaneTimer(l, now, graceMs, maxBars)
  }

  function LaneRun(l: Lane, k: Key, events: seq<LaneEvent>): Lane
    decreases events
  {
    if events == [] then l else LaneRun(LaneStep(l, k, events[0]), k, events[1..])
  }

  lemma {:induction false} LaneRunConcat(l: Lane, k: Key, a: seq<LaneEvent>, b: seq<LaneEvent>)
    ensures LaneRun(l, k, a + b) == LaneRun(LaneRun(l, k, a), k, b)
    decreases a
  {
    if a == [] {
      assert a + b == b;
    } else {
      assert (a + b)[0] == a[0] && (a + b)[1..] == a[1..] + b;
      LaneRunConcat(LaneStep(l, k, a[0]), k, a[1..], b);
    }
  }

  // ----- A builder run is its lanes -----

  function OfKey(cs: seq<Closed>, k: Key): seq<Closed> {
    if cs == [] then []
    else
      var c := cs[|cs| - 1];
      OfKey(cs[..|cs| - 1], k) + if Key(c.bar.token, c.bar.interval) == k then [c] else []
  }

  lemma OfKeySnoc(cs: seq<Closed>, c: Closed, k: Key)
    ensures OfKey(cs + [c], k) == OfKey(cs, k) + if Key(c.bar.token, c.bar.interval) == k then [c] else []
  {
    assert (cs + [c])[..|cs|] == cs;
  }

  function LaneOf(o: Outcome, k: Key): Lane {
    Lane(Lookup(o.state.current, k), Lookup(o.state.lastTick, k), OfKey(o.closed, k))
  }

  /** The trades one usable tick gives lane `k`: one per occurrence of its interval in the list. */
  function IntervalTrades(k: Key, intervals: seq<Minutes>, token: int, t: Trade): seq<LaneEvent> {
    if intervals == [] then []
    else (if Key(token, intervals[0]) == k then [Traded(t)] else []) + IntervalTrades(k, intervals[1..], token, t)
  }

  function PrevAfter(prev: Option<real>, token: int, t: Tick): Option<real> {
    if Usable(t) && t.token == token then Some(t.dayVol) else prev
  }

  function TickTrades(k: Key, intervals: seq<Minutes>, prev: Option<real>, ticks: seq<Tick>): seq<LaneEvent>
    decreases ticks
  {
    if ticks == [] then []
    else
      var t := ticks[0];
      (if Usable(t) && t.token == k.token
       then IntervalTrades(k, intervals, t.token, Trade(t.ts, t.price.value, VolAdd(prev, t.ltq, t.dayVol)))
       else []) + TickTrades(k, intervals, PrevAfter(prev, k.token, t), ticks[1..])
  }

  function PrevAfterAll(prev: Option<real>, token: int, ticks: seq<Tick>): Option<real>
    decreases ticks
  {
    if ticks == [] then prev else PrevAfterAll(PrevAfter(prev, token, ticks[0]), token, ticks[1..])
  }

  /** What lane `k` sees of a builder run. */
  function Project(k: Key, intervals: seq<Minutes>, prev: Option<real>, events: seq<Event>): seq<LaneEvent>
    decreases events
  {
    if events == [] then []
    else
      match events[0]
      case OnTicks(ticks) =>
        TickTrades(k, intervals, prev, ticks) +
        Project(k, intervals, PrevAfterAll(prev, k.token, ticks), events[1..])
      case FinalizeDue(now, graceMs, maxBars) =>
        [Timer(now, graceMs, maxBars)] + Project(k, intervals, prev, events[1..])
  }

  lemma FeedKeyLane(o: Outcome, fed: Key, t: Trade, k: Key)
    requires Valid(o.state)
    ensures var r := FeedKey(o, fed, t.ts, t.price, t.vol);
            && LaneOf(r, k) == (if fed == k then LaneTrade(LaneOf(o, k), k, t) else LaneOf(o, k))
            && r.state.prevDay == o.state.prevDay
  {
    hide BucketStart, Absorb, OfKey, NewCandle;
    if fed in o.state.current {
      OfKeySnoc(o.closed, Closed(o.state.current[fed], ByTick), k);
    }
  }

  lemma {:induction false} FeedIntervalsLane(
      o: Outcome, intervals: seq<Minutes>, token: int, t: Trade, k: Key)
    requires Valid(o.state)
    ensures var r := FeedIntervals(o, intervals, token, t.ts, t.price, t.vol);
            && LaneOf(r, k) == LaneRun(LaneOf(o, k), k, IntervalTrades(k, intervals, token, t))
            && r.state.prevDay == o.state.prevDay
    decreases intervals
  {
    if intervals != [] {
      var fed := Key(token, intervals[0]);
      var mid := FeedKey(o, fed, t.ts, t.price, t.vol);
      FeedKeyLane(o, fed, t, k);
      FeedKeyValid(o, fed, t.ts, t.price, t.vol);
      FeedIntervalsLane(mid, intervals[1..], token, t, k);
      var head := if fed == k then [Traded(t)] else [];
      LaneRunConcat(LaneOf(o, k), k, head, IntervalTrades(k, intervals[1..], token, t));
    }
  }

  lemma {:induction false} IntervalTradesOther(k: Key, intervals: seq<Minutes>, token: int, t: Trade)
    requires token != k.token
    ensures IntervalTrades(k, intervals, token, t) == []
  {
    if intervals != [] {
      IntervalTradesOther(k, intervals[1..], token, t);
    }
  }

  lemma {:induction false} FeedTicksLane(o: Outcome, intervals: seq<Minutes>, ticks: seq<Tick>, k: Key)
    requires Valid(o.state)
    ensures var prev := Lookup(o.state.prevDay, k.token);
            var r := FeedTicks(o, intervals, ticks);
            && LaneOf(r, k) == LaneRun(LaneOf(o, k), k, TickTrades(k, intervals, prev, ticks))
            && Lookup(r.state.prevDay, k.token) == PrevAfterAll(prev, k.token, ticks)
    decreases ticks
  {
    if ticks != [] {
      var t := ticks[0];
      var prev := Lookup(o.state.prevDay, k.token);
      var mid := FeedTick(o, intervals, t);
      var head: seq<LaneEvent> := [];
      if Usable(t) {
        var vol := VolAdd(Lookup(o.state.prevDay, t.token), t.ltq, t.dayVol);
        var tr := Trade(t.ts, t.price.value, vol);
        var start := o.(state := o.state.(prevDay := o.state.prevDay[t.token := t.dayVol]));
        FeedIntervalsLane(start, intervals, t.token, tr, k);
        FeedIntervalsValid(start, intervals, t.token, tr.ts, tr.price, tr.vol);
        if t.token == k.token {
          head := IntervalTrades(k, intervals, t.token, tr);
        } else {
          IntervalTradesOther(k, intervals, t.token, tr);
        }
      }
      FeedTicksLane(mid, intervals, ticks[1..], k);
      LaneRunConcat(LaneOf(o, k), k, head,
                    TickTrades(k, intervals, PrevAfter(prev, k.token, t), ticks[1..]));
    }
  }

  lemma {:induction false} FinalizeKeyLane(o: Outcome, done: Key, now: int, graceMs: int, bars: int, k: Key)
    requires Valid(o.state)
    ensures var r := FinalizeKey(o, done, now, graceMs, bars);
            && LaneOf(r, k) == (if done == k then LaneTimer(LaneOf(o, k), now, graceMs, bars) else LaneOf(o, k))
            && r.state.prevDay == o.state.prevDay
    decreases bars
  {
    hide BucketStart, IsDue, OfKey, Valid, Placeholder, StaleMs;
    if bars > 0 && done in o.state.current && IsDue(o.state.current[done], now, graceMs) {
      var c := o.state.current[done];
      var emitted := Closed(c, ByTimer(now, StaleMs(now, Lookup(o.state.lastTick, done))));
      var mid := Outcome(o.state.(current := o.state.current[done := Placeholder(c)]), o.closed + [emitted]);
      OfKeySnoc(o.closed, emitted, k);
      PlaceholderFits(o.state, done);
      assert LaneOf(mid, k) == if done == k then CloseByTimer(LaneOf(o, k), now) else LaneOf(o, k);
      FinalizeKeyLane(mid, done, now, graceMs, bars - 1, k);
    }
  }

  lemma {:induction false} FinalizeKeysLane(o: Outcome, keys: seq<Key>, now: int, graceMs: int, bars: int, k: Key)
    requires Valid(o.state)
    requires forall i, j :: 0 <= i < j < |keys| ==> keys[i] != keys[j]
    ensures var r := FinalizeKeys(o, keys, now, graceMs, bars);
            && LaneOf(r, k) == (if k in keys then LaneTimer(LaneOf(o, k), now, graceMs, bars) else LaneOf(o, k))
            && r.state.prevDay == o.state.prevDay
    decreases keys
  {
    if keys != [] {
      FinalizeKeyLane(o, keys[0], now, graceMs, bars, k);
      FinalizeKeysLane(FinalizeKey(o, keys[0], now, graceMs, bars), keys[1..], now, graceMs, bars, k);
      assert k in keys <==> k == keys[0] || k in keys[1..];
    }
  }

  /** Every lane of a run evolves on its own, whatever the other tokens and intervals do. */
  lemma {:induction false} RunSplitsIntoLanes(o: Outcome, intervals: seq<Minutes>, events: seq<Event>, k: Key)
    requires Valid(o.state)
    ensures LaneOf(Run(o, intervals, events), k) ==
            LaneRun(LaneOf(o, k), k, Project(k, intervals, Lookup(o.state.prevDay, k.token), events))
    decreases events
  {
    if events != [] {
      var prev := Lookup(o.state.prevDay, k.token);
      var mid := Step(o, intervals, events[0]);
      RunSplitsIntoLanes(mid, intervals, events[1..], k);
      match events[0] {
        case OnTicks(ticks) =>
          FeedTicksLane(o, intervals, ticks, k);
          LaneRunConcat(LaneOf(o, k), k, TickTrades(k, intervals, prev, ticks),
                        Project(k, intervals, PrevAfterAll(prev, k.token, ticks), events[1..]));
        case FinalizeDue(now, graceMs, maxBars) =>
          FinalizeKeysLane(o, o.state.keys, now, graceMs, maxBars, k);
          assert k in o.state.keys <==> LaneOf(o, k).cur.Some?;
          LaneRunConcat(LaneOf(o, k), k, [Timer(now, graceMs, maxBars)],
                        Project(k, intervals, prev, events[1..]));
      }
    }
  }

  // ----- Timer erasure -----

  function LiveBars(cs: seq<Closed>): seq<Candle> {
    if cs == [] then []
    else LiveBars(cs[..|cs| - 1]) + if cs[|cs| - 1].bar.synthetic then [] else [cs[|cs| - 1].bar]
  }

  lemma LiveBarsSnoc(cs: seq<Closed>, c: Closed)
    ensures LiveBars(cs + [c]) == LiveBars(cs) + if c.bar.synthetic then [] else [c.bar]
  {
    assert (cs + [c])[..|cs|] == cs;
  }

  /** Emitted bars without placeholders, then the bar in progress unless it is a placeholder. */
  function Bars(l: Lane): seq<Candle> {
    LiveBars(l.out) + if l.cur.Some? && !l.cur.value.synthetic then [l.cur.value] else []
  }

  function TradesOf(events: seq<LaneEvent>): seq<LaneEvent> {
    if events == [] then []
    else (if events[0].Traded? then [events[0]] else []) + TradesOf(events[1..])
  }

  predicate OnPlaceholder(l: Lane) {
    l.cur.Some? && l.cur.value.synthetic
  }

  /** The guard a caller can check before feeding a tick: the bar the last tick went to is still open,
      or the new tick belongs to another bucket. */
  predicate TickStaysOut(l: Lane, k: Key, t: Trade) {
    OnPlaceholder(l) && l.last.Some? ==>
      BucketStart(t.ts, k.interval) != BucketStart(l.last.value, k.interval)
  }

  /** No tick of the run falls into the bucket of the latest real bar after the timer closed it. */
  predicate NoReopening(l: Lane, k: Key, events: seq<LaneEvent>)
    decreases events
  {
    events == [] ||
    (&& (events[0].Traded? ==> TickStaysOut(l, k, events[0].trade))
     && NoReopening(LaneStep(l, k, events[0]), k, events[1..]))
  }

  ghost predicate LaneOk(l: Lane, k: Key) {
    && (l.cur.Some? <==> l.last.Some?)
    && (l.cur.Some? ==>
          var c, bucket := l.cur.value, BucketStart(l.last.value, k.interval);
          && c.token == k.token && c.interval == k.interval
          && (!c.synthetic ==> c.source == Live && c.ts == bucket)
          && (c.synthetic ==> c.source == SyntheticTimer && c.volume == 0.0 && bucket < c.ts))
  }

  /** `f` runs with the timer, `t` without it, and so far they agree. */
  ghost predicate InStep(f: Lane, t: Lane, k: Key) {
    && LaneOk(f, k) && LaneOk(t, k) && !OnPlaceholder(t)
    && f.last == t.last
    && Bars(f) == Bars(t)
    && (f.cur.Some? && !f.cur.value.synthetic ==> f.cur == t.cur && LiveBars(f.out) == LiveBars(t.out))
  }

  /** A bar was reopened: `f` shows more bars than `t`, and does so forever. */
  ghost predicate Split(f: Lane, t: Lane, k: Key) {
    && LaneOk(f, k) && LaneOk(t, k) && !OnPlaceholder(t)
    && f.last == t.last && f.cur.Some?
    && |Bars(f)| > |Bars(t)|
  }

  lemma {:induction false} TimerKeepsBars(l: Lane, k: Key, now: int, graceMs: int, bars: int)
    requires LaneOk(l, k)
    ensures var r := LaneTimer(l, now, graceMs, bars);
            && LaneOk(r, k) && r.last == l.last && Bars(r) == Bars(l)
            && (r.cur.Some? && !r.cur.value.synthetic ==> r == l)
            && (r.cur.None? ==> r == l)
    decreases bars
  {
    if bars > 0 && l.cur.Some? && IsDue(l.cur.value, now, graceMs) {
      var next := CloseByTimer(l, now);
      LiveBarsSnoc(l.out, Closed(l.cur.value, ByTimer(now, StaleMs(now, l.last))));
      TimerKeepsBars(next, k, now, graceMs, bars - 1);
      TimerNeverRevives(next, now, graceMs, bars - 1);
    }
  }

  lemma {:induction false} TimerNeverRevives(l: Lane, now: int, graceMs: int, bars: int)
    requires OnPlaceholder(l)
    ensures OnPlaceholder(LaneTimer(l, now, graceMs, bars))
    decreases bars
  {
    if bars > 0 && IsDue(l.cur.value, now, graceMs) {
      TimerNeverRevives(CloseByTimer(l, now), now, graceMs, bars - 1);
    }
  }

  lemma TradeInStep(f: Lane, t: Lane, k: Key, tr: Trade)
    requires InStep(f, t, k)
    ensures TickStaysOut(f, k, tr) ==> InStep(LaneTrade(f, k, tr), LaneTrade(t, k, tr), k)
    ensures !TickStaysOut(f, k, tr) ==> Split(LaneTrade(f, k, tr), LaneTrade(t, k, tr), k)
  {
    if f.cur.Some? {
      LiveBarsSnoc(f.out, Closed(f.cur.value, ByTick));
      LiveBarsSnoc(t.out, Closed(t.cur.value, ByTick));
      assert OnPlaceholder(f) ==> Bars(f) == LiveBars(f.out);
    } else {
      assert Bars(f) == LiveBars(f.out) && Bars(t) == LiveBars(t.out);
    }
  }

  lemma TradeSplit(f: Lane, t: Lane, k: Key, tr: Trade)
    requires Split(f, t, k)
    ensures Split(LaneTrade(f, k, tr), LaneTrade(t, k, tr), k)
  {
    hide BucketStart;
    LiveBarsSnoc(f.out, Closed(f.cur.value, ByTick));
    LiveBarsSnoc(t.out, Closed(t.cur.value, ByTick));
  }

  lemma TradesOfStep(events: seq<LaneEvent>, t: Lane, k: Key)
    requires events != []
    ensures LaneRun(t, k, TradesOf(events)) ==
            LaneRun(if events[0].Traded? then LaneStep(t, k, events[0]) else t, k, TradesOf(events[1..]))
  {
    LaneRunConcat(t, k, if events[0].Traded? then [events[0]] else [], TradesOf(events[1..]));
  }

  lemma {:induction false} SplitStays(f: Lane, t: Lane, k: Key, events: seq<LaneEvent>)
    requires Split(f, t, k)
    ensures |Bars(LaneRun(f, k, events))| > |Bars(LaneRun(t, k, TradesOf(events)))|
    decreases events
  {
    hide BucketStart;
    if events != [] {
      TradesOfStep(events, t, k);
      match events[0] {
        case Traded(tr) =>
          TradeSplit(f, t, k, tr);
          SplitStays(LaneTrade(f, k, tr), LaneTrade(t, k, tr), k, events[1..]);
        case Timer(now, graceMs, maxBars) =>
          TimerKeepsBars(f, k, now, graceMs, maxBars);
          SplitStays(LaneTimer(f, now, graceMs, maxBars), t, k, events[1..]);
      }
    }
  }

  /** Dropping the placeholders gives the bars of the tick-only run exactly when no closed bar is reopened. */
  lemma {:induction false} LaneErasure(f: Lane, t: Lane, k: Key, events: seq<LaneEvent>)
    requires InStep(f, t, k)
    ensures Bars(LaneRun(f, k, events)) == Bars(LaneRun(t, k, TradesOf(events))) <==> NoReopening(f, k, events)
    decreases events
  {
    hide BucketStart;
    if events != [] {
      TradesOfStep(events, t, k);
      match events[0] {
        case Traded(tr) =>
          TradeInStep(f, t, k, tr);
          if TickStaysOut(f, k, tr) {
            LaneErasure(LaneTrade(f, k, tr), LaneTrade(t, k, tr), k, events[1..]);
          } else {
            SplitStays(LaneTrade(f, k, tr), LaneTrade(t, k, tr), k, events[1..]);
          }
        case Timer(now, graceMs, maxBars) =>
          TimerKeepsBars(f, k, now, graceMs, maxBars);
          LaneErasure(LaneTimer(f, now, graceMs, maxBars), t, k, events[1..]);
      }
    }
  }

  /** The engine's own timer calls left out of a run. */
  function TicksOnly(events: seq<Event>): seq<Event> {
    if events == [] then []
    else (if events[0].OnTicks? then [events[0]] else []) + TicksOnly(events[1..])
  }

  lemma {:induction false} TradesOfConcat(a: seq<LaneEvent>, b: seq<LaneEvent>)
    ensures TradesOf(a + b) == TradesOf(a) + TradesOf(b)
  {
    if a == [] {
      assert a + b == b;
    } else {
      assert (a + b)[0] == a[0] && (a + b)[1..] == a[1..] + b;
      TradesOfConcat(a[1..], b);
    }
  }

  ghost predicate AllTraded(events: seq<LaneEvent>) {
    forall i :: 0 <= i < |events| ==> events[i].Traded?
  }

  lemma {:induction false} TradesOfAllTraded(events: seq<LaneEvent>)
    requires AllTraded(events)
    ensures TradesOf(events) == events
  {
    if events != [] {
      TradesOfAllTraded(events[1..]);
      assert [events[0]] + events[1..] == events;
    }
  }

  lemma {:induction false} IntervalTradesTraded(k: Key, intervals: seq<Minutes>, token: int, t: Trade)
    ensures AllTraded(IntervalTrades(k, intervals, token, t))
  {
    if intervals != [] {
      IntervalTradesTraded(k, intervals[1..], token, t);
    }
  }

  lemma {:induction false} TickTradesTraded(k: Key, intervals: seq<Minutes>, prev: Option<real>, ticks: seq<Tick>)
    ensures AllTraded(TickTrades(k, intervals, prev, ticks))
    decreases ticks
  {
    if ticks != [] {
      var t := ticks[0];
      if Usable(t) && t.token == k.token {
        IntervalTradesTraded(k, intervals, t.token, Trade(t.ts, t.price.value, VolAdd(prev, t.ltq, t.dayVol)));
      }
      TickTradesTraded(k, intervals, PrevAfter(prev, k.token, t), ticks[1..]);
    }
  }

  lemma {:induction false} ProjectTicksOnly(k: Key, intervals: seq<Minutes>, prev: Option<real>, events: seq<Event>)
    ensures Project(k, intervals, prev, TicksOnly(events)) == TradesOf(Project(k, intervals, prev, events))
    decreases events
  {
    if events != [] {
      match events[0] {
        case OnTicks(ticks) =>
          var head := TickTrades(k, intervals, prev, ticks);
          var prev' := PrevAfterAll(prev, k.token, ticks);
          ProjectTicksOnly(k, intervals, prev', events[1..]);
          TickTradesTraded(k, intervals, prev, ticks);
          TradesOfAllTraded(head);
          TradesOfConcat(head, Project(k, intervals, prev', events[1..]));
          assert TicksOnly(events)[0] == events[0] && TicksOnly(events)[1..] == TicksOnly(events[1..]);
        case FinalizeDue(now, graceMs, maxBars) =>
          ProjectTicksOnly(k, intervals, prev, events[1..]);
          assert TicksOnly(events) == TicksOnly(events[1..]);
          var rest := Project(k, intervals, prev, events[1..]);
          TradesOfConcat([Timer(now, graceMs, maxBars)], rest);
          assert TradesOf([Timer(now, graceMs, maxBars)]) == [];
      }
    }
  }

  /** What a chart of lane `k` shows after a run from an empty builder. */
  function Chart(intervals: seq<Minutes>, events: seq<Event>, k: Key): seq<Candle> {
    Bars(LaneOf(Run(Outcome(EMPTY, []), intervals, events), k))
  }

  lemma TimerErasure(intervals: seq<Minutes>, events: seq<Event>, k: Key)
    ensures Chart(intervals, events, k) == Chart(intervals, TicksOnly(events), k) <==>
            NoReopening(IDLE, k, Project(k, intervals, None, events))
  {
    var start := Outcome(EMPTY, []);
    RunSplitsIntoLanes(start, intervals, events, k);
    RunSplitsIntoLanes(start, intervals, TicksOnly(events), k);
    ProjectTicksOnly(k, intervals, None, events);
    LaneErasure(IDLE, IDLE, k, Project(k, intervals, None, events));
  }

  /** No tick's bucket is older than the bar in progress. */
  predicate InOrder(l: Lane, k: Key, events: seq<LaneEvent>)
    decreases events
  {
    events == [] ||
    (&& (events[0].Traded? && l.cur.Some? ==> BucketStart(events[0].trade.ts, k.interval) >= l.cur.value.ts)
     && InOrder(LaneStep(l, k, events[0]), k, events[1..]))
  }

  lemma {:induction false} InOrderNeverReopens(l: Lane, k: Key, events: seq<LaneEvent>)
    requires LaneOk(l, k) && InOrder(l, k, events)
    ensures NoReopening(l, k, events)
    decreases events
  {
    if events != [] {
      match events[0] {
        case Traded(tr) =>
          assert LaneOk(LaneTrade(l, k, tr), k);
        case Timer(now, graceMs, maxBars) =>
          TimerKeepsBars(l, k, now, graceMs, maxBars);
      }
      InOrderNeverReopens(LaneStep(l, k, events[0]), k, events[1..]);
    }
  }

  /** In particular the timer is invisible on every run in which no tick is older than the bar in progress. */
  lemma TimerErasureInOrder(intervals: seq<Minutes>, events: seq<Event>, k: Key)
    requires InOrder(IDLE, k, Project(k, intervals, None, events))
    ensures Chart(intervals, events, k) == Chart(intervals, TicksOnly(events), k)
  {
    InOrderNeverReopens(IDLE, k, Project(k, intervals, None, events));
    TimerErasure(intervals, events, k);
  }

  /**
   A tick of 00:00:45 arriving after the timer closed the 00:00 bar makes the engine emit that
   minute twice, so some runs do differ from their tick-only form.
   */
  lemma LateTickReopens()
    ensures var tick := (ts: int) => Tick(7, Some(100.0), ts, 1.0, 0.0);
            var events := [OnTicks([tick(30000)]), FinalizeDue(62000, 1500, 3), OnTicks([tick(45000)])];
            Chart([1], events, Key(7, 1)) != Chart([1], TicksOnly(events), Key(7, 1))
  {
    var k := Key(7, 1);
    var first, late := Tick(7, Some(100.0), 30000, 1.0, 0.0), Tick(7, Some(100.0), 45000, 1.0, 0.0);
    var events := [OnTicks([first]), FinalizeDue(62000, 1500, 3), OnTicks([late])];
    var lane := [Traded(Trade(30000, 100.0, 1.0)), Timer(62000, 1500, 3), Traded(Trade(45000, 100.0, 1.0))];
    assert events[1..] == [FinalizeDue(62000, 1500, 3), OnTicks([late])];
    assert events[1..][1..] == [OnTicks([late])];
    assert TickTrades(k, [1], None, [first]) == [lane[0]];
    assert TickTrades(k, [1], Some(0.0), [late]) == [lane[2]];
    assert Project(k, [1], Some(0.0), [OnTicks([late])]) == [lane[2]];
    assert Project(k, [1], Some(0.0), events[1..]) == [lane[1], lane[2]];
    assert PrevAfterAll(None, 7, [first]) == Some(0.0);
    assert Project(k, [1], None, events) == lane;
    var live := LaneStep(IDLE, k, lane[0]);
    assert IsDue(live.cur.value, 62000, 1500);
    var parked := LaneStep(live, k, lane[1]);
    assert parked == LaneTimer(CloseByTimer(live, 62000), 62000, 1500, 2) == CloseByTimer(live, 62000);
    assert !TickStaysOut(parked, k, lane[2].trade);
    assert lane[1..] == [lane[1], lane[2]] && lane[1..][1..] == [lane[2]];
    assert !NoReopening(live, k, lane[1..]);
    TimerErasure([1], events, k);
  }
}

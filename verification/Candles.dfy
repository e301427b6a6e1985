/**
 The tick-to-candle engine.  Times are integer milliseconds of local wall-clock time, so an
 hour boundary is a multiple of 3600000.  The class keeps the state of the original; the
 functions below it say what one call computes, and the lemmas talk about whole runs.
 */
module Candles {
  import opened Common

  const MS_PER_MINUTE := 60000
  const MS_PER_HOUR := 3600000

  /** An interval length in whole minutes, as a configured interval list holds it. */
  type Minutes = m: int | m >= 1 witness 1

  datatype Source = Live | SyntheticTimer

  datatype Candle = Candle(
    token: int, interval: Minutes, ts: int,
    open: real, high: real, low: real, close: real, volume: real,
    source: Source, synthetic: bool)

  /** Who closed a bar: the next bucket's tick, or the wall-clock timer. */
  datatype Finalizer = ByTick | ByTimer(now: int, staleMs: Option<int>)

  datatype Closed = Closed(bar: Candle, finalizedBy: Finalizer)

  /** A tick with its volume fields already read; `price` is None when it is not a finite number. */
  datatype Tick = Tick(token: int, price: Option<real>, ts: int, ltq: real, dayVol: real)

  datatype Key = Key(token: int, interval: Minutes)

  /** `keys` is the insertion order of `current`, which is the order a timer call visits it in. */
  datatype Builder = Builder(
    keys: seq<Key>, current: map<Key, Candle>, prevDay: map<int, real>, lastTick: map<Key, int>)

  datatype Outcome = Outcome(state: Builder, closed: seq<Closed>)

  datatype Event = OnTicks(ticks: seq<Tick>) | FinalizeDue(now: int, graceMs: int, maxBars: int)

  const EMPTY := Builder([], map[], map[], map[])

  // ----- Single candles -----

  function BucketStart(ts: int, intervalMin: Minutes): int
  {
    var minute := ts / MS_PER_MINUTE % 60;
    ts - ts % MS_PER_HOUR + minute / intervalMin * intervalMin * MS_PER_MINUTE
  }

  /** The start of a bar, told by the times around it. */
  predicate StartsBar(b: int, ts: int, m: Minutes) {
    && b <= ts < b + m * 60000
    && b / 3600000 == ts / 3600000
    && b % 60000 == 0
    && b / 60000 % 60 % m == 0
  }

  /**
   A time lies in the bar its bucket starts: the bar starts in the same hour, on a whole minute that is a multiple of
   the interval, at or before the time, and ends after it.  No other start has these properties.
   */
  lemma BucketHolds(ts: int, m: Minutes, b: int)
    ensures StartsBar(b, ts, m) <==> b == BucketStart(ts, m)
  {
    var hour, minute := ts / 3600000, ts % 3600000 / 60000;
    var floor := minute / m * m;
    BucketInParts(ts, m);
    FloorWithin(minute, m);
    HourAndMinute(hour, floor, 0);
    HourAndMinute(hour, minute, ts % 60000);
    hide BucketStart;
    if StartsBar(b, ts, m) {
      var x := b / 60000 % 60;
      StartInParts(b);
      OnlyFloor(minute, m, x);
    }
  }

  lemma BucketInParts(ts: int, m: Minutes)
    ensures var hour, minute := ts / 3600000, ts % 3600000 / 60000;
            && BucketStart(ts, m) == 3600000 * hour + minute / m * m * 60000
            && ts == 3600000 * hour + minute * 60000 + ts % 60000 && 0 <= minute < 60
  {
    var hour, rest := ts / 3600000, ts % 3600000;
    var minute := rest / 60000;
    assert ts == 3600000 * hour + rest;
    assert ts == 60000 * (60 * hour + minute) + rest % 60000;
    DivUnique(ts, 60000, 60 * hour + minute, rest % 60000);
    DivUnique(60 * hour + minute, 60, hour, minute);
  }

  lemma HourAndMinute(hour: int, minute: int, rest: int)
    requires 0 <= minute < 60 && 0 <= rest < 60000
    ensures var b := 3600000 * hour + minute * 60000 + rest;
            b / 3600000 == hour && b % 60000 == rest && b / 60000 % 60 == minute
  {
    var b := 3600000 * hour + minute * 60000 + rest;
    DivUnique(b, 3600000, hour, minute * 60000 + rest);
    DivUnique(b, 60000, 60 * hour + minute, rest);
    DivUnique(60 * hour + minute, 60, hour, minute);
  }

  lemma StartInParts(b: int)
    requires b % 60000 == 0
    ensures b == 3600000 * (b / 3600000) + b / 60000 % 60 * 60000
  {
    var n := b / 60000;
    assert b == 60000 * n && n == 60 * (n / 60) + n % 60;
    DivUnique(b, 3600000, n / 60, n % 60 * 60000);
  }

  lemma FloorWithin(minute: nat, m: Minutes)
    ensures var f := minute / m * m; 0 <= f <= minute < f + m && f % m == 0
  {
    var q := minute / m;
    assert minute == m * q + minute % m;
    MulNonneg(m, q);
    DivUnique(q * m, m, q, 0);
  }

  /** A multiple of `m` less than `m` below a number is its floor. */
  lemma OnlyFloor(minute: nat, m: Minutes, x: nat)
    requires x <= minute < x + m && x % m == 0
    ensures x == minute / m * m
  {
    var a := x / m;
    assert x == m * a;
    DivUnique(minute, m, a, minute - x);
  }

  function NewCandle(k: Key, ts: int, price: real, volume: real): Candle {
    Candle(k.token, k.interval, ts, price, price, price, price, volume, Live, false)
  }

  function Placeholder(c: Candle): Candle {
    NewCandle(Key(c.token, c.interval), c.ts + c.interval * MS_PER_MINUTE, c.close, 0.0)
      .(source := SyntheticTimer, synthetic := true)
  }

  /** A tick landing in the bucket the candle already covers. */
  function Absorb(c: Candle, price: real, vol: real): Candle {
    var live :=
      if c.synthetic || c.source != Live then
        var flipped := c.(source := Live, synthetic := false);
        if c.volume == 0.0 then flipped.(open := price, high := price, low := price, close := price) else flipped
      else c;
    live.(high := MaxReal(live.high, price), low := MinReal(live.low, price), close := price,
          volume := live.volume + vol)
  }

  /** Volume a tick contributes: last traded quantity, else the day-volume delta. */
  function VolAdd(prev: Option<real>, ltq: real, dayVol: real): real {
    var delta :=
      match prev
      case None => 0.0
      case Some(p) => if dayVol < p then MaxReal(0.0, dayVol) else MaxReal(0.0, dayVol - p);
    if ltq > 0.0 then ltq else delta
  }

  /** The last traded quantity when there is one; else what the day volume grew by, or all of it after a reset. */
  lemma VolumeIsGrowth(prev: Option<real>, ltq: real, dayVol: real)
    ensures ltq > 0.0 ==> VolAdd(prev, ltq, dayVol) == ltq
    ensures ltq <= 0.0 && prev.None? ==> VolAdd(prev, ltq, dayVol) == 0.0
    ensures ltq <= 0.0 && prev.Some? && prev.value <= dayVol ==> prev.value + VolAdd(prev, ltq, dayVol) == dayVol
    ensures ltq <= 0.0 && prev.Some? && 0.0 <= dayVol < prev.value ==> VolAdd(prev, ltq, dayVol) == dayVol
    ensures ltq <= 0.0 ==> VolAdd(prev, ltq, dayVol) >= 0.0
  {
  }

  function StaleMs(now: int, last: Option<int>): Option<int> {
    match last
    case None => None
    case Some(t) => Some(now - t)
  }

  predicate IsDue(c: Candle, now: int, graceMs: int) {
    c.ts != BucketStart(now, c.interval) && now >= c.ts + c.interval * MS_PER_MINUTE + graceMs
  }

  // ----- What one call computes -----

  function FeedKey(o: Outcome, k: Key, ts: int, price: real, vol: real): Outcome {
    var s := o.state.(lastTick := o.state.lastTick[k := ts]);
    var bucket := BucketStart(ts, k.interval);
    if k !in s.current then
      Outcome(s.(keys := s.keys + [k], current := s.current[k := NewCandle(k, bucket, price, vol)]), o.closed)
    else
      var c := s.current[k];
      if c.ts != bucket then
        Outcome(s.(current := s.current[k := NewCandle(k, bucket, price, vol)]), o.closed + [Closed(c, ByTick)])
      else
        Outcome(s.(current := s.current[k := Absorb(c, price, vol)]), o.closed)
  }

  function FeedIntervals(o: Outcome, intervals: seq<Minutes>, token: int, ts: int, price: real, vol: real): Outcome
    decreases intervals
  {
    if intervals == [] then o
    else FeedIntervals(FeedKey(o, Key(token, intervals[0]), ts, price, vol), intervals[1..], token, ts, price, vol)
  }

  predicate Usable(t: Tick) {
    t.token != 0 && t.price.Some?
  }

  function FeedTick(o: Outcome, intervals: seq<Minutes>, t: Tick): Outcome {
    if !Usable(t) then o
    else
      var vol := VolAdd(Lookup(o.state.prevDay, t.token), t.ltq, t.dayVol);
      var s := o.state.(prevDay := o.state.prevDay[t.token := t.dayVol]);
      FeedIntervals(o.(state := s), intervals, t.token, t.ts, t.price.value, vol)
  }

  function FeedTicks(o: Outcome, intervals: seq<Minutes>, ticks: seq<Tick>): Outcome
    decreases ticks
  {
    if ticks == [] then o
    else FeedTicks(FeedTick(o, intervals, ticks[0]), intervals, ticks[1..])
  }

  /** What a lane shows right after a tick: a live bar around the tick's time that ends at its price. */
  predicate ShowsTick(s: Builder, k: Key, ts: int, price: real) {
    && k in s.current && StartsBar(s.current[k].ts, ts, k.interval)
    && s.current[k].close == price && s.current[k].low <= price <= s.current[k].high
    && Lookup(s.lastTick, k) == Some(ts)
  }

  lemma KeyShowsTick(o: Outcome, k: Key, ts: int, price: real, vol: real)
    ensures ShowsTick(FeedKey(o, k, ts, price, vol).state, k, ts, price)
    ensures forall x :: x != k ==>
              Lookup(FeedKey(o, k, ts, price, vol).state.current, x) == Lookup(o.state.current, x)
              && Lookup(FeedKey(o, k, ts, price, vol).state.lastTick, x) == Lookup(o.state.lastTick, x)
  {
    BucketHolds(ts, k.interval, BucketStart(ts, k.interval));
    hide BucketStart, StartsBar;
  }

  lemma {:induction false} IntervalsShowTick(
      o: Outcome, intervals: seq<Minutes>, token: int, ts: int, price: real, vol: real, m: Minutes)
    ensures var r := FeedIntervals(o, intervals, token, ts, price, vol).state;
            && (m in intervals ==> ShowsTick(r, Key(token, m), ts, price))
            && (ShowsTick(o.state, Key(token, m), ts, price) ==> ShowsTick(r, Key(token, m), ts, price))
            && r.prevDay == o.state.prevDay
    decreases intervals
  {
    hide BucketStart, StartsBar, Absorb;
    if intervals != [] {
      var k := Key(token, intervals[0]);
      var next := FeedKey(o, k, ts, price, vol);
      KeyShowsTick(o, k, ts, price, vol);
      IntervalsShowTick(next, intervals[1..], token, ts, price, vol, m);
      assert ShowsTick(o.state, Key(token, m), ts, price) ==> ShowsTick(next.state, Key(token, m), ts, price);
    }
  }

  /**
   A tick with an instrument and a price shows on every configured interval and leaves its day volume behind; any other
   tick is ignored.
   */
  lemma TickShows(o: Outcome, intervals: seq<Minutes>, t: Tick, m: Minutes)
    requires m in intervals
    ensures var r := FeedTick(o, intervals, t);
            if t.token != 0 && t.price.Some? then
              ShowsTick(r.state, Key(t.token, m), t.ts, t.price.value)
              && Lookup(r.state.prevDay, t.token) == Some(t.dayVol)
            else r == o
  {
    if t.token != 0 && t.price.Some? {
      var vol := VolAdd(Lookup(o.state.prevDay, t.token), t.ltq, t.dayVol);
      var s := o.state.(prevDay := o.state.prevDay[t.token := t.dayVol]);
      IntervalsShowTick(o.(state := s), intervals, t.token, t.ts, t.price.value, vol, m);
    }
  }

  /** At most `bars` overdue bars of one key, oldest first, each replaced by a placeholder. */
  function FinalizeKey(o: Outcome, k: Key, now: int, graceMs: int, bars: int): Outcome
    requires Valid(o.state)
    ensures Valid(FinalizeKey(o, k, now, graceMs, bars).state)
    ensures FinalizeKey(o, k, now, graceMs, bars).state.keys == o.state.keys
    decreases bars
  {
    if bars <= 0 || k !in o.state.current || !IsDue(o.state.current[k], now, graceMs) then o
    else
      var c := o.state.current[k];
      var emitted := Closed(c, ByTimer(now, StaleMs(now, Lookup(o.state.lastTick, k))));
      FinalizeKey(Outcome(o.state.(current := o.state.current[k := Placeholder(c)]), o.closed + [emitted]),
                  k, now, graceMs, bars - 1)
  }

  function FinalizeKeys(o: Outcome, keys: seq<Key>, now: int, graceMs: int, bars: int): (r: Outcome)
    requires Valid(o.state)
    ensures Valid(r.state) && r.state.keys == o.state.keys
    decreases keys
  {
    if keys == [] then o
    else FinalizeKeys(FinalizeKey(o, keys[0], now, graceMs, bars), keys[1..], now, graceMs, bars)
  }

  /** Every key is listed once and carries a candle of its own token and interval. */
  ghost predicate Valid(s: Builder) {
    && (forall k :: k in s.keys <==> k in s.current)
    && (forall i, j :: 0 <= i < j < |s.keys| ==> s.keys[i] != s.keys[j])
    && (forall k :: k in s.current ==>
                      s.current[k].interval == k.interval && s.current[k].token == k.token)
  }

  lemma PlaceholderFits(s: Builder, k: Key)
    requires Valid(s) && k in s.current
    ensures Valid(s.(current := s.current[k := Placeholder(s.current[k])]))
    ensures s.current[k].token == k.token && s.current[k].interval == k.interval
  {
  }

  lemma FeedKeyValid(o: Outcome, k: Key, ts: int, price: real, vol: real)
    requires Valid(o.state)
    ensures Valid(FeedKey(o, k, ts, price, vol).state)
  {
    var r := FeedKey(o, k, ts, price, vol).state;
    if k !in o.state.current {
      assert r.keys == o.state.keys + [k];
      assert forall x :: x in r.keys <==> x in o.state.keys || x == k;
    }
  }

  lemma {:induction false} FeedIntervalsValid(
      o: Outcome, intervals: seq<Minutes>, token: int, ts: int, price: real, vol: real)
    requires Valid(o.state)
    ensures Valid(FeedIntervals(o, intervals, token, ts, price, vol).state)
    decreases intervals
  {
    if intervals != [] {
      FeedKeyValid(o, Key(token, intervals[0]), ts, price, vol);
      FeedIntervalsValid(FeedKey(o, Key(token, intervals[0]), ts, price, vol), intervals[1..], token, ts, price, vol);
    }
  }

  lemma {:induction false} FeedTicksValid(o: Outcome, intervals: seq<Minutes>, ticks: seq<Tick>)
    requires Valid(o.state)
    ensures Valid(FeedTicks(o, intervals, ticks).state)
    decreases ticks
  {
    if ticks != [] {
      var t := ticks[0];
      if Usable(t) {
        var vol := VolAdd(Lookup(o.state.prevDay, t.token), t.ltq, t.dayVol);
        FeedIntervalsValid(o.(state := o.state.(prevDay := o.state.prevDay[t.token := t.dayVol])),
                           intervals, t.token, t.ts, t.price.value, vol);
      }
      FeedTicksValid(FeedTick(o, intervals, t), intervals, ticks[1..]);
    }
  }

  function Step(o: Outcome, intervals: seq<Minutes>, e: Event): (r: Outcome)
    requires Valid(o.state)
    ensures Valid(r.state)
  {
    match e
    case OnTicks(ticks) =>
      FeedTicksValid(o, intervals, ticks);
      FeedTicks(o, intervals, ticks)
    case FinalizeDue(now, graceMs, maxBars) =>
      FinalizeKeys(o, o.state.keys, now, graceMs, maxBars)
  }

  /** A whole run: any interleaving of tick batches and timer calls. */
  function Run(o: Outcome, intervals: seq<Minutes>, events: seq<Event>): (r: Outcome)
    requires Valid(o.state)
    ensures Valid(r.state)
    decreases events
  {
    if events == [] then o else Run(Step(o, intervals, events[0]), intervals, events[1..])
  }

  // ----- The engine itself -----

  class CandleBuilder {
    const intervals: seq<Minutes>
    var keys: seq<Key>
    var current: map<Key, Candle>
    var prevDayVolume: map<int, real>
    var lastTickTs: map<Key, int>

    ghost function State(): Builder
      reads this
    {
      Builder(keys, current, prevDayVolume, lastTickTs)
    }

    ghost predicate Ok()
      reads this
    {
      Valid(State())
    }

    constructor (intervalsMinutes: seq<Minutes>)
      ensures Ok() && State() == EMPTY && intervals == intervalsMinutes
    {
      intervals := intervalsMinutes;
      keys, current, prevDayVolume, lastTickTs := [], map[], map[], map[];
    }

    method OnTicks(ticks: seq<Tick>) returns (closed: seq<Closed>)
      requires Ok()
      modifies this
      ensures Ok()
      ensures Outcome(State(), closed) == Step(Outcome(old(State()), []), intervals, Event.OnTicks(ticks))
    {
      hide FeedKey;
      closed := [];
      ghost var start := Outcome(State(), []);
      var i := 0;
      while i < |ticks|
        invariant 0 <= i <= |ticks|
        invariant Ok()
        invariant FeedTicks(Outcome(State(), closed), intervals, ticks[i..]) == FeedTicks(start, intervals, ticks)
      {
        var tick := ticks[i];
        ghost var before := Outcome(State(), closed);
        assert ticks[i..][0] == tick && ticks[i..][1..] == ticks[i + 1..];
        FeedTicksValid(before, intervals, [tick]);
        if tick.token != 0 && tick.price.Some? {
          var price := tick.price.value;
          var deltaVol := 0.0;
          if tick.token in prevDayVolume {
            var prev := prevDayVolume[tick.token];
            if tick.dayVol < prev {
              deltaVol := MaxReal(0.0, tick.dayVol);
            } else {
              deltaVol := MaxReal(0.0, tick.dayVol - prev);
            }
          }
          prevDayVolume := prevDayVolume[tick.token := tick.dayVol];
          var volAdd := if tick.ltq > 0.0 then tick.ltq else deltaVol;
          closed := FeedOneTick(closed, tick.token, tick.ts, price, volAdd);
        }
        assert Outcome(State(), closed) == FeedTick(before, intervals, tick);
        i := i + 1;
      }
    }

    /** The loop over intervals for one tick. */
    method FeedOneTick(soFar: seq<Closed>, token: int, ts: int, price: real, volAdd: real)
      returns (closed: seq<Closed>)
      requires Ok()
      modifies this
      ensures Ok() && prevDayVolume == old(prevDayVolume)
      ensures Outcome(State(), closed) ==
              FeedIntervals(Outcome(old(State()), soFar), intervals, token, ts, price, volAdd)
    {
      hide BucketStart, Absorb;
      closed := soFar;
      ghost var start := Outcome(State(), soFar);
      var i := 0;
      while i < |intervals|
        invariant 0 <= i <= |intervals|
        invariant Ok() && prevDayVolume == old(prevDayVolume)
        invariant FeedIntervals(Outcome(State(), closed), intervals[i..], token, ts, price, volAdd) ==
                  FeedIntervals(start, intervals, token, ts, price, volAdd)
      {
        var key := Key(token, intervals[i]);
        ghost var before := Outcome(State(), closed);
        FeedKeyValid(before, key, ts, price, volAdd);
        assert intervals[i..][0] == key.interval && intervals[i..][1..] == intervals[i + 1..];
        closed := FeedOneKey(closed, key, ts, price, volAdd);
        i := i + 1;
      }
    }

    /** The loop body for one tick and one interval. */
    method FeedOneKey(soFar: seq<Closed>, key: Key, ts: int, price: real, volAdd: real)
      returns (closed: seq<Closed>)
      modifies this
      ensures Outcome(State(), closed) == FeedKey(Outcome(old(State()), soFar), key, ts, price, volAdd)
    {
      hide BucketStart;
      closed := soFar;
      var bucketStart := BucketStart(ts, key.interval);
      lastTickTs := lastTickTs[key := ts];
      if key !in current {
        keys := keys + [key];
        current := current[key := NewCandle(key, bucketStart, price, volAdd)];
      } else if current[key].ts != bucketStart {
        closed := closed + [Closed(current[key], ByTick)];
        current := current[key := NewCandle(key, bucketStart, price, volAdd)];
      } else {
        var c := current[key];
        if c.synthetic || c.source != Live {
          c := c.(source := Live, synthetic := false);
          if c.volume == 0.0 {
            c := c.(open := price, high := price, low := price, close := price);
          }
        }
        c := c.(high := MaxReal(c.high, price), low := MinReal(c.low, price), close := price);
        c := c.(volume := c.volume + volAdd);
        current := current[key := c];
      }
    }

    method FinalizeDue(now: int, graceMs: int, maxBars: int) returns (closed: seq<Closed>)
      requires Ok()
      modifies this
      ensures Ok()
      ensures Outcome(State(), closed) ==
              Step(Outcome(old(State()), []), intervals, Event.FinalizeDue(now, graceMs, maxBars))
    {
      closed := [];
      var visit := keys;
      ghost var start := Outcome(State(), []);
      var i := 0;
      while i < |visit|
        invariant 0 <= i <= |visit|
        invariant Ok() && keys == visit
        invariant FinalizeKeys(Outcome(State(), closed), visit[i..], now, graceMs, maxBars) ==
                  FinalizeKeys(start, visit, now, graceMs, maxBars)
      {
        var key := visit[i];
        ghost var before := Outcome(State(), closed);
        assert visit[i..][0] == key && visit[i..][1..] == visit[i + 1..];
        closed := FinalizeOneKey(closed, key, now, graceMs, maxBars);
        i := i + 1;
      }
    }

    /** The inner loop: at most `maxBars` overdue bars of one key. */
    method FinalizeOneKey(soFar: seq<Closed>, key: Key, now: int, graceMs: int, maxBars: int)
      returns (closed: seq<Closed>)
      requires Ok() && key in current
      modifies this`current
      ensures Ok()
      ensures Outcome(State(), closed) == FinalizeKey(Outcome(old(State()), soFar), key, now, graceMs, maxBars)
    {
      hide BucketStart, IsDue, Valid, Placeholder, StaleMs;
      closed := soFar;
      ghost var start := Outcome(State(), soFar);
      var bars := 0;
      while bars < maxBars && IsDue(current[key], now, graceMs)
        invariant Ok() && key in current
        invariant FinalizeKey(Outcome(State(), closed), key, now, graceMs, maxBars - bars) ==
                  FinalizeKey(start, key, now, graceMs, maxBars)
        decreases maxBars - bars
      {
        var c := current[key];
        PlaceholderFits(State(), key);
        closed := closed + [Closed(c, ByTimer(now, StaleMs(now, Lookup(lastTickTs, key))))];
        current := current[key := Placeholder(c)];
        bars := bars + 1;
      }
    }
  }
}

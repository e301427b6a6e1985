/**
 The daily trade limit in a whole backtest: for every pair of limits there are data for which the event loop closes as
 many trades in one day as the bound on protocol runs allows.
 */
module BacktestLimit {
  import opened Common
  import opened Portfolio
  import opened RiskGovernors
  import opened GovernorRuns
  import opened DailyLimit
  import opened Backtest

  // ----- A market that goes nowhere -----

  const STRATEGY := 0

  function FlatSignal(cfg: Config, capital: real): Signal {
    Signal(Buy, STRATEGY, 1.0, UnitOf(cfg, capital), false, false, false, false)
  }

  /** Trades are left on the way out until the limit is one short, then kept until `n` of them are open. */
  predicate Exits(cfg: Config, n: nat, index: int) {
    index < cfg.maxTradesPerDay || index >= cfg.maxTradesPerDay + n - 1
  }

  /**
   Every bar but the last signals; every entry is filled on the next bar, one unit at the price `capital`, stopped at
   that price; every exit is filled on its own bar at the same price.
   */
  function FlatWorld(cfg: Config, ts: int -> int, capital: real, n: nat): World
    requires cfg.maxTradesPerDay >= 1
  {
    World(
      cfg.maxTradesPerDay + n, ts, (i: int) => capital, 0, 0,
      [], 0.0, false, 0, 1.0,
      (i: int, e: Entry) => Filled(capital, 1, capital),
      (i: int, t: Trade) => None,
      (i: int, t: Trade) => if Exits(cfg, n, i) then Some(capital) else None,
      (i: int, t: Trade, px: real) => (capital, 1),
      (t: Ticket, px: real, qty: int) => 0.0,
      (i: int) => if i < cfg.maxTradesPerDay + n - 1 then Some(FlatSignal(cfg, capital)) else None)
  }

  // ----- Ledgers without profit, loss or risk -----

  lemma SumOfNone<T>(m: map<Id, T>, f: T -> real)
    requires m == map[]
    ensures Sum(m, f) == 0.0
  {
  }

  function Repeated(v: real, n: nat): real {
    if n == 0 then 0.0 else Repeated(v, n - 1) + v
  }

  lemma {:induction false} RepeatedIsTimes(v: real, n: nat)
    ensures Repeated(v, n) == v * n as real
  {
    if n > 0 {
      RepeatedIsTimes(v, n - 1);
      OneMore(v, n - 1);
    }
  }

  lemma {:induction false} SumOfEqual<T>(m: map<Id, T>, f: T -> real, v: real)
    requires forall k :: k in m ==> f(m[k]) == v
    ensures Sum(m, f) == Repeated(v, |m|)
    decreases |m|
  {
    if m == map[] {
      SumOfNone(m, f);
    } else {
      var k :| k in m;
      SumSplit(m, f, k);
      hide Sum;
      SumOfEqual(m - {k}, f, v);
      RemoveSize(m, k);
    }
  }

  lemma NoSum<T>(m: map<Id, T>, f: T -> real)
    requires forall k :: k in m ==> f(m[k]) == 0.0
    ensures Sum(m, f) == 0.0
  {
    SumOfEqual(m, f, 0.0);
    RepeatedIsTimes(0.0, |m|);
  }

  /** Everything held is one unit of `capital`, and nothing was won, lost or risked. */
  ghost predicate Level(cfg: Config, l: Ledger, day: int, trades: nat, capital: real) {
    && l.initialCapital == l.peakEquity == cfg.initialCapital && l.realizedPnL == 0.0
    && (forall k :: k in l.open ==>
          l.open[k].capitalUsed == capital && l.open[k].riskInr == 0.0 && l.open[k].unrealizedPnL == 0.0)
    && (forall k :: k in l.pending ==> l.pending[k] == Reservation(capital, 0.0))
    && l.consecutiveLosses == 0 && l.dailyPnL == 0.0 && l.tradesToday == trades
    && (l.currentDay == Some(day) || (l.currentDay == None && trades == 0))
  }

  lemma LevelTotals(cfg: Config, l: Ledger, day: int, trades: nat, capital: real)
    requires Level(cfg, l, day, trades, capital)
    ensures Equity(l) == cfg.initialCapital && Drawdown(l) == 0.0 && OpenRisk(l) == 0.0
    ensures Free(l) == cfg.initialCapital - capital * (|l.open| + |l.pending|) as real
  {
    hide Sum;
    NoSum(l.open, RiskOf);
    NoSum(l.open, MarkOf);
    LevelHeld(cfg, l, day, trades, capital);
    hide Used, Reserved;
  }

  lemma LevelHeld(cfg: Config, l: Ledger, day: int, trades: nat, capital: real)
    requires Level(cfg, l, day, trades, capital)
    ensures Used(l) + Reserved(l) == capital * (|l.open| + |l.pending|) as real
  {
    hide Sum;
    SumOfEqual(l.open, CapitalOf, capital);
    SumOfEqual(l.pending, HeldBy, capital);
    hide *;
    RepeatedIsTimes(capital, |l.open|);
    RepeatedIsTimes(capital, |l.pending|);
    Together(capital, |l.open|, |l.pending|);
  }

  lemma Together(capital: real, a: nat, b: nat)
    ensures capital * (a + b) as real == capital * a as real + capital * b as real
  {
  }

  lemma LevelHasNoHalt(cfg: Config, l: Ledger, day: int, trades: nat, capital: real)
    requires Level(cfg, l, day, trades, capital)
    requires cfg.maxTradesPerDay > 0 ==> trades < cfg.maxTradesPerDay
    ensures HaltReasons(cfg, l) == []
  {
    LevelTotals(cfg, l, day, trades, capital);
    assert DrawdownPct(l.peakEquity, 0.0) == 0.0;
  }

  /** Of a ledger whose fields are level, recalculation changes nothing. */
  lemma LevelRecalculated(cfg: Config, l: Ledger, day: int, trades: nat, capital: real)
    requires Level(cfg, l, day, trades, capital)
    ensures Recalculated(l) == l
  {
    LevelTotals(cfg, l, day, trades, capital);
  }

  lemma LevelActivate(cfg: Config, l: Ledger, day: int, trades: nat, capital: real, rid: Id, pid: Id, time: int)
    requires Level(cfg, l, day, trades, capital) && rid in l.pending && pid !in l.open
    ensures var r := Activate(l, rid, pid, Some(capital), Some(0.0), Some(time));
            && Level(cfg, r, day, trades, capital) && |r.open| == |l.open| + 1
            && r.pending == l.pending - {rid}
  {
    var p := Position(capital, 0.0, 0.0, Some(time));
    AddSize(l.open, pid, p);
    LevelRecalculated(cfg, l.(pending := l.pending - {rid}, open := l.open[pid := p]), day, trades, capital);
  }

  lemma LevelClose(cfg: Config, l: Ledger, day: int, trades: nat, capital: real, pid: Id, time: int)
    requires Level(cfg, l, day, trades, capital) && pid in l.open && Day(time) == day
    ensures var r := Close(l, pid, time, 0.0);
            && Level(cfg, r, day, trades + 1, capital) && |r.open| == |l.open| - 1
            && r.open == l.open - {pid} && r.pending == l.pending
  {
    RemoveSize(l.open, pid);
    var d := OnDay(l, time);
    LevelRecalculated(
      cfg, d.(open := d.open - {pid}, realizedPnL := 0.0, dailyPnL := 0.0, tradesToday := d.tradesToday + 1,
              consecutiveLosses := 0), day, trades + 1, capital);
  }

  lemma LevelMark(cfg: Config, l: Ledger, day: int, trades: nat, capital: real, marks: map<Id, real>, time: int)
    requires Level(cfg, l, day, trades, capital) && forall k :: k in marks ==> marks[k] == 0.0
    ensures var r := Mark(l, time, marks);
            && Level(cfg, r, day, trades, capital) && r.open.Keys == l.open.Keys && |r.open| == |l.open|
            && r.pending == l.pending
  {
    SameSize(l.open, Marked(l.open, marks, time));
    LevelRecalculated(cfg, l.(open := Marked(l.open, marks, time)), day, trades, capital);
  }

  lemma LevelObserved(cfg: Config, l: Ledger, day: int, trades: nat, capital: real, time: int)
    requires Level(cfg, l, day, trades, capital) && Day(time) == day
    ensures var o := Observed(cfg, l, time);
            Level(cfg, o, day, trades, capital) && o.open == l.open && o.pending == l.pending
  {
    LevelRecalculated(cfg, OnDay(l, time), day, trades, capital);
  }

  lemma LevelReserve(cfg: Config, l: Ledger, day: int, trades: nat, capital: real, rid: Id)
    requires Level(cfg, l, day, trades, capital)
    ensures var r := Reserve(l, rid, Reservation(capital, 0.0));
            && Level(cfg, r, day, trades, capital) && r.open == l.open
            && r.pending == l.pending[rid := Reservation(capital, 0.0)]
  {
    LevelRecalculated(cfg, l.(pending := l.pending[rid := Reservation(capital, 0.0)]), day, trades, capital);
  }

  /** A level ledger with room accepts one more unit. */
  lemma LevelAccepts(cfg: Config, o: Ledger, day: int, trades: nat, capital: real, time: int)
    requires CanTrade(cfg) && !AfterCutoff(cfg, time) && Level(cfg, o, day, trades, capital)
    requires Affordable(cfg, capital, |o.open| + |o.pending|)
    requires cfg.maxTradesPerDay > 0 ==> trades < cfg.maxTradesPerDay
    requires cfg.maxConcurrentPositions > 0 ==> |o.open| + |o.pending| < cfg.maxConcurrentPositions
    ensures var v := Decide(cfg, o, time, UnitOf(cfg, capital));
            v.Accepted? && Held(v.sizing) == Reservation(capital, 0.0)
  {
    LevelTotals(cfg, o, day, trades, capital);
    LevelHasNoHalt(cfg, o, day, trades, capital);
    BudgetCovers(cfg, capital, |o.open| + |o.pending|, Free(o));
    UnitSizing(cfg, Equity(o), Free(o), capital);
    QuietAccepted(cfg, o, time, UnitOf(cfg, capital));
  }

  // ----- The loop over that market -----

  /** A trade as it was at its entry: one unit at the price, nothing filled and no exit under way. */
  ghost predicate Fresh(t: Trade, capital: real) {
    && t.entryPrice == t.lastLtp == capital && t.initialQty == t.qty == 1 && t.pendingExit == None && t.exitFills == []
    && t.realizedGross == 0.0 && t.realizedCost == 0.0 && t.realizedNet == 0.0 && t.side == Buy
  }

  ghost predicate AllFresh(ts: seq<Trade>, capital: real) {
    forall i :: 0 <= i < |ts| ==> Fresh(ts[i], capital)
  }

  /** `open` are the open trades of a level ledger; as many trades have been closed as the day counts. */
  ghost predicate Calm(cfg: Config, s: Sim, open: seq<Trade>, day: int, trades: nat, capital: real) {
    && Level(cfg, s.ledger, day, trades, capital) && |s.closed| == trades && s.cooldownUntil == map[]
    && AllFresh(open, capital) && |s.ledger.open| == |open|
    && TradesAgree(s.ledger, open) && TradesSorted(open, s.counter)
  }

  function SlotEntry(cfg: Config, capital: real, index: nat, qty: int): Entry {
    Entry(ReservationId(index, 0), index, index, Buy, qty, STRATEGY)
  }

  /** Before bar `index`: with `waiting`, the signal of the bar before has an entry queued and its capital reserved. */
  ghost predicate Between(
      cfg: Config, s: Sim, index: nat, day: int, trades: nat, held: nat, waiting: bool, capital: real) {
    && Calm(cfg, s, s.open, day, trades, capital) && |s.open| == held
    && if waiting then
         && |s.pending| == 1 && index >= 1 && s.pending[0] == SlotEntry(cfg, capital, index - 1, s.pending[0].qty)
         && s.ledger.pending == map[ReservationId(index - 1, 0) := Reservation(capital, 0.0)]
       else s.pending == [] && s.ledger.pending == map[]
  }

  ghost predicate Market(cfg: Config, w: World, ts: int -> int, day: int, capital: real, n: nat) {
    && cfg.maxTradesPerDay >= 1 && capital > 0.0 && w == FlatWorld(cfg, ts, capital, n)
    && forall i :: 0 <= i < w.bars ==> Day(w.ts(i)) == day && !AfterCutoff(cfg, w.ts(i))
  }

  lemma FlatFill(cfg: Config, w: World, ts: int -> int, n: nat, index: nat, day: int, e: Entry, id: Id, capital: real)
    requires Market(cfg, w, ts, day, capital, n)
    ensures var exec := w.entryExec(index, e);
            && Opens(exec) && EntryCapital(w, exec) == capital && EntryRisk(exec) == 0.0
            && Fresh(OpenedTrade(id, index, e, exec), capital) == (e.side == Buy)
  {
  }

  /** One more fresh trade and its position. */
  lemma CalmOpens(
      cfg: Config, s: Sim, n: Sim, day: int, trades: nat, capital: real, rid: Id, t: Trade, time: int)
    requires Calm(cfg, s, s.open, day, trades, capital) && rid in s.ledger.pending
    requires t.id == TradeId(s.counter + 1) && Fresh(t, capital) && OpenOk(t)
    requires n.ledger == Portfolio.Activate(s.ledger, rid, t.id, Some(capital), Some(0.0), Some(time))
    requires n.counter == s.counter + 1 && n.closed == s.closed && n.cooldownUntil == s.cooldownUntil
    ensures Calm(cfg, n, s.open + [t], day, trades, capital)
    ensures n.ledger.pending == s.ledger.pending - {rid}
  {
    TradeOpened(s.ledger, s.open, s.counter, t, rid, capital, 0.0, time);
    LevelActivate(cfg, s.ledger, day, trades, capital, rid, t.id, time);
    hide Level, TradesAgree, TradesSorted, Portfolio.Activate, Fresh, OpenOk;
  }

  /** The queued entry becomes a trade. */
  lemma EntryOpens(
      cfg: Config, w: World, ts: int -> int, n: nat, s: Sim, index: nat, day: int, trades: nat, held: nat,
      capital: real)
    requires Market(cfg, w, ts, day, capital, n) && Between(cfg, s, index, day, trades, held, true, capital)
    ensures var d := FirstResolved(w, s, index);
            Between(cfg, d, index, day, trades, held + 1, false, capital)
  {
    hide Calm, Market, Fresh, Opens, EntryCapital, EntryRisk, OpenedTrade, Portfolio.Activate, OpenOk;
    var e, id := s.pending[0], TradeId(s.counter + 1);
    var exec := w.entryExec(index, e);
    FlatFill(cfg, w, ts, n, index, day, e, id, capital);
    OpenedTradeOk(id, index, e, exec);
    var t, d := OpenedTrade(id, index, e, exec), FirstResolved(w, s, index);
    CalmOpens(cfg, s, d, day, trades, capital, e.rid, t, w.ts(index));
    assert s.ledger.pending - {e.rid} == map[];
    assert s.pending[1..] == [];
  }

  lemma DueOpens(
      cfg: Config, w: World, ts: int -> int, n: nat, s: Sim, index: nat, day: int, trades: nat, held: nat,
      waiting: bool, capital: real)
    requires Market(cfg, w, ts, day, capital, n) && Between(cfg, s, index, day, trades, held, waiting, capital)
    ensures Between(cfg, DueResolved(w, s, index), index, day, trades, held + (if waiting then 1 else 0), false,
                    capital)
  {
    hide Calm, Market, FirstResolved;
    if waiting {
      EntryOpens(cfg, w, ts, n, s, index, day, trades, held, capital);
      var d := FirstResolved(w, s, index);
      assert DueResolved(w, s, index) == DueResolved(w, d, index) == d;
    }
  }

  /** On a bar without exits a fresh trade stays as it is; on one with exits it is sold for what it cost. */
  lemma FreshThroughBar(cfg: Config, w: World, ts: int -> int, n: nat, index: int, day: int, t: Trade, capital: real)
    requires Market(cfg, w, ts, day, capital, n) && Fresh(t, capital)
    ensures !Exits(cfg, n, index) ==> ThroughBar(w, index, t) == (t, false)
    ensures Exits(cfg, n, index) ==>
              var (x, closes) := ThroughBar(w, index, t);
              closes && x.id == t.id && x.realizedNet == 0.0
  {
    if Exits(cfg, n, index) {
      var d := Decided(w, index, t);
      assert d == t.(pendingExit := Some(PendingExit(index, capital)));
      assert w.exitExec(index, d, capital) == (capital, 1);
    }
  }

  lemma {:induction false} NoExits(
      cfg: Config, w: World, ts: int -> int, n: nat, s: Sim, index: int, day: int, capital: real,
      kept: seq<Trade>, rest: seq<Trade>)
    requires Market(cfg, w, ts, day, capital, n) && !Exits(cfg, n, index) && AllFresh(rest, capital)
    ensures Managed(w, s, index, kept, rest) == s.(open := kept + rest)
    decreases |rest|
  {
    hide ThroughBar, Market, Fresh;
    if rest == [] {
      assert kept + rest == kept;
    } else {
      FreshThroughBar(cfg, w, ts, n, index, day, rest[0], capital);
      assert kept + [rest[0]] + rest[1..] == kept + rest;
      NoExits(cfg, w, ts, n, s, index, day, capital, kept + [rest[0]], rest[1..]);
    }
  }

  /** One trade sold. */
  lemma FirstExits(
      cfg: Config, w: World, ts: int -> int, n: nat, s: Sim, index: nat, day: int, trades: nat, capital: real,
      rest: seq<Trade>, t: Trade)
    requires Market(cfg, w, ts, day, capital, n) && index < w.bars && rest != []
    requires Calm(cfg, s, rest, day, trades, capital) && t.id == rest[0].id && t.realizedNet == 0.0
    ensures var next := Finished(w, s, index, t).(cooldownUntil := CooldownAfter(w, s.cooldownUntil, index, t));
            && Calm(cfg, next, rest[1..], day, trades + 1, capital)
            && next.ledger.pending == s.ledger.pending && next.pending == s.pending
  {
    hide Level, Fresh, OpenOk, Portfolio.Close, TradesAgree, TradesSorted;
    assert Day(w.ts(index)) == day;
    hide Market;
    FirstLeavesOpen(s.ledger, rest, s.counter);
    LevelClose(cfg, s.ledger, day, trades, capital, t.id, w.ts(index));
    assert AllFresh(rest[1..], capital);
  }

  lemma FirstLeavesOpen(l: Ledger, rest: seq<Trade>, counter: nat)
    requires rest != [] && TradesAgree(l, rest) && TradesSorted(rest, counter)
    ensures rest[0].id in l.open && TradesSorted(rest[1..], counter)
    ensures forall n: Ledger :: n.open == l.open - {rest[0].id} ==> TradesAgree(n, rest[1..])
  {
    hide TradesAgree, TradesSorted;
    assert rest == [] + [rest[0]] + rest[1..] && [] + rest[1..] == rest[1..];
    MemberOfMiddle(l, [], rest[0], rest[1..], counter);
  }

  lemma {:induction false} AllExit(
      cfg: Config, w: World, ts: int -> int, n: nat, s: Sim, index: nat, day: int, trades: nat, capital: real,
      rest: seq<Trade>)
    requires Market(cfg, w, ts, day, capital, n) && Exits(cfg, n, index) && index < w.bars
    requires Calm(cfg, s, rest, day, trades, capital)
    ensures var m := Managed(w, s, index, [], rest);
            && m.open == [] && Calm(cfg, m, [], day, trades + |rest|, capital)
            && m.ledger.pending == s.ledger.pending && m.pending == s.pending
    decreases |rest|
  {
    hide Calm, Market, ThroughBar, Finished, CooldownAfter, Exits, Fresh;
    if rest != [] {
      FirstIsFresh(cfg, s, rest, day, trades, capital);
      FreshThroughBar(cfg, w, ts, n, index, day, rest[0], capital);
      var t := ThroughBar(w, index, rest[0]).0;
      FirstExits(cfg, w, ts, n, s, index, day, trades, capital, rest, t);
      var next := Finished(w, s, index, t).(cooldownUntil := CooldownAfter(w, s.cooldownUntil, index, t));
      AllExit(cfg, w, ts, n, next, index, day, trades + 1, capital, rest[1..]);
    } else {
      NoneLeft(cfg, s, day, trades, capital);
    }
  }

  lemma NoneLeft(cfg: Config, s: Sim, day: int, trades: nat, capital: real)
    requires Calm(cfg, s, [], day, trades, capital)
    ensures Calm(cfg, s.(open := []), [], day, trades, capital)
  {
  }

  lemma FirstIsFresh(cfg: Config, s: Sim, open: seq<Trade>, day: int, trades: nat, capital: real)
    requires Calm(cfg, s, open, day, trades, capital) && open != []
    ensures Fresh(open[0], capital)
  {
  }

  lemma {:induction false} FreshMarks(ts: seq<Trade>, capital: real)
    requires AllFresh(ts, capital)
    ensures forall k :: k in LastMarks(MarksOf(ts)) ==> LastMarks(MarksOf(ts))[k] == 0.0
  {
    if ts == [] {
      assert MarksOf(ts) == [];
      assert LastMarks([]) == map[];
    } else {
      var init, last := ts[..|ts| - 1], ts[|ts| - 1];
      FreshMarks(init, capital);
      var marks := MarksOf(ts);
      assert OpenPnlOf(last) == 0.0;
      assert marks[..|marks| - 1] == MarksOf(init) && marks[|marks| - 1] == (last.id, 0.0);
      assert LastMarks(marks) == LastMarks(MarksOf(init))[last.id := 0.0];
    }
  }

  lemma CalmMarked(cfg: Config, w: World, s: Sim, index: nat, day: int, trades: nat, held: nat, capital: real)
    requires Between(cfg, s, index, day, trades, held, false, capital)
    ensures Between(cfg, MarkedSim(w, s, index), index, day, trades, held, false, capital)
  {
    var marks := LastMarks(MarksOf(s.open));
    FreshMarks(s.open, capital);
    LevelMark(cfg, s.ledger, day, trades, capital, marks, w.ts(index));
    hide Level, TradesSorted, Mark;
  }

  /** Before the last bar there is always the same signal, and no gate but the governor's. */
  lemma FlatSignals(cfg: Config, w: World, ts: int -> int, n: nat, index: nat, day: int, capital: real)
    requires Market(cfg, w, ts, day, capital, n) && index < w.bars - 1
    ensures w.signal(index) == Some(FlatSignal(cfg, capital)) && w.latency == 0 && w.allowedStrategies == []
    ensures w.confidenceMin == 0.0 && !w.staleSignal && Day(w.ts(index)) == day && !AfterCutoff(cfg, w.ts(index))
  {
  }

  /** The governor's verdict on the flat signal, and with it that of all gates. */
  lemma FlatAdmitted(
      cfg: Config, w: World, ts: int -> int, n: nat, s: Sim, index: nat, day: int, trades: nat, capital: real)
    requires CanTrade(cfg) && Market(cfg, w, ts, day, capital, n) && index < w.bars - 1
    requires Level(cfg, s.ledger, day, trades, capital) && s.ledger.pending == map[] && s.cooldownUntil == map[]
    requires Affordable(cfg, capital, |s.ledger.open|) && trades < cfg.maxTradesPerDay
    requires cfg.maxConcurrentPositions > 0 ==> |s.ledger.open| < cfg.maxConcurrentPositions
    ensures var sig, o := FlatSignal(cfg, capital), Observed(cfg, s.ledger, w.ts(index));
            && w.signal(index) == Some(sig) && w.latency == 0 && Admits(w, cfg, s, sig, index)
            && Held(VerdictOn(w, cfg, o, sig, index).sizing) == Reservation(capital, 0.0)
            && Level(cfg, o, day, trades, capital) && o.open == s.ledger.open && o.pending == map[]
  {
    FlatSignals(cfg, w, ts, n, index, day, capital);
    hide Market, Level, Affordable, CanTrade, Decide, Observed, UnitOf;
    var o := Observed(cfg, s.ledger, w.ts(index));
    LevelObserved(cfg, s.ledger, day, trades, capital, w.ts(index));
    LevelAccepts(cfg, o, day, trades, capital, w.ts(index));
  }

  /** The bar's signal is admitted when there is room. */
  lemma SignalAdmitted(
      cfg: Config, w: World, ts: int -> int, n: nat, s: Sim, index: nat, day: int, trades: nat, held: nat,
      capital: real)
    requires CanTrade(cfg) && Market(cfg, w, ts, day, capital, n) && index < w.bars - 1
    requires Between(cfg, s, index, day, trades, held, false, capital) && Affordable(cfg, capital, held)
    requires trades < cfg.maxTradesPerDay
    requires cfg.maxConcurrentPositions > 0 ==> held < cfg.maxConcurrentPositions
    ensures Between(cfg, Signalled(w, cfg, s, index), index + 1, day, trades, held, true, capital)
  {
    hide Market, Level, Affordable, CanTrade, Admits, VerdictOn, Observed, Reserve, TradesSorted, Fresh;
    FlatAdmitted(cfg, w, ts, n, s, index, day, trades, capital);
    var o, rid := Observed(cfg, s.ledger, w.ts(index)), ReservationId(index, 0);
    LevelReserve(cfg, o, day, trades, capital, rid);
    assert map[][rid := Reservation(capital, 0.0)] == map[rid := Reservation(capital, 0.0)];
  }

  lemma ManagedBar(
      cfg: Config, w: World, ts: int -> int, n: nat, d: Sim, index: nat, day: int, trades: nat, held: nat,
      capital: real)
    requires Market(cfg, w, ts, day, capital, n) && index < w.bars
    requires Between(cfg, d, index, day, trades, held, false, capital)
    ensures Between(cfg, Managed(w, d, index, [], d.open), index, day,
                    if Exits(cfg, n, index) then trades + held else trades,
                    if Exits(cfg, n, index) then 0 else held, false, capital)
  {
    hide Exits, Market, Managed, Calm;
    if Exits(cfg, n, index) {
      AllExit(cfg, w, ts, n, d, index, day, trades, capital, d.open);
    } else {
      NothingSold(cfg, w, ts, n, d, index, day, trades, capital);
    }
  }

  lemma NothingSold(
      cfg: Config, w: World, ts: int -> int, n: nat, d: Sim, index: nat, day: int, trades: nat, capital: real)
    requires Market(cfg, w, ts, day, capital, n) && index < w.bars && !Exits(cfg, n, index)
    requires Calm(cfg, d, d.open, day, trades, capital)
    ensures Managed(w, d, index, [], d.open) == d
  {
    hide Exits, Market, Managed, Level, TradesAgree, TradesSorted, AllFresh;
    NoExits(cfg, w, ts, n, d, index, day, capital, [], d.open);
    assert [] + d.open == d.open;
  }

  /** One bar of the loop: it may sell all that is open, and all but the last admit one more entry. */
  lemma OneBar(
      cfg: Config, w: World, ts: int -> int, n: nat, s: Sim, index: nat, day: int, trades: nat, held: nat,
      waiting: bool, capital: real) returns (after: nat, left: nat)
    requires CanTrade(cfg) && Market(cfg, w, ts, day, capital, n) && index < w.bars
    requires Between(cfg, s, index, day, trades, held, waiting, capital)
    requires var inAll := held + if waiting then 1 else 0;
             index < w.bars - 1 ==>
               && Affordable(cfg, capital, if Exits(cfg, n, index) then 0 else inAll)
               && (if Exits(cfg, n, index) then trades + inAll else trades) < cfg.maxTradesPerDay
               && (cfg.maxConcurrentPositions > 0 ==>
                     (if Exits(cfg, n, index) then 0 else inAll) < cfg.maxConcurrentPositions)
    ensures var inAll := held + if waiting then 1 else 0;
            && after == (if Exits(cfg, n, index) then trades + inAll else trades)
            && left == if Exits(cfg, n, index) then 0 else inAll
    ensures Between(cfg, BarSim(w, cfg, s, index), index + 1, day, after, left, index < w.bars - 1, capital)
  {
    var inAll := held + if waiting then 1 else 0;
    hide Between, Exits, Affordable, CanTrade, Market, DueResolved, Managed, MarkedSim, Signalled;
    var d := DueResolved(w, s, index);
    DueOpens(cfg, w, ts, n, s, index, day, trades, held, waiting, capital);
    after, left := if Exits(cfg, n, index) then trades + inAll else trades, if Exits(cfg, n, index) then 0 else inAll;
    var m := Managed(w, d, index, [], d.open);
    ManagedBar(cfg, w, ts, n, d, index, day, trades, inAll, capital);
    CalmMarked(cfg, w, m, index, day, after, left, capital);
    var k := MarkedSim(w, m, index);
    if index < w.bars - 1 {
      SignalAdmitted(cfg, w, ts, n, k, index, day, after, left, capital);
    } else {
      LastBarIsQuiet(cfg, w, ts, n, k, index, day, after, left, capital);
    }
  }

  lemma LastBarIsQuiet(
      cfg: Config, w: World, ts: int -> int, n: nat, s: Sim, index: nat, day: int, trades: nat, held: nat,
      capital: real)
    requires Market(cfg, w, ts, day, capital, n) && index == w.bars - 1
    requires Between(cfg, s, index, day, trades, held, false, capital)
    ensures Between(cfg, Signalled(w, cfg, s, index), index + 1, day, trades, held, false, capital)
  {
    assert w.signal(index) == None;
    hide Calm;
  }

  /** Up to the limit, one trade at a time. */
  lemma {:induction false} OneByOne(
      cfg: Config, w: World, ts: int -> int, n: nat, index: nat, day: int, capital: real)
    requires CanTrade(cfg) && Market(cfg, w, ts, day, capital, n) && n >= 1 && Affordable(cfg, capital, n)
    requires index <= cfg.maxTradesPerDay
    ensures Between(cfg, BarsSim(w, cfg, index), index, day, MaxInt(0, index - 1), 0, index >= 1, capital)
  {
    hide BarSim, Between, Affordable, CanTrade;
    if index == 0 {
      StartsCalm(cfg, w, day, capital);
    } else {
      OneByOne(cfg, w, ts, n, index - 1, day, capital);
      AffordsAny(cfg, capital, 0, n);
      var after, left := OneBar(cfg, w, ts, n, BarsSim(w, cfg, index - 1), index - 1, day, MaxInt(0, index - 2), 0,
                                index - 1 >= 1, capital);
    }
  }

  lemma StartsCalm(cfg: Config, w: World, day: int, capital: real)
    ensures Between(cfg, BarsSim(w, cfg, 0), 0, day, 0, 0, false, capital)
  {
    NothingYet(w, InitialLedger(cfg.initialCapital));
  }

  lemma AffordsAny(cfg: Config, capital: real, m: nat, n: nat)
    requires Affordable(cfg, capital, n) && m <= n
    ensures Affordable(cfg, capital, m)
  {
    MulMono(capital, m as real, n as real);
  }

  /** With the limit one short, `held` trades are left open side by side. */
  lemma {:induction false} SideBySide(
      cfg: Config, w: World, ts: int -> int, n: nat, held: nat, day: int, capital: real)
    requires CanTrade(cfg) && Market(cfg, w, ts, day, capital, n) && held < n && Affordable(cfg, capital, n)
    requires cfg.maxConcurrentPositions > 0 ==> n <= cfg.maxConcurrentPositions
    ensures var index := cfg.maxTradesPerDay + held;
            Between(cfg, BarsSim(w, cfg, index), index, day, cfg.maxTradesPerDay - 1, held, true, capital)
  {
    hide BarSim, Between, Affordable, CanTrade;
    if held == 0 {
      OneByOne(cfg, w, ts, n, cfg.maxTradesPerDay, day, capital);
    } else {
      SideBySide(cfg, w, ts, n, held - 1, day, capital);
      AffordsAny(cfg, capital, held, n);
      var index := cfg.maxTradesPerDay + held - 1;
      var after, left := OneBar(cfg, w, ts, n, BarsSim(w, cfg, index), index, day, cfg.maxTradesPerDay - 1, held - 1,
                                true, capital);
    }
  }

  /** The last bar opens one more and sells them all. */
  lemma AllAtOnce(cfg: Config, w: World, ts: int -> int, n: nat, day: int, capital: real)
    requires CanTrade(cfg) && Market(cfg, w, ts, day, capital, n) && n >= 1 && Affordable(cfg, capital, n)
    requires cfg.maxConcurrentPositions > 0 ==> n <= cfg.maxConcurrentPositions
    ensures Between(cfg, BarsSim(w, cfg, w.bars), w.bars, day, cfg.maxTradesPerDay + n - 1, 0, false, capital)
  {
    hide BarSim, Between, Affordable, CanTrade;
    SideBySide(cfg, w, ts, n, n - 1, day, capital);
    var index := w.bars - 1;
    var after, left := OneBar(cfg, w, ts, n, BarsSim(w, cfg, index), index, day, cfg.maxTradesPerDay - 1, n - 1, true,
                              capital);
  }

  lemma CloseOutChangesNoCount(cfg: Config, w: World, s: Sim, day: int, trades: nat, capital: real)
    requires Between(cfg, s, w.bars, day, trades, 0, false, capital)
    ensures var c := ClosedOut(w, s); c.ledger.tradesToday == trades && |c.closed| == trades
  {
    assert s.open == [] && s.pending == [];
    hide Mark;
    MarkKeepsCount(s.ledger, w.ts(w.bars - 1));
  }

  lemma IsMarket(cfg: Config, ts: int -> int, day: int, capital: real, n: nat)
    requires cfg.maxTradesPerDay >= 1 && capital > 0.0
    requires forall i :: 0 <= i < cfg.maxTradesPerDay + n ==> Day(ts(i)) == day && !AfterCutoff(cfg, ts(i))
    ensures var w := FlatWorld(cfg, ts, capital, n);
            Market(cfg, w, ts, day, capital, n) && w.ts == ts && w.bars == cfg.maxTradesPerDay + n
  {
    hide AfterCutoff;
  }

  lemma MarkKeepsCount(l: Ledger, time: int)
    ensures Mark(l, time, map[]).tradesToday == l.tradesToday
  {
  }

  /**
   On any stretch of one day before the cutoff there is a backtest that closes `n - 1` trades more than the daily limit
   allows, for every `n` up to the position cap; without a cap, for every `n`.
   */
  lemma BacktestOvershoots(cfg: Config, ts: int -> int, day: int, n: nat) returns (w: World)
    requires CanTrade(cfg) && cfg.maxTradesPerDay >= 1 && n >= 1
    requires cfg.maxConcurrentPositions > 0 ==> n <= cfg.maxConcurrentPositions
    requires forall i :: 0 <= i < cfg.maxTradesPerDay + n ==> Day(ts(i)) == day && !AfterCutoff(cfg, ts(i))
    ensures w.ts == ts && w.bars == cfg.maxTradesPerDay + n
    ensures var end := ClosedOut(w, BarsSim(w, cfg, w.bars));
            end.ledger.tradesToday == |end.closed| == cfg.maxTradesPerDay + n - 1
  {
    hide *;
    var capital: real;
    w, capital := FlatMarket(cfg, ts, day, n);
    AllAtOnce(cfg, w, ts, n, day, capital);
    CloseOutChangesNoCount(cfg, w, BarsSim(w, cfg, w.bars), day, cfg.maxTradesPerDay + n - 1, capital);
  }

  lemma FlatMarket(cfg: Config, ts: int -> int, day: int, n: nat) returns (w: World, capital: real)
    requires CanTrade(cfg) && cfg.maxTradesPerDay >= 1 && n >= 1
    requires forall i :: 0 <= i < cfg.maxTradesPerDay + n ==> Day(ts(i)) == day && !AfterCutoff(cfg, ts(i))
    ensures Market(cfg, w, ts, day, capital, n) && Affordable(cfg, capital, n)
    ensures w.ts == ts && w.bars == cfg.maxTradesPerDay + n
  {
    hide AfterCutoff, CanTrade;
    capital := Afford(cfg, n);
    w := FlatWorld(cfg, ts, capital, n);
    IsMarket(cfg, ts, day, capital, n);
  }

  /** A report of such a backtest shows more trades closed on one day than the limit, by all the bound allows. */
  lemma ReportOvershoots(cfg: Config, ts: int -> int, day: int, n: nat) returns (w: World)
    requires CanTrade(cfg) && cfg.maxTradesPerDay >= 1 && n >= 1
    requires cfg.maxConcurrentPositions > 0 ==> n <= cfg.maxConcurrentPositions
    requires forall i :: 0 <= i < cfg.maxTradesPerDay + n ==> Day(ts(i)) == day && !AfterCutoff(cfg, ts(i))
    ensures w.bars >= 1 && forall r :: ReportOf(w, cfg, r) ==> |r.closed| == cfg.maxTradesPerDay + n - 1
  {
    w := BacktestOvershoots(cfg, ts, day, n);
    hide BarsSim, ClosedOut;
  }
}

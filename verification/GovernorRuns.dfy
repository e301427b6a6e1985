/**
 What holds over whole runs of the reserve / cancel / activate / close protocol.
 */
module GovernorRuns {
  import opened Common
  import opened Portfolio
  import opened RiskGovernors

  datatype Op =
    | Look(ts: int)
    | Admit(rid: Id, ts: int, req: Request)
    | CancelReservation(rid: Id)
    | ActivatePosition(rid: Id, pid: Id, capital: real, risk: real, ts: int)
    | MarkAll(ts: int, marks: map<Id, real>)
    | ClosePosition(pid: Id, ts: int, netPnl: real)

  /** Preview, and reserve when the preview accepts. */
  ghost function Admitted(cfg: Config, l: Ledger, rid: Id, ts: int, req: Request): Ledger {
    var o := Observed(cfg, l, ts);
    match Decide(cfg, o, ts, req)
    case Rejected(_) => o
    case Accepted(s) => Reserve(o, rid, Held(s))
  }

  ghost function Apply(cfg: Config, l: Ledger, op: Op): Ledger {
    match op
    case Look(ts) => Observed(cfg, l, ts)
    case Admit(rid, ts, req) => Admitted(cfg, l, rid, ts, req)
    case CancelReservation(rid) => Cancel(l, rid)
    case ActivatePosition(rid, pid, capital, risk, ts) => Activate(l, rid, pid, Some(capital), Some(risk), Some(ts))
    case MarkAll(ts, marks) => Mark(l, ts, marks)
    case ClosePosition(pid, ts, netPnl) => Close(l, pid, ts, netPnl)
  }

  /** Fresh ids on the way in, existing ids on the way out. */
  ghost predicate Legal(l: Ledger, op: Op) {
    match op
    case Admit(rid, _, _) => rid !in l.pending
    case ActivatePosition(rid, pid, _, _, _) => rid in l.pending && pid !in l.open
    case ClosePosition(pid, _, _) => pid in l.open
    case _ => true
  }

  ghost predicate LegalRun(cfg: Config, l: Ledger, ops: seq<Op>)
    decreases ops
  {
    ops == [] || (Legal(l, ops[0]) && LegalRun(cfg, Apply(cfg, l, ops[0]), ops[1..]))
  }

  ghost function RunOps(cfg: Config, l: Ledger, ops: seq<Op>): Ledger
    decreases ops
  {
    if ops == [] then l else RunOps(cfg, Apply(cfg, l, ops[0]), ops[1..])
  }

  // ----- Admission caps -----

  /** The gate counts closes only, so the daily cap carries the positions still in flight. */
  ghost predicate CapsHold(cfg: Config, l: Ledger) {
    var active := |l.open| + |l.pending|;
    && (cfg.maxConcurrentPositions > 0 ==> active <= cfg.maxConcurrentPositions)
    && (cfg.maxConcurrentPositions > 0 && cfg.maxTradesPerDay > 0 ==>
          l.tradesToday + active <= cfg.maxTradesPerDay + cfg.maxConcurrentPositions - 1)
  }

  lemma RemoveSize<T>(m: map<Id, T>, k: Id)
    ensures |m - {k}| == if k in m then |m| - 1 else |m|
  {
    assert (m - {k}).Keys == m.Keys - {k};
    assert |m| == |m.Keys| && |m - {k}| == |(m - {k}).Keys|;
  }

  lemma AddSize<T>(m: map<Id, T>, k: Id, v: T)
    ensures |m[k := v]| == if k in m then |m| else |m| + 1
  {
    assert m[k := v].Keys == m.Keys + {k};
    assert |m| == |m.Keys| && |m[k := v]| == |m[k := v].Keys|;
  }

  lemma SameSize<T, U>(a: map<Id, T>, b: map<Id, U>)
    requires a.Keys == b.Keys
    ensures |a| == |b|
  {
    assert |a| == |a.Keys| && |b| == |b.Keys|;
  }

  lemma AcceptedBelowCaps(cfg: Config, l: Ledger, ts: int, req: Request)
    requires Decide(cfg, l, ts, req).Accepted?
    ensures cfg.maxTradesPerDay > 0 ==> l.tradesToday < cfg.maxTradesPerDay
    ensures cfg.maxConcurrentPositions > 0 ==> |l.open| + |l.pending| < cfg.maxConcurrentPositions
  {
    assert cfg.maxTradesPerDay > 0 && l.tradesToday >= cfg.maxTradesPerDay ==>
        MaxTradesPerDayHalt in HaltReasons(cfg, l);
  }

  lemma CapsAdmit(cfg: Config, l: Ledger, rid: Id, ts: int, req: Request)
    requires CapsHold(cfg, l) && rid !in l.pending
    ensures CapsHold(cfg, Admitted(cfg, l, rid, ts, req))
  {
    var o := Observed(cfg, l, ts);
    assert CapsHold(cfg, o) && o.pending == l.pending;
    var v := Decide(cfg, o, ts, req);
    if v.Accepted? {
      AcceptedBelowCaps(cfg, o, ts, req);
      CapsReserve(cfg, o, rid, Held(v.sizing));
    }
  }

  lemma CapsReserve(cfg: Config, l: Ledger, rid: Id, r: Reservation)
    requires rid !in l.pending
    requires cfg.maxTradesPerDay > 0 ==> l.tradesToday < cfg.maxTradesPerDay
    requires cfg.maxConcurrentPositions > 0 ==> |l.open| + |l.pending| < cfg.maxConcurrentPositions
    ensures CapsHold(cfg, Reserve(l, rid, r))
  {
    AddSize(l.pending, rid, r);
  }

  lemma CapsLook(cfg: Config, l: Ledger, ts: int)
    requires CapsHold(cfg, l)
    ensures CapsHold(cfg, Observed(cfg, l, ts)) && CapsHold(cfg, OnDay(l, ts))
  {
  }

  lemma CapsActivate(cfg: Config, l: Ledger, rid: Id, pid: Id, capital: real, risk: real, ts: int)
    requires CapsHold(cfg, l) && rid in l.pending && pid !in l.open
    ensures CapsHold(cfg, Activate(l, rid, pid, Some(capital), Some(risk), Some(ts)))
  {
    RemoveSize(l.pending, rid);
    AddSize(l.open, pid, Position(capital, risk, 0.0, Some(ts)));
  }

  lemma CapsCancel(cfg: Config, l: Ledger, rid: Id)
    requires CapsHold(cfg, l)
    ensures CapsHold(cfg, Cancel(l, rid))
  {
    RemoveSize(l.pending, rid);
  }

  lemma CapsMark(cfg: Config, l: Ledger, ts: int, marks: map<Id, real>)
    requires CapsHold(cfg, l)
    ensures CapsHold(cfg, Mark(l, ts, marks))
  {
    SameSize(l.open, Marked(l.open, marks, ts));
  }

  lemma CapsClose(cfg: Config, l: Ledger, pid: Id, ts: int, netPnl: real)
    requires CapsHold(cfg, l) && pid in l.open
    ensures CapsHold(cfg, Close(l, pid, ts, netPnl))
  {
    CapsLook(cfg, l, ts);
    RemoveSize(l.open, pid);
  }

  lemma CapsStep(cfg: Config, l: Ledger, op: Op)
    requires CapsHold(cfg, l) && Legal(l, op)
    ensures CapsHold(cfg, Apply(cfg, l, op))
  {
    match op {
      case Look(ts) => CapsLook(cfg, l, ts);
      case Admit(rid, ts, req) => CapsAdmit(cfg, l, rid, ts, req);
      case CancelReservation(rid) => CapsCancel(cfg, l, rid);
      case ActivatePosition(rid, pid, capital, risk, ts) => CapsActivate(cfg, l, rid, pid, capital, risk, ts);
      case MarkAll(ts, marks) => CapsMark(cfg, l, ts, marks);
      case ClosePosition(pid, ts, netPnl) => CapsClose(cfg, l, pid, ts, netPnl);
    }
  }

  /** Over every run from a fresh ledger, and so at most this many trades close in one day. */
  lemma {:induction false} CapsOverRuns(cfg: Config, l: Ledger, ops: seq<Op>)
    requires CapsHold(cfg, l) && LegalRun(cfg, l, ops)
    ensures CapsHold(cfg, RunOps(cfg, l, ops))
    decreases ops
  {
    if ops != [] {
      CapsStep(cfg, l, ops[0]);
      CapsOverRuns(cfg, Apply(cfg, l, ops[0]), ops[1..]);
    }
  }

  // ----- Realized profit is the closes, nothing else -----

  function ClosedPnl(ops: seq<Op>): real {
    if ops == [] then 0.0
    else (if ops[0].ClosePosition? then ops[0].netPnl else 0.0) + ClosedPnl(ops[1..])
  }

  lemma {:induction false} RealizedIsClosed(cfg: Config, l: Ledger, ops: seq<Op>)
    ensures RunOps(cfg, l, ops).realizedPnL == l.realizedPnL + ClosedPnl(ops)
    ensures RunOps(cfg, l, ops).initialCapital == l.initialCapital
    decreases ops
  {
    if ops != [] {
      RealizedStep(cfg, l, ops[0]);
      RealizedIsClosed(cfg, Apply(cfg, l, ops[0]), ops[1..]);
    }
  }

  lemma RealizedStep(cfg: Config, l: Ledger, op: Op)
    ensures var r := Apply(cfg, l, op);
            && r.realizedPnL == l.realizedPnL + (if op.ClosePosition? then op.netPnl else 0.0)
            && r.initialCapital == l.initialCapital
  {
    if op.Admit? {
      var o := Observed(cfg, l, op.ts);
      assert o.realizedPnL == l.realizedPnL && o.initialCapital == l.initialCapital;
    }
  }

  // ----- The day's figures are the day's closes -----

  function OpDay(op: Op): Option<int> {
    match op
    case Look(ts) => Some(ts / 86400000)
    case Admit(_, ts, _) => Some(ts / 86400000)
    case ClosePosition(_, ts, _) => Some(ts / 86400000)
    case _ => None
  }

  function LaterDay(day: Option<int>, op: Op): Option<int> {
    if OpDay(op).Some? then OpDay(op) else day
  }

  /** No operation comes on an earlier day than the one before. */
  predicate DaysInOrder(day: Option<int>, ops: seq<Op>)
    decreases ops
  {
    ops == [] ||
    (&& (day.Some? && OpDay(ops[0]).Some? ==> day.value <= OpDay(ops[0]).value)
     && DaysInOrder(LaterDay(day, ops[0]), ops[1..]))
  }

  predicate ClosesOn(op: Op, day: int) {
    op.ClosePosition? && op.ts / 86400000 == day
  }

  /** Results and number of the closes of one day. */
  function PnlOn(day: int, ops: seq<Op>): real {
    if ops == [] then 0.0 else (if ClosesOn(ops[0], day) then ops[0].netPnl else 0.0) + PnlOn(day, ops[1..])
  }

  function ClosesOnDay(day: int, ops: seq<Op>): nat {
    if ops == [] then 0 else (if ClosesOn(ops[0], day) then 1 else 0) + ClosesOnDay(day, ops[1..])
  }

  lemma DayStep(cfg: Config, l: Ledger, op: Op)
    ensures var r := Apply(cfg, l, op);
            var carried := if r.currentDay == l.currentDay then l.dailyPnL else 0.0;
            var counted := if r.currentDay == l.currentDay then l.tradesToday else 0;
            && r.currentDay == LaterDay(l.currentDay, op)
            && r.dailyPnL == carried + (if op.ClosePosition? then op.netPnl else 0.0)
            && r.tradesToday == counted + (if op.ClosePosition? then 1 else 0)
            && r.consecutiveLosses == (if op.ClosePosition? then if op.netPnl < 0.0 then l.consecutiveLosses + 1 else 0
                                       else l.consecutiveLosses)
  {
    hide Sum, Decide, HaltReasons;
    if op.ClosePosition? {
      CloseBooks(l, op.pid, op.ts, op.netPnl);
    }
  }

  /** Over every run whose days do not go back: the day's profit and trades are those of the closes of that day. */
  lemma {:induction false} DayIsItsCloses(cfg: Config, l: Ledger, ops: seq<Op>)
    requires DaysInOrder(l.currentDay, ops)
    ensures var r := RunOps(cfg, l, ops);
            if r.currentDay.None? then
              l.currentDay.None? && r.dailyPnL == l.dailyPnL && r.tradesToday == l.tradesToday
            else
              var day, same := r.currentDay.value, l.currentDay == r.currentDay;
              && (l.currentDay.Some? ==> l.currentDay.value <= day)
              && r.dailyPnL == (if same then l.dailyPnL else 0.0) + PnlOn(day, ops)
              && r.tradesToday == (if same then l.tradesToday else 0) + ClosesOnDay(day, ops)
    decreases ops
  {
    hide Apply;
    if ops != [] {
      var next := Apply(cfg, l, ops[0]);
      DayStep(cfg, l, ops[0]);
      DayIsItsCloses(cfg, next, ops[1..]);
      var r := RunOps(cfg, next, ops[1..]);
      if r.currentDay.Some? {
        DayCarries(l, next, r, ops);
      }
    }
  }

  /** Putting the first operation before a run. */
  lemma DayCarries(l: Ledger, next: Ledger, r: Ledger, ops: seq<Op>)
    requires ops != [] && r.currentDay.Some? && next.currentDay == LaterDay(l.currentDay, ops[0])
    requires l.currentDay.Some? && OpDay(ops[0]).Some? ==> l.currentDay.value <= OpDay(ops[0]).value
    requires next.currentDay.Some? ==> next.currentDay.value <= r.currentDay.value
    requires next.dailyPnL == (if next.currentDay == l.currentDay then l.dailyPnL else 0.0)
                              + (if ops[0].ClosePosition? then ops[0].netPnl else 0.0)
    requires next.tradesToday == (if next.currentDay == l.currentDay then l.tradesToday else 0)
                                 + (if ops[0].ClosePosition? then 1 else 0)
    requires var day, same := r.currentDay.value, next.currentDay == r.currentDay;
             && r.dailyPnL == (if same then next.dailyPnL else 0.0) + PnlOn(day, ops[1..])
             && r.tradesToday == (if same then next.tradesToday else 0) + ClosesOnDay(day, ops[1..])
    ensures var day, same := r.currentDay.value, l.currentDay == r.currentDay;
            && (l.currentDay.Some? ==> l.currentDay.value <= day)
            && r.dailyPnL == (if same then l.dailyPnL else 0.0) + PnlOn(day, ops)
            && r.tradesToday == (if same then l.tradesToday else 0) + ClosesOnDay(day, ops)
  {
    var day := r.currentDay.value;
    assert ClosesOn(ops[0], day) <==> ops[0].ClosePosition? && next.currentDay == Some(day);
  }

  /** Losing closes since the last one that did not lose; `before` is the streak the operations start with. */
  function LosingStreak(ops: seq<Op>, before: nat): nat {
    if ops == [] then before
    else
      var last, streak := ops[|ops| - 1], LosingStreak(ops[..|ops| - 1], before);
      if !last.ClosePosition? then streak else if last.netPnl < 0.0 then streak + 1 else 0
  }

  lemma {:induction false} StreakFromFront(ops: seq<Op>, before: nat)
    requires ops != []
    ensures LosingStreak(ops, before) == LosingStreak(ops[1..], LosingStreak(ops[..1], before))
  {
    if |ops| == 1 {
      assert ops[1..] == [] && ops[..1] == ops;
    } else {
      var init := ops[..|ops| - 1];
      StreakFromFront(init, before);
      assert init[..1] == ops[..1] && ops[1..][..|ops| - 2] == init[1..];
    }
  }

  lemma {:induction false} StreakIsLosses(cfg: Config, l: Ledger, ops: seq<Op>)
    ensures RunOps(cfg, l, ops).consecutiveLosses == LosingStreak(ops, l.consecutiveLosses)
    decreases ops
  {
    hide Apply;
    if ops != [] {
      DayStep(cfg, l, ops[0]);
      StreakIsLosses(cfg, Apply(cfg, l, ops[0]), ops[1..]);
      StreakFromFront(ops, l.consecutiveLosses);
      assert ops[..1][..0] == [];
    }
  }

  /** The recorded peak never falls and is never below the equity of the moment. */
  lemma {:induction false} PeakNeverFalls(cfg: Config, l: Ledger, ops: seq<Op>)
    requires Equity(l) <= l.peakEquity
    ensures var r := RunOps(cfg, l, ops);
            l.peakEquity <= r.peakEquity && Equity(r) <= r.peakEquity
    decreases ops
  {
    if ops != [] {
      PeakStep(cfg, l, ops[0]);
      PeakNeverFalls(cfg, Apply(cfg, l, ops[0]), ops[1..]);
    }
  }

  lemma PeakStep(cfg: Config, l: Ledger, op: Op)
    requires Equity(l) <= l.peakEquity
    ensures var r := Apply(cfg, l, op);
            l.peakEquity <= r.peakEquity && Equity(r) <= r.peakEquity
  {
    hide Sum, Equity, Decide, Day;
    match op {
      case Look(ts) => PeakObserved(cfg, l, ts);
      case Admit(rid, ts, req) =>
        PeakObserved(cfg, l, ts);
        var o := Observed(cfg, l, ts);
        hide Observed;
        var v := Decide(cfg, o, ts, req);
        if v.Accepted? {
          PeakRecalculated(o.(pending := o.pending[rid := Held(v.sizing)]));
        }
      case CancelReservation(rid) =>
        PeakRecalculated(l.(pending := l.pending - {rid}));
      case ActivatePosition(rid, pid, capital, risk, ts) =>
        var p := Position(capital, risk, 0.0, Some(ts));
        PeakRecalculated(l.(pending := l.pending - {rid}, open := l.open[pid := p]));
      case MarkAll(ts, marks) =>
        PeakRecalculated(l.(open := Marked(l.open, marks, ts)));
      case ClosePosition(pid, ts, netPnl) =>
        var d := OnDay(l, ts);
        PeakRecalculated(d.(open := d.open - {pid}, realizedPnL := d.realizedPnL + netPnl,
                            dailyPnL := d.dailyPnL + netPnl, tradesToday := d.tradesToday + 1,
                            consecutiveLosses := if netPnl < 0.0 then d.consecutiveLosses + 1 else 0));
    }
  }

  lemma PeakRecalculated(l: Ledger)
    ensures var r := Recalculated(l);
            l.peakEquity <= r.peakEquity && Equity(r) <= r.peakEquity
  {
    RecalculatedTotals(l);
  }

  lemma PeakObserved(cfg: Config, l: Ledger, ts: int)
    ensures var r := Observed(cfg, l, ts);
            l.peakEquity <= r.peakEquity && Equity(r) <= r.peakEquity
  {
    hide HaltReasons;
    PeakRecalculated(OnDay(l, ts));
  }

  // ----- Halts that last -----

  ghost predicate Flat(l: Ledger) {
    l.open == map[] && l.pending == map[]
  }

  /** Halted for consecutive losses or for drawdown. */
  ghost predicate Stopped(cfg: Config, l: Ledger) {
    var pct := DrawdownPct(l.peakEquity, Drawdown(l));
    || (cfg.maxDrawdownInr > 0.0 && Drawdown(l) >= cfg.maxDrawdownInr)
    || (cfg.maxDrawdownPct > 0.0 && pct >= cfg.maxDrawdownPct)
    || (LossHaltThreshold(cfg) > 0 && l.consecutiveLosses >= LossHaltThreshold(cfg))
  }

  ghost predicate DailyStopped(cfg: Config, l: Ledger) {
    cfg.maxDailyLossInr > 0.0 && AbsReal(MinReal(0.0, l.dailyPnL)) >= cfg.maxDailyLossInr
  }

  lemma StoppedRejects(cfg: Config, l: Ledger, ts: int, req: Request)
    requires Stopped(cfg, l) || DailyStopped(cfg, l)
    ensures Decide(cfg, l, ts, req).Rejected?
  {
    var d, pct := Drawdown(l), DrawdownPct(l.peakEquity, Drawdown(l));
    if cfg.maxDrawdownInr > 0.0 && d >= cfg.maxDrawdownInr {
      assert MaxDrawdownHalt in HaltReasons(cfg, l);
    } else if cfg.maxDrawdownPct > 0.0 && pct >= cfg.maxDrawdownPct {
      assert MaxDrawdownPctHalt in HaltReasons(cfg, l);
    } else if LossHaltThreshold(cfg) > 0 && l.consecutiveLosses >= LossHaltThreshold(cfg) {
      assert MaxConsecutiveLossesHalt in HaltReasons(cfg, l);
    } else {
      assert DailyLossHalt in HaltReasons(cfg, l);
    }
  }

  /** What a stopped ledger is stopped by: nothing here changes while no trade is open or reserved. */
  lemma StoppedStays(cfg: Config, l: Ledger, r: Ledger)
    requires Flat(l) && Equity(l) <= l.peakEquity && Stopped(cfg, l)
    requires Flat(r) && r.initialCapital == l.initialCapital && r.realizedPnL == l.realizedPnL
    requires r.peakEquity == l.peakEquity && r.consecutiveLosses == l.consecutiveLosses
    ensures Equity(r) <= r.peakEquity && Stopped(cfg, r)
  {
    assert Equity(r) == Equity(l);
  }

  lemma StoppedStep(cfg: Config, l: Ledger, op: Op)
    requires Flat(l) && Equity(l) <= l.peakEquity && Stopped(cfg, l) && Legal(l, op)
    ensures var r := Apply(cfg, l, op);
            Flat(r) && Equity(r) <= r.peakEquity && Stopped(cfg, r) && r.realizedPnL == l.realizedPnL
  {
    hide Stopped, Sum, Decide, HaltReasons;
    var r := Apply(cfg, l, op);
    match op {
      case Admit(rid, ts, req) =>
        StoppedLooks(cfg, l, ts, req);
      case MarkAll(ts, marks) =>
        assert Marked(l.open, marks, ts) == map[];
      case _ =>
    }
    StoppedStays(cfg, l, r);
  }

  lemma StoppedLooks(cfg: Config, l: Ledger, ts: int, req: Request)
    requires Stopped(cfg, l) && Equity(l) <= l.peakEquity
    ensures Decide(cfg, Observed(cfg, l, ts), ts, req).Rejected?
  {
    ObservedTotals(cfg, l, ts);
    StoppedRejects(cfg, Observed(cfg, l, ts), ts, req);
  }

  /** Once flat and stopped, no later operation, day change included, lets anything in again. */
  lemma {:induction false} StoppedForever(cfg: Config, l: Ledger, ops: seq<Op>)
    requires Flat(l) && Equity(l) <= l.peakEquity && Stopped(cfg, l) && LegalRun(cfg, l, ops)
    ensures var r := RunOps(cfg, l, ops);
            Flat(r) && Stopped(cfg, r) && r.realizedPnL == l.realizedPnL
            && forall ts, req :: Decide(cfg, Observed(cfg, r, ts), ts, req).Rejected?
    decreases ops
  {
    hide Apply, Legal, Flat, Stopped, Decide, Observed, Equity;
    if ops == [] {
      forall ts, req
        ensures Decide(cfg, Observed(cfg, l, ts), ts, req).Rejected?
      {
        StoppedLooks(cfg, l, ts, req);
      }
    } else {
      StoppedStep(cfg, l, ops[0]);
      StoppedForever(cfg, Apply(cfg, l, ops[0]), ops[1..]);
    }
  }

  function OpTime(op: Op): Option<int> {
    match op
    case Look(ts) => Some(ts)
    case Admit(_, ts, _) => Some(ts)
    case ClosePosition(_, ts, _) => Some(ts)
    case _ => None
  }

  ghost predicate WithinDay(day: int, ops: seq<Op>) {
    forall i :: 0 <= i < |ops| && OpTime(ops[i]).Some? ==> Day(OpTime(ops[i]).value) == day
  }

  lemma DailyStep(cfg: Config, l: Ledger, op: Op)
    requires Flat(l) && DailyStopped(cfg, l) && Legal(l, op)
    requires OpTime(op).Some? ==> l.currentDay == Some(Day(OpTime(op).value))
    ensures var r := Apply(cfg, l, op);
            Flat(r) && DailyStopped(cfg, r) && r.currentDay == l.currentDay
  {
    match op {
      case Admit(rid, ts, req) =>
        StoppedRejects(cfg, Observed(cfg, l, ts), ts, req);
      case MarkAll(ts, marks) =>
        assert Marked(l.open, marks, ts) == map[];
      case _ =>
    }
  }

  /** A daily-loss halt lasts until the day changes. */
  lemma {:induction false} DailyStopLastsTheDay(cfg: Config, l: Ledger, ops: seq<Op>)
    requires Flat(l) && DailyStopped(cfg, l) && LegalRun(cfg, l, ops)
    requires l.currentDay.Some? && WithinDay(l.currentDay.value, ops)
    ensures var r := RunOps(cfg, l, ops);
            Flat(r) && DailyStopped(cfg, r)
            && forall ts, req :: Day(ts) == l.currentDay.value ==> Decide(cfg, Observed(cfg, r, ts), ts, req).Rejected?
    decreases ops
  {
    if ops == [] {
      forall ts, req | Day(ts) == l.currentDay.value
        ensures Decide(cfg, Observed(cfg, l, ts), ts, req).Rejected?
      {
        StoppedRejects(cfg, Observed(cfg, l, ts), ts, req);
      }
    } else {
      DailyStep(cfg, l, ops[0]);
      DailyStopLastsTheDay(cfg, Apply(cfg, l, ops[0]), ops[1..]);
    }
  }

  // ----- Open risk -----

  function RiskHeld(r: Reservation): real { r.riskInr }

  ghost function CommittedRisk(l: Ledger): real {
    OpenRisk(l) + Sum(l.pending, RiskHeld)
  }

  /**
   What is reserved fits beside the open risk and the risk of an accepted admission, and an activation stays within
   what was reserved for it and the slack.
   */
  ghost predicate Careful(cfg: Config, l: Ledger, op: Op) {
    match op
    case Admit(_, ts, req) =>
      var v := Decide(cfg, Observed(cfg, l, ts), ts, req);
      v.Accepted? ==> OpenRisk(l) + Sum(l.pending, RiskHeld) + v.sizing.riskInr <= cfg.maxOpenRiskInr
    case ActivatePosition(rid, _, _, risk, _) =>
      rid in l.pending && risk <= l.pending[rid].riskInr + (cfg.maxOpenRiskInr - CommittedRisk(l))
    case _ => true
  }

  /** Admissions find nothing reserved, and no position opens with more risk than was reserved for it. */
  ghost predicate Cautious(l: Ledger, op: Op) {
    match op
    case Admit(_, _, _) => l.pending == map[]
    case ActivatePosition(rid, _, _, risk, _) => rid in l.pending && risk <= l.pending[rid].riskInr
    case _ => true
  }

  ghost predicate RisksNonNegative(l: Ledger) {
    && (forall k :: k in l.open ==> l.open[k].riskInr >= 0.0)
    && (forall k :: k in l.pending ==> l.pending[k].riskInr >= 0.0)
  }

  lemma SizingRiskNonNegative(cfg: Config, equity: real, available: real, req: Request)
    ensures BuildSizingPreview(cfg, equity, available, req).0.riskInr >= 0.0
  {
    var lots := BuildSizingPreview(cfg, equity, available, req).0.lots;
    MulMono(LotSize(req) as real, 0.0, AbsReal(req.entryPrice - req.stopLoss));
    MulMono(PerLotRisk(req), 0.0, lots as real);
  }

  lemma AcceptedRiskFits(cfg: Config, l: Ledger, ts: int, req: Request)
    ensures var v := Decide(cfg, l, ts, req);
            v.Accepted? && cfg.maxOpenRiskInr > 0.0 ==>
              && OpenRisk(l) + v.sizing.riskInr <= cfg.maxOpenRiskInr
              && v.sizing == BuildSizingPreview(cfg, Equity(l), Free(l), req).0
  {
  }

  lemma ReserveRisk(l: Ledger, rid: Id, r: Reservation)
    requires rid !in l.pending
    ensures CommittedRisk(Reserve(l, rid, r)) == CommittedRisk(l) + r.riskInr
  {
    SumAdd(l.pending, RiskHeld, rid, r);
  }

  /**
   An accepted admission keeps open and reserved risk within the limit exactly when what is already reserved fits as
   well.
   */
  lemma AdmissionRiskExact(cfg: Config, l: Ledger, rid: Id, ts: int, req: Request)
    requires cfg.maxOpenRiskInr > 0.0 && rid !in l.pending
    ensures var v := Decide(cfg, Observed(cfg, l, ts), ts, req);
            v.Accepted? ==>
              (CommittedRisk(Admitted(cfg, l, rid, ts, req)) <= cfg.maxOpenRiskInr <==>
               Sum(l.pending, RiskHeld) <= cfg.maxOpenRiskInr - OpenRisk(l) - v.sizing.riskInr)
  {
    hide Decide, Reserve;
    var o := Observed(cfg, l, ts);
    ObservedTotals(cfg, l, ts);
    assert CommittedRisk(o) == CommittedRisk(l);
    var v := Decide(cfg, o, ts, req);
    if v.Accepted? {
      ReserveRisk(o, rid, Held(v.sizing));
    }
  }

  lemma RisksStay(cfg: Config, l: Ledger, op: Op)
    requires RisksNonNegative(l) && Legal(l, op) && (op.ActivatePosition? ==> op.risk >= 0.0)
    ensures RisksNonNegative(Apply(cfg, l, op))
  {
    if op.Admit? {
      var o := Observed(cfg, l, op.ts);
      ObservedTotals(cfg, l, op.ts);
      SizingRiskNonNegative(cfg, Equity(o), Free(o), op.req);
      AcceptedSizing(cfg, o, op.ts, op.req);
    }
  }

  lemma AcceptedSizing(cfg: Config, l: Ledger, ts: int, req: Request)
    ensures var v := Decide(cfg, l, ts, req);
            v.Accepted? ==> v.sizing == BuildSizingPreview(cfg, Equity(l), Free(l), req).0
  {
  }

  /** One step keeps committed risk within the limit exactly when it is careful. */
  lemma OpenRiskStepExact(cfg: Config, l: Ledger, op: Op)
    requires cfg.maxOpenRiskInr > 0.0 && CommittedRisk(l) <= cfg.maxOpenRiskInr && RisksNonNegative(l)
    requires Legal(l, op)
    ensures CommittedRisk(Apply(cfg, l, op)) <= cfg.maxOpenRiskInr <==> Careful(cfg, l, op)
  {
    hide Decide;
    match op {
      case Look(ts) =>
      case Admit(rid, ts, req) =>
        AdmissionRiskExact(cfg, l, rid, ts, req);
        ObservedTotals(cfg, l, ts);
      case CancelReservation(rid) =>
        if rid in l.pending {
          SumSplit(l.pending, RiskHeld, rid);
        }
      case ActivatePosition(rid, pid, capital, risk, ts) =>
        SumSplit(l.pending, RiskHeld, rid);
        SumAdd(l.open, RiskOf, pid, Position(capital, risk, 0.0, Some(ts)));
      case MarkAll(ts, marks) =>
        SumSame(l.open, Marked(l.open, marks, ts), RiskOf);
      case ClosePosition(pid, ts, netPnl) =>
        SumSplit(l.open, RiskOf, pid);
    }
  }

  ghost predicate CarefulRun(cfg: Config, l: Ledger, ops: seq<Op>)
    decreases ops
  {
    ops == [] || (Careful(cfg, l, ops[0]) && CarefulRun(cfg, Apply(cfg, l, ops[0]), ops[1..]))
  }

  ghost predicate CautiousRun(cfg: Config, l: Ledger, ops: seq<Op>)
    decreases ops
  {
    ops == [] || (Cautious(l, ops[0]) && CautiousRun(cfg, Apply(cfg, l, ops[0]), ops[1..]))
  }

  /** At every moment of the run the risk of positions and reservations together is within the limit. */
  ghost predicate RiskCapThroughout(cfg: Config, l: Ledger, ops: seq<Op>) {
    forall n :: 0 <= n <= |ops| ==> CommittedRisk(RunOps(cfg, l, ops[..n])) <= cfg.maxOpenRiskInr
  }

  /** A position's risk is a distance times a quantity. */
  ghost predicate ActivationRisksNonNegative(ops: seq<Op>) {
    forall i :: 0 <= i < |ops| && ops[i].ActivatePosition? ==> ops[i].risk >= 0.0
  }

  lemma RiskCapUnfolds(cfg: Config, l: Ledger, ops: seq<Op>)
    requires ops != []
    ensures RiskCapThroughout(cfg, l, ops) <==>
            CommittedRisk(l) <= cfg.maxOpenRiskInr && RiskCapThroughout(cfg, Apply(cfg, l, ops[0]), ops[1..])
  {
    hide CommittedRisk, Apply;
    var next, rest := Apply(cfg, l, ops[0]), ops[1..];
    assert RunOps(cfg, l, ops[..0]) == l;
    forall n | 0 <= n <= |rest|
      ensures RunOps(cfg, next, rest[..n]) == RunOps(cfg, l, ops[..n + 1])
    {
      assert ops[..n + 1][1..] == rest[..n];
    }
    if RiskCapThroughout(cfg, l, ops) {
      forall n | 0 <= n <= |rest|
        ensures CommittedRisk(RunOps(cfg, next, rest[..n])) <= cfg.maxOpenRiskInr
      {
        assert CommittedRisk(RunOps(cfg, l, ops[..n + 1])) <= cfg.maxOpenRiskInr;
      }
    }
    if RiskCapThroughout(cfg, next, rest) && CommittedRisk(l) <= cfg.maxOpenRiskInr {
      forall n | 0 <= n <= |ops|
        ensures CommittedRisk(RunOps(cfg, l, ops[..n])) <= cfg.maxOpenRiskInr
      {
        if n > 0 {
          assert RunOps(cfg, next, rest[..n - 1]) == RunOps(cfg, l, ops[..n]);
        }
      }
    }
  }

  /**
   Over every run: open and reserved risk stay within the limit at every moment exactly when every step is careful.
   */
  lemma {:induction false} OpenRiskExact(cfg: Config, l: Ledger, ops: seq<Op>)
    requires cfg.maxOpenRiskInr > 0.0 && CommittedRisk(l) <= cfg.maxOpenRiskInr && RisksNonNegative(l)
    requires LegalRun(cfg, l, ops) && ActivationRisksNonNegative(ops)
    ensures RiskCapThroughout(cfg, l, ops) <==> CarefulRun(cfg, l, ops)
    decreases ops
  {
    hide CommittedRisk, Apply, Careful, RiskCapThroughout, RisksNonNegative, Legal;
    if ops == [] {
      NoOpsRiskCap(cfg, l);
    } else {
      var next := Apply(cfg, l, ops[0]);
      RiskCapUnfolds(cfg, l, ops);
      OpenRiskStepExact(cfg, l, ops[0]);
      RisksStay(cfg, l, ops[0]);
      if CommittedRisk(next) <= cfg.maxOpenRiskInr {
        OpenRiskExact(cfg, next, ops[1..]);
      } else {
        RiskCapStart(cfg, next, ops[1..]);
      }
    }
  }

  lemma NoOpsRiskCap(cfg: Config, l: Ledger)
    ensures RiskCapThroughout(cfg, l, []) <==> CommittedRisk(l) <= cfg.maxOpenRiskInr
  {
    RiskCapStart(cfg, l, []);
  }

  lemma RiskCapStart(cfg: Config, l: Ledger, ops: seq<Op>)
    ensures RiskCapThroughout(cfg, l, ops) ==> CommittedRisk(l) <= cfg.maxOpenRiskInr
  {
    assert RunOps(cfg, l, ops[..0]) == l;
  }

  /** A cautious step is careful: an accepted preview has checked the open risk, and nothing else is committed. */
  lemma CautiousIsCareful(cfg: Config, l: Ledger, op: Op)
    requires cfg.maxOpenRiskInr > 0.0 && CommittedRisk(l) <= cfg.maxOpenRiskInr && Cautious(l, op)
    ensures Careful(cfg, l, op)
  {
    if op.Admit? {
      ObservedTotals(cfg, l, op.ts);
      AcceptedRiskFits(cfg, Observed(cfg, l, op.ts), op.ts, op.req);
      assert OpenRisk(Observed(cfg, l, op.ts)) == OpenRisk(l);
    }
  }

  lemma {:induction false} CautiousRunIsCareful(cfg: Config, l: Ledger, ops: seq<Op>)
    requires cfg.maxOpenRiskInr > 0.0 && CommittedRisk(l) <= cfg.maxOpenRiskInr && RisksNonNegative(l)
    requires LegalRun(cfg, l, ops) && ActivationRisksNonNegative(ops) && CautiousRun(cfg, l, ops)
    ensures CarefulRun(cfg, l, ops)
    decreases ops
  {
    hide CommittedRisk, Apply, Careful, Cautious, RisksNonNegative, Legal;
    if ops != [] {
      CautiousIsCareful(cfg, l, ops[0]);
      OpenRiskStepExact(cfg, l, ops[0]);
      RisksStay(cfg, l, ops[0]);
      CautiousRunIsCareful(cfg, Apply(cfg, l, ops[0]), ops[1..]);
    }
  }

  /** The limit on open risk is kept by cautious runs. */
  lemma OpenRiskCap(cfg: Config, l: Ledger, ops: seq<Op>)
    requires cfg.maxOpenRiskInr > 0.0 && CommittedRisk(l) <= cfg.maxOpenRiskInr && RisksNonNegative(l)
    requires LegalRun(cfg, l, ops) && ActivationRisksNonNegative(ops) && CautiousRun(cfg, l, ops)
    ensures CommittedRisk(RunOps(cfg, l, ops)) <= cfg.maxOpenRiskInr
    ensures OpenRisk(RunOps(cfg, l, ops)) <= cfg.maxOpenRiskInr
  {
    CautiousRunIsCareful(cfg, l, ops);
    OpenRiskExact(cfg, l, ops);
    assert ops[..|ops|] == ops;
    RisksStayOver(cfg, l, ops);
    SumNonNegative(RunOps(cfg, l, ops).pending);
  }

  lemma {:induction false} RisksStayOver(cfg: Config, l: Ledger, ops: seq<Op>)
    requires RisksNonNegative(l) && LegalRun(cfg, l, ops) && ActivationRisksNonNegative(ops)
    ensures RisksNonNegative(RunOps(cfg, l, ops))
    decreases ops
  {
    hide Apply, RisksNonNegative, Legal;
    if ops != [] {
      RisksStay(cfg, l, ops[0]);
      RisksStayOver(cfg, Apply(cfg, l, ops[0]), ops[1..]);
    }
  }

  lemma {:induction false} SumNonNegative(m: map<Id, Reservation>)
    requires forall k :: k in m ==> m[k].riskInr >= 0.0
    ensures Sum(m, RiskHeld) >= 0.0
    decreases |m|
  {
    if m != map[] {
      var k :| k in m;
      SumSplit(m, RiskHeld, k);
      SumNonNegative(m - {k});
    }
  }

  function ExampleConfig(): Config {
    Config(10000.0, 0.0, 1.0, 0.0, 0.0, 0.0, 0.0, 0.0, 0.0, 0, 0, 0, 2, 100.0, None, 0, 0.0, 0.0)
  }

  function ExampleRequest(): Request {
    Request(100.0, 40.0, 1, FixedQty, 1, None, None)
  }

  lemma ExampleSizing(available: real)
    requires available >= 1000.0
    ensures var (s, reason) := BuildSizingPreview(ExampleConfig(), 10000.0, available, ExampleRequest());
            reason == None && s.riskInr == 60.0 && s.capitalUsed == 100.0
  {
    var cfg, req := ExampleConfig(), ExampleRequest();
    assert PerLotCapital(cfg, req) == 100.0 && PerLotRisk(req) == 60.0;
    assert CapitalBudget(cfg, available) == available;
    assert IntendedLots(req) == Some(1);
    SizingOptimal(cfg, 10000.0, available, req);
    var lots := BuildSizingPreview(cfg, 10000.0, available, req).0.lots;
    assert Fits(cfg, 10000.0, available, req, 1);
    assert !Fits(cfg, 10000.0, available, req, 2);
    assert lots == 1;
  }

  /** An otherwise fresh ledger that holds these reservations and plenty of free capital. */
  ghost predicate ExampleReady(l: Ledger, pending: map<Id, Reservation>, free: real) {
    && l.open == map[] && l.pending == pending
    && l.initialCapital == Equity(l) == l.peakEquity == 10000.0 && Free(l) >= free
  }

  lemma ExampleAdmit(l: Ledger, rid: Id, pending: map<Id, Reservation>, free: real)
    requires ExampleReady(l, pending, free) && rid !in pending && |pending| < 2 && free >= 1000.0
    ensures ExampleReady(Admitted(ExampleConfig(), l, rid, 0, ExampleRequest()),
                         pending[rid := Reservation(100.0, 60.0)], free - 100.0)
  {
    var o := Observed(ExampleConfig(), l, 0);
    ObservedTotals(ExampleConfig(), l, 0);
    ExampleSizing(Free(o));
    assert HaltReasons(ExampleConfig(), o) == [];
    var v := Decide(ExampleConfig(), o, 0, ExampleRequest());
    assert v.Accepted? && Held(v.sizing) == Reservation(100.0, 60.0);
    ReserveMoves(o, rid, Held(v.sizing));
  }

  lemma ExampleActivate(l: Ledger, r0: Id, r1: Id, p0: Id, p1: Id)
    requires r0 != r1 && p0 != p1 && l.open == map[]
    requires l.pending == map[r0 := Reservation(100.0, 60.0), r1 := Reservation(100.0, 60.0)]
    ensures var l1 := Activate(l, r0, p0, Some(100.0), Some(60.0), Some(0));
            && r0 in l.pending && p0 !in l.open && r1 in l1.pending && p1 !in l1.open
            && OpenRisk(Activate(l1, r1, p1, Some(100.0), Some(60.0), Some(0))) == 120.0
  {
    ActivateMoves(l, r0, p0, 100.0, 60.0, Some(0));
    var l1 := Activate(l, r0, p0, Some(100.0), Some(60.0), Some(0));
    ActivateMoves(l1, r1, p1, 100.0, 60.0, Some(0));
  }

  lemma ExampleStart()
    ensures ExampleReady(InitialLedger(10000.0), map[], 10000.0)
  {
  }

  lemma ExampleTwoAdmitted(l0: Ledger, r0: Id, r1: Id) returns (l1: Ledger, l2: Ledger)
    requires ExampleReady(l0, map[], 10000.0) && r0 != r1
    ensures l1 == Admitted(ExampleConfig(), l0, r0, 0, ExampleRequest())
    ensures l2 == Admitted(ExampleConfig(), l1, r1, 0, ExampleRequest())
    ensures r1 !in l1.pending && l2.open == map[]
    ensures l2.pending == map[r0 := Reservation(100.0, 60.0), r1 := Reservation(100.0, 60.0)]
  {
    hide Admitted, ExampleConfig, ExampleRequest, Equity, Free;
    l1 := Admitted(ExampleConfig(), l0, r0, 0, ExampleRequest());
    ExampleAdmit(l0, r0, map[], 10000.0);
    l2 := Admitted(ExampleConfig(), l1, r1, 0, ExampleRequest());
    ExampleAdmit(l1, r1, map[r0 := Reservation(100.0, 60.0)], 9900.0);
  }

  /** Two admissions in a row each see no open risk, so together they can open more than the allowed 100. */
  lemma OpenRiskCapNeedsCare(l0: Ledger, r0: Id, r1: Id, p0: Id, p1: Id) returns (l1: Ledger, l2: Ledger, l3: Ledger)
    requires l0 == InitialLedger(10000.0) && r0 != r1 && p0 != p1
    ensures l1 == Admitted(ExampleConfig(), l0, r0, 0, ExampleRequest())
    ensures l2 == Admitted(ExampleConfig(), l1, r1, 0, ExampleRequest()) && r1 !in l1.pending
    ensures l3 == Activate(l2, r0, p0, Some(100.0), Some(60.0), Some(0)) && r0 in l2.pending && p0 !in l2.open
    ensures r1 in l3.pending && p1 !in l3.open
    ensures OpenRisk(Activate(l3, r1, p1, Some(100.0), Some(60.0), Some(0))) ==
            120.0 > ExampleConfig().maxOpenRiskInr > 0.0
  {
    hide Admitted, ExampleRequest, ExampleReady, OpenRisk, Sum;
    ExampleStart();
    l1, l2 := ExampleTwoAdmitted(l0, r0, r1);
    l3 := Activate(l2, r0, p0, Some(100.0), Some(60.0), Some(0));
    ExampleActivate(l2, r0, r1, p0, p1);
  }
}

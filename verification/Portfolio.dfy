/**
 The backtest portfolio.  `Ledger` is the part of the state everything else is computed from;
 the class additionally keeps the computed totals the original stores in fields.
 */
module Portfolio {
  import opened Common

  const MS_PER_DAY := 86400000

  datatype Id = ReservationId(bar: int, slot: int) | TradeId(n: int)

  datatype Position = Position(capitalUsed: real, riskInr: real, unrealizedPnL: real, lastMarkTs: Option<int>)

  datatype Reservation = Reservation(capitalUsed: real, riskInr: real)

  datatype Ledger = Ledger(
    initialCapital: real, realizedPnL: real, peakEquity: real,
    open: map<Id, Position>, pending: map<Id, Reservation>,
    consecutiveLosses: nat, tradesToday: nat, dailyPnL: real, currentDay: Option<int>,
    dailyLossHit: bool, dailyTradeLimitHit: bool)

  /** What a snapshot was taken for. */
  datatype Event = OnRequest | OnReserve | OnCancel | OnActivate | OnMark | OnClose

  datatype Snapshot = Snapshot(
    ts: Option<int>, event: Event, equity: real, peak: real, drawdown: real, drawdownPct: real,
    free: real, used: real, reserved: real, openRisk: real, realized: real, unrealized: real,
    openPositions: nat, reservations: nat, consecutiveLosses: nat, tradesToday: nat, dailyPnL: real,
    dailyLossHit: bool, dailyTradeLimitHit: bool)

  // ----- Totals -----

  ghost function Sum<T>(m: map<Id, T>, f: T -> real): real {
    if m == map[] then 0.0
    else
      var k :| k in m;
      f(m[k]) + Sum(m - {k}, f)
  }

  lemma {:induction false} SumSplit<T>(m: map<Id, T>, f: T -> real, k: Id)
    requires k in m
    ensures Sum(m, f) == f(m[k]) + Sum(m - {k}, f)
    decreases |m|
  {
    var j :| j in m && Sum(m, f) == f(m[j]) + Sum(m - {j}, f);
    if j != k {
      SumSplit(m - {j}, f, k);
      SumSplit(m - {k}, f, j);
      assert m - {j} - {k} == m - {k} - {j};
    }
  }

  lemma SumAdd<T>(m: map<Id, T>, f: T -> real, k: Id, v: T)
    requires k !in m
    ensures Sum(m[k := v], f) == Sum(m, f) + f(v)
  {
    SumSplit(m[k := v], f, k);
    assert m[k := v] - {k} == m;
  }

  lemma {:induction false} SumSame<T>(a: map<Id, T>, b: map<Id, T>, f: T -> real)
    requires a.Keys == b.Keys && forall k :: k in a ==> f(a[k]) == f(b[k])
    ensures Sum(a, f) == Sum(b, f)
    decreases |a|
  {
    if a != map[] {
      var k :| k in a;
      SumSplit(a, f, k);
      SumSplit(b, f, k);
      SumSame(a - {k}, b - {k}, f);
    } else {
      assert b == map[];
    }
  }

  function CapitalOf(p: Position): real { p.capitalUsed }
  function RiskOf(p: Position): real { p.riskInr }
  function MarkOf(p: Position): real { p.unrealizedPnL }
  function HeldBy(r: Reservation): real { r.capitalUsed }

  ghost function Used(l: Ledger): real { Sum(l.open, CapitalOf) }
  ghost function Reserved(l: Ledger): real { Sum(l.pending, HeldBy) }
  ghost function OpenRisk(l: Ledger): real { Sum(l.open, RiskOf) }
  ghost function Unrealized(l: Ledger): real { Sum(l.open, MarkOf) }
  ghost function Equity(l: Ledger): real { l.initialCapital + l.realizedPnL + Unrealized(l) }
  ghost function Free(l: Ledger): real { Equity(l) - Used(l) - Reserved(l) }
  ghost function Drawdown(l: Ledger): real { MaxReal(0.0, l.peakEquity - Equity(l)) }

  // ----- What one call does to the ledger -----

  function Day(ts: int): int { ts / MS_PER_DAY }

  function InitialLedger(capital: real): Ledger {
    Ledger(capital, 0.0, capital, map[], map[], 0, 0, 0.0, None, false, false)
  }

  /** A ledger starts with its capital free, nothing open or reserved, no day and no losses. */
  lemma StartsFree(capital: real)
    ensures var l := InitialLedger(capital);
            && Free(l) == Equity(l) == capital && l.initialCapital == capital && l.peakEquity == capital
            && l.realizedPnL == 0.0 && l.open == map[] && l.pending == map[]
            && l.consecutiveLosses == 0 && l.tradesToday == 0 && l.dailyPnL == 0.0 && l.currentDay == None
            && !l.dailyLossHit && !l.dailyTradeLimitHit
  {
  }

  function OnDay(l: Ledger, ts: int): Ledger {
    if l.currentDay == Some(Day(ts)) then l
    else l.(currentDay := Some(Day(ts)), tradesToday := 0, dailyPnL := 0.0,
            dailyLossHit := false, dailyTradeLimitHit := false)
  }

  ghost function Recalculated(l: Ledger): Ledger {
    l.(peakEquity := MaxReal(l.peakEquity, Equity(l)))
  }

  lemma RecalculatedTotals(l: Ledger)
    ensures var n := Recalculated(l);
            && Used(n) == Used(l) && Reserved(n) == Reserved(l) && OpenRisk(n) == OpenRisk(l)
            && Unrealized(n) == Unrealized(l) && Equity(n) == Equity(l) && Free(n) == Free(l)
            && Drawdown(n) == n.peakEquity - Equity(n)
  {
  }

  ghost function Reserve(l: Ledger, rid: Id, r: Reservation): Ledger {
    Recalculated(l.(pending := l.pending[rid := r]))
  }

  ghost function Cancel(l: Ledger, rid: Id): Ledger {
    if rid in l.pending then Recalculated(l.(pending := l.pending - {rid})) else l
  }

  /** `usage` overrides what was reserved; a missing reservation counts as nothing reserved. */
  ghost function Activate(l: Ledger, rid: Id, pid: Id, capital: Option<real>, risk: Option<real>,
                          ts: Option<int>): Ledger {
    var held := if rid in l.pending then l.pending[rid] else Reservation(0.0, 0.0);
    var p := Position(if capital.Some? then capital.value else held.capitalUsed,
                      if risk.Some? then risk.value else held.riskInr, 0.0, ts);
    Recalculated(l.(pending := l.pending - {rid}, open := l.open[pid := p]))
  }

  function Marked(open: map<Id, Position>, marks: map<Id, real>, ts: int): map<Id, Position> {
    map k | k in open :: open[k].(unrealizedPnL := if k in marks then marks[k] else 0.0, lastMarkTs := Some(ts))
  }

  ghost function Mark(l: Ledger, ts: int, marks: map<Id, real>): Ledger {
    Recalculated(l.(open := Marked(l.open, marks, ts)))
  }

  ghost function Close(l: Ledger, pid: Id, ts: int, netPnl: real): Ledger {
    var d := OnDay(l, ts);
    Recalculated(d.(open := d.open - {pid}, realizedPnL := d.realizedPnL + netPnl, dailyPnL := d.dailyPnL + netPnl,
                    tradesToday := d.tradesToday + 1,
                    consecutiveLosses := if netPnl < 0.0 then d.consecutiveLosses + 1 else 0))
  }

  // ----- The totals move the way bookkeeping by hand would -----

  lemma ReserveMoves(l: Ledger, rid: Id, r: Reservation)
    requires rid !in l.pending
    ensures var n := Reserve(l, rid, r);
            && Equity(n) == Equity(l) && Used(n) == Used(l) && OpenRisk(n) == OpenRisk(l)
            && Reserved(n) == Reserved(l) + r.capitalUsed
            && Free(n) == Free(l) - r.capitalUsed
  {
    SumAdd(l.pending, HeldBy, rid, r);
  }

  lemma CancelUndoesReserve(l: Ledger, rid: Id, r: Reservation)
    requires rid !in l.pending
    ensures Cancel(Reserve(l, rid, r), rid) == Recalculated(l)
  {
    assert (l.pending[rid := r]) - {rid} == l.pending;
  }

  lemma ActivateMoves(l: Ledger, rid: Id, pid: Id, capital: real, risk: real, ts: Option<int>)
    requires rid in l.pending && pid !in l.open
    ensures var n := Activate(l, rid, pid, Some(capital), Some(risk), ts);
            && Equity(n) == Equity(l)
            && Used(n) == Used(l) + capital && OpenRisk(n) == OpenRisk(l) + risk
            && Reserved(n) == Reserved(l) - l.pending[rid].capitalUsed
  {
    var p := Position(capital, risk, 0.0, ts);
    SumAdd(l.open, CapitalOf, pid, p);
    SumAdd(l.open, RiskOf, pid, p);
    SumAdd(l.open, MarkOf, pid, p);
    SumSplit(l.pending, HeldBy, rid);
  }

  lemma CloseMoves(l: Ledger, pid: Id, ts: int, netPnl: real)
    requires pid in l.open
    ensures var n := Close(l, pid, ts, netPnl);
            && Used(n) == Used(l) - l.open[pid].capitalUsed && OpenRisk(n) == OpenRisk(l) - l.open[pid].riskInr
            && Reserved(n) == Reserved(l)
            && Equity(n) == Equity(l) + netPnl - l.open[pid].unrealizedPnL
  {
    SumSplit(l.open, CapitalOf, pid);
    SumSplit(l.open, RiskOf, pid);
    SumSplit(l.open, MarkOf, pid);
  }

  lemma MarkMoves(l: Ledger, ts: int, marks: map<Id, real>)
    ensures var n := Mark(l, ts, marks);
            && Used(n) == Used(l) && Reserved(n) == Reserved(l) && OpenRisk(n) == OpenRisk(l)
            && n.realizedPnL == l.realizedPnL && n.pending == l.pending && n.open.Keys == l.open.Keys
            && forall k :: k in n.open ==>
                 && n.open[k].unrealizedPnL == (if k in marks then marks[k] else 0.0)
                 && n.open[k].lastMarkTs == Some(ts)
                 && n.open[k].capitalUsed == l.open[k].capitalUsed && n.open[k].riskInr == l.open[k].riskInr
  {
    SumSame(l.open, Marked(l.open, marks, ts), CapitalOf);
    SumSame(l.open, Marked(l.open, marks, ts), RiskOf);
  }

  function DrawdownPct(peak: real, drawdown: real): real {
    if peak > 0.0 then drawdown / peak * 100.0 else 0.0
  }

  /** Without a usage of its own a position takes over what was reserved for it; the reservation is gone either way. */
  lemma ActivationTakesOver(
      l: Ledger, rid: Id, pid: Id, capital: Option<real>, risk: Option<real>, ts: Option<int>)
    ensures var n := Activate(l, rid, pid, capital, risk, ts);
            var held := if rid in l.pending then l.pending[rid] else Reservation(0.0, 0.0);
            && pid in n.open && n.open[pid].unrealizedPnL == 0.0 && n.open[pid].lastMarkTs == ts
            && n.open[pid].capitalUsed == (if capital.Some? then capital.value else held.capitalUsed)
            && n.open[pid].riskInr == (if risk.Some? then risk.value else held.riskInr)
            && n.pending.Keys == l.pending.Keys - {rid} && n.open.Keys == l.open.Keys + {pid}
            && (forall k :: k in n.pending ==> n.pending[k] == l.pending[k])
            && (forall k :: k in l.open && k != pid ==> n.open[k] == l.open[k])
  {
    hide Sum;
  }

  /** A close lets only its position go, books the result, and ends or extends the streak of losses. */
  lemma CloseBooks(l: Ledger, pid: Id, ts: int, netPnl: real)
    ensures var n := Close(l, pid, ts, netPnl);
            var sameDay := l.currentDay == Some(ts / 86400000);
            && n.open.Keys == l.open.Keys - {pid} && (forall k :: k in n.open ==> n.open[k] == l.open[k])
            && n.pending == l.pending && n.realizedPnL == l.realizedPnL + netPnl
            && n.currentDay == Some(ts / 86400000)
            && n.dailyPnL == (if sameDay then l.dailyPnL else 0.0) + netPnl
            && n.tradesToday == (if sameDay then l.tradesToday else 0) + 1
            && (n.dailyLossHit <==> sameDay && l.dailyLossHit)
            && (n.dailyTradeLimitHit <==> sameDay && l.dailyTradeLimitHit)
            && n.consecutiveLosses == (if netPnl < 0.0 then l.consecutiveLosses + 1 else 0)
  {
    hide Sum;
  }

  ghost function SnapshotOf(l: Ledger, ts: Option<int>, event: Event): Snapshot {
    Snapshot(ts, event, Equity(l), l.peakEquity, Drawdown(l), DrawdownPct(l.peakEquity, Drawdown(l)),
             Free(l), Used(l), Reserved(l), OpenRisk(l), l.realizedPnL, Unrealized(l),
             |l.open|, |l.pending|, l.consecutiveLosses, l.tradesToday, l.dailyPnL,
             l.dailyLossHit, l.dailyTradeLimitHit)
  }

  /** Two snapshots of one time are merged; undated ones are always appended. */
  function AddSnapshot(curve: seq<Snapshot>, s: Snapshot): seq<Snapshot> {
    if curve != [] && curve[|curve| - 1].ts.Some? && curve[|curve| - 1].ts == s.ts
    then curve[..|curve| - 1] + [s]
    else curve + [s]
  }

  /** A snapshot adds up: capital free, used and reserved make the equity, which is capital and profits. */
  lemma SnapshotAddsUp(l: Ledger, ts: Option<int>, event: Event)
    ensures var s := SnapshotOf(l, ts, event);
            && s.ts == ts && s.event == event
            && s.used == Sum(l.open, (p: Position) => p.capitalUsed)
            && s.reserved == Sum(l.pending, (r: Reservation) => r.capitalUsed)
            && s.openRisk == Sum(l.open, (p: Position) => p.riskInr)
            && s.unrealized == Sum(l.open, (p: Position) => p.unrealizedPnL)
            && s.equity == l.initialCapital + l.realizedPnL + s.unrealized && s.realized == l.realizedPnL
            && s.free + s.used + s.reserved == s.equity && s.peak == l.peakEquity
            && s.drawdown == (if s.equity <= s.peak then s.peak - s.equity else 0.0)
            && (s.peak > 0.0 ==> s.drawdownPct == s.drawdown / s.peak * 100.0)
            && (s.peak <= 0.0 ==> s.drawdownPct == 0.0)
            && s.openPositions == |l.open| && s.reservations == |l.pending|
            && s.consecutiveLosses == l.consecutiveLosses && s.tradesToday == l.tradesToday
            && s.dailyPnL == l.dailyPnL
            && s.dailyLossHit == l.dailyLossHit && s.dailyTradeLimitHit == l.dailyTradeLimitHit
  {
    SumBy(l.open, CapitalOf, (p: Position) => p.capitalUsed);
    SumBy(l.open, RiskOf, (p: Position) => p.riskInr);
    SumBy(l.open, MarkOf, (p: Position) => p.unrealizedPnL);
    SumBy(l.pending, HeldBy, (r: Reservation) => r.capitalUsed);
    hide Sum;
  }

  lemma {:induction false} SumBy<T(!new)>(m: map<Id, T>, f: T -> real, g: T -> real)
    requires forall x :: f(x) == g(x)
    ensures Sum(m, f) == Sum(m, g)
    decreases |m|
  {
    if m != map[] {
      var k :| k in m;
      SumSplit(m, f, k);
      SumSplit(m, g, k);
      SumBy(m - {k}, f, g);
    }
  }

  /** The newest snapshot ends the curve; it replaces only one of the same time, and every other stays. */
  lemma CurveKeeps(curve: seq<Snapshot>, s: Snapshot)
    ensures var r := AddSnapshot(curve, s);
            && r != [] && r[|r| - 1] == s
            && if curve != [] && s.ts.Some? && curve[|curve| - 1].ts == s.ts
               then r[..|r| - 1] == curve[..|curve| - 1] else r[..|r| - 1] == curve
  {
  }

  // ----- The object -----

  class PortfolioState {
    const initialCapital: real
    var currentEquity: real
    var peakEquity: real
    var drawdown: real
    var freeCapital: real
    var usedCapital: real
    var reservedCapital: real
    var openRisk: real
    var realizedPnL: real
    var unrealizedPnL: real
    var consecutiveLosses: nat
    var tradesToday: nat
    var dailyPnL: real
    var dailyLossHit: bool
    var dailyTradeLimitHit: bool
    var currentDay: Option<int>
    var openPositions: map<Id, Position>
    var pendingReservations: map<Id, Reservation>
    var equitySnapshots: seq<Snapshot>

    ghost function View(): Ledger
      reads this
    {
      Ledger(initialCapital, realizedPnL, peakEquity, openPositions, pendingReservations,
             consecutiveLosses, tradesToday, dailyPnL, currentDay, dailyLossHit, dailyTradeLimitHit)
    }

    /** The stored totals are those of the ledger. */
    ghost predicate Valid()
      reads this
    {
      && usedCapital == Used(View()) && reservedCapital == Reserved(View())
      && openRisk == OpenRisk(View()) && unrealizedPnL == Unrealized(View())
      && currentEquity == Equity(View()) && freeCapital == Free(View())
      && drawdown == Drawdown(View()) && currentEquity <= peakEquity
    }

    /** The identity the ledger is built on, in the fields a report reads. */
    lemma Identity()
      requires Valid()
      ensures freeCapital + usedCapital + reservedCapital == currentEquity ==
              initialCapital + realizedPnL + unrealizedPnL
      ensures drawdown == peakEquity - currentEquity >= 0.0
    {
    }

    constructor (capital: real)
      ensures Valid() && View() == InitialLedger(capital) && equitySnapshots == []
    {
      initialCapital, currentEquity, peakEquity, freeCapital := capital, capital, capital, capital;
      drawdown, usedCapital, reservedCapital, openRisk := 0.0, 0.0, 0.0, 0.0;
      realizedPnL, unrealizedPnL, dailyPnL := 0.0, 0.0, 0.0;
      consecutiveLosses, tradesToday := 0, 0;
      dailyLossHit, dailyTradeLimitHit, currentDay := false, false, None;
      openPositions, pendingReservations, equitySnapshots := map[], map[], [];
    }

    method EnsureDay(ts: int)
      modifies this
      ensures View() == OnDay(old(View()), ts)
      ensures old(Valid()) ==> Valid()
      ensures equitySnapshots == old(equitySnapshots)
    {
      hide Sum;
      var nextDay := Some(Day(ts));
      if currentDay == nextDay {
        return;
      }
      currentDay := nextDay;
      tradesToday, dailyPnL := 0, 0.0;
      dailyLossHit, dailyTradeLimitHit := false, false;
    }

    /** The fold over the values of a map. */
    static method Total<T>(m: map<Id, T>, f: T -> real) returns (acc: real)
      ensures acc == Sum(m, f)
    {
      acc := 0.0;
      var rest := m;
      while rest != map[]
        invariant acc + Sum(rest, f) == Sum(m, f)
        decreases |rest|
      {
        var k :| k in rest.Keys;
        SumSplit(rest, f, k);
        acc := acc + f(rest[k]);
        rest := rest - {k};
      }
    }

    method Recalculate()
      modifies this
      ensures Valid() && View() == Recalculated(old(View()))
      ensures equitySnapshots == old(equitySnapshots)
    {
      ghost var l := View();
      var used := Total(openPositions, CapitalOf);
      var reserved := Total(pendingReservations, HeldBy);
      var risk := Total(openPositions, RiskOf);
      var unrealized := Total(openPositions, MarkOf);
      RecalculatedTotals(l);
      StoreTotals(used, reserved, risk, unrealized);
    }

    method StoreTotals(used: real, reserved: real, risk: real, unrealized: real)
      modifies this`usedCapital, this`reservedCapital, this`openRisk, this`unrealizedPnL
      modifies this`currentEquity, this`peakEquity, this`drawdown, this`freeCapital
      ensures usedCapital == used && reservedCapital == reserved && openRisk == risk && unrealizedPnL == unrealized
      ensures currentEquity == initialCapital + realizedPnL + unrealized
      ensures peakEquity == MaxReal(old(peakEquity), currentEquity)
      ensures drawdown == MaxReal(0.0, peakEquity - currentEquity)
      ensures freeCapital == currentEquity - used - reserved
    {
      hide Sum;
      usedCapital, reservedCapital, openRisk, unrealizedPnL := used, reserved, risk, unrealized;
      currentEquity := initialCapital + realizedPnL + unrealized;
      peakEquity := MaxReal(peakEquity, currentEquity);
      drawdown := MaxReal(0.0, peakEquity - currentEquity);
      freeCapital := currentEquity - used - reserved;
    }

    /** The stored fields as a snapshot. */
    method TakeSnapshot(ts: Option<int>, event: Event) returns (snapshot: Snapshot)
      requires Valid()
      ensures snapshot == SnapshotOf(View(), ts, event)
    {
      hide Sum;
      var drawdownPct := if peakEquity > 0.0 then drawdown / peakEquity * 100.0 else 0.0;
      snapshot := Snapshot(ts, event, currentEquity, peakEquity, drawdown, drawdownPct,
                           freeCapital, usedCapital, reservedCapital, openRisk, realizedPnL, unrealizedPnL,
                           |openPositions|, |pendingReservations|, consecutiveLosses, tradesToday, dailyPnL,
                           dailyLossHit, dailyTradeLimitHit);
    }

    method RecordSnapshot(ts: Option<int>, event: Event)
      modifies this
      ensures Valid() && View() == Recalculated(old(View()))
      ensures equitySnapshots == AddSnapshot(old(equitySnapshots), SnapshotOf(View(), ts, event))
    {
      Recalculate();
      var snapshot := TakeSnapshot(ts, event);
      Append(snapshot, ts);
    }

    method Append(snapshot: Snapshot, ts: Option<int>)
      requires snapshot.ts == ts
      modifies this`equitySnapshots
      ensures equitySnapshots == AddSnapshot(old(equitySnapshots), snapshot)
    {
      var last := |equitySnapshots| - 1;
      if last >= 0 && equitySnapshots[last].ts.Some? && ts.Some? && equitySnapshots[last].ts == ts {
        equitySnapshots := equitySnapshots[last := snapshot];
      } else {
        equitySnapshots := equitySnapshots + [snapshot];
      }
    }

    method ReservePosition(reservationId: Id, capital: real, risk: real)
      modifies this
      ensures Valid() && View() == Reserve(old(View()), reservationId, Reservation(capital, risk))
      ensures equitySnapshots == AddSnapshot(old(equitySnapshots), SnapshotOf(View(), None, OnReserve))
    {
      pendingReservations := pendingReservations[reservationId := Reservation(capital, risk)];
      RecordSnapshot(None, OnReserve);
    }

    method CancelReservation(reservationId: Id)
      requires Valid()
      modifies this
      ensures Valid() && View() == Cancel(old(View()), reservationId)
      ensures equitySnapshots == if reservationId in old(pendingReservations)
                                 then AddSnapshot(old(equitySnapshots), SnapshotOf(View(), None, OnCancel))
                                 else old(equitySnapshots)
    {
      if reservationId !in pendingReservations {
        return;
      }
      pendingReservations := pendingReservations - {reservationId};
      RecordSnapshot(None, OnCancel);
    }

    method ActivatePosition(reservationId: Id, positionId: Id, capital: Option<real>, risk: Option<real>,
                            ts: Option<int>)
      modifies this
      ensures Valid() && View() == Activate(old(View()), reservationId, positionId, capital, risk, ts)
      ensures equitySnapshots == AddSnapshot(old(equitySnapshots), SnapshotOf(View(), ts, OnActivate))
    {
      hide Sum, SnapshotOf;
      var held := if reservationId in pendingReservations
                  then pendingReservations[reservationId] else Reservation(0.0, 0.0);
      pendingReservations := pendingReservations - {reservationId};
      openPositions := openPositions[positionId := Position(
                                       if capital.Some? then capital.value else held.capitalUsed,
                                       if risk.Some? then risk.value else held.riskInr, 0.0, ts)];
      RecordSnapshot(ts, OnActivate);
    }

    method UpdateMarks(ts: int, openMarks: seq<(Id, real)>)
      modifies this
      ensures Valid() && View() == Mark(old(View()), ts, LastMarks(openMarks))
      ensures equitySnapshots == AddSnapshot(old(equitySnapshots), SnapshotOf(View(), Some(ts), OnMark))
    {
      hide Sum, Day;
      var byTrade: map<Id, real> := map[];
      var i := 0;
      while i < |openMarks|
        invariant 0 <= i <= |openMarks|
        invariant byTrade == LastMarks(openMarks[..i])
      {
        assert openMarks[..i + 1][..i] == openMarks[..i];
        byTrade := byTrade[openMarks[i].0 := openMarks[i].1];
        i := i + 1;
      }
      assert openMarks[..i] == openMarks;
      SetMarks(byTrade, ts);
      RecordSnapshot(Some(ts), OnMark);
    }

    /** The loop over the open positions. */
    method SetMarks(byTrade: map<Id, real>, ts: int)
      modifies this`openPositions
      ensures openPositions == Marked(old(openPositions), byTrade, ts)
    {
      var visit := openPositions.Keys;
      ghost var before := openPositions;
      while visit != {}
        invariant openPositions.Keys == before.Keys && visit <= before.Keys
        invariant forall k :: k in visit ==> openPositions[k] == before[k]
        invariant forall k :: k in before && k !in visit ==> openPositions[k] == Marked(before, byTrade, ts)[k]
        decreases visit
      {
        var k :| k in visit;
        openPositions := openPositions[k := openPositions[k].(
                                         unrealizedPnL := if k in byTrade then byTrade[k] else 0.0,
                                         lastMarkTs := Some(ts))];
        visit := visit - {k};
      }
      assert openPositions == Marked(before, byTrade, ts);
    }

    method ClosePosition(positionId: Id, ts: int, netPnl: real)
      modifies this
      ensures Valid() && View() == Close(old(View()), positionId, ts, netPnl)
      ensures equitySnapshots == AddSnapshot(old(equitySnapshots), SnapshotOf(View(), Some(ts), OnClose))
    {
      hide Sum, SnapshotOf;
      EnsureDay(ts);
      openPositions := openPositions - {positionId};
      realizedPnL := realizedPnL + netPnl;
      dailyPnL := dailyPnL + netPnl;
      tradesToday := tradesToday + 1;
      consecutiveLosses := if netPnl < 0.0 then consecutiveLosses + 1 else 0;
      RecordSnapshot(Some(ts), OnClose);
    }
  }

  /** A trade's mark is that of its last mention, and there is none exactly when no entry names it. */
  lemma {:induction false} LastMarkWins(marks: seq<(Id, real)>, k: Id)
    ensures k in LastMarks(marks) <==> exists i :: 0 <= i < |marks| && marks[i].0 == k
    ensures forall i :: 0 <= i < |marks| && marks[i].0 == k && (forall j :: i < j < |marks| ==> marks[j].0 != k) ==>
              k in LastMarks(marks) && LastMarks(marks)[k] == marks[i].1
  {
    if marks != [] {
      var init := marks[..|marks| - 1];
      LastMarkWins(init, k);
      assert forall i :: 0 <= i < |init| ==> init[i] == marks[i];
      if marks[|marks| - 1].0 == k {
        assert marks[|marks| - 1].0 == k;
      } else {
        forall i | 0 <= i < |marks| && marks[i].0 == k
          ensures i < |init| && init[i].0 == k
        {
        }
      }
    }
  }

  /** The mark each trade ends up with when a list names it more than once. */
  function LastMarks(marks: seq<(Id, real)>): map<Id, real> {
    if marks == [] then map[]
    else LastMarks(marks[..|marks| - 1])[marks[|marks| - 1].0 := marks[|marks| - 1].1]
  }
}

/**
 The backtest event loop over the risk governor.  Strategy, plan builder, dynamic exits, fill
 simulation and cost model are arbitrary functions of the bar and of what they are asked about.
 */
module Backtest {
  import opened Common
  import opened Portfolio
  import opened RiskGovernors
  import opened GovernorRuns

  datatype Side = Buy | Sell

  datatype Entry = Entry(rid: Id, signalIdx: nat, executeAtIdx: int, side: Side, qty: int, strategyId: int)

  datatype Fill = Fill(bar: int, qty: int, price: real)

  datatype PendingExit = PendingExit(executeAtIdx: int, basePx: real)

  datatype Trade = Trade(
    id: Id, side: Side, strategyId: int, entryIdx: int, entryPrice: real, initialQty: int, qty: int, lastLtp: real,
    pendingExit: Option<PendingExit>, exitFills: seq<Fill>,
    realizedGross: real, realizedCost: real, realizedNet: real)

  /** What a trade owes to the entry that opened it; no later bar changes it. */
  datatype Ticket = Ticket(id: Id, side: Side, strategyId: int, entryIdx: int, entryPrice: real, initialQty: int)

  /** How a due entry ended: opened as a trade, or its reservation dropped. */
  datatype Resolution = Resolution(entry: Entry, bar: int, opensTrade: bool)

  datatype EntryExec = NoCandle | Filled(price: real, qty: int, stopLoss: real)

  datatype Signal = Signal(
    side: Side, strategyId: int, confidence: real, request: Request,
    contractMissing: bool, candleMissing: bool, dataQualityBlocked: bool, liquidityBlocked: bool)

  datatype World = World(
    bars: nat, ts: int -> int, close: int -> real, warmup: int, latency: nat,
    allowedStrategies: seq<int>, confidenceMin: real, staleSignal: bool, cooldownCandles: int, margin: real,
    entryExec: (int, Entry) -> EntryExec,
    ltp: (int, Trade) -> Option<real>,
    exitTrigger: (int, Trade) -> Option<real>,
    exitExec: (int, Trade, real) -> (real, int),
    cost: (Ticket, real, int) -> real,
    signal: int -> Option<Signal>)

  datatype Admission =
    | AllowedStrategiesBlock | ConfidenceTooLow | CooldownBlock | StaleSignalBlock | MissingOptionContract
    | MissingCandle | DataQualityBlock | MissingLiquidity | Refused(reason: Reason) | AcceptedEntry

  datatype Report = Report(
    admitted: seq<Entry>, resolved: seq<Resolution>, dropped: seq<Entry>, openAtEnd: seq<Trade>, closed: seq<Trade>,
    openPositions: map<Id, Position>, pendingReservations: map<Id, Reservation>, equity: real)

  // ----- Pure helpers -----

  function Sign(side: Side): real {
    if side == Buy then 1.0 else -1.0
  }

  function FallbackPlan(side: Side, entryPrice: real, rrTarget: real, slPct: real): (real, real) {
    var risk := MaxReal(0.05, entryPrice * (slPct / 100.0));
    if side == Buy then (entryPrice - risk, entryPrice + rrTarget * risk)
    else (entryPrice + risk, entryPrice - rrTarget * risk)
  }

  /**
   Stop on the losing side at a distance of at least 0.05, target on the winning side at `rrTarget` times that distance.
   */
  lemma FallbackPlanBrackets(side: Side, entryPrice: real, rrTarget: real, slPct: real)
    ensures var (stop, target) := FallbackPlan(side, entryPrice, rrTarget, slPct);
            && Sign(side) * (entryPrice - stop) >= 0.05
            && Sign(side) * (entryPrice - stop) ==
               (if entryPrice * slPct / 100.0 >= 0.05 then entryPrice * slPct / 100.0 else 0.05)
            && (side == Buy <==> stop < entryPrice)
            && Sign(side) * (target - entryPrice) == rrTarget * (Sign(side) * (entryPrice - stop))
  {
  }

  function DetermineAdmissionReason(w: World, s: Signal, cooldownBlocked: bool, preview: Verdict): Admission {
    if w.allowedStrategies != [] && s.strategyId !in w.allowedStrategies then AllowedStrategiesBlock
    else if s.confidence < w.confidenceMin then ConfidenceTooLow
    else if cooldownBlocked then CooldownBlock
    else if w.staleSignal then StaleSignalBlock
    else if s.contractMissing then MissingOptionContract
    else if s.candleMissing then MissingCandle
    else if s.dataQualityBlocked then DataQualityBlock
    else if s.liquidityBlocked then MissingLiquidity
    else match preview case Rejected(r) => Refused(r) case Accepted(_) => AcceptedEntry
  }

  predicate CooldownBlocks(cooldownUntil: map<int, int>, s: Signal, index: int) {
    s.strategyId in cooldownUntil && cooldownUntil[s.strategyId] != 0 && cooldownUntil[s.strategyId] >= index
  }

  function Rids(es: seq<Entry>): seq<Id> {
    seq(|es|, i requires 0 <= i < |es| => es[i].rid)
  }

  function Tids(ts: seq<Trade>): seq<Id> {
    seq(|ts|, i requires 0 <= i < |ts| => ts[i].id)
  }

  function QtyOf(fills: seq<Fill>): int {
    if fills == [] then 0 else QtyOf(fills[..|fills| - 1]) + fills[|fills| - 1].qty
  }

  /** Gross profit of a list of exit fills against one entry price. */
  function GrossOf(fills: seq<Fill>, side: Side, entryPrice: real): real {
    if fills == [] then 0.0
    else
      var f := fills[|fills| - 1];
      GrossOf(fills[..|fills| - 1], side, entryPrice) + (f.price - entryPrice) * f.qty as real * Sign(side)
  }

  function NetOf(trades: seq<Trade>): real {
    if trades == [] then 0.0 else NetOf(trades[..|trades| - 1]) + trades[|trades| - 1].realizedNet
  }

  function EntriesOf(rs: seq<Resolution>): seq<Entry> {
    seq(|rs|, i requires 0 <= i < |rs| => rs[i].entry)
  }

  /** A due entry opens a trade exactly when its fill has a quantity and a price. */
  predicate Opens(exec: EntryExec) {
    exec.Filled? && exec.qty > 0 && exec.price > 0.0
  }

  function OpenedTrade(id: Id, index: int, e: Entry, exec: EntryExec): Trade
    requires exec.Filled?
  {
    Trade(id, e.side, e.strategyId, index, exec.price, exec.qty, exec.qty, exec.price, None, [], 0.0, 0.0, 0.0)
  }

  function EntryRisk(exec: EntryExec): real
    requires exec.Filled?
  {
    AbsReal(exec.price - exec.stopLoss) * exec.qty as real
  }

  /** Capital used; a zero margin multiplier reads as 1. */
  function EntryCapital(w: World, exec: EntryExec): real
    requires exec.Filled?
  {
    exec.price * exec.qty as real * if w.margin == 0.0 then 1.0 else w.margin
  }

  lemma OpenedTradeOk(id: Id, index: int, e: Entry, exec: EntryExec)
    requires Opens(exec)
    ensures OpenOk(OpenedTrade(id, index, e, exec)) && OpenedTrade(id, index, e, exec).id == id
  {
    assert QtyOf([]) == 0 && GrossOf([], e.side, exec.price) == 0.0;
  }

  /** Each due entry ended as its fill says. */
  ghost predicate ResolvedAsFilled(w: World, rs: seq<Resolution>) {
    forall i :: 0 <= i < |rs| ==> (rs[i].opensTrade <==> Opens(w.entryExec(rs[i].bar, rs[i].entry)))
  }

  function TicketOf(t: Trade): Ticket {
    Ticket(t.id, t.side, t.strategyId, t.entryIdx, t.entryPrice, t.initialQty)
  }

  function Tickets(ts: seq<Trade>): seq<Ticket> {
    seq(|ts|, i requires 0 <= i < |ts| => TicketOf(ts[i]))
  }

  /** The tickets of the due entries that were filled, numbered in order. */
  function OpenedTickets(w: World, rs: seq<Resolution>): seq<Ticket> {
    if rs == [] then []
    else
      var earlier, r := OpenedTickets(w, rs[..|rs| - 1]), rs[|rs| - 1];
      var exec := w.entryExec(r.bar, r.entry);
      if Opens(exec) then
        earlier + [Ticket(TradeId(|earlier| + 1), r.entry.side, r.entry.strategyId, r.bar, exec.price, exec.qty)]
      else earlier
  }

  // ----- One trade through a bar -----

  /** A trade after the bar's price and, when no exit is on its way, the exit decision. */
  function Decided(w: World, index: int, trade: Trade): Trade {
    var ltp := w.ltp(index, trade);
    var t := if ltp.Some? && ltp.value > 0.0 then trade.(lastLtp := ltp.value) else trade;
    var trigger := w.exitTrigger(index, t);
    if t.pendingExit.None? && trigger.Some?
    then t.(pendingExit := Some(PendingExit(index + w.latency, trigger.value)))
    else t
  }

  predicate ExitDue(t: Trade, index: int) {
    t.pendingExit.Some? && t.pendingExit.value.executeAtIdx <= index
  }

  /** A trade after its pending exit met the fill simulator. */
  function Exited(w: World, index: int, t: Trade): Trade
    requires t.pendingExit.Some?
  {
    var (exitPrice, execQty) := w.exitExec(index, t, t.pendingExit.value.basePx);
    var filledQty := MaxInt(0, MinInt(t.qty, execQty));
    if filledQty > 0
    then TakeFill(t, index, exitPrice, filledQty, w.cost(TicketOf(t), (t.entryPrice + exitPrice) / 2.0, filledQty))
    else t
  }

  /** What a bar makes of an open trade, and whether it is closed by it. */
  function ThroughBar(w: World, index: int, trade: Trade): (Trade, bool) {
    var t := Decided(w, index, trade);
    if !ExitDue(t, index) then (t, false)
    else
      var x := Exited(w, index, t);
      if x.qty <= 0 then (x, true) else (x.(pendingExit := None), false)
  }

  lemma DecidedKeepsAccounts(w: World, index: int, trade: Trade)
    ensures var t := Decided(w, index, trade);
            && t == trade.(lastLtp := t.lastLtp, pendingExit := t.pendingExit)
            && (TradeOk(t) <==> TradeOk(trade))
  {
  }

  lemma ForgetExit(t: Trade)
    ensures TradeOk(t.(pendingExit := None)) <==> TradeOk(t)
  {
  }

  lemma TakeFillAdds(t: Trade, bar: int, price: real, qty: int, cost: real)
    requires 1 <= qty <= t.qty
    ensures var x := TakeFill(t, bar, price, qty, cost);
            && OneMoreFill(t, x, bar) && x.qty >= 0
            && x.id == t.id && x.entryPrice == t.entryPrice && x.side == t.side && x.initialQty == t.initialQty
  {
  }

  lemma ExitedKeepsAccounts(w: World, index: int, t: Trade)
    requires OpenOk(t) && t.pendingExit.Some?
    ensures var x := Exited(w, index, t);
            && TradeOk(x) && x.qty >= 0
            && x.id == t.id && x.entryPrice == t.entryPrice && x.side == t.side && x.initialQty == t.initialQty
            && (x == t || OneMoreFill(t, x, index))
  {
    var (exitPrice, execQty) := w.exitExec(index, t, t.pendingExit.value.basePx);
    var filledQty := MaxInt(0, MinInt(t.qty, execQty));
    var cost := w.cost(TicketOf(t), (t.entryPrice + exitPrice) / 2.0, filledQty);
    hide TradeOk, QtyOf, GrossOf, OneMoreFill, TakeFill;
    if filledQty > 0 {
      TakeFillOk(t, index, exitPrice, filledQty, cost);
      TakeFillAdds(t, index, exitPrice, filledQty, cost);
    }
  }

  /** Through a bar a trade gains at most one exit fill of what was left; it closes exactly when nothing is left. */
  lemma ThroughBarKeepsAccounts(w: World, index: int, trade: Trade)
    requires OpenOk(trade)
    ensures var (t, closes) := ThroughBar(w, index, trade);
            && TradeOk(t) && (if closes then ClosedOk(t) else OpenOk(t))
            && t.id == trade.id && t.entryPrice == trade.entryPrice && t.side == trade.side
            && t.initialQty == trade.initialQty
            && (t.exitFills == trade.exitFills || OneMoreFill(trade, t, index))
            && (t.pendingExit.Some? && !closes ==> t.pendingExit.value.executeAtIdx > index)
  {
    hide TradeOk, Exited;
    var t := Decided(w, index, trade);
    DecidedKeepsAccounts(w, index, trade);
    if ExitDue(t, index) {
      ExitedKeepsAccounts(w, index, t);
      ForgetExit(Exited(w, index, t));
    }
  }

  /** What one unit gains between two prices. */
  function Gain(side: Side, entryPrice: real, price: real): real {
    if side == Buy then price - entryPrice else entryPrice - price
  }

  /** `after` is `before` with one more fill, its gain and its cost. */
  predicate Charged(w: World, before: Trade, after: Trade, f: Fill) {
    var gain := Gain(before.side, before.entryPrice, f.price) * f.qty as real;
    var cost := w.cost(TicketOf(before), (before.entryPrice + f.price) / 2.0, f.qty);
    && after.exitFills == before.exitFills + [f] && after.qty == before.qty - f.qty
    && after.realizedGross == before.realizedGross + gain
    && after.realizedCost == before.realizedCost + cost
    && after.realizedNet == before.realizedNet + gain - cost
    && TicketOf(after) == TicketOf(before) && after.lastLtp == before.lastLtp
  }

  lemma FillCharges(w: World, t: Trade, bar: int, price: real, qty: int)
    ensures Charged(w, t, TakeFill(t, bar, price, qty, w.cost(TicketOf(t), (t.entryPrice + price) / 2.0, qty)),
                    Fill(bar, qty, price))
  {
    var gain := (price - t.entryPrice) * qty as real;
    assert gain * 1.0 == gain && gain * -1.0 == (t.entryPrice - price) * qty as real;
  }

  /**
   What a bar does to an open trade: a positive price is noted; unless an exit is on its way, the trigger may put one
   `latency` bars ahead at its price; when an exit is due, as much of the trade as is offered is sold at the offered
   price, at the cost of that quantity halfway between entry and exit, and the trade is closed exactly when nothing is
   left.
   */
  lemma BarInNumbers(w: World, index: int, trade: Trade)
    requires trade.qty > 0
    ensures var (after, closes) := ThroughBar(w, index, trade);
            var ltp := w.ltp(index, trade);
            var noted := trade.(lastLtp := if ltp.Some? && ltp.value > 0.0 then ltp.value else trade.lastLtp);
            var trigger := w.exitTrigger(index, noted);
            var exit := if trade.pendingExit.Some? then trade.pendingExit
                        else if trigger.Some? then Some(PendingExit(index + w.latency, trigger.value))
                        else None;
            var seen := noted.(pendingExit := exit);
            if exit.None? || exit.value.executeAtIdx > index then after == seen && !closes
            else
              var (price, offered) := w.exitExec(index, seen, exit.value.basePx);
              if offered <= 0 then after == noted.(pendingExit := None) && !closes
              else
                && Charged(w, noted, after, Fill(index, if offered <= trade.qty then offered else trade.qty, price))
                && (closes <==> offered >= trade.qty) && (!closes ==> after.pendingExit == None)
  {
    var t := Decided(w, index, trade);
    if ExitDue(t, index) {
      var (price, offered) := w.exitExec(index, t, t.pendingExit.value.basePx);
      FillCharges(w, t, index, price, MaxInt(0, MinInt(t.qty, offered)));
      hide TakeFill;
    }
  }

  /** The result of a trade, fill by fill: what each gained less what it cost. */
  function FillsNet(w: World, ticket: Ticket, fills: seq<Fill>): real {
    if fills == [] then 0.0
    else
      var f := fills[|fills| - 1];
      FillsNet(w, ticket, fills[..|fills| - 1])
      + Gain(ticket.side, ticket.entryPrice, f.price) * f.qty as real
      - w.cost(ticket, (ticket.entryPrice + f.price) / 2.0, f.qty)
  }

  /** The booked result of a trade is that of its fills. */
  predicate NetIsFills(w: World, t: Trade) {
    t.realizedNet == FillsNet(w, TicketOf(t), t.exitFills)
  }

  lemma ChargedKeepsNet(w: World, before: Trade, after: Trade, f: Fill)
    requires NetIsFills(w, before) && Charged(w, before, after, f)
    ensures NetIsFills(w, after)
  {
    assert (before.exitFills + [f])[..|before.exitFills|] == before.exitFills;
  }

  // ----- Invariants -----

  /** Fills and remaining quantity make up the entry, and the money fields are those of the fills. */
  ghost predicate TradeOk(t: Trade) {
    && t.initialQty == t.qty + QtyOf(t.exitFills)
    && t.realizedGross == GrossOf(t.exitFills, t.side, t.entryPrice)
    && t.realizedNet == t.realizedGross - t.realizedCost
    && t.entryPrice > 0.0
  }

  ghost predicate OpenOk(t: Trade) {
    TradeOk(t) && t.qty > 0
  }

  ghost predicate ClosedOk(t: Trade) {
    TradeOk(t) && t.qty == 0
  }

  ghost predicate EntriesSorted(es: seq<Entry>, latency: nat) {
    && (forall i, j :: 0 <= i < j < |es| ==> es[i].signalIdx < es[j].signalIdx)
    && (forall i :: 0 <= i < |es| ==>
                      && es[i].rid.ReservationId? && es[i].rid.bar == es[i].signalIdx
                      && es[i].executeAtIdx == es[i].signalIdx + latency)
  }

  ghost predicate TradesSorted(ts: seq<Trade>, counter: nat) {
    && (forall i, j :: 0 <= i < j < |ts| ==> ts[i].id.TradeId? && ts[j].id.TradeId? && ts[i].id.n < ts[j].id.n)
    && (forall i :: 0 <= i < |ts| ==> ts[i].id.TradeId? && ts[i].id.n <= counter && OpenOk(ts[i]))
  }

  /** Reservations are exactly the pending entries. */
  ghost predicate EntriesAgree(l: Ledger, es: seq<Entry>) {
    forall id :: id in l.pending <==> id in Rids(es)
  }

  /** Positions are exactly the open trades. */
  ghost predicate TradesAgree(l: Ledger, ts: seq<Trade>) {
    forall id :: id in l.open <==> id in Tids(ts)
  }

  function Wait(latency: nat): nat {
    MaxInt(1, latency)
  }

  /** Signalled before `hi`, and not due before `lo`. */
  ghost predicate Timed(es: seq<Entry>, latency: nat, lo: int, hi: int) {
    forall i :: 0 <= i < |es| ==> es[i].signalIdx < hi && es[i].signalIdx + Wait(latency) >= lo
  }

  ghost predicate ResolvedOnTime(rs: seq<Resolution>, latency: nat) {
    forall i :: 0 <= i < |rs| ==> rs[i].bar == rs[i].entry.signalIdx + Wait(latency)
  }

  ghost predicate AllClosedOk(ts: seq<Trade>) {
    forall i :: 0 <= i < |ts| ==> ClosedOk(ts[i])
  }

  ghost predicate AllOpenOk(ts: seq<Trade>) {
    forall i :: 0 <= i < |ts| ==> OpenOk(ts[i])
  }

  ghost predicate EntriesInv(
      l: Ledger, pending: seq<Entry>, admitted: seq<Entry>, resolved: seq<Resolution>, latency: nat,
      lo: int, hi: int, done: int) {
    && EntriesAgree(l, pending)
    && EntriesSorted(pending, latency) && Timed(pending, latency, lo, hi)
    && admitted == EntriesOf(resolved) + pending
    && EntriesSorted(admitted, latency)
    && (forall i :: 0 <= i < |admitted| ==> admitted[i].signalIdx < hi)
    && ResolvedOnTime(resolved, latency)
    && (forall i :: 0 <= i < |resolved| ==> resolved[i].bar < done)
  }

  // ----- Protocol runs, extended at the end -----

  /** What an operation admits: the reservation and the quantity the governor accepted for it. */
  ghost function Granted(cfg: Config, l: Ledger, op: Op): seq<(Id, int)> {
    if op.Admit? then
      var v := Decide(cfg, Observed(cfg, l, op.ts), op.ts, op.req);
      if v.Accepted? then [(op.rid, v.sizing.qty)] else []
    else []
  }

  ghost function Grants(cfg: Config, l: Ledger, ops: seq<Op>): seq<(Id, int)>
    decreases ops
  {
    if ops == [] then [] else Granted(cfg, l, ops[0]) + Grants(cfg, Apply(cfg, l, ops[0]), ops[1..])
  }

  function GrantsOf(es: seq<Entry>): seq<(Id, int)> {
    seq(|es|, i requires 0 <= i < |es| => (es[i].rid, es[i].qty))
  }

  lemma {:induction false} RunOpsSnoc(cfg: Config, l: Ledger, ops: seq<Op>, op: Op)
    requires LegalRun(cfg, l, ops) && Legal(RunOps(cfg, l, ops), op)
    ensures LegalRun(cfg, l, ops + [op])
    ensures RunOps(cfg, l, ops + [op]) == Apply(cfg, RunOps(cfg, l, ops), op)
    ensures !op.Admit? ==> Grants(cfg, l, ops + [op]) == Grants(cfg, l, ops)
    ensures Grants(cfg, l, ops + [op]) == Grants(cfg, l, ops) + Granted(cfg, RunOps(cfg, l, ops), op)
    decreases ops
  {
    hide Apply, Granted, Legal;
    if ops == [] {
      assert ops + [op] == [op] && [op][1..] == [];
      assert Grants(cfg, Apply(cfg, l, op), []) == [];
    } else {
      assert (ops + [op])[0] == ops[0] && (ops + [op])[1..] == ops[1..] + [op];
      RunOpsSnoc(cfg, Apply(cfg, l, ops[0]), ops[1..], op);
    }
    NoGrant(cfg, RunOps(cfg, l, ops), op);
  }

  lemma GrantJoins(cfg: Config, l: Ledger, admitted: seq<Entry>, e: Entry, ts: int, req: Request)
    requires Observed(cfg, l, ts) == l && Decide(cfg, l, ts, req).Accepted?
    requires e.qty == Decide(cfg, l, ts, req).sizing.qty
    ensures GrantsOf(admitted) + Granted(cfg, l, Admit(e.rid, ts, req)) == GrantsOf(admitted + [e])
    ensures Apply(cfg, l, Admit(e.rid, ts, req)) == Reserve(l, e.rid, Held(Decide(cfg, l, ts, req).sizing))
  {
    hide Decide, Observed, Reserve;
  }

  lemma NoGrant(cfg: Config, l: Ledger, op: Op)
    ensures !op.Admit? ==> Granted(cfg, l, op) == []
  {
  }

  // ----- Small sequence facts -----

  lemma DueIsPrefix(es: seq<Entry>, latency: nat, p: nat, i: nat, index: int)
    requires EntriesSorted(es, latency) && p <= i < |es| && es[i].executeAtIdx <= index
    requires forall j :: p <= j < i ==> es[j].executeAtIdx > index
    ensures p == i
  {
    assert es[p].signalIdx < es[i].signalIdx || p == i;
  }

  lemma StillWaiting(es: seq<Entry>, latency: nat, index: int)
    requires EntriesSorted(es, latency) && Timed(es, latency, index, index)
    requires forall i :: 0 <= i < |es| ==> es[i].executeAtIdx > index
    ensures Timed(es, latency, index + 1, index)
  {
  }

  lemma DropFirstEntry(l: Ledger, es: seq<Entry>, latency: nat)
    requires es != [] && EntriesSorted(es, latency) && EntriesAgree(l, es)
    ensures es[0].rid in l.pending
    ensures forall id :: id in Rids(es[1..]) <==> id in l.pending && id != es[0].rid
  {
    assert Rids(es)[0] == es[0].rid;
    assert Rids(es) == [es[0].rid] + Rids(es[1..]);
    assert forall i :: 0 < i < |es| ==> es[i].rid != es[0].rid;
  }

  lemma AppendEntry(es: seq<Entry>, e: Entry)
    ensures forall id :: id in Rids(es + [e]) <==> id in Rids(es) || id == e.rid
  {
    assert Rids(es + [e]) == Rids(es) + [e.rid];
  }

  lemma AppendTrade(a: seq<Trade>, t: Trade, b: seq<Trade>)
    ensures forall id :: id in Tids(a + [t] + b) <==> id in Tids(a + b) || id == t.id
  {
    assert Tids(a + [t] + b) == Tids(a) + [t.id] + Tids(b);
    assert Tids(a + b) == Tids(a) + Tids(b);
  }

  lemma OthersKeepIds(a: seq<Trade>, t: Trade, b: seq<Trade>, counter: nat)
    requires TradesSorted(a + [t] + b, counter)
    ensures t.id !in Tids(a + b)
    ensures TradesSorted(a + b, counter)
  {
    var all, rest := a + [t] + b, a + b;
    assert all[|a|] == t;
    assert forall i :: 0 <= i < |rest| ==> rest[i] == all[if i < |a| then i else i + 1];
  }

  lemma SortedAreOpen(ts: seq<Trade>, counter: nat)
    requires TradesSorted(ts, counter)
    ensures AllOpenOk(ts)
  {
  }

  lemma TradeOpened(l: Ledger, ts: seq<Trade>, counter: nat, t: Trade, rid: Id, capital: real, risk: real, time: int)
    requires TradesAgree(l, ts) && TradesSorted(ts, counter)
    requires t.id == TradeId(counter + 1) && OpenOk(t)
    ensures t.id !in l.open
    ensures TradesAgree(Portfolio.Activate(l, rid, t.id, Some(capital), Some(risk), Some(time)), ts + [t])
    ensures TradesSorted(ts + [t], counter + 1)
  {
    assert forall i :: 0 <= i < |ts| ==> Tids(ts)[i] != t.id;
    assert Tids(ts + [t]) == Tids(ts) + [t.id];
  }

  /** The first pending entry leaves: what is reserved afterwards are the remaining ones. */
  lemma EntryLeaves(l: Ledger, l': Ledger, es: seq<Entry>, latency: nat)
    requires es != [] && EntriesSorted(es, latency) && EntriesAgree(l, es)
    requires l'.pending == l.pending - {es[0].rid}
    ensures EntriesAgree(l', es[1..]) && EntriesSorted(es[1..], latency)
  {
    DropFirstEntry(l, es, latency);
  }

  lemma ResolvedSnoc(rs: seq<Resolution>, r: Resolution, es: seq<Entry>, latency: nat)
    requires es != [] && es[0] == r.entry
    requires ResolvedOnTime(rs, latency) && r.bar == r.entry.signalIdx + Wait(latency)
    ensures EntriesOf(rs + [r]) + es[1..] == EntriesOf(rs) + es
    ensures ResolvedOnTime(rs + [r], latency)
  {
    assert EntriesOf(rs + [r]) == EntriesOf(rs) + [r.entry];
    assert [es[0]] + es[1..] == es;
  }

  lemma EntryJoins(
      l: Ledger, l': Ledger, pending: seq<Entry>, admitted: seq<Entry>, resolved: seq<Resolution>, latency: nat,
      index: nat, e: Entry, r: Reservation)
    requires EntriesInv(l, pending, admitted, resolved, latency, index + 1, index, index + 1)
    requires l'.pending == l.pending[e.rid := r]
    requires e.rid.ReservationId? && e.rid.bar == e.signalIdx == index && e.executeAtIdx == index + latency
    ensures EntriesInv(l', pending + [e], admitted + [e], resolved, latency, index + 1, index + 1, index + 1)
  {
    SortedAppend(pending, e, latency);
    SortedAppend(admitted, e, latency);
    EntryReserved(l, l', pending, e, r);
    assert EntriesOf(resolved) + (pending + [e]) == EntriesOf(resolved) + pending + [e];
  }

  // ----- One exit fill -----

  function TakeFill(t: Trade, bar: int, price: real, qty: int, cost: real): Trade {
    var gross := (price - t.entryPrice) * qty as real * Sign(t.side);
    t.(qty := t.qty - qty, exitFills := t.exitFills + [Fill(bar, qty, price)],
       realizedGross := t.realizedGross + gross, realizedCost := t.realizedCost + cost,
       realizedNet := t.realizedNet + (gross - cost))
  }

  lemma TakeFillOk(t: Trade, bar: int, price: real, qty: int, cost: real)
    requires TradeOk(t)
    ensures TradeOk(TakeFill(t, bar, price, qty, cost))
  {
    var fills := t.exitFills + [Fill(bar, qty, price)];
    assert fills[..|fills| - 1] == t.exitFills;
  }

  lemma TakeAllCloses(t: Trade, bar: int, price: real, cost: real)
    requires OpenOk(t)
    ensures ClosedOk(TakeFill(t, bar, price, t.qty, cost)) && TakeFill(t, bar, price, t.qty, cost).id == t.id
  {
    TakeFillOk(t, bar, price, t.qty, cost);
  }

  /** One fill more, of at least one unit and no more than was left. */
  ghost predicate OneMoreFill(before: Trade, after: Trade, bar: int) {
    var n := |before.exitFills|;
    && |after.exitFills| == n + 1 && after.exitFills[..n] == before.exitFills
    && after.exitFills[n].bar == bar && 1 <= after.exitFills[n].qty <= before.qty
    && after.qty == before.qty - after.exitFills[n].qty
  }

  lemma NetSnoc(ts: seq<Trade>, t: Trade)
    ensures NetOf(ts + [t]) == NetOf(ts) + t.realizedNet
  {
    assert (ts + [t])[..|ts|] == ts;
  }

  lemma MemberOfMiddle(l: Ledger, a: seq<Trade>, t: Trade, b: seq<Trade>, counter: nat)
    requires TradesAgree(l, a + [t] + b) && TradesSorted(a + [t] + b, counter)
    ensures t.id in l.open && OpenOk(t)
    ensures forall l': Ledger :: l'.open == l.open - {t.id} ==> TradesAgree(l', a + b)
    ensures TradesSorted(a + b, counter)
  {
    AppendTrade(a, t, b);
    OthersKeepIds(a, t, b, counter);
    assert (a + [t] + b)[|a|] == t;
  }

  lemma ReplaceMiddle(l: Ledger, a: seq<Trade>, t: Trade, t': Trade, b: seq<Trade>, counter: nat)
    requires TradesAgree(l, a + [t] + b) && TradesSorted(a + [t] + b, counter)
    requires t'.id == t.id && OpenOk(t')
    ensures TradesAgree(l, a + [t'] + b) && TradesSorted(a + [t'] + b, counter)
  {
    var x, y := a + [t] + b, a + [t'] + b;
    assert forall i :: 0 <= i < |y| ==> y[i].id == x[i].id && (i != |a| ==> y[i] == x[i]);
    assert Tids(x) == Tids(y);
  }

  // ----- Marks -----

  function OpenPnlOf(t: Trade): real {
    (t.lastLtp - t.entryPrice) * t.qty as real * Sign(t.side)
  }

  /** Unrealized profit of the remaining quantities at the last seen prices. */
  function OpenPnl(ts: seq<Trade>): real {
    if ts == [] then 0.0 else OpenPnl(ts[..|ts| - 1]) + OpenPnlOf(ts[|ts| - 1])
  }

  function MarksOf(ts: seq<Trade>): seq<(Id, real)> {
    seq(|ts|, i requires 0 <= i < |ts| => (ts[i].id, OpenPnlOf(ts[i])))
  }

  lemma {:induction false} LastMarksOf(ts: seq<Trade>, counter: nat)
    requires TradesSorted(ts, counter)
    ensures var m := LastMarks(MarksOf(ts));
            forall i :: 0 <= i < |ts| ==> ts[i].id in m && m[ts[i].id] == OpenPnlOf(ts[i])
  {
    if ts != [] {
      var init := ts[..|ts| - 1];
      assert MarksOf(ts)[..|ts| - 1] == MarksOf(init);
      assert forall i :: 0 <= i < |init| ==> init[i] == ts[i];
      LastMarksOf(init, counter);
    }
  }

  /** Each of the trades has a position, marked at its open profit. */
  ghost predicate MarkedAs(m: map<Id, Position>, ts: seq<Trade>) {
    forall i :: 0 <= i < |ts| ==> ts[i].id in m && m[ts[i].id].unrealizedPnL == OpenPnlOf(ts[i])
  }

  lemma WithoutLast(m: map<Id, Position>, ts: seq<Trade>, counter: nat)
    requires ts != [] && TradesSorted(ts, counter) && MarkedAs(m, ts)
    requires forall id :: id in m <==> id in Tids(ts)
    ensures var init, last := ts[..|ts| - 1], ts[|ts| - 1];
            && last.id in m && TradesSorted(init, counter) && MarkedAs(m - {last.id}, init)
            && forall id :: id in m - {last.id} <==> id in Tids(init)
  {
    hide OpenOk, OpenPnlOf;
    var init, last := ts[..|ts| - 1], ts[|ts| - 1];
    assert Tids(ts) == Tids(init) + [last.id];
    assert forall i :: 0 <= i < |init| ==> init[i] == ts[i] && init[i].id != last.id;
    assert forall i :: 0 <= i < |init| ==> Tids(init)[i] == init[i].id;
    assert last.id !in Tids(init);
  }

  lemma {:induction false} SumOverTrades(m: map<Id, Position>, ts: seq<Trade>, counter: nat)
    requires TradesSorted(ts, counter) && MarkedAs(m, ts)
    requires forall id :: id in m <==> id in Tids(ts)
    ensures Sum(m, MarkOf) == OpenPnl(ts)
  {
    if ts == [] {
      assert m == map[];
    } else {
      hide TradesSorted, OpenPnlOf, Tids;
      var init, last := ts[..|ts| - 1], ts[|ts| - 1];
      WithoutLast(m, ts, counter);
      SumSplit(m, MarkOf, last.id);
      SumOverTrades(m - {last.id}, init, counter);
    }
  }

  lemma MarkedTotal(open: map<Id, Position>, ts: seq<Trade>, counter: nat, time: int)
    requires TradesSorted(ts, counter) && forall id :: id in open <==> id in Tids(ts)
    ensures Sum(Marked(open, LastMarks(MarksOf(ts)), time), MarkOf) == OpenPnl(ts)
  {
    LastMarksOf(ts, counter);
    var m := Marked(open, LastMarks(MarksOf(ts)), time);
    forall i | 0 <= i < |ts|
      ensures ts[i].id in m && m[ts[i].id].unrealizedPnL == OpenPnlOf(ts[i])
    {
      assert Tids(ts)[i] == ts[i].id;
      assert ts[i].id in Tids(ts);
    }
    SumOverTrades(m, ts, counter);
  }

  /** Marking the open trades at their last prices changes the unrealized profit only. */
  lemma MarkedLedger(l: Ledger, ts: seq<Trade>, counter: nat, time: int)
    requires TradesAgree(l, ts) && TradesSorted(ts, counter)
    ensures var n := Mark(l, time, LastMarks(MarksOf(ts)));
            && n.pending == l.pending && n.realizedPnL == l.realizedPnL && n.initialCapital == l.initialCapital
            && TradesAgree(n, ts) && Equity(n) == l.initialCapital + l.realizedPnL + OpenPnl(ts)
  {
    MarkedTotal(l.open, ts, counter, time);
    hide LastMarks, MarksOf, OpenPnl, TradesSorted;
  }

  lemma SortedAppend(es: seq<Entry>, e: Entry, latency: nat)
    requires EntriesSorted(es, latency) && forall i :: 0 <= i < |es| ==> es[i].signalIdx < e.signalIdx
    requires e.rid.ReservationId? && e.rid.bar == e.signalIdx && e.executeAtIdx == e.signalIdx + latency
    ensures EntriesSorted(es + [e], latency)
  {
  }

  lemma FreshEntry(l: Ledger, es: seq<Entry>, e: Entry, latency: nat)
    requires EntriesAgree(l, es) && EntriesSorted(es, latency)
    requires forall i :: 0 <= i < |es| ==> es[i].signalIdx < e.signalIdx
    requires e.rid.ReservationId? && e.rid.bar == e.signalIdx
    ensures e.rid !in l.pending
  {
    assert forall i :: 0 <= i < |es| ==> Rids(es)[i] == es[i].rid && es[i].rid.bar != e.signalIdx;
  }

  lemma NewEntryIsFresh(
      l: Ledger, pending: seq<Entry>, admitted: seq<Entry>, resolved: seq<Resolution>, latency: nat,
      index: int, e: Entry)
    requires EntriesInv(l, pending, admitted, resolved, latency, index + 1, index, index + 1)
    requires e.rid.ReservationId? && e.rid.bar == e.signalIdx == index
    ensures e.rid !in l.pending
  {
    FreshEntry(l, pending, e, latency);
  }

  lemma EntryReserved(l: Ledger, l': Ledger, es: seq<Entry>, e: Entry, r: Reservation)
    requires EntriesAgree(l, es) && l'.pending == l.pending[e.rid := r]
    ensures EntriesAgree(l', es + [e])
  {
    AppendEntry(es, e);
  }

  lemma NothingYet(w: World, l: Ledger)
    requires l.open == map[] && l.pending == map[] && l.realizedPnL == 0.0
    ensures TradesAgree(l, []) && TradesSorted([], 0) && AllClosedOk([]) && l.realizedPnL == NetOf([])
    ensures EntriesInv(l, [], [], [], w.latency, 0, 0, 0)
    ensures ResolvedAsFilled(w, [])
  {
    assert Rids([]) == [] && Tids([]) == [];
    assert EntriesOf([]) + [] == [];
  }

  lemma FirstIsReserved(
      l: Ledger, pending: seq<Entry>, admitted: seq<Entry>, resolved: seq<Resolution>, latency: nat, index: int)
    requires EntriesInv(l, pending, admitted, resolved, latency, index, index, index + 1) && pending != []
    ensures pending[0].rid in l.pending
  {
    DropFirstEntry(l, pending, latency);
  }

  lemma BarBegins(
      l: Ledger, pending: seq<Entry>, admitted: seq<Entry>, resolved: seq<Resolution>, latency: nat, index: int)
    requires EntriesInv(l, pending, admitted, resolved, latency, index, index, index)
    ensures EntriesInv(l, pending, admitted, resolved, latency, index, index, index + 1)
    ensures EntriesSorted(pending, latency)
  {
  }

  lemma RestWait(
      l: Ledger, pending: seq<Entry>, admitted: seq<Entry>, resolved: seq<Resolution>, latency: nat, index: int)
    requires EntriesInv(l, pending, admitted, resolved, latency, index, index, index + 1)
    requires forall i :: 0 <= i < |pending| ==> pending[i].executeAtIdx > index
    ensures EntriesInv(l, pending, admitted, resolved, latency, index + 1, index, index + 1)
  {
    StillWaiting(pending, latency, index);
  }

  /** The first pending entry is resolved on its own bar. */
  lemma EntryResolved(
      l: Ledger, l': Ledger, pending: seq<Entry>, admitted: seq<Entry>, resolved: seq<Resolution>, latency: nat,
      index: int, opensTrade: bool)
    requires EntriesInv(l, pending, admitted, resolved, latency, index, index, index + 1)
    requires pending != [] && pending[0].executeAtIdx <= index
    requires l'.pending == l.pending - {pending[0].rid}
    ensures EntriesInv(l', pending[1..], admitted, resolved + [Resolution(pending[0], index, opensTrade)],
                       latency, index, index, index + 1)
  {
    EntryLeaves(l, l', pending, latency);
    ResolvedSnoc(resolved, Resolution(pending[0], index, opensTrade), pending, latency);
  }

  // ----- What the loop computes, on values -----

  /** Everything the loop carries from bar to bar. */
  datatype Sim = Sim(
    ledger: Ledger, pending: seq<Entry>, open: seq<Trade>, closed: seq<Trade>,
    cooldownUntil: map<int, int>, counter: nat, admitted: seq<Entry>, resolved: seq<Resolution>)

  ghost function StartSim(cfg: Config): Sim {
    Sim(InitialLedger(cfg.initialCapital), [], [], [], map[], 0, [], [])
  }

  /** The first pending entry becomes a trade or loses its reservation. */
  ghost function FirstResolved(w: World, s: Sim, index: int): Sim
    requires s.pending != []
  {
    var e := s.pending[0];
    var exec := w.entryExec(index, e);
    var rest := s.(pending := s.pending[1..], resolved := s.resolved + [Resolution(e, index, Opens(exec))]);
    if Opens(exec) then
      var id := TradeId(s.counter + 1);
      var capital, risk := EntryCapital(w, exec), EntryRisk(exec);
      rest.(ledger := Portfolio.Activate(s.ledger, e.rid, id, Some(capital), Some(risk), Some(w.ts(index))),
            open := s.open + [OpenedTrade(id, index, e, exec)], counter := s.counter + 1)
    else rest.(ledger := Portfolio.Cancel(s.ledger, e.rid))
  }

  ghost function DueResolved(w: World, s: Sim, index: int): Sim
    decreases |s.pending|
  {
    if s.pending == [] || s.pending[0].executeAtIdx > index then s
    else DueResolved(w, FirstResolved(w, s, index), index)
  }

  function CooldownAfter(w: World, until: map<int, int>, index: int, t: Trade): map<int, int> {
    if w.cooldownCandles > 0 && t.realizedNet < 0.0 then until[t.strategyId := index + w.cooldownCandles] else until
  }

  /** A trade whose last unit is sold: its whole net result is booked at once. */
  ghost function Finished(w: World, s: Sim, index: int, t: Trade): Sim {
    s.(ledger := Portfolio.Close(s.ledger, t.id, w.ts(index), t.realizedNet), closed := s.closed + [t])
  }

  /** The trades of `rest` through the bar, in order; `kept` are those that stay open. */
  ghost function Managed(w: World, s: Sim, index: int, kept: seq<Trade>, rest: seq<Trade>): Sim
    decreases |rest|
  {
    if rest == [] then s.(open := kept)
    else
      var (t, closes) := ThroughBar(w, index, rest[0]);
      if closes then
        var next := Finished(w, s, index, t).(cooldownUntil := CooldownAfter(w, s.cooldownUntil, index, t));
        Managed(w, next, index, kept, rest[1..])
      else Managed(w, s, index, kept + [t], rest[1..])
  }

  lemma ManagedStep(w: World, s: Sim, index: int, kept: seq<Trade>, rest: seq<Trade>)
    requires rest != []
    ensures var (t, closes) := ThroughBar(w, index, rest[0]);
            var next := Finished(w, s, index, t).(cooldownUntil := CooldownAfter(w, s.cooldownUntil, index, t));
            Managed(w, s, index, kept, rest) ==
            if closes then Managed(w, next, index, kept, rest[1..]) else Managed(w, s, index, kept + [t], rest[1..])
  {
  }

  lemma NothingManaged(w: World, s: Sim, index: int, kept: seq<Trade>)
    ensures Managed(w, s, index, kept, []) == s.(open := kept)
  {
  }

  ghost function MarkedSim(w: World, s: Sim, index: int): Sim {
    s.(ledger := Mark(s.ledger, w.ts(index), LastMarks(MarksOf(s.open))))
  }

  /** The governor's verdict on a signal, looked up on an observed ledger. */
  ghost function VerdictOn(w: World, cfg: Config, o: Ledger, sig: Signal, index: int): Verdict {
    if sig.candleMissing then Rejected(MissingTradedCandle) else Decide(cfg, o, w.ts(index), sig.request)
  }

  /** The bar's signal passes every gate. */
  ghost predicate Admits(w: World, cfg: Config, s: Sim, sig: Signal, index: int) {
    var v := VerdictOn(w, cfg, Observed(cfg, s.ledger, w.ts(index)), sig, index);
    DetermineAdmissionReason(w, sig, CooldownBlocks(s.cooldownUntil, sig, index), v) == AcceptedEntry
  }

  function EntryFor(w: World, sig: Signal, index: nat, slot: nat, qty: int): Entry {
    Entry(ReservationId(index, slot), index, index + w.latency, sig.side, qty, sig.strategyId)
  }

  ghost function Signalled(w: World, cfg: Config, s: Sim, index: nat): Sim {
    match w.signal(index)
    case None => s
    case Some(sig) =>
      var o := Observed(cfg, s.ledger, w.ts(index));
      if !Admits(w, cfg, s, sig, index) then s.(ledger := o)
      else
        var sizing := VerdictOn(w, cfg, o, sig, index).sizing;
        var e := EntryFor(w, sig, index, |s.pending|, sizing.qty);
        s.(ledger := Reserve(o, e.rid, Held(sizing)), pending := s.pending + [e], admitted := s.admitted + [e])
  }

  /** One bar: due entries, then open trades, then marks, then the bar's signal. */
  ghost function BarSim(w: World, cfg: Config, s: Sim, index: nat): Sim {
    var d := DueResolved(w, s, index);
    Signalled(w, cfg, MarkedSim(w, Managed(w, d, index, [], d.open), index), index)
  }

  /** The first `n` bars; those of the warm-up only feed the strategy. */
  ghost function BarsSim(w: World, cfg: Config, n: nat): Sim {
    if n == 0 then StartSim(cfg)
    else if n - 1 < w.warmup then BarsSim(w, cfg, n - 1)
    else BarSim(w, cfg, BarsSim(w, cfg, n - 1), n - 1)
  }

  ghost function Unreserved(l: Ledger, es: seq<Entry>): Ledger
    decreases |es|
  {
    if es == [] then l else Unreserved(Portfolio.Cancel(l, es[0].rid), es[1..])
  }

  function SoldOut(w: World, t: Trade, price: real): Trade {
    TakeFill(t, w.bars - 1, price, t.qty, w.cost(TicketOf(t), (t.entryPrice + price) / 2.0, t.qty))
  }

  /** Every open trade sold at the last price, in order, when that price is positive. */
  ghost function AllSold(w: World, s: Sim, price: real): Sim
    decreases |s.open|
  {
    if s.open == [] || price <= 0.0 then s
    else AllSold(w, Finished(w, s, w.bars - 1, SoldOut(w, s.open[0], price)).(open := s.open[1..]), price)
  }

  /** The end of the data: reservations dropped, trades sold, what is left marked at its entry. */
  ghost function ClosedOut(w: World, s: Sim): Sim {
    var d := s.(ledger := Unreserved(s.ledger, s.pending), pending := []);
    var c := AllSold(w, d, w.close(w.bars - 1));
    c.(ledger := Mark(c.ledger, w.ts(w.bars - 1), map[]))
  }

  // ----- Every filled entry is one trade, and every trade is one -----

  /** Open and closed trades together are those of the filled entries. */
  ghost predicate Traded(w: World, s: Sim, open: seq<Trade>) {
    && s.counter == |OpenedTickets(w, s.resolved)|
    && multiset(Tickets(open)) + multiset(Tickets(s.closed)) == multiset(OpenedTickets(w, s.resolved))
  }

  lemma TicketsAppend(a: seq<Trade>, b: seq<Trade>)
    ensures Tickets(a + b) == Tickets(a) + Tickets(b)
    ensures multiset(Tickets(a + b)) == multiset(Tickets(a)) + multiset(Tickets(b))
  {
  }

  lemma OneTicket(t: Trade)
    ensures Tickets([t]) == [TicketOf(t)]
  {
  }

  lemma ThroughBarKeepsTicket(w: World, index: int, t: Trade)
    ensures TicketOf(ThroughBar(w, index, t).0) == TicketOf(t)
  {
  }

  lemma FirstResolvedTraded(w: World, s: Sim, index: int)
    requires s.pending != [] && Traded(w, s, s.open)
    ensures var n := FirstResolved(w, s, index); Traded(w, n, n.open)
  {
    var e := s.pending[0];
    var exec := w.entryExec(index, e);
    NextTicket(w, s.resolved, Resolution(e, index, Opens(exec)));
    hide EntryCapital, EntryRisk, Portfolio.Activate, Portfolio.Cancel, Tickets, OpenedTickets, Opens, OpenedTrade;
    FirstLeaves(w, s, index);
    if Opens(exec) {
      var t := FirstOpens(w, s, index);
      TicketsAppend(s.open, [t]);
      OneTicket(t);
    }
  }

  lemma {:induction false} DueResolvedTraded(w: World, s: Sim, index: int)
    requires Traded(w, s, s.open)
    ensures var n := DueResolved(w, s, index); Traded(w, n, n.open)
    decreases |s.pending|
  {
    hide FirstResolved, Traded;
    if s.pending != [] && s.pending[0].executeAtIdx <= index {
      FirstResolvedTraded(w, s, index);
      assert |FirstResolved(w, s, index).pending| < |s.pending| by {
        FirstLeaves(w, s, index);
      }
      DueResolvedTraded(w, FirstResolved(w, s, index), index);
    }
  }

  lemma FirstLeaves(w: World, s: Sim, index: int)
    requires s.pending != []
    ensures var n, e := FirstResolved(w, s, index), s.pending[0];
            && n.pending == s.pending[1..] && n.closed == s.closed && n.admitted == s.admitted
            && n.resolved == s.resolved + [Resolution(e, index, Opens(w.entryExec(index, e)))]
            && (!Opens(w.entryExec(index, e)) ==> n.open == s.open && n.counter == s.counter)
  {
    hide Opens, EntryCapital, EntryRisk, Portfolio.Activate, Portfolio.Cancel;
  }

  lemma FirstOpens(w: World, s: Sim, index: int) returns (t: Trade)
    requires s.pending != [] && Opens(w.entryExec(index, s.pending[0]))
    ensures var n, e, exec := FirstResolved(w, s, index), s.pending[0], w.entryExec(index, s.pending[0]);
            && n.open == s.open + [t] && n.counter == s.counter + 1
            && TicketOf(t) == Ticket(TradeId(n.counter), e.side, e.strategyId, index, exec.price, exec.qty)
            && t.exitFills == [] && t.realizedNet == 0.0
  {
    hide EntryCapital, EntryRisk, Portfolio.Activate, Portfolio.Cancel;
    t := OpenedTrade(TradeId(s.counter + 1), index, s.pending[0], w.entryExec(index, s.pending[0]));
  }

  lemma NextTicket(w: World, rs: seq<Resolution>, r: Resolution)
    ensures var exec, earlier := w.entryExec(r.bar, r.entry), OpenedTickets(w, rs);
            OpenedTickets(w, rs + [r]) ==
            if Opens(exec)
            then earlier +
                 [Ticket(TradeId(|earlier| + 1), r.entry.side, r.entry.strategyId, r.bar, exec.price, exec.qty)]
            else earlier
  {
    assert (rs + [r])[..|rs|] == rs;
  }

  lemma {:induction false} ManagedTraded(w: World, s: Sim, index: int, kept: seq<Trade>, rest: seq<Trade>)
    requires Traded(w, s, kept + rest)
    ensures var n := Managed(w, s, index, kept, rest); Traded(w, n, n.open)
    decreases |rest|
  {
    hide ThroughBar, CooldownAfter, OpenedTickets, Tickets;
    if rest == [] {
      assert kept + rest == kept;
    } else {
      var (t, closes) := ThroughBar(w, index, rest[0]);
      ThroughBarKeepsTicket(w, index, rest[0]);
      TicketsThrough(kept, rest, t);
      if closes {
        var next := Finished(w, s, index, t).(cooldownUntil := CooldownAfter(w, s.cooldownUntil, index, t));
        TicketsAppend(s.closed, [t]);
        ManagedTraded(w, next, index, kept, rest[1..]);
      } else {
        assert kept + [t] + rest[1..] == (kept + [t]) + rest[1..];
        ManagedTraded(w, s, index, kept + [t], rest[1..]);
      }
    }
  }

  /** Replacing the first of `rest` by a trade of the same ticket, or taking it out. */
  lemma TicketsThrough(kept: seq<Trade>, rest: seq<Trade>, t: Trade)
    requires rest != [] && TicketOf(t) == TicketOf(rest[0])
    ensures multiset(Tickets(kept + rest)) == multiset(Tickets((kept + [t]) + rest[1..]))
    ensures multiset(Tickets(kept + rest)) == multiset(Tickets(kept + rest[1..])) + multiset(Tickets([t]))
  {
    assert rest == [rest[0]] + rest[1..];
    OneTicket(t);
    OneTicket(rest[0]);
    hide Tickets;
    TicketsAppend([rest[0]], rest[1..]);
    TicketsAppend(kept, rest);
    TicketsAppend(kept, [t]);
    TicketsAppend(kept + [t], rest[1..]);
    TicketsAppend(kept, rest[1..]);
  }

  lemma SignalledTraded(w: World, cfg: Config, s: Sim, index: nat)
    requires Traded(w, s, s.open)
    ensures var n := Signalled(w, cfg, s, index); Traded(w, n, n.open)
  {
    hide Decide, Observed, Admits, VerdictOn;
  }

  lemma BarTraded(w: World, cfg: Config, s: Sim, index: nat)
    requires Traded(w, s, s.open)
    ensures var n := BarSim(w, cfg, s, index); Traded(w, n, n.open)
  {
    hide DueResolved, Managed, Signalled, Traded;
    var d := DueResolved(w, s, index);
    DueResolvedTraded(w, s, index);
    assert [] + d.open == d.open;
    ManagedTraded(w, d, index, [], d.open);
    var m := Managed(w, d, index, [], d.open);
    MarkedTraded(w, m, index);
    SignalledTraded(w, cfg, MarkedSim(w, m, index), index);
  }

  lemma MarkedTraded(w: World, s: Sim, index: int)
    requires Traded(w, s, s.open)
    ensures var n := MarkedSim(w, s, index); Traded(w, n, n.open)
  {
  }

  lemma {:induction false} BarsTraded(w: World, cfg: Config, n: nat)
    ensures var s := BarsSim(w, cfg, n); Traded(w, s, s.open)
  {
    hide BarSim;
    if n > 0 {
      BarsTraded(w, cfg, n - 1);
      if n - 1 >= w.warmup {
        BarTraded(w, cfg, BarsSim(w, cfg, n - 1), n - 1);
      }
    } else {
      assert Tickets([]) == [];
    }
  }

  lemma {:induction false} AllSoldTraded(w: World, s: Sim, price: real)
    requires Traded(w, s, s.open)
    ensures var n := AllSold(w, s, price); Traded(w, n, n.open) && n.open == (if price > 0.0 then [] else s.open)
    ensures AllSold(w, s, price).resolved == s.resolved && AllSold(w, s, price).admitted == s.admitted
    decreases |s.open|
  {
    hide OpenedTickets, Tickets;
    if s.open != [] && price > 0.0 {
      var t := SoldOut(w, s.open[0], price);
      assert TicketOf(t) == TicketOf(s.open[0]);
      TicketsThrough([], s.open, t);
      assert [] + s.open == s.open && [] + s.open[1..] == s.open[1..];
      TicketsAppend(s.closed, [t]);
      AllSoldTraded(w, Finished(w, s, w.bars - 1, t).(open := s.open[1..]), price);
    }
  }

  /** The close-out turns the open trades into closed ones, or leaves them open. */
  lemma ClosedOutTraded(w: World, s: Sim)
    requires w.bars >= 1 && Traded(w, s, s.open)
    ensures var end := ClosedOut(w, s);
            multiset(Tickets(end.closed)) + multiset(Tickets(if w.close(w.bars - 1) > 0.0 then [] else s.open)) ==
            multiset(OpenedTickets(w, s.resolved))
  {
    hide OpenedTickets, Tickets, AllSold, Unreserved;
    var d := s.(ledger := Unreserved(s.ledger, s.pending), pending := []);
    AllSoldTraded(w, d, w.close(w.bars - 1));
  }

  /**
   A due entry with a quantity and a positive price becomes one trade as filled, and a position of that cost and of the
   risk to its stop; any other loses its reservation.
   */
  lemma EntryInNumbers(w: World, s: Sim, index: int)
    requires s.pending != []
    ensures var n, e, exec := FirstResolved(w, s, index), s.pending[0], w.entryExec(index, s.pending[0]);
            && n.pending == s.pending[1..] && n.closed == s.closed && n.admitted == s.admitted
            && e.rid !in n.ledger.pending
            && if exec.Filled? && exec.qty > 0 && exec.price > 0.0 then
                 var id := TradeId(s.counter + 1);
                 var distance := if exec.price >= exec.stopLoss then exec.price - exec.stopLoss
                                 else exec.stopLoss - exec.price;
                 && n.counter == s.counter + 1 && n.resolved == s.resolved + [Resolution(e, index, true)]
                 && n.open == s.open + [Trade(id, e.side, e.strategyId, index, exec.price, exec.qty, exec.qty,
                                              exec.price, None, [], 0.0, 0.0, 0.0)]
                 && id in n.ledger.open
                 && n.ledger.open[id].capitalUsed ==
                    exec.price * exec.qty as real * (if w.margin == 0.0 then 1.0 else w.margin)
                 && n.ledger.open[id].riskInr == distance * exec.qty as real
                 && n.ledger.open[id].unrealizedPnL == 0.0 && n.ledger.open[id].lastMarkTs == Some(w.ts(index))
               else
                 && n.counter == s.counter && n.resolved == s.resolved + [Resolution(e, index, false)]
                 && n.open == s.open && n.ledger.open == s.ledger.open
  {
    hide Sum;
  }

  /** Open profit is, trade by trade, the last price against the entry, for what is left of it. */
  lemma OpenPnlInNumbers(ts: seq<Trade>, t: Trade)
    ensures OpenPnl(ts + [t]) == OpenPnl(ts) + Gain(t.side, t.entryPrice, t.lastLtp) * t.qty as real
    ensures OpenPnl([]) == 0.0
  {
    assert (ts + [t])[..|ts|] == ts;
    var up := (t.lastLtp - t.entryPrice) * t.qty as real;
    assert up * 1.0 == up && up * -1.0 == (t.entryPrice - t.lastLtp) * t.qty as real;
  }

  /**
   A signal is admitted exactly when its strategy is allowed, it is confident enough, its strategy is not on hold, it is
   fresh, contract, candle, data and liquidity are there, and the governor accepts it.
   */
  lemma AdmitsInNumbers(w: World, cfg: Config, s: Sim, sig: Signal, index: int)
    ensures Admits(w, cfg, s, sig, index) <==>
            && (w.allowedStrategies == [] || sig.strategyId in w.allowedStrategies)
            && sig.confidence >= w.confidenceMin
            && !(sig.strategyId in s.cooldownUntil && s.cooldownUntil[sig.strategyId] != 0
                 && index <= s.cooldownUntil[sig.strategyId])
            && !w.staleSignal && !sig.contractMissing && !sig.candleMissing
            && !sig.dataQualityBlocked && !sig.liquidityBlocked
            && Decide(cfg, Observed(cfg, s.ledger, w.ts(index)), w.ts(index), sig.request).Accepted?
  {
    hide Decide, Observed;
  }

  /** The reason reported for a refused signal is that of the first thing in its way. */
  lemma FirstObstacle(w: World, s: Signal, onHold: bool, preview: Verdict)
    ensures var a := DetermineAdmissionReason(w, s, onHold, preview);
            var known := w.allowedStrategies == [] || s.strategyId in w.allowedStrategies;
            var sure := known && s.confidence >= w.confidenceMin;
            var timely := sure && !onHold && !w.staleSignal;
            var tradable := timely && !s.contractMissing && !s.candleMissing;
            && (a == AllowedStrategiesBlock <==> !known)
            && (a == ConfidenceTooLow <==> known && s.confidence < w.confidenceMin)
            && (a == CooldownBlock <==> sure && onHold)
            && (a == StaleSignalBlock <==> sure && !onHold && w.staleSignal)
            && (a == MissingOptionContract <==> timely && s.contractMissing)
            && (a == MissingCandle <==> timely && !s.contractMissing && s.candleMissing)
            && (a == DataQualityBlock <==> tradable && s.dataQualityBlocked)
            && (a == MissingLiquidity <==> tradable && !s.dataQualityBlocked && s.liquidityBlocked)
            && (a.Refused? ==> preview == Rejected(a.reason))
            && (a == AcceptedEntry ==> preview.Accepted?)
  {
  }

  // ----- Every result is that of its fills -----

  ghost predicate AllNet(w: World, ts: seq<Trade>) {
    forall i :: 0 <= i < |ts| ==> NetIsFills(w, ts[i])
  }

  lemma ThroughBarKeepsNet(w: World, index: int, trade: Trade)
    requires trade.qty > 0 && NetIsFills(w, trade)
    ensures NetIsFills(w, ThroughBar(w, index, trade).0)
  {
    BarInNumbers(w, index, trade);
    var ltp := w.ltp(index, trade);
    var noted := trade.(lastLtp := if ltp.Some? && ltp.value > 0.0 then ltp.value else trade.lastLtp);
    var after := ThroughBar(w, index, trade).0;
    hide ThroughBar, Charged;
    assert NetIsFills(w, noted) && forall p :: NetIsFills(w, noted.(pendingExit := p));
    forall f | Charged(w, noted, after, f)
      ensures NetIsFills(w, after)
    {
      ChargedKeepsNet(w, noted, after, f);
    }
  }

  lemma {:induction false} ManagedKeepsNet(w: World, s: Sim, index: int, kept: seq<Trade>, rest: seq<Trade>)
    requires AllOpenOk(rest) && AllNet(w, kept) && AllNet(w, rest) && AllNet(w, s.closed)
    ensures var n := Managed(w, s, index, kept, rest); AllNet(w, n.open) && AllNet(w, n.closed)
    decreases |rest|
  {
    hide ThroughBar, CooldownAfter, NetIsFills, TradeOk;
    if rest != [] {
      var (t, closes) := ThroughBar(w, index, rest[0]);
      ThroughBarKeepsNet(w, index, rest[0]);
      if closes {
        var next := Finished(w, s, index, t).(cooldownUntil := CooldownAfter(w, s.cooldownUntil, index, t));
        ManagedKeepsNet(w, next, index, kept, rest[1..]);
      } else {
        ManagedKeepsNet(w, s, index, kept + [t], rest[1..]);
      }
    }
  }

  lemma {:induction false} DueResolvedKeepsNet(w: World, s: Sim, index: int)
    requires AllNet(w, s.open)
    ensures AllNet(w, DueResolved(w, s, index).open)
    decreases |s.pending|
  {
    hide FirstResolved, NetIsFills;
    if s.pending != [] && s.pending[0].executeAtIdx <= index {
      FirstLeaves(w, s, index);
      if Opens(w.entryExec(index, s.pending[0])) {
        var t := FirstOpens(w, s, index);
        NewTradeHasNoNet(w, t);
      }
      DueResolvedKeepsNet(w, FirstResolved(w, s, index), index);
    }
  }

  lemma NewTradeHasNoNet(w: World, t: Trade)
    requires t.exitFills == [] && t.realizedNet == 0.0
    ensures NetIsFills(w, t)
  {
  }

  lemma {:induction false} BarsKeepNet(w: World, cfg: Config, n: nat)
    ensures var s := BarsSim(w, cfg, n); AllNet(w, s.open) && AllNet(w, s.closed)
  {
    hide DueResolved, Managed, NetIsFills, Signalled;
    if n > 0 {
      BarsKeepNet(w, cfg, n - 1);
      if n - 1 >= w.warmup {
        var s := BarsSim(w, cfg, n - 1);
        BarsKeepHolds(w, cfg, n - 1);
        var d := DueResolved(w, s, n - 1);
        DueResolvedOpens(w, s, n - 1);
        DueResolvedKeepsNet(w, s, n - 1);
        ManagedKeepsNet(w, d, n - 1, [], d.open);
        var m := MarkedSim(w, Managed(w, d, n - 1, [], d.open), n - 1);
        SignalKeepsEquity(w, cfg, m, n - 1);
      }
    }
  }

  /** At the end a trade is sold whole, at the last price and at the cost of that sale. */
  lemma SaleInNumbers(w: World, t: Trade, price: real)
    ensures Charged(w, t, SoldOut(w, t, price), Fill(w.bars - 1, t.qty, price)) && SoldOut(w, t, price).qty == 0
  {
    FillCharges(w, t, w.bars - 1, price, t.qty);
    hide TakeFill;
  }

  lemma {:induction false} AllSoldKeepsNet(w: World, s: Sim, price: real)
    requires AllNet(w, s.open) && AllNet(w, s.closed)
    ensures AllNet(w, AllSold(w, s, price).closed)
    decreases |s.open|
  {
    hide NetIsFills, SoldOut;
    if s.open != [] && price > 0.0 {
      var t := SoldOut(w, s.open[0], price);
      SaleInNumbers(w, s.open[0], price);
      ChargedKeepsNet(w, s.open[0], t, Fill(w.bars - 1, s.open[0].qty, price));
      hide Charged;
      AllSoldKeepsNet(w, Finished(w, s, w.bars - 1, t).(open := s.open[1..]), price);
    }
  }

  /** Every closed trade of a run, those of the close-out included, has the result of its fills. */
  lemma RunKeepsNet(w: World, cfg: Config)
    requires w.bars >= 1
    ensures AllNet(w, ClosedOut(w, BarsSim(w, cfg, w.bars)).closed)
  {
    hide BarsSim, AllSold, AllNet, Unreserved;
    BarsKeepNet(w, cfg, w.bars);
    var s := BarsSim(w, cfg, w.bars);
    AllSoldKeepsNet(w, s.(ledger := Unreserved(s.ledger, s.pending), pending := []), w.close(w.bars - 1));
  }

  // ----- A losing close puts its strategy on hold -----

  /** The bar of the last fill. */
  function ClosedAt(t: Trade): int
    requires t.exitFills != []
  {
    t.exitFills[|t.exitFills| - 1].bar
  }

  /** None of the entries is of the trade's strategy and signalled while it was on hold for the trade. */
  ghost predicate HoldsOff(w: World, t: Trade, admitted: seq<Entry>)
    requires t.exitFills != []
  {
    forall e :: e in admitted && e.strategyId == t.strategyId ==>
      e.signalIdx < ClosedAt(t) || e.signalIdx > ClosedAt(t) + w.cooldownCandles
  }

  /** A losing trade is covered by the hold of its strategy, and has held its entries off so far. */
  ghost predicate Cooled(w: World, t: Trade, until: map<int, int>, admitted: seq<Entry>, hi: int) {
    && t.exitFills != [] && 0 <= ClosedAt(t) < hi
    && (w.cooldownCandles > 0 && t.realizedNet < 0.0 ==>
          && t.strategyId in until && until[t.strategyId] >= ClosedAt(t) + w.cooldownCandles
          && HoldsOff(w, t, admitted))
  }

  /** Trades closed before `hi` and entries signalled before `n`. */
  ghost predicate AllCooled(
      w: World, closed: seq<Trade>, until: map<int, int>, admitted: seq<Entry>, n: int, hi: int) {
    && (forall t :: t in closed ==> Cooled(w, t, until, admitted, hi))
    && (forall e :: e in admitted ==> e.signalIdx < n)
  }

  /** A trade that the bar closes has its last fill on that bar. */
  lemma ClosedHere(w: World, index: int, trade: Trade)
    requires OpenOk(trade) && ThroughBar(w, index, trade).1
    ensures var t := ThroughBar(w, index, trade).0; t.exitFills != [] && ClosedAt(t) == index
  {
    ThroughBarKeepsAccounts(w, index, trade);
    assert OneMoreFill(trade, ThroughBar(w, index, trade).0, index);
  }

  lemma CloseCools(
      w: World, closed: seq<Trade>, until: map<int, int>, admitted: seq<Entry>, index: int, trade: Trade)
    requires index >= 0 && AllCooled(w, closed, until, admitted, index, index + 1)
    requires OpenOk(trade) && ThroughBar(w, index, trade).1
    ensures var t := ThroughBar(w, index, trade).0;
            AllCooled(w, closed + [t], CooldownAfter(w, until, index, t), admitted, index, index + 1)
  {
    var t := ThroughBar(w, index, trade).0;
    ClosedHere(w, index, trade);
    hide ThroughBar, OpenOk, ClosedAt;
    var after := CooldownAfter(w, until, index, t);
    assert Cooled(w, t, after, admitted, index + 1);
    forall x | x in closed
      ensures Cooled(w, x, after, admitted, index + 1)
    {
      assert Cooled(w, x, until, admitted, index + 1);
    }
  }

  lemma {:induction false} ManagedCools(w: World, s: Sim, index: int, kept: seq<Trade>, rest: seq<Trade>)
    requires index >= 0 && AllOpenOk(kept) && AllOpenOk(rest)
    requires AllCooled(w, s.closed, s.cooldownUntil, s.admitted, index, index + 1)
    ensures var n := Managed(w, s, index, kept, rest);
            && AllOpenOk(n.open) && n.admitted == s.admitted
            && AllCooled(w, n.closed, n.cooldownUntil, n.admitted, index, index + 1)
    decreases |rest|
  {
    hide ThroughBar, CooldownAfter, OpenOk, ClosedOk, TradeOk, AllCooled, OneMoreFill;
    if rest != [] {
      var (t, closes) := ThroughBar(w, index, rest[0]);
      ThroughBarKeepsAccounts(w, index, rest[0]);
      if closes {
        CloseCools(w, s.closed, s.cooldownUntil, s.admitted, index, rest[0]);
        var next := Finished(w, s, index, t).(cooldownUntil := CooldownAfter(w, s.cooldownUntil, index, t));
        ManagedCools(w, next, index, kept, rest[1..]);
      } else {
        ManagedCools(w, s, index, kept + [t], rest[1..]);
      }
    }
  }

  lemma {:induction false} DueResolvedOpens(w: World, s: Sim, index: int)
    requires AllOpenOk(s.open)
    ensures var n := DueResolved(w, s, index);
            && AllOpenOk(n.open) && n.closed == s.closed && n.admitted == s.admitted
            && n.cooldownUntil == s.cooldownUntil
    decreases |s.pending|
  {
    hide FirstResolved, OpenOk;
    if s.pending != [] && s.pending[0].executeAtIdx <= index {
      FirstLeaves(w, s, index);
      FirstResolvedOpens(w, s, index);
      DueResolvedOpens(w, FirstResolved(w, s, index), index);
    }
  }

  lemma FirstResolvedOpens(w: World, s: Sim, index: int)
    requires s.pending != [] && AllOpenOk(s.open)
    ensures var n := FirstResolved(w, s, index); AllOpenOk(n.open) && n.cooldownUntil == s.cooldownUntil
  {
    hide OpenOk, EntryCapital, EntryRisk, OpenedTrade, Portfolio.Activate, Portfolio.Cancel;
    var exec := w.entryExec(index, s.pending[0]);
    if Opens(exec) {
      OpenedTradeOk(TradeId(s.counter + 1), index, s.pending[0], exec);
    }
  }

  /** A signal that is not blocked comes after every hold of its strategy. */
  lemma SignalKeepsHolds(w: World, cfg: Config, s: Sim, index: nat)
    requires AllCooled(w, s.closed, s.cooldownUntil, s.admitted, index, index + 1)
    ensures var n := Signalled(w, cfg, s, index);
            && n.open == s.open
            && AllCooled(w, n.closed, n.cooldownUntil, n.admitted, index + 1, index + 1)
  {
    hide Decide, Observed, VerdictOn, Reserve;
    var n := Signalled(w, cfg, s, index);
    forall t | t in n.closed
      ensures Cooled(w, t, n.cooldownUntil, n.admitted, index + 1)
    {
      assert Cooled(w, t, s.cooldownUntil, s.admitted, index + 1);
    }
  }

  /** What holds between bars. */
  ghost predicate HoldsKept(w: World, s: Sim, n: int) {
    AllOpenOk(s.open) && AllCooled(w, s.closed, s.cooldownUntil, s.admitted, n, n)
  }

  lemma BarKeepsHolds(w: World, cfg: Config, s: Sim, index: nat)
    requires HoldsKept(w, s, index)
    ensures HoldsKept(w, BarSim(w, cfg, s, index), index + 1)
  {
    hide DueResolved, Managed, Signalled, AllOpenOk, AllCooled;
    var d := DueResolved(w, s, index);
    DueResolvedOpens(w, s, index);
    LaterBound(w, s, index);
    NothingKept();
    ManagedCools(w, d, index, [], d.open);
    var m := Managed(w, d, index, [], d.open);
    SignalKeepsHolds(w, cfg, MarkedSim(w, m, index), index);
  }

  lemma NothingKept()
    ensures AllOpenOk([])
  {
  }

  lemma LaterBound(w: World, s: Sim, n: int)
    requires AllCooled(w, s.closed, s.cooldownUntil, s.admitted, n, n)
    ensures AllCooled(w, s.closed, s.cooldownUntil, s.admitted, n, n + 1)
    ensures AllCooled(w, s.closed, s.cooldownUntil, s.admitted, n + 1, n + 1)
  {
    forall t | t in s.closed
      ensures Cooled(w, t, s.cooldownUntil, s.admitted, n + 1)
    {
      assert Cooled(w, t, s.cooldownUntil, s.admitted, n);
    }
  }

  lemma {:induction false} BarsKeepHolds(w: World, cfg: Config, n: nat)
    ensures HoldsKept(w, BarsSim(w, cfg, n), n)
  {
    hide BarSim, AllCooled;
    if n == 0 {
      assert AllCooled(w, [], map[], [], 0, 0) by {
        NothingClosed(w);
      }
    } else {
      BarsKeepHolds(w, cfg, n - 1);
      if n - 1 >= w.warmup {
        BarKeepsHolds(w, cfg, BarsSim(w, cfg, n - 1), n - 1);
      } else {
        LaterBound(w, BarsSim(w, cfg, n - 1), n - 1);
      }
    }
  }

  lemma NothingClosed(w: World)
    ensures AllCooled(w, [], map[], [], 0, 0)
  {
  }

  /** After a losing close on bar b, no entry of its strategy is admitted from bar b to b + cooldown. */
  lemma CooldownHolds(w: World, cfg: Config, n: nat, t: Trade, e: Entry)
    requires w.cooldownCandles > 0
    requires t in BarsSim(w, cfg, n).closed && t.realizedNet < 0.0
    requires e in BarsSim(w, cfg, n).admitted && e.strategyId == t.strategyId
    ensures t.exitFills != []
    ensures e.signalIdx < ClosedAt(t) || e.signalIdx > ClosedAt(t) + w.cooldownCandles
  {
    hide BarsSim;
    BarsKeepHolds(w, cfg, n);
    assert Cooled(w, t, BarsSim(w, cfg, n).cooldownUntil, BarsSim(w, cfg, n).admitted, n);
  }

  /** The trade lost money, and its hold on its strategy ends with bar `until`. */
  predicate Lost(w: World, t: Trade, strategyId: int, until: int) {
    && t.strategyId == strategyId && t.realizedNet < 0.0 && t.exitFills != []
    && w.cooldownCandles > 0 && until == t.exitFills[|t.exitFills| - 1].bar + w.cooldownCandles
  }

  /** Every hold is that of a losing trade. */
  ghost predicate Earned(w: World, closed: seq<Trade>, until: map<int, int>) {
    forall k :: k in until ==> exists t :: t in closed && Lost(w, t, k, until[k])
  }

  lemma CloseEarns(w: World, closed: seq<Trade>, until: map<int, int>, index: int, trade: Trade)
    requires Earned(w, closed, until) && OpenOk(trade) && ThroughBar(w, index, trade).1
    ensures var t := ThroughBar(w, index, trade).0; Earned(w, closed + [t], CooldownAfter(w, until, index, t))
  {
    var t := ThroughBar(w, index, trade).0;
    ClosedHere(w, index, trade);
    hide ThroughBar, OpenOk;
    var after := CooldownAfter(w, until, index, t);
    forall k | k in after
      ensures exists x :: x in closed + [t] && Lost(w, x, k, after[k])
    {
      if after == until {
        var x :| x in closed && Lost(w, x, k, until[k]);
        assert x in closed + [t];
      } else if k == t.strategyId {
        assert t in closed + [t] && Lost(w, t, k, after[k]);
      } else {
        var x :| x in closed && Lost(w, x, k, until[k]);
        assert x in closed + [t];
      }
    }
  }

  lemma {:induction false} ManagedEarns(w: World, s: Sim, index: int, kept: seq<Trade>, rest: seq<Trade>)
    requires AllOpenOk(rest) && Earned(w, s.closed, s.cooldownUntil)
    ensures var n := Managed(w, s, index, kept, rest); Earned(w, n.closed, n.cooldownUntil)
    decreases |rest|
  {
    hide ThroughBar, CooldownAfter, OpenOk, Earned;
    if rest != [] {
      var (t, closes) := ThroughBar(w, index, rest[0]);
      if closes {
        CloseEarns(w, s.closed, s.cooldownUntil, index, rest[0]);
        var next := Finished(w, s, index, t).(cooldownUntil := CooldownAfter(w, s.cooldownUntil, index, t));
        ManagedEarns(w, next, index, kept, rest[1..]);
      } else {
        ManagedEarns(w, s, index, kept + [t], rest[1..]);
      }
    }
  }

  lemma BarEarns(w: World, cfg: Config, s: Sim, index: nat)
    requires AllOpenOk(s.open) && Earned(w, s.closed, s.cooldownUntil)
    ensures var n := BarSim(w, cfg, s, index); Earned(w, n.closed, n.cooldownUntil)
  {
    hide DueResolved, Managed, AllOpenOk, Earned, VerdictOn, Observed;
    DueResolvedOpens(w, s, index);
    ManagedEarns(w, DueResolved(w, s, index), index, [], DueResolved(w, s, index).open);
  }

  lemma {:induction false} BarsEarn(w: World, cfg: Config, n: nat)
    ensures Earned(w, BarsSim(w, cfg, n).closed, BarsSim(w, cfg, n).cooldownUntil)
  {
    hide BarSim;
    if n > 0 {
      BarsEarn(w, cfg, n - 1);
      BarsKeepHolds(w, cfg, n - 1);
      hide Earned, AllOpenOk, AllCooled;
      if n - 1 >= w.warmup {
        BarEarns(w, cfg, BarsSim(w, cfg, n - 1), n - 1);
      }
    }
  }

  /** A strategy is on hold after `n` bars exactly when one of its trades lost money no longer than the cooldown ago. */
  lemma HoldExact(w: World, cfg: Config, n: nat, sig: Signal)
    ensures var s := BarsSim(w, cfg, n);
            CooldownBlocks(s.cooldownUntil, sig, n) <==>
            w.cooldownCandles > 0
            && exists t :: t in s.closed && t.strategyId == sig.strategyId && t.realizedNet < 0.0
                           && t.exitFills != [] && n <= t.exitFills[|t.exitFills| - 1].bar + w.cooldownCandles
  {
    hide BarsSim;
    var s := BarsSim(w, cfg, n);
    BarsEarn(w, cfg, n);
    BarsKeepHolds(w, cfg, n);
    forall t | t in s.closed
      ensures Cooled(w, t, s.cooldownUntil, s.admitted, n)
    {
    }
    if CooldownBlocks(s.cooldownUntil, sig, n) {
      var t :| t in s.closed && Lost(w, t, sig.strategyId, s.cooldownUntil[sig.strategyId]);
    }
  }

  // ----- What an admitted signal gets -----

  /** An entry of this many lots was taken on: they fit the free capital of ledger `o`, one lot more would not. */
  ghost predicate Sized(cfg: Config, o: Ledger, req: Request, lots: nat, qty: int) {
    && lots >= 1 && qty == lots * LotSize(req)
    && Fits(cfg, Equity(o), Free(o), req, lots) && !Fits(cfg, Equity(o), Free(o), req, lots + 1)
  }

  /**
   A signal that passes every gate queues one entry, due `latency` bars later, in the largest number of lots that fits
   what the ledger then has free, and sets its capital aside; any other signal queues nothing.
   */
  lemma AdmittedEntryIsSized(w: World, cfg: Config, s: Sim, sig: Signal, index: nat) returns (lots: nat)
    requires w.signal(index) == Some(sig)
    ensures var n := Signalled(w, cfg, s, index);
            var o := Observed(cfg, s.ledger, w.ts(index));
            if Admits(w, cfg, s, sig, index) then
              && |n.pending| == |s.pending| + 1 && n.pending[..|s.pending|] == s.pending
              && Sized(cfg, o, sig.request, lots, n.pending[|s.pending|].qty)
              && n.pending[|s.pending|] == EntryFor(w, sig, index, |s.pending|, n.pending[|s.pending|].qty)
              && PerLotCapital(cfg, sig.request) * lots as real <= Free(s.ledger)
              && (ReservationId(index, |s.pending|) !in s.ledger.pending ==>
                    Free(n.ledger) == Free(s.ledger) - PerLotCapital(cfg, sig.request) * lots as real)
            else n == s.(ledger := o)
  {
    hide Decide, Fits, Observed, DetermineAdmissionReason, BuildSizingPreview, PerLotCapital, LotSize, Equity, Free;
    lots := 0;
    var o := Observed(cfg, s.ledger, w.ts(index));
    ObservedTotals(cfg, s.ledger, w.ts(index));
    if Admits(w, cfg, s, sig, index) {
      var v := VerdictOn(w, cfg, o, sig, index);
      AdmitsAccepted(w, cfg, s, sig, index);
      AcceptedIsSized(cfg, o, w.ts(index), sig.request);
      if ReservationId(index, |s.pending|) !in s.ledger.pending {
        ReserveMoves(o, ReservationId(index, |s.pending|), Held(v.sizing));
      }
      lots := v.sizing.lots;
    }
  }

  lemma AdmitsAccepted(w: World, cfg: Config, s: Sim, sig: Signal, index: nat)
    requires Admits(w, cfg, s, sig, index)
    ensures var o := Observed(cfg, s.ledger, w.ts(index));
            Decide(cfg, o, w.ts(index), sig.request).Accepted?
            && VerdictOn(w, cfg, o, sig, index) == Decide(cfg, o, w.ts(index), sig.request)
  {
    hide Decide, Observed;
  }

  lemma AcceptedIsSized(cfg: Config, o: Ledger, ts: int, req: Request)
    requires Decide(cfg, o, ts, req).Accepted?
    ensures var v := Decide(cfg, o, ts, req).sizing;
            && v.lots >= 1 && Sized(cfg, o, req, v.lots, v.qty)
            && v.capitalUsed == PerLotCapital(cfg, req) * v.lots as real <= Free(o)
  {
    hide Decide, Fits, BuildSizingPreview, Equity, Free, PerLotCapital, LotSize;
    AcceptedIsPreview(cfg, o, ts, req);
    PreviewIsSized(cfg, Equity(o), Free(o), req);
  }

  lemma PreviewIsSized(cfg: Config, equity: real, available: real, req: Request)
    requires BuildSizingPreview(cfg, equity, available, req).1 == None
    ensures var s := BuildSizingPreview(cfg, equity, available, req).0;
            && s.lots >= 1 && s.qty == s.lots * s.lotSize
            && Fits(cfg, equity, available, req, s.lots) && !Fits(cfg, equity, available, req, s.lots + 1)
            && s.capitalUsed == PerLotCapital(cfg, req) * s.lots as real <= available
  {
    hide BuildSizingPreview, PerLotCapital, PerLotRisk, LotSize, IntendedLots, CapitalBudget, BudgetFor;
    if PerLotCapital(cfg, req) <= 0.0 {
      WorthlessNeverSizes(cfg, equity, available, req);
      assert false;
    } else {
      SizingOptimal(cfg, equity, available, req);
      RefusedBelowOneLot(cfg, equity, available, req);
      assert Fits(cfg, equity, available, req, BuildSizingPreview(cfg, equity, available, req).0.lots);
    }
  }

  lemma AcceptedIsPreview(cfg: Config, o: Ledger, ts: int, req: Request)
    requires Decide(cfg, o, ts, req).Accepted?
    ensures var (v, reason) := BuildSizingPreview(cfg, Equity(o), Free(o), req);
            Decide(cfg, o, ts, req).sizing == v && reason == None && v.lotSize == LotSize(req)
  {
    hide HaltReasons, Equity, Free;
  }

  /** Entries speak about reservations only, trades about positions and realized profit only. */
  lemma EntriesFollowPending(
      l: Ledger, l': Ledger, pending: seq<Entry>, admitted: seq<Entry>, resolved: seq<Resolution>, latency: nat,
      lo: int, hi: int, done: int)
    requires EntriesInv(l, pending, admitted, resolved, latency, lo, hi, done) && l'.pending == l.pending
    ensures EntriesInv(l', pending, admitted, resolved, latency, lo, hi, done)
  {
  }

  /** Admitting an entry sets capital aside; it neither earns nor loses any, and touches no trade. */
  lemma SignalKeepsEquity(w: World, cfg: Config, s: Sim, index: nat)
    ensures var n := Signalled(w, cfg, s, index);
            Equity(n.ledger) == Equity(s.ledger) && n.open == s.open && n.closed == s.closed
  {
    hide Decide, Admits, VerdictOn;
    ObservedTotals(cfg, s.ledger, w.ts(index));
  }

  lemma NoEntryJoins(
      l: Ledger, pending: seq<Entry>, admitted: seq<Entry>, resolved: seq<Resolution>, latency: nat, index: int)
    requires EntriesInv(l, pending, admitted, resolved, latency, index + 1, index, index + 1)
    ensures EntriesInv(l, pending, admitted, resolved, latency, index + 1, index + 1, index + 1)
  {
  }

  lemma LookKeeps(cfg: Config, l: Ledger, ts: int, trades: seq<Trade>)
    ensures var o := Observed(cfg, l, ts);
            o.pending == l.pending && o.realizedPnL == l.realizedPnL
            && (TradesAgree(o, trades) <==> TradesAgree(l, trades))
  {
    ObservedTotals(cfg, l, ts);
  }

  class Engine {
    const w: World
    const governor: RiskGovernor
    var pendingEntries: seq<Entry>
    var openTrades: seq<Trade>
    var closedTrades: seq<Trade>
    var cooldownUntil: map<int, int>
    var tradeCounter: nat
    /** Every entry that came due, in order. */
    var resolved: seq<Resolution>
    /** Every entry ever admitted, in order. */
    var admitted: seq<Entry>
    /** The protocol operations performed so far. */
    ghost var ops: seq<Op>

    ghost function Start(): Ledger
    {
      InitialLedger(governor.config.initialCapital)
    }

    ghost function State(): Sim
      reads this, governor.portfolio
    {
      Sim(governor.portfolio.View(), pendingEntries, openTrades, closedTrades, cooldownUntil, tradeCounter, admitted,
          resolved)
    }

    /** The governor's ledger is the outcome of a legal protocol run, and the entries are what it admitted. */
    ghost predicate LedgerOk()
      reads this, governor.portfolio
    {
      && governor.portfolio.Valid()
      && LegalRun(governor.config, Start(), ops)
      && RunOps(governor.config, Start(), ops) == governor.portfolio.View()
      && Grants(governor.config, Start(), ops) == GrantsOf(admitted)
    }

    /** Trades against positions and realized profit. */
    ghost predicate TradesOk()
      reads this, governor.portfolio
    {
      var l := governor.portfolio.View();
      && TradesAgree(l, openTrades) && TradesSorted(openTrades, tradeCounter)
      && AllClosedOk(closedTrades) && l.realizedPnL == NetOf(closedTrades)
    }

    /** Entries against reservations; the pending ones lie between `lo` and `hi`, the resolved ones before `done`. */
    ghost predicate EntriesOk(lo: int, hi: int, done: int)
      reads this, governor.portfolio
    {
      EntriesInv(governor.portfolio.View(), pendingEntries, admitted, resolved, w.latency, lo, hi, done)
    }

    /** The due entries ended as their fills say. */
    ghost predicate Traced()
      reads this
    {
      ResolvedAsFilled(w, resolved)
    }

    constructor (world: World, cfg: Config)
      ensures w == world && Traced()
      ensures governor.config == Normalized(cfg)
      ensures LedgerOk() && TradesOk() && EntriesOk(0, 0, 0)
      ensures fresh(governor.portfolio)
      ensures State() == StartSim(governor.config) && resolved == []
    {
      hide EntriesInv, TradesAgree, TradesSorted, AllClosedOk, NetOf, ResolvedAsFilled;
      w := world;
      governor := new RiskGovernor(cfg);
      pendingEntries, openTrades, closedTrades, resolved := [], [], [], [];
      cooldownUntil, tradeCounter := map[], 0;
      admitted, ops := [], [];
      new;
      NothingYet(w, governor.portfolio.View());
    }

    // ----- Entries that are due -----

    /** Entries whose bar has come, and the rest; both in order. */
    static method SplitDue(es: seq<Entry>, latency: nat, index: int) returns (due: seq<Entry>, later: seq<Entry>)
      requires EntriesSorted(es, latency)
      ensures due + later == es
      ensures forall i :: 0 <= i < |due| ==> due[i].executeAtIdx <= index
      ensures forall i :: 0 <= i < |later| ==> later[i].executeAtIdx > index
    {
      due, later := [], [];
      var i := 0;
      while i < |es|
        invariant 0 <= i <= |es|
        invariant due + later == es[..i]
        invariant forall j :: 0 <= j < |due| ==> due[j].executeAtIdx <= index
        invariant forall j :: 0 <= j < |later| ==> later[j].executeAtIdx > index
        invariant forall j :: |due| <= j < i ==> es[j].executeAtIdx > index
      {
        if es[i].executeAtIdx <= index {
          DueIsPrefix(es, latency, |due|, i, index);
          due := due + [es[i]];
        } else {
          later := later + [es[i]];
        }
        i := i + 1;
      }
    }

    method ProcessDueEntries(index: int)
      requires LedgerOk() && TradesOk() && EntriesOk(index, index, index) && Traced()
      modifies this, governor.portfolio
      ensures LedgerOk() && TradesOk() && EntriesOk(index + 1, index, index + 1) && Traced()
      ensures State() == DueResolved(w, old(State()), index) && admitted == old(admitted)
    {
      hide RunOps, LegalRun, Grants, FirstResolved, EntriesInv, TradesAgree, TradesSorted, AllClosedOk, NetOf,
           ResolvedAsFilled, EntriesSorted;
      BarBegins(governor.portfolio.View(), pendingEntries, admitted, resolved, w.latency, index);
      var due, later := SplitDue(pendingEntries, w.latency, index);
      while due != []
        invariant LedgerOk() && TradesOk() && EntriesOk(index, index, index + 1) && Traced()
        invariant pendingEntries == due + later
        invariant forall i :: 0 <= i < |due| ==> due[i].executeAtIdx <= index
        invariant DueResolved(w, State(), index) == DueResolved(w, old(State()), index) && admitted == old(admitted)
        decreases |due|
      {
        assert pendingEntries[0] == due[0] && pendingEntries[1..] == due[1..] + later;
        ResolveFirst(index);
        due := due[1..];
      }
      assert pendingEntries == later;
      RestWait(governor.portfolio.View(), later, admitted, resolved, w.latency, index);
    }

    /** Opens a trade for the first pending entry, or drops its reservation. */
    method ResolveFirst(index: int)
      requires LedgerOk() && TradesOk() && EntriesOk(index, index, index + 1) && Traced()
      requires pendingEntries != [] && pendingEntries[0].executeAtIdx <= index
      modifies this, governor.portfolio
      ensures LedgerOk() && TradesOk() && EntriesOk(index, index, index + 1) && Traced()
      ensures State() == FirstResolved(w, old(State()), index) && pendingEntries == old(pendingEntries)[1..]
      ensures admitted == old(admitted)
      ensures var e := old(pendingEntries)[0];
              resolved == old(resolved) + [Resolution(e, index, Opens(w.entryExec(index, e)))]
    {
      hide RunOps, LegalRun, Grants, EntriesInv, OpenedTrade, EntryCapital, EntryRisk, NetOf, AllClosedOk,
           TradesSorted, TradesAgree, Opens;
      hide FirstResolved, Portfolio.Activate, Portfolio.Cancel, Equity, Free, Observed, Decide;
      var e := pendingEntries[0];
      ghost var l, es := governor.portfolio.View(), pendingEntries;
      FirstIsReserved(l, es, admitted, resolved, w.latency, index);
      var opens := OpenOrDrop(index, e);
      EntryResolved(l, governor.portfolio.View(), es, admitted, resolved, w.latency, index, opens);
      resolved := resolved + [Resolution(e, index, opens)];
      pendingEntries := pendingEntries[1..];
    }

    method OpenOrDrop(index: int, e: Entry) returns (opens: bool)
      requires LedgerOk() && TradesOk() && e.rid in governor.portfolio.View().pending && pendingEntries != []
               && pendingEntries[0] == e
      modifies this`openTrades, this`tradeCounter, this`ops, governor.portfolio
      ensures LedgerOk() && TradesOk() && opens == Opens(w.entryExec(index, e))
      ensures State().(pending := pendingEntries[1..], resolved := resolved + [Resolution(e, index, opens)]) ==
              FirstResolved(w, old(State()), index)
      ensures governor.portfolio.View().pending == old(governor.portfolio.View()).pending - {e.rid}
    {
      hide RunOps, LegalRun, Grants, OpenedTrade, EntryCapital, EntryRisk, NetOf, AllClosedOk, TradesSorted,
           TradesAgree;
      hide Portfolio.Activate, Portfolio.Cancel, Equity, Free, Observed, Decide;
      var exec := w.entryExec(index, e);
      opens := Opens(exec);
      if opens {
        OpenTrade(index, e, exec);
      } else {
        DropReservation(e.rid);
      }
    }

    method DropReservation(rid: Id)
      requires LedgerOk() && TradesOk() && rid in governor.portfolio.View().pending
      modifies this`ops, governor.portfolio
      ensures LedgerOk() && TradesOk()
      ensures governor.portfolio.View() == Portfolio.Cancel(old(governor.portfolio.View()), rid)
      ensures governor.portfolio.View().pending == old(governor.portfolio.View()).pending - {rid}
    {
      hide RunOps, LegalRun, Grants;
      RunOpsSnoc(governor.config, Start(), ops, CancelReservation(rid));
      ops := ops + [CancelReservation(rid)];
      governor.portfolio.CancelReservation(rid);
    }

    method Activate(rid: Id, pid: Id, capital: real, risk: real, ts: int)
      requires LedgerOk() && rid in governor.portfolio.View().pending && pid !in governor.portfolio.View().open
      modifies this`ops, governor.portfolio
      ensures LedgerOk()
      ensures governor.portfolio.View() ==
              Portfolio.Activate(old(governor.portfolio.View()), rid, pid, Some(capital), Some(risk), Some(ts))
    {
      hide RunOps, LegalRun, Grants;
      RunOpsSnoc(governor.config, Start(), ops, ActivatePosition(rid, pid, capital, risk, ts));
      ops := ops + [ActivatePosition(rid, pid, capital, risk, ts)];
      governor.portfolio.ActivatePosition(rid, pid, Some(capital), Some(risk), Some(ts));
    }

    method Close(pid: Id, ts: int, netPnl: real)
      requires LedgerOk() && pid in governor.portfolio.View().open
      modifies this`ops, governor.portfolio
      ensures LedgerOk()
      ensures governor.portfolio.View() == Portfolio.Close(old(governor.portfolio.View()), pid, ts, netPnl)
    {
      hide RunOps, LegalRun, Grants;
      RunOpsSnoc(governor.config, Start(), ops, ClosePosition(pid, ts, netPnl));
      ops := ops + [ClosePosition(pid, ts, netPnl)];
      governor.portfolio.ClosePosition(pid, ts, netPnl);
    }

    method OpenTrade(index: int, e: Entry, exec: EntryExec)
      requires LedgerOk() && TradesOk() && e.rid in governor.portfolio.View().pending
      requires Opens(exec)
      modifies this`openTrades, this`tradeCounter, this`ops, governor.portfolio
      ensures LedgerOk() && TradesOk()
      ensures tradeCounter == old(tradeCounter) + 1
      ensures openTrades == old(openTrades) + [OpenedTrade(TradeId(tradeCounter), index, e, exec)]
      ensures governor.portfolio.View() ==
              Portfolio.Activate(old(governor.portfolio.View()), e.rid, TradeId(tradeCounter),
                                 Some(EntryCapital(w, exec)), Some(EntryRisk(exec)), Some(w.ts(index)))
      ensures governor.portfolio.View().pending == old(governor.portfolio.View()).pending - {e.rid}
    {
      hide RunOps, LegalRun, Grants, OpenOk, OpenedTrade, EntryRisk, EntryCapital, NetOf, AllClosedOk, TradesSorted,
           TradesAgree;
      var riskInr := EntryRisk(exec);
      var capitalUsed := EntryCapital(w, exec);
      var tradeId := TradeId(tradeCounter + 1);
      var t := OpenedTrade(tradeId, index, e, exec);
      OpenedTradeOk(tradeId, index, e, exec);
      TradeOpened(governor.portfolio.View(), openTrades, tradeCounter, t, e.rid, capitalUsed, riskInr, w.ts(index));
      Activate(e.rid, tradeId, capitalUsed, riskInr, w.ts(index));
      tradeCounter := tradeCounter + 1;
      openTrades := openTrades + [t];
    }

    // ----- Open trades -----

    /** Follows one trade through a bar: mark, exit trigger, and at most one exit fill. */
    method ManageTrade(index: int, trade: Trade) returns (t: Trade, stays: bool)
      requires LedgerOk() && OpenOk(trade) && trade.id in governor.portfolio.View().open
      requires AllClosedOk(closedTrades) && governor.portfolio.View().realizedPnL == NetOf(closedTrades)
      modifies this`closedTrades, this`cooldownUntil, this`ops, governor.portfolio
      ensures LedgerOk()
      ensures AllClosedOk(closedTrades) && governor.portfolio.View().realizedPnL == NetOf(closedTrades)
      ensures (t, !stays) == ThroughBar(w, index, trade)
      ensures stays ==> OpenOk(t) && State() == old(State())
      ensures !stays ==>
                && State() ==
                   Finished(w, old(State()), index, t).(cooldownUntil := CooldownAfter(w, old(cooldownUntil), index, t))
                && closedTrades == old(closedTrades) + [t]
                && governor.portfolio.View().open == old(governor.portfolio.View()).open - {t.id}
                && governor.portfolio.View().pending == old(governor.portfolio.View()).pending
    {
      hide TakeFill, TradeOk, Mark, Recalculated, Drawdown, Finished, CooldownAfter, Equity, Free, Observed, Decide,
           RunOps, LegalRun, Grants, Exited, OpenOk, ClosedOk, OneMoreFill, NetOf, AllClosedOk;
      ThroughBarKeepsAccounts(w, index, trade);
      t, stays := trade, true;
      var ltp := w.ltp(index, t);
      if ltp.Some? && ltp.value > 0.0 {
        t := t.(lastLtp := ltp.value);
      }
      if t.pendingExit.None? {
        var trigger := w.exitTrigger(index, t);
        if trigger.Some? {
          t := t.(pendingExit := Some(PendingExit(index + w.latency, trigger.value)));
        }
      }
      if t.pendingExit.Some? && t.pendingExit.value.executeAtIdx <= index {
        t := ExitFill(index, t);
        if t.qty <= 0 {
          RetireTrade(t, index);
          stays := false;
        } else {
          t := t.(pendingExit := None);
        }
      }
    }

    /** The fill simulator decides price and quantity; never more than what is left is taken. */
    method ExitFill(index: int, trade: Trade) returns (t: Trade)
      requires trade.pendingExit.Some?
      ensures t == Exited(w, index, trade)
    {
      t := trade;
      var (exitPrice, execQty) := w.exitExec(index, t, t.pendingExit.value.basePx);
      var filledQty := MaxInt(0, MinInt(t.qty, execQty));
      if filledQty > 0 {
        var cost := w.cost(TicketOf(t), (t.entryPrice + exitPrice) / 2.0, filledQty);
        t := TakeFill(t, index, exitPrice, filledQty, cost);
      }
    }

    /** A losing trade puts its strategy on hold for a while. */
    method RetireTrade(t: Trade, index: int)
      requires LedgerOk() && ClosedOk(t) && t.id in governor.portfolio.View().open
      requires AllClosedOk(closedTrades) && governor.portfolio.View().realizedPnL == NetOf(closedTrades)
      modifies this`closedTrades, this`cooldownUntil, this`ops, governor.portfolio
      ensures LedgerOk()
      ensures AllClosedOk(closedTrades) && governor.portfolio.View().realizedPnL == NetOf(closedTrades)
      ensures State() ==
              Finished(w, old(State()), index, t).(cooldownUntil := CooldownAfter(w, old(cooldownUntil), index, t))
      ensures closedTrades == old(closedTrades) + [t]
      ensures governor.portfolio.View().open == old(governor.portfolio.View()).open - {t.id}
      ensures governor.portfolio.View().pending == old(governor.portfolio.View()).pending
    {
      hide Finished, RunOps, LegalRun, Grants, ClosedOk, OpenOk, NetOf, AllClosedOk, Observed, Decide, Equity, Free;
      FinishTrade(t, index);
      if w.cooldownCandles > 0 && t.realizedNet < 0.0 {
        cooldownUntil := cooldownUntil[t.strategyId := index + w.cooldownCandles];
      }
    }

    method FinishTrade(t: Trade, index: int)
      requires LedgerOk() && ClosedOk(t) && t.id in governor.portfolio.View().open
      requires AllClosedOk(closedTrades) && governor.portfolio.View().realizedPnL == NetOf(closedTrades)
      modifies this`closedTrades, this`ops, governor.portfolio
      ensures LedgerOk()
      ensures AllClosedOk(closedTrades) && governor.portfolio.View().realizedPnL == NetOf(closedTrades)
      ensures State() == Finished(w, old(State()), index, t) && closedTrades == old(closedTrades) + [t]
      ensures governor.portfolio.View().open == old(governor.portfolio.View()).open - {t.id}
      ensures governor.portfolio.View().pending == old(governor.portfolio.View()).pending
    {
      hide RunOps, LegalRun, Grants, ClosedOk, OpenOk, NetOf, Observed, Decide;
      Close(t.id, w.ts(index), t.realizedNet);
      NetSnoc(closedTrades, t);
      closedTrades := closedTrades + [t];
    }

    method ManageOpenTrades(index: int)
      requires LedgerOk() && TradesOk() && EntriesOk(index + 1, index, index + 1) && Traced()
      modifies this`openTrades, this`closedTrades, this`cooldownUntil, this`ops, governor.portfolio
      ensures LedgerOk() && TradesOk() && EntriesOk(index + 1, index, index + 1) && Traced()
      ensures State() == Managed(w, old(State()), index, [], old(openTrades))
    {
      hide RunOps, LegalRun, Grants, OpenOk, ClosedOk, NetOf, AllClosedOk, TradesAgree, TradesSorted, EntriesInv,
           ThroughBar, ResolvedAsFilled, Finished, CooldownAfter, Equity, Free, Observed, Decide, OneMoreFill, Managed;
      var nextOpen: seq<Trade>, rest := [], openTrades;
      assert nextOpen + rest == openTrades;
      while rest != []
        invariant LedgerOk() && EntriesOk(index + 1, index, index + 1)
        invariant TradesAgree(governor.portfolio.View(), nextOpen + rest) && TradesSorted(nextOpen + rest, tradeCounter)
        invariant AllClosedOk(closedTrades) && governor.portfolio.View().realizedPnL == NetOf(closedTrades)
        invariant Managed(w, State(), index, nextOpen, rest) == Managed(w, old(State()), index, [], old(openTrades))
        decreases |rest|
      {
        var trade := rest[0];
        ghost var l := governor.portfolio.View();
        assert nextOpen + rest == nextOpen + [trade] + rest[1..];
        MemberOfMiddle(governor.portfolio.View(), nextOpen, trade, rest[1..], tradeCounter);
        ThroughBarKeepsAccounts(w, index, trade);
        ManagedStep(w, State(), index, nextOpen, rest);
        var t, stays := ManageTrade(index, trade);
        if stays {
          ReplaceMiddle(governor.portfolio.View(), nextOpen, trade, t, rest[1..], tradeCounter);
          nextOpen := nextOpen + [t];
        }
        EntriesFollowPending(l, governor.portfolio.View(), pendingEntries, admitted, resolved, w.latency,
                             index + 1, index, index + 1);
        rest := rest[1..];
      }
      assert nextOpen + rest == nextOpen;
      NothingManaged(w, State(), index, nextOpen);
      openTrades := nextOpen;
    }

    method Remark(ts: int, marks: seq<(Id, real)>)
      requires LedgerOk()
      modifies this`ops, governor.portfolio
      ensures LedgerOk()
      ensures governor.portfolio.View() == Mark(old(governor.portfolio.View()), ts, LastMarks(marks))
    {
      hide RunOps, LegalRun, Grants, LastMarks, Observed, Decide;
      RunOpsSnoc(governor.config, Start(), ops, MarkAll(ts, LastMarks(marks)));
      ops := ops + [MarkAll(ts, LastMarks(marks))];
      governor.portfolio.UpdateMarks(ts, marks);
    }

    method MarkToMarket(index: int)
      requires LedgerOk() && TradesOk() && EntriesOk(index + 1, index, index + 1)
      modifies this`ops, governor.portfolio
      ensures LedgerOk() && TradesOk() && EntriesOk(index + 1, index, index + 1)
      ensures Equity(governor.portfolio.View()) ==
              governor.config.initialCapital + NetOf(closedTrades) + OpenPnl(openTrades)
      ensures State() == MarkedSim(w, old(State()), index)
    {
      hide RunOps, LegalRun, Grants, EntriesInv, TradesAgree, TradesSorted, AllClosedOk, NetOf, OpenPnl, LastMarks,
           Mark, MarksOf, Equity, Free;
      ghost var l := governor.portfolio.View();
      MarkedLedger(l, openTrades, tradeCounter, w.ts(index));
      Remark(w.ts(index), MarksOf(openTrades));
      EntriesFollowPending(l, governor.portfolio.View(), pendingEntries, admitted, resolved, w.latency,
                           index + 1, index, index + 1);
      RealizedIsClosed(governor.config, Start(), ops);
    }

    // ----- New signals -----

    /** The governor's view of a signal; the second look at the halt state changes nothing more. */
    method Preview(index: int, s: Signal) returns (v: Verdict)
      requires LedgerOk()
      modifies this`ops, governor.portfolio
      ensures LedgerOk()
      ensures governor.portfolio.View() == Observed(governor.config, old(governor.portfolio.View()), w.ts(index))
      ensures v == VerdictOn(w, governor.config, governor.portfolio.View(), s, index)
    {
      hide RunOps, LegalRun, Grants;
      ghost var l := governor.portfolio.View();
      ObservedTotals(governor.config, l, w.ts(index));
      v := Rejected(MissingTradedCandle);
      if !s.candleMissing {
        v := governor.PreviewPosition(w.ts(index), s.request);
      }
      var haltState := governor.GetHaltState(w.ts(index));
      RunOpsSnoc(governor.config, Start(), ops, Look(w.ts(index)));
      ops := ops + [Look(w.ts(index))];
    }

    method ReserveEntry(e: Entry, ts: int, request: Request, preview: Verdict)
      requires LedgerOk() && e.rid !in governor.portfolio.View().pending
      requires Observed(governor.config, governor.portfolio.View(), ts) == governor.portfolio.View()
      requires preview == Decide(governor.config, governor.portfolio.View(), ts, request) && preview.Accepted?
      requires e.qty == preview.sizing.qty
      modifies this`admitted, this`ops, governor.portfolio
      ensures LedgerOk() && admitted == old(admitted) + [e]
      ensures governor.portfolio.View() == Reserve(old(governor.portfolio.View()), e.rid, Held(preview.sizing))
    {
      hide RunOps, LegalRun, Grants, Granted, GrantsOf, Decide, Observed, Reserve, Apply;
      RunOpsSnoc(governor.config, Start(), ops, Admit(e.rid, ts, request));
      GrantJoins(governor.config, governor.portfolio.View(), admitted, e, ts, request);
      ops := ops + [Admit(e.rid, ts, request)];
      admitted := admitted + [e];
      governor.ReservePosition(e.rid, preview);
    }

    method ConsiderSignal(index: int)
      requires index >= 0 && LedgerOk() && TradesOk() && EntriesOk(index + 1, index, index + 1)
      modifies this`pendingEntries, this`admitted, this`ops, governor.portfolio
      ensures LedgerOk() && TradesOk() && EntriesOk(index + 1, index + 1, index + 1)
      ensures State() == Signalled(w, governor.config, old(State()), index)
    {
      hide RunOps, LegalRun, Grants, Decide, Observed, EntriesInv, TradesAgree, TradesSorted, AllClosedOk, NetOf,
           Equity, Free, HaltReasons;
      var sig := w.signal(index);
      if sig.None? {
        NoEntryJoins(governor.portfolio.View(), pendingEntries, admitted, resolved, w.latency, index);
        return;
      }
      var s := sig.value;
      ghost var l := governor.portfolio.View();
      ObservedTotals(governor.config, l, w.ts(index));
      var preview := Preview(index, s);
      LookKeeps(governor.config, l, w.ts(index), openTrades);
      EntriesFollowPending(l, governor.portfolio.View(), pendingEntries, admitted, resolved, w.latency,
                           index + 1, index, index + 1);
      var until := if s.strategyId in cooldownUntil && cooldownUntil[s.strategyId] != 0
                   then cooldownUntil[s.strategyId] else -1;
      assert until >= index <==> CooldownBlocks(cooldownUntil, s, index);
      var reason := DetermineAdmissionReason(w, s, until >= index, preview);
      if reason == AcceptedEntry {
        AdmitEntry(index, s, preview);
      } else {
        NoEntryJoins(governor.portfolio.View(), pendingEntries, admitted, resolved, w.latency, index);
      }
    }

    method AdmitEntry(index: int, s: Signal, preview: Verdict)
      requires index >= 0 && LedgerOk() && TradesOk() && EntriesOk(index + 1, index, index + 1)
      requires Observed(governor.config, governor.portfolio.View(), w.ts(index)) == governor.portfolio.View()
      requires preview == Decide(governor.config, governor.portfolio.View(), w.ts(index), s.request)
               && preview.Accepted?
      modifies this`pendingEntries, this`admitted, this`ops, governor.portfolio
      ensures LedgerOk() && TradesOk() && EntriesOk(index + 1, index + 1, index + 1)
      ensures var e := EntryFor(w, s, index, |old(pendingEntries)|, preview.sizing.qty);
              && pendingEntries == old(pendingEntries) + [e] && admitted == old(admitted) + [e]
              && governor.portfolio.View() == Reserve(old(governor.portfolio.View()), e.rid, Held(preview.sizing))
    {
      hide RunOps, LegalRun, Grants, Decide, Observed, EntriesInv, TradesSorted, AllClosedOk, NetOf, Equity, Free;
      var rid := ReservationId(index, |pendingEntries|);
      var e := Entry(rid, index, index + w.latency, s.side, preview.sizing.qty, s.strategyId);
      ghost var o, before := governor.portfolio.View(), admitted;
      NewEntryIsFresh(o, pendingEntries, admitted, resolved, w.latency, index, e);
      ReserveEntry(e, w.ts(index), s.request, preview);
      EntryJoins(o, governor.portfolio.View(), pendingEntries, before, resolved, w.latency, index, e,
                 Held(preview.sizing));
      pendingEntries := pendingEntries + [e];
    }

    /** The main loop; bars of the warm-up only feed the strategy. */
    method AllBars()
      requires LedgerOk() && TradesOk() && EntriesOk(0, 0, 0) && Traced() && State() == StartSim(governor.config)
      modifies this, governor.portfolio
      ensures LedgerOk() && TradesOk() && EntriesOk(w.bars, w.bars, w.bars) && Traced()
      ensures State() == BarsSim(w, governor.config, w.bars)
    {
      hide BarSim, RunOps, LegalRun, Grants, EntriesInv, TradesAgree, TradesSorted, AllClosedOk, NetOf,
           ResolvedAsFilled;
      var index := 0;
      while index < w.bars
        invariant 0 <= index <= w.bars
        invariant LedgerOk() && TradesOk() && EntriesOk(index, index, index) && Traced()
        invariant State() == BarsSim(w, governor.config, index)
        invariant index <= w.warmup ==> pendingEntries == []
      {
        if index >= w.warmup {
          Bar(index);
        } else {
          SkippedBar(governor.portfolio.View(), admitted, resolved, w.latency, index);
        }
        index := index + 1;
      }
    }

    // ----- The end of the data -----

    /** Drops what is still pending, closes what can be closed at the last price, and marks the rest at zero. */
    method CloseOut() returns (dropped: seq<Entry>, openAtEnd: seq<Trade>)
      requires w.bars >= 1 && LedgerOk() && TradesOk() && EntriesOk(w.bars, w.bars, w.bars)
      modifies this`pendingEntries, this`openTrades, this`closedTrades, this`ops, governor.portfolio
      ensures LedgerOk() && AllClosedOk(closedTrades)
      ensures governor.portfolio.View().pending == map[]
      ensures governor.portfolio.View().open == map[] <==> w.close(w.bars - 1) > 0.0 || openAtEnd == []
      ensures admitted == EntriesOf(resolved) + dropped && dropped == old(pendingEntries)
      ensures openAtEnd == old(openTrades) && AllOpenOk(openAtEnd)
      ensures Equity(governor.portfolio.View()) == governor.config.initialCapital + NetOf(closedTrades)
      ensures State() == ClosedOut(w, old(State()))
    {
      hide Unreserved, AllSold, RunOps, LegalRun, Grants, AllClosedOk, AllOpenOk, TradesSorted, EntriesSorted,
           EntriesOf, OpenOk, NetOf;
      hide Mark, Equity, Free, Observed, Decide, TradesAgree;
      dropped, openAtEnd := pendingEntries, openTrades;
      SortedAreOpen(openTrades, tradeCounter);
      DropAll();
      CloseAll();
      ghost var l := governor.portfolio.View();
      MarkAtEntry(w.ts(w.bars - 1));
      FlatIff(l, governor.portfolio.View(), openTrades);
    }

    /** Marking nothing leaves every position at its entry: equity is then what has been realized. */
    method MarkAtEntry(ts: int)
      requires LedgerOk()
      modifies this`ops, governor.portfolio
      ensures LedgerOk() && governor.portfolio.View() == Mark(old(governor.portfolio.View()), ts, map[])
      ensures governor.portfolio.View().open.Keys == old(governor.portfolio.View()).open.Keys
      ensures governor.portfolio.View().pending == old(governor.portfolio.View()).pending
      ensures Equity(governor.portfolio.View()) ==
              governor.config.initialCapital + old(governor.portfolio.View()).realizedPnL
    {
      hide RunOps, LegalRun, Grants, Observed, Decide;
      ghost var l := governor.portfolio.View();
      RunOpsSnoc(governor.config, Start(), ops, MarkAll(ts, map[]));
      ops := ops + [MarkAll(ts, map[])];
      governor.portfolio.UpdateMarks(ts, []);
      SumOfZeros(governor.portfolio.View().open);
      assert governor.portfolio.View().open == Marked(l.open, map[], ts);
      RealizedIsClosed(governor.config, Start(), ops);
    }

    method DropAll()
      requires LedgerOk() && TradesOk()
      requires EntriesAgree(governor.portfolio.View(), pendingEntries) && EntriesSorted(pendingEntries, w.latency)
      modifies this`pendingEntries, this`ops, governor.portfolio
      ensures LedgerOk() && TradesOk() && governor.portfolio.View().pending == map[]
      ensures State() ==
              old(State()).(ledger := Unreserved(old(governor.portfolio.View()), old(pendingEntries)), pending := [])
    {
      hide RunOps, LegalRun, Grants;
      while pendingEntries != []
        invariant LedgerOk() && TradesOk()
        invariant Unreserved(governor.portfolio.View(), pendingEntries) ==
                  Unreserved(old(governor.portfolio.View()), old(pendingEntries))
        invariant EntriesAgree(governor.portfolio.View(), pendingEntries) && EntriesSorted(pendingEntries, w.latency)
        decreases |pendingEntries|
      {
        ghost var l := governor.portfolio.View();
        DropFirstEntry(l, pendingEntries, w.latency);
        DropReservation(pendingEntries[0].rid);
        EntryLeaves(l, governor.portfolio.View(), pendingEntries, w.latency);
        pendingEntries := pendingEntries[1..];
      }
      assert Rids([]) == [];
    }

    method CloseAll()
      requires w.bars >= 1 && LedgerOk() && TradesOk()
      modifies this`openTrades, this`closedTrades, this`ops, governor.portfolio
      ensures LedgerOk() && AllClosedOk(closedTrades) && governor.portfolio.View().realizedPnL == NetOf(closedTrades)
      ensures governor.portfolio.View().pending == old(governor.portfolio.View()).pending
      ensures TradesAgree(governor.portfolio.View(), openTrades)
      ensures openTrades == if w.close(w.bars - 1) > 0.0 then [] else old(openTrades)
      ensures State() == AllSold(w, old(State()), w.close(w.bars - 1))
    {
      hide RunOps, LegalRun, Grants, Finished, SoldOut;
      var exitPrice := w.close(w.bars - 1);
      if exitPrice <= 0.0 {
        return;
      }
      while openTrades != []
        invariant LedgerOk() && TradesOk()
        invariant governor.portfolio.View().pending == old(governor.portfolio.View()).pending
        invariant AllSold(w, State(), exitPrice) == AllSold(w, old(State()), exitPrice)
        decreases |openTrades|
      {
        CloseFirst(exitPrice);
      }
    }

    method CloseFirst(exitPrice: real)
      requires LedgerOk() && TradesOk() && openTrades != []
      modifies this`openTrades, this`closedTrades, this`ops, governor.portfolio
      ensures LedgerOk() && TradesOk() && openTrades == old(openTrades)[1..]
      ensures State() ==
              Finished(w, old(State()), w.bars - 1,
                       SoldOut(w, old(openTrades)[0], exitPrice)).(open := old(openTrades)[1..])
      ensures governor.portfolio.View().pending == old(governor.portfolio.View()).pending
    {
      hide Finished, Equity, Free, Observed, Decide, RunOps, LegalRun, Grants, TakeFill, OpenOk, ClosedOk, NetOf,
           AllClosedOk, TradesAgree, TradesSorted;
      var t, last := openTrades[0], w.bars - 1;
      assert openTrades == [] + [t] + openTrades[1..] && [] + openTrades[1..] == openTrades[1..];
      MemberOfMiddle(governor.portfolio.View(), [], t, openTrades[1..], tradeCounter);
      var cost := w.cost(TicketOf(t), (t.entryPrice + exitPrice) / 2.0, t.qty);
      TakeAllCloses(t, last, exitPrice, cost);
      FinishTrade(TakeFill(t, last, exitPrice, t.qty, cost), last);
      openTrades := openTrades[1..];
    }

    /** One bar past the warm-up. */
    method Bar(index: nat)
      requires LedgerOk() && TradesOk() && EntriesOk(index, index, index) && Traced()
      modifies this, governor.portfolio
      ensures LedgerOk() && TradesOk() && EntriesOk(index + 1, index + 1, index + 1) && Traced()
      ensures State() == BarSim(w, governor.config, old(State()), index)
      ensures Equity(governor.portfolio.View()) ==
              governor.config.initialCapital + NetOf(closedTrades) + OpenPnl(openTrades)
    {
      hide DueResolved, Managed, Signalled, MarkedSim;
      hide RunOps, LegalRun, Grants, Decide, Observed, EntriesInv, TradesAgree, TradesSorted, AllClosedOk, NetOf,
           ResolvedAsFilled, Equity, OpenPnl, EntriesOf;
      ProcessDueEntries(index);
      ManageOpenTrades(index);
      MarkToMarket(index);
      SignalKeepsEquity(w, governor.config, State(), index);
      ConsiderSignal(index);
    }
  }

  lemma {:induction false} SumOfZeros(m: map<Id, Position>)
    requires forall k :: k in m ==> m[k].unrealizedPnL == 0.0
    ensures Sum(m, MarkOf) == 0.0
    decreases |m|
  {
    if m != map[] {
      var k :| k in m;
      SumSplit(m, MarkOf, k);
      SumOfZeros(m - {k});
    }
  }

  lemma FlatIff(l: Ledger, l': Ledger, ts: seq<Trade>)
    requires TradesAgree(l, ts) && l'.open.Keys == l.open.Keys
    ensures l'.open == map[] <==> ts == []
  {
    if ts != [] {
      assert Tids(ts)[0] in l.open;
    } else {
      assert Tids(ts) == [];
      assert l.open == map[];
    }
  }

  /** The trades no price was there to close. */
  function LeftOpen(w: World, r: Report): seq<Trade> {
    if w.close(w.bars - 1) > 0.0 then [] else r.openAtEnd
  }

  /** What a finished run guarantees. */
  ghost predicate RunFacts(w: World, cfg: Config, r: Report, ops: seq<Op>) {
    var start := InitialLedger(cfg.initialCapital);
    && LegalRun(cfg, start, ops)
    && var final := RunOps(cfg, start, ops);
       && r.openPositions == final.open && r.pendingReservations == final.pending == map[]
       && r.equity == Equity(final) == cfg.initialCapital + NetOf(r.closed)
       && AllClosedOk(r.closed) && AllOpenOk(LeftOpen(w, r))
       // each closed trade's result is what its fills gained less what they cost
       && AllNet(w, r.closed)
       // the entries are what the governor admitted, in order, each in the quantity it accepted
       && Grants(cfg, start, ops) == GrantsOf(r.admitted)
       // every one of them is resolved exactly once, on its own bar, or the data ends first
       && r.admitted == EntriesOf(r.resolved) + r.dropped
       && EntriesSorted(r.admitted, w.latency)
       && ResolvedOnTime(r.resolved, w.latency)
       && (forall i :: 0 <= i < |r.resolved| ==> r.resolved[i].bar < w.bars)
       // it opens a trade exactly when it is filled: the trades, closed or left open, are those of the filled entries
       && ResolvedAsFilled(w, r.resolved)
       && multiset(Tickets(r.closed)) + multiset(Tickets(LeftOpen(w, r))) == multiset(OpenedTickets(w, r.resolved))
       && (forall i :: 0 <= i < |r.dropped| ==> r.dropped[i].signalIdx + Wait(w.latency) >= w.bars)
       // the run ends flat exactly when the last price is positive or nothing was open
       && (r.openPositions == map[] <==> w.close(w.bars - 1) > 0.0 || r.openAtEnd == [])
  }

  /** The report shows the bars of the data, one after the other, and then the close-out. */
  ghost predicate ReportOf(w: World, cfg: Config, r: Report)
    requires w.bars >= 1
  {
    var s := BarsSim(w, cfg, w.bars);
    var end := ClosedOut(w, s);
    && r.admitted == s.admitted && r.resolved == s.resolved && r.dropped == s.pending
    && r.openAtEnd == s.open && r.closed == end.closed
    && r.openPositions == end.ledger.open && r.pendingReservations == end.ledger.pending
    && r.equity == Equity(end.ledger)
  }

  method RunBacktest(w: World, config: Config) returns (r: Option<Report>, ghost ops: seq<Op>)
    ensures r.None? <==> w.bars == 0
    ensures r.Some? ==> RunFacts(w, Normalized(config), r.value, ops)
    ensures r.Some? ==> ReportOf(w, Normalized(config), r.value)
    ensures r.Some? ==> RunOps(Normalized(config), InitialLedger(config.initialCapital), ops) ==
                        ClosedOut(w, BarsSim(w, Normalized(config), w.bars)).ledger
  {
    hide BarsSim, ClosedOut, Tickets, OpenedTickets, AllNet, RunOps, LegalRun, Grants, EntriesSorted, ResolvedOnTime,
         ResolvedAsFilled, AllClosedOk, OpenOk, NetOf, EntriesOf, Equity, TradesAgree, TradesSorted;
    ops := [];
    if w.bars == 0 {
      return None, [];
    }
    var e := new Engine(w, config);
    e.AllBars();
    var dropped, openAtEnd := e.CloseOut();
    ops := e.ops;
    BarsTraded(w, Normalized(config), w.bars);
    ClosedOutTraded(w, BarsSim(w, Normalized(config), w.bars));
    RunKeepsNet(w, Normalized(config));
    r := Some(Report(e.admitted, e.resolved, dropped, openAtEnd, e.closedTrades, e.governor.portfolio.openPositions,
                     e.governor.portfolio.pendingReservations, e.governor.portfolio.currentEquity));
  }

  lemma SkippedBar(l: Ledger, admitted: seq<Entry>, resolved: seq<Resolution>, latency: nat, index: int)
    requires EntriesInv(l, [], admitted, resolved, latency, index, index, index)
    ensures EntriesInv(l, [], admitted, resolved, latency, index + 1, index + 1, index + 1)
  {
  }

  lemma {:induction false} LegalPrefix(cfg: Config, l: Ledger, ops: seq<Op>, n: nat)
    requires LegalRun(cfg, l, ops) && n <= |ops|
    ensures LegalRun(cfg, l, ops[..n])
    decreases n
  {
    if n > 0 {
      assert ops[..n][0] == ops[0] && ops[..n][1..] == ops[1..][..n - 1];
      LegalPrefix(cfg, Apply(cfg, l, ops[0]), ops[1..], n - 1);
    }
  }

  /** At every moment of a backtest, the caps on positions and on trades in a day hold. */
  lemma CapsThroughout(w: World, cfg: Config, r: Report, ops: seq<Op>, n: nat)
    requires RunFacts(w, cfg, r, ops) && n <= |ops|
    ensures var l := RunOps(cfg, InitialLedger(cfg.initialCapital), ops[..n]);
            && (cfg.maxConcurrentPositions > 0 ==> |l.open| + |l.pending| <= cfg.maxConcurrentPositions)
            && (cfg.maxConcurrentPositions > 0 && cfg.maxTradesPerDay > 0 ==>
                  l.tradesToday <= cfg.maxTradesPerDay + cfg.maxConcurrentPositions - 1)
  {
    LegalPrefix(cfg, InitialLedger(cfg.initialCapital), ops, n);
    CapsOverRuns(cfg, InitialLedger(cfg.initialCapital), ops[..n]);
  }
}

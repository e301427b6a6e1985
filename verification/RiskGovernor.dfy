/**
 Admission control of the backtest: sizing, halts, and the protocol that reserves, cancels,
 activates and closes positions.
 */
module RiskGovernors {
  import opened Common
  import opened Portfolio

  datatype Config = Config(
    initialCapital: real, capitalPerTrade: real, marginMultiplier: real, reserveBufferPct: real,
    riskPerTradeInr: real, riskPerTradePct: real,
    maxDailyLossInr: real, maxDrawdownInr: real, maxDrawdownPct: real,
    maxConsecutiveLosses: int, haltAfterConsecutiveLosses: int,
    maxTradesPerDay: int, maxConcurrentPositions: int, maxOpenRiskInr: real,
    entryCutoffMs: Option<int>, zoneOffsetMs: int,
    skipEntriesAfterDrawdownPct: real, skipEntriesAfterDrawdownInr: real)

  datatype Reason =
    | DailyLossHalt | MaxDrawdownHalt | MaxDrawdownPctHalt | MaxConsecutiveLossesHalt | MaxTradesPerDayHalt
    | MaxOpenRiskHalt | SkipOnDrawdownBlock | EntryCutoffBlock | MaxConcurrentBlock
    | InsufficientCapital | InsufficientRiskBudget | SizeBelowOneLot | MissingTradedCandle

  datatype QtyMode = LotBased | FixedQty | RiskBased | CapitalCapped | OtherMode

  datatype Request = Request(
    entryPrice: real, stopLoss: real, lotSize: int, mode: QtyMode,
    defaultQty: int, fixedQty: Option<int>, lotQty: Option<int>)

  datatype Sizing = Sizing(
    qty: int, lots: int, lotSize: int, requestedQty: int, riskInr: real, capitalUsed: real,
    capitalBudget: real, availableCapital: real, riskBudget: Option<real>)

  datatype Verdict = Rejected(reason: Reason) | Accepted(sizing: Sizing)

  // ----- Sizing -----

  function ClampPositive(v: int, fallback: int): int {
    if v <= 0 then fallback else v
  }

  function OrElse(o: Option<int>, d: int): int {
    if o.Some? then o.value else d
  }

  /** Floor of a quotient; the callers' guard for a non-positive divisor is `whenZero`. */
  function LotsWithin(budget: real, perLot: real): int
    requires perLot > 0.0
  {
    (budget / perLot).Floor
  }

  function CapitalBudget(cfg: Config, available: real): real {
    (if cfg.capitalPerTrade > 0.0 then MinReal(cfg.capitalPerTrade, available) else available)
    * (1.0 - cfg.reserveBufferPct / 100.0)
  }

  /** None is the unbounded budget of a configuration that sets no risk limit. */
  function RiskBudget(cfg: Config, equity: real): Option<real> {
    var pct := equity * cfg.riskPerTradePct / 100.0;
    if cfg.riskPerTradeInr > 0.0 then
      Some(if cfg.riskPerTradePct > 0.0 then MinReal(cfg.riskPerTradeInr, pct) else cfg.riskPerTradeInr)
    else if cfg.riskPerTradePct > 0.0 then Some(pct)
    else None
  }

  function LotSize(req: Request): int {
    ClampPositive(req.lotSize, 1)
  }

  function PerLotCapital(cfg: Config, req: Request): real {
    req.entryPrice * LotSize(req) as real * (if cfg.marginMultiplier == 0.0 then 1.0 else cfg.marginMultiplier)
  }

  function PerLotRisk(req: Request): real {
    AbsReal(req.entryPrice - req.stopLoss) * LotSize(req) as real
  }

  /** None is the unlimited intention of the two modes that size from the budget alone. */
  function IntendedQty(req: Request): Option<int> {
    match req.mode
    case LotBased => Some(ClampPositive(OrElse(req.lotQty, req.defaultQty), 1) * LotSize(req))
    case FixedQty => Some(ClampPositive(OrElse(req.fixedQty, req.defaultQty), LotSize(req)))
    case RiskBased => None
    case CapitalCapped => None
    case OtherMode => Some(ClampPositive(req.defaultQty, LotSize(req)))
  }

  function IntendedLots(req: Request): Option<int> {
    match IntendedQty(req)
    case None => None
    case Some(q) => Some(MaxInt(0, q / LotSize(req)))
  }

  function Capped(n: int, limit: Option<int>): int {
    if limit.Some? then MinInt(n, limit.value) else n
  }

  function MaxLotsByRisk(req: Request, riskBudget: Option<real>): Option<int> {
    if PerLotRisk(req) > 0.0 && riskBudget.Some? then Some(LotsWithin(riskBudget.value, PerLotRisk(req))) else None
  }

  function AllowedLots(byCapital: int, byAvailable: int, intended: Option<int>, byRisk: Option<int>): int {
    MaxInt(0, Capped(Capped(MinInt(byCapital, byAvailable), intended), byRisk))
  }

  function BuildSizingPreview(cfg: Config, equity: real, available: real, req: Request): (Sizing, Option<Reason>) {
    var lotSize := LotSize(req);
    var budget := CapitalBudget(cfg, available);
    var riskBudget := RiskBudget(cfg, if equity == 0.0 then cfg.initialCapital else equity);
    var perLotCapital, perLotRisk := PerLotCapital(cfg, req), PerLotRisk(req);
    var byCapital := if perLotCapital > 0.0 then LotsWithin(budget, perLotCapital) else 0;
    var byAvailable := if perLotCapital > 0.0 then LotsWithin(available, perLotCapital) else 0;
    var byRisk := MaxLotsByRisk(req, riskBudget);
    var lots := AllowedLots(byCapital, byAvailable, IntendedLots(req),
                            if req.mode == CapitalCapped then None else byRisk);
    var qty := lots * lotSize;
    var sizing := Sizing(qty, lots, lotSize, OrElse(IntendedQty(req), qty), perLotRisk * lots as real,
                         perLotCapital * lots as real, budget, available, riskBudget);
    var reason :=
      if qty >= lotSize then None
      else if byCapital < 1 || byAvailable < 1 then Some(InsufficientCapital)
      else if byRisk.Some? && byRisk.value < 1 then Some(InsufficientRiskBudget)
      else Some(SizeBelowOneLot);
    (sizing, reason)
  }

  function BudgetFor(cfg: Config, equity: real, req: Request): Option<real> {
    if req.mode == CapitalCapped then None
    else RiskBudget(cfg, if equity == 0.0 then cfg.initialCapital else equity)
  }

  /** A position of `lots` lots respects every bound the mode imposes. */
  ghost predicate Fits(cfg: Config, equity: real, available: real, req: Request, lots: int) {
    Within(CapitalBudget(cfg, available), available, PerLotCapital(cfg, req),
           BudgetFor(cfg, equity, req), PerLotRisk(req), IntendedLots(req), lots)
  }

  ghost predicate Within(
      budget: real, available: real, capital: real, riskBudget: Option<real>, risk: real, intended: Option<int>,
      lots: int) {
    && capital * lots as real <= budget
    && capital * lots as real <= available
    && (riskBudget.Some? && risk > 0.0 ==> risk * lots as real <= riskBudget.value)
    && (intended.Some? ==> lots <= intended.value)
  }

  lemma LotsWithinExact(budget: real, perLot: real, n: int)
    requires perLot > 0.0
    ensures n <= LotsWithin(budget, perLot) <==> perLot * n as real <= budget
  {
    var q := budget / perLot;
    assert n <= q.Floor <==> n as real <= q;
    assert perLot * q == budget;
    if n as real <= q {
      MulMono(perLot, n as real, q);
    } else {
      MulMonoStrict(perLot, q, n as real);
    }
  }

  lemma LotsFit(
      budget: real, available: real, capital: real, riskBudget: Option<real>, risk: real, intended: Option<int>, n: int)
    requires capital > 0.0 && n >= 1
    ensures var byRisk := if risk > 0.0 && riskBudget.Some? then Some(LotsWithin(riskBudget.value, risk)) else None;
            n <= AllowedLots(LotsWithin(budget, capital), LotsWithin(available, capital), intended, byRisk) <==>
            Within(budget, available, capital, riskBudget, risk, intended, n)
  {
    LotsWithinExact(budget, capital, n);
    LotsWithinExact(available, capital, n);
    if risk > 0.0 && riskBudget.Some? {
      LotsWithinExact(riskBudget.value, risk, n);
    }
  }

  lemma LotsFitRequest(cfg: Config, equity: real, available: real, req: Request, n: int)
    requires PerLotCapital(cfg, req) > 0.0 && n >= 1
    ensures n <= BuildSizingPreview(cfg, equity, available, req).0.lots <==> Fits(cfg, equity, available, req, n)
  {
    LotsFit(CapitalBudget(cfg, available), available, PerLotCapital(cfg, req),
            BudgetFor(cfg, equity, req), PerLotRisk(req), IntendedLots(req), n);
  }

  /**
   * The number of lots chosen is exactly the largest one that fits, and a request is refused when not even one does.
   */
  lemma SizingOptimal(cfg: Config, equity: real, available: real, req: Request)
    requires PerLotCapital(cfg, req) > 0.0
    ensures var (s, reason) := BuildSizingPreview(cfg, equity, available, req);
            && (reason == None <==> Fits(cfg, equity, available, req, 1))
            && s.qty == s.lots * s.lotSize && s.lots >= 0
            && s.capitalUsed == PerLotCapital(cfg, req) * s.lots as real
            && s.riskInr == PerLotRisk(req) * s.lots as real
            && forall n :: n >= 1 ==> (n <= s.lots <==> Fits(cfg, equity, available, req, n))
  {
    var lots := BuildSizingPreview(cfg, equity, available, req).0.lots;
    forall n | n >= 1
      ensures n <= lots <==> Fits(cfg, equity, available, req, n)
    {
      LotsFitRequest(cfg, equity, available, req, n);
    }
    RefusedBelowOneLot(cfg, equity, available, req);
  }

  lemma RefusedBelowOneLot(cfg: Config, equity: real, available: real, req: Request)
    ensures var (s, reason) := BuildSizingPreview(cfg, equity, available, req);
            reason == None <==> s.lots >= 1
  {
    var (s, _) := BuildSizingPreview(cfg, equity, available, req);
    WholeLots(s.lots, s.lotSize);
  }

  lemma WholeLots(lots: nat, lotSize: int)
    requires lotSize >= 1
    ensures lots * lotSize >= lotSize <==> lots >= 1
  {
    if lots >= 1 {
      assert (lots - 1) * lotSize >= 0;
      assert lots * lotSize == (lots - 1) * lotSize + lotSize;
    }
  }

  /** A price that is not positive never sizes: there is no capital to divide by. */
  lemma WorthlessNeverSizes(cfg: Config, equity: real, available: real, req: Request)
    requires PerLotCapital(cfg, req) <= 0.0
    ensures BuildSizingPreview(cfg, equity, available, req).1 == Some(InsufficientCapital)
  {
    var (s, _) := BuildSizingPreview(cfg, equity, available, req);
    WholeLots(s.lots, s.lotSize);
  }

  /** What an accepted size leaves free is at least the configured buffer share. */
  lemma BufferLeftFree(cfg: Config, equity: real, available: real, req: Request)
    requires 0.0 <= cfg.reserveBufferPct <= 100.0 && available >= 0.0
    requires PerLotCapital(cfg, req) > 0.0
    requires BuildSizingPreview(cfg, equity, available, req).1 == None
    ensures available - BuildSizingPreview(cfg, equity, available, req).0.capitalUsed >=
            available * cfg.reserveBufferPct / 100.0
  {
    UsedWithinBudget(cfg, equity, available, req);
    BudgetWithinShare(cfg, available);
  }

  lemma UsedWithinBudget(cfg: Config, equity: real, available: real, req: Request)
    requires PerLotCapital(cfg, req) > 0.0
    requires BuildSizingPreview(cfg, equity, available, req).1 == None
    ensures BuildSizingPreview(cfg, equity, available, req).0.capitalUsed <= CapitalBudget(cfg, available)
  {
    SizingOptimal(cfg, equity, available, req);
    assert Fits(cfg, equity, available, req, BuildSizingPreview(cfg, equity, available, req).0.lots);
  }

  lemma BudgetWithinShare(cfg: Config, available: real)
    requires 0.0 <= cfg.reserveBufferPct <= 100.0 && available >= 0.0
    ensures CapitalBudget(cfg, available) <= available - available * cfg.reserveBufferPct / 100.0
  {
    var share := 1.0 - cfg.reserveBufferPct / 100.0;
    var base := if cfg.capitalPerTrade > 0.0 then MinReal(cfg.capitalPerTrade, available) else available;
    MulMono(share, base, available);
    assert share * available == available - available * cfg.reserveBufferPct / 100.0;
  }

  // ----- Halts and admission -----

  function AfterCutoff(cfg: Config, ts: int): bool {
    cfg.entryCutoffMs.Some? && (ts + cfg.zoneOffsetMs) % MS_PER_DAY >= cfg.entryCutoffMs.value
  }

  function LossHaltThreshold(cfg: Config): int {
    if cfg.haltAfterConsecutiveLosses != 0 then cfg.haltAfterConsecutiveLosses else cfg.maxConsecutiveLosses
  }

  function When(b: bool, r: Reason): seq<Reason> {
    if b then [r] else []
  }

  /** The halt reasons in the order they are checked; the first one is reported. */
  function HaltReasonsOf(
      cfg: Config, dailyPnL: real, peak: real, drawdown: real, losses: nat, trades: nat, openRisk: real): seq<Reason> {
    var dailyLoss := AbsReal(MinReal(0.0, dailyPnL));
    var pct := DrawdownPct(peak, drawdown);
    When(cfg.maxDailyLossInr > 0.0 && dailyLoss >= cfg.maxDailyLossInr, DailyLossHalt)
    + When(cfg.maxDrawdownInr > 0.0 && drawdown >= cfg.maxDrawdownInr, MaxDrawdownHalt)
    + When(cfg.maxDrawdownPct > 0.0 && pct >= cfg.maxDrawdownPct, MaxDrawdownPctHalt)
    + When(LossHaltThreshold(cfg) > 0 && losses >= LossHaltThreshold(cfg), MaxConsecutiveLossesHalt)
    + When(cfg.maxTradesPerDay > 0 && trades >= cfg.maxTradesPerDay, MaxTradesPerDayHalt)
    + When(cfg.maxOpenRiskInr > 0.0 && openRisk >= cfg.maxOpenRiskInr, MaxOpenRiskHalt)
    + When(cfg.skipEntriesAfterDrawdownInr > 0.0 && drawdown >= cfg.skipEntriesAfterDrawdownInr, SkipOnDrawdownBlock)
    + When(cfg.skipEntriesAfterDrawdownPct > 0.0 && pct >= cfg.skipEntriesAfterDrawdownPct, SkipOnDrawdownBlock)
  }

  ghost function HaltReasons(cfg: Config, l: Ledger): seq<Reason> {
    HaltReasonsOf(cfg, l.dailyPnL, l.peakEquity, Drawdown(l), l.consecutiveLosses, l.tradesToday, OpenRisk(l))
  }

  /** The ledger after its halt state has been looked at. */
  ghost function Observed(cfg: Config, l: Ledger, ts: int): Ledger {
    var r := Recalculated(OnDay(l, ts));
    r.(dailyLossHit := DailyLossHalt in HaltReasons(cfg, r),
       dailyTradeLimitHit := MaxTradesPerDayHalt in HaltReasons(cfg, r))
  }

  /** The verdict on an observed ledger. */
  ghost function Decide(cfg: Config, l: Ledger, ts: int, req: Request): Verdict {
    var reasons := HaltReasons(cfg, l);
    var (sizing, reason) := BuildSizingPreview(cfg, Equity(l), Free(l), req);
    if reasons != [] then Rejected(reasons[0])
    else if AfterCutoff(cfg, ts) then Rejected(EntryCutoffBlock)
    else if cfg.maxConcurrentPositions > 0 && |l.open| + |l.pending| >= cfg.maxConcurrentPositions then
      Rejected(MaxConcurrentBlock)
    else if reason.Some? then Rejected(reason.value)
    else if cfg.maxOpenRiskInr > 0.0 && OpenRisk(l) + sizing.riskInr > cfg.maxOpenRiskInr then Rejected(MaxOpenRiskHalt)
    else Accepted(sizing)
  }

  function Held(s: Sizing): Reservation {
    Reservation(s.capitalUsed, s.riskInr)
  }

  lemma ObservedTotals(cfg: Config, l: Ledger, ts: int)
    ensures var o := Observed(cfg, l, ts);
            && o.open == l.open && o.pending == l.pending && Equity(o) == Equity(l) && Free(o) == Free(l)
            && HaltReasons(cfg, o) == HaltReasons(cfg, Recalculated(OnDay(l, ts)))
            && Recalculated(OnDay(o, ts)) == o && Observed(cfg, o, ts) == o
  {
  }

  /** A zero margin multiplier or position cap is read as one. */
  function Normalized(cfg: Config): Config {
    cfg.(marginMultiplier := if cfg.marginMultiplier == 0.0 then 1.0 else cfg.marginMultiplier,
         maxConcurrentPositions := if cfg.maxConcurrentPositions == 0 then 1 else cfg.maxConcurrentPositions)
  }

  class RiskGovernor {
    const config: Config
    const portfolio: PortfolioState

    constructor (cfg: Config)
      ensures portfolio.Valid() && portfolio.View() == InitialLedger(cfg.initialCapital)
      ensures config == Normalized(cfg)
      ensures fresh(portfolio)
    {
      config := Normalized(cfg);
      portfolio := new PortfolioState(cfg.initialCapital);
    }

    method GetHaltState(ts: int) returns (reasons: seq<Reason>)
      requires portfolio.Valid()
      modifies portfolio
      ensures portfolio.Valid() && portfolio.View() == Observed(config, old(portfolio.View()), ts)
      ensures reasons == HaltReasons(config, portfolio.View())
    {
      portfolio.EnsureDay(ts);
      portfolio.Recalculate();
      reasons := HaltReasonsOf(config, portfolio.dailyPnL, portfolio.peakEquity, portfolio.drawdown,
                               portfolio.consecutiveLosses, portfolio.tradesToday, portfolio.openRisk);
      portfolio.dailyLossHit := DailyLossHalt in reasons;
      portfolio.dailyTradeLimitHit := MaxTradesPerDayHalt in reasons;
    }

    method PreviewPosition(ts: int, req: Request) returns (v: Verdict)
      requires portfolio.Valid()
      modifies portfolio
      ensures portfolio.Valid() && portfolio.View() == Observed(config, old(portfolio.View()), ts)
      ensures v == Decide(config, portfolio.View(), ts, req)
    {
      var reasons := GetHaltState(ts);
      if reasons != [] {
        return Rejected(reasons[0]);
      }
      if AfterCutoff(config, ts) {
        return Rejected(EntryCutoffBlock);
      }
      var active := |portfolio.openPositions| + |portfolio.pendingReservations|;
      if config.maxConcurrentPositions > 0 && active >= config.maxConcurrentPositions {
        return Rejected(MaxConcurrentBlock);
      }
      var (sizing, reason) := BuildSizingPreview(config, portfolio.currentEquity, portfolio.freeCapital, req);
      if reason.Some? {
        return Rejected(reason.value);
      }
      if config.maxOpenRiskInr > 0.0 && portfolio.openRisk + sizing.riskInr > config.maxOpenRiskInr {
        return Rejected(MaxOpenRiskHalt);
      }
      return Accepted(sizing);
    }

    method ReservePosition(reservationId: Id, preview: Verdict)
      requires portfolio.Valid()
      modifies portfolio
      ensures portfolio.Valid()
      ensures portfolio.View() ==
              if preview.Accepted? then Reserve(old(portfolio.View()), reservationId, Held(preview.sizing))
              else old(portfolio.View())
    {
      if preview.Accepted? {
        portfolio.ReservePosition(reservationId, preview.sizing.capitalUsed, preview.sizing.riskInr);
      }
    }
  }
}

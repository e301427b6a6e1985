/**
 What the governor admits, in the numbers of its settings: the limits a size must keep, the gates in the order in which
 they are asked, and the reason a refusal reports.
 */
module AdmissionGates {
  import opened Common
  import opened Portfolio
  import opened RiskGovernors

  // ----- Sizes -----

  function Lot(req: Request): int {
    if req.lotSize <= 0 then 1 else req.lotSize
  }

  /** Capital and risk of one lot. */
  function LotCost(cfg: Config, req: Request): real {
    req.entryPrice * Lot(req) as real * (if cfg.marginMultiplier == 0.0 then 1.0 else cfg.marginMultiplier)
  }

  function LotRisk(req: Request): real {
    var distance := if req.entryPrice >= req.stopLoss then req.entryPrice - req.stopLoss
                    else req.stopLoss - req.entryPrice;
    distance * Lot(req) as real
  }

  predicate CapitalAllows(cfg: Config, available: real, req: Request, lots: int) {
    var base := if 0.0 < cfg.capitalPerTrade <= available then cfg.capitalPerTrade
                else available;
    && LotCost(cfg, req) > 0.0
    && LotCost(cfg, req) * lots as real <= base * (1.0 - cfg.reserveBufferPct / 100.0)
    && LotCost(cfg, req) * lots as real <= available
  }

  predicate RiskAllows(cfg: Config, equity: real, req: Request, lots: int) {
    var own := if equity == 0.0 then cfg.initialCapital else equity;
    LotRisk(req) > 0.0 ==>
      && (cfg.riskPerTradeInr > 0.0 ==> LotRisk(req) * lots as real <= cfg.riskPerTradeInr)
      && (cfg.riskPerTradePct > 0.0 ==> LotRisk(req) * lots as real <= own * cfg.riskPerTradePct / 100.0)
  }

  /** What was asked for: so many lots, so many units, or as much as the budgets give. */
  predicate RequestAllows(req: Request, lots: int) {
    match req.mode
    case LotBased =>
      var asked := if req.lotQty.Some? then req.lotQty.value else req.defaultQty;
      lots <= if asked <= 0 then 1 else asked
    case FixedQty =>
      var asked := if req.fixedQty.Some? then req.fixedQty.value else req.defaultQty;
      lots * Lot(req) <= if asked <= 0 then Lot(req) else asked
    case OtherMode =>
      lots * Lot(req) <= if req.defaultQty <= 0 then Lot(req) else req.defaultQty
    case _ => true
  }

  predicate WithinLimits(cfg: Config, equity: real, available: real, req: Request, lots: int) {
    && CapitalAllows(cfg, available, req, lots)
    && (req.mode != CapitalCapped ==> RiskAllows(cfg, equity, req, lots))
    && RequestAllows(req, lots)
  }

  lemma CostIsCapital(cfg: Config, req: Request)
    ensures LotCost(cfg, req) == PerLotCapital(cfg, req) && LotRisk(req) == PerLotRisk(req) && Lot(req) == LotSize(req)
  {
  }

  lemma BudgetInNumbers(cfg: Config, available: real)
    ensures var base := if 0.0 < cfg.capitalPerTrade <= available then cfg.capitalPerTrade else available;
            CapitalBudget(cfg, available) == base * (1.0 - cfg.reserveBufferPct / 100.0)
  {
  }

  lemma RiskInNumbers(cfg: Config, equity: real, req: Request, lots: int)
    ensures var budget := RiskBudget(cfg, if equity == 0.0 then cfg.initialCapital else equity);
            RiskAllows(cfg, equity, req, lots) <==>
            (budget.Some? && LotRisk(req) > 0.0 ==> LotRisk(req) * lots as real <= budget.value)
  {
    hide LotRisk;
  }

  lemma WholeLotsOf(n: int, asked: int, lot: int)
    requires lot >= 1 && asked >= 1
    ensures n <= asked / lot <==> n * lot <= asked
  {
    var q := asked / lot;
    assert asked == lot * q + asked % lot;
    assert lot * (q + 1) == lot * q + lot;
    if n <= q {
      MulLe(lot, n, q);
    } else {
      MulLe(lot, q + 1, n);
    }
  }

  lemma MulLe(k: nat, a: int, b: int)
    requires a <= b
    ensures k * a <= k * b && a * k <= b * k
  {
    MulNonneg(k, b - a);
    assert k * b == k * a + k * (b - a);
  }

  lemma LotsOfLots(lots: int, lot: int)
    requires lots >= 1 && lot >= 1
    ensures lots * lot / lot == lots && lots * lot >= 1
  {
    DivUnique(lots * lot, lot, lots, 0);
    MulLe(lot, 1, lots);
  }

  lemma AskedInNumbers(req: Request, n: int)
    requires n >= 1
    ensures RequestAllows(req, n) <==> (IntendedLots(req).Some? ==> n <= IntendedLots(req).value)
  {
    var q := IntendedQty(req);
    if q.Some? {
      if req.mode == LotBased {
        LotsOfLots(ClampPositive(OrElse(req.lotQty, req.defaultQty), 1), LotSize(req));
      } else {
        WholeLotsOf(n, q.value, LotSize(req));
      }
    }
  }

  lemma SizeShape(cfg: Config, equity: real, available: real, req: Request)
    ensures var s := BuildSizingPreview(cfg, equity, available, req).0;
            && s.lots >= 0 && s.lotSize == LotSize(req) && s.qty == s.lots * LotSize(req)
            && s.capitalUsed == PerLotCapital(cfg, req) * s.lots as real
            && s.riskInr == PerLotRisk(req) * s.lots as real && s.availableCapital == available
            && (PerLotCapital(cfg, req) <= 0.0 ==> s.lots == 0)
  {
    hide PerLotCapital, PerLotRisk, CapitalBudget, RiskBudget, IntendedLots;
  }

  /** The lots chosen are the largest number within the limits; quantity, capital and risk are that many lots' worth. */
  lemma SizeInNumbers(cfg: Config, equity: real, available: real, req: Request)
    ensures var s := BuildSizingPreview(cfg, equity, available, req).0;
            && s.lots >= 0 && (forall n :: n >= 1 ==> (n <= s.lots <==> WithinLimits(cfg, equity, available, req, n)))
            && s.lotSize == Lot(req) && s.qty == s.lots * Lot(req) && s.availableCapital == available
            && s.capitalUsed == LotCost(cfg, req) * s.lots as real && s.riskInr == LotRisk(req) * s.lots as real
  {
    SizeShape(cfg, equity, available, req);
    CostIsCapital(cfg, req);
    var lots := BuildSizingPreview(cfg, equity, available, req).0.lots;
    forall n | n >= 1
      ensures n <= lots <==> WithinLimits(cfg, equity, available, req, n)
    {
      SizeBound(cfg, equity, available, req, n);
    }
  }

  lemma CapitalBound(cfg: Config, available: real, req: Request, n: int)
    ensures CapitalAllows(cfg, available, req, n) <==>
            && PerLotCapital(cfg, req) > 0.0
            && PerLotCapital(cfg, req) * n as real <= CapitalBudget(cfg, available)
            && PerLotCapital(cfg, req) * n as real <= available
  {
    CostIsCapital(cfg, req);
    BudgetInNumbers(cfg, available);
    hide LotCost, PerLotCapital, CapitalBudget;
  }

  lemma RiskBound(cfg: Config, equity: real, req: Request, n: int)
    ensures var budget := RiskBudget(cfg, if equity == 0.0 then cfg.initialCapital else equity);
            RiskAllows(cfg, equity, req, n) <==>
            (budget.Some? && PerLotRisk(req) > 0.0 ==> PerLotRisk(req) * n as real <= budget.value)
  {
    CostIsCapital(cfg, req);
    RiskInNumbers(cfg, equity, req, n);
    hide LotRisk, PerLotRisk, RiskBudget, RiskAllows;
  }

  lemma LotsShape(cfg: Config, equity: real, available: real, req: Request)
    ensures var lots := BuildSizingPreview(cfg, equity, available, req).0.lots;
            lots >= 0 && (PerLotCapital(cfg, req) <= 0.0 ==> lots == 0)
  {
    SizeShape(cfg, equity, available, req);
  }

  lemma FitsInNumbers(cfg: Config, equity: real, available: real, req: Request, n: int)
    requires n >= 1 && PerLotCapital(cfg, req) > 0.0
    ensures Fits(cfg, equity, available, req, n) <==> WithinLimits(cfg, equity, available, req, n)
  {
    CapitalBound(cfg, available, req, n);
    RiskBound(cfg, equity, req, n);
    AskedInNumbers(req, n);
    hide PerLotCapital, PerLotRisk, LotSize, CapitalBudget, RiskBudget, IntendedLots, RequestAllows, RiskAllows,
         CapitalAllows;
  }

  lemma SizeBound(cfg: Config, equity: real, available: real, req: Request, n: int)
    requires n >= 1
    ensures n <= BuildSizingPreview(cfg, equity, available, req).0.lots <==>
            WithinLimits(cfg, equity, available, req, n)
  {
    hide *;
    if PerLotCapital(cfg, req) > 0.0 {
      FitsInNumbers(cfg, equity, available, req, n);
      LotsFitRequest(cfg, equity, available, req, n);
    } else {
      LotsShape(cfg, equity, available, req);
      WorthlessFitsNot(cfg, equity, available, req, n);
    }
  }

  lemma WorthlessFitsNot(cfg: Config, equity: real, available: real, req: Request, n: int)
    requires PerLotCapital(cfg, req) <= 0.0
    ensures !WithinLimits(cfg, equity, available, req, n)
  {
    CostIsCapital(cfg, req);
    hide LotCost, PerLotCapital;
  }

  /** Why not even one lot is within the limits. */
  function WhyNotOne(cfg: Config, equity: real, available: real, req: Request): Reason {
    if !CapitalAllows(cfg, available, req, 1) then InsufficientCapital
    else if !RiskAllows(cfg, equity, req, 1) then InsufficientRiskBudget
    else SizeBelowOneLot
  }

  /** A request is refused exactly when not even one lot is within the limits, for the first limit it breaks. */
  lemma RefusalInNumbers(cfg: Config, equity: real, available: real, req: Request)
    ensures BuildSizingPreview(cfg, equity, available, req).1 ==
            if WithinLimits(cfg, equity, available, req, 1) then None
            else Some(WhyNotOne(cfg, equity, available, req))
  {
    SizeBound(cfg, equity, available, req, 1);
    RefusedBelowOneLot(cfg, equity, available, req);
    CapitalBound(cfg, available, req, 1);
    RiskBound(cfg, equity, req, 1);
    ReasonShape(cfg, equity, available, req);
    hide BuildSizingPreview, PerLotCapital, PerLotRisk, CapitalBudget, RiskBudget, WithinLimits, RiskAllows,
         CapitalAllows;
  }

  lemma ReasonShape(cfg: Config, equity: real, available: real, req: Request)
    ensures var (s, reason) := BuildSizingPreview(cfg, equity, available, req);
            var capital, risk := PerLotCapital(cfg, req), PerLotRisk(req);
            var budget := RiskBudget(cfg, if equity == 0.0 then cfg.initialCapital else equity);
            reason.Some? ==>
              reason.value ==
              if !(capital > 0.0 && capital * 1 as real <= CapitalBudget(cfg, available)
                   && capital * 1 as real <= available) then InsufficientCapital
              else if budget.Some? && risk > 0.0 && risk * 1 as real > budget.value then InsufficientRiskBudget
              else SizeBelowOneLot
  {
    var capital, risk := PerLotCapital(cfg, req), PerLotRisk(req);
    var budget := RiskBudget(cfg, if equity == 0.0 then cfg.initialCapital else equity);
    if capital > 0.0 {
      LotsWithinExact(CapitalBudget(cfg, available), capital, 1);
      LotsWithinExact(available, capital, 1);
    }
    if budget.Some? && risk > 0.0 {
      LotsWithinExact(budget.value, risk, 1);
    }
    hide PerLotCapital, PerLotRisk, CapitalBudget, RiskBudget, IntendedLots, LotsWithin;
  }

  // ----- The gates, in order -----

  const HALTS := 8
  const GATES := 12

  /** A fall of at least so many percent of the peak. */
  predicate FallsBy(peak: real, fall: real, pct: real) {
    peak > 0.0 && fall / peak * 100.0 >= pct
  }

  /** Halt `g` holds; `fall` is the equity's fall from its peak. */
  predicate Halts(cfg: Config, l: Ledger, fall: real, openRisk: real, g: nat) {
    match g
    case 0 => cfg.maxDailyLossInr > 0.0 && l.dailyPnL <= -cfg.maxDailyLossInr
    case 1 => cfg.maxDrawdownInr > 0.0 && fall >= cfg.maxDrawdownInr
    case 2 => cfg.maxDrawdownPct > 0.0 && FallsBy(l.peakEquity, fall, cfg.maxDrawdownPct)
    case 3 =>
      var most := if cfg.haltAfterConsecutiveLosses != 0 then cfg.haltAfterConsecutiveLosses
                  else cfg.maxConsecutiveLosses;
      most > 0 && l.consecutiveLosses >= most
    case 4 => cfg.maxTradesPerDay > 0 && l.tradesToday >= cfg.maxTradesPerDay
    case 5 => cfg.maxOpenRiskInr > 0.0 && openRisk >= cfg.maxOpenRiskInr
    case 6 => cfg.skipEntriesAfterDrawdownInr > 0.0 && fall >= cfg.skipEntriesAfterDrawdownInr
    case 7 => cfg.skipEntriesAfterDrawdownPct > 0.0 && FallsBy(l.peakEquity, fall, cfg.skipEntriesAfterDrawdownPct)
    case _ => false
  }

  /** The gates after the halts: time of day, positions, size, and open risk with the new one. */
  ghost predicate Stops(cfg: Config, l: Ledger, ts: int, req: Request, g: nat) {
    match g
    case 8 => cfg.entryCutoffMs.Some? && (ts + cfg.zoneOffsetMs) % 86400000 >= cfg.entryCutoffMs.value
    case 9 => cfg.maxConcurrentPositions > 0 && |l.open| + |l.pending| >= cfg.maxConcurrentPositions
    case 10 => !WithinLimits(cfg, Equity(l), Free(l), req, 1)
    case 11 =>
      && cfg.maxOpenRiskInr > 0.0
      && OpenRisk(l) + BuildSizingPreview(cfg, Equity(l), Free(l), req).0.riskInr > cfg.maxOpenRiskInr
    case _ => Halts(cfg, l, l.peakEquity - Equity(l), OpenRisk(l), g)
  }

  function HaltReason(g: nat): Reason {
    match g
    case 0 => DailyLossHalt
    case 1 => MaxDrawdownHalt
    case 2 => MaxDrawdownPctHalt
    case 3 => MaxConsecutiveLossesHalt
    case 4 => MaxTradesPerDayHalt
    case 5 => MaxOpenRiskHalt
    case _ => SkipOnDrawdownBlock
  }

  ghost function ReasonAt(cfg: Config, l: Ledger, req: Request, g: nat): Reason {
    match g
    case 8 => EntryCutoffBlock
    case 9 => MaxConcurrentBlock
    case 10 => WhyNotOne(cfg, Equity(l), Free(l), req)
    case 11 => MaxOpenRiskHalt
    case _ => HaltReason(g)
  }

  function HaltsBelow(cfg: Config, l: Ledger, fall: real, openRisk: real, n: nat): seq<Reason>
    requires n <= HALTS
  {
    if n == 0 then []
    else
      HaltsBelow(cfg, l, fall, openRisk, n - 1) +
      if Halts(cfg, l, fall, openRisk, n - 1)
      then [HaltReason(n - 1)] else []
  }

  /** The drawdown is the fall, or nothing when equity is above its peak; the positive limits see no difference. */
  lemma FallIsDrawdown(peak: real, equity: real, limit: real)
    requires limit > 0.0
    ensures var drawdown := MaxReal(0.0, peak - equity);
            && (drawdown >= limit <==> peak - equity >= limit)
            && (DrawdownPct(peak, drawdown) >= limit <==> FallsBy(peak, peak - equity, limit))
  {
    if peak > 0.0 && peak - equity < 0.0 {
      assert (peak - equity) / peak <= 0.0 by {
        assert (equity - peak) / peak >= 0.0;
        assert (peak - equity) / peak == -((equity - peak) / peak);
      }
      assert 0.0 / peak == 0.0;
    }
  }

  /** The halt reasons are exactly those whose limit is reached, in the order of the gates. */
  lemma HaltsInNumbers(cfg: Config, l: Ledger)
    ensures HaltReasons(cfg, l) == HaltsBelow(cfg, l, l.peakEquity - Equity(l), OpenRisk(l), HALTS)
  {
    if cfg.maxDrawdownInr > 0.0 {
      FallIsDrawdown(l.peakEquity, Equity(l), cfg.maxDrawdownInr);
    }
    if cfg.maxDrawdownPct > 0.0 {
      FallIsDrawdown(l.peakEquity, Equity(l), cfg.maxDrawdownPct);
    }
    if cfg.skipEntriesAfterDrawdownInr > 0.0 {
      FallIsDrawdown(l.peakEquity, Equity(l), cfg.skipEntriesAfterDrawdownInr);
    }
    if cfg.skipEntriesAfterDrawdownPct > 0.0 {
      FallIsDrawdown(l.peakEquity, Equity(l), cfg.skipEntriesAfterDrawdownPct);
    }
    hide DrawdownPct, FallsBy, Equity, OpenRisk;
    HaltsListed(cfg, l, l.peakEquity - Equity(l), Drawdown(l), OpenRisk(l));
  }

  lemma HaltsListed(cfg: Config, l: Ledger, fall: real, drawdown: real, openRisk: real)
    requires cfg.maxDrawdownInr > 0.0 ==> (drawdown >= cfg.maxDrawdownInr <==> fall >= cfg.maxDrawdownInr)
    requires cfg.maxDrawdownPct > 0.0 ==>
               (DrawdownPct(l.peakEquity, drawdown) >= cfg.maxDrawdownPct <==>
                FallsBy(l.peakEquity, fall, cfg.maxDrawdownPct))
    requires cfg.skipEntriesAfterDrawdownInr > 0.0 ==>
               (drawdown >= cfg.skipEntriesAfterDrawdownInr <==> fall >= cfg.skipEntriesAfterDrawdownInr)
    requires cfg.skipEntriesAfterDrawdownPct > 0.0 ==>
               (DrawdownPct(l.peakEquity, drawdown) >= cfg.skipEntriesAfterDrawdownPct <==>
                FallsBy(l.peakEquity, fall, cfg.skipEntriesAfterDrawdownPct))
    ensures HaltReasonsOf(cfg, l.dailyPnL, l.peakEquity, drawdown, l.consecutiveLosses, l.tradesToday, openRisk) ==
            HaltsBelow(cfg, l, fall, openRisk, HALTS)
  {
    hide DrawdownPct, FallsBy, HaltsBelow, When;
    Unfolded(cfg, l, fall, openRisk);
    var loss := AbsReal(MinReal(0.0, l.dailyPnL));
    assert cfg.maxDailyLossInr > 0.0 && loss >= cfg.maxDailyLossInr <==> Halts(cfg, l, fall, openRisk, 0);
    assert cfg.maxDrawdownInr > 0.0 && drawdown >= cfg.maxDrawdownInr <==> Halts(cfg, l, fall, openRisk, 1);
    assert cfg.maxDrawdownPct > 0.0 && DrawdownPct(l.peakEquity, drawdown) >= cfg.maxDrawdownPct <==>
           Halts(cfg, l, fall, openRisk, 2);
    assert LossHaltThreshold(cfg) > 0 && l.consecutiveLosses >= LossHaltThreshold(cfg) <==>
           Halts(cfg, l, fall, openRisk, 3);
    assert cfg.maxTradesPerDay > 0 && l.tradesToday >= cfg.maxTradesPerDay <==> Halts(cfg, l, fall, openRisk, 4);
    assert cfg.maxOpenRiskInr > 0.0 && openRisk >= cfg.maxOpenRiskInr <==> Halts(cfg, l, fall, openRisk, 5);
    assert cfg.skipEntriesAfterDrawdownInr > 0.0 && drawdown >= cfg.skipEntriesAfterDrawdownInr <==>
           Halts(cfg, l, fall, openRisk, 6);
    assert cfg.skipEntriesAfterDrawdownPct > 0.0
           && DrawdownPct(l.peakEquity, drawdown) >= cfg.skipEntriesAfterDrawdownPct <==>
           Halts(cfg, l, fall, openRisk, 7);
    hide Halts, AbsReal, MinReal, LossHaltThreshold;
  }

  lemma Unfolded(cfg: Config, l: Ledger, fall: real, openRisk: real)
    ensures HaltsBelow(cfg, l, fall, openRisk, HALTS) ==
            When(Halts(cfg, l, fall, openRisk, 0), DailyLossHalt)
            + When(Halts(cfg, l, fall, openRisk, 1), MaxDrawdownHalt)
            + When(Halts(cfg, l, fall, openRisk, 2), MaxDrawdownPctHalt)
            + When(Halts(cfg, l, fall, openRisk, 3), MaxConsecutiveLossesHalt)
            + When(Halts(cfg, l, fall, openRisk, 4), MaxTradesPerDayHalt)
            + When(Halts(cfg, l, fall, openRisk, 5), MaxOpenRiskHalt)
            + When(Halts(cfg, l, fall, openRisk, 6), SkipOnDrawdownBlock)
            + When(Halts(cfg, l, fall, openRisk, 7), SkipOnDrawdownBlock)
  {
    hide Halts;
    OneHaltMore(cfg, l, fall, openRisk, 0);
    OneHaltMore(cfg, l, fall, openRisk, 1);
    OneHaltMore(cfg, l, fall, openRisk, 2);
    OneHaltMore(cfg, l, fall, openRisk, 3);
    OneHaltMore(cfg, l, fall, openRisk, 4);
    OneHaltMore(cfg, l, fall, openRisk, 5);
    OneHaltMore(cfg, l, fall, openRisk, 6);
    OneHaltMore(cfg, l, fall, openRisk, 7);
    assert HaltsBelow(cfg, l, fall, openRisk, 0) == [];
    hide HaltsBelow, When;
    assert [] + When(Halts(cfg, l, fall, openRisk, 0), DailyLossHalt) ==
           When(Halts(cfg, l, fall, openRisk, 0), DailyLossHalt);
  }

  lemma OneHaltMore(cfg: Config, l: Ledger, fall: real, openRisk: real, n: nat)
    requires n < HALTS
    ensures HaltsBelow(cfg, l, fall, openRisk, n + 1) ==
            HaltsBelow(cfg, l, fall, openRisk, n) +
            When(Halts(cfg, l, fall, openRisk, n), HaltReason(n))
  {
    hide Halts;
  }

  lemma {:induction false} FirstHalt(cfg: Config, l: Ledger, fall: real, openRisk: real, n: nat) returns (g: nat)
    requires n <= HALTS
    ensures g <= n && forall h :: 0 <= h < g ==> !Halts(cfg, l, fall, openRisk, h)
    ensures var reasons := HaltsBelow(cfg, l, fall, openRisk, n);
            if g < n then
              Halts(cfg, l, fall, openRisk, g) && reasons != []
              && reasons[0] == HaltReason(g)
            else reasons == []
  {
    hide Halts, HaltReason;
    g := 0;
    if n > 0 {
      g := FirstHalt(cfg, l, fall, openRisk, n - 1);
      if g == n - 1 && !Halts(cfg, l, fall, openRisk, g) {
        g := n;
      }
    }
  }

  /** A request is accepted exactly when no gate stops it; a refusal reports the first gate that does. */
  lemma RefusedAtFirstGate(cfg: Config, l: Ledger, ts: int, req: Request) returns (g: nat)
    ensures g <= GATES && forall h :: 0 <= h < g ==> !Stops(cfg, l, ts, req, h)
    ensures if g < GATES then
              Stops(cfg, l, ts, req, g) && Decide(cfg, l, ts, req) == Rejected(ReasonAt(cfg, l, req, g))
            else Decide(cfg, l, ts, req) == Accepted(BuildSizingPreview(cfg, Equity(l), Free(l), req).0)
  {
    HaltsInNumbers(cfg, l);
    RefusalInNumbers(cfg, Equity(l), Free(l), req);
    g := FirstHalt(cfg, l, l.peakEquity - Equity(l), OpenRisk(l), HALTS);
    hide Halts, HaltReasons, BuildSizingPreview, WithinLimits, WhyNotOne, Equity, Free, OpenRisk, HaltsBelow;
    if g == HALTS {
      g := if Stops(cfg, l, ts, req, 8) then 8
           else if Stops(cfg, l, ts, req, 9) then 9
           else if Stops(cfg, l, ts, req, 10) then 10
           else if Stops(cfg, l, ts, req, 11) then 11
           else 12;
    }
  }

  // ----- Looking at the halt state -----

  /** A look opens the day of its time, raises the peak to the equity, and sets the two flags; nothing else moves. */
  lemma LookInNumbers(cfg: Config, l: Ledger, ts: int)
    ensures var o := Observed(cfg, l, ts);
            var sameDay := l.currentDay == Some(ts / 86400000);
            && o.currentDay == Some(ts / 86400000)
            && o.dailyPnL == (if sameDay then l.dailyPnL else 0.0)
            && o.tradesToday == (if sameDay then l.tradesToday else 0)
            && o.peakEquity == (if l.peakEquity >= Equity(l) then l.peakEquity else Equity(l))
            && o.consecutiveLosses == l.consecutiveLosses && o.realizedPnL == l.realizedPnL
            && o.open == l.open && o.pending == l.pending && o.initialCapital == l.initialCapital
            && (o.dailyLossHit <==> Halts(cfg, o, o.peakEquity - Equity(o), OpenRisk(o), 0))
            && (o.dailyTradeLimitHit <==> Halts(cfg, o, o.peakEquity - Equity(o), OpenRisk(o), 4))
  {
    var r := Recalculated(OnDay(l, ts));
    FlagsFollow(cfg, r);
    ObservedTotals(cfg, l, ts);
    hide HaltReasons, Sum;
  }

  lemma FlagsFollow(cfg: Config, l: Ledger)
    ensures DailyLossHalt in HaltReasons(cfg, l) <==> Halts(cfg, l, l.peakEquity - Equity(l), OpenRisk(l), 0)
    ensures MaxTradesPerDayHalt in HaltReasons(cfg, l) <==> Halts(cfg, l, l.peakEquity - Equity(l), OpenRisk(l), 4)
  {
    hide Equity, OpenRisk, Drawdown, DrawdownPct;
  }

  /** A margin multiplier or position cap left at zero reads as one; every other setting is taken as it is. */
  lemma SettingsRead(cfg: Config)
    ensures var n := Normalized(cfg);
            && n.marginMultiplier == (if cfg.marginMultiplier == 0.0 then 1.0 else cfg.marginMultiplier)
            && n.maxConcurrentPositions == (if cfg.maxConcurrentPositions == 0 then 1 else cfg.maxConcurrentPositions)
            && n == cfg.(marginMultiplier := n.marginMultiplier, maxConcurrentPositions := n.maxConcurrentPositions)
  {
  }
}

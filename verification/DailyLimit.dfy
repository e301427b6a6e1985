/**
 The daily trade limit over whole runs of the protocol: the gate counts closes, so positions in flight escape it.
 A run is built for every pair of limits that closes as many trades in one day as the bound allows.
 */
module DailyLimit {
  import opened Common
  import opened Portfolio
  import opened RiskGovernors
  import opened GovernorRuns

  /** Some request can be accepted at some time of day. */
  predicate CanTrade(cfg: Config) {
    && cfg.initialCapital > 0.0 && cfg.reserveBufferPct < 100.0
    && (cfg.entryCutoffMs.Some? ==> cfg.entryCutoffMs.value > 0)
  }

  ghost predicate LimitKept(cfg: Config) {
    forall ops :: LegalRun(cfg, InitialLedger(cfg.initialCapital), ops) ==>
      RunOps(cfg, InitialLedger(cfg.initialCapital), ops).tradesToday <= cfg.maxTradesPerDay
  }

  // ----- Runs put together -----

  lemma {:induction false} RunAppend(cfg: Config, l: Ledger, a: seq<Op>, b: seq<Op>)
    requires LegalRun(cfg, l, a) && LegalRun(cfg, RunOps(cfg, l, a), b)
    ensures LegalRun(cfg, l, a + b) && RunOps(cfg, l, a + b) == RunOps(cfg, RunOps(cfg, l, a), b)
    decreases a
  {
    hide Apply, Legal;
    if a == [] {
      assert a + b == b;
    } else {
      assert (a + b)[0] == a[0] && (a + b)[1..] == a[1..] + b;
      RunAppend(cfg, Apply(cfg, l, a[0]), a[1..], b);
    }
  }

  lemma RunOne(cfg: Config, l: Ledger, op: Op)
    requires Legal(l, op)
    ensures LegalRun(cfg, l, [op]) && RunOps(cfg, l, [op]) == Apply(cfg, l, op)
  {
    hide Apply, Legal;
    assert RunOps(cfg, Apply(cfg, l, op), []) == Apply(cfg, l, op);
  }

  // ----- Ledgers without profit, loss or risk -----

  /** One lot at a price at which `held` reservations leave room for one more. */
  predicate Affordable(cfg: Config, capital: real, held: nat) {
    var share := 1.0 - cfg.reserveBufferPct / 100.0;
    && capital > 0.0
    && capital * held as real <= cfg.initialCapital / 2.0
    && capital <= cfg.initialCapital / 2.0
    && capital <= share * (cfg.initialCapital / 2.0)
    && (cfg.capitalPerTrade > 0.0 ==> capital <= share * cfg.capitalPerTrade)
  }

  function Slot(i: int): Id {
    ReservationId(0, i)
  }

  /** Slots `lo` to `hi` are reserved, nothing is open, and nothing was won or lost. */
  ghost predicate Quiet(cfg: Config, l: Ledger, day: int, trades: nat, capital: real, lo: nat, hi: nat) {
    && l.initialCapital == l.peakEquity == cfg.initialCapital && l.realizedPnL == 0.0
    && l.open == map[] && l.pending == Slots(capital, lo, hi)
    && l.consecutiveLosses == 0 && l.dailyPnL == 0.0 && l.currentDay == Some(day) && l.tradesToday == trades
  }

  function Slots(capital: real, lo: nat, hi: nat): map<Id, Reservation> {
    map i: nat | lo <= i < hi :: Slot(i) := Reservation(capital, 0.0)
  }

  lemma {:induction false} SlotsHold(capital: real, lo: nat, hi: nat)
    requires lo <= hi
    ensures Sum(Slots(capital, lo, hi), HeldBy) == capital * (hi - lo) as real
    ensures |Slots(capital, lo, hi)| == hi - lo
    decreases hi
  {
    hide Slots, Sum;
    if lo == hi {
      NoSlots(capital, lo);
    } else {
      OneMore(capital, hi - 1 - lo);
      SlotsHold(capital, lo, hi - 1);
      NextSlot(capital, lo, hi - 1);
      SumAdd(Slots(capital, lo, hi - 1), HeldBy, Slot(hi - 1), Reservation(capital, 0.0));
      AddSize(Slots(capital, lo, hi - 1), Slot(hi - 1), Reservation(capital, 0.0));
    }
  }

  lemma OneMore(capital: real, n: nat)
    ensures capital * (n + 1) as real == capital * n as real + capital
  {
  }

  lemma NoSlots(capital: real, n: nat)
    ensures Slots(capital, n, n) == map[]
    ensures Sum(Slots(capital, n, n), HeldBy) == 0.0
  {
  }

  lemma NextSlot(capital: real, lo: nat, hi: nat)
    requires lo <= hi
    ensures Slot(hi) !in Slots(capital, lo, hi)
    ensures Slots(capital, lo, hi)[Slot(hi) := Reservation(capital, 0.0)] == Slots(capital, lo, hi + 1)
  {
    var a, b := Slots(capital, lo, hi)[Slot(hi) := Reservation(capital, 0.0)], Slots(capital, lo, hi + 1);
    forall k | k in b
      ensures k in a && a[k] == b[k]
    {
      var i: nat :| lo <= i < hi + 1 && k == Slot(i);
      assert i < hi ==> Slot(i) in Slots(capital, lo, hi);
    }
    forall k | k in a
      ensures k in b
    {
      if k == Slot(hi) {
        assert lo <= hi < hi + 1;
      } else {
        var i: nat :| lo <= i < hi && k == Slot(i);
        assert lo <= i < hi + 1;
      }
    }
  }

  lemma FirstSlot(capital: real, lo: nat, hi: nat)
    requires lo < hi
    ensures Slot(lo) in Slots(capital, lo, hi)
    ensures Slots(capital, lo, hi) - {Slot(lo)} == Slots(capital, lo + 1, hi)
  {
    var a, b := Slots(capital, lo, hi) - {Slot(lo)}, Slots(capital, lo + 1, hi);
    assert lo <= lo < hi && Slot(lo) in Slots(capital, lo, hi);
    forall k | k in b
      ensures k in a && a[k] == b[k]
    {
      var i: nat :| lo + 1 <= i < hi && k == Slot(i);
      assert Slot(i) in Slots(capital, lo, hi);
    }
    forall k | k in a
      ensures k in b
    {
      var i: nat :| lo <= i < hi && k == Slot(i);
      assert i != lo;
      assert Slot(i) in Slots(capital, lo + 1, hi);
    }
  }

  lemma QuietTotals(cfg: Config, l: Ledger, day: int, trades: nat, capital: real, lo: nat, hi: nat)
    requires Quiet(cfg, l, day, trades, capital, lo, hi) && lo <= hi
    ensures Equity(l) == cfg.initialCapital && Drawdown(l) == 0.0 && OpenRisk(l) == 0.0
    ensures Free(l) == cfg.initialCapital - capital * (hi - lo) as real
    ensures |l.pending| == hi - lo
  {
    SlotsHold(capital, lo, hi);
  }

  /** One unit bought at a stop equal to its price: no risk. */
  function UnitRequest(price: real): Request {
    Request(price, price, 1, FixedQty, 1, None, None)
  }

  function Multiplier(cfg: Config): real {
    if cfg.marginMultiplier == 0.0 then 1.0 else cfg.marginMultiplier
  }

  function UnitOf(cfg: Config, capital: real): Request {
    UnitRequest(capital / Multiplier(cfg))
  }

  lemma UnitSizing(cfg: Config, equity: real, available: real, capital: real)
    requires capital > 0.0 && capital <= CapitalBudget(cfg, available) && capital <= available
    ensures var (s, reason) := BuildSizingPreview(cfg, equity, available, UnitOf(cfg, capital));
            reason == None && Held(s) == Reservation(capital, 0.0)
  {
    var req := UnitOf(cfg, capital);
    assert PerLotCapital(cfg, req) == capital by {
      var m := Multiplier(cfg);
      assert capital / m * m == capital;
      assert PerLotCapital(cfg, req) == capital / m * 1.0 * m;
    }
    assert PerLotRisk(req) == 0.0;
    assert IntendedLots(req) == Some(1);
    SizingOptimal(cfg, equity, available, req);
    var lots := BuildSizingPreview(cfg, equity, available, req).0.lots;
    assert Fits(cfg, equity, available, req, 1);
    assert !Fits(cfg, equity, available, req, 2);
    assert lots == 1;
  }

  lemma BudgetCovers(cfg: Config, capital: real, held: nat, available: real)
    requires Affordable(cfg, capital, held) && cfg.reserveBufferPct < 100.0
    requires available >= cfg.initialCapital - capital * held as real
    ensures capital <= CapitalBudget(cfg, available) && capital <= available
  {
    var share := 1.0 - cfg.reserveBufferPct / 100.0;
    assert available >= cfg.initialCapital / 2.0;
    MulMono(share, cfg.initialCapital / 2.0, available);
  }

  lemma QuietHasNoHalt(cfg: Config, l: Ledger, day: int, trades: nat, capital: real, lo: nat, hi: nat)
    requires Quiet(cfg, l, day, trades, capital, lo, hi) && lo <= hi
    requires cfg.maxTradesPerDay > 0 ==> trades < cfg.maxTradesPerDay
    ensures HaltReasons(cfg, l) == []
  {
    QuietTotals(cfg, l, day, trades, capital, lo, hi);
    assert DrawdownPct(l.peakEquity, 0.0) == 0.0;
  }

  lemma QuietObserved(cfg: Config, l: Ledger, ts: int, trades: nat, capital: real, lo: nat, hi: nat)
    requires Quiet(cfg, l, Day(ts), trades, capital, lo, hi)
    ensures Quiet(cfg, Observed(cfg, l, ts), Day(ts), trades, capital, lo, hi)
  {
  }

  /** One more reservation. */
  lemma QuietAdmit(cfg: Config, l: Ledger, ts: int, trades: nat, capital: real, n: nat)
    requires CanTrade(cfg) && !AfterCutoff(cfg, ts) && Affordable(cfg, capital, n)
    requires Quiet(cfg, l, Day(ts), trades, capital, 0, n)
    requires cfg.maxTradesPerDay > 0 ==> trades < cfg.maxTradesPerDay
    requires cfg.maxConcurrentPositions > 0 ==> n < cfg.maxConcurrentPositions
    ensures var op := Admit(Slot(n), ts, UnitOf(cfg, capital));
            Legal(l, op) && Quiet(cfg, Apply(cfg, l, op), Day(ts), trades, capital, 0, n + 1)
  {
    var o, req := Observed(cfg, l, ts), UnitOf(cfg, capital);
    QuietObserved(cfg, l, ts, trades, capital, 0, n);
    QuietTotals(cfg, o, Day(ts), trades, capital, 0, n);
    QuietHasNoHalt(cfg, o, Day(ts), trades, capital, 0, n);
    BudgetCovers(cfg, capital, n, Free(o));
    UnitSizing(cfg, Equity(o), Free(o), capital);
    NextSlot(capital, 0, n);
    QuietAccepted(cfg, o, ts, req);
    ReserveMoves(o, Slot(n), Reservation(capital, 0.0));
    hide Decide, BuildSizingPreview, Observed;
    var v := Decide(cfg, o, ts, req);
    assert Apply(cfg, l, Admit(Slot(n), ts, req)) == Reserve(o, Slot(n), Held(v.sizing));
  }

  lemma QuietAccepted(cfg: Config, o: Ledger, ts: int, req: Request)
    requires HaltReasons(cfg, o) == [] && !AfterCutoff(cfg, ts) && OpenRisk(o) == 0.0
    requires cfg.maxConcurrentPositions > 0 ==> |o.open| + |o.pending| < cfg.maxConcurrentPositions
    requires var (s, reason) := BuildSizingPreview(cfg, Equity(o), Free(o), req); reason == None && s.riskInr == 0.0
    ensures Decide(cfg, o, ts, req) == Accepted(BuildSizingPreview(cfg, Equity(o), Free(o), req).0)
  {
  }

  /** The oldest reservation becomes a position that closes at once, without result. */
  lemma QuietTrade(cfg: Config, l: Ledger, ts: int, trades: nat, capital: real, lo: nat, hi: nat)
    requires Quiet(cfg, l, Day(ts), trades, capital, lo, hi) && lo < hi
    ensures var opening := ActivatePosition(Slot(lo), TradeId(0), 0.0, 0.0, ts);
            var closing := ClosePosition(TradeId(0), ts, 0.0);
            var l1 := Apply(cfg, l, opening);
            Legal(l, opening) && Legal(l1, closing)
            && Quiet(cfg, Apply(cfg, l1, closing), Day(ts), trades + 1, capital, lo + 1, hi)
  {
    FirstSlot(capital, lo, hi);
    var l1 := Apply(cfg, l, ActivatePosition(Slot(lo), TradeId(0), 0.0, 0.0, ts));
    ActivateMoves(l, Slot(lo), TradeId(0), 0.0, 0.0, Some(ts));
    CloseMoves(l1, TradeId(0), ts, 0.0);
    assert l1.open == map[TradeId(0) := Position(0.0, 0.0, 0.0, Some(ts))];
    assert l1.open - {TradeId(0)} == map[];
    assert Equity(l) == cfg.initialCapital;
  }

  // ----- Waves: some admissions, then all of them traded -----

  lemma {:induction false} AdmitMany(cfg: Config, l: Ledger, ts: int, trades: nat, capital: real, n: nat)
    returns (ops: seq<Op>)
    requires CanTrade(cfg) && !AfterCutoff(cfg, ts) && Affordable(cfg, capital, n)
    requires Quiet(cfg, l, Day(ts), trades, capital, 0, 0)
    requires cfg.maxTradesPerDay > 0 ==> trades < cfg.maxTradesPerDay
    requires cfg.maxConcurrentPositions > 0 ==> n <= cfg.maxConcurrentPositions
    ensures LegalRun(cfg, l, ops) && Quiet(cfg, RunOps(cfg, l, ops), Day(ts), trades, capital, 0, n)
  {
    hide Quiet, Apply, Legal;
    ops := [];
    if n > 0 {
      AffordsFewer(cfg, capital, n);
      var before := AdmitMany(cfg, l, ts, trades, capital, n - 1);
      var l1, op := RunOps(cfg, l, before), Admit(Slot(n - 1), ts, UnitOf(cfg, capital));
      QuietAdmit(cfg, l1, ts, trades, capital, n - 1);
      RunOne(cfg, l1, op);
      RunAppend(cfg, l, before, [op]);
      ops := before + [op];
    }
  }

  lemma AffordsFewer(cfg: Config, capital: real, n: nat)
    requires Affordable(cfg, capital, n) && n > 0
    ensures Affordable(cfg, capital, n - 1)
  {
    assert capital * (n - 1) as real <= capital * n as real;
  }

  lemma {:induction false} TradeAll(cfg: Config, l: Ledger, ts: int, trades: nat, capital: real, lo: nat, hi: nat)
    returns (ops: seq<Op>)
    requires Quiet(cfg, l, Day(ts), trades, capital, lo, hi) && lo <= hi
    ensures LegalRun(cfg, l, ops) && Quiet(cfg, RunOps(cfg, l, ops), Day(ts), trades + hi - lo, capital, hi, hi)
    decreases hi - lo
  {
    hide Quiet, Apply, Legal;
    ops := [];
    if lo < hi {
      var opening, closing := ActivatePosition(Slot(lo), TradeId(0), 0.0, 0.0, ts), ClosePosition(TradeId(0), ts, 0.0);
      QuietTrade(cfg, l, ts, trades, capital, lo, hi);
      var l1 := Apply(cfg, l, opening);
      RunOne(cfg, l, opening);
      RunOne(cfg, l1, closing);
      RunAppend(cfg, l, [opening], [closing]);
      var l2 := Apply(cfg, l1, closing);
      var rest := TradeAll(cfg, l2, ts, trades + 1, capital, lo + 1, hi);
      RunAppend(cfg, l, [opening] + [closing], rest);
      ops := [opening] + [closing] + rest;
    }
  }

  /** `n` admissions in a row while one more close is allowed, then `n` closes. */
  lemma Wave(cfg: Config, l: Ledger, ts: int, trades: nat, capital: real, n: nat) returns (ops: seq<Op>)
    requires CanTrade(cfg) && !AfterCutoff(cfg, ts) && Affordable(cfg, capital, n)
    requires Quiet(cfg, l, Day(ts), trades, capital, 0, 0)
    requires cfg.maxTradesPerDay > 0 ==> trades < cfg.maxTradesPerDay
    requires cfg.maxConcurrentPositions > 0 ==> n <= cfg.maxConcurrentPositions
    ensures LegalRun(cfg, l, ops) && Quiet(cfg, RunOps(cfg, l, ops), Day(ts), trades + n, capital, 0, 0)
  {
    var admissions := AdmitMany(cfg, l, ts, trades, capital, n);
    var held := RunOps(cfg, l, admissions);
    var closes := TradeAll(cfg, held, ts, trades, capital, 0, n);
    RunAppend(cfg, l, admissions, closes);
    ops := admissions + closes;
    NoSlots(capital, n);
    NoSlots(capital, 0);
  }

  lemma {:induction false} Singles(cfg: Config, l: Ledger, ts: int, capital: real, n: nat) returns (ops: seq<Op>)
    requires CanTrade(cfg) && !AfterCutoff(cfg, ts) && Affordable(cfg, capital, 1)
    requires Quiet(cfg, l, Day(ts), 0, capital, 0, 0)
    requires cfg.maxTradesPerDay > 0 ==> n <= cfg.maxTradesPerDay
    ensures LegalRun(cfg, l, ops) && Quiet(cfg, RunOps(cfg, l, ops), Day(ts), n, capital, 0, 0)
  {
    hide Quiet, Affordable;
    ops := [];
    if n > 0 {
      var before := Singles(cfg, l, ts, capital, n - 1);
      var one := Wave(cfg, RunOps(cfg, l, before), ts, n - 1, capital, 1);
      RunAppend(cfg, l, before, one);
      ops := before + one;
    }
  }

  /** A positive amount below all of these, of which `n` make up at most the first. */
  lemma SmallEnough(half: real, budget: real, perTrade: real, n: nat) returns (capital: real)
    requires half > 0.0 && budget > 0.0 && perTrade > 0.0 && n >= 1
    ensures capital > 0.0 && capital <= half && capital <= budget && capital <= perTrade
    ensures capital * n as real <= half
  {
    var each := half / n as real;
    assert each * n as real == half && each > 0.0;
    capital := MinReal(each, MinReal(half, MinReal(budget, perTrade)));
    MulMono(n as real, capital, each);
  }

  lemma Afford(cfg: Config, n: nat) returns (capital: real)
    requires CanTrade(cfg) && n >= 1
    ensures Affordable(cfg, capital, n) && Affordable(cfg, capital, 1)
  {
    var share, half := 1.0 - cfg.reserveBufferPct / 100.0, cfg.initialCapital / 2.0;
    Product(share, half);
    var perTrade := 1.0;
    if cfg.capitalPerTrade > 0.0 {
      Product(share, cfg.capitalPerTrade);
      perTrade := share * cfg.capitalPerTrade;
    }
    capital := SmallEnough(half, share * half, perTrade, n);
  }

  lemma Product(a: real, b: real)
    requires a > 0.0 && b > 0.0
    ensures a * b > 0.0
  {
  }

  lemma EarlyEnough(cfg: Config) returns (ts: int)
    requires CanTrade(cfg)
    ensures !AfterCutoff(cfg, ts)
  {
    ts := -cfg.zoneOffsetMs;
  }

  /**
   The bound is reached: with up to `n` positions at once, the limit on trades per day is overshot by `n - 1`.
   Without a cap on positions `n` is any number.
   */
  lemma OvershootReached(cfg: Config, n: nat) returns (ops: seq<Op>)
    requires CanTrade(cfg) && cfg.maxTradesPerDay >= 1 && n >= 1
    requires cfg.maxConcurrentPositions > 0 ==> n <= cfg.maxConcurrentPositions
    ensures LegalRun(cfg, InitialLedger(cfg.initialCapital), ops)
    ensures RunOps(cfg, InitialLedger(cfg.initialCapital), ops).tradesToday == cfg.maxTradesPerDay + n - 1
  {
    var start := InitialLedger(cfg.initialCapital);
    var ts := EarlyEnough(cfg);
    var capital := Afford(cfg, n);
    var l := Apply(cfg, start, Look(ts));
    NoSlots(capital, 0);
    assert Quiet(cfg, l, Day(ts), 0, capital, 0, 0);
    RunOne(cfg, start, Look(ts));
    hide Apply, Legal, Affordable, Slots;
    var singles := Singles(cfg, l, ts, capital, cfg.maxTradesPerDay - 1);
    var l1 := RunOps(cfg, l, singles);
    var last := Wave(cfg, l1, ts, cfg.maxTradesPerDay - 1, capital, n);
    RunAppend(cfg, l, singles, last);
    RunAppend(cfg, start, [Look(ts)], singles + last);
    ops := [Look(ts)] + (singles + last);
  }

  // ----- Configurations under which nothing is ever let in -----

  ghost predicate Untouched(cfg: Config, l: Ledger) {
    && l.initialCapital == cfg.initialCapital && l.realizedPnL == 0.0 && l.tradesToday == 0 && Flat(l)
  }

  lemma CannotTrade(cfg: Config, l: Ledger, ts: int, req: Request)
    requires !CanTrade(cfg) && Untouched(cfg, l)
    ensures Decide(cfg, l, ts, req).Rejected?
  {
    if cfg.entryCutoffMs.Some? && cfg.entryCutoffMs.value <= 0 {
      assert AfterCutoff(cfg, ts);
    } else {
      assert Free(l) == cfg.initialCapital;
      NeverSizes(cfg, Equity(l), Free(l), req);
    }
  }

  lemma NeverSizes(cfg: Config, equity: real, available: real, req: Request)
    requires available <= 0.0 || cfg.reserveBufferPct >= 100.0
    ensures BuildSizingPreview(cfg, equity, available, req).1.Some?
  {
    hide BuildSizingPreview, PerLotCapital, CapitalBudget;
    if PerLotCapital(cfg, req) > 0.0 {
      SizingOptimal(cfg, equity, available, req);
      NoBudget(cfg, available);
      assert !Fits(cfg, equity, available, req, 1);
    } else {
      WorthlessNeverSizes(cfg, equity, available, req);
    }
  }

  lemma NoBudget(cfg: Config, available: real)
    requires available <= 0.0 || cfg.reserveBufferPct >= 100.0
    ensures available <= 0.0 || CapitalBudget(cfg, available) <= 0.0
  {
    var share := 1.0 - cfg.reserveBufferPct / 100.0;
    var base := if cfg.capitalPerTrade > 0.0 then MinReal(cfg.capitalPerTrade, available) else available;
    if available > 0.0 {
      MulMono(base, share, 0.0);
    }
  }

  lemma UntouchedStep(cfg: Config, l: Ledger, op: Op)
    requires !CanTrade(cfg) && Untouched(cfg, l) && Legal(l, op)
    ensures Untouched(cfg, Apply(cfg, l, op))
  {
    match op {
      case Admit(rid, ts, req) =>
        CannotTrade(cfg, Observed(cfg, l, ts), ts, req);
      case MarkAll(ts, marks) =>
        assert Marked(l.open, marks, ts) == map[];
      case _ =>
    }
  }

  lemma {:induction false} NothingTrades(cfg: Config, l: Ledger, ops: seq<Op>)
    requires !CanTrade(cfg) && Untouched(cfg, l) && LegalRun(cfg, l, ops)
    ensures RunOps(cfg, l, ops).tradesToday == 0
    decreases ops
  {
    hide Apply, Legal;
    if ops != [] {
      UntouchedStep(cfg, l, ops[0]);
      NothingTrades(cfg, Apply(cfg, l, ops[0]), ops[1..]);
    }
  }

  /**
   The daily limit is kept on every run exactly when one position at a time is allowed, or when the configuration
   lets nothing in at all.
   */
  lemma DailyLimitExact(cfg: Config)
    requires cfg.maxTradesPerDay >= 1
    ensures LimitKept(cfg) <==> cfg.maxConcurrentPositions == 1 || !CanTrade(cfg)
  {
    var start := InitialLedger(cfg.initialCapital);
    if !CanTrade(cfg) {
      forall ops | LegalRun(cfg, start, ops)
        ensures RunOps(cfg, start, ops).tradesToday <= cfg.maxTradesPerDay
      {
        NothingTrades(cfg, start, ops);
      }
    } else if cfg.maxConcurrentPositions == 1 {
      forall ops | LegalRun(cfg, start, ops)
        ensures RunOps(cfg, start, ops).tradesToday <= cfg.maxTradesPerDay
      {
        CapsOverRuns(cfg, start, ops);
      }
    } else {
      var ops := OvershootReached(cfg, 2);
      assert RunOps(cfg, start, ops).tradesToday == cfg.maxTradesPerDay + 1;
    }
  }
}

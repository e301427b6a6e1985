/**
 * The option-contract search of src/fno/optionsRouter.js: the gates, the ranking, the premium-band
 * fallback, and the recursion over expiries and relaxation stages.
 */
module OptionsRouter {
  import opened Common
  import opened Sorting

  // ---------- market data and settings ----------

  /**
   * One row of an option-chain snapshot. `None` stands for a value the snapshot does not carry as a finite
   * number; depth, volume, open interest and flicker read as 0 when absent. `liqBase` is the part of the
   * liquidity score that does not depend on the spread cap (the logarithms of depth, volume and open
   * interest, and the health share).
   */
  datatype Row = Row(
    strike: real, ltp: Option<real>, spread: Option<real>, spreadChange: Option<real>, flicker: real,
    health: Option<real>, depth: real, volume: real, oi: real, oiChange: Option<real>,
    delta: Option<real>, gamma: Option<real>, iv: Option<real>, ivChange: Option<real>, liqBase: real)

  datatype Settings = Settings(
    isCall: bool,
    minPrem: real, maxPrem: real, enforcePremBand: bool, requireOk: bool,
    premFallback: bool, slackDown: real, slackUp: real,
    maxSpread: real, spreadRise: real, flickerBlock: real, minHealth: real, minDepth: real,
    hardening: bool, hardMinDepth: real, maxDanger: real,
    deltaEnforce: bool, deltaMin: real, deltaMax: real, deltaTarget: real, deltaNearest: bool,
    gammaMax: real, gammaGateDte: real, ivMax: real, ivDrop: real, greeksRequired: bool,
    liqEnabled: bool, liqMinScore: real, liqMaxSpread: real, liqMinDepth: real,
    liqMinOi: real, liqMinVolume: real, liqTopN: nat,
    wallBlock: bool, wallMult: real, wallStrikes: int, wallNeedsChange: bool,
    score: (Row, real, real) -> real)

  /** What one call of the search sees for its expiry. */
  datatype Chain = Chain(rows: seq<Row>, baseStrike: real, step: real, hasCandidates: bool, dte: Option<real>)

  predicate OneDte(dte: Option<real>) {
    dte.Some? && dte.value <= 1.0
  }

  predicate Hardened(s: Settings, c: Chain) {
    s.hardening && OneDte(c.dte)
  }

  // ---------- 1-DTE policy ----------

  datatype MarketState = Unknown | TrendCompressed | BreakoutWatch | FailedBreakout | RangeChop | TrapRiskHigh | NoTrade

  datatype Tier = Low | Medium | High | Extreme

  datatype Advice = Allow | PreferFartherDte | BlockTrade

  datatype DtePolicy = NearestOk | Prefer2To5 | Prefer3To7 | AvoidAll

  datatype BlockReason = DangerStack | MarketStateBlock

  predicate HostileState(state: MarketState) {
    state in {FailedBreakout, RangeChop, TrapRiskHigh, NoTrade}
  }

  predicate PolicyBlocks(dte: Option<real>, state: MarketState, danger: real, maxDanger: real) {
    OneDte(dte) && (danger > maxDanger || HostileState(state))
  }

  /**
   * The adaptive policy for contracts about to expire: exactly when it blocks and why; the tier decides size and
   * expiry advice, and tier and expiry together decide the recommendation.
   */
  method BuildProductRiskAdaptation(s: Settings, dte: Option<real>, state: MarketState, danger: real)
    returns (hardened: bool, blocked: Option<BlockReason>, tier: Tier, advice: Advice, dtePolicy: DtePolicy,
             sizeMult: real, fragility: real)
    ensures hardened <==> s.hardening && OneDte(dte)
    ensures blocked.Some? <==> PolicyBlocks(dte, state, danger, s.maxDanger)
    ensures blocked.Some? <==> OneDte(dte) && advice == BlockTrade
    ensures blocked == Some(DangerStack) <==> OneDte(dte) && danger > s.maxDanger
    ensures tier == Extreme <==> state in {TrapRiskHigh, NoTrade} || blocked == Some(DangerStack)
    ensures tier == Low ==> state == Unknown
    ensures tier == Medium ==> state in {TrendCompressed, BreakoutWatch}
    ensures tier == High ==> state in {FailedBreakout, RangeChop}
    ensures (tier, sizeMult, dtePolicy) in
            {(Low, 1.0, NearestOk), (Medium, 0.6, Prefer2To5), (High, 0.35, Prefer3To7), (Extreme, 0.0, AvoidAll)}
    ensures advice == BlockTrade <==> tier == Extreme || (tier == High && OneDte(dte))
    ensures advice == PreferFartherDte <==> (tier == Medium && OneDte(dte)) || (tier == High && !OneDte(dte))
    ensures 0.0 <= fragility <= 100.0
    ensures var f := (if OneDte(dte) then 42.0 else 0.0) + MinReal(45.0, danger * 0.4)
                     + (if state in {FailedBreakout, TrapRiskHigh} then 14.0 else 0.0);
            0.0 <= f <= 100.0 ==> fragility == f
    ensures danger >= 0.0 && OneDte(dte) ==> fragility >= 42.0
  {
    var oneDte := OneDte(dte);
    hardened := s.hardening && oneDte;
    tier, advice, dtePolicy, sizeMult, blocked := Low, Allow, NearestOk, 1.0, None;
    if state == TrendCompressed || state == BreakoutWatch {
      tier, dtePolicy, sizeMult := Medium, Prefer2To5, 0.6;
      if oneDte {
        advice := PreferFartherDte;
      }
    } else if state == FailedBreakout || state == RangeChop {
      tier, dtePolicy, sizeMult := High, Prefer3To7, 0.35;
      advice := if oneDte then BlockTrade else PreferFartherDte;
    } else if state == TrapRiskHigh || state == NoTrade {
      tier, dtePolicy, sizeMult, advice := Extreme, AvoidAll, 0.0, BlockTrade;
    }
    if oneDte && danger > s.maxDanger {
      tier, dtePolicy, sizeMult, advice, blocked := Extreme, AvoidAll, 0.0, BlockTrade, Some(DangerStack);
    }
    if blocked.None? && oneDte && advice == BlockTrade {
      blocked := Some(MarketStateBlock);
    }
    fragility := if oneDte then 42.0 else 0.0;
    fragility := fragility + MinReal(45.0, danger * 0.4);
    if state == FailedBreakout || state == TrapRiskHigh {
      fragility := fragility + 14.0;
    }
    fragility := MaxReal(0.0, MinReal(100.0, fragility));
  }

  // ---------- relaxation stages ----------

  function MaxBps(s: Settings, c: Chain, stage: nat): real {
    (if stage >= 1 then s.maxSpread * 1.25 else s.maxSpread) * if Hardened(s, c) then 0.88 else 1.0
  }

  function PremiumSlack(stage: nat): real {
    if stage >= 2 then 25.0 else 0.0
  }

  function MinDepth(s: Settings, c: Chain): real {
    if Hardened(s, c) then MaxReal(s.minDepth, s.hardMinDepth) else s.minDepth
  }

  function MinHealth(s: Settings, c: Chain): real {
    s.minHealth + if Hardened(s, c) then 5.0 else 0.0
  }

  // ---------- liquidity pool ----------

  function LiqScore(r: Row, cap: real): real {
    var spreadPart :=
      if r.spread.None? then 0.0
      else (1.0 - MinReal(1.0, MaxReal(0.0, MinReal(2.0, r.spread.value / MaxReal(1.0, cap))))) * 45.0;
    MaxReal(0.0, MinReal(100.0, spreadPart + r.liqBase))
  }

  predicate LiqOk(s: Settings, r: Row) {
    && (!s.liqEnabled || LiqScore(r, s.liqMaxSpread) >= s.liqMinScore)
    && r.spread.Some? && r.spread.value <= s.liqMaxSpread
    && r.depth >= MaxReal(0.0, s.liqMinDepth)
    && r.volume >= MaxReal(0.0, s.liqMinVolume)
    && r.oi >= MaxReal(0.0, s.liqMinOi)
  }

  function ByLiquidity(cap: real): Row -> Rank {
    (r: Row) => Rank(true, -LiqScore(r, cap), 0.0)
  }

  function PassesLiquidity(s: Settings): Row -> bool {
    (r: Row) => LiqOk(s, r)
  }

  /** The rows the delta anchor may come from: the liquid ones, best liquidity first, cut to the top N when N > 0. */
  function ScopedRows(s: Settings, c: Chain): seq<Row> {
    var liquid := Filter(SortBy(c.rows, ByLiquidity(s.liqMaxSpread)), PassesLiquidity(s));
    if 0 < s.liqTopN < |liquid| then liquid[..s.liqTopN] else liquid
  }

  // ---------- delta anchor ----------

  function HasDelta(): Row -> bool {
    (r: Row) => r.delta.Some?
  }

  function DeltaRank(s: Settings, fallback: real): Row -> Rank {
    (r: Row) =>
      var abs := if r.delta.Some? then AbsReal(r.delta.value) else 0.0;
      Rank(s.deltaMin <= abs <= s.deltaMax, AbsReal(abs - s.deltaTarget), AbsReal(r.strike - fallback))
  }

  function PickDeltaAnchorStrike(s: Settings, rows: seq<Row>, fallback: real): real {
    match Head(SortBy(Filter(rows, HasDelta()), DeltaRank(s, fallback)))
    case None => fallback
    case Some(r) => r.strike
  }

  function DesiredStrike(s: Settings, c: Chain): real {
    if !s.deltaNearest then c.baseStrike
    else
      var scoped := ScopedRows(s, c);
      PickDeltaAnchorStrike(s, if scoped == [] then c.rows else scoped, c.baseStrike)
  }

  /**
   * The anchor is the strike of a row nearest the target delta, in-band rows first; without deltas it is the fallback.
   */
  lemma AnchorIsNearest(s: Settings, rows: seq<Row>, fallback: real)
    ensures var k := PickDeltaAnchorStrike(s, rows, fallback);
            if exists r :: r in rows && r.delta.Some? then
              exists b :: && b in rows && b.delta.Some? && b.strike == k
                          && forall r :: r in rows && r.delta.Some? ==>
                               Le(DeltaRank(s, fallback)(b), DeltaRank(s, fallback)(r))
            else k == fallback
  {
    hide Filter, SortBy;
    LeastSurvivor(rows, HasDelta(), DeltaRank(s, fallback));
    assert forall r :: HasDelta()(r) <==> r.delta.Some?;
  }

  // ---------- open-interest wall ----------

  datatype Wall = Wall(strike: real, oi: real)

  function Positive(): real -> bool {
    (x: real) => x > 0.0
  }

  function Ascending(): real -> Rank {
    (x: real) => Rank(true, x, 0.0)
  }

  function Interests(rows: seq<Row>): seq<real> {
    seq(|rows|, i requires 0 <= i < |rows| => rows[i].oi)
  }

  /** Median of the positive open interests; `None` when there are none. */
  function MedianOi(rows: seq<Row>): Option<real> {
    var a := SortBy(Filter(Interests(rows), Positive()), Ascending());
    if a == [] then None
    else
      var mid := |a| / 2;
      Some(if |a| % 2 == 1 then a[mid] else (a[mid - 1] + a[mid]) / 2.0)
  }

  /** The first row at a strike, as `find` returns it. */
  function RowAt(rows: seq<Row>, strike: real): (r: Option<Row>)
    ensures r.Some? ==> r.value in rows && r.value.strike == strike
    ensures r.None? ==> forall x :: x in rows ==> x.strike != strike
  {
    if rows == [] then None
    else if rows[0].strike == strike then Some(rows[0])
    else RowAt(rows[1..], strike)
  }

  function WallStrike(s: Settings, desired: real, step: real, i: nat): real {
    desired + (if s.isCall then i as real else -(i as real)) * step
  }

  /** The `i`-th strike out is a wall candidate: it has open interest, growing when growth is asked for. */
  function WallAt(s: Settings, rows: seq<Row>, desired: real, step: real, i: nat): Option<Wall> {
    match RowAt(rows, WallStrike(s, desired, step, i))
    case None => None
    case Some(r) =>
      if r.oi <= 0.0 then None
      else if s.wallNeedsChange && !(r.oiChange.Some? && r.oiChange.value > 0.0) then None
      else Some(Wall(WallStrike(s, desired, step, i), r.oi))
  }

  /** The biggest candidate among the first `n` strikes out, the nearest of equals. */
  function BiggestWall(s: Settings, rows: seq<Row>, desired: real, step: real, n: nat): Option<Wall> {
    if n == 0 then None
    else
      var nearer := BiggestWall(s, rows, desired, step, n - 1);
      var here := WallAt(s, rows, desired, step, n);
      if here.Some? && (nearer.None? || here.value.oi > nearer.value.oi) then here else nearer
  }

  /** Candidate `i` beats every other of the first `n`: none has more open interest, and none nearer has as much. */
  ghost predicate Dominates(s: Settings, rows: seq<Row>, desired: real, step: real, n: nat, i: nat) {
    && 1 <= i <= n && WallAt(s, rows, desired, step, i).Some?
    && forall j :: 1 <= j <= n && WallAt(s, rows, desired, step, j).Some? ==>
         var w, v := WallAt(s, rows, desired, step, i).value, WallAt(s, rows, desired, step, j).value;
         v.oi < w.oi || (v.oi == w.oi && i <= j)
  }

  lemma {:induction false} BiggestWallDominates(s: Settings, rows: seq<Row>, desired: real, step: real, n: nat)
    returns (i: nat)
    ensures var w := BiggestWall(s, rows, desired, step, n);
            if w.Some? then Dominates(s, rows, desired, step, n, i) && WallAt(s, rows, desired, step, i) == w
            else forall j :: 1 <= j <= n ==> WallAt(s, rows, desired, step, j).None?
  {
    hide WallAt;
    i := 0;
    if n > 0 {
      var k := BiggestWallDominates(s, rows, desired, step, n - 1);
      i := if BiggestWall(s, rows, desired, step, n) == BiggestWall(s, rows, desired, step, n - 1) then k else n;
    }
  }

  function OiWall(s: Settings, rows: seq<Row>, desired: real, step: real): Option<Wall> {
    var med := MedianOi(rows);
    if med.None? then None
    else
      var best := BiggestWall(s, rows, desired, step, MaxInt(1, s.wallStrikes));
      if best.Some? && best.value.oi >= med.value * s.wallMult then best else None
  }

  lemma MedianIsPositive(rows: seq<Row>)
    ensures MedianOi(rows).Some? ==> MedianOi(rows).value > 0.0
    ensures MedianOi(rows).None? <==> forall r :: r in rows ==> r.oi <= 0.0
  {
    hide Filter, SortBy;
    var ois := Interests(rows);
    var pool := Filter(ois, Positive());
    FilterMembers(ois, Positive());
    SortMembers(pool, Ascending());
    var a := SortBy(pool, Ascending());
    forall x | x in a
      ensures x > 0.0
    {
      assert x in pool;
      assert Positive()(x);
    }
    forall r | r in rows && r.oi > 0.0
      ensures r.oi in a
    {
      var i :| 0 <= i < |rows| && rows[i] == r;
      assert ois[i] in ois && Positive()(ois[i]);
    }
    if a != [] {
      assert a[|a| / 2] in a;
      assert |a| % 2 == 0 ==> a[|a| / 2 - 1] in a;
      assert a[0] in pool;
      assert a[0] in ois;
      var i :| 0 <= i < |ois| && ois[i] == a[0];
      assert rows[i] in rows;
    }
  }

  /** The scan outward from the desired strike finds the wall of the specification. */
  method ComputeOiWallContext(s: Settings, rows: seq<Row>, desired: real, step: real) returns (wall: Option<Wall>)
    ensures wall == OiWall(s, rows, desired, step)
  {
    hide MedianOi, WallStrike, RowAt;
    var med := MedianOi(rows);
    MedianIsPositive(rows);
    if med.None? || !(med.value > 0.0) {
      return None;
    }
    var strikes := MaxInt(1, s.wallStrikes);
    var best: Option<Wall> := None;
    var i := 1;
    while i <= strikes
      invariant 1 <= i <= strikes + 1
      invariant best == BiggestWall(s, rows, desired, step, i - 1)
    {
      var k := WallStrike(s, desired, step, i);
      var row := RowAt(rows, k);
      if row.Some? && row.value.oi > 0.0 {
        var okChange := !s.wallNeedsChange || (row.value.oiChange.Some? && row.value.oiChange.value > 0.0);
        if okChange && (best.None? || row.value.oi > best.value.oi) {
          best := Some(Wall(k, row.value.oi));
        }
      }
      i := i + 1;
    }
    if best.None? {
      return None;
    }
    wall := if best.value.oi >= med.value * s.wallMult then best else None;
  }

  /** Calls are hurt at and above a wall, puts at and below it. */
  predicate WallBlocks(s: Settings, wall: Option<Wall>, r: Row) {
    wall.Some? && if s.isCall then r.strike >= wall.value.strike else r.strike <= wall.value.strike
  }

  // ---------- gates ----------

  /** The wall is sought from the desired strike, whatever the stage. */
  function ChainWall(s: Settings, c: Chain): Option<Wall> {
    OiWall(s, c.rows, DesiredStrike(s, c), c.step)
  }

  predicate PremOk(s: Settings, stage: nat, r: Row) {
    r.ltp.Some? ==> s.minPrem - PremiumSlack(stage) <= r.ltp.value <= s.maxPrem + PremiumSlack(stage)
  }

  predicate BookOk(s: Settings, c: Chain, stage: nat, r: Row) {
    && r.spread.Some? && r.spread.value <= MaxBps(s, c, stage)
    && (r.spreadChange.Some? ==> r.spreadChange.value <= s.spreadRise)
    && r.flicker <= s.flickerBlock
    && (r.health.Some? ==> r.health.value >= MinHealth(s, c))
    && (if MinDepth(s, c) > 0.0 then r.depth >= MinDepth(s, c) else r.depth > 0.0)
    && (s.liqEnabled ==> LiqOk(s, r))
  }

  predicate DeltaOk(s: Settings, r: Row) {
    if r.delta.Some? then s.deltaMin <= AbsReal(r.delta.value) <= s.deltaMax else !s.greeksRequired
  }

  predicate GreeksOk(s: Settings, c: Chain, stage: nat, r: Row) {
    && (if r.iv.Some? then r.iv.value <= s.ivMax else !s.greeksRequired)
    && (r.ivChange.Some? ==> r.ivChange.value >= -s.ivDrop)
    && (stage < 3 && s.deltaEnforce ==> DeltaOk(s, r))
    && (if r.gamma.Some?
        then stage < 4 && c.dte.Some? && c.dte.value <= s.gammaGateDte ==> r.gamma.value <= s.gammaMax
        else !s.greeksRequired)
  }

  /** Every gate but the premium band. */
  predicate HardOk(s: Settings, c: Chain, stage: nat, r: Row) {
    && BookOk(s, c, stage, r)
    && GreeksOk(s, c, stage, r)
    && (s.wallBlock ==> !WallBlocks(s, ChainWall(s, c), r))
  }

  predicate Ok(s: Settings, c: Chain, stage: nat, r: Row) {
    PremOk(s, stage, r) && HardOk(s, c, stage, r)
  }

  predicate Eligible(s: Settings, c: Chain, stage: nat, r: Row) {
    (s.enforcePremBand ==> PremOk(s, stage, r)) && (s.requireOk ==> Ok(s, c, stage, r))
  }

  /** The premium-band-only fallback accepts a row that passes every other gate within the wider premium window. */
  predicate Rescued(s: Settings, c: Chain, stage: nat, r: Row) {
    && HardOk(s, c, stage, r)
    && r.ltp.Some? && s.minPrem - s.slackDown <= r.ltp.value <= s.maxPrem + s.slackUp
  }

  predicate FallbackAllowed(s: Settings) {
    s.premFallback && s.requireOk && s.enforcePremBand
  }

  // ---------- ranking and choice ----------

  function Distance(s: Settings, c: Chain, r: Row): real {
    AbsReal(r.strike - DesiredStrike(s, c))
  }

  function Score(s: Settings, c: Chain, r: Row): real {
    var dist := Distance(s, c, r);
    var wall := ChainWall(s, c);
    var penalty := if WallBlocks(s, wall, r) then 60.0 else if wall.Some? then 10.0 else 0.0;
    s.score(r, if c.step > 0.0 then dist / c.step else dist, penalty)
  }

  function RowRank(s: Settings, c: Chain, stage: nat): Row -> Rank {
    (r: Row) => Rank(Ok(s, c, stage, r), Score(s, c, r), Distance(s, c, r))
  }

  function RescueRank(s: Settings, c: Chain): Row -> Rank {
    (r: Row) => Rank(true, Score(s, c, r), Distance(s, c, r))
  }

  function IsEligible(s: Settings, c: Chain, stage: nat): Row -> bool {
    (r: Row) => Eligible(s, c, stage, r)
  }

  function IsRescued(s: Settings, c: Chain, stage: nat): Row -> bool {
    (r: Row) => Rescued(s, c, stage, r)
  }

  datatype Pick = Pick(row: Row, byFallback: bool)

  function Scored(s: Settings, c: Chain, stage: nat): seq<Row> {
    SortBy(c.rows, RowRank(s, c, stage))
  }

  function BestRescued(s: Settings, c: Chain, stage: nat): Option<Row> {
    Head(SortBy(Filter(Scored(s, c, stage), IsRescued(s, c, stage)), RescueRank(s, c)))
  }

  function Choose(s: Settings, c: Chain, stage: nat): Option<Pick> {
    match Head(Filter(Scored(s, c, stage), IsEligible(s, c, stage)))
    case Some(r) => Some(Pick(r, false))
    case None =>
      if !FallbackAllowed(s) then None
      else
        match BestRescued(s, c, stage)
        case Some(r) => Some(Pick(r, true))
        case None => None
  }

  lemma NoRowsNoPick(p: Row -> bool, rank: Row -> Rank)
    ensures Head(SortBy(Filter([], p), rank)) == None
  {
  }

  /** The fallback loop over the scored rows keeps the first row that is best by score, then distance. */
  method PremiumBandFallback(s: Settings, c: Chain, stage: nat) returns (best: Option<Row>)
    ensures best == BestRescued(s, c, stage)
  {
    hide Scored, Score, Distance, Rescued, Filter, SortBy;
    var scored := Scored(s, c, stage);
    ghost var rank := RescueRank(s, c);
    ghost var rescued := IsRescued(s, c, stage);
    best := None;
    NoRowsNoPick(rescued, rank);
    assert scored[..0] == [];
    var i := 0;
    while i < |scored|
      invariant 0 <= i <= |scored|
      invariant best == Head(SortBy(Filter(scored[..i], rescued), rank))
    {
      var x := scored[i];
      FilterOfLonger(scored[..i], x, rescued);
      HeadOfLonger(Filter(scored[..i], rescued), x, rank);
      assert scored[..i + 1] == scored[..i] + [x];
      assert Filter(scored[..i], rescued) + [] == Filter(scored[..i], rescued);
      if Rescued(s, c, stage, x) {
        if best.None? {
          best := Some(x);
        } else if Score(s, c, x) < Score(s, c, best.value) {
          best := Some(x);
        } else if Score(s, c, x) == Score(s, c, best.value)
                  && Distance(s, c, x) < Distance(s, c, best.value) {
          best := Some(x);
        }
      }
      i := i + 1;
    }
    assert scored[..i] == scored;
  }

  /**
   * What a call returns: the least eligible row under (ok, score, distance) when a row is eligible; else,
   * with the fallback on, the least row that only misses the premium band; else nothing.
   */
  lemma ChoiceIsLeast(s: Settings, c: Chain, stage: nat)
    ensures var p := Choose(s, c, stage);
            if exists r :: r in c.rows && Eligible(s, c, stage, r) then
              && p.Some? && !p.value.byFallback && p.value.row in c.rows && Eligible(s, c, stage, p.value.row)
              && forall r :: r in c.rows && Eligible(s, c, stage, r) ==>
                   Le(RowRank(s, c, stage)(p.value.row), RowRank(s, c, stage)(r))
            else if FallbackAllowed(s) && exists r :: r in c.rows && Rescued(s, c, stage, r) then
              && p.Some? && p.value.byFallback && p.value.row in c.rows && Rescued(s, c, stage, p.value.row)
              && forall r :: r in c.rows && Rescued(s, c, stage, r) ==>
                   Le(RescueRank(s, c)(p.value.row), RescueRank(s, c)(r))
            else p.None?
  {
    hide Filter, SortBy, Eligible, Rescued, RowRank, RescueRank;
    var eligible, rescued := IsEligible(s, c, stage), IsRescued(s, c, stage);
    FirstIsLeast(c.rows, eligible, RowRank(s, c, stage));
    assert forall r :: eligible(r) <==> Eligible(s, c, stage, r);
    SortMembers(c.rows, RowRank(s, c, stage));
    LeastSurvivor(Scored(s, c, stage), rescued, RescueRank(s, c));
    assert forall r :: rescued(r) <==> Rescued(s, c, stage, r);
  }

  // ---------- what a later stage accepts ----------

  /**
   * Of the gates, a later stage tightens none but the spread cap, and that only when the cap is negative: a row that
   * passes at one stage passes at every later one exactly when its spread is within the later stage's cap.
   */
  lemma LaterStageExact(s: Settings, c: Chain, i: nat, j: nat, r: Row)
    requires i <= j && HardOk(s, c, i, r)
    ensures HardOk(s, c, j, r) <==> r.spread.value <= MaxBps(s, c, j)
    ensures s.maxSpread >= 0.0 || 1 <= i ==> HardOk(s, c, j, r)
    ensures PremOk(s, i, r) ==> PremOk(s, j, r)
  {
    hide ChainWall, LiqOk;
  }

  /** Every row of the chain that passes the gates at stage `i` is within the spread cap of stage `j`. */
  ghost predicate SpreadsFit(s: Settings, c: Chain, i: nat, j: nat) {
    forall r :: r in c.rows && HardOk(s, c, i, r) ==> r.spread.value <= MaxBps(s, c, j)
  }

  /** A spread cap that is not negative only grows; between relaxed stages it does not change. */
  lemma CapOnlyGrows(s: Settings, c: Chain, i: nat, j: nat)
    requires i <= j && (s.maxSpread >= 0.0 || 1 <= i)
    ensures SpreadsFit(s, c, i, j)
  {
    hide ChainWall, LiqOk;
    forall r | r in c.rows && HardOk(s, c, i, r)
      ensures r.spread.value <= MaxBps(s, c, j)
    {
      LaterStageExact(s, c, i, j, r);
    }
  }

  lemma GatesOnlyLoosen(s: Settings, c: Chain, i: nat, j: nat, r: Row)
    requires i <= j && r in c.rows && SpreadsFit(s, c, i, j)
    ensures HardOk(s, c, i, r) ==> HardOk(s, c, j, r)
    ensures Eligible(s, c, i, r) ==> Eligible(s, c, j, r)
    ensures Rescued(s, c, i, r) ==> Rescued(s, c, j, r)
  {
    hide ChainWall, BookOk, GreeksOk;
    if HardOk(s, c, i, r) {
      LaterStageExact(s, c, i, j, r);
    }
    if s.enforcePremBand && PremOk(s, i, r) {
      assert PremOk(s, j, r);
    }
  }

  /** No row of a chain loses a gate at a later stage exactly when the spreads of those that pass fit its cap. */
  lemma NoRowLostExact(s: Settings, c: Chain, i: nat, j: nat)
    requires i <= j
    ensures (forall r :: r in c.rows && HardOk(s, c, i, r) ==> HardOk(s, c, j, r)) <==> SpreadsFit(s, c, i, j)
  {
    hide HardOk;
    forall r | r in c.rows && HardOk(s, c, i, r)
      ensures HardOk(s, c, j, r) <==> r.spread.Some? && r.spread.value <= MaxBps(s, c, j)
    {
      PassingHasSpread(s, c, i, r);
      LaterStageExact(s, c, i, j, r);
    }
    forall r | r in c.rows && HardOk(s, c, i, r)
      ensures r.spread.Some?
    {
      PassingHasSpread(s, c, i, r);
    }
  }

  lemma PassingHasSpread(s: Settings, c: Chain, i: nat, r: Row)
    requires HardOk(s, c, i, r)
    ensures r.spread.Some?
  {
  }

  /**
   * Then every later stage accepts all that an earlier one accepts, and so finds a pick where it did.  A pick made
   * without the fallback is followed by one that ranks at least as high, at the later stage; when all gates are
   * required, it is at least as good by score and distance alone.
   */
  lemma StagesOnlyAddRows(s: Settings, c: Chain, i: nat, j: nat)
    requires i <= j && SpreadsFit(s, c, i, j)
    ensures forall r :: r in c.rows && Eligible(s, c, i, r) ==> Eligible(s, c, j, r)
    ensures forall r :: r in c.rows && Rescued(s, c, i, r) ==> Rescued(s, c, j, r)
    ensures Choose(s, c, i).Some? ==> Choose(s, c, j).Some?
    ensures Choose(s, c, i).Some? && !Choose(s, c, i).value.byFallback ==>
              var p, q := Choose(s, c, i).value.row, Choose(s, c, j).value;
              && !q.byFallback && Le(RowRank(s, c, j)(q.row), RowRank(s, c, j)(p))
              && (s.requireOk ==> Le(RescueRank(s, c)(q.row), RescueRank(s, c)(p)))
  {
    forall r | r in c.rows
      ensures Eligible(s, c, i, r) ==> Eligible(s, c, j, r)
      ensures Rescued(s, c, i, r) ==> Rescued(s, c, j, r)
    {
      GatesOnlyLoosen(s, c, i, j, r);
    }
    hide Choose, Eligible, Rescued, RowRank, RescueRank, SpreadsFit;
    ChoiceIsLeast(s, c, i);
    ChoiceIsLeast(s, c, j);
    if Choose(s, c, i).Some? && !Choose(s, c, i).value.byFallback {
      PicksEligible(s, c, i);
      var p, q := Choose(s, c, i).value.row, Choose(s, c, j).value.row;
      assert p in c.rows && Eligible(s, c, j, p);
      if s.requireOk {
        OkRanks(s, c, j, p);
        OkRanks(s, c, j, q);
      }
    }
  }

  lemma PicksEligible(s: Settings, c: Chain, stage: nat)
    requires Choose(s, c, stage).Some? && !Choose(s, c, stage).value.byFallback
    ensures Choose(s, c, stage).value.row in c.rows && Eligible(s, c, stage, Choose(s, c, stage).value.row)
  {
    hide Choose, Eligible, Rescued, RowRank, RescueRank;
    ChoiceIsLeast(s, c, stage);
  }

  lemma OkRanks(s: Settings, c: Chain, stage: nat, r: Row)
    requires s.requireOk && Eligible(s, c, stage, r)
    ensures RowRank(s, c, stage)(r) == RescueRank(s, c)(r)
  {
    hide Score, Distance, Ok;
  }
}

/**
 * Simulated fills: the seeded generator and the realism model of src/backtest/executionRealism.js, and the
 * order life cycle of src/backtest/eventBrokerSimulator.js. Prices and draws are exact reals.
 */
module Execution {
  import opened Common

  // ---------- the seeded generator ----------

  const MODULUS := 2147483647
  const MULTIPLIER := 48271
  const INVERSE := 1899818559

  /** The first state; a missing or zero seed reads as 1, a negative one is raised to 1. */
  function StartState(seed: Option<int>): int {
    MaxInt(1, if seed.Some? && seed.value != 0 then seed.value else 1) % MODULUS
  }

  function StepState(s: int): int {
    s * MULTIPLIER % MODULUS
  }

  function StateAfter(s: int, n: nat): int {
    if n == 0 then s else StepState(StateAfter(s, n - 1))
  }

  /** The number drawn on arriving at state `s`. */
  function DrawAt(s: int): real {
    (s - 1) as real / (MODULUS - 1) as real
  }

  /** The states the generator is meant to visit. */
  predicate Live(s: int) {
    1 <= s < MODULUS
  }

  /** Multiplying by the inverse undoes a step. */
  lemma StepUndone(s: int)
    requires 0 <= s < MODULUS
    ensures StepState(s) * INVERSE % MODULUS == s
  {
    var q, t := s * MULTIPLIER / MODULUS, StepState(s);
    assert s * MULTIPLIER == q * MODULUS + t;
    var k := MULTIPLIER * INVERSE / MODULUS;
    assert MULTIPLIER * INVERSE == k * MODULUS + 1;
    assert t * INVERSE == (s * k - q * INVERSE) * MODULUS + s;
    Remainder(t * INVERSE, s * k - q * INVERSE, s);
  }

  lemma Remainder(x: int, q: int, r: int)
    requires x == q * MODULUS + r && 0 <= r < MODULUS
    ensures x % MODULUS == r
  {
  }

  /** A step maps live states to live states, one to one and onto. */
  lemma StepIsBijection(s: int)
    requires Live(s)
    ensures Live(StepState(s))
    ensures forall t :: Live(t) && StepState(t) == StepState(s) ==> t == s
    ensures exists t :: Live(t) && StepState(t) == s
  {
    hide StepState;
    StepRange(s);
    StepUndone(s);
    forall t | Live(t) && StepState(t) == StepState(s)
      ensures t == s
    {
      StepUndone(t);
    }
    var t := Predecessor(s);
  }

  lemma StepRange(s: int)
    requires Live(s)
    ensures Live(StepState(s))
  {
    StepUndone(s);
    assert StepState(s) == 0 ==> s == 0;
  }

  lemma Predecessor(s: int) returns (t: int)
    requires Live(s)
    ensures Live(t) && StepState(t) == s
  {
    t := s * INVERSE % MODULUS;
    var q, k := s * INVERSE / MODULUS, MULTIPLIER * INVERSE / MODULUS;
    assert s * INVERSE == q * MODULUS + t;
    assert MULTIPLIER * INVERSE == k * MODULUS + 1;
    assert t * MULTIPLIER == (s * k - q * MULTIPLIER) * MODULUS + s;
    Remainder(t * MULTIPLIER, s * k - q * MULTIPLIER, s);
    assert t == 0 ==> s == 0;
  }

  lemma {:induction false} StaysLive(s: int, n: nat)
    requires Live(s)
    ensures Live(StateAfter(s, n))
  {
    if n > 0 {
      StaysLive(s, n - 1);
      StepRange(StateAfter(s, n - 1));
    }
  }

  lemma {:induction false} StaysDead(n: nat)
    ensures StateAfter(0, n) == 0
  {
    if n > 0 {
      StaysDead(n - 1);
    }
  }

  /**
   * A seed that is not a positive multiple of the modulus draws from [0, 1) for ever; any other draws the same negative
   * number for ever.
   */
  lemma GeneratorDegeneratesExactly(seed: Option<int>)
    ensures var dead := seed.Some? && seed.value > 0 && seed.value % MODULUS == 0;
            && (!dead ==> forall n: nat ::
                  var s := StateAfter(StartState(seed), n);
                  Live(s) && 0.0 <= DrawAt(s) < 1.0)
            && (dead ==> forall n: nat ::
                  var s := StateAfter(StartState(seed), n);
                  s == 0 && DrawAt(s) < 0.0)
  {
    hide StepState, StateAfter;
    var s := StartState(seed);
    forall n: nat
      ensures Live(s) ==> Live(StateAfter(s, n)) && 0.0 <= DrawAt(StateAfter(s, n)) < 1.0
      ensures s == 0 ==> StateAfter(s, n) == 0 && DrawAt(StateAfter(s, n)) < 0.0
    {
      if Live(s) {
        StaysLive(s, n);
        DrawRange(StateAfter(s, n));
      } else if s == 0 {
        StaysDead(n);
        assert DrawAt(0) < 0.0;
      }
    }
  }

  lemma DrawRange(s: int)
    requires Live(s)
    ensures 0.0 <= DrawAt(s) < 1.0
  {
  }

  /** Draws repeat only in a full cycle: when a state comes back, the starting state has come back as long after. */
  lemma {:induction false} RepeatsFromTheStart(s: int, i: nat, n: nat)
    requires Live(s) && StateAfter(s, i + n) == StateAfter(s, i)
    ensures StateAfter(s, n) == s
  {
    if i > 0 {
      var a, b := StateAfter(s, i - 1), StateAfter(s, i - 1 + n);
      StaysLive(s, i - 1);
      StaysLive(s, i - 1 + n);
      StepIsBijection(a);
      assert StepState(b) == StepState(a);
      RepeatsFromTheStart(s, i - 1, n);
    }
  }

  class Generator {
    var s: int

    ghost predicate Valid()
      reads this
    {
      Live(s)
    }

    constructor (seed: Option<int>)
      ensures s == StartState(seed)
      ensures Valid() <==> !(seed.Some? && seed.value > 0 && seed.value % MODULUS == 0)
    {
      s := StartState(seed);
    }

    method Draw() returns (r: real)
      modifies this
      ensures s == StepState(old(s)) && r == DrawAt(s)
      ensures old(Valid()) ==> Valid() && 0.0 <= r < 1.0
    {
      ghost var before := s;
      s := s * MULTIPLIER % MODULUS;
      r := (s - 1) as real / (MODULUS - 1) as real;
      assert Live(before) ==> Live(s) && 0.0 <= r < 1.0 by {
        if Live(before) {
          StepRange(before);
          DrawRange(s);
        }
      }
    }
  }

  // ---------- fills ----------

  datatype Side = Buy | Sell

  /** A candle whose fields may be missing. */
  datatype Candle = Candle(open: Option<real>, high: Option<real>, low: Option<real>, close: Option<real>)

  /** The execution model's settings; missing ones take the simulator's defaults. */
  datatype Model = Model(
    spreadBps: Option<real>, slippageBps: Option<real>, partialProb: Option<real>, minPartial: Option<real>,
    latencyBars: Option<real>, tickSize: Option<real>)

  function Or<T>(x: Option<T>, d: T): T {
    if x.Some? then x.value else d
  }

  /** `Math.max(lo, Math.min(hi, v))`: with the bounds crossed it is `lo`. */
  function Clamp(v: real, lo: real, hi: real): (r: real)
    ensures lo <= r && (lo <= hi ==> r <= hi)
    ensures lo <= v <= hi ==> r == v
    ensures r == v || r == lo || r == hi
    ensures lo <= hi && r > v ==> r == lo
    ensures lo <= hi && r < v ==> r == hi
  {
    MaxReal(lo, MinReal(hi, v))
  }

  function WholeQty(q: real): (n: int)
    ensures n >= 1
  {
    MaxInt(1, Round(q))
  }

  function MinPartial(m: Model): real {
    Clamp(Or(m.minPartial, 0.35), 0.05, 1.0)
  }

  function PartialProb(m: Model): real {
    Clamp(Or(m.partialProb, 0.15), 0.0, 0.95)
  }

  function Share(filled: int, requested: int): real
    requires requested >= 1
  {
    filled as real / requested as real
  }

  /**
   * The quantity rule both simulators share: whole units, at least one, no more than asked, and the model's least share
   * up to rounding.
   */
  ghost predicate FairQty(filled: int, requested: int, m: Model, first: real) {
    && 1 <= filled <= requested
    && (first >= PartialProb(m) ==> filled == requested)
    && filled as real > requested as real * MinPartial(m) - 0.5
  }

  /** The filled share of a partial fill: between the least share and the whole. */
  function PartialShare(low: real, draw: real): real {
    low + draw * (1.0 - low)
  }

  /** Whole units for a share of the request, at least one. */
  function UnitsFor(requested: int, ratio: real): int {
    MaxInt(1, MinInt(requested, Round(requested as real * ratio)))
  }

  /** The units filled from state `start`: the first draw tells whether the fill is partial, the next its share. */
  function FillFor(m: Model, requested: int, start: int): int {
    if DrawAt(StateAfter(start, 1)) < PartialProb(m)
    then UnitsFor(requested, PartialShare(MinPartial(m), DrawAt(StateAfter(start, 2))))
    else requested
  }

  /** Draws the share that is filled and rounds it to whole units. */
  method DrawFill(m: Model, requested: int, rng: Generator) returns (filled: int)
    requires rng.Valid() && requested >= 1
    modifies rng
    ensures rng.Valid()
    ensures var first := DrawAt(StateAfter(old(rng.s), 1));
            && FairQty(filled, requested, m, first)
            && filled == FillFor(m, requested, old(rng.s))
            && rng.s == StateAfter(old(rng.s), if first < PartialProb(m) then 2 else 1)
  {
    hide PartialShare, UnitsFor, StepState, DrawAt;
    ghost var start := rng.s;
    assert StateAfter(start, 1) == StepState(StateAfter(start, 0));
    assert StateAfter(start, 2) == StepState(StateAfter(start, 1));
    var low := MinPartial(m);
    var ratio := 1.0;
    var first := rng.Draw();
    if first < PartialProb(m) {
      var second := rng.Draw();
      ratio := PartialShare(low, second);
      ShareRange(low, second);
    }
    filled := UnitsFor(requested, ratio);
    UnitsAreFair(low, requested, ratio);
  }

  lemma ShareRange(low: real, draw: real)
    requires 0.0 <= draw < 1.0 && low <= 1.0
    ensures low <= PartialShare(low, draw) <= 1.0
  {
    MulMono(1.0 - low, 0.0, draw);
    MulMono(1.0 - low, draw, 1.0);
  }

  lemma UnitsAreFair(low: real, requested: int, ratio: real)
    requires requested >= 1 && low <= ratio <= 1.0
    ensures var filled := UnitsFor(requested, ratio);
            && 1 <= filled <= requested && (ratio == 1.0 ==> filled == requested)
            && filled as real > requested as real * low - 0.5
  {
    var x, least := SharesOf(requested as real, low, ratio);
    RoundsFairly(requested, x, least);
  }

  lemma SharesOf(whole: real, low: real, ratio: real) returns (x: real, least: real)
    requires whole >= 0.0 && low <= ratio <= 1.0
    ensures x == whole * ratio && least == whole * low
    ensures least <= x <= whole && (ratio == 1.0 ==> x == whole)
  {
    x, least := whole * ratio, whole * low;
    MulMono(whole, low, ratio);
    MulMono(whole, ratio, 1.0);
  }

  lemma RoundsFairly(requested: int, x: real, least: real)
    requires requested >= 1 && least <= x <= requested as real
    ensures var filled := MaxInt(1, MinInt(requested, Round(x)));
            && 1 <= filled <= requested && (x == requested as real ==> filled == requested)
            && filled as real > least - 0.5
  {
  }

  /** How far a fill moves with the wick touched first: against a buyer on a high, against a seller on a low. */
  function TouchShift(side: Side, highFirst: bool): real {
    if side == Buy then if highFirst then 0.15 else -0.1
    else if highFirst then -0.1 else 0.15
  }

  datatype RealisticFill = NotSimulated | Simulated(latencyBars: int, filledQty: int, price: real, fillRatio: real)

  function SpreadPx(base: real, m: Model): real {
    base * MaxReal(0.0, Or(m.spreadBps, 6.0)) / 10000.0
  }

  function SlipPx(base: real, m: Model, slipDraw: real): real {
    base * MaxReal(0.0, Or(m.slippageBps, 4.0)) * (0.5 + slipDraw) / 10000.0
  }

  /** The unclamped price: half the spread and the drawn slippage against the trader, then the wick's shift. */
  function RawPrice(side: Side, base: real, m: Model, slipDraw: real, highFirst: bool): real {
    var spread, slip := SpreadPx(base, m), SlipPx(base, m, slipDraw);
    (if side == Buy then base + spread * 0.5 + slip else base - spread * 0.5 - slip)
    + spread * TouchShift(side, highFirst)
  }

  lemma CostsAreNotNegative(base: real, m: Model, slipDraw: real)
    requires base > 0.0 && 0.0 <= slipDraw
    ensures SpreadPx(base, m) >= 0.0 && SlipPx(base, m, slipDraw) >= 0.0
  {
    SlipIsACost(base, MaxReal(0.0, Or(m.slippageBps, 4.0)), slipDraw);
    MulMono(MaxReal(0.0, Or(m.spreadBps, 6.0)), 0.0, base);
  }

  /**
   * Whatever is drawn, the raw price is no better than the intended one: the wick gives back less than the half spread
   * takes.
   */
  lemma RawPriceNeverImproves(side: Side, base: real, m: Model, slipDraw: real, highFirst: bool)
    requires base > 0.0 && 0.0 <= slipDraw
    ensures var raw := RawPrice(side, base, m, slipDraw, highFirst);
            if side == Buy then raw >= base + 0.4 * SpreadPx(base, m) else raw <= base - 0.35 * SpreadPx(base, m)
  {
    CostsAreNotNegative(base, m, slipDraw);
  }

  /**
   * Simulates a fill at an intended price. With the candle's bounds in order the price lies within the candle,
   * and it improves on the intended price only where the candle does not contain that price.
   */
  method ApplyExecutionRealism(side: Side, intended: Option<real>, candle: Candle, m: Model, qty: Option<real>,
                               rng: Generator)
    returns (fill: RealisticFill)
    requires rng.Valid()
    modifies rng
    ensures rng.Valid()
    ensures fill.NotSimulated? <==> !(intended.Some? && intended.value > 0.0)
    ensures fill.NotSimulated? ==> rng.s == old(rng.s)
    ensures fill.Simulated? ==>
              var base, requested := intended.value, WholeQty(Or(qty, 1.0));
              var low, high := Or(candle.low, base), Or(candle.high, base);
              var first := DrawAt(StateAfter(old(rng.s), 1));
              var used: nat := if first < PartialProb(m) then 2 else 1;
              var slipDraw := DrawAt(StateAfter(old(rng.s), used + 1));
              var touchDraw := DrawAt(StateAfter(old(rng.s), used + 2));
              var highFirst := touchDraw < if Or(candle.close, base) >= Or(candle.open, base) then 0.65 else 0.35;
              && FairQty(fill.filledQty, requested, m, first) && fill.filledQty == FillFor(m, requested, old(rng.s))
              && fill.fillRatio == Share(fill.filledQty, requested)
              && fill.price == Clamp(RawPrice(side, base, m, slipDraw, highFirst), low, high)
              && low <= fill.price && (low <= high ==> fill.price <= high)
              && (low <= base <= high ==> if side == Buy then fill.price >= base else fill.price <= base)
              && fill.latencyBars == MaxInt(0, Round(Or(m.latencyBars, 0.0)))
              && rng.s == StateAfter(old(rng.s), used + 2)
  {
    if !(intended.Some? && intended.value > 0.0) {
      return NotSimulated;
    }
    var base := intended.value;
    ghost var start := rng.s;
    var requested := WholeQty(Or(qty, 1.0));
    var filled := DrawFill(m, requested, rng);
    ghost var used: nat := if DrawAt(StateAfter(start, 1)) < PartialProb(m) then 2 else 1;
    assert StateAfter(start, used + 1) == StepState(StateAfter(start, used));
    assert StateAfter(start, used + 2) == StepState(StateAfter(start, used + 1));
    hide StateAfter, StepState, DrawAt, FillFor;
    var spread := SpreadPx(base, m);
    var slipDraw := rng.Draw();
    var slip := SlipPx(base, m, slipDraw);
    var px := if side == Buy then base + spread * 0.5 + slip else base - spread * 0.5 - slip;
    var high, low := Or(candle.high, base), Or(candle.low, base);
    var open, close := Or(candle.open, base), Or(candle.close, base);
    var touchDraw := rng.Draw();
    var highFirst := touchDraw < if close >= open then 0.65 else 0.35;
    RawPriceNeverImproves(side, base, m, slipDraw, highFirst);
    CostsAreNotNegative(base, m, slipDraw);
    hide SpreadPx, SlipPx;
    if highFirst {
      px := if side == Buy then Clamp(px + spread * 0.15, low, high) else Clamp(px - spread * 0.1, low, high);
    } else {
      px := if side == Buy then Clamp(px - spread * 0.1, low, high) else Clamp(px + spread * 0.15, low, high);
    }
    fill := Simulated(MaxInt(0, Round(Or(m.latencyBars, 0.0))), filled, px, Share(filled, requested));
  }

  // ---------- the order life cycle ----------

  datatype Event =
    | Placed
    | Pending(bars: int)
    | PartialFill(qty: int, price: real)
    | Filled(qty: int, price: real)
    | CancelledRemainder(qty: int)

  datatype Order =
    | InvalidPrice(requestedQty: int)
    | InvalidTriggerTick(requestedQty: int)
    | Done(requestedQty: int, filledQty: int, price: real, bid: real, ask: real, events: seq<Event>)

  function HalfSpread(mid: real, spreadBps: real): real {
    mid * MaxReal(0.0, spreadBps) / 20000.0
  }

  /** Quotes around a mid price never cross and never fall below one paisa. */
  method DeriveBidAsk(mid: real, spreadBps: real) returns (bid: real, ask: real)
    requires mid > 0.0
    ensures 0.01 <= bid <= ask && mid <= ask
    ensures mid >= 0.01 ==> bid <= mid
    ensures spreadBps <= 0.0 && mid >= 0.01 ==> bid == mid == ask
    ensures mid - bid <= HalfSpread(mid, spreadBps) <= ask - mid
    ensures bid > 0.01 ==> mid - bid == HalfSpread(mid, spreadBps)
    ensures ask > 0.01 ==> ask - mid == HalfSpread(mid, spreadBps)
  {
    var bps := MaxReal(0.0, spreadBps);
    MulMono(mid, 0.0, bps);
    var half := mid * bps / 20000.0;
    bid, ask := MaxReal(0.01, mid - half), MaxReal(0.01, mid + half);
  }

  function QtyIn(e: Event): int {
    match e
    case PartialFill(q, _) => q
    case Filled(q, _) => q
    case CancelledRemainder(q) => q
    case _ => 0
  }

  function TotalQty(events: seq<Event>): int {
    if events == [] then 0 else QtyIn(events[0]) + TotalQty(events[1..])
  }

  /** A trigger price is refused when it is not a multiple of the tick. */
  predicate OffTick(trigger: Option<real>, tick: real)
    requires tick > 0.0
  {
    trigger.Some? && AbsReal(trigger.value / tick - Round(trigger.value / tick) as real) > 0.000001
  }

  /** How many draws the fill quantity takes. */
  function FillDraws(m: Model, start: int): nat {
    if DrawAt(StateAfter(start, 1)) < PartialProb(m) then 2 else 1
  }

  /** The broker's slippage for a draw; its default is 3 basis points. */
  function BrokerSlip(mid: real, m: Model, slipDraw: real): real {
    mid * MaxReal(0.0, Or(m.slippageBps, 3.0)) * (0.5 + slipDraw) / 10000.0
  }

  /** The slipped quote, held within the candle's bounds in either order. */
  method BrokerPrice(side: Side, bid: real, ask: real, mid: real, candle: Candle, m: Model, slipDraw: real)
    returns (avg: real)
    requires mid > 0.0 && 0.0 <= slipDraw
    ensures var low := MinReal(Or(candle.low, mid), Or(candle.high, mid));
            var high := MaxReal(Or(candle.low, mid), Or(candle.high, mid));
            var slip := BrokerSlip(mid, m, slipDraw);
            && avg == Clamp(if side == Buy then ask + slip else bid - slip, low, high)
            && low <= avg <= high
            && (side == Buy && avg < ask ==> avg == high) && (side == Sell && avg > bid ==> avg == low)
  {
    var slip := BrokerSlip(mid, m, slipDraw);
    SlipIsACost(mid, MaxReal(0.0, Or(m.slippageBps, 3.0)), slipDraw);
    assert slip >= 0.0;
    var raw := if side == Buy then ask + slip else bid - slip;
    var hi, lo := Or(candle.high, mid), Or(candle.low, mid);
    avg := Clamp(raw, MinReal(lo, hi), MaxReal(lo, hi));
  }

  /**
   * The event list of a done order: its quantities add up to the request, and each event is there exactly when it
   * happened.
   */
  ghost predicate Tells(events: seq<Event>, latencyBars: int, requested: int, filled: int, price: real) {
    && TotalQty(events) == requested
    && events != [] && events[0] == Placed
    && (forall b :: Pending(b) in events <==> b == latencyBars > 0)
    && (forall q, p :: Filled(q, p) in events <==> q == filled == requested && p == price)
    && (forall q, p :: PartialFill(q, p) in events <==> q == filled < requested && p == price)
    && (forall q :: CancelledRemainder(q) in events <==> q == requested - filled > 0)
  }

  method RecordEvents(latencyBars: int, requested: int, filled: int, price: real) returns (events: seq<Event>)
    requires latencyBars >= 0 && 1 <= filled <= requested
    ensures Tells(events, latencyBars, requested, filled, price)
  {
    events := [Placed];
    if latencyBars > 0 {
      events := events + [Pending(latencyBars)];
    }
    NoQtyYet(events);
    assert forall b :: Pending(b) in events <==> b == latencyBars > 0;
    var fillEvent := if filled < requested then PartialFill(filled, price) else Filled(filled, price);
    QtySnoc(events, fillEvent);
    events := events + [fillEvent];
    if filled < requested {
      var rest := CancelledRemainder(requested - filled);
      QtySnoc(events, rest);
      events := events + [rest];
    }
  }

  /**
   * Runs one order. Filled and cancelled quantities add up to the request, the price lies within the candle (its
   * bounds in either order), and it beats the quoted side only where the candle does not reach that quote.
   */
  method SimulateOrderLifecycle(side: Side, price: Option<real>, trigger: Option<real>, candle: Candle,
                                qty: Option<real>, m: Model, rng: Generator)
    returns (order: Order)
    requires rng.Valid()
    modifies rng
    ensures rng.Valid()
    ensures order.requestedQty == WholeQty(if qty.Some? && qty.value != 0.0 then qty.value else 1.0)
    ensures var mid := if price.Some? then price else candle.close;
            order.InvalidPrice? <==> !(mid.Some? && mid.value > 0.0)
    ensures order.InvalidTriggerTick? <==> !order.InvalidPrice? && OffTick(trigger, MaxReal(0.01, Or(m.tickSize, 0.05)))
    ensures !order.Done? ==> rng.s == old(rng.s)
    ensures order.Done? ==>
              var mid := if price.Some? then price.value else candle.close.value;
              var low := MinReal(Or(candle.low, mid), Or(candle.high, mid));
              var high := MaxReal(Or(candle.low, mid), Or(candle.high, mid));
              && FairQty(order.filledQty, order.requestedQty, m, DrawAt(StateAfter(old(rng.s), 1)))
              && order.filledQty == FillFor(m, order.requestedQty, old(rng.s))
              && low <= order.price <= high
              && (var slip := BrokerSlip(mid, m, DrawAt(StateAfter(old(rng.s), FillDraws(m, old(rng.s)) + 1)));
                  order.price == Clamp(if side == Buy then order.ask + slip else order.bid - slip, low, high))
              && rng.s == StateAfter(old(rng.s), FillDraws(m, old(rng.s)) + 1)
              && 0.01 <= order.bid <= order.ask
              && mid - order.bid <= HalfSpread(mid, Or(m.spreadBps, 6.0)) <= order.ask - mid
              && (order.bid > 0.01 ==> mid - order.bid == HalfSpread(mid, Or(m.spreadBps, 6.0)))
              && (order.ask > 0.01 ==> order.ask - mid == HalfSpread(mid, Or(m.spreadBps, 6.0)))
              && (side == Buy && order.price < order.ask ==> order.price == high)
              && (side == Sell && order.price > order.bid ==> order.price == low)
              && Tells(order.events, MaxInt(0, Round(Or(m.latencyBars, 0.0))), order.requestedQty, order.filledQty,
                       order.price)
  {
    hide BrokerSlip, HalfSpread, Clamp, UnitsFor, PartialShare;
    var requested := WholeQty(if qty.Some? && qty.value != 0.0 then qty.value else 1.0);
    var quoted := if price.Some? then price else candle.close;
    if !(quoted.Some? && quoted.value > 0.0) {
      return InvalidPrice(requested);
    }
    var mid := quoted.value;
    var latencyBars := MaxInt(0, Round(Or(m.latencyBars, 0.0)));
    var tick := MaxReal(0.01, Or(m.tickSize, 0.05));
    var bid, ask := DeriveBidAsk(mid, Or(m.spreadBps, 6.0));
    if OffTick(trigger, tick) {
      return InvalidTriggerTick(requested);
    }
    ghost var start := rng.s;
    var filled := DrawFill(m, requested, rng);
    assert rng.s == StateAfter(start, FillDraws(m, start));
    assert StateAfter(start, FillDraws(m, start) + 1) == StepState(StateAfter(start, FillDraws(m, start)));
    hide Tells, StateAfter, StepState, DrawAt, FairQty, FillDraws, FillFor;
    var slipDraw := rng.Draw();
    var avg := BrokerPrice(side, bid, ask, mid, candle, m, slipDraw);
    var events := RecordEvents(latencyBars, requested, filled, avg);
    order := Done(requested, filled, avg, bid, ask, events);
  }

  lemma NoQtyYet(events: seq<Event>)
    requires events == [Placed] || exists b :: events == [Placed, Pending(b)]
    ensures TotalQty(events) == 0
    ensures forall e :: e in events ==> e.Placed? || e.Pending?
  {
    if events != [Placed] {
      var b :| events == [Placed, Pending(b)];
      assert events[1..] == [Pending(b)];
      assert events[1..][1..] == [];
      assert TotalQty(events[1..]) == QtyIn(Pending(b)) + 0;
    } else {
      assert events[1..] == [];
    }
  }

  lemma {:induction false} QtySnoc(events: seq<Event>, e: Event)
    ensures TotalQty(events + [e]) == TotalQty(events) + QtyIn(e)
  {
    if events == [] {
      assert events + [e] == [e];
      assert [e][1..] == [];
    } else {
      QtySnoc(events[1..], e);
      assert (events + [e])[1..] == events[1..] + [e];
    }
  }

  lemma SlipIsACost(mid: real, bps: real, draw: real)
    requires mid > 0.0 && bps >= 0.0 && 0.0 <= draw
    ensures mid * bps * (0.5 + draw) / 10000.0 >= 0.0
  {
    assert mid * bps >= 0.0;
    assert mid * bps * (0.5 + draw) >= 0.0;
  }
}

/** The simulated fills in plain numbers: what each setting and each draw comes to. */
module ExecutionNumbers {
  import opened Common
  import opened Execution

  // ---------- the generator ----------

  /** A seed from 1 to 2147483646 is its own first state; a missing, zero or negative one starts at 1. */
  lemma StartInNumbers(seed: Option<int>)
    ensures seed.None? || seed.value <= 0 ==> StartState(seed) == 1
    ensures seed.Some? && 1 <= seed.value <= 2147483646 ==> StartState(seed) == seed.value
    ensures seed == Some(2147483647) ==> StartState(seed) == 0
    ensures seed.Some? && seed.value > 2147483647 ==> StartState(seed) == StartState(Some(seed.value - 2147483647))
  {
    if seed.Some? && seed.value > 2147483647 {
      var v := seed.value;
      assert v == 2147483647 * (v / 2147483647) + v % 2147483647;
      DivUnique(v - 2147483647, 2147483647, v / 2147483647 - 1, v % 2147483647);
    }
  }

  /** A step is the remainder of 48271 times the state; a draw is the state less one, as a part of 2147483646. */
  lemma StepInNumbers(s: int)
    requires 0 <= s
    ensures 0 <= StepState(s) < 2147483647
    ensures exists q :: 48271 * s == q * 2147483647 + StepState(s)
    ensures 2147483646.0 * DrawAt(s) == (s - 1) as real
    ensures StateAfter(StartState(Some(42)), 1) == 2027382
  {
    assert 48271 * s == (s * 48271 / 2147483647) * 2147483647 + StepState(s);
    assert StateAfter(42, 0) == 42;
  }

  // ---------- quantities ----------

  predicate KeptWithin(setting: Option<real>, default: real, low: real, high: real, x: real) {
    && (setting.None? ==> x == default)
    && (setting.Some? ==>
          && (setting.value <= low ==> x == low) && (setting.value >= high ==> x == high)
          && (low <= setting.value <= high ==> x == setting.value))
  }

  /** The least share is 35 percent unless set, from 5 percent to all; the chance of a partial fill 15, up to 95. */
  lemma SharesInNumbers(m: Model)
    ensures KeptWithin(m.minPartial, 0.35, 0.05, 1.0, MinPartial(m))
    ensures KeptWithin(m.partialProb, 0.15, 0.0, 0.95, PartialProb(m))
  {
  }

  /** A requested quantity is the nearest whole number, halves up, and at least one. */
  lemma WholeInNumbers(q: real)
    ensures q < 1.5 ==> WholeQty(q) == 1
    ensures q >= 0.5 ==> q - 0.5 < WholeQty(q) as real <= q + 0.5
  {
  }

  /** The unfilled share of a partial fill is the rest of the draw's part of what may stay unfilled. */
  lemma ShareInNumbers(low: real, draw: real)
    ensures 1.0 - PartialShare(low, draw) == (1.0 - draw) * (1.0 - low)
  {
  }

  /** A filled quantity is the nearest whole number to its share of the request, but at least one. */
  lemma UnitsInNumbers(requested: int, ratio: real, share: real)
    requires requested >= 1 && share == requested as real * ratio && share <= requested as real
    ensures share < 1.5 ==> UnitsFor(requested, ratio) == 1
    ensures share >= 0.5 ==> share - 0.5 < UnitsFor(requested, ratio) as real <= share + 0.5
  {
  }

  /** The request less the undrawn part of what may stay unfilled. */
  function Portion(requested: int, low: real, draw: real): real {
    requested as real * (1.0 - (1.0 - draw) * (1.0 - low))
  }

  lemma PartialInNumbers(requested: int, low: real, draw: real, share: real)
    requires requested >= 1 && 0.0 <= draw < 1.0 && low <= 1.0 && share == Portion(requested, low, draw)
    ensures var filled := UnitsFor(requested, PartialShare(low, draw));
            (share < 1.5 ==> filled == 1) && (share >= 0.5 ==> share - 0.5 < filled as real <= share + 0.5)
  {
    ShareInNumbers(low, draw);
    ShareRange(low, draw);
    hide UnitsFor, PartialShare;
    MulMono(requested as real, PartialShare(low, draw), 1.0);
    UnitsInNumbers(requested, PartialShare(low, draw), share);
  }

  /** A fill is whole unless the first draw falls below the chance of a partial one; then the second is its share. */
  lemma FillInNumbers(m: Model, requested: int, start: int)
    requires requested >= 1 && Live(start)
    ensures var filled := FillFor(m, requested, start);
            var share := Portion(requested, MinPartial(m), DrawAt(StateAfter(start, 2)));
            if DrawAt(StateAfter(start, 1)) >= PartialProb(m) then filled == requested
            else (share < 1.5 ==> filled == 1) && (share >= 0.5 ==> share - 0.5 < filled as real <= share + 0.5)
  {
    var low, second := MinPartial(m), DrawAt(StateAfter(start, 2));
    StaysLive(start, 2);
    DrawRange(StateAfter(start, 2));
    SharesInNumbers(m);
    hide DrawAt, StateAfter, MinPartial, PartialProb, UnitsFor, PartialShare, Portion;
    PartialInNumbers(requested, low, second, Portion(requested, low, second));
  }

  /** A partial fill takes two draws, a whole one takes one. */
  lemma DrawsInNumbers(m: Model, requested: int, start: int)
    ensures DrawAt(StateAfter(start, 1)) < PartialProb(m) ==> FillDraws(m, start) == 2
    ensures DrawAt(StateAfter(start, 1)) >= PartialProb(m) ==> FillDraws(m, start) == 1
  {
  }

  // ---------- prices ----------

  /** The spread is 6 basis points of the price unless set; slippage 4, times one half to one and a half. */
  lemma CostsInNumbers(base: real, m: Model, slipDraw: real)
    requires base > 0.0
    ensures var bps := match m.spreadBps case None => 6.0 case Some(x) => if x < 0.0 then 0.0 else x;
            10000.0 * SpreadPx(base, m) == bps * base
    ensures var bps := match m.slippageBps case None => 4.0 case Some(x) => if x < 0.0 then 0.0 else x;
            10000.0 * SlipPx(base, m, slipDraw) == bps * base * slipDraw + 0.5 * (bps * base)
  {
    var bps := MaxReal(0.0, Or(m.slippageBps, 4.0));
    assert base * bps * (0.5 + slipDraw) == 0.5 * (bps * base) + bps * base * slipDraw;
  }

  /** What a fill costs against the intended price, in parts of the spread, by side and by the wick touched first. */
  lemma RawPriceInNumbers(side: Side, base: real, m: Model, slipDraw: real, highFirst: bool)
    ensures var raw := RawPrice(side, base, m, slipDraw, highFirst);
            var spread, slip := SpreadPx(base, m), SlipPx(base, m, slipDraw);
            && (side == Buy && highFirst ==> raw == base + 0.65 * spread + slip)
            && (side == Buy && !highFirst ==> raw == base + 0.4 * spread + slip)
            && (side == Sell && highFirst ==> raw == base - 0.6 * spread - slip)
            && (side == Sell && !highFirst ==> raw == base - 0.35 * spread - slip)
  {
    hide SpreadPx, SlipPx;
  }

  /** The broker's quotes lie half the spread away from the mid price; its slippage is 3 basis points unless set. */
  lemma BrokerInNumbers(mid: real, spreadBps: real, m: Model, slipDraw: real)
    requires mid > 0.0
    ensures spreadBps >= 0.0 ==> 20000.0 * HalfSpread(mid, spreadBps) == spreadBps * mid
    ensures spreadBps <= 0.0 ==> HalfSpread(mid, spreadBps) == 0.0
    ensures var bps := match m.slippageBps case None => 3.0 case Some(x) => if x < 0.0 then 0.0 else x;
            10000.0 * BrokerSlip(mid, m, slipDraw) == bps * mid * slipDraw + 0.5 * (bps * mid)
  {
    var bps := MaxReal(0.0, Or(m.slippageBps, 3.0));
    assert mid * bps * (0.5 + slipDraw) == 0.5 * (bps * mid) + bps * mid * slipDraw;
  }

  /** A trigger is refused exactly when no whole number of ticks is within a millionth of a tick. */
  lemma OffTickExact(trigger: Option<real>, tick: real, ticks: real)
    requires tick > 0.0 && (trigger.Some? ==> ticks * tick == trigger.value)
    ensures OffTick(trigger, tick) <==> trigger.Some? && forall k: int :: Apart(ticks, k)
  {
    if trigger.Some? {
      assert trigger.value / tick == ticks;
      NearestDecides(ticks);
    }
  }

  lemma NearestDecides(x: real)
    ensures (forall k: int :: Apart(x, k)) <==> AbsReal(x - Round(x) as real) > 0.000001
  {
    var r := Round(x);
    hide Round;
    assert Apart(x, r) <==> AbsReal(x - r as real) > 0.000001;
    forall k: int | AbsReal(x - r as real) > 0.000001
      ensures Apart(x, k)
    {
      assert k == r || k >= r + 1 || k <= r - 1;
    }
  }

  /** More than a millionth away from the whole number `k`. */
  predicate Apart(x: real, k: int) {
    x - k as real > 0.000001 || k as real - x > 0.000001
  }
}

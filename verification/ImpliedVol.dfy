/** The bisection for implied volatility of src/fno/greeks.js, over an arbitrary pricing function. */
module ImpliedVol {
  import opened Common

  const LOW := 0.000001
  const HIGH := 5.0
  const NARROW := 0.000001

  /** The pricing function answers for every volatility in the search range. */
  ghost predicate Answers(price: real -> Option<real>) {
    forall x: real :: LOW <= x <= HIGH ==> price(x).Some?
  }

  /** More volatility never makes the option cheaper. */
  ghost predicate Nondecreasing(price: real -> Option<real>) {
    && Answers(price)
    && forall x, y :: LOW <= x <= y <= HIGH ==> price(x).value <= price(y).value
  }

  lemma {:induction false} Pow2AtLeast(n: nat)
    ensures n >= 23 ==> Pow2(n) >= 8388608
  {
    if n > 23 {
      Pow2AtLeast(n - 1);
    } else if n == 23 {
      assert Pow2(4) == 16;
      assert Pow2(8) == 256;
      assert Pow2(12) == 4096;
      assert Pow2(16) == 65536;
      assert Pow2(20) == 1048576;
    }
  }

  /** A bracket of width 4.999999 after `n` halvings. */
  ghost predicate HalvedTo(width: real, n: nat) {
    width * (Pow2(n) as real) == HIGH - LOW
  }

  lemma Halve(width: real, n: nat)
    requires HalvedTo(width, n)
    ensures HalvedTo(width / 2.0, n + 1)
  {
    var p := Pow2(n) as real;
    assert Pow2(n + 1) as real == 2.0 * p;
    assert width / 2.0 * (2.0 * p) == width * p;
  }

  /** 23 halvings bring the bracket under the limit. */
  lemma HalvingsAreFew(width: real, n: nat)
    requires HalvedTo(width, n) && width >= NARROW
    ensures n <= 22
  {
    Pow2AtLeast(n);
    var p := Pow2(n) as real;
    if p >= 8388608.0 {
      MulMono(p, NARROW, width);
      assert false;
    }
  }

  predicate Within(price: real -> Option<real>, x: real, target: real, tol: real) {
    price(x).Some? && AbsReal(price(x).value - target) < tol
  }

  /**
   * The lower end is too cheap or the bottom of the range (with a zero tolerance it may hit the price); the upper end
   * is too dear or the top.
   */
  ghost predicate Brackets(price: real -> Option<real>, target: real, tol: real, lo: real, hi: real) {
    && LOW <= lo < hi <= HIGH
    && (lo == LOW || (price(lo).Some? && price(lo).value <= target && (tol > 0.0 ==> price(lo).value < target)))
    && price(hi).Some? && (if hi == HIGH then price(hi).value >= target else price(hi).value > target)
  }

  /** `x` is within 1e-6 of every volatility of the range that gives the target price. */
  ghost predicate NearEveryRoot(price: real -> Option<real>, target: real, x: real) {
    forall root: real :: LOW <= root <= HIGH && price(root) == Some(target) ==> AbsReal(x - root) < NARROW
  }

  /**
   * A search is attempted when the inputs are positive, the price is not below intrinsic, and 500% volatility reaches
   * it.
   */
  predicate Searches(price: real -> Option<real>, positive: bool, intrinsic: real, target: real) {
    && positive && target > 0.0 && target >= intrinsic - 0.000001
    && price(LOW).Some? && price(HIGH).Some? && price(HIGH).value >= target
  }

  /**
   * `positive` says that spot, strike and time are positive, `intrinsic` is the discounted intrinsic value.
   * The search makes at most 23 probes. Unless it stops within the price tolerance, its result lies in a bracket
   * narrower than 1e-6 around the crossing, provided the cap on the number of probes is at least 23.
   * A target below the whole price range is not refused: it gets the bottom of the volatility range.
   */
  method ImpliedVolBisection(price: real -> Option<real>, positive: bool, intrinsic: real, target: real,
                             maxIter: nat, tol: real)
    returns (sigma: Option<real>, ghost lo: real, ghost hi: real, ghost probes: nat)
    ensures sigma.Some? ==> Searches(price, positive, intrinsic, target)
    ensures Answers(price) ==> (sigma.Some? <==> Searches(price, positive, intrinsic, target))
    ensures probes <= maxIter && probes <= 23
    ensures sigma.Some? ==> Brackets(price, target, tol, lo, hi) && lo < sigma.value < hi
    ensures sigma.Some? && maxIter >= 23 ==> Within(price, sigma.value, target, tol) || hi - lo < 0.000001
    ensures sigma.Some? && maxIter >= 23 && tol > 0.0 && Nondecreasing(price) ==>
              Within(price, sigma.value, target, tol) || NearEveryRoot(price, target, sigma.value)
    ensures sigma.Some? && maxIter >= 23 && Nondecreasing(price) && price(LOW).value > target ==>
              Within(price, sigma.value, target, tol) || 0.000001 < sigma.value < 0.000002
  {
    hide HalvedTo;
    probes, lo, hi := 0, LOW, HIGH;
    if !positive || !(target > 0.0) || target < intrinsic - 0.000001 {
      return None, lo, hi, probes;
    }
    var pLow, pHigh := price(LOW), price(HIGH);
    if pLow.None? || pHigh.None? || pHigh.value < target {
      return None, lo, hi, probes;
    }
    var l, h := LOW, HIGH;
    var i := 0;
    StartsWhole();
    while i < maxIter
      invariant 0 <= i <= maxIter
      invariant Brackets(price, target, tol, l, h)
      invariant h - l >= NARROW && HalvedTo(h - l, i)
      invariant probes == i
    {
      HalvingsAreFew(h - l, i);
      var mid := (l + h) / 2.0;
      var pm := price(mid);
      probes := probes + 1;
      if pm.None? {
        return None, l, h, probes;
      }
      var err := pm.value - target;
      if AbsReal(err) < tol {
        return Some(mid), l, h, probes;
      }
      ghost var width := h - l;
      if err > 0.0 {
        h := mid;
      } else {
        l := mid;
      }
      assert h - l == width / 2.0;
      Halve(width, i);
      i := i + 1;
      if h - l < NARROW {
        break;
      }
    }
    if h - l >= NARROW {
      HalvingsAreFew(h - l, i);
    }
    sigma, lo, hi := Some((l + h) / 2.0), l, h;
    assert maxIter >= 23 && tol > 0.0 && Nondecreasing(price) ==> NearEveryRoot(price, target, sigma.value) by {
      if maxIter >= 23 && tol > 0.0 && Nondecreasing(price) {
        SettlesNearRoots(price, target, tol, l, h, sigma.value);
      }
    }
    if Nondecreasing(price) && price(LOW).value > target {
      TooCheapEndsAtTheBottom(price, target, tol, l, h);
    }
  }

  lemma StartsWhole()
    ensures HalvedTo(HIGH - LOW, 0)
  {
  }

  lemma CheaperIsLower(price: real -> Option<real>, x: real, y: real)
    requires Nondecreasing(price) && LOW <= x <= HIGH && LOW <= y <= HIGH
    requires price(x).Some? && price(y).Some? && price(x).value < price(y).value
    ensures x < y
  {
  }

  /**
   * For a nondecreasing price every exact root of the range stays in the bracket, so a result off in price is within
   * 1e-6 of each.
   */
  lemma RootsStayBracketed(price: real -> Option<real>, target: real, tol: real, lo: real, hi: real, root: real,
                            sigma: real)
    requires tol > 0.0
    requires Nondecreasing(price) && Brackets(price, target, tol, lo, hi)
    requires LOW <= root <= HIGH && price(root) == Some(target)
    ensures lo <= root <= hi
    ensures lo < sigma < hi && hi - lo < NARROW ==> AbsReal(sigma - root) < NARROW
  {
    if lo != LOW {
      CheaperIsLower(price, lo, root);
    }
    if hi != HIGH {
      CheaperIsLower(price, root, hi);
    }
  }

  lemma SettlesNearRoots(price: real -> Option<real>, target: real, tol: real, lo: real, hi: real, sigma: real)
    requires tol > 0.0 && Nondecreasing(price) && Brackets(price, target, tol, lo, hi)
    requires lo < sigma < hi && hi - lo < NARROW
    ensures NearEveryRoot(price, target, sigma)
  {
    forall root: real | LOW <= root <= HIGH && price(root) == Some(target)
      ensures AbsReal(sigma - root) < NARROW
    {
      RootsStayBracketed(price, target, tol, lo, hi, root, sigma);
    }
  }

  /** While every price is above the target the lower end never moves. */
  lemma TooCheapEndsAtTheBottom(price: real -> Option<real>, target: real, tol: real, lo: real, hi: real)
    requires Nondecreasing(price) && Brackets(price, target, tol, lo, hi)
    requires price(LOW).value > target
    ensures lo == LOW
  {
    assert price(LOW).Some? && price(LOW).value <= price(lo).value;
  }

  /**
   * The search covers volatilities from 0.000001 to 5; it is made for a positive price not more than 0.000001 under
   * intrinsic that the highest volatility reaches.
   */
  lemma SearchInNumbers(price: real -> Option<real>, positive: bool, intrinsic: real, target: real, root: real)
    ensures Searches(price, positive, intrinsic, target) <==>
            && positive && target > 0.0 && intrinsic <= target + 0.000001 && price(0.000001).Some?
            && exists top :: price(5.0) == Some(top) && target <= top
    ensures forall x :: NearEveryRoot(price, target, x) && 0.000001 <= root <= 5.0 && price(root) == Some(target) ==>
                        root - 0.000001 < x < root + 0.000001
    ensures forall x, tol :: Within(price, x, target, tol) <==>
                             exists p :: price(x) == Some(p) && p - tol < target < p + tol
  {
    assert price(5.0).Some? ==> price(5.0) == Some(price(5.0).value);
    forall x: real, tol: real | Within(price, x, target, tol)
      ensures exists p :: price(x) == Some(p) && p - tol < target < p + tol
    {
      assert price(x) == Some(price(x).value);
    }
  }
}

/** The quote guard's breaker, waits and retries, told from the log of attempts alone. */
module QuoteBreaker {
  import opened Common
  import opened QuoteGuard

  /** The breaker time when attempt `i` consults the limits. */
  ghost function Until(cfg: Config, rs: seq<Request>, i: nat): int
    requires i <= |rs|
  {
    RunGuard(cfg, IDLE, rs[..i]).breakerOpenUntil
  }

  /** Attempt `i` is turned away: a breaker time is set and not reached. */
  ghost predicate Refused(cfg: Config, rs: seq<Request>, i: nat)
    requires i < |rs|
  {
    Until(cfg, rs, i) != 0 && rs[i].check < Until(cfg, rs, i)
  }

  ghost predicate Bad(cfg: Config, rs: seq<Request>, i: nat)
    requires i < |rs|
  {
    Refused(cfg, rs, i) || rs[i].outcome == Fatal
  }

  ghost predicate Good(cfg: Config, rs: seq<Request>, i: nat)
    requires i < |rs|
  {
    !Refused(cfg, rs, i) && rs[i].outcome == Success
  }

  /** No attempt from `j` up to `n` got an answer. */
  ghost predicate Unanswered(cfg: Config, rs: seq<Request>, j: nat, n: nat)
    requires n <= |rs|
  {
    forall k :: j <= k < n ==> !Good(cfg, rs, k)
  }

  /** The fatal or refused attempts among the first `n` since the last success. */
  ghost function BadSince(cfg: Config, rs: seq<Request>, n: nat): set<nat>
    requires n <= |rs|
  {
    set j: nat | j < n && Bad(cfg, rs, j) && Unanswered(cfg, rs, j, n)
  }

  /** Attempt `i` opens the breaker: it fails, and too many have since the last success. */
  ghost predicate Opens(cfg: Config, rs: seq<Request>, i: nat)
    requires i < |rs|
  {
    Bad(cfg, rs, i) && |BadSince(cfg, rs, i + 1)| >= cfg.breakerFails
  }

  /** Attempt `i` is the last of the first `n` that opened the breaker. */
  ghost predicate LastOpens(cfg: Config, rs: seq<Request>, i: nat, n: nat)
    requires n <= |rs|
  {
    i < n && Opens(cfg, rs, i) && forall k :: i < k < n ==> !Opens(cfg, rs, k)
  }

  lemma BadSinceGrows(cfg: Config, rs: seq<Request>, n: nat)
    requires n < |rs|
    ensures BadSince(cfg, rs, n + 1) ==
            if Good(cfg, rs, n) then {} else BadSince(cfg, rs, n) + if Bad(cfg, rs, n) then {n} else {}
  {
    hide Until;
    if !Good(cfg, rs, n) {
      forall j: nat | j <= n
        ensures Unanswered(cfg, rs, j, n + 1) <==> Unanswered(cfg, rs, j, n)
      {
      }
    }
  }

  /** What attempt `n` does to the streak and to the breaker time. */
  lemma OneAttempt(cfg: Config, rs: seq<Request>, n: nat)
    requires n < |rs|
    ensures var g, g' := RunGuard(cfg, IDLE, rs[..n]), RunGuard(cfg, IDLE, rs[..n + 1]);
            && (Good(cfg, rs, n) ==> g'.failStreak == 0 && g'.breakerOpenUntil == g.breakerOpenUntil)
            && (Bad(cfg, rs, n) ==>
                  && g'.failStreak == g.failStreak + 1
                  && g'.breakerOpenUntil == if g'.failStreak >= cfg.breakerFails then rs[n].done + cfg.breakerCooldownMs
                                            else g.breakerOpenUntil)
            && (!Good(cfg, rs, n) && !Bad(cfg, rs, n) ==>
                  g'.failStreak == g.failStreak && g'.breakerOpenUntil == g.breakerOpenUntil)
  {
    hide WaitMs, Prune;
    assert rs[..n + 1][..n] == rs[..n];
  }

  /** The streak is the number of fatal or refused attempts since the last success. */
  lemma {:induction false} StreakCounts(cfg: Config, rs: seq<Request>, n: nat)
    requires n <= |rs|
    ensures RunGuard(cfg, IDLE, rs[..n]).failStreak == |BadSince(cfg, rs, n)|
  {
    if n == 0 {
      assert BadSince(cfg, rs, 0) == {};
    } else {
      StreakCounts(cfg, rs, n - 1);
      OneAttempt(cfg, rs, n - 1);
      BadSinceGrows(cfg, rs, n - 1);
      hide RunGuard, Until, Unanswered;
    }
  }

  lemma UntilMoves(cfg: Config, rs: seq<Request>, n: nat)
    requires n < |rs|
    ensures Until(cfg, rs, n + 1) ==
            if Opens(cfg, rs, n) then rs[n].done + cfg.breakerCooldownMs else Until(cfg, rs, n)
  {
    OneAttempt(cfg, rs, n);
    StreakCounts(cfg, rs, n + 1);
    hide RunGuard, BadSince, Refused;
  }

  lemma {:induction false} UntilOfLast(cfg: Config, rs: seq<Request>, i: nat, n: nat)
    requires n <= |rs| && LastOpens(cfg, rs, i, n)
    ensures Until(cfg, rs, n) == rs[i].done + cfg.breakerCooldownMs
  {
    UntilMoves(cfg, rs, n - 1);
    hide Opens, Until;
    if i < n - 1 {
      UntilOfLast(cfg, rs, i, n - 1);
    }
  }

  /** While no attempt has opened the breaker its time is zero; else one was the last to. */
  lemma {:induction false} LastOrNone(cfg: Config, rs: seq<Request>, n: nat) returns (i: nat)
    requires n <= |rs|
    ensures LastOpens(cfg, rs, i, n) || ((forall k: nat :: k < n ==> !Opens(cfg, rs, k)) && Until(cfg, rs, n) == 0)
  {
    i := 0;
    if n > 0 {
      UntilMoves(cfg, rs, n - 1);
      hide Opens, Until;
      i := LastOrNone(cfg, rs, n - 1);
      i := if Opens(cfg, rs, n - 1) then n - 1 else i;
    }
  }

  /**
   The breaker time is the cooldown after the last attempt that failed as the `breakerFails`-th or later since the
   last success, and zero while there was none.
   */
  lemma BreakerTimeExact(cfg: Config, rs: seq<Request>, n: nat)
    requires n <= |rs|
    ensures forall i: nat | LastOpens(cfg, rs, i, n) :: Until(cfg, rs, n) == rs[i].done + cfg.breakerCooldownMs
    ensures (forall i: nat :: !LastOpens(cfg, rs, i, n)) ==>
              (forall k: nat :: k < n ==> !Opens(cfg, rs, k)) && Until(cfg, rs, n) == 0
  {
    var _ := LastOrNone(cfg, rs, n);
    forall i: nat | LastOpens(cfg, rs, i, n)
      ensures Until(cfg, rs, n) == rs[i].done + cfg.breakerCooldownMs
    {
      UntilOfLast(cfg, rs, i, n);
    }
  }

  /** A check is refused exactly when some attempt opened the breaker and the last such one is still cooling down. */
  lemma RefusedExact(cfg: Config, rs: seq<Request>, n: nat, strict: bool)
    requires n < |rs| && Legal(cfg, rs, strict)
    ensures Refused(cfg, rs, n) <==>
            exists i: nat :: LastOpens(cfg, rs, i, n) && rs[n].check < rs[i].done + cfg.breakerCooldownMs
    ensures Refused(cfg, rs, n) <==> Sends(cfg, rs[..n + 1]) == Sends(cfg, rs[..n])
    ensures !Refused(cfg, rs, n) ==> Sends(cfg, rs[..n + 1]) == Sends(cfg, rs[..n]) + [rs[n].send]
  {
    BreakerTimeExact(cfg, rs, n);
    forall i: nat | i < n
      ensures rs[i].done >= 1
    {
      ClockStarted(cfg, rs, strict, i);
    }
    assert rs[..n + 1][..n] == rs[..n];
    assert |Sends(cfg, rs[..n]) + [rs[n].send]| == |Sends(cfg, rs[..n])| + 1;
    hide Opens, Legal, RunGuard;
  }

  lemma {:induction false} ClockStarted(cfg: Config, rs: seq<Request>, strict: bool, i: nat)
    requires i < |rs| && Legal(cfg, rs, strict)
    ensures 1 <= rs[i].check <= rs[i].done
    decreases |rs|
  {
    hide SendsAfterSleep, RunGuard, Sends;
    if i < |rs| - 1 {
      ClockStarted(cfg, rs[..|rs| - 1], strict, i);
    }
  }

  // ----- One call -----

  predicate LongEnough(cfg: Config, g: Guard, now: int, wait: int) {
    && wait >= 0
    && (cfg.minIntervalMs > 0 ==> now + wait >= g.lastReqAt + cfg.minIntervalMs)
    && (cfg.budgetMax > 0 && cfg.budgetWindowMs > 0 && |g.recent| >= cfg.budgetMax ==>
          now + wait >= (if g.recent[0] == 0 then now else g.recent[0]) + cfg.budgetWindowMs)
  }

  /** The wait is the least one that keeps the minimum interval and, with the budget used up, lets the oldest expire. */
  lemma WaitIsLeast(cfg: Config, g: Guard, now: int)
    ensures LongEnough(cfg, g, now, WaitMs(cfg, g, now))
    ensures forall wait :: LongEnough(cfg, g, now, wait) ==> wait >= WaitMs(cfg, g, now)
  {
  }

  /** Pruning drops the oldest sends, those more than the window ago, up to the first that is not. */
  lemma {:induction false} PruneInNumbers(recent: seq<int>, now: int, windowMs: int)
    ensures var p := Prune(recent, now, windowMs);
            var k := |recent| - |p|;
            && 0 <= k && p == recent[k..]
            && (forall i :: 0 <= i < k ==> recent[i] + windowMs < now)
            && (p != [] ==> recent[k] + windowMs >= now)
  {
    if recent != [] && now - recent[0] > windowMs {
      PruneInNumbers(recent[1..], now, windowMs);
    }
  }

  /** The first retry waits the base, each further one twice as long, none longer than the cap. */
  lemma SleepDoubles(cfg: Config, n: nat)
    requires n >= 1
    ensures Sleep(cfg, 1) == MinInt(cfg.backoffBaseMs, cfg.backoffMaxMs)
    ensures Sleep(cfg, n + 1) == MinInt(2 * Sleep(cfg, n), cfg.backoffMaxMs)
  {
    assert Pow2(0) == 1 && Pow2(n) == 2 * Pow2(n - 1);
    assert cfg.backoffBaseMs * Pow2(n) == 2 * (cfg.backoffBaseMs * Pow2(n - 1));
    MulNonneg(cfg.backoffBaseMs, Pow2(n - 1));
    hide Pow2;
  }

  function Shift(rand: real, span: real): real {
    (rand * 2.0 - 1.0) * span
  }

  lemma ShiftWithin(rand: real, span: real)
    requires 0.0 <= rand < 1.0 && span >= 0.0
    ensures -span <= Shift(rand, span) <= span
  {
    MulMono(span, 0.0, rand);
    MulMono(span, rand, 1.0);
    assert Shift(rand, span) == 2.0 * (span * rand) - span;
  }

  lemma Spread(ms: nat, pct: Share, rand: real, span: real)
    requires 0.0 <= rand < 1.0 && span == ms as real * pct
    ensures JitterMs(ms, pct, rand) == MaxInt(0, Round(ms as real + Shift(rand, span)))
    ensures 0.0 <= span <= ms as real
  {
    hide JitterMs, Round;
    JitterIs(ms, pct, rand);
    MulMono(ms as real, pct, 1.0);
  }

  /** A drawn sleep is spread over at most the jitter span around the wait. */
  lemma JitterInNumbers(ms: nat, pct: Share, rand: real, span: real)
    requires 0.0 <= rand < 1.0 && span == ms as real * pct
    ensures ms as real - span - 0.5 < JitterMs(ms, pct, rand) as real <= ms as real + span + 0.5
  {
    hide JitterMs, Round, Shift;
    Spread(ms, pct, rand, span);
    ShiftWithin(rand, span);
    Rounded(ms, span, Shift(rand, span));
  }

  lemma Rounded(ms: nat, span: real, drawn: real)
    requires -span <= drawn <= span <= ms as real
    ensures ms as real - span - 0.5 < MaxInt(0, Round(ms as real + drawn)) as real <= ms as real + span + 0.5
  {
    hide Round;
  }

  /** The middle draw leaves a wait as it is. */
  lemma JitterInTheMiddle(ms: nat, pct: Share)
    ensures JitterMs(ms, pct, 0.5) == ms
  {
    hide JitterMs;
    JitterIs(ms, pct, 0.5);
    assert (0.5 * 2.0 - 1.0) * (ms as real * pct) == 0.0;
  }

  /** With the whole wait as its span, a low draw halves it and a high one adds half. */
  lemma JitterBothWays(ms: nat)
    ensures ms as real / 2.0 - 0.5 < JitterMs(ms, 1.0, 0.25) as real <= ms as real / 2.0 + 0.5
    ensures ms as real * 1.5 - 0.5 < JitterMs(ms, 1.0, 0.75) as real <= ms as real * 1.5 + 0.5
  {
    hide JitterMs;
    JitterIs(ms, 1.0, 0.25);
    JitterIs(ms, 1.0, 0.75);
  }

  /** An answer that may be retried is, unless the allowed retries are used up; every other one stands. */
  lemma FinalInNumbers(cfg: Config, r: Request, attempt: nat)
    ensures var f := Final(cfg, r, attempt);
            && f.check == r.check && f.send == r.send && f.done == r.done
            && (f.outcome == Success <==> r.outcome == Success)
            && (f.outcome == Retryable <==> r.outcome == Retryable && attempt < cfg.maxRetries)
  {
  }
}

/**
 The quote guard: minimum spacing, sliding-window budget, retries and circuit breaker.  Requests
 run one at a time.  Clock readings are inputs: `check` when the limits are consulted, `send`
 after the sleep, `done` when the answer is in.
 */
module QuoteGuard {
  import opened Common

  /** A share, as the settings clamp it. */
  type Share = p: real | 0.0 <= p <= 1.0

  datatype Config = Config(
    minIntervalMs: nat, budgetWindowMs: nat, budgetMax: nat, maxRetries: nat,
    backoffBaseMs: nat, backoffMaxMs: nat, jitterPct: Share, breakerFails: nat, breakerCooldownMs: nat)

  /** `lastReqAt` and `breakerOpenUntil` are zero while unset. */
  datatype Guard = Guard(recent: seq<int>, lastReqAt: int, breakerOpenUntil: int, failStreak: nat)

  datatype Gate = Blocked | Go(waitMs: int)

  datatype Outcome = Success | Retryable | Fatal

  datatype Request = Request(check: int, send: int, outcome: Outcome, done: int)

  const IDLE := Guard([], 0, 0, 0)

  // ----- What one call computes -----

  function Prune(recent: seq<int>, now: int, windowMs: int): seq<int> {
    if recent != [] && now - recent[0] > windowMs then Prune(recent[1..], now, windowMs) else recent
  }

  predicate BudgetOn(cfg: Config) {
    cfg.budgetMax > 0 && cfg.budgetWindowMs > 0
  }

  function Pruned(cfg: Config, g: Guard, now: int): Guard {
    if BudgetOn(cfg) then g.(recent := Prune(g.recent, now, cfg.budgetWindowMs)) else g
  }

  predicate BreakerOpen(g: Guard, now: int) {
    g.breakerOpenUntil != 0 && now < g.breakerOpenUntil
  }

  /** How long to sleep, decided on the pruned list. */
  function WaitMs(cfg: Config, g: Guard, now: int): int {
    var spacing := if cfg.minIntervalMs > 0 then MaxInt(0, cfg.minIntervalMs - (now - g.lastReqAt)) else 0;
    if BudgetOn(cfg) && |g.recent| >= cfg.budgetMax then
      var oldest := if g.recent[0] != 0 then g.recent[0] else now;
      MaxInt(spacing, oldest + cfg.budgetWindowMs - now)
    else spacing
  }

  function RateLimit(cfg: Config, g: Guard, now: int): (Gate, Guard) {
    if BreakerOpen(g, now) then (Blocked, g)
    else (Go(WaitMs(cfg, Pruned(cfg, g, now), now)), Pruned(cfg, g, now))
  }

  function Recorded(g: Guard, t: int): Guard {
    g.(lastReqAt := t, recent := g.recent + [t])
  }

  function Failed(cfg: Config, g: Guard, t: int): Guard {
    var n := g.failStreak + 1;
    g.(failStreak := n,
       breakerOpenUntil := if n >= cfg.breakerFails then t + cfg.breakerCooldownMs else g.breakerOpenUntil)
  }

  /** One attempt.  A blocked one sends nothing and counts as a fatal failure. */
  function Attempted(cfg: Config, g: Guard, r: Request): Guard {
    var (gate, g1) := RateLimit(cfg, g, r.check);
    match gate
    case Blocked => Failed(cfg, g, r.done)
    case Go(_) =>
      match r.outcome
      case Success => Recorded(g1, r.send).(failStreak := 0)
      case Retryable => Recorded(g1, r.send)
      case Fatal => Failed(cfg, Recorded(g1, r.send), r.done)
  }

  function Sleep(cfg: Config, attempt: nat): int {
    MinInt(cfg.backoffMaxMs, cfg.backoffBaseMs * Pow2(if attempt == 0 then 0 else attempt - 1))
  }

  lemma {:induction false} BackoffGrows(cfg: Config, m: nat, n: nat)
    requires m <= n
    ensures Sleep(cfg, m) <= Sleep(cfg, n) <= cfg.backoffMaxMs
  {
    if m < n {
      BackoffGrows(cfg, m, n - 1);
      Doubles(cfg.backoffBaseMs, if n - 1 == 0 then 0 else n - 2, n - 1);
    }
  }

  lemma Doubles(k: nat, m: nat, n: nat)
    requires m <= n <= m + 1
    ensures k * Pow2(m) <= k * Pow2(n)
  {
    assert n == m + 1 ==> k * Pow2(n) == 2 * (k * Pow2(m));
  }

  function Chunk<T>(arr: seq<T>, n: nat): seq<seq<T>>
    requires n >= 1
  {
    if |arr| == 0 then [] else if |arr| <= n then [arr] else [arr[..n]] + Chunk(arr[n..], n)
  }

  /** Cuts the keys as the request loop does. */
  method ChunkKeys<T>(arr: seq<T>, size: int) returns (parts: seq<seq<T>>)
    ensures parts == Chunk(arr, MaxInt(1, size))
  {
    parts := [];
    var n := MaxInt(1, size);
    var i := 0;
    while i < |arr|
      invariant 0 <= i
      invariant Chunk(arr, n) == parts + Chunk(arr[MinInt(i, |arr|)..], n)
    {
      var part := arr[i..MinInt(i + n, |arr|)];
      ghost var rest := arr[i..];
      assert |rest| <= n ==> part == rest;
      assert |rest| > n ==> part == rest[..n] && rest[n..] == arr[i + n..];
      parts := parts + [part];
      i := i + n;
    }
    assert arr[|arr|..] == [];
    assert parts + [] == parts;
  }

  function Join<T>(parts: seq<seq<T>>): seq<T> {
    if parts == [] then [] else parts[0] + Join(parts[1..])
  }

  /** The chunks put together are the keys, in order; all are full except possibly the last. */
  lemma {:induction false} ChunksCover<T>(arr: seq<T>, n: nat)
    requires n >= 1
    ensures var parts := Chunk(arr, n);
            && Join(parts) == arr
            && (forall i :: 0 <= i < |parts| ==> 1 <= |parts[i]| <= n)
            && (forall i :: 0 <= i < |parts| - 1 ==> |parts[i]| == n)
    decreases |arr|
  {
    if |arr| > n {
      ChunksCover(arr[n..], n);
      assert arr[..n] + arr[n..] == arr;
    } else if |arr| > 0 {
      assert Join([arr]) == arr + Join([]);
    }
  }

  // ----- Jitter -----

  /** The sleep actually asked for; `rand` is drawn from [0, 1). */
  function JitterMs(ms: nat, pct: real, rand: real): int {
    MaxInt(0, Round(ms as real + (rand * 2.0 - 1.0) * (ms as real * MaxReal(0.0, MinReal(1.0, pct)))))
  }

  /** With the share in range, jitter moves a wait by at most its span. */
  lemma JitterIs(ms: nat, pct: Share, rand: real)
    requires 0.0 <= rand < 1.0
    ensures JitterMs(ms, pct, rand) == MaxInt(0, Round(ms as real + (rand * 2.0 - 1.0) * (ms as real * pct)))
    ensures ms as real * pct >= 0.0 && (rand * 2.0 - 1.0) * (ms as real * pct) >= -(ms as real * pct)
    ensures rand == 0.0 ==> (rand * 2.0 - 1.0) * (ms as real * pct) == -(ms as real * pct)
  {
    MulMono(ms as real, 0.0, pct);
    JitterTerm(rand, ms as real * pct);
  }

  lemma JitterTerm(rand: real, span: real)
    requires 0.0 <= rand < 1.0 && 0.0 <= span
    ensures (rand * 2.0 - 1.0) * span >= -span
  {
    MulMono(span, 0.0, rand);
    assert (rand * 2.0 - 1.0) * span == 2.0 * (span * rand) - span;
  }

  lemma RoundMonotone(x: real, y: real)
    requires x <= y
    ensures Round(x) <= Round(y)
  {
  }

  /** Jitter can cut a sleep short exactly when its span exceeds half a millisecond. */
  lemma JitterNeverShortens(ms: nat, pct: Share)
    ensures (forall rand: real :: 0.0 <= rand < 1.0 ==> JitterMs(ms, pct, rand) >= ms) <==> ms as real * pct <= 0.5
  {
    hide JitterMs, Round;
    JitterIs(ms, pct, 0.0);
    assert 0.0 <= 0.0 < 1.0;
    forall rand: real | 0.0 <= rand < 1.0
      ensures ms as real * pct <= 0.5 ==> JitterMs(ms, pct, rand) >= ms
    {
      JitterIs(ms, pct, rand);
    }
  }

  /** The part of a wait that jitter cannot take away. */
  function Kept(pct: Share, wait: real): real {
    wait * (1.0 - pct)
  }

  lemma KeptIsPart(pct: Share, wait: real)
    requires wait >= 0.0
    ensures 0.0 <= Kept(pct, wait) <= wait
    ensures Kept(pct, wait) == wait - wait * pct
  {
    MulMono(wait, 0.0, 1.0 - pct);
    MulMono(wait, 1.0 - pct, 1.0);
  }

  lemma KeptGrows(pct: Share, a: real, b: real)
    requires a <= b
    ensures Kept(pct, a) <= Kept(pct, b) <= Kept(pct, a) + (b - a)
  {
    KeptIsPart(pct, b - a);
    assert Kept(pct, b) == Kept(pct, a) + Kept(pct, b - a);
  }

  /** The least a wait can be shortened to; a wait that is not positive is not slept at all. */
  function LeastSleep(cfg: Config, waitMs: int): int {
    if waitMs <= 0 then 0 else Round(Kept(cfg.jitterPct, waitMs as real))
  }

  /** It is the least over all draws, and one draw reaches it. */
  lemma NoDrawSleepsLess(cfg: Config, waitMs: nat, rand: real)
    requires 0.0 <= rand < 1.0 && waitMs > 0
    ensures JitterMs(waitMs, cfg.jitterPct, rand) >= LeastSleep(cfg, waitMs) == JitterMs(waitMs, cfg.jitterPct, 0.0)
  {
    hide JitterMs, Kept, Round;
    JitterIs(waitMs, cfg.jitterPct, 0.0);
    JitterIs(waitMs, cfg.jitterPct, rand);
    KeptIsPart(cfg.jitterPct, waitMs as real);
    RoundMonotone(Kept(cfg.jitterPct, waitMs as real),
                  waitMs as real + (rand * 2.0 - 1.0) * (waitMs as real * cfg.jitterPct));
  }

  /** A sleep can be cut short exactly when the jitter span exceeds half a millisecond. */
  lemma LeastSleepBounds(cfg: Config, waitMs: int)
    ensures 0 <= LeastSleep(cfg, waitMs) <= MaxInt(0, waitMs)
    ensures LeastSleep(cfg, waitMs) >= waitMs <==> waitMs <= 0 || waitMs as real * cfg.jitterPct <= 0.5
  {
    hide Kept, Round;
    if waitMs > 0 {
      KeptIsPart(cfg.jitterPct, waitMs as real);
    }
  }

  /** Coming `later` milliseconds later shortens the sleep by no more than that. */
  lemma SleepOrArriveLater(cfg: Config, waitMs: int, later: nat)
    ensures later + LeastSleep(cfg, waitMs - later) >= LeastSleep(cfg, waitMs)
  {
    LeastSleepBounds(cfg, waitMs);
    hide Kept, Round;
    if waitMs > later {
      KeptGrows(cfg.jitterPct, (waitMs - later) as real, waitMs as real);
    }
  }

  lemma LongerWaitLongerSleep(cfg: Config, a: int, b: int)
    requires a <= b
    ensures LeastSleep(cfg, a) <= LeastSleep(cfg, b)
  {
    LeastSleepBounds(cfg, b);
    hide Kept, Round;
    if a > 0 {
      KeptGrows(cfg.jitterPct, a as real, b as real);
      RoundMonotone(Kept(cfg.jitterPct, a as real), Kept(cfg.jitterPct, b as real));
    }
  }

  /** A retryable answer to the last allowed attempt counts as fatal. */
  function Final(cfg: Config, r: Request, attempt: nat): Request {
    if r.outcome == Retryable && attempt >= cfg.maxRetries then r.(outcome := Fatal) else r
  }

  /** How a call ends: answered, refused by the breaker, or failed for good with no retry left to make. */
  predicate Settled(cfg: Config, answer: Outcome, attempt: nat, blocked: bool, ok: bool) {
    && (ok <==> answer == Success && !blocked)
    && (!ok && !blocked ==> answer == Fatal || (answer == Retryable && attempt == cfg.maxRetries))
  }

  // ----- The module state -----

  class GuardState {
    var recentReqTs: seq<int>
    var lastReqAt: int
    var breakerOpenUntil: int
    var failStreak: nat

    ghost function View(): Guard
      reads this
    {
      Guard(recentReqTs, lastReqAt, breakerOpenUntil, failStreak)
    }

    constructor ()
      ensures View() == IDLE
    {
      recentReqTs, lastReqAt, breakerOpenUntil, failStreak := [], 0, 0, 0;
    }

    method PruneRecent(now: int, windowMs: int)
      modifies this`recentReqTs
      ensures recentReqTs == Prune(old(recentReqTs), now, windowMs)
    {
      while recentReqTs != [] && now - recentReqTs[0] > windowMs
        invariant Prune(recentReqTs, now, windowMs) == Prune(old(recentReqTs), now, windowMs)
        decreases |recentReqTs|
      {
        recentReqTs := recentReqTs[1..];
      }
    }

    method ApplyRateLimits(cfg: Config, t: int) returns (gate: Gate)
      modifies this`recentReqTs
      ensures (gate, View()) == RateLimit(cfg, old(View()), t)
    {
      if breakerOpenUntil != 0 && t < breakerOpenUntil {
        return Blocked;
      }
      var waitMs := 0;
      if cfg.minIntervalMs > 0 {
        waitMs := MaxInt(waitMs, cfg.minIntervalMs - (t - lastReqAt));
      }
      if cfg.budgetMax > 0 && cfg.budgetWindowMs > 0 {
        PruneRecent(t, cfg.budgetWindowMs);
        if |recentReqTs| >= cfg.budgetMax {
          var oldest := if recentReqTs[0] != 0 then recentReqTs[0] else t;
          waitMs := MaxInt(waitMs, oldest + cfg.budgetWindowMs - t);
        }
      }
      return Go(waitMs);
    }

    method FailHard(cfg: Config, t: int)
      modifies this`failStreak, this`breakerOpenUntil
      ensures View() == Failed(cfg, old(View()), t)
    {
      failStreak := failStreak + 1;
      if failStreak >= cfg.breakerFails {
        breakerOpenUntil := t + cfg.breakerCooldownMs;
      }
    }

    /** One attempt, with what its answer does to the state; a blocked one sends nothing. */
    method AttemptOnce(cfg: Config, r: Request) returns (blocked: bool)
      modifies this
      ensures blocked == BreakerOpen(old(View()), r.check)
      ensures View() == Attempted(cfg, old(View()), r)
    {
      hide Prune, WaitMs, Pruned;
      var gate := ApplyRateLimits(cfg, r.check);
      if gate == Blocked {
        FailHard(cfg, r.done);
        return true;
      }
      lastReqAt := r.send;
      recentReqTs := recentReqTs + [r.send];
      if r.outcome == Success {
        failStreak := 0;
      } else if r.outcome == Fatal {
        FailHard(cfg, r.done);
      }
      return false;
    }

    /**
     One guarded quote: the first attempt and its retries.  `world(i)` gives the clock readings and
     the answer of attempt `i`; a retryable answer to the last allowed attempt counts as fatal.
     */
    method GuardedGetQuoteWithRetry(cfg: Config, world: nat -> Request) returns (ok: bool, ghost log: seq<Request>)
      modifies this
      ensures 1 <= |log| <= cfg.maxRetries + 1
      ensures forall i :: 0 <= i < |log| ==> log[i] == Final(cfg, world(i), i)
      ensures View() == RunGuard(cfg, old(View()), log)
      ensures forall i :: 0 <= i < |log| - 1 ==> log[i].outcome == Retryable
      ensures Settled(cfg, world(|log| - 1).outcome, |log| - 1,
                      BreakerOpen(RunGuard(cfg, old(View()), log[..|log| - 1]), log[|log| - 1].check), ok)
    {
      hide Attempted, RunGuard, BreakerOpen;
      NothingRun(cfg, View());
      var attempt := 0;
      log := [];
      while true
        invariant 0 <= attempt <= cfg.maxRetries && |log| == attempt
        invariant View() == RunGuard(cfg, old(View()), log)
        invariant forall i :: 0 <= i < |log| ==> log[i] == Final(cfg, world(i), i) && log[i].outcome == Retryable
        decreases cfg.maxRetries - attempt
      {
        var r := world(attempt);
        var fatal := r.outcome == Fatal || (r.outcome == Retryable && attempt >= cfg.maxRetries);
        var entry := if fatal then r.(outcome := Fatal) else r;
        ghost var before := log;
        RunSnoc(cfg, old(View()), before, entry);
        log := before + [entry];
        assert |log| - 1 == attempt && log[..attempt] == before && log[attempt] == entry;
        var blocked := AttemptOnce(cfg, entry);
        if blocked {
          return false, log;
        }
        if r.outcome == Success {
          return true, log;
        }
        if fatal {
          return false, log;
        }
        attempt := attempt + 1;
      }
    }
  }

  function RunGuard(cfg: Config, g: Guard, rs: seq<Request>): Guard {
    if rs == [] then g else Attempted(cfg, RunGuard(cfg, g, rs[..|rs| - 1]), rs[|rs| - 1])
  }

  lemma RunSnoc(cfg: Config, g: Guard, rs: seq<Request>, r: Request)
    ensures RunGuard(cfg, g, rs + [r]) == Attempted(cfg, RunGuard(cfg, g, rs), r) && (rs + [r])[..|rs|] == rs
  {
    assert (rs + [r])[..|rs|] == rs;
  }

  lemma NothingRun(cfg: Config, g: Guard)
    ensures RunGuard(cfg, g, []) == g
  {
  }

  // ----- Traces -----

  /** Everything sent in a run from the idle guard. */
  function Sends(cfg: Config, rs: seq<Request>): seq<int> {
    if rs == [] then []
    else
      var init, r := rs[..|rs| - 1], rs[|rs| - 1];
      Sends(cfg, init) + if BreakerOpen(RunGuard(cfg, IDLE, init), r.check) then [] else [r.send]
  }

  /**
   One request after the other, nobody woken before the jittered sleep is over, no clock running backwards.  With
   `strict`, the clock has moved on between a send and the next consultation of the limits.
   */
  ghost predicate Legal(cfg: Config, rs: seq<Request>, strict: bool) {
    rs == [] ||
    (var init, r := rs[..|rs| - 1], rs[|rs| - 1];
     var g := RunGuard(cfg, IDLE, init);
     && Legal(cfg, init, strict)
     && r.check >= 1
     && r.check <= r.done
     && (init != [] ==> r.check >= init[|init| - 1].done)
     && (!BreakerOpen(g, r.check) ==> SendsAfterSleep(cfg, g, r))
     && (strict && Sends(cfg, init) != [] ==> r.check > Sends(cfg, init)[|Sends(cfg, init)| - 1]))
  }

  /** The request goes out after some sleep the jitter can draw. */
  predicate SendsAfterSleep(cfg: Config, g: Guard, r: Request) {
    r.check + LeastSleep(cfg, WaitMs(cfg, Pruned(cfg, g, r.check), r.check)) <= r.send <= r.done
  }

  predicate InWindow(x: int, length: int, t: int) {
    x <= t < x + length
  }

  /** Any half-open window of the budget length holds at most `budgetMax` requests. */
  ghost predicate WindowBound(cfg: Config, sent: seq<int>) {
    var w := cfg.budgetWindowMs;
    forall x, i, j :: 0 <= i <= j < |sent| && InWindow(x, w, sent[i]) && InWindow(x, w, sent[j]) ==>
                        j - i + 1 <= cfg.budgetMax
  }

  ghost predicate Spaced(sent: seq<int>, gap: int) {
    forall i :: 0 <= i < |sent| - 1 ==> sent[i + 1] - sent[i] >= gap
  }

  /** The least time between two sends: a moment for the clock to move if it must, then the shortest sleep. */
  function Gap(cfg: Config, strict: bool): int {
    var moved := if strict then 1 else 0;
    moved + LeastSleep(cfg, cfg.minIntervalMs - moved)
  }

  /** The clock reached by a run. */
  function Clock(rs: seq<Request>): int {
    if rs == [] then 0 else rs[|rs| - 1].done
  }

  /** The same bound, by index distance. */
  ghost predicate Apart(cfg: Config, sent: seq<int>) {
    forall i :: 0 <= i && i + cfg.budgetMax < |sent| ==> sent[i + cfg.budgetMax] - sent[i] >= cfg.budgetWindowMs
  }

  ghost predicate Ordered(sent: seq<int>) {
    forall i, j :: 0 <= i <= j < |sent| ==> sent[i] <= sent[j]
  }

  lemma FarApart(cfg: Config, sent: seq<int>, i: nat, j: nat)
    requires Ordered(sent) && Apart(cfg, sent) && i + cfg.budgetMax <= j < |sent|
    ensures sent[j] - sent[i] >= cfg.budgetWindowMs
  {
    assert sent[i + cfg.budgetMax] <= sent[j];
  }

  lemma ApartIsWindowBound(cfg: Config, sent: seq<int>)
    requires Ordered(sent) && BudgetOn(cfg)
    ensures Apart(cfg, sent) <==> WindowBound(cfg, sent)
  {
    var w := cfg.budgetWindowMs;
    if Apart(cfg, sent) {
      forall x, i, j | 0 <= i <= j < |sent| && InWindow(x, w, sent[i]) && InWindow(x, w, sent[j])
        ensures j - i + 1 <= cfg.budgetMax
      {
        if j - i + 1 > cfg.budgetMax {
          FarApart(cfg, sent, i, j);
        }
      }
    }
    if WindowBound(cfg, sent) {
      forall i | 0 <= i && i + cfg.budgetMax < |sent|
        ensures sent[i + cfg.budgetMax] - sent[i] >= w
      {
        assert InWindow(sent[i], w, sent[i]);
        assert InWindow(sent[i], w, sent[i + cfg.budgetMax]) || sent[i + cfg.budgetMax] - sent[i] >= w;
      }
    }
  }

  /** The first `k` sends lie before `t`. */
  ghost predicate AllExpired(sent: seq<int>, k: nat, t: int)
    requires k <= |sent|
  {
    forall i :: 0 <= i < k ==> sent[i] < t
  }

  ghost predicate AllWithin(sent: seq<int>, clock: int) {
    forall i :: 0 <= i < |sent| ==> 1 <= sent[i] <= clock
  }

  /** How the remembered requests relate to everything sent. */
  ghost predicate Remembers(cfg: Config, g: Guard, sent: seq<int>, clock: int, gap: int) {
    var k := |sent| - |g.recent|;
    && 0 <= k && g.recent == sent[k..]
    && AllExpired(sent, k, clock - cfg.budgetWindowMs)
    && AllWithin(sent, clock)
    && g.lastReqAt == (if sent == [] then 0 else sent[|sent| - 1])
    && Ordered(sent) && Spaced(sent, gap)
  }

  lemma {:induction false} PruneDrops(cfg: Config, recent: seq<int>, sent: seq<int>, now: int)
    requires var k := |sent| - |recent|;
             && 0 <= k && recent == sent[k..]
             && forall i :: 0 <= i < k ==> now - sent[i] > cfg.budgetWindowMs
    ensures var p := Prune(recent, now, cfg.budgetWindowMs);
            var k := |sent| - |p|;
            && |sent| - |recent| <= k && p == sent[k..]
            && (forall i :: 0 <= i < k ==> now - sent[i] > cfg.budgetWindowMs)
            && (p != [] ==> now - p[0] <= cfg.budgetWindowMs)
    decreases |recent|
  {
    if recent != [] && now - recent[0] > cfg.budgetWindowMs {
      PruneDrops(cfg, recent[1..], sent, now);
    }
  }

  /** The wait covers the minimum spacing, and the expiry of the oldest request when the budget is used up. */
  lemma WaitCovers(cfg: Config, g: Guard, now: int)
    ensures WaitMs(cfg, g, now) >= 0
    ensures WaitMs(cfg, g, now) >= cfg.minIntervalMs - (now - g.lastReqAt) || cfg.minIntervalMs == 0
    ensures BudgetOn(cfg) && |g.recent| >= cfg.budgetMax && g.recent[0] != 0 ==>
              WaitMs(cfg, g, now) >= g.recent[0] + cfg.budgetWindowMs - now
  {
  }

  /** Since the last send at least the least gap has passed when the next request goes out. */
  lemma SleepKeepsGap(cfg: Config, g: Guard, now: int, strict: bool)
    requires now >= g.lastReqAt + if strict then 1 else 0
    ensures now + LeastSleep(cfg, WaitMs(cfg, g, now)) >= g.lastReqAt + Gap(cfg, strict)
  {
    hide LeastSleep, WaitMs;
    WaitCovers(cfg, g, now);
    var moved := if strict then 1 else 0;
    var later := now - g.lastReqAt - moved;
    SleepOrArriveLater(cfg, cfg.minIntervalMs - moved, later);
    LeastSleepBounds(cfg, cfg.minIntervalMs - moved - later);
    LeastSleepBounds(cfg, WaitMs(cfg, g, now));
    var wait := WaitMs(cfg, g, now);
    LongerWaitLongerSleep(cfg, MinInt(cfg.minIntervalMs - (now - g.lastReqAt), wait), wait);
  }

  lemma RememberPruned(cfg: Config, g: Guard, sent: seq<int>, clock: int, now: int, gap: int)
    requires Remembers(cfg, g, sent, clock, gap) && clock <= now
    ensures Remembers(cfg, Pruned(cfg, g, now), sent, now, gap)
  {
    PruneDrops(cfg, g.recent, sent, now);
  }

  lemma RememberRecorded(cfg: Config, g: Guard, sent: seq<int>, clock: int, t: int, done: int, gap: int)
    requires Remembers(cfg, g, sent, clock, gap) && 1 <= t && clock <= t <= done
    requires sent != [] ==> t >= g.lastReqAt + gap
    ensures Remembers(cfg, Recorded(g, t), sent + [t], done, gap)
  {
    hide Ordered, Spaced, AllExpired, AllWithin;
    var k := |sent| - |g.recent|;
    assert (sent + [t])[k..] == g.recent + [t];
    LastBefore(cfg, g, sent, clock, gap);
    OneMoreSend(sent, t, gap);
    StillExpired(sent, t, k, clock - cfg.budgetWindowMs, done - cfg.budgetWindowMs);
    StillWithin(sent, t, clock, done);
  }

  lemma StillExpired(sent: seq<int>, t: int, k: nat, before: int, after: int)
    requires k <= |sent| && AllExpired(sent, k, before) && before <= after
    ensures AllExpired(sent + [t], k, after)
  {
  }

  lemma StillWithin(sent: seq<int>, t: int, clock: int, done: int)
    requires AllWithin(sent, clock) && clock <= done && 1 <= t <= done
    ensures AllWithin(sent + [t], done)
  {
  }

  lemma OneMoreSend(sent: seq<int>, t: int, gap: int)
    requires Ordered(sent) && Spaced(sent, gap)
    requires sent != [] ==> t >= sent[|sent| - 1] && t >= sent[|sent| - 1] + gap
    ensures Ordered(sent + [t]) && Spaced(sent + [t], gap)
  {
  }

  lemma RememberSame(cfg: Config, g: Guard, g': Guard, sent: seq<int>, clock: int, later: int, gap: int)
    requires Remembers(cfg, g, sent, clock, gap) && clock <= later
    requires g'.recent == g.recent && g'.lastReqAt == g.lastReqAt
    ensures Remembers(cfg, g', sent, later, gap)
  {
  }

  lemma LastBefore(cfg: Config, g: Guard, sent: seq<int>, clock: int, gap: int)
    requires Remembers(cfg, g, sent, clock, gap)
    ensures sent != [] ==> g.lastReqAt == sent[|sent| - 1] <= clock
  {
  }

  lemma RememberStep(cfg: Config, g: Guard, sent: seq<int>, clock: int, r: Request, strict: bool)
    requires Remembers(cfg, g, sent, clock, Gap(cfg, strict))
    requires 1 <= r.check && clock <= r.check <= r.done
    requires !BreakerOpen(g, r.check) ==> SendsAfterSleep(cfg, g, r)
    requires strict && sent != [] ==> r.check > sent[|sent| - 1]
    ensures var blocked := BreakerOpen(g, r.check);
            Remembers(cfg, Attempted(cfg, g, r), if blocked then sent else sent + [r.send], r.done, Gap(cfg, strict))
  {
    hide WaitMs, Prune, Remembers, LeastSleep, Gap;
    var gap := Gap(cfg, strict);
    LastBefore(cfg, g, sent, clock, gap);
    if BreakerOpen(g, r.check) {
      RememberSame(cfg, g, Attempted(cfg, g, r), sent, clock, r.done, gap);
    } else {
      var p := Pruned(cfg, g, r.check);
      LeastSleepBounds(cfg, WaitMs(cfg, p, r.check));
      if sent != [] {
        SleepKeepsGap(cfg, p, r.check, strict);
      }
      RememberPruned(cfg, g, sent, clock, r.check, gap);
      RememberAllowed(cfg, p, sent, r.check, r, gap);
    }
  }

  lemma RememberAllowed(cfg: Config, p: Guard, sent: seq<int>, clock: int, r: Request, gap: int)
    requires Remembers(cfg, p, sent, clock, gap) && 1 <= r.send && clock <= r.send <= r.done
    requires sent != [] ==> r.send >= p.lastReqAt + gap
    ensures Remembers(cfg, Recorded(p, r.send).(failStreak := 0), sent + [r.send], r.done, gap)
    ensures Remembers(cfg, Recorded(p, r.send), sent + [r.send], r.done, gap)
    ensures Remembers(cfg, Failed(cfg, Recorded(p, r.send), r.done), sent + [r.send], r.done, gap)
  {
    hide Remembers;
    RememberRecorded(cfg, p, sent, clock, r.send, r.done, gap);
    var n := Recorded(p, r.send);
    RememberSame(cfg, n, n.(failStreak := 0), sent + [r.send], r.done, r.done, gap);
    RememberSame(cfg, n, Failed(cfg, n, r.done), sent + [r.send], r.done, r.done, gap);
  }

  lemma {:induction false} RunRemembers(cfg: Config, rs: seq<Request>, strict: bool)
    requires Legal(cfg, rs, strict)
    ensures Remembers(cfg, RunGuard(cfg, IDLE, rs), Sends(cfg, rs), Clock(rs), Gap(cfg, strict))
  {
    hide WaitMs, Prune, Remembers, SendsAfterSleep, Gap;
    if rs != [] {
      var init, r := rs[..|rs| - 1], rs[|rs| - 1];
      RunRemembers(cfg, init, strict);
      RememberStep(cfg, RunGuard(cfg, IDLE, init), Sends(cfg, init), Clock(init), r, strict);
      assert Sends(cfg, init) + [] == Sends(cfg, init);
    } else {
      IdleRemembers(cfg, Gap(cfg, strict));
    }
  }

  lemma IdleRemembers(cfg: Config, gap: int)
    ensures Remembers(cfg, IDLE, [], 0, gap)
  {
  }

  // ----- Spacing -----

  /** Neighbours are at least the shortened minimum interval apart; this needs no assumption on the clock. */
  lemma SpacingHolds(cfg: Config, rs: seq<Request>)
    requires Legal(cfg, rs, false)
    ensures Spaced(Sends(cfg, rs), LeastSleep(cfg, cfg.minIntervalMs)) && Ordered(Sends(cfg, rs))
    ensures cfg.minIntervalMs > 0 ==>
              LeastSleep(cfg, cfg.minIntervalMs) as real > (1.0 - cfg.jitterPct) * cfg.minIntervalMs as real - 0.5
  {
    hide Legal, RunGuard, Sends;
    RunRemembers(cfg, rs, false);
  }

  /** Two requests far apart, and a third that sleeps as little as it can. */
  function Hasty(cfg: Config): seq<Request> {
    var first := cfg.minIntervalMs + 1;
    var second := first + MaxInt(cfg.minIntervalMs, cfg.budgetWindowMs);
    var third := second + LeastSleep(cfg, cfg.minIntervalMs);
    [Request(first, first, Success, first), Request(second, second, Success, second),
     Request(second, third, Success, third)]
  }

  lemma HastyRuns(cfg: Config)
    requires cfg.minIntervalMs > 0
    ensures Legal(cfg, Hasty(cfg), false)
    ensures |Sends(cfg, Hasty(cfg))| == 3
    ensures Sends(cfg, Hasty(cfg))[2] - Sends(cfg, Hasty(cfg))[1] == LeastSleep(cfg, cfg.minIntervalMs)
  {
    var h := Hasty(cfg);
    HastyWaits(cfg);
    LeastSleepBounds(cfg, cfg.minIntervalMs);
    hide WaitMs, Prune, LeastSleep, Attempted, SendsAfterSleep;
    NothingRun(cfg, IDLE);
    RunSnoc(cfg, IDLE, [], h[0]);
    RunSnoc(cfg, IDLE, [h[0]], h[1]);
    assert [] + [h[0]] == [h[0]] && [h[0]] + [h[1]] == h[..2];
    assert h[..2][..1] == [h[0]] && [h[0]][..0] == [];
    assert Sends(cfg, [h[0]]) == [h[0].send];
    assert Sends(cfg, h[..2]) == [h[0].send, h[1].send];
    assert Sends(cfg, h) == [h[0].send, h[1].send, h[2].send];
    assert Legal(cfg, [], false) && Legal(cfg, [h[0]], false);
    assert Legal(cfg, h[..2], false);
  }

  lemma PruneHead(recent: seq<int>, now: int, windowMs: int)
    requires 1 <= |recent| <= 2 && (|recent| == 2 ==> now - recent[1] <= windowMs)
    ensures Prune(recent, now, windowMs) == if now - recent[0] > windowMs then recent[1..] else recent
  {
    if |recent| == 2 {
      assert recent[1..][0] == recent[1];
    } else {
      assert recent[1..] == [];
    }
  }

  lemma NothingPruned(now: int, windowMs: int)
    ensures Prune([], now, windowMs) == []
  {
  }

  /** The guard after two requests far apart; the first may have expired when the second came. */
  lemma TwoFarApart(cfg: Config) returns (g0: Guard, g1: Guard)
    ensures var h := Hasty(cfg);
            && g0 == Guard([h[0].send], h[0].send, 0, 0) == Attempted(cfg, IDLE, h[0])
            && g1 == Attempted(cfg, g0, h[1])
            && g1.recent == (if BudgetOn(cfg) && cfg.minIntervalMs > cfg.budgetWindowMs then [] else [h[0].send])
                            + [h[1].send]
            && g1 == Guard(g1.recent, h[1].send, 0, 0)
  {
    var h, w := Hasty(cfg), cfg.budgetWindowMs;
    hide LeastSleep, Prune, WaitMs;
    NothingPruned(h[0].check, w);
    g0 := Attempted(cfg, IDLE, h[0]);
    PruneHead([h[0].send], h[1].check, w);
    g1 := Attempted(cfg, g0, h[1]);
  }

  lemma HastyWaits(cfg: Config)
    requires cfg.minIntervalMs > 0
    ensures var h := Hasty(cfg);
            var g0 := Attempted(cfg, IDLE, h[0]);
            var g1 := Attempted(cfg, g0, h[1]);
            && !BreakerOpen(IDLE, h[0].check) && !BreakerOpen(g0, h[1].check) && !BreakerOpen(g1, h[2].check)
            && SendsAfterSleep(cfg, IDLE, h[0]) && SendsAfterSleep(cfg, g0, h[1]) && SendsAfterSleep(cfg, g1, h[2])
  {
    var h, w := Hasty(cfg), cfg.budgetWindowMs;
    LeastSleepBounds(cfg, cfg.minIntervalMs);
    LeastSleepBounds(cfg, 0);
    hide LeastSleep, Prune, Attempted;
    var g0, g1 := TwoFarApart(cfg);
    NothingPruned(h[0].check, w);
    assert WaitMs(cfg, Pruned(cfg, IDLE, h[0].check), h[0].check) == 0;
    PruneHead([h[0].send], h[1].check, w);
    assert WaitMs(cfg, Pruned(cfg, g0, h[1].check), h[1].check) == 0;
    PruneHead(g1.recent, h[2].check, w);
    assert WaitMs(cfg, Pruned(cfg, g1, h[2].check), h[2].check) == cfg.minIntervalMs;
    hide WaitMs, Pruned;
  }

  lemma SpacedBySleep(cfg: Config)
    ensures (forall rs :: Legal(cfg, rs, false) ==> Spaced(Sends(cfg, rs), cfg.minIntervalMs)) <==>
            LeastSleep(cfg, cfg.minIntervalMs) >= cfg.minIntervalMs
  {
    LeastSleepBounds(cfg, 0);
    hide LeastSleep, Legal, Sends;
    if LeastSleep(cfg, cfg.minIntervalMs) >= cfg.minIntervalMs {
      forall rs | Legal(cfg, rs, false)
        ensures Spaced(Sends(cfg, rs), cfg.minIntervalMs)
      {
        SpacingHolds(cfg, rs);
      }
    } else {
      HastyRuns(cfg);
      var sent := Sends(cfg, Hasty(cfg));
      assert sent[1 + 1] - sent[1] < cfg.minIntervalMs;
      assert !Spaced(sent, cfg.minIntervalMs);
    }
  }

  /** The minimum interval is kept on every run exactly when its jitter span is at most half a millisecond. */
  lemma SpacingExact(cfg: Config)
    ensures (forall rs :: Legal(cfg, rs, false) ==> Spaced(Sends(cfg, rs), cfg.minIntervalMs)) <==>
            cfg.minIntervalMs as real * cfg.jitterPct <= 0.5
  {
    hide *;
    SpacedBySleep(cfg);
    LeastSleepBounds(cfg, cfg.minIntervalMs);
    NoIntervalNoSpan(cfg);
  }

  lemma NoIntervalNoSpan(cfg: Config)
    ensures cfg.minIntervalMs == 0 ==> cfg.minIntervalMs as real * cfg.jitterPct == 0.0
  {
  }

  // ----- The strict clock: when the budget holds -----

  /** How long after the oldest of a full list the next request consults the limits, at the earliest. */
  function EarliestCheck(cfg: Config): int
    requires BudgetOn(cfg)
  {
    1 + (cfg.budgetMax - 1) * Gap(cfg, true)
  }

  /** Even the earliest request after a full list, sleeping as little as it can, goes out after the oldest expires. */
  predicate Covers(cfg: Config)
    requires BudgetOn(cfg)
  {
    var a := EarliestCheck(cfg);
    a + LeastSleep(cfg, MaxInt(cfg.minIntervalMs - 1, cfg.budgetWindowMs - a)) >= cfg.budgetWindowMs
  }

  /** Without jitter it always does. */
  lemma NoJitterCovers(cfg: Config)
    requires BudgetOn(cfg) && cfg.jitterPct == 0.0
    ensures Covers(cfg)
  {
    var a := EarliestCheck(cfg);
    LeastSleepBounds(cfg, MaxInt(cfg.minIntervalMs - 1, cfg.budgetWindowMs - a));
  }

  /** A list longer than the budget has a head that is about to expire. */
  ghost predicate HeadExpires(cfg: Config, g: Guard) {
    && |g.recent| <= cfg.budgetMax + 1
    && (|g.recent| == cfg.budgetMax + 1 ==> g.lastReqAt >= g.recent[0] + cfg.budgetWindowMs)
  }

  lemma PrunedWithinBudget(cfg: Config, g: Guard, sent: seq<int>, clock: int, now: int, gap: int)
    requires BudgetOn(cfg) && Remembers(cfg, g, sent, clock, gap) && HeadExpires(cfg, g)
    requires clock <= now && (sent != [] ==> now > g.lastReqAt)
    ensures |Pruned(cfg, g, now).recent| <= cfg.budgetMax
  {
    if |g.recent| == cfg.budgetMax + 1 {
      assert now - g.recent[0] > cfg.budgetWindowMs;
      PruneShrinks(g.recent[1..], now, cfg.budgetWindowMs);
    } else {
      PruneShrinks(g.recent, now, cfg.budgetWindowMs);
    }
  }

  lemma {:induction false} PruneShrinks(recent: seq<int>, now: int, windowMs: int)
    ensures |Prune(recent, now, windowMs)| <= |recent|
  {
    if recent != [] {
      PruneShrinks(recent[1..], now, windowMs);
    }
  }

  /** With a full list, the next request goes out no earlier than its oldest expires. */
  lemma FullListWaits(cfg: Config, p: Guard, now: int)
    requires BudgetOn(cfg) && Covers(cfg) && |p.recent| == cfg.budgetMax && p.recent[0] != 0
    requires p.lastReqAt - p.recent[0] >= (cfg.budgetMax - 1) * Gap(cfg, true) && now > p.lastReqAt
    ensures now + LeastSleep(cfg, WaitMs(cfg, p, now)) >= p.recent[0] + cfg.budgetWindowMs
  {
    WaitCovers(cfg, p, now);
    hide LeastSleep, WaitMs, Gap;
    var a := EarliestCheck(cfg);
    var later := now - p.recent[0] - a;
    var most := MaxInt(cfg.minIntervalMs - 1, cfg.budgetWindowMs - a);
    SleepOrArriveLater(cfg, most, later);
    LeastSleepBounds(cfg, most - later);
    LeastSleepBounds(cfg, WaitMs(cfg, p, now));
    assert most - later <= MaxInt(0, WaitMs(cfg, p, now));
    LongerWaitLongerSleep(cfg, most - later, MaxInt(0, WaitMs(cfg, p, now)));
  }

  lemma StrictStep(cfg: Config, g: Guard, sent: seq<int>, clock: int, r: Request)
    requires BudgetOn(cfg) && Covers(cfg) && HeadExpires(cfg, g) && Apart(cfg, sent)
    requires Remembers(cfg, g, sent, clock, Gap(cfg, true))
    requires 1 <= r.check && clock <= r.check <= r.done && !BreakerOpen(g, r.check)
    requires SendsAfterSleep(cfg, g, r)
    requires sent != [] ==> r.check > sent[|sent| - 1]
    ensures HeadExpires(cfg, Attempted(cfg, g, r)) && Apart(cfg, sent + [r.send])
  {
    hide WaitMs, Prune, LeastSleep, Gap, Covers;
    var p := Pruned(cfg, g, r.check);
    LeastSleepBounds(cfg, WaitMs(cfg, p, r.check));
    RememberPruned(cfg, g, sent, clock, r.check, Gap(cfg, true));
    PrunedWithinBudget(cfg, g, sent, clock, r.check, Gap(cfg, true));
    var n := |sent| - cfg.budgetMax;
    if |p.recent| == cfg.budgetMax {
      SpacedFar(sent, n, cfg.budgetMax - 1, Gap(cfg, true));
      FullListWaits(cfg, p, r.check);
    }
    assert n >= 0 ==> r.send - sent[n] >= cfg.budgetWindowMs;
  }

  lemma {:induction false} StrictRun(cfg: Config, rs: seq<Request>)
    requires BudgetOn(cfg) && Covers(cfg) && Legal(cfg, rs, true)
    ensures HeadExpires(cfg, RunGuard(cfg, IDLE, rs)) && Apart(cfg, Sends(cfg, rs))
  {
    hide WaitMs, Prune, Remembers, SendsAfterSleep, Covers, Gap;
    if rs != [] {
      var init, r := rs[..|rs| - 1], rs[|rs| - 1];
      StrictRun(cfg, init);
      RunRemembers(cfg, init, true);
      if !BreakerOpen(RunGuard(cfg, IDLE, init), r.check) {
        StrictStep(cfg, RunGuard(cfg, IDLE, init), Sends(cfg, init), Clock(init), r);
      }
    }
  }

  /** Over every run with a strictly advancing clock, retries included. */
  lemma BudgetHolds(cfg: Config, rs: seq<Request>)
    requires BudgetOn(cfg) && Covers(cfg) && Legal(cfg, rs, true)
    ensures WindowBound(cfg, Sends(cfg, rs)) && Spaced(Sends(cfg, rs), Gap(cfg, true))
  {
    hide Legal, RunGuard, Sends, Covers, Gap;
    StrictRun(cfg, rs);
    RunRemembers(cfg, rs, true);
    ApartIsWindowBound(cfg, Sends(cfg, rs));
  }

  // ----- The breaker -----

  lemma {:induction false} BreakerNearClock(cfg: Config, rs: seq<Request>, strict: bool)
    requires Legal(cfg, rs, strict)
    ensures RunGuard(cfg, IDLE, rs).breakerOpenUntil <= Clock(rs) + cfg.breakerCooldownMs
    ensures 0 <= Clock(rs)
  {
    hide WaitMs, Prune, LeastSleep;
    if rs != [] {
      BreakerNearClock(cfg, rs[..|rs| - 1], strict);
    }
  }

  /** Once the breaker is open until `u`, every later request is sent at `u` or after. */
  lemma {:induction false} BreakerHolds(cfg: Config, rs: seq<Request>, strict: bool, n: nat)
    requires Legal(cfg, rs, strict) && n <= |rs|
    ensures var u := RunGuard(cfg, IDLE, rs[..n]).breakerOpenUntil;
            && u <= RunGuard(cfg, IDLE, rs).breakerOpenUntil
            && Sends(cfg, rs[..n]) <= Sends(cfg, rs)
            && forall i :: |Sends(cfg, rs[..n])| <= i < |Sends(cfg, rs)| ==> Sends(cfg, rs)[i] >= u
    decreases |rs|
  {
    hide WaitMs, Prune, LeastSleep;
    if n == |rs| {
      assert rs[..n] == rs;
    } else {
      var init, r := rs[..|rs| - 1], rs[|rs| - 1];
      assert init[..n] == rs[..n];
      BreakerHolds(cfg, init, strict, n);
      BreakerNearClock(cfg, init, strict);
      LeastSleepBounds(cfg, WaitMs(cfg, Pruned(cfg, RunGuard(cfg, IDLE, init), r.check), r.check));
    }
  }

  // ----- Runs that pack their requests as tightly as they can -----

  lemma {:induction false} SpacedFar(sent: seq<int>, i: nat, n: nat, gap: int)
    requires Spaced(sent, gap) && i + n < |sent|
    ensures sent[i + n] - sent[i] >= n * gap
    decreases n
  {
    if n > 0 {
      SpacedFar(sent, i, n - 1, gap);
      assert sent[i + n - 1 + 1] - sent[i + n - 1] >= gap;
      assert n * gap == (n - 1) * gap + gap;
    }
  }

  /** Successful requests sent at these times, each consulting the limits `moved` after the one before was sent. */
  function Burst(times: seq<int>, moved: nat): seq<Request> {
    seq(|times|, i requires 0 <= i < |times| =>
          Request(if i == 0 then times[0] else times[i - 1] + moved, times[i], Success, times[i]))
  }

  /** The wait of request `i` of a burst from which nothing has expired. */
  function BurstWait(cfg: Config, times: seq<int>, moved: nat, i: nat): int
    requires 1 <= i < |times|
  {
    var spacing := MaxInt(0, cfg.minIntervalMs - moved);
    if i >= cfg.budgetMax then MaxInt(spacing, times[0] + cfg.budgetWindowMs - (times[i - 1] + moved)) else spacing
  }

  /** The guard lets the burst through, and nothing expires on the way. */
  ghost predicate Packed(cfg: Config, times: seq<int>, moved: nat) {
    && times != [] && times[0] > cfg.minIntervalMs
    && forall i :: 1 <= i < |times| ==> PackedAt(cfg, times, moved, i)
  }

  ghost predicate PackedAt(cfg: Config, times: seq<int>, moved: nat, i: nat)
    requires 1 <= i < |times|
  {
    && times[i - 1] + moved <= times[0] + cfg.budgetWindowMs
    && times[i - 1] + moved + LeastSleep(cfg, BurstWait(cfg, times, moved, i)) <= times[i]
    && times[i - 1] <= times[i]
  }

  lemma BurstStep(cfg: Config, times: seq<int>, moved: nat, n: nat)
    requires BudgetOn(cfg) && Packed(cfg, times, moved) && n < |times|
    requires forall i :: 0 <= i < |times| ==> times[0] <= times[i]
    ensures var g := Guard(times[..n], if n == 0 then 0 else times[n - 1], 0, 0);
            var r := Burst(times, moved)[n];
            && Pruned(cfg, g, r.check) == g && !BreakerOpen(g, r.check) && SendsAfterSleep(cfg, g, r)
            && 1 <= r.check <= r.done
  {
    LeastSleepBounds(cfg, 0);
    if n > 0 {
      assert PackedAt(cfg, times, moved, n);
      LeastSleepBounds(cfg, BurstWait(cfg, times, moved, n));
      assert times[..n][0] == times[0];
    }
    hide LeastSleep;
  }

  lemma {:induction false} PackedGrows(cfg: Config, times: seq<int>, moved: nat, i: nat, j: nat)
    requires Packed(cfg, times, moved) && i <= j < |times|
    ensures times[i] <= times[j]
  {
    if i < j {
      PackedGrows(cfg, times, moved, i, j - 1);
      assert PackedAt(cfg, times, moved, j);
    }
  }

  lemma {:induction false} BurstRuns(cfg: Config, times: seq<int>, moved: nat, n: nat)
    requires BudgetOn(cfg) && Packed(cfg, times, moved) && n <= |times|
    ensures var b := Burst(times, moved)[..n];
            && RunGuard(cfg, IDLE, b) == Guard(times[..n], if n == 0 then 0 else times[n - 1], 0, 0)
            && Sends(cfg, b) == times[..n] && Legal(cfg, b, moved >= 1)
  {
    hide SendsAfterSleep, Packed, Prune;
    if n > 0 {
      BurstRuns(cfg, times, moved, n - 1);
      forall i | 0 <= i < |times|
        ensures times[0] <= times[i]
      {
        PackedGrows(cfg, times, moved, 0, i);
      }
      BurstStep(cfg, times, moved, n - 1);
      var b := Burst(times, moved);
      assert b[..n][..n - 1] == b[..n - 1] && b[..n][n - 1] == b[n - 1];
      assert times[..n] == times[..n - 1] + [times[n - 1]];
    }
  }

  /** A packed burst is a run that sends at its times. */
  lemma BurstSends(cfg: Config, times: seq<int>, moved: nat)
    requires BudgetOn(cfg) && Packed(cfg, times, moved)
    ensures Sends(cfg, Burst(times, moved)) == times && Legal(cfg, Burst(times, moved), moved >= 1)
  {
    BurstRuns(cfg, times, moved, |times|);
    assert Burst(times, moved)[..|times|] == Burst(times, moved);
    assert times[..|times|] == times;
  }

  /** More than the budget within a window. */
  lemma TooMany(cfg: Config, times: seq<int>, moved: nat, i: nat)
    requires BudgetOn(cfg) && Packed(cfg, times, moved) && i + cfg.budgetMax < |times|
    requires times[i + cfg.budgetMax] - times[i] < cfg.budgetWindowMs
    ensures !WindowBound(cfg, times)
  {
    PackedGrows(cfg, times, moved, i, i + cfg.budgetMax);
    assert InWindow(times[i], cfg.budgetWindowMs, times[i]);
    assert InWindow(times[i], cfg.budgetWindowMs, times[i + cfg.budgetMax]);
  }

  // ----- The strict clock: exactly when the budget holds -----

  /** A full list at the least gaps, and one more request that consults the limits at the next tick. */
  function StrictTimes(cfg: Config): seq<int>
    requires BudgetOn(cfg)
  {
    var first, a := cfg.minIntervalMs + 1, EarliestCheck(cfg);
    var last := first + a + LeastSleep(cfg, MaxInt(cfg.minIntervalMs - 1, cfg.budgetWindowMs - a));
    seq(cfg.budgetMax, i requires 0 <= i < cfg.budgetMax => first + i * Gap(cfg, true)) + [last]
  }

  lemma StrictPacked(cfg: Config)
    requires BudgetOn(cfg) && !Covers(cfg)
    ensures Packed(cfg, StrictTimes(cfg), 1)
    ensures StrictTimes(cfg)[cfg.budgetMax] - StrictTimes(cfg)[0] < cfg.budgetWindowMs
  {
    var times, a, g := StrictTimes(cfg), EarliestCheck(cfg), Gap(cfg, true);
    LeastSleepBounds(cfg, cfg.minIntervalMs - 1);
    LeastSleepBounds(cfg, MaxInt(cfg.minIntervalMs - 1, cfg.budgetWindowMs - a));
    assert g == 1 + LeastSleep(cfg, MaxInt(0, cfg.minIntervalMs - 1));
    hide LeastSleep, Gap;
    assert times[0] == cfg.minIntervalMs + 1 by {
      assert 0 * g == 0;
    }
    forall i | 1 <= i < |times|
      ensures PackedAt(cfg, times, 1, i)
    {
      StrictRequest(cfg, i, g);
    }
  }

  lemma StrictRequest(cfg: Config, i: nat, g: int)
    requires BudgetOn(cfg) && !Covers(cfg) && 1 <= i <= cfg.budgetMax
    requires g == Gap(cfg, true) == 1 + LeastSleep(cfg, MaxInt(0, cfg.minIntervalMs - 1)) >= 1
    requires LeastSleep(cfg, MaxInt(cfg.minIntervalMs - 1, cfg.budgetWindowMs - EarliestCheck(cfg))) >= 0
    ensures PackedAt(cfg, StrictTimes(cfg), 1, i)
  {
    hide LeastSleep, Gap;
    var times, a := StrictTimes(cfg), EarliestCheck(cfg);
    assert a < cfg.budgetWindowMs;
    Multiples(g, i - 1, cfg.budgetMax - 1);
    assert times[i - 1] == cfg.minIntervalMs + 1 + (i - 1) * g;
    assert times[0] == cfg.minIntervalMs + 1 + 0 * g;
    assert i * g == (i - 1) * g + g;
    assert i < cfg.budgetMax ==> times[i] == cfg.minIntervalMs + 1 + i * g;
  }

  lemma Multiples(g: int, m: nat, n: nat)
    requires g >= 0 && m <= n
    ensures 0 <= m * g <= n * g
  {
    assert n * g == m * g + (n - m) * g;
  }

  /** With a clock that moves between requests the budget holds on every run exactly when the settings cover it. */
  lemma BudgetExact(cfg: Config)
    requires BudgetOn(cfg)
    ensures (forall rs :: Legal(cfg, rs, true) ==> WindowBound(cfg, Sends(cfg, rs))) <==> Covers(cfg)
  {
    hide Legal, Sends, WindowBound, Packed, StrictTimes;
    if Covers(cfg) {
      forall rs | Legal(cfg, rs, true)
        ensures WindowBound(cfg, Sends(cfg, rs))
      {
        BudgetHolds(cfg, rs);
      }
    } else {
      StrictPacked(cfg);
      var times := StrictTimes(cfg);
      BurstSends(cfg, times, 1);
      TooManyStrict(cfg);
      assert Legal(cfg, Burst(times, 1), true) && !WindowBound(cfg, Sends(cfg, Burst(times, 1)));
    }
  }

  lemma TooManyStrict(cfg: Config)
    requires BudgetOn(cfg) && Packed(cfg, StrictTimes(cfg), 1)
    requires StrictTimes(cfg)[cfg.budgetMax] - StrictTimes(cfg)[0] < cfg.budgetWindowMs
    ensures !WindowBound(cfg, StrictTimes(cfg))
  {
    hide LeastSleep, Gap, Packed;
    TooMany(cfg, StrictTimes(cfg), 1, 0);
  }

  /** The default settings, 20 requests in 10 s at 150 ms with a jitter of a quarter, do not cover their budget. */
  lemma DefaultsDoNotCover(cfg: Config)
    requires cfg.minIntervalMs == 150 && cfg.budgetWindowMs == 10000 && cfg.budgetMax == 20 && cfg.jitterPct == 0.25
    ensures !Covers(cfg)
  {
    assert EarliestCheck(cfg) == 2148;
  }

  // ----- A clock that may stand still -----

  /** One early request, the budget's worth packed before it expires, and one more at the millisecond of expiry. */
  function WeakTimes(cfg: Config): seq<int> {
    var first, g := cfg.minIntervalMs + 1, LeastSleep(cfg, cfg.minIntervalMs);
    seq(cfg.budgetMax + 2, i requires 0 <= i < cfg.budgetMax + 2 =>
          if i == 0 then first else first + cfg.budgetWindowMs + (i - cfg.budgetMax) * g)
  }

  lemma WeakPacked(cfg: Config)
    requires BudgetOn(cfg) && cfg.budgetMax * LeastSleep(cfg, cfg.minIntervalMs) < cfg.budgetWindowMs
    ensures Packed(cfg, WeakTimes(cfg), 0)
    ensures WeakTimes(cfg)[1 + cfg.budgetMax] - WeakTimes(cfg)[1] < cfg.budgetWindowMs
  {
    var times, g := WeakTimes(cfg), LeastSleep(cfg, cfg.minIntervalMs);
    LeastSleepBounds(cfg, cfg.minIntervalMs);
    LeastSleepBounds(cfg, cfg.budgetWindowMs);
    forall i | 1 <= i < |times|
      ensures PackedAt(cfg, times, 0, i)
    {
      WeakRequest(cfg, i, g);
    }
    hide LeastSleep, Packed, PackedAt;
    assert (1 + cfg.budgetMax - cfg.budgetMax) * g == g;
    assert (1 - cfg.budgetMax) * g == g - cfg.budgetMax * g;
  }

  /** Where request `i` of the weak burst stands, counted from the expiry of the first. */
  lemma WeakOffsets(n: nat, g: nat, i: nat)
    requires 1 <= i <= n + 1
    ensures (i - n) * g == (i - 1 - n) * g + g
    ensures (i - 1 - n) * g <= 0 && (i == n + 1 ==> (i - 1 - n) * g == 0) && (i == n ==> (i - n) * g == 0)
    ensures i == 1 ==> (i - n) * g == g - n * g
  {
    assert (n + 1 - i) * g >= 0;
    assert (i - 1 - n) * g == -((n + 1 - i) * g);
  }

  lemma WeakRequest(cfg: Config, i: nat, g: int)
    requires BudgetOn(cfg) && 1 <= i <= cfg.budgetMax + 1 && 0 <= g <= cfg.minIntervalMs
    requires g == LeastSleep(cfg, cfg.minIntervalMs) && cfg.budgetMax * g < cfg.budgetWindowMs
    requires LeastSleep(cfg, cfg.budgetWindowMs) <= cfg.budgetWindowMs
    ensures PackedAt(cfg, WeakTimes(cfg), 0, i)
  {
    hide LeastSleep;
    var n, times := cfg.budgetMax, WeakTimes(cfg);
    WeakOffsets(n, g, i);
    var wait := BurstWait(cfg, times, 0, i);
    if i == 1 {
      assert times[i - 1] == times[0];
      assert wait == cfg.minIntervalMs || wait == cfg.budgetWindowMs;
      assert times[1] - times[0] == cfg.budgetWindowMs + g - n * g;
    } else {
      assert times[i] - times[i - 1] == g;
      assert i >= n ==> times[0] + cfg.budgetWindowMs - times[i - 1] <= cfg.minIntervalMs;
      assert wait == cfg.minIntervalMs;
    }
  }

  /**
   When the clock need not move between a send and the next check, the budget holds on every run exactly when the
   shortened spacing alone already enforces it.
   */
  lemma WeakClockExact(cfg: Config)
    requires BudgetOn(cfg)
    ensures (forall rs :: Legal(cfg, rs, false) ==> WindowBound(cfg, Sends(cfg, rs))) <==>
            cfg.budgetMax * LeastSleep(cfg, cfg.minIntervalMs) >= cfg.budgetWindowMs
  {
    hide Legal, Sends, WindowBound, Packed, LeastSleep, WeakTimes;
    if cfg.budgetMax * LeastSleep(cfg, cfg.minIntervalMs) >= cfg.budgetWindowMs {
      forall rs | Legal(cfg, rs, false)
        ensures WindowBound(cfg, Sends(cfg, rs))
      {
        SpacingEnforces(cfg, rs);
      }
    } else {
      WeakPacked(cfg);
      var times := WeakTimes(cfg);
      BurstSends(cfg, times, 0);
      TooManyWeak(cfg);
      assert Legal(cfg, Burst(times, 0), false) && !WindowBound(cfg, Sends(cfg, Burst(times, 0)));
    }
  }

  lemma TooManyWeak(cfg: Config)
    requires BudgetOn(cfg) && Packed(cfg, WeakTimes(cfg), 0)
    requires WeakTimes(cfg)[1 + cfg.budgetMax] - WeakTimes(cfg)[1] < cfg.budgetWindowMs
    ensures !WindowBound(cfg, WeakTimes(cfg))
  {
    hide LeastSleep, Packed;
    TooMany(cfg, WeakTimes(cfg), 0, 1);
  }

  lemma SpacingEnforces(cfg: Config, rs: seq<Request>)
    requires BudgetOn(cfg) && Legal(cfg, rs, false)
    requires cfg.budgetMax * LeastSleep(cfg, cfg.minIntervalMs) >= cfg.budgetWindowMs
    ensures WindowBound(cfg, Sends(cfg, rs))
  {
    hide Legal, RunGuard, Sends, LeastSleep;
    SpacingHolds(cfg, rs);
    var sent := Sends(cfg, rs);
    forall i | 0 <= i && i + cfg.budgetMax < |sent|
      ensures sent[i + cfg.budgetMax] - sent[i] >= cfg.budgetWindowMs
    {
      SpacedFar(sent, i, cfg.budgetMax, LeastSleep(cfg, cfg.minIntervalMs));
    }
    ApartIsWindowBound(cfg, sent);
  }
}

/**
 * The recursion of `pickOptionContractForSignal` over expiries and relaxation stages
 * (src/fno/optionsRouter.js), shown to be one walk along a plan fixed in advance.
 */
module ContractSearch {
  import opened Common
  import opened OptionsRouter
  import opened PickGates

  /**
   * What the search can observe. Quotes and the quote guard may change between calls, so both depend on the call
   * number. The signal's market state and danger score reach the first call only: the retry does not pass them on.
   */
  datatype World = World(
    settings: Settings,
    expiries: seq<int>,
    chain: (int, nat) -> Chain,
    breakerOpen: nat -> bool,
    state: MarketState,
    danger: real)

  datatype Outcome =
    | Picked(pick: Pick, expiry: int, stage: nat)
    | QuoteGuardBreakerOpen
    | NoStrikeCandidates(expiry: int)
    | OneDteBlocked(expiry: int)
    | NoCandidate(expiry: int)

  datatype Report = Report(outcome: Outcome, calls: nat)

  ghost predicate Distinct(xs: seq<int>) {
    forall i, j :: 0 <= i < j < |xs| ==> xs[i] != xs[j]
  }

  /** One call without its retry; `None` when it finds no eligible row and would retry. */
  function Attempt(w: World, expiry: int, stage: nat, call: nat): Option<Outcome> {
    var c := w.chain(expiry, call);
    var state, danger := if call == 0 then w.state else Unknown, if call == 0 then w.danger else 0.0;
    if w.breakerOpen(call) then Some(QuoteGuardBreakerOpen)
    else if !c.hasCandidates then Some(NoStrikeCandidates(expiry))
    else if PolicyBlocks(c.dte, state, danger, w.settings.maxDanger) then Some(OneDteBlocked(expiry))
    else
      match Choose(w.settings, c, stage)
      case Some(p) => Some(Picked(p, expiry, stage))
      case None => None
  }

  function NextExpiry(expiries: seq<int>, tried: set<int>): (e: Option<int>)
    ensures e.Some? ==> e.value in expiries && e.value !in tried
    ensures e.None? ==> forall x :: x in expiries ==> x in tried
  {
    if expiries == [] then None
    else if expiries[0] in tried then NextExpiry(expiries[1..], tried)
    else Some(expiries[0])
  }

  ghost function Untried(expiries: seq<int>, tried: set<int>): set<int> {
    set e | e in expiries && e !in tried
  }

  /** The search itself: the next untried expiry at the same stage, else the same expiry one stage looser, up to 4. */
  function Search(w: World, expiry: int, stage: nat, tried: set<int>, call: nat): (r: Report)
    ensures r.calls > call
    decreases |Untried(w.expiries, tried + {expiry})|, if stage < 4 then 4 - stage else 0
  {
    match Attempt(w, expiry, stage, call)
    case Some(o) => Report(o, call + 1)
    case None =>
      var triedNow := tried + {expiry};
      match NextExpiry(w.expiries, triedNow)
      case Some(next) =>
        FewerUntried(w.expiries, triedNow, next);
        Search(w, next, stage, triedNow, call + 1)
      case None =>
        if stage < 4 then
          assert triedNow + {expiry} == triedNow;
          Search(w, expiry, stage + 1, triedNow, call + 1)
        else Report(NoCandidate(expiry), call + 1)
  }

  lemma FewerUntried(expiries: seq<int>, tried: set<int>, next: int)
    requires next in expiries && next !in tried
    ensures |Untried(expiries, tried + {next})| < |Untried(expiries, tried)|
  {
    assert Untried(expiries, tried + {next}) == Untried(expiries, tried) - {next};
    assert next in Untried(expiries, tried);
  }

  /** The search as callers start it. */
  function PickOptionContract(w: World, first: int): (r: Report)
    ensures r.calls > 0
  {
    Search(w, first, 0, {}, 0)
  }

  // ---------- the plan ----------

  datatype Try = Try(expiry: int, stage: nat)

  function Others(expiries: seq<int>, tried: set<int>): (o: seq<int>)
    ensures |o| <= |expiries|
    ensures forall x :: x in o <==> x in expiries && x !in tried
  {
    if expiries == [] then []
    else (if expiries[0] in tried then [] else [expiries[0]]) + Others(expiries[1..], tried)
  }

  function AtStage(expiries: seq<int>, stage: nat): (t: seq<Try>)
    ensures |t| == |expiries|
    ensures forall i :: 0 <= i < |t| ==> t[i] == Try(expiries[i], stage)
  {
    seq(|expiries|, i requires 0 <= i < |expiries| => Try(expiries[i], stage))
  }

  function Relaxations(expiry: int, stage: nat): (t: seq<Try>)
    ensures |t| == if stage < 4 then 4 - stage else 0
    ensures forall i :: 0 <= i < |t| ==> t[i] == Try(expiry, stage + 1 + i)
    decreases if stage < 4 then 4 - stage else 0
  {
    if stage >= 4 then [] else [Try(expiry, stage + 1)] + Relaxations(expiry, stage + 1)
  }

  function Last(expiry: int, others: seq<int>): int {
    if others == [] then expiry else others[|others| - 1]
  }

  /** The current expiry, the other ones in order, then the last of them at each looser stage. */
  function PlanFrom(expiry: int, others: seq<int>, stage: nat): seq<Try> {
    [Try(expiry, stage)] + AtStage(others, stage) + Relaxations(Last(expiry, others), stage)
  }

  function Plan(w: World, first: int): seq<Try> {
    PlanFrom(first, Others(w.expiries, {first}), 0)
  }

  /** Walks the plan to the first call that settles the matter; the last call settles it in any case. */
  function Follow(w: World, plan: seq<Try>, call: nat): Report
    requires plan != []
  {
    match Attempt(w, plan[0].expiry, plan[0].stage, call)
    case Some(o) => Report(o, call + 1)
    case None =>
      if |plan| == 1 then Report(NoCandidate(plan[0].expiry), call + 1) else Follow(w, plan[1..], call + 1)
  }

  lemma {:induction false} OthersSkip(expiries: seq<int>, tried: set<int>)
    requires Distinct(expiries)
    ensures var o := Others(expiries, tried);
            match NextExpiry(expiries, tried)
            case None => o == []
            case Some(n) => o != [] && o[0] == n && Others(expiries, tried + {n}) == o[1..]
  {
    if expiries != [] {
      var rest := expiries[1..];
      OthersSkip(rest, tried);
      assert forall i :: 0 <= i < |rest| ==> rest[i] == expiries[i + 1];
      if expiries[0] !in tried {
        assert expiries[0] !in rest;
        SameOthers(rest, tried, expiries[0]);
      }
    }
  }

  lemma {:induction false} SameOthers(expiries: seq<int>, tried: set<int>, absent: int)
    requires absent !in expiries
    ensures Others(expiries, tried + {absent}) == Others(expiries, tried)
  {
    if expiries != [] {
      assert expiries[0] in expiries;
      SameOthers(expiries[1..], tried, absent);
    }
  }

  lemma PlanSteps(expiry: int, others: seq<int>, stage: nat)
    ensures var plan := PlanFrom(expiry, others, stage);
            && |plan| > 0 && plan[0] == Try(expiry, stage)
            && (others != [] ==> |plan| > 1 && plan[1..] == PlanFrom(others[0], others[1..], stage))
            && (others == [] && stage < 4 ==> |plan| > 1 && plan[1..] == PlanFrom(expiry, [], stage + 1))
            && (others == [] && stage >= 4 ==> |plan| == 1)
  {
    hide AtStage, Relaxations;
    if others != [] {
      AtStageSplits(others, stage);
      var rest, relaxed := AtStage(others[1..], stage), Relaxations(Last(expiry, others), stage);
      assert PlanFrom(expiry, others, stage) == [Try(expiry, stage)] + ([Try(others[0], stage)] + rest + relaxed);
    } else {
      RelaxationsSplit(expiry, stage);
      assert PlanFrom(expiry, others, stage) == [Try(expiry, stage)] + Relaxations(expiry, stage);
    }
  }

  lemma AtStageSplits(expiries: seq<int>, stage: nat)
    requires expiries != []
    ensures AtStage(expiries, stage) == [Try(expiries[0], stage)] + AtStage(expiries[1..], stage)
  {
  }

  lemma RelaxationsSplit(expiry: int, stage: nat)
    ensures Relaxations(expiry, stage) == if stage < 4 then PlanFrom(expiry, [], stage + 1) else []
  {
    assert stage < 4 ==> AtStage([], stage + 1) == [];
  }

  lemma {:induction false} SearchFollows(w: World, expiry: int, stage: nat, tried: set<int>, call: nat)
    requires Distinct(w.expiries)
    ensures Search(w, expiry, stage, tried, call)
         == Follow(w, PlanFrom(expiry, Others(w.expiries, tried + {expiry}), stage), call)
    decreases |Untried(w.expiries, tried + {expiry})|, if stage < 4 then 4 - stage else 0
  {
    hide Attempt, Others, PlanFrom, Untried, NextExpiry;
    var now := tried + {expiry};
    var others := Others(w.expiries, now);
    PlanSteps(expiry, others, stage);
    if Attempt(w, expiry, stage, call).None? {
      OthersSkip(w.expiries, now);
      match NextExpiry(w.expiries, now)
      case Some(next) =>
        FewerUntried(w.expiries, now, next);
        SearchFollows(w, next, stage, now, call + 1);
      case None =>
        assert now + {expiry} == now;
        if stage < 4 {
          SearchFollows(w, expiry, stage + 1, now, call + 1);
        }
    }
  }

  // ---------- what the plan says about a whole search ----------

  /** Where a walk ends: every earlier call would retry, and the last one settles it or exhausts the plan. */
  ghost predicate EndsAt(w: World, plan: seq<Try>, call: nat, r: Report, n: nat) {
    && n < |plan| && r.calls == call + n + 1
    && (forall i :: 0 <= i < n ==> Attempt(w, plan[i].expiry, plan[i].stage, call + i).None?)
    && match Attempt(w, plan[n].expiry, plan[n].stage, call + n)
       case Some(o) => r.outcome == o
       case None => n == |plan| - 1 && r.outcome == NoCandidate(plan[n].expiry)
  }

  lemma {:induction false} FollowEnds(w: World, plan: seq<Try>, call: nat) returns (n: nat)
    requires plan != []
    ensures EndsAt(w, plan, call, Follow(w, plan, call), n)
  {
    hide Attempt;
    n := 0;
    if Attempt(w, plan[0].expiry, plan[0].stage, call).None? && |plan| > 1 {
      var m := FollowEnds(w, plan[1..], call + 1);
      n := m + 1;
      forall i | 0 <= i < n
        ensures Attempt(w, plan[i].expiry, plan[i].stage, call + i).None?
      {
        if i > 0 {
          assert plan[i] == plan[1..][i - 1];
          assert call + i == (call + 1) + (i - 1);
        }
      }
      assert plan[n] == plan[1..][m];
    }
  }

  /**
   * The search is the first settling call along its plan, made within |expiries| + 4 calls (one more for an unlisted
   * start).
   */
  lemma SearchIsThePlan(w: World, first: int) returns (n: nat)
    requires Distinct(w.expiries)
    ensures EndsAt(w, Plan(w, first), 0, PickOptionContract(w, first), n)
    ensures PickOptionContract(w, first).calls <= |w.expiries| + if first in w.expiries then 4 else 5
  {
    assert {} + {first} == {first};
    SearchFollows(w, first, 0, {}, 0);
    n := FollowEnds(w, Plan(w, first), 0);
    OthersFewer(w.expiries, first);
  }

  lemma {:induction false} OthersFewer(expiries: seq<int>, first: int)
    ensures first in expiries ==> |Others(expiries, {first})| < |expiries|
  {
    if expiries != [] && expiries[0] != first {
      OthersFewer(expiries[1..], first);
    }
  }

  /** Before the last of `calls` calls, one tried this expiry at this stage and found nothing eligible. */
  ghost predicate RetriedBefore(w: World, expiry: int, stage: nat, calls: int) {
    exists k :: 0 <= k < calls - 1 && Attempt(w, expiry, stage, k).None?
  }

  /**
   * A gate is relaxed only after every expiry was tried unrelaxed and had nothing eligible, and one stage at a time.
   */
  lemma RelaxesOnlyWhenNothingElse(w: World, first: int)
    requires Distinct(w.expiries)
    requires var o := PickOptionContract(w, first).outcome; o.Picked? && o.stage > 0
    ensures var r := PickOptionContract(w, first);
            && 1 <= r.outcome.stage <= 4
            && (forall e :: e == first || e in w.expiries ==> RetriedBefore(w, e, 0, r.calls))
            && (forall s :: 0 <= s < r.outcome.stage ==> RetriedBefore(w, r.outcome.expiry, s, r.calls))
  {
    hide Choose, PickOptionContract;
    var n := SearchIsThePlan(w, first);
    var plan, others := Plan(w, first), Others(w.expiries, {first});
    var r := PickOptionContract(w, first);
    assert plan[n] == Try(r.outcome.expiry, r.outcome.stage);
    assert n > |others|;
    forall e | e == first || e in w.expiries
      ensures RetriedBefore(w, e, 0, r.calls)
    {
      var j := 0;
      if e != first {
        assert e in others;
        j :| 0 <= j < |others| && others[j] == e;
        j := j + 1;
      }
      assert plan[j] == Try(e, 0);
      assert Attempt(w, plan[j].expiry, plan[j].stage, 0 + j).None?;
    }
    forall s | 0 <= s < r.outcome.stage
      ensures RetriedBefore(w, r.outcome.expiry, s, r.calls)
    {
      var j := |others| + s;
      assert plan[j] == Try(r.outcome.expiry, s);
      assert Attempt(w, plan[j].expiry, plan[j].stage, 0 + j).None?;
    }
  }

  lemma PickedByAttempt(w: World, expiry: int, stage: nat, call: nat, o: Outcome)
    requires Attempt(w, expiry, stage, call) == Some(o) && o.Picked?
    ensures o.expiry == expiry && o.stage == stage && Choose(w.settings, w.chain(expiry, call), stage) == Some(o.pick)
  {
    hide Choose, PolicyBlocks;
  }

  /**
   * A pick is the best row of the very snapshot its call saw, at the stage the report names, and with all gates
   * required it keeps that stage's limits.
   */
  lemma PickIsLeastOfItsChain(w: World, first: int) returns (i: nat, n: nat)
    requires Distinct(w.expiries)
    requires PickOptionContract(w, first).outcome.Picked?
    ensures var r := PickOptionContract(w, first);
            var c, o := w.chain(r.outcome.expiry, r.calls - 1), r.outcome;
            && Choose(w.settings, c, o.stage) == Some(o.pick)
            && o.pick.row in c.rows
            && (w.settings.requireOk ==> KeepsLimits(w.settings, c, o.stage, o.pick, i, n))
  {
    hide Choose, PickOptionContract, KeepsLimits, Attempt, Plan, Eligible, Rescued;
    var k := SearchIsThePlan(w, first);
    var r := PickOptionContract(w, first);
    var t := Plan(w, first)[k];
    PickedByAttempt(w, t.expiry, t.stage, k, r.outcome);
    ChoiceInNumbers(w.settings, w.chain(t.expiry, k), t.stage);
    i, n := 0, 0;
    if w.settings.requireOk {
      i, n := PickKeepsLimits(w.settings, w.chain(t.expiry, k), t.stage);
    }
  }

  // ---------- the calls and the plan, one by one ----------

  /** A call ends by the first of these: breaker, no candidates, the policy on the first call alone, a pick. */
  lemma AttemptInNumbers(w: World, expiry: int, stage: nat, call: nat)
    ensures var a, c := Attempt(w, expiry, stage, call), w.chain(expiry, call);
            var soon := c.dte.Some? && c.dte.value <= 1.0;
            var hostile := w.state in {FailedBreakout, RangeChop, TrapRiskHigh, NoTrade};
            var stops := soon && if call == 0 then w.danger > w.settings.maxDanger || hostile
                                 else w.settings.maxDanger < 0.0;
            && (a == Some(QuoteGuardBreakerOpen) <==> w.breakerOpen(call))
            && (a == Some(NoStrikeCandidates(expiry)) <==> !w.breakerOpen(call) && !c.hasCandidates)
            && (a == Some(OneDteBlocked(expiry)) <==> !w.breakerOpen(call) && c.hasCandidates && stops)
            && (a.None? <==>
                  !w.breakerOpen(call) && c.hasCandidates && !stops && Choose(w.settings, c, stage).None?)
            && (a.Some? && a.value.Picked? <==>
                  !w.breakerOpen(call) && c.hasCandidates && !stops && Choose(w.settings, c, stage).Some?)
  {
    hide Choose;
  }

  /** The next expiry is the first of the list not tried yet. */
  lemma {:induction false} NextIsFirstUntried(expiries: seq<int>, tried: set<int>, k: nat)
    requires k <= |expiries| && (forall j :: 0 <= j < k ==> expiries[j] in tried)
    requires k < |expiries| ==> expiries[k] !in tried
    ensures NextExpiry(expiries, tried) == if k < |expiries| then Some(expiries[k]) else None
  {
    if k > 0 {
      assert forall j :: 0 <= j < k - 1 ==> expiries[1..][j] == expiries[j + 1];
      NextIsFirstUntried(expiries[1..], tried, k - 1);
    }
  }

  lemma {:induction false} OthersUnlisted(expiries: seq<int>, first: int)
    requires first !in expiries
    ensures Others(expiries, {first}) == expiries
  {
    if expiries != [] {
      OthersUnlisted(expiries[1..], first);
      assert expiries[0] in expiries;
      assert expiries == [expiries[0]] + expiries[1..];
    }
  }

  lemma {:induction false} OthersAround(before: seq<int>, x: int, after: seq<int>)
    requires x !in before && x !in after
    ensures Others(before + [x] + after, {x}) == before + after
  {
    var whole := before + [x] + after;
    if before == [] {
      assert whole[1..] == after;
      OthersUnlisted(after, x);
    } else {
      assert whole[1..] == before[1..] + [x] + after;
      assert before[0] in before && whole[0] == before[0];
      OthersAround(before[1..], x, after);
      assert before == [before[0]] + before[1..];
      assert before + after == [before[0]] + (before[1..] + after);
    }
  }

  /** Entry `j` of the list with entry `k` left out. */
  function Skipping(e: seq<int>, k: nat, j: nat): int
    requires j < |e| && (k < |e| ==> j < |e| - 1)
  {
    if j < k then e[j] else e[j + 1]
  }

  lemma OthersInOrder(e: seq<int>, first: int, k: nat, others: seq<int>)
    requires Distinct(e) && k <= |e| && (k < |e| ==> e[k] == first) && (k == |e| ==> first !in e)
    requires others == Others(e, {first})
    ensures |others| == if k < |e| then |e| - 1 else |e|
    ensures forall j :: 0 <= j < |others| ==> others[j] == Skipping(e, k, j)
  {
    hide Others;
    if k < |e| {
      assert e == e[..k] + [first] + e[k + 1..];
      OthersAround(e[..k], first, e[k + 1..]);
    } else {
      OthersUnlisted(e, first);
    }
  }

  lemma PlanOfOthers(first: int, others: seq<int>)
    ensures var plan, m := PlanFrom(first, others, 0), |others|;
            && |plan| == m + 5 && plan[0] == Try(first, 0)
            && (forall j :: 1 <= j <= m ==> plan[j] == Try(others[j - 1], 0))
            && (forall j :: 1 <= j <= 4 ==> plan[m + j] == Try(plan[m].expiry, j))
  {
    hide AtStage, Relaxations;
  }

  /**
   * The plan, call by call: the start and the other expiries in the order of the list, all unrelaxed, then stages 1
   * to 4 at the last of them. `k` is where the start stands in the list, or its length when it is not listed.
   */
  lemma PlanInNumbers(w: World, first: int, k: nat)
    requires Distinct(w.expiries) && k <= |w.expiries| && (k < |w.expiries| ==> w.expiries[k] == first)
    requires k == |w.expiries| ==> first !in w.expiries
    ensures var plan, e := Plan(w, first), w.expiries;
            var m := if k < |e| then |e| - 1 else |e|;
            && |plan| == m + 5 && plan[0] == Try(first, 0)
            && (forall j :: 1 <= j <= m ==> plan[j] == Try(Skipping(e, k, j - 1), 0))
            && (forall j :: 1 <= j <= 4 ==> plan[m + j] == Try(plan[m].expiry, j))
  {
    hide Others, PlanFrom;
    var e, others := w.expiries, Others(w.expiries, {first});
    OthersInOrder(e, first, k, others);
    hide Distinct;
    PlanOfOthers(first, others);
    hide Skipping;
    forall j | 1 <= j <= |others|
      ensures Plan(w, first)[j] == Try(Skipping(e, k, j - 1), 0)
    {
      assert others[j - 1] == Skipping(e, k, j - 1);
    }
  }

  // ---------- the signal on retries ----------

  /**
   * Once the first call retries, the signal's market state and danger score no longer matter: two searches that
   * differ in nothing else end the same way.
   */
  lemma RetriesForgetTheSignal(w: World, state: MarketState, danger: real, first: int)
    requires Distinct(w.expiries)
    requires var v := w.(state := state, danger := danger);
             Attempt(w, first, 0, 0).None? && Attempt(v, first, 0, 0).None?
    ensures PickOptionContract(w, first) == PickOptionContract(w.(state := state, danger := danger), first)
  {
    var v := w.(state := state, danger := danger);
    var plan := Plan(w, first);
    assert {} + {first} == {first};
    SearchFollows(w, first, 0, {}, 0);
    SearchFollows(v, first, 0, {}, 0);
    assert plan[0] == Try(first, 0);
    hide Choose;
    if |plan| > 1 {
      FollowsAlike(w, v, plan[1..], 1);
    }
  }

  lemma {:induction false} FollowsAlike(w: World, v: World, plan: seq<Try>, call: nat)
    requires plan != [] && call > 0 && v == w.(state := v.state, danger := v.danger)
    ensures Follow(w, plan, call) == Follow(v, plan, call)
  {
    hide Choose;
    assert Attempt(w, plan[0].expiry, plan[0].stage, call) == Attempt(v, plan[0].expiry, plan[0].stage, call);
    if |plan| > 1 {
      FollowsAlike(w, v, plan[1..], call + 1);
    }
  }

  /** With a non-negative danger limit the 1-DTE policy ends a search exactly when it blocks the first call's expiry. */
  lemma PolicyEndsOnlyTheFirstCall(w: World, first: int)
    requires Distinct(w.expiries) && w.settings.maxDanger >= 0.0
    ensures var c := w.chain(first, 0);
            PickOptionContract(w, first).outcome.OneDteBlocked? <==>
            !w.breakerOpen(0) && c.hasCandidates && PolicyBlocks(c.dte, w.state, w.danger, w.settings.maxDanger)
  {
    var n := SearchIsThePlan(w, first);
    hide Choose, PickOptionContract;
    assert Plan(w, first)[0] == Try(first, 0);
    assert n > 0 ==> Attempt(w, Plan(w, first)[0].expiry, Plan(w, first)[0].stage, 0 + 0).None?;
  }
}

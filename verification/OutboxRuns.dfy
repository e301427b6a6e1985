/**
 Whole-run properties of one outbox document, with any number of workers.  Every action is one
 atomic update of the document or one step of a worker that holds a copy of a claimed job.
 */
module OutboxRuns {
  import opened Common
  import opened Outbox

  /** A worker's copy of the job it claimed; `readHash` is what a split `markJobSent` has read. */
  datatype Copy = Copy(hash: Hash, retryCount: nat, delivered: bool, readHash: Option<Hash>)

  /** `shown` is the hash of the latest delivery; the counters are kept for the bounds only. */
  datatype State = State(
    doc: Option<Doc>, copies: map<int, Copy>, deliveries: nat, shown: Option<Hash>,
    attempts: nat, requeues: nat, bookkeepingFailures: nat)

  datatype Action =
    | Enqueue(hash: Hash, operation: Operation, messageId: nat, now: int)
    | Claim(worker: int, now: int)
    | Deliver(worker: int)
    | MarkSent(worker: int, messageId: nat, now: int)
    | MarkRead(worker: int)
    | MarkWrite(worker: int, messageId: nat, now: int)
    | MarkRetry(worker: int, retryAt: int, o: Override, now: int)
    | MarkFailed(worker: int, o: Override, now: int)
    | Abandon(worker: int)
    | Requeue(now: int)

  const NOTHING := State(None, map[], 0, None, 0, 0, 0)

  /** The worker is done with its copy; doing so after a delivery without marking it sent is a bookkeeping failure. */
  function Release(s: State, w: int): State
    requires w in s.copies
  {
    s.(copies := s.copies - {w},
       bookkeepingFailures := s.bookkeepingFailures + if s.copies[w].delivered then 1 else 0)
  }

  /** An action that is not enabled changes nothing. */
  function Step(key: Key, maxRetries: nat, s: State, a: Action): State {
    match a
    case Enqueue(hash, operation, messageId, now) =>
      var d := Enqueued(s.doc, key, hash, operation, messageId, now);
      s.(doc := Some(d), attempts := if s.doc.Some? && !key.TradeCard? then s.attempts else 0)
    case Claim(w, now) =>
      if s.doc.Some? && Claimable(s.doc.value) && w !in s.copies then
        s.(doc := Some(Claimed(s.doc.value, now)),
           copies := s.copies[w := Copy(s.doc.value.stateHash, s.doc.value.retryCount, false, None)])
      else s
    case Deliver(w) =>
      if w in s.copies && !s.copies[w].delivered then
        s.(copies := s.copies[w := s.copies[w].(delivered := true)],
           deliveries := s.deliveries + 1, shown := Some(s.copies[w].hash))
      else s
    case MarkSent(w, messageId, now) =>
      if s.doc.Some? && w in s.copies && s.copies[w].delivered && s.copies[w].readHash.None? then
        s.(doc := Some(MarkedSent(s.doc.value, s.copies[w].hash, messageId, now)), copies := s.copies - {w})
      else s
    case MarkRead(w) =>
      if s.doc.Some? && w in s.copies && s.copies[w].delivered && s.copies[w].readHash.None? then
        s.(copies := s.copies[w := s.copies[w].(readHash := Some(s.doc.value.stateHash))])
      else s
    case MarkWrite(w, messageId, now) =>
      if s.doc.Some? && w in s.copies && s.copies[w].readHash.Some? then
        var c := s.copies[w];
        s.(doc := Some(SentWrite(s.doc.value, Supersedes(c.readHash.value, c.hash), c.hash, messageId, now)),
           copies := s.copies - {w})
      else s
    case MarkRetry(w, retryAt, o, now) =>
      if s.doc.Some? && w in s.copies then
        Release(s, w).(doc := Some(MarkedRetry(s.doc.value, s.copies[w].retryCount, maxRetries, retryAt, o, now)),
                       attempts := s.attempts + 1)
      else s
    case MarkFailed(w, o, now) =>
      if s.doc.Some? && w in s.copies then
        Release(s, w).(doc := Some(MarkedFailed(s.doc.value, o, now)), attempts := s.attempts + 1)
      else s
    case Abandon(w) =>
      if w in s.copies then Release(s, w) else s
    case Requeue(now) =>
      if s.doc.Some? && s.doc.value.status == Processing then
        s.(doc := Some(Requeued(s.doc.value, now)), requeues := s.requeues + 1)
      else s
  }

  function Run(key: Key, maxRetries: nat, s: State, actions: seq<Action>): State
    decreases actions
  {
    if actions == [] then s else Run(key, maxRetries, Step(key, maxRetries, s, actions[0]), actions[1..])
  }

  lemma {:induction false} RunConcat(key: Key, maxRetries: nat, s: State, a: seq<Action>, b: seq<Action>)
    ensures Run(key, maxRetries, s, a + b) == Run(key, maxRetries, Run(key, maxRetries, s, a), b)
    decreases a
  {
    if a == [] {
      assert a + b == b;
    } else {
      assert (a + b)[1..] == a[1..] + b;
      RunConcat(key, maxRetries, Step(key, maxRetries, s, a[0]), a[1..], b);
    }
  }

  /** The state before action `n` of a run. */
  function At(key: Key, maxRetries: nat, s: State, actions: seq<Action>, n: nat): State
    requires n <= |actions|
  {
    Run(key, maxRetries, s, actions[..n])
  }

  lemma NextAt(key: Key, maxRetries: nat, s: State, actions: seq<Action>, n: nat)
    requires n < |actions|
    ensures At(key, maxRetries, s, actions, n + 1) ==
            Step(key, maxRetries, At(key, maxRetries, s, actions, n), actions[n])
  {
    assert actions[..n + 1] == actions[..n] + [actions[n]];
    RunConcat(key, maxRetries, s, actions[..n], [actions[n]]);
    var r := At(key, maxRetries, s, actions, n);
    assert Run(key, maxRetries, r, [actions[n]]) == Run(key, maxRetries, Step(key, maxRetries, r, actions[n]), []);
  }

  // ----- No lost supersession -----

  /** `markJobSent` runs as one step. */
  predicate Atomic(actions: seq<Action>) {
    forall i :: 0 <= i < |actions| ==> !actions[i].MarkRead? && !actions[i].MarkWrite?
  }

  predicate Hashed(actions: seq<Action>) {
    forall i :: 0 <= i < |actions| ==> actions[i].Enqueue? ==> actions[i].hash != ""
  }

  /** A sent job was delivered in its present state, as far as the hashes can tell. */
  ghost predicate SentIsCurrent(s: State) {
    && (s.doc.Some? && s.doc.value.status == Sent && s.doc.value.stateHash != "" && s.doc.value.lastDelivered != "" ==>
          s.doc.value.lastDelivered == s.doc.value.stateHash)
    && (forall w :: w in s.copies ==> s.copies[w].readHash.None?)
  }

  lemma SentIsCurrentStep(key: Key, maxRetries: nat, s: State, a: Action)
    requires SentIsCurrent(s) && !a.MarkRead? && !a.MarkWrite?
    ensures SentIsCurrent(Step(key, maxRetries, s, a))
  {
  }

  /** With any number of workers, no interleaving marks a job sent while a newer state waits. */
  lemma {:induction false} NoLostSupersession(key: Key, maxRetries: nat, s: State, actions: seq<Action>)
    requires SentIsCurrent(s) && Atomic(actions)
    ensures SentIsCurrent(Run(key, maxRetries, s, actions))
    decreases actions
  {
    if actions != [] {
      SentIsCurrentStep(key, maxRetries, s, actions[0]);
      NoLostSupersession(key, maxRetries, Step(key, maxRetries, s, actions[0]), actions[1..]);
    }
  }

  ghost predicate AllHashed(s: State) {
    && (s.doc.Some? ==> s.doc.value.stateHash != "" && (s.doc.value.status == Sent ==> s.doc.value.lastDelivered != ""))
    && (forall w :: w in s.copies ==> s.copies[w].hash != "")
  }

  lemma {:induction false} HashesStay(key: Key, maxRetries: nat, s: State, actions: seq<Action>)
    requires AllHashed(s) && Hashed(actions)
    ensures AllHashed(Run(key, maxRetries, s, actions))
    decreases actions
  {
    if actions != [] {
      HashedStep(key, maxRetries, s, actions[0]);
      HashesStay(key, maxRetries, Step(key, maxRetries, s, actions[0]), actions[1..]);
    }
  }

  lemma HashedStep(key: Key, maxRetries: nat, s: State, a: Action)
    requires AllHashed(s) && (a.Enqueue? ==> a.hash != "")
    ensures AllHashed(Step(key, maxRetries, s, a))
  {
  }

  /** From an empty outbox, with hashes on every job: sent means the stored state is the delivered one. */
  lemma SentMeansDelivered(key: Key, maxRetries: nat, actions: seq<Action>)
    requires Atomic(actions) && Hashed(actions)
    ensures var s := Run(key, maxRetries, NOTHING, actions);
            s.doc.Some? && s.doc.value.status == Sent ==> s.doc.value.lastDelivered == s.doc.value.stateHash
  {
    NoLostSupersession(key, maxRetries, NOTHING, actions);
    HashesStay(key, maxRetries, NOTHING, actions);
  }

  /** Exactly when one call to `markJobSent` marks sent a job whose delivered hash is not its state's. */
  lemma MarkSentExact(d: Doc, delivered: Hash, messageId: nat, now: int)
    ensures var r := MarkedSent(d, delivered, messageId, now);
            (r.status == Sent && r.lastDelivered != r.stateHash) <==>
            (d.stateHash == "") != (delivered == "")
  {
  }

  // ----- One worker: what is shown is what is stored -----

  predicate OnlyWorker(w: int, actions: seq<Action>) {
    forall i :: 0 <= i < |actions| ==> Acting(actions[i], w)
  }

  predicate Acting(a: Action, w: int) {
    match a
    case Enqueue(_, _, _, _) => true
    case Requeue(_) => true
    case _ => a.worker == w
  }

  ghost predicate OneWorkerInv(s: State, w: int) {
    && (forall x :: x in s.copies ==> x == w)
    && (w in s.copies ==> s.doc.Some? && s.doc.value.status != Sent)
    && (w in s.copies && s.copies[w].delivered ==> s.shown == Some(s.copies[w].hash))
    && (s.doc.Some? && s.doc.value.status == Sent ==> s.shown == Some(s.doc.value.lastDelivered))
  }

  lemma OneWorkerStep(key: Key, maxRetries: nat, s: State, a: Action, w: int)
    requires OneWorkerInv(s, w) && SentIsCurrent(s) && Acting(a, w) && !a.MarkRead? && !a.MarkWrite?
    ensures OneWorkerInv(Step(key, maxRetries, s, a), w)
  {
  }

  lemma {:induction false} OneWorkerRun(key: Key, maxRetries: nat, s: State, actions: seq<Action>, w: int)
    requires OneWorkerInv(s, w) && SentIsCurrent(s) && OnlyWorker(w, actions) && Atomic(actions)
    ensures OneWorkerInv(Run(key, maxRetries, s, actions), w)
    decreases actions
  {
    if actions != [] {
      OneWorkerStep(key, maxRetries, s, actions[0], w);
      SentIsCurrentStep(key, maxRetries, s, actions[0]);
      OneWorkerRun(key, maxRetries, Step(key, maxRetries, s, actions[0]), actions[1..], w);
    }
  }

  /** With the single drain worker, a sent job is on display in its latest state. */
  lemma SentMeansShown(key: Key, maxRetries: nat, actions: seq<Action>, w: int)
    requires Atomic(actions) && Hashed(actions) && OnlyWorker(w, actions)
    ensures var s := Run(key, maxRetries, NOTHING, actions);
            s.doc.Some? && s.doc.value.status == Sent ==> s.shown == Some(s.doc.value.stateHash)
  {
    OneWorkerRun(key, maxRetries, NOTHING, actions, w);
    SentMeansDelivered(key, maxRetries, actions);
  }

  /** With two workers a late delivery can replace the current card while the job stays sent. */
  lemma TwoWorkersCanShowOldState()
    ensures var key := TradeCard("t");
            var actions := [Enqueue("a", Send, 0, 0), Claim(1, 1), Enqueue("b", Send, 0, 2), Claim(2, 3),
                            Deliver(2), MarkSent(2, 9, 4), Deliver(1)];
            var s := Run(key, 8, NOTHING, actions);
            Atomic(actions) && Hashed(actions)
            && s.doc.Some? && s.doc.value.status == Sent && s.doc.value.stateHash == "b" && s.shown == Some("a")
  {
    var key := TradeCard("t");
    Unroll7(key, NOTHING, Enqueue("a", Send, 0, 0), Claim(1, 1), Enqueue("b", Send, 0, 2), Claim(2, 3),
            Deliver(2), MarkSent(2, 9, 4), Deliver(1));
  }

  // ----- Any number of workers: exactly when what is shown is what is stored -----

  ghost predicate ShownOk(s: State) {
    s.doc.Some? && s.doc.value.status == Sent ==> s.shown == Some(s.doc.value.stateHash)
  }

  /**
   The two guards: no copy of another state is delivered while the job is sent, and a mark that ends as sent finds
   its own copy's state on display.
   */
  ghost predicate Guard(s: State, a: Action) {
    match a
    case Deliver(w) =>
      s.doc.Some? && s.doc.value.status == Sent && w in s.copies && !s.copies[w].delivered ==>
        s.copies[w].hash == s.doc.value.stateHash
    case MarkSent(w, _, _) =>
      s.doc.Some? && w in s.copies && s.copies[w].delivered && !Supersedes(s.doc.value.stateHash, s.copies[w].hash) ==>
        s.shown == Some(s.copies[w].hash)
    case _ => true
  }

  lemma ShownStepExact(key: Key, maxRetries: nat, s: State, a: Action)
    requires ShownOk(s) && AllHashed(s) && SentIsCurrent(s) && !a.MarkRead? && !a.MarkWrite?
    ensures ShownOk(Step(key, maxRetries, s, a)) <==> Guard(s, a)
  {
  }

  ghost predicate ShownThroughout(key: Key, maxRetries: nat, actions: seq<Action>) {
    forall n :: 0 <= n <= |actions| ==> ShownOk(At(key, maxRetries, NOTHING, actions, n))
  }

  ghost predicate GuardedThroughout(key: Key, maxRetries: nat, actions: seq<Action>) {
    forall n :: 0 <= n < |actions| ==> Guard(At(key, maxRetries, NOTHING, actions, n), actions[n])
  }

  lemma SoundAt(key: Key, maxRetries: nat, actions: seq<Action>, n: nat)
    requires Atomic(actions) && Hashed(actions) && n <= |actions|
    ensures var s := At(key, maxRetries, NOTHING, actions, n);
            AllHashed(s) && SentIsCurrent(s)
  {
    NoLostSupersession(key, maxRetries, NOTHING, actions[..n]);
    HashesStay(key, maxRetries, NOTHING, actions[..n]);
  }

  /**
   Over every run of any number of workers, a sent job is on display in its stored state exactly when both guards hold.
   */
  lemma ShownExact(key: Key, maxRetries: nat, actions: seq<Action>)
    requires Atomic(actions) && Hashed(actions)
    ensures ShownThroughout(key, maxRetries, actions) <==> GuardedThroughout(key, maxRetries, actions)
  {
    hide Guard, ShownOk, At;
    if ShownThroughout(key, maxRetries, actions) {
      forall n | 0 <= n < |actions|
        ensures Guard(At(key, maxRetries, NOTHING, actions, n), actions[n])
      {
        SoundAt(key, maxRetries, actions, n);
        NextAt(key, maxRetries, NOTHING, actions, n);
        ShownStepExact(key, maxRetries, At(key, maxRetries, NOTHING, actions, n), actions[n]);
      }
    }
    if GuardedThroughout(key, maxRetries, actions) {
      GuardedIsShown(key, maxRetries, actions, |actions|);
    }
  }

  lemma {:induction false} GuardedIsShown(key: Key, maxRetries: nat, actions: seq<Action>, n: nat)
    requires Atomic(actions) && Hashed(actions) && n <= |actions| && GuardedThroughout(key, maxRetries, actions)
    ensures forall m :: 0 <= m <= n ==> ShownOk(At(key, maxRetries, NOTHING, actions, m))
  {
    if n > 0 {
      GuardedIsShown(key, maxRetries, actions, n - 1);
      SoundAt(key, maxRetries, actions, n - 1);
      NextAt(key, maxRetries, NOTHING, actions, n - 1);
      ShownStepExact(key, maxRetries, At(key, maxRetries, NOTHING, actions, n - 1), actions[n - 1]);
    }
  }

  lemma Unroll7(key: Key, s: State, a: Action, b: Action, c: Action, d: Action, e: Action, f: Action, g: Action)
    ensures Run(key, 8, s, [a, b, c, d, e, f, g]) ==
            var s3 := Step(key, 8, Step(key, 8, Step(key, 8, s, a), b), c);
            Step(key, 8, Step(key, 8, Step(key, 8, Step(key, 8, s3, d), e), f), g)
  {
    Unroll(key, s, a, [b, c, d, e, f, g]);
    var s1 := Step(key, 8, s, a);
    Unroll(key, s1, b, [c, d, e, f, g]);
    var s2 := Step(key, 8, s1, b);
    Unroll(key, s2, c, [d, e, f, g]);
    var s3 := Step(key, 8, s2, c);
    Unroll(key, s3, d, [e, f, g]);
    var s4 := Step(key, 8, s3, d);
    Unroll(key, s4, e, [f, g]);
    var s5 := Step(key, 8, s4, e);
    Unroll(key, s5, f, [g]);
    Unroll(key, Step(key, 8, s5, f), g, []);
  }

  lemma Unroll(key: Key, s: State, a: Action, rest: seq<Action>)
    ensures Run(key, 8, s, [a] + rest) == Run(key, 8, Step(key, 8, s, a), rest)
  {
    assert ([a] + rest)[1..] == rest;
  }

  // ----- The read and the write of markJobSent apart -----

  /** The state last enqueued by a list of actions; only trade cards are enqueued over a waiting job. */
  function LastEnqueued(key: Key, actions: seq<Action>): Option<Hash> {
    if !key.TradeCard? || actions == [] then None
    else if actions[|actions| - 1].Enqueue? then Some(actions[|actions| - 1].hash)
    else LastEnqueued(key, actions[..|actions| - 1])
  }

  predicate OtherEnqueued(key: Key, actions: seq<Action>, seen: Hash) {
    var last := LastEnqueued(key, actions);
    last.Some? && last.value != seen
  }

  /** Whatever the workers do, the stored state is the one last enqueued. */
  lemma {:induction false} StoredIsLastEnqueued(key: Key, maxRetries: nat, s: State, actions: seq<Action>)
    requires s.doc.Some?
    ensures var r := Run(key, maxRetries, s, actions);
            var last := LastEnqueued(key, actions);
            r.doc.Some? && r.doc.value.stateHash == if last.Some? then last.value else s.doc.value.stateHash
  {
    if actions != [] {
      var n := |actions| - 1;
      StoredIsLastEnqueued(key, maxRetries, s, actions[..n]);
      assert actions[..n + 1] == actions;
      NextAt(key, maxRetries, s, actions, n);
      StoredStep(key, maxRetries, At(key, maxRetries, s, actions, n), actions[n]);
    }
  }

  lemma StoredStep(key: Key, maxRetries: nat, s: State, a: Action)
    requires s.doc.Some?
    ensures var r := Step(key, maxRetries, s, a);
            r.doc.Some?
            && r.doc.value.stateHash == if a.Enqueue? && key.TradeCard? then a.hash else s.doc.value.stateHash
  {
  }

  /** The worker holds a copy throughout. */
  ghost predicate Holds(key: Key, maxRetries: nat, s: State, w: int, actions: seq<Action>) {
    forall n :: 0 <= n <= |actions| ==> w in At(key, maxRetries, s, actions, n).copies
  }

  lemma {:induction false} HeldCopyStays(key: Key, maxRetries: nat, s: State, w: int, actions: seq<Action>)
    requires Holds(key, maxRetries, s, w, actions)
    ensures var r := Run(key, maxRetries, s, actions);
            && w in s.copies && w in r.copies && r.copies[w].hash == s.copies[w].hash
            && r.copies[w].retryCount == s.copies[w].retryCount
            && (s.copies[w].readHash.Some? ==> r.copies[w].readHash == s.copies[w].readHash)
  {
    assert w in At(key, maxRetries, s, actions, 0).copies;
    if actions != [] {
      var n := |actions| - 1;
      forall m | 0 <= m <= n
        ensures w in At(key, maxRetries, s, actions[..n], m).copies
      {
        assert actions[..n][..m] == actions[..m];
        assert w in At(key, maxRetries, s, actions, m).copies;
      }
      HeldCopyStays(key, maxRetries, s, w, actions[..n]);
      assert actions[..n + 1] == actions;
      assert w in At(key, maxRetries, s, actions, n + 1).copies;
      NextAt(key, maxRetries, s, actions, n);
      HeldCopyStep(key, maxRetries, At(key, maxRetries, s, actions, n), w, actions[n]);
    }
  }

  lemma HeldCopyStep(key: Key, maxRetries: nat, s: State, w: int, a: Action)
    requires w in s.copies && w in Step(key, maxRetries, s, a).copies
    ensures var c, d := s.copies[w], Step(key, maxRetries, s, a).copies[w];
            && d.hash == c.hash && d.retryCount == c.retryCount && (c.readHash.Some? ==> d.readHash == c.readHash)
  {
  }

  /**
   Whatever happens between the read and the write: the job ends as sent in a state other than the delivered one
   exactly when the hash read was the delivered one and the last enqueue in between brought another.
   */
  lemma SplitMarkExact(
      key: Key, maxRetries: nat, s: State, w: int, between: seq<Action>, messageId: nat, now: int)
    requires s.doc.Some? && w in s.copies && s.copies[w].delivered && s.copies[w].readHash.None?
    requires s.doc.value.stateHash != "" && s.copies[w].hash != "" && Hashed(between)
    requires Holds(key, maxRetries, Step(key, maxRetries, s, MarkRead(w)), w, between)
    ensures var read := Step(key, maxRetries, s, MarkRead(w));
            var r := Step(key, maxRetries, Run(key, maxRetries, read, between), MarkWrite(w, messageId, now));
            && r.doc.Some?
            && (r.doc.value.status == Sent && r.doc.value.lastDelivered != r.doc.value.stateHash <==>
                  s.doc.value.stateHash == s.copies[w].hash && OtherEnqueued(key, between, s.copies[w].hash))
  {
    var read := Step(key, maxRetries, s, MarkRead(w));
    HeldCopyStays(key, maxRetries, read, w, between);
    StoredIsLastEnqueued(key, maxRetries, read, between);
  }

  /** An enqueue that falls between them is lost: the job is sent, and the new state was never delivered. */
  lemma InterleavedEnqueueIsLost()
    ensures var key := TradeCard("t");
            var actions := [Enqueue("a", Send, 0, 0), Claim(1, 1), Deliver(1), MarkRead(1), Enqueue("b", Send, 0, 2),
                            MarkWrite(1, 9, 3), Requeue(4)];
            var s := Run(key, 8, NOTHING, actions);
            && s.doc.Some? && s.doc.value.status == Sent && s.doc.value.stateHash == "b" && s.shown == Some("a")
            && s.copies == map[]
  {
    var key := TradeCard("t");
    Unroll7(key, NOTHING, Enqueue("a", Send, 0, 0), Claim(1, 1), Deliver(1), MarkRead(1), Enqueue("b", Send, 0, 2),
            MarkWrite(1, 9, 3), Requeue(4));
    var s1 := Step(key, 8, NOTHING, Enqueue("a", Send, 0, 0));
    var s2 := Step(key, 8, s1, Claim(1, 1));
    var s3 := Step(key, 8, s2, Deliver(1));
    var s4 := Step(key, 8, s3, MarkRead(1));
    var s5 := Step(key, 8, s4, Enqueue("b", Send, 0, 2));
    var s6 := Step(key, 8, s5, MarkWrite(1, 9, 3));
    assert s6.copies == map[];
  }

  /** A sent job nobody holds stays as it is until the next enqueue. */
  lemma {:induction false} SentIsFinal(key: Key, maxRetries: nat, s: State, actions: seq<Action>)
    requires s.doc.Some? && s.doc.value.status == Sent && s.copies == map[]
    requires forall i :: 0 <= i < |actions| ==> !actions[i].Enqueue?
    ensures Run(key, maxRetries, s, actions) == s
    decreases actions
  {
    if actions != [] {
      SentIsFinal(key, maxRetries, s, actions[1..]);
    }
  }

  // ----- Compare-and-set -----

  /** The clock reading an action writes into the document. */
  function StampOf(a: Action): Option<int> {
    match a
    case Enqueue(_, _, _, now) => Some(now)
    case Claim(_, now) => Some(now)
    case MarkSent(_, _, now) => Some(now)
    case MarkWrite(_, _, now) => Some(now)
    case MarkRetry(_, _, _, now) => Some(now)
    case MarkFailed(_, _, now) => Some(now)
    case Requeue(now) => Some(now)
    case _ => None
  }

  lemma WriteStamps(key: Key, maxRetries: nat, s: State, a: Action)
    requires s.doc.Some?
    ensures var r := Step(key, maxRetries, s, a).doc;
            r.Some? && (r != s.doc ==> StampOf(a) == Some(r.value.updatedAt))
  {
  }

  /** The clock never runs backwards; with `strict`, every action comes at a later millisecond than the last write. */
  ghost predicate Ticking(key: Key, maxRetries: nat, s: State, actions: seq<Action>, strict: bool)
    decreases actions
  {
    actions == [] ||
    (&& (s.doc.Some? && StampOf(actions[0]).Some? ==>
           StampOf(actions[0]).value >= s.doc.value.updatedAt + if strict then 1 else 0)
     && Ticking(key, maxRetries, Step(key, maxRetries, s, actions[0]), actions[1..], strict))
  }

  /** Every write of the run is made at millisecond `t`. */
  ghost predicate WritesAt(key: Key, maxRetries: nat, s: State, actions: seq<Action>, t: int)
    decreases actions
  {
    actions == [] ||
    (&& (Step(key, maxRetries, s, actions[0]).doc != s.doc ==> StampOf(actions[0]) == Some(t))
     && WritesAt(key, maxRetries, Step(key, maxRetries, s, actions[0]), actions[1..], t))
  }

  /**
   Whatever the workers do between a worker's read of the due jobs and its claim: the time it saw is still there
   exactly when every write in between was made at that very millisecond.
   */
  lemma {:induction false} SameStampExact(key: Key, maxRetries: nat, s: State, actions: seq<Action>)
    requires s.doc.Some? && Ticking(key, maxRetries, s, actions, false)
    ensures var r := Run(key, maxRetries, s, actions);
            && r.doc.Some? && s.doc.value.updatedAt <= r.doc.value.updatedAt
            && (r.doc.value.updatedAt == s.doc.value.updatedAt <==>
                  WritesAt(key, maxRetries, s, actions, s.doc.value.updatedAt))
    decreases actions
  {
    hide Step;
    if actions != [] {
      var next := Step(key, maxRetries, s, actions[0]);
      WriteStamps(key, maxRetries, s, actions[0]);
      SameStampExact(key, maxRetries, next, actions[1..]);
    }
  }

  /** So, with a clock that tells writes apart, an unchanged time means the very document that was seen. */
  lemma {:induction false} SameStampSameDoc(key: Key, maxRetries: nat, s: State, actions: seq<Action>)
    requires s.doc.Some? && Ticking(key, maxRetries, s, actions, true)
    ensures var r := Run(key, maxRetries, s, actions);
            && r.doc.Some? && s.doc.value.updatedAt <= r.doc.value.updatedAt
            && (r.doc.value.updatedAt == s.doc.value.updatedAt <==> r.doc == s.doc)
    decreases actions
  {
    hide Step;
    if actions != [] {
      WriteStamps(key, maxRetries, s, actions[0]);
      SameStampSameDoc(key, maxRetries, Step(key, maxRetries, s, actions[0]), actions[1..]);
    }
  }

  /** Otherwise a claim can hit a job that another worker has put off within the same millisecond. */
  lemma SameMillisecondIsNotSeen(key: Key, seen: Doc, maxRetries: nat, later: int, now: int)
    requires seen.status == Retry && seen.updatedAt == now && seen.retryCount < maxRetries && later > now
    ensures var putOff := MarkedRetry(Claimed(seen, now), seen.retryCount, maxRetries, later, Keep, now);
            StillThere(map[key := putOff], key, seen) && !IsDue(putOff, now)
  {
  }

  // ----- Bounds -----

  /** The copy's count and the stored count both cover the failed attempts since the last enqueue. */
  ghost predicate AttemptsInv(s: State, w: int, maxRetries: nat) {
    && (forall x :: x in s.copies ==> x == w)
    && (s.doc.None? ==> s.copies == map[] && s.attempts == 0)
    && (s.doc.Some? ==>
          && s.attempts <= maxRetries + 1
          && (Claimable(s.doc.value) || s.doc.value.status == Processing ==>
                s.attempts <= s.doc.value.retryCount <= maxRetries))
    && (w in s.copies ==>
          s.attempts <= s.copies[w].retryCount <= maxRetries && s.doc.value.status != Failed
          && s.doc.value.status != Sent)
  }

  lemma AttemptsStep(key: Key, maxRetries: nat, s: State, a: Action, w: int)
    requires AttemptsInv(s, w, maxRetries) && Acting(a, w)
    ensures AttemptsInv(Step(key, maxRetries, s, a), w, maxRetries)
  {
  }

  lemma {:induction false} AttemptsStayBounded(key: Key, maxRetries: nat, s: State, actions: seq<Action>, w: int)
    requires AttemptsInv(s, w, maxRetries) && OnlyWorker(w, actions)
    ensures Run(key, maxRetries, s, actions).attempts <= maxRetries + 1
    decreases actions
  {
    if actions != [] {
      AttemptsStep(key, maxRetries, s, actions[0], w);
      AttemptsStayBounded(key, maxRetries, Step(key, maxRetries, s, actions[0]), actions[1..], w);
    }
  }

  /**
   With the single drain worker, one enqueue gets at most `maxRetries + 1` failed attempts, retried and given up ones
   together.
   */
  lemma AttemptsBounded(key: Key, maxRetries: nat, actions: seq<Action>, w: int)
    requires OnlyWorker(w, actions)
    ensures Run(key, maxRetries, NOTHING, actions).attempts <= maxRetries + 1
  {
    AttemptsStayBounded(key, maxRetries, NOTHING, actions, w);
  }

  // ----- Bounds for any number of workers: every held copy and every waiting job is charged its attempts -----

  /** The failed attempts a copy or a waiting job with this count can still lead to without being requeued. */
  function Stake(maxRetries: nat, retries: nat): int {
    MaxInt(1, maxRetries + 1 - retries)
  }

  /** A copy of another state than the stored one may put the job back to the start of its retries. */
  function CopyStake(maxRetries: nat, stored: Hash): Copy -> int {
    (c: Copy) =>
      if c.hash == stored && (c.readHash.None? || c.readHash.value == stored) then Stake(maxRetries, c.retryCount)
      else maxRetries + 1
  }

  function DocStake(maxRetries: nat, d: Doc): int {
    if Claimable(d) then Stake(maxRetries, d.retryCount) else 0
  }

  ghost function SumOver<W>(ws: set<W>, f: W -> int): int {
    if ws == {} then 0
    else
      var w :| w in ws;
      f(w) + SumOver(ws - {w}, f)
  }

  lemma {:induction false} SumOverSplit<W>(ws: set<W>, f: W -> int, w: W)
    requires w in ws
    ensures SumOver(ws, f) == f(w) + SumOver(ws - {w}, f)
    decreases ws
  {
    var x :| x in ws && SumOver(ws, f) == f(x) + SumOver(ws - {x}, f);
    if x != w {
      SumOverSplit(ws - {x}, f, w);
      SumOverSplit(ws - {w}, f, x);
      assert ws - {x} - {w} == ws - {w} - {x};
    }
  }

  lemma {:induction false} SumOverSame<W>(ws: set<W>, f: W -> int, g: W -> int)
    requires forall w :: w in ws ==> f(w) == g(w)
    ensures SumOver(ws, f) == SumOver(ws, g)
    decreases ws
  {
    if ws != {} {
      var w :| w in ws;
      SumOverSplit(ws, f, w);
      SumOverSplit(ws, g, w);
      SumOverSame(ws - {w}, f, g);
    }
  }

  lemma {:induction false} SumOverBounded<W>(ws: set<W>, f: W -> int, most: nat)
    requires forall w :: w in ws ==> 0 <= f(w) <= most
    ensures 0 <= SumOver(ws, f) <= |ws| * most
    decreases ws
  {
    if ws != {} {
      var w :| w in ws;
      SumOverSplit(ws, f, w);
      hide SumOver;
      SumOverBounded(ws - {w}, f, most);
      assert |ws - {w}| == |ws| - 1;
      OneStakeMore(|ws| - 1, most);
    }
  }

  lemma OneStakeMore(n: nat, stake: nat)
    ensures (n + 1) * stake == n * stake + stake
  {
  }

  function ByWorker(m: map<int, Copy>, f: Copy -> int): int -> int {
    (w: int) => if w in m then f(m[w]) else 0
  }

  ghost function Sum(m: map<int, Copy>, f: Copy -> int): int {
    SumOver(m.Keys, ByWorker(m, f))
  }

  lemma SumSplit(m: map<int, Copy>, f: Copy -> int, w: int)
    requires w in m
    ensures Sum(m, f) == f(m[w]) + Sum(m - {w}, f)
  {
    hide SumOver;
    SumOverSplit(m.Keys, ByWorker(m, f), w);
    assert (m - {w}).Keys == m.Keys - {w};
    SumOverSame(m.Keys - {w}, ByWorker(m, f), ByWorker(m - {w}, f));
  }

  lemma SumWith(m: map<int, Copy>, f: Copy -> int, w: int, c: Copy)
    ensures Sum(m[w := c], f) == Sum(m, f) + f(c) - if w in m then f(m[w]) else 0
  {
    hide Sum;
    SumSplit(m[w := c], f, w);
    if w in m {
      SumSplit(m, f, w);
      assert m[w := c] - {w} == m - {w};
    } else {
      assert m[w := c] - {w} == m;
    }
  }

  lemma StakesBounded(m: map<int, Copy>, maxRetries: nat, stored: Hash)
    ensures 0 <= Sum(m, CopyStake(maxRetries, stored)) <= |m| * (maxRetries + 1)
  {
    SumOverBounded(m.Keys, ByWorker(m, CopyStake(maxRetries, stored)), maxRetries + 1);
    assert |m| == |m.Keys|;
  }

  /** The attempts made and all that can still be made without a requeue. */
  ghost function Charged(maxRetries: nat, s: State): int
    requires s.doc.Some?
  {
    s.attempts + Sum(s.copies, CopyStake(maxRetries, s.doc.value.stateHash)) + DocStake(maxRetries, s.doc.value)
  }

  predicate Restarts(key: Key, a: Action) {
    a.Enqueue? && key.TradeCard?
  }

  /** Only a requeue adds to the charge. */
  lemma ChargeStep(key: Key, maxRetries: nat, s: State, a: Action)
    requires s.doc.Some? && !Restarts(key, a)
    ensures var r := Step(key, maxRetries, s, a);
            && r.doc.Some? && r.requeues - s.requeues in {0, 1}
            && Charged(maxRetries, r) <= Charged(maxRetries, s) + if r.requeues > s.requeues then maxRetries + 1 else 0
  {
    hide Sum;
    StoredStep(key, maxRetries, s, a);
    var f := CopyStake(maxRetries, s.doc.value.stateHash);
    match a {
      case Enqueue(_, _, _, _) =>
      case Requeue(_) =>
      case Claim(w, _) =>
        SumWith(s.copies, f, w, Copy(s.doc.value.stateHash, s.doc.value.retryCount, false, None));
      case _ =>
        if a.worker in s.copies {
          ChargeHolder(key, maxRetries, s, a);
        }
    }
  }

  lemma ChargeHolder(key: Key, maxRetries: nat, s: State, a: Action)
    requires s.doc.Some? && !a.Enqueue? && !a.Requeue? && !a.Claim? && a.worker in s.copies
    ensures var r := Step(key, maxRetries, s, a);
            r.doc.Some? && r.requeues == s.requeues && Charged(maxRetries, r) <= Charged(maxRetries, s)
  {
    hide Sum;
    StoredStep(key, maxRetries, s, a);
    var w, stored := a.worker, s.doc.value.stateHash;
    var f, c := CopyStake(maxRetries, stored), s.copies[w];
    SumSplit(s.copies, f, w);
    SumWith(s.copies, f, w, c.(delivered := true));
    SumWith(s.copies, f, w, c.(readHash := Some(stored)));
  }

  lemma {:induction false} ChargeRun(key: Key, maxRetries: nat, s: State, actions: seq<Action>)
    requires s.doc.Some? && forall i :: 0 <= i < |actions| ==> !Restarts(key, actions[i])
    ensures var r := Run(key, maxRetries, s, actions);
            && r.doc.Some? && r.requeues >= s.requeues
            && Charged(maxRetries, r) <= Charged(maxRetries, s) + (r.requeues - s.requeues) * (maxRetries + 1)
    decreases actions
  {
    hide Charged, Step;
    if actions != [] {
      var next := Step(key, maxRetries, s, actions[0]);
      ChargeStep(key, maxRetries, s, actions[0]);
      ChargeRun(key, maxRetries, next, actions[1..]);
      var r := Run(key, maxRetries, next, actions[1..]);
      assert (r.requeues - s.requeues) * (maxRetries + 1) ==
             (r.requeues - next.requeues) * (maxRetries + 1) + (next.requeues - s.requeues) * (maxRetries + 1);
    }
  }

  /**
   With any number of workers, an enqueue leads, until the next one, to at most `maxRetries + 1` failed attempts, as
   many again for every copy still held when it came and for every stale requeue since.
   */
  lemma AttemptsPerEnqueue(key: Key, maxRetries: nat, s: State, a: Action, actions: seq<Action>)
    requires a.Enqueue? && (s.doc.None? || key.TradeCard?)
    requires forall i :: 0 <= i < |actions| ==> !Restarts(key, actions[i])
    ensures var r := Run(key, maxRetries, Step(key, maxRetries, s, a), actions);
            r.attempts <= (1 + |s.copies| + r.requeues - s.requeues) * (maxRetries + 1)
  {
    var e := Step(key, maxRetries, s, a);
    ChargeAfterEnqueue(key, maxRetries, s, a);
    hide Charged, Run, Step;
    ChargeRun(key, maxRetries, e, actions);
    var r := Run(key, maxRetries, e, actions);
    ChargeCoversAttempts(maxRetries, r);
    Shares(r.attempts, Charged(maxRetries, e), |s.copies|, r.requeues - s.requeues, maxRetries + 1);
  }

  lemma Shares(attempts: int, charge: int, held: nat, requeues: nat, stake: nat)
    requires attempts <= charge + requeues * stake && charge <= stake + held * stake
    ensures attempts <= (1 + held + requeues) * stake
  {
    assert (1 + held + requeues) * stake == stake + held * stake + requeues * stake;
  }

  lemma ChargeCoversAttempts(maxRetries: nat, s: State)
    requires s.doc.Some?
    ensures s.attempts <= Charged(maxRetries, s)
  {
    hide Sum, CopyStake;
    StakesBounded(s.copies, maxRetries, s.doc.value.stateHash);
  }

  lemma ChargeAfterEnqueue(key: Key, maxRetries: nat, s: State, a: Action)
    requires a.Enqueue? && (s.doc.None? || key.TradeCard?)
    ensures var e := Step(key, maxRetries, s, a);
            && e.doc.Some? && e.requeues == s.requeues
            && Charged(maxRetries, e) <= maxRetries + 1 + |s.copies| * (maxRetries + 1)
  {
    hide Sum, CopyStake;
    var e := Step(key, maxRetries, s, a);
    StakesBounded(e.copies, maxRetries, e.doc.value.stateHash);
  }

  /** With any number of workers, an insert-only job fails at most `maxRetries + 1` times, and as often per requeue. */
  lemma {:induction false} AttemptsBoundedForAll(key: Key, maxRetries: nat, actions: seq<Action>)
    requires !key.TradeCard?
    ensures var r := Run(key, maxRetries, NOTHING, actions);
            r.attempts <= (1 + r.requeues) * (maxRetries + 1)
    decreases actions
  {
    if actions != [] {
      if actions[0].Enqueue? {
        AttemptsPerEnqueue(key, maxRetries, NOTHING, actions[0], actions[1..]);
      } else {
        assert Step(key, maxRetries, NOTHING, actions[0]) == NOTHING;
        AttemptsBoundedForAll(key, maxRetries, actions[1..]);
      }
    }
  }

  /** Copies that may still be delivered. */
  ghost function Armed(copies: map<int, Copy>): set<int> {
    set w | w in copies && !copies[w].delivered
  }

  /** Every way to one more delivery was paid for. */
  ghost predicate PaidFor(s: State) {
    && s.deliveries + |Armed(s.copies)| + (if s.doc.Some? && Claimable(s.doc.value) then 1 else 0)
       <= 1 + s.requeues + s.bookkeepingFailures
    && (s.doc.None? ==> s.copies == map[] && s.deliveries == 0)
    && (s.doc.Some? ==> forall w :: w in s.copies ==>
          s.copies[w].hash == s.doc.value.stateHash
          && (s.copies[w].readHash.Some? ==> s.copies[w].readHash.value == s.doc.value.stateHash))
  }

  lemma ArmedWithout(copies: map<int, Copy>, w: int)
    requires w in copies
    ensures |Armed(copies - {w})| == |Armed(copies)| - if copies[w].delivered then 0 else 1
  {
    assert Armed(copies - {w}) == Armed(copies) - {w};
  }

  lemma ArmedWith(copies: map<int, Copy>, w: int, c: Copy)
    ensures |Armed(copies[w := c])| ==
            |Armed(copies)| - (if w in Armed(copies) then 1 else 0) + (if c.delivered then 0 else 1)
  {
    assert Armed(copies[w := c]) == Armed(copies) - {w} + if c.delivered then {} else {w};
  }

  lemma PaidForStep(key: Key, maxRetries: nat, s: State, a: Action)
    requires PaidFor(s) && !key.TradeCard?
    ensures PaidFor(Step(key, maxRetries, s, a))
  {
    hide Armed;
    match a {
      case Enqueue(_, _, _, _) =>
        if s.doc.None? {
          NothingArmed(s.copies);
        }
      case Requeue(_) =>
      case Claim(w, now) =>
        ArmedWith(s.copies, w, Copy(if s.doc.Some? then s.doc.value.stateHash else "",
                                    if s.doc.Some? then s.doc.value.retryCount else 0, false, None));
        if w !in s.copies {
          ArmedOnlyHeld(s.copies, w);
        }
      case _ =>
        if a.worker in s.copies {
          PaidForHolder(key, maxRetries, s, a);
        }
    }
  }

  lemma NothingArmed(copies: map<int, Copy>)
    requires copies == map[]
    ensures Armed(copies) == {}
  {
  }

  lemma ArmedOnlyHeld(copies: map<int, Copy>, w: int)
    ensures w in Armed(copies) <==> w in copies && !copies[w].delivered
  {
  }

  lemma PaidForHolder(key: Key, maxRetries: nat, s: State, a: Action)
    requires PaidFor(s) && !key.TradeCard? && !a.Enqueue? && !a.Requeue? && !a.Claim? && a.worker in s.copies
    ensures PaidFor(Step(key, maxRetries, s, a))
  {
    hide Armed;
    var w := a.worker;
    var c := s.copies[w];
    ArmedWithout(s.copies, w);
    ArmedOnlyHeld(s.copies, w);
    ArmedWith(s.copies, w, c.(delivered := true));
    if s.doc.Some? {
      ArmedWith(s.copies, w, c.(readHash := Some(s.doc.value.stateHash)));
    }
  }

  lemma {:induction false} DuplicatesStayPaidFor(key: Key, maxRetries: nat, s: State, actions: seq<Action>)
    requires PaidFor(s) && !key.TradeCard?
    ensures var r := Run(key, maxRetries, s, actions);
            r.deliveries <= 1 + r.requeues + r.bookkeepingFailures
    decreases actions
  {
    if actions != [] {
      PaidForStep(key, maxRetries, s, actions[0]);
      DuplicatesStayPaidFor(key, maxRetries, Step(key, maxRetries, s, actions[0]), actions[1..]);
    }
  }

  /** An insert-only job is delivered at most once, plus once per stale requeue and per bookkeeping failure. */
  lemma DuplicatesBounded(key: Key, maxRetries: nat, actions: seq<Action>)
    requires !key.TradeCard?
    ensures var r := Run(key, maxRetries, NOTHING, actions);
            r.deliveries <= 1 + r.requeues + r.bookkeepingFailures
  {
    NothingArmed(NOTHING.copies);
    DuplicatesStayPaidFor(key, maxRetries, NOTHING, actions);
  }

  // ----- Failures -----

  predicate Fails(a: Action, w: int) {
    (a.MarkRetry? || a.MarkFailed?) && a.worker == w
  }

  /**
   One mark: the job fails in a state its worker never saw exactly when the hashes differ and the retries are over.
   */
  lemma FailureStepExact(key: Key, maxRetries: nat, s: State, w: int, a: Action)
    requires s.doc.Some? && w in s.copies && Fails(a, w)
    ensures var r := Step(key, maxRetries, s, a).doc;
            && r.Some?
            && (r.value.status == Failed && r.value.stateHash != s.copies[w].hash <==>
                  && s.doc.value.stateHash != s.copies[w].hash
                  && (a.MarkFailed? || s.copies[w].retryCount >= maxRetries))
  {
  }

  /**
   One attempt, among any other workers: it fails the job in a state it never saw exactly when another state was
   enqueued between its claim and its mark, and it was the last attempt allowed.
   */
  lemma AttemptBuriesExact(
      key: Key, maxRetries: nat, s: State, w: int, claimed: int, between: seq<Action>, mark: Action)
    requires s.doc.Some? && Claimable(s.doc.value) && w !in s.copies && Fails(mark, w)
    requires Holds(key, maxRetries, Step(key, maxRetries, s, Claim(w, claimed)), w, between)
    ensures var r := Step(key, maxRetries,
                          Run(key, maxRetries, Step(key, maxRetries, s, Claim(w, claimed)), between), mark);
            && r.doc.Some?
            && (r.doc.value.status == Failed && r.doc.value.stateHash != s.doc.value.stateHash <==>
                  && OtherEnqueued(key, between, s.doc.value.stateHash)
                  && (mark.MarkFailed? || s.doc.value.retryCount >= maxRetries))
  {
    var held := Step(key, maxRetries, s, Claim(w, claimed));
    HeldCopyStays(key, maxRetries, held, w, between);
    StoredIsLastEnqueued(key, maxRetries, held, between);
    FailureStepExact(key, maxRetries, Run(key, maxRetries, held, between), w, mark);
  }

  /** Actions `i` and `j` of a run are worker `w`'s claim and the failing mark of the same attempt. */
  ghost predicate LastAttempt(key: Key, maxRetries: nat, actions: seq<Action>, w: int, i: nat, j: nat) {
    && i < j < |actions| && actions[i].Claim? && actions[i].worker == w && Fails(actions[j], w)
    && At(key, maxRetries, NOTHING, actions, i).doc.Some?
    && Claimable(At(key, maxRetries, NOTHING, actions, i).doc.value)
    && w !in At(key, maxRetries, NOTHING, actions, i).copies
    && (forall n :: i < n <= j ==> w in At(key, maxRetries, NOTHING, actions, n).copies)
  }

  /** A held copy was claimed, and held ever since. */
  lemma {:induction false} ClaimOf(key: Key, maxRetries: nat, actions: seq<Action>, w: int, j: nat) returns (i: nat)
    requires j <= |actions| && w in At(key, maxRetries, NOTHING, actions, j).copies
    ensures i < j && actions[i].Claim? && actions[i].worker == w
    ensures At(key, maxRetries, NOTHING, actions, i).doc.Some?
    ensures Claimable(At(key, maxRetries, NOTHING, actions, i).doc.value)
    ensures w !in At(key, maxRetries, NOTHING, actions, i).copies
    ensures forall n :: i < n <= j ==> w in At(key, maxRetries, NOTHING, actions, n).copies
  {
    hide At, Run;
    if j == 0 {
      StartsEmpty(key, maxRetries, actions);
      assert false;
    } else {
      NextAt(key, maxRetries, NOTHING, actions, j - 1);
      if w in At(key, maxRetries, NOTHING, actions, j - 1).copies {
        i := ClaimOf(key, maxRetries, actions, w, j - 1);
      } else {
        i := j - 1;
      }
    }
  }

  lemma StartsEmpty(key: Key, maxRetries: nat, actions: seq<Action>)
    ensures At(key, maxRetries, NOTHING, actions, 0) == NOTHING
  {
  }

  /** A failed job was failed by the mark of some attempt and has not been written since. */
  lemma {:induction false} LastWriteFailed(key: Key, maxRetries: nat, actions: seq<Action>, n: nat)
    returns (w: int, i: nat, j: nat)
    requires n <= |actions| && At(key, maxRetries, NOTHING, actions, n).doc.Some?
    requires At(key, maxRetries, NOTHING, actions, n).doc.value.status == Failed
    ensures j < n && LastAttempt(key, maxRetries, actions, w, i, j)
    ensures At(key, maxRetries, NOTHING, actions, j + 1).doc == At(key, maxRetries, NOTHING, actions, n).doc
  {
    hide At, Run;
    if n == 0 {
      StartsEmpty(key, maxRetries, actions);
      assert false;
    } else {
      NextAt(key, maxRetries, NOTHING, actions, n - 1);
      var s := At(key, maxRetries, NOTHING, actions, n - 1);
      if At(key, maxRetries, NOTHING, actions, n).doc == s.doc {
        w, i, j := LastWriteFailed(key, maxRetries, actions, n - 1);
      } else {
        FailingWrite(key, maxRetries, s, actions[n - 1]);
        w, j := actions[n - 1].worker, n - 1;
        i := ClaimOf(key, maxRetries, actions, w, j);
      }
    }
  }

  lemma FailingWrite(key: Key, maxRetries: nat, s: State, a: Action)
    requires var r := Step(key, maxRetries, s, a); r.doc != s.doc && r.doc.Some? && r.doc.value.status == Failed
    ensures (a.MarkRetry? || a.MarkFailed?) && a.worker in s.copies && s.doc.Some?
  {
  }

  /**
   Over every run of any number of workers: a failed job has a last attempt, and its state is one this attempt never
   saw exactly when another state was enqueued between the attempt's claim and its failing mark.
   */
  lemma BuriedExact(key: Key, maxRetries: nat, actions: seq<Action>) returns (w: int, i: nat, j: nat)
    requires var s := Run(key, maxRetries, NOTHING, actions); s.doc.Some? && s.doc.value.status == Failed
    ensures LastAttempt(key, maxRetries, actions, w, i, j)
    ensures At(key, maxRetries, NOTHING, actions, j + 1).doc == Run(key, maxRetries, NOTHING, actions).doc
    ensures var seen := At(key, maxRetries, NOTHING, actions, i).doc.value.stateHash;
            Run(key, maxRetries, NOTHING, actions).doc.value.stateHash != seen <==>
              OtherEnqueued(key, actions[i + 1..j], seen)
  {
    assert actions[..|actions|] == actions;
    w, i, j := LastWriteFailed(key, maxRetries, actions, |actions|);
    NextAt(key, maxRetries, NOTHING, actions, i);
    NextAt(key, maxRetries, NOTHING, actions, j);
    var held := At(key, maxRetries, NOTHING, actions, i + 1);
    var between := actions[i + 1..j];
    assert actions[..j] == actions[..i + 1] + between;
    RunConcat(key, maxRetries, NOTHING, actions[..i + 1], between);
    StoredIsLastEnqueued(key, maxRetries, held, between);
    StoredStep(key, maxRetries, At(key, maxRetries, NOTHING, actions, j), actions[j]);
  }

  /** A retry or failure mark does not compare hashes: a state enqueued meanwhile can end up failed, undelivered. */
  lemma FailureCanBuryNewState()
    ensures var key := TradeCard("t");
            var actions := [Enqueue("a", Send, 0, 0), Claim(1, 1), Enqueue("b", Send, 0, 2), MarkFailed(1, Keep, 2),
                            Claim(1, 3), Deliver(1), Requeue(4)];
            var s := Run(key, 8, NOTHING, actions);
            s.doc.Some? && s.doc.value.status == Failed && s.doc.value.stateHash == "b" && s.deliveries == 0
  {
    var key := TradeCard("t");
    Unroll7(key, NOTHING, Enqueue("a", Send, 0, 0), Claim(1, 1), Enqueue("b", Send, 0, 2), MarkFailed(1, Keep, 2),
            Claim(1, 3), Deliver(1), Requeue(4));
    var s1 := Step(key, 8, NOTHING, Enqueue("a", Send, 0, 0));
    var s2 := Step(key, 8, s1, Claim(1, 1));
    var s3 := Step(key, 8, s2, Enqueue("b", Send, 0, 2));
    var s4 := Step(key, 8, s3, MarkFailed(1, Keep, 2));
    assert s4.copies == map[];
  }
}

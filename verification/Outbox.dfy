/**
 The notification outbox: one document per unique key, changed by single-document updates.
 `updatedAt` is the clock reading of the latest write, in milliseconds.
 */
module Outbox {
  import opened Common

  /** A state hash; the empty string is an absent one. */
  type Hash = string

  datatype Status = Pending | Retry | Processing | Sent | Failed

  datatype Operation = Send | Edit

  datatype Doc = Doc(
    stateHash: Hash, status: Status, retryCount: nat, retryAt: int, updatedAt: int, createdAt: int,
    processingAt: Option<int>, operation: Operation, messageId: nat, lastDelivered: Hash)

  datatype Key = TradeCard(tradeId: string) | Generic(kind: string, dedupeKey: string, stateHash: Hash)

  /** Replacement of the delivery fields when an edit target is known to be gone. */
  datatype Override = Keep | ForceSend

  // ----- What one update writes -----

  function Fresh(hash: Hash, operation: Operation, messageId: nat, now: int): Doc {
    Doc(hash, Pending, 0, now, now, now, None, operation, messageId, "")
  }

  /** A trade card overwrites the waiting job of its trade; any other key is insert-only. */
  function Enqueued(d: Option<Doc>, key: Key, hash: Hash, operation: Operation, messageId: nat, now: int): Doc {
    match d
    case None => Fresh(hash, operation, messageId, now)
    case Some(doc) =>
      if key.TradeCard? then
        doc.(stateHash := hash, operation := operation, messageId := messageId, retryCount := 0, retryAt := now,
             status := Pending, processingAt := None, updatedAt := now)
      else doc
  }

  predicate Claimable(d: Doc) {
    d.status == Pending || d.status == Retry
  }

  function Claimed(d: Doc, now: int): Doc {
    d.(status := Processing, processingAt := Some(now), updatedAt := now)
  }

  /** The decision `markJobSent` takes from the document it has read. */
  predicate Supersedes(latest: Hash, delivered: Hash) {
    latest != "" && delivered != "" && latest != delivered
  }

  function SentWrite(d: Doc, superseded: bool, delivered: Hash, messageId: nat, now: int): Doc {
    var d1 := if messageId > 0 then d.(messageId := messageId, operation := Edit) else d;
    var d2 := d1.(processingAt := None, updatedAt := now, lastDelivered := delivered);
    if superseded then d2.(status := Pending, retryAt := now) else d2.(status := Sent)
  }

  function MarkedSent(d: Doc, delivered: Hash, messageId: nat, now: int): Doc {
    SentWrite(d, Supersedes(d.stateHash, delivered), delivered, messageId, now)
  }

  function Overridden(d: Doc, o: Override): Doc {
    if o == ForceSend then d.(operation := Send, messageId := 0) else d
  }

  /** `copyRetries` is the count in the worker's copy of the job, which need not be the stored one. */
  function MarkedRetry(d: Doc, copyRetries: nat, maxRetries: nat, retryAt: int, o: Override, now: int): Doc {
    var d1 := d.(retryCount := copyRetries + 1, processingAt := None, updatedAt := now);
    if copyRetries + 1 > maxRetries then d1.(status := Failed)
    else Overridden(d1.(status := Retry, retryAt := retryAt), o)
  }

  function MarkedFailed(d: Doc, o: Override, now: int): Doc {
    Overridden(d.(status := Failed, processingAt := None, updatedAt := now), o)
  }

  predicate Stale(d: Doc, cutoff: int) {
    d.status == Processing && d.processingAt.Some? && d.processingAt.value <= cutoff
  }

  function Requeued(d: Doc, now: int): Doc {
    d.(status := Retry, retryAt := now, processingAt := None, updatedAt := now)
  }

  /** The collection after a stale requeue: jobs processing for too long go back to retry, everything else stays. */
  function AfterRequeue(docs: map<Key, Doc>, now: int, staleMs: int): map<Key, Doc> {
    var cutoff := now - MaxInt(1000, if staleMs == 0 then 60000 else staleMs);
    map k | k in docs :: if Stale(docs[k], cutoff) then Requeued(docs[k], now) else docs[k]
  }

  // ----- Retry delay -----

  const MAX_DELAY_MS := 120000

  function BaseDelay(configuredMs: int): int {
    MaxInt(250, if configuredMs == 0 then 1500 else configuredMs)
  }

  /** Delay before jitter; `retryAfterMs` is what the transport asked for. */
  function PreJitterDelay(configuredMs: int, retryCount: int, retryAfterMs: Option<int>): int {
    var exponential := MinInt(BaseDelay(configuredMs) * Pow2(MaxInt(0, retryCount - 1)), MAX_DELAY_MS);
    match retryAfterMs
    case None => exponential
    case Some(ms) => MaxInt(exponential, ms)
  }

  lemma {:induction false} Pow2Grows(m: nat, n: nat)
    requires m <= n
    ensures 1 <= Pow2(m) <= Pow2(n)
  {
    if m > 0 {
      Pow2Grows(m - 1, n - 1);
    } else if n > 0 {
      Pow2Grows(0, n - 1);
    }
  }

  /** Later retries never wait less, and the wait is capped unless the transport asks for more. */
  lemma DelayGrowsToCap(configuredMs: int, m: int, n: int, retryAfterMs: Option<int>)
    requires m <= n
    ensures PreJitterDelay(configuredMs, m, retryAfterMs) <= PreJitterDelay(configuredMs, n, retryAfterMs)
    ensures 250 <= PreJitterDelay(configuredMs, m, retryAfterMs) <=
            MaxInt(MAX_DELAY_MS, if retryAfterMs.Some? then retryAfterMs.value else 0)
    ensures retryAfterMs.Some? ==> PreJitterDelay(configuredMs, m, retryAfterMs) >= retryAfterMs.value
  {
    var a, b := MaxInt(0, m - 1), MaxInt(0, n - 1);
    Pow2Grows(a, b);
    Times(BaseDelay(configuredMs), 1, Pow2(a));
    Times(BaseDelay(configuredMs), Pow2(a), Pow2(b));
  }

  lemma Times(k: nat, a: int, b: int)
    requires a <= b
    ensures k * a <= k * b
  {
  }

  // ----- The collection -----

  datatype SentOutcome = Missing | Superseded | Delivered

  /** Claim order: due time, then last change, then creation. */
  predicate Before(a: Doc, b: Doc) {
    || a.retryAt < b.retryAt
    || (a.retryAt == b.retryAt && a.updatedAt < b.updatedAt)
    || (a.retryAt == b.retryAt && a.updatedAt == b.updatedAt && a.createdAt < b.createdAt)
  }

  predicate IsDue(d: Doc, now: int) {
    Claimable(d) && d.retryAt <= now
  }

  function Limit(requested: int): int {
    MaxInt(1, MinInt(if requested == 0 then 10 else requested, 50))
  }

  /** The first due jobs in claim order, as many as the limit allows. */
  ghost predicate FirstDue(docs: map<Key, Doc>, now: int, limit: int, keys: seq<Key>) {
    && |keys| <= limit
    && (forall i :: 0 <= i < |keys| ==> keys[i] in docs && IsDue(docs[keys[i]], now))
    && (forall i, j :: 0 <= i < j < |keys| ==> keys[i] != keys[j] && !Before(docs[keys[j]], docs[keys[i]]))
    && (forall k :: k in docs && IsDue(docs[k], now) && k !in keys ==>
          |keys| == limit && forall i :: 0 <= i < |keys| ==> !Before(docs[k], docs[keys[i]]))
  }

  function KeysOf(claimed: seq<(Key, Doc)>): (keys: seq<Key>)
    ensures |keys| == |claimed| && forall i :: 0 <= i < |keys| ==> keys[i] == claimed[i].0
  {
    seq(|claimed|, i requires 0 <= i < |claimed| => claimed[i].0)
  }

  // ----- One claim round among the writes of others -----

  /** What the others make of the collection just before compare-and-set number `i` of a round. */
  type Others = (nat, map<Key, Doc>) -> map<Key, Doc>

  /** `b` is a later form of `a`: a different document was written at a later millisecond. */
  ghost predicate Later(a: Doc, b: Doc) {
    a == b || a.updatedAt < b.updatedAt
  }

  /** Others keep every document, and each one they change carries a later time. */
  ghost predicate Honest(others: Others) {
    forall i: nat, docs: map<Key, Doc>, k: Key :: k in docs ==>
      k in others(i, docs) && Later(docs[k], others(i, docs)[k])
  }

  predicate StillThere(docs: map<Key, Doc>, key: Key, seen: Doc) {
    key in docs && docs[key].status == seen.status && docs[key].updatedAt == seen.updatedAt
  }

  /** The first `n` compare-and-sets over the jobs found in `found`: the collection then, and the claims made. */
  function ClaimRound(found: map<Key, Doc>, due: seq<Key>, n: nat, others: Others, now: int)
    : (map<Key, Doc>, seq<(Key, Doc)>)
    requires n <= |due| && forall i :: 0 <= i < |due| ==> due[i] in found
  {
    if n == 0 then (found, []) else
    var (before, claimed) := ClaimRound(found, due, n - 1, others, now);
    var docs := others(n - 1, before);
    var key := due[n - 1];
    if StillThere(docs, key, found[key]) then
      (docs[key := Claimed(docs[key], now)], claimed + [(key, Claimed(docs[key], now))])
    else (docs, claimed)
  }

  /** The collection as compare-and-set number `i` meets it. */
  function AtTurn(found: map<Key, Doc>, due: seq<Key>, i: nat, others: Others, now: int): map<Key, Doc>
    requires i < |due| && forall j :: 0 <= j < |due| ==> due[j] in found
  {
    others(i, ClaimRound(found, due, i, others, now).0)
  }

  /** A job that has not had its turn is only touched by others. */
  lemma {:induction false} RoundOnlyAdvances(found: map<Key, Doc>, due: seq<Key>, n: nat, others: Others, now: int)
    requires n <= |due| && (forall i :: 0 <= i < |due| ==> due[i] in found) && Honest(others)
    ensures var docs := ClaimRound(found, due, n, others, now).0;
            forall k :: k in found ==> k in docs && (k !in due[..n] ==> Later(found[k], docs[k]))
  {
    if n > 0 {
      RoundOnlyAdvances(found, due, n - 1, others, now);
      var before := ClaimRound(found, due, n - 1, others, now).0;
      assert due[..n] == due[..n - 1] + [due[n - 1]];
      forall k | k in found
        ensures k in others(n - 1, before)
        ensures k !in due[..n] ==> Later(found[k], others(n - 1, before)[k])
      {
        assert k in before;
      }
    }
  }

  lemma KeysOfOneMore(claimed: seq<(Key, Doc)>, key: Key, doc: Doc)
    ensures KeysOf(claimed + [(key, doc)]) == KeysOf(claimed) + [key]
  {
  }

  lemma NotYet(claimed: seq<(Key, Doc)>, due: seq<Key>, n: nat)
    requires n < |due| && forall c :: c in claimed ==> c.0 in due[..n]
    requires forall i, j :: 0 <= i < j < |due| ==> due[i] != due[j]
    ensures due[n] !in KeysOf(claimed) && due[n] !in due[..n]
  {
    forall k | k in KeysOf(claimed)
      ensures k in due[..n]
    {
      var i :| 0 <= i < |claimed| && KeysOf(claimed)[i] == k;
      assert claimed[i] in claimed;
    }
  }

  /** Only one job is touched at a turn, and only one claim added. */
  lemma RoundTurn(found: map<Key, Doc>, due: seq<Key>, n: nat, others: Others, now: int)
    requires n < |due| && (forall i :: 0 <= i < |due| ==> due[i] in found)
    ensures var claimed := ClaimRound(found, due, n, others, now).1;
            var docs := AtTurn(found, due, n, others, now);
            var job := (due[n], Claimed(found[due[n]], now));
            var hit := StillThere(docs, due[n], found[due[n]]);
            && (!hit ==> ClaimRound(found, due, n + 1, others, now) == (docs, claimed))
            && (hit && docs[due[n]] == found[due[n]] ==>
                  ClaimRound(found, due, n + 1, others, now) == (docs[due[n] := job.1], claimed + [job]))
  {
  }

  lemma TurnIsExact(found: map<Key, Doc>, due: seq<Key>, n: nat, others: Others, now: int)
    requires n < |due| && (forall i :: 0 <= i < |due| ==> due[i] in found) && Honest(others) && due[n] !in due[..n]
    ensures var docs := AtTurn(found, due, n, others, now);
            due[n] in docs && (StillThere(docs, due[n], found[due[n]]) <==> docs[due[n]] == found[due[n]])
  {
    RoundOnlyAdvances(found, due, n, others, now);
    var before := ClaimRound(found, due, n, others, now).0;
    assert due[n] in before && Later(found[due[n]], before[due[n]]);
    assert due[n] in others(n, before) && Later(before[due[n]], others(n, before)[due[n]]);
  }

  /** Whatever the others write: a round claims exactly the jobs untouched at their turn, each as it was found. */
  lemma {:induction false} RoundClaimsUntouched(found: map<Key, Doc>, due: seq<Key>, n: nat, others: Others, now: int)
    requires n <= |due| && (forall i :: 0 <= i < |due| ==> due[i] in found) && Honest(others)
    requires forall i, j :: 0 <= i < j < |due| ==> due[i] != due[j]
    ensures var claimed := ClaimRound(found, due, n, others, now).1;
            && (forall i :: 0 <= i < n ==> due[i] in AtTurn(found, due, i, others, now))
            && (forall i :: 0 <= i < n ==>
                  (due[i] in KeysOf(claimed) <==> AtTurn(found, due, i, others, now)[due[i]] == found[due[i]]))
            && (forall c :: c in claimed ==> c.0 in due[..n] && c.1 == Claimed(found[c.0], now))
  {
    hide AtTurn, ClaimRound, StillThere, Claimed, KeysOf;
    if n > 0 {
      var m := n - 1;
      RoundClaimsUntouched(found, due, m, others, now);
      var claimed := ClaimRound(found, due, m, others, now).1;
      NotYet(claimed, due, m);
      TurnIsExact(found, due, m, others, now);
      RoundTurn(found, due, m, others, now);
      KeysOfOneMore(claimed, due[m], Claimed(found[due[m]], now));
      assert due[..n] == due[..m] + [due[m]];
    } else {
      NoClaims(found, due, others, now);
    }
  }

  lemma NoClaims(found: map<Key, Doc>, due: seq<Key>, others: Others, now: int)
    requires forall i :: 0 <= i < |due| ==> due[i] in found
    ensures ClaimRound(found, due, 0, others, now) == (found, []) && KeysOf([]) == []
  {
  }

  /** With nobody else writing, every job found is claimed and no other document changes. */
  lemma {:induction false} UndisturbedRound(found: map<Key, Doc>, due: seq<Key>, n: nat, others: Others, now: int)
    requires n <= |due| && (forall i :: 0 <= i < |due| ==> due[i] in found)
    requires forall i: nat, docs: map<Key, Doc> :: others(i, docs) == docs
    requires forall i, j :: 0 <= i < j < |due| ==> due[i] != due[j]
    ensures var (docs, claimed) := ClaimRound(found, due, n, others, now);
            && KeysOf(claimed) == due[..n] && docs.Keys == found.Keys
            && (forall i :: 0 <= i < n ==> docs[due[i]] == claimed[i].1 == Claimed(found[due[i]], now))
            && (forall k :: k in found && k !in due[..n] ==> docs[k] == found[k])
  {
    hide ClaimRound, Claimed, KeysOf;
    if n > 0 {
      var m := n - 1;
      UndisturbedRound(found, due, m, others, now);
      var (before, claimed) := ClaimRound(found, due, m, others, now);
      assert due[..n] == due[..m] + [due[m]];
      assert due[m] !in due[..m];
      assert AtTurn(found, due, m, others, now) == before;
      RoundTurn(found, due, m, others, now);
      KeysOfOneMore(claimed, due[m], Claimed(found[due[m]], now));
    } else {
      NoClaims(found, due, others, now);
    }
  }

  class OutboxCollection {
    var docs: map<Key, Doc>

    constructor ()
      ensures docs == map[]
    {
      docs := map[];
    }

    method EnqueueOutboxJob(key: Key, hash: Hash, operation: Operation, messageId: nat, now: int)
      modifies this
      ensures docs == old(docs)[key := Enqueued(Lookup(old(docs), key), key, hash, operation, messageId, now)]
    {
      if key.TradeCard? {
        if key in docs {
          var d := docs[key];
          docs := docs[key := d.(stateHash := hash, operation := operation, messageId := messageId, retryCount := 0,
                                 retryAt := now, status := Pending, processingAt := None, updatedAt := now)];
        } else {
          docs := docs[key := Fresh(hash, operation, messageId, now)];
        }
      } else if key !in docs {
        docs := docs[key := Fresh(hash, operation, messageId, now)];
      }
    }

    /** The query: due jobs, sorted, cut to the limit. */
    method FindDue(limit: int, now: int) returns (due: seq<Key>)
      requires limit >= 1
      ensures FirstDue(docs, now, limit, due)
    {
      due := [];
      var rest := set k | k in docs && IsDue(docs[k], now);
      while rest != {} && |due| < limit
        invariant |due| <= limit
        invariant forall k :: k in docs && IsDue(docs[k], now) <==> k in rest || k in due
        invariant forall k :: k in rest ==> k !in due && k in docs
        invariant forall i :: 0 <= i < |due| ==> due[i] in docs && IsDue(docs[due[i]], now)
        invariant forall i, j :: 0 <= i < j < |due| ==> due[i] != due[j] && !Before(docs[due[j]], docs[due[i]])
        invariant forall i, k :: 0 <= i < |due| && k in rest ==> !Before(docs[k], docs[due[i]])
        decreases rest
      {
        var first := LeastOf(rest);
        due := due + [first];
        rest := rest - {first};
      }
    }

    method LeastOf(keys: set<Key>) returns (k: Key)
      requires keys != {} && forall x :: x in keys ==> x in docs
      ensures k in keys && forall x :: x in keys ==> !Before(docs[x], docs[k])
    {
      k :| k in keys;
      var rest := keys - {k};
      while rest != {}
        invariant k in keys && rest <= keys
        invariant forall x :: x in keys && x !in rest ==> !Before(docs[x], docs[k])
        decreases rest
      {
        var x :| x in rest;
        if Before(docs[x], docs[k]) {
          k := x;
        }
        rest := rest - {x};
      }
    }

    /** One compare-and-set: succeeds only on the very document that was read. */
    method TryClaim(key: Key, seen: Doc, now: int) returns (claim: Option<Doc>)
      modifies this
      ensures var hit := StillThere(old(docs), key, seen);
              && claim.Some? == hit
              && docs == (if hit then old(docs)[key := Claimed(old(docs)[key], now)] else old(docs))
              && (hit ==> claim.value == docs[key])
    {
      claim := None;
      if key in docs && docs[key].status == seen.status && docs[key].updatedAt == seen.updatedAt {
        docs := docs[key := Claimed(docs[key], now)];
        claim := Some(docs[key]);
      }
    }

    /**
     `others` are the writes that land between the query and each compare-and-set.  With `fault` set, that database
     call of the round fails: call 0 is the query, call i + 1 is compare-and-set i.
     */
    method ClaimDueJobs(requested: int, others: Others, fault: Option<nat>, now: int)
      returns (claimed: seq<(Key, Doc)>, faulted: bool, ghost due: seq<Key>, ghost tried: nat)
      modifies this
      ensures FirstDue(old(docs), now, Limit(requested), due)
      ensures faulted <==> fault.Some? && fault.value <= |due|
      ensures tried == if faulted then MaxInt(0, fault.value - 1) else |due|
      ensures (docs, claimed) == ClaimRound(old(docs), due, tried, others, now)
    {
      var found := docs;
      var candidates := FindDue(Limit(requested), now);
      claimed, faulted, due, tried := [], false, candidates, 0;
      if fault == Some(0) {
        faulted := true;
        return;
      }
      var i := 0;
      while i < |candidates|
        invariant 0 <= i <= |candidates| && (fault.Some? ==> i < fault.value)
        invariant (docs, claimed) == ClaimRound(found, candidates, i, others, now)
      {
        if fault == Some(i + 1) {
          faulted, tried := true, i;
          return;
        }
        docs := others(i, docs);
        var claim := TryClaim(candidates[i], found[candidates[i]], now);
        if claim.Some? {
          claimed := claimed + [(candidates[i], claim.value)];
        }
        i := i + 1;
      }
      tried := i;
    }

    method MarkJobSent(key: Key, delivered: Hash, messageId: nat, now: int) returns (r: SentOutcome)
      modifies this
      ensures r.Missing? <==> key !in old(docs)
      ensures r.Missing? ==> docs == old(docs)
      ensures !r.Missing? ==>
                && docs == old(docs)[key := MarkedSent(old(docs)[key], delivered, messageId, now)]
                && (r.Superseded? <==> docs[key].status == Pending) && (r.Delivered? <==> docs[key].status == Sent)
    {
      if key !in docs {
        return Missing;
      }
      var latest := docs[key].stateHash;
      var d := docs[key];
      if messageId > 0 {
        d := d.(messageId := messageId, operation := Edit);
      }
      d := d.(processingAt := None, updatedAt := now, lastDelivered := delivered);
      if latest != "" && delivered != "" && latest != delivered {
        docs := docs[key := d.(status := Pending, retryAt := now)];
        return Superseded;
      }
      docs := docs[key := d.(status := Sent)];
      return Delivered;
    }

    method MarkJobRetry(key: Key, copyRetries: nat, maxRetries: nat, retryAt: int, o: Override, now: int)
      modifies this
      ensures docs == if key in old(docs)
                      then old(docs)[key := MarkedRetry(old(docs)[key], copyRetries, maxRetries, retryAt, o, now)]
                      else old(docs)
    {
      if key in docs {
        var retryCount := copyRetries + 1;
        var d := docs[key].(retryCount := retryCount, processingAt := None, updatedAt := now);
        if retryCount > maxRetries {
          docs := docs[key := d.(status := Failed)];
        } else {
          docs := docs[key := Overridden(d.(status := Retry, retryAt := retryAt), o)];
        }
      }
    }

    method MarkJobFailedPermanent(key: Key, o: Override, now: int)
      modifies this
      ensures docs == if key in old(docs) then old(docs)[key := MarkedFailed(old(docs)[key], o, now)] else old(docs)
    {
      if key in docs {
        var d := docs[key].(status := Failed, processingAt := None, updatedAt := now);
        docs := docs[key := Overridden(d, o)];
      }
    }

    method RequeueStaleProcessingJobs(now: int, staleMs: int) returns (count: nat)
      modifies this
      ensures docs == AfterRequeue(old(docs), now, staleMs)
      ensures var cutoff := now - MaxInt(1000, if staleMs == 0 then 60000 else staleMs);
              count == |set k | k in old(docs) && Stale(old(docs)[k], cutoff)|
    {
      var cutoff := now - MaxInt(1000, if staleMs == 0 then 60000 else staleMs);
      ghost var before := docs;
      var rest := set k | k in docs && Stale(docs[k], cutoff);
      ghost var all := rest;
      count := 0;
      while rest != {}
        invariant rest <= all && count + |rest| == |all|
        invariant docs.Keys == before.Keys
        invariant forall k :: k in rest ==> docs[k] == before[k]
        invariant forall k :: k in before && k !in rest ==>
                    docs[k] == if k in all then Requeued(before[k], now) else before[k]
        decreases rest
      {
        var k :| k in rest;
        docs := docs[k := Requeued(docs[k], now)];
        rest := rest - {k};
        count := count + 1;
      }
    }
  }
}

/**
 What the outbox writes, field by field, and what follows for a job that is claimed and never marked.
 */
module OutboxWrites {
  import opened Common
  import opened Outbox

  /** An enqueue of a trade card, and the first one of any key, starts the job afresh; the rest of a card stays. */
  lemma EnqueueWrites(d: Option<Doc>, key: Key, hash: Hash, operation: Operation, messageId: nat, now: int)
    ensures var r := Enqueued(d, key, hash, operation, messageId, now);
            if d.Some? && !key.TradeCard? then r == d.value
            else
              && r.stateHash == hash && r.operation == operation && r.messageId == messageId
              && r.status == Pending && r.retryCount == 0 && r.retryAt == now && r.processingAt == None
              && r.updatedAt == now
              && r.createdAt == (if d.Some? then d.value.createdAt else now)
              && r.lastDelivered == (if d.Some? then d.value.lastDelivered else "")
  {
  }

  /** `r` is `d` claimed at `now`. */
  predicate IsClaimOf(r: Doc, d: Doc, now: int) {
    && r.status == Processing && r.processingAt == Some(now) && r.updatedAt == now
    && r.stateHash == d.stateHash && r.retryCount == d.retryCount && r.retryAt == d.retryAt
    && r.createdAt == d.createdAt && r.operation == d.operation && r.messageId == d.messageId
    && r.lastDelivered == d.lastDelivered
  }

  lemma ClaimWrites(d: Doc, now: int)
    ensures IsClaimOf(Claimed(d, now), d, now)
  {
  }

  /** Every claim of a round is the job as it was found, processing since now. */
  lemma {:induction false} RoundWrites(found: map<Key, Doc>, due: seq<Key>, n: nat, others: Others, now: int)
    requires n <= |due| && (forall i :: 0 <= i < |due| ==> due[i] in found) && Honest(others)
    requires forall i, j :: 0 <= i < j < |due| ==> due[i] != due[j]
    ensures var claimed := ClaimRound(found, due, n, others, now).1;
            forall c :: c in claimed ==> c.0 in due[..n] && IsClaimOf(c.1, found[c.0], now)
  {
    RoundClaimsUntouched(found, due, n, others, now);
    forall c | c in ClaimRound(found, due, n, others, now).1
      ensures c.0 in due[..n] && IsClaimOf(c.1, found[c.0], now)
    {
      ClaimWrites(found[c.0], now);
    }
  }

  /**
   Whatever others write, a compare-and-set claims its job exactly when the job is there with the status and the time
   of change that were found, and leaves the collection alone otherwise.
   */
  lemma TurnExact(found: map<Key, Doc>, due: seq<Key>, i: nat, others: Others, now: int)
    requires i < |due| && forall j :: 0 <= j < |due| ==> due[j] in found
    ensures var docs, k := others(i, ClaimRound(found, due, i, others, now).0), due[i];
            var was, next := ClaimRound(found, due, i, others, now), ClaimRound(found, due, i + 1, others, now);
            if k in docs && docs[k].status == found[k].status && docs[k].updatedAt == found[k].updatedAt then
              && next.0.Keys == docs.Keys && (forall x :: x in docs && x != k ==> next.0[x] == docs[x])
              && IsClaimOf(next.0[k], docs[k], now) && next.1 == was.1 + [(k, next.0[k])]
            else next == (docs, was.1)
  {
  }

  /** With nobody else writing, every job found is stored as claimed. */
  lemma QuietRoundWrites(found: map<Key, Doc>, due: seq<Key>, nobody: Others, now: int)
    requires forall i :: 0 <= i < |due| ==> due[i] in found
    requires forall i, j :: 0 <= i < j < |due| ==> due[i] != due[j]
    requires forall i: nat, docs: map<Key, Doc> :: nobody(i, docs) == docs
    ensures var docs := ClaimRound(found, due, |due|, nobody, now).0;
            docs.Keys == found.Keys
            && forall k :: k in found ==>
                 if k in due then IsClaimOf(docs[k], found[k], now) else docs[k] == found[k]
  {
    UndisturbedRound(found, due, |due|, nobody, now);
    assert due[..|due|] == due;
    forall k | k in due
      ensures IsClaimOf(ClaimRound(found, due, |due|, nobody, now).0[k], found[k], now)
    {
      var i :| 0 <= i < |due| && due[i] == k;
      ClaimWrites(found[k], now);
    }
  }

  /**
   A job claimed at time `t` and written by nobody since goes back to retry, due at once, exactly when it has been
   processing for at least the stale time; before that it stays as claimed.
   */
  lemma AbandonedClaimReturns(
      found: map<Key, Doc>, due: seq<Key>, nobody: Others, t: int, now: int, staleMs: int, k: Key)
    requires forall i :: 0 <= i < |due| ==> due[i] in found
    requires forall i, j :: 0 <= i < j < |due| ==> due[i] != due[j]
    requires forall i: nat, docs: map<Key, Doc> :: nobody(i, docs) == docs
    requires k in due
    ensures var docs := ClaimRound(found, due, |due|, nobody, t).0;
            var after := AfterRequeue(docs, now, staleMs);
            var wait := if staleMs == 0 then 60000 else if staleMs < 1000 then 1000 else staleMs;
            && k in docs && k in after
            && (after[k].status == Retry <==> now - t >= wait)
            && if now - t >= wait then
                 && after[k].retryAt == now && after[k].processingAt == None && after[k].updatedAt == now
                 && after[k].retryCount == found[k].retryCount && after[k].stateHash == found[k].stateHash
               else after[k] == docs[k]
  {
    QuietRoundWrites(found, due, nobody, t);
    hide ClaimRound;
  }

  /** The sent mark: superseded back to pending when both hashes are there and differ, else sent. */
  lemma SentWrites(d: Doc, delivered: Hash, messageId: nat, now: int)
    ensures var r := MarkedSent(d, delivered, messageId, now);
            var superseded := d.stateHash != "" && delivered != "" && d.stateHash != delivered;
            && r.status == (if superseded then Pending else Sent)
            && r.retryAt == (if superseded then now else d.retryAt)
            && r.operation == (if messageId > 0 then Edit else d.operation)
            && r.messageId == (if messageId > 0 then messageId else d.messageId)
            && r.processingAt == None && r.updatedAt == now && r.lastDelivered == delivered
            && r.stateHash == d.stateHash && r.retryCount == d.retryCount && r.createdAt == d.createdAt
  {
  }

  /** The retry mark: one more retry than the worker's copy had, and failed once that exceeds the limit. */
  lemma RetryWrites(d: Doc, copyRetries: nat, maxRetries: nat, retryAt: int, o: Override, now: int)
    ensures var r := MarkedRetry(d, copyRetries, maxRetries, retryAt, o, now);
            var exhausted := copyRetries + 1 > maxRetries;
            var sendAnew := o == ForceSend && !exhausted;
            && r.status == (if exhausted then Failed else Retry)
            && r.retryCount == copyRetries + 1
            && r.retryAt == (if exhausted then d.retryAt else retryAt)
            && r.operation == (if sendAnew then Send else d.operation)
            && r.messageId == (if sendAnew then 0 else d.messageId)
            && r.processingAt == None && r.updatedAt == now
            && r.stateHash == d.stateHash && r.createdAt == d.createdAt && r.lastDelivered == d.lastDelivered
  {
  }

  lemma FailWrites(d: Doc, o: Override, now: int)
    ensures var r := MarkedFailed(d, o, now);
            && r.status == Failed && r.processingAt == None && r.updatedAt == now
            && r.operation == (if o == ForceSend then Send else d.operation)
            && r.messageId == (if o == ForceSend then 0 else d.messageId)
            && r.retryCount == d.retryCount && r.retryAt == d.retryAt
            && r.stateHash == d.stateHash && r.createdAt == d.createdAt && r.lastDelivered == d.lastDelivered
  {
  }

  /** The jobs a query returns: waiting and due, by due time, then last change, then creation. */
  lemma DueInOrder(docs: map<Key, Doc>, now: int, limit: int, keys: seq<Key>)
    requires FirstDue(docs, now, limit, keys)
    ensures forall k :: k in keys ==>
              k in docs && (docs[k].status == Pending || docs[k].status == Retry) && docs[k].retryAt <= now
    ensures forall i, j :: 0 <= i < j < |keys| ==>
              var a, b := docs[keys[i]], docs[keys[j]];
              && a.retryAt <= b.retryAt
              && (a.retryAt == b.retryAt ==> a.updatedAt <= b.updatedAt)
              && (a.retryAt == b.retryAt && a.updatedAt == b.updatedAt ==> a.createdAt <= b.createdAt)
    ensures forall k :: k in docs && (docs[k].status == Pending || docs[k].status == Retry) && docs[k].retryAt <= now
                        && k !in keys ==>
              |keys| == limit && forall i :: 0 <= i < |keys| ==> docs[keys[i]].retryAt <= docs[k].retryAt
  {
  }

  /** A query takes as many as asked for, between 1 and 50, and 10 when nothing is asked. */
  lemma LimitInNumbers(requested: int)
    ensures 1 <= Limit(requested) <= 50 && Limit(0) == 10
    ensures 1 <= requested <= 50 ==> Limit(requested) == requested
  {
  }

  /**
   The first retry waits the base delay, at least 250 ms and 1500 ms by default; each later one twice the last, up to
   120 s.
   */
  lemma DelayDoubles(configuredMs: int, n: nat)
    requires n >= 1
    ensures PreJitterDelay(configuredMs, 1, None) ==
            if configuredMs == 0 then 1500
            else if configuredMs < 250 then 250 else if configuredMs > 120000 then 120000 else configuredMs
    ensures PreJitterDelay(configuredMs, n + 1, None) ==
            if PreJitterDelay(configuredMs, n, None) > 60000 then 120000
            else 2 * PreJitterDelay(configuredMs, n, None)
    ensures forall ms :: PreJitterDelay(configuredMs, n, Some(ms)) ==
                         if ms > PreJitterDelay(configuredMs, n, None) then ms
                         else PreJitterDelay(configuredMs, n, None)
  {
    var base := BaseDelay(configuredMs);
    assert Pow2(0) == 1;
    assert base * Pow2(n) == 2 * (base * Pow2(n - 1));
  }
}

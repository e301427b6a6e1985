/**
 Draining the outbox: one drain at a time, edit-to-send fallback, the trade-card ledger, and where each
 error goes.  What the messaging service and the database answer is given per job.
 */
module Dispatcher {
  import opened Common
  import opened Outbox

  /**
   How the drain classifies an error.  `Transient` is what looks like a lost database connection, which the text of
   any error can; it defers the whole drain.
   */
  datatype Fault = Transient | Retryable | Permanent

  /** An answer of the messaging service; the two flags are set only for an edit. */
  datatype Answer = Accepted(messageId: nat) | Error(fault: Fault, noChange: bool, editGone: bool)

  /**
   What one job meets: the answer, the fault of invalidating a gone card, the answer to the resend, the faults of the
   ledger and of the sent mark, and the fault of a retry or failure mark.
   */
  datatype Script = Script(
    first: Answer, gone: Option<Fault>, resend: Answer, ledger: Option<Fault>, sent: Option<Fault>, mark: Option<Fault>,
    retryAt: int)

  /** The message each trade card is shown in; `None` when there is none to edit. */
  type Cards = map<string, Option<nat>>

  /** How processing a job ends: marked sent, or with an error thrown to the drain. */
  datatype Attempt = Completed(messageId: nat) | Thrown(fault: Fault, o: Override)

  datatype Verdict = MarkSentAs(messageId: nat) | RetryLater(o: Override) | GiveUp(o: Override) | Abort | Raise

  function OperationOf(job: Doc): Operation {
    if job.operation == Edit && job.messageId > 0 then Edit else Send
  }

  predicate Resends(key: Key, job: Doc, s: Script) {
    OperationOf(job) == Edit && s.first.Error? && !s.first.noChange && s.first.editGone && key.TradeCard?
  }

  /** The message the job was delivered as, or the error that stopped it before. */
  function Sending(key: Key, job: Doc, s: Script): Attempt {
    if s.first.Accepted? then Completed(s.first.messageId)
    else if OperationOf(job) == Edit && s.first.noChange then Completed(job.messageId)
    else if Resends(key, job, s) then
      if s.gone.Some? then Thrown(s.gone.value, Keep)
      else if s.resend.Accepted? then Completed(s.resend.messageId)
      else Thrown(s.resend.fault, ForceSend)
    else Thrown(s.first.fault, Keep)
  }

  function Tried(key: Key, job: Doc, s: Script): Attempt {
    var sending := Sending(key, job, s);
    if sending.Thrown? then sending
    else if s.ledger.Some? then Thrown(s.ledger.value, Keep)
    else if s.sent.Some? then Thrown(s.sent.value, Keep)
    else sending
  }

  /** What becomes of the job once its attempt, and the mark after a failed one, are through. */
  function Route(key: Key, job: Doc, s: Script): Verdict {
    match Tried(key, job, s)
    case Completed(messageId) => MarkSentAs(messageId)
    case Thrown(fault, o) =>
      if fault == Transient then Abort
      else if s.mark.Some? then if s.mark.value == Transient then Abort else Raise
      else if fault == Retryable then RetryLater(o)
      else GiveUp(o)
  }

  predicate Settles(v: Verdict) {
    v != Abort && v != Raise
  }

  /** The stored job after its claimed copy has been processed. */
  function Settled(d: Doc, job: Doc, v: Verdict, maxRetries: nat, s: Script, now: int): Doc {
    match v
    case MarkSentAs(messageId) => MarkedSent(d, job.stateHash, messageId, now)
    case RetryLater(o) => MarkedRetry(d, job.retryCount, maxRetries, s.retryAt, o, now)
    case GiveUp(o) => MarkedFailed(d, o, now)
    case Abort => d
    case Raise => d
  }

  function ShownAs(messageId: nat): Option<nat> {
    if messageId > 0 then Some(messageId) else None
  }

  /** The ledger after the job: a gone card loses its message, a delivered one gets the message it was delivered as. */
  function CardsAfter(cards: Cards, key: Key, job: Doc, s: Script): Cards {
    if !key.TradeCard? then cards else
    var sending := Sending(key, job, s);
    var kept := if Resends(key, job, s) && s.gone.None? && key.tradeId in cards then cards[key.tradeId := None]
                else cards;
    if sending.Completed? && s.ledger.None? then kept[key.tradeId := ShownAs(sending.messageId)] else kept
  }

  function CardsAfterAll(cards: Cards, jobs: seq<(Key, Doc)>, scripts: Key -> Script): Cards {
    if jobs == [] then cards else
    var (key, job) := jobs[|jobs| - 1];
    CardsAfter(CardsAfterAll(cards, jobs[..|jobs| - 1], scripts), key, job, scripts(key))
  }

  /** A card whose message is gone is never edited again: it is resent now, or the next attempt is a fresh send,
      unless the retries are used up; and the ledger no longer names the gone message. */
  lemma GoneMessageIsResent(cards: Cards, key: Key, job: Doc, s: Script, maxRetries: nat, now: int)
    requires Resends(key, job, s) && s.gone.None? && Settles(Route(key, job, s))
    ensures var v := Route(key, job, s);
            var d := Settled(job, job, v, maxRetries, s, now);
            var after := CardsAfter(cards, key, job, s);
            && (s.resend.Accepted? && s.ledger.None? && s.sent.None? ==>
                  v == MarkSentAs(s.resend.messageId) && (s.resend.messageId > 0 ==> d.messageId == s.resend.messageId))
            && (s.resend.Error? && d.status != Failed ==> OperationOf(d) == Send && d.status == Retry)
            && (s.resend.Error? && d.status == Failed && OperationOf(d) == Edit ==>
                  s.resend.fault == Retryable && job.retryCount >= maxRetries)
            && (key.tradeId in after ==>
                  after[key.tradeId] ==
                  if s.resend.Accepted? && s.ledger.None? then ShownAs(s.resend.messageId) else None)
  {
  }

  /** A card marked sent under a message is edited under that very message next time, by the job and by the ledger. */
  lemma SentCardAgrees(cards: Cards, key: Key, d: Doc, job: Doc, s: Script, maxRetries: nat, now: int)
    requires key.TradeCard? && Route(key, job, s).MarkSentAs? && Route(key, job, s).messageId > 0
    ensures var r := Settled(d, job, Route(key, job, s), maxRetries, s, now);
            var after := CardsAfter(cards, key, job, s);
            && OperationOf(r) == Edit && key.tradeId in after && after[key.tradeId] == Some(r.messageId)
            && (r.status == Sent || r.status == Pending) && r.lastDelivered == job.stateHash
  {
  }

  /** A claim batch: distinct due jobs, each in its claimed form. */
  ghost predicate IsBatch(before: map<Key, Doc>, claimed: seq<(Key, Doc)>, now: int) {
    && (forall i :: 0 <= i < |claimed| ==>
          && claimed[i].0 in before && IsDue(before[claimed[i].0], now)
          && claimed[i].1 == Claimed(before[claimed[i].0], now))
    && (forall i, j :: 0 <= i < j < |claimed| ==> claimed[i].0 != claimed[j].0)
  }

  ghost predicate IsSettled(docs: map<Key, Doc>, key: Key, job: Doc, scripts: Key -> Script, maxRetries: nat,
                            now: int) {
    var v := Route(key, job, scripts(key));
    Settles(v) && key in docs && docs[key] == Settled(job, job, v, maxRetries, scripts(key), now)
  }

  /** The first `done` jobs of the batch are settled, the others are as claimed, everything else as before. */
  ghost predicate Drained(
      before: map<Key, Doc>, docs: map<Key, Doc>, claimed: seq<(Key, Doc)>, done: nat,
      scripts: Key -> Script, maxRetries: nat, now: int) {
    && done <= |claimed| && docs.Keys == before.Keys
    && (forall i :: 0 <= i < done ==> IsSettled(docs, claimed[i].0, claimed[i].1, scripts, maxRetries, now))
    && (forall i :: done <= i < |claimed| ==> claimed[i].0 in docs && docs[claimed[i].0] == claimed[i].1)
    && (forall k :: k in docs && (forall i :: 0 <= i < |claimed| ==> claimed[i].0 != k) ==> docs[k] == before[k])
  }

  lemma DrainOneMore(
      before: map<Key, Doc>, docs: map<Key, Doc>, claimed: seq<(Key, Doc)>, done: nat,
      scripts: Key -> Script, maxRetries: nat, now: int)
    requires IsBatch(before, claimed, now) && Drained(before, docs, claimed, done, scripts, maxRetries, now)
    requires done < |claimed| && Settles(Route(claimed[done].0, claimed[done].1, scripts(claimed[done].0)))
    ensures var (k, job) := claimed[done];
            var v := Route(k, job, scripts(k));
            Drained(before, docs[k := Settled(docs[k], job, v, maxRetries, scripts(k), now)], claimed, done + 1,
                    scripts, maxRetries, now)
  {
    hide Route, Settled;
    assert forall i :: 0 <= i < |claimed| && i != done ==> claimed[i].0 != claimed[done].0;
  }

  lemma UnsettledChangesNothing(docs: map<Key, Doc>, key: Key, job: Doc, v: Verdict, maxRetries: nat, s: Script,
                                now: int)
    requires key in docs && !Settles(v)
    ensures docs[key := Settled(docs[key], job, v, maxRetries, s, now)] == docs
  {
  }

  lemma CardsAfterOneMore(cards: Cards, claimed: seq<(Key, Doc)>, n: nat, scripts: Key -> Script)
    requires n < |claimed|
    ensures CardsAfterAll(cards, claimed[..n + 1], scripts) ==
            CardsAfter(CardsAfterAll(cards, claimed[..n], scripts), claimed[n].0, claimed[n].1, scripts(claimed[n].0))
  {
    assert claimed[..n + 1][..n] == claimed[..n];
  }

  datatype Outcome = Skipped | Processed | Deferred | Raised

  /** A drain stops early at a transient fault, which defers it, or at an error of the mark itself, which it raises. */
  predicate BreaksOff(r: Outcome, v: Verdict) {
    (v == Abort && r == Deferred) || (v == Raise && r == Raised)
  }

  lemma StartsDrained(
      before: map<Key, Doc>, docs: map<Key, Doc>, claimed: seq<(Key, Doc)>, scripts: Key -> Script,
      maxRetries: nat, now: int)
    requires docs.Keys == before.Keys
    requires forall i :: 0 <= i < |claimed| ==> claimed[i].0 in docs && docs[claimed[i].0] == claimed[i].1
    requires forall k :: k in docs && (forall i :: 0 <= i < |claimed| ==> claimed[i].0 != k) ==> docs[k] == before[k]
    ensures Drained(before, docs, claimed, 0, scripts, maxRetries, now)
  {
  }

  lemma WithinBatch(
      before: map<Key, Doc>, docs: map<Key, Doc>, claimed: seq<(Key, Doc)>, done: nat, scripts: Key -> Script,
      maxRetries: nat, now: int)
    requires Drained(before, docs, claimed, done, scripts, maxRetries, now)
    ensures done <= |claimed|
  {
  }

  lemma RoundIsBatch(found: map<Key, Doc>, due: seq<Key>, n: nat, nobody: Others, limit: int, now: int)
    requires n <= |due| && FirstDue(found, now, Limit(limit), due)
    requires forall i: nat, docs: map<Key, Doc> :: nobody(i, docs) == docs
    ensures var (docs, claimed) := ClaimRound(found, due, n, nobody, now);
            && IsBatch(found, claimed, now) && |claimed| == n && KeysOf(claimed) == due[..n] && docs.Keys == found.Keys
            && (forall i :: 0 <= i < |claimed| ==> claimed[i].0 in docs && docs[claimed[i].0] == claimed[i].1)
            && (forall k :: k in docs && (forall i :: 0 <= i < |claimed| ==> claimed[i].0 != k) ==> docs[k] == found[k])
  {
    hide ClaimRound, Claimed, IsDue, Before;
    UndisturbedRound(found, due, n, nobody, now);
    var claimed := ClaimRound(found, due, n, nobody, now).1;
    assert forall i :: 0 <= i < n ==> claimed[i].0 == KeysOf(claimed)[i] == due[i];
    forall k | k in due[..n]
      ensures exists i :: 0 <= i < |claimed| && claimed[i].0 == k
    {
      var i :| 0 <= i < n && due[..n][i] == k;
      assert claimed[i].0 == k;
    }
  }

  class NotificationDispatcher {
    const outbox: OutboxCollection
    const maxRetries: nat
    var cards: Cards
    var drainInFlight: bool
    /** Zero when polling is not deferred. */
    var deferredUntil: int

    constructor (collection: OutboxCollection, retries: nat)
      ensures outbox == collection && maxRetries == retries && cards == map[] && !drainInFlight && deferredUntil == 0
    {
      outbox, maxRetries, cards, drainInFlight, deferredUntil := collection, retries, map[], false, 0;
    }

    method InvalidateTradeCardMessage(tradeId: string)
      modifies this`cards
      ensures cards == if tradeId in old(cards) then old(cards)[tradeId := None] else old(cards)
    {
      if tradeId in cards {
        cards := cards[tradeId := None];
      }
    }

    /**
     Delivers a claimed job, updates the ledger and marks the job sent; an error on the way is thrown to the drain.
     */
    method ProcessOutboxJob(key: Key, job: Doc, s: Script, now: int) returns (r: Attempt)
      requires key in outbox.docs
      modifies outbox, this`cards
      ensures r == Tried(key, job, s)
      ensures cards == CardsAfter(old(cards), key, job, s)
      ensures outbox.docs ==
              if r.Completed?
              then old(outbox.docs)[key := MarkedSent(old(outbox.docs)[key], job.stateHash, r.messageId, now)]
              else old(outbox.docs)
    {
      var answer := s.first;
      if answer.Error? {
        if OperationOf(job) == Edit && answer.noChange {
          answer := Accepted(job.messageId);
        } else if OperationOf(job) == Edit && answer.editGone && key.TradeCard? {
          if s.gone.Some? {
            return Thrown(s.gone.value, Keep);
          }
          InvalidateTradeCardMessage(key.tradeId);
          answer := s.resend;
          if answer.Error? {
            return Thrown(answer.fault, ForceSend);
          }
        } else {
          return Thrown(answer.fault, Keep);
        }
      }
      if s.ledger.Some? {
        return Thrown(s.ledger.value, Keep);
      }
      if key.TradeCard? {
        cards := cards[key.tradeId := ShownAs(answer.messageId)];
      }
      if s.sent.Some? {
        return Thrown(s.sent.value, Keep);
      }
      var outcome := outbox.MarkJobSent(key, job.stateHash, answer.messageId, now);
      r := Completed(answer.messageId);
    }

    /** One turn of the drain's loop: process the job, and mark it after an error. */
    method SettleJob(key: Key, job: Doc, s: Script, now: int) returns (v: Verdict)
      requires key in outbox.docs
      modifies outbox, this`cards
      ensures v == Route(key, job, s)
      ensures cards == CardsAfter(old(cards), key, job, s)
      ensures outbox.docs == old(outbox.docs)[key := Settled(old(outbox.docs)[key], job, v, maxRetries, s, now)]
    {
      hide CardsAfter, Tried;
      var attempt := ProcessOutboxJob(key, job, s, now);
      if attempt.Completed? {
        return MarkSentAs(attempt.messageId);
      }
      assert outbox.docs[key := outbox.docs[key]] == outbox.docs;
      if attempt.fault == Transient {
        return Abort;
      }
      if s.mark.Some? {
        return if s.mark.value == Transient then Abort else Raise;
      }
      if attempt.fault == Retryable {
        outbox.MarkJobRetry(key, job.retryCount, maxRetries, s.retryAt, attempt.o, now);
        return RetryLater(attempt.o);
      }
      outbox.MarkJobFailedPermanent(key, attempt.o, now);
      return GiveUp(attempt.o);
    }

    /** A claim round nobody interferes with; the round may break off at a database fault. */
    method Claim(limit: int, fault: Option<nat>, now: int)
      returns (claimed: seq<(Key, Doc)>, faulted: bool, ghost due: seq<Key>)
      modifies outbox
      ensures IsBatch(old(outbox.docs), claimed, now)
      ensures FirstDue(old(outbox.docs), now, Limit(limit), due)
      ensures faulted <==> fault.Some? && fault.value <= |due|
      ensures |claimed| == (if faulted then MaxInt(0, fault.value - 1) else |due|)
              && KeysOf(claimed) == due[..|claimed|]
      ensures outbox.docs.Keys == old(outbox.docs).Keys
      ensures forall i :: 0 <= i < |claimed| ==>
                claimed[i].0 in outbox.docs && outbox.docs[claimed[i].0] == claimed[i].1
      ensures forall k :: k in outbox.docs && (forall i :: 0 <= i < |claimed| ==> claimed[i].0 != k) ==>
                outbox.docs[k] == old(outbox.docs)[k]
    {
      hide FirstDue, ClaimRound, IsBatch, KeysOf, Claimed;
      ghost var tried: nat;
      var nobody: Others := (i, docs) => docs;
      claimed, faulted, due, tried := outbox.ClaimDueJobs(limit, nobody, fault, now);
      RoundIsBatch(old(outbox.docs), due, tried, nobody, limit, now);
    }

    /** The drain's loop over a batch: settles the jobs in order up to the first that breaks it off. */
    method Drain(claimed: seq<(Key, Doc)>, scripts: Key -> Script, ghost before: map<Key, Doc>, now: int)
      returns (r: Outcome, done: nat)
      requires IsBatch(before, claimed, now) && Drained(before, outbox.docs, claimed, 0, scripts, maxRetries, now)
      modifies outbox, this`cards
      ensures Drained(before, outbox.docs, claimed, done, scripts, maxRetries, now)
      ensures cards == CardsAfterAll(old(cards), claimed[..MinInt(done + 1, |claimed|)], scripts)
      ensures r != Skipped
      ensures if done == |claimed| then r == Processed
              else BreaksOff(r, Route(claimed[done].0, claimed[done].1, scripts(claimed[done].0)))
    {
      hide Route, Settled, CardsAfter, IsSettled;
      done := 0;
      while done < |claimed|
        invariant done <= |claimed|
        invariant Drained(before, outbox.docs, claimed, done, scripts, maxRetries, now)
        invariant cards == CardsAfterAll(old(cards), claimed[..done], scripts)
      {
        var (key, job) := claimed[done];
        ghost var docs := outbox.docs;
        var v := SettleJob(key, job, scripts(key), now);
        CardsAfterOneMore(old(cards), claimed, done, scripts);
        if v == Abort || v == Raise {
          UnsettledChangesNothing(docs, key, job, v, maxRetries, scripts(key), now);
          return if v == Abort then Deferred else Raised, done;
        }
        DrainOneMore(before, docs, claimed, done, scripts, maxRetries, now);
        done := done + 1;
      }
      r := Processed;
    }

    /** Claims a batch and drains it.  `fault` is the database call at which the claim round breaks off, if any. */
    method ClaimAndDrain(limit: int, scripts: Key -> Script, fault: Option<nat>, transient: bool, now: int)
      returns (r: Outcome, done: nat, claimed: seq<(Key, Doc)>, faulted: bool, ghost due: seq<Key>)
      modifies outbox, this`cards
      ensures FirstDue(old(outbox.docs), now, Limit(limit), due) && (faulted <==> fault.Some? && fault.value <= |due|)
      ensures |claimed| == (if faulted then MaxInt(0, fault.value - 1) else |due|)
              && KeysOf(claimed) == due[..|claimed|]
      ensures IsBatch(old(outbox.docs), claimed, now)
      ensures Drained(old(outbox.docs), outbox.docs, claimed, done, scripts, maxRetries, now) && done <= |claimed|
      ensures cards == if faulted then old(cards)
                       else CardsAfterAll(old(cards), claimed[..MinInt(done + 1, |claimed|)], scripts)
      ensures r != Skipped && (faulted ==> done == 0 && r == if transient then Deferred else Raised)
      ensures !faulted && done == |claimed| ==> r == Processed
      ensures !faulted && done < |claimed| ==>
                BreaksOff(r, Route(claimed[done].0, claimed[done].1, scripts(claimed[done].0)))
    {
      hide *;
      ghost var before := outbox.docs;
      claimed, faulted, due := Claim(limit, fault, now);
      StartsDrained(before, outbox.docs, claimed, scripts, maxRetries, now);
      r, done := if transient then Deferred else Raised, 0;
      if !faulted {
        r, done := Drain(claimed, scripts, before, now);
        WithinBatch(before, outbox.docs, claimed, done, scripts, maxRetries, now);
      }
    }

    /**
     One drain.  A drain already in flight or a deferred poll leaves everything alone.  Otherwise
     every claimed job before the first one that breaks the drain off is settled, the others stay claimed, and
     no other job changes; polling is deferred after a transient fault, and the next drain may start.
     */
    method ProcessOutboxOnce(
        limit: int, scripts: Key -> Script, fault: Option<nat>, transient: bool, backoffMs: nat, now: int)
      returns (r: Outcome, done: nat, claimed: seq<(Key, Doc)>, faulted: bool, ghost due: seq<Key>)
      modifies this, outbox
      ensures drainInFlight == old(drainInFlight)
      ensures deferredUntil == match r {
                                 case Processed => 0
                                 case Deferred => if backoffMs == 0 then 0 else now + backoffMs
                                 case _ => old(deferredUntil)
                               }
      ensures r.Skipped? <==> old(drainInFlight) || (old(deferredUntil) != 0 && now < old(deferredUntil))
      ensures r.Skipped? ==> outbox.docs == old(outbox.docs) && cards == old(cards)
      ensures !r.Skipped? ==>
                && FirstDue(old(outbox.docs), now, Limit(limit), due)
                && (faulted <==> fault.Some? && fault.value <= |due|)
                && |claimed| == (if faulted then MaxInt(0, fault.value - 1) else |due|)
                && KeysOf(claimed) == due[..|claimed|]
                && IsBatch(old(outbox.docs), claimed, now)
                && Drained(old(outbox.docs), outbox.docs, claimed, done, scripts, maxRetries, now)
      ensures !r.Skipped? && faulted ==> done == 0 && cards == old(cards) && r == if transient then Deferred else Raised
      ensures !r.Skipped? && !faulted ==>
                cards == CardsAfterAll(old(cards), claimed[..MinInt(done + 1, |claimed|)], scripts)
      ensures !r.Skipped? && !faulted && done == |claimed| ==> r == Processed
      ensures !r.Skipped? && !faulted && done < |claimed| ==>
                BreaksOff(r, Route(claimed[done].0, claimed[done].1, scripts(claimed[done].0)))
    {
      hide *;
      r, done, claimed, faulted, due := Skipped, 0, [], false, [];
      if drainInFlight {
        return;
      }
      if deferredUntil != 0 && now < deferredUntil {
        return;
      }
      drainInFlight := true;
      r, done, claimed, faulted, due := ClaimAndDrain(limit, scripts, fault, transient, now);
      if r == Processed {
        deferredUntil := 0;
      } else if r == Deferred {
        deferredUntil := if backoffMs > 0 then now + backoffMs else 0;
      }
      drainInFlight := false;
    }
  }
}

/** The ways a drained job can end, told from what it meets. */
module DispatchTable {
  import opened Common
  import opened Outbox
  import opened OutboxWrites
  import opened Dispatcher

  /**
   The job was delivered as message `m`: accepted at once; an edit that changed nothing, in the message it already
   has; or a trade card whose message is gone, sent afresh.
   */
  predicate Delivered(key: Key, job: Doc, s: Script, m: nat) {
    var edit := job.operation == Edit && job.messageId > 0;
    || s.first == Accepted(m)
    || (edit && s.first.Error? && s.first.noChange && m == job.messageId)
    || (GoneCard(key, job, s) && s.gone == None && s.resend == Accepted(m))
  }

  /** An edit of a trade card is told that the message no longer exists. */
  predicate GoneCard(key: Key, job: Doc, s: Script) {
    && key.TradeCard? && job.operation == Edit && job.messageId > 0
    && s.first.Error? && s.first.editGone && !s.first.noChange
  }

  /** The error the attempt ends with; only after a failed resend is the next attempt forced to send. */
  ghost predicate Fails(key: Key, job: Doc, s: Script, fault: Fault, o: Override) {
    var edit := job.operation == Edit && job.messageId > 0;
    || (s.first.Error? && !(edit && s.first.noChange) && !GoneCard(key, job, s) && s.first.fault == fault && o == Keep)
    || (GoneCard(key, job, s) && s.gone == Some(fault) && o == Keep)
    || (GoneCard(key, job, s) && s.gone == None && s.resend.Error? && s.resend.fault == fault && o == ForceSend)
    || ((exists m: nat :: Delivered(key, job, s, m)) && s.ledger == Some(fault) && o == Keep)
    || ((exists m: nat :: Delivered(key, job, s, m)) && s.ledger == None && s.sent == Some(fault) && o == Keep)
  }

  lemma DeliveryExact(key: Key, job: Doc, s: Script)
    ensures forall m: nat :: Delivered(key, job, s, m) <==> Sending(key, job, s) == Completed(m)
    ensures (exists m: nat :: Delivered(key, job, s, m)) <==> Sending(key, job, s).Completed?
  {
    if Sending(key, job, s).Completed? {
      assert Delivered(key, job, s, Sending(key, job, s).messageId);
    }
  }

  lemma FailureExact(key: Key, job: Doc, s: Script)
    ensures forall m: nat :: Tried(key, job, s) == Completed(m) <==>
                             Delivered(key, job, s, m) && s.ledger == None && s.sent == None
    ensures forall fault, o :: Tried(key, job, s) == Thrown(fault, o) <==> Fails(key, job, s, fault, o)
  {
    DeliveryExact(key, job, s);
    hide Delivered;
  }

  /**
   A job is marked sent exactly when it was delivered and the ledger and the mark went through.  After an error the
   drain stops when the error, or that of the mark, is transient, and raises any other error of the mark; else the
   job is retried or given up by the kind of the first error.
   */
  lemma EndsExactly(key: Key, job: Doc, s: Script)
    ensures forall m: nat :: Route(key, job, s) == MarkSentAs(m) <==>
                        Delivered(key, job, s, m) && s.ledger == None && s.sent == None
    ensures Route(key, job, s).MarkSentAs? || exists fault, o :: Fails(key, job, s, fault, o)
    ensures forall fault, o :: Fails(key, job, s, fault, o) ==>
              var v := Route(key, job, s);
              && (v == Abort <==> fault == Transient || s.mark == Some(Transient))
              && (v == Raise <==> fault != Transient && (s.mark == Some(Retryable) || s.mark == Some(Permanent)))
              && (v == RetryLater(o) <==> fault == Retryable && s.mark == None)
              && (v == GiveUp(o) <==> fault == Permanent && s.mark == None)
  {
    FailureExact(key, job, s);
    hide Delivered, Fails, Tried;
  }

  /**
   The stored job after its turn in an undisturbed drain: sent under the message it was delivered as; waiting for its
   next attempt, or failed once the retries are used up; failed; or still as claimed.
   */
  lemma TurnWrites(job: Doc, v: Verdict, maxRetries: nat, s: Script, now: int)
    ensures var r := Settled(job, job, v, maxRetries, s, now);
            && (v == Abort || v == Raise ==> r == job)
            && (v.MarkSentAs? ==>
                  && r.status == Sent && r.lastDelivered == job.stateHash && r.retryCount == job.retryCount
                  && (v.messageId > 0 ==> r.operation == Edit && r.messageId == v.messageId)
                  && (v.messageId == 0 ==> r.operation == job.operation && r.messageId == job.messageId))
            && (v.RetryLater? ==>
                  && r.retryCount == job.retryCount + 1 && r.lastDelivered == job.lastDelivered
                  && (job.retryCount < maxRetries ==> r.status == Retry && r.retryAt == s.retryAt)
                  && (job.retryCount >= maxRetries ==> r.status == Failed)
                  && (v.o == ForceSend && job.retryCount < maxRetries ==> r.operation == Send && r.messageId == 0)
                  && (v.o == Keep || job.retryCount >= maxRetries ==>
                        r.operation == job.operation && r.messageId == job.messageId))
            && (v.GiveUp? ==>
                  && r.status == Failed && r.retryCount == job.retryCount && r.lastDelivered == job.lastDelivered
                  && (v.o == ForceSend ==> r.operation == Send && r.messageId == 0)
                  && (v.o == Keep ==> r.operation == job.operation && r.messageId == job.messageId))
            && (v.MarkSentAs? || v.RetryLater? || v.GiveUp? ==>
                  r.processingAt == None && r.updatedAt == now && r.stateHash == job.stateHash)
  {
    match v
    case MarkSentAs(m) => SentWrites(job, job.stateHash, m, now);
    case RetryLater(o) => RetryWrites(job, job.retryCount, maxRetries, s.retryAt, o, now);
    case GiveUp(o) => FailWrites(job, o, now);
    case Abort =>
    case Raise =>
  }

  /**
   The ledger: a delivered card whose ledger write went through is in the message it was delivered as; a gone card that
   could be invalidated and was not sent again, or not written, is in none; every other card is as before.
   */
  lemma LedgerExact(cards: Cards, key: Key, job: Doc, s: Script)
    ensures var after := CardsAfter(cards, key, job, s);
            && (!key.TradeCard? ==> after == cards)
            && (key.TradeCard? ==>
                  && (forall id :: id != key.tradeId ==> Lookup(after, id) == Lookup(cards, id))
                  && (forall m: nat :: Delivered(key, job, s, m) && s.ledger == None ==>
                        Lookup(after, key.tradeId) == Some(if m == 0 then None else Some(m)))
                  && ((forall m: nat :: !Delivered(key, job, s, m)) || s.ledger != None ==>
                        Lookup(after, key.tradeId) ==
                        if GoneCard(key, job, s) && s.gone == None && key.tradeId in cards then Some(None)
                        else Lookup(cards, key.tradeId)))
  {
    DeliveryExact(key, job, s);
    hide Delivered, Sending;
    assert GoneCard(key, job, s) <==> Resends(key, job, s);
  }
}

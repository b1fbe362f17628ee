/** What a tick of the reconciliation worker does to every attempt when nobody interferes. */
module Ticks {
  import opened Types
  import opened Psp
  import opened Protocol
  import opened Bookkeeping
  import opened Effects
  import opened Ownership
  import Resolution
  import Retries
  import RetrySchedule
  import opened Guarantees

  /** The provider's answer when it can be reached. */
  function AnswerOf(store: map<Id, ChargeOutcome>, aid: Id): Poll {
    if aid in store then Found(store[aid]) else NotFoundYet
  }

  /** A pending row after the provider has been asked about it and has answered. */
  function AfterAnswer(row: AttemptRow, aid: Id, store: map<Id, ChargeOutcome>, now: int): AttemptRow {
    if aid in store then Reconciled(row, store[aid], now)
    else if row.retryCount < MAX_I32 then Missed(row, BackoffOf(row.retryCount), now)
    else row
  }

  /** A row after a tick: due and reachable attempts get the provider's answer, overdue ones
      expire, and all others stay as they are. */
  function AfterTick(attempts: map<Id, AttemptRow>, aid: Id, reachable: set<Id>,
                     store: map<Id, ChargeOutcome>, now: int): AttemptRow
    requires aid in attempts
  {
    if Due(attempts, now, aid) then
      if aid in reachable then AfterAnswer(attempts[aid], aid, store, now) else attempts[aid]
    else if Overdue(attempts, now, aid) then ExpiredRow(attempts[aid], now)
    else attempts[aid]
  }

  // ----- the two loops -----

  function AfterVisit(attempts: map<Id, AttemptRow>, aid: Id, reachable: set<Id>,
                      store: map<Id, ChargeOutcome>, now: int): map<Id, AttemptRow>
  {
    if aid in attempts && aid in reachable then attempts[aid := AfterAnswer(attempts[aid], aid, store, now)]
    else attempts
  }

  function AfterVisits(attempts: map<Id, AttemptRow>, queue: seq<Snapshot>, reachable: set<Id>,
                       store: map<Id, ChargeOutcome>, now: int): map<Id, AttemptRow>
    decreases |queue|
  {
    if queue == [] then attempts
    else AfterVisits(AfterVisit(attempts, queue[0].attemptId, reachable, store, now), queue[1..], reachable, store, now)
  }

  function AfterExpiry(attempts: map<Id, AttemptRow>, aid: Id, now: int): map<Id, AttemptRow> {
    if aid in attempts then attempts[aid := ExpiredRow(attempts[aid], now)] else attempts
  }

  function AfterExpiries(attempts: map<Id, AttemptRow>, expired: seq<Snapshot>, now: int): map<Id, AttemptRow>
    decreases |expired|
  {
    if expired == [] then attempts
    else AfterExpiries(AfterExpiry(attempts, expired[0].attemptId, now), expired[1..], now)
  }

  /** The head of a list without duplicates is not in its tail; everything else is. */
  lemma HeadAndTail(rows: seq<Snapshot>, a: Id)
    requires rows != [] && NoDuplicates(rows)
    ensures NoDuplicates(rows[1..])
    ensures Listed(rows, a) <==> a == rows[0].attemptId || Listed(rows[1..], a)
    ensures a == rows[0].attemptId ==> !Listed(rows[1..], a)
  {
    var tail := rows[1..];
    forall j | 0 <= j < |tail| ensures tail[j] == rows[j + 1] { }
    if Listed(rows, a) && a != rows[0].attemptId {
      var j :| 0 <= j < |rows| && rows[j].attemptId == a;
      assert tail[j - 1].attemptId == a;
    }
    if Listed(tail, a) {
      var j :| 0 <= j < |tail| && tail[j].attemptId == a;
      assert rows[j + 1].attemptId == a;
    }
  }

  lemma {:induction false} VisitedRow(attempts: map<Id, AttemptRow>, queue: seq<Snapshot>, reachable: set<Id>,
                                      store: map<Id, ChargeOutcome>, now: int, a: Id)
    requires NoDuplicates(queue) && a in attempts
    ensures var after := AfterVisits(attempts, queue, reachable, store, now);
            && a in after
            && after[a] == (if Listed(queue, a) && a in reachable then AfterAnswer(attempts[a], a, store, now)
                            else attempts[a])
    decreases |queue|
  {
    if queue != [] {
      HeadAndTail(queue, a);
      VisitedRow(AfterVisit(attempts, queue[0].attemptId, reachable, store, now), queue[1..], reachable, store, now, a);
    }
  }

  lemma {:induction false} VisitsKeepKeys(attempts: map<Id, AttemptRow>, queue: seq<Snapshot>, reachable: set<Id>,
                                          store: map<Id, ChargeOutcome>, now: int)
    ensures AfterVisits(attempts, queue, reachable, store, now).Keys == attempts.Keys
    decreases |queue|
  {
    if queue != [] {
      VisitsKeepKeys(AfterVisit(attempts, queue[0].attemptId, reachable, store, now), queue[1..], reachable, store, now);
    }
  }

  lemma {:induction false} ExpiredRowOf(attempts: map<Id, AttemptRow>, expired: seq<Snapshot>, now: int, a: Id)
    requires NoDuplicates(expired) && a in attempts
    ensures var after := AfterExpiries(attempts, expired, now);
            a in after && after[a] == if Listed(expired, a) then ExpiredRow(attempts[a], now) else attempts[a]
    decreases |expired|
  {
    if expired != [] {
      HeadAndTail(expired, a);
      ExpiredRowOf(AfterExpiry(attempts, expired[0].attemptId, now), expired[1..], now, a);
    }
  }

  lemma {:induction false} ExpiriesKeepKeys(attempts: map<Id, AttemptRow>, expired: seq<Snapshot>, now: int)
    ensures AfterExpiries(attempts, expired, now).Keys == attempts.Keys
    decreases |expired|
  {
    if expired != [] { ExpiriesKeepKeys(AfterExpiry(attempts, expired[0].attemptId, now), expired[1..], now); }
  }

  lemma AnswerKeepsIdentity(row: AttemptRow, a: Id, store: map<Id, ChargeOutcome>, now: int)
    ensures AfterAnswer(row, a, store, now).attempt.createdAt == row.attempt.createdAt
    ensures AfterAnswer(row, a, store, now).attempt.invoiceId == row.attempt.invoiceId
  {
  }

  lemma NotPendingPastADay(attempts: map<Id, AttemptRow>, a: Id, reachable: set<Id>,
                           store: map<Id, ChargeOutcome>, now: int)
    requires a in attempts
    requires AfterTick(attempts, a, reachable, store, now).attempt.status == Pending
    ensures AfterTick(attempts, a, reachable, store, now).attempt.createdAt > now - DAY_MS
  {
  }

  /** The two loops together do to each row what a tick should. */
  lemma LoopsMakeTick(attempts: map<Id, AttemptRow>, queue: seq<Snapshot>, expired: seq<Snapshot>,
                      reachable: set<Id>, store: map<Id, ChargeOutcome>, now: int, a: Id)
    requires DueRows(attempts, now, queue) && a in attempts
    requires OverdueRows(AfterVisits(attempts, queue, reachable, store, now), now, expired)
    ensures var after := AfterExpiries(AfterVisits(attempts, queue, reachable, store, now), expired, now);
            a in after && after[a] == AfterTick(attempts, a, reachable, store, now)
  {
    var mid := AfterVisits(attempts, queue, reachable, store, now);
    VisitedRow(attempts, queue, reachable, store, now, a);
    ExpiredRowOf(mid, expired, now, a);
    AnswerKeepsIdentity(attempts[a], a, store, now);
    ListedIsDue(attempts, now, queue, a);
    ListedIsOverdue(mid, now, expired, a);
  }

  lemma ListedIsDue(attempts: map<Id, AttemptRow>, now: int, queue: seq<Snapshot>, a: Id)
    requires DueRows(attempts, now, queue) && a in attempts
    ensures Listed(queue, a) <==> Due(attempts, now, a)
  {
  }

  lemma ListedIsOverdue(attempts: map<Id, AttemptRow>, now: int, expired: seq<Snapshot>, a: Id)
    requires OverdueRows(attempts, now, expired) && a in attempts
    ensures Listed(expired, a) <==> Overdue(attempts, now, a)
  {
  }

  // ----- one write -----

  predicate AllPending(attempts: map<Id, AttemptRow>, rows: seq<Snapshot>) {
    forall j :: 0 <= j < |rows| ==> PendingIn(attempts, rows[j].attemptId)
  }

  /** Rows other than the one written stay, so the rest of the list stays pending. */
  lemma TailPending(before: map<Id, AttemptRow>, rows: seq<Snapshot>, after: map<Id, AttemptRow>)
    requires rows != [] && NoDuplicates(rows) && AllPending(before, rows)
    requires after.Keys == before.Keys
    requires forall a :: a in before && a != rows[0].attemptId ==> after[a] == before[a]
    ensures NoDuplicates(rows[1..]) && AllPending(after, rows[1..])
  {
    forall j | 0 <= j < |rows[1..]| ensures PendingIn(after, rows[1..][j].attemptId) {
      assert PendingIn(before, rows[j + 1].attemptId);
    }
  }

  lemma WriteTouchesHead(w: World, w': World)
    requires TickWriteStep(w, w') && w.worker.Polled?
    ensures w'.attempts.Keys == w.attempts.Keys
    ensures forall a :: a in w.attempts && a != w.worker.head.attemptId ==> w'.attempts[a] == w.attempts[a]
  {
  }

  lemma ExpiryTouchesHead(w: World, w': World)
    requires ExpireWriteStep(w, w') && w.worker.Expiring? && w.worker.expired != []
    ensures w'.attempts.Keys == w.attempts.Keys
    ensures forall a :: a in w.attempts && a != w.worker.expired[0].attemptId ==> w'.attempts[a] == w.attempts[a]
  {
  }

  /** In a sound state the write after an answer does to the row what it should. */
  lemma WriteIsVisit(w: World, w': World, reachable: set<Id>)
    requires Sound(w) && TickWriteStep(w, w') && w.worker.Polled?
    requires w.worker.head.attemptId in reachable && w.worker.poll == AnswerOf(w.psp, w.worker.head.attemptId)
    ensures w'.attempts == AfterVisit(w.attempts, w.worker.head.attemptId, reachable, w.psp, w.now)
  {
    assert Known(w, w.worker.head) && RowOk(w, w.worker.head.attemptId);
    assert Retries.Ready(w, w.worker.head);
  }

  lemma ExpiryIsExpiry(w: World, w': World)
    requires Sound(w) && ExpireWriteStep(w, w') && w.worker.Expiring? && w.worker.expired != []
    ensures w'.attempts == AfterExpiry(w.attempts, w.worker.expired[0].attemptId, w.now)
  {
    assert Known(w, w.worker.expired[0]) && RowOk(w, w.worker.expired[0].attemptId);
  }

  /** The worker's steps are safe when what they write is still pending. */
  lemma PendingIsSafe(w: World, s: Step)
    requires WorkerStep(s)
    requires s.TickWrite? && w.worker.Polled? ==> PendingIn(w.attempts, w.worker.head.attemptId)
    requires s.ExpireWrite? && w.worker.Expiring? && w.worker.expired != [] ==>
               PendingIn(w.attempts, w.worker.expired[0].attemptId)
    ensures Safe(w, s)
  {
  }

  // ----- the writes, field by field -----

  /** A pending attempt is exactly one of: due, expected later, or overdue at 24 hours. */
  lemma EveryPendingHasItsTurn(attempts: map<Id, AttemptRow>, now: int, a: Id)
    requires PendingIn(attempts, a)
    ensures Overdue(attempts, now, a) <==> attempts[a].attempt.createdAt + 86_400_000 <= now
    ensures Due(attempts, now, a) <==>
              && now < attempts[a].attempt.createdAt + 86_400_000
              && (attempts[a].nextRetryAt.None? || attempts[a].nextRetryAt.value <= now)
  {
  }

  /** The worker holds an answer only if it is what the provider stores at that moment. */
  lemma PollIsTrue(w: World, poll: Poll, w': World)
    requires Next(w, TickPoll(poll), w') && w.worker.Reconciling? && w.worker.queue != [] && w'.worker.Polled?
    ensures var a := w.worker.queue[0].attemptId;
            && w'.worker == Polled(w.worker.queue[0], poll, w.worker.queue[1..])
            && (poll == NotFoundYet <==> a !in w.psp)
            && (a in w.psp ==> poll == Found(w.psp[a]))
            && w'.attempts == w.attempts && w'.invoices == w.invoices
  {
  }

  /** The documented pause before retry k + 1, as far as the program computes it. */
  function PauseMs(k: int): int {
    if 0 <= k < 4 then 60_000 * [1, 2, 4, 8][k] else if 4 <= k <= 62 then 960_000 else 0
  }

  lemma PauseIsBackoff(k: nat)
    requires k <= MAX_I32
    ensures MINUTE_MS * BackoffOf(k) == PauseMs(k)
  {
    Retries.CountBackoff(k);
    assert RetrySchedule.Pow2(0) == 1 && RetrySchedule.Pow2(1) == 2;
    assert RetrySchedule.Pow2(2) == 4 && RetrySchedule.Pow2(3) == 8;
  }

  /** What the worker writes after an answer, in every sound state: a stored success or
      failure with its reference or code, and the invoice only from Processing; or one more
      retry after the documented pause. */
  lemma AnswerIsWritten(w: World, w': World)
    requires Sound(w) && Next(w, TickWrite, w') && w.worker.Polled?
    ensures var a, i := w.worker.head.attemptId, w.worker.head.invoiceId;
            && a in w.attempts && a in w'.attempts && i in w.invoices && i in w'.invoices
            && w.attempts[a].attempt.invoiceId == i
            && w'.invoices[i] == w.invoices[i].(state := w'.invoices[i].state)
            && var p, q := w.attempts[a], w'.attempts[a];
               && q.attempt.id == p.attempt.id && q.attempt.cardToken == p.attempt.cardToken
               && q.attempt.createdAt == p.attempt.createdAt && q.attempt.invoiceId == i
               && (w.worker.poll.Found? && w.worker.poll.outcome.status == OutcomeSucceeded ==>
                     && q.attempt.status == Succeeded && q.attempt.pspReference == w.worker.poll.outcome.pspRef
                     && q.attempt.updatedAt == w.now && q.retryCount == p.retryCount
                     && (w'.invoices[i].state == if w.invoices[i].state == Processing then Paid else w.invoices[i].state))
               && (w.worker.poll.Found? && w.worker.poll.outcome.status == OutcomeFailed ==>
                     && q.attempt.status == Failed && q.attempt.failureCode == w.worker.poll.outcome.code
                     && q.attempt.updatedAt == w.now && q.retryCount == p.retryCount
                     && (w'.invoices[i].state == if w.invoices[i].state == Processing then Open else w.invoices[i].state))
               && (w.worker.poll.NotFoundYet? && p.retryCount < 2147483647 ==>
                     && q.attempt.status == p.attempt.status && q.retryCount == p.retryCount + 1
                     && q.nextRetryAt == Some(w.now + PauseMs(p.retryCount)) && q.attempt.updatedAt == w.now
                     && w'.invoices == w.invoices)
  {
    assert Known(w, w.worker.head) && RowOk(w, w.worker.head.attemptId);
    assert Retries.Ready(w, w.worker.head) && Retries.RetryOk(w, w.worker.head.attemptId);
    PauseIsBackoff(w.worker.head.retryCount);
  }

  /** What the worker writes when an attempt expires, in every sound state. */
  lemma ExpiryIsWritten(w: World, w': World)
    requires Sound(w) && Next(w, ExpireWrite, w') && w.worker.Expiring? && w.worker.expired != []
    ensures var a, i := w.worker.expired[0].attemptId, w.worker.expired[0].invoiceId;
            && a in w.attempts && a in w'.attempts && i in w.invoices && i in w'.invoices
            && w.attempts[a].attempt.invoiceId == i
            && w'.attempts[a].attempt ==
               w.attempts[a].attempt.(status := Failed, failureCode := Some(ReconciliationTimeout), updatedAt := w.now)
            && w'.invoices[i] == w.invoices[i].(state := Open)
  {
    assert Known(w, w.worker.expired[0]) && RowOk(w, w.worker.expired[0].attemptId);
  }

  // ----- the invoices -----

  /** After a tick from an owned state, the invoice of every attempt that got a stored
      outcome is Paid or Open as the outcome says. */
  lemma SettledInvoice(w: World, reachable: set<Id>, w': World, a: Id)
    requires Owned(w) && Sound(w) && Owned(w') && Sound(w')
    requires w'.psp == w.psp && w'.attempts.Keys == w.attempts.Keys
    requires forall b :: b in w.attempts ==> w'.attempts[b] == AfterTick(w.attempts, b, reachable, w.psp, w.now)
    requires a in w.attempts && Due(w.attempts, w.now, a) && a in reachable && a in w.psp
    ensures var i := w.attempts[a].attempt.invoiceId;
            && i in w'.invoices
            && w'.invoices[i].state == if w.psp[a].status == OutcomeSucceeded then Paid else Open
  {
    assert OutcomeOk(w, a) && HoldsOk(w', a);
    if w.psp[a].status != OutcomeSucceeded {
      var i := w.attempts[a].attempt.invoiceId;
      forall b | b in w'.attempts && w'.attempts[b].attempt.invoiceId == i
        ensures !Live(w'.attempts[b].attempt)
      {
        assert AloneOk(w, a, b);
      }
      assert Resolution.HeldOk(w', i) && PaidOk(w', i);
    }
  }
}

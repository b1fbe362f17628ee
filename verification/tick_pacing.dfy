/** How often the worker can find an attempt unknown to the provider. The computed pause is
    zero from retry 63 on, but a tick visits an attempt once and the worker sleeps for a
    minute between ticks. Only a restart of the process cuts that minute short, so the
    bounds count the restarts. */
module Pacing {
  import opened Types
  import opened Protocol
  import opened Bookkeeping
  import opened RetrySchedule
  import opened Retries

  /** Minutes between the first not-found answer and answer k without restarts: the
      documented schedule up to answer 63, a minute for each answer after that. */
  function SpreadMins(k: nat): int {
    if k <= 63 then ElapsedMins(k) else ElapsedMins(63) + (k - 63)
  }

  lemma {:induction false} SpreadStep(k: nat)
    ensures k <= 62 ==> SpreadMins(k + 1) == SpreadMins(k) + PauseMins(k)
    ensures k >= 63 ==> SpreadMins(k + 1) == SpreadMins(k) + 1
  {
  }

  lemma {:induction false} SpreadClosedForm(k: nat)
    ensures SpreadMins(0) == 0
    ensures 4 <= k <= 63 ==> SpreadMins(k) == 15 + 16 * (k - 4)
    ensures k >= 63 ==> SpreadMins(k) == 959 + (k - 63)
  {
    ElapsedClosedForm(63);
    if 4 <= k <= 63 { ElapsedClosedForm(k); }
  }

  // ----- one attempt -----

  ghost predicate SpacedOut(misses: seq<int>, restarts: nat) {
    forall k :: 0 <= k < |misses| ==> misses[k] >= misses[0] + MINUTE_MS * (SpreadMins(k) - restarts)
  }

  /** The earliest time at which the next not-found answer can be asked for. */
  function Earliest(misses: seq<int>, restarts: nat): int
    requires misses != []
  {
    misses[0] + MINUTE_MS * (SpreadMins(|misses|) - restarts)
  }

  ghost predicate RowPaced(row: AttemptRow, restarts: nat, now: int) {
    row.misses != [] ==>
      && SpacedOut(row.misses, restarts)
      && row.attempt.createdAt <= row.misses[0]
      && row.misses[|row.misses| - 1] <= now
      && (|row.misses| >= 2 ==> MINUTE_MS * (SpreadMins(|row.misses| - 1) - restarts) < DAY_MS)
  }

  /** A worker that sleeps until `wakeAt` leaves a minute after the last answer. */
  ghost predicate RowRested(row: AttemptRow, restarts: nat, wakeAt: int) {
    row.misses != [] ==>
      wakeAt >= row.misses[0] + MINUTE_MS * (SpreadMins(|row.misses| - 1) + 1 - restarts)
  }

  /** A row the worker selected was selected late enough, and within its 24 hours. */
  ghost predicate RowQueued(row: AttemptRow, restarts: nat, now: int) {
    row.misses != [] ==>
      Earliest(row.misses, restarts) <= now && Earliest(row.misses, restarts) < row.attempt.createdAt + DAY_MS
  }

  lemma RestedAfter(row: AttemptRow, restarts: nat, now: int)
    requires RowPaced(row, restarts, now)
    ensures RowRested(row, restarts, now + TICK_PAUSE_MS)
    ensures RowRested(row, restarts + 1, now)
  {
  }

  lemma {:induction false} SelectedIsQueued(row: AttemptRow, restarts: nat, wakeAt: int, now: int)
    requires RowOnTime(row) && RowPaced(row, restarts, now) && RowRested(row, restarts, wakeAt) && wakeAt <= now
    requires row.nextRetryAt.Some? ==> row.nextRetryAt.value <= now
    requires row.attempt.createdAt > now - DAY_MS
    ensures RowQueued(row, restarts, now)
  {
    if row.misses != [] { SpreadStep(|row.misses| - 1); }
  }

  lemma {:induction false} MissedIsPaced(row: AttemptRow, restarts: nat, pause: int, now: int)
    requires RowPaced(row, restarts, now) && RowQueued(row, restarts, now) && row.attempt.createdAt <= now
    ensures RowPaced(Missed(row, pause, now), restarts, now)
  {
    SpreadClosedForm(0);
  }

  /** At most 544 answers fit, and one more for every restart. */
  lemma {:induction false} PacedCount(row: AttemptRow, restarts: nat, now: int)
    requires RowPaced(row, restarts, now)
    ensures |row.misses| <= 544 + restarts
  {
    if |row.misses| >= 2 { SpreadClosedForm(|row.misses| - 1); }
  }

  // ----- the worker -----

  ghost predicate PacedOk(w: World, a: Id, restarts: nat) {
    a in w.attempts ==> RowPaced(w.attempts[a], restarts, w.now)
  }

  ghost predicate RestedOk(w: World, a: Id, restarts: nat) {
    a in w.attempts && w.worker.Idle? ==> RowRested(w.attempts[a], restarts, w.worker.wakeAt)
  }

  ghost predicate QueuedOk(w: World, a: Id, restarts: nat) {
    a in w.attempts && InHand(w.worker, a) ==> RowQueued(w.attempts[a], restarts, w.now)
  }

  /** The worker has selected the attempt and not yet recorded an answer for it. */
  predicate InHand(worker: WorkerState, a: Id) {
    match worker
    case Reconciling(queue) => Listed(queue, a)
    case Polled(head, _, queue) => head.attemptId == a || Listed(queue, a)
    case _ => false
  }

  ghost predicate Paced(w: World, restarts: nat) {
    && (forall a {:trigger PacedOk(w, a, restarts)} :: PacedOk(w, a, restarts))
    && (forall a {:trigger RestedOk(w, a, restarts)} :: RestedOk(w, a, restarts))
    && (forall a {:trigger QueuedOk(w, a, restarts)} :: QueuedOk(w, a, restarts))
  }

  /** What the answers of an attempt depend on is left alone. */
  ghost predicate AnswersSame(w: World, w': World) {
    && w.now <= w'.now
    && (forall a :: a in w.attempts ==>
          && a in w'.attempts
          && w'.attempts[a].misses == w.attempts[a].misses
          && w'.attempts[a].attempt.createdAt == w.attempts[a].attempt.createdAt)
    && (forall a :: a in w'.attempts && a !in w.attempts ==> w'.attempts[a].misses == [])
  }

  /** The worker keeps sleeping or falls asleep for a minute, and takes nothing in hand. */
  ghost predicate Settles(w: World, w': World) {
    && (w'.worker.Idle? ==> w'.worker == w.worker || w'.worker.wakeAt >= w'.now + TICK_PAUSE_MS)
    && (forall a :: InHand(w'.worker, a) ==> InHand(w.worker, a))
  }

  lemma PacedFrame(w: World, w': World, restarts: nat)
    requires Paced(w, restarts) && AnswersSame(w, w') && Settles(w, w')
    ensures Paced(w', restarts)
  {
    forall a ensures PacedOk(w', a, restarts) { assert PacedOk(w, a, restarts); }
    forall a ensures RestedOk(w', a, restarts) {
      assert PacedOk(w', a, restarts) && RestedOk(w, a, restarts);
      if a in w'.attempts { RestedAfter(w'.attempts[a], restarts, w'.now); }
    }
    forall a ensures QueuedOk(w', a, restarts) { assert QueuedOk(w, a, restarts); }
  }

  lemma AnswersSameStep(w: World, s: Step, w': World)
    requires Next(w, s, w') && !s.TickWrite?
    ensures AnswersSame(w, w')
  {
    AttemptsKeptStep(w, s, w');
    if PayStep(s) { RetriesPay(w, s, w'); }
    else if s.ExpireWrite? { AnswersSameExpiry(w, w'); }
    else if WorkerStep(s) { WorkerFootprint(w, s, w'); }
    else { InvoiceFootprint(w, s, w'); }
  }

  lemma AnswersSameExpiry(w: World, w': World)
    requires ExpireWriteStep(w, w')
    ensures AnswersSame(w, w')
  {
  }

  lemma TailListed(queue: seq<Snapshot>)
    requires queue != []
    ensures forall a :: Listed(queue[1..], a) ==> Listed(queue, a)
    ensures Listed(queue, queue[0].attemptId)
  {
    forall a | Listed(queue[1..], a) ensures Listed(queue, a) {
      var j :| 0 <= j < |queue[1..]| && queue[1..][j].attemptId == a;
      assert queue[j + 1].attemptId == a;
    }
  }

  lemma SettlesStep(w: World, s: Step, w': World)
    requires Next(w, s, w') && !s.TickSelect? && !s.TickWrite? && !s.WorkerRestart?
    ensures Settles(w, w')
  {
    if PayStep(s) {
      PayKeepsWorker(w, s, w');
    } else if WorkerStep(s) {
      if w.worker.Reconciling? && w.worker.queue != [] { TailListed(w.worker.queue); }
      SettlesWorker(w, s, w');
    } else {
      InvoiceFootprint(w, s, w');
    }
  }

  lemma SettlesWorker(w: World, s: Step, w': World)
    requires Next(w, s, w') && WorkerStep(s) && !s.TickSelect? && !s.TickWrite? && !s.WorkerRestart?
    requires w.worker.Reconciling? && w.worker.queue != [] ==>
               && (forall a :: Listed(w.worker.queue[1..], a) ==> Listed(w.worker.queue, a))
               && Listed(w.worker.queue, w.worker.queue[0].attemptId)
    ensures Settles(w, w')
  {
  }

  lemma PacedSelect(w: World, rows: seq<Snapshot>, w': World, restarts: nat)
    requires Paced(w, restarts) && OnTime(w) && TickSelectStep(w, rows, w')
    ensures Paced(w', restarts)
  {
    if w'.worker == w.worker {
      PacedFrame(w, w', restarts);
    } else {
      forall a ensures PacedOk(w', a, restarts) { assert PacedOk(w, a, restarts); }
      forall a ensures QueuedOk(w', a, restarts) {
        if a in w'.attempts && InHand(w'.worker, a) {
          assert PacedOk(w, a, restarts) && RestedOk(w, a, restarts) && RetryOk(w, a);
          var j :| 0 <= j < |rows| && rows[j].attemptId == a;
          assert Due(w.attempts, w.now, rows[j].attemptId);
          SelectedIsQueued(w.attempts[a], restarts, w.worker.wakeAt, w.now);
        }
      }
      forall a ensures RestedOk(w', a, restarts) { }
    }
  }

  /** The one row that a write may give an answer, and only one that is in hand. */
  lemma WriteEffect(w: World, w': World)
    requires TickWriteStep(w, w')
    ensures w'.now == w.now && w'.attempts.Keys == w.attempts.Keys
    ensures forall a :: a in w.attempts && !(w.worker.Polled? && w.worker.head.attemptId == a) ==>
              w'.attempts[a] == w.attempts[a]
    ensures w.worker.Polled? && w.worker.head.attemptId in w.attempts ==>
              var p, q := w.attempts[w.worker.head.attemptId], w'.attempts[w.worker.head.attemptId];
              || q == Missed(p, BackoffOf(w.worker.head.retryCount), w.now)
              || (q.misses == p.misses && q.attempt.createdAt == p.attempt.createdAt)
    ensures !w'.worker.Idle? || w'.worker == w.worker
  {
  }

  lemma PacedWrite(w: World, w': World, restarts: nat)
    requires Paced(w, restarts) && Core(w) && OnTime(w) && TickWriteStep(w, w')
    ensures Paced(w', restarts)
  {
    WriteEffect(w, w');
    forall a ensures PacedOk(w', a, restarts) {
      assert PacedOk(w, a, restarts) && QueuedOk(w, a, restarts) && RowOk(w, a);
      if a in w.attempts && w.worker.Polled? && w.worker.head.attemptId == a {
        MissedIsPaced(w.attempts[a], restarts, BackoffOf(w.worker.head.retryCount), w.now);
      }
    }
    forall a ensures RestedOk(w', a, restarts) { assert RestedOk(w, a, restarts); }
    forall a ensures QueuedOk(w', a, restarts) { assert QueuedOk(w, a, restarts); }
  }

  lemma PacedRestart(w: World, w': World, restarts: nat)
    requires Paced(w, restarts) && WorkerRestartStep(w, w')
    ensures Paced(w', restarts + 1)
  {
    var more := restarts + 1;
    forall a ensures PacedOk(w', a, more) { assert PacedOk(w, a, restarts); }
    forall a ensures RestedOk(w', a, more) {
      assert PacedOk(w, a, restarts);
      if a in w.attempts { RestedAfter(w.attempts[a], restarts, w.now); }
    }
    forall a ensures QueuedOk(w', a, more) { }
  }

  lemma PacedStep(w: World, s: Step, w': World, restarts: nat)
    requires Paced(w, restarts) && Core(w) && OnTime(w) && Next(w, s, w')
    ensures Paced(w', restarts + if s.WorkerRestart? then 1 else 0)
  {
    if s.WorkerRestart? {
      PacedRestart(w, w', restarts);
    } else if s.TickSelect? {
      PacedSelect(w, s.rows, w', restarts);
    } else if s.TickWrite? {
      PacedWrite(w, w', restarts);
    } else {
      AnswersSameStep(w, s, w');
      SettlesStep(w, s, w');
      PacedFrame(w, w', restarts);
    }
  }
}

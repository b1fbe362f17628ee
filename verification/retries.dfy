/** The reconciliation retries of every reachable attempt keep the machine's schedule. */
module Retries {
  import opened Types
  import opened Protocol
  import opened Bookkeeping
  import opened RetrySchedule

  /** The retry columns of an attempt tell the history of its not-found answers. */
  ghost predicate RowOnTime(row: AttemptRow) {
    && row.retryCount == |row.misses| <= MAX_I32
    && OnMachineSchedule(row.misses)
    && row.nextRetryAt ==
       if row.misses == [] then None
       else Some(row.misses[|row.misses| - 1] + MINUTE_MS * PauseMins(|row.misses| - 1))
  }

  ghost predicate RetryOk(w: World, a: Id) { a in w.attempts ==> RowOnTime(w.attempts[a]) }

  /** A row the worker selected carries the current retry count and is due. */
  ghost predicate Ready(w: World, s: Snapshot) {
    && s.attemptId in w.attempts
    && w.attempts[s.attemptId].retryCount == s.retryCount
    && (w.attempts[s.attemptId].nextRetryAt.Some? ==> w.attempts[s.attemptId].nextRetryAt.value <= w.now)
  }

  ghost predicate AllReady(w: World, rows: seq<Snapshot>) {
    forall j :: 0 <= j < |rows| ==> Ready(w, rows[j])
  }

  ghost predicate QueueReady(w: World) {
    match w.worker
    case Reconciling(queue) => NoDuplicates(queue) && AllReady(w, queue)
    case Polled(head, _, queue) =>
      NoDuplicates(queue) && AllReady(w, queue) && Ready(w, head) && !Listed(queue, head.attemptId)
    case _ => true
  }

  ghost predicate OnTime(w: World) {
    && (forall a {:trigger RetryOk(w, a)} :: RetryOk(w, a))
    && QueueReady(w)
  }

  /** Steps other than the recording of a not-found answer keep the retry columns. */
  ghost predicate RetriesSame(w: World, w': World) {
    && w.now <= w'.now
    && (forall a :: a in w.attempts ==>
          && a in w'.attempts
          && w'.attempts[a].retryCount == w.attempts[a].retryCount
          && w'.attempts[a].nextRetryAt == w.attempts[a].nextRetryAt
          && w'.attempts[a].misses == w.attempts[a].misses)
    && (forall a :: a in w'.attempts && a !in w.attempts ==>
          w'.attempts[a].retryCount == 0 && w'.attempts[a].nextRetryAt == None && w'.attempts[a].misses == [])
  }

  lemma ReadyKept(w: World, rows: seq<Snapshot>, w': World)
    requires RetriesSame(w, w') && AllReady(w, rows)
    ensures AllReady(w', rows)
  {
    forall j | 0 <= j < |rows| ensures Ready(w', rows[j]) { assert Ready(w, rows[j]); }
  }

  lemma OnTimeFrame(w: World, w': World)
    requires OnTime(w) && RetriesSame(w, w') && w'.worker == w.worker
    ensures OnTime(w')
  {
    forall a ensures RetryOk(w', a) { assert RetryOk(w, a); }
    match w.worker
    case Reconciling(queue) => ReadyKept(w, queue, w');
    case Polled(head, _, queue) => ReadyKept(w, queue, w');
    case _ =>
  }

  lemma RetriesPay(w: World, s: Step, w': World)
    requires Next(w, s, w') && PayStep(s)
    ensures RetriesSame(w, w') && w'.worker == w.worker
  {
    PayKeepsWorker(w, s, w');
    if s.PayClaim? || s.PayResolve? { RetriesTransaction(w, s, w'); }
    else { RetriesOther(w, s, w'); }
  }

  lemma RetriesTransaction(w: World, s: Step, w': World)
    requires Next(w, s, w') && (s.PayClaim? || s.PayResolve?)
    ensures RetriesSame(w, w')
  {
  }

  lemma RetriesOther(w: World, s: Step, w': World)
    requires Next(w, s, w') && PayStep(s) && !s.PayClaim? && !s.PayResolve?
    ensures w'.attempts == w.attempts
  {
  }

  lemma TailReady(w: World, queue: seq<Snapshot>)
    requires queue != [] && NoDuplicates(queue) && AllReady(w, queue)
    ensures NoDuplicates(queue[1..]) && AllReady(w, queue[1..]) && Ready(w, queue[0])
    ensures !Listed(queue[1..], queue[0].attemptId)
  {
    forall j | 0 <= j < |queue[1..]| ensures Ready(w, queue[1..][j]) { assert Ready(w, queue[j + 1]); }
  }

  lemma SelectedReady(w: World, rows: seq<Snapshot>)
    requires DueRows(w.attempts, w.now, rows)
    ensures NoDuplicates(rows) && AllReady(w, rows)
  {
    forall j | 0 <= j < |rows| ensures Ready(w, rows[j]) {
      assert Due(w.attempts, w.now, rows[j].attemptId);
    }
  }

  lemma QueueSelect(w: World, rows: seq<Snapshot>, w': World)
    requires QueueReady(w) && TickSelectStep(w, rows, w')
    ensures QueueReady(w')
  {
    QueueKept(w, w');
    if DueRows(w.attempts, w.now, rows) {
      SelectedReady(w, rows);
      ReadyKept(w, rows, w');
    }
  }

  lemma QueuePoll(w: World, poll: Poll, w': World)
    requires QueueReady(w) && TickPollStep(w, poll, w')
    ensures QueueReady(w')
  {
    QueueKept(w, w');
    if w.worker.Reconciling? && w.worker.queue != [] {
      TailReady(w, w.worker.queue);
      ReadyKept(w, w.worker.queue[1..], w');
    }
  }

  lemma OnTimeQueue(w: World, s: Step, w': World)
    requires OnTime(w) && Next(w, s, w') && WorkerStep(s) && !s.TickWrite? && !s.ExpireWrite?
    ensures OnTime(w')
  {
    WorkerFootprint(w, s, w');
    forall a ensures RetryOk(w', a) { assert RetryOk(w, a); }
    if s.TickSelect? { QueueSelect(w, s.rows, w'); }
    else if s.TickPoll? { QueuePoll(w, s.poll, w'); }
    else { QueueKept(w, w'); }
  }

  lemma QueueKept(w: World, w': World)
    requires QueueReady(w) && RetriesSame(w, w')
    ensures w.worker.Reconciling? ==> AllReady(w', w.worker.queue)
    ensures w.worker.Polled? ==> AllReady(w', w.worker.queue) && Ready(w', w.worker.head)
  {
    match w.worker
    case Reconciling(queue) => ReadyKept(w, queue, w');
    case Polled(head, _, queue) => ReadyKept(w, queue, w');
    case _ =>
  }

  lemma ScheduleExtends(misses: seq<int>, t: int)
    requires OnMachineSchedule(misses)
    requires misses != [] ==> t >= misses[|misses| - 1] + MINUTE_MS * PauseMins(|misses| - 1)
    ensures OnMachineSchedule(misses + [t])
  {
    var m := misses + [t];
    forall j: nat | j + 1 < |m| ensures m[j + 1] >= m[j] + MINUTE_MS * PauseMins(j) {
      if j + 1 < |misses| { assert misses[j + 1] >= misses[j] + MINUTE_MS * PauseMins(j); }
    }
  }

  /** The power takes the count as unsigned 32 bits, which a count never exceeds, and comes
      to the pause. */
  lemma CountBackoff(retryCount: int)
    requires 0 <= retryCount <= MAX_I32
    ensures BackoffOf(retryCount) == PauseMins(retryCount)
  {
    assert retryCount % 0x1_0000_0000 == retryCount;
    BackoffExact(retryCount);
  }

  lemma MissedCount(row: AttemptRow, pause: int, now: int)
    requires row.retryCount == |row.misses| < MAX_I32
    ensures var m := Missed(row, pause, now);
            && m.retryCount == |m.misses| <= MAX_I32
            && |m.misses| == |row.misses| + 1 && m.misses[|row.misses|] == now
            && m.nextRetryAt == Some(now + MINUTE_MS * pause)
  {
  }

  lemma MissedOnTime(row: AttemptRow, pause: int, now: int)
    requires RowOnTime(row) && row.retryCount < MAX_I32 && pause == PauseMins(row.retryCount)
    requires row.nextRetryAt.Some? ==> row.nextRetryAt.value <= now
    ensures RowOnTime(Missed(row, pause, now))
  {
    ScheduleExtends(row.misses, now);
    MissedCount(row, pause, now);
  }

  lemma OnTimeTickWrite(w: World, w': World)
    requires OnTime(w) && TickWriteStep(w, w')
    ensures OnTime(w')
  {
    if w.worker.Polled? {
      var h := w.worker.head.attemptId;
      assert RetryOk(w, h);
      if w.attempts[h].retryCount < MAX_I32 {
        CountBackoff(w.attempts[h].retryCount);
        MissedOnTime(w.attempts[h], BackoffOf(w.attempts[h].retryCount), w.now);
      }
      QueueAfterHead(w, w');
    } else {
      QueueKept(w, w');
    }
    forall a ensures RetryOk(w', a) { assert RetryOk(w, a); }
  }

  lemma QueueAfterHead(w: World, w': World)
    requires QueueReady(w) && w.worker.Polled? && TickWriteStep(w, w')
    ensures QueueReady(w')
  {
    forall j | 0 <= j < |w.worker.queue| ensures Ready(w', w.worker.queue[j]) {
      assert Ready(w, w.worker.queue[j]);
    }
  }

  lemma OnTimeExpireWrite(w: World, w': World)
    requires OnTime(w) && ExpireWriteStep(w, w')
    ensures OnTime(w')
  {
    forall a ensures RetryOk(w', a) { assert RetryOk(w, a); }
    QueueKept(w, w');
  }

  lemma OnTimeStep(w: World, s: Step, w': World)
    requires OnTime(w) && Next(w, s, w')
    ensures OnTime(w')
  {
    if PayStep(s) {
      RetriesPay(w, s, w');
      OnTimeFrame(w, w');
    } else if s.TickWrite? {
      OnTimeTickWrite(w, w');
    } else if s.ExpireWrite? {
      OnTimeExpireWrite(w, w');
    } else if WorkerStep(s) {
      OnTimeQueue(w, s, w');
    } else {
      InvoiceFootprint(w, s, w');
      OnTimeFrame(w, w');
    }
  }

  /** In every state where the retries are on time, the k-th not-found answer of an attempt
      comes at least 15 + 16(k - 4) minutes after its first, for every k the power reaches. */
  lemma NotFoundAnswersSpread(w: World, a: Id, k: nat)
    requires OnTime(w) && a in w.attempts
    requires 4 <= k <= 63 && k < |w.attempts[a].misses|
    ensures w.attempts[a].misses[k] >= w.attempts[a].misses[0] + MINUTE_MS * (15 + 16 * (k - 4))
  {
    assert RetryOk(w, a);
    var times := w.attempts[a].misses;
    forall j: nat | j < k ensures times[j + 1] >= times[j] + MINUTE_MS * ScheduleMins(j) {
      assert times[j + 1] >= times[j] + MINUTE_MS * PauseMins(j);
    }
    SpacedBound(times, k);
    ElapsedClosedForm(k);
  }
}

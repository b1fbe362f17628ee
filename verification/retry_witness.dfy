/** A run that shows how far the program leaves the documented schedule: an attempt that the
    provider never hears of is found unknown 544 times within its 24 hours. */
module RetryWitness {
  import opened Types
  import opened Psp
  import opened Protocol
  import opened RetrySchedule
  import opened Guarantees
  import opened Progress
  import Retries
  import opened Pacing
  import opened Ownership
  import opened Witnesses

  const LOST_PAY: PayRequest := PayBy("a", TokNetworkError, 2)

  /** When answer k comes. */
  function AnswerTime(k: nat): int { MINUTE_MS * SpreadMins(k) }

  /** After k answers, answer k can be asked for at its time. */
  ghost predicate Retrying(w: World, k: nat) {
    && w.worker.Idle? && w.worker.wakeAt <= AnswerTime(k) && w.now <= AnswerTime(k)
    && w.attempts.Keys == {1}
    && w.attempts[1].attempt.status == Pending && w.attempts[1].attempt.createdAt == 0
    && w.attempts[1].attempt.invoiceId == 1 && w.attempts[1].attempt.cardToken == TokNetworkError
    && w.attempts[1].retryCount == k == |w.attempts[1].misses|
    && (w.attempts[1].nextRetryAt.Some? ==> w.attempts[1].nextRetryAt.value <= AnswerTime(k))
    && 1 !in w.psp
  }

  ghost predicate Clean(r: Run) {
    r.Valid() && Disciplined(r) && Uninterrupted(r)
  }

  lemma More(r: Run, s: Step, w: World) returns (r': Run)
    requires Clean(r) && Next(Last(r), s, w) && HonestVersion(Last(r), s)
    requires SingleResolution(Last(r), s) && !s.WorkerRestart?
    ensures Clean(r') && Last(r') == w
  {
    r' := Append(r, s, w);
  }

  /** The request has claimed the invoice and called the provider. */
  ghost predicate Called(w: World) {
    && w.now == 0 && w.worker == Idle(0) && w.psp == map[] && w.served == {} && w.calls != []
    && w.attempts == map[1 := AttemptRow(PendingAttempt(LOST_PAY, 1, 0), 0, None, [])]
    && w.calls[|w.calls| - 1] == ChargeCall(1, TokNetworkError)
  }

  lemma Calls() returns (r: Run)
    ensures Clean(r) && Called(Last(r))
  {
    var r0 := Opens();
    var r1 := Reserve(r0, 1, 1, LOST_PAY);
    r := Send(r1, 1);
  }

  /** The provider serves the call and stores nothing. */
  lemma Begins() returns (r: Run)
    ensures Clean(r) && Retrying(Last(r), 0)
  {
    var r0 := Calls();
    var w := Last(r0);
    var k := |w.calls| - 1;
    r := More(r0, PspServe(k, ""), w.(served := w.served + {k}));
  }

  lemma AnswerTimes(k: nat)
    requires k <= 543
    ensures AnswerTime(k) < DAY_MS
    ensures AnswerTime(k) + TICK_PAUSE_MS <= AnswerTime(k + 1)
    ensures AnswerTime(k) + MINUTE_MS * PauseMins(k) <= AnswerTime(k + 1)
  {
    SpreadStep(k);
    if k <= 62 { SpreadBelow(k); } else { SpreadClosedForm(k); }
    if k <= 62 { Pow2Positive(k); }
  }

  lemma SpreadBelow(k: nat)
    requires k <= 62
    ensures SpreadMins(k) < 1440
  {
    if k >= 4 {
      SpreadClosedForm(k);
    } else {
      SpreadStep(k); SpreadStep(k + 1); SpreadStep(k + 2); SpreadStep(k + 3);
      Pow2Positive(k); Pow2Positive(k + 1); Pow2Positive(k + 2); Pow2Positive(k + 3);
      SpreadClosedForm(k + 4);
    }
  }

  /** The tick selects the attempt at the time of answer k. */
  lemma ListsAttempt(r: Run, k: nat) returns (r': Run)
    requires Clean(r) && Retrying(Last(r), k) && AnswerTime(k) < DAY_MS
    ensures Clean(r')
    ensures Last(r') == Last(r).(now := AnswerTime(k), worker := Reconciling([Snapshot(1, 1, k)]))
  {
    var w := Last(r).(now := AnswerTime(k));
    var r1 := More(r, Advance(AnswerTime(k) - Last(r).now), w);
    var rows := [Snapshot(1, 1, k)];
    assert rows[0].attemptId == 1;
    assert Listed(rows, 1);
    r' := More(r1, TickSelect(rows), w.(worker := Reconciling(rows)));
  }

  /** It polls the provider, which knows nothing, and records that. */
  lemma Misses(r: Run, k: nat) returns (r': Run)
    requires Clean(r) && Last(r).worker == Reconciling([Snapshot(1, 1, k)]) && k < MAX_I32
    requires 1 in Last(r).attempts && Last(r).attempts[1].retryCount == k && 1 !in Last(r).psp
    ensures Clean(r')
    ensures Last(r') == Last(r).(worker := Reconciling([]),
              attempts := Last(r).attempts[1 := Missed(Last(r).attempts[1], BackoffOf(k), Last(r).now)])
  {
    var w := Last(r);
    assert [Snapshot(1, 1, k)][1..] == [];
    var r1 := More(r, TickPoll(NotFoundYet), w.(worker := Polled(Snapshot(1, 1, k), NotFoundYet, [])));
    r' := More(r1, TickWrite, w.(worker := Reconciling([]),
                 attempts := w.attempts[1 := Missed(w.attempts[1], BackoffOf(k), w.now)]));
  }

  /** It finds nothing overdue. */
  lemma ListsNothing(r: Run) returns (r': Run)
    requires Clean(r) && Last(r).worker == Reconciling([]) && Last(r).now < DAY_MS
    requires forall a :: a in Last(r).attempts ==> Last(r).attempts[a].attempt.createdAt == 0
    ensures Clean(r') && Last(r') == Last(r).(worker := Expiring(Last(r).now - DAY_MS, []))
  {
    r' := More(r, ExpireSelect([]), Last(r).(worker := Expiring(Last(r).now - DAY_MS, [])));
  }

  /** It goes to sleep. */
  lemma Sleeps(r: Run, cutoff: int) returns (r': Run)
    requires Clean(r) && Last(r).worker == Expiring(cutoff, [])
    ensures Clean(r') && Last(r') == Last(r).(worker := Idle(Last(r).now + TICK_PAUSE_MS))
  {
    r' := More(r, TickEnd, Last(r).(worker := Idle(Last(r).now + TICK_PAUSE_MS)));
  }

  lemma OneMore(r: Run, k: nat) returns (r': Run)
    requires Clean(r) && Retrying(Last(r), k) && k <= 543
    ensures Clean(r') && Retrying(Last(r'), k + 1) && Last(r').now < DAY_MS
  {
    AnswerTimes(k);
    var r1 := ListsAttempt(r, k);
    var r2 := Misses(r1, k);
    var r3 := ListsNothing(r2);
    r' := Sleeps(r3, Last(r2).now - DAY_MS);
    Retries.CountBackoff(k);
  }

  lemma {:induction false} Answers(k: nat) returns (r: Run)
    requires k <= 544
    ensures Clean(r) && Retrying(Last(r), k) && (k > 0 ==> Last(r).now < DAY_MS)
  {
    if k == 0 {
      r := Begins();
    } else {
      var r0 := Answers(k - 1);
      r := OneMore(r0, k - 1);
    }
  }

  lemma {:induction false} NoRestarts(r: Run, n: nat)
    requires Uninterrupted(r) && n <= |r.steps|
    ensures Restarts(r, n) == 0
  {
    if n > 0 { NoRestarts(r, n - 1); }
  }

  /** The bound of 544 is reached: a run under both hypotheses, without a restart, in which
      one attempt gets 544 not-found answers in less than 24 hours. The documented schedule
      has room for 94. */
  lemma BoundIsReached() returns (r: Run)
    ensures r.Valid() && Disciplined(r) && Restarts(r, |r.steps|) == 0
    ensures 1 in Last(r).attempts && |Last(r).attempts[1].misses| == 544
    ensures Last(r).attempts[1].attempt.cardToken == TokNetworkError
    ensures Last(r).now < Last(r).attempts[1].attempt.createdAt + DAY_MS
  {
    r := Answers(544);
    NoRestarts(r, |r.steps|);
  }
}

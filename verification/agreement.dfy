/** Agreement with the payment provider in every reachable state: no request, no worker
    and no attempt ever contradicts the outcome that the provider stored. */
module Agreement {
  import opened Types
  import opened Psp
  import opened Protocol
  import opened Bookkeeping

  /** A final status tells what the provider stored, except a failure that the worker
      declared by itself when the attempt expired. */
  ghost predicate Truthful(psp: map<Id, ChargeOutcome>, at: PaymentAttempt) {
    && (at.status == Succeeded ==>
          && at.id in psp
          && psp[at.id].status == OutcomeSucceeded
          && at.pspReference.Some?
          && at.pspReference == psp[at.id].pspRef)
    && (at.status == Failed && at.failureCode != Some(ReconciliationTimeout) ==>
          && at.id in psp
          && psp[at.id].status == OutcomeFailed
          && at.failureCode.Some?
          && at.failureCode == psp[at.id].code)
  }

  ghost predicate AttemptTrue(w: World, a: Id) {
    a in w.attempts ==> Truthful(w.psp, w.attempts[a].attempt)
  }

  /** The reply that a request holds is the stored outcome. */
  ghost predicate ReplyTrue(w: World, r: Id) {
    r in w.requests && w.requests[r].Answered? && Final(w.requests[r].result) ==>
      && w.requests[r].attempt.id in w.psp
      && Reports(w.requests[r].result, w.psp[w.requests[r].attempt.id])
  }

  /** The answer that the worker holds is the stored outcome. */
  ghost predicate PollTrue(w: World) {
    w.worker.Polled? && w.worker.poll.Found? ==>
      && w.worker.head.attemptId in w.psp
      && w.psp[w.worker.head.attemptId] == w.worker.poll.outcome
  }

  ghost predicate Agrees(w: World) {
    && (forall a {:trigger AttemptTrue(w, a)} :: AttemptTrue(w, a))
    && (forall r {:trigger ReplyTrue(w, r)} :: ReplyTrue(w, r))
    && PollTrue(w)
  }

  /** Stored outcomes never change. */
  ghost predicate StoreGrows(w: World, w': World) {
    forall a :: a in w.psp ==> a in w'.psp && w'.psp[a] == w.psp[a]
  }

  lemma StoreGrowsStep(w: World, s: Step, w': World)
    requires Traffic(w) && Next(w, s, w')
    ensures StoreGrows(w, w')
  {
    if s.PspServe? {
      assert UnservedOk(w, s.call);
    } else if s.PaySend? {
    } else {
      TrafficSameStep(w, s, w');
    }
  }

  lemma CallPspTellsTheTruth(o: ChargeOutcome)
    requires WellFormed(o)
    ensures Reports(CallPsp(Http(true, Some(o))), o)
  {
  }

  ghost predicate SameVerdict(p: PaymentAttempt, q: PaymentAttempt) {
    q.id == p.id && q.status == p.status && q.pspReference == p.pspReference && q.failureCode == p.failureCode
  }

  /** Steps that touch no final status, no reply and no poll. */
  ghost predicate VerdictsSame(w: World, w': World) {
    && StoreGrows(w, w')
    && (forall a :: a in w'.attempts ==>
          || w'.attempts[a].attempt.status == Pending
          || (a in w.attempts && SameVerdict(w.attempts[a].attempt, w'.attempts[a].attempt)))
    && (forall r :: r in w'.requests && w'.requests[r].Answered? ==>
          r in w.requests && w.requests[r] == w'.requests[r])
    && (w'.worker.Polled? ==> w'.worker == w.worker)
  }

  lemma AgreesFrame(w: World, w': World)
    requires Agrees(w) && VerdictsSame(w, w')
    ensures Agrees(w')
  {
    forall a ensures AttemptTrue(w', a) { assert AttemptTrue(w, a); }
    forall r ensures ReplyTrue(w', r) { assert ReplyTrue(w, r); }
  }

  lemma VerdictsPay(w: World, s: Step, w': World)
    requires Next(w, s, w') && StoreGrows(w, w')
    requires s.PayLookup? || s.PaySend? || s.PspServe? || s.PayAbort?
    ensures VerdictsSame(w, w')
  {
  }

  lemma VerdictsClaim(w: World, rid: Id, aid: Id, w': World)
    requires PayClaimStep(w, rid, aid, w') && StoreGrows(w, w')
    ensures VerdictsSame(w, w')
  {
  }

  lemma VerdictsWorker(w: World, s: Step, w': World)
    requires Next(w, s, w') && StoreGrows(w, w')
    requires WorkerStep(s) && !s.TickPoll? && !s.TickWrite? && !s.ExpireWrite?
    ensures VerdictsSame(w, w')
  {
    WorkerFootprint(w, s, w');
  }

  lemma AgreesReply(w: World, rid: Id, reply: WireReply, w': World)
    requires Core(w) && Traffic(w) && Agrees(w) && PayReplyStep(w, rid, reply, w')
    ensures Agrees(w')
  {
    forall a ensures AttemptTrue(w', a) { assert AttemptTrue(w, a); }
    forall r ensures ReplyTrue(w', r) {
      assert ReplyTrue(w, r);
      if r == rid && r in w.requests && w.requests[r].Sent? {
        var a := w.requests[r].attempt.id;
        assert OutcomeOk(w, a);
        if a in w.psp { CallPspTellsTheTruth(w.psp[a]); }
      }
    }
  }

  lemma AgreesResolve(w: World, rid: Id, w': World)
    requires Core(w) && Traffic(w) && Agrees(w) && PayResolveStep(w, rid, w')
    ensures Agrees(w')
  {
    assert ReplyTrue(w, rid) && OriginatorOk(w, rid);
    if rid in w.requests && w.requests[rid].Answered? {
      assert RowOk(w, w.requests[rid].attempt.id);
      assert OutcomeOk(w, w.requests[rid].attempt.id);
    }
    forall a ensures AttemptTrue(w', a) { assert AttemptTrue(w, a); }
    forall r ensures ReplyTrue(w', r) { assert ReplyTrue(w, r); }
  }

  lemma AgreesPoll(w: World, poll: Poll, w': World)
    requires Agrees(w) && TickPollStep(w, poll, w')
    ensures Agrees(w')
  {
    forall a ensures AttemptTrue(w', a) { assert AttemptTrue(w, a); }
    forall r ensures ReplyTrue(w', r) { assert ReplyTrue(w, r); }
  }

  lemma AgreesTickWrite(w: World, w': World)
    requires Core(w) && Traffic(w) && Agrees(w) && TickWriteStep(w, w')
    ensures Agrees(w')
  {
    if w.worker.Polled? {
      assert OutcomeOk(w, w.worker.head.attemptId);
      assert RowOk(w, w.worker.head.attemptId);
    }
    forall a ensures AttemptTrue(w', a) { assert AttemptTrue(w, a); }
    forall r ensures ReplyTrue(w', r) { assert ReplyTrue(w, r); }
  }

  lemma AgreesExpireWrite(w: World, w': World)
    requires Agrees(w) && ExpireWriteStep(w, w')
    ensures Agrees(w')
  {
    forall a ensures AttemptTrue(w', a) { assert AttemptTrue(w, a); }
    forall r ensures ReplyTrue(w', r) { assert ReplyTrue(w, r); }
  }

  predicate TellsVerdict(s: Step) {
    s.PayReply? || s.PayResolve? || s.TickPoll? || s.TickWrite? || s.ExpireWrite?
  }

  lemma VerdictsStep(w: World, s: Step, w': World)
    requires Next(w, s, w') && StoreGrows(w, w') && !TellsVerdict(s)
    ensures VerdictsSame(w, w')
  {
    if s.PayClaim? {
      VerdictsClaim(w, s.rid, s.attemptId, w');
    } else if PayStep(s) {
      VerdictsPay(w, s, w');
    } else if WorkerStep(s) {
      VerdictsWorker(w, s, w');
    } else {
      InvoiceFootprint(w, s, w');
    }
  }

  lemma AgreesStep(w: World, s: Step, w': World)
    requires Core(w) && Traffic(w) && Agrees(w) && Next(w, s, w')
    ensures Agrees(w')
  {
    if s.PayReply? {
      AgreesReply(w, s.rid, s.reply, w');
    } else if s.PayResolve? {
      AgreesResolve(w, s.rid, w');
    } else if s.TickPoll? {
      AgreesPoll(w, s.poll, w');
    } else if s.TickWrite? {
      AgreesTickWrite(w, w');
    } else if s.ExpireWrite? {
      AgreesExpireWrite(w, w');
    } else {
      StoreGrowsStep(w, s, w');
      VerdictsStep(w, s, w');
      AgreesFrame(w, w');
    }
  }
  // ----- what clients are told -----

  predicate HasAnswer(pc: PayState) { pc.Completed? || pc.Replayed? }

  /** What a client was told about its attempt, first or in a replay, is what the provider
      stored; the worker's own expiry is never among it. */
  ghost predicate AnswerTrue(w: World, r: Id) {
    r in w.requests && HasAnswer(w.requests[r]) ==>
      && Truthful(w.psp, w.requests[r].response)
      && (w.requests[r].response.status == Failed ==>
            w.requests[r].response.failureCode != Some(ReconciliationTimeout))
  }

  ghost predicate Honest(w: World) { forall r {:trigger AnswerTrue(w, r)} :: AnswerTrue(w, r) }

  lemma HonestFrame(w: World, w': World)
    requires Honest(w) && StoreGrows(w, w')
    requires forall r :: r in w'.requests && HasAnswer(w'.requests[r]) ==>
               r in w.requests && w.requests[r] == w'.requests[r]
    ensures Honest(w')
  {
    forall r ensures AnswerTrue(w', r) { assert AnswerTrue(w, r); }
  }

  lemma NoNewAnswer(w: World, s: Step, w': World)
    requires Next(w, s, w') && !s.PayLookup? && !s.PayResolve?
    ensures forall r :: r in w'.requests && HasAnswer(w'.requests[r]) ==>
              r in w.requests && w.requests[r] == w'.requests[r]
  {
    if PayStep(s) { NoAnswerFromCalls(w, s, w'); }
    else if WorkerStep(s) { WorkerFootprint(w, s, w'); }
    else { InvoiceFootprint(w, s, w'); }
  }

  lemma NoAnswerFromCalls(w: World, s: Step, w': World)
    requires Next(w, s, w') && PayStep(s) && !s.PayLookup? && !s.PayResolve?
    ensures forall r :: r in w'.requests && HasAnswer(w'.requests[r]) ==>
              r in w.requests && w.requests[r] == w'.requests[r]
  {
  }

  /** A record's body is what its originating request stored there. */
  lemma BodyIsRecorded(w: World, k: IdemKey) returns (r: Id)
    requires Core(w) && k in w.records
    ensures r in w.requests && w.requests[r].Originator()
    ensures w.records[k].body == RecordedBody(w.requests[r]) && w.requests[r].attempt.status == Pending
  {
    assert RecordOk(w, k) && RowOk(w, w.records[k].body.id);
    r := w.origin[w.records[k].body.id];
    assert OriginatorOk(w, r);
  }

  lemma HonestLookup(w: World, rid: Id, req: PayRequest, w': World)
    requires Core(w) && Honest(w) && PayLookupStep(w, rid, req, w')
    ensures Honest(w')
  {
    if KeyOf(req) in w.records {
      var q := BodyIsRecorded(w, KeyOf(req));
      assert AnswerTrue(w, q);
    }
    forall r ensures AnswerTrue(w', r) { assert AnswerTrue(w, r); }
  }

  lemma HonestResolve(w: World, rid: Id, w': World)
    requires Core(w) && Traffic(w) && Agrees(w) && Honest(w) && PayResolveStep(w, rid, w')
    ensures Honest(w')
  {
    assert ReplyTrue(w, rid) && OriginatorOk(w, rid);
    if rid in w.requests && w.requests[rid].Answered? {
      assert RowOk(w, w.requests[rid].attempt.id);
      assert OutcomeOk(w, w.requests[rid].attempt.id);
    }
    forall r ensures AnswerTrue(w', r) { assert AnswerTrue(w, r); }
  }

  lemma HonestStep(w: World, s: Step, w': World)
    requires Core(w) && Traffic(w) && Agrees(w) && Honest(w) && Next(w, s, w')
    ensures Honest(w')
  {
    if s.PayLookup? {
      HonestLookup(w, s.rid, s.req, w');
    } else if s.PayResolve? {
      HonestResolve(w, s.rid, w');
    } else {
      StoreGrowsStep(w, s, w');
      NoNewAnswer(w, s, w');
      HonestFrame(w, w');
    }
  }
}

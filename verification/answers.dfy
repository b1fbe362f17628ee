/** What a pay request does at each of its steps and what its client is told, stated field by
    field; and what the provider stores for which card. */
module Answers {
  import opened Types
  import opened Psp
  import opened Protocol
  import opened Bookkeeping
  import Agreement
  import opened Guarantees

  // ----- lookup -----

  /** A fresh request is a replay exactly when its key has a record younger than 24 hours,
      and then it is answered with the body of that record. */
  lemma LookupReplaysIffYoung(w: World, rid: Id, req: PayRequest, w': World)
    requires Next(w, PayLookup(rid, req), w') && rid !in w.requests
    ensures var k := IdemKey(req.key, req.businessId, req.invoiceId);
            && rid in w'.requests
            && (w'.requests[rid].Replayed? <==> k in w.records && w.now < w.records[k].createdAt + 86_400_000)
            && (w'.requests[rid].Replayed? ==> w'.requests[rid] == Replayed(req, w.records[k].body))
            && (!w'.requests[rid].Replayed? ==> w'.requests[rid] == Looked(req))
            && w'.invoices == w.invoices && w'.attempts == w.attempts && w'.records == w.records && w'.calls == w.calls
  {
  }

  // ----- claim -----

  /** When the first transaction commits. */
  predicate ClaimAdmitted(w: World, req: PayRequest, aid: Id) {
    && req.invoiceId in w.invoices && w.invoices[req.invoiceId].state == Open
    && w.invoices[req.invoiceId].versioning == req.versioning < 2147483647
    && aid !in w.attempts
    && IdemKey(req.key, req.businessId, req.invoiceId) !in w.records
  }

  /** The new attempt: pending, for the request's invoice and card, created now. */
  predicate FreshAttempt(at: PaymentAttempt, req: PayRequest, aid: Id, now: int) {
    && at.id == aid && at.invoiceId == req.invoiceId && at.status == Pending && at.cardToken == req.cardToken
    && at.pspReference == None && at.failureCode == None && at.createdAt == now == at.updatedAt
  }

  lemma ClaimCommits(w: World, rid: Id, req: PayRequest, aid: Id, w': World)
    requires Next(w, PayClaim(rid, aid), w') && rid in w.requests && w.requests[rid] == Looked(req)
    ensures rid in w'.requests
    ensures w'.requests[rid].Claimed? <==> ClaimAdmitted(w, req, aid)
    ensures w'.requests[rid].Claimed? ==>
              var k := IdemKey(req.key, req.businessId, req.invoiceId);
              && w'.requests[rid].req == req
              && aid in w'.attempts && w'.attempts[aid].attempt == w'.requests[rid].attempt
              && FreshAttempt(w'.attempts[aid].attempt, req, aid, w.now)
              && w'.attempts[aid].retryCount == 0 && w'.attempts[aid].nextRetryAt == None
              && k in w'.records && w'.records[k].body == w'.attempts[aid].attempt
              && w'.records[k].responseStatus == 0 && w'.records[k].createdAt == w.now
              && req.invoiceId in w'.invoices && w'.invoices[req.invoiceId].state == Processing
              && w'.invoices[req.invoiceId].versioning == req.versioning + 1
    ensures !w'.requests[rid].Claimed? ==>
              && w'.invoices == w.invoices && w'.attempts == w.attempts && w'.records == w.records
              && w'.requests[rid] ==
                 if req.invoiceId in w.invoices && w.invoices[req.invoiceId].state == Open
                    && w.invoices[req.invoiceId].versioning == req.versioning
                 then Rejected(req, DatabaseError) else Rejected(req, Conflict)
  {
  }

  // ----- charge call -----

  /** The request calls the provider once it has claimed, for its attempt and its card. */
  lemma SendCalls(w: World, rid: Id, w': World)
    requires Core(w) && Next(w, PaySend(rid), w') && rid in w.requests && w.requests[rid].Claimed?
    ensures var pc := w.requests[rid];
            && rid in w'.requests && w'.requests[rid] == Sent(pc.req, pc.attempt)
            && |w'.calls| == |w.calls| + 1 && w'.calls[..|w.calls|] == w.calls
            && w'.calls[|w.calls|].attemptId == pc.attempt.id && pc.attempt.id in w.attempts
            && w'.calls[|w.calls|].cardToken == w.attempts[pc.attempt.id].attempt.cardToken == pc.req.cardToken
            && w'.psp == w.psp && w'.attempts == w.attempts && w'.invoices == w.invoices
  {
    assert OriginatorOk(w, rid);
  }

  // ----- reply -----

  /** What the client makes of a reply, of whatever kind. */
  lemma ReplyIsRead(reply: WireReply)
    ensures var result := CallPsp(reply);
            && (result == TimedOut <==> reply == NoReply)
            && (result.ChargeSucceeded? <==>
                  reply.Http? && reply.ok && reply.body.Some? && reply.body.value.status == OutcomeSucceeded)
            && (result.ChargeFailed? <==>
                  reply.Http? && reply.ok && reply.body.Some? && reply.body.value.status != OutcomeSucceeded)
            && (result.ChargeSucceeded? ==>
                  && (reply.body.value.pspRef.Some? ==> result.pspRef == reply.body.value.pspRef.value)
                  && (reply.body.value.pspRef.None? ==> result.pspRef == ""))
            && (result.ChargeFailed? ==>
                  && (reply.body.value.code.Some? ==> result.code == reply.body.value.code.value)
                  && (reply.body.value.code.None? ==> result.code == UnknownCode))
  {
  }

  /** In every run a readable reply gives the request the outcome that the provider stores,
      with its reference or code, and any other reply gives it none. */
  lemma ReplyGivesOutcome(r: Run, n: nat, rid: Id, reply: WireReply)
    requires r.Valid() && n < |r.steps| && r.steps[n] == PayReply(rid, reply)
    requires rid in r.worlds[n].requests && r.worlds[n].requests[rid].Sent?
    requires rid in r.worlds[n + 1].requests && r.worlds[n + 1].requests[rid].Answered?
    ensures var w, pc := r.worlds[n], r.worlds[n + 1].requests[rid];
            && pc.req == w.requests[rid].req && pc.attempt == w.requests[rid].attempt
            && (reply.Http? && reply.ok && reply.body.Some? <==> pc.result.ChargeSucceeded? || pc.result.ChargeFailed?)
            && (pc.result.ChargeSucceeded? || pc.result.ChargeFailed? ==>
                  && pc.attempt.id in w.psp
                  && (w.psp[pc.attempt.id].status == OutcomeSucceeded <==> pc.result.ChargeSucceeded?)
                  && (pc.result.ChargeSucceeded? ==> w.psp[pc.attempt.id].pspRef == Some(pc.result.pspRef))
                  && (pc.result.ChargeFailed? ==> w.psp[pc.attempt.id].code == Some(pc.result.code)))
  {
    SoundRun(r, n);
    assert r.StepAt(n);
    ReplyOutcome(r.worlds[n], rid, reply, r.worlds[n + 1]);
  }

  lemma ReplyOutcome(w: World, rid: Id, reply: WireReply, w': World)
    requires Traffic(w) && Next(w, PayReply(rid, reply), w') && rid in w.requests && w.requests[rid].Sent?
    requires rid in w'.requests && w'.requests[rid].Answered?
    ensures var pc := w'.requests[rid];
            && pc.req == w.requests[rid].req && pc.attempt == w.requests[rid].attempt
            && (reply.Http? && reply.ok && reply.body.Some? <==> pc.result.ChargeSucceeded? || pc.result.ChargeFailed?)
            && (pc.result.ChargeSucceeded? || pc.result.ChargeFailed? ==>
                  && pc.attempt.id in w.psp
                  && (w.psp[pc.attempt.id].status == OutcomeSucceeded <==> pc.result.ChargeSucceeded?)
                  && (pc.result.ChargeSucceeded? ==> w.psp[pc.attempt.id].pspRef == Some(pc.result.pspRef))
                  && (pc.result.ChargeFailed? ==> w.psp[pc.attempt.id].code == Some(pc.result.code)))
  {
    ReplyIsRead(reply);
    assert OutcomeOk(w, w.requests[rid].attempt.id);
  }

  // ----- answer -----

  /** The client is told, and the record keeps, what the attempt's row says after the step:
      the success with its reference or the failure with its code, and the pending snapshot
      exactly when the result is a timeout or a network error. */
  ghost predicate Told(w: World, rid: Id, w': World)
    requires rid in w.requests && w.requests[rid].Answered?
    requires rid in w'.requests && w'.requests[rid].Completed?
  {
    var pc, told := w.requests[rid], w'.requests[rid].response;
    var k := IdemKey(pc.req.key, pc.req.businessId, pc.req.invoiceId);
    && w'.requests[rid].req == pc.req && w'.requests[rid].attempt == pc.attempt
    && k in w'.records && w'.records[k].body == told && w'.records[k].updatedAt == w.now
    && w'.records[k].responseStatus == (if pc.result.TimedOut? || pc.result.NetworkError? then 202 else 200)
    && told.id == pc.attempt.id
    && (told.status == Pending <==> pc.result.TimedOut? || pc.result.NetworkError?)
    && (told.status == Pending ==> told == pc.attempt && w'.attempts == w.attempts && w'.invoices == w.invoices)
    && (told.status != Pending ==>
          && told.id in w'.attempts && w'.attempts[told.id].attempt == told && told.updatedAt == w.now
          && pc.req.invoiceId in w'.invoices)
    && (pc.result.ChargeSucceeded? ==>
          && told.status == Succeeded && told.pspReference == Some(pc.result.pspRef)
          && w'.invoices[pc.req.invoiceId].state == Paid)
    && (pc.result.ChargeFailed? ==>
          && told.status == Failed && told.failureCode == Some(pc.result.code)
          && w'.invoices[pc.req.invoiceId].state == Open)
  }

  /** In every run a request that holds a result is completed by its last step and told the
      result, unless the result is final and the invoice's version is at its maximum: then
      the transaction fails and changes nothing. */
  lemma ResultIsTold(r: Run, n: nat, rid: Id)
    requires r.Valid() && n < |r.steps| && r.steps[n] == PayResolve(rid)
    requires rid in r.worlds[n].requests && r.worlds[n].requests[rid].Answered?
    ensures var w, w', pc := r.worlds[n], r.worlds[n + 1], r.worlds[n].requests[rid];
            && rid in w'.requests && pc.req.invoiceId in w.invoices
            && (w'.requests[rid].Completed? <==>
                  pc.result.TimedOut? || pc.result.NetworkError? || w.invoices[pc.req.invoiceId].versioning < 2147483647)
            && (w'.requests[rid].Completed? ==> Told(w, rid, w'))
            && (!w'.requests[rid].Completed? ==>
                  w'.invoices == w.invoices && w'.attempts == w.attempts && w'.records == w.records)
  {
    SoundRun(r, n);
    assert r.StepAt(n);
    ResolveTells(r.worlds[n], rid, r.worlds[n + 1]);
  }

  lemma ResolveTells(w: World, rid: Id, w': World)
    requires Core(w) && Next(w, PayResolve(rid), w') && rid in w.requests && w.requests[rid].Answered?
    ensures var pc := w.requests[rid];
            && rid in w'.requests && pc.req.invoiceId in w.invoices
            && (w'.requests[rid].Completed? <==>
                  pc.result.TimedOut? || pc.result.NetworkError? || w.invoices[pc.req.invoiceId].versioning < 2147483647)
            && (w'.requests[rid].Completed? ==> Told(w, rid, w'))
            && (!w'.requests[rid].Completed? ==>
                  w'.invoices == w.invoices && w'.attempts == w.attempts && w'.records == w.records)
  {
    assert OriginatorOk(w, rid) && RowOk(w, w.requests[rid].attempt.id);
  }

  /** Nothing else completes a request, so every answer that is not a replay is told so. */
  lemma OnlyResolveCompletes(w: World, s: Step, w': World, rid: Id)
    requires Next(w, s, w') && rid in w'.requests && w'.requests[rid].Completed?
    requires rid !in w.requests || !w.requests[rid].Completed?
    ensures s == PayResolve(rid) && rid in w.requests && w.requests[rid].Answered?
  {
    if PayStep(s) { CompletedByPay(w, s, w', rid); }
    else if WorkerStep(s) { WorkerFootprint(w, s, w'); }
    else { InvoiceFootprint(w, s, w'); }
  }

  lemma CompletedByPay(w: World, s: Step, w': World, rid: Id)
    requires Next(w, s, w') && PayStep(s) && rid in w'.requests && w'.requests[rid].Completed?
    requires rid !in w.requests || !w.requests[rid].Completed?
    ensures s == PayResolve(rid) && rid in w.requests && w.requests[rid].Answered?
  {
  }

  // ----- cards -----

  predicate Charging(t: CardToken) { t == TokSuccess || t == TokTimeout }

  predicate Declining(t: CardToken) { t == TokInsufficientFunds || t == TokCardDeclined }

  /** The outcome o suits the card t. */
  predicate Suits(o: ChargeOutcome, t: CardToken) {
    && (o.status == OutcomeSucceeded <==> Charging(t))
    && (o.status == OutcomeFailed <==> Declining(t))
    && (o.status == OutcomeSucceeded ==> o.pspRef.Some? && o.code == None)
    && (o.status == OutcomeFailed ==> o.pspRef == None)
    && (o.code == Some(InsufficientFunds) <==> t == TokInsufficientFunds)
    && (o.code == Some(CardDeclined) <==> t == TokCardDeclined)
    && (Charging(t) || Declining(t))
  }

  ghost predicate CardCharged(w: World, j: int) {
    0 <= j < |w.calls| ==>
      && w.calls[j].attemptId in w.attempts
      && w.calls[j].cardToken == w.attempts[w.calls[j].attemptId].attempt.cardToken
      && (j in w.served && (Charging(w.calls[j].cardToken) || Declining(w.calls[j].cardToken)) ==>
            w.calls[j].attemptId in w.psp)
  }

  ghost predicate OutcomeSuits(w: World, a: Id) {
    a in w.psp ==> a in w.attempts && Suits(w.psp[a], w.attempts[a].attempt.cardToken)
  }

  ghost predicate CardsRight(w: World) {
    && (forall j {:trigger CardCharged(w, j)} :: CardCharged(w, j))
    && (forall a {:trigger OutcomeSuits(w, a)} :: OutcomeSuits(w, a))
  }

  lemma CardsFrame(w: World, w': World)
    requires CardsRight(w) && AttemptsKept(w, w') && w'.calls == w.calls && w'.psp == w.psp && w'.served == w.served
    ensures CardsRight(w')
  {
    forall j ensures CardCharged(w', j) { assert CardCharged(w, j); }
    forall a ensures OutcomeSuits(w', a) { assert OutcomeSuits(w, a); }
  }

  lemma CardsSend(w: World, rid: Id, w': World)
    requires Core(w) && CardsRight(w) && Next(w, PaySend(rid), w') && forall j :: j in w.served ==> j < |w.calls|
    ensures CardsRight(w')
  {
    assert OriginatorOk(w, rid);
    forall j ensures CardCharged(w', j) { assert CardCharged(w, j); }
    forall a ensures OutcomeSuits(w', a) { assert OutcomeSuits(w, a); }
  }

  /** Serving a call stores what suits its card, with the reference made for it. */
  lemma CardsServe(w: World, k: nat, ref: string, w': World)
    requires CardsRight(w) && Next(w, PspServe(k, ref), w')
    ensures CardsRight(w')
    ensures k < |w.calls| && k !in w.served && Charging(w.calls[k].cardToken) ==>
              w.calls[k].attemptId in w'.psp && w'.psp[w.calls[k].attemptId].pspRef == Some(ref)
  {
    assert CardCharged(w, k);
    forall j ensures CardCharged(w', j) { assert CardCharged(w, j); }
    forall a ensures OutcomeSuits(w', a) { assert OutcomeSuits(w, a); }
  }

  ghost predicate ServedMade(w: World) { forall j :: j in w.served ==> j < |w.calls| }

  lemma CardsStep(w: World, s: Step, w': World)
    requires Core(w) && CardsRight(w) && ServedMade(w) && Next(w, s, w')
    ensures CardsRight(w') && ServedMade(w')
  {
    if s.PaySend? {
      CardsSend(w, s.rid, w');
    } else if s.PspServe? {
      CardsServe(w, s.call, s.ref, w');
    } else {
      AttemptsKeptStep(w, s, w');
      TrafficSameStep(w, s, w');
      CardsFrame(w, w');
    }
  }

  lemma {:induction false} CardsRun(r: Run, n: nat)
    requires r.Valid() && n <= |r.steps|
    ensures CardsRight(r.worlds[n]) && ServedMade(r.worlds[n])
  {
    if n > 0 {
      CardsRun(r, n - 1);
      SoundRun(r, n - 1);
      assert r.StepAt(n - 1);
      CardsStep(r.worlds[n - 1], r.steps[n - 1], r.worlds[n]);
    }
  }

  /** In every run each stored outcome suits the card of its attempt: a success for exactly
      the two tokens that charge, a failure with the right code for exactly the two that
      decline, and none for the others; and every served call of those four is stored. */
  lemma OutcomesSuitCards(r: Run, n: nat)
    requires r.Valid() && n <= |r.steps|
    ensures var w := r.worlds[n];
            && (forall a :: a in w.psp ==> a in w.attempts && Suits(w.psp[a], w.attempts[a].attempt.cardToken))
            && (forall j :: 0 <= j < |w.calls| && j in w.served ==>
                  && w.calls[j].attemptId in w.attempts
                  && w.calls[j].cardToken == w.attempts[w.calls[j].attemptId].attempt.cardToken
                  && (w.calls[j].attemptId in w.psp <==>
                        Charging(w.calls[j].cardToken) || Declining(w.calls[j].cardToken)))
  {
    CardsRun(r, n);
    var w := r.worlds[n];
    forall a | a in w.psp ensures a in w.attempts && Suits(w.psp[a], w.attempts[a].attempt.cardToken) {
      assert OutcomeSuits(w, a);
    }
    forall j | 0 <= j < |w.calls| && j in w.served
      ensures && w.calls[j].attemptId in w.attempts
              && w.calls[j].cardToken == w.attempts[w.calls[j].attemptId].attempt.cardToken
              && (w.calls[j].attemptId in w.psp <==>
                    Charging(w.calls[j].cardToken) || Declining(w.calls[j].cardToken))
    {
      assert CardCharged(w, j) && OutcomeSuits(w, w.calls[j].attemptId);
    }
  }

  /** So an attempt with any card but those two never succeeds and never charges anyone, and
      one with a card that charges is never declined. */
  lemma OnlyChargingCardsPay(r: Run, n: nat, a: Id)
    requires r.Valid() && n <= |r.steps| && a in r.worlds[n].attempts
    ensures var w, at := r.worlds[n], r.worlds[n].attempts[a].attempt;
            && (at.status == Succeeded || a in ChargedFor(w, at.invoiceId) ==> Charging(at.cardToken))
            && (at.status == Failed && !Expired(at) ==> Declining(at.cardToken))
  {
    CardsRun(r, n);
    StatusesMatchOutcomes(r, n, a);
    assert OutcomeSuits(r.worlds[n], a);
  }
}

/** Runs that show why the hypotheses are there: concrete sequences of steps of the program
    after which a guarantee has failed. */
module Witnesses {
  import opened Types
  import opened Psp
  import opened Protocol
  import opened Effects
  import opened Ownership
  import opened Guarantees
  import Money

  function Last(r: Run): World
    requires r.worlds != []
  {
    r.worlds[|r.worlds| - 1]
  }

  function Extend(r: Run, s: Step, w: World): Run { Run(r.worlds + [w], r.steps + [s]) }

  ghost predicate Honest(r: Run)
    requires |r.worlds| == |r.steps| + 1
  {
    forall n :: 0 <= n < |r.steps| ==> HonestVersion(r.worlds[n], r.steps[n])
  }

  /** The process is never restarted. */
  ghost predicate Uninterrupted(r: Run) {
    forall n :: 0 <= n < |r.steps| ==> !r.steps[n].WorkerRestart?
  }

  lemma ExtendValid(r: Run, s: Step, w: World)
    requires r.Valid() && Next(Last(r), s, w)
    ensures Extend(r, s, w).Valid() && Last(Extend(r, s, w)) == w
    ensures Honest(r) && HonestVersion(Last(r), s) ==> Honest(Extend(r, s, w))
    ensures Disciplined(r) && SingleResolution(Last(r), s) && HonestVersion(Last(r), s) ==>
              Disciplined(Extend(r, s, w))
    ensures Uninterrupted(r) && !s.WorkerRestart? ==> Uninterrupted(Extend(r, s, w))
  {
    var e := Extend(r, s, w);
    forall n | 0 <= n < |e.steps| ensures e.StepAt(n) {
      if n < |r.steps| { assert r.StepAt(n); }
    }
  }

  /** `r'` is a valid continuation of `r` that keeps the hypotheses r satisfied. */
  ghost predicate Continues(r: Run, r': Run) {
    && r.Valid() && r'.Valid()
    && (Honest(r) ==> Honest(r'))
    && (Uninterrupted(r) ==> Uninterrupted(r'))
  }

  lemma Append(r: Run, s: Step, w: World) returns (r': Run)
    requires r.Valid() && Next(Last(r), s, w) && HonestVersion(Last(r), s) && !s.WorkerRestart?
    ensures Continues(r, r') && Last(r') == w
    ensures Disciplined(r) && SingleResolution(Last(r), s) ==> Disciplined(r')
  {
    r' := Extend(r, s, w);
    ExtendValid(r, s, w);
  }

  // ----- the steps of one pay request -----

  lemma Lookup(r: Run, rid: Id, req: PayRequest) returns (r': Run)
    requires r.Valid() && rid !in Last(r).requests && KeyOf(req) !in Last(r).records
    ensures Continues(r, r') && (Disciplined(r) ==> Disciplined(r'))
    ensures PayLookupStep(Last(r), rid, req, Last(r'))
  {
    var w := Last(r);
    r' := Append(r, PayLookup(rid, req), w.(requests := w.requests[rid := Looked(req)]));
  }

  lemma Claim(r: Run, rid: Id, aid: Id) returns (r': Run)
    requires r.Valid() && Claims(Last(r), PayClaim(rid, aid))
    ensures Continues(r, r') && (Disciplined(r) ==> Disciplined(r'))
    ensures PayClaimStep(Last(r), rid, aid, Last(r'))
  {
    var w := Last(r);
    var req := w.requests[rid].req;
    var attempt := PendingAttempt(req, aid, w.now);
    var w' := w.(invoices := w.invoices[req.invoiceId := Bumped(w.invoices[req.invoiceId], Processing)],
                 attempts := w.attempts[aid := AttemptRow(attempt, 0, None, [])],
                 records := w.records[KeyOf(req) := IdemRecord(attempt, 0, w.now, w.now)],
                 requests := w.requests[rid := Claimed(req, attempt)],
                 origin := w.origin[aid := rid],
                 lastClaim := w.lastClaim[req.invoiceId := aid]);
    r' := Append(r, PayClaim(rid, aid), w');
  }

  lemma Send(r: Run, rid: Id) returns (r': Run)
    requires r.Valid() && rid in Last(r).requests && Last(r).requests[rid].Claimed?
    ensures Continues(r, r') && (Disciplined(r) ==> Disciplined(r'))
    ensures PaySendStep(Last(r), rid, Last(r'))
  {
    var w := Last(r);
    var pc := w.requests[rid];
    r' := Append(r, PaySend(rid), w.(requests := w.requests[rid := Sent(pc.req, pc.attempt)],
                                     calls := w.calls + [ChargeCall(pc.attempt.id, pc.req.cardToken)]));
  }

  lemma Serve(r: Run, k: nat, ref: string) returns (r': Run)
    requires r.Valid() && k < |Last(r).calls| && k !in Last(r).served
    requires StoredOutcome(Last(r).calls[k].cardToken, ref).Some?
    ensures Continues(r, r') && (Disciplined(r) ==> Disciplined(r'))
    ensures PspServeStep(Last(r), k, ref, Last(r'))
  {
    var w := Last(r);
    r' := Append(r, PspServe(k, ref),
                 w.(served := w.served + {k},
                    psp := w.psp[w.calls[k].attemptId := StoredOutcome(w.calls[k].cardToken, ref).value]));
  }

  lemma Reply(r: Run, rid: Id, reply: WireReply) returns (r': Run)
    requires r.Valid() && rid in Last(r).requests && Last(r).requests[rid].Sent?
    requires ReplyPossible(Last(r).psp, Last(r).requests[rid].attempt, reply)
    ensures Continues(r, r') && (Disciplined(r) ==> Disciplined(r'))
    ensures PayReplyStep(Last(r), rid, reply, Last(r'))
  {
    var w := Last(r);
    var pc := w.requests[rid];
    r' := Append(r, PayReply(rid, reply),
                 w.(requests := w.requests[rid := Answered(pc.req, pc.attempt, CallPsp(reply))]));
  }

  lemma Resolve(r: Run, rid: Id) returns (r': Run)
    requires r.Valid() && WriteOf(Last(r), PayResolve(rid)).FinalWrite?
    ensures Continues(r, r')
    ensures Disciplined(r) && SingleResolution(Last(r), PayResolve(rid)) ==> Disciplined(r')
    ensures Settled(Last(r), rid, Last(r'))
  {
    var w := Last(r);
    var pc := w.requests[rid];
    var row := Resolved(w.attempts[pc.attempt.id], pc.result, w.now);
    var w' := w.(attempts := w.attempts[pc.attempt.id := row],
                 invoices := w.invoices[pc.req.invoiceId :=
                   Bumped(w.invoices[pc.req.invoiceId], if pc.result.ChargeSucceeded? then Paid else Open)],
                 records := WithResponse(w.records, KeyOf(pc.req), row.attempt, 200, w.now),
                 requests := w.requests[rid := Completed(pc.req, pc.attempt, row.attempt)]);
    r' := Append(r, PayResolve(rid), w');
  }

  /** A request that is free to pay invoice 1 at its current version. */
  ghost predicate CanPay(w: World, rid: Id, aid: Id, req: PayRequest) {
    && rid !in w.requests && aid !in w.attempts && KeyOf(req) !in w.records
    && req.invoiceId in w.invoices
    && w.invoices[req.invoiceId].state == Open
    && w.invoices[req.invoiceId].versioning == req.versioning < MAX_I32
    && forall k :: k in w.served ==> k < |w.calls|
  }

  /** The tables after a request has claimed, called, and been served by the provider. */
  ghost predicate Charged(w: World, rid: Id, aid: Id, req: PayRequest, ref: string, w': World) {
    && w'.now == w.now && w'.ops == w.ops && w'.worker == w.worker
    && req.invoiceId in w.invoices
    && w'.invoices == w.invoices[req.invoiceId := Bumped(w.invoices[req.invoiceId], Processing)]
    && w'.attempts == w.attempts[aid := AttemptRow(PendingAttempt(req, aid, w.now), 0, None, [])]
    && w'.records.Keys == w.records.Keys + {KeyOf(req)}
    && w'.requests == w.requests[rid := Sent(req, PendingAttempt(req, aid, w.now))]
    && StoredOutcome(req.cardToken, ref).Some?
    && w'.psp == w.psp[aid := StoredOutcome(req.cardToken, ref).value]
    && forall k :: k in w'.served ==> k < |w'.calls|
  }

  lemma Charge(r: Run, rid: Id, aid: Id, req: PayRequest, ref: string) returns (r': Run)
    requires r.Valid() && CanPay(Last(r), rid, aid, req) && StoredOutcome(req.cardToken, ref).Some?
    ensures Continues(r, r') && (Disciplined(r) ==> Disciplined(r'))
    ensures Charged(Last(r), rid, aid, req, ref, Last(r'))
  {
    var r1 := Reserve(r, rid, aid, req);
    r' := CallAndServe(r1, rid, ref);
  }

  lemma CallAndServe(r: Run, rid: Id, ref: string) returns (r': Run)
    requires r.Valid() && rid in Last(r).requests && Last(r).requests[rid].Claimed?
    requires forall k :: k in Last(r).served ==> k < |Last(r).calls|
    requires StoredOutcome(Last(r).requests[rid].req.cardToken, ref).Some?
    ensures Continues(r, r') && (Disciplined(r) ==> Disciplined(r'))
    ensures var w, w', pc := Last(r), Last(r'), Last(r).requests[rid];
            && w'.now == w.now && w'.ops == w.ops && w'.worker == w.worker
            && w'.invoices == w.invoices && w'.attempts == w.attempts && w'.records == w.records
            && w'.requests == w.requests[rid := Sent(pc.req, pc.attempt)]
            && w'.psp == w.psp[pc.attempt.id := StoredOutcome(pc.req.cardToken, ref).value]
            && forall k :: k in w'.served ==> k < |w'.calls|
  {
    var r1 := Send(r, rid);
    r' := Serve(r1, |Last(r).calls|, ref);
  }

  lemma Reserve(r: Run, rid: Id, aid: Id, req: PayRequest) returns (r': Run)
    requires r.Valid() && CanPay(Last(r), rid, aid, req)
    ensures Continues(r, r') && (Disciplined(r) ==> Disciplined(r'))
    ensures var w, w' := Last(r), Last(r');
            && w'.now == w.now && w'.ops == w.ops && w'.worker == w.worker && w'.psp == w.psp
            && w'.calls == w.calls && w'.served == w.served
            && w'.invoices == w.invoices[req.invoiceId := Bumped(w.invoices[req.invoiceId], Processing)]
            && w'.attempts == w.attempts[aid := AttemptRow(PendingAttempt(req, aid, w.now), 0, None, [])]
            && w'.records.Keys == w.records.Keys + {KeyOf(req)}
            && w'.requests == w.requests[rid := Claimed(req, PendingAttempt(req, aid, w.now))]
  {
    var r1 := Lookup(r, rid, req);
    r' := Claim(r1, rid, aid);
  }

  /** The tables after a request has received and recorded the stored outcome. */
  ghost predicate Settled(w: World, rid: Id, w': World)
    requires rid in w.requests && w.requests[rid].Answered?
  {
    var pc := w.requests[rid];
    && w'.now == w.now && w'.worker == w.worker && w'.psp == w.psp
    && pc.attempt.id in w.attempts && pc.req.invoiceId in w.invoices
    && w'.invoices == w.invoices[pc.req.invoiceId :=
         Bumped(w.invoices[pc.req.invoiceId], if pc.result.ChargeSucceeded? then Paid else Open)]
    && w'.attempts == w.attempts[pc.attempt.id := Resolved(w.attempts[pc.attempt.id], pc.result, w.now)]
    && w'.records.Keys == w.records.Keys
    && w'.requests.Keys == w.requests.Keys
    && (forall r :: r in w.requests && r != rid ==> w'.requests[r] == w.requests[r])
    && w'.calls == w.calls && w'.served == w.served
  }

  /** A request whose success the provider has stored receives it and records it. */
  lemma SettleSuccess(r: Run, rid: Id, ref: string) returns (r': Run)
    requires r.Valid() && rid in Last(r).requests && Last(r).requests[rid].Sent?
    requires var pc := Last(r).requests[rid];
             && pc.attempt.id in Last(r).psp && pc.attempt.cardToken == TokSuccess
             && Last(r).psp[pc.attempt.id] == ChargeOutcome(OutcomeSucceeded, Some(ref), None)
             && pc.attempt.id in Last(r).attempts && pc.req.invoiceId in Last(r).invoices
             && CanBump(Last(r).invoices[pc.req.invoiceId])
    ensures Continues(r, r')
    ensures var w, w', pc := Last(r), Last(r'), Last(r).requests[rid];
            && w'.now == w.now && w'.psp == w.psp
            && w'.invoices == w.invoices[pc.req.invoiceId := Bumped(w.invoices[pc.req.invoiceId], Paid)]
            && w'.attempts == w.attempts[pc.attempt.id :=
                 Resolved(w.attempts[pc.attempt.id], ChargeSucceeded(ref), w.now)]
            && w'.requests.Keys == w.requests.Keys
            && (forall q :: q in w.requests && q != rid ==> w'.requests[q] == w.requests[q])
  {
    var reply := Http(true, Some(Last(r).psp[Last(r).requests[rid].attempt.id]));
    var r1 := Reply(r, rid, reply);
    r' := Resolve(r1, rid);
  }

  const WITNESS_ITEMS: seq<LineItem> := [LineItem(2, 5000)]
  const FINALIZED: Invoice := Invoice(7, Open, 10000, 0, 2, WITNESS_ITEMS)

  function Drafted(): World {
    Init().(invoices := map[1 := FINALIZED.(state := Draft, versioning := 1)], ops := map[1 := OpDone])
  }

  lemma Drafts() returns (r: Run)
    ensures r.Valid() && Honest(r) && Disciplined(r) && Uninterrupted(r) && Last(r) == Drafted()
  {
    var start := Run([Init()], []);
    assert Money.FoldFrom(10000, WITNESS_ITEMS[1..]) == 10000;
    assert Money.MachineTotal(WITNESS_ITEMS) == 10000;
    r := Append(start, Create(1, 1, 7, true, WITNESS_ITEMS, 0, 0), Drafted());
  }

  lemma Selects(r: Run, op: Id, v: int) returns (r': Run)
    requires r.Valid() && op !in Last(r).ops && 1 in Last(r).invoices
    requires Last(r).invoices[1].businessId == 7 && Last(r).invoices[1].state == Draft
    ensures r'.Valid() && FinalizeSelectStep(Last(r), op, 1, 7, v, Last(r'))
    ensures v <= Last(r).invoices[1].versioning ==>
              (Honest(r) ==> Honest(r')) && (Disciplined(r) ==> Disciplined(r'))
    ensures Uninterrupted(r) ==> Uninterrupted(r')
  {
    var w := Last(r);
    var w' := w.(ops := w.ops[op := FinalizeReady(1, 7, v)]);
    r' := Extend(r, FinalizeSelect(op, 1, 7, v), w');
    ExtendValid(r, FinalizeSelect(op, 1, 7, v), w');
  }

  lemma Updates(r: Run, op: Id) returns (r': Run)
    requires r.Valid() && OpCommits(Last(r), OpUpdate(op))
    ensures Continues(r, r') && (Disciplined(r) ==> Disciplined(r'))
    ensures OpUpdateStep(Last(r), op, Last(r'))
  {
    var w := Last(r);
    var o := w.ops[op];
    r' := Append(r, OpUpdate(op), w.(ops := w.ops[op := OpDone],
                                     invoices := w.invoices[o.invoiceId :=
                                       Bumped(w.invoices[o.invoiceId], OpTarget(o))]));
  }

  /** A fresh system with one finalized invoice, number 1, at version 2. */
  ghost predicate Opened(w: World) {
    && w.now == 0 && w.worker == Idle(0)
    && w.invoices == map[1 := FINALIZED]
    && w.attempts == map[] && w.records == map[] && w.psp == map[] && w.requests == map[]
    && w.served == {}
  }

  lemma Opens() returns (r: Run)
    ensures r.Valid() && Honest(r) && Disciplined(r) && Uninterrupted(r) && Opened(Last(r))
  {
    var r1 := Drafts();
    var r2 := Selects(r1, 2, 1);
    r := Updates(r2, 2);
  }

  function PayBy(key: string, token: CardToken, v: int): PayRequest { PayRequest(1, 7, key, token, v) }

  /** The worker finds the only attempt declined and reopens the invoice. */
  lemma TickDeclines(r: Run, aid: Id) returns (r': Run)
    requires r.Valid() && Last(r).worker == Idle(0) && Last(r).now >= 0 && Last(r).attempts.Keys == {aid}
    requires Due(Last(r).attempts, Last(r).now, aid) && Last(r).attempts[aid].attempt.invoiceId == 1
    requires 1 in Last(r).invoices && Last(r).invoices[1].state == Processing
    requires aid in Last(r).psp && Last(r).psp[aid].status == OutcomeFailed
    ensures Continues(r, r')
    ensures var w, w' := Last(r), Last(r');
            && w'.now == w.now && w'.records == w.records && w'.requests == w.requests
            && w'.psp == w.psp && w'.calls == w.calls && w'.served == w.served
            && w'.attempts == w.attempts[aid := Reconciled(w.attempts[aid], w.psp[aid], w.now)]
            && w'.invoices == w.invoices[1 := w.invoices[1].(state := Open)]
  {
    var r1 := TickAsks(r, aid);
    r' := TickRecords(r1, aid);
  }

  lemma TickAsks(r: Run, aid: Id) returns (r': Run)
    requires r.Valid() && Last(r).worker == Idle(0) && Last(r).now >= 0 && Last(r).attempts.Keys == {aid}
    requires Due(Last(r).attempts, Last(r).now, aid) && aid in Last(r).psp
    ensures Continues(r, r')
    ensures Last(r') == Last(r).(worker := Polled(SnapshotOf(Last(r).attempts, aid), Found(Last(r).psp[aid]), []))
  {
    var w := Last(r);
    var rows := [SnapshotOf(w.attempts, aid)];
    assert rows[0].attemptId == aid;
    assert Listed(rows, aid);
    var r1 := Append(r, TickSelect(rows), w.(worker := Reconciling(rows)));
    assert rows[1..] == [];
    r' := Append(r1, TickPoll(Found(w.psp[aid])), w.(worker := Polled(rows[0], Found(w.psp[aid]), [])));
  }

  lemma TickRecords(r: Run, aid: Id) returns (r': Run)
    requires r.Valid() && aid in Last(r).attempts && 1 in Last(r).invoices
    requires Last(r).worker.Polled? && Last(r).worker.poll.Found?
    requires Last(r).worker.head.attemptId == aid && Last(r).worker.head.invoiceId == 1
    ensures Continues(r, r')
    ensures TickWriteStep(Last(r), Last(r'))
  {
    var w := Last(r);
    var o := w.worker.poll.outcome;
    r' := Append(r, TickWrite,
                 w.(worker := Reconciling(w.worker.queue),
                    attempts := w.attempts[aid := Reconciled(w.attempts[aid], o, w.now)],
                    invoices := w.invoices[1 := ReconciledInvoice(w.invoices[1], o)]));
  }

  // ----- without single resolution, two attempts succeed -----

  const PAY1: PayRequest := PayBy("a", TokCardDeclined, 2)
  const PAY2: PayRequest := PayBy("b", TokSuccess, 3)
  const PAY3: PayRequest := PayBy("c", TokSuccess, 5)

  function SuccessRow(req: PayRequest, aid: Id, ref: string): AttemptRow {
    Resolved(AttemptRow(PendingAttempt(req, aid, 0), 0, None, []), ChargeSucceeded(ref), 0)
  }

  ghost predicate Bounded(w: World) { forall k :: k in w.served ==> k < |w.calls| }

  /** The first attempt was declined; the worker has recorded that, its own request has not. */
  ghost predicate Stage1(w: World) {
    && w.now == 0 && Bounded(w)
    && w.invoices == map[1 := FINALIZED.(versioning := 3)]
    && w.attempts.Keys == {1} && w.attempts[1].attempt.status == Failed
    && w.attempts[1].attempt.failureCode == Some(CardDeclined) && w.attempts[1].attempt.invoiceId == 1
    && KeyOf(PAY2) !in w.records && KeyOf(PAY3) !in w.records
    && w.requests == map[1 := Answered(PAY1, PendingAttempt(PAY1, 1, 0), ChargeFailed(CardDeclined))]
    && w.psp.Keys == {1} && w.psp[1].status == OutcomeFailed
  }

  lemma ReachStage1() returns (r: Run)
    ensures r.Valid() && Honest(r) && Stage1(Last(r))
  {
    var r0 := FirstPay();
    r := TickDeclines(r0, 1);
  }

  lemma FirstCharge() returns (r: Run)
    ensures r.Valid() && Honest(r)
    ensures var w := Last(r);
            && w.now == 0 && w.worker == Idle(0) && Bounded(w)
            && w.invoices == map[1 := FINALIZED.(state := Processing, versioning := 3)]
            && w.attempts == map[1 := AttemptRow(PendingAttempt(PAY1, 1, 0), 0, None, [])]
            && w.records.Keys == {KeyOf(PAY1)}
            && w.requests == map[1 := Sent(PAY1, PendingAttempt(PAY1, 1, 0))]
            && w.psp == map[1 := ChargeOutcome(OutcomeFailed, None, Some(CardDeclined))]
  {
    var r0 := Opens();
    r := Charge(r0, 1, 1, PAY1, "");
  }

  lemma FirstPay() returns (r: Run)
    ensures r.Valid() && Honest(r)
    ensures var w := Last(r);
            && w.now == 0 && w.worker == Idle(0) && Bounded(w)
            && w.invoices == map[1 := FINALIZED.(state := Processing, versioning := 3)]
            && w.attempts == map[1 := AttemptRow(PendingAttempt(PAY1, 1, 0), 0, None, [])]
            && KeyOf(PAY2) !in w.records && KeyOf(PAY3) !in w.records
            && w.requests == map[1 := Answered(PAY1, PendingAttempt(PAY1, 1, 0), ChargeFailed(CardDeclined))]
            && w.psp == map[1 := ChargeOutcome(OutcomeFailed, None, Some(CardDeclined))]
  {
    var r0 := FirstCharge();
    var reply := Http(true, Some(ChargeOutcome(OutcomeFailed, None, Some(CardDeclined))));
    assert CallPsp(reply) == ChargeFailed(CardDeclined);
    r := Reply(r0, 1, reply);
  }

  /** A second attempt is under way when the first request's late write reopens the invoice. */
  ghost predicate Stage2(w: World) {
    && w.now == 0 && Bounded(w)
    && w.invoices == map[1 := FINALIZED.(versioning := 5)]
    && w.attempts.Keys == {1, 2}
    && w.attempts[1].attempt.status == Failed
    && w.attempts[1].attempt.failureCode == Some(CardDeclined) && w.attempts[1].attempt.invoiceId == 1
    && w.attempts[2] == AttemptRow(PendingAttempt(PAY2, 2, 0), 0, None, [])
    && KeyOf(PAY3) !in w.records
    && w.requests.Keys == {1, 2} && w.requests[2] == Sent(PAY2, PendingAttempt(PAY2, 2, 0))
    && w.psp.Keys == {1, 2} && w.psp[1].status == OutcomeFailed
    && w.psp[2] == ChargeOutcome(OutcomeSucceeded, Some("x"), None)
  }

  lemma LateFailure(r: Run) returns (r': Run)
    requires r.Valid() && 1 in Last(r).requests && 1 in Last(r).attempts && 1 in Last(r).invoices
    requires Last(r).requests[1] == Answered(PAY1, PendingAttempt(PAY1, 1, 0), ChargeFailed(CardDeclined))
    requires CanBump(Last(r).invoices[1])
    ensures Continues(r, r')
    ensures var w, w' := Last(r), Last(r');
            && w'.now == w.now && w'.psp == w.psp && w'.calls == w.calls && w'.served == w.served
            && w'.invoices == w.invoices[1 := Bumped(w.invoices[1], Open)]
            && w'.attempts == w.attempts[1 := Resolved(w.attempts[1], ChargeFailed(CardDeclined), w.now)]
            && w'.records.Keys == w.records.Keys && w'.requests.Keys == w.requests.Keys
            && (forall q :: q in w.requests && q != 1 ==> w'.requests[q] == w.requests[q])
  {
    r' := Resolve(r, 1);
  }

  /** The second attempt is under way; the first request still holds its failure. */
  ghost predicate BetweenStages(w: World) {
    && w.now == 0 && Bounded(w)
    && w.invoices == map[1 := FINALIZED.(state := Processing, versioning := 4)]
    && w.attempts.Keys == {1, 2} && w.attempts[1].attempt.status == Failed
    && w.attempts[1].attempt.failureCode == Some(CardDeclined) && w.attempts[1].attempt.invoiceId == 1
    && w.attempts[2] == AttemptRow(PendingAttempt(PAY2, 2, 0), 0, None, [])
    && KeyOf(PAY3) !in w.records
    && w.requests.Keys == {1, 2} && w.requests[2] == Sent(PAY2, PendingAttempt(PAY2, 2, 0))
    && w.requests[1] == Answered(PAY1, PendingAttempt(PAY1, 1, 0), ChargeFailed(CardDeclined))
    && w.psp.Keys == {1, 2} && w.psp[1].status == OutcomeFailed
    && w.psp[2] == ChargeOutcome(OutcomeSucceeded, Some("x"), None)
  }

  lemma SecondPay() returns (r: Run)
    ensures r.Valid() && Honest(r)
    ensures BetweenStages(Last(r))
  {
    var r0 := ReachStage1();
    assert CanPay(Last(r0), 2, 2, PAY2);
    r := Charge(r0, 2, 2, PAY2, "x");
  }

  lemma ReachStage2() returns (r: Run)
    ensures r.Valid() && Honest(r) && Stage2(Last(r))
  {
    var r0 := SecondPay();
    r := LateFailure(r0);
  }

  /** A third attempt has been claimed, charged and recorded as paid. */
  ghost predicate Stage3(w: World) {
    && w.now == 0
    && w.invoices == map[1 := FINALIZED.(state := Paid, versioning := 7)]
    && w.attempts.Keys == {1, 2, 3}
    && w.attempts[1].attempt.status == Failed
    && w.attempts[1].attempt.failureCode == Some(CardDeclined) && w.attempts[1].attempt.invoiceId == 1
    && w.attempts[2] == AttemptRow(PendingAttempt(PAY2, 2, 0), 0, None, [])
    && w.attempts[3] == SuccessRow(PAY3, 3, "y")
    && w.requests.Keys == {1, 2, 3} && w.requests[2] == Sent(PAY2, PendingAttempt(PAY2, 2, 0))
    && w.psp.Keys == {1, 2, 3} && w.psp[1].status == OutcomeFailed
    && w.psp[2] == ChargeOutcome(OutcomeSucceeded, Some("x"), None)
    && w.psp[3] == ChargeOutcome(OutcomeSucceeded, Some("y"), None)
  }

  /** The third attempt has been claimed and charged. */
  ghost predicate ThirdCharged(w: World) {
    && w.now == 0
    && w.invoices == map[1 := FINALIZED.(state := Processing, versioning := 6)]
    && w.attempts.Keys == {1, 2, 3}
    && w.attempts[1].attempt.status == Failed
    && w.attempts[1].attempt.failureCode == Some(CardDeclined) && w.attempts[1].attempt.invoiceId == 1
    && w.attempts[2] == AttemptRow(PendingAttempt(PAY2, 2, 0), 0, None, [])
    && w.attempts[3] == AttemptRow(PendingAttempt(PAY3, 3, 0), 0, None, [])
    && w.requests.Keys == {1, 2, 3} && w.requests[2] == Sent(PAY2, PendingAttempt(PAY2, 2, 0))
    && w.requests[3] == Sent(PAY3, PendingAttempt(PAY3, 3, 0))
    && w.psp.Keys == {1, 2, 3} && w.psp[1].status == OutcomeFailed
    && w.psp[2] == ChargeOutcome(OutcomeSucceeded, Some("x"), None)
    && w.psp[3] == ChargeOutcome(OutcomeSucceeded, Some("y"), None)
  }

  lemma ThirdPay() returns (r: Run)
    ensures r.Valid() && Honest(r) && ThirdCharged(Last(r))
  {
    var r0 := ReachStage2();
    assert CanPay(Last(r0), 3, 3, PAY3);
    r := Charge(r0, 3, 3, PAY3, "y");
  }

  lemma ReachStage3() returns (r: Run)
    ensures r.Valid() && Honest(r) && Stage3(Last(r))
  {
    var r0 := ThirdPay();
    r := SettleSuccess(r0, 3, "y");
  }

  /** A valid run with honest versions and no expiry in which two attempts of one invoice
      succeed and its customer is charged twice: the first request's late failure write
      reopened an invoice that a newer attempt owned. */
  lemma LateFailureLetsTwoAttemptsSucceed() returns (r: Run)
    ensures r.Valid() && Honest(r) && !SafeRun(r)
    ensures SucceededOf(Last(r), 1) == {2, 3} && ChargedFor(Last(r), 1) == {2, 3}
    ensures forall a :: a in Last(r).attempts ==> !Expired(Last(r).attempts[a].attempt)
  {
    var r0 := ReachStage3();
    r := SettleSuccess(r0, 2, "x");
    assert SucceededOf(Last(r), 1) == {2, 3};
    assert ChargedFor(Last(r), 1) == {2, 3};
    assert |SucceededOf(Last(r), 1)| == 2;
    if SafeRun(r) {
      AtMostOneSuccess(r, |r.steps|, 1);
      assert false;
    }
  }

  // ----- without honest versions, finalize reopens a paid-for invoice -----

  lemma FutureFinalize() returns (r: Run)
    ensures r.Valid() && Bounded(Last(r))
    ensures var w := Last(r);
            && w.invoices == map[1 := FINALIZED] && w.attempts == map[] && w.records == map[]
            && w.requests == map[] && 3 in w.ops && w.ops[3] == FinalizeReady(1, 7, 3)
  {
    var r0 := Drafts();
    var r1 := Selects(r0, 2, 1);
    var r2 := Selects(r1, 3, 3);
    r := Updates(r2, 2);
  }

  /** A finalize that was given a version from the future commits once the invoice gets
      there, and reopens it under a pending attempt. */
  lemma FutureVersionBreaksOwnership() returns (r: Run)
    ensures r.Valid() && !SafeRun(r)
    ensures 1 in Last(r).invoices && Last(r).invoices[1].state == Open
    ensures PendingOf(Last(r), 1) == {1}
  {
    var r0 := FutureFinalize();
    var r1 := Reserve(r0, 1, 1, PayBy("a", TokSuccess, 2));
    r := Updates(r1, 3);
    assert PendingOf(Last(r), 1) == {1};
    if SafeRun(r) {
      AtMostOneSuccess(r, |r.steps|, 1);
      assert false;
    }
  }

  // ----- with an expiry, one customer is charged twice -----

  const SLOW_PAY: PayRequest := PayBy("a", TokTimeout, 2)
  const NEW_PAY: PayRequest := PayBy("b", TokSuccess, 3)

  lemma Expires(r: Run) returns (r': Run)
    requires r.Valid() && Last(r).worker == Idle(0) && Last(r).now == 0
    requires Last(r).attempts == map[1 := AttemptRow(PendingAttempt(SLOW_PAY, 1, 0), 0, None, [])]
    requires 1 in Last(r).invoices
    ensures Continues(r, r') && (Disciplined(r) ==> Disciplined(r'))
    ensures var w, w' := Last(r), Last(r');
            && w'.records == w.records && w'.requests == w.requests && w'.psp == w.psp
            && w'.calls == w.calls && w'.served == w.served
            && w'.attempts == map[1 := ExpiredRow(w.attempts[1], DAY_MS)]
            && w'.invoices == w.invoices[1 := w.invoices[1].(state := Open)]
  {
    var r1 := ADayPasses(r);
    var r2 := FindsNothingDue(r1);
    var r3 := FindsOverdue(r2);
    r' := ExpiresRow(r3, [Snapshot(1, 1, 0)]);
  }

  lemma ADayPasses(r: Run) returns (r': Run)
    requires r.Valid() && Last(r).now == 0
    ensures Continues(r, r') && (Disciplined(r) ==> Disciplined(r'))
    ensures Last(r') == Last(r).(now := DAY_MS)
  {
    r' := Append(r, Advance(DAY_MS), Last(r).(now := DAY_MS));
  }

  /** After a day without a poll the next tick finds nothing to reconcile. */
  lemma FindsNothingDue(r: Run) returns (r': Run)
    requires r.Valid() && Last(r).worker == Idle(0) && Last(r).now == DAY_MS
    requires Last(r).attempts == map[1 := AttemptRow(PendingAttempt(SLOW_PAY, 1, 0), 0, None, [])]
    ensures Continues(r, r') && (Disciplined(r) ==> Disciplined(r'))
    ensures Last(r') == Last(r).(worker := Reconciling([]))
  {
    NothingDue(Last(r).attempts);
    r' := Append(r, TickSelect([]), Last(r).(worker := Reconciling([])));
  }

  lemma NothingDue(attempts: map<Id, AttemptRow>)
    requires attempts == map[1 := AttemptRow(PendingAttempt(SLOW_PAY, 1, 0), 0, None, [])]
    ensures DueRows(attempts, DAY_MS, [])
  {
  }

  /** Its expiry query finds the attempt. */
  lemma FindsOverdue(r: Run) returns (r': Run)
    requires r.Valid() && Last(r).worker == Reconciling([]) && Last(r).now == DAY_MS
    requires Last(r).attempts == map[1 := AttemptRow(PendingAttempt(SLOW_PAY, 1, 0), 0, None, [])]
    ensures Continues(r, r') && (Disciplined(r) ==> Disciplined(r'))
    ensures Last(r') == Last(r).(worker := Expiring(0, [Snapshot(1, 1, 0)]))
  {
    var rows := [Snapshot(1, 1, 0)];
    assert rows[0].attemptId == 1;
    assert Listed(rows, 1);
    r' := Append(r, ExpireSelect(rows), Last(r).(worker := Expiring(0, rows)));
  }

  lemma ExpiresRow(r: Run, rows: seq<Snapshot>) returns (r': Run)
    requires r.Valid() && rows == [Snapshot(1, 1, 0)] && Last(r).worker == Expiring(0, rows)
    requires 1 in Last(r).attempts && Last(r).attempts[1].attempt.status == Pending && 1 in Last(r).invoices
    ensures Continues(r, r') && (Disciplined(r) ==> Disciplined(r'))
    ensures ExpireWriteStep(Last(r), Last(r'))
  {
    var w := Last(r);
    var w' := w.(worker := Expiring(0, rows[1..]),
                 attempts := w.attempts[1 := ExpiredRow(w.attempts[1], w.now)],
                 invoices := w.invoices[1 := w.invoices[1].(state := Open)]);
    r' := Append(r, ExpireWrite, w');
  }

  lemma ExpiredAttempt() returns (r: Run)
    ensures r.Valid() && Disciplined(r)
    ensures var w := Last(r);
            && w.invoices == map[1 := FINALIZED.(versioning := 3)] && Bounded(w)
            && w.attempts == map[1 := ExpiredRow(AttemptRow(PendingAttempt(SLOW_PAY, 1, 0), 0, None, []), DAY_MS)]
            && w.records.Keys == {KeyOf(SLOW_PAY)} && w.requests.Keys == {1}
            && w.psp == map[1 := ChargeOutcome(OutcomeSucceeded, Some("x"), None)]
  {
    var r0 := Opens();
    var r1 := Charge(r0, 1, 1, SLOW_PAY, "x");
    r := Expires(r1);
  }

  /** A valid run under both hypotheses in which the provider has charged the customer of
      one invoice twice: the first charge went through, but its attempt expired unseen. */
  lemma ExpiryAllowsSecondCharge() returns (r: Run)
    ensures r.Valid() && Disciplined(r) && SafeRun(r)
    ensures ChargedFor(Last(r), 1) == {1, 2}
    ensures 1 in Last(r).attempts && Expired(Last(r).attempts[1].attempt)
  {
    var r0 := ExpiredAttempt();
    r := Charge(r0, 2, 2, NEW_PAY, "y");
    DisciplinedRunsAreSafe(r);
    assert ChargedFor(Last(r), 1) == {1, 2};
  }
}

/** The service as the program runs it: tables updated in place, one method per database
    transaction, each proved to be exactly one step of the protocol. */
module PaymentService {
  import opened Types
  import opened Psp
  import opened Protocol
  import Money
  import opened Effects
  import opened Ownership
  import opened Guarantees
  import opened Ticks

  class Service {
    var now: int
    var invoices: map<Id, Invoice>
    var attempts: map<Id, AttemptRow>
    var records: map<IdemKey, IdemRecord>
    var requests: map<Id, PayState>
    var ops: map<Id, OpState>
    var worker: WorkerState
    const psp: MockPsp

    // history of the protocol
    ghost var calls: seq<ChargeCall>
    ghost var served: set<nat>
    ghost var origin: map<Id, Id>
    ghost var lastClaim: map<Id, Id>

    ghost function View(): World
      reads this, psp
    {
      World(now, invoices, attempts, records, psp.store, requests, ops, worker,
            calls, served, origin, lastClaim)
    }

    constructor (provider: MockPsp)
      requires provider.store == map[]
      ensures View() == Init() && psp == provider
    {
      psp := provider;
      now, invoices, attempts, records, requests, ops, worker := 0, map[], map[], map[], map[], map[], Idle(0);
      calls, served, origin, lastClaim := [], {}, map[], map[];
    }

    // ----- invoices -----

    /** Insert the invoice, then its items one by one; a bad item drops the transaction. */
    method CreateInvoice(op: Id, iid: Id, bid: Id, customerKnown: bool,
                         items: seq<LineItem>, dueDate: int, today: int)
      requires op !in ops
      modifies this
      ensures CreateStep(old(View()), op, iid, bid, customerKnown, items, dueDate, today, View())
    {
      if !customerKnown {
        ops := ops[op := OpFailed(NotFound)];
        return;
      }
      var totalCents := Money.MachineTotal(items);
      if totalCents <= 0 || dueDate < today {
        ops := ops[op := OpFailed(BadRequest)];
        return;
      }
      if iid in invoices {
        ops := ops[op := OpFailed(DatabaseError)];
        return;
      }
      var inserted: seq<LineItem> := [];
      for k := 0 to |items|
        invariant inserted == items[..k]
        invariant Money.AllPositive(inserted)
        invariant View() == old(View())
      {
        if items[k].quantity <= 0 || items[k].unitAmountCents <= 0 {
          ops := ops[op := OpFailed(BadRequest)];
          return;
        }
        inserted := inserted + [items[k]];
      }
      assert inserted == items;
      invoices := invoices[iid := Invoice(bid, Draft, totalCents, dueDate, 1, inserted)];
      ops := ops[op := OpDone];
    }

    /** Validation and version check of edit; the check commits by itself. */
    method BeginEdit(op: Id, iid: Id, bid: Id, edit: EditRequest)
      requires op !in ops
      modifies this
      ensures EditCasStep(old(View()), op, iid, bid, edit, View())
    {
      if edit.lineItems.Some? {
        var items := edit.lineItems.value;
        if items == [] {
          ops := ops[op := OpFailed(BadRequest)];
          return;
        }
        for k := 0 to |items|
          invariant Money.AllPositive(items[..k])
          invariant View() == old(View())
        {
          if items[k].quantity <= 0 || items[k].unitAmountCents <= 0 {
            ops := ops[op := OpFailed(BadRequest)];
            return;
          }
          assert items[..k + 1] == items[..k] + [items[k]];
        }
        assert items[..|items|] == items;
      }
      if iid !in invoices || invoices[iid].versioning != edit.versioning || invoices[iid].state != Draft {
        ops := ops[op := OpFailed(Conflict)];
        return;
      }
      if !CanBump(invoices[iid]) {
        ops := ops[op := OpFailed(DatabaseError)];
        return;
      }
      invoices := invoices[iid := Bumped(invoices[iid], Draft)];
      ops := ops[op := EditReady(iid, bid, edit)];
    }

    /** The edit transaction: due date first, then items and total; any refusal rolls back. */
    method ApplyEdit(op: Id, today: int)
      requires op in ops && ops[op].EditReady?
      modifies this
      ensures EditApplyStep(old(View()), op, today, View())
    {
      var o := ops[op];
      if o.invoiceId !in invoices || invoices[o.invoiceId].businessId != o.businessId {
        ops := ops[op := OpFailed(NotFound)];
        return;
      }
      var inv := invoices[o.invoiceId];
      if inv.state != Draft {
        ops := ops[op := OpFailed(InvalidStateTransition)];
        return;
      }
      if o.edit.dueDate.Some? {
        if o.edit.dueDate.value < today {
          ops := ops[op := OpFailed(BadRequest)];
          return;
        }
        inv := inv.(dueDate := o.edit.dueDate.value);
      }
      if o.edit.lineItems.Some? {
        var items := o.edit.lineItems.value;
        var totalCents := Money.MachineTotal(items);
        if totalCents <= 0 {
          ops := ops[op := OpFailed(BadRequest)];
          return;
        }
        var newItems: seq<LineItem> := [];
        for k := 0 to |items|
          invariant newItems == items[..k]
        {
          newItems := newItems + [items[k]];
        }
        assert newItems == items;
        inv := inv.(lineItems := newItems, totalCents := totalCents);
      }
      invoices := invoices[o.invoiceId := inv];
      ops := ops[op := OpDone];
    }

    method BeginFinalize(op: Id, iid: Id, bid: Id, versioning: int)
      requires op !in ops
      modifies this
      ensures FinalizeSelectStep(old(View()), op, iid, bid, versioning, View())
    {
      if iid !in invoices || invoices[iid].businessId != bid {
        ops := ops[op := OpFailed(DatabaseError)];
      } else if !invoices[iid].state.CanTransitionTo(Open) {
        ops := ops[op := OpFailed(InvalidStateTransition)];
      } else {
        ops := ops[op := FinalizeReady(iid, bid, versioning)];
      }
    }

    method BeginVoid(op: Id, iid: Id, bid: Id, versioning: int)
      requires op !in ops
      modifies this
      ensures VoidSelectStep(old(View()), op, iid, bid, versioning, View())
    {
      if iid !in invoices || invoices[iid].businessId != bid || invoices[iid].versioning != versioning {
        ops := ops[op := OpFailed(NotFound)];
      } else if !invoices[iid].state.CanTransitionTo(Open) {
        ops := ops[op := OpFailed(InvalidStateTransition)];
      } else {
        ops := ops[op := VoidReady(iid, bid, versioning)];
      }
    }

    method CommitUpdate(op: Id)
      requires op in ops && (ops[op].FinalizeReady? || ops[op].VoidReady?)
      modifies this
      ensures OpUpdateStep(old(View()), op, View())
    {
      var o := ops[op];
      if o.invoiceId !in invoices || invoices[o.invoiceId].businessId != o.businessId
         || invoices[o.invoiceId].versioning != o.versioning
      {
        ops := ops[op := OpFailed(Conflict)];
        return;
      }
      if !CanBump(invoices[o.invoiceId]) {
        ops := ops[op := OpFailed(DatabaseError)];
        return;
      }
      invoices := invoices[o.invoiceId :=
        Bumped(invoices[o.invoiceId], if o.FinalizeReady? then Open else Void)];
      ops := ops[op := OpDone];
    }

    // ----- pay -----

    method PayLookup(rid: Id, req: PayRequest)
      requires rid !in requests
      modifies this
      ensures PayLookupStep(old(View()), rid, req, View())
    {
      if KeyOf(req) in records && records[KeyOf(req)].createdAt > now - DAY_MS {
        requests := requests[rid := Replayed(req, records[KeyOf(req)].body)];
      } else {
        requests := requests[rid := Looked(req)];
      }
    }

    method PayClaim(rid: Id, aid: Id)
      requires rid in requests && requests[rid].Looked?
      modifies this
      ensures PayClaimStep(old(View()), rid, aid, View())
    {
      var req := requests[rid].req;
      if req.invoiceId !in invoices || invoices[req.invoiceId].state != Open
         || invoices[req.invoiceId].versioning != req.versioning
      {
        requests := requests[rid := Rejected(req, Conflict)];
        return;
      }
      if !CanBump(invoices[req.invoiceId]) || aid in attempts || KeyOf(req) in records {
        requests := requests[rid := Rejected(req, DatabaseError)];
        return;
      }
      InsertClaim(rid, aid, req);
    }

    /** The rest of that transaction: the invoice, the attempt and the record together. */
    method InsertClaim(rid: Id, aid: Id, req: PayRequest)
      requires rid in requests && requests[rid] == Looked(req)
      requires Claims(View(), Step.PayClaim(rid, aid))
      modifies this
      ensures PayClaimStep(old(View()), rid, aid, View())
    {
      invoices := invoices[req.invoiceId := Bumped(invoices[req.invoiceId], Processing)];
      var attempt := PendingAttempt(req, aid, now);
      attempts := attempts[aid := AttemptRow(attempt, 0, None, [])];
      records := records[KeyOf(req) := IdemRecord(attempt, 0, now, now)];
      requests := requests[rid := Claimed(req, attempt)];
      origin := origin[aid := rid];
      lastClaim := lastClaim[req.invoiceId := aid];
    }

    method PaySend(rid: Id)
      requires rid in requests && requests[rid].Claimed?
      modifies this
      ensures PaySendStep(old(View()), rid, View())
    {
      var pc := requests[rid];
      requests := requests[rid := Sent(pc.req, pc.attempt)];
      calls := calls + [ChargeCall(pc.attempt.id, pc.req.cardToken)];
    }

    /** The provider's side of charge call number k. */
    method ServeCharge(ghost k: nat, attemptId: Id, token: CardToken, ref: string)
      requires k < |calls| && k !in served && calls[k] == ChargeCall(attemptId, token)
      modifies this, psp
      ensures PspServeStep(old(View()), k, ref, View())
    {
      psp.Charge(attemptId, token, ref);
      served := served + {k};
    }

    method PayReply(rid: Id, reply: WireReply)
      requires rid in requests && requests[rid].Sent?
      requires ReplyPossible(psp.store, requests[rid].attempt, reply)
      modifies this
      ensures PayReplyStep(old(View()), rid, reply, View())
    {
      var pc := requests[rid];
      requests := requests[rid := Answered(pc.req, pc.attempt, CallPsp(reply))];
    }

    method PayResolve(rid: Id)
      requires rid in requests && requests[rid].Answered?
      modifies this
      ensures PayResolveStep(old(View()), rid, View())
    {
      var pc := requests[rid];
      match pc.result {
        case ChargeSucceeded(ref) =>
          if pc.attempt.id !in attempts || pc.req.invoiceId !in invoices || !CanBump(invoices[pc.req.invoiceId]) {
            requests := requests[rid := Lost(pc.req, pc.attempt)];
            return;
          }
          var row := attempts[pc.attempt.id];
          var updated := row.attempt.(status := Succeeded, pspReference := Some(ref), updatedAt := now);
          attempts := attempts[pc.attempt.id := row.(attempt := updated)];
          invoices := invoices[pc.req.invoiceId := Bumped(invoices[pc.req.invoiceId], Paid)];
          records := WithResponse(records, KeyOf(pc.req), updated, 200, now);
          requests := requests[rid := Completed(pc.req, pc.attempt, updated)];
        case ChargeFailed(code) =>
          if pc.attempt.id !in attempts || pc.req.invoiceId !in invoices || !CanBump(invoices[pc.req.invoiceId]) {
            requests := requests[rid := Lost(pc.req, pc.attempt)];
            return;
          }
          var row := attempts[pc.attempt.id];
          var updated := row.attempt.(status := Failed, failureCode := Some(code), updatedAt := now);
          attempts := attempts[pc.attempt.id := row.(attempt := updated)];
          invoices := invoices[pc.req.invoiceId := Bumped(invoices[pc.req.invoiceId], Open)];
          records := WithResponse(records, KeyOf(pc.req), updated, 200, now);
          requests := requests[rid := Completed(pc.req, pc.attempt, updated)];
        case _ =>
          records := WithResponse(records, KeyOf(pc.req), pc.attempt, 202, now);
          requests := requests[rid := Completed(pc.req, pc.attempt, pc.attempt)];
      }
    }

    // ----- reconciliation worker -----

    /** The worker's first query, in whatever order the rows come. */
    method SelectDue()
      requires worker.Idle? && worker.wakeAt <= now
      modifies this
      ensures worker.Reconciling? && DueRows(attempts, now, worker.queue)
      ensures TickSelectStep(old(View()), worker.queue, View())
    {
      var rows: seq<Snapshot> := [];
      var todo := attempts.Keys;
      while todo != {}
        invariant todo <= attempts.Keys && View() == old(View())
        invariant NoDuplicates(rows)
        invariant forall j :: 0 <= j < |rows| ==>
          && rows[j].attemptId !in todo
          && Due(attempts, now, rows[j].attemptId)
          && rows[j] == SnapshotOf(attempts, rows[j].attemptId)
        invariant forall a :: a in attempts && Due(attempts, now, a) && a !in todo ==> Listed(rows, a)
      {
        var a :| a in todo;
        todo := todo - {a};
        if Due(attempts, now, a) {
          ListedGrows(rows, SnapshotOf(attempts, a));
          rows := rows + [SnapshotOf(attempts, a)];
        }
      }
      assert DueRows(attempts, now, rows);
      worker := Reconciling(rows);
    }

    /** One status request to the provider for the next attempt on the list. */
    method Poll(reachable: bool) returns (poll: Poll)
      requires worker.Reconciling? && worker.queue != []
      modifies this
      ensures TickPollStep(old(View()), poll, View())
      ensures poll == if reachable then AnswerOf(psp.store, old(worker.queue)[0].attemptId) else Unavailable
    {
      var head := worker.queue[0];
      if !reachable {
        poll := Unavailable;
        worker := Reconciling(worker.queue[1..]);
        return;
      }
      var outcome := psp.GetOutcome(head.attemptId);
      match outcome {
        case None => poll := NotFoundYet;
        case Some(o) => poll := Found(o);
      }
      worker := Polled(head, poll, worker.queue[1..]);
    }

    /** What the worker writes after an answer. */
    method WriteAnswer()
      requires worker.Polled?
      modifies this
      ensures TickWriteStep(old(View()), View())
      ensures worker == Reconciling(old(worker.queue))
    {
      var head, poll := worker.head, worker.poll;
      worker := Reconciling(worker.queue);
      match poll {
        case Unavailable =>
        case NotFoundYet =>
          if head.attemptId in attempts && attempts[head.attemptId].retryCount < MAX_I32 {
            attempts := attempts[head.attemptId :=
              Missed(attempts[head.attemptId], BackoffOf(head.retryCount), now)];
          }
        case Found(o) =>
          if head.attemptId in attempts && head.invoiceId in invoices { SettleFound(head, o); }
      }
    }

    /** The transaction for a found outcome: the attempt always, the invoice from Processing. */
    method SettleFound(head: Snapshot, o: ChargeOutcome)
      requires head.attemptId in attempts && head.invoiceId in invoices
      modifies this`attempts, this`invoices
      ensures attempts == old(attempts)[head.attemptId := Reconciled(old(attempts)[head.attemptId], o, now)]
      ensures invoices == old(invoices)[head.invoiceId := ReconciledInvoice(old(invoices)[head.invoiceId], o)]
    {
      var row, inv := attempts[head.attemptId], invoices[head.invoiceId];
      match o.status {
        case OutcomeSucceeded =>
          row := row.(attempt := row.attempt.(status := Succeeded, pspReference := o.pspRef, updatedAt := now));
          if inv.state == Processing { inv := inv.(state := Paid); }
        case OutcomeFailed =>
          row := row.(attempt := row.attempt.(status := Failed, failureCode := o.code, updatedAt := now));
          if inv.state == Processing { inv := inv.(state := Open); }
        case OutcomeOther =>
      }
      attempts := attempts[head.attemptId := row];
      invoices := invoices[head.invoiceId := inv];
    }

    /** The worker's second query. */
    method SelectOverdue()
      requires worker == Reconciling([])
      modifies this
      ensures worker.Expiring? && worker.cutoff == now - DAY_MS && OverdueRows(attempts, now, worker.expired)
      ensures ExpireSelectStep(old(View()), worker.expired, View())
    {
      var rows: seq<Snapshot> := [];
      var todo := attempts.Keys;
      while todo != {}
        invariant todo <= attempts.Keys && View() == old(View())
        invariant NoDuplicates(rows)
        invariant forall j :: 0 <= j < |rows| ==>
          && rows[j].attemptId !in todo
          && Overdue(attempts, now, rows[j].attemptId)
          && rows[j] == SnapshotOf(attempts, rows[j].attemptId)
        invariant forall a :: a in attempts && Overdue(attempts, now, a) && a !in todo ==> Listed(rows, a)
      {
        var a :| a in todo;
        todo := todo - {a};
        if Overdue(attempts, now, a) {
          ListedGrows(rows, SnapshotOf(attempts, a));
          rows := rows + [SnapshotOf(attempts, a)];
        }
      }
      assert OverdueRows(attempts, now, rows);
      worker := Expiring(now - DAY_MS, rows);
    }

    /** The expiry transaction for the next attempt on the list. */
    method ExpireHead()
      requires worker.Expiring? && worker.expired != []
      modifies this
      ensures ExpireWriteStep(old(View()), View())
      ensures worker == Expiring(old(worker.cutoff), old(worker.expired)[1..])
    {
      var e := worker.expired[0];
      worker := Expiring(worker.cutoff, worker.expired[1..]);
      if e.attemptId in attempts && e.invoiceId in invoices {
        attempts := attempts[e.attemptId := ExpiredRow(attempts[e.attemptId], now)];
        invoices := invoices[e.invoiceId := invoices[e.invoiceId].(state := Open)];
      }
    }

    /** The end of a tick. */
    method Sleep()
      requires worker.Expiring? && worker.expired == []
      modifies this`worker
      ensures worker == Idle(now + TICK_PAUSE_MS)
      ensures TickEndStep(old(View()), View())
    {
      worker := Idle(now + TICK_PAUSE_MS);
    }

    // ----- a tick as a run of the protocol -----

    /** The trace so far ends in the present state, which is sound and owned if the trace
        began so. */
    ghost predicate Traced(start: World, trace: Run)
      reads this, psp
    {
      && trace.Fragment()
      && trace.worlds[0] == start
      && trace.worlds[|trace.steps|] == View()
      && (Sound(start) ==> Sound(View()))
      && (Sound(start) && Owned(start) ==> Owned(View()))
    }

    ghost method Record(start: World, before: World, trace: Run, s: Step) returns (longer: Run)
      requires trace.Fragment() && trace.worlds[0] == start && trace.worlds[|trace.steps|] == before
      requires Sound(start) ==> Sound(before)
      requires Sound(start) && Owned(start) ==> Owned(before)
      requires Next(before, s, View()) && Safe(before, s)
      ensures Traced(start, longer)
    {
      longer := Run(trace.worlds + [View()], trace.steps + [s]);
      Grow(trace, s, View());
      KeepsHealth(before, s, View());
    }

    method StartTick() returns (ghost trace: Run)
      requires worker.Idle? && worker.wakeAt <= now
      modifies this
      ensures worker.Reconciling? && DueRows(attempts, now, worker.queue)
      ensures attempts == old(attempts) && now == old(now) && Traced(old(View()), trace)
    {
      ghost var start := View();
      SelectDue();
      PendingIsSafe(start, TickSelect(worker.queue));
      trace := Record(start, start, Run([start], []), TickSelect(worker.queue));
    }

    method PollHead(reachable: bool, ghost start: World, ghost trace: Run) returns (ghost longer: Run)
      requires worker.Reconciling? && worker.queue != [] && Traced(start, trace)
      modifies this
      ensures var head, tail := old(worker.queue)[0], old(worker.queue)[1..];
              worker == if reachable then Polled(head, AnswerOf(psp.store, head.attemptId), tail) else Reconciling(tail)
      ensures attempts == old(attempts) && now == old(now) && Traced(start, longer)
    {
      ghost var before := View();
      var poll := Poll(reachable);
      PendingIsSafe(before, TickPoll(poll));
      longer := Record(start, before, trace, TickPoll(poll));
    }

    method WriteHead(ghost start: World, ghost trace: Run) returns (ghost longer: Run)
      requires worker.Polled? && Traced(start, trace) && PendingIn(attempts, worker.head.attemptId)
      requires worker.poll == AnswerOf(psp.store, worker.head.attemptId)
      modifies this
      ensures worker == Reconciling(old(worker.queue)) && now == old(now) && Traced(start, longer)
      ensures attempts.Keys == old(attempts).Keys
      ensures forall a :: a in attempts && a != old(worker.head).attemptId ==> attempts[a] == old(attempts)[a]
      ensures Sound(start) ==>
                attempts == AfterVisit(old(attempts), old(worker.head).attemptId, {old(worker.head).attemptId}, psp.store, now)
    {
      ghost var before := View();
      PendingIsSafe(before, TickWrite);
      WriteAnswer();
      WriteTouchesHead(before, View());
      if Sound(before) { WriteIsVisit(before, View(), {before.worker.head.attemptId}); }
      longer := Record(start, before, trace, TickWrite);
    }

    /** Ask the provider about the head of the list and write what it answered. */
    method ReconcileAttempt(reachable: set<Id>, ghost start: World, ghost trace: Run)
      returns (ghost longer: Run)
      requires worker.Reconciling? && worker.queue != [] && Traced(start, trace)
      requires NoDuplicates(worker.queue) && AllPending(attempts, worker.queue)
      modifies this
      ensures worker == Reconciling(old(worker.queue)[1..]) && now == old(now) && Traced(start, longer)
      ensures NoDuplicates(worker.queue) && AllPending(attempts, worker.queue)
      ensures Sound(start) ==>
                attempts == AfterVisit(old(attempts), old(worker.queue)[0].attemptId, reachable, psp.store, now)
    {
      ghost var before, queue := attempts, worker.queue;
      assert PendingIn(attempts, queue[0].attemptId);
      longer := PollHead(worker.queue[0].attemptId in reachable, start, trace);
      if worker.Polled? { longer := WriteHead(start, longer); }
      TailPending(before, queue, attempts);
    }

    method ReconcileAll(reachable: set<Id>, ghost start: World, ghost trace: Run)
      returns (ghost longer: Run)
      requires worker.Reconciling? && Traced(start, trace)
      requires NoDuplicates(worker.queue) && AllPending(attempts, worker.queue)
      modifies this
      ensures worker == Reconciling([]) && now == old(now) && Traced(start, longer)
      ensures Sound(start) ==> attempts == AfterVisits(old(attempts), old(worker.queue), reachable, psp.store, now)
    {
      longer := trace;
      while worker.queue != []
        invariant worker.Reconciling? && now == old(now) && Traced(start, longer)
        invariant NoDuplicates(worker.queue) && AllPending(attempts, worker.queue)
        invariant Sound(start) ==>
                    AfterVisits(attempts, worker.queue, reachable, psp.store, now)
                    == AfterVisits(old(attempts), old(worker.queue), reachable, psp.store, now)
        decreases |worker.queue|
      {
        longer := ReconcileAttempt(reachable, start, longer);
      }
    }

    method ListOverdue(ghost start: World, ghost trace: Run) returns (ghost longer: Run)
      requires worker == Reconciling([]) && Traced(start, trace)
      modifies this
      ensures worker.Expiring? && worker.cutoff == now - DAY_MS && OverdueRows(attempts, now, worker.expired)
      ensures attempts == old(attempts) && now == old(now) && Traced(start, longer)
    {
      ghost var before := View();
      SelectOverdue();
      PendingIsSafe(before, ExpireSelect(worker.expired));
      longer := Record(start, before, trace, ExpireSelect(worker.expired));
    }

    method ExpireNext(ghost start: World, ghost trace: Run) returns (ghost longer: Run)
      requires worker.Expiring? && worker.expired != [] && Traced(start, trace)
      requires NoDuplicates(worker.expired) && AllPending(attempts, worker.expired)
      modifies this
      ensures worker == Expiring(old(worker.cutoff), old(worker.expired)[1..])
      ensures now == old(now) && Traced(start, longer)
      ensures NoDuplicates(worker.expired) && AllPending(attempts, worker.expired)
      ensures Sound(start) ==> attempts == AfterExpiry(old(attempts), old(worker.expired)[0].attemptId, now)
    {
      ghost var before := View();
      assert PendingIn(attempts, worker.expired[0].attemptId);
      PendingIsSafe(before, ExpireWrite);
      ExpireHead();
      ExpiryTouchesHead(before, View());
      TailPending(before.attempts, before.worker.expired, attempts);
      if Sound(before) { ExpiryIsExpiry(before, View()); }
      longer := Record(start, before, trace, ExpireWrite);
    }

    method ExpireAll(ghost start: World, ghost trace: Run) returns (ghost longer: Run)
      requires worker.Expiring? && worker.cutoff == now - DAY_MS && Traced(start, trace)
      requires NoDuplicates(worker.expired) && AllPending(attempts, worker.expired)
      modifies this
      ensures worker == Expiring(now - DAY_MS, []) && now == old(now) && Traced(start, longer)
      ensures Sound(start) ==> attempts == AfterExpiries(old(attempts), old(worker.expired), now)
    {
      longer := trace;
      while worker.expired != []
        invariant worker.Expiring? && worker.cutoff == now - DAY_MS && now == old(now) && Traced(start, longer)
        invariant NoDuplicates(worker.expired) && AllPending(attempts, worker.expired)
        invariant Sound(start) ==>
                    AfterExpiries(attempts, worker.expired, now)
                    == AfterExpiries(old(attempts), old(worker.expired), now)
        decreases |worker.expired|
      {
        longer := ExpireNext(start, longer);
      }
    }

    method FinishTick(ghost start: World, ghost trace: Run) returns (ghost longer: Run)
      requires worker == Expiring(now - DAY_MS, []) && Traced(start, trace)
      modifies this
      ensures worker == Idle(now + TICK_PAUSE_MS) && now == old(now) && Traced(start, longer)
      ensures attempts == old(attempts)
    {
      ghost var before := View();
      PendingIsSafe(before, TickEnd);
      Sleep();
      longer := Record(start, before, trace, TickEnd);
    }

    /** The first half of a tick: poll what is due. */
    method ReconcileDue(reachable: set<Id>) returns (ghost trace: Run, ghost queue: seq<Snapshot>)
      requires worker.Idle? && worker.wakeAt <= now
      modifies this
      ensures worker == Reconciling([]) && now == old(now) && Traced(old(View()), trace)
      ensures DueRows(old(attempts), now, queue)
      ensures Sound(old(View())) ==> attempts == AfterVisits(old(attempts), queue, reachable, psp.store, now)
    {
      ghost var start := View();
      trace := StartTick();
      queue := worker.queue;
      DueIsPending(attempts, now, queue);
      trace := ReconcileAll(reachable, start, trace);
    }

    /** The second half: expire what is overdue, then sleep. */
    method ExpireOverdue(ghost start: World, ghost trace: Run)
      returns (ghost longer: Run, ghost expired: seq<Snapshot>)
      requires worker == Reconciling([]) && Traced(start, trace)
      modifies this
      ensures worker == Idle(now + TICK_PAUSE_MS) && now == old(now) && Traced(start, longer)
      ensures OverdueRows(old(attempts), now, expired)
      ensures Sound(start) ==> attempts == AfterExpiries(old(attempts), expired, now)
    {
      longer := ListOverdue(start, trace);
      expired := worker.expired;
      OverdueIsPending(attempts, now, expired);
      longer := ExpireAll(start, longer);
      longer := FinishTick(start, longer);
    }

    /** One tick without database errors and without interference: poll what is due, then
        expire what is overdue. It is a run of the protocol that keeps soundness and
        ownership. From a sound state, every due attempt whose request to the provider gets
        through has the provider's answer afterwards, every overdue one has expired, and no
        other has changed. From a state that is owned as well, the invoices of the attempts
        with a stored outcome are Paid or Open as it says. */
    method Tick(reachable: set<Id>) returns (ghost trace: Run)
      requires worker.Idle? && worker.wakeAt <= now
      modifies this
      ensures worker == Idle(now + TICK_PAUSE_MS) && now == old(now)
      ensures Traced(old(View()), trace)
      ensures Sound(old(View())) ==> TickDone(old(View()), reachable, View())
    {
      ghost var start := View();
      ghost var queue, expired: seq<Snapshot>;
      trace, queue := ReconcileDue(reachable);
      trace, expired := ExpireOverdue(start, trace);
      if Sound(start) {
        TickMakesRows(start, queue, expired, reachable, View());
      }
    }
  }

  lemma KeepsHealth(w: World, s: Step, w': World)
    requires Next(w, s, w') && Safe(w, s)
    ensures Sound(w) ==> Sound(w')
    ensures Sound(w) && Owned(w) ==> Owned(w')
  {
    if Sound(w) {
      SoundStep(w, s, w');
      if Owned(w) { StepKeepsOwnershipIffSafe(w, s, w'); }
    }
  }

  /** What a tick without interference achieves. */
  ghost predicate TickDone(w: World, reachable: set<Id>, w': World) {
    && w'.attempts.Keys == w.attempts.Keys
    && (forall a :: a in w'.attempts ==>
          w'.attempts[a] == AfterTick(w.attempts, a, reachable, w.psp, w.now))
    && (forall a :: PendingIn(w'.attempts, a) ==> w'.attempts[a].attempt.createdAt > w.now - DAY_MS)
    && (Owned(w) ==>
          forall a :: a in w'.attempts && Due(w.attempts, w.now, a) && a in reachable && a in w.psp ==>
            && w'.attempts[a].attempt.invoiceId in w'.invoices
            && w'.invoices[w'.attempts[a].attempt.invoiceId].state
               == if w.psp[a].status == OutcomeSucceeded then Paid else Open)
  }

  lemma DueIsPending(attempts: map<Id, AttemptRow>, now: int, rows: seq<Snapshot>)
    requires DueRows(attempts, now, rows)
    ensures NoDuplicates(rows) && AllPending(attempts, rows)
  {
  }

  lemma OverdueIsPending(attempts: map<Id, AttemptRow>, now: int, rows: seq<Snapshot>)
    requires OverdueRows(attempts, now, rows)
    ensures NoDuplicates(rows) && AllPending(attempts, rows)
  {
  }

  /** From the two loops to every row and every settled invoice. */
  lemma TickMakesRows(w: World, queue: seq<Snapshot>, expired: seq<Snapshot>, reachable: set<Id>, w': World)
    requires Sound(w) && Sound(w') && (Owned(w) ==> Owned(w')) && w'.psp == w.psp
    requires DueRows(w.attempts, w.now, queue)
    requires OverdueRows(AfterVisits(w.attempts, queue, reachable, w.psp, w.now), w.now, expired)
    requires w'.attempts == AfterExpiries(AfterVisits(w.attempts, queue, reachable, w.psp, w.now), expired, w.now)
    ensures TickDone(w, reachable, w')
  {
    VisitsKeepKeys(w.attempts, queue, reachable, w.psp, w.now);
    ExpiriesKeepKeys(AfterVisits(w.attempts, queue, reachable, w.psp, w.now), expired, w.now);
    forall a | a in w.attempts
      ensures w'.attempts[a] == AfterTick(w.attempts, a, reachable, w.psp, w.now)
    {
      LoopsMakeTick(w.attempts, queue, expired, reachable, w.psp, w.now, a);
    }
    forall a | PendingIn(w'.attempts, a) ensures w'.attempts[a].attempt.createdAt > w.now - DAY_MS {
      NotPendingPastADay(w.attempts, a, reachable, w.psp, w.now);
    }
    if Owned(w) {
      forall a | a in w'.attempts && Due(w.attempts, w.now, a) && a in reachable && a in w.psp
        ensures w'.attempts[a].attempt.invoiceId in w'.invoices
                && w'.invoices[w'.attempts[a].attempt.invoiceId].state
                   == if w.psp[a].status == OutcomeSucceeded then Paid else Open
      {
        SettledInvoice(w, reachable, w', a);
        AnswerKeepsIdentity(w.attempts[a], a, w.psp, w.now);
      }
    }
  }

  /** A fragment of a run grows by one step. */
  lemma Grow(r: Run, s: Step, w: World)
    requires r.Fragment() && Next(r.worlds[|r.steps|], s, w)
    ensures Run(r.worlds + [w], r.steps + [s]).Fragment()
  {
    var e := Run(r.worlds + [w], r.steps + [s]);
    forall n | 0 <= n < |e.steps| ensures e.StepAt(n) {
      if n < |r.steps| { assert r.StepAt(n); }
    }
  }

  lemma ListedGrows(rows: seq<Snapshot>, s: Snapshot)
    ensures forall a :: Listed(rows, a) ==> Listed(rows + [s], a)
    ensures Listed(rows + [s], s.attemptId)
  {
    var all := rows + [s];
    forall a | Listed(rows, a) ensures Listed(all, a) {
      var j :| 0 <= j < |rows| && rows[j].attemptId == a;
      assert all[j].attemptId == a;
    }
    assert all[|rows|].attemptId == s.attemptId;
  }
}

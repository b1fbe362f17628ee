/** The payment protocol as an asynchronous step system: every database transaction, every
    charge call and every poll of the worker is one atomic step, and a run is any sequence
    of steps. A step that is not enabled, or whose transaction aborts, leaves the tables
    unchanged. */
module Protocol {
  import opened Types
  import opened Psp
  import Money
  import RetrySchedule

  /** Where an in-flight pay request is. From `Claimed` on it owns the attempt whose
      pending snapshot it carries; `Lost` is a request that died after its first commit. */
  datatype PayState =
    | Looked(req: PayRequest)
    | Claimed(req: PayRequest, attempt: PaymentAttempt)
    | Sent(req: PayRequest, attempt: PaymentAttempt)
    | Answered(req: PayRequest, attempt: PaymentAttempt, result: PspResult)
    | Completed(req: PayRequest, attempt: PaymentAttempt, response: PaymentAttempt)
    | Lost(req: PayRequest, attempt: PaymentAttempt)
    | Replayed(req: PayRequest, response: PaymentAttempt)
    | Rejected(req: PayRequest, error: AppError)
  {
    predicate Originator() {
      Claimed? || Sent? || Answered? || Completed? || Lost?
    }
  }

  /** Where an edit, finalize or void request is between its two database visits. */
  datatype OpState =
    | EditReady(invoiceId: Id, businessId: Id, edit: EditRequest)
    | FinalizeReady(invoiceId: Id, businessId: Id, versioning: int)
    | VoidReady(invoiceId: Id, businessId: Id, versioning: int)
    | OpDone
    | OpFailed(error: AppError)

  datatype Snapshot = Snapshot(attemptId: Id, invoiceId: Id, retryCount: int)

  /** What one poll of the provider tells the worker. `Unavailable` covers the timeout, the
      transport error, an unexpected status and an unreadable body: none writes anything. */
  datatype Poll = Unavailable | NotFoundYet | Found(outcome: ChargeOutcome)

  datatype WorkerState =
    | Idle(wakeAt: int)
    | Reconciling(queue: seq<Snapshot>)
    | Polled(head: Snapshot, poll: Poll, queue: seq<Snapshot>)
    | Expiring(cutoff: int, expired: seq<Snapshot>)

  datatype ChargeCall = ChargeCall(attemptId: Id, cardToken: CardToken)

  /** The tables, the provider's store and the processes. The last four fields are history
      variables that no step reads: every charge call in order, the calls the provider has
      served, the request that created each attempt, and the attempt that last moved each
      invoice to Processing. */
  datatype World = World(
    now: int,
    invoices: map<Id, Invoice>,
    attempts: map<Id, AttemptRow>,
    records: map<IdemKey, IdemRecord>,
    psp: map<Id, ChargeOutcome>,
    requests: map<Id, PayState>,
    ops: map<Id, OpState>,
    worker: WorkerState,
    calls: seq<ChargeCall>,
    served: set<nat>,
    origin: map<Id, Id>,
    lastClaim: map<Id, Id>)

  datatype Step =
    | Advance(elapsed: nat)
    | Create(op: Id, invoiceId: Id, businessId: Id, customerKnown: bool,
             items: seq<LineItem>, dueDate: int, today: int)
    | EditCas(op: Id, invoiceId: Id, businessId: Id, edit: EditRequest)
    | EditApply(op: Id, today: int)
    | FinalizeSelect(op: Id, invoiceId: Id, businessId: Id, versioning: int)
    | VoidSelect(op: Id, invoiceId: Id, businessId: Id, versioning: int)
    | OpUpdate(op: Id)
    | OpAbort(op: Id)
    | PayLookup(rid: Id, req: PayRequest)
    | PayClaim(rid: Id, attemptId: Id)
    | PaySend(rid: Id)
    | PspServe(call: nat, ref: string)
    | PayReply(rid: Id, reply: WireReply)
    | PayResolve(rid: Id)
    | PayAbort(rid: Id)
    | TickSelect(rows: seq<Snapshot>)
    | TickPoll(poll: Poll)
    | TickWrite
    | TickSkip
    | ExpireSelect(rows: seq<Snapshot>)
    | ExpireWrite
    | TickEnd
    | TickAbort
    | WorkerRestart

  function Init(): World {
    World(0, map[], map[], map[], map[], map[], map[], Idle(0), [], {}, map[], map[])
  }

  // ----- what a step leaves alone -----

  predicate OnlyInvoices(w: World, w': World) {
    && w'.now == w.now && w'.attempts == w.attempts && w'.records == w.records && w'.psp == w.psp
    && w'.requests == w.requests && w'.worker == w.worker && w'.calls == w.calls
    && w'.served == w.served && w'.origin == w.origin && w'.lastClaim == w.lastClaim
  }

  predicate OnlyRequests(w: World, w': World) {
    && w'.now == w.now && w'.invoices == w.invoices && w'.attempts == w.attempts
    && w'.records == w.records && w'.psp == w.psp && w'.ops == w.ops && w'.worker == w.worker
    && w'.served == w.served && w'.origin == w.origin && w'.lastClaim == w.lastClaim
  }

  predicate OnlyPayTables(w: World, w': World) {
    && w'.now == w.now && w'.psp == w.psp && w'.ops == w.ops && w'.worker == w.worker
    && w'.calls == w.calls && w'.served == w.served
  }

  predicate OnlyWorker(w: World, w': World) {
    && w'.now == w.now && w'.records == w.records && w'.psp == w.psp
    && w'.requests == w.requests && w'.ops == w.ops && w'.calls == w.calls
    && w'.served == w.served && w'.origin == w.origin && w'.lastClaim == w.lastClaim
  }

  // ----- invoices -----

  /** `versioning + 1` on an INT column: the statement fails at the top of the range. */
  predicate CanBump(inv: Invoice) { inv.versioning < MAX_I32 }

  function Bumped(inv: Invoice, state: InvoiceState): Invoice {
    inv.(state := state, versioning := inv.versioning + 1)
  }

  predicate CreateStep(w: World, op: Id, iid: Id, bid: Id, customerKnown: bool,
                       items: seq<LineItem>, dueDate: int, today: int, w': World)
  {
    && OnlyInvoices(w, w')
    && if op in w.ops then w'.ops == w.ops && w'.invoices == w.invoices
       else if !customerKnown then
         w'.ops == w.ops[op := OpFailed(NotFound)] && w'.invoices == w.invoices
       else if Money.MachineTotal(items) <= 0 || dueDate < today then
         w'.ops == w.ops[op := OpFailed(BadRequest)] && w'.invoices == w.invoices
       else if iid in w.invoices then
         w'.ops == w.ops[op := OpFailed(DatabaseError)] && w'.invoices == w.invoices
       else if !Money.AllPositive(items) then
         w'.ops == w.ops[op := OpFailed(BadRequest)] && w'.invoices == w.invoices
       else
         && w'.ops == w.ops[op := OpDone]
         && w'.invoices == w.invoices[iid :=
              Invoice(bid, Draft, Money.MachineTotal(items), dueDate, 1, items)]
  }

  predicate ItemsAcceptable(edit: EditRequest) {
    edit.lineItems.Some? ==> edit.lineItems.value != [] && Money.AllPositive(edit.lineItems.value)
  }

  /** The version check of edit, which commits by itself before the edit's transaction. */
  predicate EditCasStep(w: World, op: Id, iid: Id, bid: Id, edit: EditRequest, w': World) {
    && OnlyInvoices(w, w')
    && if op in w.ops then w'.ops == w.ops && w'.invoices == w.invoices
       else if !ItemsAcceptable(edit) then
         w'.ops == w.ops[op := OpFailed(BadRequest)] && w'.invoices == w.invoices
       else if iid !in w.invoices || w.invoices[iid].versioning != edit.versioning
               || w.invoices[iid].state != Draft then
         w'.ops == w.ops[op := OpFailed(Conflict)] && w'.invoices == w.invoices
       else if !CanBump(w.invoices[iid]) then
         w'.ops == w.ops[op := OpFailed(DatabaseError)] && w'.invoices == w.invoices
       else
         && w'.ops == w.ops[op := EditReady(iid, bid, edit)]
         && w'.invoices == w.invoices[iid := Bumped(w.invoices[iid], Draft)]
  }

  function EditedInvoice(inv: Invoice, edit: EditRequest): Invoice {
    var dated := if edit.dueDate.Some? then inv.(dueDate := edit.dueDate.value) else inv;
    if edit.lineItems.Some? then
      dated.(lineItems := edit.lineItems.value, totalCents := Money.MachineTotal(edit.lineItems.value))
    else dated
  }

  predicate EditApplyStep(w: World, op: Id, today: int, w': World) {
    && OnlyInvoices(w, w')
    && if op in w.ops && w.ops[op].EditReady? then
         var o := w.ops[op];
         if o.invoiceId !in w.invoices || w.invoices[o.invoiceId].businessId != o.businessId then
           w'.ops == w.ops[op := OpFailed(NotFound)] && w'.invoices == w.invoices
         else if w.invoices[o.invoiceId].state != Draft then
           w'.ops == w.ops[op := OpFailed(InvalidStateTransition)] && w'.invoices == w.invoices
         else if (o.edit.dueDate.Some? && o.edit.dueDate.value < today)
                 || (o.edit.lineItems.Some? && Money.MachineTotal(o.edit.lineItems.value) <= 0) then
           w'.ops == w.ops[op := OpFailed(BadRequest)] && w'.invoices == w.invoices
         else
           && w'.ops == w.ops[op := OpDone]
           && w'.invoices == w.invoices[o.invoiceId := EditedInvoice(w.invoices[o.invoiceId], o.edit)]
       else w'.ops == w.ops && w'.invoices == w.invoices
  }

  /** The SELECT of finalize: it does not look at the version, and a missing row is a
      database error because it is fetched with `fetch_one`. */
  predicate FinalizeSelectStep(w: World, op: Id, iid: Id, bid: Id, v: int, w': World) {
    && OnlyInvoices(w, w')
    && w'.invoices == w.invoices
    && w'.ops ==
       if op in w.ops then w.ops
       else if iid !in w.invoices || w.invoices[iid].businessId != bid then
         w.ops[op := OpFailed(DatabaseError)]
       else if !w.invoices[iid].state.CanTransitionTo(Open) then
         w.ops[op := OpFailed(InvalidStateTransition)]
       else w.ops[op := FinalizeReady(iid, bid, v)]
  }

  /** The SELECT of void: it looks at the version, and tests reachability of Open. */
  predicate VoidSelectStep(w: World, op: Id, iid: Id, bid: Id, v: int, w': World) {
    && OnlyInvoices(w, w')
    && w'.invoices == w.invoices
    && w'.ops ==
       if op in w.ops then w.ops
       else if iid !in w.invoices || w.invoices[iid].businessId != bid
               || w.invoices[iid].versioning != v then
         w.ops[op := OpFailed(NotFound)]
       else if !w.invoices[iid].state.CanTransitionTo(Open) then
         w.ops[op := OpFailed(InvalidStateTransition)]
       else w.ops[op := VoidReady(iid, bid, v)]
  }

  /** The guarded UPDATE of finalize and void: it checks the version but not the state. */
  predicate OpUpdateStep(w: World, op: Id, w': World) {
    && OnlyInvoices(w, w')
    && if op in w.ops && (w.ops[op].FinalizeReady? || w.ops[op].VoidReady?) then
         var o := w.ops[op];
         if o.invoiceId !in w.invoices
            || w.invoices[o.invoiceId].businessId != o.businessId
            || w.invoices[o.invoiceId].versioning != o.versioning then
           w'.ops == w.ops[op := OpFailed(Conflict)] && w'.invoices == w.invoices
         else if !CanBump(w.invoices[o.invoiceId]) then
           w'.ops == w.ops[op := OpFailed(DatabaseError)] && w'.invoices == w.invoices
         else
           && w'.ops == w.ops[op := OpDone]
           && w'.invoices == w.invoices[o.invoiceId :=
                Bumped(w.invoices[o.invoiceId], if o.FinalizeReady? then Open else Void)]
       else w'.ops == w.ops && w'.invoices == w.invoices
  }

  predicate OpAbortStep(w: World, op: Id, w': World) {
    && OnlyInvoices(w, w')
    && w'.invoices == w.invoices
    && w'.ops == if op in w.ops && !w.ops[op].OpDone? && !w.ops[op].OpFailed?
                 then w.ops[op := OpFailed(DatabaseError)] else w.ops
  }

  // ----- pay requests -----

  predicate PayLookupStep(w: World, rid: Id, req: PayRequest, w': World) {
    && OnlyRequests(w, w')
    && w'.calls == w.calls
    && w'.requests ==
       if rid in w.requests then w.requests
       else if KeyOf(req) in w.records && w.records[KeyOf(req)].createdAt > w.now - DAY_MS then
         w.requests[rid := Replayed(req, w.records[KeyOf(req)].body)]
       else w.requests[rid := Looked(req)]
  }

  function PendingAttempt(req: PayRequest, aid: Id, now: int): PaymentAttempt {
    PaymentAttempt(aid, req.invoiceId, Pending, req.cardToken, None, None, now, now)
  }

  /** The first transaction. After its CAS it can still fail on the version range, the
      attempts' primary key or the unique index on idempotency keys; then everything it
      did, the CAS included, is rolled back. */
  predicate PayClaimStep(w: World, rid: Id, aid: Id, w': World) {
    && OnlyPayTables(w, w')
    && if rid in w.requests && w.requests[rid].Looked?
          && w.requests[rid].req.invoiceId in w.invoices
          && w.invoices[w.requests[rid].req.invoiceId].state == Open
          && w.invoices[w.requests[rid].req.invoiceId].versioning == w.requests[rid].req.versioning
          && CanBump(w.invoices[w.requests[rid].req.invoiceId])
          && aid !in w.attempts
          && KeyOf(w.requests[rid].req) !in w.records then
         var req := w.requests[rid].req;
         var attempt := PendingAttempt(req, aid, w.now);
         && w'.invoices == w.invoices[req.invoiceId := Bumped(w.invoices[req.invoiceId], Processing)]
         && w'.attempts == w.attempts[aid := AttemptRow(attempt, 0, None, [])]
         && w'.records == w.records[KeyOf(req) := IdemRecord(attempt, 0, w.now, w.now)]
         && w'.requests == w.requests[rid := Claimed(req, attempt)]
         && w'.origin == w.origin[aid := rid]
         && w'.lastClaim == w.lastClaim[req.invoiceId := aid]
       else
         && w'.invoices == w.invoices && w'.attempts == w.attempts && w'.records == w.records
         && w'.origin == w.origin && w'.lastClaim == w.lastClaim
         && w'.requests ==
            if rid !in w.requests || !w.requests[rid].Looked? then w.requests
            else if w.requests[rid].req.invoiceId in w.invoices
                    && w.invoices[w.requests[rid].req.invoiceId].state == Open
                    && w.invoices[w.requests[rid].req.invoiceId].versioning == w.requests[rid].req.versioning then
              w.requests[rid := Rejected(w.requests[rid].req, DatabaseError)]
            else w.requests[rid := Rejected(w.requests[rid].req, Conflict)]
  }

  predicate PaySendStep(w: World, rid: Id, w': World) {
    && OnlyRequests(w, w')
    && if rid in w.requests && w.requests[rid].Claimed? then
         && w'.requests == w.requests[rid := Sent(w.requests[rid].req, w.requests[rid].attempt)]
         && w'.calls == w.calls + [ChargeCall(w.requests[rid].attempt.id, w.requests[rid].req.cardToken)]
       else w'.requests == w.requests && w'.calls == w.calls
  }

  predicate PspServeStep(w: World, k: nat, ref: string, w': World) {
    && w'.now == w.now && w'.invoices == w.invoices && w'.attempts == w.attempts
    && w'.records == w.records && w'.requests == w.requests && w'.ops == w.ops
    && w'.worker == w.worker && w'.calls == w.calls
    && w'.origin == w.origin && w'.lastClaim == w.lastClaim
    && if k < |w.calls| && k !in w.served then
         && w'.served == w.served + {k}
         && w'.psp == if StoredOutcome(w.calls[k].cardToken, ref).Some?
                      then w.psp[w.calls[k].attemptId := StoredOutcome(w.calls[k].cardToken, ref).value]
                      else w.psp
       else w'.served == w.served && w'.psp == w.psp
  }

  /** A readable body within five seconds repeats the stored outcome; the token whose reply
      takes thirty seconds never gets that far. */
  predicate ReplyPossible(psp: map<Id, ChargeOutcome>, attempt: PaymentAttempt, reply: WireReply) {
    reply.Http? && reply.ok && reply.body.Some? ==>
      && attempt.id in psp
      && psp[attempt.id] == reply.body.value
      && attempt.cardToken != TokTimeout
  }

  predicate PayReplyStep(w: World, rid: Id, reply: WireReply, w': World) {
    && OnlyRequests(w, w')
    && w'.calls == w.calls
    && w'.requests ==
       if rid in w.requests && w.requests[rid].Sent?
          && ReplyPossible(w.psp, w.requests[rid].attempt, reply) then
         w.requests[rid := Answered(w.requests[rid].req, w.requests[rid].attempt, CallPsp(reply))]
       else w.requests
  }

  /** The attempt row after the request's final write. */
  function Resolved(row: AttemptRow, result: PspResult, now: int): AttemptRow {
    match result
    case ChargeSucceeded(ref) =>
      row.(attempt := row.attempt.(status := Succeeded, pspReference := Some(ref), updatedAt := now))
    case ChargeFailed(code) =>
      row.(attempt := row.attempt.(status := Failed, failureCode := Some(code), updatedAt := now))
    case _ => row
  }

  function WithResponse(records: map<IdemKey, IdemRecord>, k: IdemKey, body: PaymentAttempt,
                        status: int, now: int): map<IdemKey, IdemRecord>
  {
    if k in records then
      records[k := records[k].(body := body, responseStatus := status, updatedAt := now)]
    else records
  }

  /** Whether the second transaction of a request with a final result goes through. */
  predicate ResolveCommits(w: World, pc: PayState)
    requires pc.Answered?
  {
    && pc.attempt.id in w.attempts
    && pc.req.invoiceId in w.invoices
    && CanBump(w.invoices[pc.req.invoiceId])
  }

  /** The second transaction. Its writes are keyed by id alone: neither the attempt's
      status nor the invoice's state is checked. */
  predicate PayResolveStep(w: World, rid: Id, w': World) {
    && OnlyPayTables(w, w')
    && w'.origin == w.origin && w'.lastClaim == w.lastClaim
    && if rid in w.requests && w.requests[rid].Answered? then
         var pc := w.requests[rid];
         if !Final(pc.result) then
           && w'.invoices == w.invoices && w'.attempts == w.attempts
           && w'.records == WithResponse(w.records, KeyOf(pc.req), pc.attempt, 202, w.now)
           && w'.requests == w.requests[rid := Completed(pc.req, pc.attempt, pc.attempt)]
         else if ResolveCommits(w, pc) then
           var row := Resolved(w.attempts[pc.attempt.id], pc.result, w.now);
           && w'.attempts == w.attempts[pc.attempt.id := row]
           && w'.invoices == w.invoices[pc.req.invoiceId :=
                Bumped(w.invoices[pc.req.invoiceId], if pc.result.ChargeSucceeded? then Paid else Open)]
           && w'.records == WithResponse(w.records, KeyOf(pc.req), row.attempt, 200, w.now)
           && w'.requests == w.requests[rid := Completed(pc.req, pc.attempt, row.attempt)]
         else
           && w'.invoices == w.invoices && w'.attempts == w.attempts && w'.records == w.records
           && w'.requests == w.requests[rid := Lost(pc.req, pc.attempt)]
       else
         && w'.invoices == w.invoices && w'.attempts == w.attempts && w'.records == w.records
         && w'.requests == w.requests
  }

  /** A database error or a crash: the request is gone, its open transaction rolled back. */
  predicate PayAbortStep(w: World, rid: Id, w': World) {
    && OnlyRequests(w, w')
    && w'.calls == w.calls
    && w'.requests ==
       if rid !in w.requests then w.requests
       else match w.requests[rid]
         case Looked(req) => w.requests[rid := Rejected(req, DatabaseError)]
         case Claimed(req, a) => w.requests[rid := Lost(req, a)]
         case Sent(req, a) => w.requests[rid := Lost(req, a)]
         case Answered(req, a, _) => w.requests[rid := Lost(req, a)]
         case _ => w.requests
  }

  // ----- reconciliation worker -----

  predicate PendingIn(attempts: map<Id, AttemptRow>, aid: Id) {
    aid in attempts && attempts[aid].attempt.status == Pending
  }

  /** The rows of the reconciliation query. */
  predicate Due(attempts: map<Id, AttemptRow>, now: int, aid: Id) {
    && PendingIn(attempts, aid)
    && (attempts[aid].nextRetryAt.Some? ==> attempts[aid].nextRetryAt.value <= now)
    && attempts[aid].attempt.createdAt > now - DAY_MS
  }

  /** The rows of the expiry query. */
  predicate Overdue(attempts: map<Id, AttemptRow>, now: int, aid: Id) {
    PendingIn(attempts, aid) && attempts[aid].attempt.createdAt <= now - DAY_MS
  }

  function SnapshotOf(attempts: map<Id, AttemptRow>, aid: Id): Snapshot
    requires aid in attempts
  {
    Snapshot(aid, attempts[aid].attempt.invoiceId, attempts[aid].retryCount)
  }

  predicate Listed(rows: seq<Snapshot>, aid: Id) {
    exists j :: 0 <= j < |rows| && rows[j].attemptId == aid
  }

  predicate NoDuplicates(rows: seq<Snapshot>) {
    forall i, j :: 0 <= i < j < |rows| ==> rows[i].attemptId != rows[j].attemptId
  }

  /** `rows` is a result of the reconciliation query, in whatever order it came. */
  predicate DueRows(attempts: map<Id, AttemptRow>, now: int, rows: seq<Snapshot>) {
    && NoDuplicates(rows)
    && (forall j :: 0 <= j < |rows| ==>
          Due(attempts, now, rows[j].attemptId) && rows[j] == SnapshotOf(attempts, rows[j].attemptId))
    && (forall aid {:trigger Due(attempts, now, aid)} {:trigger Listed(rows, aid)} ::
          aid in attempts && Due(attempts, now, aid) ==> Listed(rows, aid))
  }

  /** `rows` is a result of the expiry query. */
  predicate OverdueRows(attempts: map<Id, AttemptRow>, now: int, rows: seq<Snapshot>) {
    && NoDuplicates(rows)
    && (forall j :: 0 <= j < |rows| ==>
          Overdue(attempts, now, rows[j].attemptId) && rows[j] == SnapshotOf(attempts, rows[j].attemptId))
    && (forall aid {:trigger Overdue(attempts, now, aid)} {:trigger Listed(rows, aid)} ::
          aid in attempts && Overdue(attempts, now, aid) ==> Listed(rows, aid))
  }

  /** The worker sleeps for a minute after every tick, whether it went well or not. */
  const TICK_PAUSE_MS: int := MINUTE_MS

  predicate Awake(w: World) { w.worker.Idle? && w.worker.wakeAt <= w.now }

  predicate TickSelectStep(w: World, rows: seq<Snapshot>, w': World) {
    && OnlyWorker(w, w')
    && w'.invoices == w.invoices && w'.attempts == w.attempts
    && w'.worker == if Awake(w) && DueRows(w.attempts, w.now, rows) then Reconciling(rows) else w.worker
  }

  predicate PollPossible(psp: map<Id, ChargeOutcome>, aid: Id, poll: Poll) {
    && (poll.NotFoundYet? ==> aid !in psp)
    && (poll.Found? ==> aid in psp && psp[aid] == poll.outcome)
  }

  predicate TickPollStep(w: World, poll: Poll, w': World) {
    && OnlyWorker(w, w')
    && w'.invoices == w.invoices && w'.attempts == w.attempts
    && w'.worker ==
       if w.worker.Reconciling? && w.worker.queue != []
          && PollPossible(w.psp, w.worker.queue[0].attemptId, poll) then
         if poll.Unavailable? then Reconciling(w.worker.queue[1..])
         else Polled(w.worker.queue[0], poll, w.worker.queue[1..])
       else w.worker
  }

  /** The backoff of a snapshot: the power takes the count as unsigned 32 bits. */
  function BackoffOf(retryCount: int): int {
    RetrySchedule.BackoffMins(retryCount % 0x1_0000_0000)
  }

  function Missed(row: AttemptRow, backoffMins: int, now: int): AttemptRow {
    row.(retryCount := row.retryCount + 1,
         nextRetryAt := Some(now + MINUTE_MS * backoffMins),
         attempt := row.attempt.(updatedAt := now),
         misses := row.misses + [now])
  }

  function Reconciled(row: AttemptRow, o: ChargeOutcome, now: int): AttemptRow {
    match o.status
    case OutcomeSucceeded =>
      row.(attempt := row.attempt.(status := Succeeded, pspReference := o.pspRef, updatedAt := now))
    case OutcomeFailed =>
      row.(attempt := row.attempt.(status := Failed, failureCode := o.code, updatedAt := now))
    case OutcomeOther => row
  }

  /** The worker's invoice write: only from Processing, and without a new version. */
  function ReconciledInvoice(inv: Invoice, o: ChargeOutcome): Invoice {
    if inv.state != Processing then inv
    else match o.status
      case OutcomeSucceeded => inv.(state := Paid)
      case OutcomeFailed => inv.(state := Open)
      case OutcomeOther => inv
  }

  predicate TickWriteStep(w: World, w': World) {
    && OnlyWorker(w, w')
    && w'.worker == (if w.worker.Polled? then Reconciling(w.worker.queue) else w.worker)
    && if w.worker.Polled? && w.worker.poll.NotFoundYet?
          && w.worker.head.attemptId in w.attempts
          && w.attempts[w.worker.head.attemptId].retryCount < MAX_I32 then
         && w'.invoices == w.invoices
         && w'.attempts == w.attempts[w.worker.head.attemptId :=
              Missed(w.attempts[w.worker.head.attemptId], BackoffOf(w.worker.head.retryCount), w.now)]
       else if w.worker.Polled? && w.worker.poll.Found?
               && w.worker.head.attemptId in w.attempts
               && w.worker.head.invoiceId in w.invoices then
         && w'.attempts == w.attempts[w.worker.head.attemptId :=
              Reconciled(w.attempts[w.worker.head.attemptId], w.worker.poll.outcome, w.now)]
         && w'.invoices == w.invoices[w.worker.head.invoiceId :=
              ReconciledInvoice(w.invoices[w.worker.head.invoiceId], w.worker.poll.outcome)]
       else w'.attempts == w.attempts && w'.invoices == w.invoices
  }

  /** A database error on one attempt: the worker logs it and goes on. */
  predicate TickSkipStep(w: World, w': World) {
    && OnlyWorker(w, w')
    && w'.invoices == w.invoices && w'.attempts == w.attempts
    && w'.worker == if w.worker.Polled? then Reconciling(w.worker.queue) else w.worker
  }

  predicate ExpireSelectStep(w: World, rows: seq<Snapshot>, w': World) {
    && OnlyWorker(w, w')
    && w'.invoices == w.invoices && w'.attempts == w.attempts
    && w'.worker ==
       if w.worker.Reconciling? && w.worker.queue == [] && OverdueRows(w.attempts, w.now, rows)
       then Expiring(w.now - DAY_MS, rows) else w.worker
  }

  function ExpiredRow(row: AttemptRow, now: int): AttemptRow {
    row.(attempt := row.attempt.(status := Failed, failureCode := Some(ReconciliationTimeout), updatedAt := now))
  }

  /** The expiry transaction: no status check, no state check, no new version. */
  predicate ExpireWriteStep(w: World, w': World) {
    && OnlyWorker(w, w')
    && w'.worker == (if w.worker.Expiring? && w.worker.expired != []
                     then Expiring(w.worker.cutoff, w.worker.expired[1..]) else w.worker)
    && if w.worker.Expiring? && w.worker.expired != []
          && w.worker.expired[0].attemptId in w.attempts
          && w.worker.expired[0].invoiceId in w.invoices then
         && w'.attempts == w.attempts[w.worker.expired[0].attemptId :=
              ExpiredRow(w.attempts[w.worker.expired[0].attemptId], w.now)]
         && w'.invoices == w.invoices[w.worker.expired[0].invoiceId :=
              w.invoices[w.worker.expired[0].invoiceId].(state := Open)]
       else w'.attempts == w.attempts && w'.invoices == w.invoices
  }

  predicate TickEndStep(w: World, w': World) {
    && OnlyWorker(w, w')
    && w'.invoices == w.invoices && w'.attempts == w.attempts
    && w'.worker == if w.worker.Expiring? && w.worker.expired == []
                    then Idle(w.now + TICK_PAUSE_MS) else w.worker
  }

  /** A database error in one of the tick's queries or in an expiry transaction. */
  predicate TickAbortStep(w: World, w': World) {
    && OnlyWorker(w, w')
    && w'.invoices == w.invoices && w'.attempts == w.attempts
    && w'.worker == if w.worker.Idle? && !Awake(w) then w.worker else Idle(w.now + TICK_PAUSE_MS)
  }

  /** The process restarts, at any time: its worker begins a new tick at once. */
  predicate WorkerRestartStep(w: World, w': World) {
    && OnlyWorker(w, w')
    && w'.invoices == w.invoices && w'.attempts == w.attempts
    && w'.worker == Idle(w.now)
  }

  predicate AdvanceStep(w: World, elapsed: nat, w': World) {
    && w'.now == w.now + elapsed && w'.invoices == w.invoices && w'.attempts == w.attempts
    && w'.records == w.records && w'.psp == w.psp && w'.requests == w.requests && w'.ops == w.ops
    && w'.worker == w.worker && w'.calls == w.calls && w'.served == w.served
    && w'.origin == w.origin && w'.lastClaim == w.lastClaim
  }

  // ----- runs -----

  predicate Next(w: World, s: Step, w': World) {
    match s
    case Advance(elapsed) => AdvanceStep(w, elapsed, w')
    case Create(op, iid, bid, known, items, due, today) => CreateStep(w, op, iid, bid, known, items, due, today, w')
    case EditCas(op, iid, bid, edit) => EditCasStep(w, op, iid, bid, edit, w')
    case EditApply(op, today) => EditApplyStep(w, op, today, w')
    case FinalizeSelect(op, iid, bid, v) => FinalizeSelectStep(w, op, iid, bid, v, w')
    case VoidSelect(op, iid, bid, v) => VoidSelectStep(w, op, iid, bid, v, w')
    case OpUpdate(op) => OpUpdateStep(w, op, w')
    case OpAbort(op) => OpAbortStep(w, op, w')
    case PayLookup(rid, req) => PayLookupStep(w, rid, req, w')
    case PayClaim(rid, aid) => PayClaimStep(w, rid, aid, w')
    case PaySend(rid) => PaySendStep(w, rid, w')
    case PspServe(k, ref) => PspServeStep(w, k, ref, w')
    case PayReply(rid, reply) => PayReplyStep(w, rid, reply, w')
    case PayResolve(rid) => PayResolveStep(w, rid, w')
    case PayAbort(rid) => PayAbortStep(w, rid, w')
    case TickSelect(rows) => TickSelectStep(w, rows, w')
    case TickPoll(poll) => TickPollStep(w, poll, w')
    case TickWrite => TickWriteStep(w, w')
    case TickSkip => TickSkipStep(w, w')
    case ExpireSelect(rows) => ExpireSelectStep(w, rows, w')
    case ExpireWrite => ExpireWriteStep(w, w')
    case TickEnd => TickEndStep(w, w')
    case TickAbort => TickAbortStep(w, w')
    case WorkerRestart => WorkerRestartStep(w, w')
  }

  /** A run: a world and one more world after every step. It is a run of the system when
      it starts from the initial world. */
  datatype Run = Run(worlds: seq<World>, steps: seq<Step>) {
    ghost predicate Fragment() {
      && |worlds| == |steps| + 1
      && forall n {:trigger StepAt(n)} :: 0 <= n < |steps| ==> StepAt(n)
    }

    ghost predicate Valid() { Fragment() && worlds[0] == Init() }

    ghost predicate StepAt(n: int)
      requires |worlds| == |steps| + 1
    {
      0 <= n < |steps| && Next(worlds[n], steps[n], worlds[n + 1])
    }
  }
}

/** Every write that can move an invoice or settle an attempt, described once by its
    effect, so that the theorems about ownership need no case split over the steps. */
module Effects {
  import opened Types
  import opened Psp
  import opened Protocol
  import opened Bookkeeping

  datatype WriteKind = RequestSuccess | RequestFailure | WorkerSuccess | WorkerFailure | Expiry

  /** A committing write of a final status: to which attempt, to which invoice, by whom. */
  datatype FinalWrite = NoWrite | FinalWrite(attemptId: Id, invoiceId: Id, kind: WriteKind)

  function WriteOf(w: World, s: Step): FinalWrite {
    match s
    case PayResolve(rid) =>
      if rid in w.requests && w.requests[rid].Answered? && Final(w.requests[rid].result)
         && ResolveCommits(w, w.requests[rid]) then
        FinalWrite(w.requests[rid].attempt.id, w.requests[rid].req.invoiceId,
                   if w.requests[rid].result.ChargeSucceeded? then RequestSuccess else RequestFailure)
      else NoWrite
    case TickWrite =>
      if w.worker.Polled? && w.worker.poll.Found? && w.worker.poll.outcome.status != OutcomeOther
         && w.worker.head.attemptId in w.attempts && w.worker.head.invoiceId in w.invoices then
        FinalWrite(w.worker.head.attemptId, w.worker.head.invoiceId,
                   if w.worker.poll.outcome.status == OutcomeSucceeded then WorkerSuccess else WorkerFailure)
      else NoWrite
    case ExpireWrite =>
      if w.worker.Expiring? && w.worker.expired != []
         && w.worker.expired[0].attemptId in w.attempts && w.worker.expired[0].invoiceId in w.invoices then
        FinalWrite(w.worker.expired[0].attemptId, w.worker.expired[0].invoiceId, Expiry)
      else NoWrite
    case _ => NoWrite
  }

  function StatusAfter(kind: WriteKind): PaymentStatus {
    if kind.RequestSuccess? || kind.WorkerSuccess? then Succeeded else Failed
  }

  function StateAfter(kind: WriteKind, state: InvoiceState): InvoiceState {
    match kind
    case RequestSuccess => Paid
    case RequestFailure => Open
    case WorkerSuccess => if state == Processing then Paid else state
    case WorkerFailure => if state == Processing then Open else state
    case Expiry => Open
  }

  /** The effect of a final write: one attempt gets its status, its invoice gets its state,
      and no other attempt or invoice changes. */
  ghost predicate Writes(w: World, f: FinalWrite, w': World)
    requires f.FinalWrite?
  {
    && f.attemptId in w.attempts
    && f.invoiceId in w.invoices
    && w.attempts[f.attemptId].attempt.invoiceId == f.invoiceId
    && w'.attempts.Keys == w.attempts.Keys
    && w'.invoices.Keys == w.invoices.Keys
    && (forall a :: a in w.attempts && a != f.attemptId ==> w'.attempts[a] == w.attempts[a])
    && w'.attempts[f.attemptId].attempt ==
       w.attempts[f.attemptId].attempt.(status := StatusAfter(f.kind),
                                        pspReference := w'.attempts[f.attemptId].attempt.pspReference,
                                        failureCode := w'.attempts[f.attemptId].attempt.failureCode,
                                        updatedAt := w.now)
    && (forall i :: i in w.invoices && i != f.invoiceId ==> w'.invoices[i] == w.invoices[i])
    && w'.invoices[f.invoiceId] ==
       w.invoices[f.invoiceId].(state := StateAfter(f.kind, w.invoices[f.invoiceId].state),
                                versioning := w'.invoices[f.invoiceId].versioning)
    && w'.lastClaim == w.lastClaim
  }

  lemma ResolveWrites(w: World, rid: Id, w': World)
    requires Core(w) && PayResolveStep(w, rid, w') && WriteOf(w, PayResolve(rid)).FinalWrite?
    ensures Writes(w, WriteOf(w, PayResolve(rid)), w')
  {
    assert OriginatorOk(w, rid);
  }

  lemma TickWrites(w: World, w': World)
    requires Lists(w) && TickWriteStep(w, w') && WriteOf(w, TickWrite).FinalWrite?
    ensures Writes(w, WriteOf(w, TickWrite), w')
  {
    assert Known(w, w.worker.head);
  }

  lemma ExpireWrites(w: World, w': World)
    requires Lists(w) && ExpireWriteStep(w, w') && WriteOf(w, ExpireWrite).FinalWrite?
    ensures Writes(w, WriteOf(w, ExpireWrite), w')
  {
    assert Known(w, w.worker.expired[0]);
  }

  lemma FinalWriteEffect(w: World, s: Step, w': World)
    requires Core(w) && Lists(w) && Next(w, s, w') && WriteOf(w, s).FinalWrite?
    ensures Writes(w, WriteOf(w, s), w')
  {
    if s.PayResolve? { ResolveWrites(w, s.rid, w'); }
    else if s.TickWrite? { TickWrites(w, w'); }
    else { ExpireWrites(w, w'); }
  }

  /** Only the request's own writes raise the version. */
  function VersionAfter(kind: WriteKind, versioning: int): int {
    if kind.RequestSuccess? || kind.RequestFailure? then versioning + 1 else versioning
  }

  /** The rest of a final write: the invoice's version, and the failure code of a success. */
  ghost predicate WritesDetails(w: World, f: FinalWrite, w': World)
    requires f.FinalWrite?
  {
    && f.attemptId in w.attempts && f.attemptId in w'.attempts
    && f.invoiceId in w.invoices && f.invoiceId in w'.invoices
    && w'.invoices[f.invoiceId].versioning == VersionAfter(f.kind, w.invoices[f.invoiceId].versioning)
    && (StatusAfter(f.kind) == Succeeded ==>
          w'.attempts[f.attemptId].attempt.failureCode == w.attempts[f.attemptId].attempt.failureCode)
  }

  lemma FinalWriteDetails(w: World, s: Step, w': World)
    requires Next(w, s, w') && WriteOf(w, s).FinalWrite?
    ensures WritesDetails(w, WriteOf(w, s), w')
  {
  }

  /** A committing claim. */
  predicate Claims(w: World, s: Step) {
    && s.PayClaim?
    && s.rid in w.requests && w.requests[s.rid].Looked?
    && w.requests[s.rid].req.invoiceId in w.invoices
    && w.invoices[w.requests[s.rid].req.invoiceId].state == Open
    && w.invoices[w.requests[s.rid].req.invoiceId].versioning == w.requests[s.rid].req.versioning
    && CanBump(w.invoices[w.requests[s.rid].req.invoiceId])
    && s.attemptId !in w.attempts
    && KeyOf(w.requests[s.rid].req) !in w.records
  }

  /** The effect of a claim on an Open invoice: one new pending attempt, one new version. */
  ghost predicate ClaimEffect(w: World, i: Id, a: Id, w': World) {
    && i in w.invoices && w.invoices[i].state == Open
    && a !in w.attempts
    && w'.attempts.Keys == w.attempts.Keys + {a}
    && w'.attempts[a].attempt.status == Pending
    && w'.attempts[a].attempt.invoiceId == i
    && w'.attempts[a].attempt.createdAt == w.now
    && (forall b :: b in w.attempts ==> w'.attempts[b] == w.attempts[b])
    && w'.invoices.Keys == w.invoices.Keys
    && w'.invoices[i] == Bumped(w.invoices[i], Processing)
    && (forall j :: j in w.invoices && j != i ==> w'.invoices[j] == w.invoices[j])
    && w'.lastClaim == w.lastClaim[i := a]
  }

  lemma ClaimHasEffect(w: World, s: Step, w': World)
    requires Next(w, s, w') && Claims(w, s)
    ensures ClaimEffect(w, w.requests[s.rid].req.invoiceId, s.attemptId, w')
  {
  }

  /** Everything else leaves every status alone. */
  ghost predicate StatusesSame(w: World, w': World) {
    && w'.attempts.Keys == w.attempts.Keys
    && w'.lastClaim == w.lastClaim
    && (forall a :: a in w.attempts ==>
          && SameIdentity(w.attempts[a], w'.attempts[a])
          && w'.attempts[a].attempt.status == w.attempts[a].attempt.status)
  }

  lemma QuietPay(w: World, s: Step, w': World)
    requires Next(w, s, w') && PayStep(s) && !Claims(w, s) && WriteOf(w, s).NoWrite?
    ensures w'.attempts == w.attempts && w'.invoices == w.invoices && w'.lastClaim == w.lastClaim
  {
    if s.PayClaim? { QuietClaim(w, s.rid, s.attemptId, w'); }
    else if s.PayResolve? { QuietResolve(w, s.rid, w'); }
    else { QuietOther(w, s, w'); }
  }

  lemma QuietClaim(w: World, rid: Id, aid: Id, w': World)
    requires PayClaimStep(w, rid, aid, w') && !Claims(w, PayClaim(rid, aid))
    ensures w'.attempts == w.attempts && w'.invoices == w.invoices && w'.lastClaim == w.lastClaim
  {
  }

  lemma QuietResolve(w: World, rid: Id, w': World)
    requires PayResolveStep(w, rid, w') && WriteOf(w, PayResolve(rid)).NoWrite?
    ensures w'.attempts == w.attempts && w'.invoices == w.invoices && w'.lastClaim == w.lastClaim
  {
  }

  lemma QuietOther(w: World, s: Step, w': World)
    requires Next(w, s, w') && PayStep(s) && !s.PayClaim? && !s.PayResolve?
    ensures w'.attempts == w.attempts && w'.invoices == w.invoices && w'.lastClaim == w.lastClaim
  {
  }

  lemma QuietWorker(w: World, s: Step, w': World)
    requires Next(w, s, w') && WorkerStep(s) && WriteOf(w, s).NoWrite?
    ensures StatusesSame(w, w')
    ensures w'.invoices == w.invoices
  {
    WorkerFootprint(w, s, w');
    if s.TickWrite? || s.ExpireWrite? { QuietWrites(w, s, w'); }
  }

  lemma QuietWrites(w: World, s: Step, w': World)
    requires Next(w, s, w') && (s.TickWrite? || s.ExpireWrite?) && WriteOf(w, s).NoWrite?
    ensures StatusesSame(w, w') && w'.invoices == w.invoices
  {
  }

  lemma QuietStatuses(w: World, s: Step, w': World)
    requires Next(w, s, w') && !Claims(w, s) && WriteOf(w, s).NoWrite?
    ensures StatusesSame(w, w')
  {
    if PayStep(s) { QuietPay(w, s, w'); }
    else if WorkerStep(s) { QuietWorker(w, s, w'); }
    else { InvoiceFootprint(w, s, w'); }
  }

  /** Everything else leaves every failure code alone, too. */
  lemma QuietFailureCodes(w: World, s: Step, w': World)
    requires Next(w, s, w') && !Claims(w, s) && WriteOf(w, s).NoWrite?
    ensures forall a :: a in w.attempts ==>
              a in w'.attempts && w'.attempts[a].attempt.failureCode == w.attempts[a].attempt.failureCode
  {
    if PayStep(s) { QuietPay(w, s, w'); }
    else if s.TickWrite? || s.ExpireWrite? { QuietWriteCodes(w, s, w'); }
    else if WorkerStep(s) { WorkerFootprint(w, s, w'); }
    else { InvoiceFootprint(w, s, w'); }
  }

  lemma QuietWriteCodes(w: World, s: Step, w': World)
    requires Next(w, s, w') && (s.TickWrite? || s.ExpireWrite?) && WriteOf(w, s).NoWrite?
    ensures forall a :: a in w.attempts ==>
              a in w'.attempts && w'.attempts[a].attempt.failureCode == w.attempts[a].attempt.failureCode
  {
  }

  /** A committing finalize or void. */
  predicate OpCommits(w: World, s: Step) {
    && s.OpUpdate?
    && s.op in w.ops && (w.ops[s.op].FinalizeReady? || w.ops[s.op].VoidReady?)
    && w.ops[s.op].invoiceId in w.invoices
    && w.invoices[w.ops[s.op].invoiceId].businessId == w.ops[s.op].businessId
    && w.invoices[w.ops[s.op].invoiceId].versioning == w.ops[s.op].versioning
    && CanBump(w.invoices[w.ops[s.op].invoiceId])
  }

  function OpTarget(o: OpState): InvoiceState { if o.FinalizeReady? then Open else Void }

  lemma OpEffect(w: World, s: Step, w': World)
    requires Next(w, s, w') && OpCommits(w, s)
    ensures w'.invoices == w.invoices[w.ops[s.op].invoiceId :=
              Bumped(w.invoices[w.ops[s.op].invoiceId], OpTarget(w.ops[s.op]))]
  {
  }

  /** The other invoice operations move no invoice; new invoices are drafts. */
  lemma QuietInvoices(w: World, s: Step, w': World)
    requires Next(w, s, w') && !PayStep(s) && !WorkerStep(s) && !OpCommits(w, s)
    ensures w.invoices.Keys <= w'.invoices.Keys
    ensures forall i :: i in w.invoices ==> w'.invoices[i].state == w.invoices[i].state
    ensures forall i :: i in w'.invoices && i !in w.invoices ==> w'.invoices[i].state == Draft
  {
  }
}

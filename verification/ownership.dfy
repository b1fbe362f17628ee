/** Who owns an invoice: at most one live attempt, and an invoice state that says which.
    The final writes check nothing, so this holds for exactly the runs whose writes are
    all safe. */
module Ownership {
  import opened Types
  import opened Protocol
  import opened Bookkeeping
  import opened Effects
  import opened Resolution
  import opened Versions
  import opened Ledger

  predicate Live(at: PaymentAttempt) { at.status == Pending || at.status == Succeeded }

  /** The invoice of an attempt: pending attempts hold it in Processing, a succeeded one
      has paid it, and an invoice with an attempt was finalized. */
  ghost predicate HoldsOk(w: World, a: Id) {
    a in w.attempts ==>
      var at := w.attempts[a].attempt;
      && at.invoiceId in w.invoices
      && (at.status == Pending ==> w.invoices[at.invoiceId].state == Processing)
      && (at.status == Succeeded ==> w.invoices[at.invoiceId].state == Paid)
      && w.invoices[at.invoiceId].state in {Open, Processing, Paid}
  }

  ghost predicate AloneOk(w: World, a: Id, b: Id) {
    && a in w.attempts && Live(w.attempts[a].attempt)
    && b in w.attempts && Live(w.attempts[b].attempt)
    && w.attempts[a].attempt.invoiceId == w.attempts[b].attempt.invoiceId
    ==> a == b
  }

  predicate PaidBy(w: World, i: Id, a: Id) {
    a in w.attempts && w.attempts[a].attempt.invoiceId == i && w.attempts[a].attempt.status == Succeeded
  }

  ghost predicate PaidOk(w: World, i: Id) {
    i in w.invoices && w.invoices[i].state == Paid ==> exists a :: PaidBy(w, i, a)
  }

  ghost predicate Owned(w: World) {
    && (forall a {:trigger HoldsOk(w, a)} :: HoldsOk(w, a))
    && (forall a, b {:trigger AloneOk(w, a, b)} :: AloneOk(w, a, b))
    && (forall i {:trigger PaidOk(w, i)} :: PaidOk(w, i))
  }

  /** The moves of the invoice state machine that the running system makes. */
  predicate LegalMove(p: InvoiceState, q: InvoiceState) {
    || p == q
    || (p == Draft && (q == Open || q == Void))
    || (p == Open && q == Processing)
    || (p == Processing && (q == Paid || q == Open))
  }

  /** Where the running system and the declared table part: payments that fail go back to
      Open, which the table forbids; and the guard of finalize and void lets only drafts
      through. */
  lemma MovesAndTheTable(p: InvoiceState, q: InvoiceState)
    ensures LegalMove(p, q) && p != q && !p.CanTransitionTo(q) <==> p == Processing && q == Open
    ensures p.CanTransitionTo(Open) <==> p == Draft
    ensures p.CanTransitionTo(Void) <==> p == Draft || p == Open
    ensures p.CanTransitionTo(Uncollectible) <==> p == Open || p == Processing
    ensures p.CanTransitionTo(Processing) <==> p == Open
    ensures p.CanTransitionTo(Paid) <==> p == Processing
    ensures !p.CanTransitionTo(Draft)
  {
  }

  ghost predicate Legal(w: World, w': World) {
    forall i :: i in w.invoices ==> i in w'.invoices && LegalMove(w.invoices[i].state, w'.invoices[i].state)
  }

  /** When a final write keeps ownership: a condition on the attempt's status and the
      invoice's state just before the write. */
  predicate SafeWrite(kind: WriteKind, status: PaymentStatus, state: InvoiceState) {
    match kind
    case RequestSuccess => status == Pending || status == Succeeded
    case WorkerSuccess => status == Pending || status == Succeeded
    case RequestFailure => status == Pending || (status == Failed && state == Open)
    case WorkerFailure => status == Pending || (status == Failed && state != Processing)
    case Expiry => status == Pending || (status == Failed && state == Open)
  }

  /** When a step is safe: its final write is, and a finalize or void that commits finds
      its invoice in Draft or where it would put it. Every other step is. */
  predicate Safe(w: World, s: Step) {
    && (WriteOf(w, s).FinalWrite? ==>
          && WriteOf(w, s).attemptId in w.attempts
          && WriteOf(w, s).invoiceId in w.invoices
          && SafeWrite(WriteOf(w, s).kind, w.attempts[WriteOf(w, s).attemptId].attempt.status,
                       w.invoices[WriteOf(w, s).invoiceId].state))
    && (OpCommits(w, s) ==>
          w.invoices[w.ops[s.op].invoiceId].state in {Draft, OpTarget(w.ops[s.op])})
  }

  // ----- safe steps keep ownership -----

  lemma OwnedClaim(w: World, i: Id, a: Id, w': World)
    requires Owned(w) && ClaimEffect(w, i, a, w')
    ensures Owned(w') && Legal(w, w')
  {
    forall b ensures HoldsOk(w', b) { assert HoldsOk(w, b); }
    forall b, c ensures AloneOk(w', b, c) {
      assert AloneOk(w, b, c) && HoldsOk(w, b) && HoldsOk(w, c);
    }
    forall j ensures PaidOk(w', j) {
      assert PaidOk(w, j);
      if j in w'.invoices && w'.invoices[j].state == Paid {
        var b :| PaidBy(w, j, b);
        assert PaidBy(w', j, b);
      }
    }
  }

  lemma OwnedSafeWrite(w: World, f: FinalWrite, w': World)
    requires Owned(w) && NotStranded(w) && f.FinalWrite? && Writes(w, f, w')
    requires SafeWrite(f.kind, w.attempts[f.attemptId].attempt.status, w.invoices[f.invoiceId].state)
    ensures Owned(w') && Legal(w, w')
  {
    assert HoldsOk(w, f.attemptId);
    forall b ensures HoldsOk(w', b) {
      assert HoldsOk(w, b) && AloneOk(w, b, f.attemptId);
    }
    forall b, c ensures AloneOk(w', b, c) {
      assert AloneOk(w, b, c) && AloneOk(w, b, f.attemptId) && AloneOk(w, c, f.attemptId);
    }
    forall j ensures PaidOk(w', j) { PaidAfterSafeWrite(w, f, w', j); }
  }

  lemma PaidAfterSafeWrite(w: World, f: FinalWrite, w': World, j: Id)
    requires Owned(w) && f.FinalWrite? && Writes(w, f, w')
    requires SafeWrite(f.kind, w.attempts[f.attemptId].attempt.status, w.invoices[f.invoiceId].state)
    ensures PaidOk(w', j)
  {
    assert PaidOk(w, j) && HoldsOk(w, f.attemptId);
    if j in w'.invoices && w'.invoices[j].state == Paid {
      if j == f.invoiceId && StatusAfter(f.kind) == Succeeded {
        assert PaidBy(w', j, f.attemptId);
      } else {
        var b :| PaidBy(w, j, b);
        assert HoldsOk(w, b);
        assert PaidBy(w', j, b);
      }
    }
  }

  lemma OwnedQuiet(w: World, w': World)
    requires Owned(w) && StatusesSame(w, w')
    requires w.invoices.Keys <= w'.invoices.Keys
    requires forall i :: i in w.invoices ==>
               || w'.invoices[i].state == w.invoices[i].state
               || (w.invoices[i].state == Draft && w'.invoices[i].state in {Open, Void})
    requires forall i :: i in w'.invoices && i !in w.invoices ==> w'.invoices[i].state == Draft
    ensures Owned(w') && Legal(w, w')
  {
    forall b ensures HoldsOk(w', b) { assert HoldsOk(w, b); }
    forall b, c ensures AloneOk(w', b, c) { assert AloneOk(w, b, c); }
    forall j ensures PaidOk(w', j) {
      assert PaidOk(w, j);
      if j in w'.invoices && w'.invoices[j].state == Paid {
        var b :| PaidBy(w, j, b);
        assert PaidBy(w', j, b);
      }
    }
  }

  lemma QuietStates(w: World, s: Step, w': World)
    requires Next(w, s, w') && !Claims(w, s) && WriteOf(w, s).NoWrite?
    requires OpCommits(w, s) ==> w.invoices[w.ops[s.op].invoiceId].state in {Draft, OpTarget(w.ops[s.op])}
    ensures w.invoices.Keys <= w'.invoices.Keys
    ensures forall i :: i in w.invoices ==>
              || w'.invoices[i].state == w.invoices[i].state
              || (w.invoices[i].state == Draft && w'.invoices[i].state in {Open, Void})
    ensures forall i :: i in w'.invoices && i !in w.invoices ==> w'.invoices[i].state == Draft
  {
    if PayStep(s) { QuietPay(w, s, w'); }
    else if WorkerStep(s) { QuietWorker(w, s, w'); }
    else if OpCommits(w, s) { OpEffect(w, s, w'); }
    else { QuietInvoices(w, s, w'); }
  }

  lemma SafeStepKeepsOwnership(w: World, s: Step, w': World)
    requires Core(w) && Lists(w) && NotStranded(w) && Owned(w) && Next(w, s, w') && Safe(w, s)
    ensures Owned(w') && Legal(w, w')
  {
    if Claims(w, s) {
      ClaimHasEffect(w, s, w');
      OwnedClaim(w, w.requests[s.rid].req.invoiceId, s.attemptId, w');
    } else if WriteOf(w, s).FinalWrite? {
      FinalWriteEffect(w, s, w');
      OwnedSafeWrite(w, WriteOf(w, s), w');
    } else {
      QuietStatuses(w, s, w');
      QuietStates(w, s, w');
      OwnedQuiet(w, w');
    }
  }

  // ----- unsafe steps break it -----

  lemma UnsafeWriteBreaks(w: World, f: FinalWrite, w': World)
    requires Owned(w) && NotStranded(w) && f.FinalWrite? && Writes(w, f, w')
    requires !SafeWrite(f.kind, w.attempts[f.attemptId].attempt.status, w.invoices[f.invoiceId].state)
    ensures !(Owned(w') && Legal(w, w'))
  {
    var a, i := f.attemptId, f.invoiceId;
    assert HoldsOk(w, a) && HeldOk(w, i) && PaidOk(w, i);
    if w.invoices[i].state == Processing {
      var b := w.lastClaim[i];
      assert AloneOk(w, a, b);
      assert !HoldsOk(w', b) || !HoldsOk(w', a) || !AloneOk(w', a, b);
    } else if w.invoices[i].state == Paid {
      var b :| PaidBy(w, i, b);
      assert AloneOk(w, a, b);
      if f.kind.WorkerFailure? {
        forall c ensures !PaidBy(w', i, c) { assert AloneOk(w, a, c); }
        assert !PaidOk(w', i);
      } else {
        assert !AloneOk(w', a, b) || !LegalMove(w.invoices[i].state, w'.invoices[i].state);
      }
    } else {
      assert !HoldsOk(w', a) || !LegalMove(w.invoices[i].state, w'.invoices[i].state);
    }
  }

  lemma UnsafeOpBreaks(w: World, s: Step, w': World)
    requires Owned(w) && NotStranded(w) && Collectible(w) && Next(w, s, w') && OpCommits(w, s)
    requires w.invoices[w.ops[s.op].invoiceId].state !in {Draft, OpTarget(w.ops[s.op])}
    ensures !(Owned(w') && Legal(w, w'))
  {
    OpEffect(w, s, w');
    InvoiceFootprint(w, s, w');
    var i := w.ops[s.op].invoiceId;
    assert HeldOk(w, i) && CollectibleOk(w, i);
    if w.invoices[i].state == Processing {
      assert !HoldsOk(w', w.lastClaim[i]);
    } else {
      assert !LegalMove(w.invoices[i].state, w'.invoices[i].state);
    }
  }

  /** The exact condition: a step keeps ownership and makes a legal move if and only if it
      is safe. */
  lemma StepKeepsOwnershipIffSafe(w: World, s: Step, w': World)
    requires Core(w) && Lists(w) && NotStranded(w) && Collectible(w) && Owned(w) && Next(w, s, w')
    ensures Owned(w') && Legal(w, w') <==> Safe(w, s)
  {
    if Safe(w, s) {
      SafeStepKeepsOwnership(w, s, w');
    } else if WriteOf(w, s).FinalWrite? {
      FinalWriteEffect(w, s, w');
      UnsafeWriteBreaks(w, WriteOf(w, s), w');
    } else {
      UnsafeOpBreaks(w, s, w');
    }
  }

  // ----- the two hypotheses -----

  /** Single resolution: a final write lands on a pending attempt, or repeats a success. */
  predicate SingleResolution(w: World, s: Step) {
    WriteOf(w, s).FinalWrite? ==>
      && WriteOf(w, s).attemptId in w.attempts
      && WriteOf(w, s).invoiceId in w.invoices
      && var status := w.attempts[WriteOf(w, s).attemptId].attempt.status;
         status == Pending || (status == Succeeded && StatusAfter(WriteOf(w, s).kind) == Succeeded)
  }

  /** Honest versions: finalize is never given a version that does not exist yet. */
  predicate HonestVersion(w: World, s: Step) {
    s.FinalizeSelect? && s.invoiceId in w.invoices ==> s.versioning <= w.invoices[s.invoiceId].versioning
  }

  /** A finalize or void between its SELECT and its UPDATE: while the invoice still has the
      presented version it is still a draft. */
  ghost predicate GuardedOk(w: World, op: Id) {
    op in w.ops && (w.ops[op].FinalizeReady? || w.ops[op].VoidReady?) ==>
      && w.ops[op].invoiceId in w.invoices
      && w.ops[op].versioning <= w.invoices[w.ops[op].invoiceId].versioning
      && (w.ops[op].versioning == w.invoices[w.ops[op].invoiceId].versioning ==>
            w.invoices[w.ops[op].invoiceId].state == Draft)
  }

  ghost predicate Guarded(w: World) { forall op {:trigger GuardedOk(w, op)} :: GuardedOk(w, op) }

  lemma HypothesesMakeSafe(w: World, s: Step)
    requires Guarded(w) && SingleResolution(w, s)
    ensures Safe(w, s)
  {
    if OpCommits(w, s) { assert GuardedOk(w, s.op); }
  }

  /** A draft leaves Draft only together with its version. */
  ghost predicate DraftsKept(w: World, w': World) {
    forall i :: i in w.invoices && w.invoices[i].state == Draft ==>
      i in w'.invoices && (w'.invoices[i].versioning == w.invoices[i].versioning ==> w'.invoices[i].state == Draft)
  }

  lemma DraftsKeptStep(w: World, s: Step, w': World)
    requires Core(w) && Lists(w) && Owned(w) && Next(w, s, w')
    ensures DraftsKept(w, w')
  {
    if Claims(w, s) {
      ClaimHasEffect(w, s, w');
    } else if WriteOf(w, s).FinalWrite? {
      FinalWriteEffect(w, s, w');
      assert HoldsOk(w, WriteOf(w, s).attemptId);
    } else {
      DraftsKeptQuiet(w, s, w');
    }
  }

  lemma DraftsKeptQuiet(w: World, s: Step, w': World)
    requires Next(w, s, w') && !Claims(w, s) && WriteOf(w, s).NoWrite?
    ensures DraftsKept(w, w')
  {
    if PayStep(s) { QuietPay(w, s, w'); }
    else if WorkerStep(s) { QuietWorker(w, s, w'); }
    else if OpCommits(w, s) { OpEffect(w, s, w'); }
    else { QuietInvoices(w, s, w'); }
  }

  /** The requests between SELECT and UPDATE after a step: those that were there, and the
      one that the step's SELECT let through. */
  ghost predicate GuardsFrom(w: World, s: Step, w': World) {
    forall op :: op in w'.ops && (w'.ops[op].FinalizeReady? || w'.ops[op].VoidReady?) ==>
      || (op in w.ops && w.ops[op] == w'.ops[op])
      || (&& w'.ops[op].invoiceId in w.invoices
          && w.invoices[w'.ops[op].invoiceId].state == Draft
          && w'.invoices == w.invoices
          && (HonestVersion(w, s) ==> w'.ops[op].versioning <= w.invoices[w'.ops[op].invoiceId].versioning))
  }

  lemma GuardsFromStep(w: World, s: Step, w': World)
    requires Next(w, s, w')
    ensures GuardsFrom(w, s, w')
  {
    if PayStep(s) { BillsPay(w, s, w'); }
    else if WorkerStep(s) { WorkerFootprint(w, s, w'); }
    else { GuardsFromInvoice(w, s, w'); }
  }

  lemma GuardsFromInvoice(w: World, s: Step, w': World)
    requires Next(w, s, w') && !PayStep(s) && !WorkerStep(s)
    ensures GuardsFrom(w, s, w')
  {
  }

  lemma GuardedStep(w: World, s: Step, w': World)
    requires Core(w) && Lists(w) && Owned(w) && Guarded(w) && Next(w, s, w') && HonestVersion(w, s)
    ensures Guarded(w')
  {
    DraftsKeptStep(w, s, w');
    VersionsGrowStep(w, s, w');
    GuardsFromStep(w, s, w');
    GuardedFrame(w, s, w');
  }

  lemma GuardedFrame(w: World, s: Step, w': World)
    requires Guarded(w) && HonestVersion(w, s)
    requires DraftsKept(w, w') && VersionsGrow(w, w') && GuardsFrom(w, s, w')
    ensures Guarded(w')
  {
    forall op ensures GuardedOk(w', op) { GuardedOne(w, s, w', op); }
  }

  lemma GuardedOne(w: World, s: Step, w': World, op: Id)
    requires GuardedOk(w, op) && HonestVersion(w, s)
    requires DraftsKept(w, w') && VersionsGrow(w, w') && GuardsFrom(w, s, w')
    ensures GuardedOk(w', op)
  {
    if op in w'.ops && (w'.ops[op].FinalizeReady? || w'.ops[op].VoidReady?) {
      var i := w'.ops[op].invoiceId;
      assert i in w.invoices && w.invoices[i].versioning <= w'.invoices[i].versioning;
      assert w.invoices[i].state == Draft && w'.invoices[i].versioning == w.invoices[i].versioning ==>
          w'.invoices[i].state == Draft;
    }
  }
}

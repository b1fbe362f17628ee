/** Optimistic locking: versions only grow, and a version of an invoice admits one write. */
module Versions {
  import opened Types
  import opened Protocol
  import opened Bookkeeping
  import opened Effects

  ghost predicate VersionsGrow(w: World, w': World) {
    forall i :: i in w.invoices ==> i in w'.invoices && w.invoices[i].versioning <= w'.invoices[i].versioning
  }

  lemma GrowInvoice(w: World, s: Step, w': World)
    requires Next(w, s, w') && !PayStep(s) && !WorkerStep(s)
    ensures VersionsGrow(w, w')
  {
  }

  lemma GrowPay(w: World, s: Step, w': World)
    requires Next(w, s, w') && (s.PayClaim? || s.PayResolve?)
    ensures VersionsGrow(w, w')
  {
  }

  lemma WorkerKeepsVersions(w: World, s: Step, w': World)
    requires Next(w, s, w') && WorkerStep(s)
    ensures w'.invoices.Keys == w.invoices.Keys
    ensures forall i :: i in w.invoices ==> w'.invoices[i].versioning == w.invoices[i].versioning
  {
    if s.TickWrite? || s.ExpireWrite? { WritesKeepVersions(w, s, w'); }
    else { WorkerFootprint(w, s, w'); }
  }

  lemma WritesKeepVersions(w: World, s: Step, w': World)
    requires Next(w, s, w') && (s.TickWrite? || s.ExpireWrite?)
    ensures w'.invoices.Keys == w.invoices.Keys
    ensures forall i :: i in w.invoices ==> w'.invoices[i].versioning == w.invoices[i].versioning
  {
  }

  lemma VersionsGrowStep(w: World, s: Step, w': World)
    requires Next(w, s, w')
    ensures VersionsGrow(w, w')
  {
    if s.PayClaim? || s.PayResolve? { GrowPay(w, s, w'); }
    else if PayStep(s) { QuietOther(w, s, w'); }
    else if WorkerStep(s) { WorkerKeepsVersions(w, s, w'); }
    else { GrowInvoice(w, s, w'); }
  }

  /** A committed write that was admitted because it presented the invoice's version. */
  datatype Cas = NoCas | Cas(invoiceId: Id, versioning: int)

  predicate EditCommits(w: World, s: Step) {
    && s.EditCas?
    && s.op !in w.ops && ItemsAcceptable(s.edit)
    && s.invoiceId in w.invoices
    && w.invoices[s.invoiceId].versioning == s.edit.versioning
    && w.invoices[s.invoiceId].state == Draft
    && CanBump(w.invoices[s.invoiceId])
  }

  function CasOf(w: World, s: Step): Cas {
    if EditCommits(w, s) then Cas(s.invoiceId, s.edit.versioning)
    else if OpCommits(w, s) then Cas(w.ops[s.op].invoiceId, w.ops[s.op].versioning)
    else if Claims(w, s) then Cas(w.requests[s.rid].req.invoiceId, w.requests[s.rid].req.versioning)
    else NoCas
  }

  /** An admitted write found the version it presented and left the next one. */
  lemma CasConsumes(w: World, s: Step, w': World)
    requires CasOf(w, s).Cas? && Next(w, s, w')
    ensures var c := CasOf(w, s);
            && c.invoiceId in w.invoices
            && w.invoices[c.invoiceId].versioning == c.versioning
            && c.invoiceId in w'.invoices
            && w'.invoices[c.invoiceId].versioning == c.versioning + 1
  {
    if EditCommits(w, s) { EditConsumes(w, s, w'); }
    else if OpCommits(w, s) { OpEffect(w, s, w'); }
    else { ClaimHasEffect(w, s, w'); }
  }

  lemma LaterCasDiffers(w: World, s: Step, w': World, v: World, t: Step, v': World)
    requires Next(w, s, w') && Next(v, t, v') && VersionsGrow(w', v) && CasOf(w, s).Cas?
    ensures CasOf(v, t) != CasOf(w, s)
  {
    CasConsumes(w, s, w');
    if CasOf(v, t).Cas? { CasConsumes(v, t, v'); }
  }

  lemma EditConsumes(w: World, s: Step, w': World)
    requires Next(w, s, w') && EditCommits(w, s)
    ensures w'.invoices == w.invoices[s.invoiceId := Bumped(w.invoices[s.invoiceId], Draft)]
  {
  }

  // ----- one attempt per presented version -----

  /** A request that created an attempt presented a version that is gone. */
  ghost predicate SpentOk(w: World, r: Id) {
    r in w.requests && w.requests[r].Originator() ==>
      && w.requests[r].req.invoiceId in w.invoices
      && w.requests[r].req.versioning < w.invoices[w.requests[r].req.invoiceId].versioning
  }

  ghost predicate SpentDiffer(w: World, r1: Id, r2: Id) {
    && r1 in w.requests && w.requests[r1].Originator()
    && r2 in w.requests && w.requests[r2].Originator()
    && w.requests[r1].req.invoiceId == w.requests[r2].req.invoiceId
    && w.requests[r1].req.versioning == w.requests[r2].req.versioning
    ==> r1 == r2
  }

  ghost predicate Spent(w: World) {
    && (forall r {:trigger SpentOk(w, r)} :: SpentOk(w, r))
    && (forall r1, r2 {:trigger SpentDiffer(w, r1, r2)} :: SpentDiffer(w, r1, r2))
  }

  lemma SpentStep(w: World, s: Step, w': World)
    requires Spent(w) && Next(w, s, w')
    ensures Spent(w')
  {
    VersionsGrowStep(w, s, w');
    if s.PayClaim? {
      SpentClaim(w, s.rid, s.attemptId, w');
    } else {
      RequestsSame(w, s, w');
      SpentFrame(w, w');
    }
  }

  /** Only a claim turns a request into an originator. */
  ghost predicate NoNewOriginator(w: World, w': World) {
    forall r :: r in w'.requests && w'.requests[r].Originator() ==>
      r in w.requests && w.requests[r].Originator() && w.requests[r].req == w'.requests[r].req
  }

  lemma RequestsSame(w: World, s: Step, w': World)
    requires Next(w, s, w') && !s.PayClaim?
    ensures NoNewOriginator(w, w')
  {
    if s.PayResolve? { ResolveKeepsOriginators(w, s.rid, w'); } else { CoreSameStep(w, s, w'); }
  }

  lemma ResolveKeepsOriginators(w: World, rid: Id, w': World)
    requires PayResolveStep(w, rid, w')
    ensures NoNewOriginator(w, w')
  {
  }

  lemma SpentFrame(w: World, w': World)
    requires Spent(w) && VersionsGrow(w, w') && NoNewOriginator(w, w')
    ensures Spent(w')
  {
    forall r ensures SpentOk(w', r) { assert SpentOk(w, r); }
    forall r1, r2 ensures SpentDiffer(w', r1, r2) { assert SpentDiffer(w, r1, r2); }
  }

  lemma SpentClaim(w: World, rid: Id, aid: Id, w': World)
    requires Spent(w) && PayClaimStep(w, rid, aid, w') && VersionsGrow(w, w')
    ensures Spent(w')
  {
    forall r ensures SpentOk(w', r) { assert SpentOk(w, r); }
    forall r1, r2 ensures SpentDiffer(w', r1, r2) {
      assert SpentDiffer(w, r1, r2);
      assert SpentOk(w, r1) && SpentOk(w, r2);
    }
  }

  // ----- fewer attempts than versions -----

  function AttemptsOf(w: World, i: Id): set<Id> {
    set a | a in w.attempts && w.attempts[a].attempt.invoiceId == i
  }

  ghost predicate CountOk(w: World, i: Id) {
    i in w.invoices ==> |AttemptsOf(w, i)| < w.invoices[i].versioning
  }

  ghost predicate Counts(w: World) { forall i {:trigger CountOk(w, i)} :: CountOk(w, i) }

  lemma CountsClaim(w: World, i: Id, a: Id, w': World)
    requires Counts(w) && ClaimEffect(w, i, a, w')
    ensures Counts(w')
  {
    forall j ensures CountOk(w', j) {
      assert CountOk(w, j);
      if j in w.invoices { AttemptsAfterClaim(w, i, a, w', j); }
    }
  }

  lemma AttemptsAfterClaim(w: World, i: Id, a: Id, w': World, j: Id)
    requires ClaimEffect(w, i, a, w')
    ensures AttemptsOf(w', j) == if j == i then AttemptsOf(w, j) + {a} else AttemptsOf(w, j)
    ensures a !in AttemptsOf(w, j)
  {
  }

  lemma CountsFrame(w: World, w': World)
    requires Core(w) && Counts(w) && VersionsGrow(w, w')
    requires w'.attempts.Keys == w.attempts.Keys
    requires forall a :: a in w.attempts ==> w'.attempts[a].attempt.invoiceId == w.attempts[a].attempt.invoiceId
    requires forall i :: i in w'.invoices && i !in w.invoices ==> w'.invoices[i].versioning == 1
    ensures Counts(w')
  {
    forall j ensures CountOk(w', j) {
      assert CountOk(w, j);
      assert AttemptsOf(w', j) == AttemptsOf(w, j);
      if j !in w.invoices {
        forall a | a in w.attempts ensures w.attempts[a].attempt.invoiceId != j { assert RowOk(w, a); }
        assert AttemptsOf(w, j) == {};
      }
    }
  }

  lemma NewInvoicesAtOne(w: World, s: Step, w': World)
    requires Next(w, s, w')
    ensures forall i :: i in w'.invoices && i !in w.invoices ==> w'.invoices[i].versioning == 1
  {
    if PayStep(s) { PayKeepsInvoiceKeys(w, s, w'); }
    else if WorkerStep(s) { WorkerKeepsVersions(w, s, w'); }
    else { NewInvoicesCreated(w, s, w'); }
  }

  lemma PayKeepsInvoiceKeys(w: World, s: Step, w': World)
    requires Next(w, s, w') && PayStep(s)
    ensures w'.invoices.Keys == w.invoices.Keys
  {
  }

  lemma NewInvoicesCreated(w: World, s: Step, w': World)
    requires Next(w, s, w') && !PayStep(s) && !WorkerStep(s)
    ensures forall i :: i in w'.invoices && i !in w.invoices ==> w'.invoices[i].versioning == 1
  {
  }

  lemma CountsStep(w: World, s: Step, w': World)
    requires Core(w) && Lists(w) && Counts(w) && Next(w, s, w')
    ensures Counts(w')
  {
    if Claims(w, s) {
      ClaimHasEffect(w, s, w');
      CountsClaim(w, w.requests[s.rid].req.invoiceId, s.attemptId, w');
    } else {
      VersionsGrowStep(w, s, w');
      NewInvoicesAtOne(w, s, w');
      NoNewAttempt(w, s, w');
      CountsFrame(w, w');
    }
  }

  lemma NoNewAttempt(w: World, s: Step, w': World)
    requires Core(w) && Lists(w) && Next(w, s, w') && !Claims(w, s)
    ensures w'.attempts.Keys == w.attempts.Keys
    ensures forall a :: a in w.attempts ==> w'.attempts[a].attempt.invoiceId == w.attempts[a].attempt.invoiceId
  {
    if WriteOf(w, s).FinalWrite? { FinalWriteEffect(w, s, w'); } else { QuietStatuses(w, s, w'); }
  }
}

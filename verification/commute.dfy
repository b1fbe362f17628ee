/** The request and the worker may both record the outcome of one charge. Whatever the
    order, and whatever everybody else does in between, the end is the same. */
module Commute {
  import opened Types
  import opened Psp
  import opened Protocol
  import opened Bookkeeping
  import opened Effects
  import opened Ownership
  import Agreement
  import opened Guarantees

  // ----- the two results agree -----

  lemma {:induction false} StoreGrowsRun(r: Run, m: nat, n: nat)
    requires r.Valid() && m <= n <= |r.steps|
    ensures Agreement.StoreGrows(r.worlds[m], r.worlds[n])
    decreases n
  {
    if m < n {
      StoreGrowsRun(r, m, n - 1);
      SoundRun(r, n - 1);
      assert r.StepAt(n - 1);
      Agreement.StoreGrowsStep(r.worlds[n - 1], r.steps[n - 1], r.worlds[n]);
    }
  }

  /** Whenever in a run a request holds a final result for an attempt, and whenever in the
      same run, earlier or later, the worker holds the provider's answer for it, the results
      agree: the request's is the outcome that the worker holds. */
  lemma ResultsAgree(r: Run, m: nat, n: nat, rid: Id)
    requires r.Valid() && m <= |r.steps| && n <= |r.steps|
    requires rid in r.worlds[m].requests && r.worlds[m].requests[rid].Answered?
    requires Final(r.worlds[m].requests[rid].result)
    requires r.worlds[n].worker.Polled? && r.worlds[n].worker.poll.Found?
    requires r.worlds[n].worker.head.attemptId == r.worlds[m].requests[rid].attempt.id
    ensures Reports(r.worlds[m].requests[rid].result, r.worlds[n].worker.poll.outcome)
    ensures WellFormed(r.worlds[n].worker.poll.outcome)
  {
    SoundRun(r, m);
    SoundRun(r, n);
    if m <= n { StoreGrowsRun(r, m, n); } else { StoreGrowsRun(r, n, m); }
    assert Agreement.ReplyTrue(r.worlds[m], rid);
    assert OutcomeOk(r.worlds[n], r.worlds[n].worker.head.attemptId);
  }

  // ----- a success is settled for good -----

  predicate SucceededAt(w: World, a: Id) {
    a in w.attempts && w.attempts[a].attempt.status == Succeeded
  }

  lemma SucceededStays(w: World, s: Step, w': World, a: Id)
    requires Core(w) && Lists(w) && Owned(w) && Next(w, s, w') && Safe(w, s) && SucceededAt(w, a)
    ensures SucceededAt(w', a) && w'.attempts[a].attempt.invoiceId == w.attempts[a].attempt.invoiceId
  {
    if Claims(w, s) {
      ClaimHasEffect(w, s, w');
    } else if WriteOf(w, s).FinalWrite? {
      FinalWriteEffect(w, s, w');
      assert HoldsOk(w, a);
    } else {
      QuietStatuses(w, s, w');
    }
  }

  lemma {:induction false} SucceededForever(r: Run, m: nat, n: nat, a: Id)
    requires r.Valid() && SafeRun(r) && m <= n <= |r.steps| && SucceededAt(r.worlds[m], a)
    ensures SucceededAt(r.worlds[n], a)
    ensures r.worlds[n].attempts[a].attempt.invoiceId == r.worlds[m].attempts[a].attempt.invoiceId
    decreases n
  {
    if m < n {
      SucceededForever(r, m, n - 1, a);
      SafePrefixOwned(r, n - 1);
      SoundRun(r, n - 1);
      assert r.StepAt(n - 1);
      SucceededStays(r.worlds[n - 1], r.steps[n - 1], r.worlds[n], a);
    }
  }

  /** Once an attempt has succeeded in a safe run it stays so, with the same reference and
      a Paid invoice, whatever writes of the request, the worker and others follow. */
  lemma SuccessWritesSettle(r: Run, m: nat, n: nat, a: Id)
    requires r.Valid() && SafeRun(r) && m <= n <= |r.steps| && SucceededAt(r.worlds[m], a)
    ensures SucceededAt(r.worlds[n], a)
    ensures var p, q := r.worlds[m].attempts[a].attempt, r.worlds[n].attempts[a].attempt;
            && q.invoiceId == p.invoiceId && q.pspReference == p.pspReference
            && q.invoiceId in r.worlds[n].invoices && r.worlds[n].invoices[q.invoiceId].state == Paid
  {
    SucceededForever(r, m, n, a);
    StoreGrowsRun(r, m, n);
    StatusesMatchOutcomes(r, m, a);
    StatusesMatchOutcomes(r, n, a);
    SafePrefixOwned(r, n);
    assert HoldsOk(r.worlds[n], a);
  }

  // ----- the version of a paid invoice -----

  /** The request that created the attempt has recorded its success under its key. */
  ghost predicate Recorded(w: World, a: Id) {
    && a in w.origin && w.origin[a] in w.requests && w.requests[w.origin[a]].Originator()
    && RecordedBody(w.requests[w.origin[a]]).status == Succeeded
  }

  /** While an attempt is live it has no failure code, and its invoice has the version after
      the one that its request presented, or the next one once that request has recorded its
      success. */
  ghost predicate VersionOk(w: World, a: Id) {
    a in w.attempts && Live(w.attempts[a].attempt) ==>
      && w.attempts[a].attempt.failureCode == None
      && a in w.origin && w.origin[a] in w.requests
      && w.attempts[a].attempt.invoiceId in w.invoices
      && w.invoices[w.attempts[a].attempt.invoiceId].versioning
         == w.requests[w.origin[a]].req.versioning + (if Recorded(w, a) then 2 else 1)
  }

  ghost predicate VersionsKept(w: World) { forall a {:trigger VersionOk(w, a)} :: VersionOk(w, a) }

  /** The request of an attempt, as far as the version depends on it. */
  ghost predicate SameOrigin(w: World, w': World, a: Id) {
    && a in w.origin && a in w'.origin && w'.origin[a] == w.origin[a]
    && w.origin[a] in w.requests && w.origin[a] in w'.requests
    && w'.requests[w.origin[a]].req == w.requests[w.origin[a]].req
    && Recorded(w', a) == Recorded(w, a)
  }

  lemma OriginClaim(w: World, rid: Id, aid: Id, w': World, a: Id)
    requires Core(w) && PayClaimStep(w, rid, aid, w') && a in w.attempts
    ensures SameOrigin(w, w', a)
  {
    assert RowOk(w, a);
  }

  lemma OriginResolve(w: World, rid: Id, w': World, a: Id)
    requires Core(w) && PayResolveStep(w, rid, w') && a in w.attempts
    requires WriteOf(w, PayResolve(rid)).FinalWrite? ==> WriteOf(w, PayResolve(rid)).attemptId != a
    ensures SameOrigin(w, w', a)
  {
    assert RowOk(w, a) && OriginatorOk(w, rid);
  }

  lemma OriginStep(w: World, s: Step, w': World, a: Id)
    requires Core(w) && Next(w, s, w') && a in w.attempts
    requires s.PayResolve? && WriteOf(w, s).FinalWrite? ==> WriteOf(w, s).attemptId != a
    ensures SameOrigin(w, w', a)
  {
    if s.PayClaim? {
      OriginClaim(w, s.rid, s.attemptId, w', a);
    } else if s.PayResolve? {
      OriginResolve(w, s.rid, w', a);
    } else {
      CoreSameStep(w, s, w');
      assert RowOk(w, a);
    }
  }

  lemma ClaimOrigin(w: World, s: Step, w': World)
    requires Next(w, s, w') && Claims(w, s)
    ensures s.attemptId in w'.origin && w'.origin[s.attemptId] == s.rid && s.rid in w'.requests
    ensures w'.requests[s.rid].req == w.requests[s.rid].req && !Recorded(w', s.attemptId)
    ensures s.attemptId in w'.attempts && w'.attempts[s.attemptId].attempt.failureCode == None
  {
  }

  lemma VersionAfterClaim(w: World, s: Step, w': World)
    requires Core(w) && Owned(w) && VersionsKept(w) && Next(w, s, w') && Claims(w, s)
    ensures VersionsKept(w')
  {
    ClaimHasEffect(w, s, w');
    ClaimOrigin(w, s, w');
    forall a ensures VersionOk(w', a) {
      if a in w.attempts {
        assert VersionOk(w, a) && HoldsOk(w, a);
        OriginStep(w, s, w', a);
      }
    }
  }

  /** The request's own success write: recorded under its key, and one version more. */
  lemma OwnSuccess(w: World, rid: Id, w': World)
    requires Core(w) && PayResolveStep(w, rid, w') && WriteOf(w, PayResolve(rid)).FinalWrite?
    requires WriteOf(w, PayResolve(rid)).kind.RequestSuccess?
    ensures var a := WriteOf(w, PayResolve(rid)).attemptId;
            && a in w.origin && w.origin[a] == rid && a in w'.origin && w'.origin[a] == rid
            && rid in w'.requests && w'.requests[rid].req == w.requests[rid].req
            && !Recorded(w, a) && Recorded(w', a)
  {
    assert OriginatorOk(w, rid);
  }

  lemma VersionAfterWrite(w: World, s: Step, w': World, a: Id)
    requires Core(w) && Lists(w) && Owned(w) && VersionOk(w, a) && Next(w, s, w') && Safe(w, s)
    requires WriteOf(w, s).FinalWrite? && Writes(w, WriteOf(w, s), w') && WritesDetails(w, WriteOf(w, s), w')
    ensures VersionOk(w', a)
  {
    var f := WriteOf(w, s);
    assert HoldsOk(w, a) && AloneOk(w, a, f.attemptId);
    if a in w'.attempts && Live(w'.attempts[a].attempt) {
      if a == f.attemptId && s.PayResolve? {
        OwnSuccess(w, s.rid, w');
      } else {
        OriginStep(w, s, w', a);
      }
    }
  }

  lemma QuietVersions(w: World, s: Step, w': World)
    requires Next(w, s, w') && !Claims(w, s) && WriteOf(w, s).NoWrite? && Safe(w, s)
    ensures forall i :: i in w.invoices && w.invoices[i].state in {Processing, Paid} ==>
              i in w'.invoices && w'.invoices[i].versioning == w.invoices[i].versioning
  {
    if PayStep(s) { QuietPay(w, s, w'); }
    else if WorkerStep(s) { QuietWorker(w, s, w'); }
    else if OpCommits(w, s) { OpEffect(w, s, w'); }
    else { DraftVersions(w, s, w'); }
  }

  lemma DraftVersions(w: World, s: Step, w': World)
    requires Next(w, s, w') && !PayStep(s) && !WorkerStep(s) && !OpCommits(w, s)
    ensures forall i :: i in w.invoices && w.invoices[i].state != Draft ==>
              i in w'.invoices && w'.invoices[i].versioning == w.invoices[i].versioning
  {
  }

  lemma VersionsKeptStep(w: World, s: Step, w': World)
    requires Core(w) && Lists(w) && Owned(w) && VersionsKept(w) && Next(w, s, w') && Safe(w, s)
    ensures VersionsKept(w')
  {
    if Claims(w, s) {
      VersionAfterClaim(w, s, w');
    } else if WriteOf(w, s).FinalWrite? {
      FinalWriteEffect(w, s, w');
      FinalWriteDetails(w, s, w');
      forall a ensures VersionOk(w', a) {
        assert VersionOk(w, a);
        VersionAfterWrite(w, s, w', a);
      }
    } else {
      VersionsQuiet(w, s, w');
    }
  }

  lemma VersionsQuiet(w: World, s: Step, w': World)
    requires Core(w) && Owned(w) && VersionsKept(w) && Next(w, s, w') && Safe(w, s)
    requires !Claims(w, s) && WriteOf(w, s).NoWrite?
    ensures VersionsKept(w')
  {
    QuietStatuses(w, s, w');
    QuietFailureCodes(w, s, w');
    QuietVersions(w, s, w');
    forall a ensures VersionOk(w', a) {
      assert VersionOk(w, a) && HoldsOk(w, a);
      if a in w.attempts { OriginStep(w, s, w', a); }
    }
  }

  lemma {:induction false} VersionsKeptRun(r: Run, n: nat)
    requires r.Valid() && SafeRun(r) && n <= |r.steps|
    ensures VersionsKept(r.worlds[n])
  {
    if n > 0 {
      VersionsKeptRun(r, n - 1);
      SafePrefixOwned(r, n - 1);
      SoundRun(r, n - 1);
      assert r.StepAt(n - 1);
      VersionsKeptStep(r.worlds[n - 1], r.steps[n - 1], r.worlds[n]);
    }
  }

  /** In a safe run the version of an invoice that an attempt has paid is the presented one,
      plus one for the claim, plus one if the request has recorded its success: the worker's
      writes, however many and whenever, and everybody else's add nothing. */
  lemma SuccessVersion(r: Run, n: nat, a: Id)
    requires r.Valid() && SafeRun(r) && n <= |r.steps| && SucceededAt(r.worlds[n], a)
    ensures var w := r.worlds[n];
            && w.attempts[a].attempt.failureCode == None
            && a in w.origin && w.origin[a] in w.requests
            && w.attempts[a].attempt.invoiceId in w.invoices
            && w.invoices[w.attempts[a].attempt.invoiceId].versioning
               == w.requests[w.origin[a]].req.versioning + (if Recorded(w, a) then 2 else 1)
  {
    VersionsKeptRun(r, n);
    assert VersionOk(r.worlds[n], a);
  }

  /** Two safe runs that charge one request's attempt with the same outcome, in each of which
      that request has recorded its success, end with the same status, reference, invoice
      state and version, in whatever order and however often the worker wrote. */
  lemma SuccessWritesCommute(r: Run, n: nat, q: Run, k: nat, a: Id)
    requires r.Valid() && SafeRun(r) && n <= |r.steps| && SucceededAt(r.worlds[n], a) && Recorded(r.worlds[n], a)
    requires q.Valid() && SafeRun(q) && k <= |q.steps| && SucceededAt(q.worlds[k], a) && Recorded(q.worlds[k], a)
    requires r.worlds[n].requests[r.worlds[n].origin[a]].req == q.worlds[k].requests[q.worlds[k].origin[a]].req
    requires a in r.worlds[n].psp && a in q.worlds[k].psp && r.worlds[n].psp[a] == q.worlds[k].psp[a]
    ensures var i := r.worlds[n].attempts[a].attempt.invoiceId;
            && q.worlds[k].attempts[a].attempt.invoiceId == i
            && i in r.worlds[n].invoices && i in q.worlds[k].invoices
            && r.worlds[n].invoices[i].state == q.worlds[k].invoices[i].state == Paid
            && r.worlds[n].invoices[i].versioning == q.worlds[k].invoices[i].versioning
            && r.worlds[n].attempts[a].attempt.pspReference == q.worlds[k].attempts[a].attempt.pspReference
            && r.worlds[n].attempts[a].attempt.failureCode == q.worlds[k].attempts[a].attempt.failureCode == None
  {
    PaidAtVersion(r, n, a);
    PaidAtVersion(q, k, a);
  }

  lemma PaidAtVersion(r: Run, n: nat, a: Id)
    requires r.Valid() && SafeRun(r) && n <= |r.steps| && SucceededAt(r.worlds[n], a) && Recorded(r.worlds[n], a)
    ensures var w := r.worlds[n];
            var req := w.requests[w.origin[a]].req;
            && w.attempts[a].attempt.invoiceId == req.invoiceId && w.attempts[a].attempt.failureCode == None
            && req.invoiceId in w.invoices
            && w.invoices[req.invoiceId].state == Paid
            && w.invoices[req.invoiceId].versioning == req.versioning + 2
            && a in w.psp && w.attempts[a].attempt.pspReference == w.psp[a].pspRef
  {
    SuccessVersion(r, n, a);
    SuccessWritesSettle(r, n, n, a);
    StatusesMatchOutcomes(r, n, a);
    SoundRun(r, n);
    assert RowOk(r.worlds[n], a) && OriginatorOk(r.worlds[n], r.worlds[n].origin[a]);
  }
}

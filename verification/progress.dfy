/** What moves on over whole runs, and within which bounds: versions are used up, overdue
    attempts get resolved, bills freeze, retries spread out. */
module Progress {
  import opened Types
  import opened Protocol
  import opened Bookkeeping
  import opened Guarantees
  import Resolution
  import Versions
  import Ledger
  import Retries
  import Pacing
  import Money

  // ----- versions -----

  lemma {:induction false} VersionsGrowRun(r: Run, m: nat, n: nat)
    requires r.Valid() && m <= n <= |r.steps|
    ensures Versions.VersionsGrow(r.worlds[m], r.worlds[n])
    decreases n
  {
    if m < n {
      VersionsGrowRun(r, m, n - 1);
      assert r.StepAt(n - 1);
      Versions.VersionsGrowStep(r.worlds[n - 1], r.steps[n - 1], r.worlds[n]);
    }
  }

  /** Each version of an invoice admits at most one edit, finalize, void or pay. */
  lemma VersionConsumedOnce(r: Run, m: nat, n: nat)
    requires r.Valid() && m < n < |r.steps|
    requires Versions.CasOf(r.worlds[m], r.steps[m]).Cas?
    ensures Versions.CasOf(r.worlds[n], r.steps[n]) != Versions.CasOf(r.worlds[m], r.steps[m])
  {
    assert r.StepAt(m) && r.StepAt(n);
    VersionsGrowRun(r, m + 1, n);
    Versions.LaterCasDiffers(r.worlds[m], r.steps[m], r.worlds[m + 1],
                             r.worlds[n], r.steps[n], r.worlds[n + 1]);
  }

  /** Of all the pays that present one version of an invoice at most one creates an
      attempt, and an invoice has fewer attempts than its version. */
  lemma OneAttemptPerVersion(r: Run, n: nat, i: Id)
    requires r.Valid() && n <= |r.steps| && i in r.worlds[n].invoices
    ensures var w := r.worlds[n];
            && (forall r1, r2 ::
                  (&& r1 in w.requests && r2 in w.requests
                   && w.requests[r1].Originator() && w.requests[r2].Originator()
                   && w.requests[r1].req.invoiceId == i == w.requests[r2].req.invoiceId
                   && w.requests[r1].req.versioning == w.requests[r2].req.versioning) ==>
                    r1 == r2)
            && |Versions.AttemptsOf(w, i)| < w.invoices[i].versioning
  {
    SoundRun(r, n);
    var w := r.worlds[n];
    assert Versions.CountOk(w, i);
    forall r1, r2 | r1 in w.requests && r2 in w.requests
                    && w.requests[r1].Originator() && w.requests[r2].Originator()
                    && w.requests[r1].req.invoiceId == i == w.requests[r2].req.invoiceId
                    && w.requests[r1].req.versioning == w.requests[r2].req.versioning
      ensures r1 == r2
    {
      assert Versions.SpentDiffer(w, r1, r2);
    }
  }

  // ----- resolution -----

  /** No invoice is stranded: a Processing invoice has a pending attempt, the one that last
      moved it there, in every run. */
  lemma NoInvoiceStranded(r: Run, n: nat, i: Id)
    requires r.Valid() && n <= |r.steps|
    requires i in r.worlds[n].invoices && r.worlds[n].invoices[i].state == Processing
    ensures i in r.worlds[n].lastClaim
    ensures r.worlds[n].lastClaim[i] in PendingOf(r.worlds[n], i)
  {
    SoundRun(r, n);
    assert Resolution.HeldOk(r.worlds[n], i);
  }

  lemma {:induction false} CutoffKept(r: Run, q: nat, m: nat)
    requires r.Valid() && q <= m <= |r.steps|
    requires forall k :: q <= k <= m ==> r.worlds[k].worker.Expiring?
    ensures r.worlds[m].worker.cutoff == r.worlds[q].worker.cutoff
    decreases m
  {
    if q < m {
      CutoffKept(r, q, m - 1);
      assert r.StepAt(m - 1);
      CutoffStep(r.worlds[m - 1], r.steps[m - 1], r.worlds[m]);
    }
  }

  lemma CutoffStep(w: World, s: Step, w': World)
    requires Next(w, s, w') && w.worker.Expiring? && w'.worker.Expiring?
    ensures w'.worker.cutoff == w.worker.cutoff
  {
    if PayStep(s) { PayKeepsWorker(w, s, w'); }
    else if !WorkerStep(s) { InvoiceFootprint(w, s, w'); }
  }

  lemma {:induction false} NothingRevives(r: Run, m: nat, n: nat, cutoff: int)
    requires r.Valid() && m <= n <= |r.steps| && cutoff < r.worlds[m].now
    requires forall a :: PendingIn(r.worlds[m].attempts, a) ==> r.worlds[m].attempts[a].attempt.createdAt > cutoff
    ensures cutoff < r.worlds[n].now
    ensures forall a :: PendingIn(r.worlds[n].attempts, a) ==> r.worlds[n].attempts[a].attempt.createdAt > cutoff
    decreases n
  {
    if m < n {
      NothingRevives(r, m, n - 1, cutoff);
      SoundRun(r, n - 1);
      assert r.StepAt(n - 1);
      Resolution.NoRevivalStep(r.worlds[n - 1], r.steps[n - 1], r.worlds[n]);
    }
  }

  /** A tick whose expiry query runs at step q and whose expiry list is done at m leaves
      nothing pending that was created 24 hours before the query or earlier, and no invoice
      in a Processing period that such an attempt began. Neither comes back. */
  lemma TickResolvesOverdue(r: Run, q: nat, m: nat, n: nat)
    requires r.Valid() && q < m <= n <= |r.steps|
    requires r.steps[q].ExpireSelect? && !r.worlds[q].worker.Expiring?
    requires forall k :: q < k <= m ==> r.worlds[k].worker.Expiring?
    requires r.worlds[m].worker.expired == []
    ensures forall a :: PendingIn(r.worlds[n].attempts, a) ==>
              r.worlds[n].attempts[a].attempt.createdAt > r.worlds[q].now - 86_400_000
    ensures forall i :: i in r.worlds[n].invoices && r.worlds[n].invoices[i].state == Processing ==>
              && i in r.worlds[n].lastClaim && r.worlds[n].lastClaim[i] in r.worlds[n].attempts
              && r.worlds[n].attempts[r.worlds[n].lastClaim[i]].attempt.createdAt > r.worlds[q].now - 86_400_000
  {
    var t := r.worlds[q].now - DAY_MS;
    assert r.StepAt(q);
    SelectSetsCutoff(r.worlds[q], r.steps[q], r.worlds[q + 1]);
    CutoffKept(r, q + 1, m);
    SoundRun(r, m);
    SoundRun(r, n);
    forall a | PendingIn(r.worlds[m].attempts, a) ensures r.worlds[m].attempts[a].attempt.createdAt > t {
      assert Resolution.CoveredOk(r.worlds[m], a);
    }
    NothingRevives(r, m, n, t);
    forall i | i in r.worlds[n].invoices && r.worlds[n].invoices[i].state == Processing
      ensures i in r.worlds[n].lastClaim && PendingIn(r.worlds[n].attempts, r.worlds[n].lastClaim[i])
    {
      assert Resolution.HeldOk(r.worlds[n], i);
    }
  }

  lemma SelectSetsCutoff(w: World, s: Step, w': World)
    requires Next(w, s, w') && s.ExpireSelect? && !w.worker.Expiring? && w'.worker.Expiring?
    ensures w'.worker.cutoff == w.now - DAY_MS
  {
  }

  // ----- bills and retries -----

  lemma {:induction false} BillFrozen(r: Run, m: nat, n: nat, i: Id)
    requires r.Valid() && m <= n <= |r.steps|
    requires i in r.worlds[m].invoices && r.worlds[m].invoices[i].state != Draft
    ensures i in r.worlds[n].invoices && r.worlds[n].invoices[i].state != Draft
    ensures Ledger.SameBill(r.worlds[m].invoices[i], r.worlds[n].invoices[i])
    decreases n
  {
    if m < n {
      BillFrozen(r, m, n - 1, i);
      assert r.StepAt(n - 1);
      Ledger.FrozenStep(r.worlds[n - 1], r.steps[n - 1], r.worlds[n]);
    }
  }

  /** Draft is never re-entered, whatever the run. */
  lemma NeverBackToDraft(r: Run, m: nat, n: nat, i: Id)
    requires r.Valid() && m <= n <= |r.steps|
    requires i in r.worlds[m].invoices && r.worlds[m].invoices[i].state != Draft
    ensures i in r.worlds[n].invoices && r.worlds[n].invoices[i].state != Draft
  {
    BillFrozen(r, m, n, i);
  }

  /** Every reachable invoice has positive items and a positive total, and the total is
      the amount of the items exactly when that amount fits in 64 bits. */
  lemma TotalsConserved(r: Run, n: nat, i: Id)
    requires r.Valid() && n <= |r.steps| && i in r.worlds[n].invoices
    ensures var inv := r.worlds[n].invoices[i];
            && inv.lineItems != [] && Money.AllPositive(inv.lineItems) && inv.totalCents > 0
            && (inv.totalCents == Money.Sum(inv.lineItems) <==> Money.Sum(inv.lineItems) <= MAX_I64)
  {
    SoundRun(r, n);
    assert Ledger.InvoiceOk(r.worlds[n], i);
    Money.TotalExactIffFits(r.worlds[n].invoices[i].lineItems);
  }

  /** How often the process was restarted in the first n steps. */
  function Restarts(r: Run, n: nat): nat
    requires n <= |r.steps|
  {
    if n == 0 then 0 else Restarts(r, n - 1) + (if r.steps[n - 1].WorkerRestart? then 1 else 0)
  }

  lemma {:induction false} PacedRun(r: Run, n: nat)
    requires r.Valid() && n <= |r.steps|
    ensures Pacing.Paced(r.worlds[n], Restarts(r, n))
  {
    if n > 0 {
      PacedRun(r, n - 1);
      SoundRun(r, n - 1);
      assert r.StepAt(n - 1);
      Pacing.PacedStep(r.worlds[n - 1], r.steps[n - 1], r.worlds[n], Restarts(r, n - 1));
    }
  }

  /** In every run answer k for an attempt comes at least 15 + 16(k - 4) minutes after
      answer 0 while the power reaches, and a minute later for each answer after the 63rd,
      short of at most a minute for every restart. */
  lemma RetriesSpread(r: Run, n: nat, a: Id, k: nat)
    requires r.Valid() && n <= |r.steps| && a in r.worlds[n].attempts && k < |r.worlds[n].attempts[a].misses|
    ensures var misses := r.worlds[n].attempts[a].misses;
            && (4 <= k <= 63 ==> misses[k] >= misses[0] + 60_000 * (15 + 16 * (k - 4)))
            && (k >= 63 ==> misses[k] >= misses[0] + 60_000 * (959 + (k - 63) - Restarts(r, n)))
  {
    SoundRun(r, n);
    PacedRun(r, n);
    if 4 <= k <= 63 { Retries.NotFoundAnswersSpread(r.worlds[n], a, k); }
    assert Pacing.PacedOk(r.worlds[n], a, Restarts(r, n));
    Pacing.SpreadClosedForm(k);
  }

  /** In every run the worker finds an attempt unknown to the provider at most 544 times,
      and once more for every restart of the process. */
  lemma NotFoundAnswersBounded(r: Run, n: nat, a: Id)
    requires r.Valid() && n <= |r.steps| && a in r.worlds[n].attempts
    ensures |r.worlds[n].attempts[a].misses| <= 544 + Restarts(r, n)
  {
    PacedRun(r, n);
    assert Pacing.PacedOk(r.worlds[n], a, Restarts(r, n));
    Pacing.PacedCount(r.worlds[n].attempts[a], Restarts(r, n), r.worlds[n].now);
  }
}

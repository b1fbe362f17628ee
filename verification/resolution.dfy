/** No invoice is stranded in Processing, and a tick resolves everything that is overdue. */
module Resolution {
  import opened Types
  import opened Protocol
  import opened Bookkeeping
  import opened Effects

  /** A Processing invoice is held by a pending attempt, the one that last claimed it. */
  ghost predicate HeldOk(w: World, i: Id) {
    i in w.invoices && w.invoices[i].state == Processing ==>
      && i in w.lastClaim
      && PendingIn(w.attempts, w.lastClaim[i])
      && w.attempts[w.lastClaim[i]].attempt.invoiceId == i
  }

  ghost predicate NotStranded(w: World) { forall i {:trigger HeldOk(w, i)} :: HeldOk(w, i) }

  lemma NotStrandedClaim(w: World, i: Id, a: Id, w': World)
    requires NotStranded(w) && ClaimEffect(w, i, a, w')
    ensures NotStranded(w')
  {
    forall j ensures HeldOk(w', j) { assert HeldOk(w, j); }
  }

  lemma NotStrandedWrite(w: World, f: FinalWrite, w': World)
    requires NotStranded(w) && f.FinalWrite? && Writes(w, f, w')
    ensures NotStranded(w')
  {
    forall j ensures HeldOk(w', j) { assert HeldOk(w, j); }
  }

  lemma NotStrandedQuiet(w: World, w': World)
    requires NotStranded(w) && StatusesSame(w, w')
    requires forall i :: i in w'.invoices && w'.invoices[i].state == Processing ==>
               i in w.invoices && w.invoices[i].state == Processing
    ensures NotStranded(w')
  {
    forall j ensures HeldOk(w', j) { assert HeldOk(w, j); }
  }

  lemma NoQuietEntry(w: World, s: Step, w': World)
    requires Next(w, s, w') && !Claims(w, s) && WriteOf(w, s).NoWrite?
    ensures forall i :: i in w'.invoices && w'.invoices[i].state in {Processing, Uncollectible} ==>
              i in w.invoices && w.invoices[i].state == w'.invoices[i].state
  {
    if PayStep(s) { QuietPay(w, s, w'); }
    else if WorkerStep(s) { QuietWorker(w, s, w'); }
    else if OpCommits(w, s) { OpEffect(w, s, w'); }
    else { QuietInvoices(w, s, w'); }
  }

  lemma NotStrandedStep(w: World, s: Step, w': World)
    requires Core(w) && Lists(w) && NotStranded(w) && Next(w, s, w')
    ensures NotStranded(w')
  {
    if Claims(w, s) {
      ClaimHasEffect(w, s, w');
      NotStrandedClaim(w, w.requests[s.rid].req.invoiceId, s.attemptId, w');
    } else if WriteOf(w, s).FinalWrite? {
      FinalWriteEffect(w, s, w');
      NotStrandedWrite(w, WriteOf(w, s), w');
    } else {
      QuietStatuses(w, s, w');
      NoQuietEntry(w, s, w');
      NotStrandedQuiet(w, w');
    }
  }

  // ----- Uncollectible is never entered -----

  ghost predicate CollectibleOk(w: World, i: Id) {
    i in w.invoices ==> w.invoices[i].state != Uncollectible
  }

  ghost predicate Collectible(w: World) { forall i {:trigger CollectibleOk(w, i)} :: CollectibleOk(w, i) }

  lemma CollectibleStep(w: World, s: Step, w': World)
    requires Core(w) && Lists(w) && Collectible(w) && Next(w, s, w')
    ensures Collectible(w')
  {
    if Claims(w, s) { ClaimHasEffect(w, s, w'); }
    else if WriteOf(w, s).FinalWrite? { FinalWriteEffect(w, s, w'); }
    else { NoQuietEntry(w, s, w'); }
    forall i ensures CollectibleOk(w', i) { assert CollectibleOk(w, i); }
  }

  // ----- the worker's expiry list -----

  /** While the worker expires attempts, every pending attempt created at or before its
      cutoff is still on its list. */
  ghost predicate CoveredOk(w: World, a: Id) {
    w.worker.Expiring? && PendingIn(w.attempts, a) && w.attempts[a].attempt.createdAt <= w.worker.cutoff ==>
      Listed(w.worker.expired, a)
  }

  ghost predicate Covers(w: World) {
    && (w.worker.Expiring? ==> w.worker.cutoff <= w.now - DAY_MS)
    && forall a {:trigger CoveredOk(w, a)} :: CoveredOk(w, a)
  }

  /** Pending attempts are old attempts that were pending, or were created just now. */
  ghost predicate NoRevival(w: World, w': World) {
    && w.now <= w'.now
    && (forall a :: PendingIn(w'.attempts, a) ==>
          || w'.attempts[a].attempt.createdAt == w.now
          || (PendingIn(w.attempts, a) && w'.attempts[a].attempt.createdAt == w.attempts[a].attempt.createdAt))
  }

  lemma NoRevivalStep(w: World, s: Step, w': World)
    requires Core(w) && Lists(w) && Next(w, s, w')
    ensures NoRevival(w, w')
  {
    ClockForward(w, s, w');
    if Claims(w, s) {
      ClaimHasEffect(w, s, w');
    } else {
      PendingOnlyLost(w, s, w');
    }
  }

  lemma PendingOnlyLost(w: World, s: Step, w': World)
    requires Core(w) && Lists(w) && Next(w, s, w') && !Claims(w, s)
    ensures forall a :: PendingIn(w'.attempts, a) ==>
              PendingIn(w.attempts, a) && w'.attempts[a].attempt.createdAt == w.attempts[a].attempt.createdAt
  {
    if WriteOf(w, s).FinalWrite? { FinalWriteEffect(w, s, w'); } else { QuietStatuses(w, s, w'); }
  }

  lemma ClockForward(w: World, s: Step, w': World)
    requires Next(w, s, w')
    ensures w.now <= w'.now
  {
    if PayStep(s) { PayKeepsWorker(w, s, w'); }
    else if WorkerStep(s) { WorkerFootprint(w, s, w'); }
    else { InvoiceFootprint(w, s, w'); }
  }

  lemma CoversFrame(w: World, w': World)
    requires Covers(w) && NoRevival(w, w')
    requires w'.worker.Expiring? ==> w'.worker == w.worker
    ensures Covers(w')
  {
    forall a ensures CoveredOk(w', a) { assert CoveredOk(w, a); }
  }

  lemma CoversSelect(w: World, rows: seq<Snapshot>, w': World)
    requires Covers(w) && ExpireSelectStep(w, rows, w')
    ensures Covers(w')
  {
    forall a ensures CoveredOk(w', a) {
      assert CoveredOk(w, a);
      if w'.worker != w.worker && PendingIn(w.attempts, a) && w.attempts[a].attempt.createdAt <= w.now - DAY_MS {
        assert Overdue(w.attempts, w.now, a);
      }
    }
  }

  lemma CoversWrite(w: World, w': World)
    requires Lists(w) && Core(w) && Covers(w) && ExpireWriteStep(w, w')
    ensures Covers(w')
  {
    forall a ensures CoveredOk(w', a) {
      assert CoveredOk(w, a);
      if w.worker.Expiring? && w.worker.expired != [] {
        var q := w.worker.expired;
        assert Known(w, q[0]) && RowOk(w, q[0].attemptId);
        if Listed(q, a) && q[0].attemptId != a {
          var j :| 0 <= j < |q| && q[j].attemptId == a;
          assert q[1..][j - 1].attemptId == a;
        }
      }
    }
  }

  lemma CoversStep(w: World, s: Step, w': World)
    requires Core(w) && Lists(w) && Covers(w) && Next(w, s, w')
    ensures Covers(w')
  {
    if s.ExpireSelect? {
      CoversSelect(w, s.rows, w');
    } else if s.ExpireWrite? {
      CoversWrite(w, w');
    } else {
      NoRevivalStep(w, s, w');
      ExpiringSame(w, s, w');
      CoversFrame(w, w');
    }
  }

  lemma ExpiringSame(w: World, s: Step, w': World)
    requires Next(w, s, w') && !s.ExpireSelect? && !s.ExpireWrite?
    ensures w'.worker.Expiring? ==> w'.worker == w.worker
  {
    if PayStep(s) { PayKeepsWorker(w, s, w'); }
    else if !WorkerStep(s) { InvoiceFootprint(w, s, w'); }
  }
}

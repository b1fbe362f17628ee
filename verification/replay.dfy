/** Idempotency over whole runs: one attempt and one charge per key, and faithful replays. */
module Replay {
  import opened Types
  import opened Protocol
  import opened Bookkeeping
  import opened Guarantees

  /** Records and attempts are in bijection, and the bijection respects invoices. */
  lemma RecordsMatchAttempts(r: Run, n: nat)
    requires r.Valid() && n <= |r.steps|
    ensures var w := r.worlds[n];
            && (forall k :: k in w.records ==>
                  w.records[k].body.id in w.attempts
                  && w.attempts[w.records[k].body.id].attempt.invoiceId == k.invoiceId)
            && (forall k1, k2 ::
                  (k1 in w.records && k2 in w.records && w.records[k1].body.id == w.records[k2].body.id) ==>
                    k1 == k2)
            && (forall a :: a in w.attempts ==> exists k :: k in w.records && w.records[k].body.id == a)
  {
    SoundRun(r, n);
    var w := r.worlds[n];
    forall k | k in w.records
      ensures w.records[k].body.id in w.attempts
              && w.attempts[w.records[k].body.id].attempt.invoiceId == k.invoiceId
    {
      assert RecordOk(w, k) && RowOk(w, w.records[k].body.id);
      assert OriginatorOk(w, w.origin[w.records[k].body.id]);
    }
    forall k1, k2 | k1 in w.records && k2 in w.records && w.records[k1].body.id == w.records[k2].body.id
      ensures k1 == k2
    {
      assert RecordOk(w, k1) && RecordOk(w, k2);
    }
    forall a | a in w.attempts ensures exists k :: k in w.records && w.records[k].body.id == a {
      assert RowOk(w, a) && OriginatorOk(w, w.origin[a]);
      var k := KeyOf(w.requests[w.origin[a]].req);
      assert k in w.records && w.records[k].body.id == a;
    }
  }

  /** Over a whole run at most one request per key creates an attempt, and the provider is
      called at most once for each key, even for duplicates after the 24-hour lookup. */
  lemma OneAttemptAndOneCallPerKey(r: Run, n: nat)
    requires r.Valid() && n <= |r.steps|
    ensures var w := r.worlds[n];
            && (forall r1, r2 ::
                  (&& r1 in w.requests && r2 in w.requests
                   && w.requests[r1].Originator() && w.requests[r2].Originator()
                   && KeyOf(w.requests[r1].req) == KeyOf(w.requests[r2].req)) ==>
                    r1 == r2)
            && (forall j :: 0 <= j < |w.calls| ==>
                  w.calls[j].attemptId in w.origin && w.origin[w.calls[j].attemptId] in w.requests)
            && (forall i, j :: 0 <= i < j < |w.calls| ==>
                  KeyOf(w.requests[w.origin[w.calls[i].attemptId]].req)
                  != KeyOf(w.requests[w.origin[w.calls[j].attemptId]].req))
  {
    SoundRun(r, n);
    var w := r.worlds[n];
    forall r1, r2 | r1 in w.requests && r2 in w.requests
                    && w.requests[r1].Originator() && w.requests[r2].Originator()
                    && KeyOf(w.requests[r1].req) == KeyOf(w.requests[r2].req)
      ensures r1 == r2
    {
      assert OriginatorOk(w, r1) && OriginatorOk(w, r2);
    }
    forall j | 0 <= j < |w.calls|
      ensures w.calls[j].attemptId in w.origin && w.origin[w.calls[j].attemptId] in w.requests
    {
      assert CallOk(w, j);
    }
    forall i, j | 0 <= i < j < |w.calls|
      ensures KeyOf(w.requests[w.origin[w.calls[i].attemptId]].req)
              != KeyOf(w.requests[w.origin[w.calls[j].attemptId]].req)
    {
      assert CallOk(w, i) && CallOk(w, j) && CallsDiffer(w, i, j);
      assert RowOk(w, w.calls[i].attemptId) && RowOk(w, w.calls[j].attemptId);
      assert OriginatorOk(w, w.origin[w.calls[i].attemptId]) && OriginatorOk(w, w.origin[w.calls[j].attemptId]);
    }
  }

  lemma RecordsKept(w: World, s: Step, w': World)
    requires Next(w, s, w')
    ensures w.records.Keys <= w'.records.Keys
  {
    if s.PayClaim? || s.PayResolve? { TransactionKeepsRecords(w, s, w'); }
    else { CoreSameStep(w, s, w'); }
  }

  lemma TransactionKeepsRecords(w: World, s: Step, w': World)
    requires Next(w, s, w') && (s.PayClaim? || s.PayResolve?)
    ensures w.records.Keys <= w'.records.Keys
  {
  }

  lemma {:induction false} RecordsKeptRun(r: Run, m: nat, n: nat)
    requires r.Valid() && m <= n <= |r.steps|
    ensures r.worlds[m].records.Keys <= r.worlds[n].records.Keys
    decreases n
  {
    if m < n {
      RecordsKeptRun(r, m, n - 1);
      assert r.StepAt(n - 1);
      RecordsKept(r.worlds[n - 1], r.steps[n - 1], r.worlds[n]);
    }
  }

  /** A key that was ever recorded never creates a second attempt: a duplicate that slipped
      past the lookup, concurrently or after 24 hours, is rejected at the unique index and
      its compare-and-set is rolled back with it. */
  lemma DuplicateIsRejected(r: Run, m: nat, n: nat, rid: Id, aid: Id)
    requires r.Valid() && m <= n < |r.steps| && r.steps[n] == PayClaim(rid, aid)
    requires rid in r.worlds[n].requests && r.worlds[n].requests[rid].Looked?
    requires KeyOf(r.worlds[n].requests[rid].req) in r.worlds[m].records
    ensures rid in r.worlds[n + 1].requests && r.worlds[n + 1].requests[rid].Rejected?
    ensures r.worlds[n + 1].invoices == r.worlds[n].invoices
    ensures r.worlds[n + 1].attempts == r.worlds[n].attempts
    ensures r.worlds[n + 1].records == r.worlds[n].records
  {
    RecordsKeptRun(r, m, n);
    assert r.StepAt(n);
    DuplicateClaim(r.worlds[n], rid, aid, r.worlds[n + 1]);
  }

  lemma DuplicateClaim(w: World, rid: Id, aid: Id, w': World)
    requires PayClaimStep(w, rid, aid, w') && rid in w.requests && w.requests[rid].Looked?
    requires KeyOf(w.requests[rid].req) in w.records
    ensures rid in w'.requests && w'.requests[rid].Rejected?
    ensures w'.invoices == w.invoices && w'.attempts == w.attempts && w'.records == w.records
  {
  }

  lemma CompletedStays(w: World, s: Step, w': World, rid: Id)
    requires Next(w, s, w') && rid in w.requests && w.requests[rid].Completed?
    ensures rid in w'.requests && w'.requests[rid] == w.requests[rid]
  {
    if PayStep(s) { CompletedStaysPay(w, s, w', rid); }
    else if WorkerStep(s) { WorkerFootprint(w, s, w'); }
    else { InvoiceFootprint(w, s, w'); }
  }

  lemma CompletedStaysPay(w: World, s: Step, w': World, rid: Id)
    requires Next(w, s, w') && PayStep(s) && rid in w.requests && w.requests[rid].Completed?
    ensures rid in w'.requests && w'.requests[rid] == w.requests[rid]
  {
  }

  lemma {:induction false} CompletedForever(r: Run, m: nat, n: nat, rid: Id)
    requires r.Valid() && m <= n <= |r.steps|
    requires rid in r.worlds[m].requests && r.worlds[m].requests[rid].Completed?
    ensures rid in r.worlds[n].requests && r.worlds[n].requests[rid] == r.worlds[m].requests[rid]
    decreases n
  {
    if m < n {
      CompletedForever(r, m, n - 1, rid);
      assert r.StepAt(n - 1);
      CompletedStays(r.worlds[n - 1], r.steps[n - 1], r.worlds[n], rid);
    }
  }

  /** Once the originating request has returned, every replay of its key within 24 hours of
      the attempt returns that same response, whatever anyone did in between. */
  lemma ReplayReturnsTheResponse(r: Run, m: nat, n: nat, origin: Id, rid: Id, req: PayRequest)
    requires r.Valid() && m <= n < |r.steps|
    requires origin in r.worlds[m].requests && r.worlds[m].requests[origin].Completed?
    requires r.steps[n] == PayLookup(rid, req) && rid !in r.worlds[n].requests
    requires KeyOf(req) == KeyOf(r.worlds[m].requests[origin].req)
    requires r.worlds[n].now < r.worlds[m].requests[origin].attempt.createdAt + 86_400_000
    ensures rid in r.worlds[n + 1].requests
    ensures r.worlds[n + 1].requests[rid] == Replayed(req, r.worlds[m].requests[origin].response)
  {
    CompletedForever(r, m, n, origin);
    SoundRun(r, n);
    assert OriginatorOk(r.worlds[n], origin);
    assert r.StepAt(n);
    LookupReplays(r.worlds[n], rid, req, r.worlds[n + 1]);
  }

  lemma LookupReplays(w: World, rid: Id, req: PayRequest, w': World)
    requires PayLookupStep(w, rid, req, w') && rid !in w.requests
    requires KeyOf(req) in w.records && w.records[KeyOf(req)].createdAt > w.now - DAY_MS
    ensures rid in w'.requests && w'.requests[rid] == Replayed(req, w.records[KeyOf(req)].body)
  {
  }

  /** Before the originating request has returned, or if it died, a replay returns the
      pending snapshot of the same attempt, even if the worker has settled it meanwhile. */
  lemma ReplayReturnsTheSnapshot(r: Run, n: nat, origin: Id, rid: Id, req: PayRequest)
    requires r.Valid() && n < |r.steps|
    requires origin in r.worlds[n].requests && r.worlds[n].requests[origin].Originator()
    requires !r.worlds[n].requests[origin].Completed?
    requires r.steps[n] == PayLookup(rid, req) && rid !in r.worlds[n].requests
    requires KeyOf(req) == KeyOf(r.worlds[n].requests[origin].req)
    requires r.worlds[n].now < r.worlds[n].requests[origin].attempt.createdAt + 86_400_000
    ensures rid in r.worlds[n + 1].requests
    ensures r.worlds[n + 1].requests[rid] == Replayed(req, r.worlds[n].requests[origin].attempt)
    ensures r.worlds[n].requests[origin].attempt.status == Pending
  {
    SoundRun(r, n);
    assert OriginatorOk(r.worlds[n], origin);
    assert r.StepAt(n);
    LookupReplays(r.worlds[n], rid, req, r.worlds[n + 1]);
  }
}

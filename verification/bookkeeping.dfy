/** What every reachable state keeps whatever the interleaving: attempts, idempotency
    records, requests, charge calls and stored outcomes stay in step with each other. */
module Bookkeeping {
  import opened Types
  import opened Psp
  import opened Protocol

  // ----- attempts, requests and idempotency records -----

  /** An attempt belongs to an invoice and to the one request that created it. */
  ghost predicate RowOk(w: World, a: Id) {
    a in w.attempts ==>
      && w.attempts[a].attempt.id == a
      && w.attempts[a].attempt.invoiceId in w.invoices
      && w.attempts[a].attempt.createdAt <= w.now
      && a in w.origin
      && w.origin[a] in w.requests
      && w.requests[w.origin[a]].Originator()
      && w.requests[w.origin[a]].attempt.id == a
  }

  /** The record body of a request's key: the pending snapshot until the request has
      returned, and from then on what it returned. */
  function RecordedBody(pc: PayState): PaymentAttempt
    requires pc.Originator()
  {
    if pc.Completed? then pc.response else pc.attempt
  }

  /** A request that created an attempt is its only creator, carries its pending snapshot
      and finds under its key exactly the body it last stored there. */
  ghost predicate OriginatorOk(w: World, r: Id) {
    r in w.requests && w.requests[r].Originator() ==>
      var pc := w.requests[r];
      var a := pc.attempt.id;
      && a in w.attempts
      && a in w.origin
      && w.origin[a] == r
      && pc.attempt.status == Pending
      && pc.attempt.invoiceId == pc.req.invoiceId
      && pc.attempt.cardToken == pc.req.cardToken
      && w.attempts[a].attempt.invoiceId == pc.req.invoiceId
      && w.attempts[a].attempt.cardToken == pc.req.cardToken
      && w.attempts[a].attempt.createdAt == pc.attempt.createdAt
      && KeyOf(pc.req) in w.records
      && w.records[KeyOf(pc.req)].body == RecordedBody(pc)
      && RecordedBody(pc).id == a
      && w.records[KeyOf(pc.req)].createdAt == pc.attempt.createdAt
  }

  /** A record was written by the request that created its attempt. */
  ghost predicate RecordOk(w: World, k: IdemKey) {
    k in w.records ==>
      var a := w.records[k].body.id;
      && a in w.attempts
      && a in w.origin
      && w.origin[a] in w.requests
      && KeyOf(w.requests[w.origin[a]].req) == k
  }

  ghost predicate Core(w: World) {
    && (forall a {:trigger RowOk(w, a)} :: RowOk(w, a))
    && (forall r {:trigger OriginatorOk(w, r)} :: OriginatorOk(w, r))
    && (forall k {:trigger RecordOk(w, k)} :: RecordOk(w, k))
  }

  ghost predicate SameIdentity(r1: AttemptRow, r2: AttemptRow) {
    && r1.attempt.id == r2.attempt.id
    && r1.attempt.invoiceId == r2.attempt.invoiceId
    && r1.attempt.cardToken == r2.attempt.cardToken
    && r1.attempt.createdAt == r2.attempt.createdAt
  }

  ghost predicate SameAttempts(w: World, w': World) {
    && w'.attempts.Keys == w.attempts.Keys
    && (forall a :: a in w.attempts ==> SameIdentity(w.attempts[a], w'.attempts[a]))
  }

  /** A request may move on, but keeps its key, its attempt and its record body. */
  ghost predicate SameRequest(p: PayState, q: PayState) {
    && q.req == p.req
    && p.Originator() == q.Originator()
    && (p.Originator() ==> q.attempt == p.attempt && RecordedBody(q) == RecordedBody(p))
  }

  ghost predicate SameRequests(w: World, w': World) {
    && (forall r :: r in w.requests ==>
          r in w'.requests && SameRequest(w.requests[r], w'.requests[r]))
    && (forall r :: r in w'.requests && r !in w.requests ==>
          !w'.requests[r].Originator())
  }

  /** Every step but the two committing transactions of a pay request. */
  ghost predicate CoreSame(w: World, w': World) {
    && w.now <= w'.now
    && w.invoices.Keys <= w'.invoices.Keys
    && w'.records == w.records
    && w'.origin == w.origin
    && SameAttempts(w, w')
    && SameRequests(w, w')
  }

  lemma CoreFrame(w: World, w': World)
    requires Core(w) && CoreSame(w, w')
    ensures Core(w')
  {
    forall a ensures RowOk(w', a) { assert RowOk(w, a); }
    forall r ensures OriginatorOk(w', r) { assert OriginatorOk(w, r); }
    forall k ensures RecordOk(w', k) { assert RecordOk(w, k); }
  }

  predicate PayStep(s: Step) {
    s.PayLookup? || s.PayClaim? || s.PaySend? || s.PspServe? || s.PayReply? || s.PayResolve? || s.PayAbort?
  }

  predicate WorkerStep(s: Step) {
    s.TickSelect? || s.TickPoll? || s.TickWrite? || s.TickSkip? || s.ExpireSelect? || s.ExpireWrite?
    || s.TickEnd? || s.TickAbort? || s.WorkerRestart?
  }

  lemma CoreClaim(w: World, rid: Id, aid: Id, w': World)
    requires Core(w) && PayClaimStep(w, rid, aid, w')
    ensures Core(w')
  {
    forall a ensures RowOk(w', a) { assert RowOk(w, a); }
    forall r ensures OriginatorOk(w', r) { assert OriginatorOk(w, r); }
    forall k ensures RecordOk(w', k) {
      assert RecordOk(w, k);
      if k in w.records { assert RowOk(w, w.records[k].body.id); }
    }
  }

  lemma CoreResolve(w: World, rid: Id, w': World)
    requires Core(w) && PayResolveStep(w, rid, w')
    ensures Core(w')
  {
    if rid in w.requests && w.requests[rid].Answered? {
      assert OriginatorOk(w, rid);
      assert RowOk(w, w.requests[rid].attempt.id);
      forall a ensures RowOk(w', a) { assert RowOk(w, a); }
      forall r ensures OriginatorOk(w', r) { assert OriginatorOk(w, r); }
      forall k ensures RecordOk(w', k) { assert RecordOk(w, k); }
    }
  }

  /** The tables that the invoice operations, the clock and the worker leave alone. */
  lemma InvoiceFootprint(w: World, s: Step, w': World)
    requires Next(w, s, w') && !PayStep(s) && !WorkerStep(s)
    ensures w.now <= w'.now && w.invoices.Keys <= w'.invoices.Keys
    ensures w'.attempts == w.attempts && w'.records == w.records && w'.psp == w.psp
    ensures w'.requests == w.requests && w'.worker == w.worker && w'.calls == w.calls
    ensures w'.served == w.served && w'.origin == w.origin && w'.lastClaim == w.lastClaim
  {
  }

  lemma WorkerFootprint(w: World, s: Step, w': World)
    requires Next(w, s, w') && WorkerStep(s)
    ensures OnlyWorker(w, w')
    ensures !s.TickWrite? && !s.ExpireWrite? ==> w'.attempts == w.attempts && w'.invoices == w.invoices
  {
  }

  /** A step leaves one world only, so a method proved to be a step has no freedom left. */
  lemma NextIsDeterministic(w: World, s: Step, a: World, b: World)
    requires Next(w, s, a) && Next(w, s, b)
    ensures a == b
  {
    if s.PayClaim? || s.PayResolve? { TransactionIsDeterministic(w, s, a, b); }
    else if PayStep(s) { CallIsDeterministic(w, s, a, b); }
    else if WorkerStep(s) { WorkerIsDeterministic(w, s, a, b); }
    else if s.Create? || s.EditCas? || s.EditApply? { DraftIsDeterministic(w, s, a, b); }
    else { OpIsDeterministic(w, s, a, b); }
  }

  lemma TransactionIsDeterministic(w: World, s: Step, a: World, b: World)
    requires Next(w, s, a) && Next(w, s, b) && (s.PayClaim? || s.PayResolve?)
    ensures a == b
  {
  }

  lemma CallIsDeterministic(w: World, s: Step, a: World, b: World)
    requires Next(w, s, a) && Next(w, s, b) && PayStep(s) && !s.PayClaim? && !s.PayResolve?
    ensures a == b
  {
  }

  lemma WorkerIsDeterministic(w: World, s: Step, a: World, b: World)
    requires Next(w, s, a) && Next(w, s, b) && WorkerStep(s)
    ensures a == b
  {
  }

  lemma DraftIsDeterministic(w: World, s: Step, a: World, b: World)
    requires Next(w, s, a) && Next(w, s, b) && (s.Create? || s.EditCas? || s.EditApply?)
    ensures a == b
  {
  }

  lemma OpIsDeterministic(w: World, s: Step, a: World, b: World)
    requires Next(w, s, a) && Next(w, s, b) && !PayStep(s) && !WorkerStep(s)
    requires !s.Create? && !s.EditCas? && !s.EditApply?
    ensures a == b
  {
  }

  lemma CoreSamePay(w: World, s: Step, w': World)
    requires Next(w, s, w') && PayStep(s) && !s.PayClaim? && !s.PayResolve?
    ensures CoreSame(w, w')
  {
    if s.PspServe? { CoreSameServe(w, s.call, s.ref, w'); }
    else if s.PayAbort? { CoreSameAbort(w, s.rid, w'); }
    else { CoreSameRequest(w, s, w'); }
  }

  lemma CoreSameServe(w: World, k: nat, ref: string, w': World)
    requires PspServeStep(w, k, ref, w')
    ensures CoreSame(w, w')
  {
  }

  lemma CoreSameRequest(w: World, s: Step, w': World)
    requires Next(w, s, w') && (s.PayLookup? || s.PaySend? || s.PayReply?)
    ensures CoreSame(w, w')
  {
  }

  lemma CoreSameAbort(w: World, rid: Id, w': World)
    requires PayAbortStep(w, rid, w')
    ensures CoreSame(w, w')
  {
  }

  lemma CoreSameWrites(w: World, s: Step, w': World)
    requires Next(w, s, w') && (s.TickWrite? || s.ExpireWrite?)
    ensures CoreSame(w, w')
  {
  }

  lemma CoreSameStep(w: World, s: Step, w': World)
    requires Next(w, s, w') && !s.PayClaim? && !s.PayResolve?
    ensures CoreSame(w, w')
  {
    if PayStep(s) {
      CoreSamePay(w, s, w');
    } else if s.TickWrite? || s.ExpireWrite? {
      CoreSameWrites(w, s, w');
    } else if WorkerStep(s) {
      WorkerFootprint(w, s, w');
    } else {
      InvoiceFootprint(w, s, w');
    }
  }

  lemma CoreStep(w: World, s: Step, w': World)
    requires Core(w) && Next(w, s, w')
    ensures Core(w')
  {
    if s.PayClaim? {
      CoreClaim(w, s.rid, s.attemptId, w');
    } else if s.PayResolve? {
      CoreResolve(w, s.rid, w');
    } else {
      CoreSameStep(w, s, w');
      CoreFrame(w, w');
    }
  }

  // ----- charge calls and stored outcomes -----

  /** A charge call is made for a committed attempt, after its first transaction. */
  ghost predicate CallOk(w: World, j: int) {
    0 <= j < |w.calls| ==>
      && w.calls[j].attemptId in w.attempts
      && w.calls[j].attemptId in w.origin
      && w.origin[w.calls[j].attemptId] in w.requests
      && !w.requests[w.origin[w.calls[j].attemptId]].Claimed?
  }

  ghost predicate CallsDiffer(w: World, i: int, j: int) {
    0 <= i < j < |w.calls| ==> w.calls[i].attemptId != w.calls[j].attemptId
  }

  ghost predicate OutcomeOk(w: World, a: Id) {
    a in w.psp ==>
      && a in w.attempts
      && a in w.origin
      && w.origin[a] in w.requests
      && !w.requests[w.origin[a]].Claimed?
      && WellFormed(w.psp[a])
  }

  /** While a call is under way the provider holds no outcome for its attempt, so serving
      it never overwrites one. */
  ghost predicate UnservedOk(w: World, j: int) {
    0 <= j < |w.calls| && j !in w.served ==> w.calls[j].attemptId !in w.psp
  }

  ghost predicate Traffic(w: World) {
    && (forall j {:trigger CallOk(w, j)} :: CallOk(w, j))
    && (forall i, j {:trigger CallsDiffer(w, i, j)} :: CallsDiffer(w, i, j))
    && (forall a {:trigger OutcomeOk(w, a)} :: OutcomeOk(w, a))
    && (forall j {:trigger UnservedOk(w, j)} :: UnservedOk(w, j))
  }

  /** Every step but the making and the serving of a charge call. */
  ghost predicate TrafficSame(w: World, w': World) {
    && w'.calls == w.calls && w'.psp == w.psp && w'.served == w.served
    && w.attempts.Keys <= w'.attempts.Keys
    && (forall a :: a in w.attempts && a in w.origin ==> a in w'.origin && w'.origin[a] == w.origin[a])
    && (forall r :: r in w.requests && w.requests[r].Originator() && !w.requests[r].Claimed? ==>
          r in w'.requests && !w'.requests[r].Claimed?)
  }

  lemma TrafficFrame(w: World, w': World)
    requires Core(w) && Traffic(w) && TrafficSame(w, w')
    ensures Traffic(w')
  {
    forall j ensures CallOk(w', j) {
      assert CallOk(w, j);
      if 0 <= j < |w.calls| { assert RowOk(w, w.calls[j].attemptId); }
    }
    forall i, j ensures CallsDiffer(w', i, j) { assert CallsDiffer(w, i, j); }
    forall a ensures OutcomeOk(w', a) { assert OutcomeOk(w, a); assert RowOk(w, a); }
    forall j ensures UnservedOk(w', j) { assert UnservedOk(w, j); }
  }

  lemma TrafficSend(w: World, rid: Id, w': World)
    requires Core(w) && Traffic(w) && PaySendStep(w, rid, w')
    ensures Traffic(w')
  {
    assert OriginatorOk(w, rid);
    forall j ensures CallOk(w', j) { assert CallOk(w, j); }
    forall i, j ensures CallsDiffer(w', i, j) { assert CallsDiffer(w, i, j); assert CallOk(w, i); }
    forall a ensures OutcomeOk(w', a) { assert OutcomeOk(w, a); }
    forall j ensures UnservedOk(w', j) {
      assert UnservedOk(w, j);
      if rid in w.requests && w.requests[rid].Claimed? { assert OutcomeOk(w, w.requests[rid].attempt.id); }
    }
  }

  lemma TrafficServe(w: World, k: nat, ref: string, w': World)
    requires Traffic(w) && PspServeStep(w, k, ref, w')
    ensures Traffic(w')
  {
    assert CallOk(w, k);
    forall j ensures CallOk(w', j) { assert CallOk(w, j); }
    forall i, j ensures CallsDiffer(w', i, j) { assert CallsDiffer(w, i, j); }
    forall a ensures OutcomeOk(w', a) { assert OutcomeOk(w, a); }
    forall j ensures UnservedOk(w', j) {
      assert UnservedOk(w, j);
      assert CallsDiffer(w, k, j) && CallsDiffer(w, j, k);
    }
  }

  lemma TrafficStep(w: World, s: Step, w': World)
    requires Core(w) && Traffic(w) && Next(w, s, w')
    ensures Traffic(w')
  {
    if s.PaySend? {
      TrafficSend(w, s.rid, w');
    } else if s.PspServe? {
      TrafficServe(w, s.call, s.ref, w');
    } else {
      TrafficSameStep(w, s, w');
      TrafficFrame(w, w');
    }
  }

  lemma TrafficSameClaim(w: World, rid: Id, aid: Id, w': World)
    requires PayClaimStep(w, rid, aid, w')
    ensures TrafficSame(w, w')
  {
  }

  lemma TrafficSamePay(w: World, s: Step, w': World)
    requires Next(w, s, w')
    requires s.PayLookup? || s.PayReply? || s.PayResolve? || s.PayAbort?
    ensures w'.calls == w.calls && w'.psp == w.psp && w'.served == w.served && w'.origin == w.origin
    ensures w.attempts.Keys <= w'.attempts.Keys
    ensures forall r :: r in w.requests && w.requests[r].Originator() && !w.requests[r].Claimed? ==>
              r in w'.requests && !w'.requests[r].Claimed?
  {
  }

  lemma TrafficSameStep(w: World, s: Step, w': World)
    requires Next(w, s, w') && !s.PaySend? && !s.PspServe?
    ensures TrafficSame(w, w')
  {
    if s.PayClaim? {
      TrafficSameClaim(w, s.rid, s.attemptId, w');
    } else if PayStep(s) {
      TrafficSamePay(w, s, w');
    } else if WorkerStep(s) {
      WorkerFootprint(w, s, w');
      CoreSameStep(w, s, w');
    } else {
      InvoiceFootprint(w, s, w');
    }
  }

  // ----- the worker's lists -----

  ghost predicate Known(w: World, s: Snapshot) {
    s.attemptId in w.attempts && w.attempts[s.attemptId].attempt.invoiceId == s.invoiceId
  }

  ghost predicate AllKnown(w: World, rows: seq<Snapshot>) {
    forall j :: 0 <= j < |rows| ==> Known(w, rows[j])
  }

  /** The rows the worker still has to visit are rows of the tables. */
  ghost predicate Lists(w: World) {
    match w.worker
    case Idle(_) => true
    case Reconciling(queue) => AllKnown(w, queue)
    case Polled(head, _, queue) => Known(w, head) && AllKnown(w, queue)
    case Expiring(_, expired) => AllKnown(w, expired)
  }

  /** Attempts are never deleted and keep their identity. */
  ghost predicate AttemptsKept(w: World, w': World) {
    forall a :: a in w.attempts ==> a in w'.attempts && SameIdentity(w.attempts[a], w'.attempts[a])
  }

  lemma AttemptsKeptStep(w: World, s: Step, w': World)
    requires Next(w, s, w')
    ensures AttemptsKept(w, w')
  {
    if s.PayClaim? || s.PayResolve? {
      AttemptsKeptTransaction(w, s, w');
    } else {
      CoreSameStep(w, s, w');
    }
  }

  lemma AttemptsKeptTransaction(w: World, s: Step, w': World)
    requires Next(w, s, w') && (s.PayClaim? || s.PayResolve?)
    ensures AttemptsKept(w, w')
  {
  }

  lemma KnownKept(w: World, rows: seq<Snapshot>, w': World)
    requires AttemptsKept(w, w') && AllKnown(w, rows)
    ensures AllKnown(w', rows)
  {
    forall j | 0 <= j < |rows| ensures Known(w', rows[j]) { assert Known(w, rows[j]); }
  }

  lemma ListsStep(w: World, s: Step, w': World)
    requires Lists(w) && Next(w, s, w')
    ensures Lists(w')
  {
    AttemptsKeptStep(w, s, w');
    if WorkerStep(s) {
      ListsWorker(w, s, w');
    } else {
      if PayStep(s) { PayKeepsWorker(w, s, w'); } else { InvoiceFootprint(w, s, w'); }
      match w.worker
      case Idle(_) =>
      case Reconciling(queue) => KnownKept(w, queue, w');
      case Polled(head, _, queue) => KnownKept(w, queue, w');
      case Expiring(_, expired) => KnownKept(w, expired, w');
    }
  }

  lemma PayKeepsWorker(w: World, s: Step, w': World)
    requires Next(w, s, w') && PayStep(s)
    ensures w'.worker == w.worker && w'.now == w.now && w.invoices.Keys <= w'.invoices.Keys
  {
  }

  /** What a worker step does to the worker's lists: they lose their head or come from a query. */
  lemma ListsWorker(w: World, s: Step, w': World)
    requires Lists(w) && Next(w, s, w') && WorkerStep(s) && AttemptsKept(w, w')
    ensures Lists(w')
  {
    if s.TickSelect? || s.ExpireSelect? { ListsSelect(w, s, w'); } else { ListsLoseHead(w, s, w'); }
  }

  lemma ListsSelect(w: World, s: Step, w': World)
    requires Lists(w) && Next(w, s, w') && (s.TickSelect? || s.ExpireSelect?)
    ensures Lists(w')
  {
  }

  lemma ListsLoseHead(w: World, s: Step, w': World)
    requires Lists(w) && Next(w, s, w') && WorkerStep(s) && AttemptsKept(w, w')
    requires !s.TickSelect? && !s.ExpireSelect?
    ensures Lists(w')
  {
    match w.worker
    case Idle(_) =>
    case Reconciling(queue) => KnownKept(w, queue, w');
    case Polled(head, _, queue) => KnownKept(w, queue, w');
    case Expiring(_, expired) => KnownKept(w, expired, w');
  }
}

/** The guarantees over whole runs: any number of clients, keys and invoices, any
    interleaving of their requests with each other, the worker and the provider. */
module Guarantees {
  import opened Types
  import opened Psp
  import opened Protocol
  import opened Bookkeeping
  import Agreement
  import Resolution
  import Versions
  import Ledger
  import Retries
  import opened Ownership

  // ----- invariants of every run -----

  ghost predicate Sound(w: World) {
    && Core(w) && Traffic(w) && Lists(w)
    && Agreement.Agrees(w) && Agreement.Honest(w)
    && Resolution.NotStranded(w) && Resolution.Covers(w) && Resolution.Collectible(w)
    && Versions.Spent(w) && Versions.Counts(w)
    && Ledger.Accounts(w)
    && Retries.OnTime(w)
  }

  lemma InitSound()
    ensures Sound(Init()) && Owned(Init()) && Guarded(Init())
  {
  }

  lemma BooksStep(w: World, s: Step, w': World)
    requires Sound(w) && Next(w, s, w')
    ensures Core(w') && Traffic(w') && Lists(w') && Agreement.Agrees(w') && Agreement.Honest(w')
  {
    CoreStep(w, s, w');
    TrafficStep(w, s, w');
    ListsStep(w, s, w');
    Agreement.AgreesStep(w, s, w');
    Agreement.HonestStep(w, s, w');
  }

  lemma InvoicesStep(w: World, s: Step, w': World)
    requires Sound(w) && Next(w, s, w')
    ensures Resolution.NotStranded(w') && Resolution.Covers(w') && Resolution.Collectible(w')
    ensures Ledger.Accounts(w')
  {
    Resolution.NotStrandedStep(w, s, w');
    Resolution.CoversStep(w, s, w');
    Resolution.CollectibleStep(w, s, w');
    Ledger.AccountsStep(w, s, w');
  }

  lemma SoundStep(w: World, s: Step, w': World)
    requires Sound(w) && Next(w, s, w')
    ensures Sound(w')
  {
    BooksStep(w, s, w');
    InvoicesStep(w, s, w');
    Versions.SpentStep(w, s, w');
    Versions.CountsStep(w, s, w');
    Retries.OnTimeStep(w, s, w');
  }

  lemma {:induction false} SoundRun(r: Run, n: nat)
    requires r.Valid() && n <= |r.steps|
    ensures Sound(r.worlds[n])
  {
    if n == 0 {
      InitSound();
    } else {
      SoundRun(r, n - 1);
      assert r.StepAt(n - 1);
      SoundStep(r.worlds[n - 1], r.steps[n - 1], r.worlds[n]);
    }
  }

  // ----- ownership -----

  ghost predicate SafeRun(r: Run)
    requires |r.worlds| == |r.steps| + 1
  {
    forall n :: 0 <= n < |r.steps| ==> Safe(r.worlds[n], r.steps[n])
  }

  ghost predicate OwnedRun(r: Run)
    requires |r.worlds| == |r.steps| + 1
  {
    && (forall n :: 0 <= n < |r.worlds| ==> Owned(r.worlds[n]))
    && (forall n :: 0 <= n < |r.steps| ==> Legal(r.worlds[n], r.worlds[n + 1]))
  }

  lemma {:induction false} SafePrefixOwned(r: Run, n: nat)
    requires r.Valid() && n <= |r.steps|
    requires forall k :: 0 <= k < n ==> Safe(r.worlds[k], r.steps[k])
    ensures Owned(r.worlds[n])
    ensures n > 0 ==> Legal(r.worlds[n - 1], r.worlds[n])
  {
    if n == 0 {
      InitSound();
    } else {
      SafePrefixOwned(r, n - 1);
      SoundRun(r, n - 1);
      assert r.StepAt(n - 1);
      StepKeepsOwnershipIffSafe(r.worlds[n - 1], r.steps[n - 1], r.worlds[n]);
    }
  }

  /** A run keeps ownership in all its states and makes only legal moves if and only if
      every final write and every finalize or void in it is safe. */
  lemma OwnershipIffSafe(r: Run)
    requires r.Valid()
    ensures OwnedRun(r) <==> SafeRun(r)
  {
    if SafeRun(r) {
      forall n | 0 <= n < |r.worlds| ensures Owned(r.worlds[n]) { SafePrefixOwned(r, n); }
      forall n | 0 <= n < |r.steps| ensures Legal(r.worlds[n], r.worlds[n + 1]) { SafePrefixOwned(r, n + 1); }
    }
    if OwnedRun(r) {
      forall n | 0 <= n < |r.steps| ensures Safe(r.worlds[n], r.steps[n]) {
        SoundRun(r, n);
        assert r.StepAt(n);
        StepKeepsOwnershipIffSafe(r.worlds[n], r.steps[n], r.worlds[n + 1]);
      }
    }
  }

  /** Single resolution and honest versions, at every step of a run. */
  ghost predicate Disciplined(r: Run)
    requires |r.worlds| == |r.steps| + 1
  {
    forall n :: 0 <= n < |r.steps| ==>
      SingleResolution(r.worlds[n], r.steps[n]) && HonestVersion(r.worlds[n], r.steps[n])
  }

  lemma {:induction false} DisciplinedPrefix(r: Run, n: nat)
    requires r.Valid() && Disciplined(r) && n <= |r.steps|
    ensures Owned(r.worlds[n]) && Guarded(r.worlds[n])
    ensures n < |r.steps| ==> Safe(r.worlds[n], r.steps[n])
  {
    if n == 0 {
      InitSound();
    } else {
      DisciplinedPrefix(r, n - 1);
      SoundRun(r, n - 1);
      assert r.StepAt(n - 1);
      StepKeepsOwnershipIffSafe(r.worlds[n - 1], r.steps[n - 1], r.worlds[n]);
      GuardedStep(r.worlds[n - 1], r.steps[n - 1], r.worlds[n]);
    }
    if n < |r.steps| { HypothesesMakeSafe(r.worlds[n], r.steps[n]); }
  }

  lemma DisciplinedRunsAreSafe(r: Run)
    requires r.Valid() && Disciplined(r)
    ensures SafeRun(r)
  {
    forall n | 0 <= n < |r.steps| ensures Safe(r.worlds[n], r.steps[n]) { DisciplinedPrefix(r, n); }
  }

  function PendingOf(w: World, i: Id): set<Id> {
    set a | a in w.attempts && w.attempts[a].attempt.invoiceId == i && w.attempts[a].attempt.status == Pending
  }

  function SucceededOf(w: World, i: Id): set<Id> {
    set a | a in w.attempts && w.attempts[a].attempt.invoiceId == i && w.attempts[a].attempt.status == Succeeded
  }

  lemma AtMostOne(s: set<Id>)
    requires forall a, b :: a in s && b in s ==> a == b
    ensures |s| <= 1
    ensures s != {} ==> |s| == 1
  {
    if s != {} {
      var a :| a in s;
      assert s == {a};
    }
  }

  /** At most one attempt of an invoice is pending and at most one ever succeeds, and the
      invoice's state says which. */
  lemma AtMostOneSuccess(r: Run, n: nat, i: Id)
    requires r.Valid() && SafeRun(r) && n <= |r.steps| && i in r.worlds[n].invoices
    ensures var w := r.worlds[n];
            && |PendingOf(w, i)| + |SucceededOf(w, i)| <= 1
            && (w.invoices[i].state == Processing <==> |PendingOf(w, i)| == 1)
            && (w.invoices[i].state == Paid <==> |SucceededOf(w, i)| == 1)
  {
    SafePrefixOwned(r, n);
    SoundRun(r, n);
    var w := r.worlds[n];
    OwnedCounts(w, i);
  }

  lemma OwnedCounts(w: World, i: Id)
    requires Owned(w) && Resolution.NotStranded(w) && i in w.invoices
    ensures |PendingOf(w, i)| + |SucceededOf(w, i)| <= 1
    ensures w.invoices[i].state == Processing <==> |PendingOf(w, i)| == 1
    ensures w.invoices[i].state == Paid <==> |SucceededOf(w, i)| == 1
  {
    var p, s := PendingOf(w, i), SucceededOf(w, i);
    forall a, b | a in p && b in p ensures a == b { assert AloneOk(w, a, b); }
    forall a, b | a in s && b in s ensures a == b { assert AloneOk(w, a, b); }
    AtMostOne(p);
    AtMostOne(s);
    if p != {} {
      var a :| a in p;
      assert HoldsOk(w, a);
    }
    if s != {} {
      var a :| a in s;
      assert HoldsOk(w, a);
    }
    assert Resolution.HeldOk(w, i) && PaidOk(w, i);
    if w.invoices[i].state == Processing { assert w.lastClaim[i] in p; }
    if w.invoices[i].state == Paid {
      var a :| PaidBy(w, i, a);
      assert a in s;
    }
  }

  /** Void and Paid are terminal. */
  lemma {:induction false} TerminalStates(r: Run, m: nat, n: nat, i: Id)
    requires r.Valid() && SafeRun(r) && m <= n <= |r.steps|
    requires i in r.worlds[m].invoices && r.worlds[m].invoices[i].state in {Paid, Void}
    ensures i in r.worlds[n].invoices && r.worlds[n].invoices[i].state == r.worlds[m].invoices[i].state
    decreases n
  {
    if m < n {
      TerminalStates(r, m, n - 1, i);
      SafePrefixOwned(r, n);
    }
  }

  /** Uncollectible is never reached, whatever the run. */
  lemma NeverUncollectible(r: Run, n: nat, i: Id)
    requires r.Valid() && n <= |r.steps| && i in r.worlds[n].invoices
    ensures r.worlds[n].invoices[i].state != Uncollectible
  {
    SoundRun(r, n);
    assert Resolution.CollectibleOk(r.worlds[n], i);
  }

  // ----- charges -----

  function ChargedFor(w: World, i: Id): set<Id> {
    set a | a in w.psp && w.psp[a].status == OutcomeSucceeded
            && a in w.attempts && w.attempts[a].attempt.invoiceId == i
  }

  predicate Expired(at: PaymentAttempt) { at.failureCode == Some(ReconciliationTimeout) }

  /** Final statuses tell the provider's outcome in every run: a failure that is not the
      worker's own expiry is a stored failure, a success is a stored success with the same
      reference; and every stored outcome belongs to an attempt. */
  lemma StatusesMatchOutcomes(r: Run, n: nat, a: Id)
    requires r.Valid() && n <= |r.steps|
    ensures var w := r.worlds[n];
            && (a in w.psp ==> a in w.attempts)
            && (a in w.attempts && w.attempts[a].attempt.status == Succeeded ==>
                  && a in w.psp && w.psp[a].status == OutcomeSucceeded && w.psp[a].pspRef.Some?
                  && w.attempts[a].attempt.pspReference == w.psp[a].pspRef)
            && (a in w.attempts && w.attempts[a].attempt.status == Failed && !Expired(w.attempts[a].attempt) ==>
                  a in w.psp && w.psp[a].status == OutcomeFailed
                  && w.attempts[a].attempt.failureCode == w.psp[a].code)
  {
    SoundRun(r, n);
    var w := r.worlds[n];
    assert OutcomeOk(w, a) && RowOk(w, a) && Agreement.AttemptTrue(w, a);
  }

  /** What a client is told in any run, first or in a replay, is true of the provider: a
      success is a stored success with the same reference, a failure a stored failure with
      the same code, never the worker's own expiry. */
  lemma AnswersAreTrue(r: Run, n: nat, rid: Id)
    requires r.Valid() && n <= |r.steps|
    requires rid in r.worlds[n].requests && Agreement.HasAnswer(r.worlds[n].requests[rid])
    ensures var w, at := r.worlds[n], r.worlds[n].requests[rid].response;
            && (at.status == Succeeded ==>
                  && at.id in w.psp && w.psp[at.id].status == OutcomeSucceeded
                  && at.pspReference.Some? && at.pspReference == w.psp[at.id].pspRef)
            && (at.status == Failed ==>
                  && !Expired(at) && at.id in w.psp && w.psp[at.id].status == OutcomeFailed
                  && at.failureCode == w.psp[at.id].code)
  {
    SoundRun(r, n);
    assert Agreement.AnswerTrue(r.worlds[n], rid);
  }

  /** A charge that nobody saw: the attempt expired, yet the provider stores its success. */
  predicate Unseen(w: World, a: Id) {
    && a in w.attempts && w.attempts[a].attempt.status == Failed && Expired(w.attempts[a].attempt)
    && a in w.psp && w.psp[a].status == OutcomeSucceeded
  }

  function UnseenFor(w: World, i: Id): set<Id> {
    set a | a in ChargedFor(w, i) && Unseen(w, a)
  }

  /** Two different charges of one invoice: one of them was not seen. */
  lemma SeenChargeIsAlone(r: Run, n: nat, i: Id, a: Id, b: Id)
    requires r.Valid() && SafeRun(r) && n <= |r.steps|
    requires a in ChargedFor(r.worlds[n], i) - UnseenFor(r.worlds[n], i)
    requires b in ChargedFor(r.worlds[n], i) - UnseenFor(r.worlds[n], i)
    ensures a == b
  {
    SafePrefixOwned(r, n);
    StatusesMatchOutcomes(r, n, a);
    StatusesMatchOutcomes(r, n, b);
    assert AloneOk(r.worlds[n], a, b);
  }

  /** The customer of an invoice is charged once for every expired attempt whose success
      nobody saw, and at most once more. So a customer for whom the provider knows no such
      attempt is charged at most once, and at most one charge there is if and only if no
      unseen one stands beside another. */
  lemma ChargedAtMostOnce(r: Run, n: nat, i: Id)
    requires r.Valid() && SafeRun(r) && n <= |r.steps|
    ensures var w := r.worlds[n];
            && |UnseenFor(w, i)| <= |ChargedFor(w, i)| <= |UnseenFor(w, i)| + 1
            && (|ChargedFor(w, i)| <= 1 <==>
                  forall a, b :: a in UnseenFor(w, i) && b in ChargedFor(w, i) ==> a == b)
  {
    var w := r.worlds[n];
    var charged, unseen := ChargedFor(w, i), UnseenFor(w, i);
    forall a, b | a in charged - unseen && b in charged - unseen ensures a == b {
      SeenChargeIsAlone(r, n, i, a, b);
    }
    CountCharges(charged, unseen);
  }

  lemma CountCharges(charged: set<Id>, unseen: set<Id>)
    requires unseen <= charged
    requires forall a, b :: a in charged - unseen && b in charged - unseen ==> a == b
    ensures |unseen| <= |charged| <= |unseen| + 1
    ensures |charged| <= 1 <==> forall a, b :: a in unseen && b in charged ==> a == b
  {
    AtMostOne(charged - unseen);
    assert |charged| == |unseen| + |charged - unseen| by { assert charged == unseen + (charged - unseen); }
    if |charged| <= 1 {
      forall a, b | a in unseen && b in charged ensures a == b { NoTwo(charged, a, b); }
    } else {
      var a :| a in unseen;
      var b := OtherElement(charged, a);
      assert a in unseen && b in charged && a != b;
    }
  }

  lemma NoTwo(s: set<Id>, a: Id, b: Id)
    requires |s| <= 1 && a in s && b in s
    ensures a == b
  {
    if a != b { assert |{a, b}| == 2 && {a, b} <= s; Subset({a, b}, s); }
  }

  lemma Subset(s: set<Id>, t: set<Id>)
    requires s <= t
    ensures |s| <= |t|
  {
    assert t == s + (t - s);
  }

  lemma OtherElement(s: set<Id>, a: Id) returns (b: Id)
    requires |s| > 1
    ensures b in s && b != a
  {
    if s - {a} == {} { Subset(s, {a}); assert false; }
    b :| b in s - {a};
  }
}

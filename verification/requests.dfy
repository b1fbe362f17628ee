/** What each request comes to, stated from the request to its end over whole runs: which
    edit an edit applies, where a void and a finalize leave the invoice, and which error a
    refusal is. */
module Requests {
  import opened Types
  import opened Protocol
  import opened Bookkeeping
  import Ledger
  import Money

  predicate Ended(o: OpState) { o.OpDone? || o.OpFailed? }

  /** An operation keeps what it was given until it ends, and an end is final. */
  lemma OpStays(w: World, s: Step, w': World, op: Id)
    requires Next(w, s, w') && op in w.ops
    ensures op in w'.ops
    ensures w'.ops[op] == w.ops[op] || (!Ended(w.ops[op]) && Ended(w'.ops[op]))
  {
    if PayStep(s) { Ledger.BillsPay(w, s, w'); }
    else if WorkerStep(s) { WorkerFootprint(w, s, w'); }
    else { OpStaysInvoice(w, s, w', op); }
  }

  lemma OpStaysInvoice(w: World, s: Step, w': World, op: Id)
    requires Next(w, s, w') && op in w.ops && !PayStep(s) && !WorkerStep(s)
    ensures op in w'.ops
    ensures w'.ops[op] == w.ops[op] || (!Ended(w.ops[op]) && Ended(w'.ops[op]))
  {
  }

  lemma {:induction false} OpStaysRun(r: Run, m: nat, n: nat, op: Id)
    requires r.Valid() && m <= n <= |r.steps| && op in r.worlds[m].ops
    ensures op in r.worlds[n].ops
    ensures r.worlds[n].ops[op] == r.worlds[m].ops[op] || (!Ended(r.worlds[m].ops[op]) && Ended(r.worlds[n].ops[op]))
    decreases n
  {
    if m < n {
      OpStaysRun(r, m, n - 1, op);
      assert r.StepAt(n - 1);
      OpStays(r.worlds[n - 1], r.steps[n - 1], r.worlds[n], op);
    }
  }

  /** Step n is the one that ends operation `op` well. */
  ghost predicate Finishes(r: Run, n: nat, op: Id) {
    && r.Valid() && n < |r.steps|
    && op in r.worlds[n].ops && r.worlds[n].ops[op] != OpDone
    && op in r.worlds[n + 1].ops && r.worlds[n + 1].ops[op] == OpDone
  }

  /** What a step put into a fresh operation is still there when the operation finishes. */
  lemma HeldUntilFinish(r: Run, m: nat, n: nat, op: Id)
    requires Finishes(r, n, op) && m <= n && op in r.worlds[m].ops
    ensures r.worlds[n].ops[op] == r.worlds[m].ops[op] && !Ended(r.worlds[m].ops[op])
  {
    OpStaysRun(r, m, n, op);
    OpStaysRun(r, n, n + 1, op);
  }

  /** Invoice i is like p, and every other invoice is as it was. */
  ghost predicate OnlyChanges(w: World, i: Id, p: Invoice, w': World) {
    && w'.invoices.Keys == w.invoices.Keys && i in w.invoices
    && w'.invoices[i] == p
    && (forall j :: j in w.invoices && j != i ==> w'.invoices[j] == w.invoices[j])
  }

  // ----- void and finalize -----

  lemma VoidSelected(w: World, op: Id, i: Id, b: Id, v: int, w': World)
    requires Next(w, VoidSelect(op, i, b, v), w') && op !in w.ops
    ensures w'.invoices == w.invoices && op in w'.ops
    ensures w'.ops[op] == VoidReady(i, b, v) <==>
              i in w.invoices && w.invoices[i].businessId == b && w.invoices[i].versioning == v
              && w.invoices[i].state == Draft
    ensures w'.ops[op] == OpFailed(NotFound) <==>
              !(i in w.invoices && w.invoices[i].businessId == b && w.invoices[i].versioning == v)
    ensures w'.ops[op].VoidReady? || w'.ops[op] == OpFailed(NotFound) || w'.ops[op] == OpFailed(InvalidStateTransition)
  {
  }

  lemma FinalizeSelected(w: World, op: Id, i: Id, b: Id, v: int, w': World)
    requires Next(w, FinalizeSelect(op, i, b, v), w') && op !in w.ops
    ensures w'.invoices == w.invoices && op in w'.ops
    ensures w'.ops[op] == FinalizeReady(i, b, v) <==>
              i in w.invoices && w.invoices[i].businessId == b && w.invoices[i].state == Draft
    ensures w'.ops[op] == OpFailed(DatabaseError) <==> !(i in w.invoices && w.invoices[i].businessId == b)
    ensures w'.ops[op].FinalizeReady? || w'.ops[op] == OpFailed(DatabaseError)
            || w'.ops[op] == OpFailed(InvalidStateTransition)
  {
  }

  /** The UPDATE goes through exactly on the presented version of the owner's invoice. */
  lemma Updated(w: World, op: Id, i: Id, b: Id, v: int, target: InvoiceState, w': World)
    requires Next(w, OpUpdate(op), w') && op in w.ops
    requires w.ops[op] == if target == Void then VoidReady(i, b, v) else FinalizeReady(i, b, v)
    requires target == Void || target == Open
    ensures op in w'.ops
    ensures w'.ops[op] == OpDone <==>
              i in w.invoices && w.invoices[i].businessId == b && w.invoices[i].versioning == v < 2147483647
    ensures w'.ops[op] == OpDone ==> OnlyChanges(w, i, w.invoices[i].(state := target, versioning := v + 1), w')
    ensures w'.ops[op] != OpDone ==> w'.invoices == w.invoices
    ensures w'.ops[op] == OpFailed(Conflict) <==>
              !(i in w.invoices && w.invoices[i].businessId == b && w.invoices[i].versioning == v)
    ensures w'.ops[op] == OpDone || w'.ops[op] == OpFailed(Conflict) || w'.ops[op] == OpFailed(DatabaseError)
  {
  }

  /** A void that succeeds was asked for a draft of its owner at the presented version, and
      leaves that invoice Void at the next version, whatever happened in between. */
  lemma VoidEndsVoid(r: Run, m: nat, n: nat, op: Id, i: Id, b: Id, v: int)
    requires Finishes(r, n, op) && m < n && r.steps[n] == OpUpdate(op)
    requires r.steps[m] == VoidSelect(op, i, b, v) && op !in r.worlds[m].ops
    ensures i in r.worlds[m].invoices && r.worlds[m].invoices[i].state == Draft
    ensures r.worlds[m].invoices[i].businessId == b && r.worlds[m].invoices[i].versioning == v
    ensures i in r.worlds[n].invoices
    ensures OnlyChanges(r.worlds[n], i, r.worlds[n].invoices[i].(state := Void, versioning := v + 1), r.worlds[n + 1])
  {
    assert r.StepAt(m) && r.StepAt(n);
    VoidSelected(r.worlds[m], op, i, b, v, r.worlds[m + 1]);
    HeldUntilFinish(r, m + 1, n, op);
    Updated(r.worlds[n], op, i, b, v, Void, r.worlds[n + 1]);
  }

  /** A finalize that succeeds was asked for a draft of its owner, and leaves that invoice
      Open at the version after the presented one. */
  lemma FinalizeEndsOpen(r: Run, m: nat, n: nat, op: Id, i: Id, b: Id, v: int)
    requires Finishes(r, n, op) && m < n && r.steps[n] == OpUpdate(op)
    requires r.steps[m] == FinalizeSelect(op, i, b, v) && op !in r.worlds[m].ops
    ensures i in r.worlds[m].invoices && r.worlds[m].invoices[i].state == Draft
    ensures r.worlds[m].invoices[i].businessId == b
    ensures i in r.worlds[n].invoices && r.worlds[n].invoices[i].versioning == v
    ensures OnlyChanges(r.worlds[n], i, r.worlds[n].invoices[i].(state := Open, versioning := v + 1), r.worlds[n + 1])
  {
    assert r.StepAt(m) && r.StepAt(n);
    FinalizeSelected(r.worlds[m], op, i, b, v, r.worlds[m + 1]);
    HeldUntilFinish(r, m + 1, n, op);
    Updated(r.worlds[n], op, i, b, v, Open, r.worlds[n + 1]);
  }

  /** Without interference a void succeeds exactly on a draft of its owner at the presented
      version below the top of the range, and makes it Void. */
  lemma VoidAlone(w: World, op: Id, i: Id, b: Id, v: int, w1: World, w2: World)
    requires Next(w, VoidSelect(op, i, b, v), w1) && Next(w1, OpUpdate(op), w2) && op !in w.ops
    ensures op in w2.ops
    ensures w2.ops[op] == OpDone <==>
              i in w.invoices && w.invoices[i].businessId == b && w.invoices[i].state == Draft
              && w.invoices[i].versioning == v < 2147483647
    ensures w2.ops[op] == OpDone ==> OnlyChanges(w, i, w.invoices[i].(state := Void, versioning := v + 1), w2)
    ensures w2.ops[op] != OpDone ==> w2.invoices == w.invoices
  {
    VoidSelected(w, op, i, b, v, w1);
    OpStays(w1, OpUpdate(op), w2, op);
    if w1.ops[op].VoidReady? { Updated(w1, op, i, b, v, Void, w2); } else { EndedOpDoesNothing(w1, op, w2); }
  }

  /** The same for finalize and Open. */
  lemma FinalizeAlone(w: World, op: Id, i: Id, b: Id, v: int, w1: World, w2: World)
    requires Next(w, FinalizeSelect(op, i, b, v), w1) && Next(w1, OpUpdate(op), w2) && op !in w.ops
    ensures op in w2.ops
    ensures w2.ops[op] == OpDone <==>
              i in w.invoices && w.invoices[i].businessId == b && w.invoices[i].state == Draft
              && w.invoices[i].versioning == v < 2147483647
    ensures w2.ops[op] == OpDone ==> OnlyChanges(w, i, w.invoices[i].(state := Open, versioning := v + 1), w2)
    ensures w2.ops[op] != OpDone ==> w2.invoices == w.invoices
  {
    FinalizeSelected(w, op, i, b, v, w1);
    OpStays(w1, OpUpdate(op), w2, op);
    if w1.ops[op].FinalizeReady? { Updated(w1, op, i, b, v, Open, w2); } else { EndedOpDoesNothing(w1, op, w2); }
  }

  lemma EndedOpDoesNothing(w: World, op: Id, w': World)
    requires Next(w, OpUpdate(op), w') && op in w.ops && Ended(w.ops[op])
    ensures w'.invoices == w.invoices
  {
  }

  // ----- edit -----

  predicate PositiveItems(items: seq<LineItem>) {
    forall j :: 0 <= j < |items| ==> items[j].quantity > 0 && items[j].unitAmountCents > 0
  }

  /** The version check of an edit: when it commits, what it hands on, and how it refuses. */
  lemma EditBegun(w: World, op: Id, i: Id, b: Id, e: EditRequest, w': World)
    requires Next(w, EditCas(op, i, b, e), w') && op !in w.ops
    ensures op in w'.ops
    ensures w'.ops[op] == EditReady(i, b, e) <==>
              && (e.lineItems.Some? ==> e.lineItems.value != [] && PositiveItems(e.lineItems.value))
              && i in w.invoices && w.invoices[i].state == Draft
              && w.invoices[i].versioning == e.versioning < 2147483647
    ensures w'.ops[op].EditReady? ==>
              w'.ops[op] == EditReady(i, b, e)
              && OnlyChanges(w, i, w.invoices[i].(versioning := e.versioning + 1), w')
    ensures !w'.ops[op].EditReady? ==> w'.invoices == w.invoices
    ensures w'.ops[op] == OpFailed(BadRequest) <==>
              e.lineItems.Some? && (e.lineItems.value == [] || !PositiveItems(e.lineItems.value))
    ensures w'.ops[op] == OpFailed(Conflict) <==>
              && (e.lineItems.Some? ==> e.lineItems.value != [] && PositiveItems(e.lineItems.value))
              && !(i in w.invoices && w.invoices[i].state == Draft && w.invoices[i].versioning == e.versioning)
    ensures w'.ops[op].EditReady? || w'.ops[op] == OpFailed(BadRequest)
            || w'.ops[op] == OpFailed(Conflict) || w'.ops[op] == OpFailed(DatabaseError)
  {
  }

  /** The invoice p with what the edit gives and all else kept. */
  ghost predicate Edited(p: Invoice, e: EditRequest, q: Invoice) {
    && q.businessId == p.businessId && q.state == p.state && q.versioning == p.versioning
    && (if e.dueDate.Some? then q.dueDate == e.dueDate.value else q.dueDate == p.dueDate)
    && (if e.lineItems.Some? then
          && q.lineItems == e.lineItems.value
          && (Money.Sum(q.lineItems) <= 9223372036854775807 ==> q.totalCents == Money.Sum(q.lineItems))
        else q.lineItems == p.lineItems && q.totalCents == p.totalCents)
  }

  /** The edit transaction: it goes through exactly for a draft of the owner, a date that is
      not past and a positive machine total. */
  lemma EditApplied(w: World, op: Id, i: Id, b: Id, e: EditRequest, today: int, w': World)
    requires Next(w, EditApply(op, today), w') && op in w.ops && w.ops[op] == EditReady(i, b, e)
    requires e.lineItems.Some? ==> PositiveItems(e.lineItems.value)
    ensures op in w'.ops
    ensures w'.ops[op] == OpDone <==>
              && i in w.invoices && w.invoices[i].businessId == b && w.invoices[i].state == Draft
              && (e.dueDate.Some? ==> e.dueDate.value >= today)
              && (e.lineItems.Some? ==> Money.MachineTotal(e.lineItems.value) > 0)
    ensures w'.ops[op] == OpDone ==>
              i in w'.invoices && Edited(w.invoices[i], e, w'.invoices[i]) && OnlyChanges(w, i, w'.invoices[i], w')
    ensures w'.ops[op] != OpDone ==> w'.invoices == w.invoices
    ensures w'.ops[op] == OpFailed(NotFound) <==> !(i in w.invoices && w.invoices[i].businessId == b)
    ensures w'.ops[op] == OpFailed(InvalidStateTransition) <==>
              i in w.invoices && w.invoices[i].businessId == b && w.invoices[i].state != Draft
    ensures w'.ops[op] == OpDone || (w'.ops[op].OpFailed? && w'.ops[op].error in {NotFound, InvalidStateTransition, BadRequest})
  {
    if e.lineItems.Some? { Money.TotalExactIffFits(e.lineItems.value); }
  }

  /** An edit that is under way applies the edit that its client sent, to the invoice that it
      named, and the transaction goes through exactly as above, whatever happened since. */
  lemma EditEnds(r: Run, m: nat, n: nat, op: Id, i: Id, b: Id, e: EditRequest, today: int)
    requires r.Valid() && m < n < |r.steps|
    requires r.steps[m] == EditCas(op, i, b, e) && op !in r.worlds[m].ops
    requires r.steps[n] == EditApply(op, today) && op in r.worlds[n].ops && !Ended(r.worlds[n].ops[op])
    ensures var w, w' := r.worlds[n], r.worlds[n + 1];
            && op in w'.ops
            && (w'.ops[op] == OpDone <==>
                  && i in w.invoices && w.invoices[i].businessId == b && w.invoices[i].state == Draft
                  && (e.dueDate.Some? ==> e.dueDate.value >= today)
                  && (e.lineItems.Some? ==> Money.MachineTotal(e.lineItems.value) > 0))
            && (w'.ops[op] == OpDone ==>
                  && i in w'.invoices && Edited(w.invoices[i], e, w'.invoices[i])
                  && OnlyChanges(w, i, w'.invoices[i], w'))
            && (w'.ops[op] != OpDone ==> w'.invoices == w.invoices)
  {
    assert r.StepAt(m) && r.StepAt(n);
    EditBegun(r.worlds[m], op, i, b, e, r.worlds[m + 1]);
    OpStaysRun(r, m + 1, n, op);
    EditApplied(r.worlds[n], op, i, b, e, today, r.worlds[n + 1]);
  }

  // ----- create -----

  /** Which error a refused create is. */
  lemma CreateRefused(w: World, s: Step, w': World)
    requires Next(w, s, w') && s.Create? && s.op !in w.ops
    ensures s.op in w'.ops
    ensures w'.ops[s.op] == OpFailed(NotFound) <==> !s.customerKnown
    ensures w'.ops[s.op] == OpFailed(DatabaseError) <==>
              s.customerKnown && Money.MachineTotal(s.items) > 0 && s.dueDate >= s.today && s.invoiceId in w.invoices
    ensures w'.ops[s.op] == OpDone
            || (w'.ops[s.op].OpFailed? && w'.ops[s.op].error in {NotFound, BadRequest, DatabaseError})
  {
  }
}

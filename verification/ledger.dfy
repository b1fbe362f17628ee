/** What invoices hold: totals stay equal to their line items, and nothing that was billed
    changes once an invoice has left Draft. */
module Ledger {
  import opened Types
  import opened Protocol
  import opened Bookkeeping
  import Money

  /** Items are positive, there is at least one, and the stored total is their fold. */
  ghost predicate Balanced(inv: Invoice) {
    && inv.lineItems != []
    && Money.AllPositive(inv.lineItems)
    && inv.totalCents == Money.MachineTotal(inv.lineItems)
    && inv.totalCents > 0
  }

  ghost predicate InvoiceOk(w: World, i: Id) { i in w.invoices ==> Balanced(w.invoices[i]) }

  ghost predicate EditOk(w: World, op: Id) {
    op in w.ops && w.ops[op].EditReady? ==> ItemsAcceptable(w.ops[op].edit)
  }

  ghost predicate Accounts(w: World) {
    && (forall i {:trigger InvoiceOk(w, i)} :: InvoiceOk(w, i))
    && (forall op {:trigger EditOk(w, op)} :: EditOk(w, op))
  }

  /** Money fields of existing invoices stay, and no invoice appears. */
  ghost predicate SameBill(p: Invoice, q: Invoice) {
    q.lineItems == p.lineItems && q.totalCents == p.totalCents && q.dueDate == p.dueDate
  }

  ghost predicate BillsSame(w: World, w': World) {
    && w'.invoices.Keys == w.invoices.Keys
    && (forall i :: i in w.invoices ==>
          && SameBill(w.invoices[i], w'.invoices[i])
          && (w.invoices[i].state != Draft ==> w'.invoices[i].state != Draft))
  }

  lemma BillsPay(w: World, s: Step, w': World)
    requires Next(w, s, w') && PayStep(s)
    ensures BillsSame(w, w') && w'.ops == w.ops
  {
    if s.PayClaim? || s.PayResolve? { BillsTransaction(w, s, w'); }
    else { BillsOther(w, s, w'); }
  }

  lemma BillsTransaction(w: World, s: Step, w': World)
    requires Next(w, s, w') && (s.PayClaim? || s.PayResolve?)
    ensures BillsSame(w, w') && w'.ops == w.ops
  {
  }

  lemma BillsOther(w: World, s: Step, w': World)
    requires Next(w, s, w') && PayStep(s) && !s.PayClaim? && !s.PayResolve?
    ensures BillsSame(w, w') && w'.ops == w.ops
  {
  }

  lemma BillsWorker(w: World, s: Step, w': World)
    requires Next(w, s, w') && WorkerStep(s)
    ensures BillsSame(w, w') && w'.ops == w.ops
  {
    WorkerFootprint(w, s, w');
    if s.TickWrite? || s.ExpireWrite? { BillsWrite(w, s, w'); }
  }

  lemma BillsWrite(w: World, s: Step, w': World)
    requires Next(w, s, w') && (s.TickWrite? || s.ExpireWrite?)
    ensures BillsSame(w, w')
  {
  }

  lemma AccountsFrame(w: World, w': World)
    requires Accounts(w) && BillsSame(w, w') && w'.ops == w.ops
    ensures Accounts(w')
  {
    forall i ensures InvoiceOk(w', i) { assert InvoiceOk(w, i); }
    forall op ensures EditOk(w', op) { assert EditOk(w, op); }
  }

  lemma AccountsCreate(w: World, s: Step, w': World)
    requires Accounts(w) && Next(w, s, w') && s.Create?
    ensures Accounts(w')
  {
    forall i ensures InvoiceOk(w', i) { assert InvoiceOk(w, i); }
    forall op ensures EditOk(w', op) { assert EditOk(w, op); }
  }

  lemma AccountsEdit(w: World, s: Step, w': World)
    requires Accounts(w) && Next(w, s, w') && (s.EditCas? || s.EditApply?)
    ensures Accounts(w')
  {
    if s.EditApply? { assert EditOk(w, s.op); }
    forall i ensures InvoiceOk(w', i) { assert InvoiceOk(w, i); }
    forall op ensures EditOk(w', op) { assert EditOk(w, op); }
  }

  lemma AccountsOther(w: World, s: Step, w': World)
    requires Accounts(w) && Next(w, s, w') && !PayStep(s) && !WorkerStep(s)
    requires !s.Create? && !s.EditCas? && !s.EditApply?
    ensures Accounts(w')
  {
    forall i ensures InvoiceOk(w', i) { assert InvoiceOk(w, i); }
    forall op ensures EditOk(w', op) { assert EditOk(w, op); }
  }

  lemma AccountsStep(w: World, s: Step, w': World)
    requires Accounts(w) && Next(w, s, w')
    ensures Accounts(w')
  {
    if PayStep(s) {
      BillsPay(w, s, w');
      AccountsFrame(w, w');
    } else if WorkerStep(s) {
      BillsWorker(w, s, w');
      AccountsFrame(w, w');
    } else if s.Create? {
      AccountsCreate(w, s, w');
    } else if s.EditCas? || s.EditApply? {
      AccountsEdit(w, s, w');
    } else {
      AccountsOther(w, s, w');
    }
  }

  /** Invoices out of Draft keep their bill and never return to Draft. */
  ghost predicate Frozen(w: World, w': World) {
    forall i :: i in w.invoices && w.invoices[i].state != Draft ==>
      && i in w'.invoices
      && w'.invoices[i].state != Draft
      && SameBill(w.invoices[i], w'.invoices[i])
  }

  lemma FrozenInvoice(w: World, s: Step, w': World)
    requires Next(w, s, w') && !PayStep(s) && !WorkerStep(s)
    ensures Frozen(w, w')
  {
  }

  lemma FrozenStep(w: World, s: Step, w': World)
    requires Next(w, s, w')
    ensures Frozen(w, w')
  {
    if PayStep(s) { BillsPay(w, s, w'); }
    else if WorkerStep(s) { BillsWorker(w, s, w'); }
    else { FrozenInvoice(w, s, w'); }
  }

  // ----- what create and edit store -----

  /** A create that is refused, for whatever reason, adds no invoice. One that succeeds adds
      a draft with the requested items and date at version 1 whose total is the amount of
      those items, provided the amount fits, and changes no other invoice. */
  lemma CreateStoresOrLeavesNothing(w: World, s: Step, w': World)
    requires Next(w, s, w') && s.Create? && s.op !in w.ops
    ensures s.op in w'.ops
    ensures w'.ops[s.op].OpFailed? ==> w'.invoices == w.invoices
    ensures w'.ops[s.op].OpDone? <==>
              s.customerKnown && Money.MachineTotal(s.items) > 0 && s.dueDate >= s.today
              && s.invoiceId !in w.invoices && Money.AllPositive(s.items)
    ensures w'.ops[s.op].OpDone? ==>
              && w'.invoices.Keys == w.invoices.Keys + {s.invoiceId}
              && (forall i :: i in w.invoices ==> w'.invoices[i] == w.invoices[i])
              && var inv := w'.invoices[s.invoiceId];
                 && inv.businessId == s.businessId && inv.state == Draft && inv.versioning == 1
                 && inv.lineItems == s.items && inv.dueDate == s.dueDate
                 && (inv.totalCents == Money.Sum(s.items) <==> Money.Sum(s.items) <= MAX_I64)
  {
    if Money.AllPositive(s.items) { Money.TotalExactIffFits(s.items); }
  }

  /** An edit transaction that goes through stores what the request gives, keeps what it does
      not mention, and leaves state, version and owner alone; one that is refused, even after
      its date was written, changes nothing. */
  lemma EditStoresOrLeavesNothing(w: World, s: Step, w': World)
    requires Accounts(w) && Next(w, s, w') && s.EditApply? && s.op in w.ops && w.ops[s.op].EditReady?
    ensures s.op in w'.ops
    ensures w'.ops[s.op].OpFailed? ==> w'.invoices == w.invoices
    ensures w'.ops[s.op].OpDone? ==>
              var i, edit := w.ops[s.op].invoiceId, w.ops[s.op].edit;
              && i in w.invoices && w.invoices[i].state == Draft
              && w'.invoices.Keys == w.invoices.Keys
              && (forall j :: j in w.invoices && j != i ==> w'.invoices[j] == w.invoices[j])
              && var p, q := w.invoices[i], w'.invoices[i];
                 && q.state == p.state && q.versioning == p.versioning && q.businessId == p.businessId
                 && q.dueDate == (if edit.dueDate.Some? then edit.dueDate.value else p.dueDate)
                 && (edit.lineItems.None? ==> q.lineItems == p.lineItems && q.totalCents == p.totalCents)
                 && (edit.lineItems.Some? ==>
                       && q.lineItems == edit.lineItems.value
                       && (q.totalCents == Money.Sum(q.lineItems) <==> Money.Sum(q.lineItems) <= MAX_I64))
  {
    assert EditOk(w, s.op);
    if w.ops[s.op].edit.lineItems.Some? { Money.TotalExactIffFits(w.ops[s.op].edit.lineItems.value); }
  }
}

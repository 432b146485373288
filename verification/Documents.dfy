/** The accounts office as the code works it: tables that grow and rows that change in place
    (backend/internal/billing: invoices.go, expenses.go, ar_ap.go, and postJournal and reverseJournal of
    journal.go). Each method either does what the operation of the same name in Receivables does, or
    fails with its error and changes nothing.
 */
module Documents {
  import opened Wrappers
  import J = Journal
  import opened Receivables

  /** An operation that succeeds leaves its result; one that fails reports why and leaves the state before it. */
  ghost predicate Did(before: Books, attempt: Result<Books, Error>, after: Books, error: Option<Error>) {
    match attempt
    case Ok(b) => error.None? && after == b
    case Err(e) => error == Some(e) && after == before
  }

  class Office {
    var invoices: seq<Invoice>
    var expenses: seq<Expense>
    var entries: seq<seq<J.Line>>

    ghost function View(): Books
      reads this
    {
      Books(invoices, expenses, entries)
    }

    constructor ()
      ensures View() == EMPTY
    {
      invoices, expenses, entries := [], [], [];
    }

    /** postJournal: the entry is the next one in the journal. */
    method PostJournal(lines: seq<J.Line>) returns (id: nat)
      requires J.Balanced(lines)
      modifies this`entries
      ensures id == |old(entries)| && entries == old(entries) + [lines]
    {
      var valid := J.ValidateBalanced(lines);
      id := |entries|;
      entries := entries + [lines];
    }

    /** reverseJournal: a new entry with every line's sides swapped. */
    method ReverseJournal(original: nat) returns (ok: bool)
      modifies this`entries
      ensures ok <==> original < |old(entries)| && old(entries)[original] != []
      ensures entries == if ok then old(entries) + [J.SwapSides(old(entries)[original])] else old(entries)
    {
      if original >= |entries| || entries[original] == [] {
        return false;
      }
      var lines := entries[original];
      var swapped: seq<J.Line> := [];
      for i := 0 to |lines|
        invariant swapped == J.SwapSides(lines[..i])
      {
        var l := lines[i];
        swapped := swapped + [J.Line(l.account, l.credit, l.debit, l.manager, l.subscriber)];
      }
      assert lines[..|lines|] == lines;
      entries := entries + [swapped];
      return true;
    }

    method CreateInvoice(subscriber: string, mode: Mode, items: seq<Item>, tax: int, due: int) returns (error: Option<Error>)
      modifies this
      ensures Did(old(View()), Receivables.CreateInvoice(old(View()), subscriber, mode, items, tax, due), View(), error)
    {
      if mode == OtherMode {
        return Some(InvalidMode);
      }
      var subtotal, accepted := 0, true;
      for i := 0 to |items|
        invariant subtotal == Subtotal(items[..i]) && accepted == Accepted(items[..i])
      {
        assert items[..i + 1][..i] == items[..i] && items[..i + 1] == items[..i] + [items[i]];
        subtotal := subtotal + items[i].unitPrice * (items[i].quantity + 0.5).Floor;
        accepted := accepted && items[i].quantity > 0.0 && items[i].unitPrice >= 0;
      }
      assert items[..|items|] == items;
      var total := if mode == NoCharge then 0 else subtotal + tax;
      if !accepted || (mode != NoCharge && (subtotal < 0 || tax < 0 || total < 0)) {
        return Some(Refused);
      }
      if total > 0 {
        PairOk(Charge(subscriber, total)[0], Charge(subscriber, total)[1]);
        var id := PostJournal([J.Line(J.Receivable, total, 0, "", subscriber), J.Line(J.Revenue, 0, total, "", "")]);
        invoices := invoices + [Invoice(subscriber, total, 0, Unpaid, due, Some(id))];
      } else {
        invoices := invoices + [Invoice(subscriber, total, 0, Unpaid, due, None)];
      }
      return None;
    }

    method VoidInvoice(i: nat) returns (error: Option<Error>)
      modifies this
      ensures Did(old(View()), Receivables.VoidInvoice(old(View()), i), View(), error)
    {
      if i >= |invoices| {
        return Some(NotFound);
      }
      var inv := invoices[i];
      if inv.status == Void {
        return Some(AlreadyVoid);
      }
      if inv.paid > 0 {
        return Some(HasSettlements);
      }
      if inv.entry.Some? {
        var ok := ReverseJournal(inv.entry.value);
        if !ok {
          return Some(Refused);
        }
      }
      invoices := invoices[i := inv.(status := Void)];
      return None;
    }

    method PostReceipt(i: nat, amount: int, today: int) returns (error: Option<Error>)
      modifies this
      ensures Did(old(View()), Receivables.PostReceipt(old(View()), i, amount, today), View(), error)
    {
      if amount <= 0 {
        return Some(NotPositive);
      }
      if i >= |invoices| {
        return Some(NotFound);
      }
      var inv := invoices[i];
      if inv.status == Void || inv.paid >= inv.total {
        return Some(VoidOrPaid);
      }
      if inv.paid + amount > inv.total {
        return Some(Overpayment);
      }
      PairOk(Receipt(inv.subscriber, amount)[0], Receipt(inv.subscriber, amount)[1]);
      var _ := PostJournal([J.Line(J.Cash, amount, 0, "", ""), J.Line(J.Receivable, 0, amount, "", inv.subscriber)]);
      var paid := inv.paid + amount;
      invoices := invoices[i := inv.(paid := paid, status := StatusFor(paid, inv.total, inv.due, today))];
      return None;
    }

    method CreateExpense(amount: int, due: int) returns (error: Option<Error>)
      modifies this
      ensures Did(old(View()), Receivables.CreateExpense(old(View()), amount, due), View(), error)
    {
      if amount <= 0 {
        return Some(NotPositive);
      }
      PairOk(Incurred(amount)[0], Incurred(amount)[1]);
      var id := PostJournal([J.Line(J.OperatingExpense, amount, 0, "", ""), J.Line(J.Payable, 0, amount, "", "")]);
      expenses := expenses + [Expense(amount, 0, Unpaid, due, id)];
      return None;
    }

    method VoidExpense(i: nat) returns (error: Option<Error>)
      modifies this
      ensures Did(old(View()), Receivables.VoidExpense(old(View()), i), View(), error)
    {
      if i >= |expenses| {
        return Some(NotFound);
      }
      var x := expenses[i];
      if x.status == Void {
        return Some(AlreadyVoid);
      }
      if x.paid > 0 {
        return Some(HasSettlements);
      }
      var ok := ReverseJournal(x.entry);
      if !ok {
        return Some(Refused);
      }
      expenses := expenses[i := x.(status := Void)];
      return None;
    }

    method PostPayment(i: nat, amount: int, today: int) returns (error: Option<Error>)
      modifies this
      ensures Did(old(View()), Receivables.PostPayment(old(View()), i, amount, today), View(), error)
    {
      if amount <= 0 {
        return Some(NotPositive);
      }
      if i >= |expenses| {
        return Some(NotFound);
      }
      var x := expenses[i];
      if x.status == Void || x.paid >= x.amount {
        return Some(VoidOrPaid);
      }
      if x.paid + amount > x.amount {
        return Some(Overpayment);
      }
      PairOk(Payment(amount)[0], Payment(amount)[1]);
      var _ := PostJournal([J.Line(J.Payable, amount, 0, "", ""), J.Line(J.Cash, 0, amount, "", "")]);
      var paid := x.paid + amount;
      expenses := expenses[i := x.(paid := paid, status := StatusFor(paid, x.amount, x.due, today))];
      return None;
    }
  }
}

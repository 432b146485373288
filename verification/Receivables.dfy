/** Invoices, expenses and what settles them (backend/internal/billing: invoices.go, expenses.go, ar_ap.go),
    over the journal they post to. Every operation runs under its document's row lock, so the operations of
    concurrent transactions take effect one at a time. Tax is an amount given with the invoice.
 */
module Receivables {
  import opened Wrappers
  import J = Journal

  datatype Mode = Full | Prorated | NoCharge | OtherMode

  datatype Item = Item(quantity: real, unitPrice: int)

  datatype Status = Unpaid | Partial | Due | Paid | Void

  /** `entry` is the journal entry the document points at. */
  datatype Invoice = Invoice(subscriber: string, total: int, paid: int, status: Status, due: int, entry: Option<nat>)

  datatype Expense = Expense(amount: int, paid: int, status: Status, due: int, entry: nat)

  datatype Books = Books(invoices: seq<Invoice>, expenses: seq<Expense>, entries: seq<seq<J.Line>>)

  datatype Error = InvalidMode | Refused | NotFound | AlreadyVoid | HasSettlements | NotPositive | VoidOrPaid | Overpayment

  const EMPTY := Books([], [], [])

  // ---- the lines that are posted ----

  function Charge(subscriber: string, total: int): seq<J.Line> {
    [J.Line(J.Receivable, total, 0, "", subscriber), J.Line(J.Revenue, 0, total, "", "")]
  }

  function Receipt(subscriber: string, amount: int): seq<J.Line> {
    [J.Line(J.Cash, amount, 0, "", ""), J.Line(J.Receivable, 0, amount, "", subscriber)]
  }

  function Incurred(amount: int): seq<J.Line> {
    [J.Line(J.OperatingExpense, amount, 0, "", ""), J.Line(J.Payable, 0, amount, "", "")]
  }

  function Payment(amount: int): seq<J.Line> {
    [J.Line(J.Payable, amount, 0, "", ""), J.Line(J.Cash, 0, amount, "", "")]
  }

  // ---- the operations ----

  /** Quantities are rounded to whole units. */
  function ItemAmount(i: Item): int {
    i.unitPrice * (i.quantity + 0.5).Floor
  }

  function Subtotal(items: seq<Item>): int {
    if items == [] then 0 else Subtotal(items[..|items| - 1]) + ItemAmount(items[|items| - 1])
  }

  /** The database refuses a line whose quantity is not positive or whose price is negative. */
  predicate Accepted(items: seq<Item>) {
    forall i | i in items :: i.quantity > 0.0 && i.unitPrice >= 0
  }

  function StatusFor(paid: int, total: int, due: int, today: int): Status {
    if total > 0 && paid >= total then Paid
    else if due < today then Due
    else if paid > 0 then Partial
    else Unpaid
  }

  function CreateInvoice(b: Books, subscriber: string, mode: Mode, items: seq<Item>, tax: int, due: int): Result<Books, Error> {
    if mode == OtherMode then Err(InvalidMode)
    else
      var subtotal := Subtotal(items);
      var total := if mode == NoCharge then 0 else subtotal + tax;
      if !Accepted(items) || (mode != NoCharge && (subtotal < 0 || tax < 0 || total < 0)) then Err(Refused)
      else if total > 0 then
        Ok(b.(invoices := b.invoices + [Invoice(subscriber, total, 0, Unpaid, due, Some(|b.entries|))],
              entries := b.entries + [Charge(subscriber, total)]))
      else Ok(b.(invoices := b.invoices + [Invoice(subscriber, total, 0, Unpaid, due, None)]))
  }

  function VoidInvoice(b: Books, i: nat): Result<Books, Error> {
    if i >= |b.invoices| then Err(NotFound)
    else
      var inv := b.invoices[i];
      if inv.status == Void then Err(AlreadyVoid)
      else if inv.paid > 0 then Err(HasSettlements)
      else if inv.entry.Some? && (inv.entry.value >= |b.entries| || b.entries[inv.entry.value] == []) then Err(Refused)
      else
        Ok(b.(invoices := b.invoices[i := inv.(status := Void)],
              entries := if inv.entry.Some? then b.entries + [J.SwapSides(b.entries[inv.entry.value])] else b.entries))
  }

  function PostReceipt(b: Books, i: nat, amount: int, today: int): Result<Books, Error> {
    if amount <= 0 then Err(NotPositive)
    else if i >= |b.invoices| then Err(NotFound)
    else
      var inv := b.invoices[i];
      if inv.status == Void || inv.paid >= inv.total then Err(VoidOrPaid)
      else if inv.paid + amount > inv.total then Err(Overpayment)
      else
        Ok(b.(invoices := b.invoices[i := inv.(paid := inv.paid + amount,
                                               status := StatusFor(inv.paid + amount, inv.total, inv.due, today))],
              entries := b.entries + [Receipt(inv.subscriber, amount)]))
  }

  /** A renewal's own journal entry, and the invoice that documents it when it has a price. */
  function PostRenewal(b: Books, e: J.Entry, hasPayment: bool, gross: int, today: int): Result<Books, Error> {
    var posted := J.LinesFor(e, hasPayment, gross);
    if posted.Err? then Err(Refused)
    else
      var entries := if posted.value == [] then b.entries else b.entries + [posted.value];
      var link := if posted.value == [] then None else Some(|b.entries|);
      if gross <= 0 then Ok(b.(entries := entries))
      else Ok(b.(invoices := b.invoices + [Invoice(e.subscriber, gross, gross, Paid, today, link)], entries := entries))
  }

  function CreateExpense(b: Books, amount: int, due: int): Result<Books, Error> {
    if amount <= 0 then Err(NotPositive)
    else Ok(b.(expenses := b.expenses + [Expense(amount, 0, Unpaid, due, |b.entries|)],
               entries := b.entries + [Incurred(amount)]))
  }

  function VoidExpense(b: Books, i: nat): Result<Books, Error> {
    if i >= |b.expenses| then Err(NotFound)
    else
      var x := b.expenses[i];
      if x.status == Void then Err(AlreadyVoid)
      else if x.paid > 0 then Err(HasSettlements)
      else if x.entry >= |b.entries| || b.entries[x.entry] == [] then Err(Refused)
      else Ok(b.(expenses := b.expenses[i := x.(status := Void)],
                 entries := b.entries + [J.SwapSides(b.entries[x.entry])]))
  }

  function PostPayment(b: Books, i: nat, amount: int, today: int): Result<Books, Error> {
    if amount <= 0 then Err(NotPositive)
    else if i >= |b.expenses| then Err(NotFound)
    else
      var x := b.expenses[i];
      if x.status == Void || x.paid >= x.amount then Err(VoidOrPaid)
      else if x.paid + amount > x.amount then Err(Overpayment)
      else
        Ok(b.(expenses := b.expenses[i := x.(paid := x.paid + amount,
                                             status := StatusFor(x.paid + amount, x.amount, x.due, today))],
              entries := b.entries + [Payment(amount)]))
  }

  datatype Op =
    | Issue(subscriber: string, mode: Mode, items: seq<Item>, tax: int, due: int)
    | CancelInvoice(i: nat)
    | Receive(i: nat, amount: int, today: int)
    | Renew(entry: J.Entry, hasPayment: bool, gross: int, today: int)
    | Incur(amount: int, due: int)
    | CancelExpense(i: nat)
    | Pay(i: nat, amount: int, today: int)

  function Attempt(b: Books, op: Op): Result<Books, Error> {
    match op
    case Issue(s, mode, items, tax, due) => CreateInvoice(b, s, mode, items, tax, due)
    case CancelInvoice(i) => VoidInvoice(b, i)
    case Receive(i, amount, today) => PostReceipt(b, i, amount, today)
    case Renew(e, hasPayment, gross, today) => PostRenewal(b, e, hasPayment, gross, today)
    case Incur(amount, due) => CreateExpense(b, amount, due)
    case CancelExpense(i) => VoidExpense(b, i)
    case Pay(i, amount, today) => PostPayment(b, i, amount, today)
  }

  function Run(ops: seq<Op>): Books {
    if ops == [] then EMPTY
    else
      var b := Run(ops[..|ops| - 1]);
      var r := Attempt(b, ops[|ops| - 1]);
      if r.Ok? then r.value else b
  }

  // ---- balances and open amounts ----

  /** Debits less credits on the receivable account tagged with one subscriber. */
  function LinesNet(lines: seq<J.Line>, account: J.Account, subscriber: string): int {
    if lines == [] then 0
    else
      var l := lines[|lines| - 1];
      LinesNet(lines[..|lines| - 1], account, subscriber)
      + (if l.account == account && l.subscriber == subscriber then l.debit - l.credit else 0)
  }

  function Net(entries: seq<seq<J.Line>>, account: J.Account, subscriber: string): int {
    if entries == [] then 0
    else Net(entries[..|entries| - 1], account, subscriber) + LinesNet(entries[|entries| - 1], account, subscriber)
  }

  function OpenAmount(inv: Invoice, subscriber: string): int {
    if inv.status != Void && inv.subscriber == subscriber then inv.total - inv.paid else 0
  }

  /** What a subscriber owes by the invoices. */
  function Owed(invoices: seq<Invoice>, subscriber: string): int {
    if invoices == [] then 0 else Owed(invoices[..|invoices| - 1], subscriber) + OpenAmount(invoices[|invoices| - 1], subscriber)
  }

  function OpenExpense(x: Expense): int {
    if x.status != Void then x.amount - x.paid else 0
  }

  function Owing(expenses: seq<Expense>): int {
    if expenses == [] then 0 else Owing(expenses[..|expenses| - 1]) + OpenExpense(expenses[|expenses| - 1])
  }

  lemma NetSnoc(entries: seq<seq<J.Line>>, lines: seq<J.Line>, account: J.Account, s: string)
    ensures Net(entries + [lines], account, s) == Net(entries, account, s) + LinesNet(lines, account, s)
  {
    assert (entries + [lines])[..|entries|] == entries;
  }

  lemma TwoLinesNet(x: J.Line, y: J.Line, account: J.Account, s: string)
    ensures LinesNet([x, y], account, s) == (if x.account == account && x.subscriber == s then x.debit - x.credit else 0)
                                            + (if y.account == account && y.subscriber == s then y.debit - y.credit else 0)
  {
    assert [x, y][..1] == [x] && [x][..0] == [];
    assert LinesNet([x], account, s) == if x.account == account && x.subscriber == s then x.debit - x.credit else 0;
  }

  lemma {:induction false} SwapNet(lines: seq<J.Line>, account: J.Account, s: string)
    ensures LinesNet(J.SwapSides(lines), account, s) == -LinesNet(lines, account, s)
  {
    if lines != [] {
      var front := lines[..|lines| - 1];
      SwapNet(front, account, s);
      assert J.SwapSides(lines)[..|lines| - 1] == J.SwapSides(front);
    }
  }

  lemma OwedSnoc(invoices: seq<Invoice>, inv: Invoice, s: string)
    ensures Owed(invoices + [inv], s) == Owed(invoices, s) + OpenAmount(inv, s)
  {
    assert (invoices + [inv])[..|invoices|] == invoices;
  }

  lemma {:induction false} OwedUpdate(invoices: seq<Invoice>, i: nat, inv: Invoice, s: string)
    requires i < |invoices|
    ensures Owed(invoices[i := inv], s) == Owed(invoices, s) - OpenAmount(invoices[i], s) + OpenAmount(inv, s)
  {
    var last := |invoices| - 1;
    if i == last {
      assert invoices[i := inv][..last] == invoices[..last];
    } else {
      assert invoices[i := inv][..last] == invoices[..last][i := inv];
      OwedUpdate(invoices[..last], i, inv, s);
    }
  }

  lemma OwingSnoc(expenses: seq<Expense>, x: Expense)
    ensures Owing(expenses + [x]) == Owing(expenses) + OpenExpense(x)
  {
    assert (expenses + [x])[..|expenses|] == expenses;
  }

  lemma {:induction false} OwingUpdate(expenses: seq<Expense>, i: nat, x: Expense)
    requires i < |expenses|
    ensures Owing(expenses[i := x]) == Owing(expenses) - OpenExpense(expenses[i]) + OpenExpense(x)
  {
    var last := |expenses| - 1;
    if i == last {
      assert expenses[i := x][..last] == expenses[..last];
    } else {
      assert expenses[i := x][..last] == expenses[..last][i := x];
      OwingUpdate(expenses[..last], i, x);
    }
  }

  // ---- the invariant ----

  ghost predicate ReceivablesReconcile(b: Books) {
    forall s :: Net(b.entries, J.Receivable, s) == Owed(b.invoices, s)
  }

  /** Payable lines carry no subscriber. */
  ghost predicate PayablesReconcile(b: Books) {
    -Net(b.entries, J.Payable, "") == Owing(b.expenses)
  }

  /** Never negative, never overpaid; paid exactly when settled; and an unsettled document points at its own accrual. */
  predicate InvoiceOk(inv: Invoice, entries: seq<seq<J.Line>>) {
    && 0 <= inv.paid <= inv.total
    && (inv.status == Paid <==> inv.total > 0 && inv.paid == inv.total)
    && (inv.status == Void ==> inv.paid == 0)
    && (inv.paid == 0 ==>
          if inv.total == 0 then inv.entry.None?
          else inv.entry.Some? && inv.entry.value < |entries| && entries[inv.entry.value] == Charge(inv.subscriber, inv.total))
  }

  predicate ExpenseOk(x: Expense, entries: seq<seq<J.Line>>) {
    && 0 <= x.paid <= x.amount && x.amount > 0
    && (x.status == Paid <==> x.paid == x.amount)
    && (x.status == Void ==> x.paid == 0)
    && x.entry < |entries| && entries[x.entry] == Incurred(x.amount)
  }

  ghost predicate DocumentsOk(b: Books) {
    && (forall i | 0 <= i < |b.invoices| :: InvoiceOk(b.invoices[i], b.entries))
    && (forall i | 0 <= i < |b.expenses| :: ExpenseOk(b.expenses[i], b.entries))
  }

  ghost predicate EntriesBalance(b: Books) {
    forall lines | lines in b.entries :: J.Balanced(lines)
  }

  ghost predicate Inv(b: Books) {
    ReceivablesReconcile(b) && PayablesReconcile(b) && DocumentsOk(b) && EntriesBalance(b)
  }

  /** One more entry, and what that does to the two control accounts. */
  lemma Posts(b: Books, post: Books, lines: seq<J.Line>)
    requires post.entries == b.entries + [lines] && EntriesBalance(b) && J.Balanced(lines)
    ensures EntriesBalance(post)
    ensures forall s :: Net(post.entries, J.Receivable, s) == Net(b.entries, J.Receivable, s) + LinesNet(lines, J.Receivable, s)
    ensures Net(post.entries, J.Payable, "") == Net(b.entries, J.Payable, "") + LinesNet(lines, J.Payable, "")
  {
    hide J.Balanced, Net, LinesNet;
    forall s
      ensures Net(post.entries, J.Receivable, s) == Net(b.entries, J.Receivable, s) + LinesNet(lines, J.Receivable, s)
    {
      NetSnoc(b.entries, lines, J.Receivable, s);
    }
    NetSnoc(b.entries, lines, J.Payable, "");
  }

  lemma PairOk(x: J.Line, y: J.Line)
    requires x.debit > 0 && x.credit == 0 && y.debit == 0 && y.credit == x.debit
    ensures J.Balanced([x, y])
  {
    J.TwoLineSums(x, y);
  }

  lemma IssueKeeps(b: Books, s: string, mode: Mode, items: seq<Item>, tax: int, due: int)
    requires Inv(b) && CreateInvoice(b, s, mode, items, tax, due).Ok?
    ensures Inv(CreateInvoice(b, s, mode, items, tax, due).value)
  {
    hide Net, LinesNet, Owed, Owing, Subtotal, Accepted, J.Balanced;
    var post := CreateInvoice(b, s, mode, items, tax, due).value;
    var inv := post.invoices[|b.invoices|];
    forall t
      ensures Owed(post.invoices, t) == Owed(b.invoices, t) + OpenAmount(inv, t)
    {
      OwedSnoc(b.invoices, inv, t);
    }
    if inv.total > 0 {
      var lines := Charge(s, inv.total);
      PairOk(lines[0], lines[1]);
      Posts(b, post, lines);
      forall t, account
        ensures LinesNet(lines, account, t) == (if account == J.Receivable && t == s then inv.total else 0)
                                               - (if account == J.Revenue && t == "" then inv.total else 0)
      {
        TwoLinesNet(lines[0], lines[1], account, t);
      }
    }
  }

  lemma VoidInvoiceKeeps(b: Books, i: nat)
    requires Inv(b) && VoidInvoice(b, i).Ok?
    ensures Inv(VoidInvoice(b, i).value)
  {
    hide Net, LinesNet, Owed, Owing, J.Balanced, J.SwapSides;
    var (inv, post) := (b.invoices[i], VoidInvoice(b, i).value);
    assert InvoiceOk(inv, b.entries);
    forall t
      ensures Owed(post.invoices, t) == Owed(b.invoices, t) - OpenAmount(inv, t)
    {
      OwedUpdate(b.invoices, i, post.invoices[i], t);
    }
    if inv.entry.Some? {
      var lines := Charge(inv.subscriber, inv.total);
      assert lines in b.entries;
      J.SwapBalances(lines);
      Posts(b, post, J.SwapSides(lines));
      forall t, account
        ensures LinesNet(J.SwapSides(lines), account, t) == -(if account == J.Receivable && t == inv.subscriber then inv.total else 0)
                                                            + (if account == J.Revenue && t == "" then inv.total else 0)
      {
        SwapNet(lines, account, t);
        TwoLinesNet(lines[0], lines[1], account, t);
      }
    }
  }

  lemma ReceiptKeeps(b: Books, i: nat, amount: int, today: int)
    requires Inv(b) && PostReceipt(b, i, amount, today).Ok?
    ensures Inv(PostReceipt(b, i, amount, today).value)
  {
    hide Net, LinesNet, Owed, Owing, J.Balanced;
    var (inv, post) := (b.invoices[i], PostReceipt(b, i, amount, today).value);
    assert InvoiceOk(inv, b.entries);
    forall t
      ensures Owed(post.invoices, t) == Owed(b.invoices, t) - (if t == inv.subscriber then amount else 0)
    {
      OwedUpdate(b.invoices, i, post.invoices[i], t);
    }
    var lines := Receipt(inv.subscriber, amount);
    PairOk(lines[0], lines[1]);
    Posts(b, post, lines);
    forall t, account
      ensures LinesNet(lines, account, t) == (if account == J.Cash && t == "" then amount else 0)
                                             - (if account == J.Receivable && t == inv.subscriber then amount else 0)
    {
      TwoLinesNet(lines[0], lines[1], account, t);
    }
  }

  lemma ExpenseKeeps(b: Books, amount: int, due: int)
    requires Inv(b) && CreateExpense(b, amount, due).Ok?
    ensures Inv(CreateExpense(b, amount, due).value)
  {
    hide Net, LinesNet, Owed, Owing, J.Balanced;
    var post := CreateExpense(b, amount, due).value;
    OwingSnoc(b.expenses, post.expenses[|b.expenses|]);
    var lines := Incurred(amount);
    PairOk(lines[0], lines[1]);
    Posts(b, post, lines);
    forall t, account
      ensures LinesNet(lines, account, t) == (if account == J.OperatingExpense && t == "" then amount else 0)
                                             - (if account == J.Payable && t == "" then amount else 0)
    {
      TwoLinesNet(lines[0], lines[1], account, t);
    }
  }

  lemma VoidExpenseKeeps(b: Books, i: nat)
    requires Inv(b) && VoidExpense(b, i).Ok?
    ensures Inv(VoidExpense(b, i).value)
  {
    hide Net, LinesNet, Owed, Owing, J.Balanced, J.SwapSides;
    var (x, post) := (b.expenses[i], VoidExpense(b, i).value);
    assert ExpenseOk(x, b.entries);
    OwingUpdate(b.expenses, i, post.expenses[i]);
    var lines := Incurred(x.amount);
    assert lines in b.entries;
    J.SwapBalances(lines);
    Posts(b, post, J.SwapSides(lines));
    forall t, account
      ensures LinesNet(J.SwapSides(lines), account, t) == -(if account == J.OperatingExpense && t == "" then x.amount else 0)
                                                          + (if account == J.Payable && t == "" then x.amount else 0)
    {
      SwapNet(lines, account, t);
      TwoLinesNet(lines[0], lines[1], account, t);
    }
  }

  lemma PaymentKeeps(b: Books, i: nat, amount: int, today: int)
    requires Inv(b) && PostPayment(b, i, amount, today).Ok?
    ensures Inv(PostPayment(b, i, amount, today).value)
  {
    hide Net, LinesNet, Owed, Owing, J.Balanced;
    var (x, post) := (b.expenses[i], PostPayment(b, i, amount, today).value);
    assert ExpenseOk(x, b.entries);
    OwingUpdate(b.expenses, i, post.expenses[i]);
    var lines := Payment(amount);
    PairOk(lines[0], lines[1]);
    Posts(b, post, lines);
    forall t, account
      ensures LinesNet(lines, account, t) == (if account == J.Payable && t == "" then amount else 0)
                                             - (if account == J.Cash && t == "" then amount else 0)
    {
      TwoLinesNet(lines[0], lines[1], account, t);
    }
  }

  /** Ledger entries post to neither control account. */
  predicate Elsewhere(l: J.Line) {
    l.account != J.Receivable && l.account != J.Payable
  }

  lemma {:induction false} ElsewhereNets(lines: seq<J.Line>, account: J.Account, s: string)
    requires forall l | l in lines :: Elsewhere(l)
    requires account == J.Receivable || account == J.Payable
    ensures LinesNet(lines, account, s) == 0
  {
    if lines != [] {
      assert lines[|lines| - 1] in lines;
      ElsewhereNets(lines[..|lines| - 1], account, s);
    }
  }

  lemma PairElsewhere(a: J.Account, b: J.Account, amount: int, manager: string)
    requires a != J.Receivable && a != J.Payable && b != J.Receivable && b != J.Payable
    ensures forall l | l in J.SignedPair(a, b, amount, manager) :: Elsewhere(l)
  {
  }

  lemma LedgerPostsElsewhere(e: J.Entry, hasPayment: bool, gross: int)
    requires e.kind != J.Unknown
    ensures forall l | l in J.LinesFor(e, hasPayment, gross).value :: Elsewhere(l)
  {
    hide J.SignedPair, Elsewhere;
    PairElsewhere(J.Cash, J.Wallet, e.amount, e.actor);
    PairElsewhere(J.CommissionExpense, J.Wallet, e.amount, e.actor);
    PairElsewhere(J.OwnerCapital, J.Wallet, e.amount, e.actor);
    PairElsewhere(J.Revenue, J.Wallet, e.amount, e.actor);
    PairElsewhere(J.Cash, J.Revenue, gross, "");
    if e.cost.Some? {
      PairElsewhere(J.CostOfService, J.CostSuspense, e.cost.value, "");
    }
  }

  lemma RenewalKeeps(b: Books, e: J.Entry, hasPayment: bool, gross: int, today: int)
    requires Inv(b) && PostRenewal(b, e, hasPayment, gross, today).Ok?
    ensures Inv(PostRenewal(b, e, hasPayment, gross, today).value)
  {
    hide Net, LinesNet, Owed, Owing, J.Balanced, J.SignedPair, J.MoneyLeg, J.CostLeg, Elsewhere;
    var post := PostRenewal(b, e, hasPayment, gross, today).value;
    var lines := J.LinesFor(e, hasPayment, gross).value;
    J.PostedIsBalanced(e, hasPayment, gross);
    LedgerPostsElsewhere(e, hasPayment, gross);
    if lines != [] {
      Posts(b, post, lines);
    }
    forall t
      ensures LinesNet(lines, J.Receivable, t) == 0 && LinesNet(lines, J.Payable, t) == 0
      ensures Owed(post.invoices, t) == Owed(b.invoices, t)
    {
      ElsewhereNets(lines, J.Receivable, t);
      ElsewhereNets(lines, J.Payable, t);
      if gross > 0 {
        OwedSnoc(b.invoices, post.invoices[|b.invoices|], t);
      }
    }
  }

  lemma AttemptKeeps(b: Books, op: Op)
    requires Inv(b) && Attempt(b, op).Ok?
    ensures Inv(Attempt(b, op).value)
  {
    hide Inv, CreateInvoice, VoidInvoice, PostReceipt, PostRenewal, CreateExpense, VoidExpense, PostPayment;
    match op
    case Issue(s, mode, items, tax, due) => IssueKeeps(b, s, mode, items, tax, due);
    case CancelInvoice(i) => VoidInvoiceKeeps(b, i);
    case Receive(i, amount, today) => ReceiptKeeps(b, i, amount, today);
    case Renew(e, hasPayment, gross, today) => RenewalKeeps(b, e, hasPayment, gross, today);
    case Incur(amount, due) => ExpenseKeeps(b, amount, due);
    case CancelExpense(i) => VoidExpenseKeeps(b, i);
    case Pay(i, amount, today) => PaymentKeeps(b, i, amount, today);
  }

  lemma {:induction false} Reachable(ops: seq<Op>)
    ensures Inv(Run(ops))
  {
    hide Inv, Attempt;
    if ops == [] {
      NothingReconciles();
    } else {
      var b := Run(ops[..|ops| - 1]);
      Reachable(ops[..|ops| - 1]);
      if Attempt(b, ops[|ops| - 1]).Ok? {
        AttemptKeeps(b, ops[|ops| - 1]);
      }
    }
  }

  lemma NothingReconciles()
    ensures Inv(EMPTY)
  {
  }

  // ---- what that means ----

  /** In every reachable state the receivable account of a subscriber is what the subscriber's open invoices ask for,
      and the payable account what the open expenses ask for. */
  lemma ControlAccountsReconcile(ops: seq<Op>, subscriber: string)
    ensures var b := Run(ops);
            && Net(b.entries, J.Receivable, subscriber) == Owed(b.invoices, subscriber)
            && -Net(b.entries, J.Payable, "") == Owing(b.expenses)
  {
    hide Run, Net, Owed, Owing, DocumentsOk, EntriesBalance;
    Reachable(ops);
  }

  /** No document is ever settled below zero or beyond its amount, and it is marked paid exactly when it is settled. */
  lemma NeverOverpaid(ops: seq<Op>, i: nat)
    ensures var b := Run(ops);
            && (i < |b.invoices| ==>
                  && 0 <= b.invoices[i].paid <= b.invoices[i].total
                  && (b.invoices[i].status == Paid <==> b.invoices[i].total > 0 && b.invoices[i].paid == b.invoices[i].total))
            && (i < |b.expenses| ==>
                  && 0 <= b.expenses[i].paid <= b.expenses[i].amount
                  && (b.expenses[i].status == Paid <==> b.expenses[i].paid == b.expenses[i].amount))
  {
    hide Run, ReceivablesReconcile, PayablesReconcile, EntriesBalance;
    Reachable(ops);
    var b := Run(ops);
    if i < |b.invoices| {
      assert InvoiceOk(b.invoices[i], b.entries);
    }
    if i < |b.expenses| {
      assert ExpenseOk(b.expenses[i], b.entries);
    }
  }

  /** Voiding a document that may be voided always succeeds, and a second time never. */
  lemma VoidOnce(ops: seq<Op>, i: nat)
    requires i < |Run(ops).invoices|
    ensures var (b, inv) := (Run(ops), Run(ops).invoices[i]);
            && (VoidInvoice(b, i).Ok? <==> inv.status != Void && inv.paid == 0)
            && (VoidInvoice(b, i).Ok? ==> VoidInvoice(VoidInvoice(b, i).value, i) == Err(AlreadyVoid))
  {
    hide Run, ReceivablesReconcile, PayablesReconcile, EntriesBalance;
    Reachable(ops);
    assert InvoiceOk(Run(ops).invoices[i], Run(ops).entries);
  }

  function Stage(s: Status): nat {
    match s
    case Unpaid => 0
    case Partial => 1
    case Due => 2
    case Paid => 3
    case Void => 4
  }

  /** With more paid and time passing the computed status never returns to an earlier stage; it is due exactly
      when it is overdue and not settled, partly paid or not. */
  lemma StatusNeverGoesBack(total: int, due: int, paid: nat, today: int, paidLater: nat, later: int)
    requires paid <= paidLater && today <= later
    ensures Stage(StatusFor(paid, total, due, today)) <= Stage(StatusFor(paidLater, total, due, later))
    ensures StatusFor(paid, total, due, today) == Due <==> due < today && !(total > 0 && paid >= total)
  {
  }

  // ---- documents over time ----

  predicate Dated(op: Op) {
    op.Receive? || op.Renew? || op.Pay?
  }

  ghost predicate NotAfter(ops: seq<Op>, day: int) {
    forall op | op in ops && Dated(op) :: op.today <= day
  }

  /** Today's date never goes back. */
  ghost predicate DaysGoOn(ops: seq<Op>) {
    forall i, j | 0 <= i < j < |ops| && Dated(ops[i]) && Dated(ops[j]) :: ops[i].today <= ops[j].today
  }

  /** Whatever is computed for a document on that day, with no less paid, will not set it back. */
  ghost predicate Ready(status: Status, paid: int, total: int, due: int, day: int) {
    paid >= 0 && (status != Void ==> forall p: nat | p >= paid :: Stage(status) <= Stage(StatusFor(p, total, due, day)))
  }

  ghost predicate AllReady(b: Books, day: int) {
    && (forall i | 0 <= i < |b.invoices| ::
          var inv := b.invoices[i]; Ready(inv.status, inv.paid, inv.total, inv.due, day))
    && (forall i | 0 <= i < |b.expenses| ::
          var x := b.expenses[i]; Ready(x.status, x.paid, x.amount, x.due, day))
  }

  lemma ComputedIsReady(paid: nat, total: int, due: int, today: int, day: int)
    requires today <= day
    ensures Ready(StatusFor(paid, total, due, today), paid, total, due, day)
  {
    forall p: nat | p >= paid
      ensures Stage(StatusFor(paid, total, due, today)) <= Stage(StatusFor(p, total, due, day))
    {
      StatusNeverGoesBack(total, due, paid, today, p, day);
    }
  }

  lemma AttemptIsReady(b: Books, op: Op, day: int)
    requires AllReady(b, day) && Attempt(b, op).Ok? && (Dated(op) ==> op.today <= day)
    ensures AllReady(Attempt(b, op).value, day)
  {
    hide StatusFor, Subtotal, Accepted, J.LinesFor, J.SwapSides, Ready;
    match op
    case Issue(s, mode, items, tax, due) => NewIsReady(due, day, Attempt(b, op).value.invoices[|b.invoices|].total);
    case Incur(amount, due) => NewIsReady(due, day, amount);
    case Renew(_, _, gross, today) => SettledIsReady(gross, today, day);
    case Receive(i, amount, today) =>
      var inv := b.invoices[i];
      PaidIsNat(inv.status, inv.paid, inv.total, inv.due, day);
      ComputedIsReady(inv.paid + amount, inv.total, inv.due, today, day);
    case Pay(i, amount, today) =>
      var x := b.expenses[i];
      PaidIsNat(x.status, x.paid, x.amount, x.due, day);
      ComputedIsReady(x.paid + amount, x.amount, x.due, today, day);
    case CancelInvoice(i) =>
      PaidIsNat(b.invoices[i].status, b.invoices[i].paid, b.invoices[i].total, b.invoices[i].due, day);
    case CancelExpense(i) =>
      PaidIsNat(b.expenses[i].status, b.expenses[i].paid, b.expenses[i].amount, b.expenses[i].due, day);
  }

  lemma NewIsReady(due: int, day: int, total: int)
    ensures Ready(Unpaid, 0, total, due, day)
  {
  }

  lemma SettledIsReady(gross: int, today: int, day: int)
    ensures gross > 0 ==> Ready(Paid, gross, gross, today, day)
  {
  }

  lemma PaidIsNat(status: Status, paid: int, total: int, due: int, day: int)
    requires Ready(status, paid, total, due, day)
    ensures paid >= 0 && Ready(Void, paid, total, due, day)
  {
  }

  lemma {:induction false} RunIsReady(ops: seq<Op>, day: int)
    requires NotAfter(ops, day)
    ensures AllReady(Run(ops), day)
  {
    hide Attempt, AllReady;
    if ops == [] {
      NothingIsReady(day);
    } else {
      var (before, op) := (ops[..|ops| - 1], ops[|ops| - 1]);
      assert op in ops;
      RunIsReady(before, day);
      if Attempt(Run(before), op).Ok? {
        AttemptIsReady(Run(before), op, day);
      }
    }
  }

  lemma NothingIsReady(day: int)
    ensures AllReady(EMPTY, day)
  {
  }

  /** Every document of `a` is still there in `b`, for the same amount, with no less paid and at no earlier stage. */
  ghost predicate MovedOn(a: Books, b: Books) {
    && |a.invoices| <= |b.invoices| && |a.expenses| <= |b.expenses|
    && (forall i | 0 <= i < |a.invoices| ::
          && b.invoices[i].total == a.invoices[i].total && b.invoices[i].due == a.invoices[i].due
          && a.invoices[i].paid <= b.invoices[i].paid && Stage(a.invoices[i].status) <= Stage(b.invoices[i].status))
    && (forall i | 0 <= i < |a.expenses| ::
          && b.expenses[i].amount == a.expenses[i].amount && b.expenses[i].due == a.expenses[i].due
          && a.expenses[i].paid <= b.expenses[i].paid && Stage(a.expenses[i].status) <= Stage(b.expenses[i].status))
  }

  lemma AttemptMovesOn(b: Books, op: Op)
    requires Attempt(b, op).Ok? && (Dated(op) ==> AllReady(b, op.today))
    ensures MovedOn(b, Attempt(b, op).value)
  {
    hide StatusFor, Subtotal, Accepted, J.LinesFor, J.SwapSides;
  }

  /** In every run in which today's date never goes back, void documents included: a document once issued keeps its
      amount, never has less paid, and its status only ever moves forward. */
  lemma {:induction false} DocumentsMoveOn(ops: seq<Op>, n: nat)
    requires n <= |ops| && DaysGoOn(ops)
    ensures MovedOn(Run(ops[..n]), Run(ops))
    decreases |ops|
  {
    hide Attempt, AllReady;
    if n == |ops| {
      assert ops[..n] == ops;
    } else {
      var (before, op) := (ops[..|ops| - 1], ops[|ops| - 1]);
      assert before[..n] == ops[..n];
      DocumentsMoveOn(before, n);
      if Attempt(Run(before), op).Ok? {
        if Dated(op) {
          RunIsReady(before, op.today);
        }
        AttemptMovesOn(Run(before), op);
      }
    }
  }
}

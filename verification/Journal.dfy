/** The double-entry journal (backend/internal/billing/journal.go): the one mapping from a
    ledger entry to balanced lines. Memos and dates are left out.
 */
module Journal {
  import opened Wrappers

  /** The chart of accounts the package posts to, by what each code stands for
      (1000, 1010, 1100, ... in the repository), and accounts added by an administrator. */
  datatype Account =
    | Cash | Bank | Receivable | FixedAssets | AccumDepreciation
    | Payable | Wallet | CostSuspense | OwnerCapital | RetainedEarnings
    | Revenue | OtherRevenue
    | CostOfService | CommissionExpense | OperatingExpense | DepreciationExpense
    | Custom(code: string)

  /** One line; the empty string stands for an untagged party. */
  datatype Line = Line(account: Account, debit: int, credit: int, manager: string, subscriber: string)

  datatype Kind = TopUp | Commission | Exchange | Renewal | VoucherRedeem | Adjustment | Refund
                | ManualPayment | Discount | Unknown

  /** A ledger entry: `amount` is its signed effect on the actor's wallet. */
  datatype Entry = Entry(kind: Kind, amount: int, actor: string, subscriber: string,
                         reverses: Option<nat>, cost: Option<int>)

  datatype JournalError = TooFewLines | NotOneSided(account: Account) | Unbalanced(debit: int, credit: int)
                        | UnknownKind

  // ---- building lines ----

  function Abs(n: int): nat {
    if n < 0 then -n else n
  }

  function Tag(account: Account, manager: string): string {
    if account == Wallet then manager else ""
  }

  function Debit(account: Account, amount: int, manager: string): Line {
    Line(account, amount, 0, Tag(account, manager), "")
  }

  function Credit(account: Account, amount: int, manager: string): Line {
    Line(account, 0, amount, Tag(account, manager), "")
  }

  /** A balanced pair for a signed amount; a negative amount swaps the sides. */
  function SignedPair(debitWhenPositive: Account, creditWhenPositive: Account, amount: int, manager: string): seq<Line> {
    var mag := Abs(amount);
    if amount >= 0 then [Debit(debitWhenPositive, mag, manager), Credit(creditWhenPositive, mag, manager)]
    else [Debit(creditWhenPositive, mag, manager), Credit(debitWhenPositive, mag, manager)]
  }

  /** The revenue or cash leg of an entry of the renewal family. */
  function MoneyLeg(e: Entry, hasPayment: bool, gross: int): seq<Line> {
    if e.actor != "" && e.amount != 0 then SignedPair(Revenue, Wallet, e.amount, e.actor)
    else if hasPayment && gross != 0 then SignedPair(Cash, Revenue, gross, "")
    else []
  }

  /** The cost leg; it is posted whether or not the money leg is. */
  function CostLeg(e: Entry): seq<Line> {
    if e.cost.Some? && e.cost.value != 0 then SignedPair(CostOfService, CostSuspense, e.cost.value, "") else []
  }

  /** What postLedgerJournal posts for an entry; no lines means no journal entry. */
  function LinesFor(e: Entry, hasPayment: bool, gross: int): Result<seq<Line>, JournalError> {
    match e.kind
    case TopUp => Ok(if e.amount == 0 then [] else SignedPair(Cash, Wallet, e.amount, e.actor))
    case Commission => Ok(if e.amount == 0 then [] else SignedPair(CommissionExpense, Wallet, e.amount, e.actor))
    case Exchange => Ok(if e.amount == 0 then [] else SignedPair(OwnerCapital, Wallet, e.amount, e.actor))
    case Unknown => Err(UnknownKind)
    case _ => Ok(MoneyLeg(e, hasPayment, gross) + CostLeg(e))
  }

  // ---- balance ----

  function Debits(lines: seq<Line>): int {
    if lines == [] then 0 else Debits(lines[..|lines| - 1]) + lines[|lines| - 1].debit
  }

  function Credits(lines: seq<Line>): int {
    if lines == [] then 0 else Credits(lines[..|lines| - 1]) + lines[|lines| - 1].credit
  }

  predicate OneSided(l: Line) {
    (l.debit > 0 && l.credit == 0) || (l.debit == 0 && l.credit > 0)
  }

  /** At least two lines, each on exactly one side, with equal sums. */
  ghost predicate Balanced(lines: seq<Line>) {
    && |lines| >= 2
    && (forall l | l in lines :: OneSided(l))
    && Debits(lines) == Credits(lines)
  }

  /** validateBalanced, which also lets through a line with a negative other side: the
      database's own check on each line is what refuses that. */
  method ValidateBalanced(lines: seq<Line>) returns (r: Result<(), JournalError>)
    ensures r.Ok? <==> && |lines| >= 2
                       && (forall l | l in lines :: (l.debit > 0) != (l.credit > 0))
                       && Debits(lines) == Credits(lines)
    ensures r.Err? && r.error.Unbalanced? ==> r.error == Unbalanced(Debits(lines), Credits(lines))
    ensures Balanced(lines) ==> r.Ok?
    ensures r.Ok? && (forall l | l in lines :: l.debit >= 0 && l.credit >= 0) ==> Balanced(lines)
  {
    if |lines| < 2 {
      return Err(TooFewLines);
    }
    var d, c := 0, 0;
    for i := 0 to |lines|
      invariant d == Debits(lines[..i]) && c == Credits(lines[..i])
      invariant forall j | 0 <= j < i :: (lines[j].debit > 0) != (lines[j].credit > 0)
    {
      var l := lines[i];
      if (l.debit > 0) == (l.credit > 0) {
        return Err(NotOneSided(l.account));
      }
      assert lines[..i + 1][..i] == lines[..i];
      d, c := d + l.debit, c + l.credit;
    }
    assert lines[..|lines|] == lines;
    if d != c {
      return Err(Unbalanced(d, c));
    }
    return Ok(());
  }

  lemma {:induction false} SumsConcat(a: seq<Line>, b: seq<Line>)
    ensures Debits(a + b) == Debits(a) + Debits(b)
    ensures Credits(a + b) == Credits(a) + Credits(b)
    decreases |b|
  {
    if b == [] {
      assert a + b == a;
    } else {
      assert (a + b)[..|a + b| - 1] == a + b[..|b| - 1];
      SumsConcat(a, b[..|b| - 1]);
    }
  }

  lemma TwoLineSums(x: Line, y: Line)
    ensures Debits([x, y]) == x.debit + y.debit && Credits([x, y]) == x.credit + y.credit
  {
    assert [x, y][..1] == [x] && [x][..0] == [];
    assert Debits([x]) == x.debit && Credits([x]) == x.credit;
  }

  lemma PairIs(a: Account, b: Account, amount: int, manager: string)
    ensures SignedPair(a, b, amount, manager) ==
            if amount >= 0 then [Debit(a, amount, manager), Credit(b, amount, manager)]
            else [Debit(b, -amount, manager), Credit(a, -amount, manager)]
  {
  }

  lemma PairBalances(a: Account, b: Account, amount: int, manager: string)
    requires amount != 0
    ensures Balanced(SignedPair(a, b, amount, manager))
  {
    hide SignedPair, Tag;
    PairIs(a, b, amount, manager);
    var p := SignedPair(a, b, amount, manager);
    assert p == [p[0], p[1]];
    TwoLineSums(p[0], p[1]);
  }

  lemma ConcatBalances(a: seq<Line>, b: seq<Line>)
    requires (a == [] || Balanced(a)) && (b == [] || Balanced(b))
    ensures a + b == [] || Balanced(a + b)
  {
    SumsConcat(a, b);
    assert [] + b == b && a + [] == a;
  }

  /** Whatever the entry, what is posted is balanced line by line and as a whole, or nothing. */
  lemma PostedIsBalanced(e: Entry, hasPayment: bool, gross: int)
    requires e.kind != Unknown
    ensures var lines := LinesFor(e, hasPayment, gross).value; lines == [] || Balanced(lines)
  {
    hide SignedPair, Balanced;
    if e.amount != 0 {
      PairBalances(Cash, Wallet, e.amount, e.actor);
      PairBalances(CommissionExpense, Wallet, e.amount, e.actor);
      PairBalances(OwnerCapital, Wallet, e.amount, e.actor);
      PairBalances(Revenue, Wallet, e.amount, e.actor);
    }
    if gross != 0 {
      PairBalances(Cash, Revenue, gross, "");
    }
    if e.cost.Some? && e.cost.value != 0 {
      PairBalances(CostOfService, CostSuspense, e.cost.value, "");
    }
    ConcatBalances(MoneyLeg(e, hasPayment, gross), CostLeg(e));
  }

  // ---- reversal ----

  function Swapped(l: Line): Line {
    l.(debit := l.credit, credit := l.debit)
  }

  /** Each line with its sides swapped, as reverseJournal writes them. */
  function SwapSides(lines: seq<Line>): seq<Line> {
    seq(|lines|, i requires 0 <= i < |lines| => Swapped(lines[i]))
  }

  lemma {:induction false} SwapSums(lines: seq<Line>)
    ensures Debits(SwapSides(lines)) == Credits(lines) && Credits(SwapSides(lines)) == Debits(lines)
  {
    if lines != [] {
      SwapSums(lines[..|lines| - 1]);
      assert SwapSides(lines)[..|lines| - 1] == SwapSides(lines[..|lines| - 1]);
    }
  }

  /** Reversing a balanced entry gives a balanced entry. */
  lemma SwapBalances(lines: seq<Line>)
    requires Balanced(lines)
    ensures Balanced(SwapSides(lines))
  {
    SwapSums(lines);
    forall l | l in SwapSides(lines)
      ensures OneSided(l)
    {
      var i :| 0 <= i < |lines| && l == Swapped(lines[i]);
      assert lines[i] in lines;
    }
  }

  lemma SwapTwo(x: Line, y: Line)
    ensures SwapSides([x, y]) == [Swapped(x), Swapped(y)]
    ensures multiset(SwapSides([x, y])) == multiset([Swapped(y), Swapped(x)])
  {
    assert SwapSides([x, y]) == [Swapped(x), Swapped(y)];
  }

  lemma SwapConcat(a: seq<Line>, b: seq<Line>)
    ensures SwapSides(a + b) == SwapSides(a) + SwapSides(b)
    ensures multiset(SwapSides(a + b)) == multiset(SwapSides(a)) + multiset(SwapSides(b))
  {
    assert SwapSides(a + b) == SwapSides(a) + SwapSides(b);
  }

  lemma PairSwaps(a: Account, b: Account, amount: int, manager: string)
    requires amount != 0
    ensures multiset(SignedPair(a, b, -amount, manager)) == multiset(SwapSides(SignedPair(a, b, amount, manager)))
  {
    hide SignedPair, Tag, SwapSides;
    PairIs(a, b, amount, manager);
    PairIs(a, b, -amount, manager);
    var p, q := SignedPair(a, b, amount, manager), SignedPair(a, b, -amount, manager);
    SwapTwo(p[0], p[1]);
    assert p == [p[0], p[1]];
    assert q == [Swapped(p[1]), Swapped(p[0])];
  }

  /** The entry that undoes e: its amount and cost negated, under the kind its reversal is booked as. */
  function Negation(e: Entry, id: nat): Entry {
    e.(kind := if e.kind == TopUp then TopUp else Refund, amount := -e.amount, reverses := Some(id),
       cost := if e.cost.Some? then Some(-e.cost.value) else None)
  }

  predicate RenewalFamily(k: Kind) {
    k == Renewal || k == VoucherRedeem || k == Adjustment || k == ManualPayment || k == Discount
  }

  lemma NothingSwaps()
    ensures SwapSides([]) == []
  {
  }

  lemma MoneySwaps(e: Entry, id: nat, hasPayment: bool, gross: int)
    ensures multiset(MoneyLeg(Negation(e, id), hasPayment, -gross)) == multiset(SwapSides(MoneyLeg(e, hasPayment, gross)))
  {
    hide SignedPair, Swapped, SwapSides;
    NothingSwaps();
    if e.actor != "" && e.amount != 0 {
      PairSwaps(Revenue, Wallet, e.amount, e.actor);
    } else if hasPayment && gross != 0 {
      PairSwaps(Cash, Revenue, gross, "");
    }
  }

  lemma CostSwaps(e: Entry, id: nat)
    ensures multiset(CostLeg(Negation(e, id))) == multiset(SwapSides(CostLeg(e)))
  {
    hide SignedPair, Swapped, SwapSides;
    NothingSwaps();
    if e.cost.Some? && e.cost.value != 0 {
      PairSwaps(CostOfService, CostSuspense, e.cost.value, "");
    }
  }

  /** Negating an entry and its payment posts exactly the original lines with their sides swapped. */
  lemma ReversalSwapsSides(e: Entry, id: nat, hasPayment: bool, gross: int)
    requires e.kind == TopUp || RenewalFamily(e.kind)
    ensures var reversal := LinesFor(Negation(e, id), hasPayment, -gross).value;
            multiset(reversal) == multiset(SwapSides(LinesFor(e, hasPayment, gross).value))
  {
    hide SignedPair, Swapped, SwapSides, MoneyLeg, CostLeg;
    if e.kind == TopUp {
      NothingSwaps();
      if e.amount != 0 {
        PairSwaps(Cash, Wallet, e.amount, e.actor);
      }
    } else {
      MoneySwaps(e, id, hasPayment, gross);
      CostSwaps(e, id);
      var (m, c) := (MoneyLeg(e, hasPayment, gross), CostLeg(e));
      SwapConcat(m, c);
    }
  }

  // ---- the wallet subledger ----

  /** Credits less debits on one account tagged with one manager. */
  function WalletNet(lines: seq<Line>, manager: string): int {
    if lines == [] then 0
    else
      var l := lines[|lines| - 1];
      WalletNet(lines[..|lines| - 1], manager)
      + (if l.account == Wallet && l.manager == manager then l.credit - l.debit else 0)
  }

  lemma {:induction false} WalletConcat(a: seq<Line>, b: seq<Line>, manager: string)
    ensures WalletNet(a + b, manager) == WalletNet(a, manager) + WalletNet(b, manager)
    decreases |b|
  {
    if b == [] {
      assert a + b == a;
    } else {
      assert (a + b)[..|a + b| - 1] == a + b[..|b| - 1];
      WalletConcat(a, b[..|b| - 1], manager);
    }
  }

  lemma TwoLineWallet(x: Line, y: Line, manager: string)
    ensures WalletNet([x, y], manager) == (if x.account == Wallet && x.manager == manager then x.credit - x.debit else 0)
                                          + (if y.account == Wallet && y.manager == manager then y.credit - y.debit else 0)
  {
    assert [x, y][..1] == [x] && [x][..0] == [];
    assert WalletNet([x], manager) == if x.account == Wallet && x.manager == manager then x.credit - x.debit else 0;
  }

  lemma PairWallet(a: Account, b: Account, amount: int, actor: string, manager: string)
    requires a != Wallet
    ensures WalletNet(SignedPair(a, b, amount, actor), manager) == if b == Wallet && actor == manager then amount else 0
  {
    hide SignedPair, WalletNet;
    PairIs(a, b, amount, actor);
    var p := SignedPair(a, b, amount, actor);
    TwoLineWallet(p[0], p[1], manager);
    assert p == [p[0], p[1]];
  }

  /** The lines of an entry move the actor's wallet by exactly the entry's amount, and no one else's. */
  lemma EntryMovesWallet(e: Entry, hasPayment: bool, gross: int, manager: string)
    requires e.kind != Unknown && manager != ""
    ensures WalletNet(LinesFor(e, hasPayment, gross).value, manager) == if e.actor == manager then e.amount else 0
  {
    hide SignedPair, WalletNet;
    NoWallet(manager);
    PairWallet(Cash, Wallet, e.amount, e.actor, manager);
    PairWallet(CommissionExpense, Wallet, e.amount, e.actor, manager);
    PairWallet(OwnerCapital, Wallet, e.amount, e.actor, manager);
    PairWallet(Revenue, Wallet, e.amount, e.actor, manager);
    PairWallet(Cash, Revenue, gross, "", manager);
    if e.cost.Some? {
      PairWallet(CostOfService, CostSuspense, e.cost.value, "", manager);
    }
    WalletConcat(MoneyLeg(e, hasPayment, gross), CostLeg(e), manager);
  }

  lemma NoWallet(manager: string)
    ensures WalletNet([], manager) == 0
  {
  }

  // ---- one account ----

  /** Debits less credits on one account. */
  function AccountNet(lines: seq<Line>, account: Account): int {
    if lines == [] then 0
    else
      var l := lines[|lines| - 1];
      AccountNet(lines[..|lines| - 1], account) + (if l.account == account then l.debit - l.credit else 0)
  }

  lemma {:induction false} AccountConcat(a: seq<Line>, b: seq<Line>, account: Account)
    ensures AccountNet(a + b, account) == AccountNet(a, account) + AccountNet(b, account)
    ensures AccountNet([], account) == 0
    decreases |b|
  {
    if b == [] {
      assert a + b == a;
    } else {
      assert (a + b)[..|a + b| - 1] == a + b[..|b| - 1];
      AccountConcat(a, b[..|b| - 1], account);
    }
  }

  lemma TwoLineAccount(x: Line, y: Line, account: Account)
    ensures AccountNet([x, y], account) == (if x.account == account then x.debit - x.credit else 0)
                                           + (if y.account == account then y.debit - y.credit else 0)
  {
    assert [x, y][..1] == [x] && [x][..0] == [];
    assert AccountNet([x], account) == if x.account == account then x.debit - x.credit else 0;
  }

  /** A pair debits the first account and credits the second by its signed amount. */
  lemma PairAccount(a: Account, b: Account, amount: int, manager: string, account: Account)
    ensures AccountNet(SignedPair(a, b, amount, manager), account)
            == (if account == a then amount else 0) - (if account == b then amount else 0)
  {
    hide SignedPair, AccountNet;
    PairIs(a, b, amount, manager);
    var p := SignedPair(a, b, amount, manager);
    TwoLineAccount(p[0], p[1], account);
    assert p == [p[0], p[1]];
  }

  /** What an entry puts on each account. */
  function EntryNet(e: Entry, hasPayment: bool, gross: int, account: Account): int {
    var (cash, wallet) := (if account == Cash then 1 else 0, if account == Wallet then 1 else 0);
    match e.kind
    case TopUp => e.amount * (cash - wallet)
    case Commission => e.amount * ((if account == CommissionExpense then 1 else 0) - wallet)
    case Exchange => e.amount * ((if account == OwnerCapital then 1 else 0) - wallet)
    case Unknown => 0
    case _ =>
      var revenue := if account == Revenue then 1 else 0;
      (if e.actor != "" && e.amount != 0 then e.amount * (revenue - wallet)
       else if hasPayment then gross * (cash - revenue)
       else 0)
      + (if e.cost.Some? then e.cost.value * ((if account == CostOfService then 1 else 0) - (if account == CostSuspense then 1 else 0))
         else 0)
  }

  lemma LinesAccount(e: Entry, hasPayment: bool, gross: int, account: Account)
    requires e.kind != Unknown
    ensures AccountNet(LinesFor(e, hasPayment, gross).value, account) == EntryNet(e, hasPayment, gross, account)
  {
    hide SignedPair, AccountNet;
    AccountConcat([], [], account);
    PairAccount(Cash, Wallet, e.amount, e.actor, account);
    PairAccount(CommissionExpense, Wallet, e.amount, e.actor, account);
    PairAccount(OwnerCapital, Wallet, e.amount, e.actor, account);
    PairAccount(Revenue, Wallet, e.amount, e.actor, account);
    PairAccount(Cash, Revenue, gross, "", account);
    if e.cost.Some? {
      PairAccount(CostOfService, CostSuspense, e.cost.value, "", account);
    }
    AccountConcat(MoneyLeg(e, hasPayment, gross), CostLeg(e), account);
  }

  // ---- the cost pair ----

  predicate IsCost(l: Line) {
    l.account == CostOfService || l.account == CostSuspense
  }

  lemma PairAccounts(a: Account, b: Account, amount: int, manager: string)
    ensures var p := SignedPair(a, b, amount, manager);
            |p| == 2 && ((p[0].account == a && p[1].account == b) || (p[0].account == b && p[1].account == a))
  {
  }

  /** The documentation has the cost pair only beside a money leg; the code posts it alone exactly when there is
      a cost, no wallet movement and no payment. */
  lemma CostStandsAloneExactly(e: Entry, hasPayment: bool, gross: int)
    requires RenewalFamily(e.kind) || e.kind == Refund
    ensures var lines := LinesFor(e, hasPayment, gross).value;
            (lines != [] && forall l | l in lines :: IsCost(l))
            <==> (e.cost.Some? && e.cost.value != 0 && (e.actor == "" || e.amount == 0) && !(hasPayment && gross != 0))
  {
    hide SignedPair;
    var (m, c) := (MoneyLeg(e, hasPayment, gross), CostLeg(e));
    PairAccounts(Revenue, Wallet, e.amount, e.actor);
    PairAccounts(Cash, Revenue, gross, "");
    if e.cost.Some? {
      PairAccounts(CostOfService, CostSuspense, e.cost.value, "");
    }
    if m != [] {
      assert !IsCost(m[0]) && m[0] == (m + c)[0];
    } else {
      assert m + c == c;
    }
  }

  /** It does happen: a free plan with a recorded cost. */
  lemma FreePlanPostsCostAlone(subscriber: string, actor: string, cost: int)
    requires cost > 0
    ensures LinesFor(Entry(Renewal, 0, actor, subscriber, None, Some(cost)), true, 0)
         == Ok([Debit(CostOfService, cost, ""), Credit(CostSuspense, cost, "")])
  {
    var c := SignedPair(CostOfService, CostSuspense, cost, "");
    assert [] + c == c;
  }
}

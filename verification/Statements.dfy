/** Profit and loss and the balance sheet over a given set of journal lines
    (backend/internal/billing: statements.go, accounts_api.go), and exactly when the accounting
    equation holds of them. Dates are left out.
 */
module Statements {
  import opened Wrappers
  import J = Journal

  datatype Type = Asset | Liability | Equity | Revenue | Expense

  /** A row of the chart of accounts. */
  datatype Account = Account(code: J.Account, kind: Type, debitNormal: bool)

  datatype AccountBalance = AccountBalance(code: J.Account, kind: Type, debitNormal: bool, debit: int, credit: int) {
    /** Positive means more of what the account normally holds. */
    function Balance(): int {
      if debitNormal then debit - credit else credit - debit
    }

    function Net(): int {
      debit - credit
    }
  }

  datatype ProfitAndLoss = ProfitAndLoss(revenue: int, costOfService: int, commission: int, operating: int, depreciation: int) {
    function NetIncome(): int {
      revenue - costOfService - commission - operating - depreciation
    }
  }

  datatype BalanceSheet = BalanceSheet(assets: int, liabilities: int, capital: int, retained: int)

  /** The side an account of a type is created with. */
  function NormalDebit(kind: Type): bool {
    kind == Asset || kind == Expense
  }

  // ---- sums over lines ----

  function DebitsOn(lines: seq<J.Line>, code: J.Account): int {
    if lines == [] then 0
    else DebitsOn(lines[..|lines| - 1], code) + (if lines[|lines| - 1].account == code then lines[|lines| - 1].debit else 0)
  }

  function CreditsOn(lines: seq<J.Line>, code: J.Account): int {
    if lines == [] then 0
    else CreditsOn(lines[..|lines| - 1], code) + (if lines[|lines| - 1].account == code then lines[|lines| - 1].credit else 0)
  }

  function BalanceOf(a: Account, lines: seq<J.Line>): AccountBalance {
    AccountBalance(a.code, a.kind, a.debitNormal, DebitsOn(lines, a.code), CreditsOn(lines, a.code))
  }

  /** Every account of the chart with its debit and credit totals. */
  method TrialBalance(chart: seq<Account>, lines: seq<J.Line>) returns (r: seq<AccountBalance>)
    ensures |r| == |chart| && forall i | 0 <= i < |chart| :: r[i] == BalanceOf(chart[i], lines)
  {
    r := [];
    for i := 0 to |chart|
      invariant |r| == i && forall j | 0 <= j < i :: r[j] == BalanceOf(chart[j], lines)
    {
      var debit, credit := 0, 0;
      for k := 0 to |lines|
        invariant debit == DebitsOn(lines[..k], chart[i].code) && credit == CreditsOn(lines[..k], chart[i].code)
      {
        assert lines[..k + 1][..k] == lines[..k];
        if lines[k].account == chart[i].code {
          debit, credit := debit + lines[k].debit, credit + lines[k].credit;
        }
      }
      assert lines[..|lines|] == lines;
      r := r + [AccountBalance(chart[i].code, chart[i].kind, chart[i].debitNormal, debit, credit)];
    }
  }

  // ---- the two statements ----

  predicate InProfitAndLoss(b: AccountBalance) {
    b.kind == Revenue || b.kind == Expense
  }

  /** What one account adds to net income: the accounts are picked by code. */
  function IncomeShare(b: AccountBalance): int {
    if !InProfitAndLoss(b) then 0
    else
      match b.code
      case Revenue | OtherRevenue => b.Balance()
      case CostOfService | CommissionExpense | OperatingExpense | DepreciationExpense => -b.Balance()
      case _ => 0
  }

  function Income(bs: seq<AccountBalance>): int {
    if bs == [] then 0 else Income(bs[..|bs| - 1]) + IncomeShare(bs[|bs| - 1])
  }

  /** The sum of the balances of one type. */
  function TypeTotal(bs: seq<AccountBalance>, kind: Type): int {
    if bs == [] then 0 else TypeTotal(bs[..|bs| - 1], kind) + (if bs[|bs| - 1].kind == kind then bs[|bs| - 1].Balance() else 0)
  }

  /** The balances kept under one code of the profit-and-loss types. */
  function CodeTotal(bs: seq<AccountBalance>, code: J.Account): int {
    if bs == [] then 0
    else
      var b := bs[|bs| - 1];
      CodeTotal(bs[..|bs| - 1], code) + (if InProfitAndLoss(b) && b.code == code then b.Balance() else 0)
  }

  /** Each figure is the total of its codes, whatever the order of the accounts. */
  predicate Figures(pl: ProfitAndLoss, bs: seq<AccountBalance>) {
    && pl.revenue == CodeTotal(bs, J.Account.Revenue) + CodeTotal(bs, J.OtherRevenue)
    && pl.costOfService == CodeTotal(bs, J.CostOfService)
    && pl.commission == CodeTotal(bs, J.CommissionExpense)
    && pl.operating == CodeTotal(bs, J.OperatingExpense)
    && pl.depreciation == CodeTotal(bs, J.DepreciationExpense)
  }

  /** One more account moves the total of its own code and no other. */
  lemma CodeTotalSnoc(bs: seq<AccountBalance>, i: nat, code: J.Account)
    requires i < |bs|
    ensures CodeTotal(bs[..i + 1], code)
         == CodeTotal(bs[..i], code) + (if InProfitAndLoss(bs[i]) && bs[i].code == code then bs[i].Balance() else 0)
  {
    assert bs[..i + 1][..i] == bs[..i];
  }

  lemma NothingTotals()
    ensures forall code :: CodeTotal([], code) == 0
  {
  }

  /** Net income is what is left of the figures. */
  lemma {:induction false} IncomeIsFigures(bs: seq<AccountBalance>)
    ensures Income(bs) == CodeTotal(bs, J.Account.Revenue) + CodeTotal(bs, J.OtherRevenue) - CodeTotal(bs, J.CostOfService)
                          - CodeTotal(bs, J.CommissionExpense) - CodeTotal(bs, J.OperatingExpense) - CodeTotal(bs, J.DepreciationExpense)
  {
    if bs != [] {
      IncomeIsFigures(bs[..|bs| - 1]);
      hide InProfitAndLoss, AccountBalance.Balance;
    }
  }

  method ComputeProfitAndLoss(balances: seq<AccountBalance>) returns (pl: ProfitAndLoss)
    ensures pl.NetIncome() == Income(balances)
    ensures Figures(pl, balances)
  {
    hide CodeTotal, Income, AccountBalance.Balance;
    NothingTotals();
    pl := ProfitAndLoss(0, 0, 0, 0, 0);
    for i := 0 to |balances|
      invariant Figures(pl, balances[..i])
    {
      var b := balances[i];
      forall code {
        CodeTotalSnoc(balances, i, code);
      }
      if InProfitAndLoss(b) {
        match b.code {
          case Revenue => pl := pl.(revenue := pl.revenue + b.Balance());
          case OtherRevenue => pl := pl.(revenue := pl.revenue + b.Balance());
          case CostOfService => pl := pl.(costOfService := pl.costOfService + b.Balance());
          case CommissionExpense => pl := pl.(commission := pl.commission + b.Balance());
          case OperatingExpense => pl := pl.(operating := pl.operating + b.Balance());
          case DepreciationExpense => pl := pl.(depreciation := pl.depreciation + b.Balance());
          case _ =>
        }
      }
    }
    assert balances[..|balances|] == balances;
    IncomeIsFigures(balances);
  }

  method ComputeBalanceSheet(chart: seq<Account>, lines: seq<J.Line>) returns (s: BalanceSheet)
    ensures s == Sheet(chart, lines)
  {
    var balances := TrialBalance(chart, lines);
    assert balances == Balances(chart, lines);
    s := BalanceSheet(0, 0, 0, 0);
    for i := 0 to |balances|
      invariant s == BalanceSheet(TypeTotal(balances[..i], Asset), TypeTotal(balances[..i], Liability), TypeTotal(balances[..i], Equity), 0)
    {
      assert balances[..i + 1][..i] == balances[..i];
      var b := balances[i];
      match b.kind {
        case Asset => s := s.(assets := s.assets + b.Balance());
        case Liability => s := s.(liabilities := s.liabilities + b.Balance());
        case Equity => s := s.(capital := s.capital + b.Balance());
        case _ =>
      }
    }
    assert balances[..|balances|] == balances;
    var pl := ComputeProfitAndLoss(balances);
    s := s.(retained := pl.NetIncome());
  }

  function Balances(chart: seq<Account>, lines: seq<J.Line>): seq<AccountBalance> {
    seq(|chart|, i requires 0 <= i < |chart| => BalanceOf(chart[i], lines))
  }

  function Sheet(chart: seq<Account>, lines: seq<J.Line>): BalanceSheet {
    var bs := Balances(chart, lines);
    BalanceSheet(TypeTotal(bs, Asset), TypeTotal(bs, Liability), TypeTotal(bs, Equity), Income(bs))
  }

  /** Assets less liabilities, capital and net income: zero when the accounting equation holds. */
  function Gap(s: BalanceSheet): int {
    s.assets - (s.liabilities + s.capital + s.retained)
  }

  // ---- exactly when it holds ----

  predicate IsIncomeCode(code: J.Account) {
    code.Revenue? || code.OtherRevenue?
  }

  predicate IsCostCode(code: J.Account) {
    code.CostOfService? || code.CommissionExpense? || code.OperatingExpense? || code.DepreciationExpense?
  }

  /** The package's own revenue and expense codes have the types they are seeded with. */
  predicate CodesTyped(chart: seq<Account>) {
    forall a | a in chart :: (IsIncomeCode(a.code) ==> a.kind == Revenue) && (IsCostCode(a.code) ==> a.kind == Expense)
  }

  ghost predicate Distinct(chart: seq<Account>) {
    forall i, j | 0 <= i < j < |chart| :: chart[i].code != chart[j].code
  }

  ghost predicate Covers(chart: seq<Account>, lines: seq<J.Line>) {
    forall l | l in lines :: exists a | a in chart :: a.code == l.account
  }

  /** What one account takes out of the equation: twice its balance when its side is not that of its
      type, all of it when it is revenue or expense under a code the statements do not know. */
  function Skew(b: AccountBalance): int {
    if InProfitAndLoss(b) && !IsIncomeCode(b.code) && !IsCostCode(b.code) then b.Net()
    else if b.debitNormal != NormalDebit(b.kind) then 2 * b.Net()
    else 0
  }

  function TotalSkew(bs: seq<AccountBalance>): int {
    if bs == [] then 0 else TotalSkew(bs[..|bs| - 1]) + Skew(bs[|bs| - 1])
  }

  function TotalNet(bs: seq<AccountBalance>): int {
    if bs == [] then 0 else TotalNet(bs[..|bs| - 1]) + bs[|bs| - 1].Net()
  }

  /** One account's part of the gap. */
  lemma ShareOf(b: AccountBalance)
    requires IsIncomeCode(b.code) ==> b.kind == Revenue
    requires IsCostCode(b.code) ==> b.kind == Expense
    ensures (match b.kind
             case Asset => b.Balance()
             case Liability => -b.Balance()
             case Equity => -b.Balance()
             case _ => -IncomeShare(b)) == b.Net() - Skew(b)
  {
  }

  lemma {:induction false} GapByAccount(bs: seq<AccountBalance>)
    requires forall b | b in bs :: (IsIncomeCode(b.code) ==> b.kind == Revenue) && (IsCostCode(b.code) ==> b.kind == Expense)
    ensures TypeTotal(bs, Asset) - TypeTotal(bs, Liability) - TypeTotal(bs, Equity) - Income(bs) == TotalNet(bs) - TotalSkew(bs)
  {
    hide Skew, IsIncomeCode, IsCostCode;
    if bs != [] {
      var b := bs[|bs| - 1];
      assert b in bs;
      GapByAccount(bs[..|bs| - 1]);
      ShareOf(b);
    }
  }

  /** The net of the lines on the accounts of a chart. */
  function ChartNet(chart: seq<Account>, lines: seq<J.Line>): int {
    TotalNet(Balances(chart, lines))
  }

  lemma {:induction false} ChartNetSnoc(chart: seq<Account>, lines: seq<J.Line>, l: J.Line)
    requires Distinct(chart)
    ensures ChartNet(chart, lines + [l]) ==
            ChartNet(chart, lines) + (if exists a | a in chart :: a.code == l.account then l.debit - l.credit else 0)
    decreases |chart|
  {
    if chart == [] {
      assert Balances(chart, lines) == [] && Balances(chart, lines + [l]) == [];
    } else {
      var (front, a) := (chart[..|chart| - 1], chart[|chart| - 1]);
      BalancesFront(chart, lines);
      BalancesFront(chart, lines + [l]);
      ChartNetSnoc(front, lines, l);
      OnSnoc(lines, l, a.code);
      assert chart == front + [a];
      if a.code == l.account {
        assert a in chart;
        assert forall b | b in front :: b.code != a.code;
      }
    }
  }

  lemma OnSnoc(lines: seq<J.Line>, l: J.Line, code: J.Account)
    ensures DebitsOn(lines + [l], code) == DebitsOn(lines, code) + (if l.account == code then l.debit else 0)
    ensures CreditsOn(lines + [l], code) == CreditsOn(lines, code) + (if l.account == code then l.credit else 0)
  {
    assert (lines + [l])[..|lines|] == lines;
  }

  lemma BalancesFront(chart: seq<Account>, lines: seq<J.Line>)
    requires chart != []
    ensures var n := |chart| - 1;
            Balances(chart, lines)[..n] == Balances(chart[..n], lines)
            && TotalNet(Balances(chart, lines)) == TotalNet(Balances(chart[..n], lines)) + BalanceOf(chart[n], lines).Net()
  {
    assert Balances(chart, lines)[..|chart| - 1] == Balances(chart[..|chart| - 1], lines);
  }

  lemma {:induction false} ChartNetIsAll(chart: seq<Account>, lines: seq<J.Line>)
    requires Distinct(chart) && Covers(chart, lines)
    ensures ChartNet(chart, lines) == J.Debits(lines) - J.Credits(lines)
    decreases |lines|
  {
    hide ChartNet;
    if lines == [] {
      EmptyNets(chart);
    } else {
      var (front, l) := (lines[..|lines| - 1], lines[|lines| - 1]);
      assert lines == front + [l] && l in lines;
      ChartNetIsAll(chart, front);
      ChartNetSnoc(chart, front, l);
    }
  }

  lemma {:induction false} EmptyNets(chart: seq<Account>)
    ensures ChartNet(chart, []) == 0
    decreases |chart|
  {
    if chart == [] {
      assert Balances(chart, []) == [];
    } else {
      BalancesFront(chart, []);
      EmptyNets(chart[..|chart| - 1]);
    }
  }

  /** For every chart and every balanced set of lines the balance sheet is off by exactly the skew; the
      accounting equation holds if and only if the skew is zero. */
  lemma AccountingEquationExactly(chart: seq<Account>, lines: seq<J.Line>)
    requires Distinct(chart) && CodesTyped(chart) && Covers(chart, lines)
    requires J.Debits(lines) == J.Credits(lines)
    ensures Gap(Sheet(chart, lines)) == -TotalSkew(Balances(chart, lines))
    ensures Gap(Sheet(chart, lines)) == 0 <==> TotalSkew(Balances(chart, lines)) == 0
  {
    hide TypeTotal, Income, TotalSkew, TotalNet, IsIncomeCode, IsCostCode;
    var bs := Balances(chart, lines);
    forall b | b in bs
      ensures (IsIncomeCode(b.code) ==> b.kind == Revenue) && (IsCostCode(b.code) ==> b.kind == Expense)
    {
      var i :| 0 <= i < |chart| && b == BalanceOf(chart[i], lines);
      assert chart[i] in chart;
    }
    GapByAccount(bs);
    ChartNetIsAll(chart, lines);
  }

  /** Each account on the side of its type, and nothing posted to unknown revenue or expense codes. */
  predicate Conventional(a: Account) {
    && a.debitNormal == NormalDebit(a.kind)
    && (a.kind == Revenue || a.kind == Expense ==> IsIncomeCode(a.code) || IsCostCode(a.code))
  }

  lemma {:induction false} NoSkew(bs: seq<AccountBalance>)
    requires forall b | b in bs :: Skew(b) == 0
    ensures TotalSkew(bs) == 0
  {
    if bs != [] {
      assert bs[|bs| - 1] in bs;
      NoSkew(bs[..|bs| - 1]);
    }
  }

  /** With a conventional chart the equation always holds. */
  lemma ConventionalChartsBalance(chart: seq<Account>, lines: seq<J.Line>)
    requires Distinct(chart) && CodesTyped(chart) && Covers(chart, lines) && forall a | a in chart :: Conventional(a)
    requires J.Debits(lines) == J.Credits(lines)
    ensures Gap(Sheet(chart, lines)) == 0
  {
    hide TotalSkew, Gap, Sheet;
    var bs := Balances(chart, lines);
    forall b | b in bs
      ensures Skew(b) == 0
    {
      var i :| 0 <= i < |chart| && b == BalanceOf(chart[i], lines);
      assert chart[i] in chart;
    }
    NoSkew(bs);
    AccountingEquationExactly(chart, lines);
  }

  /** Conventional but for one account of a balance-sheet type that is kept on the other side. */
  predicate ConventionalBut(chart: seq<Account>, k: nat) {
    && k < |chart| && (chart[k].kind == Asset || chart[k].kind == Liability || chart[k].kind == Equity)
    && chart[k].debitNormal != NormalDebit(chart[k].kind)
    && (forall i | 0 <= i < |chart| && i != k :: Conventional(chart[i]))
  }

  lemma {:induction false} OneSkew(bs: seq<AccountBalance>, k: nat)
    requires k < |bs| && forall i | 0 <= i < |bs| && i != k :: Skew(bs[i]) == 0
    ensures TotalSkew(bs) == Skew(bs[k])
  {
    var last := |bs| - 1;
    if k < last {
      OneSkew(bs[..last], k);
    } else {
      forall b | b in bs[..last]
        ensures Skew(b) == 0
      {
        var i :| 0 <= i < last && b == bs[i];
      }
      NoSkew(bs[..last]);
    }
  }

  /** Then the sheet is off by twice that account's balance: the shipped chart keeps Accumulated Depreciation as
      an asset with a credit balance, and adds it to the assets instead of taking it off. */
  lemma ContraAccountCountsTwice(chart: seq<Account>, lines: seq<J.Line>, k: nat)
    requires Distinct(chart) && CodesTyped(chart) && Covers(chart, lines) && ConventionalBut(chart, k)
    requires J.Debits(lines) == J.Credits(lines)
    ensures Gap(Sheet(chart, lines)) == 2 * (CreditsOn(lines, chart[k].code) - DebitsOn(lines, chart[k].code))
  {
    hide TotalSkew, Gap, Sheet;
    var bs := Balances(chart, lines);
    forall i | 0 <= i < |bs| && i != k
      ensures Skew(bs[i]) == 0
    {
      assert Conventional(chart[i]) && bs[i] == BalanceOf(chart[i], lines);
    }
    OneSkew(bs, k);
    assert chart[k] in chart;
    AccountingEquationExactly(chart, lines);
  }

  /** The seeded codes in their order, and the row each gets. */
  const CODES: seq<J.Account> := [
    J.Cash, J.Bank, J.Receivable, J.FixedAssets, J.AccumDepreciation, J.Payable, J.Wallet, J.CostSuspense,
    J.OwnerCapital, J.RetainedEarnings, J.Account.Revenue, J.OtherRevenue,
    J.CostOfService, J.CommissionExpense, J.OperatingExpense, J.DepreciationExpense]

  function KindOf(code: J.Account): Type {
    match code
    case Cash | Bank | Receivable | FixedAssets | AccumDepreciation => Asset
    case Payable | Wallet | CostSuspense => Liability
    case OwnerCapital | RetainedEarnings => Equity
    case Revenue | OtherRevenue => Revenue
    case _ => Expense
  }

  /** Accumulated depreciation is the one account on the other side. */
  function Seeded(code: J.Account): Account {
    Account(code, KindOf(code), NormalDebit(KindOf(code)) && !code.AccumDepreciation?)
  }

  /** The chart as seeded. */
  function Seed(): (chart: seq<Account>)
    ensures |chart| == |CODES| && forall i | 0 <= i < |CODES| :: chart[i] == Seeded(CODES[i])
  {
    seq(|CODES|, i requires 0 <= i < |CODES| => Seeded(CODES[i]))
  }

  function Position(code: J.Account): nat {
    match code
    case Cash => 0 case Bank => 1 case Receivable => 2 case FixedAssets => 3 case AccumDepreciation => 4
    case Payable => 5 case Wallet => 6 case CostSuspense => 7 case OwnerCapital => 8 case RetainedEarnings => 9
    case Revenue => 10 case OtherRevenue => 11 case CostOfService => 12 case CommissionExpense => 13
    case OperatingExpense => 14 case DepreciationExpense => 15 case Custom(_) => 16
  }

  lemma CodePositions(code: J.Account, i: nat)
    requires i < |CODES|
    ensures Position(CODES[i]) == i && !CODES[i].Custom?
    ensures !code.Custom? ==> Position(code) < |CODES| && CODES[Position(code)] == code
  {
  }

  lemma SeededRow(code: J.Account)
    requires !code.Custom?
    ensures (IsIncomeCode(code) ==> KindOf(code) == Revenue) && (IsCostCode(code) ==> KindOf(code) == Expense)
    ensures code.AccumDepreciation? || Conventional(Seeded(code))
  {
  }

  lemma SeedIsConventionalButOne()
    ensures Distinct(Seed()) && CodesTyped(Seed()) && ConventionalBut(Seed(), 4)
  {
    hide Seed, Position, Conventional, KindOf, IsIncomeCode, IsCostCode;
    forall i | 0 <= i < |CODES|
      ensures Position(CODES[i]) == i
      ensures (IsIncomeCode(CODES[i]) ==> KindOf(CODES[i]) == Revenue) && (IsCostCode(CODES[i]) ==> KindOf(CODES[i]) == Expense)
      ensures i == 4 || Conventional(Seeded(CODES[i]))
    {
      CodePositions(CODES[i], i);
      CodePositions(J.AccumDepreciation, 4);
      SeededRow(CODES[i]);
    }
    SkewedRow();
  }

  lemma SkewedRow()
    ensures Position(J.AccumDepreciation) == 4 && CODES[4] == J.AccumDepreciation
    ensures KindOf(J.AccumDepreciation) == Asset
  {
  }

  lemma SeedCovers(lines: seq<J.Line>)
    requires forall l | l in lines :: !l.account.Custom?
    ensures Covers(Seed(), lines)
  {
    hide Seed, Position;
    forall l | l in lines
      ensures exists a | a in Seed() :: a.code == l.account
    {
      CodePositions(l.account, 0);
      assert Seed()[Position(l.account)] in Seed();
    }
  }

  /** With the shipped chart and its codes, the equation holds exactly when no depreciation has accumulated. */
  lemma SeededChartBalancesExactly(lines: seq<J.Line>)
    requires forall l | l in lines :: !l.account.Custom?
    requires J.Debits(lines) == J.Credits(lines)
    ensures Gap(Sheet(Seed(), lines)) == 2 * (CreditsOn(lines, J.AccumDepreciation) - DebitsOn(lines, J.AccumDepreciation))
  {
    hide Distinct, CodesTyped, ConventionalBut, Covers, Gap, Sheet, Seed;
    SeedIsConventionalButOne();
    SeedCovers(lines);
    SkewedRow();
    ContraAccountCountsTwice(Seed(), lines, 4);
  }

  /** One month's depreciation of n, as it is posted, puts the sheet off by 2n. */
  lemma DepreciationUnbalances(n: int)
    requires n > 0
    ensures var lines := [J.Line(J.DepreciationExpense, n, 0, "", ""), J.Line(J.AccumDepreciation, 0, n, "", "")];
            J.Balanced(lines) && Gap(Sheet(Seed(), lines)) == 2 * n
  {
    hide Gap, Sheet;
    var (x, y) := (J.Line(J.DepreciationExpense, n, 0, "", ""), J.Line(J.AccumDepreciation, 0, n, "", ""));
    J.TwoLineSums(x, y);
    OnSnoc([x], y, J.AccumDepreciation);
    OnSnoc([], x, J.AccumDepreciation);
    assert [] + [x] == [x] && [x] + [y] == [x, y];
    SeededChartBalancesExactly([x, y]);
  }
}

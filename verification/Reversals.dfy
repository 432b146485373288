/** What reversing a row comes to (backend/internal/billing: refund.go, undo.go, tickets.go, renew.go):
    which rows a balance is left with, what is left in the journal, and where an expiry goes. Refunds and
    undos cancel their original; a rejection cancels nothing by itself.
 */
module Reversals {
  import opened Wrappers
  import J = Journal
  import opened LedgerPaths
  import opened LedgerMachine
  import opened LedgerDiscipline
  import opened LedgerInvariant
  import opened LedgerSafety

  // ---- balances ----

  predicate Reversed(ledger: seq<Row>, i: nat) {
    exists j | 0 <= j < |ledger| :: ledger[j].entry.reverses == Some(i)
  }

  /** What row i is worth to a manager: nothing when it is a reversal or has been reversed. */
  function LiveAmount(ledger: seq<Row>, i: nat, m: string): int
    requires i < |ledger|
  {
    if ledger[i].entry.reverses.Some? || Reversed(ledger, i) then 0 else AmountFor(ledger[i], m)
  }

  /** The sum of the first n rows counting only unreversed originals. */
  function LiveSum(ledger: seq<Row>, n: nat, m: string): int
    requires n <= |ledger|
  {
    if n == 0 then 0 else LiveSum(ledger, n - 1, m) + LiveAmount(ledger, n - 1, m)
  }

  lemma ReversedSnoc(ledger: seq<Row>, row: Row, i: nat)
    ensures Reversed(ledger + [row], i) <==> Reversed(ledger, i) || row.entry.reverses == Some(i)
  {
    if Reversed(ledger, i) {
      var j :| 0 <= j < |ledger| && ledger[j].entry.reverses == Some(i);
      assert (ledger + [row])[j].entry.reverses == Some(i);
    }
    if row.entry.reverses == Some(i) {
      assert (ledger + [row])[|ledger|].entry.reverses == Some(i);
    }
  }

  /** Appending a row takes away exactly what it reverses. */
  lemma {:induction false} LiveSnoc(ledger: seq<Row>, row: Row, n: nat, m: string)
    requires n <= |ledger|
    requires row.entry.reverses.Some? ==> !Reversed(ledger, row.entry.reverses.value)
    ensures LiveSum(ledger + [row], n, m) ==
            LiveSum(ledger, n, m)
            - (if row.entry.reverses.Some? && row.entry.reverses.value < n && ledger[row.entry.reverses.value].entry.reverses.None?
               then AmountFor(ledger[row.entry.reverses.value], m) else 0)
    decreases n
  {
    hide Reversed;
    if n > 0 {
      LiveSnoc(ledger, row, n - 1, m);
      ReversedSnoc(ledger, row, n - 1);
    }
  }

  /** What a rejection leaves behind: the amount of the row it was aimed at. */
  function RejectedAmount(ledger: seq<Row>, j: nat, m: string): int
    requires j < |ledger|
  {
    var reverses := ledger[j].entry.reverses;
    if reverses.Some? && reverses.value < |ledger| && Rejecting(ledger[reverses.value], ledger[j])
    then AmountFor(ledger[reverses.value], m) else 0
  }

  function RejectedSum(ledger: seq<Row>, n: nat, m: string): int
    requires n <= |ledger|
  {
    if n == 0 then 0 else RejectedSum(ledger, n - 1, m) + RejectedAmount(ledger, n - 1, m)
  }

  lemma {:induction false} RejectedSnoc(ledger: seq<Row>, row: Row, n: nat, m: string)
    requires n <= |ledger| && InOrder(ledger)
    ensures RejectedSum(ledger + [row], n, m) == RejectedSum(ledger, n, m)
  {
    hide Undoes, WellFormed, Rejecting;
    if n > 0 {
      RejectedSnoc(ledger, row, n - 1, m);
      assert Grounded(ledger[..n - 1], ledger[n - 1]);
    }
  }

  /** A refund or an undo takes back its original's amount; a rejection takes back nothing. */
  lemma UndoesAmount(original: Row, id: nat, row: Row, m: string)
    requires Undoes(original, id, row)
    ensures AmountFor(row, m) == if Rejecting(original, row) then 0 else -AmountFor(original, m)
  {
  }

  lemma TargetIsUnreversed(ledger: seq<Row>, row: Row)
    requires Unique(ledger + [row]) && row.entry.reverses.Some?
    ensures !Reversed(ledger, row.entry.reverses.value)
  {
    var all := ledger + [row];
    forall j | 0 <= j < |ledger|
      ensures ledger[j].entry.reverses != row.entry.reverses
    {
      assert Claims(all[j]) !! Claims(all[|ledger|]);
    }
  }

  lemma NothingPointsAhead(ledger: seq<Row>)
    requires InOrder(ledger)
    ensures !Reversed(ledger, |ledger|)
  {
    forall j | 0 <= j < |ledger|
      ensures ledger[j].entry.reverses != Some(|ledger|)
    {
      assert Grounded(ledger[..j], ledger[j]);
    }
  }

  lemma PrefixKeeps(ledger: seq<Row>, row: Row)
    requires Unique(ledger + [row]) && InOrder(ledger + [row])
    ensures Unique(ledger) && InOrder(ledger) && Grounded(ledger, row)
  {
    hide Claims, Grounded;
    var all := ledger + [row];
    forall i, j | 0 <= i < j < |ledger|
      ensures Claims(ledger[i]) !! Claims(ledger[j])
    {
      assert Claims(all[i]) !! Claims(all[j]);
    }
    forall j | 0 <= j < |ledger|
      ensures Grounded(ledger[..j], ledger[j])
    {
      assert Grounded(all[..j], all[j]);
      assert all[..j] == ledger[..j];
    }
    assert Grounded(all[..|ledger|], all[|ledger|]);
    assert all[..|ledger|] == ledger;
  }

  lemma {:induction false} SumIsLive(ledger: seq<Row>, m: string)
    requires Unique(ledger) && InOrder(ledger)
    ensures Sum(ledger, m) == LiveSum(ledger, |ledger|, m) + RejectedSum(ledger, |ledger|, m)
  {
    hide Unique, InOrder, Reversed, Undoes, WellFormed, Rejecting;
    if ledger != [] {
      var (front, row) := (ledger[..|ledger| - 1], ledger[|ledger| - 1]);
      assert ledger == front + [row];
      PrefixKeeps(front, row);
      SumIsLive(front, m);
      SumSnoc(front, row, m);
      if row.entry.reverses.Some? {
        TargetIsUnreversed(front, row);
        UndoesAmount(front[row.entry.reverses.value], row.entry.reverses.value, row, m);
      }
      LiveSnoc(front, row, |front|, m);
      RejectedSnoc(front, row, |front|, m);
      NothingPointsAhead(ledger);
      NothingPointsAhead(front);
      ReversedSnoc(front, row, |front|);
    }
  }

  /** In every run each manager's balance is the sum of that manager's unreversed original rows and of the rows
      that were only rejected; a rejection of a row that moved nothing - a ticket's own trial - adds nothing. */
  lemma BalanceIsLiveRows(events: seq<Event>, m: string)
    requires m != ""
    ensures var db := Run(events).db;
            && Lookup(db.balances, m) == LiveSum(db.ledger, |db.ledger|, m) + RejectedSum(db.ledger, |db.ledger|, m)
            && ((forall j | 0 <= j < |db.ledger| :: RejectedAmount(db.ledger, j, m) == 0)
                ==> Lookup(db.balances, m) == LiveSum(db.ledger, |db.ledger|, m))
  {
    hide Run, Lookup, Sum, LiveSum, RejectedSum, RejectedAmount, Unique, InOrder, Exclusive, AnswersStored, TxInv, JournalMirrors, ResponsesNameRows;
    Reachable(events);
    var ledger := Run(events).db.ledger;
    SumIsLive(ledger, m);
    CacheEqualsLedger(events, m);
    if forall j | 0 <= j < |ledger| :: RejectedAmount(ledger, j, m) == 0 {
      NothingRejected(ledger, |ledger|, m);
    }
  }

  lemma {:induction false} NothingRejected(ledger: seq<Row>, n: nat, m: string)
    requires n <= |ledger| && forall j | 0 <= j < |ledger| :: RejectedAmount(ledger, j, m) == 0
    ensures RejectedSum(ledger, n, m) == 0
  {
    hide RejectedAmount;
    if n > 0 {
      NothingRejected(ledger, n - 1, m);
    }
  }

  /** And no reversal is itself reversed. */
  lemma ReversalsAreFinal(events: seq<Event>, i: nat)
    requires i < |Run(events).db.ledger| && Run(events).db.ledger[i].entry.reverses.Some?
    ensures !Reversed(Run(events).db.ledger, i)
  {
    hide Run, Exclusive, AnswersStored, TxInv, JournalMirrors, ResponsesNameRows, CacheIsSum, Unique;
    Reachable(events);
    var ledger := Run(events).db.ledger;
    forall j | 0 <= j < |ledger|
      ensures ledger[j].entry.reverses != Some(i)
    {
      assert Grounded(ledger[..j], ledger[j]);
    }
  }

  // ---- the journal ----

  /** In every run each account of the journal carries exactly the lines the rows stand for. */
  lemma JournalIsRows(events: seq<Event>, account: J.Account)
    ensures var db := Run(events).db; J.AccountNet(db.journal, account) == BooksSum(db.ledger, account)
  {
    hide Run, BooksSum, J.AccountNet, Exclusive, AnswersStored, TxInv, CacheIsSum, Unique, InOrder, ResponsesNameRows;
    Reachable(events);
  }

  /** What a row and its reversal leave on an account. */
  function Left(original: Row, row: Row, account: J.Account): int {
    J.AccountNet(RowLines(original), account) + J.AccountNet(RowLines(row), account)
  }

  lemma RowAccount(row: Row, account: J.Account)
    requires row.posted && row.entry.kind != J.Unknown
    ensures J.AccountNet(RowLines(row), account) == J.EntryNet(row.entry, true, row.gross, account)
  {
    hide J.AccountNet, J.EntryNet, J.MoneyLeg, J.CostLeg;
    J.LinesAccount(row.entry, true, row.gross, account);
  }

  lemma NegatedAccount(original: Row, id: nat, row: Row, account: J.Account)
    requires || (J.RenewalFamily(original.entry.kind) && row == RefundRow(original, id))
             || (original.entry.kind == J.TopUp && row == UndoRow(original, id))
    ensures J.EntryNet(row.entry, true, row.gross, account) == -J.EntryNet(original.entry, true, original.gross, account)
  {
  }

  lemma CancelsWhenUndone(original: Row, id: nat, row: Row, account: J.Account)
    requires WellFormed(original) && original.entry.reverses.None? && Undoes(original, id, row) && !Rejecting(original, row)
    ensures Left(original, row, account) == 0
  {
    hide RowLines, J.AccountNet, J.EntryNet;
    RowAccount(original, account);
    RowAccount(row, account);
    NegatedAccount(original, id, row, account);
  }

  /** A posted renewal leaves no trace on any account only if nothing was posted. */
  lemma TracelessIsEmpty(original: Row)
    requires J.RenewalFamily(original.entry.kind) && original.posted
    requires forall a :: J.EntryNet(original.entry, true, original.gross, a) == 0
    ensures RowLines(original) == []
  {
    hide J.SignedPair;
    var e := original.entry;
    assert J.EntryNet(e, true, original.gross, J.Wallet) == 0;
    assert J.EntryNet(e, true, original.gross, J.Cash) == 0;
    assert J.EntryNet(e, true, original.gross, J.CostOfService) == 0;
  }

  lemma RejectionLeaves(original: Row, row: Row)
    requires WellFormed(original) && original.entry.reverses.None? && Rejecting(original, row)
    ensures (forall a :: Left(original, row, a) == 0) <==> RowLines(original) == []
  {
    hide J.EntryNet;
    assert RowLines(row) == [] && forall a :: J.AccountNet([], a) == 0;
    if forall a :: Left(original, row, a) == 0 {
      forall a
        ensures J.EntryNet(original.entry, true, original.gross, a) == 0
      {
        RowAccount(original, a);
        assert Left(original, row, a) == 0;
      }
      TracelessIsEmpty(original);
    }
  }

  /** In every run a row and its reversal cancel on every account of the journal, except that a rejection
      cancels exactly a row for which nothing was posted. */
  lemma ReversalCancelsExactly(events: seq<Event>, i: nat, j: nat)
    requires i < |Run(events).db.ledger| && j < |Run(events).db.ledger|
    requires Run(events).db.ledger[j].entry.reverses == Some(i)
    ensures var (original, row) := (Run(events).db.ledger[i], Run(events).db.ledger[j]);
            (forall a :: Left(original, row, a) == 0) <==> !Rejecting(original, row) || RowLines(original) == []
  {
    hide Run, Exclusive, AnswersStored, TxInv, CacheIsSum, Unique, JournalMirrors, ResponsesNameRows, Left, RowLines, WellFormed, Undoes, Rejecting;
    Reachable(events);
    var ledger := Run(events).db.ledger;
    assert Grounded(ledger[..j], ledger[j]) && Grounded(ledger[..i], ledger[i]);
    if Rejecting(ledger[i], ledger[j]) {
      RejectionLeaves(ledger[i], ledger[j]);
    } else {
      forall a
        ensures Left(ledger[i], ledger[j], a) == 0
      {
        CancelsWhenUndone(ledger[i], i, ledger[j], a);
      }
    }
  }

  /** For a subscriber's own trial that is: when its price and its cost are zero. */
  lemma TrialPostsNothingExactly(row: Row, subscriber: string)
    requires IsTrial(row, subscriber) && row.posted
    ensures RowLines(row) == [] <==> row.gross == 0 && (row.entry.cost.None? || row.entry.cost.value == 0)
  {
    hide J.SignedPair;
    J.PairAccounts(J.Cash, J.Revenue, row.gross, "");
    if row.entry.cost.Some? {
      J.PairAccounts(J.CostOfService, J.CostSuspense, row.entry.cost.value, "");
    }
  }

  // ---- expiries, in seconds ----

  const DAY := 86400

  datatype Anchor = FromExpiry | FromNow

  function Max(a: int, b: int): int {
    if a > b then a else b
  }

  /** Where a renewal counts from. */
  function Base(now: int, current: Option<int>, anchor: Anchor): int {
    if anchor == FromExpiry && current.Some? && current.value > now then current.value else now
  }

  function ComputeExpiry(now: int, current: Option<int>, anchor: Anchor, days: int): int {
    Base(now, current, anchor) + days * DAY
  }

  function RollbackExpiry(now: int, current: Option<int>, days: int): int {
    if current.None? then now
    else
      var rolled := current.value - days * DAY;
      if rolled < now then now else rolled
  }

  /** A refund of the last renewal gives back the later of now and the point the renewal counted from,
      as long as the profile's duration is what it was; otherwise it is off by the difference, floored at now. */
  lemma RefundRollsBack(renewedAt: int, before: Option<int>, anchor: Anchor, days: int, now: int, daysNow: int)
    ensures var expiry := ComputeExpiry(renewedAt, before, anchor, days);
            && RollbackExpiry(now, Some(expiry), daysNow) == Max(now, Base(renewedAt, before, anchor) + (days - daysNow) * DAY)
            && RollbackExpiry(now, Some(expiry), days) == Max(now, Base(renewedAt, before, anchor))
  {
    assert days * DAY - daysNow * DAY == (days - daysNow) * DAY;
  }

  /** A renewal never shortens an account, except that counting from now gives up the days left. */
  lemma RenewalExtends(now: int, current: Option<int>, anchor: Anchor, days: nat)
    ensures ComputeExpiry(now, current, anchor, days) >= now + days * DAY
    ensures current.Some? ==> (ComputeExpiry(now, current, anchor, days) < current.value
                               <==> anchor == FromNow && current.value - now > days * DAY)
  {
    if current.Some? && anchor == FromExpiry && current.value > now {
      assert days * DAY >= 0;
    }
  }

  // ---- tickets: a trial day, and its rejection ----

  const TRIAL_DAYS := 1

  /** The expiry a submission leaves: a trial extends it, a submission without one does not. */
  function Submitted(now: int, current: Option<int>, anchor: Anchor, granted: bool): Option<int> {
    if granted then Some(ComputeExpiry(now, current, anchor, TRIAL_DAYS)) else current
  }

  /** A rejection rolls back a trial day whether or not there was one. */
  function AfterRejection(now: int, current: Option<int>): int {
    RollbackExpiry(now, current, TRIAL_DAYS)
  }

  /** What a subscriber has at `now` of an expiry: nothing past is worth more than now. */
  function Floored(now: int, expiry: Option<int>): int {
    if expiry.None? then now else Max(now, expiry.value)
  }

  /** A rejection gives a subscriber back the expiry from before the submission exactly when there was nothing left
      of it to lose by then, or the ticket had a trial that counted from the expiry. */
  lemma RejectionReturnsExactly(submitted: int, before: Option<int>, anchor: Anchor, granted: bool, now: int)
    requires submitted <= now
    ensures AfterRejection(now, Submitted(submitted, before, anchor, granted)) == Floored(now, before)
            <==> before.None? || before.value <= now || (granted && anchor == FromExpiry)
  {
    if granted {
      RefundRollsBack(submitted, before, anchor, TRIAL_DAYS, now, TRIAL_DAYS);
    }
  }

  /** Without a trial it costs a paid-up subscriber a day, or all that was left of a shorter time. */
  lemma UngrantedRejectionCosts(before: int, now: int)
    ensures AfterRejection(now, Some(before)) == Max(now, before - TRIAL_DAYS * DAY)
    ensures before > now ==> AfterRejection(now, Some(before)) < before
  {
  }

  /** One subscriber resubmitting: each ticket is submitted and rejected before the next. Only the first one earns a
      trial, because the last decided ticket of every later one is a rejected one. */
  datatype Attempt = Attempt(submitted: int, rejected: int)

  function AfterRejections(before: Option<int>, anchor: Anchor, eligible: bool, tries: seq<Attempt>): Option<int> {
    if tries == [] then before
    else
      var (front, last) := (tries[..|tries| - 1], tries[|tries| - 1]);
      var current := AfterRejections(before, anchor, eligible, front);
      Some(AfterRejection(last.rejected, Submitted(last.submitted, current, anchor, eligible && front == [])))
  }

  ghost predicate InTime(tries: seq<Attempt>) {
    && (forall i | 0 <= i < |tries| :: tries[i].submitted <= tries[i].rejected)
    && (forall i | 0 < i < |tries| :: tries[i - 1].rejected <= tries[i].submitted)
  }

  /** After any number of rejections, a subscriber whose renewals count from the expiry has lost a day for each but a
      granted first one, down to the time of the last rejection. */
  lemma {:induction false} EachRejectionCostsADay(before: int, eligible: bool, tries: seq<Attempt>)
    requires InTime(tries) && tries != []
    ensures var lost := if eligible then |tries| - 1 else |tries|;
            AfterRejections(Some(before), FromExpiry, eligible, tries)
            == Some(Max(tries[|tries| - 1].rejected, before - lost * TRIAL_DAYS * DAY))
  {
    var (front, last) := (tries[..|tries| - 1], tries[|tries| - 1]);
    if front == [] {
      assert AfterRejections(Some(before), FromExpiry, eligible, front) == Some(before);
      if eligible {
        RejectionReturnsExactly(last.submitted, Some(before), FromExpiry, true, last.rejected);
      }
    } else {
      assert tries[|tries| - 2].rejected <= last.submitted <= last.rejected;
      EachRejectionCostsADay(before, eligible, front);
      assert front[|front| - 1] == tries[|tries| - 2];
    }
  }
}

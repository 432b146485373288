/** What each job does to the balances once it commits, and what undoing it gives back.
 */
module LedgerEffects {
  import opened Wrappers
  import J = Journal
  import opened LedgerPaths
  import opened LedgerMachine
  import opened LedgerDiscipline
  import opened LedgerInvariant

  /** What a program's rows add to a manager's balance. */
  function Effect(ops: Ops, m: string): int {
    Sum(RowsOf(ops), m)
  }

  lemma EffectOf(op: Op, rest: Ops, m: string)
    ensures Effect(Then(op, rest), m) == (if op.Insert? then AmountFor(op.row, m) else 0) + Effect(rest, m)
    ensures Effect(Done, m) == 0
  {
    var first := if op.Insert? then [op.row] else [];
    SumConcat(first, RowsOf(rest), m);
    if op.Insert? {
      SumSnoc([], op.row, m);
      assert [] + [op.row] == [op.row];
    }
  }

  /** What the commission of a renewal adds: nothing without a positive base. */
  function Rebate(p: Renewal): nat {
    if p.charge && Charge(p) > 0 then p.commission else 0
  }

  lemma RenewInTxEffect(p: Renewal, key: string, rest: Ops, m: string)
    requires Effect(rest, m) == 0
    ensures Effect(RenewInTx(p, key, rest), m) == if p.charge && m == p.actor then Rebate(p) - Charge(p) else 0
  {
    hide Effect, RowsOf;
    var e := RenewalEntry(p);
    var commission := J.Entry(J.Commission, p.commission, p.actor, "", None, None);
    var insert := Insert(Row(e, p.price, key, true));
    if p.charge {
      var base := Charge(p);
      EffectOf(Post(commission, false, 0), rest, m);
      EffectOf(Recompute(p.actor), Then(Post(commission, false, 0), rest), m);
      EffectOf(Insert(Row(commission, 0, "", true)), Then(Recompute(p.actor), Then(Post(commission, false, 0), rest)), m);
      var after := Commission(p.actor, p.commission, base, rest);
      assert Effect(after, m) == if m == p.actor then Rebate(p) else 0;
      var post := Then(Post(e, true, p.price), after);
      EffectOf(Post(e, true, p.price), after, m);
      EffectOf(Recompute(p.actor), post, m);
      var body := Then(insert, Then(Recompute(p.actor), post));
      EffectOf(insert, Then(Recompute(p.actor), post), m);
      EffectOf(CheckFunds(p.actor, base, p.limit), body, m);
      var checked := Check(p.enforce, p.actor, base, p.limit, body);
      EffectOf(Lock(Balance(p.actor)), checked, m);
      EffectOf(Lock(Subscriber(p.subscriber)), Then(Lock(Balance(p.actor)), checked), m);
    } else {
      EffectOf(Post(e, true, p.price), rest, m);
      EffectOf(insert, Then(Post(e, true, p.price), rest), m);
      EffectOf(Lock(Subscriber(p.subscriber)), Then(insert, Then(Post(e, true, p.price), rest)), m);
    }
  }

  /** A renewal costs its actor the wholesale price, or else the retail price, less the commission;
      it moves no other balance, and none when it does not charge. */
  lemma RenewEffect(p: Renewal, m: string)
    ensures Effect(RenewOps(p), m) == if p.charge && m == p.actor then Rebate(p) - Charge(p) else 0
  {
    hide Effect, RowsOf, RenewInTx;
    EffectOf(Respond(p.key, p.receipt, p.expiry), Done, m);
    if p.key == "" {
      RenewInTxEffect(p, "", Done, m);
    } else {
      var rest := Then(Respond(p.key, p.receipt, p.expiry), Done);
      RenewInTxEffect(p, p.key, rest, m);
      EffectOf(Lock(IdemKey(p.key)), RenewInTx(p, p.key, rest), m);
    }
  }

  lemma ReversalEffect(row: Row, id: nat, hasPayment: bool, m: string)
    ensures var posting := Then(Post(row.entry, hasPayment, row.gross), Done);
            && Effect(Then(Lock(Reversal(id)), Then(Insert(row), Then(Recompute(row.entry.actor), posting))), m) == AmountFor(row, m)
            && Effect(Then(Lock(Reversal(id)), Then(Insert(row), posting)), m) == AmountFor(row, m)
  {
    hide Effect, RowsOf;
    var posting := Then(Post(row.entry, hasPayment, row.gross), Done);
    var slow := Then(Recompute(row.entry.actor), posting);
    EffectOf(Post(row.entry, hasPayment, row.gross), Done, m);
    EffectOf(Recompute(row.entry.actor), posting, m);
    EffectOf(Insert(row), slow, m);
    EffectOf(Insert(row), posting, m);
    EffectOf(Lock(Reversal(id)), Then(Insert(row), slow), m);
    EffectOf(Lock(Reversal(id)), Then(Insert(row), posting), m);
  }

  /** A refund gives back exactly what the original row took, to the same manager. */
  lemma RefundEffect(original: Row, id: nat, m: string)
    ensures Effect(RefundOps(original, id), m) == -AmountFor(original, m)
  {
    hide Effect, RowsOf;
    var row := RefundRow(original, id);
    ReversalEffect(row, id, true, m);
    var inner := RefundOps(original, id).rest;
    if original.entry.actor != "" {
      EffectOf(Lock(Balance(original.entry.actor)), inner.rest, m);
    }
    EffectOf(Lock(Subscriber(original.entry.subscriber)), inner, m);
  }

  /** Renewing and refunding the charge does not restore the actor's balance: the commission stays. */
  lemma RefundKeepsCommission(p: Renewal, id: nat, m: string)
    ensures Effect(RenewOps(p), m) + Effect(RefundOps(Row(RenewalEntry(p), p.price, p.key, true), id), m)
         == if m == p.actor then Rebate(p) else 0
  {
    hide Effect, RenewOps, RefundOps;
    RenewEffect(p, m);
    RefundEffect(Row(RenewalEntry(p), p.price, p.key, true), id, m);
  }

  /** Undoing a top-up takes back exactly what it gave. */
  lemma TopUpUndone(manager: string, iqd: int, id: nat, m: string)
    ensures Effect(TopUpOps(manager, iqd), m) == if m == manager then iqd else 0
    ensures Effect(UndoTopUpOps(Row(J.Entry(J.TopUp, iqd, manager, "", None, None), 0, "", true), id), m) == if m == manager then -iqd else 0
  {
    hide Effect, RowsOf;
    var e := J.Entry(J.TopUp, iqd, manager, "", None, None);
    EffectOf(Post(e, false, 0), Done, m);
    EffectOf(Recompute(manager), Then(Post(e, false, 0), Done), m);
    EffectOf(Insert(Row(e, 0, "", true)), Then(Recompute(manager), Then(Post(e, false, 0), Done)), m);
    EffectOf(Lock(Balance(manager)), TopUpOps(manager, iqd).rest, m);
    var u := J.Entry(J.TopUp, -iqd, manager, "", Some(id), None);
    ReversalEffect(Row(u, 0, "", true), id, false, m);
    EffectOf(Lock(Balance(manager)), UndoTopUpOps(Row(e, 0, "", true), id).rest, m);
  }

  lemma AdjustEffect(manager: string, amount: int, m: string)
    ensures Effect(Adjust(manager, amount), m) == if m == manager then amount else 0
  {
    hide Effect, RowsOf;
    var row := Row(J.Entry(J.Adjustment, amount, manager, "", None, None), 0, "", false);
    EffectOf(Recompute(manager), Done, m);
    EffectOf(Insert(row), Then(Recompute(manager), Done), m);
    EffectOf(Insert(row), Done, m);
  }

  lemma {:induction false} LockVouchersEffect(batch: nat, numbers: seq<nat>, rest: Ops, m: string)
    ensures Effect(LockVouchers(batch, numbers, rest), m) == Effect(rest, m)
    decreases |numbers|
  {
    hide Effect, RowsOf;
    if numbers != [] {
      LockVouchersEffect(batch, numbers[1..], rest, m);
      EffectOf(Lock(Voucher(batch, numbers[0])), LockVouchers(batch, numbers[1..], rest), m);
    }
  }

  /** Generating a batch charges its creator for every code, and voiding it gives back the price of each unused one. */
  lemma VoidRefundsUnused(batch: nat, unused: seq<nat>, creator: string, price: nat, count: nat, enforce: bool, m: string)
    requires creator != ""
    ensures Effect(GenerateOps(creator, price * count, enforce), m) + Effect(VoidOps(batch, unused, creator, price), m)
         == if m == creator then -(price * (count - |unused|)) else 0
  {
    hide Effect, RowsOf, Adjust, LockVouchers;
    var total := price * count;
    AdjustEffect(creator, -total, m);
    EffectOf(CheckFunds(creator, total, 0), Adjust(creator, -total), m);
    EffectOf(Lock(Balance(creator)), GenerateOps(creator, total, enforce).rest, m);
    var credit := price * |unused|;
    AdjustEffect(creator, credit, m);
    EffectOf(Lock(Balance(creator)), Adjust(creator, credit), m);
    var end := if credit > 0 then Then(Lock(Balance(creator)), Adjust(creator, credit)) else Done;
    LockVouchersEffect(batch, unused, end, m);
    EffectOf(Lock(Batch(batch)), LockVouchers(batch, unused, end), m);
    Distributes(price, count, |unused|);
  }

  lemma Distributes(price: nat, a: int, b: int)
    ensures price * a - price * b == price * (a - b)
    ensures b >= 0 ==> price * b >= 0
  {
  }

  /** A refund posts the original's journal lines with their sides swapped. */
  lemma RefundSwapsLines(original: Row, id: nat)
    requires J.RenewalFamily(original.entry.kind)
    ensures var row := RefundRow(original, id);
            && J.LinesFor(row.entry, true, row.gross).Ok?
            && multiset(J.LinesFor(row.entry, true, row.gross).value)
               == multiset(J.SwapSides(J.LinesFor(original.entry, true, original.gross).value))
  {
    hide J.SwapSides, J.MoneyLeg, J.CostLeg;
    J.ReversalSwapsSides(original.entry, id, true, original.gross);
  }
}

/** What every ledger-writing transaction of the package obeys, whatever its parameters: a row that
    moves a balance is written under that balance's lock and followed by its recomputation, a row
    claims a unique value only under its reservation, and what is written to the journal is what is
    written to the ledger.
 */
module LedgerDiscipline {
  import opened Wrappers
  import J = Journal
  import opened LedgerPaths
  import opened LedgerMachine

  // ---- what is still to come ----

  predicate Recalculates(ops: Ops, manager: string) {
    ops.Then? && (ops.op == Recompute(manager) || Recalculates(ops.rest, manager))
  }

  /** A funds check or the reservation of a key: both come before anything is written. */
  predicate Preliminary(op: Op) {
    op.CheckFunds? || (op.Lock? && op.resource.IdemKey?)
  }

  predicate Checks(ops: Ops) {
    ops.Then? && (Preliminary(ops.op) || Checks(ops.rest))
  }

  predicate Responds(ops: Ops, key: string) {
    ops.Then? && ((ops.op.Respond? && ops.op.key == key) || Responds(ops.rest, key))
  }

  function FutureClaims(ops: Ops): set<Resource> {
    if ops.Done? then {}
    else (if ops.op.Insert? then Claims(ops.op.row) else {}) + FutureClaims(ops.rest)
  }

  /** The rows to be inserted. */
  function RowsOf(ops: Ops): seq<Row> {
    if ops.Done? then [] else (if ops.op.Insert? then [ops.op.row] else []) + RowsOf(ops.rest)
  }

  /** The key of the first row to be inserted. */
  function FirstKey(ops: Ops): string {
    if ops.Done? then "" else if ops.op.Insert? then ops.op.row.key else FirstKey(ops.rest)
  }

  /** What the rows to be inserted add to a balance. */
  function Net(ops: Ops, manager: string): int {
    if ops.Done? then 0
    else (if ops.op.Insert? then AmountFor(ops.op.row, manager) else 0) + Net(ops.rest, manager)
  }

  function PostedFor(row: Row, manager: string): int {
    if row.posted then AmountFor(row, manager) else 0
  }

  function DriftOf(op: Op, manager: string): int {
    match op
    case Insert(row) => PostedFor(row, manager)
    case Post(e, _, _) => if e.actor == manager then -e.amount else 0
    case _ => 0
  }

  /** What the rows to be inserted add to a balance, less what the entries to be posted add to the wallet account. */
  function Drift(ops: Ops, manager: string): int {
    if ops.Done? then 0 else DriftOf(ops.op, manager) + Drift(ops.rest, manager)
  }

  /** The journal lines a row stands for: its payment, if any, is always booked with it. */
  function RowLines(row: Row): seq<J.Line> {
    var posted := J.LinesFor(row.entry, true, row.gross);
    if row.posted && posted.Ok? then posted.value else []
  }

  function PostLines(e: J.Entry, hasPayment: bool, gross: int): seq<J.Line> {
    var posted := J.LinesFor(e, hasPayment, gross);
    if posted.Ok? then posted.value else []
  }

  function BooksOf(op: Op, account: J.Account): int {
    match op
    case Insert(row) => J.AccountNet(RowLines(row), account)
    case Post(e, hasPayment, gross) => -J.AccountNet(PostLines(e, hasPayment, gross), account)
    case _ => 0
  }

  /** The same for one account of the journal: the lines the rows stand for, less the lines to be posted. */
  function Books(ops: Ops, account: J.Account): int {
    if ops.Done? then 0 else BooksOf(ops.op, account) + Books(ops.rest, account)
  }

  // ---- the discipline ----

  /** What every row is like, whoever wrote it: an original row of a subscriber is a posted renewal, only
      renewals carry a key, and a reversal is a refund or belongs to no subscriber. */
  predicate WellFormed(row: Row) {
    && (row.entry.reverses.None? ==>
          && row.entry.kind != J.Refund
          && (row.entry.subscriber != "" ==> J.RenewalFamily(row.entry.kind) && row.posted)
          && (row.entry.kind == J.TopUp ==> row.entry.subscriber == "" && row.posted))
    && (row.key != "" ==> row.entry.reverses.None? && row.entry.subscriber != "")
    && (row.entry.reverses.Some? ==> row.entry.kind == J.Refund || row.entry.subscriber == "")
  }

  /** A rejection's reversal: an amount of zero, against a keyed renewal. */
  predicate Rejecting(original: Row, row: Row) {
    row.entry.kind == J.Refund && row.entry.amount == 0 && !row.posted && original.key != ""
  }

  /** The ways to reverse a row: refund it, undo it when it is a top-up, reject the ticket it was the trial of. */
  predicate Undoes(original: Row, id: nat, row: Row) {
    || (row == RefundRow(original, id) && original.entry.subscriber != "")
    || (row == UndoRow(original, id) && original.entry.kind == J.TopUp)
    || Rejecting(original, row)
  }

  /** A row is well formed, and a reversal points at an original row it undoes. */
  predicate Grounded(ledger: seq<Row>, row: Row) {
    && WellFormed(row)
    && (row.entry.reverses.Some? ==>
          var i := row.entry.reverses.value;
          i < |ledger| && ledger[i].entry.reverses.None? && Undoes(ledger[i], i, row))
  }

  predicate OpSound(ledger: seq<Row>, held: set<Resource>, op: Op, rest: Ops) {
    match op
    case Lock(r) => r.IdemKey? ==> r.key != "" && FirstKey(rest) == r.key
    case CheckFunds(m, charge, _) => Balance(m) in held && m != "" && Net(rest, m) >= -charge
    case Insert(row) =>
      && (row.entry.amount != 0 && row.entry.actor != "" ==> Balance(row.entry.actor) in held && Recalculates(rest, row.entry.actor))
      && Claims(row) <= held && Claims(row) !! FutureClaims(rest)
      && (row.key != "" ==> Responds(rest, row.key))
      && Grounded(ledger, row) && !Checks(rest)
    case Recompute(m) => Balance(m) in held && !Checks(rest)
    case Post(e, _, _) => e.kind != J.Unknown
    case Respond(key, _, _) => key != "" && IdemKey(key) in held && FirstKey(rest) == ""
  }

  function HeldAfter(held: set<Resource>, op: Op): set<Resource> {
    if op.Lock? then held + {op.resource} else held
  }

  predicate Sound(ledger: seq<Row>, held: set<Resource>, ops: Ops)
    decreases ops
  {
    ops.Then? ==> OpSound(ledger, held, ops.op, ops.rest) && Sound(ledger, HeldAfter(held, ops.op), ops.rest)
  }

  ghost predicate Mirrored(ops: Ops) {
    && (forall m {:trigger Drift(ops, m)} :: m != "" ==> Drift(ops, m) == 0)
    && (forall a {:trigger Books(ops, a)} :: Books(ops, a) == 0)
  }

  // ---- every plan obeys it ----

  /** The end of a program that claims and checks nothing and lowers no balance. */
  ghost predicate Tail(ledger: seq<Row>, held: set<Resource>, ops: Ops) {
    && Sound(ledger, held, ops) && Mirrored(ops)
    && !Checks(ops) && FutureClaims(ops) == {} && FirstKey(ops) == ""
    && forall m {:trigger Net(ops, m)} :: Net(ops, m) >= 0
  }

  lemma Unfolds(ledger: seq<Row>, held: set<Resource>, op: Op, rest: Ops)
    ensures Sound(ledger, held, Then(op, rest)) <==> OpSound(ledger, held, op, rest) && Sound(ledger, HeldAfter(held, op), rest)
    ensures Checks(Then(op, rest)) <==> Preliminary(op) || Checks(rest)
    ensures FutureClaims(Then(op, rest)) == (if op.Insert? then Claims(op.row) else {}) + FutureClaims(rest)
    ensures FirstKey(Then(op, rest)) == if op.Insert? then op.row.key else FirstKey(rest)
    ensures forall m :: Recalculates(Then(op, rest), m) <==> op == Recompute(m) || Recalculates(rest, m)
    ensures forall k :: Responds(Then(op, rest), k) <==> (op.Respond? && op.key == k) || Responds(rest, k)
    ensures forall m :: Net(Then(op, rest), m) == (if op.Insert? then AmountFor(op.row, m) else 0) + Net(rest, m)
    ensures forall m :: Drift(Then(op, rest), m) == DriftOf(op, m) + Drift(rest, m)
    ensures forall a :: Books(Then(op, rest), a) == BooksOf(op, a) + Books(rest, a)
  {
  }

  lemma TailEnds(ledger: seq<Row>, held: set<Resource>)
    ensures Tail(ledger, held, Done)
  {
    assert Sound(ledger, held, Done) && !Checks(Done) && FutureClaims(Done) == {} && FirstKey(Done) == "";
    assert forall m :: Net(Done, m) == 0 && Drift(Done, m) == 0;
    assert forall a :: Books(Done, a) == 0;
  }

  lemma RespondKeepsTail(ledger: seq<Row>, held: set<Resource>, key: string, receipt: nat, expiry: int)
    requires key != "" && IdemKey(key) in held
    ensures Tail(ledger, held, Then(Respond(key, receipt, expiry), Done))
    ensures Responds(Then(Respond(key, receipt, expiry), Done), key)
  {
    hide Sound, Checks, FutureClaims, FirstKey, Recalculates, Responds, Net, Drift, Books, J.AccountNet;
    TailEnds(ledger, held);
    Unfolds(ledger, held, Respond(key, receipt, expiry), Done);
  }

  lemma CommissionKeepsTail(ledger: seq<Row>, held: set<Resource>, actor: string, amount: nat, base: int, rest: Ops)
    requires Tail(ledger, held, rest) && Balance(actor) in held
    ensures Tail(ledger, held, Commission(actor, amount, base, rest))
    ensures forall k :: Responds(rest, k) ==> Responds(Commission(actor, amount, base, rest), k)
  {
    if base > 0 && amount != 0 {
      hide Sound, Checks, FutureClaims, FirstKey, Recalculates, Responds, Net, Drift, Books, J.AccountNet;
      var e := J.Entry(J.Commission, amount, actor, "", None, None);
      var post := Then(Post(e, false, 0), rest);
      var recompute := Then(Recompute(actor), post);
      Unfolds(ledger, held, Post(e, false, 0), rest);
      Unfolds(ledger, held, Recompute(actor), post);
      Unfolds(ledger, held, Insert(Row(e, 0, "", true)), recompute);
    }
  }

  /** The facts about a program, or the part of one after the first locks. */
  ghost predicate Disciplined(ledger: seq<Row>, held: set<Resource>, ops: Ops) {
    Sound(ledger, held, ops) && Mirrored(ops)
  }

  lemma NoLinesNet()
    ensures forall a :: J.AccountNet([], a) == 0
  {
  }

  lemma RenewInTxIsDisciplined(ledger: seq<Row>, held: set<Resource>, p: Renewal, key: string, rest: Ops)
    requires p.charge ==> p.actor != ""
    requires J.RenewalFamily(p.kind) && p.subscriber != "" && (key != "" ==> IdemKey(key) in held && Responds(rest, key))
    requires Tail(ledger, held + {Subscriber(p.subscriber)} + (if p.charge then {Balance(p.actor)} else {}), rest)
    ensures Disciplined(ledger, held, RenewInTx(p, key, rest))
    ensures FirstKey(RenewInTx(p, key, rest)) == key
  {
    hide Sound, Checks, FutureClaims, FirstKey, Recalculates, Responds, Net, Drift, Books, J.AccountNet, Commission;
    var e := RenewalEntry(p);
    var sub := held + {Subscriber(p.subscriber)};
    var insert := Insert(Row(e, p.price, key, true));
    var after := rest;
    if p.charge {
      var both := sub + {Balance(p.actor)};
      after := Commission(p.actor, p.commission, Charge(p), rest);
      CommissionKeepsTail(ledger, both, p.actor, p.commission, Charge(p), rest);
      var post := Then(Post(e, true, p.price), after);
      var recompute := Then(Recompute(p.actor), post);
      var body := Then(insert, recompute);
      Unfolds(ledger, both, Post(e, true, p.price), after);
      Unfolds(ledger, both, Recompute(p.actor), post);
      Unfolds(ledger, both, insert, recompute);
      var checked := Check(p.enforce, p.actor, Charge(p), p.limit, body);
      Unfolds(ledger, both, CheckFunds(p.actor, Charge(p), p.limit), body);
      Unfolds(ledger, sub, Lock(Balance(p.actor)), checked);
      Unfolds(ledger, held, Lock(Subscriber(p.subscriber)), Then(Lock(Balance(p.actor)), checked));
    } else {
      assert sub + {} == sub;
      var post := Then(Post(e, true, p.price), rest);
      Unfolds(ledger, sub, Post(e, true, p.price), rest);
      Unfolds(ledger, sub, insert, post);
      Unfolds(ledger, held, Lock(Subscriber(p.subscriber)), Then(insert, post));
    }
  }

  lemma RenewIsDisciplined(ledger: seq<Row>, p: Renewal)
    requires p.charge ==> p.actor != ""
    requires J.RenewalFamily(p.kind) && p.subscriber != ""
    ensures Disciplined(ledger, {}, RenewOps(p))
  {
    hide Sound, Checks, FutureClaims, FirstKey, Recalculates, Responds, Net, Drift, Books, J.AccountNet, RenewInTx;
    if p.key == "" {
      TailEnds(ledger, {} + {Subscriber(p.subscriber)} + (if p.charge then {Balance(p.actor)} else {}));
      RenewInTxIsDisciplined(ledger, {}, p, "", Done);
    } else {
      var held := {IdemKey(p.key)};
      RespondKeepsTail(ledger, held + {Subscriber(p.subscriber)} + (if p.charge then {Balance(p.actor)} else {}), p.key, p.receipt, p.expiry);
      RenewInTxIsDisciplined(ledger, held, p, p.key, Then(Respond(p.key, p.receipt, p.expiry), Done));
      assert {} + held == held;
      Unfolds(ledger, {}, Lock(IdemKey(p.key)), RenewInTx(p, p.key, Then(Respond(p.key, p.receipt, p.expiry), Done)));
    }
  }

  /** A reversing row under its balance lock and its reservation. */
  lemma ReversalIsDisciplined(ledger: seq<Row>, held: set<Resource>, row: Row, id: nat, hasPayment: bool)
    requires row.entry.reverses == Some(id) && row.key == "" && Grounded(ledger, row) && row.posted && row.entry.kind != J.Unknown
    requires hasPayment || row.entry.kind == J.TopUp
    requires row.entry.actor != "" ==> Balance(row.entry.actor) in held
    ensures var posting := Then(Post(row.entry, hasPayment, row.gross), Done);
            && (row.entry.actor != "" ==> Disciplined(ledger, held, Then(Lock(Reversal(id)), Then(Insert(row), Then(Recompute(row.entry.actor), posting)))))
            && (row.entry.actor == "" ==> Disciplined(ledger, held, Then(Lock(Reversal(id)), Then(Insert(row), posting))))
  {
    hide Sound, Checks, FutureClaims, FirstKey, Recalculates, Responds, Net, Drift, Books, J.AccountNet, Grounded;
    var both := held + {Reversal(id)};
    var actor := row.entry.actor;
    var post := Then(Post(row.entry, hasPayment, row.gross), Done);
    TailEnds(ledger, both);
    Unfolds(ledger, both, Post(row.entry, hasPayment, row.gross), Done);
    Unfolds(ledger, both, Recompute(actor), post);
    if actor != "" {
      Unfolds(ledger, both, Insert(row), Then(Recompute(actor), post));
      Unfolds(ledger, held, Lock(Reversal(id)), Then(Insert(row), Then(Recompute(actor), post)));
    } else {
      Unfolds(ledger, both, Insert(row), post);
      Unfolds(ledger, held, Lock(Reversal(id)), Then(Insert(row), post));
    }
  }

  lemma LockKeeps(ledger: seq<Row>, held: set<Resource>, r: Resource, rest: Ops)
    requires !r.IdemKey? && Disciplined(ledger, held + {r}, rest)
    ensures Disciplined(ledger, held, Then(Lock(r), rest))
  {
    hide Sound, Checks, FutureClaims, FirstKey, Recalculates, Responds, Net, Drift, Books, J.AccountNet;
    Unfolds(ledger, held, Lock(r), rest);
  }

  lemma RefundIsDisciplined(ledger: seq<Row>, id: nat)
    requires id < |ledger| && Grounded(ledger, ledger[id])
    requires ledger[id].entry.kind != J.Refund && ledger[id].entry.subscriber != ""
    ensures Disciplined(ledger, {}, RefundOps(ledger[id], id))
  {
    hide Disciplined;
    var (row, e) := (RefundRow(ledger[id], id), ledger[id].entry);
    var held := {Subscriber(e.subscriber)};
    assert {} + held == held;
    if e.actor != "" {
      ReversalIsDisciplined(ledger, held + {Balance(e.actor)}, row, id, true);
      LockKeeps(ledger, held, Balance(e.actor), RefundOps(ledger[id], id).rest.rest);
    } else {
      ReversalIsDisciplined(ledger, held, row, id, true);
    }
    LockKeeps(ledger, {}, Subscriber(e.subscriber), RefundOps(ledger[id], id).rest);
  }

  lemma TopUpIsDisciplined(ledger: seq<Row>, manager: string, iqd: int)
    requires manager != ""
    ensures Disciplined(ledger, {}, TopUpOps(manager, iqd))
  {
    hide Sound, Checks, FutureClaims, FirstKey, Recalculates, Responds, Net, Drift, Books, J.AccountNet;
    var e := J.Entry(J.TopUp, iqd, manager, "", None, None);
    var held := {Balance(manager)};
    var post := Then(Post(e, false, 0), Done);
    TailEnds(ledger, held);
    Unfolds(ledger, held, Post(e, false, 0), Done);
    Unfolds(ledger, held, Recompute(manager), post);
    Unfolds(ledger, held, Insert(Row(e, 0, "", true)), Then(Recompute(manager), post));
    assert {} + held == held;
    LockKeeps(ledger, {}, Balance(manager), TopUpOps(manager, iqd).rest);
  }

  lemma UndoTopUpIsDisciplined(ledger: seq<Row>, id: nat)
    requires id < |ledger| && ledger[id].entry.reverses.None? && ledger[id].entry.kind == J.TopUp && ledger[id].entry.actor != ""
    ensures Disciplined(ledger, {}, UndoTopUpOps(ledger[id], id))
  {
    hide Disciplined;
    var row := UndoRow(ledger[id], id);
    var balance := Balance(row.entry.actor);
    ReversalIsDisciplined(ledger, {balance}, row, id, false);
    assert {} + {balance} == {balance};
    LockKeeps(ledger, {}, balance, UndoTopUpOps(ledger[id], id).rest);
  }

  lemma AdjustIsDisciplined(ledger: seq<Row>, held: set<Resource>, manager: string, amount: int)
    requires manager != "" ==> Balance(manager) in held
    ensures Disciplined(ledger, held, Adjust(manager, amount)) && !Checks(Adjust(manager, amount))
    ensures Net(Adjust(manager, amount), manager) == amount
  {
    hide Sound, Checks, FutureClaims, FirstKey, Recalculates, Responds, Net, Drift, Books, J.AccountNet;
    NoLinesNet();
    var row := Row(J.Entry(J.Adjustment, amount, manager, "", None, None), 0, "", false);
    TailEnds(ledger, held);
    Unfolds(ledger, held, Recompute(manager), Done);
    Unfolds(ledger, held, Insert(row), Then(Recompute(manager), Done));
    Unfolds(ledger, held, Insert(row), Done);
    NothingNets(manager);
  }

  lemma NothingNets(manager: string)
    ensures Net(Done, manager) == 0
  {
  }

  lemma GenerateIsDisciplined(ledger: seq<Row>, creator: string, total: int, enforce: bool)
    ensures Disciplined(ledger, {}, GenerateOps(creator, total, enforce))
  {
    hide Sound, Checks, FutureClaims, FirstKey, Recalculates, Responds, Net, Drift, Books, J.AccountNet, Adjust;
    if creator == "" {
      AdjustIsDisciplined(ledger, {}, "", -total);
    } else {
      var held := {Balance(creator)};
      AdjustIsDisciplined(ledger, held, creator, -total);
      Unfolds(ledger, held, CheckFunds(creator, total, 0), Adjust(creator, -total));
      assert {} + held == held;
      LockKeeps(ledger, {}, Balance(creator), GenerateOps(creator, total, enforce).rest);
    }
  }

  lemma {:induction false} LockVouchersKeeps(ledger: seq<Row>, held: set<Resource>, batch: nat, numbers: seq<nat>, rest: Ops)
    requires forall more: set<Resource> :: held <= more ==> Disciplined(ledger, more, rest)
    ensures Disciplined(ledger, held, LockVouchers(batch, numbers, rest))
    decreases |numbers|
  {
    hide Disciplined;
    if numbers != [] {
      LockVouchersKeeps(ledger, held + {Voucher(batch, numbers[0])}, batch, numbers[1..], rest);
      LockKeeps(ledger, held, Voucher(batch, numbers[0]), LockVouchers(batch, numbers[1..], rest));
    }
  }

  lemma VoidIsDisciplined(ledger: seq<Row>, batch: nat, unused: seq<nat>, creator: string, price: int)
    ensures Disciplined(ledger, {}, VoidOps(batch, unused, creator, price))
  {
    hide Disciplined, Adjust, LockVouchers;
    var credit := price * |unused|;
    var end := if credit > 0 && creator != "" then Then(Lock(Balance(creator)), Adjust(creator, credit)) else Done;
    forall more: set<Resource> | {Batch(batch)} <= more
      ensures Disciplined(ledger, more, end)
    {
      if credit > 0 && creator != "" {
        AdjustIsDisciplined(ledger, more + {Balance(creator)}, creator, credit);
        LockKeeps(ledger, more, Balance(creator), Adjust(creator, credit));
      } else {
        NothingIsDisciplined(ledger, more);
      }
    }
    assert {} + {Batch(batch)} == {Batch(batch)};
    LockVouchersKeeps(ledger, {Batch(batch)}, batch, unused, end);
    LockKeeps(ledger, {}, Batch(batch), LockVouchers(batch, unused, end));
  }

  lemma NothingIsDisciplined(ledger: seq<Row>, held: set<Resource>)
    ensures Disciplined(ledger, held, Done)
  {
    TailEnds(ledger, held);
  }

  lemma RejectIsDisciplined(ledger: seq<Row>, ticket: nat, trial: Option<nat>, subscriber: string, approver: string)
    requires trial.Some? ==> trial.value < |ledger| && ledger[trial.value].key != "" && WellFormed(ledger[trial.value])
    ensures Disciplined(ledger, {}, RejectOps(ticket, trial, subscriber, approver))
  {
    hide Sound, Checks, FutureClaims, FirstKey, Recalculates, Responds, Net, Drift, Books, J.AccountNet;
    var held := {Ticket(ticket)};
    assert {} + held == held;
    var tail := Then(Lock(Subscriber(subscriber)), Done);
    NothingIsDisciplined(ledger, held + {Subscriber(subscriber)});
    LockKeeps(ledger, held, Subscriber(subscriber), Done);
    if trial.Some? {
      var both := held + {Reversal(trial.value)};
      var row := RejectRow(trial.value, subscriber, approver);
      NoLinesNet();
      TailEnds(ledger, both + {Subscriber(subscriber)});
      Unfolds(ledger, both, Lock(Subscriber(subscriber)), Done);
      Unfolds(ledger, both, Insert(row), tail);
      LockKeeps(ledger, held, Reversal(trial.value), Then(Insert(row), tail));
    }
    LockKeeps(ledger, {}, Ticket(ticket), RejectOps(ticket, trial, subscriber, approver).rest);
  }

  /** Whatever the job and its parameters, its program obeys the discipline. */
  lemma PlanIsDisciplined(ledger: seq<Row>, job: Job)
    requires forall row | row in ledger :: Grounded(ledger, row)
    requires Plan(ledger, job).Ok?
    ensures Disciplined(ledger, {}, Plan(ledger, job).value)
  {
    hide Disciplined, RenewOps, RefundOps, TopUpOps, UndoTopUpOps, GenerateOps, VoidOps, RejectOps, RenewInTx;
    match job
    case Renew(p) => RenewIsDisciplined(ledger, p);
    case Redeem(batch, number, p) =>
      var q := p.(kind := J.VoucherRedeem, charge := false);
      var held := {Voucher(batch, number)};
      assert {} + held == held;
      TailEnds(ledger, held + {Subscriber(q.subscriber)} + {});
      RenewInTxIsDisciplined(ledger, held, q, "", Done);
      LockKeeps(ledger, {}, Voucher(batch, number), RenewInTx(q, "", Done));
    case Refund(_, id) => RefundIsDisciplined(ledger, id);
    case TopUp(manager, _, iqd) => TopUpIsDisciplined(ledger, manager, iqd);
    case UndoTopUp(id) => UndoTopUpIsDisciplined(ledger, id);
    case GenerateVouchers(creator, price, count, enforce) => GenerateIsDisciplined(ledger, creator, price * count, enforce);
    case VoidBatch(batch, unused, creator, price) => VoidIsDisciplined(ledger, batch, unused, creator, price);
    case InvoiceBatch(actor, price, count, enforce) => GenerateIsDisciplined(ledger, actor, price * count, enforce);
    case RejectTicket(ticket, trial, sub, approver) =>
      assert trial.Some? ==> ledger[trial.value] in ledger;
      RejectIsDisciplined(ledger, ticket, trial, sub, approver);
  }
}

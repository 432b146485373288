/** Voucher codes beside the running ledger (backend/internal/billing: voucher.go, voucher_api.go): a redemption
    locks its voucher row, looks at the mark, renews and marks the voucher used in one transaction; a void locks the
    batch and its unused vouchers, credits the creator and marks them. Every other transaction runs in between.
 */
module VoucherLedger {
  import opened Wrappers
  import J = Journal
  import V = Vouchers
  import opened LedgerPaths
  import opened LedgerMachine
  import opened LedgerDiscipline
  import opened LedgerInvariant
  import opened LedgerSafety
  import opened LedgerRetry

  datatype Id = Id(batch: nat, number: nat)

  /** A redemption in progress; its query saw the batch as it was when it started. */
  datatype Redemption = Redemption(id: Id, renewal: Renewal, batchVoid: bool)

  datatype VoidRun = VoidRun(batch: nat, unused: seq<nat>, creator: string, price: int)

  /** `writtenFor` is the voucher each voucher_redeem row was written for. */
  datatype World = World(sys: System, marks: map<Id, V.Mark>, voided: set<nat>, writtenFor: map<nat, Id>,
                         redeems: map<nat, Redemption>, voids: map<nat, VoidRun>)

  datatype Move =
    | Ledger(e: Event)                             // any event of the ledger's own transactions
    | Issue(batch: nat, count: nat)
    | Redeem(t: nat, id: Id, p: Renewal)
    | Take(t: nat, expired: bool)                  // the voucher lock is granted and the checks made
    | Void(t: nat, run: VoidRun)
    | Finish(t: nat)                               // the commit of a redemption or a void

  const NOTHING := World(Start(), map[], {}, map[], map[], map[])

  /** Of the renewals only a redemption is written as one. */
  predicate Ordinary(job: Job) {
    !job.Redeem? && !job.VoidBatch? && (job.Renew? ==> job.renewal.kind != J.VoucherRedeem)
  }

  function RedeemOps(r: Redemption): Ops {
    Then(Lock(Resource.Voucher(r.id.batch, r.id.number)), RenewInTx(r.renewal.(kind := J.VoucherRedeem, charge := false), "", Done))
  }

  function VoidProgram(v: VoidRun): Ops {
    VoidOps(v.batch, v.unused, v.creator, v.price)
  }

  /** The vouchers a void has locked are those of its batch that are unused. */
  ghost predicate Covers(w: World, v: VoidRun) {
    && (forall i, j | 0 <= i < j < |v.unused| :: v.unused[i] != v.unused[j])
    && (forall n | n in v.unused :: Id(v.batch, n) in w.marks && w.marks[Id(v.batch, n)] == V.Unused)
    && (forall id | id in w.marks && id.batch == v.batch && w.marks[id] == V.Unused :: id.number in v.unused)
  }

  function VoidMarks(marks: map<Id, V.Mark>, batch: nat): map<Id, V.Mark> {
    map id | id in marks :: if id.batch == batch && marks[id] == V.Unused then V.Void else marks[id]
  }

  /** Bookkeeping of transactions that are still open. */
  function Tidy(w: World, sys: System): World {
    w.(sys := sys,
       redeems := map t | t in w.redeems && t in sys.txs :: w.redeems[t],
       voids := map t | t in w.voids && t in sys.txs :: w.voids[t])
  }

  predicate Waiting(w: World, t: nat) {
    t in w.redeems && t in w.sys.txs && w.sys.txs[t].todo == w.sys.txs[t].program
  }

  ghost function Step(w: World, m: Move): World {
    match m
    case Ledger(e) =>
      if (e.Begin? && !Ordinary(e.job)) || (e.Commit? && (e.t in w.redeems || e.t in w.voids)) || (e.Step? && Waiting(w, e.t))
      then w
      else Tidy(w, Next(w.sys, e))
    case Issue(batch, count) =>
      if batch in w.voided || exists id :: id in w.marks && id.batch == batch then w
      else w.(marks := w.marks + map n: nat | n < count :: Id(batch, n) := V.Unused)
    case Redeem(t, id, p) =>
      if t in w.sys.txs || id !in w.marks || p.subscriber == "" then w
      else w.(sys := Next(w.sys, Begin(t, Job.Redeem(id.batch, id.number, p))),
              redeems := w.redeems[t := Redemption(id, p, id.batch in w.voided)])
    case Take(t, expired) =>
      if !Waiting(w, t) || Blocked(w.sys, t) || w.redeems[t].id !in w.marks then w
      else if V.Verdict(w.redeems[t].batchVoid, w.marks[w.redeems[t].id], expired) == V.Ok
      then Tidy(w, Next(w.sys, LedgerMachine.Step(t)))
      else Tidy(w, Next(w.sys, Abort(t)))
    case Void(t, run) =>
      if t in w.sys.txs then w
      else w.(sys := Next(w.sys, Begin(t, VoidBatch(run.batch, run.unused, run.creator, run.price))), voids := w.voids[t := run])
    case Finish(t) =>
      if t !in w.sys.txs || w.sys.txs[t].todo.Then? then w
      else if t in w.redeems then
        Tidy(w.(marks := w.marks[w.redeems[t].id := V.Used],
                writtenFor := w.writtenFor[|w.sys.db.ledger| := w.redeems[t].id]),
             Next(w.sys, Commit(t)))
      else if t in w.voids then
        if w.voids[t].batch in w.voided || !Covers(w, w.voids[t]) then Tidy(w, Next(w.sys, Abort(t)))
        else Tidy(w.(marks := VoidMarks(w.marks, w.voids[t].batch), voided := w.voided + {w.voids[t].batch}),
                  Next(w.sys, Commit(t)))
      else w
  }

  ghost function Run(moves: seq<Move>): World {
    if moves == [] then NOTHING else Step(Run(moves[..|moves| - 1]), moves[|moves| - 1])
  }

  // ---- which rows a program writes ----

  predicate IsRedeemRow(row: Row) {
    row.entry.kind == J.VoucherRedeem
  }

  /** No operation writes a voucher_redeem row. */
  predicate Plain(ops: Ops) {
    ops.Then? ==> (ops.op.Insert? ==> !IsRedeemRow(ops.op.row)) && Plain(ops.rest)
  }

  lemma PlainThen(op: Op, rest: Ops)
    ensures Plain(Done)
    ensures Plain(Then(op, rest)) <==> (op.Insert? ==> !IsRedeemRow(op.row)) && Plain(rest)
  {
  }

  lemma {:induction false} PlainRows(ops: Ops)
    requires Plain(ops)
    ensures forall row | row in RowsOf(ops) :: !IsRedeemRow(row)
  {
    if ops.Then? {
      PlainRows(ops.rest);
    }
  }

  lemma CommissionIsPlain(actor: string, amount: nat, base: int, rest: Ops)
    requires Plain(rest)
    ensures Plain(Commission(actor, amount, base, rest))
  {
    hide Plain;
    var c := J.Entry(J.Commission, amount, actor, "", None, None);
    PlainThen(Post(c, false, 0), rest);
    PlainThen(Recompute(actor), Then(Post(c, false, 0), rest));
    PlainThen(Insert(Row(c, 0, "", true)), Then(Recompute(actor), Then(Post(c, false, 0), rest)));
  }

  lemma RenewInTxIsPlain(p: Renewal, key: string, rest: Ops)
    requires Plain(rest) && p.kind != J.VoucherRedeem
    ensures Plain(RenewInTx(p, key, rest))
  {
    hide Plain, Commission;
    var e := RenewalEntry(p);
    CommissionIsPlain(p.actor, p.commission, Charge(p), rest);
    var after := if p.charge then Commission(p.actor, p.commission, Charge(p), rest) else rest;
    var post := Then(Post(e, true, p.price), after);
    PlainThen(Post(e, true, p.price), after);
    PlainThen(Recompute(p.actor), post);
    var written := if p.charge then Then(Recompute(p.actor), post) else post;
    var body := Then(Insert(Row(e, p.price, key, true)), written);
    PlainThen(Insert(Row(e, p.price, key, true)), written);
    PlainThen(CheckFunds(p.actor, Charge(p), p.limit), body);
    var checked := if p.charge then Check(p.enforce, p.actor, Charge(p), p.limit, body) else body;
    PlainThen(Lock(Balance(p.actor)), checked);
    PlainThen(Lock(Subscriber(p.subscriber)), if p.charge then Then(Lock(Balance(p.actor)), checked) else checked);
  }

  lemma RenewIsPlain(p: Renewal)
    requires p.kind != J.VoucherRedeem
    ensures Plain(RenewOps(p))
  {
    hide Plain, RenewInTx;
    PlainThen(Respond(p.key, p.receipt, p.expiry), Done);
    RenewInTxIsPlain(p, "", Done);
    RenewInTxIsPlain(p, p.key, Then(Respond(p.key, p.receipt, p.expiry), Done));
    PlainThen(Lock(IdemKey(p.key)), RenewInTx(p, p.key, Then(Respond(p.key, p.receipt, p.expiry), Done)));
  }

  /** A reversing row and what follows it, with and without a recomputation. */
  lemma ReversalIsPlain(row: Row, id: nat, hasPayment: bool)
    requires !IsRedeemRow(row)
    ensures var posting := Then(Post(row.entry, hasPayment, row.gross), Done);
            && Plain(Then(Lock(Reversal(id)), Then(Insert(row), Then(Recompute(row.entry.actor), posting))))
            && Plain(Then(Lock(Reversal(id)), Then(Insert(row), posting)))
  {
    hide Plain;
    var posting := Then(Post(row.entry, hasPayment, row.gross), Done);
    PlainThen(Post(row.entry, hasPayment, row.gross), Done);
    PlainThen(Recompute(row.entry.actor), posting);
    PlainThen(Insert(row), Then(Recompute(row.entry.actor), posting));
    PlainThen(Insert(row), posting);
    PlainThen(Lock(Reversal(id)), Then(Insert(row), Then(Recompute(row.entry.actor), posting)));
    PlainThen(Lock(Reversal(id)), Then(Insert(row), posting));
  }

  lemma RefundIsPlain(original: Row, id: nat)
    ensures Plain(RefundOps(original, id))
  {
    hide Plain;
    ReversalIsPlain(RefundRow(original, id), id, true);
    var inner := RefundOps(original, id).rest;
    if original.entry.actor != "" {
      PlainThen(Lock(Balance(original.entry.actor)), inner.rest);
    }
    PlainThen(Lock(Subscriber(original.entry.subscriber)), inner);
  }

  lemma TopUpIsPlain(manager: string, iqd: int)
    ensures Plain(TopUpOps(manager, iqd))
  {
    hide Plain;
    var e := J.Entry(J.TopUp, iqd, manager, "", None, None);
    var post := Then(Post(e, false, 0), Done);
    PlainThen(Post(e, false, 0), Done);
    PlainThen(Recompute(manager), post);
    PlainThen(Insert(Row(e, 0, "", true)), Then(Recompute(manager), post));
    PlainThen(Lock(Balance(manager)), TopUpOps(manager, iqd).rest);
  }

  lemma UndoIsPlain(original: Row, id: nat)
    ensures Plain(UndoTopUpOps(original, id))
  {
    hide Plain;
    ReversalIsPlain(UndoRow(original, id), id, false);
    PlainThen(Lock(Balance(original.entry.actor)), UndoTopUpOps(original, id).rest);
  }

  lemma AdjustIsPlain(manager: string, amount: int)
    ensures Plain(Adjust(manager, amount))
  {
    hide Plain;
    var row := Row(J.Entry(J.Adjustment, amount, manager, "", None, None), 0, "", false);
    PlainThen(Recompute(manager), Done);
    PlainThen(Insert(row), Then(Recompute(manager), Done));
    PlainThen(Insert(row), Done);
  }

  lemma GenerateIsPlain(creator: string, total: int, enforce: bool)
    ensures Plain(GenerateOps(creator, total, enforce))
  {
    hide Plain, Adjust;
    AdjustIsPlain(creator, -total);
    PlainThen(CheckFunds(creator, total, 0), Adjust(creator, -total));
    PlainThen(Lock(Balance(creator)), Check(enforce, creator, total, 0, Adjust(creator, -total)));
  }

  lemma {:induction false} LockVouchersIsPlain(batch: nat, numbers: seq<nat>, rest: Ops)
    requires Plain(rest)
    ensures Plain(LockVouchers(batch, numbers, rest))
    decreases |numbers|
  {
    if numbers != [] {
      LockVouchersIsPlain(batch, numbers[1..], rest);
    }
  }

  lemma VoidIsPlain(v: VoidRun)
    ensures Plain(VoidProgram(v))
  {
    hide Plain, Adjust, LockVouchers;
    var credit := v.price * |v.unused|;
    AdjustIsPlain(v.creator, credit);
    PlainThen(Lock(Balance(v.creator)), Adjust(v.creator, credit));
    var end := if credit > 0 && v.creator != "" then Then(Lock(Balance(v.creator)), Adjust(v.creator, credit)) else Done;
    LockVouchersIsPlain(v.batch, v.unused, end);
    PlainThen(Lock(Batch(v.batch)), LockVouchers(v.batch, v.unused, end));
  }

  lemma RejectIsPlain(ticket: nat, trial: Option<nat>, subscriber: string, approver: string)
    ensures Plain(RejectOps(ticket, trial, subscriber, approver))
  {
    hide Plain;
    var tail := Then(Lock(Subscriber(subscriber)), Done);
    PlainThen(Lock(Subscriber(subscriber)), Done);
    if trial.Some? {
      var insert := Insert(RejectRow(trial.value, subscriber, approver));
      PlainThen(insert, tail);
      PlainThen(Lock(Reversal(trial.value)), Then(insert, tail));
    }
    PlainThen(Lock(Ticket(ticket)), RejectOps(ticket, trial, subscriber, approver).rest);
  }

  /** Only redemptions write voucher_redeem rows. */
  lemma OrdinaryIsPlain(ledger: seq<Row>, job: Job)
    requires Ordinary(job) && Plan(ledger, job).Ok?
    ensures Plain(Plan(ledger, job).value)
  {
    hide Plain, RenewOps, RefundOps, TopUpOps, UndoTopUpOps, GenerateOps, RejectOps;
    match job
    case Renew(p) => RenewIsPlain(p);
    case Refund(_, id) => RefundIsPlain(ledger[id], id);
    case TopUp(manager, _, iqd) => TopUpIsPlain(manager, iqd);
    case UndoTopUp(id) => UndoIsPlain(ledger[id], id);
    case GenerateVouchers(creator, price, count, enforce) => GenerateIsPlain(creator, price * count, enforce);
    case InvoiceBatch(actor, price, count, enforce) => GenerateIsPlain(actor, price * count, enforce);
    case RejectTicket(ticket, trial, sub, approver) => RejectIsPlain(ticket, trial, sub, approver);
  }

  /** A redemption writes one. */
  lemma RedeemWritesOne(r: Redemption)
    ensures var rows := RowsOf(RedeemOps(r)); |rows| == 1 && IsRedeemRow(rows[0])
  {
    hide RowsOf;
    var p := r.renewal.(kind := J.VoucherRedeem, charge := false);
    var (e, program) := (RenewalEntry(p), RedeemOps(r));
    RowsOfThen(Post(e, true, p.price), Done);
    RowsOfThen(Insert(Row(e, p.price, "", true)), Then(Post(e, true, p.price), Done));
    RowsOfThen(Lock(Subscriber(p.subscriber)), program.rest.rest);
    RowsOfThen(program.op, program.rest);
  }

  // ---- which locks a program takes ----

  function LocksOf(ops: Ops): set<Resource> {
    if ops.Done? then {} else (if ops.op.Lock? then {ops.op.resource} else {}) + LocksOf(ops.rest)
  }

  /** Whatever it was to lock it has locked or has still to lock. */
  predicate LocksKept(tx: Tx) {
    LocksOf(tx.program) <= tx.held + LocksOf(tx.todo)
  }

  lemma {:induction false} LocksVouchers(batch: nat, numbers: seq<nat>, rest: Ops, n: nat)
    requires n in numbers
    ensures Resource.Voucher(batch, n) in LocksOf(LockVouchers(batch, numbers, rest))
    decreases |numbers|
  {
    if numbers[0] != n {
      LocksVouchers(batch, numbers[1..], rest, n);
    }
  }

  lemma VoidLocks(v: VoidRun, n: nat)
    requires n in v.unused
    ensures Resource.Voucher(v.batch, n) in LocksOf(VoidProgram(v))
  {
    hide LockVouchers, Adjust;
    var end := VoidProgram(v).rest;
    var credit := v.price * |v.unused|;
    LocksVouchers(v.batch, v.unused,
                  if credit > 0 && v.creator != "" then Then(Lock(Balance(v.creator)), Adjust(v.creator, credit)) else Done, n);
    assert LocksOf(VoidProgram(v)) == {Batch(v.batch)} + LocksOf(end);
  }

  /** What an event does to one open transaction. */
  lemma TxGoesOn(s: System, e: Event, t: nat)
    requires t in s.txs && t in Next(s, e).txs
    ensures var (tx, post) := (s.txs[t], Next(s, e).txs[t]);
            && post.program == tx.program && tx.held <= post.held
            && (LocksKept(tx) ==> LocksKept(post))
            && (e != LedgerMachine.Step(t) ==> post == tx)
  {
    hide Plan, Blocked, Apply, Claimed, Sum, Cached, J.LinesFor;
  }

  // ---- the invariant ----

  function LockOf(id: Id): Resource {
    Resource.Voucher(id.batch, id.number)
  }

  /** A redemption has not looked yet, or holds its voucher, which is unused. */
  ghost predicate RedeemOk(w: World, t: nat)
    requires t in w.redeems
  {
    var r := w.redeems[t];
    && t in w.sys.txs && r.id in w.marks && w.sys.txs[t].program == RedeemOps(r)
    && (Waiting(w, t) || (LockOf(r.id) in w.sys.txs[t].held && w.marks[r.id] == V.Unused))
  }

  ghost predicate VoidOk(w: World, t: nat)
    requires t in w.voids
  {
    t in w.sys.txs && t !in w.redeems && w.sys.txs[t].program == VoidProgram(w.voids[t]) && LocksKept(w.sys.txs[t])
  }

  ghost predicate TxsOk(w: World) {
    && (forall t | t in w.redeems :: RedeemOk(w, t))
    && (forall t | t in w.voids :: VoidOk(w, t))
    && (forall t | t in w.sys.txs && t !in w.redeems :: Plain(w.sys.txs[t].program))
  }

  /** The voucher_redeem rows and the used vouchers are one to one. */
  ghost predicate RowsMatch(ledger: seq<Row>, marks: map<Id, V.Mark>, writtenFor: map<nat, Id>) {
    && (forall i: nat :: i in writtenFor <==> i < |ledger| && IsRedeemRow(ledger[i]))
    && (forall i | i in writtenFor :: writtenFor[i] in marks && marks[writtenFor[i]] == V.Used)
    && (forall i, j | i in writtenFor && j in writtenFor && i != j :: writtenFor[i] != writtenFor[j])
    && (forall id | id in marks && marks[id] == V.Used :: exists i :: i in writtenFor && writtenFor[i] == id)
  }

  ghost predicate MarksOk(w: World) {
    forall id | id in w.marks :: if id.batch in w.voided then w.marks[id] != V.Unused else w.marks[id] != V.Void
  }

  ghost predicate WInv(w: World) {
    Inv(w.sys) && TxsOk(w) && RowsMatch(w.sys.db.ledger, w.marks, w.writtenFor) && MarksOk(w)
  }

  // ---- every move keeps it ----

  /** Events of the ledger leave the bookkeeping in order, apart from what they commit. */
  lemma EventKeepsTxs(w: World, e: Event)
    requires TxsOk(w) && (e.Begin? ==> Ordinary(e.job)) && (e.Step? ==> !Waiting(w, e.t))
    ensures TxsOk(Tidy(w, Next(w.sys, e)))
  {
    hide Next, Plain, LocksKept, RedeemOps, VoidProgram;
    var post := Tidy(w, Next(w.sys, e));
    forall t | t in w.sys.txs && t in post.sys.txs
      ensures post.sys.txs[t].program == w.sys.txs[t].program && w.sys.txs[t].held <= post.sys.txs[t].held
      ensures LocksKept(w.sys.txs[t]) ==> LocksKept(post.sys.txs[t])
      ensures e != LedgerMachine.Step(t) ==> post.sys.txs[t] == w.sys.txs[t]
    {
      TxGoesOn(w.sys, e, t);
    }
    forall t | t in post.redeems
      ensures RedeemOk(post, t)
    {
      assert RedeemOk(w, t);
    }
    forall t | t in post.voids
      ensures VoidOk(post, t)
    {
      assert VoidOk(w, t);
    }
    forall t | t in post.sys.txs && t !in post.redeems
      ensures Plain(post.sys.txs[t].program)
    {
      if t !in w.sys.txs {
        NewIsPlain(w.sys, e, t);
      }
    }
  }

  lemma NewIsPlain(s: System, e: Event, t: nat)
    requires t !in s.txs && t in Next(s, e).txs && (e.Begin? ==> Ordinary(e.job))
    ensures Plain(Next(s, e).txs[t].program)
  {
    hide Plain, Plan, Exec, Blocked, Apply;
    OrdinaryIsPlain(s.db.ledger, e.job);
  }

  /** What is committed besides redemptions is no voucher_redeem row. */
  lemma EventKeepsRows(w: World, e: Event)
    requires WInv(w) && (e.Commit? ==> e.t !in w.redeems)
    ensures RowsMatch(Next(w.sys, e).db.ledger, w.marks, w.writtenFor)
  {
    hide Plan, Exec, Blocked, Inv, RowsOf, Plain, RedeemOk, VoidOk, MarksOk;
    if e.Commit? && e.t in w.sys.txs && w.sys.txs[e.t].todo.Done? {
      CommittedRows(w.sys, e.t);
      PlainRows(w.sys.txs[e.t].program);
      MoreRowsMatch(w, RowsOf(w.sys.txs[e.t].program));
    }
  }

  lemma MoreRowsMatch(w: World, rows: seq<Row>)
    requires RowsMatch(w.sys.db.ledger, w.marks, w.writtenFor) && forall row | row in rows :: !IsRedeemRow(row)
    ensures RowsMatch(w.sys.db.ledger + rows, w.marks, w.writtenFor)
  {
    var ledger := w.sys.db.ledger;
    forall i: nat
      ensures i in w.writtenFor <==> i < |ledger + rows| && IsRedeemRow((ledger + rows)[i])
    {
      if |ledger| <= i < |ledger + rows| {
        assert (ledger + rows)[i] == rows[i - |ledger|];
      }
    }
  }

  lemma LedgerKeeps(w: World, e: Event)
    requires WInv(w) && (e.Begin? ==> Ordinary(e.job)) && (e.Commit? ==> e.t !in w.redeems) && (e.Step? ==> !Waiting(w, e.t))
    ensures WInv(Tidy(w, Next(w.sys, e)))
  {
    hide Next, Inv, TxsOk, RowsMatch;
    NextKeeps(w.sys, e);
    EventKeepsTxs(w, e);
    EventKeepsRows(w, e);
  }

  /** A mark changes under a voucher's lock: no redemption in progress depends on it. */
  lemma NobodyElseTook(w: World, t: nat, u: nat)
    requires WInv(w) && t in w.sys.txs && u in w.redeems && u != t
    requires LockOf(w.redeems[u].id) in w.sys.txs[t].held
    ensures Waiting(w, u)
  {
    hide DbInv, TxInv, AnswersStored, RowsMatch, MarksOk, Waiting, RedeemOps, LocksKept, Plain;
    assert RedeemOk(w, u);
    assert Apart(w.sys.txs[t], w.sys.txs[u]);
  }

  lemma FinishedHolds(w: World, t: nat)
    requires TxsOk(w) && t in w.redeems && t in w.sys.txs && w.sys.txs[t].todo.Done?
    ensures var id := w.redeems[t].id; id in w.marks && w.marks[id] == V.Unused && LockOf(id) in w.sys.txs[t].held
    ensures w.sys.txs[t].program == RedeemOps(w.redeems[t])
  {
    hide Plain, LocksKept, VoidProgram;
    assert RedeemOk(w, t);
  }

  lemma FinishRedeemKeeps(w: World, t: nat)
    requires WInv(w) && t in w.redeems && t in w.sys.txs && w.sys.txs[t].todo.Done?
    ensures WInv(Step(w, Finish(t)))
  {
    hide Inv, RedeemOps, TxsOk, RowsOf, Next, RowsMatch, Covers, Waiting;
    var (r, ledger) := (w.redeems[t], w.sys.db.ledger);
    NextKeeps(w.sys, Commit(t));
    FinishedHolds(w, t);
    CommittedRows(w.sys, t);
    RedeemWritesOne(r);
    MarkingKeepsTxs(w, t);
    OneMoreRowMatches(w, RowsOf(RedeemOps(r))[0], r.id);
    assert [RowsOf(RedeemOps(r))[0]] == RowsOf(RedeemOps(r));
  }

  lemma OneMoreRowMatches(w: World, row: Row, id: Id)
    requires RowsMatch(w.sys.db.ledger, w.marks, w.writtenFor) && IsRedeemRow(row) && id in w.marks && w.marks[id] == V.Unused
    ensures var ledger := w.sys.db.ledger;
            RowsMatch(ledger + [row], w.marks[id := V.Used], w.writtenFor[|ledger| := id])
  {
    hide IsRedeemRow;
    var (n, marks, after) := (|w.sys.db.ledger|, w.marks[id := V.Used], w.writtenFor[|w.sys.db.ledger| := id]);
    assert n !in w.writtenFor;
    forall i | i in after
      ensures after[i] in marks && marks[after[i]] == V.Used && (i != n ==> after[i] != id)
    {
      if i != n {
        assert i in w.writtenFor;
      }
    }
    forall v | v in marks && marks[v] == V.Used
      ensures exists i :: i in after && after[i] == v
    {
      if v == id {
        assert after[n] == id;
      } else {
        var i :| i in w.writtenFor && w.writtenFor[i] == v;
        assert after[i] == v;
      }
    }
  }

  /** Using up the voucher of a finished redemption disturbs no other transaction. */
  lemma MarkingKeepsTxs(w: World, t: nat)
    requires WInv(w) && t in w.redeems && t in w.sys.txs && w.sys.txs[t].todo.Done?
    ensures TxsOk(Step(w, Finish(t)))
  {
    hide Next, Plain, LocksKept, RedeemOps, VoidProgram, Inv, RowsMatch, MarksOk;
    var post := Tidy(w, Next(w.sys, Commit(t)));
    EventKeepsTxs(w, Commit(t));
    FinishedHolds(w, t);
    Ends(w.sys, t);
    var marked := Step(w, Finish(t));
    assert marked == post.(marks := w.marks[w.redeems[t].id := V.Used], writtenFor := marked.writtenFor);
    forall u | u in marked.redeems
      ensures RedeemOk(marked, u)
    {
      assert RedeemOk(post, u);
      if w.redeems[u].id == w.redeems[t].id {
        NobodyElseTook(w, t, u);
        Stays(w.sys, t, u);
      }
    }
    forall u | u in marked.voids
      ensures VoidOk(marked, u)
    {
      assert VoidOk(post, u);
    }
  }

  lemma Ends(s: System, t: nat)
    requires t in s.txs && s.txs[t].todo.Done?
    ensures t !in Next(s, Commit(t)).txs
  {
    hide Apply;
  }

  lemma Stays(s: System, t: nat, u: nat)
    requires u in s.txs && u != t
    ensures u in Next(s, Commit(t)).txs && Next(s, Commit(t)).txs[u] == s.txs[u]
  {
    hide Apply;
  }

  lemma FinishVoidKeeps(w: World, t: nat)
    requires WInv(w) && t in w.voids && t in w.sys.txs && w.sys.txs[t].todo.Done?
    ensures WInv(Step(w, Finish(t)))
  {
    hide Inv, RowsMatch, TxsOk, Next, Tidy, MarksOk, Covers;
    NotARedemption(w, t);
    if w.voids[t].batch in w.voided || !Covers(w, w.voids[t]) {
      LedgerKeeps(w, Abort(t));
    } else {
      LedgerKeeps(w, Commit(t));
      VoidingKeeps(w, t);
    }
  }

  lemma NotARedemption(w: World, t: nat)
    requires TxsOk(w) && t in w.voids
    ensures t !in w.redeems
  {
    assert VoidOk(w, t);
  }

  lemma VoidingKeeps(w: World, t: nat)
    requires WInv(w) && t in w.voids && t in w.sys.txs && w.sys.txs[t].todo.Done? && Covers(w, w.voids[t])
    requires WInv(Tidy(w, Next(w.sys, Commit(t))))
    ensures var batch := w.voids[t].batch;
            WInv(Tidy(w.(marks := VoidMarks(w.marks, batch), voided := w.voided + {batch}), Next(w.sys, Commit(t))))
  {
    hide Next, Inv, TxsOk, RowsMatch, Covers;
    var (post, v) := (Tidy(w, Next(w.sys, Commit(t))), w.voids[t]);
    VoidingKeepsTxs(w, t);
    VoidingKeepsRows(post.sys.db.ledger, w.marks, w.writtenFor, v.batch);
  }

  lemma VoidingKeepsTxs(w: World, t: nat)
    requires WInv(w) && t in w.voids && t in w.sys.txs && w.sys.txs[t].todo.Done? && Covers(w, w.voids[t])
    requires TxsOk(Tidy(w, Next(w.sys, Commit(t))))
    ensures var batch := w.voids[t].batch;
            TxsOk(Tidy(w.(marks := VoidMarks(w.marks, batch), voided := w.voided + {batch}), Next(w.sys, Commit(t))))
  {
    hide Next, Plain, LocksKept, RedeemOps, VoidProgram, Inv, RowsMatch, MarksOk, Covers;
    var (post, v) := (Tidy(w, Next(w.sys, Commit(t))), w.voids[t]);
    var done := post.(marks := VoidMarks(w.marks, v.batch), voided := w.voided + {v.batch});
    NotARedemption(w, t);
    forall u | u in done.redeems
      ensures RedeemOk(done, u)
    {
      assert RedeemOk(post, u);
      var id := w.redeems[u].id;
      if id.batch == v.batch && w.marks[id] == V.Unused {
        VoidHolds(w, t, id);
        NobodyElseTook(w, t, u);
        Stays(w.sys, t, u);
      }
    }
    forall u | u in done.voids
      ensures VoidOk(done, u)
    {
      assert VoidOk(post, u);
    }
  }

  lemma VoidHolds(w: World, t: nat, id: Id)
    requires TxsOk(w) && t in w.voids && t in w.sys.txs && w.sys.txs[t].todo.Done? && Covers(w, w.voids[t])
    requires id in w.marks && id.batch == w.voids[t].batch && w.marks[id] == V.Unused
    ensures LockOf(id) in w.sys.txs[t].held
  {
    hide VoidProgram, RedeemOps, Plain;
    assert VoidOk(w, t);
    VoidLocks(w.voids[t], id.number);
  }

  lemma VoidingKeepsRows(ledger: seq<Row>, marks: map<Id, V.Mark>, writtenFor: map<nat, Id>, batch: nat)
    requires RowsMatch(ledger, marks, writtenFor)
    ensures RowsMatch(ledger, VoidMarks(marks, batch), writtenFor)
  {
    var after := VoidMarks(marks, batch);
    forall id | id in after && after[id] == V.Used
      ensures exists i :: i in writtenFor && writtenFor[i] == id
    {
      assert marks[id] == V.Used;
    }
  }

  lemma TakeKeeps(w: World, t: nat, expired: bool)
    requires WInv(w)
    ensures WInv(Step(w, Take(t, expired)))
  {
    hide Inv, TxsOk, RowsMatch, MarksOk, Next, Tidy, Blocked;
    if Waiting(w, t) && !Blocked(w.sys, t) && w.redeems[t].id in w.marks {
      if V.Verdict(w.redeems[t].batchVoid, w.marks[w.redeems[t].id], expired) == V.Ok {
        TakingKeeps(w, t);
      } else {
        LedgerKeeps(w, Abort(t));
      }
    }
  }

  /** The voucher is locked by an unblocked first step. */
  lemma TakesLock(w: World, t: nat)
    requires TxsOk(w) && Waiting(w, t) && !Blocked(w.sys, t)
    ensures var (tx, id) := (w.sys.txs[t], w.redeems[t].id);
            Next(w.sys, LedgerMachine.Step(t))
            == w.sys.(txs := w.sys.txs[t := tx.(todo := tx.todo.rest, held := tx.held + {LockOf(id)})])
  {
    hide Plain, LocksKept, VoidProgram, RenewInTx;
    assert RedeemOk(w, t);
    RowLocksAreUnclaimed(w.sys.db.ledger, LockOf(w.redeems[t].id));
  }

  /** One transaction opened or moved on, everything else as it was. */
  lemma OnlyTxChanges(w: World, post: World, t: nat)
    requires TxsOk(w) && post.marks == w.marks
    requires post.sys.txs.Keys == w.sys.txs.Keys + {t} && forall u | u in w.sys.txs && u != t :: post.sys.txs[u] == w.sys.txs[u]
    requires forall u | u != t :: (u in post.redeems <==> u in w.redeems) && (u in post.voids <==> u in w.voids)
    requires forall u | u != t && u in w.redeems :: post.redeems[u] == w.redeems[u]
    requires forall u | u != t && u in w.voids :: post.voids[u] == w.voids[u]
    requires t in post.redeems ==> RedeemOk(post, t)
    requires t in post.voids ==> VoidOk(post, t)
    requires t !in post.redeems ==> Plain(post.sys.txs[t].program)
    ensures TxsOk(post)
  {
    hide Plain, LocksKept, VoidProgram, RedeemOps;
    forall u | u in post.redeems
      ensures RedeemOk(post, u)
    {
      if u != t {
        assert RedeemOk(w, u);
      }
    }
    forall u | u in post.voids
      ensures VoidOk(post, u)
    {
      if u != t {
        assert VoidOk(w, u);
      }
    }
  }

  lemma TakingKeeps(w: World, t: nat)
    requires WInv(w) && Waiting(w, t) && !Blocked(w.sys, t) && w.redeems[t].id in w.marks && w.marks[w.redeems[t].id] == V.Unused
    ensures WInv(Tidy(w, Next(w.sys, LedgerMachine.Step(t))))
  {
    hide Inv, RowsMatch, Blocked, Plain, LocksKept, VoidProgram, RedeemOps, Next;
    NextKeeps(w.sys, LedgerMachine.Step(t));
    TakesLock(w, t);
    var post := Tidy(w, Next(w.sys, LedgerMachine.Step(t)));
    assert RedeemOk(w, t);
    AllTracked(w);
    assert post.redeems == w.redeems && post.voids == w.voids;
    assert t !in post.voids;
    OnlyTxChanges(w, post, t);
  }

  lemma AllTracked(w: World)
    requires TxsOk(w)
    ensures forall t | t in w.redeems :: t in w.sys.txs && t !in w.voids
    ensures forall t | t in w.voids :: t in w.sys.txs
  {
    hide Plain, LocksKept, VoidProgram, RedeemOps;
    forall t | t in w.redeems
      ensures t in w.sys.txs && t !in w.voids
    {
      assert RedeemOk(w, t);
      assert t in w.voids ==> VoidOk(w, t);
    }
    forall t | t in w.voids
      ensures t in w.sys.txs
    {
      assert VoidOk(w, t);
    }
  }

  lemma OpenKeeps(w: World, m: Move)
    requires WInv(w) && (m.Issue? || m.Redeem? || m.Void?)
    ensures WInv(Step(w, m))
  {
    match m
    case Issue(batch, count) => IssueKeeps(w, batch, count);
    case Redeem(t, id, p) => RedeemKeeps(w, t, id, p);
    case Void(t, run) => VoidStarts(w, t, run);
  }

  lemma IssuingKeepsRows(ledger: seq<Row>, marks: map<Id, V.Mark>, after: map<Id, V.Mark>, writtenFor: map<nat, Id>)
    requires RowsMatch(ledger, marks, writtenFor)
    requires forall id | id in marks :: id in after && after[id] == marks[id]
    requires forall id | id in after && id !in marks :: after[id] == V.Unused
    ensures RowsMatch(ledger, after, writtenFor)
  {
  }

  lemma IssueKeeps(w: World, batch: nat, count: nat)
    requires WInv(w)
    ensures WInv(Step(w, Issue(batch, count)))
  {
    hide Inv, Plain, LocksKept, VoidProgram, RedeemOps, RowsMatch;
    var post := Step(w, Issue(batch, count));
    if post != w {
      IssuingKeepsRows(w.sys.db.ledger, w.marks, post.marks, w.writtenFor);
    }
    forall t | t in post.redeems
      ensures RedeemOk(post, t)
    {
      assert RedeemOk(w, t);
    }
    forall t | t in post.voids
      ensures VoidOk(post, t)
    {
      assert VoidOk(w, t);
    }
  }

  lemma RedeemKeeps(w: World, t: nat, id: Id, p: Renewal)
    requires WInv(w)
    ensures WInv(Step(w, Move.Redeem(t, id, p)))
  {
    hide Inv, Plain, LocksKept, VoidProgram, RedeemOps, RowsMatch, Next;
    if t !in w.sys.txs && id in w.marks && p.subscriber != "" {
      var post := Step(w, Move.Redeem(t, id, p));
      NextKeeps(w.sys, Begin(t, Job.Redeem(id.batch, id.number, p)));
      RedeemOpens(w.sys, t, post.redeems[t]);
      AllTracked(w);
      OnlyTxChanges(w, post, t);
    }
  }

  lemma RedeemOpens(s: System, t: nat, r: Redemption)
    requires t !in s.txs && r.renewal.subscriber != ""
    ensures Next(s, Begin(t, Job.Redeem(r.id.batch, r.id.number, r.renewal))) == s.(txs := s.txs[t := Open(RedeemOps(r))])
  {
    hide RenewInTx;
  }

  lemma VoidOpens(s: System, t: nat, run: VoidRun)
    requires t !in s.txs
    ensures Next(s, Begin(t, VoidBatch(run.batch, run.unused, run.creator, run.price))) == s.(txs := s.txs[t := Open(VoidProgram(run))])
  {
    hide VoidOps;
  }

  lemma VoidStarts(w: World, t: nat, run: VoidRun)
    requires WInv(w)
    ensures WInv(Step(w, Void(t, run)))
  {
    hide Inv, Plain, RowsMatch, RedeemOps, VoidProgram, Next;
    if t !in w.sys.txs {
      NextKeeps(w.sys, Begin(t, VoidBatch(run.batch, run.unused, run.creator, run.price)));
      VoidIsPlain(run);
      VoidOpens(w.sys, t, run);
      AllTracked(w);
      OnlyTxChanges(w, Step(w, Void(t, run)), t);
    }
  }

  lemma StepKeeps(w: World, m: Move)
    requires WInv(w)
    ensures WInv(Step(w, m))
  {
    hide WInv, Tidy, Next, Covers, Waiting;
    match m
    case Ledger(e) =>
      if !((e.Begin? && !Ordinary(e.job)) || (e.Commit? && (e.t in w.redeems || e.t in w.voids)) || (e.Step? && Waiting(w, e.t))) {
        LedgerKeeps(w, e);
      }
    case Take(t, expired) => TakeKeeps(w, t, expired);
    case Finish(t) =>
      if t in w.sys.txs && w.sys.txs[t].todo.Done? {
        if t in w.redeems {
          FinishRedeemKeeps(w, t);
        } else if t in w.voids {
          FinishVoidKeeps(w, t);
        }
      }
    case _ => OpenKeeps(w, m);
  }

  lemma {:induction false} Reachable(moves: seq<Move>)
    ensures WInv(Run(moves))
  {
    if moves == [] {
      StartInv();
      hide Inv;
    } else {
      hide WInv, Step;
      Reachable(moves[..|moves| - 1]);
      StepKeeps(Run(moves[..|moves| - 1]), moves[|moves| - 1]);
    }
  }

  // ---- what that means ----

  /** In every run of the ledger the voucher_redeem rows and the used vouchers are one to one: every such row was
      written for a voucher that is used, no voucher has two, and a voucher has one exactly when it is used. */
  lemma OneRowPerVoucher(moves: seq<Move>, i: nat, j: nat, id: Id)
    ensures var w := Run(moves);
            && (i in w.writtenFor <==> i < |w.sys.db.ledger| && w.sys.db.ledger[i].entry.kind == J.VoucherRedeem)
            && (i in w.writtenFor && j in w.writtenFor && w.writtenFor[i] == w.writtenFor[j] ==> i == j)
            && ((exists k :: k in w.writtenFor && w.writtenFor[k] == id) <==> id in w.marks && w.marks[id] == V.Used)
  {
    hide Run, Inv, TxsOk, MarksOk;
    Reachable(moves);
  }

  /** A void takes every voucher of its batch that is not used, and credits the creator with the price of each. */
  lemma VoidCreditsTheRest(moves: seq<Move>, t: nat)
    requires var w := Run(moves);
             && t in w.voids && t in w.sys.txs && w.sys.txs[t].todo.Done?
             && w.voids[t].batch !in w.voided && Covers(w, w.voids[t])
    ensures var (w, end, v) := (Run(moves), Step(Run(moves), Finish(t)), Run(moves).voids[t]);
            && (forall id | id in w.marks && id.batch == v.batch ::
                  end.marks[id] == if w.marks[id] == V.Used then V.Used else V.Void)
            && (forall id | id in w.marks && id.batch != v.batch :: end.marks[id] == w.marks[id])
            && end.sys.db.ledger == w.sys.db.ledger
                 + (if v.price * |v.unused| > 0 && v.creator != ""
                    then [Row(J.Entry(J.Adjustment, v.price * |v.unused|, v.creator, "", None, None), 0, "", false)] else [])
  {
    hide Run, Inv, Next, RowsMatch, Plain, LocksKept, RowsOf, VoidProgram;
    Reachable(moves);
    var w := Run(moves);
    assert VoidOk(w, t);
    NotARedemption(w, t);
    CommittedRows(w.sys, t);
    VoidRows(w.voids[t]);
  }

  lemma {:induction false} LockingWritesNothing(batch: nat, numbers: seq<nat>, rest: Ops)
    ensures RowsOf(LockVouchers(batch, numbers, rest)) == RowsOf(rest)
    decreases |numbers|
  {
    if numbers != [] {
      LockingWritesNothing(batch, numbers[1..], rest);
    }
  }

  lemma VoidRows(v: VoidRun)
    ensures RowsOf(VoidProgram(v)) ==
            if v.price * |v.unused| > 0 && v.creator != ""
            then [Row(J.Entry(J.Adjustment, v.price * |v.unused|, v.creator, "", None, None), 0, "", false)] else []
  {
    hide RowsOf, LockVouchers;
    var credit := v.price * |v.unused|;
    var row := Row(J.Entry(J.Adjustment, credit, v.creator, "", None, None), 0, "", false);
    var adjust := Adjust(v.creator, credit);
    var end := if credit > 0 && v.creator != "" then Then(Lock(Balance(v.creator)), adjust) else Done;
    RowsOfThen(Recompute(v.creator), Done);
    RowsOfThen(Insert(row), adjust.rest);
    RowsOfThen(Lock(Balance(v.creator)), adjust);
    LockingWritesNothing(v.batch, v.unused, end);
    RowsOfThen(Lock(Batch(v.batch)), LockVouchers(v.batch, v.unused, end));
  }

  /** Used and void are final: whatever happens to a voucher after, its mark stays. */
  lemma MarksAreFinal(moves: seq<Move>, m: Move, id: Id)
    requires id in Run(moves).marks && Run(moves).marks[id] != V.Unused
    ensures var (w, end) := (Run(moves), Step(Run(moves), m)); id in end.marks && end.marks[id] == w.marks[id]
  {
    hide Run, Inv, Next, RowsMatch, Plain, LocksKept, RedeemOps, VoidProgram, Covers;
    Reachable(moves);
    var w := Run(moves);
    if m.Finish? && m.t in w.redeems && m.t in w.sys.txs && w.sys.txs[m.t].todo.Done? {
      FinishedHolds(w, m.t);
    }
  }
}

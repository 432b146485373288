/** One payment ticket beside the ledger (backend/internal/billing/tickets.go): approvals read the ticket, renew
    under the ticket's key as any other renewal does, and move the ticket afterwards; rejections move it in one
    transaction. Every other transaction of the ledger runs in between.
 */
module TicketMachine {
  import opened Wrappers
  import J = Journal
  import opened LedgerPaths
  import opened LedgerMachine
  import opened LedgerDiscipline
  import opened LedgerInvariant
  import opened LedgerSafety
  import opened LedgerBook
  import opened LedgerRetry

  datatype Subject = Subject(id: string, subscriber: string)

  function TrialKey(ticket: string): string {
    "ticket_trial:" + ticket
  }

  function ApprovalKey(ticket: string): string {
    "ticket_approve:" + ticket
  }

  function Key(k: Subject): string {
    ApprovalKey(k.id)
  }

  datatype Decision = Pending | Approved | Rejected

  /** An approval has read the ticket as pending, waits for its renewal's transaction, or has been answered with a row. */
  datatype Phase = Looked | Calling(t: nat) | Answered(row: nat)

  /** `row` is the ledger row the approved ticket points at. */
  datatype World = World(sys: System, decision: Decision, row: Option<nat>, approvals: map<nat, Phase>)

  datatype Move =
    | Ledger(e: Event)                    // any transaction of the ledger, the approvals' own included
    | Look(a: nat)
    | Call(a: nat, t: nat, p: Renewal)
    | Settle(a: nat)                      // UPDATE ... WHERE state = 'pending'
    | Reject
    | Drop(a: nat)                        // a failure or a crash: an open transaction goes with it

  const SUBMITTED := World(Start(), Pending, None, map[])

  /** The renewal of an approval: charged to the approver without a funds check. */
  predicate IsApproval(k: Subject, p: Renewal) {
    && p.key == Key(k) && p.subscriber == k.subscriber && k.subscriber != ""
    && p.charge && !p.enforce && p.actor != "" && p.kind == J.Renewal
  }

  /** What an approval sees of an event: its transaction goes on, or was answered, or failed. */
  predicate Survives(f: Phase, before: System, after: System) {
    f.Calling? ==> f.t in after.txs || |after.answers| > |before.answers|
  }

  function Seen(f: Phase, before: System, after: System): Phase
    requires Survives(f, before, after)
  {
    if f.Calling? && f.t !in after.txs then Answered(after.answers[|after.answers| - 1].1.row) else f
  }

  function Observe(approvals: map<nat, Phase>, before: System, after: System): map<nat, Phase> {
    map a | a in approvals && Survives(approvals[a], before, after) :: Seen(approvals[a], before, after)
  }

  function Step(k: Subject, w: World, m: Move): World {
    match m
    case Ledger(e) =>
      var sys := Next(w.sys, e);
      w.(sys := sys, approvals := Observe(w.approvals, w.sys, sys))
    case Look(a) =>
      if a in w.approvals || w.decision != Pending then w else w.(approvals := w.approvals[a := Looked])
    case Call(a, t, p) =>
      if a !in w.approvals || w.approvals[a] != Looked || t in w.sys.txs || !IsApproval(k, p) then w
      else w.(sys := Next(w.sys, Begin(t, Renew(p))), approvals := w.approvals[a := Calling(t)])
    case Settle(a) =>
      if a !in w.approvals || !w.approvals[a].Answered? then w
      else if w.decision != Pending then w.(approvals := w.approvals - {a})
      else World(w.sys, Approved, Some(w.approvals[a].row), w.approvals - {a})
    case Reject => if w.decision == Pending then w.(decision := Decision.Rejected) else w
    case Drop(a) =>
      if a !in w.approvals then w
      else
        var sys := if w.approvals[a].Calling? then Next(w.sys, Abort(w.approvals[a].t)) else w.sys;
        w.(sys := sys, approvals := Observe(w.approvals - {a}, w.sys, sys))
  }

  function From(k: Subject, w: World, moves: seq<Move>): World {
    if moves == [] then w else Step(k, From(k, w, moves[..|moves| - 1]), moves[|moves| - 1])
  }

  function After(k: Subject, moves: seq<Move>): World {
    From(k, SUBMITTED, moves)
  }

  // ---- charges ----

  predicate ChargesFor(k: Subject, row: Row) {
    row.key == Key(k) && row.entry.subscriber == k.subscriber
  }

  /** The ledger rows that carry the ticket's key for the ticket's subscriber. */
  function Charges(k: Subject, ledger: seq<Row>): nat {
    if ledger == [] then 0
    else Charges(k, ledger[..|ledger| - 1]) + (if ChargesFor(k, ledger[|ledger| - 1]) then 1 else 0)
  }

  lemma {:induction false} ChargesConcat(k: Subject, a: seq<Row>, b: seq<Row>)
    ensures Charges(k, a + b) == Charges(k, a) + Charges(k, b)
    decreases |b|
  {
    if b == [] {
      assert a + b == a;
    } else {
      assert (a + b)[..|a + b| - 1] == a + b[..|b| - 1];
      ChargesConcat(k, a, b[..|b| - 1]);
    }
  }

  lemma {:induction false} NoCharges(k: Subject, rows: seq<Row>)
    requires forall row | row in rows :: !ChargesFor(k, row)
    ensures Charges(k, rows) == 0
  {
    if rows != [] {
      assert rows[|rows| - 1] in rows;
      NoCharges(k, rows[..|rows| - 1]);
    }
  }

  predicate Keyed(k: Subject, ledger: seq<Row>, r: nat) {
    r < |ledger| && ledger[r].key == Key(k)
  }

  /** The one row with the key decides whether the subscriber was charged. */
  lemma KeyedRowDecides(k: Subject, ledger: seq<Row>, r: nat)
    requires Unique(ledger) && Keyed(k, ledger, r)
    ensures Charges(k, ledger) == if ledger[r].entry.subscriber == k.subscriber then 1 else 0
  {
    hide Key;
    KeyIsSomething(k);
    var (before, after) := (ledger[..r], ledger[r + 1..]);
    forall i | 0 <= i < |ledger| && i != r
      ensures ledger[i].key != Key(k)
    {
      var (x, y) := if i < r then (i, r) else (r, i);
      assert Claims(ledger[x]) !! Claims(ledger[y]);
    }
    assert ledger == before + [ledger[r]] + after;
    NoCharges(k, before);
    NoCharges(k, after);
    ChargesConcat(k, before, [ledger[r]]);
    ChargesConcat(k, before + [ledger[r]], after);
    assert [ledger[r]][..0] == [];
    assert Charges(k, [ledger[r]]) == if ChargesFor(k, ledger[r]) then 1 else 0;
  }

  lemma KeyIsSomething(k: Subject)
    ensures Key(k) != ""
  {
  }

  /** Without such a row there is no charge. */
  lemma FreeKeyChargesNothing(k: Subject, ledger: seq<Row>)
    requires !Claimed(ledger, IdemKey(Key(k)))
    ensures Charges(k, ledger) == 0
  {
    hide Key;
    KeyIsSomething(k);
    forall row | row in ledger
      ensures !ChargesFor(k, row)
    {
      var i :| 0 <= i < |ledger| && ledger[i] == row;
      assert IdemKey(Key(k)) !in Claims(ledger[i]);
    }
    NoCharges(k, ledger);
  }

  lemma ClaimedKeyIsKeyed(k: Subject, ledger: seq<Row>) returns (r: nat)
    requires Claimed(ledger, IdemKey(Key(k)))
    ensures Keyed(k, ledger, r)
  {
    hide Key;
    r :| r < |ledger| && IdemKey(Key(k)) in Claims(ledger[r]);
  }

  // ---- which transactions carry which key ----

  /** The only key an operation inserts or reserves. */
  predicate KeyedBy(ops: Ops, key: string)
    decreases ops
  {
    ops.Then? ==>
      && (ops.op.Insert? ==> ops.op.row.key == "" || ops.op.row.key == key)
      && (ops.op.Lock? && ops.op.resource.IdemKey? ==> ops.op.resource.key == key)
      && KeyedBy(ops.rest, key)
  }

  /** Nothing in it can fail while the key is free. */
  predicate Smooth(ops: Ops, key: string)
    decreases ops
  {
    ops.Then? ==>
      && !ops.op.CheckFunds?
      && (ops.op.Lock? ==> ops.op.resource == IdemKey(key) || (!ops.op.resource.IdemKey? && !ops.op.resource.Reversal?))
      && (ops.op.Post? ==> ops.op.entry.kind != J.Unknown)
      && Smooth(ops.rest, key)
  }

  function JobKey(job: Job): string {
    if job.Renew? then job.renewal.key else ""
  }

  lemma KeyedThen(op: Op, rest: Ops, key: string)
    ensures KeyedBy(Done, key) && FirstKey(Done) == ""
    ensures KeyedBy(Then(op, rest), key) <==>
            && (op.Insert? ==> op.row.key == "" || op.row.key == key)
            && (op.Lock? && op.resource.IdemKey? ==> op.resource.key == key)
            && KeyedBy(rest, key)
    ensures FirstKey(Then(op, rest)) == if op.Insert? then op.row.key else FirstKey(rest)
  {
  }

  lemma CommissionKeyed(actor: string, amount: nat, base: int, rest: Ops, key: string)
    requires KeyedBy(rest, key)
    ensures KeyedBy(LedgerPaths.Commission(actor, amount, base, rest), key)
  {
    hide KeyedBy;
    var c := J.Entry(J.Commission, amount, actor, "", None, None);
    KeyedThen(Post(c, false, 0), rest, key);
    KeyedThen(Recompute(actor), Then(Post(c, false, 0), rest), key);
    KeyedThen(Insert(Row(c, 0, "", true)), Then(Recompute(actor), Then(Post(c, false, 0), rest)), key);
  }

  lemma RenewInTxKeyed(p: Renewal, key: string, rest: Ops)
    requires KeyedBy(rest, key)
    ensures KeyedBy(LedgerPaths.RenewInTx(p, key, rest), key) && FirstKey(LedgerPaths.RenewInTx(p, key, rest)) == key
  {
    hide KeyedBy, FirstKey, LedgerPaths.Commission;
    var e := RenewalEntry(p);
    var insert := Insert(Row(e, p.price, key, true));
    CommissionKeyed(p.actor, p.commission, Charge(p), rest, key);
    var after := if p.charge then LedgerPaths.Commission(p.actor, p.commission, Charge(p), rest) else rest;
    var post := Then(Post(e, true, p.price), after);
    KeyedThen(Post(e, true, p.price), after, key);
    KeyedThen(Recompute(p.actor), post, key);
    KeyedThen(insert, Then(Recompute(p.actor), post), key);
    KeyedThen(insert, post, key);
    var body := Then(insert, if p.charge then Then(Recompute(p.actor), post) else post);
    var checked := if p.charge then Check(p.enforce, p.actor, Charge(p), p.limit, body) else body;
    KeyedThen(CheckFunds(p.actor, Charge(p), p.limit), body, key);
    KeyedThen(Lock(Balance(p.actor)), checked, key);
    KeyedThen(Lock(Subscriber(p.subscriber)), if p.charge then Then(Lock(Balance(p.actor)), checked) else checked, key);
  }

  lemma RenewKeyed(p: Renewal)
    ensures KeyedBy(RenewOps(p), p.key) && FirstKey(RenewOps(p)) == p.key
  {
    hide KeyedBy, FirstKey, LedgerPaths.RenewInTx;
    KeyedThen(Respond(p.key, p.receipt, p.expiry), Done, p.key);
    if p.key == "" {
      RenewInTxKeyed(p, "", Done);
    } else {
      var rest := Then(Respond(p.key, p.receipt, p.expiry), Done);
      RenewInTxKeyed(p, p.key, rest);
      KeyedThen(Lock(IdemKey(p.key)), LedgerPaths.RenewInTx(p, p.key, rest), p.key);
    }
  }

  /** A reversing row behind a row lock, and whatever of recomputation and posting follows. */
  lemma ReversalKeyed(row: Row, id: nat, hasPayment: bool)
    requires row.key == ""
    ensures var posting := Then(Post(row.entry, hasPayment, row.gross), Done);
            var (slow, fast) := (Then(Lock(Reversal(id)), Then(Insert(row), Then(Recompute(row.entry.actor), posting))),
                                 Then(Lock(Reversal(id)), Then(Insert(row), posting)));
            KeyedBy(slow, "") && FirstKey(slow) == "" && KeyedBy(fast, "") && FirstKey(fast) == ""
  {
    hide KeyedBy, FirstKey;
    var posting := Then(Post(row.entry, hasPayment, row.gross), Done);
    KeyedThen(Post(row.entry, hasPayment, row.gross), Done, "");
    KeyedThen(Recompute(row.entry.actor), posting, "");
    KeyedThen(Insert(row), Then(Recompute(row.entry.actor), posting), "");
    KeyedThen(Insert(row), posting, "");
    KeyedThen(Lock(Reversal(id)), Then(Insert(row), Then(Recompute(row.entry.actor), posting)), "");
    KeyedThen(Lock(Reversal(id)), Then(Insert(row), posting), "");
  }

  lemma RefundKeyed(original: Row, id: nat)
    ensures KeyedBy(RefundOps(original, id), "") && FirstKey(RefundOps(original, id)) == ""
  {
    hide KeyedBy, FirstKey;
    ReversalKeyed(RefundRow(original, id), id, true);
    var inner := RefundOps(original, id).rest;
    if original.entry.actor != "" {
      KeyedThen(Lock(Balance(original.entry.actor)), inner.rest, "");
    }
    KeyedThen(Lock(Subscriber(original.entry.subscriber)), inner, "");
  }

  lemma TopUpKeyed(manager: string, iqd: int)
    ensures KeyedBy(TopUpOps(manager, iqd), "") && FirstKey(TopUpOps(manager, iqd)) == ""
  {
    hide KeyedBy, FirstKey;
    var e := J.Entry(J.TopUp, iqd, manager, "", None, None);
    var post := Then(Post(e, false, 0), Done);
    KeyedThen(Post(e, false, 0), Done, "");
    KeyedThen(Recompute(manager), post, "");
    KeyedThen(Insert(Row(e, 0, "", true)), Then(Recompute(manager), post), "");
    KeyedThen(Lock(Balance(manager)), TopUpOps(manager, iqd).rest, "");
  }

  lemma UndoKeyed(original: Row, id: nat)
    ensures KeyedBy(UndoTopUpOps(original, id), "") && FirstKey(UndoTopUpOps(original, id)) == ""
  {
    hide KeyedBy, FirstKey;
    ReversalKeyed(UndoRow(original, id), id, false);
    KeyedThen(Lock(Balance(original.entry.actor)), UndoTopUpOps(original, id).rest, "");
  }

  lemma AdjustKeyed(manager: string, amount: int)
    ensures KeyedBy(Adjust(manager, amount), "") && FirstKey(Adjust(manager, amount)) == ""
  {
    hide KeyedBy, FirstKey;
    var row := Row(J.Entry(J.Adjustment, amount, manager, "", None, None), 0, "", false);
    KeyedThen(Recompute(manager), Done, "");
    KeyedThen(Insert(row), Then(Recompute(manager), Done), "");
    KeyedThen(Insert(row), Done, "");
  }

  lemma GenerateKeyed(creator: string, total: int, enforce: bool)
    ensures KeyedBy(GenerateOps(creator, total, enforce), "") && FirstKey(GenerateOps(creator, total, enforce)) == ""
  {
    hide KeyedBy, FirstKey, Adjust;
    AdjustKeyed(creator, -total);
    KeyedThen(CheckFunds(creator, total, 0), Adjust(creator, -total), "");
    if creator != "" {
      KeyedThen(Lock(Balance(creator)), GenerateOps(creator, total, enforce).rest, "");
    }
  }

  lemma {:induction false} LockVouchersKeyed(batch: nat, numbers: seq<nat>, rest: Ops)
    requires KeyedBy(rest, "") && FirstKey(rest) == ""
    ensures KeyedBy(LockVouchers(batch, numbers, rest), "") && FirstKey(LockVouchers(batch, numbers, rest)) == ""
    decreases |numbers|
  {
    hide KeyedBy, FirstKey;
    if numbers != [] {
      LockVouchersKeyed(batch, numbers[1..], rest);
      KeyedThen(Lock(Voucher(batch, numbers[0])), LockVouchers(batch, numbers[1..], rest), "");
    }
  }

  lemma VoidKeyed(batch: nat, unused: seq<nat>, creator: string, price: int)
    ensures KeyedBy(VoidOps(batch, unused, creator, price), "") && FirstKey(VoidOps(batch, unused, creator, price)) == ""
  {
    hide KeyedBy, FirstKey, Adjust, LockVouchers;
    var credit := price * |unused|;
    AdjustKeyed(creator, credit);
    KeyedThen(Lock(Balance(creator)), Adjust(creator, credit), "");
    var end := if credit > 0 && creator != "" then Then(Lock(Balance(creator)), Adjust(creator, credit)) else Done;
    LockVouchersKeyed(batch, unused, end);
    KeyedThen(Lock(Batch(batch)), LockVouchers(batch, unused, end), "");
  }

  lemma RejectKeyed(ticket: nat, trial: Option<nat>, subscriber: string, approver: string)
    ensures KeyedBy(RejectOps(ticket, trial, subscriber, approver), "") && FirstKey(RejectOps(ticket, trial, subscriber, approver)) == ""
  {
    hide KeyedBy, FirstKey;
    var tail := Then(Lock(Subscriber(subscriber)), Done);
    KeyedThen(Lock(Subscriber(subscriber)), Done, "");
    if trial.Some? {
      var insert := Insert(RejectRow(trial.value, subscriber, approver));
      KeyedThen(insert, tail, "");
      KeyedThen(Lock(Reversal(trial.value)), Then(insert, tail), "");
    }
    KeyedThen(Lock(Ticket(ticket)), RejectOps(ticket, trial, subscriber, approver).rest, "");
  }

  /** Only a renewal inserts or reserves a key, and only its own. */
  lemma PlanKeyed(ledger: seq<Row>, job: Job)
    requires Plan(ledger, job).Ok?
    ensures KeyedBy(Plan(ledger, job).value, JobKey(job)) && FirstKey(Plan(ledger, job).value) == JobKey(job)
  {
    hide KeyedBy, FirstKey, RenewOps, RefundOps, TopUpOps, UndoTopUpOps, GenerateOps, VoidOps, RejectOps, LedgerPaths.RenewInTx;
    match job
    case Renew(p) => RenewKeyed(p);
    case Redeem(batch, number, p) =>
      var q := p.(kind := J.VoucherRedeem, charge := false);
      KeyedThen(Lock(Voucher(batch, number)), LedgerPaths.RenewInTx(q, "", Done), "");
      RenewInTxKeyed(q, "", Done);
    case Refund(_, id) => RefundKeyed(ledger[id], id);
    case TopUp(manager, _, iqd) => TopUpKeyed(manager, iqd);
    case UndoTopUp(id) => UndoKeyed(ledger[id], id);
    case GenerateVouchers(creator, price, count, enforce) => GenerateKeyed(creator, price * count, enforce);
    case VoidBatch(batch, unused, creator, price) => VoidKeyed(batch, unused, creator, price);
    case InvoiceBatch(actor, price, count, enforce) => GenerateKeyed(actor, price * count, enforce);
    case RejectTicket(ticket, trial, sub, approver) => RejectKeyed(ticket, trial, sub, approver);
  }

  lemma {:induction false} KeyedRows(ops: Ops, key: string)
    requires KeyedBy(ops, key)
    ensures forall row | row in RowsOf(ops) :: row.key == "" || row.key == key
    decreases ops
  {
    if ops.Then? {
      KeyedRows(ops.rest, key);
    }
  }

  /** An approval's renewal cannot fail while its key is free. */
  lemma ApprovalIsSmooth(k: Subject, p: Renewal)
    requires IsApproval(k, p)
    ensures Smooth(RenewOps(p), Key(k))
  {
    hide Key;
    KeyIsSomething(k);
    var (key, e) := (Key(k), RenewalEntry(p));
    var end := Then(Respond(key, p.receipt, p.expiry), Done);
    assert Smooth(end, key);
    CommissionSmooth(p.actor, p.commission, Charge(p), end, key);
    var after := LedgerPaths.Commission(p.actor, p.commission, Charge(p), end);
    hide LedgerPaths.Commission;
    assert Smooth(Then(Post(e, true, p.price), after), key);
    var slow := Then(Recompute(p.actor), Then(Post(e, true, p.price), after));
    assert Smooth(slow, key);
    var body := Then(Insert(Row(e, p.price, key, true)), slow);
    assert Smooth(body, key);
    assert Smooth(Then(Lock(Balance(p.actor)), body), key);
    assert Smooth(Then(Lock(Subscriber(p.subscriber)), Then(Lock(Balance(p.actor)), body)), key);
  }

  lemma CommissionSmooth(actor: string, amount: nat, base: int, rest: Ops, key: string)
    requires Smooth(rest, key)
    ensures Smooth(LedgerPaths.Commission(actor, amount, base, rest), key)
  {
    var c := J.Entry(J.Commission, amount, actor, "", None, None);
    assert Smooth(Then(Post(c, false, 0), rest), key);
    assert Smooth(Then(Recompute(actor), Then(Post(c, false, 0), rest)), key);
  }

  lemma {:induction false} SmoothRuns(db: Db, tx: Tx, ops: Ops, key: string)
    requires Smooth(ops, key) && !Claimed(db.ledger, IdemKey(key))
    ensures Does(db, tx, ops).Some?
    decreases ops
  {
    hide J.LinesFor, Claimed, Sum, Does;
    if ops.Done? {
      DoesThen(db, tx, Lock(Ticket(0)), Done);
    } else {
      DoesThen(db, tx, ops.op, ops.rest);
      match ops.op {
        case Lock(r) =>
          if r != IdemKey(key) {
            RowLocksAreUnclaimed(db.ledger, r);
          }
          SmoothRuns(db, tx.(held := tx.held + {r}), ops.rest, key);
        case Insert(row) =>
          SmoothRuns(db, tx.(rows := tx.rows + [row]), ops.rest, key);
        case Recompute(m) =>
          SmoothRuns(db, tx.(balances := tx.balances[m := Sum(db.ledger, m) + Sum(tx.rows, m)]), ops.rest, key);
        case Post(e, hasPayment, gross) =>
          PostPasses(db, tx, e, hasPayment, gross, ops.rest);
          SmoothRuns(db, tx.(lines := tx.lines + J.LinesFor(e, hasPayment, gross).value), ops.rest, key);
        case Respond(k2, receipt, expiry) =>
          SmoothRuns(db, tx.(reply := Some(Reply(k2, receipt, expiry))), ops.rest, key);
      }
    }
  }
}

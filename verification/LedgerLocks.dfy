/** The order in which ledger transactions take their locks, and when they can wait for each other in a circle.
 */
module LedgerLocks {
  import opened Wrappers
  import J = Journal
  import opened LedgerPaths
  import opened LedgerMachine
  import opened LedgerDiscipline
  import opened LedgerInvariant
  import opened LedgerSafety

  /** Every job but the rejection of a ticket takes its locks in this order. */
  function Rank(r: Resource): nat {
    match r
    case IdemKey(_) => 0
    case Ticket(_) => 1
    case Batch(_) => 2
    case Voucher(_, _) => 3
    case Subscriber(_) => 4
    case Balance(_) => 5
    case Reversal(_) => 6
  }

  /** A lock may be taken above everything held; the vouchers of a batch in any order under the
      batch; and, in a rejection, the subscriber after the reversal. */
  predicate MayLock(held: set<Resource>, r: Resource) {
    || (forall h | h in held :: Rank(h) < Rank(r))
    || (r.Voucher? && Batch(r.batch) in held && forall h | h in held :: Rank(h) < Rank(r) || (h.Voucher? && h.batch == r.batch))
    || (r.Subscriber? && forall h | h in held :: h.Ticket? || h.Reversal?)
  }

  /** A transaction's program, and the ledger it runs over. */
  datatype Site = Site(ledger: seq<Row>, program: Ops)

  ghost predicate Rejects(program: Ops, trial: nat, subscriber: string) {
    exists ticket, approver :: program == RejectOps(ticket, Some(trial), subscriber, approver)
  }

  predicate Refunds(site: Site, row: nat) {
    row < |site.ledger| && site.program == RefundOps(site.ledger[row], row)
  }

  ghost predicate HoldsTicketOnly(held: set<Resource>) {
    exists id :: held == {Ticket(id)}
  }

  /** Who takes which lock when: a ticket first of all; a reversal under the subscriber of the row in a refund, or
      for a top-up, or right after the ticket in a rejection; a subscriber after a reversal only in that rejection. */
  ghost predicate InPlace(site: Site, held: set<Resource>, r: Resource) {
    match r
    case Ticket(_) => held == {}
    case Reversal(x) =>
      x < |site.ledger| &&
      (|| (Refunds(site, x) && Subscriber(site.ledger[x].entry.subscriber) in held)
       || site.ledger[x].entry.kind == J.TopUp
       || HoldsTicketOnly(held))
    case Subscriber(q) =>
      forall x: nat | Reversal(x) in held :: x < |site.ledger| && site.ledger[x].key != "" && Rejects(site.program, x, q)
    case _ => true
  }

  ghost predicate Ordered(site: Site, held: set<Resource>, ops: Ops)
    decreases ops
  {
    ops.Then? ==>
      && (ops.op.Lock? ==> MayLock(held, ops.op.resource) && InPlace(site, held, ops.op.resource))
      && Ordered(site, HeldAfter(held, ops.op), ops.rest)
  }

  lemma OrderedThen(site: Site, held: set<Resource>, op: Op, rest: Ops)
    ensures Ordered(site, held, Then(op, rest)) <==>
            (op.Lock? ==> MayLock(held, op.resource) && InPlace(site, held, op.resource)) && Ordered(site, HeldAfter(held, op), rest)
    ensures Ordered(site, held, Done)
  {
  }

  predicate Lockless(ops: Ops) {
    ops.Then? ==> !ops.op.Lock? && Lockless(ops.rest)
  }

  lemma {:induction false} LocklessIsOrdered(site: Site, held: set<Resource>, ops: Ops)
    requires Lockless(ops)
    ensures Ordered(site, held, ops)
    decreases ops
  {
    if ops.Then? {
      LocklessIsOrdered(site, held, ops.rest);
    }
  }

  lemma LocklessThen(op: Op, rest: Ops)
    ensures Lockless(Done)
    ensures !op.Lock? ==> (Lockless(Then(op, rest)) <==> Lockless(rest))
  {
  }

  lemma RenewInTxIsOrdered(site: Site, held: set<Resource>, p: Renewal, key: string, rest: Ops)
    requires forall h | h in held :: Rank(h) < Rank(Subscriber(p.subscriber))
    requires Lockless(rest)
    ensures Ordered(site, held, RenewInTx(p, key, rest))
  {
    hide Ordered, Lockless;
    var e := RenewalEntry(p);
    var insert := Insert(Row(e, p.price, key, true));
    var sub := held + {Subscriber(p.subscriber)};
    if p.charge {
      var c := J.Entry(J.Commission, p.commission, p.actor, "", None, None);
      LocklessThen(Post(c, false, 0), rest);
      LocklessThen(Recompute(p.actor), Then(Post(c, false, 0), rest));
      LocklessThen(Insert(Row(c, 0, "", true)), Then(Recompute(p.actor), Then(Post(c, false, 0), rest)));
      var after := Commission(p.actor, p.commission, Charge(p), rest);
      LocklessThen(Post(e, true, p.price), after);
      LocklessThen(Recompute(p.actor), Then(Post(e, true, p.price), after));
      var body := Then(insert, Then(Recompute(p.actor), Then(Post(e, true, p.price), after)));
      LocklessThen(insert, body.rest);
      LocklessThen(CheckFunds(p.actor, Charge(p), p.limit), body);
      var checked := Check(p.enforce, p.actor, Charge(p), p.limit, body);
      LocklessIsOrdered(site, sub + {Balance(p.actor)}, checked);
      OrderedThen(site, sub, Lock(Balance(p.actor)), checked);
      OrderedThen(site, held, Lock(Subscriber(p.subscriber)), Then(Lock(Balance(p.actor)), checked));
    } else {
      var body := Then(insert, Then(Post(e, true, p.price), rest));
      LocklessThen(Post(e, true, p.price), rest);
      LocklessThen(insert, body.rest);
      LocklessIsOrdered(site, sub, body);
      OrderedThen(site, held, Lock(Subscriber(p.subscriber)), body);
    }
  }

  lemma ReversalIsOrdered(site: Site, held: set<Resource>, row: Row, id: nat, hasPayment: bool)
    requires (forall h | h in held :: Rank(h) < 6) && InPlace(site, held, Reversal(id))
    ensures var posting := Then(Post(row.entry, hasPayment, row.gross), Done);
            && Ordered(site, held, Then(Lock(Reversal(id)), Then(Insert(row), Then(Recompute(row.entry.actor), posting))))
            && Ordered(site, held, Then(Lock(Reversal(id)), Then(Insert(row), posting)))
  {
    hide Ordered, Lockless;
    var posting := Then(Post(row.entry, hasPayment, row.gross), Done);
    var slow := Then(Recompute(row.entry.actor), posting);
    hide InPlace;
    LocklessThen(Post(row.entry, hasPayment, row.gross), Done);
    LocklessThen(Recompute(row.entry.actor), posting);
    LocklessThen(Insert(row), slow);
    LocklessThen(Insert(row), posting);
    LocklessIsOrdered(site, held + {Reversal(id)}, Then(Insert(row), slow));
    LocklessIsOrdered(site, held + {Reversal(id)}, Then(Insert(row), posting));
    OrderedThen(site, held, Lock(Reversal(id)), Then(Insert(row), slow));
    OrderedThen(site, held, Lock(Reversal(id)), Then(Insert(row), posting));
  }

  lemma RefundIsOrdered(site: Site, original: Row, id: nat)
    requires id < |site.ledger| && site.ledger[id] == original && site.program == RefundOps(original, id)
    ensures Ordered(site, {}, RefundOps(original, id))
  {
    hide Ordered;
    var (row, e) := (RefundRow(original, id), original.entry);
    var held := {} + {Subscriber(e.subscriber)};
    var inner := RefundOps(original, id).rest;
    if e.actor != "" {
      ReversalIsOrdered(site, held + {Balance(e.actor)}, row, id, true);
      OrderedThen(site, held, Lock(Balance(e.actor)), inner.rest);
    } else {
      ReversalIsOrdered(site, held, row, id, true);
    }
    OrderedThen(site, {}, Lock(Subscriber(e.subscriber)), inner);
  }

  lemma AdjustIsLockless(manager: string, amount: int)
    ensures Lockless(Adjust(manager, amount))
  {
    hide Lockless;
    var row := Row(J.Entry(J.Adjustment, amount, manager, "", None, None), 0, "", false);
    LocklessThen(Recompute(manager), Done);
    LocklessThen(Insert(row), Then(Recompute(manager), Done));
    LocklessThen(Insert(row), Done);
  }

  lemma TopUpIsOrdered(site: Site, manager: string, iqd: int)
    ensures Ordered(site, {}, TopUpOps(manager, iqd))
  {
    hide Ordered, Lockless;
    var e := J.Entry(J.TopUp, iqd, manager, "", None, None);
    LocklessThen(Post(e, false, 0), Done);
    LocklessThen(Recompute(manager), Then(Post(e, false, 0), Done));
    LocklessThen(Insert(Row(e, 0, "", true)), Then(Recompute(manager), Then(Post(e, false, 0), Done)));
    LocklessIsOrdered(site, {} + {Balance(manager)}, TopUpOps(manager, iqd).rest);
    OrderedThen(site, {}, Lock(Balance(manager)), TopUpOps(manager, iqd).rest);
  }

  lemma UndoTopUpIsOrdered(site: Site, original: Row, id: nat)
    requires id < |site.ledger| && site.ledger[id] == original && original.entry.kind == J.TopUp
    ensures Ordered(site, {}, UndoTopUpOps(original, id))
  {
    hide Ordered;
    var row := UndoRow(original, id);
    ReversalIsOrdered(site, {} + {Balance(row.entry.actor)}, row, id, false);
    OrderedThen(site, {}, Lock(Balance(row.entry.actor)), UndoTopUpOps(original, id).rest);
  }

  lemma GenerateIsOrdered(site: Site, creator: string, total: int, enforce: bool)
    ensures Ordered(site, {}, GenerateOps(creator, total, enforce))
  {
    hide Ordered, Lockless, Adjust;
    AdjustIsLockless(creator, -total);
    LocklessThen(CheckFunds(creator, total, 0), Adjust(creator, -total));
    if creator == "" {
      LocklessIsOrdered(site, {}, Adjust("", -total));
    } else {
      LocklessIsOrdered(site, {} + {Balance(creator)}, GenerateOps(creator, total, enforce).rest);
      OrderedThen(site, {}, Lock(Balance(creator)), GenerateOps(creator, total, enforce).rest);
    }
  }

  lemma {:induction false} LockVouchersIsOrdered(site: Site, held: set<Resource>, batch: nat, numbers: seq<nat>, rest: Ops)
    requires Batch(batch) in held && forall h | h in held :: h == Batch(batch) || (h.Voucher? && h.batch == batch)
    requires forall more: set<Resource> :: (forall h | h in more :: Rank(h) < 5) ==> Ordered(site, more, rest)
    ensures Ordered(site, held, LockVouchers(batch, numbers, rest))
    decreases |numbers|
  {
    hide Ordered;
    if numbers != [] {
      LockVouchersIsOrdered(site, held + {Voucher(batch, numbers[0])}, batch, numbers[1..], rest);
      OrderedThen(site, held, Lock(Voucher(batch, numbers[0])), LockVouchers(batch, numbers[1..], rest));
    }
  }

  lemma VoidIsOrdered(site: Site, batch: nat, unused: seq<nat>, creator: string, price: int)
    ensures Ordered(site, {}, VoidOps(batch, unused, creator, price))
  {
    hide Ordered, Adjust, LockVouchers, Lockless;
    var credit := price * |unused|;
    var end := if credit > 0 && creator != "" then Then(Lock(Balance(creator)), Adjust(creator, credit)) else Done;
    forall more: set<Resource> | forall h | h in more :: Rank(h) < 5
      ensures Ordered(site, more, end)
    {
      AdjustIsLockless(creator, credit);
      LocklessIsOrdered(site, more + {Balance(creator)}, Adjust(creator, credit));
      OrderedThen(site, more, Lock(Balance(creator)), Adjust(creator, credit));
    }
    LockVouchersIsOrdered(site, {} + {Batch(batch)}, batch, unused, end);
    OrderedThen(site, {}, Lock(Batch(batch)), LockVouchers(batch, unused, end));
  }

  lemma RejectIsOrdered(site: Site, ticket: nat, trial: Option<nat>, subscriber: string, approver: string)
    requires site.program == RejectOps(ticket, trial, subscriber, approver)
    requires trial.Some? ==> trial.value < |site.ledger| && site.ledger[trial.value].key != ""
    ensures Ordered(site, {}, RejectOps(ticket, trial, subscriber, approver))
  {
    hide Ordered;
    var held := {} + {Ticket(ticket)};
    assert held == {Ticket(ticket)} && HoldsTicketOnly(held);
    var tail := Then(Lock(Subscriber(subscriber)), Done);
    OrderedThen(site, held, Lock(Subscriber(subscriber)), Done);
    if trial.Some? {
      var both := held + {Reversal(trial.value)};
      OrderedThen(site, both, Lock(Subscriber(subscriber)), Done);
      OrderedThen(site, held, Lock(Reversal(trial.value)), RejectOps(ticket, trial, subscriber, approver).rest.rest);
      var insert := RejectOps(ticket, trial, subscriber, approver).rest.rest.op;
      OrderedThen(site, both, insert, tail);
      OrderedThen(site, both + {Subscriber(subscriber)}, insert, Done);
    } else {
      OrderedThen(site, held + {Subscriber(subscriber)}, Lock(Subscriber(subscriber)), Done);
    }
    OrderedThen(site, {}, Lock(Ticket(ticket)), RejectOps(ticket, trial, subscriber, approver).rest);
  }

  lemma RenewIsOrdered(site: Site, p: Renewal)
    ensures Ordered(site, {}, RenewOps(p))
  {
    hide Ordered, RenewInTx, Lockless;
    LocklessThen(Respond(p.key, p.receipt, p.expiry), Done);
    if p.key == "" {
      RenewInTxIsOrdered(site, {}, p, "", Done);
    } else {
      var rest := Then(Respond(p.key, p.receipt, p.expiry), Done);
      RenewInTxIsOrdered(site, {} + {IdemKey(p.key)}, p, p.key, rest);
      OrderedThen(site, {}, Lock(IdemKey(p.key)), RenewInTx(p, p.key, rest));
    }
  }

  lemma PlanIsOrdered(ledger: seq<Row>, job: Job)
    requires Plan(ledger, job).Ok?
    ensures Ordered(Site(ledger, Plan(ledger, job).value), {}, Plan(ledger, job).value)
  {
    var site := Site(ledger, Plan(ledger, job).value);
    hide Ordered, RenewOps, RefundOps, TopUpOps, UndoTopUpOps, GenerateOps, VoidOps, RejectOps, RenewInTx, Lockless, IsTrial;
    match job
    case Renew(p) => RenewIsOrdered(site, p);
    case Redeem(batch, number, p) =>
      var q := p.(kind := J.VoucherRedeem, charge := false);
      LocklessThen(Recompute(""), Done);
      RenewInTxIsOrdered(site, {} + {Voucher(batch, number)}, q, "", Done);
      OrderedThen(site, {}, Lock(Voucher(batch, number)), RenewInTx(q, "", Done));
    case Refund(_, id) => RefundIsOrdered(site, ledger[id], id);
    case TopUp(manager, _, iqd) => TopUpIsOrdered(site, manager, iqd);
    case UndoTopUp(id) => UndoTopUpIsOrdered(site, ledger[id], id);
    case GenerateVouchers(creator, price, count, enforce) => GenerateIsOrdered(site, creator, price * count, enforce);
    case VoidBatch(batch, unused, creator, price) => VoidIsOrdered(site, batch, unused, creator, price);
    case InvoiceBatch(actor, price, count, enforce) => GenerateIsOrdered(site, actor, price * count, enforce);
    case RejectTicket(ticket, trial, sub, approver) => RejectIsOrdered(site, ticket, trial, sub, approver);
  }

  // ---- every run ----

  function SiteOf(s: System, t: nat): Site
    requires t in s.txs
  {
    Site(s.db.ledger, s.txs[t].program)
  }

  ghost predicate LocksInOrder(s: System) {
    forall t | t in s.txs :: Ordered(SiteOf(s, t), s.txs[t].held, s.txs[t].todo)
  }

  lemma ExecStaysOrdered(db: Db, tx: Tx, post: Tx)
    requires Executes(db, tx, post) && Ordered(Site(db.ledger, tx.program), tx.held, tx.todo)
    ensures Ordered(Site(db.ledger, post.program), post.held, post.todo) && post.program == tx.program
  {
    hide Claimed, Sum, J.LinesFor, MayLock, InPlace, Cached;
  }

  lemma PlaceStays(ledger: seq<Row>, more: seq<Row>, program: Ops, held: set<Resource>, r: Resource)
    requires InPlace(Site(ledger, program), held, r)
    ensures InPlace(Site(ledger + more, program), held, r)
  {
    hide Rejects, RefundOps;
  }

  lemma {:induction false} OrderedGrows(ledger: seq<Row>, more: seq<Row>, program: Ops, held: set<Resource>, ops: Ops)
    requires Ordered(Site(ledger, program), held, ops)
    ensures Ordered(Site(ledger + more, program), held, ops)
    decreases ops
  {
    hide MayLock, InPlace;
    if ops.Then? {
      if ops.op.Lock? {
        PlaceStays(ledger, more, program, held, ops.op.resource);
      }
      OrderedGrows(ledger, more, program, HeldAfter(held, ops.op), ops.rest);
    }
  }

  lemma CommitStaysOrdered(s: System, t: nat)
    requires LocksInOrder(s) && t in s.txs
    ensures LocksInOrder(Committed(s, t))
  {
    hide Ordered;
    forall u | u in Committed(s, t).txs
      ensures Ordered(SiteOf(Committed(s, t), u), s.txs[u].held, s.txs[u].todo)
    {
      OrderedGrows(s.db.ledger, s.txs[t].rows, s.txs[u].program, s.txs[u].held, s.txs[u].todo);
    }
  }

  lemma {:induction false} RunsLockInOrder(events: seq<Event>)
    ensures LocksInOrder(Run(events))
  {
    hide Ordered, Plan, Exec, Blocked, Apply, Rank;
    if events != [] {
      var (s, e) := (Run(events[..|events| - 1]), events[|events| - 1]);
      RunsLockInOrder(events[..|events| - 1]);
      match e {
        case Begin(t, job) =>
          if t !in s.txs && Plan(s.db.ledger, job).Ok? {
            PlanIsOrdered(s.db.ledger, job);
          }
        case Step(t) =>
          if t in s.txs && s.txs[t].todo.Then? && !Blocked(s, t) && Exec(s.db, s.txs[t]).Some? {
            assert Executes(s.db, s.txs[t], Exec(s.db, s.txs[t]).value);
            ExecStaysOrdered(s.db, s.txs[t], Exec(s.db, s.txs[t]).value);
          }
        case Commit(t) =>
          if t in s.txs && s.txs[t].todo.Done? {
            CommitStaysOrdered(s, t);
          }
        case Abort(t) =>
      }
    }
  }

  predicate Locking(s: System, t: nat) {
    t in s.txs && s.txs[t].todo.Then? && s.txs[t].todo.op.Lock?
  }

  /** Where a waiting transaction stands: higher along every wait but one kind. */
  function Height(tx: Tx): nat
    requires tx.todo.Then? && tx.todo.op.Lock?
  {
    var r := tx.todo.op.resource;
    2 * Rank(r) + (if r.Voucher? && Batch(r.batch) in tx.held then 1 else 0)
  }

  /** t waits for a reversal that u has just inserted, while u waits for a subscriber: a rejection caught by a refund. */
  predicate Clash(s: System, t: nat, u: nat) {
    && Waits(s, t, u) && s.txs[t].todo.op.resource.Reversal?
    && Locking(s, u) && s.txs[u].todo.op.resource.Subscriber?
  }

  lemma WaitsClimb(s: System, t: nat, u: nat)
    requires Waits(s, t, u) && LocksInOrder(s) && Exclusive(s)
    requires Locking(s, u)
    ensures Clash(s, t, u) || Height(s.txs[t]) < Height(s.txs[u])
  {
    var (r, q) := (s.txs[t].todo.op.resource, s.txs[u].todo.op.resource);
    assert Ordered(SiteOf(s, t), s.txs[t].held, s.txs[t].todo) && Ordered(SiteOf(s, u), s.txs[u].held, s.txs[u].todo);
    assert MayLock(s.txs[u].held, q) && r in s.txs[u].held;
    assert s.txs[t].held !! s.txs[u].held by { assert Apart(s.txs[t], s.txs[u]); }
  }

  ghost predicate WaitPath(s: System, path: seq<nat>) {
    |path| >= 2 && forall i | 0 <= i < |path| - 1 :: Waits(s, path[i], path[i + 1])
  }

  lemma {:induction false} PathClimbs(s: System, path: seq<nat>, n: nat)
    requires WaitPath(s, path) && LocksInOrder(s) && Exclusive(s)
    requires 1 <= n < |path| && Locking(s, path[n]) && Locking(s, path[0])
    requires forall i | 0 <= i < |path| - 1 :: !Clash(s, path[i], path[i + 1])
    ensures Height(s.txs[path[0]]) < Height(s.txs[path[n]])
    decreases n
  {
    hide Clash, Height, LocksInOrder, Exclusive;
    assert Waits(s, path[n - 1], path[n]) && Locking(s, path[n - 1]);
    assert !Clash(s, path[n - 1], path[n]);
    WaitsClimb(s, path[n - 1], path[n]);
    if n > 1 {
      PathClimbs(s, path, n - 1);
    }
  }

  lemma ClimbingHasClash(s: System, path: seq<nat>)
    requires WaitPath(s, path) && path[0] == path[|path| - 1] && LocksInOrder(s) && Exclusive(s)
    ensures exists i | 0 <= i < |path| - 1 :: Clash(s, path[i], path[i + 1])
  {
    hide Clash, Height, LocksInOrder, Exclusive;
    if forall i | 0 <= i < |path| - 1 :: !Clash(s, path[i], path[i + 1]) {
      assert Waits(s, path[0], path[1]) && Locking(s, path[0]);
      PathClimbs(s, path, |path| - 1);
      assert false;
    }
  }

  /** In a circle somebody waits for everybody. */
  lemma SomebodyWaits(s: System, path: seq<nat>, i: nat) returns (k: nat)
    requires WaitPath(s, path) && path[0] == path[|path| - 1] && i < |path|
    ensures k < |path| && Waits(s, path[k], path[i])
  {
    k := if i == 0 then |path| - 2 else i - 1;
    assert Waits(s, path[k], path[k + 1]);
  }

  /** A transaction that is waited for, and is itself waited for by one that holds something, holds more than a ticket. */
  lemma TicketHoldersEndCircles(s: System, path: seq<nat>, i: nat)
    requires WaitPath(s, path) && path[0] == path[|path| - 1] && LocksInOrder(s) && i < |path|
    ensures path[i] in s.txs && !HoldsTicketOnly(s.txs[path[i]].held)
  {
    var j := SomebodyWaits(s, path, i);
    var k := SomebodyWaits(s, path, j);
    var waiter := s.txs[path[j]];
    assert Ordered(SiteOf(s, path[j]), waiter.held, waiter.todo);
  }

  /** The pair at the bottom of every deadlock: a refund of a row and the rejection of a ticket whose trial was
      answered with that row, the refund with the row's subscriber locked. */
  ghost predicate RefundAgainstRejection(s: System, t: nat, u: nat, row: nat) {
    && t in s.txs && u in s.txs && row < |s.db.ledger|
    && s.txs[t].program == RefundOps(s.db.ledger[row], row)
    && Subscriber(s.db.ledger[row].entry.subscriber) in s.txs[t].held
    && exists sub :: Rejects(s.txs[u].program, row, sub) && s.txs[u].todo.Then? && s.txs[u].todo.op == Lock(Subscriber(sub))
  }

  lemma KeyedIsNoTopUp(s: System, row: nat)
    requires DbInv(s.db) && row < |s.db.ledger| && s.db.ledger[row].key != ""
    ensures s.db.ledger[row].entry.kind != J.TopUp
  {
    assert Grounded(s.db.ledger[..row], s.db.ledger[row]);
  }

  lemma ClashIsRefundAgainstRejection(s: System, t: nat, u: nat)
    requires LocksInOrder(s) && DbInv(s.db) && Clash(s, t, u) && !HoldsTicketOnly(s.txs[t].held)
    ensures RefundAgainstRejection(s, t, u, s.txs[t].todo.op.resource.row)
  {
    hide CacheIsSum, Unique, InOrder, JournalMirrors, ResponsesNameRows, Rejects;
    var row := s.txs[t].todo.op.resource.row;
    assert Ordered(SiteOf(s, t), s.txs[t].held, s.txs[t].todo) && Ordered(SiteOf(s, u), s.txs[u].held, s.txs[u].todo);
    assert InPlace(SiteOf(s, u), s.txs[u].held, s.txs[u].todo.op.resource);
    assert Reversal(row) in s.txs[u].held;
    KeyedIsNoTopUp(s, row);
  }

  /** In every reachable state, transactions that wait for each other in a circle include the rejection of a ticket
      and a refund of the row its trial was answered with: the rejection has inserted the reversal and waits for a
      subscriber, the refund waits for the reversal. Without such a pair open there is no deadlock. */
  lemma DeadlockNeedsRejection(events: seq<Event>, path: seq<nat>)
    requires WaitPath(Run(events), path) && path[0] == path[|path| - 1]
    ensures exists t, u :: Clash(Run(events), t, u) && RefundAgainstRejection(Run(events), t, u, Run(events).txs[t].todo.op.resource.row)
  {
    hide Run, Clash, LocksInOrder, Exclusive, AnswersStored, DbInv, TxInv, HoldsTicketOnly, RefundAgainstRejection;
    var s := Run(events);
    Reachable(events);
    RunsLockInOrder(events);
    ClimbingHasClash(s, path);
    var i :| 0 <= i < |path| - 1 && Clash(s, path[i], path[i + 1]);
    TicketHoldersEndCircles(s, path, i);
    ClashIsRefundAgainstRejection(s, path[i], path[i + 1]);
  }

  /** Every ticket being rejected had its trial answered with a row of its own subscriber. */
  ghost predicate OwnTrials(s: System) {
    forall u, row: nat, sub | u in s.txs && Rejects(s.txs[u].program, row, sub) ::
      row < |s.db.ledger| ==> s.db.ledger[row].entry.subscriber == sub
  }

  ghost predicate Deadlocked(s: System) {
    exists path :: WaitPath(s, path) && path[0] == path[|path| - 1]
  }

  /** Then there is a deadlock exactly when such a refund and such a rejection wait for each other. */
  lemma DeadlockExactly(events: seq<Event>)
    requires OwnTrials(Run(events))
    ensures Deadlocked(Run(events)) <==> exists t, u :: Clash(Run(events), t, u) && Waits(Run(events), u, t)
  {
    hide Run, Rejects;
    var s := Run(events);
    if Deadlocked(s) {
      var path :| WaitPath(s, path) && path[0] == path[|path| - 1];
      DeadlockNeedsRejection(events, path);
      var t, u :| Clash(s, t, u) && RefundAgainstRejection(s, t, u, s.txs[t].todo.op.resource.row);
      assert Waits(s, u, t);
    }
    if exists t, u :: Clash(s, t, u) && Waits(s, u, t) {
      var t, u :| Clash(s, t, u) && Waits(s, u, t);
      assert WaitPath(s, [t, u, t]);
    }
  }

  lemma BeginOpens(s: System, t: nat, job: Job)
    requires t !in s.txs && Plan(s.db.ledger, job).Ok?
    ensures Next(s, Begin(t, job)) == s.(txs := s.txs[t := Open(Plan(s.db.ledger, job).value)])
  {
    hide Plan;
  }

  /** An unblocked lock on something unclaimed. */
  lemma LockTakes(s: System, t: nat)
    requires Locking(s, t) && !Claimed(s.db.ledger, s.txs[t].todo.op.resource)
    requires forall u | u in s.txs && u != t :: s.txs[t].todo.op.resource !in s.txs[u].held
    ensures var tx := s.txs[t];
            Next(s, Step(t)) == s.(txs := s.txs[t := tx.(todo := tx.todo.rest, held := tx.held + {tx.todo.op.resource})])
  {
    hide Claimed;
  }

  lemma InsertTakes(s: System, t: nat)
    requires t in s.txs && s.txs[t].todo.Then? && s.txs[t].todo.op.Insert?
    ensures var tx := s.txs[t];
            Next(s, Step(t)) == s.(txs := s.txs[t := tx.(todo := tx.todo.rest, rows := tx.rows + [tx.todo.op.row])])
  {
  }

  lemma OnlyUniqueIsClaimed(ledger: seq<Row>, r: Resource)
    requires !r.IdemKey? && !r.Reversal?
    ensures !Claimed(ledger, r)
  {
  }

  lemma BothBegin(s: System, t: nat, u: nat, ticket: nat, row: nat, sub: string, approver: string)
    requires s.txs == map[] && t != u && row < |s.db.ledger| && IsTrial(s.db.ledger[row], sub)
    ensures Next(Next(s, Begin(t, RejectTicket(ticket, Some(row), sub, approver))), Begin(u, Refund(sub, row)))
         == s.(txs := map[t := Open(RejectOps(ticket, Some(row), sub, approver)), u := Open(RefundOps(s.db.ledger[row], row))])
  {
    hide Next, RejectOps, RefundOps, Open;
    var reject := RejectTicket(ticket, Some(row), sub, approver);
    BeginOpens(s, t, reject);
    BeginOpens(Next(s, Begin(t, reject)), u, Refund(sub, row));
  }

  /** And it does happen: with nothing else open, a ticket with an unreversed trial can be rejected while
      the trial's row is being refunded so that each waits for the other for good. */
  lemma RejectionCanDeadlock(s: System, t: nat, u: nat, ticket: nat, row: nat, sub: string, approver: string)
    requires s.txs == map[] && t != u
    requires row < |s.db.ledger| && IsTrial(s.db.ledger[row], sub) && !Claimed(s.db.ledger, Reversal(row))
    ensures var open := Next(Next(s, Begin(t, RejectTicket(ticket, Some(row), sub, approver))), Begin(u, Refund(sub, row)));
            var stuck := Next(Next(Next(Next(open, Step(u)), Step(t)), Step(t)), Step(t));
            Waits(stuck, t, u) && Clash(stuck, u, t)
  {
    hide Next, Claimed, RefundRow, Plan;
    OnlyUniqueIsClaimed(s.db.ledger, Subscriber(sub));
    OnlyUniqueIsClaimed(s.db.ledger, Ticket(ticket));
    BothBegin(s, t, u, ticket, row, sub, approver);
    var s2 := s.(txs := map[t := Open(RejectOps(ticket, Some(row), sub, approver)), u := Open(RefundOps(s.db.ledger[row], row))]);
    LockTakes(s2, u);
    var s3 := Next(s2, Step(u));
    LockTakes(s3, t);
    var s4 := Next(s3, Step(t));
    LockTakes(s4, t);
    InsertTakes(Next(s4, Step(t)), t);
  }

  // ---- a trial of another subscriber ----

  /** Refund, rejection and renewal open together. */
  function OpenThree(s: System, row: nat, ticket: nat, approver: string, p: Renewal): System
    requires row < |s.db.ledger|
  {
    s.(txs := map[0 := Open(RefundOps(s.db.ledger[row], row)), 1 := Open(RejectOps(ticket, Some(row), p.subscriber, approver)),
                  2 := Open(RenewOps(p))])
  }

  /** The row a ticket's trial was answered with is another subscriber's, and an agent paid for it. */
  predicate ForeignTrial(ledger: seq<Row>, row: nat, p: Renewal) {
    && row < |ledger| && ledger[row].key != "" && ledger[row].entry.actor != ""
    && ledger[row].entry.subscriber != "" && ledger[row].entry.kind != J.Refund
    && ledger[row].entry.subscriber != p.subscriber && p.subscriber != ""
    && p.charge && p.actor == ledger[row].entry.actor && p.key == "" && J.RenewalFamily(p.kind)
  }

  lemma ThreeBegin(s: System, row: nat, ticket: nat, approver: string, p: Renewal)
    requires s.txs == map[] && ForeignTrial(s.db.ledger, row, p)
    ensures Next(Next(Next(s, Begin(0, Refund(s.db.ledger[row].entry.subscriber, row))),
                      Begin(1, RejectTicket(ticket, Some(row), p.subscriber, approver))), Begin(2, Renew(p)))
         == OpenThree(s, row, ticket, approver, p)
  {
    hide Next, RejectOps, RefundOps, RenewOps, Open;
    var refund := Refund(s.db.ledger[row].entry.subscriber, row);
    var reject := RejectTicket(ticket, Some(row), p.subscriber, approver);
    BeginOpens(s, 0, refund);
    BeginOpens(Next(s, Begin(0, refund)), 1, reject);
    BeginOpens(Next(Next(s, Begin(0, refund)), Begin(1, reject)), 2, Renew(p));
  }

  /** What a transaction holds, and the lock it asks for next. */
  predicate Asking(s: System, t: nat, held: set<Resource>, next: Resource) {
    t in s.txs && s.txs[t].held == held && s.txs[t].todo.Then? && s.txs[t].todo.op == Lock(next)
  }

  lemma RefundAsks(s: System, row: nat)
    requires row < |s.db.ledger| && s.txs.Keys == {0, 1, 2} && s.txs[0] == Open(RefundOps(s.db.ledger[row], row))
    requires s.txs[1].held == {} && s.txs[2].held == {} && s.db.ledger[row].entry.actor != ""
    ensures var (post, e) := (Next(Next(s, Step(0)), Step(0)), s.db.ledger[row].entry);
            && post.db == s.db && post.txs.Keys == {0, 1, 2} && post.txs[1] == s.txs[1] && post.txs[2] == s.txs[2]
            && Asking(post, 0, {Subscriber(e.subscriber), Balance(e.actor)}, Reversal(row))
  {
    hide Next, Claimed, RefundRow;
    var e := s.db.ledger[row].entry;
    OnlyUniqueIsClaimed(s.db.ledger, Subscriber(e.subscriber));
    OnlyUniqueIsClaimed(s.db.ledger, Balance(e.actor));
    LockTakes(s, 0);
    LockTakes(Next(s, Step(0)), 0);
  }

  lemma RejectAsks(s: System, row: nat, ticket: nat, sub: string, approver: string)
    requires s.txs.Keys == {0, 1, 2} && s.txs[1] == Open(RejectOps(ticket, Some(row), sub, approver))
    requires (forall r | r in s.txs[0].held :: r.Subscriber? || r.Balance?) && s.txs[2].held == {}
    requires !Claimed(s.db.ledger, Reversal(row))
    ensures var post := Next(Next(Next(s, Step(1)), Step(1)), Step(1));
            && post.db == s.db && post.txs.Keys == {0, 1, 2} && post.txs[0] == s.txs[0] && post.txs[2] == s.txs[2]
            && Asking(post, 1, {Ticket(ticket), Reversal(row)}, Subscriber(sub))
  {
    hide Next, Claimed, RejectRow;
    OnlyUniqueIsClaimed(s.db.ledger, Ticket(ticket));
    LockTakes(s, 1);
    LockTakes(Next(s, Step(1)), 1);
    InsertTakes(Next(Next(s, Step(1)), Step(1)), 1);
  }

  lemma RenewAsks(s: System, p: Renewal)
    requires s.txs.Keys == {0, 1, 2} && s.txs[2] == Open(RenewOps(p)) && p.key == "" && p.charge
    requires Subscriber(p.subscriber) !in s.txs[0].held && Subscriber(p.subscriber) !in s.txs[1].held
    ensures var post := Next(s, Step(2));
            && post.txs.Keys == {0, 1, 2} && post.txs[0] == s.txs[0] && post.txs[1] == s.txs[1]
            && Asking(post, 2, {Subscriber(p.subscriber)}, Balance(p.actor))
  {
    hide Next, Claimed;
    OnlyUniqueIsClaimed(s.db.ledger, Subscriber(p.subscriber));
    LockTakes(s, 2);
  }

  lemma ThreeInACircle(s: System, row: nat, ticket: nat, a: string, b: string, m: string)
    requires s.txs.Keys == {0, 1, 2} && a != b
    requires Asking(s, 0, {Subscriber(a), Balance(m)}, Reversal(row))
    requires Asking(s, 1, {Ticket(ticket), Reversal(row)}, Subscriber(b))
    requires Asking(s, 2, {Subscriber(b)}, Balance(m))
    ensures Waits(s, 0, 1) && Waits(s, 1, 2) && Waits(s, 2, 0) && Deadlocked(s)
    ensures !exists t, u :: Clash(s, t, u) && Waits(s, u, t)
  {
    assert WaitPath(s, [0, 1, 2, 0]);
  }

  /** Without that hypothesis a rejection can be in a longer circle: it waits for the renewal of its subscriber, the
      renewal for the agent's balance, and the refund that holds that balance for the reversal. */
  lemma ForeignTrialCircle(s: System, row: nat, ticket: nat, approver: string, p: Renewal)
    requires s.txs == map[] && ForeignTrial(s.db.ledger, row, p) && !Claimed(s.db.ledger, Reversal(row))
    ensures var open := Next(Next(Next(s, Begin(0, Refund(s.db.ledger[row].entry.subscriber, row))),
                                  Begin(1, RejectTicket(ticket, Some(row), p.subscriber, approver))), Begin(2, Renew(p)));
            var held := Next(Next(Next(Next(Next(open, Step(0)), Step(0)), Step(1)), Step(1)), Step(1));
            var stuck := Next(held, Step(2));
            && Waits(stuck, 0, 1) && Waits(stuck, 1, 2) && Waits(stuck, 2, 0) && Deadlocked(stuck)
            && !exists t, u :: Clash(stuck, t, u) && Waits(stuck, u, t)
  {
    hide Next, Claimed, RefundOps, RejectOps, RenewOps, Clash, Waits, Deadlocked;
    ThreeBegin(s, row, ticket, approver, p);
    var open := OpenThree(s, row, ticket, approver, p);
    RefundAsks(open, row);
    var refunding := Next(Next(open, Step(0)), Step(0));
    RejectAsks(refunding, row, ticket, p.subscriber, approver);
    var held := Next(Next(Next(refunding, Step(1)), Step(1)), Step(1));
    RenewAsks(held, p);
    ThreeInACircle(Next(held, Step(2)), row, ticket, s.db.ledger[row].entry.subscriber, p.subscriber, p.actor);
  }
}

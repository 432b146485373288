/** The billing code itself, one transaction at a time: the helpers of ledger.go and journal.go and
    the transactions of renew.go, refund.go, undo.go and balance_api.go, statement by statement. Each
    is a run of the operations LedgerPaths lists, which LedgerMachine interleaves.
 */
module LedgerBook {
  import opened Wrappers
  import J = Journal
  import opened LedgerPaths
  import opened LedgerMachine

  /** All the given operations, one after another; None when one fails. */
  function Does(db: Db, tx: Tx, ops: Ops): Option<Tx>
    decreases ops
  {
    if ops.Done? then Some(tx)
    else
      var next := Exec(db, tx.(todo := ops));
      if next.None? then None else Does(db, next.value.(todo := tx.todo), ops.rest)
  }

  lemma DoesThen(db: Db, tx: Tx, op: Op, rest: Ops)
    ensures Does(db, tx, Done) == Some(tx)
    ensures var next := Exec(db, tx.(todo := Then(op, rest)));
            Does(db, tx, Then(op, rest)) == if next.None? then None else Does(db, next.value.(todo := tx.todo), rest)
  {
  }

  /** As many steps of one transaction as it has operations. */
  function Steps(s: System, t: nat, ops: Ops): System
    decreases ops
  {
    if ops.Done? then s else Steps(Next(s, Step(t)), t, ops.rest)
  }

  lemma GoneStaysGone(s: System, t: nat, ops: Ops)
    requires t !in s.txs
    ensures Steps(s, t, ops) == s
    decreases ops
  {
    if ops.Then? {
      GoneStaysGone(s, t, ops.rest);
    }
  }

  lemma {:induction false} ProgramIsHistory(db: Db, tx: Tx, ops: Ops, program: Ops)
    ensures var (a, b) := (Does(db, tx, ops), Does(db, tx.(program := program), ops));
            a.Some? == b.Some? && (a.Some? ==> b.value == a.value.(program := program))
    decreases ops
  {
    hide Exec;
    if ops.Then? {
      ExecIgnoresProgram(db, tx.(todo := ops), program);
      assert tx.(todo := ops).(program := program) == tx.(program := program).(todo := ops);
      var next := Exec(db, tx.(todo := ops));
      if next.Some? {
        assert next.value.(program := program).(todo := tx.todo) == next.value.(todo := tx.todo).(program := program);
        ProgramIsHistory(db, next.value.(todo := tx.todo), ops.rest, program);
      }
    }
  }

  lemma ExecIgnoresProgram(db: Db, tx: Tx, program: Ops)
    requires tx.todo.Then?
    ensures var (a, b) := (Exec(db, tx), Exec(db, tx.(program := program)));
            if a.None? then b.None? else b == Some(a.value.(program := program))
  {
    hide Claimed, Sum, J.LinesFor;
  }

  lemma {:induction false} StepsDo(s: System, t: nat, ops: Ops)
    requires s.txs.Keys == {t} && s.txs[t].todo == ops
    ensures var all := Does(s.db, s.txs[t].(todo := Done), ops);
            && Steps(s, t, ops).db == s.db
            && (all.Some? ==> t in Steps(s, t, ops).txs && Steps(s, t, ops).txs[t] == all.value)
            && (all.None? ==> t !in Steps(s, t, ops).txs)
    decreases ops
  {
    hide Exec;
    if ops.Then? {
      assert !Blocked(s, t);
      assert s.txs[t].(todo := Done).(todo := ops) == s.txs[t];
      var post := Next(s, Step(t));
      match Exec(s.db, s.txs[t])
      case None => GoneStaysGone(post, t, ops.rest);
      case Some(tx) =>
        ExecGoesOn(s.db, s.txs[t], tx);
        StepsDo(post, t, ops.rest);
    } else {
      assert s.txs[t].(todo := Done) == s.txs[t];
    }
  }

  lemma ExecGoesOn(db: Db, tx: Tx, post: Tx)
    requires tx.todo.Then? && Exec(db, tx) == Some(post)
    ensures post.todo == tx.todo.rest
  {
  }

  /** A transaction that runs alone, from its begin to its commit, does what its operations do in a row:
      the methods of Book are runs of the interleaved system. */
  lemma AloneIsInARow(s: System, t: nat, job: Job)
    requires s.txs == map[] && Plan(s.db.ledger, job).Ok?
    ensures var program := Plan(s.db.ledger, job).value;
            var all := Does(s.db, Open(Done), program);
            Next(Steps(Next(s, Begin(t, job)), t, program), Commit(t)).db
            == if all.Some? then Apply(s.db, all.value) else s.db
  {
    hide Plan, Does, Exec, Steps;
    var program := Plan(s.db.ledger, job).value;
    StepsDo(Next(s, Begin(t, job)), t, program);
    ProgramIsHistory(s.db, Open(Done), program, program);
    DoesKeepsTodo(s.db, Open(Done), program);
    assert Open(Done).(program := program) == Open(program).(todo := Done);
  }

  lemma {:induction false} DoesKeepsTodo(db: Db, tx: Tx, ops: Ops)
    ensures Does(db, tx, ops).Some? ==> Does(db, tx, ops).value.todo == tx.todo
    decreases ops
  {
    hide Exec;
    if ops.Then? {
      var next := Exec(db, tx.(todo := ops));
      if next.Some? {
        DoesKeepsTodo(db, next.value.(todo := tx.todo), ops.rest);
      }
    }
  }

  datatype Failure = NotPlanned(error: Error) | Rejected

  class Book {
    var db: Db
    // the open transaction
    ghost var held: set<Resource>
    var rows: seq<Row>
    var lines: seq<J.Line>
    var balances: map<string, int>
    var reply: Option<Reply>

    ghost function View(): Tx
      reads this
    {
      Tx(Done, Done, held, rows, lines, balances, reply)
    }

    constructor (db: Db)
      ensures this.db == db && View() == Open(Done)
    {
      this.db := db;
      held, rows, lines, balances, reply := {}, [], [], map[], None;
    }

    method Begin()
      modifies this`held, this`rows, this`lines, this`balances, this`reply
      ensures View() == Open(Done)
    {
      held, rows, lines, balances, reply := {}, [], [], map[], None;
    }

    /** An insert into a unique index, or a row lock nobody else holds. */
    method Take(r: Resource, ghost rest: Ops) returns (ok: bool)
      modifies this`held
      ensures ok <==> !Claimed(db.ledger, r)
      ensures Does(db, old(View()), Then(Lock(r), rest)) == if ok then Does(db, View(), rest) else None
    {
      DoesThen(db, View(), Lock(r), rest);
      if Claimed(db.ledger, r) {
        return false;
      }
      held := held + {r};
      return true;
    }

    /** lockBalance: the cached balance, under its lock. */
    method LockBalance(m: string, ghost rest: Ops) returns (bal: int)
      modifies this`held
      ensures bal == Cached(db, View(), m)
      ensures Does(db, old(View()), Then(Lock(Balance(m)), rest)) == Does(db, View(), rest)
    {
      DoesThen(db, View(), Lock(Balance(m)), rest);
      held := held + {Balance(m)};
      bal := if m in balances then balances[m] else if m in db.balances then db.balances[m] else 0;
    }

    method InsertLedger(row: Row, ghost rest: Ops)
      modifies this`rows
      ensures Does(db, old(View()), Then(Insert(row), rest)) == Does(db, View(), rest)
    {
      DoesThen(db, View(), Insert(row), rest);
      rows := rows + [row];
    }

    /** The sum of a manager's rows, committed and own. */
    method SumRows(m: string) returns (total: int)
      ensures total == Sum(db.ledger, m) + Sum(rows, m)
    {
      var committed, own := 0, 0;
      for i := 0 to |db.ledger|
        invariant committed == Sum(db.ledger[..i], m)
      {
        assert db.ledger[..i + 1][..i] == db.ledger[..i];
        committed := committed + (if db.ledger[i].entry.actor == m then db.ledger[i].entry.amount else 0);
      }
      for i := 0 to |rows|
        invariant own == Sum(rows[..i], m)
      {
        assert rows[..i + 1][..i] == rows[..i];
        own := own + (if rows[i].entry.actor == m then rows[i].entry.amount else 0);
      }
      assert db.ledger[..|db.ledger|] == db.ledger && rows[..|rows|] == rows;
      total := committed + own;
    }

    method RecomputeBalance(m: string, ghost rest: Ops)
      modifies this`balances
      ensures Does(db, old(View()), Then(Recompute(m), rest)) == Does(db, View(), rest)
    {
      DoesThen(db, View(), Recompute(m), rest);
      var total := SumRows(m);
      balances := balances[m := total];
    }

    method PostLedgerJournal(e: J.Entry, hasPayment: bool, gross: int, ghost rest: Ops) returns (ok: bool)
      modifies this`lines
      ensures Does(db, old(View()), Then(Post(e, hasPayment, gross), rest)) == if ok then Does(db, View(), rest) else None
    {
      DoesThen(db, View(), Post(e, hasPayment, gross), rest);
      var posted := J.LinesFor(e, hasPayment, gross);
      if posted.Err? {
        return false;
      }
      if posted.value != [] {
        J.PostedIsBalanced(e, hasPayment, gross);
        var valid := J.ValidateBalanced(posted.value);
        if valid.Err? {
          return false;
        }
      }
      lines := lines + posted.value;
      return true;
    }

    method PostCommission(actor: string, base: int, amount: nat, ghost rest: Ops) returns (ok: bool)
      modifies this`rows, this`balances, this`lines
      ensures Does(db, old(View()), Commission(actor, amount, base, rest)) == if ok then Does(db, View(), rest) else None
    {
      hide Does;
      if base <= 0 || amount == 0 {
        return true;
      }
      var e := J.Entry(J.Commission, amount, actor, "", None, None);
      ghost var post := Then(Post(e, false, 0), rest);
      InsertLedger(Row(e, 0, "", true), Then(Recompute(actor), post));
      RecomputeBalance(actor, post);
      ok := PostLedgerJournal(e, false, 0, rest);
    }

    method RenewInTx(p: Renewal, key: string, ghost rest: Ops) returns (ok: bool)
      modifies this`held, this`rows, this`balances, this`lines
      ensures Does(db, old(View()), LedgerPaths.RenewInTx(p, key, rest)) == if ok then Does(db, View(), rest) else None
    {
      hide Does;
      var amount := if p.charge && p.wholesale.Some? then p.wholesale.value else p.price;
      var e := J.Entry(p.kind, if p.charge then -amount else 0, p.actor, p.subscriber, None, p.cost);
      ghost var all := LedgerPaths.RenewInTx(p, key, rest);
      ok := Take(Subscriber(p.subscriber), all.rest);
      if !ok {
        return;
      }
      if p.charge {
        var bal := LockBalance(p.actor, all.rest.rest);
        ghost var after := Commission(p.actor, p.commission, amount, rest);
        ghost var post := Then(Post(e, true, p.price), after);
        ghost var body := Then(Insert(Row(e, p.price, key, true)), Then(Recompute(p.actor), post));
        DoesThen(db, View(), CheckFunds(p.actor, amount, p.limit), body);
        if p.enforce && bal - amount < -p.limit {
          return false;
        }
        InsertLedger(Row(e, p.price, key, true), body.rest);
        RecomputeBalance(p.actor, post);
        ok := PostLedgerJournal(e, true, p.price, after);
        if ok {
          ok := PostCommission(p.actor, amount, p.commission, rest);
        }
      } else {
        InsertLedger(Row(e, p.price, key, true), Then(Post(e, true, p.price), rest));
        ok := PostLedgerJournal(e, true, p.price, rest);
      }
    }

    /** Commit: everything the transaction wrote, at once. */
    method Commit()
      modifies this`db
      ensures db == Apply(old(db), View())
    {
      db := Db(db.ledger + rows, db.balances + balances, db.journal + lines,
               if reply.None? then db.responses
               else db.responses[reply.value.key := Response(|db.ledger|, reply.value.receipt, reply.value.expiry)]);
    }

    /** renewTx: a duplicate key answers with the stored response; any failure leaves the database as it was. */
    method RenewTx(p: Renewal) returns (r: Option<Response>, duplicate: bool)
      modifies this
      ensures duplicate <==> p.key != "" && Claimed(old(db).ledger, IdemKey(p.key))
      ensures duplicate ==> db == old(db) && r == if p.key in db.responses then Some(db.responses[p.key]) else None
      ensures !duplicate ==>
                var all := Does(old(db), Open(Done), RenewOps(p));
                && (r.Some? <==> all.Some?)
                && db == (if all.Some? then Apply(old(db), all.value) else old(db))
                && (r.Some? ==> r.value == Response(|old(db).ledger|, p.receipt, p.expiry))
    {
      hide Does;
      Begin();
      ghost var stored := Then(Respond(p.key, p.receipt, p.expiry), Done);
      if p.key != "" {
        var reserved := Take(IdemKey(p.key), LedgerPaths.RenewInTx(p, p.key, stored));
        if !reserved {
          return if p.key in db.responses then Some(db.responses[p.key]) else None, true;
        }
      }
      var ok := RenewInTx(p, p.key, if p.key == "" then Done else stored);
      if !ok {
        return None, false;
      }
      DoesThen(db, View(), Respond(p.key, p.receipt, p.expiry), Done);
      if p.key != "" {
        reply := Some(Reply(p.key, p.receipt, p.expiry));
      }
      DoesThen(db, View(), Respond(p.key, p.receipt, p.expiry), Done);
      r := Some(Response(|db.ledger|, p.receipt, p.expiry));
      Commit();
      return r, false;
    }

    /** The reversing row of refundCore and undoTopupCore: the unique index refuses a second one. */
    method Reverse(row: Row, id: nat, hasPayment: bool) returns (ok: bool)
      requires row.entry.reverses == Some(id)
      modifies this`held, this`rows, this`balances, this`lines
      ensures var posting := Then(Post(row.entry, hasPayment, row.gross), Done);
              Does(db, old(View()), Then(Lock(Reversal(id)), Then(Insert(row),
                   if row.entry.actor != "" then Then(Recompute(row.entry.actor), posting) else posting)))
              == if ok then Some(View()) else None
    {
      hide Does;
      ghost var posting := Then(Post(row.entry, hasPayment, row.gross), Done);
      ghost var tail := if row.entry.actor != "" then Then(Recompute(row.entry.actor), posting) else posting;
      ok := Take(Reversal(id), Then(Insert(row), tail));
      if !ok {
        return;
      }
      InsertLedger(row, tail);
      if row.entry.actor != "" {
        RecomputeBalance(row.entry.actor, posting);
      }
      ok := PostLedgerJournal(row.entry, hasPayment, row.gross, Done);
      DoesThen(db, View(), Lock(Reversal(id)), Done);
    }

    /** refundCore: every check, then the reversing row under the subscriber and balance locks. */
    method RefundCore(sub: string, id: nat) returns (r: Result<nat, Failure>)
      modifies this
      ensures var plan := Plan(old(db).ledger, Refund(sub, id));
              && (r.Err? && r.error.NotPlanned? <==> plan.Err?)
              && (plan.Err? ==> r == Err(NotPlanned(plan.error)) && db == old(db))
              && (plan.Ok? ==>
                    var all := Does(old(db), Open(Done), plan.value);
                    && db == (if all.Some? then Apply(old(db), all.value) else old(db))
                    && r == if all.Some? then Ok(|old(db).ledger|) else Err(Rejected))
    {
      hide Does;
      Begin();
      if id >= |db.ledger| {
        return Err(NotPlanned(TxNotFound));
      }
      var original := db.ledger[id];
      if original.entry.subscriber == "" || original.entry.subscriber != sub {
        return Err(NotPlanned(TxMismatch));
      }
      if original.entry.kind == J.Refund {
        return Err(NotPlanned(NotRefundable));
      }
      var e := original.entry;
      var row := Row(J.Entry(J.Refund, -e.amount, e.actor, e.subscriber, Some(id), if e.cost.Some? then Some(-e.cost.value) else None),
                     -original.gross, "", true);
      assert row == RefundRow(original, id);
      ghost var all := RefundOps(original, id);
      var ok := Take(Subscriber(sub), all.rest);
      if !ok {
        return Err(Rejected);
      }
      if e.actor != "" {
        var _ := LockBalance(e.actor, all.rest.rest);
      }
      ok := Reverse(row, id, true);
      if !ok {
        return Err(Rejected);
      }
      r := Ok(|db.ledger|);
      Commit();
    }

    /** undoTopupCore, for a top-up on record. */
    method UndoTopUpCore(id: nat) returns (ok: bool)
      requires Plan(db.ledger, UndoTopUp(id)).Ok?
      modifies this
      ensures var all := Does(old(db), Open(Done), UndoTopUpOps(old(db).ledger[id], id));
              ok == all.Some? && db == if ok then Apply(old(db), all.value) else old(db)
    {
      hide Does;
      Begin();
      var original := db.ledger[id].entry;
      var e := J.Entry(J.TopUp, -original.amount, original.actor, "", Some(id), None);
      var _ := LockBalance(e.actor, UndoTopUpOps(db.ledger[id], id).rest);
      ok := Reverse(Row(e, 0, "", true), id, false);
      if ok {
        Commit();
      }
    }

    /** topupHandler's transaction. */
    method TopUp(manager: string, entered: int, iqd: int) returns (r: Result<nat, Failure>)
      modifies this
      ensures var plan := Plan(old(db).ledger, Job.TopUp(manager, entered, iqd));
              && (plan.Err? ==> r == Err(NotPlanned(plan.error)) && db == old(db))
              && (plan.Ok? ==>
                    var all := Does(old(db), Open(Done), plan.value);
                    && db == (if all.Some? then Apply(old(db), all.value) else old(db))
                    && r == if all.Some? then Ok(|old(db).ledger|) else Err(Rejected))
    {
      hide Does;
      Begin();
      if entered <= 0 {
        return Err(NotPlanned(BadRequest));
      }
      if manager == "" {
        return Err(NotPlanned(NoActor));
      }
      var e := J.Entry(J.TopUp, iqd, manager, "", None, None);
      ghost var post := Then(Post(e, false, 0), Done);
      var _ := LockBalance(manager, TopUpOps(manager, iqd).rest);
      InsertLedger(Row(e, 0, "", true), Then(Recompute(manager), post));
      RecomputeBalance(manager, post);
      var ok := PostLedgerJournal(e, false, 0, Done);
      DoesThen(db, View(), Lock(Balance(manager)), Done);
      if !ok {
        return Err(Rejected);
      }
      r := Ok(|db.ledger|);
      Commit();
    }
  }
}

/** Failed attempts and retries of keyed renewals (backend/internal/billing/renew.go: renewTx).
 */
module LedgerRetry {
  import opened Wrappers
  import J = Journal
  import opened LedgerPaths
  import opened LedgerMachine
  import opened LedgerDiscipline
  import opened LedgerInvariant
  import opened LedgerSafety
  import opened LedgerBook

  /** An enforced renewal its actor cannot pay for. */
  predicate Short(db: Db, p: Renewal) {
    p.charge && p.enforce && Lookup(db.balances, p.actor) - Charge(p) < -p.limit
  }

  predicate KeyFree(db: Db, key: string) {
    key == "" || !Claimed(db.ledger, IdemKey(key))
  }

  predicate Plannable(p: Renewal) {
    p.subscriber != "" && (p.charge ==> p.actor != "") && J.RenewalFamily(p.kind)
  }

  // ---- what it takes to run through ----

  lemma LockPasses(db: Db, tx: Tx, r: Resource, rest: Ops)
    requires !Claimed(db.ledger, r)
    ensures Does(db, tx, Then(Lock(r), rest)) == Does(db, tx.(held := tx.held + {r}), rest)
  {
    hide Claimed, Does;
    DoesThen(db, tx, Lock(r), rest);
  }

  lemma RowLocksAreUnclaimed(ledger: seq<Row>, r: Resource)
    requires !r.IdemKey? && !r.Reversal?
    ensures !Claimed(ledger, r)
  {
  }

  lemma InsertPasses(db: Db, tx: Tx, row: Row, rest: Ops)
    ensures Does(db, tx, Then(Insert(row), rest)) == Does(db, tx.(rows := tx.rows + [row]), rest)
  {
    hide Does, Sum, Claimed;
    DoesThen(db, tx, Insert(row), rest);
  }

  lemma RecomputePasses(db: Db, tx: Tx, m: string, rest: Ops)
    ensures Does(db, tx, Then(Recompute(m), rest))
         == Does(db, tx.(balances := tx.balances[m := Sum(db.ledger, m) + Sum(tx.rows, m)]), rest)
  {
    hide Does, Sum, Claimed, Cached;
    DoesThen(db, tx, Recompute(m), rest);
  }

  lemma PostPasses(db: Db, tx: Tx, e: J.Entry, hasPayment: bool, gross: int, rest: Ops)
    requires e.kind != J.Unknown
    ensures J.LinesFor(e, hasPayment, gross).Ok?
    ensures Does(db, tx, Then(Post(e, hasPayment, gross), rest))
         == Does(db, tx.(lines := tx.lines + J.LinesFor(e, hasPayment, gross).value), rest)
  {
    hide J.MoneyLeg, J.CostLeg, J.SignedPair, Does, Sum, Claimed;
    DoesThen(db, tx, Post(e, hasPayment, gross), rest);
  }

  /** Programs that cannot fail: nothing to check, to reserve or of an unknown kind. */
  predicate Sure(ops: Ops) {
    ops.Then? ==>
      && !ops.op.CheckFunds? && !ops.op.Lock?
      && (ops.op.Post? ==> ops.op.entry.kind != J.Unknown)
      && Sure(ops.rest)
  }

  lemma {:induction false} SureRuns(db: Db, tx: Tx, ops: Ops)
    requires Sure(ops)
    ensures Does(db, tx, ops).Some?
    decreases ops
  {
    hide J.LinesFor, Claimed, Sum, Does;
    if ops.Done? {
      DoesThen(db, tx, Lock(Ticket(0)), Done);
    } else {
      DoesThen(db, tx, ops.op, ops.rest);
      match ops.op {
        case Insert(row) =>
          InsertPasses(db, tx, row, ops.rest);
          SureRuns(db, tx.(rows := tx.rows + [row]), ops.rest);
        case Recompute(m) =>
          RecomputePasses(db, tx, m, ops.rest);
          SureRuns(db, tx.(balances := tx.balances[m := Sum(db.ledger, m) + Sum(tx.rows, m)]), ops.rest);
        case Post(e, hasPayment, gross) =>
          PostPasses(db, tx, e, hasPayment, gross, ops.rest);
          SureRuns(db, tx.(lines := tx.lines + J.LinesFor(e, hasPayment, gross).value), ops.rest);
        case Respond(key, receipt, expiry) =>
          SureRuns(db, tx.(reply := Some(Reply(key, receipt, expiry))), ops.rest);
      }
    }
  }

  lemma RenewInTxRuns(db: Db, tx: Tx, p: Renewal, key: string, rest: Ops)
    requires Plannable(p) && Sure(rest) && tx.balances == map[]
    ensures Does(db, tx, LedgerPaths.RenewInTx(p, key, rest)).Some? <==> !Short(db, p)
  {
    hide Does, Sure, Claimed, Sum;
    var e := RenewalEntry(p);
    var insert := Insert(Row(e, p.price, key, true));
    var (sub, balance) := (Subscriber(p.subscriber), Balance(p.actor));
    RowLocksAreUnclaimed(db.ledger, sub);
    RowLocksAreUnclaimed(db.ledger, balance);
    var all := LedgerPaths.RenewInTx(p, key, rest);
    LockPasses(db, tx, sub, all.rest);
    var locked := tx.(held := tx.held + {sub});
    if p.charge {
      var after := LedgerPaths.Commission(p.actor, p.commission, Charge(p), rest);
      var body := Then(insert, Then(Recompute(p.actor), Then(Post(e, true, p.price), after)));
      BodyIsSure(p, key, rest);
      LockPasses(db, locked, balance, all.rest.rest);
      var both := locked.(held := locked.held + {balance});
      DoesThen(db, both, CheckFunds(p.actor, Charge(p), p.limit), body);
      SureRuns(db, both, body);
    } else {
      FreeBodyIsSure(p, key, rest);
      SureRuns(db, locked, all.rest);
    }
  }

  lemma BodyIsSure(p: Renewal, key: string, rest: Ops)
    requires Plannable(p) && Sure(rest)
    ensures var e := RenewalEntry(p);
            Sure(Then(Insert(Row(e, p.price, key, true)), Then(Recompute(p.actor), Then(Post(e, true, p.price),
                 LedgerPaths.Commission(p.actor, p.commission, Charge(p), rest)))))
  {
    var e := RenewalEntry(p);
    var c := J.Entry(J.Commission, p.commission, p.actor, "", None, None);
    assert Sure(Then(Post(c, false, 0), rest));
    assert Sure(Then(Recompute(p.actor), Then(Post(c, false, 0), rest)));
    var after := LedgerPaths.Commission(p.actor, p.commission, Charge(p), rest);
    assert Sure(after);
    assert Sure(Then(Post(e, true, p.price), after));
    assert Sure(Then(Recompute(p.actor), Then(Post(e, true, p.price), after)));
  }

  lemma FreeBodyIsSure(p: Renewal, key: string, rest: Ops)
    requires Plannable(p) && Sure(rest)
    ensures var e := RenewalEntry(p); Sure(Then(Insert(Row(e, p.price, key, true)), Then(Post(e, true, p.price), rest)))
  {
    assert Sure(Then(Post(RenewalEntry(p), true, p.price), rest));
  }

  /** A renewal that runs alone commits exactly when its key is free and its actor is not short of funds. */
  lemma RenewRunsExactly(db: Db, p: Renewal)
    requires Plannable(p)
    ensures Does(db, Open(Done), RenewOps(p)).Some? <==> KeyFree(db, p.key) && !Short(db, p)
  {
    hide Does, Claimed, LedgerPaths.RenewInTx;
    assert Sure(Done);
    if p.key == "" {
      RenewInTxRuns(db, Open(Done), p, "", Done);
    } else {
      var rest := Then(Respond(p.key, p.receipt, p.expiry), Done);
      assert Sure(rest);
      if Claimed(db.ledger, IdemKey(p.key)) {
        DoesThen(db, Open(Done), Lock(IdemKey(p.key)), LedgerPaths.RenewInTx(p, p.key, rest));
      } else {
        LockPasses(db, Open(Done), IdemKey(p.key), LedgerPaths.RenewInTx(p, p.key, rest));
        RenewInTxRuns(db, Open(Done).(held := {IdemKey(p.key)}), p, p.key, rest);
        assert {} + {IdemKey(p.key)} == {IdemKey(p.key)};
      }
    }
  }

  // ---- the rows of a renewal ----

  /** The first row of a renewal carries its key; a commission row carries none. */
  lemma RenewRows(p: Renewal)
    ensures var rows := RowsOf(RenewOps(p));
            && 1 <= |rows| <= 2 && rows[0] == Row(RenewalEntry(p), p.price, p.key, true)
            && (|rows| == 2 ==> rows[1].key == "" && rows[1].entry.subscriber == "")
  {
    hide RowsOf;
    var e := RenewalEntry(p);
    var insert := Insert(Row(e, p.price, p.key, true));
    var end := if p.key == "" then Done else Then(Respond(p.key, p.receipt, p.expiry), Done);
    RowsOfThen(Respond(p.key, p.receipt, p.expiry), Done);
    var c := J.Entry(J.Commission, p.commission, p.actor, "", None, None);
    RowsOfThen(Post(c, false, 0), end);
    RowsOfThen(Recompute(p.actor), Then(Post(c, false, 0), end));
    RowsOfThen(Insert(Row(c, 0, "", true)), Then(Recompute(p.actor), Then(Post(c, false, 0), end)));
    var after := if p.charge then LedgerPaths.Commission(p.actor, p.commission, Charge(p), end) else end;
    var post := Then(Post(e, true, p.price), after);
    RowsOfThen(Post(e, true, p.price), after);
    RowsOfThen(Recompute(p.actor), post);
    RowsOfThen(insert, Then(Recompute(p.actor), post));
    RowsOfThen(insert, post);
    var body := Then(insert, if p.charge then Then(Recompute(p.actor), post) else post);
    var checked := if p.charge then Check(p.enforce, p.actor, Charge(p), p.limit, body) else body;
    RowsOfThen(CheckFunds(p.actor, Charge(p), p.limit), body);
    RowsOfThen(Lock(Balance(p.actor)), checked);
    var locked := if p.charge then Then(Lock(Balance(p.actor)), checked) else checked;
    RowsOfThen(Lock(Subscriber(p.subscriber)), locked);
    RowsOfThen(Lock(IdemKey(p.key)), Then(Lock(Subscriber(p.subscriber)), locked));
  }

  lemma RowsOfThen(op: Op, rest: Ops)
    ensures RowsOf(Then(op, rest)) == (if op.Insert? then [op.row] else []) + RowsOf(rest)
    ensures RowsOf(Done) == []
  {
  }

  // ---- failed attempts ----

  /** One way or another the attempt is over without a commit. */
  function Failed(s: System, t: nat): System {
    if t in s.txs && s.txs[t].todo.Then? && !Blocked(s, t) && Exec(s.db, s.txs[t]).None? then Next(s, Step(t))
    else Next(s, Abort(t))
  }

  /** In every run a keyed renewal that fails or is rolled back, unless the key was already taken, leaves the
      database as it was, the key free, unheld and unanswered. */
  lemma FailureFreesKey(events: seq<Event>, t: nat, key: string)
    requires t in Run(events).txs && key != "" && !Claimed(Run(events).db.ledger, IdemKey(key))
    requires IdemKey(key) in Run(events).txs[t].held
             || forall u | u in Run(events).txs :: IdemKey(key) !in Run(events).txs[u].held
    ensures var (s, post) := (Run(events), Failed(Run(events), t));
            && t !in post.txs && post.db == s.db && key !in post.db.responses
            && (forall u | u in post.txs :: IdemKey(key) !in post.txs[u].held)
            && (forall i | |s.answers| <= i < |post.answers| :: post.answers[i].0 != key)
  {
    hide Run, TxInv, CacheIsSum, Unique, InOrder, JournalMirrors, AnswersStored, Exec, Blocked;
    Reachable(events);
    var s := Run(events);
    forall u | u in s.txs && u != t
      ensures IdemKey(key) !in s.txs[u].held
    {
      assert Apart(s.txs[t], s.txs[u]);
    }
  }

  /** And then the same renewal can be tried again: with nothing else open it commits exactly when its actor has
      the funds, its row is the only one with the key, and the answer names it. */
  lemma RetryCommitsExactly(events: seq<Event>, t: nat, p: Renewal)
    requires Run(events).txs == map[] && Plannable(p) && p.key != "" && KeyFree(Run(events).db, p.key)
    ensures var s := Run(events);
            var post := Next(Steps(Next(s, Begin(t, Renew(p))), t, RenewOps(p)), Commit(t)).db;
            if Short(s.db, p) then post == s.db
            else post.ledger == s.db.ledger + RowsOf(RenewOps(p)) && !Claimed(s.db.ledger, IdemKey(p.key))
                 && |post.ledger| > |s.db.ledger| && post.ledger[|s.db.ledger|] == Row(RenewalEntry(p), p.price, p.key, true)
  {
    hide Run, Next, Steps, Does, RenewOps, Claimed, RowsOf;
    var s := Run(events);
    Reachable(events);
    AloneIsInARow(s, t, Renew(p));
    RenewRunsExactly(s.db, p);
    if !Short(s.db, p) {
      DoesInserts(s.db, Open(Done), RenewOps(p));
      RenewRows(p);
      assert Open(Done).rows + RowsOf(RenewOps(p)) == RowsOf(RenewOps(p));
    }
  }

  lemma {:induction false} DoesInserts(db: Db, tx: Tx, ops: Ops)
    requires Does(db, tx, ops).Some?
    ensures Does(db, tx, ops).value.rows == tx.rows + RowsOf(ops)
    decreases ops
  {
    hide J.LinesFor, Claimed, Sum, Cached;
    if ops.Done? {
      assert tx.rows + [] == tx.rows;
    } else {
      var next := Exec(db, tx.(todo := ops)).value.(todo := tx.todo);
      DoesInserts(db, next, ops.rest);
      if ops.op.Insert? {
        assert tx.rows + ([ops.op.row] + RowsOf(ops.rest)) == next.rows + RowsOf(ops.rest);
      } else {
        assert [] + RowsOf(ops.rest) == RowsOf(ops.rest);
      }
    }
  }
}

/** What every interleaving of ledger transactions keeps.
 */
module LedgerSafety {
  import opened Wrappers
  import J = Journal
  import opened LedgerPaths
  import opened LedgerMachine
  import opened LedgerDiscipline
  import opened LedgerInvariant

  // ---- a commit and the committed state ----

  lemma CommitCaches(db: Db, tx: Tx)
    requires CacheIsSum(db) && tx.todo.Done? && Settled(db, tx)
    ensures CacheIsSum(Apply(db, tx))
  {
    hide Sum;
    forall m | m != ""
      ensures Lookup(Apply(db, tx).balances, m) == Sum(db.ledger + tx.rows, m)
    {
      SumConcat(db.ledger, tx.rows, m);
    }
  }

  lemma CommitUnique(db: Db, tx: Tx)
    requires Unique(db.ledger) && ClaimsHeld(db, tx)
    ensures Unique(db.ledger + tx.rows)
  {
    hide Claims;
    var all := db.ledger + tx.rows;
    var n := |db.ledger|;
    forall i, j | 0 <= i < j < |all|
      ensures Claims(all[i]) !! Claims(all[j])
    {
      if j < n {
      } else if i >= n {
        assert all[i] == tx.rows[i - n] && all[j] == tx.rows[j - n];
      } else {
        assert all[j] == tx.rows[j - n] && tx.rows[j - n] in tx.rows;
        assert forall r | r in Claims(db.ledger[i]) :: Claimed(db.ledger, r);
      }
    }
  }

  lemma GroundedGrows(ledger: seq<Row>, more: seq<Row>, row: Row)
    requires Grounded(ledger, row)
    ensures Grounded(ledger + more, row)
  {
  }

  lemma CommitGrounds(db: Db, tx: Tx)
    requires InOrder(db.ledger) && AllGrounded(db.ledger, tx.rows)
    ensures InOrder(db.ledger + tx.rows)
  {
    hide Grounded;
    var all := db.ledger + tx.rows;
    forall j | 0 <= j < |all|
      ensures Grounded(all[..j], all[j])
    {
      if j < |db.ledger| {
        assert all[..j] == db.ledger[..j];
      } else {
        assert tx.rows[j - |db.ledger|] in tx.rows;
        GroundedGrows(db.ledger, tx.rows[..j - |db.ledger|], all[j]);
        assert all[..j] == db.ledger + tx.rows[..j - |db.ledger|];
      }
    }
  }

  lemma OrderGrounds(ledger: seq<Row>)
    requires InOrder(ledger)
    ensures AllGrounded(ledger, ledger)
  {
    hide Grounded;
    forall row | row in ledger
      ensures Grounded(ledger, row)
    {
      var j :| 0 <= j < |ledger| && ledger[j] == row;
      GroundedGrows(ledger[..j], ledger[j..], row);
      assert ledger[..j] + ledger[j..] == ledger;
    }
  }

  lemma NothingDrifts()
    ensures forall a :: Books(Done, a) == 0
    ensures forall m :: Drift(Done, m) == 0
  {
  }

  lemma CommitMirrors(db: Db, tx: Tx)
    requires JournalMirrors(db) && tx.todo.Done? && Mirrors(tx)
    ensures JournalMirrors(Apply(db, tx))
  {
    hide Sum, PostedSum, BooksSum, J.WalletNet, J.AccountNet, J.Debits, J.Credits;
    J.SumsConcat(db.journal, tx.lines);
    NothingDrifts();
    forall a
      ensures J.AccountNet(db.journal + tx.lines, a) == BooksSum(db.ledger + tx.rows, a)
    {
      BooksConcat(db.ledger, tx.rows, a);
      J.AccountConcat(db.journal, tx.lines, a);
    }
    forall m | m != ""
      ensures J.WalletNet(db.journal + tx.lines, m) == PostedSum(db.ledger + tx.rows, m)
    {
      SumConcat(db.ledger, tx.rows, m);
      J.WalletConcat(db.journal, tx.lines, m);
    }
  }

  lemma CommitResponds(db: Db, tx: Tx)
    requires ResponsesNameRows(db) && tx.todo.Done? && KeyedFirst(tx)
    ensures ResponsesNameRows(Apply(db, tx))
  {
    var post := Apply(db, tx);
    forall i | 0 <= i < |post.ledger| && post.ledger[i].key != ""
      ensures post.ledger[i].key in post.responses
    {
      if i >= |db.ledger| {
        assert post.ledger[i] == tx.rows[i - |db.ledger|];
        assert tx.rows[i - |db.ledger|] in tx.rows;
      }
    }
  }

  /** A commit keeps the committed state in order. */
  lemma CommitKeepsDb(db: Db, tx: Tx)
    requires DbInv(db) && TxInv(db, tx) && tx.todo.Done?
    ensures DbInv(Apply(db, tx))
  {
    hide CacheIsSum, Settled, Unique, ClaimsHeld, AllGrounded, InOrder, OnPlan, JournalMirrors, Mirrors, ResponsesNameRows, KeyedFirst, Solvent, Guarded, ChecksFirst, Sound;
    CommitCaches(db, tx);
    CommitUnique(db, tx);
    CommitGrounds(db, tx);
    CommitMirrors(db, tx);
    CommitResponds(db, tx);
  }

  // ---- a commit and the other open transactions ----

  /** Two transactions that share no lock. */
  ghost predicate Apart(tx: Tx, other: Tx) {
    tx.held !! other.held
  }

  lemma {:induction false} SoundGrows(ledger: seq<Row>, more: seq<Row>, held: set<Resource>, ops: Ops)
    requires Sound(ledger, held, ops)
    ensures Sound(ledger + more, held, ops)
    decreases ops
  {
    hide Grounded, Recalculates, Checks, FutureClaims, FirstKey, Responds, Net, Claims;
    if ops.Then? {
      if ops.op.Insert? {
        GroundedGrows(ledger, more, ops.op.row);
      }
      SoundGrows(ledger, more, HeldAfter(held, ops.op), ops.rest);
    }
  }

  lemma OthersSettle(db: Db, tx: Tx, other: Tx)
    requires CacheIsSum(db) && CacheIsSum(Apply(db, tx))
    requires Guarded(tx) && Guarded(other) && Settled(db, other) && Apart(tx, other)
    ensures Settled(Apply(db, tx), other)
  {
    hide Sum, Recalculates;
    forall m | m != ""
      ensures Recalculates(other.todo, m) || Cached(Apply(db, tx), other, m) == Sum(db.ledger + tx.rows, m) + Sum(other.rows, m)
    {
      SumConcat(db.ledger, tx.rows, m);
      if Balance(m) in other.held {
        UnheldIsStill(tx, m);
      } else {
        UnheldIsStill(other, m);
      }
    }
  }

  lemma ClaimedConcat(a: seq<Row>, b: seq<Row>, r: Resource)
    ensures Claimed(a + b, r) ==> Claimed(a, r) || exists row | row in b :: r in Claims(row)
  {
    hide Claims;
    if Claimed(a + b, r) {
      var i :| 0 <= i < |a + b| && r in Claims((a + b)[i]);
      if i >= |a| {
        assert b[i - |a|] in b;
      }
    }
  }

  lemma OthersClaim(db: Db, tx: Tx, other: Tx)
    requires ClaimsHeld(db, tx) && ClaimsHeld(db, other) && Apart(tx, other)
    ensures ClaimsHeld(Apply(db, tx), other)
  {
    hide Claims, FutureClaims, Unique;
    forall r | r in other.held
      ensures !Claimed(db.ledger + tx.rows, r)
    {
      ClaimedConcat(db.ledger, tx.rows, r);
    }
  }

  lemma OthersGround(db: Db, tx: Tx, other: Tx)
    requires AllGrounded(db.ledger, other.rows)
    ensures AllGrounded(db.ledger + tx.rows, other.rows)
  {
    hide Grounded;
    forall row | row in other.rows
      ensures Grounded(db.ledger + tx.rows, row)
    {
      GroundedGrows(db.ledger, tx.rows, row);
    }
  }

  lemma OthersSolve(db: Db, tx: Tx, other: Tx)
    requires Guarded(tx) && Solvent(db, other) && Apart(tx, other)
    ensures Solvent(Apply(db, tx), other)
  {
    hide Sum, Net, Contains;
    forall m, charge, limit | Contains(other.program, CheckFunds(m, charge, limit)) && !Contains(other.todo, CheckFunds(m, charge, limit))
      ensures m != "" && Balance(m) in other.held && Sum(db.ledger + tx.rows, m) + Sum(other.rows, m) + Net(other.todo, m) >= -limit
    {
      SumConcat(db.ledger, tx.rows, m);
      UnheldIsStill(tx, m);
    }
  }

  /** A commit takes nothing from a transaction that shares no lock with it. */
  lemma CommitKeepsOthers(db: Db, tx: Tx, other: Tx)
    requires DbInv(db) && DbInv(Apply(db, tx)) && TxInv(db, tx) && TxInv(db, other) && Apart(tx, other)
    ensures TxInv(Apply(db, tx), other)
  {
    hide CacheIsSum, Settled, Unique, ClaimsHeld, AllGrounded, InOrder, OnPlan, JournalMirrors, Mirrors, ResponsesNameRows, KeyedFirst, Solvent, Guarded, ChecksFirst, Sound, Apart;
    SoundGrows(db.ledger, tx.rows, other.held, other.todo);
    OthersSettle(db, tx, other);
    OthersClaim(db, tx, other);
    OthersGround(db, tx, other);
    OthersSolve(db, tx, other);
  }

  // ---- a new transaction ----

  lemma OpenStarts(db: Db, program: Ops)
    requires DbInv(db) && Disciplined(db.ledger, {}, program)
    ensures TxInv(db, Open(program))
  {
    hide Sound, InOrder, JournalMirrors, ResponsesNameRows;
    NoRowsFor(program);
    assert Solvent(db, Open(program));
  }

  lemma NoRowsFor(program: Ops)
    ensures forall m :: Sum([], m) == 0 && PostedSum([], m) == 0 && J.WalletNet([], m) == 0
    ensures forall a :: BooksSum([], a) == 0 && J.AccountNet([], a) == 0
    ensures J.Debits([]) == J.Credits([]) == 0
  {
  }

  // ---- the whole system ----

  ghost predicate Exclusive(s: System) {
    forall t, u | t in s.txs && u in s.txs && t != u :: Apart(s.txs[t], s.txs[u])
  }

  ghost predicate AnswersStored(s: System) {
    forall i | 0 <= i < |s.answers| ::
      s.answers[i].0 in s.db.responses && s.db.responses[s.answers[i].0] == s.answers[i].1
  }

  ghost predicate Inv(s: System) {
    DbInv(s.db) && Exclusive(s) && AnswersStored(s) && forall t | t in s.txs :: TxInv(s.db, s.txs[t])
  }

  lemma BeginKeeps(s: System, t: nat, job: Job)
    requires Inv(s)
    ensures Inv(Next(s, Begin(t, job)))
  {
    hide TxInv, Plan, Disciplined, CacheIsSum, Unique, InOrder, JournalMirrors, ResponsesNameRows, Grounded;
    var plan := Plan(s.db.ledger, job);
    if t !in s.txs && plan.Ok? {
      OrderGrounds(s.db.ledger);
      PlanIsDisciplined(s.db.ledger, job);
      OpenStarts(s.db, plan.value);
    }
  }

  lemma FailKeeps(s: System, t: nat)
    requires Inv(s) && t in s.txs
    ensures Inv(Fail(s, t)) && Inv(s.(txs := s.txs - {t}))
  {
    hide TxInv, DbInv;
  }

  /** The locks of a transaction after one unblocked operation are still its own. */
  lemma StepStaysApart(s: System, t: nat, post: Tx)
    requires Exclusive(s) && t in s.txs && !Blocked(s, t) && Executes(s.db, s.txs[t], post)
    ensures Exclusive(s.(txs := s.txs[t := post]))
  {
    hide J.LinesFor, Sum, Cached, Claimed;
    var tx := s.txs[t];
    if tx.todo.op.Lock? {
      forall u | u in s.txs && u != t
        ensures tx.todo.op.resource !in s.txs[u].held
      {
        assert !Waits(s, t, u);
      }
    }
  }

  lemma StepKeeps(s: System, t: nat)
    requires Inv(s)
    ensures Inv(Next(s, Step(t)))
  {
    hide TxInv, DbInv, Exec, Blocked, Exclusive, Fail;
    if t in s.txs && s.txs[t].todo.Then? && !Blocked(s, t) {
      match Exec(s.db, s.txs[t])
      case None => FailKeeps(s, t);
      case Some(post) =>
        assert Executes(s.db, s.txs[t], post);
        ExecKeeps(s.db, s.txs[t], post);
        StepStaysApart(s, t, post);
    }
  }

  lemma CommitAnswers(s: System, t: nat)
    requires AnswersStored(s) && ResponsesNameRows(s.db) && t in s.txs && KeyedFirst(s.txs[t]) && ClaimsHeld(s.db, s.txs[t])
    ensures AnswersStored(Committed(s, t))
  {
    hide FutureClaims, Responds, FirstKey, Unique;
    var tx := s.txs[t];
    if tx.reply.Some? {
      var k := tx.reply.value.key;
      assert tx.rows[0] in tx.rows && IdemKey(k) in Claims(tx.rows[0]);
    }
  }

  lemma CommitKeeps(s: System, t: nat)
    requires Inv(s)
    ensures Inv(Next(s, Commit(t)))
  {
    hide CacheIsSum, Settled, Unique, ClaimsHeld, AllGrounded, InOrder, OnPlan, JournalMirrors, Mirrors, ResponsesNameRows, KeyedFirst, Solvent,
      Guarded, ChecksFirst, Sound, Apart, Apply, AnswersStored;
    if t in s.txs && s.txs[t].todo.Done? {
      CommitKeepsDb(s.db, s.txs[t]);
      CommitAnswers(s, t);
      forall u | u in s.txs && u != t
        ensures TxInv(Apply(s.db, s.txs[t]), s.txs[u])
      {
        CommitKeepsOthers(s.db, s.txs[t], s.txs[u]);
      }
    }
  }

  /** Every event keeps the invariant. */
  lemma NextKeeps(s: System, e: Event)
    requires Inv(s)
    ensures Inv(Next(s, e))
  {
    hide *;
    match e
    case Begin(t, job) => BeginKeeps(s, t, job);
    case Step(t) => StepKeeps(s, t);
    case Commit(t) => CommitKeeps(s, t);
    case Abort(t) => AbortKeeps(s, t);
  }

  lemma AbortKeeps(s: System, t: nat)
    requires Inv(s)
    ensures Inv(Next(s, Abort(t)))
  {
    hide Inv;
    if t in s.txs {
      FailKeeps(s, t);
    }
  }

  lemma StartInv()
    ensures Inv(Start())
  {
    NoRowsFor(Done);
  }

  /** Every interleaving of any number of transactions reaches only states in order. */
  lemma {:induction false} Reachable(events: seq<Event>)
    ensures Inv(Run(events))
  {
    hide Inv, Next, Start;
    if events == [] {
      StartInv();
    } else {
      Reachable(events[..|events| - 1]);
      NextKeeps(Run(events[..|events| - 1]), events[|events| - 1]);
    }
  }

  // ---- what that means ----

  /** After every event of every run, each manager's cached balance is the sum of the manager's committed rows. */
  lemma CacheEqualsLedger(events: seq<Event>, manager: string)
    requires manager != ""
    ensures var db := Run(events).db; Lookup(db.balances, manager) == Sum(db.ledger, manager)
  {
    hide Run, Sum, Lookup, Exclusive, AnswersStored, TxInv;
    Reachable(events);
  }

  /** A commit appends exactly the rows of the program, and so moves each balance by their sum. */
  lemma CommitAppends(events: seq<Event>, t: nat, m: string)
    requires var s := Run(events); t in s.txs && s.txs[t].todo.Done? && m != ""
    ensures var (s, post) := (Run(events), Next(Run(events), Commit(t)));
            && post.db.ledger == s.db.ledger + RowsOf(s.txs[t].program)
            && Lookup(post.db.balances, m) == Lookup(s.db.balances, m) + Sum(RowsOf(s.txs[t].program), m)
  {
    hide Run, Sum, Settled, Exclusive, AnswersStored, JournalMirrors, InOrder, Unique, Guarded, ChecksFirst, ClaimsHeld, AllGrounded, Mirrors, KeyedFirst, Solvent, Sound, ResponsesNameRows;
    Reachable(events);
    var s := Run(events);
    assert RowsOf(Done) == [];
    assert s.txs[t].rows == s.txs[t].rows + [];
    SumConcat(s.db.ledger, s.txs[t].rows, m);
    CommitCaches(s.db, s.txs[t]);
  }

  /** The wallet account of the journal carries, for each manager, exactly the journaled rows; the whole journal balances. */
  lemma JournalMirrorsLedger(events: seq<Event>, manager: string)
    requires manager != ""
    ensures var db := Run(events).db;
            && J.WalletNet(db.journal, manager) == PostedSum(db.ledger, manager)
            && J.Debits(db.journal) == J.Credits(db.journal)
  {
    hide Run, Sum, PostedSum, BooksSum, J.WalletNet, J.AccountNet, J.Debits, J.Credits, Exclusive, AnswersStored, TxInv, CacheIsSum, Unique;
    Reachable(events);
  }

  predicate Unjournaled(row: Row, manager: string) {
    !row.posted && AmountFor(row, manager) != 0
  }

  lemma {:induction false} PostedIsAll(rows: seq<Row>, m: string)
    requires forall row | row in rows :: !Unjournaled(row, m)
    ensures PostedSum(rows, m) == Sum(rows, m)
  {
    if rows != [] {
      assert rows[|rows| - 1] in rows;
      PostedIsAll(rows[..|rows| - 1], m);
    }
  }

  /** Where a manager has no voucher-batch or batch-invoice rows, the wallet subledger is the cached balance. */
  lemma WalletEqualsBalance(events: seq<Event>, manager: string)
    requires manager != "" && forall row | row in Run(events).db.ledger :: !Unjournaled(row, manager)
    ensures var db := Run(events).db; J.WalletNet(db.journal, manager) == Lookup(db.balances, manager)
  {
    hide Run, Sum, PostedSum, J.WalletNet, Lookup, Unjournaled;
    PostedIsAll(Run(events).db.ledger, manager);
    CacheEqualsLedger(events, manager);
    JournalMirrorsLedger(events, manager);
  }

  /** No row has two reversals, and no idempotency key has two rows. */
  lemma OneReversalOneKey(events: seq<Event>, i: nat, j: nat)
    requires i < j < |Run(events).db.ledger|
    ensures var (a, b) := (Run(events).db.ledger[i], Run(events).db.ledger[j]);
            && (a.entry.reverses.Some? ==> b.entry.reverses != a.entry.reverses)
            && (a.key != "" ==> b.key != a.key)
  {
    hide Run, Exclusive, AnswersStored, TxInv, CacheIsSum, JournalMirrors, InOrder, ResponsesNameRows;
    Reachable(events);
    var (a, b) := (Run(events).db.ledger[i], Run(events).db.ledger[j]);
    assert Claims(a) !! Claims(b);
  }

  /** Any two successful answers for one key are the same, and name the one ledger row with that key. */
  lemma SameAnswer(events: seq<Event>, i: nat, j: nat)
    requires i < |Run(events).answers| && j < |Run(events).answers|
    requires Run(events).answers[i].0 == Run(events).answers[j].0
    ensures var (s, key, r) := (Run(events), Run(events).answers[i].0, Run(events).answers[i].1);
            && r == s.answers[j].1
            && r.row < |s.db.ledger| && s.db.ledger[r.row].key == key
            && forall k | 0 <= k < |s.db.ledger| && s.db.ledger[k].key == key :: k == r.row
  {
    hide Run, Exclusive, TxInv, CacheIsSum, JournalMirrors, InOrder, Unique, Claims;
    Reachable(events);
    var (s, r) := (Run(events), Run(events).answers[i].1);
    forall k | 0 <= k < |s.db.ledger| && s.db.ledger[k].key == s.answers[i].0
      ensures k == r.row
    {
      if k < r.row {
        OneReversalOneKey(events, k, r.row);
      } else if r.row < k {
        OneReversalOneKey(events, r.row, k);
      }
    }
  }

  /** What a finished transaction commits is what it planned. */
  lemma CommittedRows(s: System, t: nat)
    requires Inv(s) && t in s.txs && s.txs[t].todo.Done?
    ensures s.txs[t].rows == RowsOf(s.txs[t].program)
    ensures Next(s, Commit(t)).db.ledger == s.db.ledger + RowsOf(s.txs[t].program)
  {
    hide CacheIsSum, Unique, InOrder, JournalMirrors, AnswersStored, Exclusive, ResponsesNameRows,
      Guarded, Settled, ChecksFirst, ClaimsHeld, AllGrounded, Mirrors, Solvent, Sound;
    assert RowsOf(Done) == [] && s.txs[t].rows + [] == s.txs[t].rows;
    assert OnPlan(s.txs[t]);
  }

  /** A renewal whose key is already in the ledger fails without a second row, and is answered from the store. */
  lemma DuplicateIsAnswered(events: seq<Event>, t: nat, key: string)
    requires var s := Run(events);
             && t in s.txs && s.txs[t].todo.Then? && s.txs[t].todo.op == Lock(IdemKey(key))
             && !Blocked(s, t) && Claimed(s.db.ledger, IdemKey(key))
    ensures var (s, post) := (Run(events), Next(Run(events), Step(t)));
            && post.db == s.db && t !in post.txs && key in s.db.responses
            && post.answers == s.answers + [(key, s.db.responses[key])]
  {
    hide Run, Exclusive, TxInv, CacheIsSum, JournalMirrors, InOrder, Unique, Blocked;
    Reachable(events);
    var s := Run(events);
    var i :| 0 <= i < |s.db.ledger| && IdemKey(key) in Claims(s.db.ledger[i]);
    assert s.db.ledger[i].key == key;
  }

  /** A transaction that passed a funds check commits only within the limit it checked. */
  lemma ChecksHoldAtCommit(events: seq<Event>, t: nat, m: string, charge: int, limit: int)
    requires var s := Run(events); t in s.txs && s.txs[t].todo.Done? && Contains(s.txs[t].program, CheckFunds(m, charge, limit))
    ensures Lookup(Next(Run(events), Commit(t)).db.balances, m) >= -limit
  {
    hide Run, Exclusive, AnswersStored, JournalMirrors, InOrder, Unique, Sum, Guarded, ChecksFirst, ClaimsHeld, Mirrors, KeyedFirst, Sound, Claims, ResponsesNameRows;
    Reachable(events);
    var s := Run(events);
    var tx := s.txs[t];
    NothingLeft(m, charge, limit);
    SumConcat(s.db.ledger, tx.rows, m);
    CommitCaches(s.db, tx);
  }

  lemma NothingLeft(m: string, charge: int, limit: int)
    ensures Net(Done, m) == 0 && !Contains(Done, CheckFunds(m, charge, limit)) && !Recalculates(Done, m)
  {
  }

  /** An enforced renewal is one that checks: it never commits with its actor below the credit limit. */
  lemma EnforcedRenewalsStayWithinLimit(events: seq<Event>, t: nat, p: Renewal)
    requires var s := Run(events); t in s.txs && s.txs[t].todo.Done? && s.txs[t].program == RenewOps(p)
    requires p.charge && p.enforce
    ensures Lookup(Next(Run(events), Commit(t)).db.balances, p.actor) >= -p.limit
  {
    hide Run, Next;
    var rest := RenewInTx(p, p.key, if p.key == "" then Done else Then(Respond(p.key, p.receipt, p.expiry), Done));
    assert Contains(rest.rest.rest, CheckFunds(p.actor, Charge(p), p.limit));
    assert Contains(rest.rest, CheckFunds(p.actor, Charge(p), p.limit));
    assert Contains(rest, CheckFunds(p.actor, Charge(p), p.limit));
    ChecksHoldAtCommit(events, t, p.actor, Charge(p), p.limit);
  }
}

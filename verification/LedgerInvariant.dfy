/** What holds of the committed ledger, and of every open transaction relative to it, and why one
    operation of a transaction keeps it.
 */
module LedgerInvariant {
  import opened Wrappers
  import J = Journal
  import opened LedgerPaths
  import opened LedgerMachine
  import opened LedgerDiscipline

  // ---- the committed state ----

  /** The cached balance of every manager is the sum of that manager's rows. */
  ghost predicate CacheIsSum(db: Db) {
    forall m :: m != "" ==> Lookup(db.balances, m) == Sum(db.ledger, m)
  }

  /** No two rows bring the same unique value: one reversal a row, one row a key. */
  ghost predicate Unique(rows: seq<Row>) {
    forall i, j | 0 <= i < j < |rows| :: Claims(rows[i]) !! Claims(rows[j])
  }

  ghost predicate AllGrounded(ledger: seq<Row>, rows: seq<Row>) {
    forall row | row in rows :: Grounded(ledger, row)
  }

  /** Every reversal points back at an earlier row. */
  ghost predicate InOrder(ledger: seq<Row>) {
    forall j | 0 <= j < |ledger| :: Grounded(ledger[..j], ledger[j])
  }

  function PostedSum(rows: seq<Row>, manager: string): int {
    if rows == [] then 0 else PostedSum(rows[..|rows| - 1], manager) + PostedFor(rows[|rows| - 1], manager)
  }

  /** What the rows put on one account of the journal. */
  function BooksSum(rows: seq<Row>, account: J.Account): int {
    if rows == [] then 0 else BooksSum(rows[..|rows| - 1], account) + J.AccountNet(RowLines(rows[|rows| - 1]), account)
  }

  /** The wallet account carries every journaled row, every account the lines the rows stand for, and the
      journal as a whole balances. */
  ghost predicate JournalMirrors(db: Db) {
    && (forall a :: J.AccountNet(db.journal, a) == BooksSum(db.ledger, a))
    && (forall m :: m != "" ==> J.WalletNet(db.journal, m) == PostedSum(db.ledger, m))
    && J.Debits(db.journal) == J.Credits(db.journal)
  }

  /** Every key in the ledger has a stored response, and a response names a row with its key. */
  ghost predicate ResponsesNameRows(db: Db) {
    && (forall k | k in db.responses :: k != "" && db.responses[k].row < |db.ledger| && db.ledger[db.responses[k].row].key == k)
    && (forall i | 0 <= i < |db.ledger| :: db.ledger[i].key != "" ==> db.ledger[i].key in db.responses)
  }

  ghost predicate DbInv(db: Db) {
    CacheIsSum(db) && Unique(db.ledger) && InOrder(db.ledger) && JournalMirrors(db) && ResponsesNameRows(db)
  }

  // ---- an open transaction ----

  /** Balances are touched only under their lock. */
  ghost predicate Guarded(tx: Tx) {
    && (forall row | row in tx.rows :: row.entry.amount != 0 && row.entry.actor != "" ==> Balance(row.entry.actor) in tx.held)
    && (forall m | m in tx.balances :: Balance(m) in tx.held)
  }

  /** Each balance is right once the recomputations still to come are done. */
  ghost predicate Settled(db: Db, tx: Tx) {
    forall m :: m != "" ==> Recalculates(tx.todo, m) || Cached(db, tx, m) == Sum(db.ledger, m) + Sum(tx.rows, m)
  }

  ghost predicate ChecksFirst(tx: Tx) {
    Checks(tx.todo) ==> tx.rows == [] && tx.balances == map[]
  }

  ghost predicate ClaimsHeld(db: Db, tx: Tx) {
    && (forall r | r in tx.held :: !Claimed(db.ledger, r))
    && (forall row | row in tx.rows :: Claims(row) <= tx.held && Claims(row) !! FutureClaims(tx.todo))
    && Unique(tx.rows)
  }

  ghost predicate Mirrors(tx: Tx) {
    && (forall a :: BooksSum(tx.rows, a) - J.AccountNet(tx.lines, a) + Books(tx.todo, a) == 0)
    && (forall m :: m != "" ==> PostedSum(tx.rows, m) - J.WalletNet(tx.lines, m) + Drift(tx.todo, m) == 0)
    && J.Debits(tx.lines) == J.Credits(tx.lines)
  }

  ghost predicate KeyedFirst(tx: Tx) {
    && (forall k | IdemKey(k) in tx.held :: if tx.rows == [] then FirstKey(tx.todo) == k else tx.rows[0].key == k)
    && (tx.reply.Some? ==> tx.reply.value.key != "" && tx.rows != [] && tx.rows[0].key == tx.reply.value.key)
    && (forall row | row in tx.rows && row.key != "" ::
          Responds(tx.todo, row.key) || (tx.reply.Some? && tx.reply.value.key == row.key))
  }

  predicate Contains(ops: Ops, op: Op) {
    ops.Then? && (ops.op == op || Contains(ops.rest, op))
  }

  /** Once a funds check has passed, the balance with everything still to come stays within its limit. */
  ghost predicate Solvent(db: Db, tx: Tx) {
    forall m, charge, limit :: Contains(tx.program, CheckFunds(m, charge, limit)) ==>
      || Contains(tx.todo, CheckFunds(m, charge, limit))
      || (m != "" && Balance(m) in tx.held && Sum(db.ledger, m) + Sum(tx.rows, m) + Net(tx.todo, m) >= -limit)
  }

  /** What is written and what is still to come is what was planned. */
  ghost predicate OnPlan(tx: Tx) {
    tx.rows + RowsOf(tx.todo) == RowsOf(tx.program)
  }

  ghost predicate TxInv(db: Db, tx: Tx) {
    && Sound(db.ledger, tx.held, tx.todo)
    && Guarded(tx) && Settled(db, tx) && ChecksFirst(tx) && ClaimsHeld(db, tx)
    && AllGrounded(db.ledger, tx.rows) && Mirrors(tx) && KeyedFirst(tx) && Solvent(db, tx) && OnPlan(tx)
  }

  // ---- sums ----

  lemma SumSnoc(rows: seq<Row>, row: Row, m: string)
    ensures Sum(rows + [row], m) == Sum(rows, m) + AmountFor(row, m)
    ensures PostedSum(rows + [row], m) == PostedSum(rows, m) + PostedFor(row, m)
  {
    assert (rows + [row])[..|rows|] == rows;
  }

  lemma BooksSnoc(rows: seq<Row>, row: Row, a: J.Account)
    ensures BooksSum(rows + [row], a) == BooksSum(rows, a) + J.AccountNet(RowLines(row), a)
  {
    assert (rows + [row])[..|rows|] == rows;
  }

  lemma {:induction false} BooksConcat(a: seq<Row>, b: seq<Row>, account: J.Account)
    ensures BooksSum(a + b, account) == BooksSum(a, account) + BooksSum(b, account)
    decreases |b|
  {
    hide RowLines, J.AccountNet;
    if b == [] {
      assert a + b == a;
    } else {
      assert (a + b)[..|a + b| - 1] == a + b[..|b| - 1];
      BooksConcat(a, b[..|b| - 1], account);
    }
  }

  lemma {:induction false} SumConcat(a: seq<Row>, b: seq<Row>, m: string)
    ensures Sum(a + b, m) == Sum(a, m) + Sum(b, m)
    ensures PostedSum(a + b, m) == PostedSum(a, m) + PostedSum(b, m)
    decreases |b|
  {
    if b == [] {
      assert a + b == a;
    } else {
      assert (a + b)[..|a + b| - 1] == a + b[..|b| - 1];
      SumConcat(a, b[..|b| - 1], m);
    }
  }

  lemma {:induction false} ZeroSum(rows: seq<Row>, m: string)
    requires forall row | row in rows :: AmountFor(row, m) == 0
    ensures Sum(rows, m) == 0
  {
    if rows != [] {
      assert rows[|rows| - 1] in rows;
      ZeroSum(rows[..|rows| - 1], m);
    }
  }

  /** A transaction that does not hold a balance does not move it. */
  lemma UnheldIsStill(tx: Tx, m: string)
    requires Guarded(tx) && m != "" && Balance(m) !in tx.held
    ensures Sum(tx.rows, m) == 0 && m !in tx.balances
  {
    forall row | row in tx.rows
      ensures AmountFor(row, m) == 0
    {
    }
    ZeroSum(tx.rows, m);
  }

  // ---- one operation of the transaction itself ----

  ghost predicate Executes(db: Db, tx: Tx, post: Tx) {
    tx.todo.Then? && Exec(db, tx) == Some(post)
  }

  lemma ExecGuards(db: Db, tx: Tx, post: Tx)
    requires Executes(db, tx, post) && Sound(db.ledger, tx.held, tx.todo) && Guarded(tx)
    ensures Sound(db.ledger, post.held, post.todo) && Guarded(post)
  {
    hide Grounded, Claims, Sum, Checks, FutureClaims, FirstKey, Responds, Net, J.LinesFor;
  }

  lemma ExecSettles(db: Db, tx: Tx, post: Tx)
    requires Executes(db, tx, post) && Sound(db.ledger, tx.held, tx.todo) && Settled(db, tx)
    ensures Settled(db, post)
  {
    hide Grounded, Claims, Claimed, Sum, Checks, FutureClaims, FirstKey, Responds, Net, J.LinesFor;
    forall m | m != ""
      ensures Recalculates(post.todo, m) || Cached(db, post, m) == Sum(db.ledger, m) + Sum(post.rows, m)
    {
      if tx.todo.op.Insert? {
        SumSnoc(tx.rows, tx.todo.op.row, m);
      }
    }
  }

  lemma ExecChecksFirst(db: Db, tx: Tx, post: Tx)
    requires Executes(db, tx, post) && Sound(db.ledger, tx.held, tx.todo) && ChecksFirst(tx)
    ensures ChecksFirst(post)
  {
    hide Grounded, Claims, Claimed, Sum, FutureClaims, FirstKey, Responds, Net, J.LinesFor, Recalculates;
  }

  lemma ExecClaims(db: Db, tx: Tx, post: Tx)
    requires Executes(db, tx, post) && Sound(db.ledger, tx.held, tx.todo) && ClaimsHeld(db, tx)
    ensures ClaimsHeld(db, post)
  {
    hide Grounded, Claims, Claimed, Sum, Checks, FirstKey, Responds, Net, J.LinesFor, Recalculates;
  }

  lemma ExecGrounds(db: Db, tx: Tx, post: Tx)
    requires Executes(db, tx, post) && Sound(db.ledger, tx.held, tx.todo) && AllGrounded(db.ledger, tx.rows)
    ensures AllGrounded(db.ledger, post.rows)
  {
    hide Grounded, Claims, Claimed, Sum, Checks, FirstKey, Responds, Net, J.LinesFor, Recalculates, FutureClaims;
  }

  lemma ExecMirrors(db: Db, tx: Tx, post: Tx)
    requires Executes(db, tx, post) && Sound(db.ledger, tx.held, tx.todo) && Mirrors(tx)
    ensures Mirrors(post)
  {
    hide Grounded, Claims, Claimed, Sum, Checks, FirstKey, Responds, Net, J.LinesFor, Recalculates, FutureClaims, PostedSum, J.WalletNet, J.AccountNet, BooksSum, RowLines, J.Debits, J.Credits, J.Balanced;
    if tx.todo.op.Post? {
      var op := tx.todo.op;
      var lines := J.LinesFor(op.entry, op.hasPayment, op.gross).value;
      J.PostedIsBalanced(op.entry, op.hasPayment, op.gross);
      BalancedSums(lines);
      J.SumsConcat(tx.lines, lines);
    }
    forall a
      ensures BooksSum(post.rows, a) - J.AccountNet(post.lines, a) + Books(post.todo, a) == 0
    {
      ExecMirrorsAccounts(db, tx, post, a);
    }
    forall m | m != ""
      ensures PostedSum(post.rows, m) - J.WalletNet(post.lines, m) + Drift(post.todo, m) == 0
    {
      if tx.todo.op.Insert? {
        SumSnoc(tx.rows, tx.todo.op.row, m);
      } else if tx.todo.op.Post? {
        var op := tx.todo.op;
        J.EntryMovesWallet(op.entry, op.hasPayment, op.gross, m);
        J.WalletConcat(tx.lines, J.LinesFor(op.entry, op.hasPayment, op.gross).value, m);
      }
    }
  }

  lemma ExecMirrorsAccounts(db: Db, tx: Tx, post: Tx, a: J.Account)
    requires Executes(db, tx, post) && Mirrors(tx)
    ensures BooksSum(post.rows, a) - J.AccountNet(post.lines, a) + Books(post.todo, a) == 0
  {
    hide Claimed, Sum, J.LinesFor, J.AccountNet, BooksSum, PostedSum, J.WalletNet, J.Debits, J.Credits, RowLines;
    if tx.todo.op.Insert? {
      BooksSnoc(tx.rows, tx.todo.op.row, a);
    } else if tx.todo.op.Post? {
      var op := tx.todo.op;
      J.AccountConcat(tx.lines, J.LinesFor(op.entry, op.hasPayment, op.gross).value, a);
    }
  }

  lemma BalancedSums(lines: seq<J.Line>)
    requires lines == [] || J.Balanced(lines)
    ensures J.Debits(lines) == J.Credits(lines)
  {
  }

  lemma InsertKeysFirst(db: Db, tx: Tx, post: Tx)
    requires Executes(db, tx, post) && Sound(db.ledger, tx.held, tx.todo) && KeyedFirst(tx) && tx.todo.op.Insert?
    requires tx.reply.Some? ==> tx.rows != []
    ensures KeyedFirst(post)
  {
    hide Grounded, Sum, Net, Recalculates, FutureClaims, Checks;
    var row := tx.todo.op.row;
    assert post.rows == tx.rows + [row] && post.held == tx.held && post.reply == tx.reply && post.todo == tx.todo.rest;
    forall r | r in post.rows && r.key != ""
      ensures Responds(post.todo, r.key) || (post.reply.Some? && post.reply.value.key == r.key)
    {
      assert r in tx.rows || r == row;
    }
  }

  lemma ExecKeysFirst(db: Db, tx: Tx, post: Tx)
    requires Executes(db, tx, post) && Sound(db.ledger, tx.held, tx.todo) && KeyedFirst(tx) && ClaimsHeld(db, tx) && ChecksFirst(tx)
    ensures KeyedFirst(post)
  {
    if tx.todo.op.Insert? {
      InsertKeysFirst(db, tx, post);
    } else {
      hide Grounded, Claimed, Claims, Cached, Sum, Net, J.LinesFor, Recalculates, FutureClaims;
      assert post.rows == tx.rows && post.todo == tx.todo.rest;
    }
  }

  lemma ExecSolves(db: Db, tx: Tx, post: Tx)
    requires Executes(db, tx, post) && Sound(db.ledger, tx.held, tx.todo) && Solvent(db, tx) && ChecksFirst(tx) && CacheIsSum(db)
    ensures Solvent(db, post)
  {
    hide Grounded, Claimed, Claims, FirstKey, Responds, J.LinesFor, Recalculates, FutureClaims, Sum;
    forall m, charge, limit | Contains(post.program, CheckFunds(m, charge, limit)) && !Contains(post.todo, CheckFunds(m, charge, limit))
      ensures m != "" && Balance(m) in post.held && Sum(db.ledger, m) + Sum(post.rows, m) + Net(post.todo, m) >= -limit
    {
      if tx.todo.op.Insert? {
        SumSnoc(tx.rows, tx.todo.op.row, m);
      } else if tx.todo.op.CheckFunds? {
        NoRows(m);
      }
    }
  }

  lemma ExecStaysOnPlan(db: Db, tx: Tx, post: Tx)
    requires Executes(db, tx, post) && OnPlan(tx)
    ensures OnPlan(post)
  {
    hide Claimed, Sum, J.LinesFor;
    if tx.todo.op.Insert? {
      assert tx.rows + ([tx.todo.op.row] + RowsOf(post.todo)) == post.rows + RowsOf(post.todo);
    } else {
      assert [] + RowsOf(post.todo) == RowsOf(post.todo);
    }
  }

  lemma NoRows(m: string)
    ensures Sum([], m) == 0
  {
  }

  /** An operation of an open transaction keeps everything known about it. */
  lemma ExecKeeps(db: Db, tx: Tx, post: Tx)
    requires Executes(db, tx, post) && DbInv(db) && TxInv(db, tx)
    ensures TxInv(db, post)
  {
    hide Executes, Exec, Sound, Guarded, Settled, ChecksFirst, ClaimsHeld, AllGrounded, Mirrors, KeyedFirst, Solvent, CacheIsSum, OnPlan;
    ExecGuards(db, tx, post);
    ExecSettles(db, tx, post);
    ExecChecksFirst(db, tx, post);
    ExecClaims(db, tx, post);
    ExecGrounds(db, tx, post);
    ExecMirrors(db, tx, post);
    ExecKeysFirst(db, tx, post);
    ExecSolves(db, tx, post);
    ExecStaysOnPlan(db, tx, post);
  }
}

/** The transactions of LedgerPaths, interleaved step by step over one database
    (backend/internal/billing/ledger.go). Row locks and uncommitted unique-index entries are held
    to the end; a read sees what is committed plus the transaction's own writes.
 */
module LedgerMachine {
  import opened Wrappers
  import J = Journal
  import opened LedgerPaths

  /** The stored answer of a keyed renewal; `row` is its ledger id. */
  datatype Response = Response(row: nat, receipt: nat, expiry: int)

  /** Committed state. A row's id is its position in the ledger. */
  datatype Db = Db(ledger: seq<Row>, balances: map<string, int>, journal: seq<J.Line>, responses: map<string, Response>)

  datatype Reply = Reply(key: string, receipt: nat, expiry: int)

  /** An open transaction: what is left to do, the locks it holds, and its uncommitted writes. */
  datatype Tx = Tx(program: Ops, todo: Ops, held: set<Resource>, rows: seq<Row>, lines: seq<J.Line>,
                   balances: map<string, int>, reply: Option<Reply>)

  const EMPTY := Db([], map[], [], map[])

  function Open(program: Ops): Tx {
    Tx(program, program, {}, [], [], map[], None)
  }

  // ---- what the database computes ----

  function AmountFor(row: Row, manager: string): int {
    if row.entry.actor == manager then row.entry.amount else 0
  }

  /** The sum recomputeBalance asks for. */
  function Sum(rows: seq<Row>, manager: string): int {
    if rows == [] then 0 else Sum(rows[..|rows| - 1], manager) + AmountFor(rows[|rows| - 1], manager)
  }

  function Lookup(balances: map<string, int>, manager: string): int {
    if manager in balances then balances[manager] else 0
  }

  /** The balance row as the transaction sees it. */
  function Cached(db: Db, tx: Tx, manager: string): int {
    if manager in tx.balances then tx.balances[manager] else Lookup(db.balances, manager)
  }

  /** The unique-index entries a row brings. */
  function Claims(row: Row): set<Resource> {
    (if row.entry.reverses.Some? then {Reversal(row.entry.reverses.value)} else {})
    + (if row.key != "" then {IdemKey(row.key)} else {})
  }

  predicate Claimed(ledger: seq<Row>, r: Resource) {
    exists i | 0 <= i < |ledger| :: r in Claims(ledger[i])
  }

  // ---- one operation ----

  /** The next operation of an unblocked transaction; None when it fails. */
  function Exec(db: Db, tx: Tx): Option<Tx>
    requires tx.todo.Then?
  {
    var next := tx.(todo := tx.todo.rest);
    match tx.todo.op
    case Lock(r) => if Claimed(db.ledger, r) then None else Some(next.(held := tx.held + {r}))
    case CheckFunds(m, charge, limit) => if Cached(db, tx, m) - charge < -limit then None else Some(next)
    case Insert(row) => Some(next.(rows := tx.rows + [row]))
    case Recompute(m) => Some(next.(balances := tx.balances[m := Sum(db.ledger, m) + Sum(tx.rows, m)]))
    case Post(e, hasPayment, gross) =>
      (match J.LinesFor(e, hasPayment, gross)
       case Err(_) => None
       case Ok(lines) => Some(next.(lines := tx.lines + lines)))
    case Respond(key, receipt, expiry) => Some(next.(reply := Some(Reply(key, receipt, expiry))))
  }

  /** Everything the transaction wrote becomes visible at once. The keyed row of a renewal is its first. */
  function Apply(db: Db, tx: Tx): Db {
    Db(db.ledger + tx.rows, db.balances + tx.balances, db.journal + tx.lines,
       if tx.reply.None? then db.responses
       else db.responses[tx.reply.value.key := Response(|db.ledger|, tx.reply.value.receipt, tx.reply.value.expiry)])
  }

  // ---- all transactions together ----

  /** `answers` is every successful answer given for an idempotency key. */
  datatype System = System(db: Db, txs: map<nat, Tx>, answers: seq<(string, Response)>)

  datatype Event = Begin(t: nat, job: Job) | Step(t: nat) | Commit(t: nat) | Abort(t: nat)

  predicate Waits(s: System, t: nat, u: nat) {
    && t in s.txs && u in s.txs && t != u
    && s.txs[t].todo.Then? && s.txs[t].todo.op.Lock?
    && s.txs[t].todo.op.resource in s.txs[u].held
  }

  predicate Blocked(s: System, t: nat) {
    exists u | u in s.txs :: Waits(s, t, u)
  }

  function Start(): System {
    System(EMPTY, map[], [])
  }

  /** A failed transaction is rolled back; a renewal whose key is taken answers from the store. */
  function Fail(s: System, t: nat): System
    requires t in s.txs
  {
    var todo := s.txs[t].todo;
    var replay := todo.Then? && todo.op.Lock? && todo.op.resource.IdemKey? && todo.op.resource.key in s.db.responses;
    s.(txs := s.txs - {t},
       answers := if replay then s.answers + [(todo.op.resource.key, s.db.responses[todo.op.resource.key])] else s.answers)
  }

  function Committed(s: System, t: nat): System
    requires t in s.txs
  {
    var (db, reply) := (Apply(s.db, s.txs[t]), s.txs[t].reply);
    System(db, s.txs - {t},
           if reply.Some? then s.answers + [(reply.value.key, db.responses[reply.value.key])] else s.answers)
  }

  /** One event; one that is not possible in the state changes nothing. */
  function Next(s: System, e: Event): System {
    match e
    case Begin(t, job) =>
      var plan := Plan(s.db.ledger, job);
      if t in s.txs || plan.Err? then s else s.(txs := s.txs[t := Open(plan.value)])
    case Step(t) =>
      if t !in s.txs || s.txs[t].todo.Done? || Blocked(s, t) then s
      else (match Exec(s.db, s.txs[t])
            case None => Fail(s, t)
            case Some(tx) => s.(txs := s.txs[t := tx]))
    case Commit(t) =>
      if t !in s.txs || s.txs[t].todo.Then? then s else Committed(s, t)
    case Abort(t) =>
      if t !in s.txs then s else s.(txs := s.txs - {t})
  }

  function Run(events: seq<Event>): System {
    if events == [] then Start() else Next(Run(events[..|events| - 1]), events[|events| - 1])
  }
}

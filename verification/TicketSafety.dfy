/** What every run of approvals, rejections and other ledger transactions keeps of one ticket.
 */
module TicketSafety {
  import opened Wrappers
  import J = Journal
  import opened LedgerPaths
  import opened LedgerMachine
  import opened LedgerDiscipline
  import opened LedgerInvariant
  import opened LedgerSafety
  import opened LedgerRetry
  import opened TicketMachine

  // ---- the ledger's side ----

  ghost predicate KeysInv(s: System) {
    forall t | t in s.txs ::
      KeyedBy(s.txs[t].program, FirstKey(s.txs[t].program)) && KeyedBy(s.txs[t].todo, FirstKey(s.txs[t].program))
  }

  lemma ExecGoesOn(db: Db, tx: Tx, post: Tx)
    requires tx.todo.Then? && Exec(db, tx) == Some(post)
    ensures post.todo == tx.todo.rest && post.program == tx.program
  {
    hide Claimed, Sum, J.LinesFor;
  }

  lemma NextKeepsKeys(s: System, e: Event)
    requires KeysInv(s)
    ensures KeysInv(Next(s, e))
  {
    hide Plan, Exec, Blocked, FirstKey, Apply;
    match e
    case Begin(t, job) =>
      if t !in s.txs && Plan(s.db.ledger, job).Ok? {
        hide KeyedBy;
        PlanKeyed(s.db.ledger, job);
      }
    case Step(t) =>
      if t in s.txs && s.txs[t].todo.Then? && Exec(s.db, s.txs[t]).Some? {
        ExecGoesOn(s.db, s.txs[t], Exec(s.db, s.txs[t]).value);
      }
    case _ =>
  }

  /** An event either leaves a transaction where it is, or moves it on, or ends it. */
  lemma NextMoves(s: System, e: Event, t: nat)
    requires t in s.txs
    ensures var post := Next(s, e);
            && (t in post.txs ==>
                  || post.txs[t] == s.txs[t]
                  || (s.txs[t].todo.Then? && post.txs[t].todo == s.txs[t].todo.rest && post.txs[t].program == s.txs[t].program))
            && (t !in post.txs ==> e == Step(t) || e == Commit(t) || e == Abort(t))
  {
    hide Plan, Exec, Blocked, Apply;
    if e == Step(t) && s.txs[t].todo.Then? && Exec(s.db, s.txs[t]).Some? {
      ExecGoesOn(s.db, s.txs[t], Exec(s.db, s.txs[t]).value);
    }
  }

  lemma NextGrows(s: System, e: Event)
    ensures s.db.ledger <= Next(s, e).db.ledger && |s.answers| <= |Next(s, e).answers|
    ensures forall t | t in Next(s, e).txs && t !in s.txs :: e.Begin? && e.t == t
  {
    hide Plan, Exec, Blocked;
  }

  // ---- the invariant ----

  ghost predicate ApprovalTx(k: Subject, tx: Tx) {
    (exists p :: IsApproval(k, p) && tx.program == RenewOps(p)) && Smooth(tx.todo, Key(k))
  }

  ghost predicate PhaseOk(k: Subject, s: System, f: Phase) {
    match f
    case Looked => true
    case Calling(t) => t in s.txs && ApprovalTx(k, s.txs[t])
    case Answered(r) => Keyed(k, s.db.ledger, r)
  }

  ghost predicate WInv(k: Subject, w: World) {
    && Inv(w.sys) && KeysInv(w.sys)
    && (forall a | a in w.approvals :: PhaseOk(k, w.sys, w.approvals[a]))
    && (w.decision == Approved <==> w.row.Some?)
    && (w.row.Some? ==> Keyed(k, w.sys.db.ledger, w.row.value))
  }

  lemma ApprovalKeyed(k: Subject, tx: Tx)
    requires ApprovalTx(k, tx)
    ensures FirstKey(tx.program) == Key(k) && RowsOf(tx.program) != []
    ensures RowsOf(tx.program)[0].key == Key(k) && ChargesFor(k, RowsOf(tx.program)[0])
    ensures forall row | row in RowsOf(tx.program) && row.key == Key(k) :: row.entry.subscriber == k.subscriber
    ensures Charges(k, RowsOf(tx.program)) >= 1
  {
    hide FirstKey, RenewOps, Smooth, RowsOf, Key;
    KeyIsSomething(k);
    var p :| IsApproval(k, p) && tx.program == RenewOps(p);
    RenewKeyed(p);
    RenewRows(p);
    var rows := RowsOf(tx.program);
    assert rows == [rows[0]] + rows[1..];
    ChargesConcat(k, [rows[0]], rows[1..]);
    assert [rows[0]][..0] == [];
  }

  /** An answer given to an approval's transaction names a row with the ticket's key. */
  lemma AnswerIsKeyed(k: Subject, s: System, e: Event, t: nat)
    requires Inv(s) && KeysInv(s) && t in s.txs && ApprovalTx(k, s.txs[t])
    requires t !in Next(s, e).txs && |Next(s, e).answers| > |s.answers|
    ensures var post := Next(s, e); Keyed(k, post.db.ledger, post.answers[|post.answers| - 1].1.row)
  {
    hide Plan, Exec, Blocked, FirstKey, RowsOf, Smooth, CacheIsSum, Unique, InOrder, JournalMirrors, AnswersStored, Exclusive,
      Guarded, Settled, ChecksFirst, ClaimsHeld, AllGrounded, Mirrors, Solvent, Sound, Key, Charges;
    NextMoves(s, e, t);
    ApprovalKeyed(k, s.txs[t]);
    var tx := s.txs[t];
    if e == Commit(t) {
      CommittedRows(s, t);
    } else {
      assert e == Step(t);
    }
  }

  lemma SeenOk(k: Subject, s: System, e: Event, f: Phase)
    requires Inv(s) && KeysInv(s) && PhaseOk(k, s, f) && Survives(f, s, Next(s, e))
    ensures PhaseOk(k, Next(s, e), Seen(f, s, Next(s, e)))
  {
    hide Inv, KeysInv, Next, Key;
    NextGrows(s, e);
    if f.Calling? {
      NextMoves(s, e, f.t);
      if f.t !in Next(s, e).txs {
        AnswerIsKeyed(k, s, e, f.t);
      }
    }
  }

  lemma LedgerKeeps(k: Subject, w: World, e: Event, approvals: map<nat, Phase>)
    requires WInv(k, w) && forall a | a in approvals :: PhaseOk(k, w.sys, approvals[a])
    ensures var sys := Next(w.sys, e); WInv(k, w.(sys := sys, approvals := Observe(approvals, w.sys, sys)))
  {
    hide Inv, KeysInv, Next, PhaseOk, Survives, Seen, Key;
    var sys := Next(w.sys, e);
    NextKeeps(w.sys, e);
    NextKeepsKeys(w.sys, e);
    NextGrows(w.sys, e);
    forall a | a in approvals && Survives(approvals[a], w.sys, sys)
      ensures PhaseOk(k, sys, Seen(approvals[a], w.sys, sys))
    {
      SeenOk(k, w.sys, e, approvals[a]);
    }
  }

  /** Nothing happens to the ledger: every phase is seen as it was. */
  lemma ObserveNothing(k: Subject, s: System, approvals: map<nat, Phase>)
    requires forall a | a in approvals :: PhaseOk(k, s, approvals[a])
    ensures Observe(approvals, s, s) == approvals
  {
    hide ApprovalTx, Keyed;
    forall a | a in approvals
      ensures Survives(approvals[a], s, s) && Seen(approvals[a], s, s) == approvals[a]
    {
      assert PhaseOk(k, s, approvals[a]);
    }
  }

  lemma CallKeeps(k: Subject, w: World, a: nat, t: nat, p: Renewal)
    requires WInv(k, w) && a in w.approvals && w.approvals[a] == Looked && t !in w.sys.txs && IsApproval(k, p)
    ensures WInv(k, TicketMachine.Step(k, w, Call(a, t, p)))
    ensures var sys := TicketMachine.Step(k, w, Call(a, t, p)).sys;
            sys == w.sys.(txs := w.sys.txs[t := Open(RenewOps(p))])
  {
    hide Inv, KeysInv, RenewOps, Smooth, Key;
    var e := Begin(t, Renew(p));
    KeyIsSomething(k);
    NextKeeps(w.sys, e);
    NextKeepsKeys(w.sys, e);
    ApprovalIsSmooth(k, p);
    assert Plan(w.sys.db.ledger, Renew(p)) == Ok(RenewOps(p));
    assert ApprovalTx(k, Open(RenewOps(p)));
  }

  lemma StepKeeps(k: Subject, w: World, m: Move)
    requires WInv(k, w)
    ensures WInv(k, TicketMachine.Step(k, w, m))
  {
    hide Inv, KeysInv, Next, PhaseOk, Survives, Seen, Observe, Key, IsApproval;
    match m
    case Ledger(e) => LedgerKeeps(k, w, e, w.approvals);
    case Call(a, t, p) =>
      if a in w.approvals && w.approvals[a] == Looked && t !in w.sys.txs && IsApproval(k, p) {
        CallKeeps(k, w, a, t, p);
      }
    case Drop(a) =>
      if a in w.approvals {
        if w.approvals[a].Calling? {
          LedgerKeeps(k, w, Abort(w.approvals[a].t), w.approvals - {a});
        } else {
          ObserveNothing(k, w.sys, w.approvals - {a});
        }
      }
    case Look(a) => LookedIsOk(k, w.sys);
    case Settle(a) =>
      if a in w.approvals && w.approvals[a].Answered? {
        AnsweredIsKeyed(k, w.sys, w.approvals[a]);
      }
    case Reject =>
  }

  lemma LookedIsOk(k: Subject, s: System)
    ensures PhaseOk(k, s, Looked)
  {
  }

  lemma AnsweredIsKeyed(k: Subject, s: System, f: Phase)
    requires PhaseOk(k, s, f) && f.Answered?
    ensures Keyed(k, s.db.ledger, f.row)
  {
  }

  lemma {:induction false} FromKeeps(k: Subject, w: World, moves: seq<Move>)
    requires WInv(k, w)
    ensures WInv(k, From(k, w, moves))
  {
    hide WInv, TicketMachine.Step;
    if moves != [] {
      FromKeeps(k, w, moves[..|moves| - 1]);
      StepKeeps(k, From(k, w, moves[..|moves| - 1]), moves[|moves| - 1]);
    }
  }

  lemma Reachable(k: Subject, moves: seq<Move>)
    ensures WInv(k, After(k, moves))
  {
    hide Inv;
    StartInv();
    FromKeeps(k, SUBMITTED, moves);
  }

  // ---- runs in which nobody else uses the ticket's key ----

  /** Other callers of the renewal path keep off the ticket's key. */
  ghost predicate OwnKey(k: Subject, moves: seq<Move>) {
    forall m | m in moves && m.Ledger? && m.e.Begin? :: JobKey(m.e.job) != Key(k)
  }

  ghost predicate CalledFor(w: World, t: nat) {
    exists a :: a in w.approvals && w.approvals[a] == Calling(t)
  }

  ghost predicate OwnTxs(k: Subject, w: World) {
    forall t | t in w.sys.txs && FirstKey(w.sys.txs[t].program) == Key(k) :: CalledFor(w, t)
  }

  ghost predicate OwnRows(k: Subject, ledger: seq<Row>) {
    forall row | row in ledger && row.key == Key(k) :: row.entry.subscriber == k.subscriber
  }

  ghost predicate OwnInv(k: Subject, w: World) {
    WInv(k, w) && OwnTxs(k, w) && OwnRows(k, w.sys.db.ledger)
  }

  /** A charge is then the same thing as a taken key. */
  lemma OwnCharges(k: Subject, w: World)
    requires OwnInv(k, w)
    ensures Charges(k, w.sys.db.ledger) == if Claimed(w.sys.db.ledger, IdemKey(Key(k))) then 1 else 0
  {
    hide TxInv, CacheIsSum, InOrder, JournalMirrors, AnswersStored, Exclusive, ResponsesNameRows, KeysInv, PhaseOk, Charges, Key;
    var ledger := w.sys.db.ledger;
    if Claimed(ledger, IdemKey(Key(k))) {
      var r := ClaimedKeyIsKeyed(k, ledger);
      assert ledger[r] in ledger;
      KeyedRowDecides(k, ledger, r);
    } else {
      FreeKeyChargesNothing(k, ledger);
    }
  }

  lemma NextKeepsOwnRows(k: Subject, w: World, e: Event)
    requires OwnInv(k, w)
    ensures OwnRows(k, Next(w.sys, e).db.ledger)
  {
    hide Plan, Exec, Blocked, TxInv, DbInv, Exclusive, AnswersStored, FirstKey, RowsOf, KeyedBy, Key, ApprovalTx;
    if e.Commit? && e.t in w.sys.txs && w.sys.txs[e.t].todo.Done? {
      var tx := w.sys.txs[e.t];
      CommittedRows(w.sys, e.t);
      if FirstKey(tx.program) == Key(k) {
        assert CalledFor(w, e.t);
        ApprovalKeyed(k, tx);
      } else {
        KeyIsSomething(k);
        KeyedRows(tx.program, FirstKey(tx.program));
      }
    }
  }

  /** A transaction that is called for stays so as long as it is open. */
  lemma NextKeepsOwnTxs(k: Subject, w: World, e: Event)
    requires OwnInv(k, w) && (e.Begin? ==> JobKey(e.job) != Key(k))
    ensures OwnTxs(k, TicketMachine.Step(k, w, Ledger(e)))
  {
    hide FirstKey, Key, WInv, OwnRows;
    var post := TicketMachine.Step(k, w, Ledger(e));
    forall t | t in post.sys.txs && FirstKey(post.sys.txs[t].program) == Key(k)
      ensures CalledFor(post, t)
    {
      if t in w.sys.txs {
        SameProgram(w.sys, e, t);
        assert CalledFor(w, t);
        var a :| a in w.approvals && w.approvals[a] == Calling(t);
        assert post.approvals[a] == Calling(t);
      } else {
        NewProgram(w.sys, e, t);
      }
    }
  }

  lemma SameProgram(s: System, e: Event, t: nat)
    requires t in s.txs && t in Next(s, e).txs
    ensures Next(s, e).txs[t].program == s.txs[t].program
  {
    hide Next;
    NextMoves(s, e, t);
  }

  lemma NewProgram(s: System, e: Event, t: nat)
    requires t !in s.txs && t in Next(s, e).txs
    ensures e.Begin? && FirstKey(Next(s, e).txs[t].program) == JobKey(e.job)
  {
    hide FirstKey, Plan, Exec, Blocked, Apply;
    NextGrows(s, e);
    PlanKeyed(s.db.ledger, e.job);
  }

  lemma CallKeepsOwn(k: Subject, w: World, a: nat, t: nat, p: Renewal)
    requires OwnInv(k, w) && a in w.approvals && w.approvals[a] == Looked && t !in w.sys.txs && IsApproval(k, p)
    ensures OwnInv(k, TicketMachine.Step(k, w, Call(a, t, p)))
  {
    hide WInv, Key, FirstKey, RenewOps, OwnRows, IsApproval;
    WInvHolds(k, w);
    CallKeeps(k, w, a, t, p);
    var post := TicketMachine.Step(k, w, Call(a, t, p));
    forall u | u in post.sys.txs && FirstKey(post.sys.txs[u].program) == Key(k)
      ensures CalledFor(post, u)
    {
      if u == t {
        assert post.approvals[a] == Calling(t);
      } else {
        assert CalledFor(w, u);
        var b :| b in w.approvals && w.approvals[b] == Calling(u);
        assert post.approvals[b] == Calling(u);
      }
    }
  }

  lemma WInvHolds(k: Subject, w: World)
    requires OwnInv(k, w)
    ensures WInv(k, w)
  {
  }

  lemma DropKeepsOwn(k: Subject, w: World, a: nat)
    requires OwnInv(k, w) && a in w.approvals
    ensures OwnTxs(k, TicketMachine.Step(k, w, Drop(a))) && OwnRows(k, TicketMachine.Step(k, w, Drop(a)).sys.db.ledger)
  {
    hide Key, FirstKey, WInv, OwnRows;
    var post := TicketMachine.Step(k, w, Drop(a));
    forall t | t in post.sys.txs && FirstKey(post.sys.txs[t].program) == Key(k)
      ensures CalledFor(post, t)
    {
      assert CalledFor(w, t);
      var b :| b in w.approvals && w.approvals[b] == Calling(t);
      assert b != a;
      assert post.approvals[b] == Calling(t);
    }
  }

  lemma StepKeepsOwn(k: Subject, w: World, m: Move)
    requires OwnInv(k, w) && (m.Ledger? && m.e.Begin? ==> JobKey(m.e.job) != Key(k))
    ensures OwnInv(k, TicketMachine.Step(k, w, m))
  {
    hide WInv, Key, FirstKey, Next, Observe, OwnRows, IsApproval;
    WInvHolds(k, w);
    StepKeeps(k, w, m);
    match m
    case Ledger(e) =>
      NextKeepsOwnRows(k, w, e);
      NextKeepsOwnTxs(k, w, e);
    case Call(a, t, p) =>
      if a in w.approvals && w.approvals[a] == Looked && t !in w.sys.txs && IsApproval(k, p) {
        CallKeepsOwn(k, w, a, t, p);
      }
    case Drop(a) =>
      if a in w.approvals {
        DropKeepsOwn(k, w, a);
      }
    case _ => OthersKeepOwn(k, w, m);
  }

  lemma OthersKeepOwn(k: Subject, w: World, m: Move)
    requires OwnTxs(k, w) && (m.Look? || m.Settle? || m.Reject?)
    ensures OwnTxs(k, TicketMachine.Step(k, w, m)) && TicketMachine.Step(k, w, m).sys == w.sys
  {
    hide FirstKey, Key;
    var post := TicketMachine.Step(k, w, m);
    forall t | t in post.sys.txs && FirstKey(post.sys.txs[t].program) == Key(k)
      ensures CalledFor(post, t)
    {
      assert CalledFor(w, t);
      var b :| b in w.approvals && w.approvals[b] == Calling(t);
      assert post.approvals[b] == Calling(t);
    }
  }

  lemma {:induction false} FromKeepsOwn(k: Subject, w: World, moves: seq<Move>)
    requires OwnInv(k, w) && OwnKey(k, moves)
    ensures OwnInv(k, From(k, w, moves))
  {
    hide OwnInv, TicketMachine.Step, Key;
    if moves != [] {
      FromKeepsOwn(k, w, moves[..|moves| - 1]);
      StepKeepsOwn(k, From(k, w, moves[..|moves| - 1]), moves[|moves| - 1]);
    }
  }

  lemma OwnReachable(k: Subject, moves: seq<Move>)
    requires OwnKey(k, moves)
    ensures OwnInv(k, After(k, moves))
  {
    hide Inv, Key;
    StartInv();
    FromKeepsOwn(k, SUBMITTED, moves);
  }
}

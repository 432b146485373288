/** What a payment ticket is charged (backend/internal/billing/tickets.go), over every run of its approvals and
    rejections among all other ledger transactions.
 */
module Tickets {
  import opened Wrappers
  import J = Journal
  import opened LedgerPaths
  import opened LedgerMachine
  import opened LedgerDiscipline
  import opened LedgerInvariant
  import opened LedgerSafety
  import opened LedgerBook
  import opened LedgerRetry
  import opened TicketMachine
  import opened TicketSafety

  // ---- one row a key ----

  lemma KeysDiffer(a: string, b: string)
    ensures TrialKey(a) != ApprovalKey(b)
  {
    assert TrialKey(a)[7] == 't' && ApprovalKey(b)[7] == 'a';
  }

  lemma SuffixDecides(a: string, x: string, y: string)
    requires a + x == a + y
    ensures x == y
  {
    assert (a + x)[|a|..] == x && (a + y)[|a|..] == y;
  }

  /** In every run of the ledger a ticket has at most one trial row and one approval row, and no row serves two tickets. */
  lemma ChargedAtMostOnce(events: seq<Event>, i: nat, j: nat, a: string, b: string)
    requires i < |Run(events).db.ledger| && j < |Run(events).db.ledger|
    ensures var ledger := Run(events).db.ledger;
            && (ledger[i].key == TrialKey(a) && ledger[j].key == TrialKey(b) ==> (i == j <==> a == b))
            && (ledger[i].key == ApprovalKey(a) && ledger[j].key == ApprovalKey(b) ==> (i == j <==> a == b))
            && (ledger[i].key == TrialKey(a) && ledger[j].key == ApprovalKey(b) ==> i != j)
  {
    hide Run;
    var ledger := Run(events).db.ledger;
    KeysDiffer(a, b);
    if ledger[i].key == TrialKey(a) && ledger[j].key == TrialKey(b) && i == j {
      SuffixDecides("ticket_trial:", a, b);
    }
    if ledger[i].key == ApprovalKey(a) && ledger[j].key == ApprovalKey(b) && i == j {
      SuffixDecides("ticket_approve:", a, b);
    }
    if i < j {
      OneReversalOneKey(events, i, j);
    } else if j < i {
      OneReversalOneKey(events, j, i);
    }
  }

  // ---- approved and charged ----

  /** In every run, whoever else uses the ticket's key: an approved ticket points at the one row with the key,
      and its subscriber was charged, once, exactly when that row is the subscriber's. */
  lemma ApprovedIsChargedExactly(k: Subject, moves: seq<Move>)
    ensures var w := After(k, moves);
            && Charges(k, w.sys.db.ledger) <= 1
            && (w.decision == Approved ==>
                  && w.row.Some? && Keyed(k, w.sys.db.ledger, w.row.value)
                  && Charges(k, w.sys.db.ledger) == if w.sys.db.ledger[w.row.value].entry.subscriber == k.subscriber then 1 else 0)
  {
    hide After, Charges, TxInv, CacheIsSum, InOrder, JournalMirrors, AnswersStored, Exclusive, ResponsesNameRows, KeysInv, PhaseOk, Key;
    TicketSafety.Reachable(k, moves);
    var w := After(k, moves);
    var ledger := w.sys.db.ledger;
    if Claimed(ledger, IdemKey(Key(k))) {
      var r := ClaimedKeyIsKeyed(k, ledger);
      KeyedRowDecides(k, ledger, r);
    } else {
      FreeKeyChargesNothing(k, ledger);
    }
    if w.decision == Approved {
      KeyedRowDecides(k, ledger, w.row.value);
    }
  }

  /** When nobody else uses the key, an approved ticket has been charged. */
  lemma ApprovedIsCharged(k: Subject, moves: seq<Move>)
    requires OwnKey(k, moves) && After(k, moves).decision == Approved
    ensures Charges(k, After(k, moves).sys.db.ledger) == 1
  {
    hide After, Charges, Inv, KeysInv, PhaseOk, Key;
    OwnReachable(k, moves);
    ApprovedIsChargedExactly(k, moves);
    var w := After(k, moves);
    assert w.sys.db.ledger[w.row.value] in w.sys.db.ledger;
  }

  // ---- an approval by itself ----

  /** As many steps of a transaction as it has operations, seen from the ticket. */
  function Pump(k: Subject, w: World, t: nat, ops: Ops): World
    decreases ops
  {
    if ops.Done? then w else Pump(k, TicketMachine.Step(k, w, Ledger(LedgerMachine.Step(t))), t, ops.rest)
  }

  /** A renewal from its first step to its commit, or to its failure. */
  function Through(k: Subject, w: World, t: nat, ops: Ops): World {
    TicketMachine.Step(k, Pump(k, w, t, ops), Ledger(Commit(t)))
  }

  lemma {:induction false} PumpSteps(k: Subject, w: World, t: nat, ops: Ops)
    ensures var post := Pump(k, w, t, ops);
            post.sys == Steps(w.sys, t, ops) && post.decision == w.decision && post.row == w.row
    decreases ops
  {
    hide Next, Observe;
    if ops.Then? {
      PumpSteps(k, TicketMachine.Step(k, w, Ledger(LedgerMachine.Step(t))), t, ops.rest);
    }
  }

  lemma {:induction false} PumpKeeps(k: Subject, w: World, t: nat, ops: Ops)
    requires WInv(k, w)
    ensures WInv(k, Pump(k, w, t, ops))
    decreases ops
  {
    hide WInv, TicketMachine.Step;
    if ops.Then? {
      TicketSafety.StepKeeps(k, w, Ledger(LedgerMachine.Step(t)));
      PumpKeeps(k, TicketMachine.Step(k, w, Ledger(LedgerMachine.Step(t))), t, ops.rest);
    }
  }

  /** While its transaction runs through, the approval goes on calling. */
  lemma {:induction false} PumpCalls(k: Subject, w: World, a: nat, t: nat, ops: Ops)
    requires w.sys.txs.Keys == {t} && w.sys.txs[t].todo == ops && Does(w.sys.db, w.sys.txs[t].(todo := Done), ops).Some?
    requires a in w.approvals && w.approvals[a] == Calling(t)
    ensures var post := Pump(k, w, t, ops);
            && a in post.approvals && post.approvals[a] == Calling(t)
            && post.sys.txs.Keys == {t} && post.sys.txs[t].todo.Done? && post.sys.txs[t].program == w.sys.txs[t].program
    decreases ops
  {
    hide Exec;
    if ops.Then? {
      assert !Blocked(w.sys, t);
      assert w.sys.txs[t].(todo := Done).(todo := ops) == w.sys.txs[t];
      var tx := Exec(w.sys.db, w.sys.txs[t]).value;
      TicketSafety.ExecGoesOn(w.sys.db, w.sys.txs[t], tx);
      var next := TicketMachine.Step(k, w, Ledger(LedgerMachine.Step(t)));
      assert next.sys.txs == w.sys.txs[t := tx] && next.approvals[a] == Calling(t);
      assert tx.(todo := Done) == Exec(w.sys.db, w.sys.txs[t].(todo := Done).(todo := ops)).value.(todo := Done);
      PumpCalls(k, next, a, t, ops.rest);
    }
  }

  /** A call whose transaction has run through commits the row and is answered with it. */
  lemma CommitAnswersCall(k: Subject, w: World, a: nat, t: nat)
    requires WInv(k, w) && a in w.approvals && w.approvals[a] == Calling(t) && t in w.sys.txs && w.sys.txs[t].todo.Done?
    ensures var post := TicketMachine.Step(k, w, Ledger(Commit(t)));
            && a in post.approvals && post.approvals[a] == Answered(|w.sys.db.ledger|)
            && post.sys.db.ledger == w.sys.db.ledger + RowsOf(w.sys.txs[t].program)
            && post.sys.txs == w.sys.txs - {t} && post.decision == w.decision && post.row == w.row
  {
    hide CacheIsSum, Unique, InOrder, JournalMirrors, ResponsesNameRows, AnswersStored, Exclusive, Guarded, Settled, ChecksFirst,
      ClaimsHeld, AllGrounded, Mirrors, Solvent, Sound, RowsOf, FirstKey, KeyedBy, Key, Smooth, KeysInv, Charges;
    var tx := w.sys.txs[t];
    assert PhaseOk(k, w.sys, w.approvals[a]);
    ApprovalKeyed(k, tx);
    KeyIsSomething(k);
    CommittedRows(w.sys, t);
    assert tx.rows[0] in tx.rows && !Responds(Done, Key(k));
  }

  /** A call that finds its key taken is answered with the row that took it, and nothing is written. */
  lemma TakenAnswersCall(k: Subject, w: World, a: nat, t: nat, p: Renewal)
    requires WInv(k, w) && IsApproval(k, p) && w.sys.txs == map[t := Open(RenewOps(p))]
    requires a in w.approvals && w.approvals[a] == Calling(t) && Claimed(w.sys.db.ledger, IdemKey(Key(k)))
    ensures var post := Through(k, w, t, RenewOps(p));
            && a in post.approvals && post.approvals[a].Answered?
            && post.sys.db == w.sys.db && post.sys.txs == map[] && post.decision == w.decision && post.row == w.row
  {
    hide CacheIsSum, Unique, InOrder, JournalMirrors, AnswersStored, Exclusive, TxInv, RowsOf, KeyedBy, Key, Smooth, KeysInv,
      Claimed, LedgerPaths.RenewInTx, Observe, WInv, Charges;
    KeyIsSomething(k);
    var ops := RenewOps(p);
    var next := TicketMachine.Step(k, w, Ledger(LedgerMachine.Step(t)));
    ReplayOnce(k, w, a, t, p);
    PumpSettled(k, next, t, ops.rest, a);
    assert Pump(k, w, t, ops) == Pump(k, next, t, ops.rest);
    QuietLedger(k, Pump(k, next, t, ops.rest), Commit(t), a);
  }

  lemma ReplayOnce(k: Subject, w: World, a: nat, t: nat, p: Renewal)
    requires WInv(k, w) && IsApproval(k, p) && w.sys.txs == map[t := Open(RenewOps(p))]
    requires a in w.approvals && w.approvals[a] == Calling(t) && Claimed(w.sys.db.ledger, IdemKey(Key(k)))
    ensures var next := TicketMachine.Step(k, w, Ledger(LedgerMachine.Step(t)));
            && a in next.approvals && next.approvals[a].Answered?
            && next.sys.db == w.sys.db && next.sys.txs == map[] && next.decision == w.decision && next.row == w.row
  {
    hide CacheIsSum, Unique, InOrder, JournalMirrors, AnswersStored, Exclusive, TxInv, RowsOf, KeyedBy, Key, Smooth, KeysInv,
      LedgerPaths.RenewInTx, Charges;
    KeyIsSomething(k);
    assert !Blocked(w.sys, t);
    var r := ClaimedKeyIsKeyed(k, w.sys.db.ledger);
    assert w.sys.db.ledger[r].key in w.sys.db.responses;
    assert Exec(w.sys.db, w.sys.txs[t]) == None;
    assert w.sys.txs - {t} == map[];
  }

  lemma QuietLedger(k: Subject, w: World, e: Event, a: nat)
    requires w.sys.txs == map[] && (e.Step? || e.Commit?) && a in w.approvals && !w.approvals[a].Calling?
    ensures var post := TicketMachine.Step(k, w, Ledger(e));
            && a in post.approvals && post.approvals[a] == w.approvals[a] && post.sys == w.sys
            && post.decision == w.decision && post.row == w.row
  {
  }

  lemma {:induction false} PumpSettled(k: Subject, w: World, t: nat, ops: Ops, a: nat)
    requires w.sys.txs == map[] && a in w.approvals && w.approvals[a].Answered?
    ensures var post := Pump(k, w, t, ops);
            && a in post.approvals && post.approvals[a] == w.approvals[a] && post.sys == w.sys
            && post.decision == w.decision && post.row == w.row
    decreases ops
  {
    hide TicketMachine.Step;
    if ops.Then? {
      QuietLedger(k, w, LedgerMachine.Step(t), a);
      PumpSettled(k, TicketMachine.Step(k, w, Ledger(LedgerMachine.Step(t))), t, ops.rest, a);
    }
  }

  /** A whole approval with nothing beside it. */
  function Approve(k: Subject, w: World, a: nat, t: nat, p: Renewal): World {
    var calling := TicketMachine.Step(k, TicketMachine.Step(k, w, Look(a)), Call(a, t, p));
    TicketMachine.Step(k, Through(k, calling, t, RenewOps(p)), Settle(a))
  }

  lemma CallingWorld(k: Subject, w: World, a: nat, t: nat, p: Renewal)
    requires WInv(k, w) && w.decision == Pending && w.sys.txs == map[] && a !in w.approvals && IsApproval(k, p)
    ensures var calling := TicketMachine.Step(k, TicketMachine.Step(k, w, Look(a)), Call(a, t, p));
            && WInv(k, calling) && calling.sys == w.sys.(txs := map[t := Open(RenewOps(p))])
            && a in calling.approvals && calling.approvals[a] == Calling(t) && calling.decision == Pending && calling.row == w.row
  {
    hide Next, WInv, Key, IsApproval, RenewOps;
    TicketSafety.StepKeeps(k, w, Look(a));
    var looked := TicketMachine.Step(k, w, Look(a));
    TicketSafety.StepKeeps(k, looked, Call(a, t, p));
    CallKeeps(k, looked, a, t, p);
    assert w.sys.txs[t := Open(RenewOps(p))] == map[t := Open(RenewOps(p))];
  }

  /** An approval that runs by itself always approves. When the key is free it charges the ticket's subscriber,
      and when it is taken it charges nobody. */
  lemma ApproveAlone(k: Subject, w: World, a: nat, t: nat, p: Renewal)
    requires WInv(k, w) && w.decision == Pending && w.sys.txs == map[] && a !in w.approvals && IsApproval(k, p)
    ensures var end := Approve(k, w, a, t, p);
            && end.decision == Approved && end.sys.txs == map[]
            && end.sys.db.ledger == if Claimed(w.sys.db.ledger, IdemKey(Key(k))) then w.sys.db.ledger
                                    else w.sys.db.ledger + RowsOf(RenewOps(p))
  {
    hide Next, WInv, Key, IsApproval, RenewOps, Claimed, RowsOf, Does, Pump, Observe, Smooth;
    CallingWorld(k, w, a, t, p);
    var calling := TicketMachine.Step(k, TicketMachine.Step(k, w, Look(a)), Call(a, t, p));
    if Claimed(w.sys.db.ledger, IdemKey(Key(k))) {
      TakenAnswersCall(k, calling, a, t, p);
    } else {
      ApprovalIsSmooth(k, p);
      var tx := Open(RenewOps(p)).(todo := Done);
      SmoothRuns(w.sys.db, tx, RenewOps(p), Key(k));
      PumpCalls(k, calling, a, t, RenewOps(p));
      PumpKeeps(k, calling, t, RenewOps(p));
      PumpSteps(k, calling, t, RenewOps(p));
      StepsDo(calling.sys, t, RenewOps(p));
      var done := Pump(k, calling, t, RenewOps(p));
      CommitAnswersCall(k, done, a, t);
      assert done.sys.txs - {t} == map[];
    }
  }

  lemma ApprovalRowCharges(k: Subject, p: Renewal)
    requires IsApproval(k, p)
    ensures Charges(k, RowsOf(RenewOps(p))) >= 1
  {
    hide RenewOps, Key;
    ApprovalIsSmooth(k, p);
    assert ApprovalTx(k, Open(RenewOps(p)));
    ApprovalKeyed(k, Open(RenewOps(p)));
  }

  /** So an approval leaves its own subscriber charged exactly when, before the call, the key is free or already
      names a row of that subscriber. */
  lemma ApprovalChargesExactly(k: Subject, moves: seq<Move>, a: nat, t: nat, p: Renewal)
    requires var w := After(k, moves); w.decision == Pending && w.sys.txs == map[] && a !in w.approvals
    requires IsApproval(k, p)
    ensures var (w, end) := (After(k, moves), Approve(k, After(k, moves), a, t, p));
            && end.decision == Approved
            && (Charges(k, end.sys.db.ledger) >= 1 <==>
                  !Claimed(w.sys.db.ledger, IdemKey(Key(k))) || Charges(k, w.sys.db.ledger) == 1)
  {
    hide After, Approve, WInv, Key, IsApproval, RenewOps, Claimed, RowsOf, Charges;
    var w := After(k, moves);
    TicketSafety.Reachable(k, moves);
    ApproveAlone(k, w, a, t, p);
    ApprovedIsChargedExactly(k, moves);
    ApprovalRowCharges(k, p);
    ChargesConcat(k, w.sys.db.ledger, RowsOf(RenewOps(p)));
  }

  /** The run that fails: a renewal of another subscriber is sent with the ticket's key as its own. It is carried
      out, and the approval that follows approves the ticket without charging or renewing anybody. */
  lemma ForeignKeyApproves(k: Subject, moves: seq<Move>, u: nat, q: Renewal, a: nat, t: nat, p: Renewal)
    requires var w := After(k, moves);
             && w.decision == Pending && w.sys.txs == map[] && w.approvals == map[]
             && !Claimed(w.sys.db.ledger, IdemKey(Key(k))) && !Short(w.sys.db, q)
    requires Plannable(q) && q.key == Key(k) && q.subscriber != k.subscriber && IsApproval(k, p)
    ensures var w := After(k, moves);
            var renewed := Through(k, TicketMachine.Step(k, w, Ledger(Begin(u, Renew(q)))), u, RenewOps(q));
            var end := Approve(k, renewed, a, t, p);
            && end.decision == Approved && Charges(k, end.sys.db.ledger) == 0
            && end.sys.db.ledger == w.sys.db.ledger + RowsOf(RenewOps(q))
  {
    hide After, Approve, WInv, Key, IsApproval, RenewOps, Claimed, RowsOf, Charges, Does, Next, Steps, Observe, Plannable, Short;
    var w := After(k, moves);
    TicketSafety.Reachable(k, moves);
    var begun := TicketMachine.Step(k, w, Ledger(Begin(u, Renew(q))));
    var renewed := Through(k, begun, u, RenewOps(q));
    TicketSafety.StepKeeps(k, w, Ledger(Begin(u, Renew(q))));
    PumpKeeps(k, begun, u, RenewOps(q));
    TicketSafety.StepKeeps(k, Pump(k, begun, u, RenewOps(q)), Ledger(Commit(u)));
    PumpSteps(k, begun, u, RenewOps(q));
    ForeignRenewal(k, w, u, q);
    ForeignRow(k, w.sys.db.ledger, q);
    ApproveAlone(k, renewed, a, t, p);
  }

  /** The other renewal by itself. */
  lemma ForeignRenewal(k: Subject, w: World, u: nat, q: Renewal)
    requires w.sys.txs == map[] && w.approvals == map[] && Plannable(q) && KeyFree(w.sys.db, q.key) && !Short(w.sys.db, q)
    ensures var renewed := Through(k, TicketMachine.Step(k, w, Ledger(Begin(u, Renew(q)))), u, RenewOps(q));
            && renewed.sys.txs == map[] && renewed.approvals == map[] && renewed.decision == w.decision
            && renewed.sys.db.ledger == w.sys.db.ledger + RowsOf(RenewOps(q))
  {
    hide RenewOps, RowsOf, Does, Next, KeyFree, Short;
    var program := RenewOps(q);
    var begun := TicketMachine.Step(k, w, Ledger(Begin(u, Renew(q))));
    assert Plan(w.sys.db.ledger, Renew(q)) == Ok(program);
    BeginsAlone(w.sys, u, q);
    PumpSteps(k, begun, u, program);
    PumpIdle(k, begun, u, program);
    RenewRunsExactly(w.sys.db, q);
    StepsDo(begun.sys, u, program);
    StepsEnd(begun.sys, u, program);
    ProgramIsHistory(w.sys.db, Open(Done), program, program);
    assert Open(Done).(program := program) == Open(program).(todo := Done);
    DoesInserts(w.sys.db, Open(program).(todo := Done), program);
    DoesKeepsTodo(w.sys.db, Open(program).(todo := Done), program);
    CommitsAlone(Pump(k, begun, u, program).sys, u);
    assert [] + RowsOf(program) == RowsOf(program);
  }

  lemma BeginsAlone(s: System, u: nat, q: Renewal)
    requires s.txs == map[] && Plannable(q)
    ensures Next(s, Begin(u, Renew(q))) == s.(txs := map[u := Open(RenewOps(q))])
  {
    assert s.txs[u := Open(RenewOps(q))] == map[u := Open(RenewOps(q))];
  }

  lemma CommitsAlone(s: System, u: nat)
    requires s.txs.Keys == {u} && s.txs[u].todo.Done?
    ensures Next(s, Commit(u)).db.ledger == s.db.ledger + s.txs[u].rows && Next(s, Commit(u)).txs == map[]
  {
    assert s.txs - {u} == map[];
  }

  lemma {:induction false} StepsEnd(s: System, t: nat, ops: Ops)
    requires s.txs.Keys <= {t}
    ensures Steps(s, t, ops).txs.Keys <= {t}
    decreases ops
  {
    hide Exec, Blocked;
    if ops.Then? {
      StepsEnd(Next(s, LedgerMachine.Step(t)), t, ops.rest);
    }
  }

  lemma {:induction false} PumpIdle(k: Subject, w: World, t: nat, ops: Ops)
    requires w.approvals == map[]
    ensures Pump(k, w, t, ops).approvals == map[]
    decreases ops
  {
    hide Next;
    if ops.Then? {
      PumpIdle(k, TicketMachine.Step(k, w, Ledger(LedgerMachine.Step(t))), t, ops.rest);
    }
  }

  lemma ForeignRow(k: Subject, ledger: seq<Row>, q: Renewal)
    requires q.key == Key(k) && q.subscriber != k.subscriber && !Claimed(ledger, IdemKey(Key(k)))
    ensures Charges(k, ledger + RowsOf(RenewOps(q))) == 0 && Claimed(ledger + RowsOf(RenewOps(q)), IdemKey(Key(k)))
  {
    hide RenewOps, RowsOf, Key, Charges;
    KeyIsSomething(k);
    RenewRows(q);
    var rows := RowsOf(RenewOps(q));
    FreeKeyChargesNothing(k, ledger);
    NoCharges(k, rows);
    ChargesConcat(k, ledger, rows);
    assert (ledger + rows)[|ledger|] == rows[0] && IdemKey(Key(k)) in Claims(rows[0]);
  }
}

/** When a rejected ticket, or one nobody decided, still ends up charged (backend/internal/billing/tickets.go).
    The state transitions are conditional updates, but the renewal between reading a ticket and moving it is a
    transaction of its own.
 */
module TicketOutcomes {
  import opened Wrappers
  import J = Journal
  import opened LedgerPaths
  import opened LedgerMachine
  import opened LedgerDiscipline
  import opened LedgerInvariant
  import opened LedgerSafety
  import opened LedgerBook
  import opened LedgerRetry
  import opened TicketMachine
  import opened TicketSafety
  import opened Tickets

  // ---- runs put together ----

  lemma {:induction false} FromConcat(k: Subject, w: World, a: seq<Move>, b: seq<Move>)
    ensures From(k, w, a + b) == From(k, From(k, w, a), b)
    decreases |b|
  {
    hide TicketMachine.Step;
    if b == [] {
      assert a + b == a;
    } else {
      assert (a + b)[..|a + b| - 1] == a + b[..|b| - 1];
      FromConcat(k, w, a, b[..|b| - 1]);
    }
  }

  lemma OneMove(k: Subject, w: World, m: Move)
    ensures From(k, w, [m]) == TicketMachine.Step(k, w, m)
  {
    hide TicketMachine.Step;
    assert [m][..0] == [];
    assert From(k, w, []) == w;
  }

  lemma {:induction false} PumpMoves(k: Subject, w: World, t: nat, ops: Ops) returns (moves: seq<Move>)
    ensures OwnKey(k, moves) && From(k, w, moves) == Pump(k, w, t, ops)
    decreases ops
  {
    hide TicketMachine.Step, Key;
    if ops.Done? {
      moves := [];
    } else {
      var m := Ledger(LedgerMachine.Step(t));
      var rest := PumpMoves(k, TicketMachine.Step(k, w, m), t, ops.rest);
      moves := [m] + rest;
      FromConcat(k, w, [m], rest);
      OneMove(k, w, m);
    }
  }

  // ---- nothing open: nothing more is charged ----

  ghost predicate Quiet(k: Subject, w: World) {
    OwnInv(k, w) && w.decision != Pending && w.approvals == map[] && Charges(k, w.sys.db.ledger) == 0
  }

  /** Only the transaction of an approval writes a row for the ticket. */
  lemma OthersDoNotCharge(k: Subject, w: World, e: Event)
    requires OwnInv(k, w) && w.approvals == map[]
    ensures Charges(k, Next(w.sys, e).db.ledger) == Charges(k, w.sys.db.ledger)
  {
    hide Plan, Exec, Blocked, TxInv, DbInv, Exclusive, AnswersStored, FirstKey, RowsOf, KeyedBy, Key, ApprovalTx, Charges;
    if e.Commit? && e.t in w.sys.txs && w.sys.txs[e.t].todo.Done? {
      var tx := w.sys.txs[e.t];
      CommittedRows(w.sys, e.t);
      KeyIsSomething(k);
      KeyedRows(tx.program, FirstKey(tx.program));
      assert !CalledFor(w, e.t);
      NoCharges(k, RowsOf(tx.program));
      ChargesConcat(k, w.sys.db.ledger, RowsOf(tx.program));
    }
  }

  lemma StepKeepsQuiet(k: Subject, w: World, m: Move)
    requires Quiet(k, w) && (m.Ledger? && m.e.Begin? ==> JobKey(m.e.job) != Key(k))
    ensures Quiet(k, TicketMachine.Step(k, w, m))
  {
    hide OwnInv, Key, Next, Charges, IsApproval;
    StepKeepsOwn(k, w, m);
    if m.Ledger? {
      OthersDoNotCharge(k, w, m.e);
    }
  }

  lemma {:induction false} FromKeepsQuiet(k: Subject, w: World, moves: seq<Move>)
    requires Quiet(k, w) && OwnKey(k, moves)
    ensures Quiet(k, From(k, w, moves))
  {
    hide Quiet, TicketMachine.Step, Key;
    if moves != [] {
      FromKeepsQuiet(k, w, moves[..|moves| - 1]);
      StepKeepsQuiet(k, From(k, w, moves[..|moves| - 1]), moves[|moves| - 1]);
    }
  }

  // ---- an open approval can always go through ----

  lemma {:induction false} FreshNumber(s: set<nat>) returns (t: nat)
    ensures forall x | x in s :: x < t
  {
    if s == {} {
      t := 0;
    } else {
      var x :| x in s;
      var u := FreshNumber(s - {x});
      t := if x < u then u else x + 1;
      forall y | y in s
        ensures y < t
      {
        assert y == x || y in s - {x};
      }
    }
  }

  /** Every other transaction is rolled back. */
  lemma {:induction false} AbortOthers(k: Subject, w: World, a: nat, t: nat) returns (moves: seq<Move>)
    requires a in w.approvals && w.approvals[a] == Calling(t) && t in w.sys.txs
    ensures OwnKey(k, moves)
    ensures var post := From(k, w, moves);
            && post.sys == w.sys.(txs := map[t := w.sys.txs[t]]) && post.decision == w.decision && post.row == w.row
            && a in post.approvals && post.approvals[a] == Calling(t)
    decreases |w.sys.txs.Keys|
  {
    hide Key;
    if w.sys.txs.Keys == {t} {
      moves := [];
      assert w.sys.txs == map[t := w.sys.txs[t]];
    } else {
      var u :| u in w.sys.txs && u != t;
      var m := Ledger(Abort(u));
      var post := TicketMachine.Step(k, w, m);
      assert post.sys.txs.Keys == w.sys.txs.Keys - {u};
      var rest := AbortOthers(k, post, a, t);
      moves := [m] + rest;
      FromConcat(k, w, [m], rest);
      OneMove(k, w, m);
    }
  }

  /** A calling approval left alone: while the key is free its renewal commits, and the ticket is charged. */
  lemma AloneCharges(k: Subject, w: World, a: nat, t: nat)
    requires OwnInv(k, w) && a in w.approvals && w.approvals[a] == Calling(t) && w.sys.txs.Keys == {t}
    requires Charges(k, w.sys.db.ledger) == 0
    ensures var end := Through(k, w, t, w.sys.txs[t].todo);
            && Charges(k, end.sys.db.ledger) >= 1 && end.decision == w.decision
            && a in end.approvals && end.approvals[a].Answered?
  {
    hide Inv, KeysInv, Charges, Key, RowsOf, Does, Pump, Steps, Smooth, RenewOps, Claimed, OwnTxs, OwnRows, Observe, Next;
    OwnCharges(k, w);
    var tx := w.sys.txs[t];
    CallingTx(k, w, a, t);
    SmoothRuns(w.sys.db, tx.(todo := Done), tx.todo, Key(k));
    PumpCalls(k, w, a, t, tx.todo);
    PumpKeeps(k, w, t, tx.todo);
    PumpSteps(k, w, t, tx.todo);
    StepsDo(w.sys, t, tx.todo);
    var done := Pump(k, w, t, tx.todo);
    CommitAnswersCall(k, done, a, t);
    ApprovalKeyed(k, tx);
    ChargesConcat(k, w.sys.db.ledger, RowsOf(tx.program));
  }

  lemma CallingTx(k: Subject, w: World, a: nat, t: nat)
    requires WInv(k, w) && a in w.approvals && w.approvals[a] == Calling(t)
    ensures t in w.sys.txs && ApprovalTx(k, w.sys.txs[t]) && Smooth(w.sys.txs[t].todo, Key(k))
  {
    hide Inv, KeysInv, Key, Smooth, RenewOps;
    assert PhaseOk(k, w.sys, w.approvals[a]);
  }

  lemma CallingCanCharge(k: Subject, w: World, a: nat, t: nat) returns (moves: seq<Move>)
    requires OwnInv(k, w) && a in w.approvals && w.approvals[a] == Calling(t) && Charges(k, w.sys.db.ledger) == 0
    ensures OwnKey(k, moves)
    ensures Charges(k, From(k, w, moves).sys.db.ledger) >= 1 && From(k, w, moves).decision == w.decision
  {
    hide WInv, OwnTxs, OwnRows, Charges, Key, From, Pump, Next, Observe;
    CallingTx(k, w, a, t);
    var clear := AbortOthers(k, w, a, t);
    var alone := From(k, w, clear);
    FromKeepsOwn(k, w, clear);
    AloneCharges(k, alone, a, t);
    var pump := PumpMoves(k, alone, t, alone.sys.txs[t].todo);
    var commit := Ledger(Commit(t));
    moves := clear + pump + [commit];
    FromConcat(k, w, clear, pump);
    FromConcat(k, w, clear + pump, [commit]);
    OneMove(k, From(k, w, clear + pump), commit);
  }

  /** The renewal of an approval on behalf of some approver. */
  function SomeRenewal(k: Subject): Renewal {
    Renewal(k.subscriber, "approver", J.Renewal, 0, None, None, 0, true, false, 0, Key(k), 0, 0)
  }

  lemma LookedCanCharge(k: Subject, w: World, a: nat) returns (moves: seq<Move>)
    requires OwnInv(k, w) && a in w.approvals && w.approvals[a] == Looked && Charges(k, w.sys.db.ledger) == 0
    requires k.subscriber != ""
    ensures OwnKey(k, moves)
    ensures Charges(k, From(k, w, moves).sys.db.ledger) >= 1 && From(k, w, moves).decision == w.decision
  {
    hide WInv, OwnTxs, OwnRows, Charges, Key, From, Next;
    var t := FreshNumber(w.sys.txs.Keys);
    var call := Call(a, t, SomeRenewal(k));
    var calling := TicketMachine.Step(k, w, call);
    CallKeepsOwn(k, w, a, t, SomeRenewal(k));
    CallLeavesLedger(k, w, a, t, SomeRenewal(k));
    var rest := CallingCanCharge(k, calling, a, t);
    moves := [call] + rest;
    FromConcat(k, w, [call], rest);
    OneMove(k, w, call);
  }

  lemma CallLeavesLedger(k: Subject, w: World, a: nat, t: nat, p: Renewal)
    requires OwnInv(k, w) && a in w.approvals && w.approvals[a] == Looked && t !in w.sys.txs && IsApproval(k, p)
    ensures var post := TicketMachine.Step(k, w, Call(a, t, p));
            && post.sys.db == w.sys.db && post.decision == w.decision && a in post.approvals && post.approvals[a] == Calling(t)
  {
    hide OwnTxs, OwnRows, WInv, Key, IsApproval;
    WInvHolds(k, w);
    CallKeeps(k, w, a, t, p);
  }

  // ---- rejection ----

  lemma OpenCanCharge(k: Subject, w: World) returns (moves: seq<Move>)
    requires OwnInv(k, w) && k.subscriber != "" && (Charges(k, w.sys.db.ledger) != 0 || w.approvals != map[])
    ensures OwnKey(k, moves)
    ensures Charges(k, From(k, w, moves).sys.db.ledger) >= 1 && From(k, w, moves).decision == w.decision
  {
    hide OwnInv, Charges, Key, From, TicketMachine.Step;
    if Charges(k, w.sys.db.ledger) != 0 {
      moves := [];
      assert From(k, w, []) == w by { EmptyRun(k, w); }
    } else {
      var a :| a in w.approvals;
      match w.approvals[a]
      case Looked => moves := LookedCanCharge(k, w, a);
      case Calling(t) => moves := CallingCanCharge(k, w, a, t);
      case Answered(_) => AnsweredIsCharged(k, w, a);
    }
  }

  lemma EmptyRun(k: Subject, w: World)
    ensures From(k, w, []) == w
  {
  }

  /** While nobody else uses the key, an answered approval has charged its subscriber. */
  lemma AnsweredIsCharged(k: Subject, w: World, a: nat)
    requires OwnInv(k, w) && a in w.approvals && w.approvals[a].Answered?
    ensures Charges(k, w.sys.db.ledger) == 1
  {
    hide Inv, KeysInv, Charges, Key, OwnTxs, OwnRows;
    assert PhaseOk(k, w.sys, w.approvals[a]);
    OwnCharges(k, w);
    KeyIsSomething(k);
    var r := w.approvals[a].row;
    assert IdemKey(Key(k)) in Claims(w.sys.db.ledger[r]);
  }

  lemma RejectedWorld(k: Subject, moves: seq<Move>)
    requires OwnKey(k, moves) && After(k, moves).decision == Pending
    ensures var (w, r) := (After(k, moves), TicketMachine.Step(k, After(k, moves), Reject));
            OwnInv(k, r) && r == w.(decision := Decision.Rejected)
  {
    hide After, OwnInv, Key;
    OwnReachable(k, moves);
    StepKeepsOwn(k, After(k, moves), Reject);
  }

  /** A rejection that meets an approval which has read the ticket cannot stop it: there is a run in which the
      rejected ticket's subscriber is charged. */
  lemma RejectedYetCharged(k: Subject, moves: seq<Move>) returns (rest: seq<Move>)
    requires OwnKey(k, moves) && After(k, moves).decision == Pending && After(k, moves).approvals != map[] && k.subscriber != ""
    ensures OwnKey(k, rest)
    ensures var end := From(k, TicketMachine.Step(k, After(k, moves), Reject), rest);
            end.decision == Decision.Rejected && Charges(k, end.sys.db.ledger) == 1
  {
    hide After, OwnInv, Charges, Key, TicketMachine.Step, From;
    RejectedWorld(k, moves);
    var r := TicketMachine.Step(k, After(k, moves), Reject);
    rest := OpenCanCharge(k, r);
    FromKeepsOwn(k, r, rest);
    OwnCharges(k, From(k, r, rest));
  }

  /** So a rejection keeps the ticket uncharged, whatever happens next, exactly when at that moment nothing is
      charged and no approval is under way. */
  lemma RejectedStaysUnchargedExactly(k: Subject, moves: seq<Move>)
    requires OwnKey(k, moves) && After(k, moves).decision == Pending && k.subscriber != ""
    ensures var w := After(k, moves);
            (forall rest | OwnKey(k, rest) :: Charges(k, From(k, TicketMachine.Step(k, w, Reject), rest).sys.db.ledger) == 0)
            <==> Charges(k, w.sys.db.ledger) == 0 && w.approvals == map[]
  {
    hide After, OwnInv, Charges, Key, From, OwnKey, TicketMachine.Step;
    RejectedWorld(k, moves);
    var w := After(k, moves);
    var r := TicketMachine.Step(k, w, Reject);
    if Charges(k, w.sys.db.ledger) == 0 && w.approvals == map[] {
      forall rest | OwnKey(k, rest)
        ensures Charges(k, From(k, r, rest).sys.db.ledger) == 0
      {
        FromKeepsQuiet(k, r, rest);
      }
    } else {
      var rest := OpenCanCharge(k, r);
      assert OwnKey(k, rest) && Charges(k, From(k, r, rest).sys.db.ledger) != 0;
    }
  }

  // ---- approvals nobody finished ----

  /** The move takes the ticket out of the pending state. */
  predicate Decides(w: World, m: Move) {
    w.decision == Pending && (m.Reject? || (m.Settle? && m.a in w.approvals && w.approvals[m.a].Answered?))
  }

  /** The move gives up an approval whose renewal has been answered. */
  predicate Forsakes(w: World, m: Move) {
    m.Drop? && m.a in w.approvals && w.approvals[m.a].Answered?
  }

  ghost predicate Undecided(k: Subject, moves: seq<Move>) {
    forall i | 0 <= i < |moves| :: !Decides(After(k, moves[..i]), moves[i])
  }

  ghost predicate Forsaken(k: Subject, moves: seq<Move>) {
    exists i | 0 <= i < |moves| :: Forsakes(After(k, moves[..i]), moves[i])
  }

  lemma RunPrefix(moves: seq<Move>)
    requires moves != []
    ensures var before := moves[..|moves| - 1]; forall i | 0 <= i < |before| :: before[..i] == moves[..i] && before[i] == moves[i]
  {
  }

  lemma UndecidedLast(k: Subject, moves: seq<Move>)
    requires moves != []
    ensures var (before, m) := (moves[..|moves| - 1], moves[|moves| - 1]);
            Undecided(k, moves) <==> Undecided(k, before) && !Decides(After(k, before), m)
  {
    hide After, Decides;
    RunPrefix(moves);
    var (before, n) := (moves[..|moves| - 1], |moves| - 1);
    if Undecided(k, moves) {
      forall i | 0 <= i < |before|
        ensures !Decides(After(k, before[..i]), before[i])
      {
        assert !Decides(After(k, moves[..i]), moves[i]);
      }
      assert !Decides(After(k, moves[..n]), moves[n]);
    }
    if Undecided(k, before) && !Decides(After(k, before), moves[n]) {
      forall i | 0 <= i < |moves|
        ensures !Decides(After(k, moves[..i]), moves[i])
      {
        if i < n {
          assert !Decides(After(k, before[..i]), before[i]);
        }
      }
    }
  }

  lemma ForsakenLast(k: Subject, moves: seq<Move>)
    requires moves != []
    ensures var (before, m) := (moves[..|moves| - 1], moves[|moves| - 1]);
            Forsaken(k, moves) <==> Forsaken(k, before) || Forsakes(After(k, before), m)
  {
    hide After, Forsakes;
    RunPrefix(moves);
    var (before, n) := (moves[..|moves| - 1], |moves| - 1);
    if Forsaken(k, moves) {
      var i :| 0 <= i < |moves| && Forsakes(After(k, moves[..i]), moves[i]);
      if i < n {
        assert Forsakes(After(k, before[..i]), before[i]);
      }
    }
    if Forsaken(k, before) {
      var i :| 0 <= i < |before| && Forsakes(After(k, before[..i]), before[i]);
      assert Forsakes(After(k, moves[..i]), moves[i]);
    }
    if Forsakes(After(k, before), moves[n]) {
      assert Forsakes(After(k, moves[..n]), moves[n]);
    }
  }

  lemma AfterLast(k: Subject, moves: seq<Move>)
    requires moves != []
    ensures After(k, moves) == TicketMachine.Step(k, After(k, moves[..|moves| - 1]), moves[|moves| - 1])
  {
    hide TicketMachine.Step;
  }

  lemma StepDecides(k: Subject, w: World, m: Move)
    ensures TicketMachine.Step(k, w, m).decision == Pending <==> w.decision == Pending && !Decides(w, m)
  {
    hide Next, Observe, IsApproval;
  }

  /** A ticket is pending as long as no move has decided it. */
  lemma {:induction false} PendingIsUndecided(k: Subject, moves: seq<Move>)
    ensures After(k, moves).decision == Pending <==> Undecided(k, moves)
  {
    hide TicketMachine.Step, Decides;
    if moves == [] {
      EmptyRun(k, SUBMITTED);
    } else {
      hide After, Undecided, Forsaken;
      var before := moves[..|moves| - 1];
      PendingIsUndecided(k, before);
      UndecidedLast(k, moves);
      AfterLast(k, moves);
      StepDecides(k, After(k, before), moves[|moves| - 1]);
    }
  }

  ghost predicate SomeAnswered(w: World) {
    exists a :: a in w.approvals && w.approvals[a].Answered?
  }

  /** A charge comes with an answer to an approval. */
  lemma ChargeAnswers(k: Subject, w: World, m: Move)
    requires OwnInv(k, w) && (m.Ledger? && m.e.Begin? ==> JobKey(m.e.job) != Key(k))
    requires Charges(k, w.sys.db.ledger) == 0 && Charges(k, TicketMachine.Step(k, w, m).sys.db.ledger) != 0
    ensures SomeAnswered(TicketMachine.Step(k, w, m))
  {
    hide OwnInv, Charges, Key, Next, Plan;
    LedgerStands(k, w, m);
    var t := m.e.t;
    CommitCharges(k, w, m.e);
    var a :| a in w.approvals && w.approvals[a] == Calling(t);
    CommitAnswersCall(k, w, a, t);
    var post := TicketMachine.Step(k, w, m);
    assert a in post.approvals && post.approvals[a].Answered?;
  }

  /** Only commits move the ledger. */
  lemma LedgerStands(k: Subject, w: World, m: Move)
    ensures w.sys.db.ledger <= TicketMachine.Step(k, w, m).sys.db.ledger
    ensures !m.Ledger? || !m.e.Commit? ==> TicketMachine.Step(k, w, m).sys.db == w.sys.db
  {
    hide Plan, Exec, Blocked, Observe, IsApproval;
  }

  lemma CommitCharges(k: Subject, w: World, e: Event)
    requires OwnInv(k, w) && e.Commit? && Charges(k, Next(w.sys, e).db.ledger) != Charges(k, w.sys.db.ledger)
    ensures WInv(k, w) && e.t in w.sys.txs && w.sys.txs[e.t].todo.Done? && CalledFor(w, e.t)
  {
    hide TxInv, DbInv, Exclusive, AnswersStored, FirstKey, RowsOf, KeyedBy, Key, ApprovalTx, Charges;
    if e.t in w.sys.txs && w.sys.txs[e.t].todo.Done? && !CalledFor(w, e.t) {
      var tx := w.sys.txs[e.t];
      CommittedRows(w.sys, e.t);
      KeyIsSomething(k);
      KeyedRows(tx.program, FirstKey(tx.program));
      NoCharges(k, RowsOf(tx.program));
      ChargesConcat(k, w.sys.db.ledger, RowsOf(tx.program));
    }
  }

  /** Answers stay until they are settled or dropped. */
  lemma AnsweredStays(k: Subject, w: World, m: Move)
    requires w.decision == Pending && SomeAnswered(w) && !Decides(w, m)
    ensures SomeAnswered(TicketMachine.Step(k, w, m)) || Forsakes(w, m)
  {
    hide Next, IsApproval;
    var a :| a in w.approvals && w.approvals[a].Answered?;
    if !Forsakes(w, m) {
      var post := TicketMachine.Step(k, w, m);
      assert a in post.approvals && post.approvals[a].Answered?;
    }
  }

  lemma ChargesGrow(k: Subject, a: seq<Row>, b: seq<Row>)
    requires a <= b
    ensures Charges(k, a) <= Charges(k, b)
  {
    assert b == a + b[|a|..];
    ChargesConcat(k, a, b[|a|..]);
  }

  /** While nobody decides, a charged ticket has an answered approval, or had one that was dropped. */
  lemma {:induction false} ChargedIsAnsweredOrForsaken(k: Subject, moves: seq<Move>)
    requires OwnKey(k, moves) && Undecided(k, moves)
    ensures Charges(k, After(k, moves).sys.db.ledger) == 1 <==> SomeAnswered(After(k, moves)) || Forsaken(k, moves)
  {
    var w := After(k, moves);
    if moves == [] {
      assert w == SUBMITTED;
      assert Charges(k, []) == 0;
    } else {
      hide After, OwnInv, Charges, Key, TicketMachine.Step, Undecided, Forsaken, SomeAnswered;
      var (before, m) := (moves[..|moves| - 1], moves[|moves| - 1]);
      var was := After(k, before);
      UndecidedLast(k, moves);
      ForsakenLast(k, moves);
      AfterLast(k, moves);
      ChargedIsAnsweredOrForsaken(k, before);
      PendingIsUndecided(k, before);
      OwnReachable(k, before);
      OwnReachable(k, moves);
      OwnCharges(k, was);
      OwnCharges(k, w);
      LedgerStands(k, was, m);
      ChargesGrow(k, was.sys.db.ledger, w.sys.db.ledger);
      if Charges(k, was.sys.db.ledger) == 0 && Charges(k, w.sys.db.ledger) == 1 {
        ChargeAnswers(k, was, m);
      }
      if SomeAnswered(was) {
        AnsweredStays(k, was, m);
      }
      if SomeAnswered(w) {
        SomeAnsweredIsCharged(k, w);
      }
      if Forsakes(was, m) {
        AnsweredIsCharged(k, was, m.a);
      }
    }
  }

  lemma SomeAnsweredIsCharged(k: Subject, w: World)
    requires OwnInv(k, w) && SomeAnswered(w)
    ensures Charges(k, w.sys.db.ledger) == 1
  {
    hide OwnInv, Charges;
    var a :| a in w.approvals && w.approvals[a].Answered?;
    AnsweredIsCharged(k, w, a);
  }

  /** The finished runs that leave a ticket charged and still pending: those in which some approval was dropped
      after its renewal had been answered, and no move decided. */
  lemma ChargedAndPendingExactly(k: Subject, moves: seq<Move>)
    requires OwnKey(k, moves) && After(k, moves).approvals == map[]
    ensures Charges(k, After(k, moves).sys.db.ledger) == 1 && After(k, moves).decision == Pending
            <==> Forsaken(k, moves) && Undecided(k, moves)
  {
    hide After, Charges, Key, Undecided, Forsaken;
    PendingIsUndecided(k, moves);
    if Undecided(k, moves) {
      ChargedIsAnsweredOrForsaken(k, moves);
    }
  }

  /** There are such runs: the answer to a renewal that went through is lost. */
  lemma DroppedYetCharged(k: Subject, a: nat, t: nat, p: Renewal)
    requires IsApproval(k, p)
    ensures var calling := TicketMachine.Step(k, TicketMachine.Step(k, SUBMITTED, Look(a)), Call(a, t, p));
            var end := TicketMachine.Step(k, Through(k, calling, t, RenewOps(p)), Drop(a));
            && end.decision == Pending && a !in end.approvals && Charges(k, end.sys.db.ledger) >= 1
  {
    hide Inv, KeysInv, Charges, Key, IsApproval, RenewOps, Through, OwnRows, ApprovalTx;
    OwnReachable(k, []);
    assert After(k, []) == SUBMITTED;
    var looked := TicketMachine.Step(k, SUBMITTED, Look(a));
    StepKeepsOwn(k, SUBMITTED, Look(a));
    CallKeepsOwn(k, looked, a, t, p);
    CallKeeps(k, looked, a, t, p);
    var calling := TicketMachine.Step(k, looked, Call(a, t, p));
    assert Charges(k, []) == 0 by { NoCharges(k, []); }
    assert calling.sys.txs.Keys == {t};
    assert calling.sys.txs[t].todo == RenewOps(p);
    AloneCharges(k, calling, a, t);
  }
}

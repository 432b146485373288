/** One voucher batch from its generation on: redemptions and the voiding of the batch, interleaved
    (backend/internal/billing: voucher.go, voucher_api.go). A redemption locks its voucher row and then
    looks at the voucher's newest state, but at the batch as it was when the query started. A void locks
    the batch row and then visits the vouchers, waiting for the ones being redeemed.
 */
module Vouchers {
  datatype Mark = Unused | Used | Void

  /** Ledger rows of the batch. */
  datatype Row = Generated(amount: int) | Redeemed(number: nat) | Credited(amount: int)

  datatype Db = Db(price: int, creator: string, marks: seq<Mark>, voided: bool, rows: seq<Row>)

  datatype Tx =
    | Looking(number: nat, batchVoid: bool)          // the query has its snapshot and waits for the voucher row
    | Redeeming(number: nat)                         // the row is locked, every check passed
    | Voiding(visited: set<nat>, marked: set<nat>)   // the batch row is locked

  datatype State = State(db: Db, txs: map<nat, Tx>)

  datatype Outcome = Ok | BatchVoid | AlreadyUsed | Expired

  /** redeemVoucher's checks, in order. */
  function Verdict(batchVoid: bool, mark: Mark, expired: bool): Outcome {
    if batchVoid || mark == Void then BatchVoid
    else if mark == Used then AlreadyUsed
    else if expired then Expired
    else Ok
  }

  /** generateBatch: the creator pays for every code. */
  function Generate(price: int, count: nat, creator: string): State {
    State(Db(price, creator, seq(count, _ => Unused), false, [Generated(-(price * count))]), map[])
  }

  datatype Event =
    | Look(t: nat, number: nat)
    | Take(t: nat, expired: bool)   // the voucher lock is granted and the checks made
    | FinishRedeem(t: nat)          // the renewal is done: mark used and commit
    | StartVoid(t: nat)
    | Visit(t: nat, number: nat)    // the void reaches one voucher
    | FinishVoid(t: nat)
    | Abort(t: nat)                 // a failure anywhere, or a crash

  /** The vouchers a transaction has locked. */
  function Locks(tx: Tx): set<nat> {
    match tx
    case Looking(_, _) => {}
    case Redeeming(n) => {n}
    case Voiding(_, marked) => marked
  }

  predicate LockedByOther(s: State, t: nat, n: nat) {
    exists u | u in s.txs :: u != t && n in Locks(s.txs[u])
  }

  predicate VoidRunning(s: State) {
    exists u | u in s.txs :: s.txs[u].Voiding?
  }

  predicate AllVisited(db: Db, visited: set<nat>) {
    forall n | 0 <= n < |db.marks| :: n in visited
  }

  /** The vouchers that were unused and are now void, the credit for them, and the batch. */
  function Voided(db: Db, marked: set<nat>): Db {
    var credit := db.price * |marked|;
    db.(marks := seq(|db.marks|, i requires 0 <= i < |db.marks| => if i in marked then Void else db.marks[i]),
        voided := true,
        rows := if credit > 0 && db.creator != "" then db.rows + [Credited(credit)] else db.rows)
  }

  function Step(s: State, e: Event): State {
    match e
    case Look(t, n) =>
      if t in s.txs || n >= |s.db.marks| then s else s.(txs := s.txs[t := Looking(n, s.db.voided)])
    case Take(t, expired) =>
      if t !in s.txs || !s.txs[t].Looking? then s
      else
        var n := s.txs[t].number;
        if n >= |s.db.marks| || LockedByOther(s, t, n) then s
        else if Verdict(s.txs[t].batchVoid, s.db.marks[n], expired) == Ok then s.(txs := s.txs[t := Redeeming(n)])
        else s.(txs := s.txs - {t})
    case FinishRedeem(t) =>
      if t !in s.txs || !s.txs[t].Redeeming? || s.txs[t].number >= |s.db.marks| then s
      else
        var n := s.txs[t].number;
        State(s.db.(marks := s.db.marks[n := Used], rows := s.db.rows + [Redeemed(n)]), s.txs - {t})
    case StartVoid(t) =>
      if t in s.txs || VoidRunning(s) || s.db.voided then s else s.(txs := s.txs[t := Voiding({}, {})])
    case Visit(t, n) =>
      if t !in s.txs || !s.txs[t].Voiding? || n >= |s.db.marks| then s
      else
        var tx := s.txs[t];
        if s.db.marks[n] != Unused then s.(txs := s.txs[t := tx.(visited := tx.visited + {n})])
        else if LockedByOther(s, t, n) then s
        else s.(txs := s.txs[t := Voiding(tx.visited + {n}, tx.marked + {n})])
    case FinishVoid(t) =>
      if t !in s.txs || !s.txs[t].Voiding? || !AllVisited(s.db, s.txs[t].visited) then s
      else State(Voided(s.db, s.txs[t].marked), s.txs - {t})
    case Abort(t) =>
      if t !in s.txs then s else s.(txs := s.txs - {t})
  }

  function Run(price: int, count: nat, creator: string, events: seq<Event>): State {
    if events == [] then Generate(price, count, creator)
    else Step(Run(price, count, creator, events[..|events| - 1]), events[|events| - 1])
  }

  // ---- counting ----

  function Count(marks: seq<Mark>, m: Mark): nat {
    if marks == [] then 0 else Count(marks[..|marks| - 1], m) + (if marks[|marks| - 1] == m then 1 else 0)
  }

  lemma {:induction false} CountsAddUp(marks: seq<Mark>)
    ensures Count(marks, Unused) + Count(marks, Used) + Count(marks, Void) == |marks|
  {
    if marks != [] {
      CountsAddUp(marks[..|marks| - 1]);
    }
  }

  lemma {:induction false} CountUpdate(marks: seq<Mark>, n: nat, next: Mark, m: Mark)
    requires n < |marks|
    ensures Count(marks[n := next], m) == Count(marks, m) - (if marks[n] == m then 1 else 0) + (if next == m then 1 else 0)
  {
    var last := |marks| - 1;
    if n == last {
      assert marks[n := next][..last] == marks[..last];
    } else {
      assert marks[n := next][..last] == marks[..last][n := next];
      CountUpdate(marks[..last], n, next, m);
    }
  }

  /** How many times a voucher was redeemed. */
  function Redemptions(rows: seq<Row>, n: nat): nat {
    if rows == [] then 0
    else Redemptions(rows[..|rows| - 1], n) + (if rows[|rows| - 1] == Redeemed(n) then 1 else 0)
  }

  /** What the batch has cost its creator so far. */
  function CreatorNet(rows: seq<Row>): int {
    if rows == [] then 0
    else
      var last := rows[|rows| - 1];
      CreatorNet(rows[..|rows| - 1]) + (if last.Redeemed? then 0 else last.amount)
  }

  /** How many redemptions there were of any voucher. */
  function Redeemings(rows: seq<Row>): nat {
    if rows == [] then 0 else Redeemings(rows[..|rows| - 1]) + (if rows[|rows| - 1].Redeemed? then 1 else 0)
  }

  /** What the creator has been credited. */
  function Credit(rows: seq<Row>): int {
    if rows == [] then 0
    else Credit(rows[..|rows| - 1]) + (if rows[|rows| - 1].Credited? then rows[|rows| - 1].amount else 0)
  }

  lemma TotalsSnoc(rows: seq<Row>, row: Row)
    ensures Redeemings(rows + [row]) == Redeemings(rows) + (if row.Redeemed? then 1 else 0)
    ensures Credit(rows + [row]) == Credit(rows) + (if row.Credited? then row.amount else 0)
  {
    assert (rows + [row])[..|rows|] == rows;
  }

  lemma RowSnoc(rows: seq<Row>, row: Row, n: nat)
    ensures Redemptions(rows + [row], n) == Redemptions(rows, n) + (if row == Redeemed(n) then 1 else 0)
    ensures CreatorNet(rows + [row]) == CreatorNet(rows) + (if row.Redeemed? then 0 else row.amount)
  {
    assert (rows + [row])[..|rows|] == rows;
  }

  // ---- the invariant ----

  ghost predicate LocksApart(s: State) {
    forall t, u | t in s.txs && u in s.txs && t != u :: Locks(s.txs[t]) !! Locks(s.txs[u]) && !(s.txs[t].Voiding? && s.txs[u].Voiding?)
  }

  /** What an open transaction has locked is unused. */
  ghost predicate TxOk(db: Db, tx: Tx) {
    && (forall n | n in Locks(tx) :: n < |db.marks| && db.marks[n] == Unused)
    && (tx.Voiding? ==> !db.voided && forall n | n in tx.visited :: n < |db.marks| && (n in tx.marked || db.marks[n] != Unused))
  }

  ghost predicate DbOk(db: Db, count: nat) {
    && |db.marks| == count
    && (forall n | 0 <= n < count :: Redemptions(db.rows, n) == if db.marks[n] == Used then 1 else 0)
    && (if db.voided then Count(db.marks, Unused) == 0 else Count(db.marks, Void) == 0)
    && CreatorNet(db.rows) == -(db.price * count) + (if db.voided && db.price > 0 && db.creator != "" then db.price * Count(db.marks, Void) else 0)
    && Redeemings(db.rows) == Count(db.marks, Used)
    && Credit(db.rows) == CreatorNet(db.rows) + db.price * count
  }

  ghost predicate Inv(s: State, count: nat) {
    DbOk(s.db, count) && LocksApart(s) && forall t | t in s.txs :: TxOk(s.db, s.txs[t])
  }

  lemma {:induction false} AllUnused(count: nat, m: Mark)
    ensures Count(seq(count, _ => Unused), m) == if m == Unused then count else 0
  {
    if count > 0 {
      assert seq(count, _ => Unused)[..count - 1] == seq(count - 1, _ => Unused);
      AllUnused(count - 1, m);
    }
  }

  lemma GenerateStarts(price: int, count: nat, creator: string)
    ensures Inv(Generate(price, count, creator), count)
  {
    AllUnused(count, Void);
    AllUnused(count, Used);
    var g := Generated(-(price * count));
    TotalsSnoc([], g);
    assert [] + [g] == [g];
    forall n: nat
      ensures Redemptions([g], n) == 0 && CreatorNet([g]) == -(price * count)
    {
      RowSnoc([], g, n);
      assert [] + [g] == [g];
    }
  }

  lemma {:induction false} NoneLeft(marks: seq<Mark>, m: Mark)
    ensures Count(marks, m) == 0 <==> forall n | 0 <= n < |marks| :: marks[n] != m
  {
    if marks != [] {
      NoneLeft(marks[..|marks| - 1], m);
      if Count(marks, m) == 0 {
        forall n | 0 <= n < |marks|
          ensures marks[n] != m
        {
          if n < |marks| - 1 {
            assert marks[..|marks| - 1][n] != m;
          }
        }
      }
    }
  }

  lemma RedeemKeeps(s: State, count: nat, t: nat)
    requires Inv(s, count)
    ensures Inv(Step(s, FinishRedeem(t)), count)
  {
    hide Count, Redemptions, CreatorNet, Redeemings, Credit;
    if t in s.txs && s.txs[t].Redeeming? && s.txs[t].number < |s.db.marks| {
      var n := s.txs[t].number;
      assert n in Locks(s.txs[t]) && s.db.marks[n] == Unused;
      var post := Step(s, FinishRedeem(t));
      if s.db.voided {
        NoneLeft(s.db.marks, Unused);
      }
      assert !s.db.voided;
      CountUpdate(s.db.marks, n, Used, Void);
      CountUpdate(s.db.marks, n, Used, Used);
      TotalsSnoc(s.db.rows, Redeemed(n));
      forall i: nat
        ensures Redemptions(post.db.rows, i) == Redemptions(s.db.rows, i) + (if i == n then 1 else 0)
        ensures CreatorNet(post.db.rows) == CreatorNet(s.db.rows)
      {
        RowSnoc(s.db.rows, Redeemed(n), i);
      }
      forall u | u in post.txs
        ensures TxOk(post.db, post.txs[u])
      {
        assert Locks(s.txs[t]) !! Locks(s.txs[u]);
      }
    }
  }

  function VoidMarks(marks: seq<Mark>, marked: set<nat>): seq<Mark> {
    seq(|marks|, i requires 0 <= i < |marks| => if i in marked then Void else marks[i])
  }

  /** Marking k unused vouchers void makes k void vouchers. */
  lemma {:induction false} VoidCount(marks: seq<Mark>, marked: set<nat>)
    requires forall n | n in marked :: n < |marks| && marks[n] != Void
    ensures Count(VoidMarks(marks, marked), Void) == Count(marks, Void) + |marked|
    decreases |marks|
  {
    if marks == [] {
      assert marked == {};
    } else {
      var last := |marks| - 1;
      assert VoidMarks(marks, marked)[..last] == VoidMarks(marks[..last], marked - {last});
      VoidCount(marks[..last], marked - {last});
    }
  }

  /** And it leaves the used ones alone. */
  lemma {:induction false} UsedCount(marks: seq<Mark>, marked: set<nat>)
    requires forall n | n in marked :: n < |marks| && marks[n] != Used
    ensures Count(VoidMarks(marks, marked), Used) == Count(marks, Used)
    decreases |marks|
  {
    if marks != [] {
      var last := |marks| - 1;
      assert VoidMarks(marks, marked)[..last] == VoidMarks(marks[..last], marked - {last});
      UsedCount(marks[..last], marked - {last});
    }
  }

  lemma VoidKeeps(s: State, count: nat, t: nat)
    requires Inv(s, count)
    ensures Inv(Step(s, FinishVoid(t)), count)
  {
    hide Count, Redemptions, CreatorNet, Redeemings, Credit;
    if t in s.txs && s.txs[t].Voiding? && AllVisited(s.db, s.txs[t].visited) {
      var (db, marked) := (s.db, s.txs[t].marked);
      var post := Step(s, FinishVoid(t));
      assert post.db.marks == VoidMarks(db.marks, marked);
      assert marked == Locks(s.txs[t]);
      VoidCount(db.marks, marked);
      UsedCount(db.marks, marked);
      TotalsSnoc(db.rows, Credited(db.price * |marked|));
      NoneLeft(post.db.marks, Unused);
      var credit := db.price * |marked|;
      CreditSign(db.price, |marked|);
      forall n: nat
        ensures Redemptions(post.db.rows, n) == Redemptions(db.rows, n)
        ensures CreatorNet(post.db.rows) == CreatorNet(db.rows) + (if credit > 0 && db.creator != "" then credit else 0)
      {
        RowSnoc(db.rows, Credited(credit), n);
      }
      assert CreatorNet(post.db.rows) == CreatorNet(db.rows) + (if credit > 0 && db.creator != "" then credit else 0);
      forall u | u in post.txs
        ensures TxOk(post.db, post.txs[u])
      {
        assert Locks(s.txs[t]) !! Locks(s.txs[u]);
      }
    }
  }

  lemma CreditSign(price: int, k: nat)
    ensures price * k > 0 <==> price > 0 && k > 0
  {
  }

  lemma TakeKeeps(s: State, count: nat, t: nat, expired: bool)
    requires Inv(s, count)
    ensures Inv(Step(s, Take(t, expired)), count)
  {
    hide DbOk;
  }

  lemma VisitKeeps(s: State, count: nat, t: nat, n: nat)
    requires Inv(s, count)
    ensures Inv(Step(s, Visit(t, n)), count)
  {
    hide DbOk;
  }

  lemma OpenKeeps(s: State, count: nat, e: Event)
    requires Inv(s, count) && (e.Look? || e.StartVoid? || e.Abort?)
    ensures Inv(Step(s, e), count)
  {
    hide DbOk;
  }

  lemma StepKeeps(s: State, count: nat, e: Event)
    requires Inv(s, count)
    ensures Inv(Step(s, e), count)
  {
    hide *;
    match e
    case Take(t, expired) => TakeKeeps(s, count, t, expired);
    case FinishRedeem(t) => RedeemKeeps(s, count, t);
    case Visit(t, n) => VisitKeeps(s, count, t, n);
    case FinishVoid(t) => VoidKeeps(s, count, t);
    case _ => OpenKeeps(s, count, e);
  }

  lemma {:induction false} Reachable(price: int, count: nat, creator: string, events: seq<Event>)
    ensures Inv(Run(price, count, creator, events), count)
  {
    hide Inv, Step, Generate;
    if events == [] {
      GenerateStarts(price, count, creator);
    } else {
      Reachable(price, count, creator, events[..|events| - 1]);
      StepKeeps(Run(price, count, creator, events[..|events| - 1]), count, events[|events| - 1]);
    }
  }

  lemma {:induction false} StepKeepsTerms(price: int, count: nat, creator: string, events: seq<Event>)
    ensures var db := Run(price, count, creator, events).db; db.price == price && db.creator == creator
  {
    hide VoidRunning, LockedByOther, AllVisited, Verdict;
    if events != [] {
      StepKeepsTerms(price, count, creator, events[..|events| - 1]);
    }
  }

  // ---- what that means ----

  /** No voucher is lost or made, and the rows account for every one: as many redemptions as there are used
      vouchers, and once the batch is void the price of each void voucher as the credit. */
  lemma VouchersConserved(price: int, count: nat, creator: string, events: seq<Event>)
    ensures var db := Run(price, count, creator, events).db;
            && Count(db.marks, Used) + Count(db.marks, Unused) + Count(db.marks, Void) == count
            && Redeemings(db.rows) == Count(db.marks, Used)
            && Credit(db.rows) == (if db.voided && price > 0 && creator != "" then price * Count(db.marks, Void) else 0)
            && (Count(db.marks, Void) > 0 ==> db.voided) && (db.voided ==> Redeemings(db.rows) + Count(db.marks, Void) == count)
  {
    hide Count, Run, Redemptions, CreatorNet, Redeemings, Credit;
    Reachable(price, count, creator, events);
    StepKeepsTerms(price, count, creator, events);
    CountsAddUp(Run(price, count, creator, events).db.marks);
  }

  /** A voucher backs one redemption when it is used and none otherwise; in particular none of a void one. */
  lemma OneRedemption(price: int, count: nat, creator: string, events: seq<Event>, n: nat)
    requires n < count
    ensures var db := Run(price, count, creator, events).db;
            |db.marks| == count && Redemptions(db.rows, n) == if db.marks[n] == Used then 1 else 0
  {
    hide Run, Redemptions, Count, CreatorNet, Redeemings, Credit;
    Reachable(price, count, creator, events);
  }

  /** The creator has paid for the whole batch until it is void, and exactly for the used vouchers after. Without
      a creator or with a price that is not positive nothing is ever credited. */
  lemma CreatorPaysForUsed(price: int, count: nat, creator: string, events: seq<Event>)
    ensures var db := Run(price, count, creator, events).db;
            CreatorNet(db.rows) == if db.voided && price > 0 && creator != "" then -(price * Count(db.marks, Used)) else -(price * count)
  {
    hide Run, Redemptions, Count, CreatorNet, Redeemings, Credit;
    Reachable(price, count, creator, events);
    StepKeepsTerms(price, count, creator, events);
    var db := Run(price, count, creator, events).db;
    CountsAddUp(db.marks);
    if db.voided {
      Distributes(price, count, Count(db.marks, Void));
    }
  }

  lemma Distributes(price: int, a: int, b: int)
    ensures price * a - price * b == price * (a - b)
  {
  }

  /** A redemption that saw the batch before it was voided still cannot use a voided voucher. */
  lemma StaleBatchIsHarmless(price: int, count: nat, creator: string, events: seq<Event>, t: nat, expired: bool)
    requires var s := Run(price, count, creator, events);
             t in s.txs && s.txs[t].Looking? && s.txs[t].number < count && s.db.voided
    ensures var s := Run(price, count, creator, events);
            var post := Step(s, Take(t, expired));
            post == s || (t !in post.txs && post.db == s.db)
  {
    hide Run, Redemptions, CreatorNet, LockedByOther;
    Reachable(price, count, creator, events);
    NoneLeft(Run(price, count, creator, events).db.marks, Unused);
  }
}

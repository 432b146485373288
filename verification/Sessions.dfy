/** What one accounting record does to the sessions, usage_points and
    subscriber_billing_counters tables (backend/internal/accounting/sessions.go,
    billingcounters.go), and what the reaper does (reaper.go). The empty string
    stands for a NULL subscriber. Times are seconds.
 */
module Sessions {
  import opened Wrappers
  import opened OctetCounters

  datatype Kind = Start | Interim | Stop

  datatype Key = Key(nas: string, session: string)

  /** A record together with what it resolved to: its NAS and its subscriber. */
  datatype Record = Record(
    kind: Kind, key: Key, subscriber: string, username: string,
    input: Reading, output: Reading,
    eventTime: int, receiptTime: int, cause: string)

  datatype Session = Session(
    subscriber: string, username: string, startedAt: int, lastInterimAt: int,
    stoppedAt: Option<int>, cause: string,
    bytesIn: int64, bytesOut: int64, stale: bool, reaped: bool)

  datatype UsagePoint = UsagePoint(time: int, subscriber: string, nas: string, down: int64, up: int64)

  datatype Bytes = Bytes(down: int, up: int)

  datatype Tables = Tables(sessions: map<Key, Session>, usage: seq<UsagePoint>, lifetime: map<string, Bytes>)

  const EMPTY := Tables(map[], [], map[])

  function Coalesce(s: string, kept: string): string {
    if s != "" then s else kept
  }

  // ---- upsertSession ----

  /** The new total and the delta of one direction. `dropped` is the stored total
      that the new baseline gives up: all of it when the counter restarts. */
  datatype Accrual = Accrual(total: uint64, delta: uint64, dropped: uint64)

  function Accrue(row: Option<Session>, kind: Kind, stored: int64, r: Reading): Accrual {
    var all := TotalBytes(r);
    if row.None? then Accrual(all, all, 0)
    else
      var last := FromInt64(stored);
      if kind == Start || row.value.stoppedAt.Some? then Accrual(all, all, last)
      else
        var a := Advance(last, r);
        Accrual(a.total, a.delta, if a.total < last then last else 0)
  }

  function Row(t: Tables, k: Key): Option<Session> {
    if k in t.sessions then Some(t.sessions[k]) else None
  }

  function AccrueIn(t: Tables, r: Record): Accrual {
    var row := Row(t, r.key);
    Accrue(row, r.kind, if row.Some? then row.value.bytesIn else 0, r.input)
  }

  function AccrueOut(t: Tables, r: Record): Accrual {
    var row := Row(t, r.key);
    Accrue(row, r.kind, if row.Some? then row.value.bytesOut else 0, r.output)
  }

  function WriteStart(r: Record, bytesIn: int64, bytesOut: int64): Session {
    Session(r.subscriber, r.username, r.eventTime, r.receiptTime, None, "", bytesIn, bytesOut, false, false)
  }

  function WriteInterim(row: Option<Session>, r: Record, bytesIn: int64, bytesOut: int64): Session {
    match row
    case None => WriteStart(r, bytesIn, bytesOut)
    case Some(s) =>
      s.(subscriber := Coalesce(r.subscriber, s.subscriber), username := Coalesce(r.username, s.username),
         lastInterimAt := r.receiptTime, stoppedAt := None,
         bytesIn := bytesIn, bytesOut := bytesOut, stale := false, reaped := false)
  }

  function WriteStop(row: Option<Session>, r: Record, bytesIn: int64, bytesOut: int64): Session {
    match row
    case None =>
      WriteStart(r, bytesIn, bytesOut).(stoppedAt := Some(r.eventTime), cause := r.cause)
    case Some(s) =>
      s.(subscriber := Coalesce(r.subscriber, s.subscriber),
         stoppedAt := Some(r.eventTime), cause := r.cause, lastInterimAt := r.receiptTime,
         bytesIn := bytesIn, bytesOut := bytesOut, stale := false, reaped := false)
  }

  function LifetimeOf(lifetime: map<string, Bytes>, sub: string): Bytes {
    if sub in lifetime then lifetime[sub] else Bytes(0, 0)
  }

  function IncrementLifetimeBytes(lifetime: map<string, Bytes>, sub: string, down: int64, up: int64): map<string, Bytes> {
    if sub == "" then lifetime
    else
      var sofar := LifetimeOf(lifetime, sub);
      lifetime[sub := Bytes(sofar.down + down, sofar.up + up)]
  }

  function Upsert(t: Tables, r: Record): Tables {
    var row := Row(t, r.key);
    var (i, o) := (AccrueIn(t, r), AccrueOut(t, r));
    var (bytesIn, bytesOut) := (ToInt64(i.total), ToInt64(o.total));
    var session := match r.kind
                   case Start => WriteStart(r, bytesIn, bytesOut)
                   case Interim => WriteInterim(row, r, bytesIn, bytesOut)
                   case Stop => WriteStop(row, r, bytesIn, bytesOut);
    var sessions := t.sessions[r.key := session];
    if i.delta == 0 && o.delta == 0 then t.(sessions := sessions)
    else
      var (up, down) := (ToInt64(i.delta), ToInt64(o.delta));
      Tables(sessions,
             t.usage + [UsagePoint(r.eventTime, r.subscriber, r.key.nas, down, up)],
             IncrementLifetimeBytes(t.lifetime, r.subscriber, down, up))
  }

  // ---- the reaper ----

  function MarkStale(t: Tables, k: Key): Tables {
    if k in t.sessions && t.sessions[k].stoppedAt.None?
    then t.(sessions := t.sessions[k := t.sessions[k].(stale := true)])
    else t
  }

  function ReapSession(t: Tables, k: Key): Tables {
    if k in t.sessions && t.sessions[k].stoppedAt.None?
    then
      var s := t.sessions[k];
      t.(sessions := t.sessions[k := s.(stoppedAt := Some(s.lastInterimAt), cause := "Reaper-Timeout",
                                        stale := true, reaped := true)])
    else t
  }

  // ---- histories ----

  datatype Op = Apply(record: Record) | Stale(key: Key) | Reap(key: Key)

  function ApplyOp(t: Tables, op: Op): Tables {
    match op
    case Apply(r) => Upsert(t, r)
    case Stale(k) => MarkStale(t, k)
    case Reap(k) => ReapSession(t, k)
  }

  function Replay(ops: seq<Op>): Tables {
    if ops == [] then EMPTY else ApplyOp(Replay(ops[..|ops| - 1]), ops[|ops| - 1])
  }

  /** What the last operation of a history emitted (and dropped) for session k. */
  function LastFor(ops: seq<Op>, k: Key): (Accrual, Accrual)
    requires ops != []
  {
    var op := ops[|ops| - 1];
    if op.Apply? && op.record.key == k
    then
      var before := Replay(ops[..|ops| - 1]);
      (AccrueIn(before, op.record), AccrueOut(before, op.record))
    else (Accrual(0, 0, 0), Accrual(0, 0, 0))
  }

  datatype Tally = Tally(emittedIn: nat, emittedOut: nat, droppedIn: nat, droppedOut: nat)

  /** Everything ever emitted, and every baseline ever given up, for session k. */
  function TallyOf(ops: seq<Op>, k: Key): Tally {
    if ops == [] then Tally(0, 0, 0, 0)
    else
      var t := TallyOf(ops[..|ops| - 1], k);
      var (i, o) := LastFor(ops, k);
      Tally(t.emittedIn + i.delta, t.emittedOut + o.delta, t.droppedIn + i.dropped, t.droppedOut + o.dropped)
  }

  function StoredIn(t: Tables, k: Key): uint64 {
    if k in t.sessions then FromInt64(t.sessions[k].bytesIn) else 0
  }

  function StoredOut(t: Tables, k: Key): uint64 {
    if k in t.sessions then FromInt64(t.sessions[k].bytesOut) else 0
  }

  lemma AccrueConserves(row: Option<Session>, kind: Kind, stored: int64, r: Reading)
    ensures var a := Accrue(row, kind, stored, r);
            a.delta + (if row.Some? then FromInt64(stored) else 0) == a.total + a.dropped
  {
  }

  /** The upserted row stores exactly the two new totals; no other row changes. */
  lemma UpsertStores(t: Tables, r: Record, k: Key)
    ensures var t' := Upsert(t, r);
            if k == r.key
            then StoredIn(t', k) == AccrueIn(t, r).total && StoredOut(t', k) == AccrueOut(t, r).total
            else Row(t', k) == Row(t, k)
  {
    var (i, o) := (AccrueIn(t, r), AccrueOut(t, r));
    assert FromInt64(ToInt64(i.total)) == i.total && FromInt64(ToInt64(o.total)) == o.total;
  }

  /** What one record emits for its own session is what it stores more, and what it gives up; other sessions stay. */
  lemma UpsertConserves(t: Tables, r: Record, k: Key)
    ensures var (t', i, o) := (Upsert(t, r), AccrueIn(t, r), AccrueOut(t, r));
            if k == r.key
            then i.delta + StoredIn(t, k) == StoredIn(t', k) + i.dropped && o.delta + StoredOut(t, k) == StoredOut(t', k) + o.dropped
            else StoredIn(t', k) == StoredIn(t, k) && StoredOut(t', k) == StoredOut(t, k)
  {
    hide Upsert, Accrue;
    var row := Row(t, k);
    UpsertStores(t, r, k);
    AccrueConserves(row, r.kind, if row.Some? then row.value.bytesIn else 0, r.input);
    AccrueConserves(row, r.kind, if row.Some? then row.value.bytesOut else 0, r.output);
  }

  lemma ReaperStoresNothing(t: Tables, op: Op, k: Key)
    requires !op.Apply?
    ensures StoredIn(ApplyOp(t, op), k) == StoredIn(t, k) && StoredOut(ApplyOp(t, op), k) == StoredOut(t, k)
  {
  }

  /** Over any interleaving of records and reaper passes, the bytes emitted for a
      session are its stored total plus the totals given up at baseline resets. */
  lemma {:induction false} SessionBytesConserved(ops: seq<Op>, k: Key)
    ensures var t := TallyOf(ops, k);
            && t.emittedIn == StoredIn(Replay(ops), k) + t.droppedIn
            && t.emittedOut == StoredOut(Replay(ops), k) + t.droppedOut
  {
    hide Upsert, MarkStale, ReapSession, Accrue, Row;
    if ops != [] {
      hide StoredIn, StoredOut, AccrueIn, AccrueOut;
      var t, op := Replay(ops[..|ops| - 1]), ops[|ops| - 1];
      SessionBytesConserved(ops[..|ops| - 1], k);
      if op.Apply? {
        UpsertConserves(t, op.record, k);
      } else {
        ReaperStoresNothing(t, op, k);
      }
    }
  }

  /** The usage points of one subscriber, summed. */
  function UsageOf(usage: seq<UsagePoint>, sub: string): Bytes {
    if usage == [] then Bytes(0, 0)
    else
      var rest := UsageOf(usage[..|usage| - 1], sub);
      var p := usage[|usage| - 1];
      if p.subscriber == sub then Bytes(rest.down + p.down, rest.up + p.up) else rest
  }

  lemma UsageSnoc(usage: seq<UsagePoint>, p: UsagePoint, sub: string)
    ensures var rest := UsageOf(usage, sub);
            UsageOf(usage + [p], sub) == if p.subscriber == sub then Bytes(rest.down + p.down, rest.up + p.up) else rest
  {
    assert (usage + [p])[..|usage|] == usage;
  }

  /** One record moves a subscriber's usage and lifetime alike. */
  lemma UpsertAccounts(t: Tables, r: Record, sub: string)
    requires sub != "" && LifetimeOf(t.lifetime, sub) == UsageOf(t.usage, sub)
    ensures LifetimeOf(Upsert(t, r).lifetime, sub) == UsageOf(Upsert(t, r).usage, sub)
  {
    hide AccrueIn, AccrueOut, WriteStart, WriteInterim, WriteStop, ToInt64, UsageOf, Row;
    var (i, o) := (AccrueIn(t, r), AccrueOut(t, r));
    if i.delta != 0 || o.delta != 0 {
      UsageSnoc(t.usage, UsagePoint(r.eventTime, r.subscriber, r.key.nas, ToInt64(o.delta), ToInt64(i.delta)), sub);
    }
  }

  /** The reaper moves neither. */
  lemma ReaperAccountsNothing(t: Tables, op: Op)
    requires !op.Apply?
    ensures ApplyOp(t, op).lifetime == t.lifetime && ApplyOp(t, op).usage == t.usage
  {
  }

  /** A subscriber's lifetime bytes are exactly the sum of every usage point ever written for them. */
  lemma {:induction false} LifetimeIsUsage(ops: seq<Op>, sub: string)
    requires sub != ""
    ensures LifetimeOf(Replay(ops).lifetime, sub) == UsageOf(Replay(ops).usage, sub)
  {
    hide Upsert, MarkStale, ReapSession;
    if ops != [] {
      hide LifetimeOf;
      var t, op := Replay(ops[..|ops| - 1]), ops[|ops| - 1];
      LifetimeIsUsage(ops[..|ops| - 1], sub);
      hide UsageOf;
      if op.Apply? {
        UpsertAccounts(t, op.record, sub);
      } else {
        ReaperAccountsNothing(t, op);
      }
    }
  }

  /** The usage point, if any, that the last operation wrote. */
  function LastPoint(ops: seq<Op>): seq<UsagePoint>
    requires ops != []
  {
    var op := ops[|ops| - 1];
    if op.Apply? then
      var (i, o) := LastFor(ops, op.record.key);
      if i.delta == 0 && o.delta == 0 then []
      else [UsagePoint(op.record.eventTime, op.record.subscriber, op.record.key.nas, ToInt64(o.delta), ToInt64(i.delta))]
    else []
  }

  /** The points a history should have left behind: one for each non-empty delta, in order. */
  function EmittedPoints(ops: seq<Op>): seq<UsagePoint> {
    if ops == [] then [] else EmittedPoints(ops[..|ops| - 1]) + LastPoint(ops)
  }

  /** Uploaded bytes are the NAS's input octets, downloaded bytes its output octets;
      no point is lost, repeated or reordered. */
  lemma {:induction false} UsageIsEmitted(ops: seq<Op>)
    ensures Replay(ops).usage == EmittedPoints(ops)
  {
    if ops != [] {
      UsageIsEmitted(ops[..|ops| - 1]);
    }
  }

  /** A record on a session that was closed, by a Stop or by the reaper, reopens it
      (unless it is itself a Stop) and counts all of the NAS's counter again. */
  lemma RecordReopens(t: Tables, r: Record)
    requires r.key in t.sessions && t.sessions[r.key].stoppedAt.Some?
    ensures var s := Upsert(t, r).sessions[r.key];
            && (s.stoppedAt.Some? <==> r.kind == Stop)
            && !s.stale && !s.reaped
            && FromInt64(s.bytesIn) == TotalBytes(r.input) == AccrueIn(t, r).delta
            && FromInt64(s.bytesOut) == TotalBytes(r.output) == AccrueOut(t, r).delta
  {
  }
}

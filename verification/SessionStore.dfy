/** The session tables as the database holds them, written step by step
    (backend/internal/accounting/sessions.go, billingcounters.go, reaper.go).
 */
module SessionStore {
  import opened Wrappers
  import opened OctetCounters
  import opened Sessions

  /** When a session last heard from at `last` is dimmed, and when it is closed. */
  const STALE_INTERVALS: nat := 2
  const REAP_INTERVALS: nat := 3
  const REAP_GRACE: nat := 300

  datatype Verdict = Leave | Dim | Close

  function Judge(lastInterimAt: int, stale: bool, now: int, interval: nat): Verdict {
    if now - lastInterimAt >= REAP_INTERVALS * interval + REAP_GRACE then Close
    else if now - lastInterimAt >= STALE_INTERVALS * interval && !stale then Dim
    else Leave
  }

  /** What a reaper pass at time `now` does to one session when nothing comes in between. */
  function Aged(s: Session, now: int, interval: nat): Session {
    if s.stoppedAt.Some? then s
    else
      match Judge(s.lastInterimAt, s.stale, now, interval)
      case Close => s.(stoppedAt := Some(s.lastInterimAt), cause := "Reaper-Timeout", stale := true, reaped := true)
      case Dim => s.(stale := true)
      case Leave => s
  }

  /** What a pass reads of an open session. */
  datatype Seen = Seen(key: Key, lastInterimAt: int, stale: bool)

  function See(k: Key, s: Session): Seen {
    Seen(k, s.lastInterimAt, s.stale)
  }

  /** The update a pass makes for one session it has read. */
  function Update(o: Seen, now: int, interval: nat): seq<Op> {
    match Judge(o.lastInterimAt, o.stale, now, interval)
    case Close => [Reap(o.key)]
    case Dim => [Stale(o.key)]
    case Leave => []
  }

  function Updates(open: seq<Seen>, now: int, interval: nat): seq<Op> {
    if open == [] then []
    else Updates(open[..|open| - 1], now, interval) + Update(open[|open| - 1], now, interval)
  }

  ghost predicate Distinct(open: seq<Seen>) {
    forall i, j | 0 <= i < j < |open| :: open[i].key != open[j].key
  }

  ghost predicate Lists(open: seq<Seen>, k: Key) {
    exists i | 0 <= i < |open| :: open[i].key == k
  }

  /** `open` is every open session, each once, as it is now. */
  ghost predicate ReadsOpen(open: seq<Seen>, sessions: map<Key, Session>) {
    && Distinct(open)
    && (forall i | 0 <= i < |open| ::
          var k := open[i].key; k in sessions && sessions[k].stoppedAt.None? && open[i] == See(k, sessions[k]))
    && (forall k | k in sessions && sessions[k].stoppedAt.None? :: Lists(open, k))
  }

  class Store {
    var sessions: map<Key, Session>
    var usage: seq<UsagePoint>
    var lifetime: map<string, Bytes>

    function View(): Tables
      reads this
    {
      Tables(sessions, usage, lifetime)
    }

    constructor ()
      ensures View() == EMPTY
    {
      sessions, usage, lifetime := map[], [], map[];
    }

    /** incrementLifetimeBytes: creates the row on first touch, then adds. */
    method IncrementBytes(sub: string, down: int64, up: int64)
      modifies this`lifetime
      ensures lifetime == IncrementLifetimeBytes(old(lifetime), sub, down, up)
    {
      if sub == "" {
        return;
      }
      if sub !in lifetime {
        lifetime := lifetime[sub := Bytes(down, up)];
      } else {
        lifetime := lifetime[sub := Bytes(lifetime[sub].down + down, lifetime[sub].up + up)];
      }
    }

    /** upsertSession: one accounting record, inside the consumer's transaction. */
    method UpsertSession(r: Record)
      modifies this
      ensures View() == Upsert(old(View()), r)
    {
      var haveRow := r.key in sessions;
      var newIn, newOut, up, down;
      if r.kind == Start || !haveRow || sessions[r.key].stoppedAt.Some? {
        newIn, newOut := TotalBytes(r.input), TotalBytes(r.output);
        up, down := newIn, newOut;
      } else {
        var (i, o) := (Advance(FromInt64(sessions[r.key].bytesIn), r.input),
                       Advance(FromInt64(sessions[r.key].bytesOut), r.output));
        newIn, up := i.total, i.delta;
        newOut, down := o.total, o.delta;
      }
      var row := if haveRow then Some(sessions[r.key]) else None;
      match r.kind {
        case Start => sessions := sessions[r.key := WriteStart(r, ToInt64(newIn), ToInt64(newOut))];
        case Interim => sessions := sessions[r.key := WriteInterim(row, r, ToInt64(newIn), ToInt64(newOut))];
        case Stop => sessions := sessions[r.key := WriteStop(row, r, ToInt64(newIn), ToInt64(newOut))];
      }
      if up > 0 || down > 0 {
        usage := usage + [UsagePoint(r.eventTime, r.subscriber, r.key.nas, ToInt64(down), ToInt64(up))];
        IncrementBytes(r.subscriber, ToInt64(down), ToInt64(up));
      }
    }

    /** Dims session k if it is open. Nothing else about it, and no other session, changes. */
    method MarkStale(k: Key)
      modifies this`sessions
      ensures sessions.Keys == old(sessions).Keys
      ensures forall j | j in sessions && j != k :: sessions[j] == old(sessions)[j]
      ensures k in sessions ==>
                && sessions[k].(stale := false) == old(sessions)[k].(stale := false)
                && sessions[k].stale == (old(sessions)[k].stale || old(sessions)[k].stoppedAt.None?)
      ensures View() == Sessions.MarkStale(old(View()), k)
    {
      if k in sessions && sessions[k].stoppedAt.None? {
        sessions := sessions[k := sessions[k].(stale := true)];
      }
    }

    /** Closes session k if it is open, at the time it was last heard from. Its counters and identity stay, and so
        does every other session. */
    method ReapSession(k: Key)
      modifies this`sessions
      ensures sessions.Keys == old(sessions).Keys
      ensures forall j | j in sessions && j != k :: sessions[j] == old(sessions)[j]
      ensures k in sessions ==>
                && (old(sessions)[k].stoppedAt.Some? ==> sessions[k] == old(sessions)[k])
                && (old(sessions)[k].stoppedAt.None? ==>
                      && sessions[k].stoppedAt == Some(old(sessions)[k].lastInterimAt) && sessions[k].cause == "Reaper-Timeout"
                      && sessions[k].stale && sessions[k].reaped)
                && sessions[k].bytesIn == old(sessions)[k].bytesIn && sessions[k].bytesOut == old(sessions)[k].bytesOut
                && sessions[k].subscriber == old(sessions)[k].subscriber && sessions[k].username == old(sessions)[k].username
                && sessions[k].startedAt == old(sessions)[k].startedAt && sessions[k].lastInterimAt == old(sessions)[k].lastInterimAt
      ensures View() == Sessions.ReapSession(old(View()), k)
    {
      if k in sessions && sessions[k].stoppedAt.None? {
        var s := sessions[k];
        sessions := sessions[k := s.(stoppedAt := Some(s.lastInterimAt), cause := "Reaper-Timeout",
                                     stale := true, reaped := true)];
      }
    }

    /** The first half of reapOnce: the open sessions and when they were last heard from. */
    method ReadOpen() returns (open: seq<Seen>)
      ensures ReadsOpen(open, sessions)
    {
      var left := sessions.Keys;
      open := [];
      while left != {}
        invariant left <= sessions.Keys && Distinct(open)
        invariant forall i | 0 <= i < |open| ::
                    var k := open[i].key;
                    k in sessions && k !in left && sessions[k].stoppedAt.None? && open[i] == See(k, sessions[k])
        invariant forall k | k in sessions && k !in left && sessions[k].stoppedAt.None? :: Lists(open, k)
        decreases left
      {
        var k :| k in left;
        left := left - {k};
        if sessions[k].stoppedAt.None? {
          ListsMore(open, See(k, sessions[k]));
          open := open + [See(k, sessions[k])];
        }
      }
    }

    /** The second half: one update for each session that was read, whatever has happened to it since. */
    method UpdateSeen(open: seq<Seen>, now: int, interval: nat)
      modifies this`sessions
      ensures View() == ApplyAll(old(View()), Updates(open, now, interval))
    {
      NoUpdates(old(View()), now, interval);
      hide ApplyAll, Updates, Update, Sessions.MarkStale, Sessions.ReapSession;
      for i := 0 to |open|
        invariant View() == ApplyAll(old(View()), Updates(open[..i], now, interval))
      {
        var o := open[i];
        var age := now - o.lastInterimAt;
        OneMoreUpdate(old(View()), open, i, now, interval);
        ApplyOne(View(), o, now, interval);
        if age >= REAP_INTERVALS * interval + REAP_GRACE {
          ReapSession(o.key);
        } else if age >= STALE_INTERVALS * interval && !o.stale {
          MarkStale(o.key);
        }
      }
      assert open[..|open|] == open;
    }

    /** reapOnce with nothing in between: every open session that has gone quiet is dimmed or closed, and nothing
        else moves. */
    method ReapOnce(now: int, interval: nat) returns (open: seq<Seen>)
      modifies this`sessions
      ensures ReadsOpen(open, old(sessions)) && View() == ApplyAll(old(View()), Updates(open, now, interval))
      ensures sessions == map k | k in old(sessions) :: Aged(old(sessions)[k], now, interval)
    {
      open := ReadOpen();
      UpdateSeen(open, now, interval);
      PassAges(old(View()), open, now, interval);
    }
  }

  function ApplyAll(t: Tables, ops: seq<Op>): Tables {
    if ops == [] then t else ApplyOp(ApplyAll(t, ops[..|ops| - 1]), ops[|ops| - 1])
  }

  lemma {:induction false} ApplyAllConcat(t: Tables, a: seq<Op>, b: seq<Op>)
    ensures ApplyAll(t, a + b) == ApplyAll(ApplyAll(t, a), b)
    decreases |b|
  {
    if b == [] {
      assert a + b == a;
    } else {
      assert (a + b)[..|a + b| - 1] == a + b[..|b| - 1];
      ApplyAllConcat(t, a, b[..|b| - 1]);
    }
  }

  lemma ListsMore(open: seq<Seen>, o: Seen)
    ensures forall k :: Lists(open + [o], k) <==> Lists(open, k) || k == o.key
  {
    var more := open + [o];
    assert more[|open|] == o;
    forall k | Lists(open, k)
      ensures Lists(more, k)
    {
      var i :| 0 <= i < |open| && open[i].key == k;
      assert more[i].key == k;
    }
    forall k | Lists(more, k)
      ensures Lists(open, k) || k == o.key
    {
      var i :| 0 <= i < |more| && more[i].key == k;
      if i < |open| {
        assert open[i].key == k;
      }
    }
  }

  lemma NoUpdates(t: Tables, now: int, interval: nat)
    ensures ApplyAll(t, Updates([], now, interval)) == t
  {
  }

  lemma OneMoreUpdate(t: Tables, open: seq<Seen>, i: nat, now: int, interval: nat)
    requires i < |open|
    ensures ApplyAll(t, Updates(open[..i + 1], now, interval))
         == ApplyAll(ApplyAll(t, Updates(open[..i], now, interval)), Update(open[i], now, interval))
  {
    hide ApplyAll, Update;
    assert open[..i + 1][..i] == open[..i];
    ApplyAllConcat(t, Updates(open[..i], now, interval), Update(open[i], now, interval));
  }

  lemma ApplyOne(t: Tables, o: Seen, now: int, interval: nat)
    ensures ApplyAll(t, Update(o, now, interval)) ==
            match Judge(o.lastInterimAt, o.stale, now, interval)
            case Close => Sessions.ReapSession(t, o.key)
            case Dim => Sessions.MarkStale(t, o.key)
            case Leave => t
  {
    hide Sessions.ReapSession, Sessions.MarkStale;
    var ops := Update(o, now, interval);
    assert ApplyAll(t, []) == t;
    if ops != [] {
      assert ops[..0] == [];
    }
  }

  /** The update for a session that is still as it was read ages that session and nothing else. */
  lemma UpdateAges(t: Tables, o: Seen, now: int, interval: nat)
    requires o.key in t.sessions && t.sessions[o.key].stoppedAt.None? && o == See(o.key, t.sessions[o.key])
    ensures ApplyAll(t, Update(o, now, interval))
         == t.(sessions := t.sessions[o.key := Aged(t.sessions[o.key], now, interval)])
  {
    ApplyOne(t, o, now, interval);
    hide ApplyAll;
    assert t.sessions[o.key := t.sessions[o.key]] == t.sessions;
  }

  /** What the first updates of a quiet pass have done. */
  ghost predicate AgedSoFar(t: Tables, t': Tables, open: seq<Seen>, now: int, interval: nat) {
    && t'.sessions.Keys == t.sessions.Keys && t'.usage == t.usage && t'.lifetime == t.lifetime
    && forall k | k in t.sessions ::
         t'.sessions[k] == if Lists(open, k) then Aged(t.sessions[k], now, interval) else t.sessions[k]
  }

  lemma AgesOneMore(t: Tables, t': Tables, front: seq<Seen>, o: Seen, now: int, interval: nat)
    requires AgedSoFar(t, t', front, now, interval) && o.key in t.sessions && !Lists(front, o.key)
    ensures AgedSoFar(t, t'.(sessions := t'.sessions[o.key := Aged(t.sessions[o.key], now, interval)]), front + [o], now, interval)
  {
    hide Aged;
    ListsMore(front, o);
    hide Lists;
  }

  lemma {:induction false} PassAgesSome(t: Tables, open: seq<Seen>, now: int, interval: nat)
    requires Distinct(open)
    requires forall i | 0 <= i < |open| ::
               var k := open[i].key; k in t.sessions && t.sessions[k].stoppedAt.None? && open[i] == See(k, t.sessions[k])
    ensures AgedSoFar(t, ApplyAll(t, Updates(open, now, interval)), open, now, interval)
  {
    hide Aged, Update, ApplyOp;
    if open != [] {
      hide AgedSoFar;
      var (front, o) := (open[..|open| - 1], open[|open| - 1]);
      PassAgesSome(t, front, now, interval);
      ApplyAllConcat(t, Updates(front, now, interval), Update(o, now, interval));
      var t' := ApplyAll(t, Updates(front, now, interval));
      NotListed(open);
      NotYetAged(t, t', front, o.key, now, interval);
      UpdateAges(t', o, now, interval);
      AgesOneMore(t, t', front, o, now, interval);
      assert open == front + [o];
    }
  }

  lemma NotListed(open: seq<Seen>)
    requires Distinct(open) && open != []
    ensures !Lists(open[..|open| - 1], open[|open| - 1].key)
  {
  }

  lemma NotYetAged(t: Tables, t': Tables, front: seq<Seen>, k: Key, now: int, interval: nat)
    requires AgedSoFar(t, t', front, now, interval) && k in t.sessions && !Lists(front, k)
    ensures k in t'.sessions && t'.sessions[k] == t.sessions[k]
  {
    hide Aged;
  }

  lemma PassAges(t: Tables, open: seq<Seen>, now: int, interval: nat)
    requires ReadsOpen(open, t.sessions)
    ensures ApplyAll(t, Updates(open, now, interval)) == t.(sessions := map k | k in t.sessions :: Aged(t.sessions[k], now, interval))
  {
    hide Judge, Updates, ApplyAll;
    PassAgesSome(t, open, now, interval);
    forall k | k in t.sessions && Lists(open, k)
      ensures t.sessions[k].stoppedAt.None?
    {
      var i :| 0 <= i < |open| && open[i].key == k;
    }
  }

  // ---- records between the two halves ----

  /** The last record of session k among some operations. */
  function LastRecord(ops: seq<Op>, k: Key): Option<Record> {
    if ops == [] then None
    else
      var op := ops[|ops| - 1];
      if op.Apply? && op.record.key == k then Some(op.record) else LastRecord(ops[..|ops| - 1], k)
  }

  /** Records, and updates of other sessions. */
  predicate Spares(ops: seq<Op>, k: Key) {
    forall op | op in ops :: op.Apply? || op.key != k
  }

  /** What a session looks like after them is what its last record says. */
  lemma {:induction false} LastRecordDecides(t: Tables, ops: seq<Op>, k: Key)
    requires Spares(ops, k)
    ensures var (t', last) := (ApplyAll(t, ops), LastRecord(ops, k));
            if last.None? then Row(t', k) == Row(t, k)
            else
              && k in t'.sessions && t'.sessions[k].lastInterimAt == last.value.receiptTime
              && !t'.sessions[k].stale && !t'.sessions[k].reaped
              && (t'.sessions[k].stoppedAt.Some? <==> last.value.kind == Stop)
  {
    if ops != [] {
      var (before, op) := (ops[..|ops| - 1], ops[|ops| - 1]);
      assert op in ops;
      LastRecordDecides(t, before, k);
      var was := ApplyAll(t, before);
      hide ApplyAll, LastRecord;
      if op.Apply? {
        RecordSays(was, op.record, k);
      }
    }
  }

  lemma RecordSays(t: Tables, r: Record, k: Key)
    ensures var t' := Upsert(t, r);
            if k != r.key then Row(t', k) == Row(t, k)
            else
              && k in t'.sessions && t'.sessions[k].lastInterimAt == r.receiptTime
              && !t'.sessions[k].stale && !t'.sessions[k].reaped
              && (t'.sessions[k].stoppedAt.Some? <==> r.kind == Stop)
  {
    hide AccrueIn, AccrueOut, ToInt64, IncrementLifetimeBytes;
  }

  /** A session that has been heard from since the pass read it is closed all the same exactly when it was past the
      limit as read and the last record since is not a Stop. It is then stopped at that very record. */
  lemma ClosedThoughHeardExactly(t: Tables, between: seq<Op>, k: Key, now: int, interval: nat)
    requires k in t.sessions && t.sessions[k].stoppedAt.None?
    requires Spares(between, k) && LastRecord(between, k).Some?
    ensures var (seen, last) := (See(k, t.sessions[k]), LastRecord(between, k).value);
            var end := ApplyAll(ApplyAll(t, between), Update(seen, now, interval));
            && k in end.sessions
            && (end.sessions[k].reaped <==>
                  now - t.sessions[k].lastInterimAt >= REAP_INTERVALS * interval + REAP_GRACE && last.kind != Stop)
            && (end.sessions[k].reaped ==> end.sessions[k].stoppedAt == Some(last.receiptTime))
  {
    LastRecordDecides(t, between, k);
    ApplyOne(ApplyAll(t, between), See(k, t.sessions[k]), now, interval);
    hide ApplyAll, LastRecord;
  }

  /** The next record of a session closed that way counts the whole counter: the stored totals are emitted again. */
  lemma ClosedCountsAgain(t: Tables, r: Record)
    requires r.key in t.sessions && t.sessions[r.key].stoppedAt.None?
    ensures var closed := Sessions.ReapSession(t, r.key);
            && AccrueIn(closed, r) == Accrual(TotalBytes(r.input), TotalBytes(r.input), StoredIn(t, r.key))
            && AccrueOut(closed, r) == Accrual(TotalBytes(r.output), TotalBytes(r.output), StoredOut(t, r.key))
  {
  }

  /** A session heard from again is never left dimmed or closed by the pass that came before:
      an interim after reaping reopens it, and a pass right after leaves it alone. */
  lemma InterimUndoesReaping(t: Tables, r: Record, now: int, interval: nat)
    requires r.kind == Interim && r.key in t.sessions
    requires 0 <= now - r.receiptTime < STALE_INTERVALS * interval
    ensures var reaped := t.(sessions := map k | k in t.sessions :: Aged(t.sessions[k], now, interval));
            var s := Upsert(reaped, r).sessions[r.key];
            s.stoppedAt.None? && !s.stale && !s.reaped && Aged(s, now, interval) == s
  {
    var reaped := t.(sessions := map k | k in t.sessions :: Aged(t.sessions[k], now, interval));
    assert Row(reaped, r.key).Some?;
  }
}

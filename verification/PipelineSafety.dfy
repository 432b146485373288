/** Zero loss and exactly-once effect, over every run of the pipeline. */
module PipelineSafety {
  import opened Wrappers
  import opened LogText
  import Decimal
  import W = SpillCodec
  import S = Sessions
  import opened Pipeline

  // ---- what the properties say ----

  ghost predicate InStream(s: State, p: Payload) {
    exists i :: 0 <= i < |s.redis.stream| && s.redis.stream[i].payload == p
  }

  /** Its dedup key is committed (with its session and usage effect, see DbInv); a payload
      that does not decode has nothing to commit. */
  ghost predicate Done(env: Env, s: State, p: Payload) {
    env.resolve(p).Some? ==> KeyOf(env.resolve(p).value) in s.db.dedup
  }

  ghost predicate Placed(env: Env, s: State, p: Payload) {
    InStream(s, p) || Done(env, s, p)
  }

  ghost predicate Safe(env: Env, s: State, p: Payload) {
    Placed(env, s, p) || p in W.Safe(env.crc, s.wal)
  }

  /** The records of the committed operations, in commit order. */
  function Commits(log: seq<S.Op>): seq<S.Record> {
    if log == [] then []
    else
      var op := log[|log| - 1];
      Commits(log[..|log| - 1]) + (if op.Apply? then [op.record] else [])
  }

  ghost function KeySet(rs: seq<S.Record>): set<DedupKey> {
    set r | r in rs :: KeyOf(r)
  }

  ghost predicate DistinctKeys(rs: seq<S.Record>) {
    forall i, j | 0 <= i < j < |rs| :: KeyOf(rs[i]) != KeyOf(rs[j])
  }

  // ---- the invariant ----

  ghost predicate StreamInv(s: State) {
    var r := s.redis;
    && r.lastId == |s.hist.arrivals| && r.delivered <= r.lastId
    && (forall i, j | 0 <= i < j < |r.stream| :: r.stream[i].id < r.stream[j].id)
    && (forall m | m in r.stream :: 1 <= m.id <= r.lastId && m.payload == s.hist.arrivals[m.id - 1])
    && (forall m | m in r.stream :: m.id in r.pel <==> m.id <= r.delivered)
    && (forall id | id in r.pel :: id <= r.delivered)
  }

  ghost predicate BatchInv(env: Env, s: State) {
    var b := s.mem.batch;
    && (forall i, j | 0 <= i < j < |b| :: b[i].id < b[j].id)
    && (forall m | m in b :: m in s.redis.stream && m.id <= s.redis.delivered)
    && (s.mem.needAck ==> b != [] && Done(env, s, b[0].payload))
  }

  ghost predicate WalInv(env: Env, s: State) {
    && s.wal.Valid() && W.LineChars(s.wal.tail)
    && (s.mem.drain.Some? ==>
          && s.mem.drain.value <= |Spilled(env, s)|
          && forall j | 0 <= j < s.mem.drain.value :: Placed(env, s, Spilled(env, s)[j]))
  }

  ghost predicate DbInv(s: State) {
    var commits := Commits(s.hist.log);
    && s.db.tables == S.Replay(s.hist.log)
    && DistinctKeys(commits) && s.db.dedup == KeySet(commits)
    && s.db.persisted == |commits| == |s.db.dedup|
  }

  ghost predicate AckedInv(env: Env, s: State) {
    forall p | p in s.hist.acked :: env.resolve(p).Some? && (p in s.hist.exposed || Safe(env, s, p))
  }

  ghost predicate Inv(env: Env, s: State) {
    StreamInv(s) && BatchInv(env, s) && WalInv(env, s) && DbInv(s) && AckedInv(env, s)
  }

  // ---- lemmas about the stream ----

  lemma {:induction false} OnlyIn(stream: seq<Msg>, ids: set<nat>)
    requires forall i, j | 0 <= i < j < |stream| :: stream[i].id < stream[j].id
    ensures var ms := Only(stream, ids);
            && (forall m | m in ms :: m in stream && m.id in ids)
            && (forall i, j | 0 <= i < j < |ms| :: ms[i].id < ms[j].id)
  {
    if stream != [] {
      OnlyIn(stream[1..], ids);
    }
  }

  lemma {:induction false} AfterIn(stream: seq<Msg>, delivered: nat)
    requires forall i, j | 0 <= i < j < |stream| :: stream[i].id < stream[j].id
    ensures var ms := After(stream, delivered);
            && (forall m | m in ms :: m in stream && m.id > delivered)
            && (forall m | m in stream && m.id > delivered :: m in ms)
            && (forall i, j | 0 <= i < j < |ms| :: ms[i].id < ms[j].id)
  {
    if stream != [] {
      AfterIn(stream[1..], delivered);
    }
  }

  lemma {:induction false} RemoveIn(stream: seq<Msg>, id: nat)
    requires forall i, j | 0 <= i < j < |stream| :: stream[i].id < stream[j].id
    ensures var ms := Remove(stream, id);
            && (forall m | m in ms :: m in stream && m.id != id)
            && (forall m | m in stream && m.id != id :: m in ms)
            && (forall i, j | 0 <= i < j < |ms| :: ms[i].id < ms[j].id)
  {
    if stream != [] {
      RemoveIn(stream[1..], id);
    }
  }

  lemma SortedIds(ms: seq<Msg>, m: Msg)
    requires forall i, j | 0 <= i < j < |ms| :: ms[i].id < ms[j].id
    requires m in ms
    ensures m.id <= ms[|ms| - 1].id
    ensures forall n | n in ms && n.id == m.id :: n == m
  {
  }

  // ---- one step ----

  /** Nothing that keeps a payload safe has been taken away. */
  ghost predicate Grows(env: Env, s: State, t: State) {
    && (forall m | m in s.redis.stream :: m in t.redis.stream)
    && s.db.dedup <= t.db.dedup
    && (forall p | p in W.Safe(env.crc, s.wal) :: p in W.Safe(env.crc, t.wal))
  }

  lemma GrowingKeepsPlaced(env: Env, s: State, t: State, p: Payload)
    requires forall m | m in s.redis.stream :: m in t.redis.stream
    requires s.db.dedup <= t.db.dedup
    requires Placed(env, s, p)
    ensures Placed(env, t, p)
  {
    if InStream(s, p) {
      var i :| 0 <= i < |s.redis.stream| && s.redis.stream[i].payload == p;
      assert s.redis.stream[i] in t.redis.stream;
      var j :| 0 <= j < |t.redis.stream| && t.redis.stream[j] == s.redis.stream[i];
    }
  }

  lemma GrowingKeepsAcked(env: Env, s: State, t: State)
    requires AckedInv(env, s) && Grows(env, s, t)
    requires t.hist.acked == s.hist.acked && s.hist.exposed <= t.hist.exposed
    ensures AckedInv(env, t)
  {
    forall p | p in t.hist.acked
      ensures env.resolve(p).Some? && (p in t.hist.exposed || Safe(env, t, p))
    {
      if p !in t.hist.exposed && Placed(env, s, p) {
        GrowingKeepsPlaced(env, s, t, p);
      }
    }
  }

  lemma GrowingKeepsDrain(env: Env, s: State, t: State)
    requires WalInv(env, s) && t.wal == s.wal && t.mem.drain == s.mem.drain
    requires forall m | m in s.redis.stream :: m in t.redis.stream
    requires s.db.dedup <= t.db.dedup
    ensures WalInv(env, t)
  {
    if t.mem.drain.Some? {
      forall j | 0 <= j < t.mem.drain.value
        ensures Placed(env, t, Spilled(env, t)[j])
      {
        GrowingKeepsPlaced(env, s, t, Spilled(env, s)[j]);
      }
    }
  }

  lemma XAddKeeps(env: Env, s: State, p: Payload)
    requires Inv(env, s)
    ensures var t := XAdd(s, p);
            && StreamInv(t) && BatchInv(env, t) && WalInv(env, t) && DbInv(t) && AckedInv(env, t)
            && InStream(t, p)
  {
    var t := XAdd(s, p);
    var n := |s.redis.stream|;
    assert t.redis.stream[n] == Msg(s.redis.lastId + 1, p);
    assert forall m | m in t.redis.stream :: m in s.redis.stream || m == t.redis.stream[n];
    forall i, j | 0 <= i < j < |t.redis.stream|
      ensures t.redis.stream[i].id < t.redis.stream[j].id
    {
      if j == n {
        assert s.redis.stream[i] in s.redis.stream;
      }
    }
    GrowingKeepsAcked(env, s, t);
    GrowingKeepsDrain(env, s, t);
  }

  lemma AppendKeeps(env: Env, s: State, p: Payload)
    requires Inv(env, s)
    ensures var w := s.wal.Append(W.Line(env.crc, p));
            && w.Valid() && W.LineChars(w.tail)
            && (forall q | q in W.Safe(env.crc, s.wal) :: q in W.Safe(env.crc, w))
            && (Decimal.AllZeros(s.wal.tail) ==> p in W.Safe(env.crc, w))
  {
    W.AppendExactly(env.crc, s.wal, p);
    var (before, after) := (W.Safe(env.crc, s.wal), W.Safe(env.crc, s.wal.Append(W.Line(env.crc, p))));
    assert before <= after;
    forall q | q in before ensures q in after {
      var i :| 0 <= i < |before| && before[i] == q;
      assert after[i] == q;
    }
    if Decimal.AllZeros(s.wal.tail) {
      assert after[|before|] == p;
    }
  }

  /** Nothing but counters, the drain's position and the list of answers differs. */
  ghost predicate SameBooks(s: State, t: State) {
    && t.redis.stream == s.redis.stream && t.redis.pel == s.redis.pel
    && t.redis.lastId == s.redis.lastId && t.redis.delivered == s.redis.delivered
    && t.wal == s.wal && t.db.dedup == s.db.dedup && t.db.tables == s.db.tables && t.db.persisted == s.db.persisted
    && t.mem.batch == s.mem.batch && t.mem.needAck == s.mem.needAck
    && t.hist.arrivals == s.hist.arrivals && t.hist.log == s.hist.log && t.hist.exposed == s.hist.exposed
  }

  lemma SamePlaced(env: Env, s: State, t: State, p: Payload)
    requires SameBooks(s, t)
    ensures Placed(env, s, p) == Placed(env, t, p) && Safe(env, s, p) == Safe(env, t, p)
  {
    hide W.Safe, KeyOf;
    assert InStream(s, p) == InStream(t, p);
  }

  lemma SameKeeps(env: Env, s: State, t: State)
    requires SameBooks(s, t)
    ensures StreamInv(s) ==> StreamInv(t)
    ensures BatchInv(env, s) ==> BatchInv(env, t)
    ensures DbInv(s) ==> DbInv(t)
    ensures t.mem.drain == s.mem.drain && WalInv(env, s) ==> WalInv(env, t)
    ensures t.mem.drain.None? && WalInv(env, s) ==> WalInv(env, t)
  {
    hide Commits, KeySet, DistinctKeys, S.Replay, KeyOf, W.Payloads, Placed;
    forall p
      ensures Placed(env, s, p) == Placed(env, t, p)
    {
      SamePlaced(env, s, t, p);
    }
  }

  /** The same answers, or one more that is safe. */
  lemma SameAcked(env: Env, s: State, t: State, p: Payload)
    requires SameBooks(s, t) && AckedInv(env, s)
    requires t.hist.acked == s.hist.acked || (t.hist.acked == s.hist.acked + [p] && env.resolve(p).Some? && InStream(s, p))
    ensures AckedInv(env, t)
  {
    hide W.Safe, KeyOf, Done, InStream, SameBooks;
    forall q | q in t.hist.acked
      ensures env.resolve(q).Some? && (q in t.hist.exposed || Safe(env, t, q))
    {
      SameFacts(s, t);
      SamePlaced(env, s, t, q);
    }
  }

  lemma SameFacts(s: State, t: State)
    requires SameBooks(s, t)
    ensures t.hist.exposed == s.hist.exposed && t.wal == s.wal
  {
  }

  lemma EnqueueEffect(env: Env, s: State, e: Event)
    requires Enabled(env, s, e) && (e.EnqueueOk? || e.EnqueueLost?)
    ensures var (t, x) := (Step(env, s, e), XAdd(s, e.p));
            && SameBooks(x, t) && t.mem.drain == x.mem.drain && env.resolve(e.p).Some?
            && t.hist.acked == (if e.EnqueueOk? then x.hist.acked + [e.p] else x.hist.acked)
  {
    hide W.Line, W.Payloads;
  }

  lemma EnqueueKeeps(env: Env, s: State, e: Event)
    requires Inv(env, s) && Enabled(env, s, e) && (e.EnqueueOk? || e.EnqueueLost?)
    ensures Inv(env, Step(env, s, e))
  {
    hide Step, Enabled, XAdd, StreamInv, BatchInv, WalInv, DbInv, AckedInv, SameBooks, InStream;
    XAddKeeps(env, s, e.p);
    EnqueueEffect(env, s, e);
    SameKeeps(env, XAdd(s, e.p), Step(env, s, e));
    SameAcked(env, XAdd(s, e.p), Step(env, s, e), e.p);
  }

  lemma SpillOkEffect(env: Env, s: State, p: Payload)
    requires Enabled(env, s, SpillOk(p))
    ensures var t := Step(env, s, SpillOk(p));
            && t.redis == s.redis && t.db == s.db && t.wal == s.wal.Append(W.Line(env.crc, p)) && t.mem.drain.None?
            && t.mem.batch == s.mem.batch && t.mem.needAck == s.mem.needAck && env.resolve(p).Some?
            && t.hist.arrivals == s.hist.arrivals && t.hist.log == s.hist.log && t.hist.acked == s.hist.acked + [p]
            && t.hist.exposed == if Decimal.AllZeros(s.wal.tail) then s.hist.exposed else s.hist.exposed + {p}
  {
    hide W.Line, W.Payloads, Decimal.AllZeros;
  }

  lemma SpillOkKeeps(env: Env, s: State, p: Payload)
    requires Inv(env, s) && Enabled(env, s, SpillOk(p))
    ensures Inv(env, Step(env, s, SpillOk(p)))
  {
    hide Step, Enabled, W.Safe, W.Line, Commits, S.Replay, KeySet, DistinctKeys, Decimal.AllZeros;
    var t := Step(env, s, SpillOk(p));
    SpillOkEffect(env, s, p);
    AppendKeeps(env, s, p);
    GrowingKeepsAcked(env, s, t.(hist := t.hist.(acked := s.hist.acked)));
    assert p in t.hist.exposed || p in W.Safe(env.crc, t.wal);
  }

  lemma SpillUnsyncedKeeps(env: Env, s: State, p: Payload)
    requires Inv(env, s) && Enabled(env, s, SpillUnsynced(p))
    ensures Inv(env, Step(env, s, SpillUnsynced(p)))
  {
    AppendKeeps(env, s, p);
    GrowingKeepsAcked(env, s, Step(env, s, SpillUnsynced(p)));
  }

  lemma SpillTornKeeps(env: Env, s: State, p: Payload, k: nat)
    requires Inv(env, s) && Enabled(env, s, SpillTorn(p, k))
    ensures Inv(env, Step(env, s, SpillTorn(p, k)))
  {
    W.LineShape(env.crc, p);
    GrowingKeepsAcked(env, s, Step(env, s, SpillTorn(p, k)));
  }

  lemma QuietEffect(env: Env, s: State, e: Event)
    requires Enabled(env, s, e)
    requires e.Receive? || e.Refuse? || e.Flush? || e.DrainStart? || e.DrainStop?
    ensures var t := Step(env, s, e);
            && SameBooks(s, t) && t.hist.acked == s.hist.acked
            && t.mem.drain == if e.DrainStart? then Some(0) else if e.DrainStop? then None else s.mem.drain
  {
    hide W.Line, W.Payloads;
  }

  lemma QuietKeeps(env: Env, s: State, e: Event)
    requires Inv(env, s) && Enabled(env, s, e)
    requires e.Receive? || e.Refuse? || e.Flush? || e.DrainStart? || e.DrainStop?
    ensures Inv(env, Step(env, s, e))
  {
    hide Step, Enabled, StreamInv, BatchInv, DbInv, AckedInv, SameBooks, W.Payloads, Placed;
    QuietEffect(env, s, e);
    SameKeeps(env, s, Step(env, s, e));
    SameAcked(env, s, Step(env, s, e), []);
    if e.DrainStart? {
      SameFacts(s, Step(env, s, e));
    }
  }

  lemma PushEffect(env: Env, s: State, e: Event)
    requires Enabled(env, s, e) && (e.DrainPush? || e.DrainPushLost?)
    ensures s.mem.drain.Some? && s.mem.drain.value < |Spilled(env, s)|
    ensures var (t, x) := (Step(env, s, e), XAdd(s, Spilled(env, s)[s.mem.drain.value]));
            && SameBooks(x, t) && t.hist.acked == x.hist.acked && x.wal == s.wal && x.mem.drain == s.mem.drain
            && t.mem.drain == (if e.DrainPush? then Some(s.mem.drain.value + 1) else None)
  {
    hide W.Line, W.Payloads;
  }

  /** A drain moves on by one payload that is now in the stream. */
  lemma DrainAdvances(env: Env, x: State, t: State, i: nat)
    requires WalInv(env, x) && SameBooks(x, t) && x.mem.drain == Some(i) && t.mem.drain == Some(i + 1)
    requires i < |Spilled(env, x)| && InStream(x, Spilled(env, x)[i])
    ensures WalInv(env, t)
  {
    hide W.Payloads, Done, InStream;
    forall j | 0 <= j < i + 1
      ensures Placed(env, t, Spilled(env, t)[j])
    {
      SamePlaced(env, x, t, Spilled(env, x)[j]);
    }
  }

  lemma DrainPushKeeps(env: Env, s: State, e: Event)
    requires Inv(env, s) && Enabled(env, s, e) && (e.DrainPush? || e.DrainPushLost?)
    ensures Inv(env, Step(env, s, e))
  {
    hide Step, Enabled, StreamInv, BatchInv, WalInv, DbInv, AckedInv, SameBooks, InStream, XAdd, W.Payloads;
    PushEffect(env, s, e);
    var p := Spilled(env, s)[s.mem.drain.value];
    var (x, t) := (XAdd(s, p), Step(env, s, e));
    XAddKeeps(env, s, p);
    SameKeeps(env, x, t);
    SameAcked(env, x, t, p);
    if e.DrainPush? {
      DrainAdvances(env, x, t, s.mem.drain.value);
    }
  }

  /** Every safe payload was pushed, so it is still in the stream or already committed. */
  lemma DrainFinishKeeps(env: Env, s: State, e: Event)
    requires Inv(env, s) && Enabled(env, s, e) && (e.DrainFinish? || e.DrainUnsynced?)
    ensures Inv(env, Step(env, s, e))
  {
    var t := Step(env, s, e);
    SettledThenTail(W.Decoder(env.crc), s.wal);
    var safe := W.Safe(env.crc, s.wal);
    assert safe <= Spilled(env, s);
    forall p | p in t.hist.acked && p !in t.hist.exposed
      ensures Placed(env, t, p)
    {
      if p in safe {
        var i :| 0 <= i < |safe| && safe[i] == p;
        assert Spilled(env, s)[i] == p;
      }
      GrowingKeepsPlaced(env, s, t, p);
    }
  }

  /** Reading up to READ_COUNT new entries takes all of them up to the last one read. */
  lemma TakeIsPrefix(stream: seq<Msg>, delivered: nat, m: Msg)
    requires forall i, j | 0 <= i < j < |stream| :: stream[i].id < stream[j].id
    requires m in stream && m.id > delivered
    ensures var ms := Take(After(stream, delivered));
            && ms != []
            && (m.id in Ids(ms) <==> m.id <= ms[|ms| - 1].id)
  {
    AfterIn(stream, delivered);
    var all := After(stream, delivered);
    var ms := Take(all);
    var i :| 0 <= i < |all| && all[i] == m;
    if i < |ms| {
      assert ms[i] == m;
    }
    if m.id in Ids(ms) {
      var n :| n in ms && n.id == m.id;
      var k :| 0 <= k < |ms| && ms[k] == n;
    }
  }

  lemma DeliveredIds(r: Redis)
    requires forall i, j | 0 <= i < j < |r.stream| :: r.stream[i].id < r.stream[j].id
    ensures var ms := Take(After(r.stream, r.delivered));
            forall m | m in ms :: m in r.stream && r.delivered < m.id <= ms[|ms| - 1].id
  {
    AfterIn(r.stream, r.delivered);
    var all := After(r.stream, r.delivered);
    var ms := Take(all);
    forall m | m in ms
      ensures m in r.stream && r.delivered < m.id <= ms[|ms| - 1].id
    {
      var k :| 0 <= k < |ms| && ms[k] == m;
      assert all[k] == m;
    }
  }

  /** New entries move to the pending list in order. */
  lemma DeliverKeeps(s: State)
    requires StreamInv(s)
    ensures StreamInv(s.(redis := Deliver(s.redis)))
    ensures s.redis.delivered <= Deliver(s.redis).delivered
    ensures forall m | m in Take(After(s.redis.stream, s.redis.delivered)) ::
              m in s.redis.stream && m.id <= Deliver(s.redis).delivered
  {
    var (r, r') := (s.redis, Deliver(s.redis));
    DeliveredIds(r);
    var ms := Take(After(r.stream, r.delivered));
    if ms != [] {
      assert ms[|ms| - 1] in ms;
      forall m | m in r.stream
        ensures m.id in r'.pel <==> m.id <= r'.delivered
      {
        if m.id > r.delivered {
          TakeIsPrefix(r.stream, r.delivered, m);
        }
      }
    }
  }

  lemma TakeSorted(ms: seq<Msg>)
    requires forall i, j | 0 <= i < j < |ms| :: ms[i].id < ms[j].id
    ensures forall i, j | 0 <= i < j < |Take(ms)| :: Take(ms)[i].id < Take(ms)[j].id
    ensures forall m | m in Take(ms) :: m in ms
  {
  }

  /** What a read returns. */
  function Offered(s: State): seq<Msg> {
    Take(if s.mem.mode == Backlog then Only(s.redis.stream, s.redis.pel) else After(s.redis.stream, s.redis.delivered))
  }

  /** A read moves nothing but the group's position and the batch in hand. */
  lemma ReadEffect(env: Env, s: State, e: Event)
    requires Enabled(env, s, e) && (e.Read? || e.ReadLost?)
    ensures var t := Step(env, s, e);
            && t.redis.stream == s.redis.stream && t.wal == s.wal && t.db == s.db && t.hist == s.hist && t.mem.drain == s.mem.drain
            && (s.mem.mode == Backlog ==> t.redis == s.redis)
            && (s.mem.mode == Fresh ==> t.redis == Deliver(s.redis))
            && (e.ReadLost? ==> t.mem == s.mem)
            && (e.Read? ==> t.mem.needAck == s.mem.needAck && t.mem.batch == Offered(s))
            && s.mem.batch == []
  {
    hide Only, After, Take;
  }

  lemma ReadKeepsOthers(env: Env, s: State, t: State)
    requires WalInv(env, s) && DbInv(s) && AckedInv(env, s)
    requires t.redis.stream == s.redis.stream && t.wal == s.wal && t.db == s.db && t.hist == s.hist && t.mem.drain == s.mem.drain
    ensures WalInv(env, t) && DbInv(t) && AckedInv(env, t)
  {
    GrowingKeepsAcked(env, s, t);
    GrowingKeepsDrain(env, s, t);
    hide WalInv, AckedInv, Commits, S.Replay, W.Safe, KeySet;
  }

  lemma ReadKeeps(env: Env, s: State, e: Event)
    requires Inv(env, s) && Enabled(env, s, e) && (e.Read? || e.ReadLost?)
    ensures Inv(env, Step(env, s, e))
  {
    hide Step, Enabled, WalInv, DbInv, AckedInv, Deliver, Only, After, Take;
    var (t, r) := (Step(env, s, e), s.redis);
    ReadEffect(env, s, e);
    ReadKeepsOthers(env, s, t);
    OnlyIn(r.stream, r.pel);
    TakeSorted(Only(r.stream, r.pel));
    AfterIn(r.stream, r.delivered);
    TakeSorted(After(r.stream, r.delivered));
    DeliverKeeps(s);
    SameStreamInv(s.(redis := t.redis), t);
  }

  lemma SameStreamInv(s: State, t: State)
    requires StreamInv(s) && t.redis == s.redis && t.hist.arrivals == s.hist.arrivals
    ensures StreamInv(t)
  {
  }

  lemma CommitDbKeeps(s: State, r: S.Record)
    requires DbInv(s) && KeyOf(r) !in s.db.dedup
    ensures DbInv(s.(db := CommitDb(s.db, r), hist := s.hist.(log := s.hist.log + [S.Apply(r)])))
  {
    var (log, before) := (s.hist.log + [S.Apply(r)], Commits(s.hist.log));
    LogGrows(s.hist.log, r);
    hide Commits, S.Replay, S.Upsert;
    KeysGrow(before, r);
  }

  lemma LogGrows(log: seq<S.Op>, r: S.Record)
    ensures Commits(log + [S.Apply(r)]) == Commits(log) + [r]
    ensures S.Replay(log + [S.Apply(r)]) == S.Upsert(S.Replay(log), r)
  {
    hide S.Upsert;
    assert (log + [S.Apply(r)])[..|log|] == log;
  }

  lemma KeysGrow(before: seq<S.Record>, r: S.Record)
    requires DistinctKeys(before) && KeyOf(r) !in KeySet(before)
    ensures DistinctKeys(before + [r]) && KeySet(before + [r]) == KeySet(before) + {KeyOf(r)}
  {
    hide KeyOf;
    var after := before + [r];
    assert after[|before|] == r;
    forall k | k in KeySet(before)
      ensures k in KeySet(after)
    {
      var b :| b in before && KeyOf(b) == k;
      assert b in after;
    }
    forall i | 0 <= i < |before|
      ensures KeyOf(after[i]) != KeyOf(r)
    {
      assert before[i] in before;
    }
  }

  lemma TableOpKeeps(s: State, op: S.Op)
    requires DbInv(s) && !op.Apply?
    ensures DbInv(TableStep(s, op))
  {
    var log := s.hist.log + [op];
    assert log[..|log| - 1] == s.hist.log;
    assert Commits(log) == Commits(s.hist.log);
  }

  lemma TablesKeep(env: Env, s: State, e: Event)
    requires Inv(env, s) && Enabled(env, s, e)
    requires e.MarkStale? || e.Reap?
    ensures Inv(env, Step(env, s, e))
  {
    var t := Step(env, s, e);
    TableOpKeeps(s, if e.Reap? then S.Reap(e.key) else S.Stale(e.key));
    GrowingKeepsAcked(env, s, t);
    GrowingKeepsDrain(env, s, t);
  }

  /** The record is in the tables, and the batch either waits for its acknowledgement or is given up. */
  lemma CommitWrites(env: Env, s: State, e: Event)
    requires Enabled(env, s, e) && (e.Commit? || e.CommitLost?)
    ensures var (t, r) := (Step(env, s, e), Head(env, s).value);
            && t.redis == s.redis && t.wal == s.wal && t.mem.drain == s.mem.drain
            && t.hist == s.hist.(log := s.hist.log + [S.Apply(r)]) && t.db == CommitDb(s.db, r)
            && s.db.dedup <= t.db.dedup && KeyOf(r) !in s.db.dedup
            && (t.mem.batch == [] || t.mem.batch == s.mem.batch)
            && (t.mem.needAck ==> t.mem.batch != [] && Done(env, t, t.mem.batch[0].payload))
  {
    hide W.Line, W.Payloads, S.Upsert;
  }

  lemma SameDbInv(s: State, t: State)
    requires DbInv(s) && t.db == s.db && t.hist.log == s.hist.log
    ensures DbInv(t)
  {
    hide S.Replay, Commits, KeySet, DistinctKeys;
  }

  lemma CommitKeeps(env: Env, s: State, e: Event)
    requires Inv(env, s) && Enabled(env, s, e)
    requires e.Commit? || e.CommitLost?
    ensures Inv(env, Step(env, s, e))
  {
    hide Step, StreamInv, WalInv, DbInv, AckedInv, CommitDb, KeyOf, Done;
    var t := Step(env, s, e);
    CommitWrites(env, s, e);
    CommitDbKeeps(s, Head(env, s).value);
    SameDbInv(s.(db := t.db, hist := t.hist), t);
    SameStreamInv(s, t);
    GrowingKeepsAcked(env, s, t);
    GrowingKeepsDrain(env, s, t);
  }

  lemma ProcessKeeps(env: Env, s: State, e: Event)
    requires Inv(env, s) && Enabled(env, s, e)
    requires e.Duplicate? || e.DropCorrupt? || e.ProcessFails?
    ensures Inv(env, Step(env, s, e))
  {
    var t := Step(env, s, e);
    GrowingKeepsAcked(env, s, t);
    GrowingKeepsDrain(env, s, t);
  }

  lemma CrashKeeps(env: Env, s: State, loaded: bool)
    requires Inv(env, s)
    ensures Inv(env, Step(env, s, Crash(loaded)))
  {
    GrowingKeepsAcked(env, s, Step(env, s, Crash(loaded)));
  }

  /** Acknowledging takes away one entry, and that entry's payload is done. */
  lemma AckKeepsPlaced(env: Env, s: State, p: Payload)
    requires StreamInv(s) && BatchInv(env, s) && Enabled(env, s, Ack)
    requires Placed(env, s, p)
    ensures Placed(env, Step(env, s, Ack), p)
  {
    hide Remove, KeyOf;
    var t, head := Step(env, s, Ack), s.mem.batch[0];
    RemoveIn(s.redis.stream, head.id);
    if InStream(s, p) && !Done(env, s, p) {
      var i :| 0 <= i < |s.redis.stream| && s.redis.stream[i].payload == p;
      var m := s.redis.stream[i];
      if m.id == head.id {
        SortedIds(s.redis.stream, head);
      }
      assert m in t.redis.stream;
      var j :| 0 <= j < |t.redis.stream| && t.redis.stream[j] == m;
    }
  }

  lemma AckKeepsStream(env: Env, s: State)
    requires StreamInv(s) && Enabled(env, s, Ack)
    ensures StreamInv(Step(env, s, Ack))
  {
    hide Remove, Done;
    RemoveIn(s.redis.stream, s.mem.batch[0].id);
  }

  lemma AckKeepsBatch(env: Env, s: State)
    requires StreamInv(s) && BatchInv(env, s) && Enabled(env, s, Ack)
    ensures BatchInv(env, Step(env, s, Ack))
  {
    var (b, stream) := (s.mem.batch, s.redis.stream);
    RemoveIn(stream, b[0].id);
    forall m | m in b[1..]
      ensures m in Remove(stream, b[0].id) && m.id <= s.redis.delivered
    {
      var i :| 0 <= i < |b[1..]| && b[1..][i] == m;
      assert b[i + 1] == m && m in b;
    }
  }

  lemma AckKeeps(env: Env, s: State)
    requires Inv(env, s) && Enabled(env, s, Ack)
    ensures Inv(env, Step(env, s, Ack))
  {
    var t := Step(env, s, Ack);
    AckKeepsStream(env, s);
    AckKeepsBatch(env, s);
    forall p | Placed(env, s, p)
      ensures Placed(env, t, p)
    {
      AckKeepsPlaced(env, s, p);
    }
  }

  lemma DisabledStep(env: Env, s: State, e: Event)
    requires !Enabled(env, s, e)
    ensures Step(env, s, e) == s
  {
  }

  lemma StepKeeps(env: Env, s: State, e: Event)
    requires Inv(env, s)
    ensures Inv(env, Step(env, s, e))
  {
    hide *;
    if !Enabled(env, s, e) {
      DisabledStep(env, s, e);
    } else {
      match e
      case Receive(_) => QuietKeeps(env, s, e);
      case Refuse => QuietKeeps(env, s, e);
      case Flush => QuietKeeps(env, s, e);
      case EnqueueOk(_, _) => EnqueueKeeps(env, s, e);
      case EnqueueLost(_) => EnqueueKeeps(env, s, e);
      case SpillOk(p) => SpillOkKeeps(env, s, p);
      case SpillUnsynced(p) => SpillUnsyncedKeeps(env, s, p);
      case SpillTorn(p, k) => SpillTornKeeps(env, s, p, k);
      case DrainStart => QuietKeeps(env, s, e);
      case DrainStop => QuietKeeps(env, s, e);
      case DrainPush => DrainPushKeeps(env, s, e);
      case DrainPushLost => DrainPushKeeps(env, s, e);
      case DrainFinish => DrainFinishKeeps(env, s, e);
      case DrainUnsynced => DrainFinishKeeps(env, s, e);
      case Read => ReadKeeps(env, s, e);
      case ReadLost => ReadKeeps(env, s, e);
      case Commit => CommitKeeps(env, s, e);
      case CommitLost => CommitKeeps(env, s, e);
      case Duplicate(_) => ProcessKeeps(env, s, e);
      case DropCorrupt => ProcessKeeps(env, s, e);
      case ProcessFails => ProcessKeeps(env, s, e);
      case Ack => AckKeeps(env, s);
      case MarkStale(_) => TablesKeep(env, s, e);
      case Reap(_) => TablesKeep(env, s, e);
      case Crash(loaded) => CrashKeeps(env, s, loaded);
    }
  }

  lemma {:induction false} RunKeeps(env: Env, s: State, evs: seq<Event>)
    requires Inv(env, s)
    ensures Inv(env, ExecFrom(env, s, evs))
  {
    if evs != [] {
      RunKeeps(env, s, evs[..|evs| - 1]);
      StepKeeps(env, ExecFrom(env, s, evs[..|evs| - 1]), evs[|evs| - 1]);
    }
  }

  lemma Reachable(env: Env, evs: seq<Event>)
    ensures Inv(env, Exec(env, evs))
  {
    assert Inv(env, Init());
    RunKeeps(env, Init(), evs);
  }

  // ---- zero loss ----

  /** No append of the run was answered 204 behind a harmful unfinished line. */
  ghost predicate CleanAppends(env: Env, evs: seq<Event>) {
    evs != [] ==>
      var (s, e) := (Exec(env, evs[..|evs| - 1]), evs[|evs| - 1]);
      && CleanAppends(env, evs[..|evs| - 1])
      && (e.SpillOk? && Enabled(env, s, e) ==> Decimal.AllZeros(s.wal.tail))
  }

  lemma ExposureStep(env: Env, s: State, e: Event)
    requires e.SpillOk? && Enabled(env, s, e) ==> Decimal.AllZeros(s.wal.tail)
    ensures Step(env, s, e).hist.exposed == s.hist.exposed
  {
  }

  lemma {:induction false} CleanRunsExposeNothing(env: Env, evs: seq<Event>)
    requires CleanAppends(env, evs)
    ensures Exec(env, evs).hist.exposed == {}
  {
    if evs != [] {
      CleanRunsExposeNothing(env, evs[..|evs| - 1]);
      ExposureStep(env, Exec(env, evs[..|evs| - 1]), evs[|evs| - 1]);
    }
  }

  /** In every reachable state of every run, whatever failed or crashed, each record answered
      204 is in the stream, in the spill log for good, or committed under its dedup key -
      as long as no 204 was given for an append behind a harmful unfinished line. */
  lemma ZeroLoss(env: Env, evs: seq<Event>)
    requires CleanAppends(env, evs)
    ensures var s := Exec(env, evs);
            forall p | p in s.hist.acked :: env.resolve(p).Some? && Safe(env, s, p)
  {
    Reachable(env, evs);
    CleanRunsExposeNothing(env, evs);
  }

  /** Without that provision: only the exposed records can be missing. */
  lemma OnlyExposedCanBeLost(env: Env, evs: seq<Event>)
    ensures var s := Exec(env, evs);
            forall p | p in s.hist.acked && !Safe(env, s, p) :: p in s.hist.exposed
  {
    Reachable(env, evs);
  }

  /** In any reachable state, a 204 from the spill log is safe to give exactly when the
      unfinished line is all zeros, or the record is already safe elsewhere. */
  lemma SpillIsSafeExactly(env: Env, evs: seq<Event>, p: Payload)
    requires Enabled(env, Exec(env, evs), SpillOk(p))
    ensures var s := Exec(env, evs);
            Safe(env, Step(env, s, SpillOk(p)), p) <==> Decimal.AllZeros(s.wal.tail) || Safe(env, s, p)
  {
    var s := Exec(env, evs);
    Reachable(env, evs);
    W.AppendExactly(env.crc, s.wal, p);
    var t := Step(env, s, SpillOk(p));
    assert t.redis == s.redis && t.db == s.db;
    assert Placed(env, t, p) <==> Placed(env, s, p);
  }

  lemma ExecSnoc(env: Env, evs: seq<Event>, e: Event)
    ensures Exec(env, evs + [e]) == Step(env, Exec(env, evs), e)
  {
    assert (evs + [e])[..|evs|] == evs;
  }

  /** After a write torn behind its first character and one more request. */
  lemma AfterTornWrite(env: Env, q: Payload)
    requires env.resolve(q).Some?
    ensures var s := Exec(env, [Receive(false), SpillTorn(q, 1), Receive(false)]);
            && s.mem.inflight == 1 && s.mem.drain.None?
            && s.redis == Init().redis && s.db == Init().db
            && W.Line(env.crc, q) != "" && s.wal == File("", "").Torn(W.Line(env.crc, q)[..1])
  {
    var evs := [Receive(false), SpillTorn(q, 1), Receive(false)];
    ThreeSteps(env, evs[0], evs[1], evs[2]);
    hide W.Line, Restart, DrainStep, ConsumerStep, Exec, ExecFrom;
    W.LineShape(env.crc, q);
  }

  lemma ThreeSteps(env: Env, a: Event, b: Event, c: Event)
    ensures Exec(env, [a, b, c]) == Step(env, Step(env, Step(env, Init(), a), b), c)
  {
    hide Step;
    ExecSnoc(env, [], a);
    ExecSnoc(env, [a], b);
    ExecSnoc(env, [a, b], c);
    assert [] + [a] == [a] && [a] + [b] == [a, b] && [a, b] + [c] == [a, b, c];
    assert Exec(env, []) == Init();
  }

  lemma FirstDigit(env: Env, q: Payload)
    requires env.crc(q) > 0
    ensures W.Line(env.crc, q) != "" && !Decimal.AllZeros("" + W.Line(env.crc, q)[..1])
  {
    var line := W.Line(env.crc, q);
    Decimal.FormatValue(env.crc(q));
    assert ("" + line[..1])[0] == line[0] == Decimal.Format(env.crc(q))[0];
  }

  /** It does happen: a write torn after one character, then a record answered 204 that is nowhere. */
  lemma TornWriteLoses(env: Env, q: Payload, p: Payload)
    requires env.resolve(q).Some? && env.resolve(p).Some? && env.crc(q) > 0
    ensures var s := Exec(env, [Receive(false), SpillTorn(q, 1), Receive(false), SpillOk(p)]);
            p in s.hist.acked && !Safe(env, s, p)
  {
    var evs := [Receive(false), SpillTorn(q, 1), Receive(false)];
    var s := Exec(env, evs);
    AfterTornWrite(env, q);
    FirstDigit(env, q);
    SpillIsSafeExactly(env, evs, p);
    ExecSnoc(env, evs, SpillOk(p));
    assert evs + [SpillOk(p)] == [Receive(false), SpillTorn(q, 1), Receive(false), SpillOk(p)];
    LastAcked(env, s, p);
  }

  lemma LastAcked(env: Env, s: State, p: Payload)
    requires Enabled(env, s, SpillOk(p))
    ensures p in Step(env, s, SpillOk(p)).hist.acked
  {
    assert Step(env, s, SpillOk(p)).hist.acked == s.hist.acked + [p];
  }

  // ---- exactly-once effect ----

  /** In every run the tables are those of the committed records, each dedup key applied once in
      commit order (with the reaper's operations in between), and `persisted` counts them. */
  lemma ExactlyOnce(env: Env, evs: seq<Event>)
    ensures var s := Exec(env, evs);
            && s.db.tables == S.Replay(s.hist.log)
            && DistinctKeys(Commits(s.hist.log))
            && s.db.dedup == KeySet(Commits(s.hist.log))
            && s.db.persisted == |s.db.dedup|
  {
    Reachable(env, evs);
  }
}

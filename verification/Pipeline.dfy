/** The accounting pipeline as a step machine: HTTP ingest, Redis stream and
    consumer group, disk spill log, drainer, single consumer, counters
    (backend/internal/accounting: ingest.go, queue.go, spill.go, server.go,
    consumer.go, counters.go, reaper.go).

    Every step is one durable operation or one change of process memory, so a run
    may interleave the goroutines in any way and crash between any two operations.
    A step whose guard does not hold leaves the state alone.
 */
module Pipeline {
  import opened Wrappers
  import opened LogText
  import Decimal
  import W = SpillCodec
  import S = Sessions

  type Payload = W.Payload

  /** What the machine does not look into: the checksum, and how a payload decodes
      and resolves to its NAS and subscriber (None when it does not decode). */
  datatype Env = Env(crc: W.Crc, resolve: Payload -> Option<S.Record>)

  datatype Msg = Msg(id: nat, payload: Payload)

  /** The stream, the group's last delivered id, and the pending-entries list of the one consumer name. */
  datatype Redis = Redis(stream: seq<Msg>, lastId: nat, delivered: nat, pel: set<nat>,
                         received: nat, enqueued: nat)

  datatype DedupKey = DedupKey(nas: string, session: string, kind: S.Kind, time: int)

  datatype Flushed = Flushed(received: nat, enqueued: nat, spilled: nat, drained: nat)

  /** acct_dedup, the session tables, and the durable counter row. */
  datatype Db = Db(dedup: set<DedupKey>, tables: S.Tables, persisted: nat, deduplicated: nat, flushed: Flushed)

  datatype Counters = Counters(received: nat, enqueued: nat, spilled: nat, drained: nat,
                               persisted: nat, deduplicated: nat)

  const ZEROS := Counters(0, 0, 0, 0, 0, 0)

  datatype Mode = Backlog | Fresh

  /** Process memory. `batch` is what is left of the last read, `needAck` says its head
      is terminal but not yet acknowledged, `drain` is how far a drain has come. */
  datatype Mem = Mem(mode: Mode, batch: seq<Msg>, batchLen: nat, needAck: bool,
                     drain: Option<nat>, pending: nat, inflight: nat, counters: Counters)

  /** What happened so far; no step looks at it. */
  datatype History = History(
    arrivals: seq<Payload>,   // everything ever added to the stream, in order
    acked: seq<Payload>,      // everything answered 204
    exposed: set<Payload>,    // answered 204 after an append behind a harmful unfinished line
    log: seq<S.Op>,           // committed table operations, in commit order
    refused: nat,             // requests answered 503
    unreported: nat,          // stream additions whose reply was lost
    dropped: nat,             // undecodable entries acknowledged
    partial: nat,             // records pushed by drains that stopped part-way
    emptied: nat,             // records pushed by drains that emptied the log but could not sync it
    surplus: int)             // records pushed by finished drains beyond the pending count

  datatype State = State(redis: Redis, wal: File, db: Db, mem: Mem, hist: History)

  const READ_COUNT: nat := 128

  function Init(): State {
    State(Redis([], 0, 0, {}, 0, 0), File("", ""),
          Db({}, S.EMPTY, 0, 0, Flushed(0, 0, 0, 0)),
          Mem(Backlog, [], 0, false, None, 0, 0, ZEROS),
          History([], [], {}, [], 0, 0, 0, 0, 0, 0))
  }

  datatype Event =
    // ingest of one request
    | Receive(mirrored: bool)
    | EnqueueOk(p: Payload, mirrored: bool)   // XADD returned: answered 204
    | EnqueueLost(p: Payload)                 // XADD landed but failed for the caller, who goes on to spill
    | SpillOk(p: Payload)                     // appended and synced: answered 204
    | SpillUnsynced(p: Payload)               // written, but the sync failed: answered 503
    | SpillTorn(p: Payload, k: nat)           // only k characters written: answered 503
    | Refuse                                  // nothing written: answered 503
    // drainer
    | DrainStart
    | DrainPush
    | DrainPushLost                           // pushed, but the push reported an error
    | DrainStop                               // a push or the truncation failed
    | DrainUnsynced                           // truncated, but the seek or the sync after it failed
    | DrainFinish
    // consumer
    | Read
    | ReadLost                                // delivered by Redis, but the reply was lost
    | Commit
    | CommitLost                              // committed, but the commit reported an error
    | Duplicate(mirrored: bool)
    | DropCorrupt
    | ProcessFails
    | Ack
    // reaper, counter flusher, restart
    | MarkStale(key: S.Key)
    | Reap(key: S.Key)
    | Flush
    | Crash(loaded: bool)

  function KeyOf(r: S.Record): DedupKey {
    DedupKey(r.key.nas, r.key.session, r.kind, r.eventTime)
  }

  function Max(a: nat, b: nat): nat {
    if a > b then a else b
  }

  // ---- Redis ----

  function XAdd(s: State, p: Payload): State {
    var id := s.redis.lastId + 1;
    s.(redis := s.redis.(stream := s.redis.stream + [Msg(id, p)], lastId := id),
       hist := s.hist.(arrivals := s.hist.arrivals + [p]))
  }

  /** The entries of the stream with the given ids, oldest first. */
  function Only(stream: seq<Msg>, ids: set<nat>): seq<Msg> {
    if stream == [] then []
    else (if stream[0].id in ids then [stream[0]] else []) + Only(stream[1..], ids)
  }

  /** The entries not yet delivered to the group. */
  function After(stream: seq<Msg>, delivered: nat): seq<Msg> {
    if stream == [] then []
    else (if stream[0].id > delivered then [stream[0]] else []) + After(stream[1..], delivered)
  }

  function Take(ms: seq<Msg>): seq<Msg> {
    if |ms| <= READ_COUNT then ms else ms[..READ_COUNT]
  }

  function Ids(ms: seq<Msg>): set<nat> {
    set m | m in ms :: m.id
  }

  /** XREADGROUP from ">": the new entries move to the pending list. */
  function Deliver(r: Redis): Redis {
    var ms := Take(After(r.stream, r.delivered));
    if ms == [] then r else r.(delivered := ms[|ms| - 1].id, pel := r.pel + Ids(ms))
  }

  function Remove(stream: seq<Msg>, id: nat): seq<Msg> {
    if stream == [] then []
    else (if stream[0].id == id then [] else [stream[0]]) + Remove(stream[1..], id)
  }

  // ---- the consumer's memory ----

  function FailBatch(m: Mem): Mem {
    m.(mode := Backlog, batch := [], batchLen := 0, needAck := false)
  }

  function AfterAck(m: Mem): Mem
    requires m.batch != []
  {
    var rest := m.batch[1..];
    var mode := if rest == [] && m.mode == Backlog && m.batchLen < READ_COUNT then Fresh else m.mode;
    m.(batch := rest, needAck := false, mode := mode)
  }

  function CommitDb(db: Db, r: S.Record): Db {
    db.(dedup := db.dedup + {KeyOf(r)}, tables := S.Upsert(db.tables, r), persisted := db.persisted + 1)
  }

  function Restart(env: Env, s: State, loaded: bool): Mem {
    var f := s.db.flushed;
    var counters := if !loaded then ZEROS else
      Counters(Max(f.received, s.redis.received), Max(f.enqueued, s.redis.enqueued), f.spilled, f.drained,
               s.db.persisted, s.db.deduplicated);
    Mem(Backlog, [], 0, false, None, W.CountLines(Lines(s.wal.Text())), 0, counters)
  }

  // ---- guards ----

  function Head(env: Env, s: State): Option<S.Record>
    requires s.mem.batch != []
  {
    env.resolve(s.mem.batch[0].payload)
  }

  /** Ingest only ever serializes records it has parsed, so their payloads decode. */
  predicate Enabled(env: Env, s: State, e: Event) {
    var busy := s.mem.batch != [] && !s.mem.needAck;
    match e
    case EnqueueOk(p, _) => s.mem.inflight > 0 && env.resolve(p).Some?
    case EnqueueLost(p) => s.mem.inflight > 0 && env.resolve(p).Some?
    case SpillOk(p) => s.mem.inflight > 0 && env.resolve(p).Some? && s.mem.drain.None?
    case SpillUnsynced(p) => s.mem.inflight > 0 && env.resolve(p).Some? && s.mem.drain.None?
    case SpillTorn(p, k) => s.mem.inflight > 0 && env.resolve(p).Some? && s.mem.drain.None? && k <= |W.Line(env.crc, p)|
    case Refuse => s.mem.inflight > 0
    case DrainStart => s.mem.drain.None?
    case DrainPush => s.mem.drain.Some? && s.mem.drain.value < |Spilled(env, s)|
    case DrainPushLost => s.mem.drain.Some? && s.mem.drain.value < |Spilled(env, s)|
    case DrainStop => s.mem.drain.Some?
    case DrainUnsynced => s.mem.drain == Some(|Spilled(env, s)|)
    case DrainFinish => s.mem.drain == Some(|Spilled(env, s)|)
    case Read => s.mem.batch == []
    case ReadLost => s.mem.batch == []
    case Commit => busy && Head(env, s).Some? && KeyOf(Head(env, s).value) !in s.db.dedup
    case CommitLost => busy && Head(env, s).Some? && KeyOf(Head(env, s).value) !in s.db.dedup
    case Duplicate(_) => busy && Head(env, s).Some? && KeyOf(Head(env, s).value) in s.db.dedup
    case DropCorrupt => busy && Head(env, s).None?
    case ProcessFails => busy
    case Ack => s.mem.batch != [] && s.mem.needAck
    case _ => true
  }

  /** What a drain of the spill log would push. */
  function Spilled(env: Env, s: State): seq<Payload> {
    W.Payloads(env.crc, s.wal.Text())
  }

  // ---- steps ----

  function Leave(m: Mem): Mem
    requires m.inflight > 0
  {
    m.(inflight := m.inflight - 1)
  }

  function IngestStep(env: Env, s: State, e: Event): State
    requires Enabled(env, s, e)
  {
    var c := s.mem.counters;
    match e
    case Receive(mirrored) =>
      s.(mem := s.mem.(inflight := s.mem.inflight + 1, counters := c.(received := c.received + 1)),
         redis := if mirrored then s.redis.(received := s.redis.received + 1) else s.redis)
    case EnqueueOk(p, mirrored) =>
      var t := XAdd(s, p);
      t.(mem := Leave(s.mem).(counters := c.(enqueued := c.enqueued + 1)),
         redis := if mirrored then t.redis.(enqueued := t.redis.enqueued + 1) else t.redis,
         hist := t.hist.(acked := s.hist.acked + [p]))
    case EnqueueLost(p) =>
      var t := XAdd(s, p);
      t.(hist := t.hist.(unreported := t.hist.unreported + 1))
    case SpillOk(p) =>
      s.(wal := s.wal.Append(W.Line(env.crc, p)),
         mem := Leave(s.mem).(pending := s.mem.pending + 1, counters := c.(spilled := c.spilled + 1)),
         hist := s.hist.(acked := s.hist.acked + [p],
                         exposed := if Decimal.AllZeros(s.wal.tail) then s.hist.exposed else s.hist.exposed + {p}))
    case SpillUnsynced(p) =>
      s.(wal := s.wal.Append(W.Line(env.crc, p)), mem := Leave(s.mem), hist := s.hist.(refused := s.hist.refused + 1))
    case SpillTorn(p, k) =>
      s.(wal := s.wal.Torn(W.Line(env.crc, p)[..k]), mem := Leave(s.mem), hist := s.hist.(refused := s.hist.refused + 1))
    case Refuse => s.(mem := Leave(s.mem), hist := s.hist.(refused := s.hist.refused + 1))
    case _ => s
  }

  function DrainStep(env: Env, s: State, e: Event): State
    requires Enabled(env, s, e)
  {
    var c := s.mem.counters;
    match e
    case DrainStart => s.(mem := s.mem.(drain := Some(0)))
    case DrainPush =>
      var i := s.mem.drain.value;
      XAdd(s, Spilled(env, s)[i]).(mem := s.mem.(drain := Some(i + 1), counters := c.(drained := c.drained + 1)))
    case DrainPushLost =>
      var i := s.mem.drain.value;
      var t := XAdd(s, Spilled(env, s)[i]);
      t.(mem := s.mem.(drain := None),
         hist := t.hist.(unreported := t.hist.unreported + 1, partial := t.hist.partial + i))
    case DrainStop =>
      s.(mem := s.mem.(drain := None), hist := s.hist.(partial := s.hist.partial + s.mem.drain.value))
    case DrainUnsynced =>
      s.(wal := File("", ""), mem := s.mem.(drain := None),
         hist := s.hist.(emptied := s.hist.emptied + s.mem.drain.value))
    case DrainFinish =>
      s.(wal := File("", ""), mem := s.mem.(drain := None, pending := 0),
         hist := s.hist.(surplus := s.hist.surplus + (s.mem.drain.value - s.mem.pending)))
    case _ => s
  }

  function ReadStep(s: State): State {
    match s.mem.mode
    case Backlog =>
      var ms := Take(Only(s.redis.stream, s.redis.pel));
      if ms == [] then s.(mem := s.mem.(mode := Fresh))
      else s.(mem := s.mem.(batch := ms, batchLen := |ms|))
    case Fresh =>
      var ms := Take(After(s.redis.stream, s.redis.delivered));
      s.(redis := Deliver(s.redis), mem := s.mem.(batch := ms, batchLen := |ms|))
  }

  function ConsumerStep(env: Env, s: State, e: Event): State
    requires Enabled(env, s, e)
  {
    var c := s.mem.counters;
    match e
    case Read => ReadStep(s)
    case ReadLost => if s.mem.mode == Fresh then s.(redis := Deliver(s.redis)) else s
    case Commit =>
      var r := Head(env, s).value;
      s.(db := CommitDb(s.db, r), mem := s.mem.(needAck := true, counters := c.(persisted := c.persisted + 1)),
         hist := s.hist.(log := s.hist.log + [S.Apply(r)]))
    case CommitLost =>
      var r := Head(env, s).value;
      s.(db := CommitDb(s.db, r), mem := FailBatch(s.mem), hist := s.hist.(log := s.hist.log + [S.Apply(r)]))
    case Duplicate(mirrored) =>
      s.(db := if mirrored then s.db.(deduplicated := s.db.deduplicated + 1) else s.db,
         mem := s.mem.(needAck := true, counters := c.(deduplicated := c.deduplicated + 1)))
    case DropCorrupt => s.(mem := s.mem.(needAck := true), hist := s.hist.(dropped := s.hist.dropped + 1))
    case ProcessFails => s.(mem := FailBatch(s.mem))
    case Ack =>
      var id := s.mem.batch[0].id;
      s.(redis := s.redis.(stream := Remove(s.redis.stream, id), pel := s.redis.pel - {id}), mem := AfterAck(s.mem))
    case _ => s
  }

  function TableStep(s: State, op: S.Op): State {
    s.(db := s.db.(tables := S.ApplyOp(s.db.tables, op)), hist := s.hist.(log := s.hist.log + [op]))
  }

  function Step(env: Env, s: State, e: Event): State {
    if !Enabled(env, s, e) then s
    else
      match e
      case Receive(_) => IngestStep(env, s, e)
      case EnqueueOk(_, _) => IngestStep(env, s, e)
      case EnqueueLost(_) => IngestStep(env, s, e)
      case SpillOk(_) => IngestStep(env, s, e)
      case SpillUnsynced(_) => IngestStep(env, s, e)
      case SpillTorn(_, _) => IngestStep(env, s, e)
      case Refuse => IngestStep(env, s, e)
      case DrainStart => DrainStep(env, s, e)
      case DrainPush => DrainStep(env, s, e)
      case DrainPushLost => DrainStep(env, s, e)
      case DrainStop => DrainStep(env, s, e)
      case DrainUnsynced => DrainStep(env, s, e)
      case DrainFinish => DrainStep(env, s, e)
      case MarkStale(k) => TableStep(s, S.Stale(k))
      case Reap(k) => TableStep(s, S.Reap(k))
      case Flush =>
        var c := s.mem.counters;
        s.(db := s.db.(flushed := Flushed(c.received, c.enqueued, c.spilled, c.drained)))
      case Crash(loaded) => s.(mem := Restart(env, s, loaded))
      case _ => ConsumerStep(env, s, e)
  }

  function ExecFrom(env: Env, s: State, evs: seq<Event>): State {
    if evs == [] then s else Step(env, ExecFrom(env, s, evs[..|evs| - 1]), evs[|evs| - 1])
  }

  /** The state after a run from the first start. */
  function Exec(env: Env, evs: seq<Event>): State {
    ExecFrom(env, Init(), evs)
  }
}

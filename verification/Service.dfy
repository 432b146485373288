/** The process itself: the ingest handler and the consumer loop as they run, one call at a
    time (backend/internal/accounting/ingest.go, consumer.go). Each method is a run of the step
    machine, so everything proved about runs holds of it. Faults are arguments.
 */
module Service {
  import opened Wrappers
  import opened LogText
  import Decimal
  import W = SpillCodec
  import S = Sessions
  import opened Pipeline
  import opened PipelineSafety
  import opened SpillFile

  datatype XAddOutcome = Returned | Landed | Failed

  /** How the database behaves while one message is processed. */
  datatype DbOutcome = Works | Down | ReplyLost

  function SpillEvent(p: Payload, write: WriteOutcome): Event {
    match write
    case Synced => SpillOk(p)
    case Unsynced => SpillUnsynced(p)
    case Torn(k) => SpillTorn(p, k)
    case Untouched => Refuse
  }

  /** What one request does, in order. */
  function IngestEvents(p: Payload, xadd: XAddOutcome, write: WriteOutcome): seq<Event> {
    match xadd
    case Returned => [Receive(true), EnqueueOk(p, true)]
    case Landed => [Receive(false), EnqueueLost(p), SpillEvent(p, write)]
    case Failed => [Receive(false), SpillEvent(p, write)]
  }

  /** What processing the head of the batch does. */
  function ProcessEvent(env: Env, s: State, outcome: DbOutcome): Event
    requires s.mem.batch != []
  {
    match Head(env, s)
    case None => DropCorrupt
    case Some(r) =>
      if outcome == Down then ProcessFails
      else if KeyOf(r) in s.db.dedup then Duplicate(true)
      else if outcome == ReplyLost then CommitLost
      else Commit
  }

  /** What handling one message does: process it, and acknowledge it if it is terminal. */
  function MessageEvents(env: Env, s: State, outcome: DbOutcome): seq<Event>
    requires s.mem.batch != []
  {
    var e := ProcessEvent(env, s, outcome);
    if Step(env, s, e).mem.needAck then [e, Ack] else [e]
  }

  /** What a batch does, message by message from the k-th outcome on, up to the first failure. */
  function BatchEvents(env: Env, s: State, outcomes: seq<DbOutcome>, k: nat): seq<Event>
    requires k <= |outcomes|
    decreases |outcomes| - k
  {
    if s.mem.batch == [] || k == |outcomes| then []
    else
      var evs := MessageEvents(env, s, outcomes[k]);
      evs + (if |evs| == 2 then BatchEvents(env, ExecFrom(env, s, evs), outcomes, k + 1) else [])
  }

  class Process {
    const env: Env
    var redis: Redis
    var wal: File
    var db: Db
    var mem: Mem
    ghost var hist: History

    ghost function View(): State
      reads this
    {
      State(redis, wal, db, mem, hist)
    }

    constructor (env: Env)
      ensures this.env == env && View() == Init()
    {
      this.env := env;
      var s := Init();
      this.redis, this.wal, this.db, this.mem, this.hist := s.redis, s.wal, s.db, s.mem, s.hist;
    }

    /** One atomic operation of the machine, applied to the fields. */
    method Do(e: Event)
      modifies this
      ensures View() == Step(env, old(View()), e)
    {
      var t := Step(env, State(redis, wal, db, mem, Init().hist), e);
      ghost var u := Step(env, View(), e);
      HistoryIsGhost(env, View(), e);
      redis, wal, db, mem := t.redis, t.wal, t.db, t.mem;
      hist := u.hist;
    }

    /** ingestHandler and durablyEnqueue: the stream first, the spill log when that fails; 204 only
        after one of them has the record. The drainer holds the log's mutex only between our turns. */
    method Ingest(p: Payload, xadd: XAddOutcome, write: WriteOutcome) returns (status: nat)
      requires env.resolve(p).Some? && (xadd.Returned? || mem.drain.None?)
      requires write.Torn? ==> write.k <= |W.Line(env.crc, p)|
      modifies this
      ensures View() == ExecFrom(env, old(View()), IngestEvents(p, xadd, write))
      ensures status == 204 || status == 503
      ensures status == 204 <==> xadd.Returned? || write.Synced?
      ensures status == 204 ==> View().hist.acked == old(View()).hist.acked + [p]
      ensures status == 503 ==> View().hist.acked == old(View()).hist.acked
    {
      hide W.Line, W.Payloads;
      Do(Receive(xadd.Returned?));
      match xadd {
        case Returned =>
          Do(EnqueueOk(p, true));
          ExecTwo(env, old(View()), Receive(true), EnqueueOk(p, true));
          return 204;
        case Landed =>
          Do(EnqueueLost(p));
          Do(SpillEvent(p, write));
          ExecThree(env, old(View()), Receive(false), EnqueueLost(p), SpillEvent(p, write));
        case Failed =>
          Do(SpillEvent(p, write));
          ExecTwo(env, old(View()), Receive(false), SpillEvent(p, write));
      }
      status := if write.Synced? then 204 else 503;
    }

    /** processMessage on the head of the batch: ack says it is terminal, err that it must be retried. */
    method ProcessMessage(outcome: DbOutcome) returns (ack: bool, err: bool)
      requires mem.batch != [] && !mem.needAck
      modifies this
      ensures View() == Step(env, old(View()), ProcessEvent(env, old(View()), outcome))
      ensures ack == !err == mem.needAck
      ensures ack ==> Done(env, View(), old(mem.batch)[0].payload) && mem.batch == old(mem.batch)
      ensures err ==> mem == FailBatch(old(mem))
    {
      hide S.Upsert, W.Line, W.Payloads, KeyOf;
      match env.resolve(mem.batch[0].payload) {
        case None =>
          Do(DropCorrupt);
          return true, false;
        case Some(r) =>
          if outcome == Down {
            Do(ProcessFails);
            return false, true;
          }
          if KeyOf(r) in db.dedup {
            Do(Duplicate(true));
            return true, false;
          }
          if outcome == ReplyLost {
            Do(CommitLost);
            return false, true;
          }
          Do(Commit);
          return true, false;
      }
    }

    /** One message: process it, and acknowledge it if it is terminal. */
    method HandleMessage(outcome: DbOutcome) returns (ghost evs: seq<Event>, err: bool)
      requires mem.batch != [] && !mem.needAck
      modifies this
      ensures View() == ExecFrom(env, old(View()), evs)
      ensures evs == MessageEvents(env, old(View()), outcome) && |evs| == (if err then 1 else 2)
      ensures !mem.needAck && mem.batchLen == (if err then 0 else old(mem.batchLen))
      ensures err ==> mem.batch == [] && mem.mode == Backlog
      ensures !err ==> mem.batch == old(mem.batch)[1..]
      ensures !err ==> mem.mode == if mem.batch == [] && old(mem.mode) == Backlog && mem.batchLen < READ_COUNT
                                   then Fresh else old(mem.mode)
    {
      ghost var s := View();
      ProcessMem(env, s, outcome);
      var ack;
      ack, err := ProcessMessage(outcome);
      hide Step, ExecFrom, ProcessEvent, AfterAck, Done, KeyOf, Head;
      if err {
        evs := [ProcessEvent(env, s, outcome)];
        ExecOne(env, s, ProcessEvent(env, s, outcome));
        FailBatchMem(s.mem);
      } else {
        AckDoes(env, View());
        Do(Ack);
        evs := [ProcessEvent(env, s, outcome), Ack];
        ExecTwo(env, s, ProcessEvent(env, s, outcome), Ack);
      }
    }

    /** One turn of runConsumer's loop: read, process and acknowledge message by message, stop at the
        first failure and go back to the pending list. `outcomes` says how the database behaves. */
    method ConsumeOnce(readOk: bool, outcomes: seq<DbOutcome>) returns (ghost trace: seq<Event>, acked: nat, failed: bool)
      requires mem.batch == [] && !mem.needAck
      requires |outcomes| >= READ_COUNT
      modifies this
      ensures View() == ExecFrom(env, old(View()), trace)
      ensures mem.batch == [] && !mem.needAck
      ensures !readOk ==> trace == [ReadLost] && mem == old(mem)
      ensures readOk ==>
                var got := Step(env, old(View()), Read).mem.batch;
                && trace == [Read] + BatchEvents(env, Step(env, old(View()), Read), outcomes, 0)
                && acked <= |got|
                && (failed ==> mem.mode == Backlog)
                && (!failed ==> acked == |got| && mem.mode == ModeAfter(old(mem.mode), |got|))
    {
      hide Step, ExecFrom, BatchEvents, MessageEvents;
      ghost var before := View();
      acked, failed := 0, false;
      ReadGives(env, before);
      if !readOk {
        Do(ReadLost);
        trace := [ReadLost];
        ExecOne(env, before, ReadLost);
        return;
      }
      Do(Read);
      trace := [Read];
      ExecOne(env, before, Read);
      var got, mode := mem.batch, mem.mode;
      ghost var all := BatchEvents(env, View(), outcomes, 0);
      ghost var rest := all;
      assert trace + rest == [Read] + all;
      while acked < |got| && !failed
        invariant acked <= |got|
        invariant View() == ExecFrom(env, before, trace)
        invariant trace + rest == [Read] + all
        invariant rest == if failed then [] else BatchEvents(env, View(), outcomes, acked)
        invariant !mem.needAck
        invariant failed ==> mem.batch == [] && mem.mode == Backlog
        invariant !failed ==> mem.batch == got[acked..] && (got != [] ==> mem.batchLen == |got|)
        invariant !failed ==> mem.mode == if acked == |got| && got != [] && mode == Backlog && |got| < READ_COUNT
                                          then Fresh else mode
        decreases |got| - acked, !failed
      {
        ghost var evs;
        ghost var s := View();
        evs, failed := HandleMessage(outcomes[acked]);
        ExecConcat(env, before, trace, evs);
        BatchUnfolds(env, s, outcomes, acked);
        ghost var after := if failed then [] else BatchEvents(env, View(), outcomes, acked + 1);
        assert trace + (evs + after) == (trace + evs) + after;
        rest := after;
        trace := trace + evs;
        if !failed {
          acked := acked + 1;
        }
      }
      BatchEnds(env, View(), outcomes, acked);
    }
  }

  lemma BatchUnfolds(env: Env, s: State, outcomes: seq<DbOutcome>, k: nat)
    requires k < |outcomes| && s.mem.batch != []
    ensures var evs := MessageEvents(env, s, outcomes[k]);
            BatchEvents(env, s, outcomes, k) == evs + (if |evs| == 2 then BatchEvents(env, ExecFrom(env, s, evs), outcomes, k + 1) else [])
  {
    hide MessageEvents, ExecFrom;
  }

  lemma BatchEnds(env: Env, s: State, outcomes: seq<DbOutcome>, k: nat)
    requires k <= |outcomes| && s.mem.batch == []
    ensures BatchEvents(env, s, outcomes, k) == []
  {
  }

  /** The mode after a batch of n messages has been acknowledged as a whole. */
  function ModeAfter(mode: Mode, n: nat): Mode {
    if mode == Backlog && n >= READ_COUNT then Backlog else Fresh
  }

  lemma AckDoes(env: Env, s: State)
    requires s.mem.batch != [] && s.mem.needAck
    ensures var m := Step(env, s, Ack).mem;
            && m.batch == s.mem.batch[1..] && !m.needAck && m.batchLen == s.mem.batchLen
            && m.mode == if m.batch == [] && s.mem.mode == Backlog && m.batchLen < READ_COUNT then Fresh else s.mem.mode
  {
  }

  lemma ProcessMem(env: Env, s: State, outcome: DbOutcome)
    requires s.mem.batch != [] && !s.mem.needAck
    ensures var m := Step(env, s, ProcessEvent(env, s, outcome)).mem;
            m.needAck ==> m.batch == s.mem.batch && m.mode == s.mem.mode && m.batchLen == s.mem.batchLen
  {
    hide S.Upsert, W.Line, W.Payloads, KeyOf;
  }

  lemma FailBatchMem(m: Mem)
    ensures var f := FailBatch(m); f.batch == [] && f.mode == Backlog && !f.needAck && f.batchLen == 0
  {
  }

  lemma {:induction false} ExecConcat(env: Env, s: State, a: seq<Event>, b: seq<Event>)
    ensures ExecFrom(env, s, a + b) == ExecFrom(env, ExecFrom(env, s, a), b)
    decreases |b|
  {
    if b == [] {
      assert a + b == a;
    } else {
      assert (a + b)[..|a + b| - 1] == a + b[..|b| - 1];
      ExecConcat(env, s, a, b[..|b| - 1]);
    }
  }

  lemma ReadGives(env: Env, s: State)
    requires s.mem.batch == [] && !s.mem.needAck
    ensures var m := Step(env, s, Read).mem;
            && |m.batch| <= READ_COUNT && !m.needAck && m.batchLen == (if m.batch == [] && s.mem.mode == Backlog then s.mem.batchLen else |m.batch|)
            && (m.batch != [] ==> m.mode == s.mem.mode)
            && (m.batch == [] ==> m.mode == Fresh)
    ensures Step(env, s, ReadLost).mem == s.mem
  {
    hide Only, After, Deliver;
  }

  ghost predicate SameButHistory(t: State, u: State) {
    t.redis == u.redis && t.wal == u.wal && t.db == u.db && t.mem == u.mem
  }

  lemma GuardsSkipHistory(env: Env, s: State, h: History, e: Event)
    ensures Enabled(env, s.(hist := h), e) == Enabled(env, s, e)
  {
    hide W.Line, W.Payloads, KeyOf;
  }

  lemma IngestSkipsHistory(env: Env, s: State, h: History, e: Event)
    requires Enabled(env, s, e) && Enabled(env, s.(hist := h), e)
    ensures SameButHistory(IngestStep(env, s.(hist := h), e), IngestStep(env, s, e))
  {
    hide W.Line, W.Payloads, Decimal.AllZeros;
  }

  lemma DrainSkipsHistory(env: Env, s: State, h: History, e: Event)
    requires Enabled(env, s, e) && Enabled(env, s.(hist := h), e)
    ensures SameButHistory(DrainStep(env, s.(hist := h), e), DrainStep(env, s, e))
  {
    hide W.Line, W.Payloads;
  }

  lemma ConsumerSkipsHistory(env: Env, s: State, h: History, e: Event)
    requires Enabled(env, s, e) && Enabled(env, s.(hist := h), e)
    ensures SameButHistory(ConsumerStep(env, s.(hist := h), e), ConsumerStep(env, s, e))
  {
    hide S.Upsert, KeyOf, Only, After, Remove, Take, Deliver;
  }

  lemma RestartSkipsHistory(env: Env, s: State, h: History, loaded: bool)
    ensures Restart(env, s.(hist := h), loaded) == Restart(env, s, loaded)
  {
    hide W.CountLines, Lines;
  }

  lemma HistoryIsGhost(env: Env, s: State, e: Event)
    ensures var (t, u) := (Step(env, s.(hist := Init().hist), e), Step(env, s, e));
            t.redis == u.redis && t.wal == u.wal && t.db == u.db && t.mem == u.mem
  {
    hide Enabled, IngestStep, DrainStep, ConsumerStep, Restart, S.ApplyOp, Init;
    var h := Init().hist;
    GuardsSkipHistory(env, s, h, e);
    if Enabled(env, s, e) {
      IngestSkipsHistory(env, s, h, e);
      DrainSkipsHistory(env, s, h, e);
      ConsumerSkipsHistory(env, s, h, e);
      if e.Crash? {
        RestartSkipsHistory(env, s, h, e.loaded);
      }
    }
  }

  lemma ExecOne(env: Env, s: State, a: Event)
    ensures ExecFrom(env, s, [a]) == Step(env, s, a)
  {
    hide Step;
    assert [a][..0] == [];
  }

  lemma ExecTwo(env: Env, s: State, a: Event, b: Event)
    ensures ExecFrom(env, s, [a, b]) == Step(env, Step(env, s, a), b)
  {
    hide Step;
    ExecOne(env, s, a);
    assert [a, b][..1] == [a];
  }

  lemma ExecThree(env: Env, s: State, a: Event, b: Event, c: Event)
    ensures ExecFrom(env, s, [a, b, c]) == Step(env, Step(env, Step(env, s, a), b), c)
  {
    hide Step;
    ExecTwo(env, s, a, b);
    assert [a, b, c][..2] == [a, b];
  }
}

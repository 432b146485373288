/** Order and progress of the single consumer: as long as no reply to a stream read is lost,
    the database is always what one perfect pass over the arrivals would have left.
 */
module PipelineOrder {
  import opened Wrappers
  import W = SpillCodec
  import S = Sessions
  import opened Pipeline
  import opened PipelineSafety

  // ---- the reference: one pass, in order, first occurrences only ----

  function FirstSeen(env: Env, ps: seq<Payload>): seq<S.Record> {
    if ps == [] then []
    else
      var before := FirstSeen(env, ps[..|ps| - 1]);
      match env.resolve(ps[|ps| - 1])
      case None => before
      case Some(r) => if exists b | b in before :: KeyOf(b) == KeyOf(r) then before else before + [r]
  }

  // ---- the invariant ----

  /** How many arrivals have left the stream. */
  function Gone(s: State): int {
    |s.hist.arrivals| - |s.redis.stream|
  }

  /** The stream is what is left of the arrivals, and the delivered part is a prefix of it. */
  ghost predicate SuffixInv(s: State) {
    var g := Gone(s);
    && 0 <= g <= s.redis.delivered <= |s.hist.arrivals| == s.redis.lastId
    && forall i | 0 <= i < |s.redis.stream| :: s.redis.stream[i] == Msg(g + i + 1, s.hist.arrivals[g + i])
  }

  function Undone(s: State): int {
    s.redis.delivered - Gone(s)
  }

  ghost predicate ReaderInv(s: State) {
    var b := s.mem.batch;
    && b <= s.redis.stream && |b| <= Undone(s)
    && (s.mem.mode == Fresh ==> |b| == Undone(s))
    && (s.mem.mode == Backlog && b != [] && s.mem.batchLen < READ_COUNT ==> |b| == Undone(s))
  }

  /** The committed records are the first occurrences among the arrivals gone so far,
      possibly with the head of the stream already committed. */
  ghost predicate PassInv(env: Env, s: State)
    requires SuffixInv(s)
  {
    var g, commits := Gone(s), Commits(s.hist.log);
    || (commits == FirstSeen(env, s.hist.arrivals[..g]) && !s.mem.needAck)
    || (s.redis.stream != [] && commits == FirstSeen(env, s.hist.arrivals[..g + 1]))
  }

  ghost predicate OrderInv(env: Env, s: State) {
    Inv(env, s) && SuffixInv(s) && ReaderInv(s) && PassInv(env, s)
  }

  // ---- lemmas about a contiguous stream ----

  ghost predicate Contiguous(stream: seq<Msg>, g: nat) {
    forall i | 0 <= i < |stream| :: stream[i].id == g + i + 1
  }

  lemma {:induction false} OnlyPrefix(stream: seq<Msg>, g: nat, ids: set<nat>, d: nat)
    requires Contiguous(stream, g) && d <= |stream|
    requires forall m | m in stream :: m.id in ids <==> m.id <= g + d
    ensures Only(stream, ids) == stream[..d]
  {
    if stream != [] {
      assert stream[0] in stream;
      OnlyPrefix(stream[1..], g + 1, ids, if d == 0 then 0 else d - 1);
    }
  }

  lemma {:induction false} AfterAll(stream: seq<Msg>, g: nat, delivered: nat)
    requires Contiguous(stream, g) && delivered <= g
    ensures After(stream, delivered) == stream
  {
    if stream != [] {
      AfterAll(stream[1..], g + 1, delivered);
    }
  }

  lemma {:induction false} RemoveOther(stream: seq<Msg>, g: nat, id: nat)
    requires Contiguous(stream, g) && id <= g
    ensures Remove(stream, id) == stream
  {
    if stream != [] {
      RemoveOther(stream[1..], g + 1, id);
    }
  }

  lemma RemoveFirst(stream: seq<Msg>, g: nat)
    requires Contiguous(stream, g) && stream != []
    ensures Remove(stream, stream[0].id) == stream[1..]
  {
    RemoveOther(stream[1..], g + 1, stream[0].id);
  }

  // ---- steps ----

  lemma XAddOrder(env: Env, s: State, p: Payload)
    requires OrderInv(env, s)
    ensures var t := XAdd(s, p);
            SuffixInv(t) && ReaderInv(t) && PassInv(env, t)
  {
    var t := XAdd(s, p);
    var g := Gone(s);
    assert Gone(t) == g;
    assert t.hist.arrivals[..g] == s.hist.arrivals[..g];
    if s.redis.stream != [] {
      assert t.hist.arrivals[..g + 1] == s.hist.arrivals[..g + 1];
    }
  }

  lemma PushOrder(env: Env, s: State, e: Event)
    requires OrderInv(env, s) && Enabled(env, s, e)
    requires e.EnqueueOk? || e.EnqueueLost? || e.DrainPush? || e.DrainPushLost?
    ensures var t := Step(env, s, e); SuffixInv(t) && ReaderInv(t) && PassInv(env, t)
  {
    hide W.Payloads, W.Line, Restart, Inv, FirstSeen, Commits;
    var p := if e.EnqueueOk? || e.EnqueueLost? then e.p else Spilled(env, s)[s.mem.drain.value];
    XAddOrder(env, s, p);
    var t, x := Step(env, s, e), XAdd(s, p);
    assert t.redis.stream == x.redis.stream && t.hist.arrivals == x.hist.arrivals && t.hist.log == x.hist.log;
    assert t.redis.delivered == x.redis.delivered && t.redis.lastId == x.redis.lastId;
    assert t.mem.batch == x.mem.batch && t.mem.mode == x.mem.mode && t.mem.needAck == x.mem.needAck
           && t.mem.batchLen == x.mem.batchLen;
  }

  lemma UndoneIsPending(env: Env, s: State)
    requires OrderInv(env, s)
    ensures Only(s.redis.stream, s.redis.pel) == s.redis.stream[..Undone(s)]
  {
    hide Only, FirstSeen, Commits, PassInv;
    OnlyPrefix(s.redis.stream, Gone(s), s.redis.pel, Undone(s));
  }

  lemma BacklogReadEffect(env: Env, s: State)
    requires Enabled(env, s, Read) && s.mem.mode == Backlog
    ensures var (t, ms) := (Step(env, s, Read), Take(Only(s.redis.stream, s.redis.pel)));
            && t.redis == s.redis && t.hist == s.hist && t.mem.needAck == s.mem.needAck
            && t.mem.batch == ms && t.mem.mode == (if ms == [] then Fresh else Backlog)
            && (ms != [] ==> t.mem.batchLen == |ms|)
  {
    hide Only, Take;
  }

  lemma ReadBacklogOrder(env: Env, s: State)
    requires OrderInv(env, s) && Enabled(env, s, Read) && s.mem.mode == Backlog
    ensures var t := Step(env, s, Read); SuffixInv(t) && ReaderInv(t) && PassInv(env, t)
  {
    UndoneIsPending(env, s);
    BacklogReadEffect(env, s);
    hide Step, Enabled, FirstSeen, Commits, Only, Inv, PassInv, SuffixInv, ReaderInv;
    BacklogReader(s, Step(env, s, Read));
    PassStays(env, s, Step(env, s, Read));
  }

  lemma BacklogReader(s: State, t: State)
    requires SuffixInv(s) && ReaderInv(s) && t.redis == s.redis && t.hist == s.hist
    requires var ms := Take(s.redis.stream[..Undone(s)]);
             && t.mem.batch == ms && t.mem.mode == (if ms == [] then Fresh else Backlog)
             && (ms != [] ==> t.mem.batchLen == |ms|)
    ensures SuffixInv(t) && ReaderInv(t)
  {
  }


  lemma ReadFreshOrder(env: Env, s: State)
    requires OrderInv(env, s) && Enabled(env, s, Read) && s.mem.mode == Fresh
    ensures var t := Step(env, s, Read); SuffixInv(t) && ReaderInv(t) && PassInv(env, t)
  {
    hide FirstSeen, Commits, W.Line, W.Payloads, After, Inv;
    AfterAll(s.redis.stream, Gone(s), s.redis.delivered);
  }

  /** The head of the stream, once done, is accounted for by the pass. */
  lemma HeadDone(env: Env, s: State)
    requires OrderInv(env, s) && s.mem.batch != []
    requires Done(env, s, s.mem.batch[0].payload)
    ensures Commits(s.hist.log) == FirstSeen(env, s.hist.arrivals[..Gone(s) + 1])
  {
    var g := Gone(s);
    var p := s.mem.batch[0].payload;
    assert s.mem.batch[0] == s.redis.stream[0];
    var upto := s.hist.arrivals[..g + 1];
    assert upto[..g] == s.hist.arrivals[..g] && upto[g] == p;
    if Commits(s.hist.log) == FirstSeen(env, s.hist.arrivals[..g]) && env.resolve(p).Some? {
      assert KeyOf(env.resolve(p).value) in KeySet(Commits(s.hist.log));
    }
  }

  /** A head whose key is not committed has not been passed over yet. */
  lemma NotYetPassed(env: Env, s: State)
    requires OrderInv(env, s) && s.mem.batch != [] && Head(env, s).Some?
    requires KeyOf(Head(env, s).value) !in s.db.dedup
    ensures var (upto, commits) := (s.hist.arrivals[..Gone(s)], Commits(s.hist.log));
            && commits == FirstSeen(env, upto)
            && FirstSeen(env, s.hist.arrivals[..Gone(s) + 1]) == commits + [Head(env, s).value]
  {
    var g := Gone(s);
    var upto := s.hist.arrivals[..g + 1];
    assert upto[..g] == s.hist.arrivals[..g] && upto[g] == s.redis.stream[0].payload;
    assert s.mem.batch[0] == s.redis.stream[0];
    assert forall b | b in Commits(s.hist.log) :: KeyOf(b) in KeySet(Commits(s.hist.log));
  }

  lemma CommitEffect(env: Env, s: State, e: Event)
    requires Enabled(env, s, e) && (e.Commit? || e.CommitLost?)
    ensures var t := Step(env, s, e);
            && t.redis == s.redis && t.hist.arrivals == s.hist.arrivals
            && s.mem.batch != [] && Head(env, s).Some? && KeyOf(Head(env, s).value) !in s.db.dedup
            && t.hist.log == s.hist.log + [S.Apply(Head(env, s).value)]
            && (|| (t.mem.batch == s.mem.batch && t.mem.mode == s.mem.mode && t.mem.batchLen == s.mem.batchLen)
                || t.mem == FailBatch(s.mem))
  {
    hide S.Upsert, KeyOf;
  }

  /** Committing the head of the stream extends the pass by one arrival. */
  lemma CommitOrder(env: Env, s: State, e: Event)
    requires OrderInv(env, s) && Enabled(env, s, e)
    requires e.Commit? || e.CommitLost?
    ensures var t := Step(env, s, e); SuffixInv(t) && ReaderInv(t) && PassInv(env, t)
  {
    CommitEffect(env, s, e);
    NotYetPassed(env, s);
    CommitsOfApply(s.hist.log, Head(env, s).value);
    hide *;
    ReaderAfterCommit(env, s, Step(env, s, e));
    PassWithHead(env, Step(env, s, e));
  }

  lemma ReaderAfterCommit(env: Env, s: State, t: State)
    requires OrderInv(env, s) && s.mem.batch != []
    requires t.redis == s.redis && t.hist.arrivals == s.hist.arrivals
    requires || (t.mem.batch == s.mem.batch && t.mem.mode == s.mem.mode && t.mem.batchLen == s.mem.batchLen)
             || t.mem == FailBatch(s.mem)
    ensures SuffixInv(t) && ReaderInv(t) && t.redis.stream != [] && Gone(t) == Gone(s)
  {
    hide Inv, PassInv;
  }

  lemma PassWithHead(env: Env, t: State)
    requires SuffixInv(t) && t.redis.stream != []
    requires Commits(t.hist.log) == FirstSeen(env, t.hist.arrivals[..Gone(t) + 1])
    ensures PassInv(env, t)
  {
  }

  lemma CommitsOfApply(log: seq<S.Op>, r: S.Record)
    ensures Commits(log + [S.Apply(r)]) == Commits(log) + [r]
  {
    assert (log + [S.Apply(r)])[..|log|] == log;
  }

  lemma DoneEffect(env: Env, s: State, e: Event)
    requires Enabled(env, s, e) && (e.Duplicate? || e.DropCorrupt? || e.ProcessFails?)
    ensures var t := Step(env, s, e);
            && t.redis == s.redis && t.hist.arrivals == s.hist.arrivals && t.hist.log == s.hist.log
            && s.mem.batch != []
            && (e.ProcessFails? ==> t.mem == FailBatch(s.mem))
            && (!e.ProcessFails? ==> Done(env, s, s.mem.batch[0].payload))
            && (!e.ProcessFails? ==> t.mem.batch == s.mem.batch && t.mem.mode == s.mem.mode && t.mem.batchLen == s.mem.batchLen)
  {
    hide KeyOf;
  }

  lemma DoneOrder(env: Env, s: State, e: Event)
    requires OrderInv(env, s) && Enabled(env, s, e)
    requires e.Duplicate? || e.DropCorrupt? || e.ProcessFails?
    ensures var t := Step(env, s, e); SuffixInv(t) && ReaderInv(t) && PassInv(env, t)
  {
    hide Step, Enabled, Inv, FirstSeen, Commits, Done, ReaderInv, SuffixInv, PassInv;
    var t := Step(env, s, e);
    DoneEffect(env, s, e);
    ReaderAfterCommit(env, s, t);
    if e.ProcessFails? {
      PassStays(env, s, t);
    } else {
      HeadDone(env, s);
      PassWithHead(env, t);
    }
  }

  lemma PassStays(env: Env, s: State, t: State)
    requires SuffixInv(s) && PassInv(env, s) && SuffixInv(t)
    requires t.redis.stream == s.redis.stream && t.hist.arrivals == s.hist.arrivals && t.hist.log == s.hist.log
    requires t.mem.needAck ==> s.mem.needAck
    ensures PassInv(env, t)
  {
    hide FirstSeen, Commits;
  }

  lemma AckEffect(env: Env, s: State)
    requires Enabled(env, s, Ack)
    ensures var t := Step(env, s, Ack);
            && t.redis.stream == Remove(s.redis.stream, s.mem.batch[0].id)
            && t.redis.delivered == s.redis.delivered && t.redis.lastId == s.redis.lastId
            && t.hist == s.hist && t.mem == AfterAck(s.mem)
  {
  }

  lemma PrefixTail(b: seq<Msg>, stream: seq<Msg>)
    requires b <= stream && b != []
    ensures b[0] == stream[0] && b[1..] <= stream[1..]
  {
    assert b == stream[..|b|];
    assert b[1..] == stream[1..][..|b| - 1];
  }

  lemma ReaderAfterAck(s: State, t: State)
    requires SuffixInv(s) && ReaderInv(s) && s.mem.batch != [] && s.redis.stream != []
    requires t.redis.stream == s.redis.stream[1..] && s.mem.batch[1..] <= s.redis.stream[1..]
    requires t.redis.delivered == s.redis.delivered && t.redis.lastId == s.redis.lastId
    requires t.hist == s.hist && t.mem == AfterAck(s.mem)
    ensures SuffixInv(t) && ReaderInv(t)
  {
  }

  lemma AckOrder(env: Env, s: State)
    requires OrderInv(env, s) && Enabled(env, s, Ack)
    ensures var t := Step(env, s, Ack); SuffixInv(t) && ReaderInv(t) && PassInv(env, t)
  {
    hide FirstSeen, Commits, Remove, Step, PassInv, KeyOf;
    HeadDone(env, s);
    PrefixTail(s.mem.batch, s.redis.stream);
    RemoveFirst(s.redis.stream, Gone(s));
    AckEffect(env, s);
    var t := Step(env, s, Ack);
    hide Inv, SuffixInv, ReaderInv;
    ReaderAfterAck(s, t);
    PassAfterAck(env, s, t);
  }

  lemma PassAfterAck(env: Env, s: State, t: State)
    requires SuffixInv(s) && SuffixInv(t) && t.hist == s.hist && !t.mem.needAck
    requires s.redis.stream != [] && t.redis.stream == s.redis.stream[1..]
    requires Commits(s.hist.log) == FirstSeen(env, s.hist.arrivals[..Gone(s) + 1])
    ensures PassInv(env, t)
  {
  }

  predicate IsQuiet(e: Event) {
    e.Receive? || e.SpillOk? || e.SpillUnsynced? || e.SpillTorn? || e.Refuse?
    || e.DrainStart? || e.DrainStop? || e.DrainUnsynced? || e.DrainFinish? || e.Flush? || e.Crash?
  }

  lemma QuietStep(env: Env, s: State, e: Event)
    requires Enabled(env, s, e) && IsQuiet(e)
    ensures var t := Step(env, s, e);
            && t.redis.stream == s.redis.stream && t.redis.delivered == s.redis.delivered && t.redis.lastId == s.redis.lastId
            && t.hist.arrivals == s.hist.arrivals && t.hist.log == s.hist.log
            && (t.mem.needAck ==> s.mem.needAck)
            && (|| (t.mem.batch == s.mem.batch && t.mem.mode == s.mem.mode && t.mem.batchLen == s.mem.batchLen)
                || (t.mem.batch == [] && t.mem.mode == Backlog))
  {
    hide W.Line, W.Payloads, W.CountLines, Spilled;
  }

  lemma ReaderStays(s: State, t: State)
    requires SuffixInv(s) && ReaderInv(s)
    requires t.redis.stream == s.redis.stream && t.redis.delivered == s.redis.delivered && t.redis.lastId == s.redis.lastId
    requires t.hist.arrivals == s.hist.arrivals
    requires || (t.mem.batch == s.mem.batch && t.mem.mode == s.mem.mode && t.mem.batchLen == s.mem.batchLen)
             || (t.mem.batch == [] && t.mem.mode == Backlog)
    ensures SuffixInv(t) && ReaderInv(t)
  {
  }

  /** Steps that leave the stream, the reader and the committed records alone. */
  lemma QuietOrder(env: Env, s: State, e: Event)
    requires OrderInv(env, s) && Enabled(env, s, e) && IsQuiet(e)
    ensures var t := Step(env, s, e); SuffixInv(t) && ReaderInv(t) && PassInv(env, t)
  {
    hide Step, Enabled, Inv, SuffixInv, ReaderInv, PassInv, IsQuiet;
    QuietStep(env, s, e);
    ReaderStays(s, Step(env, s, e));
    PassStays(env, s, Step(env, s, e));
  }

  lemma TableEffect(env: Env, s: State, e: Event)
    requires e.MarkStale? || e.Reap?
    ensures var t := Step(env, s, e);
            && t.redis == s.redis && t.mem == s.mem && t.hist.arrivals == s.hist.arrivals
            && Commits(t.hist.log) == Commits(s.hist.log)
  {
    hide S.ApplyOp;
    var op := if e.Reap? then S.Reap(e.key) else S.Stale(e.key);
    assert (s.hist.log + [op])[..|s.hist.log|] == s.hist.log;
  }

  lemma TableOrder(env: Env, s: State, e: Event)
    requires OrderInv(env, s) && (e.MarkStale? || e.Reap?)
    ensures var t := Step(env, s, e); SuffixInv(t) && ReaderInv(t) && PassInv(env, t)
  {
    hide FirstSeen, Commits, Inv, Step;
    TableEffect(env, s, e);
  }

  lemma StepOrder(env: Env, s: State, e: Event)
    requires OrderInv(env, s) && !e.ReadLost?
    ensures OrderInv(env, Step(env, s, e))
  {
    StepKeeps(env, s, e);
    assert OrderInv(env, s);
    assert Inv(env, Step(env, s, e)) && SuffixInv(s) && ReaderInv(s) && PassInv(env, s);
    StepOrderParts(env, s, e);
  }

  lemma StepOrderParts(env: Env, s: State, e: Event)
    requires OrderInv(env, s) && !e.ReadLost?
    ensures var t := Step(env, s, e); SuffixInv(t) && ReaderInv(t) && PassInv(env, t)
  {
    if !Enabled(env, s, e) {
      DisabledStep(env, s, e);
    } else {
      hide *;
      match e
      case EnqueueOk(_, _) => PushOrder(env, s, e);
      case EnqueueLost(_) => PushOrder(env, s, e);
      case DrainPush => PushOrder(env, s, e);
      case DrainPushLost => PushOrder(env, s, e);
      case Read => if s.mem.mode == Backlog { ReadBacklogOrder(env, s); } else { ReadFreshOrder(env, s); }
      case Commit => CommitOrder(env, s, e);
      case CommitLost => CommitOrder(env, s, e);
      case Duplicate(_) => DoneOrder(env, s, e);
      case DropCorrupt => DoneOrder(env, s, e);
      case ProcessFails => DoneOrder(env, s, e);
      case Ack => AckOrder(env, s);
      case MarkStale(_) => TableOrder(env, s, e);
      case Reap(_) => TableOrder(env, s, e);
      case _ => QuietOrder(env, s, e);
    }
  }

  /** No reply to a stream read is lost in the run. */
  ghost predicate NoLostReads(evs: seq<Event>) {
    forall e | e in evs :: !e.ReadLost?
  }

  lemma {:induction false} RunOrder(env: Env, evs: seq<Event>)
    requires NoLostReads(evs)
    ensures OrderInv(env, Exec(env, evs))
  {
    hide OrderInv, Step, Init;
    if evs == [] {
      StartsInOrder(env);
    } else {
      RunOrder(env, evs[..|evs| - 1]);
      StepOrder(env, Exec(env, evs[..|evs| - 1]), evs[|evs| - 1]);
    }
  }

  lemma NothingIsOrderly(env: Env)
    ensures SuffixInv(Init()) && ReaderInv(Init()) && PassInv(env, Init())
  {
    var none: seq<Payload> := [];
    assert none[..0] == none;
    assert Commits([]) == FirstSeen(env, none);
  }

  lemma StartsInOrder(env: Env)
    ensures OrderInv(env, Init())
  {
    hide Inv, Step, Init, SuffixInv, ReaderInv, PassInv;
    Reachable(env, []);
    NothingIsOrderly(env);
  }

  // ---- what follows ----

  /** When the loop is about to read new entries, nothing delivered is still pending. */
  lemma FreshReadsFindNothingPending(env: Env, evs: seq<Event>)
    requires NoLostReads(evs)
    ensures var s := Exec(env, evs);
            s.mem.mode == Fresh && s.mem.batch == [] ==> Only(s.redis.stream, s.redis.pel) == []
  {
    RunOrder(env, evs);
    var s := Exec(env, evs);
    if s.mem.mode == Fresh && s.mem.batch == [] {
      OnlyPrefix(s.redis.stream, Gone(s), s.redis.pel, 0);
    }
  }

  /** In-order, exactly-once: across any number of crashes, outages, redeliveries, re-pushes of the
      spill log and retransmits, the committed records are the first occurrences among the
      arrivals that have left the stream (or one more, not yet acknowledged); once the stream
      is empty, among all arrivals. */
  lemma CommitsInArrivalOrder(env: Env, evs: seq<Event>)
    requires NoLostReads(evs)
    ensures var s := Exec(env, evs);
            var commits := Commits(s.hist.log);
            && 0 <= Gone(s) <= |s.hist.arrivals|
            && (|| commits == FirstSeen(env, s.hist.arrivals[..Gone(s)])
                || (s.redis.stream != [] && commits == FirstSeen(env, s.hist.arrivals[..Gone(s) + 1])))
            && (s.redis.stream == [] ==> commits == FirstSeen(env, s.hist.arrivals))
  {
    RunOrder(env, evs);
    var s := Exec(env, evs);
    assert s.hist.arrivals[..|s.hist.arrivals|] == s.hist.arrivals;
  }

  function Applied(rs: seq<S.Record>): seq<S.Op> {
    if rs == [] then [] else Applied(rs[..|rs| - 1]) + [S.Apply(rs[|rs| - 1])]
  }

  ghost predicate NoReaper(evs: seq<Event>) {
    forall e | e in evs :: !e.MarkStale? && !e.Reap?
  }

  lemma LogStep(env: Env, s: State, e: Event)
    requires !e.MarkStale? && !e.Reap?
    ensures var log' := Step(env, s, e).hist.log;
            log' == s.hist.log || exists r :: log' == s.hist.log + [S.Apply(r)]
  {
    hide W.Line, W.Payloads, W.CountLines, Only, After, Remove;
  }

  lemma {:induction false} LogIsApplied(env: Env, evs: seq<Event>)
    requires NoReaper(evs)
    ensures var log := Exec(env, evs).hist.log; log == Applied(Commits(log))
  {
    if evs != [] {
      LogIsApplied(env, evs[..|evs| - 1]);
      var s, e := Exec(env, evs[..|evs| - 1]), evs[|evs| - 1];
      LogStep(env, s, e);
      var log' := Step(env, s, e).hist.log;
      if log' != s.hist.log {
        var r :| log' == s.hist.log + [S.Apply(r)];
        assert log'[..|log'| - 1] == s.hist.log;
        assert Commits(log') == Commits(s.hist.log) + [r];
        assert Commits(log')[..|Commits(log')| - 1] == Commits(s.hist.log);
      }
    }
  }

  /** Between reaper passes, a drained pipeline has left exactly the sessions, usage points and
      lifetime totals of one pass over the arrivals that skips every repeated dedup key. */
  lemma DrainedTablesArePerfect(env: Env, evs: seq<Event>)
    requires NoLostReads(evs) && NoReaper(evs)
    requires Exec(env, evs).redis.stream == []
    ensures var s := Exec(env, evs);
            s.db.tables == S.Replay(Applied(FirstSeen(env, s.hist.arrivals)))
  {
    CommitsInArrivalOrder(env, evs);
    ExactlyOnce(env, evs);
    LogIsApplied(env, evs);
  }
}

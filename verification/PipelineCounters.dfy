/** The audit counters (backend/internal/accounting/counters.go) as a conservation law. */
module PipelineCounters {
  import opened Wrappers
  import opened LogText
  import W = SpillCodec
  import S = Sessions
  import opened Pipeline
  import opened PipelineSafety

  function One(b: bool): nat {
    if b then 1 else 0
  }

  function InDrain(s: State): nat {
    if s.mem.drain.Some? then s.mem.drain.value else 0
  }

  /** inQueue: what the counters endpoint measures. */
  function InQueue(s: State): int {
    |s.redis.stream| + s.mem.pending
  }

  /** snapshot's invariant_ok. */
  predicate InvariantOk(s: State) {
    var c := s.mem.counters;
    c.received - c.deduplicated - InQueue(s) == c.persisted
  }

  ghost predicate CountInv(s: State) {
    var (c, h) := (s.mem.counters, s.hist);
    && c.received == s.mem.inflight + c.enqueued + c.spilled + h.refused
    && |h.arrivals| == c.enqueued + c.drained + h.unreported
    && |h.arrivals| - |s.redis.stream| + One(s.mem.needAck) == c.persisted + c.deduplicated + h.dropped
    && c.drained == c.spilled - s.mem.pending + h.partial + h.emptied + h.surplus + InDrain(s)
  }

  lemma {:induction false} RemoveOne(stream: seq<Msg>, m: Msg)
    requires forall i, j | 0 <= i < j < |stream| :: stream[i].id < stream[j].id
    requires m in stream
    ensures |Remove(stream, m.id)| == |stream| - 1
  {
    if stream[0] == m {
      RemoveNone(stream[1..], m.id);
    } else {
      RemoveOne(stream[1..], m);
    }
  }

  lemma {:induction false} RemoveNone(stream: seq<Msg>, id: nat)
    requires forall m | m in stream :: m.id != id
    ensures Remove(stream, id) == stream
  {
    if stream != [] {
      RemoveNone(stream[1..], id);
    }
  }

  lemma CountAck(env: Env, s: State)
    requires Inv(env, s) && CountInv(s) && Enabled(env, s, Ack)
    ensures CountInv(Step(env, s, Ack))
  {
    hide Step, Inv, Remove;
    AckCounts(env, s);
    HeadInStream(env, s);
    RemoveOne(s.redis.stream, s.mem.batch[0]);
  }

  lemma HeadInStream(env: Env, s: State)
    requires Inv(env, s) && s.mem.batch != []
    ensures forall i, j | 0 <= i < j < |s.redis.stream| :: s.redis.stream[i].id < s.redis.stream[j].id
    ensures s.mem.batch[0] in s.redis.stream
  {
    hide WalInv, DbInv, AckedInv, Done;
  }

  lemma AckCounts(env: Env, s: State)
    requires Enabled(env, s, Ack)
    ensures var t := Step(env, s, Ack);
            && t.redis.stream == Remove(s.redis.stream, s.mem.batch[0].id) && t.hist == s.hist
            && t.mem == s.mem.(mode := t.mem.mode, batch := t.mem.batch, needAck := false) && s.mem.needAck
  {
    hide Remove, W.Line, W.Payloads;
  }

  lemma CountIngest(env: Env, s: State, e: Event)
    requires CountInv(s) && Enabled(env, s, e)
    requires e.Receive? || e.EnqueueOk? || e.EnqueueLost? || e.SpillOk? || e.SpillUnsynced? || e.SpillTorn? || e.Refuse?
    ensures CountInv(Step(env, s, e))
  {
    hide W.Line, W.Payloads;
  }

  lemma CountDrain(env: Env, s: State, e: Event)
    requires CountInv(s) && Enabled(env, s, e)
    requires e.DrainStart? || e.DrainPush? || e.DrainPushLost? || e.DrainStop? || e.DrainUnsynced? || e.DrainFinish?
    ensures CountInv(Step(env, s, e))
  {
    hide W.Line, W.Payloads;
  }

  lemma CountOther(env: Env, s: State, e: Event)
    requires CountInv(s) && Enabled(env, s, e)
    requires e.Read? || e.ReadLost? || e.Commit? || e.CommitLost? || e.Duplicate? || e.DropCorrupt? || e.ProcessFails?
             || e.MarkStale? || e.Reap? || e.Flush?
    ensures CountInv(Step(env, s, e))
  {
    hide W.Line, W.Payloads, S.Upsert, KeyOf, S.ApplyOp, Only, After, Take;
  }

  lemma CountStep(env: Env, s: State, e: Event)
    requires Inv(env, s) && CountInv(s) && !e.Crash?
    ensures CountInv(Step(env, s, e))
  {
    hide *;
    if !Enabled(env, s, e) {
      DisabledStep(env, s, e);
    } else if e.Ack? {
      CountAck(env, s);
    } else if e.DrainStart? || e.DrainPush? || e.DrainPushLost? || e.DrainStop? || e.DrainUnsynced? || e.DrainFinish? {
      CountDrain(env, s, e);
    } else if e.Receive? || e.EnqueueOk? || e.EnqueueLost? || e.SpillOk? || e.SpillUnsynced? || e.SpillTorn? || e.Refuse? {
      CountIngest(env, s, e);
    } else {
      CountOther(env, s, e);
    }
  }

  ghost predicate NoCrash(evs: seq<Event>) {
    forall e | e in evs :: !e.Crash?
  }

  lemma {:induction false} CountRun(env: Env, evs: seq<Event>)
    requires NoCrash(evs)
    ensures CountInv(Exec(env, evs))
  {
    if evs != [] {
      CountRun(env, evs[..|evs| - 1]);
      Reachable(env, evs[..|evs| - 1]);
      CountStep(env, Exec(env, evs[..|evs| - 1]), evs[|evs| - 1]);
    }
  }

  /** Everything that ever entered the stream is persisted, deduplicated, dropped as undecodable,
      or still there - at every moment between two messages of a crash-free run. */
  lemma StreamConservation(env: Env, evs: seq<Event>)
    requires NoCrash(evs) && !Exec(env, evs).mem.needAck
    ensures var s := Exec(env, evs);
            var c := s.mem.counters;
            c.enqueued + c.drained + s.hist.unreported
            == c.persisted + c.deduplicated + s.hist.dropped + |s.redis.stream|
  {
    CountRun(env, evs);
  }

  /** The audit equation is off by exactly: requests in hand or refused and entries dropped, less records
      pushed by unfinished drains, surplus and unreported additions, and the one being acknowledged. */
  lemma AuditGap(env: Env, evs: seq<Event>)
    requires NoCrash(evs)
    ensures var s := Exec(env, evs);
            var (c, h) := (s.mem.counters, s.hist);
            c.received - c.deduplicated - InQueue(s) - c.persisted
            == s.mem.inflight + h.refused + h.dropped
               - h.partial - h.emptied - InDrain(s) - h.surplus - h.unreported - One(s.mem.needAck)
  {
    CountRun(env, evs);
  }

  /** After a restart the pending count is exactly what a full drain would push and what it would report as corrupt. */
  lemma RestartCountsWhatDrains(env: Env, s: State, loaded: bool)
    ensures Step(env, s, Crash(loaded)).mem.pending == |Spilled(env, s)| + W.BadLines(env.crc, Lines(s.wal.Text()))
  {
    W.PendingIsDrained(env.crc, s.wal.Text());
    hide W.CountLines, W.Payloads, W.BadLines, Lines;
  }

  // ---- runs whose storage is sound ----

  /** No torn or unsynced write, no lost reply to a stream addition. */
  ghost predicate SoundStorage(evs: seq<Event>) {
    forall e | e in evs :: !e.SpillTorn? && !e.SpillUnsynced? && !e.EnqueueLost? && !e.DrainPushLost?
  }

  ghost predicate SoundInv(env: Env, s: State) {
    && s.wal.tail == "" && s.hist.unreported == 0
    && s.mem.pending - |W.Safe(env.crc, s.wal)| == s.hist.emptied + s.hist.surplus
  }

  lemma SoundAppend(env: Env, s: State, p: Payload)
    requires Inv(env, s) && SoundInv(env, s) && Enabled(env, s, SpillOk(p))
    ensures SoundInv(env, Step(env, s, SpillOk(p)))
  {
    W.AppendExactly(env.crc, s.wal, p);
    hide W.Safe, W.Line;
  }

  lemma SoundOther(env: Env, s: State, e: Event)
    requires SoundInv(env, s) && Enabled(env, s, e)
    requires !e.Crash? && !e.SpillOk? && !e.DrainFinish? && !e.DrainUnsynced?
    requires !e.SpillTorn? && !e.SpillUnsynced? && !e.EnqueueLost? && !e.DrainPushLost?
    ensures SoundInv(env, Step(env, s, e))
  {
    hide W.Line, W.Payloads, W.Safe, W.CountLines, S.Upsert, KeyOf, S.ApplyOp, Only, After, Remove;
  }

  lemma SoundFinish(env: Env, s: State, e: Event)
    requires Inv(env, s) && SoundInv(env, s) && Enabled(env, s, e) && (e.DrainFinish? || e.DrainUnsynced?)
    ensures SoundInv(env, Step(env, s, e))
  {
    assert s.wal.Text() == s.wal.body;
    assert Spilled(env, s) == W.Safe(env.crc, s.wal);
  }

  lemma {:induction false} SoundRun(env: Env, evs: seq<Event>)
    requires NoCrash(evs) && SoundStorage(evs)
    ensures SoundInv(env, Exec(env, evs))
  {
    if evs != [] {
      var before, e := evs[..|evs| - 1], evs[|evs| - 1];
      SoundRun(env, before);
      Reachable(env, before);
      var s := Exec(env, before);
      if !Enabled(env, s, e) {
        DisabledStep(env, s, e);
      } else if e.SpillOk? {
        SoundAppend(env, s, e.p);
      } else if e.DrainFinish? || e.DrainUnsynced? {
        SoundFinish(env, s, e);
      } else {
        SoundOther(env, s, e);
      }
    }
  }

  /** With sound storage, whenever the process is idle, invariant_ok holds exactly when the requests it
      refused (and entries it dropped) equal in number the records pushed by drains that stopped
      part-way, and those the pending count still has although a truncation that could not be synced took them
      off the log. */
  lemma InvariantOkExactly(env: Env, evs: seq<Event>)
    requires NoCrash(evs) && SoundStorage(evs)
    requires var m := Exec(env, evs).mem; m.inflight == 0 && !m.needAck && m.drain.None?
    ensures var s := Exec(env, evs);
            InvariantOk(s) <==> s.hist.refused + s.hist.dropped == s.hist.partial + (s.mem.pending - |W.Safe(env.crc, s.wal)|)
  {
    AuditGap(env, evs);
    SoundRun(env, evs);
  }
}

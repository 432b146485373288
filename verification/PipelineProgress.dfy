/** Progress of the consumer, and what the loss of a read reply does to it. */
module PipelineProgress {
  import opened Wrappers
  import W = SpillCodec
  import S = Sessions
  import opened Pipeline
  import opened PipelineSafety
  import opened PipelineOrder

  /** What the consumer does next when nothing fails. */
  function Next(env: Env, s: State): Event {
    if s.mem.batch == [] then Read
    else if s.mem.needAck then Ack
    else
      match Head(env, s)
      case None => DropCorrupt
      case Some(r) => if KeyOf(r) in s.db.dedup then Duplicate(true) else Commit
  }

  function Measure(s: State): nat {
    6 * |s.redis.stream|
    + (if s.mem.batch == [] then (if s.mem.mode == Backlog then 3 else 2)
       else if s.mem.needAck then 0 else 1)
  }

  lemma ReadProgress(env: Env, s: State)
    requires OrderInv(env, s) && s.redis.stream != [] && s.mem.batch == []
    ensures Measure(Step(env, s, Read)) < Measure(s)
  {
    hide FirstSeen, Commits, W.Line, W.Payloads, Inv, PassInv;
    if s.mem.mode == Backlog {
      assert Inv(env, s);
    } else {
      AfterAll(s.redis.stream, Gone(s), s.redis.delivered);
    }
  }

  lemma AckProgress(env: Env, s: State)
    requires OrderInv(env, s) && s.mem.batch != [] && s.mem.needAck
    ensures Measure(Step(env, s, Next(env, s))) < Measure(s)
  {
    PrefixTail(s.mem.batch, s.redis.stream);
    RemoveFirst(s.redis.stream, Gone(s));
    assert Next(env, s) == Ack && Enabled(env, s, Ack);
    hide Step, Enabled, FirstSeen, Commits, Inv, PassInv, SuffixInv, ReaderInv, Remove;
    AckEffect(env, s);
  }

  lemma ProcessProgress(env: Env, s: State)
    requires s.mem.batch != [] && !s.mem.needAck
    ensures Measure(Step(env, s, Next(env, s))) < Measure(s)
  {
    hide W.Line, W.Payloads, S.Upsert, KeyOf;
  }

  lemma Progress(env: Env, s: State)
    requires OrderInv(env, s) && s.redis.stream != []
    ensures Measure(Step(env, s, Next(env, s))) < Measure(s)
  {
    if s.mem.batch == [] {
      ReadProgress(env, s);
    } else if s.mem.needAck {
      AckProgress(env, s);
    } else {
      ProcessProgress(env, s);
    }
  }

  function Consume(env: Env, s: State, n: nat): State
    decreases n
  {
    if n == 0 then s else Consume(env, Step(env, s, Next(env, s)), n - 1)
  }

  lemma {:induction false} EmptyStays(env: Env, s: State, n: nat)
    requires OrderInv(env, s) && s.redis.stream == []
    ensures Consume(env, s, n).redis.stream == []
    decreases n
  {
    if n > 0 {
      assert s.mem.batch == [];
      ReadOfNothing(env, s);
      StepOrder(env, s, Read);
      EmptyStays(env, Step(env, s, Read), n - 1);
    }
  }

  lemma ReadOfNothing(env: Env, s: State)
    requires s.redis.stream == [] && s.mem.batch == []
    ensures Step(env, s, Read).redis.stream == []
  {
  }

  /** Once failures and arrivals stop, the consumer empties the stream within Measure(s) steps:
      at most six for each entry, and three. */
  lemma {:induction false} StreamEmpties(env: Env, s: State, n: nat)
    requires OrderInv(env, s) && Measure(s) <= n
    ensures Consume(env, s, n).redis.stream == []
    decreases n
  {
    hide *;
    if s.redis.stream == [] {
      EmptyStays(env, s, n);
    } else {
      Progress(env, s);
      NextIsNoLoss(env, s);
      StepOrder(env, s, Next(env, s));
      StreamEmpties(env, Step(env, s, Next(env, s)), n - 1);
      UnrollConsume(env, s, n);
    }
  }

  lemma NextIsNoLoss(env: Env, s: State)
    ensures !Next(env, s).ReadLost?
  {
  }

  lemma UnrollConsume(env: Env, s: State, n: nat)
    requires n > 0
    ensures Consume(env, s, n) == Consume(env, Step(env, s, Next(env, s)), n - 1)
  {
  }

  // ---- a lost reply ----

  /** An entry that was delivered but is neither in hand nor going to be read again. */
  ghost predicate Stranded(s: State, m: Msg) {
    && s.mem.mode == Fresh
    && m in s.redis.stream && m.id <= s.redis.delivered
    && forall b | b in s.mem.batch :: b.id != m.id
  }

  /** Losing the reply to a read strands an entry exactly when the read was of new entries and there were some. */
  lemma LostReadStrandsExactly(env: Env, s: State)
    requires OrderInv(env, s) && s.mem.batch == []
    ensures (exists m :: Stranded(Step(env, s, ReadLost), m)) <==> s.mem.mode == Fresh && s.redis.stream != []
  {
    hide FirstSeen, Commits, W.Line, W.Payloads, W.CountLines, PassInv, BatchInv, WalInv, DbInv, AckedInv, Step, Enabled, Deliver, Take, After;
    ReadsArePossible(env, s);
    ReadEffect(env, s, ReadLost);
    if s.mem.mode == Fresh && s.redis.stream != [] {
      AfterAll(s.redis.stream, Gone(s), s.redis.delivered);
      FirstIsDelivered(s);
      assert Stranded(Step(env, s, ReadLost), s.redis.stream[0]);
    }
  }

  lemma ReadsArePossible(env: Env, s: State)
    requires s.mem.batch == []
    ensures Enabled(env, s, Read) && Enabled(env, s, ReadLost)
  {
  }

  lemma FirstIsDelivered(s: State)
    requires StreamInv(s) && s.redis.stream != [] && After(s.redis.stream, s.redis.delivered) == s.redis.stream
    ensures s.redis.stream[0].id <= Deliver(s.redis).delivered
  {
    hide After;
    DeliverKeeps(s);
    var ms := Take(s.redis.stream);
    assert ms[0] in ms;
  }

  lemma StrandedAfterRead(env: Env, s: State, m: Msg)
    requires StreamInv(s) && Stranded(s, m) && s.mem.batch == []
    ensures Stranded(Step(env, s, Read), m) && Stranded(Step(env, s, ReadLost), m)
  {
    hide Step, Enabled, StreamInv, Deliver, After, Take, Only;
    ReadsArePossible(env, s);
    ReadEffect(env, s, Read);
    ReadEffect(env, s, ReadLost);
    FreshReadStays(env, s);
    DeliverKeeps(s);
    SortedStream(s);
    DeliveredIds(s.redis);
  }

  lemma SortedStream(s: State)
    requires StreamInv(s)
    ensures forall i, j | 0 <= i < j < |s.redis.stream| :: s.redis.stream[i].id < s.redis.stream[j].id
  {
  }

  lemma FreshReadStays(env: Env, s: State)
    requires s.mem.mode == Fresh && s.mem.batch == []
    ensures var t := Step(env, s, Read); t.mem.mode == Fresh && t.mem.batch == Take(After(s.redis.stream, s.redis.delivered))
  {
    hide Deliver, After, Take;
  }

  lemma StrandedAfterAck(env: Env, s: State, m: Msg)
    requires StreamInv(s) && Stranded(s, m) && Enabled(env, s, Ack)
    ensures Stranded(Step(env, s, Ack), m)
  {
    RemoveIn(s.redis.stream, s.mem.batch[0].id);
    assert s.mem.batch[0] in s.mem.batch;
  }

  lemma StrandedAfterOther(env: Env, s: State, e: Event, m: Msg)
    requires Stranded(s, m) && Enabled(env, s, e)
    requires !e.ProcessFails? && !e.CommitLost? && !e.Crash? && !e.Read? && !e.ReadLost? && !e.Ack?
    ensures Stranded(Step(env, s, e), m)
  {
    hide W.Line, W.Payloads, W.CountLines, S.Upsert, KeyOf, S.ApplyOp;
  }

  /** A stranded entry stays unprocessed through every run without a processing failure or a restart. */
  lemma {:induction false} StrandedForever(env: Env, s: State, evs: seq<Event>, m: Msg)
    requires Inv(env, s) && Stranded(s, m)
    requires forall e | e in evs :: !e.ProcessFails? && !e.CommitLost? && !e.Crash?
    ensures Stranded(ExecFrom(env, s, evs), m)
  {
    hide Step, Enabled, Stranded, BatchInv, WalInv, DbInv, AckedInv;
    if evs != [] {
      var before, e := evs[..|evs| - 1], evs[|evs| - 1];
      StrandedForever(env, s, before, m);
      RunKeeps(env, s, before);
      var t := ExecFrom(env, s, before);
      if !Enabled(env, t, e) {
        DisabledStep(env, t, e);
      } else if e.Read? || e.ReadLost? {
        ReadEffect(env, t, e);
        StrandedAfterRead(env, t, m);
      } else if e.Ack? {
        StrandedAfterAck(env, t, m);
      } else {
        StrandedAfterOther(env, t, e, m);
      }
    }
  }

  /** One request enqueued, and a first read that finds no backlog. */
  lemma FirstRequestWaits(env: Env, p: Payload)
    requires env.resolve(p).Some?
    ensures var s := Step(env, Step(env, Init(), Receive(false)), EnqueueOk(p, false));
            && s.redis.stream == [Msg(1, p)] && s.redis.pel == {} && s.redis.delivered == 0
            && s.mem.batch == [] && s.mem.mode == Backlog
  {
    hide W.Line, W.Payloads, W.CountLines;
    assert [] + [Msg(1, p)] == [Msg(1, p)];
  }

  lemma LostReadTakes(env: Env, s: State, m: Msg)
    requires s.redis.stream == [m] && s.redis.pel == {} && s.redis.delivered < m.id && s.mem.batch == [] && s.mem.mode == Backlog
    ensures Stranded(Step(env, Step(env, s, Read), ReadLost), m)
  {
    hide W.Line, W.Payloads, W.CountLines;
    OneEntry(m, s.redis.delivered);
    hide Only, After;
    var t := Step(env, s, Read);
    assert t.mem.mode == Fresh && t.mem.batch == [] && t.redis == s.redis;
    assert Deliver(t.redis).delivered == m.id;
  }

  lemma OneEntry(m: Msg, delivered: nat)
    requires delivered < m.id
    ensures Only([m], {}) == [] && After([m], delivered) == [m]
  {
    var rest := [m][1..];
    assert rest == [];
    assert Only(rest, {}) == [] && After(rest, delivered) == [];
  }

  /** It does happen: the reply to the first read of new entries is lost. */
  lemma LostReadStrands(env: Env, p: Payload)
    requires env.resolve(p).Some?
    ensures Stranded(Exec(env, [Receive(false), EnqueueOk(p, false), Read, ReadLost]), Msg(1, p))
  {
    hide Step, Stranded;
    var evs := [Receive(false), EnqueueOk(p, false), Read, ReadLost];
    assert Exec(env, []) == Init();
    assert Exec(env, evs[..1]) == Step(env, Init(), Receive(false)) by { assert evs[..1] == [] + [Receive(false)]; ExecSnoc(env, [], Receive(false)); }
    assert Exec(env, evs[..2]) == Step(env, Exec(env, evs[..1]), evs[1]) by { assert evs[..2] == evs[..1] + [evs[1]]; ExecSnoc(env, evs[..1], evs[1]); }
    assert Exec(env, evs[..3]) == Step(env, Exec(env, evs[..2]), Read) by { assert evs[..3] == evs[..2] + [Read]; ExecSnoc(env, evs[..2], Read); }
    assert Exec(env, evs) == Step(env, Exec(env, evs[..3]), ReadLost) by { assert evs == evs[..3] + [ReadLost]; ExecSnoc(env, evs[..3], ReadLost); }
    FirstRequestWaits(env, p);
    LostReadTakes(env, Exec(env, evs[..2]), Msg(1, p));
  }
}

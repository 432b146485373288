/** The updater daemon as a whole (backend/cmd/hikrad-updaterd/run.go): runs in progress, watchers that tail
    their logs, and requests to start another, interleaved one locked section or channel operation at a time.
 */
module UpdateServer {
  import opened Wrappers
  import opened UpdateRun

  /** Where a watcher is in tail's loop. */
  datatype Phase =
    | Polling                          // about to copy the new events
    | Writing(pending: seq<Event>)
    | Selecting
    | Last                             // doneCh was seen closed
    | Draining(rest: seq<Event>)
    | Finished
    | Gone                             // a write failed before the end

  /** `out` is what reached the client; `lost` says a write after the close failed. */
  datatype Tail = Tail(run: nat, idx: nat, out: seq<Event>, phase: Phase, lost: bool)

  /** A run: what it has still to do, and its shared fields. */
  datatype Progress = Progress(input: Input, todo: seq<Act>, events: seq<Event>, conflict: bool, resolved: bool, done: bool)

  datatype State = State(current: Option<nat>, runs: seq<Progress>, tails: seq<Tail>)

  datatype Happening =
    | Start(input: Input)             // startUpdate: refused while there is a current run
    | Produce(run: nat)               // the next act of a run
    | Watch(run: nat)
    | Advance(tail: nat, writeOk: bool, pickDone: bool)

  function Init(): State {
    State(None, [], [])
  }

  function DoAct(s: State, r: nat): State
    requires r < |s.runs| && s.runs[r].todo != []
  {
    var p := s.runs[r].(todo := s.runs[r].todo[1..]);
    match s.runs[r].todo[0]
    case MarkConflict => s.(runs := s.runs[r := p.(conflict := true)])
    case CloseResolved => s.(runs := s.runs[r := p.(resolved := true)])
    case Append(e) => s.(runs := s.runs[r := p.(events := p.events + [e])])
    case CloseDone => s.(runs := s.runs[r := p.(done := true)])
    case Clear => s.(runs := s.runs[r := p], current := if s.current == Some(r) then None else s.current)
  }

  /** One move of a watcher. A select takes whichever case is ready. */
  function Move(t: Tail, events: seq<Event>, done: bool, writeOk: bool, pickDone: bool): Tail
    requires t.idx <= |events|
  {
    match t.phase
    case Polling => t.(phase := Writing(events[t.idx..]), idx := |events|)
    case Writing(pending) =>
      if pending == [] then t.(phase := Selecting)
      else if writeOk then t.(out := t.out + [pending[0]], phase := Writing(pending[1..]))
      else t.(phase := Gone)
    case Selecting => if done && pickDone then t.(phase := Last) else t.(phase := Polling)
    case Last => t.(phase := Draining(events[t.idx..]))
    case Draining(rest) =>
      if rest == [] then t.(phase := Finished)
      else if writeOk then t.(out := t.out + [rest[0]], phase := Draining(rest[1..]))
      else t.(phase := Draining(rest[1..]), lost := true)
    case _ => t
  }

  function Next(s: State, h: Happening): State {
    match h
    case Start(input) =>
      if s.current.Some? then s
      else State(Some(|s.runs|), s.runs + [Progress(input, Script(input), [], false, false, false)], s.tails)
    case Produce(r) => if r >= |s.runs| || s.runs[r].todo == [] then s else DoAct(s, r)
    case Watch(r) =>
      if r >= |s.runs| then s else s.(tails := s.tails + [Tail(r, 0, [], Polling, false)])
    case Advance(k, writeOk, pickDone) =>
      if k >= |s.tails| || s.tails[k].run >= |s.runs| || s.tails[k].idx > |s.runs[s.tails[k].run].events| then s
      else
        var p := s.runs[s.tails[k].run];
        s.(tails := s.tails[k := Move(s.tails[k], p.events, p.done, writeOk, pickDone)])
  }

  function Exec(hs: seq<Happening>): State {
    if hs == [] then Init() else Next(Exec(hs[..|hs| - 1]), hs[|hs| - 1])
  }

  // ---- the invariant ----

  function Logged(acts: seq<Act>): seq<Event> {
    if acts == [] then []
    else Logged(acts[..|acts| - 1]) + (if acts[|acts| - 1].Append? then [acts[|acts| - 1].event] else [])
  }

  /** A run has done the first n acts of its script, and its fields show it. */
  predicate At(p: Progress, n: nat) {
    && n <= |Script(p.input)| && p.todo == Script(p.input)[n..]
    && p.events == Logged(Script(p.input)[..n])
    && (p.resolved <==> CloseResolved in Script(p.input)[..n])
    && (p.conflict <==> MarkConflict in Script(p.input)[..n])
    && (p.done <==> CloseDone in Script(p.input)[..n])
  }

  ghost predicate ProgressOk(p: Progress) {
    exists n: nat :: At(p, n)
  }

  predicate Active(p: Progress) {
    Clear in p.todo
  }

  /** What the client has and is about to get is what the run has logged, as far as the watcher has looked. */
  predicate TailOk(t: Tail, events: seq<Event>, done: bool) {
    t.idx <= |events| &&
    match t.phase
    case Polling => t.out == events[..t.idx] && !t.lost
    case Writing(pending) => t.out + pending == events[..t.idx] && !t.lost
    case Selecting => t.out == events[..t.idx] && !t.lost
    case Last => t.out == events[..t.idx] && done && !t.lost
    case Draining(rest) => done && (!t.lost ==> t.out + rest == events)
    case Finished => done && (!t.lost ==> t.out == events)
    case Gone => t.out <= events && !t.lost
  }

  ghost predicate Inv(s: State) {
    && (forall r | 0 <= r < |s.runs| :: ProgressOk(s.runs[r]) && (Active(s.runs[r]) <==> s.current == Some(r)))
    && (s.current.Some? ==> s.current.value < |s.runs|)
    && (forall k | 0 <= k < |s.tails| ::
          s.tails[k].run < |s.runs| && TailOk(s.tails[k], s.runs[s.tails[k].run].events, s.runs[s.tails[k].run].done))
  }

  lemma LoggedSnoc(acts: seq<Act>, n: nat)
    requires n < |acts|
    ensures Logged(acts[..n + 1]) == Logged(acts[..n]) + (if acts[n].Append? then [acts[n].event] else [])
    ensures forall a :: a in acts[..n + 1] <==> a in acts[..n] || a == acts[n]
  {
    assert acts[..n + 1][..n] == acts[..n];
    assert acts[..n + 1] == acts[..n] + [acts[n]];
  }

  /** After `done` is closed nothing is logged any more, and only the last act takes the run off. */
  lemma ScriptOrder(input: Input, n: nat)
    requires n < |Script(input)|
    ensures CloseDone in Script(input)[..n] ==> !Script(input)[n].Append?
    ensures Script(input)[n] == Clear <==> n == |Script(input)| - 1
  {
    hide Log, IsConflict;
    ClosedExactlyOnce(input);
  }

  lemma ActAdvances(s: State, r: nat, n: nat)
    requires r < |s.runs| && s.runs[r].todo != [] && At(s.runs[r], n)
    ensures DoAct(s, r).runs[r].input == s.runs[r].input && At(DoAct(s, r).runs[r], n + 1)
    ensures s.runs[r].todo[0] == Script(s.runs[r].input)[n]
  {
    hide Script, Logged;
    var acts := Script(s.runs[r].input);
    assert acts[n] == s.runs[r].todo[0] && acts[n + 1..] == s.runs[r].todo[1..];
    LoggedSnoc(acts, n);
  }

  lemma ActiveAt(p: Progress, n: nat)
    requires At(p, n)
    ensures Active(p) <==> n < |Script(p.input)|
  {
    hide Script, Logged;
    var acts := Script(p.input);
    if n < |acts| {
      ScriptOrder(p.input, |acts| - 1);
      assert p.todo[|p.todo| - 1] == acts[|acts| - 1];
    }
  }

  /** What one act does to its own run. */
  lemma ActKeeps(s: State, r: nat)
    requires r < |s.runs| && s.runs[r].todo != [] && ProgressOk(s.runs[r])
    ensures var (p, q) := (s.runs[r], DoAct(s, r).runs[r]);
            && ProgressOk(q) && q.input == p.input
            && (Active(q) <==> p.todo[0] != Clear) && Active(p)
            && (q.events == p.events || (!p.done && exists e :: q.events == p.events + [e]))
            && (p.done ==> q.done)
  {
    hide Script, Logged, Active;
    var (p, q) := (s.runs[r], DoAct(s, r).runs[r]);
    var n: nat :| At(p, n);
    ActAdvances(s, r, n);
    ActiveAt(p, n);
    ActiveAt(q, n + 1);
    ScriptOrder(p.input, n);
  }

  lemma TailSees(t: Tail, events: seq<Event>, more: seq<Event>, done: bool, doneNow: bool)
    requires TailOk(t, events, done) && (done ==> doneNow && more == [])
    ensures TailOk(t, events + more, doneNow)
  {
    assert (events + more)[..t.idx] == events[..t.idx];
    if more == [] {
      assert events + more == events;
    }
  }

  lemma ProduceKeeps(s: State, r: nat)
    requires Inv(s) && r < |s.runs| && s.runs[r].todo != []
    ensures Inv(DoAct(s, r))
  {
    hide ProgressOk, TailOk, Active, Script;
    var post := DoAct(s, r);
    ActKeeps(s, r);
    assert forall i | 0 <= i < |s.runs| && i != r :: post.runs[i] == s.runs[i];
    forall k | 0 <= k < |s.tails|
      ensures TailOk(s.tails[k], post.runs[s.tails[k].run].events, post.runs[s.tails[k].run].done)
    {
      if s.tails[k].run == r {
        var (p, q) := (s.runs[r], post.runs[r]);
        if q.events == p.events {
          TailSees(s.tails[k], p.events, [], p.done, q.done);
          assert p.events + [] == q.events;
        } else {
          var e :| q.events == p.events + [e];
          TailSees(s.tails[k], p.events, [e], p.done, q.done);
        }
      }
    }
  }

  lemma MoveKeeps(t: Tail, events: seq<Event>, done: bool, writeOk: bool, pickDone: bool)
    requires TailOk(t, events, done)
    ensures TailOk(Move(t, events, done, writeOk, pickDone), events, done) && Move(t, events, done, writeOk, pickDone).run == t.run
  {
    match t.phase
    case Polling =>
      assert events[..t.idx] + events[t.idx..] == events[..|events|];
    case Writing(pending) =>
      if pending != [] {
        assert t.out + pending == t.out + [pending[0]] + pending[1..];
      }
    case Last =>
      assert events[..t.idx] + events[t.idx..] == events;
    case Draining(rest) =>
      if rest != [] {
        assert t.out + rest == t.out + [rest[0]] + rest[1..];
      }
    case _ =>
  }

  lemma StartKeeps(s: State, input: Input)
    requires Inv(s)
    ensures Inv(Next(s, Start(input)))
  {
    hide TailOk, Script, ProgressOk, Active;
    if s.current.None? {
      NewRun(input);
      var post := Next(s, Start(input));
      assert forall i | 0 <= i < |s.runs| :: post.runs[i] == s.runs[i];
    }
  }

  lemma NewRun(input: Input)
    ensures var p := Progress(input, Script(input), [], false, false, false); ProgressOk(p) && Active(p)
  {
    hide Log, IsConflict;
    var s := Script(input);
    assert s[..0] == [] && s[0..] == s && Logged([]) == [];
    assert At(Progress(input, s, [], false, false, false), 0);
    assert s[|s| - 1] == Clear;
  }

  lemma WatchKeeps(s: State, r: nat)
    requires Inv(s)
    ensures Inv(Next(s, Watch(r)))
  {
    hide ProgressOk, Active;
  }

  lemma AdvanceKeeps(s: State, k: nat, writeOk: bool, pickDone: bool)
    requires Inv(s)
    ensures Inv(Next(s, Advance(k, writeOk, pickDone)))
  {
    hide ProgressOk, Active, TailOk, Move;
    if k < |s.tails| && s.tails[k].idx <= |s.runs[s.tails[k].run].events| {
      var p := s.runs[s.tails[k].run];
      MoveKeeps(s.tails[k], p.events, p.done, writeOk, pickDone);
    }
  }

  lemma NextKeeps(s: State, h: Happening)
    requires Inv(s)
    ensures Inv(Next(s, h))
  {
    hide Inv, DoAct, Move;
    match h
    case Start(input) => StartKeeps(s, input);
    case Produce(r) =>
      if r < |s.runs| && s.runs[r].todo != [] {
        ProduceKeeps(s, r);
      }
    case Watch(r) => WatchKeeps(s, r);
    case Advance(k, writeOk, pickDone) => AdvanceKeeps(s, k, writeOk, pickDone);
  }

  lemma {:induction false} Reachable(hs: seq<Happening>)
    ensures Inv(Exec(hs))
  {
    hide Inv, Next;
    if hs == [] {
      NothingRuns();
    } else {
      Reachable(hs[..|hs| - 1]);
      NextKeeps(Exec(hs[..|hs| - 1]), hs[|hs| - 1]);
    }
  }

  lemma NothingRuns()
    ensures Inv(Init())
  {
  }

  // ---- what that means ----

  /** At most one run is in progress, and it is the current one. */
  lemma OneCurrentRun(hs: seq<Happening>, i: nat, j: nat)
    requires i < |Exec(hs).runs| && j < |Exec(hs).runs| && Active(Exec(hs).runs[i]) && Active(Exec(hs).runs[j])
    ensures i == j && Exec(hs).current == Some(i)
  {
    hide Exec, ProgressOk, TailOk, Active;
    Reachable(hs);
  }

  /** At every moment a watcher whose writes have succeeded has a first part of the run's log. */
  lemma WatcherHasPrefix(hs: seq<Happening>, k: nat)
    requires k < |Exec(hs).tails| && !Exec(hs).tails[k].lost
    ensures var (s, t) := (Exec(hs), Exec(hs).tails[k]); t.run < |s.runs| && t.out <= s.runs[t.run].events
  {
    hide Exec, ProgressOk, Active;
    Reachable(hs);
  }

  lemma {:induction false} LoggedAppends(log: seq<Event>, before: seq<Act>)
    ensures Logged(before + Appends(log)) == Logged(before) + log
  {
    if log == [] {
      assert before + Appends(log) == before;
    } else {
      var front := log[..|log| - 1];
      LoggedAppends(front, before);
      var acts := before + Appends(log);
      assert acts[..|acts| - 1] == before + Appends(front);
      assert front + [log[|log| - 1]] == log;
    }
  }

  lemma ScriptLogs(input: Input, n: nat)
    requires n <= |Script(input)| && CloseDone in Script(input)[..n]
    ensures Logged(Script(input)[..n]) == Log(input)
  {
    hide Log, IsConflict, Logged, Opening;
    var head := Opening(IsConflict(input));
    var body := head + Appends(Log(input));
    LoggedAppends(Log(input), head);
    OpeningLogsNothing(IsConflict(input));
    var acts := Script(input);
    assert acts == body + [CloseDone, Clear] && acts[..|body|] == body;
    var i :| 0 <= i < n && acts[i] == CloseDone;
    BodyLeavesOpen(input, i);
    LoggedSnoc(acts, |body|);
    if n == |body| + 2 {
      LoggedSnoc(acts, |body| + 1);
    }
  }

  lemma BodyLeavesOpen(input: Input, i: nat)
    requires i < |Script(input)| && Script(input)[i] == CloseDone
    ensures i >= |Opening(IsConflict(input)) + Appends(Log(input))|
  {
    hide Log, IsConflict;
  }

  lemma OpeningLogsNothing(conflict: bool)
    ensures Logged(Opening(conflict)) == []
  {
    assert Logged([]) == [];
    assert [CloseResolved][..0] == [] && [MarkConflict, CloseResolved][..1] == [MarkConflict] && [MarkConflict][..0] == [];
    assert [] + [CloseResolved] == [CloseResolved] && [MarkConflict] + [CloseResolved] == [MarkConflict, CloseResolved];
    assert Logged([MarkConflict]) == [];
  }

  /** A watcher that ran to the end without a failed write has received exactly the run's whole log, in order,
      whenever it began to watch and whatever was appended just before the close. */
  lemma WatcherGetsWholeLog(hs: seq<Happening>, k: nat)
    requires k < |Exec(hs).tails| && Exec(hs).tails[k].phase == Finished && !Exec(hs).tails[k].lost
    ensures var (s, t) := (Exec(hs), Exec(hs).tails[k]); t.run < |s.runs| && t.out == Log(s.runs[t.run].input)
  {
    hide Exec, Active, Log, Script, Logged;
    Reachable(hs);
    var (s, t) := (Exec(hs), Exec(hs).tails[k]);
    var p := s.runs[t.run];
    assert ProgressOk(p);
    var n: nat :| At(p, n);
    ScriptLogs(p.input, n);
  }
}

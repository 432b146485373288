/** The updater daemon's run of one update (backend/cmd/hikrad-updaterd/run.go): what it makes of the
    child's output, and what it does to the run's log and channels, line by line. The lock-conflict line
    is recognised by the substring the pattern spells out.
 */
module UpdateRun {
  import opened Spaces
  import opened Wrappers

  datatype Event = Stage(stage: string) | Result(ok: bool, version: string, message: string)

  /** What happens to a run, in order. Closing a channel twice would be a crash. */
  datatype Act = MarkConflict | CloseResolved | Append(event: Event) | CloseDone | Clear

  /** What the child and the system do: whether it starts, the non-blank lines the scanner yields, how it exits,
      and the version file afterwards. */
  datatype Input = StartFails(reason: string) | Runs(lines: seq<string>, exitOk: bool, version: string)

  /** The first position of a substring, if any. */
  function Find(s: string, part: string): Option<nat>
    decreases |s|
  {
    if |part| <= |s| && s[..|part|] == part then Some(0)
    else if s == "" then None
    else
      var rest := Find(s[1..], part);
      if rest.None? then None else Some(rest.value + 1)
  }

  predicate Contains(s: string, part: string) {
    Find(s, part).Some?
  }

  function ClassifyStage(line: string): string {
    if Contains(line, "Pre-update backup") then "backup"
    else if Contains(line, "Verifying release bundle") then "apply"
    else if Contains(line, "Building images") then "apply"
    else if Contains(line, "Applying update") then "health_check"
    else if Contains(line, "did not become healthy") then "health_check"
    else if Contains(line, "rolling back") then "rolling_back"
    else ""
  }

  predicate LockLine(line: string) {
    Contains(line, "already in progress (locked)")
  }

  predicate SuccessLine(line: string) {
    Contains(line, "Update complete and healthy")
  }

  function StripErrorPrefix(line: string): string {
    var s := TrimSpace(line);
    var i := Find(s, "ERROR: ");
    if i.Some? && i.value + 7 <= |s| then s[i.value + 7..]
    else if s == "" then "update failed with no output"
    else s
  }

  // ---- the specification ----

  function NonBlank(lines: seq<string>): seq<string> {
    if lines == [] then []
    else NonBlank(lines[..|lines| - 1]) + (if lines[|lines| - 1] == "" then [] else [lines[|lines| - 1]])
  }

  /** The stage after the given lines. */
  function StageAfter(lines: seq<string>): string {
    if lines == [] then ""
    else
      var c := ClassifyStage(lines[|lines| - 1]);
      if c != "" then c else StageAfter(lines[..|lines| - 1])
  }

  /** One event for every change of stage. */
  function StageEvents(lines: seq<string>): seq<Event> {
    if lines == [] then []
    else
      var (front, c) := (lines[..|lines| - 1], ClassifyStage(lines[|lines| - 1]));
      StageEvents(front) + (if c != "" && c != StageAfter(front) then [Stage(c)] else [])
  }

  predicate Conflict(lines: seq<string>) {
    lines != [] && LockLine(lines[0])
  }

  predicate SaysSuccess(lines: seq<string>) {
    exists i | 0 <= i < |lines| :: SuccessLine(lines[i])
  }

  function LastLine(lines: seq<string>): string {
    if lines == [] then "" else lines[|lines| - 1]
  }

  function StartFailure(reason: string): Event {
    Result(false, "", "failed to start update: " + reason)
  }

  function Outcome(ok: bool, version: string, lastLine: string): Event {
    Result(ok, version, if ok then "Update complete and healthy." else StripErrorPrefix(lastLine))
  }

  /** The whole log of a run: nothing after a lock conflict, else the stages and one result. */
  function Log(input: Input): seq<Event> {
    match input
    case StartFails(reason) => [StartFailure(reason)]
    case Runs(all, exitOk, version) =>
      var lines := NonBlank(all);
      if Conflict(lines) then []
      else
        var ok := exitOk && SaysSuccess(lines);
        StageEvents(lines) + [Outcome(ok, version, LastLine(lines))]
  }

  /** Where a run that is not a conflict ends. */
  function FinalStage(input: Input): string {
    if input.Runs? && input.exitOk && SaysSuccess(NonBlank(input.lines)) then "done" else "rolled_back"
  }

  predicate IsConflict(input: Input) {
    input.Runs? && Conflict(NonBlank(input.lines))
  }

  function Appends(log: seq<Event>): seq<Act> {
    seq(|log|, i requires 0 <= i < |log| => Append(log[i]))
  }

  function Opening(conflict: bool): seq<Act> {
    (if conflict then [MarkConflict] else []) + [CloseResolved]
  }

  /** Everything a run does, in order. */
  function Script(input: Input): seq<Act> {
    Opening(IsConflict(input)) + Appends(Log(input)) + [CloseDone, Clear]
  }

  lemma OneMoreLine(lines: seq<string>, line: string)
    ensures var (all, c) := (lines + [line], ClassifyStage(line));
            && StageAfter(all) == (if c != "" then c else StageAfter(lines))
            && StageEvents(all) == StageEvents(lines) + (if c != "" && c != StageAfter(lines) then [Stage(c)] else [])
            && LastLine(all) == line
            && (Conflict(all) <==> if lines == [] then LockLine(line) else Conflict(lines))
            && (SaysSuccess(all) <==> SaysSuccess(lines) || SuccessLine(line))
  {
    hide ClassifyStage, LockLine, SuccessLine;
    assert (lines + [line])[..|lines|] == lines;
    if SaysSuccess(lines) {
      var i :| 0 <= i < |lines| && SuccessLine(lines[i]);
      assert SuccessLine((lines + [line])[i]);
    }
    if SuccessLine(line) {
      assert SuccessLine((lines + [line])[|lines|]);
    }
  }

  lemma ConflictStays(lines: seq<string>, line: string)
    ensures Conflict(lines) ==> Conflict(lines + [line])
  {
    hide LockLine;
  }

  lemma NonBlankSnoc(lines: seq<string>, i: nat)
    requires i < |lines|
    ensures NonBlank(lines[..i + 1]) == NonBlank(lines[..i]) + (if lines[i] == "" then [] else [lines[i]])
  {
    assert lines[..i + 1][..i] == lines[..i];
  }

  lemma AppendsSnoc(log: seq<Event>, e: Event)
    ensures Appends(log + [e]) == Appends(log) + [Append(e)]
  {
  }

  lemma AppendsNothing()
    ensures Appends([]) == []
  {
  }

  lemma NoLines()
    ensures StageAfter([]) == "" && StageEvents([]) == [] && LastLine([]) == "" && !Conflict([]) && !SaysSuccess([]) && NonBlank([]) == []
  {
  }

  lemma SpecOf(input: Input)
    ensures Script(input) == Opening(IsConflict(input)) + Appends(Log(input)) + [CloseDone, Clear]
    ensures input.StartFails? ==> !IsConflict(input) && Log(input) == [StartFailure(input.reason)] && FinalStage(input) == "rolled_back"
    ensures input.Runs? ==>
              var (lines, ok) := (NonBlank(input.lines), input.exitOk && SaysSuccess(NonBlank(input.lines)));
              && IsConflict(input) == Conflict(lines)
              && Log(input) == (if Conflict(lines) then [] else StageEvents(lines) + [Outcome(ok, input.version, LastLine(lines))])
              && FinalStage(input) == if ok then "done" else "rolled_back"
  {
    hide NonBlank, SaysSuccess, Conflict, StageEvents, Outcome, LastLine, StartFailure;
  }

  // ---- the code ----

  class Run {
    var stage: string
    var events: seq<Event>
    var lockConflict: bool
    var resolvedClosed: bool
    var doneClosed: bool
    ghost var acts: seq<Act>

    constructor ()
      ensures stage == "backup" && events == [] && acts == [] && !lockConflict && !resolvedClosed && !doneClosed
    {
      stage, events, acts := "backup", [], [];
      lockConflict, resolvedClosed, doneClosed := false, false, false;
    }

    method AppendEvent(e: Event)
      modifies this`events, this`acts
      ensures events == old(events) + [e] && acts == old(acts) + [Append(e)]
    {
      events := events + [e];
      acts := acts + [Append(e)];
    }

    /** close(r.resolved); a second close would panic, so none may happen. */
    method Resolve()
      requires !resolvedClosed
      modifies this`resolvedClosed, this`acts
      ensures resolvedClosed && acts == old(acts) + [CloseResolved]
    {
      resolvedClosed := true;
      acts := acts + [CloseResolved];
    }

    method Finish()
      requires !doneClosed
      modifies this`doneClosed, this`acts
      ensures doneClosed && acts == old(acts) + [CloseDone, Clear]
    {
      doneClosed := true;
      acts := acts + [CloseDone] + [Clear];
    }

    /** What has been done after the non-blank lines read so far. */
    ghost predicate Read(seen: seq<string>, current: string)
      reads this
    {
      && lockConflict == Conflict(seen) && resolvedClosed == (seen != []) && !doneClosed
      && (if lockConflict then events == [] else current == StageAfter(seen) && events == StageEvents(seen))
      && acts == if seen == [] then [] else Opening(lockConflict) + Appends(events)
    }

    /** The loop body for one non-blank line. */
    method OnLine(line: string, firstLine: bool, current: string, ghost seen: seq<string>) returns (next: string, success: bool)
      requires Read(seen, current) && firstLine == (seen == [])
      modifies this
      ensures Read(seen + [line], next)
      ensures !lockConflict ==> success == SuccessLine(line)
      ensures lockConflict ==> stage == old(stage)
    {
      hide ClassifyStage, LockLine, SuccessLine, StageAfter, StageEvents, Conflict, SaysSuccess, LastLine, Appends;
      OneMoreLine(seen, line);
      NoLines();
      AppendsNothing();
      next, success := current, false;
      if firstLine {
        if LockLine(line) {
          lockConflict := true;
          acts := acts + [MarkConflict];
        }
        Resolve();
      }
      if lockConflict {
        return;
      }
      var classified := ClassifyStage(line);
      if classified != "" && classified != current {
        next := classified;
        stage := next;
        AppendsSnoc(events, Stage(next));
        AppendEvent(Stage(next));
      }
      success := SuccessLine(line);
    }

    /** The scanner loop. */
    method ReadLines(lines: seq<string>) returns (lastLine: string, sawSuccess: bool, firstLine: bool)
      requires Read([], "")
      modifies this
      ensures exists current :: Read(NonBlank(lines), current)
      ensures firstLine == (NonBlank(lines) == []) && lastLine == LastLine(NonBlank(lines))
      ensures !lockConflict ==> sawSuccess == SaysSuccess(NonBlank(lines))
      ensures firstLine || lockConflict ==> stage == old(stage)
    {
      hide ClassifyStage, LockLine, SuccessLine, NonBlank, StageAfter, StageEvents, Conflict, SaysSuccess, LastLine, Appends, Read;
      NoLines();
      var current := "";
      lastLine, sawSuccess, firstLine := "", false, true;
      ghost var seen: seq<string> := [];
      for i := 0 to |lines|
        invariant seen == NonBlank(lines[..i]) && Read(seen, current)
        invariant firstLine == (seen == []) && lastLine == LastLine(seen)
        invariant !lockConflict ==> sawSuccess == SaysSuccess(seen)
        invariant firstLine || lockConflict ==> stage == old(stage)
      {
        var line := lines[i];
        NonBlankSnoc(lines, i);
        if line != "" {
          OneMoreLine(seen, line);
          ConflictStays(seen, line);
          ReadShows(seen, current);
          var success;
          current, success := OnLine(line, firstLine, current, seen);
          seen := seen + [line];
          ReadShows(seen, current);
          sawSuccess := sawSuccess || success;
          lastLine, firstLine := line, false;
        }
      }
      assert lines[..|lines|] == lines;
    }

    lemma ReadShows(seen: seq<string>, current: string)
      requires Read(seen, current)
      ensures lockConflict == Conflict(seen)
    {
      hide Conflict, StageAfter, StageEvents, Appends;
    }

    method ReportStartFailure(reason: string)
      requires events == [] && acts == [] && !lockConflict && !resolvedClosed && !doneClosed
      modifies this
      ensures stage == "rolled_back" && events == [StartFailure(reason)] && !lockConflict && resolvedClosed && doneClosed
      ensures acts == Opening(false) + Appends([StartFailure(reason)]) + [CloseDone, Clear]
    {
      hide Appends, StartFailure;
      AppendsNothing();
      Resolve();
      stage := "rolled_back";
      AppendsSnoc([], StartFailure(reason));
      AppendEvent(StartFailure(reason));
      Finish();
    }

    /** After the child has ended: the result, unless its own lock refused it. */
    method Conclude(ok: bool, version: string, lastLine: string, firstLine: bool, ghost seen: seq<string>, ghost current: string)
      requires Read(seen, current) && firstLine == (seen == []) && (firstLine ==> !lockConflict)
      modifies this
      ensures resolvedClosed && doneClosed && lockConflict == old(lockConflict)
      ensures events == if lockConflict then [] else StageEvents(seen) + [Outcome(ok, version, lastLine)]
      ensures acts == Opening(lockConflict) + Appends(events) + [CloseDone, Clear]
      ensures stage == if lockConflict then old(stage) else if ok then "done" else "rolled_back"
    {
      hide Appends, Outcome, StageEvents, Conflict, StageAfter;
      NoLines();
      AppendsNothing();
      if firstLine {
        Resolve();
      }
      if !lockConflict {
        stage := if ok then "done" else "rolled_back";
        AppendsSnoc(events, Outcome(ok, version, lastLine));
        AppendEvent(Outcome(ok, version, lastLine));
      }
      Finish();
    }

    /** runUpdate, on whatever the child does. */
    method RunUpdate(input: Input)
      requires events == [] && acts == [] && !lockConflict && !resolvedClosed && !doneClosed
      modifies this
      ensures stage == if IsConflict(input) then old(stage) else FinalStage(input)
      ensures events == Log(input) && lockConflict == IsConflict(input)
      ensures resolvedClosed && doneClosed && acts == Script(input)
    {
      hide NonBlank, StageAfter, StageEvents, Conflict, SaysSuccess, LastLine, Appends, StartFailure, Outcome, Log, Script, IsConflict, FinalStage;
      SpecOf(input);
      if input.StartFails? {
        ReportStartFailure(input.reason);
        return;
      }
      NoLines();
      ghost var seen := NonBlank(input.lines);
      var lastLine, sawSuccess, firstLine := ReadLines(input.lines);
      ghost var current :| Read(seen, current);
      ReadShows(seen, current);
      Conclude(input.exitOk && sawSuccess, input.version, lastLine, firstLine, seen, current);
    }
  }

  // ---- what the script guarantees ----

  function Count(acts: seq<Act>, act: Act): nat {
    if acts == [] then 0 else Count(acts[..|acts| - 1], act) + (if acts[|acts| - 1] == act then 1 else 0)
  }

  lemma CountSnoc(acts: seq<Act>, last: Act, act: Act)
    ensures Count(acts + [last], act) == Count(acts, act) + (if last == act then 1 else 0)
  {
    assert (acts + [last])[..|acts|] == acts;
  }

  lemma {:induction false} AppendsCount(log: seq<Event>, act: Act, before: seq<Act>)
    requires !act.Append?
    ensures Count(before + Appends(log), act) == Count(before, act)
  {
    if log == [] {
      assert before + Appends(log) == before;
    } else {
      var front := log[..|log| - 1];
      assert before + Appends(log) == before + Appends(front) + [Append(log[|log| - 1])];
      AppendsCount(front, act, before);
      CountSnoc(before + Appends(front), Append(log[|log| - 1]), act);
    }
  }

  lemma ScriptCounts(input: Input, act: Act)
    requires act == CloseResolved || act == CloseDone || act == Clear
    ensures Count(Script(input), act) == 1
  {
    hide Log, IsConflict, Appends, Count;
    var head := if IsConflict(input) then [MarkConflict] else [];
    var body := head + [CloseResolved] + Appends(Log(input));
    HeadCounts(IsConflict(input), act);
    CountSnoc(head, CloseResolved, act);
    AppendsCount(Log(input), act, head + [CloseResolved]);
    CountSnoc(body, CloseDone, act);
    CountSnoc(body + [CloseDone], Clear, act);
    assert body + [CloseDone] + [Clear] == Script(input);
  }

  lemma HeadCounts(conflict: bool, act: Act)
    requires act != MarkConflict
    ensures Count(if conflict then [MarkConflict] else [], act) == 0
  {
    assert [MarkConflict][..0] == [];
  }

  /** Where each act stands in a script. */
  lemma ScriptPositions(input: Input, i: nat)
    requires i < |Script(input)|
    ensures var (s, head, n) := (Script(input), if IsConflict(input) then 1 else 0, |Log(input)|);
            && |s| == head + n + 3
            && (s[i] == MarkConflict <==> i < head)
            && (s[i] == CloseResolved <==> i == head)
            && (s[i].Append? <==> head < i <= head + n)
            && (s[i] == CloseDone <==> i == head + n + 1)
  {
    hide Log, IsConflict;
  }

  /** On every path each channel is closed exactly once, `resolved` before anything is logged and after the
      conflict is marked, `done` after everything is logged. */
  lemma ClosedExactlyOnce(input: Input)
    ensures Count(Script(input), CloseResolved) == 1 && Count(Script(input), CloseDone) == 1 && Count(Script(input), Clear) == 1
    ensures var s := Script(input);
            forall i, j | 0 <= i < |s| && 0 <= j < |s| ::
              && (s[i] == CloseResolved && s[j].Append? ==> i < j)
              && (s[i] == MarkConflict && s[j] == CloseResolved ==> i < j)
              && (s[i].Append? && s[j] == CloseDone ==> i < j)
  {
    hide Log, IsConflict, Script, Count;
    ScriptCounts(input, CloseResolved);
    ScriptCounts(input, CloseDone);
    ScriptCounts(input, Clear);
    var s := Script(input);
    forall i, j | 0 <= i < |s| && 0 <= j < |s|
      ensures s[i] == CloseResolved && s[j].Append? ==> i < j
      ensures s[i] == MarkConflict && s[j] == CloseResolved ==> i < j
      ensures s[i].Append? && s[j] == CloseDone ==> i < j
    {
      ScriptPositions(input, i);
      ScriptPositions(input, j);
    }
  }

  /** A run that is not a conflict ends its log with its one result; no stage is announced twice in a row. */
  lemma LogShape(input: Input)
    ensures IsConflict(input) <==> Log(input) == []
    ensures var log := Log(input);
            forall i | 0 <= i < |log| :: log[i].Result? <==> i == |log| - 1
    ensures var log := Log(input);
            forall i | 0 < i < |log| && log[i].Stage? :: log[i] != log[i - 1]
  {
    hide SaysSuccess, StripErrorPrefix, Conflict, ClassifyStage;
    if input.Runs? {
      StagesChange(NonBlank(input.lines));
    }
  }

  lemma {:induction false} StagesChange(lines: seq<string>)
    ensures var log := StageEvents(lines);
            && (forall i | 0 <= i < |log| :: log[i].Stage? && log[i].stage != "")
            && (forall i | 0 < i < |log| :: log[i] != log[i - 1])
            && StageAfter(lines) == if log == [] then "" else log[|log| - 1].stage
  {
    hide ClassifyStage, StageEvents, StageAfter;
    NoLines();
    if lines != [] {
      var (front, last) := (lines[..|lines| - 1], lines[|lines| - 1]);
      StagesChange(front);
      assert lines == front + [last];
      OneMoreLine(front, last);
    }
  }
}

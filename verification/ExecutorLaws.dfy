/** What the executor promises over every interleaving of its runners and cancellations. */
module ExecutorLaws {
  import opened Wrappers
  import opened ExecutorSpec
  import opened ExecutorRuns

  lemma SoundAt(config: Config, schedule: seq<Event>, e: nat)
    requires e in Interleave(config, schedule).executions
    ensures Sound(config, Interleave(config, schedule).executions[e])
  {
    InterleaveSound(config, schedule);
  }

  lemma AllOwned(config: Config, schedule: seq<Event>)
    ensures Owned(Interleave(config, schedule))
  {
    InterleaveSound(config, schedule);
  }

  // ----- Containers -----

  predicate SpeaksOf(call: Call, cid: nat) { call.what.Engine? && call.what.cid == cid }

  /**
   The one call to remove container `cid`, at position `i`: there is no other, and the runner
   leaves Docker alone after it.
   */
  ghost predicate RemovedOnceAt(trace: seq<Call>, cid: nat, i: nat) {
    && i < |trace| && trace[i] == Call(Runner, Engine(Remove, cid))
    && (forall j :: 0 <= j < |trace| && j != i ==> !IsEngine(trace[j], Remove))
    && (forall j :: i < j < |trace| && trace[j].what.Engine? ==> trace[j].who == Canceller)
  }

  /**
   Whatever Docker is asked about a container was asked by the execution that created it,
   after it was created; and nothing but a cancellation's stop can follow its removal.
   */
  lemma CallsAreAboutOwnContainer(config: Config, schedule: seq<Event>, e: nat, i: nat)
    requires var w := Interleave(config, schedule);
      e in w.executions && i < |w.executions[e].trace| && w.executions[e].trace[i].what.Engine?
    ensures var w := Interleave(config, schedule);
      var call := w.executions[e].trace[i];
      && call.what.cid in w.containers
      && (call.what.verb != Create ==> Call(Runner, Engine(Create, call.what.cid)) in w.executions[e].trace[..i])
      && (call.who == Canceller ==> call.what.verb == Stop)
      && (forall f, j :: f in w.executions && f != e && 0 <= j < |w.executions[f].trace| ==>
            !SpeaksOf(w.executions[f].trace[j], call.what.cid))
  {
    AllOwned(config, schedule);
    SoundAt(config, schedule, e);
    var w := Interleave(config, schedule);
    OwnCalls(w.executions[e].trace, w.executions[e].cid, Removed(w.executions[e]), i);
    forall f, j | f in w.executions && f != e && 0 <= j < |w.executions[f].trace|
      ensures !SpeaksOf(w.executions[f].trace[j], w.executions[e].trace[i].what.cid)
    {
      SoundAt(config, schedule, f);
      if w.executions[f].trace[j].what.Engine? {
        OwnCalls(w.executions[f].trace, w.executions[f].cid, Removed(w.executions[f]), j);
      }
    }
  }

  lemma OwnCalls(trace: seq<Call>, cid: Option<nat>, removed: bool, i: nat)
    requires EngineOk(trace, cid, removed) && CallsOk(trace) && i < |trace| && trace[i].what.Engine?
    ensures cid == Some(trace[i].what.cid)
    ensures trace[i].what.verb != Create ==> Call(Runner, Engine(Create, trace[i].what.cid)) in trace[..i]
    ensures trace[i].who == Canceller ==> trace[i].what.verb == Stop
  {
    assert trace[i].who == Canceller ==> CancellerSays(trace[i].what);
  }

  lemma RemovedOnce(trace: seq<Call>, cid: nat)
    requires EngineOk(trace, Some(cid), true)
    ensures exists i :: RemovedOnceAt(trace, cid, i)
  {
    var i :| 0 <= i < |trace| && trace[i] == Call(Runner, Engine(Remove, cid));
    assert IsEngine(trace[i], Remove);
    forall j | 0 <= j < |trace| && j != i ensures !IsEngine(trace[j], Remove) {
      assert if i < j then trace[j].who == Canceller || !trace[j].what.Engine? else true;
    }
    assert RemovedOnceAt(trace, cid, i);
  }

  /**
   Every container Docker created belongs to one execution, and when that execution's runner has
   returned it was removed once.
   */
  lemma EveryContainerIsRemovedOnce(config: Config, schedule: seq<Event>, cid: nat) returns (e: nat)
    requires cid in Interleave(config, schedule).containers
    ensures var w := Interleave(config, schedule);
      && e in w.executions && w.executions[e].cid == Some(cid) && w.executions[e].setup.mode == CreateMode
      && (w.executions[e].pc == Returned ==> exists i :: RemovedOnceAt(w.executions[e].trace, cid, i))
  {
    AllOwned(config, schedule);
    var w := Interleave(config, schedule);
    e :| e in w.executions && w.executions[e].cid == Some(cid);
    SoundAt(config, schedule, e);
    if w.executions[e].pc == Returned {
      RemovedOnce(w.executions[e].trace, cid);
    }
  }

  /** Once a runner has returned, neither map mentions its execution. */
  lemma ReturnedLeavesNoEntries(config: Config, schedule: seq<Event>, e: nat)
    requires e in Interleave(config, schedule).executions
    ensures var x := Interleave(config, schedule).executions[e];
      && (x.pc == Returned ==> x.owned.None? && !x.tracked)
      && (x.owned.Some? ==> x.owned == x.cid && x.tracked)
  {
    SoundAt(config, schedule, e);
  }

  // ----- Outcomes -----

  /** All that a runner reports when its outcome is `st`. */
  function FullReport(config: Config, created: bool, st: Status): seq<What> {
    [Write(Queued), Write(Running)] + (if created then [Write(Running)] else [])
    + [Write(st)] + (if config.notifier then [NotifyUser(st)] else [])
        + (if config.streams then [CompleteStream(st)] else [])
  }

  lemma SoundReports(config: Config, x: Execution)
    requires x.pc == Returned && !x.quit && OutcomeOk(x) && ReportsOk(config, x)
    ensures x.final.Some? && Terminal(x.final.value) && x.reported == FullReport(config, x.cid.Some?, x.final.value)
  {
    var st := x.final.value;
    assert Beginning(x) == [Write(Queued), Write(Running)] + (if x.cid.Some? then [Write(Running)] else []);
    assert Outcome(config, x) == [Write(st)] + Notice(config, st) + Farewell(config, st);
  }

  /**
   A runner that was not turned back at its check for a cancelled context reports queued,
   running once (twice if it got a container), one terminal status, then tells the user and
   then the stream the same status, whatever Docker and the database answered. It says
   "timed out" only past a deadline.
   */
  lemma ReturnedReportsOnce(config: Config, schedule: seq<Event>, e: nat) returns (st: Status)
    requires var w := Interleave(config, schedule);
      e in w.executions && w.executions[e].pc == Returned && !w.executions[e].quit
    ensures var x := Interleave(config, schedule).executions[e];
      && Terminal(st)
      && Reports(x.trace) == FullReport(config, x.cid.Some?, st)
      && (st == TimedOut ==> x.setup.timed && x.ctx == DeadlineExceeded)
  {
    SoundAt(config, schedule, e);
    var x := Interleave(config, schedule).executions[e];
    SoundReports(config, x);
    st := x.final.value;
  }

  /** Only a cancellation makes a runner return at that check; without one, the report is complete. */
  lemma QuitNeedsCancellation(config: Config, schedule: seq<Event>, e: nat)
    requires var w := Interleave(config, schedule); e in w.executions && w.executions[e].quit
    ensures var x := Interleave(config, schedule).executions[e];
      exists c :: 0 <= c < |x.cancels| && x.cancels[c].called
  {
    SoundAt(config, schedule, e);
  }

  /** Of a runner that has returned: the user hears nothing exactly when it returned at that check. */
  lemma SilentIffQuit(config: Config, schedule: seq<Event>, e: nat)
    requires config.notifier
    requires var w := Interleave(config, schedule); e in w.executions && w.executions[e].pc == Returned
    ensures var x := Interleave(config, schedule).executions[e];
      x.quit <==> forall i :: 0 <= i < |x.trace| ==> !x.trace[i].what.NotifyUser?
  {
    SoundAt(config, schedule, e);
    var x := Interleave(config, schedule).executions[e];
    if x.quit {
      QuitReports(config, x);
      NoReportNoCall(x.trace);
    } else {
      var st := ReturnedReportsOnce(config, schedule, e);
      assert NotifyUser(st) in FullReport(config, x.cid.Some?, st);
      ReportWasCalled(x.trace, NotifyUser(st));
    }
  }

  lemma {:induction false} ReportWasCalled(trace: seq<Call>, what: What)
    requires what in Reports(trace)
    ensures Call(Runner, what) in trace
  {
    if |trace| > 0 && trace[|trace| - 1] != Call(Runner, what) {
      ReportWasCalled(trace[..|trace| - 1], what);
    }
  }

  lemma {:induction false} CallIsReported(trace: seq<Call>, i: nat)
    requires i < |trace| && trace[i].who == Runner && IsReport(trace[i].what)
    ensures trace[i].what in Reports(trace)
  {
    if i < |trace| - 1 {
      CallIsReported(trace[..|trace| - 1], i);
    }
  }

  /** The user hears nothing, and the stream only "cancelled". */
  ghost predicate SaysOnlyCancelled(trace: seq<Call>) {
    && (forall i :: 0 <= i < |trace| ==> !trace[i].what.NotifyUser?)
    && (forall i :: 0 <= i < |trace| && trace[i].what.CompleteStream? ==> trace[i].what.status == Cancelled)
  }

  lemma NoReportNoCall(trace: seq<Call>)
    requires CallsOk(trace) && forall k :: 0 <= k < |Reports(trace)| ==> Reports(trace)[k].Write?
    ensures SaysOnlyCancelled(trace)
  {
    forall i | 0 <= i < |trace| && trace[i].who == Runner && IsReport(trace[i].what) ensures trace[i].what.Write? {
      CallIsReported(trace, i);
    }
  }

  // ----- Cancelled while draining -----

  /**
   A runner that returns at its check for a cancelled context sends no notification, and
   every completion of its stream says cancelled. If every cancellation that was let
   through began when the runner had reached its output, the stored status is cancelled
   exactly when one of them updated the record.
   */
  lemma CancelledWhileDraining(config: Config, schedule: seq<Event>, e: nat)
    requires var w := Interleave(config, schedule); e in w.executions && w.executions[e].quit
    ensures var x := Interleave(config, schedule).executions[e];
      && SaysOnlyCancelled(x.trace)
      && (AllLate(x) ==> (x.row == Cancelled <==> AnyWrote(x)))
      && (config.streams ==> forall c :: 0 <= c < |x.cancels| && x.cancels[c].wrote && x.cancels[c].pc == Over ==>
            Call(Canceller, CompleteStream(Cancelled)) in x.trace)
  {
    SoundAt(config, schedule, e);
    var x := Interleave(config, schedule).executions[e];
    QuitReports(config, x);
    NoReportNoCall(x.trace);
    WroteEnds(config, x);
  }

  lemma QuitReports(config: Config, x: Execution)
    requires x.quit && OutcomeOk(x) && ReportsOk(config, x)
    ensures forall k :: 0 <= k < |x.reported| ==> x.reported[k].Write?
  {
    assert Outcome(config, x) == [];
  }

  lemma WroteEnds(config: Config, x: Execution)
    requires CancelsOk(config, x)
    ensures config.streams ==> forall c :: 0 <= c < |x.cancels| && x.cancels[c].wrote && x.cancels[c].pc == Over ==>
      Call(Canceller, CompleteStream(Cancelled)) in x.trace
  {
    forall c | 0 <= c < |x.cancels| ensures CancelOk(config, x, x.cancels[c]) {}
  }

  // ----- One execution on its own -----

  /** One execution on its own, after the given steps. */
  function Alone(config: Config, setup: Setup, labels: seq<Label>): Execution {
    if |labels| == 0 then Launched(setup)
        else Step(config, Alone(config, setup, labels[..|labels| - 1]), labels[|labels| - 1])
  }

  lemma AloneSteps(config: Config, setup: Setup, labels: seq<Label>, l: Label)
    ensures Alone(config, setup, labels + [l]) == Step(config, Alone(config, setup, labels), l)
  {
    assert (labels + [l])[..|labels|] == labels;
  }

  lemma {:induction false} AloneSound(config: Config, setup: Setup, labels: seq<Label>)
    ensures Sound(config, Alone(config, setup, labels))
  {
    if |labels| == 0 {
      LaunchedSound(config, setup);
    } else {
      AloneSound(config, setup, labels[..|labels| - 1]);
      StepSound(config, Alone(config, setup, labels[..|labels| - 1]), labels[|labels| - 1]);
    }
  }

  /** What an execution goes through among others, it could go through alone. */
  lemma {:induction false} InterleavedIsAlone(config: Config, schedule: seq<Event>, e: nat)
      returns (setup: Setup, labels: seq<Label>)
    requires e in Interleave(config, schedule).executions
    ensures Interleave(config, schedule).executions[e] == Alone(config, setup, labels)
  {
    var earlier := schedule[..|schedule| - 1];
    var w := Interleave(config, earlier);
    var ev := schedule[|schedule| - 1];
    if e !in w.executions {
      setup, labels := ev.setup, [];
    } else {
      setup, labels := InterleavedIsAlone(config, earlier, e);
      if ev.At? && ev.e == e && !Repeats(w, w.executions[e], ev.step) {
        AloneSteps(config, setup, labels, ev.step);
        labels := labels + [ev.step];
      }
    }
  }

  // ----- What a cancellation at the wrong time does -----

  function AloneSchedule(setup: Setup, labels: seq<Label>): seq<Event> {
    if |labels| == 0 then [Launch(0, setup)]
        else AloneSchedule(setup, labels[..|labels| - 1]) + [At(0, labels[|labels| - 1])]
  }

  lemma {:induction false} AloneIsInterleaved(config: Config, setup: Setup, labels: seq<Label>)
    requires setup.mode == LogsMode
    ensures var w := Interleave(config, AloneSchedule(setup, labels));
      0 in w.executions && w.executions[0] == Alone(config, setup, labels)
    ensures Alone(config, setup, labels).setup == setup && Alone(config, setup, labels).pc != Creating
  {
    var s := AloneSchedule(setup, labels);
    if |labels| == 0 {
      assert s[..0] == [] && s[0] == Launch(0, setup);
      assert Interleave(config, s) == WorldStep(config, World(map[], {}), Launch(0, setup));
    } else {
      var earlier := labels[..|labels| - 1];
      AloneIsInterleaved(config, setup, earlier);
      assert s[..|s| - 1] == AloneSchedule(setup, earlier) && s[|s| - 1] == At(0, labels[|labels| - 1]);
      assert Interleave(config, s) == WorldStep(config, Interleave(config, s[..|s| - 1]), s[|s| - 1]);
      StaysLogs(config, Alone(config, setup, earlier), labels[|labels| - 1]);
    }
  }

  lemma StaysLogs(config: Config, x: Execution, l: Label)
    requires x.setup.mode == LogsMode && x.pc != Creating
    ensures Step(config, x, l).setup == x.setup && Step(config, x, l).pc != Creating
  {
    if !l.Run? { OthersKeepRunner(config, x, l); }
  }

  const YES: Answer := Answer(true, 0)
  const NO: Answer := Answer(false, 0)

  /** The execution with one cancellation, at `pc`. */
  function Cancelling(x: Execution, pc: CancelPc, called: bool, wrote: bool): Execution {
    x.(cancels := [CancelState(pc, true, DrainingOrLater(x.pc), called, wrote)],
       ctx := if called then CancelCalled else x.ctx)
  }

  lemma CancelFindsIt(config: Config, setup: Setup, labels: seq<Label>) returns (after: seq<Label>)
    requires var x := Alone(config, setup, labels);
      x.cancels == [] && x.owned.None? && x.tracked && (x.row == Queued || x.row == Running)
    ensures Alone(config, setup, after) == Cancelling(Alone(config, setup, labels), Calling, false, false)
  {
    var x := Alone(config, setup, labels);
    var read := labels + [Cancel];
    AloneSteps(config, setup, labels, Cancel);
    var looked := read + [CancelStep(0, YES)];
    AloneSteps(config, setup, read, CancelStep(0, YES));
    assert Alone(config, setup, looked) == Cancelling(x, LookingOwned, false, false);
    var found := looked + [CancelStep(0, YES)];
    AloneSteps(config, setup, looked, CancelStep(0, YES));
    assert Alone(config, setup, found) == Cancelling(x, LookingCancel, false, false);
    after := found + [CancelStep(0, YES)];
    AloneSteps(config, setup, found, CancelStep(0, YES));
  }

  lemma CancelCarriesOut(config: Config, setup: Setup, x: Execution, labels: seq<Label>) returns (after: seq<Label>)
    requires x.ctx == Live && Alone(config, setup, labels) == Cancelling(x, Calling, false, false)
    ensures var y := Alone(config, setup, after);
      SameRunner(x, y) && y.row == Cancelled && y.ctx == CancelCalled
      && y.cancels == Cancelling(x, Over, true, true).cancels
  {
    var called := labels + [CancelStep(0, YES)];
    AloneSteps(config, setup, labels, CancelStep(0, YES));
    assert Alone(config, setup, called) == Cancelling(x, WritingCancelled, true, false);
    var written := called + [CancelStep(0, YES)];
    AloneSteps(config, setup, called, CancelStep(0, YES));
    var told := x.(row := Cancelled, trace := x.trace + [Call(Canceller, Write(Cancelled))]);
    var z := Cancelling(told, Ending, true, true);
    assert Alone(config, setup, written) == z;
    after := written + [CancelStep(0, YES)];
    AloneSteps(config, setup, written, CancelStep(0, YES));
  }

  /** A Cancel that runs to its end while the runner waits. */
  lemma CancelRunsThrough(config: Config, setup: Setup, labels: seq<Label>) returns (after: seq<Label>)
    requires var x := Alone(config, setup, labels);
      x.cancels == [] && x.owned.None? && x.tracked && x.ctx == Live && (x.row == Queued || x.row == Running)
    ensures var x := Alone(config, setup, labels); var y := Alone(config, setup, after);
      && SameRunner(x, y) && y.row == Cancelled && y.ctx == CancelCalled
      && y.cancels == [CancelState(Over, true, DrainingOrLater(x.pc), true, true)]
  {
    var found := CancelFindsIt(config, setup, labels);
    after := CancelCarriesOut(config, setup, Alone(config, setup, labels), found);
  }

  /** The runner makes its next `n` steps, answered `YES` except at the end of the output. */
  lemma {:induction false} RunnerRuns(config: Config, setup: Setup, labels: seq<Label>, n: nat)
      returns (after: seq<Label>)
    ensures Alone(config, setup, after) == RunnerAfter(config, Alone(config, setup, labels), n)
    decreases n
  {
    after := labels;
    if n > 0 {
      var x := Alone(config, setup, labels);
      var l := Run(if x.pc == Draining then NO else YES);
      AloneSteps(config, setup, labels, l);
      assert Alone(config, setup, labels + [l]) == RunStep(config, x, l.answer);
      after := RunnerRuns(config, setup, labels + [l], n - 1);
    }
  }

  function RunnerAfter(config: Config, x: Execution, n: nat): Execution
    decreases n
  {
    if n == 0 then x else RunnerAfter(config, RunStep(config, x, if x.pc == Draining then NO else YES), n - 1)
  }

  /**
   A cancellation let through before the runner's "running" write is overwritten by it:
   when everything is over the record says running, although the cancellation succeeded and
   stopped the run.
   */
  lemma EarlyCancellationIsOverwritten(config: Config) returns (schedule: seq<Event>)
    ensures var w := Interleave(config, schedule); 0 in w.executions
    ensures var x := Interleave(config, schedule).executions[0];
      && x.pc == Returned && x.quit && x.cancels == [CancelState(Over, true, false, true, true)]
      && x.row == Running
  {
    var setup := Setup(LogsMode, false, false);
    var s1 := RunnerRuns(config, setup, [], 1);
    assert Alone(config, setup, s1) == RunStep(config, Launched(setup), YES);
    var s2 := CancelRunsThrough(config, setup, s1);
    var x := Alone(config, setup, s2);
    assert x.pc == WriteRunning && x.setup == setup;
    var s3 := RunnerRuns(config, setup, s2, 3);
    RunsToOutputEnd(config, x);
    var s4 := RunnerRuns(config, setup, s3, 3);
    RunsToQuit(config, Alone(config, setup, s3));
    AloneIsInterleaved(config, setup, s4);
    schedule := AloneSchedule(setup, s4);
  }

  /** A logs run up to the end of its output, after its first step. */
  lemma RunsToOutputEnd(config: Config, x: Execution)
    requires x.pc == WriteRunning && x.setup.mode == LogsMode
    ensures var y := RunnerAfter(config, x, 3);
      && y.pc == CheckDeadline && y.row == Running && y.ctx == x.ctx && y.cancels == x.cancels && y.setup == x.setup
      && y.cid == x.cid && y.owned == x.owned && y.tracked == x.tracked && y.quit == x.quit && y.final == x.final
  {
    var x1 := RunStep(config, x, YES);
    var x2 := RunStep(config, x1, YES);
    assert x2.pc == Draining;
    var x3 := RunStep(config, x2, NO);
    assert RunnerAfter(config, x, 3) == RunnerAfter(config, x1, 2);
    assert RunnerAfter(config, x1, 2) == RunnerAfter(config, x2, 1) == RunnerAfter(config, x3, 0);
  }

  lemma RunsToQuit(config: Config, x: Execution)
    requires x.pc == CheckDeadline && x.ctx == CancelCalled && x.cid.None?
    ensures var y := RunnerAfter(config, x, 3); y.pc == Returned && y.quit && y.row == x.row && y.cancels == x.cancels
  {
    var x1 := RunStep(config, x, YES);
    var x2 := RunStep(config, x1, YES);
    assert x2 == x.(pc := DropCancel, quit := true);
    var x3 := RunStep(config, x2, YES);
    assert RunnerAfter(config, x, 3) == RunnerAfter(config, x1, 2);
    assert RunnerAfter(config, x1, 2) == RunnerAfter(config, x2, 1) == RunnerAfter(config, x3, 0);
  }

  /**
   A cancellation let through after the runner's check changes nothing of what follows: it
   succeeds and writes cancelled, but the record then says completed, and the user hears so.
   */
  lemma CancellationAfterCheckIsLost(config: Config) returns (schedule: seq<Event>)
    ensures var w := Interleave(config, schedule); 0 in w.executions
    ensures var x := Interleave(config, schedule).executions[0];
      && x.pc == Returned && !x.quit && x.cancels == [CancelState(Over, true, true, true, true)]
      && x.row == Completed
  {
    var setup := Setup(LogsMode, false, false);
    var s3 := RunsToFinalWrite(config, setup);
    var s4 := CancelRunsThrough(config, setup, s3);
    var s6 := RunsToEnd(config, setup, s4);
    AloneIsInterleaved(config, setup, s6);
    schedule := AloneSchedule(setup, s6);
  }

  lemma RunsToFinalWrite(config: Config, setup: Setup) returns (after: seq<Label>)
    requires setup == Setup(LogsMode, false, false)
    ensures var x := Alone(config, setup, after);
      && x.pc == WriteFinal(Completed) && x.cancels == [] && x.owned.None? && x.tracked && x.ctx == Live
          && x.row == Running
      && x.cid.None? && !x.quit
  {
    var s1 := RunnerRuns(config, setup, [], 1);
    assert Alone(config, setup, s1) == RunStep(config, Launched(setup), YES);
    var s2 := RunnerRuns(config, setup, s1, 3);
    RunsToOutputEnd(config, Alone(config, setup, s1));
    after := RunnerRuns(config, setup, s2, 2);
    RunsPastCheck(config, Alone(config, setup, s2));
  }

  lemma RunsToEnd(config: Config, setup: Setup, labels: seq<Label>) returns (after: seq<Label>)
    requires var x := Alone(config, setup, labels); x.pc == WriteFinal(Completed) && x.cid.None? && !x.quit
    ensures var x := Alone(config, setup, labels); var y := Alone(config, setup, after);
      y.pc == Returned && !y.quit && y.row == Completed && y.cancels == x.cancels
  {
    var s5 := RunnerRuns(config, setup, labels, 2);
    RunsToStream(config, Alone(config, setup, labels));
    after := RunnerRuns(config, setup, s5, 2);
    RunsToCompletion(config, Alone(config, setup, s5));
  }

  lemma RunsPastCheck(config: Config, x: Execution)
    requires x.pc == CheckDeadline && x.ctx == Live && x.setup.mode == LogsMode
    ensures RunnerAfter(config, x, 2) == x.(pc := WriteFinal(Completed))
  {
    var x1 := RunStep(config, x, YES);
    assert x1 == x.(pc := CheckCancelled);
    assert RunnerAfter(config, x, 2) == RunnerAfter(config, x1, 1) == RunnerAfter(config, RunStep(config, x1, YES), 0);
  }

  lemma RunsToStream(config: Config, x: Execution)
    requires x.pc == WriteFinal(Completed) && x.cid.None? && !x.quit
    ensures var y := RunnerAfter(config, x, 2);
      y.pc == EndStream(Completed) && !y.quit && y.row == Completed && y.cid.None? && y.cancels == x.cancels
  {
    var x1 := RunStep(config, x, YES);
    var x2 := RunStep(config, x1, YES);
    assert RunnerAfter(config, x, 2) == RunnerAfter(config, x1, 1) == RunnerAfter(config, x2, 0);
  }

  lemma RunsToCompletion(config: Config, x: Execution)
    requires x.pc == EndStream(Completed) && x.cid.None? && !x.quit
    ensures var y := RunnerAfter(config, x, 2); y.pc == Returned && !y.quit && y.row == x.row && y.cancels == x.cancels
  {
    var x1 := RunStep(config, x, YES);
    var x2 := RunStep(config, x1, YES);
    assert RunnerAfter(config, x, 2) == RunnerAfter(config, x1, 1) == RunnerAfter(config, x2, 0);
  }
}

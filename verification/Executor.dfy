/**
 The executor's code: the three ways to run an execution, and CancelExecution, each proved
 to take exactly the steps that the interleaving model gives its goroutine, while all the
 other goroutines take steps of theirs in between.
 */
module Executor {
  import opened Wrappers
  import opened ExecutorSpec
  import opened ExecutorRuns
  import opened ExecutorLaws
  import opened Completion
  import opened Streamed
  import opened StreamedLaws
  import opened Outcomes
  import StreamSpec

  /** What happens at one action of a goroutine: first others move, then it is answered. */
  datatype Turn = Turn(others: seq<Move>, answer: Answer)

  datatype CancelResult = Done | NotFound | Conflict | LookupFailed | UpdateFailed

  predicate WritesNow(pc: Pc, record: Status) {
    pc == WriteFinal(record) || (record == Running && (pc == WriteRunning || pc == WriteContainer))
  }

  function AfterWrite(mode: Mode, pc: Pc, record: Status): Pc {
    match pc
    case WriteRunning =>
      (match mode case CreateMode => Creating case ExecMode => ExecCreating case LogsMode => Attaching)
    case WriteContainer => StoreOwned
    case _ => Notifying(record)
  }

  function AfterCheck(mode: Mode): Pc {
    match mode
    case CreateMode => Copying(Completed)
    case ExecMode => Inspecting
    case LogsMode => WriteFinal(Completed)
  }

  lemma WriteIsAStep(config: Config, x: Execution, record: Status, a: Answer, next: Pc)
    requires WritesNow(x.pc, record) && next == AfterWrite(x.setup.mode, x.pc, record)
    ensures Step(config, x, Run(a)) == WriteRow(x, record, a.ok, next)
  {
  }

  lemma CopyIsAStep(config: Config, x: Execution, record: Status, a: Answer)
    requires x.pc == Copying(record)
    ensures Step(config, x, Run(a)) ==
      if x.setup.copies then Docker(x, CopyFrom, WriteFinal(record)) else x.(pc := WriteFinal(record))
  {
  }

  lemma AttachIsAStep(config: Config, x: Execution, a: Answer)
    requires x.pc == Attaching
    ensures Step(config, x, Run(a)) ==
      Docker(x, Attach, if a.ok then Draining else if x.cid.Some? then StopUnattached else WriteFinal(Failed))
  {
  }

  lemma NotifyIsAStep(config: Config, x: Execution, record: Status, a: Answer)
    requires x.pc == Notifying(record)
    ensures Step(config, x, Run(a)) ==
      if config.notifier then Report(x, NotifyUser(record), EndStream(record)) else x.(pc := EndStream(record))
  {
  }

  lemma EndStreamIsAStep(config: Config, x: Execution, record: Status, a: Answer)
    requires x.pc == EndStream(record)
    ensures Step(config, x, Run(a)) == EndStreamStep(config, x.(final := Some(record)), record)
  {
  }

  /** Receiving a chunk, as a move. */
  lemma ReceivingIsAMove(config: Config, json: Status -> string, setup: Setup, moves: seq<Move>, text: string)
    requires var p := Together(config, json, setup, moves); p.x.pc == Draining && p.chunk.None?
    ensures var p, q := Together(config, json, setup, moves),
                        Together(config, json, setup, moves + [Act(Run(Answer(true, 0)), text)]);
      q == p.(chunk := if config.streams then Some(text) else None)
    ensures var start := Pair(Launched(setup), StreamSpec.Init(), None);
      Taken(config, json, start, moves + [Act(Run(Answer(true, 0)), text)]) ==
        Taken(config, json, start, moves) + if config.streams then [text] else []
  {
    var m := Act(Run(Answer(true, 0)), text);
    var p := Together(config, json, setup, moves);
    TogetherSteps(config, json, setup, moves, m);
    assert (moves + [m])[..|moves|] == moves;
    assert RunStep(config, p.x, Answer(true, 0)) == p.x;
  }

  lemma PublishingIsAMove(config: Config, json: Status -> string, setup: Setup, moves: seq<Move>, a: Answer)
    requires Together(config, json, setup, moves).chunk.Some?
    ensures Together(config, json, setup, moves + [Act(Run(a), "")]) == Send(Together(config, json, setup, moves))
    ensures var start := Pair(Launched(setup), StreamSpec.Init(), None);
      Taken(config, json, start, moves + [Act(Run(a), "")]) == Taken(config, json, start, moves)
  {
    TogetherSteps(config, json, setup, moves, Act(Run(a), ""));
    assert (moves + [Act(Run(a), "")])[..|moves|] == moves;
  }

  lemma NoChunkElsewhere(config: Config, json: Status -> string, setup: Setup, moves: seq<Move>)
    ensures var p := Together(config, json, setup, moves); p.x.pc != Draining ==> p.chunk.None?
  {
    TogetherOk(config, json, setup, moves);
  }

  lemma EndStreamIsAMove(config: Config, json: Status -> string, setup: Setup, moves: seq<Move>, record: Status,
      a: Answer)
    requires var p := Together(config, json, setup, moves);
      p.x.pc == EndStream(record) && config.streams && !p.s.stuck
    ensures var start := Pair(Launched(setup), StreamSpec.Init(), None);
      Taken(config, json, start, moves + [Act(Run(a), "")]) == Taken(config, json, start, moves)
    ensures var p := Together(config, json, setup, moves);
      Together(config, json, setup, moves + [Act(Run(a), "")]) ==
        Pair(Report(p.x.(final := Some(record)), CompleteStream(record), Unwind(p.x)),
             StreamSpec.Step(p.s, StreamSpec.Complete(json(record))), p.chunk)
  {
    TogetherSteps(config, json, setup, moves, Act(Run(a), ""));
    NoChunkElsewhere(config, json, setup, moves);
    EndStreamIsAStep(config, Together(config, json, setup, moves).x, record, a);
    assert (moves + [Act(Run(a), "")])[..|moves|] == moves;
    hide Step;
  }

  /** What a runner that has returned leaves behind. */
  ghost predicate EndsWell(config: Config, x: Execution) {
    && x.owned.None? && !x.tracked
    && (x.cid.Some? ==> exists i :: RemovedOnceAt(x.trace, x.cid.value, i))
    && (!x.quit ==>
         x.final.Some? && Terminal(x.final.value) && Reports(x.trace) == FullReport(config, x.cid.Some?, x.final.value))
    && (x.quit ==> QuitWell(x))
  }

  ghost predicate QuitWell(x: Execution) {
    AnyCalled(x) && SaysOnlyCancelled(x.trace) && (AllLate(x) ==> (x.row == Cancelled <==> AnyWrote(x)))
  }

  lemma ReturnedEndsWell(config: Config, json: Status -> string, setup: Setup, moves: seq<Move>)
    requires Together(config, json, setup, moves).x.pc == Returned
    ensures var p := Together(config, json, setup, moves);
      && EndsWell(config, p.x) && (config.streams ==> StreamEnds(json, p))
      && (!p.x.quit ==>
           p.x.final.Some? && Earned(setup.mode, p.x.final.value, HeardTogether(config, json, setup, moves)))
  {
    TogetherOk(config, json, setup, moves);
    StreamedOutcomeIsEarned(config, json, setup, moves);
    SoundEndsWell(config, Together(config, json, setup, moves).x);
    if config.streams { StreamSaysOutcome(config, json, setup, moves); }
  }

  lemma SoundEndsWell(config: Config, x: Execution)
    requires Sound(config, x) && x.pc == Returned
    ensures EndsWell(config, x)
  {
    if x.cid.Some? { RemovedOnce(x.trace, x.cid.value); }
    if x.quit { QuitIsWell(config, x); } else { SoundReports(config, x); }
  }

  lemma QuitIsWell(config: Config, x: Execution)
    requires x.quit && OutcomeOk(x) && ReportsOk(config, x) && CallsOk(x.trace) && Reports(x.trace) == x.reported
    requires ReasonOk(x) && (x.ctx == CancelCalled ==> AnyCalled(x)) && RowOk(x)
    ensures QuitWell(x)
  {
    QuitReports(config, x);
    NoReportNoCall(x.trace);
  }

  /** A call waits for a stream's lock, which is lost; what the runner has put off until it returns is not done. */
  ghost predicate Hangs(config: Config, p: Pair) {
    && Waits(config, p)
    && p.x.tracked && p.x.owned == p.x.cid
    && forall i :: 0 <= i < |p.x.trace| ==> !IsEngine(p.x.trace[i], Remove)
  }

  lemma WaitingHangs(config: Config, json: Status -> string, setup: Setup, moves: seq<Move>)
    requires Waits(config, Together(config, json, setup, moves))
    ensures Hangs(config, Together(config, json, setup, moves))
  {
    WaitsForever(config, json, setup, moves, []);
    assert moves + [] == moves;
  }

  /**
   One execution, its stream, and all goroutines that work on them. `status` is the stored
   record's; `owned` and `tracked` are its entries in the two maps; `at` is where the runner
   is, `chunk` what it is publishing, and `cancels` where the cancellations are; `calls` is
   what the collaborators were asked.
   */
  class Job {
    const config: Config
    const setup: Setup
    const turns: nat -> Turn
    const json: Status -> string

    var clock: nat
    var at: Pc
    var ctx: Ctx
    var cid: Option<nat>
    var final: Option<Status>
    var quit: bool
    var status: Status
    var owned: Option<nat>
    var tracked: bool
    var cancels: seq<CancelState>
    var calls: seq<Call>
    var reported: seq<What>
    var stream: StreamSpec.Stream
    var chunk: Option<string>
    ghost var moves: seq<Move>

    function View(): Execution
      reads this
    {
      Execution(setup, at, ctx, cid, final, quit, status, owned, tracked, cancels, calls, reported)
    }

    function Both(): Pair
      reads this
    {
      Pair(View(), stream, chunk)
    }

    /** The state is one that the steps in `moves` lead to. */
    ghost predicate Valid()
      reads this
    {
      Both() == Together(config, json, setup, moves)
    }

    /** What the runner has been answered. */
    ghost function HeardSoFar(): Heard
      reads this
    {
      HeardTogether(config, json, setup, moves)
    }

    /** The chunks it has received to publish. */
    ghost function Texts(): seq<string>
      reads this
    {
      Taken(config, json, Pair(Launched(setup), StreamSpec.Init(), None), moves)
    }

    /** ExecuteCommand stored the record and is about to start the runner. */
    constructor (config: Config, setup: Setup, turns: nat -> Turn, json: Status -> string)
      ensures Valid() && at == Begin && this.config == config && this.setup == setup && this.turns == turns
          && this.json == json
    {
      this.config, this.setup, this.turns, this.json := config, setup, turns, json;
      clock, at, ctx, cid, final, quit := 0, Begin, Live, None, None, false;
      status, owned, tracked, cancels := Queued, None, false, [];
      calls, reported, moves := [Call(Runner, Write(Queued))], [Write(Queued)], [];
      stream, chunk := StreamSpec.Init(), None;
    }

    /** One step of another goroutine. */
    method Other(m: Move)
      requires Valid()
      modifies this
      ensures Valid() && Both() == Next(config, json, old(Both()), m) && clock == old(clock)
      ensures m.Look? || !m.step.Run? ==> Texts() == old(Texts())
    {
      var p := Next(config, json, Both(), m);
      TogetherSteps(config, json, setup, moves, m);
      NextKeepsSetup(config, json, Both(), m);
      assert (moves + [m])[..|moves|] == moves;
      moves := moves + [m];
      Become(p);
    }

    method Become(p: Pair)
      requires p.x.setup == setup
      modifies this`at, this`ctx, this`cid, this`final, this`quit, this`status, this`stream, this`chunk
      modifies this`owned, this`tracked, this`cancels, this`calls, this`reported
      ensures Both() == p
    {
      at, ctx, cid, final, quit, status := p.x.pc, p.x.ctx, p.x.cid, p.x.final, p.x.quit, p.x.row;
      owned, tracked, cancels, calls, reported := p.x.owned, p.x.tracked, p.x.cancels, p.x.trace, p.x.reported;
      stream, chunk := p.s, p.chunk;
    }

    /** A goroutine took a step that is no call to the stream. */
    ghost method Moved(before: Execution, l: Label)
      requires Pair(before, stream, chunk) == Together(config, json, setup, moves)
      requires !Receives(config, before, l) && Completes(config, before, l).None?
      requires l.Run? && before.pc == Draining ==> chunk.None?
      requires View() == Step(config, before, l)
      modifies this`moves
      ensures Valid() && Texts() == old(Texts())
      ensures HeardSoFar() == Note(before, l, old(HeardSoFar()))
    {
      TogetherOk(config, json, setup, moves);
      TogetherSteps(config, json, setup, moves, Act(l, ""));
      assert (moves + [Act(l, "")])[..|moves|] == moves;
      moves := moves + [Act(l, "")];
    }

    // ----- What the runner's code is made of: one action, at its turn -----

    /** The runner waits for its turn while others move. */
    method Await() returns (a: Answer)
      requires Valid()
      modifies this
      ensures Valid() && SameRunner(old(View()), View()) && chunk == old(chunk) && old(calls) <= calls
      ensures Texts() == old(Texts()) && a == turns(old(clock)).answer && clock == old(clock) + 1
    {
      var others := turns(clock).others;
      var i := 0;
      while i < |others|
        invariant i <= |others| && Valid() && SameRunner(old(View()), View()) && chunk == old(chunk)
            && old(calls) <= calls && Texts() == old(Texts()) && clock == old(clock)
      {
        if others[i].Look? || !others[i].step.Run? {
          OthersKeepPlace(config, json, Both(), others[i]);
          Other(others[i]);
        }
        i := i + 1;
      }
      a := turns(clock).answer;
      clock := clock + 1;
    }

    /** Everything but the runner's place and its output is as before, and calls are only added. */
    twostate predicate Stays()
      reads this
    {
      && cid == old(cid) && final == old(final) && quit == old(quit) && owned == old(owned) && tracked == old(tracked)
      && old(calls) <= calls
    }

    twostate predicate OnlyMoved()
      reads this
    {
      Stays() && Texts() == old(Texts())
    }

    /** This call was made since. */
    twostate predicate Asked(call: Call)
      reads this
    {
      exists i :: |old(calls)| <= i < |calls| && calls[i] == call
    }

    method StoreCancel()
      requires Valid() && at == Begin
      modifies this
      ensures Valid() && at == WriteRunning && cid == old(cid) && quit == old(quit)
      ensures tracked && Texts() == old(Texts())
    {
      var a := Await();
      ghost var before := View();
      tracked := true;
      at := WriteRunning;
      assert View() == RunStep(config, before, a);
      Moved(before, Run(a));
    }

    method UpdateRecord(record: Status)
      requires Valid() && WritesNow(at, record)
      modifies this
      ensures Valid() && OnlyMoved()
      ensures at == AfterWrite(setup.mode, old(at), record)
      ensures turns(old(clock)).answer.ok ==> status == record
      ensures Asked(Call(Runner, Write(record)))
    {
      var a := Await();
      ghost var before := View();
      var next := AfterWrite(setup.mode, at, record);
      WriteIsAStep(config, before, record, a, next);
      hide Step;
      Tell(Write(record), next);
      assert calls[|calls| - 1] == Call(Runner, Write(record));
      if a.ok {
        status := record;
      }
      assert View() == WriteRow(before, record, a.ok, next);
      Moved(before, Run(a));
    }

    method CreateContainer() returns (ok: bool)
      requires Valid() && at == Creating && cid.None?
      modifies this
      ensures Valid() && quit == old(quit)
      ensures ok ==> at == WriteContainer && cid.Some?
      ensures !ok ==> at == WriteFinal(Failed) && cid.None?
      ensures ok == turns(old(clock)).answer.ok
      ensures ok ==> cid == Some(turns(old(clock)).answer.n) && Asked(Call(Runner, Engine(Create, cid.value)))
      ensures Texts() == old(Texts()) && old(calls) <= calls
    {
      var a := Await();
      ghost var before := View();
      ok := a.ok;
      if ok {
        cid := Some(a.n);
        calls := calls + [Call(Runner, Engine(Create, a.n))];
        assert calls[|calls| - 1] == Call(Runner, Engine(Create, a.n));
        at := WriteContainer;
      } else {
        at := WriteFinal(Failed);
      }
      assert View() == RunStep(config, before, a);
      Moved(before, Run(a));
    }

    method StoreOwnedContainer(containerID: nat)
      requires Valid() && at == StoreOwned && cid == Some(containerID)
      modifies this
      ensures Valid() && at == Starting && cid == old(cid) && quit == old(quit)
      ensures owned == Some(containerID) && Texts() == old(Texts()) && old(calls) <= calls
    {
      var a := Await();
      ghost var before := View();
      owned := Some(containerID);
      at := Starting;
      assert View() == RunStep(config, before, a);
      Moved(before, Run(a));
    }

    method StartContainer(containerID: nat) returns (ok: bool)
      requires Valid() && at == Starting && cid == Some(containerID)
      modifies this
      ensures Valid() && OnlyMoved() && at == if ok then Attaching else WriteFinal(Failed)
      ensures ok == turns(old(clock)).answer.ok && Asked(Call(Runner, Engine(Start, containerID)))
    {
      var a := Await();
      ghost var before := View();
      ok := a.ok;
      calls := calls + [Call(Runner, Engine(Start, containerID))];
      assert calls[|calls| - 1] == Call(Runner, Engine(Start, containerID));
      at := if ok then Attaching else WriteFinal(Failed);
      assert View() == RunStep(config, before, a);
      Moved(before, Run(a));
    }

    method ExecInContainer() returns (ok: bool)
      requires Valid() && at == ExecCreating
      modifies this
      ensures Valid() && OnlyMoved() && at == if ok then Attaching else WriteFinal(Failed)
      ensures ok == turns(old(clock)).answer.ok
    {
      var a := Await();
      ghost var before := View();
      ok := a.ok;
      at := if ok then Attaching else WriteFinal(Failed);
      assert View() == RunStep(config, before, a);
      Moved(before, Run(a));
    }

    /** AttachStream on the container the runner created; AttachExecStream or ContainerLogs on one that it did not. */
    method AttachOutput() returns (ok: bool)
      requires Valid() && at == Attaching
      modifies this
      ensures Valid() && OnlyMoved()
      ensures ok ==> chunk.None?
      ensures at == if ok then Draining else if cid.Some? then StopUnattached else WriteFinal(Failed)
      ensures ok == turns(old(clock)).answer.ok && (cid.Some? ==> Asked(Call(Runner, Engine(Attach, cid.value))))
    {
      var a := Await();
      NoChunkElsewhere(config, json, setup, moves);
      ghost var before := View();
      AttachIsAStep(config, before, a);
      hide Step;
      ok := a.ok;
      if cid.Some? {
        calls := calls + [Call(Runner, Engine(Attach, cid.value))];
        assert calls[|calls| - 1] == Call(Runner, Engine(Attach, cid.value));
      }
      at := if ok then Draining else if cid.Some? then StopUnattached else WriteFinal(Failed);
      Moved(before, Run(a));
    }

    method StopContainer(containerID: nat)
      requires Valid() && (at == StopUnattached || at == StopTimedOut) && cid == Some(containerID)
      modifies this
      ensures Valid() && OnlyMoved() && at == WriteFinal(if old(at) == StopUnattached then Failed else TimedOut)
      ensures Asked(Call(Runner, Engine(Stop, containerID)))
    {
      var a := Await();
      ghost var before := View();
      calls := calls + [Call(Runner, Engine(Stop, containerID))];
      assert calls[|calls| - 1] == Call(Runner, Engine(Stop, containerID));
      at := WriteFinal(if at == StopUnattached then Failed else TimedOut);
      assert View() == RunStep(config, before, a);
      Moved(before, Run(a));
    }

    /** Receives a chunk from the output channel. */
    method ReceiveChunk(text: string)
      requires Valid() && at == Draining && chunk.None?
      modifies this
      ensures Valid() && Stays() && at == Draining
      ensures chunk == if config.streams then Some(text) else None
      ensures Texts() == old(Texts()) + if config.streams then [text] else []
    {
      var a := Await();
      ReceivingIsAMove(config, json, setup, moves, text);
      moves := moves + [Act(Run(Answer(true, 0)), text)];
      hide Together, Taken;
      if config.streams {
        chunk := Some(text);
      }
    }

    /** Publishes the chunk, or waits for ever. */
    method PublishChunk() returns (returned: bool)
      requires Valid() && at == Draining && chunk.Some? && config.streams
      modifies this
      ensures Valid() && OnlyMoved() && at == Draining
      ensures if returned then chunk.None? else Waits(config, Both())
    {
      var a := Await();
      returned := !stream.stuck;
      PublishingIsAMove(config, json, setup, moves, a);
      moves := moves + [Act(Run(a), "")];
      hide Together, Taken;
      if returned {
        stream := StreamSpec.Step(stream, StreamSpec.Publish(chunk.value));
        chunk := None;
      }
    }

    /** Finds the output channel closed. */
    method OutputClosed()
      requires Valid() && at == Draining && chunk.None?
      modifies this
      ensures Valid() && OnlyMoved() && at == CheckDeadline
    {
      var a := Await();
      ghost var before := View();
      at := CheckDeadline;
      assert View() == RunStep(config, before, Answer(false, 0));
      Moved(before, Run(Answer(false, 0)));
    }

    /** The stream was given the first part of this output, or, when `all`, the whole of it. */
    twostate predicate Gave(output: seq<string>, all: bool)
      reads this
    {
      config.streams ==>
        && old(Texts()) <= Texts() <= old(Texts()) + output
        && (all ==> Texts() == old(Texts()) + output)
    }

    /**
     Drains the output channel, on which `output` arrives, and publishes it chunk by chunk;
     which texts captureOutput returns is the subject of module Capture.
     */
    method CaptureOutput(output: seq<string>) returns (returned: bool)
      requires Valid() && at == Draining && chunk.None?
      modifies this
      ensures Valid() && Stays() && Gave(output, returned)
      ensures if returned then at == CheckDeadline else Waits(config, Both())
    {
      var i := 0;
      assert output[..0] == [];
      while i < |output|
        invariant i <= |output| && Valid() && Stays() && at == Draining && chunk.None?
        invariant config.streams ==> Texts() == old(Texts()) + output[..i]
      {
        assert output[..i + 1] == output[..i] + [output[i]];
        ReceiveChunk(output[i]);
        if config.streams {
          assert Texts() == old(Texts()) + output[..i + 1];
          var published := PublishChunk();
          if !published {
            return false;
          }
        }
        i := i + 1;
      }
      assert output[..|output|] == output;
      OutputClosed();
      return true;
    }

    /** Looks whether the context's deadline has passed. */
    method DeadlineExceededNow() returns (yes: bool)
      requires Valid() && at == CheckDeadline
      modifies this
      ensures Valid() && OnlyMoved()
      ensures at == if !yes then CheckCancelled else if cid.Some? then StopTimedOut else WriteFinal(TimedOut)
      ensures yes <==> ctx == DeadlineExceeded
    {
      var a := Await();
      ghost var before := View();
      yes := ctx == DeadlineExceeded;
      at := if !yes then CheckCancelled else if cid.Some? then StopTimedOut else WriteFinal(TimedOut);
      assert View() == RunStep(config, before, a);
      Moved(before, Run(a));
    }

    /** Looks whether the context was cancelled, after which the runner only unwinds. */
    method CancelledNow() returns (yes: bool)
      requires Valid() && at == CheckCancelled && !quit
      modifies this
      ensures Valid() && cid == old(cid) && final == old(final) && quit == yes
      ensures at == if yes then if cid.Some? then Removing else DropCancel
        else AfterCheck(setup.mode)
      ensures yes <==> ctx == CancelCalled
      ensures Texts() == old(Texts()) && old(calls) <= calls
    {
      var a := Await();
      ghost var before := View();
      yes := ctx == CancelCalled;
      if yes {
        quit := true;
        at := if cid.Some? then Removing else DropCancel;
      } else {
        at := AfterCheck(setup.mode);
      }
      assert View() == RunStep(config, before, a);
      Moved(before, Run(a));
    }

    method InspectExec() returns (ok: bool, exitCode: nat)
      requires Valid() && at == Inspecting
      modifies this
      ensures Valid() && OnlyMoved()
      ensures at == if !ok then WriteFinal(Failed) else Copying(if exitCode == 0 then Completed else Failed)
      ensures ok == turns(old(clock)).answer.ok && exitCode == turns(old(clock)).answer.n
    {
      var a := Await();
      ghost var before := View();
      ok, exitCode := a.ok, a.n;
      at := if !ok then WriteFinal(Failed) else Copying(if exitCode == 0 then Completed else Failed);
      assert View() == RunStep(config, before, a);
      Moved(before, Run(a));
    }

    /** Artifacts come from the container the runner created, or from the target container, which it did not. */
    method CopyArtifacts(record: Status)
      requires Valid() && at == Copying(record)
      modifies this
      ensures Valid() && OnlyMoved() && at == WriteFinal(record)
      ensures setup.copies && cid.Some? ==> Asked(Call(Runner, Engine(CopyFrom, cid.value)))
    {
      var a := Await();
      ghost var before := View();
      CopyIsAStep(config, before, record, a);
      hide Step;
      if setup.copies && cid.Some? {
        CopyFromContainer(cid.value, WriteFinal(record));
      } else {
        at := WriteFinal(record);
      }
      Moved(before, Run(a));
    }

    method CopyFromContainer(containerID: nat, next: Pc)
      requires cid == Some(containerID)
      modifies this`calls, this`at
      ensures View() == Docker(old(View()), CopyFrom, next)
      ensures calls == old(calls) + [Call(Runner, Engine(CopyFrom, containerID))] && Asked(calls[|calls| - 1])
    {
      calls, at := calls + [Call(Runner, Engine(CopyFrom, containerID))], next;
    }

    /** Calls the user or the stream, and goes on to `next`. */
    method Tell(what: What, next: Pc)
      modifies this`calls, this`reported, this`at
      ensures View() == Report(old(View()), what, next)
    {
      calls, reported, at := calls + [Call(Runner, what)], reported + [what], next;
    }

    method NotifyCompletion(record: Status)
      requires Valid() && at == Notifying(record)
      modifies this
      ensures Valid() && OnlyMoved() && at == EndStream(record)
      ensures config.notifier ==> Asked(Call(Runner, NotifyUser(record)))
    {
      var a := Await();
      ghost var before := View();
      NotifyIsAStep(config, before, record, a);
      hide Step;
      if config.notifier {
        Tell(NotifyUser(record), EndStream(record));
        assert calls[|calls| - 1] == Call(Runner, NotifyUser(record));
      } else {
        at := EndStream(record);
      }
      Moved(before, Run(a));
    }

    /** Completes the stream, or waits for ever. */
    method SignalStreamComplete(record: Status) returns (returned: bool)
      requires Valid() && at == EndStream(record)
      modifies this
      ensures Valid() && cid == old(cid) && quit == old(quit) && old(calls) <= calls
      ensures returned ==> final == Some(record) && at == if cid.Some? then Removing else DropCancel
      ensures !returned ==> Waits(config, Both())
      ensures Texts() == old(Texts())
      ensures returned && config.streams ==> Asked(Call(Runner, CompleteStream(record)))
    {
      var a := Await();
      returned := !config.streams || !stream.stuck;
      if returned {
        Ended(record, a);
      }
    }

    /** The last step with an outcome. */
    method Ended(record: Status, a: Answer)
      requires Valid() && at == EndStream(record) && !(config.streams && stream.stuck)
      modifies this
      ensures Valid() && cid == old(cid) && quit == old(quit) && old(calls) <= calls
      ensures final == Some(record) && at == if cid.Some? then Removing else DropCancel
      ensures Texts() == old(Texts())
      ensures config.streams ==> Asked(Call(Runner, CompleteStream(record)))
    {
      if config.streams {
        CompleteStreamWith(record, a);
      } else {
        ghost var before := View();
        EndStreamIsAStep(config, before, record, a);
        hide Step;
        final := Some(record);
        at := if cid.Some? then Removing else DropCancel;
        Moved(before, Run(a));
      }
    }

    method CompleteStreamWith(record: Status, a: Answer)
      requires Valid() && at == EndStream(record) && config.streams && !stream.stuck
      modifies this
      ensures Valid() && cid == old(cid) && quit == old(quit) && old(calls) <= calls
      ensures final == Some(record) && at == if cid.Some? then Removing else DropCancel
      ensures Texts() == old(Texts())
      ensures Asked(Call(Runner, CompleteStream(record)))
    {
      ghost var before := View();
      EndStreamIsAMove(config, json, setup, moves, record, a);
      hide Together;
      final := Some(record);
      Tell(CompleteStream(record), if cid.Some? then Removing else DropCancel);
      assert calls[|calls| - 1] == Call(Runner, CompleteStream(record));
      stream := StreamSpec.Step(stream, StreamSpec.Complete(json(record)));
      moves := moves + [Act(Run(a), "")];
      assert View() == Report(before.(final := Some(record)), CompleteStream(record), Unwind(before));
    }

    method RemoveContainer(containerID: nat)
      requires Valid() && at == Removing && cid == Some(containerID)
      modifies this
      ensures Valid() && OnlyMoved() && at == DropOwned
      ensures Asked(Call(Runner, Engine(Remove, containerID)))
    {
      var a := Await();
      ghost var before := View();
      calls := calls + [Call(Runner, Engine(Remove, containerID))];
      assert calls[|calls| - 1] == Call(Runner, Engine(Remove, containerID));
      at := DropOwned;
      assert View() == RunStep(config, before, a);
      Moved(before, Run(a));
    }

    method DeleteOwnedContainer()
      requires Valid() && at == DropOwned
      modifies this
      ensures Valid() && at == DropCancel && cid == old(cid) && final == old(final) && quit == old(quit)
      ensures owned.None? && Texts() == old(Texts())
    {
      var a := Await();
      ghost var before := View();
      owned := None;
      at := DropCancel;
      assert View() == RunStep(config, before, a);
      Moved(before, Run(a));
    }

    method DeleteCancel()
      requires Valid() && at == DropCancel
      modifies this
      ensures Valid() && at == Returned && cid == old(cid) && final == old(final) && quit == old(quit)
      ensures !tracked && Texts() == old(Texts())
    {
      var a := Await();
      ghost var before := View();
      tracked := false;
      at := Returned;
      assert View() == RunStep(config, before, a);
      Moved(before, Run(a));
    }

    // ----- The ways to end. A call that does not return is one that waits for ever -----

    /** How a runner comes to its deferred calls with an outcome, unless a call does not return. */
    twostate predicate Concluded(record: Status, returned: bool)
      reads this
    {
      && cid == old(cid) && quit == old(quit) && old(calls) <= calls && Texts() == old(Texts())
      && (returned ==> final == Some(record) && at == if cid.Some? then Removing else DropCancel)
      && (!returned ==> Waits(config, Both()))
    }

    /** Writes the outcome, notifies, completes the stream: the end of every helper below. */
    method Finish(record: Status) returns (returned: bool)
      requires Valid() && at == WriteFinal(record)
      modifies this
      ensures Valid() && Concluded(record, returned)
    {
      UpdateRecord(record);
      NotifyCompletion(record);
      returned := SignalStreamComplete(record);
    }

    method FailExecution() returns (returned: bool)
      requires Valid() && at == WriteFinal(Failed)
      modifies this
      ensures Valid() && Concluded(Failed, returned)
    {
      returned := Finish(Failed);
    }

    method StopAndFail(containerID: nat) returns (returned: bool)
      requires Valid() && at == StopUnattached && cid == Some(containerID)
      modifies this
      ensures Valid() && Concluded(Failed, returned)
      ensures Asked(Call(Runner, Engine(Stop, containerID)))
    {
      StopContainer(containerID);
      returned := FailExecution();
    }

    method TimeoutExecution(containerID: nat) returns (returned: bool)
      requires Valid() && at == StopTimedOut && cid == Some(containerID)
      modifies this
      ensures Valid() && Concluded(TimedOut, returned)
      ensures Asked(Call(Runner, Engine(Stop, containerID)))
    {
      StopContainer(containerID);
      returned := Finish(TimedOut);
    }

    method TimeoutExecExecution() returns (returned: bool)
      requires Valid() && at == WriteFinal(TimedOut) && cid.None?
      modifies this
      ensures Valid() && Concluded(TimedOut, returned)
    {
      returned := Finish(TimedOut);
    }

    method CompleteExecution() returns (returned: bool)
      requires Valid() && at == WriteFinal(Completed) && cid.Some?
      modifies this
      ensures Valid() && Concluded(Completed, returned)
    {
      returned := Finish(Completed);
    }

    // ----- The three modes; what a method calls last are its deferred calls -----

    /** The body of runCreateMode once there is a container. */
    method RunContainer(containerID: nat, output: seq<string>) returns (returned: bool)
      requires Valid() && at == Starting && cid == Some(containerID) && !quit && setup.mode == CreateMode
      modifies this
      ensures Valid() && cid == old(cid) && if returned then at == Removing else Waits(config, Both())
      ensures Gave(output, returned && (quit || final != Some(Failed)))
    {
      var started := StartContainer(containerID);
      if !started {
        returned := FailExecution();
        return;
      }
      var attached := AttachOutput();
      if !attached {
        returned := StopAndFail(containerID);
        return;
      }
      returned := CaptureOutput(output);
      if returned {
        returned := JudgeContainer(containerID);
      }
    }

    /** The end of runCreateMode: the context decides. */
    method JudgeContainer(containerID: nat) returns (returned: bool)
      requires Valid() && at == CheckDeadline && cid == Some(containerID) && !quit && setup.mode == CreateMode
      modifies this
      ensures Valid() && cid == old(cid) && if returned then at == Removing else Waits(config, Both())
      ensures Texts() == old(Texts())
    {
      var late := DeadlineExceededNow();
      if late {
        returned := TimeoutExecution(containerID);
        return;
      }
      var cancelled := CancelledNow();
      if cancelled {
        return true;
      }
      CopyArtifacts(Completed);
      returned := CompleteExecution();
    }

    /**
     runCreateMode: whatever Docker, the database and the other goroutines do, it takes the
     model's steps to the end, or to a call that waits for the stream for ever. What it then
     leaves behind is stated outright.
     */
    method RunCreateMode(output: seq<string>) returns (returned: bool)
      requires Valid() && at == Begin && setup.mode == CreateMode && cid.None? && !quit
      modifies this
      ensures Valid()
      ensures returned ==> at == Returned && AllWell()
      ensures !returned ==> Hangs(config, Both())
      ensures Gave(output, returned && (quit || final != Some(Failed)))
    {
      StoreCancel();
      UpdateRecord(Running);
      var created := CreateContainer();
      if created {
        var containerID := cid.value;
        UpdateRecord(Running);
        StoreOwnedContainer(containerID);
        returned := RunContainer(containerID, output);
        if returned {
          RemoveContainer(containerID);
          DeleteOwnedContainer();
        }
      } else {
        returned := FailExecution();
      }
      returned := LeaveMode(returned);
    }

    /** What it leaves behind, its outcome being the one it earned. */
    ghost predicate AllWell()
      reads this
    {
      && EndsWell(config, View()) && (config.streams ==> StreamEnds(json, Both()))
      && (!quit ==> final.Some? && Earned(setup.mode, final.value, HeardSoFar()))
    }

    /** The last deferred call, if the body has returned. */
    method LeaveMode(returned: bool) returns (r: bool)
      requires Valid() && if returned then at == DropCancel else Waits(config, Both())
      modifies this
      ensures Valid() && r == returned
      ensures r ==> at == Returned && AllWell()
      ensures !r ==> Hangs(config, Both())
      ensures Texts() == old(Texts()) && quit == old(quit) && final == old(final)
    {
      r := returned;
      if returned {
        DeleteCancel();
        ReturnedEndsWell(config, json, setup, moves);
      } else {
        WaitingHangs(config, json, setup, moves);
      }
    }

    /** The body of runExecMode. */
    method RunExec(output: seq<string>) returns (returned: bool)
      requires Valid() && at == ExecCreating && cid.None? && !quit && setup.mode == ExecMode
      modifies this
      ensures Valid() && if returned then at == DropCancel else Waits(config, Both())
      ensures Gave(output, returned && (quit || final != Some(Failed)))
    {
      var created := ExecInContainer();
      if !created {
        returned := FailExecution();
        return;
      }
      var attached := AttachOutput();
      if !attached {
        returned := FailExecution();
        return;
      }
      returned := CaptureOutput(output);
      if !returned {
        return;
      }
      var late := DeadlineExceededNow();
      if late {
        returned := TimeoutExecExecution();
        return;
      }
      var cancelled := CancelledNow();
      if !cancelled {
        returned := JudgeExec();
      }
    }

    /** The end of runExecMode: the exit code decides. */
    method JudgeExec() returns (returned: bool)
      requires Valid() && at == Inspecting && cid.None?
      modifies this
      ensures Valid() && if returned then at == DropCancel else Waits(config, Both())
      ensures Texts() == old(Texts())
      ensures returned ==>
        final == Some(if turns(old(clock)).answer.ok && turns(old(clock)).answer.n == 0 then Completed else Failed)
    {
      var inspected, exitCode := InspectExec();
      if !inspected {
        returned := FailExecution();
        return;
      }
      var record := if exitCode == 0 then Completed else Failed;
      CopyArtifacts(record);
      returned := Finish(record);
    }

    method RunExecMode(output: seq<string>) returns (returned: bool)
      requires Valid() && at == Begin && setup.mode == ExecMode && cid.None? && !quit
      modifies this
      ensures Valid()
      ensures returned ==> at == Returned && AllWell()
      ensures !returned ==> Hangs(config, Both())
      ensures Gave(output, returned && (quit || final != Some(Failed)))
    {
      StoreCancel();
      UpdateRecord(Running);
      returned := RunExec(output);
      returned := LeaveMode(returned);
    }

    /** The body of runLogsMode. */
    method RunLogs(output: seq<string>) returns (returned: bool)
      requires Valid() && at == Attaching && cid.None? && !quit && setup.mode == LogsMode
      modifies this
      ensures Valid() && if returned then at == DropCancel else Waits(config, Both())
      ensures Gave(output, returned && (quit || final != Some(Failed)))
    {
      var attached := AttachOutput();
      if !attached {
        returned := FailExecution();
        return;
      }
      returned := CaptureOutput(output);
      if !returned {
        return;
      }
      var late := DeadlineExceededNow();
      if late {
        returned := TimeoutExecExecution();
        return;
      }
      var cancelled := CancelledNow();
      if !cancelled {
        returned := Finish(Completed);
      }
    }

    method RunLogsMode(output: seq<string>) returns (returned: bool)
      requires Valid() && at == Begin && setup.mode == LogsMode && cid.None? && !quit
      modifies this
      ensures Valid()
      ensures returned ==> at == Returned && AllWell()
      ensures !returned ==> Hangs(config, Both())
      ensures Gave(output, returned && (quit || final != Some(Failed)))
    {
      StoreCancel();
      UpdateRecord(Running);
      returned := RunLogs(output);
      returned := LeaveMode(returned);
    }

    // ----- CancelExecution -----

    /** Cancellation `c` waits for its turn while the runner and other cancellations move. */
    method AwaitAsCanceller(c: nat) returns (a: Answer)
      requires Valid() && c < |cancels|
      modifies this
      ensures Valid() && c < |cancels| && cancels[c] == old(cancels[c])
      ensures a == turns(old(clock)).answer && clock == old(clock) + 1 && old(calls) <= calls
    {
      var others := turns(clock).others;
      var i := 0;
      while i < |others|
        invariant i <= |others| && Valid() && c < |cancels| && cancels[c] == old(cancels[c])
        invariant clock == old(clock) && old(calls) <= calls
      {
        if others[i].Look? || !others[i].step.CancelStep? || others[i].step.c != c {
          OthersKeepCancel(config, json, Both(), others[i], c);
          NextAddsCalls(config, json, Both(), others[i]);
          Other(others[i]);
        }
        i := i + 1;
      }
      a := turns(clock).answer;
      clock := clock + 1;
    }

    /** Reads the record, and goes on only if its status is running or queued. */
    method ReadRecord(c: nat) returns (r: CancelResult)
      requires Valid() && c < |cancels| && cancels[c] == CancelState(Reading, false, false, false, false)
      modifies this
      ensures Valid() && c < |cancels| && r != UpdateFailed
      ensures r == Done ==>
        cancels[c].pc == LookingOwned && cancels[c].admitted && !cancels[c].wrote && !cancels[c].called
      ensures r != Done ==> cancels[c] == CancelState(Over, false, false, false, false)
      ensures r == Done <==> turns(old(clock)).answer.ok && (status == Running || status == Queued)
      ensures r == Conflict <==> turns(old(clock)).answer.ok && status != Running && status != Queued
      ensures old(calls) <= calls
    {
      var a := AwaitAsCanceller(c);
      ghost var before := View();
      if !a.ok {
        r := if a.n == 0 then NotFound else LookupFailed;
        cancels := cancels[c := cancels[c].(pc := Over)];
      } else if status != Running && status != Queued {
        r := Conflict;
        cancels := cancels[c := cancels[c].(pc := Over)];
      } else {
        r := Done;
        cancels := cancels[c := cancels[c].(pc := LookingOwned, admitted := true, late := DrainingOrLater(at))];
      }
      assert View() == StepCancel(config, before, c, a);
      Moved(before, CancelStep(c, a));
    }

    method LoadOwnedContainer(c: nat) returns (found: Option<nat>)
      requires Valid() && c < |cancels| && cancels[c].pc == LookingOwned
      modifies this
      ensures Valid() && c < |cancels|
      ensures cancels[c] == old(cancels[c]).(pc := if found.Some? then Stopping(found.value) else LookingCancel)
      ensures found == owned && old(calls) <= calls
    {
      var a := AwaitAsCanceller(c);
      ghost var before := View();
      found := owned;
      cancels := cancels[c := cancels[c].(pc := if found.Some? then Stopping(found.value) else LookingCancel)];
      assert View() == StepCancel(config, before, c, a);
      Moved(before, CancelStep(c, a));
    }

    method StopOwnedContainer(c: nat, containerID: nat)
      requires Valid() && c < |cancels| && cancels[c].pc == Stopping(containerID)
      modifies this
      ensures Valid() && c < |cancels| && cancels[c] == old(cancels[c]).(pc := LookingCancel)
      ensures Asked(Call(Canceller, Engine(Stop, containerID))) && old(calls) <= calls
    {
      var a := AwaitAsCanceller(c);
      ghost var before := View();
      calls := calls + [Call(Canceller, Engine(Stop, containerID))];
      assert calls[|calls| - 1] == Call(Canceller, Engine(Stop, containerID));
      cancels := cancels[c := cancels[c].(pc := LookingCancel)];
      assert View() == StepCancel(config, before, c, a);
      Moved(before, CancelStep(c, a));
    }

    method LoadCancel(c: nat) returns (found: bool)
      requires Valid() && c < |cancels| && cancels[c].pc == LookingCancel
      modifies this
      ensures Valid() && c < |cancels|
      ensures cancels[c] == old(cancels[c]).(pc := if found then Calling else WritingCancelled)
      ensures found == tracked && old(calls) <= calls
    {
      var a := AwaitAsCanceller(c);
      ghost var before := View();
      found := tracked;
      cancels := cancels[c := cancels[c].(pc := if found then Calling else WritingCancelled)];
      assert View() == StepCancel(config, before, c, a);
      Moved(before, CancelStep(c, a));
    }

    /** Cancels the context, which has no effect on one that has ended already. */
    method CallCancel(c: nat)
      requires Valid() && c < |cancels| && cancels[c].pc == Calling
      modifies this
      ensures Valid() && c < |cancels| && cancels[c] == old(cancels[c]).(pc := WritingCancelled, called := true)
      ensures ctx != Live && old(calls) <= calls
    {
      var a := AwaitAsCanceller(c);
      ghost var before := View();
      if ctx == Live {
        ctx := CancelCalled;
      }
      cancels := cancels[c := cancels[c].(pc := WritingCancelled, called := true)];
      assert View() == StepCancel(config, before, c, a);
      Moved(before, CancelStep(c, a));
    }

    method UpdateCancelled(c: nat) returns (ok: bool)
      requires Valid() && c < |cancels| && cancels[c].pc == WritingCancelled
      modifies this
      ensures Valid() && c < |cancels|
      ensures cancels[c] == if ok then old(cancels[c]).(pc := Ending, wrote := true) else old(cancels[c]).(pc := Over)
      ensures ok == turns(old(clock)).answer.ok && (ok ==> status == Cancelled)
      ensures Asked(Call(Canceller, Write(Cancelled))) && old(calls) <= calls
    {
      var a := AwaitAsCanceller(c);
      ghost var before := View();
      ok := a.ok;
      calls := calls + [Call(Canceller, Write(Cancelled))];
      assert calls[|calls| - 1] == Call(Canceller, Write(Cancelled));
      if ok {
        status := Cancelled;
        cancels := cancels[c := cancels[c].(pc := Ending, wrote := true)];
      } else {
        cancels := cancels[c := cancels[c].(pc := Over)];
      }
      assert View() == StepCancel(config, before, c, a);
      Moved(before, CancelStep(c, a));
    }

    /** Completes the stream, or waits for ever. */
    method SignalCancelled(c: nat) returns (returned: bool)
      requires Valid() && c < |cancels| && cancels[c].pc == Ending
      modifies this
      ensures Valid() && c < |cancels|
      ensures cancels[c] == if returned then old(cancels[c]).(pc := Over) else old(cancels[c])
      ensures !returned ==> config.streams && stream.stuck
      ensures returned && config.streams ==> Asked(Call(Canceller, CompleteStream(Cancelled)))
      ensures old(calls) <= calls
    {
      var a := AwaitAsCanceller(c);
      returned := !config.streams || !stream.stuck;
      if returned {
        SayCancelled(c, a);
      }
    }

    /** The last step of a cancellation that has written the record. */
    method SayCancelled(c: nat, a: Answer)
      requires Valid() && c < |cancels| && cancels[c].pc == Ending && !(config.streams && stream.stuck)
      modifies this
      ensures Valid() && cancels == old(cancels[c := cancels[c].(pc := Over)])
      ensures config.streams ==> Asked(Call(Canceller, CompleteStream(Cancelled)))
      ensures old(calls) <= calls
    {
      TogetherSteps(config, json, setup, moves, Act(CancelStep(c, a), ""));
      moves := moves + [Act(CancelStep(c, a), "")];
      if config.streams {
        calls := calls + [Call(Canceller, CompleteStream(Cancelled))];
        assert calls[|calls| - 1] == Call(Canceller, CompleteStream(Cancelled));
        stream := StreamSpec.Step(stream, StreamSpec.Complete(json(Cancelled)));
      }
      cancels := cancels[c := cancels[c].(pc := Over)];
    }

    /**
     CancelExecution takes the model's steps to the end of cancellation `c`, its own, or to a
     call that waits for the stream for ever, which comes after it has written the record. It
     says Done exactly when it has written the record, and then the stream has been told; a
     refusal leaves no trace.
     */
    method CancelExecution() returns (r: CancelResult, returned: bool, ghost c: nat, ghost found: Option<nat>)
      requires Valid()
      modifies this
      ensures Valid() && c < |cancels|
      ensures if returned then cancels[c].pc == Over else cancels[c].pc == Ending && config.streams && stream.stuck
      ensures cancels[c].wrote <==> r == Done
      ensures cancels[c].admitted <==> r == Done || r == UpdateFailed
      ensures !cancels[c].admitted ==> !cancels[c].called
      ensures !returned ==> r == Done
      ensures returned && r == Done && config.streams ==>
        Call(Canceller, CompleteStream(Cancelled)) in calls && stream.done
      ensures r == Done || r == UpdateFailed ==> Call(Canceller, Write(Cancelled)) in calls
      ensures found.Some? ==> Call(Canceller, Engine(Stop, found.value)) in calls
    {
      var me := |cancels|;
      c := me;
      Other(Act(Cancel, ""));
      r := ReadRecord(me);
      returned, found := true, None;
      if r == Done {
        r, returned, found := CarryOut(me);
        OverHasTold(config, json, setup, moves, me);
      }
    }

    /** CancelExecution once it was let through. */
    method CarryOut(c: nat) returns (r: CancelResult, returned: bool, ghost found: Option<nat>)
      requires Valid() && c < |cancels| && cancels[c].pc == LookingOwned && cancels[c].admitted && !cancels[c].wrote
      modifies this
      ensures Valid() && c < |cancels| && cancels[c].admitted
      ensures if returned then cancels[c].pc == Over else cancels[c].pc == Ending && config.streams && stream.stuck
      ensures r == Done || r == UpdateFailed
      ensures cancels[c].wrote <==> r == Done
      ensures !returned ==> r == Done
      ensures Asked(Call(Canceller, Write(Cancelled)))
      ensures found.Some? ==> Asked(Call(Canceller, Engine(Stop, found.value)))
    {
      var containerID := LoadOwnedContainer(c);
      found := containerID;
      if containerID.Some? {
        StopOwnedContainer(c, containerID.value);
      }
      var tracking := LoadCancel(c);
      if tracking {
        CallCancel(c);
      }
      var updated := UpdateCancelled(c);
      if !updated {
        return UpdateFailed, true, found;
      }
      returned := SignalCancelled(c);
      return Done, returned, found;
    }
  }

  lemma NextKeepsSetup(config: Config, json: Status -> string, p: Pair, m: Move)
    ensures Next(config, json, p, m).x.setup == p.x.setup
  {
    if m.Act? { StepKeepsSetup(config, p.x, m.step); }
    hide Step;
  }

  /** While others move, the runner stays where it is. */
  lemma OthersKeepPlace(config: Config, json: Status -> string, p: Pair, m: Move)
    requires m.Look? || !m.step.Run?
    ensures var q := Next(config, json, p, m); SameRunner(p.x, q.x) && q.chunk == p.chunk && p.x.trace <= q.x.trace
  {
    if m.Act? {
      OthersKeepRunner(config, p.x, m.step);
      StepCalls(config, p.x, m.step);
    }
    hide Step;
  }

  /** No call is taken back. */
  lemma NextAddsCalls(config: Config, json: Status -> string, p: Pair, m: Move)
    ensures p.x.trace <= Next(config, json, p, m).x.trace
  {
    if m.Act? { StepCalls(config, p.x, m.step); }
    hide Step;
  }

  lemma OthersKeepCancel(config: Config, json: Status -> string, p: Pair, m: Move, c: nat)
    requires c < |p.x.cancels| && (m.Look? || !m.step.CancelStep? || m.step.c != c)
    ensures var q := Next(config, json, p, m); c < |q.x.cancels| && q.x.cancels[c] == p.x.cancels[c]
  {
    if m.Act? { StepKeepsCancel(config, p.x, m.step, c); }
    hide Step;
  }

  lemma StepKeepsCancel(config: Config, x: Execution, l: Label, c: nat)
    requires c < |x.cancels| && !(l.CancelStep? && l.c == c)
    ensures c < |Step(config, x, l).cancels| && Step(config, x, l).cancels[c] == x.cancels[c]
  {
    match l
    case Run(a) => RunnerKeepsCancels(config, x, a);
    case CancelStep(d, a) => if d < |x.cancels| { CancelKeepsOther(config, x, d, a, c); }
    case _ =>
  }

  lemma RunnerKeepsCancels(config: Config, x: Execution, a: Answer)
    ensures RunStep(config, x, a).cancels == x.cancels
  {
  }

  lemma CancelKeepsOther(config: Config, x: Execution, d: nat, a: Answer, c: nat)
    requires d < |x.cancels| && c < |x.cancels| && c != d
    ensures var y := StepCancel(config, x, d, a); |y.cancels| == |x.cancels| && y.cancels[c] == x.cancels[c]
  {
  }

  lemma OverHasTold(config: Config, json: Status -> string, setup: Setup, moves: seq<Move>, c: nat)
    requires var p := Together(config, json, setup, moves); c < |p.x.cancels|
    ensures var p := Together(config, json, setup, moves);
      config.streams && p.x.cancels[c].wrote && p.x.cancels[c].pc == Over ==>
        Call(Canceller, CompleteStream(Cancelled)) in p.x.trace && p.s.done
  {
    var p := Together(config, json, setup, moves);
    TogetherOk(config, json, setup, moves);
    assert CancelOk(config, p.x, p.x.cancels[c]);
    if config.streams && p.x.cancels[c].wrote && p.x.cancels[c].pc == Over {
      CalledIsTold(p.x.trace, Call(Canceller, CompleteStream(Cancelled)), json);
    }
  }
}

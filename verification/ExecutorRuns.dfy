/** Theorems about every interleaving of runners and cancellations. */
module ExecutorRuns {
  import opened Wrappers
  import opened ExecutorSpec

  predicate Terminal(s: Status) { s == Completed || s == Failed || s == TimedOut }

  predicate Unwinding(pc: Pc) { pc == Removing || pc == DropOwned || pc == DropCancel || pc == Returned }

  /** Places in the code where there is a container for sure, and places where there is none yet. */
  predicate HasContainer(pc: Pc) {
    pc == WriteContainer || pc == StoreOwned || pc == Starting || pc == StopUnattached || pc == StopTimedOut
    || pc == Removing || pc == DropOwned
  }

  predicate NoContainer(pc: Pc) {
    pc == Begin || pc == WriteRunning || pc == Creating || pc == ExecCreating || pc == Inspecting
  }

  /** The status the runner is about to report, at the places where it has one. */
  predicate StatusOk(pc: Pc) {
    match pc
    case Copying(st) => Terminal(st)
    case WriteFinal(st) => Terminal(st)
    case Notifying(st) => Terminal(st)
    case EndStream(st) => Terminal(st)
    case _ => true
  }

  predicate ContainerOk(x: Execution) {
    && (HasContainer(x.pc) ==> x.cid.Some?)
    && (NoContainer(x.pc) ==> x.cid.None?)
    && (x.cid.Some? || x.pc == Creating ==> x.setup.mode == CreateMode)
  }

  /** A runner that unwinds has reported an outcome, or has not because it found its context cancelled. */
  predicate OutcomeOk(x: Execution) {
    && StatusOk(x.pc)
    && (x.final.Some? ==> Terminal(x.final.value) && Unwinding(x.pc))
    && (x.quit ==> Unwinding(x.pc))
    && (Unwinding(x.pc) ==> x.quit != x.final.Some?)
  }

  /** The entries in the two maps are there exactly while the runner is between putting them in and taking them out. */
  predicate EntriesOk(x: Execution) {
    && x.tracked == (x.pc != Begin && x.pc != Returned)
    && x.owned ==
         if x.pc == WriteContainer || x.pc == StoreOwned || x.pc == DropCancel || x.pc == Returned then None else x.cid
  }

  predicate PlaceOk(x: Execution) { ContainerOk(x) && OutcomeOk(x) && EntriesOk(x) }

  // ----- Reports -----

  predicate IsReport(what: What) { what.Write? || what.NotifyUser? || what.CompleteStream? }

  /** What the runner has told the record store, the user and the stream, in order. */
  function Reports(trace: seq<Call>): seq<What> {
    if |trace| == 0 then []
    else
      var last := trace[|trace| - 1];
      Reports(trace[..|trace| - 1]) + (if last.who == Runner && IsReport(last.what) then [last.what] else [])
  }

  /** The writes before the outcome: queued, running, and running again once the container is known. */
  function Beginning(x: Execution): seq<What> {
    if x.pc == Begin || x.pc == WriteRunning then [Write(Queued)]
    else if x.cid.Some? && x.pc != WriteContainer then [Write(Queued), Write(Running), Write(Running)]
    else [Write(Queued), Write(Running)]
  }

  function Notice(config: Config, st: Status): seq<What> { if config.notifier then [NotifyUser(st)] else [] }

  function Farewell(config: Config, st: Status): seq<What> { if config.streams then [CompleteStream(st)] else [] }

  function Outcome(config: Config, x: Execution): seq<What> {
    match x.pc
    case Notifying(st) => [Write(st)]
    case EndStream(st) => [Write(st)] + Notice(config, st)
    case _ =>
      if x.final.Some? then [Write(x.final.value)] + Notice(config, x.final.value) + Farewell(config, x.final.value)
      else []
  }

  ghost predicate ReportsOk(config: Config, x: Execution) {
    x.reported == Beginning(x) + Outcome(config, x)
  }

  // ----- One step -----

  /** Everything of the runner but its context. */
  predicate SameRunner(x: Execution, y: Execution) {
    && y.setup == x.setup && y.pc == x.pc && y.cid == x.cid && y.final == x.final && y.quit == x.quit
    && y.owned == x.owned && y.tracked == x.tracked && y.reported == x.reported
  }

  /** Cancellations and the clock leave the runner where it is. */
  lemma OthersKeepRunner(config: Config, x: Execution, l: Label)
    requires !l.Run?
    ensures SameRunner(x, Step(config, x, l))
  {
    if l.CancelStep? && l.c < |x.cancels| {
      hide StepCancel;
      CancelKeepsRunner(config, x, l.c, l.answer);
    }
  }

  lemma CancelKeepsRunner(config: Config, x: Execution, c: nat, a: Answer)
    requires c < |x.cancels|
    ensures SameRunner(x, StepCancel(config, x, c, a))
  {
    CancelKeepsPlace(config, x, c, a);
    CancelKeepsEntries(config, x, c, a);
    hide StepCancel;
  }

  lemma CancelKeepsPlace(config: Config, x: Execution, c: nat, a: Answer)
    requires c < |x.cancels|
    ensures var y := StepCancel(config, x, c, a);
      y.setup == x.setup && y.pc == x.pc && y.cid == x.cid && y.final == x.final && y.quit == x.quit
  {
  }

  lemma CancelKeepsEntries(config: Config, x: Execution, c: nat, a: Answer)
    requires c < |x.cancels|
    ensures var y := StepCancel(config, x, c, a);
      y.owned == x.owned && y.tracked == x.tracked && y.reported == x.reported
  {
  }

  lemma PrepareContainer(x: Execution, a: Answer)
    requires PlaceOk(x) && !DrainingOrLater(x.pc)
    ensures ContainerOk(Prepare(x, a)) && EntriesOk(Prepare(x, a))
  {
  }

  lemma PrepareOutcome(x: Execution, a: Answer)
    requires PlaceOk(x) && !DrainingOrLater(x.pc)
    ensures OutcomeOk(Prepare(x, a))
  {
  }

  lemma PreparePlace(x: Execution, a: Answer)
    requires PlaceOk(x) && !DrainingOrLater(x.pc)
    ensures PlaceOk(Prepare(x, a))
  {
    PrepareContainer(x, a);
    PrepareOutcome(x, a);
  }

  lemma JudgeContainer(x: Execution, a: Answer)
    requires PlaceOk(x) && DrainingOrLater(x.pc) && !Finishing(x.pc)
    ensures ContainerOk(Judge(x, a)) && EntriesOk(Judge(x, a))
  {
  }

  lemma FinishContainer(config: Config, x: Execution, a: Answer)
    requires PlaceOk(x) && Finishing(x.pc)
    ensures ContainerOk(Finish(config, x, a))
  {
  }

  lemma FinishEntries(config: Config, x: Execution, a: Answer)
    requires PlaceOk(x) && Finishing(x.pc)
    ensures EntriesOk(Finish(config, x, a))
  {
  }

  lemma ConcludeContainer(config: Config, x: Execution, a: Answer)
    requires PlaceOk(x) && DrainingOrLater(x.pc)
    ensures ContainerOk(Conclude(config, x, a)) && EntriesOk(Conclude(config, x, a))
  {
    if Finishing(x.pc) {
      FinishContainer(config, x, a);
      FinishEntries(config, x, a);
    } else {
      JudgeContainer(x, a);
    }
  }

  lemma JudgeOutcome(x: Execution, a: Answer)
    requires PlaceOk(x) && DrainingOrLater(x.pc) && !Finishing(x.pc)
    ensures OutcomeOk(Judge(x, a))
  {
  }

  lemma FinishOutcome(config: Config, x: Execution, a: Answer)
    requires PlaceOk(x) && Finishing(x.pc)
    ensures OutcomeOk(Finish(config, x, a))
  {
  }

  lemma ConcludeOutcome(config: Config, x: Execution, a: Answer)
    requires PlaceOk(x) && DrainingOrLater(x.pc)
    ensures OutcomeOk(Conclude(config, x, a))
  {
    if Finishing(x.pc) { FinishOutcome(config, x, a); } else { JudgeOutcome(x, a); }
  }

  lemma PrepareReports(config: Config, x: Execution, a: Answer)
    requires PlaceOk(x) && ReportsOk(config, x) && !DrainingOrLater(x.pc)
    ensures ReportsOk(config, Prepare(x, a))
  {
  }

  lemma JudgeReports(config: Config, x: Execution, a: Answer)
    requires PlaceOk(x) && ReportsOk(config, x) && DrainingOrLater(x.pc) && !Finishing(x.pc)
    ensures ReportsOk(config, Judge(x, a))
  {
    assert Judge(x, a).reported == x.reported;
  }

  lemma FinishReports(config: Config, x: Execution, a: Answer)
    requires PlaceOk(x) && ReportsOk(config, x) && Finishing(x.pc)
    ensures ReportsOk(config, Finish(config, x, a))
  {
    var y := Finish(config, x, a);
    if x.pc.WriteFinal? || x.pc.Notifying? || x.pc.EndStream? {
      assert Beginning(x) + Outcome(config, y) == y.reported;
    }
  }

  lemma ConcludeReports(config: Config, x: Execution, a: Answer)
    requires PlaceOk(x) && ReportsOk(config, x) && DrainingOrLater(x.pc)
    ensures ReportsOk(config, Conclude(config, x, a))
  {
    if Finishing(x.pc) { FinishReports(config, x, a); } else { JudgeReports(config, x, a); }
  }

  lemma RunnerStep(config: Config, x: Execution, l: Label)
    requires PlaceOk(x) && ReportsOk(config, x)
    ensures PlaceOk(Step(config, x, l)) && ReportsOk(config, Step(config, x, l))
  {
    if !l.Run? {
      OthersKeepRunner(config, x, l);
    } else if DrainingOrLater(x.pc) {
      ConcludeContainer(config, x, l.answer);
      ConcludeOutcome(config, x, l.answer);
      ConcludeReports(config, x, l.answer);
    } else {
      PreparePlace(x, l.answer);
      PrepareReports(config, x, l.answer);
    }
  }

  // ----- Calls to Docker -----

  predicate Removed(x: Execution) { x.cid.Some? && (x.pc == DropOwned || x.pc == DropCancel || x.pc == Returned) }

  /** Of one execution's calls to Docker: about which container, in which order, and how often. */
  ghost predicate EngineOk(trace: seq<Call>, cid: Option<nat>, removed: bool) {
    CreateOk(trace, cid) && RemoveOk(trace, cid, removed)
  }

  ghost predicate CreateOk(trace: seq<Call>, cid: Option<nat>) {
    && (forall i :: 0 <= i < |trace| && trace[i].what.Engine? ==> cid == Some(trace[i].what.cid))
    && (forall i :: 0 <= i < |trace| && trace[i].what.Engine? && trace[i].what.verb != Create ==>
          Call(Runner, Engine(Create, trace[i].what.cid)) in trace[..i])
    && (forall i, j :: 0 <= i < j < |trace| && IsEngine(trace[i], Create) ==> !IsEngine(trace[j], Create))
    && (cid.Some? ==> Call(Runner, Engine(Create, cid.value)) in trace)
  }

  ghost predicate RemoveOk(trace: seq<Call>, cid: Option<nat>, removed: bool) {
    && (forall i :: 0 <= i < |trace| && IsEngine(trace[i], Remove) ==> removed && trace[i].who == Runner)
    && (forall i, j :: 0 <= i < j < |trace| && IsEngine(trace[i], Remove) && trace[j].who == Runner ==>
        !trace[j].what.Engine?)
    && (removed ==> cid.Some? && Call(Runner, Engine(Remove, cid.value)) in trace)
  }

  predicate IsEngine(call: Call, verb: Verb) { call.what.Engine? && call.what.verb == verb }

  lemma CreateOkStays(trace: seq<Call>, cid: Option<nat>, call: Call)
    requires CreateOk(trace, cid)
    requires call.what.Engine? ==> cid == Some(call.what.cid) && call.what.verb != Create
    ensures CreateOk(trace + [call], cid)
  {
    var t := trace + [call];
    assert t[..|trace|] == trace;
    forall i | 0 <= i < |trace| ensures t[..i] == trace[..i] {}
  }

  lemma EngineOther(trace: seq<Call>, cid: Option<nat>, removed: bool, call: Call)
    requires EngineOk(trace, cid, removed)
    requires call.what.Engine? ==> cid == Some(call.what.cid) && call.what.verb != Create && call.what.verb != Remove
    requires call.what.Engine? && call.who == Runner ==> !removed
    ensures EngineOk(trace + [call], cid, removed)
  {
    CreateOkStays(trace, cid, call);
    hide CreateOk;
  }

  lemma EngineRemove(trace: seq<Call>, cid: nat)
    requires EngineOk(trace, Some(cid), false)
    ensures EngineOk(trace + [Call(Runner, Engine(Remove, cid))], Some(cid), true)
  {
    var call := Call(Runner, Engine(Remove, cid));
    CreateOkStays(trace, Some(cid), call);
    hide CreateOk;
    assert (trace + [call])[|trace|] == call;
  }

  lemma EngineCreate(trace: seq<Call>, cid: nat)
    requires EngineOk(trace, None, false)
    ensures EngineOk(trace + [Call(Runner, Engine(Create, cid))], Some(cid), false)
  {
    var t := trace + [Call(Runner, Engine(Create, cid))];
    assert t[|trace|] == Call(Runner, Engine(Create, cid));
    assert forall i :: 0 <= i < |trace| ==> !trace[i].what.Engine?;
  }

  predicate OneCall(trace: seq<Call>, after: seq<Call>, who: Actor) {
    after == trace || (|after| == |trace| + 1 && after == trace + [after[|trace|]] && after[|trace|].who == who)
  }

  /** Up to the output, the runner may create a container, and what it then does is about that one. */
  lemma PrepareDocker(x: Execution, a: Answer)
    requires PlaceOk(x) && !DrainingOrLater(x.pc) && !(x.pc == Creating && a.ok)
    ensures var y := Prepare(x, a);
      && y.cid == x.cid && !Removed(x) && !Removed(y)
      && OneCall(x.trace, y.trace, Runner)
      && (y.trace != x.trace ==> Milder(y.trace[|x.trace|], x.cid))
  {
  }

  /** Not a call to Docker, or one about this container that neither creates nor removes it. */
  predicate Milder(call: Call, cid: Option<nat>) {
    call.what.Engine? ==> cid == Some(call.what.cid) && call.what.verb != Create && call.what.verb != Remove
  }

  lemma CreatingEngine(x: Execution, a: Answer)
    requires PlaceOk(x) && x.pc == Creating && a.ok
    ensures var y := Prepare(x, a);
      x.cid == None && y.cid == Some(a.n) && !Removed(x) && !Removed(y)
          && y.trace == x.trace + [Call(Runner, Engine(Create, a.n))]
  {
  }

  lemma PrepareEngine(x: Execution, a: Answer)
    requires PlaceOk(x) && EngineOk(x.trace, x.cid, Removed(x)) && !DrainingOrLater(x.pc)
    ensures var y := Prepare(x, a); EngineOk(y.trace, y.cid, Removed(y))
  {
    if x.pc == Creating && a.ok {
      CreatingEngine(x, a);
      EngineCreate(x.trace, a.n);
    } else {
      PrepareDocker(x, a);
      EngineStep(x.trace, Prepare(x, a).trace, x.cid, Removed(x), Runner);
    }
  }

  /** From the output on, the runner stops the container or copies from it, and at the end removes it. */
  lemma ConcludeDocker(config: Config, x: Execution, a: Answer)
    requires PlaceOk(x) && DrainingOrLater(x.pc) && x.pc != Removing
    ensures var y := Conclude(config, x, a);
      && y.cid == x.cid && Removed(y) == Removed(x)
      && OneCall(x.trace, y.trace, Runner)
      && (y.trace != x.trace ==> Milder(y.trace[|x.trace|], x.cid) && (y.trace[|x.trace|].what.Engine? ==> !Removed(x)))
  {
  }

  lemma EngineStep(trace: seq<Call>, after: seq<Call>, cid: Option<nat>, removed: bool, who: Actor)
    requires EngineOk(trace, cid, removed) && OneCall(trace, after, who)
    requires after != trace ==>
        Milder(after[|trace|], cid) && (after[|trace|].what.Engine? && who == Runner ==> !removed)
    ensures EngineOk(after, cid, removed)
  {
    if after != trace {
      EngineOther(trace, cid, removed, after[|trace|]);
    }
  }

  lemma RemovingEngine(config: Config, x: Execution, a: Answer)
    requires PlaceOk(x) && x.pc == Removing
    ensures var y := Conclude(config, x, a);
      x.cid.Some? && y.cid == x.cid && !Removed(x) && Removed(y)
          && y.trace == x.trace + [Call(Runner, Engine(Remove, x.cid.value))]
  {
  }

  lemma ConcludeEngine(config: Config, x: Execution, a: Answer)
    requires PlaceOk(x) && EngineOk(x.trace, x.cid, Removed(x)) && DrainingOrLater(x.pc)
    ensures var y := Conclude(config, x, a); EngineOk(y.trace, y.cid, Removed(y))
  {
    if x.pc == Removing {
      RemovingEngine(config, x, a);
      EngineRemove(x.trace, x.cid.value);
    } else {
      ConcludeDocker(config, x, a);
      EngineStep(x.trace, Conclude(config, x, a).trace, x.cid, Removed(x), Runner);
    }
  }

  // ----- Cancellations -----

  /** A cancellation goes on only if it was let through, and "wrote" only when its update succeeded. */
  predicate FlagsOk(s: CancelState) {
    && (s.pc == Reading ==> !s.admitted)
    && (s.admitted || s.pc == Reading || s.pc == Over)
    && (s.called || s.wrote || s.late ==> s.admitted)
    && (s.wrote ==> s.pc == Ending || s.pc == Over)
  }

  predicate CancelOk(config: Config, x: Execution, s: CancelState) {
    && FlagsOk(s)
    && (s.late ==> DrainingOrLater(x.pc))
    && (s.pc.Stopping? ==> x.cid == Some(s.pc.cid))
    && (s.wrote && s.pc == Over && config.streams ==> Call(Canceller, CompleteStream(Cancelled)) in x.trace)
  }

  ghost predicate CancelsOk(config: Config, x: Execution) {
    forall c :: 0 <= c < |x.cancels| ==> CancelOk(config, x, x.cancels[c])
  }

  /** A cancellation only ever stops the container, and says "cancelled". */
  predicate CancellerSays(what: What) {
    what == Write(Cancelled) || what == CompleteStream(Cancelled) || (what.Engine? && what.verb == Stop)
  }

  ghost predicate CallsOk(trace: seq<Call>) {
    forall i :: 0 <= i < |trace| && trace[i].who == Canceller ==> CancellerSays(trace[i].what)
  }

  ghost predicate AnyCalled(x: Execution) { exists c :: 0 <= c < |x.cancels| && x.cancels[c].called }

  ghost predicate AnyWrote(x: Execution) { exists c :: 0 <= c < |x.cancels| && x.cancels[c].wrote }

  /** Every cancellation that was let through read the record once the runner had reached its output. */
  ghost predicate AllLate(x: Execution) {
    forall c :: 0 <= c < |x.cancels| && x.cancels[c].admitted ==> x.cancels[c].late
  }

  predicate TimedOutAt(pc: Pc) {
    pc == StopTimedOut || pc == Copying(TimedOut) || pc == WriteFinal(TimedOut) || pc == Notifying(TimedOut)
        || pc == EndStream(TimedOut)
  }

  /** Why a context ended, and what followed from it. */
  predicate ReasonOk(x: Execution) {
    && (x.ctx == DeadlineExceeded ==> x.setup.timed)
    && (x.quit ==> x.ctx == CancelCalled)
    && (TimedOutAt(x.pc) || x.final == Some(TimedOut) ==> x.ctx == DeadlineExceeded)
  }

  /** The runner has issued its terminal write. */
  predicate Decided(x: Execution) { x.pc.Notifying? || x.pc.EndStream? || x.final.Some? }

  ghost predicate RowOk(x: Execution) {
    AllLate(x) && !Decided(x) ==> if AnyWrote(x) then x.row == Cancelled else x.row == Queued || x.row == Running
  }

  lemma {:induction false} ReportsSnoc(trace: seq<Call>, call: Call)
    ensures Reports(trace + [call]) ==
        Reports(trace) + (if call.who == Runner && IsReport(call.what) then [call.what] else [])
  {
    assert (trace + [call])[..|trace|] == trace;
  }

  /** Everything that holds of one execution throughout. */
  ghost predicate Sound(config: Config, x: Execution) {
    && PlaceOk(x)
    && ReportsOk(config, x)
    && Reports(x.trace) == x.reported
    && EngineOk(x.trace, x.cid, Removed(x))
    && CancelsOk(config, x)
    && CallsOk(x.trace)
    && ReasonOk(x)
    && (x.ctx == CancelCalled ==> AnyCalled(x))
    && RowOk(x)
  }

  lemma LaunchedSound(config: Config, setup: Setup)
    ensures Sound(config, Launched(setup))
  {
    var x := Launched(setup);
    ReportsSnoc([], Call(Runner, Write(Queued)));
    assert [] + [Call(Runner, Write(Queued))] == x.trace;
    assert Reports(x.trace) == x.reported;
    LaunchedEngine(setup);
    LaunchedQuiet(config, setup);
  }

  lemma LaunchedQuiet(config: Config, setup: Setup)
    ensures var x := Launched(setup);
      CancelsOk(config, x) && RowOk(x) && PlaceOk(x) && ReportsOk(config, x) && ReasonOk(x)
  {
  }

  lemma LaunchedEngine(setup: Setup)
    ensures EngineOk(Launched(setup).trace, None, false)
  {
    assert !Launched(setup).trace[0].what.Engine?;
  }

  // ----- A step of the runner -----

  /** What the runner leaves as it is. */
  predicate RunnerKeeps(x: Execution, y: Execution) {
    && y.cancels == x.cancels && y.ctx == x.ctx && y.setup == x.setup
    && (DrainingOrLater(x.pc) ==> DrainingOrLater(y.pc))
    && (x.cid.Some? ==> y.cid == x.cid)
  }

  predicate RunnerSays(x: Execution, y: Execution) {
    && OneCall(x.trace, y.trace, Runner)
    && y.reported == x.reported
        + (if y.trace != x.trace && IsReport(y.trace[|x.trace|].what) then [y.trace[|x.trace|].what] else [])
  }

  predicate RunnerWrites(x: Execution, y: Execution) {
    && (y.row == x.row || (y.row == Running && !DrainingOrLater(x.pc)) || Decided(y))
    && (Decided(x) ==> Decided(y))
  }

  lemma PrepareMoves(x: Execution, a: Answer)
    requires PlaceOk(x) && !DrainingOrLater(x.pc)
    ensures RunnerKeeps(x, Prepare(x, a)) && RunnerSays(x, Prepare(x, a)) && RunnerWrites(x, Prepare(x, a))
  {
  }

  lemma JudgeMoves(x: Execution, a: Answer)
    requires PlaceOk(x) && DrainingOrLater(x.pc) && !Finishing(x.pc)
    ensures RunnerKeeps(x, Judge(x, a)) && RunnerWrites(x, Judge(x, a))
  {
  }

  lemma FinishMoves(config: Config, x: Execution, a: Answer)
    requires PlaceOk(x) && Finishing(x.pc)
    ensures RunnerKeeps(x, Finish(config, x, a)) && RunnerWrites(x, Finish(config, x, a))
  {
  }

  lemma ConcludeMoves(config: Config, x: Execution, a: Answer)
    requires PlaceOk(x) && DrainingOrLater(x.pc)
    ensures RunnerKeeps(x, Conclude(config, x, a)) && RunnerWrites(x, Conclude(config, x, a))
  {
    if Finishing(x.pc) { FinishMoves(config, x, a); } else { JudgeMoves(x, a); }
  }

  lemma JudgeSays(x: Execution, a: Answer)
    requires PlaceOk(x) && DrainingOrLater(x.pc) && !Finishing(x.pc)
    ensures RunnerSays(x, Judge(x, a))
  {
  }

  lemma FinishSays(config: Config, x: Execution, a: Answer)
    requires PlaceOk(x) && Finishing(x.pc)
    ensures RunnerSays(x, Finish(config, x, a))
  {
  }

  lemma ConcludeSays(config: Config, x: Execution, a: Answer)
    requires PlaceOk(x) && DrainingOrLater(x.pc)
    ensures RunnerSays(x, Conclude(config, x, a))
  {
    if Finishing(x.pc) { FinishSays(config, x, a); } else { JudgeSays(x, a); }
  }

  lemma JudgeReason(x: Execution, a: Answer)
    requires PlaceOk(x) && ReasonOk(x) && DrainingOrLater(x.pc) && !Finishing(x.pc)
    ensures ReasonOk(Judge(x, a))
  {
  }

  lemma FinishReason(config: Config, x: Execution, a: Answer)
    requires PlaceOk(x) && ReasonOk(x) && Finishing(x.pc)
    ensures ReasonOk(Finish(config, x, a))
  {
  }

  lemma ConcludeReason(config: Config, x: Execution, a: Answer)
    requires PlaceOk(x) && ReasonOk(x) && DrainingOrLater(x.pc)
    ensures ReasonOk(Conclude(config, x, a))
  {
    if Finishing(x.pc) { FinishReason(config, x, a); } else { JudgeReason(x, a); }
  }

  lemma CancelOkStays(config: Config, x: Execution, y: Execution, s: CancelState)
    requires CancelOk(config, x, s)
    requires DrainingOrLater(x.pc) ==> DrainingOrLater(y.pc)
    requires x.cid.Some? ==> y.cid == x.cid
    requires OneCall(x.trace, y.trace, Runner) || OneCall(x.trace, y.trace, Canceller)
    ensures CancelOk(config, y, s)
  {
  }

  lemma RunKeepsCancels(config: Config, x: Execution, y: Execution)
    requires RunnerKeeps(x, y) && RunnerSays(x, y) && CancelsOk(config, x)
    ensures CancelsOk(config, y)
  {
    forall c | 0 <= c < |y.cancels| ensures CancelOk(config, y, y.cancels[c]) {
      CancelOkStays(config, x, y, x.cancels[c]);
    }
  }

  lemma SaysKeepsTrace(trace: seq<Call>, after: seq<Call>, who: Actor)
    requires OneCall(trace, after, who) && CallsOk(trace)
    requires who == Canceller && after != trace ==> CancellerSays(after[|trace|].what)
    ensures CallsOk(after)
    ensures Reports(after) ==
      Reports(trace)
      + (if after != trace && who == Runner && IsReport(after[|trace|].what) then [after[|trace|].what] else [])
  {
    if after != trace {
      ReportsSnoc(trace, after[|trace|]);
    }
  }

  lemma RunKeepsRow(config: Config, x: Execution, y: Execution)
    requires RunnerKeeps(x, y) && RunnerWrites(x, y) && CancelsOk(config, x) && RowOk(x)
    ensures RowOk(y)
  {
    if AllLate(y) && !Decided(y) && y.row != x.row {
      forall c | 0 <= c < |x.cancels| ensures !x.cancels[c].wrote {
        assert CancelOk(config, x, x.cancels[c]);
      }
    }
  }

  lemma RunMoves(config: Config, x: Execution, a: Answer)
    requires PlaceOk(x) && ReasonOk(x)
    ensures var y := RunStep(config, x, a); RunnerKeeps(x, y) && RunnerSays(x, y) && RunnerWrites(x, y) && ReasonOk(y)
  {
    if DrainingOrLater(x.pc) {
      ConcludeMoves(config, x, a);
      ConcludeSays(config, x, a);
      ConcludeReason(config, x, a);
    } else {
      PrepareMoves(x, a);
      PrepareReason(x, a);
    }
  }

  lemma PrepareReason(x: Execution, a: Answer)
    requires PlaceOk(x) && !DrainingOrLater(x.pc) && ReasonOk(x)
    ensures ReasonOk(Prepare(x, a))
  {
  }

  lemma RunEngine(config: Config, x: Execution, a: Answer)
    requires PlaceOk(x) && EngineOk(x.trace, x.cid, Removed(x))
    ensures var y := RunStep(config, x, a); EngineOk(y.trace, y.cid, Removed(y))
  {
    if DrainingOrLater(x.pc) { ConcludeEngine(config, x, a); } else { PrepareEngine(x, a); }
  }

  lemma RunSound(config: Config, x: Execution, a: Answer)
    requires Sound(config, x)
    ensures Sound(config, RunStep(config, x, a))
  {
    var y := RunStep(config, x, a);
    RunnerStep(config, x, Run(a));
    assert PlaceOk(y) && ReportsOk(config, y);
    RunMoves(config, x, a);
    RunEngine(config, x, a);
    RunKeepsAll(config, x, y);
  }

  lemma RunKeepsAll(config: Config, x: Execution, y: Execution)
    requires RunnerKeeps(x, y) && RunnerSays(x, y) && RunnerWrites(x, y)
    requires Sound(config, x) && PlaceOk(y) && ReportsOk(config, y) && ReasonOk(y)
        && EngineOk(y.trace, y.cid, Removed(y))
    ensures Sound(config, y)
  {
    SaysKeepsTrace(x.trace, y.trace, Runner);
    RunKeepsCancels(config, x, y);
    RunKeepsRow(config, x, y);
  }

  // ----- A step of a cancellation -----

  /** What a cancellation leaves as it is, and how it changes its own state from `s` to `t`. */
  predicate CancellerKeeps(x: Execution, y: Execution, c: nat, s: CancelState, t: CancelState) {
    && c < |x.cancels| && s == x.cancels[c] && y.cancels == x.cancels[c := t]
    && SameRunner(x, y)
    && Keeps(s, t)
  }

  /** A cancellation takes nothing back of what it has done. */
  predicate Keeps(s: CancelState, t: CancelState) {
    && (s.called ==> t.called) && (s.wrote ==> t.wrote)
    && (s.admitted ==> t.admitted && t.late == s.late)
    && (t.wrote ==> t.admitted)
  }

  predicate CancellerWrites(x: Execution, y: Execution, s: CancelState, t: CancelState) {
    && (y.ctx == x.ctx || (x.ctx == Live && y.ctx == CancelCalled && t.called))
    && (y.row == x.row || (y.row == Cancelled && t.wrote))
    && (t.wrote ==> s.wrote || y.row == Cancelled)
  }

  predicate CancellerCalls(x: Execution, y: Execution) {
    && OneCall(x.trace, y.trace, Canceller)
    && (y.trace != x.trace ==>
         var what := y.trace[|x.trace|].what; CancellerSays(what) && (what.Engine? ==> x.cid == Some(what.cid)))
  }

  lemma CancelOnlyOwn(config: Config, x: Execution, c: nat, a: Answer)
    requires c < |x.cancels|
    ensures var y := StepCancel(config, x, c, a);
      |y.cancels| == |x.cancels| && y.cancels == x.cancels[c := y.cancels[c]]
  {
  }

  lemma CancelTakesNothingBack(config: Config, x: Execution, c: nat, a: Answer)
    requires c < |x.cancels| && FlagsOk(x.cancels[c])
    ensures var y := StepCancel(config, x, c, a); |y.cancels| == |x.cancels| && Keeps(x.cancels[c], y.cancels[c])
  {
  }

  lemma CancelMoves(config: Config, x: Execution, c: nat, a: Answer)
    requires c < |x.cancels| && FlagsOk(x.cancels[c])
    ensures var y := StepCancel(config, x, c, a);
      |y.cancels| == |x.cancels| && CancellerKeeps(x, y, c, x.cancels[c], y.cancels[c])
  {
    var y := StepCancel(config, x, c, a);
    assert y == Step(config, x, CancelStep(c, a));
    hide StepCancel, Step;
    OthersKeepRunner(config, x, CancelStep(c, a));
    CancelOnlyOwn(config, x, c, a);
    CancelTakesNothingBack(config, x, c, a);
  }

  lemma CancelWrites(config: Config, x: Execution, c: nat, a: Answer)
    requires c < |x.cancels| && FlagsOk(x.cancels[c])
    ensures var y := StepCancel(config, x, c, a);
      |y.cancels| == |x.cancels| && CancellerWrites(x, y, x.cancels[c], y.cancels[c])
  {
  }

  lemma CancelCalls(config: Config, x: Execution, c: nat, a: Answer)
    requires c < |x.cancels| && CancelOk(config, x, x.cancels[c])
    ensures CancellerCalls(x, StepCancel(config, x, c, a))
  {
  }

  lemma CancelOwnFlags(config: Config, x: Execution, c: nat, a: Answer)
    requires c < |x.cancels| && FlagsOk(x.cancels[c])
    ensures var y := StepCancel(config, x, c, a); |y.cancels| == |x.cancels| && FlagsOk(y.cancels[c])
  {
  }

  /** What a cancellation is about to stop is the runner's container. */
  lemma CancelStops(config: Config, x: Execution, c: nat, a: Answer)
    requires c < |x.cancels| && EntriesOk(x) && CancelOk(config, x, x.cancels[c])
    ensures var y := StepCancel(config, x, c, a);
      |y.cancels| == |x.cancels| && (y.cancels[c].pc.Stopping? ==> x.cid == Some(y.cancels[c].pc.cid))
  {
    if x.cancels[c].pc == LookingOwned {
      assert StepCancel(config, x, c, a).cancels[c].pc == if x.owned.Some? then Stopping(x.owned.value)
          else LookingCancel;
    }
  }

  /** Once it is over after a successful update, it has completed the stream. */
  lemma CancelEnds(config: Config, x: Execution, c: nat, a: Answer)
    requires c < |x.cancels| && CancelOk(config, x, x.cancels[c])
    ensures var y := StepCancel(config, x, c, a);
      |y.cancels| == |x.cancels| && (y.cancels[c].wrote && y.cancels[c].pc == Over && config.streams ==>
        Call(Canceller, CompleteStream(Cancelled)) in y.trace)
  {
    if x.cancels[c].pc == Ending && config.streams {
      assert StepCancel(config, x, c, a).trace[|x.trace|] == Call(Canceller, CompleteStream(Cancelled));
    }
  }

  lemma CancelLate(config: Config, x: Execution, c: nat, a: Answer)
    requires c < |x.cancels| && CancelOk(config, x, x.cancels[c])
    ensures var y := StepCancel(config, x, c, a);
      |y.cancels| == |x.cancels| && (y.cancels[c].late ==> DrainingOrLater(x.pc))
  {
  }

  lemma CancelOwnOk(config: Config, x: Execution, y: Execution, c: nat, a: Answer)
    requires c < |x.cancels| && EntriesOk(x) && CancelOk(config, x, x.cancels[c]) && y == StepCancel(config, x, c, a)
    requires SameRunner(x, y)
    ensures |y.cancels| == |x.cancels| && CancelOk(config, y, y.cancels[c])
  {
    CancelOwnFlags(config, x, c, a);
    CancelStops(config, x, c, a);
    CancelEnds(config, x, c, a);
    CancelLate(config, x, c, a);
  }

  lemma CancelKeepsCancels(config: Config, x: Execution, y: Execution, c: nat, t: CancelState)
    requires c < |x.cancels| && CancellerKeeps(x, y, c, x.cancels[c], t) && CancellerCalls(x, y)
    requires CancelsOk(config, x) && CancelOk(config, y, t)
    ensures CancelsOk(config, y)
  {
    forall d | 0 <= d < |y.cancels| ensures CancelOk(config, y, y.cancels[d]) {
      if d != c { CancelOkStays(config, x, y, x.cancels[d]); }
    }
  }

  /** What a cancellation has done is never undone, and it is late or not for good. */
  lemma CancelFlags(x: Execution, y: Execution, c: nat, t: CancelState)
    requires c < |x.cancels| && CancellerKeeps(x, y, c, x.cancels[c], t)
    ensures AnyCalled(x) || t.called ==> AnyCalled(y)
    ensures AnyWrote(x) || t.wrote <==> AnyWrote(y)
    ensures AllLate(y) ==> AllLate(x)
  {
    assert y.cancels[c] == t;
    forall d | 0 <= d < |x.cancels| && d != c ensures y.cancels[d] == x.cancels[d] {}
  }

  lemma CancelKeepsAll(config: Config, x: Execution, y: Execution, c: nat, t: CancelState)
    requires c < |x.cancels| && CancellerKeeps(x, y, c, x.cancels[c], t)
    requires CancellerWrites(x, y, x.cancels[c], t) && CancellerCalls(x, y)
    requires Sound(config, x) && PlaceOk(y) && ReportsOk(config, y) && CancelOk(config, y, t)
    ensures Sound(config, y)
  {
    SaysKeepsTrace(x.trace, y.trace, Canceller);
    EngineStep(x.trace, y.trace, x.cid, Removed(x), Canceller);
    CancelKeepsCancels(config, x, y, c, t);
    CancelFlags(x, y, c, t);
    assert x.cancels[c].wrote ==> AnyWrote(x);
  }

  lemma CancelSound(config: Config, x: Execution, c: nat, a: Answer)
    requires c < |x.cancels| && Sound(config, x)
    ensures Sound(config, StepCancel(config, x, c, a))
  {
    assert CancelOk(config, x, x.cancels[c]);
    var y := StepCancel(config, x, c, a);
    assert y == Step(config, x, CancelStep(c, a));
    hide StepCancel, Step;
    RunnerStep(config, x, CancelStep(c, a));
    CancelMoves(config, x, c, a);
    CancelWrites(config, x, c, a);
    CancelCalls(config, x, c, a);
    CancelOwnOk(config, x, y, c, a);
    CancelKeepsAll(config, x, y, c, y.cancels[c]);
  }

  /** A step that makes no call and leaves the runner and the record alone. */
  lemma QuietSound(config: Config, x: Execution, y: Execution)
    requires Sound(config, x) && SameRunner(x, y) && y.trace == x.trace && y.row == x.row
    requires |x.cancels| <= |y.cancels| && forall c :: 0 <= c < |x.cancels| ==> y.cancels[c] == x.cancels[c]
    requires forall c :: |x.cancels| <= c < |y.cancels| ==>
        y.cancels[c] == CancelState(Reading, false, false, false, false)
    requires ReasonOk(y) && (y.ctx == CancelCalled ==> x.ctx == CancelCalled)
    ensures Sound(config, y)
  {
    forall c | 0 <= c < |y.cancels| ensures CancelOk(config, y, y.cancels[c]) {
      if c < |x.cancels| { CancelOkStays(config, x, y, x.cancels[c]); }
    }
    QuietFlags(x, y);
  }

  lemma QuietFlags(x: Execution, y: Execution)
    requires |x.cancels| <= |y.cancels| && forall c :: 0 <= c < |x.cancels| ==> y.cancels[c] == x.cancels[c]
    requires forall c :: |x.cancels| <= c < |y.cancels| ==>
        y.cancels[c] == CancelState(Reading, false, false, false, false)
    ensures AnyCalled(x) == AnyCalled(y) && AnyWrote(x) == AnyWrote(y) && AllLate(x) == AllLate(y)
  {
    assert forall c :: 0 <= c < |x.cancels| ==> x.cancels[c] == y.cancels[c];
  }

  lemma StepSound(config: Config, x: Execution, l: Label)
    requires Sound(config, x)
    ensures Sound(config, Step(config, x, l))
  {
    match l
    case Run(a) => RunSound(config, x, a);
    case Expire => QuietSound(config, x, Step(config, x, l));
    case Cancel => QuietSound(config, x, Step(config, x, l));
    case CancelStep(c, a) => if c < |x.cancels| { CancelSound(config, x, c, a); }
  }

  // ----- Every interleaving -----

  /** Each container belongs to one execution. */
  ghost predicate Owned(w: World) {
    && (forall e :: e in w.executions && w.executions[e].cid.Some? ==> w.executions[e].cid.value in w.containers)
    && (forall e, f :: e in w.executions && f in w.executions && e != f && w.executions[e].cid.Some? ==>
          w.executions[e].cid != w.executions[f].cid)
    && (forall n :: n in w.containers ==> exists e :: e in w.executions && w.executions[e].cid == Some(n))
  }

  lemma CidStep(config: Config, x: Execution, l: Label)
    requires PlaceOk(x)
    ensures Step(config, x, l).cid == if x.pc == Creating && l.Run? && l.answer.ok then Some(l.answer.n) else x.cid
  {
    if !l.Run? {
      OthersKeepRunner(config, x, l);
    } else if x.pc == Creating && l.answer.ok {
      CreatingEngine(x, l.answer);
    } else if DrainingOrLater(x.pc) {
      if x.pc == Removing { RemovingEngine(config, x, l.answer); } else { ConcludeDocker(config, x, l.answer); }
    } else {
      PrepareDocker(x, l.answer);
    }
  }

  lemma CreateOwned(w: World, e: nat, x: Execution, n: nat)
    requires Owned(w) && e in w.executions && w.executions[e].cid.None? && x.cid == Some(n) && n !in w.containers
    ensures Owned(World(w.executions[e := x], w.containers + {n}))
  {
    var v := World(w.executions[e := x], w.containers + {n});
    forall m | m in v.containers ensures exists f :: f in v.executions && v.executions[f].cid == Some(m) {
      if m == n {
        assert v.executions[e].cid == Some(m);
      } else {
        var f :| f in w.executions && w.executions[f].cid == Some(m);
        assert v.executions[f] == w.executions[f];
      }
    }
  }

  lemma KeepOwned(w: World, e: nat, x: Execution)
    requires Owned(w) && (if e in w.executions then x.cid == w.executions[e].cid else x.cid.None?)
    ensures Owned(w.(executions := w.executions[e := x]))
  {
    var v := w.(executions := w.executions[e := x]);
    forall m | m in v.containers ensures exists f :: f in v.executions && v.executions[f].cid == Some(m) {
      var f :| f in w.executions && w.executions[f].cid == Some(m);
      assert f in v.executions && v.executions[f].cid == Some(m);
    }
  }

  ghost predicate AllSound(config: Config, w: World) {
    forall e :: e in w.executions ==> Sound(config, w.executions[e])
  }

  lemma WorldStepOwned(config: Config, w: World, ev: Event)
    requires Owned(w) && AllSound(config, w)
    ensures Owned(WorldStep(config, w, ev))
  {
    if ev.Launch? {
      if ev.e !in w.executions { KeepOwned(w, ev.e, Launched(ev.setup)); }
    } else if ev.e in w.executions && !Repeats(w, w.executions[ev.e], ev.step) {
      var x := w.executions[ev.e];
      var y := Step(config, x, ev.step);
      CidStep(config, x, ev.step);
      if x.pc == Creating && ev.step.Run? && ev.step.answer.ok {
        CreateOwned(w, ev.e, y, ev.step.answer.n);
        assert WorldStep(config, w, ev) == World(w.executions[ev.e := y], w.containers + {ev.step.answer.n});
      } else {
        KeepOwned(w, ev.e, y);
        assert WorldStep(config, w, ev) == w.(executions := w.executions[ev.e := y]);
      }
    }
  }

  lemma ReplaceSound(config: Config, w: World, e: nat, x: Execution)
    requires AllSound(config, w) && Sound(config, x)
    ensures AllSound(config, w.(executions := w.executions[e := x]))
  {
  }

  lemma WorldStepSound(config: Config, w: World, ev: Event)
    requires AllSound(config, w)
    ensures AllSound(config, WorldStep(config, w, ev))
  {
    if ev.Launch? {
      LaunchedSound(config, ev.setup);
      ReplaceSound(config, w, ev.e, Launched(ev.setup));
    } else if ev.e in w.executions {
      StepSound(config, w.executions[ev.e], ev.step);
      ReplaceSound(config, w, ev.e, Step(config, w.executions[ev.e], ev.step));
    }
  }

  lemma {:induction false} InterleaveSound(config: Config, schedule: seq<Event>)
    ensures Owned(Interleave(config, schedule)) && AllSound(config, Interleave(config, schedule))
  {
    if |schedule| > 0 {
      var earlier := schedule[..|schedule| - 1];
      InterleaveSound(config, earlier);
      WorldStepOwned(config, Interleave(config, earlier), schedule[|schedule| - 1]);
      WorldStepSound(config, Interleave(config, earlier), schedule[|schedule| - 1]);
    }
  }
}

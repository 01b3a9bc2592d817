/**
 The executor as goroutines that interleave. An execution has one runner, in one of three
 modes, and any number of CancelExecution calls. A step is one action on something shared:
 the stored record, the execution's entries in the two tracking maps, its context, the
 Docker daemon, the stream, or the notifier. What Docker and the database answer is an
 oracle's choice. Executions share nothing but the daemon, which never returns a container
 id twice.
 */
module ExecutorSpec {
  import opened Wrappers

  datatype Mode = CreateMode | ExecMode | LogsMode

  datatype Status = Queued | Running | Completed | Failed | TimedOut | Cancelled

  datatype Ctx = Live | CancelCalled | DeadlineExceeded

  /** What a runner is about to do. */
  datatype Pc =
    | Begin
    | WriteRunning
    | Creating
    | WriteContainer
    | StoreOwned
    | Starting
    | ExecCreating
    | Attaching
    | StopUnattached
    | Draining
    | CheckDeadline
    | StopTimedOut
    | CheckCancelled
    | Inspecting
    | Copying(status: Status)
    | WriteFinal(status: Status)
    | Notifying(status: Status)
    | EndStream(status: Status)
    | Removing
    | DropOwned
    | DropCancel
    | Returned

  /** What the service asks of the Docker daemon about a container. */
  datatype Verb = Create | Start | Attach | Stop | CopyFrom | Remove

  /** One call to a collaborator. Containers are numbered. */
  datatype What =
    | Write(status: Status)
    | NotifyUser(status: Status)
    | CompleteStream(status: Status)
    | Engine(verb: Verb, cid: nat)

  datatype Actor = Runner | Canceller

  datatype Call = Call(who: Actor, what: What)

  datatype CancelPc =
    | Reading
    | LookingOwned
    | Stopping(cid: nat)
    | LookingCancel
    | Calling
    | WritingCancelled
    | Ending
    | Over

  /**
   A CancelExecution call. `admitted` says that it read a status it may cancel, and `late`
   that the runner had reached its output by then; `called` that it cancelled the context,
   `wrote` that its update of the record succeeded.
   */
  datatype CancelState = CancelState(pc: CancelPc, admitted: bool, late: bool, called: bool, wrote: bool)

  /** Which optional collaborators the service was given. */
  datatype Config = Config(notifier: bool, streams: bool)

  /**
   What the code knows of an execution from the start: how to run it, whether there is a
   timeout, whether to copy artifacts.
   */
  datatype Setup = Setup(mode: Mode, timed: bool, copies: bool)

  /**
   One execution: the runner's place in its code, its context and the container it
   created; the stored status; the entries in the two maps; the cancellations; and every
   call made so far, of which `reported` are the runner's own to the record store, the
   user and the stream. `final` is the outcome it reported, and `quit` says that it
   returned at its check for a cancelled context.
   */
  datatype Execution = Execution(
    setup: Setup,
    pc: Pc,
    ctx: Ctx,
    cid: Option<nat>,
    final: Option<Status>,
    quit: bool,
    row: Status,
    owned: Option<nat>,
    tracked: bool,
    cancels: seq<CancelState>,
    trace: seq<Call>,
    reported: seq<What>)

  /** What the outside world answers: success or not, and a number where one is returned. */
  datatype Answer = Answer(ok: bool, n: nat)

  datatype Label =
    | Run(answer: Answer)
    | Expire
    | Cancel
    | CancelStep(c: nat, answer: Answer)

  /** After ExecuteCommand has stored the record and started the runner. */
  function Launched(setup: Setup): Execution {
    Execution(setup, Begin, Live, None, None, false, Queued, None, false, [], [Call(Runner, Write(Queued))],
        [Write(Queued)])
  }

  // ----- The runner -----

  /** A call to the record store, the user or the stream. */
  function Report(x: Execution, what: What, pc: Pc): Execution {
    x.(pc := pc, trace := x.trace + [Call(Runner, what)], reported := x.reported + [what])
  }

  /** A write to the record; a failed one is only logged. */
  function WriteRow(x: Execution, status: Status, ok: bool, pc: Pc): Execution {
    Report(x, Write(status), pc).(row := if ok then status else x.row)
  }

  /** A call to Docker about the container the runner created. */
  function Docker(x: Execution, verb: Verb, pc: Pc): Execution {
    if x.cid.Some? then x.(pc := pc, trace := x.trace + [Call(Runner, Engine(verb, x.cid.value))]) else x.(pc := pc)
  }

  /** The first of the deferred calls registered so far. */
  function Unwind(x: Execution): Pc { if x.cid.Some? then Removing else DropCancel }

  /** From its output on, the runner writes no more "running" to the record. */
  predicate DrainingOrLater(pc: Pc) {
    match pc
    case Begin => false
    case WriteRunning => false
    case Creating => false
    case WriteContainer => false
    case StoreOwned => false
    case Starting => false
    case ExecCreating => false
    case Attaching => false
    case StopUnattached => false
    case _ => true
  }

  /** Up to the output channel. */
  function Prepare(x: Execution, a: Answer): Execution {
    match x.pc
    case Begin => x.(pc := WriteRunning, tracked := true)
    case WriteRunning =>
      WriteRow(x, Running, a.ok,
               match x.setup.mode case CreateMode => Creating case ExecMode => ExecCreating case LogsMode => Attaching)
    case Creating =>
      if a.ok then Docker(x.(cid := Some(a.n)), Create, WriteContainer) else x.(pc := WriteFinal(Failed))
    case WriteContainer => WriteRow(x, Running, a.ok, StoreOwned)
    case StoreOwned => x.(pc := Starting, owned := x.cid)
    case Starting => Docker(x, Start, if a.ok then Attaching else WriteFinal(Failed))
    case ExecCreating => x.(pc := if a.ok then Attaching else WriteFinal(Failed))
    case Attaching =>
      Docker(x, Attach, if a.ok then Draining else if x.cid.Some? then StopUnattached else WriteFinal(Failed))
    case StopUnattached => Docker(x, Stop, WriteFinal(Failed))
    case _ => x
  }

  /** From the output to an outcome. */
  function Judge(x: Execution, a: Answer): Execution {
    match x.pc
    case Draining => x.(pc := if a.ok then Draining else CheckDeadline)
    case CheckDeadline =>
      x.(pc := if x.ctx != DeadlineExceeded then CheckCancelled
               else if x.cid.Some? then StopTimedOut
               else WriteFinal(TimedOut))
    case StopTimedOut => Docker(x, Stop, WriteFinal(TimedOut))
    case CheckCancelled =>
      if x.ctx == CancelCalled then x.(pc := Unwind(x), quit := true)
      else
        x.(pc := match x.setup.mode
                 case CreateMode => Copying(Completed)
                 case ExecMode => Inspecting
                 case LogsMode => WriteFinal(Completed))
    case Inspecting =>
      x.(pc := if !a.ok then WriteFinal(Failed) else if a.n == 0 then Copying(Completed) else Copying(Failed))
    case Copying(status) =>
      if x.setup.copies then Docker(x, CopyFrom, WriteFinal(status)) else x.(pc := WriteFinal(status))
    case _ => x
  }

  predicate Finishing(pc: Pc) {
    pc.WriteFinal? || pc.Notifying? || pc.EndStream? || pc == Removing || pc == DropOwned || pc == DropCancel
        || pc == Returned
  }

  /** Reporting the outcome, and the deferred calls. */
  function Finish(config: Config, x: Execution, a: Answer): Execution {
    match x.pc
    case WriteFinal(status) => WriteRow(x, status, a.ok, Notifying(status))
    case Notifying(status) =>
      if config.notifier then Report(x, NotifyUser(status), EndStream(status)) else x.(pc := EndStream(status))
    case EndStream(status) => EndStreamStep(config, x.(final := Some(status)), status)
    case Removing => Docker(x, Remove, DropOwned)
    case DropOwned => x.(pc := DropCancel, owned := None)
    case DropCancel => x.(pc := Returned, tracked := false)
    case _ => x
  }

  function EndStreamStep(config: Config, x: Execution, status: Status): Execution {
    if config.streams then Report(x, CompleteStream(status), Unwind(x)) else x.(pc := Unwind(x))
  }

  function Conclude(config: Config, x: Execution, a: Answer): Execution {
    if Finishing(x.pc) then Finish(config, x, a) else Judge(x, a)
  }

  function RunStep(config: Config, x: Execution, a: Answer): Execution {
    if DrainingOrLater(x.pc) then Conclude(config, x, a) else Prepare(x, a)
  }

  // ----- CancelExecution -----

  function CancelGoto(x: Execution, c: nat, pc: CancelPc): Execution
    requires c < |x.cancels|
  {
    x.(cancels := x.cancels[c := x.cancels[c].(pc := pc)])
  }

  function CancelSays(x: Execution, what: What): Execution {
    x.(trace := x.trace + [Call(Canceller, what)])
  }

  function StepCancel(config: Config, x: Execution, c: nat, a: Answer): Execution
    requires c < |x.cancels|
  {
    var s := x.cancels[c];
    match s.pc
    case Reading =>
      if a.ok && (x.row == Running || x.row == Queued)
      then x.(cancels := x.cancels[c := s.(pc := LookingOwned, admitted := true, late := DrainingOrLater(x.pc))])
      else CancelGoto(x, c, Over)
    case LookingOwned => CancelGoto(x, c, if x.owned.Some? then Stopping(x.owned.value) else LookingCancel)
    case Stopping(cid) => CancelGoto(CancelSays(x, Engine(Stop, cid)), c, LookingCancel)
    case LookingCancel => CancelGoto(x, c, if x.tracked then Calling else WritingCancelled)
    case Calling =>
      x.(cancels := x.cancels[c := s.(pc := WritingCancelled, called := true)],
         ctx := if x.ctx == Live then CancelCalled else x.ctx)
    case WritingCancelled =>
      if a.ok then
        CancelSays(x, Write(Cancelled)).(
          row := Cancelled, cancels := x.cancels[c := s.(pc := Ending, wrote := true)])
      else CancelGoto(CancelSays(x, Write(Cancelled)), c, Over)
    case Ending => CancelGoto(if config.streams then CancelSays(x, CompleteStream(Cancelled)) else x, c, Over)
    case Over => x
  }

  function Step(config: Config, x: Execution, l: Label): Execution {
    match l
    case Run(a) => RunStep(config, x, a)
    case Expire => if x.setup.timed && x.pc != Begin && x.ctx == Live then x.(ctx := DeadlineExceeded) else x
    case Cancel => x.(cancels := x.cancels + [CancelState(Reading, false, false, false, false)])
    case CancelStep(c, a) => if c < |x.cancels| then StepCancel(config, x, c, a) else x
  }

  // ----- All executions -----

  /** `containers` are all that Docker ever created for the service. */
  datatype World = World(executions: map<nat, Execution>, containers: set<nat>)

  datatype Event = Launch(e: nat, setup: Setup) | At(e: nat, step: Label)

  /** The daemon would not give out this id again. */
  predicate Repeats(w: World, x: Execution, l: Label) {
    x.pc == Creating && l.Run? && l.answer.ok && l.answer.n in w.containers
  }

  function WorldStep(config: Config, w: World, ev: Event): World {
    match ev
    case Launch(e, setup) =>
      if e in w.executions then w else w.(executions := w.executions[e := Launched(setup)])
    case At(e, l) =>
      if e !in w.executions || Repeats(w, w.executions[e], l) then w
      else
        var x := w.executions[e];
        w.(executions := w.executions[e := Step(config, x, l)],
           containers :=
             if x.pc == Creating && l.Run? && l.answer.ok then w.containers + {l.answer.n} else w.containers)
  }

  /** One interleaving of everything. */
  function Interleave(config: Config, schedule: seq<Event>): World {
    if |schedule| == 0 then World(map[], {})
    else WorldStep(config, Interleave(config, schedule[..|schedule| - 1]), schedule[|schedule| - 1])
  }
}

/** Which outcome a runner reports and what it asks of Docker, in terms of what it was answered. */
module Outcomes {
  import opened Wrappers
  import opened ExecutorSpec
  import opened ExecutorRuns
  import opened ExecutorLaws
  import opened Streamed
  import StreamSpec

  /**
   What a runner has heard: whether creating and starting the container, creating the exec
   instance and attaching to the output succeeded, what its two checks of the context found,
   the answer to the exec's inspection, and whether the outcome was stored.
   */
  datatype Heard = Heard(
    created: Option<bool>,
    started: Option<bool>,
    execCreated: Option<bool>,
    attached: Option<bool>,
    late: Option<bool>,
    cancelled: Option<bool>,
    exit: Option<Answer>,
    stored: Option<bool>)

  const NOTHING: Heard := Heard(None, None, None, None, None, None, None, None)

  function Note(x: Execution, l: Label, h: Heard): Heard {
    if !l.Run? then h
    else
      match x.pc
      case Creating => h.(created := Some(l.answer.ok))
      case Starting => h.(started := Some(l.answer.ok))
      case ExecCreating => h.(execCreated := Some(l.answer.ok))
      case Attaching => h.(attached := Some(l.answer.ok))
      case CheckDeadline => h.(late := Some(x.ctx == DeadlineExceeded))
      case CheckCancelled => h.(cancelled := Some(x.ctx == CancelCalled))
      case Inspecting => h.(exit := Some(l.answer))
      case WriteFinal(_) => h.(stored := Some(l.answer.ok))
      case _ => h
  }

  /** What the runner of an execution on its own has heard. */
  function HeardAlone(config: Config, setup: Setup, labels: seq<Label>): Heard {
    if |labels| == 0 then NOTHING
    else
      var front := labels[..|labels| - 1];
      Note(Alone(config, setup, front), labels[|labels| - 1], HeardAlone(config, setup, front))
  }

  /** A move of the runner that is not about its output's chunks. */
  predicate Noted(p: Pair, m: Move) { m.Act? && (m.step.Run? ==> p.chunk.None?) }

  /** What the runner of an execution with its stream has heard. */
  function HeardTogether(config: Config, json: Status -> string, setup: Setup, moves: seq<Move>): Heard {
    if |moves| == 0 then NOTHING
    else
      var front, m := moves[..|moves| - 1], moves[|moves| - 1];
      var p, h := Together(config, json, setup, front), HeardTogether(config, json, setup, front);
      if Noted(p, m) then Note(p.x, m.step, h) else h
  }

  // ----- What must have been heard at each place -----

  function Ready(mode: Mode): Heard {
    match mode
    case CreateMode => NOTHING.(created := Some(true), started := Some(true))
    case ExecMode => NOTHING.(execCreated := Some(true))
    case LogsMode => NOTHING
  }

  function AtOutput(mode: Mode): Heard { Ready(mode).(attached := Some(true)) }

  function InTime(mode: Mode): Heard { AtOutput(mode).(late := Some(false)) }

  function Passed(mode: Mode): Heard { InTime(mode).(cancelled := Some(false)) }

  predicate FailedBy(mode: Mode, h: Heard) {
    || (mode == CreateMode && h == NOTHING.(created := Some(false)))
    || (mode == CreateMode && h == NOTHING.(created := Some(true), started := Some(false)))
    || (mode == ExecMode && h == NOTHING.(execCreated := Some(false)))
    || h == Ready(mode).(attached := Some(false))
    || (mode == ExecMode && h == Passed(mode).(exit := h.exit)
        && h.exit.Some? && (!h.exit.value.ok || h.exit.value.n != 0))
  }

  predicate CompletedBy(mode: Mode, h: Heard) {
    h == if mode == ExecMode then Passed(mode).(exit := Some(Answer(true, 0))) else Passed(mode)
  }

  predicate ConcludedBy(mode: Mode, st: Status, h: Heard) {
    match st
    case TimedOut => h == AtOutput(mode).(late := Some(true))
    case Failed => FailedBy(mode, h)
    case Completed => CompletedBy(mode, h)
    case _ => false
  }

  /** What the runner has heard before its outcome was stored. */
  function Unstored(h: Heard): Heard { h.(stored := None) }

  predicate HeardOk(x: Execution, h: Heard) {
    var mode := x.setup.mode;
    match x.pc
    case Begin => h == NOTHING
    case WriteRunning => h == NOTHING
    case Creating => mode == CreateMode && h == NOTHING
    case WriteContainer => mode == CreateMode && h == NOTHING.(created := Some(true))
    case StoreOwned => mode == CreateMode && h == NOTHING.(created := Some(true))
    case Starting => mode == CreateMode && h == NOTHING.(created := Some(true))
    case ExecCreating => mode == ExecMode && h == NOTHING
    case Attaching => h == Ready(mode)
    case StopUnattached => h == Ready(mode).(attached := Some(false))
    case Draining => h == AtOutput(mode)
    case CheckDeadline => h == AtOutput(mode)
    case StopTimedOut => h == AtOutput(mode).(late := Some(true))
    case CheckCancelled => h == InTime(mode)
    case Inspecting => mode == ExecMode && h == Passed(mode)
    case Copying(st) => ConcludedBy(mode, st, h) && h.cancelled == Some(false)
    case WriteFinal(st) => ConcludedBy(mode, st, h)
    case Notifying(st) => ConcludedBy(mode, st, Unstored(h)) && h.stored.Some?
    case EndStream(st) => ConcludedBy(mode, st, Unstored(h)) && h.stored.Some?
    case _ =>
      if x.quit then h == InTime(mode).(cancelled := Some(true))
      else x.final.Some? && ConcludedBy(mode, x.final.value, Unstored(h)) && h.stored.Some?
  }

  predicate BeforeStart(pc: Pc) {
    pc == Begin || pc == WriteRunning || pc == Creating || pc == WriteContainer || pc == StoreOwned
  }

  predicate Checking(pc: Pc) { pc == Draining || pc == CheckDeadline || pc == CheckCancelled }

  lemma PrepareHeard(x: Execution, a: Answer, h: Heard)
    requires PlaceOk(x) && !DrainingOrLater(x.pc) && HeardOk(x, h)
    ensures HeardOk(Prepare(x, a), Note(x, Run(a), h))
  {
    if BeforeStart(x.pc) { PrepareHeardFirst(x, a, h); } else { PrepareHeardThen(x, a, h); }
  }

  lemma PrepareHeardFirst(x: Execution, a: Answer, h: Heard)
    requires PlaceOk(x) && !DrainingOrLater(x.pc) && HeardOk(x, h) && BeforeStart(x.pc)
    ensures HeardOk(Prepare(x, a), Note(x, Run(a), h))
  {
  }

  lemma PrepareHeardThen(x: Execution, a: Answer, h: Heard)
    requires PlaceOk(x) && !DrainingOrLater(x.pc) && HeardOk(x, h) && !BeforeStart(x.pc)
    ensures HeardOk(Prepare(x, a), Note(x, Run(a), h))
  {
  }

  lemma JudgeHeard(x: Execution, a: Answer, h: Heard)
    requires PlaceOk(x) && DrainingOrLater(x.pc) && !Finishing(x.pc) && HeardOk(x, h)
    ensures HeardOk(Judge(x, a), Note(x, Run(a), h))
  {
    if Checking(x.pc) { JudgeHeardFirst(x, a, h); } else { JudgeHeardThen(x, a, h); }
  }

  lemma JudgeHeardFirst(x: Execution, a: Answer, h: Heard)
    requires PlaceOk(x) && DrainingOrLater(x.pc) && !Finishing(x.pc) && HeardOk(x, h) && Checking(x.pc)
    ensures HeardOk(Judge(x, a), Note(x, Run(a), h))
  {
  }

  lemma JudgeHeardThen(x: Execution, a: Answer, h: Heard)
    requires PlaceOk(x) && DrainingOrLater(x.pc) && !Finishing(x.pc) && HeardOk(x, h) && !Checking(x.pc)
    ensures HeardOk(Judge(x, a), Note(x, Run(a), h))
  {
  }

  lemma FinishHeard(config: Config, x: Execution, a: Answer, h: Heard)
    requires PlaceOk(x) && Finishing(x.pc) && HeardOk(x, h)
    ensures HeardOk(Finish(config, x, a), Note(x, Run(a), h))
  {
    if Unwinding(x.pc) { FinishHeardLast(config, x, a, h); } else { FinishHeardFirst(config, x, a, h); }
  }

  lemma FinishHeardLast(config: Config, x: Execution, a: Answer, h: Heard)
    requires PlaceOk(x) && Finishing(x.pc) && HeardOk(x, h) && Unwinding(x.pc)
    ensures HeardOk(Finish(config, x, a), Note(x, Run(a), h))
  {
  }

  lemma FinishHeardFirst(config: Config, x: Execution, a: Answer, h: Heard)
    requires PlaceOk(x) && Finishing(x.pc) && HeardOk(x, h) && !Unwinding(x.pc)
    ensures HeardOk(Finish(config, x, a), Note(x, Run(a), h))
  {
  }

  lemma StepHeard(config: Config, x: Execution, l: Label, h: Heard)
    requires PlaceOk(x) && HeardOk(x, h)
    ensures HeardOk(Step(config, x, l), Note(x, l, h))
  {
    if !l.Run? {
      OthersKeepRunner(config, x, l);
      hide Step;
    } else if !DrainingOrLater(x.pc) {
      PrepareHeard(x, l.answer, h);
    } else if Finishing(x.pc) {
      FinishHeard(config, x, l.answer, h);
    } else {
      JudgeHeard(x, l.answer, h);
    }
  }

  lemma {:induction false} AloneHeard(config: Config, setup: Setup, labels: seq<Label>)
    ensures HeardOk(Alone(config, setup, labels), HeardAlone(config, setup, labels))
  {
    if |labels| > 0 {
      var front := labels[..|labels| - 1];
      AloneHeard(config, setup, front);
      AloneSound(config, setup, front);
      StepHeard(config, Alone(config, setup, front), labels[|labels| - 1], HeardAlone(config, setup, front));
    }
  }

  lemma NextHeard(config: Config, json: Status -> string, p: Pair, m: Move, h: Heard)
    requires PlaceOk(p.x) && HeardOk(p.x, h)
    ensures HeardOk(Next(config, json, p, m).x, if Noted(p, m) then Note(p.x, m.step, h) else h)
  {
    hide HeardOk, PlaceOk;
    if m.Act? { StepHeard(config, p.x, m.step, h); }
    hide Step;
  }

  lemma {:induction false} TogetherHeard(config: Config, json: Status -> string, setup: Setup, moves: seq<Move>)
    ensures HeardOk(Together(config, json, setup, moves).x, HeardTogether(config, json, setup, moves))
  {
    if |moves| > 0 {
      var front := moves[..|moves| - 1];
      TogetherHeard(config, json, setup, front);
      TogetherOk(config, json, setup, front);
      NextHeard(config, json, Together(config, json, setup, front), moves[|moves| - 1],
                HeardTogether(config, json, setup, front));
    }
  }

  // ----- The outcome -----

  /** The outcome, told from the answers: why a run times out, fails and completes. */
  predicate Earned(mode: Mode, st: Status, h: Heard) {
    && (st == TimedOut <==> h.late == Some(true))
    && (st == Failed <==>
         || h.created == Some(false) || h.started == Some(false) || h.execCreated == Some(false)
         || h.attached == Some(false) || (h.exit.Some? && !(h.exit.value.ok && h.exit.value.n == 0)))
    && (st == Completed <==>
         && h.attached == Some(true) && h.late == Some(false) && h.cancelled == Some(false)
         && (mode == CreateMode ==> h.created == Some(true) && h.started == Some(true))
         && (mode == ExecMode ==> h.execCreated == Some(true) && h.exit == Some(Answer(true, 0))))
    && Terminal(st)
  }

  lemma HeardIsEarned(x: Execution, h: Heard)
    requires PlaceOk(x) && HeardOk(x, h)
    ensures x.final.Some? ==> Earned(x.setup.mode, x.final.value, h)
    ensures x.quit ==> h.cancelled == Some(true) && h.attached == Some(true) && h.late == Some(false)
  {
  }

  /**
   In every run, a runner that has reported an outcome has timed out iff its deadline had
   passed at its check, failed iff a call it cannot do without failed or the exec's exit
   code was not 0, and completed iff all went well; a runner that was turned back had got
   to its check in time and found its context cancelled.
   */
  lemma OutcomeIsEarned(config: Config, setup: Setup, labels: seq<Label>)
    ensures var x, h := Alone(config, setup, labels), HeardAlone(config, setup, labels);
      && (x.final.Some? ==> Earned(setup.mode, x.final.value, h))
      && (x.quit ==> h.cancelled == Some(true) && h.attached == Some(true) && h.late == Some(false))
      && (x.pc == Returned ==> x.quit != x.final.Some?)
  {
    AloneHeard(config, setup, labels);
    AloneSound(config, setup, labels);
    AloneKeepsSetup(config, setup, labels);
    HeardIsEarned(Alone(config, setup, labels), HeardAlone(config, setup, labels));
  }

  /** The same with the stream. */
  lemma StreamedOutcomeIsEarned(config: Config, json: Status -> string, setup: Setup, moves: seq<Move>)
    ensures var x, h := Together(config, json, setup, moves).x, HeardTogether(config, json, setup, moves);
      && (x.final.Some? ==> Earned(setup.mode, x.final.value, h))
      && (x.quit ==> h.cancelled == Some(true) && h.attached == Some(true) && h.late == Some(false))
      && (x.pc == Returned ==> x.quit != x.final.Some?)
  {
    TogetherHeard(config, json, setup, moves);
    TogetherOk(config, json, setup, moves);
    var labels, ops := TogetherIsBoth(config, json, setup, moves);
    AloneKeepsSetup(config, setup, labels);
    hide Together, HeardTogether, Alone, StreamSpec.Run;
    HeardIsEarned(Together(config, json, setup, moves).x, HeardTogether(config, json, setup, moves));
  }

  lemma {:induction false} AloneKeepsSetup(config: Config, setup: Setup, labels: seq<Label>)
    ensures Alone(config, setup, labels).setup == setup
  {
    if |labels| > 0 {
      var front := labels[..|labels| - 1];
      AloneKeepsSetup(config, setup, front);
      StepKeepsSetup(config, Alone(config, setup, front), labels[|labels| - 1]);
    }
  }

  lemma StepKeepsSetup(config: Config, x: Execution, l: Label)
    ensures Step(config, x, l).setup == x.setup
  {
    if !l.Run? { OthersKeepRunner(config, x, l); }
  }

  // ----- The record -----

  /** The outcome that the runner has written, or tried to. */
  function Written(x: Execution): Option<Status> {
    match x.pc
    case Notifying(st) => Some(st)
    case EndStream(st) => Some(st)
    case _ => x.final
  }

  /** Unless someone cancelled, the record says what was written last. */
  predicate RecordOk(x: Execution, h: Heard) {
    x.cancels == [] && Written(x).Some? && h.stored == Some(true) ==> x.row == Written(x).value
  }

  lemma RunRecords(config: Config, x: Execution, a: Answer, h: Heard)
    requires PlaceOk(x) && RecordOk(x, h)
    ensures RecordOk(RunStep(config, x, a), Note(x, Run(a), h))
  {
    if !DrainingOrLater(x.pc) { PrepareRecords(x, a, h); }
    else if Finishing(x.pc) { FinishRecords(config, x, a, h); }
    else { JudgeRecords(x, a, h); }
  }

  lemma PrepareRecords(x: Execution, a: Answer, h: Heard)
    requires PlaceOk(x) && !DrainingOrLater(x.pc)
    ensures RecordOk(Prepare(x, a), Note(x, Run(a), h))
  {
  }

  lemma JudgeRecords(x: Execution, a: Answer, h: Heard)
    requires PlaceOk(x) && DrainingOrLater(x.pc) && !Finishing(x.pc)
    ensures RecordOk(Judge(x, a), Note(x, Run(a), h))
  {
  }

  lemma FinishRecords(config: Config, x: Execution, a: Answer, h: Heard)
    requires PlaceOk(x) && Finishing(x.pc) && RecordOk(x, h)
    ensures RecordOk(Finish(config, x, a), Note(x, Run(a), h))
  {
  }

  lemma OthersRecord(config: Config, x: Execution, l: Label, h: Heard)
    requires !l.Run? && RecordOk(x, h)
    ensures RecordOk(Step(config, x, l), h)
  {
    OthersKeepRunner(config, x, l);
    if l.CancelStep? && l.c < |x.cancels| { CancelOnlyOwn(config, x, l.c, l.answer); }
    hide StepCancel;
  }

  lemma {:induction false} AloneRecords(config: Config, setup: Setup, labels: seq<Label>)
    ensures RecordOk(Alone(config, setup, labels), HeardAlone(config, setup, labels))
  {
    if |labels| > 0 {
      var front, l := labels[..|labels| - 1], labels[|labels| - 1];
      AloneRecords(config, setup, front);
      AloneSound(config, setup, front);
      var x, h := Alone(config, setup, front), HeardAlone(config, setup, front);
      if l.Run? { RunRecords(config, x, l.answer, h); } else { OthersRecord(config, x, l, h); }
    }
  }

  /** When an uncancelled runner has returned and could store its outcome, the record says that outcome. */
  lemma RecordSaysOutcome(config: Config, setup: Setup, labels: seq<Label>)
    requires var x := Alone(config, setup, labels); x.pc == Returned && x.cancels == []
    requires HeardAlone(config, setup, labels).stored == Some(true)
    ensures var x := Alone(config, setup, labels);
      x.final == Some(x.row) && Earned(setup.mode, x.row, HeardAlone(config, setup, labels))
  {
    AloneSound(config, setup, labels);
    AloneRecords(config, setup, labels);
    OutcomeIsEarned(config, setup, labels);
  }

  // ----- The calls to Docker -----

  /** What the runner asked of Docker, in order. */
  function Verbs(trace: seq<Call>): seq<Verb> {
    if |trace| == 0 then []
    else
      var last := trace[|trace| - 1];
      Verbs(trace[..|trace| - 1]) + if last.who == Runner && last.what.Engine? then [last.what.verb] else []
  }

  /** Which of the calls about its container a runner has made. */
  datatype Deal = Deal(create: bool, start: bool, attach: bool, stop: bool, copy: bool, remove: bool)

  /** The order in which it makes them. */
  function Order(d: Deal): seq<Verb> {
    Asked(d.create, Create) + Asked(d.start, Start) + Asked(d.attach, Attach)
    + Asked(d.stop, Stop) + Asked(d.copy, CopyFrom) + Asked(d.remove, Remove)
  }

  function Asked(b: bool, verb: Verb): seq<Verb> { if b then [verb] else [] }

  /** One more call, after which none that comes before it in the order can follow. */
  predicate AddsTo(d: Deal, verb: Verb, e: Deal) {
    match verb
    case Create => e == d.(create := true) && d == Deal(false, false, false, false, false, false)
    case Start => e == d.(start := true) && d == Deal(d.create, false, false, false, false, false)
    case Attach => e == d.(attach := true) && d == Deal(d.create, d.start, false, false, false, false)
    case Stop => e == d.(stop := true) && d == Deal(d.create, d.start, d.attach, false, false, false)
    case CopyFrom => e == d.(copy := true) && d == Deal(d.create, d.start, d.attach, d.stop, false, false)
    case Remove => e == d.(remove := true) && !d.remove
  }

  lemma OrderAdds(d: Deal, verb: Verb, e: Deal)
    requires AddsTo(d, verb, e)
    ensures Order(e) == Order(d) + [verb]
  {
  }

  /**
   What it must have asked by now about its container: to start it, to attach to it, to stop
   it when attaching failed or the deadline had passed, to copy from it when it ended well
   and there is something to copy, and to remove it.
   */
  function DealOf(x: Execution, h: Heard): Deal {
    Deal(x.cid.Some?,
         x.cid.Some? && h.started.Some?,
         x.cid.Some? && h.attached.Some?,
         && x.cid.Some?
         && ((h.attached == Some(false) && x.pc != StopUnattached) || (h.late == Some(true) && x.pc != StopTimedOut)),
         x.cid.Some? && x.setup.copies && h.cancelled == Some(false) && !x.pc.Copying?,
         Removed(x))
  }

  ghost predicate DealingsOk(x: Execution, h: Heard) { Verbs(x.trace) == Order(DealOf(x, h)) }

  lemma VerbsSnoc(trace: seq<Call>, call: Call)
    ensures Verbs(trace + [call]) ==
      Verbs(trace) + if call.who == Runner && call.what.Engine? then [call.what.verb] else []
  {
    assert (trace + [call])[..|trace|] == trace;
  }

  /** A step of the runner that makes one call about its container, or none. */
  predicate Deals(x: Execution, y: Execution, d: Deal, e: Deal) {
    if |y.trace| > |x.trace| && y.trace[|x.trace|].what.Engine? then AddsTo(d, y.trace[|x.trace|].what.verb, e)
    else d == e
  }

  lemma PrepareDeals(x: Execution, a: Answer, h: Heard)
    requires PlaceOk(x) && !DrainingOrLater(x.pc) && HeardOk(x, h)
    ensures Deals(x, Prepare(x, a), DealOf(x, h), DealOf(Prepare(x, a), Note(x, Run(a), h)))
  {
    if BeforeStart(x.pc) { PrepareDealsFirst(x, a, h); } else { PrepareDealsThen(x, a, h); }
  }

  lemma PrepareDealsFirst(x: Execution, a: Answer, h: Heard)
    requires PlaceOk(x) && !DrainingOrLater(x.pc) && HeardOk(x, h) && BeforeStart(x.pc)
    ensures Deals(x, Prepare(x, a), DealOf(x, h), DealOf(Prepare(x, a), Note(x, Run(a), h)))
  {
  }

  lemma PrepareDealsThen(x: Execution, a: Answer, h: Heard)
    requires PlaceOk(x) && !DrainingOrLater(x.pc) && HeardOk(x, h) && !BeforeStart(x.pc)
    ensures Deals(x, Prepare(x, a), DealOf(x, h), DealOf(Prepare(x, a), Note(x, Run(a), h)))
  {
  }

  lemma JudgeDeals(x: Execution, a: Answer, h: Heard)
    requires PlaceOk(x) && DrainingOrLater(x.pc) && !Finishing(x.pc) && HeardOk(x, h)
    ensures Deals(x, Judge(x, a), DealOf(x, h), DealOf(Judge(x, a), Note(x, Run(a), h)))
  {
    if Checking(x.pc) { JudgeDealsFirst(x, a, h); } else { JudgeDealsThen(x, a, h); }
  }

  lemma JudgeDealsFirst(x: Execution, a: Answer, h: Heard)
    requires PlaceOk(x) && DrainingOrLater(x.pc) && !Finishing(x.pc) && HeardOk(x, h) && Checking(x.pc)
    ensures Deals(x, Judge(x, a), DealOf(x, h), DealOf(Judge(x, a), Note(x, Run(a), h)))
  {
  }

  lemma JudgeDealsThen(x: Execution, a: Answer, h: Heard)
    requires PlaceOk(x) && DrainingOrLater(x.pc) && !Finishing(x.pc) && HeardOk(x, h) && !Checking(x.pc)
    ensures Deals(x, Judge(x, a), DealOf(x, h), DealOf(Judge(x, a), Note(x, Run(a), h)))
  {
  }

  lemma FinishDeals(config: Config, x: Execution, a: Answer, h: Heard)
    requires PlaceOk(x) && Finishing(x.pc) && HeardOk(x, h)
    ensures Deals(x, Finish(config, x, a), DealOf(x, h), DealOf(Finish(config, x, a), Note(x, Run(a), h)))
  {
    if Unwinding(x.pc) { FinishDealsLast(config, x, a, h); } else { FinishDealsFirst(config, x, a, h); }
  }

  lemma FinishDealsLast(config: Config, x: Execution, a: Answer, h: Heard)
    requires PlaceOk(x) && Unwinding(x.pc)
    ensures Deals(x, Finish(config, x, a), DealOf(x, h), DealOf(Finish(config, x, a), Note(x, Run(a), h)))
  {
    var y := Finish(config, x, a);
    assert Note(x, Run(a), h) == h;
    if x.pc == Removing {
      assert y == Docker(x, Remove, DropOwned) && y.trace == x.trace + [Call(Runner, Engine(Remove, x.cid.value))];
    } else {
      UnwindingIsQuiet(config, x, a);
    }
    hide Finish, Note;
  }

  lemma UnwindingIsQuiet(config: Config, x: Execution, a: Answer)
    requires PlaceOk(x) && Unwinding(x.pc) && x.pc != Removing
    ensures var y := Finish(config, x, a);
      y.trace == x.trace && y.cid == x.cid && y.setup == x.setup && Unwinding(y.pc) && Removed(y) == Removed(x)
  {
  }

  lemma FinishDealsFirst(config: Config, x: Execution, a: Answer, h: Heard)
    requires PlaceOk(x) && Finishing(x.pc) && HeardOk(x, h) && !Unwinding(x.pc)
    ensures Deals(x, Finish(config, x, a), DealOf(x, h), DealOf(Finish(config, x, a), Note(x, Run(a), h)))
  {
  }

  lemma RunDeals(config: Config, x: Execution, a: Answer, h: Heard)
    requires PlaceOk(x) && ReasonOk(x) && HeardOk(x, h) && DealingsOk(x, h)
    ensures DealingsOk(RunStep(config, x, a), Note(x, Run(a), h))
  {
    var y := RunStep(config, x, a);
    RunMoves(config, x, a);
    if !DrainingOrLater(x.pc) { PrepareDeals(x, a, h); }
    else if Finishing(x.pc) { FinishDeals(config, x, a, h); }
    else { JudgeDeals(x, a, h); }
    hide RunStep, DealOf, Order;
    if y.trace != x.trace {
      var call := y.trace[|x.trace|];
      VerbsSnoc(x.trace, call);
      if call.what.Engine? { OrderAdds(DealOf(x, h), call.what.verb, DealOf(y, Note(x, Run(a), h))); }
    }
  }

  lemma OthersCall(config: Config, x: Execution, l: Label)
    requires Sound(config, x) && !l.Run?
    ensures OneCall(x.trace, Step(config, x, l).trace, Canceller)
  {
    if l.CancelStep? && l.c < |x.cancels| {
      assert CancelOk(config, x, x.cancels[l.c]);
      CancelCalls(config, x, l.c, l.answer);
    }
  }

  lemma OthersDeal(config: Config, x: Execution, l: Label, h: Heard)
    requires Sound(config, x) && !l.Run? && DealingsOk(x, h)
    ensures DealingsOk(Step(config, x, l), h)
  {
    var y := Step(config, x, l);
    OthersKeepRunner(config, x, l);
    OthersCall(config, x, l);
    hide Step, Sound;
    if y.trace != x.trace { VerbsSnoc(x.trace, y.trace[|x.trace|]); }
  }

  lemma {:induction false} AloneDeals(config: Config, setup: Setup, labels: seq<Label>)
    ensures DealingsOk(Alone(config, setup, labels), HeardAlone(config, setup, labels))
  {
    if |labels| == 0 {
      VerbsSnoc([], Call(Runner, Write(Queued)));
      assert [] + [Call(Runner, Write(Queued))] == Launched(setup).trace;
    } else {
      var front, l := labels[..|labels| - 1], labels[|labels| - 1];
      AloneDeals(config, setup, front);
      AloneHeard(config, setup, front);
      AloneSound(config, setup, front);
      var x, h := Alone(config, setup, front), HeardAlone(config, setup, front);
      if l.Run? { RunDeals(config, x, l.answer, h); } else { OthersDeal(config, x, l, h); }
    }
  }

  /**
   What a runner that has returned asked of Docker about its container, call by call: it
   created and started it, attached to it if it had started, stopped it if that failed or
   the deadline had passed, copied from it if it completed and there was something to copy,
   and removed it.
   */
  lemma DealingsAreThese(config: Config, setup: Setup, labels: seq<Label>)
    requires var x := Alone(config, setup, labels); x.pc == Returned && x.cid.Some?
    ensures var x, h := Alone(config, setup, labels), HeardAlone(config, setup, labels);
      Verbs(x.trace) ==
        [Create, Start]
        + (if h.started == Some(true) then [Attach] else [])
        + (if h.attached == Some(false) || h.late == Some(true) then [Stop] else [])
        + (if setup.copies && x.final == Some(Completed) then [CopyFrom] else [])
        + [Remove]
  {
    AloneDeals(config, setup, labels);
    AloneHeard(config, setup, labels);
    AloneCreated(config, setup, labels);
    AloneSound(config, setup, labels);
    AloneKeepsSetup(config, setup, labels);
    hide Verbs, Alone, HeardAlone, HeardOk, DealOf, Order, Reports, ReportsOk, EngineOk, CancelsOk;
    ReturnedDealings(Alone(config, setup, labels), HeardAlone(config, setup, labels));
  }

  /** There is a container exactly if creating one succeeded. */
  lemma {:induction false} AloneCreated(config: Config, setup: Setup, labels: seq<Label>)
    ensures Alone(config, setup, labels).cid.Some? <==> HeardAlone(config, setup, labels).created == Some(true)
  {
    if |labels| > 0 {
      var front, l := labels[..|labels| - 1], labels[|labels| - 1];
      AloneCreated(config, setup, front);
      AloneSound(config, setup, front);
      CidStep(config, Alone(config, setup, front), l);
      hide Step;
    }
  }

  lemma ReturnedDealings(x: Execution, h: Heard)
    requires PlaceOk(x) && HeardOk(x, h) && x.pc == Returned && x.cid.Some? && h.created == Some(true)
    ensures Order(DealOf(x, h)) ==
        [Create, Start]
        + (if h.started == Some(true) then [Attach] else [])
        + (if h.attached == Some(false) || h.late == Some(true) then [Stop] else [])
        + (if x.setup.copies && x.final == Some(Completed) then [CopyFrom] else [])
        + [Remove]
  {
  }
}

/**
 An execution together with its stream. The runner publishes each chunk it receives and
 completes the stream at the end, a cancellation completes it too, and each of these calls
 waits for the stream's lock: for ever, when that is lost.
 */
module Streamed {
  import opened Wrappers
  import opened ExecutorSpec
  import opened ExecutorRuns
  import opened ExecutorLaws
  import opened Completion
  import StreamSpec
  import StreamResume

  /** `chunk` is one that the runner has received and is about to publish. */
  datatype Pair = Pair(x: Execution, s: StreamSpec.Stream, chunk: Option<string>)

  /** A step of the execution's goroutines, where `text` is the chunk if one is received, or a call of a viewer. */
  datatype Move = Act(step: Label, text: string) | Look(op: StreamSpec.Op)

  predicate ByViewer(op: StreamSpec.Op) { op.Subscribe? || op.Unsubscribe? || op.Receive? }

  /** The runner's step is to take a chunk from its output. */
  predicate Receives(config: Config, x: Execution, l: Label) {
    config.streams && l.Run? && x.pc == Draining && l.answer.ok
  }

  /** The status with which this step completes the stream, if it does. */
  function Completes(config: Config, x: Execution, l: Label): Option<Status> {
    if !config.streams then None
    else if l.Run? && x.pc.EndStream? then Some(x.pc.status)
    else if l.CancelStep? && l.c < |x.cancels| && x.cancels[l.c].pc == Ending then Some(Cancelled)
    else None
  }

  /** Publishing the chunk; the runner's code does nothing else before that. */
  function Send(p: Pair): Pair {
    if p.s.stuck || p.chunk.None? then p
    else Pair(p.x, StreamSpec.Step(p.s, StreamSpec.Publish(p.chunk.value)), None)
  }

  function Proceed(config: Config, json: Status -> string, p: Pair, l: Label): Pair {
    var status := Completes(config, p.x, l);
    if status.None? then p.(x := Step(config, p.x, l))
    else if p.s.stuck then p
    else p.(x := Step(config, p.x, l), s := StreamSpec.Step(p.s, StreamSpec.Complete(json(status.value))))
  }

  function Next(config: Config, json: Status -> string, p: Pair, m: Move): Pair {
    match m
    case Look(op) => if ByViewer(op) then p.(s := StreamSpec.Step(p.s, op)) else p
    case Act(l, text) =>
      if l.Run? && p.chunk.Some? then Send(p)
      else if Receives(config, p.x, l) then p.(chunk := Some(text))
      else Proceed(config, json, p, l)
  }

  function From(config: Config, json: Status -> string, p: Pair, moves: seq<Move>): Pair {
    if |moves| == 0 then p else Next(config, json, From(config, json, p, moves[..|moves| - 1]), moves[|moves| - 1])
  }

  /** An execution and its stream after these moves. */
  function Together(config: Config, json: Status -> string, setup: Setup, moves: seq<Move>): Pair {
    From(config, json, Pair(Launched(setup), StreamSpec.Init(), None), moves)
  }

  lemma FromSnoc(config: Config, json: Status -> string, p: Pair, moves: seq<Move>, m: Move)
    ensures From(config, json, p, moves + [m]) == Next(config, json, From(config, json, p, moves), m)
  {
    assert (moves + [m])[..|moves|] == moves;
  }

  lemma TogetherSteps(config: Config, json: Status -> string, setup: Setup, moves: seq<Move>, m: Move)
    ensures Together(config, json, setup, moves + [m]) == Next(config, json, Together(config, json, setup, moves), m)
  {
    FromSnoc(config, json, Pair(Launched(setup), StreamSpec.Init(), None), moves, m);
  }

  lemma FromOne(config: Config, json: Status -> string, p: Pair, m: Move)
    ensures From(config, json, p, [m]) == Next(config, json, p, m)
  {
    assert [] + [m] == [m];
    FromSnoc(config, json, p, [], m);
  }

  lemma {:induction false} FromConcat(config: Config, json: Status -> string, p: Pair, a: seq<Move>, b: seq<Move>)
    ensures From(config, json, p, a + b) == From(config, json, From(config, json, p, a), b)
  {
    if |b| == 0 {
      assert a + b == a;
    } else {
      var front := b[..|b| - 1];
      assert a + b == a + front + [b[|b| - 1]];
      FromSnoc(config, json, p, a + front, b[|b| - 1]);
      FromConcat(config, json, p, a, front);
    }
  }

  // ----- Both are runs of their own -----

  lemma ToldSnoc(trace: seq<Call>, call: Call, json: Status -> string)
    ensures Told(trace + [call], json) ==
        Told(trace, json) + (if call.what.CompleteStream? then [json(call.what.status)] else [])
  {
    assert (trace + [call])[..|trace|] == trace;
  }

  /** The calls of a step: one that completes the stream, or one that does not, or none. */
  predicate Calls(x: Execution, y: Execution, status: Option<Status>) {
    if status.Some? then
      |y.trace| == |x.trace| + 1 && y.trace == x.trace + [y.trace[|x.trace|]]
          && y.trace[|x.trace|].what == CompleteStream(status.value)
    else
      y.trace == x.trace
      || (|y.trace| == |x.trace| + 1 && y.trace == x.trace + [y.trace[|x.trace|]]
          && !y.trace[|x.trace|].what.CompleteStream?)
  }

  lemma PrepareCalls(x: Execution, a: Answer)
    requires !DrainingOrLater(x.pc)
    ensures Calls(x, Prepare(x, a), None)
  {
  }

  lemma JudgeCalls(x: Execution, a: Answer)
    requires DrainingOrLater(x.pc) && !Finishing(x.pc)
    ensures Calls(x, Judge(x, a), None)
  {
  }

  lemma FinishCalls(config: Config, x: Execution, a: Answer)
    requires Finishing(x.pc)
    ensures Calls(x, Finish(config, x, a), Completes(config, x, Run(a)))
  {
  }

  lemma CancelCallsOne(config: Config, x: Execution, c: nat, a: Answer)
    requires c < |x.cancels|
    ensures Calls(x, StepCancel(config, x, c, a), Completes(config, x, CancelStep(c, a)))
  {
  }

  lemma StepCalls(config: Config, x: Execution, l: Label)
    ensures Calls(x, Step(config, x, l), Completes(config, x, l))
  {
    match l
    case Run(a) =>
      if !DrainingOrLater(x.pc) { PrepareCalls(x, a); }
      else if Finishing(x.pc) { FinishCalls(config, x, a); }
      else { JudgeCalls(x, a); }
    case CancelStep(c, a) => if c < |x.cancels| { CancelCallsOne(config, x, c, a); }
    case _ =>
  }

  lemma StepTells(config: Config, x: Execution, l: Label, json: Status -> string)
    ensures Told(Step(config, x, l).trace, json) ==
      Told(x.trace, json) + (if Completes(config, x, l).Some? then [json(Completes(config, x, l).value)] else [])
  {
    var y := Step(config, x, l);
    StepCalls(config, x, l);
    if y.trace != x.trace { ToldSnoc(x.trace, y.trace[|x.trace|], json); }
  }

  /** The stream carries the first completion that the execution has asked for, and is not over before. */
  ghost predicate StreamSays(s: StreamSpec.Stream, told: seq<string>) {
    !s.gone && if told == [] then NotOver(s) else OverWith(s, told[0])
  }

  lemma PublishSays(s: StreamSpec.Stream, told: seq<string>, data: string)
    requires StreamSays(s, told)
    ensures StreamSays(StreamSpec.PublishStep(s, data), told)
  {
  }

  lemma CompleteSays(s: StreamSpec.Stream, told: seq<string>, data: string)
    requires StreamSays(s, told) && !s.stuck
    ensures StreamSays(StreamSpec.CompleteStep(s, data), told + [data])
  {
  }

  lemma LookSays(s: StreamSpec.Stream, told: seq<string>, op: StreamSpec.Op)
    requires StreamSays(s, told) && ByViewer(op)
    ensures StreamSays(StreamSpec.Step(s, op), told)
  {
  }

  /** A chunk is only being published in the middle of the output. */
  predicate ChunkOk(config: Config, p: Pair) { p.chunk.Some? ==> config.streams && p.x.pc == Draining }

  ghost predicate PairOk(config: Config, json: Status -> string, p: Pair) {
    Sound(config, p.x) && ChunkOk(config, p) && StreamSays(p.s, Told(p.x.trace, json))
  }

  lemma OthersKeepChunk(config: Config, json: Status -> string, p: Pair, l: Label)
    requires ChunkOk(config, p) && !(l.Run? && p.chunk.Some?)
    ensures ChunkOk(config, Proceed(config, json, p, l))
  {
    if !l.Run? { OthersKeepRunner(config, p.x, l); }
  }

  lemma ProceedOk(config: Config, json: Status -> string, p: Pair, l: Label)
    requires PairOk(config, json, p) && !(l.Run? && p.chunk.Some?)
    ensures PairOk(config, json, Proceed(config, json, p, l))
  {
    hide Sound, Told, Step, StreamSays;
    StepSound(config, p.x, l);
    StepTells(config, p.x, l, json);
    OthersKeepChunk(config, json, p, l);
    var status := Completes(config, p.x, l);
    if status.None? {
      assert Told(p.x.trace, json) + [] == Told(p.x.trace, json);
    } else if !p.s.stuck {
      CompleteSays(p.s, Told(p.x.trace, json), json(status.value));
    }
  }

  lemma NextOk(config: Config, json: Status -> string, p: Pair, m: Move)
    requires PairOk(config, json, p)
    ensures PairOk(config, json, Next(config, json, p, m))
  {
    hide Sound, Told, Step, StreamSays;
    match m
    case Look(op) => if ByViewer(op) { LookSays(p.s, Told(p.x.trace, json), op); }
    case Act(l, text) =>
      if l.Run? && p.chunk.Some? {
        PublishSays(p.s, Told(p.x.trace, json), p.chunk.value);
      } else if !Receives(config, p.x, l) {
        ProceedOk(config, json, p, l);
      }
  }

  lemma {:induction false} FromOk(config: Config, json: Status -> string, p: Pair, moves: seq<Move>)
    requires PairOk(config, json, p)
    ensures PairOk(config, json, From(config, json, p, moves))
  {
    if |moves| > 0 {
      FromOk(config, json, p, moves[..|moves| - 1]);
      NextOk(config, json, From(config, json, p, moves[..|moves| - 1]), moves[|moves| - 1]);
    }
  }

  lemma StartOk(config: Config, json: Status -> string, setup: Setup)
    ensures PairOk(config, json, Pair(Launched(setup), StreamSpec.Init(), None))
  {
    LaunchedSound(config, setup);
    ToldSnoc([], Call(Runner, Write(Queued)), json);
    assert [] + [Call(Runner, Write(Queued))] == Launched(setup).trace;
  }

  lemma TogetherOk(config: Config, json: Status -> string, setup: Setup, moves: seq<Move>)
    ensures PairOk(config, json, Together(config, json, setup, moves))
  {
    StartOk(config, json, setup);
    FromOk(config, json, Pair(Launched(setup), StreamSpec.Init(), None), moves);
  }

  /** What one move is for each of the two. */
  lemma NextIsSteps(config: Config, json: Status -> string, p: Pair, m: Move)
      returns (steps: seq<Label>, calls: seq<StreamSpec.Op>)
    ensures var q := Next(config, json, p, m);
      && q.x == (if steps == [] then p.x else Step(config, p.x, steps[0])) && |steps| <= 1
      && q.s == (if calls == [] then p.s else StreamSpec.Step(p.s, calls[0])) && |calls| <= 1
  {
    hide Step;
    hide StreamSpec.Step;
    steps, calls := [], [];
    match m
    case Look(op) => if ByViewer(op) { calls := [op]; }
    case Act(l, text) =>
      if l.Run? && p.chunk.Some? {
        if !p.s.stuck { calls := [StreamSpec.Publish(p.chunk.value)]; }
      } else if !Receives(config, p.x, l) {
        var status := Completes(config, p.x, l);
        if status.None? {
          steps := [l];
        } else if !p.s.stuck {
          steps, calls := [l], [StreamSpec.Complete(json(status.value))];
        }
      }
  }

  /** Each of the two goes through a run of its own, so that what holds of every run holds of both. */
  lemma {:induction false} TogetherIsBoth(config: Config, json: Status -> string, setup: Setup, moves: seq<Move>)
      returns (labels: seq<Label>, ops: seq<StreamSpec.Op>)
    ensures var p := Together(config, json, setup, moves);
      p.x == Alone(config, setup, labels) && p.s == StreamSpec.Run(ops)
  {
    if |moves| == 0 {
      labels, ops := [], [];
    } else {
      var front := moves[..|moves| - 1];
      labels, ops := TogetherIsBoth(config, json, setup, front);
      var steps, calls := NextIsSteps(config, json, Together(config, json, setup, front), moves[|moves| - 1]);
      if steps != [] {
        AloneSteps(config, setup, labels, steps[0]);
        labels := labels + [steps[0]];
      }
      if calls != [] {
        StreamResume.RunSnoc(ops, calls[0]);
        ops := ops + [calls[0]];
      }
    }
  }

  // ----- What the stream says in the end -----

  lemma {:induction false} ToldValues(trace: seq<Call>, json: Status -> string, st: Status)
    requires forall i :: 0 <= i < |trace| && trace[i].what.CompleteStream? ==>
        trace[i].what.status == Cancelled || trace[i].what.status == st
    ensures forall i :: 0 <= i < |Told(trace, json)| ==>
        Told(trace, json)[i] == json(Cancelled) || Told(trace, json)[i] == json(st)
  {
    if |trace| > 0 { ToldValues(trace[..|trace| - 1], json, st); }
  }

  lemma ReportedValues(config: Config, x: Execution, st: Status)
    requires CallsOk(x.trace) && Reports(x.trace) == FullReport(config, x.cid.Some?, st)
    ensures forall i :: 0 <= i < |x.trace| && x.trace[i].what.CompleteStream? ==>
      x.trace[i].what.status == Cancelled || x.trace[i].what.status == st
  {
    forall i | 0 <= i < |x.trace| && x.trace[i].what.CompleteStream?
      ensures x.trace[i].what.status == Cancelled || x.trace[i].what.status == st
    {
      if x.trace[i].who == Runner { CallIsReported(x.trace, i); }
    }
  }

  lemma ReportedIsTold(config: Config, json: Status -> string, x: Execution, st: Status)
    requires config.streams && Reports(x.trace) == FullReport(config, x.cid.Some?, st)
    ensures Told(x.trace, json) != []
  {
    var report := FullReport(config, x.cid.Some?, st);
    assert report[|report| - 1] == CompleteStream(st);
    ReportWasCalled(x.trace, CompleteStream(st));
    CalledIsTold(x.trace, Call(Runner, CompleteStream(st)), json);
  }

  /** The stream of a runner that has returned. */
  ghost predicate StreamEnds(json: Status -> string, p: Pair) {
    if p.x.quit then NotOver(p.s) || OverWith(p.s, json(Cancelled))
    else
      && p.x.final.Some?
      && (OverWith(p.s, json(p.x.final.value)) || OverWith(p.s, json(Cancelled)))
      && (p.x.cancels == [] ==> OverWith(p.s, json(p.x.final.value)))
  }

  /**
   When a runner has returned with an outcome, its stream is over, whether or not its lock
   was lost later, and its only completion carries that outcome or says cancelled: the
   outcome for certain if nobody cancelled. When it was turned back, the stream is over
   only as cancelled.
   */
  lemma StreamSaysOutcome(config: Config, json: Status -> string, setup: Setup, moves: seq<Move>)
    requires config.streams && Together(config, json, setup, moves).x.pc == Returned
    ensures StreamEnds(json, Together(config, json, setup, moves))
  {
    var p := Together(config, json, setup, moves);
    TogetherOk(config, json, setup, moves);
    if p.x.quit {
      QuitReports(config, p.x);
      NoReportNoCall(p.x.trace);
      ToldCancelled(p.x.trace, json);
    } else {
      SoundReports(config, p.x);
      ReportedValues(config, p.x, p.x.final.value);
      ToldValues(p.x.trace, json, p.x.final.value);
      ReportedIsTold(config, json, p.x, p.x.final.value);
      if p.x.cancels == [] {
        var labels, ops := TogetherIsBoth(config, json, setup, moves);
        AloneOnlyRunner(config, setup, labels);
        RunnerTells(p.x.trace, json);
        FullReportTells(config, p.x.cid.Some?, p.x.final.value, json);
      }
    }
  }

  // ----- Waiting for a lost lock -----

  /** The runner is in a call that waits for its stream's lock, which is lost. */
  predicate Waits(config: Config, p: Pair) {
    config.streams && p.s.stuck && (p.chunk.Some? || p.x.pc.EndStream?)
  }

  lemma StuckStays(s: StreamSpec.Stream, op: StreamSpec.Op)
    requires s.stuck
    ensures StreamSpec.Step(s, op).stuck
  {
  }

  lemma NextWaits(config: Config, json: Status -> string, p: Pair, m: Move)
    requires Waits(config, p) && ChunkOk(config, p)
    ensures var q := Next(config, json, p, m); Waits(config, q) && SameRunner(p.x, q.x) && q.chunk == p.chunk
  {
    match m
    case Look(op) => StuckStays(p.s, op);
    case Act(l, text) => if !l.Run? { OthersKeepRunner(config, p.x, l); }
  }

  lemma {:induction false} FromWaits(config: Config, json: Status -> string, p: Pair, moves: seq<Move>)
    requires Waits(config, p) && PairOk(config, json, p)
    ensures var q := From(config, json, p, moves); Waits(config, q) && SameRunner(p.x, q.x) && q.chunk == p.chunk
  {
    if |moves| > 0 {
      var front := moves[..|moves| - 1];
      FromWaits(config, json, p, front);
      FromOk(config, json, p, front);
      NextWaits(config, json, From(config, json, p, front), moves[|moves| - 1]);
    }
  }

  /**
   A runner that waits for a lost lock waits for ever: it never returns, its execution
   stays in the map of running ones, and its container, if it has one, is never removed.
   */
  lemma WaitsForever(config: Config, json: Status -> string, setup: Setup, before: seq<Move>, later: seq<Move>)
    requires Waits(config, Together(config, json, setup, before))
    ensures var p := Together(config, json, setup, before); var q := Together(config, json, setup, before + later);
      && Waits(config, q) && SameRunner(p.x, q.x) && q.x.pc != Returned && q.x.tracked && q.x.owned == p.x.cid
      && forall i :: 0 <= i < |q.x.trace| ==> !IsEngine(q.x.trace[i], Remove)
  {
    var p := Together(config, json, setup, before);
    TogetherOk(config, json, setup, before);
    FromConcat(config, json, Pair(Launched(setup), StreamSpec.Init(), None), before, later);
    FromWaits(config, json, p, later);
    TogetherOk(config, json, setup, before + later);
  }
}

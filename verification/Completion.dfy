/** What a viewer of the stream finally sees of an execution: the executor's calls, through the stream. */
module Completion {
  import opened ExecutorSpec
  import opened ExecutorRuns
  import opened ExecutorLaws
  import StreamSpec
  import StreamRuns

  /** The completions of a stream that a run of calls asks for. */
  function Completions(ops: seq<StreamSpec.Op>): seq<string> {
    if |ops| == 0 then []
    else
      var last := ops[|ops| - 1];
      Completions(ops[..|ops| - 1]) + (if last.Complete? then [last.data] else [])
  }

  /** The completions that an execution's goroutines ask for. */
  function Told(trace: seq<Call>, json: Status -> string): seq<string> {
    if |trace| == 0 then []
    else
      var what := trace[|trace| - 1].what;
      Told(trace[..|trace| - 1], json) + (if what.CompleteStream? then [json(what.status)] else [])
  }

  /** The stream is over, and its only completion, its last event, carries this. */
  ghost predicate OverWith(s: StreamSpec.Stream, data: string) {
    && s.done && |s.log| > 0 && s.log[|s.log| - 1].data == data
    && forall i :: 0 <= i < |s.log| ==> (s.log[i].kind == "complete" <==> i == |s.log| - 1)
  }

  ghost predicate NotOver(s: StreamSpec.Stream) {
    !s.done && forall i :: 0 <= i < |s.log| ==> s.log[i].kind != "complete"
  }

  lemma {:induction false} EmittedCompletion(ops: seq<StreamSpec.Op>)
    ensures StreamRuns.Completed(ops) <==> Completions(ops) != []
    ensures StreamRuns.Completed(ops) ==>
      var log := StreamRuns.Emitted(ops); |log| > 0 && log[|log| - 1].data == Completions(ops)[0]
  {
    if |ops| > 0 {
      EmittedCompletion(ops[..|ops| - 1]);
      StreamRuns.CompletedStep(ops);
    }
  }

  lemma KindsOf(s: StreamSpec.Stream)
    requires StreamSpec.LogOk(s)
    ensures if s.done then OverWith(s, s.log[|s.log| - 1].data) else NotOver(s)
  {
  }

  /**
   Unless the stream wedged or was cleaned up, it is over iff a completion was asked for, and
   carries the first that was.
   */
  lemma FirstCompletionWins(ops: seq<StreamSpec.Op>)
    requires !StreamSpec.Unreachable(StreamSpec.Run(ops))
    ensures if Completions(ops) == [] then NotOver(StreamSpec.Run(ops))
        else OverWith(StreamSpec.Run(ops), Completions(ops)[0])
  {
    StreamRuns.RunKeepsInv(ops);
    StreamRuns.LogIsEmitted(ops);
    EmittedCompletion(ops);
    KindsOf(StreamSpec.Run(ops));
  }

  // ----- A runner that was turned back -----

  lemma {:induction false} ToldCancelled(trace: seq<Call>, json: Status -> string)
    requires SaysOnlyCancelled(trace)
    ensures forall i :: 0 <= i < |Told(trace, json)| ==> Told(trace, json)[i] == json(Cancelled)
  {
    if |trace| > 0 {
      ToldCancelled(trace[..|trace| - 1], json);
    }
  }

  lemma {:induction false} CalledIsTold(trace: seq<Call>, call: Call, json: Status -> string)
    requires call in trace && call.what.CompleteStream?
    ensures Told(trace, json) != []
  {
    if trace[|trace| - 1] != call {
      CalledIsTold(trace[..|trace| - 1], call, json);
    }
  }

  /** A cancellation updated the record and ran to its end. */
  ghost predicate SomeoneFinished(x: Execution) {
    exists c :: 0 <= c < |x.cancels| && x.cancels[c].wrote && x.cancels[c].pc == Over
  }

  /**
   Whatever output was published in between: if the runner was turned back by a
   cancellation, the stream's only completion says cancelled, and there is one as soon as
   one cancellation has updated the record and run to its end.
   */
  lemma CancelledStreamSaysSo(config: Config, schedule: seq<Event>, e: nat, ops: seq<StreamSpec.Op>,
      json: Status -> string)
    requires var w := Interleave(config, schedule); e in w.executions && w.executions[e].quit
    requires Completions(ops) == Told(Interleave(config, schedule).executions[e].trace, json)
    requires !StreamSpec.Unreachable(StreamSpec.Run(ops))
    ensures var s := StreamSpec.Run(ops); NotOver(s) || OverWith(s, json(Cancelled))
    ensures config.streams && SomeoneFinished(Interleave(config, schedule).executions[e]) ==>
      OverWith(StreamSpec.Run(ops), json(Cancelled))
  {
    CancelledWhileDraining(config, schedule, e);
    if config.streams && SomeoneFinished(Interleave(config, schedule).executions[e]) {
      CalledIsTold(Interleave(config, schedule).executions[e].trace, Call(Canceller, CompleteStream(Cancelled)), json);
    }
    ToldCancelled(Interleave(config, schedule).executions[e].trace, json);
    FirstCompletionWins(ops);
  }

  // ----- An execution that nobody cancelled -----

  ghost predicate OnlyRunner(x: Execution) {
    x.cancels == [] ==> forall i :: 0 <= i < |x.trace| ==> x.trace[i].who == Runner
  }

  lemma StepOnlyRunner(config: Config, x: Execution, l: Label)
    requires Sound(config, x) && OnlyRunner(x)
    ensures OnlyRunner(Step(config, x, l))
  {
    match l
    case Run(a) => RunMoves(config, x, a);
    case Cancel =>
    case Expire =>
    case CancelStep(c, a) =>
      if c < |x.cancels| {
        assert CancelOk(config, x, x.cancels[c]);
        CancelMoves(config, x, c, a);
      }
  }

  lemma {:induction false} AloneOnlyRunner(config: Config, setup: Setup, labels: seq<Label>)
    ensures OnlyRunner(Alone(config, setup, labels))
  {
    if |labels| > 0 {
      var front := labels[..|labels| - 1];
      AloneOnlyRunner(config, setup, front);
      AloneSound(config, setup, front);
      StepOnlyRunner(config, Alone(config, setup, front), labels[|labels| - 1]);
    }
  }

  /** What the reports of a runner ask for. */
  function ToldBy(reports: seq<What>, json: Status -> string): seq<string> {
    if |reports| == 0 then []
    else
      var what := reports[|reports| - 1];
      ToldBy(reports[..|reports| - 1], json) + (if what.CompleteStream? then [json(what.status)] else [])
  }

  lemma ToldBySnoc(reports: seq<What>, what: What, json: Status -> string)
    ensures ToldBy(reports + [what], json) ==
        ToldBy(reports, json) + (if what.CompleteStream? then [json(what.status)] else [])
  {
    assert (reports + [what])[..|reports|] == reports;
  }

  lemma {:induction false} RunnerTells(trace: seq<Call>, json: Status -> string)
    requires forall i :: 0 <= i < |trace| ==> trace[i].who == Runner
    ensures Told(trace, json) == ToldBy(Reports(trace), json)
  {
    if |trace| > 0 {
      var front, what := trace[..|trace| - 1], trace[|trace| - 1].what;
      RunnerTells(front, json);
      if IsReport(what) {
        ToldBySnoc(Reports(front), what, json);
      } else {
        assert Reports(front) + [] == Reports(front);
      }
    }
  }

  lemma FullReportTells(config: Config, created: bool, st: Status, json: Status -> string)
    ensures ToldBy(FullReport(config, created, st), json) == if config.streams then [json(st)] else []
  {
    var writes := [Write(Queued), Write(Running)] + (if created then [Write(Running)] else []) + [Write(st)];
    WritesTellNothing(writes, json);
    var told := writes + (if config.notifier then [NotifyUser(st)] else []);
    if config.notifier { ToldBySnoc(writes, NotifyUser(st), json); } else { assert writes + [] == writes; }
    if config.streams { ToldBySnoc(told, CompleteStream(st), json); } else { assert told + [] == told; }
  }

  lemma {:induction false} WritesTellNothing(reports: seq<What>, json: Status -> string)
    requires forall i :: 0 <= i < |reports| ==> reports[i].Write?
    ensures ToldBy(reports, json) == []
  {
    if |reports| > 0 { WritesTellNothing(reports[..|reports| - 1], json); }
  }

  lemma UncancelledTells(config: Config, schedule: seq<Event>, e: nat, json: Status -> string) returns (st: Status)
    requires var w := Interleave(config, schedule);
      e in w.executions && w.executions[e].pc == Returned && w.executions[e].cancels == []
    ensures var x := Interleave(config, schedule).executions[e];
      && Terminal(st) && Reports(x.trace) == FullReport(config, x.cid.Some?, st)
      && Told(x.trace, json) == if config.streams then [json(st)] else []
  {
    var x := Interleave(config, schedule).executions[e];
    if x.quit { QuitNeedsCancellation(config, schedule, e); }
    st := ReturnedReportsOnce(config, schedule, e);
    var setup, labels := InterleavedIsAlone(config, schedule, e);
    AloneOnlyRunner(config, setup, labels);
    RunnerTells(x.trace, json);
    FullReportTells(config, x.cid.Some?, st, json);
  }

  /**
   When the runner of an execution that nobody cancelled has returned, its stream is over,
   and its one completion says the status that the record and the user were told.
   */
  lemma UncancelledStreamSaysOutcome(config: Config, schedule: seq<Event>, e: nat, ops: seq<StreamSpec.Op>,
      json: Status -> string)
      returns (st: Status)
    requires config.streams
    requires var w := Interleave(config, schedule);
      e in w.executions && w.executions[e].pc == Returned && w.executions[e].cancels == []
    requires Completions(ops) == Told(Interleave(config, schedule).executions[e].trace, json)
    requires !StreamSpec.Unreachable(StreamSpec.Run(ops))
    ensures var x := Interleave(config, schedule).executions[e];
      Terminal(st) && Reports(x.trace) == FullReport(config, x.cid.Some?, st)
    ensures OverWith(StreamSpec.Run(ops), json(st))
  {
    st := UncancelledTells(config, schedule, e, json);
    FirstCompletionWins(ops);
  }
}

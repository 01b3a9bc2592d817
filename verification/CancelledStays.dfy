/** When a record that says cancelled goes on saying so. */
module CancelledStays {
  import opened ExecutorSpec
  import opened ExecutorRuns
  import opened ExecutorLaws

  /** The runner will find its context cancelled. */
  predicate WillQuit(x: Execution) {
    x.ctx == CancelCalled && (x.pc == Draining || x.pc == CheckDeadline || x.pc == CheckCancelled)
  }

  /**
   The runner writes the record no more: it has issued its terminal write, or it was turned
   back, or it is at its output or checks with its context cancelled and will be.
   */
  predicate Settled(x: Execution) { x.quit || Decided(x) || WillQuit(x) }

  // ----- Settled executions stay cancelled -----

  lemma RunnerStaysSettled(config: Config, x: Execution, a: Answer)
    requires PlaceOk(x) && Settled(x) && x.row == Cancelled
    ensures Settled(RunStep(config, x, a)) && RunStep(config, x, a).row == Cancelled
  {
    if Finishing(x.pc) { FinishStaysSettled(config, x, a); } else { JudgeStaysSettled(x, a); }
  }

  lemma FinishStaysSettled(config: Config, x: Execution, a: Answer)
    requires PlaceOk(x) && Settled(x) && x.row == Cancelled && Finishing(x.pc)
    ensures Settled(Finish(config, x, a)) && Finish(config, x, a).row == Cancelled
  {
  }

  lemma JudgeStaysSettled(x: Execution, a: Answer)
    requires PlaceOk(x) && Settled(x) && x.row == Cancelled && !Finishing(x.pc)
    ensures Settled(Judge(x, a)) && Judge(x, a).row == Cancelled
    ensures x.pc == Draining || x.pc == CheckDeadline || x.pc == CheckCancelled
  {
  }

  /** Cancellations write nothing else, and the deadline comes too late for a cancelled context. */
  lemma OthersStaySettled(config: Config, x: Execution, l: Label)
    requires !l.Run? && Settled(x) && x.row == Cancelled
    ensures Settled(Step(config, x, l)) && Step(config, x, l).row == Cancelled
  {
  }

  lemma StepStaysSettled(config: Config, x: Execution, l: Label)
    requires PlaceOk(x) && Settled(x) && x.row == Cancelled
    ensures Settled(Step(config, x, l)) && Step(config, x, l).row == Cancelled
  {
    if l.Run? { RunnerStaysSettled(config, x, l.answer); } else { OthersStaySettled(config, x, l); }
  }

  // ----- Others can be overwritten -----

  predicate Writes(pc: Pc) { pc == WriteRunning || pc == WriteContainer || pc.WriteFinal? }

  /** The runner's next step in the worst case: Docker fails, and the record's write succeeds. */
  function Worst(x: Execution): Answer { Answer(Writes(x.pc), 1) }

  /** How many such steps it takes to write the record. */
  function Distance(pc: Pc): nat {
    match pc
    case WriteRunning => 0
    case WriteContainer => 0
    case WriteFinal(_) => 0
    case Begin => 1
    case Creating => 1
    case Starting => 1
    case ExecCreating => 1
    case StopUnattached => 1
    case StopTimedOut => 1
    case Inspecting => 1
    case Copying(_) => 1
    case StoreOwned => 2
    case Attaching => 2
    case CheckCancelled => 2
    case CheckDeadline => 3
    case Draining => 4
    case _ => 5
  }

  lemma WriteOverwrites(config: Config, x: Execution)
    requires PlaceOk(x) && Writes(x.pc)
    ensures RunStep(config, x, Worst(x)).row != Cancelled
  {
  }

  lemma WorstPrepare(x: Execution)
    requires PlaceOk(x) && !Settled(x) && !Writes(x.pc) && !DrainingOrLater(x.pc)
    ensures var y := Prepare(x, Worst(x)); Distance(y.pc) < Distance(x.pc) && !Settled(y)
  {
  }

  lemma WorstConclude(config: Config, x: Execution)
    requires PlaceOk(x) && !Settled(x) && !Writes(x.pc) && DrainingOrLater(x.pc)
    ensures var y := Conclude(config, x, Worst(x)); Distance(y.pc) < Distance(x.pc) && !Settled(y)
  {
    assert !Finishing(x.pc);
  }

  lemma WorstComesCloser(config: Config, x: Execution)
    requires PlaceOk(x) && !Settled(x) && !Writes(x.pc)
    ensures var y := RunStep(config, x, Worst(x)); Distance(y.pc) < Distance(x.pc) && !Settled(y)
  {
    if DrainingOrLater(x.pc) { WorstConclude(config, x); } else { WorstPrepare(x); }
  }

  lemma PlaceAt(config: Config, schedule: seq<Event>, e: nat)
    requires e in Interleave(config, schedule).executions
    ensures PlaceOk(Interleave(config, schedule).executions[e])
  {
    SoundAt(config, schedule, e);
  }

  lemma InterleaveSnoc(config: Config, schedule: seq<Event>, ev: Event)
    ensures Interleave(config, schedule + [ev]) == WorldStep(config, Interleave(config, schedule), ev)
  {
    assert (schedule + [ev])[..|schedule|] == schedule;
  }

  lemma WorldWorst(config: Config, w: World, e: nat)
    requires e in w.executions
    ensures var x := w.executions[e];
      var v := WorldStep(config, w, At(e, Run(Worst(x))));
      e in v.executions && v.executions[e] == RunStep(config, x, Worst(x))
  {
  }

  /** The steps of an unsettled runner that end with its write. */
  lemma {:induction false} RunnerOverwrites(config: Config, schedule: seq<Event>, x: Execution, e: nat)
      returns (more: seq<Event>)
    requires var w := Interleave(config, schedule); e in w.executions && w.executions[e] == x && !Settled(x)
    ensures var w := Interleave(config, schedule + more); e in w.executions && w.executions[e].row != Cancelled
    decreases Distance(x.pc)
  {
    var ev := At(e, Run(Worst(x)));
    PlaceAt(config, schedule, e);
    InterleaveSnoc(config, schedule, ev);
    WorldWorst(config, Interleave(config, schedule), e);
    if Writes(x.pc) {
      WriteOverwrites(config, x);
      more := [ev];
    } else {
      WorstComesCloser(config, x);
      var rest := RunnerOverwrites(config, schedule + [ev], RunStep(config, x, Worst(x)), e);
      more := [ev] + rest;
      assert schedule + more == schedule + [ev] + rest;
    }
  }

  // ----- Both -----

  lemma WorldStaysSettled(config: Config, w: World, ev: Event, e: nat)
    requires e in w.executions && PlaceOk(w.executions[e]) && Settled(w.executions[e])
        && w.executions[e].row == Cancelled
    ensures var v := WorldStep(config, w, ev);
      e in v.executions && Settled(v.executions[e]) && v.executions[e].row == Cancelled
  {
    var v := WorldStep(config, w, ev);
    if ev.At? && ev.e == e {
      StepStaysSettled(config, w.executions[e], ev.step);
      assert v.executions[e] == Step(config, w.executions[e], ev.step) || v == w;
    } else {
      assert v.executions[e] == w.executions[e];
    }
  }

  lemma {:induction false} SettledStaysCancelled(config: Config, schedule: seq<Event>, e: nat, more: seq<Event>)
    requires var w := Interleave(config, schedule);
      e in w.executions && Settled(w.executions[e]) && w.executions[e].row == Cancelled
    ensures var w := Interleave(config, schedule + more);
      e in w.executions && Settled(w.executions[e]) && w.executions[e].row == Cancelled
  {
    if |more| == 0 {
      assert schedule + more == schedule;
    } else {
      var front, ev := more[..|more| - 1], more[|more| - 1];
      SettledStaysCancelled(config, schedule, e, front);
      assert schedule + more == schedule + front + [ev];
      InterleaveSnoc(config, schedule + front, ev);
      PlaceAt(config, schedule + front, e);
      WorldStaysSettled(config, Interleave(config, schedule + front), ev, e);
    }
  }

  /** Whatever happens from now on, the record says cancelled. */
  ghost predicate CancelledForGood(config: Config, schedule: seq<Event>, e: nat) {
    forall more :: var w := Interleave(config, schedule + more); e in w.executions && w.executions[e].row == Cancelled
  }

  /**
   A record that says cancelled is certain to go on saying so exactly if the runner has
   issued its terminal write already, or was turned back, or is at its output or checks
   with its context cancelled. Otherwise some continuation overwrites it: a cancellation
   then succeeds and is lost.
   */
  lemma CancelledForGoodIff(config: Config, schedule: seq<Event>, e: nat)
    requires var w := Interleave(config, schedule); e in w.executions && w.executions[e].row == Cancelled
    ensures CancelledForGood(config, schedule, e) <==> Settled(Interleave(config, schedule).executions[e])
  {
    if Settled(Interleave(config, schedule).executions[e]) {
      forall more
        ensures var w := Interleave(config, schedule + more); e in w.executions && w.executions[e].row == Cancelled
      {
        SettledStaysCancelled(config, schedule, e, more);
      }
    } else {
      var more := RunnerOverwrites(config, schedule, Interleave(config, schedule).executions[e], e);
      assert !CancelledForGood(config, schedule, e);
    }
  }
}

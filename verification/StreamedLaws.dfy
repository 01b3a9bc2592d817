/** What a lost lock means for a runner: exactly when it can still report, return, and overwrite a cancellation. */
module StreamedLaws {
  import opened Wrappers
  import opened ExecutorSpec
  import opened ExecutorRuns
  import opened ExecutorLaws
  import opened CancelledStays
  import opened Streamed
  import Decimal
  import StreamSpec
  import StreamRuns
  import StreamResume

  // ----- Exactly when an outcome can still be reported -----

  /** No outcome was reported and none will be. */
  predicate Barred(config: Config, p: Pair) {
    p.x.final.None? && (p.x.quit || WillQuit(p.x) || (config.streams && p.s.stuck))
  }

  lemma JudgeStaysBarred(x: Execution, a: Answer)
    requires PlaceOk(x) && !Finishing(x.pc) && x.final.None?
    ensures Judge(x, a).final.None?
    ensures x.quit || WillQuit(x) ==> Judge(x, a).quit || WillQuit(Judge(x, a))
  {
  }

  lemma FinishStaysBarred(config: Config, x: Execution, a: Answer)
    requires PlaceOk(x) && Finishing(x.pc) && x.final.None?
    ensures x.quit ==> Finish(config, x, a).quit && Finish(config, x, a).final.None?
    ensures !x.pc.EndStream? ==> Finish(config, x, a).final.None?
  {
  }

  lemma PrepareStaysBarred(x: Execution, a: Answer)
    requires PlaceOk(x) && !DrainingOrLater(x.pc) && x.final.None?
    ensures Prepare(x, a).final.None?
  {
  }

  lemma RunStaysBarred(config: Config, x: Execution, a: Answer)
    requires PlaceOk(x) && x.final.None?
    ensures var y := RunStep(config, x, a);
      && (x.quit || WillQuit(x) ==> y.final.None? && (y.quit || WillQuit(y)))
      && (!x.pc.EndStream? ==> y.final.None?)
  {
    if !DrainingOrLater(x.pc) { PrepareStaysBarred(x, a); }
    else if Finishing(x.pc) { FinishStaysBarred(config, x, a); }
    else { JudgeStaysBarred(x, a); }
  }

  lemma OthersStayBarred(config: Config, x: Execution, l: Label)
    requires !l.Run?
    ensures var y := Step(config, x, l); (WillQuit(x) ==> WillQuit(y)) && y.quit == x.quit && y.final == x.final
  {
    CancelledContextStays(config, x, l);
    OthersKeepRunner(config, x, l);
    hide Step;
  }

  lemma CancelledContextStays(config: Config, x: Execution, l: Label)
    requires !l.Run?
    ensures x.ctx == CancelCalled ==> Step(config, x, l).ctx == CancelCalled
  {
  }

  lemma NextBarred(config: Config, json: Status -> string, p: Pair, m: Move)
    requires PlaceOk(p.x) && Barred(config, p)
    ensures Barred(config, Next(config, json, p, m))
  {
    match m
    case Look(op) => if p.s.stuck { StuckStays(p.s, op); }
    case Act(l, text) => if !(l.Run? && p.chunk.Some?) { ProceedBarred(config, json, p, l); }
  }

  lemma ProceedBarred(config: Config, json: Status -> string, p: Pair, l: Label)
    requires PlaceOk(p.x) && Barred(config, p)
    ensures Barred(config, Proceed(config, json, p, l))
  {
    if l.Run? { RunStaysBarred(config, p.x, l.answer); } else { OthersStayBarred(config, p.x, l); }
    if Completes(config, p.x, l).None? {
      hide Step;
    } else if !p.s.stuck {
      hide StreamSpec.Step;
    }
  }

  lemma {:induction false} FromBarred(config: Config, json: Status -> string, p: Pair, moves: seq<Move>)
    requires PairOk(config, json, p) && Barred(config, p)
    ensures Barred(config, From(config, json, p, moves))
  {
    if |moves| > 0 {
      var front := moves[..|moves| - 1];
      FromBarred(config, json, p, front);
      FromOk(config, json, p, front);
      NextBarred(config, json, From(config, json, p, front), moves[|moves| - 1]);
    }
  }

  /** How far a runner for which everything fails is from reporting so. */
  function Ahead(p: Pair): nat {
    match p.x.pc
    case EndStream(_) => 0
    case Notifying(_) => 1
    case WriteFinal(_) => 2
    case Attaching => 4
    case StoreOwned => 4
    case CheckCancelled => 4
    case WriteContainer => 5
    case CheckDeadline => 5
    case WriteRunning => 5
    case Begin => 6
    case Draining => if p.chunk.Some? then 7 else 6
    case _ => 3
  }

  predicate Free(config: Config, p: Pair) {
    p.x.final.None? && !p.x.quit && !WillQuit(p.x) && !(config.streams && p.s.stuck)
  }

  lemma PrepareFails(x: Execution, s: StreamSpec.Stream)
    requires PlaceOk(x) && !DrainingOrLater(x.pc) && x.final.None? && !x.quit
    ensures var y := Prepare(x, NO);
      y.final.None? && !y.quit && !WillQuit(y) && Ahead(Pair(y, s, None)) < Ahead(Pair(x, s, None))
  {
  }

  lemma JudgeFails(x: Execution, s: StreamSpec.Stream)
    requires PlaceOk(x) && DrainingOrLater(x.pc) && !Finishing(x.pc) && x.final.None? && !x.quit && !WillQuit(x)
    ensures var y := Judge(x, NO);
      y.final.None? && !y.quit && !WillQuit(y) && Ahead(Pair(y, s, None)) < Ahead(Pair(x, s, None))
  {
  }

  lemma FinishFails(config: Config, x: Execution, s: StreamSpec.Stream, t: StreamSpec.Stream)
    requires PlaceOk(x) && Finishing(x.pc) && x.final.None? && !x.quit
    ensures var y := Finish(config, x, NO);
      if x.pc.EndStream? then y.final.Some?
      else y.final.None? && !y.quit && !WillQuit(y) && Ahead(Pair(y, t, None)) < Ahead(Pair(x, s, None))
  {
  }

  lemma FailingComesCloser(config: Config, json: Status -> string, p: Pair)
    requires PairOk(config, json, p) && Free(config, p)
    ensures var q := Next(config, json, p, Act(Run(NO), ""));
      q.x.final.Some? || (Free(config, q) && Ahead(q) < Ahead(p))
  {
    if p.chunk.None? {
      if !DrainingOrLater(p.x.pc) { PrepareFails(p.x, p.s); }
      else if Finishing(p.x.pc) { FinishFails(config, p.x, p.s, p.s); }
      else { JudgeFails(p.x, p.s); }
    }
  }

  lemma {:induction false} FreeReports(config: Config, json: Status -> string, p: Pair) returns (moves: seq<Move>)
    requires PairOk(config, json, p) && Free(config, p)
    ensures From(config, json, p, moves).x.final.Some?
    decreases Ahead(p)
  {
    var m := Act(Run(NO), "");
    var q := Next(config, json, p, m);
    FailingComesCloser(config, json, p);
    NextOk(config, json, p, m);
    FromOne(config, json, p, m);
    moves := [m];
    if q.x.final.None? {
      var rest := FreeReports(config, json, q);
      FromConcat(config, json, p, [m], rest);
      moves := [m] + rest;
    }
  }

  ghost predicate CanReport(config: Config, json: Status -> string, p: Pair) {
    exists more :: From(config, json, p, more).x.final.Some?
  }

  /**
   At any time a runner that has reported no outcome can still report one exactly if it was
   not turned back, is not about to be, and the lock of its stream, if it has one, is not
   lost: whatever the output still to come and the place in the code.
   */
  lemma CanReportIff(config: Config, json: Status -> string, setup: Setup, moves: seq<Move>)
    requires Together(config, json, setup, moves).x.final.None?
    ensures var p := Together(config, json, setup, moves);
      CanReport(config, json, p) <==> !p.x.quit && !WillQuit(p.x) && !(config.streams && p.s.stuck)
  {
    var p := Together(config, json, setup, moves);
    TogetherOk(config, json, setup, moves);
    if Free(config, p) {
      var more := FreeReports(config, json, p);
    } else {
      forall more ensures From(config, json, p, more).x.final.None? { FromBarred(config, json, p, more); }
    }
  }

  // ----- Exactly when a cancelled record stays so -----

  /** The runner is in a call to publish that never returns. */
  predicate HeldUp(config: Config, p: Pair) { config.streams && p.s.stuck && p.chunk.Some? }

  predicate StaysPut(config: Config, p: Pair) { p.x.row == Cancelled && (Settled(p.x) || HeldUp(config, p)) }

  lemma OthersKeepCancelled(config: Config, x: Execution, l: Label)
    requires !l.Run? && x.row == Cancelled
    ensures Step(config, x, l).row == Cancelled
  {
  }

  lemma NextStaysPut(config: Config, json: Status -> string, p: Pair, m: Move)
    requires PlaceOk(p.x) && StaysPut(config, p)
    ensures StaysPut(config, Next(config, json, p, m))
  {
    match m
    case Look(op) => if p.s.stuck { StuckStays(p.s, op); }
    case Act(l, text) =>
      if !(l.Run? && p.chunk.Some?) {
        if Settled(p.x) { StepStaysSettled(config, p.x, l); } else { OthersKeepCancelled(config, p.x, l); }
        hide Step, Settled;
        if Completes(config, p.x, l).Some? { hide StreamSpec.Step; }
      }
  }

  lemma {:induction false} FromStaysPut(config: Config, json: Status -> string, p: Pair, moves: seq<Move>)
    requires PairOk(config, json, p) && StaysPut(config, p)
    ensures StaysPut(config, From(config, json, p, moves))
  {
    if |moves| > 0 {
      var front := moves[..|moves| - 1];
      FromStaysPut(config, json, p, front);
      FromOk(config, json, p, front);
      NextStaysPut(config, json, From(config, json, p, front), moves[|moves| - 1]);
    }
  }

  /** How far an unsettled runner is from a write of the record, in the worst case. */
  function Remaining(p: Pair): nat { 2 * Distance(p.x.pc) + if p.chunk.Some? then 1 else 0 }

  lemma WorstMove(config: Config, json: Status -> string, p: Pair)
    requires PairOk(config, json, p) && !Settled(p.x) && !HeldUp(config, p)
    ensures var q := Next(config, json, p, Act(Run(Worst(p.x)), ""));
      q.x.row != Cancelled || (!Settled(q.x) && !HeldUp(config, q) && Remaining(q) < Remaining(p))
  {
    if p.chunk.None? {
      assert !p.x.pc.EndStream?;
      if Writes(p.x.pc) { WriteOverwrites(config, p.x); } else { WorstComesCloser(config, p.x); }
      hide RunStep, Settled;
    }
  }

  lemma {:induction false} UnsettledOverwrites(config: Config, json: Status -> string, p: Pair)
      returns (moves: seq<Move>)
    requires PairOk(config, json, p) && !Settled(p.x) && !HeldUp(config, p)
    ensures From(config, json, p, moves).x.row != Cancelled
    decreases Remaining(p)
  {
    var m := Act(Run(Worst(p.x)), "");
    var q := Next(config, json, p, m);
    WorstMove(config, json, p);
    NextOk(config, json, p, m);
    FromOne(config, json, p, m);
    hide From, Next, PairOk, Settled, HeldUp, Worst;
    moves := [m];
    if q.x.row == Cancelled {
      var rest := UnsettledOverwrites(config, json, q);
      FromConcat(config, json, p, [m], rest);
      moves := [m] + rest;
    }
  }

  ghost predicate AlwaysCancelled(config: Config, json: Status -> string, p: Pair) {
    forall more :: From(config, json, p, more).x.row == Cancelled
  }

  /**
   At any time, a record that says cancelled is certain to go on saying so exactly if the
   runner has issued its terminal write, was turned back, is at its output or its checks
   with its context cancelled, or is publishing on a stream whose lock is lost.
   */
  lemma CancelledForGoodIff(config: Config, json: Status -> string, setup: Setup, moves: seq<Move>)
    requires Together(config, json, setup, moves).x.row == Cancelled
    ensures var p := Together(config, json, setup, moves);
      AlwaysCancelled(config, json, p) <==> Settled(p.x) || (config.streams && p.s.stuck && p.chunk.Some?)
  {
    var p := Together(config, json, setup, moves);
    TogetherOk(config, json, setup, moves);
    if Settled(p.x) || HeldUp(config, p) {
      forall more ensures From(config, json, p, more).x.row == Cancelled { FromStaysPut(config, json, p, more); }
    } else {
      var more := UnsettledOverwrites(config, json, p);
      assert From(config, json, p, more).x.row != Cancelled;
    }
  }

  // ----- Exactly when a runner can still return -----

  /** Places from which the runner can come to its check for a cancelled context. */
  predicate BeforeCheck(pc: Pc) {
    match pc
    case Begin => true
    case WriteRunning => true
    case Creating => true
    case WriteContainer => true
    case StoreOwned => true
    case Starting => true
    case ExecCreating => true
    case Attaching => true
    case Draining => true
    case CheckDeadline => true
    case CheckCancelled => true
    case _ => false
  }

  /** Places at which a "running" write is still to come. */
  predicate WillWriteRunning(pc: Pc) { pc == Begin || pc == WriteRunning || pc == Creating || pc == WriteContainer }

  /** This cancellation was let through and has not looked for the context yet, or is about to cancel it. */
  predicate WillCall(s: CancelState) {
    s.pc == LookingOwned || s.pc.Stopping? || s.pc == LookingCancel || s.pc == Calling
  }

  ghost predicate AnyWillCall(x: Execution) { exists c :: 0 <= c < |x.cancels| && WillCall(x.cancels[c]) }

  /** A cancellation can still be let through. */
  predicate LetsThrough(x: Execution) { x.row == Running || x.row == Queued || WillWriteRunning(x.pc) }

  /** The context is cancelled, or a cancellation can still do that before the runner looks. */
  ghost predicate MayQuit(x: Execution) {
    BeforeCheck(x.pc) && (x.ctx == CancelCalled || (x.ctx == Live && (LetsThrough(x) || AnyWillCall(x))))
  }

  /** The runner is in a call that does not return, or will be. */
  ghost predicate Lost(config: Config, p: Pair) {
    config.streams && p.s.stuck && !Unwinding(p.x.pc) && (p.chunk.Some? || !MayQuit(p.x))
  }

  lemma PrepareStaysLost(x: Execution, a: Answer)
    requires PlaceOk(x) && !DrainingOrLater(x.pc) && !MayQuit(x)
    ensures !MayQuit(Prepare(x, a)) && !Unwinding(Prepare(x, a).pc)
  {
    var y := Prepare(x, a);
    assert y.cancels == x.cancels && y.ctx == x.ctx;
    assert AnyWillCall(y) ==> AnyWillCall(x);
  }

  lemma JudgeStaysLost(x: Execution, a: Answer)
    requires PlaceOk(x) && DrainingOrLater(x.pc) && !Finishing(x.pc) && !MayQuit(x)
    ensures !MayQuit(Judge(x, a)) && !Unwinding(Judge(x, a).pc)
  {
    var y := Judge(x, a);
    assert y.cancels == x.cancels && y.ctx == x.ctx && y.row == x.row;
    assert AnyWillCall(y) ==> AnyWillCall(x);
  }

  lemma FinishStaysLost(config: Config, x: Execution, a: Answer)
    requires Finishing(x.pc) && !Unwinding(x.pc) && !x.pc.EndStream?
    ensures !MayQuit(Finish(config, x, a)) && !Unwinding(Finish(config, x, a).pc)
  {
  }

  lemma RunStaysLost(config: Config, x: Execution, a: Answer)
    requires PlaceOk(x) && !MayQuit(x) && !Unwinding(x.pc) && !x.pc.EndStream?
    ensures !MayQuit(RunStep(config, x, a)) && !Unwinding(RunStep(config, x, a).pc)
  {
    hide MayQuit;
    if !DrainingOrLater(x.pc) { PrepareStaysLost(x, a); }
    else if Finishing(x.pc) { FinishStaysLost(config, x, a); }
    else { JudgeStaysLost(x, a); }
  }

  /** What a step of a cancellation can do to its own flags, the context and the row. */
  lemma CancelStaysLost(config: Config, x: Execution, c: nat, a: Answer)
    requires c < |x.cancels|
    ensures var y := StepCancel(config, x, c, a);
      && |y.cancels| == |x.cancels|
      && (WillCall(y.cancels[c]) ==> WillCall(x.cancels[c]) || x.row == Running || x.row == Queued)
      && (y.ctx != x.ctx ==> x.ctx == Live && WillCall(x.cancels[c]))
      && (y.row == x.row || y.row == Cancelled)
  {
  }

  lemma OthersStayLost(config: Config, x: Execution, l: Label)
    requires !l.Run? && !MayQuit(x)
    ensures !MayQuit(Step(config, x, l))
  {
    var y := Step(config, x, l);
    OthersKeepRunner(config, x, l);
    match l
    case CancelStep(c, a) =>
      if c < |x.cancels| {
        CancelStaysLost(config, x, c, a);
        CancelOnlyOwn(config, x, c, a);
        assert y == StepCancel(config, x, c, a);
        hide StepCancel, Step;
        NoNewCall(x, y, c);
      }
    case Expire => assert AnyWillCall(y) ==> AnyWillCall(x);
    case Cancel => assert AnyWillCall(y) ==> AnyWillCall(x);
  }

  lemma NoNewCall(x: Execution, y: Execution, c: nat)
    requires SameRunner(x, y) && !MayQuit(x) && c < |x.cancels| == |y.cancels|
    requires y.cancels == x.cancels[c := y.cancels[c]]
    requires WillCall(y.cancels[c]) ==> WillCall(x.cancels[c]) || x.row == Running || x.row == Queued
    requires y.ctx != x.ctx ==> x.ctx == Live && WillCall(x.cancels[c])
    requires y.row == x.row || y.row == Cancelled
    ensures !MayQuit(y)
  {
    forall d | 0 <= d < |x.cancels| && d != c ensures y.cancels[d] == x.cancels[d] {}
    if AnyWillCall(y) && !AnyWillCall(x) {
      var d :| 0 <= d < |y.cancels| && WillCall(y.cancels[d]);
      assert d == c;
    }
  }

  lemma NextLost(config: Config, json: Status -> string, p: Pair, m: Move)
    requires PairOk(config, json, p) && Lost(config, p)
    ensures Lost(config, Next(config, json, p, m))
  {
    match m
    case Look(op) => StuckStays(p.s, op);
    case Act(l, text) =>
      if l.Run? {
        if p.chunk.None? && !p.x.pc.EndStream? { RunStaysLost(config, p.x, l.answer); }
        hide RunStep, MayQuit;
      } else {
        OthersKeepRunner(config, p.x, l);
        if p.chunk.None? { OthersStayLost(config, p.x, l); }
        hide Step, MayQuit;
      }
  }

  lemma {:induction false} FromLost(config: Config, json: Status -> string, p: Pair, moves: seq<Move>)
    requires PairOk(config, json, p) && Lost(config, p)
    ensures Lost(config, From(config, json, p, moves))
  {
    if |moves| > 0 {
      var front := moves[..|moves| - 1];
      FromLost(config, json, p, front);
      FromOk(config, json, p, front);
      NextLost(config, json, From(config, json, p, front), moves[|moves| - 1]);
    }
  }

  predicate Unblocked(config: Config, p: Pair) { Unwinding(p.x.pc) || !(config.streams && p.s.stuck) }

  /** How far a runner for which everything fails is from its return. */
  function Left(p: Pair): nat {
    match p.x.pc
    case Returned => 0
    case DropCancel => 1
    case DropOwned => 2
    case Removing => 3
    case _ => 4 + Ahead(p)
  }

  lemma PrepareEnds(x: Execution, s: StreamSpec.Stream)
    requires !DrainingOrLater(x.pc)
    ensures Left(Pair(Prepare(x, NO), s, None)) < Left(Pair(x, s, None))
  {
  }

  lemma JudgeEnds(x: Execution, s: StreamSpec.Stream)
    requires DrainingOrLater(x.pc) && !Finishing(x.pc)
    ensures Left(Pair(Judge(x, NO), s, None)) < Left(Pair(x, s, None))
  {
  }

  lemma FinishEnds(config: Config, x: Execution, s: StreamSpec.Stream, t: StreamSpec.Stream)
    requires Finishing(x.pc) && x.pc != Returned
    ensures Left(Pair(Finish(config, x, NO), t, None)) < Left(Pair(x, s, None))
    ensures Unwinding(x.pc) ==> Unwinding(Finish(config, x, NO).pc)
  {
  }

  lemma RunEnds(config: Config, x: Execution, s: StreamSpec.Stream, t: StreamSpec.Stream)
    requires x.pc != Returned
    ensures var y := RunStep(config, x, NO);
      Left(Pair(y, t, None)) < Left(Pair(x, s, None)) && (Unwinding(x.pc) ==> Unwinding(y.pc))
  {
    if !DrainingOrLater(x.pc) { PrepareEnds(x, s); }
    else if Finishing(x.pc) { FinishEnds(config, x, s, t); }
    else { JudgeEnds(x, s); }
  }

  lemma FailingEnds(config: Config, json: Status -> string, p: Pair)
    requires ChunkOk(config, p) && Unblocked(config, p) && p.x.pc != Returned
    ensures var q := Next(config, json, p, Act(Run(NO), "")); Unblocked(config, q) && Left(q) < Left(p)
  {
    if p.chunk.None? {
      RunEnds(config, p.x, p.s, Next(config, json, p, Act(Run(NO), "")).s);
      hide RunStep, Left;
    }
  }

  lemma {:induction false} UnblockedReturns(config: Config, json: Status -> string, p: Pair) returns (moves: seq<Move>)
    requires PairOk(config, json, p) && Unblocked(config, p)
    ensures From(config, json, p, moves).x.pc == Returned
    decreases Left(p)
  {
    if p.x.pc == Returned {
      moves := [];
    } else {
      var m := Act(Run(NO), "");
      FailingEnds(config, json, p);
      NextOk(config, json, p, m);
      FromOne(config, json, p, m);
      hide From, Next, PairOk, Unblocked;
      var rest := UnblockedReturns(config, json, Next(config, json, p, m));
      FromConcat(config, json, p, [m], rest);
      moves := [m] + rest;
    }
  }

  /** How far a runner for which all goes well is from its check for a cancelled context. */
  function ToCheck(pc: Pc): nat {
    match pc
    case Begin => 10
    case WriteRunning => 9
    case Creating => 8
    case WriteContainer => 7
    case StoreOwned => 6
    case Starting => 5
    case ExecCreating => 5
    case Attaching => 4
    case Draining => 3
    case CheckDeadline => 2
    case _ => 1
  }

  function Good(x: Execution): Answer { if x.pc == Draining then NO else YES }

  lemma GoodStep(config: Config, x: Execution)
    requires BeforeCheck(x.pc) && x.ctx != DeadlineExceeded && (x.ctx == CancelCalled || x.pc != CheckCancelled)
    ensures var y := RunStep(config, x, Good(x));
      && y.cancels == x.cancels && y.ctx == x.ctx
      && if x.pc == CheckCancelled then Unwinding(y.pc) else BeforeCheck(y.pc) && ToCheck(y.pc) < ToCheck(x.pc)
  {
  }

  lemma GoodMove(config: Config, json: Status -> string, p: Pair)
    requires p.chunk.None? && BeforeCheck(p.x.pc)
    ensures Next(config, json, p, Act(Run(Good(p.x)), "")) == p.(x := RunStep(config, p.x, Good(p.x)))
  {
    hide RunStep;
  }

  /** Once its context is cancelled, a runner can come to its check, and is turned back. */
  lemma {:induction false} CancelledComesToCheck(config: Config, json: Status -> string, p: Pair)
      returns (moves: seq<Move>)
    requires PairOk(config, json, p) && p.chunk.None? && BeforeCheck(p.x.pc) && p.x.ctx == CancelCalled
    ensures Unwinding(From(config, json, p, moves).x.pc)
    decreases ToCheck(p.x.pc)
  {
    var m := Act(Run(Good(p.x)), "");
    GoodMove(config, json, p);
    GoodStep(config, p.x);
    NextOk(config, json, p, m);
    FromOne(config, json, p, m);
    hide From, Next, PairOk, RunStep, BeforeCheck, ToCheck, Unwinding;
    moves := [m];
    if p.x.pc != CheckCancelled {
      var rest := CancelledComesToCheck(config, json, Next(config, json, p, m));
      FromConcat(config, json, p, [m], rest);
      moves := [m] + rest;
    }
  }

  function ToCall(pc: CancelPc): nat {
    match pc
    case LookingOwned => 3
    case Stopping(_) => 2
    case LookingCancel => 1
    case _ => 0
  }

  lemma CallComesCloser(config: Config, x: Execution, c: nat)
    requires c < |x.cancels| && WillCall(x.cancels[c]) && x.ctx == Live && x.tracked
    ensures var y := StepCancel(config, x, c, YES);
      && |y.cancels| == |x.cancels|
      && if x.cancels[c].pc == Calling then y.ctx == CancelCalled
         else y.ctx == Live && WillCall(y.cancels[c]) && ToCall(y.cancels[c].pc) < ToCall(x.cancels[c].pc)
  {
  }

  lemma CallMove(config: Config, json: Status -> string, p: Pair, c: nat)
    requires c < |p.x.cancels| && WillCall(p.x.cancels[c])
    ensures Next(config, json, p, Act(CancelStep(c, YES), "")) == p.(x := StepCancel(config, p.x, c, YES))
    ensures SameRunner(p.x, StepCancel(config, p.x, c, YES))
  {
    CancelKeepsRunner(config, p.x, c, YES);
    hide StepCancel;
  }

  /** A cancellation that was let through cancels the context. */
  lemma {:induction false} CallsThrough(config: Config, json: Status -> string, p: Pair, c: nat)
      returns (moves: seq<Move>)
    requires c < |p.x.cancels| && WillCall(p.x.cancels[c]) && p.x.ctx == Live && p.x.tracked
    ensures var q := From(config, json, p, moves); q.x.ctx == CancelCalled && SameRunner(p.x, q.x) && q.chunk == p.chunk
    decreases ToCall(p.x.cancels[c].pc)
  {
    var m := Act(CancelStep(c, YES), "");
    CallMove(config, json, p, c);
    CallComesCloser(config, p.x, c);
    FromOne(config, json, p, m);
    hide From, Next, StepCancel, WillCall, ToCall;
    moves := [m];
    if p.x.cancels[c].pc != Calling {
      var rest := CallsThrough(config, json, Next(config, json, p, m), c);
      FromConcat(config, json, p, [m], rest);
      moves := [m] + rest;
    }
  }

  /** A new cancellation is let through. */
  lemma LetThrough(config: Config, json: Status -> string, p: Pair) returns (moves: seq<Move>)
    requires p.x.row == Running || p.x.row == Queued
    ensures var q := From(config, json, p, moves);
      && q.chunk == p.chunk && SameRunner(p.x, q.x) && q.x.ctx == p.x.ctx
      && |q.x.cancels| == |p.x.cancels| + 1 && WillCall(q.x.cancels[|p.x.cancels|])
  {
    var come, read := Act(Cancel, ""), Act(CancelStep(|p.x.cancels|, YES), "");
    FromOne(config, json, p, come);
    FromSnoc(config, json, p, [come], read);
    assert Next(config, json, p, come) == p.(x := Step(config, p.x, Cancel));
    moves := [come] + [read];
  }

  /** The runner's next step, when it has to come first. */
  lemma RunnerFirst(config: Config, x: Execution)
    requires MayQuit(x) && x.ctx == Live && (x.pc == Begin || !(x.row == Running || x.row == Queued || AnyWillCall(x)))
    ensures var y := RunStep(config, x, YES); MayQuit(y) && y.ctx == Live && ToCheck(y.pc) < ToCheck(x.pc)
    ensures x.pc != Draining
  {
    var y := RunStep(config, x, YES);
    assert y.cancels == x.cancels;
    assert AnyWillCall(x) ==> AnyWillCall(y);
  }

  lemma {:induction false} GetsCancelled(config: Config, json: Status -> string, p: Pair) returns (moves: seq<Move>)
    requires PairOk(config, json, p) && p.chunk.None? && MayQuit(p.x)
    ensures var q := From(config, json, p, moves); q.chunk.None? && BeforeCheck(q.x.pc) && q.x.ctx == CancelCalled
    decreases ToCheck(p.x.pc)
  {
    if p.x.ctx == CancelCalled {
      moves := [];
    } else if p.x.pc == Begin || !(p.x.row == Running || p.x.row == Queued || AnyWillCall(p.x)) {
      var m := Act(Run(YES), "");
      RunnerFirst(config, p.x);
      GoodMove(config, json, p);
      NextOk(config, json, p, m);
      FromOne(config, json, p, m);
      hide From, Next, PairOk, RunStep, MayQuit, BeforeCheck, ToCheck;
      var rest := GetsCancelled(config, json, Next(config, json, p, m));
      FromConcat(config, json, p, [m], rest);
      moves := [m] + rest;
    } else {
      moves := IsCancelled(config, json, p);
    }
  }

  lemma IsCancelled(config: Config, json: Status -> string, p: Pair) returns (moves: seq<Move>)
    requires PairOk(config, json, p) && p.x.ctx == Live && BeforeCheck(p.x.pc) && p.x.pc != Begin
    requires p.x.row == Running || p.x.row == Queued || AnyWillCall(p.x)
    ensures var q := From(config, json, p, moves); q.x.ctx == CancelCalled && SameRunner(p.x, q.x) && q.chunk == p.chunk
  {
    assert p.x.tracked;
    hide PairOk, WillCall;
    if AnyWillCall(p.x) {
      var c :| 0 <= c < |p.x.cancels| && WillCall(p.x.cancels[c]);
      moves := CallsThrough(config, json, p, c);
    } else {
      var first := LetThrough(config, json, p);
      var rest := CallsThrough(config, json, From(config, json, p, first), |p.x.cancels|);
      FromConcat(config, json, p, first, rest);
      moves := first + rest;
    }
  }

  ghost predicate CanReturn(config: Config, json: Status -> string, p: Pair) {
    exists more :: From(config, json, p, more).x.pc == Returned
  }

  lemma MayQuitReturns(config: Config, json: Status -> string, p: Pair) returns (moves: seq<Move>)
    requires PairOk(config, json, p) && p.chunk.None? && MayQuit(p.x)
    ensures From(config, json, p, moves).x.pc == Returned
  {
    hide PairOk, From, MayQuit, BeforeCheck, Unwinding;
    var a := GetsCancelled(config, json, p);
    FromOk(config, json, p, a);
    var q := From(config, json, p, a);
    var b := CancelledComesToCheck(config, json, q);
    FromOk(config, json, q, b);
    var c := UnblockedReturns(config, json, From(config, json, q, b));
    FromConcat(config, json, p, a, b);
    FromConcat(config, json, p, a + b, c);
    moves := a + b + c;
  }

  /**
   At any time a runner can still return exactly if it is at its deferred calls already, or
   the lock of its stream, if it has one, is not lost, or it is not publishing and can still
   be turned back: it is before its check, and its context is cancelled, or is live and a
   cancellation is under way or can still be let through.
   */
  lemma CanReturnIff(config: Config, json: Status -> string, setup: Setup, moves: seq<Move>)
    ensures var p := Together(config, json, setup, moves);
      CanReturn(config, json, p) <==>
        Unwinding(p.x.pc) || !(config.streams && p.s.stuck) || (p.chunk.None? && MayQuit(p.x))
  {
    var p := Together(config, json, setup, moves);
    TogetherOk(config, json, setup, moves);
    if Unblocked(config, p) {
      var more := UnblockedReturns(config, json, p);
    } else if p.chunk.None? && MayQuit(p.x) {
      var more := MayQuitReturns(config, json, p);
    } else {
      forall more ensures From(config, json, p, more).x.pc != Returned { FromLost(config, json, p, more); }
    }
  }

  /** The runner's container has been removed. */
  ghost predicate IsRemoved(x: Execution) { exists i :: 0 <= i < |x.trace| && IsEngine(x.trace[i], Remove) }

  ghost predicate CanBeRemoved(config: Config, json: Status -> string, p: Pair) {
    exists more :: IsRemoved(From(config, json, p, more).x)
  }

  /** And exactly then its container can still be removed, or has been. */
  lemma CanBeRemovedIff(config: Config, json: Status -> string, setup: Setup, moves: seq<Move>)
    requires Together(config, json, setup, moves).x.cid.Some?
    ensures var p := Together(config, json, setup, moves);
      CanBeRemoved(config, json, p) <==>
        Unwinding(p.x.pc) || !(config.streams && p.s.stuck) || (p.chunk.None? && MayQuit(p.x))
  {
    CanReturnIff(config, json, setup, moves);
    hide MayQuit, Unwinding;
    var p := Together(config, json, setup, moves);
    TogetherOk(config, json, setup, moves);
    hide PairOk, From, Together;
    if CanReturn(config, json, p) {
      var more :| From(config, json, p, more).x.pc == Returned;
      ReturnRemoves(config, json, p, more);
    }
    if CanBeRemoved(config, json, p) {
      var more :| IsRemoved(From(config, json, p, more).x);
      RemovedReturns(config, json, p, more);
    }
  }

  lemma ReturnRemoves(config: Config, json: Status -> string, p: Pair, more: seq<Move>)
    requires PairOk(config, json, p) && p.x.cid.Some? && From(config, json, p, more).x.pc == Returned
    ensures IsRemoved(From(config, json, p, more).x)
  {
    FromOk(config, json, p, more);
    FromKeepsContainer(config, json, p, more);
    ReturnedIsRemoved(config, From(config, json, p, more).x);
  }

  lemma RemovedReturns(config: Config, json: Status -> string, p: Pair, more: seq<Move>)
    requires PairOk(config, json, p) && IsRemoved(From(config, json, p, more).x)
    ensures CanReturn(config, json, p)
  {
    FromOk(config, json, p, more);
    RemovedUnwinds(config, From(config, json, p, more).x);
    hide PairOk, From;
    var rest := UnblockedReturns(config, json, From(config, json, p, more));
    FromConcat(config, json, p, more, rest);
  }

  lemma ReturnedIsRemoved(config: Config, x: Execution)
    requires Sound(config, x) && x.pc == Returned && x.cid.Some?
    ensures IsRemoved(x)
  {
    RemovedOnce(x.trace, x.cid.value);
    var i: nat :| RemovedOnceAt(x.trace, x.cid.value, i);
    assert IsEngine(x.trace[i], Remove);
  }

  lemma RemovedUnwinds(config: Config, x: Execution)
    requires Sound(config, x) && IsRemoved(x)
    ensures Unwinding(x.pc)
  {
    var i :| 0 <= i < |x.trace| && IsEngine(x.trace[i], Remove);
  }

  lemma NextKeepsContainer(config: Config, json: Status -> string, p: Pair, m: Move)
    requires PlaceOk(p.x) && p.x.cid.Some?
    ensures Next(config, json, p, m).x.cid == p.x.cid
  {
    match m
    case Look(op) =>
    case Act(l, text) =>
      StepKeepsContainer(config, p.x, l);
      hide Step, PlaceOk;
  }

  lemma StepKeepsContainer(config: Config, x: Execution, l: Label)
    requires PlaceOk(x) && x.cid.Some?
    ensures Step(config, x, l).cid == x.cid
  {
    CidStep(config, x, l);
  }

  lemma {:induction false} FromKeepsContainer(config: Config, json: Status -> string, p: Pair, moves: seq<Move>)
    requires PairOk(config, json, p) && p.x.cid.Some?
    ensures From(config, json, p, moves).x.cid == p.x.cid
  {
    if |moves| > 0 {
      var front := moves[..|moves| - 1];
      FromKeepsContainer(config, json, p, front);
      FromOk(config, json, p, front);
      NextKeepsContainer(config, json, From(config, json, p, front), moves[|moves| - 1]);
    }
  }

  // ----- The output on the stream -----

  /** The move is that the runner takes a chunk from its output. */
  predicate Takes(config: Config, p: Pair, m: Move) {
    m.Act? && !(m.step.Run? && p.chunk.Some?) && Receives(config, p.x, m.step)
  }

  /** The chunks that the runner took from its output in the course of these moves. */
  function Taken(config: Config, json: Status -> string, p: Pair, moves: seq<Move>): seq<string> {
    if |moves| == 0 then []
    else
      var front, m := moves[..|moves| - 1], moves[|moves| - 1];
      Taken(config, json, p, front) + if Takes(config, From(config, json, p, front), m) then [m.text] else []
  }

  /** The chunks that a stream carries. */
  function Output(log: seq<StreamSpec.Event>): seq<string> {
    if |log| == 0 then []
    else
      var last := log[|log| - 1];
      Output(log[..|log| - 1]) + if last.kind == "output" then [last.data] else []
  }

  lemma OutputSnoc(log: seq<StreamSpec.Event>, e: StreamSpec.Event)
    ensures Output(log + [e]) == Output(log) + if e.kind == "output" then [e.data] else []
  {
    assert (log + [e])[..|log|] == log;
  }

  function Pending(p: Pair): seq<string> { if p.chunk.Some? then [p.chunk.value] else [] }

  /** The stream carries the chunks taken up to one that is being published, until a cancellation completes it. */
  predicate Carries(p: Pair, taken: seq<string>) {
    && !p.s.gone
    && Output(p.s.log) <= taken
    && (!p.s.done || p.x.cancels == [] ==> taken == Output(p.s.log) + Pending(p))
    && (p.s.done && p.x.cancels == [] ==> p.x.final.Some?)
  }

  lemma SendCarries(config: Config, p: Pair, taken: seq<string>)
    requires OutcomeOk(p.x) && ChunkOk(config, p) && Carries(p, taken) && p.chunk.Some?
    ensures Carries(Send(p), taken)
  {
    if !p.s.stuck && !p.s.done {
      var e := StreamSpec.Event(Decimal.Itoa(p.s.nextID), "output", p.chunk.value);
      OutputSnoc(p.s.log, e);
    }
  }

  lemma CompleteCarries(s: StreamSpec.Stream, data: string)
    ensures Output(StreamSpec.CompleteStep(s, data).log) == Output(s.log)
  {
    OutputSnoc(s.log, StreamSpec.Event(Decimal.Itoa(s.nextID), "complete", data));
  }

  /** No cancellation disappears, and an outcome stays. */
  lemma StepKeepsFinal(config: Config, x: Execution, l: Label)
    requires PlaceOk(x)
    ensures var y := Step(config, x, l);
      && |x.cancels| <= |y.cancels|
      && (x.final.Some? ==> y.final.Some?)
      && (Completes(config, x, l).Some? && x.cancels == [] ==> y.final.Some?)
  {
    if l.Run? {
      RunKeepsFinal(config, x, l.answer);
    } else {
      OthersKeepRunner(config, x, l);
      if l.CancelStep? && l.c < |x.cancels| { CancelOnlyOwn(config, x, l.c, l.answer); }
      hide StepCancel;
    }
  }

  lemma RunKeepsFinal(config: Config, x: Execution, a: Answer)
    requires PlaceOk(x)
    ensures var y := RunStep(config, x, a);
      y.cancels == x.cancels && (x.final.Some? || x.pc.EndStream? ==> y.final.Some?)
  {
    if !DrainingOrLater(x.pc) { PrepareKeepsFinal(x, a); }
    else if Finishing(x.pc) { FinishKeepsFinal(config, x, a); }
    else { JudgeKeepsFinal(x, a); }
  }

  lemma PrepareKeepsFinal(x: Execution, a: Answer)
    ensures Prepare(x, a).cancels == x.cancels && Prepare(x, a).final == x.final
  {
  }

  lemma JudgeKeepsFinal(x: Execution, a: Answer)
    ensures Judge(x, a).cancels == x.cancels && Judge(x, a).final == x.final
  {
  }

  lemma FinishKeepsFinal(config: Config, x: Execution, a: Answer)
    ensures var y := Finish(config, x, a);
      y.cancels == x.cancels && (x.final.Some? || x.pc.EndStream? ==> y.final.Some?)
  {
  }

  lemma ProceedCarries(config: Config, json: Status -> string, p: Pair, l: Label, taken: seq<string>)
    requires PlaceOk(p.x) && ChunkOk(config, p) && Carries(p, taken) && !(l.Run? && p.chunk.Some?)
    ensures Carries(Proceed(config, json, p, l), taken)
  {
    StepKeepsFinal(config, p.x, l);
    var status := Completes(config, p.x, l);
    if status.Some? { CompleteCarries(p.s, json(status.value)); }
    hide Step, Output;
  }

  lemma LookCarries(p: Pair, op: StreamSpec.Op, taken: seq<string>)
    requires Carries(p, taken) && ByViewer(op)
    ensures Carries(p.(s := StreamSpec.Step(p.s, op)), taken)
  {
    hide Output;
  }

  lemma NextCarries(config: Config, json: Status -> string, p: Pair, m: Move, taken: seq<string>)
    requires PairOk(config, json, p) && Carries(p, taken)
    ensures Carries(Next(config, json, p, m), taken + if Takes(config, p, m) then [m.text] else [])
  {
    match m
    case Look(op) =>
      assert taken + [] == taken;
      if ByViewer(op) { LookCarries(p, op, taken); }
    case Act(l, text) =>
      if l.Run? && p.chunk.Some? {
        assert taken + [] == taken;
        SendCarries(config, p, taken);
      } else if Receives(config, p.x, l) {
        TakeCarries(p, taken, text);
      } else {
        assert taken + [] == taken;
        ProceedCarries(config, json, p, l, taken);
      }
  }

  lemma TakeCarries(p: Pair, taken: seq<string>, text: string)
    requires Carries(p, taken) && p.chunk.None?
    ensures Carries(p.(chunk := Some(text)), taken + [text])
  {
  }

  lemma {:induction false} FromCarries(config: Config, json: Status -> string, setup: Setup, moves: seq<Move>)
    ensures Carries(Together(config, json, setup, moves),
                    Taken(config, json, Pair(Launched(setup), StreamSpec.Init(), None), moves))
  {
    if |moves| > 0 {
      var front := moves[..|moves| - 1];
      FromCarries(config, json, setup, front);
      TogetherOk(config, json, setup, front);
      var taken := Taken(config, json, Pair(Launched(setup), StreamSpec.Init(), None), front);
      NextCarries(config, json, Together(config, json, setup, front), moves[|moves| - 1], taken);
    }
  }

  lemma {:induction false} OutputOfLog(log: seq<StreamSpec.Event>, done: bool)
    requires forall i :: 0 <= i < |log| ==> log[i].kind == if done && i == |log| - 1 then "complete" else "output"
    ensures |Output(log)| == if done && |log| > 0 then |log| - 1 else |log|
    ensures forall i :: 0 <= i < |Output(log)| ==> Output(log)[i] == log[i].data
  {
    if |log| > 0 { OutputOfLog(log[..|log| - 1], false); }
  }

  /**
   Events 1, 2, 3, ... of the stream are the chunks that the runner took from its output, in
   order: all of them, up to one that is being published, as long as nobody cancels, and as
   long as the stream is not over otherwise.
   */
  lemma OutputIsCarried(config: Config, json: Status -> string, setup: Setup, moves: seq<Move>)
    ensures var p := Together(config, json, setup, moves);
      var taken := Taken(config, json, Pair(Launched(setup), StreamSpec.Init(), None), moves);
      var n := if p.s.done then |p.s.log| - 1 else |p.s.log|;
      && 0 <= n <= |taken|
      && (forall i :: 0 <= i < n ==> p.s.log[i] == StreamSpec.Event(Decimal.Itoa(i + 1), "output", taken[i]))
      && (!p.s.done || p.x.cancels == [] ==> taken == taken[..n] + Pending(p))
  {
    var p := Together(config, json, setup, moves);
    var taken := Taken(config, json, Pair(Launched(setup), StreamSpec.Init(), None), moves);
    FromCarries(config, json, setup, moves);
    var labels, ops := TogetherIsBoth(config, json, setup, moves);
    StreamRuns.RunKeepsInv(ops);
    OutputOfLog(p.s.log, p.s.done);
    assert Output(p.s.log) == taken[..|Output(p.s.log)|];
  }

  // ----- A run that hangs -----

  /** On the way to its output, when Docker does what it is asked. */
  predicate Starts(pc: Pc) {
    pc == Begin || pc == WriteRunning || pc == Creating || pc == WriteContainer || pc == StoreOwned || pc == Starting
        || pc == Attaching
  }

  function ToOutput(pc: Pc): nat {
    match pc
    case Begin => 7
    case WriteRunning => 6
    case Creating => 5
    case WriteContainer => 4
    case StoreOwned => 3
    case Starting => 2
    case Attaching => 1
    case _ => 0
  }

  predicate StartsWell(x: Execution) {
    && x.setup.mode == CreateMode && (Starts(x.pc) || x.pc == Draining)
    && (x.pc == Begin || x.pc == WriteRunning || x.pc == Creating || x.cid.Some?)
  }

  lemma RunComesCloser(config: Config, x: Execution)
    requires PlaceOk(x) && StartsWell(x) && x.pc != Draining
    ensures var y := RunStep(config, x, YES); StartsWell(y) && ToOutput(y.pc) < ToOutput(x.pc)
  {
  }

  lemma StartComesCloser(config: Config, json: Status -> string, p: Pair)
    requires PlaceOk(p.x) && p.chunk.None? && StartsWell(p.x) && p.x.pc != Draining
    ensures var q := Next(config, json, p, Act(Run(YES), ""));
      StartsWell(q.x) && ToOutput(q.x.pc) < ToOutput(p.x.pc) && q.s == p.s && q.chunk.None?
  {
    RunComesCloser(config, p.x);
    hide RunStep, StartsWell;
  }

  lemma {:induction false} StartsUp(config: Config, json: Status -> string, p: Pair) returns (moves: seq<Move>)
    requires PairOk(config, json, p) && p.chunk.None? && StartsWell(p.x)
    ensures var q := From(config, json, p, moves); q.x.pc == Draining && q.x.cid.Some? && q.s == p.s && q.chunk.None?
    decreases ToOutput(p.x.pc)
  {
    if p.x.pc == Draining {
      moves := [];
    } else {
      var m := Act(Run(YES), "");
      var q := Next(config, json, p, m);
      StartComesCloser(config, json, p);
      NextOk(config, json, p, m);
      FromOne(config, json, p, m);
      hide From, Next, PairOk, StartsWell;
      var rest := StartsUp(config, json, q);
      FromConcat(config, json, p, [m], rest);
      moves := [m] + rest;
    }
  }

  /** The runner receives and publishes n chunks. */
  lemma {:induction false} Drains(config: Config, json: Status -> string, p: Pair, n: nat, data: string)
      returns (moves: seq<Move>)
    requires config.streams && p.x.pc == Draining && p.chunk.None? && p.s == StreamSpec.Init()
        && n <= StreamSpec.MAX_BUFFERED
    ensures From(config, json, p, moves) == p.(s := StreamSpec.Run(seq(n, i => StreamSpec.Publish(data))))
  {
    if n == 0 {
      moves := [];
    } else {
      var rest := Drains(config, json, p, n - 1, data);
      var ops := seq(n - 1, i => StreamSpec.Publish(data));
      var q := p.(s := StreamSpec.Run(ops));
      StreamResume.PublishMany(n - 1, data);
      assert ops + [StreamSpec.Publish(data)] == seq(n, i => StreamSpec.Publish(data));
      StreamResume.RunSnoc(ops, StreamSpec.Publish(data));
      FromSnoc(config, json, p, rest, Act(Run(YES), data));
      assert Next(config, json, q, Act(Run(YES), data)) == q.(chunk := Some(data));
      FromSnoc(config, json, p, rest + [Act(Run(YES), data)], Act(Run(YES), ""));
      moves := rest + [Act(Run(YES), data)] + [Act(Run(YES), "")];
    }
  }

  /** A first viewer comes late, and the next chunk is received. */
  lemma ViewerComes(config: Config, json: Status -> string, p: Pair, ops: seq<StreamSpec.Op>, data: string)
      returns (moves: seq<Move>)
    requires config.streams && p.x.pc == Draining && p.chunk.None?
    requires p.s == StreamSpec.Run(ops) && StreamSpec.Run(ops + [StreamSpec.Subscribe("")]).stuck
    ensures var q := From(config, json, p, moves); Waits(config, q) && q.x == p.x
  {
    var look, take := Look(StreamSpec.Subscribe("")), Act(Run(YES), data);
    moves := [look, take];
    StreamResume.RunSnoc(ops, StreamSpec.Subscribe(""));
    FromOne(config, json, p, look);
    FromSnoc(config, json, p, [look], take);
    assert [look] + [take] == moves;
  }

  /**
   A first viewer arrives after 257 chunks of output, without a Last-Event-ID; with the
   next chunk the runner waits, and its container stays for ever.
   */
  lemma LateViewerHangsRunner(config: Config, json: Status -> string, data: string) returns (moves: seq<Move>)
    requires config.streams
    ensures var p := Together(config, json, Setup(CreateMode, true, false), moves); Waits(config, p) && p.x.cid.Some?
  {
    hide From, Waits, StreamSpec.Run;
    var p := Pair(Launched(Setup(CreateMode, true, false)), StreamSpec.Init(), None);
    StartOk(config, json, p.x.setup);
    var up := StartsUp(config, json, p);
    var q := From(config, json, p, up);
    var chunks := Drains(config, json, q, 257, data);
    FromConcat(config, json, p, up, chunks);
    StreamResume.LateSubscriberBlocks(data);
    var last := ViewerComes(config, json, From(config, json, q, chunks), seq(257, i => StreamSpec.Publish(data)), data);
    FromConcat(config, json, p, up + chunks, last);
    moves := up + chunks + last;
  }
}

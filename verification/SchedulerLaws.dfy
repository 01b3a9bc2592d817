/** Theorems about every run of the scheduler. */
module SchedulerLaws {
  import opened Wrappers
  import opened SchedulerSpec

  /** The last of the first `n` entries that is about this schedule. */
  function Latest(log: seq<Entry>, n: nat, id: nat): (i: Option<nat>)
    requires n <= |log|
    ensures i.Some? ==> i.value < n && log[i.value].id == id
    ensures forall j :: 0 <= j < n && (i.Some? ==> i.value < j) ==> log[j].id != id
  {
    if n == 0 then None else if log[n - 1].id == id then Some(n - 1) else Latest(log, n - 1, id)
  }

  /** From one thing that happened to a schedule to its next execution at `at`. */
  predicate MayFollow(before: Entry, at: int, every: Option<int>) {
    match before
    case Fired(_, earlier, interval, _, saved) => saved && interval.Some? ==>
        every == interval && at >= earlier + interval.value * SECOND
    case Armed(_) => true
    case Stopped(_) => false
  }

  predicate EntryOk(log: seq<Entry>, i: nat)
    requires i < |log|
  {
    log[i].Fired? ==>
      var before := Latest(log, i, log[i].id);
      before.Some? && MayFollow(log[before.value], log[i].at, log[i].every)
  }

  ghost predicate LogOk(log: seq<Entry>) { forall i :: 0 <= i < |log| ==> EntryOk(log, i) }

  /** What the log says about a row. */
  predicate RowOk(before: Entry, row: Schedule) {
    && row.enabled
    && match before
       case Fired(_, at, every, next, saved) =>
         && Every(row) == every
         && (every.Some? ==> next.Some? && next.value >= at + every.value * SECOND)
         && if saved then row.next == next else row.next.Some? && row.next.value <= at
       case Armed(_) => true
       case Stopped(_) => row.next.None?
  }

  predicate Known(log: seq<Entry>, id: nat, row: Schedule) {
    var before := Latest(log, |log|, id);
    before.Some? && RowOk(log[before.value], row)
  }

  ghost predicate Sound(s: State) { LogOk(s.log) && forall id :: id in s.rows ==> Known(s.log, id, s.rows[id]) }

  lemma {:induction false} LatestPrefix(log: seq<Entry>, e: Entry, n: nat, id: nat)
    requires n <= |log|
    ensures Latest(log + [e], n, id) == Latest(log, n, id)
  {
    if n > 0 { LatestPrefix(log, e, n - 1, id); }
  }

  lemma LatestSnoc(log: seq<Entry>, e: Entry, id: nat)
    ensures Latest(log + [e], |log| + 1, id) == if e.id == id then Some(|log|) else Latest(log, |log|, id)
  {
    LatestPrefix(log, e, |log|, id);
  }

  lemma KnownSnoc(log: seq<Entry>, e: Entry, id: nat, row: Schedule)
    ensures Known(log + [e], id, row) <==> if e.id == id then RowOk(e, row) else Known(log, id, row)
  {
    LatestSnoc(log, e, id);
  }

  lemma LogSnoc(log: seq<Entry>, e: Entry)
    requires LogOk(log)
    requires e.Fired? ==>
      var before := Latest(log, |log|, e.id);
      before.Some? && MayFollow(log[before.value], e.at, e.every)
    ensures LogOk(log + [e])
  {
    var t := log + [e];
    forall i | 0 <= i < |t| ensures EntryOk(t, i) {
      LatestPrefix(log, e, i, t[i].id);
      if i < |log| { assert t[i] == log[i] && EntryOk(log, i); }
    }
  }

  /** An entry is added along with a change of its schedule's row. */
  lemma AddEntry(s: State, row: Schedule, e: Entry)
    requires Sound(s) && RowOk(e, row)
    requires e.Fired? ==>
      e.id in s.rows && s.rows[e.id].next.Some? && s.rows[e.id].next.value <= e.at && e.every == Every(s.rows[e.id])
    ensures Sound(State(s.rows[e.id := row], s.log + [e]))
  {
    if e.Fired? { assert Known(s.log, e.id, s.rows[e.id]); }
    LogSnoc(s.log, e);
    var rows := s.rows[e.id := row];
    forall id | id in rows ensures Known(s.log + [e], id, rows[id]) {
      KnownSnoc(s.log, e, id, rows[id]);
    }
  }

  lemma CreateKeepsSound(cron: Cron, s: State, op: Op)
    requires op.Create? && Sound(s)
    ensures Sound(CreateStep(cron, s, op))
  {
    if CreateStep(cron, s, op) != s {
      AddEntry(s, CreateStep(cron, s, op).rows[op.id], Armed(op.id));
    }
  }

  lemma UpdateKeepsSound(cron: Cron, s: State, op: Op)
    requires op.Update? && Sound(s)
    ensures Sound(UpdateStep(cron, s, op))
  {
    var t := UpdateStep(cron, s, op);
    if t != s {
      assert Known(s.log, op.id, s.rows[op.id]);
      assert t.rows == s.rows[op.id := t.rows[op.id]];
      AddEntry(s, t.rows[op.id], Armed(op.id));
    }
  }

  lemma EnableKeepsSound(cron: Cron, s: State, op: Op)
    requires op.Enable? && Sound(s)
    ensures Sound(EnableStep(cron, s, op))
  {
    var t := EnableStep(cron, s, op);
    if t != s {
      assert Known(s.log, op.id, s.rows[op.id]);
      AddEntry(s, t.rows[op.id], Armed(op.id));
    }
  }

  lemma DisableKeepsSound(s: State, op: Op)
    requires op.Disable? && Sound(s)
    ensures Sound(DisableStep(s, op))
  {
    var t := DisableStep(s, op);
    if t != s {
      assert Known(s.log, op.id, s.rows[op.id]);
      AddEntry(s, t.rows[op.id], Stopped(op.id));
    }
  }

  /** A visit to a due schedule, and no change to any other. */
  lemma VisitKeepsSound(cron: Cron, s: State, v: Visit)
    requires Sound(s) && v.id in s.rows && Due(s.rows[v.id], v.at) && v.at <= v.now
    ensures var t := VisitStep(cron, s, v);
      Sound(t) && t.rows.Keys == s.rows.Keys && forall id :: id in s.rows && id != v.id ==> t.rows[id] == s.rows[id]
  {
    var t := VisitStep(cron, s, v);
    if v.found {
      assert Known(s.log, v.id, s.rows[v.id]);
      assert t.rows == s.rows[v.id := t.rows[v.id]];
      AddEntry(s, t.rows[v.id], Fired(v.id, v.at, Every(s.rows[v.id]), NextRun(cron, s.rows[v.id], v.now), v.saved));
    }
  }

  lemma {:induction false} VisitsKeepSound(cron: Cron, s: State, now: int, visits: seq<Visit>, n: nat)
    requires Sound(s) && Visits(s.rows, now, visits) && n <= |visits|
    ensures var t := VisitAll(cron, s, visits[..n]);
      Sound(t) && t.rows.Keys == s.rows.Keys
      && forall id :: id in s.rows && (forall i :: 0 <= i < n ==> visits[i].id != id) ==> t.rows[id] == s.rows[id]
  {
    if n > 0 {
      VisitsKeepSound(cron, s, now, visits, n - 1);
      assert visits[..n][..n - 1] == visits[..n - 1];
      var v := visits[n - 1];
      assert v.id in s.rows && Due(s.rows[v.id], now);
      VisitKeepsSound(cron, VisitAll(cron, s, visits[..n - 1]), v);
    }
  }

  lemma PollKeepsSound(cron: Cron, s: State, op: Op)
    requires op.Poll? && Sound(s)
    ensures Sound(PollStep(cron, s, op))
  {
    if op.queried && Visits(s.rows, op.now, op.visits) {
      VisitsKeepSound(cron, s, op.now, op.visits, |op.visits|);
      assert op.visits[..|op.visits|] == op.visits;
    }
  }

  lemma StepKeepsSound(cron: Cron, s: State, op: Op)
    requires Sound(s)
    ensures Sound(Step(cron, s, op))
  {
    match op
    case Create(_, _, _, _, _) => CreateKeepsSound(cron, s, op);
    case Update(_, _, _, _, _, _, _) => UpdateKeepsSound(cron, s, op);
    case Enable(_, _, _, _, _, _, _) => EnableKeepsSound(cron, s, op);
    case Disable(_, _, _, _, _) => DisableKeepsSound(s, op);
    case Delete(_, _) =>
    case Poll(_, _, _) => PollKeepsSound(cron, s, op);
  }

  lemma {:induction false} RunIsSound(cron: Cron, ops: seq<Op>)
    ensures Sound(Run(cron, ops))
  {
    if |ops| > 0 {
      RunIsSound(cron, ops[..|ops| - 1]);
      StepKeepsSound(cron, Run(cron, ops[..|ops| - 1]), ops[|ops| - 1]);
    }
  }

  // ----- The theorems -----

  /** After a Disable that took effect, no poll executes the schedule before its next run is set again. */
  lemma DisabledDoesNotFire(cron: Cron, ops: seq<Op>, i: nat, j: nat)
    requires var log := Run(cron, ops).log; i < j < |log| && log[i].Stopped? && log[j].Fired? && log[i].id == log[j].id
    ensures var log := Run(cron, ops).log; exists k :: i < k < j && log[k] == Armed(log[i].id)
  {
    var log := Run(cron, ops).log;
    RunIsSound(cron, ops);
    FirstAfterStop(log, i, j);
  }

  lemma {:induction false} FirstAfterStop(log: seq<Entry>, i: nat, j: nat)
    requires LogOk(log) && i < j < |log| && log[i].Stopped? && log[j].Fired? && log[i].id == log[j].id
    ensures exists k :: i < k < j && log[k] == Armed(log[i].id)
    decreases j
  {
    var before := Latest(log, j, log[j].id).value;
    assert EntryOk(log, j);
    if log[before].Fired? {
      FirstAfterStop(log, i, before);
    } else {
      assert log[before] == Armed(log[i].id);
    }
  }

  /**
   From an execution at `start` on, the schedule was only executed, and its timing written but
   perhaps the last time.
   */
  ghost predicate LeftAlone(log: seq<Entry>, id: nat, every: int, start: nat, end: nat) {
    && start < end <= |log|
    && log[start].id == id && log[start].Fired? && log[start].every == Some(every)
    && forall i :: start <= i < end && log[i].id == id ==>
        log[i].Fired? && (log[i].saved || Latest(log, end, id) == Some(i))
  }

  /** When the schedule was executed. */
  function Times(log: seq<Entry>, id: nat, start: nat, end: nat): seq<int>
    requires start <= end <= |log|
    decreases end
  {
    if start == end then []
    else
      var e := log[end - 1];
      Times(log, id, start, end - 1) + (if e.Fired? && e.id == id then [e.at] else [])
  }

  predicate Spaced(times: seq<int>, gap: int) { forall i :: 0 < i < |times| ==> times[i] >= times[i - 1] + gap }

  lemma SpacedSnoc(times: seq<int>, gap: int, t: int)
    requires Spaced(times, gap) && (|times| > 0 ==> t >= times[|times| - 1] + gap)
    ensures Spaced(times + [t], gap)
  {
  }

  /** The times are spaced, the last is that of the latest execution, and the interval stays the same. */
  ghost predicate StretchOk(log: seq<Entry>, id: nat, every: int, start: nat, end: nat)
    requires start <= end <= |log|
  {
    var times := Times(log, id, start, end);
    var latest := Latest(log, end, id);
    && Spaced(times, every * SECOND) && |times| > 0
    && latest.Some? && log[latest.value].Fired?
    && times[|times| - 1] == log[latest.value].at && log[latest.value].every == Some(every)
  }

  lemma StretchStart(log: seq<Entry>, id: nat, every: int, start: nat)
    requires start < |log| && LeftAlone(log, id, every, start, start + 1)
    ensures StretchOk(log, id, every, start, start + 1)
  {
    assert Times(log, id, start, start) == [];
    assert Times(log, id, start, start + 1) == [] + [log[start].at] == [log[start].at];
  }

  lemma StretchMore(log: seq<Entry>, id: nat, every: int, start: nat, end: nat)
    requires LogOk(log) && start < end < |log| && StretchOk(log, id, every, start, end)
    requires LeftAlone(log, id, every, start, end + 1)
    ensures StretchOk(log, id, every, start, end + 1)
  {
    var times := Times(log, id, start, end);
    var e := log[end];
    if e.id == id {
      assert EntryOk(log, end);
      assert log[Latest(log, end, id).value].saved;
      SpacedSnoc(times, every * SECOND, e.at);
      assert Times(log, id, start, end + 1) == times + [e.at];
    } else {
      assert times + [] == times;
    }
  }

  lemma {:induction false} StretchIsSpaced(log: seq<Entry>, id: nat, every: int, start: nat, end: nat)
    requires LogOk(log) && LeftAlone(log, id, every, start, end)
    ensures StretchOk(log, id, every, start, end)
    decreases end
  {
    if end == start + 1 {
      StretchStart(log, id, every, start);
    } else {
      StretchIsSpaced(log, id, every, start, end - 1);
      StretchMore(log, id, every, start, end - 1);
    }
  }

  /** So many points this far apart do not fit into a shorter window. */
  lemma {:induction false} SpacedSpan(times: seq<int>, gap: int)
    requires gap > 0 && |times| > 0 && Spaced(times, gap)
    ensures times[|times| - 1] - times[0] >= (|times| - 1) * gap
  {
    if |times| > 1 {
      var front := times[..|times| - 1];
      assert Spaced(front, gap);
      SpacedSpan(front, gap);
      assert (|times| - 1) * gap == (|front| - 1) * gap + gap;
    }
  }

  lemma SmallFactor(d: int, gap: int)
    requires gap > 0 && d * gap < gap
    ensures d <= 0
  {
  }

  lemma DivBound(k: nat, gap: int, length: nat)
    requires gap > 0 && k * gap <= length
    ensures k <= length / gap
  {
    var q, r := length / gap, length % gap;
    assert length == q * gap + r;
    assert (k - q) * gap == k * gap - q * gap;
    SmallFactor(k - q, gap);
  }

  lemma WindowCount(times: seq<int>, gap: int, length: nat)
    requires gap > 0 && Spaced(times, gap) && (|times| > 0 ==> times[|times| - 1] - times[0] <= length)
    ensures |times| <= length / gap + 1
  {
    if |times| > 0 {
      SpacedSpan(times, gap);
      DivBound(|times| - 1, gap, length);
    }
  }

  /**
   Over any stretch of any run in which an interval schedule was left alone and its timing
   was written after each execution but perhaps the last, its executions are at least the
   interval apart; if the stretch lasts
   no longer than L there are thus at most floor(L / interval) + 1 of them.
   */
  lemma SpacingBound(cron: Cron, ops: seq<Op>, id: nat, every: int, start: nat, end: nat, length: nat)
    requires every > 0 && LeftAlone(Run(cron, ops).log, id, every, start, end)
    ensures var times := Times(Run(cron, ops).log, id, start, end);
      && Spaced(times, every * SECOND)
      && (|times| > 0 && times[|times| - 1] - times[0] <= length ==> |times| <= length / (every * SECOND) + 1)
  {
    RunIsSound(cron, ops);
    StretchIsSpaced(Run(cron, ops).log, id, every, start, end);
    var times := Times(Run(cron, ops).log, id, start, end);
    if |times| > 0 && times[|times| - 1] - times[0] <= length {
      WindowCount(times, every * SECOND, length);
    }
  }

  /** Nothing ever stores that a schedule is not enabled: Disable works only through the missing next run. */
  lemma AlwaysEnabled(cron: Cron, ops: seq<Op>, id: nat)
    requires id in Run(cron, ops).rows
    ensures Run(cron, ops).rows[id].enabled
  {
    RunIsSound(cron, ops);
  }

  /** What was last heard of a schedule is that it was executed, at `e.at`. */
  ghost predicate LastFired(s: State, id: nat, e: Entry) {
    var latest := Latest(s.log, |s.log|, id);
    id in s.rows && latest.Some? && s.log[latest.value] == e && e.Fired?
  }

  /**
   The written timing is what keeps executions apart: in every run, a schedule that was last
   heard of when it was executed is due at a later time exactly if its next run has come or
   could not be written.
   */
  lemma DueAgainIff(cron: Cron, ops: seq<Op>, id: nat, e: Entry, later: int)
    requires LastFired(Run(cron, ops), id, e) && e.at <= later
    ensures Due(Run(cron, ops).rows[id], later) <==> !e.saved || (e.next.Some? && e.next.value <= later)
    ensures e.every.Some? ==> e.next.Some? && e.next.value >= e.at + e.every.value * SECOND
  {
    RunIsSound(cron, ops);
    assert Known(Run(cron, ops).log, id, Run(cron, ops).rows[id]);
  }

  lemma VisitLatest(cron: Cron, s: State, v: Visit, id: nat)
    ensures var t := VisitStep(cron, s, v);
      && |s.log| <= |t.log|
      && (v.id != id ==> Latest(t.log, |t.log|, id) == Latest(s.log, |s.log|, id))
      && (v.id == id && v.id in s.rows && v.found ==>
           t.log[|t.log| - 1].Fired? && t.log[|t.log| - 1].at == v.at && Latest(t.log, |t.log|, id) == Some(|s.log|)
           && |t.log| == |s.log| + 1)
  {
    if v.id in s.rows && v.found {
      LatestSnoc(s.log, Fired(v.id, v.at, Every(s.rows[v.id]), NextRun(cron, s.rows[v.id], v.now), v.saved), id);
    }
  }

  /** The entry a visit adds stays what was last heard of its schedule for the rest of the poll. */
  ghost predicate FiredSince(before: State, after: State, id: nat, at: int) {
    var latest := Latest(after.log, |after.log|, id);
    |before.log| <= |after.log|
    && latest.Some? && latest.value >= |before.log| && after.log[latest.value].Fired?
        && after.log[latest.value].at == at
  }

  lemma {:induction false} VisitsFire(cron: Cron, s: State, now: int, visits: seq<Visit>, k: nat, n: nat)
    requires Sound(s) && Visits(s.rows, now, visits) && k < n <= |visits| && visits[k].found
    ensures FiredSince(s, VisitAll(cron, s, visits[..n]), visits[k].id, visits[k].at)
  {
    var t := VisitAll(cron, s, visits[..n - 1]);
    assert visits[..n][..n - 1] == visits[..n - 1];
    VisitLatest(cron, t, visits[n - 1], visits[k].id);
    if k == n - 1 {
      VisitsKeepSound(cron, s, now, visits, k);
      VisitsOnlyAdd(cron, s, visits[..k]);
      assert visits[k].id in s.rows;
    } else {
      VisitsFire(cron, s, now, visits, k, n - 1);
      VisitKeepsLog(cron, t, visits[n - 1]);
    }
  }

  lemma VisitKeepsLog(cron: Cron, s: State, v: Visit)
    ensures s.log <= VisitStep(cron, s, v).log
  {
  }

  lemma {:induction false} VisitsOnlyAdd(cron: Cron, s: State, visits: seq<Visit>)
    ensures |s.log| <= |VisitAll(cron, s, visits).log|
  {
    if |visits| > 0 { VisitsOnlyAdd(cron, s, visits[..|visits| - 1]); }
  }

  /**
   The next poll, of whatever run: it visits a schedule that was last heard of when it was
   executed exactly if its next run has come or could not be written; and if its command is
   found, it then executes it again.
   */
  lemma NextPollFiresIff(cron: Cron, ops: seq<Op>, poll: Op, id: nat, e: Entry)
    requires LastFired(Run(cron, ops), id, e)
    requires poll.Poll? && poll.queried && Visits(Run(cron, ops).rows, poll.now, poll.visits) && e.at <= poll.now
    ensures (exists k :: 0 <= k < |poll.visits| && poll.visits[k].id == id)
       <==> !e.saved || (e.next.Some? && e.next.value <= poll.now)
    ensures forall k :: 0 <= k < |poll.visits| && poll.visits[k].id == id && poll.visits[k].found ==>
      FiredSince(Run(cron, ops), Run(cron, ops + [poll]), id, poll.visits[k].at)
  {
    var s := Run(cron, ops);
    RunIsSound(cron, ops);
    DueAgainIff(cron, ops, id, e, poll.now);
    assert (ops + [poll])[..|ops|] == ops;
    forall k | 0 <= k < |poll.visits| && poll.visits[k].id == id && poll.visits[k].found
      ensures FiredSince(s, Run(cron, ops + [poll]), id, poll.visits[k].at)
    {
      VisitsFire(cron, s, poll.now, poll.visits, k, |poll.visits|);
      assert poll.visits[..|poll.visits|] == poll.visits;
    }
  }

  /** A poll of a table with one row, which is due. */
  lemma PollOfOne(cron: Cron, s: State, row: Schedule, poll: Op, v: Visit)
    requires poll.Poll? && poll.queried && poll.visits == [v] && poll.now <= v.at <= v.now
    requires s.rows == map[v.id := row] && Due(row, poll.now)
    ensures Step(cron, s, poll) == VisitStep(cron, s, v)
  {
    assert poll.visits[0] == v && poll.visits[..0] == [];
    assert Visits(s.rows, poll.now, poll.visits);
    assert VisitAll(cron, s, []) == s;
  }

  /**
   A run in which a schedule for every minute is executed twice within a second, because the
   first timing write failed.
   */
  lemma TooSoonExample(cron: Cron) returns (ops: seq<Op>)
    ensures var log := Run(cron, ops).log;
      && |log| == 3 && log[1].Fired? && log[2].Fired? && log[1].id == log[2].id
      && log[1].every == Some(60) && log[2].at - log[1].at == SECOND < 60 * SECOND
  {
    var minute := 60 * SECOND;
    var create := Create(0, "", Some(60), 0, true);
    var v1 := Visit(0, true, minute, minute, false);
    var v2 := Visit(0, true, minute + SECOND, minute + SECOND, true);
    var first, second := Poll(minute, true, [v1]), Poll(minute + SECOND, true, [v2]);
    var row := Schedule("", Some(60), true, Some(minute), None);
    var s1 := OneMoreOp(cron, [], create);
    assert s1.rows == map[0 := row] && |s1.log| == 1;
    var s2 := OneMoreOp(cron, [] + [create], first);
    PollOfOne(cron, s1, row, first, v1);
    assert s2.rows == map[0 := row] && |s2.log| == 2;
    var s3 := OneMoreOp(cron, [] + [create] + [first], second);
    PollOfOne(cron, s2, row, second, v2);
    ops := [] + [create] + [first] + [second];
  }

  lemma OneMoreOp(cron: Cron, ops: seq<Op>, op: Op) returns (s: State)
    ensures s == Run(cron, ops + [op]) == Step(cron, Run(cron, ops), op)
  {
    s := Run(cron, ops + [op]);
    assert (ops + [op])[..|ops|] == ops;
  }

  // ----- When a schedule runs next -----

  /**
   The next run of a schedule with this expression and this interval, as computed at `now`,
   is there and has come: the expression's next time, or without an expression the end of an
   interval of so many seconds.
   */
  predicate HasCome(cron: Cron, expression: string, interval: Option<int>, now: int, later: int) {
    if expression != "" then cron(expression, now).Some? && cron(expression, now).value <= later
    else interval.Some? && interval.value > 0 && now + interval.value * 1_000_000_000 <= later
  }

  /** The row is the same but for its next run, which is that computed at `now`. */
  ghost predicate Rearmed(cron: Cron, row: Schedule, after: Schedule, now: int) {
    && after == row.(next := after.next)
    && forall later :: Due(after, later) <==> HasCome(cron, row.cron, row.interval, now, later)
  }

  lemma RunMore(cron: Cron, ops: seq<Op>, op: Op)
    ensures Run(cron, ops + [op]) == Step(cron, Run(cron, ops), op)
  {
    assert (ops + [op])[..|ops|] == ops;
  }

  /**
   A new schedule is stored, to run when its first time comes, exactly if its expression
   parses or, without one, its interval is positive.
   */
  lemma CreatedRuns(cron: Cron, ops: seq<Op>, create: Op)
    requires create.Create? && create.stored && create.id !in Run(cron, ops).rows
    ensures var s, t := Run(cron, ops), Run(cron, ops + [create]);
      if create.cron != "" && cron(create.cron, create.now).None? then t == s
      else if create.cron == "" && (create.interval.None? || create.interval.value <= 0) then t == s
      else
        && t.rows.Keys == s.rows.Keys + {create.id} && (forall id :: id in s.rows ==> t.rows[id] == s.rows[id])
        && t.rows[create.id].last.None?
        && Rearmed(cron, Schedule(create.cron, create.interval, true, None, None), t.rows[create.id], create.now)
  {
    RunMore(cron, ops, create);
  }

  /** Enabling a schedule makes it run when its next time comes, and does nothing if a call fails. */
  lemma EnabledRuns(cron: Cron, ops: seq<Op>, enable: Op)
    requires enable.Enable? && enable.id in Run(cron, ops).rows
    ensures var s, t := Run(cron, ops), Run(cron, ops + [enable]);
      if enable.read && enable.timed then
        && t.rows == s.rows[enable.id := t.rows[enable.id]]
        && Rearmed(cron, s.rows[enable.id], t.rows[enable.id], enable.now)
      else t == s
  {
    RunIsSound(cron, ops);
    assert Known(Run(cron, ops).log, enable.id, Run(cron, ops).rows[enable.id]);
    RunMore(cron, ops, enable);
  }

  /** Disabling a schedule takes away its next run, and nothing else, if all calls succeed. */
  lemma DisabledStops(cron: Cron, ops: seq<Op>, disable: Op, later: int)
    requires disable.Disable? && disable.id in Run(cron, ops).rows
    ensures var s, t := Run(cron, ops), Run(cron, ops + [disable]);
      if disable.read && disable.readAgain && disable.updated && disable.timed then
        && t.rows == s.rows[disable.id := s.rows[disable.id].(next := None)] && !Due(t.rows[disable.id], later)
      else t == s
  {
    RunMore(cron, ops, disable);
  }

  /** An update writes what it was given, and the next run from then on unless that write fails. */
  lemma UpdatedRuns(cron: Cron, ops: seq<Op>, update: Op)
    requires update.Update? && update.id in Run(cron, ops).rows
    ensures var s, t := Run(cron, ops), Run(cron, ops + [update]);
      var row := s.rows[update.id];
      if !update.read || !update.updated then t == s
      else if update.newCron.Some? && update.newCron.value != "" && cron(update.newCron.value, update.now).None? then
        t == s
      else if update.newInterval.Some? && update.newInterval.value <= 0 then t == s
      else
        && t.rows == s.rows[update.id := t.rows[update.id]]
        && var edited := row.(cron := if update.newCron.Some? then update.newCron.value else row.cron,
                              interval := if update.newInterval.Some? then update.newInterval else row.interval);
           if update.timed then Rearmed(cron, edited, t.rows[update.id], update.now) else t.rows[update.id] == edited
  {
    RunIsSound(cron, ops);
    assert Known(Run(cron, ops).log, update.id, Run(cron, ops).rows[update.id]);
    RunMore(cron, ops, update);
  }

  lemma DeletedIsGone(cron: Cron, ops: seq<Op>, delete: Op)
    requires delete.Delete?
    ensures Run(cron, ops + [delete]).rows ==
      if delete.deleted then Run(cron, ops).rows - {delete.id} else Run(cron, ops).rows
  {
    RunMore(cron, ops, delete);
  }

  /** What a visit leaves of a row. */
  ghost predicate Visited(cron: Cron, row: Schedule, after: Schedule, v: Visit) {
    if v.found && v.saved then after.last == Some(v.now) && Rearmed(cron, row.(last := Some(v.now)), after, v.now)
    else after == row
  }

  lemma VisitLeaves(cron: Cron, s: State, v: Visit)
    requires v.id in s.rows && s.rows[v.id].enabled
    ensures var t := VisitStep(cron, s, v);
      && t.rows.Keys == s.rows.Keys && Visited(cron, s.rows[v.id], t.rows[v.id], v)
      && forall id :: id in s.rows && id != v.id ==> t.rows[id] == s.rows[id]
  {
  }

  lemma {:induction false} VisitsLeave(cron: Cron, s: State, now: int, visits: seq<Visit>, n: nat)
    requires Sound(s) && Visits(s.rows, now, visits) && n <= |visits|
    ensures var t := VisitAll(cron, s, visits[..n]);
      && t.rows.Keys == s.rows.Keys
      && (forall i :: 0 <= i < n ==>
            visits[i].id in s.rows && Visited(cron, s.rows[visits[i].id], t.rows[visits[i].id], visits[i]))
      && (forall id :: id in s.rows && (forall i :: 0 <= i < n ==> visits[i].id != id) ==> t.rows[id] == s.rows[id])
  {
    if n > 0 {
      VisitsLeave(cron, s, now, visits, n - 1);
      assert visits[..n][..n - 1] == visits[..n - 1];
      var v, t := visits[n - 1], VisitAll(cron, s, visits[..n - 1]);
      assert v.id in s.rows && Due(s.rows[v.id], now);
      assert t.rows[v.id] == s.rows[v.id];
      VisitLeaves(cron, t, v);
    }
  }

  /**
   A poll that reads the table leaves each schedule that it does not visit as it was, and
   each that it visits too if its command is not found or its timing cannot be written; the
   others run next when the time that was computed after the execution comes.
   */
  lemma PollLeaves(cron: Cron, ops: seq<Op>, poll: Op)
    requires poll.Poll? && poll.queried && Visits(Run(cron, ops).rows, poll.now, poll.visits)
    ensures var s, t := Run(cron, ops), Run(cron, ops + [poll]);
      && t.rows.Keys == s.rows.Keys
      && (forall i :: 0 <= i < |poll.visits| ==>
            && poll.visits[i].id in s.rows
            && Visited(cron, s.rows[poll.visits[i].id], t.rows[poll.visits[i].id], poll.visits[i]))
      && (forall id :: id in s.rows && !Due(s.rows[id], poll.now) ==> t.rows[id] == s.rows[id])
  {
    RunIsSound(cron, ops);
    RunMore(cron, ops, poll);
    VisitsLeave(cron, Run(cron, ops), poll.now, poll.visits, |poll.visits|);
    assert poll.visits[..|poll.visits|] == poll.visits;
  }

  /** The visits that found their command. */
  function Found(visits: seq<Visit>): seq<Visit> {
    if |visits| == 0 then []
    else
      var last := visits[|visits| - 1];
      Found(visits[..|visits| - 1]) + if last.found then [last] else []
  }

  ghost predicate Executed(log: seq<Entry>, after: seq<Entry>, found: seq<Visit>) {
    && |after| == |log| + |found| && log <= after
    && forall i :: 0 <= i < |found| ==> Executes(after[|log| + i], found[i])
  }

  predicate Executes(e: Entry, v: Visit) { e.Fired? && e.id == v.id && e.at == v.at && e.saved == v.saved }

  lemma {:induction false} VisitsExecute(cron: Cron, s: State, now: int, visits: seq<Visit>, n: nat)
    requires Sound(s) && Visits(s.rows, now, visits) && n <= |visits|
    ensures Executed(s.log, VisitAll(cron, s, visits[..n]).log, Found(visits[..n]))
  {
    if n > 0 {
      VisitsExecute(cron, s, now, visits, n - 1);
      VisitsLeave(cron, s, now, visits, n - 1);
      assert visits[..n][..n - 1] == visits[..n - 1];
      var v, t := visits[n - 1], VisitAll(cron, s, visits[..n - 1]);
      assert v.id in s.rows && Due(s.rows[v.id], now);
      VisitExecutes(cron, t, v);
      var found := Found(visits[..n - 1]);
      assert Found(visits[..n]) == found + if v.found then [v] else [];
      hide VisitStep, Found, Visited;
      OneMoreExecuted(s.log, t.log, VisitStep(cron, t, v).log, found, if v.found then [v] else []);
    }
  }

  lemma VisitExecutes(cron: Cron, s: State, v: Visit)
    requires v.id in s.rows
    ensures Executed(s.log, VisitStep(cron, s, v).log, if v.found then [v] else [])
  {
  }

  lemma OneMoreExecuted(log: seq<Entry>, after: seq<Entry>, later: seq<Entry>, found: seq<Visit>, more: seq<Visit>)
    requires Executed(log, after, found) && Executed(after, later, more)
    ensures Executed(log, later, found + more)
  {
    forall i | 0 <= i < |found + more| ensures Executes(later[|log| + i], (found + more)[i]) {
      if i < |found| {
        assert Executes(after[|log| + i], found[i]) && later[|log| + i] == after[|log| + i];
      } else {
        assert Executes(later[|after| + (i - |found|)], more[i - |found|]);
      }
    }
  }

  /** A poll executes the commands of just the due schedules whose command it finds, in the order of its visits. */
  lemma PollExecutes(cron: Cron, ops: seq<Op>, poll: Op)
    requires poll.Poll? && poll.queried && Visits(Run(cron, ops).rows, poll.now, poll.visits)
    ensures Executed(Run(cron, ops).log, Run(cron, ops + [poll]).log, Found(poll.visits))
  {
    RunIsSound(cron, ops);
    RunMore(cron, ops, poll);
    VisitsExecute(cron, Run(cron, ops), poll.now, poll.visits, |poll.visits|);
    assert poll.visits[..|poll.visits|] == poll.visits;
  }

  /** What was last heard of a schedule is that Disable cleared its next run. */
  ghost predicate LastStopped(s: State, id: nat) {
    var latest := Latest(s.log, |s.log|, id);
    id in s.rows && latest.Some? && s.log[latest.value] == Stopped(id)
  }

  /**
   In every run, a schedule that was last heard of when it was disabled is due at no time;
   after an update, even of its parameters alone, it is due from the next run of the
   schedule as edited, exactly if the update goes through.
   */
  lemma UpdateRevives(cron: Cron, ops: seq<Op>, update: Op, later: int)
    requires update.Update? && LastStopped(Run(cron, ops), update.id)
    ensures var row := Run(cron, ops).rows[update.id];
      var on := Run(cron, ops + [update]);
      && !Due(row, later)
      && update.id in on.rows
      && (Due(on.rows[update.id], later) <==>
            && update.read && EditOk(cron, update) && update.updated && update.timed
            && HasCome(cron, Edited(row, update).cron, Edited(row, update).interval, update.now, later))
  {
    RunIsSound(cron, ops);
    assert Known(Run(cron, ops).log, update.id, Run(cron, ops).rows[update.id]);
    RunMore(cron, ops, update);
  }
}

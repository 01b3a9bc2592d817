/**
 The scheduler as transitions of its table. A request or a poll is one step; times are in
 nanoseconds, and every clock reading, database failure and order of rows is part of the
 step. `cron` stands for the cron library: the next time of an expression after a given
 one, or None if it does not parse.
 */
module SchedulerSpec {
  import opened Wrappers

  const SECOND: int := 1_000_000_000

  type Cron = (string, int) -> Option<int>

  datatype Schedule = Schedule(cron: string, interval: Option<int>, enabled: bool, next: Option<int>, last: Option<int>)

  /**
   What happened to a schedule: ExecuteCommand was called for it at `at`, `every` telling its
   interval if it has one and no cron expression, `next` its next run as computed then, and
   `saved` whether that was written; its next run was set by Create, Update or Enable; or
   Disable cleared it.
   */
  datatype Entry =
    | Fired(id: nat, at: int, every: Option<int>, next: Option<int>, saved: bool)
    | Armed(id: nat)
    | Stopped(id: nat)

  datatype State = State(rows: map<nat, Schedule>, log: seq<Entry>)

  /**
   A due schedule's turn in a poll: whether its command was found, when it was executed,
   when its next run was computed, and whether that was written.
   */
  datatype Visit = Visit(id: nat, found: bool, at: int, now: int, saved: bool)

  /** The boolean parameters say which database calls succeed, in the order in which they are made. */
  datatype Op =
    | Create(id: nat, cron: string, interval: Option<int>, now: int, stored: bool)
    | Update(id: nat, newCron: Option<string>, newInterval: Option<int>, now: int, read: bool, updated: bool,
        timed: bool)
    | Enable(id: nat, now: int, read: bool, timed: bool, readAgain: bool, updated: bool, timedAgain: bool)
    | Disable(id: nat, read: bool, readAgain: bool, updated: bool, timed: bool)
    | Delete(id: nat, deleted: bool)
    | Poll(now: int, queried: bool, visits: seq<Visit>)

  function Every(s: Schedule): Option<int> {
    if s.cron == "" && s.interval.Some? && s.interval.value > 0 then s.interval else None
  }

  function NextRun(cron: Cron, s: Schedule, now: int): Option<int> {
    if s.cron != "" then cron(s.cron, now)
    else if s.interval.Some? && s.interval.value > 0 then Some(now + s.interval.value * SECOND)
    else None
  }

  /** Update's SQL writes the cron expression and the interval, but not is_enabled. */
  function WriteRow(rows: map<nat, Schedule>, id: nat, s: Schedule): map<nat, Schedule> {
    if id in rows then rows[id := rows[id].(cron := s.cron, interval := s.interval)] else rows
  }

  function WriteTiming(rows: map<nat, Schedule>, id: nat, next: Option<int>, last: Option<int>): map<nat, Schedule> {
    if id in rows then rows[id := rows[id].(next := next, last := last)] else rows
  }

  predicate CreateOk(cron: Cron, op: Op)
    requires op.Create?
  {
    if op.cron != "" then cron(op.cron, op.now).Some? else op.interval.Some? && op.interval.value > 0
  }

  function CreateStep(cron: Cron, s: State, op: Op): State
    requires op.Create?
  {
    if !CreateOk(cron, op) || !op.stored || op.id in s.rows then s
    else
      var row := Schedule(op.cron, op.interval, true, None, None);
      State(s.rows[op.id := row.(next := NextRun(cron, row, op.now))], s.log + [Armed(op.id)])
  }

  predicate EditOk(cron: Cron, op: Op)
    requires op.Update?
  {
    && (op.newCron.Some? && op.newCron.value != "" ==> cron(op.newCron.value, op.now).Some?)
    && (op.newInterval.Some? ==> op.newInterval.value > 0)
  }

  function Edited(s: Schedule, op: Op): Schedule
    requires op.Update?
  {
    s.(cron := if op.newCron.Some? then op.newCron.value else s.cron,
       interval := if op.newInterval.Some? then op.newInterval else s.interval)
  }

  function UpdateStep(cron: Cron, s: State, op: Op): State
    requires op.Update?
  {
    if !op.read || op.id !in s.rows || !EditOk(cron, op) || !op.updated then s
    else
      var edited := Edited(s.rows[op.id], op);
      var next := if edited.enabled then NextRun(cron, edited, op.now) else edited.next;
      var written := WriteRow(s.rows, op.id, edited);
      State(if op.timed then WriteTiming(written, op.id, next, edited.last) else written, s.log + [Armed(op.id)])
  }

  /** What setEnabled writes afterwards changes nothing any more. */
  function EnableStep(cron: Cron, s: State, op: Op): State
    requires op.Enable?
  {
    if !op.read || op.id !in s.rows || !op.timed then s
    else
      var row := s.rows[op.id];
      State(WriteTiming(s.rows, op.id, NextRun(cron, row, op.now), row.last), s.log + [Armed(op.id)])
  }

  function DisableStep(s: State, op: Op): State
    requires op.Disable?
  {
    if !op.read || op.id !in s.rows || !op.readAgain || !op.updated || !op.timed then s
    else State(WriteTiming(s.rows, op.id, None, s.rows[op.id].last), s.log + [Stopped(op.id)])
  }

  predicate Due(s: Schedule, now: int) { s.enabled && s.next.Some? && s.next.value <= now }

  /** The visits of a poll are the due schedules, each once, and the clock does not run backwards. */
  ghost predicate Visits(rows: map<nat, Schedule>, now: int, visits: seq<Visit>) {
    && (forall i, j :: 0 <= i < j < |visits| ==> visits[i].id != visits[j].id)
    && (forall id :: id in rows && Due(rows[id], now) <==> exists i :: 0 <= i < |visits| && visits[i].id == id)
    && (forall i :: 0 <= i < |visits| ==> now <= visits[i].at <= visits[i].now)
  }

  /** A schedule whose command is not found stays as it is; any other is executed and gets its next run. */
  function VisitStep(cron: Cron, s: State, v: Visit): State {
    if v.id !in s.rows || !v.found then s
    else
      var row := s.rows[v.id];
      State(if v.saved then WriteTiming(s.rows, v.id, NextRun(cron, row, v.now), Some(v.now)) else s.rows,
            s.log + [Fired(v.id, v.at, Every(row), NextRun(cron, row, v.now), v.saved)])
  }

  function VisitAll(cron: Cron, s: State, visits: seq<Visit>): State {
    if |visits| == 0 then s else VisitStep(cron, VisitAll(cron, s, visits[..|visits| - 1]), visits[|visits| - 1])
  }

  ghost function PollStep(cron: Cron, s: State, op: Op): State
    requires op.Poll?
  {
    if !op.queried || !Visits(s.rows, op.now, op.visits) then s else VisitAll(cron, s, op.visits)
  }

  function DeleteStep(s: State, op: Op): State
    requires op.Delete?
  {
    if op.deleted then State(s.rows - {op.id}, s.log) else s
  }

  ghost function Step(cron: Cron, s: State, op: Op): State {
    match op
    case Create(_, _, _, _, _) => CreateStep(cron, s, op)
    case Update(_, _, _, _, _, _, _) => UpdateStep(cron, s, op)
    case Enable(_, _, _, _, _, _, _) => EnableStep(cron, s, op)
    case Disable(_, _, _, _, _) => DisableStep(s, op)
    case Delete(_, _) => DeleteStep(s, op)
    case Poll(_, _, _) => PollStep(cron, s, op)
  }

  ghost function Run(cron: Cron, ops: seq<Op>): State {
    if |ops| == 0 then State(map[], []) else Step(cron, Run(cron, ops[..|ops| - 1]), ops[|ops| - 1])
  }
}

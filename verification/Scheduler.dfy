/** The scheduler's code, and its repository's, proved to take the steps of the specification. */
module Scheduler {
  import opened Wrappers
  import opened SchedulerSpec

  class ScheduleRepository {
    var rows: map<nat, Schedule>

    constructor ()
      ensures rows == map[]
    {
      rows := map[];
    }

    /** `answered` says whether the database answers. */
    method GetByID(id: nat, answered: bool) returns (found: Option<Schedule>)
      ensures found == if answered && id in rows then Some(rows[id]) else None
    {
      if answered && id in rows {
        return Some(rows[id]);
      }
      return None;
    }

    method Insert(id: nat, schedule: Schedule, answered: bool) returns (ok: bool)
      modifies this
      ensures ok <==> answered && id !in old(rows)
      ensures rows == if ok then old(rows)[id := schedule] else old(rows)
    {
      ok := answered && id !in rows;
      if ok {
        rows := rows[id := schedule];
      }
    }

    method Update(id: nat, schedule: Schedule, answered: bool) returns (ok: bool)
      modifies this
      ensures ok <==> answered && id in old(rows)
      ensures rows == if ok then WriteRow(old(rows), id, schedule) else old(rows)
    {
      ok := answered && id in rows;
      if ok {
        rows := rows[id := rows[id].(cron := schedule.cron, interval := schedule.interval)];
      }
    }

    method UpdateNextRunAt(id: nat, next: Option<int>, last: Option<int>, answered: bool) returns (ok: bool)
      modifies this
      ensures ok <==> answered && id in old(rows)
      ensures rows == if ok then WriteTiming(old(rows), id, next, last) else old(rows)
    {
      ok := answered && id in rows;
      if ok {
        rows := rows[id := rows[id].(next := next, last := last)];
      }
    }

    method Delete(id: nat, answered: bool) returns (ok: bool)
      modifies this
      ensures rows == if answered then old(rows) - {id} else old(rows)
    {
      ok := answered && id in rows;
      if answered {
        rows := rows - {id};
      }
    }
  }

  class SchedulerService {
    const cron: Cron
    const repo: ScheduleRepository
    var log: seq<Entry>

    constructor (cron: Cron, repo: ScheduleRepository)
      requires repo.rows == map[]
      ensures this.cron == cron && this.repo == repo && Now() == Run(cron, [])
    {
      this.cron, this.repo, log := cron, repo, [];
    }

    function Now(): State
      reads this, repo
    {
      State(repo.rows, log)
    }

    method ComputeNextRun(schedule: Schedule, now: int) returns (next: Option<int>)
      ensures next == NextRun(cron, schedule, now)
    {
      if schedule.cron != "" {
        var parsed := cron(schedule.cron, now);
        if parsed.None? {
          return None;
        }
        return Some(parsed.value);
      }
      if schedule.interval.Some? && schedule.interval.value > 0 {
        return Some(now + schedule.interval.value * SECOND);
      }
      return None;
    }

    method CreateSchedule(op: Op) returns (ok: bool)
      requires op.Create?
      modifies this, repo
      ensures Now() == Step(cron, old(Now()), op)
      ensures ok <==> CreateOk(cron, op) && op.stored && op.id !in old(repo.rows)
    {
      if op.cron == "" && op.interval.None? {
        return false;
      }
      var next: Option<int> := None;
      if op.cron != "" {
        var parsed := cron(op.cron, op.now);
        if parsed.None? {
          return false;
        }
        next := parsed;
      } else {
        if op.interval.value <= 0 {
          return false;
        }
        next := Some(op.now + op.interval.value * SECOND);
      }
      ok := repo.Insert(op.id, Schedule(op.cron, op.interval, true, next, None), op.stored);
      if ok {
        log := log + [Armed(op.id)];
      }
    }

    method UpdateSchedule(op: Op) returns (ok: bool)
      requires op.Update?
      modifies this, repo
      ensures Now() == Step(cron, old(Now()), op)
      ensures ok <==> op.read && op.id in old(repo.rows) && EditOk(cron, op) && op.updated
    {
      var found := repo.GetByID(op.id, op.read);
      if found.None? {
        return false;
      }
      var existing := found.value;
      if op.newCron.Some? {
        if op.newCron.value != "" && cron(op.newCron.value, op.now).None? {
          return false;
        }
        existing := existing.(cron := op.newCron.value);
      }
      if op.newInterval.Some? {
        if op.newInterval.value <= 0 {
          return false;
        }
        existing := existing.(interval := op.newInterval);
      }
      assert existing == Edited(found.value, op);
      if existing.enabled {
        var next := ComputeNextRun(existing, op.now);
        existing := existing.(next := next);
      }
      ok := repo.Update(op.id, existing, op.updated);
      if !ok {
        return;
      }
      var timed := repo.UpdateNextRunAt(op.id, existing.next, existing.last, op.timed);
      log := log + [Armed(op.id)];
    }

    /** Writes everything of the schedule but the flag it is named after. */
    method SetEnabled(id: nat, enabled: bool, next: Option<int>, readAgain: bool, updated: bool, timed: bool)
        returns (ok: bool)
      modifies repo
      ensures ok <==> readAgain && id in old(repo.rows) && updated && timed
      ensures repo.rows ==
        if ok then WriteTiming(old(repo.rows), id, next, old(repo.rows)[id].last) else old(repo.rows)
    {
      var found := repo.GetByID(id, readAgain);
      if found.None? {
        return false;
      }
      var schedule := found.value.(enabled := enabled, next := next);
      ok := repo.Update(id, schedule, updated);
      if !ok {
        return;
      }
      ok := repo.UpdateNextRunAt(id, next, schedule.last, timed);
    }

    method EnableSchedule(op: Op) returns (ok: bool)
      requires op.Enable?
      modifies this, repo
      ensures Now() == Step(cron, old(Now()), op)
    {
      var found := repo.GetByID(op.id, op.read);
      if found.None? {
        return false;
      }
      var next := ComputeNextRun(found.value, op.now);
      ok := repo.UpdateNextRunAt(op.id, next, found.value.last, op.timed);
      if !ok {
        return;
      }
      log := log + [Armed(op.id)];
      ok := SetEnabled(op.id, true, next, op.readAgain, op.updated, op.timedAgain);
    }

    method DisableSchedule(op: Op) returns (ok: bool)
      requires op.Disable?
      modifies this, repo
      ensures Now() == Step(cron, old(Now()), op)
    {
      var found := repo.GetByID(op.id, op.read);
      if found.None? {
        return false;
      }
      ok := SetEnabled(op.id, false, None, op.readAgain, op.updated, op.timed);
      if ok {
        log := log + [Stopped(op.id)];
      }
    }

    method DeleteSchedule(op: Op) returns (ok: bool)
      requires op.Delete?
      modifies this, repo
      ensures Now() == Step(cron, old(Now()), op)
    {
      ok := repo.Delete(op.id, op.deleted);
    }

    /** Executes one due schedule, as it was read, and writes its timing. */
    method TriggerSchedule(schedule: Schedule, v: Visit)
      requires v.id in repo.rows && repo.rows[v.id] == schedule
      modifies this, repo
      ensures Now() == VisitStep(cron, old(Now()), v)
    {
      if !v.found {
        return;
      }
      var next := ComputeNextRun(schedule, v.now);
      log := log + [Fired(v.id, v.at, Every(schedule), next, v.saved)];
      var saved := repo.UpdateNextRunAt(v.id, next, Some(v.now), v.saved);
    }

    /** A poll: `schedules` are the due rows in the order in which the query returned them. */
    method ProcessDueSchedules(op: Op)
      requires op.Poll? && (op.queried ==> Visits(repo.rows, op.now, op.visits))
      modifies this, repo
      ensures Now() == Step(cron, old(Now()), op)
    {
      if !op.queried {
        return;
      }
      var due := repo.rows;
      ghost var before := Now();
      var i := 0;
      while i < |op.visits|
        invariant i <= |op.visits| && Now() == VisitAll(cron, before, op.visits[..i])
        invariant repo.rows.Keys == due.Keys
        invariant forall j :: i <= j < |op.visits| ==>
            op.visits[j].id in due && repo.rows[op.visits[j].id] == due[op.visits[j].id]
      {
        var v := op.visits[i];
        assert op.visits[..i + 1][..i] == op.visits[..i];
        TriggerSchedule(due[v.id], v);
        i := i + 1;
      }
      assert op.visits[..i] == op.visits;
    }
  }
}

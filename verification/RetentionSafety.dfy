/**
 * What no sequence of purges may lose, and what it must not leave behind. One queue, one
 * policy, one instant, any units in any order, whoever names them.
 */
module RetentionSafety {
  import opened Options
  import opened Rows
  import opened Retention
  import opened RetentionLaws

  /** The task id is the tasks table's primary key. */
  ghost predicate TaskIdsAreKeys(d: Dump) {
    forall one, other :: one in d.tasks && other in d.tasks && one.taskId == other.taskId ==> one == other
  }

  /** The tasks whose units the sequence took. */
  ghost function Purged(d: Dump, terms: Terms, units: seq<Unit>): set<string>
    decreases |units|
  {
    if units == [] then {}
    else
      (if Allowed(d, terms, units[0]) then {units[0].taskId} else {})
      + Purged(After(d, terms, units[0]), terms, units[1..])
  }

  /** A wait belongs to the unit whose run in the queue registered it. */
  ghost predicate WaitOfAny(d: Dump, queue: string, ids: set<string>, wait: WaitRow) {
    exists run :: run in d.runs && run.taskId in ids && run.queue == queue && run.runId == wait.runId
  }

  lemma RemovedMembers(d: Dump, queue: string, gone: string)
    ensures var after := Removed(d, queue, gone);
      && (forall row :: row in after.tasks <==> row in d.tasks && row.taskId != gone)
      && (forall row :: row in after.runs <==> row in d.runs && !(row.taskId == gone && row.queue == queue))
      && (forall row :: row in after.checkpoints <==> row in d.checkpoints && row.taskId != gone)
      && (forall row :: row in after.waits <==> row in d.waits && row.runId !in RunIdsOf(d, queue, gone))
      && (forall row :: row in after.events <==>
            row in d.events && !(row.queue == queue && row.eventName == TaskDoneEvent(gone)))
  {
    FilterMembers(d.tasks, OtherTask(gone));
    FilterMembers(d.runs, OtherRun(queue, gone));
    FilterMembers(d.checkpoints, OtherCheckpoint(gone));
    FilterMembers(d.waits, OtherWait(RunIdsOf(d, queue, gone)));
    FilterMembers(d.events, OtherEvent(queue, gone));
  }

  /** A unit taken is not taken again: what a later sequence takes is other units. */
  lemma {:induction false} GoneIsNotPurged(d: Dump, terms: Terms, units: seq<Unit>, gone: string)
    requires forall row :: row in d.tasks ==> row.taskId != gone
    ensures gone !in Purged(d, terms, units)
    decreases |units|
  {
    if units != [] {
      var next := After(d, terms, units[0]);
      RemovedMembers(d, terms.queue, units[0].taskId);
      if Allowed(d, terms, units[0]) {
        assert !Keeps(d, terms, units[0], NoSuchTask);
        FindMeaning(d.tasks, (row: TaskRow) => row.taskId == units[0].taskId && row.queue == terms.queue);
      }
      GoneIsNotPurged(next, terms, units[1..], gone);
    }
  }

  /** The rows of every table that a set of purged units leaves. */
  ghost predicate LessUnits(d: Dump, after: Dump, queue: string, ids: set<string>) {
    && (forall row :: row in after.tasks <==> row in d.tasks && row.taskId !in ids)
    && (forall row :: row in after.runs <==> row in d.runs && !(row.taskId in ids && row.queue == queue))
    && (forall row :: row in after.checkpoints <==> row in d.checkpoints && row.taskId !in ids)
    && (forall row :: row in after.waits <==> row in d.waits && !WaitOfAny(d, queue, ids, row))
    && (forall row :: row in after.events <==>
          row in d.events && !(row.queue == queue && exists id :: id in ids && row.eventName == "$task-done:" + id))
  }

  /**
   * Conservation: a row of any table is lost exactly when it belongs to a unit the sequence
   * took. Every other row of every queue survives, and no row of a purged unit does.
   */
  lemma {:induction false} OnlyPurgedUnitsAreLost(d: Dump, terms: Terms, units: seq<Unit>)
    ensures LessUnits(d, AfterAll(d, terms, units), terms.queue, Purged(d, terms, units))
    decreases |units|
  {
    if units != [] {
      var gone := units[0].taskId;
      var next := After(d, terms, units[0]);
      var ids := Purged(next, terms, units[1..]);
      OnlyPurgedUnitsAreLost(next, terms, units[1..]);
      if Allowed(d, terms, units[0]) {
        RemovedMembers(d, terms.queue, gone);
        GoneIsNotPurged(next, terms, units[1..], gone);
        OneMore(d, next, AfterAll(d, terms, units), terms.queue, gone, ids);
      }
    }
  }

  lemma OneMore(d: Dump, next: Dump, after: Dump, queue: string, gone: string, ids: set<string>)
    requires next == Removed(d, queue, gone) && gone !in ids
    requires LessUnits(next, after, queue, ids)
    ensures LessUnits(d, after, queue, {gone} + ids)
  {
    RemovedMembers(d, queue, gone);
    forall row: WaitRow
      ensures WaitOfAny(d, queue, {gone} + ids, row)
        <==> row.runId in RunIdsOf(d, queue, gone) || WaitOfAny(next, queue, ids, row)
    {
      if WaitOfAny(d, queue, {gone} + ids, row) {
        var run :| run in d.runs && run.taskId in {gone} + ids && run.queue == queue && run.runId == row.runId;
        if run.taskId != gone { assert run in next.runs && run.taskId in ids; }
      }
    }
  }

  /** Nobody left in the queue can still be waiting for a purged task, and nobody holds its outcome. */
  ghost predicate NobodyReaches(d: Dump, queue: string, id: string) {
    && (forall wait :: wait in d.waits && wait.queue == queue ==> wait.eventName != "$task-done:" + id)
    && (forall run :: run in d.runs ==> run.taskId != id)
    && (forall run :: run in d.runs && run.queue == queue && run.wakeEvent == Some("$task-done:" + id)
          ==> run.eventPayload.None?)
  }

  lemma TakenWasUnreachable(d: Dump, terms: Terms, unit: Unit)
    requires Allowed(d, terms, unit)
    ensures NobodyReaches(After(d, terms, unit), terms.queue, unit.taskId)
  {
    RemovedMembers(d, terms.queue, unit.taskId);
    assert !Keeps(d, terms, unit, NoSuchTask) && !Keeps(d, terms, unit, Wait);
    assert !Keeps(d, terms, unit, Carry) && !Keeps(d, terms, unit, ForeignRun);
  }

  lemma {:induction false} StaysUnreachable(d: Dump, terms: Terms, units: seq<Unit>, id: string)
    requires NobodyReaches(d, terms.queue, id)
    ensures NobodyReaches(AfterAll(d, terms, units), terms.queue, id)
    decreases |units|
  {
    if units != [] {
      RemovedMembers(d, terms.queue, units[0].taskId);
      StaysUnreachable(After(d, terms, units[0]), terms, units[1..], id);
    }
  }

  /**
   * Safety over any purge sequence: no surviving wait in the queue names a purged task's
   * completion event, no surviving run is the task's, and no surviving run in the queue
   * carries its outcome.
   */
  lemma {:induction false} NobodyReachesThePurged(d: Dump, terms: Terms, units: seq<Unit>)
    ensures forall id :: id in Purged(d, terms, units) ==> NobodyReaches(AfterAll(d, terms, units), terms.queue, id)
    decreases |units|
  {
    if units != [] {
      var next := After(d, terms, units[0]);
      NobodyReachesThePurged(next, terms, units[1..]);
      if Allowed(d, terms, units[0]) {
        TakenWasUnreachable(d, terms, units[0]);
        StaysUnreachable(next, terms, units[1..], units[0].taskId);
      }
    }
  }

  /** The key a child is spawned under names its parent. */
  predicate SpawnedBy(terms: Terms, child: TaskRow, parentId: string) {
    child.key.Some? && |child.key.value| >= 7 && child.key.value[..7] == "$spawn:"
    && terms.parentOf(child.key.value) == Some(parentId)
  }

  /** The parent keeps the child's unit. */
  lemma ChildIsKept(d: Dump, terms: Terms, unit: Unit, parent: TaskRow, child: TaskRow)
    requires TaskIdsAreKeys(d) && child in d.tasks && SpawnedBy(terms, child, parent.taskId) && child.taskId == unit.taskId
    requires parent in d.tasks && parent.state != "completed" && parent.state != "cancelled"
    ensures !Allowed(d, terms, unit)
  {
    FindMeaning(d.tasks, (row: TaskRow) => row.taskId == child.taskId && row.queue == terms.queue);
    FindMeaning(d.tasks, (row: TaskRow) => row.taskId == parent.taskId);
    ParentIsFound(d, parent.taskId);
    KeepsIsOfTheTask(d, terms, unit, NoSuchTask);
    KeepsIsOfTheTask(d, terms, unit, Parent);
    assert Keeps(d, terms, unit, NoSuchTask) || Keeps(d, terms, unit, Parent);
  }

  /**
   * A parent that survives and is neither completed nor cancelled, so one a retry can set
   * running again, keeps every child its keys name, in whatever queue and however it ended.
   */
  lemma {:induction false} SurvivingParentKeepsItsChildren(d: Dump, terms: Terms, units: seq<Unit>, parent: TaskRow,
                                                           child: TaskRow)
    requires TaskIdsAreKeys(d)
    requires child in d.tasks && SpawnedBy(terms, child, parent.taskId)
    requires parent in AfterAll(d, terms, units).tasks && parent.state != "completed" && parent.state != "cancelled"
    ensures child in AfterAll(d, terms, units).tasks
    decreases |units|
  {
    if units != [] {
      var next := After(d, terms, units[0]);
      RemovedMembers(d, terms.queue, units[0].taskId);
      OnlyPurgedUnitsAreLost(next, terms, units[1..]);
      assert parent in d.tasks;
      if Allowed(d, terms, units[0]) && child.taskId == units[0].taskId {
        ChildIsKept(d, terms, units[0], parent, child);
        assert false;
      }
      SurvivingParentKeepsItsChildren(next, terms, units[1..], parent, child);
    }
  }
}

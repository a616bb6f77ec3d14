/** What the check of the completion events says of every history. */
module CompletionHistory {
  import opened Tables
  import opened ProtocolInvariant
  import opened ProtocolHistory
  import opened ProtocolRuns
  import opened ProtocolEnded
  import opened CompletionRows

  /** The rows of the two tables, read out in any order. */
  ghost predicate ReadOut(db: Db, tasks: seq<TaskRow>, events: seq<EventRow>) {
    && (forall row :: row in tasks <==>
          row.taskId in db.tasks && row.queue == db.tasks[row.taskId].queue && row.state == db.tasks[row.taskId].state)
    && (forall row :: row in events <==> KeyOf(row) in db.events && row.payload == db.events[KeyOf(row)].payload)
  }

  lemma CompletionEventsAreGood(db: Db, older: set<string>, tasks: seq<TaskRow>, events: seq<EventRow>, event: EventRow)
    requires Inv(db, older) && ReadOut(db, tasks, events) && event in events && event.name.TaskDone?
    ensures Decodes(event.payload)
    ensures exists task :: task in tasks && DoneKey(task) == KeyOf(event)
  {
    var id := event.name.taskId;
    assert KeyOf(event) in db.events;
    var task := TaskRow(id, db.tasks[id].queue, db.tasks[id].state);
    assert task in tasks && DoneKey(task) == KeyOf(event);
  }

  lemma EndedTasksHaveEvents(db: Db, older: set<string>, tasks: seq<TaskRow>, events: seq<EventRow>, task: TaskRow)
    requires Inv(db, older) && ReadOut(db, tasks, events) && task in tasks && !task.state.Live() && task.taskId !in older
    ensures HasEvent(events, task)
  {
    assert DoneKey(task) in db.events;
    var event := EventRow(task.queue, TaskDone(task.taskId), db.events[DoneKey(task)].payload);
    assert event in events && KeyOf(event) == DoneKey(task);
  }

  lemma OnlyMissingEventsAreFound(db: Db, older: set<string>, tasks: seq<TaskRow>, events: seq<EventRow>, violation: Violation)
    requires Inv(db, older) && ReadOut(db, tasks, events) && Violates(tasks, events, violation)
    ensures violation.MissingEvent? && violation.taskId in older
  {
    forall event | event in events && event.name.TaskDone?
      ensures Decodes(event.payload) && exists task :: task in tasks && DoneKey(task) == KeyOf(event)
    {
      CompletionEventsAreGood(db, older, tasks, events, event);
    }
    forall task | task in tasks && !task.state.Live() && task.taskId !in older ensures HasEvent(events, task) {
      EndedTasksHaveEvents(db, older, tasks, events, task);
    }
  }

  /** Only the missing event of a task an older build ended is ever found. */
  lemma OnlyOlderEndingsAreFound(now: int, steps: seq<Step>, tasks: seq<TaskRow>, events: seq<EventRow>, violation: Violation)
    requires ReadOut(After(Empty(now), steps).db, tasks, events) && Violates(tasks, events, violation)
    ensures violation.MissingEvent? && violation.taskId in After(Empty(now), steps).older
  {
    ReachableIsSound(now, steps);
    OnlyMissingEventsAreFound(After(Empty(now), steps).db, After(Empty(now), steps).older, tasks, events, violation);
  }

  lemma {:induction false} NoOlderBuildNoneOlder(w: World, steps: seq<Step>)
    requires forall i :: 0 <= i < |steps| ==> !steps[i].OlderBuild?
    ensures After(w, steps).older <= w.older
    decreases |steps|
  {
    if steps != [] {
      NoOlderBuildNoneOlder(Next(w, steps[0]), steps[1..]);
    }
  }

  /** A history of this build alone leaves clean rows. */
  lemma ThisBuildLeavesCleanRows(now: int, steps: seq<Step>, tasks: seq<TaskRow>, events: seq<EventRow>)
    requires forall i :: 0 <= i < |steps| ==> !steps[i].OlderBuild?
    requires ReadOut(After(Empty(now), steps).db, tasks, events)
    ensures Clean(tasks, events)
  {
    NoOlderBuildNoneOlder(Empty(now), steps);
    forall violation ensures !Violates(tasks, events, violation) {
      if Violates(tasks, events, violation) {
        OnlyOlderEndingsAreFound(now, steps, tasks, events, violation);
        assert false;
      }
    }
    CleanIsNoViolation(tasks, events);
  }

  // ------------------------------------------------------------------------------------------
  // An older build that only cancels, which is the one the fault matrix simulates.

  predicate OlderBuildCancels(step: Step) {
    step.OlderBuild? ==> step.state == Cancelled
  }

  ghost predicate OlderAreCancelled(w: World) {
    forall id :: id in w.older ==> id in w.db.tasks && w.db.tasks[id].state == Cancelled
  }

  /** No batch revives or ends again a task that was cancelled. */
  lemma CancelledStays(w: World, step: Step, id: string)
    requires Inv(w.db, w.older) && id in w.db.tasks && w.db.tasks[id].state == Cancelled
    ensures id in Apply(w, step).tasks && Apply(w, step).tasks[id].state == Cancelled
  {
    EndedRowStays(w, step, id);
  }

  lemma OlderEndingIsCancelled(w: World, step: Step)
    requires OlderAreCancelled(w) && Inv(w.db, w.older) && OlderBuildCancels(step)
    ensures OlderAreCancelled(Next(w, step))
  {
    forall id | id in OlderAfter(w, step)
      ensures id in Apply(w, step).tasks && Apply(w, step).tasks[id].state == Cancelled
    {
      if id in w.older {
        CancelledStays(w, step, id);
      } else {
        assert step.OlderBuild? && id == step.taskId;
      }
    }
  }

  lemma {:induction false} OlderStayCancelled(w: World, steps: seq<Step>)
    requires WorldInv(w) && OlderAreCancelled(w)
    requires forall i :: 0 <= i < |steps| ==> OlderBuildCancels(steps[i])
    ensures OlderAreCancelled(After(w, steps))
    decreases |steps|
  {
    if steps != [] {
      StepKeeps(w, steps[0]);
      OlderEndingIsCancelled(w, steps[0]);
      OlderStayCancelled(Next(w, steps[0]), steps[1..]);
    }
  }

  lemma NothingOlderAtFirst(now: int)
    ensures WorldInv(Empty(now)) && OlderAreCancelled(Empty(now))
  {
    EmptyIsSound(now);
  }

  lemma OlderEndingsAreCancelled(now: int, steps: seq<Step>)
    requires forall i :: 0 <= i < |steps| ==> OlderBuildCancels(steps[i])
    ensures OlderAreCancelled(After(Empty(now), steps))
  {
    NothingOlderAtFirst(now);
    OlderStayCancelled(Empty(now), steps);
  }

  lemma CancelledEndingIsExcused(w: World, tasks: seq<TaskRow>, events: seq<EventRow>, violation: Violation)
    requires OlderAreCancelled(w) && ReadOut(w.db, tasks, events)
    requires violation.MissingEvent? && violation.taskId in w.older && Violates(tasks, events, violation)
    ensures Excused(tasks, w.older, violation)
  {
    var task :| task in tasks && task.taskId == violation.taskId && !task.state.Live() && !HasEvent(events, task);
    assert task.state == Cancelled;
  }

  /** Where older builds only cancel, the fault matrix excuses everything the check finds, in every history. */
  lemma EverythingFoundIsExcused(now: int, steps: seq<Step>, tasks: seq<TaskRow>, events: seq<EventRow>,
                                 violation: Violation)
    requires forall i :: 0 <= i < |steps| ==> OlderBuildCancels(steps[i])
    requires ReadOut(After(Empty(now), steps).db, tasks, events) && Violates(tasks, events, violation)
    ensures violation.MissingEvent? && violation.taskId in After(Empty(now), steps).older
    ensures exists task :: task in tasks && task.taskId == violation.taskId && task.state == Cancelled
  {
    OlderEndingsAreCancelled(now, steps);
    OnlyOlderEndingsAreFound(now, steps, tasks, events, violation);
    CancelledEndingIsExcused(After(Empty(now), steps), tasks, events, violation);
  }
}

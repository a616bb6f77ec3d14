/**
 * Laws of any sequence of purges of one queue, under one policy, at one instant: the order does
 * not matter, and nothing a live holder can still reach is lost.
 */
module RetentionLaws {
  import opened Options
  import opened Rows
  import opened Retention

  // ------------------------------------------------------------------------------------------
  // One removal beside another task's unit.

  /** The runs another unit owns in the queue are the same before and after a removal. */
  lemma RunIdsKept(d: Dump, queue: string, gone: string, kept: string)
    requires gone != kept
    ensures RunIdsOf(Removed(d, queue, gone), queue, kept) == RunIdsOf(d, queue, kept)
  {
    FilterMembers(d.runs, OtherRun(queue, gone));
    var after := Removed(d, queue, gone);
    forall id ensures id in RunIdsOf(after, queue, kept) <==> id in RunIdsOf(d, queue, kept) {
      if id in RunIdsOf(d, queue, kept) {
        var run :| run in d.runs && run.taskId == kept && run.queue == queue && run.runId == id;
        assert run in after.runs;
      }
    }
  }

  lemma TaskKept(d: Dump, queue: string, gone: string, kept: string)
    requires gone != kept
    ensures TaskIn(Removed(d, queue, gone), queue, kept) == TaskIn(d, queue, kept)
    ensures TaskAnywhere(Removed(d, queue, gone), kept) == TaskAnywhere(d, kept)
  {
    FindAfterFilter(d.tasks, OtherTask(gone), (row: TaskRow) => row.taskId == kept && row.queue == queue);
    FindAfterFilter(d.tasks, OtherTask(gone), (row: TaskRow) => row.taskId == kept);
  }

  lemma TaskGone(d: Dump, queue: string, gone: string)
    ensures TaskIn(Removed(d, queue, gone), queue, gone) == None
    ensures TaskAnywhere(Removed(d, queue, gone), gone) == None
  {
    var after := Removed(d, queue, gone);
    FilterMembers(d.tasks, OtherTask(gone));
    FindMeaning(after.tasks, (row: TaskRow) => row.taskId == gone && row.queue == queue);
    FindMeaning(after.tasks, (row: TaskRow) => row.taskId == gone);
  }

  lemma CheckpointsKept(d: Dump, queue: string, gone: string, kept: string)
    requires gone != kept
    ensures CheckpointsOf(Removed(d, queue, gone), kept) == CheckpointsOf(d, kept)
  {
    var mine := (row: CheckpointRow) => row.taskId == kept;
    FilterCommutes(d.checkpoints, OtherCheckpoint(gone), mine);
    FilterMembers(d.checkpoints, mine);
    FilterKeepsAll(Filter(d.checkpoints, mine), OtherCheckpoint(gone));
  }

  /** Removing one unit can only free another: nothing comes to keep a unit that did not keep it before. */
  lemma RemovalOnlyFrees(d: Dump, terms: Terms, gone: string, unit: Unit, condition: KeptBy)
    requires gone != unit.taskId
    ensures Keeps(Removed(d, terms.queue, gone), terms, unit, condition) ==> Keeps(d, terms, unit, condition)
  {
    var after := Removed(d, terms.queue, gone);
    TaskKept(d, terms.queue, gone, unit.taskId);
    KeepsIsOfTheTask(d, terms, unit, condition);
    KeepsIsOfTheTask(after, terms, unit, condition);
    var found := TaskIn(d, terms.queue, unit.taskId);
    if found.Some? { RemovalOnlyFreesTheTask(d, terms, gone, unit, found.value, condition); }
  }

  lemma RemovalOnlyFreesTheTask(d: Dump, terms: Terms, gone: string, unit: Unit, task: TaskRow, condition: KeptBy)
    requires gone != unit.taskId
    ensures KeepsTask(Removed(d, terms.queue, gone), terms, unit, task, condition) ==> KeepsTask(d, terms, unit, task, condition)
  {
    hide IsFoundAt;
    var after := Removed(d, terms.queue, gone);
    FilterMembers(d.runs, OtherRun(terms.queue, gone));
    FilterMembers(d.waits, OtherWait(RunIdsOf(d, terms.queue, gone)));
    if condition == Parent && task.key.Some? {
      var named := terms.parentOf(task.key.value);
      if named.Some? {
        ParentIsFound(d, named.value);
        ParentIsFound(after, named.value);
        if named.value == gone { TaskGone(d, terms.queue, gone); } else { TaskKept(d, terms.queue, gone, named.value); }
      }
    } else if condition == Cap {
      var its := (row: CheckpointRow) => row.taskId == unit.taskId;
      CheckpointsKept(d, terms.queue, gone, unit.taskId);
      FilterAgrees(d.checkpoints, its, (row: CheckpointRow) => row.taskId == unit.taskId);
      FilterAgrees(after.checkpoints, its, (row: CheckpointRow) => row.taskId == unit.taskId);
    }
  }

  /** A purge of one unit leaves every other unit that was free to go free to go. */
  lemma PurgeKeepsFree(d: Dump, terms: Terms, purged: Unit, unit: Unit)
    requires purged.taskId != unit.taskId && Allowed(d, terms, unit)
    ensures Allowed(After(d, terms, purged), terms, unit)
  {
    forall condition ensures !Keeps(After(d, terms, purged), terms, unit, condition) {
      RemovalOnlyFrees(d, terms, purged.taskId, unit, condition);
    }
  }

  lemma PurgedIsKeptOut(d: Dump, terms: Terms, purged: Unit, unit: Unit)
    requires Allowed(d, terms, purged) && unit.taskId == purged.taskId
    ensures Keeps(After(d, terms, purged), terms, unit, NoSuchTask)
  {
    TaskGone(d, terms.queue, purged.taskId);
    KeepsIsOfTheTask(After(d, terms, purged), terms, unit, NoSuchTask);
  }

  lemma RemovalsCommute(d: Dump, queue: string, one: string, other: string)
    requires one != other
    ensures Removed(Removed(d, queue, one), queue, other) == Removed(Removed(d, queue, other), queue, one)
  {
    RunIdsKept(d, queue, one, other);
    RunIdsKept(d, queue, other, one);
    FilterCommutes(d.tasks, OtherTask(one), OtherTask(other));
    FilterCommutes(d.runs, OtherRun(queue, one), OtherRun(queue, other));
    FilterCommutes(d.checkpoints, OtherCheckpoint(one), OtherCheckpoint(other));
    FilterCommutes(d.waits, OtherWait(RunIdsOf(d, queue, one)), OtherWait(RunIdsOf(d, queue, other)));
    FilterCommutes(d.events, OtherEvent(queue, one), OtherEvent(queue, other));
  }

  /** Any two purges the model lets go, done in either order, leave the same dump. */
  lemma AllowedPurgesCommute(d: Dump, terms: Terms, one: Unit, other: Unit)
    requires Allowed(d, terms, one) && Allowed(d, terms, other)
    ensures After(After(d, terms, one), terms, other) == After(After(d, terms, other), terms, one)
  {
    if one.taskId == other.taskId {
      PurgedIsKeptOut(d, terms, one, other);
      PurgedIsKeptOut(d, terms, other, one);
    } else {
      PurgeKeepsFree(d, terms, one, other);
      PurgeKeepsFree(d, terms, other, one);
      RemovalsCommute(d, terms.queue, one.taskId, other.taskId);
    }
  }

  // ------------------------------------------------------------------------------------------
  // Whole sequences.

  /** Every purge of the sequence takes its unit. */
  ghost predicate AllTaken(d: Dump, terms: Terms, units: seq<Unit>)
    decreases |units|
  {
    units == [] || (Allowed(d, terms, units[0]) && AllTaken(After(d, terms, units[0]), terms, units[1..]))
  }

  /** No purge of any unit, whoever names it, would take anything more. */
  ghost predicate Exhausted(d: Dump, terms: Terms) {
    forall unit: Unit :: !Allowed(d, terms, unit)
  }

  /** The purges of a sequence that took their unit. */
  ghost function Taken(d: Dump, terms: Terms, units: seq<Unit>): (taken: seq<Unit>)
    ensures AllTaken(d, terms, taken)
    ensures AfterAll(d, terms, taken) == AfterAll(d, terms, units)
    decreases |units|
  {
    if units == [] then []
    else
      var rest := Taken(After(d, terms, units[0]), terms, units[1..]);
      if Allowed(d, terms, units[0]) then
        assert ([units[0]] + rest)[1..] == rest;
        [units[0]] + rest
      else rest
  }

  /** A unit that is free to go at the start has gone once a sequence is exhausted, and could have gone first. */
  lemma {:induction false} FreeUnitGoesFirst(d: Dump, terms: Terms, unit: Unit, units: seq<Unit>) returns (rest: seq<Unit>)
    requires Allowed(d, terms, unit) && AllTaken(d, terms, units) && Exhausted(AfterAll(d, terms, units), terms)
    ensures |rest| + 1 == |units|
    ensures AllTaken(After(d, terms, unit), terms, rest)
    ensures AfterAll(After(d, terms, unit), terms, rest) == AfterAll(d, terms, units)
    decreases |units|
  {
    if units == [] {
      rest := [];
      assert false;
    } else {
      var first := units[0];
      if first.taskId == unit.taskId {
        rest := units[1..];
      } else {
        PurgeKeepsFree(d, terms, first, unit);
        PurgeKeepsFree(d, terms, unit, first);
        var later := FreeUnitGoesFirst(After(d, terms, first), terms, unit, units[1..]);
        AllowedPurgesCommute(d, terms, unit, first);
        rest := [first] + later;
        assert rest[1..] == later;
      }
    }
  }

  /** Two sequences that took everything they could, and left nothing to take, left the same dump. */
  lemma {:induction false} TakenSequencesAgree(d: Dump, terms: Terms, some: seq<Unit>, others: seq<Unit>)
    requires AllTaken(d, terms, some) && Exhausted(AfterAll(d, terms, some), terms)
    requires AllTaken(d, terms, others) && Exhausted(AfterAll(d, terms, others), terms)
    ensures AfterAll(d, terms, some) == AfterAll(d, terms, others)
    ensures |some| == |others|
    decreases |some|
  {
    if some == [] {
      if others != [] {
        assert false;
      }
    } else {
      var rest := FreeUnitGoesFirst(d, terms, some[0], others);
      TakenSequencesAgree(After(d, terms, some[0]), terms, some[1..], rest);
    }
  }

  /**
   * Purging is confluent: whatever units are tried and in whatever order, any two sequences
   * that leave nothing to purge leave the same rows in every table.
   */
  lemma PurgingIsConfluent(d: Dump, terms: Terms, some: seq<Unit>, others: seq<Unit>)
    requires Exhausted(AfterAll(d, terms, some), terms) && Exhausted(AfterAll(d, terms, others), terms)
    ensures AfterAll(d, terms, some) == AfterAll(d, terms, others)
  {
    TakenSequencesAgree(d, terms, Taken(d, terms, some), Taken(d, terms, others));
  }

  /** Some sequence leaves nothing to purge, so the confluent end is always reached. */
  lemma {:induction false} SomeSequenceExhausts(d: Dump, terms: Terms) returns (units: seq<Unit>)
    ensures Exhausted(AfterAll(d, terms, units), terms)
    decreases |d.tasks|
  {
    if Exhausted(d, terms) {
      return [];
    }
    var unit: Unit :| Allowed(d, terms, unit);
    assert !Keeps(d, terms, unit, NoSuchTask);
    FindMeaning(d.tasks, (row: TaskRow) => row.taskId == unit.taskId && row.queue == terms.queue);
    FilterAllOrFewer(d.tasks, OtherTask(unit.taskId));
    var rest := SomeSequenceExhausts(After(d, terms, unit), terms);
    units := [unit] + rest;
    assert units[1..] == rest;
  }
}

/** Every step of every history does what is said of its rows, and no more. */
module ProtocolExact {
  import opened Options
  import opened Tables
  import opened Protocol
  import opened ProtocolInvariant
  import opened ProtocolSteps
  import opened ProtocolHistory
  import opened ProtocolSafety
  import opened ProtocolRuns
  import opened ProtocolAwaits
  import opened ProtocolEffects
  import CapCrossings

  // ------------------------------------------------------------------------------------------
  // What a batch asks, beside what the rows say.

  lemma LiveIsCurrent(db: Db, id: string)
    requires Sound(db) && id in db.runs && db.runs[id].state.Live()
    ensures Current(db, id) && db.tasks[db.runs[id].taskId].state == db.runs[id].state
  {
    hide Manned, Settled;
    LiveRunIsTop(db, id);
    forall other | other in db.runs && LiveRunOf(db, other, db.runs[id].taskId) ensures other == id {
      OnlyLiveRun(db, id, other);
    }
  }

  /** A held run's task is live, and nothing else of it is. */
  lemma HoldsIsClaimed(db: Db, older: set<string>, queue: string, id: string, token: string)
    requires Inv(db, older)
    ensures Claimed(db, queue, id, token) == Holds(db, queue, id, token)
    ensures Holds(db, queue, id, token) ==>
      && LiveClaim(db, queue, id, token) && Current(db, id) && db.runs[id].expiresAt.Some?
      && db.tasks[db.runs[id].taskId].state == Running
      && forall key :: key in db.waits ==> key.0 != id
  {
    hide Awaited, Manned, Settled, Numbered;
    if Holds(db, queue, id, token) {
      LiveIsCurrent(db, id);
      NoWaitOfRunning(db, older, id);
    }
  }

  lemma NoWaitOfRunning(db: Db, older: set<string>, id: string)
    requires Inv(db, older) && id in db.runs && db.runs[id].state == Running
    ensures forall key :: key in db.waits ==> key.0 != id
  {
    hide Sound, NobodyStranded, Announced, Carried;
    RunningRunHasNoWait(db, id);
  }

  lemma UnstartedIsReceipt(db: Db, older: set<string>, queue: string, id: string, token: string, gen: nat)
    requires Inv(db, older)
    ensures Receipt(db, queue, id, token, gen) == Unstarted(db, queue, id, token, gen)
  {
    hide Inv, Current;
    HoldsIsClaimed(db, older, queue, id, token);
  }

  lemma RanOutIsSwept(db: Db, older: set<string>, queue: string, id: string, gen: nat)
    requires Inv(db, older)
    ensures Swept(db, queue, id, gen) == RanOut(db, queue, id, gen)
    ensures RanOut(db, queue, id, gen) ==> Accounted(db.runs[id], db.tasks[db.runs[id].taskId])
  {
    hide Awaited, Manned, Settled, Numbered;
    if RanOut(db, queue, id, gen) {
      LiveIsCurrent(db, id);
    }
  }

  lemma DueIsClaimable(db: Db, older: set<string>, queue: string, id: string)
    requires Inv(db, older)
    ensures Claimable(db, queue, id) == DueToRun(db, queue, id)
  {
    hide Awaited, Manned, Settled, Numbered;
    if DueToRun(db, queue, id) {
      LiveIsCurrent(db, id);
    }
  }

  // ------------------------------------------------------------------------------------------
  // One run and its task.

  lemma ActivateIs(db: Db, older: set<string>, queue: string, id: string, token: string, gen: nat, seed: nat)
    requires Inv(db, older)
    ensures ActivateDoes(db, queue, id, token, gen, Activate(db, queue, id, token, gen, seed))
  {
    hide Inv, Current;
    UnstartedIsReceipt(db, older, queue, id, token, gen);
  }

  lemma HeartbeatIs(db: Db, older: set<string>, queue: string, id: string, token: string, extendMs: nat, seed: nat)
    requires Inv(db, older)
    ensures HeartbeatDoes(db, queue, id, token, extendMs, Heartbeat(db, queue, id, token, extendMs, seed))
  {
    hide Inv, Current;
    HoldsIsClaimed(db, older, queue, id, token);
  }

  lemma ExpireIs(db: Db, older: set<string>, queue: string, id: string, token: string)
    requires Inv(db, older)
    ensures ExpireDoes(db, queue, id, token, ExpireLeaseNow(db, queue, id, token))
  {
    hide Inv, Current;
    HoldsIsClaimed(db, older, queue, id, token);
  }

  lemma CheckpointIs(db: Db, older: set<string>, queue: string, id: string, token: string, extendMs: nat, owed: bool, seed: nat)
    requires Inv(db, older)
    ensures CheckpointDoes(db, queue, id, token, extendMs, owed, SetCheckpoint(db, queue, id, token, extendMs, owed, seed))
  {
    hide Inv, Current;
    HoldsIsClaimed(db, older, queue, id, token);
  }

  lemma ParkIs(db: Db, id: string, parked: Run, stamp: Stamp)
    requires id in db.runs && Owns(db, db.runs[id]) && parked.taskId == db.runs[id].taskId
    requires forall key :: key in db.waits ==> key.0 != id
    ensures Written(db, Park(db, id, parked, stamp), id, parked, db.tasks[parked.taskId].(state := parked.state))
  {
    assert (map key | key in db.waits && key.0 != id :: db.waits[key]) == db.waits;
  }

  lemma SuspendIs(db: Db, older: set<string>, queue: string, id: string, token: string, wakeAt: int, marker: bool, seed: nat)
    requires Inv(db, older)
    ensures SuspendDoes(db, queue, id, token, wakeAt, marker, Suspend(db, queue, id, token, wakeAt, marker, seed))
  {
    hide Inv, Current, Park, Written;
    HoldsIsClaimed(db, older, queue, id, token);
    if MayPark(db, queue, id, token) && !(marker && db.tasks[db.runs[id].taskId].saga.Some?) {
      var parked := NoWake(Unclaimed(db.runs[id])).(state := Due(wakeAt, db.now), availableAt := Some(wakeAt),
                                                     stamp := By(seed, "suspend"));
      ParkIs(db, id, parked, By(seed, "task-mirror"));
      WrittenBare(db, Park(db, id, parked, By(seed, "task-mirror")), id, parked, parked.(stamp := db.runs[id].stamp),
                  db.tasks[parked.taskId].(state := parked.state));
    }
  }

  lemma WrittenBare(db: Db, after: Db, id: string, run: Run, bare: Run, task: Task)
    requires Written(db, after, id, run, task) && Bare(run) == Bare(bare) && run.taskId == bare.taskId
    ensures Written(db, after, id, bare, task)
  {
  }

  lemma DeferIs(db: Db, older: set<string>, queue: string, id: string, token: string, gen: nat, wakeAt: int, seed: nat)
    requires Inv(db, older)
    ensures DeferDoes(db, queue, id, token, gen, wakeAt, DeferLaunch(db, queue, id, token, gen, wakeAt, seed))
  {
    hide Inv, Current, Park, Written;
    HoldsIsClaimed(db, older, queue, id, token);
    UnstartedIsReceipt(db, older, queue, id, token, gen);
    if Receipt(db, queue, id, token, gen) {
      var parked := Unclaimed(db.runs[id]).(state := Due(wakeAt, db.now), availableAt := Some(wakeAt), stamp := By(seed, "suspend"));
      ParkIs(db, id, parked, By(seed, "task-mirror"));
      WrittenBare(db, Park(db, id, parked, By(seed, "task-mirror")), id, parked, parked.(stamp := db.runs[id].stamp),
                  db.tasks[parked.taskId].(state := parked.state));
    }
  }

  // ------------------------------------------------------------------------------------------
  // Spawn, claim, revival and await.

  lemma SpawnIs(db: Db, older: set<string>, s: Spawning, seed: nat)
    requires Inv(db, older)
    ensures SpawnDoes(db, s, Spawn(db, s, seed))
  {
    hide Inv, Current;
    if s.parent.Some? {
      HoldsIsClaimed(db, older, s.parent.value.queue, s.parent.value.runId, s.parent.value.token);
    }
    assert SpawnAdmits(db, s) == HasRoom(db, s);
  }

  lemma TakeIsAdmitted(db: Db, older: set<string>, queue: string, token: string, leaseMs: nat, limit: nat, picked: set<string>)
    requires Inv(db, older)
    ensures ClaimAdmits(db, queue, token, leaseMs, limit, picked) == MayTake(db, queue, token, leaseMs, limit, picked)
  {
    hide Inv, Claimable, DueToRun;
    forall id ensures Claimable(db, queue, id) == DueToRun(db, queue, id) {
      DueIsClaimable(db, older, queue, id);
    }
    forall id ensures id in Held(db, queue, token) <==>
        id in db.runs && db.runs[id].queue == queue && db.runs[id].state == Running && db.runs[id].claimedBy == Some(token) {
    }
  }

  /** A wait of a run that is due is due with it. */
  lemma WaitsOfTheDue(db: Db, older: set<string>, queue: string, picked: set<string>)
    requires Inv(db, older) && forall id :: id in picked ==> DueToRun(db, queue, id)
    ensures forall key :: key in db.waits && key.0 in picked ==>
      db.waits[key].timeoutAt.Some? && db.waits[key].timeoutAt.value <= db.now
  {
    hide Sound, NobodyStranded, Announced, Carried;
    forall key | key in db.waits && key.0 in picked
      ensures db.waits[key].timeoutAt.Some? && db.waits[key].timeoutAt.value <= db.now
    {
      assert Sleeper(db.runs[key.0], key.1, db.waits[key]);
      assert DueToRun(db, queue, key.0);
    }
  }

  lemma ClaimRows(db: Db, queue: string, token: string, leaseMs: nat, limit: nat, picked: set<string>, seed: nat)
    requires ClaimAdmits(db, queue, token, leaseMs, limit, picked) && MayTake(db, queue, token, leaseMs, limit, picked)
    ensures var after := Claim(db, queue, token, leaseMs, limit, picked, seed);
      && after.now == db.now && after.events == db.events
      && after.tasks.Keys == db.tasks.Keys && after.runs.Keys == db.runs.Keys
      && (forall id :: id in db.runs ==>
            Bare(after.runs[id]) == Bare(
              if id in picked
              then db.runs[id].(state := Running, claimedBy := Some(token), claimGen := db.runs[id].claimGen + 1,
                                leaseMs := leaseMs, expiresAt := Some(db.now + leaseMs))
              else db.runs[id]))
  {
    hide ClaimAdmits, MayTake;
  }

  lemma ClaimTasks(db: Db, queue: string, token: string, leaseMs: nat, limit: nat, picked: set<string>, seed: nat)
    requires ClaimAdmits(db, queue, token, leaseMs, limit, picked) && forall id :: id in picked ==> id in db.runs
    ensures var after := Claim(db, queue, token, leaseMs, limit, picked, seed);
      forall taskId :: taskId in db.tasks ==>
        && taskId in after.tasks
        && BareTask(after.tasks[taskId]) == BareTask(
             if exists id :: id in picked && db.runs[id].taskId == taskId
             then db.tasks[taskId].(state := Running) else db.tasks[taskId])
  {
    hide ClaimAdmits;
  }

  lemma ClaimWaits(db: Db, queue: string, token: string, leaseMs: nat, limit: nat, picked: set<string>, seed: nat)
    requires ClaimAdmits(db, queue, token, leaseMs, limit, picked)
    requires forall key :: key in db.waits && key.0 in picked ==>
      db.waits[key].timeoutAt.Some? && db.waits[key].timeoutAt.value <= db.now
    ensures Claim(db, queue, token, leaseMs, limit, picked, seed).waits
         == map key | key in db.waits && key.0 !in picked :: db.waits[key]
  {
    hide ClaimAdmits;
  }

  lemma ClaimIs(db: Db, older: set<string>, queue: string, token: string, leaseMs: nat, limit: nat, picked: set<string>, seed: nat)
    requires Inv(db, older)
    ensures ClaimDoes(db, queue, token, leaseMs, limit, picked, Claim(db, queue, token, leaseMs, limit, picked, seed))
  {
    hide Inv, ClaimAdmits, MayTake, Claim, Bare, BareTask;
    TakeIsAdmitted(db, older, queue, token, leaseMs, limit, picked);
    if MayTake(db, queue, token, leaseMs, limit, picked) {
      TakenAreDue(db, queue, token, leaseMs, limit, picked);
      WaitsOfTheDue(db, older, queue, picked);
      ClaimRows(db, queue, token, leaseMs, limit, picked, seed);
      ClaimTasks(db, queue, token, leaseMs, limit, picked, seed);
      ClaimWaits(db, queue, token, leaseMs, limit, picked, seed);
    } else {
      ClaimRefused(db, queue, token, leaseMs, limit, picked, seed);
    }
  }

  lemma TakenAreDue(db: Db, queue: string, token: string, leaseMs: nat, limit: nat, picked: set<string>)
    requires MayTake(db, queue, token, leaseMs, limit, picked)
    ensures forall id :: id in picked ==> id in db.runs && DueToRun(db, queue, id)
  {
  }

  lemma ClaimRefused(db: Db, queue: string, token: string, leaseMs: nat, limit: nat, picked: set<string>, seed: nat)
    requires !ClaimAdmits(db, queue, token, leaseMs, limit, picked)
    ensures Claim(db, queue, token, leaseMs, limit, picked, seed) == db
  {
    hide ClaimAdmits;
  }

  lemma LastIsTop(db: Db, taskId: string, top: string)
    ensures TopRun(db, taskId, top) == IsLast(db, taskId, top)
  {
  }

  lemma OwnsAll(db: Db, taskId: string)
    requires Fits(db) && taskId in db.tasks
    ensures OwnsEveryRun(db, taskId)
  {
  }

  /** Nothing the revival's guard asks of a failed task's rows is ever refused it. */
  lemma FailedIsRevivable(db: Db, older: set<string>, taskId: string, top: string)
    requires Inv(db, older) && taskId in db.tasks && db.tasks[taskId].state == Failed && IsLast(db, taskId, top)
    ensures OwnsEveryRun(db, taskId) && db.tasks[taskId].reason.Some? && db.tasks[taskId].result.None?
    ensures forall id :: id in db.runs ==> !LiveRunOf(db, id, taskId)
    ensures var charge := db.runs[top].attempt - db.tasks[taskId].infraRetries;
      0 <= charge - db.tasks[taskId].attempts <= 1 && charge <= db.tasks[taskId].maxAttempts
  {
    hide Awaited, Manned, Numbered;
    OwnsAll(db, taskId);
    var last :| TopRun(db, taskId, last) && Charged(db.runs[last], db.tasks[taskId]);
    assert db.runs[last].attempt == db.runs[top].attempt;
    forall id | id in db.runs ensures !LiveRunOf(db, id, taskId) {
    }
  }

  lemma ReviveIs(db: Db, older: set<string>, queue: string, taskId: string, top: string, runId: string, seed: nat)
    requires Inv(db, older)
    ensures ReviveDoes(db, queue, taskId, top, runId, RetryTask(db, queue, taskId, top, runId, seed))
  {
    hide Inv, OwnsEveryRun;
    LastIsTop(db, taskId, top);
    if taskId in db.tasks && db.tasks[taskId].state == Failed && IsLast(db, taskId, top) {
      FailedIsRevivable(db, older, taskId, top);
    }
  }

  lemma AwaitIs(db: Db, older: set<string>, a: Await, name: EventName, timeoutMs: Option<nat>, seed: nat)
    requires Inv(db, older)
    ensures AwaitDoes(db, a, name, timeoutMs, AwaitEvent(db, a, name, timeoutMs, seed))
  {
    hide Inv, Current;
    HoldsIsClaimed(db, older, a.queue, a.runId, a.token);
    assert AwaitRegisters(db, a, name) == MayWait(db, a, name);
  }

  // ------------------------------------------------------------------------------------------
  // Telling.

  lemma WokenWait(db: Db, queue: string, name: EventName)
    requires Fits(db) && Mirrored(db) && Wakeable(db, {(queue, name)})
    ensures forall id :: id in db.runs ==> (ParkedOn(db, id, queue, name) <==> Waits(db, id, queue, name))
    ensures forall key :: key in db.waits && IsFor(db.waits[key], queue, name) ==> ParkedOn(db, key.0, queue, name)
  {
    forall key | key in db.waits && IsFor(db.waits[key], queue, name) ensures ParkedOn(db, key.0, queue, name) {
      assert Sleeper(db.runs[key.0], key.1, db.waits[key]);
    }
    forall id | id in db.runs && ParkedOn(db, id, queue, name) ensures Waits(db, id, queue, name) {
      assert IsFor(db.waits[(id, db.runs[id].wakeStep.value)], queue, name);
    }
  }

  lemma OwnersWait(db: Db, queue: string, name: EventName)
    requires Fits(db) && Mirrored(db) && Wakeable(db, {(queue, name)})
    ensures forall taskId ::
      (exists id :: id in Woken(db, queue, name) && db.runs[id].taskId == taskId) <==> TaskWaits(db, taskId, queue, name)
  {
    hide Fits, Mirrored;
    WokenWait(db, queue, name);
    forall taskId
      ensures (exists id :: id in Woken(db, queue, name) && db.runs[id].taskId == taskId) <==> TaskWaits(db, taskId, queue, name)
    {
      if TaskWaits(db, taskId, queue, name) {
        var key :| key in db.waits && db.waits[key].taskId == taskId && IsFor(db.waits[key], queue, name);
        assert key.0 in Woken(db, queue, name) && Sleeper(db.runs[key.0], key.1, db.waits[key]);
      }
      if id :| id in Woken(db, queue, name) && db.runs[id].taskId == taskId {
        var key :| key in db.waits && key.0 == id && IsFor(db.waits[key], queue, name);
        assert Sleeper(db.runs[key.0], key.1, db.waits[key]);
      }
    }
  }

  lemma WaitsGo(db: Db, queue: string, name: EventName, seed: nat)
    requires (queue, name) in db.events && Fits(db) && Mirrored(db) && Wakeable(db, {(queue, name)})
    ensures Wake(db, queue, name, seed).waits
         == map key | key in db.waits && !IsFor(db.waits[key], queue, name) :: db.waits[key]
  {
    hide Fits, Mirrored;
    WokenWait(db, queue, name);
    forall key | key in db.waits
      ensures (key.0 in Woken(db, queue, name) && db.waits[key].event == name) <==> IsFor(db.waits[key], queue, name)
    {
      assert Sleeper(db.runs[key.0], key.1, db.waits[key]);
    }
  }

  lemma WakeIs(db: Db, queue: string, name: EventName, seed: nat)
    requires (queue, name) in db.events && Fits(db) && Mirrored(db) && Wakeable(db, {(queue, name)})
    requires Waiting(db, queue, name) ==> db.events[(queue, name)].emittedAt == db.now
    ensures Tells(db, Wake(db, queue, name, seed), queue, name, db.events[(queue, name)].payload, {})
  {
    hide Fits, Mirrored, Wakeable, ParkedOn;
    WokenWait(db, queue, name);
    OwnersWait(db, queue, name);
    WaitsGo(db, queue, name, seed);
  }

  /** Somebody waits for the event. */
  ghost predicate Waiting(db: Db, queue: string, name: EventName) {
    exists key :: key in db.waits && IsFor(db.waits[key], queue, name)
  }

  lemma NobodyWaitsForThePast(db: Db, queue: string, name: EventName)
    requires Wakeable(db, {}) && (queue, name) in db.events
    ensures !Waiting(db, queue, name)
  {
    forall key | key in db.waits ensures !IsFor(db.waits[key], queue, name) {
      assert StillAhead(db, db.waits[key]);
    }
  }

  /** A payload nobody is told makes no difference. */
  lemma NobodyIsTold(db: Db, after: Db, queue: string, name: EventName, payload: Payload, other: Payload)
    requires Tells(db, after, queue, name, payload, {}) && !Waiting(db, queue, name)
    ensures Tells(db, after, queue, name, other, {})
  {
    forall id ensures !Waits(db, id, queue, name) {
    }
  }

  lemma EmitIs(db: Db, older: set<string>, queue: string, name: string, text: string, seed: nat)
    requires Inv(db, older)
    ensures EmitDoes(db, queue, name, text, EmitEvent(db, queue, name, text, seed))
  {
    hide Tells, Manned, Numbered, Settled, NobodyStranded, Announced, Carried, Woken;
    var key := (queue, FromPort(name));
    var event := if key in db.events then db.events[key].(stamp := By(seed, "event")) else Event(Json(text), db.now, By(seed, "event"));
    var stored := Store(db, key, event);
    EmitStores(db, older, key, event);
    WakeIs(stored, queue, FromPort(name), seed);
    var after := EmitEvent(db, queue, name, text, seed);
    SameTelling(db, stored, after, queue, FromPort(name), event.payload);
    if key in db.events {
      NobodyWaitsForThePast(db, queue, FromPort(name));
      NobodyIsTold(db, after, queue, FromPort(name), event.payload, Json(text));
    }
  }

  lemma EmitStores(db: Db, older: set<string>, key: EventKey, event: Event)
    requires Inv(db, older) && !key.1.TaskDone? && (key !in db.events ==> event.emittedAt == db.now)
    ensures var stored := Store(db, key, event);
      && Fits(stored) && Mirrored(stored) && Wakeable(stored, {key})
      && (Waiting(stored, key.0, key.1) ==> event.emittedAt == db.now)
  {
    hide Manned, Numbered, Settled, NobodyStranded, Announced, Carried;
    StoreKeepsSound(db, key, event);
    if key in db.events {
      NobodyWaitsForThePast(db, key.0, key.1);
    }
    StoredIsWakeable(db, key, event);
  }

  lemma StoredIsWakeable(db: Db, key: EventKey, event: Event)
    requires Wakeable(db, {}) || Wakeable(db, {key})
    ensures Wakeable(Store(db, key, event), {key})
  {
  }

  /** What is told is said of rows the store did not touch. */
  lemma SameTelling(db: Db, stored: Db, after: Db, queue: string, name: EventName, payload: Payload)
    requires Tells(stored, after, queue, name, payload, {})
    requires stored == db.(events := stored.events)
    ensures Tells(db, after, queue, name, payload, {})
  {
    forall id ensures Waits(stored, id, queue, name) == Waits(db, id, queue, name) {
    }
    forall taskId ensures TaskWaits(stored, taskId, queue, name) == TaskWaits(db, taskId, queue, name) {
    }
  }

  // ------------------------------------------------------------------------------------------
  // Endings.

  lemma ClosedRows(db: Db, older: set<string>, taskId: string, live: string, ended: Task, how: Closing)
    requires Inv(db, older) && Ends(db, taskId, live, ended, how)
    requires how.state == ended.state && how.clearsWake == (how.state == Completed)
    ensures var closed := Ended(db, taskId, ended, how);
      && closed.now == db.now && closed.tasks.Keys == db.tasks.Keys && closed.runs.Keys == db.runs.Keys
      && closed.events == db.events && closed.tasks[taskId] == ended
      && (forall other :: other in db.tasks && other != taskId ==> closed.tasks[other] == db.tasks[other])
      && (forall id :: id in db.runs ==>
            if db.runs[id].taskId == taskId && db.runs[id].state.Live() then Over(db.runs[id], closed.runs[id], ended.state)
            else closed.runs[id] == db.runs[id])
      && closed.waits == map key | key in db.waits && db.waits[key].taskId != taskId :: db.waits[key]
  {
    hide Sound, NobodyStranded, Announced, Carried, StillAhead;
    forall key | key in db.waits ensures LiveRunOf(db, key.0, taskId) <==> db.waits[key].taskId == taskId {
      assert Sleeper(db.runs[key.0], key.1, db.waits[key]);
    }
  }

  /** The closed rows of one task, beside the rows of all the others. */
  ghost predicate ClosedBeside(db: Db, closed: Db, taskId: string) {
    && closed.now == db.now && closed.tasks.Keys == db.tasks.Keys && closed.runs.Keys == db.runs.Keys
    && (forall other :: other in db.tasks && other != taskId ==> closed.tasks[other] == db.tasks[other])
    && (forall id :: id in db.runs ==>
          closed.runs[id].taskId == db.runs[id].taskId && (db.runs[id].taskId != taskId ==> closed.runs[id] == db.runs[id]))
    && closed.waits == map key | key in db.waits && db.waits[key].taskId != taskId :: db.waits[key]
  }

  lemma WaitsBeside(db: Db, closed: Db, taskId: string, queue: string, name: EventName)
    requires Wakeable(db, {}) && ClosedBeside(db, closed, taskId)
    ensures forall id :: id in db.runs && db.runs[id].taskId != taskId ==> Waits(closed, id, queue, name) == Waits(db, id, queue, name)
    ensures forall id :: id in db.runs && db.runs[id].taskId == taskId ==> !Waits(closed, id, queue, name)
  {
    hide StillAhead;
    forall key | key in db.waits ensures db.runs[key.0].taskId == db.waits[key].taskId {
      assert Sleeper(db.runs[key.0], key.1, db.waits[key]);
    }
    forall id | id in db.runs && db.runs[id].taskId != taskId && Waits(db, id, queue, name) ensures Waits(closed, id, queue, name) {
      var key :| key in db.waits && key.0 == id && IsFor(db.waits[key], queue, name);
      assert key in closed.waits;
    }
  }

  lemma WaitsBesideAll(db: Db, older: set<string>, closed: Db, taskId: string, queue: string, name: EventName)
    requires Inv(db, older) && ClosedBeside(db, closed, taskId)
    ensures forall id :: id in db.runs && db.runs[id].taskId != taskId ==> Waits(closed, id, queue, name) == Waits(db, id, queue, name)
    ensures forall id :: id in db.runs && db.runs[id].taskId == taskId ==> !Waits(closed, id, queue, name)
  {
    hide Sound, Wakeable, NobodyStranded, Announced, Carried, Waits, ClosedBeside;
    WaitsBeside(db, closed, taskId, queue, name);
  }

  lemma TaskWaitsBeside(db: Db, closed: Db, taskId: string, queue: string, name: EventName)
    requires ClosedBeside(db, closed, taskId)
    ensures forall other :: other != taskId ==> TaskWaits(closed, other, queue, name) == TaskWaits(db, other, queue, name)
    ensures !TaskWaits(closed, taskId, queue, name)
  {
    forall other | other != taskId && TaskWaits(db, other, queue, name) ensures TaskWaits(closed, other, queue, name) {
      var key :| key in db.waits && db.waits[key].taskId == other && IsFor(db.waits[key], queue, name);
      assert key in closed.waits;
    }
  }

  lemma RunsBeside(db: Db, older: set<string>, closed: Db, after: Db, taskId: string, queue: string, payload: Payload, id: string)
    requires Inv(db, older) && Tells(closed, after, queue, TaskDone(taskId), payload, {}) && ClosedBeside(db, closed, taskId)
    requires id in db.runs
    ensures db.runs[id].taskId == taskId ==> Bare(after.runs[id]) == Bare(closed.runs[id])
    ensures db.runs[id].taskId != taskId ==> Bare(after.runs[id]) == Bare(
      if Waits(db, id, queue, TaskDone(taskId))
      then db.runs[id].(state := Pending, availableAt := Some(db.now), eventPayload := Some(payload)) else db.runs[id])
  {
    hide Inv, Waits, TaskWaits, BareTask, IsFor;
    WaitsBesideAll(db, older, closed, taskId, queue, TaskDone(taskId));
    assert id in closed.runs && closed.runs[id].taskId !in {};
  }

  lemma TasksBeside(db: Db, closed: Db, after: Db, taskId: string, queue: string, payload: Payload, other: string)
    requires Tells(closed, after, queue, TaskDone(taskId), payload, {}) && ClosedBeside(db, closed, taskId)
    requires other in db.tasks
    ensures other == taskId ==> BareTask(after.tasks[taskId]) == BareTask(closed.tasks[taskId])
    ensures other != taskId ==> BareTask(after.tasks[other]) == BareTask(
      if TaskWaits(db, other, queue, TaskDone(taskId)) then db.tasks[other].(state := Pending) else db.tasks[other])
  {
    hide Waits, TaskWaits, Bare, IsFor;
    TaskWaitsBeside(db, closed, taskId, queue, TaskDone(taskId));
    assert other !in {};
  }

  /** The waiters of other tasks are told over the closed rows as over the open ones, and the task's own rows stay closed. */
  lemma TellsBeside(db: Db, older: set<string>, closed: Db, after: Db, taskId: string, queue: string, payload: Payload)
    requires Inv(db, older) && Tells(closed, after, queue, TaskDone(taskId), payload, {}) && ClosedBeside(db, closed, taskId)
    ensures Tells(db, after, queue, TaskDone(taskId), payload, {taskId})
    ensures after.runs.Keys == db.runs.Keys && after.tasks.Keys == db.tasks.Keys
    ensures forall id :: id in db.runs && db.runs[id].taskId == taskId ==> Bare(after.runs[id]) == Bare(closed.runs[id])
    ensures taskId in db.tasks ==> BareTask(after.tasks[taskId]) == BareTask(closed.tasks[taskId])
  {
    hide Inv, Waits, TaskWaits, Bare, BareTask, IsFor;
    forall id | id in db.runs
      ensures db.runs[id].taskId == taskId ==> Bare(after.runs[id]) == Bare(closed.runs[id])
      ensures db.runs[id].taskId != taskId ==> Bare(after.runs[id]) == Bare(
        if Waits(db, id, queue, TaskDone(taskId))
        then db.runs[id].(state := Pending, availableAt := Some(db.now), eventPayload := Some(payload)) else db.runs[id])
    {
      RunsBeside(db, older, closed, after, taskId, queue, payload, id);
    }
    forall other | other in db.tasks
      ensures other == taskId ==> BareTask(after.tasks[taskId]) == BareTask(closed.tasks[taskId])
      ensures other != taskId ==> BareTask(after.tasks[other]) == BareTask(
        if TaskWaits(db, other, queue, TaskDone(taskId)) then db.tasks[other].(state := Pending) else db.tasks[other])
    {
      TasksBeside(db, closed, after, taskId, queue, payload, other);
    }
    WaitsLeft(db, closed, after, taskId, queue, payload);
  }

  lemma WaitsLeft(db: Db, closed: Db, after: Db, taskId: string, queue: string, payload: Payload)
    requires Tells(closed, after, queue, TaskDone(taskId), payload, {}) && ClosedBeside(db, closed, taskId)
    ensures after.waits == map key | key in db.waits && db.waits[key].taskId !in {taskId}
                                     && !IsFor(db.waits[key], queue, TaskDone(taskId)) :: db.waits[key]
  {
    hide Waits, TaskWaits, Bare, BareTask, IsFor;
  }

  /** Nobody waits for an ending that is recorded already. */
  lemma NobodyToTell(closed: Db, queue: string, name: EventName, payload: Payload)
    requires !Waiting(closed, queue, name)
    ensures Tells(closed, closed, queue, name, payload, {})
  {
    forall id ensures !Waits(closed, id, queue, name) && !TaskWaits(closed, id, queue, name) {
    }
    assert closed.waits == map key | key in closed.waits && !IsFor(closed.waits[key], queue, name) :: closed.waits[key];
  }

  lemma ClosedIsBeside(db: Db, older: set<string>, taskId: string, live: string, ended: Task, how: Closing)
    requires Inv(db, older) && Ends(db, taskId, live, ended, how)
    requires how.state == ended.state && how.clearsWake == (how.state == Completed)
    ensures var closed := Ended(db, taskId, ended, how);
      && ClosedBeside(db, closed, taskId) && closed.events == db.events
      && Fits(closed) && Mirrored(closed) && Wakeable(closed, {(ended.queue, TaskDone(taskId))})
      && ((ended.queue, TaskDone(taskId)) in db.events ==> !Waiting(closed, ended.queue, TaskDone(taskId)))
  {
    hide Inv, Fits, Mirrored, Ended, Wakeable, Waiting, IsFor, Ends;
    ClosedRows(db, older, taskId, live, ended, how);
    ClosedIsWakeable(db, older, taskId, live, ended, how);
    if (ended.queue, TaskDone(taskId)) in db.events {
      NobodyWaitsOver(db, older, ended.queue, TaskDone(taskId));
      FewerWait(db, Ended(db, taskId, ended, how), ended.queue, TaskDone(taskId));
    }
  }

  lemma NobodyWaitsOver(db: Db, older: set<string>, queue: string, name: EventName)
    requires Inv(db, older) && (queue, name) in db.events
    ensures !Waiting(db, queue, name)
  {
    hide Sound, Waiting, NobodyStranded, Announced, Carried;
    NobodyWaitsForThePast(db, queue, name);
  }

  lemma FewerWait(db: Db, closed: Db, queue: string, name: EventName)
    requires forall key :: key in closed.waits ==> key in db.waits && closed.waits[key] == db.waits[key]
    requires !Waiting(db, queue, name)
    ensures !Waiting(closed, queue, name)
  {
  }

  lemma ClosedIsWakeable(db: Db, older: set<string>, taskId: string, live: string, ended: Task, how: Closing)
    requires Inv(db, older) && Ends(db, taskId, live, ended, how)
    ensures var closed := Ended(db, taskId, ended, how);
      Fits(closed) && Mirrored(closed) && Wakeable(closed, {(ended.queue, TaskDone(taskId))})
  {
    hide Fits, Mirrored, Manned, Numbered, Settled, Ended, NobodyStranded, Announced, Carried, Wakeable, Ends;
    EndKeepsFit(db, taskId, live, ended, how);
    EndKeepsMirrored(db, taskId, live, ended, how);
    EndLeavesWaits(db, taskId, live, ended, how);
  }

  lemma EndTaskIsWake(db: Db, taskId: string, ended: Task, how: Closing, seed: nat)
    requires (ended.queue, TaskDone(taskId)) !in db.events
    ensures var key := (ended.queue, TaskDone(taskId));
      EndTask(db, taskId, ended, how, seed)
      == Wake(Store(Ended(db, taskId, ended, how), key, Event(Encoded(OutcomeOf(ended)), db.now, By(seed, "task-done"))),
              key.0, key.1, seed)
    ensures Ended(db, taskId, ended, how).now == db.now
  {
    hide Wake, Close;
  }

  lemma EndTaskTellsAll(db: Db, older: set<string>, taskId: string, live: string, ended: Task, how: Closing, seed: nat)
    requires Inv(db, older) && Ends(db, taskId, live, ended, how)
    requires how.state == ended.state && how.clearsWake == (how.state == Completed)
    ensures Tells(Ended(db, taskId, ended, how), EndTask(db, taskId, ended, how, seed), ended.queue, TaskDone(taskId),
                  Encoded(OutcomeOf(ended)), {})
  {
    hide Inv, Ends, Fits, Mirrored, Wakeable, Tells, Wake, CloseRuns, ClosedBeside, Waiting;
    ClosedIsBeside(db, older, taskId, live, ended, how);
    var closed := Ended(db, taskId, ended, how);
    var key := (ended.queue, TaskDone(taskId));
    var payload := Encoded(OutcomeOf(ended));
    if key in db.events {
      NobodyToTell(closed, key.0, key.1, payload);
    } else {
      var stored := Store(closed, key, Event(payload, db.now, By(seed, "task-done")));
      StoredSound(closed, key, Event(payload, db.now, By(seed, "task-done")));
      EndTaskIsWake(db, taskId, ended, how, seed);
      WakeIs(stored, key.0, key.1, seed);
      SameTelling(closed, stored, EndTask(db, taskId, ended, how, seed), key.0, key.1, payload);
    }
  }

  lemma StoredSound(db: Db, key: EventKey, event: Event)
    requires Fits(db) && Mirrored(db) && Wakeable(db, {key})
    ensures var stored := Store(db, key, event); Fits(stored) && Mirrored(stored) && Wakeable(stored, {key})
  {
    StoredIsWakeable(db, key, event);
    hide Wakeable;
    forall id, taskId ensures LiveRunOf(Store(db, key, event), id, taskId) == LiveRunOf(db, id, taskId) {
    }
  }

  lemma EndTaskHappens(db: Db, taskId: string, ended: Task, how: Closing, seed: nat)
    ensures Happens(db, EndTask(db, taskId, ended, how, seed), (ended.queue, TaskDone(taskId)), Encoded(OutcomeOf(ended)))
  {
    hide Woken, Close;
  }

  /** An ending by whatever batch, said of its rows. */
  lemma EndTaskIs(db: Db, older: set<string>, taskId: string, live: string, ended: Task, how: Closing, seed: nat)
    requires Inv(db, older) && Ends(db, taskId, live, ended, how)
    requires how.state == ended.state && how.clearsWake == (how.state == Completed)
    ensures Finishes(db, EndTask(db, taskId, ended, how, seed), taskId, ended, OutcomeOf(ended))
  {
    hide Inv, Ends, EndTask, Ended, Tells, Happens, ClosedBeside, Over, Bare, BareTask;
    var closed := Ended(db, taskId, ended, how);
    var after := EndTask(db, taskId, ended, how, seed);
    ClosedRows(db, older, taskId, live, ended, how);
    ClosedIsBeside(db, older, taskId, live, ended, how);
    EndTaskTellsAll(db, older, taskId, live, ended, how, seed);
    TellsBeside(db, older, closed, after, taskId, ended.queue, Encoded(OutcomeOf(ended)));
    EndTaskHappens(db, taskId, ended, how, seed);
    EndsInItsQueue(db, taskId, live, ended, how);
    forall id | id in db.runs && db.runs[id].taskId == taskId && db.runs[id].state.Live()
      ensures Over(db.runs[id], after.runs[id], ended.state)
    {
      OverIsBare(db.runs[id], closed.runs[id], after.runs[id], ended.state);
    }
  }

  lemma OverIsBare(run: Run, closed: Run, after: Run, state: State)
    requires Over(run, closed, state) && Bare(after) == Bare(closed)
    ensures Over(run, after, state)
  {
  }

  lemma EndsInItsQueue(db: Db, taskId: string, live: string, ended: Task, how: Closing)
    requires Ends(db, taskId, live, ended, how)
    ensures taskId in db.tasks && ended.queue == db.tasks[taskId].queue
  {
  }

  // ------------------------------------------------------------------------------------------
  // The ending steps, and the steps that may end a task.

  lemma FinishesBare(db: Db, after: Db, taskId: string, row: Task, bare: Task, outcome: Outcome)
    requires taskId in db.tasks && Finishes(db, after, taskId, row, outcome) && BareTask(row) == BareTask(bare)
    ensures Finishes(db, after, taskId, bare, outcome)
  {
    hide Tells, Happens, Over;
  }

  lemma CompleteIs(db: Db, older: set<string>, queue: string, id: string, token: string, result: string, seed: nat)
    requires Inv(db, older)
    ensures CompleteDoes(db, queue, id, token, result, Complete(db, queue, id, token, result, seed))
  {
    hide Awaited, Manned, Settled, Current, EndTask, Finishes;
    HoldsIsClaimed(db, older, queue, id, token);
    if Holds(db, queue, id, token) && db.tasks[db.runs[id].taskId].saga.None? {
      var taskId := db.runs[id].taskId;
      var ended := db.tasks[taskId].(state := Completed, result := Some(result), cancelAt := None, stamp := By(seed, "task"));
      LiveRunIsTop(db, id);
      EndTaskIs(db, older, taskId, id, ended, Closing(Completed, true, true, By(seed, "complete")), seed);
      FinishesBare(db, EndTask(db, taskId, ended, Closing(Completed, true, true, By(seed, "complete")), seed), taskId, ended,
                   db.tasks[taskId].(state := Completed, result := Some(result), cancelAt := None), OutcomeOf(ended));
    }
  }

  lemma CancelIs(db: Db, older: set<string>, queue: string, taskId: string, deadlineOnly: bool, unlessSaga: bool, seed: nat)
    requires Inv(db, older)
    ensures CancelDoes(db, queue, taskId, deadlineOnly, unlessSaga, Cancel(db, queue, taskId, deadlineOnly, unlessSaga, seed))
  {
    hide Awaited, Settled, EndTask, Finishes, OwnsEveryRun;
    if taskId in db.tasks {
      OwnsAll(db, taskId);
    }
    if CancelAdmits(db, queue, taskId, deadlineOnly, unlessSaga) {
      var live :| LiveRunOf(db, live, taskId);
      LiveRunIsTop(db, live);
      var ended := CancelledTask(db.tasks[taskId], By(seed, "cancel"));
      EndTaskIs(db, older, taskId, live, ended, Closing(Cancelled, false, true, By(seed, "runs")), seed);
      FinishesBare(db, EndTask(db, taskId, ended, Closing(Cancelled, false, true, By(seed, "runs")), seed), taskId, ended,
                   ended.(stamp := db.tasks[taskId].stamp), OutcomeOf(ended));
    }
  }

  lemma SucceedIs(db: Db, older: set<string>, id: string, next: Task, how: Closing, nextId: string, due: int, stamp: Stamp)
    requires Inv(db, older) && id in db.runs && db.runs[id].state == Running && nextId !in db.runs
    requires how.state == Failed && !how.clearsWake
    ensures TriedAgain(db, Succeed(db, db.runs[id].taskId, next, how, nextId, Successor(db.runs[id], next.state, due, stamp)),
                       id, nextId, due, next)
  {
    hide Inv, Succeed;
    Charges(db, older, id);
    CapCrossings.SucceedIs(db, older, id, next, how, nextId, Successor(db.runs[id], next.state, due, stamp));
    NoWaitOfRunning(db, older, id);
    forall key | key in db.waits ensures !LiveRunOf(db, key.0, db.runs[id].taskId) {
      SiblingsAreOver(db, older, id, key.0);
    }
    SucceedLeaves(db, db.runs[id].taskId, next, how, nextId, Successor(db.runs[id], next.state, due, stamp));
  }

  lemma SucceedLeaves(db: Db, taskId: string, next: Task, how: Closing, nextId: string, successor: Run)
    requires forall key :: key in db.waits ==> !LiveRunOf(db, key.0, taskId)
    ensures Succeed(db, taskId, next, how, nextId, successor).waits == db.waits
  {
  }

  lemma SiblingsAreOver(db: Db, older: set<string>, id: string, other: string)
    requires Inv(db, older) && id in db.runs && db.runs[id].state == Running && other != id
    ensures !LiveRunOf(db, other, db.runs[id].taskId)
  {
    hide Awaited, Manned, Numbered, Settled;
    if LiveRunOf(db, other, db.runs[id].taskId) {
      OnlyLiveRun(db, id, other);
      assert false;
    }
  }

  lemma TriedAgainBare(db: Db, after: Db, id: string, nextId: string, due: int, task: Task, bare: Task)
    requires id in db.runs && TriedAgain(db, after, id, nextId, due, task) && BareTask(task) == BareTask(bare)
    ensures TriedAgain(db, after, id, nextId, due, bare)
  {
    hide Only, Over;
  }

  /** What a task's books are when its run gives up, whatever the batch. */
  lemma Charges(db: Db, older: set<string>, id: string)
    requires Inv(db, older) && id in db.runs && db.runs[id].state == Running
    ensures Owns(db, db.runs[id])
    ensures UserAttempts(db.runs[id], db.tasks[db.runs[id].taskId]) == db.tasks[db.runs[id].taskId].attempts + 1
    ensures db.runs[id].attempt - db.tasks[db.runs[id].taskId].attempts == db.tasks[db.runs[id].taskId].infraRetries + 1
    ensures db.tasks[db.runs[id].taskId].infraRetries <= INFRA_RETRY_CAP && db.runs[id].relaunches <= RELAUNCH_CAP
  {
    hide Awaited, Manned, Settled;
    LiveRunIsTop(db, id);
  }

  lemma FailedTaskIs(db: Db, older: set<string>, id: string, charged: nat, reason: string, stamp: Stamp, how: Closing, seed: nat)
    requires Inv(db, older) && id in db.runs && db.runs[id].state == Running && Owns(db, db.runs[id])
    requires how.state == Failed && !how.clearsWake && charged <= 1
    ensures var taskId := db.runs[id].taskId;
      var task := db.tasks[taskId];
      Finishes(db, EndTask(db, taskId, task.(attempts := task.attempts + charged, state := Failed, reason := Some(reason),
                                             stamp := stamp), how, seed), taskId,
               task.(state := Failed, attempts := task.attempts + charged, reason := Some(reason)),
               Outcome(Failed, None, Some(reason)))
  {
    hide Awaited, Manned, Settled, EndTask, Finishes;
    var taskId := db.runs[id].taskId;
    var task := db.tasks[taskId];
    LiveRunIsTop(db, id);
    var ended := task.(attempts := task.attempts + charged, state := Failed, reason := Some(reason), stamp := stamp);
    EndTaskIs(db, older, taskId, id, ended, how, seed);
    FinishesBare(db, EndTask(db, taskId, ended, how, seed), taskId, ended, ended.(stamp := task.stamp), OutcomeOf(ended));
  }

  lemma AtCapIs(db: Db, older: set<string>, id: string, passId: string, reason: string, how: Closing, terminal: Stamp, seed: nat)
    requires Inv(db, older) && id in db.runs && db.runs[id].state == Running && passId !in db.runs && Owns(db, db.runs[id])
    requires how.state == Failed && !how.clearsWake
    ensures GivesUp(db, AtCap(db, id, passId, reason, how, terminal, seed), id, passId, reason, 0)
  {
    hide Inv, Succeed, EndTask, Finishes, TriedAgain, Successor;
    Charges(db, older, id);
    var run := db.runs[id];
    var task := db.tasks[run.taskId];
    if EntersSaga(task) {
      var next := RollingBack(task.(saga := Some(reason)), run, Pending, seed);
      SucceedIs(db, older, id, next, how, passId, db.now, By(seed, "rollback-pass"));
      TriedAgainBare(db, AtCap(db, id, passId, reason, how, terminal, seed), id, passId, db.now, next, next.(stamp := task.stamp));
    } else {
      FailedTaskIs(db, older, id, 0, reason, terminal, how, seed);
    }
  }

  lemma LaunchSweepIs(db: Db, older: set<string>, queue: string, id: string, gen: nat, passId: string, seed: nat)
    requires Inv(db, older)
    ensures LaunchSweepDoes(db, queue, id, gen, passId, SweepLostLaunch(db, queue, id, gen, passId, seed))
  {
    hide Inv, Swept, AtCap, GivesUp;
    RanOutIsSwept(db, older, queue, id, gen);
    if RanOut(db, queue, id, gen) {
      Charges(db, older, id);
      if db.runs[id].activatedGen < gen && passId !in db.runs && db.runs[id].relaunches >= 5 {
        AtCapIs(db, older, id, passId, REASON_RELAUNCH_CAP, Closing(Failed, false, true, By(seed, "cap")),
                By(seed, "task-fail"), seed);
      }
    }
  }

  lemma TimeoutRetriesIs(db: Db, older: set<string>, id: string, nextId: string, how: Closing, seed: nat)
    requires Inv(db, older) && id in db.runs && db.runs[id].state == Running && nextId !in db.runs
    requires Owns(db, db.runs[id]) && Accounted(db.runs[id], db.tasks[db.runs[id].taskId])
    requires how.state == Failed && !how.clearsWake
    ensures var task := db.tasks[db.runs[id].taskId];
      TriedAgain(db, TimeoutRetries(db, id, nextId, how, seed), id, nextId, db.now + 5_000,
                 task.(state := Pending, infraRetries := task.infraRetries + 1))
  {
    hide Inv, Succeed, TriedAgain, Successor, TimeoutRetries;
    var next, successor := TimeoutRetriesWrites(db, id, nextId, how, seed);
    SucceedIs(db, older, id, next, how, nextId, db.now + INFRA_BACKOFF_MS, By(seed, "successor"));
    TriedAgainBare(db, TimeoutRetries(db, id, nextId, how, seed), id, nextId, db.now + 5_000, next,
                   next.(stamp := db.tasks[db.runs[id].taskId].stamp));
  }

  lemma ClaimSweepIs(db: Db, older: set<string>, queue: string, id: string, gen: nat, nextId: string, seed: nat)
    requires Inv(db, older)
    ensures ClaimSweepDoes(db, queue, id, gen, nextId, SweepClaimTimeout(db, queue, id, gen, nextId, seed))
  {
    hide Inv, AtCap, GivesUp, TimeoutRetries, TriedAgain;
    RanOutIsSwept(db, older, queue, id, gen);
    if RanOut(db, queue, id, gen) && db.runs[id].activatedGen == gen && nextId !in db.runs {
      Charges(db, older, id);
      var how := Closing(Failed, false, false, By(seed, "fail"));
      if db.tasks[db.runs[id].taskId].infraRetries < 20 {
        TimeoutRetriesIs(db, older, id, nextId, how, seed);
      } else {
        AtCapIs(db, older, id, nextId, REASON_INFRA_CAP, how, By(seed, "task-terminal"), seed);
      }
    }
  }

  lemma FailRetriesIs(db: Db, older: set<string>, f: Failure, seed: nat)
    requires Inv(db, older) && f.runId in db.runs && db.runs[f.runId].state == Running && f.nextId !in db.runs
    requires Owns(db, db.runs[f.runId]) && f.retryMs.Some?
    ensures var task := db.tasks[db.runs[f.runId].taskId];
      TriedAgain(db, FailRetries(db, f, seed), f.runId, f.nextId, db.now + f.retryMs.value,
                 task.(state := if f.retryMs.value == 0 then Pending else Sleeping, attempts := task.attempts + 1))
  {
    hide Inv, Succeed, TriedAgain, Successor, FailRetries;
    Charges(db, older, f.runId);
    var next, successor := FailRetriesWrites(db, f, seed);
    SucceedIs(db, older, f.runId, next, FailClosing(seed), f.nextId, db.now + FailDelay(f), By(seed, "successor"));
    TriedAgainBare(db, FailRetries(db, f, seed), f.runId, f.nextId, db.now + f.retryMs.value, next,
                   next.(stamp := db.tasks[db.runs[f.runId].taskId].stamp));
  }

  lemma FailRollsBackIs(db: Db, older: set<string>, f: Failure, enters: bool, seed: nat)
    requires Inv(db, older) && f.runId in db.runs && db.runs[f.runId].state == Running && f.nextId !in db.runs
    requires Owns(db, db.runs[f.runId])
    ensures var task := db.tasks[db.runs[f.runId].taskId];
      var delay := if enters || f.retryMs.None? then 0 else f.retryMs.value;
      TriedAgain(db, FailRollsBack(db, f, enters, seed), f.runId, f.nextId, db.now + delay,
                 task.(state := if delay == 0 then Pending else Sleeping, attempts := task.attempts + 1,
                       maxAttempts := task.attempts + 2, saga := if enters then Some(f.reason) else task.saga))
  {
    hide Inv, Succeed, TriedAgain, Successor, FailRollsBack;
    Charges(db, older, f.runId);
    var saga, state, due := FailRollsBackWrites(db, f, enters, seed);
    var run := db.runs[f.runId];
    var next := RollingBack(db.tasks[run.taskId].(saga := saga), run, state, seed);
    SucceedIs(db, older, f.runId, next, FailClosing(seed), f.nextId, due, By(seed, "rollback-pass"));
    TriedAgainBare(db, FailRollsBack(db, f, enters, seed), f.runId, f.nextId, due, next, next.(stamp := db.tasks[run.taskId].stamp));
  }

  lemma FailEndsIs(db: Db, older: set<string>, f: Failure, seed: nat)
    requires Inv(db, older) && f.runId in db.runs && db.runs[f.runId].state == Running && Owns(db, db.runs[f.runId])
    ensures var taskId := db.runs[f.runId].taskId;
      var task := db.tasks[taskId];
      Finishes(db, FailEnds(db, f, seed), taskId,
               task.(state := Failed, attempts := task.attempts + 1, reason := Some(f.reason)),
               Outcome(Failed, None, Some(f.reason)))
  {
    hide Inv, EndTask, Finishes;
    Charges(db, older, f.runId);
    FailedTaskIs(db, older, f.runId, 1, f.reason, By(seed, if f.retryMs.Some? && !f.rollback then "task-terminal" else "task"),
                 FailClosing(seed), seed);
  }

  lemma FailIs(db: Db, older: set<string>, f: Failure, seed: nat)
    requires Inv(db, older)
    ensures FailDoes(db, f, Fail(db, f, seed))
  {
    hide Inv, Current, TriedAgain, Finishes, FailRetries, FailRollsBack, FailEnds;
    HoldsIsClaimed(db, older, f.queue, f.runId, f.token);
    if FailAdmits(db, f) {
      Charges(db, older, f.runId);
      var task := db.tasks[db.runs[f.runId].taskId];
      match AfterFailure(task, db.runs[f.runId], f)
      case Retries => FailRetriesIs(db, older, f, seed);
      case RollsBack(enters) => FailRollsBackIs(db, older, f, enters, seed);
      case EndsTask => FailEndsIs(db, older, f, seed);
    }
  }

  lemma OlderIs(db: Db, older: set<string>, taskId: string, state: State, text: string, seed: nat)
    requires Inv(db, older)
    ensures OlderDoes(db, taskId, state, text, OlderBuildEnds(db, taskId, state, text, seed))
  {
    hide Inv, OwnsEveryRun, OlderBuildEnds;
    if taskId in db.tasks {
      OwnsAllOf(db, older, taskId);
    }
    if OlderBuildMayEnd(db, taskId) && !state.Live() {
      OlderEndingIs(db, older, taskId, state, text, seed);
    } else {
      OlderRefused(db, taskId, state, text, seed);
    }
  }

  lemma OwnsAllOf(db: Db, older: set<string>, taskId: string)
    requires Inv(db, older) && taskId in db.tasks
    ensures OwnsEveryRun(db, taskId)
  {
    OwnsAll(db, taskId);
  }

  lemma LiveRunExists(db: Db, older: set<string>, taskId: string) returns (live: string)
    requires Inv(db, older) && taskId in db.tasks && db.tasks[taskId].state.Live()
    ensures LiveRunOf(db, live, taskId)
  {
    hide Awaited, Numbered, Settled, Mirrored, Fits;
    live :| LiveRunOf(db, live, taskId);
  }

  lemma OlderEndingIs(db: Db, older: set<string>, taskId: string, state: State, text: string, seed: nat)
    requires Inv(db, older) && OlderBuildMayEnd(db, taskId) && !state.Live()
    ensures OlderDoes(db, taskId, state, text, OlderBuildEnds(db, taskId, state, text, seed))
  {
    hide Inv, Ends, Ended, OwnsEveryRun, OlderBuildEnds, Over, BareTask;
    var live := LiveRunExists(db, older, taskId);
    OlderBuildIsEnding(db, older, taskId, live, state, text, seed);
    OlderRowIs(db, taskId, state, text, seed);
    ClosedRows(db, older, taskId, live, OlderBuildEnds(db, taskId, state, text, seed).tasks[taskId],
               Closing(state, state == Completed, true, By(seed, "runs")));
  }

  lemma OlderRefused(db: Db, taskId: string, state: State, text: string, seed: nat)
    requires !(OlderBuildMayEnd(db, taskId) && !state.Live())
    ensures OlderBuildEnds(db, taskId, state, text, seed) == db
  {
  }

  lemma OlderRowIs(db: Db, taskId: string, state: State, text: string, seed: nat)
    requires OlderBuildMayEnd(db, taskId) && !state.Live()
    ensures var after := OlderBuildEnds(db, taskId, state, text, seed);
      var task := db.tasks[taskId];
      && taskId in after.tasks && after.tasks[taskId].state == state
      && BareTask(after.tasks[taskId]) == BareTask(
           if state == Completed then task.(state := Completed, result := Some(text), cancelAt := None)
           else if state == Failed then task.(state := Failed, reason := Some(text))
           else task.(state := Cancelled, cancelAt := None, reason := Some("{\"name\":\"$Cancelled\"}")))
  {
    hide CloseRuns;
  }

  lemma ReadIsRight(w: World, read: Read)
    requires StampsAreSpent(w) && read in w.seen
    ensures read.child in w.db.tasks && ReadRight(w.db, read.child, read.stamp, read.outcome)
  {
  }

  lemma RecordWrites(db: Db, a: Await, child: string, stamp: Stamp, outcome: Outcome, seed: nat)
    requires RecordAdmits(db, a, child, stamp)
    ensures var after := RecordTaskDone(db, a, child, stamp, outcome, seed);
      && Only(db, after, {}, {}) && after.waits == db.waits
      && Happens(db, after, (db.tasks[child].queue, TaskDone(child)), Encoded(outcome))
  {
  }

  lemma RecordIs(w: World, a: Await, read: Read)
    requires Inv(w.db, w.older) && StampsAreSpent(w)
    ensures RecordDoes(w, a, read, Apply(w, Records(a, read)))
  {
    hide Inv, Current, StampsAreSpent, Only, Happens;
    HoldsIsClaimed(w.db, w.older, a.queue, a.runId, a.token);
    if read in w.seen {
      ReadIsRight(w, read);
    }
    if RecordAdmits(w.db, a, read.child, read.stamp) {
      RecordWrites(w.db, a, read.child, read.stamp, read.outcome, w.seed);
    }
  }

  // ------------------------------------------------------------------------------------------
  // Every step of every history.

  lemma EndingIs(w: World, step: Step)
    requires Inv(w.db, w.older)
    requires step.Completes? || step.Fails? || step.SweepsLaunch? || step.SweepsClaim? || step.Cancels? || step.OlderBuild?
    ensures Does(w, step, Apply(w, step))
  {
    hide Inv, Complete, Fail, SweepLostLaunch, SweepClaimTimeout, Cancel, OlderBuildEnds;
    hide CompleteDoes, FailDoes, LaunchSweepDoes, ClaimSweepDoes, CancelDoes, OlderDoes;
    match step
    case Completes(queue, id, token, result) => CompleteIs(w.db, w.older, queue, id, token, result, w.seed);
    case Fails(f) => FailIs(w.db, w.older, f, w.seed);
    case SweepsLaunch(queue, id, gen, passId) => LaunchSweepIs(w.db, w.older, queue, id, gen, passId, w.seed);
    case SweepsClaim(queue, id, gen, nextId) => ClaimSweepIs(w.db, w.older, queue, id, gen, nextId, w.seed);
    case Cancels(queue, taskId, deadlineOnly, unlessSaga) =>
      CancelIs(w.db, w.older, queue, taskId, deadlineOnly, unlessSaga, w.seed);
    case OlderBuild(taskId, state, text) => OlderIs(w.db, w.older, taskId, state, text, w.seed);
  }

  lemma ClaimStepIs(w: World, step: Step)
    requires Inv(w.db, w.older)
    requires step.Activates? || step.Heartbeats? || step.Expires? || step.Checkpoints? || step.Suspends? || step.Defers?
    ensures Does(w, step, Apply(w, step))
  {
    hide Inv, Activate, Heartbeat, ExpireLeaseNow, SetCheckpoint, Suspend, DeferLaunch;
    hide ActivateDoes, HeartbeatDoes, ExpireDoes, CheckpointDoes, SuspendDoes, DeferDoes;
    match step
    case Activates(queue, id, token, gen) => ActivateIs(w.db, w.older, queue, id, token, gen, w.seed);
    case Heartbeats(queue, id, token, extendMs) => HeartbeatIs(w.db, w.older, queue, id, token, extendMs, w.seed);
    case Expires(queue, id, token) => ExpireIs(w.db, w.older, queue, id, token);
    case Checkpoints(queue, id, token, extendMs, owed) => CheckpointIs(w.db, w.older, queue, id, token, extendMs, owed, w.seed);
    case Suspends(queue, id, token, wakeAt, marker) => SuspendIs(w.db, w.older, queue, id, token, wakeAt, marker, w.seed);
    case Defers(queue, id, token, gen, wakeAt) => DeferIs(w.db, w.older, queue, id, token, gen, wakeAt, w.seed);
  }

  lemma OtherStepIs(w: World, step: Step)
    requires Inv(w.db, w.older) && StampsAreSpent(w)
    requires step.Tick? || step.Reads? || step.Spawns? || step.Claims? || step.Revives? || step.Emits? || step.Awaits? || step.Records?
    ensures Does(w, step, Apply(w, step))
  {
    hide Inv, Spawn, Claim, RetryTask, EmitEvent, AwaitEvent, RecordTaskDone, StampsAreSpent;
    hide SpawnDoes, ClaimDoes, ReviveDoes, EmitDoes, AwaitDoes, RecordDoes;
    match step
    case Tick(_) =>
    case Reads(_) =>
    case Spawns(s) => SpawnIs(w.db, w.older, s, w.seed);
    case Claims(queue, token, leaseMs, limit, picked) => ClaimIs(w.db, w.older, queue, token, leaseMs, limit, picked, w.seed);
    case Revives(queue, taskId, top, runId) => ReviveIs(w.db, w.older, queue, taskId, top, runId, w.seed);
    case Emits(queue, name, text) => EmitIs(w.db, w.older, queue, name, text, w.seed);
    case Awaits(a, event, timeoutMs) => AwaitIs(w.db, w.older, a, event, timeoutMs, w.seed);
    case Records(a, read) => RecordIs(w, a, read);
  }

  lemma StepIs(w: World, step: Step)
    requires WorldInv(w)
    ensures Does(w, step, Next(w, step).db)
  {
    hide Inv, StampsAreSpent, ClaimsBounded, Does, Apply;
    match step
    case Completes(_, _, _, _) => EndingIs(w, step);
    case Fails(_) => EndingIs(w, step);
    case SweepsLaunch(_, _, _, _) => EndingIs(w, step);
    case SweepsClaim(_, _, _, _) => EndingIs(w, step);
    case Cancels(_, _, _, _) => EndingIs(w, step);
    case OlderBuild(_, _, _) => EndingIs(w, step);
    case Activates(_, _, _, _) => ClaimStepIs(w, step);
    case Heartbeats(_, _, _, _) => ClaimStepIs(w, step);
    case Expires(_, _, _) => ClaimStepIs(w, step);
    case Checkpoints(_, _, _, _, _) => ClaimStepIs(w, step);
    case Suspends(_, _, _, _, _) => ClaimStepIs(w, step);
    case Defers(_, _, _, _, _) => ClaimStepIs(w, step);
    case _ => OtherStepIs(w, step);
  }

  /**
   * After any history, a step acts exactly when its guard says, and writes exactly the rows said:
   * whatever else its batch asks of the rows, the rows always meet.
   */
  lemma EveryStepIsExact(now: int, steps: seq<Step>, step: Step)
    ensures Does(After(Empty(now), steps), step, Next(After(Empty(now), steps), step).db)
  {
    hide *;
    ReachableIsSound(now, steps);
    StepIs(After(Empty(now), steps), step);
  }

  /**
   * A completion stores what it was given: the task's result, its event if that is new, and the
   * payload of every other task's run that waited are this result and no other.
   */
  lemma CompletionStoresItsResult(now: int, steps: seq<Step>, queue: string, id: string, token: string, result: string)
    requires var db := After(Empty(now), steps).db;
      CompleteAdmits(db, queue, id, token)
    ensures var w := After(Empty(now), steps);
      var db, after := w.db, Next(w, Completes(queue, id, token, result)).db;
      var taskId := db.runs[id].taskId;
      var told := Encoded(Outcome(Completed, Some(result), None));
      && taskId in after.tasks && after.tasks[taskId].state == Completed
      && after.tasks[taskId].result == Some(result) && after.tasks[taskId].reason.None?
      && (queue, TaskDone(taskId)) in after.events
      && ((queue, TaskDone(taskId)) !in db.events ==> after.events[(queue, TaskDone(taskId))].payload == told)
      && (forall key :: key in db.waits && db.waits[key].event == TaskDone(taskId) && db.waits[key].taskId != taskId ==>
            && key.0 in after.runs && after.runs[key.0].state == Pending && after.runs[key.0].eventPayload == Some(told)
            && key !in after.waits)
  {
    hide Inv, StampsAreSpent, ClaimsBounded, Complete, Current, Finishes;
    var w := After(Empty(now), steps);
    ReachableIsSound(now, steps);
    CompleteIs(w.db, w.older, queue, id, token, result, w.seed);
    HoldsIsClaimed(w.db, w.older, queue, id, token);
    var taskId := w.db.runs[id].taskId;
    WaitersAreKnown(w.db, w.older, taskId);
    FinishesTells(w.db, Next(w, Completes(queue, id, token, result)).db, taskId,
                  w.db.tasks[taskId].(state := Completed, result := Some(result), cancelAt := None),
                  Outcome(Completed, Some(result), None));
    OutcomeIsEmpty(w.db, w.older, taskId);
  }

  lemma OutcomeIsEmpty(db: Db, older: set<string>, taskId: string)
    requires Inv(db, older) && taskId in db.tasks && db.tasks[taskId].state.Live()
    ensures db.tasks[taskId].result.None? && db.tasks[taskId].reason.None?
  {
    hide Awaited, Manned, Numbered, Settled, Mirrored;
  }

  lemma FinishesTells(db: Db, after: Db, taskId: string, row: Task, outcome: Outcome)
    requires taskId in db.tasks && Finishes(db, after, taskId, row, outcome)
    requires forall key :: key in db.waits && db.waits[key].event == TaskDone(taskId) ==>
      && key.0 in db.runs && db.runs[key.0].taskId == db.waits[key].taskId
      && IsFor(db.waits[key], db.tasks[taskId].queue, TaskDone(taskId))
    ensures taskId in after.tasks && BareTask(after.tasks[taskId]) == BareTask(row)
    ensures Happens(db, after, (db.tasks[taskId].queue, TaskDone(taskId)), Encoded(outcome))
    ensures forall key :: key in db.waits && db.waits[key].event == TaskDone(taskId) && db.waits[key].taskId != taskId ==>
      && key.0 in after.runs && after.runs[key.0].state == Pending && after.runs[key.0].eventPayload == Some(Encoded(outcome))
      && key !in after.waits
  {
    hide Happens, Over;
    forall key | key in db.waits && db.waits[key].event == TaskDone(taskId) && db.waits[key].taskId != taskId
      ensures Waits(db, key.0, db.tasks[taskId].queue, TaskDone(taskId))
    {
    }
    assert forall key :: key in db.waits && db.waits[key].event == TaskDone(taskId) && db.waits[key].taskId != taskId ==>
      Bare(after.runs[key.0]).eventPayload == Some(Encoded(outcome)) && Bare(after.runs[key.0]).state == Pending;
  }

  lemma WaitersAreKnown(db: Db, older: set<string>, taskId: string)
    requires Inv(db, older) && taskId in db.tasks
    ensures forall key :: key in db.waits && db.waits[key].event == TaskDone(taskId) ==>
      && key.0 in db.runs && db.runs[key.0].taskId == db.waits[key].taskId
      && IsFor(db.waits[key], db.tasks[taskId].queue, TaskDone(taskId))
  {
    hide Sound, NobodyStranded, Announced, Carried;
    forall key | key in db.waits && db.waits[key].event == TaskDone(taskId)
      ensures key.0 in db.runs && db.runs[key.0].taskId == db.waits[key].taskId
      ensures IsFor(db.waits[key], db.tasks[taskId].queue, TaskDone(taskId))
    {
      assert Sleeper(db.runs[key.0], key.1, db.waits[key]) && StillAhead(db, db.waits[key]);
    }
  }
}

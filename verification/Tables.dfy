/** The engine's tables as one value: what every batch reads and writes. */
module Tables {
  import opened Options

  const RELAUNCH_CAP: nat := 5
  const INFRA_RETRY_CAP: nat := 20
  const INFRA_BACKOFF_MS: int := 5_000
  const REASON_RELAUNCH_CAP: string := "{\"name\":\"$RelaunchCapExhausted\"}"
  const REASON_INFRA_CAP: string := "{\"name\":\"$InfraRetriesExhausted\"}"
  const REASON_CANCELLED: string := "{\"name\":\"$Cancelled\"}"

  datatype State = Pending | Running | Sleeping | Completed | Failed | Cancelled {
    /** The three live states. The other three are terminal. */
    predicate Live() { Pending? || Running? || Sleeping? }
  }

  /** An event a caller named, or the completion event of a task. No caller can spell the second. */
  datatype EventName = FromPort(name: string) | TaskDone(taskId: string)

  /** How a task ended. */
  datatype Outcome = Outcome(state: State, result: Option<string>, reason: Option<string>)

  /** What an event stores: a caller's text, or an encoded outcome. */
  datatype Payload = Json(text: string) | Encoded(outcome: Outcome)

  /** An outcome `encodeTaskOutcome` could have written: a result if it completed, a reason if it did not. */
  predicate Decodes(payload: Payload) {
    && payload.Encoded? && !payload.outcome.state.Live()
    && (payload.outcome.state == Completed ==> payload.outcome.result.Some? && payload.outcome.reason.None?)
    && (payload.outcome.state != Completed ==> payload.outcome.result.None? && payload.outcome.reason.Some?)
  }

  /** Which statement of which invocation last wrote a row. */
  datatype Stamp = Unstamped | By(seed: nat, statement: string)

  datatype Task = Task(
    queue: string, key: Option<string>, state: State,
    attempts: nat, maxAttempts: nat, infraRetries: nat,
    cancelAt: Option<int>, maxDurationMs: Option<nat>, firstStartedAt: Option<int>,
    result: Option<string>, reason: Option<string>,
    rollbackOwed: bool, saga: Option<string>, stamp: Stamp)

  datatype Run = Run(
    taskId: string, queue: string, attempt: nat, state: State, availableAt: Option<int>,
    wakeEvent: Option<EventName>, wakeStep: Option<string>, eventPayload: Option<Payload>,
    claimedBy: Option<string>, claimGen: nat, activatedGen: nat, relaunches: nat,
    leaseMs: nat, expiresAt: Option<int>, stamp: Stamp)

  datatype Wait = Wait(queue: string, taskId: string, event: EventName, timeoutAt: Option<int>, stamp: Stamp)

  datatype Event = Event(payload: Payload, emittedAt: int, stamp: Stamp)

  type WaitKey = (string, string)
  type EventKey = (string, EventName)

  /** Waits are keyed by run and step, and events by queue and name. */
  datatype Db = Db(now: int, tasks: map<string, Task>, runs: map<string, Run>,
                   waits: map<WaitKey, Wait>, events: map<EventKey, Event>)

  function OutcomeOf(task: Task): Outcome {
    Outcome(task.state, task.result, task.reason)
  }

  predicate CancelDue(task: Task, now: int) {
    task.cancelAt.Some? && task.cancelAt.value <= now
  }

  /** Live, and no cancellation deadline is due. */
  predicate Eligible(task: Task, now: int) {
    task.state.Live() && !CancelDue(task, now)
  }

  /** The run is live and its task owns it. */
  predicate LiveRunOf(db: Db, id: string, taskId: string) {
    id in db.runs && db.runs[id].taskId == taskId && db.runs[id].state.Live()
  }

  predicate Owns(db: Db, run: Run) {
    run.taskId in db.tasks && db.tasks[run.taskId].queue == run.queue
  }

  /** No other run of the same task is live. */
  predicate SoleLive(db: Db, id: string)
    requires id in db.runs
  {
    forall other :: other in db.runs && LiveRunOf(db, other, db.runs[id].taskId) ==> other == id
  }

  /** The ordinal of a live run is its task's attempts and infrastructure retries, plus one. */
  predicate Accounted(run: Run, task: Task) {
    task.attempts < task.maxAttempts && run.attempt == task.attempts + task.infraRetries + 1
  }

  predicate HighestOrdinal(db: Db, id: string)
    requires id in db.runs
  {
    forall other :: other in db.runs && db.runs[other].taskId == db.runs[id].taskId
      ==> db.runs[other].attempt <= db.runs[id].attempt
  }

  /** What the claim, the receipt and the failure batches all ask of the run they act on. */
  predicate Current(db: Db, id: string) {
    && id in db.runs
    && Owns(db, db.runs[id])
    && SoleLive(db, id)
    && Accounted(db.runs[id], db.tasks[db.runs[id].taskId])
    && HighestOrdinal(db, id)
  }

  /** The run is still running under the caller's token, in the caller's queue. */
  predicate Claimed(db: Db, queue: string, id: string, token: string) {
    && id in db.runs
    && db.runs[id].queue == queue
    && db.runs[id].state == Running
    && db.runs[id].claimedBy == Some(token)
    && Owns(db, db.runs[id])
  }

  predicate Expired(run: Run, now: int) {
    run.expiresAt.Some? && run.expiresAt.value <= now
  }
}

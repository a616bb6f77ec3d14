# Verified model of durablerun

A Dafny model of five cores of the durable-execution engine and of the tools around it, with
proofs of what they promise. `dafny verify dfyconfig.toml` checks all of it.

**The engine protocol** (`Tables`, `Protocol*`, `CapCrossings`, `Completion*`). The tables are
a value of tasks, runs, waits and events. Every labelled batch is one atomic step over them
(`Protocol`), a history is any list of steps by any callers (`ProtocolHistory`), and the
theorems hold of every history from an empty database: a crash before a batch is a step that
never comes, a crash after it a caller that says no more, a zombie a caller whose token the
rows no longer hold, and an older build a step that ends a task and records nothing.
`ProtocolEffects` says of each step, by the rows alone and by no guard or helper of the batches,
when it acts and every row it leaves; `ProtocolExact` proves that of every step of every
history; and `ProtocolTiming` says what the instants a step writes mean to the steps after it.

**Delivery** (`Statements`, `Batches`, `FailBatch`, `SagaPass`, `Sweeps`, `OtherBatches`,
`LeaseBatches`, `Deliveries`, `LateFailures`, `LateHistories`, `Store`). Below the steps, every
batch is its statements, each under its own stamp, and a statement after a batch's first finds
its rows by those stamps. For each batch a predicate says what its rows are once it was
delivered (`…Stands`), other batches keep it (`…StandsOn`), and under it the statements are the
one atomic step taken when they arrive (`…Delivers`). So the steps are what the program does on
a first delivery, on a duplicate, and on a delivery that any number of other batches overtook.
`Store.Engine` runs the statements over mutable tables.

**The child await** (`ChildAwait`, `LostAwaits`): the await as the program runs it, whose
batches other steps interleave with.

**The retention oracle** (`Retention*`): what one purge may remove, and what sequences of
purges may and may not do.

**The lexer** (`Lexer`, `Delimiters`): a buffer blanked in place by two scanners that call
each other, and delimiter matching and splitting over the result. What the scanners read is a
list of tokens and regions, which an automaton with a stack of interpolations takes one by one;
a text has one such reading, and lexing succeeds exactly when it is a reading to the end.

**The diagnosis** (`Explain*`): an ordered table of conditions that answer, ask for evidence
or decline (`ExplainLaws`); when each cause is the answer and what its verdict is, said of the
facts and the evidence alone (`ExplainCauses`, `ExplainExact`); the loop that gathers the
evidence and follows awaited children, with a log of what it read (`Explained`); and the line of a suggested command, as a shell reads it back (`PosixShell`,
`PastedLine`).

**Two smaller algorithms**: whether a JSON document's numbers survive being read as doubles
(`Decimals`, `JsonTokens`, `HeldNumbers`), and which scripts `pnpm verify` runs. A script's body
is split and parsed as the gate does it (`GateShell`) and read as a POSIX shell reads it
(`PosixShell`); `GateCommands` says which words run a script; `GateAgreement` says where the two are the same, `Gate` runs the shell's
reading against the gate's, and `GateFailures` holds bodies on which they part.

Names follow the repository's; a batch's name in a comment is its label. `None` stands for
SQL's and JavaScript's null. Identifiers, tokens and instants are unbounded. What the model
takes as given are parameters with stated laws: a batch's seed is one no batch before it had,
and the ids batches mint are new and differ (`Deliveries.FreshMints`), a claim's candidates are
any runs the claim admits, a store answers the diagnosis anything, and a number is read as a
double that no other double lies between (`HeldNumbers.ReadsNumbers`). Of the commands a
package script runs outside the package two things are taken: that none stops the shell that
runs it, which the theorems name (`Gate.NoneStops`), and that none changes that shell's own
environment, directory, options or aliases. pnpm runs a body in a POSIX shell, and `shlex` is
that of Python 3.8 and later.
Completion event names and task outcomes are datatypes, so that they are injective and decode
is by construction.

## Where a promise fails

Three promises do not hold as their comments give them. Each is proved with the exact condition
under which it does, and with an input or a history from an empty database that reaches the
failure. A fourth statement is exact only with one more case.

- A late redelivery of a batch that ended its task is not always without effect. That of
  `fail`, `fail-rollback`, `sweep:claim-timeout` or `sweep:lost-launch` changes nothing exactly
  when the task is not live again with the failed run under the batch's stamp and no run of the
  batch's own placed (`Deliveries.LateDuplicate`, where `Undone` is the condition). A revival of
  the ended task always brings that about (`LateFailures.RevivalUndoes`): the statements then
  end the task again or start it a second run. `LateFailures.ADuplicateChangesTheRevived` is
  such a history: spawn, claim, fail, `retry-task`, and the failure once more. Of every other
  batch, and of these over a run they placed, no redelivery does more than its one atomic step,
  however late, and back to back duplicates change nothing (`Deliveries.DeliveredAgain`).
- An await of a child says that the claim is lost when two rounds found neither an event nor a
  live child. A run that was never refused is told so exactly when the child slipped past both
  rounds (`LostAwaits.LostExactly`): at each look it was absent or ended with nothing recorded,
  and by the read it was live, or by the record its row had changed. That takes a spawn or a
  revival inside each round (`LostAwaits.SlippedStarts`), and an older build that ends the
  child in between, which the deploy rule of the design excludes
  (`ChildAwait.LostMeansRefused`). `LostAwaits.AReachedCallerIsToldLost` is a history in which
  a caller that holds its claim is told that it lost it.
- The gate promises that a body of `verify` whose reachability needs a shell to tell fails
  closed. It does not: `true # && python3 scripts/a.py` and `true '&&' python3 scripts/a.py`
  are taken with `a.py` among the checkers, and a shell exits zero on both and runs none
  (`GateFailures.ACommentHidesACheck`, `GateFailures.AQuotedAndHidesACheck`): the split knows no
  comments, and forgets which words were quoted. Of a body the gate takes, the shell reads the
  same and-list, word by word, exactly when the body is transparent
  (`GateAgreement.ReadAlikeExactly`): no word starts with a bare `#`; none is spelled `&&` by
  quoting; no dollar sign is escaped between double quotes; no command starts with a reserved
  word; no assignment before a command has its name or equals sign quoted; and no word holds
  what the shell puts something else in the place of, which is a dollar sign outside single
  quotes, a bare `*`, `?` or `[` outside an assignment, or a tilde that stands for a directory.
  `Gate.GateCheckers` holds where `verify` and what it reaches are transparent. A command such
  as `command exit 0` passes the guard on control commands and stops the shell before the check
  (`GateFailures.AStoppedShellHidesACheck`), so the theorem is of executions that stop no shell.
- A sleeping run that came due in a form the table does not know is not `unexplained` when a
  claim does not admit it: it is `due-run-no-claim-admits`. The exact set of unexplained facts
  is `ExplainLaws.Uncovered`, and `ExplainLaws.CoverageIsExact` proves it both ways.

## Model

| member | source | states |
|---|---|---|
| ProtocolTheorems.LiveTaskHasOneRun | packages/conformance/src/fault-matrix.ts:165-174 | In every history a live task has exactly one live run, in the task's own state, and its ordinal is attempts plus infrastructure retries plus one |
| ProtocolTheorems.EndedTaskIsCharged | packages/conformance/src/fault-matrix.ts:341-378 | In every history an ended task's top ordinal is the sum of its counters or one more |
| ProtocolTheorems.OrdinalsAreBounded | packages/conformance/src/fault-matrix.ts:487-531 | In every history no relaunch count or infrastructure retry count passes its cap, so no ordinal passes max_attempts plus the infrastructure cap |
| ProtocolTheorems.ClaimBound | packages/conformance/src/fault-matrix.ts:22-41 | In every history no token holds more running runs of a queue than its last claim there asked for |
| ProtocolTheorems.ClaimedRunIsCurrent | packages/store-libsql/src/store.ts:986-1067 | What the guards ask of a claimed run's ordinal and siblings never refuses a run that is held |
| ProtocolTheorems.FailedTaskCanBeRevived | packages/store-libsql/src/store.ts:393-412 | The arithmetic of the retry guard refuses no failed task that no saga began for |
| ProtocolTheorems.StaleSweepDoesNothing | packages/store-libsql/src/store.ts:1204-1480 | A sweep armed with the generation of a claim that is over is refused, after any history; that its statements then change nothing is `Deliveries.LateDuplicate` |
| ProtocolTheorems.LateLaunchIsRefused | packages/store-libsql/src/store.ts:986-1067 | A launch that was received, or whose claim is over, is received no more after any history, so neither its activation nor its deferral acts again |
| ProtocolTheorems.ZombieWritesNothing | packages/conformance/src/child-tasks.ts:768-785 | Once a run's claim is gone, then after any history in which nobody claims under that token, no batch its worker sends under that claim changes a row, a child's spawn and the await's batches among them, and no await of it is answered |
| ProtocolRuns.StepKeeps | packages/conformance/src/fault-matrix.ts:584-592 | Every step keeps the whole invariant: the rows', the stamps', and the claim bound |
| ProtocolRuns.ReachableIsSound | packages/conformance/src/child-tasks.ts:845-885 | Every history from an empty database satisfies the invariant |
| ProtocolRuns.ClaimsKeep | packages/store-libsql/src/store.ts:840-984 | No step lets a token hold more runs than it asked for, a claim of another token or queue included |
| ProtocolAwaits.NobodyWaitsInVain | packages/conformance/src/child-tasks.ts:845-885 | No lost wakeup, as rows: every wait belongs to a run asleep under it, its event has not happened, and an awaited child is live in the waiter's queue; and no run sleeps without an instant or a wait |
| ProtocolAwaits.EndingTellsEveryWaiter | packages/conformance/src/child-tasks.ts:282-352 | No lost wakeup, as a step: whichever batch ends a child, in whatever history, leaves every other task's run that waits for it pending with that child's outcome and no wait; a run of the child that waits for its own task ends with it, and its wait goes |
| ProtocolAwaits.EndingIsEndTask | packages/conformance/src/child-tasks.ts:278-284 | A batch of this build that takes a task from live to ended is one of the terminal batches, and ends that task alone |
| ProtocolAwaits.OlderBuildStrandsNobody | packages/conformance/src/child-tasks.ts:615-645 | An ending by an older build leaves nobody parked on the child |
| ProtocolOutcomes.FirstPayloadStands | packages/conformance/src/child-tasks.ts:444-469 | No history takes an event back or changes its payload |
| ProtocolOutcomes.CompletionIsTrue | packages/conformance/src/child-tasks.ts:646-766 | Whatever batch records a completion, the task stands ended in the event's queue and the payload is that ending's outcome, which `ProtocolExact.EveryStepIsExact` gives by each step's own arguments; a child revived between the read and the record gets no event |
| ProtocolExact.EveryStepIsExact | packages/store-libsql/src/store.ts:684-2801 | In every history each of the twenty steps acts exactly when a condition on its rows holds that is less than its batch asks, the rest never refusing anybody, and leaves every row of every table as said by the step's own arguments, literal states, reasons, caps and delays: a spawn, a claim with the waits it ends, a start and its deadline, a lease, a sleep, each ending with its event and its waiters, each retry and rollback pass with the books, a revival, an emit, an await and a record |
| ProtocolExact.CompletionStoresItsResult | packages/store-libsql/src/store.ts:1844-1871 | In every history an admitted completion leaves the task completed with the result it was given and no reason, stores that outcome as the payload if the event is new, and leaves every other task's run that waited for it pending with that payload and no wait |
| ProtocolExact.EndTaskIs | packages/core/src/statements/complete.ts:51-75 | An ending, by whichever batch: the task's row as given, its live run over under nobody's claim, its waits gone, one event if there was none, exactly the waiters of that event due now with its payload, and every other row as it was |
| ProtocolTiming.LeaseLasts | packages/store-libsql/src/store.ts:1070-1111 | After any history, a started claim that a heartbeat or a checkpoint extended is not swept before that many milliseconds have passed, and is from then on |
| ProtocolTiming.ClaimLasts | packages/store-libsql/src/store.ts:840-984 | A claim whose launch was lost is not swept before the lease it asked for has passed, and is from then on |
| ProtocolTiming.SleepLasts | packages/store-libsql/src/store.ts:1687-1842 | A run that was suspended, rescheduled or deferred until an instant is claimed from that instant on, while its deadline is ahead, and never sooner |
| ProtocolTiming.AwaitTimesOut | packages/store-libsql/src/store.ts:2674-2801 | A run parked on an event is claimed unanswered once its timeout has passed, and never if it has none |
| ProtocolTiming.StartIsInTime | packages/store-libsql/src/store.ts:684-838 | A new task's run is claimed once its delay is over and before its start deadline, and at no other time |
| ProtocolTiming.DurationRunsFromTheFirstStart | packages/store-libsql/src/store.ts:1004-1050 | After an activation the sweep for deadlines cancels the task once its duration has passed since its first start of all, not sooner, and never if it has none, whatever its start deadline was |
| ProtocolOutcomes.EveryAnswerIsTheFirst | packages/conformance/src/child-tasks.ts:444-469 | Once a completion is recorded every later hit and every wake carries that payload, through revivals, second endings and racing records |
| ProtocolOutcomes.ClaimTimesOut | packages/conformance/src/child-tasks.ts:787-810 | The claim that finds a registered wait due takes the wait and leaves the run running with no answer |
| ProtocolOrdinals.TimedOutStaysUnanswered | packages/conformance/src/child-tasks.ts:787-810 | Once an await came due, its run and every run of the task that follows it carry no payload and no wait through any history in which no run of the task awaits again |
| ProtocolOrdinals.TimeoutIsQuiet | packages/conformance/src/child-tasks.ts:787-810 | The claim that finds a wait due leaves its run the task's highest, and so unanswered with all that follow |
| ProtocolOrdinals.ReachableOrdinalsDiffer | packages/conformance/src/fault-matrix.ts:341-378 | In every history no two runs of a task have one ordinal |
| ProtocolOrdinals.NewRunIsNext | packages/core/src/statements/successor.ts:30-107 | A run that a step places is the first of a new task, or comes after the task's highest run, one ordinal up and with what that run carries |
| ProtocolEnded.EndedRowStays | packages/conformance/src/child-tasks.ts:500-526 | No step but a revival changes the row of an ended task |
| ProtocolSteps.FailKeeps | packages/store-libsql/src/store.ts:1964-2238 | The failure batch keeps the rows' invariant in each of its arms |
| ProtocolSteps.AwaitKeeps | packages/store-libsql/src/store.ts:2674-2801 | Registering a wait and parking keeps the rows' invariant: the new wait can still be answered |
| ProtocolSteps.RecordKeeps | packages/core/src/task-done.ts:210-249 | The record of a missing ending keeps the rows' invariant: nobody waits for an event it writes |
| ProtocolSteps.RetryTaskKeeps | packages/store-libsql/src/store.ts:1523-1561 | A revival keeps the rows' invariant: the new run's ordinal is the counters' sum plus one |
| CapCrossings.ClaimTimeoutCrosses | packages/conformance/src/fault-matrix.ts:487-510 | The rows a timed out claim leaves, below the cap, at it with a saga to enter, and at it with none; every other row as it was |
| CapCrossings.LostLaunchCrosses | packages/conformance/src/fault-matrix.ts:512-531 | The rows a lost launch leaves: the same run reopened with one relaunch spent below the cap, the saga or the end at it |
| CapCrossings.FailureCrosses | packages/conformance/src/fault-matrix.ts:341-378 | The rows a failure leaves: one attempt charged, then the user's retry, the rollback pass with room for itself alone, or the end |
| CapCrossings.AtCapCrosses | packages/conformance/src/fault-matrix.ts:325-378 | Crossing a cap enters the saga under the deciding reason, or ends the task uncharged for the run with one completion event |
| ChildAwait.AwaitTaskDone | packages/core/src/task-done.ts:154-181 | The await as the program runs it is its two rounds, whatever steps come before each of its batches |
| ChildAwait.AwaitIsTruthful | packages/conformance/src/child-tasks.ts:528-785 | Every answer is true of the rows it is given over, and no child of the caller's queue is ever refused |
| ChildAwait.LostMeansRefused | packages/core/src/task-done.ts:154-181 | While no older build ends the child, an await told that its claim is lost was refused for its own run's reasons |
| ChildAwait.TwoRoundsAreNotEnough | packages/core/src/task-done.ts:154-181 | From any rows with a failed, unrecorded child that may be revived, steps under which a caller that holds its claim is told that it lost it |
| LostAwaits.LostExactly | packages/core/src/task-done.ts:154-181 | An await whose run was never refused is told that its claim is lost exactly when the child slipped past both rounds, as the rows its batches found say |
| LostAwaits.ReachableMayAwait | packages/core/src/task-done.ts:154-181 | Every reachable world meets what the lemmas about the await ask of the world it starts in |
| LostAwaits.SlippedStarts | packages/core/src/task-done.ts:154-181 | A child slips past a round only if it is spawned or revived inside it |
| LostAwaits.AReachedCallerIsToldLost | packages/core/src/task-done.ts:154-181 | From an empty database: a parent and a child are spawned, the parent claimed and the child failed by an older build; from there the parent, which holds its claim, is told that it lost it |
| ChildAwait.KnownChildIsAnswered | packages/conformance/src/child-tasks.ts:577-613 | A round that begins with the child in its queue and unended by an older build answers, or the run was refused |
| ProtocolFollows.StepFollows | packages/core/src/fenced-batch.ts:60-100 | Whatever a step does, a row under another invocation's stamp is as that invocation left it, and so are the task and the waits of a live run under it |
| ProtocolFollows.ReachableIsUnspent | packages/core/src/fenced-batch.ts:303-322 | In every history the next batch comes under a seed that no task, run, wait or event bears |
| Deliveries.DeliveredOnce | packages/conformance/src/fault-matrix.ts:44-66 | The statements of each write batch, run in order over rows its seed is new to, are its one atomic step |
| Deliveries.DeliveredAgain | packages/conformance/src/fault-matrix.ts:600-616 | The statements of each write batch, run again back to back under the same stamps, change nothing |
| Deliveries.LateDelivery | packages/conformance/src/fault-matrix.ts:600-616 | However late a batch is delivered again, its first delivery run or lost and any history between, its statements are its atomic step taken then, exactly unless it ended a task that a revival brought back |
| Deliveries.LateDuplicate | packages/store-libsql/src/store.ts:1400-1425 | A spawn, an activation, a launch deferral, a recorded completion, an ending, a sweep or a revival that took effect takes none again: its late duplicate changes no row, exactly unless it ended a task that a revival brought back |
| Deliveries.DuplicatesChangeNothing | packages/conformance/src/fault-matrix.ts:584-616 | A history in which each batch is delivered any positive number of times reaches the world of the history of atomic steps, each taken once |
| Deliveries.ReachedWithDuplicates | packages/conformance/src/fault-matrix.ts:584-616 | The same from an empty database, with nothing assumed of the history but that its ids are new |
| LateHistories.LateDuplicatesChangeNothing | packages/conformance/src/fault-matrix.ts:600-616 | Any number of late duplicates of spawns, activations, launch deferrals, recorded completions, endings, sweeps and revivals that took effect, spread anywhere in a history, leave the world as it is without them, while none is of an ended task that was brought back |
| LateFailures.RevivalUndoes | packages/store-libsql/src/store.ts:2042-2238 | After any failure or sweep that ends its task, an admitted revival of the task makes the batch one whose late duplicate has an effect |
| LateFailures.ADuplicateChangesTheRevived | packages/store-libsql/src/store.ts:2042-2238 | A history from an empty database in which a duplicate of `fail` changes the rows of a revived task |
| Store.Engine.Deliver | packages/conformance/src/fault-matrix.ts:600-616 | Over the mutable tables, any positive number of deliveries of any write batch leaves the rows its atomic step leaves |
| Batches.CompleteDelivers | packages/store-libsql/src/store.ts:1844-1871 | The statements of `complete` are its step whenever they arrive: a run held under the token, of a task no saga began for, leaves its task completed with the very result the batch was given, and that result in the event if it is new and in every waiter's payload; any other changes nothing |
| FailBatch.FailDelivers | packages/store-libsql/src/store.ts:1964-2238 | The nine statements of `fail` and of `fail-rollback`, whichever arm the batch took, are their step whenever they arrive, exactly unless the batch ended a task that was brought back |
| FailBatch.FailAgain | packages/store-libsql/src/store.ts:1964-2238 | A duplicate of either changes nothing: each arm recognises the run it placed |
| Sweeps.TimeoutDelivers | packages/store-libsql/src/store.ts:1326-1479 | The statements of `sweep:claim-timeout` are its step whenever they arrive, exactly unless it ended at the cap a task that was brought back; over the retry or the pass it placed they change nothing |
| Sweeps.TimeoutAgain | packages/store-libsql/src/store.ts:1400-1425 | An exact replay of the sweep does not end the task over the successor the first delivery placed, nor count its retry twice |
| Sweeps.LaunchDelivers | packages/store-libsql/src/store.ts:1204-1324 | The statements of `sweep:lost-launch`, its two compare-and-sets among them, are its step whenever they arrive, with the same exact exception |
| Sweeps.LaunchAgain | packages/store-libsql/src/store.ts:1204-1324 | A duplicate of it reopens and fails nothing again |
| OtherBatches.CancelDelivers | packages/store-libsql/src/store.ts:1588-1635 | The statements of `cancel-task` and `sweep:cancel` are their step whenever they arrive |
| OtherBatches.ReviveDelivers | packages/store-libsql/src/store.ts:1523-1561 | The statements of `retry-task` are its step whenever they arrive: a live task gets no second run |
| OtherBatches.AwaitDelivers | packages/store-libsql/src/store.ts:2674-2801 | The three statements of `await-event` register and park together, or do nothing, whenever they arrive |
| OtherBatches.EmitDelivers | packages/store-libsql/src/store.ts:2367-2409 | The statements of `emit-event` are its step whenever they arrive: the first payload stands and waiters get the stored one |
| OtherBatches.ClaimDelivers | packages/store-libsql/src/store.ts:840-984 | The three statements of `claim`, over whatever candidates they pick when they arrive, are its step: a token that holds a run takes none |
| OtherBatches.ClaimAgain | packages/conformance/src/fault-matrix.ts:38-41 | A duplicate of `claim` takes no further run |
| LeaseBatches.SpawnDelivers | packages/store-libsql/src/store.ts:684-838 | The statements of `spawn` are its step whenever they arrive: a task that has a run gets no second one |
| LeaseBatches.ActivateDelivers | packages/store-libsql/src/store.ts:986-1067 | The statements of `activate` are its step whenever they arrive: only the delivery that latched the run arms or disarms a deadline |
| LeaseBatches.SaveDelivers | packages/store-libsql/src/store.ts:2278-2333 | The statements of `set-checkpoint` are its step whenever they arrive |
| LeaseBatches.ParkDelivers | packages/store-libsql/src/store.ts:1687-1842 | The statements of `suspend`, `reschedule` and `defer-launch` are their step whenever they arrive: the task mirrors the park, and no wait outlives it |
| Statements.TellingIsWaking | packages/store-libsql/src/store.ts:2478-2620 | The four statements of a wake are one wake of exactly the parked runs when this batch wrote the event, and nothing otherwise |
| CompletionRows.ChildTaskViolations | packages/conformance/src/child-task-rows.ts:26-66 | The checker reports exactly the violations, and nothing exactly when every ended task has its event, every completion event decodes, and each is of a task of its queue |
| CompletionRows.MatrixViolations | packages/conformance/src/fault-matrix.ts:553-582 | A matrix cell is judged by exactly the violations that are no missing event of a task that an older build ended and that stands cancelled |
| CompletionRows.CleanIsNoViolation | packages/conformance/src/child-task-rows.ts:15-25 | The two statements of cleanness agree |
| CompletionHistory.ThisBuildLeavesCleanRows | packages/conformance/src/child-task-rows.ts:26-66 | In every history with no older build the checker finds nothing |
| CompletionHistory.OnlyOlderEndingsAreFound | packages/conformance/src/fault-matrix.ts:553-566 | In every history all it can find is the missing event of a task an older build ended |
| CompletionHistory.EverythingFoundIsExcused | packages/conformance/src/fault-matrix.ts:553-582 | When older builds only cancel, all that is found is the missing event of a task an older build ended, and its row stands cancelled |
| Retention.PurgeOracle | packages/conformance/src/retention-oracle.ts:94-165 | The oracle names exactly the conditions that keep the unit, each said by the stored states, fields, key prefixes, instants and windows, in their order; counts the unit's rows; and leaves the dump one purge leaves |
| Retention.OwnConditions | packages/conformance/src/retention-oracle.ts:120-150 | Exactly the conditions of the task's own row: no terminal state, a stamp that is no instant, an age within the window of its state, a parent named by the key that neither completed nor was cancelled |
| Retention.RowConditions | packages/conformance/src/retention-oracle.ts:126-151 | Exactly the conditions of other rows |
| Retention.KeepsIsOfTheTask | packages/conformance/src/retention-oracle.ts:120-151 | What keeps a unit is decided by the one row of its task, and an absent task by that alone |
| RetentionLaws.RemovalOnlyFrees | packages/conformance/src/retention-oracle.ts:120-151 | Removing one unit adds nothing to what keeps another |
| RetentionLaws.RemovalOnlyFreesTheTask | packages/conformance/src/retention-oracle.ts:120-151 | The same of each condition of a task whose row stays |
| RetentionLaws.AllowedPurgesCommute | packages/conformance/src/retention-oracle.ts:153-164 | Any two allowed purges leave the same dump in either order |
| RetentionLaws.PurgingIsConfluent | packages/conformance/src/retention-oracle.ts:94-165 | All purge sequences that leave nothing to purge leave the same dump |
| RetentionLaws.SomeSequenceExhausts | packages/conformance/src/retention-oracle.ts:94-165 | Some sequence leaves nothing to purge |
| RetentionSafety.OnlyPurgedUnitsAreLost | packages/conformance/src/retention-oracle.ts:109-115 | Over any sequence a row of any table is lost exactly when it is of a purged unit |
| RetentionSafety.NobodyReachesThePurged | packages/conformance/src/retention-oracle.ts:126-140 | After any sequence no wait of the queue names a purged task's completion, no run is of it, and no run of the queue carries its outcome |
| RetentionSafety.SurvivingParentKeepsItsChildren | packages/conformance/src/retention-oracle.ts:141-170 | A surviving parent whose state is neither `completed` nor `cancelled`, a failed one included, keeps every child its keys name |
| Lexer.TypeScriptLexer.Lex | scripts/source_lex.py:80-90 | Lexing succeeds exactly when the source has a reading end to end, and fails only where, at the end of a reading of its start, a string, block comment, regular expression, template or interpolation opens and never closes. On success the literals are those of the reading, in its order; the structure keeps length and line breaks, and a position is blank only inside a comment that ends at its line's end or its first terminator, a regular expression, a recorded string with its quotes, or a recorded template's opening backtick or one static text with what ends it; all else is the source's own. Every literal's spans are blank and apart; nothing opens in what is left; the source is tiled by longest tokens and these regions, each regular expression where an expression may begin and each slash that stays where none may; between two spans of a template the braces are nested |
| Lexer.TypeScriptLexer.Code | scripts/source_lex.py:157-258 | Code is read to the end or to the first brace that closes none of its own, or else something in it opens that never closes; every region it blanks is a comment, a regular expression or a stretch of a literal it records; no string, template or comment opener is left visible; and by the last token or region that is an operator or an operand, an expression may begin at each regular expression it blanks and at no slash it leaves |
| Lexer.TypeScriptLexer.Template | scripts/source_lex.py:129-155 | A template is read to its own backtick, or else it or something inside it never closes; it is recorded last, after those nested in it; what it blanks of its own is its opening backtick and its static texts, so the code of its interpolations stays visible; its braces are nested and nothing in it is left open |
| Lexer.WholeOrStuck | scripts/source_lex.py:80-258 | A text that has a reading end to end has no other, with no other literals, and no reading of a start of it comes to something that never closes |
| Lexer.OneReading | scripts/source_lex.py:129-258 | Of two readings of one text the shorter is how the longer begins |
| Lexer.TypeScriptLexer.QuotedEnd | scripts/source_lex.py:92-103 | The end of a string is its first unescaped quote, and there is none exactly when it does not close on its line |
| Lexer.TypeScriptLexer.RegexEnd | scripts/source_lex.py:105-127 | The end of a regular expression: the first slash outside a class and all its flags, and none exactly when no slash closes it on its line |
| Lexer.TypeScriptLexer.BlankRange | scripts/source_lex.py:20-23 | Blanking changes the stretch alone, and keeps its line breaks |
| Lexer.NothingOpens | scripts/source_lex.py:157-218 | No position of the structure opens a string, a template or a comment, and no slash in it stands where an expression may begin |
| Lexer.RegexIsExpected | scripts/source_lex.py:209-214 | Every regular expression of a reading stands where an expression may begin: comments, spaces, increments and a lone `!` aside, it is first, or after an operator, an opener or a word an expression follows |
| Lexer.SlashDivides | scripts/source_lex.py:215-218 | A slash that stays visible stands after an operand |
| Lexer.HoleIsNested | scripts/source_lex.py:142-153 | An interpolation's braces stay visible and its code's braces are nested, so it ends at its own |
| Delimiters.BalancedIsReads | scripts/source_lex.py:282-292 | The grammar of balanced text and the stack that reads it accept the same words |
| Delimiters.MatchingDelimiter | scripts/source_lex.py:271-293 | The mate closes a balanced word with no shorter balanced prefix, and is none exactly when no delimiter does |
| Delimiters.SplitTopLevel | scripts/source_lex.py:317-344 | A span splits exactly when it is balanced; the parts are balanced, hold no comma of their own level, and are all of it less one last trivial part |
| Delimiters.SplitRejoins | scripts/source_lex.py:317-344 | The parts rejoined with commas are the span |
| Delimiters.TriviaOnly | scripts/source_lex.py:296-314 | A span is trivial exactly when it is spaces, line comments to their line's end and closed block comments |
| ExplainLaws.CoverageIsExact | packages/cli/src/explain.ts:377-838 | With the evidence supplied, readable facts are unexplained exactly when `Uncovered` |
| ExplainLaws.AsksForWhatIsMissing | packages/cli/src/explain.ts:869-876 | No evidence is asked for that was given |
| ExplainLaws.NoGuardIsAskedPastThem | packages/cli/src/explain.ts:475-489 | Once a child is followed neither the guards nor the checkpoints are asked for |
| ExplainLaws.VerdictIsLifted | packages/cli/src/explain.ts:850-862 | A last verdict that is not `ok` is the verdict of every diagnosis above it; what the last verdict is, `ExplainExact.VerdictIsExact` says |
| ExplainLaws.OkIsLifted | packages/cli/src/explain.ts:850-862 | Above a last verdict of `ok` every diagnosis is `waiting`, or `unexplained` if that last task has ended |
| ExplainExact.CauseIsExact | packages/cli/src/explain.ts:377-876 | Each of the 28 causes, and having none, is the answer exactly under a condition on the state strings, instants, counts and evidence, and each piece of evidence is asked for exactly under another |
| ExplainExact.VerdictIsExact | packages/cli/src/explain.ts:850-862 | Each of the five verdicts, exactly: `stuck` when a move is owed more than 120000 ms late or through a clockless ring or a stuck child; `waiting` of a due or future move, a delay, an untimed event or a waiting child; `ok` of an ended task or a live lease; `inconsistent` and `unexplained` of their causes |
| ExplainExact.AnswerHolds | packages/cli/src/explain.ts:800-876 | What else an answer holds: its task, whether it ended, and of an await of a child the child its event names, with the ring or the diagnosis that was given |
| ExplainLaws.StuckIsLateOrARing | packages/cli/src/explain.ts:850-862 | `stuck` comes of a last task late past the grace or of a ring no clock ends, and of nothing else |
| ExplainLaws.FirstIsFirst | packages/cli/src/explain.ts:800-838 | The first condition that does not decline answers, and all before it declined |
| Explained.Gather | packages/cli/src/main.ts:615-656 | Whatever the store answers, the loop ends within two reads of facts for each hop, follows no task twice on a path and goes no deeper than the bound. It answers nothing exactly when the last read of the task found none. Every diagnosis of its chain is what the facts, checkpoints, waiters and guards it read last say; every await of a child closes a ring exactly when the child is on the path, with those very tasks and their clocks, and else is followed, unless the path is nine tasks long or the child was read and not found |
| Explained.AwaitsAreFollowed | packages/cli/src/main.ts:650-656 | The last diagnosis of a chain that awaits a child with no ring is the ninth of its path, or the last read of that child found none |
| Explained.StuckIsARing | packages/cli/src/main.ts:615-656 | `stuck` means a last task late past the grace, or a ring: the tasks read and followed, all different, each awaiting the next and the last one of them, with no deadline and no due instant from that one on |
| Explained.AdmissionIsExact | packages/cli/src/explain.ts:326-360 | The guards' answer, exactly: the rows moved unless the read's rows are the facts' own with one live run; a clock passed when an instant of theirs lies between the two reads; and else what the guards said of them |
| Explained.RingClosedBy | packages/cli/src/explain.ts:268-280 | A ring is found exactly when the awaited task is on the path, and is ended by a clock exactly when some task from its first place on is |
| PastedLine.PastedIsReadBack | packages/cli/src/explain.ts:971-980 | A POSIX shell reads the line back as one simple command that executes pnpm with cli and exactly the arguments, empty ones, quotes and line breaks included |
| PastedLine.BareExactly | packages/cli/src/explain.ts:971-976 | A word stands unquoted in the line exactly when it is not empty and each of its characters is a letter, a digit or one of ten signs |
| Decimals.IntegerIffPowerNotNegative | packages/cli/src/drive.ts:55-64 | Digits that end in no zero, times a power of ten, are an integer exactly when the power is not negative, and then that one |
| Decimals.KeptTimesTens | packages/cli/src/drive.ts:55-58 | Digits are what is kept of them times a power of ten; nothing is kept exactly of zero |
| Decimals.IntegersReadAsIntegers | packages/cli/src/drive.ts:62-65 | The double read of an integer is an integer, so the conversion never throws; below two to the 53rd it is the same one |
| Decimals.PowerIsSmall | packages/cli/src/drive.ts:62-64 | A number that is finite once read and not zero has a power of ten below 309 |
| HeldNumbers.NumberNotHeld | packages/cli/src/drive.ts:44-69 | A text is refused for its first number that is not finite, vanishes, or becomes another integer, and for no other |
| HeldNumbers.NumberLoss | packages/cli/src/drive.ts:48-66 | One number's refusal, computed from digits and a rounded exponent, is its loss as values say it |
| HeldNumbers.DocumentIsHeld | packages/cli/src/drive.ts:32-45 | Nothing is refused of a JSON document exactly when every number of it is finite, zero only if zero, and the same integer if one |
| HeldNumbers.PowerIsRead | packages/cli/src/drive.ts:62 | The power computed of the exponent's double has the exact one's sign, and is exact where it is not negative |
| JsonTokens.ScanIsTheGrammar | packages/cli/src/drive.ts:22-48 | Of any JSON text the leftmost scan yields exactly its strings and numbers in order |
| JsonTokens.NumberIsRead | packages/cli/src/drive.ts:22-28 | A number of the grammar is matched whole, in its parts, whatever may follow it |
| GateShell.ShellCommands | scripts/gate-lint.py:127-183 | The parse of a body, split into words and all, is the specified one, each refusal for the first cause that holds |
| GateShell.ParsedIsAnAndList | scripts/gate-lint.py:136-183 | A body parses to these commands exactly when its words are the and-list of them: cut at each separator, each group saying its command with the last assignment of each name, and no other control operator or substitution in it |
| GateAgreement.TokensInStep | scripts/gate-lint.py:142-154 | Where the gate's lexer finds words and no control operator, a shell finds the same tokens one by one as far as a comment, each with the text the lexer gave it but for a backslash it keeps before a dollar sign |
| GateAgreement.ReadAlikeExactly | scripts/gate-lint.py:130-183 | Of a body the gate takes, a shell reads the same and-list, command by command and word by word, exactly when the body is transparent, and then with the same environments and arguments |
| GateShell.CutAtAnds | scripts/gate-lint.py:156-165 | The cut is the one at each separator and nowhere else, and an empty command on either side is refused |
| Gate.GateReader.Expand | scripts/gate-lint.py:224-265 | The expansion ends; it reports nothing exactly when the script expands and names no script twice, and then adds exactly the expansion's invocations |
| Gate.GateCheckers | scripts/gate-lint.py:206-269 | With no finding, the order names each script once and the invocations are the expansion's; and where `verify` and the scripts it reaches are transparent, any execution of the bodies as a shell reads them that exits zero with no shell stopped has made exactly these invocations, in order and with the merged environments |
| Gate.ExecutionFollows | scripts/gate-lint.py:239-262 | Over transparent scripts, any execution of commands that expand in which no shell was stopped has made a prefix of the expansion's invocations, and all of them if it exits zero |
| Gate.PassingExecution | scripts/gate-lint.py:239-262 | Over transparent scripts, commands that expand have an execution that exits zero and stops no shell |
| GateCommands.ExecutedExactly | scripts/gate-lint.py:186-203 | A command is taken to execute a file exactly when it is the file's path, or `bash`, `sh` or a `python` of any version by its path's last name, given that path first or after `--` |
| GateCommands.RefExactly | scripts/gate-lint.py:241-246 | A command runs a package script exactly when it is `pnpm run` or `pnpm` with a name of the package, the script after `run` before one called `run` |
| GateCommands.AssignmentExactly | scripts/gate-lint.py:106 | A word is an assignment, of this name and value, exactly when it is a variable's name, an equals sign and the value |
| GateCommands.SubstitutionExactly | scripts/gate-lint.py:138-139 | A body is refused for substitution exactly when a backtick, or a dollar sign and a parenthesis, stand in it |
| GateFailures.ACommentHidesACheck | scripts/gate-lint.py:130-148 | The gate finds the checker after a comment's sign, and a shell exits zero with no invocation made |
| GateFailures.AQuotedAndHidesACheck | scripts/gate-lint.py:156-165 | The gate finds the checker behind a quoted separator, and a shell exits zero with no invocation made |
| GateFailures.AStoppedShellHidesACheck | scripts/gate-lint.py:175-179 | A body as a shell reads it, with its checker found, and an execution that exits zero with none made, since its first command stopped the shell |

## Left out

- The corruption guards of the stores, the bounds on stored integers and instants, and the SQL of three dialects: the tables are values with the columns the batches turn on.
- A claim's choice of its candidates, their order and skip-locked rows: a claim takes any runs it admits, up to its limit.
- Two write labels: `driver-heartbeat`, whose row no batch reads, and `purge-unit`, whose effect has its own model. The heartbeat, `expire-lease-now` and `record-task-done` are batches of one statement, which is their step.
- Checkpoint rows: a step's checkpoint is a lease extension and whether a rollback is owed, which a late redelivery reads anew, and a saga's marker is a field of the task.
- A collision of a minted id with a row of another batch: ids are new, and a batch whose id is taken is refused whole, as its failed insert rolls it back.
- The delay of a retry policy: a failure carries the delay it was given. Retention inside the engine's histories: purges have their own model.
- The delivered status of waits and waits stored with no step by the first release: a delivered wait is gone.
- ProtocolOrdinals.TimedOutStaysUnanswered: is about the rows; that the program then returns no outcome to its caller is code over them and is not modelled.
- LateHistories.LateDuplicatesChangeNothing: is of batches that act once; a late claim, lease batch, suspension or await may act again under a claim its token holds again, a late emit stamps its event again, and `Deliveries.LateDelivery` says that it is then one atomic step.
- `dumpDifferences` of the retention oracle: two set differences for each table.
- Lexer.TypeScriptLexer.Code: where an expression may begin is told by the last token that is an operator or an operand, as the program has it, and that a slash there opens a regular expression in ECMA-262 is not proved; letters, digits and spaces are parameters, none of which is a quote, slash or brace.
- The SQL view of template literals, the harvest of batch calls and the count of `sql:` keys: they are further passes with the same shape as the scanners here.
- The facts a diagnosis prints, its next transition, and the choice of a suggested command.
- The harvest of a task's facts by queries: the diagnosis is of facts that are given.
- HeldNumbers.NumberNotHeld: is over texts no longer than a string of the engine that runs the program, since an exponent read as a double is exact only up to two to the 53rd.
- JSON text outside the grammar, and names with characters outside ASCII in scripts and package names: the parse before the check refuses the first, and the second are parameters or left out.
- What a shell replaces: a body with a parameter, a pattern or a tilde in it has no reading from its text alone, so nothing is said of its executions, and an alias is none.
- What pnpm does besides running a script's body in a shell: the arguments it appends, the environment it adds, and its own commands of a script's name.
- Gate.GateCheckers: where a body it reaches is not transparent, what `verify` then runs is proved of the bodies of `GateFailures` alone.
- The Vercel, GitHub and dogfood code, the polling loop, the receipts, the other lints and the HTTP routes: clients, configuration and one-branch facts.

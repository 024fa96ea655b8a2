# Flow-control core of System.IO.Pipelines in Dafny

This project models the two small primitives that a `Pipe` uses to make its
reader and writer wait for each other.

- **`Pipe.Completion`** is a write-once cell. It records how one side of the
  pipe finished: not yet, finished without a fault, or finished with a fault.
  `ThrowIfFailed` replays that fault. Here the fault is returned as an
  `Option<Fault>` instead of being thrown.
- **`PipeAwaitable`** is a single-slot suspend/resume state machine. It has
  two independent cells:
  - the slot: `NotCompleted`, `Completed` or `Waiting(continuation)`. The
    source encodes the two sentinels by reference identity; here they are
    datatype constructors.
  - the cancellation integer: `NOT_CANCELLED = 0`, `CANCELLATION_REQUESTED = 1`,
    `CANCELLATION_OBSERVED = 2`.

  Each `Interlocked` exchange or compare-and-swap is one step of a method.
  The scheduler (`IScheduler.Schedule`) and `Task.Run` are append-only logs of
  the continuations handed to them (`Scheduler.scheduled`, `TaskPool.started`).

Files:
- `wrappers.dfy`: the `Option` type.
- `completion.dfy` (module `PipeCompletion`): the completion cell, its
  compare-and-swap as a pure function `Settle`, the class `Completion`, and
  lemmas about sequences of `TryComplete` calls.
- `awaitable_spec.dfy` (module `AwaitableSpec`): every awaitable operation as
  a pure step function on the two cells. Each step returns an `Effect`: the new
  cells, what was scheduled, what was started in the background, whether the
  completion was faulted, and what was returned. `Run` folds a sequence of
  calls. The lemmas about single calls and about whole histories are here.
- `awaitable.dfy` (module `Awaitables`): the class `PipeAwaitable`, which
  updates its fields in place. Each method's postcondition ties the new
  fields and logs to the step function of the old fields. The file also has
  client methods that replay the expected scenarios on fresh objects.

## Model

| member | source | states |
|---|---|---|
| `PipeCompletion.Outcome` | src/System.IO.Pipelines/Pipe.Completion.cs:12-21 | a winning call stores a completed value: the passed fault, or the no-exception sentinel exactly when the argument is null |
| `PipeCompletion.Settle` | src/System.IO.Pipelines/Pipe.Completion.cs:18-22 | one TryComplete always leaves the cell completed; it stores the outcome only into an unset cell and leaves a completed cell as it was |
| `PipeCompletion.SettledStaysSettled` | src/System.IO.Pipelines/Pipe.Completion.cs:16-22 | once completed, the cell is unchanged by any sequence of later TryComplete calls, whatever they pass |
| `PipeCompletion.FirstCallWins` | src/System.IO.Pipelines/Pipe.Completion.cs:18-22 | after any sequence of TryComplete calls on a fresh cell, the cell holds exactly the first call's outcome, or is unset if there was no call |
| `PipeCompletion.Completion.constructor` | src/System.IO.Pipelines/Pipe.Completion.cs:14-30 | a default completion is not completed and ThrowIfFailed on it raises nothing |
| `PipeCompletion.Completion.IsCompleted` | src/System.IO.Pipelines/Pipe.Completion.cs:16 | true exactly when some TryComplete has stored an outcome |
| `PipeCompletion.Completion.TryComplete` | src/System.IO.Pipelines/Pipe.Completion.cs:18-22 | the new cell is the compare-and-swap result: the first outcome is kept |
| `PipeCompletion.Completion.ThrowIfFailed` | src/System.IO.Pipelines/Pipe.Completion.cs:24-30 | raises a fault exactly when the cell holds one, and then exactly the stored fault; a read that changes nothing |
| `PipeCompletion.FirstOutcomeIsReplayed` | src/System.IO.Pipelines/Pipe.Completion.cs:12-30 | fresh: not completed, nothing raised; after TryComplete(first) then TryComplete(later): completed, and two ThrowIfFailed calls both raise exactly `first` (nothing when it was null) |
| `AwaitableSpec.Initial` | src/System.IO.Pipelines/PipeAwaitable.cs:18-23 | the constructed slot is Completed exactly when `completed` is set, holds no continuation, and cancellation is NotCancelled |
| `AwaitableSpec.Resume` | src/System.IO.Pipelines/PipeAwaitable.cs:25-36 | the slot ends Completed; exactly the held continuation is scheduled, nothing for NotCompleted or Completed; cancellation untouched, nothing started, no fault |
| `AwaitableSpec.Reset` | src/System.IO.Pipelines/PipeAwaitable.cs:38-58 | only Completed becomes NotCompleted and only Observed becomes NotCancelled; with a cancellation Requested the cancellation stays Requested, the slot ends Completed and the held continuation is scheduled |
| `AwaitableSpec.OnCompleted` | src/System.IO.Pipelines/PipeAwaitable.cs:62-88 | NotCompleted: stores Waiting(c), dispatches nothing. Completed: schedules c once, slot stays Completed. Waiting(existing): faults, slot ends Completed, starts c then existing in the background, schedules nothing |
| `AwaitableSpec.Cancel` | src/System.IO.Pipelines/PipeAwaitable.cs:90-94 | cancellation ends Requested and the slot Completed, from any state; the held continuation is scheduled |
| `AwaitableSpec.ObserveCancelation` | src/System.IO.Pipelines/PipeAwaitable.cs:96-102 | returns true exactly when cancellation was Requested, which then becomes Observed; otherwise nothing changes; the slot is never touched |
| `AwaitableSpec.ResumeTwiceSchedulesNothing` | src/System.IO.Pipelines/PipeAwaitable.cs:25-36 | a second Resume schedules nothing and changes nothing |
| `AwaitableSpec.CompletedMeansImmediateDispatch` | src/System.IO.Pipelines/PipeAwaitable.cs:60-76 | IsCompleted holds exactly when OnCompleted would schedule the continuation at once; then the continuation is not stored |
| `AwaitableSpec.FaultOnlyOnDoubleSubscribe` | src/System.IO.Pipelines/PipeAwaitable.cs:77-87 | a call faults the completion exactly when it is OnCompleted on a slot that already waits |
| `AwaitableSpec.CancelIsObservedOnce` | src/System.IO.Pipelines/PipeAwaitable.cs:90-102 | after Cancel, IsCompleted holds, the first ObserveCancelation returns true and an immediate repeat returns false |
| `AwaitableSpec.WaitResumeResetCycle` | src/System.IO.Pipelines/PipeAwaitable.cs:25-71 | NotCompleted, then OnCompleted(c), Resume, Reset: returns to the initial cells, having scheduled exactly c once and started nothing |
| `AwaitableSpec.StepConserves` | src/System.IO.Pipelines/PipeAwaitable.cs:25-94 | one call moves continuations between the slot and the two logs without dropping or copying any |
| `AwaitableSpec.RunConserves` | src/System.IO.Pipelines/PipeAwaitable.cs:25-94 | after any sequence of calls, every continuation initially held or registered is still held or was dispatched exactly once, to the scheduler or to the background |
| `AwaitableSpec.StepKeepsSignalled` | src/System.IO.Pipelines/PipeAwaitable.cs:38-102 | every call keeps the invariant "a Requested cancellation implies a Completed slot" |
| `AwaitableSpec.RunKeepsSignalled` | src/System.IO.Pipelines/PipeAwaitable.cs:38-102 | any sequence of calls keeps the same invariant |
| `AwaitableSpec.PendingCancellationNeverBlocks` | src/System.IO.Pipelines/PipeAwaitable.cs:18-102 | in every history of a constructed awaitable, a cancellation Requested and not yet observed leaves IsCompleted true |
| `AwaitableSpec.CancellationSurvivesUntilObserved` | src/System.IO.Pipelines/PipeAwaitable.cs:45-57 | Reset never loses a pending cancellation: until ObserveCancelation, any calls leave it Requested and the slot Completed |
| `AwaitableSpec.ObservationsBoundedByCancels` | src/System.IO.Pipelines/PipeAwaitable.cs:90-102 | over any history, true results of ObserveCancelation plus a still pending request never exceed the Cancel calls (plus a request pending at the start) |
| `AwaitableSpec.StartedOnlyOnFault` | src/System.IO.Pipelines/PipeAwaitable.cs:77-87 | over any history, the background log holds exactly two continuations per faulting call and nothing else |
| `AwaitableSpec.FaultsBoundedBySubscriptions` | src/System.IO.Pipelines/PipeAwaitable.cs:62-88 | over any history, twice the number of faults never exceeds the continuations initially held plus those registered, so, from a state that holds no continuation, a single registration never faults |
| `Awaitables.PipeAwaitable.constructor` | src/System.IO.Pipelines/PipeAwaitable.cs:18-23 | IsCompleted equals `completed`, no continuation is held, cancellation is NotCancelled, the scheduler is the one passed |
| `Awaitables.PipeAwaitable.IsCompleted` | src/System.IO.Pipelines/PipeAwaitable.cs:60 | true exactly on the Completed sentinel; a held continuation reads as not completed |
| `Awaitables.PipeAwaitable.Resume` | src/System.IO.Pipelines/PipeAwaitable.cs:25-36 | the new cells and the scheduler log follow `AwaitableSpec.Resume`: the slot ends Completed, cancellation is unchanged, and the log grows by exactly the prior held continuation |
| `Awaitables.PipeAwaitable.Reset` | src/System.IO.Pipelines/PipeAwaitable.cs:38-58 | the fields and the scheduler log follow `AwaitableSpec.Reset`; a Requested cancellation leaves the awaitable completed and still Requested |
| `Awaitables.PipeAwaitable.OnCompleted` | src/System.IO.Pipelines/PipeAwaitable.cs:62-88 | the fields and both logs follow `AwaitableSpec.OnCompleted`; the passed completion gets TryComplete(no-concurrent-operation) exactly when a continuation was already held, and is untouched otherwise |
| `Awaitables.PipeAwaitable.Cancel` | src/System.IO.Pipelines/PipeAwaitable.cs:90-94 | afterwards IsCompleted holds and cancellation is Requested; the scheduler log follows `AwaitableSpec.Cancel` |
| `Awaitables.PipeAwaitable.ObserveCancelation` | src/System.IO.Pipelines/PipeAwaitable.cs:96-102 | returns true exactly when cancellation was Requested; only the cancellation field may change, as `AwaitableSpec.ObserveCancelation` says |
| `Awaitables.WaitThenResume` | src/System.IO.Pipelines/PipeAwaitable.cs:18-76 | after OnCompleted(cb) on a not-completed awaitable the slot holds Waiting(cb), reads not completed and nothing is scheduled; the first Resume makes the scheduler log exactly [cb], the second leaves it [cb]; the awaitable ends completed and nothing runs in the background |
| `Awaitables.DoubleSubscribe` | src/System.IO.Pipelines/PipeAwaitable.cs:62-88 | two registrations without a Resume: the completion raises the no-concurrent-operation fault, the awaitable is completed, both continuations are started in the background (new one first), the scheduler gets neither |
| `Awaitables.CancelWithoutWaiter` | src/System.IO.Pipelines/PipeAwaitable.cs:62-102 | Cancel with no waiter completes the awaitable; a later OnCompleted is scheduled at once; ObserveCancelation returns true once, then false |
| `Awaitables.ResetAgainstCancel` | src/System.IO.Pipelines/PipeAwaitable.cs:38-102 | a plain Reset makes a completed awaitable not completed; a Reset with a pending cancellation leaves it completed; the cancellation is then observed, and the next Reset returns both cells to NotCompleted and NotCancelled; the waiter was scheduled exactly once |

## Left out

- Thread interleavings and the memory model. Each `Interlocked` operation, and the plain write in `Cancel`, is one sequential step. No concurrent proof is attempted. The invariant in `AwaitableSpec.PendingCancellationNeverBlocks` holds only for sequential histories: with real races, `Reset` can run between the write and the `Resume` inside `Cancel`.
- Running continuations. `IScheduler.Schedule` and `Task.Run` are foreign calls, recorded only as logs. `Task.Run` is static in the source; here its log is a `TaskPool` object fixed at construction.
- The scheduler's own choice of execution context is not modelled.
- `ThrowHelper.GetInvalidOperationException` and `ExceptionResource` are not part of this model. The fault they build is the fixed constant `NoConcurrentOperation`. Any other exception is `Thrown(id)`, standing for its object identity.
- Throwing. `ThrowIfFailed` returns the fault as `Option<Fault>`.
- A null continuation passed to `OnCompleted` is not modelled. A continuation is always a real delegate here.
- `OnCompleted` takes a `ref PipeCompletion`. The model passes the single `Completion` class by reference in its place.
- `ToString` (PipeAwaitable.cs:104-107): it only formats output.
- The rest of the `Pipe` class: buffers, segments and the reader and writer APIs.

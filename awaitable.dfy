/**
 * Model of the PipeAwaitable struct: the two cells updated in place, each
 * Interlocked operation as one atomic step, and the scheduler and Task.Run
 * as append-only logs of the continuations handed to them.
 */
module Awaitables {
  import opened Wrappers
  import opened PipeCompletion
  import opened AwaitableSpec

  /** IScheduler, reduced to the continuations passed to Schedule, in order. */
  class Scheduler {
    var scheduled: seq<Continuation>

    constructor ()
      ensures scheduled == []
    {
      scheduled := [];
    }

    method Schedule(continuation: Continuation)
      modifies this
      ensures scheduled == old(scheduled) + [continuation]
    {
      scheduled := scheduled + [continuation];
    }
  }

  /** Task.Run, reduced to the continuations started in the background, in order. */
  class TaskPool {
    var started: seq<Continuation>

    constructor ()
      ensures started == []
    {
      started := [];
    }

    method Run(continuation: Continuation)
      modifies this
      ensures started == old(started) + [continuation]
    {
      started := started + [continuation];
    }
  }

  class PipeAwaitable {
    var slot: Slot
    var cancelledState: CancelledState
    const scheduler: Scheduler
    /** The background executor behind Task.Run, made explicit. */
    const pool: TaskPool

    /** The two cells, as the pure state machine sees them. */
    function State(): AwaitableState
      reads this
    {
      AwaitableState(slot, cancelledState)
    }

    constructor (scheduler: Scheduler, pool: TaskPool, completed: bool)
      ensures this.scheduler == scheduler && this.pool == pool
      ensures IsCompleted() == completed && !slot.Waiting?
      ensures cancelledState == NOT_CANCELLED
      ensures State() == Initial(completed)
    {
      cancelledState := NOT_CANCELLED;
      slot := if completed then Completed else NotCompleted;
      this.scheduler := scheduler;
      this.pool := pool;
    }

    /** True exactly on the completed sentinel; a stored continuation reads as not completed. */
    function IsCompleted(): (b: bool)
      reads this
      ensures b <==> slot == Completed
      ensures b ==> !slot.Waiting?
    {
      slot == Completed
    }

    method Resume()
      modifies this, scheduler
      ensures State() == AwaitableSpec.Resume(old(State())).after
      ensures scheduler.scheduled == old(scheduler.scheduled) + AwaitableSpec.Resume(old(State())).scheduled
    {
      // atomic exchange of the slot for Completed, keeping the prior value
      var awaitableState := slot;
      slot := Completed;

      if awaitableState != Completed && awaitableState != NotCompleted {
        scheduler.Schedule(awaitableState.continuation);
      }
    }

    method Reset()
      modifies this, scheduler
      ensures State() == AwaitableSpec.Reset(old(State())).after
      ensures scheduler.scheduled == old(scheduler.scheduled) + AwaitableSpec.Reset(old(State())).scheduled
      ensures old(cancelledState) == CANCELLATION_REQUESTED ==> IsCompleted() && cancelledState == CANCELLATION_REQUESTED
    {
      // atomic compare-and-swap: Completed becomes NotCompleted
      if slot == Completed {
        slot := NotCompleted;
      }

      // atomic compare-and-swap: Observed becomes NotCancelled, keeping the prior value
      var cancelled := cancelledState;
      if cancelled == CANCELLATION_OBSERVED {
        cancelledState := NOT_CANCELLED;
      }

      if cancelled == CANCELLATION_REQUESTED {
        Resume();
      }
    }

    /**
     * Register `continuation`; a registration while another continuation is
     * stored faults `completion` with the no-concurrent-operation error.
     */
    method OnCompleted(continuation: Continuation, completion: Completion)
      modifies this, scheduler, pool, completion
      ensures State() == AwaitableSpec.OnCompleted(old(State()), continuation).after
      ensures scheduler.scheduled == old(scheduler.scheduled) + AwaitableSpec.OnCompleted(old(State()), continuation).scheduled
      ensures pool.started == old(pool.started) + AwaitableSpec.OnCompleted(old(State()), continuation).started
      ensures completion.exception ==
        if old(slot).Waiting? then Settle(old(completion.exception), Some(NoConcurrentOperation))
        else old(completion.exception)
    {
      // atomic compare-and-swap: NotCompleted becomes Waiting(continuation), keeping the prior value
      var awaitableState := slot;
      if awaitableState == NotCompleted {
        slot := Waiting(continuation);
      }

      if awaitableState == NotCompleted {
        return;
      } else if awaitableState == Completed {
        scheduler.Schedule(continuation);
      } else {
        completion.TryComplete(Some(NoConcurrentOperation));

        // atomic exchange of the slot for Completed
        slot := Completed;

        pool.Run(continuation);
        pool.Run(awaitableState.continuation);
      }
    }

    method Cancel()
      modifies this, scheduler
      ensures IsCompleted() && cancelledState == CANCELLATION_REQUESTED
      ensures State() == AwaitableSpec.Cancel(old(State())).after
      ensures scheduler.scheduled == old(scheduler.scheduled) + AwaitableSpec.Cancel(old(State())).scheduled
    {
      cancelledState := CANCELLATION_REQUESTED;
      Resume();
    }

    method ObserveCancelation() returns (observed: bool)
      modifies this`cancelledState
      ensures observed <==> old(cancelledState) == CANCELLATION_REQUESTED
      ensures State() == AwaitableSpec.ObserveCancelation(old(State())).after
    {
      // atomic compare-and-swap: Requested becomes Observed, keeping the prior value
      var cancelled := cancelledState;
      if cancelled == CANCELLATION_REQUESTED {
        cancelledState := CANCELLATION_OBSERVED;
      }
      observed := cancelled == CANCELLATION_REQUESTED;
    }
  }

  /**
   * One wait cycle with a scheduler: the awaitable stores the continuation,
   * Resume hands exactly it to the scheduler once, a second Resume adds
   * nothing, and nothing runs in the background.
   */
  method WaitThenResume(cb: Continuation)
    returns (held: Slot, whileWaiting: bool, afterWait: seq<Continuation>,
             afterResume: seq<Continuation>, afterSecondResume: seq<Continuation>,
             completed: bool, started: seq<Continuation>)
    ensures held == Waiting(cb) && !whileWaiting && afterWait == []
    ensures afterResume == [cb] && afterSecondResume == [cb]
    ensures completed && started == []
  {
    var scheduler := new Scheduler();
    var pool := new TaskPool();
    var completion := new Completion();
    var awaitable := new PipeAwaitable(scheduler, pool, false);
    awaitable.OnCompleted(cb, completion);
    held := awaitable.slot;
    whileWaiting := awaitable.IsCompleted();
    afterWait := scheduler.scheduled;
    awaitable.Resume();
    afterResume := scheduler.scheduled;
    awaitable.Resume();
    afterSecondResume := scheduler.scheduled;
    completed := awaitable.IsCompleted();
    started := pool.started;
  }

  /**
   * Two registrations without a Resume between them: the completion is
   * faulted with the no-concurrent-operation error, the awaitable is left
   * completed, both continuations run in the background (new one first) and
   * the scheduler gets neither.
   */
  method DoubleSubscribe(first: Continuation, second: Continuation)
    returns (completed: bool, raised: Option<Fault>, scheduled: seq<Continuation>, started: seq<Continuation>)
    ensures completed && raised == Some(NoConcurrentOperation)
    ensures scheduled == [] && started == [second, first]
  {
    var scheduler := new Scheduler();
    var pool := new TaskPool();
    var completion := new Completion();
    var awaitable := new PipeAwaitable(scheduler, pool, false);
    awaitable.OnCompleted(first, completion);
    awaitable.OnCompleted(second, completion);
    completed := awaitable.IsCompleted();
    raised := completion.ThrowIfFailed();
    scheduled := scheduler.scheduled;
    started := pool.started;
  }

  /**
   * Cancel with no waiter: the awaitable becomes completed, a later
   * registration is dispatched at once, and the cancellation is observed
   * once and only once.
   */
  method CancelWithoutWaiter(c: Continuation)
    returns (completed: bool, scheduled: seq<Continuation>, observed: bool, observedAgain: bool)
    ensures completed && scheduled == [c]
    ensures observed && !observedAgain
  {
    var scheduler := new Scheduler();
    var pool := new TaskPool();
    var completion := new Completion();
    var awaitable := new PipeAwaitable(scheduler, pool, false);
    awaitable.Cancel();
    completed := awaitable.IsCompleted();
    awaitable.OnCompleted(c, completion);
    scheduled := scheduler.scheduled;
    observed := awaitable.ObserveCancelation();
    observedAgain := awaitable.ObserveCancelation();
  }

  /**
   * Reset against a cancellation: a plain Reset makes a completed awaitable
   * not completed; a Reset while a cancellation is requested and unobserved
   * leaves it completed, the cancellation is then observed, and the Reset
   * after that returns both cells to NotCompleted and NotCancelled.
   */
  method ResetAgainstCancel(c: Continuation)
    returns (afterPlainReset: bool, afterCancelledReset: bool, observed: bool, final: AwaitableState, scheduled: seq<Continuation>)
    ensures !afterPlainReset && afterCancelledReset && observed
    ensures final == Initial(false)
    ensures scheduled == [c]
  {
    var scheduler := new Scheduler();
    var pool := new TaskPool();
    var completion := new Completion();
    var awaitable := new PipeAwaitable(scheduler, pool, true);
    awaitable.Reset();
    afterPlainReset := awaitable.IsCompleted();
    awaitable.OnCompleted(c, completion);
    awaitable.Cancel();
    awaitable.Reset();
    afterCancelledReset := awaitable.IsCompleted();
    observed := awaitable.ObserveCancelation();
    awaitable.Reset();
    final := awaitable.State();
    scheduled := scheduler.scheduled;
  }
}

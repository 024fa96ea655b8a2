/**
 * Model of Pipe.Completion: a write-once terminal cell that records how one
 * side of a pipe finished, and replays the fault it finished with.
 */
module PipeCompletion {
  import opened Wrappers

  /**
   * An exception object as the pipe sees it: the fixed invalid-operation
   * error raised when two continuations are registered on one awaitable at
   * once, or any other exception, known only by its identity.
   */
  datatype Fault = NoConcurrentOperation | Thrown(id: nat)

  /**
   * The three values the `_exception` field can hold: null, the private
   * no-exception sentinel, or an exception passed to TryComplete.
   */
  datatype Recorded = Unset | CompletedNoException | Failed(fault: Fault)

  /**
   * The value a winning TryComplete stores: the passed fault, or the
   * no-exception sentinel when the argument is null.
   */
  function Outcome(exception: Option<Fault>): (r: Recorded)
    ensures r != Unset
    ensures r.Failed? <==> exception.Some?
    ensures exception.Some? ==> r.fault == exception.value
  {
    match exception
    case None => CompletedNoException
    case Some(f) => Failed(f)
  }

  /**
   * The compare-and-swap of TryComplete as one atomic step: the outcome is
   * stored only into a cell that is still null.
   */
  function Settle(cell: Recorded, exception: Option<Fault>): (r: Recorded)
    ensures r != Unset
    ensures cell != Unset ==> r == cell
    ensures cell == Unset ==> r == Outcome(exception)
  {
    if cell == Unset then Outcome(exception) else cell
  }

  /** The cell after the given TryComplete calls, made in order. */
  function SettleAll(cell: Recorded, calls: seq<Option<Fault>>): Recorded
    decreases |calls|
  {
    if calls == [] then cell else SettleAll(Settle(cell, calls[0]), calls[1..])
  }

  /** A completed cell is never changed again, whatever later calls pass. */
  lemma {:induction false} SettledStaysSettled(cell: Recorded, calls: seq<Option<Fault>>)
    requires cell != Unset
    ensures SettleAll(cell, calls) == cell
    decreases |calls|
  {
    if calls != [] {
      SettledStaysSettled(Settle(cell, calls[0]), calls[1..]);
    }
  }

  /**
   * Of any sequence of TryComplete calls on a fresh completion only the
   * first is observable: the cell holds exactly what that call passed.
   */
  lemma {:induction false} FirstCallWins(calls: seq<Option<Fault>>)
    ensures SettleAll(Unset, calls) == if calls == [] then Unset else Outcome(calls[0])
  {
    if calls != [] {
      SettledStaysSettled(Outcome(calls[0]), calls[1..]);
    }
  }

  /** The completion cell of one side of a pipe; passed by reference to the awaitable. */
  class Completion {
    var exception: Recorded

    /** `default(Completion)`: the field is null. */
    constructor ()
      ensures exception == Unset
      ensures !IsCompleted() && ThrowIfFailed() == None
    {
      exception := Unset;
    }

    /** True once any TryComplete has stored an outcome. */
    function IsCompleted(): (b: bool)
      reads this
      ensures b <==> exception != Unset
    {
      exception != Unset
    }

    /** Records `exception` (None standing for a null argument) if no call has done so before. */
    method TryComplete(exception: Option<Fault>)
      modifies this
      ensures this.exception == Settle(old(this.exception), exception)
    {
      // one atomic compare-and-swap: store only into a null cell
      if this.exception == Unset {
        this.exception := Outcome(exception);
      }
    }

    /**
     * The fault to raise, if any: None when the cell is still null or holds
     * the no-exception sentinel. Reading it changes nothing, so it replays
     * the same fault on every call.
     */
    function ThrowIfFailed(): (r: Option<Fault>)
      reads this
      ensures r.Some? <==> exception.Failed?
      ensures exception.Failed? ==> r.value == exception.fault
    {
      if exception != Unset && exception != CompletedNoException then Some(exception.fault) else None
    }
  }

  /**
   * A fresh completion, completed twice: the first argument wins, the cell
   * stays completed, and every ThrowIfFailed raises exactly the first
   * argument's fault (nothing when it was null).
   */
  method FirstOutcomeIsReplayed(first: Option<Fault>, later: Option<Fault>)
    returns (freshCompleted: bool, freshRaised: Option<Fault>, completed: bool, raised: Option<Fault>, raisedAgain: Option<Fault>)
    ensures !freshCompleted && freshRaised == None
    ensures completed
    ensures raised == first && raisedAgain == first
  {
    var c := new Completion();
    freshCompleted := c.IsCompleted();
    freshRaised := c.ThrowIfFailed();
    c.TryComplete(first);
    c.TryComplete(later);
    completed := c.IsCompleted();
    raised := c.ThrowIfFailed();
    raisedAgain := c.ThrowIfFailed();
  }
}

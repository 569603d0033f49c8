/**
 * `SequencedTaskRunnerHandle`: a scoped object that publishes a sequenced
 * task runner as the thread's current one. The thread-local `g_handle`
 * pointer is the shared `HandleSlot` object.
 */
module SequencedTaskRunnerHandles {
  import opened Wrappers
  import opened Sequences
  import opened TaskRunners

  /** `g_handle`: the live handle of the thread, if any. */
  class HandleSlot {
    var handle: Option<SequencedTaskRunnerHandle>

    /** Before any handle is built none is set. */
    constructor ()
      ensures handle == None
    {
      handle := None;
    }

    /** `IsSet`. */
    predicate IsSet()
      reads this
    {
      handle.Some?
    }

    /** `Get`: a handle must be set; its runner comes back. */
    function Get(): (r: SequencedTaskRunner)
      requires IsSet()
      reads this, handle.value
      ensures handle.value.runner == r
    {
      handle.value.runner
    }
  }

  class SequencedTaskRunnerHandle {
    const runner: SequencedTaskRunner
    const slot: HandleSlot

    /** The handle may only be built inside the runner's sequence and when no other handle is set. */
    constructor (runner: SequencedTaskRunner, slot: HandleSlot)
      requires runner.RunsTasksInCurrentSequence()
      requires !slot.IsSet()
      modifies slot
      ensures this.runner == runner && this.slot == slot
      ensures slot.handle == Some(this)
    {
      this.runner := runner;
      this.slot := slot;
      new;
      slot.handle := Some(this);
    }

    /** The destructor: still inside the runner's sequence, and this must be the set handle; none is set afterwards. */
    method Dispose()
      requires runner.RunsTasksInCurrentSequence()
      requires slot.handle == Some(this)
      modifies slot
      ensures !slot.IsSet()
    {
      slot.handle := None;
    }
  }

  /**
   * A handle's lifetime: once built, `IsSet` holds and `Get` returns its
   * runner; once disposed, no handle is set again.
   */
  method HandleScope(runner: SequencedTaskRunner, slot: HandleSlot) returns (seen: SequencedTaskRunner)
    requires runner.RunsTasksInCurrentSequence() && !slot.IsSet()
    modifies slot
    ensures seen == runner && !slot.IsSet()
  {
    var h := new SequencedTaskRunnerHandle(runner, slot);
    assert slot.IsSet();
    seen := slot.Get();
    h.Dispose();
  }
}

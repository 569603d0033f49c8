/**
 * `TaskRunnerImpl`, `SequencedTaskRunnerImpl` and `SingleThreadTaskRunnerImpl`:
 * each runner holds a weak reference to a pump and tags every task it posts.
 * A plain runner tags nothing, a sequenced runner tags its sequence, and a
 * single-thread runner tags its sequence and its executor.
 *
 * The weak reference is an `Option<MessagePump>`: `None` is a pump that no
 * longer exists, so `weak_ptr::lock` fails.
 */
module TaskRunners {
  import opened Wrappers
  import opened Sequences
  import opened MessagePumps

  /** The objects a post may change: the pump, when it is still alive. */
  function PumpFrame(pump: Option<MessagePump>): set<object>
  {
    if pump.Some? then {pump.value} else {}
  }

  /**
   * `DoPostTask`: queues the tagged task when the pump is alive and reports
   * the pump's answer; a dead pump queues nothing and reports failure.
   */
  method DoPostTask(pump: Option<MessagePump>, task: TaskId, sequenceId: Option<SequenceId>, executorId: Option<ExecutorId>)
    returns (posted: bool)
    modifies PumpFrame(pump)
    ensures pump.None? ==> !posted
    ensures pump.Some? ==>
              posted == !old(pump.value.stopped)
              && pump.value.pending == old(pump.value.pending) + (if posted then [PendingTask(Some(task), sequenceId, executorId)] else [])
              && pump.value.stopped == old(pump.value.stopped)
  {
    match pump
    case None =>
      posted := false;
    case Some(p) =>
      posted := p.QueuePendingTask(PendingTask(Some(task), sequenceId, executorId));
  }

  /** `DoRunsInCurrentSequence`: whether `s` is the sequence currently running on this thread. */
  function RunsInCurrentSequence(ctx: SequenceContext, s: SequenceId): (r: bool)
    reads ctx
    ensures r <==> ctx.current == Some(s)
  {
    ctx.IsCurrentSequence(s)
  }

  class TaskRunner {
    const pump: Option<MessagePump>

    constructor (pump: Option<MessagePump>)
      ensures this.pump == pump
    {
      this.pump := pump;
    }

    /** `PostTask`: the task is queued with no sequence and no executor. */
    method PostTask(task: TaskId) returns (posted: bool)
      modifies PumpFrame(pump)
      ensures pump.None? ==> !posted
      ensures pump.Some? ==>
                posted == !old(pump.value.stopped)
                && pump.value.pending == old(pump.value.pending) + (if posted then [PendingTask(Some(task), None, None)] else [])
    {
      posted := DoPostTask(pump, task, None, None);
    }
  }

  class SequencedTaskRunner {
    const pump: Option<MessagePump>
    const sequenceId: SequenceId
    const ctx: SequenceContext

    constructor (pump: Option<MessagePump>, sequenceId: SequenceId, ctx: SequenceContext)
      ensures this.pump == pump && this.sequenceId == sequenceId && this.ctx == ctx
    {
      this.pump := pump;
      this.sequenceId := sequenceId;
      this.ctx := ctx;
    }

    /** `PostTask`: the task is queued with this runner's sequence and no executor. */
    method PostTask(task: TaskId) returns (posted: bool)
      modifies PumpFrame(pump)
      ensures pump.None? ==> !posted
      ensures pump.Some? ==>
                posted == !old(pump.value.stopped)
                && pump.value.pending == old(pump.value.pending) + (if posted then [PendingTask(Some(task), Some(sequenceId), None)] else [])
    {
      posted := DoPostTask(pump, task, Some(sequenceId), None);
    }

    /** `RunsTasksInCurrentSequence`: true exactly while a task of this runner's sequence runs. */
    function RunsTasksInCurrentSequence(): (r: bool)
      reads this, ctx
      ensures r <==> ctx.current == Some(sequenceId)
    {
      RunsInCurrentSequence(ctx, sequenceId)
    }
  }

  class SingleThreadTaskRunner {
    const pump: Option<MessagePump>
    const sequenceId: SequenceId
    const executorId: ExecutorId
    const ctx: SequenceContext

    constructor (pump: Option<MessagePump>, sequenceId: SequenceId, executorId: ExecutorId, ctx: SequenceContext)
      ensures this.pump == pump && this.sequenceId == sequenceId && this.executorId == executorId && this.ctx == ctx
    {
      this.pump := pump;
      this.sequenceId := sequenceId;
      this.executorId := executorId;
      this.ctx := ctx;
    }

    /** `PostTask`: the task is queued with this runner's sequence and pinned to its executor. */
    method PostTask(task: TaskId) returns (posted: bool)
      modifies PumpFrame(pump)
      ensures pump.None? ==> !posted
      ensures pump.Some? ==>
                posted == !old(pump.value.stopped)
                && pump.value.pending == old(pump.value.pending) + (if posted then [PendingTask(Some(task), Some(sequenceId), Some(executorId))] else [])
    {
      posted := DoPostTask(pump, task, Some(sequenceId), Some(executorId));
    }

    /** `RunsTasksInCurrentSequence`: true exactly while a task of this runner's sequence runs. */
    function RunsTasksInCurrentSequence(): (r: bool)
      reads this, ctx
      ensures r <==> ctx.current == Some(sequenceId)
    {
      RunsInCurrentSequence(ctx, sequenceId)
    }
  }

  /**
   * What the tags buy: a task posted by a single-thread runner is handed out
   * only to that runner's executor, and never while another executor runs
   * the runner's sequence.
   */
  lemma SingleThreadTasksStayOnTheirExecutor(q: seq<PendingTask>, e: ExecutorId, active: seq<Option<SequenceId>>,
                                            task: TaskId, s: SequenceId, pinned: ExecutorId)
    requires e < |active|
    requires NextPendingTask(q, e, active).task == PendingTask(Some(task), Some(s), Some(pinned))
    ensures e == pinned
    ensures forall i :: 0 <= i < |active| && i != e ==> active[i] != Some(s)
  {
    NeverHandedOutWhenNotAllowed(q, e, active);
  }

  /** A task posted by a plain runner is never held back: it is allowed for every executor and any activity. */
  lemma UntaggedTasksAreAlwaysAllowed(task: TaskId, e: ExecutorId, active: seq<Option<SequenceId>>)
    ensures Allowed(PendingTask(Some(task), None, None), e, active)
  {
  }
}

/**
 * `MessagePumpImpl`: the FIFO list of pending tasks shared by a set of
 * executors (the threads of one thread or thread pool).
 *
 * A task is handed to an executor only if it is not pinned to another
 * executor and no executor is running a task of the same sequence. Task
 * bodies are ids. The mutex and condition variable are not modelled; where
 * `GetNextPendingTask` would wait for work, the model returns the empty task
 * (which is also what the source returns once the pump is stopped). A queued
 * task without a closure is dropped when taken, and the executor takes again.
 */
module MessagePumps {
  import opened Wrappers
  import opened Sequences

  /** A closure to run, abstracted to its identity. */
  type TaskId = nat

  /** `MessagePump::ExecutorId`, an index into the executor slots. */
  type ExecutorId = nat

  /** `MessagePump::PendingTask`; it converts to `true` iff it holds a task. */
  datatype PendingTask = PendingTask(task: Option<TaskId>, sequenceId: Option<SequenceId>, allowedExecutor: Option<ExecutorId>)
  {
    predicate IsSet() { task.Some? }
  }

  /** The value-initialised `PendingTask{}`. */
  const EmptyTask := PendingTask(None, None, None)

  /** `IsTaskFromSequenceCurrentlyProcessed_Locked`: some executor slot holds `s`. */
  function IsSequenceActive(active: seq<Option<SequenceId>>, s: SequenceId): (r: bool)
    ensures r <==> exists i :: 0 <= i < |active| && active[i] == Some(s)
  {
    if active == [] then false
    else active[0] == Some(s) || IsSequenceActive(active[1..], s)
  }

  /** The filter of `FindFirstAllowedPendingTaskIter_Locked`. */
  predicate Allowed(t: PendingTask, e: ExecutorId, active: seq<Option<SequenceId>>)
  {
    (t.allowedExecutor.None? || t.allowedExecutor.value == e)
    && (t.sequenceId.None? || !IsSequenceActive(active, t.sequenceId.value))
  }

  /** `find_if`: the index of the first allowed task, or `|q|` when there is none. */
  function FindFirstAllowed(q: seq<PendingTask>, e: ExecutorId, active: seq<Option<SequenceId>>): (k: nat)
    ensures k <= |q|
    ensures k < |q| ==> Allowed(q[k], e, active)
    ensures forall i :: 0 <= i < k ==> !Allowed(q[i], e, active)
  {
    if q == [] then 0
    else if Allowed(q[0], e, active) then 0
    else 1 + FindFirstAllowed(q[1..], e, active)
  }

  /** No sequence is active on two executors at once. */
  ghost predicate ExclusiveSequences(active: seq<Option<SequenceId>>)
  {
    forall i, j :: 0 <= i < |active| && 0 <= j < |active| && i != j && active[i].Some? ==> active[i] != active[j]
  }

  /** The outcome of one `GetNextPendingTask` call on the pump's state. */
  datatype Dequeue = Dequeue(task: PendingTask, pending: seq<PendingTask>, active: seq<Option<SequenceId>>)

  /**
   * `GetNextPendingTask_Locked`: the first task allowed for `e` is removed and
   * its sequence recorded in `e`'s slot; with none allowed, the empty task
   * comes back and nothing changes.
   */
  function TakeFirstAllowed(q: seq<PendingTask>, e: ExecutorId, active: seq<Option<SequenceId>>): (d: Dequeue)
    requires e < |active|
  {
    var k := FindFirstAllowed(q, e, active);
    if k == |q| then Dequeue(EmptyTask, q, active)
    else Dequeue(q[k], q[..k] + q[k + 1..], active[e := q[k].sequenceId])
  }

  /**
   * `GetNextPendingTask` without the wait: executor `e`'s slot is cleared and
   * a task is taken. If that task holds no closure (it converts to `false`),
   * the source waits until the pump is stopped or a task is allowed, then
   * takes once more; where it would wait, this second take finds nothing.
   */
  function NextPendingTask(q: seq<PendingTask>, e: ExecutorId, active: seq<Option<SequenceId>>): (d: Dequeue)
    requires e < |active|
  {
    var first := TakeFirstAllowed(q, e, active[e := None]);
    if first.task.IsSet() then first else TakeFirstAllowed(first.pending, e, first.active)
  }

  /**
   * The task taken is the first in FIFO order that is allowed for `e`; only it
   * leaves the list, and the others keep their order. With nothing allowed,
   * the empty task comes back and nothing changes. Afterwards `e`'s slot holds
   * the taken task's sequence and no other slot changes.
   */
  lemma TakeFirstAllowedIsFirstAllowed(q: seq<PendingTask>, e: ExecutorId, active: seq<Option<SequenceId>>)
    requires e < |active|
    ensures var d := TakeFirstAllowed(q, e, active);
            (d.task == EmptyTask && d.pending == q && d.active == active
             && forall i :: 0 <= i < |q| ==> !Allowed(q[i], e, active))
            || (exists k :: (0 <= k < |q| && d.task == q[k] && Allowed(q[k], e, active)
                             && (forall i :: 0 <= i < k ==> !Allowed(q[i], e, active))
                             && d.pending == q[..k] + q[k + 1..] && d.active == active[e := q[k].sequenceId]))
    ensures |TakeFirstAllowed(q, e, active).active| == |active|
    ensures forall i :: 0 <= i < |active| && i != e ==> TakeFirstAllowed(q, e, active).active[i] == active[i]
  {
  }

  /**
   * The three ways `GetNextPendingTask` ends, from the first allowed task `k`
   * once `e`'s slot is free: none is allowed and nothing changes but the slot;
   * task `k` holds a closure and is handed out; or task `k` holds none, is
   * dropped with its sequence left in `e`'s slot, and the first task allowed
   * after that (if any) is handed out in its place.
   */
  lemma NextPendingTaskRetriesAfterEmptyTask(q: seq<PendingTask>, e: ExecutorId, active: seq<Option<SequenceId>>)
    requires e < |active|
    ensures var cleared := active[e := None];
            var k := FindFirstAllowed(q, e, cleared);
            var d := NextPendingTask(q, e, active);
            (k == |q| ==> d == Dequeue(EmptyTask, q, cleared))
            && (k < |q| && q[k].IsSet() ==> d == Dequeue(q[k], q[..k] + q[k + 1..], cleared[e := q[k].sequenceId]))
            && (k < |q| && !q[k].IsSet() ==>
                  var rest := q[..k] + q[k + 1..];
                  var slots := cleared[e := q[k].sequenceId];
                  var k2 := FindFirstAllowed(rest, e, slots);
                  (k2 == |rest| ==> d == Dequeue(EmptyTask, rest, slots))
                  && (k2 < |rest| ==> d == Dequeue(rest[k2], rest[..k2] + rest[k2 + 1..], slots[e := rest[k2].sequenceId])))
  {
  }

  /** A queued task without a closure does not hide the task behind it. */
  lemma EmptyTaskIsSkipped(e: ExecutorId, active: seq<Option<SequenceId>>, t: TaskId)
    requires e < |active|
    ensures var d := NextPendingTask([EmptyTask, PendingTask(Some(t), None, None)], e, active);
            d.task == PendingTask(Some(t), None, None) && d.pending == [] && d.active == active[e := None]
  {
    NextPendingTaskRetriesAfterEmptyTask([EmptyTask, PendingTask(Some(t), None, None)], e, active);
  }

  /** Taking a task never lets two executors run the same sequence. */
  lemma TakeFirstAllowedKeepsExclusive(q: seq<PendingTask>, e: ExecutorId, active: seq<Option<SequenceId>>)
    requires e < |active| && ExclusiveSequences(active)
    ensures ExclusiveSequences(TakeFirstAllowed(q, e, active).active)
  {
    var k := FindFirstAllowed(q, e, active);
    if k < |q| && q[k].sequenceId.Some? {
      var next := active[e := q[k].sequenceId];
      forall i, j | 0 <= i < |next| && 0 <= j < |next| && i != j && next[i].Some?
        ensures next[i] != next[j]
      {
        if i == e {
          assert !IsSequenceActive(active, q[k].sequenceId.value);
          assert active[j] == next[j];
        } else if j == e {
          assert !IsSequenceActive(active, q[k].sequenceId.value);
          assert active[i] == next[i];
        }
      }
    }
  }

  /** Clearing an executor's slot keeps sequences exclusive. */
  lemma ClearSlotKeepsExclusive(active: seq<Option<SequenceId>>, e: ExecutorId)
    requires e < |active| && ExclusiveSequences(active)
    ensures ExclusiveSequences(active[e := None])
  {
  }

  /** Handing out a task never lets two executors run the same sequence. */
  lemma NextPendingTaskKeepsExclusive(q: seq<PendingTask>, e: ExecutorId, active: seq<Option<SequenceId>>)
    requires e < |active| && ExclusiveSequences(active)
    ensures ExclusiveSequences(NextPendingTask(q, e, active).active)
  {
    ClearSlotKeepsExclusive(active, e);
    var first := TakeFirstAllowed(q, e, active[e := None]);
    TakeFirstAllowedKeepsExclusive(q, e, active[e := None]);
    TakeFirstAllowedIsFirstAllowed(q, e, active[e := None]);
    if !first.task.IsSet() {
      TakeFirstAllowedKeepsExclusive(first.pending, e, first.active);
    }
  }

  /** A task pinned to another executor, or of a sequence running elsewhere, is never handed to `e`. */
  lemma NeverHandedOutWhenNotAllowed(q: seq<PendingTask>, e: ExecutorId, active: seq<Option<SequenceId>>)
    requires e < |active|
    ensures var t := NextPendingTask(q, e, active).task;
            t != EmptyTask ==>
              (t.allowedExecutor.None? || t.allowedExecutor == Some(e))
              && (t.sequenceId.Some? ==> forall i :: 0 <= i < |active| && i != e ==> active[i] != t.sequenceId)
  {
    var cleared := active[e := None];
    var first := TakeFirstAllowed(q, e, cleared);
    TakeFirstAllowedIsFirstAllowed(q, e, cleared);
    var (q', slots) := if first.task.IsSet() then (q, cleared) else (first.pending, first.active);
    TakeFirstAllowedIsFirstAllowed(q', e, slots);
    assert NextPendingTask(q, e, active) == TakeFirstAllowed(q', e, slots);
    var k := FindFirstAllowed(q', e, slots);
    if k < |q'| && q'[k].sequenceId.Some? {
      forall i | 0 <= i < |active| && i != e ensures active[i] != q'[k].sequenceId {
        assert slots[i] == active[i];
      }
    }
  }

  class MessagePump {
    /** `pending_tasks_`, front first. */
    var pending: seq<PendingTask>
    /** `active_sequences_`: the sequence each executor is running, if any. */
    const active: array<Option<SequenceId>>
    var stopped: bool

    ghost predicate Valid()
      reads this, active
    {
      ExclusiveSequences(active[..])
    }

    /** A pump for `executors` executors: nothing queued, nothing running, not stopped. */
    constructor (executors: nat)
      ensures Valid() && fresh(active)
      ensures pending == [] && !stopped && active.Length == executors
      ensures forall i :: 0 <= i < executors ==> active[i] == None
    {
      pending := [];
      stopped := false;
      active := new Option<SequenceId>[executors](_ => None);
    }

    /** `QueuePendingTask`: appended at the back unless the pump is stopped. */
    method QueuePendingTask(t: PendingTask) returns (queued: bool)
      modifies this
      ensures queued == !old(stopped)
      ensures pending == if queued then old(pending) + [t] else old(pending)
      ensures stopped == old(stopped)
    {
      queued := false;
      if !stopped {
        pending := pending + [t];
        queued := true;
      }
    }

    /** `Stop`: a non-empty last task is queued only by the first call; the pump is stopped afterwards. */
    method Stop(lastTask: PendingTask)
      modifies this
      ensures pending == if !old(stopped) && lastTask.IsSet() then old(pending) + [lastTask] else old(pending)
      ensures stopped
    {
      if !stopped && lastTask.IsSet() {
        pending := pending + [lastTask];
      }
      stopped := true;
    }

    /** `HasAllowedPendingTasks_Locked`. */
    predicate HasAllowedPendingTasks(e: ExecutorId)
      reads this, active
    {
      FindFirstAllowed(pending, e, active[..]) < |pending|
    }

    /** `GetNextPendingTask_Locked`: takes the first task allowed for `e`, without touching `e`'s slot first. */
    method GetNextPendingTaskLocked(e: ExecutorId) returns (t: PendingTask)
      requires Valid() && e < active.Length
      modifies this, active
      ensures Valid()
      ensures var d := TakeFirstAllowed(old(pending), e, old(active[..]));
              t == d.task && pending == d.pending && active[..] == d.active
      ensures stopped == old(stopped)
    {
      TakeFirstAllowedKeepsExclusive(pending, e, active[..]);
      var k := FindFirstAllowed(pending, e, active[..]);
      if k == |pending| {
        t := EmptyTask;
      } else {
        t := pending[k];
        pending := pending[..k] + pending[k + 1..];
        active[e] := t.sequenceId;
      }
    }

    /** `GetNextPendingTask`, without the wait. */
    method GetNextPendingTask(e: ExecutorId) returns (t: PendingTask)
      requires Valid() && e < active.Length
      modifies this, active
      ensures Valid()
      ensures var d := NextPendingTask(old(pending), e, old(active[..]));
              t == d.task && pending == d.pending && active[..] == d.active
      ensures stopped == old(stopped)
    {
      ClearSlotKeepsExclusive(active[..], e);
      active[e] := None;
      t := GetNextPendingTaskLocked(e);
      if !t.IsSet() {
        // The source waits here until the pump is stopped or `HasAllowedPendingTasks(e)`;
        // when neither holds, the take below finds nothing.
        t := GetNextPendingTaskLocked(e);
      }
    }
  }
}

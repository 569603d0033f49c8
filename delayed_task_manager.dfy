/**
 * `DelayedTaskManager`: holds tasks until their start time and then hands
 * each one to the pump it was posted for.
 *
 * The `std::priority_queue` is a list kept sorted by start time, earliest
 * first; tasks with equal start times keep their arrival order, an order
 * the standard container leaves unspecified. The scheduler thread, its
 * timed waits and the clock are not modelled: the scheduling step takes the
 * current `TimeTicks` reading as a parameter. The wake-up notification is
 * returned as a flag.
 */
module DelayedTasks {
  import opened Wrappers
  import opened Int64
  import opened Deltas
  import opened Ticks
  import opened MessagePumps

  /** `DelayedTask`; `pump` is `None` once the target pump no longer exists. */
  datatype DelayedTask = DelayedTask(startTime: TimeTicks, pump: Option<MessagePump>, pendingTask: PendingTask)

  /** `DelayedTask::operator<`, reversed so that the heap's top is the earliest task. */
  predicate Less(a: DelayedTask, b: DelayedTask)
  {
    Ticks.Gt(a.startTime, b.startTime)
  }

  /** Earliest start time first. */
  ghost predicate Sorted(q: seq<DelayedTask>)
  {
    forall i, j :: 0 <= i < j < |q| ==> q[i].startTime.us <= q[j].startTime.us
  }

  /** The front of a sorted queue is the heap's top: no task is greater under `operator<`. */
  lemma FrontIsTop(q: seq<DelayedTask>)
    requires Sorted(q) && q != []
    ensures forall i :: 0 <= i < |q| ==> !Less(q[0], q[i])
  {
  }

  /** `push`: the task goes after every task that does not start later. */
  function Insert(q: seq<DelayedTask>, t: DelayedTask): (r: seq<DelayedTask>)
    ensures |r| == |q| + 1
    ensures multiset(r) == multiset(q) + multiset{t}
    ensures r[0] == t || (q != [] && r[0] == q[0])
    ensures Sorted(q) ==> Sorted(r)
  {
    if q == [] then [t]
    else if t.startTime.us < q[0].startTime.us then [t] + q
    else
      var rest := Insert(q[1..], t);
      InsertBehindFront(q, t, rest);
      [q[0]] + rest
  }

  /** The recursive step of `Insert`: the front stays in front of the tail with `t` inserted. */
  lemma InsertBehindFront(q: seq<DelayedTask>, t: DelayedTask, rest: seq<DelayedTask>)
    requires q != [] && q[0].startTime.us <= t.startTime.us
    requires multiset(rest) == multiset(q[1..]) + multiset{t}
    requires Sorted(q[1..]) ==> Sorted(rest)
    ensures multiset([q[0]] + rest) == multiset(q) + multiset{t}
    ensures Sorted(q) ==> Sorted([q[0]] + rest)
  {
    assert q == [q[0]] + q[1..];
    if Sorted(q) {
      forall j | 0 <= j < |rest| ensures q[0].startTime.us <= rest[j].startTime.us {
        assert rest[j] in multiset(q[1..]) + multiset{t};
      }
    }
  }

  /** The new task becomes the front exactly when it starts strictly before the old front. */
  lemma InsertFront(q: seq<DelayedTask>, t: DelayedTask)
    ensures (q == [] || t.startTime.us < q[0].startTime.us) ==> Insert(q, t)[0] == t
    ensures q != [] && t.startTime.us >= q[0].startTime.us ==> Insert(q, t)[0] == q[0]
  {
  }

  /** The pumps that tasks of `q` were posted for. */
  function Pumps(q: seq<DelayedTask>): set<MessagePump>
  {
    set i | 0 <= i < |q| && q[i].pump.Some? :: q[i].pump.value
  }

  /** The tasks of `ts` meant for pump `p`, in order. */
  function Deliveries(p: MessagePump, ts: seq<DelayedTask>): (r: seq<PendingTask>)
    ensures |r| <= |ts|
  {
    if ts == [] then []
    else (if ts[0].pump == Some(p) then [ts[0].pendingTask] else []) + Deliveries(p, ts[1..])
  }

  lemma {:induction false} DeliveriesAppend(p: MessagePump, ts: seq<DelayedTask>, t: DelayedTask)
    ensures Deliveries(p, ts + [t]) == Deliveries(p, ts) + (if t.pump == Some(p) then [t.pendingTask] else [])
  {
    if ts == [] {
      assert ts + [t] == [t];
    } else {
      var head := if ts[0].pump == Some(p) then [ts[0].pendingTask] else [];
      var last := if t.pump == Some(p) then [t.pendingTask] else [];
      assert (ts + [t])[0] == ts[0] && (ts + [t])[1..] == ts[1..] + [t];
      DeliveriesAppend(p, ts[1..], t);
      assert Deliveries(p, ts + [t]) == head + (Deliveries(p, ts[1..]) + last);
      assert head + (Deliveries(p, ts[1..]) + last) == (head + Deliveries(p, ts[1..])) + last;
    }
  }

  /** `NextTaskRemainingDelayLocked`: none for an empty queue, else the time left until the front task. */
  function NextTaskRemainingDelay(q: seq<DelayedTask>, now: TimeTicks): (r: Option<TimeDelta>)
    requires q != [] ==> InRange(q[0].startTime.us as int - now.us as int)
    ensures q == [] <==> r.None?
    ensures r.Some? ==> r.value.us as int == q[0].startTime.us as int - now.us as int
    ensures r.Some? ==> AddDelta(now, r.value) == q[0].startTime
    ensures r.Some? && Sorted(q) ==> forall i :: 0 <= i < |q| ==> r.value.us as int <= q[i].startTime.us as int - now.us as int
  {
    if q == [] then None else Some(Diff(q[0].startTime, now))
  }

  lemma SortedSlices(q: seq<DelayedTask>, n: nat)
    requires Sorted(q) && n <= |q|
    ensures Sorted(q[..n]) && Sorted(q[n..])
  {
    assert forall i :: 0 <= i < n ==> q[..n][i] == q[i];
    assert forall i :: 0 <= i < |q| - n ==> q[n..][i] == q[n + i];
  }

  /** Queues `t` on its pump if that pump still exists; no other pump changes. */
  method ForwardToPump(t: DelayedTask, ghost pumps: set<MessagePump>)
    requires t.pump.Some? ==> t.pump.value in pumps
    modifies pumps
    ensures forall p :: p in pumps ==>
              p.stopped == old(p.stopped)
              && p.pending == old(p.pending) + (if !old(p.stopped) && t.pump == Some(p) then [t.pendingTask] else [])
  {
    if t.pump.Some? {
      var queued := t.pump.value.QueuePendingTask(t.pendingTask);
    }
  }

  class DelayedTaskManager {
    /** `delayed_tasks_`, earliest first. */
    var tasks: seq<DelayedTask>
    var stopped: bool

    ghost predicate Valid()
      reads this
    {
      Sorted(tasks)
    }

    constructor ()
      ensures Valid() && tasks == [] && !stopped
    {
      tasks := [];
      stopped := false;
    }

    /** The destructor's first step: no task is accepted afterwards. */
    method Stop()
      modifies this
      ensures stopped && tasks == old(tasks)
    {
      stopped := true;
    }

    /**
     * `QueueDelayedTask`: ignored once stopped; otherwise the task is queued,
     * and the scheduler must wake up when it becomes the new front.
     */
    method QueueDelayedTask(t: DelayedTask) returns (wake: bool)
      requires Valid()
      modifies this
      ensures Valid() && stopped == old(stopped)
      ensures old(stopped) ==> tasks == old(tasks) && !wake
      ensures !old(stopped) ==> tasks == Insert(old(tasks), t)
      ensures wake <==> !old(stopped) && (old(tasks) == [] || t.startTime.us < old(tasks)[0].startTime.us)
    {
      if stopped {
        return false;
      }
      wake := tasks == [] || t.startTime.us < tasks[0].startTime.us;
      tasks := Insert(tasks, t);
    }

    /**
     * `ScheduleAllReadyTasksLocked`: pops every task that starts no later
     * than `now`, in start-time order, and queues each on its pump if the
     * pump still exists. The tasks still queued all start after `now`.
     */
    method ScheduleAllReadyTasks(now: TimeTicks) returns (released: seq<DelayedTask>)
      requires Valid()
      modifies this, Pumps(tasks)
      ensures Valid() && stopped == old(stopped)
      ensures released + tasks == old(tasks)
      ensures forall i :: 0 <= i < |released| ==> released[i].startTime.us <= now.us
      ensures forall i :: 0 <= i < |tasks| ==> tasks[i].startTime.us > now.us
      ensures Sorted(released)
      ensures forall p :: p in Pumps(old(tasks)) ==>
                p.pending == old(p.pending) + (if old(p.stopped) then [] else Deliveries(p, released))
                && p.stopped == old(p.stopped)
    {
      ghost var q0 := tasks;
      ghost var n := 0;
      released := [];
      while tasks != [] && tasks[0].startTime.us <= now.us
        invariant 0 <= n <= |q0| && tasks == q0[n..] && released == q0[..n] && stopped == old(stopped)
        invariant forall i :: 0 <= i < n ==> q0[i].startTime.us <= now.us
        invariant forall p :: p in Pumps(q0) ==>
                    p.pending == old(p.pending) + (if old(p.stopped) then [] else Deliveries(p, released))
                    && p.stopped == old(p.stopped)
        decreases |tasks|
      {
        var first := tasks[0];
        assert first == q0[n];
        label before:
        ForwardToPump(first, Pumps(q0));
        forall p | p in Pumps(q0)
          ensures p.pending == old(p.pending) + (if old(p.stopped) then [] else Deliveries(p, released + [first]))
        {
          DeliveriesAppend(p, released, first);
          assert p.pending == old@before(p.pending) + (if !old@before(p.stopped) && first.pump == Some(p) then [first.pendingTask] else []);
        }
        assert q0[..n + 1] == q0[..n] + [first];
        released := released + [first];
        tasks := tasks[1..];
        n := n + 1;
      }
      assert q0 == q0[..n] + q0[n..];
      SortedSlices(q0, n);
    }
  }
}

/**
 * `MessageLoopImpl`: one executor's loop that takes tasks from a shared
 * `MessagePump` and runs them, marking the task's sequence as current while
 * it runs.
 *
 * Running a task appends a record of it to `log`. The only other effect a
 * task can have here is to stop this loop: the tasks in `quitTasks` do what a
 * `RunLoop` quit closure does and call `Stop`.
 */
module MessageLoops {
  import opened Wrappers
  import opened Sequences
  import opened MessagePumps

  /** One task run: which task, and which sequence was current while it ran. */
  datatype TaskRun = TaskRun(task: TaskId, sequence: Option<SequenceId>)

  function Record(t: PendingTask): TaskRun
    requires t.IsSet()
  {
    TaskRun(t.task.value, t.sequenceId)
  }

  function Records(ts: seq<PendingTask>): (r: seq<TaskRun>)
    requires forall i :: 0 <= i < |ts| ==> ts[i].IsSet()
    ensures |r| == |ts|
    ensures forall i :: 0 <= i < |ts| ==> r[i] == Record(ts[i])
  {
    if ts == [] then [] else [Record(ts[0])] + Records(ts[1..])
  }

  lemma RecordsAppend(a: seq<PendingTask>, b: seq<PendingTask>)
    requires forall i :: 0 <= i < |a| ==> a[i].IsSet()
    requires forall i :: 0 <= i < |b| ==> b[i].IsSet()
    ensures forall i :: 0 <= i < |a + b| ==> (a + b)[i].IsSet()
    ensures Records(a + b) == Records(a) + Records(b)
  {
    assert forall i :: 0 <= i < |a + b| ==> (a + b)[i] == if i < |a| then a[i] else b[i - |a|];
  }

  /** The tasks a run of `RunOnce` calls handed out, and the pump state it leaves. */
  datatype Drained = Drained(ran: seq<PendingTask>, pending: seq<PendingTask>, active: seq<Option<SequenceId>>)

  /**
   * A task handed out leaves the list shorter; a list left as long as it was
   * means nothing was allowed for `e` and only its slot was cleared.
   */
  lemma NextPendingTaskShrinks(q: seq<PendingTask>, e: ExecutorId, active: seq<Option<SequenceId>>)
    requires e < |active|
    ensures NextPendingTask(q, e, active).task.IsSet() ==> |NextPendingTask(q, e, active).pending| < |q|
    ensures |NextPendingTask(q, e, active).pending| <= |q|
    ensures |NextPendingTask(q, e, active).active| == |active|
    ensures |NextPendingTask(q, e, active).pending| == |q| ==>
              NextPendingTask(q, e, active) == Dequeue(EmptyTask, q, active[e := None])
              && FindFirstAllowed(q, e, active[e := None]) == |q|
  {
    var first := TakeFirstAllowed(q, e, active[e := None]);
    if !first.task.IsSet() && first.pending != q {
      assert |TakeFirstAllowed(first.pending, e, first.active).pending| <= |first.pending| < |q|;
    }
  }

  /**
   * Repeated `RunOnce` from the pump state (`q`, `active`): the tasks handed
   * out to `e` before the first empty result. With `untilQuit`, the run also
   * ends right after a task of `quit`, which stops the loop.
   */
  function Drain(q: seq<PendingTask>, e: ExecutorId, active: seq<Option<SequenceId>>, quit: set<TaskId>, untilQuit: bool): (r: Drained)
    requires e < |active|
    ensures forall i :: 0 <= i < |r.ran| ==> r.ran[i].IsSet()
    ensures |r.active| == |active|
    ensures |r.pending| + |r.ran| <= |q|
    decreases |q|
  {
    NextPendingTaskShrinks(q, e, active);
    var d := NextPendingTask(q, e, active);
    if !d.task.IsSet() then Drained([], d.pending, d.active)
    else if untilQuit && d.task.task.value in quit then Drained([d.task], d.pending, d.active)
    else
      var rest := Drain(d.pending, e, d.active, quit, untilQuit);
      Drained([d.task] + rest.ran, rest.pending, rest.active)
  }

  /** One step of `Drain`, unfolded. */
  lemma DrainStep(q: seq<PendingTask>, e: ExecutorId, active: seq<Option<SequenceId>>, quit: set<TaskId>, untilQuit: bool)
    requires e < |active|
    ensures var d := NextPendingTask(q, e, active);
            var r := Drain(q, e, active, quit, untilQuit);
            (!d.task.IsSet() ==> r == Drained([], d.pending, d.active))
            && (d.task.IsSet() && untilQuit && d.task.task.value in quit ==> r == Drained([d.task], d.pending, d.active))
            && (d.task.IsSet() && !(untilQuit && d.task.task.value in quit) ==>
                  var rest := Drain(d.pending, e, d.active, quit, untilQuit);
                  r == Drained([d.task] + rest.ran, rest.pending, rest.active))
  {
  }

  /**
   * The ghost bookkeeping of one `RunOnce` inside a draining loop: `done` ran
   * so far, `rest` is what is still to run from (`q`, `active`), and `d` is
   * what `RunOnce` takes from the pump.
   */
  lemma AdvanceDrain(full: Drained, done: seq<PendingTask>, rest: Drained, q: seq<PendingTask>, e: ExecutorId,
                     active: seq<Option<SequenceId>>, quit: set<TaskId>, untilQuit: bool, d: Dequeue)
    returns (done': seq<PendingTask>, rest': Drained)
    requires e < |active| && d == NextPendingTask(q, e, active)
    requires forall i :: 0 <= i < |done| ==> done[i].IsSet()
    requires full == Drained(done + rest.ran, rest.pending, rest.active)
    requires rest == Drain(q, e, active, quit, untilQuit)
    ensures forall i :: 0 <= i < |done'| ==> done'[i].IsSet()
    ensures full == Drained(done' + rest'.ran, rest'.pending, rest'.active)
    ensures !d.task.IsSet() ==> done' == done && rest' == Drained([], d.pending, d.active)
    ensures d.task.IsSet() ==> done' == done + [d.task]
    ensures d.task.IsSet() && untilQuit && d.task.task.value in quit ==> rest' == Drained([], d.pending, d.active)
    ensures d.task.IsSet() && !(untilQuit && d.task.task.value in quit) ==> rest' == Drain(d.pending, e, d.active, quit, untilQuit)
    ensures |d.pending| + (if d.task.IsSet() then 1 else 0) <= |q|
    ensures Records(done') == Records(done) + (if d.task.IsSet() then [Record(d.task)] else [])
    ensures RunsQuitTask(done', quit) <==> RunsQuitTask(done, quit) || (d.task.IsSet() && d.task.task.value in quit)
  {
    NextPendingTaskShrinks(q, e, active);
    DrainStep(q, e, active, quit, untilQuit);
    if d.task.IsSet() {
      AppendRun(done, d.task, quit);
      done', rest' := AdvanceDrainRan(full, done, rest, q, e, active, quit, untilQuit, d);
    } else {
      done', rest' := done, rest;
    }
  }

  /** `AdvanceDrain` when `RunOnce` runs a task. */
  lemma AdvanceDrainRan(full: Drained, done: seq<PendingTask>, rest: Drained, q: seq<PendingTask>, e: ExecutorId,
                        active: seq<Option<SequenceId>>, quit: set<TaskId>, untilQuit: bool, d: Dequeue)
    returns (done': seq<PendingTask>, rest': Drained)
    requires e < |active| && |d.active| == |active| && d.task.IsSet()
    requires full == Drained(done + rest.ran, rest.pending, rest.active)
    requires untilQuit && d.task.task.value in quit ==> rest == Drained([d.task], d.pending, d.active)
    requires !(untilQuit && d.task.task.value in quit) ==>
               var next := Drain(d.pending, e, d.active, quit, untilQuit);
               rest == Drained([d.task] + next.ran, next.pending, next.active)
    ensures full == Drained(done' + rest'.ran, rest'.pending, rest'.active)
    ensures done' == done + [d.task]
    ensures untilQuit && d.task.task.value in quit ==> rest' == Drained([], d.pending, d.active)
    ensures !(untilQuit && d.task.task.value in quit) ==> rest' == Drain(d.pending, e, d.active, quit, untilQuit)
  {
    rest' := if untilQuit && d.task.task.value in quit then Drained([], d.pending, d.active)
             else Drain(d.pending, e, d.active, quit, untilQuit);
    assert rest.ran == [d.task] + rest'.ran;
    assert done + rest.ran == (done + [d.task]) + rest'.ran;
    done' := done + [d.task];
  }

  /** Appending a run task to `done` appends its record and may make it a quitting run. */
  lemma AppendRun(done: seq<PendingTask>, t: PendingTask, quit: set<TaskId>)
    requires t.IsSet() && forall i :: 0 <= i < |done| ==> done[i].IsSet()
    ensures forall i :: 0 <= i < |done + [t]| ==> (done + [t])[i].IsSet()
    ensures Records(done + [t]) == Records(done) + [Record(t)]
    ensures RunsQuitTask(done + [t], quit) <==> RunsQuitTask(done, quit) || t.task.value in quit
  {
    RecordsAppend(done, [t]);
    RunsQuitTaskAppend(done, t, quit);
  }

  /** Whether running `ts` stops the loop. */
  predicate RunsQuitTask(ts: seq<PendingTask>, quit: set<TaskId>)
  {
    exists i :: 0 <= i < |ts| && ts[i].task.Some? && ts[i].task.value in quit
  }

  lemma RunsQuitTaskAppend(ts: seq<PendingTask>, t: PendingTask, quit: set<TaskId>)
    requires t.IsSet()
    ensures RunsQuitTask(ts + [t], quit) <==> RunsQuitTask(ts, quit) || t.task.value in quit
  {
    assert forall i :: 0 <= i < |ts| ==> (ts + [t])[i] == ts[i];
    assert (ts + [t])[|ts|] == t;
  }

  /** A run that stops at a quit task ends with that task, and no earlier task quits. */
  lemma {:induction false} DrainUntilQuitStopsAtFirstQuit(q: seq<PendingTask>, e: ExecutorId, active: seq<Option<SequenceId>>, quit: set<TaskId>)
    requires e < |active|
    ensures var r := Drain(q, e, active, quit, true);
            forall i :: 0 <= i < |r.ran| - 1 ==> r.ran[i].task.value !in quit
    ensures var r := Drain(q, e, active, quit, true);
            RunsQuitTask(r.ran, quit) ==> r.ran[|r.ran| - 1].task.value in quit
    ensures var r := Drain(q, e, active, quit, true);
            !RunsQuitTask(r.ran, quit) ==> r == Drain(q, e, active, quit, false)
    decreases |q|
  {
    NextPendingTaskShrinks(q, e, active);
    DrainStep(q, e, active, quit, true);
    DrainStep(q, e, active, quit, false);
    var d := NextPendingTask(q, e, active);
    var r := Drain(q, e, active, quit, true);
    if !d.task.IsSet() {
      assert r == Drained([], d.pending, d.active) == Drain(q, e, active, quit, false);
    } else if d.task.task.value in quit {
      assert r.ran == [d.task];
      assert RunsQuitTask(r.ran, quit) by { assert r.ran[0] == d.task; }
    } else {
      DrainUntilQuitStopsAtFirstQuit(d.pending, e, d.active, quit);
      var rest := Drain(d.pending, e, d.active, quit, true);
      QuitAfterNonQuit(d.task, rest.ran, quit);
    }
  }

  /** Running a non-quit task in front of `ran` moves the first quit task, if any, one place on. */
  lemma QuitAfterNonQuit(t: PendingTask, ran: seq<PendingTask>, quit: set<TaskId>)
    requires t.task.Some? && t.task.value !in quit
    requires forall i :: 0 <= i < |ran| ==> ran[i].task.Some?
    requires forall i :: 0 <= i < |ran| - 1 ==> ran[i].task.value !in quit
    requires RunsQuitTask(ran, quit) ==> ran[|ran| - 1].task.value in quit
    ensures forall i :: 0 <= i < |[t] + ran| ==> ([t] + ran)[i].task.Some?
    ensures forall i :: 0 <= i < |[t] + ran| - 1 ==> ([t] + ran)[i].task.value !in quit
    ensures RunsQuitTask([t] + ran, quit) ==> ([t] + ran)[|ran|].task.value in quit
    ensures RunsQuitTask([t] + ran, quit) <==> RunsQuitTask(ran, quit)
  {
    var r := [t] + ran;
    assert forall i :: 1 <= i < |r| ==> r[i] == ran[i - 1];
    if RunsQuitTask(r, quit) {
      var i :| 0 <= i < |r| && r[i].task.Some? && r[i].task.value in quit;
      assert i > 0 && ran[i - 1] == r[i];
    }
    if RunsQuitTask(ran, quit) {
      var i :| 0 <= i < |ran| && ran[i].task.Some? && ran[i].task.value in quit;
      assert r[i + 1] == ran[i];
    }
  }

  /** Draining keeps the pump's exclusive-sequence invariant. */
  lemma {:induction false} DrainKeepsExclusive(q: seq<PendingTask>, e: ExecutorId, active: seq<Option<SequenceId>>, quit: set<TaskId>, untilQuit: bool)
    requires e < |active| && ExclusiveSequences(active)
    ensures ExclusiveSequences(Drain(q, e, active, quit, untilQuit).active)
    decreases |q|
  {
    NextPendingTaskShrinks(q, e, active);
    NextPendingTaskKeepsExclusive(q, e, active);
    var d := NextPendingTask(q, e, active);
    if d.task.IsSet() && !(untilQuit && d.task.task.value in quit) {
      DrainKeepsExclusive(d.pending, e, d.active, quit, untilQuit);
    }
  }

  class MessageLoop {
    const executor: ExecutorId
    const pump: MessagePump
    /** The thread's sequence state. */
    const ctx: SequenceContext
    /** Tasks that stop this loop when they run. */
    const quitTasks: set<TaskId>
    var isStopped: bool
    /** The tasks run by this loop, in order. */
    var log: seq<TaskRun>

    /** Between tasks the pump is consistent, the executor has a slot, and no sequence is current. */
    ghost predicate Valid()
      reads this, pump, pump.active, ctx
    {
      pump.Valid() && executor < pump.active.Length && ctx.current.None?
    }

    constructor (executor: ExecutorId, pump: MessagePump, ctx: SequenceContext, quitTasks: set<TaskId>)
      ensures this.executor == executor && this.pump == pump && this.ctx == ctx && this.quitTasks == quitTasks
      ensures !isStopped && log == []
    {
      this.executor := executor;
      this.pump := pump;
      this.ctx := ctx;
      this.quitTasks := quitTasks;
      isStopped := false;
      log := [];
    }

    /** `Stop`: the loop is stopped and the pump is told to stop. */
    method Stop()
      modifies this, pump
      ensures isStopped && pump.stopped
      ensures pump.pending == old(pump.pending) && log == old(log)
    {
      isStopped := true;
      pump.Stop(EmptyTask);
    }

    /** The closure itself: its run is recorded, and a quit task stops the loop. */
    method Execute(task: TaskId)
      modifies this, pump
      ensures log == old(log) + [TaskRun(task, ctx.current)]
      ensures isStopped == (old(isStopped) || task in quitTasks)
      ensures pump.stopped == (old(pump.stopped) || task in quitTasks)
      ensures pump.pending == old(pump.pending)
    {
      log := log + [TaskRun(task, ctx.current)];
      if task in quitTasks {
        Stop();
      }
    }

    /** `RunTask`: a task of a sequence runs with that sequence current, which is cleared afterwards. */
    method RunTask(t: PendingTask)
      requires t.IsSet() && ctx.current.None?
      modifies this, pump, ctx
      ensures log == old(log) + [Record(t)]
      ensures ctx.current.None? && ctx.issued == old(ctx.issued) && ctx.nextId == old(ctx.nextId)
      ensures isStopped == (old(isStopped) || t.task.value in quitTasks)
      ensures pump.stopped == (old(pump.stopped) || t.task.value in quitTasks)
      ensures pump.pending == old(pump.pending)
    {
      if t.sequenceId.Some? {
        ctx.EnterSequence(t.sequenceId.value);
        Execute(t.task.value);
        ctx.LeaveSequence();
      } else {
        Execute(t.task.value);
      }
    }

    /** `RunOnce`: runs the next task the pump hands out, if any, and says whether it did. */
    method RunOnce() returns (ran: bool)
      requires Valid()
      modifies this, pump, pump.active, ctx
      ensures Valid()
      ensures var d := NextPendingTask(old(pump.pending), executor, old(pump.active[..]));
              ran == d.task.IsSet()
              && pump.pending == d.pending && pump.active[..] == d.active
              && log == old(log) + (if ran then [Record(d.task)] else [])
              && isStopped == (old(isStopped) || (ran && d.task.task.value in quitTasks))
      ensures ctx.issued == old(ctx.issued) && ctx.nextId == old(ctx.nextId)
    {
      var t := pump.GetNextPendingTask(executor);
      if t.IsSet() {
        RunTask(t);
        ran := true;
      } else {
        ran := false;
      }
    }

    /**
     * One `RunOnce` of a draining loop, with the loop's ghost bookkeeping:
     * `done` ran so far and `rest` is what is still to run. `quitRan` says
     * whether the task run was a quit task.
     */
    method RunOnceDraining(ghost full: Drained, ghost done: seq<PendingTask>, ghost rest: Drained, ghost untilQuit: bool,
                           ghost log0: seq<TaskRun>)
      returns (ran: bool, ghost done': seq<PendingTask>, ghost rest': Drained, ghost quitRan: bool)
      requires Valid()
      requires forall i :: 0 <= i < |done| ==> done[i].IsSet()
      requires log == log0 + Records(done)
      requires full == Drained(done + rest.ran, rest.pending, rest.active)
      requires rest == Drain(pump.pending, executor, pump.active[..], quitTasks, untilQuit)
      modifies this, pump, pump.active, ctx
      ensures Valid()
      ensures forall i :: 0 <= i < |done'| ==> done'[i].IsSet()
      ensures log == log0 + Records(done')
      ensures isStopped == (old(isStopped) || quitRan)
      ensures RunsQuitTask(done', quitTasks) <==> RunsQuitTask(done, quitTasks) || quitRan
      ensures quitRan ==> ran
      ensures full == Drained(done' + rest'.ran, rest'.pending, rest'.active)
      ensures ran && !(untilQuit && quitRan) ==> rest' == Drain(pump.pending, executor, pump.active[..], quitTasks, untilQuit)
      ensures !ran || (untilQuit && quitRan) ==> rest' == Drained([], pump.pending, pump.active[..])
      ensures |pump.pending| + (if ran then 1 else 0) <= |old(pump.pending)|
    {
      ghost var d := NextPendingTask(pump.pending, executor, pump.active[..]);
      done', rest' := AdvanceDrain(full, done, rest, pump.pending, executor, pump.active[..], quitTasks, untilQuit, d);
      quitRan := d.task.IsSet() && d.task.task.value in quitTasks;
      ran := RunOnce();
    }

    /** `RunUntilIdle`: every task the pump hands out before its first empty result runs, in order. */
    method RunUntilIdle()
      requires Valid()
      modifies this, pump, pump.active, ctx
      ensures Valid()
      ensures var r := Drain(old(pump.pending), executor, old(pump.active[..]), quitTasks, false);
              log == old(log) + Records(r.ran)
              && pump.pending == r.pending && pump.active[..] == r.active
              && isStopped == (old(isStopped) || RunsQuitTask(r.ran, quitTasks))
    {
      ghost var full := Drain(pump.pending, executor, pump.active[..], quitTasks, false);
      ghost var rest := full;
      ghost var done: seq<PendingTask> := [];
      ghost var log0 := log;
      ghost var stopped0 := isStopped;
      var ran := true;
      while ran
        invariant Valid()
        invariant forall i :: 0 <= i < |done| ==> done[i].IsSet()
        invariant log == log0 + Records(done)
        invariant isStopped == (stopped0 || RunsQuitTask(done, quitTasks))
        invariant full == Drained(done + rest.ran, rest.pending, rest.active)
        invariant ran ==> rest == Drain(pump.pending, executor, pump.active[..], quitTasks, false)
        invariant !ran ==> rest == Drained([], pump.pending, pump.active[..])
        decreases |pump.pending| + (if ran then 1 else 0)
      {
        ghost var quitRan;
        ran, done, rest, quitRan := RunOnceDraining(full, done, rest, false, log0);
      }
      assert done + rest.ran == done;
    }

    /** `RunUntilIdleOrStop`: like `RunUntilIdle`, but no task runs once the loop is stopped. */
    method RunUntilIdleOrStop()
      requires Valid()
      modifies this, pump, pump.active, ctx
      ensures Valid()
      ensures old(isStopped) ==> log == old(log) && pump.pending == old(pump.pending) && isStopped
      ensures !old(isStopped) ==>
                var r := Drain(old(pump.pending), executor, old(pump.active[..]), quitTasks, true);
                log == old(log) + Records(r.ran)
                && pump.pending == r.pending && pump.active[..] == r.active
                && isStopped == RunsQuitTask(r.ran, quitTasks)
    {
      if isStopped {
        return;
      }
      ghost var full := Drain(pump.pending, executor, pump.active[..], quitTasks, true);
      ghost var rest := full;
      ghost var done: seq<PendingTask> := [];
      ghost var log0 := log;
      var ran := true;
      while !isStopped && ran
        invariant Valid()
        invariant forall i :: 0 <= i < |done| ==> done[i].IsSet()
        invariant log == log0 + Records(done)
        invariant isStopped == RunsQuitTask(done, quitTasks)
        invariant full == Drained(done + rest.ran, rest.pending, rest.active)
        invariant !isStopped && ran ==> rest == Drain(pump.pending, executor, pump.active[..], quitTasks, true)
        invariant isStopped || !ran ==> rest == Drained([], pump.pending, pump.active[..])
        decreases |pump.pending| + (if ran then 1 else 0)
      {
        ghost var quitRan;
        ran, done, rest, quitRan := RunOnceDraining(full, done, rest, true, log0);
      }
      assert done + rest.ran == done;
    }

    /**
     * `Run`: rounds of `RunUntilIdleOrStop` until the loop is stopped. When a
     * round ends with the loop running and nothing allowed for this executor,
     * the source waits for another thread (or, on a pump stopped behind the
     * loop's back, spins); the model returns `blocked` there instead.
     */
    method Run() returns (blocked: bool)
      requires Valid()
      modifies this, pump, pump.active, ctx
      ensures Valid()
      ensures !blocked ==> isStopped
      ensures blocked ==> !isStopped && FindFirstAllowed(pump.pending, executor, pump.active[..]) == |pump.pending|
                          && pump.active[executor] == None
      ensures old(isStopped) ==> !blocked && log == old(log)
      ensures |old(log)| <= |log| && log[..|old(log)|] == old(log)
    {
      blocked := false;
      if isStopped {
        return;
      }
      while !isStopped
        invariant Valid()
        invariant |old(log)| <= |log| && log[..|old(log)|] == old(log)
        decreases |pump.pending|
      {
        ghost var q, act := pump.pending, pump.active[..];
        var before := |pump.pending|;
        RunUntilIdleOrStop();
        if !isStopped && |pump.pending| == before {
          DrainIdleMeansNothingAllowed(q, executor, act, quitTasks);
          blocked := true;
          return;
        }
        DrainLength(q, executor, act, quitTasks);
      }
    }
  }

  /** A round that hands out nothing leaves nothing allowed for the executor, whose slot is free. */
  lemma DrainIdleMeansNothingAllowed(q: seq<PendingTask>, e: ExecutorId, active: seq<Option<SequenceId>>, quit: set<TaskId>)
    requires e < |active|
    requires |Drain(q, e, active, quit, true).pending| == |q|
    ensures var r := Drain(q, e, active, quit, true);
            r.ran == [] && r.pending == q && r.active == active[e := None]
            && FindFirstAllowed(r.pending, e, r.active) == |r.pending| && r.active[e] == None
  {
    NextPendingTaskShrinks(q, e, active);
    var d := NextPendingTask(q, e, active);
    if d.task.IsSet() {
      NextPendingTaskShrinks(d.pending, e, d.active);
    }
  }

  /** A round that ends with the loop running and the list unchanged handed out nothing; otherwise the list shrank. */
  lemma DrainLength(q: seq<PendingTask>, e: ExecutorId, active: seq<Option<SequenceId>>, quit: set<TaskId>)
    requires e < |active|
    ensures |Drain(q, e, active, quit, true).pending| <= |q|
  {
  }
}

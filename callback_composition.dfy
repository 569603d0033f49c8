/**
 * Composing callbacks: `ThenHelper::Invoke` runs a first callback and
 * hands what it returns to a second one, and
 * `PostTaskAndReplyWithResultHelper` does the same across two posted tasks
 * by storing the task's result in between.
 */
module CallbackComposition {
  import opened Wrappers
  import opened Callbacks
  import opened CallbackObjects
  import opened Journals

  /** What the second callback receives after the first returned `o`: nothing if the first returns `void`, its result otherwise. */
  function SecondArguments(first: Signature, o: Outcome): (args: seq<Value>)
    ensures first.ret == Void ==> args == []
    ensures first.ret != Void ==> args == [o.result]
  {
    if first.ret == Void then [] else [o.result]
  }

  /**
   * `ThenHelper::Invoke(first, second, args...)`: `first` runs with the
   * arguments, then `second` runs; the calls of both are made in that order
   * and the composition returns what `second` returns.
   */
  function ThenInvoke(first: Callback, second: Callback, args: seq<Value>, live: set<nat>): (r: Option<Outcome>)
    ensures r.Some? ==> RunImpl(first.impl, args, live).Some?
    ensures r.Some? ==> |r.value.calls| >= |RunImpl(first.impl, args, live).value.calls|
    ensures r.Some? ==> r.value.calls[..|RunImpl(first.impl, args, live).value.calls|] == RunImpl(first.impl, args, live).value.calls
  {
    match RunImpl(first.impl, args, live)
    case None => None
    case Some(o1) =>
      match RunImpl(second.impl, SecondArguments(first.sig, o1), live)
      case None => None
      case Some(o2) => Some(Outcome(o1.calls + o2.calls, o2.result))
  }

  /** With a `void` first function, the first call gets the arguments and the second is called with none. */
  lemma ThenAfterVoid(f: Function, g: Function, args: seq<Value>, live: set<nat>)
    requires f.sig.ret == Void
    ensures ThenInvoke(Callback(f.sig, FreeFunction(f, [])), Callback(g.sig, FreeFunction(g, [])), args, live)
            == Some(Outcome([Call(f.id, args), Call(g.id, [])], Apply(g, []).result))
  {
    var none: seq<Value> := [];
    assert none + args == args && none + none == none;
    assert [Call(f.id, args)] + [Call(g.id, [])] == [Call(f.id, args), Call(g.id, [])];
  }

  /** With a non-`void` first function, the second function is called with exactly what the first returned. */
  lemma ThenPassesResult(f: Function, g: Function, args: seq<Value>, live: set<nat>)
    requires f.sig.ret != Void
    ensures ThenInvoke(Callback(f.sig, FreeFunction(f, [])), Callback(g.sig, FreeFunction(g, [])), args, live)
            == Some(Outcome([Call(f.id, args), Call(g.id, [Ret(f.id, args)])], Apply(g, [Ret(f.id, args)]).result))
  {
    assert [] + args == args;
    assert [] + [Ret(f.id, args)] == [Ret(f.id, args)];
    assert [Call(f.id, args)] + [Call(g.id, [Ret(f.id, args)])] == [Call(f.id, args), Call(g.id, [Ret(f.id, args)])];
  }

  /**
   * The second callback does not see the arguments: two runs whose first
   * callbacks return the same value make the same second-half calls.
   */
  lemma SecondSeesOnlyTheResult(first: Callback, second: Callback, a: seq<Value>, b: seq<Value>, live: set<nat>)
    requires RunImpl(first.impl, a, live).Some? && RunImpl(first.impl, b, live).Some?
    requires RunImpl(first.impl, a, live).value.result == RunImpl(first.impl, b, live).value.result
    requires ThenInvoke(first, second, a, live).Some?
    ensures ThenInvoke(first, second, b, live).Some?
    ensures ThenInvoke(first, second, a, live).value.result == ThenInvoke(first, second, b, live).value.result
    ensures ThenInvoke(first, second, a, live).value.calls[|RunImpl(first.impl, a, live).value.calls|..]
            == ThenInvoke(first, second, b, live).value.calls[|RunImpl(first.impl, b, live).value.calls|..]
  {
    var oa := RunImpl(first.impl, a, live).value;
    var ob := RunImpl(first.impl, b, live).value;
    assert SecondArguments(first.sig, oa) == SecondArguments(first.sig, ob);
    var o2 := RunImpl(second.impl, SecondArguments(first.sig, oa), live).value;
    assert (oa.calls + o2.calls)[|oa.calls|..] == o2.calls;
    assert (ob.calls + o2.calls)[|ob.calls|..] == o2.calls;
  }

  /**
   * `Invoke` on two once callbacks, which it takes by value: both are run
   * and so both are left empty, and the journal records what `ThenInvoke`
   * describes.
   */
  method InvokeThen(first: OnceCallback, second: OnceCallback, args: seq<Value>, live: set<nat>, journal: Journal<Call>)
    returns (result: Value)
    requires first != second
    requires |args| == |first.sig.params|
    requires |second.sig.params| == (if first.sig.ret == Void then 0 else 1)
    requires ThenInvoke(Callback(first.sig, first.impl), Callback(second.sig, second.impl), args, live).Some?
    modifies first, second, journal
    ensures first.impl == Null && second.impl == Null
    ensures var r := ThenInvoke(Callback(first.sig, old(first.impl)), Callback(second.sig, old(second.impl)), args, live).value;
            journal.entries == old(journal.entries) + r.calls && result == r.result
  {
    label before:
    var firstResult := first.Run(args, live, journal);
    ghost var o1 := RunImpl(old@before(first.impl), args, live).value;
    var secondArgs := if first.sig.ret == Void then [] else [firstResult];
    assert secondArgs == SecondArguments(first.sig, o1);
    ghost var o2 := RunImpl(second.impl, secondArgs, live).value;
    result := second.Run(secondArgs, live, journal);
    assert journal.entries == old(journal.entries) + o1.calls + o2.calls;
    assert old(journal.entries) + o1.calls + o2.calls == old(journal.entries) + (o1.calls + o2.calls);
  }

  /**
   * The state shared by a posted task and its reply: the task's result
   * once the task has run.
   */
  class PostTaskAndReplyWithResultHelper {
    /** `result`; `None` until the task has run. */
    var result: Option<Value>

    constructor ()
      ensures result == None
    {
      result := None;
    }

    /** `ExecuteTaskAndStoreResultIn`: runs the task once, with no arguments, and stores what it returned. */
    method ExecuteTaskAndStoreResultIn(task: OnceCallback, live: set<nat>, journal: Journal<Call>)
      requires task.sig.ret != Void && |task.sig.params| == 0
      requires RunImpl(task.impl, [], live).Some?
      modifies this, task, journal
      ensures result == Some(RunImpl(old(task.impl), [], live).value.result)
      ensures task.impl == Null
      ensures journal.entries == old(journal.entries) + RunImpl(old(task.impl), [], live).value.calls
    {
      var r := task.Run([], live, journal);
      result := Some(r);
    }

    /** `ExecuteReplyWithTaskResult`: runs the reply once with the stored result, which must be there. */
    method ExecuteReplyWithTaskResult(reply: OnceCallback, live: set<nat>, journal: Journal<Call>)
      requires result.Some? && |reply.sig.params| == 1
      requires RunImpl(reply.impl, [result.value], live).Some?
      modifies reply, journal
      ensures reply.impl == Null
      ensures journal.entries == old(journal.entries) + RunImpl(old(reply.impl), [result.value], live).value.calls
    {
      var _ := reply.Run([result.value], live, journal);
    }
  }

  /**
   * A task posted with a reply: the reply receives what the task returned,
   * so the pair makes the calls of the task composed with the reply.
   */
  method PostTaskAndReplyWithResult(task: OnceCallback, reply: OnceCallback, live: set<nat>, journal: Journal<Call>)
    requires task != reply
    requires task.sig.ret != Void && |task.sig.params| == 0 && |reply.sig.params| == 1
    requires ThenInvoke(Callback(task.sig, task.impl), Callback(reply.sig, reply.impl), [], live).Some?
    modifies task, reply, journal
    ensures task.impl == Null && reply.impl == Null
    ensures journal.entries
            == old(journal.entries) + ThenInvoke(Callback(task.sig, old(task.impl)), Callback(reply.sig, old(reply.impl)), [], live).value.calls
  {
    var o1 := RunImpl(task.impl, [], live).value;
    var o2 := RunImpl(reply.impl, [o1.result], live).value;
    var helper := new PostTaskAndReplyWithResultHelper();
    helper.ExecuteTaskAndStoreResultIn(task, live, journal);
    helper.ExecuteReplyWithTaskResult(reply, live, journal);
    assert journal.entries == old(journal.entries) + o1.calls + o2.calls;
    assert old(journal.entries) + o1.calls + o2.calls == old(journal.entries) + (o1.calls + o2.calls);
  }
}

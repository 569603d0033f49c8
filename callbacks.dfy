/**
 * What running a callback does, on values.
 *
 * A callback's implementation (`impl_`) is a tree: a function with bound
 * arguments, a member function on an object or on a `WeakPtr`, a callback
 * with extra arguments bound in front, or a functor from `Bind` with its
 * bound arguments. A null `impl_` is `Null`. Types are names; a function is
 * an id with a signature, and calling it is observable as a `Call` record.
 * Its result is a symbolic `Ret` value, or `Unit` when it returns `void`.
 * A `WeakPtr` argument is a `Weak` value naming the control block it was
 * issued on. Whether that block is still live when the callback runs is
 * passed in as the set `live`; `Null`, an invalid instance or a
 * dereference of an invalid `WeakPtr` make the run undefined (`None`).
 */
module Callbacks {
  import opened Wrappers

  /** A type: `void` or a named type. */
  datatype Type = Void | Named(name: nat)

  /** `ReturnType(ArgumentTypes...)`. */
  datatype Signature = Signature(ret: Type, params: seq<Type>)

  /** A function or method, identified by an id, with its declared signature (without the instance). */
  datatype Function = Function(id: nat, sig: Signature)

  datatype Value =
    | Unit
    | Int(i: int)
    | Str(s: string)
    /** A raw, non-null pointer to an object. */
    | Ptr(target: nat)
    /** A `WeakPtr` constructed from `nullptr`. */
    | NullWeak
    /** A `WeakPtr` to `target` on control block `block`. */
    | Weak(target: nat, block: nat)
    /** What the function `fn` returned for `args`. */
    | Ret(fn: nat, args: seq<Value>)

  /** `operator bool` of a `WeakPtr` value at the time of the run. */
  predicate IsValidWeak(v: Value, live: set<nat>)
  {
    v.Weak? && v.block in live
  }

  /** One call of a function, with the arguments it received. */
  datatype Call = Call(fn: nat, args: seq<Value>)

  /** The calls a run made, in order, and the value it returned. */
  datatype Outcome = Outcome(calls: seq<Call>, result: Value)

  /** Calling `fn` with `args`: one call, and a result exactly when `fn` is not `void`. */
  function Apply(fn: Function, args: seq<Value>): (o: Outcome)
    ensures o.calls == [Call(fn.id, args)]
    ensures o.result == Unit <==> fn.sig.ret == Void
    ensures o.result != Unit ==> o.result == Ret(fn.id, args)
  {
    Outcome([Call(fn.id, args)], if fn.sig.ret == Void then Unit else Ret(fn.id, args))
  }

  /** The run that calls nothing: a skipped `WeakPtr` call. */
  const Skipped := Outcome([], Unit)

  /** What `std::invoke` can call: a function pointer (or captureless lambda), a member function pointer, or `IgnoreResult` of one. */
  datatype Callable =
    | FunctionPointer(fn: Function)
    | MemberPointer(fn: Function)
    | IgnoreResult(callable: Callable)

  /** A functor handed to `Bind`: a callable, or a callback that is consumed or reused. */
  datatype Functor =
    | Plain(callable: Callable)
    | OnceFunctor(callback: Callback)
    | RepeatingFunctor(callback: Callback)

  /** The implementations behind `impl_`. */
  datatype Impl =
    | Null
    | FreeFunction(fn: Function, bound: seq<Value>)
    | MemberFunction(fn: Function, instance: nat, bound: seq<Value>)
    | MemberFunctionWeakPtr(fn: Function, weak: Value, bound: seq<Value>)
    | BoundCallback(callback: Impl, bound: seq<Value>)
    | FunctorCallback(functor: Functor, bound: seq<Value>)

  /** A callback: its signature and its implementation. */
  datatype Callback = Callback(sig: Signature, impl: Impl)

  /** The underlying member function pointer, looking through `IgnoreResult`. */
  predicate CallsMember(c: Callable)
  {
    match c
    case FunctionPointer(_) => false
    case MemberPointer(_) => true
    case IgnoreResult(inner) => CallsMember(inner)
  }

  /** `std::invoke(callable, args...)`: a member call dereferences its first argument, which must be a raw pointer or a valid `WeakPtr`. */
  function InvokeCallable(c: Callable, args: seq<Value>, live: set<nat>): (r: Option<Outcome>)
    ensures c.FunctionPointer? ==> r == Some(Apply(c.fn, args))
    ensures c.MemberPointer? ==>
              (r.Some? <==> |args| > 0 && (args[0].Ptr? || IsValidWeak(args[0], live)))
    ensures c.IgnoreResult? ==> r.Some? == InvokeCallable(c.callable, args, live).Some?
    ensures c.IgnoreResult? && r.Some? ==> r.value.result == Unit
  {
    match c
    case FunctionPointer(fn) => Some(Apply(fn, args))
    case MemberPointer(fn) =>
      if |args| > 0 && (args[0].Ptr? || IsValidWeak(args[0], live)) then Some(Apply(fn, [Ptr(args[0].target)] + args[1..]))
      else None
    case IgnoreResult(inner) =>
      match InvokeCallable(inner, args, live)
      case None => None
      case Some(o) => Some(Outcome(o.calls, Unit))
  }

  /**
   * The `WeakPtr` check before a member call: the instance is the first
   * bound argument and is a `WeakPtr` that tests false. The check looks
   * through `IgnoreResult`; `SkipsAsWritten` is the check as written.
   */
  predicate Skips(c: Callable, bound: seq<Value>, live: set<nat>)
  {
    CallsMember(c) && |bound| > 0 && (bound[0].Weak? || bound[0].NullWeak?) && !IsValidWeak(bound[0], live)
  }

  /** The check as written, applied only when the functor itself is a member function pointer. */
  predicate SkipsAsWritten(c: Callable, bound: seq<Value>, live: set<nat>)
  {
    c.MemberPointer? && |bound| > 0 && (bound[0].Weak? || bound[0].NullWeak?) && !IsValidWeak(bound[0], live)
  }

  /**
   * `impl_->Run(args...)`. Bound arguments go in front of the run
   * arguments; a member function gets its object in front of both.
   */
  function RunImpl(impl: Impl, args: seq<Value>, live: set<nat>): (r: Option<Outcome>)
    decreases impl
  {
    match impl
    case Null => None
    case FreeFunction(fn, bound) => Some(Apply(fn, bound + args))
    case MemberFunction(fn, instance, bound) => Some(Apply(fn, [Ptr(instance)] + bound + args))
    case MemberFunctionWeakPtr(fn, weak, bound) =>
      if IsValidWeak(weak, live) then Some(Apply(fn, [Ptr(weak.target)] + bound + args)) else Some(Skipped)
    case BoundCallback(callback, bound) => RunImpl(callback, bound + args, live)
    case FunctorCallback(functor, bound) =>
      match functor
      case OnceFunctor(cb) => RunImpl(cb.impl, bound + args, live)
      case RepeatingFunctor(cb) => RunImpl(cb.impl, bound + args, live)
      case Plain(c) => if Skips(c, bound, live) then Some(Skipped) else InvokeCallable(c, bound + args, live)
  }

  /** A run of a free function with bound arguments calls it once, with the bound arguments first. */
  lemma FreeFunctionPrependsBound(fn: Function, bound: seq<Value>, args: seq<Value>, live: set<nat>)
    ensures RunImpl(FreeFunction(fn, bound), args, live).Some?
    ensures RunImpl(FreeFunction(fn, bound), args, live).value.calls == [Call(fn.id, bound + args)]
  {
  }

  /**
   * Binding `a` and then `b` in front of a callback runs like binding
   * `a + b` at once: the inner callback receives `a`, then `b`, then the
   * run arguments.
   */
  lemma {:induction false} BoundTwiceIsBoundOnce(impl: Impl, a: seq<Value>, b: seq<Value>, args: seq<Value>, live: set<nat>)
    ensures RunImpl(BoundCallback(BoundCallback(impl, a), b), args, live) == RunImpl(BoundCallback(impl, a + b), args, live)
  {
    assert a + (b + args) == (a + b) + args;
  }

  /** A `WeakPtr` member call runs exactly while the pointer is valid, and otherwise calls nothing. */
  lemma WeakCallRunsIffValid(fn: Function, weak: Value, bound: seq<Value>, args: seq<Value>, live: set<nat>)
    ensures RunImpl(MemberFunctionWeakPtr(fn, weak, bound), args, live).Some?
    ensures RunImpl(MemberFunctionWeakPtr(fn, weak, bound), args, live).value.calls != [] <==> IsValidWeak(weak, live)
  {
  }

  /** What a by-value parameter leaves behind in the argument it was moved from. */
  function MoveOut(v: Value): (r: Value)
    ensures v.Str? ==> r == Str([])
    ensures v.Weak? || v.NullWeak? ==> r == NullWeak
    ensures !(v.Str? || v.Weak? || v.NullWeak?) ==> r == v
  {
    match v
    case Str(_) => Str([])
    case Weak(_, _) => NullWeak
    case NullWeak => NullWeak
    case _ => v
  }

  /**
   * The bound arguments of a functor callback after one run, as written:
   * they are passed on as rvalues even when the callback is repeating,
   * so every by-value parameter moves out of them.
   */
  function BoundAfterRunAsWritten(bound: seq<Value>): (r: seq<Value>)
    ensures |r| == |bound|
    ensures forall i :: 0 <= i < |bound| ==> r[i] == MoveOut(bound[i])
  {
    if bound == [] then [] else [MoveOut(bound[0])] + BoundAfterRunAsWritten(bound[1..])
  }

  /**
   * A repeating functor callback with a bound string: the first run passes
   * the string, the state it leaves passes an empty string to the second run.
   */
  lemma SecondRunSeesMovedFromArgument(fn: Function, live: set<nat>)
    ensures RunImpl(FunctorCallback(Plain(FunctionPointer(fn)), [Str("x")]), [], live).value.calls
            == [Call(fn.id, [Str("x")])]
    ensures RunImpl(FunctorCallback(Plain(FunctionPointer(fn)), BoundAfterRunAsWritten([Str("x")])), [], live).value.calls
            == [Call(fn.id, [Str([])])]
  {
    assert [Str("x")] + [] == [Str("x")];
    assert BoundAfterRunAsWritten([Str("x")]) == [Str([])];
  }

  /**
   * `IgnoreResult` of a member function bound to an invalidated `WeakPtr`,
   * as written: the check does not look through `IgnoreResult`, so the call
   * dereferences the invalid pointer.
   */
  lemma IgnoredMemberOnInvalidWeakIsNotSkippedAsWritten(fn: Function, target: nat, block: nat, live: set<nat>)
    requires block !in live
    ensures !SkipsAsWritten(IgnoreResult(MemberPointer(fn)), [Weak(target, block)], live)
    ensures InvokeCallable(IgnoreResult(MemberPointer(fn)), [Weak(target, block)], live) == None
  {
  }

  /** With the check looking through `IgnoreResult`, that call is skipped like a plain member call. */
  lemma IgnoredMemberOnInvalidWeakIsSkipped(fn: Function, target: nat, block: nat, args: seq<Value>, live: set<nat>)
    requires block !in live
    ensures RunImpl(FunctorCallback(Plain(IgnoreResult(MemberPointer(fn))), [Weak(target, block)]), args, live) == Some(Skipped)
    ensures RunImpl(FunctorCallback(Plain(MemberPointer(fn)), [Weak(target, block)]), args, live) == Some(Skipped)
  {
    assert CallsMember(IgnoreResult(MemberPointer(fn)));
  }

  /** `Clone()` on `impl_`, as written: `None` stands for the null dereference when the callback is empty. */
  function CloneAsWritten(impl: Impl): (r: Option<Impl>)
    ensures r.None? <==> impl == Null
    ensures r.Some? ==> r.value == impl
  {
    if impl == Null then None else Some(impl)
  }

  /** Copying an empty `RepeatingCallback` as written dereferences its null `impl_`. */
  lemma CopyOfEmptyDereferencesNull()
    ensures CloneAsWritten(Null) == None
  {
  }
}

/**
 * `BindOnce`, `BindRepeating` and the generic `Bind`: partial application.
 * Binding `k` arguments to a functor of arity `n` needs `k <= n`; the bound
 * arguments take the first `k` parameter types and the result is a
 * callback over the remaining `n - k`, with the same return type. Running
 * it passes the bound arguments in front of the run arguments.
 */
module Binding {
  import opened Wrappers
  import opened Callbacks
  import opened CallbackObjects
  import opened TypeTraits

  /** `FunctorTraits`: return type and parameter types, the count being their length. */
  datatype Traits = Traits(ret: Type, params: seq<Type>)

  /** The function a callable calls, looking through `IgnoreResult`. */
  function Underlying(c: Callable): Function
  {
    match c
    case FunctionPointer(fn) => fn
    case MemberPointer(fn) => fn
    case IgnoreResult(inner) => Underlying(inner)
  }

  /** The parameter types of a callable: a member function takes its instance, of type `instance`, first. */
  function CallableParams(c: Callable, instance: Type): (ps: seq<Type>)
    ensures |ps| == |Underlying(c).sig.params| + (if CallsMember(c) then 1 else 0)
  {
    match c
    case FunctionPointer(fn) => fn.sig.params
    case MemberPointer(fn) => [instance] + fn.sig.params
    case IgnoreResult(inner) => CallableParams(inner, instance)
  }

  /** The return type of a callable: `IgnoreResult` makes it `void`. */
  function CallableReturn(c: Callable): (t: Type)
    ensures c.IgnoreResult? ==> t == Void
  {
    match c
    case FunctionPointer(fn) => fn.sig.ret
    case MemberPointer(fn) => fn.sig.ret
    case IgnoreResult(_) => Void
  }

  /**
   * `FunctorTraits<Functor, InstancePointer>`, where `instance` stands for
   * the type of the first argument bound.
   */
  function FunctorTraits(f: Functor, instance: Type): (t: Traits)
  {
    match f
    case Plain(c) => Traits(CallableReturn(c), CallableParams(c, instance))
    case OnceFunctor(cb) => Traits(cb.sig.ret, cb.sig.params)
    case RepeatingFunctor(cb) => Traits(cb.sig.ret, cb.sig.params)
  }

  /** A member function's arity is its parameter count plus one, the instance coming first. */
  lemma MemberArity(fn: Function, instance: Type)
    ensures FunctorTraits(Plain(MemberPointer(fn)), instance).params == [instance] + fn.sig.params
    ensures |FunctorTraits(Plain(MemberPointer(fn)), instance).params| == 1 + |fn.sig.params|
  {
  }

  /** `IgnoreResult` keeps the parameters and makes the return type `void`. */
  lemma IgnoreResultTraits(c: Callable, instance: Type)
    ensures FunctorTraits(Plain(IgnoreResult(c)), instance).params == FunctorTraits(Plain(c), instance).params
    ensures FunctorTraits(Plain(IgnoreResult(c)), instance).ret == Void
  {
  }

  /** The signature of a bind result: the same return type over the parameters after the first `k`. */
  function ResultSignature(t: Traits, k: nat): (s: Signature)
    requires k <= |t.params|
    ensures s.ret == t.ret
    ensures HeadTypesRange(k, t.params) + s.params == t.params
  {
    HeadAndRestAreWhole(k, t.params);
    Signature(t.ret, TypesRange(k, |t.params| - k, t.params))
  }

  /** `detail::Bind`: the bound arguments are stored with the functor. */
  function Bind(functor: Functor, instance: Type, args: seq<Value>): (c: Callback)
    requires |args| <= |FunctorTraits(functor, instance).params|
    ensures c.sig == ResultSignature(FunctorTraits(functor, instance), |args|)
    ensures |args| + |c.sig.params| == |FunctorTraits(functor, instance).params|
  {
    Callback(ResultSignature(FunctorTraits(functor, instance), |args|), FunctorCallback(functor, args))
  }

  /** A function bound with `Bind` calls the function with the bound arguments, then the run arguments. */
  lemma BindCallsWithBoundFirst(fn: Function, instance: Type, args: seq<Value>, rest: seq<Value>, live: set<nat>)
    requires |args| <= |fn.sig.params|
    ensures RunImpl(Bind(Plain(FunctionPointer(fn)), instance, args).impl, rest, live) == Some(Apply(fn, args + rest))
  {
  }

  /**
   * A member function bound with `Bind` to a `WeakPtr` instance is skipped
   * exactly when the pointer tests false; otherwise it is called on the
   * object, with the other bound arguments, then the run arguments.
   */
  lemma BindOnWeakRunsIffValid(fn: Function, instance: Type, weak: Value, args: seq<Value>, rest: seq<Value>, live: set<nat>)
    requires weak.Weak? || weak.NullWeak?
    requires |args| <= |fn.sig.params|
    ensures IsValidWeak(weak, live) ==>
              RunImpl(Bind(Plain(MemberPointer(fn)), instance, [weak] + args).impl, rest, live)
              == Some(Apply(fn, [Ptr(weak.target)] + args + rest))
    ensures !IsValidWeak(weak, live) ==>
              RunImpl(Bind(Plain(MemberPointer(fn)), instance, [weak] + args).impl, rest, live) == Some(Skipped)
  {
    var bound := [weak] + args;
    assert bound[0] == weak;
    if IsValidWeak(weak, live) {
      assert (bound + rest)[0] == weak;
      assert (bound + rest)[1..] == args + rest;
      assert [Ptr(weak.target)] + (args + rest) == [Ptr(weak.target)] + args + rest;
    }
  }

  /** `IgnoreResult` of a function makes the same calls and returns nothing. */
  lemma IgnoreResultSameCalls(fn: Function, instance: Type, args: seq<Value>, rest: seq<Value>, live: set<nat>)
    requires |args| <= |fn.sig.params|
    ensures RunImpl(Bind(Plain(IgnoreResult(FunctionPointer(fn))), instance, args).impl, rest, live)
            == Some(Outcome([Call(fn.id, args + rest)], Unit))
  {
  }

  /** A callback bound with `Bind` runs that callback with the bound arguments in front, whether it is consumed or reused. */
  lemma BindOfCallbackPrepends(cb: Callback, instance: Type, args: seq<Value>, rest: seq<Value>, live: set<nat>)
    requires |args| <= |cb.sig.params|
    ensures RunImpl(Bind(OnceFunctor(cb), instance, args).impl, rest, live) == RunImpl(cb.impl, args + rest, live)
    ensures RunImpl(Bind(RepeatingFunctor(cb), instance, args).impl, rest, live) == RunImpl(cb.impl, args + rest, live)
  {
  }

  /** The signature `BindOnce`/`BindRepeating` give to `fn` with `k` arguments bound. */
  function BindSignature(fn: Function, k: nat): (s: Signature)
    requires k <= |fn.sig.params|
    ensures s.ret == fn.sig.ret && fn.sig.params[..k] + s.params == fn.sig.params
  {
    HeadAndRestAreWhole(k, fn.sig.params);
    Signature(fn.sig.ret, TypesRange(k, |fn.sig.params| - k, fn.sig.params))
  }

  /** `BindOnce`/`BindRepeating` of a function pointer or captureless lambda. */
  function BindFunction(fn: Function, args: seq<Value>): (c: Callback)
    requires |args| <= |fn.sig.params|
    ensures c.sig == BindSignature(fn, |args|)
    ensures forall rest, live :: RunImpl(c.impl, rest, live).Some?
  {
    Callback(BindSignature(fn, |args|), FreeFunction(fn, args))
  }

  /** `BindOnce`/`BindRepeating` of a member function on a raw pointer: the arity does not count the instance. */
  function BindMember(fn: Function, instance: nat, args: seq<Value>): (c: Callback)
    requires |args| <= |fn.sig.params|
    ensures c.sig == BindSignature(fn, |args|)
    ensures forall rest, live :: RunImpl(c.impl, rest, live).Some?
  {
    Callback(BindSignature(fn, |args|), MemberFunction(fn, instance, args))
  }

  /** `BindOnce`/`BindRepeating` of a member function on a `WeakPtr`, which must return `void`. */
  function BindWeakMember(fn: Function, weak: Value, args: seq<Value>): (c: Callback)
    requires fn.sig.ret == Void && (weak.Weak? || weak.NullWeak?)
    requires |args| <= |fn.sig.params|
    ensures c.sig == BindSignature(fn, |args|) && c.sig.ret == Void
  {
    Callback(BindSignature(fn, |args|), MemberFunctionWeakPtr(fn, weak, args))
  }

  /** Binding arguments in front of a callback: the same return type over its parameters after the bound ones. */
  function BindCallback(cb: Callback, args: seq<Value>): (c: Callback)
    requires |args| <= |cb.sig.params|
    ensures c.sig.ret == cb.sig.ret && cb.sig.params[..|args|] + c.sig.params == cb.sig.params
  {
    Callback(Signature(cb.sig.ret, cb.sig.params[|args|..]), BoundCallback(cb.impl, args))
  }

  /** Running a bound function calls it once, with the bound arguments first; a member function gets its object in front. */
  lemma BoundFunctionsRunWithPrefix(fn: Function, instance: nat, args: seq<Value>, rest: seq<Value>, live: set<nat>)
    requires |args| <= |fn.sig.params|
    ensures RunImpl(BindFunction(fn, args).impl, rest, live) == Some(Apply(fn, args + rest))
    ensures RunImpl(BindMember(fn, instance, args).impl, rest, live) == Some(Apply(fn, [Ptr(instance)] + args + rest))
  {
  }

  /** A `WeakPtr`-bound method runs while the pointer is valid and is skipped afterwards, calling nothing. */
  lemma WeakBoundMethodSkippedOnceInvalid(fn: Function, weak: Value, args: seq<Value>, rest: seq<Value>, live: set<nat>)
    requires fn.sig.ret == Void && (weak.Weak? || weak.NullWeak?)
    requires |args| <= |fn.sig.params|
    ensures IsValidWeak(weak, live) ==>
              RunImpl(BindWeakMember(fn, weak, args).impl, rest, live) == Some(Apply(fn, [Ptr(weak.target)] + args + rest))
    ensures !IsValidWeak(weak, live) ==> RunImpl(BindWeakMember(fn, weak, args).impl, rest, live) == Some(Skipped)
  {
  }

  /**
   * Binding `a` and then `b` to a function gives the signature and the
   * runs of binding `a + b` at once.
   */
  lemma BindingInTwoSteps(fn: Function, a: seq<Value>, b: seq<Value>, rest: seq<Value>, live: set<nat>)
    requires |a| + |b| <= |fn.sig.params|
    ensures BindCallback(BindFunction(fn, a), b).sig == BindFunction(fn, a + b).sig
    ensures RunImpl(BindCallback(BindFunction(fn, a), b).impl, rest, live) == RunImpl(BindFunction(fn, a + b).impl, rest, live)
  {
    RangeOfRange(|a|, |fn.sig.params| - |a|, |b|, |fn.sig.params| - |a| - |b|, fn.sig.params);
    assert a + (b + rest) == (a + b) + rest;
  }

  /** `BindOnce` of a `OnceCallback` rvalue: the source is consumed and left empty. */
  method BindOnceConsuming(cb: OnceCallback, args: seq<Value>) returns (r: OnceCallback)
    requires |args| <= |cb.sig.params|
    modifies cb
    ensures fresh(r) && r.sig == BindCallback(Callback(cb.sig, old(cb.impl)), args).sig
    ensures r.impl == BoundCallback(old(cb.impl), args) && cb.impl == Null
  {
    r := new OnceCallback.Bound(BindCallback(Callback(cb.sig, cb.impl), args).sig, cb, args);
  }

  /** `BindOnce` of a `RepeatingCallback`: the source is cloned and stays as it was. */
  method BindOnceCloning(cb: RepeatingCallback, args: seq<Value>) returns (r: OnceCallback)
    requires |args| <= |cb.sig.params|
    ensures fresh(r) && r.sig == BindCallback(Callback(cb.sig, cb.impl), args).sig
    ensures r.impl == BoundCallback(cb.impl, args)
  {
    r := new OnceCallback(BindCallback(Callback(cb.sig, cb.impl), args));
  }

  /** `BindRepeating` of a `RepeatingCallback`: the source is cloned and stays as it was. */
  method BindRepeatingCloning(cb: RepeatingCallback, args: seq<Value>) returns (r: RepeatingCallback)
    requires |args| <= |cb.sig.params|
    ensures fresh(r) && r.sig == BindCallback(Callback(cb.sig, cb.impl), args).sig
    ensures r.impl == BoundCallback(cb.impl, args)
  {
    r := new RepeatingCallback.Bound(BindCallback(Callback(cb.sig, cb.impl), args).sig, cb, args);
  }
}

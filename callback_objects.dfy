/**
 * `OnceCallback<Sig>` and `RepeatingCallback<Sig>`: a signature fixed at
 * compile time and an `impl_` that moves, is cloned on copy, and runs. The
 * calls a run makes are appended to a journal; the run's `WeakPtr` state
 * is the set `live` of control blocks still live.
 */
module CallbackObjects {
  import opened Wrappers
  import opened Callbacks
  import opened Journals

  class OnceCallback {
    const sig: Signature
    /** `impl_`; `Null` when the callback is empty. */
    var impl: Impl

    /** The default constructor: an empty callback. */
    constructor Empty(sig: Signature)
      ensures this.sig == sig && impl == Null
    {
      this.sig := sig;
      impl := Null;
    }

    /** The constructors from a function, a member function on an object or a `WeakPtr`, with bound arguments, and the private one from an `impl_`. */
    constructor (c: Callback)
      ensures sig == c.sig && impl == c.impl
    {
      sig := c.sig;
      impl := c.impl;
    }

    /** The move constructor: `impl_` moves here and `other` is left empty. */
    constructor Moved(other: OnceCallback)
      modifies other
      ensures sig == other.sig && impl == old(other.impl) && other.impl == Null
    {
      sig := other.sig;
      impl := other.impl;
      new;
      other.impl := Null;
    }

    /**
     * The constructor from another `OnceCallback` and arguments bound in
     * front: it takes `other`'s `impl_`, which leaves `other` empty.
     */
    constructor Bound(sig: Signature, other: OnceCallback, bound: seq<Value>)
      requires other.sig.ret == sig.ret && |bound| <= |other.sig.params| && other.sig.params[|bound|..] == sig.params
      modifies other
      ensures this.sig == sig && impl == BoundCallback(old(other.impl), bound) && other.impl == Null
    {
      this.sig := sig;
      impl := BoundCallback(other.impl, bound);
      new;
      other.impl := Null;
    }

    /** `operator bool`. */
    predicate IsSet()
      reads this
    {
      impl != Null
    }

    /**
     * `Run() &&`: the callback moves into a temporary, so it is empty
     * afterwards, and the implementation runs once with `args`.
     */
    method Run(args: seq<Value>, live: set<nat>, journal: Journal<Call>) returns (result: Value)
      requires |args| == |sig.params| && RunImpl(impl, args, live).Some?
      modifies this, journal
      ensures impl == Null
      ensures journal.entries == old(journal.entries) + RunImpl(old(impl), args, live).value.calls
      ensures result == RunImpl(old(impl), args, live).value.result
    {
      var o := RunImpl(impl, args, live).value;
      impl := Null;
      journal.entries := journal.entries + o.calls;
      result := o.result;
    }
  }

  class RepeatingCallback {
    const sig: Signature
    /** `impl_`; `Null` when the callback is empty. */
    var impl: Impl

    /** The default constructor: an empty callback. */
    constructor Empty(sig: Signature)
      ensures this.sig == sig && impl == Null
    {
      this.sig := sig;
      impl := Null;
    }

    /** The constructors from a function, a member function on an object or a `WeakPtr`, with bound arguments. */
    constructor (c: Callback)
      ensures sig == c.sig && impl == c.impl
    {
      sig := c.sig;
      impl := c.impl;
    }

    /** The constructor from another `RepeatingCallback` and bound arguments: it clones `other`, which keeps its own `impl_`. */
    constructor Bound(sig: Signature, other: RepeatingCallback, bound: seq<Value>)
      requires other.sig.ret == sig.ret && |bound| <= |other.sig.params| && other.sig.params[|bound|..] == sig.params
      ensures this.sig == sig && impl == BoundCallback(other.impl, bound)
    {
      this.sig := sig;
      impl := BoundCallback(other.impl, bound);
    }

    /** The copy constructor: a clone, so both run the same; an empty callback copies as empty. */
    constructor Copied(other: RepeatingCallback)
      ensures sig == other.sig && impl == other.impl
      ensures IsSet() == other.IsSet()
    {
      sig := other.sig;
      impl := other.impl;
    }

    /** The move constructor: `impl_` moves here and `other` is left empty. */
    constructor Moved(other: RepeatingCallback)
      modifies other
      ensures sig == other.sig && impl == old(other.impl) && other.impl == Null
    {
      sig := other.sig;
      impl := other.impl;
      new;
      other.impl := Null;
    }

    /** The conversion to `OnceCallback`: a clone, and this callback stays as it was. */
    method ToOnce() returns (o: OnceCallback)
      ensures fresh(o) && o.sig == sig && o.impl == impl
    {
      o := new OnceCallback(Callback(sig, impl));
    }

    /** `operator bool`. */
    predicate IsSet()
      reads this
    {
      impl != Null
    }

    /** `Run() const&`: runs the implementation with `args` and leaves the callback as it was. */
    method Run(args: seq<Value>, live: set<nat>, journal: Journal<Call>) returns (result: Value)
      requires |args| == |sig.params| && RunImpl(impl, args, live).Some?
      modifies journal
      ensures journal.entries == old(journal.entries) + RunImpl(impl, args, live).value.calls
      ensures result == RunImpl(impl, args, live).value.result
    {
      var o := RunImpl(impl, args, live).value;
      journal.entries := journal.entries + o.calls;
      result := o.result;
    }
  }

  /** A repeating callback runs the same way every time: two runs with the same arguments make the same calls twice. */
  method RunTwice(cb: RepeatingCallback, args: seq<Value>, live: set<nat>, journal: Journal<Call>) returns (first: Value, second: Value)
    requires |args| == |cb.sig.params| && RunImpl(cb.impl, args, live).Some?
    modifies journal
    ensures first == second && cb.IsSet()
    ensures journal.entries == old(journal.entries) + RunImpl(cb.impl, args, live).value.calls + RunImpl(cb.impl, args, live).value.calls
  {
    first := cb.Run(args, live, journal);
    second := cb.Run(args, live, journal);
  }

  /** A once callback runs at most once: after `Run` it is empty, so a second run is not allowed. */
  method RunOnceEmpties(cb: OnceCallback, args: seq<Value>, live: set<nat>, journal: Journal<Call>) returns (result: Value)
    requires |args| == |cb.sig.params| && RunImpl(cb.impl, args, live).Some?
    modifies cb, journal
    ensures !cb.IsSet() && RunImpl(cb.impl, args, live).None?
  {
    result := cb.Run(args, live, journal);
  }

  /** Copies and conversions of an empty repeating callback are empty. */
  method EmptyCopies(sig: Signature) returns (copy: RepeatingCallback, once: OnceCallback)
    ensures !copy.IsSet() && !once.IsSet()
  {
    var empty := new RepeatingCallback.Empty(sig);
    copy := new RepeatingCallback.Copied(empty);
    once := empty.ToOnce();
  }
}

/**
 * `SequenceChecker`: remembers the sequence it was created or first
 * checked on, and tells whether later calls come from that same sequence.
 * The binding is lazy: a checker created outside any sequence binds on its
 * first check. Every `CHECK` is a precondition.
 */
module SequenceCheckers {
  import opened Wrappers
  import opened Sequences

  /** The binding after a check: an unbound checker takes the current sequence. */
  function LazyBind(bound: Option<SequenceId>, current: Option<SequenceId>): (b: Option<SequenceId>)
    ensures bound.Some? ==> b == bound
    ensures bound.None? ==> b == current
  {
    if bound.None? then current else bound
  }

  /** The answer of `CalledOnValidSequence`, whose `CHECK` demands a binding. */
  function IsValidSequence(bound: Option<SequenceId>, current: Option<SequenceId>): (r: bool)
    requires LazyBind(bound, current).Some?
    ensures r <==> (bound.None? || bound == current)
    ensures r ==> current.Some?
  {
    LazyBind(bound, current) == current
  }

  /** Once bound, the binding never moves, and a check passes exactly on the bound sequence. */
  lemma BindingIsSticky(bound: Option<SequenceId>, first: Option<SequenceId>, later: Option<SequenceId>)
    requires LazyBind(bound, first).Some?
    ensures LazyBind(LazyBind(bound, first), later) == LazyBind(bound, first)
    ensures IsValidSequence(LazyBind(bound, first), later) <==> later == LazyBind(bound, first)
  {
  }

  class SequenceChecker {
    /** `sequence_id_`. */
    var bound: Option<SequenceId>
    /** The thread's sequence state. */
    const ctx: SequenceContext

    /** Binds to the current sequence, which may be none. */
    constructor (ctx: SequenceContext)
      ensures this.ctx == ctx && bound == ctx.current
    {
      this.ctx := ctx;
      bound := ctx.current;
    }

    /** The move constructor: `other` must pass its check; its binding moves here and it is left unbound. */
    constructor Moved(ctx: SequenceContext, other: SequenceChecker)
      requires LazyBind(other.bound, ctx.current).Some?
      requires IsValidSequence(other.bound, ctx.current)
      modifies other
      ensures this.ctx == ctx
      ensures bound == ctx.current && other.bound == None
    {
      this.ctx := ctx;
      bound := LazyBind(other.bound, ctx.current);
      new;
      other.bound := None;
    }

    /** `CalledOnValidSequence`: binds lazily, then compares the binding with the current sequence. */
    method CalledOnValidSequence() returns (valid: bool)
      requires LazyBind(bound, ctx.current).Some?
      modifies this
      ensures bound == LazyBind(old(bound), ctx.current)
      ensures valid == IsValidSequence(old(bound), ctx.current)
    {
      if bound.None? {
        bound := ctx.current;
      }
      valid := bound == ctx.current;
    }

    /** Move assignment: both checkers must pass their checks; `other`'s binding moves here. */
    method MoveAssign(other: SequenceChecker)
      requires other.ctx == ctx
      requires LazyBind(bound, ctx.current).Some? && IsValidSequence(bound, ctx.current)
      requires LazyBind(other.bound, ctx.current).Some? && IsValidSequence(other.bound, ctx.current)
      modifies this, other
      ensures bound == ctx.current
      ensures other != this ==> other.bound == None
    {
      var ok := CalledOnValidSequence();
      ok := other.CalledOnValidSequence();
      var moved := other.bound;
      other.bound := None;
      bound := moved;
    }

    /** `DetachFromSequence`: an unbound checker is left alone; a bound one must pass its check and is unbound. */
    method DetachFromSequence()
      requires bound.Some? ==> IsValidSequence(bound, ctx.current)
      modifies this
      ensures bound == None
    {
      if bound.None? {
        return;
      }
      var ok := CalledOnValidSequence();
      bound := None;
    }
  }
}

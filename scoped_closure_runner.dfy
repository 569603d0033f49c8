/**
 * `ScopedClosureRunner`: holds at most one `OnceClosure` and runs it when
 * the runner is destroyed or reassigned, unless the closure was released or
 * replaced first. An empty `OnceClosure` is `None`.
 */
module ScopedClosureRunners {
  import opened Wrappers
  import opened Journals

  class ScopedClosureRunner {
    /** `closure_`. */
    var closure: Option<ClosureId>
    /** Where a run closure leaves its mark. */
    const journal: Journal<ClosureId>

    /** `operator bool`: whether a closure is held. */
    predicate IsSet()
      reads this
    {
      closure.Some?
    }

    /** The default constructor (`closure` = `None`) and the one taking a closure. */
    constructor (journal: Journal<ClosureId>, closure: Option<ClosureId>)
      ensures this.journal == journal && this.closure == closure
    {
      this.journal := journal;
      this.closure := closure;
    }

    /** The move constructor: the closure moves here and `other` is left empty. */
    constructor Moved(other: ScopedClosureRunner)
      modifies other
      ensures journal == other.journal
      ensures closure == old(other.closure) && other.closure == None
    {
      journal := other.journal;
      closure := other.closure;
      new;
      other.closure := None;
    }

    /** `RunAndReset`: a held closure runs once (the move into `Run` empties it); an empty runner does nothing. */
    method RunAndReset()
      modifies this, journal
      ensures closure == None
      ensures journal.entries == old(journal.entries) + (if old(closure).Some? then [old(closure).value] else [])
    {
      if closure.Some? {
        var c := closure.value;
        closure := None;
        journal.Append(c);
      }
    }

    /** The destructor runs the held closure, if any. */
    method Dispose()
      modifies this, journal
      ensures journal.entries == old(journal.entries) + (if old(closure).Some? then [old(closure).value] else [])
    {
      RunAndReset();
    }

    /** `ReplaceClosure`: the old closure is dropped without running. */
    method ReplaceClosure(c: Option<ClosureId>)
      modifies this
      ensures closure == c
    {
      closure := c;
    }

    /** `Release`: the closure comes back unrun and the runner is empty. */
    method Release() returns (c: Option<ClosureId>)
      modifies this
      ensures c == old(closure) && closure == None
    {
      c := closure;
      closure := None;
    }

    /**
     * Move assignment: unless `other` is this runner, this runner's closure
     * runs, then `other`'s closure moves here and `other` is left empty.
     */
    method MoveAssign(other: ScopedClosureRunner)
      requires other.journal == journal
      modifies this, other, journal
      ensures other == this ==> closure == old(closure) && journal.entries == old(journal.entries)
      ensures other != this ==>
                closure == old(other.closure) && other.closure == None
                && journal.entries == old(journal.entries) + (if old(closure).Some? then [old(closure).value] else [])
    {
      if other != this {
        RunAndReset();
        var c := other.Release();
        ReplaceClosure(c);
      }
    }
  }

  /** However a runner is used, its closure runs at most once: a second `RunAndReset` runs nothing. */
  method RunAndResetTwice(r: ScopedClosureRunner)
    modifies r, r.journal
    ensures r.closure == None
    ensures r.journal.entries == old(r.journal.entries) + (if old(r.closure).Some? then [old(r.closure).value] else [])
  {
    r.RunAndReset();
    r.RunAndReset();
  }

  /** A released closure is not run by the destructor. */
  method ReleaseThenDispose(r: ScopedClosureRunner) returns (c: Option<ClosureId>)
    modifies r, r.journal
    ensures c == old(r.closure) && r.journal.entries == old(r.journal.entries)
  {
    c := r.Release();
    r.Dispose();
  }
}

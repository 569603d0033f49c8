/**
 * The observable effect of running closures. A closure's body is abstracted
 * to an id; running it appends that id, with whatever arguments it received,
 * to a shared journal.
 */
module Journals {

  /** A closure, identified by what it would run. */
  type ClosureId = nat

  class Journal<T> {
    /** Everything run so far, in order. */
    var entries: seq<T>

    constructor ()
      ensures entries == []
    {
      entries := [];
    }

    method Append(x: T)
      modifies this
      ensures entries == old(entries) + [x]
    {
      entries := entries + [x];
    }
  }
}

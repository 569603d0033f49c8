/**
 * Sequence ids: the process-wide id counter (`SequenceIdGenerator`), the
 * thread-local current sequence (`CurrentSequenceIdHelper`) and the scoped
 * setter that marks a task's sequence as current while it runs.
 *
 * The counter and the thread-local slot are one global cell, the
 * `SequenceContext` object that every component touching them shares. A
 * failed `CHECK` ends the process, so each `CHECK` is a precondition.
 */
module Sequences {
  import opened Wrappers
  import opened Int64

  /** `base::SequenceId`, a wrapper around a 64-bit number compared by value. */
  datatype SequenceId = SequenceId(id: uint64)

  const IdSpace: int := 0x1_0000_0000_0000_0000

  class SequenceContext {
    /** `CurrentSequenceIdHelper::current_sequence_id_`. */
    var current: Option<SequenceId>
    /** The `static std::atomic_uint64_t next_id`, which wraps around after 2^64 ids. */
    var nextId: uint64
    /** Every id handed out so far, in order. */
    ghost var issued: seq<SequenceId>

    ghost predicate Valid()
      reads this
    {
      nextId as int == |issued| % IdSpace
      && forall i :: 0 <= i < |issued| ==> issued[i].id as int == i % IdSpace
    }

    /** A fresh thread: no id handed out and no current sequence. */
    constructor ()
      ensures Valid() && current == None && issued == []
    {
      current := None;
      nextId := 0;
      issued := [];
    }

    /** `GetNextSequenceId`: the counter's value, post-incremented. */
    method GetNextSequenceId() returns (s: SequenceId)
      requires Valid()
      modifies this
      ensures Valid() && issued == old(issued) + [s] && current == old(current)
      ensures s.id == old(nextId)
      ensures |old(issued)| < IdSpace ==> s !in old(issued)
    {
      s := SequenceId(nextId);
      nextId := ((nextId as int + 1) % IdSpace) as uint64;
      issued := issued + [s];
    }

    /** `CurrentSequenceIdHelper::IsCurrentSequence`. */
    predicate IsCurrentSequence(s: SequenceId)
      reads this
    {
      current.Some? && current.value == s
    }

    /** `ScopedSequenceIdSetter` constructor: no sequence may be current yet. */
    method EnterSequence(s: SequenceId)
      requires current.None?
      modifies this
      ensures current == Some(s)
      ensures nextId == old(nextId) && issued == old(issued)
    {
      current := Some(s);
    }

    /** `ScopedSequenceIdSetter` destructor: a sequence must be current, and none is afterwards. */
    method LeaveSequence()
      requires current.Some?
      modifies this
      ensures current == None
      ensures nextId == old(nextId) && issued == old(issued)
    {
      current := None;
    }
  }

  /** The ids handed out while fewer than 2^64 have been issued are pairwise distinct. */
  lemma IssuedIdsDistinct(ctx: SequenceContext, i: int, j: int)
    requires ctx.Valid() && |ctx.issued| <= IdSpace
    requires 0 <= i < j < |ctx.issued|
    ensures ctx.issued[i] != ctx.issued[j]
    ensures ctx.issued[i].id < ctx.issued[j].id
  {
  }

  /** `IsCurrentSequence(x)` holds exactly for the one current sequence, and for none when unset. */
  lemma IsCurrentSequenceExactly(ctx: SequenceContext, x: SequenceId, y: SequenceId)
    ensures ctx.current.None? ==> !ctx.IsCurrentSequence(x)
    ensures ctx.IsCurrentSequence(x) && ctx.IsCurrentSequence(y) ==> x == y
    ensures ctx.current == Some(x) <==> ctx.IsCurrentSequence(x)
  {
  }
}

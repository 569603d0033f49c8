/**
 * `WeakPtr<T>` and `WeakPtrFactory<T>`.
 *
 * The factory owns a control block and replaces it on `InvalidateWeakPtrs`,
 * so every pointer issued before holds an expired block. Control blocks are
 * modelled as generations of their factory: a pointer's block is live while
 * the factory exists and is still on the generation the pointer was issued
 * in. Only a live block has a counter; count updates on an expired block
 * are skipped, as `weak_ptr::lock` fails there. A raw pointer is an
 * `Option<T>`, `None` being `nullptr`.
 */
module WeakPtrs {
  import opened Wrappers

  /** A `weak_ptr` to a control block: the factory and the generation it was created in. */
  datatype BlockRef<T> = BlockRef(factory: WeakPtrFactory<T>, generation: nat)

  class WeakPtrFactory<T> {
    /** `ptr_`, never null. */
    const target: T
    /** The generation of the current control block. */
    var generation: nat
    /** The current block's `weak_count`. */
    var weakCount: int
    /** False once the factory, and with it the current block, is destroyed. */
    var alive: bool

    /** A factory for `target`, with a fresh block that no pointer uses. */
    constructor (target: T)
      ensures this.target == target && generation == 0 && weakCount == 0 && alive
    {
      this.target := target;
      generation := 0;
      weakCount := 0;
      alive := true;
    }

    /** `HasWeakPtrs`: whether the current block counts any pointer. */
    predicate HasWeakPtrs()
      reads this
    {
      weakCount > 0
    }

    /** `GetWeakPtr`: a pointer to the target on the current block, which now counts one more pointer. */
    method GetWeakPtr() returns (w: WeakPtr<T>)
      requires alive
      modifies this
      ensures fresh(w) && w.ptr == Some(target) && w.block == Some(BlockRef(this, generation))
      ensures generation == old(generation) && weakCount == old(weakCount) + 1 && alive
    {
      w := new WeakPtr.Issued(target, BlockRef(this, generation));
    }

    /** `InvalidateWeakPtrs`: a new block replaces the current one; no pointer uses it yet. */
    method InvalidateWeakPtrs()
      requires alive
      modifies this
      ensures generation == old(generation) + 1 && weakCount == 0 && alive
    {
      generation := generation + 1;
      weakCount := 0;
    }

    /** Destroying the factory expires its current block. */
    method Dispose()
      modifies this
      ensures !alive && generation == old(generation)
    {
      alive := false;
    }
  }

  /** Whether `weak_ptr::lock` on `b` succeeds. */
  predicate IsLive<T>(b: Option<BlockRef<T>>)
    reads if b.Some? then {b.value.factory} else {}
  {
    b.Some? && b.value.factory.alive && b.value.factory.generation == b.value.generation
  }

  /** The objects a count update on `b` may change. */
  function BlockFrame<T>(b: Option<BlockRef<T>>): set<object>
  {
    if b.Some? then {b.value.factory} else {}
  }

  /**
   * How `f`'s count moves when a pointer leaves block `from` and joins block
   * `to`: one less if `from` is `f`'s live block, one more if `to` is.
   */
  function CountShift<T>(f: WeakPtrFactory<T>, from: Option<BlockRef<T>>, to: Option<BlockRef<T>>): (n: int)
    reads BlockFrame(from), BlockFrame(to)
    ensures -1 <= n <= 1
    ensures from == to ==> n == 0
  {
    (if IsLive(to) && to.value.factory == f then 1 else 0) - (if IsLive(from) && from.value.factory == f then 1 else 0)
  }

  class WeakPtr<T> {
    /** `ptr_`. */
    var ptr: Option<T>
    /** `control_block_`. */
    var block: Option<BlockRef<T>>

    /** The default and `nullptr` constructors: no pointer and no block. */
    constructor ()
      ensures ptr == None && block == None
    {
      ptr := None;
      block := None;
    }

    /** The private constructor used by the factory: it counts itself on a live block. */
    constructor Issued(p: T, b: BlockRef<T>)
      modifies b.factory
      ensures ptr == Some(p) && block == Some(b)
      ensures b.factory.generation == old(b.factory.generation) && b.factory.alive == old(b.factory.alive)
      ensures b.factory.weakCount == old(b.factory.weakCount) + (if IsLive(Some(b)) then 1 else 0)
    {
      ptr := Some(p);
      block := Some(b);
      new;
      IncreaseWeakCount();
    }

    /** The copy constructor: same pointer and block, counted once more if the block is live. */
    constructor Copied(other: WeakPtr<T>)
      modifies BlockFrame(other.block)
      ensures ptr == other.ptr && block == other.block
      ensures other.block.Some? ==>
                var f := other.block.value.factory;
                f.generation == old(f.generation) && f.alive == old(f.alive)
                && f.weakCount == old(f.weakCount) + (if IsLive(other.block) then 1 else 0)
    {
      ptr := other.ptr;
      block := other.block;
      new;
      IncreaseWeakCount();
    }

    /** The move constructor: pointer and block move here uncounted; `other` is left null. */
    constructor Moved(other: WeakPtr<T>)
      modifies other
      ensures ptr == old(other.ptr) && block == old(other.block)
      ensures other.ptr == None && other.block == None
    {
      ptr := other.ptr;
      block := other.block;
      new;
      other.ptr := None;
      other.block := None;
    }

    method IncreaseWeakCount()
      modifies BlockFrame(block)
      ensures block.Some? ==>
                var f := block.value.factory;
                f.generation == old(f.generation) && f.alive == old(f.alive)
                && f.weakCount == old(f.weakCount) + (if old(IsLive(block)) then 1 else 0)
    {
      if block.Some? && block.value.factory.alive && block.value.factory.generation == block.value.generation {
        block.value.factory.weakCount := block.value.factory.weakCount + 1;
      }
    }

    method DecreaseWeakCount()
      modifies BlockFrame(block)
      ensures block.Some? ==>
                var f := block.value.factory;
                f.generation == old(f.generation) && f.alive == old(f.alive)
                && f.weakCount == old(f.weakCount) - (if old(IsLive(block)) then 1 else 0)
    {
      if block.Some? && block.value.factory.alive && block.value.factory.generation == block.value.generation {
        block.value.factory.weakCount := block.value.factory.weakCount - 1;
      }
    }

    /** The destructor uncounts the pointer from a live block. */
    method Dispose()
      modifies BlockFrame(block)
      ensures block.Some? ==>
                var f := block.value.factory;
                f.generation == old(f.generation) && f.alive == old(f.alive)
                && f.weakCount == old(f.weakCount) - (if old(IsLive(block)) then 1 else 0)
    {
      DecreaseWeakCount();
    }

    /**
     * Copy assignment: unless `other` is this pointer, this one is uncounted
     * from its old block, takes `other`'s pointer and block, and is counted on
     * that block. Each factory involved moves by `CountShift`, which is zero
     * when both blocks are the same.
     */
    method CopyAssign(other: WeakPtr<T>)
      modifies this, BlockFrame(block), BlockFrame(other.block)
      ensures ptr == old(other.ptr) && block == old(other.block)
      ensures old(block).Some? ==>
                var f := old(block).value.factory;
                f.generation == old(f.generation) && f.alive == old(f.alive)
                && f.weakCount == old(f.weakCount) + (if other == this then 0 else old(CountShift(f, block, other.block)))
      ensures old(other.block).Some? ==>
                var f := old(other.block).value.factory;
                f.generation == old(f.generation) && f.alive == old(f.alive)
                && f.weakCount == old(f.weakCount) + (if other == this then 0 else old(CountShift(f, block, other.block)))
    {
      if other != this {
        DecreaseWeakCount();
        ptr := other.ptr;
        block := other.block;
        IncreaseWeakCount();
      }
    }

    /** Move assignment: unless `other` is this pointer, this one is uncounted, then `other`'s state moves here. */
    method MoveAssign(other: WeakPtr<T>)
      modifies this, other, BlockFrame(block)
      ensures other == this ==> ptr == old(ptr) && block == old(block)
      ensures other != this ==>
                ptr == old(other.ptr) && block == old(other.block) && other.ptr == None && other.block == None
      ensures other != this && old(block).Some? ==>
                var f := old(block).value.factory;
                f.generation == old(f.generation) && f.alive == old(f.alive)
                && f.weakCount == old(f.weakCount) - (if old(IsLive(block)) then 1 else 0)
    {
      if other != this {
        DecreaseWeakCount();
        ptr := other.ptr;
        block := other.block;
        other.ptr := None;
        other.block := None;
      }
    }

    /** `Get`: the pointer while its block is live, `nullptr` otherwise. */
    function Get(): (r: Option<T>)
      reads this, BlockFrame(block)
      ensures r.Some? <==> IsLive(block) && ptr.Some?
      ensures r.Some? ==> r == ptr
    {
      if IsLive(block) then ptr else None
    }

    /** `MaybeValid`: the block has not expired. */
    function MaybeValid(): (r: bool)
      reads this, BlockFrame(block)
      ensures r <==> IsLive(block)
    {
      IsLive(block)
    }

    /** `WasInvalidated`: a non-null pointer whose block has expired. */
    function WasInvalidated(): (r: bool)
      reads this, BlockFrame(block)
      ensures r <==> !IsLive(block) && ptr.Some?
      ensures r ==> Get().None?
    {
      if IsLive(block) then false else ptr.Some?
    }

    /** `operator bool` and `== nullptr`, in both argument orders (`!=` is the negation). */
    function IsNull(): (r: bool)
      reads this, BlockFrame(block)
      ensures r <==> Get().None?
      ensures !r ==> MaybeValid()
    {
      Get() == None
    }
  }

  /** A default pointer is null, not valid, and not invalidated. */
  method DefaultPointer<T>() returns (w: WeakPtr<T>)
    ensures w.IsNull() && !w.MaybeValid() && !w.WasInvalidated()
  {
    w := new WeakPtr();
  }

  /**
   * Invalidation: a pointer issued before reads null and reports
   * invalidation, the factory counts no pointers, and a pointer issued
   * afterwards reaches the target again.
   */
  method InvalidateThenReissue<T>(f: WeakPtrFactory<T>) returns (before: WeakPtr<T>, after: WeakPtr<T>)
    requires f.alive
    modifies f
    ensures before.Get() == None && before.WasInvalidated()
    ensures after.Get() == Some(f.target) && !after.WasInvalidated()
    ensures f.HasWeakPtrs() && f.weakCount == 1
  {
    before := f.GetWeakPtr();
    f.InvalidateWeakPtrs();
    assert !f.HasWeakPtrs();
    after := f.GetWeakPtr();
  }

  /** A copy reaches the same target and is counted; destroying it uncounts it again. */
  method CopyIsCounted<T>(f: WeakPtrFactory<T>) returns (w: WeakPtr<T>, c: WeakPtr<T>)
    requires f.alive
    modifies f
    ensures w.Get() == Some(f.target) && c.Get() == Some(f.target)
    ensures f.weakCount == old(f.weakCount) + 1
  {
    w := f.GetWeakPtr();
    c := new WeakPtr.Copied(w);
    assert f.weakCount == old(f.weakCount) + 2;
    c.Dispose();
  }

  /**
   * Assigning a pointer of another factory moves its count: the old factory
   * counts one pointer less, the new one one more, and the assigned pointer
   * reaches the new target.
   */
  method CopyAssignMovesCount<T>(f: WeakPtrFactory<T>, g: WeakPtrFactory<T>) returns (w: WeakPtr<T>, v: WeakPtr<T>)
    requires f.alive && g.alive && f != g
    modifies f, g
    ensures w.Get() == Some(g.target) && v.Get() == Some(g.target)
    ensures f.weakCount == old(f.weakCount) && g.weakCount == old(g.weakCount) + 2
  {
    w := f.GetWeakPtr();
    v := g.GetWeakPtr();
    w.CopyAssign(v);
  }

  /** Moving leaves the source null and changes no count. */
  method MoveKeepsCount<T>(f: WeakPtrFactory<T>) returns (w: WeakPtr<T>, m: WeakPtr<T>)
    requires f.alive
    modifies f
    ensures w.IsNull() && m.Get() == Some(f.target)
    ensures f.weakCount == old(f.weakCount) + 1
  {
    w := f.GetWeakPtr();
    m := new WeakPtr.Moved(w);
  }
}

/**
 * `BarrierClosure` and `BarrierCallback`: a repeating callback that must run
 * a given number of times before the wrapped `OnceCallback` runs. The
 * closure variant only counts; the callback variant also collects one
 * element per run and passes them all, in arrival order, to the wrapped
 * callback. A count of zero runs the wrapped callback at once and returns
 * an empty callback (`None`).
 */
module Barriers {
  import opened Wrappers
  import opened Int64
  import opened Journals

  class BarrierClosureHelper {
    /** `required_run_count_`: the runs still to come. */
    var remaining: int
    /** `callback_`, moved out when it runs. */
    var callback: Option<ClosureId>
    const journal: Journal<ClosureId>

    /** The callback is still held exactly while runs remain. */
    ghost predicate Valid()
      reads this
    {
      remaining >= 0 && (callback.Some? <==> remaining > 0)
    }

    constructor (count: nat, callback: ClosureId, journal: Journal<ClosureId>)
      requires count > 0
      ensures Valid() && remaining == count && this.callback == Some(callback) && this.journal == journal
    {
      remaining := count;
      this.callback := Some(callback);
      this.journal := journal;
    }

    /** `Run`: one run fewer remains (more runs than the count break the `DCHECK`); the last one runs the callback. */
    method Run()
      requires Valid() && remaining > 0
      modifies this, journal
      ensures Valid() && remaining == old(remaining) - 1
      ensures remaining > 0 ==> callback == old(callback)
      ensures journal.entries == old(journal.entries) + (if remaining == 0 then [old(callback).value] else [])
    {
      remaining := remaining - 1;
      if remaining == 0 {
        var c := callback.value;
        callback := None;
        journal.Append(c);
      }
    }

    /**
     * `k` runs in a row: the callback runs exactly when they use up the
     * count, and never before.
     */
    method RunTimes(k: nat)
      requires Valid() && k <= remaining
      modifies this, journal
      ensures Valid() && remaining == old(remaining) - k
      ensures remaining > 0 ==> callback == old(callback)
      ensures journal.entries == old(journal.entries) + (if 0 < k == old(remaining) then [old(callback).value] else [])
    {
      var i := 0;
      while i < k
        invariant 0 <= i <= k && Valid() && remaining == old(remaining) - i
        invariant i < old(remaining) || i == 0 ==> callback == old(callback) && journal.entries == old(journal.entries)
        invariant 0 < i == old(remaining) ==> journal.entries == old(journal.entries) + [old(callback).value]
      {
        Run();
        i := i + 1;
      }
    }
  }

  /** `BarrierClosure`: zero runs the callback now and gives no closure; otherwise a fresh helper counts down from `count`. */
  method BarrierClosure(count: nat, callback: ClosureId, journal: Journal<ClosureId>) returns (r: Option<BarrierClosureHelper>)
    modifies journal
    ensures count == 0 ==> r.None? && journal.entries == old(journal.entries) + [callback]
    ensures count > 0 ==>
              r.Some? && fresh(r.value) && r.value.Valid() && r.value.remaining == count
              && r.value.callback == Some(callback) && r.value.journal == journal
              && journal.entries == old(journal.entries)
  {
    if count == 0 {
      journal.Append(callback);
      return None;
    }
    var helper := new BarrierClosureHelper(count, callback, journal);
    r := Some(helper);
  }

  /** The helper's counter as written: the `size_t` count narrowed to a 32-bit `int`. */
  function HelperCountAsWritten(count: nat): (c: int32)
    requires count < 0x1_0000_0000_0000_0000
    ensures count < 0x8000_0000 ==> c as int == count
  {
    ToInt32(count)
  }

  /** A count of 2^32 + k, for a k that fits an `int`, becomes a counter of k. */
  lemma WideCountNarrows(k: nat)
    requires k < 0x8000_0000
    ensures HelperCountAsWritten(0x1_0000_0000 + k) as int == k
  {
    assert (0x1_0000_0000 + k) % 0x1_0000_0000 == k;
  }

  /**
   * Built as written, a barrier for 2^32 + k runs (0 < k < 2^31) counts down
   * from k, so its callback runs on the k-th run, 2^32 runs too early. This
   * holds whether or not `DCHECK` is fatal, since no run goes below zero.
   */
  method WideCountFiresEarly(k: nat, callback: ClosureId, journal: Journal<ClosureId>) returns (helper: BarrierClosureHelper)
    requires 0 < k < 0x8000_0000
    modifies journal
    ensures fresh(helper) && helper.remaining == 0 && helper.callback == None
    ensures journal.entries == old(journal.entries) + [callback]
  {
    WideCountNarrows(k);
    helper := new BarrierClosureHelper(HelperCountAsWritten(0x1_0000_0000 + k) as int, callback, journal);
    helper.RunTimes(k);
  }

  /**
   * With the count kept whole, as `BarrierClosure` above does, a barrier for
   * 2^32 + k runs has not fired after k runs (`early` is the journal then)
   * and fires once on the last run.
   */
  method WideCountFires(k: nat, callback: ClosureId, journal: Journal<ClosureId>)
    returns (helper: BarrierClosureHelper, early: seq<ClosureId>)
    requires 0 < k < 0x8000_0000
    modifies journal
    ensures fresh(helper) && helper.remaining == 0 && helper.journal == journal
    ensures early == old(journal.entries)
    ensures journal.entries == old(journal.entries) + [callback]
  {
    var r := BarrierClosure(0x1_0000_0000 + k, callback, journal);
    helper := r.value;
    helper.RunTimes(k);
    early := journal.entries;
    helper.RunTimes(0x1_0000_0000);
  }

  /** What running the wrapped callback records: the callback and the elements it received. */
  datatype Delivery<E> = Delivery(callback: ClosureId, elements: seq<E>)

  class BarrierCallbackHelper<E> {
    /** `arguments_`: the elements collected so far. */
    var arguments: seq<E>
    /** `required_run_count_`. */
    var remaining: nat
    var callback: Option<ClosureId>
    const journal: Journal<Delivery<E>>

    ghost predicate Valid()
      reads this
    {
      callback.Some? <==> remaining > 0
    }

    constructor (count: nat, callback: ClosureId, journal: Journal<Delivery<E>>)
      requires count > 0
      ensures Valid() && arguments == [] && remaining == count && this.callback == Some(callback) && this.journal == journal
    {
      arguments := [];
      remaining := count;
      this.callback := Some(callback);
      this.journal := journal;
    }

    /**
     * `Run`: the element joins the end of the buffer; on the last run the
     * callback receives the whole buffer, which is left empty.
     */
    method Run(e: E)
      requires Valid() && remaining > 0
      modifies this, journal
      ensures Valid() && remaining == old(remaining) - 1
      ensures remaining > 0 ==> callback == old(callback)
      ensures remaining > 0 ==> arguments == old(arguments) + [e] && journal.entries == old(journal.entries)
      ensures remaining == 0 ==>
                arguments == [] && journal.entries == old(journal.entries) + [Delivery(old(callback).value, old(arguments) + [e])]
    {
      arguments := arguments + [e];
      remaining := remaining - 1;
      if remaining == 0 {
        var c := callback.value;
        callback := None;
        var collected := arguments;
        arguments := [];
        journal.Append(Delivery(c, collected));
      }
    }

    /** Running once per element of `es`, which exactly uses up the count, delivers all elements in arrival order. */
    method RunAll(es: seq<E>)
      requires Valid() && |es| == remaining > 0
      modifies this, journal
      ensures Valid() && remaining == 0 && arguments == []
      ensures journal.entries == old(journal.entries) + [Delivery(old(callback).value, old(arguments) + es)]
    {
      var i := 0;
      while i < |es|
        invariant 0 <= i <= |es| && Valid() && remaining == old(remaining) - i
        invariant i < |es| ==> arguments == old(arguments) + es[..i] && callback == old(callback) && journal.entries == old(journal.entries)
        invariant i == |es| ==> arguments == [] && journal.entries == old(journal.entries) + [Delivery(old(callback).value, old(arguments) + es)]
      {
        assert es[..i + 1] == es[..i] + [es[i]];
        assert i + 1 == |es| ==> es[..i + 1] == es;
        ghost var before := arguments;
        assert before + [es[i]] == old(arguments) + es[..i + 1];
        Run(es[i]);
        i := i + 1;
      }
    }
  }

  /** `BarrierCallback`: zero delivers an empty collection now and gives no callback; otherwise a fresh helper. */
  method BarrierCallback<E>(count: nat, callback: ClosureId, journal: Journal<Delivery<E>>) returns (r: Option<BarrierCallbackHelper<E>>)
    modifies journal
    ensures count == 0 ==> r.None? && journal.entries == old(journal.entries) + [Delivery(callback, [])]
    ensures count > 0 ==>
              r.Some? && fresh(r.value) && r.value.Valid() && r.value.remaining == count && r.value.arguments == []
              && r.value.callback == Some(callback) && r.value.journal == journal
              && journal.entries == old(journal.entries)
  {
    if count == 0 {
      journal.Append(Delivery(callback, []));
      return None;
    }
    var helper := new BarrierCallbackHelper(count, callback, journal);
    r := Some(helper);
  }

  /** The overload for a `RepeatingCallback` converts it to a `OnceCallback` and behaves the same. */
  method BarrierCallbackRepeating<E>(count: nat, callback: ClosureId, journal: Journal<Delivery<E>>) returns (r: Option<BarrierCallbackHelper<E>>)
    modifies journal
    ensures count == 0 ==> r.None? && journal.entries == old(journal.entries) + [Delivery(callback, [])]
    ensures count > 0 ==>
              r.Some? && fresh(r.value) && r.value.Valid() && r.value.remaining == count && r.value.arguments == []
              && r.value.callback == Some(callback) && r.value.journal == journal
              && journal.entries == old(journal.entries)
  {
    r := BarrierCallback(count, callback, journal);
  }

  /** The helper's state as written: a `size_t` counter that wraps, the buffer, and what was delivered. */
  datatype CallbackState<E> = CallbackState(remaining: uint64, arguments: seq<E>, delivered: Option<seq<E>>)

  /** `BarrierCallbackHelper::Run` as written, where `DCHECK_GE` on an unsigned counter can never fail. */
  function RunAsWritten<E>(remaining: uint64, arguments: seq<E>, e: E): (s: CallbackState<E>)
    ensures remaining > 0 ==> s.remaining as int == remaining as int - 1
  {
    var left := ((remaining as int - 1) % 0x1_0000_0000_0000_0000) as uint64;
    if left == 0 then CallbackState(0, [], Some(arguments + [e]))
    else CallbackState(left, arguments + [e], None)
  }

  /**
   * A run after the callback fired passes the check, wraps the counter to
   * 2^64 - 1 and buffers the element forever; `Run` above rejects it instead.
   */
  lemma ExtraRunIsNotCaught<E>(e: E)
    ensures RunAsWritten(0, [], e) == CallbackState(0xffff_ffff_ffff_ffff, [e], None)
  {
  }
}

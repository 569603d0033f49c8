/**
 * Type lists as sequences: `TypesRangeT` and `HeadTypesRangeT` slice a
 * parameter pack.
 */
module TypeTraits {

  /** `TypesRangeT<Offset, Count, Ts...>`: the `Count` types starting at `Offset`. */
  function TypesRange<T>(offset: nat, count: nat, ts: seq<T>): (r: seq<T>)
    requires count <= |ts| && offset + count <= |ts|
    ensures |r| == count
    ensures forall i :: 0 <= i < count ==> r[i] == ts[offset + i]
  {
    ts[offset..offset + count]
  }

  /** `HeadTypesRangeT<Count, Ts...>`: the first `Count` types. */
  function HeadTypesRange<T>(count: nat, ts: seq<T>): (r: seq<T>)
    requires count <= |ts|
    ensures |r| == count && r <= ts
  {
    TypesRange(0, count, ts)
  }

  /** The first `k` types and the range after them make up the whole list, in order. */
  lemma HeadAndRestAreWhole<T>(k: nat, ts: seq<T>)
    requires k <= |ts|
    ensures HeadTypesRange(k, ts) + TypesRange(k, |ts| - k, ts) == ts
  {
    var head := HeadTypesRange(k, ts);
    var rest := TypesRange(k, |ts| - k, ts);
    forall i | 0 <= i < |ts|
      ensures (head + rest)[i] == ts[i]
    {
      if i >= k {
        assert (head + rest)[i] == rest[i - k];
      }
    }
  }

  /** Taking a range of a range is taking one range of the original list. */
  lemma RangeOfRange<T>(o1: nat, c1: nat, o2: nat, c2: nat, ts: seq<T>)
    requires c1 <= |ts| && o1 + c1 <= |ts|
    requires c2 <= c1 && o2 + c2 <= c1
    ensures TypesRange(o2, c2, TypesRange(o1, c1, ts)) == TypesRange(o1 + o2, c2, ts)
  {
    var inner := TypesRange(o1, c1, ts);
    forall i | 0 <= i < c2
      ensures TypesRange(o2, c2, inner)[i] == TypesRange(o1 + o2, c2, ts)[i]
    {
      assert TypesRange(o2, c2, inner)[i] == inner[o2 + i];
    }
  }
}

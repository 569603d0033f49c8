/**
 * `ArgumentPacker`: a trace macro's extra arguments come as a flat list
 * `key1, value1, key2, value2, ...` and are packed into key-value pairs.
 */
module TraceArguments {
  import opened Int64

  /** One argument of an integer pack: a key or a value. */
  datatype Argument = Key(key: string) | Number(value: uint64)

  /**
   * `AppendArguments`: the first key and value become a pair at the end of
   * `container`, and the rest of the list is appended the same way.
   */
  function AppendArguments<T>(container: seq<(T, T)>, args: seq<T>): (r: seq<(T, T)>)
    requires |args| % 2 == 0
    ensures |r| == |container| + |args| / 2
    ensures r[..|container|] == container
    ensures forall k :: |container| <= k < |r| ==> r[k] == (args[2 * (k - |container|)], args[2 * (k - |container|) + 1])
    decreases |args|
  {
    if args == [] then container
    else
      var r := AppendArguments(container + [(args[0], args[1])], args[2..]);
      assert forall k :: |container| + 1 <= k < |r| ==> r[k] == (args[2 * (k - |container|)], args[2 * (k - |container|) + 1]);
      r
  }

  /** `PackStringArguments`: the argument count must be even (a `static_assert`). */
  function PackStringArguments(args: seq<string>): (r: seq<(string, string)>)
    requires |args| % 2 == 0
    ensures |r| == |args| / 2
    ensures forall i :: 0 <= i < |r| ==> r[i] == (args[2 * i], args[2 * i + 1])
  {
    AppendArguments([], args)
  }

  /** Whether `args` alternates keys and values, starting with a key. */
  predicate Alternates(args: seq<Argument>)
  {
    forall i :: 0 <= i < |args| ==> (i % 2 == 0 <==> args[i].Key?)
  }

  /** `PackIntegerArguments`: as `PackStringArguments`, with integer values. */
  function PackIntegerArguments(args: seq<Argument>): (r: seq<(string, uint64)>)
    requires |args| % 2 == 0 && Alternates(args)
    ensures |r| == |args| / 2
    ensures forall i :: 0 <= i < |r| ==> r[i] == (args[2 * i].key, args[2 * i + 1].value)
  {
    var pairs := AppendArguments([], args);
    seq(|pairs|, i requires 0 <= i < |pairs| =>
      assert args[2 * i].Key? && args[2 * i + 1].Number?;
      (pairs[i].0.key, pairs[i].1.value))
  }

  /** An empty pack gives no pairs, and packing a longer list extends the pack of its prefix. */
  lemma {:induction false} PackExtends(args: seq<string>, key: string, value: string)
    requires |args| % 2 == 0
    ensures PackStringArguments([]) == []
    ensures PackStringArguments(args + [key, value]) == PackStringArguments(args) + [(key, value)]
  {
    AppendArgumentsSnoc([], args, key, value);
  }

  /** Appending one more key and value to the list appends one more pair. */
  lemma {:induction false} AppendArgumentsSnoc<T>(container: seq<(T, T)>, args: seq<T>, key: T, value: T)
    requires |args| % 2 == 0
    ensures AppendArguments(container, args + [key, value]) == AppendArguments(container, args) + [(key, value)]
    decreases |args|
  {
    var full := args + [key, value];
    if args == [] {
      assert full == [key, value] && full[2..] == [];
    } else {
      assert full[0] == args[0] && full[1] == args[1] && full[2..] == args[2..] + [key, value];
      AppendArgumentsSnoc(container + [(args[0], args[1])], args[2..], key, value);
    }
  }
}

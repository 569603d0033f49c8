/**
 * The five kinds of trace event and how each writes itself as one JSON
 * object of the Chrome Trace Event Format.
 *
 * Every object is `{`, a list of `"key":value,` fields, the `"args"`
 * object, and `}`. Strings (names, categories, ids, argument keys and
 * string values) are put between quotes verbatim; integers are written in
 * decimal.
 */
module TraceEvents {
  import opened Int64
  import opened Text

  /** `StringArguments`. */
  type StringArguments = seq<(string, string)>
  /** `IntegerArguments`. */
  type IntegerArguments = seq<(string, uint64)>

  datatype TraceEvent = TraceEvent(
    name: string, cat: string, id: string, ph: char,
    ts: uint64, pid: uint64, tid: uint64, args: StringArguments)

  datatype TraceCompleteEvent = TraceCompleteEvent(
    name: string, cat: string, ts: uint64, dur: uint64,
    pid: uint64, tid: uint64, args: StringArguments)

  datatype TraceCounter = TraceCounter(
    name: string, cat: string, ts: uint64, pid: uint64, args: IntegerArguments)

  datatype TraceCounterId = TraceCounterId(
    name: string, cat: string, id: string, ts: uint64, pid: uint64, args: IntegerArguments)

  datatype TraceInstantEvent = TraceInstantEvent(
    name: string, cat: string, s: char, ts: uint64,
    pid: uint64, tid: uint64, args: StringArguments)

  // ---- the "args" object ----

  /** `"key":"value"`. */
  function StringEntry(arg: (string, string)): string
  {
    Quote(arg.0) + ":" + Quote(arg.1)
  }

  /** `"key":value`. */
  function IntegerEntry(arg: (string, uint64)): string
  {
    Quote(arg.0) + ":" + Decimal(arg.1 as nat)
  }

  /** Each entry followed by a comma, except the last one. */
  function Separated(entries: seq<string>): (pieces: seq<string>)
    ensures |pieces| == |entries|
    ensures forall i :: 0 <= i < |entries| ==> pieces[i] == entries[i] + (if i < |entries| - 1 then "," else "")
  {
    seq(|entries|, i requires 0 <= i < |entries| => entries[i] + (if i < |entries| - 1 then "," else ""))
  }

  /** The entries are separated by single commas, with none after the last. */
  lemma {:induction false} SeparatedIsJoin(entries: seq<string>)
    ensures Concat(Separated(entries)) == Join(entries, ",")
    decreases |entries|
  {
    if |entries| > 1 {
      assert Separated(entries)[1..] == Separated(entries[1..]);
      SeparatedIsJoin(entries[1..]);
      assert entries[0] + "," + Join(entries[1..], ",") == (entries[0] + ",") + Join(entries[1..], ",");
    } else if |entries| == 1 {
      assert Separated(entries)[0] == entries[0] + "" == entries[0];
      assert Separated(entries) == [entries[0]];
      assert Concat([entries[0]]) == entries[0] + Concat([]);
    }
  }

  /** `"args":{...}` around the given entries. */
  function ArgumentsObject(entries: seq<string>): (s: string)
    ensures s == "\"args\":{" + Join(entries, ",") + "}"
  {
    SeparatedIsJoin(entries);
    "\"args\":{" + Concat(Separated(entries)) + "}"
  }

  function StringEntries(args: StringArguments): (entries: seq<string>)
    ensures |entries| == |args| && forall i :: 0 <= i < |args| ==> entries[i] == StringEntry(args[i])
  {
    seq(|args|, i requires 0 <= i < |args| => StringEntry(args[i]))
  }

  function IntegerEntries(args: IntegerArguments): (entries: seq<string>)
    ensures |entries| == |args| && forall i :: 0 <= i < |args| ==> entries[i] == IntegerEntry(args[i])
  {
    seq(|args|, i requires 0 <= i < |args| => IntegerEntry(args[i]))
  }

  /**
   * The loop of both `WriteArgumentsToStream` overloads: each entry, then a
   * comma unless it is the last one, between `"args":{` and `}`.
   */
  method WriteEntries(stream: OStream, entries: seq<string>)
    modifies stream
    ensures stream.text == old(stream.text) + ArgumentsObject(entries)
  {
    stream.Write("\"args\":{");
    ghost var pieces := Separated(entries);
    var i := 0;
    while i < |entries|
      invariant 0 <= i <= |entries|
      invariant stream.text == old(stream.text) + "\"args\":{" + Concat(pieces[..i])
    {
      stream.Write(entries[i]);
      if i != |entries| - 1 {
        stream.Write(",");
      }
      ConcatExtend(pieces, i);
      i := i + 1;
    }
    assert pieces[..i] == pieces;
    stream.Write("}");
  }

  /** `WriteArgumentsToStream` for string arguments: values are quoted. */
  method WriteStringArguments(stream: OStream, args: StringArguments)
    modifies stream
    ensures stream.text == old(stream.text) + ArgumentsObject(StringEntries(args))
  {
    WriteEntries(stream, StringEntries(args));
  }

  /** `WriteArgumentsToStream` for integer arguments: values are written in decimal, unquoted. */
  method WriteIntegerArguments(stream: OStream, args: IntegerArguments)
    modifies stream
    ensures stream.text == old(stream.text) + ArgumentsObject(IntegerEntries(args))
  {
    WriteEntries(stream, IntegerEntries(args));
  }

  // ---- the objects ----

  /** One `"key":value` field of an object; `value` is already formatted. */
  datatype Field = Field(key: string, value: string)

  function Keys(fields: seq<Field>): (keys: seq<string>)
    ensures |keys| == |fields| && forall i :: 0 <= i < |fields| ==> keys[i] == fields[i].key
  {
    seq(|fields|, i requires 0 <= i < |fields| => fields[i].key)
  }

  /** `"key":value,`. */
  function FieldText(f: Field): string
  {
    Quote(f.key) + ":" + f.value + ","
  }

  function FieldTexts(fields: seq<Field>): (pieces: seq<string>)
    ensures |pieces| == |fields| && forall i :: 0 <= i < |fields| ==> pieces[i] == FieldText(fields[i])
  {
    seq(|fields|, i requires 0 <= i < |fields| => FieldText(fields[i]))
  }

  /** The text of an object: `{`, each field as `"key":value,`, the arguments object, `}`. */
  function ObjectText(fields: seq<Field>, arguments: string): (s: string)
    ensures |s| >= 2 && s[0] == '{' && s[|s| - 1] == '}'
  {
    "{" + Concat(FieldTexts(fields)) + arguments + "}"
  }

  /** The fields of `TraceEvent::WriteTo`. */
  function EventFields(e: TraceEvent): (fs: seq<Field>)
    ensures Keys(fs) == ["name", "cat"] + (if e.id != [] then ["id"] else []) + ["ph", "ts", "pid", "tid"]
    ensures fs[0] == Field("name", Quote(e.name)) && fs[1] == Field("cat", Quote(e.cat))
    ensures e.id != [] ==> fs[2] == Field("id", Quote(e.id))
    ensures var o := if e.id != [] then 1 else 0;
            fs[2 + o].value == Quote([e.ph]) && fs[3 + o].value == Decimal(e.ts as nat)
  {
    [Field("name", Quote(e.name)), Field("cat", Quote(e.cat))]
    + (if e.id != [] then [Field("id", Quote(e.id))] else [])
    + [Field("ph", Quote([e.ph])), Field("ts", Decimal(e.ts as nat)),
       Field("pid", Decimal(e.pid as nat)), Field("tid", Decimal(e.tid as nat))]
  }

  /** The fields of `TraceCompleteEvent::WriteTo`: phase `X`, and the duration right after the start. */
  function CompleteEventFields(e: TraceCompleteEvent): (fs: seq<Field>)
    ensures Keys(fs) == ["name", "cat", "ph", "ts", "dur", "pid", "tid"]
    ensures fs[0] == Field("name", Quote(e.name)) && fs[1] == Field("cat", Quote(e.cat))
    ensures fs[2].value == Quote("X")
    ensures fs[3].value == Decimal(e.ts as nat) && fs[4].value == Decimal(e.dur as nat)
  {
    [Field("name", Quote(e.name)), Field("cat", Quote(e.cat)), Field("ph", Quote("X")),
     Field("ts", Decimal(e.ts as nat)), Field("dur", Decimal(e.dur as nat)),
     Field("pid", Decimal(e.pid as nat)), Field("tid", Decimal(e.tid as nat))]
  }

  /** The fields of `TraceCounter::WriteTo`: phase `C`, and no thread id. */
  function CounterFields(e: TraceCounter): (fs: seq<Field>)
    ensures Keys(fs) == ["name", "cat", "ph", "ts", "pid"]
    ensures fs[0] == Field("name", Quote(e.name)) && fs[1] == Field("cat", Quote(e.cat))
    ensures fs[2].value == Quote("C") && "tid" !in Keys(fs)
  {
    [Field("name", Quote(e.name)), Field("cat", Quote(e.cat)), Field("ph", Quote("C")),
     Field("ts", Decimal(e.ts as nat)), Field("pid", Decimal(e.pid as nat))]
  }

  /** The fields of `TraceCounterId::WriteTo`: as a counter, with its id. */
  function CounterIdFields(e: TraceCounterId): (fs: seq<Field>)
    ensures Keys(fs) == ["name", "cat", "id", "ph", "ts", "pid"]
    ensures fs[0] == Field("name", Quote(e.name)) && fs[1] == Field("cat", Quote(e.cat))
    ensures fs[2].value == Quote(e.id) && fs[3].value == Quote("C") && "tid" !in Keys(fs)
  {
    [Field("name", Quote(e.name)), Field("cat", Quote(e.cat)), Field("id", Quote(e.id)),
     Field("ph", Quote("C")), Field("ts", Decimal(e.ts as nat)), Field("pid", Decimal(e.pid as nat))]
  }

  /** The fields of `TraceInstantEvent::WriteTo`: its scope `s`, then phase `i`. */
  function InstantEventFields(e: TraceInstantEvent): (fs: seq<Field>)
    ensures Keys(fs) == ["name", "cat", "s", "ph", "ts", "pid", "tid"]
    ensures fs[0] == Field("name", Quote(e.name)) && fs[1] == Field("cat", Quote(e.cat))
    ensures fs[2].value == Quote([e.s]) && fs[3].value == Quote("i")
  {
    [Field("name", Quote(e.name)), Field("cat", Quote(e.cat)), Field("s", Quote([e.s])),
     Field("ph", Quote("i")), Field("ts", Decimal(e.ts as nat)),
     Field("pid", Decimal(e.pid as nat)), Field("tid", Decimal(e.tid as nat))]
  }

  /** `TraceEvent::WriteTo`. */
  function EventJson(e: TraceEvent): string
  {
    ObjectText(EventFields(e), ArgumentsObject(StringEntries(e.args)))
  }

  /** `TraceCompleteEvent::WriteTo`. */
  function CompleteEventJson(e: TraceCompleteEvent): string
  {
    ObjectText(CompleteEventFields(e), ArgumentsObject(StringEntries(e.args)))
  }

  /** `TraceCounter::WriteTo`. */
  function CounterJson(e: TraceCounter): string
  {
    ObjectText(CounterFields(e), ArgumentsObject(IntegerEntries(e.args)))
  }

  /** `TraceCounterId::WriteTo`. */
  function CounterIdJson(e: TraceCounterId): string
  {
    ObjectText(CounterIdFields(e), ArgumentsObject(IntegerEntries(e.args)))
  }

  /** `TraceInstantEvent::WriteTo`. */
  function InstantEventJson(e: TraceInstantEvent): string
  {
    ObjectText(InstantEventFields(e), ArgumentsObject(StringEntries(e.args)))
  }

  /** An object with at least two fields opens with those two fields, in order. */
  lemma ObjectStartsWithTwoFields(fields: seq<Field>, arguments: string)
    requires |fields| >= 2
    ensures ObjectText(fields, arguments)
         == "{" + FieldText(fields[0]) + FieldText(fields[1]) + Concat(FieldTexts(fields[2..])) + arguments + "}"
  {
    var pieces := FieldTexts(fields);
    assert pieces[1..][0] == pieces[1] && pieces[1..][1..] == pieces[2..] == FieldTexts(fields[2..]);
    var rest := Concat(pieces[2..]);
    assert Concat(pieces[1..]) == pieces[1] + rest;
    assert Concat(pieces) == pieces[0] + (pieces[1] + rest);
  }

  /** The arguments object of an event without arguments is empty. */
  lemma NoArgumentsIsEmptyObject()
    ensures ArgumentsObject([]) == "\"args\":{}"
  {
  }

  /** A string argument value is quoted and an integer one is not. */
  lemma ArgumentValueFormats(key: string, text: string, n: uint64)
    ensures StringEntry((key, text)) == Quote(key) + ":" + Quote(text)
    ensures IntegerEntry((key, n)) == Quote(key) + ":" + Decimal(n as nat)
    ensures IsDigit(IntegerEntry((key, n))[|IntegerEntry((key, n))| - 1])
  {
  }
}

/**
 * `EventRegister`: the process-wide store of recorded trace events, one
 * list per kind, and the flush that writes them all as a trace file and
 * starts over.
 *
 * The register is one object passed to its users instead of a static
 * instance. The clock reading, process id and thread id that the source
 * fetches itself are parameters of each recording method: a `ts` or `now`
 * parameter stands for what `GetTs` returns, which is `Timestamp` of the
 * first clock reading and the current one.
 */
module TraceRegister {
  import opened Wrappers
  import opened Int64
  import opened Deltas
  import opened Times
  import opened Text
  import opened TraceArguments
  import opened TraceEvents
  import opened TraceJson

  /** The implicit conversion of an `int64` to `uint64`: modulo 2^64. */
  function ToUint64(x: int64): (r: uint64)
    ensures x >= 0 ==> r as int == x as int
    ensures x < 0 ==> r as int == x as int + 0x1_0000_0000_0000_0000
  {
    if x >= 0 then x as int as uint64 else (x as int + 0x1_0000_0000_0000_0000) as uint64
  }

  /**
   * `GetTs`: microseconds since `origin`, the clock reading of the first
   * call. A clock that went back before `origin` gives a wrapped, huge
   * timestamp.
   */
  function Timestamp(origin: Time, now: Time): (ts: uint64)
    requires InRange(now.us as int - origin.us as int)
    ensures origin.us <= now.us ==> ts as int == now.us as int - origin.us as int
    ensures now.us < origin.us ==> ts as int >= 0x8000_0000_0000_0000
  {
    ToUint64(InMicroseconds(Diff(now, origin)))
  }

  /**
   * The event `PushCompleteEvent` records for a span of `duration`
   * microseconds that ends now, or nothing when the span would start
   * before the origin of the clock.
   */
  function CompleteEventEndingAt(categories: string, name: string, duration: uint64, args: StringArguments,
                                 now: uint64, pid: uint64, tid: uint64): (r: Option<TraceCompleteEvent>)
    ensures r.Some? <==> duration <= now
    ensures r.Some? ==> r.value.ts as int + r.value.dur as int == now as int && r.value.dur == duration
    ensures r.Some? ==> r.value.name == name && r.value.cat == categories && r.value.args == args
    ensures r.Some? ==> r.value.pid == pid && r.value.tid == tid
  {
    if now < duration then None
    else Some(TraceCompleteEvent(name, categories, now - duration, duration, pid, tid, args))
  }

  /** The list an optional event adds: itself, or nothing. */
  function AsList<T>(o: Option<T>): (s: seq<T>)
    ensures |s| <= 1 && (o.None? ==> s == []) && (o.Some? ==> s == [o.value])
  {
    if o.Some? then [o.value] else []
  }

  /** `std::to_string` of a pointer converted to `uintptr_t`: its address in decimal. */
  function PointerId(address: uint64): (id: string)
    ensures id != [] && forall i :: 0 <= i < |id| ==> IsDigit(id[i])
  {
    Decimal(address as nat)
  }

  /** Different addresses give different ids, and no address gives the empty id of synchronous events. */
  lemma PointerIdsAreDistinct(a: uint64, b: uint64)
    ensures PointerId(a) == PointerId(b) <==> a == b
    ensures PointerId(a) != ""
  {
    if PointerId(a) == PointerId(b) {
      DecimalInjective(a as nat, b as nat);
    }
  }

  class EventRegister {
    var events: seq<TraceEvent>
    var completeEvents: seq<TraceCompleteEvent>
    var counterEvents: seq<TraceCounter>
    var counterIdEvents: seq<TraceCounterId>
    var instantEvents: seq<TraceInstantEvent>

    /** The text a flush would write now. */
    function FileText(): string
      reads this
    {
      TraceFileText(AllTexts(events, completeEvents, counterEvents, counterIdEvents, instantEvents))
    }

    predicate Empty()
      reads this
    {
      events == [] && completeEvents == [] && counterEvents == [] && counterIdEvents == [] && instantEvents == []
    }

    constructor ()
      ensures Empty()
    {
      events, completeEvents, counterEvents, counterIdEvents, instantEvents := [], [], [], [], [];
    }

    method PushGenericEvent(categories: string, name: string, id: string, phase: char, args: StringArguments,
                            ts: uint64, pid: uint64, tid: uint64)
      modifies this
      ensures events == old(events) + [TraceEvent(name, categories, id, phase, ts, pid, tid, args)]
      ensures completeEvents == old(completeEvents) && counterEvents == old(counterEvents)
      ensures counterIdEvents == old(counterIdEvents) && instantEvents == old(instantEvents)
    {
      events := events + [TraceEvent(name, categories, id, phase, ts, pid, tid, args)];
    }

    /** Records a span that ends `now` and lasted `duration`; a span reaching back before the clock's origin is dropped. */
    method PushCompleteEvent(categories: string, name: string, duration: uint64, args: StringArguments,
                             now: uint64, pid: uint64, tid: uint64)
      modifies this
      ensures completeEvents == old(completeEvents) + AsList(CompleteEventEndingAt(categories, name, duration, args, now, pid, tid))
      ensures events == old(events) && counterEvents == old(counterEvents)
      ensures counterIdEvents == old(counterIdEvents) && instantEvents == old(instantEvents)
    {
      if now < duration {
        return;
      }
      var ts := now - duration;
      completeEvents := completeEvents + [TraceCompleteEvent(name, categories, ts, duration, pid, tid, args)];
    }

    method PushCounter(categories: string, name: string, args: IntegerArguments, ts: uint64, pid: uint64)
      modifies this
      ensures counterEvents == old(counterEvents) + [TraceCounter(name, categories, ts, pid, args)]
      ensures events == old(events) && completeEvents == old(completeEvents)
      ensures counterIdEvents == old(counterIdEvents) && instantEvents == old(instantEvents)
    {
      counterEvents := counterEvents + [TraceCounter(name, categories, ts, pid, args)];
    }

    method PushCounterId(categories: string, name: string, id: string, args: IntegerArguments, ts: uint64, pid: uint64)
      modifies this
      ensures counterIdEvents == old(counterIdEvents) + [TraceCounterId(name, categories, id, ts, pid, args)]
      ensures events == old(events) && completeEvents == old(completeEvents)
      ensures counterEvents == old(counterEvents) && instantEvents == old(instantEvents)
    {
      counterIdEvents := counterIdEvents + [TraceCounterId(name, categories, id, ts, pid, args)];
    }

    method PushInstantEvent(categories: string, name: string, scope: char, args: StringArguments,
                            ts: uint64, pid: uint64, tid: uint64)
      modifies this
      ensures instantEvents == old(instantEvents) + [TraceInstantEvent(name, categories, scope, ts, pid, tid, args)]
      ensures events == old(events) && completeEvents == old(completeEvents)
      ensures counterEvents == old(counterEvents) && counterIdEvents == old(counterIdEvents)
    {
      instantEvents := instantEvents + [TraceInstantEvent(name, categories, scope, ts, pid, tid, args)];
    }

    /** `RegisterEvent`: a synchronous event, whose id is empty. */
    method RegisterEvent(categories: string, name: string, phase: char, args: seq<string>,
                         ts: uint64, pid: uint64, tid: uint64)
      requires |args| % 2 == 0
      modifies this
      ensures events == old(events) + [TraceEvent(name, categories, "", phase, ts, pid, tid, PackStringArguments(args))]
      ensures completeEvents == old(completeEvents) && counterEvents == old(counterEvents)
      ensures counterIdEvents == old(counterIdEvents) && instantEvents == old(instantEvents)
    {
      PushGenericEvent(categories, name, "", phase, PackStringArguments(args), ts, pid, tid);
    }

    /** `RegisterAsyncEvent`: an event whose id is the address of the object it belongs to. */
    method RegisterAsyncEvent(categories: string, name: string, address: uint64, phase: char, args: seq<string>,
                              ts: uint64, pid: uint64, tid: uint64)
      requires |args| % 2 == 0
      modifies this
      ensures events == old(events) + [TraceEvent(name, categories, PointerId(address), phase, ts, pid, tid, PackStringArguments(args))]
      ensures completeEvents == old(completeEvents) && counterEvents == old(counterEvents)
      ensures counterIdEvents == old(counterIdEvents) && instantEvents == old(instantEvents)
    {
      PushGenericEvent(categories, name, PointerId(address), phase, PackStringArguments(args), ts, pid, tid);
    }

    method RegisterCompleteEvent(categories: string, name: string, duration: uint64, args: seq<string>,
                                 now: uint64, pid: uint64, tid: uint64)
      requires |args| % 2 == 0
      modifies this
      ensures completeEvents == old(completeEvents)
                              + AsList(CompleteEventEndingAt(categories, name, duration, PackStringArguments(args), now, pid, tid))
      ensures events == old(events) && counterEvents == old(counterEvents)
      ensures counterIdEvents == old(counterIdEvents) && instantEvents == old(instantEvents)
    {
      PushCompleteEvent(categories, name, duration, PackStringArguments(args), now, pid, tid);
    }

    /** `RegisterCounter`, with its key-value list packed as integer arguments, the type the counter holds. */
    method RegisterCounter(categories: string, name: string, args: seq<Argument>, ts: uint64, pid: uint64)
      requires |args| % 2 == 0 && Alternates(args)
      modifies this
      ensures counterEvents == old(counterEvents) + [TraceCounter(name, categories, ts, pid, PackIntegerArguments(args))]
      ensures events == old(events) && completeEvents == old(completeEvents)
      ensures counterIdEvents == old(counterIdEvents) && instantEvents == old(instantEvents)
    {
      PushCounter(categories, name, PackIntegerArguments(args), ts, pid);
    }

    /** `RegisterCounterId`: as `RegisterCounter`, with the address of the counted object as id. */
    method RegisterCounterId(categories: string, name: string, address: uint64, args: seq<Argument>, ts: uint64, pid: uint64)
      requires |args| % 2 == 0 && Alternates(args)
      modifies this
      ensures counterIdEvents == old(counterIdEvents) + [TraceCounterId(name, categories, PointerId(address), ts, pid, PackIntegerArguments(args))]
      ensures events == old(events) && completeEvents == old(completeEvents)
      ensures counterEvents == old(counterEvents) && instantEvents == old(instantEvents)
    {
      PushCounterId(categories, name, PointerId(address), PackIntegerArguments(args), ts, pid);
    }

    method RegisterInstantEvent(categories: string, name: string, scope: char, args: seq<string>,
                                ts: uint64, pid: uint64, tid: uint64)
      requires |args| % 2 == 0
      modifies this
      ensures instantEvents == old(instantEvents) + [TraceInstantEvent(name, categories, scope, ts, pid, tid, PackStringArguments(args))]
      ensures events == old(events) && completeEvents == old(completeEvents)
      ensures counterEvents == old(counterEvents) && counterIdEvents == old(counterIdEvents)
    {
      PushInstantEvent(categories, name, scope, PackStringArguments(args), ts, pid, tid);
    }

    /** `FlushAllEvents`: writes every recorded event as one trace file, then forgets them all. */
    method FlushAllEvents(stream: OStream)
      modifies this, stream
      ensures stream.text == old(stream.text) + old(FileText())
      ensures Empty()
    {
      ghost var text := FileText();
      WriteAll(stream, events, completeEvents, counterEvents, counterIdEvents, instantEvents);
      assert stream.text == old(stream.text) + text;
      events, completeEvents, counterEvents, counterIdEvents, instantEvents := [], [], [], [], [];
    }

    /** `FlushEventsToFile`: the file is a new stream that receives exactly the trace file. */
    method FlushEventsToFile() returns (file: OStream)
      modifies this
      ensures fresh(file) && file.text == old(FileText())
      ensures Empty()
    {
      ghost var text := FileText();
      file := new OStream();
      assert FileText() == text;
      FlushAllEvents(file);
    }
  }

  /** A flush right after another writes an empty trace file. */
  method FlushTwice(register: EventRegister, stream: OStream)
    modifies register, stream
    ensures stream.text == old(stream.text) + old(register.FileText()) + "{\"traceEvents\":[\n\n]}"
  {
    register.FlushAllEvents(stream);
    EmptyTraceFile();
    register.FlushAllEvents(stream);
  }
}

/**
 * `JsonWriter`: a trace file is one JSON object whose `traceEvents` array
 * holds every recorded event, the five kinds one after the other, with
 * `,\n` between consecutive events.
 */
module TraceJson {
  import opened Text
  import opened TraceEvents

  /** What the events' `WriteTo` writes, event by event, given the `WriteTo` of their kind. */
  function Texts<T>(events: seq<T>, writeTo: T -> string): (texts: seq<string>)
    ensures |texts| == |events| && forall i :: 0 <= i < |events| ==> texts[i] == writeTo(events[i])
  {
    seq(|events|, i requires 0 <= i < |events| => writeTo(events[i]))
  }

  /**
   * What `WriteEvents` writes for events with the given texts, when
   * `written` says whether an event has been written before: each text,
   * preceded by `,\n` unless it is the very first one.
   */
  function Chunk(texts: seq<string>, written: bool): string
    decreases |texts|
  {
    if texts == [] then []
    else (if written then ",\n" else "") + texts[0] + Chunk(texts[1..], true)
  }

  /** Writing two lists in turn is writing their concatenation. */
  lemma {:induction false} ChunkAppend(a: seq<string>, b: seq<string>, written: bool)
    ensures Chunk(a + b, written) == Chunk(a, written) + Chunk(b, written || |a| > 0)
    decreases |a|
  {
    if a == [] {
      assert a + b == b;
    } else {
      assert (a + b)[0] == a[0] && (a + b)[1..] == a[1..] + b;
      ChunkAppend(a[1..], b, true);
      var sep := if written then ",\n" else "";
      assert sep + a[0] + (Chunk(a[1..], true) + Chunk(b, true))
          == (sep + a[0] + Chunk(a[1..], true)) + Chunk(b, true);
    }
  }

  /**
   * Starting with nothing written, the texts are separated by `,\n` with
   * none before the first or after the last; after earlier events, one
   * separator comes first.
   */
  lemma {:induction false} ChunkIsJoin(texts: seq<string>)
    ensures Chunk(texts, false) == Join(texts, ",\n")
    ensures Chunk(texts, true) == if texts == [] then [] else ",\n" + Join(texts, ",\n")
    decreases |texts|
  {
    if texts != [] {
      var rest := texts[1..];
      ChunkIsJoin(rest);
      if rest == [] {
        assert Chunk(texts, false) == texts[0];
      } else {
        assert Chunk(texts, false) == texts[0] + (",\n" + Join(rest, ",\n"));
      }
      assert Chunk(texts, true) == ",\n" + Chunk(texts, false);
    }
  }

  /** The event texts in the order `WriteAll` writes them: generic, complete, counter, counter with id, instant. */
  function AllTexts(generic: seq<TraceEvent>, complete: seq<TraceCompleteEvent>, counter: seq<TraceCounter>,
                    counterId: seq<TraceCounterId>, instant: seq<TraceInstantEvent>): seq<string>
  {
    Texts(generic, EventJson) + Texts(complete, CompleteEventJson) + Texts(counter, CounterJson)
    + Texts(counterId, CounterIdJson) + Texts(instant, InstantEventJson)
  }

  const Header := "{\"traceEvents\":[\n"
  const Trailer := "\n]}"

  /** A trace file holding events with these texts: the header, the texts separated by `,\n`, the trailer. */
  function TraceFileText(texts: seq<string>): string
  {
    Header + Join(texts, ",\n") + Trailer
  }

  /** Writing the events from `i` on: the separator if needed, event `i`, then the rest after it. */
  lemma ChunkStep(texts: seq<string>, i: nat, written: bool)
    requires i < |texts|
    ensures Chunk(texts[i..], written) == (if written then ",\n" else "") + texts[i] + Chunk(texts[i + 1..], true)
  {
    assert texts[i..][0] == texts[i] && texts[i..][1..] == texts[i + 1..];
  }

  /**
   * `WriteEvents`, a template over the event kind: each event's `WriteTo`,
   * preceded by `,\n` when something was written before; `written` tells
   * the next call whether anything has been written by now.
   */
  method WriteEvents<T>(stream: OStream, events: seq<T>, writeTo: T -> string, writtenData: bool) returns (written: bool)
    modifies stream
    ensures stream.text == old(stream.text) + Chunk(Texts(events, writeTo), writtenData)
    ensures written == (writtenData || |events| > 0)
  {
    ghost var texts := Texts(events, writeTo);
    written := writtenData;
    var i := 0;
    while i < |events|
      invariant 0 <= i <= |events|
      invariant written == (writtenData || i > 0)
      invariant old(stream.text) + Chunk(texts, writtenData) == stream.text + Chunk(texts[i..], written)
    {
      ChunkStep(texts, i, written);
      ghost var before := stream.text;
      if written {
        stream.Write(",\n");
      }
      stream.Write(writeTo(events[i]));
      assert stream.text == before + (if written then ",\n" else "") + texts[i];
      written := true;
      i := i + 1;
    }
    assert texts[i..] == [];
  }

  /**
   * `WriteAll`, for five lists of any kinds: the header, the five lists
   * through one shared `written` flag, the trailer.
   */
  method WriteLists<A, B, C, D, E>(stream: OStream, a: seq<A>, writeA: A -> string, b: seq<B>, writeB: B -> string,
                                   c: seq<C>, writeC: C -> string, d: seq<D>, writeD: D -> string,
                                   e: seq<E>, writeE: E -> string)
    modifies stream
    ensures stream.text == old(stream.text)
                         + TraceFileText(Texts(a, writeA) + Texts(b, writeB) + Texts(c, writeC) + Texts(d, writeD) + Texts(e, writeE))
  {
    stream.Write(Header);
    ghost var start := stream.text;
    var written := false;
    written := WriteEvents(stream, a, writeA, written);
    ghost var done := Texts(a, writeA);
    ghost var more := Texts(b, writeB);
    ghost var before := stream.text;
    written := WriteEvents(stream, b, writeB, written);
    ChunkExtend(start, done, before, more, stream.text);
    done := done + more;
    more := Texts(c, writeC);
    before := stream.text;
    written := WriteEvents(stream, c, writeC, written);
    ChunkExtend(start, done, before, more, stream.text);
    done := done + more;
    more := Texts(d, writeD);
    before := stream.text;
    written := WriteEvents(stream, d, writeD, written);
    ChunkExtend(start, done, before, more, stream.text);
    done := done + more;
    more := Texts(e, writeE);
    before := stream.text;
    written := WriteEvents(stream, e, writeE, written);
    ChunkExtend(start, done, before, more, stream.text);
    done := done + more;
    stream.Write(Trailer);
    FinishFile(old(stream.text), start, done, stream.text);
  }

  /** The header, the lists written as one, the trailer: the trace file. */
  lemma FinishFile(previous: string, start: string, done: seq<string>, text: string)
    requires start == previous + Header
    requires text == start + Chunk(done, false) + Trailer
    ensures text == previous + TraceFileText(done)
  {
    ChunkIsJoin(done);
  }

  /** `WriteAll`: the whole trace file for the five lists, each event written by its own kind's `WriteTo`. */
  method WriteAll(stream: OStream, generic: seq<TraceEvent>, complete: seq<TraceCompleteEvent>,
                  counter: seq<TraceCounter>, counterId: seq<TraceCounterId>, instant: seq<TraceInstantEvent>)
    modifies stream
    ensures stream.text == old(stream.text) + TraceFileText(AllTexts(generic, complete, counter, counterId, instant))
  {
    WriteLists(stream, generic, EventJson, complete, CompleteEventJson, counter, CounterJson,
               counterId, CounterIdJson, instant, InstantEventJson);
  }

  /** The step of `WriteAll`: one more `WriteEvents` call extends what has been written as one list. */
  lemma ChunkExtend(start: string, done: seq<string>, before: string, more: seq<string>, after: string)
    requires before == start + Chunk(done, false)
    requires after == before + Chunk(more, |done| > 0)
    ensures after == start + Chunk(done + more, false)
  {
    ChunkAppend(done, more, false);
  }

  /** With no events recorded, the file is an empty array. */
  lemma EmptyTraceFile()
    ensures TraceFileText([]) == "{\"traceEvents\":[\n\n]}"
  {
  }

  /** Two events make a file with exactly one separator between them. */
  lemma TwoEventFile(first: string, second: string)
    ensures TraceFileText([first, second]) == Header + first + ",\n" + second + Trailer
  {
    assert [first, second][1..] == [second];
    assert Join([first, second], ",\n") == first + ",\n" + second;
  }
}

/**
 * `AutoSignaller`: an armed signaller holds an event and signals it when it
 * is destroyed, unless it was disarmed first. Disarmed means the event
 * pointer is null.
 */
module AutoSignallers {
  import opened WaitableEvents

  /** The event an armed signaller may touch. */
  function EventFrame(e: WaitableEvent?): set<object>
  {
    if e == null then {} else {e}
  }

  class AutoSignaller {
    /** `event_`; null once disarmed. */
    var event: WaitableEvent?

    predicate Armed()
      reads this
    {
      event != null
    }

    /** Arms the signaller with `event`; nothing is signalled yet. */
    constructor (event: WaitableEvent)
      ensures this.event == event
    {
      this.event := event;
    }

    /** The move constructor: the arming moves here and `other` is disarmed. */
    constructor Moved(other: AutoSignaller)
      modifies other
      ensures event == old(other.event) && other.event == null
    {
      event := other.event;
      new;
      other.event := null;
    }

    /** The destructor: an armed signaller signals its event once. */
    method Dispose()
      modifies EventFrame(event)
      ensures event != null ==> event.signaled && event.signalCount == old(event.signalCount) + 1
    {
      if event != null {
        event.Signal();
      }
    }

    /**
     * Move assignment: unless `other` is this signaller, this one's own event
     * is signalled if armed, then `other`'s arming moves here and `other` is
     * disarmed. Self-assignment changes nothing.
     */
    method MoveAssign(other: AutoSignaller)
      modifies this, other, EventFrame(event)
      ensures other == this ==> event == old(event) && (event != null ==> unchanged(event))
      ensures other != this ==> event == old(other.event) && other.event == null
      ensures other != this && old(event) != null ==>
                old(event).signaled && old(event).signalCount == old(event.signalCount) + 1
    {
      if other != this {
        if event != null {
          event.Signal();
        }
        event := other.event;
        other.event := null;
      }
    }

    /** `SignalAndReset`: an armed signaller signals and disarms; a disarmed one does nothing. */
    method SignalAndReset()
      modifies this, EventFrame(event)
      ensures event == null
      ensures old(event) != null ==> old(event).signaled && old(event).signalCount == old(event.signalCount) + 1
    {
      if event != null {
        event.Signal();
        event := null;
      }
    }

    /** `Cancel`: disarms without signalling. */
    method Cancel()
      modifies this
      ensures event == null
    {
      event := null;
    }
  }

  /** `SignalAndReset` twice signals once: the second call finds the signaller disarmed. */
  method SignalAndResetTwice(s: AutoSignaller, e: WaitableEvent)
    requires s.event == e
    modifies s, e
    ensures e.signalCount == old(e.signalCount) + 1 && e.signaled && s.event == null
  {
    s.SignalAndReset();
    s.SignalAndReset();
  }

  /** A cancelled signaller's destruction signals nothing. */
  method CancelThenDispose(s: AutoSignaller, e: WaitableEvent)
    requires s.event == e
    modifies s, e
    ensures e.signalCount == old(e.signalCount) && e.signaled == old(e.signaled)
  {
    s.Cancel();
    s.Dispose();
  }
}

/**
 * `WaitableEvent`: a flag that `Signal` raises and `Reset` lowers. Under the
 * automatic policy, observing a raised flag (through `IsSignaled` or `Wait`)
 * lowers it again, so each signal is seen once. The mutex and condition
 * variable are not modelled; `Wait` returns whether it would return at once.
 */
module WaitableEvents {

  datatype ResetPolicy = Manual | Automatic

  datatype InitialState = Signaled | NotSignaled

  /** What `IsSignaledLocked` reports and the flag it leaves. */
  datatype Observation = Observation(result: bool, signaled: bool)

  /** `IsSignaledLocked` on the flag: it reports the flag and, under the automatic policy, lowers it. */
  function Observe(policy: ResetPolicy, signaled: bool): (o: Observation)
    ensures o.result == signaled
    ensures o.signaled <==> (signaled && policy.Manual?)
  {
    if signaled && policy == Automatic then Observation(true, false) else Observation(signaled, signaled)
  }

  /** Under the manual policy observing changes nothing, so it can be repeated. */
  lemma ManualObservationIsStable(signaled: bool)
    ensures Observe(Manual, Observe(Manual, signaled).signaled) == Observe(Manual, signaled)
    ensures Observe(Manual, signaled).signaled == signaled
  {
  }

  /** Under the automatic policy a signal is seen once: a second observation without a new signal is negative. */
  lemma AutomaticSignalIsSeenOnce(signaled: bool)
    ensures !Observe(Automatic, Observe(Automatic, signaled).signaled).result
  {
  }

  class WaitableEvent {
    const policy: ResetPolicy
    /** `is_signaled_`. */
    var signaled: bool
    /** How many times `Signal` was called. */
    ghost var signalCount: nat

    constructor (policy: ResetPolicy, initial: InitialState)
      ensures this.policy == policy
      ensures signaled <==> initial == Signaled
      ensures signalCount == 0
    {
      this.policy := policy;
      signaled := initial == Signaled;
      signalCount := 0;
    }

    method Reset()
      modifies this
      ensures !signaled && signalCount == old(signalCount)
    {
      signaled := false;
    }

    method Signal()
      modifies this
      ensures signaled && signalCount == old(signalCount) + 1
    {
      signaled := true;
      signalCount := signalCount + 1;
    }

    /** `IsSignaledLocked` (and `IsSignaled`, which only adds the lock). */
    method IsSignaled() returns (r: bool)
      modifies this
      ensures Observation(r, signaled) == Observe(policy, old(signaled))
      ensures signalCount == old(signalCount)
    {
      r := signaled;
      if r && policy == Automatic {
        Reset();
      }
    }

    /** `Wait` without the blocking wait: whether it returns at once, consuming the signal under the automatic policy. */
    method Wait() returns (returned: bool)
      modifies this
      ensures Observation(returned, signaled) == Observe(policy, old(signaled))
      ensures signalCount == old(signalCount)
    {
      returned := IsSignaled();
    }
  }
}

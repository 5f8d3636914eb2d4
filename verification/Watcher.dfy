/** The single read of the T4 watcher and the short-lived call flag it shares with the main thread. */
module Watcher {
  import opened Common
  import C = Control

  datatype Observation = Observation(raw: Option<seq<C.Byte>>, kind: Option<int>, stopApplied: bool)

  /** The call flag: `Apply` runs its action only while the flag is up. */
  class CallState {
    var active: bool
    ghost var applied: nat

    constructor ()
      ensures !active && applied == 0
    {
      active, applied := false, 0;
    }

    method Activate()
      modifies this`active
      ensures active
    {
      active := true;
    }

    method Deactivate()
      modifies this`active
      ensures !active
    {
      active := false;
    }

    method Apply() returns (done: bool)
      modifies this`applied
      ensures done == active && applied == old(applied) + (if done then 1 else 0)
    {
      if !active {
        return false;
      }
      applied := applied + 1;
      return true;
    }
  }

  /** What the watcher concludes from one frame, given whether the flag was up when it looked. */
  function Observe(raw: Option<seq<C.Byte>>, expectedSeq: int, active: bool): Observation {
    if raw.None? then Observation(None, None, false)
    else
      var control := C.DecodeFrame(raw.value);
      if control.None? then Observation(raw, None, false)
      else Observation(raw, Some(control.value.kind), control.value == C.Control(C.STOP, C.T4_CASE, expectedSeq) && active)
  }

  /** `raw` is what the one fenced read gave; a failed or late read gives no frame. */
  method WatchOnce(raw: Option<seq<C.Byte>>, expectedSeq: int, state: CallState) returns (o: Observation)
    modifies state`applied
    ensures o == Observe(raw, expectedSeq, state.active)
    ensures state.applied == old(state.applied) + (if o.stopApplied then 1 else 0)
  {
    if raw.None? {
      return Observation(None, None, false);
    }
    var control := C.DecodeFrame(raw.value);
    if control.None? {
      return Observation(raw, None, false);
    }
    var applied := false;
    var c := control.value;
    if c.kind == C.STOP && c.kase == C.T4_CASE && c.seqno == expectedSeq {
      applied := state.Apply();
    }
    return Observation(raw, Some(c.kind), applied);
  }
}

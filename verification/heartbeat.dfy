/** The heartbeat timer slot both controller revisions keep in `_heartbeatTimer`:
    a connect notification creates a timer when there is none, a disconnect
    stops, disposes and clears it. A disconnect with no timer dereferences
    null in the source; here it is the `NullReference` fault. */
module Heartbeat {
  import opened Wrappers

  datatype Fault = NullReference

  /** Whether a timer is held, with the number of timers created and stopped
      so far, so that "at most one live timer" can be stated. */
  datatype TimerSlot = TimerSlot(active: bool, started: nat, stopped: nat)

  /** Exactly the timers not yet stopped are held: one when active, none otherwise. */
  predicate Valid(s: TimerSlot)
  {
    s.started == s.stopped + (if s.active then 1 else 0)
  }

  /** `SocketOnConnectionChange` on the timer slot. */
  function Notify(s: TimerSlot, isConnected: bool): (r: Result<TimerSlot, Fault>)
    requires Valid(s)
    ensures r.Ok? ==> Valid(r.value) && r.value.started - r.value.stopped <= 1
    ensures r.Err? <==> !isConnected && !s.active
    ensures isConnected ==> r.Ok? && r.value.active
    ensures isConnected && s.active ==> r == Ok(s)
    ensures !isConnected && r.Ok? ==> !r.value.active && r.value.stopped == s.stopped + 1
    ensures r.Ok? ==> r.value.started - s.started == (if isConnected && !s.active then 1 else 0)
  {
    if isConnected then
      if s.active then Ok(s) else Ok(TimerSlot(true, s.started + 1, s.stopped))
    else if !s.active then Err(NullReference)
    else Ok(TimerSlot(false, s.started, s.stopped + 1))
  }

  /** A run of connection notifications, stopping at the first fault. */
  function Run(s: TimerSlot, events: seq<bool>): Result<TimerSlot, Fault>
    requires Valid(s)
    decreases |events|
  {
    if events == [] then Ok(s)
    else
      match Notify(s, events[0])
      case Err(e) => Err(e)
      case Ok(t) => Run(t, events[1..])
  }

  /** Whether a timer is held just before event `i`: the last event before it
      decides, and before any event the initial slot does. */
  function ActiveBefore(active0: bool, events: seq<bool>, i: nat): bool
    requires i <= |events|
  {
    if i == 0 then active0 else events[i - 1]
  }

  /** A run faults exactly when some disconnect arrives with no timer held,
      i.e. first thing from an idle slot or right after another disconnect;
      after a clean run a timer is held exactly when the last event was a
      connect, and there is never more than one. */
  lemma {:induction false} RunCharacterisation(s: TimerSlot, events: seq<bool>)
    requires Valid(s)
    ensures Run(s, events).Ok? <==>
      forall i :: 0 <= i < |events| && !events[i] ==> ActiveBefore(s.active, events, i)
    ensures Run(s, events).Ok? ==>
      Valid(Run(s, events).value) &&
      Run(s, events).value.active == ActiveBefore(s.active, events, |events|)
    decreases |events|
  {
    if events != [] {
      var rest := events[1..];
      var n := Notify(s, events[0]);
      if n.Ok? {
        RunCharacterisation(n.value, rest);
        assert n.value.active == events[0];
        forall i | 1 <= i <= |events|
          ensures ActiveBefore(s.active, events, i) == ActiveBefore(n.value.active, rest, i - 1)
        {
        }
        if Run(s, events).Ok? {
          forall i | 0 <= i < |events| && !events[i]
            ensures ActiveBefore(s.active, events, i)
          {
            if i > 0 {
              assert !rest[i - 1];
            }
          }
        } else {
          var j :| 0 <= j < |rest| && !rest[j] && !ActiveBefore(n.value.active, rest, j);
          assert !events[j + 1] && !ActiveBefore(s.active, events, j + 1);
        }
      } else {
        assert !events[0] && !ActiveBefore(s.active, events, 0);
      }
    }
  }

  /** Connecting twice in a row leaves the same single timer as connecting once. */
  lemma ConnectIsIdempotent(s: TimerSlot)
    requires Valid(s)
    ensures Run(s, [true, true]) == Run(s, [true])
  {
  }
}

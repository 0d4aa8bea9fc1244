/** The older revision of the controller
    (pepperdash-generic-colorlightZ6-epi/.../ColorlightZ6Controller.cs): the
    same command frames, a four-byte heartbeat, and every frame handed
    straight to the transport with no null check and no reconnect. */
module LegacyZ6Controller {
  import opened Bytes
  import opened Wrappers
  import opened Frames
  import Heartbeat
  import opened Transport

  class ColorlightZ6Controller {
    const id: ushort
    const comms: Link
    /** `BitConverter.GetBytes(level / (float) 65535.0)` (no rounding in this revision). */
    const floatBytes: ushort -> FloatBytes

    /** `_heartbeatTimer != null`, with the timers created and stopped so far. */
    var heartbeatTimer: bool
    ghost var timersStarted: nat
    ghost var timersStopped: nat

    ghost function Timer(): Heartbeat.TimerSlot
      reads this
    {
      Heartbeat.TimerSlot(heartbeatTimer, timersStarted, timersStopped)
    }

    ghost predicate Valid()
      reads this
    {
      Heartbeat.Valid(Timer())
    }

    constructor (id: ushort, comms: Link, floatBytes: ushort -> FloatBytes)
      ensures Valid() && !heartbeatTimer && timersStarted == 0 && timersStopped == 0
      ensures this.id == id && this.comms == comms && this.floatBytes == floatBytes
    {
      this.id := id;
      this.comms := comms;
      this.floatBytes := floatBytes;
      heartbeatTimer := false;
      timersStarted, timersStopped := 0, 0;
    }

    /** `CustomActivate`: opens the transport and reports success. */
    method CustomActivate(linkUp: bool) returns (activated: bool)
      modifies comms
      ensures activated
      ensures comms.State() == LinkState(linkUp, old(comms.connectCalls) + 1, old(comms.sent))
    {
      comms.Connect(linkUp);
      return true;
    }

    /** `CommunicationsOnBytesReceived`: the response is only logged. */
    method CommunicationsOnBytesReceived(bytes: Frame)
      ensures unchanged(this) && unchanged(comms)
    {
    }

    /** `SendHeartbeat`: the four-byte heartbeat, straight to the transport. */
    method SendHeartbeat()
      modifies comms
      ensures comms.State() ==
        LinkState(old(comms.connected), old(comms.connectCalls), old(comms.sent) + [LegacyHeartbeatFrame()])
    {
      comms.SendBytes(LegacyHeartbeatFrame());
    }

    method SetBrightness(brightness: ushort)
      modifies comms
      ensures comms.State() == LinkState(old(comms.connected), old(comms.connectCalls),
                                         old(comms.sent) + [BrightnessFrame(id, floatBytes(brightness))])
    {
      var brightnessBytes := floatBytes(brightness);
      var command := BrightnessHeader(id) + brightnessBytes;
      comms.SendBytes(command);
    }

    method RecallPreset(preset: ushort)
      modifies comms
      ensures comms.State() == LinkState(old(comms.connected), old(comms.connectCalls),
                                         old(comms.sent) + [RecallPresetFrame(id, preset)])
    {
      comms.SendBytes(RecallPresetFrame(id, preset));
    }

    /** The join's boolean value is ignored. */
    method SetShowOn(notUsed: bool)
      modifies comms
      ensures comms.State() == LinkState(old(comms.connected), old(comms.connectCalls),
                                         old(comms.sent) + [ShowOnFrame(id)])
    {
      comms.SendBytes(ShowOnFrame(id));
    }

    /** The join's boolean value is ignored. */
    method SetShowOff(notUsed: bool)
      modifies comms
      ensures comms.State() == LinkState(old(comms.connected), old(comms.connectCalls),
                                         old(comms.sent) + [ShowOffFrame(id)])
    {
      comms.SendBytes(ShowOffFrame(id));
    }

    /** `SocketOnConnectionChange`: identical to the current revision's. */
    method SocketOnConnectionChange(isConnected: bool) returns (thrown: Option<Heartbeat.Fault>)
      requires Valid()
      modifies this`heartbeatTimer, this`timersStarted, this`timersStopped
      ensures Valid()
      ensures var n := Heartbeat.Notify(old(Timer()), isConnected);
        (n.Ok? ==> thrown == None && Timer() == n.value) &&
        (n.Err? ==> thrown == Some(n.error) && Timer() == old(Timer()))
    {
      if isConnected {
        if !heartbeatTimer {
          heartbeatTimer := true;
          timersStarted := timersStarted + 1;
        }
        return None;
      }
      if !heartbeatTimer {
        return Some(Heartbeat.NullReference);
      }
      heartbeatTimer := false;
      timersStopped := timersStopped + 1;
      return None;
    }

    /** One period of the heartbeat timer: a held timer sends a heartbeat, a cleared one nothing. */
    method HeartbeatTimerElapsed()
      modifies comms
      ensures heartbeatTimer ==>
        comms.State() == LinkState(old(comms.connected), old(comms.connectCalls),
                                   old(comms.sent) + [LegacyHeartbeatFrame()])
      ensures !heartbeatTimer ==> comms.State() == old(comms.State())
    {
      if heartbeatTimer {
        SendHeartbeat();
      }
    }
  }
}

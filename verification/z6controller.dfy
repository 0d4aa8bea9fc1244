/** The current revision of the Colorlight Z6 controller (src/ColorlightZ6Controller.cs):
    every command goes through one send gate that reconnects a disconnected
    transport first; received bytes are queued for a drain worker. */
module Z6Controller {
  import opened Bytes
  import opened Wrappers
  import opened Frames
  import Heartbeat
  import opened Transport

  /** The send gate `SendBytes`: a null command is dropped; otherwise a
      disconnected transport gets one `Connect()` (coming up or not as
      `linkUp` says) and the command is handed to the transport regardless. */
  function SendGate(s: LinkState, command: Option<Frame>, linkUp: bool): (r: LinkState)
    ensures command.None? ==> r == s
    ensures command.Some? ==> r.sent == s.sent + [command.value]
    ensures r.connectCalls == s.connectCalls + (if command.Some? && !s.connected then 1 else 0)
    ensures s.connected ==> r.connected
    ensures command.Some? && !s.connected ==> r.connected == linkUp
  {
    match command
    case None => s
    case Some(c) =>
      var t := if s.connected then s else LinkState(linkUp, s.connectCalls + 1, s.sent);
      LinkState(t.connected, t.connectCalls, t.sent + [c])
  }

  /** A series of commands through the gate. Before the i-th command the
      socket may change state on its own schedule: `linkBefore[i]` is
      `Some(b)` when it is then found up (`b`) or down (`!b`), say because
      it closed or an earlier `Connect()` completed, and `None` when nothing
      happened. The i-th reconnect attempt, if any, comes up as `linkUps[i]` says. */
  function SendAll(s: LinkState, commands: seq<Frame>, linkUps: seq<bool>, linkBefore: seq<Option<bool>>): LinkState
    requires |linkUps| == |commands| && |linkBefore| == |commands|
    decreases |commands|
  {
    if commands == [] then s
    else
      var before := match linkBefore[0]
        case None => s
        case Some(up) => LinkState(up, s.connectCalls, s.sent);
      SendAll(SendGate(before, Some(commands[0]), linkUps[0]), commands[1..], linkUps[1..], linkBefore[1..])
  }

  /** The link is up just before every command of a series that starts from
      `connected0` and sees the socket changes `linkBefore`: it is never found
      down, and it is up at the start unless the first command finds it up anyway. */
  predicate UpBeforeEach(connected0: bool, linkBefore: seq<Option<bool>>)
  {
    && (forall i :: 0 <= i < |linkBefore| ==> linkBefore[i] != Some(false))
    && (|linkBefore| > 0 && linkBefore[0].None? ==> connected0)
  }

  /** Commands reach the transport in the order they were issued, none lost
      or added, each costing at most one reconnect attempt. No reconnect is
      attempted at all exactly when the link is up just before every command. */
  lemma {:induction false} SendAllKeepsOrder(s: LinkState, commands: seq<Frame>, linkUps: seq<bool>,
                                             linkBefore: seq<Option<bool>>)
    requires |linkUps| == |commands| && |linkBefore| == |commands|
    ensures SendAll(s, commands, linkUps, linkBefore).sent == s.sent + commands
    ensures s.connectCalls <= SendAll(s, commands, linkUps, linkBefore).connectCalls <= s.connectCalls + |commands|
    ensures SendAll(s, commands, linkUps, linkBefore).connectCalls == s.connectCalls <==>
              UpBeforeEach(s.connected, linkBefore)
    decreases |commands|
  {
    if commands != [] {
      var before := match linkBefore[0]
        case None => s
        case Some(up) => LinkState(up, s.connectCalls, s.sent);
      var t := SendGate(before, Some(commands[0]), linkUps[0]);
      var rest := linkBefore[1..];
      SendAllKeepsOrder(t, commands[1..], linkUps[1..], rest);
      assert s.sent + commands == s.sent + [commands[0]] + commands[1..];
      if before.connected {
        assert t.connected && t.connectCalls == s.connectCalls;
        assert UpBeforeEach(s.connected, linkBefore) <==> UpBeforeEach(true, rest) by {
          if UpBeforeEach(true, rest) {
            forall i | 0 <= i < |linkBefore| ensures linkBefore[i] != Some(false) {
              if i > 0 { assert linkBefore[i] == rest[i - 1]; }
            }
          }
          if UpBeforeEach(s.connected, linkBefore) {
            forall i | 0 <= i < |rest| ensures rest[i] != Some(false) {
              assert rest[i] == linkBefore[i + 1];
            }
          }
        }
      } else {
        assert !UpBeforeEach(s.connected, linkBefore) by {
          assert linkBefore[0] == Some(false) || (linkBefore[0].None? && !s.connected);
        }
      }
    }
  }

  /** `_queueProcess`: a null reference, a running thread, or a finished one. */
  datatype Worker = NoThread | Running | Finished

  /** The receive side of the controller: `_myQueue`, `_queueProcess`, and
      the number of drain workers started so far. */
  datatype Inbox = Inbox(queue: seq<Frame>, worker: Worker, workersStarted: nat)

  /** `CommunicationsOnBytesReceived`: the bytes join the queue; the spawn
      guard, as written, returns early when there is no thread or the thread
      has finished, so a new worker is started only while one is running. */
  function Receive(i: Inbox, bytes: Frame): (r: Inbox)
    ensures r.queue == i.queue + [bytes] && r.worker == i.worker
    ensures i.worker != Running ==> r.workersStarted == i.workersStarted
    ensures i.worker == Running ==> r.workersStarted == i.workersStarted + 1
  {
    var queued := i.queue + [bytes];
    if i.worker == NoThread || i.worker == Finished then Inbox(queued, i.worker, i.workersStarted)
    else
      assert i.worker.Running?;
      Inbox(queued, Running, i.workersStarted + 1)
  }

  /** A run of received frames, one `Receive` each. */
  function ReceiveAll(i: Inbox, frames: seq<Frame>): Inbox
    decreases |frames|
  {
    if frames == [] then i else ReceiveAll(Receive(i, frames[0]), frames[1..])
  }

  /** From a null `_queueProcess`, as construction leaves it, no run of
      received frames ever starts a drain worker: the field stays null and
      the queue holds every frame received, in order, undrained. */
  lemma {:induction false} NoWorkerEverStarts(i: Inbox, frames: seq<Frame>)
    requires i.worker == NoThread
    ensures ReceiveAll(i, frames) == Inbox(i.queue + frames, NoThread, i.workersStarted)
    decreases |frames|
  {
    if frames != [] {
      NoWorkerEverStarts(Receive(i, frames[0]), frames[1..]);
      assert i.queue + frames == i.queue + [frames[0]] + frames[1..];
    }
  }

  class ColorlightZ6Controller {
    const id: ushort
    const comms: Link
    /** `BitConverter.GetBytes((float)Math.Round(level / 65535.0f, 1))`. */
    const floatBytes: ushort -> FloatBytes

    /** `_heartbeatTimer != null`, with the timers created and stopped so far. */
    var heartbeatTimer: bool
    ghost var timersStarted: nat
    ghost var timersStopped: nat

    /** `_myQueue`, `_queueProcess`, and the frames `ProcessQueue` has consumed (and logged). */
    var inbound: seq<Frame>
    var queueProcess: Worker
    ghost var workersStarted: nat
    ghost var processed: seq<Frame>

    ghost function Incoming(): Inbox
      reads this
    {
      Inbox(inbound, queueProcess, workersStarted)
    }

    ghost function Timer(): Heartbeat.TimerSlot
      reads this
    {
      Heartbeat.TimerSlot(heartbeatTimer, timersStarted, timersStopped)
    }

    ghost predicate Valid()
      reads this
    {
      Heartbeat.Valid(Timer())
    }

    /** Construction: no timer, an empty queue and no worker thread. */
    constructor (id: ushort, comms: Link, floatBytes: ushort -> FloatBytes)
      ensures Valid()
      ensures this.id == id && this.comms == comms && this.floatBytes == floatBytes
      ensures !heartbeatTimer && timersStarted == 0 && timersStopped == 0
      ensures inbound == [] && queueProcess == NoThread
      ensures workersStarted == 0 && processed == []
    {
      this.id := id;
      this.comms := comms;
      this.floatBytes := floatBytes;
      heartbeatTimer := false;
      timersStarted, timersStopped := 0, 0;
      inbound := [];
      queueProcess := NoThread;
      workersStarted := 0;
      processed := [];
    }

    /** `Initialize`: opens the transport (the health monitor's start is not modelled). */
    method Initialize(linkUp: bool)
      modifies comms
      ensures comms.State() == LinkState(linkUp, old(comms.connectCalls) + 1, old(comms.sent))
    {
      comms.Connect(linkUp);
    }

    /** `SendBytes`: the gate, on the transport. */
    method SendBytes(command: Option<Frame>, linkUp: bool)
      modifies comms
      ensures comms.State() == SendGate(old(comms.State()), command, linkUp)
    {
      if command.None? {
        return;
      }
      if !comms.connected {
        comms.Connect(linkUp);
      }
      comms.SendBytes(command.value);
    }

    /** `SendHeartbeat`: the eight-byte heartbeat, through the gate. */
    method SendHeartbeat(linkUp: bool)
      modifies comms
      ensures comms.State() == SendGate(old(comms.State()), Some(HeartbeatFrame()), linkUp)
    {
      SendBytes(Some(HeartbeatFrame()), linkUp);
    }

    method SetBrightness(brightness: ushort, linkUp: bool)
      modifies comms
      ensures comms.State() ==
        SendGate(old(comms.State()), Some(BrightnessFrame(id, floatBytes(brightness))), linkUp)
    {
      var brightnessBytes := floatBytes(brightness);
      var command := BrightnessHeader(id) + brightnessBytes;
      SendBytes(Some(command), linkUp);
    }

    method RecallPreset(preset: ushort, linkUp: bool)
      modifies comms
      ensures comms.State() == SendGate(old(comms.State()), Some(RecallPresetFrame(id, preset)), linkUp)
    {
      SendBytes(Some(RecallPresetFrame(id, preset)), linkUp);
    }

    method SetShowOn(linkUp: bool)
      modifies comms
      ensures comms.State() == SendGate(old(comms.State()), Some(ShowOnFrame(id)), linkUp)
    {
      SendBytes(Some(ShowOnFrame(id)), linkUp);
    }

    method SetShowOff(linkUp: bool)
      modifies comms
      ensures comms.State() == SendGate(old(comms.State()), Some(ShowOffFrame(id)), linkUp)
    {
      SendBytes(Some(ShowOffFrame(id)), linkUp);
    }

    /** `SocketOnConnectionChange`: the timer slot moves as `Heartbeat.Notify`
        says; a disconnect with no timer throws and changes nothing. */
    method SocketOnConnectionChange(isConnected: bool) returns (thrown: Option<Heartbeat.Fault>)
      requires Valid()
      modifies this`heartbeatTimer, this`timersStarted, this`timersStopped
      ensures Valid()
      ensures var n := Heartbeat.Notify(old(Timer()), isConnected);
        (n.Ok? ==> thrown == None && Timer() == n.value) &&
        (n.Err? ==> thrown == Some(n.error) && Timer() == old(Timer()))
    {
      if isConnected {
        if !heartbeatTimer {
          heartbeatTimer := true;
          timersStarted := timersStarted + 1;
        }
        return None;
      }
      if !heartbeatTimer {
        return Some(Heartbeat.NullReference);
      }
      heartbeatTimer := false;
      timersStopped := timersStopped + 1;
      return None;
    }

    /** One period of the heartbeat timer: a held timer sends a heartbeat;
        once the timer is stopped and cleared nothing is sent. */
    method HeartbeatTimerElapsed(linkUp: bool)
      modifies comms
      ensures heartbeatTimer ==>
        comms.State() == SendGate(old(comms.State()), Some(HeartbeatFrame()), linkUp)
      ensures !heartbeatTimer ==> comms.State() == old(comms.State())
    {
      if heartbeatTimer {
        SendHeartbeat(linkUp);
      }
    }

    /** `CommunicationsOnBytesReceived`, as `Receive` specifies it. */
    method CommunicationsOnBytesReceived(bytes: Frame)
      modifies this`inbound, this`queueProcess, this`workersStarted
      ensures Incoming() == Receive(old(Incoming()), bytes)
    {
      inbound := inbound + [bytes];
      if queueProcess == NoThread || queueProcess == Finished {
        return;
      }
      queueProcess := Running;
      workersStarted := workersStarted + 1;
    }

    /** `ProcessQueue`: dequeues until the queue is empty, consuming the
        frames in the order they were enqueued. */
    method ProcessQueue()
      modifies this`inbound, this`processed
      ensures inbound == []
      ensures processed == old(processed) + old(inbound)
    {
      while inbound != []
        invariant processed + inbound == old(processed) + old(inbound)
        decreases |inbound|
      {
        var response := inbound[0];
        inbound := inbound[1..];
        processed := processed + [response];
      }
    }
  }
}

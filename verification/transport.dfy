/** The byte transport the controller talks through (`IBasicCommunication`):
    whether it reports itself connected, how often `Connect` was called, and
    the trace of frames handed to its `SendBytes`. What the socket does with
    a frame is outside the model. */
module Transport {
  import opened Frames

  datatype LinkState = LinkState(connected: bool, connectCalls: nat, sent: seq<Frame>)

  class Link {
    var connected: bool
    var connectCalls: nat
    ghost var sent: seq<Frame>

    ghost function State(): LinkState
      reads this
    {
      LinkState(connected, connectCalls, sent)
    }

    constructor (connected: bool)
      ensures State() == LinkState(connected, 0, [])
    {
      this.connected := connected;
      connectCalls := 0;
      sent := [];
    }

    /** `Connect()`: whether the link comes up is the environment's choice, `linkUp`. */
    method Connect(linkUp: bool)
      modifies this
      ensures State() == LinkState(linkUp, old(connectCalls) + 1, old(sent))
    {
      connected := linkUp;
      connectCalls := connectCalls + 1;
    }

    /** `SendBytes(frame)`: the frame joins the trace, whatever the connection state. */
    method SendBytes(frame: Frame)
      modifies this
      ensures State() == LinkState(old(connected), old(connectCalls), old(sent) + [frame])
    {
      sent := sent + [frame];
    }
  }
}

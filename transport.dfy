/**
 * The host's WebSocket object, reduced to its readiness state and the frames
 * it has been asked to transmit.
 */
module Transport {
  import opened Codec

  /** `WebSocket.CONNECTING`, `OPEN`, `CLOSING` and `CLOSED` (0 to 3). */
  datatype ReadyState = Connecting | Open | Closing | Closed

  /** `close()` starts the closing handshake from CONNECTING or OPEN and is a no-op later. */
  function AfterClose(s: ReadyState): (t: ReadyState)
    ensures t != Open && t != Connecting
    ensures s == Closing || s == Closed ==> t == s
  {
    match s
    case Connecting => Closing
    case Open => Closing
    case _ => s
  }

  class Socket {
    var readyState: ReadyState
    /** Every frame passed to `send` while the socket was OPEN, in order. */
    ghost var sent: seq<Frame>

    /** `new WebSocket(url)` when the URL is accepted. */
    constructor ()
      ensures readyState == Connecting && sent == []
    {
      readyState := Connecting;
      sent := [];
    }

    /** `ws.send(data)`; both clients only call it on an OPEN socket. */
    method Send(data: Frame)
      requires readyState == Open
      modifies this
      ensures readyState == Open
      ensures sent == old(sent) + [data]
    {
      sent := sent + [data];
    }

    /** `ws.close()`. */
    method Close()
      modifies this
      ensures readyState == AfterClose(old(readyState))
      ensures sent == old(sent)
    {
      readyState := AfterClose(readyState);
    }

    /** The host completes the opening handshake (just before it fires `open`). */
    method Establish()
      requires readyState == Connecting
      modifies this
      ensures readyState == Open && sent == old(sent)
    {
      readyState := Open;
    }

    /** The host drops the connection (just before it fires `close`). */
    method Drop()
      modifies this
      ensures readyState == Closed && sent == old(sent)
    {
      readyState := Closed;
    }
  }
}

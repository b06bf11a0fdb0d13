/** The parts of a WebSocket connection the server touches: its ready state,
    the envelopes written to it (serialisation to JSON text is left implicit:
    a socket records the envelope it was sent) and the close code it was
    closed with. */
module Sockets {
  import opened Wrappers
  import opened Schemas

  datatype ReadyState = Connecting | Open | Closing | Closed

  class Socket {
    var readyState: ReadyState
    var sent: seq<Outbound>
    var closeCode: Option<int>

    constructor (state: ReadyState)
      ensures readyState == state && sent == [] && closeCode == None
    {
      readyState, sent, closeCode := state, [], None;
    }

    /** `ws.send(JSON.stringify(msg))`. */
    method Transmit(msg: Outbound)
      modifies this`sent
      ensures sent == old(sent) + [msg]
    {
      sent := sent + [msg];
    }

    /** `ws.close(code, reason)`: the closing handshake starts. */
    method Close(code: int)
      modifies this`readyState, this`closeCode
      ensures readyState == Closing && closeCode == Some(code)
    {
      readyState, closeCode := Closing, Some(code);
    }
  }

  /** What a socket in state `state` holds after an envelope is offered to it
      by a send that checks for `OPEN` first. */
  function OfferedTo(sent: seq<Outbound>, state: ReadyState, msg: Outbound): seq<Outbound> {
    if state == Open then sent + [msg] else sent
  }

  /** The router's `send`: writes only to an open socket and otherwise does
      nothing. */
  method Send(ws: Socket, msg: Outbound)
    modifies ws`sent
    ensures ws.sent == OfferedTo(old(ws.sent), ws.readyState, msg)
    ensures ws.readyState == Open <==> ws.sent == old(ws.sent) + [msg]
  {
    if ws.readyState == Open {
      ws.Transmit(msg);
    }
  }
}

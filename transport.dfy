/** The duplex media websocket of a call, seen from the server: the JSON
    messages the server sends on it, kept as an output trace. */
module Transport {
  import opened Common

  /** A mark label. The source draws a random uuid4 per mark; the model
      draws labels from a counter, which keeps every issued label fresh. */
  type Label = nat

  /** The outbound messages of services/stream_service.py and app.py. */
  datatype WsMessage =
    | Media(streamSid: string, payload: string)
    | Mark(streamSid: string, name: Label)
    | Clear(clearSid: Option<string>)

  /** The websocket; `sent` is every message sent so far, oldest first. */
  class Socket {
    ghost var sent: seq<WsMessage>

    constructor ()
      ensures sent == []
    {
      sent := [];
    }

    /** `websocket.send_json(m)`. */
    method SendJson(m: WsMessage)
      modifies this
      ensures sent == old(sent) + [m]
    {
      sent := sent + [m];
    }
  }
}

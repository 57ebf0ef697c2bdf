/** The websocket client: one connection object, started at most once. */
module WebsocketClient {
  import opened Outcomes
  import opened FrameReassembly
  import ProcessLookup

  newtype uint8 = x: int | 0 <= x < 0x100

  const MAX_FRAMES := MAX_FRAMES_PER_MESSAGE as uint8

  /** What constructing the POCO websocket does: it throws, or the peer accepts and will send `wire`. */
  datatype Link = Refused(websocketError: bool) | Accepted(wire: Wire)

  /** A client before `start`. */
  const NEW_CLIENT := ClientState(None, false)

  /** The state `start` leaves; a client that has its websocket already is left alone. */
  function Started(c: ClientState, link: Link): ClientState {
    if c.websocket.None? && link.Accepted? then ClientState(Some(link.wire), true) else c
  }

  class HttpsWebsocketClient {
    var connected: bool
    var websocket: Option<Wire>
    var sent: seq<string>            // frames written to the peer
    var username: string
    var password: string
    const host: string
    const port: ProcessLookup.uint16

    function State(): ClientState
      reads this
    {
      ClientState(websocket, connected)
    }

    constructor (host: string, port: ProcessLookup.uint16)
      ensures State() == NEW_CLIENT && sent == []
      ensures this.host == host && this.port == port
    {
      this.connected := false;
      this.websocket := None;
      this.sent := [];
      this.username, this.password := "", "";
      this.host := host;
      this.port := port;
    }

    method SetCredentials(username: string, password: string)
      modifies this`username, this`password
      ensures this.username == username && this.password == password
    {
      this.username := username;
      this.password := password;
    }

    method IsConnected() returns (r: bool)
      ensures r == connected
    {
      r := connected;
    }

    method Start(link: Link) returns (error: Option<ClientError>)
      modifies this`connected, this`websocket
      ensures State() == Started(old(State()), link)
      ensures old(websocket).None? && link.Accepted? ==> websocket == Some(link.wire) && connected
      ensures old(websocket).Some? || link.Refused? ==> websocket == old(websocket) && connected == old(connected)
      ensures error == if old(websocket).Some? || link.Accepted? then None
                       else Some(if link.websocketError then ConnectFailed else Unknown)
    {
      if websocket.None? {
        match link
        case Accepted(wire) =>
          websocket := Some(wire);
          connected := true;
        case Refused(websocketError) =>
          return Some(if websocketError then ConnectFailed else Unknown);
      }
      return None;
    }

    method Stop()
      modifies this`connected, this`websocket
      ensures websocket.None?
      ensures connected == (old(connected) && old(websocket).None?)
    {
      if websocket.Some? && connected {
        connected := false;
      }
      websocket := None;
    }

    method SendMessage(message: string) returns (ok: bool)
      modifies this`sent
      ensures ok == websocket.Some?
      ensures sent == if ok then old(sent) + [message] else old(sent)
    {
      if websocket.Some? {
        sent := sent + [message];
        return true;
      }
      return false;
    }

    /** The reassembly loop, with its 8-bit counter. */
    method ReceiveMessage() returns (r: Result<string, ClientError>)
      modifies this`connected, this`websocket
      ensures (r, State()) == Receive(old(State()))
    {
      if websocket.None? {
        return Err(NotStarted);
      }
      var wire := websocket.value;
      var buffer := "";
      var full := false;
      var i: uint8 := 0;
      while i < MAX_FRAMES && !full
        invariant i <= MAX_FRAMES
        invariant websocket.Some? && connected == old(connected)
        invariant !full ==> Assemble(wire, "", 0) == Assemble(websocket.value, buffer, i as nat)
        invariant full ==> Assemble(wire, "", 0) == Reception(Ok(buffer), websocket.value, false)
        decreases MAX_FRAMES - i, !full
      {
        var frame := Next(websocket.value);
        websocket := Some(Rest(websocket.value));
        match frame
        case TimedOut =>
          return Err(NotStarted);
        case Failed =>
          connected := false;
          return Err(Unknown);
        case Frame(payload, flags) =>
          buffer := buffer + payload;
          if |payload| == 0 && flags == 0 {
            connected := false;
            return Err(PeerClosed);
          }
          if HasFin(flags) {
            full := true;
          } else {
            i := i + 1;
          }
      }
      if !full {
        return Err(MessageTooLong);
      }
      return Ok(buffer);
    }
  }
}

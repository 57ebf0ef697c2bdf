/** The connection handler as an object: its methods, proved against the functions of the session. */
module WebsocketHandler {
  import opened Outcomes
  import FrameReassembly
  import Decimal
  import opened LaunchCommand
  import opened ProcessLookup
  import opened WebsocketClient
  import Session = ConnectionSession

  /** What the handler finds around it when it tries to connect. */
  datatype Surroundings = Surroundings(proc: ProcDirectory, link: Link)

  function AttemptOf(s: Surroundings): Session.Attempt {
    Session.Attempt(Parameters(s.proc), s.link)
  }

  function AttemptsOf(world: seq<Surroundings>): (r: seq<Session.Attempt>)
    ensures |r| == |world|
    ensures forall i | 0 <= i < |world| :: r[i] == AttemptOf(world[i])
  {
    if |world| == 0 then [] else [AttemptOf(world[0])] + AttemptsOf(world[1..])
  }

  class LcuWebsocketHandler {
    var websocket: HttpsWebsocketClient?
    var isStateConnected: bool
    var stop: bool
    var trace: seq<Session.Event>      // the callbacks made so far
    var world: seq<Surroundings>       // the surroundings of the connection attempts to come

    function View(): Session.Session
      reads this, websocket
    {
      Session.Session(
        if websocket == null then None else Some(websocket.State()),
        isStateConnected, trace, AttemptsOf(world))
    }

    /** What the peer of the present connection has been sent. */
    function Sent(): seq<string>
      reads this, websocket
    {
      if websocket == null then [] else websocket.sent
    }

    constructor (world: seq<Surroundings>)
      ensures View() == Session.Session(None, false, [], AttemptsOf(world)) && !stop
      ensures Session.AtRest(View())
      ensures this.world == world && websocket == null
    {
      this.websocket := null;
      this.isStateConnected := false;
      this.stop := false;
      this.trace := [];
      this.world := world;
    }

    method IsConnected() returns (r: bool)
      ensures r == Session.Up(View().socket)
    {
      if websocket == null {
        return false;
      }
      r := websocket.IsConnected();
    }

    /** `m_websocket.reset()`: the client's destructor stops it. */
    method ResetSocket()
      modifies this`websocket, websocket
      ensures websocket == null
      ensures old(websocket) != null ==> old(websocket).websocket.None?
    {
      if websocket != null {
        websocket.Stop();
      }
      websocket := null;
    }

    /** Returns false where the source throws. A new client always comes from the lookup just made. */
    method Reconnect() returns (ok: bool)
      modifies this`websocket, this`world, websocket
      ensures (ok, View()) == Session.Reconnect(old(View()))
      ensures websocket == null || websocket == old(websocket) || fresh(websocket)
      ensures old(websocket) != null && websocket != old(websocket) ==> old(websocket).websocket.None?
      ensures websocket != null && fresh(websocket) ==>
                && |old(world)| > 0
                && Parameters(old(world)[0].proc) == Ok(LcuParameters(websocket.password, websocket.port))
                && websocket.host == "127.0.0.1" && websocket.username == "riot"
    {
      if websocket != null {
        var connected := websocket.IsConnected();
        if !connected {
          ResetSocket();
        }
      }
      if websocket == null {
        if |world| == 0 {
          return false;
        }
        var here := world[0];
        world := world[1..];
        assert AttemptsOf(world) == old(View()).future[1..];
        var parameters := GetLcuProcessParameters(here.proc);
        if parameters.Err? {
          return false;
        }
        websocket := new HttpsWebsocketClient("127.0.0.1", parameters.value.appPort);
        websocket.SetCredentials("riot", parameters.value.remotingAuthToken);
        var error := websocket.Start(here.link);
        if error.Some? {
          return false;
        }
      }
      return true;
    }

    method NotifyConnectionStateChanged(connected: bool)
      modifies this`isStateConnected, this`trace
      ensures View() == Session.Notify(old(View()), connected)
      ensures isStateConnected == connected
      ensures trace == old(trace) + if connected == old(isStateConnected) then []
                                    else if connected then [Session.Connected] else [Session.Disconnected]
    {
      if connected && !isStateConnected {
        trace := trace + [Session.Connected];
      } else if !connected && isStateConnected {
        trace := trace + [Session.Disconnected];
      }
      isStateConnected := connected;
    }

    method ReceiveMessage()
      requires websocket != null
      modifies this`trace, websocket
      ensures View() == Session.ReceiveAndPassOn(old(View()))
      ensures trace == old(trace) + match FrameReassembly.Receive(old(websocket.State())).0
                                    case Ok(text) => [Session.Message(text)]
                                    case Err(_) => []
    {
      var result := websocket.ReceiveMessage();
      if result.Ok? {
        trace := trace + [Session.Message(result.value)];
      }
    }

    method ReconnectAndNotify()
      modifies this`websocket, this`world, this`isStateConnected, this`trace, websocket
      ensures View() == Session.ReconnectAndNotify(old(View()))
      ensures websocket == null || websocket == old(websocket) || fresh(websocket)
      ensures old(websocket) != null && websocket != old(websocket) ==> old(websocket).websocket.None?
    {
      NotifyConnectionStateChanged(false);
      var ok := Reconnect();
      if ok {
        NotifyConnectionStateChanged(true);
      }
    }

    /** The endless loop; a `stop()` of another thread is seen by the check that follows `passes` passes. */
    method MainLoop(passes: nat)
      requires !stop
      modifies this, websocket
      ensures View() == Session.Run(old(View()), passes) && stop
      ensures websocket == null
      ensures old(websocket) != null ==> old(websocket).websocket.None?
    {
      var left := passes;
      while true
        invariant !stop
        invariant websocket == null || websocket == old(websocket) || fresh(websocket)
        invariant old(websocket) != null && websocket != old(websocket) ==> old(websocket).websocket.None?
        invariant Session.Run(View(), left) == Session.Run(old(View()), passes)
        decreases left
      {
        if left == 0 {
          stop := true;
        }
        if stop {
          ResetSocket();
          NotifyConnectionStateChanged(false);
          break;
        }
        var connected := IsConnected();
        if connected {
          ReceiveMessage();
        } else {
          ReconnectAndNotify();
        }
        left := left - 1;
      }
    }

    /**
     A run, whatever the surroundings: it tells the callbacks the story of its attempts and leaves
     the handler without a socket and at rest, ready for another run.
     */
    method Run(passes: nat)
      requires Session.AtRest(View())
      modifies this, websocket
      ensures View() == Session.Run(old(View()), passes)
      ensures trace == old(trace) + Session.Story(old(AttemptsOf(world)), passes)
      ensures Session.AtRest(View()) && websocket == null && !isStateConnected && stop
      ensures Session.IsComplete(old(trace)) && Session.IsComplete(trace)
    {
      stop := false;
      Session.RunTellsStory(View(), passes);
      Session.TurnsKeepLoopHead(View(), passes);
      Session.HaltComesToRest(Session.Turns(View(), passes));
      Session.PhaseIsGrammar(trace);
      MainLoop(passes);
      Session.PhaseIsGrammar(trace);
    }

    /** Called from another thread: any message wakes the blocked reception. */
    method Stop()
      modifies this`stop, websocket
      ensures stop && View() == old(View())
      ensures var socket := View().socket;
              Sent() == old(Sent()) + if Session.Up(socket) && socket.value.websocket.Some? then ["Exit"] else []
    {
      stop := true;
      var connected := IsConnected();
      if connected {
        var _ := websocket.SendMessage("Exit");
      }
    }

    method SendMessage(message: string) returns (ok: bool)
      modifies websocket
      ensures View() == old(View())
      ensures ok <==> Session.Up(View().socket) && View().socket.value.websocket.Some?
      ensures Session.AtLoopHead(View()) ==> (ok <==> Session.Up(View().socket))
      ensures Sent() == old(Sent()) + if ok then [message] else []
    {
      var connected := IsConnected();
      if connected {
        ok := websocket.SendMessage(message);
        return;
      }
      return false;
    }
  }

  /**
   From the command line to the connection: a running client that accepts the connection is reached,
   whatever else runs, and by its own token exactly when the pattern captures the whole of it.
   */
  lemma LaunchedClientIsReached(
    s: Surroundings, k: nat, sep: char, args: seq<string>, exe: nat, t: nat, token: string, p: nat, port: nat)
    requires IsLaunch(args, exe, t, token, p, Decimal.Print(port)) && IsSeparator(sep) && Runs(s.proc, k, args, sep)
    requires s.link.Accepted?
    ensures Kept(TOKEN_CHARS, token) != "" ==>
              (Session.Reached(AttemptOf(s)) == Some(s.link.wire) <==> port <= 0x7FFF_FFFF)
    ensures IsTokenText(token) && port < 0x1_0000 <==>
            && Session.Reached(AttemptOf(s)) == Some(s.link.wire)
            && AttemptOf(s).lookup.value.remotingAuthToken == token
            && AttemptOf(s).lookup.value.appPort as nat == port
  {
    LookupInvertsLaunch(s.proc, k, sep, args, exe, t, token, p, Decimal.Print(port));
    LaunchRoundTrip(s.proc, k, sep, args, exe, t, token, p, port);
    PortRoundTrip(port);
    PrintedPortIsKept(port);
  }
}

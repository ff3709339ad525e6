/**
 * The decision skeleton of the game server's TCP listener: starting and stopping the listening
 * socket together with the registration at the connect server, the accept loop, and the
 * handling of one accepted socket (refuse it, or wire a connection and a player).
 *
 * Sockets, the connect server and the event subscribers are outside the model. What the listener
 * does to them is recorded, in order, in the trace of `Event`s; what they answer is an input: the
 * outcome of an accept, of a connect-server call, and the request arguments as the player-id
 * subscribers leave them.
 */
module TcpGameServerListener {
  import opened Wrappers

  /** A player id is an unsigned 16-bit number. */
  type PlayerId = x: int | 0 <= x < 0x1_0000

  datatype IpAddress = IpAddress(token: nat)
  datatype EndPoint = EndPoint(address: IpAddress, port: int)
  datatype GameServerInfo = GameServerInfo(token: nat)
  datatype Socket = Socket(token: nat)

  /** One stage of an inbound decryptor chain, as configured; its decryption is not part of this model. */
  datatype DecryptorStage = SimpleModulusDecryptor(acceptWrongBlockChecksum: bool)

  /** The decryptor every client connection gets: one simple-modulus stage that accepts wrong block checksums. */
  const ClientDecryptor: seq<DecryptorStage> := [SimpleModulusDecryptor(true)]

  datatype ListenerEvent = PlayerIdRequested | PlayerConnected

  /** The two calls the listener makes to the connect server. */
  datatype ConnectServerCall = RegisterGameServer | UnregisterGameServer

  datatype Event =
    | ListenerCreated(port: int)
    | ListenerStarted
    | GameServerRegistered(info: GameServerInfo, endPoint: EndPoint)
    | GameServerUnregistered(info: GameServerInfo)
    | ConnectServerCallFailed(call: ConnectServerCall)  // the call raised
    | AcceptLaunched
    | ListenerStopped
    | NotHandled(event: ListenerEvent)  // the error logged when an event has no subscriber
    | PlayerIdRequestRaised  // the subscribers are asked for a player id
    | SocketDisposed(socket: Socket)
    | ConnectionCreated(socket: Socket, decryptor: seq<DecryptorStage>)
    | PlayerCreated(id: PlayerId, socket: Socket)
    | PlayerConnectedRaised(id: PlayerId)
    | DisconnectedWired(id: PlayerId)
    | ReceiveBegun(socket: Socket)

  /** The arguments of a player-id request; a fresh one is neither cancelled nor carries an id other than 0. */
  datatype RequestPlayerIdEventArgs = RequestPlayerIdEventArgs(cancel: bool, playerId: PlayerId)

  /** `new RequestPlayerIdEventArgs()`: assumed not cancelled, as a `CancelEventArgs`, with the `ushort` default id. */
  const FreshRequestArgs := RequestPlayerIdEventArgs(false, 0)

  datatype IdDecision = Refused | Granted(id: PlayerId)

  /**
   * The decision of a player-id request. `answered` is the request as the subscribers leave it,
   * absent when there is no subscriber, in which case the fresh request stays untouched.
   */
  function RequestPlayerId(answered: Option<RequestPlayerIdEventArgs>): (r: IdDecision)
    ensures r.Granted? <==> !answered.GetOr(FreshRequestArgs).cancel
    ensures r.Granted? ==> r.id == answered.GetOr(FreshRequestArgs).playerId
    ensures answered.None? ==> r == Granted(0)
  {
    var args := answered.GetOr(FreshRequestArgs);
    if args.cancel then Refused else Granted(args.playerId)
  }

  /** Raising the player-id request: its subscribers are called, or the missing subscriber is logged. */
  function RequestEvent(answered: Option<RequestPlayerIdEventArgs>): (e: Event)
    ensures e == PlayerIdRequestRaised <==> answered.Some?
    ensures e == NotHandled(PlayerIdRequested) <==> answered.None?
  {
    if answered.None? then NotHandled(PlayerIdRequested) else PlayerIdRequestRaised
  }

  /** What handling one accepted socket does, in order. */
  function SocketEvents(socket: Option<Socket>, answered: Option<RequestPlayerIdEventArgs>, connectedSubscribed: bool)
    : seq<Event>
  {
    match socket
    case None => []
    case Some(s) =>
      [RequestEvent(answered)]
      + match RequestPlayerId(answered)
        case Refused => [SocketDisposed(s)]
        case Granted(id) =>
          [ConnectionCreated(s, ClientDecryptor), PlayerCreated(id, s)]
          + (if connectedSubscribed then [PlayerConnectedRaised(id)] else [NotHandled(PlayerConnected)])
          + [DisconnectedWired(id), ReceiveBegun(s)]
  }

  /** How many events of a trace are of one kind. */
  function Occurrences(t: seq<Event>, isKind: Event -> bool): nat
  {
    if |t| == 0 then 0 else (if isKind(t[0]) then 1 else 0) + Occurrences(t[1..], isKind)
  }

  lemma {:induction false} OccurrencesAppend(a: seq<Event>, b: seq<Event>, isKind: Event -> bool)
    ensures Occurrences(a + b, isKind) == Occurrences(a, isKind) + Occurrences(b, isKind)
  {
    if |a| == 0 {
      assert a + b == b;
    } else {
      assert (a + b)[0] == a[0];
      assert (a + b)[1..] == a[1..] + b;
      OccurrencesAppend(a[1..], b, isKind);
    }
  }

  predicate IsPlayerCreated(e: Event) { e.PlayerCreated? }
  predicate IsPlayerConnectedRaised(e: Event) { e.PlayerConnectedRaised? }
  predicate IsReceiveBegun(e: Event) { e.ReceiveBegun? }
  predicate IsSocketDisposed(e: Event) { e.SocketDisposed? }

  /**
   * A refused socket is only disposed once the request is raised: no connection, no player, no
   * announcement, no disconnect wiring, nothing received.
   */
  lemma RefusedSocket(s: Socket, answered: Option<RequestPlayerIdEventArgs>, connectedSubscribed: bool)
    requires RequestPlayerId(answered).Refused?
    ensures SocketEvents(Some(s), answered, connectedSubscribed) == [PlayerIdRequestRaised, SocketDisposed(s)]
    ensures var t := SocketEvents(Some(s), answered, connectedSubscribed);
      && SocketDisposed(s) in t
      && Occurrences(t, IsPlayerCreated) == 0
      && Occurrences(t, IsPlayerConnectedRaised) == 0
      && Occurrences(t, IsReceiveBegun) == 0
  {
    assert SocketEvents(Some(s), answered, connectedSubscribed) == [PlayerIdRequestRaised, SocketDisposed(s)];
    OccurrencesOfPair(PlayerIdRequestRaised, SocketDisposed(s), IsPlayerCreated);
    OccurrencesOfPair(PlayerIdRequestRaised, SocketDisposed(s), IsPlayerConnectedRaised);
    OccurrencesOfPair(PlayerIdRequestRaised, SocketDisposed(s), IsReceiveBegun);
  }

  /**
   * A granted socket gets exactly one player, created with the granted id; the player-connected
   * event is raised once (when it has a subscriber); the disconnect is wired; and receiving
   * begins last. The socket is not disposed.
   */
  lemma GrantedSocket(s: Socket, answered: Option<RequestPlayerIdEventArgs>, connectedSubscribed: bool)
    requires RequestPlayerId(answered).Granted?
    ensures var id := answered.GetOr(FreshRequestArgs).playerId;
      var t := SocketEvents(Some(s), answered, connectedSubscribed);
      && Occurrences(t, IsPlayerCreated) == 1 && PlayerCreated(id, s) in t
      && Occurrences(t, IsPlayerConnectedRaised) == (if connectedSubscribed then 1 else 0)
      && (connectedSubscribed ==> PlayerConnectedRaised(id) in t)
      && Occurrences(t, IsSocketDisposed) == 0
      && Occurrences(t, IsReceiveBegun) == 1
      && |t| >= 2 && t[|t| - 2] == DisconnectedWired(id) && t[|t| - 1] == ReceiveBegun(s)
  {
    SocketEventsOccurrences(s, answered, connectedSubscribed, IsPlayerCreated);
    SocketEventsOccurrences(s, answered, connectedSubscribed, IsPlayerConnectedRaised);
    SocketEventsOccurrences(s, answered, connectedSubscribed, IsSocketDisposed);
    SocketEventsOccurrences(s, answered, connectedSubscribed, IsReceiveBegun);
  }

  function Indicator(b: bool): nat { if b then 1 else 0 }

  /** The count of one kind of event in the handling of a granted socket, event by event. */
  lemma SocketEventsOccurrences(s: Socket, answered: Option<RequestPlayerIdEventArgs>, connectedSubscribed: bool,
                                isKind: Event -> bool)
    requires RequestPlayerId(answered).Granted?
    ensures var id := answered.GetOr(FreshRequestArgs).playerId;
      var raised := if connectedSubscribed then PlayerConnectedRaised(id) else NotHandled(PlayerConnected);
      Occurrences(SocketEvents(Some(s), answered, connectedSubscribed), isKind)
      == Indicator(isKind(RequestEvent(answered)))
         + Indicator(isKind(ConnectionCreated(s, ClientDecryptor))) + Indicator(isKind(PlayerCreated(id, s)))
         + Indicator(isKind(raised))
         + Indicator(isKind(DisconnectedWired(id))) + Indicator(isKind(ReceiveBegun(s)))
  {
    var id := answered.GetOr(FreshRequestArgs).playerId;
    var head := [RequestEvent(answered)];
    var wired := [ConnectionCreated(s, ClientDecryptor), PlayerCreated(id, s)];
    var raised := if connectedSubscribed then PlayerConnectedRaised(id) else NotHandled(PlayerConnected);
    var tail := [DisconnectedWired(id), ReceiveBegun(s)];
    assert SocketEvents(Some(s), answered, connectedSubscribed) == head + (wired + [raised] + tail);
    OccurrencesOfPair(ConnectionCreated(s, ClientDecryptor), PlayerCreated(id, s), isKind);
    OccurrencesOfPair(DisconnectedWired(id), ReceiveBegun(s), isKind);
    OccurrencesOfSingleton(raised, isKind);
    OccurrencesOfSingleton(RequestEvent(answered), isKind);
    OccurrencesOfFour(head, wired, [raised], tail, isKind);
  }

  lemma OccurrencesOfSingleton(e: Event, isKind: Event -> bool)
    ensures Occurrences([e], isKind) == Indicator(isKind(e))
  {
    assert [e][1..] == [];
  }

  lemma OccurrencesOfPair(e: Event, f: Event, isKind: Event -> bool)
    ensures Occurrences([e, f], isKind) == Indicator(isKind(e)) + Indicator(isKind(f))
  {
    assert [e, f][1..] == [f];
    OccurrencesOfSingleton(f, isKind);
  }

  lemma OccurrencesOfFour(a: seq<Event>, b: seq<Event>, c: seq<Event>, d: seq<Event>, isKind: Event -> bool)
    ensures Occurrences(a + (b + c + d), isKind)
         == Occurrences(a, isKind) + Occurrences(b, isKind) + Occurrences(c, isKind) + Occurrences(d, isKind)
  {
    OccurrencesAppend(a, b + c + d, isKind);
    OccurrencesAppend(b + c, d, isKind);
    OccurrencesAppend(b, c, isKind);
  }

  // ----- The accept loop -----

  datatype AcceptResult = Accepted(socket: Option<Socket>) | ListenerDisposed | UnexpectedError

  /**
   * One turn of the accept loop: what the accept produced, the player-id request as the
   * subscribers answer it for that socket, and whether a Stop by another caller completed while
   * the socket was being handled.
   */
  datatype AcceptStep = AcceptStep(result: AcceptResult, answered: RequestPlayerIdEventArgs, stopMeanwhile: bool)

  /** How many sockets the loop handles: it ends at an accept error, or once a stop has unbound the listener. */
  function AcceptedCount(steps: seq<AcceptStep>): nat
  {
    if |steps| == 0 || !steps[0].result.Accepted? then 0
    else if steps[0].stopMeanwhile then 1
    else 1 + AcceptedCount(steps[1..])
  }

  /**
   * The loop rule: every handled turn was an accepted socket, no handled turn but the last saw a
   * stop, and when the loop ends before the turns run out, it is because the next accept raised
   * or because the last handled turn saw the listener stopped.
   */
  lemma {:induction false} AcceptLoopRule(steps: seq<AcceptStep>)
    ensures AcceptedCount(steps) <= |steps|
    ensures forall k :: 0 <= k < AcceptedCount(steps) ==> steps[k].result.Accepted?
    ensures forall k :: 0 <= k < AcceptedCount(steps) - 1 ==> !steps[k].stopMeanwhile
    ensures AcceptedCount(steps) < |steps| ==>
      || !steps[AcceptedCount(steps)].result.Accepted?
      || (AcceptedCount(steps) > 0 && steps[AcceptedCount(steps) - 1].stopMeanwhile)
  {
    if |steps| > 0 && steps[0].result.Accepted? && !steps[0].stopMeanwhile {
      AcceptLoopRule(steps[1..]);
      assert forall k :: 1 <= k < |steps| ==> steps[k] == steps[1..][k - 1];
    }
  }

  /** What the listener does in one handled turn of the accept loop. */
  function TurnEvents(step: AcceptStep, idSubscribed: bool, connectedSubscribed: bool, info: GameServerInfo): seq<Event>
  {
    match step.result
    case Accepted(socket) =>
      SocketEvents(socket, if idSubscribed then Some(step.answered) else None, connectedSubscribed)
      + if step.stopMeanwhile then [GameServerUnregistered(info), ListenerStopped] else []
    case _ => []
  }

  /** What the listener does in a run of handled turns. */
  function LoopEvents(steps: seq<AcceptStep>, idSubscribed: bool, connectedSubscribed: bool, info: GameServerInfo): seq<Event>
  {
    if |steps| == 0 then []
    else
      LoopEvents(steps[..|steps| - 1], idSubscribed, connectedSubscribed, info)
      + TurnEvents(steps[|steps| - 1], idSubscribed, connectedSubscribed, info)
  }

  lemma LoopEventsStep(steps: seq<AcceptStep>, n: nat, idSubscribed: bool, connectedSubscribed: bool, info: GameServerInfo)
    requires n < |steps|
    ensures LoopEvents(steps[..n + 1], idSubscribed, connectedSubscribed, info)
         == LoopEvents(steps[..n], idSubscribed, connectedSubscribed, info)
            + TurnEvents(steps[n], idSubscribed, connectedSubscribed, info)
  {
    assert steps[..n + 1][..n] == steps[..n];
  }

  /** The trace after a handled turn, spelled out: the socket's events, then those of a concurrent stop. */
  lemma HandledTurnEvents(before: seq<Event>, steps: seq<AcceptStep>, n: nat,
                          idSubscribed: bool, connectedSubscribed: bool, info: GameServerInfo)
    requires n < |steps| && steps[n].result.Accepted?
    ensures before + LoopEvents(steps[..n + 1], idSubscribed, connectedSubscribed, info)
         == before + LoopEvents(steps[..n], idSubscribed, connectedSubscribed, info)
            + SocketEvents(steps[n].result.socket, if idSubscribed then Some(steps[n].answered) else None, connectedSubscribed)
            + (if steps[n].stopMeanwhile then [GameServerUnregistered(info), ListenerStopped] else [])
  {
    LoopEventsStep(steps, n, idSubscribed, connectedSubscribed, info);
    var socketPart := SocketEvents(steps[n].result.socket, if idSubscribed then Some(steps[n].answered) else None, connectedSubscribed);
    var stopPart := if steps[n].stopMeanwhile then [GameServerUnregistered(info), ListenerStopped] else [];
    assert TurnEvents(steps[n], idSubscribed, connectedSubscribed, info) == socketPart + stopPart;
    AppendAssociative(before, LoopEvents(steps[..n], idSubscribed, connectedSubscribed, info), socketPart, stopPart);
  }

  lemma AppendAssociative(a: seq<Event>, b: seq<Event>, c: seq<Event>, d: seq<Event>)
    ensures a + (b + (c + d)) == a + b + c + d
  {
  }

  lemma AcceptedCountStep(steps: seq<AcceptStep>, n: nat)
    requires n < |steps|
    ensures AcceptedCount(steps[n..])
         == if !steps[n].result.Accepted? then 0
            else if steps[n].stopMeanwhile then 1
            else 1 + AcceptedCount(steps[n + 1..])
  {
    assert steps[n..][0] == steps[n];
    assert steps[n..][1..] == steps[n + 1..];
  }

  // ----- The listener -----

  class GameServerListener {
    const port: int
    const gameServerInfo: GameServerInfo
    /** A TCP listener has been created. */
    var hasListener: bool
    /** The listener's socket is bound. */
    var bound: bool
    /** The events have subscribers (`+=` on `PlayerIdRequested`, `PlayerConnected`). */
    var playerIdRequestedSubscribed: bool
    var playerConnectedSubscribed: bool
    /** Everything the listener has done to the outside, in order. */
    var trace: seq<Event>
    /** The connect server lists this server: its last successful registration call was a registration. */
    ghost var advertised: bool

    /** Only a created listener is bound, and while the server is advertised, the listener is bound. */
    ghost predicate Valid()
      reads this
    {
      && (bound ==> hasListener)
      && (advertised ==> bound)
    }

    constructor (port: int, gameServerInfo: GameServerInfo)
      ensures Valid()
      ensures this.port == port && this.gameServerInfo == gameServerInfo
      ensures !hasListener && !bound && !advertised && trace == []
      ensures !playerIdRequestedSubscribed && !playerConnectedSubscribed
    {
      this.port := port;
      this.gameServerInfo := gameServerInfo;
      hasListener, bound := false, false;
      playerIdRequestedSubscribed, playerConnectedSubscribed := false, false;
      trace := [];
      advertised := false;
    }

    /** `PlayerIdRequested += handler`: from now on a subscriber answers the player-id requests. */
    method SubscribePlayerIdRequested()
      modifies this`playerIdRequestedSubscribed
      ensures playerIdRequestedSubscribed
    {
      playerIdRequestedSubscribed := true;
    }

    /** `PlayerConnected += handler`: from now on a subscriber receives the new players. */
    method SubscribePlayerConnected()
      modifies this`playerConnectedSubscribed
      ensures playerConnectedSubscribed
    {
      playerConnectedSubscribed := true;
    }

    /**
     * Starts listening and registers at the connect server, unless already listening.
     * `ok` is false when the registration raised; the listener is then bound, but the accept loop
     * is not launched.
     */
    method Start(publicAddress: IpAddress, registrationFails: bool) returns (ok: bool)
      requires Valid()
      modifies this`hasListener, this`bound, this`trace, this`advertised
      ensures Valid()
      ensures old(hasListener && bound) ==> ok && hasListener && bound && trace == old(trace) && advertised == old(advertised)
      ensures !old(hasListener && bound) ==> hasListener && bound && ok == !registrationFails
      ensures !old(hasListener && bound) ==> advertised == !registrationFails
      ensures !old(hasListener && bound) ==>
        trace == old(trace) + [ListenerCreated(port), ListenerStarted]
          + if registrationFails then [ConnectServerCallFailed(RegisterGameServer)]
            else [GameServerRegistered(gameServerInfo, EndPoint(publicAddress, port)), AcceptLaunched]
    {
      if hasListener && bound {
        return true;
      }
      hasListener := true;
      trace := trace + [ListenerCreated(port)];
      bound := true;
      trace := trace + [ListenerStarted];
      if registrationFails {
        trace := trace + [ConnectServerCallFailed(RegisterGameServer)];
        return false;
      }
      trace := trace + [GameServerRegistered(gameServerInfo, EndPoint(publicAddress, port))];
      advertised := true;
      trace := trace + [AcceptLaunched];
      ok := true;
    }

    /**
     * Unregisters from the connect server and, when listening, stops the listener.
     * `ok` is false when the unregistration raised; nothing is stopped then.
     */
    method Stop(unregistrationFails: bool) returns (ok: bool)
      requires Valid()
      modifies this`bound, this`trace, this`advertised
      ensures Valid()
      ensures unregistrationFails ==>
        !ok && bound == old(bound) && advertised == old(advertised) && trace == old(trace) + [ConnectServerCallFailed(UnregisterGameServer)]
      ensures !unregistrationFails ==> ok && !bound && !advertised
      ensures !unregistrationFails ==>
        trace == old(trace) + [GameServerUnregistered(gameServerInfo)]
          + if old(hasListener && bound) then [ListenerStopped] else []
    {
      if unregistrationFails {
        trace := trace + [ConnectServerCallFailed(UnregisterGameServer)];
        return false;
      }
      trace := trace + [GameServerUnregistered(gameServerInfo)];
      advertised := false;
      ok := true;
      if !hasListener || !bound {
        return;
      }
      bound := false;
      trace := trace + [ListenerStopped];
    }

    /** Raises the player-id request; the id is granted exactly when the request is not cancelled. */
    method OnRequestPlayerId(answered: RequestPlayerIdEventArgs) returns (granted: bool, playerId: PlayerId)
      modifies this`trace
      ensures var decision := RequestPlayerId(if playerIdRequestedSubscribed then Some(answered) else None);
        granted == decision.Granted? && (granted ==> playerId == decision.id)
      ensures trace == old(trace) + [RequestEvent(if playerIdRequestedSubscribed then Some(answered) else None)]
    {
      var args := FreshRequestArgs;
      if playerIdRequestedSubscribed {
        trace := trace + [PlayerIdRequestRaised];
        args := answered;
      } else {
        trace := trace + [NotHandled(PlayerIdRequested)];
      }
      granted := !args.cancel;
      playerId := args.playerId;
    }

    /** Raises the player-connected event, or logs that it has no subscriber. */
    method OnPlayerConnected(playerId: PlayerId)
      modifies this`trace
      ensures trace == old(trace) + if playerConnectedSubscribed then [PlayerConnectedRaised(playerId)] else [NotHandled(PlayerConnected)]
    {
      var raised := if playerConnectedSubscribed then PlayerConnectedRaised(playerId) else NotHandled(PlayerConnected);
      trace := trace + [raised];
    }

    /** Refuses an accepted socket by disposing it, or wires a connection and a player to it. */
    method HandleNewSocket(socket: Option<Socket>, answered: RequestPlayerIdEventArgs)
      modifies this`trace
      ensures trace == old(trace)
        + SocketEvents(socket, if playerIdRequestedSubscribed then Some(answered) else None, playerConnectedSubscribed)
    {
      if socket.None? {
        return;
      }
      var s := socket.value;
      var granted, newPlayerId := OnRequestPlayerId(answered);
      if !granted {
        trace := trace + [SocketDisposed(s)];
      } else {
        trace := trace + [ConnectionCreated(s, ClientDecryptor), PlayerCreated(newPlayerId, s)];
        OnPlayerConnected(newPlayerId);
        trace := trace + [DisconnectedWired(newPlayerId), ReceiveBegun(s)];
      }
    }

    /**
     * The state after `n` handled turns of an accept loop that began bound, with the trace
     * `before` and the advertisement `wasAdvertised`: a concurrent stop in the last turn unbinds
     * the listener and withdraws the advertisement.
     */
    ghost predicate HandledTurns(before: seq<Event>, wasAdvertised: bool, steps: seq<AcceptStep>, n: nat)
      reads this
    {
      && n <= |steps|
      && Valid() && hasListener
      && trace == before + LoopEvents(steps[..n], playerIdRequestedSubscribed, playerConnectedSubscribed, gameServerInfo)
      && bound == !(0 < n && steps[n - 1].stopMeanwhile)
      && advertised == (wasAdvertised && !(0 < n && steps[n - 1].stopMeanwhile))
    }

    /** Turn `n` of the accept loop, which accepted a socket: handle it, then see a concurrent stop, if any. */
    method HandleTurn(ghost before: seq<Event>, ghost wasAdvertised: bool, steps: seq<AcceptStep>, n: nat)
      requires HandledTurns(before, wasAdvertised, steps, n) && bound
      requires n < |steps| && steps[n].result.Accepted?
      modifies this`bound, this`trace, this`advertised
      ensures HandledTurns(before, wasAdvertised, steps, n + 1)
    {
      var step := steps[n];
      HandleNewSocket(step.result.socket, step.answered);
      ghost var handled := trace;
      if step.stopMeanwhile {
        var stopped := Stop(false);
      }
      assert trace == handled + if step.stopMeanwhile then [GameServerUnregistered(gameServerInfo), ListenerStopped] else [];
      HandledTurnEvents(before, steps, n, playerIdRequestedSubscribed, playerConnectedSubscribed, gameServerInfo);
    }

    /**
     * The accept loop over the turns the environment delivers. It handles accepted sockets one
     * after the other, ends at the first accept error, and goes on only while the listener is bound.
     */
    method BeginAccept(steps: seq<AcceptStep>) returns (accepted: nat)
      requires Valid() && hasListener
      modifies this`bound, this`trace, this`advertised
      ensures Valid()
      ensures !old(bound) ==> accepted == 0 && !bound && trace == old(trace)
      ensures old(bound) ==> accepted == AcceptedCount(steps)
      ensures accepted <= |steps|
      ensures trace == old(trace)
        + LoopEvents(steps[..accepted], playerIdRequestedSubscribed, playerConnectedSubscribed, gameServerInfo)
      ensures bound == (old(bound) && !(0 < accepted && steps[accepted - 1].stopMeanwhile))
      ensures advertised == (old(advertised) && !(0 < accepted && steps[accepted - 1].stopMeanwhile))
    {
      accepted := 0;
      if !bound {
        // accepting on a listener that does not listen raises at once
        return;
      }
      while accepted < |steps| && bound && steps[accepted].result.Accepted?
        invariant HandledTurns(old(trace), old(advertised), steps, accepted)
        invariant AcceptedCount(steps) == accepted + if bound then AcceptedCount(steps[accepted..]) else 0
        decreases |steps| - accepted
      {
        AcceptedCountStep(steps, accepted);
        HandleTurn(old(trace), old(advertised), steps, accepted);
        accepted := accepted + 1;
      }
      // the loop ends when the listener is no longer bound, or when an accept raised
      if bound {
        if accepted < |steps| {
          AcceptedCountStep(steps, accepted);
        } else {
          assert steps[accepted..] == [];
        }
      }
    }
  }

  /** Starting twice creates, starts and registers one listener. */
  method StartTwice(publicAddress: IpAddress)
  {
    var listener := new GameServerListener(55901, GameServerInfo(0));
    var first := listener.Start(publicAddress, false);
    var second := listener.Start(publicAddress, false);
    assert first && second;
    assert listener.trace == [ListenerCreated(55901), ListenerStarted,
      GameServerRegistered(GameServerInfo(0), EndPoint(publicAddress, 55901)), AcceptLaunched];
  }

  /** Stopping a listener that never started still unregisters it at the connect server. */
  method StopUnstarted()
  {
    var listener := new GameServerListener(55901, GameServerInfo(0));
    var ok := listener.Stop(false);
    assert listener.trace == [GameServerUnregistered(GameServerInfo(0))];
  }

  /**
   * A registration that raises leaves the listener bound without an accept loop, and a later
   * Start does nothing: the server then accepts no client until it is stopped.
   */
  method FailedRegistration(publicAddress: IpAddress)
  {
    var listener := new GameServerListener(55901, GameServerInfo(0));
    var first := listener.Start(publicAddress, true);
    var second := listener.Start(publicAddress, false);
    assert !first && second && listener.bound;
    assert AcceptLaunched !in listener.trace;
  }

  /** With both events subscribed, a socket gets the id the subscriber grants, and its player is announced. */
  method SubscribedRequestGrantsAnsweredId(s: Socket)
  {
    var listener := new GameServerListener(55901, GameServerInfo(0));
    listener.SubscribePlayerIdRequested();
    listener.SubscribePlayerConnected();
    listener.HandleNewSocket(Some(s), RequestPlayerIdEventArgs(false, 5));
    assert listener.trace == [PlayerIdRequestRaised, ConnectionCreated(s, ClientDecryptor), PlayerCreated(5, s), PlayerConnectedRaised(5),
      DisconnectedWired(5), ReceiveBegun(s)];
    var refused := new GameServerListener(55901, GameServerInfo(0));
    refused.SubscribePlayerIdRequested();
    refused.HandleNewSocket(Some(s), RequestPlayerIdEventArgs(true, 5));
    assert refused.trace == [PlayerIdRequestRaised, SocketDisposed(s)];
  }

  /** With no player-id subscriber, a socket is granted the id 0. */
  method UnsubscribedRequestGrantsIdZero(s: Socket)
  {
    var listener := new GameServerListener(55901, GameServerInfo(0));
    listener.HandleNewSocket(Some(s), RequestPlayerIdEventArgs(true, 5));
    assert PlayerCreated(0, s) in listener.trace;
  }
}

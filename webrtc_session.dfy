/**
 * The WebRTC session orchestrator: one live streaming session at a time,
 * driven by user calls (start, stop, toggle mute, push a frame), by the
 * signalling channel (connected, a message, disconnected) and by the
 * peer connection (ICE state changes, generated candidates, the offer it
 * produced).
 *
 * The peer-connection client, the signalling client and the delegate
 * adapter are presence flags; what the orchestrator asks of the first two is
 * recorded in `clientCalls` and `signalingCalls`. `Session` is the pure view
 * of the orchestrator's state, and each event has a transition function on
 * it; `SessionViewModel` is the imperative orchestrator proved to follow
 * those functions.
 */
module WebRTCSession {
  import opened Wrappers
  import W = WebRTCClient

  type Sdp = W.Sdp
  type IceCandidate = W.IceCandidate
  type Frame = W.Frame
  type IceConnectionState = W.IceConnectionState

  datatype ConnectionState = Disconnected | Connecting | WaitingForPeer | Connected | Error(message: string)

  /** What the signalling server sends. */
  datatype SignalingMessage =
    | RoomCreated(code: string)
    | RoomJoined
    | PeerJoined
    | Offer(sdp: Sdp)
    | Answer(sdp: Sdp)
    | Candidate(candidate: IceCandidate)
    | PeerLeft
    | ErrorMessage(text: string)

  /** Requests made of the peer-connection client. */
  datatype ClientCall =
    | SetupClient
    | PushFrame(frame: Frame)
    | CreateOfferRequest
    | ApplyRemoteSdp(sdp: Sdp)
    | ApplyRemoteCandidate(candidate: IceCandidate)
    | MuteAudio(mute: bool)
    | CloseClient

  /** Requests made of the signalling client. */
  datatype SignalingCall =
    | Connect(url: string)
    | Disconnect
    | CreateRoom
    | SendSdp(sdp: Sdp)
    | SendCandidate(candidate: IceCandidate)

  datatype Session = Session(
    isActive: bool,
    connectionState: ConnectionState,
    roomCode: string,
    isMuted: bool,
    errorMessage: Option<string>,
    hasClient: bool,
    hasSignaling: bool,
    hasAdapter: bool,
    clientCalls: seq<ClientCall>,
    signalingCalls: seq<SignalingCall>,
    clientsCreated: nat)

  const Initial: Session := Session(false, Disconnected, "", false, None, false, false, false, [], [], 0)

  const NotConfiguredMessage: string := "WebRTC signaling URL not configured."
  const InvalidURLMessage: string := "Invalid signaling URL"
  const ConnectionFailedMessage: string := "Connection failed"

  function ClientCallIf(s: Session, c: ClientCall): seq<ClientCall>
  {
    if s.hasClient then [c] else []
  }

  function SignalingCallIf(s: Session, c: SignalingCall): seq<SignalingCall>
  {
    if s.hasSignaling then [c] else []
  }

  /**
   * `startSession()`. `configured` is `WebRTCConfig.isConfigured`;
   * `signalingURL` is what `URL(string:)` makes of the configured address.
   */
  function StartedSession(s: Session, configured: bool, signalingURL: Option<string>): (r: Session)
    ensures s.isActive ==> r == s
    ensures !s.isActive && !configured ==>
      r == s.(errorMessage := Some(NotConfiguredMessage))
    ensures !s.isActive && configured ==>
      && r.hasClient && r.hasSignaling && r.hasAdapter
      && r.clientsCreated == s.clientsCreated + 1
      && r.clientCalls == s.clientCalls + [SetupClient]
      && r.roomCode == s.roomCode && r.isMuted == s.isMuted
    ensures !s.isActive && configured && signalingURL.Some? ==>
      && r.isActive && r.connectionState == Connecting && r.errorMessage == s.errorMessage
      && r.signalingCalls == s.signalingCalls + [Connect(signalingURL.value)]
    ensures !s.isActive && configured && signalingURL.None? ==>
      && !r.isActive && r.connectionState == Disconnected && r.errorMessage == Some(InvalidURLMessage)
      && r.signalingCalls == s.signalingCalls
  {
    if s.isActive then s
    else if !configured then s.(errorMessage := Some(NotConfiguredMessage))
    else
      var created := s.(isActive := true, connectionState := Connecting,
                        hasAdapter := true, hasClient := true, hasSignaling := true,
                        clientCalls := s.clientCalls + [SetupClient],
                        clientsCreated := s.clientsCreated + 1);
      match signalingURL
      case None => created.(errorMessage := Some(InvalidURLMessage), isActive := false,
                            connectionState := Disconnected)
      case Some(url) => created.(signalingCalls := created.signalingCalls + [Connect(url)])
  }

  /** `stopSession()` */
  function StoppedSession(s: Session): (r: Session)
    ensures !r.isActive && r.connectionState == Disconnected && r.roomCode == "" && !r.isMuted
    ensures !r.hasClient && !r.hasSignaling && !r.hasAdapter
    ensures r.errorMessage == s.errorMessage && r.clientsCreated == s.clientsCreated
    ensures r.clientCalls == s.clientCalls + (if s.hasClient then [CloseClient] else [])
    ensures r.signalingCalls == s.signalingCalls + (if s.hasSignaling then [Disconnect] else [])
  {
    s.(clientCalls := s.clientCalls + ClientCallIf(s, CloseClient),
       hasClient := false, hasAdapter := false,
       signalingCalls := s.signalingCalls + SignalingCallIf(s, Disconnect),
       hasSignaling := false,
       isActive := false, connectionState := Disconnected, roomCode := "", isMuted := false)
  }

  /** `toggleMute()` */
  function MuteToggled(s: Session): (r: Session)
    ensures r.isMuted == !s.isMuted
    ensures r.clientCalls == s.clientCalls + (if s.hasClient then [MuteAudio(r.isMuted)] else [])
    ensures r.(isMuted := s.isMuted, clientCalls := s.clientCalls) == s
  {
    var muted := !s.isMuted;
    s.(isMuted := muted, clientCalls := s.clientCalls + ClientCallIf(s, MuteAudio(muted)))
  }

  /** `pushVideoFrame(_:)`: frames are only forwarded while connected. */
  function FramePushed(s: Session, frame: Frame): (r: Session)
    ensures r.(clientCalls := s.clientCalls) == s
    ensures r.clientCalls == s.clientCalls +
      (if s.isActive && s.connectionState == Connected && s.hasClient then [PushFrame(frame)] else [])
  {
    if s.isActive && s.connectionState == Connected
    then s.(clientCalls := s.clientCalls + ClientCallIf(s, PushFrame(frame)))
    else s
  }

  /** `handleSignalingMessage(_:)` */
  function MessageHandled(s: Session, m: SignalingMessage): (r: Session)
    ensures r.isActive == s.isActive && r.isMuted == s.isMuted && r.clientsCreated == s.clientsCreated
    ensures r.hasClient == s.hasClient && r.hasSignaling == s.hasSignaling && r.hasAdapter == s.hasAdapter
    ensures r.signalingCalls == s.signalingCalls
    ensures r.connectionState == (if m.RoomCreated? || m.PeerLeft? then WaitingForPeer else s.connectionState)
    ensures r.roomCode == (if m.RoomCreated? then m.code else s.roomCode)
    ensures r.errorMessage == (if m.ErrorMessage? then Some(m.text) else s.errorMessage)
    ensures r.clientCalls == s.clientCalls +
      (match m
       case PeerJoined => ClientCallIf(s, CreateOfferRequest)
       case Answer(sdp) => ClientCallIf(s, ApplyRemoteSdp(sdp))
       case Candidate(c) => ClientCallIf(s, ApplyRemoteCandidate(c))
       case _ => [])
  {
    match m
    case RoomCreated(code) => s.(roomCode := code, connectionState := WaitingForPeer)
    case PeerJoined => s.(clientCalls := s.clientCalls + ClientCallIf(s, CreateOfferRequest))
    case Answer(sdp) => s.(clientCalls := s.clientCalls + ClientCallIf(s, ApplyRemoteSdp(sdp)))
    case Candidate(c) => s.(clientCalls := s.clientCalls + ClientCallIf(s, ApplyRemoteCandidate(c)))
    case PeerLeft => s.(connectionState := WaitingForPeer)
    case ErrorMessage(text) => s.(errorMessage := Some(text))
    case RoomJoined => s
    case Offer(_) => s
  }

  /**
   * The table of `handleConnectionStateChange(_:)`, given by the body; `None`
   * leaves the state as it is. `IceStateApplied` and `IceRunLastMapped` state
   * what the table does to a session.
   */
  function MappedIceState(ice: IceConnectionState): (r: Option<ConnectionState>)
    ensures r.Some? <==> ice in {W.IceConnectionState.Connected, W.IceConnectionState.Completed,
                                 W.IceConnectionState.Disconnected, W.IceConnectionState.Failed,
                                 W.IceConnectionState.Closed}
  {
    match ice
    case Connected => Some(ConnectionState.Connected)
    case Completed => Some(ConnectionState.Connected)
    case Disconnected => Some(WaitingForPeer)
    case Failed => Some(Error(ConnectionFailedMessage))
    case Closed => Some(ConnectionState.Disconnected)
    case _ => None
  }

  function ApplyIceState(state: ConnectionState, ice: IceConnectionState): ConnectionState
  {
    MappedIceState(ice).GetOr(state)
  }

  /** `handleConnectionStateChange(_:)`: whatever `isActive` is. */
  function IceStateApplied(s: Session, ice: IceConnectionState): (r: Session)
    ensures r.(connectionState := s.connectionState) == s
    ensures r.connectionState == ApplyIceState(s.connectionState, ice)
  {
    s.(connectionState := ApplyIceState(s.connectionState, ice))
  }

  /** `handleGeneratedCandidate(_:)` */
  function CandidateSent(s: Session, c: IceCandidate): (r: Session)
    ensures r.(signalingCalls := s.signalingCalls) == s
    ensures r.signalingCalls == s.signalingCalls + (if s.hasSignaling then [SendCandidate(c)] else [])
  {
    s.(signalingCalls := s.signalingCalls + SignalingCallIf(s, SendCandidate(c)))
  }

  /** The `onConnected` callback: ask for a room. */
  function RoomRequested(s: Session): (r: Session)
    ensures r.(signalingCalls := s.signalingCalls) == s
    ensures r.signalingCalls == s.signalingCalls + (if s.hasSignaling then [CreateRoom] else [])
  {
    s.(signalingCalls := s.signalingCalls + SignalingCallIf(s, CreateRoom))
  }

  /** The completion of `createOffer`: send the offer over signalling. */
  function OfferSent(s: Session, sdp: Sdp): (r: Session)
    ensures r.(signalingCalls := s.signalingCalls) == s
    ensures r.signalingCalls == s.signalingCalls + (if s.hasSignaling then [SendSdp(sdp)] else [])
  {
    s.(signalingCalls := s.signalingCalls + SignalingCallIf(s, SendSdp(sdp)))
  }

  function DisconnectMessage(reason: Option<string>): string
  {
    "Signaling disconnected: " + reason.GetOr("Unknown")
  }

  /** The `onDisconnected` callback: stop an active session and say why. */
  function DisconnectHandled(s: Session, reason: Option<string>): (r: Session)
    ensures !s.isActive ==> r == s
    ensures s.isActive ==> r == StoppedSession(s).(errorMessage := Some(DisconnectMessage(reason)))
  {
    if !s.isActive then s
    else StoppedSession(s).(errorMessage := Some(DisconnectMessage(reason)))
  }

  // ---------------------------------------------------------------------------
  // Runs of events

  datatype Event =
    | StartSession(configured: bool, signalingURL: Option<string>)
    | StopSession
    | ToggleMuteEvent
    | PushVideoFrameEvent(frame: Frame)
    | SignalingConnected
    | SignalingMessageReceived(message: SignalingMessage)
    | SignalingDisconnected(reason: Option<string>)
    | IceStateChanged(state: IceConnectionState)
    | LocalCandidateGenerated(candidate: IceCandidate)
    | OfferCreated(sdp: Sdp)

  function Step(s: Session, e: Event): Session
  {
    match e
    case StartSession(configured, url) => StartedSession(s, configured, url)
    case StopSession => StoppedSession(s)
    case ToggleMuteEvent => MuteToggled(s)
    case PushVideoFrameEvent(f) => FramePushed(s, f)
    case SignalingConnected => RoomRequested(s)
    case SignalingMessageReceived(m) => MessageHandled(s, m)
    case SignalingDisconnected(reason) => DisconnectHandled(s, reason)
    case IceStateChanged(ice) => IceStateApplied(s, ice)
    case LocalCandidateGenerated(c) => CandidateSent(s, c)
    case OfferCreated(sdp) => OfferSent(s, sdp)
  }

  function Run(s: Session, events: seq<Event>): Session
    decreases |events|
  {
    if events == [] then s else Run(Step(s, events[0]), events[1..])
  }

  /** An active session always owns its client, its signalling channel and its adapter. */
  ghost predicate Inv(s: Session)
  {
    s.isActive ==> s.hasClient && s.hasSignaling && s.hasAdapter
  }

  lemma StepPreservesInv(s: Session, e: Event)
    requires Inv(s)
    ensures Inv(Step(s, e))
  {
  }

  lemma {:induction false} RunPreservesInv(s: Session, events: seq<Event>)
    requires Inv(s)
    ensures Inv(Run(s, events))
    decreases |events|
  {
    if events != [] {
      StepPreservesInv(s, events[0]);
      RunPreservesInv(Step(s, events[0]), events[1..]);
    }
  }

  /** From the initial state, a frame is forwarded exactly when active and connected. */
  lemma {:induction false} FrameForwardedIffConnected(events: seq<Event>, frame: Frame)
    ensures var s := Run(Initial, events);
      FramePushed(s, frame).clientCalls ==
        s.clientCalls + (if s.isActive && s.connectionState == Connected then [PushFrame(frame)] else [])
  {
    RunPreservesInv(Initial, events);
  }

  /** A second start without a stop in between changes nothing and creates no client. */
  lemma StartTwice(s: Session, c1: bool, u1: Option<string>, c2: bool, u2: Option<string>)
    requires StartedSession(s, c1, u1).isActive
    ensures StartedSession(StartedSession(s, c1, u1), c2, u2) == StartedSession(s, c1, u1)
    ensures StartedSession(StartedSession(s, c1, u1), c2, u2).clientsCreated <= s.clientsCreated + 1
  {
  }

  /** Stopping twice is the same as stopping once, from any state. */
  lemma StopIdempotent(s: Session)
    ensures StoppedSession(StoppedSession(s)) == StoppedSession(s)
  {
  }

  /** Stopping N >= 1 times is the same as stopping once. */
  lemma {:induction false} StopRepeated(s: Session, n: nat)
    requires n >= 1
    ensures Run(s, seq(n, _ => StopSession)) == StoppedSession(s)
    decreases n
  {
    var stops := seq(n, _ => StopSession);
    assert stops[0] == StopSession;
    if n == 1 {
      assert stops[1..] == [];
    } else {
      assert stops[1..] == seq(n - 1, _ => StopSession);
      StopRepeated(StoppedSession(s), n - 1);
      StopIdempotent(s);
    }
  }

  /** Two toggles restore the flag and issue two mute updates when a client exists. */
  lemma ToggleTwice(s: Session)
    ensures MuteToggled(MuteToggled(s)).isMuted == s.isMuted
    ensures MuteToggled(MuteToggled(s)).connectionState == s.connectionState
    ensures MuteToggled(MuteToggled(s)).clientCalls ==
      s.clientCalls + (if s.hasClient then [MuteAudio(!s.isMuted), MuteAudio(s.isMuted)] else [])
  {
  }

  /** The connection state after ICE events: that of the last event the table maps. */
  function LastMapped(ices: seq<IceConnectionState>): Option<ConnectionState>
    decreases |ices|
  {
    if ices == [] then None
    else if MappedIceState(ices[|ices| - 1]).Some? then MappedIceState(ices[|ices| - 1])
    else LastMapped(ices[..|ices| - 1])
  }

  function IceEvents(ices: seq<IceConnectionState>): (r: seq<Event>)
    ensures |r| == |ices|
    ensures forall k :: 0 <= k < |ices| ==> r[k] == IceStateChanged(ices[k])
  {
    seq(|ices|, k requires 0 <= k < |ices| => IceStateChanged(ices[k]))
  }

  lemma {:induction false} RunAppend(s: Session, a: seq<Event>, b: seq<Event>)
    ensures Run(s, a + b) == Run(Run(s, a), b)
    decreases |a|
  {
    if a != [] {
      assert (a + b)[0] == a[0];
      assert (a + b)[1..] == a[1..] + b;
      RunAppend(Step(s, a[0]), a[1..], b);
    } else {
      assert a + b == b;
    }
  }

  /**
   * A run of ICE state changes ends in the state the last mapped change
   * gives, or the starting state if none is mapped, and touches nothing else.
   */
  lemma {:induction false} IceRunLastMapped(s: Session, ices: seq<IceConnectionState>)
    ensures Run(s, IceEvents(ices)) == s.(connectionState := LastMapped(ices).GetOr(s.connectionState))
    decreases |ices|
  {
    if ices != [] {
      var init := ices[..|ices| - 1];
      var last := ices[|ices| - 1];
      assert IceEvents(ices) == IceEvents(init) + [IceStateChanged(last)];
      RunAppend(s, IceEvents(init), [IceStateChanged(last)]);
      IceRunLastMapped(s, init);
      assert [IceStateChanged(last)][1..] == [];
    }
  }

  /**
   * A worked example of the end-to-end flow: start, signalling connects, a
   * room is created, a peer joins, the offer goes out, the answer comes
   * back, ICE connects, and a frame is forwarded.
   */
  lemma EndToEndScenario(url: string, offer: Sdp, answer: Sdp, frame: Frame)
    ensures
      var s1 := StartedSession(Initial, true, Some(url));
      var s2 := RoomRequested(s1);
      var s3 := MessageHandled(s2, RoomCreated("AB12"));
      var s4 := MessageHandled(s3, PeerJoined);
      var s5 := OfferSent(s4, offer);
      var s6 := MessageHandled(s5, Answer(answer));
      var s7 := IceStateApplied(s6, W.IceConnectionState.Connected);
      var s8 := FramePushed(s7, frame);
      && s1.connectionState == Connecting
      && s3.connectionState == WaitingForPeer && s3.roomCode == "AB12"
      && s8.isActive && s8.connectionState == Connected && s8.roomCode == "AB12"
      && s8.signalingCalls == [Connect(url), CreateRoom, SendSdp(offer)]
      && s8.clientCalls == [SetupClient, CreateOfferRequest, ApplyRemoteSdp(answer), PushFrame(frame)]
      && s8.clientsCreated == 1
  {
  }

  /** A worked example: signalling dropping with a reason ends the session with that reason shown. */
  lemma SignalingDropScenario(url: string)
    ensures
      var s := DisconnectHandled(RoomRequested(StartedSession(Initial, true, Some(url))), Some("timeout"));
      && !s.isActive && s.connectionState == Disconnected
      && s.errorMessage == Some("Signaling disconnected: timeout")
      && s.signalingCalls == [Connect(url), CreateRoom, Disconnect]
      && s.clientCalls == [SetupClient, CloseClient]
  {
    var message := "Signaling disconnected: " + "timeout";
    var connected := RoomRequested(StartedSession(Initial, true, Some(url)));
    assert connected.isActive;
    assert DisconnectHandled(connected, Some("timeout")).errorMessage == Some(message);
    assert message == "Signaling disconnected: timeout";
  }

  /**
   * An invalid signalling URL leaves the new client and signalling channel in
   * place with the session inactive, and the next start replaces them without
   * closing the client first.
   */
  lemma InvalidURLKeepsClient(s: Session, url: string)
    requires !s.isActive
    ensures
      var failed := StartedSession(s, true, None);
      var retried := StartedSession(failed, true, Some(url));
      && !failed.isActive && failed.hasClient && failed.hasSignaling
      && retried.isActive && retried.clientsCreated == s.clientsCreated + 2
      && retried.clientCalls == s.clientCalls + [SetupClient, SetupClient]
  {
  }

  /** After a failure, frames are dropped. */
  lemma FailedDropsFrames(s: Session, frame: Frame)
    ensures var f := IceStateApplied(s, IceConnectionState.Failed);
      f.connectionState == Error(ConnectionFailedMessage) && FramePushed(f, frame) == f
  {
  }

  // ---------------------------------------------------------------------------
  // The orchestrator

  class SessionViewModel {
    var isActive: bool
    var connectionState: ConnectionState
    var roomCode: string
    var isMuted: bool
    var errorMessage: Option<string>
    var hasClient: bool
    var hasSignaling: bool
    var hasAdapter: bool
    ghost var clientCalls: seq<ClientCall>
    ghost var signalingCalls: seq<SignalingCall>
    ghost var clientsCreated: nat

    ghost function State(): Session
      reads this
    {
      Session(isActive, connectionState, roomCode, isMuted, errorMessage, hasClient, hasSignaling,
              hasAdapter, clientCalls, signalingCalls, clientsCreated)
    }

    ghost predicate Valid()
      reads this
    {
      Inv(State())
    }

    constructor ()
      ensures Valid() && State() == Initial
    {
      isActive, connectionState, roomCode, isMuted, errorMessage := false, Disconnected, "", false, None;
      hasClient, hasSignaling, hasAdapter := false, false, false;
      clientCalls, signalingCalls, clientsCreated := [], [], 0;
    }

    /** `startSession()` */
    method StartSession(configured: bool, signalingURL: Option<string>)
      requires Valid()
      modifies this
      ensures Valid()
      ensures State() == StartedSession(old(State()), configured, signalingURL)
    {
      if isActive {
        return;
      }
      if !configured {
        errorMessage := Some(NotConfiguredMessage);
        return;
      }
      isActive := true;
      connectionState := Connecting;
      hasAdapter := true;
      clientCalls := clientCalls + [SetupClient];
      clientsCreated := clientsCreated + 1;
      hasClient := true;
      hasSignaling := true;
      if signalingURL.None? {
        errorMessage := Some(InvalidURLMessage);
        isActive := false;
        connectionState := Disconnected;
        return;
      }
      signalingCalls := signalingCalls + [Connect(signalingURL.value)];
    }

    /** `stopSession()` */
    method StopSession()
      requires Valid()
      modifies this
      ensures Valid()
      ensures State() == StoppedSession(old(State()))
      ensures !isActive && connectionState == Disconnected && roomCode == "" && !isMuted
      ensures errorMessage == old(errorMessage)
    {
      if hasClient {
        clientCalls := clientCalls + [CloseClient];
      }
      hasClient := false;
      hasAdapter := false;
      if hasSignaling {
        signalingCalls := signalingCalls + [Disconnect];
      }
      hasSignaling := false;
      isActive := false;
      connectionState := Disconnected;
      roomCode := "";
      isMuted := false;
    }

    /** `toggleMute()` */
    method ToggleMute()
      requires Valid()
      modifies this
      ensures Valid()
      ensures State() == MuteToggled(old(State()))
      ensures isMuted == !old(isMuted) && connectionState == old(connectionState)
    {
      isMuted := !isMuted;
      if hasClient {
        clientCalls := clientCalls + [MuteAudio(isMuted)];
      }
    }

    /** `pushVideoFrame(_:)` */
    method PushVideoFrame(frame: Frame)
      requires Valid()
      modifies this
      ensures Valid()
      ensures State() == FramePushed(old(State()), frame)
      ensures clientCalls == old(clientCalls) +
        (if old(isActive) && old(connectionState) == Connected then [PushFrame(frame)] else [])
    {
      if !(isActive && connectionState == Connected) {
        return;
      }
      if hasClient {
        clientCalls := clientCalls + [PushFrame(frame)];
      }
    }

    /** `handleSignalingMessage(_:)` */
    method HandleSignalingMessage(m: SignalingMessage)
      requires Valid()
      modifies this
      ensures Valid()
      ensures State() == MessageHandled(old(State()), m)
    {
      match m {
        case RoomCreated(code) =>
          roomCode := code;
          connectionState := WaitingForPeer;
        case PeerJoined =>
          if hasClient {
            clientCalls := clientCalls + [CreateOfferRequest];
          }
        case Answer(sdp) =>
          if hasClient {
            clientCalls := clientCalls + [ApplyRemoteSdp(sdp)];
          }
        case Candidate(c) =>
          if hasClient {
            clientCalls := clientCalls + [ApplyRemoteCandidate(c)];
          }
        case PeerLeft =>
          connectionState := WaitingForPeer;
        case ErrorMessage(text) =>
          errorMessage := Some(text);
        case RoomJoined =>
        case Offer(_) =>
      }
    }

    /** `handleConnectionStateChange(_:)` */
    method HandleConnectionStateChange(ice: IceConnectionState)
      requires Valid()
      modifies this
      ensures Valid()
      ensures State() == IceStateApplied(old(State()), ice)
    {
      match ice {
        case Connected => connectionState := ConnectionState.Connected;
        case Completed => connectionState := ConnectionState.Connected;
        case Disconnected => connectionState := WaitingForPeer;
        case Failed => connectionState := Error(ConnectionFailedMessage);
        case Closed => connectionState := ConnectionState.Disconnected;
        case _ =>
      }
    }

    /** `handleGeneratedCandidate(_:)` */
    method HandleGeneratedCandidate(c: IceCandidate)
      requires Valid()
      modifies this
      ensures Valid()
      ensures State() == CandidateSent(old(State()), c)
    {
      if hasSignaling {
        signalingCalls := signalingCalls + [SendCandidate(c)];
      }
    }

    /** The signalling client's `onConnected` callback. */
    method OnSignalingConnected()
      requires Valid()
      modifies this
      ensures Valid()
      ensures State() == RoomRequested(old(State()))
    {
      if hasSignaling {
        signalingCalls := signalingCalls + [CreateRoom];
      }
    }

    /** The completion passed to `createOffer`. */
    method OnOfferCreated(sdp: Sdp)
      requires Valid()
      modifies this
      ensures Valid()
      ensures State() == OfferSent(old(State()), sdp)
    {
      if hasSignaling {
        signalingCalls := signalingCalls + [SendSdp(sdp)];
      }
    }

    /** The signalling client's `onDisconnected` callback. */
    method OnSignalingDisconnected(reason: Option<string>)
      requires Valid()
      modifies this
      ensures Valid()
      ensures State() == DisconnectHandled(old(State()), reason)
    {
      if !isActive {
        return;
      }
      StopSession();
      errorMessage := Some("Signaling disconnected: " + reason.GetOr("Unknown"));
    }
  }
}

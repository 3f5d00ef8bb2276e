/**
 * The media-transport adapter that wraps one WebRTC peer connection: it
 * creates the local video and audio tracks, produces the SDP offer, applies
 * the remote description and candidates, mutes audio, closes, and forwards
 * two kinds of peer-connection callbacks to its delegate.
 *
 * The WebRTC library is abstract. A peer connection is the record of what
 * has been done to it; SDP and ICE candidates are opaque strings, video
 * frames opaque numbers. What the library answers (an offer or an error, a
 * rejected description) is an input of the method that asks for it.
 */
module WebRTCClient {
  import opened Wrappers

  type Sdp = string
  type IceCandidate = string
  type Frame = nat

  /** `RTCIceConnectionState`, all of its cases. */
  datatype IceConnectionState = New | Checking | Connected | Completed | Failed | Disconnected | Closed | Count

  /** `RTCVideoRotation`; frames are pushed with `._0` unless told otherwise. */
  datatype Rotation = Rotation0 | Rotation90 | Rotation180 | Rotation270

  datatype Track = Track(trackId: string, enabled: bool)

  /** A track added to the peer connection, with the stream ids it was added under. */
  datatype Sender = Sender(trackId: string, streamIds: seq<string>)

  datatype PeerConfig = PeerConfig(
    iceServers: seq<string>, unifiedPlan: bool, gatherContinually: bool, dtlsSrtpKeyAgreement: bool)

  datatype PeerConnection = PeerConnection(
    config: PeerConfig, senders: seq<Sender>, localDescription: Option<Sdp>,
    remoteDescription: Option<Sdp>, remoteCandidates: seq<IceCandidate>)

  /** The mandatory constraints of an offer request. */
  datatype OfferConstraints = OfferConstraints(offerToReceiveAudio: bool, offerToReceiveVideo: bool)

  /** Requests the client makes of the WebRTC library, in order. */
  datatype EngineCall =
    | CreatePeerConnection(config: PeerConfig)
    | RequestOffer(constraints: OfferConstraints)
    | ApplyLocalDescription(sdp: Sdp)
    | ApplyRemoteDescription(sdp: Sdp)
    | AddRemoteCandidate(candidate: IceCandidate)
    | ClosePeerConnection

  /** What reaches the client's delegate. */
  datatype ClientEvent =
    | ConnectionStateChanged(state: IceConnectionState)
    | CandidateGenerated(candidate: IceCandidate)

  /** The `RTCPeerConnectionDelegate` callbacks. */
  datatype PeerEvent =
    | SignalingStateChanged(rawValue: int)
    | IceConnectionChanged(state: IceConnectionState)
    | IceGatheringChanged(rawValue: int)
    | LocalCandidate(candidate: IceCandidate)
    | StreamAdded(audioTrackCount: nat)
    | StreamRemoved
    | ShouldNegotiate
    | CandidatesRemoved(candidates: seq<IceCandidate>)
    | DataChannelOpened

  /** Which peer-connection callbacks the client passes on; the rest are only logged. */
  function Forwarded(e: PeerEvent): (r: Option<ClientEvent>)
    ensures r.Some? <==> e.IceConnectionChanged? || e.LocalCandidate?
    ensures e.IceConnectionChanged? ==> r == Some(ConnectionStateChanged(e.state))
    ensures e.LocalCandidate? ==> r == Some(CandidateGenerated(e.candidate))
  {
    match e
    case IceConnectionChanged(state) => Some(ConnectionStateChanged(state))
    case LocalCandidate(candidate) => Some(CandidateGenerated(candidate))
    case _ => None
  }

  const VideoTrackId: string := "video0"
  const AudioTrackId: string := "audio0"
  const StreamId: string := "stream0"
  const OfferConstraintsUsed: OfferConstraints := OfferConstraints(true, false)

  class Client {
    var peerConnection: Option<PeerConnection>
    /** `videoCapturer` has been created (it is never released). */
    var hasVideoCapturer: bool
    var localVideoTrack: Option<Track>
    var localAudioTrack: Option<Track>
    /** The weak `delegate` is set and still alive. */
    var hasDelegate: bool
    ghost var engineCalls: seq<EngineCall>
    /** Frames handed to the video capturer, with their rotation. */
    ghost var capturedFrames: seq<(Frame, Rotation)>
    ghost var delegateEvents: seq<ClientEvent>

    constructor ()
      ensures peerConnection == None && !hasVideoCapturer && !hasDelegate
      ensures localVideoTrack == None && localAudioTrack == None
      ensures engineCalls == [] && capturedFrames == [] && delegateEvents == []
    {
      peerConnection := None;
      hasVideoCapturer := false;
      localVideoTrack := None;
      localAudioTrack := None;
      hasDelegate := false;
      engineCalls := [];
      capturedFrames := [];
      delegateEvents := [];
    }

    method SetDelegate(present: bool)
      modifies this`hasDelegate
      ensures hasDelegate == present
    {
      hasDelegate := present;
    }

    /**
     * `setup()` and `createMediaTracks()`. `created` says whether the
     * factory returned a peer connection; the tracks exist either way.
     */
    method Setup(iceServers: seq<string>, created: bool)
      modifies this
      ensures var config := PeerConfig(iceServers, true, true, true);
        && engineCalls == old(engineCalls) + [CreatePeerConnection(config)]
        && peerConnection == (if created
             then Some(PeerConnection(config, [Sender(VideoTrackId, [StreamId]), Sender(AudioTrackId, [StreamId])],
                                      None, None, []))
             else None)
      ensures hasVideoCapturer
      ensures localVideoTrack == Some(Track(VideoTrackId, true))
      ensures localAudioTrack == Some(Track(AudioTrackId, true))
      ensures hasDelegate == old(hasDelegate)
      ensures capturedFrames == old(capturedFrames) && delegateEvents == old(delegateEvents)
    {
      var config := PeerConfig(iceServers, true, true, true);
      engineCalls := engineCalls + [CreatePeerConnection(config)];
      peerConnection := if created then Some(PeerConnection(config, [], None, None, [])) else None;
      CreateMediaTracks();
      assert [] + [Sender(VideoTrackId, [StreamId]), Sender(AudioTrackId, [StreamId])]
          == [Sender(VideoTrackId, [StreamId]), Sender(AudioTrackId, [StreamId])];
    }

    method CreateMediaTracks()
      modifies this
      ensures hasVideoCapturer
      ensures localVideoTrack == Some(Track(VideoTrackId, true))
      ensures localAudioTrack == Some(Track(AudioTrackId, true))
      ensures peerConnection == if old(peerConnection).Some?
        then Some(old(peerConnection).value.(senders := old(peerConnection).value.senders
                    + [Sender(VideoTrackId, [StreamId]), Sender(AudioTrackId, [StreamId])]))
        else None
      ensures hasDelegate == old(hasDelegate) && engineCalls == old(engineCalls)
      ensures capturedFrames == old(capturedFrames) && delegateEvents == old(delegateEvents)
    {
      ghost var before := peerConnection;
      hasVideoCapturer := true;
      localVideoTrack := Some(Track(VideoTrackId, false));
      localVideoTrack := Some(localVideoTrack.value.(enabled := true));
      if peerConnection.Some? {
        peerConnection := Some(peerConnection.value.(senders := peerConnection.value.senders + [Sender(VideoTrackId, [StreamId])]));
      }
      localAudioTrack := Some(Track(AudioTrackId, false));
      localAudioTrack := Some(localAudioTrack.value.(enabled := true));
      if peerConnection.Some? {
        peerConnection := Some(peerConnection.value.(senders := peerConnection.value.senders + [Sender(AudioTrackId, [StreamId])]));
        assert before.value.senders + [Sender(VideoTrackId, [StreamId])] + [Sender(AudioTrackId, [StreamId])]
            == before.value.senders + [Sender(VideoTrackId, [StreamId]), Sender(AudioTrackId, [StreamId])];
      }
    }

    /** `pushVideoFrame(_:rotation:)`: goes to the capturer once it exists. */
    method PushVideoFrame(frame: Frame, rotation: Rotation)
      modifies this`capturedFrames
      ensures capturedFrames == old(capturedFrames) + (if hasVideoCapturer then [(frame, rotation)] else [])
    {
      if hasVideoCapturer {
        capturedFrames := capturedFrames + [(frame, rotation)];
      }
    }

    /**
     * `createOffer(completion:)`. `offer` is what the library produces (or
     * nothing, on error); `localApplied` whether setting it as the local
     * description succeeds. The result is what the completion receives, if
     * it is called at all.
     */
    method CreateOffer(offer: Option<Sdp>, localApplied: bool) returns (completed: Option<Sdp>)
      modifies this
      ensures completed.Some? <==> old(peerConnection).Some? && offer.Some? && localApplied
      ensures completed.Some? ==> completed == offer && peerConnection.Some?
                                  && peerConnection.value.localDescription == offer
      ensures engineCalls == old(engineCalls) +
        (if old(peerConnection).None? then []
         else [RequestOffer(OfferConstraintsUsed)] + (if offer.Some? then [ApplyLocalDescription(offer.value)] else []))
      ensures !completed.Some? ==> peerConnection == old(peerConnection)
      ensures completed.Some? ==> peerConnection == Some(old(peerConnection).value.(localDescription := offer))
      ensures hasVideoCapturer == old(hasVideoCapturer) && hasDelegate == old(hasDelegate)
      ensures localVideoTrack == old(localVideoTrack) && localAudioTrack == old(localAudioTrack)
      ensures capturedFrames == old(capturedFrames) && delegateEvents == old(delegateEvents)
    {
      completed := None;
      if peerConnection.None? {
        return;
      }
      engineCalls := engineCalls + [RequestOffer(OfferConstraintsUsed)];
      if offer.None? {
        return;
      }
      var sdp := offer.value;
      engineCalls := engineCalls + [ApplyLocalDescription(sdp)];
      if localApplied {
        peerConnection := Some(peerConnection.value.(localDescription := Some(sdp)));
        completed := Some(sdp);
      }
    }

    /**
     * `set(remoteSdp:completion:)`. The result is the argument the
     * completion is called with (`None` if it is never called): the
     * library's rejection, or no error.
     */
    method SetRemoteSdp(sdp: Sdp, rejection: Option<string>) returns (completion: Option<Option<string>>)
      modifies this
      ensures old(peerConnection).None? ==> completion == None && peerConnection == None
                                            && engineCalls == old(engineCalls)
      ensures old(peerConnection).Some? ==>
        && completion == Some(rejection)
        && engineCalls == old(engineCalls) + [ApplyRemoteDescription(sdp)]
        && peerConnection == (if rejection.None?
             then Some(old(peerConnection).value.(remoteDescription := Some(sdp)))
             else old(peerConnection))
      ensures hasVideoCapturer == old(hasVideoCapturer) && hasDelegate == old(hasDelegate)
      ensures localVideoTrack == old(localVideoTrack) && localAudioTrack == old(localAudioTrack)
      ensures capturedFrames == old(capturedFrames) && delegateEvents == old(delegateEvents)
    {
      if peerConnection.None? {
        return None;
      }
      engineCalls := engineCalls + [ApplyRemoteDescription(sdp)];
      if rejection.None? {
        peerConnection := Some(peerConnection.value.(remoteDescription := Some(sdp)));
      }
      completion := Some(rejection);
    }

    /** `set(remoteCandidate:completion:)`, like `SetRemoteSdp`. */
    method SetRemoteCandidate(candidate: IceCandidate, rejection: Option<string>)
      returns (completion: Option<Option<string>>)
      modifies this
      ensures old(peerConnection).None? ==> completion == None && peerConnection == None
                                            && engineCalls == old(engineCalls)
      ensures old(peerConnection).Some? ==>
        && completion == Some(rejection)
        && engineCalls == old(engineCalls) + [AddRemoteCandidate(candidate)]
        && peerConnection == (if rejection.None?
             then Some(old(peerConnection).value.(remoteCandidates :=
                         old(peerConnection).value.remoteCandidates + [candidate]))
             else old(peerConnection))
      ensures hasVideoCapturer == old(hasVideoCapturer) && hasDelegate == old(hasDelegate)
      ensures localVideoTrack == old(localVideoTrack) && localAudioTrack == old(localAudioTrack)
      ensures capturedFrames == old(capturedFrames) && delegateEvents == old(delegateEvents)
    {
      if peerConnection.None? {
        return None;
      }
      engineCalls := engineCalls + [AddRemoteCandidate(candidate)];
      if rejection.None? {
        peerConnection := Some(peerConnection.value.(remoteCandidates := peerConnection.value.remoteCandidates + [candidate]));
      }
      completion := Some(rejection);
    }

    /** `muteAudio(_:)`: only the audio track's enabled flag changes. */
    method MuteAudio(mute: bool)
      modifies this`localAudioTrack
      ensures localAudioTrack == if old(localAudioTrack).Some?
        then Some(old(localAudioTrack).value.(enabled := !mute)) else None
    {
      if localAudioTrack.Some? {
        localAudioTrack := Some(localAudioTrack.value.(enabled := !mute));
      }
    }

    /** `close()`: disable both tracks, then close and drop the peer connection. */
    method Close()
      modifies this
      ensures peerConnection == None
      ensures localVideoTrack == if old(localVideoTrack).Some?
        then Some(old(localVideoTrack).value.(enabled := false)) else None
      ensures localAudioTrack == if old(localAudioTrack).Some?
        then Some(old(localAudioTrack).value.(enabled := false)) else None
      ensures engineCalls == old(engineCalls) + (if old(peerConnection).Some? then [ClosePeerConnection] else [])
      ensures hasVideoCapturer == old(hasVideoCapturer) && hasDelegate == old(hasDelegate)
      ensures capturedFrames == old(capturedFrames) && delegateEvents == old(delegateEvents)
    {
      if localVideoTrack.Some? {
        localVideoTrack := Some(localVideoTrack.value.(enabled := false));
      }
      if localAudioTrack.Some? {
        localAudioTrack := Some(localAudioTrack.value.(enabled := false));
      }
      if peerConnection.Some? {
        engineCalls := engineCalls + [ClosePeerConnection];
      }
      peerConnection := None;
    }

    /** A `RTCPeerConnectionDelegate` callback. */
    method OnPeerEvent(e: PeerEvent)
      modifies this`delegateEvents
      ensures delegateEvents == old(delegateEvents) +
        (if hasDelegate && Forwarded(e).Some? then [Forwarded(e).value] else [])
    {
      var forwarded := Forwarded(e);
      if forwarded.Some? && hasDelegate {
        delegateEvents := delegateEvents + [forwarded.value];
      }
    }
  }

  /** A worked example: muting touches only the audio track, and unmuting restores a set-up client's audio. */
  method MuteThenUnmute(c: Client)
    modifies c
    ensures c.localVideoTrack == old(c.localVideoTrack)
    ensures old(c.localAudioTrack).Some? ==> c.localAudioTrack == Some(old(c.localAudioTrack).value.(enabled := true))
  {
    c.MuteAudio(true);
    c.MuteAudio(false);
  }

  /** A worked example: after `close()` none of the negotiation calls reaches the library or completes. */
  method NegotiationAfterClose(c: Client, offer: Option<Sdp>, sdp: Sdp, candidate: IceCandidate,
                               rejection: Option<string>)
    returns (offered: Option<Sdp>, sdpDone: Option<Option<string>>, candidateDone: Option<Option<string>>)
    modifies c
    ensures offered == None && sdpDone == None && candidateDone == None
    ensures c.peerConnection == None
    ensures c.engineCalls == old(c.engineCalls) + (if old(c.peerConnection).Some? then [ClosePeerConnection] else [])
  {
    c.Close();
    offered := c.CreateOffer(offer, true);
    sdpDone := c.SetRemoteSdp(sdp, rejection);
    candidateDone := c.SetRemoteCandidate(candidate, rejection);
  }
}

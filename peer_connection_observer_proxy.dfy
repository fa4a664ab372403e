/** `PeerConnectionObserverProxy`: the observer the native connection calls. Each callback
    translates its native argument and forwards it to the peer connection, but only when the
    weak reference to the connection can still be locked; that outcome is the `locked`
    parameter. */
module ObserverProxies {
  import opened Events
  import WebRtc
  import opened LibrtcTypes
  import DataChannels
  import PeerConnections

  /** `convert_signaling_state`: the six native states to their namesakes; a value outside the
      enumeration falls through the switch to `Stable`. */
  function ConvertSignalingState(s: WebRtc.SignalingState): (r: SignalingState)
    ensures r == SignalingState.Closed <==> s == WebRtc.SignalingState.kClosed
  {
    match s
    case kStable => Stable
    case kHaveLocalOffer => HaveLocalOffer
    case kHaveLocalPrAnswer => HaveLocalPrAnswer
    case kHaveRemoteOffer => HaveRemoteOffer
    case kHaveRemotePrAnswer => HaveRemotePrAnswer
    case kClosed => SignalingState.Closed
    case OtherSignalingState(_) => Stable
  }

  lemma ConvertSignalingStateNamesakes()
    ensures ConvertSignalingState(WebRtc.kStable) == Stable
    ensures ConvertSignalingState(WebRtc.kHaveLocalOffer) == HaveLocalOffer
    ensures ConvertSignalingState(WebRtc.kHaveLocalPrAnswer) == HaveLocalPrAnswer
    ensures ConvertSignalingState(WebRtc.kHaveRemoteOffer) == HaveRemoteOffer
    ensures ConvertSignalingState(WebRtc.kHaveRemotePrAnswer) == HaveRemotePrAnswer
    ensures ConvertSignalingState(WebRtc.SignalingState.kClosed) == SignalingState.Closed
  {
  }

  lemma ConvertSignalingStateFallback(raw: int)
    ensures ConvertSignalingState(WebRtc.OtherSignalingState(raw)) == Stable
  {
  }

  /** On the six enumerators the translation is injective. */
  lemma ConvertSignalingStateInjective(a: WebRtc.SignalingState, b: WebRtc.SignalingState)
    requires !a.OtherSignalingState? && !b.OtherSignalingState?
    requires ConvertSignalingState(a) == ConvertSignalingState(b)
    ensures a == b
  {
  }

  /** Every library signaling state is reported for some native state. */
  lemma ConvertSignalingStateOnto(s: SignalingState)
    ensures exists n: WebRtc.SignalingState :: !n.OtherSignalingState? && ConvertSignalingState(n) == s
  {
    var n := match s
      case Stable => WebRtc.kStable
      case HaveLocalOffer => WebRtc.kHaveLocalOffer
      case HaveLocalPrAnswer => WebRtc.kHaveLocalPrAnswer
      case HaveRemoteOffer => WebRtc.kHaveRemoteOffer
      case HaveRemotePrAnswer => WebRtc.kHaveRemotePrAnswer
      case Closed => WebRtc.SignalingState.kClosed;
    assert ConvertSignalingState(n) == s;
  }

  /** `convert_ice_connection_state`: the seven listed native states to their namesakes, any
      other value (the `kIceConnectionMax` sentinel included) to `New`. */
  function ConvertIceConnectionState(s: WebRtc.IceConnectionState): (r: IceConnectionState)
  {
    match s
    case kIceConnectionNew => IceConnectionState.New
    case kIceConnectionChecking => Checking
    case kIceConnectionConnected => Connected
    case kIceConnectionCompleted => Completed
    case kIceConnectionFailed => Failed
    case kIceConnectionDisconnected => Disconnected
    case kIceConnectionClosed => IceConnectionState.Closed
    case _ => IceConnectionState.New
  }

  lemma ConvertIceConnectionStateNamesakes()
    ensures ConvertIceConnectionState(WebRtc.kIceConnectionNew) == IceConnectionState.New
    ensures ConvertIceConnectionState(WebRtc.kIceConnectionChecking) == Checking
    ensures ConvertIceConnectionState(WebRtc.kIceConnectionConnected) == Connected
    ensures ConvertIceConnectionState(WebRtc.kIceConnectionCompleted) == Completed
    ensures ConvertIceConnectionState(WebRtc.kIceConnectionFailed) == Failed
    ensures ConvertIceConnectionState(WebRtc.kIceConnectionDisconnected) == Disconnected
    ensures ConvertIceConnectionState(WebRtc.kIceConnectionClosed) == IceConnectionState.Closed
  {
  }

  /** `New` is reported exactly for `kIceConnectionNew` and for the values without a case. */
  lemma ConvertIceConnectionStateNewExactlyForFallback(s: WebRtc.IceConnectionState)
    ensures ConvertIceConnectionState(s) == IceConnectionState.New
            <==> s == WebRtc.kIceConnectionNew || s == WebRtc.kIceConnectionMax || s.OtherIceConnectionState?
  {
  }

  /** On the seven listed states the translation is injective. */
  lemma ConvertIceConnectionStateInjective(a: WebRtc.IceConnectionState, b: WebRtc.IceConnectionState)
    requires !a.OtherIceConnectionState? && a != WebRtc.kIceConnectionMax
    requires !b.OtherIceConnectionState? && b != WebRtc.kIceConnectionMax
    requires ConvertIceConnectionState(a) == ConvertIceConnectionState(b)
    ensures a == b
  {
  }

  /** `convert_ice_gathering_state`: New, Gathering and Complete to their namesakes; a value
      outside the enumeration falls through the switch to `New`. */
  function ConvertIceGatheringState(s: WebRtc.IceGatheringState): (r: IceGatheringState)
  {
    match s
    case kIceGatheringNew => IceGatheringState.New
    case kIceGatheringGathering => Gathering
    case kIceGatheringComplete => Complete
    case OtherIceGatheringState(_) => IceGatheringState.New
  }

  lemma ConvertIceGatheringStateNamesakes()
    ensures ConvertIceGatheringState(WebRtc.kIceGatheringNew) == IceGatheringState.New
    ensures ConvertIceGatheringState(WebRtc.kIceGatheringGathering) == Gathering
    ensures ConvertIceGatheringState(WebRtc.kIceGatheringComplete) == Complete
  {
  }

  /** `New` is reported exactly for `kIceGatheringNew` and for values outside the enumeration. */
  lemma ConvertIceGatheringStateNewExactlyForFallback(s: WebRtc.IceGatheringState)
    ensures ConvertIceGatheringState(s) == IceGatheringState.New
            <==> s == WebRtc.kIceGatheringNew || s.OtherIceGatheringState?
  {
  }

  /** `OnIceCandidate`'s copy of a native candidate: its text, `sdp_mid` and
      `sdp_mline_index`. */
  function CandidateOf(c: WebRtc.IceCandidate): IceCandidate
  {
    IceCandidate(c.text, c.sdpMid, c.sdpMLineIndex)
  }

  /** The copy keeps each field in its place, so handing a forwarded candidate back to
      `add_ice_candidate` gives the parser the native candidate's own fields. */
  lemma ForwardedCandidateParsesBack(c: WebRtc.IceCandidate, parser: WebRtc.Parser)
    ensures CandidateOf(c).candidate == c.text && CandidateOf(c).sdpMid == c.sdpMid
    ensures CandidateOf(c).sdpMLineIndex == c.sdpMLineIndex
    ensures PeerConnections.ParseCandidate(CandidateOf(c), parser) == parser.createIceCandidate(c.sdpMid, c.sdpMLineIndex, c.text)
  {
  }

  class PeerConnectionObserverProxy {
    /** `impl_`, the (weakly held) peer connection. */
    const impl: PeerConnections.PeerConnectionImpl

    constructor (impl: PeerConnections.PeerConnectionImpl)
      ensures this.impl == impl
    {
      this.impl := impl;
    }

    /** `OnSignalingChange(new_state)`. */
    method OnSignalingChange(newState: WebRtc.SignalingState, locked: bool, w: Interleaving)
      returns (calls: seq<Call<SignalingState>>)
      modifies impl, impl.signalingStateEvent
      ensures locked ==> impl.CurrentSignalingState() == ConvertSignalingState(newState)
      ensures locked ==> Emitted(old(impl.signalingStateEvent.subscriptions), impl.signalingStateEvent.subscriptions,
                                 ConvertSignalingState(newState), ConvertSignalingState(newState), w, calls)
      ensures locked ==> impl.pc == old(impl.pc) && impl.cachedIceConnectionState == old(impl.cachedIceConnectionState)
                         && impl.cachedIceGatheringState == old(impl.cachedIceGatheringState)
      ensures !locked ==> calls == [] && unchanged(impl, impl.signalingStateEvent)
    {
      calls := [];
      if locked {
        calls := impl.HandleSignalingChange(ConvertSignalingState(newState), w);
      }
    }

    /** `OnIceConnectionChange(new_state)`. */
    method OnIceConnectionChange(newState: WebRtc.IceConnectionState, locked: bool, w: Interleaving)
      returns (calls: seq<Call<IceConnectionState>>)
      modifies impl, impl.iceConnectionStateEvent
      ensures locked ==> impl.CurrentIceConnectionState() == ConvertIceConnectionState(newState)
      ensures locked ==> Emitted(old(impl.iceConnectionStateEvent.subscriptions), impl.iceConnectionStateEvent.subscriptions,
                                 ConvertIceConnectionState(newState), ConvertIceConnectionState(newState), w, calls)
      ensures locked ==> impl.pc == old(impl.pc) && impl.cachedSignalingState == old(impl.cachedSignalingState)
                         && impl.cachedIceGatheringState == old(impl.cachedIceGatheringState)
      ensures !locked ==> calls == [] && unchanged(impl, impl.iceConnectionStateEvent)
    {
      calls := [];
      if locked {
        calls := impl.HandleIceConnectionChange(ConvertIceConnectionState(newState), w);
      }
    }

    /** `OnIceGatheringChange(new_state)`. */
    method OnIceGatheringChange(newState: WebRtc.IceGatheringState, locked: bool)
      modifies impl
      ensures locked ==> impl.CurrentIceGatheringState() == ConvertIceGatheringState(newState)
      ensures locked ==> impl.pc == old(impl.pc) && impl.cachedSignalingState == old(impl.cachedSignalingState)
                         && impl.cachedIceConnectionState == old(impl.cachedIceConnectionState)
      ensures !locked ==> unchanged(impl)
    {
      if locked {
        impl.HandleIceGatheringChange(ConvertIceGatheringState(newState));
      }
    }

    /** `OnIceCandidate(candidate)`: forwards a copy of the candidate's fields. */
    method OnIceCandidate(candidate: WebRtc.IceCandidate, locked: bool, w: Interleaving)
      returns (calls: seq<Call<IceCandidate>>)
      modifies impl.iceCandidateEvent
      ensures locked ==> Emitted(old(impl.iceCandidateEvent.subscriptions), impl.iceCandidateEvent.subscriptions,
                                 CandidateOf(candidate), CandidateOf(candidate), w, calls)
      ensures !locked ==> calls == [] && unchanged(impl.iceCandidateEvent)
    {
      calls := [];
      if locked {
        calls := impl.HandleIceCandidate(IceCandidate(candidate.text, candidate.sdpMid, candidate.sdpMLineIndex), w);
      }
    }

    /** `OnDataChannel(channel)`: wraps the native channel, with the connection as its context,
        and forwards the wrapper. */
    method OnDataChannel(channel: WebRtc.NativeDataChannel?, locked: bool, w: Interleaving)
      returns (forwarded: DataChannels.DataChannelImpl?, calls: seq<Call<DataChannels.DataChannelImpl?>>)
      modifies channel, impl.dataChannelEvent
      ensures forwarded != null <==> locked
      ensures locked ==> fresh(forwarded) && forwarded.native == channel && forwarded.context == impl
      ensures locked ==> Emitted(old(impl.dataChannelEvent.subscriptions), impl.dataChannelEvent.subscriptions,
                                 forwarded, null, w, calls)
      ensures locked && channel != null ==>
                channel.Log() == old(channel.Log()).(observerRegistered := true)
                && forwarded.State() == DataChannels.ConvertState(channel.state)
      ensures !locked ==> calls == [] && unchanged(impl.dataChannelEvent) && (channel != null ==> unchanged(channel))
    {
      forwarded := null;
      calls := [];
      if locked {
        forwarded := new DataChannels.DataChannelImpl.Create(channel, impl);
        calls := impl.HandleDataChannel(forwarded, w);
      }
    }

    /** `OnRenegotiationNeeded()`: does nothing. */
    method OnRenegotiationNeeded()
    {
    }

    /** `OnConnectionChange(state)`: does nothing. */
    method OnConnectionChange(state: WebRtc.PeerConnectionState)
    {
    }

    /** `OnStandardizedIceConnectionChange(state)`: does nothing. */
    method OnStandardizedIceConnectionChange(state: WebRtc.IceConnectionState)
    {
    }
  }
}

/** `PeerConnectionImpl`: the library's peer connection over a native one. It caches the
    signaling, ICE-connection and ICE-gathering states the native stack reports, owns the four
    event sources, and wraps the native operations with the library's error reporting. */
module PeerConnections {
  import opened Options
  import opened Expected
  import opened SystemError
  import opened Events
  import WebRtc
  import opened LibrtcTypes
  import P = PeerConnectionErrors
  import SessionDescriptionProxies
  import DataChannels

  // ---------------------------------------------------------------------------------------
  // The decision logic of the operations

  /** The parsing steps of `set_local_description` and `set_remote_description`: the type name
      first, then the body with the parsed type. */
  function ParseDescription(sdp: SessionDescription, parser: WebRtc.Parser): (d: Option<WebRtc.SessionDescription>)
    ensures WebRtc.SdpTypeFromString(sdp.sdpType).None? ==> d.None?
    ensures WebRtc.SdpTypeFromString(sdp.sdpType).Some? ==>
              d == parser.createSessionDescription(WebRtc.SdpTypeFromString(sdp.sdpType).value, sdp.sdp)
  {
    match WebRtc.SdpTypeFromString(sdp.sdpType)
    case None => None
    case Some(t) => parser.createSessionDescription(t, sdp.sdp)
  }

  /** A description the library produced from a native one has a type name the parser accepts,
      so setting it hands the native parser the original type and text. */
  lemma CreatedDescriptionsParseBack(desc: WebRtc.SessionDescription, parser: WebRtc.Parser)
    ensures var created := SessionDescriptionProxies.CreateOnSuccess(desc).value;
            ParseDescription(created, parser) == parser.createSessionDescription(desc.sdpType, desc.text)
  {
    WebRtc.SdpTypeNamesRoundTrip(desc.sdpType);
  }

  /** The result of `set_local_description` / `set_remote_description`: `InvalidSdp` when
      parsing failed, otherwise the completion converted to an error code. */
  function DescriptionOutcome(parsed: Option<WebRtc.SessionDescription>, completion: WebRtc.RTCError): (r: VoidResult<ErrorCode>)
    ensures r.VoidOk? <==> parsed.Some? && completion.Ok()
    ensures r.VoidFail? ==> r.error.category == PeerConnectionCategory
  {
    if parsed.None? then VoidFromErrorConverting(Err(P.InvalidSdp), P.MakeErrorCode)
    else ConvertVoid(SessionDescriptionProxies.CompletionResult(completion), P.MakeErrorCode)
  }

  /** The caller can tell a rejected description from a failed native operation: the result is
      `InvalidSdp` exactly when parsing failed. */
  lemma InvalidSdpExactlyOnParseFailure(parsed: Option<WebRtc.SessionDescription>, completion: WebRtc.RTCError)
    ensures DescriptionOutcome(parsed, completion) == VoidFail(P.MakeErrorCode(P.InvalidSdp)) <==> parsed.None?
  {
    if parsed.Some? && !completion.Ok() {
      SessionDescriptionProxies.CompletionNeverReportsInvalidSdp(completion);
      var e := SessionDescriptionProxies.ConvertRtcError(completion);
      P.MakeErrorCodeKeepsValue(e, P.InvalidSdp);
    }
  }

  /** The native candidate `add_ice_candidate` builds: `CreateIceCandidate(sdp_mid,
      sdp_mline_index, candidate)`. */
  function ParseCandidate(candidate: IceCandidate, parser: WebRtc.Parser): Option<WebRtc.IceCandidate>
  {
    parser.createIceCandidate(candidate.sdpMid, candidate.sdpMLineIndex, candidate.candidate)
  }

  /** The result of `add_ice_candidate`: `InvalidArgument` on a parse failure, `InternalError`
      when the native add fails, success otherwise. */
  function AddCandidateOutcome(parsed: Option<WebRtc.IceCandidate>, added: bool): (r: VoidResult<ErrorCode>)
    ensures r.VoidOk? <==> parsed.Some? && added
    ensures r.VoidFail? ==> r.error.category == PeerConnectionCategory
  {
    if parsed.None? then VoidFromErrorConverting(Err(P.InvalidArgument), P.MakeErrorCode)
    else if !added then VoidFromErrorConverting(Err(P.InternalError), P.MakeErrorCode)
    else Success()
  }

  /** A parse failure is reported as `InvalidArgument` whatever the native add would have done,
      and a native failure is reported as `InternalError`; the two are different codes. */
  lemma AddCandidateErrorsInOrder(parsed: Option<WebRtc.IceCandidate>, added: bool)
    ensures parsed.None? ==> AddCandidateOutcome(parsed, added) == VoidFail(P.MakeErrorCode(P.InvalidArgument))
    ensures parsed.Some? && !added ==> AddCandidateOutcome(parsed, added) == VoidFail(P.MakeErrorCode(P.InternalError))
    ensures P.MakeErrorCode(P.InvalidArgument) != P.MakeErrorCode(P.InternalError)
  {
    P.MakeErrorCodeKeepsValue(P.InvalidArgument, P.InternalError);
  }

  /** The configuration translation of `create_data_channel`, field by field over a default
      `DataChannelInit`: `ordered`, `protocol` and `negotiated` always, the optional fields only
      when present. */
  function TranslateConfig(config: DataChannelConfig): (init: WebRtc.DataChannelInit)
    ensures init.ordered == config.ordered && init.protocol == config.protocol && init.negotiated == config.negotiated
    ensures init.maxRetransmits == if config.maxRetransmits.Some? then config.maxRetransmits
                                   else WebRtc.DefaultDataChannelInit.maxRetransmits
    ensures init.maxRetransmitTime == if config.maxRetransmitTimeMs.Some? then config.maxRetransmitTimeMs
                                      else WebRtc.DefaultDataChannelInit.maxRetransmitTime
    ensures init.id == if config.id.Some? then config.id.value else WebRtc.DefaultDataChannelInit.id
  {
    var init := WebRtc.DefaultDataChannelInit.(ordered := config.ordered);
    var init := if config.maxRetransmits.Some? then init.(maxRetransmits := Some(config.maxRetransmits.value)) else init;
    var init := if config.maxRetransmitTimeMs.Some? then init.(maxRetransmitTime := Some(config.maxRetransmitTimeMs.value)) else init;
    var init := init.(protocol := config.protocol, negotiated := config.negotiated);
    if config.id.Some? then init.(id := config.id.value) else init
  }

  /** Reads a configuration back from a native one, an id of -1 meaning "not set". */
  function ConfigOf(init: WebRtc.DataChannelInit): DataChannelConfig
  {
    DataChannelConfig(init.ordered, init.maxRetransmitTime, init.maxRetransmits, init.protocol, init.negotiated,
                      if init.id == -1 then None else Some(init.id))
  }

  /** The translation loses nothing, except that an explicit id of -1 reads as "not set". */
  lemma TranslateConfigRoundTrip(config: DataChannelConfig)
    ensures config.id != Some(-1) ==> ConfigOf(TranslateConfig(config)) == config
    ensures config.id == Some(-1) ==> ConfigOf(TranslateConfig(config)) == config.(id := None)
  {
  }

  /** The default configuration translates to the default native one. */
  lemma DefaultConfigTranslatesToDefaultInit()
    ensures TranslateConfig(DefaultDataChannelConfig) == WebRtc.DefaultDataChannelInit
  {
  }

  /** The list of starts after a parse: one more on success, none on failure. */
  function Started(d: Option<WebRtc.SessionDescription>): seq<WebRtc.SessionDescription>
  {
    if d.Some? then [d.value] else []
  }

  // ---------------------------------------------------------------------------------------

  class PeerConnectionImpl {
    /** `pc_`; null before `set_pc` and after `close`. */
    var pc: WebRtc.NativePeerConnection?
    var cachedSignalingState: SignalingState
    var cachedIceConnectionState: IceConnectionState
    var cachedIceGatheringState: IceGatheringState
    const iceCandidateEvent: EventSource<IceCandidate>
    const dataChannelEvent: EventSource<DataChannels.DataChannelImpl?>
    const iceConnectionStateEvent: EventSource<IceConnectionState>
    const signalingStateEvent: EventSource<SignalingState>

    /** The constructor: no native connection yet, and the initial cached states
        `Stable`, `New` and `New`. */
    constructor ()
      ensures pc == null
      ensures cachedSignalingState == Stable
      ensures cachedIceConnectionState == IceConnectionState.New
      ensures cachedIceGatheringState == IceGatheringState.New
      ensures fresh(iceCandidateEvent) && fresh(dataChannelEvent) && fresh(iceConnectionStateEvent) && fresh(signalingStateEvent)
      ensures iceCandidateEvent.subscriptions == [] && dataChannelEvent.subscriptions == []
      ensures iceConnectionStateEvent.subscriptions == [] && signalingStateEvent.subscriptions == []
    {
      pc := null;
      cachedSignalingState := Stable;
      cachedIceConnectionState := IceConnectionState.New;
      cachedIceGatheringState := IceGatheringState.New;
      iceCandidateEvent := new EventSource<IceCandidate>();
      dataChannelEvent := new EventSource<DataChannels.DataChannelImpl?>();
      iceConnectionStateEvent := new EventSource<IceConnectionState>();
      signalingStateEvent := new EventSource<SignalingState>();
    }

    /** `set_pc(pc)`. */
    method SetPc(pc: WebRtc.NativePeerConnection?)
      modifies this
      ensures this.pc == pc
      ensures cachedSignalingState == old(cachedSignalingState)
      ensures cachedIceConnectionState == old(cachedIceConnectionState)
      ensures cachedIceGatheringState == old(cachedIceGatheringState)
    {
      this.pc := pc;
    }

    /** `signaling_state()`. */
    function CurrentSignalingState(): SignalingState
      reads this
    {
      cachedSignalingState
    }

    /** `ice_connection_state()`. */
    function CurrentIceConnectionState(): IceConnectionState
      reads this
    {
      cachedIceConnectionState
    }

    /** `ice_gathering_state()`. */
    function CurrentIceGatheringState(): IceGatheringState
      reads this
    {
      cachedIceGatheringState
    }

    /** `handle_signaling_change(s)`: caches `s`, then emits it. */
    method HandleSignalingChange(s: SignalingState, w: Interleaving) returns (calls: seq<Call<SignalingState>>)
      modifies this, signalingStateEvent
      ensures CurrentSignalingState() == s
      ensures Emitted(old(signalingStateEvent.subscriptions), signalingStateEvent.subscriptions, s, s, w, calls)
      ensures pc == old(pc)
      ensures cachedIceConnectionState == old(cachedIceConnectionState)
      ensures cachedIceGatheringState == old(cachedIceGatheringState)
    {
      cachedSignalingState := s;
      calls := signalingStateEvent.EmitCopying(s, w);
    }

    /** `handle_ice_connection_change(s)`: caches `s`, then emits it. */
    method HandleIceConnectionChange(s: IceConnectionState, w: Interleaving) returns (calls: seq<Call<IceConnectionState>>)
      modifies this, iceConnectionStateEvent
      ensures CurrentIceConnectionState() == s
      ensures Emitted(old(iceConnectionStateEvent.subscriptions), iceConnectionStateEvent.subscriptions, s, s, w, calls)
      ensures pc == old(pc)
      ensures cachedSignalingState == old(cachedSignalingState)
      ensures cachedIceGatheringState == old(cachedIceGatheringState)
    {
      cachedIceConnectionState := s;
      calls := iceConnectionStateEvent.EmitCopying(s, w);
    }

    /** `handle_ice_gathering_change(s)`: caches `s`; there is no gathering event, so no
        subscription list changes. */
    method HandleIceGatheringChange(s: IceGatheringState)
      modifies this
      ensures CurrentIceGatheringState() == s
      ensures pc == old(pc)
      ensures cachedSignalingState == old(cachedSignalingState)
      ensures cachedIceConnectionState == old(cachedIceConnectionState)
      ensures unchanged(iceCandidateEvent, dataChannelEvent, iceConnectionStateEvent, signalingStateEvent)
    {
      cachedIceGatheringState := s;
    }

    /** `handle_ice_candidate(ice)`: emits the candidate. */
    method HandleIceCandidate(ice: IceCandidate, w: Interleaving) returns (calls: seq<Call<IceCandidate>>)
      modifies iceCandidateEvent
      ensures Emitted(old(iceCandidateEvent.subscriptions), iceCandidateEvent.subscriptions, ice, ice, w, calls)
    {
      calls := iceCandidateEvent.EmitCopying(ice, w);
    }

    /** `handle_data_channel(channel)`: emits the channel. The event's argument is a
        `std::shared_ptr`, which the first snapshot handler takes by move, so every later
        handler receives null. */
    method HandleDataChannel(channel: DataChannels.DataChannelImpl?, w: Interleaving)
      returns (calls: seq<Call<DataChannels.DataChannelImpl?>>)
      modifies dataChannelEvent
      ensures Emitted(old(dataChannelEvent.subscriptions), dataChannelEvent.subscriptions, channel, null, w, calls)
    {
      calls := dataChannelEvent.Emit(channel, null, w);
    }

    /** `close()`: closes and drops the native connection. A second call finds `pc_` null and
        changes nothing. */
    method Close()
      modifies this, pc
      ensures pc == null
      ensures old(pc) != null ==> old(pc).Log() == old(pc.Log()).(closeCalls := old(pc.closeCalls) + 1)
      ensures old(pc) == null ==> unchanged(this)
      ensures cachedSignalingState == old(cachedSignalingState)
      ensures cachedIceConnectionState == old(cachedIceConnectionState)
      ensures cachedIceGatheringState == old(cachedIceGatheringState)
    {
      if pc != null {
        pc.Close();
        pc := null;
      }
    }

    /** `add_ice_candidate(candidate)`. librtc reaches the native connection without a null
        check once the candidate has parsed. */
    method AddIceCandidate(candidate: IceCandidate, parser: WebRtc.Parser) returns (r: VoidResult<ErrorCode>)
      requires ParseCandidate(candidate, parser).Some? ==> pc != null
      modifies pc
      ensures ParseCandidate(candidate, parser).None? ==> r == AddCandidateOutcome(None, false)
      ensures ParseCandidate(candidate, parser).None? && pc != null ==> pc.Log() == old(pc.Log())
      ensures ParseCandidate(candidate, parser).Some? ==>
                r == AddCandidateOutcome(ParseCandidate(candidate, parser), old(pc.acceptsCandidates))
                && pc.Log() == old(pc.Log()).(candidateAttempts := old(pc.candidateAttempts) + [ParseCandidate(candidate, parser).value])
    {
      var nativeCandidate := ParseCandidate(candidate, parser);
      if nativeCandidate.None? {
        return VoidFromErrorConverting(Err(P.InvalidArgument), P.MakeErrorCode);
      }
      var ok := pc.AddIceCandidate(nativeCandidate.value);
      if !ok {
        return VoidFromErrorConverting(Err(P.InternalError), P.MakeErrorCode);
      }
      r := Success();
    }

    /** `set_local_description(sdp)`, with `completion` the error the native stack later passes
        to the completion observer. Nothing is started when parsing fails. */
    method SetLocalDescription(sdp: SessionDescription, parser: WebRtc.Parser, completion: WebRtc.RTCError)
      returns (r: VoidResult<ErrorCode>)
      requires ParseDescription(sdp, parser).Some? ==> pc != null
      modifies pc
      ensures r == DescriptionOutcome(ParseDescription(sdp, parser), completion)
      ensures pc != null ==>
                pc.Log() == old(pc.Log()).(localDescriptionsStarted := old(pc.localDescriptionsStarted)
                                                                       + Started(ParseDescription(sdp, parser)))
    {
      var sdpType := WebRtc.SdpTypeFromString(sdp.sdpType);
      if sdpType.None? {
        return VoidFromErrorConverting(Err(P.InvalidSdp), P.MakeErrorCode);
      }
      var sessionDesc := parser.createSessionDescription(sdpType.value, sdp.sdp);
      if sessionDesc.None? {
        return VoidFromErrorConverting(Err(P.InvalidSdp), P.MakeErrorCode);
      }
      pc.SetLocalDescription(sessionDesc.value);
      r := ConvertVoid(SessionDescriptionProxies.CompletionResult(completion), P.MakeErrorCode);
    }

    /** `set_remote_description(sdp)`, the same as `set_local_description` on the remote side. */
    method SetRemoteDescription(sdp: SessionDescription, parser: WebRtc.Parser, completion: WebRtc.RTCError)
      returns (r: VoidResult<ErrorCode>)
      requires ParseDescription(sdp, parser).Some? ==> pc != null
      modifies pc
      ensures r == DescriptionOutcome(ParseDescription(sdp, parser), completion)
      ensures pc != null ==>
                pc.Log() == old(pc.Log()).(remoteDescriptionsStarted := old(pc.remoteDescriptionsStarted)
                                                                        + Started(ParseDescription(sdp, parser)))
    {
      var sdpType := WebRtc.SdpTypeFromString(sdp.sdpType);
      if sdpType.None? {
        return VoidFromErrorConverting(Err(P.InvalidSdp), P.MakeErrorCode);
      }
      var sessionDesc := parser.createSessionDescription(sdpType.value, sdp.sdp);
      if sessionDesc.None? {
        return VoidFromErrorConverting(Err(P.InvalidSdp), P.MakeErrorCode);
      }
      pc.SetRemoteDescription(sessionDesc.value);
      r := ConvertVoid(SessionDescriptionProxies.CompletionResult(completion), P.MakeErrorCode);
    }

    /** `create_data_channel(label, config)`: asks the native connection for a channel with the
        translated configuration and wraps the result, with this connection as its context;
        a refusal is `InternalError`. librtc reaches the native connection without a null
        check. */
    method CreateDataChannel(channelLabel: string, config: DataChannelConfig)
      returns (r: Result<DataChannels.DataChannelImpl, ErrorCode>)
      requires pc != null
      modifies pc
      ensures pc.Log() == old(pc.Log()).(channelRequests := old(pc.channelRequests)
                                                           + [WebRtc.ChannelRequest(channelLabel, TranslateConfig(config))])
      ensures r.Fail? <==> !pc.createsChannels
      ensures r.Fail? ==> r.error == P.MakeErrorCode(P.InternalError)
      ensures r.Ok? ==> fresh(r.value) && r.value.context == this && r.value.native != null && fresh(r.value.native)
      ensures r.Ok? ==> r.value.Label() == channelLabel && r.value.Id() == r.value.native.id
      ensures r.Ok? ==> r.value.State() == DataChannels.ConvertState(r.value.native.state)
      ensures r.Ok? ==> r.value.native.observerRegistered && r.value.observerInstalled
    {
      var init := TranslateConfig(config);
      var native := pc.CreateDataChannelOrError(channelLabel, init);
      if native == null {
        return FromErrorConverting(Err(P.InternalError), P.MakeErrorCode);
      }
      var channel := new DataChannels.DataChannelImpl.Create(native, this);
      r := Ok(channel);
    }
  }

  // ---------------------------------------------------------------------------------------
  // The data-channel event with two subscribers

  /** Two subscriptions made by `on_data_channel` with the contexts 1 and 2. */
  const TwoSubscribers: seq<Subscription> := [Subscription(1, Guarded(1, 10)), Subscription(2, Guarded(2, 20))]

  /** As written: both subscribers are alive throughout, yet only the first receives the
      announced channel; the second receives null. */
  lemma DataChannelEventStarvesSecondSubscriber(channel: DataChannels.DataChannelImpl?, w: Interleaving,
                                                after: seq<Subscription>, calls: seq<Call<DataChannels.DataChannelImpl?>>)
    requires channel != null
    requires w.aliveAtSweep == {1, 2} && forall k :: w.aliveAtCall(k) == {1, 2}
    requires Emitted(TwoSubscribers, after, channel, null, w, calls)
    ensures calls == [Call(10, 1, channel), Call(20, 2, null)]
    ensures calls[1].arg != channel
  {
    LiveKeepsAllWhenNoneExpired(TwoSubscribers, w.aliveAtSweep);
    TargetsAreTheHandlers(TwoSubscribers);
    DispatchCallsEveryLiveHandlerInOrder(Targets(TwoSubscribers), channel, null, w.aliveAtCall);
  }

  /** With the copying emission both subscribers receive the channel. */
  lemma CopyingDataChannelEventReachesBothSubscribers(channel: DataChannels.DataChannelImpl?, w: Interleaving,
                                                      after: seq<Subscription>, calls: seq<Call<DataChannels.DataChannelImpl?>>)
    requires w.aliveAtSweep == {1, 2} && forall k :: w.aliveAtCall(k) == {1, 2}
    requires Emitted(TwoSubscribers, after, channel, channel, w, calls)
    ensures calls == [Call(10, 1, channel), Call(20, 2, channel)]
  {
    LiveKeepsAllWhenNoneExpired(TwoSubscribers, w.aliveAtSweep);
    TargetsAreTheHandlers(TwoSubscribers);
    DispatchCallsEveryLiveHandlerInOrder(Targets(TwoSubscribers), channel, channel, w.aliveAtCall);
  }
}

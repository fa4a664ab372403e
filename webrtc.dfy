/** The parts of the native WebRTC library that the wrapper consumes, as seen from the wrapper.
    The enumerations are mirrored one constructor per enumerator, plus one constructor for an
    integer outside the enumerators (a C++ enum object may hold any value of its underlying
    type, and the wrapper's switches have fallbacks for that case). The native objects are
    abstract: they record what the wrapper asks of them, and the outcomes of their operations
    (whether a send is accepted, whether a candidate is added, whether a channel can be
    created) are part of their state, chosen by the environment. Parsing of SDP text and of
    ICE candidates is an oracle, the `Parser` below. */
module WebRtc {
  import opened Options

  /** `uint8_t`, the element of a native data buffer. */
  newtype Byte = b: int | 0 <= b < 256

  /** `webrtc::DataChannelInterface::DataState`. */
  datatype DataState = kConnecting | kOpen | kClosing | kClosed | OtherDataState(raw: int)

  /** `webrtc::PeerConnectionInterface::SignalingState`. */
  datatype SignalingState =
    | kStable | kHaveLocalOffer | kHaveLocalPrAnswer | kHaveRemoteOffer | kHaveRemotePrAnswer | kClosed
    | OtherSignalingState(raw: int)

  /** `webrtc::PeerConnectionInterface::IceConnectionState`, including its `kIceConnectionMax`
      sentinel. */
  datatype IceConnectionState =
    | kIceConnectionNew | kIceConnectionChecking | kIceConnectionConnected | kIceConnectionCompleted
    | kIceConnectionFailed | kIceConnectionDisconnected | kIceConnectionClosed | kIceConnectionMax
    | OtherIceConnectionState(raw: int)

  /** `webrtc::PeerConnectionInterface::PeerConnectionState`. */
  datatype PeerConnectionState = kNew | kConnecting | kConnected | kDisconnected | kFailed | kClosed

  /** `webrtc::PeerConnectionInterface::IceGatheringState`. */
  datatype IceGatheringState =
    | kIceGatheringNew | kIceGatheringGathering | kIceGatheringComplete
    | OtherIceGatheringState(raw: int)

  /** `webrtc::RTCErrorType`. */
  datatype RTCErrorType =
    | NONE | UNSUPPORTED_OPERATION | UNSUPPORTED_PARAMETER | INVALID_PARAMETER | INVALID_RANGE
    | SYNTAX_ERROR | INVALID_STATE | INVALID_MODIFICATION | NETWORK_ERROR | RESOURCE_EXHAUSTED
    | INTERNAL_ERROR | OPERATION_ERROR_WITH_DATA
    | OtherErrorType(raw: int)

  /** `webrtc::RTCError`: a type and a human-readable message. */
  datatype RTCError = RTCError(errorType: RTCErrorType, message: string)
  {
    /** `RTCError::ok()`: the error is the "no error" value. */
    predicate Ok() {
      errorType == NONE
    }
  }

  /** `webrtc::SdpType`. */
  datatype SdpType = kOffer | kPrAnswer | kAnswer | kRollback

  /** `webrtc::SdpTypeToString`: the names of the RTCSdpType enumeration of the W3C WebRTC
      specification. */
  function SdpTypeToString(t: SdpType): (name: string)
    ensures name != ""
  {
    match t
    case kOffer => "offer"
    case kPrAnswer => "pranswer"
    case kAnswer => "answer"
    case kRollback => "rollback"
  }

  /** `webrtc::SdpTypeFromString`: the inverse of `SdpTypeToString`, absent for any other text. */
  function SdpTypeFromString(name: string): (t: Option<SdpType>)
    ensures t.Some? ==> SdpTypeToString(t.value) == name
  {
    if name == "offer" then Some(kOffer)
    else if name == "pranswer" then Some(kPrAnswer)
    else if name == "answer" then Some(kAnswer)
    else if name == "rollback" then Some(kRollback)
    else None
  }

  /** Every type name round-trips through the parser. */
  lemma SdpTypeNamesRoundTrip(t: SdpType)
    ensures SdpTypeFromString(SdpTypeToString(t)) == Some(t)
  {
  }

  /** A parsed session description: its type and the text its `ToString` yields. */
  datatype SessionDescription = SessionDescription(sdpType: SdpType, text: string)

  /** A parsed ICE candidate, by the values of its `ToString`, `sdp_mid` and `sdp_mline_index`. */
  datatype IceCandidate = IceCandidate(text: string, sdpMid: string, sdpMLineIndex: int)

  /** The native parsers, which the wrapper treats as oracles:
      `webrtc::CreateSessionDescription(type, sdp, &error)` and
      `webrtc::CreateIceCandidate(sdp_mid, sdp_mline_index, candidate, &error)`; an absent result
      is a parse failure. */
  datatype Parser = Parser(
    createSessionDescription: (SdpType, string) -> Option<SessionDescription>,
    createIceCandidate: (string, int, string) -> Option<IceCandidate>)

  /** `webrtc::DataChannelInit`, restricted to the fields the wrapper sets. */
  datatype DataChannelInit = DataChannelInit(
    ordered: bool,
    maxRetransmitTime: Option<int>,
    maxRetransmits: Option<int>,
    protocol: string,
    negotiated: bool,
    id: int)

  /** A default-constructed `webrtc::DataChannelInit`: ordered, no retransmission limits, no
      protocol, not negotiated, and id -1 (let the stack choose). */
  const DefaultDataChannelInit := DataChannelInit(true, None, None, "", false, -1)

  /** `webrtc::DataBuffer`: a payload and whether it is binary. */
  datatype DataBuffer = DataBuffer(data: seq<Byte>, binary: bool)

  /** A request made of `CreateDataChannelOrError`. */
  datatype ChannelRequest = ChannelRequest(channelLabel: string, init: DataChannelInit)

  /** What the stack decides about a channel it creates: its initial state, the stream id it
      settles on and whether its send queue takes buffers. */
  datatype ChannelStart = ChannelStart(state: DataState, id: int, acceptsSend: bool)

  /** What the wrapper can observe of a native data channel, besides its label and id. */
  datatype ChannelLog = ChannelLog(
    state: DataState,
    bufferedAmount: nat,
    acceptsSend: bool,
    sendAttempts: seq<DataBuffer>,
    closeRequests: nat,
    observerRegistered: bool)

  /** A native data channel (`webrtc::DataChannelInterface`). */
  class NativeDataChannel {
    var state: DataState
    const channelLabel: string
    const id: int
    var bufferedAmount: nat
    /** The outcome the next `Send` reports: whether the send queue takes the buffer. */
    var acceptsSend: bool
    /** Every buffer handed to `Send`, in order. */
    var sendAttempts: seq<DataBuffer>
    /** How many times `Close` was called. */
    var closeRequests: nat
    /** Whether an observer is registered. */
    var observerRegistered: bool

    function Log(): ChannelLog
      reads this
    {
      ChannelLog(state, bufferedAmount, acceptsSend, sendAttempts, closeRequests, observerRegistered)
    }

    constructor (state: DataState, channelLabel: string, id: int, acceptsSend: bool)
      ensures this.channelLabel == channelLabel && this.id == id
      ensures Log() == ChannelLog(state, 0, acceptsSend, [], 0, false)
    {
      this.state := state;
      this.channelLabel := channelLabel;
      this.id := id;
      this.acceptsSend := acceptsSend;
      bufferedAmount := 0;
      sendAttempts := [];
      closeRequests := 0;
      observerRegistered := false;
    }

    /** `Send(buffer)`: records the attempt and reports whether it was accepted. */
    method Send(buffer: DataBuffer) returns (ok: bool)
      modifies this
      ensures ok == acceptsSend
      ensures Log() == old(Log()).(sendAttempts := old(sendAttempts) + [buffer])
    {
      sendAttempts := sendAttempts + [buffer];
      ok := acceptsSend;
    }

    /** `Close()`: a request; the state change is reported later through the observer. */
    method Close()
      modifies this
      ensures Log() == old(Log()).(closeRequests := old(closeRequests) + 1)
    {
      closeRequests := closeRequests + 1;
    }

    method RegisterObserver()
      modifies this
      ensures Log() == old(Log()).(observerRegistered := true)
    {
      observerRegistered := true;
    }

    method UnregisterObserver()
      modifies this
      ensures Log() == old(Log()).(observerRegistered := false)
    {
      observerRegistered := false;
    }
  }

  /** What the wrapper can observe of a native peer connection. */
  datatype ConnectionLog = ConnectionLog(
    acceptsCandidates: bool,
    createsChannels: bool,
    candidateAttempts: seq<IceCandidate>,
    localDescriptionsStarted: seq<SessionDescription>,
    remoteDescriptionsStarted: seq<SessionDescription>,
    channelRequests: seq<ChannelRequest>,
    closeCalls: nat)

  /** A native peer connection (`webrtc::PeerConnectionInterface`). */
  class NativePeerConnection {
    /** The stack's choice of initial state, id and send behaviour for each channel request. */
    const opens: (string, DataChannelInit) -> ChannelStart
    /** The outcome the next `AddIceCandidate` reports. */
    var acceptsCandidates: bool
    /** Whether `CreateDataChannelOrError` succeeds. */
    var createsChannels: bool
    /** Every candidate handed to `AddIceCandidate`, in order. */
    var candidateAttempts: seq<IceCandidate>
    /** Every description whose `SetLocalDescription` was started, in order. */
    var localDescriptionsStarted: seq<SessionDescription>
    /** Every description whose `SetRemoteDescription` was started, in order. */
    var remoteDescriptionsStarted: seq<SessionDescription>
    /** Every request made of `CreateDataChannelOrError`, in order. */
    var channelRequests: seq<ChannelRequest>
    /** How many times `Close` was called. */
    var closeCalls: nat

    function Log(): ConnectionLog
      reads this
    {
      ConnectionLog(acceptsCandidates, createsChannels, candidateAttempts, localDescriptionsStarted,
                    remoteDescriptionsStarted, channelRequests, closeCalls)
    }

    constructor (acceptsCandidates: bool, createsChannels: bool, opens: (string, DataChannelInit) -> ChannelStart)
      ensures Log() == ConnectionLog(acceptsCandidates, createsChannels, [], [], [], [], 0)
      ensures this.opens == opens
    {
      this.opens := opens;
      this.acceptsCandidates := acceptsCandidates;
      this.createsChannels := createsChannels;
      candidateAttempts := [];
      localDescriptionsStarted := [];
      remoteDescriptionsStarted := [];
      channelRequests := [];
      closeCalls := 0;
    }

    /** `AddIceCandidate(candidate)`: records the attempt and reports whether it was added. */
    method AddIceCandidate(c: IceCandidate) returns (ok: bool)
      modifies this
      ensures ok == acceptsCandidates
      ensures Log() == old(Log()).(candidateAttempts := old(candidateAttempts) + [c])
    {
      candidateAttempts := candidateAttempts + [c];
      ok := acceptsCandidates;
    }

    /** Starts `SetLocalDescription(desc, observer)`; completion arrives later at the observer. */
    method SetLocalDescription(desc: SessionDescription)
      modifies this
      ensures Log() == old(Log()).(localDescriptionsStarted := old(localDescriptionsStarted) + [desc])
    {
      localDescriptionsStarted := localDescriptionsStarted + [desc];
    }

    /** Starts `SetRemoteDescription(desc, observer)`; completion arrives later at the observer. */
    method SetRemoteDescription(desc: SessionDescription)
      modifies this
      ensures Log() == old(Log()).(remoteDescriptionsStarted := old(remoteDescriptionsStarted) + [desc])
    {
      remoteDescriptionsStarted := remoteDescriptionsStarted + [desc];
    }

    /** `CreateDataChannelOrError(label, &init)`: a new channel carrying the requested label,
        with the state, id and send behaviour the stack chooses, or null when the stack
        refuses. */
    method CreateDataChannelOrError(channelLabel: string, init: DataChannelInit) returns (ch: NativeDataChannel?)
      modifies this
      ensures Log() == old(Log()).(channelRequests := old(channelRequests) + [ChannelRequest(channelLabel, init)])
      ensures ch != null <==> createsChannels
      ensures ch != null ==> fresh(ch) && ch.channelLabel == channelLabel && ch.id == opens(channelLabel, init).id
      ensures ch != null ==> ch.Log() == ChannelLog(opens(channelLabel, init).state, 0, opens(channelLabel, init).acceptsSend,
                                                    [], 0, false)
    {
      channelRequests := channelRequests + [ChannelRequest(channelLabel, init)];
      if createsChannels {
        var start := opens(channelLabel, init);
        ch := new NativeDataChannel(start.state, channelLabel, start.id, start.acceptsSend);
      } else {
        ch := null;
      }
    }

    method Close()
      modifies this
      ensures Log() == old(Log()).(closeCalls := old(closeCalls) + 1)
    {
      closeCalls := closeCalls + 1;
    }
  }
}

/** The value types of the library's public interface: the connection and channel states it
    reports, the description and candidate records it exchanges with the application, and the
    data-channel configuration. */
module LibrtcTypes {
  import opened Options

  datatype SignalingState =
    | Stable | HaveLocalOffer | HaveLocalPrAnswer | HaveRemoteOffer | HaveRemotePrAnswer | Closed

  datatype IceConnectionState = New | Checking | Connected | Completed | Failed | Disconnected | Closed

  datatype IceGatheringState = New | Gathering | Complete

  datatype DataChannelState = Connecting | Open | Closing | Closed

  /** A session description as text: its type name and its SDP body. */
  datatype SessionDescription = SessionDescription(sdpType: string, sdp: string)

  datatype IceCandidate = IceCandidate(candidate: string, sdpMid: string, sdpMLineIndex: int)

  /** Options for a new data channel; absent optional fields mean "not set". */
  datatype DataChannelConfig = DataChannelConfig(
    ordered: bool,
    maxRetransmitTimeMs: Option<int>,
    maxRetransmits: Option<int>,
    protocol: string,
    negotiated: bool,
    id: Option<int>)

  /** A default-constructed configuration. */
  const DefaultDataChannelConfig := DataChannelConfig(true, None, None, "", false, None)
}

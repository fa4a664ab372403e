/** The observers handed to the native stack for the description operations, and the
    translation of native error types into `PeerConnectionError`. Each observer callback only
    builds a result and passes it to its stored callback; it is modelled by the function that
    computes the value passed. */
module SessionDescriptionProxies {
  import opened Options
  import opened Expected
  import WebRtc
  import opened LibrtcTypes
  import P = PeerConnectionErrors

  /** `convert_rtc_error`: a total map from native error types; a type without a case of its
      own falls back to `InternalError`. */
  function ConvertRtcError(error: WebRtc.RTCError): (e: P.PeerConnectionError)
    ensures e == P.Success <==> error.Ok()
  {
    match error.errorType
    case NONE => P.Success
    case UNSUPPORTED_OPERATION => P.UnsupportedOperation
    case UNSUPPORTED_PARAMETER => P.UnsupportedParameter
    case INVALID_PARAMETER => P.InvalidArgument
    case INVALID_RANGE => P.InvalidRange
    case SYNTAX_ERROR => P.SyntaxError
    case INVALID_STATE => P.InvalidState
    case INVALID_MODIFICATION => P.InvalidModification
    case NETWORK_ERROR => P.NetworkError
    case RESOURCE_EXHAUSTED => P.ResourceExhausted
    case INTERNAL_ERROR => P.InternalError
    case OPERATION_ERROR_WITH_DATA => P.OperationError
    case OtherErrorType(_) => P.InternalError
  }

  /** The two renamed cases. */
  lemma ConvertRtcErrorRenames(message: string)
    ensures ConvertRtcError(WebRtc.RTCError(WebRtc.INVALID_PARAMETER, message)) == P.InvalidArgument
    ensures ConvertRtcError(WebRtc.RTCError(WebRtc.OPERATION_ERROR_WITH_DATA, message)) == P.OperationError
  {
  }

  /** The remaining listed types map to the enumerator of the same name. */
  lemma ConvertRtcErrorNamesakes(message: string)
    ensures ConvertRtcError(WebRtc.RTCError(WebRtc.UNSUPPORTED_OPERATION, message)) == P.UnsupportedOperation
    ensures ConvertRtcError(WebRtc.RTCError(WebRtc.UNSUPPORTED_PARAMETER, message)) == P.UnsupportedParameter
    ensures ConvertRtcError(WebRtc.RTCError(WebRtc.INVALID_RANGE, message)) == P.InvalidRange
    ensures ConvertRtcError(WebRtc.RTCError(WebRtc.SYNTAX_ERROR, message)) == P.SyntaxError
    ensures ConvertRtcError(WebRtc.RTCError(WebRtc.INVALID_STATE, message)) == P.InvalidState
    ensures ConvertRtcError(WebRtc.RTCError(WebRtc.INVALID_MODIFICATION, message)) == P.InvalidModification
    ensures ConvertRtcError(WebRtc.RTCError(WebRtc.NETWORK_ERROR, message)) == P.NetworkError
    ensures ConvertRtcError(WebRtc.RTCError(WebRtc.RESOURCE_EXHAUSTED, message)) == P.ResourceExhausted
    ensures ConvertRtcError(WebRtc.RTCError(WebRtc.INTERNAL_ERROR, message)) == P.InternalError
  {
  }

  /** `InternalError` is produced exactly for `INTERNAL_ERROR` and for the unlisted types. */
  lemma ConvertRtcErrorInternalExactlyForFallback(error: WebRtc.RTCError)
    ensures ConvertRtcError(error) == P.InternalError
            <==> error.errorType == WebRtc.INTERNAL_ERROR || error.errorType.OtherErrorType?
  {
  }

  /** Apart from the fallback, distinct native types give distinct errors. */
  lemma ConvertRtcErrorInjectiveOnListedTypes(a: WebRtc.RTCError, b: WebRtc.RTCError)
    requires !a.errorType.OtherErrorType? && !b.errorType.OtherErrorType?
    requires ConvertRtcError(a) == ConvertRtcError(b)
    ensures a.errorType == b.errorType
  {
  }

  /** The message text plays no part in the translation. */
  lemma ConvertRtcErrorIgnoresMessage(t: WebRtc.RTCErrorType, m1: string, m2: string)
    ensures ConvertRtcError(WebRtc.RTCError(t, m1)) == ConvertRtcError(WebRtc.RTCError(t, m2))
  {
  }

  /** The errors a native failure can produce: every enumerator except `InvalidSdp` and
      `OperationCanceled`, which only the library itself reports. */
  lemma ConvertRtcErrorRange(e: P.PeerConnectionError)
    ensures (exists error: WebRtc.RTCError :: ConvertRtcError(error) == e)
            <==> e != P.InvalidSdp && e != P.OperationCanceled
  {
    if e != P.InvalidSdp && e != P.OperationCanceled {
      var t := match e
        case Success => WebRtc.NONE
        case InvalidArgument => WebRtc.INVALID_PARAMETER
        case InvalidState => WebRtc.INVALID_STATE
        case InternalError => WebRtc.INTERNAL_ERROR
        case UnsupportedOperation => WebRtc.UNSUPPORTED_OPERATION
        case UnsupportedParameter => WebRtc.UNSUPPORTED_PARAMETER
        case InvalidRange => WebRtc.INVALID_RANGE
        case SyntaxError => WebRtc.SYNTAX_ERROR
        case InvalidModification => WebRtc.INVALID_MODIFICATION
        case NetworkError => WebRtc.NETWORK_ERROR
        case ResourceExhausted => WebRtc.RESOURCE_EXHAUSTED
        case OperationError => WebRtc.OPERATION_ERROR_WITH_DATA
        case _ => WebRtc.NONE;
      assert ConvertRtcError(WebRtc.RTCError(t, "")) == e;
    }
  }

  /** `CreateDescriptionProxy::OnSuccess(desc)`: a success carrying the description's type name
      and its SDP text. */
  function CreateOnSuccess(desc: WebRtc.SessionDescription): (r: Result<SessionDescription, P.PeerConnectionError>)
    ensures r.Ok? && r.value.sdp == desc.text
    ensures WebRtc.SdpTypeFromString(r.value.sdpType) == Some(desc.sdpType)
  {
    Ok(SessionDescription(WebRtc.SdpTypeToString(desc.sdpType), desc.text))
  }

  /** `CreateDescriptionProxy::OnFailure(error)`: an error holding the translated type. */
  function CreateOnFailure(error: WebRtc.RTCError): (r: Result<SessionDescription, P.PeerConnectionError>)
    ensures r.Fail? && r.error == ConvertRtcError(error)
  {
    FromError(Err(ConvertRtcError(error)))
  }

  /** `OnSetLocalDescriptionComplete(error)` and `OnSetRemoteDescriptionComplete(error)`, which
      have the same body: success when the native error is ok, otherwise an error holding the
      translated type, which is then never `Success`. */
  function CompletionResult(error: WebRtc.RTCError): (r: VoidResult<P.PeerConnectionError>)
    ensures r.VoidOk? <==> error.Ok()
    ensures r.VoidFail? ==> r.error == ConvertRtcError(error) && r.error != P.Success
  {
    if error.Ok() then Success() else VoidFromError(Err(ConvertRtcError(error)))
  }

  /** A completion can never report `InvalidSdp`, so that error always comes from the library's
      own parsing. */
  lemma CompletionNeverReportsInvalidSdp(error: WebRtc.RTCError)
    ensures CompletionResult(error) != VoidFail(P.InvalidSdp)
  {
    ConvertRtcErrorRange(P.InvalidSdp);
  }
}

/** `PeerConnectionError` and its `std::error_category`: the enumeration of peer-connection
    failures, the integer each enumerator carries, the text `message` gives for an integer,
    and `make_error_code`. */
module PeerConnectionErrors {

  import opened Options
  import opened SystemError

  datatype PeerConnectionError =
    | Success
    | InvalidArgument
    | InvalidSdp
    | InvalidState
    | InternalError
    | OperationCanceled
    | UnsupportedOperation
    | UnsupportedParameter
    | InvalidRange
    | SyntaxError
    | InvalidModification
    | NetworkError
    | ResourceExhausted
    | OperationError

  /** The enumerators in declaration order. */
  const Enumerators: seq<PeerConnectionError> := [
    Success, InvalidArgument, InvalidSdp, InvalidState, InternalError, OperationCanceled,
    UnsupportedOperation, UnsupportedParameter, InvalidRange, SyntaxError, InvalidModification,
    NetworkError, ResourceExhausted, OperationError
  ]

  /** `static_cast<int>(e)`: `Success = 0` and each later enumerator one more than the last. */
  function ToInt(e: PeerConnectionError): int
  {
    match e
    case Success => 0
    case InvalidArgument => 1
    case InvalidSdp => 2
    case InvalidState => 3
    case InternalError => 4
    case OperationCanceled => 5
    case UnsupportedOperation => 6
    case UnsupportedParameter => 7
    case InvalidRange => 8
    case SyntaxError => 9
    case InvalidModification => 10
    case NetworkError => 11
    case ResourceExhausted => 12
    case OperationError => 13
  }

  /** The enumerator a `switch` over `static_cast<PeerConnectionError>(ev)` selects, if any. */
  function FromInt(ev: int): Option<PeerConnectionError>
  {
    if 0 <= ev < |Enumerators| then Some(Enumerators[ev]) else None
  }

  /** The text of the `case` for an enumerator. */
  function Describe(e: PeerConnectionError): string
  {
    match e
    case Success => "Success"
    case InvalidArgument => "Invalid argument"
    case InvalidSdp => "Invalid SDP"
    case InvalidState => "Invalid state"
    case InternalError => "Internal error"
    case OperationCanceled => "Operation canceled"
    case UnsupportedOperation => "Unsupported operation"
    case UnsupportedParameter => "Unsupported parameter"
    case InvalidRange => "Invalid range"
    case SyntaxError => "Syntax error"
    case InvalidModification => "Invalid modification"
    case NetworkError => "Network error"
    case ResourceExhausted => "Resource exhausted"
    case OperationError => "Operation error"
  }

  const UnknownError: string := "Unknown error"

  /** `PeerConnectionErrorCategory::name()`. */
  const CategoryName: string := "librtc_peer_connection"

  /** `PeerConnectionErrorCategory::message(ev)`: total over all integers. */
  function Message(ev: int): string
  {
    match FromInt(ev)
    case Some(e) => Describe(e)
    case None => UnknownError
  }

  /** `make_error_code(e)`. */
  function MakeErrorCode(e: PeerConnectionError): ErrorCode
  {
    ErrorCode(ToInt(e), PeerConnectionCategory)
  }

  // ---------------------------------------------------------------------------------------

  /** `Success` is 0 and the enumerators are numbered 0 to 13 in declaration order. */
  lemma ValuesFollowDeclarationOrder()
    ensures |Enumerators| == 14 && ToInt(Success) == 0
    ensures forall i :: 0 <= i < |Enumerators| ==> ToInt(Enumerators[i]) == i
  {
  }

  lemma EveryEnumeratorIsDeclared(e: PeerConnectionError)
    ensures e in Enumerators
  {
  }

  /** `FromInt` undoes `static_cast<int>`, and recognises exactly the values 0 to 13. */
  lemma IntConversionRoundTrip(e: PeerConnectionError, ev: int)
    ensures FromInt(ToInt(e)) == Some(e)
    ensures FromInt(ev).Some? <==> 0 <= ev <= 13
    ensures FromInt(ev).Some? ==> ToInt(FromInt(ev).value) == ev
  {
    ValuesFollowDeclarationOrder();
    EveryEnumeratorIsDeclared(e);
  }

  /** Different enumerators have different messages, none of them the fallback text. */
  lemma MessagesDistinct(e1: PeerConnectionError, e2: PeerConnectionError)
    ensures e1 != e2 ==> Message(ToInt(e1)) != Message(ToInt(e2))
    ensures Message(ToInt(e1)) == Describe(e1) != UnknownError
  {
    IntConversionRoundTrip(e1, 0);
    IntConversionRoundTrip(e2, 0);
  }

  /** `message` returns "Unknown error" exactly for the integers that name no enumerator. */
  lemma MessageUnknownExactlyOutOfRange(ev: int)
    ensures Message(ev) == UnknownError <==> ev < 0 || ev > 13
  {
    IntConversionRoundTrip(Success, ev);
    if FromInt(ev).Some? {
      MessagesDistinct(FromInt(ev).value, FromInt(ev).value);
    }
  }

  /** `make_error_code` keeps the integer value, uses this category, and loses nothing. */
  lemma MakeErrorCodeKeepsValue(e1: PeerConnectionError, e2: PeerConnectionError)
    ensures MakeErrorCode(e1).value == ToInt(e1)
    ensures MakeErrorCode(e1).category == PeerConnectionCategory
    ensures MakeErrorCode(e1) == MakeErrorCode(e2) ==> e1 == e2
  {
    IntConversionRoundTrip(e1, 0);
    IntConversionRoundTrip(e2, 0);
  }
}

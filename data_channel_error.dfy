/** `DataChannelError` and its `std::error_category`: the enumeration of data-channel
    failures, their integer values, the text `message` gives for an integer, and
    `make_error_code`. */
module DataChannelErrors {

  import opened Options
  import opened SystemError

  datatype DataChannelError = Success | NotOpen | BufferFull | InvalidArgument | InvalidData | Closed

  /** The enumerators in declaration order. */
  const Enumerators: seq<DataChannelError> := [Success, NotOpen, BufferFull, InvalidArgument, InvalidData, Closed]

  /** `static_cast<int>(e)`. */
  function ToInt(e: DataChannelError): int
  {
    match e
    case Success => 0
    case NotOpen => 1
    case BufferFull => 2
    case InvalidArgument => 3
    case InvalidData => 4
    case Closed => 5
  }

  /** The enumerator a `switch` over `static_cast<DataChannelError>(ev)` selects, if any. */
  function FromInt(ev: int): Option<DataChannelError>
  {
    if 0 <= ev < |Enumerators| then Some(Enumerators[ev]) else None
  }

  /** The text of the `case` for an enumerator. */
  function Describe(e: DataChannelError): string
  {
    match e
    case Success => "Success"
    case NotOpen => "Data channel is not open"
    case BufferFull => "Send buffer is full"
    case Closed => "Data channel is closed"
    case InvalidArgument => "Invalid argument"
    case InvalidData => "Invalid data"
  }

  const UnknownError: string := "Unknown error"

  /** `DataChannelErrorCategory::name()`. */
  const CategoryName: string := "librtc_datachannel"

  /** `DataChannelErrorCategory::message(ev)`: total over all integers. */
  function Message(ev: int): string
  {
    match FromInt(ev)
    case Some(e) => Describe(e)
    case None => UnknownError
  }

  /** `make_error_code(e)`. */
  function MakeErrorCode(e: DataChannelError): ErrorCode
  {
    ErrorCode(ToInt(e), DataChannelCategory)
  }

  // ---------------------------------------------------------------------------------------

  /** Success=0, NotOpen=1, BufferFull=2, InvalidArgument=3, InvalidData=4, Closed=5. */
  lemma ValuesFollowDeclarationOrder()
    ensures |Enumerators| == 6 && ToInt(Success) == 0 && ToInt(NotOpen) == 1
    ensures forall i :: 0 <= i < |Enumerators| ==> ToInt(Enumerators[i]) == i
  {
  }

  lemma EveryEnumeratorIsDeclared(e: DataChannelError)
    ensures e in Enumerators
  {
  }

  /** `FromInt` undoes `static_cast<int>`, and recognises exactly the values 0 to 5. */
  lemma IntConversionRoundTrip(e: DataChannelError, ev: int)
    ensures FromInt(ToInt(e)) == Some(e)
    ensures FromInt(ev).Some? <==> 0 <= ev <= 5
    ensures FromInt(ev).Some? ==> ToInt(FromInt(ev).value) == ev
  {
    ValuesFollowDeclarationOrder();
    EveryEnumeratorIsDeclared(e);
  }

  /** Different enumerators have different messages, none of them the fallback text. */
  lemma MessagesDistinct(e1: DataChannelError, e2: DataChannelError)
    ensures e1 != e2 ==> Message(ToInt(e1)) != Message(ToInt(e2))
    ensures Message(ToInt(e1)) == Describe(e1) != UnknownError
  {
    IntConversionRoundTrip(e1, 0);
    IntConversionRoundTrip(e2, 0);
  }

  /** `message` returns "Unknown error" exactly for the integers that name no enumerator. */
  lemma MessageUnknownExactlyOutOfRange(ev: int)
    ensures Message(ev) == UnknownError <==> ev < 0 || ev > 5
  {
    IntConversionRoundTrip(Success, ev);
    if FromInt(ev).Some? {
      MessagesDistinct(FromInt(ev).value, FromInt(ev).value);
    }
  }

  /** `make_error_code` keeps the integer value, uses this category, and loses nothing. */
  lemma MakeErrorCodeKeepsValue(e1: DataChannelError, e2: DataChannelError)
    ensures MakeErrorCode(e1).value == ToInt(e1)
    ensures MakeErrorCode(e1).category == DataChannelCategory
    ensures MakeErrorCode(e1) == MakeErrorCode(e2) ==> e1 == e2
  {
    IntConversionRoundTrip(e1, 0);
    IntConversionRoundTrip(e2, 0);
  }
}

/** `std::error_code::message()` and `category().name()` for the two categories the library
    defines: the error code's category interprets its integer value. */
module ErrorCodes {

  import opened SystemError
  import PeerConnectionErrors
  import DataChannelErrors

  function Name(c: Category): string
  {
    match c
    case PeerConnectionCategory => PeerConnectionErrors.CategoryName
    case DataChannelCategory => DataChannelErrors.CategoryName
  }

  function Message(ec: ErrorCode): string
  {
    match ec.category
    case PeerConnectionCategory => PeerConnectionErrors.Message(ec.value)
    case DataChannelCategory => DataChannelErrors.Message(ec.value)
  }

  /** The two categories have different names, so the two error domains never collide. */
  lemma CategoryNamesDiffer()
    ensures Name(PeerConnectionCategory) == "librtc_peer_connection"
    ensures Name(DataChannelCategory) == "librtc_datachannel"
    ensures Name(PeerConnectionCategory) != Name(DataChannelCategory)
  {
  }

  /** An error code made from an enumerator describes that enumerator, and the two domains'
      codes are never equal even where their integer values coincide. */
  lemma MadeCodesDescribeTheirEnumerator(p: PeerConnectionErrors.PeerConnectionError, d: DataChannelErrors.DataChannelError)
    ensures Message(PeerConnectionErrors.MakeErrorCode(p)) == PeerConnectionErrors.Describe(p)
    ensures Message(DataChannelErrors.MakeErrorCode(d)) == DataChannelErrors.Describe(d)
    ensures PeerConnectionErrors.MakeErrorCode(p) != DataChannelErrors.MakeErrorCode(d)
  {
    PeerConnectionErrors.MessagesDistinct(p, p);
    DataChannelErrors.MessagesDistinct(d, d);
  }
}

/** The part of the C++ standard library's `std::error_code` that the library relies on:
    an error code is an integer value paired with the category that interprets it. The two
    categories are the ones the library defines (peer-connection errors and data-channel
    errors); categories are compared by identity in C++, so a datatype tag is enough. */
module SystemError {

  datatype Category = PeerConnectionCategory | DataChannelCategory

  /** `std::error_code{value, category}`. */
  datatype ErrorCode = ErrorCode(value: int, category: Category)
}

/** The optional value used where the library returns `std::optional` or a nullable result. */
module Options {

  datatype Option<T> = None | Some(value: T)
}

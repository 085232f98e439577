/** The optional value used wherever the server passes std::optional or a nullable pointer. */
module Options {
  datatype Option<T> = None | Some(value: T) {
    /** The contained value, or `default` when there is none. */
    function ValueOr(default: T): T {
      match this
      case None => default
      case Some(v) => v
    }
  }
}

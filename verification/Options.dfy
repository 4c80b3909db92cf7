/** The nullable column: a value or SQL NULL / JavaScript null. */
module Options {
  datatype Option<+T> = None | Some(value: T) {
    function OrElse(other: T): T {
      match this
      case Some(v) => v
      case None => other
    }
  }
}

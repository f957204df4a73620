/** A value that may be missing. */
module Options {

  datatype Option<+T> = None | Some(value: T) {
    function Or(other: Option<T>): Option<T> { if None? then other else this }
  }
}

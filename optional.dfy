/** The optional value used for every field that the upstream JSON may omit
    or set to null: JavaScript's `undefined` and `null` are both `None`. */
module Optional {

  datatype Option<+T> = None | Some(value: T) {

    /** The value if present, otherwise `default`. */
    function GetOr(default: T): T {
      match this
      case Some(v) => v
      case None => default
    }
  }
}

/** An optional value: models a TypeScript prop or route parameter that may be `undefined`. */
module Optional {

  datatype Option<+T> = None | Some(value: T) {

    /** The value, or `default` when the prop is `undefined` (a parameter default); a present "" is kept. */
    function GetOr(default: T): T
    {
      match this
      case Some(v) => v
      case None => default
    }
  }
}

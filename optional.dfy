/** A value that may be absent: JavaScript's `null` / `undefined`. */
module Optional {
  datatype Option<T> = None | Some(value: T) {
    /** `x || d` for an `x` that is absent or holds a value. The other
        falsy values of `||` matter only where `x` can be "" (see
        SessionLog.CategoryKey); for a count `0 || 0` is 0 either way. */
    function GetOr(d: T): T {
      if Some? then value else d
    }
  }
}

/** The usual optional value, standing for a nullable field. */
module Options {

  datatype Option<+T> = None | Some(value: T)

  /** `a || b` on nullable fields. */
  function OrElse<T>(a: Option<T>, b: Option<T>): Option<T> {
    if a.Some? then a else b
  }
}

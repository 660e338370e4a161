/** A value that may be missing. */
module Options {

  datatype Option<+T> = None | Some(value: T)

  ghost function OrElse<T>(o: Option<T>, v: T): T {
    if o.Some? then o.value else v
  }
}

/** Small shared vocabulary. */
module Prelude {

  datatype Option<+T> = None | Some(value: T)

  datatype Result<+T, +E> = Ok(value: T) | Err(error: E)

  function OrElse<T>(o: Option<T>, d: T): T { if o.Some? then o.value else d }
}

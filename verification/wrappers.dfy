/** Optional values and the `{ ok, ... }` result records the services return. */
module Wrappers {

  /** A value that may be absent: JavaScript's `undefined`/`null` is `None`. */
  datatype Option<+T> = None | Some(value: T) {

    /** JavaScript `this ?? other`: keep a present value, otherwise take `other`. */
    function OrElse(other: Option<T>): Option<T> {
      if Some? then this else other
    }

    /** JavaScript `this ?? default` when the default is always present. */
    function GetOr(default: T): T {
      if Some? then value else default
    }
  }

  /** The services' `{ ok: true, ... } | { ok: false, error }` shape. */
  datatype Result<+T> = Ok(value: T) | Err(error: string)

  /** JavaScript truthiness of an optional string: present and non-empty. */
  predicate Truthy(s: Option<string>) {
    s.Some? && s.value != ""
  }
}

/** The optional and fallible values the dashboard's code expresses with
    `undefined`/`null` and with thrown exceptions. */
module Wrappers {

  /** A value that may be missing: an optional record field, a `find` that
      found nothing, a service call that resolved with `null`. */
  datatype Option<+T> = None | Some(value: T) {

    /** The value, or `default` when it is missing. */
    function GetOr(default: T): T {
      match this
      case Some(v) => v
      case None => default
    }
  }

  /** One optional field of `{ ...current, ...p }`: the patch's value when
      it carries one, otherwise the current one. */
  function Over<T>(p: Option<T>, current: Option<T>): Option<T> {
    if p.Some? then p else current
  }

  /** The outcome of an expression that may throw: `Err` carries the reason. */
  datatype Result<+T, +E> = Ok(value: T) | Err(error: E)

  /** The exceptions the modelled code can raise. */
  datatype Failure =
    | TypeError     // a property read on `undefined`
    | NotConfigured // the analytics client has no API key
}

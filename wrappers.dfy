/** The optional value used for JavaScript's `undefined`/`null` fields. */
module Wrappers {

  datatype Option<+T> = None | Some(value: T) {

    /** The value, or `default` when there is none (JavaScript's `x ?? default`). */
    function GetOr(default: T): T {
      match this
      case Some(v) => v
      case None => default
    }
  }

  /** JavaScript truthiness of an optional string: neither absent nor the empty string. */
  predicate Truthy(s: Option<string>): (ok: bool)
    ensures ok <==> s != None && s != Some("")
  {
    s.Some? && s.value != ""
  }
}

/** Optional values, pass/fail outcomes and the JavaScript truthiness test used by the adapter. */
module Wrappers {

  /** A value that may be absent (`undefined` in the source). */
  datatype Option<+T> = None | Some(value: T)

  /** The result of an operation that either completes or throws an error carrying a message. */
  datatype Outcome<+E> = Pass | Fail(error: E)

  function Min(a: nat, b: nat): nat {
    if a < b then a else b
  }

  /** JavaScript truthiness of an optional string: present and not empty. */
  predicate Truthy(s: Option<string>) {
    s.Some? && s.value != ""
  }
}

/** Optional values and the helpers the model uses to read JavaScript's `x || default`. */
module Wrappers {

  datatype Option<T> = None | Some(value: T) {
    function GetOr(default: T): T {
      match this
      case None => default
      case Some(v) => v
    }
  }

  /** `s || d` for a string that may be missing: missing and "" are both falsy. */
  function OrText(s: Option<string>, d: string): (r: string)
    ensures r == d || (s.Some? && r == s.value && r != "")
    ensures (s.Some? && s.value != "") ==> r == s.value
  {
    if s.Some? && s.value != "" then s.value else d
  }

  /** A string is truthy in JavaScript exactly when it is present and non-empty. */
  predicate Truthy(s: Option<string>) {
    s.Some? && s.value != ""
  }
}

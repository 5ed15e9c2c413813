/** Optional values and the JavaScript truthiness of optional strings. */
module Wrappers {

  /** A value that may be absent: `undefined` or `null` in TypeScript. */
  datatype Option<+T> = None | Some(value: T)

  /** `!!s` for a `string | undefined`: absent and "" are both falsy. */
  predicate Truthy(s: Option<string>) {
    s.Some? && s.value != ""
  }
}

/** Optional values and the JavaScript truthiness tests the source applies to them. */
module Wrappers {

  /** An optional value: `undefined` in the source is `None`. */
  datatype Option<+T> = None | Some(value: T)

  /** `if (s)` on an optional string: absent and the empty string are both falsy. */
  predicate NonEmpty(s: Option<string>) {
    s.Some? && s.value != ""
  }

  /** `if (n)` on an optional number: absent and 0 are both falsy (NaN is not modelled). */
  predicate NonZero(n: Option<int>) {
    n.Some? && n.value != 0
  }
}

/** Optional values and the JavaScript truthiness rules the front-end leans on. */
module Base {

  /** A value that may be absent: `null`/`undefined` on the JavaScript side. */
  datatype Option<T> = None | Some(value: T)

  /** An optional string is truthy in JavaScript iff it is present and non-empty. */
  predicate Truthy(o: Option<string>) {
    o.Some? && o.value != ""
  }

  /** The expression `o || d` for an optional string. */
  function OrElse(o: Option<string>, d: string): string {
    if Truthy(o) then o.value else d
  }
}

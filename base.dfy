/** Small shared vocabulary: optional values, JavaScript truthiness of an
    optional string argument, and the millisecond constants the source uses. */
module Base {

  /** An absent value stands for JavaScript's `undefined` (or `null`). */
  datatype Option<T> = None | Some(value: T)

  /** JavaScript truthiness of a string that may be missing: `undefined`,
      `null` and `''` are falsy, every other string is truthy. */
  predicate Truthy(v: Option<string>)
  {
    v.Some? && v.value != ""
  }

  const MsPerHour: int := 60 * 60 * 1000
  const MsPerDay: int := 24 * MsPerHour
}

/** Failure-carrying values shared by every module of the model. */
module Common {

  /** A value that may be absent: Java's null, TypeScript's null/undefined. */
  datatype Option<+T> = None | Some(value: T)

  /** The outcome of a step that may throw: a value, or the error it threw. */
  datatype Result<+T, +E> = Ok(value: T) | Err(error: E)

  /** True if `suffix` is a suffix of `s` (String.endsWith). */
  predicate EndsWith(s: string, suffix: string)
  {
    |suffix| <= |s| && s[|s| - |suffix|..] == suffix
  }
}

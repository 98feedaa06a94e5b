/** Optional values and the outcome of one backend command. */
module Wrappers {

  /** A value that may be absent (TypeScript's `T | null` and `T | undefined`). */
  datatype Option<+T> = None | Some(value: T)

  /** What an awaited backend command produced: its value, or the error it was
      rejected with (rendered by `${error}` wherever the source embeds it). */
  datatype Result<+T> = Ok(value: T) | Err(error: string)
}

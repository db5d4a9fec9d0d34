/** Option and Result values, and a sequence fact, shared by every module of the model. */
module Wrappers {

  /** A value that may be missing (TypeScript's `null` / `undefined`). */
  datatype Option<+T> = None | Some(value: T)

  /** A computation that either succeeds with a value or fails with an error. */
  datatype Result<+T, +E> = Ok(value: T) | Err(error: E)

  /** A computation that only succeeds or fails (a TypeScript `Promise<void>`). */
  datatype Outcome<+E> = Pass | Fail(error: E)

  /** Logs and traces are built by appending; this regroups two appends. */
  lemma AppendAssoc<T>(a: seq<T>, b: seq<T>, c: seq<T>)
    ensures (a + b) + c == a + (b + c)
  {
  }
}

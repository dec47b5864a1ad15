/** Option and Result values, and a sequence fact, shared by every module of the model. */
module Common {

  /** A value that may be absent: Python's `None` or a missing key/file. */
  datatype Option<+T> = None | Some(value: T)

  /** The outcome of a step that can raise: `Err` carries what was raised. */
  datatype Result<+T, +E> = Ok(value: T) | Err(error: E)

  /** A prefix one element longer is the shorter prefix and that element. */
  lemma PrefixGrows<T>(s: seq<T>, i: nat)
    requires i < |s|
    ensures s[..i + 1] == s[..i] + [s[i]]
  {
  }
}

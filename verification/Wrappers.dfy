/** What several modules share: a value that may be missing, an outcome that may be an error, and
    the text of a SHA-256 digest. */
module Wrappers {

  datatype Option<T> = None | Some(value: T)

  datatype Result<T> = Ok(value: T) | Err(reason: string)

  predicate HexDigit(c: char) { '0' <= c <= '9' || 'a' <= c <= 'f' }

  /** Sixty-four lower-case hexadecimal digits. */
  predicate IsSha256(s: string) {
    |s| == 64 && forall k :: 0 <= k < |s| ==> HexDigit(s[k])
  }
}

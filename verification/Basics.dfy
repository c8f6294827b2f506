/** Vocabulary shared by every model: optional values, bytes and content digests. */
module Basics {

  datatype Option<+T> = None | Some(value: T)

  datatype Result<+T, +E> = Ok(value: T) | Err(error: E)

  /** File content. Nothing in the protocol depends on the range of a byte. */
  type Bytes = seq<int>

  /** A SHA-256 value. The free constructor says that no two contents share a digest. */
  datatype Digest = Sha256(content: Bytes)

  /** How a commit ends for its session: acknowledged, or raised without or after taking effect. */
  datatype Ending = Acked | RaisedBefore | RaisedAfter

  function Min(a: int, b: int): int {
    if a <= b then a else b
  }

  /** The first n bytes, or all of them when there are fewer. */
  function Prefix(content: Bytes, n: nat): Bytes {
    content[..Min(n, |content|)]
  }
}

/** Names shared by every part of the model. */
module Domain {

  datatype Option<+T> = None | Some(value: T)

  type byte = x: int | 0 <= x < 256
  type Bytes = seq<byte>

  type User = nat
  type Ticket = nat

  /** SHA-256 as a free symbol: distinct inputs give distinct digests. A link token is
      the identity of 32 random bytes; `OfReply(rid)` is the digest of "reply:" + rid.
      A public caller may name either kind, since the path segment is any string. */
  datatype Tid = OfToken(token: nat) | OfReply(rid: Tid)

  datatype Digest = Sha256(preimage: Bytes)
}

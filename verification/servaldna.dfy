/** Values from the servaldna client library that the feed code passes around.
    Java's nullable references become `Option`; thrown exceptions become `Result`. */
module Servaldna {

  datatype Option<+T> = None | Some(value: T)

  datatype Result<+T, +E> = Success(value: T) | Failure(error: E)

  /** A subscriber id (SID): the public identity of a node. */
  type Sid = seq<bv8>

  /** A signing key; a rhizome bundle id is one, so `BundleId` is an alias. */
  type SigningKey = seq<bv8>

  type BundleId = SigningKey

  /** `new Subscriber(sid, signingKey, combined)`; the key may be null in Java. */
  datatype Subscriber = Subscriber(sid: Sid, signingKey: Option<SigningKey>, combined: bool)
}

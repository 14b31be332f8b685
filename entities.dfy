// Scalar entities shared by the whole crate: fixed-width integers, UUIDs
// (section 4 of RFC 9562: a 128-bit value), user public ids and role ids.
module Entities {

  /** Rust's `u32`. */
  newtype u32 = x: int | 0 <= x < 0x1_0000_0000

  /** `uuid::Uuid`: a 128-bit value. Its text form is handled by the `Codec`. */
  newtype Uuid = x: int | 0 <= x < 0x1_0000_0000_0000_0000_0000_0000_0000_0000

  /** `Uuid::default()`, the nil UUID. */
  const NIL_UUID: Uuid := 0

  /** `UserPublicId`, built with `UserPublicId::from(req.userPubId)`. */
  datatype UserPublicId = UserPublicId(raw: int)

  /** A role id as stored on a connection (`Vec<u32>`). */
  type Role = u32
}

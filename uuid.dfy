/** Row identifiers: 128-bit UUIDs, drawn at random by the callers of this model. */
module Uuids {
  newtype Uuid = x: int | 0 <= x < 0x1_0000_0000_0000_0000_0000_0000_0000_0000
}

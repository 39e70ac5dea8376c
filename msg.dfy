/**
 * The fixed-size event record every ArduProf bus carries between threads,
 * and the C integer widths of its fields.
 */
module Msg {
  type int16 = x: int | -0x8000 <= x < 0x8000
  type uint16 = x: int | 0 <= x < 0x1_0000
  type int32 = x: int | -0x8000_0000 <= x < 0x8000_0000
  type uint32 = x: int | 0 <= x < 0x1_0000_0000
  type uint8 = x: int | 0 <= x < 0x100

  /** `Message{event, iParam, uParam, lParam}`; copied by value through every queue. */
  datatype Message = Message(event: int16, iParam: int16, uParam: uint16, lParam: uint32)

  /**
   * The record `postEvent(event, iParam, uParam, lParam)` enqueues; omitted
   * parameters default to 0, as in the C++ signatures.
   */
  function Post(event: int16, iParam: int16 := 0, uParam: uint16 := 0, lParam: uint32 := 0): Message
  {
    Message(event, iParam, uParam, lParam)
  }

  /** A C `bool` passed where an integer parameter is expected. */
  function BoolParam(b: bool): (r: uint16)
    ensures (r != 0) == b && r <= 1
  {
    if b then 1 else 0
  }

  /** The C conversion of an `int` to `uint32_t`: reduction modulo 2^32. */
  function ToUint32(x: int32): (r: uint32)
    ensures r % 0x1_0000_0000 == x % 0x1_0000_0000
    ensures 0 <= x ==> r == x
  {
    if x < 0 then x + 0x1_0000_0000 else x
  }

  /** The C conversion `(int)` of a `uint32_t` on a 32-bit target (two's complement). */
  function ToInt32(u: uint32): (r: int32)
    ensures ToUint32(r) == u
    ensures u < 0x8000_0000 ==> r == u
  {
    if u < 0x8000_0000 then u else u - 0x1_0000_0000
  }
}

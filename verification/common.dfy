/** The Option type and the fixed-width C integer types the firmware stores its values in. */
module Common {

  datatype Option<+T> = None | Some(value: T)

  type uint8 = x: int | 0 <= x < 0x100
  type uint16 = x: int | 0 <= x < 0x1_0000
  type uint32 = x: int | 0 <= x < 0x1_0000_0000

  /** 0xFFFFFFFF, which the firmware also writes as `(uint32_t)-1`. */
  const Uint32Max: uint32 := 0xFFFF_FFFF

  /** An integer converted to `uint32_t` (or to the 32-bit `unsigned long`): reduction modulo 2^32. */
  function AsUint32(x: int): uint32
  {
    x % 0x1_0000_0000
  }

  /** A `uint32_t` reinterpreted as `int32_t` (two's complement). */
  function AsInt32(u: uint32): (r: int)
    ensures -0x8000_0000 <= r < 0x8000_0000
    ensures AsUint32(r) == u
    ensures r == -1 <==> u == Uint32Max
    ensures r >= 0 <==> u < 0x8000_0000
  {
    if u < 0x8000_0000 then u else u - 0x1_0000_0000
  }

  /** The `int32_t` result of 32-bit arithmetic whose exact value is `x`: it wraps modulo 2^32 into -2^31..2^31-1. */
  function Int32Wrap(x: int): (r: int)
    ensures -0x8000_0000 <= r < 0x8000_0000
    ensures AsUint32(r) == AsUint32(x)
    ensures -0x8000_0000 <= x < 0x8000_0000 ==> r == x
  {
    AsInt32(AsUint32(x))
  }

  /** An integer converted to `uint8_t`: reduction modulo 256. */
  function AsUint8(x: int): uint8
  {
    x % 0x100
  }
}

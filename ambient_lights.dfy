/** Types and the configuration record declared in AmbientLights.h. */
module AmbientLights {

  /** `long` on the ESP8266 toolchain: 32-bit two's complement. */
  type Long = x: int | -0x8000_0000 <= x < 0x8000_0000

  /** `uint16_t`. */
  type U16 = x: int | 0 <= x < 0x1_0000

  /** `uint8_t`. */
  type U8 = x: int | 0 <= x < 0x100

  datatype Option<T> = None | Some(value: T)

  /** The value of the global `config` record (`config_t`), together with
      the `ap` flag that the channel page reads and writes. `mappingText` is
      the record's own `String mapping` field, which the channel page never
      touches; the mapping the page rebuilds is the separate global array. */
  datatype Config = Config(
    id: string,
    maxVal: Long,
    interVal: Long,
    slopeVal: Long,
    channelCount: U16,
    channelGamma: bool,
    zero: bool,
    ap: bool,
    mappingText: string)

  /** Assigning a `long` to a `uint16_t`: C reduces the value modulo 2^16. */
  function ToU16(x: int): (r: U16)
    ensures (x - r) % 0x1_0000 == 0
    ensures 0 <= x < 0x1_0000 ==> r == x
  {
    x % 0x1_0000
  }
}

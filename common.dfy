/** Value types shared by the sensor driver, the HID class and the firmware tasks. */
module Common {

  /** One byte on a wire: the source's `u8`. */
  type Byte = x: int | 0 <= x < 0x100

  /** The source's `u16` (setup-packet fields, descriptor lengths). */
  type U16 = x: int | 0 <= x < 0x1_0000

  /** The source's `i16` (motion deltas). */
  type I16 = x: int | -0x8000 <= x < 0x8000

  datatype Option<T> = None | Some(value: T)
}

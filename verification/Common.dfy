/** Small shared vocabulary. */
module Common {
  /** A value that may be absent; also used for "the call panicked" (None). */
  datatype Option<+T> = None | Some(value: T)

  type Byte = b: int | 0 <= b < 0x100
}

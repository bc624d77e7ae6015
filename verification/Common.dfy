/** Types that several programs share. */
module Common {
  datatype Option<+T> = None | Some(value: T)

  /** unsigned char */
  type Byte = b: int | 0 <= b < 256
}

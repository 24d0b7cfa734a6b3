/** Types that several modules share. */
module Common {

  /** A C `uint16_t`: a pitch in hertz (0 is a rest) or a length in ticks. */
  type uint16 = x: int | 0 <= x < 0x1_0000

  datatype Option<+T> = None | Some(value: T)
}

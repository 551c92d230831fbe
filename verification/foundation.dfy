/** The Foundation value types the core passes around. Dates and time
    intervals are whole seconds. */
module Foundation {
  newtype byte = b: int | 0 <= b < 256

  /** `Data`: bytes in order. */
  type Data = seq<byte>

  /** `Date`: seconds on the wall clock. */
  type Date = int

  /** `TimeInterval`: a signed number of seconds. */
  type TimeInterval = int
}

/** Types of the shared `packet/generic` module that the car-status and
    session records hold.  That module is not part of this model: a
    `WheelData` is the four per-wheel values in the order they are read,
    and a `Flag` is whatever the flag validator accepted. */
module Generic {
  import opened Wire

  datatype WheelData = WheelData(w0: u8, w1: u8, w2: u8, w3: u8)

  /** A validated flag state, kept as the signed code it was read from. */
  datatype Flag = Flag(code: i8)
}

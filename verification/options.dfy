/**
 * The user options the model calculation reads, the numeric constants it
 * uses, and the three ways a Java routine of the engine can end.
 */
module Options {

  /**
   * The fields of the user's model-calculation options that the frequency
   * filters and the topology selection read. Frequencies are in Hz.
   */
  datatype McOptions = McOptions(
    fMin: real,
    fMax: real,
    fMinAuto: bool,
    fMaxAuto: bool,
    modelAutoSelect: bool,
    modelID: int,
    nElementsMin: int,
    nElementsMax: int,
    nElementsMinAuto: bool,
    nElementsMaxAuto: bool)

  /** 2*pi as the double the engine multiplies with. */
  const TwoPi: real := 6.283185307179586

  /** The smallest positive double, added to lower band edges to cut 0 Hz. */
  const MinValue: real := 4.9e-324

  /** The largest 32-bit signed integer. */
  const IntMax: int := 0x7fff_ffff

  /**
   * How a routine that returns an array ends: with a value, with `null`,
   * or by throwing (an index out of bounds, a negative array size, or a
   * dereferenced `null`).
   */
  datatype Outcome<T> = Returned(value: T) | ReturnedNull | Throws

  /** A reference field that is `null` until it is first assigned. */
  datatype Option<T> = None | Some(value: T)
}

/** The optional value used wherever the games store `null` or `undefined`. */
module Options {
  datatype Option<T> = None | Some(value: T)

  /** A value of `Math.random()`: a real in [0, 1). */
  type Fraction = r: real | 0.0 <= r < 1.0
}

/** What several modules share. */
module Common {

  datatype Option<T> = None | Some(value: T)

  type byte = x: int | 0 <= x < 256

  const EPSILON := 0.000000001

  /** How prices are compared. It is not transitive. */
  predicate NearlyEqual(a: real, b: real) {
    if a > b then a - b < EPSILON else b - a < EPSILON
  }
}

/** The persisted best result: the highest level reached and when it was reached. */
module Records {

  /** `timestamp` is the `Date` as milliseconds since the epoch. Being a
      datatype, two records are equal exactly when both fields are. */
  datatype Record = Record(highScore: int, timestamp: int)

  /** The record of an installation that has never set one: score 0 at epoch 0. */
  const Default: Record := Record(0, 0)

  function Max(a: int, b: int): (m: int)
    ensures m >= a && m >= b
    ensures m == a || m == b
  {
    if a >= b then a else b
  }
}

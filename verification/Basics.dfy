/** Small value types shared by every module of the model. */
module Basics {

  /** Identifiers are the strings the stores use as keys. */
  type Id = string

  /** Instants are microseconds since 1970-01-01 UTC, money is micro-USD. */
  type Time = nat
  type Money = nat

  const SECOND: nat := 1_000_000
  const DAY: nat := 86_400_000_000

  datatype Option<+T> = None | Some(value: T)

  datatype Result<+T, +E> = Ok(value: T) | Err(error: E)

  function Max(a: int, b: int): int {
    if a < b then b else a
  }

  function Min(a: int, b: int): int {
    if a < b then a else b
  }

  /** Order of strings used by ORDER BY on identifiers. */
  predicate StringLess(a: string, b: string) {
    b != [] && (a == [] || a[0] < b[0] || (a[0] == b[0] && StringLess(a[1..], b[1..])))
  }
}

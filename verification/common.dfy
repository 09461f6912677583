/** Error conditions the library raises and the wrappers that carry them. */
module Common {

  /** One constructor per distinct exception the library raises. */
  datatype Error =
    | InvalidPin          // a GPIO number outside 0..27 (or not a number where one is needed)
    | SensorListMismatch  // trigger and echo pin lists of different lengths
    | DuplicatePin        // a sensor pin repeated within or across the two lists
    | InvalidDirection    // a motor direction other than "f" or "r"
    | InvalidServoNumber  // a servo number outside 1..8

  /** Completion of an operation that returns nothing: normal return or a raised error. */
  datatype Outcome = Pass | Fail(error: Error)

  /** Completion of an operation that builds a value. */
  datatype Result<T> = Success(value: T) | Failure(error: Error)

  /** The two maps agree at key `k`: both lack it, or both hold the same value there. */
  predicate SameAt<V(==)>(m1: map<int, V>, m2: map<int, V>, k: int)
  {
    (k in m1 <==> k in m2) && (k in m1 ==> m1[k] == m2[k])
  }
}

/** Small value types shared by the components of the model. */
module Common {

  /** A value that may be absent (a null pointer, an optional resource). */
  datatype Option<+T> = None | Some(value: T)

  /** The result of a check that either passes or fails with a reason. */
  datatype Outcome<+E> = Pass | Fail(error: E)

  /**
   * A varconf configuration variable as the config listeners see it:
   * either something that reads as a number (`is_double()`), or not.
   */
  datatype Variable = Numeric(number: real) | NonNumeric

  /** Concatenation is associative; called where a long chain of appends needs regrouping. */
  lemma ConcatAssociative<T>(a: seq<T>, b: seq<T>, c: seq<T>)
    ensures (a + b) + c == a + (b + c)
  {
  }

  /** C++'s conversion of a floating-point value to an integer: truncation toward zero. */
  function TruncateToInt(x: real): (r: int)
    ensures 0.0 <= x ==> r as real <= x < r as real + 1.0
    ensures x < 0.0 ==> r as real - 1.0 < x <= r as real
  {
    if 0.0 <= x then x.Floor else -((-x).Floor)
  }
}

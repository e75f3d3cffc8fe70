/** A value that may be undefined: pandas' NaN (and the non-finite results of a
    division by zero) become None, a finite value becomes Some. */
module Options {

  datatype Option<T> = None | Some(value: T)

  /** A comparison in which an undefined operand makes the answer false, as
      every comparison with NaN is false. */
  predicate GreaterThan(a: Option<real>, b: real)
  {
    a.Some? && a.value > b
  }

  predicate LessThan(a: Option<real>, b: real)
  {
    a.Some? && a.value < b
  }
}

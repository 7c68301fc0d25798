/**
 * The optional value used wherever the source holds a Python `None`, and
 * Python truthiness for the string values the source tests with `if` and `or`.
 */
module Wrappers {

  datatype Option<+T> = None | Some(value: T)

  /** A Python string is truthy exactly when it is not empty. */
  predicate Truthy(s: string)
  {
    s != ""
  }

  /** An optional Python string is truthy when it is not `None` and is itself truthy. */
  predicate TruthyOption(o: Option<string>)
  {
    o.Some? && Truthy(o.value)
  }
}

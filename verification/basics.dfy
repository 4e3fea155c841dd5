/** Shared by several components: optional values, and one fact about products of reals. */
module Basics {

  datatype Option<T> = None | Some(value: T)

  lemma NonNegative(a: real, b: real)
    requires a >= 0.0 && b >= 0.0
    ensures a * b >= 0.0
  {
  }
}

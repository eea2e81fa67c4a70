/** Failure-carrying datatypes shared by the form models. */
module Wrappers {

  /** A value that may be absent (an `undefined` field, a thrown parse). */
  datatype Option<+T> = None | Some(value: T)

  /** The outcome of a submission: a value, or the message shown to the user. */
  datatype Result<+T, +E> = Ok(value: T) | Err(error: E)
}

/**
 * The outcome of `parseInt` on a form field. The forms read every number
 * through `parseInt`, which yields an integer or `NaN`; `NaN` is `None` here.
 * Every ordered comparison involving `NaN` is false, which is what the two
 * predicates below say.
 */
module ParsedNumber {
  import opened Wrappers

  type Num = Option<int>

  /** `n < k` as JavaScript evaluates it. */
  predicate Below(n: Num, k: int) {
    n.Some? && n.value < k
  }

  /** `n > k` as JavaScript evaluates it. */
  predicate Above(n: Num, k: int) {
    n.Some? && n.value > k
  }

  /** `lo <= n && n <= hi` as JavaScript evaluates it. */
  predicate Within(n: Num, lo: int, hi: int) {
    n.Some? && lo <= n.value <= hi
  }
}

/** Failure-compatible values shared by every module. */
module Wrappers {

  datatype Option<+T> = None | Some(value: T)

  datatype Result<+R, +E> = Success(value: R) | Failure(error: E) {
    predicate IsFailure() {
      Failure?
    }

    function PropagateFailure<U>(): Result<U, E>
      requires Failure?
    {
      Failure(error)
    }

    function Extract(): R
      requires Success?
    {
      value
    }
  }

  /** Python's `text or default`: absent and empty text are both falsy. */
  function OrElse(text: Option<string>, default: string): string {
    if text.Some? && text.value != "" then text.value else default
  }

  function Min(a: nat, b: nat): nat {
    if a <= b then a else b
  }

  /** The first index whose item is a hit, or the length. */
  function FirstIndex<T>(items: seq<T>, hit: T -> bool): (i: nat)
    ensures i <= |items|
    ensures i < |items| ==> hit(items[i])
    ensures forall j :: 0 <= j < i ==> !hit(items[j])
  {
    if items == [] || hit(items[0]) then 0 else FirstIndex(items[1..], hit) + 1
  }
}

/** The stock optional value, for Go's nil pointers and missing map keys, and bags kept as sequences. */
module Wrappers {
  datatype Option<+T> = None | Some(value: T)

  /** The bag without one x. */
  function Without<T(==)>(bag: seq<T>, x: T): (r: seq<T>)
    requires x in bag
    ensures |r| == |bag| - 1
    ensures forall y :: y in r ==> y in bag
    ensures forall y :: y in bag && y != x ==> y in r
  {
    if bag[0] == x then bag[1..] else [bag[0]] + Without(bag[1..], x)
  }
}

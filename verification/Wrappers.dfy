/** What the other modules share. */
module Wrappers {
  datatype Option<+T> = None | Some(value: T)

  /** A sequence without one of its elements. */
  function Drop<T>(xs: seq<T>, i: nat): (r: seq<T>)
    requires i < |xs|
    ensures |r| == |xs| - 1
  {
    xs[..i] + xs[i + 1..]
  }
}

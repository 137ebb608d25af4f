/** A run of a solver as the sequence of its steps. */
module Runs {
  function Last<T>(h: seq<T>): (s: T)
    requires h != []
  {
    h[|h| - 1]
  }

  function Init<T>(h: seq<T>): (i: seq<T>)
    requires h != []
    ensures |i| == |h| - 1
  {
    h[..|h| - 1]
  }
}

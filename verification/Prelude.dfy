/**
 What several modules use.
 */
module Prelude {

  // in nanoseconds
  const ONE_DAY: nat := 86400000000000

  datatype Option<+T> = None | Some(value: T)

  /** `f`, except at `k`. */
  function Put<V>(f: nat -> V, k: nat, v: V): nat -> V {
    (x: nat) => if x == k then v else f(x)
  }

  /** All parts, one after the other. */
  function Concat<T>(parts: seq<seq<T>>): seq<T> {
    if parts == [] then [] else Concat(parts[..|parts| - 1]) + parts[|parts| - 1]
  }
}

/** Small definitions shared by the other modules. */
module Basics {

  datatype Option<+T> = None | Some(value: T)

  datatype Result<+T, +E> = Ok(value: T) | Err(error: E)

  function Max(a: int, b: int): int {
    if a < b then b else a
  }

  function Min(a: int, b: int): int {
    if a < b then a else b
  }

  /** The last `n` elements of a sequence, or all of it when it is shorter. */
  function LastN<T>(s: seq<T>, n: nat): seq<T> {
    if |s| <= n then s else s[|s| - n..]
  }

  lemma LastNAppend<T>(s: seq<T>, x: T, n: nat)
    requires n >= 1
    ensures LastN(s + [x], n) ==
            if |LastN(s, n)| == n then LastN(s, n)[1..] + [x] else LastN(s, n) + [x]
  {
  }

  function Elements<T>(s: seq<T>): set<T> {
    set x | x in s
  }

  predicate Distinct<T(==)>(s: seq<T>) {
    forall i, j :: 0 <= i < j < |s| ==> s[i] != s[j]
  }
}

/** Integers and lists of lists, as several modules need them. */
module Arithmetic {

  /** The greatest 32-bit integer. */
  const MAX_INT := 2_147_483_647

  function Min(a: int, b: int): int { if a <= b then a else b }

  function Max(a: int, b: int): int { if a >= b then a else b }

  lemma SmallMultiple(e: int, q: int)
    requires -q < e * q < q
    ensures e == 0
  {
  }

  function Joined<T>(lists: seq<seq<T>>): seq<T> {
    if lists == [] then [] else lists[0] + Joined(lists[1..])
  }
}

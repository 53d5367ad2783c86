/** The enumeration orders the registry's test suite observes after each
    burn, derived from the swap-and-pop step that `BurnEnumerations` and
    `TransferEnumerations` establish for every burn and transfer. */
module Scenarios {
  import opened EnumerableSet

  /** The global list: ids 1 to 5 minted in order; burning 1 and then 2
      leaves [5, 4, 3]; after minting 6 and 7, burning 6 leaves [5, 4, 3, 7]. */
  lemma LiveOrderOfTest(t1: seq<nat>, t2: seq<nat>, t3: seq<nat>)
    requires SwappedOut([1, 2, 3, 4, 5], 1, t1) && SwappedOut(t1, 2, t2)
    requires SwappedOut(t2 + [6, 7], 6, t3)
    ensures t2 == [5, 4, 3]
    ensures t3 == [5, 4, 3, 7]
  {
    assert t1 == [5, 2, 3, 4];
  }

  /** The holders' lists: the first holder's [1, 4] loses 1, gains 6 and
      loses 6 again; the second holder's [2] loses 2 and gains 7. */
  lemma OwnedOrderOfTest(a1: seq<nat>, a2: seq<nat>, b1: seq<nat>)
    requires SwappedOut([1, 4], 1, a1) && SwappedOut(a1 + [6], 6, a2)
    requires SwappedOut([2], 2, b1)
    ensures a1 == [4] && a2 == [4]
    ensures b1 + [7] == [7]
  {
  }
}

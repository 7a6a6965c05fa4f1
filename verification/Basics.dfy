/** Notions that several components share. */
module Basics {
  /** A JavaScript number that `BigInt` accepts. */
  predicate IsInteger(t: real) {
    t.Floor as real == t
  }

  lemma WholeNumbersAreIntegers(n: int)
    ensures IsInteger(n as real)
  {
  }

  lemma IntegersAreWhole(t: real) returns (n: int)
    requires IsInteger(t)
    ensures t == n as real
  {
    n := t.Floor;
  }

  ghost predicate NoDuplicates<T(!new)>(xs: seq<T>) {
    forall i, j | 0 <= i < j < |xs| :: xs[i] != xs[j]
  }
}

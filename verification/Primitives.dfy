/** Paxos primitive types: identifiers, ordered pairs of identifiers, and the comparison functions every
    sorted list and every ballot test in the system is built on. */
module Primitives {

  datatype Option<+T> = None | Some(value: T)

  /** A `ppair_t`: the participant it belongs to, and a generation number.  Ballots and request identifiers
      are both such pairs. */
  datatype Pair = Pair(id: nat, gen: nat)

  type Ballot = Pair
  type ReqId = Pair

  /** `paxid_compare` */
  function PaxidCompare(x: nat, y: nat): int {
    if x < y then -1 else if x > y then 1 else 0
  }

  /** `ppair_compare`: the generation decides, and among equal generations the LOWER participant ranks
      higher. */
  function PairCompare(x: Pair, y: Pair): int {
    var r := PaxidCompare(x.gen, y.gen);
    if r != 0 then r else PaxidCompare(y.id, x.id)
  }

  /** Ballot x is strictly lower than ballot y. */
  predicate Below(x: Ballot, y: Ballot) {
    x.gen < y.gen || (x.gen == y.gen && y.id < x.id)
  }

  /** The comparison callback decides exactly that order. */
  lemma CompareMeaning(x: Ballot, y: Ballot)
    ensures PairCompare(x, y) < 0 <==> Below(x, y)
    ensures PairCompare(x, y) == 0 <==> x == y
    ensures PairCompare(x, y) > 0 <==> Below(y, x)
  {
    assert x == Pair(x.id, x.gen) && y == Pair(y.id, y.gen);
  }

  /** What the list factory's containers ask of a comparison callback: it separates distinct keys and orders them
      totally. */
  ghost predicate TotalOrder<K(!new)>(compare: (K, K) -> int) {
    && (forall x, y :: compare(x, y) == 0 <==> x == y)
    && (forall x, y :: compare(x, y) < 0 <==> compare(y, x) > 0)
    && (forall x, y, z :: compare(x, y) < 0 && compare(y, z) < 0 ==> compare(x, z) < 0)
  }

  lemma PaxidOrder()
    ensures TotalOrder(PaxidCompare)
  {
  }

  /** The reversed comparison on participants still leaves pairs totally ordered. */
  lemma PairOrder()
    ensures TotalOrder(PairCompare)
  {
    forall x: Pair, y: Pair
      ensures PairCompare(x, y) == 0 <==> x == y
    {
      assert x == Pair(x.id, x.gen) && y == Pair(y.id, y.gen);
    }
  }

  lemma SubsetCard(a: set<nat>, b: set<nat>)
    requires a <= b
    ensures |a| <= |b|
  {
    assert b == a + (b - a);
  }
}

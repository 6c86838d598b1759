/** Paxos instances as the instance list holds them, and the log of slots such a list stands for. */
module Instances {
  import opened Primitives
  import opened DecreeLog
  import opened IntrusiveList
  import SortedList

  /** A `paxos_instance`. */
  datatype Instance = Instance(inum: nat, ballot: Ballot, value: Value,
                               committed: bool, cached: bool, learned: bool, votes: nat, rejects: nat)

  /** The header's instance number: the key of instance lists. */
  function Inum(x: Instance): nat { x.inum }

  /** The part of an instance the protocol speaks about. */
  function SlotOf(x: Instance): Slot {
    Slot(x.ballot, x.value, x.committed, x.votes)
  }

  ghost predicate Sorted(xs: seq<Instance>) {
    forall i, j {:trigger xs[i], xs[j]} :: 0 <= i < j < |xs| ==> xs[i].inum < xs[j].inum
  }

  lemma SortedIsOrdered(xs: seq<Instance>)
    ensures Sorted(xs) <==> SortedList.Ordered(xs, Inum, PaxidCompare)
  {
  }

  ghost predicate Numbered(xs: seq<Instance>, n: nat) {
    exists x :: x in xs && x.inum == n
  }

  /** The instance numbered n. */
  ghost function Find(xs: seq<Instance>, n: nat): (x: Instance)
    requires Numbered(xs, n)
    ensures x in xs && x.inum == n
  {
    var x :| x in xs && x.inum == n;
    x
  }

  /** A search that ends at the place of n has found it or the place where it fits. */
  lemma PlaceFits(xs: seq<Instance>, k: nat, n: nat)
    requires SortedList.Place(xs, k, n, Inum, PaxidCompare)
    ensures Fits(xs, k, n) || (k < |xs| && xs[k].inum == n)
  {
  }

  /** The log an instance list stands for. */
  ghost function LogOf(xs: seq<Instance>): (log: Log)
    requires Sorted(xs)
    ensures forall x {:trigger x in xs} :: x in xs ==> x.inum in log && log[x.inum] == SlotOf(x)
    ensures forall n {:trigger n in log} :: n in log ==> Numbered(xs, n)
  {
    map n | n in (set x | x in xs :: x.inum) :: SlotOf(Find(xs, n))
  }

  /** The place of a number in the log. */
  lemma PlaceOf(xs: seq<Instance>, n: nat) returns (j: nat)
    requires Sorted(xs) && n in LogOf(xs)
    ensures j < |xs| && xs[j].inum == n && LogOf(xs)[n] == SlotOf(xs[j])
  {
    hide LogOf, Sorted;
    var x := Find(xs, n);
    j :| 0 <= j < |xs| && xs[j] == x;
  }

  /** It is the only log that shows exactly those instances. */
  lemma OneLog(xs: seq<Instance>, log: Log)
    requires Sorted(xs)
    requires forall x {:trigger x in xs} :: x in xs ==> x.inum in log && log[x.inum] == SlotOf(x)
    requires forall n {:trigger n in log} :: n in log ==> Numbered(xs, n)
    ensures log == LogOf(xs)
  {
    hide Sorted, LogOf;
    forall n | n in log ensures n in LogOf(xs) && log[n] == LogOf(xs)[n] {
      assert Find(xs, n) in xs;
    }
    forall n | n in LogOf(xs) ensures n in log {
      assert Find(xs, n) in xs;
    }
  }

  /** k is where the number n belongs. */
  ghost predicate Fits(xs: seq<Instance>, k: nat, n: nat) {
    k <= |xs| && (k > 0 ==> xs[k - 1].inum < n) && (k < |xs| ==> n < xs[k].inum)
  }

  lemma InsertSorted(xs: seq<Instance>, k: nat, x: Instance)
    requires Sorted(xs) && Fits(xs, k, x.inum)
    ensures Sorted(InsertAt(xs, k, x)) && forall y :: y in xs ==> y.inum != x.inum
  {
    assert forall i {:trigger xs[i]} :: 0 <= i < k ==> xs[i].inum < x.inum;
    assert forall i {:trigger xs[i]} :: k <= i < |xs| ==> x.inum < xs[i].inum;
  }

  lemma InsertMembers<T>(xs: seq<T>, k: nat, x: T)
    requires k <= |xs|
    ensures forall y :: y in InsertAt(xs, k, x) <==> y in xs || y == x
  {
  }

  /** A new instance at its place adds one slot. */
  lemma LogInsert(xs: seq<Instance>, k: nat, x: Instance)
    requires Sorted(xs) && Fits(xs, k, x.inum)
    ensures Sorted(InsertAt(xs, k, x)) && x.inum !in LogOf(xs)
    ensures LogOf(InsertAt(xs, k, x)) == LogOf(xs)[x.inum := SlotOf(x)]
  {
    InsertSorted(xs, k, x);
    InsertMembers(xs, k, x);
    hide Sorted, InsertAt, Fits, LogOf;
    var ys, log := InsertAt(xs, k, x), LogOf(xs)[x.inum := SlotOf(x)];
    assert x in ys;
    forall n | n in log ensures Numbered(ys, n) {
      if n != x.inum {
        assert Find(xs, n) in ys;
      }
    }
    OneLog(ys, log);
  }

  lemma UpdateMembers(xs: seq<Instance>, k: nat, x: Instance)
    requires Sorted(xs) && k < |xs| && x.inum == xs[k].inum
    ensures Sorted(xs[k := x]) && forall y :: y in xs[k := x] <==> (y in xs && y.inum != x.inum) || y == x
  {
    var ys := xs[k := x];
    forall y ensures y in ys <==> (y in xs && y.inum != x.inum) || y == x {
      if y in xs && y.inum != x.inum {
        var i :| 0 <= i < |xs| && xs[i] == y;
        assert ys[i] == y;
      }
      if y in ys && y != x {
        var i :| 0 <= i < |ys| && ys[i] == y;
        assert xs[i] == y;
      }
      assert ys[k] == x;
    }
  }

  /** Overwriting an instance changes one slot. */
  lemma LogUpdate(xs: seq<Instance>, k: nat, x: Instance)
    requires Sorted(xs) && k < |xs| && x.inum == xs[k].inum
    ensures Sorted(xs[k := x]) && LogOf(xs[k := x]) == LogOf(xs)[x.inum := SlotOf(x)]
    ensures x.inum in LogOf(xs) && LogOf(xs)[x.inum] == SlotOf(xs[k])
  {
    UpdateMembers(xs, k, x);
    hide Sorted, LogOf;
    var ys, log := xs[k := x], LogOf(xs)[x.inum := SlotOf(x)];
    assert xs[k] in xs && x in ys;
    forall n | n in log ensures Numbered(ys, n) {
      if n != x.inum {
        assert Find(xs, n) in ys;
      }
    }
    OneLog(ys, log);
  }

  /** Marks that are not part of the slot leave the log alone. */
  lemma LogSame(xs: seq<Instance>, k: nat, x: Instance)
    requires Sorted(xs) && k < |xs| && x.inum == xs[k].inum && SlotOf(x) == SlotOf(xs[k])
    ensures Sorted(xs[k := x]) && LogOf(xs[k := x]) == LogOf(xs)
  {
    hide Sorted, LogOf;
    LogUpdate(xs, k, x);
  }

  /** Where a number belongs it is missing, and where it is found its slot is. */
  lemma LogAt(xs: seq<Instance>, k: nat, n: nat)
    requires Sorted(xs)
    ensures Fits(xs, k, n) ==> n !in LogOf(xs)
    ensures k < |xs| && xs[k].inum == n ==> n in LogOf(xs) && LogOf(xs)[n] == SlotOf(xs[k])
  {
    if Fits(xs, k, n) {
      InsertSorted(xs, k, Instance(n, Pair(0, 0), Value(Null, Pair(0, 0), 0), false, false, false, 0, 0));
    }
  }
}

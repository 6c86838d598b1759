/** Lists kept in strict key order, as the list factory makes them: search that stops early, and insertion at the
    key's place, each available from either end. */
module SortedList {
  import opened Primitives
  import opened IntrusiveList

  // ---------------------------------------------------------------- sequences in key order

  ghost predicate Ordered<T(!new), K(!new)>(xs: seq<T>, key: T -> K, compare: (K, K) -> int) {
    forall i, j {:trigger xs[i], xs[j]} :: 0 <= i < j < |xs| ==> compare(key(xs[i]), key(xs[j])) < 0
  }

  /** k is the place of id: the element before it is lower, the one there is not. */
  ghost predicate Place<T(!new), K(!new)>(xs: seq<T>, k: nat, id: K, key: T -> K, compare: (K, K) -> int) {
    && k <= |xs|
    && (k > 0 ==> compare(key(xs[k - 1]), id) < 0)
    && (k < |xs| ==> compare(id, key(xs[k])) <= 0)
  }

  /** The sequence maps id to x. */
  ghost predicate Maps<T(!new), K(!new)>(xs: seq<T>, id: K, x: T, key: T -> K) {
    x in xs && key(x) == id
  }

  /** It is a map: no key has two elements. */
  lemma OneElement<T(!new), K(!new)>(xs: seq<T>, id: K, x: T, y: T, key: T -> K, compare: (K, K) -> int)
    requires TotalOrder(compare) && Ordered(xs, key, compare) && Maps(xs, id, x, key) && Maps(xs, id, y, key)
    ensures x == y
  {
  }

  lemma Flip<K(!new)>(x: K, y: K, compare: (K, K) -> int)
    requires TotalOrder(compare)
    ensures compare(x, y) > 0 <==> compare(y, x) < 0
    ensures compare(x, y) == 0 <==> x == y
    ensures compare(x, x) == 0
  {
  }

  lemma Adjacent<T(!new), K(!new)>(xs: seq<T>, k: nat, key: T -> K, compare: (K, K) -> int)
    requires Ordered(xs, key, compare) && k < |xs|
    ensures k > 0 ==> compare(key(xs[k - 1]), key(xs[k])) < 0
  {
  }

  /** Everything before the place of id sorts before it, everything after the place behind it. */
  lemma PlaceSplits<T(!new), K(!new)>(xs: seq<T>, k: nat, id: K, key: T -> K, compare: (K, K) -> int)
    requires TotalOrder(compare) && Ordered(xs, key, compare) && Place(xs, k, id, key, compare)
    ensures forall i {:trigger xs[i]} :: 0 <= i < k ==> compare(key(xs[i]), id) < 0
    ensures forall i {:trigger xs[i]} :: k < i < |xs| ==> compare(id, key(xs[i])) < 0
  {
  }

  /** The key id is mapped exactly if it is found at its place. */
  lemma FoundAtPlace<T(!new), K(!new)>(xs: seq<T>, k: nat, id: K, x: T, key: T -> K, compare: (K, K) -> int)
    requires TotalOrder(compare) && Ordered(xs, key, compare) && Place(xs, k, id, key, compare)
    ensures Maps(xs, id, x, key) <==> k < |xs| && xs[k] == x && key(x) == id
  {
    PlaceSplits(xs, k, id, key, compare);
  }

  /** A key has one place only, whichever end the search starts from. */
  lemma OnePlace<T(!new), K(!new)>(xs: seq<T>, k: nat, l: nat, id: K, key: T -> K, compare: (K, K) -> int)
    requires TotalOrder(compare) && Ordered(xs, key, compare)
    requires Place(xs, k, id, key, compare) && Place(xs, l, id, key, compare)
    ensures k == l
  {
  }

  /** Putting an element with a new key at its place keeps the order... */
  lemma InsertOrdered<T(!new), K(!new)>(xs: seq<T>, k: nat, x: T, key: T -> K, compare: (K, K) -> int)
    requires TotalOrder(compare) && Ordered(xs, key, compare) && Place(xs, k, key(x), key, compare)
    requires k < |xs| ==> compare(key(x), key(xs[k])) < 0
    ensures Ordered(InsertAt(xs, k, x), key, compare)
  {
    hide TotalOrder;
    PlaceSplits(xs, k, key(x), key, compare);
  }

  /** ...and adds exactly that entry to the map. */
  lemma InsertEntry<T(!new), K(!new)>(xs: seq<T>, k: nat, x: T, key: T -> K, id: K, y: T)
    requires k <= |xs|
    ensures Maps(InsertAt(xs, k, x), id, y, key) <==> Maps(xs, id, y, key) || (y == x && key(x) == id)
  {
  }

  /** Removing an element takes exactly its entry out of the map. */
  lemma RemoveEntry<T(!new), K(!new)>(xs: seq<T>, k: nat, key: T -> K, compare: (K, K) -> int, id: K, y: T)
    requires TotalOrder(compare) && Ordered(xs, key, compare) && k < |xs|
    ensures Ordered(RemoveAt(xs, k), key, compare)
    ensures Maps(RemoveAt(xs, k), id, y, key) <==> Maps(xs, id, y, key) && id != key(xs[k])
  {
  }

  // ---------------------------------------------------------------- find

  ghost predicate Keyed<T(!new), K(!new)>(list: List<T>, key: T -> K, compare: (K, K) -> int)
    reads list, list.links
  {
    list.Valid() && TotalOrder(compare) && Ordered(list.Elts(), key, compare)
  }

  /** `LIST_IMPLEMENT_FIND`, searching from the front. */
  method FindFwd<T(!new), K(!new, ==)>(list: List<T>, id: K, key: T -> K, compare: (K, K) -> int)
    returns (r: Link?<T>, ghost k: nat)
    requires Keyed(list, key, compare)
    ensures Place(list.Elts(), k, id, key, compare)
    ensures r != null ==> k < |list.links| && r == list.links[k] && key(r.elt) == id
    ensures r == null ==> forall x :: x in list.Elts() ==> key(x) != id
  {
    hide Ordered, TotalOrder, Vals;
    ghost var xs := list.Elts();
    k := 0;
    r := list.first;
    while r != null
      invariant k <= |xs|
      invariant r == if k < |xs| then list.links[k] else null
      invariant k > 0 ==> compare(key(xs[k - 1]), id) < 0
      decreases |xs| - k
    {
      var cmp := compare(id, key(r.elt));
      Flip(id, key(r.elt), compare);
      if cmp == 0 {
        return;
      } else if cmp < 0 {
        break;
      }
      r := r.next;
      k := k + 1;
    }
    Missing(xs, k, id, key, compare);
    r := null;
  }

  lemma Missing<T(!new), K(!new)>(xs: seq<T>, k: nat, id: K, key: T -> K, compare: (K, K) -> int)
    requires TotalOrder(compare) && Ordered(xs, key, compare) && Place(xs, k, id, key, compare)
    requires k < |xs| ==> compare(id, key(xs[k])) < 0
    ensures forall x :: x in xs ==> key(x) != id
  {
    forall x | x in xs ensures key(x) != id {
      FoundAtPlace(xs, k, id, x, key, compare);
    }
  }

  /** `LIST_IMPLEMENT_FIND`, searching from the back. */
  method FindRev<T(!new), K(!new, ==)>(list: List<T>, id: K, key: T -> K, compare: (K, K) -> int)
    returns (r: Link?<T>, ghost k: nat)
    requires Keyed(list, key, compare)
    ensures Place(list.Elts(), k, id, key, compare)
    ensures r != null ==> k < |list.links| && r == list.links[k] && key(r.elt) == id
    ensures r == null ==> forall x :: x in list.Elts() ==> key(x) != id
  {
    hide Ordered, TotalOrder, Vals;
    ghost var xs := list.Elts();
    k := |xs|;
    r := list.last;
    while r != null
      invariant k <= |xs|
      invariant r == if k > 0 then list.links[k - 1] else null
      invariant k < |xs| ==> compare(id, key(xs[k])) < 0
      decreases k
    {
      var cmp := compare(id, key(r.elt));
      Flip(id, key(r.elt), compare);
      if cmp == 0 {
        k := k - 1;
        Adjacent(xs, k, key, compare);
        return;
      } else if cmp > 0 {
        break;
      }
      r := r.prev;
      k := k - 1;
    }
    Missing(xs, k, id, key, compare);
    r := null;
  }

  // ---------------------------------------------------------------- insert

  /** Insert in front of it, or at the tail if there is no it. */
  method PutBefore<T>(list: List<T>, it: Link?<T>, elm: Link<T>, ghost k: nat)
    requires list.Valid() && elm !in list.links && k <= |list.links|
    requires it == if k < |list.links| then list.links[k] else null
    modifies list, list.links`next, list.links`prev, elm`next, elm`prev
    ensures list.Valid() && list.links == InsertAt(old(list.links), k, elm)
    ensures list.Elts() == InsertAt(old(list.Elts()), k, elm.elt)
  {
    hide Vals, List.Valid, InsertAt;
    ValsInsert(list.links, k, elm);
    if it != null {
      list.InsertBefore(it, elm, k);
    } else {
      list.InsertTail(elm);
    }
  }

  /** Insert behind it, or at the head if there is no it. */
  method PutAfter<T>(list: List<T>, it: Link?<T>, elm: Link<T>, ghost k: nat)
    requires list.Valid() && elm !in list.links && k <= |list.links|
    requires it == if k > 0 then list.links[k - 1] else null
    modifies list, list.links`next, list.links`prev, elm`next, elm`prev
    ensures list.Valid() && list.links == InsertAt(old(list.links), k, elm)
    ensures list.Elts() == InsertAt(old(list.Elts()), k, elm.elt)
  {
    hide Vals, List.Valid, InsertAt;
    ValsInsert(list.links, k, elm);
    if it != null {
      list.InsertAfter(it, elm, k - 1);
    } else {
      list.InsertHead(elm);
    }
  }

  /** `LIST_IMPLEMENT_INSERT`, searching from the front: the element with that key if there is one, otherwise
      elm, now at its place. */
  method InsertFwd<T(!new), K(!new, ==)>(list: List<T>, elm: Link<T>, key: T -> K, compare: (K, K) -> int)
    returns (r: Link<T>, ghost k: nat)
    requires Keyed(list, key, compare) && elm !in list.links
    modifies list, list.links`next, list.links`prev, elm`next, elm`prev
    ensures Keyed(list, key, compare) && Place(old(list.Elts()), k, key(elm.elt), key, compare)
    ensures k < |list.links| && r == list.links[k] && key(r.elt) == key(elm.elt)
    ensures r != elm ==> list.links == old(list.links)
    ensures r == elm ==> list.links == InsertAt(old(list.links), k, elm)
    ensures r == elm <==> forall x :: x in old(list.Elts()) ==> key(x) != key(elm.elt)
  {
    hide Ordered, TotalOrder, Vals, List.Valid, List.Elts, InsertAt;
    ghost var xs := list.Elts();
    list.EltsAt();
    list.Ends();
    var it := list.first;
    k := 0;
    while it != null
      invariant k <= |xs|
      invariant it == if k < |xs| then list.links[k] else null
      invariant k > 0 ==> compare(key(xs[k - 1]), key(elm.elt)) < 0
      modifies {}
      decreases |xs| - k
    {
      list.Around(k);
      Flip(key(elm.elt), key(it.elt), compare);
      if compare(key(elm.elt), key(it.elt)) <= 0 {
        break;
      }
      it := it.next;
      k := k + 1;
    }
    if it != null && compare(key(elm.elt), key(it.elt)) == 0 {
      Flip(key(elm.elt), key(it.elt), compare);
      assert it.elt in xs;
      return it, k;
    }
    InsertOrdered(xs, k, elm.elt, key, compare);
    Missing(xs, k, key(elm.elt), key, compare);
    PutBefore(list, it, elm, k);
    r := elm;
  }

  /** `LIST_IMPLEMENT_INSERT`, searching from the back. */
  method InsertRev<T(!new), K(!new, ==)>(list: List<T>, elm: Link<T>, key: T -> K, compare: (K, K) -> int)
    returns (r: Link<T>, ghost k: nat)
    requires Keyed(list, key, compare) && elm !in list.links
    modifies list, list.links`next, list.links`prev, elm`next, elm`prev
    ensures Keyed(list, key, compare) && Place(old(list.Elts()), k, key(elm.elt), key, compare)
    ensures k < |list.links| && r == list.links[k] && key(r.elt) == key(elm.elt)
    ensures r != elm ==> list.links == old(list.links)
    ensures r == elm ==> list.links == InsertAt(old(list.links), k, elm)
    ensures r == elm <==> forall x :: x in old(list.Elts()) ==> key(x) != key(elm.elt)
  {
    hide Ordered, TotalOrder, Vals, List.Valid, List.Elts, InsertAt;
    ghost var xs := list.Elts();
    list.EltsAt();
    list.Ends();
    var it := list.last;
    k := |xs|;
    while it != null
      invariant k <= |xs|
      invariant it == if k > 0 then list.links[k - 1] else null
      invariant k < |xs| ==> compare(key(elm.elt), key(xs[k])) < 0
      modifies {}
      decreases k
    {
      list.Around(k - 1);
      Flip(key(elm.elt), key(it.elt), compare);
      if compare(key(elm.elt), key(it.elt)) >= 0 {
        break;
      }
      it := it.prev;
      k := k - 1;
    }
    if it != null && compare(key(elm.elt), key(it.elt)) == 0 {
      k := k - 1;
      Flip(key(elm.elt), key(it.elt), compare);
      Adjacent(xs, k, key, compare);
      assert it.elt in xs;
      return it, k;
    }
    InsertOrdered(xs, k, elm.elt, key, compare);
    Missing(xs, k, key(elm.elt), key, compare);
    PutAfter(list, it, elm, k);
    r := elm;
  }
}

/** Doubly linked lists embedded in their elements.  In the C code the list head doubles as the sentinel both ends
    point to; here null plays that part. */
module IntrusiveList {

  /** s with x put in at position k. */
  ghost function InsertAt<T>(s: seq<T>, k: nat, x: T): (r: seq<T>)
    requires k <= |s|
    ensures |r| == |s| + 1
    ensures forall i {:trigger r[i]} :: 0 <= i < |r| ==> r[i] == if i < k then s[i] else if i == k then x else s[i - 1]
  {
    s[..k] + [x] + s[k..]
  }

  /** s without position k. */
  ghost function RemoveAt<T>(s: seq<T>, k: nat): (r: seq<T>)
    requires k < |s|
    ensures |r| == |s| - 1
    ensures forall i {:trigger r[i]} :: 0 <= i < |r| ==> r[i] == if i < k then s[i] else s[i + 1]
  {
    s[..k] + s[k + 1..]
  }

  /** An element together with its list entry. */
  class Link<T> {
    var elt: T
    var next: Link?<T>
    var prev: Link?<T>

    constructor (elt: T)
      ensures this.elt == elt && next == null && prev == null
    {
      this.elt := elt;
      next, prev := null, null;
    }
  }

  /** The elements the links hold. */
  ghost function Vals<T>(links: seq<Link<T>>): (r: seq<T>)
    reads links`elt
    ensures |r| == |links|
    ensures forall i {:trigger r[i]} {:trigger links[i]} :: 0 <= i < |r| ==> r[i] == links[i].elt
  {
    if links == [] then [] else Vals(links[..|links| - 1]) + [links[|links| - 1].elt]
  }

  lemma ValsInsert<T>(links: seq<Link<T>>, k: nat, elm: Link<T>)
    requires k <= |links|
    ensures Vals(InsertAt(links, k, elm)) == InsertAt(Vals(links), k, elm.elt)
  {
    hide Vals;
  }

  class List<T> {
    var first: Link?<T>
    var last: Link?<T>
    var count: nat
    /** The links in list order. */
    ghost var links: seq<Link<T>>

    ghost predicate Valid()
      reads this, links`next, links`prev
    {
      && count == |links|
      && first == (if links == [] then null else links[0])
      && last == (if links == [] then null else links[|links| - 1])
      && (forall i {:trigger links[i].next} :: 0 <= i < |links| ==>
            links[i].next == if i + 1 < |links| then links[i + 1] else null)
      && (forall i {:trigger links[i].prev} :: 0 <= i < |links| ==>
            links[i].prev == if i > 0 then links[i - 1] else null)
      && (forall i, j {:trigger links[i], links[j]} :: 0 <= i < j < |links| ==> links[i] != links[j])
    }

    /** The elements in list order. */
    ghost function Elts(): seq<T>
      reads this`links, links`elt
    {
      Vals(links)
    }

    lemma EltsAt()
      ensures |Elts()| == |links|
      ensures forall i {:trigger links[i]} :: 0 <= i < |links| ==> Elts()[i] == links[i].elt
    {
    }

    /** Where the pointers of a list lead. */
    lemma Ends()
      requires Valid()
      ensures first == if links == [] then null else links[0]
      ensures last == if links == [] then null else links[|links| - 1]
      ensures count == |links|
    {
    }

    lemma Around(k: nat)
      requires Valid() && k < |links|
      ensures links[k].next == if k + 1 < |links| then links[k + 1] else null
      ensures links[k].prev == if k > 0 then links[k - 1] else null
    {
    }

    /** Overwrite the element in place k. */
    method Store(link: Link<T>, x: T, ghost k: nat)
      requires Valid() && k < |links| && links[k] == link
      modifies link`elt
      ensures Valid() && Elts() == old(Elts())[k := x]
    {
      link.elt := x;
      assert Elts() == old(Elts())[k := x];
    }

    /** `LIST_INIT` */
    constructor ()
      ensures Valid() && links == []
    {
      first, last, count := null, null, 0;
      links := [];
    }

    /** `LIST_INSERT_AFTER`: at is the link numbered k. */
    method InsertAfter(at: Link<T>, elm: Link<T>, ghost k: nat)
      requires Valid() && k < |links| && links[k] == at && elm !in links
      modifies this, links`next, links`prev, elm`next, elm`prev
      ensures Valid() && links == InsertAt(old(links), k + 1, elm)
    {
      elm.next := at.next;
      elm.prev := at;
      if at.next == null {
        last := elm;
      } else {
        at.next.prev := elm;
      }
      at.next := elm;
      count := count + 1;
      links := InsertAt(links, k + 1, elm);
    }

    /** `LIST_INSERT_BEFORE` */
    method InsertBefore(at: Link<T>, elm: Link<T>, ghost k: nat)
      requires Valid() && k < |links| && links[k] == at && elm !in links
      modifies this, links`next, links`prev, elm`next, elm`prev
      ensures Valid() && links == InsertAt(old(links), k, elm)
    {
      elm.next := at;
      elm.prev := at.prev;
      if at.prev == null {
        first := elm;
      } else {
        at.prev.next := elm;
      }
      at.prev := elm;
      count := count + 1;
      links := InsertAt(links, k, elm);
    }

    /** `LIST_INSERT_HEAD` */
    method InsertHead(elm: Link<T>)
      requires Valid() && elm !in links
      modifies this, links`prev, elm`next, elm`prev
      ensures Valid() && links == InsertAt(old(links), 0, elm)
    {
      elm.next := first;
      elm.prev := null;
      if last == null {
        last := elm;
      } else {
        first.prev := elm;
      }
      first := elm;
      count := count + 1;
      links := InsertAt(links, 0, elm);
    }

    /** `LIST_INSERT_TAIL` */
    method InsertTail(elm: Link<T>)
      requires Valid() && elm !in links
      modifies this, links`next, elm`next, elm`prev
      ensures Valid() && links == InsertAt(old(links), |old(links)|, elm)
    {
      elm.next := null;
      elm.prev := last;
      if first == null {
        first := elm;
      } else {
        last.next := elm;
      }
      last := elm;
      count := count + 1;
      links := InsertAt(links, |links|, elm);
    }

    /** `LIST_REMOVE`: elm keeps its own links. */
    method Remove(elm: Link<T>, ghost k: nat)
      requires Valid() && k < |links| && links[k] == elm
      modifies this, links`next, links`prev
      ensures Valid() && links == RemoveAt(old(links), k)
      ensures elm.next == old(elm.next) && elm.prev == old(elm.prev)
    {
      if elm.next == null {
        last := elm.prev;
      } else {
        elm.next.prev := elm.prev;
      }
      if elm.prev == null {
        first := elm.next;
      } else {
        elm.prev.next := elm.next;
      }
      count := count - 1;
      links := RemoveAt(links, k);
    }

    /** `container_destroy`: remove first elements until none is left. */
    method Clear()
      requires Valid()
      modifies this, links`next, links`prev
      ensures Valid() && links == []
    {
      ghost var gone := 0;
      while first != null
        invariant Valid() && gone <= |old(links)| && links == old(links)[gone..]
        decreases |links|
      {
        Remove(first, 0);
        gone := gone + 1;
      }
    }
  }
}

/** The counted tail queue of tailq.h. Every element holds the address of the pointer that points
    to it; here that address is a Slot: the head's first pointer or the next pointer of a node. */
module TailQueue {

  class Node<T> {
    var value: T
    var next: Node?<T>
    var prev: Slot<T>

    constructor (value: T)
      ensures this.value == value
    {
      this.value, next, prev := value, null, First;
    }
  }

  datatype Slot<T> = First | NextOf(node: Node<T>)

  /** The elements the predicate spares. */
  function Kept<T>(xs: seq<T>, drop: T -> bool): seq<T> {
    if xs == [] then []
    else if drop(xs[0]) then Kept(xs[1..], drop) else [xs[0]] + Kept(xs[1..], drop)
  }

  ghost predicate Distinct<X>(xs: seq<X>) {
    forall i, j | 0 <= i < j < |xs| :: xs[i] != xs[j]
  }

  /** The k-th element taken out, or put in. */
  ghost function Cut<X>(xs: seq<X>, k: nat): seq<X>
    requires k < |xs|
  {
    xs[..k] + xs[k + 1..]
  }

  ghost function Put<X>(xs: seq<X>, k: nat, x: X): seq<X>
    requires k <= |xs|
  {
    xs[..k] + [x] + xs[k..]
  }

  lemma CutIs<X>(xs: seq<X>, k: nat)
    requires k < |xs|
    ensures |Cut(xs, k)| == |xs| - 1
    ensures forall i | 0 <= i < |xs| - 1 :: Cut(xs, k)[i] == xs[if i < k then i else i + 1]
  {
  }

  lemma PutIs<X>(xs: seq<X>, k: nat, x: X)
    requires k <= |xs|
    ensures |Put(xs, k, x)| == |xs| + 1
    ensures forall i | 0 <= i < k :: Put(xs, k, x)[i] == xs[i]
    ensures forall i | k < i <= |xs| :: Put(xs, k, x)[i] == xs[i - 1]
    ensures Put(xs, k, x)[k] == x
  {
  }

  lemma PutMembers<X>(xs: seq<X>, k: nat, x: X)
    requires k <= |xs|
    ensures forall y | y in Put(xs, k, x) :: y == x || y in xs
    ensures Put(xs, k, x) == xs[..k] + [x] + xs[k..]
  {
  }

  lemma CutDistinct<X>(xs: seq<X>, k: nat)
    requires k < |xs| && Distinct(xs)
    ensures Distinct(Cut(xs, k))
  {
    hide Cut;
    CutIs(xs, k);
  }

  lemma PutDistinct<X>(xs: seq<X>, k: nat, x: X)
    requires k <= |xs| && Distinct(xs) && x !in xs
    ensures Distinct(Put(xs, k, x))
  {
    hide Put;
    PutIs(xs, k, x);
    var ys := Put(xs, k, x);
    forall i, j | 0 <= i < j < |ys| ensures ys[i] != ys[j] {
    }
  }

  class Queue<T> {
    var first: Node?<T>
    var last: Slot<T>
    var count: nat
    ghost var nodes: seq<Node<T>>

    /** The heap is the doubly linked list of nodes. */
    ghost predicate Valid()
      reads this, nodes
    {
      && count == |nodes|
      && first == At(nodes, 0)
      && last == SlotOf(nodes, |nodes|)
      && Distinct(nodes)
      && (forall i | 0 <= i < |nodes| :: Linked(nodes, i))
    }

    static ghost function At(nodes: seq<Node<T>>, i: nat): Node?<T> {
      if i < |nodes| then nodes[i] else null
    }

    /** The pointer that points to element i, or past the end. */
    static ghost function SlotOf(nodes: seq<Node<T>>, i: nat): Slot<T>
      requires i <= |nodes|
    {
      if i == 0 then First else NextOf(nodes[i - 1])
    }

    static ghost predicate Linked(nodes: seq<Node<T>>, i: nat)
      requires i < |nodes|
      reads nodes
    {
      nodes[i].next == At(nodes, i + 1) && nodes[i].prev == SlotOf(nodes, i)
    }

    /** The values of the elements, in order. */
    ghost function Values(): (r: seq<T>)
      reads this, nodes
    {
      seq(|nodes|, i requires 0 <= i < |nodes| reads this, nodes => nodes[i].value)
    }

    /** TAILQ_INIT */
    constructor ()
      ensures Valid() && nodes == []
    {
      first, last, count, nodes := null, First, 0, [];
    }

    /** TAILQ_INSERT_TAIL */
    method InsertTail(elm: Node<T>)
      requires Valid() && elm !in nodes
      modifies this, nodes, elm
      ensures Valid() && nodes == old(nodes) + [elm]
      ensures forall n | n in nodes :: n.value == old(n.value)
    {
      ghost var before := nodes;
      elm.next := null;
      elm.prev := last;
      match last {
        case First => first := elm;
        case NextOf(n) => n.next := elm;
      }
      last := NextOf(elm);
      count := count + 1;
      nodes := nodes + [elm];
      forall i | 0 <= i < |nodes|
        ensures Linked(nodes, i)
      {
        assert i < |before| ==> old(Linked(before, i));
      }
    }

    /** TAILQ_INSERT_HEAD */
    method InsertHead(elm: Node<T>)
      requires Valid() && elm !in nodes
      modifies this, nodes, elm
      ensures Valid() && nodes == [elm] + old(nodes)
      ensures forall n | n in nodes :: n.value == old(n.value)
    {
      ghost var before := nodes;
      elm.next := first;
      if elm.next != null {
        first.prev := NextOf(elm);
      } else {
        last := NextOf(elm);
      }
      first := elm;
      elm.prev := First;
      count := count + 1;
      nodes := [elm] + nodes;
      forall i | 0 <= i < |nodes|
        ensures Linked(nodes, i)
      {
        assert i > 0 ==> old(Linked(before, i - 1));
      }
    }

    /** TAILQ_INSERT_AFTER */
    method InsertAfter(listelm: Node<T>, elm: Node<T>, ghost k: nat)
      requires Valid() && elm !in nodes && k < |nodes| && nodes[k] == listelm
      modifies this, nodes, elm
      ensures Valid() && nodes == old(nodes)[..k + 1] + [elm] + old(nodes)[k + 1..]
      ensures forall n | n in nodes :: n.value == old(n.value)
    {
      hide Distinct, Put;
      ghost var before, after := nodes, Put(nodes, k + 1, elm);
      PutIs(before, k + 1, elm);
      PutDistinct(before, k + 1, elm);
      PutMembers(before, k + 1, elm);
      LinksApart(k);
      assert Linked(before, k);
      assert k + 1 < |before| ==> Linked(before, k + 1);
      elm.next := listelm.next;
      if elm.next != null {
        elm.next.prev := NextOf(elm);
      } else {
        last := NextOf(elm);
      }
      listelm.next := elm;
      elm.prev := NextOf(listelm);
      count := count + 1;
      nodes := after;
      forall i | 0 <= i < |nodes|
        ensures Linked(nodes, i)
      {
        if i <= k {
          assert nodes[i] == before[i] && old(Linked(before, i));
          assert i < k ==> nodes[i + 1] == before[i + 1];
        } else if i > k + 1 {
          assert nodes[i] == before[i - 1] && old(Linked(before, i - 1));
          assert i + 1 < |nodes| ==> nodes[i + 1] == before[i];
          assert i > k + 2 ==> nodes[i - 1] == before[i - 2];
        }
      }
    }

    /** TAILQ_REMOVE */
    method Remove(elm: Node<T>, ghost k: nat)
      requires Valid() && k < |nodes| && nodes[k] == elm
      modifies this, nodes
      ensures Valid() && nodes == old(nodes)[..k] + old(nodes)[k + 1..]
      ensures forall n | n in old(nodes) :: n.value == old(n.value)
    {
      hide Distinct, Cut;
      ghost var before, after := nodes, Cut(nodes, k);
      CutIs(before, k);
      CutDistinct(before, k);
      LinksApart(k);
      assert Linked(before, k);
      assert k > 0 ==> Linked(before, k - 1);
      assert k + 1 < |before| ==> Linked(before, k + 1);
      if elm.next != null {
        elm.next.prev := elm.prev;
      } else {
        last := elm.prev;
      }
      match elm.prev {
        case First => first := elm.next;
        case NextOf(n) => n.next := elm.next;
      }
      count := count - 1;
      nodes := after;
      forall i | 0 <= i < |nodes|
        ensures Linked(nodes, i)
      {
        assert i < k ==> old(Linked(before, i));
        assert i >= k ==> old(Linked(before, i + 1));
      }
    }

    /** An element differs from all others, so what is assigned to it is not assigned to them. */
    lemma LinksApart(k: nat)
      requires Valid() && k < |nodes|
      ensures forall i | 0 <= i < |nodes| :: i != k ==> nodes[i] != nodes[k]
      ensures forall i | 0 <= i < |nodes| :: k + 1 < |nodes| && i != k + 1 ==> nodes[i] != nodes[k + 1]
      ensures forall i | 0 <= i < |nodes| :: k > 0 && i != k - 1 ==> nodes[i] != nodes[k - 1]
    {
    }

    lemma NextIs(k: nat)
      requires Valid() && k < |nodes|
      ensures nodes[k].next == At(nodes, k + 1)
    {
      assert Linked(nodes, k);
    }

    lemma FirstIs()
      requires Valid()
      ensures first == At(nodes, 0)
    {
    }

    /** TAILQ_FOREACH_SAFE with a body that removes the current element when drop says so: every
        element is visited once, in order, and what is left is what was spared, in order. */
    method RemoveWhere(drop: T -> bool) returns (visited: seq<T>)
      requires Valid()
      modifies this, nodes
      ensures Valid() && visited == old(Values()) && Values() == Kept(visited, drop)
      ensures forall j | 0 <= j < |nodes| :: nodes[j] in old(nodes)
    {
      hide Valid, Kept;
      visited := [];
      FirstIs();
      var elm := first;
      ghost var all, values, i: nat, kept: nat := nodes, Values(), 0, 0;
      KeptNone(drop);
      while elm != null
        invariant Valid() && i <= |all| && kept <= |nodes| && nodes[kept..] == all[i..]
        invariant forall j | 0 <= j < |nodes| :: nodes[j] in all
        invariant forall n | n in all :: n.value == old(n.value)
        invariant elm == At(all, i) && visited == values[..i]
        invariant Values()[..kept] == Kept(visited, drop)
        decreases |all| - i
      {
        Suffix(nodes, kept, all, i);
        NextIs(kept);
        var next := elm.next;
        assert values[..i + 1] == visited + [elm.value];
        KeptAppends(visited, elm.value, drop);
        visited := visited + [elm.value];
        kept := VisitElement(elm, kept, drop);
        i := i + 1;
        elm := next;
      }
      assert nodes[kept..] == [] && Values()[..kept] == Values();
      assert values[..i] == values;
    }

    /** The body of the loop: the element stays or goes. */
    method VisitElement(elm: Node<T>, ghost k: nat, drop: T -> bool) returns (ghost kept: nat)
      requires Valid() && k < |nodes| && nodes[k] == elm
      modifies this, nodes
      ensures Valid() && forall j | 0 <= j < |nodes| :: nodes[j] in old(nodes)
      ensures forall n | n in old(nodes) :: n.value == old(n.value)
      ensures kept == (if drop(old(elm.value)) then k else k + 1) && kept <= |nodes|
      ensures nodes[kept..] == old(nodes)[k + 1..]
      ensures Values()[..kept] == old(Values())[..k] + if drop(old(elm.value)) then [] else [old(elm.value)]
    {
      if drop(elm.value) {
        Remove(elm, k);
        kept := k;
      } else {
        kept := k + 1;
      }
    }
  }

  lemma KeptNone<T>(drop: T -> bool)
    ensures Kept([], drop) == []
  {
  }

  lemma Suffix<T>(nodes: seq<Node<T>>, kept: nat, all: seq<Node<T>>, i: nat)
    requires kept <= |nodes| && i < |all| && nodes[kept..] == all[i..]
    ensures |nodes| - kept == |all| - i && nodes[kept] == all[i]
    ensures nodes[kept + 1..] == all[i + 1..]
    ensures Queue.At(nodes, kept + 1) == Queue.At(all, i + 1)
  {
    assert nodes[kept..][0] == all[i..][0];
    assert nodes[kept..][1..] == all[i..][1..];
    if i + 1 < |all| {
      assert nodes[kept..][1] == all[i..][1];
    }
  }

  lemma {:induction false} KeptAppends<T>(xs: seq<T>, x: T, drop: T -> bool)
    ensures Kept(xs + [x], drop) == Kept(xs, drop) + if drop(x) then [] else [x]
  {
    if xs == [] {
      assert xs + [x] == [x];
    } else {
      KeptAppends(xs[1..], x, drop);
      assert (xs + [x])[1..] == xs[1..] + [x];
    }
  }
}

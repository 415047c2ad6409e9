/** The intrusive doubly linked lists of the kernel: the links are fields of the elements. */
module IntrusiveList {

  class Node {
    var prev: Node?
    var next: Node?

    constructor ()
      ensures prev == null && next == null
    {
      prev, next := null, null;
    }
  }

  /** The links of one element, given the sequence that it is part of. */
  ghost predicate IsLinked(nodes: seq<Node>, i: nat)
    requires i < |nodes|
    reads nodes
  {
    && nodes[i].prev == (if i == 0 then null else nodes[i - 1])
    && nodes[i].next == (if i == |nodes| - 1 then null else nodes[i + 1])
  }

  ghost predicate HasNext(nodes: seq<Node>, i: nat)
    requires i < |nodes|
    reads nodes[i]
  {
    nodes[i].next == if i == |nodes| - 1 then null else nodes[i + 1]
  }

  ghost predicate AreDistinct(nodes: seq<Node>)
  {
    forall i, j :: 0 <= i < j < |nodes| ==> nodes[i] != nodes[j]
  }

  /** Element `j` is linked past element `i`. */
  ghost predicate IsBypassed(ns: seq<Node>, i: nat, j: nat)
    requires i < |ns| && j < |ns|
    reads ns[j]
  {
    && ns[j].prev == (if j == 0 || (j == 1 && i == 0) then null else if j == i + 1 then ns[j - 2] else ns[j - 1])
    && ns[j].next == (if j == |ns| - 1 || (j + 2 == |ns| && i == j + 1) then null
                      else if j + 1 == i then ns[j + 2] else ns[j + 1])
  }

  /** Once all others are, they are linked as a sequence. */
  lemma CutLinked(ns: seq<Node>, i: nat)
    requires i < |ns| && forall j :: 0 <= j < |ns| && j != i ==> IsBypassed(ns, i, j)
    ensures var cut := ns[..i] + ns[i + 1..]; forall k :: 0 <= k < |cut| ==> IsLinked(cut, k)
  {
    var cut := ns[..i] + ns[i + 1..];
    forall k | 0 <= k < |cut|
      ensures IsLinked(cut, k)
    {
      assert IsBypassed(ns, i, if k < i then k else k + 1);
    }
  }

  lemma CutDistinct(nodes: seq<Node>, i: nat)
    requires AreDistinct(nodes) && i < |nodes|
    ensures AreDistinct(nodes[..i] + nodes[i + 1..])
  {
  }

  class List {
    var head: Node?
    var tail: Node?
    ghost var nodes: seq<Node>

    /** These are the elements of the list, in this order. */
    ghost predicate Represents(ns: seq<Node>)
      reads this, ns
    {
      && AreDistinct(ns)
      && head == (if ns == [] then null else ns[0])
      && tail == (if ns == [] then null else ns[|ns| - 1])
      && forall i :: 0 <= i < |ns| ==> IsLinked(ns, i)
    }

    ghost predicate Valid()
      reads this, nodes
    {
      Represents(nodes)
    }

    constructor ()
      ensures Valid() && nodes == []
    {
      head, tail, nodes := null, null, [];
    }

    method PushHead(e: Node)
      requires Valid() && e !in nodes
      modifies this, nodes, e
      ensures Valid() && nodes == [e] + old(nodes)
    {
      if head == null {
        head, tail := e, e;
        e.prev, e.next := null, null;
      } else {
        head.prev := e;
        e.next := head;
        e.prev := null;
        head := e;
      }
      nodes := [e] + nodes;
      forall i | 0 <= i < |nodes|
        ensures IsLinked(nodes, i)
      {
        assert i > 0 ==> old(IsLinked(nodes, i - 1)) && nodes[i] == old(nodes)[i - 1];
      }
    }

    /** A new element goes to the tail; if an element is pushed again, the list is none any more. */
    method PushTail(e: Node)
      requires Valid()
      modifies this, nodes, e
      ensures e !in old(nodes) ==> Valid() && nodes == old(nodes) + [e]
      ensures e in old(nodes) ==> forall ns :: !Represents(ns)
    {
      ghost var all := nodes;
      if head == null {
        head, tail := e, e;
        e.prev, e.next := null, null;
      } else {
        tail.next := e;
        e.prev := tail;
        e.next := null;
        tail := e;
      }
      nodes := nodes + [e];
      if e in all {
        ghost var i :| 0 <= i < |all| && all[i] == e;
        forall j | i < j < |all|
          ensures all[j].prev == all[j - 1]
        {
          assert old(IsLinked(nodes, j)) && all[j] != all[i];
        }
        forall ns: seq<Node>
          ensures !Represents(ns)
        {
          if Represents(ns) {
            ListLeadsBack(ns);
            GoesRound(all, i, ns);
          }
        }
      } else {
        forall i | 0 <= i < |nodes|
          ensures IsLinked(nodes, i)
        {
          assert i < |nodes| - 1 ==> old(IsLinked(nodes, i)) && nodes[i] == old(nodes)[i];
        }
      }
    }

    /** The way back from the tail goes along this sequence. */
    ghost predicate LeadsBack(ns: seq<Node>)
      reads this, ns
    {
      ns != [] && tail == ns[|ns| - 1] && forall i :: 0 < i < |ns| ==> ns[i].prev == ns[i - 1]
    }

    lemma ListLeadsBack(ns: seq<Node>)
      requires Represents(ns) && tail != null
      ensures LeadsBack(ns) && ns[0].prev == null
    {
      assert IsLinked(ns, 0);
      forall i | 0 < i < |ns|
        ensures ns[i].prev == ns[i - 1]
      {
        assert IsLinked(ns, i);
      }
    }

    /** The way back from the tail comes to the tail again, so that no list has these links. */
    lemma GoesRound(all: seq<Node>, i: nat, ns: seq<Node>)
      requires i < |all| && LeadsBack(ns) && tail == all[i] && all[i].prev == all[|all| - 1]
      requires forall j :: i < j < |all| ==> all[j].prev == all[j - 1]
      ensures ns[0].prev == null ==> !AreDistinct(ns)
    {
      var p, k := |ns| - 2, |all| - 1;
      if |ns| > 1 {
        assert ns[|ns| - 1].prev == ns[|ns| - 2];
      }
      while k > i && p > 0
        invariant i <= k < |all| && -1 <= p < |ns| - 1 && if p < 0 then |ns| == 1 else ns[p] == all[k]
        decreases k
      {
        assert ns[p].prev == ns[p - 1] && all[k].prev == all[k - 1];
        p, k := p - 1, k - 1;
      }
      assert k > i ==> all[k].prev == all[k - 1];
      if p >= 0 && k == i {
        assert ns[p] == ns[|ns| - 1];
      } else {
        assert ns[0] == (if p < 0 then all[i] else all[k]) && ns[0].prev != null;
      }
    }

    /** `linked_list_remove` of the element at index `i`. */
    method Remove(e: Node, ghost i: nat)
      requires Valid() && i < |nodes| && nodes[i] == e
      modifies this, nodes
      ensures Valid() && nodes == old(nodes)[..i] + old(nodes)[i + 1..] && e.prev == null && e.next == null
    {
      assert IsLinked(nodes, i);
      if e.next != null {
        e.next.prev := e.prev;
      } else {
        tail := e.prev;
      }
      if e.prev != null {
        e.prev.next := e.next;
      } else {
        head := e.next;
      }
      e.prev, e.next := null, null;
      forall j | 0 <= j < |nodes| && j != i
        ensures IsBypassed(nodes, i, j)
      {
        assert old(IsLinked(nodes, j));
      }
      CutDistinct(nodes, i);
      CutLinked(nodes, i);
      nodes := nodes[..i] + nodes[i + 1..];
    }

    method PopHead() returns (r: Node?)
      requires Valid()
      modifies this, nodes
      ensures Valid() && (r == null <==> old(nodes) == [])
      ensures r != null ==> r == old(nodes)[0] && nodes == old(nodes)[1..] && r.prev == null && r.next == null
    {
      r := head;
      if r != null {
        Remove(r, 0);
      }
    }

    method PopTail() returns (r: Node?)
      requires Valid()
      modifies this, nodes
      ensures Valid() && (r == null <==> old(nodes) == [])
      ensures r != null ==>
                r == old(nodes)[|old(nodes)| - 1] && nodes == old(nodes)[..|old(nodes)| - 1] && r.prev == null &&
                  r.next == null
    {
      r := tail;
      if r != null {
        Remove(r, |nodes| - 1);
      }
    }

    method Size() returns (n: nat)
      requires Valid()
      ensures n == |nodes|
    {
      n := 0;
      var e := head;
      while e != null
        invariant 0 <= n <= |nodes| && e == if n < |nodes| then nodes[n] else null
        decreases |nodes| - n
      {
        assert IsLinked(nodes, n);
        e := e.next;
        n := n + 1;
      }
    }

    /** The scheduler's own way of unlinking: the same result as `Remove`. */
    method Unlink(x: Node, ghost i: nat)
      requires Valid() && i < |nodes| && nodes[i] == x
      modifies this, nodes
      ensures Valid() && nodes == old(nodes)[..i] + old(nodes)[i + 1..] && x.prev == null && x.next == null
    {
      assert IsLinked(nodes, i);
      if x.prev != null {
        x.prev.next := x.next;
      } else {
        head := x.next;
      }
      if x.next != null {
        x.next.prev := x.prev;
      } else {
        tail := x.prev;
      }
      x.prev, x.next := null, null;
      forall j | 0 <= j < |nodes| && j != i
        ensures IsBypassed(nodes, i, j)
      {
        assert old(IsLinked(nodes, j));
      }
      CutDistinct(nodes, i);
      CutLinked(nodes, i);
      nodes := nodes[..i] + nodes[i + 1..];
    }

    /** The walk of the scheduler through a queue. */
    method Find(x: Node) returns (found: bool, ghost i: nat)
      requires Valid()
      ensures found <==> x in nodes
      ensures found ==> i < |nodes| && nodes[i] == x
    {
      var current := head;
      i := 0;
      while current != null
        invariant i <= |nodes| && current == (if i < |nodes| then nodes[i] else null) && x !in nodes[..i]
        decreases |nodes| - i
      {
        assert IsLinked(nodes, i);
        if current == x {
          return true, i;
        }
        current := current.next;
        i := i + 1;
      }
      return false, i;
    }

    /** The walk that unlinks an element, if it is there. */
    method FindAndUnlink(x: Node) returns (found: bool, ghost i: nat)
      requires Valid()
      modifies this, nodes
      ensures Valid() && (found <==> x in old(nodes))
      ensures !found ==> unchanged(this) && forall n :: n in nodes ==> unchanged(n)
      ensures found ==>
                i < |old(nodes)| && old(nodes)[i] == x && nodes == old(nodes)[..i] + old(nodes)[i + 1..] &&
                  x.prev == null && x.next == null
    {
      found, i := Find(x);
      if found {
        Unlink(x, i);
      }
    }

    /** Empties the list; every element ends up without links. */
    method Clear()
      requires Valid()
      modifies this, nodes
      ensures Valid() && nodes == [] && forall i :: 0 <= i < |old(nodes)| ==>
                old(nodes)[i].prev == null && old(nodes)[i].next == null
    {
      var e := head;
      ghost var all := nodes;
      forall j | 0 <= j < |all|
        ensures HasNext(all, j)
      {
        assert IsLinked(nodes, j);
      }
      head, tail := null, null;
      ghost var i := 0;
      while e != null
        invariant 0 <= i <= |all| && all == nodes == old(nodes) && AreDistinct(all) && head == null && tail == null
        invariant e == if i < |all| then all[i] else null
        invariant forall j :: i <= j < |all| ==> HasNext(all, j)
        invariant forall j :: 0 <= j < i ==> all[j].prev == null && all[j].next == null
        decreases |all| - i
      {
        assert HasNext(all, i);
        var next := e.next;
        e.prev, e.next := null, null;
        e := next;
        i := i + 1;
      }
      nodes := [];
    }
  }
}

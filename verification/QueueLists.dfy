/** The queues of the kernel as intrusive lists: taking a process out of whichever active queue holds it. */
module QueueLists {
  import opened Processes
  import opened KernelSteps
  import opened IntrusiveList

  /** The processes of a list, in order. */
  ghost function PidsOf(nodes: seq<Node>, pidOf: map<Node, Pid>): (q: seq<Pid>)
    requires forall n :: n in nodes ==> n in pidOf
    ensures |q| == |nodes|
  {
    seq(|nodes|, i requires 0 <= i < |nodes| => pidOf[nodes[i]])
  }

  ghost predicate IsInjective(pidOf: map<Node, Pid>)
  {
    forall a, b :: a in pidOf && b in pidOf && pidOf[a] == pidOf[b] ==> a == b
  }

  lemma {:induction false} WithoutSplit(front: seq<Pid>, p: Pid, back: seq<Pid>)
    requires p !in front && p !in back
    ensures Without(front + [p] + back, p) == front + back
  {
    if front == [] {
      WithoutAbsent(back, p);
      assert (front + [p] + back)[1..] == back;
    } else {
      assert (front + [p] + back)[1..] == front[1..] + [p] + back;
      WithoutSplit(front[1..], p, back);
    }
  }

  /** Cutting an element out of a list takes its process out of the queue. */
  lemma CutIsWithout(nodes: seq<Node>, pidOf: map<Node, Pid>, i: nat)
    requires i < |nodes| && AreDistinct(nodes) && IsInjective(pidOf) && forall n :: n in nodes ==> n in pidOf
    ensures forall n :: n in nodes[..i] + nodes[i + 1..] ==> n in pidOf
    ensures PidsOf(nodes[..i] + nodes[i + 1..], pidOf) == Without(PidsOf(nodes, pidOf), pidOf[nodes[i]])
  {
    var q := PidsOf(nodes, pidOf);
    assert q == q[..i] + [q[i]] + q[i + 1..];
    assert forall j :: 0 <= j < |q| && j != i ==> q[j] != q[i];
    WithoutSplit(q[..i], q[i], q[i + 1..]);
    assert PidsOf(nodes[..i] + nodes[i + 1..], pidOf) == q[..i] + q[i + 1..];
  }

  lemma InListIff(nodes: seq<Node>, pidOf: map<Node, Pid>, x: Node)
    requires IsInjective(pidOf) && x in pidOf && forall n :: n in nodes ==> n in pidOf
    ensures x in nodes <==> pidOf[x] in PidsOf(nodes, pidOf)
  {
    var q := PidsOf(nodes, pidOf);
    if x in nodes {
      var i :| 0 <= i < |nodes| && nodes[i] == x;
      assert q[i] == pidOf[x];
    }
    if pidOf[x] in q {
      var i :| 0 <= i < |q| && q[i] == pidOf[x];
      assert nodes[i] in nodes;
    }
  }

  ghost function NodesOf(lists: seq<List>): (r: set<Node>)
    reads lists
    ensures forall l, n :: l in lists && n in l.nodes ==> n in r
  {
    set l, n | l in lists && n in l.nodes :: n
  }

  /** The lists are sound, share no element, and hold the processes of the queues. */
  ghost predicate AreQueues(lists: seq<List>, queues: seq<seq<Pid>>, pidOf: map<Node, Pid>)
    reads lists, NodesOf(lists)
  {
    && |lists| <= |queues| && IsInjective(pidOf)
    && AreLists(lists)
    && (forall k, n :: 0 <= k < |lists| && n in lists[k].nodes ==> n in pidOf)
    && (forall k :: 0 <= k < |lists| ==> PidsOf(lists[k].nodes, pidOf) == queues[k])
  }

  ghost predicate AreApart(a: List, b: List)
    reads a, b
  {
    a != b && forall n :: n in a.nodes ==> n !in b.nodes
  }

  lemma OnQueueIff(s: State, p: Pid, k: nat)
    requires QueuesOk(s) && k < 6 && p in s.pcbs
    ensures p in s.queues[k] <==> Place(s.pcbs[p]) == k
  {
    assert IsQueue(s.pcbs, s.queues[k], k);
  }

  /** A process is in the list of its place, if that is one of these. */
  lemma InItsList(lists: seq<List>, s: State, pidOf: map<Node, Pid>, x: Node, k: nat)
    requires |lists| == 5 && QueuesOk(s) && AreQueues(lists, s.queues, pidOf) && x in pidOf && pidOf[x] in s.pcbs &&
             k < 5
    ensures x in lists[k].nodes <==> Place(s.pcbs[pidOf[x]]) == k
    ensures x !in lists[k].nodes ==> Without(s.queues[k], pidOf[x]) == s.queues[k]
  {
    assert lists[k] in lists && IsQueue(s.pcbs, s.queues[k], k) && PidsOf(lists[k].nodes, pidOf) == s.queues[k];
    InListIff(lists[k].nodes, pidOf, x);
    OnQueueIff(s, pidOf[x], k);
    if x !in lists[k].nodes {
      WithoutAbsent(s.queues[k], pidOf[x]);
    }
  }

  /** The queues without a process; the last one, of the terminated processes, is not looked at. */
  ghost function Removed(queues: seq<seq<Pid>>, p: Pid): seq<seq<Pid>>
    requires |queues| == 6
  {
    seq(6, k requires 0 <= k < 6 => if k < 5 then Without(queues[k], p) else queues[k])
  }

  /** Sound lists that share no element. */
  ghost predicate AreLists(lists: seq<List>)
    reads lists, NodesOf(lists)
  {
    && (forall k :: 0 <= k < |lists| ==> lists[k] in lists && lists[k].Valid())
    && (forall j, k :: 0 <= j < k < |lists| ==>
          lists[j] in lists && lists[k] in lists && AreApart(lists[j], lists[k]))
  }

  /** Walks through lists, one after the other, up to the one that has the element. */
  method UnlinkFromOne(lists: seq<List>, x: Node) returns (removed: bool, ghost k: nat, ghost i: nat)
    requires AreLists(lists)
    modifies lists, NodesOf(lists)
    ensures AreLists(lists)
    ensures removed ==>
              && k < |lists| && i < |old(lists[k].nodes)| && old(lists[k].nodes)[i] == x
              && lists[k].nodes == old(lists[k].nodes)[..i] + old(lists[k].nodes)[i + 1..]
    ensures !removed ==> forall j :: 0 <= j < |lists| ==> x !in old(lists[j].nodes)
    ensures forall j :: 0 <= j < |lists| && (removed ==> j != k) ==> lists[j].nodes == old(lists[j].nodes)
  {
    var at := 0;
    removed, i := false, 0;
    while at < |lists| && !removed
      invariant 0 <= at <= |lists| && (removed ==> at < |lists| && i < |lists[at].nodes| && lists[at].nodes[i] == x)
      invariant forall j :: 0 <= j < at ==> x !in lists[j].nodes
      modifies {}
      decreases |lists| - at, !removed
    {
      assert lists[at] in lists;
      removed, i := lists[at].Find(x);
      if !removed {
        at := at + 1;
      }
    }
    k := at;
    if removed {
      UnlinkAt(lists, at, x, i);
    }
  }

  method UnlinkAt(lists: seq<List>, k: nat, x: Node, ghost i: nat)
    requires AreLists(lists) && k < |lists| && i < |lists[k].nodes| && lists[k].nodes[i] == x
    modifies lists, NodesOf(lists)
    ensures AreLists(lists) && lists[k].nodes == old(lists[k].nodes)[..i] + old(lists[k].nodes)[i + 1..]
    ensures forall j :: 0 <= j < |lists| && j != k ==> lists[j].nodes == old(lists[j].nodes)
  {
    assert lists[k] in lists;
    forall j | 0 <= j < |lists| && j != k
      ensures lists[j] != lists[k] && forall n :: n in lists[j].nodes ==> n !in lists[k].nodes
    {
      assert if j < k then AreApart(lists[j], lists[k]) else AreApart(lists[k], lists[j]);
    }
    lists[k].Unlink(x, i);
    forall j | 0 <= j < |lists| && j != k
      ensures lists[j].nodes == old(lists[j].nodes) && lists[j].Valid()
    {
      forall m | 0 <= m < |lists[j].nodes|
        ensures IsLinked(lists[j].nodes, m)
      {
        assert old(IsLinked(lists[j].nodes, m)) && lists[j].nodes[m] in lists[j].nodes;
      }
    }
  }

  /** `k_remove_from_active_queue` on the lists: it does to the queues what the model of the kernel says. */
  method RemoveFromActiveQueue(lists: seq<List>, x: Node, ghost s: State, ghost pidOf: map<Node, Pid>)
    returns (removed: bool)
    requires |lists| == 5 && QueuesOk(s) && AreQueues(lists, s.queues, pidOf) && x in pidOf && pidOf[x] in s.pcbs
    modifies lists, NodesOf(lists)
    ensures removed == (s.pcbs[pidOf[x]].status != Zombied)
    ensures AreQueues(lists, Removed(s.queues, pidOf[x]), pidOf)
  {
    hide QueuesOk, PidsOf, NodesOf;
    ghost var p := pidOf[x];
    forall k: nat | k < 5
      ensures x in lists[k].nodes <==> Place(s.pcbs[p]) == k
      ensures x !in lists[k].nodes ==> Without(s.queues[k], p) == s.queues[k]
    {
      InItsList(lists, s, pidOf, x, k);
    }
    PriorityOk(s, p);
    ghost var home := Place(s.pcbs[p]);
    assert home < 5 ==> x in lists[home].nodes;
    ghost var k, i;
    removed, k, i := UnlinkFromOne(lists, x);
    if removed {
      CutIsWithout(old(lists[k].nodes), pidOf, i);
    }
  }
}

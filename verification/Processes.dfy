/** Processes, their queues, and what every kernel step keeps. */
module Processes {
  type Pid = int

  const INIT: Pid := 1

  datatype Status = Running | Blocked | Stopped | Zombied

  /** `sleep` counts tenths of a tick; `waited` is the child last waited for, -1 for any, -2 for none. */
  datatype Pcb = Pcb(ppid: Pid, status: Status, priority: nat, sleep: nat, waited: int, children: seq<Pid>)

  /**
   The queues: one ready queue per priority, then the blocked, the stopped and the zombie
   queue. `count` is the number of processes created so far.
   */
  datatype State = State(pcbs: map<Pid, Pcb>, queues: seq<seq<Pid>>, count: nat)

  const BLOCKED := 3
  const STOPPED := 4
  const ZOMBIES := 5

  /** The queue where a process belongs. */
  function Place(x: Pcb): nat
  {
    match x.status
    case Running => x.priority
    case Blocked => BLOCKED
    case Stopped => STOPPED
    case Zombied => ZOMBIES
  }

  // ---- queues as sequences ----

  ghost predicate NoDup(q: seq<Pid>)
  {
    forall i, j :: 0 <= i < j < |q| ==> q[i] != q[j]
  }

  /** The queue without the first occurrence of `p`. */
  function Without(q: seq<Pid>, p: Pid): (r: seq<Pid>)
  {
    if q == [] then [] else if q[0] == p then q[1..] else [q[0]] + Without(q[1..], p)
  }

  lemma {:induction false} WithoutAbsent(q: seq<Pid>, p: Pid)
    requires p !in q
    ensures Without(q, p) == q
  {
    if q != [] {
      WithoutAbsent(q[1..], p);
    }
  }

  lemma {:induction false} WithoutAt(q: seq<Pid>, i: nat)
    requires NoDup(q) && i < |q|
    ensures Without(q, q[i]) == q[..i] + q[i + 1..]
  {
    if i > 0 {
      var t := q[1..];
      assert NoDup(t) && t[i - 1] == q[i] && q[0] != q[i];
      WithoutAt(t, i - 1);
      assert q[..i] == [q[0]] + t[..i - 1];
    }
  }

  lemma CutOk(q: seq<Pid>, i: nat)
    requires NoDup(q) && i < |q|
    ensures NoDup(q[..i] + q[i + 1..]) && forall x :: x in q[..i] + q[i + 1..] <==> x in q && x != q[i]
  {
  }

  lemma WithoutOk(q: seq<Pid>, p: Pid)
    requires NoDup(q)
    ensures NoDup(Without(q, p)) && forall x :: x in Without(q, p) <==> x in q && x != p
    ensures p !in q ==> Without(q, p) == q
    ensures p in q ==> |Without(q, p)| == |q| - 1
  {
    hide NoDup;
    if p in q {
      var i :| 0 <= i < |q| && q[i] == p;
      WithoutAt(q, i);
      CutOk(q, i);
    } else {
      WithoutAbsent(q, p);
    }
  }

  lemma PushOk(q: seq<Pid>, p: Pid)
    requires NoDup(q) && p !in q
    ensures NoDup(q + [p]) && forall x :: x in q + [p] <==> x in q || x == p
  {
  }

  // ---- every process is in exactly one queue ----

  /** `q` holds exactly the processes whose place is `k`, once each. */
  ghost predicate IsQueue(pcbs: map<Pid, Pcb>, q: seq<Pid>, k: nat)
  {
    NoDup(q) && forall p :: p in q <==> p in pcbs && Place(pcbs[p]) == k
  }

  ghost predicate QueuesOk(s: State)
  {
    && |s.queues| == 6
    && (forall k :: 0 <= k < 6 ==> IsQueue(s.pcbs, s.queues[k], k))
    && (forall p :: p in s.pcbs ==> s.pcbs[p].priority < 3)
  }

  ghost function Members(q: seq<Pid>): set<Pid>
  {
    set p | p in q
  }

  lemma {:induction false} MembersSize(q: seq<Pid>)
    requires NoDup(q)
    ensures |Members(q)| == |q|
  {
    if q != [] {
      var t := q[..|q| - 1];
      MembersSize(t);
      assert q == t + [q[|q| - 1]];
      assert Members(q) == Members(t) + {q[|q| - 1]};
    }
  }

  /** How many entries the first `k` queues have. */
  function Entries(queues: seq<seq<Pid>>): nat
  {
    if queues == [] then 0 else Entries(queues[..|queues| - 1]) + |queues[|queues| - 1]|
  }

  ghost function Placed(pcbs: map<Pid, Pcb>, n: nat): set<Pid>
  {
    set p | p in pcbs && Place(pcbs[p]) < n
  }

  lemma {:induction false} EntriesArePlaced(pcbs: map<Pid, Pcb>, queues: seq<seq<Pid>>)
    requires forall k :: 0 <= k < |queues| ==> IsQueue(pcbs, queues[k], k)
    ensures Entries(queues) == |Placed(pcbs, |queues|)|
  {
    var n := |queues|;
    if n == 0 {
      assert forall p :: p in pcbs ==> 0 <= Place(pcbs[p]);
    } else {
      EntriesArePlaced(pcbs, queues[..n - 1]);
      MembersSize(queues[n - 1]);
      assert IsQueue(pcbs, queues[n - 1], n - 1);
      PlacedStep(pcbs, queues[n - 1], n);
    }
  }

  lemma PlacedStep(pcbs: map<Pid, Pcb>, q: seq<Pid>, n: nat)
    requires n > 0 && IsQueue(pcbs, q, n - 1)
    ensures Placed(pcbs, n) == Placed(pcbs, n - 1) + Members(q) && Placed(pcbs, n - 1) !! Members(q)
  {
    forall p
      ensures p in Members(q) <==> p in pcbs && Place(pcbs[p]) == n - 1
    {
      assert p in q <==> p in Members(q);
    }
  }

  /** The queues together hold every process, and nothing twice. */
  lemma EntriesAreAll(s: State)
    requires QueuesOk(s)
    ensures Entries(s.queues) == |s.pcbs|
  {
    EntriesArePlaced(s.pcbs, s.queues);
    forall p | p in s.pcbs
      ensures p in Placed(s.pcbs, 6)
    {
      assert s.pcbs[p].priority < 3;
    }
    assert Placed(s.pcbs, 6) == s.pcbs.Keys;
  }

  // ---- moving a process between queues ----

  /** The process `p` becomes `x` and goes from its queue to the tail of the new one. */
  function Moved(s: State, p: Pid, x: Pcb): State
  {
    s.(pcbs := s.pcbs[p := x],
       queues := seq(|s.queues|, k requires 0 <= k < |s.queues| => Without(s.queues[k], p) + if k == Place(x) then [p]
                     else []))
  }

  lemma MovedOk(s: State, p: Pid, x: Pcb)
    requires QueuesOk(s) && x.priority < 3
    ensures QueuesOk(Moved(s, p, x))
  {
    var s' := Moved(s, p, x);
    forall k | 0 <= k < 6
      ensures IsQueue(s'.pcbs, s'.queues[k], k)
    {
      assert IsQueue(s.pcbs, s.queues[k], k);
      WithoutOk(s.queues[k], p);
      PushOk(Without(s.queues[k], p), p);
    }
  }

  /** Moving in two strokes: out of the one queue that holds the process, into the other. */
  lemma MovedInStrokes(s: State, p: Pid, x: Pcb)
    requires QueuesOk(s) && p in s.pcbs && x.priority < 3
    ensures var from, to := Place(s.pcbs[p]), Place(x);
            && from < 6 && to < 6
            && var cut := s.queues[from := Without(s.queues[from], p)];
               Moved(s, p, x) == s.(pcbs := s.pcbs[p := x], queues := cut[to := cut[to] + [p]])
  {
    var from, to := Place(s.pcbs[p]), Place(x);
    assert s.pcbs[p].priority < 3;
    var cut := s.queues[from := Without(s.queues[from], p)];
    var moved := Moved(s, p, x).queues;
    forall k | 0 <= k < 6
      ensures moved[k] == cut[to := cut[to] + [p]][k]
    {
      assert IsQueue(s.pcbs, s.queues[k], k);
      if k != from {
        WithoutAbsent(s.queues[k], p);
      }
      assert Without(s.queues[k], p) == cut[k] && cut[k] + [] == cut[k];
    }
    assert moved == cut[to := cut[to] + [p]];
  }

  /** A process that does not change its place may stay where it is. */
  lemma StayedOk(s: State, p: Pid, x: Pcb)
    requires QueuesOk(s) && p in s.pcbs && Place(x) == Place(s.pcbs[p]) && x.priority < 3
    ensures QueuesOk(s.(pcbs := s.pcbs[p := x]))
  {
  }
}

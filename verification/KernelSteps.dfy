/**
 The kernel calls as steps on the process table and the queues, and what every step keeps:
 each process is in exactly one queue, the processes form a tree under init, and no process
 stays blocked in a wait that one of its children has already answered.
 */
module KernelSteps {
  import opened Processes

  // ---- the invariant ----

  predicate IsAlive(pcbs: map<Pid, Pcb>, p: Pid)
  {
    p in pcbs && pcbs[p].status != Zombied
  }

  /** The processes on its list are its children, each of them once. */
  ghost predicate ChildrenOk(pcbs: map<Pid, Pcb>, p: Pid)
    requires p in pcbs
  {
    NoDup(pcbs[p].children) && forall c :: c in pcbs[p].children ==> c in pcbs && c != INIT && pcbs[c].ppid == p
  }

  /** Its parent is alive, older, and has it on its list. */
  ghost predicate ParentOk(pcbs: map<Pid, Pcb>, c: Pid)
    requires c in pcbs
  {
    pcbs[c].ppid < c && IsAlive(pcbs, pcbs[c].ppid) && c in pcbs[pcbs[c].ppid].children
  }

  ghost predicate TreeOk(pcbs: map<Pid, Pcb>, count: nat)
  {
    && IsAlive(pcbs, INIT)
    && (forall p :: p in pcbs ==> INIT <= p <= count)
    && (forall p :: IsAlive(pcbs, p) ==> ChildrenOk(pcbs, p))
    && (forall c :: c in pcbs && c != INIT ==> ParentOk(pcbs, c))
  }

  /** A process waits for children of its own, and the pid it last waited for is not one of the future. */
  ghost predicate WaitOk(pcbs: map<Pid, Pcb>, p: Pid, count: nat)
    requires p in pcbs
  {
    var w := pcbs[p].waited;
    w <= count && (w in pcbs ==> w != INIT && pcbs[w].ppid == p)
  }

  ghost predicate WaitsOk(pcbs: map<Pid, Pcb>, count: nat)
  {
    forall p :: IsAlive(pcbs, p) ==> WaitOk(pcbs, p, count)
  }

  predicate HasAnswer(x: Pcb)
  {
    x.status == Zombied || x.status == Stopped
  }

  predicate WaitsFor(x: Pcb, c: Pid)
  {
    x.waited == c || x.waited == -1
  }

  /** Blocked in a wait, not in a sleep. */
  predicate IsWaiting(x: Pcb)
  {
    x.status == Blocked && x.sleep == 0
  }

  /** If it is blocked in a wait then no child that it waits for has terminated or stopped. */
  ghost predicate AwakeAt(pcbs: map<Pid, Pcb>, p: Pid)
    requires p in pcbs
  {
    IsWaiting(pcbs[p]) ==>
      forall c :: c in pcbs[p].children && c in pcbs && WaitsFor(pcbs[p], c) ==> !HasAnswer(pcbs[c])
  }

  /** No wakeup is lost. */
  ghost predicate AwakeOk(pcbs: map<Pid, Pcb>)
  {
    forall p :: p in pcbs ==> AwakeAt(pcbs, p)
  }

  ghost predicate Inv(s: State)
  {
    && QueuesOk(s) && TreeOk(s.pcbs, s.count) && WaitsOk(s.pcbs, s.count) && AwakeOk(s.pcbs)
    && INIT in s.pcbs && !IsWaiting(s.pcbs[INIT])
  }

  // ---- waking the parent ----

  /** The test of `unblock_parents`. */
  predicate Matches(x: Pcb, c: Pid)
  {
    x.waited == c || (x.waited == -1 && c in x.children)
  }

  /** The index of the first process in `q` that waits for `c`; the length of `q` if there is none. */
  function FirstWaiter(pcbs: map<Pid, Pcb>, q: seq<Pid>, c: Pid): (i: nat)
    requires forall j :: 0 <= j < |q| ==> q[j] in pcbs
    ensures i <= |q| && (i < |q| ==> Matches(pcbs[q[i]], c)) && forall j :: 0 <= j < i ==> !Matches(pcbs[q[j]], c)
  {
    if q == [] || Matches(pcbs[q[0]], c) then 0 else 1 + FirstWaiter(pcbs, q[1..], c)
  }

  lemma QueueHolds(s: State, k: nat)
    requires QueuesOk(s) && k < 6
    ensures |s.queues| == 6
    ensures forall j :: 0 <= j < |s.queues[k]| ==> s.queues[k][j] in s.pcbs && Place(s.pcbs[s.queues[k][j]]) == k
  {
    var q := s.queues[k];
    assert IsQueue(s.pcbs, q, k);
    forall j | 0 <= j < |q|
      ensures q[j] in s.pcbs && Place(s.pcbs[q[j]]) == k
    {
      assert q[j] in q;
    }
  }

  function Woken(x: Pcb): Pcb
  {
    x.(status := Running)
  }

  function WakeWaiter(s: State, c: Pid): State
    requires QueuesOk(s)
  {
    var q := s.queues[BLOCKED];
    QueueHolds(s, BLOCKED);
    var i := FirstWaiter(s.pcbs, q, c);
    if i < |q| then Moved(s, q[i], Woken(s.pcbs[q[i]])) else s
  }

  /** Only its parent waits for a process. */
  lemma OnlyParentMatches(pcbs: map<Pid, Pcb>, count: nat, p: Pid, c: Pid)
    requires TreeOk(pcbs, count) && WaitsOk(pcbs, count) && IsAlive(pcbs, p) && c in pcbs && Matches(pcbs[p], c)
    ensures pcbs[c].ppid == p
  {
  }

  /** The table after `x` has become `y` and `w` has been woken; `w` is `x` if nobody was. */
  ghost predicate AnswerTable(pcbs: map<Pid, Pcb>, pcbs': map<Pid, Pcb>, x: Pid, y: Pcb, w: Pid)
    requires x in pcbs
  {
    IsAlive(pcbs, w) && pcbs' == if w == x then pcbs[x := y] else pcbs[x := y][w := Woken(pcbs[w])]
  }

  lemma PriorityOk(s: State, p: Pid)
    requires QueuesOk(s) && p in s.pcbs
    ensures s.pcbs[p].priority < 3
  {
  }

  /**
   Whom the termination or the stop of `x` wakes: the first process in the blocked queue that waits
   for it; `x` if nobody does.
   */
  function WokenBy(s: State, x: Pid): Pid
    requires QueuesOk(s)
  {
    var q := Without(s.queues[BLOCKED], x);
    OthersBlocked(s, x, q);
    var i := FirstWaiter(s.pcbs, q, x);
    if i < |q| then q[i] else x
  }

  lemma OthersBlocked(s: State, x: Pid, q: seq<Pid>)
    requires QueuesOk(s) && q == Without(s.queues[BLOCKED], x)
    ensures forall p :: p in q <==> p != x && p in s.pcbs && s.pcbs[p].status == Blocked
    ensures forall j :: 0 <= j < |q| ==> q[j] in s.pcbs && q[j] != x && s.pcbs[q[j]].status == Blocked
  {
    assert IsQueue(s.pcbs, s.queues[BLOCKED], BLOCKED);
    WithoutOk(s.queues[BLOCKED], x);
    forall p | p in s.pcbs
      ensures Place(s.pcbs[p]) == BLOCKED <==> s.pcbs[p].status == Blocked
    {
      assert s.pcbs[p].priority < 3;
    }
    assert forall j :: 0 <= j < |q| ==> q[j] in q;
  }

  lemma AnsweredQueue(s: State, x: Pid, y: Pcb)
    requires QueuesOk(s) && HasAnswer(y)
    ensures |s.queues| == 6 == |Moved(s, x, y).queues| && Moved(s, x, y).pcbs == s.pcbs[x := y]
    ensures Moved(s, x, y).queues[BLOCKED] == Without(s.queues[BLOCKED], x) && Moved(s, x, y).count == s.count
  {
  }

  /** The first waiter is woken, and nobody else. */
  lemma WakesFirst(s: State, x: Pid, y: Pcb)
    requires QueuesOk(s) && IsAlive(s.pcbs, x) && HasAnswer(y) && y.priority < 3
    ensures QueuesOk(Moved(s, x, y)) && QueuesOk(WakeWaiter(Moved(s, x, y), x)) &&
            WakeWaiter(Moved(s, x, y), x).count == s.count
    ensures AnswerTable(s.pcbs, WakeWaiter(Moved(s, x, y), x).pcbs, x, y, WokenBy(s, x))
    ensures var w := WokenBy(s, x); w != x ==> w in s.pcbs && s.pcbs[w].status == Blocked && Matches(s.pcbs[w], x)
    ensures WokenBy(s, x) == x ==>
              forall p :: p in s.pcbs && p != x && s.pcbs[p].status == Blocked ==> !Matches(s.pcbs[p], x)
  {
    hide Moved, Without, FirstWaiter, NoDup, IsQueue;
    MovedOk(s, x, y);
    AnsweredQueue(s, x, y);
    var s1 := Moved(s, x, y);
    var q := s1.queues[BLOCKED];
    OthersBlocked(s, x, q);
    QueueHolds(s1, BLOCKED);
    var i := FirstWaiter(s1.pcbs, q, x);
    SameFirst(s.pcbs, s1.pcbs, q, x);
    if i < |q| {
      WakeMoved(s1, q[i]);
    }
  }

  lemma {:induction false} SameFirst(pcbs: map<Pid, Pcb>, pcbs': map<Pid, Pcb>, q: seq<Pid>, x: Pid)
    requires forall j :: 0 <= j < |q| ==> q[j] in pcbs && q[j] in pcbs' && pcbs[q[j]] == pcbs'[q[j]]
    ensures FirstWaiter(pcbs, q, x) == FirstWaiter(pcbs', q, x)
  {
  }

  /** When `x` terminates or stops, its parent is woken if it waits for it, and nobody else. */
  lemma WakesParent(s: State, x: Pid, y: Pcb) returns (w: Pid)
    requires QueuesOk(s) && TreeOk(s.pcbs, s.count) && WaitsOk(s.pcbs, s.count) && IsAlive(s.pcbs, x) && x != INIT
    requires HasAnswer(y) && y.priority < 3
    ensures QueuesOk(Moved(s, x, y)) && QueuesOk(WakeWaiter(Moved(s, x, y), x)) &&
            WakeWaiter(Moved(s, x, y), x).count == s.count
    ensures w == WokenBy(s, x) && AnswerTable(s.pcbs, WakeWaiter(Moved(s, x, y), x).pcbs, x, y, w)
    ensures var p := s.pcbs[x].ppid;
            p in s.pcbs && (w != x ==> w == p) && (s.pcbs[p].status == Blocked && WaitsFor(s.pcbs[p], x) ==> w == p)
  {
    hide QueuesOk, TreeOk, WaitsOk, Moved, WakeWaiter, WokenBy;
    WakesFirst(s, x, y);
    TreeAt(s.pcbs, s.count, x);
    w := WokenBy(s, x);
    if w != x {
      OnlyParentMatches(s.pcbs, s.count, w, x);
    }
  }

  lemma WakeMoved(s: State, w: Pid)
    requires QueuesOk(s) && w in s.pcbs
    ensures QueuesOk(Moved(s, w, Woken(s.pcbs[w]))) &&
            Moved(s, w, Woken(s.pcbs[w])).pcbs == s.pcbs[w := Woken(s.pcbs[w])]
    ensures Moved(s, w, Woken(s.pcbs[w])).count == s.count
  {
    PriorityOk(s, w);
    MovedOk(s, w, Woken(s.pcbs[w]));
  }

  // ---- k_proc_exit ----

  function Reparented(pcbs: map<Pid, Pcb>, x: Pid): map<Pid, Pcb>
    requires x in pcbs
  {
    map p | p in pcbs ::
      if p in pcbs[x].children then pcbs[p].(ppid := INIT)
      else if p == INIT then pcbs[p].(children := pcbs[p].children + pcbs[x].children)
      else pcbs[p]
  }

  function Dead(x: Pcb): Pcb
  {
    x.(status := Zombied)
  }

  function Exited(s: State, x: Pid): State
    requires QueuesOk(s) && x in s.pcbs
  {
    MovedOk(s, x, Dead(s.pcbs[x]));
    var s1 := Moved(s, x, Dead(s.pcbs[x]));
    var s2 := WakeWaiter(s1, x);
    assert x in s2.pcbs;
    s2.(pcbs := Reparented(s2.pcbs, x))
  }

  /** The table after an exit: `w` is the parent if it was woken, else `x` itself. */
  ghost predicate ExitTable(pcbs: map<Pid, Pcb>, pcbs': map<Pid, Pcb>, x: Pid, w: Pid)
    requires x in pcbs
  {
    && pcbs'.Keys == pcbs.Keys && IsAlive(pcbs, w)
    && forall p :: p in pcbs ==> pcbs'[p] == pcbs[p].(
         status := if p == x then Zombied else if p == w then Running else pcbs[p].status,
         ppid := if p in pcbs[x].children then INIT else pcbs[p].ppid,
         children := if p == INIT then pcbs[p].children + pcbs[x].children else pcbs[p].children)
  }

  lemma ExitWakesFirst(s: State, x: Pid)
    requires QueuesOk(s) && TreeOk(s.pcbs, s.count) && IsAlive(s.pcbs, x) && x != INIT
    ensures ExitTable(s.pcbs, Exited(s, x).pcbs, x, WokenBy(s, x)) && QueuesOk(Exited(s, x)) &&
            Exited(s, x).count == s.count
  {
    hide QueuesOk, TreeOk, Moved, WakeWaiter, WokenBy;
    PriorityOk(s, x);
    WakesFirst(s, x, Dead(s.pcbs[x]));
    TreeAt(s.pcbs, s.count, x);
    var s2 := WakeWaiter(Moved(s, x, Dead(s.pcbs[x])), x);
    ReparentedTable(s.pcbs, s2.pcbs, x, WokenBy(s, x));
    SamePlaces(s2, Reparented(s2.pcbs, x));
  }

  lemma ExitWakesParent(s: State, x: Pid) returns (w: Pid)
    requires QueuesOk(s) && TreeOk(s.pcbs, s.count) && WaitsOk(s.pcbs, s.count) && IsAlive(s.pcbs, x) && x != INIT
    ensures ExitTable(s.pcbs, Exited(s, x).pcbs, x, w) && QueuesOk(Exited(s, x)) && Exited(s, x).count == s.count
    ensures var p := s.pcbs[x].ppid; p in s.pcbs && (s.pcbs[p].status == Blocked && WaitsFor(s.pcbs[p], x) ==> w == p)
  {
    hide QueuesOk, TreeOk, WaitsOk, Moved, WakeWaiter, WokenBy, Exited, ExitTable;
    PriorityOk(s, x);
    ExitWakesFirst(s, x);
    w := WakesParent(s, x, Dead(s.pcbs[x]));
  }

  lemma ReparentedTable(pcbs: map<Pid, Pcb>, pcbs2: map<Pid, Pcb>, x: Pid, w: Pid)
    requires IsAlive(pcbs, x) && x != INIT && INIT !in pcbs[x].children && AnswerTable(pcbs, pcbs2, x, Dead(pcbs[x]), w)
    ensures ExitTable(pcbs, Reparented(pcbs2, x), x, w)
  {
  }

  lemma SamePlaces(s: State, pcbs: map<Pid, Pcb>)
    requires QueuesOk(s) && pcbs.Keys == s.pcbs.Keys
    requires forall p :: p in pcbs ==> pcbs[p].status == s.pcbs[p].status && pcbs[p].priority == s.pcbs[p].priority
    ensures QueuesOk(s.(pcbs := pcbs))
  {
  }

  lemma NoDupConcat(a: seq<Pid>, b: seq<Pid>)
    requires NoDup(a) && NoDup(b) && forall x :: x in a ==> x !in b
    ensures NoDup(a + b)
  {
    forall i, j | 0 <= i < j < |a + b|
      ensures (a + b)[i] != (a + b)[j]
    {
      assert i < |a| ==> (a + b)[i] in a;
      assert j >= |a| ==> (a + b)[j] in b;
    }
  }

  lemma ExitChildrenOk(pcbs: map<Pid, Pcb>, pcbs': map<Pid, Pcb>, x: Pid, w: Pid, p: Pid)
    requires IsAlive(pcbs, x) && x != INIT && INIT in pcbs && ExitTable(pcbs, pcbs', x, w)
    requires ChildrenOk(pcbs, x) && ChildrenOk(pcbs, INIT) && p in pcbs && p != x && ChildrenOk(pcbs, p)
    ensures ChildrenOk(pcbs', p)
  {
    if p == INIT {
      NoDupConcat(pcbs[INIT].children, pcbs[x].children);
    }
  }

  lemma ExitParentOk(pcbs: map<Pid, Pcb>, pcbs': map<Pid, Pcb>, x: Pid, w: Pid, c: Pid)
    requires IsAlive(pcbs, x) && x != INIT && IsAlive(pcbs, INIT) && ExitTable(pcbs, pcbs', x, w)
    requires ChildrenOk(pcbs, x) && c in pcbs && INIT < c && ParentOk(pcbs, c)
    ensures ParentOk(pcbs', c)
  {
  }

  lemma ExitTreeOk(pcbs: map<Pid, Pcb>, pcbs': map<Pid, Pcb>, count: nat, x: Pid, w: Pid)
    requires TreeOk(pcbs, count) && IsAlive(pcbs, x) && x != INIT && ExitTable(pcbs, pcbs', x, w)
    ensures TreeOk(pcbs', count)
  {
    hide ChildrenOk, ParentOk;
    forall p | IsAlive(pcbs', p)
      ensures ChildrenOk(pcbs', p)
    {
      ExitChildrenOk(pcbs, pcbs', x, w, p);
    }
    forall c | c in pcbs' && c != INIT
      ensures ParentOk(pcbs', c)
    {
      ExitParentOk(pcbs, pcbs', x, w, c);
    }
  }

  lemma ExitWaitsOk(pcbs: map<Pid, Pcb>, pcbs': map<Pid, Pcb>, count: nat, x: Pid, w: Pid)
    requires TreeOk(pcbs, count) && WaitsOk(pcbs, count) && IsAlive(pcbs, x) && x != INIT &&
             ExitTable(pcbs, pcbs', x, w)
    ensures WaitsOk(pcbs', count)
  {
    hide TreeOk;
    assert ChildrenOk(pcbs, x) by { TreeAt(pcbs, count, x); }
    forall p | IsAlive(pcbs', p)
      ensures WaitOk(pcbs', p, count)
    {
      assert WaitOk(pcbs, p, count);
    }
  }

  lemma TreeAt(pcbs: map<Pid, Pcb>, count: nat, p: Pid)
    requires TreeOk(pcbs, count) && IsAlive(pcbs, p)
    ensures ChildrenOk(pcbs, p) && INIT in pcbs && INIT <= p && (p != INIT ==> ParentOk(pcbs, p))
  {
  }

  lemma ExitAwakeAt(pcbs: map<Pid, Pcb>, pcbs': map<Pid, Pcb>, x: Pid, w: Pid, p: Pid)
    requires IsAlive(pcbs, x) && x != INIT && INIT in pcbs && ExitTable(pcbs, pcbs', x, w)
    requires p in pcbs && AwakeAt(pcbs, p) && ChildrenOk(pcbs, p) && !IsWaiting(pcbs[INIT])
    requires pcbs[p].status == Blocked && WaitsFor(pcbs[p], x) && pcbs[x].ppid == p ==> w == p
    ensures AwakeAt(pcbs', p)
  {
  }

  lemma ExitAwakeOk(pcbs: map<Pid, Pcb>, pcbs': map<Pid, Pcb>, count: nat, x: Pid, w: Pid)
    requires TreeOk(pcbs, count) && AwakeOk(pcbs) && IsAlive(pcbs, x) && x != INIT && ExitTable(pcbs, pcbs', x, w)
    requires INIT in pcbs && !IsWaiting(pcbs[INIT])
    requires var p := pcbs[x].ppid; p in pcbs && (pcbs[p].status == Blocked && WaitsFor(pcbs[p], x) ==> w == p)
    ensures AwakeOk(pcbs') && INIT in pcbs' && !IsWaiting(pcbs'[INIT])
  {
    hide TreeOk, AwakeAt, ChildrenOk;
    forall p | p in pcbs'
      ensures AwakeAt(pcbs', p)
    {
      if IsWaiting(pcbs'[p]) {
        TreeAt(pcbs, count, p);
        ExitAwakeAt(pcbs, pcbs', x, w, p);
      } else {
        AsleepIsAwake(pcbs', p);
      }
    }
  }

  lemma AsleepIsAwake(pcbs: map<Pid, Pcb>, p: Pid)
    requires p in pcbs && !IsWaiting(pcbs[p])
    ensures AwakeAt(pcbs, p)
  {
  }

  lemma ExitOk(s: State, x: Pid)
    requires Inv(s) && IsAlive(s.pcbs, x) && x != INIT
    ensures Inv(Exited(s, x)) && Exited(s, x).pcbs.Keys == s.pcbs.Keys
  {
    hide QueuesOk, TreeOk, WaitsOk, AwakeOk;
    var w := ExitWakesParent(s, x);
    ExitTreeOk(s.pcbs, Exited(s, x).pcbs, s.count, x, w);
    ExitWaitsOk(s.pcbs, Exited(s, x).pcbs, s.count, x, w);
    ExitAwakeOk(s.pcbs, Exited(s, x).pcbs, s.count, x, w);
  }

  // ---- one living process changes ----

  /** `x` differs from the process `p` in nothing that the tree depends on. */
  predicate KeepsTree(pcbs: map<Pid, Pcb>, p: Pid, x: Pcb)
  {
    IsAlive(pcbs, p) && x.status != Zombied && x.ppid == pcbs[p].ppid && x.children == pcbs[p].children
  }

  lemma AdjustedTreeOk(pcbs: map<Pid, Pcb>, count: nat, p: Pid, x: Pcb)
    requires TreeOk(pcbs, count) && KeepsTree(pcbs, p, x)
    ensures TreeOk(pcbs[p := x], count)
  {
    var pcbs' := pcbs[p := x];
    forall q | IsAlive(pcbs', q)
      ensures ChildrenOk(pcbs', q)
    {
      assert ChildrenOk(pcbs, q);
    }
    forall c | c in pcbs' && c != INIT
      ensures ParentOk(pcbs', c)
    {
      assert ParentOk(pcbs, c);
    }
  }

  lemma AdjustedWaitsOk(pcbs: map<Pid, Pcb>, count: nat, p: Pid, x: Pcb)
    requires WaitsOk(pcbs, count) && KeepsTree(pcbs, p, x)
    requires x.waited == pcbs[p].waited || (x.waited <= count &&
                                            (x.waited in pcbs ==> x.waited != INIT && pcbs[x.waited].ppid == p))
    ensures WaitsOk(pcbs[p := x], count)
  {
    var pcbs' := pcbs[p := x];
    forall q | IsAlive(pcbs', q)
      ensures WaitOk(pcbs', q, count)
    {
      assert WaitOk(pcbs, q, count);
    }
  }

  lemma AdjustedAwakeOk(pcbs: map<Pid, Pcb>, p: Pid, x: Pcb)
    requires AwakeOk(pcbs) && KeepsTree(pcbs, p, x) && !HasAnswer(x) && AwakeAt(pcbs[p := x], p)
    ensures AwakeOk(pcbs[p := x])
  {
  }

  lemma AdjustedOk(s: State, s': State, p: Pid, x: Pcb)
    requires Inv(s) && KeepsTree(s.pcbs, p, x) && !HasAnswer(x) && AwakeAt(s.pcbs[p := x], p)
    requires x.waited == s.pcbs[p].waited || (x.waited <= s.count &&
                                              (x.waited in s.pcbs ==> x.waited != INIT && s.pcbs[x.waited].ppid == p))
    requires p == INIT ==> !IsWaiting(x)
    requires QueuesOk(s') && s'.pcbs == s.pcbs[p := x] && s'.count == s.count
    ensures Inv(s') && s'.pcbs.Keys == s.pcbs.Keys
  {
    hide QueuesOk, TreeOk, WaitsOk, AwakeOk, AwakeAt;
    AdjustedTreeOk(s.pcbs, s.count, p, x);
    AdjustedWaitsOk(s.pcbs, s.count, p, x);
    AdjustedAwakeOk(s.pcbs, p, x);
  }

  // ---- k_stop_process, k_continue_process ----

  function Halted(x: Pcb): Pcb
  {
    x.(status := Stopped)
  }

  function StoppedState(s: State, x: Pid): State
    requires QueuesOk(s) && x in s.pcbs
  {
    MovedOk(s, x, Halted(s.pcbs[x]));
    WakeWaiter(Moved(s, x, Halted(s.pcbs[x])), x)
  }

  lemma AnswerAwakeOk(pcbs: map<Pid, Pcb>, pcbs': map<Pid, Pcb>, count: nat, x: Pid, w: Pid)
    requires TreeOk(pcbs, count) && AwakeOk(pcbs) && IsAlive(pcbs, x) && x != INIT &&
             AnswerTable(pcbs, pcbs', x, Halted(pcbs[x]), w)
    requires var p := pcbs[x].ppid; p in pcbs && (pcbs[p].status == Blocked && WaitsFor(pcbs[p], x) ==> w == p)
    ensures AwakeOk(pcbs')
  {
    hide TreeOk, ChildrenOk, ParentOk;
    forall p | p in pcbs'
      ensures AwakeAt(pcbs', p)
    {
      assert AwakeAt(pcbs, p);
      if IsWaiting(pcbs'[p]) {
        TreeAt(pcbs, count, p);
        AnswerAwakeAt(pcbs, pcbs', x, w, p);
      }
    }
  }

  lemma AnswerAwakeAt(pcbs: map<Pid, Pcb>, pcbs': map<Pid, Pcb>, x: Pid, w: Pid, p: Pid)
    requires IsAlive(pcbs, x) && AnswerTable(pcbs, pcbs', x, Halted(pcbs[x]), w)
    requires p in pcbs && AwakeAt(pcbs, p) && ChildrenOk(pcbs, p)
    requires pcbs[p].status == Blocked && WaitsFor(pcbs[p], x) && pcbs[x].ppid == p ==> w == p
    ensures AwakeAt(pcbs', p)
  {
  }

  lemma StopOk(s: State, x: Pid)
    requires Inv(s) && IsAlive(s.pcbs, x) && x != INIT
    ensures Inv(StoppedState(s, x)) && StoppedState(s, x).pcbs.Keys == s.pcbs.Keys
  {
    hide QueuesOk, TreeOk, WaitsOk, AwakeOk, AwakeAt, Moved, WakeWaiter;
    PriorityOk(s, x);
    var y := Halted(s.pcbs[x]);
    var w := WakesParent(s, x, y);
    AnswerAwakeOk(s.pcbs, StoppedState(s, x).pcbs, s.count, x, w);
    AdjustedTreeOk(s.pcbs, s.count, x, y);
    AdjustedWaitsOk(s.pcbs, s.count, x, y);
    if w != x {
      AdjustedTreeOk(s.pcbs[x := y], s.count, w, Woken(s.pcbs[w]));
      AdjustedWaitsOk(s.pcbs[x := y], s.count, w, Woken(s.pcbs[w]));
    }
  }

  function ContinuedState(s: State, x: Pid): State
    requires x in s.pcbs
  {
    Moved(s, x, Woken(s.pcbs[x]))
  }

  lemma ContinueOk(s: State, x: Pid)
    requires Inv(s) && IsAlive(s.pcbs, x)
    ensures Inv(ContinuedState(s, x)) && ContinuedState(s, x).pcbs.Keys == s.pcbs.Keys
  {
    hide QueuesOk, TreeOk, WaitsOk, AwakeOk;
    WakeMoved(s, x);
    AdjustedOk(s, ContinuedState(s, x), x, Woken(s.pcbs[x]));
  }

  // ---- k_set_priority ----

  function Reniced(s: State, p: Pid, priority: nat): State
    requires p in s.pcbs
  {
    var x := s.pcbs[p].(priority := priority);
    if x.status == Running && s.pcbs[p].priority != priority then Moved(s, p, x) else s.(pcbs := s.pcbs[p := x])
  }

  lemma ReniceOk(s: State, p: Pid, priority: nat)
    requires Inv(s) && p in s.pcbs && priority < 3
    ensures Inv(Reniced(s, p, priority)) && Reniced(s, p, priority).pcbs.Keys == s.pcbs.Keys
  {
    hide QueuesOk, TreeOk, WaitsOk, AwakeOk;
    var x := s.pcbs[p].(priority := priority);
    PriorityOk(s, p);
    if x.status == Running && s.pcbs[p].priority != priority {
      MovedOk(s, p, x);
    } else {
      StayedOk(s, p, x);
    }
    PriorityTreeOk(s.pcbs, s.count, p, priority);
    PriorityWaitsOk(s.pcbs, s.count, p, priority);
  }

  lemma PriorityTreeOk(pcbs: map<Pid, Pcb>, count: nat, p: Pid, priority: nat)
    requires TreeOk(pcbs, count) && p in pcbs
    ensures TreeOk(pcbs[p := pcbs[p].(priority := priority)], count)
  {
    var pcbs' := pcbs[p := pcbs[p].(priority := priority)];
    forall q | IsAlive(pcbs', q)
      ensures ChildrenOk(pcbs', q)
    {
      assert ChildrenOk(pcbs, q);
    }
    forall c | c in pcbs' && c != INIT
      ensures ParentOk(pcbs', c)
    {
      assert ParentOk(pcbs, c);
    }
  }

  lemma PriorityWaitsOk(pcbs: map<Pid, Pcb>, count: nat, p: Pid, priority: nat)
    requires WaitsOk(pcbs, count) && AwakeOk(pcbs) && p in pcbs
    ensures var pcbs' := pcbs[p := pcbs[p].(priority := priority)]; WaitsOk(pcbs', count) && AwakeOk(pcbs')
  {
    var pcbs' := pcbs[p := pcbs[p].(priority := priority)];
    forall q | IsAlive(pcbs', q)
      ensures WaitOk(pcbs', q, count)
    {
      assert WaitOk(pcbs, q, count);
    }
    forall q | q in pcbs'
      ensures AwakeAt(pcbs', q)
    {
      assert AwakeAt(pcbs, q);
    }
  }

  // ---- k_sleep, k_resume_sleep ----

  function Slept(s: State, p: Pid, ticks: nat): State
    requires p in s.pcbs
  {
    Moved(s, p, s.pcbs[p].(status := Blocked, sleep := 10 * ticks))
  }

  lemma SleepOk(s: State, p: Pid, ticks: nat)
    requires Inv(s) && IsAlive(s.pcbs, p) && ticks > 0
    ensures Inv(Slept(s, p, ticks)) && Slept(s, p, ticks).pcbs.Keys == s.pcbs.Keys
  {
    hide QueuesOk, TreeOk, WaitsOk, AwakeOk;
    PriorityOk(s, p);
    MovedOk(s, p, s.pcbs[p].(status := Blocked, sleep := 10 * ticks));
    AdjustedOk(s, Slept(s, p, ticks), p, s.pcbs[p].(status := Blocked, sleep := 10 * ticks));
  }

  function SleepResumed(s: State, p: Pid): State
    requires p in s.pcbs
  {
    if s.pcbs[p].sleep == 0 then s else Moved(s, p, s.pcbs[p].(status := Blocked))
  }

  lemma ResumeOk(s: State, p: Pid)
    requires Inv(s) && IsAlive(s.pcbs, p)
    ensures Inv(SleepResumed(s, p)) && SleepResumed(s, p).pcbs.Keys == s.pcbs.Keys
  {
    hide QueuesOk, TreeOk, WaitsOk, AwakeOk;
    PriorityOk(s, p);
    if s.pcbs[p].sleep > 0 {
      MovedOk(s, p, s.pcbs[p].(status := Blocked));
      AdjustedOk(s, SleepResumed(s, p), p, s.pcbs[p].(status := Blocked));
    }
  }

  // ---- k_proc_create ----

  function Newborn(parent: Pid, priority: nat): Pcb
  {
    Pcb(parent, Running, priority, 0, -2, [])
  }

  function Created(s: State, parent: Pid, priority: nat): State
    requires parent in s.pcbs
  {
    var pid := s.count + 1;
    var x := s.pcbs[parent];
    Moved(s.(pcbs := s.pcbs[parent := x.(children := x.children + [pid])]), pid,
          Newborn(parent, priority)).(count := pid)
  }

  /** The table with the new process `n`, a child of `p`. */
  ghost predicate CreateTable(pcbs: map<Pid, Pcb>, pcbs': map<Pid, Pcb>, p: Pid, n: Pid, priority: nat)
    requires p in pcbs
  {
    && n !in pcbs && pcbs'.Keys == pcbs.Keys + {n} && pcbs'[n] == Newborn(p, priority)
    && forall q :: q in pcbs ==> pcbs'[q] == if q == p then pcbs[q].(children := pcbs[q].children + [n]) else pcbs[q]
  }

  lemma CreateChildrenOk(pcbs: map<Pid, Pcb>, pcbs': map<Pid, Pcb>, p: Pid, n: Pid, priority: nat, q: Pid)
    requires IsAlive(pcbs, p) && CreateTable(pcbs, pcbs', p, n, priority) && n != INIT && q in pcbs &&
             ChildrenOk(pcbs, q)
    ensures ChildrenOk(pcbs', q)
  {
  }

  lemma CreateParentOk(pcbs: map<Pid, Pcb>, pcbs': map<Pid, Pcb>, p: Pid, n: Pid, priority: nat, c: Pid)
    requires IsAlive(pcbs, p) && CreateTable(pcbs, pcbs', p, n, priority) && p < n && c in pcbs' &&
             (c in pcbs ==> ParentOk(pcbs, c))
    ensures ParentOk(pcbs', c)
  {
  }

  lemma NewbornOk(pcbs: map<Pid, Pcb>, pcbs': map<Pid, Pcb>, p: Pid, n: Pid, priority: nat)
    requires IsAlive(pcbs, p) && CreateTable(pcbs, pcbs', p, n, priority)
    ensures ChildrenOk(pcbs', n) && AwakeAt(pcbs', n)
    ensures -2 !in pcbs && n >= 0 ==> WaitOk(pcbs', n, n)
  {
  }

  lemma CreateTreeOk(pcbs: map<Pid, Pcb>, pcbs': map<Pid, Pcb>, count: nat, p: Pid, priority: nat)
    requires TreeOk(pcbs, count) && IsAlive(pcbs, p) && CreateTable(pcbs, pcbs', p, count + 1, priority)
    ensures TreeOk(pcbs', count + 1)
  {
    hide ChildrenOk, ParentOk;
    assert IsAlive(pcbs, INIT) && IsAlive(pcbs', INIT);
    NewbornOk(pcbs, pcbs', p, count + 1, priority);
    forall q | IsAlive(pcbs', q)
      ensures ChildrenOk(pcbs', q)
    {
      if q in pcbs {
        CreateChildrenOk(pcbs, pcbs', p, count + 1, priority, q);
      }
    }
    forall c | c in pcbs' && c != INIT
      ensures ParentOk(pcbs', c)
    {
      CreateParentOk(pcbs, pcbs', p, count + 1, priority, c);
    }
  }

  lemma CreateWaitOk(pcbs: map<Pid, Pcb>, pcbs': map<Pid, Pcb>, p: Pid, n: Pid, priority: nat, q: Pid, count: nat)
    requires IsAlive(pcbs, p) && CreateTable(pcbs, pcbs', p, n, priority) && n == count + 1 && q in pcbs
    requires WaitOk(pcbs, q, count) && AwakeAt(pcbs, q)
    ensures WaitOk(pcbs', q, n) && AwakeAt(pcbs', q)
  {
  }

  lemma CreateWaitsOk(pcbs: map<Pid, Pcb>, pcbs': map<Pid, Pcb>, count: nat, p: Pid, priority: nat)
    requires TreeOk(pcbs, count) && WaitsOk(pcbs, count) && AwakeOk(pcbs) && IsAlive(pcbs, p) &&
             CreateTable(pcbs, pcbs', p, count + 1, priority)
    ensures WaitsOk(pcbs', count + 1) && AwakeOk(pcbs')
  {
    hide TreeOk, WaitOk, AwakeAt;
    assert -2 !in pcbs by { PidsPositive(pcbs, count, -2); }
    NewbornOk(pcbs, pcbs', p, count + 1, priority);
    forall q | IsAlive(pcbs', q)
      ensures WaitOk(pcbs', q, count + 1)
    {
      if q in pcbs {
        CreateWaitOk(pcbs, pcbs', p, count + 1, priority, q, count);
      }
    }
    forall q | q in pcbs'
      ensures AwakeAt(pcbs', q)
    {
      if IsAlive(pcbs, q) {
        CreateWaitOk(pcbs, pcbs', p, count + 1, priority, q, count);
      } else if q in pcbs {
        AsleepIsAwake(pcbs', q);
      }
    }
  }

  /** A new process: one more in the population, the last of its parent's children. */
  lemma CreateOk(s: State, p: Pid, priority: nat)
    requires Inv(s) && IsAlive(s.pcbs, p) && priority < 3
    ensures Inv(Created(s, p, priority)) && Created(s, p, priority).pcbs.Keys == s.pcbs.Keys + {s.count + 1} &&
            s.count + 1 !in s.pcbs
  {
    hide QueuesOk, WaitsOk, AwakeOk, TreeOk, Created;
    PidsPositive(s.pcbs, s.count, s.count + 1);
    CreateQueuesOk(s, p, priority);
    CreateTreeOk(s.pcbs, Created(s, p, priority).pcbs, s.count, p, priority);
    CreateWaitsOk(s.pcbs, Created(s, p, priority).pcbs, s.count, p, priority);
  }

  lemma CreateQueuesOk(s: State, p: Pid, priority: nat)
    requires QueuesOk(s) && p in s.pcbs && priority < 3 && s.count + 1 !in s.pcbs
    ensures var s' := Created(s, p, priority);
            QueuesOk(s') && s'.count == s.count + 1 && CreateTable(s.pcbs, s'.pcbs, p, s.count + 1, priority)
  {
    hide QueuesOk;
    var x := s.pcbs[p].(children := s.pcbs[p].children + [s.count + 1]);
    PriorityOk(s, p);
    StayedOk(s, p, x);
    var s1 := s.(pcbs := s.pcbs[p := x]);
    MovedOk(s1, s.count + 1, Newborn(p, priority));
    CountIrrelevant(Moved(s1, s.count + 1, Newborn(p, priority)), s.count + 1);
  }

  lemma CountIrrelevant(s: State, count: nat)
    requires QueuesOk(s)
    ensures QueuesOk(s.(count := count))
  {
  }

  // ---- k_waitpid ----

  datatype WaitResult = Reaped(pid: Pid) | ChildStopped | NoChildren | NotFound | NotMine | NotYet | MustBlock

  /** The index of the first child that has terminated or stopped; the number of children if there is none. */
  function FirstAnswer(pcbs: map<Pid, Pcb>, children: seq<Pid>): (i: nat)
    requires forall j :: 0 <= j < |children| ==> children[j] in pcbs
    ensures i <= |children| && (i < |children| ==> HasAnswer(pcbs[children[i]]))
    ensures forall j :: 0 <= j < i ==> !HasAnswer(pcbs[children[j]])
  {
    if children == [] || HasAnswer(pcbs[children[0]]) then 0 else 1 + FirstAnswer(pcbs, children[1..])
  }

  lemma ChildrenIn(pcbs: map<Pid, Pcb>, p: Pid)
    requires p in pcbs && ChildrenOk(pcbs, p)
    ensures forall j :: 0 <= j < |pcbs[p].children| ==> pcbs[p].children[j] in pcbs
  {
    var children := pcbs[p].children;
    assert forall c :: c in children ==> c in pcbs;
    assert forall j :: 0 <= j < |children| ==> children[j] in children;
  }

  function WithWaited(s: State, p: Pid, w: int): State
    requires p in s.pcbs
  {
    s.(pcbs := s.pcbs[p := s.pcbs[p].(waited := w)])
  }

  /** `p` collects its terminated child `c`, which leaves the system. */
  function Collected(s: State, p: Pid, c: Pid): State
    requires |s.queues| == 6 && p in s.pcbs
  {
    s.(pcbs := s.pcbs[p := s.pcbs[p].(children := Without(s.pcbs[p].children, c))] - {c},
       queues := s.queues[ZOMBIES := Without(s.queues[ZOMBIES], c)])
  }

  function BlockedState(s: State, p: Pid): State
    requires p in s.pcbs
  {
    Moved(s, p, s.pcbs[p].(status := Blocked))
  }

  function WaitAny(s: State, p: Pid, nohang: bool): (State, WaitResult)
    requires |s.queues| == 6 && p in s.pcbs && ChildrenOk(s.pcbs, p)
  {
    var s1 := WithWaited(s, p, -1);
    var children := s.pcbs[p].children;
    ChildrenIn(s.pcbs, p);
    var i := FirstAnswer(s.pcbs, children);
    if i < |children| then
      var c := children[i];
      if s.pcbs[c].status == Zombied then (Collected(s1, p, c), Reaped(c)) else (s1, ChildStopped)
    else if children == [] then (s1, NoChildren)
    else if nohang then (s1, NotYet)
    else (BlockedState(s1, p), MustBlock)
  }

  function WaitOne(s: State, p: Pid, c: Pid, nohang: bool): (State, WaitResult)
    requires |s.queues| == 6 && p in s.pcbs
  {
    var s1 := WithWaited(s, p, c);
    if c !in s.pcbs then (s1, NotFound)
    else if s.pcbs[c].ppid != p then (s1, NotMine)
    else if s.pcbs[c].status == Zombied then (Collected(s1, p, c), Reaped(c))
    else if s.pcbs[c].status == Stopped then (s1, ChildStopped)
    else if nohang then (s1, NotYet)
    else (BlockedState(s1, p), MustBlock)
  }

  lemma WaitedOk(s: State, p: Pid, w: int)
    requires Inv(s) && IsAlive(s.pcbs, p) && s.pcbs[p].status == Running
    requires w <= s.count && (w in s.pcbs ==> w != INIT && s.pcbs[w].ppid == p)
    ensures Inv(WithWaited(s, p, w))
  {
    hide QueuesOk, TreeOk, WaitsOk, AwakeOk;
    var x := s.pcbs[p].(waited := w);
    PriorityOk(s, p);
    StayedOk(s, p, x);
    AdjustedOk(s, WithWaited(s, p, w), p, x);
  }

  lemma BlockOk(s: State, p: Pid)
    requires Inv(s) && IsAlive(s.pcbs, p) && (p == INIT ==> s.pcbs[p].sleep > 0)
    requires forall c :: c in s.pcbs[p].children && c in s.pcbs && WaitsFor(s.pcbs[p], c) ==> !HasAnswer(s.pcbs[c])
    ensures Inv(BlockedState(s, p)) && BlockedState(s, p).pcbs.Keys == s.pcbs.Keys
  {
    hide QueuesOk, WaitsOk, AwakeOk;
    TreeAt(s.pcbs, s.count, p);
    hide TreeOk;
    var x := s.pcbs[p].(status := Blocked);
    PriorityOk(s, p);
    MovedOk(s, p, x);
    AdjustedOk(s, BlockedState(s, p), p, x);
  }

  lemma CollectOk(s: State, p: Pid, c: Pid)
    requires Inv(s) && IsAlive(s.pcbs, p) && c in s.pcbs && s.pcbs[c].status == Zombied && c in s.pcbs[p].children
    ensures Inv(Collected(s, p, c)) && Collected(s, p, c).pcbs.Keys == s.pcbs.Keys - {c}
  {
    hide QueuesOk, WaitsOk, AwakeOk, TreeOk;
    TreeAt(s.pcbs, s.count, p);
    CollectQueuesOk(s, p, c);
    CollectTreeOk(s.pcbs, s.count, p, c);
    CollectWaitsOk(s.pcbs, s.count, p, c);
  }

  lemma CollectQueuesOk(s: State, p: Pid, c: Pid)
    requires QueuesOk(s) && IsAlive(s.pcbs, p) && c in s.pcbs && s.pcbs[c].status == Zombied
    ensures QueuesOk(Collected(s, p, c))
  {
    var s' := Collected(s, p, c);
    forall k | 0 <= k < 6
      ensures IsQueue(s'.pcbs, s'.queues[k], k)
    {
      assert IsQueue(s.pcbs, s.queues[k], k);
      if k == ZOMBIES {
        WithoutOk(s.queues[k], c);
      }
    }
  }

  lemma CollectTreeOk(pcbs: map<Pid, Pcb>, count: nat, p: Pid, c: Pid)
    requires TreeOk(pcbs, count) && IsAlive(pcbs, p) && c in pcbs[p].children && c in pcbs && pcbs[c].status == Zombied
    ensures TreeOk(pcbs[p := pcbs[p].(children := Without(pcbs[p].children, c))] - {c}, count)
  {
    var pcbs' := pcbs[p := pcbs[p].(children := Without(pcbs[p].children, c))] - {c};
    TreeAt(pcbs, count, p);
    assert IsAlive(pcbs', INIT);
    hide ChildrenOk, ParentOk;
    forall q | IsAlive(pcbs', q)
      ensures ChildrenOk(pcbs', q)
    {
      CollectChildrenOk(pcbs, pcbs', p, c, q);
    }
    forall d | d in pcbs' && d != INIT
      ensures ParentOk(pcbs', d)
    {
      CollectParentOk(pcbs, pcbs', p, c, d);
    }
  }

  lemma CollectChildrenOk(pcbs: map<Pid, Pcb>, pcbs': map<Pid, Pcb>, p: Pid, c: Pid, q: Pid)
    requires IsAlive(pcbs, p) && ChildrenOk(pcbs, p) && c in pcbs[p].children && c in pcbs && pcbs[c].status == Zombied
    requires pcbs' == pcbs[p := pcbs[p].(children := Without(pcbs[p].children, c))] - {c} && q in pcbs' &&
             ChildrenOk(pcbs, q)
    ensures ChildrenOk(pcbs', q)
  {
    WithoutOk(pcbs[p].children, c);
  }

  lemma CollectParentOk(pcbs: map<Pid, Pcb>, pcbs': map<Pid, Pcb>, p: Pid, c: Pid, d: Pid)
    requires IsAlive(pcbs, p) && ChildrenOk(pcbs, p) && c in pcbs[p].children && c in pcbs && pcbs[c].status == Zombied
    requires pcbs' == pcbs[p := pcbs[p].(children := Without(pcbs[p].children, c))] - {c} && d in pcbs' &&
             ParentOk(pcbs, d)
    ensures ParentOk(pcbs', d)
  {
    WithoutOk(pcbs[p].children, c);
  }

  lemma CollectWaitsOk(pcbs: map<Pid, Pcb>, count: nat, p: Pid, c: Pid)
    requires WaitsOk(pcbs, count) && AwakeOk(pcbs) && IsAlive(pcbs, p) && c in pcbs && pcbs[c].status == Zombied &&
             NoDup(pcbs[p].children)
    ensures var pcbs' := pcbs[p := pcbs[p].(children := Without(pcbs[p].children, c))] - {c};
            WaitsOk(pcbs', count) && AwakeOk(pcbs')
  {
    var pcbs' := pcbs[p := pcbs[p].(children := Without(pcbs[p].children, c))] - {c};
    WithoutOk(pcbs[p].children, c);
    forall q | IsAlive(pcbs', q)
      ensures WaitOk(pcbs', q, count)
    {
      assert WaitOk(pcbs, q, count);
    }
    forall q | q in pcbs'
      ensures AwakeAt(pcbs', q)
    {
      assert AwakeAt(pcbs, q);
    }
  }

  /** Init blocks in a wait. */
  predicate BlocksInit(s: State, p: Pid, r: WaitResult)
    requires p in s.pcbs
  {
    p == INIT && r.MustBlock? && s.pcbs[p].sleep == 0
  }

  /**
   Waiting for any child blocks only if no child has terminated or stopped, and keeps the
   invariant if and only if it does not block init.
   */
  lemma WaitAnyOk(s: State, p: Pid, nohang: bool)
    requires Inv(s) && p in s.pcbs && s.pcbs[p].status == Running
    ensures ChildrenOk(s.pcbs, p) && |s.queues| == 6
    ensures var (s', r) := WaitAny(s, p, nohang);
            && (Inv(s') <==> !BlocksInit(s, p, r))
            && (r.NotYet? || r.MustBlock? ==> forall c :: c in s.pcbs[p].children ==> !HasAnswer(s.pcbs[c]))
  {
    hide QueuesOk, WaitsOk, AwakeOk, TreeOk, NoDup;
    TreeAt(s.pcbs, s.count, p);
    assert |s.queues| == 6 by { QueueHolds(s, 0); }
    assert -1 !in s.pcbs by { PidsPositive(s.pcbs, s.count, -1); }
    WaitedOk(s, p, -1);
    var s1 := WithWaited(s, p, -1);
    var children := s.pcbs[p].children;
    ChildrenIn(s.pcbs, p);
    var i := FirstAnswer(s.pcbs, children);
    if i < |children| {
      if s.pcbs[children[i]].status == Zombied {
        assert children[i] in s1.pcbs[p].children;
        CollectOk(s1, p, children[i]);
      }
    } else if children != [] && !nohang && !BlocksInit(s, p, MustBlock) {
      BlockOk(s1, p);
    }
  }

  lemma PidsPositive(pcbs: map<Pid, Pcb>, count: nat, p: Pid)
    requires TreeOk(pcbs, count) && (p <= 0 || p > count)
    ensures p !in pcbs
  {
  }

  /** The process waited for is a child of the caller, or its pid was given out and it does not exist any more. */
  predicate IsOwnWait(s: State, p: Pid, c: Pid)
  {
    c <= s.count && (c in s.pcbs ==> c != INIT && s.pcbs[c].ppid == p)
  }

  lemma ForeignWaitBreaks(s: State, p: Pid, c: Pid, nohang: bool)
    requires Inv(s) && p in s.pcbs && s.pcbs[p].status == Running && !IsOwnWait(s, p, c)
    ensures |s.queues| == 6 && !Inv(WaitOne(s, p, c, nohang).0)
  {
    hide QueuesOk, AwakeOk;
    assert |s.queues| == 6 by { QueueHolds(s, 0); }
    var s' := WaitOne(s, p, c, nohang).0;
    assert c > s.count ==> c !in s.pcbs by { hide TreeOk; if c > s.count { PidsPositive(s.pcbs, s.count, c); } }
    hide TreeOk;
    assert s'.count == s.count && s'.pcbs.Keys == s.pcbs.Keys && s'.pcbs[p].waited == c && IsAlive(s'.pcbs, p);
    assert c in s.pcbs ==> s'.pcbs[c].ppid == s.pcbs[c].ppid;
    assert !WaitOk(s'.pcbs, p, s'.count);
  }

  /**
   Waiting for one process blocks only if it has not terminated or stopped, and keeps the
   invariant if and only if it is a wait for a child that does not block init.
   */
  lemma WaitOneOk(s: State, p: Pid, c: Pid, nohang: bool)
    requires Inv(s) && p in s.pcbs && s.pcbs[p].status == Running
    ensures |s.queues| == 6
    ensures var (s', r) := WaitOne(s, p, c, nohang);
            && (Inv(s') <==> IsOwnWait(s, p, c) && !BlocksInit(s, p, r))
            && (r.NotYet? || r.MustBlock? ==> c in s.pcbs && !HasAnswer(s.pcbs[c]))
  {
    hide QueuesOk, WaitsOk, AwakeOk, TreeOk;
    assert |s.queues| == 6 by { QueueHolds(s, 0); }
    if !IsOwnWait(s, p, c) {
      ForeignWaitBreaks(s, p, c, nohang);
      return;
    }
    WaitedOk(s, p, c);
    if c in s.pcbs {
      OnList(s.pcbs, s.count, c);
      var s1 := WithWaited(s, p, c);
      if s.pcbs[c].status == Zombied {
        assert c in s1.pcbs[p].children;
        CollectOk(s1, p, c);
      } else if s.pcbs[c].status != Stopped && !nohang && !BlocksInit(s, p, MustBlock) {
        assert -1 !in s.pcbs by { PidsPositive(s.pcbs, s.count, -1); }
        BlockOk(s1, p);
      }
    }
  }

  lemma OnList(pcbs: map<Pid, Pcb>, count: nat, c: Pid)
    requires TreeOk(pcbs, count) && c in pcbs && c != INIT
    ensures pcbs[c].ppid in pcbs && c in pcbs[pcbs[c].ppid].children && pcbs[c].ppid != c
  {
  }

  // ---- _update_blocked_processes ----

  /**
   The timer pass from index `i` of the blocked queue on: sleepers lose a tenth. The pass
   ends with the first process that wakes, because it has moved to another queue.
   */
  function Ticked(s: State, i: nat): (r: State)
    requires QueuesOk(s)
    ensures |r.queues| == 6
    decreases |s.queues[BLOCKED]| - i
  {
    var q := s.queues[BLOCKED];
    QueueHolds(s, BLOCKED);
    if i >= |q| then s
    else
      var x := s.pcbs[q[i]];
      if x.sleep == 0 then Ticked(s, i + 1)
      else if x.sleep > 1 then
        PriorityOk(s, q[i]);
        StayedOk(s, q[i], x.(sleep := x.sleep - 1));
        Ticked(s.(pcbs := s.pcbs[q[i] := x.(sleep := x.sleep - 1)]), i + 1)
      else Moved(s, q[i], Woken(x.(sleep := 0)))
  }

  lemma {:induction false} TickOk(s: State, i: nat)
    requires Inv(s)
    ensures Inv(Ticked(s, i)) && Ticked(s, i).pcbs.Keys == s.pcbs.Keys && Ticked(s, i).count == s.count
    decreases |s.queues[BLOCKED]| - i
  {
    hide TreeOk, WaitsOk, AwakeOk, IsQueue, Moved;
    QueueHolds(s, BLOCKED);
    var q := s.queues[BLOCKED];
    if i < |q| {
      var x := s.pcbs[q[i]];
      if x.sleep == 0 {
        TickOk(s, i + 1);
      } else if x.sleep > 1 {
        TickOneOk(s, q[i]);
        TickOk(s.(pcbs := s.pcbs[q[i] := x.(sleep := x.sleep - 1)]), i + 1);
      } else {
        TimeoutOk(s, q[i]);
      }
    }
  }

  lemma TickOneOk(s: State, p: Pid)
    requires Inv(s) && p in s.pcbs && s.pcbs[p].status == Blocked && s.pcbs[p].sleep > 1
    ensures Inv(s.(pcbs := s.pcbs[p := s.pcbs[p].(sleep := s.pcbs[p].sleep - 1)]))
  {
    hide QueuesOk, TreeOk, WaitsOk, AwakeOk;
    var x := s.pcbs[p].(sleep := s.pcbs[p].sleep - 1);
    PriorityOk(s, p);
    StayedOk(s, p, x);
    AdjustedOk(s, s.(pcbs := s.pcbs[p := x]), p, x);
  }

  lemma TimeoutOk(s: State, p: Pid)
    requires Inv(s) && p in s.pcbs && s.pcbs[p].status == Blocked
    ensures var s' := Moved(s, p, Woken(s.pcbs[p].(sleep := 0)));
            Inv(s') && s'.pcbs.Keys == s.pcbs.Keys && s'.count == s.count
  {
    hide QueuesOk, TreeOk, WaitsOk, AwakeOk;
    var x := Woken(s.pcbs[p].(sleep := 0));
    PriorityOk(s, p);
    MovedOk(s, p, x);
    AdjustedOk(s, Moved(s, p, x), p, x);
  }

  // ---- the ready queues during scheduling ----

  /** The head of queue `k` goes to its tail. */
  function Rotated(q: seq<Pid>): seq<Pid>
  {
    if q == [] then [] else q[1..] + [q[0]]
  }

  function RotatedState(s: State, k: nat): State
    requires k < |s.queues|
  {
    s.(queues := s.queues[k := Rotated(s.queues[k])])
  }

  lemma RotateQueuesOk(s: State, k: nat)
    requires QueuesOk(s) && k < 6
    ensures QueuesOk(RotatedState(s, k))
  {
    var s' := RotatedState(s, k);
    var q := s.queues[k];
    assert IsQueue(s.pcbs, q, k);
    assert IsQueue(s.pcbs, Rotated(q), k) by {
      assert q != [] ==> q == [q[0]] + q[1..];
    }
    forall j | 0 <= j < 6
      ensures IsQueue(s'.pcbs, s'.queues[j], j)
    {
      assert IsQueue(s.pcbs, s.queues[j], j);
    }
  }

  lemma RotateOk(s: State, k: nat)
    requires Inv(s) && k < 6
    ensures Inv(RotatedState(s, k))
  {
    hide QueuesOk, TreeOk, WaitsOk, AwakeOk;
    RotateQueuesOk(s, k);
  }

  // ---- the tree ----

  /** Following parents leads from `p` to init. */
  ghost predicate ReachesInit(pcbs: map<Pid, Pcb>, p: Pid)
    decreases if p > 0 then p else 0
  {
    p == INIT || (p in pcbs && 0 < pcbs[p].ppid < p && ReachesInit(pcbs, pcbs[p].ppid))
  }

  lemma {:induction false} AllReachInit(pcbs: map<Pid, Pcb>, count: nat, p: Pid)
    requires TreeOk(pcbs, count) && p in pcbs
    ensures ReachesInit(pcbs, p)
    decreases if p > 0 then p else 0
  {
    if p != INIT {
      assert ParentOk(pcbs, p);
      AllReachInit(pcbs, count, pcbs[p].ppid);
    }
  }

  /** Every process but init is on the list of exactly one living process, once. */
  lemma OneParent(pcbs: map<Pid, Pcb>, count: nat, c: Pid, p: Pid)
    requires TreeOk(pcbs, count) && c in pcbs && c != INIT && IsAlive(pcbs, p)
    ensures c in pcbs[p].children <==> p == pcbs[c].ppid
    ensures NoDup(pcbs[p].children) && IsAlive(pcbs, pcbs[c].ppid)
  {
  }
}

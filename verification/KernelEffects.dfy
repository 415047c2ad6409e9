/**
 What every kernel call and every pass of the scheduler does, told on the process table and the
 queues alone: which fields of which process change, which queue loses a process and which one
 gets it at its tail. Ready queues are 0 to 2, then come the blocked, the stopped and the zombie queue.
 */
module KernelEffects {
  import opened Processes
  import opened KernelSteps
  import opened KernelCalls
  import opened Schedule

  /** The sequence without the element `p`, which it holds. */
  ghost predicate IsTakenOut(q: seq<Pid>, q': seq<Pid>, p: Pid)
  {
    exists i :: 0 <= i < |q| && q[i] == p && q' == q[..i] + q[i + 1..]
  }

  /** `p` leaves one queue and goes to the tail of another one; all others stay. */
  ghost predicate GoesTo(queues: seq<seq<Pid>>, queues': seq<seq<Pid>>, p: Pid, from: nat, to: nat)
  {
    && |queues| == |queues'| == 6 && from < 6 && to < 6 && from != to
    && IsTakenOut(queues[from], queues'[from], p) && queues'[to] == queues[to] + [p]
    && forall k :: 0 <= k < 6 && k != from && k != to ==> queues'[k] == queues[k]
  }

  /** Which queue holds a process. */
  lemma InQueueIff(s: State, p: Pid, k: nat)
    requires QueuesOk(s) && k < 6
    ensures p in s.queues[k] <==>
            p in s.pcbs && match s.pcbs[p].status
                           case Running => k == s.pcbs[p].priority
                           case Blocked => k == 3
                           case Stopped => k == 4
                           case Zombied => k == 5
    ensures p in s.pcbs ==> s.pcbs[p].priority < 3
  {
    assert IsQueue(s.pcbs, s.queues[k], k);
  }

  lemma TakenOut(q: seq<Pid>, p: Pid)
    requires NoDup(q) && p in q
    ensures IsTakenOut(q, Without(q, p), p)
  {
    var i :| 0 <= i < |q| && q[i] == p;
    WithoutAt(q, i);
  }

  lemma MoveGoes(s: State, p: Pid, x: Pcb)
    requires QueuesOk(s) && p in s.pcbs && x.priority < 3 && Place(x) != Place(s.pcbs[p])
    ensures GoesTo(s.queues, Moved(s, p, x).queues, p, Place(s.pcbs[p]), Place(x))
    ensures Moved(s, p, x).pcbs == s.pcbs[p := x] && Moved(s, p, x).count == s.count
  {
    hide Moved, Without;
    MovedInStrokes(s, p, x);
    MovedKeys(s, p, x);
    var from := Place(s.pcbs[p]);
    assert IsQueue(s.pcbs, s.queues[from], from);
    TakenOut(s.queues[from], p);
  }

  // ---- k_set_priority, k_continue_process, k_sleep, k_resume_sleep, k_proc_create ----

  /** A ready process goes to the queue of its new priority; nothing else changes but that number. */
  lemma PriorityEffect(s: State, x: Pid, priority: nat)
    requires Sound(s) && x in s.pcbs && priority < 3
    ensures var s', p := Reniced(s, x, priority), s.pcbs[x];
            && s'.pcbs == s.pcbs[x := Pcb(p.ppid, p.status, priority, p.sleep, p.waited, p.children)]
            && s'.count == s.count
            && if p.status == Running && p.priority != priority
              then GoesTo(s.queues, s'.queues, x, p.priority, priority)
               else s'.queues == s.queues
  {
    hide Moved, TreeOk, GoesTo;
    var x' := s.pcbs[x].(priority := priority);
    if x'.status == Running && s.pcbs[x].priority != priority {
      MoveGoes(s, x, x');
    }
  }

  lemma ContinueEffect(s: State, x: Pid)
    requires Sound(s) && x in s.pcbs && s.pcbs[x].status == Stopped
    ensures var s', p := ContinuedState(s, x), s.pcbs[x];
            && s'.pcbs == s.pcbs[x := Pcb(p.ppid, Running, p.priority, p.sleep, p.waited, p.children)]
            && s'.count == s.count && GoesTo(s.queues, s'.queues, x, 4, p.priority)
  {
    hide Moved, TreeOk, GoesTo;
    PriorityIn(s, x);
    MoveGoes(s, x, s.pcbs[x].(status := Running));
  }

  lemma SleepEffect(s: State, x: Pid, ticks: nat)
    requires Sound(s) && IsCalling(s, x)
    ensures var s', p := Slept(s, x, ticks), s.pcbs[x];
            && s'.pcbs == s.pcbs[x := Pcb(p.ppid, Blocked, p.priority, 10 * ticks, p.waited, p.children)]
            && s'.count == s.count && GoesTo(s.queues, s'.queues, x, p.priority, 3)
  {
    hide Moved, TreeOk, GoesTo;
    PriorityIn(s, x);
    MoveGoes(s, x, s.pcbs[x].(status := Blocked, sleep := 10 * ticks));
  }

  lemma ResumeEffect(s: State, x: Pid)
    requires Sound(s) && IsCalling(s, x)
    ensures var s', p := SleepResumed(s, x), s.pcbs[x];
            if p.sleep == 0 then s' == s
            else && s'.pcbs == s.pcbs[x := Pcb(p.ppid, Blocked, p.priority, p.sleep, p.waited, p.children)]
                 && s'.count == s.count && GoesTo(s.queues, s'.queues, x, p.priority, 3)
  {
    hide Moved, TreeOk, GoesTo;
    PriorityIn(s, x);
    if s.pcbs[x].sleep > 0 {
      MoveGoes(s, x, s.pcbs[x].(status := Blocked));
    }
  }

  /** The new process runs, waits for nothing and has no children; it is the last child of its parent. */
  lemma CreateEffect(s: State, x: Pid, priority: nat)
    requires Sound(s) && IsCalling(s, x) && priority < 3
    ensures var s', p, n := Created(s, x, priority), s.pcbs[x], s.count + 1;
            && n !in s.pcbs && |s.queues| == 6
            && s'.pcbs == s.pcbs[n := Pcb(x, Running, priority, 0, -2, [])]
                 [x := Pcb(p.ppid, p.status, p.priority, p.sleep, p.waited, p.children + [n])]
            && s'.queues == s.queues[priority := s.queues[priority] + [n]] && s'.count == n
  {
    hide Created, TreeOk;
    PidsPositive(s.pcbs, s.count, s.count + 1);
    CreatedInStrokes(s, x, priority);
  }

  // ---- k_stop_process, k_proc_exit ----

  /** The blocked process `w` waits for `x`. */
  predicate AwaitsEnd(s: State, w: Pid, x: Pid)
  {
    w in s.pcbs && w != x && (s.pcbs[w].waited == x || (s.pcbs[w].waited == -1 && x in s.pcbs[w].children))
  }

  /** `w` is the first in the blocked queue that waits for `x`. */
  ghost predicate IsFirstAwaiting(s: State, w: Pid, x: Pid)
    requires |s.queues| == 6
  {
    var q := s.queues[3];
    exists i :: 0 <= i < |q| && q[i] == w && AwaitsEnd(s, w, x) && forall j :: 0 <= j < i ==> !AwaitsEnd(s, q[j], x)
  }

  ghost predicate NobodyAwaits(s: State, x: Pid)
    requires |s.queues| == 6
  {
    forall j :: 0 <= j < |s.queues[3]| ==> !AwaitsEnd(s, s.queues[3][j], x)
  }

  /** `x` goes to queue `to`, and then the first process that waits for it to its ready queue. */
  ghost predicate IsAnswered(s: State, queues': seq<seq<Pid>>, x: Pid, to: nat, w: Pid, from: nat)
    requires |s.queues| == 6 && from < 6
  {
    && x in s.queues[from]
    && if w == x then NobodyAwaits(s, x) && GoesTo(s.queues, queues', x, from, to)
       else
         && IsFirstAwaiting(s, w, x) && w in s.pcbs
         && exists mid :: GoesTo(s.queues, mid, x, from, to) && GoesTo(mid, queues', w, 3, s.pcbs[w].priority)
  }

  lemma FirstAwaitingIs(s: State, x: Pid)
    requires QueuesOk(s)
    ensures |s.queues| == 6
    ensures var w := WokenBy(s, x); if w == x then NobodyAwaits(s, x) else IsFirstAwaiting(s, w, x)
  {
    var q := s.queues[BLOCKED];
    assert IsQueue(s.pcbs, q, BLOCKED);
    QueueHolds(s, BLOCKED);
    var cut := Without(q, x);
    OthersBlocked(s, x, cut);
    var i := FirstWaiter(s.pcbs, cut, x);
    if x in q {
      var k :| 0 <= k < |q| && q[k] == x;
      WithoutAt(q, k);
      FirstPastCut(s, q, k, cut, i, x);
    } else {
      WithoutAbsent(q, x);
    }
  }

  lemma FirstPastCut(s: State, q: seq<Pid>, k: nat, cut: seq<Pid>, i: nat, x: Pid)
    requires |s.queues| == 6 && q == s.queues[3] && k < |q| && q[k] == x && cut == q[..k] + q[k + 1..] && i <= |cut|
    requires forall j :: 0 <= j < |cut| ==> cut[j] in s.pcbs && cut[j] != x
    requires i < |cut| ==> Matches(s.pcbs[cut[i]], x)
    requires forall j :: 0 <= j < i ==> !Matches(s.pcbs[cut[j]], x)
    ensures if i < |cut| then IsFirstAwaiting(s, cut[i], x) else NobodyAwaits(s, x)
  {
    assert forall j :: 0 <= j < |q| && j != k ==> q[j] == cut[if j < k then j else j - 1];
    if i < |cut| {
      assert q[if i < k then i else i + 1] == cut[i];
    }
  }

  /** Both halves of a stop or an exit, before the children are handed on. */
  lemma AnswerEffect(s: State, x: Pid, y: Pcb) returns (from: nat)
    requires QueuesOk(s) && IsAlive(s.pcbs, x) && HasAnswer(y) && y.priority < 3 && y.status != s.pcbs[x].status
    ensures QueuesOk(Moved(s, x, y)) && |s.queues| == 6 && from < 6
    ensures IsAnswered(s, WakeWaiter(Moved(s, x, y), x).queues, x, if y.status == Stopped then 4 else 5, WokenBy(s, x),
                       from)
  {
    hide Moved, GoesTo, WokenBy, IsFirstAwaiting, NobodyAwaits;
    FirstAwaitingIs(s, x);
    from := Place(s.pcbs[x]);
    InQueueIff(s, x, from);
    MoveGoes(s, x, y);
    MovedOk(s, x, y);
    WakeGoes(s, x, y);
  }

  lemma WakeGoes(s: State, x: Pid, y: Pcb)
    requires QueuesOk(s) && QueuesOk(Moved(s, x, y)) && IsAlive(s.pcbs, x) && HasAnswer(y) && y.priority < 3
    ensures var s1, w := Moved(s, x, y), WokenBy(s, x);
            if w == x then WakeWaiter(s1, x) == s1
            else w in s.pcbs && GoesTo(s1.queues, WakeWaiter(s1, x).queues, w, 3, s.pcbs[w].priority)
  {
    hide Moved, GoesTo, FirstWaiter;
    var s1 := Moved(s, x, y);
    AnsweredQueue(s, x, y);
    var q := s1.queues[BLOCKED];
    OthersBlocked(s, x, q);
    QueueHolds(s1, BLOCKED);
    SameFirst(s.pcbs, s1.pcbs, q, x);
    var i := FirstWaiter(s1.pcbs, q, x);
    if i < |q| {
      PriorityOk(s1, q[i]);
      MoveGoes(s1, q[i], s1.pcbs[q[i]].(status := Running));
    }
  }

  /** `x` stops, and the first process that waits for it is made ready. */
  lemma StopEffect(s: State, x: Pid) returns (w: Pid, from: nat)
    requires Sound(s) && IsAlive(s.pcbs, x) && s.pcbs[x].status != Stopped
    ensures |s.queues| == 6 && from < 6 && w in s.pcbs
    ensures var s', p, y := StoppedState(s, x), s.pcbs[x], s.pcbs[w];
            var halted := s.pcbs[x := Pcb(p.ppid, Stopped, p.priority, p.sleep, p.waited, p.children)];
            && IsAnswered(s, s'.queues, x, 4, w, from) && s'.count == s.count
            && s'.pcbs == if w == x then halted
                          else halted[w := Pcb(y.ppid, Running, y.priority, y.sleep, y.waited, y.children)]
  {
    hide Moved, IsAnswered, TreeOk, WakeWaiter, WokenBy;
    PriorityIn(s, x);
    w := WokenBy(s, x);
    WakesFirst(s, x, s.pcbs[x].(status := Stopped));
    from := AnswerEffect(s, x, s.pcbs[x].(status := Stopped));
  }

  /** `x` becomes a zombie, the first process that waits for it is made ready, and its children go to init. */
  lemma ExitEffect(s: State, x: Pid) returns (w: Pid, from: nat)
    requires Sound(s) && IsAlive(s.pcbs, x) && x != INIT
    ensures |s.queues| == 6 && from < 6 && w in s.pcbs
    ensures var s' := Exited(s, x);
            && IsAnswered(s, s'.queues, x, 5, w, from) && s'.count == s.count && s'.pcbs.Keys == s.pcbs.Keys
            && forall p :: p in s.pcbs ==> var y := s.pcbs[p];
                 s'.pcbs[p] == Pcb(if p in s.pcbs[x].children then 1 else y.ppid,
                                   if p == x then Zombied else if p == w then Running else y.status, y.priority,
                                   y.sleep, y.waited,
                                   if p == 1 then y.children + s.pcbs[x].children else y.children)
  {
    hide Moved, IsAnswered, TreeOk, WakeWaiter, WokenBy;
    PriorityIn(s, x);
    w := WokenBy(s, x);
    ExitWakesFirst(s, x);
    from := AnswerEffect(s, x, s.pcbs[x].(status := Zombied));
  }

  // ---- k_waitpid ----

  /** The first child, in the order of the list, that has terminated or stopped. */
  ghost predicate IsFirstEnded(pcbs: map<Pid, Pcb>, children: seq<Pid>, i: int)
  {
    && 0 <= i < |children| && children[i] in pcbs && pcbs[children[i]].status in {Zombied, Stopped}
    && forall j :: 0 <= j < i ==> children[j] in pcbs && pcbs[children[j]].status !in {Zombied, Stopped}
  }

  /** All children run or are blocked. */
  ghost predicate NoneEnded(pcbs: map<Pid, Pcb>, children: seq<Pid>)
  {
    forall j :: 0 <= j < |children| ==> children[j] in pcbs && pcbs[children[j]].status !in {Zombied, Stopped}
  }

  /** Which answer a wait for any child gets, each one if and only if. */
  ghost predicate IsAnyAnswer(pcbs: map<Pid, Pcb>, children: seq<Pid>, nohang: bool, r: WaitResult)
  {
    && (forall c :: r == Reaped(c) <==>
          exists i :: IsFirstEnded(pcbs, children, i) && children[i] == c && pcbs[c].status == Zombied)
    && (r == ChildStopped <==> exists i :: IsFirstEnded(pcbs, children, i) && pcbs[children[i]].status == Stopped)
    && (r == NoChildren <==> children == [])
    && (r == NotYet <==> children != [] && NoneEnded(pcbs, children) && nohang)
    && (r == MustBlock <==> children != [] && NoneEnded(pcbs, children) && !nohang)
    && r != NotFound && r != NotMine
  }

  /** Which answer process `p` gets that waits for `pid`, each one if and only if. */
  ghost predicate IsOneAnswer(pcbs: map<Pid, Pcb>, p: Pid, pid: int, nohang: bool, r: WaitResult)
  {
    var isMine := pid in pcbs && pcbs[pid].ppid == p;
    && (r == NotFound <==> pid !in pcbs)
    && (r == NotMine <==> pid in pcbs && pcbs[pid].ppid != p)
    && (forall c :: r == Reaped(c) <==> c == pid && isMine && pcbs[pid].status == Zombied)
    && (r == ChildStopped <==> isMine && pcbs[pid].status == Stopped)
    && (r == NotYet <==> isMine && pcbs[pid].status !in {Zombied, Stopped} && nohang)
    && (r == MustBlock <==> isMine && pcbs[pid].status !in {Zombied, Stopped} && !nohang)
    && r != NoChildren
  }

  /** What a wait leaves behind: the pid waited for is recorded, a collected child is gone, or the caller is blocked. */
  ghost predicate IsWaited(s: State, p: Pid, pid: int, s': State, r: WaitResult)
    requires p in s.pcbs
  {
    var x := s.pcbs[p];
    && s'.count == s.count
    && if r.Reaped? then
         exists children ::
           && IsTakenOut(x.children, children, r.pid)
           && s'.pcbs == s.pcbs[p := Pcb(x.ppid, x.status, x.priority, x.sleep, pid, children)] - {r.pid}
           && |s.queues| == |s'.queues| == 6 && IsTakenOut(s.queues[5], s'.queues[5], r.pid)
           && forall k :: 0 <= k < 5 ==> s'.queues[k] == s.queues[k]
       else if r.MustBlock? then
         && s'.pcbs == s.pcbs[p := Pcb(x.ppid, Blocked, x.priority, x.sleep, pid, x.children)]
         && GoesTo(s.queues, s'.queues, p, x.priority, 3)
       else
         && s'.pcbs == s.pcbs[p := Pcb(x.ppid, x.status, x.priority, x.sleep, pid, x.children)]
         && s'.queues == s.queues
  }

  lemma CollectEffect(s: State, p: Pid, pid: int, c: Pid)
    requires Sound(s) && IsCalling(s, p) && c in s.pcbs && s.pcbs[c].status == Zombied && c in s.pcbs[p].children
    ensures |s.queues| == 6 && IsWaited(s, p, pid, Collected(WithWaited(s, p, pid), p, c), Reaped(c))
  {
    TreeAt(s.pcbs, s.count, p);
    InQueueIff(s, c, 5);
    assert IsQueue(s.pcbs, s.queues[5], 5);
    hide QueuesOk, TreeOk, Without;
    TakenOut(s.pcbs[p].children, c);
    TakenOut(s.queues[5], c);
  }

  lemma BlockEffect(s: State, p: Pid, pid: int)
    requires Sound(s) && IsCalling(s, p)
    ensures IsWaited(s, p, pid, BlockedState(WithWaited(s, p, pid), p), MustBlock)
  {
    hide TreeOk, Moved, GoesTo;
    PriorityIn(s, p);
    var x := s.pcbs[p].(waited := pid);
    StayedOk(s, p, x);
    MoveGoes(WithWaited(s, p, pid), p, x.(status := Blocked));
  }

  lemma WaitState(s: State, p: Pid, pid: int, nohang: bool)
    requires Sound(s) && IsCalling(s, p)
    ensures var (s', r) := Waited(s, p, pid, nohang); IsWaited(s, p, pid, s', r)
  {
    hide QueuesOk, TreeOk, Collected, BlockedState, IsWaited, Waited;
    SixQueues(s);
    WaitOutcome(s, p, pid, nohang);
    WaitReaps(s, p, pid, nohang);
    StayEffect(s, p, pid);
    BlockEffect(s, p, pid);
    var r := Waited(s, p, pid, nohang).1;
    if r.Reaped? {
      CollectEffect(s, p, pid, r.pid);
    }
  }

  lemma FirstEndedIs(pcbs: map<Pid, Pcb>, children: seq<Pid>)
    requires forall j :: 0 <= j < |children| ==> children[j] in pcbs
    ensures var i := FirstAnswer(pcbs, children);
            if i < |children| then IsFirstEnded(pcbs, children, i) else NoneEnded(pcbs, children)
  {
  }

  /** The answer that the first ended child decides, in the terms above. */
  lemma AnyAnswerIs(pcbs: map<Pid, Pcb>, children: seq<Pid>, nohang: bool, i: nat, r: WaitResult)
    requires i <= |children| && if i < |children| then IsFirstEnded(pcbs, children, i) else NoneEnded(pcbs, children)
    requires r == if i < |children| then
                    if pcbs[children[i]].status == Zombied then Reaped(children[i]) else ChildStopped
                  else if children == [] then NoChildren else if nohang then NotYet else MustBlock
    ensures IsAnyAnswer(pcbs, children, nohang, r)
  {
    assert forall j :: IsFirstEnded(pcbs, children, j) ==> j == i;
  }

  /**
   Waiting for any child: exactly which answer is given, and what is left behind. The first child on
   the list that has terminated or stopped decides; if it has terminated it is collected.
   */
  lemma WaitAnyEffect(s: State, p: Pid, nohang: bool)
    requires Sound(s) && IsCalling(s, p)
    ensures var (s', r) := Waited(s, p, -1, nohang);
            IsWaited(s, p, -1, s', r) && IsAnyAnswer(s.pcbs, s.pcbs[p].children, nohang, r)
  {
    hide IsWaited, IsAnyAnswer, IsFirstEnded, NoneEnded, FirstAnswer, Collected, BlockedState;
    WaitState(s, p, -1, nohang);
    TreeAt(s.pcbs, s.count, p);
    ChildrenIn(s.pcbs, p);
    hide QueuesOk, TreeOk;
    var children := s.pcbs[p].children;
    FirstEndedIs(s.pcbs, children);
    AnyAnswerIs(s.pcbs, children, nohang, FirstAnswer(s.pcbs, children), Waited(s, p, -1, nohang).1);
  }

  lemma SixQueues(s: State)
    requires Sound(s)
    ensures |s.queues| == 6
  {
  }

  lemma StayEffect(s: State, p: Pid, pid: int)
    requires p in s.pcbs
    ensures forall r: WaitResult :: !r.Reaped? && !r.MustBlock? ==> IsWaited(s, p, pid, WithWaited(s, p, pid), r)
  {
  }

  /** Waiting for one process: the same, for the process with that pid. */
  lemma WaitOneEffect(s: State, p: Pid, pid: int, nohang: bool)
    requires Sound(s) && IsCalling(s, p) && pid != -1
    ensures var (s', r) := Waited(s, p, pid, nohang);
            IsWaited(s, p, pid, s', r) && IsOneAnswer(s.pcbs, p, pid, nohang, r)
  {
    hide IsWaited, Collected, BlockedState;
    WaitState(s, p, pid, nohang);
    hide QueuesOk, TreeOk;
    SixQueues(s);
  }

  // ---- the scheduler ----

  /** The first process of the blocked queue that has one tenth left to sleep; the length of the queue if none has. */
  ghost predicate IsFirstWaker(s: State, i: int)
    requires |s.queues| == 6
  {
    var q := s.queues[3];
    && 0 <= i <= |q| && (i < |q| ==> q[i] in s.pcbs && s.pcbs[q[i]].sleep == 1)
    && forall j :: 0 <= j < i ==> q[j] in s.pcbs && s.pcbs[q[j]].sleep != 1
  }

  /** What a timer pass that ends at index `i` makes of a process: sleepers before that place lose a tenth. */
  ghost function Passed(s: State, p: Pid, i: int): Pcb
    requires |s.queues| == 6 && p in s.pcbs && 0 <= i <= |s.queues[3]|
  {
    var x, q := s.pcbs[p], s.queues[3];
    if i < |q| && q[i] == p then Pcb(x.ppid, Running, x.priority, 0, x.waited, x.children)
    else if p in q[..i] && x.sleep > 0 then Pcb(x.ppid, x.status, x.priority, x.sleep - 1, x.waited, x.children)
    else x
  }

  ghost predicate IsPassed(s: State, s': State, i: int)
    requires |s.queues| == 6 && 0 <= i <= |s.queues[3]|
  {
    && s'.pcbs.Keys == s.pcbs.Keys && (forall p :: p in s.pcbs ==> s'.pcbs[p] == Passed(s, p, i))
    && s'.count == s.count
    && if i == |s.queues[3]| then s'.queues == s.queues
       else s.queues[3][i] in s.pcbs && GoesTo(s.queues, s'.queues, s.queues[3][i], 3, s.pcbs[s.queues[3][i]].priority)
  }

  /** The pass has come to index `j`: the sleepers before it have lost a tenth. */
  ghost predicate IsPassing(s: State, s1: State, j: nat)
    requires |s.queues| == 6 && j <= |s.queues[3]|
  {
    && s1.queues == s.queues && s1.count == s.count && s1.pcbs.Keys == s.pcbs.Keys
    && forall p :: p in s.pcbs ==>
         s1.pcbs[p] == if p in s.queues[3][..j] && s.pcbs[p].sleep > 0 then s.pcbs[p].(sleep := s.pcbs[p].sleep - 1)
                       else s.pcbs[p]
  }

  lemma {:induction false} PassFrom(s: State, s1: State, j: nat) returns (i: nat)
    requires QueuesOk(s) && QueuesOk(s1) && j <= |s.queues[3]| && IsPassing(s, s1, j)
    requires forall k :: 0 <= k < j ==> s.queues[3][k] in s.pcbs && s.pcbs[s.queues[3][k]].sleep != 1
    ensures IsFirstWaker(s, i) && IsPassed(s, Ticked(s1, j), i)
    decreases |s.queues[3]| - j
  {
    hide Moved, GoesTo, IsQueue;
    var q := s.queues[3];
    QueueHolds(s, 3);
    if j == |q| {
      i := j;
      assert q[..j] == q;
    } else {
      var x := s1.pcbs[q[j]];
      assert q[..j + 1] == q[..j] + [q[j]];
      assert q[j] !in q[..j] by { NotAmongFirst(s, j); }
      PriorityOk(s1, q[j]);
      if x.sleep == 0 {
        i := PassFrom(s, s1, j + 1);
      } else if x.sleep > 1 {
        StayedOk(s1, q[j], x.(sleep := x.sleep - 1));
        i := PassFrom(s, s1.(pcbs := s1.pcbs[q[j] := x.(sleep := x.sleep - 1)]), j + 1);
      } else {
        i := j;
        MoveGoes(s1, q[j], x.(sleep := 0, status := Running));
      }
    }
  }

  lemma NotAmongFirst(s: State, j: nat)
    requires QueuesOk(s) && j < |s.queues[3]|
    ensures s.queues[3][j] !in s.queues[3][..j]
  {
    assert IsQueue(s.pcbs, s.queues[3], 3);
  }

  /**
   A timer pass: every sleeper up to the first one with one tenth left loses a tenth; that one is
   made ready, and the pass ends there.
   */
  lemma PassEffect(s: State) returns (i: nat)
    requires QueuesOk(s)
    ensures |s.queues| == 6 && IsFirstWaker(s, i) && IsPassed(s, Ticked(s, 0), i)
  {
    i := PassFrom(s, s, 0);
  }

  /** The choice: the queue of the slot, or else the first one that has a process. */
  lemma SelectEffect(ready: seq<seq<Pid>>, quantum: nat)
    requires |ready| == 3
    ensures var t, slot := Select(ready, quantum),
              [0, 0, 1, 0, 0, 1, 2, 0, 1, 1, 0, 0, 1, 2, 0, 2, 1, 0, 2][quantum % 19];
            && (t == -1 <==> forall k :: 0 <= k < 3 ==> ready[k] == [])
            && (t != -1 ==> 0 <= t < 3 && ready[t] != [])
            && (ready[slot] != [] ==> t == slot)
            && (ready[slot] == [] ==> forall k :: 0 <= k < t ==> ready[k] == [])
  {
  }

  /**
   The start of a turn: a timer pass, then the head of the chosen queue, or the one behind it if that
   is init, the shell has been seen and there is nobody to collect.
   */
  lemma ChoiceEffect(m: Machine)
    requires Sound(m.s)
    ensures var (m', t) := Chosen(m);
            var s := Ticked(m.s, 0);
            var seen := m.spawned || 2 in s.pcbs;
            && |s.queues| == 6 && t == Select(s.queues[..3], m.quantum) && m'.quantum == m.quantum && m'.spawned == seen
            && if t == -1 then m'.s == s && m'.current == m.current
               else
                 var q := s.queues[t];
                 var skips := q[0] == 1 && s.queues[5] == [] && seen;
                 && q != [] && m'.s.pcbs == s.pcbs && m'.s.count == s.count
                 && m'.s.queues == s.queues[t := if skips then q[1..] + [q[0]] else q]
                 && m'.current == if skips && |q| > 1 then q[1] else q[0]
  {
    hide Ticked, QueuesOk, TreeOk, Select;
    TickSound(m.s, 0);
    SixQueues(Ticked(m.s, 0));
    var s := Ticked(m.s, 0);
    var t := Select(s.queues[..3], m.quantum);
    if t != -1 {
      assert s.queues[..3][t] == s.queues[t] && s.queues == s.queues[t := s.queues[t]];
    }
  }

  /** The end of a turn: the head of the queue goes to its tail, unless the process has terminated or stopped. */
  lemma FinishEffect(s: State, p: Pid, t: nat)
    requires Sound(s) && p in s.pcbs && t < 3
    ensures |s.queues| == 6
    ensures var q := s.queues[t];
            Finished(s, p, t) ==
              if s.pcbs[p].status == Zombied || s.pcbs[p].status == Stopped || q == [] then s
              else State(s.pcbs, s.queues[t := q[1..] + [q[0]]], s.count)
  {
    hide TreeOk;
    assert s.queues == s.queues[t := s.queues[t]];
  }

  /** The start: init alone, its own parent, in the ready queue of its priority. */
  lemma BootEffect(priority: nat)
    requires priority < 3
    ensures var m := Boot(priority);
            && m.s.pcbs == map[1 := Pcb(1, Running, priority, 0, -2, [])] && m.s.count == 1
            && m.quantum == 0 && !m.spawned && |m.s.queues| == 6
            && forall k :: 0 <= k < 6 ==> m.s.queues[k] == if k == priority then [1] else []
  {
  }

  lemma SlotAt(n: nat, k: nat)
    requires k < 19
    ensures Slot(n + k) == TABLE[if n % 19 + k < 19 then n % 19 + k else n % 19 + k - 19]
  {
    SlotIndex(n, k);
  }

  lemma SlotIndex(n: nat, k: nat)
    requires k < 19
    ensures (n + k) % 19 == if n % 19 + k < 19 then n % 19 + k else n % 19 + k - 19
  {
    var i, a := n % 19 + k, n / 19;
    assert n + k == 19 * a + i;
    if i < 19 {
      RemainderIs(n + k, a, i);
    } else {
      RemainderIs(n + k, a + 1, i - 19);
    }
  }

  lemma RemainderIs(n: nat, a: nat, r: nat)
    requires n == 19 * a + r && r < 19
    ensures n % 19 == r
  {
  }

  /** How far it is from a slot to the next one of each queue. */
  lemma NextSlots(i: nat) returns (zero: nat, one: nat, two: nat)
    requires i < 19
    ensures zero < 3 && TABLE[if i + zero < 19 then i + zero else i + zero - 19] == 0
    ensures one < 5 && TABLE[if i + one < 19 then i + one else i + one - 19] == 1
    ensures two < 7 && TABLE[if i + two < 19 then i + two else i + two - 19] == 2
  {
    zero := if i == 2 || i == 6 || i == 9 || i == 13 || i == 16 || i == 18 then 1
            else if i == 5 || i == 8 || i == 12 || i == 15 then 2 else 0;
    one := if i <= 2 then 2 - i else if i <= 5 then 5 - i else if i <= 8 then 8 - i else if i == 9 then 0
           else if i <= 12 then 12 - i else if i <= 16 then 16 - i else 21 - i;
    two := if i <= 6 then 6 - i else if i <= 13 then 13 - i else if i <= 15 then 15 - i else 18 - i;
  }

  /** Between two quanta of a queue there are at most 2, 4 and 6 others: the high queue waits least. */
  lemma SlotsSpread(n: nat)
    ensures exists q :: n <= q < n + 3 && Slot(q) == 0
    ensures exists q :: n <= q < n + 5 && Slot(q) == 1
    ensures exists q :: n <= q < n + 7 && Slot(q) == 2
  {
    hide Slot;
    var zero, one, two := NextSlots(n % 19);
    SlotAt(n, zero);
    SlotAt(n, one);
    SlotAt(n, two);
    assert Slot(n + zero) == 0 && Slot(n + one) == 1 && Slot(n + two) == 2;
  }
}

/** The kernel calls as functions on the state, one case per call, and what each of them keeps. */
module KernelCalls {
  import opened Processes
  import opened KernelSteps

  datatype Call =
    | Create(priority: nat)
    | Wait(pid: int, nohang: bool)
    | Exit(pid: Pid)
    | Stop(pid: Pid)
    | Continue(pid: Pid)
    | Renice(pid: Pid, priority: nat)
    | Sleep(ticks: nat)
    | ResumeSleep

  /** The queues and the process tree are right. */
  ghost predicate Sound(s: State)
  {
    QueuesOk(s) && TreeOk(s.pcbs, s.count)
  }

  /** The process may call the kernel. */
  predicate IsCalling(s: State, p: Pid)
  {
    p in s.pcbs && s.pcbs[p].status == Running
  }

  /** The caller runs, and the call is one that the system calls let through. */
  predicate IsCallable(s: State, p: Pid, c: Call)
  {
    && IsCalling(s, p)
    && match c
       case Create(priority) => priority < 3
       case Wait(_, _) => true
       case Exit(pid) => IsAlive(s.pcbs, pid) && pid != INIT
       case Stop(pid) => pid in s.pcbs && pid != INIT
       case Continue(pid) => pid in s.pcbs
       case Renice(pid, priority) => pid in s.pcbs && priority < 3
       case Sleep(ticks) => ticks > 0
       case ResumeSleep => true
  }

  function Waited(s: State, p: Pid, pid: int, nohang: bool): (State, WaitResult)
    requires Sound(s) && IsCalling(s, p)
  {
    TreeAt(s.pcbs, s.count, p);
    if pid == -1 then WaitAny(s, p, nohang) else WaitOne(s, p, pid, nohang)
  }

  /** The state after a call. */
  function Called(s: State, p: Pid, c: Call): State
    requires Sound(s) && IsCallable(s, p, c)
  {
    match c
    case Create(priority) => Created(s, p, priority)
    case Wait(pid, nohang) => Waited(s, p, pid, nohang).0
    case Exit(pid) => Exited(s, pid)
    case Stop(pid) => if HasAnswer(s.pcbs[pid]) then s else StoppedState(s, pid)
    case Continue(pid) => if s.pcbs[pid].status == Stopped then ContinuedState(s, pid) else s
    case Renice(pid, priority) => Reniced(s, pid, priority)
    case Sleep(ticks) => Slept(s, p, ticks)
    case ResumeSleep => SleepResumed(s, p)
  }

  // ---- every call keeps the queues and the tree ----

  /** A living process changes in nothing that the tree depends on, and goes where it belongs. */
  lemma MoveSound(s: State, p: Pid, x: Pcb)
    requires Sound(s) && KeepsTree(s.pcbs, p, x) && x.priority < 3
    ensures Sound(Moved(s, p, x))
  {
    hide QueuesOk, TreeOk;
    MovedOk(s, p, x);
    AdjustedTreeOk(s.pcbs, s.count, p, x);
  }

  lemma StaySound(s: State, p: Pid, x: Pcb)
    requires Sound(s) && KeepsTree(s.pcbs, p, x) && x.priority < 3 && Place(x) == Place(s.pcbs[p])
    ensures Sound(s.(pcbs := s.pcbs[p := x]))
  {
    hide QueuesOk, TreeOk;
    StayedOk(s, p, x);
    AdjustedTreeOk(s.pcbs, s.count, p, x);
  }

  lemma ExitSound(s: State, x: Pid)
    requires Sound(s) && IsAlive(s.pcbs, x) && x != INIT
    ensures Sound(Exited(s, x)) && Exited(s, x).pcbs.Keys == s.pcbs.Keys
  {
    hide QueuesOk, TreeOk, Exited;
    ExitWakesFirst(s, x);
    ExitTreeOk(s.pcbs, Exited(s, x).pcbs, s.count, x, WokenBy(s, x));
  }

  lemma StopSound(s: State, x: Pid)
    requires Sound(s) && IsAlive(s.pcbs, x)
    ensures Sound(StoppedState(s, x)) && StoppedState(s, x).pcbs.Keys == s.pcbs.Keys
  {
    hide QueuesOk, TreeOk, Moved, WakeWaiter, WokenBy;
    var y, w := Halted(s.pcbs[x]), WokenBy(s, x);
    PriorityOk(s, x);
    WakesFirst(s, x, y);
    AdjustedTreeOk(s.pcbs, s.count, x, y);
    if w != x {
      AdjustedTreeOk(s.pcbs[x := y], s.count, w, Woken(s.pcbs[w]));
    }
  }

  lemma ReniceSound(s: State, p: Pid, priority: nat)
    requires Sound(s) && p in s.pcbs && priority < 3
    ensures Sound(Reniced(s, p, priority)) && Reniced(s, p, priority).pcbs.Keys == s.pcbs.Keys
  {
    hide QueuesOk, TreeOk;
    var x := s.pcbs[p].(priority := priority);
    if x.status == Running && s.pcbs[p].priority != priority {
      MovedOk(s, p, x);
    } else {
      StayedOk(s, p, x);
    }
    PriorityTreeOk(s.pcbs, s.count, p, priority);
  }

  lemma CreateSound(s: State, p: Pid, priority: nat)
    requires Sound(s) && IsAlive(s.pcbs, p) && priority < 3
    ensures Sound(Created(s, p, priority)) && s.count + 1 !in s.pcbs
    ensures CreateTable(s.pcbs, Created(s, p, priority).pcbs, p, s.count + 1, priority)
  {
    hide QueuesOk, TreeOk, Created;
    PidsPositive(s.pcbs, s.count, s.count + 1);
    CreateQueuesOk(s, p, priority);
    CreateTreeOk(s.pcbs, Created(s, p, priority).pcbs, s.count, p, priority);
  }

  lemma CreatedInStrokes(s: State, p: Pid, priority: nat)
    requires Sound(s) && p in s.pcbs && priority < 3
    ensures |s.queues| == 6
    ensures Created(s, p, priority) ==
            var n := s.count + 1;
            var parent := s.pcbs[p].(children := s.pcbs[p].children + [n]);
            State(s.pcbs[n := Newborn(p, priority)][p := parent], s.queues[priority := s.queues[priority] + [n]], n)
  {
    var n := s.count + 1;
    hide WaitsOk, AwakeOk, ChildrenOk, ParentOk;
    assert n !in s.pcbs;
    hide TreeOk;
    var s' := Created(s, p, priority);
    forall k | 0 <= k < 6
      ensures s'.queues[k] == s.queues[priority := s.queues[priority] + [n]][k]
    {
      assert IsQueue(s.pcbs, s.queues[k], k);
      WithoutAbsent(s.queues[k], n);
      assert s.queues[k] + [] == s.queues[k];
    }
    assert s'.queues == s.queues[priority := s.queues[priority] + [n]];
  }

  lemma CollectSound(s: State, p: Pid, c: Pid)
    requires Sound(s) && IsAlive(s.pcbs, p) && c in s.pcbs && s.pcbs[c].status == Zombied && c in s.pcbs[p].children
    ensures Sound(Collected(s, p, c)) && Collected(s, p, c).pcbs.Keys == s.pcbs.Keys - {c}
  {
    hide QueuesOk, TreeOk;
    CollectQueuesOk(s, p, c);
    CollectTreeOk(s.pcbs, s.count, p, c);
  }

  lemma WaitingSound(s: State, p: Pid, w: int)
    requires Sound(s) && IsCalling(s, p)
    ensures Sound(WithWaited(s, p, w)) && Sound(BlockedState(WithWaited(s, p, w), p))
  {
    hide Sound, Moved;
    PriorityIn(s, p);
    StaySound(s, p, s.pcbs[p].(waited := w));
    var s1 := WithWaited(s, p, w);
    MoveSound(s1, p, s1.pcbs[p].(status := Blocked));
    MovedKeys(s1, p, s1.pcbs[p].(status := Blocked));
  }

  lemma MovedKeys(s: State, p: Pid, x: Pcb)
    ensures Moved(s, p, x).pcbs == s.pcbs[p := x] && Moved(s, p, x).count == s.count
  {
  }

  /** What a wait collects has terminated, is a child of the caller, and leaves the table; nothing else does. */
  ghost predicate IsWaitEffect(s: State, p: Pid, s': State, r: WaitResult)
    requires p in s.pcbs
  {
    && Sound(s') && s'.pcbs.Keys == (if r.Reaped? then s.pcbs.Keys - {r.pid} else s.pcbs.Keys)
    && (r.Reaped? ==> r.pid in s.pcbs && s.pcbs[r.pid].status == Zombied && r.pid in s.pcbs[p].children)
  }

  /** The three ways in which a wait ends. */
  lemma WaitOutcome(s: State, p: Pid, pid: int, nohang: bool)
    requires Sound(s) && IsCalling(s, p)
    ensures |s.queues| == 6
    ensures var (s', r) := Waited(s, p, pid, nohang);
            var s1 := WithWaited(s, p, pid);
            s' == if r.Reaped? then Collected(s1, p, r.pid) else if r.MustBlock? then BlockedState(s1, p) else s1
  {
    hide TreeOk, FirstAnswer, Moved, Collected;
  }

  lemma WaitReaps(s: State, p: Pid, pid: int, nohang: bool)
    requires Sound(s) && IsCalling(s, p)
    ensures var r := Waited(s, p, pid, nohang).1;
            r.Reaped? ==> r.pid in s.pcbs && s.pcbs[r.pid].status == Zombied && r.pid in s.pcbs[p].children
  {
    TreeAt(s.pcbs, s.count, p);
    if pid in s.pcbs && pid != INIT {
      OnList(s.pcbs, s.count, pid);
    }
    hide QueuesOk, TreeOk, FirstAnswer, Moved, Collected;
    ChildrenIn(s.pcbs, p);
    assert pid == INIT && pid in s.pcbs ==> s.pcbs[pid].status != Zombied by { InitLives(s); }
  }

  lemma InitLives(s: State)
    requires Sound(s)
    ensures IsAlive(s.pcbs, INIT)
  {
  }

  lemma WaitSound(s: State, p: Pid, pid: int, nohang: bool)
    requires Sound(s) && IsCalling(s, p)
    ensures var (s', r) := Waited(s, p, pid, nohang); IsWaitEffect(s, p, s', r)
  {
    hide Sound, Waited, Collected, Moved;
    var (s', r) := Waited(s, p, pid, nohang);
    WaitOutcome(s, p, pid, nohang);
    WaitReaps(s, p, pid, nohang);
    WaitingSound(s, p, pid);
    var s1 := WithWaited(s, p, pid);
    MovedKeys(s1, p, s1.pcbs[p].(status := Blocked));
    if r.Reaped? {
      CollectSound(s1, p, r.pid);
    }
  }

  /** A call keeps the queues and the tree, and the caller is still in the table. */
  lemma CalledSound(s: State, p: Pid, c: Call)
    requires Sound(s) && IsCallable(s, p, c)
    ensures Sound(Called(s, p, c)) && p in Called(s, p, c).pcbs
  {
    hide Sound, Exited, StoppedState, Created, Waited;
    PriorityIn(s, p);
    match c
    case Create(priority) => CreateSound(s, p, priority);
    case Wait(pid, nohang) => WaitSound(s, p, pid, nohang);
    case Exit(pid) => ExitSound(s, pid);
    case Stop(pid) =>
      if !HasAnswer(s.pcbs[pid]) {
        StopSound(s, pid);
      }
    case Continue(pid) =>
      PriorityIn(s, pid);
      if s.pcbs[pid].status == Stopped {
        MoveSound(s, pid, Woken(s.pcbs[pid]));
      }
    case Renice(pid, priority) => ReniceSound(s, pid, priority);
    case Sleep(ticks) => MoveSound(s, p, s.pcbs[p].(status := Blocked, sleep := 10 * ticks));
    case ResumeSleep =>
      if s.pcbs[p].sleep > 0 {
        MoveSound(s, p, s.pcbs[p].(status := Blocked));
      }
  }

  lemma PriorityIn(s: State, p: Pid)
    requires Sound(s) && p in s.pcbs
    ensures s.pcbs[p].priority < 3
  {
  }

  // ---- which calls keep the invariant ----

  /** A wait is for a child of the caller or for any child, and does not block init. */
  ghost predicate IsProper(s: State, p: Pid, c: Call)
    requires Sound(s) && IsCallable(s, p, c)
  {
    c.Wait? ==> (c.pid == -1 || IsOwnWait(s, p, c.pid)) && !BlocksInit(s, p, Waited(s, p, c.pid, c.nohang).1)
  }

  /** A call keeps the invariant, no lost wakeup included, if and only if it is proper. */
  lemma CalledOk(s: State, p: Pid, c: Call)
    requires Inv(s) && IsCallable(s, p, c)
    ensures Inv(Called(s, p, c)) <==> IsProper(s, p, c)
  {
    hide QueuesOk, TreeOk, WaitsOk, AwakeOk, Exited, StoppedState, Created, WaitAny, WaitOne, Reniced;
    match c
    case Create(priority) => CreateOk(s, p, priority);
    case Wait(pid, nohang) =>
      if pid == -1 {
        WaitAnyOk(s, p, nohang);
      } else {
        WaitOneOk(s, p, pid, nohang);
      }
    case Exit(pid) => ExitOk(s, pid);
    case Stop(pid) =>
      if !HasAnswer(s.pcbs[pid]) {
        StopOk(s, pid);
      }
    case Continue(pid) =>
      if s.pcbs[pid].status == Stopped {
        ContinueOk(s, pid);
      }
    case Renice(pid, priority) => ReniceOk(s, pid, priority);
    case Sleep(ticks) => SleepOk(s, p, ticks);
    case ResumeSleep => ResumeOk(s, p);
  }
}

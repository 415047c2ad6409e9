/** Positions in the queues: a call never moves a process back that keeps its place. */
module QueueOrder {
  import opened Processes
  import opened KernelSteps
  import opened KernelCalls

  // ---- positions ----

  function Pos(q: seq<Pid>, x: Pid): (i: nat)
    requires x in q
    ensures i < |q| && q[i] == x
  {
    if q[0] == x then 0 else 1 + Pos(q[1..], x)
  }

  lemma {:induction false} PosWithout(q: seq<Pid>, y: Pid, x: Pid)
    requires x in q && y != x
    ensures x in Without(q, y) && Pos(Without(q, y), x) <= Pos(q, x)
    ensures q[0] == y ==> Pos(Without(q, y), x) == Pos(q, x) - 1
  {
    if q[0] != x && q[0] != y {
      PosWithout(q[1..], y, x);
    }
  }

  lemma {:induction false} PosPush(q: seq<Pid>, y: Pid, x: Pid)
    requires x in q
    ensures x in q + [y] && Pos(q + [y], x) == Pos(q, x)
  {
    if q[0] != x {
      PosPush(q[1..], y, x);
      assert (q + [y])[1..] == q[1..] + [y];
    }
  }

  lemma PosRotated(q: seq<Pid>, x: Pid)
    requires x in q && q[0] != x
    ensures x in Rotated(q) && Pos(Rotated(q), x) == Pos(q, x) - 1
  {
    PosPush(q[1..], q[0], x);
  }

  lemma {:induction false} PosAt(q: seq<Pid>, i: nat)
    requires NoDup(q) && i < |q|
    ensures Pos(q, q[i]) == i
  {
  }

  /** Removing a process before another one moves that one up; one behind it does not. */
  lemma PosCut(q: seq<Pid>, i: nat, j: nat)
    requires NoDup(q) && i < |q| && j < |q| && i != j
    ensures q[i] in Without(q, q[j]) && Pos(Without(q, q[j]), q[i]) == if j < i then i - 1 else i
  {
    WithoutAt(q, j);
    CutOk(q, j);
    var r := q[..j] + q[j + 1..];
    PosAt(r, if j < i then i - 1 else i);
  }

  lemma Distinct(q: seq<Pid>, i: nat, j: nat)
    requires NoDup(q) && i < |q| && j < |q| && i != j
    ensures q[i] != q[j]
  {
  }

  // ---- moves ----

  /** The move of another process never puts `x` back, and brings it forward if the other one was the head. */
  lemma MoveKeepsOrder(s: State, y: Pid, z: Pcb, x: Pid, k: nat)
    requires k < |s.queues| && x in s.queues[k] && y != x
    ensures x in Moved(s, y, z).queues[k] && Pos(Moved(s, y, z).queues[k], x) <= Pos(s.queues[k], x)
    ensures s.queues[k][0] == y ==> Pos(Moved(s, y, z).queues[k], x) < Pos(s.queues[k], x)
  {
    var q := s.queues[k];
    PosWithout(q, y, x);
    PosPush(Without(q, y), y, x);
    assert Without(q, y) + [] == Without(q, y);
  }

  /** The wakeup that goes with a termination or a stop. */
  lemma AnswerKeepsOrder(s: State, y: Pid, z: Pcb, x: Pid, k: nat)
    requires QueuesOk(s) && QueuesOk(Moved(s, y, z)) && k < 6 && x in s.queues[k] && y != x
    requires IsKept(s.pcbs, WakeWaiter(Moved(s, y, z), y).pcbs, x)
    ensures var q := WakeWaiter(Moved(s, y, z), y).queues[k];
            && x in q && Pos(q, x) <= Pos(s.queues[k], x)
            && (s.queues[k][0] == y ==> Pos(q, x) < Pos(s.queues[k], x))
  {
    var s1 := Moved(s, y, z);
    MoveKeepsOrder(s, y, z, x, k);
    MovedKeys(s, y, z);
    hide Moved, Pos, QueuesOk;
    QueueHolds(s1, BLOCKED);
    var q := s1.queues[BLOCKED];
    var i := FirstWaiter(s1.pcbs, q, y);
    if i < |q| {
      MovedKeys(s1, q[i], Woken(s1.pcbs[q[i]]));
      MoveKeepsOrder(s1, q[i], Woken(s1.pcbs[q[i]]), x, k);
    }
  }

  /** `x` is in the same place as before. */
  predicate IsKept(pcbs: map<Pid, Pcb>, pcbs': map<Pid, Pcb>, x: Pid)
  {
    x in pcbs && x in pcbs' && Place(pcbs'[x]) == Place(pcbs[x])
  }

  lemma InItsQueue(s: State, x: Pid)
    requires Sound(s) && x in s.pcbs
    ensures Place(s.pcbs[x]) < 6 && x in s.queues[Place(s.pcbs[x])]
  {
    assert s.pcbs[x].priority < 3;
    assert IsQueue(s.pcbs, s.queues[Place(s.pcbs[x])], Place(s.pcbs[x]));
  }

  // ---- calls ----

  /** The place of a process that a call leaves where it is: not farther back, and with the same sleep. */
  ghost predicate IsNotBehind(s: State, s': State, x: Pid)
  {
    && IsKept(s.pcbs, s'.pcbs, x) && s'.pcbs[x].sleep == s.pcbs[x].sleep
    && var k := Place(s.pcbs[x]);
       && k < |s.queues| && k < |s'.queues| && x in s.queues[k] && x in s'.queues[k]
       && Pos(s'.queues[k], x) <= Pos(s.queues[k], x)
  }

  lemma SameNotBehind(s: State, s': State, x: Pid)
    requires Sound(s) && IsKept(s.pcbs, s'.pcbs, x) && s'.pcbs[x].sleep == s.pcbs[x].sleep && s'.queues == s.queues
    ensures IsNotBehind(s, s', x)
  {
    InItsQueue(s, x);
  }

  lemma MoveNotBehind(s: State, y: Pid, z: Pcb, x: Pid)
    requires Sound(s) && y != x && x in s.pcbs
    ensures IsNotBehind(s, Moved(s, y, z), x)
  {
    InItsQueue(s, x);
    MoveKeepsOrder(s, y, z, x, Place(s.pcbs[x]));
    MovedKeys(s, y, z);
  }

  lemma ExitNotBehind(s: State, y: Pid, x: Pid)
    requires Sound(s) && IsAlive(s.pcbs, y) && y != INIT && x in s.pcbs && y != x &&
             IsKept(s.pcbs, Exited(s, y).pcbs, x)
    ensures IsNotBehind(s, Exited(s, y), x)
    ensures s.queues[Place(s.pcbs[x])][0] == y ==>
              Pos(Exited(s, y).queues[Place(s.pcbs[x])], x) < Pos(s.queues[Place(s.pcbs[x])], x)
  {
    InItsQueue(s, x);
    PriorityOk(s, y);
    MovedOk(s, y, Dead(s.pcbs[y]));
    ExitWakesFirst(s, y);
    hide QueuesOk, TreeOk, Pos, Moved, WokenBy;
    AnswerKeepsOrder(s, y, Dead(s.pcbs[y]), x, Place(s.pcbs[x]));
  }

  lemma StopNotBehind(s: State, y: Pid, x: Pid)
    requires Sound(s) && IsAlive(s.pcbs, y) && x in s.pcbs && y != x && IsKept(s.pcbs, StoppedState(s, y).pcbs, x)
    ensures IsNotBehind(s, StoppedState(s, y), x)
    ensures s.queues[Place(s.pcbs[x])][0] == y ==>
              Pos(StoppedState(s, y).queues[Place(s.pcbs[x])], x) < Pos(s.queues[Place(s.pcbs[x])], x)
  {
    hide QueuesOk, TreeOk, Pos, Moved, WokenBy, Without;
    InItsQueue(s, x);
    PriorityOk(s, y);
    MovedOk(s, y, Halted(s.pcbs[y]));
    WakesFirst(s, y, Halted(s.pcbs[y]));
    QueueHolds(s, 0);
    QueueHolds(StoppedState(s, y), 0);
    AnswerKeepsOrder(s, y, Halted(s.pcbs[y]), x, Place(s.pcbs[x]));
  }

  lemma CreateNotBehind(s: State, p: Pid, priority: nat, x: Pid)
    requires Sound(s) && IsAlive(s.pcbs, p) && priority < 3 && x in s.pcbs
    ensures IsNotBehind(s, Created(s, p, priority), x)
  {
    CreateSound(s, p, priority);
    InItsQueue(s, x);
    var s1 := s.(pcbs := s.pcbs[p := s.pcbs[p].(children := s.pcbs[p].children + [s.count + 1])]);
    MoveKeepsOrder(s1, s.count + 1, Newborn(p, priority), x, Place(s.pcbs[x]));
  }

  lemma WaitNotBehind(s: State, p: Pid, pid: int, nohang: bool, x: Pid)
    requires Sound(s) && IsCalling(s, p) && x in s.pcbs && IsKept(s.pcbs, Waited(s, p, pid, nohang).0.pcbs, x)
    ensures IsNotBehind(s, Waited(s, p, pid, nohang).0, x)
  {
    hide Sound, Waited, Pos, Without;
    PriorityIn(s, p);
    InItsQueue(s, x);
    WaitOutcome(s, p, pid, nohang);
    var (s', r) := Waited(s, p, pid, nohang);
    var s1 := WithWaited(s, p, pid);
    var k := Place(s.pcbs[x]);
    if r.MustBlock? {
      MovedKeys(s1, p, s1.pcbs[p].(status := Blocked));
      MoveKeepsOrder(s1, p, s1.pcbs[p].(status := Blocked), x, k);
    } else if r.Reaped? && k == ZOMBIES {
      PosWithout(s.queues[ZOMBIES], r.pid, x);
    }
  }

  /** A process that a call leaves in its state and priority is not moved back in its queue. */
  lemma CallNotBehind(s: State, p: Pid, c: Call, x: Pid)
    requires Sound(s) && IsCallable(s, p, c) && IsKept(s.pcbs, Called(s, p, c).pcbs, x)
    ensures IsNotBehind(s, Called(s, p, c), x)
  {
    hide Sound, Exited, StoppedState, Created, Waited, Pos, Moved, IsNotBehind;
    PriorityIn(s, p);
    PriorityIn(s, x);
    if Called(s, p, c).queues == s.queues && Called(s, p, c).pcbs[x].sleep == s.pcbs[x].sleep {
      SameNotBehind(s, Called(s, p, c), x);
      return;
    }
    match c
    case Create(priority) => CreateNotBehind(s, p, priority, x);
    case Wait(pid, nohang) => WaitNotBehind(s, p, pid, nohang, x);
    case Exit(pid) =>
      ExitTableOf(s, pid);
      ExitNotBehind(s, pid, x);
    case Stop(pid) =>
      if !HasAnswer(s.pcbs[pid]) {
        StopTableOf(s, pid);
        StopNotBehind(s, pid, x);
      }
    case Continue(pid) =>
      if s.pcbs[pid].status == Stopped {
        MovedKeys(s, pid, Woken(s.pcbs[pid]));
        MoveNotBehind(s, pid, Woken(s.pcbs[pid]), x);
      }
    case Renice(pid, priority) =>
      if s.pcbs[pid].status == Running && s.pcbs[pid].priority != priority {
        MovedKeys(s, pid, s.pcbs[pid].(priority := priority));
        MoveNotBehind(s, pid, s.pcbs[pid].(priority := priority), x);
      }
    case Sleep(ticks) =>
      MovedKeys(s, p, s.pcbs[p].(status := Blocked, sleep := 10 * ticks));
      MoveNotBehind(s, p, s.pcbs[p].(status := Blocked, sleep := 10 * ticks), x);
    case ResumeSleep =>
      if s.pcbs[p].sleep > 0 {
        MovedKeys(s, p, s.pcbs[p].(status := Blocked));
        MoveNotBehind(s, p, s.pcbs[p].(status := Blocked), x);
      }
  }

  lemma ExitTableOf(s: State, y: Pid)
    requires Sound(s) && IsAlive(s.pcbs, y) && y != INIT
    ensures ExitTable(s.pcbs, Exited(s, y).pcbs, y, WokenBy(s, y))
  {
    hide QueuesOk, TreeOk, Exited, WokenBy;
    ExitWakesFirst(s, y);
  }

  lemma StopTableOf(s: State, y: Pid)
    requires Sound(s) && IsAlive(s.pcbs, y)
    ensures AnswerTable(s.pcbs, StoppedState(s, y).pcbs, y, Halted(s.pcbs[y]), WokenBy(s, y))
  {
    hide QueuesOk, TreeOk, WokenBy, Moved;
    PriorityOk(s, y);
    WakesFirst(s, y, Halted(s.pcbs[y]));
  }
}

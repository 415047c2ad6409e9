/** The process kernel of PennOS: its calls and the passes of its scheduler. */
module ProcessKernel {
  import opened Processes
  import opened KernelSteps
  import opened KernelCalls
  import opened Schedule
  import opened KernelEffects

  // Error codes of src/utils/error_codes.h
  const E_INVALID_ARGUMENT := -10
  const E_CONTINUE_NON_STOPPED_PROCESS := -13
  const E_STOP_STOPPED_PROCESS := -14
  const E_STOP_NON_ACTIVE_QUEUE_PROCESS := -15

  class Kernel {
    var pcbs: map<Pid, Pcb>
    var ready: seq<seq<Pid>>
    var blocked: seq<Pid>
    var stopped: seq<Pid>
    var zombies: seq<Pid>
    var count: nat
    var current: Pid
    var quantum: nat
    var shellSpawned: bool

    function S(): State
      requires |ready| == 3
      reads this
    {
      State(pcbs, [ready[0], ready[1], ready[2], blocked, stopped, zombies], count)
    }

    function M(): Machine
      requires |ready| == 3
      reads this
    {
      Machine(S(), quantum, shellSpawned, current)
    }

    /** The queues and the process tree are right. */
    ghost predicate Valid()
      reads this
    {
      |ready| == 3 && Sound(S())
    }

    /** `block_process` */
    method BlockProcess(p: Pid)
      requires |ready| == 3 && QueuesOk(S()) && p in pcbs && pcbs[p].status == Running
      modifies `pcbs, `ready, `blocked
      ensures |ready| == 3 && S() == BlockedState(old(S()), p)
    {
      PriorityOk(S(), p);
      MovedInStrokes(S(), p, pcbs[p].(status := Blocked));
      ready := ready[pcbs[p].priority := Without(ready[pcbs[p].priority], p)];
      pcbs := pcbs[p := pcbs[p].(status := Blocked)];
      blocked := blocked + [p];
    }

    /** `unblock_process` */
    method UnblockProcess(p: Pid)
      requires |ready| == 3 && QueuesOk(S()) && p in pcbs && pcbs[p].status == Blocked
      modifies `pcbs, `ready, `blocked
      ensures |ready| == 3 && S() == Moved(old(S()), p, Woken(old(pcbs)[p]))
    {
      PriorityOk(S(), p);
      MovedInStrokes(S(), p, Woken(pcbs[p]));
      blocked := Without(blocked, p);
      pcbs := pcbs[p := Woken(pcbs[p])];
      ready := ready[pcbs[p].priority := ready[pcbs[p].priority] + [p]];
    }

    /** `unblock_parents` */
    method UnblockParents(x: Pid)
      requires |ready| == 3 && QueuesOk(S())
      modifies `pcbs, `ready, `blocked
      ensures |ready| == 3 && S() == WakeWaiter(old(S()), x)
    {
      QueueHolds(S(), BLOCKED);
      assert S().queues[BLOCKED] == blocked;
      var i := 0;
      while i < |blocked|
        invariant |ready| == 3 && S() == old(S())
        invariant forall j :: 0 <= j < |blocked| ==> blocked[j] in pcbs && Place(pcbs[blocked[j]]) == BLOCKED
        invariant 0 <= i <= |blocked| && forall j :: 0 <= j < i ==> !Matches(pcbs[blocked[j]], x)
      {
        var p := blocked[i];
        var isUnblocked := false;
        if pcbs[p].waited == x {
          isUnblocked := true;
        } else if pcbs[p].waited == -1 {
          var children := pcbs[p].children;
          var j := 0;
          while j < |children| && !isUnblocked
            invariant 0 <= j <= |children| && (isUnblocked <==> x in children[..j])
          {
            if children[j] == x {
              isUnblocked := true;
            }
            j := j + 1;
          }
          assert isUnblocked <==> x in children;
        }
        if isUnblocked {
          UnblockProcess(p);
          return;
        }
        i := i + 1;
      }
    }

    /** `reparent_children` */
    method ReparentChildren(x: Pid)
      requires x in pcbs && INIT in pcbs && x != INIT && INIT !in pcbs[x].children && x !in pcbs[x].children &&
               NoDup(pcbs[x].children)
      requires forall c :: c in pcbs[x].children ==> c in pcbs
      modifies `pcbs
      ensures pcbs == Reparented(old(pcbs), x)
    {
      var children := pcbs[x].children;
      ghost var before := pcbs;
      var i := 0;
      while i < |children|
        invariant 0 <= i <= |children| && pcbs.Keys == before.Keys
        invariant forall p :: p in before ==>
                    pcbs[p] == (if p in children[..i] then before[p].(ppid := INIT)
                                else if p == INIT then before[p].(children := before[p].children + children[..i])
                                else before[p])
      {
        var c := children[i];
        assert c !in children[..i];
        assert children[..i + 1] == children[..i] + [c];
        pcbs := pcbs[c := pcbs[c].(ppid := INIT)];
        pcbs := pcbs[INIT := pcbs[INIT].(children := pcbs[INIT].children + [c])];
        i := i + 1;
      }
      assert children[..i] == children;
    }

    /** `k_remove_from_active_queue`: out of a ready queue, the blocked queue or the stopped queue. */
    method RemoveFromActiveQueue(p: Pid) returns (removed: bool)
      requires |ready| == 3 && QueuesOk(S()) && p in pcbs
      modifies `ready, `blocked, `stopped
      ensures |ready| == 3 && removed == (pcbs[p].status != Zombied)
      ensures removed ==> Place(pcbs[p]) < 5
      ensures !removed ==> S() == old(S())
      ensures removed ==>
                var k := Place(pcbs[p]);
                S() == old(S()).(queues := old(S()).queues[k := Without(old(S()).queues[k], p)])
    {
      PriorityOk(S(), p);
      ghost var s := S();
      assert forall k :: 0 <= k < 6 ==> IsQueue(s.pcbs, s.queues[k], k) && (p in s.queues[k] <==> k == Place(pcbs[p]));
      assert s.queues[0] == ready[0] && s.queues[1] == ready[1] && s.queues[2] == ready[2] &&
             s.queues[3] == blocked && s.queues[4] == stopped;
      var i := 0;
      while i < 3
        invariant 0 <= i <= 3 && |ready| == 3 && S() == s && forall j :: 0 <= j < i ==> p !in ready[j]
      {
        if p in ready[i] {
          assert p in s.queues[i];
          ready := ready[i := Without(ready[i], p)];
          return true;
        }
        i := i + 1;
      }
      if p in blocked {
        blocked := Without(blocked, p);
        return true;
      }
      if p in stopped {
        stopped := Without(stopped, p);
        return true;
      }
      return false;
    }

    /** `k_proc_exit`, for a process that has not exited yet and is not init. */
    method KProcExit(x: Pid)
      requires Valid() && IsAlive(pcbs, x) && x != INIT
      modifies `pcbs, `ready, `blocked, `stopped, `zombies, `count
      ensures Valid() && S() == Exited(old(S()), x)
    {
      hide TreeOk;
      ghost var s := S();
      PriorityOk(s, x);
      TreeAt(s.pcbs, s.count, x);
      ExitSound(s, x);
      MovedInStrokes(s, x, Dead(s.pcbs[x]));
      MovedOk(s, x, Dead(s.pcbs[x]));
      var removed := RemoveFromActiveQueue(x);
      pcbs := pcbs[x := Dead(pcbs[x])];
      zombies := zombies + [x];
      assert S() == Moved(s, x, Dead(s.pcbs[x]));
      UnblockParents(x);
      ReparentChildren(x);
    }

    method KStopProcess(x: Pid) returns (r: int)
      requires Valid() && x in pcbs && x != INIT
      modifies `pcbs, `ready, `blocked, `stopped, `zombies, `count
      ensures r == if old(pcbs)[x].status == Stopped then E_STOP_STOPPED_PROCESS
                   else if old(pcbs)[x].status == Zombied then E_STOP_NON_ACTIVE_QUEUE_PROCESS else 0
      ensures Valid() && S() == if r == 0 then StoppedState(old(S()), x) else old(S())
    {
      hide TreeOk;
      if pcbs[x].status == Stopped {
        return E_STOP_STOPPED_PROCESS;
      }
      ghost var s := S();
      PriorityOk(s, x);
      MovedInStrokes(s, x, Halted(s.pcbs[x]));
      MovedOk(s, x, Halted(s.pcbs[x]));
      var removed := RemoveFromActiveQueue(x);
      if !removed {
        return E_STOP_NON_ACTIVE_QUEUE_PROCESS;
      }
      StopSound(s, x);
      pcbs := pcbs[x := Halted(pcbs[x])];
      stopped := stopped + [x];
      assert S() == Moved(s, x, Halted(s.pcbs[x]));
      UnblockParents(x);
      return 0;
    }

    method KContinueProcess(x: Pid) returns (r: int)
      requires Valid() && x in pcbs
      modifies `pcbs, `ready, `blocked, `stopped, `zombies, `count
      ensures r == if old(pcbs)[x].status == Stopped then 0 else E_CONTINUE_NON_STOPPED_PROCESS
      ensures Valid() && S() == if r == 0 then ContinuedState(old(S()), x) else old(S())
    {
      hide TreeOk;
      if pcbs[x].status != Stopped {
        return E_CONTINUE_NON_STOPPED_PROCESS;
      }
      ghost var s := S();
      PriorityOk(s, x);
      MovedInStrokes(s, x, Woken(s.pcbs[x]));
      MoveSound(s, x, Woken(s.pcbs[x]));
      hide Moved, Without;
      var k := pcbs[x].priority;
      stopped := Without(stopped, x);
      pcbs := pcbs[x := Woken(pcbs[x])];
      ready := ready[k := ready[k] + [x]];
      assert S() == ContinuedState(s, x);
      return 0;
    }

    method KSetPriority(x: Pid, priority: int) returns (r: int)
      requires Valid() && x in pcbs
      modifies `pcbs, `ready
      ensures r == if 0 <= priority < 3 then 0 else E_INVALID_ARGUMENT
      ensures Valid() && S() == if r == 0 then Reniced(old(S()), x, priority) else old(S())
      // that is: the priority changes and nothing else, and a ready process goes to the tail of its new queue
      ensures r == 0 ==> pcbs == old(pcbs)[x := old(pcbs)[x].(priority := priority)]
      ensures r == 0 ==> if old(pcbs)[x].status == Running && old(pcbs)[x].priority != priority
                then GoesTo(old(S()).queues, S().queues, x, old(pcbs)[x].priority, priority)
                else S().queues == old(S()).queues
    {
      hide TreeOk;
      if priority < 0 || priority > 2 {
        return E_INVALID_ARGUMENT;
      }
      ghost var s := S();
      PriorityOk(s, x);
      MovedInStrokes(s, x, s.pcbs[x].(priority := priority));
      ReniceSound(s, x, priority);
      hide Moved, Without;
      var before := pcbs[x].priority;
      pcbs := pcbs[x := pcbs[x].(priority := priority)];
      if pcbs[x].status == Running && before != priority {
        ready := ready[before := Without(ready[before], x)];
        ready := ready[priority := ready[priority] + [x]];
      }
      assert S() == Reniced(s, x, priority);
      PriorityEffect(s, x, priority);
      return 0;
    }

    /** `k_sleep` of the process that runs. */
    method KSleep(ticks: nat) returns (r: int)
      requires Valid() && IsCalling(S(), current)
      modifies `pcbs, `ready, `blocked
      ensures r == if ticks == 0 then E_INVALID_ARGUMENT else 0
      ensures Valid() && S() == if r == 0 then Slept(old(S()), current, ticks) else old(S())
    {
      hide TreeOk;
      if ticks == 0 {
        return E_INVALID_ARGUMENT;
      }
      ghost var s := S();
      PriorityOk(s, current);
      MoveSound(s, current, s.pcbs[current].(status := Blocked, sleep := 10 * ticks));
      StayedOk(s, current, s.pcbs[current].(sleep := 10 * ticks));
      pcbs := pcbs[current := pcbs[current].(sleep := 10 * ticks)];
      BlockProcess(current);
      assert pcbs == s.pcbs[current := s.pcbs[current].(status := Blocked, sleep := 10 * ticks)];
      return 0;
    }

    method KResumeSleep() returns (r: bool)
      requires Valid() && IsCalling(S(), current)
      modifies `pcbs, `ready, `blocked
      ensures r == (old(pcbs)[current].sleep > 0)
      ensures Valid() && S() == SleepResumed(old(S()), current)
    {
      hide TreeOk;
      if pcbs[current].sleep == 0 {
        return false;
      }
      PriorityOk(S(), current);
      MoveSound(S(), current, pcbs[current].(status := Blocked));
      BlockProcess(current);
      return true;
    }

    /**
     `k_proc_create` for the process that runs. With a priority that there is no queue for,
     the new process is linked to its parent but put into no queue.
     */
    method KProcCreate(priority: nat) returns (pid: Pid)
      requires Valid() && IsCalling(S(), current)
      modifies `pcbs, `ready, `count
      ensures pid == old(count) + 1 && pid !in old(pcbs)
      ensures |ready| == 3 && CreateTable(old(pcbs), pcbs, current, pid, priority)
      ensures Valid() <==> priority < 3
      ensures priority < 3 ==> S() == Created(old(S()), current, priority)
    {
      hide TreeOk;
      ghost var s := S();
      PidsPositive(s.pcbs, s.count, s.count + 1);
      if priority < 3 {
        CreateSound(s, current, priority);
        CreatedInStrokes(s, current, priority);
      }
      hide Created, IsQueue;
      count := count + 1;
      pid := count;
      var parent := pcbs[current];
      pcbs := pcbs[pid := Newborn(current, priority)];
      pcbs := pcbs[current := parent.(children := parent.children + [pid])];
      if priority < 3 {
        ready := ready[priority := ready[priority] + [pid]];
        assert S().queues == s.queues[priority := s.queues[priority] + [pid]];
      }
    }

    /** One round of `k_waitpid`; after `MustBlock` the caller is suspended and calls again when it runs. */
    method KWaitpid(pid: int, nohang: bool) returns (r: WaitResult)
      requires Valid() && IsCalling(S(), current)
      modifies `pcbs, `ready, `blocked, `zombies
      ensures Valid() && (S(), r) == Waited(old(S()), current, pid, nohang)
      // that is: each answer exactly when it is due, and a terminated child that is the answer is gone
      ensures IsWaited(old(S()), current, pid, S(), r)
      ensures pid == -1 ==> IsAnyAnswer(old(pcbs), old(pcbs)[current].children, nohang, r)
      ensures pid != -1 ==> IsOneAnswer(old(pcbs), current, pid, nohang, r)
    {
      hide TreeOk, IsWaited, IsAnyAnswer, IsOneAnswer;
      ghost var s := S();
      TreeAt(s.pcbs, s.count, current);
      WaitSound(s, current, pid, nohang);
      if pid == -1 {
        WaitAnyEffect(s, current, nohang);
        r := WaitForAny(nohang);
      } else {
        WaitOneEffect(s, current, pid, nohang);
        r := WaitForOne(pid, nohang);
      }
    }

    /** The terminated child `c` leaves the zombie queue and its parent's list. */
    method Collect(c: Pid)
      requires |ready| == 3 && current in pcbs
      modifies `pcbs, `zombies
      ensures S() == Collected(old(S()), current, c)
    {
      pcbs := pcbs[current := pcbs[current].(children := Without(pcbs[current].children, c))];
      zombies := Without(zombies, c);
      pcbs := pcbs - {c};
    }

    method WaitForAny(nohang: bool) returns (r: WaitResult)
      requires |ready| == 3 && QueuesOk(S()) && IsCalling(S(), current) && ChildrenOk(pcbs, current)
      modifies `pcbs, `ready, `blocked, `zombies
      ensures |ready| == 3 && (S(), r) == WaitAny(old(S()), current, nohang)
    {
      hide QueuesOk;
      ghost var s := S();
      PriorityOk(s, current);
      StayedOk(s, current, s.pcbs[current].(waited := -1));
      ChildrenIn(pcbs, current);
      pcbs := pcbs[current := pcbs[current].(waited := -1)];
      var children := pcbs[current].children;
      var i := 0;
      while i < |children|
        invariant 0 <= i <= |children| && forall j :: 0 <= j < i ==> !HasAnswer(s.pcbs[children[j]])
      {
        var c := children[i];
        if pcbs[c].status == Zombied {
          Collect(c);
          return Reaped(c);
        } else if pcbs[c].status == Stopped {
          return ChildStopped;
        }
        i := i + 1;
      }
      if children == [] {
        return NoChildren;
      }
      if nohang {
        return NotYet;
      }
      BlockProcess(current);
      return MustBlock;
    }

    method WaitForOne(c: Pid, nohang: bool) returns (r: WaitResult)
      requires |ready| == 3 && QueuesOk(S()) && IsCalling(S(), current)
      modifies `pcbs, `ready, `blocked, `zombies
      ensures |ready| == 3 && (S(), r) == WaitOne(old(S()), current, c, nohang)
    {
      hide QueuesOk;
      ghost var s := S();
      PriorityOk(s, current);
      StayedOk(s, current, s.pcbs[current].(waited := c));
      pcbs := pcbs[current := pcbs[current].(waited := c)];
      if c !in pcbs {
        return NotFound;
      }
      if pcbs[c].ppid != current {
        return NotMine;
      }
      if pcbs[c].status == Zombied {
        Collect(c);
        return Reaped(c);
      } else if pcbs[c].status == Stopped {
        return ChildStopped;
      }
      if nohang {
        return NotYet;
      }
      BlockProcess(current);
      return MustBlock;
    }

    /** `_update_blocked_processes` */
    method UpdateBlockedProcesses()
      requires Valid()
      modifies `pcbs, `ready, `blocked
      ensures Valid() && S() == Ticked(old(S()), 0)
    {
      hide TreeOk;
      ghost var s := S();
      TickSound(s, 0);
      var i := 0;
      while i < |blocked|
        invariant |ready| == 3 && QueuesOk(S()) && Ticked(S(), i) == Ticked(s, 0)
        invariant 0 <= i <= |blocked| && S().queues == s.queues
      {
        QueueHolds(S(), BLOCKED);
        assert S().queues[BLOCKED] == blocked;
        var p := blocked[i];
        PriorityOk(S(), p);
        if pcbs[p].sleep > 0 {
          StayedOk(S(), p, pcbs[p].(sleep := pcbs[p].sleep - 1));
          ghost var s1 := S();
          pcbs := pcbs[p := pcbs[p].(sleep := pcbs[p].sleep - 1)];
          if pcbs[p].sleep == 0 {
            UnblockProcess(p);
            assert pcbs == s1.pcbs[p := Woken(s1.pcbs[p].(sleep := 0))];
            return;
          }
        }
        i := i + 1;
      }
    }

    // ---- the scheduler ----

    /** `_select_next_queue` */
    method SelectNextQueue() returns (t: int)
      requires |ready| == 3
      ensures t == Select(ready, quantum)
    {
      hide Slot;
      var slot := Slot(quantum);
      if ready[slot] != [] {
        return slot;
      }
      var i := 0;
      while i < 3
        invariant 0 <= i <= 3 && forall j :: 0 <= j < i ==> ready[j] == []
      {
        if ready[i] != [] {
          return i;
        }
        i := i + 1;
      }
      return -1;
    }

    /** The head of a ready queue goes to its tail. */
    method Rotate(t: nat)
      requires Valid() && t < 3
      modifies `ready
      ensures Valid() && S() == RotatedState(old(S()), t) && ready == old(ready)[t := Rotated(old(ready)[t])]
    {
      hide QueuesOk, TreeOk;
      ghost var s := S();
      RotateSound(s, t);
      ready := ready[t := Rotated(ready[t])];
      assert S() == RotatedState(s, t);
    }

    /**
     The first half of `_run_next_process`, up to the start of the process: the timer pass,
     the choice of the queue, and init passed over when there is nothing to collect.
     */
    method BeginQuantum() returns (t: int)
      requires Valid()
      modifies `pcbs, `ready, `blocked, `shellSpawned, `current
      ensures Valid() && (M(), t) == Chosen(old(M()))
    {
      hide TreeOk, Slot, Ticked, QueuesOk;
      TickSound(S(), 0);
      UpdateBlockedProcesses();
      assert S().queues[..3] == ready;
      if !shellSpawned {
        shellSpawned := 2 in pcbs;
      }
      t := SelectNextQueue();
      if t == -1 {
        return;
      }
      if ready[t][0] == INIT && zombies == [] && shellSpawned {
        Rotate(t);
      }
      current := ready[t][0];
    }

    /** The second half: the quantum is used up, and the head of the queue goes to its tail. */
    method EndQuantum(t: nat)
      requires Valid() && t < 3 && current in pcbs
      modifies `ready, `quantum
      ensures Valid() && M() == old(M()).(s := Finished(old(S()), current, t), quantum := old(quantum) + 1)
    {
      hide TreeOk, IsQueue;
      quantum := quantum + 1;
      if pcbs[current].status == Zombied {
      } else if pcbs[current].status == Stopped {
      } else if ready[t] != [] {
        Rotate(t);
      } else {
        assert S().queues[t] == [] && S().queues == S().queues[t := []];
      }
    }

    /** The kernel with init alone. */
    constructor (priority: nat)
      requires priority < 3
      ensures Valid() && M() == Boot(priority) && Inv(S())
    {
      count := 1;
      pcbs := map[INIT := Newborn(INIT, priority)];
      ready := [[], [], []][priority := [INIT]];
      blocked, stopped, zombies := [], [], [];
      current, quantum, shellSpawned := 0, 0, false;
      new;
      BootOk(priority);
      assert S() == Boot(priority).s;
    }
  }
}

/**
 Lost wakeups over whole runs: they come from exits and stops only, and from exactly those that the
 conditions name.
 */
module WakeupRuns {
  import opened Processes
  import opened KernelSteps
  import opened KernelCalls
  import opened Schedule
  import opened LostWakeups

  /** The call leaves a process blocked in a wait that it has answered. */
  ghost predicate LosesWakeup(s: State, p: Pid, c: Call)
    requires Sound(s) && IsCallable(s, p, c)
  {
    InitLives(s);
    match c
    case Exit(x) => IsOverlooked(s, x) || IsInherited(s, x)
    case Stop(x) => !HasAnswer(s.pcbs[x]) && IsOverlooked(s, x)
    case _ => false
  }

  /** For every call of every process: no wakeup is lost if and only if the condition does not apply. */
  lemma CallLosesNoWakeup(s: State, p: Pid, c: Call)
    requires Sound(s) && AwakeOk(s.pcbs) && IsCallable(s, p, c)
    ensures AwakeOk(Called(s, p, c).pcbs) <==> !LosesWakeup(s, p, c)
  {
    if c.Exit? {
      hide QueuesOk, TreeOk, AwakeOk, Exited, IsOverlooked, IsInherited;
      ExitLosesNoWakeup(s, c.pid);
    } else if c.Stop? {
      hide QueuesOk, TreeOk, AwakeOk, StoppedState, IsOverlooked;
      if !HasAnswer(s.pcbs[c.pid]) {
        StopLosesNoWakeup(s, c.pid);
      }
    } else {
      OtherCallsAwake(s, p, c);
    }
  }

  lemma OtherCallsAwake(s: State, p: Pid, c: Call)
    requires Sound(s) && AwakeOk(s.pcbs) && IsCallable(s, p, c) && !c.Exit? && !c.Stop?
    ensures AwakeOk(Called(s, p, c).pcbs)
  {
    if c.Create? {
      hide QueuesOk, TreeOk, AwakeOk, Created;
      CreateAwake(s, p, c.priority);
    } else if c.Wait? {
      hide QueuesOk, TreeOk, AwakeOk;
      WaitAwake(s, p, c.pid, c.nohang);
    } else {
      hide QueuesOk, TreeOk, WaitAny, WaitOne, Created, Exited, StoppedState;
    }
  }

  lemma CreateAwake(s: State, p: Pid, priority: nat)
    requires Sound(s) && AwakeOk(s.pcbs) && IsCalling(s, p)
    ensures AwakeOk(Created(s, p, priority).pcbs)
  {
    hide QueuesOk, TreeOk;
    var pcbs' := Created(s, p, priority).pcbs;
    forall q | q in pcbs'
      ensures AwakeAt(pcbs', q)
    {
      assert q in s.pcbs ==> AwakeAt(s.pcbs, q);
    }
  }

  lemma CollectAwake(pcbs: map<Pid, Pcb>, p: Pid, c: Pid)
    requires AwakeOk(pcbs) && p in pcbs && pcbs[p].status == Running
    ensures AwakeOk(pcbs[p := pcbs[p].(children := Without(pcbs[p].children, c))] - {c})
  {
    var pcbs' := pcbs[p := pcbs[p].(children := Without(pcbs[p].children, c))] - {c};
    forall q | q in pcbs'
      ensures AwakeAt(pcbs', q)
    {
      assert AwakeAt(pcbs, q);
    }
  }

  /** A process that runs on, or blocks while nothing it waits for has an answer. */
  lemma WaiterAwake(pcbs: map<Pid, Pcb>, p: Pid, x: Pcb)
    requires AwakeOk(pcbs) && p in pcbs && !HasAnswer(x) && AwakeAt(pcbs[p := x], p)
    ensures AwakeOk(pcbs[p := x])
  {
    var pcbs' := pcbs[p := x];
    forall q | q in pcbs'
      ensures AwakeAt(pcbs', q)
    {
      assert AwakeAt(pcbs, q);
    }
  }

  lemma WaitAwake(s: State, p: Pid, pid: int, nohang: bool)
    requires Sound(s) && AwakeOk(s.pcbs) && IsCalling(s, p)
    ensures AwakeOk(Waited(s, p, pid, nohang).0.pcbs)
  {
    hide QueuesOk, TreeOk, AwakeOk;
    TreeAt(s.pcbs, s.count, p);
    assert |s.queues| == 6 by { QueueHolds(s, 0); }
    var x := s.pcbs[p].(waited := pid);
    WaiterAwake(s.pcbs, p, x);
    var s1 := WithWaited(s, p, pid);
    var (s', r) := Waited(s, p, pid, nohang);
    if r.MustBlock? {
      ChildrenIn(s.pcbs, p);
      assert !HasAnswer(s.pcbs[p]);
      assert forall c :: c in x.children && WaitsFor(x, c) ==> !HasAnswer(s.pcbs[c]);
      WaiterAwake(s1.pcbs, p, x.(status := Blocked));
    } else if r.Reaped? {
      CollectAwake(s1.pcbs, p, r.pid);
    }
  }

  lemma {:induction false} TickAwake(s: State, i: nat)
    requires Sound(s) && AwakeOk(s.pcbs)
    ensures AwakeOk(Ticked(s, i).pcbs)
    decreases |s.queues[BLOCKED]| - i
  {
    hide TreeOk, IsQueue, Moved;
    QueueHolds(s, BLOCKED);
    var q := s.queues[BLOCKED];
    if i < |q| {
      var x := s.pcbs[q[i]];
      if x.sleep == 0 {
        TickAwake(s, i + 1);
      } else if x.sleep > 1 {
        StaySound(s, q[i], x.(sleep := x.sleep - 1));
        TickAwake(s.(pcbs := s.pcbs[q[i] := x.(sleep := x.sleep - 1)]), i + 1);
      } else {
        MovedKeys(s, q[i], Woken(x.(sleep := 0)));
      }
    }
  }

  lemma ChosenAwake(m: Machine)
    requires Sound(m.s) && AwakeOk(m.s.pcbs)
    ensures AwakeOk(Chosen(m).0.s.pcbs)
  {
    hide AwakeOk, Ticked, Sound, Slot;
    TickAwake(m.s, 0);
  }

  // ---- the calls of a turn ----

  /** No call of the process that runs leaves an answered wait behind. */
  ghost predicate StaysAwake(s: State, p: Pid, calls: seq<Call>)
    requires Sound(s) && p in s.pcbs
    decreases |calls|
  {
    if calls == [] then true
    else if IsCallable(s, p, calls[0]) then
      CalledSound(s, p, calls[0]);
      AwakeOk(Called(s, p, calls[0]).pcbs) && StaysAwake(Called(s, p, calls[0]), p, calls[1..])
    else StaysAwake(s, p, calls[1..])
  }

  /** To none of its calls does the condition apply. */
  ghost predicate LosesNone(s: State, p: Pid, calls: seq<Call>)
    requires Sound(s) && p in s.pcbs
    decreases |calls|
  {
    if calls == [] then true
    else if IsCallable(s, p, calls[0]) then
      CalledSound(s, p, calls[0]);
      !LosesWakeup(s, p, calls[0]) && LosesNone(Called(s, p, calls[0]), p, calls[1..])
    else LosesNone(s, p, calls[1..])
  }

  lemma {:induction false} PerformedAwake(s: State, p: Pid, calls: seq<Call>)
    requires Sound(s) && AwakeOk(s.pcbs) && p in s.pcbs
    ensures StaysAwake(s, p, calls) <==> LosesNone(s, p, calls)
    ensures LosesNone(s, p, calls) ==> AwakeOk(Performed(s, p, calls).pcbs)
    decreases |calls|
  {
    hide Sound, AwakeOk, Called, LosesWakeup, IsCallable;
    if calls != [] {
      if IsCallable(s, p, calls[0]) {
        CalledSound(s, p, calls[0]);
        CallLosesNoWakeup(s, p, calls[0]);
        if !LosesWakeup(s, p, calls[0]) {
          PerformedAwake(Called(s, p, calls[0]), p, calls[1..]);
        }
      } else {
        PerformedAwake(s, p, calls[1..]);
      }
    }
  }

  // ---- runs ----

  ghost predicate TurnStaysAwake(m: Machine, calls: seq<Call>)
    requires Sound(m.s)
  {
    var (m', t) := Chosen(m);
    t != -1 ==> StaysAwake(m'.s, m'.current, calls)
  }

  ghost predicate TurnLosesNone(m: Machine, calls: seq<Call>)
    requires Sound(m.s)
  {
    var (m', t) := Chosen(m);
    t != -1 ==> LosesNone(m'.s, m'.current, calls)
  }

  /** Along the whole run no process is blocked in a wait that a child has answered. */
  ghost predicate RunStaysAwake(m: Machine, script: seq<seq<Call>>)
    requires Sound(m.s)
  {
    script == [] ||
    (var before, calls := script[..|script| - 1], script[|script| - 1];
     RunStaysAwake(m, before) && TurnStaysAwake(RunOf(m, before), calls))
  }

  /** The condition applies to no exit and no stop of the run. */
  ghost predicate RunLosesNone(m: Machine, script: seq<seq<Call>>)
    requires Sound(m.s)
  {
    script == [] ||
    (var before, calls := script[..|script| - 1], script[|script| - 1];
     RunLosesNone(m, before) && TurnLosesNone(RunOf(m, before), calls))
  }

  lemma TurnAwake(m: Machine, calls: seq<Call>)
    requires Sound(m.s) && AwakeOk(m.s.pcbs)
    ensures TurnStaysAwake(m, calls) <==> TurnLosesNone(m, calls)
    ensures TurnLosesNone(m, calls) ==> AwakeOk(Turn(m, calls).s.pcbs)
  {
    hide Sound, AwakeOk, Chosen, StaysAwake, LosesNone, Performed;
    ChosenAwake(m);
    var (m', t) := Chosen(m);
    if t != -1 {
      PerformedAwake(m'.s, m'.current, calls);
    }
  }

  /**
   Exact condition for runs: whatever the processes call, in every state of the run no process is
   blocked in an answered wait if and only if no exit and no stop of the run is overlooked or
   inherited.
   */
  lemma {:induction false} RunLosesNoWakeup(m: Machine, script: seq<seq<Call>>)
    requires Sound(m.s) && AwakeOk(m.s.pcbs)
    ensures RunStaysAwake(m, script) <==> RunLosesNone(m, script)
    ensures RunLosesNone(m, script) ==> AwakeOk(RunOf(m, script).s.pcbs)
    decreases |script|
  {
    hide Sound, AwakeOk, Turn, TurnStaysAwake, TurnLosesNone;
    if script != [] {
      var before, calls := script[..|script| - 1], script[|script| - 1];
      RunLosesNoWakeup(m, before);
      if RunLosesNone(m, before) {
        TurnAwake(RunOf(m, before), calls);
      }
    }
  }
}

/** Whole runs of the process kernel: any script of calls by the processes that get to run. */
module KernelRuns {
  import opened Processes
  import opened KernelSteps
  import opened KernelCalls
  import opened Schedule
  import opened Fairness
  import opened Sleeping
  import opened ProcessKernel

  // ---- what every run keeps ----

  /** All the waits of a turn are proper. */
  ghost predicate AreProper(s: State, p: Pid, calls: seq<Call>)
    requires Sound(s) && p in s.pcbs
    decreases |calls|
  {
    if calls == [] then true
    else if IsCallable(s, p, calls[0]) then
      CalledSound(s, p, calls[0]);
      IsProper(s, p, calls[0]) && AreProper(Called(s, p, calls[0]), p, calls[1..])
    else AreProper(s, p, calls[1..])
  }

  ghost predicate IsProperTurn(m: Machine, calls: seq<Call>)
    requires Sound(m.s)
  {
    var (m', t) := Chosen(m);
    t != -1 ==> AreProper(m'.s, m'.current, calls)
  }

  ghost predicate IsProperRun(m: Machine, script: seq<seq<Call>>)
    requires Sound(m.s)
  {
    forall k :: 0 <= k < |script| ==> IsProperTurn(RunOf(m, script[..k]), script[k])
  }

  lemma {:induction false} PerformedOk(s: State, p: Pid, calls: seq<Call>)
    requires Inv(s) && Sound(s) && p in s.pcbs && AreProper(s, p, calls)
    ensures Inv(Performed(s, p, calls))
    decreases |calls|
  {
    hide Inv, Sound, Called, IsCallable, IsProper;
    if calls != [] {
      if IsCallable(s, p, calls[0]) {
        CalledSound(s, p, calls[0]);
        CalledOk(s, p, calls[0]);
        PerformedOk(Called(s, p, calls[0]), p, calls[1..]);
      } else {
        PerformedOk(s, p, calls[1..]);
      }
    }
  }

  lemma ChosenOk(m: Machine)
    requires Inv(m.s) && Sound(m.s)
    ensures Inv(Chosen(m).0.s)
  {
    TickOk(m.s, 0);
    TickSound(m.s, 0);
    hide Inv, Sound, Ticked, Slot;
    var s := Ticked(m.s, 0);
    var t := Select(s.queues[..3], m.quantum);
    if t != -1 {
      RotateOk(s, t);
    }
  }

  lemma TurnOk(m: Machine, calls: seq<Call>)
    requires Inv(m.s) && Sound(m.s) && IsProperTurn(m, calls)
    ensures Inv(Turn(m, calls).s)
  {
    hide Inv, Sound, Chosen, Performed;
    ChosenOk(m);
    var (m', t) := Chosen(m);
    if t != -1 {
      PerformedOk(m'.s, m'.current, calls);
      RotateOk(Performed(m'.s, m'.current, calls), t);
    }
  }

  /**
   In every run whose waits are proper, from the start of the kernel on: every process is in
   the one queue where it belongs, the processes form a tree, and no wakeup is lost.
   */
  lemma {:induction false} RunKeepsInv(m: Machine, script: seq<seq<Call>>)
    requires Inv(m.s) && Sound(m.s) && IsProperRun(m, script)
    ensures Inv(RunOf(m, script).s)
    decreases |script|
  {
    hide Inv, Sound, Turn, IsProperTurn;
    if script != [] {
      var n := |script| - 1;
      var before := script[..n];
      assert forall k :: 0 <= k <= n ==> before[..k] == script[..k];
      RunKeepsInv(m, before);
      TurnOk(RunOf(m, before), script[n]);
    }
  }

  // ---- the kernel runs that way ----

  /** What a call does to the number of processes. */
  function Gain(s: State, p: Pid, c: Call): int
    requires Sound(s) && IsCallable(s, p, c)
  {
    match c
    case Create(_) => 1
    case Wait(pid, nohang) => if Waited(s, p, pid, nohang).1.Reaped? then -1 else 0
    case _ => 0
  }

  /** Only creation adds a process, and only collecting a terminated child takes one away. */
  lemma CallGain(s: State, p: Pid, c: Call)
    requires Sound(s) && IsCallable(s, p, c)
    ensures |Called(s, p, c).pcbs| == |s.pcbs| + Gain(s, p, c)
    ensures Gain(s, p, c) == 0 ==> Called(s, p, c).pcbs.Keys == s.pcbs.Keys
  {
    hide Sound, Exited, StoppedState, Created, Waited, Moved;
    match c
    case Create(priority) =>
      CreateSound(s, p, priority);
      KeysGrow(s.pcbs, Called(s, p, c).pcbs, s.count + 1);
    case Wait(pid, nohang) =>
      WaitSound(s, p, pid, nohang);
      var r := Waited(s, p, pid, nohang).1;
      if r.Reaped? {
        KeysGrow(Called(s, p, c).pcbs, s.pcbs, r.pid);
      } else {
        SameKeys(s.pcbs, Called(s, p, c).pcbs);
      }
    case Exit(pid) =>
      ExitSound(s, pid);
      SameKeys(s.pcbs, Called(s, p, c).pcbs);
    case Stop(pid) =>
      if !HasAnswer(s.pcbs[pid]) {
        StopSound(s, pid);
        SameKeys(s.pcbs, Called(s, p, c).pcbs);
      }
    case Continue(pid) =>
      MovedKeys(s, pid, Woken(s.pcbs[pid]));
      SameKeys(s.pcbs, Called(s, p, c).pcbs);
    case Renice(pid, priority) =>
      MovedKeys(s, pid, s.pcbs[pid].(priority := priority));
      SameKeys(s.pcbs, Called(s, p, c).pcbs);
    case Sleep(ticks) =>
      MovedKeys(s, p, s.pcbs[p].(status := Blocked, sleep := 10 * ticks));
      SameKeys(s.pcbs, Called(s, p, c).pcbs);
    case ResumeSleep =>
      MovedKeys(s, p, s.pcbs[p].(status := Blocked));
      SameKeys(s.pcbs, Called(s, p, c).pcbs);
  }

  lemma KeysGrow(a: map<Pid, Pcb>, b: map<Pid, Pcb>, p: Pid)
    requires p in b && p !in a && (b.Keys == a.Keys + {p} || a.Keys == b.Keys - {p})
    ensures |b| == |a| + 1
  {
    assert b.Keys == a.Keys + {p} && |b| == |b.Keys| && |a| == |a.Keys|;
  }

  lemma SameKeys(a: map<Pid, Pcb>, b: map<Pid, Pcb>)
    requires a.Keys == b.Keys
    ensures |a| == |b|
  {
    assert |b| == |b.Keys| && |a| == |a.Keys|;
  }

  method Execute(k: Kernel, c: Call) returns (gain: int)
    requires k.Valid() && IsCallable(k.S(), k.current, c)
    modifies k`pcbs, k`ready, k`blocked, k`stopped, k`zombies, k`count
    ensures k.Valid() && k.S() == Called(old(k.S()), k.current, c) && gain == Gain(old(k.S()), k.current, c)
  {
    hide Sound, Exited, StoppedState, Created, Waited, Moved;
    gain := 0;
    match c
    case Create(priority) =>
      var pid := k.KProcCreate(priority);
      gain := 1;
    case Wait(pid, nohang) =>
      var r := k.KWaitpid(pid, nohang);
      gain := if r.Reaped? then -1 else 0;
    case Exit(pid) =>
      k.KProcExit(pid);
    case Stop(pid) =>
      var r := k.KStopProcess(pid);
    case Continue(pid) =>
      var r := k.KContinueProcess(pid);
    case Renice(pid, priority) =>
      var r := k.KSetPriority(pid, priority);
    case Sleep(ticks) =>
      var r := k.KSleep(ticks);
    case ResumeSleep =>
      var r := k.KResumeSleep();
  }

  /** The calls of the process that runs. */
  method ExecuteAll(k: Kernel, calls: seq<Call>) returns (created: nat, collected: nat)
    requires k.Valid() && k.current in k.pcbs
    modifies k`pcbs, k`ready, k`blocked, k`stopped, k`zombies, k`count
    ensures k.Valid() && k.S() == Performed(old(k.S()), k.current, calls) && k.current in k.pcbs
    ensures |k.pcbs| == |old(k.pcbs)| + created - collected
  {
    hide Sound, Called, IsCallable, Waited;
    created, collected := 0, 0;
    ghost var s := k.S();
    var j := 0;
    assert calls[0..] == calls;
    while j < |calls|
      invariant 0 <= j <= |calls| && k.Valid() && k.current in k.pcbs
      invariant Performed(k.S(), k.current, calls[j..]) == Performed(s, k.current, calls)
      invariant |k.pcbs| == |s.pcbs| + created - collected
    {
      assert calls[j..][1..] == calls[j + 1..];
      if IsCallable(k.S(), k.current, calls[j]) {
        CalledSound(k.S(), k.current, calls[j]);
        CallGain(k.S(), k.current, calls[j]);
        var gain := Execute(k, calls[j]);
        if gain == 1 {
          created := created + 1;
        } else if gain == -1 {
          collected := collected + 1;
        }
      }
      j := j + 1;
    }
  }

  /**
   A run from the start: in every turn the scheduler picks a process, which makes its calls.
   The machine is always that of the model; the queues hold every process exactly once, and
   these are the processes created so far less those collected. If all waits are proper
   then no wakeup is lost.
   */
  method Run(priority: nat, script: seq<seq<Call>>) returns (k: Kernel, created: nat, collected: nat)
    requires priority < 3
    ensures k.Valid() && Sound(Boot(priority).s) && k.M() == RunOf(Boot(priority), script)
    ensures |k.pcbs| == 1 + created - collected && Entries(k.S().queues) == |k.pcbs|
    ensures IsProperRun(Boot(priority), script) ==> Inv(k.S())
  {
    hide Sound, Inv, IsProperRun, Chosen, Performed;
    BootOk(priority);
    k := new Kernel(priority);
    created, collected := 0, 0;
    var i := 0;
    assert script[..0] == [];
    while i < |script|
      invariant 0 <= i <= |script| && k.Valid() && fresh(k) && k.M() == RunOf(Boot(priority), script[..i])
      invariant |k.pcbs| == 1 + created - collected
    {
      assert script[..i + 1][..i] == script[..i];
      KeysChosen(k.M());
      var t := k.BeginQuantum();
      if t != -1 {
        var a, b := ExecuteAll(k, script[i]);
        created, collected := created + a, collected + b;
        k.EndQuantum(t);
      }
      i := i + 1;
    }
    assert script[..i] == script;
    AllQueued(k.S());
    if IsProperRun(Boot(priority), script) {
      RunKeepsInv(Boot(priority), script);
    }
  }

  lemma KeysChosen(m: Machine)
    requires Sound(m.s)
    ensures Chosen(m).0.s.pcbs.Keys == m.s.pcbs.Keys
  {
    TickSound(m.s, 0);
    ChosenKeeps(m);
  }

  lemma AllQueued(s: State)
    requires Sound(s)
    ensures Entries(s.queues) == |s.pcbs|
  {
    EntriesAreAll(s);
  }

  // ---- s_sleep ----

  /**
   `s_sleep` of the process that runs, in the turn of queue `t`. While it is suspended the
   machine takes further turns, with any calls by the other processes; whenever the process
   runs again it asks whether time is left. `passes` counts the timer passes that find it
   blocked.
   */
  method SSleep(k: Kernel, ticks: nat, t: nat, script: seq<seq<Call>>) returns (returned: bool, ghost passes: nat)
    requires k.Valid() && IsCalling(k.S(), k.current) && t < 3
    modifies k
    ensures k.Valid() && (ticks == 0 ==> returned && k.M() == old(k.M()))
    ensures returned && ticks > 0 ==> k.current == old(k.current) && IsCalling(k.S(), k.current)
    ensures returned && ticks > 0 ==> k.pcbs[k.current].sleep == 0 && passes >= 10 * ticks
  {
    hide Sound, Chosen, Performed, Moved;
    returned, passes := true, 0;
    if ticks == 0 {
      return;
    }
    var p := k.current;
    PidInRange(k.S(), p);
    MovedKeys(k.S(), p, k.pcbs[p].(status := Blocked, sleep := 10 * ticks));
    var status := k.KSleep(ticks);
    FinishedKeeps(k.S(), p, t);
    k.EndQuantum(t);
    var i := 0;
    while i < |script|
      invariant 0 <= i <= |script| && k.Valid() && p <= k.count
      invariant p in k.pcbs ==> 10 * ticks <= k.pcbs[p].sleep + passes
    {
      PassKeepsTime(k.M(), p);
      passes := passes + if IsBlocked(k.S(), p) then 1 else 0;
      var t' := k.BeginQuantum();
      if t' != -1 {
        if k.current == p {
          ghost var s := k.S();
          MovedKeys(s, p, s.pcbs[p].(status := Blocked));
          var more := k.KResumeSleep();
          if !more {
            return;
          }
        } else {
          PerformedSleep(k.S(), k.current, script[i], p);
          var a, b := ExecuteAll(k, script[i]);
        }
        FinishedKeeps(k.S(), k.current, t');
        k.EndQuantum(t');
      }
      i := i + 1;
    }
    returned := false;
  }

  /** A pass takes at most a tenth, and that only from a blocked process. */
  lemma PassKeepsTime(m: Machine, p: Pid)
    requires Sound(m.s)
    ensures Chosen(m).0.s.count == m.s.count && (p in m.s.pcbs <==> p in Chosen(m).0.s.pcbs)
    ensures p in m.s.pcbs ==> m.s.pcbs[p].sleep <= Chosen(m).0.s.pcbs[p].sleep + if IsBlocked(m.s, p) then 1 else 0
  {
    hide QueuesOk, TreeOk, Chosen, Ticked;
    ChosenKeeps(m);
    KeysChosen(m);
    if p in m.s.pcbs {
      TickSleep(m.s, p);
    }
  }

  lemma PidInRange(s: State, p: Pid)
    requires Sound(s) && p in s.pcbs
    ensures p <= s.count
  {
  }
}

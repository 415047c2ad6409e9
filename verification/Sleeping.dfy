/**
 How long a sleep lasts. A timer pass stops at the first process that it wakes, so a pass
 may not reach a sleeper; but then the sleeper moves up by one place in the blocked queue.
 */
module Sleeping {
  import opened Processes
  import opened KernelSteps
  import opened KernelCalls
  import opened Schedule
  import opened QueueOrder
  import opened Fairness

  predicate IsBlocked(s: State, p: Pid)
  {
    p in s.pcbs && s.pcbs[p].status == Blocked
  }

  predicate IsAsleep(s: State, p: Pid)
  {
    IsBlocked(s, p) && s.pcbs[p].sleep > 0
  }

  /** The places before a blocked process. */
  ghost function Before(s: State, p: Pid): nat
    requires Sound(s) && IsBlocked(s, p)
  {
    InItsQueue(s, p);
    Pos(s.queues[BLOCKED], p)
  }

  /** What is left of a sleep: tenths of a tick, and places before the sleeper. */
  ghost function Rest(s: State, p: Pid): nat
    requires Sound(s) && IsAsleep(s, p)
  {
    s.pcbs[p].sleep + Before(s, p)
  }

  // ---- one timer pass ----

  lemma BlockedIsQueue(s: State)
    requires QueuesOk(s)
    ensures NoDup(s.queues[BLOCKED])
  {
    assert IsQueue(s.pcbs, s.queues[BLOCKED], BLOCKED);
  }

  /** The part of a pass behind a process leaves it alone. */
  lemma {:induction false} TickBehind(s: State, j: nat, i: nat)
    requires QueuesOk(s) && i < j && i < |s.queues[BLOCKED]|
    ensures var p := s.queues[BLOCKED][i];
            && p in s.pcbs && p in Ticked(s, j).pcbs && Ticked(s, j).pcbs[p] == s.pcbs[p]
            && p in Ticked(s, j).queues[BLOCKED] && Pos(Ticked(s, j).queues[BLOCKED], p) == i
    decreases |s.queues[BLOCKED]| - j
  {
    hide QueuesOk, NoDup, Pos, Without;
    QueueHolds(s, BLOCKED);
    BlockedIsQueue(s);
    var q := s.queues[BLOCKED];
    PosAt(q, i);
    if j < |q| {
      var x := s.pcbs[q[j]];
      assert q[i] != q[j] by { Distinct(q, i, j); }
      if x.sleep == 0 {
        TickBehind(s, j + 1, i);
      } else if x.sleep > 1 {
        PriorityOk(s, q[j]);
        StayedOk(s, q[j], x.(sleep := x.sleep - 1));
        TickBehind(s.(pcbs := s.pcbs[q[j] := x.(sleep := x.sleep - 1)]), j + 1, i);
      } else {
        PosCut(q, i, j);
        WakeCuts(s, q[j]);
      }
    }
  }

  lemma WakeCuts(s: State, p: Pid)
    requires QueuesOk(s) && p in s.pcbs
    ensures var x := Woken(s.pcbs[p].(sleep := 0));
            Moved(s, p, x).queues[BLOCKED] == Without(s.queues[BLOCKED], p) && Moved(s, p, x).pcbs == s.pcbs[p := x]
  {
  }

  /** A pass wakes a sleeper that has one tenth left, or takes exactly one off its rest. */
  ghost predicate IsOnePass(s: State, s': State, p: Pid)
    requires Sound(s) && IsAsleep(s, p)
  {
    && Sound(s') && p in s'.pcbs
    && if s'.pcbs[p].status == Running then s.pcbs[p].sleep == 1 && s'.pcbs[p].sleep == 0
       else
         && IsAsleep(s', p) && Rest(s', p) == Rest(s, p) - 1
         && s.pcbs[p].sleep - 1 <= s'.pcbs[p].sleep <= s.pcbs[p].sleep
  }

  lemma {:induction false} TickEffect(s: State, j: nat, i: nat)
    requires Sound(s) && j <= i < |s.queues[BLOCKED]| && IsAsleep(s, s.queues[BLOCKED][i])
    ensures IsOnePass(s, Ticked(s, j), s.queues[BLOCKED][i])
    decreases |s.queues[BLOCKED]| - j
  {
    hide TreeOk, NoDup, Pos, Without, IsQueue;
    QueueHolds(s, BLOCKED);
    BlockedIsQueue(s);
    var q := s.queues[BLOCKED];
    var x := s.pcbs[q[j]];
    PosAt(q, i);
    TickSound(s, j);
    if x.sleep == 0 {
      TickEffect(s, j + 1, i);
    } else if x.sleep > 1 {
      var s1 := s.(pcbs := s.pcbs[q[j] := x.(sleep := x.sleep - 1)]);
      StaySound(s, q[j], x.(sleep := x.sleep - 1));
      if j < i {
        Distinct(q, i, j);
        TickEffect(s1, j + 1, i);
      } else {
        TickBehind(s1, j + 1, i);
      }
    } else {
      WakeCuts(s, q[j]);
      if j < i {
        PosCut(q, i, j);
        Distinct(q, i, j);
      }
    }
  }

  lemma OnePass(s: State, p: Pid)
    requires Sound(s) && IsAsleep(s, p)
    ensures IsOnePass(s, Ticked(s, 0), p)
  {
    InItsQueue(s, p);
    hide Sound, Ticked, IsOnePass;
    var i := Pos(s.queues[BLOCKED], p);
    TickEffect(s, 0, i);
  }

  // ---- the calls of a turn ----

  /** No call puts another process than the caller to sleep. */
  lemma OnlyCallerBlocks(s: State, p: Pid, c: Call, x: Pid)
    requires Sound(s) && IsCallable(s, p, c) && x != p && IsBlocked(Called(s, p, c), x)
    ensures IsBlocked(s, x)
  {
    hide Sound, Exited, StoppedState, Created, Waited, Moved;
    match c
    case Create(priority) => CreateSound(s, p, priority);
    case Wait(pid, nohang) =>
      WaitOutcome(s, p, pid, nohang);
      var s1 := WithWaited(s, p, pid);
      MovedKeys(s1, p, s1.pcbs[p].(status := Blocked));
    case Exit(pid) => ExitTableOf(s, pid);
    case Stop(pid) =>
      if !HasAnswer(s.pcbs[pid]) {
        StopTableOf(s, pid);
      }
    case Continue(pid) => MovedKeys(s, pid, Woken(s.pcbs[pid]));
    case Renice(pid, priority) => MovedKeys(s, pid, s.pcbs[pid].(priority := priority));
    case Sleep(ticks) => MovedKeys(s, p, s.pcbs[p].(status := Blocked, sleep := 10 * ticks));
    case ResumeSleep => MovedKeys(s, p, s.pcbs[p].(status := Blocked));
  }

  lemma {:induction false} OnlyCallerBlocksAll(s: State, p: Pid, calls: seq<Call>, x: Pid)
    requires Sound(s) && p in s.pcbs && x != p && IsBlocked(Performed(s, p, calls), x)
    ensures IsBlocked(s, x)
    decreases |calls|
  {
    hide Sound, Called, IsCallable, IsBlocked;
    if calls != [] {
      if IsCallable(s, p, calls[0]) {
        CalledSound(s, p, calls[0]);
        OnlyCallerBlocksAll(Called(s, p, calls[0]), p, calls[1..], x);
        OnlyCallerBlocks(s, p, calls[0], x);
      } else {
        OnlyCallerBlocksAll(s, p, calls[1..], x);
      }
    }
  }

  /** The calls of another process leave a sleeper with its time, and put nobody before it. */
  lemma {:induction false} SleepsOn(s: State, p: Pid, calls: seq<Call>, x: Pid)
    requires Sound(s) && p in s.pcbs && x != p && IsAsleep(s, x) && IsBlocked(Performed(s, p, calls), x)
    ensures var s' := Performed(s, p, calls); s'.pcbs[x].sleep == s.pcbs[x].sleep && Before(s', x) <= Before(s, x)
    decreases |calls|
  {
    hide Sound, Called, IsCallable, Pos;
    if calls != [] {
      if IsCallable(s, p, calls[0]) {
        CalledSound(s, p, calls[0]);
        var s1 := Called(s, p, calls[0]);
        OnlyCallerBlocksAll(s1, p, calls[1..], x);
        CallNotBehind(s, p, calls[0], x);
        SleepsOn(s1, p, calls[1..], x);
      } else {
        SleepsOn(s, p, calls[1..], x);
      }
    }
  }

  // ---- turns ----

  /** The state after the pass of a turn, as far as a blocked process is concerned. */
  lemma ChosenKeeps(m: Machine)
    requires Sound(m.s)
    ensures Sound(Ticked(m.s, 0))
    ensures var s := Chosen(m).0.s; s.pcbs == Ticked(m.s, 0).pcbs && s.queues[BLOCKED] == Ticked(m.s, 0).queues[BLOCKED]
    ensures Chosen(m).0.s.count == m.s.count
  {
    TickSound(m.s, 0);
    hide Sound, Ticked, Slot;
  }

  lemma FinishedKeeps(s: State, p: Pid, t: nat)
    requires Sound(s) && p in s.pcbs && t < 3
    ensures var s' := Finished(s, p, t);
            s'.pcbs == s.pcbs && s'.queues[BLOCKED] == s.queues[BLOCKED] && s'.count == s.count
  {
    hide TreeOk, IsQueue;
  }

  /**
   A turn in which neither the timer nor a call wakes a sleeper takes at least one off its rest and
   at most one tenth.
   */
  lemma SleepTurn(m: Machine, calls: seq<Call>, x: Pid)
    requires Sound(m.s) && IsAsleep(m.s, x) && IsBlocked(Ticked(m.s, 0), x) && IsBlocked(Turn(m, calls).s, x)
    ensures var s' := Turn(m, calls).s;
            IsAsleep(s', x) && Rest(s', x) < Rest(m.s, x) && m.s.pcbs[x].sleep <= s'.pcbs[x].sleep + 1
  {
    OnePass(m.s, x);
    ChosenKeeps(m);
    hide Sound, Ticked, Chosen, Performed, Pos;
    var (m1, t) := Chosen(m);
    if t != -1 {
      FinishedKeeps(Performed(m1.s, m1.current, calls), m1.current, t);
      SleepsOn(m1.s, m1.current, calls, x);
    }
  }

  // ---- an undisturbed sleep ----

  /** In each of these turns a sleeper that the timer does not wake is still blocked at the end. */
  ghost predicate IsUndisturbed(m: Machine, script: seq<seq<Call>>, x: Pid)
    requires Sound(m.s)
  {
    forall k :: 0 <= k < |script| && IsBlocked(Ticked(RunOf(m, script[..k]).s, 0), x) ==>
      IsBlocked(RunOf(m, script[..k + 1]).s, x)
  }

  /** The passes of the first `n` turns leave a process blocked. */
  ghost predicate IsLeftBlocked(m: Machine, script: seq<seq<Call>>, x: Pid, n: nat)
    requires Sound(m.s) && n <= |script|
  {
    forall k :: 0 <= k < n ==> IsBlocked(Ticked(RunOf(m, script[..k]).s, 0), x)
  }

  /** The pass number `n` is the one that wakes it. */
  ghost predicate IsWokenByPass(m: Machine, script: seq<seq<Call>>, x: Pid, n: nat)
    requires Sound(m.s) && 0 < n <= |script|
  {
    && IsLeftBlocked(m, script, x, n - 1)
    && var s := Ticked(RunOf(m, script[..n - 1]).s, 0);
       x in s.pcbs && s.pcbs[x].status == Running && s.pcbs[x].sleep == 0
  }

  lemma {:induction false} SleepShortens(m: Machine, script: seq<seq<Call>>, x: Pid, n: nat)
    requires Sound(m.s) && IsAsleep(m.s, x) && IsUndisturbed(m, script, x) && n <= |script| &&
             IsLeftBlocked(m, script, x, n)
    ensures var s' := RunOf(m, script[..n]).s;
            && IsAsleep(s', x) && Rest(s', x) + n <= Rest(m.s, x) && m.s.pcbs[x].sleep <= s'.pcbs[x].sleep + n
    decreases n
  {
    hide Sound, Ticked, Turn, Pos;
    if n == 0 {
      assert script[..0] == [];
    } else {
      SleepShortens(m, script, x, n - 1);
      assert script[..n][..n - 1] == script[..n - 1];
      assert IsBlocked(RunOf(m, script[..n - 1 + 1]).s, x);
      SleepTurn(RunOf(m, script[..n - 1]), script[n - 1], x);
    }
  }

  /** The pass that wakes a sleeper, if its script is long enough. */
  lemma {:induction false} WakesInTime(m: Machine, script: seq<seq<Call>>, x: Pid, n: nat) returns (w: nat)
    requires Sound(m.s) && IsAsleep(m.s, x) && IsUndisturbed(m, script, x)
    requires n < |script| == Rest(m.s, x) && IsLeftBlocked(m, script, x, n)
    ensures n < w <= |script| && IsWokenByPass(m, script, x, w) && m.s.pcbs[x].sleep <= w
    decreases |script| - n
  {
    hide QueuesOk, TreeOk, Ticked, Pos, IsUndisturbed;
    SleepShortens(m, script, x, n);
    var s := RunOf(m, script[..n]).s;
    OnePass(s, x);
    if IsBlocked(Ticked(s, 0), x) {
      if n + 1 < |script| {
        w := WakesInTime(m, script, x, n + 1);
      } else {
        assert IsLeftBlocked(m, script, x, n + 1);
        SleepShortens(m, script, x, n + 1);
      }
    } else {
      w := n + 1;
    }
  }

  // ---- falling asleep ----

  lemma {:induction false} PerformedSplit(s: State, p: Pid, a: seq<Call>, b: seq<Call>)
    requires Sound(s) && p in s.pcbs
    ensures Performed(s, p, a + b) == Performed(Performed(s, p, a), p, b)
    decreases |a|
  {
    hide Sound, Called, IsCallable;
    if a == [] {
      assert a + b == b;
    } else {
      assert (a + b)[1..] == a[1..] + b;
      if IsCallable(s, p, a[0]) {
        CalledSound(s, p, a[0]);
        PerformedSplit(Called(s, p, a[0]), p, a[1..], b);
      } else {
        PerformedSplit(s, p, a[1..], b);
      }
    }
  }

  /** In this turn `p` runs and calls `k_sleep`, after some calls of its own. */
  ghost predicate GoesToSleep(m: Machine, calls: seq<Call>, p: Pid, ticks: nat)
    requires Sound(m.s)
  {
    && RunsAt(m, p)
    && exists n :: 0 <= n < |calls| && SleepsAfter(Chosen(m).0.s, calls, n, p, ticks)
  }

  ghost predicate SleepsAfter(s: State, calls: seq<Call>, n: nat, p: Pid, ticks: nat)
    requires Sound(s) && n < |calls|
  {
    p in s.pcbs && calls[n] == Sleep(ticks) && IsCallable(Performed(s, p, calls[..n]), p, Sleep(ticks))
  }

  lemma FallsAsleep(m: Machine, calls: seq<Call>, p: Pid, ticks: nat)
    requires Sound(m.s) && GoesToSleep(m, calls, p, ticks)
    ensures ticks > 0 && IsAsleep(Turn(m, calls).s, p) && Turn(m, calls).s.pcbs[p].sleep == 10 * ticks
  {
    hide Sound, Chosen, Performed, Moved;
    var (m1, t) := Chosen(m);
    var n :| 0 <= n < |calls| && SleepsAfter(m1.s, calls, n, p, ticks);
    assert calls == calls[..n] + calls[n..] && calls[n..] == [Sleep(ticks)] + calls[n + 1..];
    PerformedSplit(m1.s, p, calls[..n], calls[n..]);
    var s := Performed(m1.s, p, calls[..n]);
    SleepEndsTurn(s, p, ticks, calls[n + 1..]);
    FinishedKeeps(Performed(m1.s, p, calls), p, t);
  }

  lemma SleepEndsTurn(s: State, p: Pid, ticks: nat, rest: seq<Call>)
    requires Sound(s) && IsCallable(s, p, Sleep(ticks))
    ensures Performed(s, p, [Sleep(ticks)] + rest) == Slept(s, p, ticks)
    ensures IsAsleep(Slept(s, p, ticks), p) && Slept(s, p, ticks).pcbs[p].sleep == 10 * ticks
  {
    hide Sound, Moved;
    CalledSound(s, p, Sleep(ticks));
    MovedKeys(s, p, s.pcbs[p].(status := Blocked, sleep := 10 * ticks));
    assert ([Sleep(ticks)] + rest)[1..] == rest;
    NoMoreCalls(Called(s, p, Sleep(ticks)), p, rest);
  }

  /**
   In every run of the kernel, a process that goes to sleep for `ticks` ticks and finds `i`
   processes before it in the blocked queue is woken by the timer after at least
   `10 * ticks` and at most `10 * ticks + i` passes, unless a call unblocks it before.
   */
  lemma SleepBound(m: Machine, calls: seq<Call>, p: Pid, ticks: nat, script: seq<seq<Call>>) returns (w: nat)
    requires Sound(m.s) && GoesToSleep(m, calls, p, ticks)
    requires var m' := Turn(m, calls);
             IsUndisturbed(m', script, p) && (IsBlocked(m'.s, p) ==> |script| == 10 * ticks + Before(m'.s, p))
    ensures IsBlocked(Turn(m, calls).s, p)
    ensures 10 * ticks <= w <= 10 * ticks + Before(Turn(m, calls).s, p) == |script|
    ensures 0 < w && IsWokenByPass(Turn(m, calls), script, p, w)
  {
    hide Sound, Turn, Ticked, Pos, IsUndisturbed, GoesToSleep;
    FallsAsleep(m, calls, p, ticks);
    w := WakesInTime(Turn(m, calls), script, p, 0);
  }

  // ---- s_sleep ----

  /** A pass leaves everybody alone who does not sleep. */
  lemma {:induction false} TickLeaves(s: State, i: nat, p: Pid)
    requires Sound(s) && p in s.pcbs && !IsAsleep(s, p)
    ensures p in Ticked(s, i).pcbs && Ticked(s, i).pcbs[p] == s.pcbs[p]
    decreases |s.queues[BLOCKED]| - i
  {
    hide TreeOk, IsQueue, Moved;
    QueueHolds(s, BLOCKED);
    var q := s.queues[BLOCKED];
    if i < |q| {
      var x := s.pcbs[q[i]];
      if x.sleep == 0 {
        TickLeaves(s, i + 1, p);
      } else if x.sleep > 1 {
        StaySound(s, q[i], x.(sleep := x.sleep - 1));
        TickLeaves(s.(pcbs := s.pcbs[q[i] := x.(sleep := x.sleep - 1)]), i + 1, p);
      } else {
        MovedKeys(s, q[i], Woken(x.(sleep := 0)));
      }
    }
  }

  lemma TickSleep(s: State, p: Pid)
    requires Sound(s) && p in s.pcbs
    ensures p in Ticked(s, 0).pcbs
    ensures s.pcbs[p].sleep <= Ticked(s, 0).pcbs[p].sleep + if IsBlocked(s, p) then 1 else 0
  {
    hide QueuesOk, TreeOk, Ticked, Pos;
    if IsAsleep(s, p) {
      OnePass(s, p);
    } else {
      TickLeaves(s, 0, p);
    }
  }

  /** A call changes nobody's time, except that `k_sleep` sets the caller's. */
  lemma CallSleep(s: State, r: Pid, c: Call, p: Pid)
    requires Sound(s) && IsCallable(s, r, c) && p <= s.count && !(r == p && c.Sleep?)
    ensures s.count <= Called(s, r, c).count
    ensures p in Called(s, r, c).pcbs ==> p in s.pcbs && Called(s, r, c).pcbs[p].sleep == s.pcbs[p].sleep
  {
    hide Sound, Exited, StoppedState, Waited, Moved;
    match c
    case Create(priority) =>
      hide Created;
      CreateSound(s, r, priority);
      CreateCount(s, r, priority);
    case Wait(pid, nohang) =>
      WaitOutcome(s, r, pid, nohang);
      var s1 := WithWaited(s, r, pid);
      MovedKeys(s1, r, s1.pcbs[r].(status := Blocked));
    case Exit(pid) =>
      ExitTableOf(s, pid);
      ExitCount(s, pid);
    case Stop(pid) =>
      if !HasAnswer(s.pcbs[pid]) {
        StopTableOf(s, pid);
        StopCount(s, pid);
      }
    case Continue(pid) => MovedKeys(s, pid, Woken(s.pcbs[pid]));
    case Renice(pid, priority) => MovedKeys(s, pid, s.pcbs[pid].(priority := priority));
    case Sleep(ticks) => MovedKeys(s, r, s.pcbs[r].(status := Blocked, sleep := 10 * ticks));
    case ResumeSleep => MovedKeys(s, r, s.pcbs[r].(status := Blocked));
  }

  lemma CreateCount(s: State, r: Pid, priority: nat)
    requires r in s.pcbs
    ensures Created(s, r, priority).count == s.count + 1
  {
  }

  lemma ExitCount(s: State, x: Pid)
    requires Sound(s) && IsAlive(s.pcbs, x) && x != INIT
    ensures Exited(s, x).count == s.count
  {
    hide QueuesOk, TreeOk, Exited, WokenBy;
    ExitWakesFirst(s, x);
  }

  lemma StopCount(s: State, x: Pid)
    requires Sound(s) && IsAlive(s.pcbs, x)
    ensures StoppedState(s, x).count == s.count
  {
    hide QueuesOk, TreeOk, WokenBy, Moved;
    PriorityOk(s, x);
    WakesFirst(s, x, Halted(s.pcbs[x]));
  }

  lemma {:induction false} PerformedSleep(s: State, r: Pid, calls: seq<Call>, p: Pid)
    requires Sound(s) && r in s.pcbs && r != p && p <= s.count
    ensures s.count <= Performed(s, r, calls).count
    ensures p in Performed(s, r, calls).pcbs ==> p in s.pcbs && Performed(s, r, calls).pcbs[p].sleep == s.pcbs[p].sleep
    decreases |calls|
  {
    hide Sound, Called, IsCallable;
    if calls != [] {
      if IsCallable(s, r, calls[0]) {
        CalledSound(s, r, calls[0]);
        CallSleep(s, r, calls[0], p);
        PerformedSleep(Called(s, r, calls[0]), r, calls[1..], p);
      } else {
        PerformedSleep(s, r, calls[1..], p);
      }
    }
  }

  /** `k_resume_sleep` answers the process that runs in this turn that no time is left. */
  ghost predicate ReturnsAt(m: Machine, p: Pid)
    requires Sound(m.s)
  {
    RunsAt(m, p) && Chosen(m).0.s.pcbs[p].sleep == 0
  }

  /** The process is in the loop of `s_sleep`: whenever it runs it asks whether time is left. */
  ghost predicate IsInLoop(m: Machine, script: seq<seq<Call>>, p: Pid)
    requires Sound(m.s)
  {
    forall k :: 0 <= k < |script| && RunsAt(RunOf(m, script[..k]), p) ==> script[k] != [] && script[k][0] == ResumeSleep
  }

  /** How many passes find a process blocked. */
  ghost function BlockedPasses(m: Machine, script: seq<seq<Call>>, p: Pid): nat
    requires Sound(m.s)
  {
    if script == [] then 0
    else
      var n := |script| - 1;
      BlockedPasses(m, script[..n], p) + if IsBlocked(RunOf(m, script[..n]).s, p) then 1 else 0
  }

  lemma ResumeEndsTurn(s: State, p: Pid, calls: seq<Call>)
    requires Sound(s) && IsCalling(s, p) && s.pcbs[p].sleep > 0 && calls != [] && calls[0] == ResumeSleep
    ensures var s' := Performed(s, p, calls);
            s'.pcbs == s.pcbs[p := s.pcbs[p].(status := Blocked)] && s'.count == s.count
  {
    hide Sound, Moved;
    CalledSound(s, p, ResumeSleep);
    MovedKeys(s, p, s.pcbs[p].(status := Blocked));
    NoMoreCalls(Called(s, p, ResumeSleep), p, calls[1..]);
  }

  lemma LoopTurn(m: Machine, calls: seq<Call>, p: Pid)
    requires Sound(m.s) && p <= m.s.count && !ReturnsAt(m, p)
    requires RunsAt(m, p) ==> calls != [] && calls[0] == ResumeSleep
    ensures var s' := Turn(m, calls).s;
            && p <= s'.count
            && (p in s'.pcbs ==>
                p in m.s.pcbs && m.s.pcbs[p].sleep <= s'.pcbs[p].sleep + if IsBlocked(m.s, p) then 1 else 0)
  {
    ChosenKeeps(m);
    TickSound(m.s, 0);
    if p in m.s.pcbs {
      TickSleep(m.s, p);
    }
    hide Sound, Ticked, Chosen, Performed;
    var (m1, t) := Chosen(m);
    if t != -1 {
      FinishedKeeps(Performed(m1.s, m1.current, calls), m1.current, t);
      if m1.current == p {
        ResumeEndsTurn(m1.s, p, calls);
      } else {
        PerformedSleep(m1.s, m1.current, calls, p);
      }
    }
  }

  lemma {:induction false} LoopKeeps(m: Machine, script: seq<seq<Call>>, p: Pid, n: nat)
    requires Sound(m.s) && p in m.s.pcbs && p <= m.s.count && n <= |script| && IsInLoop(m, script, p)
    requires forall k :: 0 <= k < n ==> !ReturnsAt(RunOf(m, script[..k]), p)
    ensures var s' := RunOf(m, script[..n]).s;
            p <= s'.count && (p in s'.pcbs ==> m.s.pcbs[p].sleep <= s'.pcbs[p].sleep + BlockedPasses(m, script[..n], p))
    decreases n
  {
    hide Sound, Turn, RunsAt, ReturnsAt;
    if n == 0 {
      assert script[..0] == [];
    } else {
      LoopKeeps(m, script, p, n - 1);
      assert script[..n][..n - 1] == script[..n - 1];
      LoopTurn(RunOf(m, script[..n - 1]), script[n - 1], p);
    }
  }

  /**
   The loop of `s_sleep` ends only when no time is left, whatever wakes the process early:
   in every run, at least `10 * ticks` passes have found it blocked by then.
   */
  lemma SleepReturns(m: Machine, calls: seq<Call>, p: Pid, ticks: nat, script: seq<seq<Call>>)
    requires Sound(m.s) && GoesToSleep(m, calls, p, ticks) && script != []
    requires var m' := Turn(m, calls); var n := |script| - 1;
             && IsInLoop(m', script, p) && ReturnsAt(RunOf(m', script[..n]), p)
             && forall k :: 0 <= k < n ==> !ReturnsAt(RunOf(m', script[..k]), p)
    ensures BlockedPasses(Turn(m, calls), script, p) >= 10 * ticks
  {
    var m', n := Turn(m, calls), |script| - 1;
    FallsAsleep(m, calls, p, ticks);
    assert p <= m'.s.count;
    hide QueuesOk, TreeOk, Turn, Chosen, Ticked;
    LoopKeeps(m', script, p, n);
    var m1 := RunOf(m', script[..n]);
    ChosenKeeps(m1);
    TickSound(m1.s, 0);
    TickSleep(m1.s, p);
  }
}

/** The schedule of the ready queues: proportional shares and bounded waiting. */
module Fairness {
  import opened Processes
  import opened KernelSteps
  import opened KernelCalls
  import opened Schedule
  import opened QueueOrder

  /** How many quanta of a round a queue has. */
  function Share(q: nat): nat
  {
    if q == 0 then 9 else if q == 1 then 6 else 4
  }

  /** How many of the `n` quanta from `start` on the table gives to queue `q`. */
  function Hits(q: nat, start: nat, n: nat): nat
    decreases n
  {
    if n == 0 then 0 else (if Slot(start) == q then 1 else 0) + Hits(q, start + 1, n - 1)
  }

  lemma {:induction false} HitsSplit(q: nat, start: nat, m: nat, n: nat)
    ensures Hits(q, start, m + n) == Hits(q, start, m) + Hits(q, start + m, n)
    decreases m
  {
    hide Slot;
    if m > 0 {
      HitsSplit(q, start + 1, m - 1, n);
      assert start + 1 + (m - 1) == start + m && m - 1 + n == m + n - 1;
    }
  }

  lemma HitsFrom(q: nat, k: nat)
    requires k < 19
    ensures Hits(q, k, 19 - k) == (if TABLE[k] == q then 1 else 0) + Hits(q, k + 1, 18 - k)
  {
    assert k % 19 == k;
  }

  lemma HitsNone(q: nat, start: nat)
    ensures Hits(q, start, 0) == 0
  {
  }

  lemma FirstRound(q: nat)
    requires q < 3
    ensures Hits(q, 0, 19) == Share(q)
  {
    hide Hits, Slot;
    HitsNone(q, 19);
    HitsFrom(q, 18); HitsFrom(q, 17); HitsFrom(q, 16); HitsFrom(q, 15); HitsFrom(q, 14);
    HitsFrom(q, 13); HitsFrom(q, 12); HitsFrom(q, 11); HitsFrom(q, 10); HitsFrom(q, 9);
    HitsFrom(q, 8); HitsFrom(q, 7); HitsFrom(q, 6); HitsFrom(q, 5); HitsFrom(q, 4);
    HitsFrom(q, 3); HitsFrom(q, 2); HitsFrom(q, 1); HitsFrom(q, 0);
  }

  lemma HitsOne(q: nat, start: nat)
    ensures Hits(q, start, 1) == if Slot(start) == q then 1 else 0
  {
  }

  lemma SlotRepeats(quantum: nat)
    ensures Slot(quantum + 19) == Slot(quantum)
  {
    assert (quantum + 19) % 19 == quantum % 19;
  }

  /** A round may start anywhere in the table. */
  lemma {:induction false} RoundShare(q: nat, start: nat)
    requires q < 3
    ensures Hits(q, start, 19) == Share(q)
  {
    hide Hits, Slot;
    if start == 0 {
      FirstRound(q);
    } else {
      RoundShare(q, start - 1);
      HitsSplit(q, start - 1, 1, 18);
      HitsSplit(q, start, 18, 1);
      HitsOne(q, start - 1);
      HitsOne(q, start + 18);
      SlotRepeats(start - 1);
    }
  }

  /** Over any number of rounds each queue has exactly its share of the quanta. */
  lemma {:induction false} RoundsShare(q: nat, start: nat, k: nat)
    requires q < 3
    ensures Hits(q, start, 19 * k) == Share(q) * k
    decreases k
  {
    if k > 0 {
      RoundShare(q, start);
      RoundsShare(q, start + 19, k - 1);
      HitsSplit(q, start, 19, 19 * (k - 1));
    }
  }

  // ---- shares ----

  /** In how many turns of a run a process of queue `q` runs. */
  ghost function Served(m: Machine, script: seq<seq<Call>>, q: nat): nat
    requires Sound(m.s)
  {
    if script == [] then 0
    else
      var n := |script| - 1;
      Served(m, script[..n], q) + if Chosen(RunOf(m, script[..n])).1 == q then 1 else 0
  }

  /** No ready queue is empty when the scheduler chooses. */
  ghost predicate AllReady(m: Machine)
    requires Sound(m.s)
  {
    forall q :: 0 <= q < 3 ==> Ticked(m.s, 0).queues[q] != []
  }

  lemma ChosenBySlot(m: Machine, calls: seq<Call>)
    requires Sound(m.s) && AllReady(m)
    ensures Chosen(m).1 == Slot(m.quantum) && Turn(m, calls).quantum == m.quantum + 1
  {
    hide Slot, Ticked, Sound, Performed;
  }

  lemma {:induction false} ServedBySlots(m: Machine, script: seq<seq<Call>>, q: nat)
    requires Sound(m.s) && forall k :: 0 <= k < |script| ==> AllReady(RunOf(m, script[..k]))
    ensures Served(m, script, q) == Hits(q, m.quantum, |script|) && RunOf(m, script).quantum == m.quantum + |script|
    decreases |script|
  {
    hide Sound, Slot, Turn, Hits, AllReady, Chosen;
    if script == [] {
      HitsNone(q, m.quantum);
    } else {
      var n := |script| - 1;
      var before := script[..n];
      assert forall k :: 0 <= k <= n ==> before[..k] == script[..k];
      ServedBySlots(m, before, q);
      ChosenBySlot(RunOf(m, before), script[n]);
      HitsSplit(q, m.quantum, n, 1);
      HitsOne(q, m.quantum + n);
    }
  }

  /** In every run, while no ready queue is empty, 19k turns are shared exactly 9k : 6k : 4k. */
  lemma ProportionalShare(m: Machine, script: seq<seq<Call>>, q: nat, k: nat)
    requires Sound(m.s) && q < 3 && |script| == 19 * k
    requires forall j :: 0 <= j < |script| ==> AllReady(RunOf(m, script[..j]))
    ensures Served(m, script, q) == Share(q) * k
  {
    ServedBySlots(m, script, q);
    RoundsShare(q, m.quantum, k);
  }

  // ---- what a turn does to a process that waits for its turn ----

  /** A call leaves `x` where it is, and the caller neither blocks nor renices itself. */
  predicate IsCalmCall(s: State, s': State, p: Pid, x: Pid)
  {
    && IsKept(s.pcbs, s'.pcbs, x)
    && (IsKept(s.pcbs, s'.pcbs, p) || (p in s'.pcbs && HasAnswer(s'.pcbs[p])))
  }

  /** All the calls of a turn are of this kind. */
  ghost predicate AreCalm(s: State, p: Pid, calls: seq<Call>, x: Pid)
    requires Sound(s) && p in s.pcbs
    decreases |calls|
  {
    if calls == [] then true
    else if IsCallable(s, p, calls[0]) then
      CalledSound(s, p, calls[0]);
      var s' := Called(s, p, calls[0]);
      IsCalmCall(s, s', p, x) && AreCalm(s', p, calls[1..], x)
    else AreCalm(s, p, calls[1..], x)
  }

  /** Only by its own exit or stop does a caller terminate or stop. */
  lemma LeavesByItself(s: State, p: Pid, c: Call)
    requires Sound(s) && IsCallable(s, p, c) && p in Called(s, p, c).pcbs && HasAnswer(Called(s, p, c).pcbs[p])
    ensures c == Exit(p) || c == Stop(p)
  {
    hide Sound, Exited, StoppedState, Created, Waited, Moved;
    match c
    case Create(priority) => CreateSound(s, p, priority);
    case Wait(pid, nohang) =>
      WaitOutcome(s, p, pid, nohang);
      var s1 := WithWaited(s, p, pid);
      MovedKeys(s1, p, s1.pcbs[p].(status := Blocked));
    case Exit(pid) => ExitTableOf(s, pid);
    case Stop(pid) =>
      if !HasAnswer(s.pcbs[pid]) {
        StopTableOf(s, pid);
      }
    case Continue(pid) => MovedKeys(s, pid, Woken(s.pcbs[pid]));
    case Renice(pid, priority) => MovedKeys(s, pid, s.pcbs[pid].(priority := priority));
    case Sleep(ticks) => MovedKeys(s, p, s.pcbs[p].(status := Blocked, sleep := 10 * ticks));
    case ResumeSleep => MovedKeys(s, p, s.pcbs[p].(status := Blocked));
  }

  lemma CallerLeaves(s: State, p: Pid, c: Call, x: Pid)
    requires Sound(s) && IsCallable(s, p, c) && x != p && IsKept(s.pcbs, Called(s, p, c).pcbs, x)
    requires p in Called(s, p, c).pcbs && HasAnswer(Called(s, p, c).pcbs[p])
    ensures IsNotBehind(s, Called(s, p, c), x)
    ensures var k := Place(s.pcbs[x]); s.queues[k][0] == p ==> Pos(Called(s, p, c).queues[k], x) < Pos(s.queues[k], x)
  {
    hide Sound, Exited, StoppedState, Created, Waited, Pos;
    LeavesByItself(s, p, c);
    if c.Exit? {
      ExitNotBehind(s, p, x);
    } else {
      StopNotBehind(s, p, x);
    }
  }

  lemma {:induction false} NoMoreCalls(s: State, p: Pid, calls: seq<Call>)
    requires Sound(s) && p in s.pcbs && s.pcbs[p].status != Running
    ensures Performed(s, p, calls) == s
  {
    if calls != [] {
      NoMoreCalls(s, p, calls[1..]);
    }
  }

  /** After calm calls `x` is not farther back, and the caller is still the head of its queue or has left it. */
  lemma {:induction false} PerformedOrder(s: State, p: Pid, calls: seq<Call>, x: Pid, t: nat)
    requires Sound(s) && IsCalling(s, p) && t == s.pcbs[p].priority < 3 && s.queues[t] != [] && s.queues[t][0] == p
    requires x != p && x in s.pcbs && AreCalm(s, p, calls, x)
    ensures IsNotBehind(s, Performed(s, p, calls), x)
    ensures var s' := Performed(s, p, calls);
            if HasAnswer(s'.pcbs[p]) then Place(s.pcbs[x]) == t ==> Pos(s'.queues[t], x) < Pos(s.queues[t], x)
            else s'.queues[t] != [] && s'.queues[t][0] == p
    decreases |calls|
  {
    hide Sound, Called, Pos, IsCallable;
    if calls == [] {
      SameNotBehind(s, s, x);
    } else if IsCallable(s, p, calls[0]) {
      CalledSound(s, p, calls[0]);
      var s1 := Called(s, p, calls[0]);
      CallNotBehind(s, p, calls[0], x);
      if IsKept(s.pcbs, s1.pcbs, p) {
        CallNotBehind(s, p, calls[0], p);
        HeadStays(s.queues[t], s1.queues[t], p);
        PerformedOrder(s1, p, calls[1..], x, t);
      } else {
        NoMoreCalls(s1, p, calls[1..]);
        CallerLeaves(s, p, calls[0], x);
      }
    } else {
      PerformedOrder(s, p, calls[1..], x, t);
    }
  }

  lemma HeadStays(q: seq<Pid>, q': seq<Pid>, p: Pid)
    requires q != [] && q[0] == p && p in q' && Pos(q', p) <= Pos(q, p)
    ensures q'[0] == p
  {
  }

  /** A timer pass leaves a ready process where it is. */
  lemma {:induction false} TickNotBehind(s: State, i: nat, x: Pid)
    requires Sound(s) && x in s.pcbs && s.pcbs[x].status == Running
    ensures IsNotBehind(s, Ticked(s, i), x)
    decreases |s.queues[BLOCKED]| - i
  {
    hide TreeOk, IsQueue, Moved, Pos;
    QueueHolds(s, BLOCKED);
    InItsQueue(s, x);
    var q := s.queues[BLOCKED];
    if i < |q| {
      var y := s.pcbs[q[i]];
      if y.sleep == 0 {
        TickNotBehind(s, i + 1, x);
      } else if y.sleep > 1 {
        StaySound(s, q[i], y.(sleep := y.sleep - 1));
        TickNotBehind(s.(pcbs := s.pcbs[q[i] := y.(sleep := y.sleep - 1)]), i + 1, x);
      } else {
        MoveNotBehind(s, q[i], Woken(y.(sleep := 0)), x);
      }
    }
  }

  lemma ChosenOrder(m: Machine, x: Pid, q: nat)
    requires Sound(m.s) && q < 3 && x in m.s.queues[q] && x != INIT
    ensures var (m', t) := Chosen(m);
            && t != -1 && (Slot(m.quantum) == q ==> t == q)
            && x in m'.s.pcbs && Place(m'.s.pcbs[x]) == q && x in m'.s.queues[q]
            && Pos(m'.s.queues[q], x) <= Pos(m.s.queues[q], x)
  {
    hide TreeOk, Slot, Pos, Ticked, IsQueue;
    QueueHolds(m.s, q);
    TickSound(m.s, 0);
    TickNotBehind(m.s, 0, x);
    var s := Ticked(m.s, 0);
    var t := Select(s.queues[..3], m.quantum);
    if t == q && s.queues[t][0] == INIT {
      PosRotated(s.queues[q], x);
    }
  }

  /** A turn never moves a waiting process back, and moves it forward when its queue is served. */
  lemma TurnAdvances(m: Machine, calls: seq<Call>, x: Pid, q: nat)
    requires Sound(m.s) && q < 3 && x in m.s.queues[q] && x != INIT && !RunsAt(m, x) && IsCalmTurn(m, calls, x)
    ensures var m' := Turn(m, calls);
            && m'.quantum == m.quantum + 1 && x in m'.s.queues[q]
            && Pos(m'.s.queues[q], x) + (if Slot(m.quantum) == q then 1 else 0) <= Pos(m.s.queues[q], x)
  {
    hide Sound, Slot, Pos, Chosen, Performed;
    ChosenOrder(m, x, q);
    var (m1, t) := Chosen(m);
    PerformedOrder(m1.s, m1.current, calls, x, t);
    var s := Performed(m1.s, m1.current, calls);
    if t == q && !HasAnswer(s.pcbs[m1.current]) {
      PosRotated(s.queues[q], x);
    }
  }

  // ---- runs ----

  /** `x` is the process that the next turn runs. */
  ghost predicate RunsAt(m: Machine, x: Pid)
    requires Sound(m.s)
  {
    Chosen(m).1 != -1 && Chosen(m).0.current == x
  }

  ghost predicate IsCalmTurn(m: Machine, calls: seq<Call>, x: Pid)
    requires Sound(m.s)
  {
    var (m', t) := Chosen(m);
    t != -1 ==> AreCalm(m'.s, m'.current, calls, x)
  }

  /**
   In each of these turns, unless `x` has run before, the calls leave `x` where it is and no caller
   blocks or renices itself.
   */
  ghost predicate IsCalmUntil(m: Machine, script: seq<seq<Call>>, x: Pid)
    requires Sound(m.s)
  {
    forall k :: 0 <= k < |script| && !RunsWithin(m, script[..k], x) && !RunsAt(RunOf(m, script[..k]), x) ==>
      IsCalmTurn(RunOf(m, script[..k]), script[k], x)
  }

  /** `x` runs in one of these turns. */
  ghost predicate RunsWithin(m: Machine, script: seq<seq<Call>>, x: Pid)
    requires Sound(m.s)
  {
    exists k :: 0 <= k < |script| && RunsAt(RunOf(m, script[..k]), x)
  }

  lemma {:induction false} StillWaiting(m: Machine, script: seq<seq<Call>>, x: Pid, q: nat)
    requires Sound(m.s) && q < 3 && x in m.s.queues[q] && x != INIT
    requires IsCalmUntil(m, script, x) && !RunsWithin(m, script, x)
    ensures var m' := RunOf(m, script);
            && m'.quantum == m.quantum + |script| && x in m'.s.queues[q]
            && Pos(m'.s.queues[q], x) + Hits(q, m.quantum, |script|) <= Pos(m.s.queues[q], x)
    decreases |script|
  {
    hide Sound, Slot, Pos, Turn, Hits, RunsAt, IsCalmTurn;
    if script == [] {
      HitsNone(q, m.quantum);
    } else {
      var n := |script| - 1;
      var before := script[..n];
      assert forall k :: 0 <= k <= n ==> before[..k] == script[..k];
      StillWaiting(m, before, x, q);
      TurnAdvances(RunOf(m, before), script[n], x, q);
      HitsSplit(q, m.quantum, n, 1);
      HitsOne(q, m.quantum + n);
    }
  }

  /** The rounds of the table after which a process at position `i` of queue `q` has run. */
  function Rounds(i: nat, q: nat): nat
  {
    i / Share(q) + 1
  }

  lemma EnoughRounds(i: nat, q: nat)
    ensures Share(q) * Rounds(i, q) > i
  {
  }

  /**
   In every run of the kernel, a process at position `i` of ready queue `q` runs within
   `19 * (i / c + 1)` turns, where `c` is the share of the queue, as long as no process that
   runs blocks or renices itself and nobody takes the waiting process out of its queue.
   */
  lemma BoundedWaiting(m: Machine, script: seq<seq<Call>>, x: Pid, q: nat)
    requires Sound(m.s) && q < 3 && x in m.s.queues[q] && x != INIT && IsCalmUntil(m, script, x)
    requires |script| == 19 * Rounds(Pos(m.s.queues[q], x), q)
    ensures RunsWithin(m, script, x)
  {
    hide Hits, Pos, IsCalmUntil, RunsWithin, Rounds, Share, TreeOk, IsQueue;
    var rounds := Rounds(Pos(m.s.queues[q], x), q);
    EnoughRounds(Pos(m.s.queues[q], x), q);
    RoundsShare(q, m.quantum, rounds);
    if !RunsWithin(m, script, x) {
      StillWaiting(m, script, x, q);
    }
  }
}

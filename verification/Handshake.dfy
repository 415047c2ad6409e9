/**
 The handshake by which the scheduler lets one process thread run and stops it again. The
 scheduler and the process threads take steps in any order; a request is a signal that the
 handler of the thread answers by setting a flag.
 */
module Handshake {
  type Tid = nat

  datatype Kind = Suspend | Continue

  /** The `state` that a thread shows to others. */
  datatype Meta = Running | Suspended | Terminated

  /**
   A thread that is not in its routine is in one or more nested waiting loops: it enters the
   wait, waits, or has returned from the wait and tests the state.
   */
  datatype Frame = Entering | Waiting | Testing

  datatype Life = Starting | Alive | Exiting | Gone

  /**
   `loops` are the waiting loops, the innermost one last; `request` is a signal not handled yet. The
   outermost loop may be the thread's `own`, at its start or in `spthread_suspend_self`; all others are
   in the signal handler.
   */
  datatype Thread = Thread(life: Life, meta: Meta, loops: seq<Frame>, own: bool, request: set<Kind>)

  /** What the scheduler does: it has no thread, waits for an answer, or lets the thread run. */
  datatype Phase = Idle | Continuing(tid: Tid) | Open(tid: Tid) | Suspending(tid: Tid)

  datatype System = System(threads: map<Tid, Thread>, phase: Phase, acked: bool)

  /** The thread executes its routine. */
  predicate IsExecuting(t: Thread)
  {
    t.life == Alive && t.loops == []
  }

  // ---- steps of the scheduler ----

  datatype Step =
    // scheduler
    | SendContinue(tid: Tid)
    | EndContinue
    | SendSuspend
    | EndSuspend
    // a process thread
    | Start(tid: Tid)
    | SuspendSelf(tid: Tid)
    | EnterWait(tid: Tid)
    | Handle(tid: Tid, kind: Kind)
    | Test(tid: Tid)
    | BeginExit(tid: Tid)
    | Terminate(tid: Tid)
    | Spawn(tid: Tid, child: Tid)

  function Top(loops: seq<Frame>): Frame
    requires loops != []
  {
    loops[|loops| - 1]
  }

  /** A signal ends the innermost wait. */
  function Interrupted(loops: seq<Frame>): seq<Frame>
  {
    if loops != [] && Top(loops) == Waiting then loops[..|loops| - 1] + [Testing] else loops
  }

  /** The handler can run: in the handler itself the signal is blocked, but for the wait. */
  predicate IsListening(x: Thread)
  {
    x.loops == [] || Top(x.loops) == Waiting || (x.own && |x.loops| == 1)
  }

  /** When a step is possible. */
  predicate IsEnabled(s: System, a: Step)
  {
    match a
    case SendContinue(p) => s.phase == Idle && p in s.threads && s.threads[p].life != Starting
    case EndContinue => s.phase.Continuing? && s.phase.tid in s.threads &&
      (s.acked || s.threads[s.phase.tid].meta == Terminated)
    case SendSuspend => s.phase.Open? && s.phase.tid in s.threads
    case EndSuspend => s.phase.Suspending? && s.phase.tid in s.threads &&
      (s.acked || s.threads[s.phase.tid].meta == Terminated)
    case Start(t) => t in s.threads && s.threads[t].life == Starting
    case SuspendSelf(t) => t in s.threads && IsExecuting(s.threads[t])
    case EnterWait(t) => t in s.threads && s.threads[t].life == Alive && s.threads[t].loops != [] &&
      Top(s.threads[t].loops) == Entering
    case Handle(t, kind) => t in s.threads && s.threads[t].life == Alive && kind in s.threads[t].request &&
      IsListening(s.threads[t])
    case Test(t) => t in s.threads && s.threads[t].life == Alive && s.threads[t].loops != [] &&
      Top(s.threads[t].loops) == Testing
    case BeginExit(t) => t in s.threads && IsExecuting(s.threads[t])
    case Terminate(t) => t in s.threads && s.threads[t].life == Exiting
    case Spawn(t, child) => t in s.threads && IsExecuting(s.threads[t]) && child !in s.threads
  }

  function WithThread(s: System, t: Tid, x: Thread): System
  {
    s.(threads := s.threads[t := x])
  }

  /** What a thread does in one of its own steps. */
  function Moved(x: Thread, a: Step): Thread
  {
    match a
    case Start(_) => x.(life := Alive, meta := Suspended, loops := [Entering], own := true)
    case SuspendSelf(_) => x.(meta := Suspended, loops := [Entering], own := true)
    case EnterWait(_) => if x.loops == [] then x else x.(loops := x.loops[..|x.loops| - 1] + [Waiting])
    case Handle(_, Suspend) =>
      x.(meta := Suspended, loops := x.loops + [Entering], own := x.own &&
         x.loops != [], request := x.request - {Suspend})
    case Handle(_, Continue) => x.(meta := Running, loops := Interrupted(x.loops), request := x.request - {Continue})
    case Test(_) =>
      if x.loops == [] then x
      else if x.meta == Suspended then x.(loops := x.loops[..|x.loops| - 1] + [Entering])
      else x.(loops := Interrupted(x.loops[..|x.loops| - 1]))
    case BeginExit(_) => x.(life := Exiting)
    case Terminate(_) => x.(life := Gone, meta := Terminated)
    case _ => x
  }

  function Next(s: System, a: Step): System
    requires IsEnabled(s, a)
  {
    match a
    case SendContinue(p) =>
      var x := s.threads[p].(request := s.threads[p].request + {Continue});
      WithThread(s, p, x).(phase := Continuing(p), acked := false)
    case EndContinue => s.(phase := Open(s.phase.tid))
    case SendSuspend =>
      var p := s.phase.tid;
      var x := s.threads[p].(request := s.threads[p].request + {Suspend});
      WithThread(s, p, x).(phase := Suspending(p), acked := false)
    case EndSuspend => s.(phase := Idle)
    case Handle(t, _) => WithThread(s, t, Moved(s.threads[t], a)).(acked := true)
    case Spawn(_, child) => WithThread(s, child, Thread(Starting, Suspended, [], false, {}))
    case _ => WithThread(s, a.tid, Moved(s.threads[a.tid], a))
  }

  // ---- what every step keeps ----

  /** A thread outside its window: not started, gone, or held in a waiting loop with nothing to wake it. */
  predicate IsHeld(x: Thread)
  {
    || (x.life == Starting && x.request == {})
    || x.life == Gone
    || (x.life == Alive && x.meta == Suspended && x.loops != [] && x.request == {})
  }

  /** The thread that the scheduler deals with. */
  predicate IsServed(phase: Phase, acked: bool, x: Thread)
  {
    match phase
    case Idle => IsHeld(x)
    case Continuing(_) =>
      || x.life == Gone
      || (if acked then x.request == {} && x.life != Starting
          else x.life == Alive && x.meta == Suspended && x.loops != [] && x.request == {Continue})
    case Open(_) => x.life == Gone || (x.life != Starting && x.request == {})
    case Suspending(_) => if acked then IsHeld(x) && x.life != Starting
      else x.life == Gone || (x.life != Starting && x.request == {Suspend})
  }

  predicate IsTarget(phase: Phase, t: Tid)
  {
    !phase.Idle? && phase.tid == t
  }

  /** Only a thread at work waits; a loop that another one has interrupted waits, and one that tests will end. */
  predicate LoopsOk(x: Thread)
  {
    && (x.life != Alive ==> x.loops == [])
    && (forall i :: 0 <= i < |x.loops| - 1 ==> x.loops[i] == Waiting || (i == 0 && x.own))
    && (x.loops != [] && Top(x.loops) == Testing ==> x.meta == Running)
  }

  ghost predicate Inv(s: System)
  {
    && (forall t :: t in s.threads ==> LoopsOk(s.threads[t]))
    && (!s.phase.Idle? ==> s.phase.tid in s.threads)
    && (forall t :: t in s.threads ==> (s.threads[t].meta == Terminated <==> s.threads[t].life == Gone))
    && (forall t :: t in s.threads ==>
        if IsTarget(s.phase, t) then IsServed(s.phase, s.acked, s.threads[t]) else IsHeld(s.threads[t]))
  }

  /** A held thread stays held, whatever it does. */
  lemma HeldStays(s: System, a: Step, t: Tid)
    requires IsEnabled(s, a) && t in s.threads && IsHeld(s.threads[t]) && !IsTarget(s.phase, t) && a != SendContinue(t)
    requires s.threads[t].meta == Terminated <==> s.threads[t].life == Gone
    ensures t in Next(s, a).threads && IsHeld(Next(s, a).threads[t])
    ensures Next(s, a).threads[t].meta == Terminated <==> Next(s, a).threads[t].life == Gone
  {
  }

  lemma LoopsStayOk(s: System, a: Step, t: Tid)
    requires IsEnabled(s, a) && t in Next(s, a).threads && (t in s.threads ==> LoopsOk(s.threads[t]))
    ensures LoopsOk(Next(s, a).threads[t])
  {
    hide Moved;
    if t in s.threads && IsThreadStep(a) && a.tid == t {
      MovedLoopsOk(s, a);
    } else if t in s.threads {
      Unmoved(s, a, t);
    }
  }

  /** A step of a thread on itself. */
  predicate IsThreadStep(a: Step)
  {
    a.Start? || a.SuspendSelf? || a.EnterWait? || a.Handle? || a.Test? || a.BeginExit? || a.Terminate?
  }

  lemma MovedLoopsOk(s: System, a: Step)
    requires IsThreadStep(a) && IsEnabled(s, a) && LoopsOk(s.threads[a.tid])
    ensures LoopsOk(Moved(s.threads[a.tid], a))
  {
  }

  /** The steps of others change nothing but the requests to a thread. */
  lemma Unmoved(s: System, a: Step, t: Tid)
    requires IsEnabled(s, a) && t in s.threads && !(IsThreadStep(a) && a.tid == t)
    ensures t in Next(s, a).threads
    ensures var x, y := s.threads[t], Next(s, a).threads[t]; y == x.(request := y.request)
    ensures Continue in Next(s, a).threads[t].request ==> Continue in s.threads[t].request || a == SendContinue(t)
  {
    hide Moved;
  }

  lemma IsMoved(s: System, a: Step)
    requires IsThreadStep(a) && IsEnabled(s, a)
    ensures a.tid in s.threads && a.tid in Next(s, a).threads
    ensures Next(s, a).threads[a.tid] == Moved(s.threads[a.tid], a)
  {
  }

  /** The thread that the scheduler deals with, or begins to deal with, is as its phase says. */
  lemma ServedStays(s: System, a: Step, t: Tid)
    requires IsEnabled(s, a) && t in s.threads && (IsTarget(s.phase, t) || a == SendContinue(t))
    requires a.Handle? ==> a.tid == t
    requires if IsTarget(s.phase, t) then IsServed(s.phase, s.acked, s.threads[t]) else IsHeld(s.threads[t])
    requires s.threads[t].meta == Terminated <==> s.threads[t].life == Gone
    ensures var s' := Next(s, a);
            && t in s'.threads && (s'.threads[t].meta == Terminated <==> s'.threads[t].life == Gone)
            && if IsTarget(s'.phase, t) then IsServed(s'.phase, s'.acked, s'.threads[t]) else IsHeld(s'.threads[t])
  {
    if IsThreadStep(a) {
      IsMoved(s, a);
    }
  }

  lemma OtherPhase(s: System, a: Step, t: Tid)
    requires IsEnabled(s, a) && !IsTarget(s.phase, t) && a != SendContinue(t)
    ensures !IsTarget(Next(s, a).phase, t)
  {
  }

  lemma StepKeepsInv(s: System, a: Step)
    requires Inv(s) && IsEnabled(s, a)
    ensures Inv(Next(s, a))
  {
    hide LoopsOk, IsServed, IsHeld, Next;
    var s' := Next(s, a);
    PhaseInThreads(s, a);
    forall t | t in s'.threads
      ensures LoopsOk(s'.threads[t]) && (s'.threads[t].meta == Terminated <==> s'.threads[t].life == Gone)
      ensures if IsTarget(s'.phase, t) then IsServed(s'.phase, s'.acked, s'.threads[t]) else IsHeld(s'.threads[t])
    {
      LoopsStayOk(s, a, t);
      if t !in s.threads {
        Spawned(s, a, t);
      } else if IsTarget(s.phase, t) || a == SendContinue(t) {
        OnlyTargetHandles(s, a);
        ServedStays(s, a, t);
      } else {
        HeldStays(s, a, t);
        OtherPhase(s, a, t);
      }
    }
  }

  /** Only the thread that the scheduler deals with has a signal to answer. */
  lemma OnlyTargetHandles(s: System, a: Step)
    requires Inv(s) && IsEnabled(s, a)
    ensures a.Handle? ==> IsTarget(s.phase, a.tid)
  {
  }

  lemma PhaseInThreads(s: System, a: Step)
    requires IsEnabled(s, a) && (!s.phase.Idle? ==> s.phase.tid in s.threads)
    ensures var s' := Next(s, a); !s'.phase.Idle? ==> s'.phase.tid in s'.threads
  {
  }

  lemma Spawned(s: System, a: Step, t: Tid)
    requires IsEnabled(s, a) && t in Next(s, a).threads && t !in s.threads
    requires !s.phase.Idle? ==> s.phase.tid in s.threads
    ensures var s' := Next(s, a);
            IsHeld(s'.threads[t]) && s'.threads[t].meta == Suspended && s'.threads[t].life == Starting
    ensures !IsTarget(Next(s, a).phase, t)
  {
  }

  // ---- whole runs ----

  /** Threads that have been created, and a scheduler that has not begun. */
  ghost predicate IsInitial(s: System)
  {
    s.phase == Idle && forall t :: t in s.threads ==> s.threads[t] == Thread(Starting, Suspended, [], false, {})
  }

  /** The state after the steps of a run. */
  ghost function After(s: System, run: seq<Step>): System
    requires IsRun(s, run)
    decreases |run|, 1
  {
    if run == [] then s else Next(After(s, run[..|run| - 1]), run[|run| - 1])
  }

  ghost predicate IsRun(s: System, run: seq<Step>)
    decreases |run|, 0
  {
    run == [] || (IsRun(s, run[..|run| - 1]) && IsEnabled(After(s, run[..|run| - 1]), run[|run| - 1]))
  }

  lemma {:induction false} RunKeepsInv(s: System, run: seq<Step>)
    requires IsInitial(s) && IsRun(s, run)
    ensures Inv(After(s, run))
    decreases |run|
  {
    if run != [] {
      var n := |run| - 1;
      RunKeepsInv(s, run[..n]);
      StepKeepsInv(After(s, run[..n]), run[n]);
    }
  }

  /**
   In every interleaving, a thread executes its routine only between the scheduler's request
   to continue it and the end of the request to suspend it; so no two threads execute at once.
   */
  lemma MutualExclusion(s: System, run: seq<Step>, t: Tid, u: Tid)
    requires IsInitial(s) && IsRun(s, run)
    ensures var s' := After(s, run);
            && (t in s'.threads && IsExecuting(s'.threads[t]) ==> IsTarget(s'.phase, t))
            && (t in s'.threads && u in s'.threads && IsExecuting(s'.threads[t]) && IsExecuting(s'.threads[u]) ==>
                t == u)
  {
    RunKeepsInv(s, run);
  }

  /**
   When a request to suspend ends, its thread is held in the handler or has terminated; nothing else
   has been let loose.
   */
  lemma SuspendIsAnswered(s: System, run: seq<Step>)
    requires IsInitial(s) && run != [] && run[|run| - 1] == EndSuspend && IsRun(s, run)
    ensures var before, after := After(s, run[..|run| - 1]), After(s, run);
            && before.phase.Suspending? && before.phase.tid in after.threads && after.phase == Idle
            && (forall t :: t in after.threads ==> !IsExecuting(after.threads[t]))
            && var x := after.threads[before.phase.tid];
               x.life == Gone || (before.acked && x.life == Alive && x.meta == Suspended && x.loops != [] &&
                                  x.request == {})
  {
    RunKeepsInv(s, run[..|run| - 1]);
    RunKeepsInv(s, run);
  }

  // ---- whether a thread runs in its window ----

  /** The thread has begun a wait of its own, and not entered it yet. */
  predicate IsBeforeWait(x: Thread)
  {
    x.loops != [] && x.own && x.loops[0] == Entering
  }

  /** It will execute its routine once it has left its loops. */
  predicate IsOnItsWay(x: Thread)
  {
    x.life == Alive && x.meta == Running && (x.loops == [] || Top(x.loops) == Testing) && !IsBeforeWait(x)
  }

  /** It has been continued too early, and enters a wait that nothing ends. */
  predicate IsLost(x: Thread)
  {
    && x.life == Alive && x.meta == Running && x.loops != [] && x.own
    && (x.loops == [Waiting] || (x.loops[0] == Entering && (|x.loops| == 1 || Top(x.loops) == Testing)))
  }

  /** A step of the thread itself, other than answering a signal. */
  predicate IsOwnStep(a: Step, t: Tid)
  {
    a == Test(t) || a == EnterWait(t) || a == SuspendSelf(t) || a == BeginExit(t) || a == Terminate(t) ||
    (a.Spawn? && a.tid == t) || a == Start(t)
  }

  /** A thread begins a wait of its own when it starts and when it suspends itself; the signal can come right then. */
  lemma OwnWaitBegins(s: System, a: Step)
    requires IsEnabled(s, a) && (a.Start? || a.SuspendSelf?)
    ensures a.tid in Next(s, a).threads
    ensures var x := Next(s, a).threads[a.tid];
            && x.life == Alive && x.meta == Suspended && x.loops == [Entering]
            && IsBeforeWait(x) && IsListening(x) && x.request == s.threads[a.tid].request
  {
  }

  /**
   A thread that is suspended by the signal waits in the handler, where the next signal stays
   pending until it waits.
   */
  lemma HandlerWaitBegins(s: System, t: Tid)
    requires IsEnabled(s, Handle(t, Suspend)) && s.threads[t].loops == []
    ensures t in Next(s, Handle(t, Suspend)).threads && Next(s, Handle(t, Suspend)).acked
    ensures var x := Next(s, Handle(t, Suspend)).threads[t];
            && x.meta == Suspended && x.loops == [Entering] && !IsBeforeWait(x) && !IsListening(x)
            && IsListening(Moved(x, EnterWait(t)))
  {
  }

  /** The answer to a request to continue. */
  lemma ContinuedIs(s: System, t: Tid)
    requires Inv(s) && IsEnabled(s, Handle(t, Continue))
    ensures var x, y := s.threads[t], Next(s, Handle(t, Continue)).threads[t];
            && |y.loops| == |x.loops| && if IsBeforeWait(x) then IsLost(y) else IsOnItsWay(y)
  {
    var x := s.threads[t];
    assert LoopsOk(x) && x.meta == Suspended;
  }

  /** A thread that runs has no request to continue pending, and gets none. */
  lemma NoContinue(s: System, t: Tid)
    requires Inv(s) && t in s.threads && s.threads[t].life == Alive && s.threads[t].meta == Running
    ensures Continue !in s.threads[t].request && !IsEnabled(s, SendContinue(t)) && !s.phase.Idle?
  {
  }

  lemma LostMoves(s: System, a: Step)
    requires IsThreadStep(a) && IsEnabled(s, a) && LoopsOk(s.threads[a.tid]) && IsLost(s.threads[a.tid])
    requires !a.Handle?
    ensures IsLost(Moved(s.threads[a.tid], a)) && s.threads[a.tid].loops != [Waiting]
  {
    var x := s.threads[a.tid];
    if a.Test? && |x.loops| > 2 {
      assert x.loops[|x.loops| - 2] == Waiting;
    }
  }

  lemma WayMoves(s: System, a: Step)
    requires IsThreadStep(a) && IsEnabled(s, a) && LoopsOk(s.threads[a.tid]) && IsOnItsWay(s.threads[a.tid])
    requires !a.Handle? && s.threads[a.tid].loops != []
    ensures a.Test? && IsOnItsWay(Moved(s.threads[a.tid], a))
    ensures |Moved(s.threads[a.tid], a).loops| == |s.threads[a.tid].loops| - 1
  {
  }

  /** A lost thread stays lost until it is suspended, and has no step of its own once it waits. */
  lemma LostStays(s: System, a: Step, t: Tid)
    requires Inv(s) && IsEnabled(s, a) && t in s.threads && IsLost(s.threads[t]) && a != Handle(t, Suspend)
    ensures IsLost(Next(s, a).threads[t])
    ensures s.threads[t].loops == [Waiting] ==> !IsOwnStep(a, t)
  {
    assert LoopsOk(s.threads[t]);
    hide Next, Inv;
    NoContinue(s, t);
    hide Moved, LoopsOk;
    if IsThreadStep(a) && a.tid == t {
      IsMoved(s, a);
      LostMoves(s, a);
    } else {
      Unmoved(s, a, t);
    }
  }

  /** A thread on its way leaves one loop with every step that it takes. */
  lemma WayGoesOn(s: System, a: Step, t: Tid)
    requires Inv(s) && IsEnabled(s, a) && t in s.threads && IsOnItsWay(s.threads[t]) && s.threads[t].loops != []
    requires a != Handle(t, Suspend)
    ensures IsOnItsWay(Next(s, a).threads[t]) && IsEnabled(s, Test(t))
    ensures |Next(s, a).threads[t].loops| == |s.threads[t].loops| - if IsOwnStep(a, t) then 1 else 0
  {
    assert LoopsOk(s.threads[t]);
    hide Next, Inv;
    NoContinue(s, t);
    hide Moved, LoopsOk;
    if IsThreadStep(a) && a.tid == t {
      IsMoved(s, a);
      WayMoves(s, a);
    } else {
      Unmoved(s, a, t);
    }
  }

  // ---- the same for runs ----

  lemma {:induction false} PrefixRun(s: System, run: seq<Step>, k: nat)
    requires IsRun(s, run) && k <= |run|
    ensures IsRun(s, run[..k])
    ensures k < |run| ==> IsEnabled(After(s, run[..k]), run[k]) && IsRun(s, run[..k + 1])
    ensures k < |run| ==> After(s, run[..k + 1]) == Next(After(s, run[..k]), run[k])
    decreases |run|
  {
    if k == |run| {
      assert run[..k] == run;
    } else {
      var n := |run| - 1;
      if k < n {
        PrefixRun(s, run[..n], k);
        assert run[..n][..k] == run[..k] && run[..n][..k + 1] == run[..k + 1];
      } else {
        assert run[..k + 1] == run;
      }
      assert run[..k + 1][..k] == run[..k];
    }
  }

  /** The state before step `k`. */
  ghost function At(s: System, run: seq<Step>, k: nat): System
    requires IsRun(s, run) && k <= |run|
  {
    PrefixRun(s, run, k);
    After(s, run[..k])
  }

  lemma AtOk(s: System, run: seq<Step>, k: nat)
    requires IsInitial(s) && IsRun(s, run) && k <= |run|
    ensures Inv(At(s, run, k))
    ensures k < |run| ==> IsEnabled(At(s, run, k), run[k]) && At(s, run, k + 1) == Next(At(s, run, k), run[k])
  {
    PrefixRun(s, run, k);
    RunKeepsInv(s, run[..k]);
  }

  /** How many steps the thread takes between `i` and `j`. */
  ghost function StepsOf(run: seq<Step>, t: Tid, i: nat, j: nat): nat
    requires i <= j <= |run|
    decreases j
  {
    if i == j then 0 else StepsOf(run, t, i, j - 1) + if IsOwnStep(run[j - 1], t) then 1 else 0
  }

  /** Thread `t` answers a request to continue in step `i`, and none to suspend it before step `j`. */
  ghost predicate IsWindow(s: System, run: seq<Step>, t: Tid, i: nat, j: nat)
  {
    && IsInitial(s) && IsRun(s, run) && i < j <= |run| && run[i] == Handle(t, Continue)
    && forall k :: i < k < j ==> run[k] != Handle(t, Suspend)
  }

  lemma WindowOpens(s: System, run: seq<Step>, t: Tid, i: nat, j: nat)
    requires IsWindow(s, run, t, i, j)
    ensures t in At(s, run, i).threads && t in At(s, run, i + 1).threads
    ensures var x, y := At(s, run, i).threads[t], At(s, run, i + 1).threads[t];
            |y.loops| == |x.loops| && if IsBeforeWait(x) then IsLost(y) else IsOnItsWay(y)
  {
    hide Inv, IsEnabled, Next, IsLost, IsOnItsWay, IsBeforeWait, IsInitial, IsRun, At;
    AtOk(s, run, i);
    HandledHere(At(s, run, i), t, Continue);
    ContinuedIs(At(s, run, i), t);
  }

  lemma HandledHere(s: System, t: Tid, kind: Kind)
    requires IsEnabled(s, Handle(t, kind))
    ensures t in s.threads && t in Next(s, Handle(t, kind)).threads
  {
  }

  /**
   Exact condition, first half: a thread that has begun its own wait and not entered it when the
   request to continue is answered does not execute at all before it is suspended again.
   */
  lemma {:induction false} WindowIsLost(s: System, run: seq<Step>, t: Tid, i: nat, j: nat)
    requires IsWindow(s, run, t, i, j)
    requires t in At(s, run, i).threads && IsBeforeWait(At(s, run, i).threads[t])
    ensures t in At(s, run, j).threads && IsLost(At(s, run, j).threads[t]) && !IsExecuting(At(s, run, j).threads[t])
    decreases j
  {
    hide Inv, IsEnabled, Next, IsInitial, IsRun, At;
    if j == i + 1 {
      WindowOpens(s, run, t, i, j);
    } else {
      WindowIsLost(s, run, t, i, j - 1);
      AtOk(s, run, j - 1);
      LostStays(At(s, run, j - 1), run[j - 1], t);
      ThreadsStay(At(s, run, j - 1), run[j - 1], t);
    }
  }

  lemma ThreadsStay(s: System, a: Step, t: Tid)
    requires IsEnabled(s, a) && t in s.threads
    ensures t in Next(s, a).threads
  {
  }

  /** The thread executes at some moment between `i` and `j`. */
  ghost predicate Executes(s: System, run: seq<Step>, t: Tid, i: nat, j: nat)
    requires IsRun(s, run) && j <= |run|
  {
    exists k :: i <= k <= j && t in At(s, run, k).threads && IsExecuting(At(s, run, k).threads[t])
  }

  /** It has left as many loops as it has taken steps, can take the next one, and does not execute yet. */
  ghost predicate IsUnderway(s: System, run: seq<Step>, t: Tid, i: nat, j: nat)
    requires IsRun(s, run) && i < j <= |run| && t in At(s, run, i).threads && t in At(s, run, j).threads
  {
    var x, y := At(s, run, i).threads[t], At(s, run, j).threads[t];
    && IsOnItsWay(y) && y.loops != [] && IsEnabled(At(s, run, j), Test(t))
    && |y.loops| + StepsOf(run, t, i + 1, j) == |x.loops|
  }

  /**
   Second half: every other thread that is continued executes as soon as it has taken as many steps as
   it was in waiting loops; until then it can always take one.
   */
  lemma {:induction false} WindowIsUsed(s: System, run: seq<Step>, t: Tid, i: nat, j: nat)
    requires IsWindow(s, run, t, i, j)
    requires t in At(s, run, i).threads && !IsBeforeWait(At(s, run, i).threads[t])
    ensures t in At(s, run, j).threads && (Executes(s, run, t, i + 1, j) || IsUnderway(s, run, t, i, j))
    ensures StepsOf(run, t, i + 1, j) >= |At(s, run, i).threads[t].loops| ==> Executes(s, run, t, i + 1, j)
    decreases j
  {
    hide Inv, Next, IsInitial, IsRun, At, IsBeforeWait;
    if j == i + 1 {
      WindowOpens(s, run, t, i, j);
    } else {
      WindowIsUsed(s, run, t, i, j - 1);
      AtOk(s, run, j - 1);
      ThreadsStay(At(s, run, j - 1), run[j - 1], t);
      if !Executes(s, run, t, i + 1, j - 1) {
        WayGoesOn(At(s, run, j - 1), run[j - 1], t);
      }
    }
  }

  /** Only a further wait of its own can bring a thread before a wait again. */
  lemma {:induction false} EnteredOnce(s: System, run: seq<Step>, t: Tid, i: nat, j: nat)
    requires IsInitial(s) && IsRun(s, run) && i <= j <= |run| && t in At(s, run, i).threads
    requires At(s, run, i).threads[t].life == Alive && !IsBeforeWait(At(s, run, i).threads[t])
    requires forall k :: i <= k < j ==> run[k] != SuspendSelf(t)
    ensures t in At(s, run, j).threads && At(s, run, j).threads[t].life != Starting
    ensures !IsBeforeWait(At(s, run, j).threads[t])
    decreases j
  {
    hide Inv, IsEnabled, Next, IsInitial, IsRun, At, IsBeforeWait;
    if i < j {
      EnteredOnce(s, run, t, i, j - 1);
      AtOk(s, run, j - 1);
      ThreadsStay(At(s, run, j - 1), run[j - 1], t);
      StaysEntered(At(s, run, j - 1), run[j - 1], t);
    }
  }

  lemma StaysEntered(s: System, a: Step, t: Tid)
    requires Inv(s) && IsEnabled(s, a) && t in s.threads && s.threads[t].life != Starting && a != SuspendSelf(t)
    requires !IsBeforeWait(s.threads[t])
    ensures t in Next(s, a).threads && Next(s, a).threads[t].life != Starting && !IsBeforeWait(Next(s, a).threads[t])
  {
    assert LoopsOk(s.threads[t]);
    hide Next, Inv;
    if IsThreadStep(a) && a.tid == t {
      IsMoved(s, a);
    } else {
      hide Moved;
      Unmoved(s, a, t);
    }
  }

  /**
   A lost window is the last one: once the thread has entered its wait, in step `k`, it executes in
   every later window, given the steps to leave its loops, until it suspends itself again.
   */
  lemma NextWindowIsUsed(s: System, run: seq<Step>, t: Tid, k: nat, i: nat, j: nat)
    requires IsWindow(s, run, t, i, j) && k < i && run[k] == EnterWait(t)
    requires t in At(s, run, k).threads && At(s, run, k).threads[t].loops == [Entering]
    requires forall h :: k < h < i ==> run[h] != SuspendSelf(t)
    ensures t in At(s, run, i).threads && t in At(s, run, j).threads
    ensures !IsBeforeWait(At(s, run, i).threads[t])
    ensures StepsOf(run, t, i + 1, j) >= |At(s, run, i).threads[t].loops| ==> Executes(s, run, t, i + 1, j)
  {
    hide Inv, IsInitial, IsRun, At, Executes, StepsOf;
    AtOk(s, run, k);
    EnteredOnce(s, run, t, k + 1, i);
    WindowIsUsed(s, run, t, i, j);
  }

  /** The thread alone, in the phases of its first window. */
  function Alone(t: Tid, x: Thread, phase: Phase, acked: bool): System
  {
    System(map[t := x], phase, acked)
  }

  lemma ContinuedEarly(t: Tid)
    ensures var s := Alone(t, Thread(Starting, Suspended, [], false, {}), Idle, false);
            var run := [Start(t), SendContinue(t), Handle(t, Continue)];
            IsRun(s, run) && After(s, run) == Alone(t, Thread(Alive, Running, [Entering], true, {}), Continuing(t),
                                                    true)
  {
    var s := Alone(t, Thread(Starting, Suspended, [], false, {}), Idle, false);
    OneStepMore(s, [], Start(t));
    assert [] + [Start(t)] == [Start(t)];
    assert After(s, [Start(t)]) == Alone(t, Thread(Alive, Suspended, [Entering], true, {}), Idle, false);
    OneStepMore(s, [Start(t)], SendContinue(t));
    assert [Start(t)] + [SendContinue(t)] == [Start(t), SendContinue(t)];
    assert {} + {Continue} == {Continue};
    OneStepMore(s, [Start(t), SendContinue(t)], Handle(t, Continue));
    assert [Start(t), SendContinue(t)] + [Handle(t, Continue)] == [Start(t), SendContinue(t), Handle(t, Continue)];
  }

  /** A run of one thread that loses its first window: nothing but the next request to suspend it is possible. */
  lemma FirstWindowLost(t: Tid)
    ensures var s := Alone(t, Thread(Starting, Suspended, [], false, {}), Idle, false);
            var run := [Start(t), SendContinue(t), Handle(t, Continue), EnterWait(t), EndContinue];
            && IsInitial(s) && IsRun(s, run)
            && var s' := After(s, run);
               && s'.phase == Open(t) && !IsExecuting(s'.threads[t])
               && forall a :: IsEnabled(s', a) <==> a == SendSuspend
  {
    var s := Alone(t, Thread(Starting, Suspended, [], false, {}), Idle, false);
    var run := [Start(t), SendContinue(t), Handle(t, Continue)];
    ContinuedEarly(t);
    OneStepMore(s, run, EnterWait(t));
    assert [Entering][..0] + [Waiting] == [Waiting];
    assert After(s, run + [EnterWait(t)]) == Alone(t, Thread(Alive, Running, [Waiting], true, {}), Continuing(t), true);
    OneStepMore(s, run + [EnterWait(t)], EndContinue);
    assert run + [EnterWait(t)] + [EndContinue] ==
           [Start(t), SendContinue(t), Handle(t, Continue), EnterWait(t), EndContinue];
  }

  lemma OneStepMore(s: System, run: seq<Step>, a: Step)
    requires IsRun(s, run) && IsEnabled(After(s, run), a)
    ensures IsRun(s, run + [a]) && After(s, run + [a]) == Next(After(s, run), a)
  {
    assert (run + [a])[..|run|] == run;
  }
}

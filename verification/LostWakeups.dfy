/**
 When exactly an exit leaves a process blocked in a wait that has been answered. Processes
 that wait for their own children only, and an init that never blocks, rule both cases out.
 */
module LostWakeups {
  import opened Processes
  import opened KernelSteps

  /** The parent waits for `x`, but another blocked process claims the wakeup. */
  predicate IsOverlooked(s: State, x: Pid)
    requires QueuesOk(s) && x in s.pcbs
  {
    var p := s.pcbs[x].ppid;
    p in s.pcbs && IsWaiting(s.pcbs[p]) && WaitsFor(s.pcbs[p], x) && WokenBy(s, x) != p
  }

  /** Init waits, is not woken by this exit, and inherits a child that has terminated or stopped. */
  predicate IsInherited(s: State, x: Pid)
    requires QueuesOk(s) && x in s.pcbs && INIT in s.pcbs
  {
    && IsWaiting(s.pcbs[INIT]) && WokenBy(s, x) != INIT
    && exists c :: c in s.pcbs[x].children && c in s.pcbs && HasAnswer(s.pcbs[c]) && WaitsFor(s.pcbs[INIT], c)
  }

  lemma ParentSleepsOn(pcbs: map<Pid, Pcb>, pcbs': map<Pid, Pcb>, x: Pid, w: Pid)
    requires x in pcbs && IsAlive(pcbs, x) && ExitTable(pcbs, pcbs', x, w) && ParentOk(pcbs, x) && pcbs[x].ppid != x
    requires var p := pcbs[x].ppid; IsWaiting(pcbs[p]) && WaitsFor(pcbs[p], x) && w != p
    ensures !AwakeOk(pcbs')
  {
  }

  lemma InitSleepsOn(pcbs: map<Pid, Pcb>, pcbs': map<Pid, Pcb>, x: Pid, w: Pid, c: Pid)
    requires IsAlive(pcbs, x) && x != INIT && INIT in pcbs && ExitTable(pcbs, pcbs', x, w) && ChildrenOk(pcbs, x)
    requires IsWaiting(pcbs[INIT]) && w != INIT && c in pcbs[x].children && HasAnswer(pcbs[c]) &&
             WaitsFor(pcbs[INIT], c) && w != c
    ensures !AwakeOk(pcbs')
  {
  }

  lemma OtherwiseAwake(pcbs: map<Pid, Pcb>, pcbs': map<Pid, Pcb>, x: Pid, w: Pid, p: Pid)
    requires IsAlive(pcbs, x) && x != INIT && INIT in pcbs && ExitTable(pcbs, pcbs', x, w)
    requires p in pcbs && AwakeAt(pcbs, p) && (IsAlive(pcbs, p) ==> ChildrenOk(pcbs, p)) && x !in pcbs[x].children
    requires pcbs[x].ppid == p && IsWaiting(pcbs[p]) && WaitsFor(pcbs[p], x) ==> w == p
    requires p == INIT && IsWaiting(pcbs[INIT]) && w != INIT ==>
               forall c :: c in pcbs[x].children && c in pcbs && HasAnswer(pcbs[c]) ==> !WaitsFor(pcbs[INIT], c)
    ensures AwakeAt(pcbs', p)
  {
  }

  /** No wakeup is lost by an exit if and only if neither case applies. */
  lemma ExitLosesNoWakeup(s: State, x: Pid)
    requires QueuesOk(s) && TreeOk(s.pcbs, s.count) && AwakeOk(s.pcbs) && IsAlive(s.pcbs, x) && x != INIT
    ensures INIT in s.pcbs && (AwakeOk(Exited(s, x).pcbs) <==> !IsOverlooked(s, x) && !IsInherited(s, x))
  {
    hide QueuesOk, TreeOk, AwakeAt, ChildrenOk, Exited, ExitTable, WokenBy;
    TreeAt(s.pcbs, s.count, x);
    ExitWakesFirst(s, x);
    var pcbs, pcbs', w := s.pcbs, Exited(s, x).pcbs, WokenBy(s, x);
    NotItsOwnChild(pcbs, x);
    PriorityOk(s, x);
    WakesFirst(s, x, Dead(pcbs[x]));
    if IsOverlooked(s, x) {
      ParentSleepsOn(pcbs, pcbs', x, w);
    } else if IsInherited(s, x) {
      var c :| c in pcbs[x].children && c in pcbs && HasAnswer(pcbs[c]) && WaitsFor(pcbs[INIT], c);
      InitSleepsOn(pcbs, pcbs', x, w, c);
    } else {
      assert pcbs'.Keys == pcbs.Keys by { assert ExitTable(pcbs, pcbs', x, w); SameKeys(pcbs, pcbs', x, w); }
      forall p | p in pcbs'
        ensures AwakeAt(pcbs', p)
      {
        if IsAlive(pcbs, p) {
          TreeAt(pcbs, s.count, p);
        }
        OtherwiseAwake(pcbs, pcbs', x, w, p);
      }
    }
  }

  lemma NotItsOwnChild(pcbs: map<Pid, Pcb>, x: Pid)
    requires x in pcbs && ChildrenOk(pcbs, x) && ParentOk(pcbs, x)
    ensures x !in pcbs[x].children
  {
  }

  lemma SameKeys(pcbs: map<Pid, Pcb>, pcbs': map<Pid, Pcb>, x: Pid, w: Pid)
    requires x in pcbs && ExitTable(pcbs, pcbs', x, w)
    ensures pcbs'.Keys == pcbs.Keys
  {
  }

  // ---- stopping ----

  lemma StopMisses(pcbs: map<Pid, Pcb>, pcbs': map<Pid, Pcb>, x: Pid, w: Pid)
    requires IsAlive(pcbs, x) && AnswerTable(pcbs, pcbs', x, Halted(pcbs[x]), w) && ParentOk(pcbs, x) &&
             pcbs[x].ppid != x
    requires var p := pcbs[x].ppid; IsWaiting(pcbs[p]) && WaitsFor(pcbs[p], x) && w != p
    ensures !AwakeOk(pcbs')
  {
    var p := pcbs[x].ppid;
    assert x in pcbs'[p].children && HasAnswer(pcbs'[x]);
    assert !AwakeAt(pcbs', p);
  }

  lemma StopAwake(pcbs: map<Pid, Pcb>, pcbs': map<Pid, Pcb>, x: Pid, w: Pid, p: Pid)
    requires IsAlive(pcbs, x) && AnswerTable(pcbs, pcbs', x, Halted(pcbs[x]), w)
    requires p in pcbs && AwakeAt(pcbs, p) && (IsAlive(pcbs, p) ==> ChildrenOk(pcbs, p))
    requires pcbs[x].ppid == p && IsWaiting(pcbs[p]) && WaitsFor(pcbs[p], x) ==> w == p
    ensures AwakeAt(pcbs', p)
  {
  }

  /** No wakeup is lost by a stop if and only if no other process claims that of the parent. */
  lemma StopLosesNoWakeup(s: State, x: Pid)
    requires QueuesOk(s) && TreeOk(s.pcbs, s.count) && AwakeOk(s.pcbs) && IsAlive(s.pcbs, x) && x != INIT
    ensures AwakeOk(StoppedState(s, x).pcbs) <==> !IsOverlooked(s, x)
  {
    hide QueuesOk, TreeOk, AwakeAt, ChildrenOk, WokenBy, Moved, WakeWaiter, AnswerTable;
    TreeAt(s.pcbs, s.count, x);
    PriorityOk(s, x);
    WakesFirst(s, x, Halted(s.pcbs[x]));
    var pcbs, pcbs', w := s.pcbs, StoppedState(s, x).pcbs, WokenBy(s, x);
    if IsOverlooked(s, x) {
      StopMisses(pcbs, pcbs', x, w);
    } else {
      assert pcbs'.Keys == pcbs.Keys by { AnswerKeys(pcbs, pcbs', x, Halted(pcbs[x]), w); }
      forall p | p in pcbs'
        ensures AwakeAt(pcbs', p)
      {
        if IsAlive(pcbs, p) {
          TreeAt(pcbs, s.count, p);
        }
        StopAwake(pcbs, pcbs', x, w, p);
      }
    }
  }

  lemma AnswerKeys(pcbs: map<Pid, Pcb>, pcbs': map<Pid, Pcb>, x: Pid, y: Pcb, w: Pid)
    requires x in pcbs && AnswerTable(pcbs, pcbs', x, y, w)
    ensures pcbs'.Keys == pcbs.Keys
  {
  }
}

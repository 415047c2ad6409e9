/**
 Processes that block themselves in the middle of a quantum can keep a ready process from ever
 running: the rotation at the end of the quantum then moves the next process instead.
 */
module Starvation {
  import opened Processes
  import opened KernelSteps
  import opened KernelCalls
  import opened Schedule
  import opened Fairness
  import opened KernelExamples

  // ---- moves between the queues of the trap ----

  /** The last process of low priority stops. */
  lemma LowStops(pcbs: map<Pid, Pcb>, q: Queues, count: nat, c: Pid, rest: seq<Pid>, x: Pcb)
    requires q.low == rest + [c] && c !in rest && c !in q.ready && c !in q.blocked && c !in q.stopped && c !in q.zombies
    requires x.status == Stopped
    ensures Moved(At(pcbs, q, count), c, x) == At(pcbs[c := x], q.(low := rest, stopped := q.stopped + [c]), count)
  {
    WithoutLast(rest, c);
    WithoutAbsent(q.ready, c);
    WithoutAbsent(q.blocked, c);
    WithoutAbsent(q.stopped, c);
    WithoutAbsent(q.zombies, c);
    assert Without([], c) == [];
    hide Without;
    MovedIs(At(pcbs, q, count), c, x, At(pcbs[c := x], q.(low := rest, stopped := q.stopped + [c]), count).queues);
  }

  lemma {:induction false} WithoutLast(rest: seq<Pid>, c: Pid)
    requires c !in rest
    ensures Without(rest + [c], c) == rest
  {
    if rest == [] {
      assert rest + [c] == [c];
    } else {
      assert (rest + [c])[1..] == rest[1..] + [c];
      WithoutLast(rest[1..], c);
    }
  }

  /** The first stopped process goes on, at low priority. */
  lemma LowResumes(pcbs: map<Pid, Pcb>, q: Queues, count: nat, c: Pid, rest: seq<Pid>, x: Pcb)
    requires q.stopped == [c] + rest && c !in rest && c !in q.ready && c !in q.low && c !in q.blocked && c !in q.zombies
    requires x.status == Running && x.priority == 2
    ensures Moved(At(pcbs, q, count), c, x) == At(pcbs[c := x], q.(low := q.low + [c], stopped := rest), count)
  {
    WithoutAbsent(rest, c);
    assert Without([c] + rest, c) == rest;
    WithoutAbsent(q.ready, c);
    WithoutAbsent(q.low, c);
    WithoutAbsent(q.blocked, c);
    WithoutAbsent(q.zombies, c);
    assert Without([], c) == [];
    hide Without;
    MovedIs(At(pcbs, q, count), c, x, At(pcbs[c := x], q.(low := q.low + [c], stopped := rest), count).queues);
  }

  /** The only blocked process becomes ready. */
  lemma WaiterWakes(pcbs: map<Pid, Pcb>, q: Queues, count: nat, b: Pid, x: Pcb)
    requires q.blocked == [b] && b !in q.ready && b !in q.low && b !in q.stopped && b !in q.zombies
    requires x.status == Running && x.priority == 0
    ensures Moved(At(pcbs, q, count), b, x) == At(pcbs[b := x], q.(ready := q.ready + [b], blocked := []), count)
  {
    assert Without([b], b) == [];
    WithoutAbsent(q.ready, b);
    WithoutAbsent(q.low, b);
    WithoutAbsent(q.stopped, b);
    WithoutAbsent(q.zombies, b);
    assert Without([], b) == [];
    hide Without;
    MovedIs(At(pcbs, q, count), b, x, At(pcbs[b := x], q.(ready := q.ready + [b], blocked := []), count).queues);
  }

  /** The last process of low priority is stopped, and the only blocked process waits for it or not. */
  lemma StopLow(pcbs: map<Pid, Pcb>, q: Queues, count: nat, p: Pid, c: Pid, rest: seq<Pid>, b: Pid, calls: seq<Call>)
    requires Sound(At(pcbs, q, count)) && IsCallable(At(pcbs, q, count), p, Stop(c))
    requires q.low == rest + [c] && c !in rest && c !in q.ready && c !in q.blocked && c !in q.stopped && c !in q.zombies
    requires q.blocked == [b] && b !in q.ready && b !in q.low && b !in q.stopped && b !in q.zombies
    requires pcbs[c].status == Running && b in pcbs && pcbs[b].priority == 0
    ensures var p1 := pcbs[c := Halted(pcbs[c])];
            var q1 := q.(low := rest, stopped := q.stopped + [c]);
            var q2 := q1.(ready := q.ready + [b], blocked := []);
            var s := if Matches(pcbs[b], c) then At(p1[b := Woken(pcbs[b])], q2, count) else At(p1, q1, count);
            Sound(s) && p in s.pcbs && Performed(At(pcbs, q, count), p, [Stop(c)] + calls) == Performed(s, p, calls)
  {
    hide QueuesOk, TreeOk, Performed, Moved;
    OneCall(At(pcbs, q, count), p, Stop(c), calls);
    LowStops(pcbs, q, count, c, rest, Halted(pcbs[c]));
    var p1, q1 := pcbs[c := Halted(pcbs[c])], q.(low := rest, stopped := q.stopped + [c]);
    if Matches(pcbs[b], c) {
      WaiterWakes(p1, q1, count, b, Woken(pcbs[b]));
    }
  }

  /** The first stopped process, of low priority, is continued. */
  lemma ContinueLow(pcbs: map<Pid, Pcb>, q: Queues, count: nat, p: Pid, c: Pid, rest: seq<Pid>, calls: seq<Call>)
    requires Sound(At(pcbs, q, count)) && IsCallable(At(pcbs, q, count), p, Continue(c))
    requires q.stopped == [c] + rest && c !in rest && c !in q.ready && c !in q.low && c !in q.blocked && c !in q.zombies
    requires pcbs[c].status == Stopped && pcbs[c].priority == 2
    ensures var s := At(pcbs[c := Woken(pcbs[c])], q.(low := q.low + [c], stopped := rest), count);
            Sound(s) && p in s.pcbs && Performed(At(pcbs, q, count), p, [Continue(c)] + calls) == Performed(s, p, calls)
  {
    hide QueuesOk, TreeOk, Performed, Moved;
    OneCall(At(pcbs, q, count), p, Continue(c), calls);
    LowResumes(pcbs, q, count, c, rest, Woken(pcbs[c]));
  }

  // ---- the trap ----

  /**
   `a` and `b` take turns: while one runs, the other waits for its own child, `ca` or `cb`.
   The process `x` is ready, of the same priority.
   */
  ghost predicate IsTrap(m: Machine, a: Pid, b: Pid, ca: Pid, cb: Pid, x: Pid)
  {
    && Sound(m.s) && m.spawned && m.s == At(m.s.pcbs, TrapQueues(a, b, ca, cb, x), m.s.count)
    && AreApart(a, b, ca, cb, x) && IsTrapTable(m.s.pcbs, a, b, ca, cb)
  }

  function TrapQueues(a: Pid, b: Pid, ca: Pid, cb: Pid, x: Pid): Queues
  {
    Queues([INIT, a, x], [cb], [b], [ca], [])
  }

  predicate AreApart(a: Pid, b: Pid, ca: Pid, cb: Pid, x: Pid)
  {
    && a !in {INIT, b, ca, cb, x} && b !in {INIT, ca, cb, x} && ca !in {INIT, cb, x} && cb !in {INIT, x} && x != INIT
    && ca > 0 && cb > 0
  }

  predicate IsTrapTable(pcbs: map<Pid, Pcb>, a: Pid, b: Pid, ca: Pid, cb: Pid)
  {
    && {a, b, ca, cb} <= pcbs.Keys
    && pcbs[a].status == Running && pcbs[a].priority == 0 && pcbs[a].sleep == 0
    && pcbs[b].status == Blocked && pcbs[b].priority == 0 && pcbs[b].sleep == 0 && pcbs[b].waited == cb
    && pcbs[ca].status == Stopped && pcbs[ca].priority == 2 && pcbs[ca].ppid == a
    && pcbs[cb].status == Running && pcbs[cb].priority == 2 && pcbs[cb].ppid == b
  }

  /** The process that runs wakes the other one by stopping its child, and waits for its own. */
  function Handover(ca: Pid, cb: Pid): seq<Call>
  {
    [Stop(cb), Continue(ca), Wait(ca, false)]
  }

  /** The table after the calls. */
  function HandedOver(pcbs: map<Pid, Pcb>, a: Pid, b: Pid, ca: Pid, cb: Pid): map<Pid, Pcb>
    requires {a, b, ca, cb} <= pcbs.Keys
  {
    var p1 := pcbs[cb := Halted(pcbs[cb])][b := Woken(pcbs[b])][ca := Woken(pcbs[ca])];
    p1[a := pcbs[a].(status := Blocked, waited := ca)]
  }

  lemma HandoverTable(pcbs: map<Pid, Pcb>, a: Pid, b: Pid, ca: Pid, cb: Pid, x: Pid)
    requires AreApart(a, b, ca, cb, x) && IsTrapTable(pcbs, a, b, ca, cb)
    ensures IsTrapTable(HandedOver(pcbs, a, b, ca, cb), b, a, cb, ca)
  {
  }

  lemma HandoverCalls(pcbs: map<Pid, Pcb>, count: nat, a: Pid, b: Pid, ca: Pid, cb: Pid, x: Pid)
    requires AreApart(a, b, ca, cb, x) && IsTrapTable(pcbs, a, b, ca, cb)
    requires Sound(At(pcbs, Queues([a, x, INIT], [cb], [b], [ca], []), count))
    ensures Performed(At(pcbs, Queues([a, x, INIT], [cb], [b], [ca], []), count), a, Handover(ca, cb)) ==
            At(HandedOver(pcbs, a, b, ca, cb), Queues([x, INIT, b], [ca], [a], [cb], []), count)
  {
    hide Sound, Performed;
    var q := Queues([a, x, INIT], [cb], [b], [ca], []);
    var p1 := pcbs[cb := Halted(pcbs[cb])][b := Woken(pcbs[b])];
    assert Handover(ca, cb) == [Stop(cb)] + ([Continue(ca)] + [Wait(ca, false)]);
    assert [cb] == [] + [cb] && [ca] + [cb] == [ca, cb] && [a, x, INIT] + [b] == [a, x, INIT, b];
    StopLow(pcbs, q, count, a, cb, [], b, [Continue(ca)] + [Wait(ca, false)]);
    var q1 := Queues([a, x, INIT, b], [], [], [ca, cb], []);
    ContinueLow(p1, q1, count, a, ca, [cb], [Wait(ca, false)]);
    var q2 := Queues([a, x, INIT, b], [ca], [], [cb], []);
    assert [] + [ca] == [ca] && [] + [a] == [a] && [a, x, INIT, b] == [a] + [x, INIT, b];
    WaitCall(p1[ca := Woken(pcbs[ca])], q2, count, a, [x, INIT, b], ca);
  }

  /** In the quanta of the two higher queues the running process hands over. */
  lemma HandoverTurn(m: Machine, a: Pid, b: Pid, ca: Pid, cb: Pid, x: Pid)
    requires IsTrap(m, a, b, ca, cb, x) && Slot(m.quantum) != 2
    ensures Chosen(m).1 != -1 && Chosen(m).0.current == a && IsTrap(Turn(m, Handover(ca, cb)), b, a, cb, ca, x)
  {
    hide Sound, Ticked, Slot, Chosen, Performed, Turn, HandedOver, Handover;
    var pcbs, count := m.s.pcbs, m.s.count;
    QuietChoice(m, pcbs, TrapQueues(a, b, ca, cb, x));
    assert Rotated([INIT, a, x]) == [a, x, INIT] && Rotated([x, INIT, b]) == [INIT, b, x];
    HandoverCalls(pcbs, count, a, b, ca, cb, x);
    HandoverTable(pcbs, a, b, ca, cb, x);
    TurnAt(m, Chosen(m).0.s, a, Handover(ca, cb), HandedOver(pcbs, a, b, ca, cb),
           Queues([x, INIT, b], [ca], [a], [cb], []), count);
  }

  lemma LowChoice(m: Machine, q: Queues, c: Pid)
    requires Sound(m.s) && m.spawned && m.s == At(m.s.pcbs, q, m.s.count) && q.low == [c] && c != INIT &&
             Slot(m.quantum) == 2
    requires Ticked(m.s, 0) == m.s
    ensures Chosen(m) == (Machine(m.s, m.quantum, true, c), 2)
  {
    hide Sound, Ticked, Slot;
    assert m.s.queues[..3] == [q.ready, [], [c]];
  }

  /** In the quanta of the lowest queue nothing changes. */
  lemma LowTurn(m: Machine, a: Pid, b: Pid, ca: Pid, cb: Pid, x: Pid)
    requires IsTrap(m, a, b, ca, cb, x) && Slot(m.quantum) == 2
    ensures Chosen(m).1 != -1 && Chosen(m).0.current == cb && IsTrap(Turn(m, []), a, b, ca, cb, x)
  {
    assert Ticked(m.s, 0) == m.s by { NobodyAsleep(m.s, 0); }
    hide Sound, Ticked, Slot, Performed, Chosen;
    LowChoice(m, TrapQueues(a, b, ca, cb, x), cb);
    NoCall(m.s, cb);
    LowRotated(m.s, cb);
  }

  lemma LowRotated(s: State, c: Pid)
    requires |s.queues| == 6 && s.queues[2] == [c]
    ensures RotatedState(s, 2) == s
  {
    assert Rotated([c]) == [c];
    assert RotatedState(s, 2).queues == s.queues;
  }

  /** A process that is ready for ever and never runs. */
  lemma {:induction false} Starvation(m: Machine, a: Pid, b: Pid, ca: Pid, cb: Pid, x: Pid, n: nat)
    returns (script: seq<seq<Call>>, a': Pid, b': Pid, ca': Pid, cb': Pid)
    requires IsTrap(m, a, b, ca, cb, x)
    ensures |script| == n && !RunsWithin(m, script, x) && x in RunOf(m, script).s.queues[0]
    ensures IsTrap(RunOf(m, script), a', b', ca', cb', x)
  {
    hide Sound, Turn, Chosen, Slot, IsTrapTable;
    if n == 0 {
      script, a', b', ca', cb' := [], a, b, ca, cb;
      RunNothing(m);
    } else {
      var before, a1, b1, ca1, cb1 := Starvation(m, a, b, ca, cb, x, n - 1);
      var m1 := RunOf(m, before);
      if Slot(m1.quantum) == 2 {
        LowTurn(m1, a1, b1, ca1, cb1, x);
        script, a', b', ca', cb' := before + [[]], a1, b1, ca1, cb1;
        NextTurn(m, before, []);
      } else {
        HandoverTurn(m1, a1, b1, ca1, cb1, x);
        script, a', b', ca', cb' := before + [Handover(ca1, cb1)], b1, a1, cb1, ca1;
        NextTurn(m, before, Handover(ca1, cb1));
      }
      NotWithin(m, before, script[n - 1], x);
    }
  }

  lemma NotWithin(m: Machine, script: seq<seq<Call>>, calls: seq<Call>, x: Pid)
    requires Sound(m.s) && !RunsWithin(m, script, x) && !RunsAt(RunOf(m, script), x)
    ensures !RunsWithin(m, script + [calls], x)
  {
    hide Sound, RunsAt, RunOf;
    assert forall k :: 0 <= k <= |script| ==> (script + [calls])[..k] == script[..k];
    assert script[..|script|] == script;
  }

  // ---- the trap is reached ----

  /** The head of the ready queue runs and makes no call. */
  lemma IdleTurn(m: Machine, pcbs: map<Pid, Pcb>, q: Queues)
    requires Sound(m.s) && m.s == At(pcbs, q, m.s.count) && q.ready != [] && Slot(m.quantum) != 2 && m.spawned
    requires forall j :: 0 <= j < |q.blocked| ==> q.blocked[j] in pcbs && pcbs[q.blocked[j]].sleep == 0
    requires q.ready[0] != INIT && q.ready[0] in pcbs && pcbs[q.ready[0]].status == Running
    ensures Turn(m, []) == Machine(At(pcbs, q.(ready := Rotated(q.ready)), m.s.count), m.quantum + 1, true, q.ready[0])
  {
    hide Sound, Ticked, Slot, Chosen, Performed, Turn;
    QuietChoice(m, pcbs, q);
    NoCall(m.s, q.ready[0]);
    TurnAt(m, m.s, q.ready[0], [], pcbs, q, m.s.count);
  }

  /** One child of the shell creates a process of low priority and waits for it. */
  lemma WaiterCalls(p0: map<Pid, Pcb>) returns (pcbs: map<Pid, Pcb>)
    requires p0.Keys == {1, 2, 3, 4} && p0[3] == Born(2, []) && Sound(At(p0, Queues([3, 4, 2, 1], [], [], [], []), 4))
    ensures Performed(At(p0, Queues([3, 4, 2, 1], [], [], [], []), 4), 3, [Create(2), Wait(5, false)]) ==
            At(pcbs, Queues([4, 2, 1], [5], [3], [], []), 5)
    ensures pcbs.Keys == {1, 2, 3, 4, 5} && pcbs[2] == p0[2] && pcbs[4] == p0[4]
    ensures pcbs[3] == Pcb(2, Blocked, 0, 0, 5, [5]) && pcbs[5] == Newborn(3, 2)
  {
    hide Sound, Performed;
    assert [Create(2), Wait(5, false)] == [Create(2)] + [Wait(5, false)] && [] + [5] == [5] && [] + [3] == [3];
    assert [3, 4, 2, 1] == [3] + [4, 2, 1];
    CreateLow(p0, Queues([3, 4, 2, 1], [], [], [], []), 4, 3, [Wait(5, false)]);
    var p1 := WithChild(p0, 3, 5, 2);
    assert p1[3] == Born(2, [5]);
    WaitCall(p1, Queues([3, 4, 2, 1], [5], [], [], []), 5, 3, [4, 2, 1], 5);
    pcbs := p1[3 := Pcb(2, Blocked, 0, 0, 5, [5])];
  }

  lemma WaiterTurn(m: Machine, p0: map<Pid, Pcb>) returns (pcbs: map<Pid, Pcb>)
    requires Sound(m.s) && m == Machine(At(p0, Queues([1, 3, 4, 2], [], [], [], []), 4), 2, true, 2)
    requires p0.Keys == {1, 2, 3, 4} && p0[3] == Born(2, [])
    ensures Turn(m, [Create(2), Wait(5, false)]) ==
              Machine(At(pcbs, Queues([2, 1, 4], [5], [3], [], []), 5), 3, true, 3)
    ensures pcbs.Keys == {1, 2, 3, 4, 5} && pcbs[2] == p0[2] && pcbs[4] == p0[4]
    ensures pcbs[3] == Pcb(2, Blocked, 0, 0, 5, [5]) && pcbs[5] == Newborn(3, 2)
  {
    hide Sound, Ticked, Slot, Chosen, Performed, Turn;
    QuietChoice(m, p0, Queues([1, 3, 4, 2], [], [], [], []));
    assert Rotated([1, 3, 4, 2]) == [3, 4, 2, 1];
    pcbs := WaiterCalls(p0);
    TurnAt(m, Chosen(m).0.s, 3, [Create(2), Wait(5, false)], pcbs, Queues([4, 2, 1], [5], [3], [], []), 5);
    assert Rotated([4, 2, 1]) == [2, 1, 4];
  }

  /** The other one creates a process of low priority and stops it. */
  lemma StopperCalls(p0: map<Pid, Pcb>) returns (pcbs: map<Pid, Pcb>)
    requires p0.Keys == {1, 2, 3, 4, 5} && p0[3] == Pcb(2, Blocked, 0, 0, 5, [5]) && p0[4] == Born(2, [])
    requires Sound(At(p0, Queues([4, 2, 1], [5], [3], [], []), 5))
    ensures Performed(At(p0, Queues([4, 2, 1], [5], [3], [], []), 5), 4, [Create(2), Stop(6)]) ==
            At(pcbs, Queues([4, 2, 1], [5], [3], [6], []), 6)
    ensures pcbs.Keys == {1, 2, 3, 4, 5, 6} && pcbs[2] == p0[2] && pcbs[3] == p0[3] && pcbs[5] == p0[5]
    ensures pcbs[4] == Born(2, [6]) && pcbs[6] == Halted(Newborn(4, 2))
  {
    hide Sound, Performed;
    assert [Create(2), Stop(6)] == [Create(2)] + ([Stop(6)] + []) && [5] + [6] == [5, 6] && [] + [6] == [6];
    CreateLow(p0, Queues([4, 2, 1], [5], [3], [], []), 5, 4, [Stop(6)] + []);
    var p1 := WithChild(p0, 4, 6, 2);
    assert p1[4] == Born(2, [6]);
    StopLow(p1, Queues([4, 2, 1], [5, 6], [3], [], []), 6, 4, 6, [5], 3, []);
    pcbs := p1[6 := Halted(p1[6])];
    NoCall(At(pcbs, Queues([4, 2, 1], [5], [3], [6], []), 6), 4);
  }

  lemma StopperChoice(m: Machine, p0: map<Pid, Pcb>)
    requires Sound(m.s) && m == Machine(At(p0, Queues([1, 4, 2], [5], [3], [], []), 5), 4, true, 2)
    requires 3 in p0 && p0[3].sleep == 0
    ensures Chosen(m) == (Machine(At(p0, Queues([4, 2, 1], [5], [3], [], []), 5), 4, true, 4), 0)
  {
    assert Slot(4) == 0;
    hide Sound, Ticked, Slot, Chosen;
    QuietChoice(m, p0, Queues([1, 4, 2], [5], [3], [], []));
    assert Rotated([1, 4, 2]) == [4, 2, 1];
  }

  lemma StopperTurn(m: Machine, p0: map<Pid, Pcb>) returns (pcbs: map<Pid, Pcb>)
    requires Sound(m.s) && m == Machine(At(p0, Queues([1, 4, 2], [5], [3], [], []), 5), 4, true, 2)
    requires p0.Keys == {1, 2, 3, 4, 5} && p0[3] == Pcb(2, Blocked, 0, 0, 5, [5]) && p0[4] == Born(2, [])
    ensures Turn(m, [Create(2), Stop(6)]) == Machine(At(pcbs, Queues([2, 1, 4], [5], [3], [6], []), 6), 5, true, 4)
    ensures pcbs.Keys == {1, 2, 3, 4, 5, 6} && pcbs[2] == p0[2] && pcbs[3] == p0[3] && pcbs[5] == p0[5]
    ensures pcbs[4] == Born(2, [6]) && pcbs[6] == Halted(Newborn(4, 2))
  {
    hide Sound, Ticked, Slot, Chosen, Performed, Turn;
    StopperChoice(m, p0);
    pcbs := StopperCalls(p0);
    assert Rotated([4, 2, 1]) == [2, 1, 4];
    TurnAt(m, Chosen(m).0.s, 4, [Create(2), Stop(6)], pcbs, Queues([4, 2, 1], [5], [3], [6], []), 6);
  }

  lemma IsReached(m: Machine)
    requires Sound(m.s) && m.spawned && m.s == At(m.s.pcbs, Queues([1, 4, 2], [5], [3], [6], []), 6)
    requires m.s.pcbs.Keys == {1, 2, 3, 4, 5, 6} && m.s.pcbs[3] == Pcb(2, Blocked, 0, 0, 5, [5]) &&
             m.s.pcbs[4] == Born(2, [6])
    requires m.s.pcbs[5] == Newborn(3, 2) && m.s.pcbs[6] == Halted(Newborn(4, 2))
    ensures IsTrap(m, 4, 3, 6, 5, 2)
  {
    hide Sound;
  }

  lemma ShellIdles(m: Machine, pcbs: map<Pid, Pcb>, q: Queues)
    requires Sound(m.s) && m.s == At(pcbs, q, m.s.count) && m.spawned && (m.quantum == 3 || m.quantum == 5)
    requires q.ready == [2, 1, 4] && q.blocked == [3] && 3 in pcbs && pcbs[3].sleep == 0 && 2 in pcbs &&
             pcbs[2].status == Running
    ensures Turn(m, []) == Machine(At(pcbs, q.(ready := [1, 4, 2]), m.s.count), m.quantum + 1, true, 2)
  {
    assert Slot(3) == 0 && Slot(5) == 1;
    hide Sound, Slot, Turn;
    IdleTurn(m, pcbs, q);
    assert Rotated([2, 1, 4]) == [1, 4, 2];
  }

  /** The child that waits, and then the shell. */
  lemma FirstHalf(m: Machine, p0: map<Pid, Pcb>) returns (pcbs: map<Pid, Pcb>)
    requires Sound(m.s) && m == Machine(At(p0, Queues([1, 3, 4, 2], [], [], [], []), 4), 2, true, 2)
    requires p0.Keys == {1, 2, 3, 4} && p0[2] == Born(1, [3, 4]) && p0[3] == p0[4] == Born(2, [])
    ensures Turn(Turn(m, [Create(2), Wait(5, false)]), []) ==
              Machine(At(pcbs, Queues([1, 4, 2], [5], [3], [], []), 5), 4, true, 2)
    ensures pcbs.Keys == {1, 2, 3, 4, 5} && pcbs[2] == p0[2] && pcbs[4] == p0[4]
    ensures pcbs[3] == Pcb(2, Blocked, 0, 0, 5, [5]) && pcbs[5] == Newborn(3, 2)
  {
    hide Sound, Slot, Turn;
    pcbs := WaiterTurn(m, p0);
    ShellIdles(Turn(m, [Create(2), Wait(5, false)]), pcbs, Queues([2, 1, 4], [5], [3], [], []));
  }

  /** The child that stops its own child, and then the shell. */
  lemma SecondHalf(m: Machine, p0: map<Pid, Pcb>)
    requires Sound(m.s) && m == Machine(At(p0, Queues([1, 4, 2], [5], [3], [], []), 5), 4, true, 2)
    requires p0.Keys == {1, 2, 3, 4, 5} && p0[2] == Born(1, [3, 4]) && p0[3] == Pcb(2, Blocked, 0, 0, 5, [5])
    requires p0[4] == Born(2, []) && p0[5] == Newborn(3, 2)
    ensures IsTrap(Turn(Turn(m, [Create(2), Stop(6)]), []), 4, 3, 6, 5, 2)
  {
    hide Sound, Slot, Turn, IsTrap;
    var pcbs := StopperTurn(m, p0);
    var m1 := Turn(m, [Create(2), Stop(6)]);
    ShellIdles(m1, pcbs, Queues([2, 1, 4], [5], [3], [6], []));
    IsReached(Turn(m1, []));
  }

  /** Every call so far, from the start of the kernel. */
  const Prelude: seq<seq<Call>> :=
    [[Create(0)], [Create(0), Create(0)], [Create(2), Wait(5, false)], [], [Create(2), Stop(6)], []]

  lemma TrapReached()
    ensures Sound(Boot(0).s) && IsTrap(RunOf(Boot(0), Prelude), 4, 3, 6, 5, 2)
  {
    hide Sound, Turn, Boot, IsTrap;
    var p1 := ShellTurn();
    var m := Boot(0);
    var m1 := Turn(m, [Create(0)]);
    var p2 := ChildrenTurn(m1, p1);
    var m2 := Turn(m1, [Create(0), Create(0)]);
    var p3 := FirstHalf(m2, p2);
    SecondHalf(Turn(Turn(m2, [Create(2), Wait(5, false)]), []), p3);
    SixTurns(m, Prelude);
  }

  lemma SixTurns(m: Machine, script: seq<seq<Call>>)
    requires Sound(m.s) && |script| == 6
    ensures RunOf(m, script) ==
            Turn(Turn(Turn(Turn(Turn(Turn(m, script[0]), script[1]), script[2]), script[3]), script[4]), script[5])
  {
    hide Sound, Turn, RunOf;
    RunNothing(m);
    assert script[..0] == [] && script[..6] == script;
    forall i | 0 <= i < 6
      ensures RunOf(m, script[..i + 1]) == Turn(RunOf(m, script[..i]), script[i])
    {
      NextTurn(m, script[..i], script[i]);
      assert script[..i] + [script[i]] == script[..i + 1];
    }
    assert RunOf(m, script[..5 + 1]) == Turn(RunOf(m, script[..5]), script[5]);
    assert RunOf(m, script[..4 + 1]) == Turn(RunOf(m, script[..4]), script[4]);
    assert RunOf(m, script[..3 + 1]) == Turn(RunOf(m, script[..3]), script[3]);
    assert RunOf(m, script[..2 + 1]) == Turn(RunOf(m, script[..2]), script[2]);
    assert RunOf(m, script[..1 + 1]) == Turn(RunOf(m, script[..1]), script[1]);
    assert RunOf(m, script[..0 + 1]) == Turn(RunOf(m, script[..0]), script[0]);
  }

  /** From the start of the kernel, for every number of turns: the shell is ready and never runs again. */
  lemma ShellStarves(n: nat) returns (script: seq<seq<Call>>)
    ensures Sound(Boot(0).s) && |script| == n && !RunsWithin(RunOf(Boot(0), Prelude), script, 2)
    ensures 2 in RunOf(RunOf(Boot(0), Prelude), script).s.queues[0]
  {
    TrapReached();
    hide RunOf, Boot, RunsWithin;
    var m := RunOf(Boot(0), Prelude);
    var s, a, b, ca, cb := Starvation(m, 4, 3, 6, 5, 2, n);
    script := s;
  }
}

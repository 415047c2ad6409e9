/** Runs of the kernel, from its start, in which something goes wrong. */
module KernelExamples {
  import opened Processes
  import opened KernelSteps
  import opened KernelCalls
  import opened Schedule
  import opened LostWakeups

  // ---- evaluating runs ----

  /** The queues apart from those of the process table: one ready queue, blocked, stopped, terminated. */
  datatype Queues = Queues(ready: seq<Pid>, low: seq<Pid>, blocked: seq<Pid>, stopped: seq<Pid>, zombies: seq<Pid>)

  /** A state without processes of medium priority. */
  function At(pcbs: map<Pid, Pcb>, q: Queues, count: nat): State
  {
    State(pcbs, [q.ready, [], q.low, q.blocked, q.stopped, q.zombies], count)
  }

  /** A pass that finds nobody asleep. */
  lemma {:induction false} NobodyAsleep(s: State, i: nat)
    requires QueuesOk(s)
    requires forall j :: 0 <= j < |s.queues[BLOCKED]| ==>
               s.queues[BLOCKED][j] in s.pcbs && s.pcbs[s.queues[BLOCKED][j]].sleep == 0
    ensures Ticked(s, i) == s
    decreases |s.queues[BLOCKED]| - i
  {
    hide IsQueue;
    if i < |s.queues[BLOCKED]| {
      NobodyAsleep(s, i + 1);
    }
  }

  lemma MovedIs(s: State, p: Pid, x: Pcb, queues: seq<seq<Pid>>)
    requires |queues| == |s.queues|
    requires forall k :: 0 <= k < |queues| ==> queues[k] == Without(s.queues[k], p) + if k == Place(x) then [p] else []
    ensures Moved(s, p, x) == State(s.pcbs[p := x], queues, s.count)
  {
    assert Moved(s, p, x).queues == queues;
  }

  /** The ready queue once init has been passed over. */
  function Passed(q: Queues, spawned: bool): Queues
  {
    if q.ready != [] && q.ready[0] == INIT && q.zombies == [] && spawned then q.(ready := Rotated(q.ready)) else q
  }

  /** The choice of the scheduler when the timer wakes nobody. */
  lemma ChoiceAt(m: Machine, pcbs: map<Pid, Pcb>, q: Queues)
    requires Sound(m.s) && Ticked(m.s, 0) == At(pcbs, q, m.s.count) && q.ready != [] &&
             (q.low == [] || Slot(m.quantum) != 2)
    ensures var spawned := m.spawned || 2 in pcbs;
            var q' := Passed(q, spawned);
            q'.ready != [] && Chosen(m) == (Machine(At(pcbs, q', m.s.count), m.quantum, spawned, q'.ready[0]), 0)
  {
    hide Sound, Ticked, Slot;
    assert At(pcbs, q, m.s.count).queues[..3] == [q.ready, [], q.low];
    assert RotatedState(At(pcbs, q, m.s.count), 0).queues == At(pcbs, q.(ready := Rotated(q.ready)), m.s.count).queues;
  }

  lemma QuietChoice(m: Machine, pcbs: map<Pid, Pcb>, q: Queues)
    requires Sound(m.s) && m.s == At(pcbs, q, m.s.count) && q.ready != [] && (q.low == [] || Slot(m.quantum) != 2)
    requires forall j :: 0 <= j < |q.blocked| ==> q.blocked[j] in pcbs && pcbs[q.blocked[j]].sleep == 0
    ensures var spawned := m.spawned || 2 in pcbs;
            var q' := Passed(q, spawned);
            q'.ready != [] && Chosen(m) == (Machine(At(pcbs, q', m.s.count), m.quantum, spawned, q'.ready[0]), 0)
  {
    NobodyAsleep(m.s, 0);
    hide Sound, Ticked, Slot, Chosen;
    ChoiceAt(m, pcbs, q);
  }

  /** The turn that follows, if the process does not terminate or stop in it. */
  lemma TurnAt(m: Machine, s: State, p: Pid, calls: seq<Call>, pcbs: map<Pid, Pcb>, q: Queues, count: nat)
    requires Sound(m.s) && Chosen(m).1 == 0 && Chosen(m).0.s == s && Chosen(m).0.current == p
    requires Sound(s) && p in s.pcbs && Performed(s, p, calls) == At(pcbs, q, count) && p in pcbs && !HasAnswer(pcbs[p])
    ensures Turn(m, calls) ==
            Machine(At(pcbs, q.(ready := Rotated(q.ready)), count), Chosen(m).0.quantum + 1, Chosen(m).0.spawned, p)
  {
    hide Sound, Chosen, Performed;
    assert RotatedState(At(pcbs, q, count), 0).queues == At(pcbs, q.(ready := Rotated(q.ready)), count).queues;
  }

  lemma OneCall(s: State, p: Pid, c: Call, rest: seq<Call>)
    requires Sound(s) && IsCallable(s, p, c)
    ensures Sound(Called(s, p, c)) && p in Called(s, p, c).pcbs
    ensures Performed(s, p, [c] + rest) == Performed(Called(s, p, c), p, rest)
  {
    CalledSound(s, p, c);
    assert ([c] + rest)[1..] == rest;
  }

  /** The table with a new process. */
  function WithChild(pcbs: map<Pid, Pcb>, p: Pid, n: Pid, priority: nat): map<Pid, Pcb>
    requires p in pcbs
  {
    pcbs[n := Newborn(p, priority)][p := pcbs[p].(children := pcbs[p].children + [n])]
  }

  /** A new process of high priority. */
  lemma CreateHigh(pcbs: map<Pid, Pcb>, q: Queues, count: nat, p: Pid, rest: seq<Call>)
    requires Sound(At(pcbs, q, count)) && IsCalling(At(pcbs, q, count), p)
    ensures var s := At(WithChild(pcbs, p, count + 1, 0), q.(ready := q.ready + [count + 1]), count + 1);
            Sound(s) && p in s.pcbs && Performed(At(pcbs, q, count), p, [Create(0)] + rest) == Performed(s, p, rest)
  {
    hide Sound, Created, Performed;
    OneCall(At(pcbs, q, count), p, Create(0), rest);
    CreatedInStrokes(At(pcbs, q, count), p, 0);
    assert At(pcbs, q, count).queues[0 := q.ready + [count + 1]] ==
             [q.ready + [count + 1], [], q.low, q.blocked, q.stopped, q.zombies];
  }

  /** A new process of low priority. */
  lemma CreateLow(pcbs: map<Pid, Pcb>, q: Queues, count: nat, p: Pid, rest: seq<Call>)
    requires Sound(At(pcbs, q, count)) && IsCalling(At(pcbs, q, count), p)
    ensures var s := At(WithChild(pcbs, p, count + 1, 2), q.(low := q.low + [count + 1]), count + 1);
            Sound(s) && p in s.pcbs && Performed(At(pcbs, q, count), p, [Create(2)] + rest) == Performed(s, p, rest)
  {
    hide Sound, Created, Performed;
    OneCall(At(pcbs, q, count), p, Create(2), rest);
    CreatedInStrokes(At(pcbs, q, count), p, 2);
    assert At(pcbs, q, count).queues[2 := q.low + [count + 1]] ==
             [q.ready, [], q.low + [count + 1], q.blocked, q.stopped, q.zombies];
  }

  /** The head of the ready queue blocks. */
  lemma BlockAt(pcbs: map<Pid, Pcb>, q: Queues, count: nat, p: Pid, rest: seq<Pid>, x: Pcb)
    requires q.ready == [p] + rest && p !in q.low && p !in q.blocked && p !in q.stopped && p !in q.zombies &&
             x.status == Blocked
    ensures Moved(At(pcbs, q, count), p, x) == At(pcbs[p := x], q.(ready := rest, blocked := q.blocked + [p]), count)
  {
    assert Without(q.ready, p) == rest;
    WithoutAbsent(q.low, p);
    WithoutAbsent(q.blocked, p);
    WithoutAbsent(q.stopped, p);
    WithoutAbsent(q.zombies, p);
    hide Without;
    assert Without([], p) == [];
    MovedIs(At(pcbs, q, count), p, x, At(pcbs, q.(ready := rest, blocked := q.blocked + [p]), count).queues);
  }

  /** A call after which the caller does not run any more, or its last one. */
  lemma LastCall(s: State, p: Pid, c: Call)
    requires Sound(s) && IsCallable(s, p, c)
    ensures Sound(Called(s, p, c)) && Performed(s, p, [c]) == Called(s, p, c)
  {
    OneCall(s, p, c, []);
    assert [c] + [] == [c];
  }

  /** A pass that finds one process asleep, at the head of the blocked queue. */
  lemma OneAsleep(s: State, x: Pid, rest: seq<Pid>)
    requires Sound(s) && s.queues[BLOCKED] == [x] + rest && x in s.pcbs && s.pcbs[x].sleep > 1
    requires forall j :: 0 <= j < |rest| ==> rest[j] in s.pcbs && rest[j] != x && s.pcbs[rest[j]].sleep == 0
    ensures Ticked(s, 0) == s.(pcbs := s.pcbs[x := s.pcbs[x].(sleep := s.pcbs[x].sleep - 1)])
  {
    var s' := s.(pcbs := s.pcbs[x := s.pcbs[x].(sleep := s.pcbs[x].sleep - 1)]);
    QueueHolds(s, BLOCKED);
    StaySound(s, x, s'.pcbs[x]);
    RestQuiet(s', x, rest, 1);
    hide TreeOk, IsQueue;
  }

  lemma {:induction false} RestQuiet(s: State, x: Pid, rest: seq<Pid>, i: nat)
    requires QueuesOk(s) && s.queues[BLOCKED] == [x] + rest && i > 0
    requires forall j :: 0 <= j < |rest| ==> rest[j] in s.pcbs && s.pcbs[rest[j]].sleep == 0
    ensures Ticked(s, i) == s
    decreases |rest| + 1 - i
  {
    hide IsQueue;
    if i <= |rest| {
      assert s.queues[BLOCKED][i] == rest[i - 1];
      RestQuiet(s, x, rest, i + 1);
    }
  }

  lemma SleeperChoice(m: Machine, pcbs: map<Pid, Pcb>, q: Queues, x: Pid, rest: seq<Pid>)
    requires Sound(m.s) && m.s == At(pcbs, q, m.s.count) && q.ready != [] && (q.low == [] || Slot(m.quantum) != 2)
    requires q.blocked == [x] + rest && x in pcbs && pcbs[x].sleep > 1
    requires forall j :: 0 <= j < |rest| ==> rest[j] in pcbs && rest[j] != x && pcbs[rest[j]].sleep == 0
    ensures var pcbs' := pcbs[x := pcbs[x].(sleep := pcbs[x].sleep - 1)];
            var spawned := m.spawned || 2 in pcbs';
            var q' := Passed(q, spawned);
            && q'.ready != [] && Sound(At(pcbs', q', m.s.count))
            && Chosen(m) == (Machine(At(pcbs', q', m.s.count), m.quantum, spawned, q'.ready[0]), 0)
  {
    hide QueuesOk, TreeOk, Ticked, Slot, Chosen;
    OneAsleep(m.s, x, rest);
    ChoiceAt(m, pcbs[x := pcbs[x].(sleep := pcbs[x].sleep - 1)], q);
  }

  /** The caller is not in any other queue than the ready one. */
  predicate IsOnlyReady(q: Queues, p: Pid, tail: seq<Pid>)
  {
    q.ready == [p] + tail && p !in q.low && p !in q.blocked && p !in q.stopped && p !in q.zombies
  }

  lemma SleepCall(pcbs: map<Pid, Pcb>, q: Queues, count: nat, p: Pid, tail: seq<Pid>, ticks: nat)
    requires Sound(At(pcbs, q, count)) && IsCallable(At(pcbs, q, count), p, Sleep(ticks)) && IsOnlyReady(q, p, tail)
    ensures Performed(At(pcbs, q, count), p, [Sleep(ticks)]) ==
            At(pcbs[p := pcbs[p].(status := Blocked, sleep := 10 * ticks)],
               q.(ready := tail, blocked := q.blocked + [p]), count)
  {
    hide Sound, Performed, Moved;
    LastCall(At(pcbs, q, count), p, Sleep(ticks));
    BlockAt(pcbs, q, count, p, tail, pcbs[p].(status := Blocked, sleep := 10 * ticks));
  }

  /** A wait for a child that has not answered yet. */
  lemma WaitCall(pcbs: map<Pid, Pcb>, q: Queues, count: nat, p: Pid, tail: seq<Pid>, c: Pid)
    requires Sound(At(pcbs, q, count)) && IsCalling(At(pcbs, q, count), p) && IsOnlyReady(q, p, tail)
    requires c > 0 && c in pcbs && pcbs[c].ppid == p && !HasAnswer(pcbs[c])
    ensures Performed(At(pcbs, q, count), p, [Wait(c, false)]) ==
            At(pcbs[p := pcbs[p].(status := Blocked, waited := c)], q.(ready := tail, blocked := q.blocked + [p]),
               count)
  {
    hide Sound, Performed, Moved;
    LastCall(At(pcbs, q, count), p, Wait(c, false));
    var x := pcbs[p].(waited := c);
    BlockAt(pcbs[p := x], q, count, p, tail, x.(status := Blocked));
    assert pcbs[p := x][p := x.(status := Blocked)] == pcbs[p := x.(status := Blocked)];
  }

  /** A wait for a process that is not a child: it is refused, but remembered. */
  lemma ForeignCall(pcbs: map<Pid, Pcb>, q: Queues, count: nat, p: Pid, c: Pid, rest: seq<Call>)
    requires Sound(At(pcbs, q, count)) && IsCalling(At(pcbs, q, count), p) && c > 0 && c in pcbs && pcbs[c].ppid != p
    ensures var s := At(pcbs[p := pcbs[p].(waited := c)], q, count);
            Sound(s) && Performed(At(pcbs, q, count), p, [Wait(c, false)] + rest) == Performed(s, p, rest)
  {
    hide Sound, Performed;
    OneCall(At(pcbs, q, count), p, Wait(c, false), rest);
  }

  // ---- a wait for a process that is not a child ----

  function Born(ppid: Pid, children: seq<Pid>): Pcb
  {
    Pcb(ppid, Running, 0, 0, -2, children)
  }

  lemma BootIs()
    ensures Sound(Boot(0).s)
    ensures Boot(0) == Machine(At(map[1 := Born(1, [])], Queues([1], [], [], [], []), 1), 0, false, 0)
  {
    BootOk(0);
    assert [[], [], [], [], [], []][0 := [1]] == [[1], [], [], [], [], []];
  }

  /** Init creates the shell. */
  lemma ShellCalls(p0: map<Pid, Pcb>) returns (pcbs: map<Pid, Pcb>)
    requires p0 == map[1 := Born(1, [])] && Sound(At(p0, Queues([1], [], [], [], []), 1))
    ensures Performed(At(p0, Queues([1], [], [], [], []), 1), 1, [Create(0)]) ==
              At(pcbs, Queues([1, 2], [], [], [], []), 2)
    ensures pcbs.Keys == {1, 2} && pcbs[1] == Born(1, [2]) && pcbs[2] == Born(1, [])
  {
    hide Sound, Performed;
    CreateHigh(p0, Queues([1], [], [], [], []), 1, 1, []);
    pcbs := WithChild(p0, 1, 2, 0);
    assert [Create(0)] + [] == [Create(0)] && [1] + [2] == [1, 2] && [] + [2] == [2];
    NoCall(At(pcbs, Queues([1, 2], [], [], [], []), 2), 1);
  }

  lemma ShellTurn() returns (pcbs: map<Pid, Pcb>)
    ensures Sound(Boot(0).s) && Turn(Boot(0), [Create(0)]) ==
              Machine(At(pcbs, Queues([2, 1], [], [], [], []), 2), 1, false, 1)
    ensures pcbs.Keys == {1, 2} && pcbs[1] == Born(1, [2]) && pcbs[2] == Born(1, [])
  {
    hide Sound, Ticked, Slot, Chosen, Performed, Turn, Boot;
    BootIs();
    var q := Queues([1], [], [], [], []);
    QuietChoice(Boot(0), Boot(0).s.pcbs, q);
    pcbs := ShellCalls(Boot(0).s.pcbs);
    TurnAt(Boot(0), Boot(0).s, 1, [Create(0)], pcbs, q.(ready := [1, 2]), 2);
    assert Rotated([1, 2]) == [2, 1];
  }

  lemma NoCall(s: State, p: Pid)
    requires Sound(s) && p in s.pcbs
    ensures Performed(s, p, []) == s
  {
  }

  /** The shell creates two children. */
  lemma ChildrenCalls(p0: map<Pid, Pcb>) returns (pcbs: map<Pid, Pcb>)
    requires p0.Keys == {1, 2} && p0[1] == Born(1, [2]) && p0[2] == Born(1, []) &&
             Sound(At(p0, Queues([2, 1], [], [], [], []), 2))
    ensures Performed(At(p0, Queues([2, 1], [], [], [], []), 2), 2, [Create(0), Create(0)]) ==
              At(pcbs, Queues([2, 1, 3, 4], [], [], [], []), 4)
    ensures pcbs.Keys == {1, 2, 3, 4} && pcbs[1] == Born(1, [2]) && pcbs[2] == Born(1, [3, 4]) &&
            pcbs[3] == pcbs[4] == Born(2, [])
  {
    hide Sound, Performed;
    assert [Create(0), Create(0)] == [Create(0)] + ([Create(0)] + []);
    assert [2, 1] + [3] == [2, 1, 3] && [2, 1, 3] + [4] == [2, 1, 3, 4] && [] + [3] == [3] && [3] + [4] == [3, 4];
    CreateHigh(p0, Queues([2, 1], [], [], [], []), 2, 2, [Create(0)] + []);
    var p1 := WithChild(p0, 2, 3, 0);
    CreateHigh(p1, Queues([2, 1, 3], [], [], [], []), 3, 2, []);
    pcbs := WithChild(p1, 2, 4, 0);
    NoCall(At(pcbs, Queues([2, 1, 3, 4], [], [], [], []), 4), 2);
  }

  lemma ChildrenTurn(m: Machine, p0: map<Pid, Pcb>) returns (pcbs: map<Pid, Pcb>)
    requires Sound(m.s) && m == Machine(At(p0, Queues([2, 1], [], [], [], []), 2), 1, false, 1)
    requires p0.Keys == {1, 2} && p0[1] == Born(1, [2]) && p0[2] == Born(1, [])
    ensures Turn(m, [Create(0), Create(0)]) == Machine(At(pcbs, Queues([1, 3, 4, 2], [], [], [], []), 4), 2, true, 2)
    ensures pcbs.Keys == {1, 2, 3, 4} && pcbs[1] == Born(1, [2]) && pcbs[2] == Born(1, [3, 4]) &&
            pcbs[3] == pcbs[4] == Born(2, [])
  {
    hide Sound, Ticked, Slot, Chosen, Performed, Turn;
    QuietChoice(m, p0, Queues([2, 1], [], [], [], []));
    pcbs := ChildrenCalls(p0);
    TurnAt(m, m.s, 2, [Create(0), Create(0)], pcbs, Queues([2, 1, 3, 4], [], [], [], []), 4);
    assert Rotated([2, 1, 3, 4]) == [1, 3, 4, 2];
  }

  /** One of them waits for the other, which is refused, and goes to sleep. */
  lemma SiblingCalls(p0: map<Pid, Pcb>)
    requires p0.Keys == {1, 2, 3, 4} && p0[3] == p0[4] == Born(2, []) &&
             Sound(At(p0, Queues([3, 4, 2, 1], [], [], [], []), 4))
    ensures Performed(At(p0, Queues([3, 4, 2, 1], [], [], [], []), 4), 3, [Wait(4, false), Sleep(5)]) ==
            At(p0[3 := Pcb(2, Blocked, 0, 50, 4, [])], Queues([4, 2, 1], [], [3], [], []), 4)
  {
    hide Sound, Performed;
    var q := Queues([3, 4, 2, 1], [], [], [], []);
    assert [Wait(4, false), Sleep(5)] == [Wait(4, false)] + [Sleep(5)] && [3, 4, 2, 1] == [3] + [4, 2, 1] &&
           [] + [3] == [3];
    ForeignCall(p0, q, 4, 3, 4, [Sleep(5)]);
    var p1 := p0[3 := p0[3].(waited := 4)];
    SleepCall(p1, q, 4, 3, [4, 2, 1], 5);
    assert p1[3 := Pcb(2, Blocked, 0, 50, 4, [])] == p0[3 := Pcb(2, Blocked, 0, 50, 4, [])];
  }

  lemma SiblingTurn(m: Machine, p0: map<Pid, Pcb>)
    requires Sound(m.s) && m == Machine(At(p0, Queues([1, 3, 4, 2], [], [], [], []), 4), 2, true, 2)
    requires p0.Keys == {1, 2, 3, 4} && p0[3] == p0[4] == Born(2, [])
    ensures Turn(m, [Wait(4, false), Sleep(5)]) ==
            Machine(At(p0[3 := Pcb(2, Blocked, 0, 50, 4, [])], Queues([2, 1, 4], [], [3], [], []), 4), 3, true, 3)
  {
    hide Sound, Ticked, Slot, Chosen, Performed, Turn;
    QuietChoice(m, p0, Queues([1, 3, 4, 2], [], [], [], []));
    assert Rotated([1, 3, 4, 2]) == [3, 4, 2, 1];
    SiblingCalls(p0);
    TurnAt(m, At(p0, Queues([3, 4, 2, 1], [], [], [], []), 4), 3, [Wait(4, false), Sleep(5)],
           p0[3 := Pcb(2, Blocked, 0, 50, 4, [])], Queues([4, 2, 1], [], [3], [], []), 4);
    assert Rotated([4, 2, 1]) == [2, 1, 4];
  }

  /** The shell waits for the child that the other one has asked for. */
  lemma ParentCalls(p0: map<Pid, Pcb>)
    requires p0.Keys == {1, 2, 3, 4} && p0[2] == Born(1, [3, 4]) && p0[4] == Born(2, [])
    requires Sound(At(p0, Queues([2, 1, 4], [], [3], [], []), 4))
    ensures Performed(At(p0, Queues([2, 1, 4], [], [3], [], []), 4), 2, [Wait(4, false)]) ==
            At(p0[2 := Pcb(1, Blocked, 0, 0, 4, [3, 4])], Queues([1, 4], [], [3, 2], [], []), 4)
  {
    hide Sound, Performed;
    assert [2, 1, 4] == [2] + [1, 4] && [3] + [2] == [3, 2];
    WaitCall(p0, Queues([2, 1, 4], [], [3], [], []), 4, 2, [1, 4], 4);
  }

  lemma ParentTurn(m: Machine, p0: map<Pid, Pcb>) returns (pcbs: map<Pid, Pcb>)
    requires Sound(m.s) && m == Machine(At(p0, Queues([2, 1, 4], [], [3], [], []), 4), 3, true, 3)
    requires p0.Keys == {1, 2, 3, 4} && p0[2] == Born(1, [3, 4]) && p0[4] == Born(2, []) &&
             p0[3] == Pcb(2, Blocked, 0, 50, 4, [])
    ensures Turn(m, [Wait(4, false)]) == Machine(At(pcbs, Queues([4, 1], [], [3, 2], [], []), 4), 4, true, 2)
    ensures pcbs == p0[3 := Pcb(2, Blocked, 0, 49, 4, [])][2 := Pcb(1, Blocked, 0, 0, 4, [3, 4])]
  {
    hide Sound, Ticked, Slot, Chosen, Performed, Turn;
    var q := Queues([2, 1, 4], [], [3], [], []);
    assert [3] == [3] + [];
    SleeperChoice(m, p0, q, 3, []);
    var p1 := p0[3 := Pcb(2, Blocked, 0, 49, 4, [])];
    ParentCalls(p1);
    pcbs := p1[2 := Pcb(1, Blocked, 0, 0, 4, [3, 4])];
    TurnAt(m, At(p1, q, 4), 2, [Wait(4, false)], pcbs, Queues([1, 4], [], [3, 2], [], []), 4);
    assert Rotated([1, 4]) == [4, 1];
  }

  /** The run so far. */
  lemma ForeignRun(script: seq<seq<Call>>) returns (pcbs: map<Pid, Pcb>)
    requires script == [[Create(0)], [Create(0), Create(0)], [Wait(4, false), Sleep(5)], [Wait(4, false)]]
    ensures Sound(Boot(0).s) && RunOf(Boot(0), script) ==
              Machine(At(pcbs, Queues([4, 1], [], [3, 2], [], []), 4), 4, true, 2)
    ensures pcbs.Keys == {1, 2, 3, 4} && pcbs[1] == Born(1, [2]) && pcbs[2] == Pcb(1, Blocked, 0, 0, 4, [3, 4])
    ensures pcbs[3] == Pcb(2, Blocked, 0, 49, 4, []) && pcbs[4] == Born(2, [])
  {
    hide Sound, Turn, Boot;
    var p1 := ShellTurn();
    var m := Boot(0);
    NextTurn(m, [], [Create(0)]);
    var m1 := Turn(m, [Create(0)]);
    var p2 := ChildrenTurn(m1, p1);
    NextTurn(m, [[Create(0)]], [Create(0), Create(0)]);
    var m2 := Turn(m1, [Create(0), Create(0)]);
    SiblingTurn(m2, p2);
    NextTurn(m, [[Create(0)], [Create(0), Create(0)]], [Wait(4, false), Sleep(5)]);
    var p3 := p2[3 := Pcb(2, Blocked, 0, 50, 4, [])];
    pcbs := ParentTurn(Turn(m2, [Wait(4, false), Sleep(5)]), p3);
    NextTurn(m, [[Create(0)], [Create(0), Create(0)], [Wait(4, false), Sleep(5)]], [Wait(4, false)]);
    RunNothing(m);
    assert script == [[Create(0)], [Create(0), Create(0)], [Wait(4, false), Sleep(5)]] + [[Wait(4, false)]];
    assert [[Create(0)], [Create(0), Create(0)], [Wait(4, false), Sleep(5)]] ==
             [[Create(0)], [Create(0), Create(0)]] + [[Wait(4, false), Sleep(5)]];
    assert [[Create(0)], [Create(0), Create(0)]] == [[Create(0)]] + [[Create(0), Create(0)]];
    assert [[Create(0)]] == [] + [[Create(0)]];
  }

  lemma NextTurn(m: Machine, script: seq<seq<Call>>, calls: seq<Call>)
    requires Sound(m.s)
    ensures RunOf(m, script + [calls]) == Turn(RunOf(m, script), calls)
  {
    assert (script + [calls])[..|script|] == script;
  }

  lemma RunNothing(m: Machine)
    requires Sound(m.s)
    ensures RunOf(m, []) == m
  {
  }

  /**
   A run from the start of the kernel that loses a wakeup: a process asks for a sibling and
   sleeps, the parent waits for that sibling, and when it exits the sleeper is woken instead.
   */
  lemma ForeignWaitMisses() returns (script: seq<seq<Call>>)
    ensures Sound(Boot(0).s)
    ensures var (m, t) := Chosen(RunOf(Boot(0), script));
            && t != -1 && m.current == 4 && IsCallable(m.s, 4, Exit(4)) && INIT in m.s.pcbs
            && !IsWaiting(m.s.pcbs[INIT])
            && AwakeOk(m.s.pcbs) && !AwakeOk(Called(m.s, 4, Exit(4)).pcbs)
  {
    hide QueuesOk, TreeOk, RunOf, Boot, Slot, Chosen, Ticked, Exited;
    script := [[Create(0)], [Create(0), Create(0)], [Wait(4, false), Sleep(5)], [Wait(4, false)]];
    var pcbs := ForeignRun(script);
    var q := Queues([4, 1], [], [3, 2], [], []);
    assert [3, 2] == [3] + [2];
    SleeperChoice(RunOf(Boot(0), script), pcbs, q, 3, [2]);
    var p1 := pcbs[3 := Pcb(2, Blocked, 0, 48, 4, [])];
    var s := At(p1, q, 4);
    ForeignIsAwake(p1);
    assert Without([3, 2], 4) == [3, 2];
    assert WokenBy(s, 4) == 3;
    ExitLosesNoWakeup(s, 4);
  }

  lemma ForeignIsAwake(pcbs: map<Pid, Pcb>)
    requires pcbs.Keys == {1, 2, 3, 4} && pcbs[1] == Born(1, [2]) && pcbs[2] == Pcb(1, Blocked, 0, 0, 4, [3, 4])
    requires pcbs[3] == Pcb(2, Blocked, 0, 48, 4, []) && pcbs[4] == Born(2, [])
    ensures AwakeOk(pcbs)
  {
  }

  // ---- an init that blocks ----

  lemma NoAnswer(pcbs: map<Pid, Pcb>, children: seq<Pid>)
    requires forall j :: 0 <= j < |children| ==> children[j] in pcbs && !HasAnswer(pcbs[children[j]])
    ensures FirstAnswer(pcbs, children) == |children|
  {
  }

  /** A wait for any child when none has answered yet. */
  lemma WaitAnyCall(pcbs: map<Pid, Pcb>, q: Queues, count: nat, p: Pid, tail: seq<Pid>)
    requires Sound(At(pcbs, q, count)) && IsCalling(At(pcbs, q, count), p) && IsOnlyReady(q, p, tail)
    requires pcbs[p].children != [] && forall c :: c in pcbs[p].children && c in pcbs ==> !HasAnswer(pcbs[c])
    ensures Performed(At(pcbs, q, count), p, [Wait(-1, false)]) ==
            At(pcbs[p := pcbs[p].(status := Blocked, waited := -1)], q.(ready := tail, blocked := q.blocked + [p]),
               count)
  {
    hide QueuesOk, TreeOk, Performed, Moved;
    LastCall(At(pcbs, q, count), p, Wait(-1, false));
    TreeAt(pcbs, count, p);
    ChildrenIn(pcbs, p);
    var children := pcbs[p].children;
    assert forall j :: 0 <= j < |children| ==> children[j] in children;
    NoAnswer(pcbs, children);
    var x := pcbs[p].(waited := -1);
    BlockAt(pcbs[p := x], q, count, p, tail, x.(status := Blocked));
    assert pcbs[p := x][p := x.(status := Blocked)] == pcbs[p := x.(status := Blocked)];
  }

  /** Init creates the shell and waits for it. */
  lemma InitCalls(p0: map<Pid, Pcb>) returns (pcbs: map<Pid, Pcb>)
    requires p0 == map[1 := Born(1, [])] && Sound(At(p0, Queues([1], [], [], [], []), 1))
    ensures Performed(At(p0, Queues([1], [], [], [], []), 1), 1, [Create(0), Wait(-1, false)]) ==
            At(pcbs, Queues([2], [], [1], [], []), 2)
    ensures pcbs.Keys == {1, 2} && pcbs[1] == Pcb(1, Blocked, 0, 0, -1, [2]) && pcbs[2] == Born(1, [])
  {
    hide Sound, Performed;
    CreateHigh(p0, Queues([1], [], [], [], []), 1, 1, [Wait(-1, false)]);
    var p1 := WithChild(p0, 1, 2, 0);
    assert p1[1] == Born(1, [2]);
    assert [Create(0)] + [Wait(-1, false)] == [Create(0), Wait(-1, false)] && [1] + [2] == [1, 2] && [] + [2] == [2];
    WaitAnyCall(p1, Queues([1, 2], [], [], [], []), 2, 1, [2]);
    assert [] + [1] == [1];
    pcbs := p1[1 := Pcb(1, Blocked, 0, 0, -1, [2])];
  }

  lemma InitTurn() returns (pcbs: map<Pid, Pcb>)
    ensures Sound(Boot(0).s)
    ensures Turn(Boot(0), [Create(0), Wait(-1, false)]) ==
              Machine(At(pcbs, Queues([2], [], [1], [], []), 2), 1, false, 1)
    ensures pcbs.Keys == {1, 2} && pcbs[1] == Pcb(1, Blocked, 0, 0, -1, [2]) && pcbs[2] == Born(1, [])
  {
    hide Sound, Ticked, Slot, Chosen, Performed, Turn, Boot;
    BootIs();
    var q := Queues([1], [], [], [], []);
    QuietChoice(Boot(0), Boot(0).s.pcbs, q);
    pcbs := InitCalls(Boot(0).s.pcbs);
    TurnAt(Boot(0), Boot(0).s, 1, [Create(0), Wait(-1, false)], pcbs, Queues([2], [], [1], [], []), 2);
    assert Rotated([2]) == [2];
  }

  /** The shell creates a child. */
  lemma OrphanCalls(p0: map<Pid, Pcb>) returns (pcbs: map<Pid, Pcb>)
    requires p0.Keys == {1, 2} && p0[1] == Pcb(1, Blocked, 0, 0, -1, [2]) && p0[2] == Born(1, [])
    requires Sound(At(p0, Queues([2], [], [1], [], []), 2))
    ensures Performed(At(p0, Queues([2], [], [1], [], []), 2), 2, [Create(0)]) ==
              At(pcbs, Queues([2, 3], [], [1], [], []), 3)
    ensures pcbs.Keys == {1, 2, 3} && pcbs[1] == p0[1] && pcbs[2] == Born(1, [3]) && pcbs[3] == Born(2, [])
  {
    hide Sound, Performed;
    CreateHigh(p0, Queues([2], [], [1], [], []), 2, 2, []);
    pcbs := WithChild(p0, 2, 3, 0);
    assert [Create(0)] + [] == [Create(0)] && [2] + [3] == [2, 3] && [] + [3] == [3];
    NoCall(At(pcbs, Queues([2, 3], [], [1], [], []), 3), 2);
  }

  lemma OrphanTurn(m: Machine, p0: map<Pid, Pcb>) returns (pcbs: map<Pid, Pcb>)
    requires Sound(m.s) && m == Machine(At(p0, Queues([2], [], [1], [], []), 2), 1, false, 1)
    requires p0.Keys == {1, 2} && p0[1] == Pcb(1, Blocked, 0, 0, -1, [2]) && p0[2] == Born(1, [])
    ensures Turn(m, [Create(0)]) == Machine(At(pcbs, Queues([3, 2], [], [1], [], []), 3), 2, true, 2)
    ensures pcbs.Keys == {1, 2, 3} && pcbs[1] == p0[1] && pcbs[2] == Born(1, [3]) && pcbs[3] == Born(2, [])
  {
    hide Sound, Ticked, Slot, Chosen, Performed, Turn;
    QuietChoice(m, p0, Queues([2], [], [1], [], []));
    pcbs := OrphanCalls(p0);
    TurnAt(m, m.s, 2, [Create(0)], pcbs, Queues([2, 3], [], [1], [], []), 3);
    assert Rotated([2, 3]) == [3, 2];
  }

  lemma BlockedRun() returns (pcbs: map<Pid, Pcb>)
    ensures Sound(Boot(0).s)
    ensures RunOf(Boot(0), [[Create(0), Wait(-1, false)], [Create(0)]]) ==
            Machine(At(pcbs, Queues([3, 2], [], [1], [], []), 3), 2, true, 2)
    ensures pcbs.Keys == {1, 2, 3} && pcbs[1] == Pcb(1, Blocked, 0, 0, -1, [2])
    ensures pcbs[2] == Born(1, [3]) && pcbs[3] == Born(2, [])
  {
    hide Sound, Turn, Boot;
    var p1 := InitTurn();
    NextTurn(Boot(0), [], [Create(0), Wait(-1, false)]);
    RunNothing(Boot(0));
    var m1 := Turn(Boot(0), [Create(0), Wait(-1, false)]);
    pcbs := OrphanTurn(m1, p1);
    NextTurn(Boot(0), [[Create(0), Wait(-1, false)]], [Create(0)]);
    assert [[Create(0), Wait(-1, false)], [Create(0)]] == [[Create(0), Wait(-1, false)]] + [[Create(0)]];
    assert [[Create(0), Wait(-1, false)]] == [] + [[Create(0), Wait(-1, false)]];
  }

  /** A process that nobody is blocked for terminates. */
  lemma ExitUnnoticed(s: State, p: Pid, x: Pid)
    requires Sound(s) && IsCallable(s, p, Exit(x)) && forall w :: w in s.pcbs && s.pcbs[w].status == Blocked ==>
               !Matches(s.pcbs[w], x)
    ensures Sound(Exited(s, x)) && Performed(s, p, [Exit(x)]) == Exited(s, x)
    ensures WokenBy(s, x) == x && ExitTable(s.pcbs, Exited(s, x).pcbs, x, x)
  {
    hide QueuesOk, TreeOk, Performed, Exited, ExitTable, WokenBy, Moved, WakeWaiter;
    LastCall(s, p, Exit(x));
    PriorityOk(s, x);
    WakesFirst(s, x, Dead(s.pcbs[x]));
    ExitWakesFirst(s, x);
  }

  /** A child of the shell creates a process and ends it. */
  lemma LastCalls(p0: map<Pid, Pcb>) returns (s: State)
    requires p0.Keys == {1, 2, 3} && p0[1] == Pcb(1, Blocked, 0, 0, -1, [2]) && p0[2] == Born(1, [3]) &&
             p0[3] == Born(2, [])
    requires Sound(At(p0, Queues([3, 2], [], [1], [], []), 3))
    ensures Sound(s) && Performed(At(p0, Queues([3, 2], [], [1], [], []), 3), 3, [Create(0), Exit(4)]) == s
    ensures s.pcbs.Keys == {1, 2, 3, 4} && s.pcbs[1] == p0[1] && s.pcbs[2] == p0[2] && s.pcbs[3] == Born(2, [4])
    ensures s.pcbs[4] == Dead(Born(3, []))
  {
    hide Sound, Performed, Exited;
    CreateHigh(p0, Queues([3, 2], [], [1], [], []), 3, 3, [Exit(4)]);
    assert [Create(0)] + [Exit(4)] == [Create(0), Exit(4)] && [3, 2] + [4] == [3, 2, 4] && [] + [4] == [4];
    s := OrphanEnds(WithChild(p0, 3, 4, 0));
  }

  lemma OrphanEnds(p1: map<Pid, Pcb>) returns (s: State)
    requires p1.Keys == {1, 2, 3, 4} && p1[1] == Pcb(1, Blocked, 0, 0, -1, [2]) && p1[2] == Born(1, [3])
    requires p1[3] == Born(2, [4]) && p1[4] == Born(3, []) && Sound(At(p1, Queues([3, 2, 4], [], [1], [], []), 4))
    ensures Sound(s) && Performed(At(p1, Queues([3, 2, 4], [], [1], [], []), 4), 3, [Exit(4)]) == s
    ensures s.pcbs.Keys == {1, 2, 3, 4} && s.pcbs[1] == p1[1] && s.pcbs[2] == p1[2] && s.pcbs[3] == p1[3]
    ensures s.pcbs[4] == Dead(Born(3, []))
  {
    hide Sound, Performed, Exited, WokenBy;
    ExitUnnoticed(At(p1, Queues([3, 2, 4], [], [1], [], []), 4), 3, 4);
    s := Exited(At(p1, Queues([3, 2, 4], [], [1], [], []), 4), 4);
    assert p1[4].children == [];
  }

  /**
   A run from the start of the kernel in which init blocks, and then inherits a child that has
   already terminated: nobody wakes init.
   */
  lemma BlockedInitMisses() returns (script: seq<seq<Call>>, calls: seq<Call>)
    ensures Sound(Boot(0).s)
    ensures var (m, t) := Chosen(RunOf(Boot(0), script));
            && t != -1 && m.current == 3
            && var s := Performed(m.s, 3, calls);
               IsCallable(s, 3, Exit(3)) && AwakeOk(s.pcbs) && !AwakeOk(Called(s, 3, Exit(3)).pcbs)
  {
    hide QueuesOk, TreeOk, RunOf, Boot, Slot, Chosen, Ticked, Exited, Performed, WokenBy;
    script, calls := [[Create(0), Wait(-1, false)], [Create(0)]], [Create(0), Exit(4)];
    var pcbs := BlockedRun();
    QuietChoice(RunOf(Boot(0), script), pcbs, Queues([3, 2], [], [1], [], []));
    var s := LastCalls(pcbs);
    ExitUnnoticed(s, 3, 3);
    ExitLosesNoWakeup(s, 3);
  }
}

/**
 The scheduler as a function on the state of the machine: one turn of `run_scheduler` is a
 timer pass, the choice of a process, the calls that it makes, and the rotation of its queue.
 */
module Schedule {
  import opened Processes
  import opened KernelSteps
  import opened KernelCalls

  /** Which ready queue each quantum of a round of 19 belongs to. */
  const TABLE: seq<nat> := [0, 0, 1, 0, 0, 1, 2, 0, 1, 1, 0, 0, 1, 2, 0, 2, 1, 0, 2]

  function Slot(quantum: nat): (q: nat)
    ensures q < 3
  {
    TABLE[quantum % 19]
  }

  function Select(ready: seq<seq<Pid>>, quantum: nat): (t: int)
    requires |ready| == 3
    ensures t == -1 || (0 <= t < 3 && ready[t] != [])
  {
    if ready[Slot(quantum)] != [] then Slot(quantum)
    else if ready[0] != [] then 0
    else if ready[1] != [] then 1
    else if ready[2] != [] then 2
    else -1
  }

  // ---- a turn ----

  /** `spawned` says that the shell has been seen; `current` is the process that ran last. */
  datatype Machine = Machine(s: State, quantum: nat, spawned: bool, current: Pid)

  /** The machine with init alone. */
  function Boot(priority: nat): Machine
    requires priority < 3
  {
    Machine(State(map[INIT := Newborn(INIT, priority)], [[], [], [], [], [], []][priority := [INIT]], 1), 0, false, 0)
  }

  lemma BootOk(priority: nat)
    requires priority < 3
    ensures Inv(Boot(priority).s) && Sound(Boot(priority).s)
  {
  }

  lemma {:induction false} TickSound(s: State, i: nat)
    requires Sound(s)
    ensures Sound(Ticked(s, i)) && Ticked(s, i).pcbs.Keys == s.pcbs.Keys && Ticked(s, i).count == s.count
    decreases |s.queues[BLOCKED]| - i
  {
    hide TreeOk, IsQueue, Moved;
    QueueHolds(s, BLOCKED);
    var q := s.queues[BLOCKED];
    if i < |q| {
      var x := s.pcbs[q[i]];
      if x.sleep == 0 {
        TickSound(s, i + 1);
      } else if x.sleep > 1 {
        StaySound(s, q[i], x.(sleep := x.sleep - 1));
        TickSound(s.(pcbs := s.pcbs[q[i] := x.(sleep := x.sleep - 1)]), i + 1);
      } else {
        MoveSound(s, q[i], Woken(x.(sleep := 0)));
        MovedKeys(s, q[i], Woken(x.(sleep := 0)));
      }
    }
  }

  lemma RotateSound(s: State, k: nat)
    requires Sound(s) && k < 6
    ensures Sound(RotatedState(s, k))
  {
    hide TreeOk;
    RotateQueuesOk(s, k);
  }

  /** Init is passed over when there is nothing to collect. */
  predicate SkipsInit(s: State, spawned: bool)
    requires |s.queues| == 6
  {
    s.queues[ZOMBIES] == [] && spawned
  }

  /** The state when the chosen process is about to run, and its queue; -1 if there is none. */
  function Chosen(m: Machine): (r: (Machine, int))
    requires Sound(m.s)
    ensures Sound(r.0.s) && (r.1 != -1 ==>
                             0 <= r.1 < 3 && r.0.s.queues[r.1] != [] && r.0.current == r.0.s.queues[r.1][0])
    ensures r.1 != -1 ==> IsCalling(r.0.s, r.0.current) && r.0.s.pcbs[r.0.current].priority == r.1
    ensures r.0.quantum == m.quantum
  {
    TickSound(m.s, 0);
    var s := Ticked(m.s, 0);
    var spawned := m.spawned || 2 in s.pcbs;
    var t := Select(s.queues[..3], m.quantum);
    if t == -1 then (Machine(s, m.quantum, spawned, m.current), -1)
    else
      RotateSound(s, t);
      var s' := if s.queues[t][0] == INIT && SkipsInit(s, spawned) then RotatedState(s, t) else s;
      HeadRuns(s', t);
      (Machine(s', m.quantum, spawned, s'.queues[t][0]), t)
  }

  lemma HeadRuns(s: State, t: nat)
    requires QueuesOk(s) && t < 3 && s.queues[t] != []
    ensures s.queues[t][0] in s.pcbs && s.pcbs[s.queues[t][0]].status == Running && s.pcbs[s.queues[t][0]].priority == t
  {
    QueueHolds(s, t);
  }

  /** The calls of the process that runs; it makes no further call once it does not run any more. */
  function Performed(s: State, p: Pid, calls: seq<Call>): (r: State)
    requires Sound(s) && p in s.pcbs
    ensures Sound(r) && p in r.pcbs
    decreases |calls|
  {
    if calls == [] then s
    else if IsCallable(s, p, calls[0]) then
      CalledSound(s, p, calls[0]);
      Performed(Called(s, p, calls[0]), p, calls[1..])
    else Performed(s, p, calls[1..])
  }

  /** The end of a quantum. */
  function Finished(s: State, p: Pid, t: nat): (r: State)
    requires Sound(s) && p in s.pcbs && t < 3
    ensures Sound(r)
  {
    RotateSound(s, t);
    if HasAnswer(s.pcbs[p]) then s else RotatedState(s, t)
  }

  function Turn(m: Machine, calls: seq<Call>): (r: Machine)
    requires Sound(m.s)
    ensures Sound(r.s)
  {
    var (m', t) := Chosen(m);
    if t == -1 then m'
    else m'.(s := Finished(Performed(m'.s, m'.current, calls), m'.current, t), quantum := m.quantum + 1)
  }

  /** A run: the calls of the process that each turn chooses. */
  function RunOf(m: Machine, script: seq<seq<Call>>): (r: Machine)
    requires Sound(m.s)
    ensures Sound(r.s)
  {
    if script == [] then m else Turn(RunOf(m, script[..|script| - 1]), script[|script| - 1])
  }
}

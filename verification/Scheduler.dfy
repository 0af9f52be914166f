/** The user-level scheduler and context hand-off of libOS/sched.cpp and libOS/user_thread.cpp.

    Each lock-protected critical section, and each atomic access to `contextGood` or `fcxt`, is one
    step of one CPU.  `runner`, `holder`, `mark` and `clock` are history variables that no step reads:
    which CPU made a thread current, which CPU holds its live or half-saved context, and the order in
    which CPUs marked their previous thread not-running. */
module Scheduler {
  import opened Basics

  type Tid = nat
  type CpuId = nat

  datatype Thread = Thread(
    onQueue: bool,
    running: bool,
    queue: Option<CpuId>,
    oldQueue: Option<CpuId>,
    fcxt: bool,
    contextGood: bool,
    runner: Option<CpuId>,
    holder: Option<CpuId>)

  /** What a CPU is doing: thread code, `watchListCheck`, the rest of `schedule`, or `jumpTo`. */
  datatype Cpu =
    | Running(cur: Option<Tid>)
    | Checking(cur: Option<Tid>, at: nat)
    | Picking(prev: Option<Tid>, mark: nat, balanced: bool)
    | Balancing(prev: Option<Tid>, mark: nat, from: nat)
    | Jumping(prev: Option<Tid>, mark: nat, next: Tid)
    | Loaded(prev: Option<Tid>, mark: nat, next: Tid)
    | Saving(prev: Option<Tid>, mark: nat, next: Tid, stored: bool)

  datatype State = State(
    cpus: seq<Cpu>,
    runq: seq<seq<Tid>>,
    idle: seq<Tid>,
    threads: map<Tid, Thread>,
    clock: nat)

  const Fresh := Thread(false, false, None, None, true, true, None, None)

  /** Every CPU on its boot stack, with its idle thread made; no other thread exists. */
  function Boot(idle: seq<Tid>): State {
    State(seq(|idle|, c => Running(None)), seq(|idle|, c => []), idle, map t | t in idle :: Fresh, 0)
  }

  function SetCpu(s: State, c: CpuId, cpu: Cpu): State
    requires c < |s.cpus|
  {
    s.(cpus := s.cpus[c := cpu])
  }

  function SetThread(s: State, t: Tid, th: Thread): State {
    s.(threads := s.threads[t := th])
  }

  function Push(s: State, c: CpuId, t: Tid): State
    requires c < |s.runq|
  {
    s.(runq := s.runq[c := s.runq[c] + [t]])
  }

  predicate IsIdle(s: State, t: Tid) { t in s.idle }

  predicate InThreadCode(cpu: Cpu) { cpu.Running? || cpu.Checking? }

  // ---------------------------------------------------------------- the operations

  /** Creates a thread whose initial context is ready (libos_clone before its enqueueTask). */
  function Spawn(s: State, t: Tid): State {
    SetThread(s, t, Fresh)
  }

  /** `enqueueTask(t)` executed by CPU `c`. */
  function EnqueueTask(s: State, c: CpuId, t: Tid): State
    requires c < |s.runq| && t in s.threads
  {
    var th := s.threads[t];
    if !th.running && !th.onQueue then
      SetThread(Push(s, c, t), t, th.(queue := Some(c), oldQueue := None, onQueue := true))
    else
      SetThread(s, t, th.(queue := th.oldQueue, oldQueue := None, onQueue := true))
  }

  /** `dequeueTask(t)`; the caller passes its own current thread. */
  function DequeueTask(s: State, t: Tid): State
    requires t in s.threads && s.threads[t].queue.Some? && s.threads[t].queue.value < |s.runq|
  {
    var th := s.threads[t];
    var q := th.queue.value;
    var s1 := if th.onQueue && !th.running then s.(runq := s.runq[q := Remove(s.runq[q], t)]) else s;
    SetThread(s1, t, th.(oldQueue := th.queue, queue := None, onQueue := false))
  }

  /** Entering `schedule`, voluntarily or from the injected preemption. */
  function StartSchedule(s: State, c: CpuId): State
    requires c < |s.cpus| && s.cpus[c].Running?
  {
    SetCpu(s, c, Checking(s.cpus[c].cur, 0))
  }

  /** `schedule` puts a still-runnable current thread back on its home queue and marks it not running. */
  function MarkNotRunning(s: State, c: CpuId): State
    requires c < |s.cpus| && s.cpus[c].Checking?
    requires s.cpus[c].cur.Some? ==>
               && s.cpus[c].cur.value in s.threads
               && var th := s.threads[s.cpus[c].cur.value];
                  th.onQueue ==> th.queue.Some? && th.queue.value < |s.runq|
  {
    var s1 := SetCpu(s, c, Picking(s.cpus[c].cur, s.clock, false)).(clock := s.clock + 1);
    if s.cpus[c].cur.None? then s1
    else
      var t := s.cpus[c].cur.value;
      var th := s.threads[t];
      var s2 := if th.onQueue then Push(s1, th.queue.value, t) else s1;
      SetThread(s2, t, th.(running := false, runner := None))
  }

  /** Makes `t` current: a jump, or a plain return when it is the previous thread itself. */
  function Select(s: State, c: CpuId, t: Tid): State
    requires c < |s.cpus| && s.cpus[c].Picking?
  {
    var p := s.cpus[c];
    if p.prev == Some(t) then SetCpu(s, c, Running(Some(t))) else SetCpu(s, c, Jumping(p.prev, p.mark, t))
  }

  /** `schedule` looks at its own run queue: front, else balance once, else the idle thread. */
  function PickNext(s: State, c: CpuId): State
    requires c < |s.cpus| && s.cpus[c].Picking? && c < |s.runq| && c < |s.idle|
    requires s.runq[c] != [] ==> s.runq[c][0] in s.threads
    requires s.idle[c] in s.threads
  {
    var p := s.cpus[c];
    if s.runq[c] != [] then
      var t := s.runq[c][0];
      Select(SetThread(s.(runq := s.runq[c := s.runq[c][1..]]), t, s.threads[t].(running := true, runner := Some(c))),
          c, t)
    else if !p.balanced then SetCpu(s, c, Balancing(p.prev, p.mark, 0))
    else
      var t := s.idle[c];
      Select(SetThread(s, t, s.threads[t].(runner := Some(c))), c, t)
  }

  predicate Pullable(th: Thread) { !th.running && th.contextGood }

  /** First task of `q` that is not running and whose context is good. */
  function FirstPullable(threads: map<Tid, Thread>, q: seq<Tid>): (r: Option<Tid>)
    requires forall t | t in q :: t in threads
    ensures r.Some? ==>
              && r.value in q && Pullable(threads[r.value])
              && exists k | 0 <= k < |q| :: q[k] == r.value && forall t | t in q[..k] :: !Pullable(threads[t])
    ensures r.None? ==> forall t | t in q :: !Pullable(threads[t])
  {
    if q == [] then None
    else if Pullable(threads[q[0]]) then
      assert q[..0] == [];
      Some(q[0])
    else
      var r := FirstPullable(threads, q[1..]);
      assert r.Some? ==> exists k | 0 <= k < |q| ::
        q[k] == r.value && forall t | t in q[..k] :: !Pullable(threads[t]) by {
        if r.Some? {
          var k :| 0 <= k < |q[1..]| && q[1..][k] == r.value && forall t | t in q[1..][..k] :: !Pullable(threads[t]);
          assert q[..k + 1] == [q[0]] + q[1..][..k] && q[k + 1] == r.value;
        }
      }
      r
  }

  /** One iteration of `loadBalance`: CPU `c`, whose queue was empty, looks at the queue of CPU `from`. */
  function Balance(s: State, c: CpuId): State
    requires c < |s.cpus| == |s.runq| && s.cpus[c].Balancing?
    requires forall i, t | 0 <= i < |s.runq| && t in s.runq[i] :: t in s.threads
  {
    var b := s.cpus[c];
    if b.from >= |s.cpus| then SetCpu(s, c, Picking(b.prev, b.mark, true))
    else if b.from == c then SetCpu(s, c, Balancing(b.prev, b.mark, b.from + 1))
    else
      var f := FirstPullable(s.threads, s.runq[b.from]);
      if f.None? then SetCpu(s, c, Balancing(b.prev, b.mark, b.from + 1))
      else
        var t := f.value;
        var s1 := Push(s.(runq := s.runq[b.from := Remove(s.runq[b.from], t)]), c, t);
        SetCpu(SetThread(s1, t, s.threads[t].(queue := Some(c))), c, Picking(b.prev, b.mark, true))
  }

  /** One turn of the `contextGood.exchange(false)` spin in `jumpTo`. */
  function AcquireContext(s: State, c: CpuId): State
    requires c < |s.cpus| && s.cpus[c].Jumping? && s.cpus[c].next in s.threads
  {
    var j := s.cpus[c];
    if s.threads[j.next].contextGood then
      SetThread(SetCpu(s, c, Loaded(j.prev, j.mark, j.next)), j.next,
                s.threads[j.next].(contextGood := false, holder := Some(c)))
    else s
  }

  /** `jump_fcontext`: the CPU leaves the stack of `prev` for the saved context of `next`. */
  function SwitchStacks(s: State, c: CpuId): State
    requires c < |s.cpus| && s.cpus[c].Loaded? && s.cpus[c].next in s.threads
  {
    var l := s.cpus[c];
    SetThread(SetCpu(s, c, Saving(l.prev, l.mark, l.next, false)), l.next, s.threads[l.next].(fcxt := false))
  }

  /** On the stack of `next`: store the saved context of `prev`, then publish it. */
  function SaveContext(s: State, c: CpuId): State
    requires c < |s.cpus| && s.cpus[c].Saving? && (s.cpus[c].prev.Some? ==> s.cpus[c].prev.value in s.threads)
  {
    var v := s.cpus[c];
    if v.prev.None? then SetCpu(s, c, Running(Some(v.next)))
    else if !v.stored then
      SetThread(SetCpu(s, c, v.(stored := true)), v.prev.value, s.threads[v.prev.value].(fcxt := true))
    else
      SetThread(SetCpu(s, c, Running(Some(v.next))), v.prev.value,
          s.threads[v.prev.value].(contextGood := true, holder := None))
  }

  // ---------------------------------------------------------------- the invariant

  /** `t` is, or is about to be, the current thread of this CPU. */
  predicate Runs(cpu: Cpu, t: Tid) {
    match cpu
    case Running(cur) => cur == Some(t)
    case Checking(cur, _) => cur == Some(t)
    case Jumping(_, _, next) => next == t
    case Loaded(_, _, next) => next == t
    case Saving(_, _, next, _) => next == t
    case _ => false
  }

  /** The CPU executes on the stack of `t`, or has taken its context, or has not finished saving it. */
  predicate Holds(cpu: Cpu, t: Tid) {
    match cpu
    case Running(cur) => cur == Some(t)
    case Checking(cur, _) => cur == Some(t)
    case Picking(prev, _, _) => prev == Some(t)
    case Balancing(prev, _, _) => prev == Some(t)
    case Jumping(prev, _, _) => prev == Some(t)
    case Loaded(prev, _, next) => prev == Some(t) || next == t
    case Saving(prev, _, next, _) => prev == Some(t) || next == t
  }

  /** Between marking the previous thread and publishing its context. */
  predicate Switching(cpu: Cpu) { !cpu.Running? && !cpu.Checking? }

  predicate Shape(s: State) {
    && |s.cpus| == |s.runq| == |s.idle|
    && (forall c | 0 <= c < |s.idle| :: s.idle[c] in s.threads)
    && (forall c, d | 0 <= c < d < |s.idle| :: s.idle[c] != s.idle[d])
  }

  ghost predicate ThreadOk(s: State, t: Tid)
    requires t in s.threads
  {
    var th := s.threads[t];
    && (th.contextGood <==> th.holder.None?)
    && (th.holder.Some? ==> th.holder.value < |s.cpus|)
    && (th.runner.Some? ==> th.runner.value < |s.cpus|)
    && (th.contextGood ==> th.fcxt)
    && (th.onQueue ==> th.queue.Some? && th.queue.value < |s.runq| && th.oldQueue.None?)
    && (if IsIdle(s, t) then !th.running && !th.onQueue
        else
          && (th.running <==> th.runner.Some?)
          && (th.running && th.onQueue ==> th.queue == th.runner)
          && (th.running && !th.onQueue ==> th.oldQueue == th.runner && th.queue.None?))
  }

  ghost predicate CpuOk(s: State, c: CpuId)
    requires Shape(s) && c < |s.cpus|
  {
    var cpu := s.cpus[c];
    && (forall t | Runs(cpu, t) || Holds(cpu, t) :: t in s.threads && (IsIdle(s, t) ==> t == s.idle[c]))
    && (Switching(cpu) ==> cpu.mark < s.clock)
    && (cpu.Jumping? || cpu.Loaded? || cpu.Saving? ==>
          && cpu.prev != Some(cpu.next)
          && cpu.next in s.threads
          && (!IsIdle(s, cpu.next) ==> s.threads[cpu.next].onQueue))
    && (cpu.Loaded? ==> s.threads[cpu.next].fcxt)
    && (cpu.Saving? && cpu.stored && cpu.prev.Some? ==> cpu.prev.value in s.threads && s.threads[cpu.prev.value].fcxt)
  }

  /** Physically linked in the run queue of `c` iff runnable, not running and homed there. */
  predicate Linked(s: State, c: CpuId, t: Tid) {
    t in s.threads && !IsIdle(s, t) && s.threads[t].onQueue && !s.threads[t].running && s.threads[t].queue == Some(c)
  }

  ghost predicate QueueOk(s: State, c: CpuId)
    requires c < |s.runq|
  {
    NoDuplicates(s.runq[c]) && forall t :: t in s.runq[c] <==> Linked(s, c, t)
  }

  /** CPU `c` may have to wait for the context of `t`. */
  predicate Wants(s: State, c: CpuId, t: Tid)
    requires c < |s.cpus| == |s.runq|
  {
    t in s.runq[c] || (s.cpus[c].Jumping? && s.cpus[c].next == t)
  }

  /** Whoever else holds a context that `c` wants is switching away from it and marked it earlier. */
  ghost predicate OrderOk(s: State, c: CpuId, t: Tid)
    requires Shape(s) && c < |s.cpus| && t in s.threads
  {
    var th := s.threads[t];
    Wants(s, c, t) && th.holder.Some? && th.holder.value != c ==>
      var d := th.holder.value;
      && d < |s.cpus|
      && Switching(s.cpus[d]) && s.cpus[d].prev == Some(t)
      && (Switching(s.cpus[c]) ==> s.cpus[d].mark < s.cpus[c].mark)
  }

  ghost predicate Inv(s: State) {
    && Shape(s)
    && (forall t | t in s.threads :: ThreadOk(s, t))
    && (forall c | 0 <= c < |s.cpus| :: CpuOk(s, c))
    && (forall c | 0 <= c < |s.runq| :: QueueOk(s, c))
    && (forall c, t | 0 <= c < |s.cpus| && t in s.threads :: Runs(s.cpus[c], t) <==> s.threads[t].runner == Some(c))
    && (forall c, t | 0 <= c < |s.cpus| && t in s.threads :: Holds(s.cpus[c], t) <==> s.threads[t].holder == Some(c))
    && (forall c, t | 0 <= c < |s.cpus| && t in s.threads :: OrderOk(s, c, t))
  }

  lemma BootInv(idle: seq<Tid>)
    requires NoDuplicates(idle)
    ensures Inv(Boot(idle))
  {
    var s := Boot(idle);
    forall t | t in s.threads ensures ThreadOk(s, t) { }
    forall c | 0 <= c < |s.cpus| ensures CpuOk(s, c) { }
  }

  // ---------------------------------------------------------------- steps of one CPU on one thread

  /** Every operation changes at most one CPU `c` and one thread `t`. */
  predicate Touches(s: State, s': State, c: CpuId, t: Tid) {
    && |s'.cpus| == |s.cpus| == |s.runq| == |s'.runq| && s'.idle == s.idle && s'.clock >= s.clock
    && c < |s.cpus|
    && (forall d | 0 <= d < |s.cpus| && d != c :: s'.cpus[d] == s.cpus[d])
    && t in s.threads && s'.threads.Keys == s.threads.Keys
    && (forall u | u in s.threads && u != t :: s'.threads[u] == s.threads[u])
  }

  /** The other CPUs' view of `t` is unchanged, and only its own CPU or holder changes its flags. */
  predicate KeepsOthersView(s: State, s': State, c: CpuId, t: Tid)
    requires Touches(s, s', c, t)
  {
    var th, th' := s.threads[t], s'.threads[t];
    && (th'.runner == th.runner || ((th.runner.None? || th.runner == Some(c))
        && (th'.runner.None? || th'.runner == Some(c))))
    && (th'.holder == th.holder || ((th.holder.None? || th.holder == Some(c))
        && (th'.holder.None? || th'.holder == Some(c))))
    && (th'.onQueue || !th.onQueue || th.runner == Some(c))
    && (th'.fcxt == th.fcxt || th.holder == Some(c))
  }

  /** What the changed CPU runs and holds agrees with the changed thread, and with nothing else new. */
  ghost predicate KeepsLinks(s: State, s': State, c: CpuId, t: Tid)
    requires Touches(s, s', c, t)
  {
    && (forall u | u != t :: Runs(s'.cpus[c], u) <==> Runs(s.cpus[c], u))
    && (forall u | u != t :: Holds(s'.cpus[c], u) <==> Holds(s.cpus[c], u))
    && (Runs(s'.cpus[c], t) <==> s'.threads[t].runner == Some(c))
    && (Holds(s'.cpus[c], t) <==> s'.threads[t].holder == Some(c))
  }

  /** A switching CPU keeps its mark until it publishes; a new mark is later than all others. */
  predicate KeepsMarks(s: State, s': State, c: CpuId, t: Tid)
    requires Touches(s, s', c, t)
  {
    var cpu, cpu' := s.cpus[c], s'.cpus[c];
    && (Switching(cpu) ==>
         (Switching(cpu') && cpu'.prev == cpu.prev && cpu'.mark == cpu.mark) || cpu.prev == Some(t) || cpu.prev.None?)
    && (Switching(cpu') ==> (Switching(cpu) && cpu'.mark == cpu.mark) || cpu'.mark >= s.clock)
    && (forall d, u | 0 <= d < |s.cpus| && u in s.threads && u != t :: Wants(s', d, u) ==> Wants(s, d, u))
  }

  lemma FrameCpu(s: State, s': State, c: CpuId, t: Tid, d: CpuId)
    requires Touches(s, s', c, t) && Shape(s) && Shape(s') && KeepsOthersView(s, s', c, t)
    requires d < |s.cpus| && d != c && CpuOk(s, d)
    requires Runs(s.cpus[d], t) <==> s.threads[t].runner == Some(d)
    requires Holds(s.cpus[d], t) <==> s.threads[t].holder == Some(d)
    ensures CpuOk(s', d)
  {
  }

  lemma FrameRuns(s: State, s': State, c: CpuId, t: Tid)
    requires Inv(s) && Touches(s, s', c, t) && KeepsOthersView(s, s', c, t) && KeepsLinks(s, s', c, t)
    ensures forall d, u | 0 <= d < |s'.cpus| && u in s'.threads ::
              Runs(s'.cpus[d], u) <==> s'.threads[u].runner == Some(d)
  {
    forall d, u | 0 <= d < |s'.cpus| && u in s'.threads
      ensures Runs(s'.cpus[d], u) <==> s'.threads[u].runner == Some(d)
    {
      assert Runs(s.cpus[d], u) <==> s.threads[u].runner == Some(d);
    }
  }

  lemma FrameHolds(s: State, s': State, c: CpuId, t: Tid)
    requires Inv(s) && Touches(s, s', c, t) && KeepsOthersView(s, s', c, t) && KeepsLinks(s, s', c, t)
    ensures forall d, u | 0 <= d < |s'.cpus| && u in s'.threads ::
              Holds(s'.cpus[d], u) <==> s'.threads[u].holder == Some(d)
  {
    forall d, u | 0 <= d < |s'.cpus| && u in s'.threads
      ensures Holds(s'.cpus[d], u) <==> s'.threads[u].holder == Some(d)
    {
      assert Holds(s.cpus[d], u) <==> s.threads[u].holder == Some(d);
    }
  }

  lemma FrameOrder(s: State, s': State, c: CpuId, t: Tid)
    requires Inv(s) && Touches(s, s', c, t) && Shape(s') && KeepsMarks(s, s', c, t)
    ensures forall d, u | 0 <= d < |s.cpus| && u in s.threads && u != t :: OrderOk(s', d, u)
  {
    forall d, u | 0 <= d < |s.cpus| && u in s.threads && u != t ensures OrderOk(s', d, u) {
      assert OrderOk(s, d, u);
      var th := s.threads[u];
      if Wants(s', d, u) && th.holder.Some? && th.holder.value != d {
        assert CpuOk(s, th.holder.value);
      }
    }
  }

  /** What a step may assume about its own CPU and thread ... */
  ghost predicate LocalPre(s: State, c: CpuId, t: Tid) {
    && Shape(s) && c < |s.cpus| && t in s.threads
    && ThreadOk(s, t) && CpuOk(s, c)
    && (Runs(s.cpus[c], t) <==> s.threads[t].runner == Some(c))
    && (Holds(s.cpus[c], t) <==> s.threads[t].holder == Some(c))
  }

  /** ... and what it has to establish about them. */
  ghost predicate LocalStep(s: State, s': State, c: CpuId, t: Tid) {
    && Touches(s, s', c, t) && Shape(s')
    && KeepsOthersView(s, s', c, t) && KeepsLinks(s, s', c, t) && KeepsMarks(s, s', c, t)
    && CpuOk(s', c) && ThreadOk(s', t)
  }

  ghost predicate QueuesOk(s: State) {
    forall d | 0 <= d < |s.runq| :: QueueOk(s, d)
  }

  ghost predicate OrderOkFor(s: State, t: Tid)
    requires Shape(s) && t in s.threads
  {
    forall d | 0 <= d < |s.cpus| :: OrderOk(s, d, t)
  }

  lemma LocalFacts(s: State, c: CpuId, t: Tid)
    requires Inv(s) && c < |s.cpus| && t in s.threads
    ensures LocalPre(s, c, t) && QueuesOk(s) && OrderOkFor(s, t)
  {
  }

  /** The frame rule: what has to be checked of a step is local to `c` and `t`. */
  lemma Frame(s: State, s': State, c: CpuId, t: Tid)
    requires Inv(s) && LocalStep(s, s', c, t) && QueuesOk(s') && OrderOkFor(s', t)
    ensures Inv(s')
  {
    forall d | 0 <= d < |s.cpus| ensures CpuOk(s', d) { if d != c { FrameCpu(s, s', c, t, d); } }
    FrameRuns(s, s', c, t);
    FrameHolds(s, s', c, t);
    FrameOrder(s, s', c, t);
    forall u | u in s'.threads ensures ThreadOk(s', u) { if u != t { assert ThreadOk(s, u); } }
  }

  // ---------------------------------------------------------------- run queues under a step

  lemma QueuesUnchanged(s: State, s': State, c: CpuId, t: Tid)
    requires QueuesOk(s) && Touches(s, s', c, t) && s'.runq == s.runq
    requires forall d :: Linked(s', d, t) <==> Linked(s, d, t)
    ensures QueuesOk(s')
  {
    forall d | 0 <= d < |s'.runq| ensures QueueOk(s', d) {
      assert QueueOk(s, d);
      forall u ensures u in s'.runq[d] <==> Linked(s', d, u) { assert u in s.runq[d] <==> Linked(s, d, u); }
    }
  }

  lemma QueuePushed(s: State, s': State, c: CpuId, t: Tid, q: CpuId)
    requires QueuesOk(s) && Touches(s, s', c, t) && q < |s.runq|
    requires s'.runq == s.runq[q := s.runq[q] + [t]]
    requires forall d :: !Linked(s, d, t)
    requires forall d :: Linked(s', d, t) <==> d == q
    ensures QueuesOk(s')
  {
    forall d | 0 <= d < |s'.runq| ensures QueueOk(s', d) {
      assert QueueOk(s, d);
      assert t in s.runq[d] <==> Linked(s, d, t);
      forall u ensures u in s'.runq[d] <==> Linked(s', d, u) { assert u in s.runq[d] <==> Linked(s, d, u); }
    }
  }

  lemma QueuePopped(s: State, s': State, c: CpuId, t: Tid)
    requires QueuesOk(s) && Touches(s, s', c, t)
    requires s.runq[c] != [] && s.runq[c][0] == t && s'.runq == s.runq[c := s.runq[c][1..]]
    requires forall d :: !Linked(s', d, t)
    ensures QueuesOk(s')
  {
    assert s.runq[c] == [t] + s.runq[c][1..];
    assert QueueOk(s, c);
    assert t in s.runq[c];
    forall d | 0 <= d < |s'.runq| ensures QueueOk(s', d) {
      assert QueueOk(s, d);
      forall u ensures u in s'.runq[d] <==> Linked(s', d, u) { assert u in s.runq[d] <==> Linked(s, d, u); }
    }
  }

  lemma QueueMoved(s: State, s': State, c: CpuId, t: Tid, from: CpuId)
    requires QueuesOk(s) && Touches(s, s', c, t) && from < |s.runq| && from != c
    requires s'.runq == s.runq[from := Remove(s.runq[from], t)][c := s.runq[c] + [t]]
    requires forall d :: Linked(s, d, t) <==> d == from
    requires forall d :: Linked(s', d, t) <==> d == c
    ensures QueuesOk(s')
  {
    assert QueueOk(s, from);
    RemoveMembers(s.runq[from], t);
    forall d | 0 <= d < |s'.runq| ensures QueueOk(s', d) {
      assert QueueOk(s, d);
      assert t in s.runq[d] <==> Linked(s, d, t);
      forall u ensures u in s'.runq[d] <==> Linked(s', d, u) { assert u in s.runq[d] <==> Linked(s, d, u); }
    }
  }

  // ---------------------------------------------------------------- every operation keeps the invariant

  lemma SpawnKeepsInv(s: State, t: Tid)
    requires Inv(s) && t !in s.threads
    ensures Inv(Spawn(s, t))
  {
    var s' := Spawn(s, t);
    assert !IsIdle(s, t);
    forall d | 0 <= d < |s'.cpus| ensures CpuOk(s', d) && !Runs(s'.cpus[d], t) && !Holds(s'.cpus[d], t) {
      assert CpuOk(s, d);
    }
    forall u | u in s'.threads ensures ThreadOk(s', u) { if u != t { assert ThreadOk(s, u); } }
    forall d | 0 <= d < |s'.runq| ensures QueueOk(s', d) {
      assert QueueOk(s, d);
      forall u ensures u in s'.runq[d] <==> Linked(s', d, u) { assert u in s.runq[d] <==> Linked(s, d, u); }
    }
    forall d, u | 0 <= d < |s'.cpus| && u in s'.threads ensures OrderOk(s', d, u) {
        if u != t { assert OrderOk(s, d, u); } }
  }

  /** A context that is held although its thread is not current belongs to a switch that is not finished. */
  lemma HolderOfIdleThreadIsSwitching(s: State, t: Tid)
    requires Inv(s) && t in s.threads && s.threads[t].holder.Some? && s.threads[t].runner.None?
    ensures s.threads[t].holder.value < |s.cpus|
    ensures var cpu := s.cpus[s.threads[t].holder.value]; Switching(cpu) && cpu.prev == Some(t)
  {
    assert ThreadOk(s, t);
    var d := s.threads[t].holder.value;
    assert Holds(s.cpus[d], t) && !Runs(s.cpus[d], t);
  }

  lemma EnqueueTaskLocal(s: State, c: CpuId, t: Tid)
    requires LocalPre(s, c, t) && InThreadCode(s.cpus[c]) && !IsIdle(s, t) && !s.threads[t].onQueue
    ensures LocalStep(s, EnqueueTask(s, c, t), c, t)
  {
  }

  /** The waking CPU is in thread code; the woken thread is off every queue (the source asserts it). */
  lemma EnqueueTaskKeepsInv(s: State, c: CpuId, t: Tid)
    requires Inv(s) && c < |s.cpus| && InThreadCode(s.cpus[c])
    requires t in s.threads && !IsIdle(s, t) && !s.threads[t].onQueue
    ensures Inv(EnqueueTask(s, c, t))
  {
    var s' := EnqueueTask(s, c, t);
    var th := s.threads[t];
    LocalFacts(s, c, t);
    EnqueueTaskLocal(s, c, t);
    assert QueuesOk(s') by {
      if th.running { QueuesUnchanged(s, s', c, t); } else { QueuePushed(s, s', c, t, c); }
    }
    assert OrderOkFor(s', t) by {
      if !th.running && th.holder.Some? { HolderOfIdleThreadIsSwitching(s, t); }
      forall d | 0 <= d < |s'.cpus| ensures OrderOk(s', d, t) {
        assert OrderOk(s, d, t) && QueueOk(s', d);
      }
    }
    Frame(s, s', c, t);
  }

  lemma DequeueTaskLocal(s: State, c: CpuId, t: Tid)
    requires LocalPre(s, c, t) && s.cpus[c] == Running(Some(t)) && !IsIdle(s, t) && s.threads[t].onQueue
    ensures s.threads[t].queue == Some(c)
    ensures LocalStep(s, DequeueTask(s, t), c, t) && DequeueTask(s, t).runq == s.runq
  {
  }

  lemma DequeueTaskKeepsInv(s: State, c: CpuId, t: Tid)
    requires Inv(s) && c < |s.cpus| && s.cpus[c] == Running(Some(t))
    requires !IsIdle(s, t) && t in s.threads && s.threads[t].onQueue
    ensures s.threads[t].queue == Some(c)
    ensures Inv(DequeueTask(s, t))
  {
    LocalFacts(s, c, t);
    DequeueTaskLocal(s, c, t);
    var s' := DequeueTask(s, t);
    QueuesUnchanged(s, s', c, t);
    assert OrderOkFor(s', t) by {
      forall d | 0 <= d < |s'.cpus| ensures OrderOk(s', d, t) { assert OrderOk(s, d, t); }
    }
    Frame(s, s', c, t);
  }

  lemma PhaseLocal(s: State, c: CpuId, cpu: Cpu, t: Tid)
    requires LocalPre(s, c, t)
    requires forall u :: (Runs(cpu, u) <==> Runs(s.cpus[c], u)) && (Holds(cpu, u) <==> Holds(s.cpus[c], u))
    requires Switching(cpu) <==> Switching(s.cpus[c])
    requires Switching(cpu) ==> cpu.mark == s.cpus[c].mark && cpu.prev == s.cpus[c].prev
    requires (cpu.Running? || cpu.Checking? || cpu.Picking? || cpu.Balancing?) && !s.cpus[c].Jumping?
    ensures LocalStep(s, SetCpu(s, c, cpu), c, t)
  {
  }

  /** A step that only moves a CPU between two phases that run and hold the same threads. */
  lemma PhaseKeepsInv(s: State, c: CpuId, cpu: Cpu)
    requires Inv(s) && c < |s.cpus|
    requires forall u :: (Runs(cpu, u) <==> Runs(s.cpus[c], u)) && (Holds(cpu, u) <==> Holds(s.cpus[c], u))
    requires Switching(cpu) <==> Switching(s.cpus[c])
    requires Switching(cpu) ==> cpu.mark == s.cpus[c].mark && cpu.prev == s.cpus[c].prev
    requires (cpu.Running? || cpu.Checking? || cpu.Picking? || cpu.Balancing?) && !s.cpus[c].Jumping?
    ensures Inv(SetCpu(s, c, cpu))
  {
    var s' := SetCpu(s, c, cpu);
    var t := s.idle[c];
    LocalFacts(s, c, t);
    PhaseLocal(s, c, cpu, t);
    QueuesUnchanged(s, s', c, t);
    assert OrderOkFor(s', t) by {
      forall d | 0 <= d < |s'.cpus| ensures OrderOk(s', d, t) { assert OrderOk(s, d, t); }
    }
    Frame(s, s', c, t);
  }

  lemma StartScheduleKeepsInv(s: State, c: CpuId)
    requires Inv(s) && c < |s.cpus| && s.cpus[c].Running?
    ensures Inv(StartSchedule(s, c))
  {
    PhaseKeepsInv(s, c, Checking(s.cpus[c].cur, 0));
  }

  /** A current thread exists, and while it is runnable its home queue is that of its own CPU. */
  lemma CurrentIsHome(s: State, c: CpuId)
    requires Inv(s) && c < |s.cpus| && InThreadCode(s.cpus[c]) && s.cpus[c].cur.Some?
    ensures s.cpus[c].cur.value in s.threads
    ensures var th := s.threads[s.cpus[c].cur.value]; th.onQueue ==> th.queue == Some(c)
  {
    var t := s.cpus[c].cur.value;
    assert CpuOk(s, c);
    assert Runs(s.cpus[c], t);
    assert ThreadOk(s, t);
  }

  lemma MarkLocal(s: State, c: CpuId, t: Tid)
    requires LocalPre(s, c, t) && s.cpus[c].Checking? && s.cpus[c].cur == Some(t)
    ensures MarkNotRunning.requires(s, c)
    ensures LocalStep(s, MarkNotRunning(s, c), c, t)
    ensures MarkNotRunning(s, c).runq == if s.threads[t].onQueue then s.runq[c := s.runq[c] + [t]] else s.runq
  {
  }

  lemma MarkWithoutCurrentLocal(s: State, c: CpuId, t: Tid)
    requires LocalPre(s, c, t) && s.cpus[c].Checking? && s.cpus[c].cur.None?
    ensures LocalStep(s, MarkNotRunning(s, c), c, t)
  {
  }

  lemma MarkNotRunningKeepsInv(s: State, c: CpuId)
    requires Inv(s) && c < |s.cpus| && s.cpus[c].Checking?
    ensures MarkNotRunning.requires(s, c)
    ensures Inv(MarkNotRunning(s, c))
  {
    var t := if s.cpus[c].cur.Some? then s.cpus[c].cur.value else s.idle[c];
    if s.cpus[c].cur.Some? { CurrentIsHome(s, c); }
    LocalFacts(s, c, t);
    if s.cpus[c].cur.Some? { MarkLocal(s, c, t); } else { MarkWithoutCurrentLocal(s, c, t); }
    var s' := MarkNotRunning(s, c);
    assert QueuesOk(s') by {
      if s.cpus[c].cur.Some? && s.threads[t].onQueue {
        QueuePushed(s, s', c, t, c);
      } else {
        QueuesUnchanged(s, s', c, t);
      }
    }
    assert OrderOkFor(s', t) by {
      forall d | 0 <= d < |s'.cpus| ensures OrderOk(s', d, t) { assert OrderOk(s, d, t) && QueueOk(s', d); }
    }
    Frame(s, s', c, t);
  }

  lemma PickFrontLocal(s: State, c: CpuId, t: Tid)
    requires LocalPre(s, c, t) && s.cpus[c].Picking? && s.runq[c] != [] && s.runq[c][0] == t && Linked(s, c, t)
    ensures LocalStep(s, PickNext(s, c), c, t)
  {
    assert s.runq[c] == [t] + s.runq[c][1..];
  }

  lemma NotCurrentAnywhere(s: State, t: Tid)
    requires Inv(s) && t in s.threads && s.threads[t].runner.None?
    ensures forall d | 0 <= d < |s.cpus| :: !Runs(s.cpus[d], t)
  {
  }

  /** After `t` became the choice of `c`, no other CPU wants it. */
  lemma ChosenThreadOrder(s: State, s': State, c: CpuId, t: Tid)
    requires Shape(s) && Shape(s') && Touches(s, s', c, t)
    requires Switching(s.cpus[c]) && (Switching(s'.cpus[c]) ==> s'.cpus[c].mark == s.cpus[c].mark)
    requires forall d | 0 <= d < |s.cpus| :: !Runs(s.cpus[d], t)
    requires forall d | 0 <= d < |s'.runq| :: t !in s'.runq[d]
    requires OrderOk(s, c, t) && s'.threads[t].holder == s.threads[t].holder
    requires (s.threads[t].holder.Some? && s.threads[t].holder != Some(c)) ==> Wants(s, c, t)
    ensures OrderOkFor(s', t)
  {
  }

  lemma PickFrontKeepsInv(s: State, c: CpuId)
    requires Inv(s) && c < |s.cpus| && s.cpus[c].Picking? && s.runq[c] != []
    ensures s.runq[c][0] in s.threads
    ensures Inv(PickNext(s, c))
  {
    assert QueueOk(s, c);
    var t := s.runq[c][0];
    assert t in s.runq[c];
    LocalFacts(s, c, t);
    PickFrontLocal(s, c, t);
    var s' := PickNext(s, c);
    QueuePopped(s, s', c, t);
    forall d | 0 <= d < |s'.runq| ensures t !in s'.runq[d] { assert QueueOk(s', d); }
    NotCurrentAnywhere(s, t);
    ChosenThreadOrder(s, s', c, t);
    Frame(s, s', c, t);
  }

  /** Only its own CPU ever runs or holds an idle thread. */
  lemma IdleStaysHome(s: State, c: CpuId)
    requires Inv(s) && c < |s.cpus|
    ensures s.threads[s.idle[c]].holder in {None, Some(c)}
    ensures s.threads[s.idle[c]].runner in {None, Some(c)}
  {
    var t := s.idle[c];
    assert ThreadOk(s, t);
    if s.threads[t].holder.Some? {
      var d := s.threads[t].holder.value;
      assert Holds(s.cpus[d], t) && CpuOk(s, d);
    }
    if s.threads[t].runner.Some? {
      var d := s.threads[t].runner.value;
      assert Runs(s.cpus[d], t) && CpuOk(s, d);
    }
  }

  lemma PickIdleLocal(s: State, c: CpuId, t: Tid)
    requires LocalPre(s, c, t) && s.idle[c] == t && s.threads[t].runner.None?
    requires s.cpus[c].Picking? && s.runq[c] == [] && s.cpus[c].balanced
    ensures LocalStep(s, PickNext(s, c), c, t)
  {
  }

  lemma PickIdleKeepsInv(s: State, c: CpuId)
    requires Inv(s) && c < |s.cpus| && s.cpus[c].Picking? && s.runq[c] == [] && s.cpus[c].balanced
    ensures Inv(PickNext(s, c))
  {
    var t := s.idle[c];
    IdleStaysHome(s, c);
    LocalFacts(s, c, t);
    PickIdleLocal(s, c, t);
    var s' := PickNext(s, c);
    QueuesUnchanged(s, s', c, t);
    forall d | 0 <= d < |s'.runq| ensures t !in s'.runq[d] { assert QueueOk(s', d); }
    NotCurrentAnywhere(s, t);
    ChosenThreadOrder(s, s', c, t);
    Frame(s, s', c, t);
  }

  lemma PickNextKeepsInv(s: State, c: CpuId)
    requires Inv(s) && c < |s.cpus| && s.cpus[c].Picking?
    ensures PickNext.requires(s, c)
    ensures Inv(PickNext(s, c))
  {
    if s.runq[c] != [] {
      PickFrontKeepsInv(s, c);
    } else if !s.cpus[c].balanced {
      PhaseKeepsInv(s, c, Balancing(s.cpus[c].prev, s.cpus[c].mark, 0));
    } else {
      PickIdleKeepsInv(s, c);
    }
  }

  lemma PullLocal(s: State, c: CpuId, t: Tid, from: CpuId)
    requires LocalPre(s, c, t) && s.cpus[c].Balancing? && s.cpus[c].from == from < |s.cpus| && from != c
    requires forall i, t | 0 <= i < |s.runq| && t in s.runq[i] :: t in s.threads
    requires FirstPullable(s.threads, s.runq[from]) == Some(t)
    requires NoDuplicates(s.runq[from])
    ensures LocalStep(s, Balance(s, c), c, t)
    ensures Balance(s, c).runq == s.runq[from := Remove(s.runq[from], t)][c := s.runq[c] + [t]]
  {
    RemoveMembers(s.runq[from], t);
  }

  lemma BalanceKeepsInv(s: State, c: CpuId)
    requires Inv(s) && c < |s.cpus| && s.cpus[c].Balancing?
    ensures Balance.requires(s, c)
    ensures Inv(Balance(s, c))
  {
    forall i, t | 0 <= i < |s.runq| && t in s.runq[i] ensures t in s.threads { assert QueueOk(s, i); }
    var b := s.cpus[c];
    if b.from >= |s.cpus| {
      PhaseKeepsInv(s, c, Picking(b.prev, b.mark, true));
    } else if b.from == c || FirstPullable(s.threads, s.runq[b.from]).None? {
      PhaseKeepsInv(s, c, Balancing(b.prev, b.mark, b.from + 1));
    } else {
      var t := FirstPullable(s.threads, s.runq[b.from]).value;
      assert QueueOk(s, b.from);
      LocalFacts(s, c, t);
      PullLocal(s, c, t, b.from);
      var s' := Balance(s, c);
      QueueMoved(s, s', c, t, b.from);
      assert OrderOkFor(s', t);
      Frame(s, s', c, t);
    }
  }

  lemma AcquireLocal(s: State, c: CpuId, t: Tid)
    requires LocalPre(s, c, t) && s.cpus[c].Jumping? && s.cpus[c].next == t && s.threads[t].contextGood
    ensures LocalStep(s, AcquireContext(s, c), c, t)
  {
  }

  lemma AcquireContextKeepsInv(s: State, c: CpuId)
    requires Inv(s) && c < |s.cpus| && s.cpus[c].Jumping?
    ensures AcquireContext.requires(s, c)
    ensures Inv(AcquireContext(s, c))
  {
    assert CpuOk(s, c);
    var t := s.cpus[c].next;
    if s.threads[t].contextGood {
      LocalFacts(s, c, t);
      AcquireLocal(s, c, t);
      var s' := AcquireContext(s, c);
      QueuesUnchanged(s, s', c, t);
      AcquireOrder(s, c, t);
      Frame(s, s', c, t);
    }
  }

  lemma AcquireOrder(s: State, c: CpuId, t: Tid)
    requires Inv(s) && c < |s.cpus| && s.cpus[c].Jumping? && s.cpus[c].next == t && t in s.threads
             && s.threads[t].contextGood
    requires var s' := AcquireContext(s, c); |s'.runq| == |s'.cpus| && forall d | 0 <= d < |s'.cpus| :: QueueOk(s', d)
    ensures OrderOkFor(AcquireContext(s, c), t)
  {
    var s' := AcquireContext(s, c);
    forall d | 0 <= d < |s'.cpus| ensures OrderOk(s', d, t) {
      assert QueueOk(s', d);
      assert Runs(s.cpus[d], t) <==> s.threads[t].runner == Some(d);
    }
  }

  lemma SwitchLocal(s: State, c: CpuId, t: Tid)
    requires LocalPre(s, c, t) && s.cpus[c].Loaded? && s.cpus[c].next == t
    ensures s.threads[t].fcxt
    ensures LocalStep(s, SwitchStacks(s, c), c, t)
  {
  }

  lemma SwitchStacksKeepsInv(s: State, c: CpuId)
    requires Inv(s) && c < |s.cpus| && s.cpus[c].Loaded?
    ensures SwitchStacks.requires(s, c) && s.threads[s.cpus[c].next].fcxt
    ensures Inv(SwitchStacks(s, c))
  {
    assert CpuOk(s, c);
    var t := s.cpus[c].next;
    LocalFacts(s, c, t);
    SwitchLocal(s, c, t);
    var s' := SwitchStacks(s, c);
    QueuesUnchanged(s, s', c, t);
    assert OrderOkFor(s', t) by {
      forall d | 0 <= d < |s'.cpus| ensures OrderOk(s', d, t) { assert OrderOk(s, d, t); }
    }
    Frame(s, s', c, t);
  }

  lemma SaveLocal(s: State, c: CpuId, t: Tid)
    requires LocalPre(s, c, t) && s.cpus[c].Saving? && s.cpus[c].prev == Some(t)
    ensures LocalStep(s, SaveContext(s, c), c, t)
  {
  }

  lemma SaveWithoutPreviousLocal(s: State, c: CpuId, t: Tid)
    requires LocalPre(s, c, t) && s.cpus[c].Saving? && s.cpus[c].prev.None? && s.cpus[c].next == t
    ensures LocalStep(s, SaveContext(s, c), c, t)
  {
  }

  lemma SaveContextKeepsInv(s: State, c: CpuId)
    requires Inv(s) && c < |s.cpus| && s.cpus[c].Saving?
    ensures SaveContext.requires(s, c)
    ensures Inv(SaveContext(s, c))
  {
    assert CpuOk(s, c);
    var t := if s.cpus[c].prev.Some? then s.cpus[c].prev.value else s.cpus[c].next;
    assert Holds(s.cpus[c], t);
    LocalFacts(s, c, t);
    if s.cpus[c].prev.Some? { SaveLocal(s, c, t); } else { SaveWithoutPreviousLocal(s, c, t); }
    var s' := SaveContext(s, c);
    QueuesUnchanged(s, s', c, t);
    assert OrderOkFor(s', t) by {
      forall d | 0 <= d < |s'.cpus| ensures OrderOk(s', d, t) { assert OrderOk(s, d, t); }
    }
    Frame(s, s', c, t);
  }

  // ---------------------------------------------------------------- what the invariant says

  /** A non-idle thread is physically linked in a run queue exactly when it is runnable and not
      running, then only in the one its `queue` field names. */
  lemma LinkedIffRunnableAndNotRunning(s: State, t: Tid)
    requires Inv(s) && t in s.threads && !IsIdle(s, t)
    ensures (s.threads[t].onQueue && !s.threads[t].running) <==> exists c :: 0 <= c < |s.runq| && t in s.runq[c]
    ensures forall c, d | 0 <= c < |s.runq| && 0 <= d < |s.runq| && t in s.runq[c] && t in s.runq[d] :: c == d
    ensures forall c | 0 <= c < |s.runq| && t in s.runq[c] :: s.threads[t].queue == Some(c) && NoDuplicates(s.runq[c])
  {
    assert ThreadOk(s, t);
    if s.threads[t].onQueue && !s.threads[t].running {
      var c := s.threads[t].queue.value;
      assert QueueOk(s, c);
      assert Linked(s, c, t);
      assert t in s.runq[c];
    }
    forall c | 0 <= c < |s.runq| && t in s.runq[c] ensures Linked(s, c, t) && NoDuplicates(s.runq[c]) {
      assert QueueOk(s, c);
    }
  }

  /** The thread whose stack a CPU is executing on. */
  function OnStack(cpu: Cpu): Option<Tid> {
    match cpu
    case Running(cur) => cur
    case Checking(cur, _) => cur
    case Picking(prev, _, _) => prev
    case Balancing(prev, _, _) => prev
    case Jumping(prev, _, _) => prev
    case Loaded(prev, _, _) => prev
    case Saving(_, _, next, _) => Some(next)
  }

  /** No thread's stack is executed by two CPUs, and a context published as good is executed by none. */
  lemma NoStackIsShared(s: State, c: CpuId, d: CpuId)
    requires Inv(s) && c < |s.cpus| && d < |s.cpus| && OnStack(s.cpus[c]).Some?
    ensures var t := OnStack(s.cpus[c]).value;
            t in s.threads && !s.threads[t].contextGood && (OnStack(s.cpus[d]) == Some(t) ==> c == d)
  {
    var t := OnStack(s.cpus[c]).value;
    assert Holds(s.cpus[c], t) && CpuOk(s, c);
    assert ThreadOk(s, t);
    if OnStack(s.cpus[d]) == Some(t) { assert Holds(s.cpus[d], t); }
  }

  /** Every load follows a save: the context about to be loaded has been stored and not used since. */
  lemma LoadFollowsSave(s: State, c: CpuId)
    requires Inv(s) && c < |s.cpus| && s.cpus[c].Loaded?
    ensures s.cpus[c].next in s.threads && s.threads[s.cpus[c].next].fcxt
    ensures forall d | 0 <= d < |s.cpus| :: OnStack(s.cpus[d]) != Some(s.cpus[c].next)
  {
    var t := s.cpus[c].next;
    assert CpuOk(s, c);
    assert Holds(s.cpus[c], t);
    forall d | 0 <= d < |s.cpus| ensures OnStack(s.cpus[d]) != Some(t) {
      if OnStack(s.cpus[d]) == Some(t) { assert Holds(s.cpus[d], t); }
    }
  }

  predicate Blocked(s: State, c: CpuId)
    requires c < |s.cpus|
  {
    s.cpus[c].Jumping? && s.cpus[c].next in s.threads && !s.threads[s.cpus[c].next].contextGood
  }

  predicate WaitsFor(s: State, c: CpuId, d: CpuId)
    requires c < |s.cpus| && d < |s.cpus|
  {
    Blocked(s, c) && Holds(s.cpus[d], s.cpus[c].next)
  }

  /** A CPU spinning in `jumpTo` waits for exactly one CPU, which is switching away from the wanted
      thread and marked it not-running strictly earlier than the waiter marked its own. */
  lemma WaitIsForAnEarlierSwitch(s: State, c: CpuId) returns (d: CpuId)
    requires Inv(s) && c < |s.cpus| && Blocked(s, c)
    ensures d < |s.cpus| && d != c && WaitsFor(s, c, d)
    ensures Switching(s.cpus[d]) && s.cpus[d].prev == Some(s.cpus[c].next) && s.cpus[d].mark < s.cpus[c].mark
    ensures forall e | 0 <= e < |s.cpus| && WaitsFor(s, c, e) :: e == d
  {
    var t := s.cpus[c].next;
    assert CpuOk(s, c);
    assert ThreadOk(s, t);
    d := s.threads[t].holder.value;
    assert Holds(s.cpus[d], t);
    assert d != c;
    assert OrderOk(s, c, t);
  }

  ghost predicate WaitPath(s: State, path: seq<CpuId>) {
    && (forall i | 0 <= i < |path| :: path[i] < |s.cpus|)
    && (forall i, j | 0 <= i < j < |path| && j == i + 1 :: WaitsFor(s, path[i], path[j]))
  }

  lemma {:induction false} MarksFallAlongWaits(s: State, path: seq<CpuId>)
    requires Inv(s) && |path| >= 2 && WaitPath(s, path)
    ensures Switching(s.cpus[path[0]]) && Switching(s.cpus[path[|path| - 1]])
    ensures s.cpus[path[|path| - 1]].mark < s.cpus[path[0]].mark
  {
    assert WaitsFor(s, path[0], path[1]);
    var d := WaitIsForAnEarlierSwitch(s, path[0]);
    assert path[1] == d;
    if |path| > 2 {
      var rest := path[1..];
      forall i, j | 0 <= i < j < |rest| && j == i + 1 ensures WaitsFor(s, rest[i], rest[j]) {
        assert WaitsFor(s, path[i + 1], path[j + 1]);
      }
      MarksFallAlongWaits(s, rest);
    }
  }

  /** The `contextGood` spin cannot deadlock: no chain of waits closes. */
  lemma NoWaitCycle(s: State, path: seq<CpuId>)
    requires Inv(s) && |path| >= 2 && WaitPath(s, path)
    ensures path[0] != path[|path| - 1]
  {
    MarksFallAlongWaits(s, path);
  }

  /** Behind every blocked CPU stands a switching CPU that is not blocked. */
  lemma {:induction false} SomeSwitchIsNotBlocked(s: State, c: CpuId) returns (d: CpuId)
    requires Inv(s) && c < |s.cpus| && Blocked(s, c)
    ensures d < |s.cpus| && Switching(s.cpus[d]) && !Blocked(s, d) && s.cpus[d].mark < s.cpus[c].mark
    decreases s.cpus[c].mark
  {
    d := WaitIsForAnEarlierSwitch(s, c);
    if Blocked(s, d) { d := SomeSwitchIsNotBlocked(s, d); }
  }

  ghost predicate CanSwitch(s: State, c: CpuId) {
    && c < |s.cpus| && Switching(s.cpus[c])
    && (s.cpus[c].Picking? ==> PickNext.requires(s, c))
    && (s.cpus[c].Balancing? ==> Balance.requires(s, c))
    && (s.cpus[c].Jumping? ==> AcquireContext.requires(s, c))
    && (s.cpus[c].Loaded? ==> SwitchStacks.requires(s, c))
    && (s.cpus[c].Saving? ==> SaveContext.requires(s, c))
  }

  /** The next step of a CPU inside `schedule` or `jumpTo`. */
  function SwitchStep(s: State, c: CpuId): State
    requires CanSwitch(s, c)
  {
    match s.cpus[c]
    case Picking(_, _, _) => PickNext(s, c)
    case Balancing(_, _, _) => Balance(s, c)
    case Jumping(_, _, _) => AcquireContext(s, c)
    case Loaded(_, _, _) => SwitchStacks(s, c)
    case Saving(_, _, _, _) => SaveContext(s, c)
  }

  function SwitchRank(s: State, c: CpuId): nat
    requires c < |s.cpus|
  {
    match s.cpus[c]
    case Running(_) => 0
    case Checking(_, _) => 0
    case Picking(_, _, balanced) => if balanced then 6 else |s.cpus| + 8
    case Balancing(_, _, from) => 7 + if from < |s.cpus| then |s.cpus| - from else 0
    case Jumping(_, _, _) => 5
    case Loaded(_, _, _) => 4
    case Saving(_, _, _, stored) => if stored then 2 else 3
  }

  /** No operation of the scheduler trips over a missing thread, queue or context. */
  lemma SwitchStepKeepsInv(s: State, c: CpuId)
    requires Inv(s) && c < |s.cpus| && Switching(s.cpus[c])
    ensures CanSwitch(s, c)
    ensures Inv(SwitchStep(s, c))
  {
    match s.cpus[c]
    case Picking(_, _, _) => PickNextKeepsInv(s, c);
    case Balancing(_, _, _) => BalanceKeepsInv(s, c);
    case Jumping(_, _, _) => AcquireContextKeepsInv(s, c);
    case Loaded(_, _, _) => SwitchStacksKeepsInv(s, c);
    case Saving(_, _, _, _) => SaveContextKeepsInv(s, c);
  }

  lemma PickRank(s: State, c: CpuId)
    requires CanSwitch(s, c) && s.cpus[c].Picking?
    ensures SwitchRank(SwitchStep(s, c), c) < SwitchRank(s, c)
  {
  }

  lemma BalanceRank(s: State, c: CpuId)
    requires CanSwitch(s, c) && s.cpus[c].Balancing?
    ensures SwitchRank(SwitchStep(s, c), c) < SwitchRank(s, c)
  {
  }

  /** A switch that is not blocked gets strictly nearer to thread code with each of its own steps,
      and a step of another CPU never sets it back. */
  lemma SwitchMakesProgress(s: State, c: CpuId, d: CpuId)
    requires CanSwitch(s, c) && d < |s.cpus|
    ensures !Blocked(s, c) ==> SwitchRank(SwitchStep(s, c), c) < SwitchRank(s, c)
    ensures |SwitchStep(s, c).cpus| == |s.cpus| && (d != c ==> SwitchRank(SwitchStep(s, c), d) == SwitchRank(s, d))
  {
    match s.cpus[c]
    case Picking(_, _, _) => PickRank(s, c);
    case Balancing(_, _, _) => BalanceRank(s, c);
    case _ =>
  }

  /** What a kernel step of `c` means for thread code: nobody's runnable flag changes, no other CPU is
      disturbed, and a thread that `c` returns to is runnable. */
  ghost predicate KernelStep(s: State, s': State, c: CpuId) {
    && |s'.cpus| == |s.cpus| && |s'.runq| == |s.runq| && s'.idle == s.idle && s'.threads.Keys == s.threads.Keys
        && c < |s.cpus|
    && (forall d | 0 <= d < |s.cpus| && d != c :: s'.cpus[d] == s.cpus[d])
    && (forall u | u in s.threads :: s'.threads[u].onQueue == s.threads[u].onQueue)
    && (forall u, d | u in s.threads && d != c :: s'.threads[u].runner == Some(d) <==> s.threads[u].runner == Some(d))
    && (s'.cpus[c].Running? && s'.cpus[c].cur.Some? ==>
          var u := s'.cpus[c].cur.value; u in s.threads && (IsIdle(s, u) || s.threads[u].onQueue))
  }

  lemma SelectView(s: State, s1: State, c: CpuId, t: Tid)
    requires Shape(s) && c < |s.cpus| && s.cpus[c].Picking? && t in s.threads
    requires s.threads[t].runner in {None, Some(c)} && (IsIdle(s, t) || s.threads[t].onQueue)
    requires t in s1.threads
    requires s1 == s.(runq := s1.runq, threads := s.threads[t :=
             s.threads[t].(running := s1.threads[t].running, runner := Some(c))])
    requires |s1.runq| == |s.runq|
    ensures KernelStep(s, Select(s1, c, t), c)
  {
  }

  lemma PickView(s: State, c: CpuId)
    requires Shape(s) && c < |s.cpus| && s.cpus[c].Picking? && PickNext.requires(s, c)
    requires s.runq[c] != [] ==> s.threads[s.runq[c][0]].onQueue && s.threads[s.runq[c][0]].runner.None?
    requires s.threads[s.idle[c]].runner in {None, Some(c)}
    ensures KernelStep(s, PickNext(s, c), c)
  {
    if s.runq[c] != [] {
      var t := s.runq[c][0];
      SelectView(s, SetThread(s.(runq := s.runq[c := s.runq[c][1..]]), t,
          s.threads[t].(running := true, runner := Some(c))), c, t);
    } else if s.cpus[c].balanced {
      var t := s.idle[c];
      SelectView(s, SetThread(s, t, s.threads[t].(runner := Some(c))), c, t);
    }
  }

  lemma BalanceView(s: State, c: CpuId)
    requires Shape(s) && c < |s.cpus| && s.cpus[c].Balancing? && Balance.requires(s, c)
    ensures KernelStep(s, Balance(s, c), c)
  {
  }

  lemma JumpView(s: State, c: CpuId)
    requires Shape(s) && CanSwitch(s, c) && CpuOk(s, c)
             && (s.cpus[c].Jumping? || s.cpus[c].Loaded? || s.cpus[c].Saving?)
    ensures KernelStep(s, SwitchStep(s, c), c)
  {
  }

  lemma MarkView(s: State, c: CpuId)
    requires c < |s.cpus| && s.cpus[c].Checking? && MarkNotRunning.requires(s, c)
    requires s.cpus[c].cur.Some? ==> s.threads[s.cpus[c].cur.value].runner == Some(c)
    ensures KernelStep(s, MarkNotRunning(s, c), c)
  {
  }

  /** Every step of `schedule` and `jumpTo` is a kernel step in this sense. */
  lemma KernelStepsAreInvisible(s: State, c: CpuId)
    requires Inv(s) && c < |s.cpus| && !s.cpus[c].Running?
    ensures s.cpus[c].Checking? ==> MarkNotRunning.requires(s, c) && KernelStep(s, MarkNotRunning(s, c), c)
    ensures Switching(s.cpus[c]) ==> CanSwitch(s, c) && KernelStep(s, SwitchStep(s, c), c)
  {
    if s.cpus[c].Checking? {
      MarkNotRunningKeepsInv(s, c);
      if s.cpus[c].cur.Some? { assert Runs(s.cpus[c], s.cpus[c].cur.value); }
      MarkView(s, c);
    } else {
      SwitchStepKeepsInv(s, c);
      IdleStaysHome(s, c);
      if s.cpus[c].Picking? {
        if s.runq[c] != [] {
          var t := s.runq[c][0];
          assert t in s.runq[c] && QueueOk(s, c);
          assert ThreadOk(s, t);
        }
        PickView(s, c);
      } else if s.cpus[c].Balancing? {
        BalanceView(s, c);
      } else {
        JumpView(s, c);
      }
    }
  }
}

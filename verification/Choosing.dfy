/** Which thread `schedule` of libOS/sched.cpp:202-244 gives a CPU: the front of its own queue; when that is empty
    the first thread it can pull from the lowest-numbered other queue that has one; and the idle thread
    only when there is none. */
module Choosing {
  import opened Basics
  import S = Scheduler
  import B = Blocking

  type Tid = S.Tid
  type CpuId = S.CpuId

  /** `n` kernel steps of CPU `c`. */
  function Kernels(c: CpuId, n: nat): seq<B.Move> { seq(n, i => B.Kernel(c)) }

  lemma KernelsAdd(w: B.World, c: CpuId, m: nat, n: nat)
    requires B.Inv(w)
    ensures B.Exec(w, Kernels(c, m + n)) == B.Exec(B.Exec(w, Kernels(c, m)), Kernels(c, n))
  {
    hide B.Inv, B.Step;
    assert Kernels(c, m + n) == Kernels(c, m) + Kernels(c, n);
    B.ExecTwice(w, Kernels(c, m), Kernels(c, n));
  }

  lemma OneKernel(w: B.World, c: CpuId)
    requires B.Inv(w)
    ensures B.Exec(w, Kernels(c, 1)) == B.KernelMove(w, c)
  {
    hide B.Inv, B.KernelMove;
    var k := Kernels(c, 1);
    assert k[..0] == [] && k[0] == B.Kernel(c);
    assert B.Exec(w, []) == w;
  }

  /** A kernel step of a CPU that is switching. */
  lemma SwitchMove(w: B.World, c: CpuId)
    requires B.Inv(w) && c < |w.sched.cpus| && S.Switching(w.sched.cpus[c])
    ensures S.CanSwitch(w.sched, c) && B.KernelMove(w, c) == w.(sched := S.SwitchStep(w.sched, c))
  {
    hide S.Inv, B.FutexOk, B.RequestOk, B.BucketOk, B.WatchOk, S.SwitchStep;
    B.KernelKeepsInv(w, c);
  }

  /** The thread can be moved to another CPU: nobody runs it and its context is saved. */
  predicate Movable(th: S.Thread) { !th.running && th.contextGood }

  ghost predicate NoneMovable(s: S.State, d: CpuId)
    requires d < |s.runq|
  {
    forall u | u in s.runq[d] :: u in s.threads && !Movable(s.threads[u])
  }

  /** `t` is the first thread that can be moved in queue `d`, and no queue from `from` up to `d`, but for that of
      `c` itself, has one. */
  ghost predicate FirstFrom(s: S.State, c: CpuId, from: nat, d: CpuId, t: Tid) {
    && from <= d < |s.runq| && d != c
    && (exists k | 0 <= k < |s.runq[d]| ::
          && s.runq[d][k] == t && t in s.threads && Movable(s.threads[t])
          && forall u | u in s.runq[d][..k] :: u in s.threads && !Movable(s.threads[u]))
    && forall e | from <= e < d && e != c :: NoneMovable(s, e)
  }

  ghost predicate NoneFrom(s: S.State, c: CpuId, from: nat) {
    forall e | from <= e < |s.runq| && e != c :: NoneMovable(s, e)
  }

  /** The state after `t` was pulled from queue `d` into the empty queue of `c`. */
  ghost predicate Pulled(s: S.State, s': S.State, c: CpuId, d: CpuId, t: Tid) {
    && |s'.cpus| == |s.cpus| == |s'.runq| == |s.runq| && s'.idle == s.idle && c < |s.runq| && d < |s.runq| && d != c
    && s'.runq == s.runq[d := Remove(s.runq[d], t)][c := [t]]
    && t in s.threads && s'.threads == s.threads[t := s.threads[t].(queue := Some(c))]
    && forall e | 0 <= e < |s.cpus| && e != c :: s'.cpus[e] == s.cpus[e]
  }

  ghost function AtCpu(s: S.State, c: CpuId, cpu: S.Cpu): S.State
    requires c < |s.cpus|
  {
    s.(cpus := s.cpus[c := cpu])
  }

  /** One look of a CPU at another queue: it pulls the first thread that can be moved, and goes on to the next queue
      only if there is none. */
  lemma Look(s: S.State, c: CpuId, prev: Option<Tid>, mark: nat, from: nat)
    requires S.CanSwitch(s, c) && s.cpus[c] == S.Balancing(prev, mark, from)
    requires c < |s.runq| == |s.cpus| == |s.idle| && s.runq[c] == []
    requires forall i, t | 0 <= i < |s.runq| && t in s.runq[i] :: t in s.threads
    ensures |S.SwitchStep(s, c).cpus| == |s.cpus|
    ensures var s' := S.SwitchStep(s, c);
            if from >= |s.cpus| then s' == AtCpu(s, c, S.Picking(prev, mark, true))
            else if from == c || NoneMovable(s, from) then s' == AtCpu(s, c, S.Balancing(prev, mark, from + 1))
            else
              && s'.cpus[c] == S.Picking(prev, mark, true)
              && exists t: Tid :: FirstFrom(s, c, from, from, t) && Pulled(s, s', c, from, t)
  {
    if from < |s.cpus| && from != c {
      var f := S.FirstPullable(s.threads, s.runq[from]);
      if f.Some? {
        var t := f.value;
        assert FirstFrom(s, c, from, from, t);
        assert [] + [t] == [t];
        assert Pulled(s, S.SwitchStep(s, c), c, from, t);
      }
    }
  }

  lemma QueuedAreThreads(s: S.State)
    requires S.Inv(s)
    ensures |s.runq| == |s.cpus| == |s.idle| && forall i, t | 0 <= i < |s.runq| && t in s.runq[i] :: t in s.threads
  {
    forall i, t | 0 <= i < |s.runq| && t in s.runq[i] ensures t in s.threads { assert S.QueueOk(s, i); }
  }

  /** What a CPU has found when it has looked at all queues from `from` on. */
  ghost predicate Found(s: S.State, s': S.State, c: CpuId, from: nat)
    requires c < |s.cpus|
  {
    if NoneFrom(s, c, from) then s'.runq == s.runq && s'.threads == s.threads && s'.idle == s.idle
        && |s'.cpus| == |s.cpus|
    else exists d: CpuId, t: Tid :: FirstFrom(s, c, from, d, t) && Pulled(s, s', c, d, t)
  }

  lemma FoundLater(s: S.State, s1: S.State, s': S.State, c: CpuId, from: nat)
    requires c < |s.cpus| == |s.runq| && from < |s.runq| && (from == c || NoneMovable(s, from))
    requires |s1.cpus| == |s.cpus| && s1 == AtCpu(s, c, s1.cpus[c]) && Found(s1, s', c, from + 1)
    ensures Found(s, s', c, from)
  {
    assert forall e | 0 <= e < |s.runq| :: NoneMovable(s1, e) <==> NoneMovable(s, e);
    if NoneFrom(s1, c, from + 1) {
      assert NoneFrom(s, c, from);
    } else {
      var d: CpuId, t: Tid :| FirstFrom(s1, c, from + 1, d, t) && Pulled(s1, s', c, d, t);
      assert FirstFrom(s, c, from, d, t) && Pulled(s, s', c, d, t);
    }
  }

  /** Pull balancing to its end, in `n` kernel steps. */
  lemma {:induction false} LookOn(w: B.World, c: CpuId, prev: Option<Tid>, mark: nat, from: nat)
      returns (n: nat, s': S.State)
    requires B.Inv(w) && c < |w.sched.cpus| && w.sched.cpus[c] == S.Balancing(prev, mark, from)
    requires c < |w.sched.runq| && w.sched.runq[c] == []
    ensures B.Exec(w, Kernels(c, n)) == w.(sched := s') && |s'.cpus| == |w.sched.cpus|
            && s'.cpus[c] == S.Picking(prev, mark, true)
    ensures Found(w.sched, s', c, from)
    decreases if from > |w.sched.cpus| then 0 else |w.sched.cpus| + 1 - from
  {
    hide S.Inv, B.Layer, S.SwitchStep, B.KernelMove, Found, FirstFrom, Pulled, NoneMovable;
    var s := w.sched;
    SwitchMove(w, c);
    QueuedAreThreads(s);
    Look(s, c, prev, mark, from);
    OneKernel(w, c);
    s' := S.SwitchStep(s, c);
    n := 1;
    if from >= |s.cpus| {
      FoundNothing(s, s', c, from);
    } else if from == c || NoneMovable(s, from) {
      var w1 := w.(sched := s');
      var m, last := LookOn(w1, c, prev, mark, from + 1);
      KernelsAdd(w, c, 1, m);
      FoundLater(s, s', last, c, from);
      n, s' := 1 + m, last;
    } else {
      FoundHere(s, s', c, from);
    }
  }

  lemma FoundNothing(s: S.State, s': S.State, c: CpuId, from: nat)
    requires c < |s.cpus| == |s.runq| <= from && |s'.cpus| == |s.cpus| && s' == AtCpu(s, c, s'.cpus[c])
    ensures Found(s, s', c, from)
  {
  }

  lemma FoundHere(s: S.State, s': S.State, c: CpuId, from: nat)
    requires c < |s.cpus| == |s.runq| && from < |s.runq| && from != c && !NoneMovable(s, from)
    requires exists t: Tid :: FirstFrom(s, c, from, from, t) && Pulled(s, s', c, from, t)
    ensures Found(s, s', c, from)
  {
  }

  /** CPU `c` has chosen `t`: it is about to jump to it, or goes on with it if it was its last thread. */
  predicate Chose(cpu: S.Cpu, prev: Option<Tid>, mark: nat, t: Tid) {
    cpu == if prev == Some(t) then S.Running(Some(t)) else S.Jumping(prev, mark, t)
  }

  lemma Pick(s: S.State, c: CpuId, prev: Option<Tid>, mark: nat, balanced: bool)
    requires S.CanSwitch(s, c) && s.cpus[c] == S.Picking(prev, mark, balanced) && c < |s.runq| == |s.cpus| == |s.idle|
    ensures var s' := S.SwitchStep(s, c);
            && |s'.cpus| == |s.cpus|
            && (s.runq[c] != [] ==>
                 Chose(s'.cpus[c], prev, mark, s.runq[c][0]) && s'.runq == s.runq[c := s.runq[c][1..]])
            && (s.runq[c] == [] && balanced ==> Chose(s'.cpus[c], prev, mark, s.idle[c]) && s'.runq == s.runq)
            && (s.runq[c] == [] && !balanced ==> s' == AtCpu(s, c, S.Balancing(prev, mark, 0)))
  {
  }

  /** `schedule` after its thread was marked: with a thread in its own queue the CPU takes the front. */
  lemma OwnQueueFirst(w: B.World, c: CpuId, prev: Option<Tid>, mark: nat)
    requires B.Inv(w) && c < |w.sched.cpus| && w.sched.cpus[c] == S.Picking(prev, mark, false)
    requires c < |w.sched.runq| && w.sched.runq[c] != []
    ensures var s' := B.Exec(w, Kernels(c, 1)).sched;
            && |s'.cpus| == |w.sched.cpus| && Chose(s'.cpus[c], prev, mark, w.sched.runq[c][0])
            && s'.runq == w.sched.runq[c := w.sched.runq[c][1..]]
  {
    hide S.Inv, B.Layer, S.SwitchStep, B.KernelMove;
    SwitchMove(w, c);
    QueuedAreThreads(w.sched);
    Pick(w.sched, c, prev, mark, false);
    OneKernel(w, c);
  }

  /** With its own queue empty it ends up in its idle thread if and only if no other queue has a thread that can
      be moved; otherwise in the first such thread of the lowest-numbered queue that has one. */
  lemma IdleOnlyIfNothingToPull(w: B.World, c: CpuId, prev: Option<Tid>, mark: nat) returns (n: nat)
    requires B.Inv(w) && c < |w.sched.cpus| && w.sched.cpus[c] == S.Picking(prev, mark, false)
    requires c < |w.sched.runq| && w.sched.runq[c] == []
    ensures c < |w.sched.idle|
    ensures var s, s' := w.sched, B.Exec(w, Kernels(c, n)).sched;
            && |s'.cpus| == |s.cpus|
            && (NoneFrom(s, c, 0) ==> Chose(s'.cpus[c], prev, mark, s.idle[c]) && s'.runq == s.runq)
            && (!NoneFrom(s, c, 0) ==>
                  exists d: CpuId, t: Tid :: FirstFrom(s, c, 0, d, t) && Chose(s'.cpus[c], prev, mark, t)
                                 && s'.runq == s.runq[d := Remove(s.runq[d], t)])
  {
    hide S.Inv, B.Layer, S.SwitchStep, B.KernelMove, Found, FirstFrom, NoneFrom, Chose;
    var s := w.sched;
    SwitchMove(w, c);
    QueuedAreThreads(s);
    Pick(s, c, prev, mark, false);
    OneKernel(w, c);
    var w1 := w.(sched := AtCpu(s, c, S.Balancing(prev, mark, 0)));
    assert w1 == B.Exec(w, Kernels(c, 1));
    var m, s2 := LookOn(w1, c, prev, mark, 0);
    KernelsAdd(w, c, 1, m);
    var w2 := B.Exec(w, Kernels(c, 1 + m));
    SwitchMove(w2, c);
    QueuedAreThreads(s2);
    Pick(s2, c, prev, mark, true);
    OneKernel(w2, c);
    KernelsAdd(w, c, 1 + m, 1);
    n := m + 2;
    Chosen(s, w1.sched, s2, S.SwitchStep(s2, c), c, prev, mark);
  }

  lemma Chosen(s: S.State, s1: S.State, s2: S.State, s3: S.State, c: CpuId, prev: Option<Tid>, mark: nat)
    requires c < |s.cpus| == |s.runq| == |s.idle| && s.runq[c] == []
    requires |s1.cpus| == |s.cpus| && s1 == AtCpu(s, c, s1.cpus[c]) && Found(s1, s2, c, 0)
    requires |s3.cpus| == |s2.cpus| == |s2.runq| == |s2.idle| && c < |s2.runq|
    requires s2.runq[c] != [] ==>
               Chose(s3.cpus[c], prev, mark, s2.runq[c][0]) && s3.runq == s2.runq[c := s2.runq[c][1..]]
    requires s2.runq[c] == [] ==> Chose(s3.cpus[c], prev, mark, s2.idle[c]) && s3.runq == s2.runq
    ensures NoneFrom(s, c, 0) ==> Chose(s3.cpus[c], prev, mark, s.idle[c]) && s3.runq == s.runq
    ensures !NoneFrom(s, c, 0) ==>
              exists d: CpuId, t: Tid :: FirstFrom(s, c, 0, d, t) && Chose(s3.cpus[c], prev, mark, t)
                             && s3.runq == s.runq[d := Remove(s.runq[d], t)]
  {
    hide Chose;
    assert forall e | 0 <= e < |s.runq| :: NoneMovable(s1, e) <==> NoneMovable(s, e);
    assert NoneFrom(s1, c, 0) <==> NoneFrom(s, c, 0);
    if !NoneFrom(s, c, 0) {
      var d: CpuId, t: Tid :| FirstFrom(s1, c, 0, d, t) && Pulled(s1, s2, c, d, t);
      assert FirstFrom(s, c, 0, d, t);
      assert s2.runq[c] == [t] && [t][1..] == [];
      assert s3.runq == s.runq[d := Remove(s.runq[d], t)];
    }
  }

  /** The step before: the CPU marks its thread not running, and puts it back if it can still run. */
  lemma MarkMove(w: B.World, c: CpuId)
    requires B.Inv(w) && c < |w.sched.cpus| && c < |w.watch| && w.sched.cpus[c].Checking?
             && w.sched.cpus[c].at >= |w.watch[c]|
    ensures c < |w.sched.runq|
    ensures var s, s' := w.sched, B.Exec(w, Kernels(c, 1)).sched;
            var cur := s.cpus[c].cur;
            && |s'.cpus| == |s.cpus| && s'.cpus[c] == S.Picking(cur, s.clock, false)
            && (cur.Some? ==> cur.value in s.threads)
            && s'.runq == s.runq[c := s.runq[c] + if cur.Some? && s.threads[cur.value].onQueue then [cur.value] else []]
  {
    hide S.Inv, B.Layer, S.MarkNotRunning, B.KernelMove;
    QueuedAreThreads(w.sched);
    MarkMoveIs(w, c);
    if w.sched.cpus[c].cur.Some? { S.CurrentIsHome(w.sched, c); }
    MarkIs(w.sched, c);
    OneKernel(w, c);
  }

  lemma MarkMoveIs(w: B.World, c: CpuId)
    requires B.Inv(w) && c < |w.sched.cpus| && c < |w.watch| && w.sched.cpus[c].Checking?
             && w.sched.cpus[c].at >= |w.watch[c]|
    ensures S.MarkNotRunning.requires(w.sched, c) && B.KernelMove(w, c) == w.(sched := S.MarkNotRunning(w.sched, c))
  {
    hide S.Inv, B.FutexOk, B.RequestOk, B.BucketOk, B.WatchOk, S.MarkNotRunning;
    B.KernelKeepsInv(w, c);
  }

  lemma MarkIs(s: S.State, c: CpuId)
    requires c < |s.cpus| == |s.runq| && s.cpus[c].Checking? && S.MarkNotRunning.requires(s, c)
    requires s.cpus[c].cur.Some? && s.threads[s.cpus[c].cur.value].onQueue
             ==> s.threads[s.cpus[c].cur.value].queue == Some(c)
    ensures var s', cur := S.MarkNotRunning(s, c), s.cpus[c].cur;
            && |s'.cpus| == |s.cpus| && s'.cpus[c] == S.Picking(cur, s.clock, false)
            && s'.runq == s.runq[c := s.runq[c] + if cur.Some? && s.threads[cur.value].onQueue then [cur.value] else []]
  {
    assert s.runq[c] + [] == s.runq[c];
  }
}

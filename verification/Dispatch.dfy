/** Order of dispatch: a run queue is served front first (libOS/sched.cpp:202-218), threads join it at the
    back, and so no thread is overtaken while it waits in the queue of one CPU. */
module Dispatch {
  import opened Basics
  import S = Scheduler
  import B = Blocking

  type Tid = S.Tid
  type CpuId = S.CpuId

  /** How many threads are served from `q` before `t`. */
  function Place(q: seq<Tid>, t: Tid): (k: nat)
    requires t in q
    ensures k < |q| && q[k] == t && t !in q[..k]
  {
    if q[0] == t then 0
    else
      assert q == [q[0]] + q[1..];
      var k := Place(q[1..], t);
      assert q[..k + 1] == [q[0]] + q[1..][..k];
      1 + k
  }

  /** Nobody who stays in the queue has more threads before it than it had. */
  ghost predicate NoOvertaking(q: seq<Tid>, q': seq<Tid>) {
    forall t | t in q && t in q' :: Place(q', t) <= Place(q, t)
  }

  lemma PlaceIs(q: seq<Tid>, t: Tid, k: nat)
    requires k < |q| && q[k] == t && t !in q[..k]
    ensures t in q && Place(q, t) == k
  {
    var p := Place(q, t);
    forall i | 0 <= i < k ensures q[i] != t { assert q[i] == q[..k][i]; }
    forall i | 0 <= i < p ensures q[i] != t { assert q[i] == q[..p][i]; }
  }

  lemma JoiningOvertakesNobody(q: seq<Tid>, x: Tid)
    ensures NoOvertaking(q, q + [x])
  {
    forall t | t in q ensures Place(q + [x], t) == Place(q, t) {
      var k := Place(q, t);
      assert (q + [x])[..k] == q[..k];
      PlaceIs(q + [x], t, k);
    }
  }

  /** When the front is served everybody else moves up by one. */
  lemma ServingMovesUp(q: seq<Tid>)
    requires q != [] && NoDuplicates(q)
    ensures forall t | t in q[1..] :: t in q && Place(q, t) == Place(q[1..], t) + 1
    ensures NoOvertaking(q, q[1..])
  {
    forall t | t in q[1..] ensures t in q && Place(q, t) == Place(q[1..], t) + 1 {
      assert t != q[0];
    }
  }

  lemma {:induction false} LeavingOvertakesNobody(q: seq<Tid>, x: Tid)
    requires NoDuplicates(q)
    ensures NoOvertaking(q, Remove(q, x))
  {
    if q != [] {
      if q[0] == x {
        ServingMovesUp(q);
      } else {
        LeavingOvertakesNobody(q[1..], x);
        RemoveMembers(q, x);
        RemoveMembers(q[1..], x);
        var e := Remove(q[1..], x);
        assert Remove(q, x) == [q[0]] + e && ([q[0]] + e)[1..] == e;
        forall t | t in q && t in Remove(q, x) ensures Place(Remove(q, x), t) <= Place(q, t) {
          if t != q[0] { assert t in q[1..] && t in e; }
        }
      }
    }
  }

  // ---------------------------------------------------------------- scheduler operations

  ghost predicate KeepsOrder(s: S.State, s': S.State) {
    |s'.runq| == |s.runq| && forall c | 0 <= c < |s.runq| :: NoOvertaking(s.runq[c], s'.runq[c])
  }

  lemma SameQueues(s: S.State, s': S.State)
    requires s'.runq == s.runq
    ensures KeepsOrder(s, s')
  {
  }

  lemma JoinKeepsOrder(s: S.State, s': S.State, c: CpuId, t: Tid)
    requires c < |s.runq| && (s'.runq == s.runq || s'.runq == s.runq[c := s.runq[c] + [t]])
    ensures KeepsOrder(s, s')
  {
    JoiningOvertakesNobody(s.runq[c], t);
  }

  lemma QueueIsDuplicateFree(s: S.State, c: CpuId)
    requires S.Inv(s) && c < |s.runq|
    ensures NoDuplicates(s.runq[c])
  {
    assert S.QueueOk(s, c);
  }

  lemma EnqueueKeepsOrder(s: S.State, c: CpuId, t: Tid)
    requires S.EnqueueTask.requires(s, c, t)
    ensures KeepsOrder(s, S.EnqueueTask(s, c, t))
  {
    JoinKeepsOrder(s, S.EnqueueTask(s, c, t), c, t);
  }

  lemma DequeueKeepsOrder(s: S.State, t: Tid)
    requires S.Inv(s) && S.DequeueTask.requires(s, t)
    ensures KeepsOrder(s, S.DequeueTask(s, t))
  {
    var q := s.threads[t].queue.value;
    QueueIsDuplicateFree(s, q);
    LeavingOvertakesNobody(s.runq[q], t);
  }

  lemma MarkKeepsOrder(s: S.State, c: CpuId)
    requires S.MarkNotRunning.requires(s, c)
    ensures KeepsOrder(s, S.MarkNotRunning(s, c))
  {
    if s.cpus[c].cur.Some? && s.threads[s.cpus[c].cur.value].onQueue {
      JoinKeepsOrder(s, S.MarkNotRunning(s, c), s.threads[s.cpus[c].cur.value].queue.value, s.cpus[c].cur.value);
    }
  }

  /** A pick takes the front of the CPU's own queue, and makes it current; everybody behind moves up by one. */
  lemma PickServesTheFront(s: S.State, c: CpuId)
    requires S.Inv(s) && S.PickNext.requires(s, c)
    ensures KeepsOrder(s, S.PickNext(s, c))
    ensures s.runq[c] != [] ==>
              var s', t := S.PickNext(s, c), s.runq[c][0];
              && S.Runs(s'.cpus[c], t) && t !in s'.runq[c]
              && forall u | u in s.runq[c] && u != t ::
                  u in s'.runq[c] && Place(s'.runq[c], u) == Place(s.runq[c], u) - 1
  {
    QueueIsDuplicateFree(s, c);
    if s.runq[c] != [] {
      ServingMovesUp(s.runq[c]);
      assert s.runq[c] == [s.runq[c][0]] + s.runq[c][1..];
    }
  }

  lemma BalanceKeepsOrder(s: S.State, c: CpuId)
    requires S.Inv(s) && S.Balance.requires(s, c)
    ensures KeepsOrder(s, S.Balance(s, c))
  {
    var b := s.cpus[c];
    if b.from < |s.cpus| && b.from != c {
      var f := S.FirstPullable(s.threads, s.runq[b.from]);
      if f.Some? {
        QueueIsDuplicateFree(s, b.from);
        LeavingOvertakesNobody(s.runq[b.from], f.value);
        JoiningOvertakesNobody(s.runq[c], f.value);
      }
    }
  }

  lemma SwitchKeepsOrder(s: S.State, c: CpuId)
    requires S.Inv(s) && S.CanSwitch(s, c)
    ensures KeepsOrder(s, S.SwitchStep(s, c))
  {
    match s.cpus[c]
    case Picking(_, _, _) => PickServesTheFront(s, c);
    case Balancing(_, _, _) => BalanceKeepsOrder(s, c);
    case Jumping(_, _, _) => SameQueues(s, S.AcquireContext(s, c));
    case Loaded(_, _, _) => SameQueues(s, S.SwitchStacks(s, c));
    case Saving(_, _, _, _) => SameQueues(s, S.SaveContext(s, c));
  }

  lemma CallKeepsOrder(s: S.State, s': S.State, c: CpuId, t: Tid, u: Tid)
    requires S.Inv(s) && B.SchedCall(s, s', c, t, u)
    ensures KeepsOrder(s, s')
  {
    hide S.Inv;
    if s' == s || (c < |s.cpus| && s.cpus[c].Running? && s' == S.StartSchedule(s, c)) {
      SameQueues(s, s');
    } else if S.DequeueTask.requires(s, t) && s' == S.DequeueTask(s, t) {
      DequeueKeepsOrder(s, t);
    } else {
      EnqueueKeepsOrder(s, c, u);
    }
  }

  // ---------------------------------------------------------------- every step of every run

  lemma RunKeepsOrder(w: B.World, c: CpuId, choice: bool)
    requires B.Inv(w)
    ensures KeepsOrder(w.sched, B.RunMove(w, c, choice).sched)
  {
    hide S.Inv, B.Layer;
    if B.RunsThread(w, c) {
      var t := w.sched.cpus[c].cur.value;
      B.ThreadCanStep(w, c);
      B.HeadIsAsleep(w, c, t);
      B.ThreadStepCalls(w, c, t, choice, B.HeadOf(w, t));
      CallKeepsOrder(w.sched, B.ThreadStep(w, c, t, choice).sched, c, t, B.HeadOf(w, t));
    } else {
      SameQueues(w.sched, w.sched);
    }
  }

  lemma StartKeepsOrder(w: B.World, c: CpuId, u: Tid)
    requires c < |w.sched.runq|
    ensures KeepsOrder(w.sched, B.StartThread(w, c, u).sched)
  {
    JoinKeepsOrder(w.sched, B.StartThread(w, c, u).sched, c, u);
  }

  lemma InvokeKeepsOrder(w: B.World, c: CpuId, call: B.Call)
    requires B.Inv(w)
    ensures KeepsOrder(w.sched, B.InvokeMove(w, c, call).sched)
  {
    hide S.Inv, B.Layer;
    if B.RunsThread(w, c) && w.pcs[w.sched.cpus[c].cur.value].Free? {
      var t := w.sched.cpus[c].cur.value;
      B.InvokeKeepsInv(w, c, t, call);
      if call.Exit? {
        DequeueKeepsOrder(w.sched, t);
      } else if call.Clone? && call.child !in w.sched.threads {
        StartKeepsOrder(w, c, call.child);
      } else {
        SameQueues(w.sched, B.Invoke(w, c, t, call).sched);
      }
    } else {
      SameQueues(w.sched, w.sched);
    }
  }

  lemma KernelKeepsOrder(w: B.World, c: CpuId)
    requires B.Inv(w)
    ensures KeepsOrder(w.sched, B.KernelMove(w, c).sched)
  {
    hide S.Inv, B.FutexOk, B.RequestOk, B.BucketOk, B.WatchOk;
    if c >= |w.sched.cpus| || w.sched.cpus[c].Running? {
      SameQueues(w.sched, w.sched);
    } else if w.sched.cpus[c].Checking? && w.sched.cpus[c].at < |w.watch[c]| {
      B.WatchTurnKeepsInv(w, c);
      JoinKeepsOrder(w.sched, B.WatchTurn(w, c).sched, c, w.watch[c][w.sched.cpus[c].at]);
    } else {
      B.KernelKeepsInv(w, c);
      if w.sched.cpus[c].Checking? {
        MarkKeepsOrder(w.sched, c);
      } else {
        SwitchKeepsOrder(w.sched, c);
      }
    }
  }

  /** No step of any thread, CPU or of the swapper lets a thread overtake another in a run queue. */
  lemma StepKeepsOrder(w: B.World, m: B.Move)
    requires B.Inv(w)
    ensures KeepsOrder(w.sched, B.Step(w, m).sched)
  {
    hide S.Inv, B.Layer, KeepsOrder;
    match m
    case Run(c, choice) => RunKeepsOrder(w, c, choice);
    case Invoking(c, call) => InvokeKeepsOrder(w, c, call);
    case Preempt(c) => SameQueues(w.sched, B.PreemptMove(w, c).sched);
    case Kernel(c) => KernelKeepsOrder(w, c);
    case BootClone(c, u) => BootKeepsOrder(w, c, u);
    case Take => SameQueues(w.sched, B.SwapperMove(w, m).sched);
    case Work(_, _) => SameQueues(w.sched, B.SwapperMove(w, m).sched);
  }

  lemma BootKeepsOrder(w: B.World, c: CpuId, u: Tid)
    requires B.Inv(w)
    ensures KeepsOrder(w.sched, B.BootMove(w, c, u).sched)
  {
    if c < |w.sched.cpus| && w.sched.cpus[c] == S.Running(None) && u !in w.sched.threads {
      StartKeepsOrder(w, c, u);
    } else {
      SameQueues(w.sched, w.sched);
    }
  }

  /** Thread `t` waits in the run queue of CPU `c` throughout the run. */
  ghost predicate Waits(w: B.World, run: seq<B.Move>, c: CpuId, t: Tid)
    requires B.Inv(w)
  {
    forall k | 0 <= k <= |run| :: var s := B.Exec(w, run[..k]).sched; c < |s.runq| && t in s.runq[c]
  }

  /** Move `m` is the step of `schedule` in which CPU `c` takes its next thread. */
  predicate IsPick(w: B.World, m: B.Move, c: CpuId) {
    m == B.Kernel(c) && c < |w.sched.cpus| && w.sched.cpus[c].Picking?
  }

  /** How many threads CPU `c` is given in the run. */
  ghost function Picks(w: B.World, run: seq<B.Move>, c: CpuId): nat
    requires B.Inv(w)
  {
    if run == [] then 0
    else
      var last := |run| - 1;
      Picks(w, run[..last], c) + if IsPick(B.Exec(w, run[..last]), run[last], c) then 1 else 0
  }

  lemma PickMovesUp(w: B.World, c: CpuId, t: Tid)
    requires B.Inv(w) && IsPick(w, B.Kernel(c), c)
    requires c < |w.sched.runq| && t in w.sched.runq[c]
    ensures var q := B.KernelMove(w, c).sched.runq;
              c < |q| && (t in q[c] ==> Place(q[c], t) == Place(w.sched.runq[c], t) - 1)
  {
    hide S.Inv, B.FutexOk, B.RequestOk, B.BucketOk, B.WatchOk;
    B.KernelKeepsInv(w, c);
    PickServesTheFront(w.sched, c);
  }

  /** In every run: while a thread waits in the queue of a CPU, that CPU can only be given the threads that
      were before it, each once, so it is bypassed at most as often as its place said. */
  lemma {:induction false} BoundedBypass(w: B.World, run: seq<B.Move>, c: CpuId, t: Tid)
    requires B.Inv(w) && Waits(w, run, c, t)
    ensures c < |w.sched.runq| && t in w.sched.runq[c] && c < |B.Exec(w, run).sched.runq|
            && t in B.Exec(w, run).sched.runq[c]
    ensures Picks(w, run, c) + Place(B.Exec(w, run).sched.runq[c], t) <= Place(w.sched.runq[c], t)
  {
    hide B.Inv, B.KernelMove;
    assert run[..|run|] == run && run[..0] == [];
    assert B.Exec(w, run[..0]) == w;
    if run != [] {
      var shorter, m := run[..|run| - 1], run[|run| - 1];
      forall k | 0 <= k <= |shorter| ensures var s := B.Exec(w, shorter[..k]).sched; c < |s.runq| && t in s.runq[c] {
        assert shorter[..k] == run[..k];
      }
      BoundedBypass(w, shorter, c, t);
      var v := B.Exec(w, shorter);
      assert B.Exec(w, run) == B.Step(v, m);
      StepKeepsOrder(v, m);
      if IsPick(v, m, c) { PickMovesUp(v, c, t); }
    }
  }
}

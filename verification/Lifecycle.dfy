/** How threads begin, are interrupted and end: libOS/user_thread.cpp and the entry of `schedule` in
    libOS/sched.cpp. */
module Lifecycle {
  import opened Basics
  import S = Scheduler
  import B = Blocking
  import F = FutexCalls

  type Tid = S.Tid
  type CpuId = S.CpuId

  /** `u` is new, has no call of its own in progress and is last in the run queue of CPU `c`; all else is as it was. */
  ghost predicate Started(w: B.World, w': B.World, c: CpuId, u: Tid) {
    && c < |w.sched.runq| && u !in w.sched.threads
    && w' == w.(pcs := w.pcs[u := B.Free], reqs := w.reqs[u := B.Request(false, false, None, B.WithThread, None, 0, 0)],
                sched := w.sched.(runq := w.sched.runq[c := w.sched.runq[c] + [u]], threads :=
                    w.sched.threads[u := S.Thread(true, false, Some(c), None, true, true, None, None)]))
  }

  lemma StartThreadIs(w: B.World, c: CpuId, u: Tid)
    requires c < |w.sched.runq| && u !in w.sched.threads
    ensures Started(w, B.StartThread(w, c, u), c, u)
  {
    var th := S.Thread(true, false, Some(c), None, true, true, None, None);
    assert w.sched.threads[u := S.Fresh][u := th] == w.sched.threads[u := th];
  }

  /** A thread that creates another one goes on, and the new one can run. */
  lemma CloneStarts(w: B.World, c: CpuId, t: Tid, u: Tid)
    requires B.Inv(w) && F.On(w, c, t) && w.pcs[t].Free? && u !in w.sched.threads
    ensures Started(w, B.Step(w, B.Invoking(c, B.Clone(u))), c, u)
  {
    hide S.Inv, B.Layer, B.StartThread;
    F.InvokeIs(w, c, t, B.Clone(u));
    StartThreadIs(w, c, u);
  }

  /** So does a CPU on its boot stack. */
  lemma BootStarts(w: B.World, c: CpuId, u: Tid)
    requires B.Inv(w) && c < |w.sched.cpus| && w.sched.cpus[c] == S.Running(None) && u !in w.sched.threads
    ensures Started(w, B.Step(w, B.BootClone(c, u)), c, u)
  {
    hide S.Inv, B.FutexOk, B.RequestOk, B.BucketOk, B.WatchOk, B.StartThread;
    StartThreadIs(w, c, u);
  }

  /** What an interrupt leads to: `schedule`, unless the thread has interrupts masked. */
  lemma InterruptEntersSchedule(w: B.World, c: CpuId, cur: Option<Tid>)
    requires B.Inv(w) && c < |w.sched.cpus| && w.sched.cpus[c] == S.Running(cur)
    ensures var w' := B.Step(w, B.Preempt(c));
            if cur.Some? && cur.value in w.pcs && B.Masked(w.pcs[cur.value]) then w' == w
            else w'.sched == w.sched.(cpus := w.sched.cpus[c := S.Checking(cur, 0)])
                 && w'.mem == w.mem && w'.buckets == w.buckets && w'.watch == w.watch && w'.reqs == w.reqs
                 && w'.reqQueue == w.reqQueue && w'.pcs.Keys == w.pcs.Keys
                 && (forall u | u in w.pcs && Some(u) != cur :: w'.pcs[u] == w.pcs[u])
                 && (cur.Some? && cur.value in w.pcs && !w.pcs[cur.value].WaitParked? && !w.pcs[cur.value].ReqParked?
                     ==> w'.pcs == w.pcs)
  {
    hide S.Inv, B.Layer;
    if cur.Some? && cur.value in w.pcs { assert w.pcs[cur.value := w.pcs[cur.value]] == w.pcs; }
  }

  // ---------------------------------------------------------------- the end of a thread

  /** `terminate`: the thread leaves the run queues and calls `schedule`. */
  lemma ExitLeaves(w: B.World, c: CpuId, t: Tid, choice: bool) returns (run: seq<B.Move>, w': B.World)
    requires B.Inv(w) && F.On(w, c, t) && w.pcs[t].Free?
    ensures run == [B.Invoking(c, B.Exit), B.Run(c, choice)] && B.Inv(w') && w' == B.Exec(w, run)
    ensures w'.pcs == w.pcs[t := B.Exited] && t in w'.sched.threads && !w'.sched.threads[t].onQueue
    ensures w'.sched.cpus == w.sched.cpus[c := S.Checking(Some(t), 0)] && w'.sched.runq == w.sched.runq
  {
    hide B.Inv, B.Step, B.Exec;
    assert B.Exec(w, []) == w by { F.StartsHere(w); }
    FallIs(w, c, t);
    run, w' := F.Then(w, [], w, B.Invoking(c, B.Exit));
    F.Inverted(w, run);
    LastStep(w', c, t, choice);
    run, w' := F.Then(w, run, w', B.Run(c, choice));
    F.Inverted(w, run);
    assert w'.pcs == w.pcs[t := B.Exited];
  }

  lemma FallIs(w: B.World, c: CpuId, t: Tid)
    requires B.Inv(w) && F.On(w, c, t) && w.pcs[t].Free?
    ensures var w' := B.Step(w, B.Invoking(c, B.Exit));
            && w'.pcs == w.pcs[t := B.Exited] && w'.sched.cpus == w.sched.cpus && w'.sched.runq == w.sched.runq
            && t in w'.sched.threads && !w'.sched.threads[t].onQueue
  {
    CurrentRuns(w, c, t);
    hide B.Inv, B.Step, B.Invoke, B.CanStep;
    F.InvokeIs(w, c, t, B.Exit);
    ExitIs(w, c, t);
  }

  lemma ExitIs(w: B.World, c: CpuId, t: Tid)
    requires B.CanStep(w, c, t) && w.pcs[t].Free? && w.sched.threads[t].running
    ensures var w' := B.Invoke(w, c, t, B.Exit);
            && w'.pcs == w.pcs[t := B.Exited] && w'.sched.cpus == w.sched.cpus && w'.sched.runq == w.sched.runq
            && t in w'.sched.threads && !w'.sched.threads[t].onQueue
  {
  }

  lemma CurrentRuns(w: B.World, c: CpuId, t: Tid)
    requires B.Inv(w) && F.On(w, c, t)
    ensures t in w.sched.threads && w.sched.threads[t].running
  {
    hide B.FutexOk, B.RequestOk, B.BucketOk, B.WatchOk;
    assert S.Runs(w.sched.cpus[c], t) && S.ThreadOk(w.sched, t);
  }

  lemma LastStep(w: B.World, c: CpuId, t: Tid, choice: bool)
    requires B.Inv(w) && F.On(w, c, t) && w.pcs[t].Exited?
    ensures var w' := B.Step(w, B.Run(c, choice));
            && w'.pcs == w.pcs && w'.sched == w.sched.(cpus := w.sched.cpus[c := S.Checking(Some(t), 0)])
  {
    hide S.Inv, B.Layer;
    F.RunIs(w, c, t, choice);
    assert w.pcs[t := w.pcs[t]] == w.pcs;
  }

  /** Has ended: it can never be chosen, because it is in no run queue. */
  ghost predicate Ended(w: B.World, t: Tid) {
    && t in w.pcs && w.pcs[t].Exited? && t in w.sched.threads && !w.sched.threads[t].onQueue
    && forall d | 0 <= d < |w.sched.runq| :: t !in w.sched.runq[d]
  }

  lemma ExitedHasEnded(w: B.World, t: Tid)
    requires B.Inv(w) && t in w.pcs && w.pcs[t].Exited?
    ensures Ended(w, t)
  {
    hide B.RequestOk, B.BucketOk, B.WatchOk;
    assert B.FutexOk(w, t);
    forall d | 0 <= d < |w.sched.runq| ensures t !in w.sched.runq[d] { assert S.QueueOk(w.sched, d); }
  }

  lemma ExitedStays(w: B.World, m: B.Move, t: Tid)
    requires B.Inv(w) && t in w.pcs && w.pcs[t].Exited?
    ensures t in B.Step(w, m).pcs && B.Step(w, m).pcs[t].Exited?
  {
    hide B.Inv, B.Step;
    if m.Run? && F.On(w, m.c, t) { LastStep(w, m.c, t, m.choice); } else { F.PcKept(w, m, t); }
  }

  /** In every run: a thread that has ended stays so, whatever wakes, requests and CPUs there are. */
  lemma {:induction false} ExitIsForGood(w: B.World, run: seq<B.Move>, t: Tid)
    requires B.Inv(w) && t in w.pcs && w.pcs[t].Exited?
    ensures Ended(B.Exec(w, run), t)
  {
    hide B.Inv, B.Step, Ended;
    if run == [] {
      ExitedHasEnded(w, t);
    } else {
      var shorter := run[..|run| - 1];
      ExitIsForGood(w, shorter, t);
      EndedPc(B.Exec(w, shorter), t);
      ExitedStays(B.Exec(w, shorter), run[|run| - 1], t);
      ExitedHasEnded(B.Exec(w, run), t);
    }
  }

  lemma EndedPc(w: B.World, t: Tid)
    requires Ended(w, t)
    ensures t in w.pcs && w.pcs[t].Exited?
  {
  }
}

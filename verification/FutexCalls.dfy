/** What FUTEX_WAIT and FUTEX_WAKE of libOS/futex.cpp:59-176 achieve: a wait on an equal word goes to sleep at the
    end of the queue and any other wait returns; a wake takes exactly as many threads from the front of the
    queue as it was asked to. */
module FutexCalls {
  import opened Basics
  import S = Scheduler
  import B = Blocking

  type Tid = S.Tid
  type CpuId = S.CpuId
  type Addr = B.Addr

  // ---------------------------------------------------------------- steps of one thread

  /** Thread `t` is executing its code on CPU `c`. */
  predicate On(w: B.World, c: CpuId, t: Tid) {
    c < |w.sched.cpus| && w.sched.cpus[c] == S.Running(Some(t)) && t in w.pcs
  }

  /** Extends a run by one move. */
  lemma Then(w0: B.World, run: seq<B.Move>, w: B.World, m: B.Move) returns (run': seq<B.Move>, w': B.World)
    requires B.Inv(w0) && w == B.Exec(w0, run)
    ensures run' == run + [m] && B.Inv(w) && w' == B.Step(w, m) == B.Exec(w0, run')
  {
    hide B.Inv, B.Step;
    run', w' := run + [m], B.Step(w, m);
    assert run'[..|run'| - 1] == run;
  }

  lemma RunIs(w: B.World, c: CpuId, t: Tid, choice: bool)
    requires B.Inv(w) && On(w, c, t)
    ensures B.CanStep(w, c, t) && B.Step(w, B.Run(c, choice)) == B.ThreadStep(w, c, t, choice)
  {
    hide S.Inv, B.Layer, B.ThreadStep;
    B.ThreadCanStep(w, c);
  }

  lemma InvokeIs(w: B.World, c: CpuId, t: Tid, call: B.Call)
    requires B.Inv(w) && On(w, c, t) && w.pcs[t].Free?
    ensures B.CanStep(w, c, t) && B.Step(w, B.Invoking(c, call)) == B.Invoke(w, c, t, call)
  {
    hide S.Inv, B.Layer, B.Invoke;
    B.ThreadCanStep(w, c);
  }

  /** The bucket of `a`, or a new one. */
  function BucketAt(w: B.World, a: Addr): B.Bucket { if a in w.buckets then w.buckets[a]
      else B.Bucket([], None, 0, [], []) }

  function With(w: B.World, t: Tid, pc: B.Pc, a: Addr, b: B.Bucket): B.World {
    w.(pcs := w.pcs[t := pc], buckets := w.buckets[a := b])
  }

  lemma WithWith(w: B.World, t: Tid, p: B.Pc, q: B.Pc, a: Addr, b: B.Bucket, d: B.Bucket)
    ensures With(With(w, t, p, a, b), t, q, a, d) == With(w, t, q, a, d)
  {
    assert w.pcs[t := p][t := q] == w.pcs[t := q] && w.buckets[a := b][a := d] == w.buckets[a := d];
  }

  lemma Enter(w: B.World, c: CpuId, t: Tid, a: Addr, val: int)
    requires B.Inv(w) && On(w, c, t) && w.pcs[t].Free?
    ensures B.Step(w, B.Invoking(c, B.Wait(a, val))) == w.(pcs := w.pcs[t := B.WaitBucket(a, val)])
  {
    hide S.Inv, B.Layer;
    InvokeIs(w, c, t, B.Wait(a, val));
  }

  lemma Find(w: B.World, c: CpuId, t: Tid, a: Addr, val: int, choice: bool)
    requires B.Inv(w) && On(w, c, t) && w.pcs[t] == B.WaitBucket(a, val)
    ensures B.Step(w, B.Run(c, choice)) == With(w, t, B.WaitLock(a, val), a, BucketAt(w, a))
  {
    hide S.Inv, B.Layer, S.EnqueueTask, S.StartSchedule;
    RunIs(w, c, t, choice);
    if a in w.buckets { assert w.buckets[a := w.buckets[a]] == w.buckets; }
  }

  lemma Lock(w: B.World, c: CpuId, t: Tid, a: Addr, val: int, choice: bool)
    requires B.Inv(w) && On(w, c, t) && w.pcs[t] == B.WaitLock(a, val)
    ensures a in w.buckets
    ensures w.buckets[a].lock.None? ==>
              B.Step(w, B.Run(c, choice)) ==
                With(w, t, B.WaitCheck(a, val), a, w.buckets[a].(lock := Some(t), waiters := w.buckets[a].waiters + 1))
  {
    hide S.Inv, B.Layer, S.EnqueueTask, S.StartSchedule;
    RunIs(w, c, t, choice);
  }

  /** Exactly where a look at the word leads. */
  lemma Check(w: B.World, c: CpuId, t: Tid, a: Addr, val: int, choice: bool)
    requires B.Inv(w) && On(w, c, t) && w.pcs[t] == B.WaitCheck(a, val)
    ensures B.Step(w, B.Run(c, choice)) ==
              w.(pcs := w.pcs[t := if B.Word(w, a) != val then B.WaitLeave(a) else if choice then B.WaitEqual(a, val)
                  else B.WaitCheck(a, val)])
  {
    hide S.Inv, B.Layer, S.EnqueueTask, S.StartSchedule;
    RunIs(w, c, t, choice);
    assert w.pcs[t := w.pcs[t]] == w.pcs;
  }

  lemma Leave(w: B.World, c: CpuId, t: Tid, a: Addr, choice: bool)
    requires B.Inv(w) && On(w, c, t) && w.pcs[t] == B.WaitLeave(a)
    ensures a in w.buckets
    ensures B.Step(w, B.Run(c, choice)) == With(w, t, B.Free, a,
            w.buckets[a].(lock := None, waiters := w.buckets[a].waiters - 1))
  {
    hide S.Inv, B.Layer, S.EnqueueTask, S.StartSchedule;
    RunIs(w, c, t, choice);
  }

  lemma Fall(w: B.World, c: CpuId, t: Tid, a: Addr, val: int, choice: bool)
    requires B.Inv(w) && On(w, c, t) && w.pcs[t] == B.WaitEqual(a, val)
    ensures t in w.sched.threads && S.DequeueTask.requires(w.sched, t)
    ensures B.Step(w, B.Run(c, choice)) == w.(pcs := w.pcs[t := B.WaitDequeued(a, val)],
            sched := S.DequeueTask(w.sched, t))
    ensures var s' := S.DequeueTask(w.sched, t); s'.cpus == w.sched.cpus && t in s'.threads && !s'.threads[t].onQueue
  {
    hide S.Inv, B.Layer, S.EnqueueTask, S.StartSchedule;
    RunIs(w, c, t, choice);
  }

  lemma Join(w: B.World, c: CpuId, t: Tid, a: Addr, val: int, choice: bool)
    requires B.Inv(w) && On(w, c, t) && w.pcs[t] == B.WaitDequeued(a, val)
    ensures a in w.buckets
    ensures var b := w.buckets[a];
            B.Step(w, B.Run(c, choice)) ==
              With(w, t, B.WaitQueued(a, val), a, b.(queue := b.queue + [t], slept := b.slept + [t]))
  {
    hide S.Inv, B.Layer, S.EnqueueTask, S.StartSchedule;
    RunIs(w, c, t, choice);
  }

  lemma Park(w: B.World, c: CpuId, t: Tid, a: Addr, val: int, choice: bool)
    requires B.Inv(w) && On(w, c, t) && w.pcs[t] == B.WaitQueued(a, val)
    ensures a in w.buckets
    ensures B.Step(w, B.Run(c, choice)) == With(w, t, B.WaitParked(a, val), a, w.buckets[a].(lock := None))
  {
    hide S.Inv, B.Layer, S.EnqueueTask, S.StartSchedule;
    RunIs(w, c, t, choice);
  }

  // ---------------------------------------------------------------- FUTEX_WAIT

  /** The first three steps of a wait: it holds the lock and counts as a waiter. */
  lemma Locked(w: B.World, c: CpuId, t: Tid, a: Addr, val: int, choice: bool) returns (run: seq<B.Move>, w': B.World)
    requires B.Inv(w) && On(w, c, t) && w.pcs[t].Free? && BucketAt(w, a).lock.None?
    ensures run == [B.Invoking(c, B.Wait(a, val)), B.Run(c, choice), B.Run(c, choice)] && B.Inv(w')
            && w' == B.Exec(w, run)
    ensures var b := BucketAt(w, a);
            w' == With(w, t, B.WaitCheck(a, val), a, b.(lock := Some(t), waiters := b.waiters + 1))
  {
    hide B.Inv, B.Step, B.Exec;
    assert B.Exec(w, []) == w by { StartsHere(w); }
    var b := BucketAt(w, a);
    Enter(w, c, t, a, val);
    run, w' := Then(w, [], w, B.Invoking(c, B.Wait(a, val)));
    Inverted(w, run);
    Find(w', c, t, a, val, choice);
    run, w' := Then(w, run, w', B.Run(c, choice));
    assert w' == With(w, t, B.WaitLock(a, val), a, b) by {
        assert w.pcs[t := B.WaitBucket(a, val)][t := B.WaitLock(a, val)] == w.pcs[t := B.WaitLock(a, val)]; }
    Inverted(w, run);
    Lock(w', c, t, a, val, choice);
    run, w' := Then(w, run, w', B.Run(c, choice));
    WithWith(w, t, B.WaitLock(a, val), B.WaitCheck(a, val), a, b, b.(lock := Some(t), waiters := b.waiters + 1));
    Inverted(w, run);
  }

  lemma StartsHere(w: B.World)
    requires B.Inv(w)
    ensures B.Exec(w, []) == w
  {
  }

  lemma Inverted(w: B.World, run: seq<B.Move>)
    requires B.Inv(w)
    ensures B.Inv(B.Exec(w, run))
  {
    hide B.Inv, B.Step;
  }

  /** A wait that finds its value in the word, to the end of its patience, goes to sleep: the thread is the last in the
      queue of the bucket, is not runnable, and the lock is free. */
  lemma WaitSleeps(w: B.World, c: CpuId, t: Tid, a: Addr, val: int) returns (run: seq<B.Move>, w': B.World)
    requires B.Inv(w) && On(w, c, t) && w.pcs[t].Free? && B.Word(w, a) == val && BucketAt(w, a).lock.None?
    ensures run == [B.Invoking(c, B.Wait(a, val)), B.Run(c, true), B.Run(c, true), B.Run(c, true), B.Run(c, true),
            B.Run(c, true),
                    B.Run(c, true)]
    ensures B.Inv(w') && w' == B.Exec(w, run) && w'.pcs == w.pcs[t := B.WaitParked(a, val)] && w'.mem == w.mem
    ensures var b := BucketAt(w, a);
            w'.buckets == w.buckets[a := b.(queue := b.queue + [t], waiters := b.waiters + 1, slept := b.slept + [t])]
    ensures w'.sched.cpus == w.sched.cpus && t in w'.sched.threads && !w'.sched.threads[t].onQueue
  {
    hide B.Inv, B.Step, B.Exec, S.DequeueTask;
    var b := BucketAt(w, a);
    run, w' := Dequeued(w, c, t, a, val);
    Join(w', c, t, a, val, true);
    run, w' := Then(w, run, w', B.Run(c, true));
    Inverted(w, run);
    Park(w', c, t, a, val, true);
    run, w' := Then(w, run, w', B.Run(c, true));
    Inverted(w, run);
    assert w'.buckets == w.buckets[a := b.(queue := b.queue + [t], waiters := b.waiters + 1, slept := b.slept + [t])];
    assert w'.pcs == w.pcs[t := B.WaitParked(a, val)];
  }

  /** Up to where the thread has left the run queues. */
  lemma Dequeued(w: B.World, c: CpuId, t: Tid, a: Addr, val: int) returns (run: seq<B.Move>, w': B.World)
    requires B.Inv(w) && On(w, c, t) && w.pcs[t].Free? && B.Word(w, a) == val && BucketAt(w, a).lock.None?
    ensures run == [B.Invoking(c, B.Wait(a, val)), B.Run(c, true), B.Run(c, true), B.Run(c, true), B.Run(c, true)]
    ensures B.Inv(w') && w' == B.Exec(w, run) && w'.pcs == w.pcs[t := B.WaitDequeued(a, val)] && w'.mem == w.mem
    ensures var b := BucketAt(w, a); w'.buckets == w.buckets[a := b.(lock := Some(t), waiters := b.waiters + 1)]
    ensures w'.sched.cpus == w.sched.cpus && t in w'.sched.threads && !w'.sched.threads[t].onQueue
  {
    hide B.Inv, B.Step, B.Exec, S.DequeueTask;
    run, w' := Locked(w, c, t, a, val, true);
    Check(w', c, t, a, val, true);
    run, w' := Then(w, run, w', B.Run(c, true));
    Inverted(w, run);
    Fall(w', c, t, a, val, true);
    run, w' := Then(w, run, w', B.Run(c, true));
    Inverted(w, run);
    assert w'.pcs == w.pcs[t := B.WaitDequeued(a, val)];
  }

  /** A wait that finds another value returns at once and leaves everything as it was. */
  lemma WaitReturns(w: B.World, c: CpuId, t: Tid, a: Addr, val: int, choice: bool)
      returns (run: seq<B.Move>, w': B.World)
    requires B.Inv(w) && On(w, c, t) && w.pcs[t].Free? && B.Word(w, a) != val && BucketAt(w, a).lock.None?
    ensures run == [B.Invoking(c, B.Wait(a, val)), B.Run(c, choice), B.Run(c, choice), B.Run(c, choice),
            B.Run(c, choice)]
    ensures B.Inv(w') && w' == B.Exec(w, run) && w' == w.(buckets := w.buckets[a := BucketAt(w, a)])
  {
    hide B.Inv, B.Step, B.Exec;
    run, w' := Locked(w, c, t, a, val, choice);
    Check(w', c, t, a, val, choice);
    run, w' := Then(w, run, w', B.Run(c, choice));
    Inverted(w, run);
    Leave(w', c, t, a, choice);
    run, w' := Then(w, run, w', B.Run(c, choice));
    Inverted(w, run);
    assert w'.pcs == w.pcs && w'.buckets == w.buckets[a := BucketAt(w, a)];
  }

  /** Inside a call, but for the calls of `schedule` in it, only the thread itself moves on. */
  lemma PcKept(w: B.World, m: B.Move, t: Tid)
    requires B.Inv(w) && t in w.pcs && !w.pcs[t].Free? && !w.pcs[t].WaitParked? && !w.pcs[t].ReqParked?
    requires m.Run? ==> !On(w, m.c, t)
    ensures t in B.Step(w, m).pcs && B.Step(w, m).pcs[t] == w.pcs[t]
  {
    hide S.Inv, B.FutexOk, B.RequestOk, B.BucketOk, B.WatchOk, B.ThreadStep;
    if m.Run? && B.RunsThread(w, m.c) {
      B.ThreadCanStep(w, m.c);
      B.StepperPc(w, m.c, w.sched.cpus[m.c].cur.value, m.choice);
    } else if m.Invoking? && B.RunsThread(w, m.c) && w.pcs[w.sched.cpus[m.c].cur.value].Free? {
      B.ThreadCanStep(w, m.c);
      B.InvokePcs(w, m.c, w.sched.cpus[m.c].cur.value, m.call);
    }
  }

  /** In every run: a waiter leaves its check for the exit only if the word it read differs from its value, and goes
      on to sleep only if it is equal. */
  lemma LeavesOnlyIfChanged(w: B.World, m: B.Move, t: Tid, a: Addr, val: int)
    requires B.Inv(w) && t in w.pcs && w.pcs[t] == B.WaitCheck(a, val)
    ensures var w' := B.Step(w, m);
            && t in w'.pcs && w'.pcs[t] in {B.WaitCheck(a, val), B.WaitLeave(a), B.WaitEqual(a, val)}
            && (w'.pcs[t] == B.WaitLeave(a) ==> B.Word(w, a) != val)
            && (w'.pcs[t] == B.WaitEqual(a, val) ==> B.Word(w, a) == val)
  {
    hide B.Inv, B.Step;
    if m.Run? && On(w, m.c, t) { Check(w, m.c, t, a, val, m.choice); } else { PcKept(w, m, t); }
  }

  /** A thread that was woken and runs again takes the lock, stops counting as a waiter and returns. */
  lemma WaitResumes(w: B.World, c: CpuId, t: Tid, a: Addr, val: int, choice: bool)
      returns (run: seq<B.Move>, w': B.World)
    requires B.Inv(w) && On(w, c, t) && w.pcs[t] == B.WaitInSchedule(a, val) && BucketAt(w, a).lock.None?
    ensures run == [B.Run(c, choice), B.Run(c, choice), B.Run(c, choice)] && B.Inv(w') && w' == B.Exec(w, run)
    ensures a in w.buckets && w' == With(w, t, B.Free, a, w.buckets[a].(waiters := w.buckets[a].waiters - 1))
  {
    hide B.Inv, B.Step, B.Exec;
    assert B.Exec(w, []) == w by { StartsHere(w); }
    Relock(w, c, t, a, val, choice);
    run, w' := Then(w, [], w, B.Run(c, choice));
    Inverted(w, run);
    LockAgain(w', c, t, a, choice);
    run, w' := Then(w, run, w', B.Run(c, choice));
    Inverted(w, run);
    Leave(w', c, t, a, choice);
    run, w' := Then(w, run, w', B.Run(c, choice));
    Inverted(w, run);
    assert w'.pcs == w.pcs[t := B.Free] && w'.buckets ==
        w.buckets[a := w.buckets[a].(waiters := w.buckets[a].waiters - 1)];
  }

  lemma Relock(w: B.World, c: CpuId, t: Tid, a: Addr, val: int, choice: bool)
    requires B.Inv(w) && On(w, c, t) && w.pcs[t] == B.WaitInSchedule(a, val)
    ensures a in w.buckets && B.Step(w, B.Run(c, choice)) == w.(pcs := w.pcs[t := B.WaitRelock(a)])
  {
    hide S.Inv, B.Layer, S.EnqueueTask, S.StartSchedule;
    RunIs(w, c, t, choice);
  }

  lemma LockAgain(w: B.World, c: CpuId, t: Tid, a: Addr, choice: bool)
    requires B.Inv(w) && On(w, c, t) && w.pcs[t] == B.WaitRelock(a)
    ensures a in w.buckets
    ensures w.buckets[a].lock.None? ==>
              B.Step(w, B.Run(c, choice)) == With(w, t, B.WaitLeave(a), a, w.buckets[a].(lock := Some(t)))
  {
    hide S.Inv, B.Layer, S.EnqueueTask, S.StartSchedule;
    RunIs(w, c, t, choice);
  }

  // ---------------------------------------------------------------- FUTEX_WAKE

  function Min(a: nat, b: nat): nat { if a < b then a else b }

  /** Thread `u` was woken from its wait on `a` and has not come back to the bucket: it is runnable. */
  predicate Woke(w: B.World, u: Tid, a: Addr) {
    && u in w.pcs && u in w.sched.threads && w.sched.threads[u].onQueue
    && ((w.pcs[u].WaitParked? && w.pcs[u].addr == a) || (w.pcs[u].WaitInSchedule? && w.pcs[u].addr == a)
        || w.pcs[u] == B.WaitRelock(a))
  }

  /** One turn of the loop of the thread that holds the lock: it wakes the head, or returns. */
  lemma Turn(w: B.World, c: CpuId, t: Tid, a: Addr, nr: nat, ret: nat, choice: bool)
    requires B.Inv(w) && On(w, c, t) && w.pcs[t] == B.WakeLoop(a, nr, ret)
    ensures a in w.buckets
    ensures var w', b := B.Step(w, B.Run(c, choice)), w.buckets[a];
            if b.queue != [] && ret < nr then
              && w'.pcs == w.pcs[t := B.WakeLoop(a, nr, ret + 1)] && w'.sched.cpus == w.sched.cpus && w'.mem == w.mem
              && w'.buckets == w.buckets[a := b.(queue := b.queue[1..], woken := b.woken + [b.queue[0]])]
              && b.queue[0] in w'.sched.threads && w'.sched.threads[b.queue[0]].onQueue
              && forall u | u in w.sched.threads && u != b.queue[0] ::
                  u in w'.sched.threads && w'.sched.threads[u] == w.sched.threads[u]
            else w' == With(w, t, B.Free, a, b.(lock := None))
  {
    hide S.Inv, B.Layer, S.StartSchedule;
    RunIs(w, c, t, choice);
  }

  lemma HoldsLock(w: B.World, u: Tid, a: Addr)
    requires B.Layer(w) && u in w.pcs && B.Locks(w.pcs[u], a)
    ensures a in w.buckets && w.buckets[a].lock == Some(u)
  {
    hide B.RequestOk, B.BucketOk, B.WatchOk;
    assert B.FutexOk(w, u);
  }

  lemma LockIsHeld(w: B.World, t: Tid, a: Addr, nr: nat, ret: nat)
    requires B.Inv(w) && t in w.pcs && w.pcs[t] == B.WakeLoop(a, nr, ret)
    ensures a in w.buckets && w.buckets[a].lock == Some(t)
    ensures forall u | u in w.pcs && B.Locks(w.pcs[u], a) :: u == t
  {
    hide S.Inv, B.Layer;
    HoldsLock(w, t, a);
    forall u | u in w.pcs && B.Locks(w.pcs[u], a) ensures u == t { HoldsLock(w, u, a); }
  }

  lemma SleeperIsParked(w: B.World, a: Addr, k: nat)
    requires B.Inv(w) && a in w.buckets && k < |w.buckets[a].queue|
    ensures var u := w.buckets[a].queue[k];
            && u in w.pcs && u in w.sched.threads && !w.sched.threads[u].onQueue && B.Enqueued(w.pcs[u], a)
  {
    assert w.buckets[a].queue[k] in w.buckets[a].queue;
    B.FutexSleeper(w, w.buckets[a].queue[k], a);
  }

  /** A thread without the lock of `a` takes nobody into or out of its queue. */
  lemma QueueKept(w: B.World, c: CpuId, u: Tid, choice: bool, a: Addr)
    requires B.CanStep(w, c, u) && a in w.buckets && !B.Locks(w.pcs[u], a)
    ensures var w' := B.ThreadStep(w, c, u, choice);
            a in w'.buckets && w'.buckets[a].queue == w.buckets[a].queue && w'.buckets[a].woken == w.buckets[a].woken
  {
    hide S.EnqueueTask, S.DequeueTask, S.StartSchedule;
    if B.InRequest(w.pcs[u]) { B.RequestPointIs(w, c, u, choice); }
  }

  lemma WokeStepper(w: B.World, c: CpuId, u: Tid, choice: bool, a: Addr)
    requires B.CanStep(w, c, u) && Woke(w, u, a) && a in w.buckets && w.buckets[a].lock.Some?
    ensures Woke(B.ThreadStep(w, c, u, choice), u, a)
  {
    hide S.EnqueueTask, S.DequeueTask;
  }

  lemma WokeQuiet(w: B.World, w': B.World, u: Tid, a: Addr)
    requires Woke(w, u, a) && (B.Quiet(w, w') || B.KeepsAwake(w, w', u))
    ensures Woke(w', u, a)
  {
  }

  /** What a move of anybody else leaves alone while `t` holds the lock in its wake. */
  ghost predicate Undisturbed(w: B.World, w': B.World, t: Tid, a: Addr) {
    && t in w.pcs && t in w'.pcs && w'.pcs[t] == w.pcs[t] && a in w.buckets && a in w'.buckets
    && w'.buckets[a].queue == w.buckets[a].queue && w'.buckets[a].woken == w.buckets[a].woken
    && forall u | Woke(w, u, a) :: Woke(w', u, a)
  }

  lemma RunUndisturbed(w: B.World, c: CpuId, choice: bool, t: Tid, a: Addr, nr: nat, ret: nat)
    requires B.Inv(w) && t in w.pcs && w.pcs[t] == B.WakeLoop(a, nr, ret) && !On(w, c, t)
    ensures Undisturbed(w, B.Step(w, B.Run(c, choice)), t, a)
  {
    hide S.Inv, B.Layer, B.ThreadStep, Woke;
    PcKept(w, B.Run(c, choice), t);
    LockIsHeld(w, t, a, nr, ret);
    if B.RunsThread(w, c) {
      var u := w.sched.cpus[c].cur.value;
      RunIs(w, c, u, choice);
      QueueKept(w, c, u, choice, a);
      forall x | Woke(w, x, a) ensures Woke(B.ThreadStep(w, c, u, choice), x, a) {
        if x == u {
          WokeStepper(w, c, u, choice, a);
        } else {
          WokeKnown(w, x, a);
          B.OthersStayAwake(w, c, u, choice, x);
          WokeQuiet(w, B.ThreadStep(w, c, u, choice), x, a);
        }
      }
    }
  }

  lemma WokeKnown(w: B.World, x: Tid, a: Addr)
    requires Woke(w, x, a)
    ensures x in w.pcs && x in w.sched.threads && !w.pcs[x].Free?
  {
  }

  lemma InvokeUndisturbed(w: B.World, c: CpuId, call: B.Call, t: Tid, a: Addr, nr: nat, ret: nat)
    requires B.Inv(w) && t in w.pcs && w.pcs[t] == B.WakeLoop(a, nr, ret)
    ensures Undisturbed(w, B.Step(w, B.Invoking(c, call)), t, a)
  {
    hide S.Inv, B.Layer, B.Invoke, Woke;
    PcKept(w, B.Invoking(c, call), t);
    LockIsHeld(w, t, a, nr, ret);
    if B.RunsThread(w, c) && w.pcs[w.sched.cpus[c].cur.value].Free? {
      var u := w.sched.cpus[c].cur.value;
      B.ThreadCanStep(w, c);
      B.InvokePcs(w, c, u, call);
      forall x | Woke(w, x, a) ensures Woke(B.Invoke(w, c, u, call), x, a) {
        WokeKnown(w, x, a);
        WokeQuiet(w, B.Invoke(w, c, u, call), x, a);
      }
    }
  }

  lemma RestUndisturbed(w: B.World, m: B.Move, t: Tid, a: Addr, nr: nat, ret: nat)
    requires B.Inv(w) && t in w.pcs && w.pcs[t] == B.WakeLoop(a, nr, ret) && !m.Run? && !m.Invoking?
    ensures Undisturbed(w, B.Step(w, m), t, a)
  {
    hide B.Inv, B.Step, Woke, B.Quiet;
    PcKept(w, m, t);
    LockIsHeld(w, t, a, nr, ret);
    RestIsQuiet(w, m);
    forall x | Woke(w, x, a) ensures Woke(B.Step(w, m), x, a) { WokeQuiet(w, B.Step(w, m), x, a); }
  }

  lemma RestIsQuiet(w: B.World, m: B.Move)
    requires B.Inv(w) && !m.Run? && !m.Invoking?
    ensures B.Quiet(w, B.Step(w, m)) && B.Step(w, m).buckets == w.buckets
  {
    hide B.Inv, B.Quiet, B.KernelMove, B.PreemptMove, B.SwapperMove, B.BootMove;
    match m {
      case Preempt(c) => B.PreemptIsQuiet(w, c);
      case Kernel(c) => B.KernelIsQuiet(w, c);
      case BootClone(c, u) => B.BootIsQuiet(w, c, u);
      case _ => B.SwapperIsQuiet(w, m);
    }
  }

  lemma OthersUndisturbed(w: B.World, m: B.Move, t: Tid, a: Addr, nr: nat, ret: nat)
    requires B.Inv(w) && t in w.pcs && w.pcs[t] == B.WakeLoop(a, nr, ret) && !(m.Run? && On(w, m.c, t))
    ensures Undisturbed(w, B.Step(w, m), t, a)
  {
    hide B.Inv, B.Step, Undisturbed;
    if m.Run? {
      RunUndisturbed(w, m.c, m.choice, t, a, nr, ret);
    } else if m.Invoking? {
      InvokeUndisturbed(w, m.c, m.call, t, a, nr, ret);
    } else {
      RestUndisturbed(w, m, t, a, nr, ret);
    }
  }

  /** Exactly the first `k` threads of `q` have been taken from the queue of `a` and can run. */
  ghost predicate Moved(w: B.World, a: Addr, q: seq<Tid>, woken: seq<Tid>, k: nat) {
    && k <= |q| && a in w.buckets && w.buckets[a].queue == q[k..] && w.buckets[a].woken == woken + q[..k]
    && forall i | 0 <= i < k :: Woke(w, q[i], a)
  }

  /** A wake that found queue `q` is in its loop: it has counted the threads it moved. */
  ghost predicate Waking(w: B.World, t: Tid, a: Addr, nr: nat, q: seq<Tid>, woken: seq<Tid>) {
    && t in w.pcs && w.pcs[t].WakeLoop? && w.pcs[t] == B.WakeLoop(a, nr, w.pcs[t].ret) && w.pcs[t].ret <= nr
    && Moved(w, a, q, woken, w.pcs[t].ret)
  }

  lemma MovedOn(w: B.World, w': B.World, t: Tid, a: Addr, q: seq<Tid>, woken: seq<Tid>, k: nat)
    requires Moved(w, a, q, woken, k) && Undisturbed(w, w', t, a)
    ensures Moved(w', a, q, woken, k)
  {
  }

  /** The thread at the head was asleep on `a`; made runnable, it counts as woken. */
  lemma HeadWakes(w: B.World, w': B.World, c: CpuId, t: Tid, a: Addr, nr: nat, ret: nat, choice: bool, q: seq<Tid>,
                  woken: seq<Tid>)
    requires B.Inv(w) && On(w, c, t) && w.pcs[t] == B.WakeLoop(a, nr, ret) && Moved(w, a, q, woken, ret) && ret < nr
             && ret < |q|
    requires w' == B.Step(w, B.Run(c, choice))
    ensures Moved(w', a, q, woken, ret + 1) && t in w'.pcs && w'.pcs[t] == B.WakeLoop(a, nr, ret + 1)
  {
    hide B.Inv, B.Step;
    Turn(w, c, t, a, nr, ret, choice);
    SleeperIsParked(w, a, 0);
    assert q[ret..][0] == q[ret] && q[ret..][1..] == q[ret + 1..];
    assert q[..ret + 1] == q[..ret] + [q[ret]];
    assert w'.buckets[a].woken == woken + q[..ret + 1];
    HeadIsParked(w, a);
    LockIsHeld(w, t, a, nr, ret);
    assert w'.pcs[q[ret]] == w.pcs[q[ret]];
    forall i | 0 <= i < ret + 1 ensures Woke(w', q[i], a) {
      if i < ret { assert Woke(w, q[i], a); }
    }
  }

  /** Nobody in the queue of `a` is between its enqueue and its unlock while another thread holds the lock. */
  lemma HeadIsParked(w: B.World, a: Addr)
    requires B.Inv(w) && a in w.buckets && w.buckets[a].queue != []
    ensures var u := w.buckets[a].queue[0]; u in w.pcs && B.Enqueued(w.pcs[u], a)
    ensures var u := w.buckets[a].queue[0];
              w.buckets[a].lock != Some(u) ==> w.pcs[u].WaitParked? || w.pcs[u].WaitInSchedule?
  {
    hide S.Inv, B.Layer;
    SleeperIsParked(w, a, 0);
    var u := w.buckets[a].queue[0];
    if B.Locks(w.pcs[u], a) { HoldsLock(w, u, a); }
  }

  /** Every move keeps the count, or is the return: then exactly as many threads were moved as the call allows and
      the queue had. */
  lemma WakingStep(w: B.World, m: B.Move, t: Tid, a: Addr, nr: nat, q: seq<Tid>, woken: seq<Tid>)
    requires B.Inv(w) && Waking(w, t, a, nr, q, woken)
    ensures var w' := B.Step(w, m);
            || Waking(w', t, a, nr, q, woken)
            || (w.pcs[t].ret == Min(nr, |q|) && t in w'.pcs && w'.pcs[t].Free? && Moved(w', a, q, woken, Min(nr, |q|)))
  {
    hide B.Inv, B.Step, Moved, Undisturbed;
    var ret, w' := w.pcs[t].ret, B.Step(w, m);
    LockIsHeld(w, t, a, nr, ret);
    MovedFacts(w, a, q, woken, ret);
    if m.Run? && On(w, m.c, t) {
      Turn(w, m.c, t, a, nr, ret, m.choice);
      if ret < |q| && ret < nr {
        HeadWakes(w, w', m.c, t, a, nr, ret, m.choice, q, woken);
      } else {
        MovedReturns(w, w', t, a, q, woken, ret);
      }
    } else {
      OthersUndisturbed(w, m, t, a, nr, ret);
      MovedOn(w, w', t, a, q, woken, ret);
      UndisturbedPc(w, w', t, a);
    }
  }

  lemma UndisturbedPc(w: B.World, w': B.World, t: Tid, a: Addr)
    requires Undisturbed(w, w', t, a)
    ensures t in w.pcs && t in w'.pcs && w'.pcs[t] == w.pcs[t]
  {
  }

  lemma MovedFacts(w: B.World, a: Addr, q: seq<Tid>, woken: seq<Tid>, k: nat)
    requires Moved(w, a, q, woken, k)
    ensures k <= |q| && a in w.buckets && (w.buckets[a].queue == [] <==> k == |q|)
  {
  }

  lemma MovedReturns(w: B.World, w': B.World, t: Tid, a: Addr, q: seq<Tid>, woken: seq<Tid>, k: nat)
    requires Moved(w, a, q, woken, k) && t in w.pcs && w.pcs[t].WakeLoop?
             && w' == With(w, t, B.Free, a, w.buckets[a].(lock := None))
    ensures Moved(w', a, q, woken, k) && t in w'.pcs && w'.pcs[t].Free?
  {
    forall i | 0 <= i < k ensures Woke(w', q[i], a) { assert Woke(w, q[i], a); }
  }

  /** In every run: from the moment a wake has the lock and finds queue `q` to its return, whatever others do, it moves
      the first threads of `q`, in order, to the run queues, and at its return exactly as many as the limit and
      the queue allow. */
  lemma {:induction false} WakeMovesExactly(w: B.World, run: seq<B.Move>, t: Tid, a: Addr, nr: nat)
    requires B.Inv(w) && t in w.pcs && w.pcs[t] == B.WakeLoop(a, nr, 0)
    ensures a in w.buckets
    ensures var q, woken := w.buckets[a].queue, w.buckets[a].woken;
            || Waking(B.Exec(w, run), t, a, nr, q, woken)
            || exists k | 0 < k <= |run| ::
                 var u, v := B.Exec(w, run[..k - 1]), B.Exec(w, run[..k]);
                 && t in u.pcs && u.pcs[t] == B.WakeLoop(a, nr, Min(nr, |q|))
                 && t in v.pcs && v.pcs[t].Free? && Moved(v, a, q, woken, Min(nr, |q|))
  {
    hide B.Inv, B.Step, Waking, Moved;
    LockIsHeld(w, t, a, nr, 0);
    var q, woken := w.buckets[a].queue, w.buckets[a].woken;
    if run == [] {
      JustBegun(w, t, a, nr);
    } else {
      var shorter := run[..|run| - 1];
      WakeMovesExactly(w, shorter, t, a, nr);
      if Waking(B.Exec(w, shorter), t, a, nr, q, woken) {
        WakingStep(B.Exec(w, shorter), run[|run| - 1], t, a, nr, q, woken);
        WakingPc(B.Exec(w, shorter), t, a, nr, q, woken);
        assert run[..|run|] == run;
      } else {
        var k :| 0 < k <= |shorter| &&
          var u, v := B.Exec(w, shorter[..k - 1]), B.Exec(w, shorter[..k]);
          && t in u.pcs && u.pcs[t] == B.WakeLoop(a, nr, Min(nr, |q|))
          && t in v.pcs && v.pcs[t].Free? && Moved(v, a, q, woken, Min(nr, |q|));
        assert shorter[..k - 1] == run[..k - 1] && shorter[..k] == run[..k];
      }
    }
  }

  lemma WakingPc(w: B.World, t: Tid, a: Addr, nr: nat, q: seq<Tid>, woken: seq<Tid>)
    requires Waking(w, t, a, nr, q, woken)
    ensures t in w.pcs && w.pcs[t].WakeLoop? && w.pcs[t] == B.WakeLoop(a, nr, w.pcs[t].ret)
  {
  }

  lemma JustBegun(w: B.World, t: Tid, a: Addr, nr: nat)
    requires t in w.pcs && w.pcs[t] == B.WakeLoop(a, nr, 0) && a in w.buckets
    ensures Waking(w, t, a, nr, w.buckets[a].queue, w.buckets[a].woken)
  {
    var q := w.buckets[a].queue;
    assert q[0..] == q && q[..0] == [] && w.buckets[a].woken + [] == w.buckets[a].woken;
  }

  /** A call to wake one thread has the limit 1, any other call the limit 2^31 - 1. */
  lemma WakeLimit(w: B.World, c: CpuId, t: Tid, a: Addr, n: nat)
    requires B.Inv(w) && On(w, c, t) && w.pcs[t].Free?
    ensures B.Step(w, B.Invoking(c, B.Wake(a, n))) == w.(pcs :=
            w.pcs[t := B.WakeFind(a, if n == 1 then 1 else 0x7fff_ffff)])
  {
    hide S.Inv, B.Layer;
    InvokeIs(w, c, t, B.Wake(a, n));
  }

  /** On the way to the lock, in every run, the limit stays what the call set, and the call returns early only if there
      is no bucket or nobody waits. */
  lemma ApproachKeepsLimit(w: B.World, m: B.Move, t: Tid, a: Addr, nr: nat)
    requires B.Inv(w) && t in w.pcs && w.pcs[t] in {B.WakeFind(a, nr), B.WakeLock(a, nr)}
    ensures var w' := B.Step(w, m);
            && t in w'.pcs && w'.pcs[t] in {B.WakeFind(a, nr), B.WakeLock(a, nr), B.WakeLoop(a, nr, 0), B.Free}
            && (w'.pcs[t] == B.Free ==> a !in w.buckets || (w.buckets[a].waiters == 0 && w.buckets[a].queue == []))
  {
    hide B.Inv, B.Step;
    if m.Run? && On(w, m.c, t) {
      if w.pcs[t].WakeFind? {
        WakeFinds(w, m.c, t, a, nr, m.choice);
      } else {
        WakeLocks(w, m.c, t, a, nr, m.choice);
        if w.buckets[a].waiters == 0 { NobodyWaits(w, a); }
      }
    } else {
      PcKept(w, m, t);
    }
  }

  lemma WakeFinds(w: B.World, c: CpuId, t: Tid, a: Addr, nr: nat, choice: bool)
    requires B.Inv(w) && On(w, c, t) && w.pcs[t] == B.WakeFind(a, nr)
    ensures B.Step(w, B.Run(c, choice)) == w.(pcs := w.pcs[t := if a in w.buckets then B.WakeLock(a, nr) else B.Free])
  {
    hide S.Inv, B.Layer, S.EnqueueTask, S.StartSchedule;
    RunIs(w, c, t, choice);
  }

  /** With the lock free, a wake goes in unless nobody waits. */
  lemma WakeLocks(w: B.World, c: CpuId, t: Tid, a: Addr, nr: nat, choice: bool)
    requires B.Inv(w) && On(w, c, t) && w.pcs[t] == B.WakeLock(a, nr)
    ensures a in w.buckets
    ensures w.buckets[a].lock.Some? ==> B.Step(w, B.Run(c, choice)) == w
    ensures w.buckets[a].lock.None? ==>
              B.Step(w, B.Run(c, choice)) ==
                if w.buckets[a].waiters == 0 then w.(pcs := w.pcs[t := B.Free])
                else With(w, t, B.WakeLoop(a, nr, 0), a, w.buckets[a].(lock := Some(t)))
  {
    hide S.Inv, B.Layer, S.EnqueueTask, S.StartSchedule;
    RunIs(w, c, t, choice);
  }

  /** The loop by steps of the waker alone. */
  lemma {:induction false} LoopAlone(w: B.World, c: CpuId, t: Tid, a: Addr, nr: nat, choice: bool, q: seq<Tid>,
                                     woken: seq<Tid>)
      returns (n: nat)
    requires B.Inv(w) && On(w, c, t) && Waking(w, t, a, nr, q, woken)
    ensures var w' := B.Exec(w, Runs(c, choice, n));
            && t in w'.pcs && w'.pcs[t].Free? && Moved(w', a, q, woken, Min(nr, |q|)) && w'.buckets[a].lock.None?
    decreases |q| - w.pcs[t].ret
  {
    hide B.Inv, B.Step, Moved;
    var ret := w.pcs[t].ret;
    LockIsHeld(w, t, a, nr, ret);
    MovedFacts(w, a, q, woken, ret);
    Turn(w, c, t, a, nr, ret, choice);
    WakingStep(w, B.Run(c, choice), t, a, nr, q, woken);
    OneRun(w, c, choice);
    var w1 := B.Step(w, B.Run(c, choice));
    if ret < |q| && ret < nr {
      HeadWakes(w, w1, c, t, a, nr, ret, choice, q, woken);
      var m := LoopAlone(w1, c, t, a, nr, choice, q, woken);
      RunsAdd(w, c, choice, 1, m);
      n := 1 + m;
    } else {
      n := 1;
    }
  }

  function Runs(c: CpuId, choice: bool, n: nat): seq<B.Move> { seq(n, i => B.Run(c, choice)) }

  lemma OneRun(w: B.World, c: CpuId, choice: bool)
    requires B.Inv(w)
    ensures B.Inv(B.Step(w, B.Run(c, choice))) && B.Exec(w, Runs(c, choice, 1)) == B.Step(w, B.Run(c, choice))
  {
    hide B.Inv, B.Step;
    var k := Runs(c, choice, 1);
    assert k[..0] == [] && k[0] == B.Run(c, choice);
    assert B.Exec(w, []) == w;
  }

  lemma RunsAdd(w: B.World, c: CpuId, choice: bool, m: nat, n: nat)
    requires B.Inv(w)
    ensures B.Exec(w, Runs(c, choice, m + n)) == B.Exec(B.Exec(w, Runs(c, choice, m)), Runs(c, choice, n))
  {
    hide B.Inv, B.Step;
    assert Runs(c, choice, m + n) == Runs(c, choice, m) + Runs(c, choice, n);
    B.ExecTwice(w, Runs(c, choice, m), Runs(c, choice, n));
  }

  /** The first `k` threads have left the queue of `a`, are recorded as woken and can run. */
  ghost predicate WokenOff(w: B.World, w': B.World, a: Addr, k: nat) {
    && a in w.buckets && a in w'.buckets && k <= |w.buckets[a].queue|
    && w'.buckets[a].queue == w.buckets[a].queue[k..] && w'.buckets[a].woken ==
        w.buckets[a].woken + w.buckets[a].queue[..k]
    && forall i | 0 <= i < k :: w.buckets[a].queue[i] in w'.sched.threads
        && w'.sched.threads[w.buckets[a].queue[i]].onQueue
  }

  /** A whole call: with the lock of the bucket free it takes exactly the first k threads from the queue and makes them
      runnable, where k is one at most for a wake of one and all up to 2^31 - 1 for any other. */
  lemma WakeCall(w: B.World, c: CpuId, t: Tid, a: Addr, n: nat, choice: bool) returns (steps: nat, w': B.World)
    requires B.Inv(w) && On(w, c, t) && w.pcs[t].Free? && a in w.buckets && w.buckets[a].lock.None?
    ensures B.Inv(w') && w' == B.Exec(w, [B.Invoking(c, B.Wake(a, n))] + Runs(c, choice, steps))
    ensures t in w'.pcs && w'.pcs[t].Free? && a in w'.buckets && w'.buckets[a].lock.None?
    ensures WokenOff(w, w', a, Min(if n == 1 then 1 else 0x7fff_ffff, |w.buckets[a].queue|))
  {
    hide B.Inv, B.Step, B.Exec, Moved;
    var nr := if n == 1 then 1 else 0x7fff_ffff;
    var q, woken := w.buckets[a].queue, w.buckets[a].woken;
    assert B.Exec(w, []) == w by { StartsHere(w); }
    WakeLimit(w, c, t, a, n);
    var run, w1 := Then(w, [], w, B.Invoking(c, B.Wake(a, n)));
    Inverted(w, run);
    WakeFinds(w1, c, t, a, nr, choice);
    OneRun(w1, c, choice);
    var w2 := B.Step(w1, B.Run(c, choice));
    assert w2 == w.(pcs := w.pcs[t := B.WakeLock(a, nr)]) by {
        assert w1.pcs[t := B.WakeLock(a, nr)] == w.pcs[t := B.WakeLock(a, nr)]; }
    WakeLocks(w2, c, t, a, nr, choice);
    OneRun(w2, c, choice);
    RunsAdd(w1, c, choice, 1, 1);
    var w3 := B.Step(w2, B.Run(c, choice));
    if w.buckets[a].waiters == 0 {
      NobodyWaits(w, a);
      steps, w' := 2, w3;
      assert q[0..] == q && woken + q[..0] == woken;
      assert WokenOff(w, w', a, 0);
    } else {
      JustBegun(w3, t, a, nr);
      var m := LoopAlone(w3, c, t, a, nr, choice, q, woken);
      RunsAdd(w1, c, choice, 2, m);
      steps, w' := 2 + m, B.Exec(w3, Runs(c, choice, m));
      Inverted(w3, Runs(c, choice, m));
      MovedMeans(w', a, q, woken, Min(nr, |q|));
    }
    TwoParts(w, run, w1, Runs(c, choice, steps));
    assert run == [B.Invoking(c, B.Wake(a, n))];
  }

  lemma TwoParts(w: B.World, run: seq<B.Move>, w1: B.World, more: seq<B.Move>)
    requires B.Inv(w) && w1 == B.Exec(w, run)
    ensures B.Inv(w1) && B.Exec(w, run + more) == B.Exec(w1, more)
  {
    hide B.Inv, B.Step;
    B.ExecTwice(w, run, more);
  }

  lemma NobodyWaits(w: B.World, a: Addr)
    requires B.Inv(w) && a in w.buckets && w.buckets[a].waiters == 0
    ensures w.buckets[a].queue == []
  {
    hide S.Inv, B.FutexOk, B.RequestOk, B.WatchOk;
    assert B.BucketOk(w, a);
    B.BucketCounts(w, a);
  }

  lemma MovedMeans(w: B.World, a: Addr, q: seq<Tid>, woken: seq<Tid>, k: nat)
    requires Moved(w, a, q, woken, k)
    ensures k <= |q| && a in w.buckets && w.buckets[a].queue == q[k..] && w.buckets[a].woken == woken + q[..k]
    ensures forall i | 0 <= i < k :: q[i] in w.sched.threads && w.sched.threads[q[i]].onQueue
  {
    forall i | 0 <= i < k ensures q[i] in w.sched.threads && w.sched.threads[q[i]].onQueue { assert Woke(w, q[i], a); }
  }
}

/** Blocking on top of the scheduler: FUTEX_WAIT / FUTEX_WAKE of libOS/futex.cpp, and the wait for an
    asynchronous request of libOS/async_request.cpp with the swapper on the other side.

    Threads step only while a CPU executes them in thread code.  A bucket lock is explicit state, so a
    waiter's reads of the futex word, its enqueue and its unlock are separate steps.  `slept`, `woken`,
    `watcher`, `sleeps` and `wakes` are history variables. */
module Blocking {
  import opened Basics
  import S = Scheduler

  type Tid = S.Tid
  type CpuId = S.CpuId
  type Addr = nat

  /** `nr_wake` is 1 or everything. */
  const INT_MAX: nat := 0x7fff_ffff

  function NrWake(n: nat): nat { if n == 1 then 1 else INT_MAX }

  datatype Bucket = Bucket(queue: seq<Tid>, lock: Option<Tid>, waiters: int, slept: seq<Tid>, woken: seq<Tid>)

  const NewBucket := Bucket([], None, 0, [], [])

  datatype Place = WithThread | InQueue | AtSwapper

  /** The per-thread request object and the party that may use it. */
  datatype Request = Request(done: bool, ack: bool, owner: Option<Tid>, place: Place,
                             watcher: Option<CpuId>, sleeps: nat, wakes: nat)

  datatype Pc =
    | Free
    // libos_futex_wait
    | WaitBucket(addr: Addr, val: int)
    | WaitLock(addr: Addr, val: int)
    | WaitCheck(addr: Addr, val: int)
    | WaitEqual(addr: Addr, val: int)
    | WaitDequeued(addr: Addr, val: int)
    | WaitQueued(addr: Addr, val: int)
    | WaitParked(addr: Addr, val: int)
    | WaitInSchedule(addr: Addr, val: int)
    | WaitRelock(addr: Addr)
    | WaitLeave(addr: Addr)
    // futex_wake
    | WakeFind(addr: Addr, nr: nat)
    | WakeLock(addr: Addr, nr: nat)
    | WakeLoop(addr: Addr, nr: nat, ret: nat)
    // __async_* and sleepWait
    | ReqFilled
    | ReqPushed
    | ReqDequeued
    | ReqParked
    | ReqInSchedule
    // terminate
    | Exited

  datatype World = World(
    sched: S.State,
    mem: map<Addr, int>,
    buckets: map<Addr, Bucket>,
    watch: seq<seq<Tid>>,
    reqs: map<Tid, Request>,
    reqQueue: seq<Tid>,
    pcs: map<Tid, Pc>)

  const NoRequest := Request(false, false, None, WithThread, None, 0, 0)

  function Boot(idle: seq<Tid>): World {
    World(S.Boot(idle), map[], map[], seq(|idle|, c => []), map[], [], map[])
  }

  function Word(w: World, a: Addr): int { if a in w.mem then w.mem[a] else 0 }

  function SetPc(w: World, t: Tid, pc: Pc): World { w.(pcs := w.pcs[t := pc]) }

  function SetBucket(w: World, a: Addr, b: Bucket): World { w.(buckets := w.buckets[a := b]) }

  function SetReq(w: World, t: Tid, r: Request): World { w.(reqs := w.reqs[t := r]) }

  // ---------------------------------------------------------------- classes of program points

  /** Holds the lock of bucket `a` (and so runs with interrupts off). */
  predicate Locks(pc: Pc, a: Addr) {
    (pc.WaitCheck? || pc.WaitEqual? || pc.WaitDequeued? || pc.WaitQueued? || pc.WaitLeave? || pc.WakeLoop?)
        && pc.addr == a
  }

  /** Counted in `waiters` of bucket `a`. */
  predicate Counted(pc: Pc, a: Addr) {
    (pc.WaitCheck? || pc.WaitEqual? || pc.WaitDequeued? || pc.WaitQueued? || pc.WaitParked? || pc.WaitInSchedule?
     || pc.WaitRelock? || pc.WaitLeave?) && pc.addr == a
  }

  /** Has entered the futex queue of `a` in this wait. */
  predicate Enqueued(pc: Pc, a: Addr) {
    (pc.WaitQueued? || pc.WaitParked? || pc.WaitInSchedule?) && pc.addr == a
  }

  /** Has read the futex word in this wait and not yet come back from sleeping. */
  predicate PastCheck(pc: Pc, a: Addr) {
    (pc.WaitEqual? || pc.WaitDequeued? || pc.WaitQueued? || pc.WaitParked? || pc.WaitInSchedule?) && pc.addr == a
  }

  predicate NeedsBucket(pc: Pc) {
    !(pc.Free? || pc.WaitBucket? || pc.WakeFind? || pc.ReqFilled? || pc.ReqPushed? || pc.ReqDequeued? || pc.ReqParked?
      || pc.ReqInSchedule? || pc.Exited?)
  }

  /** Runs with interrupts off: cannot be preempted. */
  predicate Masked(pc: Pc) {
    pc.WaitCheck? || pc.WaitEqual? || pc.WaitDequeued? || pc.WaitQueued? || pc.WaitLeave? || pc.WakeLoop?
        || pc.ReqDequeued?
  }

  predicate Watched(pc: Pc) { pc.ReqParked? || pc.ReqInSchedule? }

  /** Between the push and the return of `sleepWait` or of a successful poll. */
  predicate Outstanding(pc: Pc) { pc.ReqPushed? || pc.ReqDequeued? || pc.ReqParked? || pc.ReqInSchedule? }

  // ---------------------------------------------------------------- the steps of a thread

  /** The lock operation: unchanged (a spin) while somebody holds the lock. */
  function LockThen(w: World, t: Tid, a: Addr, pc: Pc, inc: int): World
    requires a in w.buckets
  {
    var b := w.buckets[a];
    if b.lock.Some? then w
    else SetPc(SetBucket(w, a, b.(lock := Some(t), waiters := b.waiters + inc)), t, pc)
  }

  /** `libos_get_bucket`. */
  function GetBucket(w: World, a: Addr): World {
    if a in w.buckets then w else SetBucket(w, a, NewBucket)
  }

  /** One read of the word; `giveUp` says that the spin budget is exhausted. */
  function CheckWord(w: World, t: Tid, a: Addr, val: int, giveUp: bool): World {
    if Word(w, a) != val then SetPc(w, t, WaitLeave(a))
    else if giveUp then SetPc(w, t, WaitEqual(a, val))
    else w
  }

  /** Takes the head off the futex queue (both queues share the hook) and enqueues it. */
  function WakeHead(w: World, c: CpuId, t: Tid, a: Addr, nr: nat, ret: nat): World
    requires a in w.buckets && w.buckets[a].queue != [] && c < |w.sched.runq|
             && w.buckets[a].queue[0] in w.sched.threads
  {
    var b := w.buckets[a];
    var u := b.queue[0];
    SetPc(SetBucket(w, a, b.(queue := b.queue[1..], woken := b.woken + [u])), t, WakeLoop(a, nr, ret + 1))
      .(sched := S.EnqueueTask(w.sched, c, u))
  }

  /** One turn of the `futex_wake` loop: wake the head, or leave. */
  function WakeTurn(w: World, c: CpuId, t: Tid, a: Addr, nr: nat, ret: nat): World
    requires a in w.buckets && c < |w.sched.runq|
    requires w.buckets[a].queue != [] ==> w.buckets[a].queue[0] in w.sched.threads
  {
    var b := w.buckets[a];
    if b.queue != [] && ret < nr then
      WakeHead(w, c, t, a, nr, ret)
    else SetPc(SetBucket(w, a, b.(lock := None)), t, Free)
  }

  /** `futex_wake` has the bucket: take the lock unless nobody waits. */
  function WakeEnter(w: World, t: Tid, a: Addr, nr: nat): World
    requires a in w.buckets
  {
    if w.buckets[a].lock.Some? then w
    else if w.buckets[a].waiters == 0 then SetPc(w, t, Free)
    else LockThen(w, t, a, WakeLoop(a, nr, 0), 0)
  }

  /** `dequeueTask` on oneself, on the way to sleep or to exit. */
  function FallAsleep(w: World, t: Tid): World
    requires CanDequeue(w, t)
  {
    var w1 := w.(sched := S.DequeueTask(w.sched, t));
    match w.pcs[t]
    case WaitEqual(a, v) => SetPc(w1, t, WaitDequeued(a, v))
    case ReqPushed => SetPc(SetReq(w1, t, w.reqs[t].(owner := Some(t))), t, ReqDequeued)
    case Free => SetPc(w1, t, Exited)
  }

  ghost predicate CanDequeue(w: World, t: Tid) {
    && t in w.pcs && t in w.reqs && t in w.sched.threads
    && (w.pcs[t].WaitEqual? || w.pcs[t].ReqPushed? || w.pcs[t].Free?)
    && S.DequeueTask.requires(w.sched, t)
  }

  /** Entering `schedule` from thread code, by a call or by preemption. */
  function EnterSchedule(w: World, c: CpuId, t: Tid): World
    requires c < |w.sched.cpus| && w.sched.cpus[c].Running? && t in w.pcs
  {
    var pc := match w.pcs[t]
              case WaitParked(a, v) => WaitInSchedule(a, v)
              case ReqParked => ReqInSchedule
              case pc => pc;
    SetPc(w, t, pc).(sched := S.StartSchedule(w.sched, c))
  }

  /** getRequest, push, a successful poll, and the return from `sleepWait`. */
  function RequestStep(w: World, t: Tid): World
    requires t in w.pcs && t in w.reqs
  {
    match w.pcs[t]
    case Free => SetPc(SetReq(w, t, w.reqs[t].(done := false, ack := false, owner := None)), t, ReqFilled)
    case ReqFilled => SetPc(SetReq(w, t, w.reqs[t].(place := InQueue)), t, ReqPushed).(reqQueue := w.reqQueue + [t])
    case ReqPushed => if w.reqs[t].done then SetPc(w, t, Free) else w
    case ReqInSchedule => SetPc(w, t, Free)
    case _ => w
  }

  /** `sleepWait` puts the request at the head of the watch list of its CPU. */
  function JoinWatchList(w: World, c: CpuId, t: Tid): World
    requires t in w.reqs && c < |w.watch|
  {
    var r := w.reqs[t];
    SetPc(SetReq(w, t, r.(watcher := Some(c), sleeps := r.sleeps + 1)), t,
        ReqParked).(watch := w.watch[c := [t] + w.watch[c]])
  }

  ghost predicate CanStep(w: World, c: CpuId, t: Tid) {
    && c < |w.sched.cpus| == |w.sched.runq| == |w.watch|
    && w.sched.cpus[c] == S.Running(Some(t)) && t in w.pcs && t in w.reqs && t in w.sched.threads
    && (NeedsBucket(w.pcs[t]) ==>
          && w.pcs[t].addr in w.buckets
          && (var q := w.buckets[w.pcs[t].addr].queue; q != [] ==> q[0] in w.sched.threads))
    && (w.pcs[t].WaitEqual? || w.pcs[t].ReqPushed? || w.pcs[t].Free? ==> S.DequeueTask.requires(w.sched, t))
  }

  /** The next step of thread `t`, current on CPU `c`.  `choice` resolves the end of a polling loop. */
  function ThreadStep(w: World, c: CpuId, t: Tid, choice: bool): World
    requires CanStep(w, c, t)
  {
    match w.pcs[t]
    case Free => w
    case WaitBucket(a, v) => SetPc(GetBucket(w, a), t, WaitLock(a, v))
    case WaitLock(a, v) => LockThen(w, t, a, WaitCheck(a, v), 1)
    case WaitCheck(a, v) => CheckWord(w, t, a, v, choice)
    case WaitEqual(_, _) => FallAsleep(w, t)
    case WaitDequeued(a, v) =>
      var b := w.buckets[a];
      SetPc(SetBucket(w, a, b.(queue := b.queue + [t], slept := b.slept + [t])), t, WaitQueued(a, v))
    case WaitQueued(a, v) => SetPc(SetBucket(w, a, w.buckets[a].(lock := None)), t, WaitParked(a, v))
    case WaitParked(_, _) => EnterSchedule(w, c, t)
    case WaitInSchedule(a, _) => SetPc(w, t, WaitRelock(a))
    case WaitRelock(a) => LockThen(w, t, a, WaitLeave(a), 0)
    case WaitLeave(a) => SetPc(SetBucket(w, a, w.buckets[a].(lock := None, waiters := w.buckets[a].waiters - 1)), t,
        Free)
    case WakeFind(a, nr) => if a in w.buckets then SetPc(w, t, WakeLock(a, nr)) else SetPc(w, t, Free)
    case WakeLock(a, nr) => WakeEnter(w, t, a, nr)
    case WakeLoop(a, nr, ret) => WakeTurn(w, c, t, a, nr, ret)
    case ReqFilled => RequestStep(w, t)
    case ReqPushed => if choice then FallAsleep(w, t) else RequestStep(w, t)
    case ReqDequeued => JoinWatchList(w, c, t)
    case ReqParked => EnterSchedule(w, c, t)
    case ReqInSchedule => RequestStep(w, t)
    case Exited => EnterSchedule(w, c, t)
  }

  datatype Call =
    | Wait(addr: Addr, val: int) | Wake(addr: Addr, n: nat) | Async | Store(a: Addr, v: int) | Clone(child: Tid) | Exit

  /** Thread code between library calls: start one, write a word, create a thread, terminate. */
  function Invoke(w: World, c: CpuId, t: Tid, call: Call): World
    requires CanStep(w, c, t) && w.pcs[t].Free?
  {
    match call
    case Wait(a, v) => SetPc(w, t, WaitBucket(a, v))
    case Wake(a, n) => SetPc(w, t, WakeFind(a, NrWake(n)))
    case Async => RequestStep(w, t)
    case Store(a, v) => w.(mem := w.mem[a := v])
    case Clone(u) => if u in w.sched.threads then w else StartThread(w, c, u)
    case Exit => FallAsleep(w, t)
  }

  /** Creates thread `u` and enqueues it on the creating CPU. */
  function StartThread(w: World, c: CpuId, u: Tid): World
    requires c < |w.sched.runq|
  {
    SetPc(SetReq(w, u, NoRequest), u, Free).(sched := S.EnqueueTask(S.Spawn(w.sched, u), c, u))
  }

  // ---------------------------------------------------------------- the steps of a CPU and of the swapper

  /** One iteration of `watchListCheck`: a finished request leaves the list and its owner is enqueued. */
  function WatchTurn(w: World, c: CpuId): World
    requires c < |w.sched.cpus| == |w.watch| == |w.sched.runq| && w.sched.cpus[c].Checking?
             && w.sched.cpus[c].at < |w.watch[c]|
    requires var u := w.watch[c][w.sched.cpus[c].at]; u in w.reqs && u in w.sched.threads
  {
    var at := w.sched.cpus[c].at;
    var u := w.watch[c][at];
    var r := w.reqs[u];
    if r.done then
      SetReq(w, u, r.(owner := None, watcher := None, wakes := r.wakes + 1))
        .(watch := w.watch[c := w.watch[c][..at] + w.watch[c][at + 1..]], sched := S.EnqueueTask(w.sched, c, u))
    else w.(sched := S.SetCpu(w.sched, c, S.Checking(w.sched.cpus[c].cur, at + 1)))
  }

  function SwapperTake(w: World): World
    requires w.reqQueue != [] && w.reqQueue[0] in w.reqs
  {
    SetReq(w, w.reqQueue[0], w.reqs[w.reqQueue[0]].(place := AtSwapper)).(reqQueue := w.reqQueue[1..])
  }

  /** `dispatch` acknowledges, and later the handler calls `setDone`. */
  function SwapperWork(w: World, u: Tid, finish: bool): World
    requires u in w.reqs && w.reqs[u].place.AtSwapper?
  {
    if finish then SetReq(w, u, w.reqs[u].(done := true, place := WithThread))
    else SetReq(w, u, w.reqs[u].(ack := true))
  }

  // ---------------------------------------------------------------- the invariant

  /** Some CPU is executing the code of `t` right now. */
  predicate Executing(s: S.State, t: Tid)
    requires t in s.threads
  {
    var r := s.threads[t].runner;
    r.Some? && r.value < |s.cpus| && s.cpus[r.value] == S.Running(Some(t))
  }

  /** Program points at which the thread is runnable whatever happens. */
  predicate Awake(pc: Pc) {
    !(pc.WaitDequeued? || pc.WaitQueued? || pc.WaitParked? || pc.WaitInSchedule? || pc.ReqDequeued? || pc.ReqParked?
      || pc.ReqInSchedule? || pc.Exited?)
  }

  ghost predicate FutexOk(w: World, t: Tid)
    requires t in w.pcs && t in w.sched.threads
  {
    var pc, th := w.pcs[t], w.sched.threads[t];
    && (Awake(pc) ==> th.onQueue)
    && (pc.WaitDequeued? || pc.ReqDequeued? || pc.Exited? ==> !th.onQueue)
    && (NeedsBucket(pc) ==>
          && pc.addr in w.buckets
          && (Enqueued(pc, pc.addr) ==> (th.onQueue <==> t !in w.buckets[pc.addr].queue))
          && (Locks(pc, pc.addr) ==> w.buckets[pc.addr].lock == Some(t)))
    && (Masked(pc) ==> Executing(w.sched, t))
    && (pc.WaitInSchedule? || pc.ReqInSchedule? ==> (Executing(w.sched, t) ==> th.onQueue))
  }

  ghost predicate RequestOk(w: World, t: Tid)
    requires t in w.pcs && t in w.reqs && t in w.sched.threads
  {
    var pc, r := w.pcs[t], w.reqs[t];
    && (Watched(pc) ==> (w.sched.threads[t].onQueue <==> r.watcher.None?) && (r.watcher.None? ==> r.done))
    && (!Watched(pc) ==> r.watcher.None?)
    && (r.watcher.Some? ==> r.watcher.value < |w.watch|)
    && (r.watcher.Some? || pc.ReqDequeued? ==> r.owner == Some(t))
    && (if Outstanding(pc) then r.done <==> r.place.WithThread? else r.place.WithThread?)
    && (pc.ReqFilled? ==> !r.done)
    && (r.place.InQueue? <==> t in w.reqQueue)
    && r.sleeps == r.wakes + (if r.watcher.Some? then 1 else 0)
  }

  ghost function Waiters(pcs: map<Tid, Pc>, a: Addr): set<Tid> {
    set t | t in pcs && Counted(pcs[t], a)
  }

  ghost predicate BucketOk(w: World, a: Addr)
    requires a in w.buckets
  {
    var b := w.buckets[a];
    && NoDuplicates(b.queue)
    && (forall t | t in b.queue :: t in w.pcs && Enqueued(w.pcs[t], a))
    && (b.lock.Some? ==> b.lock.value in w.pcs && Locks(w.pcs[b.lock.value], a))
    && b.slept == b.woken + b.queue
    && b.waiters == |Waiters(w.pcs, a)|
  }

  ghost predicate WatchOk(w: World, c: CpuId)
    requires c < |w.watch|
  {
    NoDuplicates(w.watch[c]) && forall t :: t in w.watch[c] <==> t in w.reqs && w.reqs[t].watcher == Some(c)
  }

  ghost predicate Base(w: World) {
    && |w.watch| == |w.sched.cpus| == |w.sched.runq|
    && w.pcs.Keys == w.reqs.Keys
    && (forall t :: t in w.pcs <==> t in w.sched.threads && !S.IsIdle(w.sched, t))
  }

  /** Everything but the scheduler's own invariant. */
  ghost predicate Layer(w: World) {
    && Base(w)
    && (forall t | t in w.pcs :: FutexOk(w, t))
    && (forall t | t in w.pcs :: RequestOk(w, t))
    && (forall a | a in w.buckets :: BucketOk(w, a))
    && (forall c | 0 <= c < |w.watch| :: WatchOk(w, c))
    && NoDuplicates(w.reqQueue) && (forall t | t in w.reqQueue :: t in w.reqs)
  }

  ghost predicate Inv(w: World) {
    S.Inv(w.sched) && Layer(w)
  }

  lemma BootInv(idle: seq<Tid>)
    requires NoDuplicates(idle)
    ensures Inv(Boot(idle))
  {
    S.BootInv(idle);
  }

  // ---------------------------------------------------------------- counting waiters

  lemma WaitersAfter(pcs: map<Tid, Pc>, t: Tid, pc: Pc, a: Addr)
    requires t in pcs
    ensures |Waiters(pcs[t := pc], a)| - (if Counted(pc, a) then 1 else 0) ==
            |Waiters(pcs, a)| - (if Counted(pcs[t], a) then 1 else 0)
  {
    hide Counted;
    var rest := Waiters(pcs, a) - {t};
    assert Waiters(pcs, a) == if Counted(pcs[t], a) then rest + {t} else rest;
    assert Waiters(pcs[t := pc], a) == if Counted(pc, a) then rest + {t} else rest;
  }

  // ---------------------------------------------------------------- steps on one bucket

  /** A step of `t` on bucket `a` that leaves the scheduler and the requests alone. */
  ghost predicate OnBucket(w: World, w': World, t: Tid, a: Addr) {
    && t in w.pcs && t in w'.pcs && a in w'.buckets
    && w' == w.(pcs := w.pcs[t := w'.pcs[t]], buckets := w.buckets[a := w'.buckets[a]])
    && (forall x | x != a :: !Counted(w.pcs[t], x) && !Counted(w'.pcs[t], x) && !Locks(w.pcs[t], x))
  }

  /** What a step of `t` on bucket `a` may assume ... */
  ghost predicate LocalPre(w: World, t: Tid, a: Addr) {
    && t in w.pcs && t in w.reqs && t in w.sched.threads
    && FutexOk(w, t) && RequestOk(w, t) && (a in w.buckets ==> BucketOk(w, a))
  }

  /** ... and must establish. */
  ghost predicate LocalPost(w: World, w': World, t: Tid, a: Addr) {
    && OnBucket(w, w', t, a) && t in w.reqs && t in w.sched.threads
    && (a in w.buckets ==>
          forall u | u != t :: (u in w'.buckets[a].queue <==> u in w.buckets[a].queue)
                               && (w.buckets[a].lock == Some(u) ==> w'.buckets[a].lock == Some(u)))
    && FutexOk(w', t) && RequestOk(w', t) && BucketOk(w', a)
  }

  lemma OnBucketView(w: World, w': World, t: Tid, a: Addr, v: Tid)
    requires LocalPost(w, w', t, a) && v != t && v in w.pcs && v in w.reqs && v in w.sched.threads
    ensures SameView(w, w', v)
  {
    hide FutexOk, RequestOk, BucketOk;
  }

  lemma OnBucketOther(w: World, w': World, t: Tid, a: Addr, x: Addr)
    requires LocalPost(w, w', t, a) && x != a && x in w.buckets
    ensures SameBucket(w, w', x)
  {
    hide FutexOk, RequestOk, BucketOk;
  }

  lemma BucketFrame(w: World, w': World, t: Tid, a: Addr)
    requires Layer(w) && LocalPost(w, w', t, a)
    ensures Layer(w')
  {
    hide FutexOk, RequestOk, BucketOk, WatchOk, SameView, SameBucket;
    forall v | v in w.pcs && v != t ensures SameView(w, w', v) { OnBucketView(w, w', t, a, v); }
    forall x | x in w'.buckets ensures SameBucket(w, w', x) || BucketOk(w', x) {
      if x != a { OnBucketOther(w, w', t, a, x); }
    }
    WatchFrame(w, w');
    Assemble(w, w', t, t);
  }

  lemma BucketFacts(w: World, t: Tid, a: Addr)
    requires Layer(w) && t in w.pcs
    ensures LocalPre(w, t, a)
    ensures a !in w.buckets ==> Waiters(w.pcs, a) == {}
  {
    if a !in w.buckets {
      forall u | u in w.pcs ensures !Counted(w.pcs[u], a) { assert FutexOk(w, u); }
    }
  }

  lemma GetBucketLocal(w: World, t: Tid, a: Addr, v: int)
    requires LocalPre(w, t, a) && w.pcs[t] == WaitBucket(a, v)
    requires a !in w.buckets ==> Waiters(w.pcs, a) == {}
    ensures LocalPost(w, SetPc(GetBucket(w, a), t, WaitLock(a, v)), t, a)
  {
    var w' := SetPc(GetBucket(w, a), t, WaitLock(a, v));
    WaitersAfter(w.pcs, t, WaitLock(a, v), a);
    assert w'.buckets == w.buckets[a := w'.buckets[a]];
  }

  lemma LockLocal(w: World, t: Tid, a: Addr, pc: Pc, inc: int)
    requires LocalPre(w, t, a) && Executing(w.sched, t) && a in w.buckets && w.buckets[a].lock.None?
    requires (w.pcs[t].WaitLock? && pc.WaitCheck? && inc == 1)
          || (w.pcs[t].WaitRelock? && pc.WaitLeave? && inc == 0)
          || (w.pcs[t].WakeLock? && pc.WakeLoop? && inc == 0)
    requires w.pcs[t].addr == a == pc.addr
    ensures LocalPost(w, LockThen(w, t, a, pc, inc), t, a)
  {
    WaitersAfter(w.pcs, t, pc, a);
  }

  /** The holder of the lock moves on without touching the bucket. */
  lemma MoveLocal(w: World, t: Tid, a: Addr, pc: Pc)
    requires LocalPre(w, t, a) && a in w.buckets && Executing(w.sched, t)
    requires (w.pcs[t].WaitCheck? && (pc == WaitLeave(a) || (pc.WaitEqual? && pc.addr == a)))
             || (w.pcs[t].WaitInSchedule? && pc == WaitRelock(a))
    requires w.pcs[t].addr == a
    ensures LocalPost(w, SetPc(w, t, pc), t, a)
  {
    WaitersAfter(w.pcs, t, pc, a);
    assert w.buckets == w.buckets[a := w.buckets[a]];
  }

  lemma EnqueueLocal(w: World, t: Tid, a: Addr, v: int)
    requires LocalPre(w, t, a) && w.pcs[t] == WaitDequeued(a, v)
    ensures var b := w.buckets[a];
            LocalPost(w, SetPc(SetBucket(w, a, b.(queue := b.queue + [t], slept := b.slept + [t])), t,
                WaitQueued(a, v)), t, a)
  {
    assert t !in w.buckets[a].queue;
    WaitersAfter(w.pcs, t, WaitQueued(a, v), a);
  }

  lemma UnlockLocal(w: World, t: Tid, a: Addr, pc: Pc, dec: int)
    requires LocalPre(w, t, a) && Locks(w.pcs[t], a)
    requires (w.pcs[t].WaitQueued? && pc.WaitParked? && pc.addr == a && dec == 0)
             || (w.pcs[t].WaitLeave? && pc == Free && dec == 1)
          || (w.pcs[t].WakeLoop? && pc == Free && dec == 0)
    ensures var b := w.buckets[a];
            LocalPost(w, SetPc(SetBucket(w, a, b.(lock := None, waiters := b.waiters - dec)), t, pc), t, a)
  {
    WaitersAfter(w.pcs, t, pc, a);
  }

  /** A step that changes only the program point of `t`, between two points that mean nothing to any bucket. */
  lemma PcFrame(w: World, t: Tid, pc: Pc)
    requires Layer(w) && t in w.pcs && t in w.sched.threads
    requires forall a :: !Counted(w.pcs[t], a) && !Locks(w.pcs[t], a) && !Counted(pc, a) && !Locks(pc, a)
    requires FutexOk(SetPc(w, t, pc), t) && RequestOk(SetPc(w, t, pc), t)
    ensures Layer(SetPc(w, t, pc))
  {
    hide FutexOk, RequestOk, BucketOk, WatchOk;
    var w' := SetPc(w, t, pc);
    assert w'.reqs == w.reqs[t := w'.reqs[t]];
    WatchFrame(w, w');
    RequestFrame(w, w', t);
  }

  /** Program points whose step stays inside one bucket. */
  predicate BucketStep(w: World, t: Tid)
    requires t in w.pcs && (NeedsBucket(w.pcs[t]) ==> w.pcs[t].addr in w.buckets)
  {
    var pc := w.pcs[t];
    || pc.WaitBucket? || pc.WaitLock? || pc.WaitCheck? || pc.WaitDequeued? || pc.WaitQueued? || pc.WaitInSchedule?
    || pc.WaitRelock? || pc.WaitLeave? || pc.WakeLock?
    || (pc.WakeLoop? && (w.buckets[pc.addr].queue == [] || pc.ret >= pc.nr))
  }

  /** Entering the sleep: up to the unlock that follows the enqueue. */
  predicate GoingToSleep(pc: Pc) {
    pc.WaitBucket? || pc.WaitLock? || pc.WaitCheck? || pc.WaitDequeued? || pc.WaitQueued?
  }

  lemma SleepStepLocal(w: World, c: CpuId, t: Tid, choice: bool)
    requires CanStep(w, c, t) && Executing(w.sched, t) && BucketStep(w, t) && LocalPre(w, t, w.pcs[t].addr)
    requires GoingToSleep(w.pcs[t])
    requires w.pcs[t].addr !in w.buckets ==> Waiters(w.pcs, w.pcs[t].addr) == {}
    ensures var w' := ThreadStep(w, c, t, choice);
            w' == w || LocalPost(w, w', t, w.pcs[t].addr) || (w.pcs[t].WakeLock? && w' == SetPc(w, t, Free))
  {
    hide FutexOk, RequestOk, BucketOk, LocalPost;
    match w.pcs[t]
    case WaitBucket(a, v) => GetBucketLocal(w, t, a, v);
    case WaitLock(a, v) => if w.buckets[a].lock.None? { LockLocal(w, t, a, WaitCheck(a, v), 1); }
    case WaitCheck(a, v) =>
      if Word(w, a) != v { MoveLocal(w, t, a, WaitLeave(a)); } else if choice { MoveLocal(w, t, a, WaitEqual(a, v)); }
    case WaitDequeued(a, v) => EnqueueLocal(w, t, a, v);
    case WaitQueued(a, v) => UnlockLocal(w, t, a, WaitParked(a, v), 0);
  }

  lemma WakeStepLocal(w: World, c: CpuId, t: Tid, choice: bool)
    requires CanStep(w, c, t) && Executing(w.sched, t) && BucketStep(w, t) && LocalPre(w, t, w.pcs[t].addr)
    requires !GoingToSleep(w.pcs[t])
    requires w.pcs[t].addr !in w.buckets ==> Waiters(w.pcs, w.pcs[t].addr) == {}
    ensures var w' := ThreadStep(w, c, t, choice);
            w' == w || LocalPost(w, w', t, w.pcs[t].addr) || (w.pcs[t].WakeLock? && w' == SetPc(w, t, Free))
  {
    hide FutexOk, RequestOk, BucketOk, LocalPost;
    match w.pcs[t]
    case WaitInSchedule(a, _) => MoveLocal(w, t, a, WaitRelock(a));
    case WaitRelock(a) => if w.buckets[a].lock.None? { LockLocal(w, t, a, WaitLeave(a), 0); }
    case WaitLeave(a) => UnlockLocal(w, t, a, Free, 1);
    case WakeLock(a, nr) =>
      if w.buckets[a].lock.None? && w.buckets[a].waiters != 0 { LockLocal(w, t, a, WakeLoop(a, nr, 0), 0); }
    case WakeLoop(a, nr, ret) => UnlockLocal(w, t, a, Free, 0);
  }

  lemma BucketStepKeepsLayer(w: World, c: CpuId, t: Tid, choice: bool)
    requires Layer(w) && CanStep(w, c, t) && Executing(w.sched, t) && BucketStep(w, t)
    ensures Layer(ThreadStep(w, c, t, choice))
  {
    var a := w.pcs[t].addr;
    var w' := ThreadStep(w, c, t, choice);
    BucketFacts(w, t, a);
    if GoingToSleep(w.pcs[t]) { SleepStepLocal(w, c, t, choice); } else { WakeStepLocal(w, c, t, choice); }
    if w' == w {
    } else if LocalPost(w, w', t, a) {
      BucketFrame(w, w', t, a);
    } else {
      PlainKeepsLayer(w, t, Free);
    }
  }

  /** Points of thread code and of a call's first steps, where nothing is held. */
  predicate Plain(w: World, pc: Pc) {
    pc.Free? || pc.WaitBucket? || pc.WakeFind? || (pc.WakeLock? && pc.addr in w.buckets)
  }

  lemma PlainLocal(w: World, t: Tid, pc: Pc)
    requires t in w.pcs && t in w.reqs && t in w.sched.threads && FutexOk(w, t) && RequestOk(w, t)
    requires Plain(w, w.pcs[t]) && Plain(w, pc)
    ensures FutexOk(SetPc(w, t, pc), t) && RequestOk(SetPc(w, t, pc), t)
    ensures forall a :: !Counted(w.pcs[t], a) && !Locks(w.pcs[t], a) && !Counted(pc, a) && !Locks(pc, a)
  {
  }

  lemma PlainKeepsLayer(w: World, t: Tid, pc: Pc)
    requires Layer(w) && t in w.pcs && t in w.sched.threads && Plain(w, w.pcs[t]) && Plain(w, pc)
    ensures Layer(SetPc(w, t, pc))
  {
    PlainLocal(w, t, pc);
    PcFrame(w, t, pc);
  }

  // ---------------------------------------------------------------- steps that involve the scheduler

  /** Nothing that the invariant says about thread `u` has changed. */
  ghost predicate SameView(w: World, w': World, u: Tid) {
    && u in w.pcs && u in w.reqs && u in w.sched.threads
    && u in w'.pcs && u in w'.reqs && u in w'.sched.threads
    && w'.pcs[u] == w.pcs[u] && w'.reqs[u] == w.reqs[u]
    && w'.sched.threads[u].onQueue == w.sched.threads[u].onQueue
    && (Executing(w'.sched, u) <==> Executing(w.sched, u))
    && |w'.watch| == |w.watch| && (u in w'.reqQueue <==> u in w.reqQueue)
    && (NeedsBucket(w.pcs[u]) && w.pcs[u].addr in w.buckets ==>
          var a := w.pcs[u].addr;
          && a in w'.buckets
          && (u in w'.buckets[a].queue <==> u in w.buckets[a].queue)
          && (w.buckets[a].lock == Some(u) ==> w'.buckets[a].lock == Some(u)))
  }

  lemma SameViewKeeps(w: World, w': World, u: Tid)
    requires SameView(w, w', u) && FutexOk(w, u) && RequestOk(w, u)
    ensures FutexOk(w', u) && RequestOk(w', u)
  {
  }

  /** Nothing that the invariant says about bucket `x` has changed. */
  ghost predicate SameBucket(w: World, w': World, x: Addr) {
    && x in w.buckets && x in w'.buckets && w'.buckets[x] == w.buckets[x] && w'.pcs.Keys == w.pcs.Keys
    && forall u | u in w.pcs ::
         && (Counted(w'.pcs[u], x) <==> Counted(w.pcs[u], x))
         && (Enqueued(w.pcs[u], x) ==> Enqueued(w'.pcs[u], x))
         && (Locks(w.pcs[u], x) ==> Locks(w'.pcs[u], x))
  }

  lemma SameBucketKeeps(w: World, w': World, x: Addr)
    requires SameBucket(w, w', x) && BucketOk(w, x)
    ensures BucketOk(w', x)
  {
    assert Waiters(w'.pcs, x) == Waiters(w.pcs, x);
  }

  /** A step that affects the view of at most two threads, one bucket and no watch list or queue order. */
  lemma Assemble(w: World, w': World, t: Tid, u: Tid)
    requires Layer(w) && Base(w')
    requires w'.pcs.Keys == w.pcs.Keys
    requires forall v | v in w.pcs && v != t && v != u :: SameView(w, w', v)
    requires forall v | v in w'.pcs && (v == t || v == u) :: FutexOk(w', v) && RequestOk(w', v)
    requires forall x | x in w'.buckets :: SameBucket(w, w', x) || BucketOk(w', x)
    requires forall c | 0 <= c < |w'.watch| :: WatchOk(w', c)
    requires NoDuplicates(w'.reqQueue) && (forall v | v in w'.reqQueue :: v in w'.reqs)
    ensures Layer(w')
  {
    hide FutexOk, RequestOk, BucketOk, WatchOk, SameView;
    forall v | v in w'.pcs ensures FutexOk(w', v) && RequestOk(w', v) {
      if v != t && v != u { SameViewKeeps(w, w', v); }
    }
    forall x | x in w'.buckets ensures BucketOk(w', x) {
      if SameBucket(w, w', x) { SameBucketKeeps(w, w', x); }
    }
  }

  lemma FallAsleepLocal(w: World, t: Tid)
    requires CanDequeue(w, t) && Executing(w.sched, t) && FutexOk(w, t) && RequestOk(w, t)
    ensures FutexOk(FallAsleep(w, t), t) && RequestOk(FallAsleep(w, t), t)
  {
  }

  lemma FallAsleepOthers(w: World, t: Tid, v: Tid)
    requires CanDequeue(w, t) && v != t && v in w.pcs && v in w.reqs && v in w.sched.threads
    ensures SameView(w, FallAsleep(w, t), v)
  {
  }

  lemma FallAsleepBucket(w: World, t: Tid, x: Addr)
    requires CanDequeue(w, t) && x in w.buckets
    ensures SameBucket(w, FallAsleep(w, t), x)
  {
  }

  lemma FallAsleepRest(w: World, t: Tid)
    requires CanDequeue(w, t) && Base(w)
    ensures var w' := FallAsleep(w, t);
            && Base(w') && w'.watch == w.watch && w'.reqQueue == w.reqQueue && w'.pcs.Keys == w.pcs.Keys
                && w'.buckets == w.buckets
            && forall v | v in w.reqs :: v in w'.reqs && w'.reqs[v].watcher == w.reqs[v].watcher
  {
  }

  /** Watch lists that did not change agree with requests whose watcher did not change. */
  lemma WatchFrame(w: World, w': World)
    requires (forall c | 0 <= c < |w.watch| :: WatchOk(w, c)) && w'.watch == w.watch && w'.reqs.Keys == w.reqs.Keys
    requires forall v | v in w.reqs :: v in w'.reqs && w'.reqs[v].watcher == w.reqs[v].watcher
    ensures forall c | 0 <= c < |w'.watch| :: WatchOk(w', c)
  {
    forall c | 0 <= c < |w'.watch| ensures WatchOk(w', c) { assert WatchOk(w, c); }
  }

  lemma FallAsleepKeepsLayer(w: World, t: Tid)
    requires Layer(w) && CanDequeue(w, t) && Executing(w.sched, t)
    ensures Layer(FallAsleep(w, t))
  {
    var w' := FallAsleep(w, t);
    FallAsleepLocal(w, t);
    FallAsleepRest(w, t);
    forall v | v in w.pcs && v != t ensures SameView(w, w', v) { FallAsleepOthers(w, t, v); }
    forall x | x in w'.buckets ensures SameBucket(w, w', x) { FallAsleepBucket(w, t, x); }
    WatchFrame(w, w');
    Assemble(w, w', t, t);
  }

  ghost predicate CanEnter(w: World, c: CpuId, t: Tid) {
    && c < |w.sched.cpus| && w.sched.cpus[c] == S.Running(Some(t))
    && t in w.pcs && t in w.reqs && t in w.sched.threads && w.sched.threads[t].runner == Some(c)
  }

  lemma EnterScheduleLocal(w: World, c: CpuId, t: Tid)
    requires CanEnter(w, c, t) && !Masked(w.pcs[t]) && FutexOk(w, t) && RequestOk(w, t)
    ensures FutexOk(EnterSchedule(w, c, t), t) && RequestOk(EnterSchedule(w, c, t), t)
  {
  }

  lemma EnterScheduleOthers(w: World, c: CpuId, t: Tid, v: Tid)
    requires CanEnter(w, c, t) && v != t && v in w.pcs && v in w.reqs && v in w.sched.threads
    ensures SameView(w, EnterSchedule(w, c, t), v)
  {
  }

  lemma EnterScheduleBucket(w: World, c: CpuId, t: Tid, x: Addr)
    requires CanEnter(w, c, t) && !Masked(w.pcs[t]) && x in w.buckets
    ensures SameBucket(w, EnterSchedule(w, c, t), x)
  {
  }

  lemma EnterScheduleRest(w: World, c: CpuId, t: Tid)
    requires CanEnter(w, c, t) && Base(w)
    ensures var w' := EnterSchedule(w, c, t);
            Base(w') && w'.watch == w.watch && w'.reqQueue == w.reqQueue && w'.pcs.Keys == w.pcs.Keys
                && w'.buckets == w.buckets && w'.reqs == w.reqs
  {
  }

  lemma EnterScheduleKeepsLayer(w: World, c: CpuId, t: Tid)
    requires Layer(w) && CanEnter(w, c, t) && !Masked(w.pcs[t])
    ensures Layer(EnterSchedule(w, c, t))
  {
    var w' := EnterSchedule(w, c, t);
    EnterScheduleLocal(w, c, t);
    EnterScheduleRest(w, c, t);
    forall v | v in w.pcs && v != t ensures SameView(w, w', v) { EnterScheduleOthers(w, c, t, v); }
    forall x | x in w'.buckets ensures SameBucket(w, w', x) { EnterScheduleBucket(w, c, t, x); }
    WatchFrame(w, w');
    Assemble(w, w', t, t);
  }

  // ---- waking the head of a futex queue

  ghost predicate CanWake(w: World, c: CpuId, t: Tid, a: Addr, nr: nat, ret: nat) {
    && t in w.pcs && t in w.reqs && t in w.sched.threads && w.pcs[t] == WakeLoop(a, nr, ret)
    && a in w.buckets && w.buckets[a].queue != [] && c < |w.sched.runq|
    && BucketOk(w, a)
    && var u := w.buckets[a].queue[0]; u in w.pcs && u in w.reqs && u in w.sched.threads
  }

  lemma WakeHeadSelf(w: World, c: CpuId, t: Tid, a: Addr, nr: nat, ret: nat)
    requires CanWake(w, c, t, a, nr, ret) && FutexOk(w, t) && RequestOk(w, t)
    ensures t != w.buckets[a].queue[0]
    ensures FutexOk(WakeHead(w, c, t, a, nr, ret), t) && RequestOk(WakeHead(w, c, t, a, nr, ret), t)
  {
    assert w.buckets[a].queue[0] in w.buckets[a].queue;
  }

  lemma WakeHeadWoken(w: World, c: CpuId, t: Tid, a: Addr, nr: nat, ret: nat)
    requires CanWake(w, c, t, a, nr, ret)
    requires var u := w.buckets[a].queue[0]; u != t && FutexOk(w, u) && RequestOk(w, u)
    ensures var u := w.buckets[a].queue[0];
            var w' := WakeHead(w, c, t, a, nr, ret);
            !w.sched.threads[u].onQueue && FutexOk(w', u) && RequestOk(w', u)
  {
    var u := w.buckets[a].queue[0];
    assert u in w.buckets[a].queue;
    assert u !in w.buckets[a].queue[1..];
  }

  lemma WakeHeadOthers(w: World, c: CpuId, t: Tid, a: Addr, nr: nat, ret: nat, v: Tid)
    requires CanWake(w, c, t, a, nr, ret) && v != t && v != w.buckets[a].queue[0] && v in w.pcs && v in w.reqs
             && v in w.sched.threads
    ensures SameView(w, WakeHead(w, c, t, a, nr, ret), v)
  {
    var q := w.buckets[a].queue;
    assert q == [q[0]] + q[1..];
    assert v in q <==> v in q[1..];
  }

  lemma WakeHeadBucket(w: World, c: CpuId, t: Tid, a: Addr, nr: nat, ret: nat)
    requires CanWake(w, c, t, a, nr, ret)
    ensures BucketOk(WakeHead(w, c, t, a, nr, ret), a)
  {
    var w' := WakeHead(w, c, t, a, nr, ret);
    var b, b' := w.buckets[a], w'.buckets[a];
    assert b.queue == [b.queue[0]] + b'.queue;
    assert b'.slept == b'.woken + b'.queue;
    forall v | v in b'.queue ensures v in w'.pcs && Enqueued(w'.pcs[v], a) { assert v in b.queue; }
    assert b'.waiters == |Waiters(w'.pcs, a)| by { WaitersAfter(w.pcs, t, w'.pcs[t], a); }
  }

  lemma WakeHeadOtherBucket(w: World, c: CpuId, t: Tid, a: Addr, nr: nat, ret: nat, x: Addr)
    requires CanWake(w, c, t, a, nr, ret) && x in w.buckets && x != a
    ensures SameBucket(w, WakeHead(w, c, t, a, nr, ret), x)
  {
  }

  lemma WakeHeadRest(w: World, c: CpuId, t: Tid, a: Addr, nr: nat, ret: nat)
    requires CanWake(w, c, t, a, nr, ret) && Base(w)
    ensures var w' := WakeHead(w, c, t, a, nr, ret);
            Base(w') && w'.watch == w.watch && w'.reqQueue == w.reqQueue && w'.pcs.Keys == w.pcs.Keys
            && w'.buckets.Keys == w.buckets.Keys && w'.reqs == w.reqs
  {
  }

  lemma WakeHeadKeepsLayer(w: World, c: CpuId, t: Tid, a: Addr, nr: nat, ret: nat)
    requires Layer(w) && CanWake(w, c, t, a, nr, ret)
    ensures !w.sched.threads[w.buckets[a].queue[0]].onQueue
    ensures Layer(WakeHead(w, c, t, a, nr, ret))
  {
    var w' := WakeHead(w, c, t, a, nr, ret);
    var u := w.buckets[a].queue[0];
    WakeHeadSelf(w, c, t, a, nr, ret);
    WakeHeadWoken(w, c, t, a, nr, ret);
    WakeHeadRest(w, c, t, a, nr, ret);
    forall v | v in w.pcs && v != t && v != u ensures SameView(w, w', v) { WakeHeadOthers(w, c, t, a, nr, ret, v); }
    WakeHeadBucket(w, c, t, a, nr, ret);
    forall x | x in w'.buckets && x != a ensures SameBucket(w, w', x) { WakeHeadOtherBucket(w, c, t, a, nr, ret, x); }
    WatchFrame(w, w');
    Assemble(w, w', t, u);
  }

  // ---- requests

  /** A step on the request of `t`: its fields, the program point of `t` and the queues change, nothing else. */
  ghost predicate OnRequest(w: World, w': World, t: Tid) {
    && t in w.pcs && t in w'.pcs && t in w'.reqs && t in w.reqs && t in w.sched.threads
    && w' == w.(pcs := w.pcs[t := w'.pcs[t]], reqs := w.reqs[t := w'.reqs[t]], reqQueue := w'.reqQueue,
        watch := w'.watch)
    && (w'.pcs[t] == w.pcs[t]
        || forall a :: !Counted(w.pcs[t], a) && !Counted(w'.pcs[t], a) && !Locks(w.pcs[t], a) && !Locks(w'.pcs[t], a))
    && |w'.watch| == |w.watch|
    && NoDuplicates(w'.reqQueue) && (forall v | v != t :: v in w'.reqQueue <==> v in w.reqQueue)
  }

  lemma OnRequestView(w: World, w': World, t: Tid, v: Tid)
    requires OnRequest(w, w', t) && v != t && v in w.pcs && v in w.reqs && v in w.sched.threads
    ensures SameView(w, w', v)
  {
  }

  lemma OnRequestBucket(w: World, w': World, t: Tid, x: Addr)
    requires OnRequest(w, w', t) && x in w.buckets
    ensures SameBucket(w, w', x)
  {
  }

  lemma RequestFrame(w: World, w': World, t: Tid)
    requires Layer(w) && OnRequest(w, w', t) && FutexOk(w', t) && RequestOk(w', t)
    requires forall d | 0 <= d < |w'.watch| :: WatchOk(w', d)
    ensures Layer(w')
  {
    hide FutexOk, RequestOk, BucketOk, WatchOk, SameView, SameBucket;
    forall v | v in w.pcs && v != t ensures SameView(w, w', v) { OnRequestView(w, w', t, v); }
    forall x | x in w'.buckets ensures SameBucket(w, w', x) { OnRequestBucket(w, w', t, x); }
    Assemble(w, w', t, t);
  }

  /** What a step on the request of `t` by `t` establishes. */
  ghost predicate RequestPost(w: World, w': World, t: Tid) {
    && OnRequest(w, w', t) && FutexOk(w', t) && RequestOk(w', t)
    && w'.watch == w.watch && w'.reqs[t].watcher == w.reqs[t].watcher
  }

  lemma RequestBeginLocal(w: World, t: Tid)
    requires t in w.pcs && t in w.reqs && t in w.sched.threads && FutexOk(w, t) && RequestOk(w, t)
             && NoDuplicates(w.reqQueue)
    requires w.pcs[t].Free? || w.pcs[t].ReqFilled?
    ensures RequestPost(w, RequestStep(w, t), t)
  {
  }

  lemma RequestEndLocal(w: World, t: Tid)
    requires t in w.pcs && t in w.reqs && t in w.sched.threads && Executing(w.sched, t) && FutexOk(w, t)
             && RequestOk(w, t)
    requires NoDuplicates(w.reqQueue) && (w.pcs[t].ReqPushed? || w.pcs[t].ReqInSchedule?)
    ensures RequestPost(w, RequestStep(w, t), t)
  {
    assert w.reqs == w.reqs[t := w.reqs[t]] && w.pcs == w.pcs[t := w.pcs[t]];
  }

  lemma RequestStepKeepsLayer(w: World, t: Tid)
    requires Layer(w) && t in w.pcs && t in w.sched.threads && Executing(w.sched, t)
    ensures Layer(RequestStep(w, t))
  {
    var w' := RequestStep(w, t);
    if w' != w {
      if w.pcs[t].Free? || w.pcs[t].ReqFilled? { RequestBeginLocal(w, t); } else { RequestEndLocal(w, t); }
      WatchFrame(w, w');
      RequestFrame(w, w', t);
    }
  }

  lemma JoinWatchListLocal(w: World, c: CpuId, t: Tid)
    requires t in w.pcs && t in w.reqs && t in w.sched.threads && FutexOk(w, t) && RequestOk(w, t) && c < |w.watch|
    requires NoDuplicates(w.reqQueue) && w.pcs[t].ReqDequeued?
    ensures var w' := JoinWatchList(w, c, t); OnRequest(w, w', t) && FutexOk(w', t) && RequestOk(w', t)
  {
  }

  lemma JoinWatchListWatch(w: World, c: CpuId, t: Tid, d: CpuId)
    requires t in w.reqs && w.reqs[t].watcher.None? && c < |w.watch| && d < |w.watch| && WatchOk(w, d)
    ensures WatchOk(JoinWatchList(w, c, t), d)
  {
    var w' := JoinWatchList(w, c, t);
    assert t !in w.watch[d];
    forall u ensures u in w'.watch[d] <==> u in w'.reqs && w'.reqs[u].watcher == Some(d) {
      assert u in w.watch[d] <==> u in w.reqs && w.reqs[u].watcher == Some(d);
    }
  }

  lemma JoinWatchListKeepsLayer(w: World, c: CpuId, t: Tid)
    requires Layer(w) && t in w.pcs && t in w.sched.threads && w.pcs[t].ReqDequeued? && c < |w.watch|
    ensures Layer(JoinWatchList(w, c, t))
  {
    var w' := JoinWatchList(w, c, t);
    JoinWatchListLocal(w, c, t);
    assert RequestOk(w, t);
    forall d | 0 <= d < |w'.watch| ensures WatchOk(w', d) { JoinWatchListWatch(w, c, t, d); }
    RequestFrame(w, w', t);
  }

  lemma SwapperTakeLocal(w: World, t: Tid)
    requires w.reqQueue != [] && w.reqQueue[0] == t && t in w.pcs && t in w.reqs && t in w.sched.threads
    requires NoDuplicates(w.reqQueue) && FutexOk(w, t) && RequestOk(w, t)
    ensures var w' := SwapperTake(w); OnRequest(w, w', t) && FutexOk(w', t) && RequestOk(w', t)
  {
    var w' := SwapperTake(w);
    assert t in w.reqQueue && w.reqQueue == [t] + w.reqQueue[1..];
    assert w'.pcs == w.pcs[t := w'.pcs[t]];
  }

  lemma SwapperTakeKeepsLayer(w: World)
    requires Layer(w) && w.reqQueue != []
    ensures w.reqQueue[0] in w.reqs
    ensures Layer(SwapperTake(w))
  {
    var t := w.reqQueue[0];
    assert t in w.reqQueue;
    assert t in w.pcs;
    SwapperTakeLocal(w, t);
    var w' := SwapperTake(w);
    WatchFrame(w, w');
    RequestFrame(w, w', t);
  }

  lemma SwapperWorkLocal(w: World, t: Tid, finish: bool)
    requires t in w.pcs && t in w.reqs && t in w.sched.threads && w.reqs[t].place.AtSwapper?
    requires NoDuplicates(w.reqQueue) && FutexOk(w, t) && RequestOk(w, t)
    ensures var w' := SwapperWork(w, t, finish);
            OnRequest(w, w', t) && FutexOk(w', t) && RequestOk(w', t) && w'.reqs[t].watcher == w.reqs[t].watcher
  {
    var w' := SwapperWork(w, t, finish);
    assert w'.pcs == w.pcs[t := w'.pcs[t]];
  }

  lemma SwapperWorkKeepsLayer(w: World, t: Tid, finish: bool)
    requires Layer(w) && t in w.reqs && w.reqs[t].place.AtSwapper?
    ensures Layer(SwapperWork(w, t, finish))
  {
    hide FutexOk, RequestOk, BucketOk, WatchOk;
    var w' := SwapperWork(w, t, finish);
    assert t in w.pcs;
    assert FutexOk(w, t) && RequestOk(w, t);
    SwapperWorkLocal(w, t, finish);
    WatchFrame(w, w');
    RequestFrame(w, w', t);
  }

  // ---- watchListCheck

  ghost predicate CanCheck(w: World, c: CpuId) {
    && c < |w.sched.cpus| == |w.watch| == |w.sched.runq| && w.sched.cpus[c].Checking?
        && w.sched.cpus[c].at < |w.watch[c]|
    && var u := w.watch[c][w.sched.cpus[c].at]; u in w.reqs && u in w.pcs && u in w.sched.threads
  }

  lemma WatchDoneLocal(w: World, c: CpuId)
    requires CanCheck(w, c) && WatchOk(w, c)
    requires var u := w.watch[c][w.sched.cpus[c].at]; w.reqs[u].done && FutexOk(w, u) && RequestOk(w, u)
    ensures var u := w.watch[c][w.sched.cpus[c].at];
            && !w.sched.threads[u].onQueue && w.reqs[u].owner == Some(u)
            && FutexOk(WatchTurn(w, c), u) && RequestOk(WatchTurn(w, c), u)
  {
    assert w.watch[c][w.sched.cpus[c].at] in w.watch[c];
  }

  lemma WatchDoneOthers(w: World, c: CpuId, v: Tid)
    requires CanCheck(w, c) && v in w.pcs && v in w.reqs && v in w.sched.threads && v != w.watch[c][w.sched.cpus[c].at]
    ensures SameView(w, WatchTurn(w, c), v)
  {
  }

  lemma WatchPendingView(w: World, c: CpuId)
    requires CanCheck(w, c) && !w.reqs[w.watch[c][w.sched.cpus[c].at]].done
    ensures SameView(w, WatchTurn(w, c), w.watch[c][w.sched.cpus[c].at])
  {
  }

  lemma WatchDoneBucket(w: World, c: CpuId, x: Addr)
    requires CanCheck(w, c) && x in w.buckets
    ensures SameBucket(w, WatchTurn(w, c), x)
  {
  }

  lemma WatchDoneRest(w: World, c: CpuId)
    requires CanCheck(w, c) && Base(w)
    ensures var w' := WatchTurn(w, c);
            Base(w') && w'.reqQueue == w.reqQueue && w'.pcs == w.pcs && w'.buckets == w.buckets
  {
  }

  lemma WatchDoneWatch(w: World, c: CpuId, d: CpuId)
    requires CanCheck(w, c) && d < |w.watch| && WatchOk(w, c) && WatchOk(w, d)
    requires w.reqs[w.watch[c][w.sched.cpus[c].at]].done
    ensures WatchOk(WatchTurn(w, c), d)
  {
    var w' := WatchTurn(w, c);
    var at := w.sched.cpus[c].at;
    var q := w.watch[c];
    assert q[at] in q;
    assert q == q[..at] + [q[at]] + q[at + 1..];
    forall u ensures u in w'.watch[d] <==> u in w'.reqs && w'.reqs[u].watcher == Some(d) {
      assert u in w.watch[d] <==> u in w.reqs && w.reqs[u].watcher == Some(d);
      assert u in q[..at] + q[at + 1..] <==> u in q && u != q[at];
    }
  }

  lemma WatchTurnKeepsLayer(w: World, c: CpuId)
    requires Layer(w) && CanCheck(w, c)
    ensures var u := w.watch[c][w.sched.cpus[c].at];
              w.reqs[u].done ==> !w.sched.threads[u].onQueue && w.reqs[u].owner == Some(u)
    ensures Layer(WatchTurn(w, c))
  {
    var w' := WatchTurn(w, c);
    var u := w.watch[c][w.sched.cpus[c].at];
    WatchDoneRest(w, c);
    forall v | v in w.pcs && v != u ensures SameView(w, w', v) { WatchDoneOthers(w, c, v); }
    forall x | x in w'.buckets ensures SameBucket(w, w', x) { WatchDoneBucket(w, c, x); }
    if w.reqs[u].done {
      WatchDoneLocal(w, c);
      forall d | 0 <= d < |w'.watch| ensures WatchOk(w', d) { WatchDoneWatch(w, c, d); }
    } else {
      WatchPendingView(w, c);
      SameViewKeeps(w, w', u);
      WatchFrame(w, w');
    }
    Assemble(w, w', u, u);
  }

  // ---- kernel steps and thread creation

  lemma KernelLocal(w: World, s': S.State, c: CpuId, v: Tid)
    requires S.KernelStep(w.sched, s', c) && !w.sched.cpus[c].Running?
    requires v in w.pcs && v in w.reqs && v in w.sched.threads && !S.IsIdle(w.sched, v) && FutexOk(w, v)
             && RequestOk(w, v)
    ensures FutexOk(w.(sched := s'), v) && RequestOk(w.(sched := s'), v)
  {
  }

  lemma KernelKeepsLayer(w: World, s': S.State, c: CpuId)
    requires Layer(w) && S.KernelStep(w.sched, s', c) && !w.sched.cpus[c].Running?
    ensures Layer(w.(sched := s'))
  {
    var w' := w.(sched := s');
    forall v | v in w'.pcs ensures FutexOk(w', v) && RequestOk(w', v) { KernelLocal(w, s', c, v); }
    forall x | x in w'.buckets ensures BucketOk(w', x) { assert BucketOk(w, x); }
    WatchFrame(w, w');
  }

  /** A CPU enters `schedule` from its boot stack or from its idle thread. */
  lemma IdleScheduleKeepsLayer(w: World, c: CpuId)
    requires Layer(w) && c < |w.sched.cpus| && w.sched.cpus[c].Running?
    requires w.sched.cpus[c].cur.Some? ==> w.sched.cpus[c].cur.value !in w.pcs
    ensures Layer(w.(sched := S.StartSchedule(w.sched, c)))
  {
    var w' := w.(sched := S.StartSchedule(w.sched, c));
    forall v | v in w'.pcs ensures FutexOk(w', v) && RequestOk(w', v) {
      assert SameView(w, w', v);
      SameViewKeeps(w, w', v);
    }
    forall x | x in w'.buckets ensures BucketOk(w', x) { assert BucketOk(w, x); }
    WatchFrame(w, w');
  }

  lemma StartThreadLocal(w: World, c: CpuId, u: Tid)
    requires u !in w.sched.threads && u !in w.pcs && u !in w.reqs && c < |w.sched.runq| && u !in w.reqQueue
    ensures var w' := StartThread(w, c, u); FutexOk(w', u) && RequestOk(w', u)
  {
  }

  lemma StartThreadOthers(w: World, c: CpuId, u: Tid, v: Tid)
    requires u !in w.sched.threads && u !in w.pcs && c < |w.sched.runq| && v in w.pcs && v in w.reqs
             && v in w.sched.threads
    ensures SameView(w, StartThread(w, c, u), v)
  {
  }

  lemma StartThreadBucket(w: World, c: CpuId, u: Tid, x: Addr)
    requires u !in w.pcs && c < |w.sched.runq| && x in w.buckets && BucketOk(w, x)
    ensures BucketOk(StartThread(w, c, u), x)
  {
    assert Waiters(StartThread(w, c, u).pcs, x) == Waiters(w.pcs, x);
  }

  lemma StartThreadKeepsLayer(w: World, c: CpuId, u: Tid)
    requires Layer(w) && u !in w.sched.threads && c < |w.sched.runq| && !S.IsIdle(w.sched, u)
    ensures Layer(StartThread(w, c, u))
  {
    var w' := StartThread(w, c, u);
    assert u !in w.pcs;
    StartThreadLocal(w, c, u);
    forall v | v in w'.pcs ensures FutexOk(w', v) && RequestOk(w', v) {
      if v != u {
        StartThreadOthers(w, c, u, v);
        SameViewKeeps(w, w', v);
      }
    }
    forall x | x in w'.buckets ensures BucketOk(w', x) { StartThreadBucket(w, c, u, x); }
    forall d | 0 <= d < |w'.watch| ensures WatchOk(w', d) { assert WatchOk(w, d); }
  }

  // ---------------------------------------------------------------- every step of the world

  datatype Move =
    | Run(c: CpuId, choice: bool)
    | Invoking(c: CpuId, call: Call)
    | Preempt(c: CpuId)
    | Kernel(c: CpuId)
    | BootClone(c: CpuId, child: Tid)
    | Take
    | Work(u: Tid, finish: bool)

  /** CPU `c` is executing the code of an ordinary thread. */
  predicate RunsThread(w: World, c: CpuId) {
    && c < |w.sched.cpus| && w.sched.cpus[c].Running? && w.sched.cpus[c].cur.Some? && w.sched.cpus[c].cur.value in w.pcs
  }

  /** The scheduler facts that a thread in its own code relies on. */
  lemma CurrentThread(s: S.State, c: CpuId, t: Tid)
    requires S.Inv(s) && c < |s.cpus| && s.cpus[c] == S.Running(Some(t))
    ensures t in s.threads && s.threads[t].runner == Some(c) && |s.runq| == |s.cpus|
    ensures Executing(s, t)
    ensures s.threads[t].onQueue ==> S.DequeueTask.requires(s, t)
  {
    S.CurrentIsHome(s, c);
    assert S.Runs(s.cpus[c], t);
  }

  lemma ThreadCanStep(w: World, c: CpuId)
    requires Inv(w) && RunsThread(w, c)
    ensures CanStep(w, c, w.sched.cpus[c].cur.value) && Executing(w.sched, w.sched.cpus[c].cur.value)
    ensures w.sched.threads[w.sched.cpus[c].cur.value].runner == Some(c)
  {
    var t := w.sched.cpus[c].cur.value;
    CurrentThread(w.sched, c, t);
    BucketHeadIsThread(w, t);
  }

  lemma BucketHeadIsThread(w: World, t: Tid)
    requires Layer(w) && t in w.pcs
    ensures t in w.sched.threads && t in w.reqs
    ensures w.pcs[t].WaitEqual? || w.pcs[t].ReqPushed? || w.pcs[t].Free? ==> w.sched.threads[t].onQueue
    ensures NeedsBucket(w.pcs[t]) ==> w.pcs[t].addr in w.buckets
    ensures NeedsBucket(w.pcs[t]) ==> var q := w.buckets[w.pcs[t].addr].queue;
              q != [] ==> q[0] in w.pcs && q[0] in w.sched.threads && q[0] in w.reqs
  {
    assert FutexOk(w, t);
    if NeedsBucket(w.pcs[t]) {
      var q := w.buckets[w.pcs[t].addr].queue;
      assert BucketOk(w, w.pcs[t].addr);
      if q != [] { assert q[0] in q; }
    }
  }

  lemma WatchCanCheck(w: World, c: CpuId)
    requires Layer(w) && c < |w.sched.cpus| && w.sched.cpus[c].Checking? && w.sched.cpus[c].at < |w.watch[c]|
    ensures CanCheck(w, c)
  {
    assert WatchOk(w, c);
    assert w.watch[c][w.sched.cpus[c].at] in w.watch[c];
  }

  /** The program points of `__async_*`, `sleepWait` and `terminate`. */
  predicate InRequest(pc: Pc) {
    pc.ReqFilled? || pc.ReqPushed? || pc.ReqDequeued? || pc.ReqParked? || pc.ReqInSchedule? || pc.Exited?
  }

  lemma RequestPointIs(w: World, c: CpuId, t: Tid, choice: bool)
    requires CanStep(w, c, t) && InRequest(w.pcs[t])
    ensures ThreadStep(w, c, t, choice) ==
            if w.pcs[t].ReqPushed? && choice then FallAsleep(w, t)
            else if w.pcs[t].ReqDequeued? then JoinWatchList(w, c, t)
            else if w.pcs[t].ReqParked? || w.pcs[t].Exited? then EnterSchedule(w, c, t)
            else RequestStep(w, t)
  {
  }

  lemma RequestPointKeepsLayer(w: World, c: CpuId, t: Tid, choice: bool)
    requires Layer(w) && CanStep(w, c, t) && Executing(w.sched, t) && w.sched.threads[t].runner == Some(c)
    requires InRequest(w.pcs[t])
    ensures Layer(ThreadStep(w, c, t, choice))
  {
    RequestPointIs(w, c, t, choice);
    var pc := w.pcs[t];
    if pc.ReqPushed? && choice {
      FallAsleepKeepsLayer(w, t);
    } else if pc.ReqDequeued? {
      JoinWatchListKeepsLayer(w, c, t);
    } else if pc.ReqParked? || pc.Exited? {
      EnterScheduleKeepsLayer(w, c, t);
    } else {
      RequestStepKeepsLayer(w, t);
    }
  }

  lemma WakePointKeepsLayer(w: World, c: CpuId, t: Tid, choice: bool)
    requires Layer(w) && CanStep(w, c, t) && Executing(w.sched, t) && (w.pcs[t].WakeFind? || w.pcs[t].WakeLoop?)
    ensures Layer(ThreadStep(w, c, t, choice))
  {
    if w.pcs[t].WakeFind? {
      var WakeFind(a, nr) := w.pcs[t];
      if a in w.buckets { PlainKeepsLayer(w, t, WakeLock(a, nr)); } else { PlainKeepsLayer(w, t, Free); }
    } else if BucketStep(w, t) {
      BucketStepKeepsLayer(w, c, t, choice);
    } else {
      var WakeLoop(a, nr, ret) := w.pcs[t];
      BucketHeadIsThread(w, t);
      WakeHeadKeepsLayer(w, c, t, a, nr, ret);
    }
  }

  lemma ThreadStepKeepsLayer(w: World, c: CpuId, t: Tid, choice: bool)
    requires Layer(w) && CanStep(w, c, t) && Executing(w.sched, t) && w.sched.threads[t].runner == Some(c)
    ensures Layer(ThreadStep(w, c, t, choice))
  {
    if InRequest(w.pcs[t]) {
      RequestPointKeepsLayer(w, c, t, choice);
    } else if w.pcs[t].WakeFind? || w.pcs[t].WakeLoop? {
      WakePointKeepsLayer(w, c, t, choice);
    } else if w.pcs[t].WaitEqual? {
      FallAsleepKeepsLayer(w, t);
    } else if w.pcs[t].WaitParked? {
      EnterScheduleKeepsLayer(w, c, t);
    } else if !w.pcs[t].Free? {
      BucketStepKeepsLayer(w, c, t, choice);
    }
  }

  /** The head of the bucket that `t` is waking, if any. */
  function HeadOf(w: World, t: Tid): Tid
    requires t in w.pcs
  {
    if w.pcs[t].WakeLoop? && w.pcs[t].addr in w.buckets && w.buckets[w.pcs[t].addr].queue != []
    then w.buckets[w.pcs[t].addr].queue[0] else t
  }

  /** What a step of thread code asks of the scheduler: nothing, or one operation whose assertions hold. */
  ghost predicate SchedCall(s: S.State, s': S.State, c: CpuId, t: Tid, u: Tid) {
    || s' == s
    || (S.DequeueTask.requires(s, t) && s.threads[t].onQueue && s' == S.DequeueTask(s, t))
    || (c < |s.cpus| && s.cpus[c].Running? && s' == S.StartSchedule(s, c))
    || (c < |s.runq| && u in s.threads && !S.IsIdle(s, u) && !s.threads[u].onQueue && s' == S.EnqueueTask(s, c, u))
  }

  lemma ThreadStepCalls(w: World, c: CpuId, t: Tid, choice: bool, u: Tid)
    requires CanStep(w, c, t) && u == HeadOf(w, t)
    requires w.pcs[t].WaitEqual? || w.pcs[t].ReqPushed? ==> w.sched.threads[t].onQueue
    requires u != t ==> u in w.sched.threads && !S.IsIdle(w.sched, u) && !w.sched.threads[u].onQueue
    requires w.pcs[t].WakeLoop? && w.buckets[w.pcs[t].addr].queue != [] ==> u != t
    ensures SchedCall(w.sched, ThreadStep(w, c, t, choice).sched, c, t, u)
  {
  }

  lemma HeadIsAsleep(w: World, c: CpuId, t: Tid)
    requires Layer(w) && CanStep(w, c, t)
    ensures w.pcs[t].WaitEqual? || w.pcs[t].ReqPushed? || w.pcs[t].Free? ==> w.sched.threads[t].onQueue
    ensures var u := HeadOf(w, t); u != t ==>
              u in w.sched.threads && !S.IsIdle(w.sched, u) && !w.sched.threads[u].onQueue
    ensures w.pcs[t].WakeLoop? && w.buckets[w.pcs[t].addr].queue != [] ==> HeadOf(w, t) != t
  {
    BucketHeadIsThread(w, t);
    if w.pcs[t].WakeLoop? && w.buckets[w.pcs[t].addr].queue != [] {
      var WakeLoop(a, nr, ret) := w.pcs[t];
      WakeHeadKeepsLayer(w, c, t, a, nr, ret);
      assert BucketOk(w, a) && w.buckets[a].queue[0] in w.buckets[a].queue;
    }
  }

  lemma SchedCallKeepsInv(s: S.State, s': S.State, c: CpuId, t: Tid, u: Tid)
    requires S.Inv(s) && c < |s.cpus| && s.cpus[c] == S.Running(Some(t)) && !S.IsIdle(s, t)
    requires SchedCall(s, s', c, t, u)
    ensures S.Inv(s')
  {
    if s' == s {
    } else if s' == S.StartSchedule(s, c) {
      S.StartScheduleKeepsInv(s, c);
    } else if S.DequeueTask.requires(s, t) && s.threads[t].onQueue && s' == S.DequeueTask(s, t) {
      S.DequeueTaskKeepsInv(s, c, t);
    } else {
      S.EnqueueTaskKeepsInv(s, c, u);
    }
  }

  lemma ThreadStepKeepsInv(w: World, c: CpuId, t: Tid, choice: bool)
    requires Inv(w) && RunsThread(w, c) && t == w.sched.cpus[c].cur.value
    ensures CanStep(w, c, t) && Inv(ThreadStep(w, c, t, choice))
  {
    ThreadCanStep(w, c);
    HeadIsAsleep(w, c, t);
    ThreadStepKeepsLayer(w, c, t, choice);
    ThreadStepCalls(w, c, t, choice, HeadOf(w, t));
    SchedCallKeepsInv(w.sched, ThreadStep(w, c, t, choice).sched, c, t, HeadOf(w, t));
  }

  lemma StartThreadKeepsInv(w: World, c: CpuId, u: Tid)
    requires Inv(w) && c < |w.sched.cpus| && S.InThreadCode(w.sched.cpus[c]) && u !in w.sched.threads
    ensures Inv(StartThread(w, c, u))
  {
    S.SpawnKeepsInv(w.sched, u);
    assert !S.IsIdle(w.sched, u);
    S.EnqueueTaskKeepsInv(S.Spawn(w.sched, u), c, u);
    StartThreadKeepsLayer(w, c, u);
  }

  lemma StoreKeepsLayer(w: World, a: Addr, v: int)
    requires Layer(w)
    ensures Layer(w.(mem := w.mem[a := v]))
  {
    var w' := w.(mem := w.mem[a := v]);
    forall u | u in w'.pcs ensures FutexOk(w', u) && RequestOk(w', u) { assert FutexOk(w, u) && RequestOk(w, u); }
    forall x | x in w'.buckets ensures BucketOk(w', x) { assert BucketOk(w, x); }
    WatchFrame(w, w');
  }

  /** Calls that leave the scheduler alone. */
  lemma QuietInvokeKeepsLayer(w: World, c: CpuId, t: Tid, call: Call)
    requires Layer(w) && CanStep(w, c, t) && Executing(w.sched, t) && w.pcs[t].Free? && !call.Clone? && !call.Exit?
    ensures Layer(Invoke(w, c, t, call)) && Invoke(w, c, t, call).sched == w.sched
  {
    match call
    case Wait(a, v) => PlainKeepsLayer(w, t, WaitBucket(a, v));
    case Wake(a, n) => PlainKeepsLayer(w, t, WakeFind(a, NrWake(n)));
    case Async => RequestStepKeepsLayer(w, t);
    case Store(a, v) => StoreKeepsLayer(w, a, v);
  }

  lemma ExitKeepsInv(w: World, c: CpuId, t: Tid)
    requires Inv(w) && CanStep(w, c, t) && Executing(w.sched, t) && w.pcs[t].Free?
    ensures Inv(FallAsleep(w, t))
  {
    HeadIsAsleep(w, c, t);
    FallAsleepKeepsLayer(w, t);
    SchedCallKeepsInv(w.sched, S.DequeueTask(w.sched, t), c, t, t);
  }

  lemma InvokeKeepsInv(w: World, c: CpuId, t: Tid, call: Call)
    requires Inv(w) && RunsThread(w, c) && t == w.sched.cpus[c].cur.value && w.pcs[t].Free?
    ensures CanStep(w, c, t) && Inv(Invoke(w, c, t, call))
  {
    ThreadCanStep(w, c);
    match call
    case Clone(u) => if u !in w.sched.threads { StartThreadKeepsInv(w, c, u); }
    case Exit => ExitKeepsInv(w, c, t);
    case _ => QuietInvokeKeepsLayer(w, c, t, call);
  }

  lemma PreemptKeepsInv(w: World, c: CpuId)
    requires Inv(w) && c < |w.sched.cpus| && w.sched.cpus[c].Running?
    ensures RunsThread(w, c) && !Masked(w.pcs[w.sched.cpus[c].cur.value])
            ==> Inv(EnterSchedule(w, c, w.sched.cpus[c].cur.value))
    ensures !RunsThread(w, c) ==> Inv(w.(sched := S.StartSchedule(w.sched, c)))
  {
    S.StartScheduleKeepsInv(w.sched, c);
    if RunsThread(w, c) {
      ThreadCanStep(w, c);
      if !Masked(w.pcs[w.sched.cpus[c].cur.value]) { EnterScheduleKeepsLayer(w, c, w.sched.cpus[c].cur.value); }
    } else {
      IdleScheduleKeepsLayer(w, c);
    }
  }

  lemma WatchTurnSched(w: World, c: CpuId, u: Tid)
    requires S.Inv(w.sched) && CanCheck(w, c) && u == w.watch[c][w.sched.cpus[c].at]
    requires !S.IsIdle(w.sched, u) && (w.reqs[u].done ==> !w.sched.threads[u].onQueue)
    ensures S.Inv(WatchTurn(w, c).sched)
  {
    if w.reqs[u].done {
      S.EnqueueTaskKeepsInv(w.sched, c, u);
    } else {
      S.PhaseKeepsInv(w.sched, c, S.Checking(w.sched.cpus[c].cur, w.sched.cpus[c].at + 1));
    }
  }

  lemma WatchTurnKeepsInv(w: World, c: CpuId)
    requires Inv(w) && c < |w.sched.cpus| && w.sched.cpus[c].Checking? && w.sched.cpus[c].at < |w.watch[c]|
    ensures CanCheck(w, c) && Inv(WatchTurn(w, c))
  {
    WatchCanCheck(w, c);
    WatchTurnKeepsLayer(w, c);
    WatchTurnSched(w, c, w.watch[c][w.sched.cpus[c].at]);
  }

  lemma KernelKeepsInv(w: World, c: CpuId)
    requires Inv(w) && c < |w.sched.cpus| && !w.sched.cpus[c].Running?
    ensures w.sched.cpus[c].Checking? ==>
              S.MarkNotRunning.requires(w.sched, c) && Inv(w.(sched := S.MarkNotRunning(w.sched, c)))
    ensures S.Switching(w.sched.cpus[c]) ==> S.CanSwitch(w.sched, c) && Inv(w.(sched := S.SwitchStep(w.sched, c)))
  {
    S.KernelStepsAreInvisible(w.sched, c);
    if w.sched.cpus[c].Checking? {
      S.MarkNotRunningKeepsInv(w.sched, c);
      KernelKeepsLayer(w, S.MarkNotRunning(w.sched, c), c);
    } else {
      S.SwitchStepKeepsInv(w.sched, c);
      KernelKeepsLayer(w, S.SwitchStep(w.sched, c), c);
    }
  }

  /** Thread code of the thread current on `c` takes its next step. */
  ghost function RunMove(w: World, c: CpuId, choice: bool): (w': World)
    requires Inv(w)
    ensures Inv(w')
  {
    if RunsThread(w, c) then
      var t := w.sched.cpus[c].cur.value;
      ThreadStepKeepsInv(w, c, t, choice); ThreadStep(w, c, t, choice)
    else w
  }

  ghost function InvokeMove(w: World, c: CpuId, call: Call): (w': World)
    requires Inv(w)
    ensures Inv(w') && w'.buckets == w.buckets
  {
    if RunsThread(w, c) && w.pcs[w.sched.cpus[c].cur.value].Free? then
      var t := w.sched.cpus[c].cur.value;
      InvokeKeepsInv(w, c, t, call);
      InvokeLeavesBuckets(w, c, t, call);
      Invoke(w, c, t, call)
    else w
  }

  lemma InvokeLeavesBuckets(w: World, c: CpuId, t: Tid, call: Call)
    requires CanStep(w, c, t) && w.pcs[t].Free?
    ensures Invoke(w, c, t, call).buckets == w.buckets
  {
  }

  /** An interrupt, or the idle loop's own call of `schedule`. */
  ghost function PreemptMove(w: World, c: CpuId): (w': World)
    requires Inv(w)
    ensures Inv(w') && w'.buckets == w.buckets
  {
    hide S.Inv, Layer;
    if c >= |w.sched.cpus| || !w.sched.cpus[c].Running? then w
    else
      PreemptKeepsInv(w, c);
      if !RunsThread(w, c) then w.(sched := S.StartSchedule(w.sched, c))
      else if Masked(w.pcs[w.sched.cpus[c].cur.value]) then w
      else EnterSchedule(w, c, w.sched.cpus[c].cur.value)
  }

  lemma WatchTurnLeavesBuckets(w: World, c: CpuId)
    requires CanCheck(w, c)
    ensures WatchTurn(w, c).buckets == w.buckets
  {
  }

  /** The next step of a CPU inside `schedule` or `jumpTo`. */
  ghost function KernelMove(w: World, c: CpuId): (w': World)
    requires Inv(w)
    ensures Inv(w') && w'.buckets == w.buckets
  {
    hide S.Inv, FutexOk, RequestOk, BucketOk, WatchOk;
    if c >= |w.sched.cpus| || w.sched.cpus[c].Running? then w
    else if w.sched.cpus[c].Checking? && w.sched.cpus[c].at < |w.watch[c]| then
      WatchTurnKeepsInv(w, c);
      WatchTurnLeavesBuckets(w, c);
      WatchTurn(w, c)
    else
      KernelKeepsInv(w, c);
      if w.sched.cpus[c].Checking? then w.(sched := S.MarkNotRunning(w.sched, c))
          else w.(sched := S.SwitchStep(w.sched, c))
  }

  ghost function SwapperMove(w: World, m: Move): (w': World)
    requires Inv(w) && (m.Take? || m.Work?)
    ensures Inv(w') && w'.buckets == w.buckets
  {
    if m.Take? then
      if w.reqQueue == [] then w else SwapperTakeKeepsLayer(w); SwapperTake(w)
    else if m.u in w.reqs && w.reqs[m.u].place.AtSwapper? then
      SwapperWorkKeepsLayer(w, m.u, m.finish); SwapperWork(w, m.u, m.finish)
    else w
  }

  ghost function BootMove(w: World, c: CpuId, u: Tid): (w': World)
    requires Inv(w)
    ensures Inv(w') && w'.buckets == w.buckets
  {
    if c < |w.sched.cpus| && w.sched.cpus[c] == S.Running(None) && u !in w.sched.threads then
      StartThreadKeepsInv(w, c, u); StartThread(w, c, u)
    else w
  }

  /** One step; a move that does not apply leaves the world unchanged. */
  ghost function Step(w: World, m: Move): (w': World)
    requires Inv(w)
    ensures Inv(w')
  {
    match m
    case Run(c, choice) => RunMove(w, c, choice)
    case Invoking(c, call) => InvokeMove(w, c, call)
    case Preempt(c) => PreemptMove(w, c)
    case Kernel(c) => KernelMove(w, c)
    case BootClone(c, u) => BootMove(w, c, u)
    case Take => SwapperMove(w, m)
    case Work(u, finish) => SwapperMove(w, m)
  }

  /** Every run of any number of threads on any number of CPUs keeps the invariant of both layers. */
  ghost function Exec(w: World, run: seq<Move>): (w': World)
    requires Inv(w)
    ensures Inv(w')
  {
    if run == [] then w else Step(Exec(w, run[..|run| - 1]), run[|run| - 1])
  }

  // ---------------------------------------------------------------- what holds in every run

  /** Runnable threads are reachable: current on a CPU, or linked in exactly the run queue of their home CPU. */
  ghost predicate Reachable(s: S.State, t: Tid)
    requires t in s.threads
  {
    if s.threads[t].running then s.threads[t].runner.Some? && s.threads[t].runner.value < |s.cpus|
        && S.Runs(s.cpus[s.threads[t].runner.value], t)
    else exists c :: 0 <= c < |s.runq| && t in s.runq[c]
  }

  lemma RunnableIsReachable(s: S.State, t: Tid)
    requires S.Inv(s) && t in s.threads && !S.IsIdle(s, t) && s.threads[t].onQueue
    ensures Reachable(s, t)
  {
    S.LinkedIffRunnableAndNotRunning(s, t);
    assert S.ThreadOk(s, t);
  }

  lemma FutexSleeper(w: World, t: Tid, a: Addr)
    requires Layer(w) && a in w.buckets && t in w.buckets[a].queue
    ensures t in w.pcs && Enqueued(w.pcs[t], a)
    ensures t in w.sched.threads && !w.sched.threads[t].onQueue
    ensures forall c | 0 <= c < |w.watch| :: t !in w.watch[c]
  {
    assert BucketOk(w, a) && FutexOk(w, t) && RequestOk(w, t);
    forall c | 0 <= c < |w.watch| ensures t !in w.watch[c] { assert WatchOk(w, c); }
  }

  lemma RequestSleeper(w: World, t: Tid, c: CpuId)
    requires Layer(w) && c < |w.watch| && t in w.watch[c]
    ensures t in w.reqs && w.reqs[t].watcher == Some(c) && t in w.sched.threads && !w.sched.threads[t].onQueue
  {
    assert WatchOk(w, c) && RequestOk(w, t);
  }

  lemma OffQueueIsUnlinked(s: S.State, t: Tid, c: CpuId)
    requires S.Inv(s) && t in s.threads && !s.threads[t].onQueue && c < |s.runq|
    ensures t !in s.runq[c]
  {
    assert S.QueueOk(s, c);
  }

  lemma SleeperIsUnlinked(s: S.State, t: Tid)
    requires S.Inv(s) && t in s.threads && !s.threads[t].onQueue
    ensures forall d | 0 <= d < |s.runq| :: t !in s.runq[d]
  {
    forall d | 0 <= d < |s.runq| ensures t !in s.runq[d] { OffQueueIsUnlinked(s, t, d); }
  }

  /** The run queues, the futex queues and the watch lists never hold a thread twice: in every state a
      thread is on one run queue, or on one futex queue, or on one watch list, or on none. */
  lemma HookIsNeverShared(w: World, t: Tid, a: Addr)
    requires Inv(w) && a in w.buckets && t in w.buckets[a].queue
    ensures forall d | 0 <= d < |w.sched.runq| :: t !in w.sched.runq[d]
    ensures forall c | 0 <= c < |w.watch| :: t !in w.watch[c]
    ensures forall b | b in w.buckets && t in w.buckets[b].queue :: b == a
  {
    FutexSleeper(w, t, a);
    SleeperIsUnlinked(w.sched, t);
    forall b | b in w.buckets && t in w.buckets[b].queue ensures b == a { FutexSleeper(w, t, b); }
  }

  lemma WatchHookIsNeverShared(w: World, t: Tid, c: CpuId)
    requires Inv(w) && c < |w.watch| && t in w.watch[c]
    ensures forall d | 0 <= d < |w.sched.runq| :: t !in w.sched.runq[d]
    ensures forall d | 0 <= d < |w.watch| && t in w.watch[d] :: d == c
    ensures forall a | a in w.buckets :: t !in w.buckets[a].queue
  {
    RequestSleeper(w, t, c);
    SleeperIsUnlinked(w.sched, t);
    forall d | 0 <= d < |w.watch| && t in w.watch[d] ensures d == c { RequestSleeper(w, t, d); }
    forall a | a in w.buckets ensures t !in w.buckets[a].queue {
      if t in w.buckets[a].queue { FutexSleeper(w, t, a); }
    }
  }

  /** `waiters` counts the threads between taking the bucket lock to wait and leaving it again; so a
      waker that reads zero under the lock has nobody to wake. */
  lemma WaitersIsExact(idle: seq<Tid>, run: seq<Move>, a: Addr)
    requires NoDuplicates(idle)
    ensures Inv(Boot(idle))
    ensures var w := Exec(Boot(idle), run);
            a in w.buckets ==>
              && w.buckets[a].waiters == |Waiters(w.pcs, a)|
              && (forall t | t in w.buckets[a].queue :: t in Waiters(w.pcs, a))
              && (w.buckets[a].waiters == 0 ==> w.buckets[a].queue == [])
  {
    hide S.Inv, FutexOk, RequestOk, WatchOk, BucketOk, Step;
    BootInv(idle);
    var w := Exec(Boot(idle), run);
    if a in w.buckets {
      assert BucketOk(w, a);
      BucketCounts(w, a);
    }
  }

  lemma BucketCounts(w: World, a: Addr)
    requires a in w.buckets && BucketOk(w, a)
    ensures w.buckets[a].waiters == |Waiters(w.pcs, a)|
    ensures forall t | t in w.buckets[a].queue :: t in Waiters(w.pcs, a)
    ensures w.buckets[a].waiters == 0 ==> w.buckets[a].queue == []
  {
    if w.buckets[a].queue != [] {
      assert w.buckets[a].queue[0] in w.buckets[a].queue;
      assert w.buckets[a].queue[0] in Waiters(w.pcs, a);
    }
  }

  /** A `futex_wake` of everybody on `a` whose next step returns. */
  predicate WakeAllReturns(w: World, t: Tid, a: Addr)
    requires t in w.pcs
  {
    match w.pcs[t]
    case WakeFind(x, nr) => x == a && nr == INT_MAX && a !in w.buckets
    case WakeLock(x, nr) => x == a && nr == INT_MAX && a in w.buckets && w.buckets[a].lock.None?
        && w.buckets[a].waiters == 0
    case WakeLoop(x, nr, ret) => x == a && nr == INT_MAX && a in w.buckets && w.buckets[a].queue == []
    case _ => false
  }

  /** At the instant a wake-all returns nobody is between reading the word and sleeping on it. */
  lemma NobodyIsBetweenCheckAndSleep(w: World, t: Tid, a: Addr, u: Tid)
    requires t in w.pcs && u in w.pcs && u in w.sched.threads && t in w.sched.threads && a in w.buckets
    requires FutexOk(w, u) && FutexOk(w, t) && BucketOk(w, a)
    requires WakeAllReturns(w, t, a) && PastCheck(w.pcs[u], a)
    ensures (w.pcs[u].WaitParked? || w.pcs[u].WaitInSchedule?) && w.sched.threads[u].onQueue && u != t
  {
    assert u in Waiters(w.pcs, a);
  }

  lemma WakeAllReturnStep(w: World, c: CpuId, t: Tid, a: Addr, choice: bool)
    requires CanStep(w, c, t) && WakeAllReturns(w, t, a)
    ensures var w' := ThreadStep(w, c, t, choice); w'.sched == w.sched && w'.pcs == w.pcs[t := Free]
  {
  }

  /** Thread `u` is not asleep on `a` waiting for the word to leave `val`, and not on its way there: if it
      has found `val` in its wait, it has been woken since. */
  predicate WokenFrom(w: World, u: Tid, a: Addr, val: int)
    requires u in w.pcs && u in w.sched.threads
  {
    PastCheck(w.pcs[u], a) && w.pcs[u].val == val ==>
      (w.pcs[u].WaitParked? || w.pcs[u].WaitInSchedule?) && w.sched.threads[u].onQueue
  }

  ghost predicate AllWokenFrom(w: World, a: Addr, val: int) {
    forall u | u in w.pcs :: u in w.sched.threads && WokenFrom(w, u, a, val)
  }

  /** Whichever way a wake-all on `a` returns (no bucket, no waiters, or an emptied queue), every thread
      that has read the word of `a` in its wait and gone on has been woken, also when the wake landed
      between its enqueue and its switch-out. */
  lemma WakeAllWakesAll(w: World, c: CpuId, choice: bool, t: Tid, a: Addr, val: int)
    requires Inv(w) && RunsThread(w, c) && t == w.sched.cpus[c].cur.value && WakeAllReturns(w, t, a)
    ensures var w' := Step(w, Run(c, choice)); w'.pcs == w.pcs[t := Free] && AllWokenFrom(w', a, val)
  {
    hide S.Inv, RequestOk, WatchOk, BucketOk, ThreadStep;
    ThreadCanStep(w, c);
    WakeAllReturnStep(w, c, t, a, choice);
    forall u | u in w.pcs ensures u in w.sched.threads && (u != t ==> WokenFrom(w, u, a, val)) {
      assert FutexOk(w, u) && FutexOk(w, t);
      if PastCheck(w.pcs[u], a) {
        assert BucketOk(w, a);
        NobodyIsBetweenCheckAndSleep(w, t, a, u);
      }
    }
  }

  /** A step does not put `u` to sleep: it keeps its program point and stays runnable if it was. */
  predicate KeepsAwake(w: World, w': World, u: Tid) {
    && u in w.pcs && u in w.sched.threads && u in w'.pcs && u in w'.sched.threads && w'.pcs[u] == w.pcs[u]
    && (w.sched.threads[u].onQueue ==> w'.sched.threads[u].onQueue)
  }

  /** A thread leaves the run queues only by its own call. */
  lemma CallKeepsOthersRunnable(s: S.State, s': S.State, c: CpuId, t: Tid, h: Tid, u: Tid)
    requires SchedCall(s, s', c, t, h) && u != t && u in s.threads
    ensures u in s'.threads && (s.threads[u].onQueue ==> s'.threads[u].onQueue)
  {
  }

  lemma OthersStayAwake(w: World, c: CpuId, t: Tid, choice: bool, u: Tid)
    requires Layer(w) && CanStep(w, c, t) && u in w.pcs && u in w.sched.threads && u != t
    ensures KeepsAwake(w, ThreadStep(w, c, t, choice), u)
  {
    hide Layer, ThreadStep, SchedCall;
    StepperPc(w, c, t, choice);
    HeadIsAsleep(w, c, t);
    ThreadStepCalls(w, c, t, choice, HeadOf(w, t));
    CallKeepsOthersRunnable(w.sched, ThreadStep(w, c, t, choice).sched, c, t, HeadOf(w, t), u);
  }

  lemma StepperPc(w: World, c: CpuId, t: Tid, choice: bool)
    requires CanStep(w, c, t)
    ensures var w' := ThreadStep(w, c, t, choice); t in w'.pcs && w'.pcs == w.pcs[t := w'.pcs[t]]
  {
    hide S.EnqueueTask, S.DequeueTask, S.StartSchedule;
    if w.pcs[t].WakeLoop? { assert w.pcs == w.pcs[t := w.pcs[t]]; }
  }

  lemma CheckerStaysWoken(w: World, t: Tid, a: Addr, val: int, x: Addr, v: int, choice: bool)
    requires t in w.pcs && w.pcs[t] == WaitCheck(x, v) && Word(w, a) != val
    ensures var pc := CheckWord(w, t, x, v, choice).pcs[t]; !(PastCheck(pc, a) && pc.val == val)
  {
  }

  /** The points of a call that does not wait on a futex. */
  predicate NotWaiting(pc: Pc) { pc.Free? || pc.WakeFind? || pc.WakeLock? || pc.WakeLoop? || InRequest(pc) }

  lemma NotWaitingYet(w: World, c: CpuId, t: Tid, choice: bool, a: Addr)
    requires CanStep(w, c, t) && NotWaiting(w.pcs[t])
    ensures var w' := ThreadStep(w, c, t, choice); t in w'.pcs && !PastCheck(w'.pcs[t], a)
  {
    hide S.EnqueueTask, S.DequeueTask, S.StartSchedule;
    var w' := ThreadStep(w, c, t, choice);
    if InRequest(w.pcs[t]) { RequestPointIs(w, c, t, choice); }
  }

  /** A thread gets past the check only by reading the word, and keeps the value it waits for. */
  lemma PastCheckFrom(w: World, c: CpuId, t: Tid, choice: bool, a: Addr)
    requires CanStep(w, c, t) && !w.pcs[t].WaitCheck?
    ensures var w' := ThreadStep(w, c, t, choice);
            t in w'.pcs && (PastCheck(w'.pcs[t], a) ==> PastCheck(w.pcs[t], a) && w'.pcs[t].val == w.pcs[t].val)
  {
    hide S.EnqueueTask, S.DequeueTask, S.StartSchedule;
    if NotWaiting(w.pcs[t]) { NotWaitingYet(w, c, t, choice, a); }
  }

  lemma ParkedStaysWoken(w: World, c: CpuId, t: Tid, choice: bool, a: Addr)
    requires CanStep(w, c, t) && (w.pcs[t].WaitParked? || w.pcs[t].WaitInSchedule?) && w.sched.threads[t].onQueue
    ensures var w' := ThreadStep(w, c, t, choice);
            && t in w'.pcs && t in w'.sched.threads && w'.sched.threads[t].onQueue
            && (PastCheck(w'.pcs[t], a) ==> w'.pcs[t].WaitInSchedule?)
  {
    hide S.EnqueueTask, S.DequeueTask;
  }

  /** A waiter that finds another value than `val` in the word does not go to sleep on `val`. */
  lemma StepperStaysWoken(w: World, c: CpuId, t: Tid, choice: bool, a: Addr, val: int)
    requires CanStep(w, c, t) && WokenFrom(w, t, a, val) && Word(w, a) != val
    ensures var w' := ThreadStep(w, c, t, choice); t in w'.pcs && (t in w'.sched.threads ==> WokenFrom(w', t, a, val))
  {
    StepperPc(w, c, t, choice);
    if w.pcs[t].WaitCheck? {
      var WaitCheck(x, v) := w.pcs[t];
      CheckerStaysWoken(w, t, a, val, x, v, choice);
      assert ThreadStep(w, c, t, choice) == CheckWord(w, t, x, v, choice);
    } else {
      hide ThreadStep;
      PastCheckFrom(w, c, t, choice, a);
      if (w.pcs[t].WaitParked? || w.pcs[t].WaitInSchedule?) && w.sched.threads[t].onQueue {
        ParkedStaysWoken(w, c, t, choice, a);
      }
    }
  }

  lemma RunKeepsWoken(w: World, c: CpuId, choice: bool, a: Addr, val: int)
    requires Inv(w) && AllWokenFrom(w, a, val) && Word(w, a) != val
    ensures AllWokenFrom(RunMove(w, c, choice), a, val)
  {
    hide S.Inv, FutexOk, RequestOk, BucketOk, WatchOk, ThreadStep;
    var w' := RunMove(w, c, choice);
    if RunsThread(w, c) {
      var t := w.sched.cpus[c].cur.value;
      ThreadCanStep(w, c);
      StepperPc(w, c, t, choice);
      StepperStaysWoken(w, c, t, choice, a, val);
      forall u | u in w'.pcs ensures u in w'.sched.threads && WokenFrom(w', u, a, val) {
        assert u in w.pcs;
        if u != t {
          OthersStayAwake(w, c, t, choice, u);
          AwakeStaysWoken(w, w', u, a, val);
        }
      }
    }
  }

  lemma AwakeStaysWoken(w: World, w': World, u: Tid, a: Addr, val: int)
    requires KeepsAwake(w, w', u) && WokenFrom(w, u, a, val)
    ensures WokenFrom(w', u, a, val)
  {
  }

  lemma InvokeKeepsWoken(w: World, c: CpuId, call: Call, a: Addr, val: int)
    requires Inv(w) && AllWokenFrom(w, a, val)
    ensures AllWokenFrom(InvokeMove(w, c, call), a, val)
  {
    hide S.Inv, FutexOk, RequestOk, BucketOk, WatchOk, Invoke;
    var w' := InvokeMove(w, c, call);
    if RunsThread(w, c) && w.pcs[w.sched.cpus[c].cur.value].Free? {
      var t := w.sched.cpus[c].cur.value;
      ThreadCanStep(w, c);
      InvokePcs(w, c, t, call);
      forall u | u in w'.pcs ensures u in w'.sched.threads && WokenFrom(w', u, a, val) {
        if u in w.pcs && u != t { AwakeStaysWoken(w, w', u, a, val); }
      }
    }
  }

  lemma InvokePcs(w: World, c: CpuId, t: Tid, call: Call)
    requires CanStep(w, c, t) && w.pcs[t].Free?
    ensures var w' := Invoke(w, c, t, call);
            && (forall u | u in w.pcs && u in w.sched.threads && u != t :: KeepsAwake(w, w', u))
            && (forall u | u in w'.pcs && (u == t || u !in w.pcs) ::
                w'.pcs[u].Free? || w'.pcs[u].WaitBucket? || NotWaiting(w'.pcs[u]))
  {
  }

  /** Kernel steps, preemptions, the swapper and thread creation put nobody to sleep. */
  ghost predicate Quiet(w: World, w': World) {
    && (forall u | u in w'.pcs && u !in w.pcs :: w'.pcs[u].Free?)
    && (forall u | u in w.pcs ::
          && u in w'.pcs && u in w.sched.threads && u in w'.sched.threads
          && (w.sched.threads[u].onQueue ==> w'.sched.threads[u].onQueue)
          && (|| w'.pcs[u] == w.pcs[u]
              || (w.pcs[u].WaitParked? && w'.pcs[u] == WaitInSchedule(w.pcs[u].addr, w.pcs[u].val))
              || (NotWaiting(w.pcs[u]) && NotWaiting(w'.pcs[u]))))
  }

  lemma QuietKeepsWoken(w: World, w': World, a: Addr, val: int)
    requires Quiet(w, w') && AllWokenFrom(w, a, val) && Base(w')
    ensures AllWokenFrom(w', a, val)
  {
  }

  lemma PreemptIsQuiet(w: World, c: CpuId)
    requires Inv(w)
    ensures Quiet(w, PreemptMove(w, c))
  {
    hide S.Inv, FutexOk, RequestOk, BucketOk, WatchOk;
  }

  lemma WatchTurnIsQuiet(w: World, c: CpuId)
    requires Base(w) && CanCheck(w, c)
    ensures Quiet(w, WatchTurn(w, c))
  {
  }

  lemma KernelIsQuiet(w: World, c: CpuId)
    requires Inv(w)
    ensures Quiet(w, KernelMove(w, c))
  {
    hide S.Inv, FutexOk, RequestOk, BucketOk, WatchOk, S.MarkNotRunning, S.SwitchStep, WatchTurn;
    if c < |w.sched.cpus| && !w.sched.cpus[c].Running? {
      if w.sched.cpus[c].Checking? && w.sched.cpus[c].at < |w.watch[c]| {
        WatchCanCheck(w, c);
        WatchTurnIsQuiet(w, c);
      } else {
        S.KernelStepsAreInvisible(w.sched, c);
      }
    }
  }

  lemma BootIsQuiet(w: World, c: CpuId, u: Tid)
    requires Inv(w)
    ensures Quiet(w, BootMove(w, c, u))
  {
    hide S.Inv, FutexOk, RequestOk, BucketOk, WatchOk;
  }

  lemma SwapperIsQuiet(w: World, m: Move)
    requires Inv(w) && (m.Take? || m.Work?)
    ensures Quiet(w, SwapperMove(w, m))
  {
    hide S.Inv, FutexOk, RequestOk, BucketOk, WatchOk;
    var w' := SwapperMove(w, m);
    assert w'.pcs == w.pcs && w'.sched == w.sched;
  }

  /** While the word differs from `val`, no step of anybody puts a thread to sleep on `val`. */
  lemma StepKeepsWoken(w: World, m: Move, a: Addr, val: int)
    requires Inv(w) && AllWokenFrom(w, a, val) && Word(w, a) != val
    ensures AllWokenFrom(Step(w, m), a, val)
  {
    hide S.Inv, FutexOk, RequestOk, BucketOk, WatchOk, Quiet, AllWokenFrom, RunMove, InvokeMove, KernelMove,
        PreemptMove, SwapperMove, BootMove;
    match m {
      case Run(c, choice) => RunKeepsWoken(w, c, choice, a, val);
      case Invoking(c, call) => InvokeKeepsWoken(w, c, call, a, val);
      case Preempt(c) => PreemptIsQuiet(w, c); QuietKeepsWoken(w, Step(w, m), a, val);
      case Kernel(c) => KernelIsQuiet(w, c); QuietKeepsWoken(w, Step(w, m), a, val);
      case BootClone(c, u) => BootIsQuiet(w, c, u); QuietKeepsWoken(w, Step(w, m), a, val);
      case _ => SwapperIsQuiet(w, m); QuietKeepsWoken(w, Step(w, m), a, val);
    }
  }

  predicate Stores(m: Move, a: Addr, v: int) { m.Invoking? && m.call == Store(a, v) }

  lemma ThreadStepLeavesMemory(w: World, c: CpuId, t: Tid, choice: bool)
    requires CanStep(w, c, t)
    ensures ThreadStep(w, c, t, choice).mem == w.mem
  {
    hide S.EnqueueTask, S.DequeueTask, S.StartSchedule;
  }

  lemma RunLeavesMemory(w: World, c: CpuId, choice: bool)
    requires Inv(w)
    ensures RunMove(w, c, choice).mem == w.mem
  {
    hide S.Inv, Layer, ThreadStep;
    if RunsThread(w, c) {
      ThreadCanStep(w, c);
      ThreadStepLeavesMemory(w, c, w.sched.cpus[c].cur.value, choice);
    }
  }

  lemma StepChangesWordByStore(w: World, m: Move, a: Addr, val: int)
    requires Inv(w) && Word(w, a) != val && !Stores(m, a, val)
    ensures Word(Step(w, m), a) != val
  {
    hide S.Inv, Layer, ThreadStep;
    if m.Run? { RunLeavesMemory(w, m.c, m.choice); }
  }

  /** The word of `a` holds something else than `val` ever after a store of something else, unless `val`
      is stored again. */
  lemma {:induction false} WordStaysChanged(w: World, run: seq<Move>, a: Addr, val: int)
    requires Inv(w) && Word(w, a) != val && forall k | 0 <= k < |run| :: !Stores(run[k], a, val)
    ensures Word(Exec(w, run), a) != val
  {
    hide Inv, Step;
    if run != [] {
      var last := |run| - 1;
      WordStaysChanged(w, run[..last], a, val);
      StepChangesWordByStore(Exec(w, run[..last]), run[last], a, val);
    }
  }

  lemma {:induction false} WokenStayWoken(w: World, run: seq<Move>, a: Addr, val: int)
    requires Inv(w) && AllWokenFrom(w, a, val) && Word(w, a) != val
    requires forall k | 0 <= k < |run| :: !Stores(run[k], a, val)
    ensures AllWokenFrom(Exec(w, run), a, val)
  {
    hide Inv, Step, AllWokenFrom;
    if run != [] {
      var last := |run| - 1;
      WokenStayWoken(w, run[..last], a, val);
      WordStaysChanged(w, run[..last], a, val);
      StepKeepsWoken(Exec(w, run[..last]), run[last], a, val);
    }
  }

  lemma {:induction false} ExecTwice(w: World, run: seq<Move>, more: seq<Move>)
    requires Inv(w)
    ensures Exec(w, run + more) == Exec(Exec(w, run), more)
  {
    hide Inv, Step;
    if more == [] {
      assert run + more == run;
    } else {
      var last := |more| - 1;
      assert (run + more)[..|run + more| - 1] == run + more[..last];
      ExecTwice(w, run, more[..last]);
    }
  }

  /** No lost wakeup, in every run.  A thread writes to the word something else than `val`; later a
      wake-all on it returns, whichever way; `val` is not written again.  From then on every thread that
      found `val` in its wait has been woken and can be reached by the scheduler: nobody sleeps on `val`,
      or is on its way to, whether it began to wait before the write, during the wake or after it. */
  lemma NoLostWakeup(w: World, c: CpuId, v: int, between: seq<Move>, d: CpuId, choice: bool, later: seq<Move>, a: Addr,
                     val: int)
    requires Inv(w) && RunsThread(w, c) && w.pcs[w.sched.cpus[c].cur.value].Free? && v != val
    requires forall k | 0 <= k < |between| :: !Stores(between[k], a, val)
    requires forall k | 0 <= k < |later| :: !Stores(later[k], a, val)
    requires var w1 := Exec(w, [Invoking(c, Store(a, v))] + between);
             RunsThread(w1, d) && WakeAllReturns(w1, w1.sched.cpus[d].cur.value, a)
    ensures var w' := Exec(w, [Invoking(c, Store(a, v))] + between + [Run(d, choice)] + later);
            forall u | u in w'.pcs && PastCheck(w'.pcs[u], a) && w'.pcs[u].val == val ::
              && u in w'.sched.threads && w'.sched.threads[u].onQueue && Reachable(w'.sched, u)
              && (w'.pcs[u].WaitParked? || w'.pcs[u].WaitInSchedule?)
  {
    hide S.Inv, FutexOk, RequestOk, BucketOk, WatchOk, Step, Reachable;
    var store, wake := Invoking(c, Store(a, v)), Run(d, choice);
    var w0 := Exec(w, [store]);
    assert [store][..0] == [] && Exec(w, []) == w;
    StoreTakesEffect(w, c, a, v);
    ExecTwice(w, [store], between);
    WordStaysChanged(w0, between, a, val);
    var w1 := Exec(w, [store] + between);
    var w2 := Step(w1, wake);
    WakeAllWakesAll(w1, d, choice, w1.sched.cpus[d].cur.value, a, val);
    StepChangesWordByStore(w1, wake, a, val);
    assert ([store] + between + [wake])[..|[store] + between|] == [store] + between;
    ExecTwice(w, [store] + between + [wake], later);
    WokenStayWoken(w2, later, a, val);
    var w' := Exec(w2, later);
    forall u | u in w'.pcs && PastCheck(w'.pcs[u], a) && w'.pcs[u].val == val ensures Reachable(w'.sched, u) {
      RunnableIsReachable(w'.sched, u);
    }
  }

  lemma StoreTakesEffect(w: World, c: CpuId, a: Addr, v: int)
    requires Inv(w) && RunsThread(w, c) && w.pcs[w.sched.cpus[c].cur.value].Free?
    ensures Word(Step(w, Invoking(c, Store(a, v))), a) == v
  {
    hide S.Inv, Layer;
  }

  /** Futex queues are first-in first-out: the threads woken so far, followed by the threads still
      queued, are the threads that ever went to sleep, in that order. */
  lemma {:induction false} WakesAreFifo(idle: seq<Tid>, run: seq<Move>, k: nat, a: Addr)
    requires NoDuplicates(idle) && k <= |run|
    ensures Inv(Boot(idle))
    ensures var early, late := Exec(Boot(idle), run[..k]), Exec(Boot(idle), run);
            a in early.buckets ==>
              && a in late.buckets
              && early.buckets[a].slept <= late.buckets[a].slept && early.buckets[a].woken <= late.buckets[a].woken
              && late.buckets[a].slept == late.buckets[a].woken + late.buckets[a].queue
  {
    BootInv(idle);
    if k == |run| {
      assert run[..k] == run;
      var w := Exec(Boot(idle), run);
      if a in w.buckets { assert BucketOk(w, a); }
    } else {
      var shorter := run[..|run| - 1];
      assert shorter[..k] == run[..k];
      WakesAreFifo(idle, shorter, k, a);
      var w := Exec(Boot(idle), shorter);
      if a in w.buckets {
        StepGrows(w, run[|run| - 1], a);
        assert BucketOk(Exec(Boot(idle), run), a);
      }
    }
  }

  ghost predicate Grows(w: World, w': World, a: Addr)
    requires a in w.buckets
  {
    a in w'.buckets && w.buckets[a].slept <= w'.buckets[a].slept && w.buckets[a].woken <= w'.buckets[a].woken
  }

  lemma WakeTurnGrows(w: World, c: CpuId, t: Tid, x: Addr, nr: nat, ret: nat, a: Addr)
    requires WakeTurn.requires(w, c, t, x, nr, ret) && a in w.buckets
    ensures Grows(w, WakeTurn(w, c, t, x, nr, ret), a)
  {
  }

  lemma ThreadStepGrows(w: World, c: CpuId, t: Tid, choice: bool, a: Addr)
    requires CanStep(w, c, t) && a in w.buckets
    ensures Grows(w, ThreadStep(w, c, t, choice), a)
  {
    if w.pcs[t].WakeLoop? { WakeTurnGrows(w, c, t, w.pcs[t].addr, w.pcs[t].nr, w.pcs[t].ret, a); }
  }

  lemma RunMoveGrows(w: World, c: CpuId, choice: bool, a: Addr)
    requires Inv(w) && a in w.buckets
    ensures Grows(w, RunMove(w, c, choice), a)
  {
    if RunsThread(w, c) {
      var t := w.sched.cpus[c].cur.value;
      ThreadCanStep(w, c);
      ThreadStepGrows(w, c, t, choice, a);
    }
  }

  lemma StepGrows(w: World, m: Move, a: Addr)
    requires Inv(w) && a in w.buckets
    ensures Grows(w, Step(w, m), a)
  {
    if m.Run? { RunMoveGrows(w, m.c, m.choice, a); }
  }

  /** Who may use a thread's request object: outside a call nobody but the thread, so that constructing
      the next request in the same memory is safe; the swapper only between taking it and `setDone`. */
  lemma RequestHasOneOwner(idle: seq<Tid>, run: seq<Move>, t: Tid)
    requires NoDuplicates(idle)
    ensures Inv(Boot(idle))
    ensures var w := Exec(Boot(idle), run);
            t in w.pcs ==>
              && t in w.reqs
              && (w.reqs[t].place.InQueue? <==> t in w.reqQueue) && NoDuplicates(w.reqQueue)
              && (!Outstanding(w.pcs[t]) ==>
                   w.reqs[t].place.WithThread? && forall c | 0 <= c < |w.watch| :: t !in w.watch[c])
              && (Outstanding(w.pcs[t]) ==> (w.reqs[t].done <==> w.reqs[t].place.WithThread?))
  {
    BootInv(idle);
    var w := Exec(Boot(idle), run);
    if t in w.pcs {
      assert RequestOk(w, t);
      forall c | 0 <= c < |w.watch| && !Outstanding(w.pcs[t]) ensures t !in w.watch[c] { assert WatchOk(w, c); }
    }
  }

  /** Each `sleepWait` makes its owner runnable exactly once, whether completion came before or after
      the request joined the watch list, and the thread goes on only when its request is done. */
  lemma SleepWaitWakesOnce(idle: seq<Tid>, run: seq<Move>, t: Tid)
    requires NoDuplicates(idle)
    ensures Inv(Boot(idle))
    ensures var w := Exec(Boot(idle), run);
            t in w.pcs ==>
              && t in w.reqs && t in w.sched.threads
              && w.reqs[t].sleeps == w.reqs[t].wakes + (if w.reqs[t].watcher.Some? then 1 else 0)
              && (forall c | 0 <= c < |w.watch| :: t in w.watch[c] <==> w.reqs[t].watcher == Some(c))
              && (w.pcs[t].ReqInSchedule? && Executing(w.sched, t) ==> w.reqs[t].done && w.reqs[t].watcher.None?)
  {
    BootInv(idle);
    var w := Exec(Boot(idle), run);
    if t in w.pcs {
      assert RequestOk(w, t) && FutexOk(w, t);
      forall c | 0 <= c < |w.watch| ensures t in w.watch[c] <==> w.reqs[t].watcher == Some(c) { assert WatchOk(w, c); }
    }
  }

  /** The assertions of enqueueTask, dequeueTask and watchListCheck hold wherever they are executed, and
      a bucket lock is only ever held by a thread that a CPU is executing. */
  lemma SourceAssertionsHold(w: World, c: CpuId)
    requires Inv(w) && c < |w.sched.cpus|
    ensures RunsThread(w, c) ==>
              var t := w.sched.cpus[c].cur.value;
              && t in w.sched.threads
              && (w.pcs[t].WaitEqual? || w.pcs[t].ReqPushed? || w.pcs[t].Free? ==>
                    w.sched.threads[t].onQueue && w.sched.threads[t].queue == Some(c))
              && (w.pcs[t].WakeLoop? ==>
                    w.pcs[t].addr in w.buckets
                    && (w.buckets[w.pcs[t].addr].queue != []
                        ==> HeadOf(w, t) in w.sched.threads && !w.sched.threads[HeadOf(w, t)].onQueue))
    ensures forall k | 0 <= k < |w.watch[c]| ::
              var u := w.watch[c][k];
              u in w.reqs && w.reqs[u].owner == Some(u) && u in w.sched.threads && !w.sched.threads[u].onQueue
    ensures forall a | a in w.buckets && w.buckets[a].lock.Some? ::
              w.buckets[a].lock.value in w.sched.threads && Executing(w.sched, w.buckets[a].lock.value)
  {
    if RunsThread(w, c) {
      var t := w.sched.cpus[c].cur.value;
      ThreadCanStep(w, c);
      HeadIsAsleep(w, c, t);
      S.CurrentIsHome(w.sched, c);
    }
    forall k | 0 <= k < |w.watch[c]|
      ensures var u := w.watch[c][k];
                u in w.reqs && w.reqs[u].owner == Some(u) && u in w.sched.threads && !w.sched.threads[u].onQueue
    {
      assert WatchOk(w, c) && w.watch[c][k] in w.watch[c];
      assert RequestOk(w, w.watch[c][k]);
    }
    forall a | a in w.buckets && w.buckets[a].lock.Some?
      ensures w.buckets[a].lock.value in w.sched.threads && Executing(w.sched, w.buckets[a].lock.value)
    {
      assert BucketOk(w, a) && FutexOk(w, w.buckets[a].lock.value);
    }
  }
}

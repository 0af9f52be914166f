/** What `watchListCheck` of libOS/async_request.cpp:47-66 achieves: a completed check of a CPU wakes the owner of
    every request on its watch list that was done when the check began, once, and leaves the others. */
module Completion {
  import opened Basics
  import S = Scheduler
  import B = Blocking
  import Choosing
  import F = FutexCalls

  type Tid = S.Tid
  type CpuId = S.CpuId

  // ---------------------------------------------------------------- a check of one CPU by itself

  /** The requests that are not done, in order. */
  function Pending(reqs: map<Tid, B.Request>, q: seq<Tid>): seq<Tid>
    requires forall t | t in q :: t in reqs
  {
    if q == [] then [] else (if reqs[q[0]].done then [] else [q[0]]) + Pending(reqs, q[1..])
  }

  /** Thread `t` is on the list of CPU `c`: it sleeps, its request is its own. */
  lemma Listed(w: B.World, c: CpuId, k: nat)
    requires B.Inv(w) && c < |w.watch| && k < |w.watch[c]|
    ensures var t := w.watch[c][k];
            && t in w.reqs && t in w.pcs && t in w.sched.threads && !w.sched.threads[t].onQueue
                && w.reqs[t].watcher == Some(c)
  {
    assert w.watch[c][k] in w.watch[c];
    B.RequestSleeper(w, w.watch[c][k], c);
  }

  lemma ListIsDuplicateFree(w: B.World, c: CpuId)
    requires B.Inv(w) && c < |w.watch|
    ensures NoDuplicates(w.watch[c])
  {
    assert B.WatchOk(w, c);
  }

  /** One turn: a done request leaves the list and its owner can run again, a request that is not done is passed. */
  ghost predicate Turned(w: B.World, w': B.World, c: CpuId, cur: Option<Tid>, at: nat)
    requires c < |w.sched.cpus| && c < |w.watch| && at < |w.watch[c]| && w.watch[c][at] in w.reqs
  {
    var t := w.watch[c][at];
    if w.reqs[t].done then
      && w'.watch == w.watch[c := w.watch[c][..at] + w.watch[c][at + 1..]] && w'.pcs == w.pcs
      && w'.reqs == w.reqs[t := Woken(w.reqs[t])]
      && w'.sched.cpus == w.sched.cpus && t in w'.sched.threads && w'.sched.threads[t].onQueue
      && forall u | u in w.sched.threads && u != t :: u in w'.sched.threads && w'.sched.threads[u] == w.sched.threads[u]
    else w' == w.(sched := Choosing.AtCpu(w.sched, c, S.Checking(cur, at + 1)))
  }

  lemma WatchTurnIs(w: B.World, c: CpuId, cur: Option<Tid>, at: nat)
    requires B.CanCheck(w, c) && w.sched.cpus[c] == S.Checking(cur, at)
    ensures Turned(w, B.WatchTurn(w, c), c, cur, at)
  {
  }

  lemma TurnMove(w: B.World, c: CpuId)
    requires B.Inv(w) && c < |w.sched.cpus| && w.sched.cpus[c].Checking? && c < |w.watch|
             && w.sched.cpus[c].at < |w.watch[c]|
    ensures B.CanCheck(w, c) && B.KernelMove(w, c) == B.WatchTurn(w, c)
  {
    hide S.Inv, B.FutexOk, B.RequestOk, B.BucketOk, B.WatchOk, B.WatchTurn;
    B.WatchTurnKeepsInv(w, c);
  }

  /** A request whose owner was woken once more. */
  function Woken(r: B.Request): B.Request { r.(owner := None, watcher := None, wakes := r.wakes + 1) }

  /** Exactly the requests of `q` that were done have been taken off. */
  ghost predicate RequestsChecked(a: map<Tid, B.Request>, b: map<Tid, B.Request>, q: seq<Tid>) {
    b.Keys == a.Keys && forall t | t in a :: b[t] == if t in q && a[t].done then Woken(a[t]) else a[t]
  }

  /** Exactly their owners have become runnable. */
  ghost predicate ThreadsChecked(a: map<Tid, S.Thread>, b: map<Tid, S.Thread>, reqs: map<Tid, B.Request>, q: seq<Tid>) {
    forall t | t in a :: t in b && (b[t].onQueue <==> a[t].onQueue || (t in q && t in reqs && reqs[t].done))
  }

  lemma RequestsOneMore(a: map<Tid, B.Request>, a1: map<Tid, B.Request>, b: map<Tid, B.Request>, t: Tid, rest: seq<Tid>)
    requires t in a && a[t].done && a1 == a[t := Woken(a[t])] && t !in rest && RequestsChecked(a1, b, rest)
    ensures RequestsChecked(a, b, [t] + rest)
  {
  }

  lemma ThreadsOneMore(a: map<Tid, S.Thread>, a1: map<Tid, S.Thread>, b: map<Tid, S.Thread>, reqs: map<Tid, B.Request>,
                       reqs1: map<Tid, B.Request>, t: Tid, rest: seq<Tid>)
    requires t in reqs && reqs[t].done && reqs1 == reqs[t := Woken(reqs[t])] && t !in rest && t in a1 && a1[t].onQueue
    requires (forall u | u in a && u != t :: u in a1 && a1[u] == a[u]) && ThreadsChecked(a1, b, reqs1, rest)
    ensures ThreadsChecked(a, b, reqs, [t] + rest)
  {
  }

  /** What a check of `c` that has reached index `at` still does to the world. */
  ghost predicate Checked(w: B.World, w': B.World, c: CpuId, cur: Option<Tid>, at: nat)
    requires c < |w.watch| && at <= |w.watch[c]| && forall t | t in w.watch[c] :: t in w.reqs
  {
    var q := w.watch[c];
    && |w'.watch| == |w.watch| && |w'.sched.cpus| == |w.sched.cpus| && c < |w.sched.cpus| && w'.pcs == w.pcs
    && w'.watch == w.watch[c := q[..at] + Pending(w.reqs, q[at..])]
    && w'.sched.cpus[c] == S.Checking(cur, |w'.watch[c]|)
    && RequestsChecked(w.reqs, w'.reqs, q[at..]) && ThreadsChecked(w.sched.threads, w'.sched.threads, w.reqs, q[at..])
  }

  lemma CheckedAfterDone(w: B.World, w1: B.World, w': B.World, c: CpuId, cur: Option<Tid>, at: nat)
    requires c < |w.sched.cpus| && c < |w.watch| == |w1.watch| && at < |w.watch[c]| && NoDuplicates(w.watch[c])
    requires (forall t | t in w.watch[c] :: t in w.reqs && t in w.sched.threads)
    requires Turned(w, w1, c, cur, at) && w.reqs[w.watch[c][at]].done && w.sched.cpus[c] == S.Checking(cur, at)
    requires (forall t | t in w1.watch[c] :: t in w1.reqs) && at <= |w1.watch[c]| && Checked(w1, w', c, cur, at)
    ensures Checked(w, w', c, cur, at)
  {
    var q, t := w.watch[c], w.watch[c][at];
    var q1 := q[..at] + q[at + 1..];
    assert w1.watch[c] == q1 && q1[at..] == q[at + 1..] && q1[..at] == q[..at];
    assert q[at..] == [t] + q[at + 1..] && q[at..][1..] == q[at + 1..];
    assert t !in q[at + 1..];
    hide RequestsChecked, ThreadsChecked, Woken;
    RequestsOneMore(w.reqs, w1.reqs, w'.reqs, t, q[at + 1..]);
    ThreadsOneMore(w.sched.threads, w1.sched.threads, w'.sched.threads, w.reqs, w1.reqs, t, q[at + 1..]);
    PendingSame(w.reqs, w1.reqs, q[at + 1..]);
    assert Pending(w.reqs, q[at..]) == Pending(w.reqs, q[at + 1..]);
  }

  lemma CheckedAfterPending(w: B.World, w1: B.World, w': B.World, c: CpuId, cur: Option<Tid>, at: nat)
    requires c < |w.sched.cpus| && c < |w.watch| == |w1.watch| && at < |w.watch[c]|
    requires (forall t | t in w.watch[c] :: t in w.reqs && t in w.sched.threads)
    requires Turned(w, w1, c, cur, at) && !w.reqs[w.watch[c][at]].done
    requires (forall t | t in w1.watch[c] :: t in w1.reqs) && Checked(w1, w', c, cur, at + 1)
    ensures Checked(w, w', c, cur, at)
  {
    var q, t := w.watch[c], w.watch[c][at];
    assert q[at..] == [t] + q[at + 1..] && q[at..][1..] == q[at + 1..];
    assert q[..at + 1] == q[..at] + [t];
    assert q[..at] + ([t] + Pending(w.reqs, q[at + 1..])) == q[..at] + [t] + Pending(w.reqs, q[at + 1..]);
  }

  lemma {:induction false} PendingSame(a: map<Tid, B.Request>, b: map<Tid, B.Request>, q: seq<Tid>)
    requires forall t | t in q :: t in a && t in b && a[t] == b[t]
    ensures Pending(a, q) == Pending(b, q)
  {
    if q != [] { PendingSame(a, b, q[1..]); }
  }

  lemma ListFacts(w: B.World, c: CpuId)
    requires B.Inv(w) && c < |w.watch|
    ensures NoDuplicates(w.watch[c]) && |w.watch| == |w.sched.cpus|
    ensures forall t | t in w.watch[c] :: t in w.reqs && t in w.sched.threads && !w.sched.threads[t].onQueue
    ensures forall t | t in w.watch[c] :: w.reqs[t].watcher == Some(c)
  {
    assert B.WatchOk(w, c);
    forall t | t in w.watch[c] ensures t in w.reqs && t in w.sched.threads && !w.sched.threads[t].onQueue {
      B.RequestSleeper(w, t, c);
    }
  }

  /** A check by kernel steps of `c` alone: what is done leaves the list, its owner can run again and was woken once;
      what is not done stays, in order; nothing else changes. */
  lemma {:induction false} CheckOn(w: B.World, c: CpuId, cur: Option<Tid>, at: nat) returns (n: nat)
    requires B.Inv(w) && c < |w.sched.cpus| && w.sched.cpus[c] == S.Checking(cur, at) && c < |w.watch|
             && at <= |w.watch[c]|
    ensures forall t | t in w.watch[c] :: t in w.reqs
    ensures Checked(w, B.Exec(w, Choosing.Kernels(c, n)), c, cur, at)
    decreases |w.watch[c]| - at
  {
    hide B.Inv, B.Step, B.KernelMove, Checked, Turned;
    ListFacts(w, c);
    if at == |w.watch[c]| {
      n := 0;
      assert Choosing.Kernels(c, 0) == [] && B.Exec(w, []) == w;
      NothingLeft(w, c, cur);
    } else {
      TurnMove(w, c);
      WatchTurnIs(w, c, cur, at);
      Choosing.OneKernel(w, c);
      var w1 := B.KernelMove(w, c);
      TurnedCpu(w, w1, c, cur, at);
      ListFacts(w1, c);
      var done := w.reqs[w.watch[c][at]].done;
      var m := CheckOn(w1, c, cur, if done then at else at + 1);
      Choosing.KernelsAdd(w, c, 1, m);
      n := 1 + m;
      var w' := B.Exec(w, Choosing.Kernels(c, n));
      if done { CheckedAfterDone(w, w1, w', c, cur, at); } else { CheckedAfterPending(w, w1, w', c, cur, at); }
    }
  }

  lemma TurnedCpu(w: B.World, w1: B.World, c: CpuId, cur: Option<Tid>, at: nat)
    requires c < |w.sched.cpus| && c < |w.watch| && at < |w.watch[c]| && w.watch[c][at] in w.reqs
    requires Turned(w, w1, c, cur, at) && w.sched.cpus[c] == S.Checking(cur, at)
    ensures |w1.sched.cpus| == |w.sched.cpus| && |w1.watch| == |w.watch|
    ensures if w.reqs[w.watch[c][at]].done then w1.sched.cpus[c] == S.Checking(cur, at)
            && |w1.watch[c]| == |w.watch[c]| - 1
            else w1.sched.cpus[c] == S.Checking(cur, at + 1) && w1.watch[c] == w.watch[c]
  {
  }

  lemma NothingLeft(w: B.World, c: CpuId, cur: Option<Tid>)
    requires c < |w.sched.cpus| && c < |w.watch| && w.sched.cpus[c] == S.Checking(cur, |w.watch[c]|)
    requires forall t | t in w.watch[c] :: t in w.reqs
    ensures Checked(w, w, c, cur, |w.watch[c]|)
  {
    var q := w.watch[c];
    assert q[|q|..] == [] && q[..|q|] + [] == q;
  }

  // ---------------------------------------------------------------- a check among the moves of others

  /** Request `t` is done and on the list of `c`, at or behind index `at`. */
  ghost predicate Ahead(w: B.World, c: CpuId, t: Tid, at: nat) {
    && c < |w.watch| && t in w.reqs && w.reqs[t].done && w.reqs[t].watcher == Some(c)
    && exists k | at <= k < |w.watch[c]| :: w.watch[c][k] == t
  }

  /** A move of others leaves CPU `c`, its list and the requests on it alone. */
  ghost predicate LeavesList(w: B.World, w': B.World, c: CpuId) {
    && c < |w.sched.cpus| == |w'.sched.cpus| && c < |w.watch| == |w'.watch|
    && w'.sched.cpus[c] == w.sched.cpus[c] && w'.watch[c] == w.watch[c]
    && forall t | t in w.reqs && w.reqs[t].watcher == Some(c) ::
         && t in w'.reqs && w'.reqs[t].watcher == Some(c) && w'.reqs[t].wakes == w.reqs[t].wakes
         && (w.reqs[t].done ==> w'.reqs[t].done)
  }

  /** The request of a thread that is stepping: on no list before its own call of `sleepWait`. */
  lemma StepperLeavesList(w: B.World, d: CpuId, u: Tid, choice: bool, c: CpuId)
    requires B.CanStep(w, d, u) && u in w.pcs && c < |w.watch| && c != d
    requires !B.Watched(w.pcs[u]) ==> w.reqs[u].watcher.None?
    ensures var w' := B.ThreadStep(w, d, u, choice);
            && |w'.watch| == |w.watch| && w'.watch[c] == w.watch[c]
            && forall t | t in w.reqs && w.reqs[t].watcher == Some(c) ::
                 t in w'.reqs && w'.reqs[t].watcher == Some(c) && w'.reqs[t].wakes == w.reqs[t].wakes
                     && w'.reqs[t].done == w.reqs[t].done
  {
    hide S.EnqueueTask, S.DequeueTask, S.StartSchedule;
    if B.InRequest(w.pcs[u]) { B.RequestPointIs(w, d, u, choice); }
  }

  lemma StepperLeavesCpu(w: B.World, d: CpuId, u: Tid, choice: bool, c: CpuId)
    requires B.Layer(w) && B.CanStep(w, d, u) && c < |w.sched.cpus| && c != d
    ensures var s' := B.ThreadStep(w, d, u, choice).sched; |s'.cpus| == |w.sched.cpus| && s'.cpus[c] == w.sched.cpus[c]
  {
    hide B.Layer, B.ThreadStep;
    B.HeadIsAsleep(w, d, u);
    B.ThreadStepCalls(w, d, u, choice, B.HeadOf(w, u));
  }

  lemma UnwatchedHasNoWatcher(w: B.World, u: Tid)
    requires B.Layer(w) && u in w.pcs
    ensures u in w.reqs && (!B.Watched(w.pcs[u]) ==> w.reqs[u].watcher.None?)
  {
    assert B.RequestOk(w, u);
  }

  lemma RunLeavesList(w: B.World, d: CpuId, choice: bool, c: CpuId)
    requires B.Inv(w) && c < |w.sched.cpus| == |w.watch| && w.sched.cpus[c].Checking?
    ensures LeavesList(w, B.RunMove(w, d, choice), c)
  {
    hide S.Inv, B.Layer, B.ThreadStep;
    if B.RunsThread(w, d) {
      var u := w.sched.cpus[d].cur.value;
      B.ThreadCanStep(w, d);
      UnwatchedHasNoWatcher(w, u);
      StepperLeavesList(w, d, u, choice, c);
      StepperLeavesCpu(w, d, u, choice, c);
    }
  }

  lemma InvokeLeavesList(w: B.World, d: CpuId, call: B.Call, c: CpuId)
    requires B.Inv(w) && c < |w.sched.cpus| == |w.watch| && w.sched.cpus[c].Checking?
    ensures LeavesList(w, B.InvokeMove(w, d, call), c)
  {
    hide S.Inv, B.FutexOk, B.BucketOk, B.WatchOk;
    if B.RunsThread(w, d) { UnwatchedHasNoWatcher(w, w.sched.cpus[d].cur.value); }
  }

  lemma PreemptLeavesList(w: B.World, d: CpuId, c: CpuId)
    requires B.Inv(w) && c < |w.sched.cpus| == |w.watch| && w.sched.cpus[c].Checking?
    ensures LeavesList(w, B.PreemptMove(w, d), c)
  {
    hide S.Inv, B.Layer;
  }

  lemma OtherTurnLeavesList(w: B.World, d: CpuId, c: CpuId)
    requires B.CanCheck(w, d) && d != c && c < |w.sched.cpus|
             && w.reqs[w.watch[d][w.sched.cpus[d].at]].watcher == Some(d)
    ensures LeavesList(w, B.WatchTurn(w, d), c)
  {
  }

  lemma KernelLeavesList(w: B.World, d: CpuId, c: CpuId)
    requires B.Inv(w) && c < |w.sched.cpus| == |w.watch| && w.sched.cpus[c].Checking? && d != c
    ensures LeavesList(w, B.KernelMove(w, d), c)
  {
    hide S.Inv, B.FutexOk, B.RequestOk, B.BucketOk, B.WatchOk, S.MarkNotRunning, S.SwitchStep, B.WatchTurn;
    if d < |w.sched.cpus| && !w.sched.cpus[d].Running? {
      if w.sched.cpus[d].Checking? && w.sched.cpus[d].at < |w.watch[d]| {
        Listed(w, d, w.sched.cpus[d].at);
        TurnMove(w, d);
        OtherTurnLeavesList(w, d, c);
      } else {
        S.KernelStepsAreInvisible(w.sched, d);
      }
    }
  }

  lemma RestLeavesList(w: B.World, m: B.Move, c: CpuId)
    requires B.Inv(w) && c < |w.sched.cpus| == |w.watch| && (m.BootClone? || m.Take? || m.Work?)
    ensures LeavesList(w, B.Step(w, m), c)
  {
    hide S.Inv, B.FutexOk, B.RequestOk, B.BucketOk, B.WatchOk;
    if m.BootClone? { NewIsUnknown(w, m.child); }
  }

  lemma NewIsUnknown(w: B.World, u: Tid)
    requires B.Layer(w)
    ensures u !in w.sched.threads ==> u !in w.reqs
  {
  }

  lemma OthersLeaveList(w: B.World, m: B.Move, c: CpuId)
    requires B.Inv(w) && c < |w.sched.cpus| == |w.watch| && w.sched.cpus[c].Checking? && m != B.Kernel(c)
    ensures LeavesList(w, B.Step(w, m), c)
  {
    hide S.Inv, B.Layer, LeavesList, B.RunMove, B.InvokeMove, B.KernelMove, B.PreemptMove;
    match m
    case Run(d, choice) => RunLeavesList(w, d, choice, c);
    case Invoking(d, call) => InvokeLeavesList(w, d, call, c);
    case Preempt(d) => PreemptLeavesList(w, d, c);
    case Kernel(d) => KernelLeavesList(w, d, c);
    case _ => RestLeavesList(w, m, c);
  }

  /** CPU `c` is in a check that has still to come to the done request `t`, which was woken `n` times. */
  ghost predicate Due(w: B.World, c: CpuId, t: Tid, n: nat) {
    && c < |w.sched.cpus| == |w.watch| && w.sched.cpus[c].Checking? && Ahead(w, c, t, w.sched.cpus[c].at)
        && w.reqs[t].wakes == n
  }

  /** The owner of request `t` has just been made runnable, for the `n`-th time. */
  ghost predicate WokenUp(w: B.World, t: Tid, n: nat) {
    t in w.reqs && w.reqs[t].wakes == n && w.reqs[t].watcher.None? && t in w.sched.threads && w.sched.threads[t].onQueue
  }

  lemma DueLeft(w: B.World, w': B.World, c: CpuId, t: Tid, n: nat)
    requires Due(w, c, t, n) && LeavesList(w, w', c)
    ensures Due(w', c, t, n)
  {
  }

  lemma DueTurned(w: B.World, w': B.World, c: CpuId, cur: Option<Tid>, at: nat, t: Tid, n: nat)
    requires Due(w, c, t, n) && w.sched.cpus[c] == S.Checking(cur, at) && at < |w.watch[c]| && w.watch[c][at] in w.reqs
    requires Turned(w, w', c, cur, at) && NoDuplicates(w.watch[c])
    ensures WokenUp(w', t, n + 1) || Due(w', c, t, n)
  {
    var q := w.watch[c];
    var k :| at <= k < |q| && q[k] == t;
    if k == at {
      assert w.reqs[t].done;
    } else if w.reqs[q[at]].done {
      var q' := q[..at] + q[at + 1..];
      assert q'[k - 1] == t && q[at] != t && w'.watch[c] == q';
      assert at <= k - 1 < |w'.watch[c]| && w'.watch[c][k - 1] == t;
      assert Ahead(w', c, t, at);
    } else {
      assert Ahead(w', c, t, at + 1);
    }
  }

  /** Every move leaves the request due, or is the turn that wakes its owner. */
  lemma DueStep(w: B.World, m: B.Move, c: CpuId, t: Tid, n: nat)
    requires B.Inv(w) && Due(w, c, t, n)
    ensures WokenUp(B.Step(w, m), t, n + 1) || Due(B.Step(w, m), c, t, n)
  {
    hide S.Inv, B.Layer, Turned, LeavesList, B.RunMove, B.InvokeMove, B.KernelMove, B.PreemptMove;
    if m == B.Kernel(c) {
      var cur, at := w.sched.cpus[c].cur, w.sched.cpus[c].at;
      ListFacts(w, c);
      TurnMove(w, c);
      WatchTurnIs(w, c, cur, at);
      DueTurned(w, B.KernelMove(w, c), c, cur, at, t, n);
    } else {
      OthersLeaveList(w, m, c);
      DueLeft(w, B.Step(w, m), c, t, n);
    }
  }

  /** In every run: a request that is done when a check of its CPU begins is woken in that check, whatever threads,
      other CPUs and the swapper do meanwhile; as long as it was not, the check is not over. */
  lemma {:induction false} CheckWakesWhatIsDone(w: B.World, run: seq<B.Move>, c: CpuId, t: Tid)
    requires B.Inv(w) && c < |w.sched.cpus| && w.sched.cpus[c].Checking? && w.sched.cpus[c].at == 0
    requires t in w.reqs && w.reqs[t].done && w.reqs[t].watcher == Some(c)
    ensures var n := w.reqs[t].wakes;
            || (exists k | 0 <= k <= |run| :: WokenUp(B.Exec(w, run[..k]), t, n + 1))
            || Due(B.Exec(w, run), c, t, n)
  {
    hide S.Inv, B.Layer, B.Step, Due, WokenUp;
    var n := w.reqs[t].wakes;
    if run == [] {
      DueAtStart(w, c, t);
    } else {
      var shorter, m := run[..|run| - 1], run[|run| - 1];
      CheckWakesWhatIsDone(w, shorter, c, t);
      if k :| 0 <= k <= |shorter| && WokenUp(B.Exec(w, shorter[..k]), t, n + 1) {
        assert shorter[..k] == run[..k];
      } else {
        DueStep(B.Exec(w, shorter), m, c, t, n);
        assert run[..|run|] == run;
      }
    }
  }

  lemma DueAtStart(w: B.World, c: CpuId, t: Tid)
    requires B.Inv(w) && c < |w.sched.cpus| && w.sched.cpus[c].Checking? && w.sched.cpus[c].at == 0
    requires t in w.reqs && w.reqs[t].done && w.reqs[t].watcher == Some(c)
    ensures Due(w, c, t, w.reqs[t].wakes)
  {
    assert c < |w.watch| && B.WatchOk(w, c);
    assert t in w.watch[c];
  }

  // ---------------------------------------------------------------- a blocking request from call to return

  lemma Begin(w: B.World, c: CpuId, t: Tid)
    requires B.Inv(w) && F.On(w, c, t) && w.pcs[t].Free?
    ensures t in w.reqs
    ensures B.Step(w, B.Invoking(c, B.Async)) ==
              w.(pcs := w.pcs[t := B.ReqFilled], reqs :=
                  w.reqs[t := w.reqs[t].(done := false, ack := false, owner := None)])
  {
    hide S.Inv, B.Layer;
    F.InvokeIs(w, c, t, B.Async);
  }

  lemma Push(w: B.World, c: CpuId, t: Tid, choice: bool)
    requires B.Inv(w) && F.On(w, c, t) && w.pcs[t].ReqFilled?
    ensures t in w.reqs
    ensures B.Step(w, B.Run(c, choice)) ==
              w.(pcs := w.pcs[t := B.ReqPushed], reqs := w.reqs[t := w.reqs[t].(place := B.InQueue)],
                  reqQueue := w.reqQueue + [t])
  {
    hide S.Inv, B.Layer, S.EnqueueTask, S.StartSchedule;
    F.RunIs(w, c, t, choice);
  }

  /** While it polls, the thread goes on when its request is done, and not before. */
  lemma Poll(w: B.World, c: CpuId, t: Tid)
    requires B.Inv(w) && F.On(w, c, t) && w.pcs[t].ReqPushed?
    ensures t in w.reqs
    ensures B.Step(w, B.Run(c, false)) == if w.reqs[t].done then w.(pcs := w.pcs[t := B.Free]) else w
  {
    hide S.Inv, B.Layer, S.EnqueueTask, S.StartSchedule;
    F.RunIs(w, c, t, false);
  }

  lemma GiveUpPolling(w: B.World, c: CpuId, t: Tid)
    requires B.Inv(w) && F.On(w, c, t) && w.pcs[t].ReqPushed?
    ensures t in w.reqs && t in w.sched.threads && S.DequeueTask.requires(w.sched, t)
    ensures B.Step(w, B.Run(c, true)) ==
              w.(pcs := w.pcs[t := B.ReqDequeued], reqs := w.reqs[t := w.reqs[t].(owner := Some(t))],
                  sched := S.DequeueTask(w.sched, t))
    ensures var s' := S.DequeueTask(w.sched, t); s'.cpus == w.sched.cpus && t in s'.threads && !s'.threads[t].onQueue
  {
    hide S.Inv, B.Layer, S.EnqueueTask, S.StartSchedule;
    F.RunIs(w, c, t, true);
  }

  lemma JoinList(w: B.World, c: CpuId, t: Tid, choice: bool)
    requires B.Inv(w) && F.On(w, c, t) && w.pcs[t].ReqDequeued?
    ensures t in w.reqs && c < |w.watch|
    ensures B.Step(w, B.Run(c, choice)) ==
              w.(pcs := w.pcs[t := B.ReqParked], watch := w.watch[c := [t] + w.watch[c]],
                 reqs := w.reqs[t := w.reqs[t].(watcher := Some(c), sleeps := w.reqs[t].sleeps + 1)])
  {
    hide S.Inv, B.Layer, S.EnqueueTask, S.StartSchedule;
    F.RunIs(w, c, t, choice);
  }

  /** A request whose sender does not wait for it in a loop: it is last in the request queue and first on the list of
      its CPU, and the sender sleeps. */
  lemma SleepsOnRequest(w: B.World, c: CpuId, t: Tid) returns (run: seq<B.Move>, w': B.World)
    requires B.Inv(w) && F.On(w, c, t) && w.pcs[t].Free?
    ensures run == [B.Invoking(c, B.Async), B.Run(c, true), B.Run(c, true), B.Run(c, true)] && B.Inv(w')
            && w' == B.Exec(w, run)
    ensures t in w.reqs && t in w'.reqs && c < |w.watch| && w'.pcs == w.pcs[t := B.ReqParked]
            && w'.reqQueue == w.reqQueue + [t]
    ensures w'.watch == w.watch[c := [t] + w.watch[c]] && w'.sched.cpus == w.sched.cpus
    ensures t in w'.sched.threads && !w'.sched.threads[t].onQueue
    ensures var r := w'.reqs[t];
            !r.done && r.owner == Some(t) && r.watcher == Some(c) && r.place == B.InQueue
                && r.sleeps == w.reqs[t].sleeps + 1
  {
    hide B.Inv, B.Step, B.Exec, S.DequeueTask;
    assert B.Exec(w, []) == w by { F.StartsHere(w); }
    Begin(w, c, t);
    run, w' := F.Then(w, [], w, B.Invoking(c, B.Async));
    F.Inverted(w, run);
    Push(w', c, t, true);
    run, w' := F.Then(w, run, w', B.Run(c, true));
    F.Inverted(w, run);
    GiveUpPolling(w', c, t);
    run, w' := F.Then(w, run, w', B.Run(c, true));
    F.Inverted(w, run);
    JoinList(w', c, t, true);
    run, w' := F.Then(w, run, w', B.Run(c, true));
    F.Inverted(w, run);
    assert w'.pcs == w.pcs[t := B.ReqParked];
  }

  lemma TakeIs(w: B.World)
    requires B.Inv(w) && w.reqQueue != []
    ensures var t := w.reqQueue[0];
            t in w.reqs && B.Step(w, B.Take) == w.(reqQueue := w.reqQueue[1..],
                reqs := w.reqs[t := w.reqs[t].(place := B.AtSwapper)])
  {
    hide S.Inv, B.Layer;
    B.SwapperTakeKeepsLayer(w);
  }

  lemma WorkIs(w: B.World, t: Tid, finish: bool)
    requires B.Inv(w) && t in w.reqs && w.reqs[t].place.AtSwapper?
    ensures B.Step(w, B.Work(t, finish)) ==
              w.(reqs := w.reqs[t := if finish then w.reqs[t].(done := true, place := B.WithThread)
                  else w.reqs[t].(ack := true)])
  {
    hide S.Inv, B.Layer;
  }

  /** The swapper takes the oldest request, and when it has finished it the request is done and with its thread
      again. */
  lemma SwapperServes(w: B.World) returns (run: seq<B.Move>, w': B.World)
    requires B.Inv(w) && w.reqQueue != []
    ensures var t := w.reqQueue[0];
            && t in w.reqs && run == [B.Take, B.Work(t, false), B.Work(t, true)] && w' == B.Exec(w, run)
            && w' == w.(reqQueue := w.reqQueue[1..], reqs :=
                w.reqs[t := w.reqs[t].(ack := true, done := true, place := B.WithThread)])
  {
    hide B.Inv, B.Step, B.Exec;
    var t := w.reqQueue[0];
    assert B.Exec(w, []) == w by { F.StartsHere(w); }
    TakeIs(w);
    run, w' := F.Then(w, [], w, B.Take);
    F.Inverted(w, run);
    WorkIs(w', t, false);
    run, w' := F.Then(w, run, w', B.Work(t, false));
    F.Inverted(w, run);
    WorkIs(w', t, true);
    run, w' := F.Then(w, run, w', B.Work(t, true));
    assert w'.reqs == w.reqs[t := w.reqs[t].(ack := true, done := true, place := B.WithThread)];
  }

  /** A sender that was woken and runs again returns from its call. */
  lemma Resumes(w: B.World, c: CpuId, t: Tid, choice: bool)
    requires B.Inv(w) && F.On(w, c, t) && w.pcs[t].ReqInSchedule?
    ensures B.Step(w, B.Run(c, choice)) == w.(pcs := w.pcs[t := B.Free])
  {
    hide S.Inv, B.Layer, S.EnqueueTask, S.StartSchedule;
    F.RunIs(w, c, t, choice);
  }
}

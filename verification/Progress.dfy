/** The spins on `contextGood` in libOS/user_thread.cpp:112-118 end: a CPU that switches threads is done after
    boundedly many rounds in which every CPU takes a kernel step, whatever threads and CPUs do in between. */
module Progress {
  import opened Basics
  import S = Scheduler
  import B = Blocking

  type Tid = S.Tid
  type CpuId = S.CpuId

  // ---------------------------------------------------------------- what one step means for the CPUs

  /** CPU `d` is left alone, takes its next step of a switch, or is not in a switch that began before. */
  ghost predicate CpuFollows(s: S.State, s': S.State, kernel: bool, c: CpuId, d: CpuId)
    requires d < |s.cpus| == |s'.cpus|
  {
    || s'.cpus[d] == s.cpus[d]
    || (kernel && d == c && S.CanSwitch(s, d) && s' == S.SwitchStep(s, d))
    || (!S.Switching(s.cpus[d]) && (S.Switching(s'.cpus[d]) ==> s'.cpus[d].mark == s.clock))
  }

  /** A step of CPU `c`; `kernel` says that it is a step inside `schedule` or `jumpTo`. */
  ghost predicate Follows(s: S.State, s': S.State, kernel: bool, c: CpuId) {
    && |s'.cpus| == |s.cpus|
    && (forall d | 0 <= d < |s.cpus| :: CpuFollows(s, s', kernel, c, d))
    && (kernel && c < |s.cpus| && S.Switching(s.cpus[c]) ==> S.CanSwitch(s, c) && s' == S.SwitchStep(s, c))
    && (forall t | t in s.threads && s.threads[t].contextGood ::
          && t in s'.threads
          && (s'.threads[t].contextGood || (kernel && c < |s.cpus| && S.Runs(s.cpus[c], t))))
  }

  lemma CallFollows(s: S.State, s': S.State, c: CpuId, t: Tid, u: Tid)
    requires B.SchedCall(s, s', c, t, u)
    ensures Follows(s, s', false, c)
  {
    forall d | 0 <= d < |s.cpus| ensures CpuFollows(s, s', false, c, d) { }
  }

  /** A switch takes nobody's context but that of the thread it switches to, and touches no other CPU. */
  lemma OthersKeepContext(s: S.State, c: CpuId, t: Tid)
    requires S.CanSwitch(s, c) && t in s.threads && s.threads[t].contextGood && !S.Runs(s.cpus[c], t)
    ensures t in S.SwitchStep(s, c).threads && S.SwitchStep(s, c).threads[t].contextGood
  {
  }

  lemma SwitchFollows(s: S.State, c: CpuId)
    requires S.CanSwitch(s, c) && S.KernelStep(s, S.SwitchStep(s, c), c)
    ensures Follows(s, S.SwitchStep(s, c), true, c)
  {
    hide S.SwitchStep;
    var s' := S.SwitchStep(s, c);
    forall d | 0 <= d < |s.cpus| ensures CpuFollows(s, s', true, c, d) { }
    forall t | t in s.threads && s.threads[t].contextGood && !S.Runs(s.cpus[c], t)
      ensures t in s'.threads && s'.threads[t].contextGood
    {
      OthersKeepContext(s, c, t);
    }
  }

  lemma MarkFollows(s: S.State, c: CpuId)
    requires c < |s.cpus| && s.cpus[c].Checking? && S.MarkNotRunning.requires(s, c)
    ensures Follows(s, S.MarkNotRunning(s, c), true, c)
  {
    forall d | 0 <= d < |s.cpus| ensures CpuFollows(s, S.MarkNotRunning(s, c), true, c, d) { }
  }

  lemma Stutter(s: S.State, s': S.State, c: CpuId)
    requires s'.cpus == s.cpus && forall t | t in s.threads ::
             t in s'.threads && s'.threads[t].contextGood == s.threads[t].contextGood
    ensures Follows(s, s', false, c)
    ensures c >= |s.cpus| || !S.Switching(s.cpus[c]) ==> Follows(s, s', true, c)
  {
    forall d | 0 <= d < |s.cpus| ensures CpuFollows(s, s', false, c, d) && CpuFollows(s, s', true, c, d) { }
  }

  lemma StartFollows(s: S.State, c: CpuId)
    requires c < |s.cpus| && s.cpus[c].Running?
    ensures Follows(s, S.StartSchedule(s, c), false, c)
  {
    forall d | 0 <= d < |s.cpus| ensures CpuFollows(s, S.StartSchedule(s, c), false, c, d) { }
  }

  lemma RunFollows(w: B.World, c: CpuId, choice: bool)
    requires B.Inv(w)
    ensures Follows(w.sched, B.RunMove(w, c, choice).sched, false, c)
  {
    hide S.Inv, B.Layer, Follows, B.SchedCall, B.ThreadStep;
    if B.RunsThread(w, c) {
      var t := w.sched.cpus[c].cur.value;
      B.ThreadCanStep(w, c);
      B.HeadIsAsleep(w, c, t);
      B.ThreadStepCalls(w, c, t, choice, B.HeadOf(w, t));
      CallFollows(w.sched, B.ThreadStep(w, c, t, choice).sched, c, t, B.HeadOf(w, t));
    } else {
      Stutter(w.sched, w.sched, c);
    }
  }

  lemma InvokeFollows(w: B.World, c: CpuId, call: B.Call)
    requires B.Inv(w)
    ensures Follows(w.sched, B.InvokeMove(w, c, call).sched, false, c)
  {
    hide S.Inv, B.Layer, Follows;
    Stutter(w.sched, B.InvokeMove(w, c, call).sched, c);
  }

  lemma PreemptFollows(w: B.World, c: CpuId)
    requires B.Inv(w)
    ensures Follows(w.sched, B.PreemptMove(w, c).sched, false, c)
  {
    hide S.Inv, B.Layer, Follows, S.StartSchedule;
    if c < |w.sched.cpus| && w.sched.cpus[c].Running? { StartFollows(w.sched, c); }
    Stutter(w.sched, w.sched, c);
  }

  lemma WatchFollows(w: B.World, c: CpuId)
    requires B.CanCheck(w, c)
    ensures Follows(w.sched, B.WatchTurn(w, c).sched, true, c)
  {
    var s, s' := w.sched, B.WatchTurn(w, c).sched;
    forall d | 0 <= d < |s.cpus| ensures CpuFollows(s, s', true, c, d) { }
  }

  lemma KernelFollows(w: B.World, c: CpuId)
    requires B.Inv(w)
    ensures Follows(w.sched, B.KernelMove(w, c).sched, true, c)
  {
    hide S.Inv, B.FutexOk, B.RequestOk, B.BucketOk, B.WatchOk, Follows, S.MarkNotRunning, S.SwitchStep, B.WatchTurn,
        S.KernelStep;
    if c >= |w.sched.cpus| || w.sched.cpus[c].Running? {
      Stutter(w.sched, w.sched, c);
    } else if w.sched.cpus[c].Checking? && w.sched.cpus[c].at < |w.watch[c]| {
      B.WatchCanCheck(w, c);
      WatchFollows(w, c);
    } else {
      S.KernelStepsAreInvisible(w.sched, c);
      if w.sched.cpus[c].Checking? { MarkFollows(w.sched, c); } else { SwitchFollows(w.sched, c); }
    }
  }

  /** The CPU whose move it is. */
  function CpuOf(m: B.Move): CpuId {
    match m case Run(c, _) => c case Invoking(c, _) => c case Preempt(c) => c case Kernel(c) =>
        c case BootClone(c, _) => c case _ => 0
  }

  lemma StepFollows(w: B.World, m: B.Move)
    requires B.Inv(w)
    ensures Follows(w.sched, B.Step(w, m).sched, m.Kernel?, CpuOf(m))
  {
    hide S.Inv, B.Layer, Follows, B.RunMove, B.InvokeMove, B.KernelMove, B.PreemptMove;
    match m
    case Run(c, choice) => RunFollows(w, c, choice);
    case Invoking(c, call) => InvokeFollows(w, c, call);
    case Preempt(c) => PreemptFollows(w, c);
    case Kernel(c) => KernelFollows(w, c);
    case BootClone(c, u) => Stutter(w.sched, B.BootMove(w, c, u).sched, c);
    case Take => Stutter(w.sched, B.SwapperMove(w, m).sched, 0);
    case Work(_, _) => Stutter(w.sched, B.SwapperMove(w, m).sched, 0);
  }

  // ---------------------------------------------------------------- how far a switch is from its end

  /** CPU `d` is in a switch that began no later than that of `c`. */
  predicate Before(s: S.State, d: CpuId, c: CpuId)
    requires c < |s.cpus| && d < |s.cpus| && S.Switching(s.cpus[c])
  {
    S.Switching(s.cpus[d]) && s.cpus[d].mark <= s.cpus[c].mark
  }

  function Share(s: S.State, d: CpuId, c: CpuId): nat
    requires c < |s.cpus| && d < |s.cpus| && S.Switching(s.cpus[c])
  {
    if Before(s, d, c) then S.SwitchRank(s, d) else 0
  }

  /** Steps that `c` and the CPUs it may have to wait for are away from thread code, for the first `n` CPUs. */
  function Left(s: S.State, c: CpuId, n: nat): nat
    requires c < |s.cpus| && n <= |s.cpus| && S.Switching(s.cpus[c])
  {
    if n == 0 then 0 else Left(s, c, n - 1) + Share(s, n - 1, c)
  }

  function Distance(s: S.State, c: CpuId): nat
    requires c < |s.cpus| && S.Switching(s.cpus[c])
  {
    Left(s, c, |s.cpus|)
  }

  lemma {:induction false} LeftFalls(s: S.State, s': S.State, c: CpuId, d: CpuId, n: nat)
    requires c < |s.cpus| == |s'.cpus| && n <= |s.cpus| && S.Switching(s.cpus[c]) && S.Switching(s'.cpus[c])
    requires forall e | 0 <= e < |s.cpus| :: Share(s', e, c) <= Share(s, e, c)
    ensures Left(s', c, n) <= Left(s, c, n)
    ensures d < n && Share(s', d, c) < Share(s, d, c) ==> Left(s', c, n) < Left(s, c, n)
  {
    hide Share;
    if n > 0 { LeftFalls(s, s', c, d, n - 1); }
  }

  /** A step of a switch keeps its mark; unless it spins, it comes nearer to the end. */
  lemma SwitchStepOf(s: S.State, d: CpuId)
    requires S.CanSwitch(s, d)
    ensures var s' := S.SwitchStep(s, d);
            && |s'.cpus| == |s.cpus|
            && (S.Switching(s'.cpus[d]) ==> s'.cpus[d].mark == s.cpus[d].mark)
            && (if S.Blocked(s, d) then s' == s else S.SwitchRank(s', d) < S.SwitchRank(s, d))
  {
    S.SwitchMakesProgress(s, d, d);
  }

  lemma ShareFalls(s: S.State, s': S.State, kernel: bool, b: CpuId, c: CpuId, e: CpuId)
    requires c < |s.cpus| && e < |s.cpus| && S.Switching(s.cpus[c]) && s.cpus[c].mark < s.clock
    requires Follows(s, s', kernel, b) && S.Switching(s'.cpus[c])
    ensures s'.cpus[c].mark == s.cpus[c].mark && Share(s', e, c) <= Share(s, e, c)
    ensures kernel && b == e && Before(s, e, c) && !S.Blocked(s, e) ==> Share(s', e, c) < Share(s, e, c)
  {
    hide S.SwitchStep, S.Blocked;
    assert CpuFollows(s, s', kernel, b, c) && CpuFollows(s, s', kernel, b, e);
    if kernel && b < |s.cpus| && S.Switching(s.cpus[b]) { SwitchStepOf(s, b); }
  }

  lemma MarkIsPast(s: S.State, c: CpuId)
    requires S.Inv(s) && c < |s.cpus| && S.Switching(s.cpus[c])
    ensures s.cpus[c].mark < s.clock
  {
    assert S.CpuOk(s, c);
  }

  /** No step of anybody takes a switch of `c` further from its end, and a step of a CPU before it that does
      not spin brings it nearer. */
  lemma StepComesNearer(w: B.World, m: B.Move, c: CpuId)
    requires B.Inv(w) && c < |w.sched.cpus| && S.Switching(w.sched.cpus[c])
    ensures var s, s' := w.sched, B.Step(w, m).sched;
            && |s'.cpus| == |s.cpus|
            && (S.Switching(s'.cpus[c]) ==>
                  && Distance(s', c) <= Distance(s, c)
                  && (m.Kernel? && m.c < |s.cpus| && Before(s, m.c, c) && !S.Blocked(s, m.c)
                      ==> Distance(s', c) < Distance(s, c)))
  {
    hide S.Inv, B.Layer, B.Step, Follows, Share, Before, S.Blocked;
    StepFollows(w, m);
    MarkIsPast(w.sched, c);
    var s, s' := w.sched, B.Step(w, m).sched;
    SameCpus(s, s', m.Kernel?, CpuOf(m));
    if S.Switching(s'.cpus[c]) {
      forall e | 0 <= e < |s.cpus|
        ensures Share(s', e, c) <= Share(s, e, c)
        ensures m.Kernel? && m.c == e && Before(s, e, c) && !S.Blocked(s, e) ==> Share(s', e, c) < Share(s, e, c)
      {
        ShareFalls(s, s', m.Kernel?, CpuOf(m), c, e);
      }
      LeftFalls(s, s', c, CpuOf(m), |s.cpus|);
    }
  }

  lemma SameCpus(s: S.State, s': S.State, kernel: bool, c: CpuId)
    requires Follows(s, s', kernel, c)
    ensures |s'.cpus| == |s.cpus|
  {
  }

  lemma NextIsOwn(s: S.State, c: CpuId, d: CpuId)
    requires S.Inv(s) && c < |s.cpus| && d < |s.cpus| && c != d && s.cpus[d].Jumping?
    ensures s.cpus[d].next in s.threads && !S.Runs(s.cpus[c], s.cpus[d].next)
  {
    assert S.CpuOk(s, d) && S.Runs(s.cpus[d], s.cpus[d].next);
  }

  lemma Unblocked(s: S.State, s': S.State, kernel: bool, b: CpuId, d: CpuId)
    requires Follows(s, s', kernel, b) && d < |s.cpus| && S.Switching(s.cpus[d]) && !S.Blocked(s, d)
             && !(kernel && b == d)
    requires s.cpus[d].Jumping? ==>
               s.cpus[d].next in s.threads && (b < |s.cpus| && b != d ==> !S.Runs(s.cpus[b], s.cpus[d].next))
    ensures s'.cpus[d] == s.cpus[d] && !S.Blocked(s', d)
  {
    assert CpuFollows(s, s', kernel, b, d);
  }

  /** A switch that does not spin is not held up by what others do first. */
  lemma StepBlocksNobody(w: B.World, m: B.Move, d: CpuId)
    requires B.Inv(w) && d < |w.sched.cpus| && S.Switching(w.sched.cpus[d]) && !S.Blocked(w.sched, d)
             && m != B.Kernel(d)
    ensures var s' := B.Step(w, m).sched; d < |s'.cpus| && s'.cpus[d] == w.sched.cpus[d] && !S.Blocked(s', d)
  {
    hide S.Inv, B.Layer, B.Step, Follows;
    StepFollows(w, m);
    var s, b := w.sched, CpuOf(m);
    SameCpus(s, B.Step(w, m).sched, m.Kernel?, b);
    if s.cpus[d].Jumping? {
      OwnNext(s, d);
      if b < |s.cpus| && b != d { NextIsOwn(s, b, d); }
    }
    Unblocked(s, B.Step(w, m).sched, m.Kernel?, b, d);
  }

  lemma OwnNext(s: S.State, d: CpuId)
    requires S.Inv(s) && d < |s.cpus| && s.cpus[d].Jumping?
    ensures s.cpus[d].next in s.threads
  {
    assert S.CpuOk(s, d);
  }

  /** Among the switches before that of `c` there is one that does not spin. */
  lemma SomebodyCanGoOn(s: S.State, c: CpuId) returns (d: CpuId)
    requires S.Inv(s) && c < |s.cpus| && S.Switching(s.cpus[c])
    ensures d < |s.cpus| && Before(s, d, c) && !S.Blocked(s, d)
  {
    d := c;
    if S.Blocked(s, c) { d := S.SomeSwitchIsNotBlocked(s, c); }
  }

  // ---------------------------------------------------------------- every run

  /** Somewhere in the run CPU `c` is not switching. */
  ghost predicate Ends(w: B.World, run: seq<B.Move>, c: CpuId)
    requires B.Inv(w)
  {
    exists k | 0 <= k <= |run| :: var s := B.Exec(w, run[..k]).sched; c < |s.cpus| && !S.Switching(s.cpus[c])
  }

  lemma FirstStep(w: B.World, m: B.Move, rest: seq<B.Move>)
    requires B.Inv(w)
    ensures B.Exec(w, [m] + rest) == B.Exec(B.Step(w, m), rest)
  {
    hide B.Inv, B.Step;
    B.ExecTwice(w, [m], rest);
    assert [m][..0] == [] && B.Exec(w, []) == w;
  }

  lemma EndsAt(w: B.World, run: seq<B.Move>, more: seq<B.Move>, c: CpuId)
    requires B.Inv(w) && Ends(B.Exec(w, run), more, c)
    ensures Ends(w, run + more, c)
  {
    hide B.Inv, B.Step;
    var k :| 0 <= k <= |more|
             && var s := B.Exec(B.Exec(w, run), more[..k]).sched; c < |s.cpus| && !S.Switching(s.cpus[c]);
    B.ExecTwice(w, run, more[..k]);
    assert (run + more)[..|run| + k] == run + more[..k];
  }

  lemma EndsNow(w: B.World, run: seq<B.Move>, c: CpuId)
    requires B.Inv(w) && c < |w.sched.cpus| && !S.Switching(w.sched.cpus[c])
    ensures Ends(w, run, c)
  {
    assert run[..0] == [] && B.Exec(w, []) == w;
  }

  lemma EndsBefore(w: B.World, run: seq<B.Move>, more: seq<B.Move>, c: CpuId)
    requires B.Inv(w) && Ends(w, run, c)
    ensures Ends(w, run + more, c)
  {
    hide B.Inv, B.Exec;
    var k :| 0 <= k <= |run| && var s := B.Exec(w, run[..k]).sched; c < |s.cpus| && !S.Switching(s.cpus[c]);
    assert (run + more)[..k] == run[..k];
  }

  /** While `c` is switching, a run does not take it further from the end, and one with a step of CPU `d`, which
      is before it and does not spin, brings it nearer. */
  lemma {:induction false} RunComesNearer(w: B.World, run: seq<B.Move>, c: CpuId, d: CpuId)
    requires B.Inv(w) && c < |w.sched.cpus| && S.Switching(w.sched.cpus[c])
    ensures var s' := B.Exec(w, run).sched;
            || Ends(w, run, c)
            || (&& |s'.cpus| == |w.sched.cpus| && S.Switching(s'.cpus[c]) && Distance(s', c) <= Distance(w.sched, c)
                && (d < |w.sched.cpus| && Before(w.sched, d, c) && !S.Blocked(w.sched, d) && B.Kernel(d) in run ==>
                      Distance(s', c) < Distance(w.sched, c)))
    decreases run
  {
    hide B.Inv, B.Step, Distance, S.Blocked;
    if run == [] {
    } else {
      var m, rest := run[0], run[1..];
      var w1 := B.Step(w, m);
      assert run == [m] + rest;
      FirstStep(w, m, rest);
      StepComesNearer(w, m, c);
      FirstStep(w, m, []);
      assert [m] + [] == [m];
      if S.Switching(w1.sched.cpus[c]) {
        if d < |w.sched.cpus| && Before(w.sched, d, c) && !S.Blocked(w.sched, d) && m != B.Kernel(d) {
          StepBlocksNobody(w, m, d);
          SameMark(w, m, c);
        }
        RunComesNearer(w1, rest, c, d);
        if Ends(w1, rest, c) { EndsAt(w, [m], rest, c); }
      } else {
        EndsNow(w1, rest, c);
        EndsAt(w, [m], rest, c);
      }
    }
  }

  lemma SameMark(w: B.World, m: B.Move, c: CpuId)
    requires B.Inv(w) && c < |w.sched.cpus| && S.Switching(w.sched.cpus[c])
    ensures var s' := B.Step(w, m).sched;
            |s'.cpus| == |w.sched.cpus| && (S.Switching(s'.cpus[c]) ==> s'.cpus[c].mark == w.sched.cpus[c].mark)
  {
    hide S.Inv, B.Layer, B.Step, Follows;
    StepFollows(w, m);
    MarkIsPast(w.sched, c);
    var s, s' := w.sched, B.Step(w, m).sched;
    SameCpus(s, s', m.Kernel?, CpuOf(m));
    if S.Switching(s'.cpus[c]) { ShareFalls(s, s', m.Kernel?, CpuOf(m), c, c); }
  }

  function Flat(rounds: seq<seq<B.Move>>): seq<B.Move> {
    if rounds == [] then [] else rounds[0] + Flat(rounds[1..])
  }

  /** Every CPU takes a step inside `schedule` or `jumpTo`, if it is there, in each round. */
  predicate Fair(rounds: seq<seq<B.Move>>, cpus: nat) {
    forall k, d | 0 <= k < |rounds| && 0 <= d < cpus :: B.Kernel(d) in rounds[k]
  }

  /** In every run: a CPU that switches threads is done before as many fair rounds are over as the CPUs that
      began to switch no later than it are steps away from thread code.  In between threads may run, call,
      sleep, wake and be preempted, and other CPUs may begin new switches. */
  lemma {:induction false} EverySwitchEnds(w: B.World, rounds: seq<seq<B.Move>>, c: CpuId)
    requires B.Inv(w) && c < |w.sched.cpus| && Fair(rounds, |w.sched.cpus|)
    requires S.Switching(w.sched.cpus[c]) ==> |rounds| >= Distance(w.sched, c)
    ensures Ends(w, Flat(rounds), c)
    decreases rounds
  {
    hide B.Inv, B.Step, Distance, S.Blocked;
    if !S.Switching(w.sched.cpus[c]) {
      EndsNow(w, Flat(rounds), c);
    } else {
      var d := Chosen(w, c);
      assert B.Kernel(d) in rounds[0];
      RunComesNearer(w, rounds[0], c, d);
      if Ends(w, rounds[0], c) {
        EndsBefore(w, rounds[0], Flat(rounds[1..]), c);
      } else {
        EverySwitchEnds(B.Exec(w, rounds[0]), rounds[1..], c);
        EndsAt(w, rounds[0], Flat(rounds[1..]), c);
      }
    }
  }

  lemma Chosen(w: B.World, c: CpuId) returns (d: CpuId)
    requires B.Inv(w) && c < |w.sched.cpus| && S.Switching(w.sched.cpus[c])
    ensures d < |w.sched.cpus| && Before(w.sched, d, c) && !S.Blocked(w.sched, d) && Distance(w.sched, c) > 0
  {
    d := SomebodyCanGoOn(w.sched, c);
    Positive(w.sched, c, |w.sched.cpus|);
  }

  lemma {:induction false} Positive(s: S.State, c: CpuId, n: nat)
    requires c < n <= |s.cpus| && S.Switching(s.cpus[c])
    ensures Left(s, c, n) > 0
  {
    if c < n - 1 { Positive(s, c, n - 1); }
  }
}

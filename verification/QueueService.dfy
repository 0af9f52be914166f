/** What `push` and `take` of include/queue.h achieve: a take gets the head when it is published, a push gets
    the tail cell when it is free, and an attempt that fails has been overtaken by another one. */
module QueueService {
  import opened RequestQueue

  // ---------------------------------------------------------------- undisturbed operations

  lemma PcTwice<T>(s: State<T>, t: Tid, a: Pc<T>, b: Pc<T>)
    ensures SetPc(SetPc(s, t, a), t, b) == SetPc(s, t, b)
    ensures t in s.pcs && s.pcs[t] == b ==> SetPc(s, t, b) == s
  {
    assert s.pcs[t := a][t := b] == s.pcs[t := b];
    if t in s.pcs && s.pcs[t] == b { assert s.pcs[t := b] == s.pcs; }
  }

  /** One step of `t` from a state in which it is at `pc`. */
  lemma Take1<T>(s: State<T>, t: Tid)
    requires WellFormed(s) && t in s.pcs && s.pcs[t].Idle?
    ensures Step(s, t, BeginTake) == SetPc(s, t, TakeLoad)
    ensures Step(SetPc(s, t, TakeLoad), t, Advance) == SetPc(s, t, TakeSeq(s.deq))
  {
    PcTwice(s, t, TakeLoad, TakeSeq(s.deq));
  }

  lemma Take2<T>(s: State<T>, t: Tid)
    requires WellFormed(s) && t in s.pcs && s.pcs[t].Idle?
    ensures var s1 := SetPc(s, t, TakeSeq(s.deq));
            && (Sequence(s, s.deq) == s.deq + 1 ==> Step(s1, t, Advance) == SetPc(s, t, TakeCas(s.deq)))
            && (Sequence(s, s.deq) <= s.deq ==> Step(s1, t, Advance) == s)
    ensures Step(SetPc(s, t, TakeCas(s.deq)), t, Advance) ==
              SetPc(s, t, TakeRead(s.deq)).(deq := s.deq + 1, taker := s.taker + [t])
  {
    PcTwice(s, t, TakeSeq(s.deq), TakeCas(s.deq));
    PcTwice(s, t, TakeSeq(s.deq), Idle);
    PcTwice(s, t, TakeCas(s.deq), TakeRead(s.deq));
  }

  lemma Take3<T>(s: State<T>, t: Tid, p: nat)
    requires WellFormed(s) && t in s.pcs && s.pcs[t].Idle?
    ensures Step(SetPc(s, t, TakeRead(p)), t, Advance) == SetPc(s, t, TakeRelease(p, Data(s, p)))
    ensures Step(SetPc(s, t, TakeRelease(p, Data(s, p))), t, Advance) ==
              SetCell(s, p, Cell(p + s.size, Data(s, p))).(returned := s.returned[p := Data(s, p)])
  {
    PcTwice(s, t, TakeRead(p), TakeRelease(p, Data(s, p)));
    PcTwice(s, t, TakeRelease(p, Data(s, p)), Idle);
  }

  /** A take that finds the head published returns its value: it claims the head, and hands the cell to the
      push of the next lap. */
  lemma TakeGetsTheHead<T>(s: State<T>, t: Tid) returns (run: seq<Move<T>>, s': State<T>)
    requires Inv(s) && t in s.pcs && s.pcs[t].Idle? && s.deq < s.enq && Sequence(s, s.deq) == s.deq + 1
    ensures run == [Move(t, BeginTake), Move(t, Advance), Move(t, Advance), Move(t, Advance), Move(t, Advance),
            Move(t, Advance)]
    ensures s' == Exec(s, run) && Inv(s')
    ensures s'.pcs == s.pcs && s'.deq == s.deq + 1 && s'.enq == s.enq && s'.pushed == s.pushed
    ensures s'.taker == s.taker + [t] && s'.returned == s.returned[s.deq := s.pushed[s.deq]]
    ensures Sequence(s', s.deq) == s.deq + s.size
  {
    assert Data(s, s.deq) == s.pushed[s.deq] by { assert CellOk(s, s.deq); }
    hide Step, Exec, Inv;
    Take1(s, t);
    Take2(s, t);
    var claimed := s.(deq := s.deq + 1, taker := s.taker + [t]);
    Take3(claimed, t, s.deq);
    run, s' := Then(s, [], s, t, BeginTake);
    run, s' := Then(s, run, s', t, Advance);
    run, s' := Then(s, run, s', t, Advance);
    run, s' := Then(s, run, s', t, Advance);
    run, s' := Then(s, run, s', t, Advance);
    run, s' := Then(s, run, s', t, Advance);
    EveryRunKeepsInv(s, run);
  }

  /** A take that finds the head empty or unpublished returns without a value and changes nothing. */
  lemma TakeGivesUp<T>(s: State<T>, t: Tid) returns (run: seq<Move<T>>)
    requires Inv(s) && t in s.pcs && s.pcs[t].Idle? && (s.deq == s.enq || Sequence(s, s.deq) != s.deq + 1)
    ensures run == [Move(t, BeginTake), Move(t, Advance), Move(t, Advance)] && Exec(s, run) == s
  {
    assert Sequence(s, s.deq) <= s.deq by { assert CellOk(s, s.deq); }
    hide Step, Exec, Inv;
    var s';
    Take1(s, t);
    Take2(s, t);
    run, s' := Then(s, [], s, t, BeginTake);
    run, s' := Then(s, run, s', t, Advance);
    run, s' := Then(s, run, s', t, Advance);
  }

  /** A push whose cell is free, because the push of the last lap was taken and read, goes through: its value
      is the last in the queue and can be taken. */
  lemma PushGetsTheTail<T>(s: State<T>, t: Tid, v: T) returns (run: seq<Move<T>>, s': State<T>)
    requires Inv(s) && t in s.pcs && s.pcs[t].Idle? && (s.enq < s.size || s.enq - s.size in s.returned)
    ensures run == [Move(t, BeginPush(v)), Move(t, Advance), Move(t, Advance), Move(t, Advance), Move(t, Advance),
            Move(t, Advance)]
    ensures s' == Exec(s, run) && Inv(s')
    ensures s'.pcs == s.pcs && s'.enq == s.enq + 1 && s'.deq == s.deq && s'.returned == s.returned
    ensures s'.pushed == s.pushed + [v] && s'.pusher == s.pusher + [t] && Published(s', s.enq) && Data(s', s.enq) == v
  {
    TailIsFree(s);
    var s1;
    run, s1 := ThenPushClaims(s, [], s, t, v);
    run, s' := ThenPushFinishes(s, run, s1, t);
    EveryRunKeepsInv(s, run);
    PcTwice(s, t, PushWrite(v, s.enq), Idle);
    assert s'.pcs == s.pcs;
  }

  lemma TailIsFree<T>(s: State<T>)
    requires Inv(s) && (s.enq < s.size || s.enq - s.size in s.returned)
    ensures Sequence(s, s.enq) == s.enq && s.enq < s.deq + s.size
  {
    TailLagsIffOccupied(s);
    assert s.enq < s.deq + s.size;
    assert CellOk(s, s.enq);
  }

  /** What one thread pushes into an empty queue, another one takes out. */
  lemma PushThenTake<T>(s: State<T>, t: Tid, u: Tid, v: T) returns (run: seq<Move<T>>)
    requires Inv(s) && t in s.pcs && s.pcs[t].Idle? && u in s.pcs && s.pcs[u].Idle? && s.deq == s.enq
    requires s.enq < s.size || s.enq - s.size in s.returned
    ensures var s' := Exec(s, run);
              s'.deq == s'.enq == s.enq + 1 && s'.pcs == s.pcs && s'.returned == s.returned[s.enq := v]
  {
    hide CellOk, PcOk, TakenOk, Step;
    var first, s1 := PushGetsTheTail(s, t, v);
    var second, s2 := TakeGetsTheHead(s1, u);
    run := first + second;
    ExecTwice(s, first, second);
  }

  lemma {:induction false} ExecTwice<T>(s: State<T>, run: seq<Move<T>>, more: seq<Move<T>>)
    requires WellFormed(s)
    ensures Exec(s, run + more) == Exec(Exec(s, run), more)
  {
    hide Step;
    if more == [] {
      assert run + more == run;
    } else {
      var last := |more| - 1;
      assert (run + more)[..|run + more| - 1] == run + more[..last];
      ExecTwice(s, run, more[..last]);
    }
  }

  // ---------------------------------------------------------------- operations among others

  ghost predicate WithoutMovesOf<T>(run: seq<Move<T>>, t: Tid) { forall k | 0 <= k < |run| :: run[k].t != t }

  predicate Taking<T>(pc: Pc<T>) { pc.TakeLoad? || pc.TakeSeq? || pc.TakeCas? || pc.TakeRead? || pc.TakeRelease? }

  lemma TakingStep<T>(s: State<T>, t: Tid, u: Tid)
    requires WellFormed(s) && u != t && t in s.pcs && u in s.pcs && Taking(s.pcs[u])
    ensures var s' := AdvanceThread(s, u); t in s'.pcs && s'.pcs[t] == s.pcs[t] && s'.deq >= s.deq && s'.enq >= s.enq
  {
  }

  lemma PushingStep<T>(s: State<T>, t: Tid, u: Tid)
    requires WellFormed(s) && u != t && t in s.pcs && u in s.pcs && !Taking(s.pcs[u])
    ensures var s' := AdvanceThread(s, u); t in s'.pcs && s'.pcs[t] == s.pcs[t] && s'.deq >= s.deq && s'.enq >= s.enq
  {
  }

  lemma OthersStep<T>(s: State<T>, t: Tid, u: Tid, c: Choice<T>)
    requires WellFormed(s) && u != t && t in s.pcs
    ensures t in Step(s, u, c).pcs && Step(s, u, c).pcs[t] == s.pcs[t]
    ensures Step(s, u, c).deq >= s.deq && Step(s, u, c).enq >= s.enq
  {
    hide AdvanceThread;
    if u in s.pcs {
      if Taking(s.pcs[u]) { TakingStep(s, t, u); } else { PushingStep(s, t, u); }
    }
  }

  /** Others do not move a thread, and positions only grow. */
  lemma {:induction false} Meanwhile<T>(s: State<T>, run: seq<Move<T>>, t: Tid)
    requires WellFormed(s) && t in s.pcs && WithoutMovesOf(run, t)
    ensures var r := Exec(s, run); t in r.pcs && r.pcs[t] == s.pcs[t] && r.deq >= s.deq && r.enq >= s.enq
  {
    hide Step;
    if run != [] {
      var last := |run| - 1;
      Meanwhile(s, run[..last], t);
      OthersStep(Exec(s, run[..last]), t, run[last].t, run[last].c);
    }
  }

  /** Where a probe leads, exactly: at the current head to the compare-and-swap if the head is published and out
      of the call if not; at an older position to another attempt, never out of the call. */
  lemma ProbeOutcome<T>(s: State<T>, t: Tid, pos: nat)
    requires Inv(s) && t in s.pcs && s.pcs[t] == TakeSeq(pos)
    ensures pos <= s.deq
    ensures pos == s.deq && s.deq < s.enq && Sequence(s, s.deq) == s.deq + 1 ==>
              Step(s, t, Advance) == SetPc(s, t, TakeCas(s.deq))
    ensures pos == s.deq && !(s.deq < s.enq && Sequence(s, s.deq) == s.deq + 1)
            ==> Step(s, t, Advance) == SetPc(s, t, Idle)
    ensures pos < s.deq ==> Step(s, t, Advance) in {SetPc(s, t, TakeCas(pos)), SetPc(s, t, TakeLoad)}
  {
    assert PcOk(s, t);
    if pos < s.deq { StaleTakeSeesLargerSequence(s, pos); } else { assert CellOk(s, pos); }
  }

  /** A take that has found the head published claims it whatever others do before its compare-and-swap, unless
      one of them has claimed it; then it looks at the new head. */
  lemma SwapFailsIffOvertaken<T>(s: State<T>, run: seq<Move<T>>, t: Tid)
    requires Inv(s) && t in s.pcs && s.pcs[t] == TakeCas(s.deq) && WithoutMovesOf(run, t)
    ensures var r := Exec(s, run);
            && t in r.pcs && r.deq >= s.deq
            && Step(r, t, Advance) ==
                 if r.deq == s.deq then SetPc(r, t, TakeRead(s.deq)).(deq := s.deq + 1, taker := r.taker + [t])
                 else SetPc(r, t, TakeSeq(r.deq))
  {
    Meanwhile(s, run, t);
  }

  /** After the claim the take ends with its own next two steps, whatever others do in between, and returns the
      value that was pushed at the position it claimed. */
  lemma ClaimedTakeReturns<T>(s: State<T>, between: seq<Move<T>>, later: seq<Move<T>>, t: Tid, pos: nat)
    requires Inv(s) && t in s.pcs && s.pcs[t] == TakeRead(pos) && WithoutMovesOf(between, t) && WithoutMovesOf(later, t)
    ensures pos < s.deq <= s.enq == |s.pushed|
    ensures var r := Exec(s, between + [Move(t, Advance)] + later + [Move(t, Advance)]);
            t in r.pcs && r.pcs[t].Idle? && pos in r.returned && r.returned[pos] == s.pushed[pos]
  {
    assert PcOk(s, t);
    var first, second := between + [Move(t, Advance)], later + [Move(t, Advance)];
    assert first + second == between + [Move(t, Advance)] + later + [Move(t, Advance)];
    var a, b := Exec(s, between), Exec(s, first);
    assert first[..|between|] == between && second[..|later|] == later;
    EveryRunKeepsInv(s, between);
    EveryRunKeepsInv(s, first);
    var c := Exec(b, later);
    EveryRunKeepsInv(b, later);
    hide Inv, Step;
    Meanwhile(s, between, t);
    ReadStep(a, t, pos);
    Meanwhile(b, later, t);
    ReleaseStep(c, t, pos);
    ExecTwice(s, first, second);
    RunHistoryGrows(s, first + later, 0);
    ExecTwice(s, first, later);
    assert (first + later)[..0] == [] && Exec(s, []) == s;
  }

  lemma ReadStep<T>(s: State<T>, t: Tid, pos: nat)
    requires Inv(s) && t in s.pcs && s.pcs[t] == TakeRead(pos)
    ensures var s' := Step(s, t, Advance); t in s'.pcs && s'.pcs[t].TakeRelease? && s'.pcs[t].pos == pos
  {
  }

  lemma ReleaseStep<T>(s: State<T>, t: Tid, pos: nat)
    requires Inv(s) && t in s.pcs && s.pcs[t].TakeRelease? && s.pcs[t].pos == pos
    ensures pos < |s.pushed|
    ensures var s' := Step(s, t, Advance);
              t in s'.pcs && s'.pcs[t].Idle? && pos in s'.returned && s'.returned[pos] == s.pushed[pos]
  {
    assert PcOk(s, t);
  }
}

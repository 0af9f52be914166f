/** The bounded multi-producer/multi-consumer ring of include/queue.h.

    Any number of threads run `push` and `take`.  Each atomic load, compare-and-swap, plain data
    access and store is one step; a run is driven by an arbitrary schedule.  `pushed`, `pusher`,
    `taker` and `returned` are history variables: they record which operation claimed each position
    and what each take returned, and no step reads them. */
module RequestQueue {

  type Tid = nat

  datatype Cell<T> = Cell(sequence: int, data: T)

  /** Where a thread stands inside `push` or `take`. */
  datatype Pc<T> =
    | Idle
    | PushLoad(v: T)
    | PushSeq(v: T, pos: nat)
    | PushCas(v: T, pos: nat)
    | PushWrite(v: T, pos: nat)
    | PushPublish(v: T, pos: nat)
    | TakeLoad
    | TakeSeq(pos: nat)
    | TakeCas(pos: nat)
    | TakeRead(pos: nat)
    | TakeRelease(pos: nat, got: T)

  datatype State<T> = State(
    size: nat,
    cells: seq<Cell<T>>,
    enq: nat,
    deq: nat,
    pcs: map<Tid, Pc<T>>,
    pushed: seq<T>,
    pusher: seq<Tid>,
    taker: seq<Tid>,
    returned: map<nat, T>)

  /** What the scheduler makes a thread do: start an operation, execute its next atomic action, or
      (at a weak compare-and-swap) fail spuriously. */
  datatype Choice<T> = BeginPush(v: T) | BeginTake | Advance | SpuriousFail

  /** The cell of position `p`: what is left after whole laps of the ring. */
  function Slot(p: nat, size: nat): (i: nat)
    requires size > 0
    ensures i < size
    decreases p
  {
    if p < size then p else Slot(p - size, size)
  }

  function Init<T>(size: nat, fill: T, threads: set<Tid>): State<T> {
    State(size, seq(size, i => Cell(i, fill)), 0, 0, map t | t in threads :: Idle, [], [], [], map[])
  }

  predicate WellFormed<T>(s: State<T>) {
    s.size >= 2 && |s.cells| == s.size
  }

  function SetPc<T>(s: State<T>, t: Tid, pc: Pc<T>): State<T> {
    s.(pcs := s.pcs[t := pc])
  }

  function Sequence<T>(s: State<T>, p: nat): int
    requires WellFormed(s)
  {
    s.cells[Slot(p, s.size)].sequence
  }

  function Data<T>(s: State<T>, p: nat): T
    requires WellFormed(s)
  {
    s.cells[Slot(p, s.size)].data
  }

  function SetCell<T>(s: State<T>, p: nat, c: Cell<T>): State<T>
    requires WellFormed(s)
  {
    s.(cells := s.cells[Slot(p, s.size) := c])
  }

  /** Loads the sequence of the cell at `pos` inside `push` and branches on the difference. */
  function PushProbe<T>(s: State<T>, t: Tid, v: T, pos: nat): State<T>
    requires WellFormed(s)
  {
    var dif := Sequence(s, pos) - pos;
    if dif == 0 then SetPc(s, t, PushCas(v, pos))
    else if dif < 0 then s
    else SetPc(s, t, PushLoad(v))
  }

  function PushClaim<T>(s: State<T>, t: Tid, v: T, pos: nat): State<T> {
    if s.enq == pos then
      SetPc(s, t, PushWrite(v, pos)).(enq := pos + 1, pushed := s.pushed + [v], pusher := s.pusher + [t])
    else SetPc(s, t, PushSeq(v, s.enq))
  }

  /** Loads the sequence of the cell at `pos` inside `take`; a negative difference returns false. */
  function TakeProbe<T>(s: State<T>, t: Tid, pos: nat): State<T>
    requires WellFormed(s)
  {
    var dif := Sequence(s, pos) - (pos + 1);
    if dif == 0 then SetPc(s, t, TakeCas(pos))
    else if dif < 0 then SetPc(s, t, Idle)
    else SetPc(s, t, TakeLoad)
  }

  function TakeClaim<T>(s: State<T>, t: Tid, pos: nat): State<T> {
    if s.deq == pos then SetPc(s, t, TakeRead(pos)).(deq := pos + 1, taker := s.taker + [t])
    else SetPc(s, t, TakeSeq(s.deq))
  }

  function AdvanceThread<T>(s: State<T>, t: Tid): State<T>
    requires WellFormed(s) && t in s.pcs
  {
    match s.pcs[t]
    case Idle => s
    case PushLoad(v) => SetPc(s, t, PushSeq(v, s.enq))
    case PushSeq(v, pos) => PushProbe(s, t, v, pos)
    case PushCas(v, pos) => PushClaim(s, t, v, pos)
    case PushWrite(v, pos) => SetCell(SetPc(s, t, PushPublish(v, pos)), pos, Cell(Sequence(s, pos), v))
    case PushPublish(v, pos) => SetCell(SetPc(s, t, Idle), pos, Cell(pos + 1, Data(s, pos)))
    case TakeLoad => SetPc(s, t, TakeSeq(s.deq))
    case TakeSeq(pos) => TakeProbe(s, t, pos)
    case TakeCas(pos) => TakeClaim(s, t, pos)
    case TakeRead(pos) => SetPc(s, t, TakeRelease(pos, Data(s, pos)))
    case TakeRelease(pos, v) =>
      SetCell(SetPc(s, t, Idle), pos, Cell(pos + s.size, Data(s, pos))).(returned := s.returned[pos := v])
  }

  /** One atomic action of thread `t`; a choice that does not apply leaves the state unchanged. */
  function Step<T>(s: State<T>, t: Tid, c: Choice<T>): State<T>
    requires WellFormed(s)
  {
    if t !in s.pcs then s
    else match c
      case BeginPush(v) => if s.pcs[t].Idle? then SetPc(s, t, PushLoad(v)) else s
      case BeginTake => if s.pcs[t].Idle? then SetPc(s, t, TakeLoad) else s
      case Advance => AdvanceThread(s, t)
      case SpuriousFail =>
        match s.pcs[t]
        case PushCas(v, pos) => SetPc(s, t, PushSeq(v, s.enq))
        case TakeCas(pos) => SetPc(s, t, TakeSeq(s.deq))
        case _ => s
  }

  // ---------------------------------------------------------------- the global invariant

  predicate PushOwns<T>(pc: Pc<T>, p: nat) {
    (pc.PushWrite? || pc.PushPublish?) && pc.pos == p
  }

  predicate TakeOwns<T>(pc: Pc<T>, p: nat) {
    (pc.TakeRead? || pc.TakeRelease?) && pc.pos == p
  }

  predicate Shape<T>(s: State<T>) {
    && WellFormed(s)
    && s.deq <= s.enq <= s.deq + s.size
    && |s.pushed| == |s.pusher| == s.enq
    && |s.taker| == s.deq
  }

  /** The push that claimed position `p` has stored its data and published the cell. */
  predicate Published<T>(s: State<T>, p: nat)
    requires Shape(s) && s.deq <= p < s.enq
  {
    Sequence(s, p) == p + 1
  }

  /** Every slot stands for exactly one position of the window [deq, deq + size). */
  ghost predicate CellOk<T>(s: State<T>, p: nat)
    requires Shape(s) && s.deq <= p < s.deq + s.size
  {
    if p < s.enq then
      || (Sequence(s, p) == p && s.pusher[p] in s.pcs && PushOwns(s.pcs[s.pusher[p]], p))
      || (Sequence(s, p) == p + 1 && Data(s, p) == s.pushed[p])
    else
      || Sequence(s, p) == p
      || (&& p >= s.size
          && Sequence(s, p) == p - s.size + 1
          && s.taker[p - s.size] in s.pcs
          && TakeOwns(s.pcs[s.taker[p - s.size]], p - s.size))
  }

  ghost predicate PcOk<T>(s: State<T>, t: Tid)
    requires Shape(s) && t in s.pcs
  {
    match s.pcs[t]
    case Idle => true
    case PushLoad(_) => true
    case PushSeq(_, pos) => pos <= s.enq
    case PushCas(_, pos) =>
      pos <= s.enq && (pos == s.enq ==> s.enq < s.deq + s.size && Sequence(s, pos) == pos)
    case PushWrite(v, pos) =>
      s.deq <= pos < s.enq && s.pusher[pos] == t && s.pushed[pos] == v && Sequence(s, pos) == pos
    case PushPublish(v, pos) =>
      s.deq <= pos < s.enq && s.pusher[pos] == t && s.pushed[pos] == v && Sequence(s, pos) == pos && Data(s, pos) == v
    case TakeLoad => true
    case TakeSeq(pos) => pos <= s.deq
    case TakeCas(pos) =>
      pos <= s.deq && (pos == s.deq ==> s.deq < s.enq && Sequence(s, pos) == pos + 1)
    case TakeRead(pos) =>
      pos < s.deq && s.enq <= pos + s.size && s.taker[pos] == t && Sequence(s, pos) == pos + 1
          && Data(s, pos) == s.pushed[pos]
    case TakeRelease(pos, v) =>
      pos < s.deq && s.enq <= pos + s.size && s.taker[pos] == t && Sequence(s, pos) == pos + 1 && v == s.pushed[pos]
  }

  /** A position claimed by a take has either been returned or is still held by its taker. */
  ghost predicate TakenOk<T>(s: State<T>, p: nat)
    requires Shape(s) && p < s.deq
  {
    if p in s.returned then s.returned[p] == s.pushed[p]
    else s.taker[p] in s.pcs && TakeOwns(s.pcs[s.taker[p]], p)
  }

  ghost predicate Inv<T>(s: State<T>) {
    && Shape(s)
    && (forall p: nat | s.deq <= p < s.deq + s.size :: CellOk(s, p))
    && (forall t | t in s.pcs :: PcOk(s, t))
    && (forall p: nat | p < s.deq :: TakenOk(s, p))
    && (forall p | p in s.returned :: p < s.deq)
    && (forall t | t in s.pcs :: s.pcs[t].TakeRead? || s.pcs[t].TakeRelease? ==> s.pcs[t].pos !in s.returned)
  }

  // ---------------------------------------------------------------- slot arithmetic

  lemma {:induction false} SlotsDistinct(a: nat, b: nat, size: nat)
    requires size > 0 && a < b < a + size
    ensures Slot(a, size) != Slot(b, size)
    decreases b
  {
    if a >= size {
      SlotsDistinct(a - size, b - size, size);
    } else if b >= size {
      assert Slot(b, size) == b - size;
    }
  }

  lemma SlotShift(a: nat, size: nat)
    requires size > 0
    ensures Slot(a + size, size) == Slot(a, size)
  {
  }

  /** The window position that shares the slot of an older position `a`. */
  lemma WindowPosition(a: nat, lo: nat, size: nat) returns (p: nat)
    requires size > 0 && a < lo
    ensures lo <= p < lo + size && a + size <= p
    ensures Slot(p, size) == Slot(a, size)
  {
    p := a + size;
    SlotShift(a, size);
    while p < lo
      invariant a + size <= p && Slot(p, size) == Slot(a, size)
      invariant p < lo + size
    {
      SlotShift(p, size);
      p := p + size;
    }
  }

  /** Within the window, writing the cell of `a` leaves the cell of every other position alone. */
  lemma OtherCells<T>(s: State<T>, a: nat, c: Cell<T>, lo: nat)
    requires WellFormed(s) && lo <= a < lo + s.size
    ensures forall p: nat | lo <= p < lo + s.size && p != a ::
              Sequence(SetCell(s, a, c), p) == Sequence(s, p) && Data(SetCell(s, a, c), p) == Data(s, p)
  {
    forall p: nat | lo <= p < lo + s.size && p != a
      ensures Slot(p, s.size) != Slot(a, s.size)
    {
      if p < a { SlotsDistinct(p, a, s.size); } else { SlotsDistinct(a, p, s.size); }
    }
  }

  // ---------------------------------------------------------------- every step keeps the invariant

  /** Moving one thread between two program points that own no position. */
  lemma PcMoveKeepsInv<T>(s: State<T>, t: Tid, pc: Pc<T>)
    requires Inv(s) && t in s.pcs
    requires forall p: nat :: !PushOwns(s.pcs[t], p) && !TakeOwns(s.pcs[t], p)
    requires !pc.TakeRead? && !pc.TakeRelease? && PcOk(SetPc(s, t, pc), t)
    ensures Inv(SetPc(s, t, pc))
  {
    var s' := SetPc(s, t, pc);
    forall p: nat | s'.deq <= p < s'.deq + s'.size ensures CellOk(s', p) { assert CellOk(s, p); }
    forall u | u in s'.pcs ensures PcOk(s', u) { assert u != t ==> PcOk(s, u); }
    forall p: nat | p < s'.deq ensures TakenOk(s', p) { assert TakenOk(s, p); }
  }

  lemma PushProbeKeepsInv<T>(s: State<T>, t: Tid, v: T, pos: nat)
    requires Inv(s) && t in s.pcs && s.pcs[t] == PushSeq(v, pos)
    ensures Inv(PushProbe(s, t, v, pos))
  {
    assert PcOk(s, t);
    SlotShift(s.deq, s.size);
    assert CellOk(s, s.deq);
    if Sequence(s, pos) == pos {
      PcMoveKeepsInv(s, t, PushCas(v, pos));
    } else if Sequence(s, pos) > pos {
      PcMoveKeepsInv(s, t, PushLoad(v));
    }
  }

  /** A `take` whose probe sees a sequence below pos + 1 is looking at the head position. */
  lemma StaleTakeSeesLargerSequence<T>(s: State<T>, pos: nat)
    requires Inv(s) && pos < s.deq
    ensures Sequence(s, pos) >= pos + 1
  {
    var p := WindowPosition(pos, s.deq, s.size);
    assert CellOk(s, p);
  }

  lemma TakeProbeKeepsInv<T>(s: State<T>, t: Tid, pos: nat)
    requires Inv(s) && t in s.pcs && s.pcs[t] == TakeSeq(pos)
    ensures Inv(TakeProbe(s, t, pos))
  {
    assert PcOk(s, t);
    if Sequence(s, pos) == pos + 1 {
      if pos == s.deq { assert CellOk(s, pos); }
      PcMoveKeepsInv(s, t, TakeCas(pos));
    } else if Sequence(s, pos) < pos + 1 {
      PcMoveKeepsInv(s, t, Idle);
    } else {
      PcMoveKeepsInv(s, t, TakeLoad);
    }
  }

  /** The compare-and-swap of a push succeeds. */
  ghost predicate Claims<T>(s: State<T>, t: Tid, v: T) {
    Shape(s) && t in s.pcs && s.pcs[t] == PushCas(v, s.enq) && s.enq < s.deq + s.size && Sequence(s, s.enq) == s.enq
  }

  lemma PushClaimCell<T>(s: State<T>, t: Tid, v: T, p: nat)
    requires Claims(s, t, v) && s.deq <= p < s.deq + s.size && CellOk(s, p)
    ensures Shape(PushClaim(s, t, v, s.enq)) && CellOk(PushClaim(s, t, v, s.enq), p)
  {
  }

  lemma PushClaimPc<T>(s: State<T>, t: Tid, v: T, u: Tid)
    requires Claims(s, t, v) && u in s.pcs && PcOk(s, u)
    ensures Shape(PushClaim(s, t, v, s.enq)) && PcOk(PushClaim(s, t, v, s.enq), u)
  {
    if u != t && (s.pcs[u].TakeRead? || s.pcs[u].TakeRelease?) && s.enq == s.pcs[u].pos + s.size {
      SlotShift(s.pcs[u].pos, s.size);
    }
  }

  lemma PushClaimKeepsInv<T>(s: State<T>, t: Tid, v: T, pos: nat)
    requires Inv(s) && t in s.pcs && s.pcs[t] == PushCas(v, pos)
    ensures Inv(PushClaim(s, t, v, pos))
  {
    hide CellOk;
    var s' := PushClaim(s, t, v, pos);
    assert PcOk(s, t);
    if s.enq != pos {
      PcMoveKeepsInv(s, t, PushSeq(v, s.enq));
    } else {
      forall p: nat | s'.deq <= p < s'.deq + s'.size ensures CellOk(s', p) { PushClaimCell(s, t, v, p); }
      forall u | u in s'.pcs ensures PcOk(s', u) { PushClaimPc(s, t, v, u); }
      forall p: nat | p < s'.deq ensures TakenOk(s', p) { assert TakenOk(s, p); }
    }
  }

  /** The compare-and-swap of a take succeeds. */
  ghost predicate Takes<T>(s: State<T>, t: Tid) {
    Shape(s) && t in s.pcs && s.pcs[t] == TakeCas(s.deq) && s.deq < s.enq && Sequence(s, s.deq) == s.deq + 1
  }

  lemma TakeClaimCell<T>(s: State<T>, t: Tid, p: nat)
    requires Takes(s, t) && s.deq + 1 <= p < s.deq + 1 + s.size && (p < s.deq + s.size ==> CellOk(s, p))
    ensures Shape(TakeClaim(s, t, s.deq)) && CellOk(TakeClaim(s, t, s.deq), p)
  {
    SlotShift(s.deq, s.size);
  }

  lemma TakeClaimPc<T>(s: State<T>, t: Tid, u: Tid)
    requires Takes(s, t) && CellOk(s, s.deq) && u in s.pcs && PcOk(s, u)
    ensures Shape(TakeClaim(s, t, s.deq)) && PcOk(TakeClaim(s, t, s.deq), u)
  {
  }

  lemma TakeClaimKeepsInv<T>(s: State<T>, t: Tid, pos: nat)
    requires Inv(s) && t in s.pcs && s.pcs[t] == TakeCas(pos)
    ensures Inv(TakeClaim(s, t, pos))
  {
    hide CellOk;
    var s' := TakeClaim(s, t, pos);
    assert PcOk(s, t);
    if s.deq != pos {
      PcMoveKeepsInv(s, t, TakeSeq(s.deq));
    } else {
      forall p: nat | s'.deq <= p < s'.deq + s'.size ensures CellOk(s', p) { TakeClaimCell(s, t, p); }
      forall u | u in s'.pcs ensures PcOk(s', u) { TakeClaimPc(s, t, u); }
      forall p: nat | p < s'.deq ensures TakenOk(s', p) { assert p < s.deq ==> TakenOk(s, p); }
    }
  }

  /** A thread that owns no cell of `s`'s window at `a` does not notice a write to that cell. */
  lemma CellWriteKeepsOthers<T>(s: State<T>, s': State<T>, a: nat, c: Cell<T>, u: Tid)
    requires Inv(s) && u in s.pcs && Shape(s') && s' == SetCell(s, a, c).(pcs := s'.pcs, returned := s'.returned)
    requires u in s'.pcs && s'.pcs[u] == s.pcs[u]
    requires s.deq <= a < s.deq + s.size
    requires !PushOwns(s.pcs[u], a) && (a >= s.size ==> !TakeOwns(s.pcs[u], a - s.size))
    requires s.pcs[u].TakeCas? && s.pcs[u].pos == a ==> s.deq < a
    requires s.pcs[u].PushCas? && s.pcs[u].pos == a ==> s.enq > a
    ensures PcOk(s', u)
  {
    assert PcOk(s, u);
    OtherCells(s, a, c, s.deq);
    var pc := s.pcs[u];
    if pc.TakeRead? || pc.TakeRelease? {
      SlotShift(pc.pos, s.size);
      assert Sequence(s, pc.pos + s.size) == Sequence(s, pc.pos);
      assert Sequence(s', pc.pos + s.size) == Sequence(s', pc.pos);
      assert Data(s, pc.pos + s.size) == Data(s, pc.pos);
      assert Data(s', pc.pos + s.size) == Data(s', pc.pos);
    }
  }

  /** The cells of the other window positions survive a write by the owner of position `a`. */
  lemma CellWriteKeepsCell<T>(s: State<T>, s': State<T>, a: nat, c: Cell<T>, t: Tid, p: nat)
    requires Inv(s) && t in s.pcs && Shape(s')
    requires t in s'.pcs && s' == SetCell(s, a, c).(pcs := s.pcs[t := s'.pcs[t]], returned := s'.returned)
    requires s.deq <= a < s.deq + s.size && s.deq <= p < s.deq + s.size && p != a
    requires PushOwns(s.pcs[t], a) || (a >= s.size && TakeOwns(s.pcs[t], a - s.size))
    ensures CellOk(s', p)
  {
    assert CellOk(s, p);
    OtherCells(s, a, c, s.deq);
  }

  lemma PushWriteKeepsInv<T>(s: State<T>, t: Tid, v: T, pos: nat)
    requires Inv(s) && t in s.pcs && s.pcs[t] == PushWrite(v, pos)
    ensures Inv(AdvanceThread(s, t))
  {
    var s' := AdvanceThread(s, t);
    var c := Cell(Sequence(s, pos), v);
    assert PcOk(s, t);
    forall p: nat | s'.deq <= p < s'.deq + s'.size ensures CellOk(s', p) {
      if p != pos { CellWriteKeepsCell(s, s', pos, c, t, p); }
    }
    forall u | u in s'.pcs ensures PcOk(s', u) {
      assert PcOk(s, u);
      if u != t { CellWriteKeepsOthers(s, s', pos, c, u); }
    }
    forall p: nat | p < s'.deq ensures TakenOk(s', p) { assert TakenOk(s, p); }
  }

  lemma PushPublishKeepsInv<T>(s: State<T>, t: Tid, v: T, pos: nat)
    requires Inv(s) && t in s.pcs && s.pcs[t] == PushPublish(v, pos)
    ensures Inv(AdvanceThread(s, t))
  {
    var s' := AdvanceThread(s, t);
    var c := Cell(pos + 1, Data(s, pos));
    assert PcOk(s, t);
    forall p: nat | s'.deq <= p < s'.deq + s'.size ensures CellOk(s', p) {
      if p != pos { CellWriteKeepsCell(s, s', pos, c, t, p); }
    }
    forall u | u in s'.pcs ensures PcOk(s', u) {
      assert PcOk(s, u);
      if u != t { CellWriteKeepsOthers(s, s', pos, c, u); }
    }
    forall p: nat | p < s'.deq ensures TakenOk(s', p) { assert TakenOk(s, p); }
  }

  lemma TakeReadKeepsInv<T>(s: State<T>, t: Tid, pos: nat)
    requires Inv(s) && t in s.pcs && s.pcs[t] == TakeRead(pos)
    ensures Inv(AdvanceThread(s, t))
  {
    var s' := AdvanceThread(s, t);
    assert PcOk(s, t);
    forall p: nat | s'.deq <= p < s'.deq + s'.size ensures CellOk(s', p) { assert CellOk(s, p); }
    forall u | u in s'.pcs ensures PcOk(s', u) { assert PcOk(s, u); }
    forall p: nat | p < s'.deq ensures TakenOk(s', p) { assert TakenOk(s, p); }
  }

  /** Releasing position `pos` hands its cell to position pos + size. */
  lemma ReleaseIsWriteAtNextLap<T>(s: State<T>, t: Tid, pos: nat, v: T)
    requires Inv(s) && t in s.pcs && s.pcs[t] == TakeRelease(pos, v)
    ensures var s' := AdvanceThread(s, t);
            var a := pos + s.size;
            && Shape(s') && s.deq <= a < s.deq + s.size && s.enq <= a
            && s' == SetCell(s, a, Cell(a, Data(s, pos))).(pcs := s.pcs[t := Idle], returned := s.returned[pos := v])
            && Sequence(s', a) == a
  {
    assert PcOk(s, t);
    SlotShift(pos, s.size);
  }

  lemma TakeReleaseKeepsInv<T>(s: State<T>, t: Tid, pos: nat, v: T)
    requires Inv(s) && t in s.pcs && s.pcs[t] == TakeRelease(pos, v)
    ensures Inv(AdvanceThread(s, t))
  {
    var s' := AdvanceThread(s, t);
    assert PcOk(s, t);
    var a := pos + s.size;
    var c := Cell(a, Data(s, pos));
    ReleaseIsWriteAtNextLap(s, t, pos, v);
    forall p: nat | s'.deq <= p < s'.deq + s'.size ensures CellOk(s', p) {
      if p != a { CellWriteKeepsCell(s, s', a, c, t, p); }
    }
    forall u | u in s'.pcs ensures PcOk(s', u) {
      assert PcOk(s, u);
      if u != t { CellWriteKeepsOthers(s, s', a, c, u); }
    }
    forall p: nat | p < s'.deq ensures TakenOk(s', p) { assert TakenOk(s, p); }
  }

  lemma AdvanceKeepsInv<T>(s: State<T>, t: Tid)
    requires Inv(s) && t in s.pcs
    ensures Inv(AdvanceThread(s, t))
  {
    match s.pcs[t]
    case Idle =>
    case PushLoad(v) => PcMoveKeepsInv(s, t, PushSeq(v, s.enq));
    case PushSeq(v, pos) => PushProbeKeepsInv(s, t, v, pos);
    case PushCas(v, pos) => PushClaimKeepsInv(s, t, v, pos);
    case PushWrite(v, pos) => PushWriteKeepsInv(s, t, v, pos);
    case PushPublish(v, pos) => PushPublishKeepsInv(s, t, v, pos);
    case TakeLoad => PcMoveKeepsInv(s, t, TakeSeq(s.deq));
    case TakeSeq(pos) => TakeProbeKeepsInv(s, t, pos);
    case TakeCas(pos) => TakeClaimKeepsInv(s, t, pos);
    case TakeRead(pos) => TakeReadKeepsInv(s, t, pos);
    case TakeRelease(pos, v) => TakeReleaseKeepsInv(s, t, pos, v);
  }

  lemma StepKeepsInv<T>(s: State<T>, t: Tid, c: Choice<T>)
    requires Inv(s)
    ensures Inv(Step(s, t, c))
  {
    if t in s.pcs {
      match c
      case BeginPush(v) => if s.pcs[t].Idle? { PcMoveKeepsInv(s, t, PushLoad(v)); }
      case BeginTake => if s.pcs[t].Idle? { PcMoveKeepsInv(s, t, TakeLoad); }
      case Advance => AdvanceKeepsInv(s, t);
      case SpuriousFail =>
        if s.pcs[t].PushCas? {
          PcMoveKeepsInv(s, t, PushSeq(s.pcs[t].v, s.enq));
        } else if s.pcs[t].TakeCas? {
          PcMoveKeepsInv(s, t, TakeSeq(s.deq));
        }
    }
  }

  // ---------------------------------------------------------------- whole runs

  datatype Move<T> = Move(t: Tid, c: Choice<T>)

  function Exec<T>(s: State<T>, run: seq<Move<T>>): (r: State<T>)
    requires WellFormed(s)
    ensures WellFormed(r) && r.size == s.size
  {
    if run == [] then s
    else
      var m := run[|run| - 1];
      Step(Exec(s, run[..|run| - 1]), m.t, m.c)
  }

  lemma InitInv<T>(size: nat, fill: T, threads: set<Tid>)
    requires size >= 2
    ensures Inv(Init(size, fill, threads))
  {
    var s := Init(size, fill, threads);
    forall p: nat | p < size ensures CellOk(s, p) { assert Slot(p, size) == p; }
  }

  lemma {:induction false} EveryRunKeepsInv<T>(s: State<T>, run: seq<Move<T>>)
    requires Inv(s)
    ensures Inv(Exec(s, run))
  {
    if run != [] {
      EveryRunKeepsInv(s, run[..|run| - 1]);
      StepKeepsInv(Exec(s, run[..|run| - 1]), run[|run| - 1].t, run[|run| - 1].c);
    }
  }

  /** A position, once claimed, keeps its pusher, its value, its taker and its result for ever. */
  ghost predicate HistoryGrows<T>(a: State<T>, b: State<T>) {
    && a.pushed <= b.pushed && a.pusher <= b.pusher && a.taker <= b.taker
    && (forall p | p in a.returned :: p in b.returned && b.returned[p] == a.returned[p])
  }

  lemma StepHistoryGrows<T>(s: State<T>, t: Tid, c: Choice<T>)
    requires WellFormed(s)
    requires t in s.pcs && s.pcs[t].TakeRelease? ==> s.pcs[t].pos !in s.returned
    ensures HistoryGrows(s, Step(s, t, c))
  {
  }

  lemma {:induction false} RunHistoryGrows<T>(s: State<T>, run: seq<Move<T>>, k: nat)
    requires Inv(s) && k <= |run|
    ensures HistoryGrows(Exec(s, run[..k]), Exec(s, run))
  {
    if k == |run| {
      assert run[..k] == run;
    } else {
      var shorter := run[..|run| - 1];
      assert shorter[..k] == run[..k];
      RunHistoryGrows(s, shorter, k);
      EveryRunKeepsInv(s, shorter);
      StepHistoryGrows(Exec(s, shorter), run[|run| - 1].t, run[|run| - 1].c);
    }
  }

  /** The queue property of the ring, over every run: bounds, one pusher and at most one taker per
      position, the take at position p returns what was pushed at p, and every pushed value is in
      exactly one place: returned, held by its taker, or still queued. */
  lemma EveryRunIsAQueue<T>(size: nat, fill: T, threads: set<Tid>, run: seq<Move<T>>)
    requires size >= 2
    ensures var s := Exec(Init(size, fill, threads), run);
            && s.deq <= s.enq <= s.deq + size
            && |s.pushed| == |s.pusher| == s.enq && |s.taker| == s.deq
            && (forall p | p in s.returned :: p < s.deq && s.returned[p] == s.pushed[p])
            && (forall p: nat | p < s.enq ::
                  p in s.returned <==> p < s.deq && !(s.taker[p] in s.pcs && TakeOwns(s.pcs[s.taker[p]], p)))
            && (forall t, p: nat | t in s.pcs && PushOwns(s.pcs[t], p) :: p < s.enq && s.pusher[p] == t)
            && (forall t, p: nat | t in s.pcs && TakeOwns(s.pcs[t], p) :: p < s.deq && s.taker[p] == t)
  {
    InitInv(size, fill, threads);
    EveryRunKeepsInv(Init(size, fill, threads), run);
    var s := Exec(Init(size, fill, threads), run);
    forall p | p in s.returned ensures s.returned[p] == s.pushed[p] { assert TakenOk(s, p); }
    forall t | t in s.pcs ensures forall p: nat | PushOwns(s.pcs[t], p) :: p < s.enq && s.pusher[p] == t {
      assert PcOk(s, t);
    }
    forall t | t in s.pcs ensures forall p: nat | TakeOwns(s.pcs[t], p) :: p < s.deq && s.taker[p] == t {
      assert PcOk(s, t);
    }
    forall p: nat | p < s.enq
      ensures p in s.returned <==> p < s.deq && !(s.taker[p] in s.pcs && TakeOwns(s.pcs[s.taker[p]], p))
    {
      if p < s.deq { assert TakenOk(s, p); }
    }
  }

  predicate Touches<T>(pc: Pc<T>) {
    pc.PushWrite? || pc.PushPublish? || pc.TakeRead? || pc.TakeRelease?
  }

  /** No data race: two threads between claim and final store never share a cell. */
  lemma CellsAreExclusive<T>(s: State<T>, t: Tid, u: Tid)
    requires Inv(s) && t in s.pcs && u in s.pcs && t != u
    requires Touches(s.pcs[t]) && Touches(s.pcs[u])
    ensures Slot(s.pcs[t].pos, s.size) != Slot(s.pcs[u].pos, s.size)
  {
    assert PcOk(s, t) && PcOk(s, u);
    var p, q := s.pcs[t].pos, s.pcs[u].pos;
    var p' := if p < s.deq then p + s.size else p;
    var q' := if q < s.deq then q + s.size else q;
    SlotShift(p, s.size);
    SlotShift(q, s.size);
    if p' < q' {
      SlotsDistinct(p', q', s.size);
    } else if q' < p' {
      SlotsDistinct(q', p', s.size);
    }
  }

  /** The head position is empty or its push has not completed. */
  predicate HeadIncomplete<T>(s: State<T>)
    requires Shape(s)
  {
    s.deq == s.enq || !Published(s, s.deq)
  }

  /** A `take` that returns false read its cell at an instant when the head was incomplete, and a
      `take` that probes the current head at such an instant does return false. */
  lemma TakeFailsIffHeadIncomplete<T>(s: State<T>, t: Tid, pos: nat)
    requires Inv(s) && t in s.pcs && s.pcs[t] == TakeSeq(pos)
    ensures TakeProbe(s, t, pos).pcs[t].Idle? <==> pos == s.deq && HeadIncomplete(s)
  {
    assert PcOk(s, t);
    if pos < s.deq {
      StaleTakeSeesLargerSequence(s, pos);
    } else {
      assert CellOk(s, pos);
    }
  }

  /** The cell of the tail position lags behind exactly while its previous occupant is queued or read. */
  lemma TailLagsIffOccupied<T>(s: State<T>)
    requires Inv(s)
    ensures Sequence(s, s.enq) < s.enq <==> s.enq >= s.size && s.enq - s.size !in s.returned
  {
    var p := s.enq;
    if p == s.deq + s.size {
      SlotShift(s.deq, s.size);
      assert CellOk(s, s.deq);
    } else {
      assert CellOk(s, p);
      if p >= s.size {
        SlotShift(p - s.size, s.size);
        assert TakenOk(s, p - s.size);
        if p - s.size !in s.returned { assert PcOk(s, s.taker[p - s.size]); }
      }
    }
  }

  /** A `push` keeps spinning on its cell exactly when it looks at the current tail and the previous
      occupant of that cell is still queued or still being read. */
  lemma PushSpinsIffCellOccupied<T>(s: State<T>, t: Tid, v: T, pos: nat)
    requires Inv(s) && t in s.pcs && s.pcs[t] == PushSeq(v, pos)
    ensures PushProbe(s, t, v, pos) == s <==>
              pos == s.enq && pos >= s.size && pos - s.size !in s.returned
  {
    assert PcOk(s, t);
    assert PushProbe(s, t, v, pos) == s <==> Sequence(s, pos) < pos by {
      assert PushProbe(s, t, v, pos).pcs[t] == s.pcs[t] <==> Sequence(s, pos) < pos;
    }
    if pos < s.deq {
      StaleTakeSeesLargerSequence(s, pos);
    } else if pos < s.enq {
      assert CellOk(s, pos);
    } else {
      TailLagsIffOccupied(s);
    }
  }

  // ---------------------------------------------------------------- refinement of a bounded FIFO

  datatype Effect<T> = Internal | Enqueued(v: T) | Dequeued(v: T)

  /** The abstract queue: everything claimed by a push and not yet by a take. */
  function Contents<T>(s: State<T>): seq<T>
    requires Shape(s)
  {
    s.pushed[s.deq..s.enq]
  }

  /** A bounded FIFO of capacity `cap` moves from `a` to `b` with the given effect. */
  predicate FifoStep<T(==)>(cap: nat, a: seq<T>, b: seq<T>, e: Effect<T>) {
    match e
    case Internal => b == a
    case Enqueued(v) => |a| < cap && b == a + [v]
    case Dequeued(v) => a == [v] + b
  }

  /** The effect of a step: a successful claim enqueues or dequeues, everything else is internal. */
  function EffectOf<T>(s: State<T>, t: Tid, c: Choice<T>): Effect<T>
    requires Shape(s)
  {
    if t !in s.pcs || !c.Advance? then Internal
    else match s.pcs[t]
      case PushCas(v, pos) => if pos == s.enq then Enqueued(v) else Internal
      case TakeCas(pos) => if pos == s.deq < s.enq then Dequeued(s.pushed[pos]) else Internal
      case _ => Internal
  }

  lemma StepRefinesFifo<T>(s: State<T>, t: Tid, c: Choice<T>)
    requires Inv(s)
    ensures Inv(Step(s, t, c))
    ensures FifoStep(s.size, Contents(s), Contents(Step(s, t, c)), EffectOf(s, t, c))
  {
    StepKeepsInv(s, t, c);
    if t in s.pcs { assert PcOk(s, t); }
  }

  /** The value dequeued at a claim is the value that `take` later returns. */
  lemma DequeuedValueIsReturned<T>(s: State<T>, t: Tid, run: seq<Move<T>>)
    requires Inv(s) && EffectOf(s, t, Advance).Dequeued?
    ensures var r := Exec(Step(s, t, Advance), run);
            s.deq in r.returned ==> r.returned[s.deq] == EffectOf(s, t, Advance).v
  {
    var s1 := Step(s, t, Advance);
    StepKeepsInv(s, t, Advance);
    EveryRunKeepsInv(s1, run);
    RunHistoryGrows(s1, run, 0);
    var r := Exec(s1, run);
    assert s1.pushed <= r.pushed;
    if s.deq in r.returned { assert TakenOk(r, s.deq); }
  }

  /** Extends a run by one step. */
  lemma Then<T>(s0: State<T>, run: seq<Move<T>>, s: State<T>, t: Tid, c: Choice<T>)
      returns (run': seq<Move<T>>, s': State<T>)
    requires WellFormed(s0) && s == Exec(s0, run)
    ensures run' == run + [Move(t, c)] && s' == Step(s, t, c) == Exec(s0, run')
  {
    run', s' := run + [Move(t, c)], Step(s, t, c);
    assert run'[..|run'| - 1] == run;
  }

  /** An undisturbed push gets as far as claiming the tail. */
  lemma ThenPushClaims<T>(s0: State<T>, run: seq<Move<T>>, s: State<T>, t: Tid, v: T)
      returns (run': seq<Move<T>>, s': State<T>)
    requires WellFormed(s0) && s == Exec(s0, run)
    requires t in s.pcs && s.pcs[t].Idle? && Sequence(s, s.enq) == s.enq
    ensures s' == Exec(s0, run')
    ensures run' == run + [Move(t, BeginPush(v)), Move(t, Advance), Move(t, Advance), Move(t, Advance)]
    ensures s' == SetPc(s, t, PushWrite(v, s.enq)).(enq := s.enq + 1, pushed := s.pushed + [v],
            pusher := s.pusher + [t])
  {
    run', s' := Then(s0, run, s, t, BeginPush(v));
    run', s' := Then(s0, run', s', t, Advance);
    run', s' := Then(s0, run', s', t, Advance);
    run', s' := Then(s0, run', s', t, Advance);
    assert s'.pcs == s.pcs[t := PushWrite(v, s.enq)];
  }

  lemma ThenPushFinishes<T>(s0: State<T>, run: seq<Move<T>>, s: State<T>, t: Tid)
      returns (run': seq<Move<T>>, s': State<T>)
    requires WellFormed(s0) && s == Exec(s0, run)
    requires t in s.pcs && s.pcs[t].PushWrite?
    ensures s' == Exec(s0, run') && run' == run + [Move(t, Advance), Move(t, Advance)]
    ensures s' == SetCell(SetPc(s, t, Idle), s.pcs[t].pos, Cell(s.pcs[t].pos + 1, s.pcs[t].v))
  {
    run', s' := Then(s0, run, s, t, Advance);
    run', s' := Then(s0, run', s', t, Advance);
    assert s'.pcs == s.pcs[t := Idle];
  }

  lemma StalledPushRun() returns (run: seq<Move<int>>)
    ensures var s := Exec(Init(2, 0, {0, 1, 2}), run);
            && s.deq == 0 && s.enq == 2 && Sequence(s, 0) == 0 && Sequence(s, 1) == 2
            && 2 in s.pcs && s.pcs[2] == TakeSeq(0)
  {
    var s0 := Init(2, 0, {0, 1, 2});
    var s;
    run, s := ThenPushClaims(s0, [], s0, 0, 7);
    run, s := ThenPushClaims(s0, run, s, 1, 8);
    run, s := ThenPushFinishes(s0, run, s, 1);
    run, s := Then(s0, run, s, 2, BeginTake);
    run, s := Then(s0, run, s, 2, Advance);
  }

  /** Strict linearizability would be too much to ask: a push can have completed behind a stalled one
      and a take still returns false.  (`TakeFailsIffHeadIncomplete` is the exact condition.) */
  lemma TakeMayMissACompletedPush() returns (run: seq<Move<int>>)
    ensures var s := Exec(Init(2, 0, {0, 1, 2}), run);
            && Inv(s) && s.deq == 0 && s.enq == 2 && Published(s, 1)
            && 2 in s.pcs && s.pcs[2].TakeSeq? && TakeProbe(s, 2, s.pcs[2].pos).pcs[2].Idle?
  {
    run := StalledPushRun();
    InitInv(2, 0, {0, 1, 2});
    EveryRunKeepsInv(Init(2, 0, {0, 1, 2}), run);
  }

  // ---------------------------------------------------------------- the index mask

  /** Bitwise conjunction of two natural numbers. */
  function And(a: nat, b: nat): nat {
    if a == 0 || b == 0 then 0 else 2 * And(a / 2, b / 2) + (a % 2) * (b % 2)
  }

  lemma {:induction false} AndSelf(a: nat)
    ensures And(a, a) == a
  {
    if a != 0 { AndSelf(a / 2); }
  }

  lemma {:induction false} HalveSlot(p: nat, m: nat)
    requires m > 0
    ensures Slot(p, 2 * m) == 2 * Slot(p / 2, m) + p % 2
    decreases p
  {
    if p >= 2 * m {
      HalveSlot(p - 2 * m, m);
      assert (p - 2 * m) / 2 == p / 2 - m;
    }
  }

  /** The constructor's power-of-two assertion is what makes `pos & buffer_mask_` the slot of `pos`. */
  lemma {:induction false} MaskSelectsSlot(pos: nat, size: nat)
    requires size >= 1 && And(size, size - 1) == 0
    ensures And(pos, size - 1) == Slot(pos, size)
  {
    if size % 2 == 1 {
      if size > 1 { AndSelf(size / 2); }
    } else {
      var m := size / 2;
      assert (size - 1) / 2 == m - 1;
      MaskSelectsSlot(pos / 2, m);
      HalveSlot(pos, m);
    }
  }
}

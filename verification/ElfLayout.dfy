/** Where deps/elfio/elfio.hpp puts sections and segments when it saves a file: first the sections of the
    segments, segment by segment, then the sections without a segment, then the section table (System V
    gABI, "Program Header").  Positions and addresses are 64-bit words, and sums and differences wrap. */
module ElfLayout {
  import Division
  import ElfOrder

  const LIMIT: nat := 0x1_0000_0000_0000_0000

  type Word = x: nat | x < LIMIT

  function Add(x: Word, y: Word): Word { if x + y < LIMIT then x + y else x + y - LIMIT }

  function Sub(x: Word, y: Word): Word { if x >= y then x - y else x - y + LIMIT }

  datatype Kind = NullSection | NoBits | Bits

  datatype Section = Section(kind: Kind, size: Word, align: Word)

  datatype Segment = Segment(isPhdr: bool, sections: seq<nat>, vaddr: Word, align: Word)

  /** The section takes room in the file. */
  predicate HasData(s: Section) { s.kind == Bits }

  // ---------------------------------------------------------------- alignment

  /** What is added to a position so that it becomes congruent to `addr` modulo `align`. */
  function Shift(pos: Word, addr: Word, align: Word): Word
    requires align > 0
  {
    Add(align, Sub(addr % align, pos % align)) % align
  }

  /** For all alignments up to 2^63, so for every power of two. */
  lemma ShiftAligns(pos: Word, addr: Word, align: Word)
    requires 0 < 2 * align <= LIMIT
    ensures (pos + Shift(pos, addr, align)) % align == addr % align
    ensures Shift(pos, addr, align) < align
  {
    var q, c, r := pos / align, pos % align, addr % align;
    assert pos == q * align + c;
    assert (q + 1) * align == q * align + align;
    assert Add(align, Sub(r, c)) == align + r - c;
    if r >= c {
      assert align + r - c == 1 * align + (r - c);
      Division.Unique(align + r - c, 1, r - c, align);
      Division.Unique(pos + (r - c), q, r, align);
    } else {
      assert align + r - c == 0 * align + (align + r - c);
      Division.Unique(align + r - c, 0, align + r - c, align);
      Division.Unique(pos + (align + r - c), q + 1, r, align);
    }
  }

  /** Padding up to the next multiple. */
  function Padding(pos: nat, align: nat): nat { if align > 1 && pos % align != 0 then align - pos % align else 0 }

  lemma PaddingAligns(pos: nat, align: nat)
    requires align > 0
    ensures (pos + Padding(pos, align)) % align == 0
  {
    var q := pos / align;
    assert pos == q * align + pos % align && (q + 1) * align == q * align + align;
    if pos % align != 0 { Division.Unique(pos + (align - pos % align), q + 1, 0, align); }
  }

  /** The same without a test. */
  function Pad(pos: nat, align: nat): nat
    requires align > 0
  {
    (align - pos % align) % align
  }

  lemma PadIsPadding(pos: nat, align: nat)
    requires align > 0
    ensures Pad(pos, align) == Padding(pos, align) < align
    ensures (pos + Pad(pos, align)) % align == 0
  {
    PaddingAligns(pos, align);
    var r := align - pos % align;
    if pos % align == 0 {
      assert r == 1 * align + 0;
      Division.Unique(r, 1, 0, align);
    } else {
      assert r == 0 * align + r;
      Division.Unique(r, 0, r, align);
    }
    assert align == 1 ==> pos % align == 0;
  }

  // ---------------------------------------------------------------- where a section goes

  datatype Place = Refused | At(pos: Word)

  /** The file follows the address of this section. */
  predicate Addressed(sec: Section, hasAddr: bool) { hasAddr && HasData(sec) && sec.size != 0 }

  /** Where a section goes in a segment that begins at `at` in the file, when the position is `pos`. */
  function Locate(sec: Section, hasAddr: bool, addr: Word, vaddr: Word, at: Word, pos: Word): Place {
    if Addressed(sec, hasAddr) then
      var wanted, current := Sub(addr, vaddr), Sub(pos, at);
      if wanted < current then Refused else At(Add(pos, wanted - current))
    else if !hasAddr then
      At(Add(pos, Pad(pos, if sec.align == 0 then 1 else sec.align)))
    else At(pos)
  }

  /** When the address decides: the layout refuses exactly what would lie before the position as a distance
      from the segment, and otherwise goes back exactly when that distance reaches over the end of the
      64-bit range.  So an address at or above that of the segment never makes it go back, as long as
      the position itself is a 64-bit number. */
  lemma StaysBehindIff(sec: Section, addr: Word, vaddr: Word, at: Word, pos: Word)
    requires Addressed(sec, true) && at <= pos
    ensures var p := Locate(sec, true, addr, vaddr, at, pos);
            && (p.Refused? <==> Sub(addr, vaddr) < pos - at)
            && (p.At? ==> (p.pos < pos <==> at + Sub(addr, vaddr) >= LIMIT))
            && (p.At? && vaddr <= addr && at + (addr - vaddr) < LIMIT ==> p.pos == at + (addr - vaddr))
            && (p.At? && addr < vaddr <= at + addr ==> p.pos == at - (vaddr - addr) < at)
  {
  }

  /** An address 8 below that of its segment is not refused: the second section is put 8 bytes before the
      segment, over the first one. */
  lemma WrappedAddressOverlaps()
    ensures var first, second := Section(Bits, 16, 1), Section(Bits, 16, 1);
            && Locate(first, false, 0, 0x1000, 0x78, 0x78) == At(0x78)
            && Locate(second, true, 0xff8, 0x1000, 0x78, 0x78 + 16) == At(0x70)
  {
    assert Pad(0x78, 1) == 0;
  }

  /** A section with data lies as far behind the start of its segment in the file as in memory. */
  predicate Mirrors(sec: Section, offset: Word, addr: Word, vaddr: Word, at: Word) {
    HasData(sec) && sec.size != 0 ==> Sub(offset, at) == Sub(addr, vaddr)
  }

  /** ... whether the address was given, or is computed from the position. */
  lemma LocateMirrors(sec: Section, hasAddr: bool, addr: Word, vaddr: Word, at: Word, pos: Word)
    requires Locate(sec, hasAddr, addr, vaddr, at, pos).At?
    ensures var p := Locate(sec, hasAddr, addr, vaddr, at, pos).pos;
            Mirrors(sec, p, if hasAddr then addr else Sub(Add(vaddr, p), at), vaddr, at)
  {
  }

  // ---------------------------------------------------------------- layouts that stay within 64 bits

  function Open(done: seq<bool>): nat {
    if done == [] then 0 else Open(done[..|done| - 1]) + if done[|done| - 1] then 0 else 1
  }

  lemma {:induction false} OpenAfter(done: seq<bool>, i: nat)
    requires i < |done|
    ensures Open(done) == Open(done[i := true]) + if done[i] then 0 else 1
  {
    var n := |done| - 1;
    if i < n {
      OpenAfter(done[..n], i);
      assert done[i := true][..n] == done[..n][i := true];
    } else {
      assert done[i := true][..n] == done[..n];
    }
  }

  lemma {:induction false} AllOpen(done: seq<bool>)
    requires forall i | 0 <= i < |done| :: !done[i]
    ensures Open(done) == |done|
  {
    if done != [] { AllOpen(done[..|done| - 1]); }
  }

  /** What is still to come fits: each of `left` segments and each open section may need up to `most` bytes
      of padding, and a section also its size. */
  ghost predicate Room(pos: nat, left: nat, most: nat, done: seq<bool>) {
    pos + left * most + Open(done) * (2 * most) + 4 <= LIMIT
  }

  lemma RoomForSegment(pos: nat, left: nat, most: nat, done: seq<bool>, pad: nat)
    requires Room(pos, left, most, done) && left > 0 && pad <= most
    ensures Room(pos + pad, left - 1, most, done)
  {
    assert left * most == (left - 1) * most + most;
  }

  lemma RoomForSection(pos: nat, left: nat, most: nat, done: seq<bool>, i: nat)
    requires Room(pos, left, most, done) && i < |done|
    ensures Room(pos, left, most, done[i := true])
    ensures !done[i] ==> Room(pos + 2 * most, left, most, done[i := true])
    ensures pos + 4 <= LIMIT && (!done[i] ==> pos + 2 * most < LIMIT)
  {
    OpenAfter(done, i);
    var n, m := Open(done[i := true]), 2 * most;
    assert (n + 1) * m == n * m + m;
    assert left * most >= 0 && n * m >= 0;
  }

  lemma RoomBelow(pos: nat, pos': nat, left: nat, most: nat, done: seq<bool>)
    requires Room(pos, left, most, done) && pos' <= pos
    ensures Room(pos', left, most, done)
  {
  }

  lemma RoomNow(pos: nat, left: nat, most: nat, done: seq<bool>)
    requires Room(pos, left, most, done)
    ensures pos + 4 <= LIMIT && (left > 0 ==> pos + most + 4 <= LIMIT)
  {
    assert left * most >= 0 && Open(done) * (2 * most) >= 0;
    if left > 0 { assert left * most == (left - 1) * most + most && (left - 1) * most >= 0; }
  }

  /** A layout whose numbers stay within 64 bits and in which no address that matters is below that of its
      segment; `most` bounds paddings, sizes and distances from the segment. */
  ghost predicate Tame(secs: seq<Section>, segs: seq<Segment>, addr: seq<Word>, hasAddr: seq<bool>, start: Word,
                       most: nat)
    requires |secs| == |addr| == |hasAddr|
  {
    && (forall i | 0 <= i < |secs| :: secs[i].size <= most && secs[i].align <= most)
    && (forall s | 0 <= s < |segs| :: segs[s].align <= most)
    && (forall s, j | 0 <= s < |segs| && 0 <= j < |segs[s].sections| && segs[s].sections[j] < |secs| ::
          var i := segs[s].sections[j];
            Addressed(secs[i], hasAddr[i]) ==> segs[s].vaddr <= addr[i] <= segs[s].vaddr + most)
    && start + |segs| * most + |secs| * (2 * most) + 4 <= LIMIT
  }

  /** With the numbers of a tame layout a section goes to a place behind the position and within reach. */
  lemma LocateTame(sec: Section, hasAddr: bool, addr: Word, vaddr: Word, at: Word, pos: Word, most: nat)
    requires at <= pos && pos + 2 * most < LIMIT && sec.align <= most && sec.size <= most
    requires Addressed(sec, hasAddr) ==> vaddr <= addr <= vaddr + most
    ensures var p := Locate(sec, hasAddr, addr, vaddr, at, pos);
            && (p.Refused? <==> Addressed(sec, hasAddr) && addr - vaddr < pos - at)
            && (p.At? ==> pos <= p.pos <= pos + most && Add(p.pos, sec.size) == p.pos + sec.size)
            && (p.At? && !hasAddr && sec.align > 0 ==> p.pos % sec.align == 0)
  {
    hide Pad, Padding;
    PadIsPadding(pos, if sec.align == 0 then 1 else sec.align);
  }

  // ---------------------------------------------------------------- placed sections

  /** Sections marked in `done` that have data lie between `start` and `pos` and do not overlap. */
  predicate Placed(secs: seq<Section>, offset: seq<Word>, done: seq<bool>, start: nat, pos: nat)
    requires |secs| == |offset| == |done|
  {
    && start <= pos
    && (forall i | 0 <= i < |secs| && done[i] && HasData(secs[i]) ::
        start <= offset[i] && offset[i] + secs[i].size <= pos)
    && (forall i | 0 <= i < |secs| && done[i] && secs[i].kind != NullSection :: offset[i] <= pos)
    && (forall i, j | 0 <= i < |secs| && 0 <= j < |secs| && i != j && done[i] && done[j] && HasData(secs[i])
        && HasData(secs[j]) ::
          offset[i] + secs[i].size <= offset[j] || offset[j] + secs[j].size <= offset[i])
  }

  /** The next section goes behind everything placed so far. */
  lemma PlaceNext(secs: seq<Section>, offset: seq<Word>, done: seq<bool>, start: nat, pos: nat, k: nat, at: Word)
    requires |secs| == |offset| == |done| && k < |secs| && Placed(secs, offset, done, start, pos) && !done[k]
             && pos <= at
    ensures Placed(secs, offset[k := at], done[k := true], start, at + if HasData(secs[k]) then secs[k].size else 0)
  {
  }

  lemma MoveOn(secs: seq<Section>, offset: seq<Word>, done: seq<bool>, start: nat, pos: nat, pos': nat)
    requires |secs| == |offset| == |done| && Placed(secs, offset, done, start, pos) && pos <= pos'
    ensures Placed(secs, offset, done, start, pos')
  {
  }

  // ---------------------------------------------------------------- placed segments

  predicate InRange(secs: seq<Section>, segs: seq<Segment>) {
    forall s, j | 0 <= s < |segs| && 0 <= j < |segs[s].sections| :: segs[s].sections[j] < |secs|
  }

  /** The null section in front of other sections: such a segment begins where the file does. */
  predicate NullFirst(secs: seq<Section>, seg: Segment)
    requires forall j | 0 <= j < |seg.sections| :: seg.sections[j] < |secs|
  {
    |seg.sections| > 1 && secs[seg.sections[0]].kind == NullSection
  }

  predicate Indices(segs: seq<Segment>, order: seq<nat>) { forall l | 0 <= l < |order| :: order[l] < |segs| }

  /** Section `i` belongs to one of the first `k` segments in this order. */
  predicate Earlier(segs: seq<Segment>, order: seq<nat>, k: nat, i: nat)
    requires k <= |order| && Indices(segs, order)
  {
    exists l | 0 <= l < k :: i in segs[order[l]].sections
  }

  /** A segment's place in the file and its address agree modulo its alignment. */
  predicate Congruent(seg: Segment, offset: nat) { seg.align > 0 ==> offset % seg.align == seg.vaddr % seg.align }

  /** What the layout promises about the k-th segment.  One whose first section is in no earlier segment
      starts congruent to its address; any other one starts where its first section is.  One whose
      sections are all in no earlier segment starts before all of them.  Sections with data that are in
      no earlier segment lie as far behind it in the file as in memory. */
  predicate SegmentPlaced(secs: seq<Section>, segs: seq<Segment>, order: seq<nat>, k: nat, offset: seq<Word>,
                          addr: seq<Word>, segOffset: seq<Word>, tame: bool)
    requires InRange(secs, segs) && Indices(segs, order) && k < |order|
    requires |offset| == |addr| == |secs| && |segOffset| == |segs|
  {
    var s := order[k];
    var ids := segs[s].sections;
    && (forall j | 0 <= j < |ids| && !Earlier(segs, order, k, ids[j]) ::
          Mirrors(secs[ids[j]], offset[ids[j]], addr[ids[j]], segs[s].vaddr, segOffset[s]))
    && (ids != [] && !NullFirst(secs, segs[s]) ==>
          && (tame && !Earlier(segs, order, k, ids[0]) ==> Congruent(segs[s], segOffset[s]))
          && (Earlier(segs, order, k, ids[0]) ==> segOffset[s] == offset[ids[0]])
          && (tame && (forall j | 0 <= j < |ids| :: !Earlier(segs, order, k, ids[j])) ==>
                forall j | 0 <= j < |ids| && secs[ids[j]].kind != NullSection :: segOffset[s] <= offset[ids[j]]))
  }

  lemma StillPlaced(secs: seq<Section>, segs: seq<Segment>, order: seq<nat>, k: nat, offset: seq<Word>,
                    addr: seq<Word>, segOffset: seq<Word>, tame: bool, done: seq<bool>,
                    offset': seq<Word>, addr': seq<Word>, done': seq<bool>, segOffset': seq<Word>)
    requires InRange(secs, segs) && Indices(segs, order) && k < |order|
    requires |secs| == |offset| == |addr| == |addr'| && |segs| == |segOffset| == |segOffset'|
    requires Keeps(offset, done, offset', done') && forall i | 0 <= i < |secs| && done[i] :: addr'[i] == addr[i]
    requires forall j | 0 <= j < |segs[order[k]].sections| :: done[segs[order[k]].sections[j]]
    requires segOffset'[order[k]] == segOffset[order[k]]
    requires SegmentPlaced(secs, segs, order, k, offset, addr, segOffset, tame)
    ensures SegmentPlaced(secs, segs, order, k, offset', addr', segOffset', tame)
  {
    hide Congruent, Earlier, Mirrors;
    forall j | 0 <= j < |segs[order[k]].sections| ensures offset'[segs[order[k]].sections[j]] ==
        offset[segs[order[k]].sections[j]] {
      assert done[segs[order[k]].sections[j]];
    }
  }

  /** A segment whose sections are a proper part of those of another one comes later, so its first section
      is not new. */
  lemma PartIsLater(segs: seq<Segment>, lists: seq<seq<nat>>, order: seq<nat>, s: nat, t: nat) returns (k: nat)
    requires |lists| == |segs| && (forall i | 0 <= i < |segs| :: lists[i] == segs[i].sections) && Indices(segs, order)
    requires ElfOrder.Ids(lists, order) && ElfOrder.Ordered(lists, order) && s in order && t in order
    requires s < |segs| && t < |segs| && segs[s].sections != [] && ElfOrder.Sub(lists, s, t)
    ensures k < |order| && order[k] == s && Earlier(segs, order, k, segs[s].sections[0])
            && segs[s].sections[0] in segs[t].sections
  {
    k :| 0 <= k < |order| && order[k] == s;
    var l :| 0 <= l < |order| && order[l] == t;
    ElfOrder.IncludesIsPart(lists[t], lists[s]);
    assert lists[s][0] in lists[s];
    assert l < k;
    assert segs[s].sections[0] in segs[order[l]].sections;
  }

  lemma PlacedAtFirst(secs: seq<Section>, segs: seq<Segment>, order: seq<nat>, k: nat, offset: seq<Word>,
                      addr: seq<Word>, segOffset: seq<Word>, tame: bool)
    requires InRange(secs, segs) && Indices(segs, order) && k < |order|
    requires |offset| == |addr| == |secs| && |segOffset| == |segs|
    requires SegmentPlaced(secs, segs, order, k, offset, addr, segOffset, tame)
    requires var ids := segs[order[k]].sections;
               ids != [] && !NullFirst(secs, segs[order[k]]) && Earlier(segs, order, k, ids[0])
    ensures segOffset[order[k]] == offset[segs[order[k]].sections[0]]
  {
  }

  /** Addresses that are given, matter and are not yet used are not below the address of their segment. */
  ghost predicate AddressesOk(secs: seq<Section>, segs: seq<Segment>, addr: seq<Word>, hasAddr: seq<bool>,
                              done: seq<bool>, most: nat)
    requires InRange(secs, segs) && |secs| == |addr| == |hasAddr| == |done|
  {
    forall s, j | 0 <= s < |segs| && 0 <= j < |segs[s].sections| ::
      var i := segs[s].sections[j];
      !done[i] && Addressed(secs[i], hasAddr[i]) ==> segs[s].vaddr <= addr[i] <= segs[s].vaddr + most
  }

  ghost predicate Orderly(secs: seq<Section>, segs: seq<Segment>, offset: seq<Word>, addr: seq<Word>,
                          hasAddr: seq<bool>, done: seq<bool>, start: Word, pos: Word, left: nat, most: nat)
    requires InRange(secs, segs) && |secs| == |offset| == |addr| == |hasAddr| == |done|
  {
    && Placed(secs, offset, done, start, pos) && Room(pos, left, most, done)
    && (forall i | 0 <= i < |secs| :: secs[i].size <= most && secs[i].align <= most)
    && (forall s | 0 <= s < |segs| :: segs[s].align <= most)
    && AddressesOk(secs, segs, addr, hasAddr, done, most)
  }

  /** Placing a section where `Locate` says keeps all that. */
  lemma PlacingKeepsOrder(secs: seq<Section>, segs: seq<Segment>, offset: seq<Word>, addr: seq<Word>,
                          hasAddr: seq<bool>,
                          done: seq<bool>, start: Word, pos: Word, left: nat, most: nat, s: nat, i: nat, at: Word,
                              a: Word)
    requires InRange(secs, segs) && |secs| == |offset| == |addr| == |hasAddr| == |done|
    requires Orderly(secs, segs, offset, addr, hasAddr, done, start, pos, left, most)
    requires s < |segs| && i < |secs| && i in segs[s].sections && !done[i] && at <= pos
    ensures var p := Locate(secs[i], hasAddr[i], addr[i], segs[s].vaddr, at, pos);
            && (p.Refused? <==> Addressed(secs[i], hasAddr[i]) && addr[i] - segs[s].vaddr < pos - at)
            && (p.At? ==>
                  && p.pos >= pos && (!hasAddr[i] && secs[i].align > 0 ==> p.pos % secs[i].align == 0)
                  && var pos' := if HasData(secs[i]) then Add(p.pos, secs[i].size) else p.pos;
                     && pos' >= pos
                     && Orderly(secs, segs, offset[i := p.pos], addr[i := a], hasAddr[i := true], done[i := true],
                         start, pos',
                                left, most))
  {
    hide Placed, Room, Locate, Add, Pad;
    var sec := secs[i];
    var j :| 0 <= j < |segs[s].sections| && segs[s].sections[j] == i;
    assert Addressed(sec, hasAddr[i]) ==> segs[s].vaddr <= addr[segs[s].sections[j]] <= segs[s].vaddr + most;
    RoomForSection(pos, left, most, done, i);
    LocateTame(sec, hasAddr[i], addr[i], segs[s].vaddr, at, pos, most);
    var p := Locate(sec, hasAddr[i], addr[i], segs[s].vaddr, at, pos);
    if p.At? {
      PlaceNext(secs, offset, done, start, pos, i, p.pos);
      RoomBelow(pos + 2 * most, if HasData(sec) then Add(p.pos, sec.size) else p.pos, left, most, done[i := true]);
    }
  }

  class Layout {
    const secs: seq<Section>
    const segs: seq<Segment>
    /** End of the program headers, and where they begin. */
    const start: Word
    const headersAt: Word
    /** Whether the layout is tame, and with which bound. */
    ghost const tame: bool
    ghost const most: nat
    var pos: Word
    var offset: seq<Word>
    var addr: seq<Word>
    var hasAddr: seq<bool>
    /** `section_generated`; once the segments are done also the sections without a segment. */
    var done: seq<bool>
    var segOffset: seq<Word>
    var tableAt: Word
    /** Segments still to be laid out. */
    ghost var left: nat

    ghost predicate Shape()
      reads this
    {
      && |secs| == |offset| == |addr| == |hasAddr| == |done| && |segs| == |segOffset|
      && InRange(secs, segs) && (|secs| > 0 ==> secs[0].kind == NullSection)
    }

    /** What a tame layout keeps. */
    ghost predicate InOrder()
      requires Shape()
      reads this
    {
      Orderly(secs, segs, offset, addr, hasAddr, done, start, pos, left, most)
    }

    ghost predicate Valid()
      reads this
    {
      Shape() && (tame ==> InOrder())
    }

    constructor (secs: seq<Section>, segs: seq<Segment>, addr: seq<Word>, hasAddr: seq<bool>, headersAt: Word,
                 start: Word, ghost most: nat)
      requires |secs| == |addr| == |hasAddr| && (|secs| > 0 ==> secs[0].kind == NullSection)
      requires InRange(secs, segs)
      ensures Valid() && pos == start && left == |segs| && (forall i | 0 <= i < |done| :: !done[i])
      ensures tame == Tame(secs, segs, addr, hasAddr, start, most)
      ensures this.secs == secs && this.segs == segs && this.start == start && this.headersAt == headersAt
    {
      this.secs, this.segs, this.addr, this.hasAddr, this.headersAt, this.start := secs, segs, addr, hasAddr, headersAt,
          start;
      this.most, tame, left := most, Tame(secs, segs, addr, hasAddr, start, most), |segs|;
      pos, tableAt := start, 0;
      offset, done := seq(|secs|, i => 0), seq(|secs|, i => false);
      segOffset := seq(|segs|, i => 0);
      new;
      AllOpen(done);
    }

    /** One section that was not placed before, inside segment `s` which begins at `at`. */
    method PlaceInSegment(s: nat, i: nat, at: Word) returns (ok: bool)
      requires Valid() && s < |segs| && i < |secs| && i in segs[s].sections && !done[i] && secs[i].kind != NullSection
      requires tame ==> at <= pos
      modifies this`pos, this`offset, this`addr, this`hasAddr, this`done
      ensures Valid() && (tame ==> pos >= old(pos))
      ensures var p := Locate(secs[i], old(hasAddr)[i], old(addr)[i], segs[s].vaddr, at, old(pos));
              if p.Refused? then !ok && done == old(done) && offset == old(offset) && addr == old(addr)
                   && pos == old(pos) && hasAddr == old(hasAddr)
              else ok && done == old(done)[i := true] && offset == old(offset)[i := p.pos]
                   && pos == (if HasData(secs[i]) then Add(p.pos, secs[i].size) else p.pos)
                   && addr == old(addr)[i := addr[i]] && (old(hasAddr)[i] ==> addr[i] == old(addr)[i])
                   && hasAddr == old(hasAddr)[i := true]
      ensures ok ==> Mirrors(secs[i], offset[i], addr[i], segs[s].vaddr, at)
      ensures ok && tame ==>
                offset[i] >= old(pos) && (!old(hasAddr)[i] && secs[i].align > 0 ==> offset[i] % secs[i].align == 0)
      ensures tame ==> (!ok <==> Addressed(secs[i], old(hasAddr)[i]) && old(addr)[i] - segs[s].vaddr < old(pos) - at)
    {
      hide Orderly, Locate, Add, Sub, Mirrors;
      var sec := secs[i];
      var place := Locate(sec, hasAddr[i], addr[i], segs[s].vaddr, at, pos);
      ghost var a := addr[i];
      if place.At? {
        LocateMirrors(sec, hasAddr[i], addr[i], segs[s].vaddr, at, pos);
        if !hasAddr[i] { a := Sub(Add(segs[s].vaddr, place.pos), at); }
      }
      if tame {
        PlacingKeepsOrder(secs, segs, offset, addr, hasAddr, done, start, pos, left, most, s, i, at, a);
      }
      if place.Refused? { return false; }
      pos := place.pos;
      if !hasAddr[i] {
        addr, hasAddr := addr[i := Sub(Add(segs[s].vaddr, pos), at)], hasAddr[i := true];
      }
      assert addr == old(addr)[i := a] && hasAddr == old(hasAddr)[i := true];
      if i != 0 { offset := offset[i := pos]; }
      if HasData(sec) { pos := Add(pos, sec.size); }
      done := done[i := true];
      return true;
    }

    /** The address of section `i` of segment `s`, which begins at `at`, lies before the position. */
    ghost predicate Refuses(s: nat, i: nat, at: Word)
      requires Shape() && s < |segs|
      reads this
    {
      i < |secs| && secs[i].kind != NullSection && !done[i]
          && Locate(secs[i], hasAddr[i], addr[i], segs[s].vaddr, at, pos).Refused?
    }

    /** No section that is still to be placed has an address that the file must follow. */
    ghost predicate NoAddresses()
      requires Shape()
      reads this
    {
      forall i | 0 <= i < |secs| && !done[i] :: !Addressed(secs[i], hasAddr[i])
    }

    /** The segment starts a new part of the file: its first section is not placed yet. */
    ghost predicate FreshSegment(s: nat)
      requires Shape() && s < |segs|
      reads this
    {
      segs[s].sections != [] && !done[segs[s].sections[0]] && !NullFirst(secs, segs[s])
    }

    predicate PlacesSections(s: nat)
      requires s < |segs| && forall j | 0 <= j < |segs[s].sections| :: segs[s].sections[j] < |secs|
    {
      var ids := segs[s].sections;
      |ids| > 1 || (|ids| == 1 && secs[ids[0]].kind != NullSection)
    }

    /** Where a segment with sections begins. */
    ghost function StartOf(s: nat): Word
      requires Shape() && s < |segs| && segs[s].sections != []
      reads this
    {
      if NullFirst(secs, segs[s]) then 0
      else if FreshSegment(s) then
        Add(pos, Shift(pos, segs[s].vaddr, if segs[s].align > 0 then segs[s].align else 1))
      else offset[segs[s].sections[0]]
    }

    /** Where segment `s` begins. */
    method SegmentStart(s: nat) returns (at: Word)
      requires Valid() && s < |segs| && left > 0
      modifies this`pos, this`left
      ensures Valid() && left == old(left) - 1 && (tame ==> pos >= old(pos) && (PlacesSections(s) ==> at <= pos))
      ensures old(FreshSegment(s)) ==>
                var align := if segs[s].align > 0 then segs[s].align else 1;
                at == pos == Add(old(pos), Shift(old(pos), segs[s].vaddr, align))
      ensures old(FreshSegment(s)) && tame ==> Congruent(segs[s], at)
      ensures !old(FreshSegment(s)) ==> pos == old(pos)
      ensures segs[s].sections != [] && !old(FreshSegment(s))
              ==> at == if NullFirst(secs, segs[s]) then 0 else offset[segs[s].sections[0]]
      ensures segs[s].sections == [] ==> at == if segs[s].isPhdr then headersAt else pos
      ensures segs[s].sections != [] ==> at == old(StartOf(s))
    {
      hide Placed, Room, Shift;
      var seg := segs[s];
      at := pos;
      if tame { RoomNow(pos, left, most, done); }
      if seg.isPhdr && seg.sections == [] {
        at := headersAt;
      } else if |seg.sections| > 1 && secs[seg.sections[0]].kind == NullSection {
        at := 0;
      } else if seg.sections != [] && !done[seg.sections[0]] {
        var align := if seg.align > 0 then seg.align else 1;
        var shift := Shift(pos, seg.vaddr, align);
        if tame {
          RoomForSection(pos, left, most, done, seg.sections[0]);
          ShiftAligns(pos, seg.vaddr, align);
          MoveOn(secs, offset, done, start, pos, pos + shift);
          RoomForSegment(pos, left, most, done, shift);
        }
        pos := Add(pos, shift);
        at := pos;
        left := left - 1;
        return;
      } else if seg.sections != [] {
        if tame && secs[seg.sections[0]].kind != NullSection {
          OffsetBelow(secs, offset, done, start, pos, seg.sections[0]);
        }
        at := offset[seg.sections[0]];
      }
      if tame { RoomForSegment(pos, left, most, done, 0); }
      left := left - 1;
    }

    /** One turn of the outer loop of `layout_segments_and_their_sections`. */
    method LayoutSegment(s: nat) returns (ok: bool)
      requires Valid() && s < |segs| && left > 0
      modifies this`pos, this`offset, this`addr, this`hasAddr, this`done, this`segOffset, this`left
      ensures Valid() && left == old(left) - 1 && (tame ==> pos >= old(pos))
      ensures Keeps(old(offset), old(done), offset, done)
      ensures forall i | 0 <= i < |secs| && done[i] :: old(done)[i] || i in segs[s].sections
      ensures ok ==> forall j | 0 <= j < |segs[s].sections| :: done[segs[s].sections[j]]
      ensures !ok ==> exists j | 0 <= j < |segs[s].sections| :: Refuses(s, segs[s].sections[j], old(StartOf(s)))
      ensures old(NoAddresses()) ==> ok && NoAddresses()
      ensures ok && old(FreshSegment(s)) && tame ==> Congruent(segs[s], segOffset[s]) && segOffset[s] >= old(pos)
      ensures ok && segs[s].sections != [] && !old(FreshSegment(s)) ==>
                segOffset[s] == if NullFirst(secs, segs[s]) then 0 else old(offset)[segs[s].sections[0]]
      ensures ok ==> forall i | 0 <= i < |secs| && done[i] && !old(done)[i] ::
                       && Mirrors(secs[i], offset[i], addr[i], segs[s].vaddr, segOffset[s])
                       && (tame && secs[i].kind != NullSection ==> segOffset[s] <= offset[i])
      ensures forall t | 0 <= t < |segs| && t != s :: segOffset[t] == old(segOffset)[t]
      ensures forall i | 0 <= i < |secs| && old(done)[i] :: addr[i] == old(addr)[i]
    {
      hide Placed, Keeps, Room, Mirrors, Shift;
      ghost var offset0, done0 := offset, done;
      KeepsSelf(offset, done);
      var at := SegmentStart(s);
      ghost var left0 := left;
      var j := 0;
      while j < |segs[s].sections|
        invariant j <= |segs[s].sections| && Valid() && left == left0
                  && (tame ==> pos >= old(pos) && (PlacesSections(s) ==> at <= pos))
        invariant Keeps(offset0, done0, offset, done) && segOffset == old(segOffset)
        invariant forall i | 0 <= i < |secs| && done0[i] :: done[i] && addr[i] == old(addr)[i]
        invariant forall k | 0 <= k < j :: done[segs[s].sections[k]]
        invariant old(NoAddresses()) ==> NoAddresses()
        invariant forall i | 0 <= i < |secs| && done[i] :: done0[i] || i in segs[s].sections
        invariant forall i | 0 <= i < |secs| && done[i] && !done0[i] ::
                    && Mirrors(secs[i], offset[i], addr[i], segs[s].vaddr, at)
                    && (tame && secs[i].kind != NullSection ==> at <= offset[i])
      {
        ghost var offset1, done1 := offset, done;
        ok := LayoutSection(s, j, at);
        KeepsChain(offset0, done0, offset1, done1, offset, done);
        if !ok { return; }
        KeepsMarks(offset1, done1, offset, done);
        KeepsOffsets(offset1, done1, offset, done);
        j := j + 1;
      }
      segOffset := segOffset[s := at];
      ok := true;
    }

    /** One turn of the inner loop. */
    method LayoutSection(s: nat, j: nat, at: Word) returns (ok: bool)
      requires Valid() && s < |segs| && j < |segs[s].sections| && (tame && PlacesSections(s) ==> at <= pos)
      modifies this`pos, this`offset, this`addr, this`hasAddr, this`done
      ensures Valid() && (tame ==> pos >= old(pos))
      ensures Keeps(old(offset), old(done), offset, done)
      ensures ok ==> done[segs[s].sections[j]]
      ensures !ok ==> Refuses(s, segs[s].sections[j], at)
      ensures old(NoAddresses()) ==> ok && NoAddresses()
      ensures forall i | 0 <= i < |secs| && done[i] :: old(done)[i] || i in segs[s].sections
      ensures forall i | 0 <= i < |secs| && done[i] ::
                if old(done)[i] then addr[i] == old(addr)[i]
                else ok && Mirrors(secs[i], offset[i], addr[i], segs[s].vaddr, at)
                     && (tame && secs[i].kind != NullSection ==> at <= offset[i])
    {
      hide Placed, Room;
      var i := segs[s].sections[j];
      if secs[i].kind == NullSection {
        if tame {
          NullIsDone(secs, offset, done, start, pos, i);
          RoomForSection(pos, left, most, done, i);
        }
        done := done[i := true];
      } else if !done[i] {
        assert i in segs[s].sections;
        ok := PlaceInSegment(s, i, at);
        if !ok { return; }
      }
      ok := true;
    }

    /** `is_section_without_segment` */
    predicate WithoutSegment(i: nat)
      reads this
    {
      forall s | 0 <= s < |segs| :: i !in segs[s].sections
    }

    /** `layout_segments_and_their_sections`, in the order of `get_ordered_segments`. */
    method LayoutSegments(order: seq<nat>) returns (ok: bool)
      requires Valid() && (forall i | 0 <= i < |done| :: !done[i]) && |order| <= left
      requires Indices(segs, order) && (forall i, j | 0 <= i < j < |order| :: order[i] != order[j])
      modifies this`pos, this`offset, this`addr, this`hasAddr, this`done, this`segOffset, this`left
      ensures Valid() && (tame ==> pos >= old(pos)) && (old(NoAddresses()) ==> ok)
      ensures ok ==> forall i | 0 <= i < |secs| :: done[i] <==> Earlier(segs, order, |order|, i)
      ensures ok ==> forall k | 0 <= k < |order| :: SegmentPlaced(secs, segs, order, k, offset, addr, segOffset, tame)
    {
      hide Placed, Keeps, Room, FreshSegment, SegmentPlaced;
      var k := 0;
      while k < |order|
        invariant k <= |order| && Valid() && (tame ==> pos >= old(pos)) && |order| - k <= left
        invariant forall i | 0 <= i < |secs| :: done[i] <==> Earlier(segs, order, k, i)
        invariant old(NoAddresses()) ==> NoAddresses()
        invariant forall l | 0 <= l < k :: SegmentPlaced(secs, segs, order, l, offset, addr, segOffset, tame)
      {
        ok := NextSegment(order, k);
        if !ok { return false; }
        k := k + 1;
      }
      ok := true;
    }

    method NextSegment(order: seq<nat>, k: nat) returns (ok: bool)
      requires Valid() && left > 0 && k < |order|
      requires Indices(segs, order) && (forall i, j | 0 <= i < j < |order| :: order[i] != order[j])
      requires forall i | 0 <= i < |secs| :: done[i] <==> Earlier(segs, order, k, i)
      requires forall l | 0 <= l < k :: SegmentPlaced(secs, segs, order, l, offset, addr, segOffset, tame)
      modifies this`pos, this`offset, this`addr, this`hasAddr, this`done, this`segOffset, this`left
      ensures Valid() && (tame ==> pos >= old(pos)) && left == old(left) - 1
      ensures old(NoAddresses()) ==> ok && NoAddresses()
      ensures ok ==> forall i | 0 <= i < |secs| :: done[i] <==> Earlier(segs, order, k + 1, i)
      ensures ok ==> forall l | 0 <= l <= k :: SegmentPlaced(secs, segs, order, l, offset, addr, segOffset, tame)
    {
      hide Placed, Room, Congruent, Keeps, Mirrors;
      var s := order[k];
      ghost var offset0, addr0, done0, segOffset0 := offset, addr, done, segOffset;
      ok := LayoutSegment(s);
      if !ok { return; }
      forall l | 0 <= l < k ensures SegmentPlaced(secs, segs, order, l, offset, addr, segOffset, tame) {
        forall j | 0 <= j < |segs[order[l]].sections| ensures done0[segs[order[l]].sections[j]] {
          assert Earlier(segs, order, k, segs[order[l]].sections[j]);
        }
        StillPlaced(secs, segs, order, l, offset0, addr0, segOffset0, tame, done0, offset, addr, done, segOffset);
      }
      KeepsMarks(offset0, done0, offset, done);
      KeepsOffsets(offset0, done0, offset, done);
      forall i | 0 <= i < |secs| ensures done[i] <==> Earlier(segs, order, k + 1, i) {
        if i in segs[s].sections {
          var j :| 0 <= j < |segs[s].sections| && segs[s].sections[j] == i;
          assert done[segs[s].sections[j]];
        }
      }
    }

    /** `layout_sections_without_segments` */
    method LayoutRest()
      requires Valid() && forall i | 0 <= i < |secs| && WithoutSegment(i) :: !done[i]
      modifies this`pos, this`offset, this`done
      ensures Valid() && (tame ==> pos >= old(pos)) && Keeps(old(offset), old(done), offset, done)
      ensures forall i | 0 <= i < |secs| && WithoutSegment(i) ::
                done[i] && (tame && secs[i].align > 0 && i != 0
                    ==> offset[i] >= old(pos) && offset[i] % secs[i].align == 0)
    {
      hide Placed, Room;
      var i := 0;
      while i < |secs|
        invariant i <= |secs| && Valid() && (tame ==> pos >= old(pos)) && Keeps(old(offset), old(done), offset, done)
        invariant forall k | 0 <= k < i && WithoutSegment(k) ::
                    done[k] && (tame && secs[k].align > 0 && k != 0
                        ==> offset[k] >= old(pos) && offset[k] % secs[k].align == 0)
        invariant forall k | i <= k < |secs| && WithoutSegment(k) :: !done[k]
      {
        if WithoutSegment(i) { PlaceRest(i); }
        i := i + 1;
      }
    }

    method PlaceRest(i: nat)
      requires Valid() && i < |secs| && !done[i]
      modifies this`pos, this`offset, this`done
      ensures Valid() && (tame ==> pos >= old(pos)) && done == old(done)[i := true]
      ensures var at := Add(old(pos), Padding(old(pos), secs[i].align));
              && offset == (if i == 0 then old(offset) else old(offset)[i := at])
              && pos == (if HasData(secs[i]) then Add(at, secs[i].size) else at)
      ensures tame && secs[i].align > 0 && i != 0 ==> offset[i] >= old(pos) && offset[i] % secs[i].align == 0
    {
      hide Placed, Room;
      var sec := secs[i];
      var at := Add(pos, Padding(pos, sec.align));
      if tame {
        RoomForSection(pos, left, most, done, i);
        if sec.align > 0 { PaddingAligns(pos, sec.align); }
        PlaceNext(secs, offset, done, start, pos, i, at);
        MoveOn(secs, offset, done, start, pos, at);
        if i == 0 { NullIsDone(secs, offset, done, start, at, i); }
      }
      ghost var before := pos;
      pos := at;
      if i != 0 { offset := offset[i := pos]; }
      if HasData(sec) { pos := Add(pos, sec.size); }
      if tame { RoomBelow(before + 2 * most, pos, left, most, done[i := true]); }
      done := done[i := true];
    }

    /** `layout_section_table` */
    method LayoutTable()
      requires Valid()
      modifies this`pos, this`tableAt
      ensures Shape() && pos == tableAt == Add(old(pos), Pad(old(pos), 4))
      ensures tame ==> Placed(secs, offset, done, start, pos) && old(pos) <= tableAt < old(pos) + 4 && tableAt % 4 == 0
    {
      hide Placed, Room;
      if tame {
        RoomNow(pos, left, most, done);
        PadIsPadding(pos, 4);
        MoveOn(secs, offset, done, start, pos, pos + Pad(pos, 4));
      }
      pos := Add(pos, Pad(pos, 4));
      tableAt := pos;
    }

    function Lists(): seq<seq<nat>> { seq(|segs|, i requires 0 <= i < |segs| => segs[i].sections) }

    /** The layout part of `save`.  When it succeeds every section is placed.  In a tame layout sections with
        data lie after the program headers and before the section table and do not overlap.  Segments
        are placed in an order that puts each before all segments whose sections are a part of its own;
        such a part never starts afresh, it starts where its first section is. */
    method Save(segOffsets: seq<nat>, isSet: seq<bool>) returns (ok: bool, ghost order: seq<nat>)
      requires Valid() && pos == start && left == |segs| == |segOffsets| == |isSet|
               && forall i | 0 <= i < |done| :: !done[i]
      modifies this`pos, this`offset, this`addr, this`hasAddr, this`done, this`segOffset, this`tableAt, this`left
      ensures Shape()
      ensures Indices(segs, order) && (forall s | 0 <= s < |segs| :: s in order)
      ensures (forall i, j | 0 <= i < j < |order| :: order[i] != order[j]) && ElfOrder.Ordered(Lists(), order)
      ensures ElfOrder.ZerosLead(Lists(), order, segOffsets, isSet)
      ensures old(NoAddresses()) ==> ok
      ensures ok ==> forall i | 0 <= i < |secs| :: done[i]
      ensures ok && tame ==> Disjoint(secs, offset, start, tableAt) && tableAt % 4 == 0
      ensures ok ==> forall k | 0 <= k < |order| :: SegmentPlaced(secs, segs, order, k, offset, addr, segOffset, tame)
      ensures ok ==> forall s, t | 0 <= s < |segs| && 0 <= t < |segs| && segs[s].sections != []
              && !NullFirst(secs, segs[s]) && ElfOrder.Sub(Lists(), s, t) ::
                segs[s].sections[0] in segs[t].sections && segOffset[s] == offset[segs[s].sections[0]]
    {
      hide Placed, Keeps, Room, ElfOrder.Ordered, ElfOrder.Sub, ElfOrder.ZerosLead, SegmentPlaced, Disjoint,
          NoAddresses;
      var found := ElfOrder.OrderSegments(Lists(), segOffsets, isSet);
      order := found;
      EachOnce(found, |segs|);
      ok := LayoutSegments(found);
      if !ok { return; }
      ghost var offset1, done1 := offset, done;
      LayoutRest();
      forall k | 0 <= k < |order| ensures SegmentPlaced(secs, segs, order, k, offset, addr, segOffset, tame) {
        forall j | 0 <= j < |segs[order[k]].sections| ensures done1[segs[order[k]].sections[j]] {
          assert Earlier(segs, order, |order|, segs[order[k]].sections[j]);
        }
        StillPlaced(secs, segs, order, k, offset1, addr, segOffset, tame, done1, offset, addr, done, segOffset);
      }
      forall i | 0 <= i < |secs| ensures done[i] {
        KeepsMarks(offset1, done1, offset, done);
        if !WithoutSegment(i) {
          var s :| 0 <= s < |segs| && i in segs[s].sections;
          assert s in found;
          assert Earlier(segs, found, |found|, i);
        }
      }
      forall s, t | 0 <= s < |segs| && 0 <= t < |segs| && segs[s].sections != [] && !NullFirst(secs, segs[s])
          && ElfOrder.Sub(Lists(), s, t)
        ensures segs[s].sections[0] in segs[t].sections && segOffset[s] == offset[segs[s].sections[0]]
      {
        var k := PartIsLater(segs, Lists(), order, s, t);
        PlacedAtFirst(secs, segs, order, k, offset, addr, segOffset, tame);
      }
      LayoutTable();
      if tame { AllDisjoint(secs, offset, done, start, pos); }
    }
  }

  /** All sections with data lie between `start` and `stop` and do not overlap. */
  predicate Disjoint(secs: seq<Section>, offset: seq<Word>, start: nat, stop: nat)
    requires |secs| == |offset|
  {
    && (forall i | 0 <= i < |secs| && HasData(secs[i]) :: start <= offset[i] && offset[i] + secs[i].size <= stop)
    && (forall i, j | 0 <= i < j < |secs| && HasData(secs[i]) && HasData(secs[j]) ::
          offset[i] + secs[i].size <= offset[j] || offset[j] + secs[j].size <= offset[i])
  }

  lemma AllDisjoint(secs: seq<Section>, offset: seq<Word>, done: seq<bool>, start: nat, pos: nat)
    requires |secs| == |offset| == |done| && Placed(secs, offset, done, start, pos)
             && forall i | 0 <= i < |secs| :: done[i]
    ensures Disjoint(secs, offset, start, pos)
  {
  }

  /** A rearrangement of 0, 1, ..., n - 1 holds each number once. */
  lemma EachOnce(w: seq<nat>, n: nat)
    requires multiset(w) == multiset(seq(n, i requires 0 <= i < n => i))
    ensures |w| == n && forall s | 0 <= s < n :: s in w
    ensures forall i, j | 0 <= i < j < |w| :: w[i] != w[j]
  {
    var ids := seq(n, i requires 0 <= i < n => i);
    assert |multiset(w)| == |w| && |multiset(ids)| == n;
    forall s | 0 <= s < n ensures s in w {
      assert ids[s] == s && s in multiset(ids);
    }
    forall i, j | 0 <= i < j < |w| ensures w[i] != w[j] {
      if w[i] == w[j] {
        Twice(w, i, j);
        AtMostOnce(ids, w[i]);
      }
    }
  }

  lemma Twice(w: seq<nat>, i: nat, j: nat)
    requires i < j < |w| && w[i] == w[j]
    ensures multiset(w)[w[i]] >= 2
  {
    var a, b := w[..j], w[j..];
    assert w == a + b && a[i] == w[i] && b[0] == w[i];
    assert w[i] in multiset(a) && w[i] in multiset(b);
  }

  lemma {:induction false} AtMostOnce(w: seq<nat>, x: nat)
    requires forall i, j | 0 <= i < j < |w| :: w[i] != w[j]
    ensures multiset(w)[x] <= 1
  {
    if w != [] {
      var a, c := w[..|w| - 1], w[|w| - 1];
      assert w == a + [c];
      AtMostOnce(a, x);
      if x == c { assert x !in a; }
    }
  }

  lemma KeepsSelf(offset: seq<Word>, done: seq<bool>)
    requires |offset| == |done|
    ensures Keeps(offset, done, offset, done)
  {
  }

  lemma KeepsMarks(offset: seq<Word>, done: seq<bool>, offset': seq<Word>, done': seq<bool>)
    requires Keeps(offset, done, offset', done')
    ensures |done| == |done'| && forall i | 0 <= i < |done| && done[i] :: done'[i]
  {
  }

  lemma KeepsOffsets(offset: seq<Word>, done: seq<bool>, offset': seq<Word>, done': seq<bool>)
    requires Keeps(offset, done, offset', done')
    ensures |done| == |offset| == |offset'| && forall i | 0 <= i < |done| && done[i] :: offset'[i] == offset[i]
  {
  }

  lemma KeepsChain(o1: seq<Word>, d1: seq<bool>, o2: seq<Word>, d2: seq<bool>, o3: seq<Word>, d3: seq<bool>)
    requires Keeps(o1, d1, o2, d2) && Keeps(o2, d2, o3, d3)
    ensures Keeps(o1, d1, o3, d3)
  {
  }

  /** Sections placed before stay where they are. */
  predicate Keeps(offset: seq<Word>, done: seq<bool>, offset': seq<Word>, done': seq<bool>) {
    |offset| == |done| == |offset'| == |done'| && forall i | 0 <= i < |done| && done[i] ::
        done'[i] && offset'[i] == offset[i]
  }

  lemma OffsetBelow(secs: seq<Section>, offset: seq<Word>, done: seq<bool>, start: nat, pos: nat, k: nat)
    requires |secs| == |offset| == |done| && k < |secs| && Placed(secs, offset, done, start, pos) && done[k]
             && secs[k].kind != NullSection
    ensures offset[k] <= pos
  {
  }

  lemma NullIsDone(secs: seq<Section>, offset: seq<Word>, done: seq<bool>, start: nat, pos: nat, k: nat)
    requires |secs| == |offset| == |done| && k < |secs| && Placed(secs, offset, done, start, pos)
             && secs[k].kind == NullSection
    ensures Placed(secs, offset, done[k := true], start, pos)
  {
  }
}

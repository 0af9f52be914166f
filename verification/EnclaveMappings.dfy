/** The table of enclave mappings of loader/enclave_manager.cpp: an ordered map from start address to
    length, checked against its two neighbours on insertion. */
module EnclaveMappings {

  const PAGE: nat := 4096

  predicate Aligned(x: int) { x % PAGE == 0 }

  lemma AlignedSum(a: int, b: int)
    requires Aligned(a) && Aligned(b)
    ensures Aligned(a + b) && Aligned(a - b)
  {
  }

  function RoundUp(len: nat): (r: nat)
    ensures Aligned(r) && len <= r < len + PAGE
  {
    (len + 4095) / PAGE * PAGE
  }

  /** A multiple of the page size that is at least `len` holds the rounded length. */
  lemma RoundUpIsLeast(len: nat, room: nat)
    requires Aligned(room) && len <= room
    ensures RoundUp(len) <= room
  {
  }

  datatype Mapping = Mapping(addr: nat, len: nat)

  function End(m: Mapping): nat { m.addr + m.len }

  /** In address order and without overlap. */
  predicate Ordered(ms: seq<Mapping>) {
    forall i, j | 0 <= i < j < |ms| :: ms[i].addr < ms[j].addr && End(ms[i]) <= ms[j].addr
  }

  predicate Placed(ms: seq<Mapping>, base: nat, size: nat) {
    forall i | 0 <= i < |ms| :: base <= ms[i].addr && End(ms[i]) <= base + size && Aligned(ms[i].addr)
        && Aligned(ms[i].len)
  }

  /** Adding `len` bytes at `dest` would meet mapping `m`. */
  predicate Clash(m: Mapping, dest: nat, len: nat) {
    m.addr <= dest < End(m) || dest < m.addr < dest + len
  }

  predicate Within(x: nat, at: nat, len: nat) { at <= x < at + len }

  /** For ranges that are not empty a clash is a common address. */
  lemma ClashIsOverlap(m: Mapping, dest: nat, len: nat)
    requires m.len > 0 && len > 0
    ensures Clash(m, dest, len) <==> exists x :: Within(x, m.addr, m.len) && Within(x, dest, len)
  {
    var x := if m.addr <= dest then dest else m.addr;
    assert Clash(m, dest, len) ==> Within(x, m.addr, m.len) && Within(x, dest, len);
  }

  /** `upper_bound`: the first mapping that starts after `dest`. */
  function UpperBound(ms: seq<Mapping>, dest: nat): (k: nat)
    requires Ordered(ms)
    ensures k <= |ms| && (forall i | 0 <= i < k :: ms[i].addr <= dest)
            && (forall i | k <= i < |ms| :: dest < ms[i].addr)
  {
    if ms == [] then 0
    else if ms[|ms| - 1].addr <= dest then |ms|
    else UpperBound(ms[..|ms| - 1], dest)
  }

  predicate NeighbourClash(ms: seq<Mapping>, dest: nat, len: nat)
    requires Ordered(ms)
  {
    var k := UpperBound(ms, dest);
    (k < |ms| && dest + len > ms[k].addr) || (k > 0 && End(ms[k - 1]) > dest)
  }

  /** Looking at the two neighbours is as good as looking at every mapping. */
  lemma NeighboursSuffice(ms: seq<Mapping>, dest: nat, len: nat)
    requires Ordered(ms)
    ensures NeighbourClash(ms, dest, len) <==> exists i | 0 <= i < |ms| :: Clash(ms[i], dest, len)
  {
    var k := UpperBound(ms, dest);
    if k < |ms| && dest + len > ms[k].addr { assert Clash(ms[k], dest, len); }
    if k > 0 && End(ms[k - 1]) > dest { assert Clash(ms[k - 1], dest, len); }
    if i :| 0 <= i < |ms| && Clash(ms[i], dest, len) {
      if i + 1 < k { assert End(ms[i]) <= ms[k - 1].addr; }
      if i > k { assert ms[k].addr < ms[i].addr; }
    }
  }

  /** `mappings[dest] = len` */
  function Put(ms: seq<Mapping>, dest: nat, len: nat): seq<Mapping>
    requires Ordered(ms)
  {
    var k := UpperBound(ms, dest);
    if k > 0 && ms[k - 1].addr == dest then ms[k - 1 := Mapping(dest, len)]
    else ms[..k] + [Mapping(dest, len)] + ms[k..]
  }

  lemma PutAt(ms: seq<Mapping>, dest: nat, len: nat, i: nat)
    requires Ordered(ms) && i < |Put(ms, dest, len)|
    ensures var p, k := Put(ms, dest, len), UpperBound(ms, dest);
            if k > 0 && ms[k - 1].addr == dest then |p| == |ms|
                && p[i] == (if i == k - 1 then Mapping(dest, len) else ms[i])
            else |p| == |ms| + 1 && p[i] == (if i < k then ms[i] else if i == k then Mapping(dest, len) else ms[i - 1])
  {
    hide UpperBound, Ordered;
  }

  lemma PutKeepsOrder(ms: seq<Mapping>, dest: nat, len: nat)
    requires Ordered(ms) && !NeighbourClash(ms, dest, len)
    ensures Ordered(Put(ms, dest, len))
  {
    var p, k := Put(ms, dest, len), UpperBound(ms, dest);
    forall i | 0 <= i < |ms| ensures (ms[i].addr < dest ==> End(ms[i]) <= dest)
        && (dest < ms[i].addr ==> dest + len <= ms[i].addr) {
      if i + 1 < k { assert End(ms[i]) <= ms[k - 1].addr; }
      if i > k { assert ms[k].addr < ms[i].addr; }
    }
    forall i, j | 0 <= i < j < |p| ensures p[i].addr < p[j].addr && End(p[i]) <= p[j].addr {
      PutAt(ms, dest, len, i);
      PutAt(ms, dest, len, j);
    }
  }

  lemma PutMembers(ms: seq<Mapping>, dest: nat, len: nat)
    requires Ordered(ms)
    ensures forall m :: m in Put(ms, dest, len) <==> m == Mapping(dest, len) || (m in ms && m.addr != dest)
  {
    var p, k := Put(ms, dest, len), UpperBound(ms, dest);
    forall i | 0 <= i < |p| ensures p[i] == Mapping(dest, len) || (p[i] in ms && p[i].addr != dest) {
      PutAt(ms, dest, len, i);
    }
    if k > 0 && ms[k - 1].addr == dest { PutAt(ms, dest, len, k - 1); } else { PutAt(ms, dest, len, k); }
    forall m | m in ms && m.addr != dest ensures m in p {
      var i :| 0 <= i < |ms| && ms[i] == m;
      if k > 0 && ms[k - 1].addr == dest { PutAt(ms, dest, len, i); } else {
        PutAt(ms, dest, len, if i < k then i else i + 1);
      }
    }
  }

  lemma PutKeeps(ms: seq<Mapping>, dest: nat, len: nat, base: nat, size: nat)
    requires Ordered(ms) && Placed(ms, base, size) && !NeighbourClash(ms, dest, len)
    requires base <= dest && dest + len <= base + size && Aligned(dest) && Aligned(len)
    ensures Ordered(Put(ms, dest, len)) && Placed(Put(ms, dest, len), base, size)
  {
    PutKeepsOrder(ms, dest, len);
    var p := Put(ms, dest, len);
    forall i | 0 <= i < |p| ensures base <= p[i].addr && End(p[i]) <= base + size && Aligned(p[i].addr)
        && Aligned(p[i].len) {
      PutAt(ms, dest, len, i);
    }
  }

  /** The gap that `allocate` may return before mapping `i`. */
  function GapStart(ms: seq<Mapping>, base: nat, i: nat): nat
    requires i <= |ms|
  {
    if i == 0 then base else End(ms[i - 1])
  }

  class Enclave {
    const base: nat
    const size: nat
    var maps: seq<Mapping>

    ghost predicate Valid()
      reads this
    {
      Aligned(base) && Aligned(size) && Ordered(maps) && Placed(maps, base, size)
    }

    constructor (base: nat, size: nat)
      requires Aligned(base) && Aligned(size)
      ensures Valid() && this.base == base && this.size == size && maps == []
    {
      this.base, this.size, maps := base, size, [];
    }

    /** `addPages`; `false` stands for the exit of the loader. */
    method AddPages(dest: nat, length: nat) returns (ok: bool)
      requires Valid() && Aligned(dest)
      modifies this
      ensures Valid()
      ensures ok <==>
                && base <= dest
                && dest + RoundUp(length) <= base + size
                && forall i | 0 <= i < |old(maps)| :: !Clash(old(maps)[i], dest, RoundUp(length))
      ensures maps == if ok then Put(old(maps), dest, RoundUp(length)) else old(maps)
    {
      var len := RoundUp(length);
      if dest < base || dest + len > base + size { return false; }
      NeighboursSuffice(maps, dest, len);
      var k := UpperBound(maps, dest);
      if k != |maps| && dest + len > maps[k].addr { return false; }
      if k != 0 && maps[k - 1].addr + maps[k - 1].len > dest { return false; }
      PutKeeps(maps, dest, len, base, size);
      maps := Put(maps, dest, len);
      return true;
    }

    /** `allocate`: the first gap strictly larger than the request, or the room after the last mapping. */
    method Allocate(len: nat) returns (ok: bool, at: nat)
      requires Valid()
      ensures maps == [] ==> ok && at == base
      ensures maps != [] ==>
                (ok <==>
                  || (exists i | 0 <= i < |maps| :: maps[i].addr - GapStart(maps, base, i) > len)
                  || base + size - GapStart(maps, base, |maps|) >= len)
      ensures ok && maps != [] ==> Fits(maps, base, size, at, RoundUp(len))
      ensures ok && maps != [] ==> exists k | 0 <= k <= |maps| :: FirstGap(maps, base, k, len, at)
    {
      hide Aligned, RoundUp;
      if maps == [] { return true, base; }
      var i, prev := 0, base;
      while i < |maps|
        invariant i <= |maps| && prev == GapStart(maps, base, i)
        invariant forall j | 0 <= j < i :: maps[j].addr - GapStart(maps, base, j) <= len
      {
        if maps[i].addr - prev > len {
          GapFits(maps, base, size, i, len);
          assert FirstGap(maps, base, i, len, prev);
          return true, prev;
        }
        prev := maps[i].addr + maps[i].len;
        i := i + 1;
      }
      if base + size - prev < len { return false, 0; }
      GapFits(maps, base, size, i, len);
      assert FirstGap(maps, base, i, len, prev);
      return true, prev;
    }
  }

  /** `at` begins the gap in front of mapping `k`, or the room after the last one, and no earlier gap is larger than
      `len`. */
  predicate FirstGap(ms: seq<Mapping>, base: nat, k: nat, len: nat, at: nat)
    requires k <= |ms|
  {
    && at == GapStart(ms, base, k) && (k < |ms| ==> ms[k].addr - at > len)
    && forall j | 0 <= j < k :: ms[j].addr - GapStart(ms, base, j) <= len
  }

  /** A gap that is long enough holds the request also after rounding up. */
  lemma GapFits(ms: seq<Mapping>, base: nat, size: nat, i: nat, len: nat)
    requires Aligned(base) && Aligned(size) && Ordered(ms) && Placed(ms, base, size) && i <= |ms|
    requires if i < |ms| then len < ms[i].addr - GapStart(ms, base, i) else len <= base + size - GapStart(ms, base, i)
    ensures Fits(ms, base, size, GapStart(ms, base, i), RoundUp(len))
  {
    hide Aligned, RoundUp;
    var at, stop := GapStart(ms, base, i), if i < |ms| then ms[i].addr else base + size;
    AlignedSum(base, size);
    if i > 0 { AlignedSum(ms[i - 1].addr, ms[i - 1].len); }
    AlignedSum(stop, at);
    RoundUpIsLeast(len, stop - at);
    forall j | 0 <= j < |ms| ensures !Clash(ms[j], at, RoundUp(len)) {
      if j + 1 < i { assert End(ms[j]) <= ms[i - 1].addr; }
      if j > i { assert ms[i].addr < ms[j].addr; }
    }
  }

  /** `len` bytes at `at` are inside the enclave, page aligned and clash with no mapping. */
  predicate Fits(ms: seq<Mapping>, base: nat, size: nat, at: nat, len: nat) {
    Aligned(at) && base <= at && at + len <= base + size && forall i | 0 <= i < |ms| :: !Clash(ms[i], at, len)
  }

  /** Pages at, at + PAGE, ... below at + upTo are mapped one by one, and nothing else was lost. */
  predicate PagesAdded(now: seq<Mapping>, before: seq<Mapping>, at: nat, upTo: nat) {
    && (forall m | m in before && m.len > 0 :: m in now)
    && (forall x | at <= x < at + upTo && Aligned(x) :: Mapping(x, PAGE) in now)
  }

  /** Adding the first page of a range that fits leaves the rest fitting. */
  lemma RestFits(ms: seq<Mapping>, base: nat, size: nat, at: nat, len: nat)
    requires Ordered(ms) && len > PAGE && Fits(ms, base, size, at, len)
    ensures Fits(Put(ms, at, PAGE), base, size, at + PAGE, len - PAGE)
  {
    var p := Put(ms, at, PAGE);
    PutMembers(ms, at, PAGE);
    forall i | 0 <= i < |p| ensures !Clash(p[i], at + PAGE, len - PAGE) {
      assert p[i] in p;
    }
  }

  lemma OnePageFits(ms: seq<Mapping>, base: nat, size: nat, at: nat, len: nat)
    requires len >= PAGE && Fits(ms, base, size, at, len)
    ensures Fits(ms, base, size, at, PAGE) && RoundUp(PAGE) == PAGE
    ensures base <= at && at + PAGE <= base + size && forall i | 0 <= i < |ms| :: !Clash(ms[i], at, PAGE)
  {
  }

  lemma OneAlignedPerPage(x: nat, y: nat)
    requires Aligned(x) && Aligned(y) && y <= x < y + PAGE
    ensures x == y
  {
  }

  lemma PageAdded(now: seq<Mapping>, before: seq<Mapping>, at: nat, upTo: nat)
    requires Ordered(now) && PagesAdded(now, before, at, upTo) && Aligned(at + upTo)
             && forall i | 0 <= i < |now| :: !Clash(now[i], at + upTo, PAGE)
    ensures PagesAdded(Put(now, at + upTo, PAGE), before, at, upTo + PAGE)
  {
    hide Put, Ordered, Aligned;
    PutMembers(now, at + upTo, PAGE);
    var p := Put(now, at + upTo, PAGE);
    forall m | m in before && m.len > 0 ensures m in p {
      assert m in now;
      var i :| 0 <= i < |now| && now[i] == m;
      assert !Clash(now[i], at + upTo, PAGE);
    }
    forall x | at <= x < at + (upTo + PAGE) && Aligned(x) ensures Mapping(x, PAGE) in p {
      if x < at + upTo { assert Mapping(x, PAGE) in now; } else { OneAlignedPerPage(x, at + upTo); }
    }
  }

  method MakeHeap(e: Enclave, len: nat) returns (ok: bool, heap: nat)
    requires e.Valid()
    modifies e
    ensures e.Valid()
    ensures ok <==> if old(e.maps) == [] then RoundUp(len) <= e.size
                    else (exists i | 0 <= i < |old(e.maps)| ::
                        old(e.maps)[i].addr - GapStart(old(e.maps), e.base, i) > len)
                         || e.base + e.size - GapStart(old(e.maps), e.base, |old(e.maps)|) >= len
    ensures ok ==> PagesAdded(e.maps, old(e.maps), heap, RoundUp(len))
  {
    hide Aligned, RoundUp, Clash, Ordered, Placed, PagesAdded, Fits, Put;
    ghost var before, total, fits := e.maps, RoundUp(len), e.maps != [] || RoundUp(len) <= e.size;
    ok, heap := e.Allocate(len);
    if !ok { return; }
    var offset := 0;
    HeapStarts(e.maps, e.base, e.size, heap, total);
    while offset < len
      invariant e.Valid() && Aligned(offset) && Aligned(heap) && offset <= total
      invariant PagesAdded(e.maps, before, heap, offset)
      invariant offset < len && fits ==> Fits(e.maps, e.base, e.size, heap + offset, total - offset)
      invariant offset > 0 ==> heap + offset <= e.base + e.size
    {
      PageStep(heap, offset, len);
      ghost var now := e.maps;
      if fits { OnePageFits(now, e.base, e.size, heap + offset, total - offset); }
      ok := e.AddPages(heap + offset, PAGE);
      if !ok { return; }
      PageAdded(now, before, heap, offset);
      if fits && total - offset > PAGE { RestFits(now, e.base, e.size, heap + offset, total - offset); }
      offset := offset + PAGE;
    }
    LastPage(offset, len);
  }

  lemma LastPage(offset: nat, len: nat)
    requires Aligned(offset) && len <= offset <= RoundUp(len)
    ensures offset == RoundUp(len)
  {
    RoundUpIsLeast(len, offset);
  }

  lemma HeapStarts(ms: seq<Mapping>, base: nat, size: nat, heap: nat, total: nat)
    requires if ms == [] then heap == base && Aligned(base) else Fits(ms, base, size, heap, total)
    ensures Aligned(heap) && Aligned(0) && PagesAdded(ms, ms, heap, 0)
    ensures ms != [] || total <= size ==> Fits(ms, base, size, heap, total)
  {
  }

  lemma PageStep(heap: nat, offset: nat, len: nat)
    requires Aligned(heap) && Aligned(offset) && offset < len
    ensures Aligned(heap + offset) && Aligned(offset + PAGE) && RoundUp(PAGE) == PAGE && offset + PAGE <= RoundUp(len)
    ensures offset + PAGE < len <==> RoundUp(len) - offset > PAGE
  {
  }
}

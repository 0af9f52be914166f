/** The page allocator of libOS/mmap.cpp: a bitmap with one bit per page and a scan that continues where
    the last one stopped (next fit). */
module PageManager {
  import opened Basics

  const PAGE: nat := 4096

  // ---------------------------------------------------------------- bits of a byte

  function Mask(k: nat): bv8
    requires k < 8
  {
    match k case 0 => 1 case 1 => 2 case 2 => 4 case 3 => 8 case 4 => 16 case 5 => 32 case 6 => 64 case 7 => 128
  }

  function Bit(x: bv8, k: nat): bool
    requires k < 8
  {
    x & Mask(k) != 0
  }

  function WithBit(x: bv8, k: nat, t: bool): (r: bv8)
    requires k < 8
  {
    if t then x | Mask(k) else x & !Mask(k)
  }

  lemma WithBitIs(x: bv8, k: nat, t: bool, j: nat)
    requires k < 8 && j < 8
    ensures Bit(WithBit(x, k, t), j) == if j == k then t else Bit(x, j)
  {
  }

  // ---------------------------------------------------------------- runs of free pages

  /** Pages e - want + 1 .. e are free and not before `lo`. */
  predicate Run(v: seq<bool>, lo: int, e: int, want: nat) {
    lo <= e - want + 1 && AllFree(v, e - want + 1, want)
  }

  predicate AllFree(v: seq<bool>, p: int, n: nat) {
    0 <= p && p + n <= |v| && forall i | p <= i < p + n :: !v[i]
  }

  /** No run that starts at or after `lo` ends before `hi`. */
  predicate NoRun(v: seq<bool>, lo: int, hi: int, want: nat) {
    forall e | lo <= e < hi :: !Run(v, lo, e, want)
  }

  /** The first run in the scan order lo, lo + 1, ... ends at `e`. */
  predicate FirstRun(v: seq<bool>, lo: int, e: int, want: nat) { Run(v, lo, e, want) && NoRun(v, lo, e, want) }

  function SetRange(v: seq<bool>, p: nat, n: nat, t: bool): (r: seq<bool>)
    requires p + n <= |v|
    ensures |r| == |v| && forall i | 0 <= i < |v| :: r[i] == if p <= i < p + n then t else v[i]
  {
    seq(|v|, i requires 0 <= i < |v| => if p <= i < p + n then t else v[i])
  }

  /** The scan from `clock` meets its first run at `e`, before or after wrapping round. */
  predicate GrantedAt(v: seq<bool>, clock: nat, e: nat, n: nat) {
    || (clock <= e < |v| - 1 && FirstRun(v, clock, e, n))
    || (NoRun(v, clock, |v|, n) && e < clock && FirstRun(v, 0, e, n))
  }

  datatype Result = Null | Failed | Address(addr: nat)

  class Manager {
    const base: nat
    /** Number of pages; bit `pages` belongs to no page and is never set. */
    const pages: nat
    var clock: nat
    const bitset: array<bv8>

    ghost predicate Valid()
      reads this, bitset
    {
      clock <= pages < 8 * bitset.Length && !Page(pages)
    }

    predicate Page(i: nat)
      requires i < 8 * bitset.Length
      reads this, bitset
    {
      Bit(bitset[i / 8], i % 8)
    }

    /** All bits up to the one past the last page. */
    ghost function View(): (v: seq<bool>)
      requires pages < 8 * bitset.Length
      reads this, bitset
      ensures |v| == pages + 1 && forall i | 0 <= i <= pages :: v[i] == Page(i)
    {
      seq(pages + 1, i requires 0 <= i <= pages reads this, bitset => Page(i))
    }

    constructor (base: nat, pages: nat)
      ensures Valid() && this.base == base && this.pages == pages && clock == 0 && View() == seq(pages + 1, i => false)
      ensures fresh(bitset)
    {
      this.base, this.pages, clock := base, pages, 0;
      var bytes := new bv8[pages / 8 + 1](i => 0);
      bitset := bytes;
    }

    method SetBit(i: nat, t: bool)
      requires i < 8 * bitset.Length
      modifies bitset
      ensures forall j | 0 <= j < 8 * bitset.Length :: Page(j) == if j == i then t else old(Page(j))
    {
      bitset[i / 8] := WithBit(bitset[i / 8], i % 8, t);
      forall j | 0 <= j < 8 * bitset.Length ensures Page(j) == if j == i then t else old(Page(j)) {
        WithBitIs(old(bitset[i / 8]), i % 8, t, j % 8);
      }
    }

    /** `explicitPage`: takes the pages iff they are in range and all free. */
    method ExplicitPage(addr: nat, n: nat) returns (ok: bool)
      requires Valid() && (addr - base) % PAGE == 0
      modifies bitset
      ensures Valid()
      ensures ok <==>
                base <= addr && addr + n * PAGE <= base + pages * PAGE && AllFree(old(View()), (addr - base) / PAGE, n)
      ensures View() == if ok then SetRange(old(View()), (addr - base) / PAGE, n, true) else old(View())
    {
      if addr < base || addr + n * PAGE > base + pages * PAGE { return false; }
      var start := (addr - base) / PAGE;
      var i := 0;
      while i < n
        invariant i <= n && AllFree(View(), start, i)
      {
        if Page(start + i) { return false; }
        i := i + 1;
      }
      i := 0;
      while i < n
        invariant i <= n && Valid()
        invariant View() == SetRange(old(View()), start, i, true)
      {
        SetBit(start + i, true);
        i := i + 1;
      }
      return true;
    }

    method FreePages(addr: nat, n: nat)
      requires Valid() && base <= addr && (addr - base) % PAGE == 0 && addr + n * PAGE <= base + pages * PAGE
      modifies bitset
      ensures Valid() && View() == SetRange(old(View()), (addr - base) / PAGE, n, false)
    {
      var start := (addr - base) / PAGE;
      var i := 0;
      while i < n
        invariant i <= n && Valid()
        invariant View() == SetRange(old(View()), start, i, false)
      {
        SetBit(start + i, false);
        i := i + 1;
      }
    }

    /** The scan that began at `start` has met its first run at the clock: the pages are taken, unless the run
        reaches past the last page. */
    method TakeRun(n: nat, ghost start: nat, ghost wrapped: bool) returns (r: Result)
      requires Valid() && n > 0 && start <= pages && (if wrapped then clock < start else start <= clock)
      requires FirstRun(View(), if wrapped then 0 else start, clock, n) && AllFree(View(), clock - n + 1, n)
      requires clock + 1 >= n && (wrapped ==> NoRun(View(), start, pages + 1, n))
      modifies bitset
      ensures Valid() && (clock < pages <==> Granted(old(View()), start, n))
      ensures clock < pages ==>
                && r == Address(base + (clock - n + 1) * PAGE)
                && GrantedAt(old(View()), start, clock, n) && View() == SetRange(old(View()), clock - n + 1, n, true)
      ensures clock == pages ==> r == Failed && View() == old(View())
    {
      hide Run, NoRun, AllFree, SetRange, Bit;
      ghost var v := View();
      var addr := base + (clock - n + 1) * PAGE;
      var ok := ExplicitPage(addr, n);
      if !ok {
        RefusedIsNotGranted(v, start, n);
        return Failed;
      }
      assert GrantedAt(v, start, clock, n) && Granted(v, start, n);
      return Address(addr);
    }

    /** `allocPages`.  The scan runs from the clock to the slot past the last page and then from page 0 up
        to where it began; `steps` counts the slots it looked at. */
    method AllocPages(n: int) returns (r: Result, ghost steps: nat)
      requires Valid()
      modifies this`clock, bitset
      ensures Valid() && steps <= pages + 1
      ensures n <= 0 ==> r == Null && View() == old(View()) && clock == old(clock)
      ensures n > 0 ==> (r.Address? <==> Granted(old(View()), old(clock), n)) && (r == Failed || r.Address?)
      ensures n > 0 && r.Address? ==>
                && clock < pages && r.addr == base + (clock - n + 1) * PAGE
                && GrantedAt(old(View()), old(clock), clock, n)
                && View() == SetRange(old(View()), clock - n + 1, n, true)
      ensures n > 0 && r == Failed ==>
                && View() == old(View())
                && ((clock == pages && FirstRun(old(View()), old(clock), pages, n))
                    || (clock == old(clock) && NoRun(old(View()), old(clock), pages + 1, n)
                        && NoRun(old(View()), 0, old(clock), n)))
    {
      hide Run, NoRun, AllFree, Scanning, SetRange, Bit, Granted, GrantedAt;
      steps := 0;
      if n <= 0 { return Null, 0; }
      var consec, start := 0, clock;
      ghost var v, wrapped := View(), false;
      ScanStarts(v, start, false, start, n);
      while true
        invariant Valid() && View() == v
        invariant if wrapped then clock < start else start <= clock
        invariant 0 <= consec < n && Scanning(v, start, wrapped, clock, consec, n)
        invariant steps == if wrapped then pages + 1 - start + clock else clock - start
        decreases if wrapped then start - clock else start + pages + 1 - clock
      {
        steps := steps + 1;
        Advance(v, start, wrapped, clock, consec, n);
        consec := if !Page(clock) then consec + 1 else 0;
        if consec == n {
          r := TakeRun(n, start, wrapped);
          return;
        }
        clock := clock + 1;
        if clock > pages {
          clock := 0;
          consec := 0;
          wrapped := true;
          ScanStarts(v, start, true, 0, n);
        }
        if clock == start {
          ScanEnds(v, start, wrapped, clock, consec, n);
          RefusedIsNotGranted(v, start, n);
          return Failed, steps;
        }
      }
    }
  }

  /** The scan is at slot `at`: it found no run so far and the last `consec` slots are free. */
  ghost predicate Scanning(v: seq<bool>, start: nat, wrapped: bool, at: nat, consec: nat, want: nat) {
    var lo := if wrapped then 0 else start;
    && lo <= at - consec && AllFree(v, at - consec, consec) && (at - consec == lo || v[at - consec - 1])
    && NoRun(v, lo, at, want) && (wrapped ==> NoRun(v, start, |v|, want))
  }

  lemma ScanStarts(v: seq<bool>, start: nat, wrapped: bool, at: nat, want: nat)
    requires start < |v| && at == (if wrapped then 0 else start) && (wrapped ==> NoRun(v, start, |v|, want))
    ensures Scanning(v, start, wrapped, at, 0, want)
  {
  }

  lemma ScanEnds(v: seq<bool>, start: nat, wrapped: bool, at: nat, consec: nat, want: nat)
    requires Scanning(v, start, wrapped, at, consec, want) && wrapped && at == start
    ensures NoRun(v, start, |v|, want) && NoRun(v, 0, start, want)
  {
  }

  /** Looking at one more slot. */
  lemma Advance(v: seq<bool>, start: nat, wrapped: bool, at: nat, consec: nat, want: nat)
    requires at < |v| && consec < want && Scanning(v, start, wrapped, at, consec, want)
    ensures var c, lo := if !v[at] then consec + 1 else 0, if wrapped then 0 else start;
            && (c == want ==>
                 && FirstRun(v, lo, at, want)
                 && AllFree(v, at - want + 1, want)
                 && at + 1 >= want
                 && (wrapped ==> NoRun(v, start, |v|, want)))
            && (c < want ==> NoRun(v, lo, at + 1, want) && Scanning(v, start, wrapped, at + 1, c, want))
  {
    var c, lo := if !v[at] then consec + 1 else 0, if wrapped then 0 else start;
    RunHere(v, lo, at, c, want);
  }

  /** With `consec` free slots in a row up to `e`, as many as the scan has seen, a run ends at `e` iff there are
      enough. */
  lemma RunHere(v: seq<bool>, lo: int, e: int, consec: nat, want: nat)
    requires 0 <= lo <= e < |v| && want > 0 && consec <= want && lo <= e - consec + 1
             && AllFree(v, e - consec + 1, consec)
    requires e - consec + 1 == lo || v[e - consec]
    ensures Run(v, lo, e, want) <==> consec == want
  {
  }

  // ---------------------------------------------------------------- exactly when a request is granted

  /** The scan meets a run before the slot past the end, or meets none on the way there and one after wrapping. */
  ghost predicate Granted(v: seq<bool>, clock: nat, n: nat) {
    exists e :: GrantedAt(v, clock, e, n)
  }

  lemma RefusedIsNotGranted(v: seq<bool>, clock: nat, n: nat)
    requires n > 0 && clock < |v|
    requires FirstRun(v, clock, |v| - 1, n) || (NoRun(v, clock, |v|, n) && NoRun(v, 0, clock, n))
    ensures !Granted(v, clock, n)
  {
  }

  predicate Room(v: seq<bool>, lo: int, hi: int, n: nat) {
    exists e | lo <= e < hi :: Run(v, lo, e, n)
  }

  lemma {:induction false} FirstOf(v: seq<bool>, lo: int, hi: int, n: nat) returns (e: int)
    requires Room(v, lo, hi, n)
    ensures lo <= e < hi && FirstRun(v, lo, e, n)
    decreases hi - lo
  {
    if Room(v, lo, hi - 1, n) {
      e := FirstOf(v, lo, hi - 1, n);
    } else {
      e := hi - 1;
    }
  }

  /** The exact condition: room at or after the clock, or room before the clock when the request could
      not also be laid over the last pages and the slot past them. */
  lemma GrantedIff(v: seq<bool>, clock: nat, n: nat)
    requires n > 0 && clock < |v| && !v[|v| - 1]
    ensures Granted(v, clock, n) <==>
              || Room(v, clock, |v| - 1, n)
              || (Room(v, 0, clock, n) && !(clock <= |v| - n && AllFree(v, |v| - n, n - 1)))
  {
    var pages := |v| - 1;
    assert Run(v, clock, pages, n) <==> clock <= |v| - n && AllFree(v, |v| - n, n - 1);
    if Room(v, clock, pages, n) {
      var e := FirstOf(v, clock, pages, n);
      assert GrantedAt(v, clock, e, n);
    } else if Room(v, 0, clock, n) && !Run(v, clock, pages, n) {
      var e := FirstOf(v, 0, clock, n);
      assert GrantedAt(v, clock, e, n);
    }
  }

  /** With the clock on the slot past the end no single page is granted, however many are free. */
  lemma OnePageIsRefusedPastTheEnd(v: seq<bool>)
    requires v != [] && !v[|v| - 1]
    ensures !Granted(v, |v| - 1, 1)
  {
    GrantedIff(v, |v| - 1, 1);
    assert !Room(v, |v| - 1, |v| - 1, 1);
  }

  // ---------------------------------------------------------------- live allocations

  datatype Range = Range(p: nat, n: nat)

  predicate Inside(r: Range, i: int) { r.p <= i < r.p + r.n }

  /** A bit is set iff its page is in a live allocation, and live allocations do not overlap. */
  predicate Covers(live: seq<Range>, v: seq<bool>) {
    && (forall i | 0 <= i < |v| :: v[i] <==> exists k | 0 <= k < |live| :: Inside(live[k], i))
    && (forall j, k | 0 <= j < k < |live| :: live[j].p + live[j].n <= live[k].p || live[k].p + live[k].n <= live[j].p)
    && (forall k | 0 <= k < |live| :: live[k].n > 0 && live[k].p + live[k].n <= |v|)
  }

  lemma RangesApart(live: seq<Range>, v: seq<bool>, p: nat, n: nat, k: nat)
    requires Covers(live, v) && n > 0 && AllFree(v, p, n) && k < |live|
    ensures live[k].p + live[k].n <= p || p + n <= live[k].p
  {
    var r := live[k];
    var i := if r.p <= p then p else r.p;
    assert 0 <= i < |v| && Inside(live[k], i) ==> v[i];
    assert p <= i < p + n ==> !v[i];
  }

  /** What is handed out overlaps no live allocation. */
  lemma AllocKeepsCover(live: seq<Range>, v: seq<bool>, p: nat, n: nat)
    requires Covers(live, v) && n > 0 && AllFree(v, p, n)
    ensures Covers(live + [Range(p, n)], SetRange(v, p, n, true))
  {
    var l, w := live + [Range(p, n)], SetRange(v, p, n, true);
    forall k | 0 <= k < |live| ensures live[k].p + live[k].n <= p || p + n <= live[k].p {
      RangesApart(live, v, p, n, k);
    }
    forall i | 0 <= i < |w| ensures w[i] <==> exists k | 0 <= k < |l| :: Inside(l[k], i) {
      if Inside(Range(p, n), i) { assert Inside(l[|live|], i); }
      if v[i] {
        var k :| 0 <= k < |live| && Inside(live[k], i);
        assert Inside(l[k], i);
      }
      if k :| 0 <= k < |l| && Inside(l[k], i) {
        if k < |live| { assert Inside(live[k], i); }
      }
    }
  }

  lemma WithoutAt(live: seq<Range>, k: nat, j: nat)
    requires k < |live| && j < |live| - 1
    ensures Without(live, k)[j] == if j < k then live[j] else live[j + 1]
  {
  }

  lemma FreedPage(live: seq<Range>, v: seq<bool>, k: nat, i: nat)
    requires Covers(live, v) && k < |live| && i < |v|
    ensures SetRange(v, live[k].p, live[k].n, false)[i]
            <==> exists j | 0 <= j < |live| - 1 :: Inside(Without(live, k)[j], i)
  {
    hide Without;
    var w, l := SetRange(v, live[k].p, live[k].n, false), Without(live, k);
    if w[i] {
      var j :| 0 <= j < |live| && Inside(live[j], i);
      var j' := if j < k then j else j - 1;
      WithoutAt(live, k, j');
      assert Inside(l[j'], i);
    }
    if j :| 0 <= j < |l| && Inside(l[j], i) {
      WithoutAt(live, k, j);
      assert Inside(live[if j < k then j else j + 1], i);
    }
  }

  lemma FreeKeepsCover(live: seq<Range>, v: seq<bool>, k: nat)
    requires Covers(live, v) && k < |live|
    ensures Covers(Without(live, k), SetRange(v, live[k].p, live[k].n, false))
  {
    hide Without;
    var l, w := Without(live, k), SetRange(v, live[k].p, live[k].n, false);
    forall i | 0 <= i < |w| ensures w[i] <==> exists j | 0 <= j < |l| :: Inside(l[j], i) { FreedPage(live, v, k, i); }
    forall j | 0 <= j < |l| ensures l[j].n > 0 && l[j].p + l[j].n <= |w| { WithoutAt(live, k, j); }
    forall i, j | 0 <= i < j < |l| ensures l[i].p + l[i].n <= l[j].p || l[j].p + l[j].n <= l[i].p {
      WithoutAt(live, k, i);
      WithoutAt(live, k, j);
    }
  }

  /** Freeing what was just handed out restores the bitmap. */
  lemma FreeUndoesAlloc(v: seq<bool>, p: nat, n: nat)
    requires AllFree(v, p, n)
    ensures SetRange(SetRange(v, p, n, true), p, n, false) == v
  {
    var w := SetRange(SetRange(v, p, n, true), p, n, false);
    forall i | 0 <= i < |v| ensures w[i] == v[i] { }
  }

  // ---------------------------------------------------------------- any run of requests

  /** `allocPages(n)`, `explicitPage` for `n` pages from page `p` on, or `freePages` of the k-th live allocation. */
  datatype Request = Get(count: int) | Fix(p: nat, n: nat) | Give(k: nat)

  /** The pages of live allocations are the set bits, each in one allocation, and none is past the last page. */
  ghost predicate Accounts(m: Manager, live: seq<Range>)
    reads m, m.bitset
  {
    m.Valid() && Covers(live, m.View()) && forall k | 0 <= k < |live| :: live[k].p + live[k].n <= m.pages
  }

  lemma InsidePages(live: seq<Range>, v: seq<bool>, k: nat)
    requires Covers(live, v) && v != [] && !v[|v| - 1] && k < |live|
    ensures live[k].p + live[k].n <= |v| - 1
  {
    assert !Inside(live[k], |v| - 1);
  }

  lemma AllPagesInside(m: Manager, live: seq<Range>)
    requires m.Valid() && Covers(live, m.View())
    ensures Accounts(m, live)
  {
    forall k | 0 <= k < |live| ensures live[k].p + live[k].n <= m.pages { InsidePages(live, m.View(), k); }
  }

  method Serve(m: Manager, request: Request, live: seq<Range>) returns (now: seq<Range>)
    requires Accounts(m, live)
    modifies m`clock, m.bitset
    ensures Accounts(m, now)
    ensures match request
            case Get(count) =>
              if count > 0 && Granted(old(m.View()), old(m.clock), count)
              then AllFree(old(m.View()), m.clock - count + 1, count)
                  && now == live + [Range(m.clock - count + 1, count)]
              else now == live
            case Fix(p, n) =>
              now == live + if n > 0 && p + n <= m.pages && AllFree(old(m.View()), p, n) then [Range(p, n)] else []
            case Give(k) => now == if k < |live| then Without(live, k) else live
  {
    hide Covers, AllFree, SetRange, Without, Run, NoRun;
    now := live;
    ghost var v := m.View();
    match request {
      case Get(count) =>
        var r, steps := m.AllocPages(count);
        if r.Address? {
          GrantedIsFree(v, m.clock, count);
          AllocKeepsCover(live, v, m.clock - count + 1, count);
          now := live + [Range((r.addr - m.base) / PAGE, count)];
        }
      case Fix(p, n) =>
        var ok := m.ExplicitPage(m.base + p * PAGE, n);
        if ok && n > 0 {
          AllocKeepsCover(live, v, p, n);
          now := live + [Range(p, n)];
        } else if ok {
          NothingSet(v, p);
        }
      case Give(k) =>
        if k < |live| {
          m.FreePages(m.base + live[k].p * PAGE, live[k].n);
          FreeKeepsCover(live, v, k);
          now := Without(live, k);
        }
    }
    AllPagesInside(m, now);
  }

  /** A client with any sequence of requests: at the end, as after each request, the set bits are exactly the
      pages of its live allocations, which do not overlap. */
  method RunRequests(m: Manager, requests: seq<Request>) returns (live: seq<Range>)
    requires m.Valid() && m.View() == seq(m.pages + 1, i => false)
    modifies m`clock, m.bitset
    ensures Accounts(m, live)
  {
    live := [];
    var i := 0;
    while i < |requests|
      invariant i <= |requests| && Accounts(m, live)
    {
      live := Serve(m, requests[i], live);
      i := i + 1;
    }
  }

  lemma GrantedIsFree(v: seq<bool>, e: nat, n: nat)
    requires n > 0 && exists lo :: FirstRun(v, lo, e, n) && 0 <= lo
    ensures e - n + 1 >= 0 && AllFree(v, e - n + 1, n)
  {
  }

  lemma NothingSet(v: seq<bool>, p: nat)
    requires p <= |v|
    ensures SetRange(v, p, 0, true) == v
  {
  }

  /** A request for one page more than there are, on a new manager, leaves the clock past the last page; from
      then on every request for a single page fails, although all pages are free. */
  method SinglePagesAreRefusedForGood(base: nat, pages: nat, requests: nat) returns (m: Manager, results: seq<Result>)
    requires pages > 0
    ensures fresh(m) && m.Valid() && m.pages == pages && m.View() == seq(pages + 1, i => false) && m.clock == pages
    ensures |results| == requests && forall k | 0 <= k < requests :: results[k] == Failed
  {
    m := new Manager(base, pages);
    ghost var v := m.View();
    var r, steps := m.AllocPages(pages + 1);
    OnlyRunIsTheWhole(v, pages);
    results := [];
    var k := 0;
    while k < requests
      invariant k <= requests && |results| == k && forall j | 0 <= j < k :: results[j] == Failed
      invariant m.Valid() && m.View() == v && m.clock == pages && fresh(m) && fresh(m.bitset)
    {
      OnePageIsRefusedPastTheEnd(v);
      r, steps := m.AllocPages(1);
      assert FirstRun(v, pages, pages, 1);
      results := results + [r];
      k := k + 1;
    }
  }

  lemma OnlyRunIsTheWhole(v: seq<bool>, pages: nat)
    requires v == seq(pages + 1, i => false)
    ensures FirstRun(v, 0, pages, pages + 1) && !Granted(v, 0, pages + 1)
  {
  }
}

/** The slab cache of libOS/slub.cpp: slabs of 64 objects on three doubly linked lists, one bitmap word
    per slab, and the size classes in front of them. */
module Slab {
  import opened Basics
  import Division

  const OBJECTS: nat := 64
  /** sizeof(object_header) */
  const HEADER: nat := 8

  // ---------------------------------------------------------------- bitmap words

  function Clear(bits: seq<bool>): nat {
    if bits == [] then 0 else (if bits[0] then 0 else 1) + Clear(bits[1..])
  }

  lemma {:induction false} ClearConcat(a: seq<bool>, b: seq<bool>)
    ensures Clear(a + b) == Clear(a) + Clear(b)
  {
    if a == [] {
      assert a + b == b;
    } else {
      assert (a + b)[1..] == a[1..] + b;
      ClearConcat(a[1..], b);
    }
  }

  lemma ClearUpdate(bits: seq<bool>, j: nat, v: bool)
    requires j < |bits| && bits[j] != v
    ensures Clear(bits[j := v]) == if v then Clear(bits) - 1 else Clear(bits) + 1
  {
    assert bits == bits[..j] + ([bits[j]] + bits[j + 1..]) && bits[j := v] == bits[..j] + ([v] + bits[j + 1..]);
    ClearConcat(bits[..j], [bits[j]] + bits[j + 1..]);
    ClearConcat(bits[..j], [v] + bits[j + 1..]);
    ClearConcat([bits[j]], bits[j + 1..]);
    ClearConcat([v], bits[j + 1..]);
  }

  lemma {:induction false} ClearBounds(bits: seq<bool>)
    ensures Clear(bits) <= |bits|
    ensures Clear(bits) == 0 <==> forall i | 0 <= i < |bits| :: bits[i]
    ensures Clear(bits) == |bits| <==> forall i | 0 <= i < |bits| :: !bits[i]
  {
    if bits != [] {
      ClearBounds(bits[1..]);
      assert forall i | 0 < i < |bits| :: bits[i] == bits[1..][i - 1];
    }
  }

  /** `scan_and_set`: word by word, the first clear bit of the word.  Bits of an incomplete last word
      are never taken. */
  method ScanAndSet(bits: seq<bool>) returns (slot: int, now: seq<bool>)
    ensures -1 <= slot < |bits| / 64 * 64
    ensures slot >= 0 ==> !bits[slot] && now == bits[slot := true] && forall i | 0 <= i < slot :: bits[i]
    ensures slot == -1 ==> now == bits && forall i | 0 <= i < |bits| / 64 * 64 :: bits[i]
  {
    var i := 0;
    while i < |bits| / 64
      invariant i <= |bits| / 64
      invariant forall k | 0 <= k < 64 * i :: bits[k]
    {
      var j := 0;
      while j < 64 && bits[64 * i + j]
        invariant j <= 64
        invariant forall k | 0 <= k < 64 * i + j :: bits[k]
      {
        j := j + 1;
      }
      if j < 64 {
        return 64 * i + j, bits[64 * i + j := true];
      }
      i := i + 1;
    }
    return -1, bits;
  }

  // ---------------------------------------------------------------- slots and addresses

  function ObjectAt(mem: nat, size: nat, slot: nat): nat { mem + slot * (size + HEADER) + HEADER }

  function SlotOf(mem: nat, size: nat, addr: nat): nat
    requires addr >= mem + HEADER
  {
    (addr - HEADER - mem) / (size + HEADER)
  }

  /** Freeing finds the slot that allocation handed out. */
  lemma SlotRoundTrip(mem: nat, size: nat, slot: nat)
    ensures ObjectAt(mem, size, slot) >= mem + HEADER
    ensures SlotOf(mem, size, ObjectAt(mem, size, slot)) == slot
  {
    var k := size + HEADER;
    assert slot * k >= 0;
    Division.OfProduct(slot, k);
  }

  /** Objects of two slots of a slab, headers included, do not overlap. */
  lemma SlotsAreDisjoint(mem: nat, size: nat, i: nat, j: nat)
    requires i < j
    ensures ObjectAt(mem, size, i) + size <= ObjectAt(mem, size, j) - HEADER
  {
    var k := size + HEADER;
    Division.ProductMonotone(i + 1, j, k);
    assert (i + 1) * k == i * k + k;
  }

  /** Where `new_slab` puts slot 0, for a slab structure of `header` bytes at `base`. */
  function FirstSlot(base: nat, header: nat, size: nat): nat
    requires header > 0
  {
    (base + header - 1) / (size + HEADER) * (size + HEADER) + (size + HEADER)
  }

  lemma SlotsFollowSlabHeader(base: nat, header: nat, size: nat)
    requires header > 0
    ensures base + header <= FirstSlot(base, header, size) <= base + header - 1 + (size + HEADER)
    ensures FirstSlot(base, header, size) % (size + HEADER) == 0
  {
    var x, k := base + header - 1, size + HEADER;
    assert x == k * (x / k) + x % k;
    assert (x / k + 1) * k == x / k * k + k;
    Division.OfProduct(x / k + 1, k);
  }

  // ---------------------------------------------------------------- size classes

  /** Number of significant bits: 64 - clz. */
  function BitLength(x: nat): nat { if x == 0 then 0 else 1 + BitLength(x / 2) }

  lemma {:induction false} BitLengthBounds(x: nat)
    ensures x < Pow2(BitLength(x))
    ensures x > 0 ==> Pow2(BitLength(x)) <= 2 * x
  {
    if x > 0 { BitLengthBounds(x / 2); }
  }

  const BUCKETS: nat := 10

  function BucketSize(i: nat): nat { 8 * Pow2(i + 1) }

  function BucketIndex(len: nat): int { if len <= 8 then 0 else BitLength(len - 1) - 3 }

  /** Requests up to 4096 bytes, and no others, are served from a bucket; the bucket is large enough,
      and above 8 bytes it is at least twice and less than four times as large as the request. */
  lemma BucketIsLargeEnough(len: nat)
    ensures BucketIndex(len) >= 0
    ensures BucketIndex(len) < BUCKETS <==> len <= 4096
    ensures len <= BucketSize(BucketIndex(len))
    ensures len > 8 ==> 2 * len <= BucketSize(BucketIndex(len)) < 4 * len
  {
    assert Pow2(3) == 8 && Pow2(12) == 4096;
    if len > 8 {
      var n := BitLength(len - 1);
      BitLengthBounds(len - 1);
      if n < 4 { Pow2Monotone(n, 3); }
      if n <= 12 { Pow2Monotone(n, 12); }
      if n > 12 { Pow2Monotone(12, n - 1); }
      assert BucketSize(n - 3) == 2 * Pow2(n) by { assert Pow2(n) == 2 * Pow2(n - 1) == 4 * Pow2(n - 2); }
    }
  }

  // ---------------------------------------------------------------- doubly linked lists of slabs

  class SlabNode {
    var next: SlabNode?
    var prev: SlabNode?
    var freeNr: int
    var bits: seq<bool>
    const mem: nat
    const sizeEach: nat

    constructor (mem: nat, size: nat)
      ensures next == null && prev == null && freeNr == OBJECTS && bits == seq(OBJECTS, i => false)
      ensures this.mem == mem && sizeEach == size
    {
      next, prev, freeNr, bits := null, null, OBJECTS, seq(OBJECTS, i => false);
      this.mem, sizeEach := mem, size;
    }
  }

  predicate Distinct(list: seq<SlabNode>) {
    forall i, j | 0 <= i < j < |list| :: list[i] != list[j]
  }

  function At(list: seq<SlabNode>, i: int): SlabNode? { if 0 <= i < |list| then list[i] else null }

  /** The links of `list`, read from `head`, are those of a null-terminated doubly linked list. */
  predicate Chain(list: seq<SlabNode>, head: SlabNode?)
    reads list`next, list`prev
  {
    && Distinct(list) && head == At(list, 0)
    && forall i | 0 <= i < |list| :: list[i].next == At(list, i + 1) && list[i].prev == At(list, i - 1)
  }

  /** `list_add_head` */
  method ListAddHead(head: SlabNode?, obj: SlabNode, ghost list: seq<SlabNode>) returns (now: SlabNode?)
    requires Chain(list, head) && obj !in list
    modifies obj`next, obj`prev, list`prev
    ensures Chain([obj] + list, now)
  {
    obj.next := head;
    if obj.next != null { obj.next.prev := obj; }
    obj.prev := null;
    now := obj;
    ghost var l := [obj] + list;
    assert forall i | 1 <= i < |l| :: l[i] == list[i - 1];
  }

  lemma WithoutAt(list: seq<SlabNode>, k: nat, j: int)
    requires k < |list|
    ensures At(Without(list, k), j) == if j < k then At(list, j) else At(list, j + 1)
  {
  }

  lemma WithoutDistinct(list: seq<SlabNode>, k: nat)
    requires k < |list| && Distinct(list)
    ensures Distinct(Without(list, k))
  {
  }

  /** Links that skip element `k` are the links of the list without it. */
  lemma Spliced(list: seq<SlabNode>, k: nat, head: SlabNode?)
    requires Distinct(list) && k < |list| && head == (if k == 0 then At(list, 1) else At(list, 0))
    requires forall i | 0 <= i < k ::
               && list[i].prev == At(list, i - 1)
               && list[i].next == (if i == k - 1 then At(list, k + 1) else At(list, i + 1))
    requires forall i | k < i < |list| ::
               && list[i].next == At(list, i + 1)
               && list[i].prev == (if i == k + 1 then At(list, k - 1) else At(list, i - 1))
    ensures Chain(Without(list, k), head)
  {
    hide Distinct;
    var l := Without(list, k);
    WithoutDistinct(list, k);
    WithoutAt(list, k, 0);
    forall i | 0 <= i < |l| ensures l[i].next == At(l, i + 1) && l[i].prev == At(l, i - 1) {
      WithoutAt(list, k, i);
      WithoutAt(list, k, i + 1);
      WithoutAt(list, k, i - 1);
    }
  }

  /** `list_del` */
  method ListDel(head: SlabNode?, obj: SlabNode, ghost list: seq<SlabNode>, ghost k: nat) returns (now: SlabNode?)
    requires Chain(list, head) && k < |list| && list[k] == obj
    modifies list`next, list`prev
    ensures Chain(Without(list, k), now) && obj.next == null && obj.prev == null
  {
    now := head;
    assert obj.prev == At(list, k - 1) && obj.next == At(list, k + 1);
    if obj.prev != null { obj.prev.next := obj.next; } else { now := obj.next; }
    if obj.next != null { obj.next.prev := obj.prev; }
    obj.prev := null;
    obj.next := null;
    Spliced(list, k, now);
  }

  lemma WithoutMembers(list: seq<SlabNode>, k: nat)
    requires Distinct(list) && k < |list|
    ensures list[k] !in Without(list, k)
    ensures forall s :: s in Without(list, k) ==> s in list
    ensures forall s :: s in list && s != list[k] ==> s in Without(list, k)
  {
    var l := Without(list, k);
    forall s | s in list && s != list[k] ensures s in l {
      var i :| 0 <= i < |list| && list[i] == s;
      assert if i < k then l[i] == s else l[i - 1] == s;
    }
  }

  /** `list_del` from one list followed by `list_add_head` to another. */
  method Move(s: SlabNode, src: SlabNode?, dst: SlabNode?, ghost a: seq<SlabNode>, ghost b: seq<SlabNode>, ghost k: nat)
    returns (src': SlabNode?, dst': SlabNode?)
    requires Chain(a, src) && Chain(b, dst) && Apart(a, b) && k < |a| && a[k] == s
    modifies a`next, a`prev, b`prev
    ensures Chain(Without(a, k), src') && Chain([s] + b, dst')
  {
    hide Distinct, At, Without;
    WithoutMembers(a, k);
    src' := ListDel(src, s, a, k);
    forall i | 0 <= i < |b| ensures b[i].next == old(b[i].next) && b[i].prev == old(b[i].prev) { assert b[i] in b; }
    ghost var rest := Without(a, k);
    label removed:
    dst' := ListAddHead(dst, s, b);
    forall x | x in a && x in rest ensures x.next == old@removed(x.next) && x.prev == old@removed(x.prev) { }
    assert forall i | 0 <= i < |rest| :: rest[i] in a && rest[i] in rest;
  }

  // ---------------------------------------------------------------- the cache of one CPU

  /** `free_nr` is the number of clear bits. */
  predicate Counts(s: SlabNode)
    reads s`bits, s`freeNr
  {
    |s.bits| == OBJECTS && s.freeNr == Clear(s.bits)
  }

  /** One of the 64 places for objects in a slab. */
  datatype Slot = Slot(slab: SlabNode, index: nat)

  predicate Apart(a: seq<SlabNode>, b: seq<SlabNode>) { forall s | s in a :: s !in b }

  class SlabCache {
    const size: nat
    /** sizeof(slab) */
    const structSize: nat
    var empty: SlabNode?
    var partial: SlabNode?
    var full: SlabNode?

    ghost var es: seq<SlabNode>
    ghost var ps: seq<SlabNode>
    ghost var fs: seq<SlabNode>
    /** All slabs, and the slots handed out and not yet given back. */
    ghost var slabs: set<SlabNode>
    ghost var live: set<Slot>

    /** The three lists are well linked and share no slab. */
    ghost predicate Linked()
      reads this`empty, this`partial, this`full, this`es, this`ps, this`fs, es`next, es`prev, ps`next, ps`prev, fs`next,
            fs`prev
    {
      Chain(es, empty) && Chain(ps, partial) && Chain(fs, full) && Apart(es, ps) && Apart(es, fs) && Apart(ps, fs)
    }

    ghost predicate Has(s: SlabNode)
      reads this`es, this`ps, this`fs
    {
      s in es || s in ps || s in fs
    }

    /** Slab `s` is on the list its counter calls for. */
    ghost predicate Placed(s: SlabNode)
      reads this`es, this`ps, this`fs, s`bits, s`freeNr
    {
      && Counts(s) && s.sizeEach == size
      && (s in es <==> s.freeNr == OBJECTS) && (s in ps <==> 0 < s.freeNr < OBJECTS) && (s in fs <==> s.freeNr == 0)
    }

    /** Every slab but `s` is where it belongs. */
    ghost predicate PlacedBut(s: SlabNode?)
      reads this`es, this`ps, this`fs, es, ps, fs
    {
      (forall x | x in es && x != s :: Placed(x)) && (forall x | x in ps && x != s :: Placed(x))
          && (forall x | x in fs && x != s :: Placed(x))
    }

    ghost predicate Arranged()
      reads this`empty, this`partial, this`full, this`es, this`ps, this`fs, es, ps, fs
    {
      Linked() && structSize > 0 && PlacedBut(null)
    }

    ghost predicate Owned()
      reads this
    {
      && (forall x | x in slabs :: Has(x))
      && (forall x | x in es :: x in slabs) && (forall x | x in ps :: x in slabs) && (forall x | x in fs :: x in slabs)
    }

    lemma OwnsLists()
      requires forall x :: x in slabs <==> x in es + ps + fs
      ensures Owned()
    {
      forall x | Has(x) ensures x in slabs { assert x in es + ps + fs; }
    }

    /** The set bits are the live slots. */
    ghost predicate LiveOk()
      reads this, slabs
    {
      && (forall x | x in live :: x.slab in slabs && x.index < |x.slab.bits| && x.slab.bits[x.index])
      && (forall s, k | s in slabs && 0 <= k < |s.bits| && s.bits[k] :: Slot(s, k) in live)
    }

    ghost predicate Valid()
      reads this, slabs
    {
      Owned() && Arranged() && LiveOk()
    }

    /** `new_slub_per_cpu`, with the address its mapper returned. */
    constructor (size: nat, structSize: nat, base: nat)
      requires structSize > 0
      ensures Valid() && this.size == size && this.structSize == structSize && live == {} && fresh(slabs)
      ensures ps == [] && fs == [] && |es| == 1
    {
      this.size, this.structSize := size, structSize;
      partial, full, ps, fs := null, null, [], [];
      var first := new SlabNode(FirstSlot(base, structSize, size), size);
      empty, es, slabs, live := first, [first], {first}, {};
      AllClear(first.bits);
    }

    lemma Heads()
      requires Linked()
      ensures partial != null ==> ps != [] && partial == ps[0] && partial in ps
      ensures empty != null ==> es != [] && empty == es[0] && empty in es
      ensures partial == null ==> ps == []
      ensures empty == null ==> es == []
    {
    }

    /** `slab_allocate_object` */
    method AllocateObject(s: SlabNode) returns (p: nat, ghost slot: nat)
      requires Counts(s) && s.freeNr > 0
      modifies s`bits, s`freeNr
      ensures Counts(s) && s.freeNr == old(s.freeNr) - 1
      ensures slot < OBJECTS && !old(s.bits)[slot] && s.bits == old(s.bits)[slot := true]
              && p == ObjectAt(s.mem, s.sizeEach, slot)
      ensures forall k | 0 <= k < slot :: old(s.bits)[k]
    {
      ClearBounds(s.bits);
      var found, now := ScanAndSet(s.bits);
      ClearUpdate(s.bits, found, true);
      p := ObjectAt(s.mem, s.sizeEach, found);
      slot := found;
      s.bits := now;
      s.freeNr := s.freeNr - 1;
    }

    /** `slab_free_object`: the slot is computed from the address. */
    method FreeObject(s: SlabNode, p: nat, ghost slot: nat)
      requires Counts(s) && slot < OBJECTS && s.bits[slot] && p == ObjectAt(s.mem, s.sizeEach, slot)
      modifies s`bits, s`freeNr
      ensures Counts(s) && s.freeNr == old(s.freeNr) + 1 && s.bits == old(s.bits)[slot := false]
    {
      SlotRoundTrip(s.mem, s.sizeEach, slot);
      ClearUpdate(s.bits, slot, false);
      s.bits := s.bits[SlotOf(s.mem, s.sizeEach, p) := false];
      s.freeNr := s.freeNr + 1;
    }

    /** A full slab leaves the partial list. */
    method PartialToFull(s: SlabNode, ghost k: nat)
      requires Linked() && k < |ps| && ps[k] == s
      modifies this`partial, this`full, this`ps, this`fs, ps`next, ps`prev, fs`prev
      ensures Linked() && (forall x :: x in ps <==> x in old(ps) && x != s)
              && (forall x :: x in fs <==> x in old(fs) || x == s)
    {
      hide Distinct, At, Without;
      WithoutMembers(ps, k);
      partial, full := Move(s, partial, full, ps, fs, k);
      forall i | 0 <= i < |es| ensures es[i].next == old(es[i].next) && es[i].prev == old(es[i].prev) {
        assert es[i] in es;
      }
      ps, fs := Without(ps, k), [s] + fs;
    }

    method EmptyToPartial(s: SlabNode, ghost k: nat)
      requires Linked() && k < |es| && es[k] == s
      modifies this`empty, this`partial, this`es, this`ps, es`next, es`prev, ps`prev
      ensures Linked() && (forall x :: x in es <==> x in old(es) && x != s)
              && (forall x :: x in ps <==> x in old(ps) || x == s)
    {
      hide Distinct, At, Without;
      WithoutMembers(es, k);
      empty, partial := Move(s, empty, partial, es, ps, k);
      forall i | 0 <= i < |fs| ensures fs[i].next == old(fs[i].next) && fs[i].prev == old(fs[i].prev) {
        assert fs[i] in fs;
      }
      es, ps := Without(es, k), [s] + ps;
    }

    method FullToPartial(s: SlabNode, ghost k: nat)
      requires Linked() && k < |fs| && fs[k] == s
      modifies this`full, this`partial, this`fs, this`ps, fs`next, fs`prev, ps`prev
      ensures Linked() && (forall x :: x in fs <==> x in old(fs) && x != s)
              && (forall x :: x in ps <==> x in old(ps) || x == s)
    {
      hide Distinct, At, Without;
      WithoutMembers(fs, k);
      full, partial := Move(s, full, partial, fs, ps, k);
      forall i | 0 <= i < |es| ensures es[i].next == old(es[i].next) && es[i].prev == old(es[i].prev) {
        assert es[i] in es;
      }
      fs, ps := Without(fs, k), [s] + ps;
    }

    method PartialToEmpty(s: SlabNode, ghost k: nat)
      requires Linked() && k < |ps| && ps[k] == s
      modifies this`partial, this`empty, this`ps, this`es, ps`next, ps`prev, es`prev
      ensures Linked() && (forall x :: x in ps <==> x in old(ps) && x != s)
              && (forall x :: x in es <==> x in old(es) || x == s)
    {
      hide Distinct, At, Without;
      WithoutMembers(ps, k);
      partial, empty := Move(s, partial, empty, ps, es, k);
      forall i | 0 <= i < |fs| ensures fs[i].next == old(fs[i].next) && fs[i].prev == old(fs[i].prev) {
        assert fs[i] in fs;
      }
      ps, es := Without(ps, k), [s] + es;
    }

    /** Slab `s` of the partial list has just given out an object. */
    method SettlePartial(s: SlabNode, ghost k: nat)
      requires Linked() && structSize > 0 && k < |ps| && ps[k] == s && Counts(s) && s.sizeEach == size
               && s.freeNr < OBJECTS && PlacedBut(s)
      modifies this`partial, this`full, this`ps, this`fs, ps`next, ps`prev, fs`prev
      ensures Arranged() && SameSlabs(old(es + ps + fs), es + ps + fs)
    {
      hide Chain, Clear;
      assert s in ps;
      if s.freeNr == 0 { PartialToFull(s, k); }
    }

    /** Slab `s` of the empty list has just given out an object. */
    method SettleEmpty(s: SlabNode, ghost k: nat)
      requires Linked() && structSize > 0 && k < |es| && es[k] == s && Counts(s) && s.sizeEach == size
               && s.freeNr == OBJECTS - 1 && PlacedBut(s)
      modifies this`partial, this`empty, this`ps, this`es, es`next, es`prev, ps`prev
      ensures Arranged() && SameSlabs(old(es + ps + fs), es + ps + fs)
    {
      hide Chain, Clear;
      assert s in es;
      EmptyToPartial(s, k);
    }

    /** Slab `s` has just taken back an object; it was full or partial before. */
    method SettleFreed(s: SlabNode)
      requires Linked() && structSize > 0 && Counts(s) && s.sizeEach == size && s.freeNr > 0 && PlacedBut(s)
      requires if s.freeNr == 1 then s in fs else s in ps
      modifies this`empty, this`partial, this`full, this`es, this`ps, this`fs, es`next, es`prev, ps`next, ps`prev,
               fs`next, fs`prev
      ensures Arranged() && SameSlabs(old(es + ps + fs), es + ps + fs)
    {
      hide Chain, Clear;
      ClearBounds(s.bits);
      if s.freeNr == 1 {
        ghost var k :| 0 <= k < |fs| && fs[k] == s;
        FullToPartial(s, k);
      } else if s.freeNr == OBJECTS {
        ghost var k :| 0 <= k < |ps| && ps[k] == s;
        PartialToEmpty(s, k);
      }
    }

    /** The slow path: a new slab becomes the only partial one. */
    method AllocateNew(base: nat) returns (p: nat, s: SlabNode, ghost slot: nat)
      requires Arranged() && ps == [] && es == []
      modifies this`partial, this`ps
      ensures Arranged() && fresh(s) && slot < OBJECTS && p == ObjectAt(s.mem, size, slot)
      ensures slot == 0 && s.bits == seq(OBJECTS, i => false)[slot := true]
      ensures ps == [s]
    {
      hide Clear, FirstSlot;
      s := new SlabNode(FirstSlot(base, structSize, size), size);
      AllClear(s.bits);
      partial, ps := s, [s];
      assert !s.bits[0];
      p, slot := AllocateObject(s);
    }

    /** `slub_allocate_per_cpu`: a partial slab first, then an empty one, then a new one at `base`. */
    method AllocateSlot(base: nat) returns (p: nat, s: SlabNode, ghost slot: nat)
      requires Arranged()
      modifies this`empty, this`partial, this`full, this`es, this`ps, this`fs, es, ps, fs
      ensures Arranged() && SameSlabs(old(es + ps + fs) + [s], es + ps + fs)
      ensures slot < OBJECTS && |s.bits| == OBJECTS && p == ObjectAt(s.mem, size, slot)
      ensures if old(ps) != [] then s == old(ps)[0] else if old(es) != [] then s == old(es)[0] else fresh(s)
      ensures if fresh(s) then s.bits == seq(OBJECTS, i => false)[slot := true]
              else old(Has(s)) && |old(s.bits)| == OBJECTS && !old(s.bits)[slot] && s.bits == old(s.bits)[slot := true]
      ensures forall k | 0 <= k < slot :: s.bits[k]
      ensures forall x | x in old(es + ps + fs) && x != s :: x.bits == old(x.bits)
    {
      hide Chain, Clear, Linked, FirstSlot;
      Heads();
      if partial != null {
        s := partial;
        assert Placed(s);
        p, slot := AllocateObject(s);
        SettlePartial(s, 0);
      } else if empty != null {
        s := empty;
        assert Placed(s);
        p, slot := AllocateObject(s);
        SettleEmpty(s, 0);
      } else {
        p, s, slot := AllocateNew(base);
      }
    }

    /** The slot handed out is new among the live ones, and the lowest that its slab has. */
    method Allocate(base: nat) returns (p: nat, s: SlabNode, ghost slot: nat)
      requires Valid()
      modifies this, slabs
      ensures Valid() && slabs == old(slabs) + {s} && fresh(slabs - old(slabs))
      ensures Slot(s, slot) !in old(live) && live == old(live) + {Slot(s, slot)} && slot < OBJECTS
              && p == ObjectAt(s.mem, size, slot)
      ensures if old(ps) != [] then s == old(ps)[0] else if old(es) != [] then s == old(es)[0] else fresh(s)
      ensures forall k | 0 <= k < slot :: Slot(s, k) in live
    {
      hide Arranged, Counts;
      ghost var before := es + ps + fs;
      assert forall x :: x in before <==> x in slabs;
      p, s, slot := AllocateSlot(base);
      slabs, live := slabs + {s}, live + {Slot(s, slot)};
      ghost var after := es + ps + fs;
      assert forall x :: x in after <==> x in before + [s];
      OwnsLists();
    }

    /** `slub_free`, given the slab that the object's header names. */
    method Free(p: nat, s: SlabNode, ghost slot: nat)
      requires Valid() && Slot(s, slot) in live && p == ObjectAt(s.mem, size, slot)
      modifies this, slabs
      ensures Valid() && slabs == old(slabs) && live == old(live) - {Slot(s, slot)}
    {
      hide Arranged;
      ghost var before := es + ps + fs;
      assert forall x :: x in before <==> x in slabs;
      FreeSlot(p, s, slot);
      live := live - {Slot(s, slot)};
      ghost var after := es + ps + fs;
      assert forall x :: x in after <==> x in before;
      OwnsLists();
    }

    method FreeSlot(p: nat, s: SlabNode, ghost slot: nat)
      requires Arranged() && Has(s) && slot < |s.bits| && s.bits[slot] && p == ObjectAt(s.mem, size, slot)
      modifies this`empty, this`partial, this`full, this`es, this`ps, this`fs, es, ps, fs
      ensures Arranged() && SameSlabs(old(es + ps + fs), es + ps + fs) && s.bits == old(s.bits)[slot := false]
      ensures forall x | x in old(es + ps + fs) && x != s :: x.bits == old(x.bits)
    {
      hide Chain, Clear, Linked;
      ClearBounds(s.bits);
      assert Placed(s);
      FreeObject(s, p, slot);
      SettleFreed(s);
    }

    /** Live objects of a slab do not overlap. */
    lemma LiveObjectsAreDisjoint(x: Slot, y: Slot)
      requires Valid() && x in live && y in live && x.slab == y.slab && x != y
      ensures var a, b := ObjectAt(x.slab.mem, size, x.index), ObjectAt(y.slab.mem, size, y.index);
              a + size <= b - HEADER || b + size <= a - HEADER
    {
      if x.index < y.index {
        SlotsAreDisjoint(x.slab.mem, size, x.index, y.index);
      } else {
        SlotsAreDisjoint(x.slab.mem, size, y.index, x.index);
      }
    }
  }

  /** The same slabs, wherever they are. */
  ghost predicate SameSlabs(a: seq<SlabNode>, b: seq<SlabNode>) {
    (forall x | x in a :: x in b) && (forall x | x in b :: x in a)
  }

  // ---------------------------------------------------------------- any run of allocations and frees

  /** Allocate, or free the k-th object held. */
  datatype Request = Get(base: nat) | Give(k: nat)

  /** The slots are live and the objects held are exactly theirs, each once. */
  ghost predicate Holds(c: SlabCache, held: seq<(nat, SlabNode)>, slots: seq<Slot>)
    reads c
  {
    && |held| == |slots| && (forall i, j | 0 <= i < j < |slots| :: slots[i] != slots[j])
    && (forall i | 0 <= i < |slots| :: slots[i] in c.live) && (forall x | x in c.live :: x in slots)
    && forall i | 0 <= i < |slots| :: held[i] == (ObjectAt(slots[i].slab.mem, c.size, slots[i].index), slots[i].slab)
  }

  lemma GivenBack(c: SlabCache, held: seq<(nat, SlabNode)>, slots: seq<Slot>, k: nat, live: set<Slot>)
    requires |held| == |slots| && k < |slots| && (forall i, j | 0 <= i < j < |slots| :: slots[i] != slots[j])
    requires (forall i | 0 <= i < |slots| :: slots[i] in live) && (forall x | x in live :: x in slots)
    requires forall i | 0 <= i < |slots| :: held[i] == (ObjectAt(slots[i].slab.mem, c.size, slots[i].index),
             slots[i].slab)
    requires c.live == live - {slots[k]}
    ensures Holds(c, held[..k] + held[k + 1..], slots[..k] + slots[k + 1..])
  {
    var rest := slots[..k] + slots[k + 1..];
    forall x | x in c.live ensures x in rest {
      var i :| 0 <= i < |slots| && slots[i] == x;
      assert rest[if i < k then i else i - 1] == x;
    }
  }

  /** Objects of one slab that are held at the same time never overlap, headers included. */
  ghost predicate HeldApart(held: seq<(nat, SlabNode)>, size: nat) {
    forall i, j | 0 <= i < |held| && 0 <= j < |held| && i != j && held[i].1 == held[j].1 ::
      held[i].0 + size <= held[j].0 - HEADER || held[j].0 + size <= held[i].0 - HEADER
  }

  /** A client with any sequence of requests.  At the end, as after each request, what it holds is exactly
      what is live. */
  method Run(c: SlabCache, requests: seq<Request>) returns (held: seq<(nat, SlabNode)>, ghost slots: seq<Slot>)
    requires c.Valid() && c.live == {}
    modifies c, c.slabs
    ensures c.Valid() && fresh(c.slabs - old(c.slabs)) && old(c.slabs) <= c.slabs
    ensures Holds(c, held, slots) && HeldApart(held, c.size)
  {
    held, slots := [], [];
    var n := 0;
    while n < |requests|
      invariant n <= |requests| && c.Valid() && fresh(c.slabs - old(c.slabs)) && old(c.slabs) <= c.slabs
      invariant Holds(c, held, slots)
    {
      match requests[n] {
        case Get(base) =>
          var p, s;
          ghost var slot;
          p, s, slot := c.Allocate(base);
          held, slots := held + [(p, s)], slots + [Slot(s, slot)];
        case Give(k) =>
          if k < |held| {
            ghost var live := c.live;
            c.Free(held[k].0, held[k].1, slots[k].index);
            GivenBack(c, held, slots, k, live);
            held, slots := held[..k] + held[k + 1..], slots[..k] + slots[k + 1..];
          }
      }
      n := n + 1;
    }
    forall i, j | 0 <= i < |held| && 0 <= j < |held| && i != j && held[i].1 == held[j].1
      ensures held[i].0 + c.size <= held[j].0 - HEADER || held[j].0 + c.size <= held[i].0 - HEADER
    {
      c.LiveObjectsAreDisjoint(slots[i], slots[j]);
    }
  }

  lemma {:induction false} AllClear(bits: seq<bool>)
    requires forall i | 0 <= i < |bits| :: !bits[i]
    ensures Clear(bits) == |bits|
  {
    ClearBounds(bits);
  }
}

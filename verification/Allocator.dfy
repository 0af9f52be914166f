/** The bucketed first-fit allocator of libOS/allocator.cpp: a tree of free chunks ordered by address,
    and 40 lists of the same chunks by size class; freeing merges address-adjacent free chunks.

    A chunk is a header of `ma` bytes followed by `len` bytes.  The ghost sequence `blocks` lists all
    chunks, free and live, in address order. */
module Allocator {
  import opened Basics

  const CHUNK_LIST_SIZE: nat := 40

  /** Position of the highest set bit. */
  function Log2(x: nat): (n: nat)
    requires x >= 1
    ensures Pow2(n) <= x < Pow2(n + 1)
  {
    if x == 1 then 0 else 1 + Log2(x / 2)
  }

  /** `myLog2` looks at the low 32 bits only; it is undefined when they are all zero. */
  function MyLog2(x: nat): nat
    requires x % UINT32 != 0
  {
    Log2(x % UINT32)
  }

  function SizeToBucket(len: nat): (b: nat)
    requires len % UINT32 != 0
  {
    var n := MyLog2(len);
    if n > 0 then n - 1 else n
  }

  lemma Log2Below(x: nat, n: nat)
    requires x >= 1 && x < Pow2(n)
    ensures Log2(x) < n
  {
    if Log2(x) >= n { Pow2Monotone(n, Log2(x)); }
  }

  /** For sizes below 2^32 the bucket exists and holds exactly the lengths of its class. */
  lemma BucketFits(len: nat)
    requires 1 <= len < UINT32
    ensures SizeToBucket(len) < CHUNK_LIST_SIZE
    ensures len < Pow2(SizeToBucket(len) + 2)
    ensures len >= 4 ==> Pow2(SizeToBucket(len) + 1) <= len
  {
    assert len % UINT32 == len;
    var n := Log2(len);
    assert n < 32 by {
      Pow2Of32();
      Log2Below(len, 32);
    }
    assert SizeToBucket(len) == if n > 0 then n - 1 else n;
  }

  lemma Pow2Of32()
    ensures Pow2(32) == UINT32
  {
    assert Pow2(8) == 256;
    assert Pow2(16) == 65536;
    assert Pow2(24) == 16777216;
  }

  /** From 2^32 on the class computation is wrong: such a chunk lands in a list for smaller ones. */
  lemma BucketWrongAbove32Bits()
    ensures SizeToBucket(UINT32 + 1) == 0 && UINT32 + 1 >= Pow2(0 + 2)
  {
  }

  /** The exact condition: a chunk is shorter than its class allows if and only if its length is below 2^32. */
  lemma BucketFitsIff(len: nat)
    requires len % UINT32 != 0
    ensures len < Pow2(SizeToBucket(len) + 2) <==> len < UINT32
  {
    if len < UINT32 {
      BucketFits(len);
    } else {
      var low := len % UINT32;
      assert low < Pow2(32) by { Pow2Of32(); }
      Log2Below(low, 32);
      Pow2Monotone(SizeToBucket(len) + 2, 32);
      Pow2Of32();
    }
  }

  // ---------------------------------------------------------------- chunks in address order

  datatype Block = Block(addr: nat, len: nat, free: bool)

  function End(b: Block, ma: nat): nat { b.addr + ma + b.len }

  predicate Disjoint(bs: seq<Block>, ma: nat) {
    forall i, j | 0 <= i < j < |bs| :: End(bs[i], ma) <= bs[j].addr
  }

  predicate Coalesced(bs: seq<Block>, ma: nat) {
    forall i, j | 0 <= i < j < |bs| && bs[i].free && bs[j].free :: End(bs[i], ma) < bs[j].addr
  }

  /** Bytes in headers and payloads. */
  function Used(bs: seq<Block>, ma: nat): nat {
    if bs == [] then 0 else ma + bs[0].len + Used(bs[1..], ma)
  }

  lemma {:induction false} UsedConcat(a: seq<Block>, b: seq<Block>, ma: nat)
    ensures Used(a + b, ma) == Used(a, ma) + Used(b, ma)
  {
    if a == [] {
      assert a + b == b;
    } else {
      assert (a + b)[1..] == a[1..] + b;
      UsedConcat(a[1..], b, ma);
    }
  }

  /** Carves a live chunk of `n` bytes out of a free one; the rest becomes a free chunk when it can
      hold two headers. */
  function CarveOne(b: Block, n: nat, ma: nat): seq<Block>
    requires n <= b.len
  {
    if b.len - n >= 2 * ma then [Block(b.addr, n, false), Block(b.addr + ma + n, b.len - n - ma, true)]
    else [Block(b.addr, n, false)]
  }

  function Carve(bs: seq<Block>, i: nat, n: nat, ma: nat): seq<Block>
    requires i < |bs| && n <= bs[i].len
  {
    bs[..i] + CarveOne(bs[i], n, ma) + bs[i + 1..]
  }

  predicate Joins(bs: seq<Block>, i: nat, ma: nat) {
    i + 1 < |bs| && bs[i].free && bs[i + 1].free && End(bs[i], ma) == bs[i + 1].addr
  }

  function Join(bs: seq<Block>, i: nat, ma: nat): seq<Block> {
    if Joins(bs, i, ma) then bs[..i] + [bs[i].(len := bs[i].len + ma + bs[i + 1].len)] + bs[i + 2..] else bs
  }

  /** Frees chunk `i` and joins it with free neighbours that touch it. */
  function Release(bs: seq<Block>, i: nat, ma: nat): seq<Block>
    requires i < |bs|
  {
    var r := Join(bs[i := bs[i].(free := true)], i, ma);
    if i == 0 then r else Join(r, i - 1, ma)
  }

  // ---------------------------------------------------------------- what carving and releasing keep

  lemma CarveKeepsDisjoint(bs: seq<Block>, i: nat, n: nat, ma: nat)
    requires ma > 0 && i < |bs| && n <= bs[i].len && Disjoint(bs, ma)
    ensures Disjoint(Carve(bs, i, n, ma), ma)
  {
  }

  lemma CarveKeepsCoalesced(bs: seq<Block>, i: nat, n: nat, ma: nat)
    requires ma > 0 && i < |bs| && n <= bs[i].len && bs[i].free && Disjoint(bs, ma) && Coalesced(bs, ma)
    ensures Coalesced(Carve(bs, i, n, ma), ma)
  {
  }

  lemma UsedThree(a: seq<Block>, b: seq<Block>, c: seq<Block>, ma: nat)
    ensures Used(a + b + c, ma) == Used(a, ma) + Used(b, ma) + Used(c, ma)
  {
    UsedConcat(a + b, c, ma);
    UsedConcat(a, b, ma);
  }

  lemma UsedOne(b: Block, ma: nat)
    ensures Used([b], ma) == ma + b.len
  {
    assert [b][1..] == [];
  }

  lemma UsedTwo(a: Block, b: Block, ma: nat)
    ensures Used([a, b], ma) == ma + a.len + ma + b.len
  {
    assert [a, b] == [a] + [b];
    UsedConcat([a], [b], ma);
    UsedOne(a, ma);
    UsedOne(b, ma);
  }

  lemma CarvePiecesUsed(pre: seq<Block>, b: Block, mid: seq<Block>, post: seq<Block>, ma: nat)
    ensures Used(pre + [b] + post, ma) - Used(pre + mid + post, ma) == ma + b.len - Used(mid, ma)
  {
    UsedThree(pre, [b], post, ma);
    UsedThree(pre, mid, post, ma);
    UsedOne(b, ma);
  }

  lemma CarveOneUsed(b: Block, n: nat, ma: nat)
    requires n <= b.len
    ensures Used(CarveOne(b, n, ma), ma) == if b.len - n >= 2 * ma then ma + b.len else ma + n
  {
    var live, tail := Block(b.addr, n, false), Block(b.addr + ma + n, if b.len >= n + ma then b.len - n - ma
        else 0, true);
    UsedTwo(live, tail, ma);
    UsedOne(live, ma);
  }

  /** Carving loses less than two headers' worth of bytes, and only when it does not split. */
  lemma CarveUsed(bs: seq<Block>, i: nat, n: nat, ma: nat)
    requires i < |bs| && n <= bs[i].len
    ensures Used(bs, ma) - Used(Carve(bs, i, n, ma), ma) == if bs[i].len - n >= 2 * ma then 0 else bs[i].len - n
  {
    assert bs == bs[..i] + [bs[i]] + bs[i + 1..];
    CarvePiecesUsed(bs[..i], bs[i], CarveOne(bs[i], n, ma), bs[i + 1..], ma);
    CarveOneUsed(bs[i], n, ma);
  }

  lemma JoinKeepsDisjoint(bs: seq<Block>, i: nat, ma: nat)
    requires Disjoint(bs, ma)
    ensures Disjoint(Join(bs, i, ma), ma)
  {
  }

  lemma JoinUsed(bs: seq<Block>, i: nat, ma: nat)
    ensures Used(Join(bs, i, ma), ma) == Used(bs, ma)
  {
    if Joins(bs, i, ma) {
      var pre, post := bs[..i], bs[i + 2..];
      var joined := bs[i].(len := bs[i].len + ma + bs[i + 1].len);
      assert bs == pre + [bs[i], bs[i + 1]] + post;
      UsedThree(pre, [bs[i], bs[i + 1]], post, ma);
      UsedThree(pre, [joined], post, ma);
      UsedTwo(bs[i], bs[i + 1], ma);
      UsedOne(joined, ma);
    }
  }

  /** Releasing loses nothing and leaves no two free chunks touching. */
  lemma ReleaseKeeps(bs: seq<Block>, i: nat, ma: nat)
    requires ma > 0 && i < |bs| && !bs[i].free && Disjoint(bs, ma)
    ensures Disjoint(Release(bs, i, ma), ma)
    ensures Used(Release(bs, i, ma), ma) == Used(bs, ma)
    ensures Coalesced(bs, ma) ==> Coalesced(Release(bs, i, ma), ma)
  {
    var f := bs[i := bs[i].(free := true)];
    UsedUpdate(bs, i, ma);
    JoinKeepsDisjoint(f, i, ma);
    JoinUsed(f, i, ma);
    var r := Join(f, i, ma);
    if i > 0 {
      JoinKeepsDisjoint(r, i - 1, ma);
      JoinUsed(r, i - 1, ma);
    }
    if Coalesced(bs, ma) {
      ReleaseCoalesces(bs, i, ma);
    }
  }

  lemma UsedUpdate(bs: seq<Block>, i: nat, ma: nat)
    requires i < |bs|
    ensures Used(bs[i := bs[i].(free := true)], ma) == Used(bs, ma)
  {
    var b, pre, post := bs[i].(free := true), bs[..i], bs[i + 1..];
    assert bs == pre + [bs[i]] + post && bs[i := b] == pre + [b] + post;
    UsedThree(pre, [bs[i]], post, ma);
    UsedThree(pre, [b], post, ma);
    UsedOne(bs[i], ma);
    UsedOne(b, ma);
  }

  /** Free chunks other than `i` keep their distance; `i` itself may touch only its direct neighbours. */
  predicate CoalescedBut(bs: seq<Block>, k: nat, ma: nat) {
    forall i, j | 0 <= i < j < |bs| && bs[i].free && bs[j].free && i != k && j != k :: End(bs[i], ma) < bs[j].addr
  }

  lemma JoinAt(bs: seq<Block>, i: nat, ma: nat, j: nat)
    requires Joins(bs, i, ma) && j < |bs| - 1
    ensures |Join(bs, i, ma)| == |bs| - 1
    ensures Join(bs, i, ma)[j] == if j < i then bs[j] else if j == i then bs[i].(len := bs[i].len + ma + bs[i + 1].len)
            else bs[j + 1]
  {
  }

  lemma JoinKeepsOthersApart(f: seq<Block>, i: nat, ma: nat)
    requires i < |f| && f[i].free && CoalescedBut(f, i, ma)
    ensures CoalescedBut(Join(f, i, ma), i, ma)
  {
    var r := Join(f, i, ma);
    if Joins(f, i, ma) {
      JoinAt(f, i, ma, 0);
      forall x, y | 0 <= x < y < |r| && r[x].free && r[y].free && x != i && y != i ensures End(r[x], ma) < r[y].addr {
        JoinAt(f, i, ma, x);
        JoinAt(f, i, ma, y);
      }
    }
  }

  lemma JoinedAbove(f: seq<Block>, i: nat, ma: nat)
    requires ma > 0 && i < |f| && f[i].free && Disjoint(f, ma) && CoalescedBut(f, i, ma)
    ensures var r := Join(f, i, ma);
            i < |r| && r[i].free && forall j | i < j < |r| && r[j].free :: End(r[i], ma) < r[j].addr
  {
    var r := Join(f, i, ma);
    if Joins(f, i, ma) { JoinAt(f, i, ma, i); }
    forall j | i < j < |r| && r[j].free ensures End(r[i], ma) < r[j].addr {
      if Joins(f, i, ma) {
        JoinAt(f, i, ma, j);
        assert End(f[i + 1], ma) < f[j + 1].addr;
      } else {
        assert End(f[i], ma) <= f[j].addr;
        assert j > i + 1 ==> End(f[i + 1], ma) <= f[j].addr;
      }
    }
  }

  /** All free chunks are apart except that chunk `i` may touch the one below it. */
  predicate ApartAbove(r: seq<Block>, i: nat, ma: nat) {
    && i < |r| && r[i].free && Disjoint(r, ma) && CoalescedBut(r, i, ma)
    && forall j | i < j < |r| && r[j].free :: End(r[i], ma) < r[j].addr
  }

  lemma JoinedPairApart(r: seq<Block>, i: nat, ma: nat, x: nat, y: nat)
    requires ApartAbove(r, i, ma) && i > 0 && Joins(r, i - 1, ma)
    requires x < y < |r| - 1
    ensures var c := Join(r, i - 1, ma); |c| == |r| - 1 && (c[x].free && c[y].free ==> End(c[x], ma) < c[y].addr)
  {
    JoinAt(r, i - 1, ma, x);
    JoinAt(r, i - 1, ma, y);
  }

  lemma UnjoinedPairApart(r: seq<Block>, i: nat, ma: nat, x: nat, y: nat)
    requires ma > 0 && ApartAbove(r, i, ma) && (i == 0 || !Joins(r, i - 1, ma))
    requires x < y < |r| && r[x].free && r[y].free
    ensures End(r[x], ma) < r[y].addr
  {
    if y == i && x < i - 1 {
      assert End(r[x], ma) <= r[i - 1].addr;
      assert End(r[i - 1], ma) <= r[i].addr;
    }
  }

  lemma JoinedBelow(r: seq<Block>, i: nat, ma: nat)
    requires ma > 0 && ApartAbove(r, i, ma)
    ensures Coalesced(if i == 0 then r else Join(r, i - 1, ma), ma)
  {
    var c := if i == 0 then r else Join(r, i - 1, ma);
    if i > 0 && Joins(r, i - 1, ma) {
      JoinAt(r, i - 1, ma, 0);
      forall x, y | 0 <= x < y < |c| && c[x].free && c[y].free ensures End(c[x], ma) < c[y].addr {
        JoinedPairApart(r, i, ma, x, y);
      }
    } else {
      forall x, y | 0 <= x < y < |c| && c[x].free && c[y].free ensures End(c[x], ma) < c[y].addr {
        UnjoinedPairApart(r, i, ma, x, y);
      }
    }
  }

  lemma ReleaseCoalesces(bs: seq<Block>, i: nat, ma: nat)
    requires ma > 0 && i < |bs| && !bs[i].free && Disjoint(bs, ma) && Coalesced(bs, ma)
    ensures Coalesced(Release(bs, i, ma), ma)
  {
    var f := bs[i := bs[i].(free := true)];
    JoinKeepsOthersApart(f, i, ma);
    JoinKeepsDisjoint(f, i, ma);
    JoinedAbove(f, i, ma);
    JoinedBelow(Join(f, i, ma), i, ma);
  }

  // ---------------------------------------------------------------- ordered tree and lists of addresses

  predicate StrictlySorted(t: seq<nat>) {
    forall i, j | 0 <= i < j < |t| :: t[i] < t[j]
  }

  function Insert(t: seq<nat>, a: nat): seq<nat> {
    if t == [] then [a] else if t[0] > a then [a] + t else [t[0]] + Insert(t[1..], a)
  }

  lemma SmallerFirst(x: nat, t: seq<nat>)
    requires StrictlySorted(t) && forall y | y in t :: x < y
    ensures StrictlySorted([x] + t)
  {
    forall i, j | 0 <= i < j < |t| + 1 ensures ([x] + t)[i] < ([x] + t)[j] {
      assert t[j - 1] in t;
    }
  }

  lemma {:induction false} RemoveSorted(t: seq<nat>, a: nat)
    requires StrictlySorted(t)
    ensures StrictlySorted(Remove(t, a))
    ensures forall x :: x in Remove(t, a) <==> x in t && x != a
  {
    RemoveMembers(t, a);
    if t != [] && t[0] != a {
      RemoveSorted(t[1..], a);
      SmallerFirst(t[0], Remove(t[1..], a));
    }
  }

  lemma {:induction false} InsertSorted(t: seq<nat>, a: nat)
    requires StrictlySorted(t) && a !in t
    ensures StrictlySorted(Insert(t, a))
    ensures forall x :: x in Insert(t, a) <==> x in t || x == a
  {
    if t != [] {
      assert t == [t[0]] + t[1..];
      if t[0] > a {
        assert Insert(t, a) == [a] + t;
      } else {
        InsertSorted(t[1..], a);
        var r := Insert(t[1..], a);
        assert Insert(t, a) == [t[0]] + r;
        forall i | 0 <= i < |r| ensures t[0] < r[i] { assert r[i] in t[1..] || r[i] == a; }
      }
    }
  }

  // ---------------------------------------------------------------- the free chunks of a block sequence

  predicate FreeAt(bs: seq<Block>, a: nat) {
    exists i :: 0 <= i < |bs| && bs[i].free && bs[i].addr == a
  }

  lemma FreeConcat(a: seq<Block>, b: seq<Block>, x: nat)
    ensures FreeAt(a + b, x) <==> FreeAt(a, x) || FreeAt(b, x)
  {
    if FreeAt(a, x) {
      var j :| 0 <= j < |a| && a[j].free && a[j].addr == x;
      assert (a + b)[j] == a[j];
    }
    if FreeAt(b, x) {
      var j :| 0 <= j < |b| && b[j].free && b[j].addr == x;
      assert (a + b)[|a| + j] == b[j];
    }
  }

  lemma FreeThree(a: seq<Block>, b: seq<Block>, c: seq<Block>, x: nat)
    ensures FreeAt(a + b + c, x) <==> FreeAt(a, x) || FreeAt(b, x) || FreeAt(c, x)
  {
    FreeConcat(a + b, c, x);
    FreeConcat(a, b, x);
  }

  /** No other chunk starts where chunk `i` starts. */
  lemma AddressIsUnique(bs: seq<Block>, i: nat, ma: nat)
    requires ma > 0 && i < |bs| && Disjoint(bs, ma)
    ensures !FreeAt(bs[..i], bs[i].addr) && !FreeAt(bs[i + 1..], bs[i].addr)
  {
  }

  lemma FreeOne(b: Block, x: nat)
    ensures FreeAt([b], x) <==> b.free && b.addr == x
  {
    if b.free && b.addr == x { assert [b][0].addr == x; }
  }

  lemma FreeTwo(b: Block, c: Block, x: nat)
    ensures FreeAt([b, c], x) <==> (b.free && b.addr == x) || (c.free && c.addr == x)
  {
    assert [b, c] == [b] + [c];
    FreeConcat([b], [c], x);
    FreeOne(b, x);
    FreeOne(c, x);
  }

  lemma CarveFree(bs: seq<Block>, i: nat, n: nat, ma: nat, x: nat)
    requires ma > 0 && i < |bs| && n <= bs[i].len && bs[i].free && Disjoint(bs, ma)
    ensures FreeAt(Carve(bs, i, n, ma), x) <==>
              (FreeAt(bs, x) && x != bs[i].addr) || (bs[i].len - n >= 2 * ma && x == bs[i].addr + ma + n)
  {
    var b := bs[i];
    assert bs == bs[..i] + [b] + bs[i + 1..];
    AddressIsUnique(bs, i, ma);
    FreeThree(bs[..i], [b], bs[i + 1..], x);
    FreeThree(bs[..i], CarveOne(b, n, ma), bs[i + 1..], x);
    FreeOne(b, x);
    FreeOne(Block(b.addr, n, false), x);
    if b.len - n >= 2 * ma { FreeTwo(Block(b.addr, n, false), Block(b.addr + ma + n, b.len - n - ma, true), x); }
  }

  lemma JoinFree(bs: seq<Block>, i: nat, ma: nat, x: nat)
    requires ma > 0 && Disjoint(bs, ma) && Joins(bs, i, ma)
    ensures FreeAt(Join(bs, i, ma), x) <==> FreeAt(bs, x) && x != bs[i + 1].addr
  {
    var joined := bs[i].(len := bs[i].len + ma + bs[i + 1].len);
    assert bs == bs[..i] + [bs[i], bs[i + 1]] + bs[i + 2..];
    FreeThree(bs[..i], [bs[i], bs[i + 1]], bs[i + 2..], x);
    FreeThree(bs[..i], [joined], bs[i + 2..], x);
    FreeTwo(bs[i], bs[i + 1], x);
    FreeOne(joined, x);
    NotAtNext(bs, i, ma);
  }

  lemma NotAtNext(bs: seq<Block>, i: nat, ma: nat)
    requires ma > 0 && i + 1 < |bs| && Disjoint(bs, ma)
    ensures !FreeAt(bs[..i], bs[i + 1].addr) && !FreeAt(bs[i + 2..], bs[i + 1].addr) && bs[i].addr != bs[i + 1].addr
  {
  }

  lemma FreeUpdate(bs: seq<Block>, i: nat, ma: nat, x: nat)
    requires ma > 0 && i < |bs| && !bs[i].free && Disjoint(bs, ma)
    ensures !FreeAt(bs, bs[i].addr)
    ensures FreeAt(bs[i := bs[i].(free := true)], x) <==> FreeAt(bs, x) || x == bs[i].addr
  {
    var b := bs[i].(free := true);
    assert bs == bs[..i] + [bs[i]] + bs[i + 1..] && bs[i := b] == bs[..i] + [b] + bs[i + 1..];
    AddressIsUnique(bs, i, ma);
    FreeThree(bs[..i], [bs[i]], bs[i + 1..], x);
    FreeThree(bs[..i], [bs[i]], bs[i + 1..], bs[i].addr);
    FreeThree(bs[..i], [b], bs[i + 1..], x);
    FreeOne(bs[i], x);
    FreeOne(bs[i], bs[i].addr);
    FreeOne(b, x);
  }

  // ---------------------------------------------------------------- the two views and their agreement

  /** The tree holds exactly the free chunks, in address order. */
  ghost predicate TreeOk(tree: seq<nat>, bs: seq<Block>) {
    StrictlySorted(tree) && forall a :: a in tree <==> FreeAt(bs, a)
  }

  predicate HeadersOk(len: map<nat, nat>, bs: seq<Block>) {
    forall i | 0 <= i < |bs| :: bs[i].addr in len && len[bs[i].addr] == bs[i].len >= 1
  }

  predicate FlagsOk(flag: map<nat, bool>, bs: seq<Block>) {
    forall i | 0 <= i < |bs| && bs[i].free :: bs[i].addr in flag && flag[bs[i].addr]
  }

  /** The lists are duplicate-free and chunk `a` is linked exactly in list `bucketOf[a]`. */
  ghost predicate ListsOk(lists: seq<seq<nat>>, bucketOf: map<nat, nat>) {
    && |lists| == CHUNK_LIST_SIZE
    && (forall a | a in bucketOf :: bucketOf[a] < CHUNK_LIST_SIZE)
    && (forall b | 0 <= b < CHUNK_LIST_SIZE :: NoDuplicates(lists[b]))
    && (forall b, a | 0 <= b < CHUNK_LIST_SIZE :: a in lists[b] <==> a in bucketOf && bucketOf[a] == b)
  }

  predicate SizesOk(bucketOf: map<nat, nat>, len: map<nat, nat>) {
    forall a | a in bucketOf :: a in len && len[a] < Pow2(bucketOf[a] + 2)
  }

  /** Where the stretch of chunks touching one another that chunk `i` belongs to begins. */
  function Stretch(bs: seq<Block>, i: nat, ma: nat): (a: nat)
    requires i < |bs|
    ensures a <= bs[i].addr
  {
    if i == 0 || End(bs[i - 1], ma) != bs[i].addr then bs[i].addr else Stretch(bs, i - 1, ma)
  }

  /** No stretch is so long that joining its chunks could make one of 2^32 bytes. */
  predicate Short(bs: seq<Block>, ma: nat) {
    forall i | 0 <= i < |bs| :: ShortAt(bs, i, ma)
  }

  predicate ShortAt(bs: seq<Block>, i: nat, ma: nat)
    requires i < |bs|
  {
    End(bs[i], ma) < Stretch(bs, i, ma) + UINT32
  }

  lemma {:induction false} SameStretch(a: seq<Block>, b: seq<Block>, i: nat, ma: nat)
    requires i < |a| && i < |b| && a[i].addr == b[i].addr
             && forall k | 0 <= k < i :: a[k].addr == b[k].addr && a[k].len == b[k].len
    ensures Stretch(a, i, ma) == Stretch(b, i, ma)
  {
    if i > 0 { SameStretch(a, b, i - 1, ma); }
  }

  /** Unlinking works on the node, whatever list it is in. */
  function Unlink(lists: seq<seq<nat>>, a: nat): seq<seq<nat>> {
    seq(|lists|, b requires 0 <= b < |lists| => Remove(lists[b], a))
  }

  lemma UnlinkKeeps(lists: seq<seq<nat>>, bk: map<nat, nat>, a: nat)
    requires ListsOk(lists, bk)
    ensures ListsOk(Unlink(lists, a), bk - {a})
  {
    forall b | 0 <= b < |lists|
      ensures NoDuplicates(Unlink(lists, a)[b]) && forall x :: x in Unlink(lists, a)[b] <==> x in lists[b] && x != a
    {
      RemoveMembers(lists[b], a);
    }
  }

  lemma PushKeeps(lists: seq<seq<nat>>, bk: map<nat, nat>, b: nat, a: nat)
    requires ListsOk(lists, bk) && a !in bk && b < CHUNK_LIST_SIZE
    ensures ListsOk(lists[b := lists[b] + [a]], bk[a := b])
  {
    assert a !in lists[b];
  }

  lemma CarveAt(bs: seq<Block>, i: nat, n: nat, ma: nat, j: nat)
    requires i < |bs| && n <= bs[i].len && j < |Carve(bs, i, n, ma)|
    ensures var c := Carve(bs, i, n, ma);
            var m := |CarveOne(bs[i], n, ma)|;
            && |c| == |bs| + m - 1 && 1 <= m <= 2
            && c[j] == if j < i then bs[j] else if j < i + m then CarveOne(bs[i], n, ma)[j - i] else bs[j - m + 1]
  {
  }

  /** Chunk `j` of the carved sequence is `i`'s live part, its new tail, or another chunk away from both. */
  lemma CarveElement(bs: seq<Block>, i: nat, n: nat, ma: nat, j: nat)
    requires ma > 0 && i < |bs| && n <= bs[i].len && Disjoint(bs, ma) && j < |Carve(bs, i, n, ma)|
    ensures var c, a, split := Carve(bs, i, n, ma)[j], bs[i].addr, bs[i].len - n >= 2 * ma;
            || c == Block(a, n, false)
            || (split && c == Block(a + ma + n, bs[i].len - n - ma, true))
            || (c in bs && c.addr != a && (split ==> c.addr != a + ma + n))
  {
    CarveAt(bs, i, n, ma, j);
  }

  lemma CarveHeaders(len: map<nat, nat>, flag: map<nat, bool>, bs: seq<Block>, i: nat, n: nat, ma: nat)
    requires ma > 0 && i < |bs| && 1 <= n <= bs[i].len && bs[i].free && Disjoint(bs, ma) && HeadersOk(len, bs)
             && FlagsOk(flag, bs)
    ensures var a := bs[i].addr;
            var len', flag' := len[a := n], flag[a := false];
            if bs[i].len - n >= 2 * ma then
              HeadersOk(len'[a + ma + n := bs[i].len - n - ma], Carve(bs, i, n, ma))
                  && FlagsOk(flag'[a + ma + n := true], Carve(bs, i, n, ma))
            else HeadersOk(len', Carve(bs, i, n, ma)) && FlagsOk(flag', Carve(bs, i, n, ma))
  {
    var c := Carve(bs, i, n, ma);
    forall j | 0 <= j < |c|
      ensures var a, split := bs[i].addr, bs[i].len - n >= 2 * ma;
              || c[j] == Block(a, n, false)
              || (split && c[j] == Block(a + ma + n, bs[i].len - n - ma, true))
              || (c[j] in bs && c[j].addr != a && (split ==> c[j].addr != a + ma + n))
    {
      CarveElement(bs, i, n, ma, j);
    }
  }

  lemma {:induction false} StretchIsUsed(bs: seq<Block>, i: nat, ma: nat)
    requires i < |bs|
    ensures End(bs[i], ma) - Stretch(bs, i, ma) <= Used(bs[..i + 1], ma)
  {
    assert bs[..i + 1] == bs[..i] + [bs[i]];
    UsedConcat(bs[..i], [bs[i]], ma);
    UsedOne(bs[i], ma);
    if i > 0 { StretchIsUsed(bs, i - 1, ma); }
  }

  /** A heap of less than 2^32 bytes has no such stretch, wherever its regions lie. */
  lemma SmallIsShort(bs: seq<Block>, ma: nat)
    requires Used(bs, ma) < UINT32
    ensures Short(bs, ma)
  {
    forall i | 0 <= i < |bs| ensures ShortAt(bs, i, ma) {
      StretchIsUsed(bs, i, ma);
      assert bs == bs[..i + 1] + bs[i + 1..];
      UsedConcat(bs[..i + 1], bs[i + 1..], ma);
    }
  }

  /** Carving makes no stretch longer. */
  lemma {:induction false} CarveStretch(bs: seq<Block>, i: nat, n: nat, ma: nat, k: nat)
    requires i < k < |bs| && n <= bs[i].len && Disjoint(bs, ma)
    ensures var c, d := Carve(bs, i, n, ma), |CarveOne(bs[i], n, ma)| - 1;
            k + d < |c| && c[k + d] == bs[k] && Stretch(c, k + d, ma) >= Stretch(bs, k, ma)
  {
    var c, d := Carve(bs, i, n, ma), |CarveOne(bs[i], n, ma)| - 1;
    SameStretch(c, bs, i, ma);
    assert End(bs[k - 1], ma) <= bs[k].addr;
    if k - 1 > i { CarveStretch(bs, i, n, ma, k - 1); }
  }

  lemma CarveShortAt(bs: seq<Block>, i: nat, n: nat, ma: nat, j: nat)
    requires i < |bs| && n <= bs[i].len && Disjoint(bs, ma) && Short(bs, ma) && j < |Carve(bs, i, n, ma)|
    ensures ShortAt(Carve(bs, i, n, ma), j, ma)
  {
    hide Carve;
    var c, d := Carve(bs, i, n, ma), |CarveOne(bs[i], n, ma)| - 1;
    forall k | 0 <= k < |c| ensures k < i ==> c[k] == bs[k] { CarveAt(bs, i, n, ma, k); }
    CarveAt(bs, i, n, ma, j);
    if j > i + d {
      CarveStretch(bs, i, n, ma, j - d);
      assert ShortAt(bs, j - d, ma);
    } else if j > i {
      CarveAt(bs, i, n, ma, i);
      SameStretch(c, bs, i, ma);
      assert ShortAt(bs, i, ma);
    } else {
      SameStretch(c, bs, j, ma);
      assert ShortAt(bs, j, ma);
    }
  }

  lemma CarveShort(bs: seq<Block>, i: nat, n: nat, ma: nat)
    requires i < |bs| && n <= bs[i].len && Disjoint(bs, ma) && Short(bs, ma)
    ensures Short(Carve(bs, i, n, ma), ma)
  {
    hide Carve, Disjoint, Stretch;
    var c := Carve(bs, i, n, ma);
    forall j | 0 <= j < |c| ensures ShortAt(c, j, ma) { CarveShortAt(bs, i, n, ma, j); }
  }

  lemma JoinStart(bs: seq<Block>, i: nat, ma: nat, j: nat)
    requires Joins(bs, i, ma) && j <= i
    ensures i < |Join(bs, i, ma)| && Stretch(Join(bs, i, ma), j, ma) == Stretch(bs, j, ma)
    ensures Stretch(bs, i + 1, ma) == Stretch(bs, i, ma)
  {
    hide Join;
    var c := Join(bs, i, ma);
    JoinAt(bs, i, ma, 0);
    forall k | 0 <= k <= i ensures c[k].addr == bs[k].addr && (k < i ==> c[k] == bs[k]) { JoinAt(bs, i, ma, k); }
    SameStretch(c, bs, j, ma);
  }

  /** Joining leaves the stretches as they are. */
  lemma {:induction false} JoinStretch(bs: seq<Block>, i: nat, ma: nat, k: nat)
    requires Joins(bs, i, ma) && i + 1 < k < |bs|
    ensures k - 1 < |Join(bs, i, ma)| && Join(bs, i, ma)[k - 1] == bs[k]
            && Stretch(Join(bs, i, ma), k - 1, ma) == Stretch(bs, k, ma)
  {
    hide Join;
    JoinStart(bs, i, ma, i);
    JoinAt(bs, i, ma, 0);
    JoinAt(bs, i, ma, k - 1);
    JoinAt(bs, i, ma, k - 2);
    if k - 1 > i + 1 { JoinStretch(bs, i, ma, k - 1); }
  }

  lemma JoinShort(bs: seq<Block>, i: nat, ma: nat)
    requires Joins(bs, i, ma) && Short(bs, ma)
    ensures Short(Join(bs, i, ma), ma)
  {
    hide Join, Stretch;
    var c := Join(bs, i, ma);
    JoinAt(bs, i, ma, 0);
    forall j | 0 <= j < |c| ensures ShortAt(c, j, ma) {
      JoinAt(bs, i, ma, j);
      assert ShortAt(bs, if j < i then j else j + 1, ma);
      if j > i { JoinStretch(bs, i, ma, j + 1); } else { JoinStart(bs, i, ma, j); }
    }
  }

  lemma FreedShort(bs: seq<Block>, i: nat, ma: nat)
    requires i < |bs| && Short(bs, ma)
    ensures Short(bs[i := bs[i].(free := true)], ma)
  {
    hide Stretch;
    var f := bs[i := bs[i].(free := true)];
    forall j | 0 <= j < |f| ensures ShortAt(f, j, ma) {
      SameStretch(f, bs, j, ma);
      assert ShortAt(bs, j, ma);
    }
  }

  lemma JoinHeaders(len: map<nat, nat>, bs: seq<Block>, i: nat, ma: nat)
    requires ma > 0 && Disjoint(bs, ma) && Joins(bs, i, ma) && HeadersOk(len, bs)
    ensures var a := bs[i].addr;
            HeadersOk(len[a := bs[i].len + ma + bs[i + 1].len], Join(bs, i, ma))
  {
    var c := Join(bs, i, ma);
    var len' := len[bs[i].addr := bs[i].len + ma + bs[i + 1].len];
    JoinAt(bs, i, ma, 0);
    forall j | 0 <= j < |c|
      ensures c[j].addr in len' && len'[c[j].addr] == c[j].len >= 1
    {
      JoinAt(bs, i, ma, j);
    }
  }

  /** In a strictly sorted sequence the least element above t[k] stands right after it. */
  lemma Successor(t: seq<nat>, k: nat, x: nat)
    requires StrictlySorted(t) && k < |t| && x in t && t[k] < x && (forall y | y in t && y > t[k] :: y >= x)
    ensures k + 1 < |t| && t[k + 1] == x
  {
    var m :| 0 <= m < |t| && t[m] == x;
    assert m > k;
    assert t[k + 1] in t;
    assert t[k + 1] <= t[m];
  }

  lemma Predecessor(t: seq<nat>, k: nat, x: nat)
    requires StrictlySorted(t) && k < |t| && x in t && x < t[k] && (forall y | y in t && y < t[k] :: y <= x)
    ensures k > 0 && t[k - 1] == x
  {
    var m :| 0 <= m < |t| && t[m] == x;
    assert m < k;
    assert t[k - 1] in t;
    assert t[m] <= t[k - 1];
  }

  /** The tree neighbour above a free chunk touches it iff the next chunk is free and touches it. */
  lemma NextNeighbour(bs: seq<Block>, i: nat, tree: seq<nat>, k: nat, ma: nat)
    requires ma > 0 && Disjoint(bs, ma) && TreeOk(tree, bs) && i < |bs| && bs[i].free && k < |tree|
             && tree[k] == bs[i].addr
    ensures (k + 1 < |tree| && End(bs[i], ma) == tree[k + 1]) <==> Joins(bs, i, ma)
    ensures Joins(bs, i, ma) ==> k + 1 < |tree| && tree[k + 1] == bs[i + 1].addr
  {
    if Joins(bs, i, ma) {
      var x := bs[i + 1].addr;
      assert FreeAt(bs, x);
      forall y | y in tree && y > tree[k] ensures y >= x {
        var j :| 0 <= j < |bs| && bs[j].free && bs[j].addr == y;
        assert j > i;
      }
      Successor(tree, k, x);
    }
    if k + 1 < |tree| && End(bs[i], ma) == tree[k + 1] {
      assert tree[k + 1] in tree;
      var j :| 0 <= j < |bs| && bs[j].free && bs[j].addr == tree[k + 1];
      assert j > i && End(bs[i], ma) <= bs[i + 1].addr;
      assert j > i + 1 ==> End(bs[i + 1], ma) <= bs[j].addr;
    }
  }

  /** The tree neighbour below a free chunk touches it iff the previous chunk is free and touches it. */
  lemma PreviousNeighbour(bs: seq<Block>, i: nat, tree: seq<nat>, k: nat, len: map<nat, nat>, ma: nat)
    requires ma > 0 && Disjoint(bs, ma) && TreeOk(tree, bs) && HeadersOk(len, bs)
    requires i < |bs| && bs[i].free && k < |tree| && tree[k] == bs[i].addr
    ensures k > 0 ==> tree[k - 1] in len
    ensures (k > 0 && tree[k - 1] + ma + len[tree[k - 1]] == bs[i].addr) <==> i > 0 && Joins(bs, i - 1, ma)
    ensures i > 0 && Joins(bs, i - 1, ma) ==> k > 0 && tree[k - 1] == bs[i - 1].addr
  {
    if k > 0 {
      assert tree[k - 1] in tree;
      var j :| 0 <= j < |bs| && bs[j].free && bs[j].addr == tree[k - 1];
      assert j < i && End(bs[i - 1], ma) <= bs[i].addr;
      assert j < i - 1 ==> End(bs[j], ma) <= bs[i - 1].addr;
    }
    if i > 0 && Joins(bs, i - 1, ma) {
      var x := bs[i - 1].addr;
      assert FreeAt(bs, x);
      forall y | y in tree && y < tree[k] ensures y <= x {
        var j :| 0 <= j < |bs| && bs[j].free && bs[j].addr == y;
        assert j < i;
      }
      Predecessor(tree, k, x);
    }
  }

  // ---------------------------------------------------------------- the allocator object

  function IndexOf(t: seq<nat>, a: nat): (k: nat)
    requires a in t
    ensures k < |t| && t[k] == a
  {
    if t[0] == a then 0 else 1 + IndexOf(t[1..], a)
  }

  /** The chunks of `bs` are well laid out and their headers agree. */
  ghost predicate ChunksOk(bs: seq<Block>, len: map<nat, nat>, flag: map<nat, bool>, ma: nat) {
    ma > 0 && Disjoint(bs, ma) && Short(bs, ma) && HeadersOk(len, bs) && FlagsOk(flag, bs)
  }

  /** Tree and lists hold the same chunks, each in a list of its size class. */
  ghost predicate ViewsAgree(tree: seq<nat>, lists: seq<seq<nat>>, bk: map<nat, nat>, len: map<nat, nat>) {
    ListsOk(lists, bk) && SizesOk(bk, len) && forall a :: a in bk <==> a in tree
  }

  lemma TreeInsert(tree: seq<nat>, bs: seq<Block>, bs': seq<Block>, a: nat)
    requires TreeOk(tree, bs) && !FreeAt(bs, a) && (forall x :: FreeAt(bs', x) <==> FreeAt(bs, x) || x == a)
    ensures TreeOk(Insert(tree, a), bs')
  {
    InsertSorted(tree, a);
  }

  lemma TreeRemove(tree: seq<nat>, bs: seq<Block>, bs': seq<Block>, a: nat)
    requires TreeOk(tree, bs) && (forall x :: FreeAt(bs', x) <==> FreeAt(bs, x) && x != a)
    ensures TreeOk(Remove(tree, a), bs')
  {
    RemoveSorted(tree, a);
  }

  lemma ViewsPush(tree: seq<nat>, lists: seq<seq<nat>>, bk: map<nat, nat>, len: map<nat, nat>, b: nat, a: nat, n: nat,
                  tree': seq<nat>)
    requires ViewsAgree(tree, lists, bk, len) && a !in tree && b < CHUNK_LIST_SIZE && n < Pow2(b + 2)
    requires forall x :: x in tree' <==> x in tree || x == a
    ensures ViewsAgree(tree', lists[b := lists[b] + [a]], bk[a := b], len[a := n])
  {
    PushKeeps(lists, bk, b, a);
  }

  lemma ViewsUnlink(tree: seq<nat>, lists: seq<seq<nat>>, bk: map<nat, nat>, len: map<nat, nat>, a: nat, n: nat,
                    tree': seq<nat>)
    requires ViewsAgree(tree, lists, bk, len)
    requires forall x :: x in tree' <==> x in tree && x != a
    ensures ViewsAgree(tree', Unlink(lists, a), bk - {a}, len[a := n])
  {
    UnlinkKeeps(lists, bk, a);
  }

  /** A listed chunk is a free block whose header length is the block's. */
  lemma ListedIsFree(bs: seq<Block>, len: map<nat, nat>, flag: map<nat, bool>, tree: seq<nat>, lists: seq<seq<nat>>,
                     bk: map<nat, nat>, ma: nat, b: nat, j: nat) returns (i: nat)
    requires ChunksOk(bs, len, flag, ma) && TreeOk(tree, bs) && ViewsAgree(tree, lists, bk, len)
    requires b < |lists| && j < |lists[b]|
    ensures i < |bs| && bs[i].free && bs[i].addr == lists[b][j] && bs[i].addr in len && len[bs[i].addr] == bs[i].len
  {
    assert lists[b][j] in lists[b];
    assert FreeAt(bs, lists[b][j]);
    i :| 0 <= i < |bs| && bs[i].free && bs[i].addr == lists[b][j];
  }

  lemma FreeIsListed(bs: seq<Block>, len: map<nat, nat>, flag: map<nat, bool>, tree: seq<nat>, lists: seq<seq<nat>>,
                     bk: map<nat, nat>, ma: nat, i: nat) returns (b: nat, j: nat)
    requires ChunksOk(bs, len, flag, ma) && TreeOk(tree, bs) && ViewsAgree(tree, lists, bk, len)
    requires i < |bs| && bs[i].free
    ensures b < |lists| == CHUNK_LIST_SIZE && j < |lists[b]| && lists[b][j] == bs[i].addr && bs[i].addr in len
            && len[bs[i].addr] == bs[i].len
  {
    assert FreeAt(bs, bs[i].addr);
    b := bk[bs[i].addr];
    assert bs[i].addr in lists[b];
    j :| 0 <= j < |lists[b]| && lists[b][j] == bs[i].addr;
  }

  lemma ListedHeaders(tree: seq<nat>, lists: seq<seq<nat>>, bk: map<nat, nat>, len: map<nat, nat>)
    requires ViewsAgree(tree, lists, bk, len)
    ensures |lists| == CHUNK_LIST_SIZE
    ensures forall b, k | 0 <= b < |lists| && 0 <= k < |lists[b]| ::
            lists[b][k] in len && len[lists[b][k]] < Pow2(b + 2)
  {
    forall b, k | 0 <= b < |lists| && 0 <= k < |lists[b]| ensures lists[b][k] in len && len[lists[b][k]] < Pow2(b + 2) {
      assert lists[b][k] in lists[b];
    }
  }

  /** The list for the tail left by carving. */
  function TailList(n: nat): (b: nat)
    requires 1 <= n < UINT32
    ensures b < CHUNK_LIST_SIZE && n < Pow2(b + 2)
  {
    BucketFits(n);
    if n == 1 then 0 else SizeToBucket(n)
  }

  lemma CarveTree(tree: seq<nat>, bs: seq<Block>, i: nat, n: nat, ma: nat)
    requires ma > 0 && i < |bs| && n <= bs[i].len && bs[i].free && Disjoint(bs, ma) && TreeOk(tree, bs)
    ensures var a := bs[i].addr;
            TreeOk(if bs[i].len - n >= 2 * ma then Insert(Remove(tree, a), a + ma + n)
                else Remove(tree, a), Carve(bs, i, n, ma))
  {
    var a := bs[i].addr;
    RemoveSorted(tree, a);
    if bs[i].len - n >= 2 * ma {
      NoBlockInside(bs, i, n, ma);
      InsertSorted(Remove(tree, a), a + ma + n);
    }
    forall x ensures FreeAt(Carve(bs, i, n, ma), x) <==>
              (FreeAt(bs, x) && x != a) || (bs[i].len - n >= 2 * ma && x == a + ma + n) { CarveFree(bs, i, n, ma, x); }
  }

  lemma NoBlockInside(bs: seq<Block>, i: nat, n: nat, ma: nat)
    requires ma > 0 && i < |bs| && n < bs[i].len && Disjoint(bs, ma)
    ensures !FreeAt(bs, bs[i].addr + ma + n)
  {
  }

  /** An allocation takes the chunk out of both views; a tail that is split off enters both. */
  lemma CarveViews(tree: seq<nat>, lists: seq<seq<nat>>, bk: map<nat, nat>, len: map<nat, nat>, a: nat, n: nat)
    requires StrictlySorted(tree) && ViewsAgree(tree, lists, bk, len)
    ensures |lists| == |Unlink(lists, a)| == CHUNK_LIST_SIZE
    ensures ViewsAgree(Remove(tree, a), Unlink(lists, a), bk - {a}, len[a := n])
  {
    RemoveSorted(tree, a);
    ViewsUnlink(tree, lists, bk, len, a, n, Remove(tree, a));
  }

  lemma TailViews(tree: seq<nat>, lists: seq<seq<nat>>, bk: map<nat, nat>, len: map<nat, nat>, t: nat, m: nat)
    requires StrictlySorted(tree) && t !in tree && 1 <= m < UINT32 && ViewsAgree(tree, lists, bk, len)
    ensures |lists| == CHUNK_LIST_SIZE
    ensures ViewsAgree(Insert(tree, t), lists[TailList(m) := lists[TailList(m)] + [t]], bk[t := TailList(m)],
            len[t := m])
  {
    InsertSorted(tree, t);
    ViewsPush(tree, lists, bk, len, TailList(m), t, m, Insert(tree, t));
  }

  lemma CarveChunks(bs: seq<Block>, len: map<nat, nat>, flag: map<nat, bool>, ma: nat, i: nat, n: nat)
    requires ChunksOk(bs, len, flag, ma) && i < |bs| && bs[i].free && 1 <= n <= bs[i].len
    ensures var a, m := bs[i].addr, bs[i].len - n - ma;
            var c, h, g := Carve(bs, i, n, ma), len[a := n], flag[a := false];
            if bs[i].len - n >= 2 * ma then 1 <= m < UINT32
                && ChunksOk(c, h[a + ma + n := m], g[a + ma + n := true], ma)
            else ChunksOk(c, h, g, ma)
  {
    CarveKeepsDisjoint(bs, i, n, ma);
    CarveHeaders(len, flag, bs, i, n, ma);
    CarveShort(bs, i, n, ma);
    assert ShortAt(bs, i, ma);
  }

  /** What `malloc` needs from the invariant before it starts changing things. */
  lemma CarveReady(bs: seq<Block>, len: map<nat, nat>, flag: map<nat, bool>, tree: seq<nat>, ma: nat, i: nat, n: nat)
    requires ChunksOk(bs, len, flag, ma) && TreeOk(tree, bs) && i < |bs| && bs[i].free && 1 <= n <= bs[i].len
    ensures var a := bs[i].addr;
            && TreeOk(if bs[i].len - n >= 2 * ma then Insert(Remove(tree, a), a + ma + n)
                else Remove(tree, a), Carve(bs, i, n, ma))
            && StrictlySorted(tree) && StrictlySorted(Remove(tree, a))
                && (bs[i].len - n >= 2 * ma ==> a + ma + n !in Remove(tree, a))
            && ma > 0 && a in len && len[a] == bs[i].len && (Coalesced(bs, ma) ==> Coalesced(Carve(bs, i, n, ma), ma))
  {
    KeepsCoalesced(bs, len, flag, ma, i, n);
    CarveTree(tree, bs, i, n, ma);
    RemoveSorted(tree, bs[i].addr);
    if bs[i].len - n >= 2 * ma { NoBlockInside(bs, i, n, ma); }
  }

  /** Chunk `a` is in the tree but in no list; all other chunks of the tree are listed. */
  ghost predicate Unlisted(tree: seq<nat>, a: nat, lists: seq<seq<nat>>, bk: map<nat, nat>, len: map<nat, nat>) {
    ListsOk(lists, bk) && SizesOk(bk, len) && forall x :: x in bk <==> x in tree && x != a
  }

  lemma UnlistedAfterInsert(tree: seq<nat>, a: nat, lists: seq<seq<nat>>, bk: map<nat, nat>, len: map<nat, nat>)
    requires StrictlySorted(tree) && a !in tree && ViewsAgree(tree, lists, bk, len)
    ensures Unlisted(Insert(tree, a), a, lists, bk, len)
  {
    InsertSorted(tree, a);
  }

  lemma UnlistNext(tree: seq<nat>, a: nat, lists: seq<seq<nat>>, bk: map<nat, nat>, len: map<nat, nat>, x: nat, n: nat)
    requires StrictlySorted(tree) && Unlisted(tree, a, lists, bk, len)
    ensures Unlisted(Remove(tree, x), a, Unlink(lists, x), bk - {x}, len[a := n])
  {
    RemoveSorted(tree, x);
    UnlinkKeeps(lists, bk, x);
  }

  /** The merged chunk `y` moves to the list of its new size while `a` leaves the tree. */
  lemma RelistMerged(tree: seq<nat>, a: nat, lists: seq<seq<nat>>, bk: map<nat, nat>, len: map<nat, nat>, y: nat,
                     n: nat, b: nat)
    requires StrictlySorted(tree) && Unlisted(tree, a, lists, bk, len) && y in tree && y != a && b < CHUNK_LIST_SIZE
             && n < Pow2(b + 2)
    ensures |Unlink(lists, y)| == CHUNK_LIST_SIZE
    ensures var l := Unlink(lists, y);
            ViewsAgree(Remove(tree, a), l[b := l[b] + [y]], (bk - {y})[y := b], len[y := n])
  {
    hide ListsOk, StrictlySorted, Unlink, Remove, Pow2;
    RemoveSorted(tree, a);
    UnlinkKeeps(lists, bk, y);
    FortyLists(Unlink(lists, y), bk - {y});
    PushKeeps(Unlink(lists, y), bk - {y}, b, y);
  }

  lemma FortyLists(lists: seq<seq<nat>>, bk: map<nat, nat>)
    requires ListsOk(lists, bk)
    ensures |lists| == CHUNK_LIST_SIZE
  {
  }

  lemma ListAlone(tree: seq<nat>, a: nat, lists: seq<seq<nat>>, bk: map<nat, nat>, len: map<nat, nat>, b: nat)
    requires Unlisted(tree, a, lists, bk, len) && a in tree && b < CHUNK_LIST_SIZE && a in len && len[a] < Pow2(b + 2)
    ensures |lists| == CHUNK_LIST_SIZE && ViewsAgree(tree, lists[b := lists[b] + [a]], bk[a := b], len)
  {
    PushKeeps(lists, bk, b, a);
  }

  lemma FreedChunk(bs: seq<Block>, i: nat, len: map<nat, nat>, flag: map<nat, bool>, tree: seq<nat>, ma: nat)
    requires ChunksOk(bs, len, flag, ma) && TreeOk(tree, bs) && i < |bs| && !bs[i].free
    ensures var a, f := bs[i].addr, bs[i := bs[i].(free := true)];
            ChunksOk(f, len, flag[a := true], ma) && TreeOk(Insert(tree, a), f) && a !in tree && StrictlySorted(tree)
  {
    var a, f := bs[i].addr, bs[i := bs[i].(free := true)];
    FreedShort(bs, i, ma);
    FreeUpdate(bs, i, ma, a);
    forall x ensures FreeAt(f, x) <==> FreeAt(bs, x) || x == a { FreeUpdate(bs, i, ma, x); }
    TreeInsert(tree, bs, f, a);
  }

  lemma JoinedChunks(bs: seq<Block>, i: nat, len: map<nat, nat>, flag: map<nat, bool>, ma: nat)
    requires ChunksOk(bs, len, flag, ma) && Joins(bs, i, ma)
    ensures ChunksOk(Join(bs, i, ma), len[bs[i].addr := bs[i].len + ma + bs[i + 1].len], flag, ma)
    ensures |Join(bs, i, ma)| == |bs| - 1 && Join(bs, i, ma)[i] == bs[i].(len := bs[i].len + ma + bs[i + 1].len)
    ensures bs[i].addr != bs[i + 1].addr && 1 <= bs[i].len + ma + bs[i + 1].len < UINT32
  {
    JoinKeepsDisjoint(bs, i, ma);
    JoinHeaders(len, bs, i, ma);
    JoinShort(bs, i, ma);
    JoinFlags(bs, i, flag, ma);
    JoinAt(bs, i, ma, i);
    assert ShortAt(Join(bs, i, ma), i, ma);
  }

  lemma JoinedTree(bs: seq<Block>, i: nat, tree: seq<nat>, ma: nat)
    requires ma > 0 && Disjoint(bs, ma) && TreeOk(tree, bs) && Joins(bs, i, ma)
    ensures TreeOk(Remove(tree, bs[i + 1].addr), Join(bs, i, ma))
  {
    forall y ensures FreeAt(Join(bs, i, ma), y) <==> FreeAt(bs, y) && y != bs[i + 1].addr { JoinFree(bs, i, ma, y); }
    TreeRemove(tree, bs, Join(bs, i, ma), bs[i + 1].addr);
  }

  lemma JoinFlags(bs: seq<Block>, i: nat, flag: map<nat, bool>, ma: nat)
    requires FlagsOk(flag, bs) && Joins(bs, i, ma)
    ensures FlagsOk(flag, Join(bs, i, ma))
  {
    var c := Join(bs, i, ma);
    JoinAt(bs, i, ma, 0);
    forall j | 0 <= j < |c| && c[j].free ensures c[j].addr in flag && flag[c[j].addr] { JoinAt(bs, i, ma, j); }
  }

  /** The chunk that was freed is gone after it joined the one below, so its flag no longer matters. */
  lemma FlagIsStale(bs: seq<Block>, i: nat, flag: map<nat, bool>, ma: nat)
    requires ma > 0 && Disjoint(bs, ma) && i > 0 && Joins(bs, i - 1, ma)
             && FlagsOk(flag[bs[i].addr := true], Join(bs, i - 1, ma))
    ensures FlagsOk(flag, Join(bs, i - 1, ma))
  {
    var c := Join(bs, i - 1, ma);
    JoinAt(bs, i - 1, ma, 0);
    forall j | 0 <= j < |c| ensures c[j].addr != bs[i].addr { JoinAt(bs, i - 1, ma, j); }
  }

  /** Bytes of a chunk of `len` bytes that an allocation of `n` leaves unused: all that is left over when it
      cannot hold two headers, and nothing otherwise. */
  function Slack(len: nat, n: nat, ma: nat): (k: nat)
    requires n <= len
    ensures ma > 0 ==> k < 2 * ma
  {
    if len - n >= 2 * ma then 0 else len - n
  }

  /** Chunk `a` is the first long enough one, list by list and in list order. */
  ghost predicate FirstFit(lists: seq<seq<nat>>, len: map<nat, nat>, n: nat, a: nat) {
    exists b, j | 0 <= b < |lists| && 0 <= j < |lists[b]| ::
      && lists[b][j] == a && a in len && n <= len[a]
      && (forall c, k | 0 <= c < b && 0 <= k < |lists[c]| :: lists[c][k] in len && len[lists[c][k]] < n)
      && (forall k | 0 <= k < j :: lists[b][k] in len && len[lists[b][k]] < n)
  }

  /** The chunk lists after `a` left them and, when a tail was split off, the tail joined at the back of its class. */
  function AfterTake(lists: seq<seq<nat>>, a: nat, oldLen: nat, n: nat, ma: nat): seq<seq<nat>>
    requires |lists| == CHUNK_LIST_SIZE && n <= oldLen && ma > 0
  {
    var l, m := Unlink(lists, a), oldLen - n - ma;
    if oldLen - n >= 2 * ma && 1 <= m < UINT32 then l[TailList(m) := l[TailList(m)] + [a + ma + n]] else l
  }

  /** The chunk stands at the back of the list of its size class. */
  predicate LastOfItsClass(b: Block, lists: seq<seq<nat>>) {
    && b.free && 1 <= b.len < UINT32 && SizeToBucket(b.len) < |lists|
    && var l := lists[SizeToBucket(b.len)]; l != [] && l[|l| - 1] == b.addr
  }

  class Heap {
    /** sizeof(MemoryArea) */
    const ma: nat
    /** Header fields, by chunk address. */
    var len: map<nat, nat>
    var flag: map<nat, bool>
    /** The red-black tree in order, and the chunk lists. */
    var tree: seq<nat>
    var lists: seq<seq<nat>>

    ghost var blocks: seq<Block>
    ghost var bucketOf: map<nat, nat>
    /** Bytes ever given to the heap, and bytes lost in allocations that did not split. */
    ghost var given: nat
    ghost var lost: nat

    ghost predicate Valid()
      reads this
    {
      && ChunksOk(blocks, len, flag, ma)
      && TreeOk(tree, blocks)
      && ViewsAgree(tree, lists, bucketOf, len)
      && given == Used(blocks, ma) + lost
    }

    constructor (headerSize: nat, base: nat, length: nat)
      requires headerSize > 0 && headerSize < length < UINT32
      ensures Valid() && Coalesced(blocks, ma)
      ensures ma == headerSize && blocks == [Block(base, length - headerSize, true)]
      ensures given == length && lost == 0
    {
      ma := headerSize;
      len, flag, tree := map[], map[], [];
      lists := seq(CHUNK_LIST_SIZE, b => []);
      blocks, bucketOf, given, lost := [], map[], 0, 0;
      new;
      ExpandHeap(base, length, 0);
    }

    /** Adds the region [base, base + length), which lies between chunks `at - 1` and `at` and does not make a
        stretch of 2^32 bytes with them. */
    method ExpandHeap(base: nat, length: nat, ghost at: nat)
      requires Valid() && 0 < ma < length && at <= |blocks|
      requires FitsAt(blocks, at, base, length - ma, ma)
      requires Short(blocks[..at] + [Block(base, length - ma, true)] + blocks[at..], ma)
      modifies this
      ensures Valid()
      ensures blocks == old(blocks)[..at] + [Block(base, length - ma, true)] + old(blocks)[at..]
      ensures given == old(given) + length && lost == old(lost)
      ensures |old(lists)| == CHUNK_LIST_SIZE && lists ==
              old(lists)[CHUNK_LIST_SIZE - 1 := old(lists)[CHUNK_LIST_SIZE - 1] + [base]]
    {
      hide ChunksOk, TreeOk, ViewsAgree, FitsAt;
      var n := length - ma;
      RegionOk(blocks, len, flag, tree, lists, bucketOf, ma, at, base, n);
      len, flag := len[base := n], flag[base := true];
      lists := lists[CHUNK_LIST_SIZE - 1 := lists[CHUNK_LIST_SIZE - 1] + [base]];
      tree := Insert(tree, base);
      blocks, bucketOf, given := blocks[..at] + [Block(base, n, true)] + blocks[at..],
          bucketOf[base := CHUNK_LIST_SIZE - 1], given + length;
    }

    /** The nested search loop of `malloc`: the first list whose class can hold `n`, then list order. */
    method FindFit(n: nat) returns (found: bool, b: nat, j: nat)
      requires Valid()
      ensures found ==> b < |lists| && j < |lists[b]| && lists[b][j] in len && len[lists[b][j]] >= n && n < Pow2(b + 2)
      ensures found ==> forall c, k | 0 <= c < b && 0 <= k < |lists[c]| :: lists[c][k] in len && len[lists[c][k]] < n
      ensures found ==> forall k | 0 <= k < j :: lists[b][k] in len && len[lists[b][k]] < n
      ensures !found ==> forall i | 0 <= i < |blocks| && blocks[i].free :: blocks[i].len < n
    {
      hide ChunksOk, TreeOk, ViewsAgree, Used, Pow2;
      b := 0;
      ListedHeaders(tree, lists, bucketOf, len);
      while b < CHUNK_LIST_SIZE
        invariant b <= CHUNK_LIST_SIZE == |lists|
        invariant forall c, k | 0 <= c < b && 0 <= k < |lists[c]| :: lists[c][k] in len && len[lists[c][k]] < n
      {
        if n < Pow2(b + 2) {
          j := 0;
          while j < |lists[b]|
            invariant j <= |lists[b]|
            invariant forall k | 0 <= k < j :: lists[b][k] in len && len[lists[b][k]] < n
          {
            if len[lists[b][j]] >= n { return true, b, j; }
            j := j + 1;
          }
        }
        b := b + 1;
      }
      found, b, j := false, 0, 0;
      forall i | 0 <= i < |blocks| && blocks[i].free ensures blocks[i].len < n {
        var c, k := FreeIsListed(blocks, len, flag, tree, lists, bucketOf, ma, i);
      }
    }

    /** `malloc`: takes the first chunk found and splits it when the rest can hold two headers.  It
        fails exactly on a zero request or when no free chunk is long enough. */
    method Malloc(n: nat) returns (p: nat, ghost at: nat)
      requires Valid()
      modifies this
      ensures Valid() && given == old(given)
      ensures p == 0 <==> n == 0 || forall i | 0 <= i < |old(blocks)| && old(blocks)[i].free :: old(blocks)[i].len < n
      ensures p == 0 ==> blocks == old(blocks) && lost == old(lost)
      ensures p != 0 ==>
                at < |old(blocks)| && old(blocks)[at].free && n <= old(blocks)[at].len && p == old(blocks)[at].addr + ma
      ensures p != 0 ==>
                blocks == Carve(old(blocks), at, n, ma) && lost == old(lost) + Slack(old(blocks)[at].len, n, ma)
      ensures p != 0 ==> FirstFit(old(lists), old(len), n, p - ma)
      ensures old(Coalesced(blocks, ma)) ==> Coalesced(blocks, ma)
    {
      hide ChunksOk, TreeOk, ViewsAgree, Coalesced, Carve, Used, Unlink, Remove, Insert, SizeToBucket, Pow2;
      if n == 0 { return 0, 0; }
      var found, b, j := FindFit(n);
      if !found { return 0, 0; }
      at := ListedIsFree(blocks, len, flag, tree, lists, bucketOf, ma, b, j);
      assert FirstFit(lists, len, n, lists[b][j]);
      p := Take(lists[b][j], n, at);
    }

    method Take(a: nat, n: nat, ghost i: nat) returns (p: nat)
      requires Valid() && i < |blocks| && blocks[i].free && blocks[i].addr == a && 1 <= n <= blocks[i].len
      modifies this
      ensures Valid() && given == old(given)
      ensures p == a + ma && p > 0
      ensures blocks == Carve(old(blocks), i, n, ma) && lost == old(lost) + Slack(old(blocks)[i].len, n, ma)
      ensures |old(lists)| == CHUNK_LIST_SIZE && lists == AfterTake(old(lists), a, old(blocks)[i].len, n, ma)
      ensures old(Coalesced(blocks, ma)) ==> Coalesced(blocks, ma)
    {
      hide ChunksOk, TreeOk, ViewsAgree, Coalesced, Carve, Used, Unlink, Remove, Insert, SizeToBucket, Pow2,
          StrictlySorted;
      CarveReady(blocks, len, flag, tree, ma, i, n);
      CarveChunks(blocks, len, flag, ma, i, n);
      CarveUsed(blocks, i, n, ma);
      CarveViews(tree, lists, bucketOf, len, a, n);
      var oldLen := len[a];
      flag, len := flag[a := false], len[a := n];
      p := a + ma;
      tree := Remove(tree, a);
      lists, bucketOf := Unlink(lists, a), bucketOf - {a};
      blocks := Carve(blocks, i, n, ma);
      if oldLen - n >= 2 * ma {
        var t: nat, m: nat := p + n, oldLen - n - ma;
        TailViews(tree, lists, bucketOf, len, t, m);
        len, flag := len[t := m], flag[t := true];
        tree := Insert(tree, t);
        lists, bucketOf := lists[TailList(m) := lists[TailList(m)] + [t]], bucketOf[t := TailList(m)];
      } else {
        lost := lost + (oldLen - n);
      }
    }

    /** Half way through `free`: chunk `i`, at `a`, is free and in the tree but in no list. */
    ghost predicate Freeing(i: nat, a: nat)
      reads this
    {
      && i < |blocks| && blocks[i].free && blocks[i].addr == a
      && ChunksOk(blocks, len, flag[a := true], ma)
      && TreeOk(tree, blocks)
      && Unlisted(tree, a, lists, bucketOf, len)
      && given == Used(blocks, ma) + lost
    }

    method JoinNext(a: nat, ghost i: nat)
      requires Freeing(i, a)
      modifies this
      ensures Freeing(i, a) && blocks == Join(old(blocks), i, ma)
      ensures flag == old(flag) && given == old(given) && lost == old(lost)
    {
      hide ChunksOk, TreeOk, Unlisted, Used, Joins, IndexOf, Unlink, Remove;
      InTree(blocks, i, len, flag[a := true], tree, ma);
      var k := IndexOf(tree, a);
      NextReady(blocks, i, len, flag[a := true], tree, ma);
      if k + 1 < |tree| {
        var x: nat := tree[k + 1];
        assert x in flag && flag[x];
        if a + ma + len[a] == x {
          JoinStep(blocks, i, len, flag[a := true], tree, lists, bucketOf, ma);
          lists, bucketOf := Unlink(lists, x), bucketOf - {x};
          len := len[a := len[a] + ma + len[x]];
          tree := Remove(tree, x);
          blocks := Join(blocks, i, ma);
        }
      }
    }

    method JoinPrevious(a: nat, ghost i: nat)
      requires Freeing(i, a)
      modifies this
      ensures Valid() && blocks == if i == 0 then old(blocks) else Join(old(blocks), i - 1, ma)
      ensures given == old(given) && lost == old(lost)
      ensures exists k | 0 <= k < |blocks| :: LastOfItsClass(blocks[k], lists)
    {
      hide ChunksOk, TreeOk, Unlisted, ViewsAgree, Used, Joins, IndexOf, Unlink, Remove, SizeToBucket, Pow2;
      InTree(blocks, i, len, flag[a := true], tree, ma);
      var k := IndexOf(tree, a);
      PreviousReady(blocks, i, len, flag[a := true], tree, ma);
      if k > 0 {
        var y: nat := tree[k - 1];
        assert y in flag && flag[y];
        if y + ma + len[y] == a {
          var n := len[y] + ma + len[a];
          FinalStep(blocks, i, len, flag, tree, lists, bucketOf, ma);
          lists, bucketOf := Unlink(lists, y), bucketOf - {y};
          len := len[y := n];
          tree := Remove(tree, a);
          lists, bucketOf := lists[SizeToBucket(n) := lists[SizeToBucket(n)] + [y]], bucketOf[y := SizeToBucket(n)];
          blocks := Join(blocks, i - 1, ma);
          assert LastOfItsClass(blocks[i - 1], lists);
          return;
        }
      }
      BucketFits(len[a]);
      ListAlone(tree, a, lists, bucketOf, len, SizeToBucket(len[a]));
      lists, bucketOf := lists[SizeToBucket(len[a]) := lists[SizeToBucket(len[a])] + [a]],
          bucketOf[a := SizeToBucket(len[a])];
      flag := flag[a := true];
      assert LastOfItsClass(blocks[i], lists);
    }

    /** `free`: the chunk is joined with a free chunk that touches it above, then with one below. */
    method Free(p: nat, ghost at: nat)
      requires Valid()
      requires p != 0 ==> at < |blocks| && !blocks[at].free && p == blocks[at].addr + ma
      modifies this
      ensures Valid() && given == old(given) && lost == old(lost)
      ensures blocks == if p == 0 then old(blocks) else Release(old(blocks), at, ma)
      ensures old(Coalesced(blocks, ma)) ==> Coalesced(blocks, ma)
    {
      hide ChunksOk, TreeOk, ViewsAgree, Unlisted, Used, Coalesced, Join, Insert;
      if p == 0 { return; }
      var a: nat := p - ma;
      FreeStep(blocks, at, len, flag, tree, lists, bucketOf, ma);
      tree := Insert(tree, a);
      blocks := blocks[at := blocks[at].(free := true)];
      JoinNext(a, at);
      JoinPrevious(a, at);
    }
  }

  lemma FreeStep(bs: seq<Block>, i: nat, len: map<nat, nat>, flag: map<nat, bool>, tree: seq<nat>, lists: seq<seq<nat>>,
                 bk: map<nat, nat>, ma: nat)
    requires ChunksOk(bs, len, flag, ma) && TreeOk(tree, bs) && ViewsAgree(tree, lists, bk, len) && i < |bs|
             && !bs[i].free
    ensures var a, f := bs[i].addr, bs[i := bs[i].(free := true)];
            && ChunksOk(f, len, flag[a := true], ma) && TreeOk(Insert(tree, a), f)
                && Unlisted(Insert(tree, a), a, lists, bk, len)
            && Used(f, ma) == Used(bs, ma)
    ensures Coalesced(bs, ma) ==> Coalesced(Release(bs, i, ma), ma)
  {
    FreedChunk(bs, i, len, flag, tree, ma);
    UnlistedAfterInsert(tree, bs[i].addr, lists, bk, len);
    ReleaseKeeps(bs, i, ma);
    UsedUpdate(bs, i, ma);
  }

  lemma NextReady(bs: seq<Block>, i: nat, len: map<nat, nat>, flag: map<nat, bool>, tree: seq<nat>, ma: nat)
    requires ChunksOk(bs, len, flag, ma) && TreeOk(tree, bs) && i < |bs| && bs[i].free && bs[i].addr in tree
    ensures var a, k := bs[i].addr, IndexOf(tree, bs[i].addr);
            && ((k + 1 < |tree| && a + ma + bs[i].len == tree[k + 1]) <==> Joins(bs, i, ma))
            && (k + 1 < |tree| ==> tree[k + 1] in flag && flag[tree[k + 1]] && tree[k + 1] != a)
            && (Joins(bs, i, ma) ==>
                 && i + 1 < |bs|
                 && tree[k + 1] == bs[i + 1].addr
                 && bs[i + 1].addr in len
                 && len[bs[i + 1].addr] == bs[i + 1].len)
            && (!Joins(bs, i, ma) ==> Join(bs, i, ma) == bs)
  {
    var k := IndexOf(tree, bs[i].addr);
    NextNeighbour(bs, i, tree, k, ma);
    if k + 1 < |tree| { TreeFlag(bs, len, flag, tree, ma, k + 1); }
  }

  lemma JoinStep(bs: seq<Block>, i: nat, len: map<nat, nat>, flag: map<nat, bool>, tree: seq<nat>, lists: seq<seq<nat>>,
                 bk: map<nat, nat>, ma: nat)
    requires ChunksOk(bs, len, flag, ma) && TreeOk(tree, bs) && i < |bs| && Unlisted(tree, bs[i].addr, lists, bk, len)
             && Joins(bs, i, ma)
    ensures i + 1 < |bs|
    ensures var a, x, n, c := bs[i].addr, bs[i + 1].addr, bs[i].len + ma + bs[i + 1].len, Join(bs, i, ma);
            && ChunksOk(c, len[a := n], flag, ma) && TreeOk(Remove(tree, x), c)
                && Unlisted(Remove(tree, x), a, Unlink(lists, x), bk - {x}, len[a := n])
            && i < |c| && c[i].free && c[i].addr == a && Used(c, ma) == Used(bs, ma)
  {
    var a, x, n := bs[i].addr, bs[i + 1].addr, bs[i].len + ma + bs[i + 1].len;
    JoinedChunks(bs, i, len, flag, ma);
    JoinedTree(bs, i, tree, ma);
    UnlistNext(tree, a, lists, bk, len, x, n);
    JoinUsed(bs, i, ma);
  }

  lemma PreviousReady(bs: seq<Block>, i: nat, len: map<nat, nat>, flag: map<nat, bool>, tree: seq<nat>, ma: nat)
    requires ChunksOk(bs, len, flag, ma) && TreeOk(tree, bs) && i < |bs| && bs[i].free && bs[i].addr in tree
    ensures var a, k := bs[i].addr, IndexOf(tree, bs[i].addr);
            && (k > 0 ==> tree[k - 1] in flag && flag[tree[k - 1]] && tree[k - 1] != a && tree[k - 1] in len)
            && ((k > 0 && tree[k - 1] + ma + len[tree[k - 1]] == a) <==> i > 0 && Joins(bs, i - 1, ma))
            && (i > 0 && Joins(bs, i - 1, ma) ==> tree[k - 1] == bs[i - 1].addr && len[bs[i - 1].addr] == bs[i - 1].len)
            && (i > 0 && !Joins(bs, i - 1, ma) ==> Join(bs, i - 1, ma) == bs)
  {
    var k := IndexOf(tree, bs[i].addr);
    PreviousNeighbour(bs, i, tree, k, len, ma);
    if k > 0 { TreeFlag(bs, len, flag, tree, ma, k - 1); }
  }

  lemma FinalStep(bs: seq<Block>, i: nat, len: map<nat, nat>, flag: map<nat, bool>, tree: seq<nat>,
                  lists: seq<seq<nat>>, bk: map<nat, nat>,
                  ma: nat)
    requires 0 < i < |bs| && ChunksOk(bs, len, flag[bs[i].addr := true], ma) && TreeOk(tree, bs)
    requires Unlisted(tree, bs[i].addr, lists, bk, len) && Joins(bs, i - 1, ma)
    ensures var a, y, n, c := bs[i].addr, bs[i - 1].addr, bs[i - 1].len + ma + bs[i].len, Join(bs, i - 1, ma);
            && 1 <= n < UINT32 && n % UINT32 != 0 && SizeToBucket(n) < CHUNK_LIST_SIZE == |Unlink(lists, y)|
            && i - 1 < |c| && c[i - 1] == Block(y, n, true)
            && ChunksOk(c, len[y := n], flag, ma) && TreeOk(Remove(tree, a), c) && Used(c, ma) == Used(bs, ma)
            && (var l := Unlink(lists, y);
                ViewsAgree(Remove(tree, a), l[SizeToBucket(n) := l[SizeToBucket(n)] + [y]],
                    (bk - {y})[y := SizeToBucket(n)], len[y := n]))
  {
    hide ChunksOk, TreeOk, Unlisted, ViewsAgree, Disjoint, Short, HeadersOk, StrictlySorted, Used, Unlink, Remove, Pow2,
        SizeToBucket, Join;
    var a, y, n := bs[i].addr, bs[i - 1].addr, bs[i - 1].len + ma + bs[i].len;
    InTree(bs, i - 1, len, flag[a := true], tree, ma);
    JoinedChunks(bs, i - 1, len, flag[a := true], ma);
    StaleChunks(bs, i, len, flag, ma, n);
    JoinedTree(bs, i - 1, tree, ma);
    BucketFits(n);
    RelistMerged(tree, a, lists, bk, len, y, n, SizeToBucket(n));
    JoinUsed(bs, i - 1, ma);
  }

  lemma KeepsCoalesced(bs: seq<Block>, len: map<nat, nat>, flag: map<nat, bool>, ma: nat, i: nat, n: nat)
    requires ChunksOk(bs, len, flag, ma) && i < |bs| && bs[i].free && n <= bs[i].len
    ensures Coalesced(bs, ma) ==> Coalesced(Carve(bs, i, n, ma), ma)
  {
    if Coalesced(bs, ma) { CarveKeepsCoalesced(bs, i, n, ma); }
  }

  lemma InTree(bs: seq<Block>, i: nat, len: map<nat, nat>, flag: map<nat, bool>, tree: seq<nat>, ma: nat)
    requires ChunksOk(bs, len, flag, ma) && TreeOk(tree, bs) && i < |bs| && bs[i].free
    ensures bs[i].addr in tree && bs[i].addr in len && len[bs[i].addr] == bs[i].len && 1 <= bs[i].len < UINT32
    ensures StrictlySorted(tree) && Disjoint(bs, ma) && HeadersOk(len, bs) && ma > 0
  {
    assert FreeAt(bs, bs[i].addr) && ShortAt(bs, i, ma);
  }

  /** Every chunk in the tree is marked free: the source's own assertion. */
  lemma TreeFlag(bs: seq<Block>, len: map<nat, nat>, flag: map<nat, bool>, tree: seq<nat>, ma: nat, k: nat)
    requires ChunksOk(bs, len, flag, ma) && TreeOk(tree, bs) && k < |tree|
    ensures tree[k] in flag && flag[tree[k]] && tree[k] in len
  {
    assert tree[k] in tree;
    var i :| 0 <= i < |bs| && bs[i].free && bs[i].addr == tree[k];
  }

  lemma StaleChunks(bs: seq<Block>, i: nat, len: map<nat, nat>, flag: map<nat, bool>, ma: nat, n: nat)
    requires ma > 0 && Disjoint(bs, ma) && i > 0 && Joins(bs, i - 1, ma)
    requires ChunksOk(Join(bs, i - 1, ma), len[bs[i - 1].addr := n], flag[bs[i].addr := true], ma)
    ensures ChunksOk(Join(bs, i - 1, ma), len[bs[i - 1].addr := n], flag, ma)
  {
    FlagIsStale(bs, i, flag, ma);
  }

  /** Adding a region keeps everything the heap relies on. */
  lemma RegionOk(bs: seq<Block>, len: map<nat, nat>, flag: map<nat, bool>, tree: seq<nat>, lists: seq<seq<nat>>,
                 bk: map<nat, nat>, ma: nat, at: nat, base: nat, n: nat)
    requires ChunksOk(bs, len, flag, ma) && TreeOk(tree, bs) && ViewsAgree(tree, lists, bk, len)
    requires at <= |bs| && n >= 1 && FitsAt(bs, at, base, n, ma)
    requires Short(bs[..at] + [Block(base, n, true)] + bs[at..], ma)
    ensures |lists| == CHUNK_LIST_SIZE
    ensures var c := bs[..at] + [Block(base, n, true)] + bs[at..]; var last := CHUNK_LIST_SIZE - 1;
            && ChunksOk(c, len[base := n], flag[base := true], ma)
            && TreeOk(Insert(tree, base), c)
            && ViewsAgree(Insert(tree, base), lists[last := lists[last] + [base]], bk[base := last], len[base := n])
            && Used(c, ma) == Used(bs, ma) + ma + n
  {
    var c := bs[..at] + [Block(base, n, true)] + bs[at..];
    RegionAdded(bs, at, base, n, ma);
    RegionHeaders(len, flag, bs, at, base, n, ma);
    TreeInsert(tree, bs, c, base);
    assert forall x :: x in Insert(tree, base) <==> x in tree || x == base by { InsertSorted(tree, base); }
    assert c[at] == Block(base, n, true) && ShortAt(c, at, ma);
    LastListTakesAll(n);
    ViewsPush(tree, lists, bk, len, CHUNK_LIST_SIZE - 1, base, n, Insert(tree, base));
  }

  lemma LastListTakesAll(n: nat)
    requires n < UINT32
    ensures n < Pow2(CHUNK_LIST_SIZE - 1 + 2)
  {
    Pow2Of32();
    Pow2Monotone(32, CHUNK_LIST_SIZE - 1 + 2);
  }

  /** A region of `n` payload bytes at `base` fits between chunks `at - 1` and `at`. */
  predicate FitsAt(bs: seq<Block>, at: nat, base: nat, n: nat, ma: nat)
    requires at <= |bs|
  {
    && (forall i | 0 <= i < at :: End(bs[i], ma) <= base)
    && (forall i | at <= i < |bs| :: base + ma + n <= bs[i].addr)
  }

  lemma RegionDisjoint(bs: seq<Block>, at: nat, base: nat, n: nat, ma: nat)
    requires ma > 0 && at <= |bs| && Disjoint(bs, ma) && FitsAt(bs, at, base, n, ma)
    ensures Disjoint(bs[..at] + [Block(base, n, true)] + bs[at..], ma) && !FreeAt(bs, base)
  {
  }

  lemma RegionFree(bs: seq<Block>, at: nat, b: Block, x: nat)
    requires at <= |bs| && b.free
    ensures FreeAt(bs[..at] + [b] + bs[at..], x) <==> FreeAt(bs, x) || x == b.addr
  {
    assert bs == bs[..at] + bs[at..];
    FreeThree(bs[..at], [b], bs[at..], x);
    FreeConcat(bs[..at], bs[at..], x);
    FreeOne(b, x);
  }

  lemma RegionAdded(bs: seq<Block>, at: nat, base: nat, n: nat, ma: nat)
    requires ma > 0 && at <= |bs| && Disjoint(bs, ma) && FitsAt(bs, at, base, n, ma)
    ensures var c := bs[..at] + [Block(base, n, true)] + bs[at..];
            Disjoint(c, ma) && Used(c, ma) == Used(bs, ma) + ma + n && !FreeAt(bs, base) && forall x ::
              FreeAt(c, x) <==> FreeAt(bs, x) || x == base
  {
    var b := Block(base, n, true);
    RegionDisjoint(bs, at, base, n, ma);
    UsedThree(bs[..at], [b], bs[at..], ma);
    UsedOne(b, ma);
    assert bs == bs[..at] + bs[at..];
    UsedConcat(bs[..at], bs[at..], ma);
    forall x ensures FreeAt(bs[..at] + [b] + bs[at..], x) <==> FreeAt(bs, x) || x == base { RegionFree(bs, at, b, x); }
  }

  lemma RegionHeaders(len: map<nat, nat>, flag: map<nat, bool>, bs: seq<Block>, at: nat, base: nat, n: nat, ma: nat)
    requires ma > 0 && at <= |bs| && n >= 1 && HeadersOk(len, bs) && FlagsOk(flag, bs) && FitsAt(bs, at, base, n, ma)
    ensures var c := bs[..at] + [Block(base, n, true)] + bs[at..];
            HeadersOk(len[base := n], c) && FlagsOk(flag[base := true], c)
  {
    var c := bs[..at] + [Block(base, n, true)] + bs[at..];
    forall j | 0 <= j < |c| ensures c[j] == Block(base, n, true) || (c[j] in bs && c[j].addr != base) { }
  }
}

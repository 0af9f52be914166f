/** The circular intrusive list of libOS/linked_list.h, whose delete poisons the links of the entry. */
module LinkedList {
  import opened Basics

  /** A link points to a node or holds one of the two poison addresses. */
  datatype Link = To(node: ListNode) | Poison1 | Poison2

  class ListNode {
    var prev: Link
    var next: Link

    constructor ()
      ensures prev == Poison2 && next == Poison1
    {
      prev, next := Poison2, Poison1;
    }
  }

  predicate Poisoned(n: ListNode)
    reads n
  {
    n.next == Poison1 && n.prev == Poison2
  }

  predicate Distinct(list: seq<ListNode>, head: ListNode) {
    head !in list && forall i, j | 0 <= i < j < |list| :: list[i] != list[j]
  }

  /** Position `i` of the ring: an entry, or the head before the first and after the last entry. */
  function At(list: seq<ListNode>, head: ListNode, i: int): ListNode { if 0 <= i < |list| then list[i] else head }

  predicate Edge(x: ListNode, y: ListNode)
    reads x`next, y`prev
  {
    x.next == To(y) && y.prev == To(x)
  }

  /** Starting at `head`, the links run through exactly the entries of `list` and back, both ways. */
  ghost predicate Ring(list: seq<ListNode>, head: ListNode)
    reads head, list
  {
    Distinct(list, head) && forall i | -1 <= i < |list| :: Edge(At(list, head, i), At(list, head, i + 1))
  }

  /** No node stands at two positions, counting the head once. */
  lemma OnePlace(list: seq<ListNode>, head: ListNode, i: int, j: int)
    requires Distinct(list, head) && ((-1 <= i < |list| && -1 <= j < |list|) || (0 <= i <= |list| && 0 <= j <= |list|))
             && i != j
    ensures At(list, head, i) != At(list, head, j)
  {
  }

  function InsertAt(list: seq<ListNode>, k: nat, n: ListNode): (r: seq<ListNode>)
    requires k <= |list|
    ensures |r| == |list| + 1
  {
    list[..k] + [n] + list[k..]
  }

  lemma InsertAtIs(list: seq<ListNode>, head: ListNode, k: nat, n: ListNode, j: int)
    requires k <= |list|
    ensures At(InsertAt(list, k, n), head, j) == if j < k then At(list, head, j) else if j == k then n
            else At(list, head, j - 1)
  {
  }

  lemma InsertDistinct(list: seq<ListNode>, head: ListNode, k: nat, n: ListNode)
    requires k <= |list| && Distinct(list, head) && n !in list && n != head
    ensures Distinct(InsertAt(list, k, n), head)
  {
  }

  lemma WithoutIs(list: seq<ListNode>, head: ListNode, k: nat, j: int)
    requires k < |list|
    ensures At(Without(list, k), head, j) == if j < k then At(list, head, j) else At(list, head, j + 1)
  {
  }

  lemma WithoutDistinct(list: seq<ListNode>, head: ListNode, k: nat)
    requires k < |list| && Distinct(list, head)
    ensures Distinct(Without(list, k), head)
  {
  }

  class IntrusiveList {
    const head: ListNode
    ghost var list: seq<ListNode>

    ghost predicate Valid()
      reads this, head, list
    {
      Ring(list, head)
    }

    constructor ()
      ensures Valid() && list == [] && fresh(head)
    {
      head := new ListNode();
      list := [];
      new;
      head.next, head.prev := To(head), To(head);
    }

    /** `__listAdd` between two neighbours. */
    method Add(n: ListNode, before: ListNode, after: ListNode, ghost k: nat)
      requires Valid() && n !in list && n != head && k <= |list| && before == At(list, head, k - 1)
               && after == At(list, head, k)
      modifies this`list, n, before`next, after`prev
      ensures Valid() && list == InsertAt(old(list), k, n)
    {
      n.next := To(after);
      n.prev := To(before);
      before.next := To(n);
      after.prev := To(n);
      ghost var l, h := list, head;
      list := InsertAt(list, k, n);
      InsertDistinct(l, h, k, n);
      hide Distinct, At, InsertAt;
      forall j | -1 <= j <= |l| ensures Edge(At(InsertAt(l, k, n), h, j), At(InsertAt(l, k, n), h, j + 1)) {
        InsertAtIs(l, h, k, n, j);
        InsertAtIs(l, h, k, n, j + 1);
        if j < k - 1 || j > k {
          var i := if j < k - 1 then j else j - 1;
          assert old(Edge(At(l, h, i), At(l, h, i + 1)));
          OnePlace(l, h, i, k - 1);
          OnePlace(l, h, i + 1, k);
          NotThere(l, h, n, i);
          NotThere(l, h, n, i + 1);
        }
      }
    }

    method AddHead(n: ListNode)
      requires Valid() && n !in list && n != head
      modifies this`list, n, head, list
      ensures Valid() && list == [n] + old(list)
    {
      assert Edge(At(list, head, -1), At(list, head, 0));
      Add(n, head, head.next.node, 0);
      assert old(list)[..0] == [] && old(list)[0..] == old(list);
    }

    method AddTail(n: ListNode)
      requires Valid() && n !in list && n != head
      modifies this`list, n, head, list
      ensures Valid() && list == old(list) + [n]
    {
      assert Edge(At(list, head, |list| - 1), At(list, head, |list|));
      Add(n, head.prev.node, head, |list|);
      assert old(list)[..|old(list)|] == old(list);
    }

    /** `listDelete`: an entry that is linked leaves the list and is poisoned; a poisoned one is left alone. */
    method Delete(n: ListNode, ghost k: nat) returns (deleted: bool)
      requires Valid() && (Poisoned(n) || (k < |list| && list[k] == n))
      modifies this`list, head, list
      ensures Valid() && Poisoned(n) && deleted == !old(Poisoned(n))
      ensures list == if deleted then Without(old(list), k) else old(list)
      ensures !deleted ==> forall x | x in old(list) || x == head :: x.next == old(x.next) && x.prev == old(x.prev)
    {
      if n.next == Poison1 && n.prev == Poison2 { return false; }
      ghost var l, h := list, head;
      assert Edge(At(l, h, k - 1), At(l, h, k)) && Edge(At(l, h, k), At(l, h, k + 1));
      var before, after := n.prev.node, n.next.node;
      before.next := n.next;
      after.prev := n.prev;
      n.next := Poison1;
      n.prev := Poison2;
      list := Without(list, k);
      deleted := true;
      Spliced(l, h, k);
    }
  }

  lemma NotThere(list: seq<ListNode>, head: ListNode, n: ListNode, i: int)
    requires n !in list && n != head
    ensures At(list, head, i) != n
  {
  }

  /** Edges that skip position `k` are those of the ring without it. */
  lemma Spliced(l: seq<ListNode>, h: ListNode, k: nat)
    requires Distinct(l, h) && k < |l| && Edge(At(l, h, k - 1), At(l, h, k + 1))
    requires forall i | -1 <= i < |l| && i != k - 1 && i != k :: Edge(At(l, h, i), At(l, h, i + 1))
    ensures Ring(Without(l, k), h)
  {
    WithoutDistinct(l, h, k);
    hide Distinct, At, Without;
    forall j | -1 <= j < |l| - 1 ensures Edge(At(Without(l, k), h, j), At(Without(l, k), h, j + 1)) {
      WithoutIs(l, h, k, j);
      WithoutIs(l, h, k, j + 1);
    }
  }
}

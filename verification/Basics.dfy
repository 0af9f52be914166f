/** What several components share: optional values, the 32-bit limit, powers of two, and lists without
    duplicates. */
module Basics {

  datatype Option<+T> = None | Some(value: T)

  const UINT32: nat := 0x1_0000_0000

  function Pow2(n: nat): (p: nat)
    ensures p >= 1
  {
    if n == 0 then 1 else 2 * Pow2(n - 1)
  }

  lemma {:induction false} Pow2Monotone(m: nat, n: nat)
    requires m <= n
    ensures Pow2(m) <= Pow2(n)
    decreases n
  {
    if m < n { Pow2Monotone(m, n - 1); }
  }

  predicate NoDuplicates(t: seq<nat>) {
    forall i, j | 0 <= i < j < |t| :: t[i] != t[j]
  }

  /** The list without its first `a`. */
  function Remove(t: seq<nat>, a: nat): seq<nat> {
    if t == [] then [] else if t[0] == a then t[1..] else [t[0]] + Remove(t[1..], a)
  }

  lemma {:induction false} RemoveMembers(t: seq<nat>, a: nat)
    requires NoDuplicates(t)
    ensures NoDuplicates(Remove(t, a))
    ensures forall x :: x in Remove(t, a) <==> x in t && x != a
  {
    if t != [] {
      assert t == [t[0]] + t[1..];
      RemoveMembers(t[1..], a);
      if t[0] != a {
        var r := Remove(t[1..], a);
        assert Remove(t, a) == [t[0]] + r && t[0] !in r;
      }
    }
  }

  /** The list without its element at index `k`. */
  function Without<T>(list: seq<T>, k: nat): (r: seq<T>)
    requires k < |list|
    ensures |r| == |list| - 1
  {
    list[..k] + list[k + 1..]
  }
}

/** The order in which deps/elfio/elfio.hpp lays out segments: a segment whose sections are among those of
    a larger segment comes after it. */
module ElfOrder {

  /** `std::includes` on section indices. */
  predicate Includes(big: seq<nat>, small: seq<nat>) {
    if small == [] then true
    else if big == [] || small[0] < big[0] then false
    else if big[0] < small[0] then Includes(big[1..], small)
    else Includes(big[1..], small[1..])
  }

  predicate Ascending(s: seq<nat>) { forall i, j | 0 <= i < j < |s| :: s[i] < s[j] }

  /** On section indices in ascending order this is the subset test. */
  lemma {:induction false} IncludesIsSubset(big: seq<nat>, small: seq<nat>)
    requires Ascending(big) && Ascending(small)
    ensures Includes(big, small) <==> forall x :: x in small ==> x in big
    decreases |big|
  {
    if small != [] && big != [] {
      assert small == [small[0]] + small[1..] && big == [big[0]] + big[1..];
      if small[0] < big[0] {
        assert small[0] in small && small[0] !in big;
      } else if big[0] < small[0] {
        IncludesIsSubset(big[1..], small);
        assert big[0] !in small;
      } else {
        IncludesIsSubset(big[1..], small[1..]);
        assert big[0] !in small[1..];
        if forall x :: x in small ==> x in big {
          forall x | x in small[1..] ensures x in big[1..] { assert x in small && x != big[0]; }
        }
      }
    } else if small != [] {
      assert small[0] in small;
    }
  }

  /** On any lists it implies it. */
  lemma {:induction false} IncludesIsPart(big: seq<nat>, small: seq<nat>)
    requires Includes(big, small)
    ensures forall x | x in small :: x in big
    decreases |big|
  {
    if small != [] {
      assert small == [small[0]] + small[1..];
      if big[0] < small[0] { IncludesIsPart(big[1..], small); } else { IncludesIsPart(big[1..], small[1..]); }
    }
  }

  /** `is_subsequence_of`: fewer sections, all of them sections of the other segment. */
  predicate Sub(segs: seq<seq<nat>>, a: nat, b: nat)
    requires a < |segs| && b < |segs|
  {
    |segs[a]| < |segs[b]| && Includes(segs[b], segs[a])
  }

  predicate Ids(segs: seq<seq<nat>>, w: seq<nat>) { forall i | 0 <= i < |w| :: w[i] < |segs| }

  /** No segment of `w` holds segment w[i]. */
  predicate Top(segs: seq<seq<nat>>, w: seq<nat>, i: nat)
    requires Ids(segs, w) && i < |w|
  {
    forall j | 0 <= j < |w| :: !Sub(segs, w[i], w[j])
  }

  /** Position of the first segment of `w` that is in no other one, from `k` on. */
  function FirstTop(segs: seq<seq<nat>>, w: seq<nat>, k: nat): (t: nat)
    requires Ids(segs, w) && k <= |w|
    ensures k <= t <= |w| && (t < |w| ==> Top(segs, w, t)) && forall i | k <= i < t :: !Top(segs, w, i)
    decreases |w| - k
  {
    if k == |w| then k else if Top(segs, w, k) then k else FirstTop(segs, w, k + 1)
  }

  function Longest(segs: seq<seq<nat>>, w: seq<nat>): (i: nat)
    requires Ids(segs, w) && w != []
    ensures i < |w| && forall j | 0 <= j < |w| :: |segs[w[j]]| <= |segs[w[i]]|
  {
    if |w| == 1 then 0
    else
      var i := Longest(segs, w[..|w| - 1]);
      if |segs[w[|w| - 1]]| > |segs[w[i]]| then |w| - 1 else i
  }

  /** A longest segment is in no other one. */
  lemma SomeTop(segs: seq<seq<nat>>, w: seq<nat>)
    requires Ids(segs, w) && w != []
    ensures FirstTop(segs, w, 0) < |w|
  {
    var i := Longest(segs, w);
    assert Top(segs, w, i);
  }

  /** Moving the front segment to the back brings the first such segment one place nearer. */
  lemma RotationGetsNearer(segs: seq<seq<nat>>, w: seq<nat>)
    requires Ids(segs, w) && w != [] && !Top(segs, w, 0)
    ensures Ids(segs, w[1..] + [w[0]]) && FirstTop(segs, w[1..] + [w[0]], 0) < FirstTop(segs, w, 0)
  {
    var r, t := w[1..] + [w[0]], FirstTop(segs, w, 0);
    SomeTop(segs, w);
    forall j | 0 <= j < |r| ensures !Sub(segs, r[t - 1], r[j]) {
      assert r[j] == w[if j + 1 < |w| then j + 1 else 0];
    }
    assert Top(segs, r, t - 1);
  }

  /** One turn of the first loop: a segment set to offset 0 changes places with the one at `next`, or with the
      one after it when that reads offset 0 already. */
  function Turn(w: seq<nat>, i: nat, next: nat, offset: seq<nat>, isSet: seq<bool>): (seq<nat>, nat)
    requires next <= i < |w| && |offset| == |isSet| && forall k | 0 <= k < |w| :: w[k] < |offset|
  {
    if i != next && isSet[w[i]] && offset[w[i]] == 0 then
      var n := if offset[w[next]] == 0 then next + 1 else next;
      (w[i := w[n]][n := w[i]], n + 1)
    else (w, next)
  }

  predicate SetToZero(s: nat, offset: seq<nat>, isSet: seq<bool>)
    requires s < |offset| == |isSet|
  {
    isSet[s] && offset[s] == 0
  }

  /** Everything before `next` reads offset 0, and what was set to 0 stands there or at `next`. */
  ghost predicate Front(w: seq<nat>, i: nat, next: nat, offset: seq<nat>, isSet: seq<bool>)
    requires i <= |w| && |offset| == |isSet| && forall k | 0 <= k < |w| :: w[k] < |offset|
  {
    && next <= i && (forall k | 0 <= k < next :: offset[w[k]] == 0)
    && (forall k | 0 <= k < i && SetToZero(w[k], offset, isSet) :: k <= next)
  }

  lemma TurnKeepsFront(w: seq<nat>, i: nat, next: nat, offset: seq<nat>, isSet: seq<bool>)
    requires i < |w| && |offset| == |isSet| && (forall k | 0 <= k < |w| :: w[k] < |offset|)
             && Front(w, i, next, offset, isSet)
    ensures var (w', next') := Turn(w, i, next, offset, isSet);
            && |w'| == |w| && multiset(w') == multiset(w) && (forall k | 0 <= k < |w'| :: w'[k] < |offset|)
            && Front(w', i + 1, next', offset, isSet)
  {
  }

  /** The first loop: segments that start at offset 0 move to the front.  Those set to 0 come before all that
      have another offset; they come first if no segment without an offset, which reads as 0, is there. */
  method ZeroFirst(offset: seq<nat>, isSet: seq<bool>) returns (w: seq<nat>)
    requires |offset| == |isSet|
    ensures multiset(w) == multiset(seq(|offset|, i requires 0 <= i < |offset| => i))
    ensures forall i | 0 <= i < |w| :: w[i] < |offset|
    ensures forall i, j | 0 <= i < j < |w| && SetToZero(w[j], offset, isSet) :: offset[w[i]] == 0
    ensures (forall s | 0 <= s < |offset| && offset[s] == 0 :: isSet[s]) ==>
              forall i, j | 0 <= i < j < |w| && SetToZero(w[j], offset, isSet) :: SetToZero(w[i], offset, isSet)
  {
    w := seq(|offset|, i requires 0 <= i < |offset| => i);
    ghost var all := multiset(w);
    var i, next := 0, 0;
    while i < |w|
      invariant i <= |w| == |offset| && multiset(w) == all
      invariant forall k | 0 <= k < |w| :: w[k] < |offset|
      invariant Front(w, i, next, offset, isSet)
    {
      TurnKeepsFront(w, i, next, offset, isSet);
      if i != next && isSet[w[i]] && offset[w[i]] == 0 {
        if offset[w[next]] == 0 { next := next + 1; }
        w := w[i := w[next]][next := w[i]];
        next := next + 1;
      }
      i := i + 1;
    }
  }

  /** A segment without an offset in front stays there: of three, the last one set to 0 becomes the second. */
  lemma UnsetStaysInFront()
    ensures var offset, isSet := [0, 0, 0], [false, false, true];
            var (w1, n1) := Turn([0, 1, 2], 0, 0, offset, isSet);
            var (w2, n2) := Turn(w1, 1, n1, offset, isSet);
            Turn(w2, 2, n2, offset, isSet) == ([0, 2, 1], 2)
  {
    assert [0, 1, 2][2 := 1][1 := 2] == [0, 2, 1];
  }

  /** No segment of `late` holds a segment of `early`. */
  predicate NoneHeld(segs: seq<seq<nat>>, early: seq<nat>, late: seq<nat>)
    requires Ids(segs, early) && Ids(segs, late)
  {
    forall i, j | 0 <= i < |early| && 0 <= j < |late| :: !Sub(segs, early[i], late[j])
  }

  predicate Ordered(segs: seq<seq<nat>>, res: seq<nat>)
    requires Ids(segs, res)
  {
    forall i, j | 0 <= i < j < |res| :: !Sub(segs, res[i], res[j])
  }

  lemma Emits(segs: seq<seq<nat>>, res: seq<nat>, seg: nat, w: seq<nat>)
    requires seg < |segs| && Ids(segs, res) && Ids(segs, w) && Ordered(segs, res) && NoneHeld(segs, res, [seg] + w)
             && NoneHeld(segs, [seg], w)
    ensures Ids(segs, res + [seg]) && Ordered(segs, res + [seg]) && NoneHeld(segs, res + [seg], w)
  {
    hide Sub;
    var r, all := res + [seg], [seg] + w;
    forall i | 0 <= i < |res| ensures !Sub(segs, res[i], seg) { assert all[0] == seg; }
    forall i, j | 0 <= i < |r| && 0 <= j < |w| ensures !Sub(segs, r[i], w[j]) {
      assert all[j + 1] == w[j];
      assert i == |res| ==> [seg][0] == r[i];
    }
  }

  lemma Rotates(segs: seq<seq<nat>>, res: seq<nat>, seg: nat, w: seq<nat>)
    requires seg < |segs| && Ids(segs, res) && Ids(segs, w) && NoneHeld(segs, res, [seg] + w)
    ensures NoneHeld(segs, res, w + [seg])
  {
    hide Sub;
    var all, r := [seg] + w, w + [seg];
    forall i, j | 0 <= i < |res| && 0 <= j < |r| ensures !Sub(segs, res[i], r[j]) {
      assert r[j] == all[if j < |w| then j + 1 else 0];
    }
  }

  /** The search for a segment of `w` that holds `seg`. */
  method Held(segs: seq<seq<nat>>, seg: nat, w: seq<nat>) returns (held: bool)
    requires seg < |segs| && Ids(segs, w)
    ensures if held then !Top(segs, [seg] + w, 0) else NoneHeld(segs, [seg], w)
  {
    hide Sub;
    var i := 0;
    while i < |w| && !Sub(segs, seg, w[i])
      invariant i <= |w| && forall k | 0 <= k < i :: !Sub(segs, seg, w[k])
    {
      i := i + 1;
    }
    held := i < |w|;
    ghost var all := [seg] + w;
    if held { assert all[i + 1] == w[i]; }
  }

  /** Segment `s` is a part of no other segment. */
  predicate Whole(segs: seq<seq<nat>>, s: nat)
    requires s < |segs|
  {
    forall t | 0 <= t < |segs| :: !Sub(segs, s, t)
  }

  /** Whatever stands before a whole segment set to offset 0 reads offset 0, too. */
  predicate ZerosLead(segs: seq<seq<nat>>, w: seq<nat>, offset: seq<nat>, isSet: seq<bool>)
    requires Ids(segs, w) && |segs| == |offset| == |isSet|
  {
    forall i, j | 0 <= i < j < |w| && SetToZero(w[j], offset, isSet) && Whole(segs, w[j]) :: offset[w[i]] == 0
  }

  /** Only segments that are a part of another one are put back, so nobody overtakes a whole segment. */
  lemma RotatesBehindWholes(segs: seq<seq<nat>>, res: seq<nat>, seg: nat, w: seq<nat>, offset: seq<nat>,
                            isSet: seq<bool>)
    requires seg < |segs| == |offset| == |isSet| && Ids(segs, res) && Ids(segs, w)
    requires !Whole(segs, seg) && ZerosLead(segs, res + ([seg] + w), offset, isSet)
    ensures ZerosLead(segs, res + (w + [seg]), offset, isSet)
  {
    hide Whole;
    var all, r, n := res + ([seg] + w), res + (w + [seg]), |res|;
    forall i, j | 0 <= i < j < |r| && SetToZero(r[j], offset, isSet) && Whole(segs, r[j]) ensures offset[r[i]] == 0 {
      assert r[i] == all[if i < n then i else i + 1] && r[j] == all[if j < n then j else j + 1];
    }
  }

  /** `get_ordered_segments`: ends, keeps every segment, and puts each segment before all segments whose
      sections are a proper part of its own.  Segments set to offset 0 that are a part of no other one come before
      all that have another offset. */
  method OrderSegments(segs: seq<seq<nat>>, offset: seq<nat>, isSet: seq<bool>) returns (res: seq<nat>)
    requires |segs| == |offset| == |isSet|
    ensures multiset(res) == multiset(seq(|segs|, i requires 0 <= i < |segs| => i))
    ensures Ids(segs, res) && Ordered(segs, res) && ZerosLead(segs, res, offset, isSet)
  {
    hide Sub, Top, NoneHeld, Ordered, FirstTop, Whole;
    var w := ZeroFirst(offset, isSet);
    ghost var all := multiset(w);
    res := [];
    NothingYet(segs, w);
    assert [] + w == w;
    while w != []
      invariant Ids(segs, w) && Ids(segs, res) && multiset(res) + multiset(w) == all
      invariant NoneHeld(segs, res, w) && Ordered(segs, res) && ZerosLead(segs, res + w, offset, isSet)
      decreases |w|, FirstTop(segs, w, 0)
    {
      var seg, rest := w[0], w[1..];
      assert w == [seg] + rest;
      var held := Held(segs, seg, rest);
      if held {
        Rotates(segs, res, seg, rest);
        HeldIsNotWhole(segs, w);
        RotatesBehindWholes(segs, res, seg, rest, offset, isSet);
        RotationGetsNearer(segs, w);
        w := rest + [seg];
      } else {
        Emits(segs, res, seg, rest);
        assert res + w == (res + [seg]) + rest;
        w := rest;
        res := res + [seg];
      }
    }
    assert res + [] == res;
  }

  lemma HeldIsNotWhole(segs: seq<seq<nat>>, w: seq<nat>)
    requires Ids(segs, w) && w != [] && !Top(segs, w, 0)
    ensures !Whole(segs, w[0])
  {
  }

  lemma NothingYet(segs: seq<seq<nat>>, w: seq<nat>)
    requires Ids(segs, w)
    ensures NoneHeld(segs, [], w) && Ordered(segs, [])
  {
  }
}

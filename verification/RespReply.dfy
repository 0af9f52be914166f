/** Replies as the Redis serialization protocol (RESP) specification defines them, their encoding, and
    the proof that the parser rebuilds exactly the reply that was encoded. */
module RespReply {
  import opened Basics
  import opened Numerals
  import opened RespParser
  import opened RespStream

  /** `Scalar` is a simple string, an error or an integer, with its leading '+', '-' or ':'. */
  datatype Value = Scalar(line: string) | BulkString(text: string) | NullBulk | Array(items: seq<Value>) | NullArray

  const CRLF := "\r\n"

  function Header(v: Value): string {
    match v
    case Scalar(line) => line
    case BulkString(text) => "$" + Decimal(|text|)
    case NullBulk => "$-1"
    case Array(items) => "*" + Decimal(|items|)
    case NullArray => "*-1"
  }

  function Encode(v: Value): string
    decreases v
  {
    match v
    case Scalar(line) => line + CRLF
    case BulkString(text) => Header(v) + CRLF + (text + CRLF)
    case NullBulk => Header(v) + CRLF
    case Array(items) => Header(v) + CRLF + EncodeAll(items)
    case NullArray => Header(v) + CRLF
  }

  function EncodeAll(items: seq<Value>): string
    decreases items
  {
    if items == [] then "" else Encode(items[0]) + EncodeAll(items[1..])
  }

  predicate NoCrlf(s: string) { forall i | 0 <= i < |s| :: !CrlfAt(s, i) }

  predicate HeaderOk(v: Value) {
    match v
    case Scalar(line) => line != [] && (line[0] == '+' || line[0] == '-' || line[0] == ':') && NoCrlf(line)
    case BulkString(text) => |text| < 0x8000_0000
    case Array(items) => |items| < 0x8000_0000
    case _ => true
  }

  /** Replies that a server may send. */
  predicate Encodable(v: Value)
    decreases v
  {
    HeaderOk(v) && (v.Array? ==> forall i | 0 <= i < |v.items| :: Encodable(v.items[i]))
  }

  predicate HasEmptyBulk(v: Value)
    decreases v
  {
    match v
    case BulkString(text) => text == []
    case Array(items) => exists i | 0 <= i < |items| :: HasEmptyBulk(items[i])
    case _ => false
  }

  /** Replies without empty bulk strings. */
  predicate Sendable(v: Value)
    decreases v
  {
    HeaderOk(v) && (v.BulkString? ==> v.text != []) && (v.Array?
        ==> forall i | 0 <= i < |v.items| :: Sendable(v.items[i]))
  }

  lemma {:induction false} SendableIff(v: Value)
    requires Encodable(v)
    ensures Sendable(v) <==> !HasEmptyBulk(v)
    decreases v
  {
    if v.Array? {
      forall i | 0 <= i < |v.items| ensures Sendable(v.items[i]) <==> !HasEmptyBulk(v.items[i]) {
        SendableIff(v.items[i]);
      }
    }
  }

  // ---------------------------------------------------------------- numbers in headers

  lemma HeaderNumber(n: nat)
    requires n < 0x8000_0000
    ensures AsInt(StrToL(Decimal(n))) == n
  {
    hide Decimal, DigitsValue;
    DecimalValue(n);
    var s := Decimal(n);
    assert !IsSpace(s[0]) && s[0] != '-' && s[0] != '+';
    assert StrToL(s) == n;
  }

  lemma MinusOne()
    ensures AsInt(StrToL("-1")) == -1
  {
    assert SkipSpace("-1") == "-1";
    assert "-1"[1..] == "1" && "1"[1..] == "";
    assert DigitsValue("1", 0) == DigitsValue("", 1);
    assert StrToL("-1") == -1;
  }

  lemma HeaderHasNoCrlf(v: Value)
    requires HeaderOk(v)
    ensures Header(v) != [] && NoCrlf(Header(v))
  {
  }

  // ---------------------------------------------------------------- what a reply does to the response fields

  /** The fields that follow the last line and the bulk strings seen. */
  datatype Tally = Tally(status: Option<string>, hits: nat, error: bool, bulkLen: nat)

  function TallyOf(t: Tally, v: Value): Tally
    decreases v
  {
    var s := t.(status := Some(CString(Header(v))));
    match v
    case Scalar(line) => s.(error := t.error || (line != [] && line[0] == '-'))
    case BulkString(text) => s.(hits := t.hits + 1, bulkLen := |text|)
    case NullBulk => s.(bulkLen := 0)
    case Array(items) => TallyAll(s, items)
    case NullArray => s
  }

  function TallyAll(t: Tally, items: seq<Value>): Tally
    decreases items
  {
    if items == [] then t else TallyAll(TallyOf(t, items[0]), items[1..])
  }

  /** Bulk strings with a value, and whether some element is an error. */
  function Hits(v: Value): nat
    decreases v
  {
    match v case BulkString(_) => 1 case Array(items) => HitsAll(items) case _ => 0
  }

  function HitsAll(items: seq<Value>): nat
    decreases items
  {
    if items == [] then 0 else Hits(items[0]) + HitsAll(items[1..])
  }

  predicate HasError(v: Value)
    decreases v
  {
    match v
    case Scalar(line) => line != [] && line[0] == '-'
    case Array(items) => exists i | 0 <= i < |items| :: HasError(items[i])
    case _ => false
  }

  /** The last line of a reply that is not the text of a bulk string. */
  function LastLine(v: Value): string
    decreases v
  {
    if v.Array? && v.items != [] then LastLine(v.items[|v.items| - 1]) else Header(v)
  }

  lemma {:induction false} TallyIs(t: Tally, v: Value)
    ensures TallyOf(t, v).hits == t.hits + Hits(v) && TallyOf(t, v).error == (t.error || HasError(v))
    ensures TallyOf(t, v).status == Some(CString(LastLine(v)))
    decreases v
  {
    if v.Array? { TallyAllIs(t.(status := Some(CString(Header(v)))), v.items); }
  }

  lemma {:induction false} TallyAllIs(t: Tally, items: seq<Value>)
    ensures TallyAll(t, items).hits == t.hits + HitsAll(items)
    ensures TallyAll(t, items).error == (t.error || exists i | 0 <= i < |items| :: HasError(items[i]))
    ensures TallyAll(t, items).status == if items == [] then t.status else Some(CString(LastLine(items[|items| - 1])))
    decreases items
  {
    if items != [] {
      TallyIs(t, items[0]);
      TallyAllIs(TallyOf(t, items[0]), items[1..]);
      var rest := items[1..];
      assert forall i | 0 <= i < |rest| :: rest[i] == items[i + 1];
      if i :| 0 <= i < |items| && HasError(items[i]) {
        if i > 0 { assert HasError(rest[i - 1]); }
      }
    }
  }

  // ---------------------------------------------------------------- what a reply adds to the array nodes

  function ElementOf(v: Value, at: nat): Element {
    match v
    case Scalar(line) => Bulk(Some(CString(line)))
    case BulkString(text) => Bulk(Some(text))
    case NullBulk => Bulk(None)
    case Array(_) => Mbulk(at)
    case NullArray => Mbulk(at)
  }

  function Items(v: Value): seq<Value> { if v.Array? then v.items else [] }

  predicate IsArray(v: Value) { v.Array? || v.NullArray? }

  /** The node of a new array, empty so far, linked into array `c`. */
  function Opened(nodes: seq<Node>, c: nat, v: Value): seq<Node>
    requires c < |nodes|
  {
    var linked := Attach(nodes, c, ElementOf(v, |nodes|));
    if IsArray(v) then linked + [Node(Some(c), |Items(v)|, [])] else linked
  }

  function Grown(nodes: seq<Node>, c: nat, v: Value): (g: seq<Node>)
    requires c < |nodes|
    ensures |g| >= |nodes|
    decreases v
  {
    if v.Array? then GrownAll(Opened(nodes, c, v), |nodes|, v.items) else Opened(nodes, c, v)
  }

  function GrownAll(nodes: seq<Node>, c: nat, items: seq<Value>): (g: seq<Node>)
    requires c < |nodes|
    ensures |g| >= |nodes|
    decreases items
  {
    if items == [] then nodes else GrownAll(Grown(nodes, c, items[0]), c, items[1..])
  }

  /** Only array `c` and new nodes change, and new nodes are complete. */
  ghost predicate Extends(g: seq<Node>, nodes: seq<Node>, c: nat, n: nat) {
    && c < |nodes| <= |g|
    && (forall i | 0 <= i < |nodes| && i != c :: g[i] == nodes[i])
    && g[c].upper == nodes[c].upper && g[c].bulksCount == nodes[c].bulksCount - n
    && |g[c].elements| == |nodes[c].elements| + n && g[c].elements[..|nodes[c].elements|] == nodes[c].elements
    && (forall i | |nodes| <= i < |g| :: g[i].bulksCount == 0 && g[i].upper.Some? && g[i].upper.value < i)
  }

  lemma {:induction false} GrownExtends(nodes: seq<Node>, c: nat, v: Value)
    requires c < |nodes|
    ensures Extends(Grown(nodes, c, v), nodes, c, 1)
    ensures Grown(nodes, c, v)[c].elements == nodes[c].elements + [ElementOf(v, |nodes|)]
    ensures IsArray(v) ==> |nodes| < |Grown(nodes, c, v)| && Grown(nodes, c, v)[|nodes|].upper == Some(c)
    decreases v
  {
    if v.Array? { GrownAllExtends(Opened(nodes, c, v), |nodes|, v.items); }
  }

  lemma {:induction false} GrownAllExtends(nodes: seq<Node>, c: nat, items: seq<Value>)
    requires c < |nodes|
    ensures Extends(GrownAll(nodes, c, items), nodes, c, |items|)
    decreases items
  {
    if items != [] {
      GrownExtends(nodes, c, items[0]);
      GrownAllExtends(Grown(nodes, c, items[0]), c, items[1..]);
    }
  }

  /** Element `e` of the node store is reply `v`, built from nodes at or above `lo`. */
  predicate Holds(nodes: seq<Node>, e: Element, v: Value, lo: nat)
    decreases v
  {
    match v
    case Scalar(line) => e == Bulk(Some(CString(line)))
    case BulkString(text) => e == Bulk(Some(text))
    case NullBulk => e == Bulk(None)
    case Array(items) =>
      && e.Mbulk? && lo <= e.at < |nodes| && |nodes[e.at].elements| == |items|
      && forall k | 0 <= k < |items| :: Holds(nodes, nodes[e.at].elements[k], items[k], lo)
    case NullArray => e.Mbulk? && lo <= e.at < |nodes| && nodes[e.at].elements == []
  }

  lemma {:induction false} HoldsFrame(a: seq<Node>, b: seq<Node>, e: Element, v: Value, lo: nat, lo': nat)
    requires Holds(a, e, v, lo) && lo' <= lo && |a| <= |b| && (forall i | lo <= i < |a| :: b[i] == a[i])
    ensures Holds(b, e, v, lo')
    decreases v
  {
    if v.Array? {
      forall k | 0 <= k < |v.items| ensures Holds(b, b[e.at].elements[k], v.items[k], lo') {
        HoldsFrame(a, b, a[e.at].elements[k], v.items[k], lo, lo');
      }
    }
  }

  /** An array node whose elements are the replies of `items` holds the array. */
  lemma ArrayHolds(g: seq<Node>, at: nat, items: seq<Value>, lo: nat, mid: nat)
    requires lo <= at && lo <= mid <= |g| && AllHold(g, at, 0, items, mid)
    ensures Holds(g, Mbulk(at), Array(items), lo)
  {
    forall k | 0 <= k < |items| ensures Holds(g, g[at].elements[k], items[k], lo) {
      HoldsFrame(g, g, g[at].elements[0 + k], items[k], mid, lo);
    }
  }

  lemma {:induction false} GrownHolds(nodes: seq<Node>, c: nat, v: Value)
    requires c < |nodes|
    ensures Holds(Grown(nodes, c, v), ElementOf(v, |nodes|), v, |nodes|)
    decreases v
  {
    if v.Array? {
      var o := Opened(nodes, c, v);
      GrownAllHolds(o, |nodes|, v.items);
      ArrayHolds(GrownAll(o, |nodes|, v.items), |nodes|, v.items, |nodes|, |o|);
    }
  }

  /** Growing by the other elements leaves the first one in place. */
  lemma FirstHolds(n1: seq<Node>, g: seq<Node>, c: nat, n: nat, m: nat, v: Value, lo: nat)
    requires Extends(g, n1, c, n) && c < lo <= |n1| && m < |n1[c].elements| && Holds(n1, n1[c].elements[m], v, lo)
    ensures m < |g[c].elements| && Holds(g, g[c].elements[m], v, lo)
  {
    assert g[c].elements[m] == g[c].elements[..|n1[c].elements|][m];
    HoldsFrame(n1, g, n1[c].elements[m], v, lo, lo);
  }

  /** Elements `m`, `m + 1`, ... of array `c` are the replies of `items`. */
  predicate AllHold(g: seq<Node>, c: nat, m: nat, items: seq<Value>, lo: nat) {
    && c < |g| && |g[c].elements| == m + |items|
    && forall k | 0 <= k < |items| :: Holds(g, g[c].elements[m + k], items[k], lo)
  }

  lemma AllHoldCons(g: seq<Node>, c: nat, m: nat, items: seq<Value>, mid: nat, lo: nat)
    requires items != [] && lo <= mid <= |g| && AllHold(g, c, m + 1, items[1..], mid)
             && Holds(g, g[c].elements[m], items[0], lo)
    ensures AllHold(g, c, m, items, lo)
  {
    hide Holds;
    forall k | 0 <= k < |items| ensures Holds(g, g[c].elements[m + k], items[k], lo) {
      if k > 0 {
        assert items[k] == items[1..][k - 1];
        HoldsFrame(g, g, g[c].elements[m + 1 + (k - 1)], items[k], mid, lo);
      }
    }
  }

  lemma {:induction false} GrownAllHolds(nodes: seq<Node>, c: nat, items: seq<Value>)
    requires c < |nodes|
    ensures AllHold(GrownAll(nodes, c, items), c, |nodes[c].elements|, items, |nodes|)
    decreases items
  {
    GrownAllExtends(nodes, c, items);
    if items != [] {
      var n1 := Grown(nodes, c, items[0]);
      var g, m := GrownAll(nodes, c, items), |nodes[c].elements|;
      assert g == GrownAll(n1, c, items[1..]);
      hide Holds, Grown, GrownAll;
      GrownExtends(nodes, c, items[0]);
      GrownHolds(nodes, c, items[0]);
      GrownAllExtends(n1, c, items[1..]);
      GrownAllHolds(n1, c, items[1..]);
      FirstHolds(n1, g, c, |items| - 1, m, items[0], |nodes|);
      AllHoldCons(g, c, m, items, |n1|, |nodes|);
    }
  }
}

/** Parsing undoes encoding: whatever reply is sent, the parser consumes exactly its bytes and rebuilds it. */
module RespRoundTrip {
  import opened Basics
  import opened Numerals
  import opened RespParser
  import opened RespStream
  import opened RespReply

  /** What parsing continues with once an element is complete. */
  function Resume(q: Parser): Parsed
    requires q.totalBulks > 0 ==> Wf(q)
  {
    if q.totalBulks == 0 then Parsed(1, Complete(q).next) else Parse(q)
  }

  predicate Ready(p: Parser) { Wf(p) && p.state == ReadLine && p.totalBulks > 0 }

  /** Ready for `n` more elements of the array that is open. */
  predicate ReadyFor(p: Parser, n: nat) {
    Ready(p) && p.totalBulks >= n && (p.keepValue ==> p.nodes[p.current.value].bulksCount >= n)
  }

  function TallyIn(p: Parser): Tally { Tally(p.response.status, p.response.hits, p.response.error, p.bulkLen) }

  /** The parser after `n` elements were read: bytes, counters and response fields. */
  function Counted(p: Parser, t: Tally, bytes: nat, n: nat, rest: string): Parser
    requires n <= p.totalBulks
  {
    p.(buf := rest, responseLen := p.responseLen + bytes, totalBulks := p.totalBulks - n, bulkLen := t.bulkLen,
       response := p.response.(status := t.status, hits := t.hits, error := t.error))
  }

  lemma GrownOk(nodes: seq<Node>, c: nat, v: Value)
    requires NodesOk(nodes) && c < |nodes| && nodes[c].bulksCount > 0
    ensures NodesOk(Grown(nodes, c, v))
  {
    GrownExtends(nodes, c, v);
  }

  lemma GrownAllOk(nodes: seq<Node>, c: nat, items: seq<Value>)
    requires NodesOk(nodes) && c < |nodes| && nodes[c].bulksCount >= |items|
    ensures NodesOk(GrownAll(nodes, c, items))
  {
    GrownAllExtends(nodes, c, items);
  }

  /** The parser after one reply inside an array. */
  function Absorb(p: Parser, v: Value, rest: string): Parser
    requires Ready(p)
  {
    var q := Counted(p, TallyOf(TallyIn(p), v), |Encode(v)|, 1, rest);
    if !p.keepValue then q
    else
      GrownOk(p.nodes, p.current.value, v);
      var g := Grown(p.nodes, p.current.value, v);
      q.(nodes := g, current := Next(g, p.current))
  }

  function AbsorbAll(p: Parser, items: seq<Value>, rest: string): Parser
    requires ReadyFor(p, |items|)
  {
    var q := Counted(p, TallyAll(TallyIn(p), items), |EncodeAll(items)|, |items|, rest);
    if !p.keepValue then q
    else
      GrownAllOk(p.nodes, p.current.value, items);
      var g := GrownAll(p.nodes, p.current.value, items);
      q.(nodes := g, current := Next(g, p.current))
  }

  /** The header line of `v` is taken in one turn. */
  lemma LineStep(p: Parser, line: string, rest: string)
    requires Wf(p) && p.state == ReadLine && NoCrlf(line) && p.buf == line + CRLF + rest
    ensures Wf(p.(buf := rest, responseLen := p.responseLen + |line| + 2))
    ensures Step(p) == OnLine(p.(buf := rest, responseLen := p.responseLen + |line| + 2), line)
  {
    hide OnLine;
    assert CrlfAt(p.buf, |line|);
    forall i | 0 <= i < |line| ensures !CrlfAt(p.buf, i) { assert !CrlfAt(line, i); }
    assert FirstCrlf(p.buf, 0) == |line|;
    assert p.buf[..|line|] == line && p.buf[|line| + 2..] == rest;
  }

  /** A turn that completes an element hands over to `Resume`. */
  lemma CompleteResumes(p: Parser, q: Parser)
    requires Wf(p) && Step(p) == Complete(q) && q.state == ReadLine
    ensures q.totalBulks > 0 ==> Wf(q)
    ensures Parse(p) == Resume(q)
  {
    hide Step, Wf;
    StepKeepsWf(p);
  }

  lemma ParseContinues(p: Parser)
    requires Wf(p) && Step(p).Continue?
    ensures Wf(Step(p).next) && Parse(p) == Parse(Step(p).next)
  {
    hide Step, Wf;
    StepKeepsWf(p);
  }

  lemma ScalarStep(p: Parser, v: Value, rest: string)
    requires Ready(p) && v.Scalar? && Sendable(v)
    ensures var q := p.(buf := rest, responseLen := p.responseLen + |v.line| + 2);
            Wf(q) && OnSimple(q, v.line) == Complete(Absorb(p, v, rest)) && Absorb(p, v, rest).state == ReadLine
  {
    hide ChainSum, Next, CString, NoCrlf;
  }

  lemma ScalarElement(p: Parser, v: Value, rest: string)
    requires Ready(p) && v.Scalar? && Sendable(v) && p.buf == Encode(v) + rest
    ensures Absorb(p, v, rest).totalBulks > 0 ==> Wf(Absorb(p, v, rest))
    ensures Parse(p) == Resume(Absorb(p, v, rest))
  {
    hide Absorb, OnSimple, Step, Wf;
    LineStep(p, v.line, rest);
    ScalarStep(p, v, rest);
    CompleteResumes(p, Absorb(p, v, rest));
  }

  /** A bulk string outside arrays counts itself. */
  function AtLeastOne(n: nat): nat { if n == 0 then 1 else n }

  lemma BulkStep(p: Parser, v: Value, text: string, rest: string)
    requires Ready(p) && v == BulkString(text) && |text| > 0
    ensures var q := p.(buf := text + CRLF + rest, responseLen := p.responseLen + |Header(v)| + 2 + |text| + 2,
            bulkLen := |text|, state := EndBulk,
                        response := p.response.(status := Some(CString(Header(v))), hits := p.response.hits + 1));
            Wf(q) && Step(q) == Complete(Absorb(p, v, rest)) && Absorb(p, v, rest).state == ReadLine
  {
    hide ChainSum, Next, CString, Decimal;
    var b := text + CRLF + rest;
    assert b[..|text|] == text && b[|text| + 2..] == rest;
  }

  /** The header line of a bulk string makes the parser wait for the string. */
  lemma BulkLineStep(p: Parser, v: Value, text: string, body: string)
    requires Wf(p) && p.state == ReadLine && v == BulkString(text) && HeaderOk(v) && text != []
             && p.buf == Header(v) + CRLF + body
    ensures Step(p) == Continue(p.(buf := body, responseLen := p.responseLen + |Header(v)| + 2, bulkLen := |text|,
            totalBulks := AtLeastOne(p.totalBulks), state := ReadBulk,
                                   response := p.response.(status := Some(CString(Header(v))))))
  {
    hide ChainSum, Next, CString, Decimal, StrToL, AsInt, Step;
    HeaderHasNoCrlf(v);
    HeaderNumber(|text|);
    assert Header(v)[1..] == Decimal(|text|);
    LineStep(p, Header(v), body);
  }

  /** The two turns before the bytes of a bulk string are taken. */
  lemma BulkHeader(p: Parser, v: Value, text: string, rest: string)
    requires Wf(p) && p.state == ReadLine && v == BulkString(text) && Sendable(v) && p.buf == Encode(v) + rest
    ensures var q := p.(buf := text + CRLF + rest, responseLen := p.responseLen + |Header(v)| + 2 + |text| + 2,
            bulkLen := |text|, totalBulks := AtLeastOne(p.totalBulks), state := EndBulk,
                        response := p.response.(status := Some(CString(Header(v))), hits := p.response.hits + 1));
            Wf(q) && Parse(p) == Parse(q)
  {
    hide ChainSum, Next, CString, Decimal, Parse, OnLine, OnBulkEnd, FirstCrlf, NodesOk;
    assert p.buf == Header(v) + CRLF + (text + CRLF + rest);
    BulkLineStep(p, v, text, text + CRLF + rest);
    ParseContinues(p);
    ParseContinues(Step(p).next);
  }

  lemma BulkElement(p: Parser, v: Value, text: string, rest: string)
    requires Ready(p) && v == BulkString(text) && Sendable(v) && p.buf == Encode(v) + rest
    ensures Absorb(p, v, rest).totalBulks > 0 ==> Wf(Absorb(p, v, rest))
    ensures Parse(p) == Resume(Absorb(p, v, rest))
  {
    hide Absorb, Step, Wf, Decimal;
    BulkHeader(p, v, text, rest);
    BulkStep(p, v, text, rest);
    var q := p.(buf := text + CRLF + rest, responseLen := p.responseLen + |Header(v)| + 2 + |text| + 2,
        bulkLen := |text|, state := EndBulk,
                response := p.response.(status := Some(CString(Header(v))), hits := p.response.hits + 1));
    CompleteResumes(q, Absorb(p, v, rest));
  }

  lemma NullStep(p: Parser, v: Value, rest: string)
    requires Ready(p) && v.NullBulk?
    ensures var q := p.(buf := rest, responseLen := p.responseLen + |Header(v)| + 2, bulkLen := 0, state := EndBulk,
                        response := p.response.(status := Some(CString(Header(v)))));
            Wf(q) && Step(q) == Complete(Absorb(p, v, rest)) && Absorb(p, v, rest).state == ReadLine
  {
    hide ChainSum, Next, CString;
  }

  lemma NullHeader(p: Parser, v: Value, rest: string)
    requires Wf(p) && p.state == ReadLine && v.NullBulk? && p.buf == Encode(v) + rest
    ensures var q := p.(buf := rest, responseLen := p.responseLen + |Header(v)| + 2, bulkLen := 0,
            totalBulks := AtLeastOne(p.totalBulks), state := EndBulk,
                        response := p.response.(status := Some(CString(Header(v)))));
            Wf(q) && Parse(p) == Parse(q)
  {
    hide ChainSum, Next, CString, StrToL, AsInt, Step, Parse;
    HeaderHasNoCrlf(v);
    MinusOne();
    assert Header(v)[1..] == "-1";
    LineStep(p, Header(v), rest);
    ParseContinues(p);
  }

  lemma NullElement(p: Parser, v: Value, rest: string)
    requires Ready(p) && v.NullBulk? && p.buf == Encode(v) + rest
    ensures Absorb(p, v, rest).totalBulks > 0 ==> Wf(Absorb(p, v, rest))
    ensures Parse(p) == Resume(Absorb(p, v, rest))
  {
    hide Absorb, Step, Wf;
    NullHeader(p, v, rest);
    NullStep(p, v, rest);
    var q := p.(buf := rest, responseLen := p.responseLen + |Header(v)| + 2, bulkLen := 0, state := EndBulk,
                response := p.response.(status := Some(CString(Header(v)))));
    CompleteResumes(q, Absorb(p, v, rest));
  }

  lemma OpenedOk(nodes: seq<Node>, c: nat, v: Value)
    requires NodesOk(nodes) && c < |nodes| && nodes[c].bulksCount > 0
    ensures NodesOk(Opened(nodes, c, v))
  {
  }

  /** The parser after the header line of an array inside an array. */
  function AfterHeader(p: Parser, v: Value, body: string): Parser
    requires Ready(p) && IsArray(v)
  {
    var q := p.(buf := body, responseLen := p.responseLen + |Header(v)| + 2,
        totalBulks := p.totalBulks - 1 + |Items(v)|,
                response := p.response.(status := Some(CString(Header(v)))));
    if !p.keepValue then q
    else
      OpenedOk(p.nodes, p.current.value, v);
      var o := Opened(p.nodes, p.current.value, v);
      q.(nodes := o, current := Next(o, Some(|p.nodes|)))
  }

  lemma OnArrayIs(p: Parser, v: Value, body: string)
    requires Ready(p) && IsArray(v)
    ensures var q := p.(buf := body, responseLen := p.responseLen + |Header(v)| + 2);
            Wf(q) && OnArray(q, Header(v), |Items(v)|) == Complete(AfterHeader(p, v, body))
                && AfterHeader(p, v, body).state == ReadLine
  {
    hide ChainSum, Next, CString, Header;
  }

  lemma ArrayCount(v: Value)
    requires IsArray(v) && HeaderOk(v)
    ensures var h := Header(v); h != [] && h[0] == '*' && NoCrlf(h)
    ensures |Items(v)| == var n := AsInt(StrToL(Header(v)[1..])); if n < 0 then 0 else n
  {
    HeaderHasNoCrlf(v);
    MinusOne();
    if v.Array? {
      HeaderNumber(|v.items|);
      assert Header(v)[1..] == Decimal(|v.items|);
    } else {
      assert Header(v)[1..] == "-1";
    }
  }

  lemma ArrayHeader(p: Parser, v: Value, body: string)
    requires Ready(p) && IsArray(v) && HeaderOk(v) && p.buf == Header(v) + CRLF + body
    ensures AfterHeader(p, v, body).totalBulks > 0 ==> Wf(AfterHeader(p, v, body))
    ensures Parse(p) == Resume(AfterHeader(p, v, body))
  {
    hide Wf, Step, OnArray, Header, StrToL, AsInt, AfterHeader;
    ArrayCount(v);
    LineStep(p, Header(v), body);
    OnArrayIs(p, v, body);
    CompleteResumes(p, AfterHeader(p, v, body));
  }

  /** An array without elements is complete after its header. */
  lemma EmptyArray(p: Parser, v: Value, rest: string)
    requires Ready(p) && IsArray(v) && Items(v) == []
    ensures AfterHeader(p, v, rest) == Absorb(p, v, rest)
  {
    hide ChainSum, CString, Decimal;
    assert |Encode(v)| == |Header(v)| + 2;
    if p.keepValue {
      var c, o := p.current.value, Opened(p.nodes, p.current.value, v);
      assert Grown(p.nodes, c, v) == o;
      assert o[|p.nodes|] == Node(Some(c), 0, []);
      OpenedOk(p.nodes, c, v);
      assert Next(o, Some(|p.nodes|)) == Next(o, Some(c));
    }
    assert TallyOf(TallyIn(p), v) == TallyIn(p).(status := Some(CString(Header(v))));
  }

  lemma OpenArray(p: Parser, v: Value, body: string)
    requires Ready(p) && IsArray(v) && Items(v) != []
    requires Wf(AfterHeader(p, v, body))
    ensures ReadyFor(AfterHeader(p, v, body), |v.items|)
    ensures p.keepValue ==>
              && AfterHeader(p, v, body).current == Some(|p.nodes|)
              && AfterHeader(p, v, body).nodes == Opened(p.nodes, p.current.value, v)
  {
    hide ChainSum, CString, Decimal;
  }

  /** Filling the new array and then leaving it is the whole effect of the array. */
  lemma FilledArray(p: Parser, v: Value, body: string, rest: string)
    requires Ready(p) && v.Array? && v.items != [] && ReadyFor(AfterHeader(p, v, body), |v.items|)
    requires p.keepValue ==>
               && AfterHeader(p, v, body).current == Some(|p.nodes|)
               && AfterHeader(p, v, body).nodes == Opened(p.nodes, p.current.value, v)
    ensures AbsorbAll(AfterHeader(p, v, body), v.items, rest) == Absorb(p, v, rest)
  {
    hide ChainSum, CString, Header, GrownAll, TallyAll;
    assert |Encode(v)| == |Header(v)| + 2 + |EncodeAll(v.items)|;
    if p.keepValue {
      var c, g := p.current.value, Grown(p.nodes, p.current.value, v);
      GrownOk(p.nodes, c, v);
      GrownExtends(p.nodes, c, v);
      GrownAllExtends(Opened(p.nodes, c, v), |p.nodes|, v.items);
      assert g[|p.nodes|].bulksCount == 0 && g[|p.nodes|].upper == Some(c);
      assert Next(g, Some(|p.nodes|)) == Next(g, Some(c));
    }
  }

  /** After all but the last element the parser is still in the same array. */
  lemma StillOpen(p: Parser, items: seq<Value>, body: string)
    requires ReadyFor(p, |items|) && |items| > 1 && Wf(Absorb(p, items[0], body))
    ensures ReadyFor(Absorb(p, items[0], body), |items| - 1) && Absorb(p, items[0], body).current == p.current
  {
    hide ChainSum, CString, Encode, TallyOf, Grown;
    if p.keepValue { GrownExtends(p.nodes, p.current.value, items[0]); }
  }

  lemma AbsorbCons(p: Parser, items: seq<Value>, body: string, rest: string)
    requires ReadyFor(p, |items|) && |items| > 1
    requires ReadyFor(Absorb(p, items[0], body), |items| - 1) && Absorb(p, items[0], body).current == p.current
    ensures AbsorbAll(Absorb(p, items[0], body), items[1..], rest) == AbsorbAll(p, items, rest)
  {
    hide ChainSum, CString, Encode, TallyOf, Grown, Next;
    assert |EncodeAll(items)| == |Encode(items[0])| + |EncodeAll(items[1..])|;
  }

  lemma AbsorbOne(p: Parser, items: seq<Value>, rest: string)
    requires ReadyFor(p, 1) && |items| == 1
    ensures AbsorbAll(p, items, rest) == Absorb(p, items[0], rest)
  {
    hide ChainSum, CString, Encode, TallyOf, Grown, Next;
    assert items[1..] == [];
    assert EncodeAll(items) == Encode(items[0]) + "" == Encode(items[0]);
    assert TallyAll(TallyIn(p), items) == TallyOf(TallyIn(p), items[0]);
    if p.keepValue { assert GrownAll(p.nodes, p.current.value, items) == Grown(p.nodes, p.current.value, items[0]); }
  }

  /** One reply inside an array is read as a whole, whatever follows it. */
  lemma {:induction false} ParseElement(p: Parser, v: Value, rest: string)
    requires Ready(p) && Sendable(v) && p.buf == Encode(v) + rest
    ensures Absorb(p, v, rest).totalBulks > 0 ==> Wf(Absorb(p, v, rest))
    ensures Parse(p) == Resume(Absorb(p, v, rest))
    decreases v
  {
    hide Wf, Absorb, AbsorbAll, AfterHeader, Parse;
    match v
    case Scalar(_) => ScalarElement(p, v, rest);
    case BulkString(text) => BulkElement(p, v, text, rest);
    case NullBulk => NullElement(p, v, rest);
    case NullArray =>
      ArrayHeader(p, v, rest);
      EmptyArray(p, v, rest);
    case Array(items) =>
      var body := EncodeAll(items) + rest;
      assert p.buf == Header(v) + CRLF + body;
      ArrayHeader(p, v, body);
      if items == [] {
        assert body == rest;
        EmptyArray(p, v, rest);
      } else {
        HeaderTotal(p, v, body);
        OpenArray(p, v, body);
        ParseItems(AfterHeader(p, v, body), items, rest);
        FilledArray(p, v, body, rest);
      }
  }

  lemma HeaderTotal(p: Parser, v: Value, body: string)
    requires Ready(p) && IsArray(v)
    ensures AfterHeader(p, v, body).totalBulks == p.totalBulks - 1 + |Items(v)| && AfterHeader(p, v, body).buf == body
  {
  }

  lemma AbsorbTotal(p: Parser, v: Value, rest: string)
    requires Ready(p)
    ensures Absorb(p, v, rest).totalBulks == p.totalBulks - 1 && Absorb(p, v, rest).buf == rest
  {
  }

  lemma {:induction false} ParseItems(p: Parser, items: seq<Value>, rest: string)
    requires items != [] && ReadyFor(p, |items|) && (forall i | 0 <= i < |items| :: Sendable(items[i]))
             && p.buf == EncodeAll(items) + rest
    ensures AbsorbAll(p, items, rest).totalBulks > 0 ==> Wf(AbsorbAll(p, items, rest))
    ensures Parse(p) == Resume(AbsorbAll(p, items, rest))
    decreases items
  {
    hide Wf, Absorb, AbsorbAll, Parse, Sendable, ReadyFor;
    ReadyForIs(p, |items|);
    var body := EncodeAll(items[1..]) + rest;
    assert p.buf == Encode(items[0]) + body;
    ParseElement(p, items[0], body);
    if |items| == 1 {
      assert items[1..] == [] && body == rest;
      AbsorbOne(p, items, rest);
    } else {
      AbsorbTotal(p, items[0], body);
      StillOpen(p, items, body);
      ParseItems(Absorb(p, items[0], body), items[1..], rest);
      AbsorbCons(p, items, body, rest);
    }
  }

  lemma ReadyForIs(p: Parser, n: nat)
    requires ReadyFor(p, n)
    ensures Ready(p) && p.totalBulks >= n && (n >= 1 ==> ReadyFor(p, 1))
  {
  }

  // ---------------------------------------------------------------- whole replies

  /** What the caller is told about reply `v`. */
  ghost predicate Reports(r: Report, v: Value, keep: bool) {
    && r.response.totalLen == |Encode(v)| % UINT32 && r.response.hits == Hits(v) && r.response.error == HasError(v)
    && r.response.status == Some(CString(LastLine(v)))
    && r.response.value == (if keep && v.BulkString? then Some(v.text) else None)
    && (keep && IsArray(v) ==> r.response.mbulk == Some(0) && Holds(r.nodes, Mbulk(0), v, 0))
    && (!keep || !IsArray(v) ==> r.response.mbulk == None)
  }

  /** `parse_response` returns 1, has consumed exactly the bytes of `v`, and reports `v`. */
  ghost predicate Understood(r: Parsed, v: Value, keep: bool, rest: string) {
    && r.ret == 1 && r.parser.state == Initial && r.parser.keepValue == keep && r.parser.buf == rest
    && Reports(Report(r.parser.response, r.parser.nodes), v, keep)
  }

  /** The parser right after it cleared the last response. */
  function Blank(keep: bool, bulkLen: nat, buf: string): (p: Parser)
    ensures Wf(p)
  {
    Parser(keep, ReadLine, bulkLen, 0, 0, None, [], CLEARED, buf)
  }

  lemma StartsBlank(p: Parser)
    requires Wf(p) && p.state == Initial
    ensures Parse(p) == Parse(Blank(p.keepValue, p.bulkLen, p.buf))
  {
    assert Step(p) == Continue(Blank(p.keepValue, p.bulkLen, p.buf));
  }

  lemma TopScalar(keep: bool, n: nat, v: Value, rest: string)
    requires v.Scalar? && Sendable(v)
    ensures Understood(Parse(Blank(keep, n, Encode(v) + rest)), v, keep, rest)
  {
    LineStep(Blank(keep, n, Encode(v) + rest), v.line, rest);
  }

  lemma TopBulkEnd(q: Parser, text: string, rest: string)
    requires Wf(q) && q.state == EndBulk && q.totalBulks == 1 && q.current.None? && q.bulkLen == |text| > 0
             && q.buf == text + CRLF + rest
    ensures var r := q.response.(value := if q.keepValue then Some(text)
            else q.response.value, totalLen := q.responseLen % UINT32);
            Parse(q) == Parsed(1, q.(buf := rest, totalBulks := 0, state := Initial, response := r))
  {
    assert q.buf[..|text|] == text && q.buf[|text| + 2..] == rest;
  }

  lemma TopBulk(keep: bool, n: nat, v: Value, text: string, rest: string)
    requires v == BulkString(text) && Sendable(v)
    ensures Understood(Parse(Blank(keep, n, Encode(v) + rest)), v, keep, rest)
  {
    hide Decimal, CString, Parse, Wf;
    var p := Blank(keep, n, Encode(v) + rest);
    BulkHeader(p, v, text, rest);
    TopBulkEnd(p.(buf := text + CRLF + rest, responseLen := |Header(v)| + 2 + |text| + 2, bulkLen := |text|,
        totalBulks := 1, state := EndBulk,
                  response := p.response.(status := Some(CString(Header(v))), hits := 1)), text, rest);
  }

  lemma TopNull(keep: bool, n: nat, v: Value, rest: string)
    requires v.NullBulk?
    ensures Understood(Parse(Blank(keep, n, Encode(v) + rest)), v, keep, rest)
  {
    NullHeader(Blank(keep, n, Encode(v) + rest), v, rest);
  }

  /** The parser after the header line of a top-level array. */
  function RootOpened(keep: bool, n: nat, v: Value, body: string): Parser {
    var count := |Items(v)|;
    Parser(keep, ReadLine, n, |Header(v)| + 2, count, if keep && count > 0 then Some(0)
        else None, if keep then [Node(None, count, [])] else [],
           Response(Some(CString(Header(v))), None, if keep then Some(0) else None, 0, 0, false), body)
  }

  lemma RootStep(keep: bool, n: nat, v: Value, body: string)
    requires IsArray(v)
    ensures OnArray(Blank(keep, n, body).(responseLen := |Header(v)| + 2), Header(v), |Items(v)|) ==
            Complete(RootOpened(keep, n, v, body))
  {
    hide Header, CString, ChainSum;
    var count := |Items(v)|;
    assert [] + [Node(None, count, [])] == [Node(None, count, [])];
  }

  lemma RootHeader(keep: bool, n: nat, v: Value, body: string)
    requires IsArray(v) && HeaderOk(v)
    ensures var q, p := RootOpened(keep, n, v, body), Blank(keep, n, Header(v) + CRLF + body);
            (q.totalBulks > 0 ==> Wf(q)) && Parse(p) == Resume(q)
  {
    hide Wf, Step, OnArray, Header, StrToL, AsInt;
    var p := Blank(keep, n, Header(v) + CRLF + body);
    ArrayCount(v);
    LineStep(p, Header(v), body);
    RootStep(keep, n, v, body);
    CompleteResumes(p, RootOpened(keep, n, v, body));
  }

  lemma EmptyTop(keep: bool, n: nat, v: Value, rest: string)
    requires IsArray(v) && Items(v) == []
    ensures Understood(Resume(RootOpened(keep, n, v, rest)), v, keep, rest)
  {
    hide Decimal, CString;
    assert |Encode(v)| == |Header(v)| + 2;
    assert !HasError(v) && Hits(v) == 0;
    var q := RootOpened(keep, n, v, rest);
    assert Resume(q) == Parsed(1, q.(response := q.response.(totalLen := q.responseLen % UINT32), state := Initial));
    if keep { assert Holds(q.nodes, Mbulk(0), v, 0); }
  }

  lemma RootReady(keep: bool, n: nat, v: Value, body: string)
    requires v.Array? && v.items != [] && Wf(RootOpened(keep, n, v, body))
    ensures ReadyFor(RootOpened(keep, n, v, body), |v.items|)
  {
  }

  /** When the last element is in, the counter is back at zero and the tree is whole. */
  lemma RootFilled(keep: bool, n: nat, v: Value, body: string, rest: string)
    requires v.Array? && v.items != [] && ReadyFor(RootOpened(keep, n, v, body), |v.items|)
    ensures AbsorbAll(RootOpened(keep, n, v, body), v.items, rest).totalBulks == 0
    ensures Understood(Resume(AbsorbAll(RootOpened(keep, n, v, body), v.items, rest)), v, keep, rest)
  {
    hide CString, Header, TallyAll, GrownAll, Holds, Next, ReadyFor;
    var p := RootOpened(keep, n, v, body);
    TallyAllIs(TallyIn(p), v.items);
    assert |Encode(v)| == |Header(v)| + 2 + |EncodeAll(v.items)|;
    if keep {
      GrownAllHolds(p.nodes, 0, v.items);
      ArrayHolds(GrownAll(p.nodes, 0, v.items), 0, v.items, 0, 1);
    }
  }

  lemma TopArray(keep: bool, n: nat, v: Value, rest: string)
    requires IsArray(v) && Sendable(v)
    ensures Understood(Parse(Blank(keep, n, Encode(v) + rest)), v, keep, rest)
  {
    hide Wf, Understood, AbsorbAll, Parse;
    var body := EncodeAll(Items(v)) + rest;
    assert Encode(v) + rest == Header(v) + CRLF + body;
    RootHeader(keep, n, v, body);
    if Items(v) == [] {
      assert body == rest;
      EmptyTop(keep, n, v, rest);
    } else {
      RootReady(keep, n, v, body);
      ParseItems(RootOpened(keep, n, v, body), v.items, rest);
      RootFilled(keep, n, v, body, rest);
    }
  }

  /** Every reply without empty bulk strings, however deeply nested, is consumed exactly and rebuilt as
      the reply that was encoded. */
  lemma ReplyRoundTrip(p: Parser, v: Value, rest: string)
    requires Wf(p) && p.state == Initial && Sendable(v) && p.buf == Encode(v) + rest
    ensures Understood(Parse(p), v, p.keepValue, rest)
  {
    hide Understood;
    StartsBlank(p);
    match v
    case Scalar(_) => TopScalar(p.keepValue, p.bulkLen, v, rest);
    case BulkString(text) => TopBulk(p.keepValue, p.bulkLen, v, text, rest);
    case NullBulk => TopNull(p.keepValue, p.bulkLen, v, rest);
    case Array(_) => TopArray(p.keepValue, p.bulkLen, v, rest);
    case NullArray => TopArray(p.keepValue, p.bulkLen, v, rest);
  }

  // ---------------------------------------------------------------- streams of replies, in chunks

  ghost predicate AllReported(rs: seq<Report>, vs: seq<Value>, keep: bool) {
    |rs| == |vs| && forall i | 0 <= i < |vs| :: Reports(rs[i], vs[i], keep)
  }

  /** The connection after the reply at the front of its buffer was taken. */
  function Took(c: Connection): Connection
    requires Wf(c.parser)
  {
    var r := Parse(c.parser);
    c.(parser := r.parser, replies := c.replies + [Report(r.parser.response, r.parser.nodes)])
  }

  lemma TakesOne(c: Connection, v: Value, rest: string)
    requires Wf(c.parser) && c.parser.state == Initial && !c.failed && Sendable(v) && c.parser.buf == Encode(v) + rest
    ensures var d := Took(c);
            && Wf(d.parser) && d.parser.state == Initial && !d.failed && d.parser.buf == rest
                && d.parser.keepValue == c.parser.keepValue
            && Drain(c) == Drain(d)
            && |d.replies| == |c.replies| + 1 && d.replies[..|c.replies|] == c.replies
                && Reports(d.replies[|c.replies|], v, c.parser.keepValue)
  {
    hide Wf, Parse, Reports;
    ReplyRoundTrip(c.parser, v, rest);
  }

  /** `now` is `before` followed by one report for each of `vs`. */
  ghost predicate Adds(now: seq<Report>, before: seq<Report>, vs: seq<Value>, keep: bool) {
    |now| == |before| + |vs| && now[..|before|] == before && AllReported(now[|before|..], vs, keep)
  }

  lemma AddsCons(now: seq<Report>, mid: seq<Report>, before: seq<Report>, vs: seq<Value>, keep: bool)
    requires vs != [] && |mid| == |before| + 1 && mid[..|before|] == before && Reports(mid[|before|], vs[0], keep)
             && Adds(now, mid, vs[1..], keep)
    ensures Adds(now, before, vs, keep)
  {
    hide Reports;
    assert now[|before|] == now[..|mid|][|before|] == mid[|before|];
    assert now[..|before|] == now[..|mid|][..|before|];
    forall i | 0 <= i < |vs| ensures Reports(now[|before|..][i], vs[i], keep) {
      if i > 0 { assert now[|before|..][i] == now[|mid|..][i - 1] && vs[i] == vs[1..][i - 1]; }
    }
  }

  lemma {:induction false} DrainReplies(c: Connection, vs: seq<Value>)
    requires Wf(c.parser) && c.parser.state == Initial && !c.failed && c.parser.buf == EncodeAll(vs)
             && forall i | 0 <= i < |vs| :: Sendable(vs[i])
    ensures !Drain(c).failed && Drain(c).parser.buf == "" && Adds(Drain(c).replies, c.replies, vs, c.parser.keepValue)
    decreases |vs|
  {
    if vs == [] {
      EmptyBufferWaits(c.parser);
      assert c.replies[|c.replies|..] == [];
    } else {
      hide Wf, Took, Drain, Reports, Sendable, Adds;
      TakesOne(c, vs[0], EncodeAll(vs[1..]));
      DrainReplies(Took(c), vs[1..]);
      AddsCons(Drain(c).replies, Took(c).replies, c.replies, vs, c.parser.keepValue);
    }
  }

  lemma EmptyBufferWaits(p: Parser)
    requires Wf(p) && p.state == Initial && p.buf == ""
    ensures Parse(p).ret == 0 && Parse(p).parser.buf == ""
  {
    StartsBlank(p);
  }

  /** A stream of replies cut into any chunks yields those replies, one report each, and nothing else. */
  lemma StreamRoundTrip(keep: bool, vs: seq<Value>, chunks: seq<string>)
    requires (forall i | 0 <= i < |vs| :: Sendable(vs[i])) && chunks != [] && Concat(chunks) == EncodeAll(vs)
    ensures var p := Parser(keep, Initial, 0, 0, 0, None, [], CLEARED, "");
            Wf(p) && var d := FeedAll(Connection(p, [], false), chunks);
            !d.failed && d.parser.buf == "" && AllReported(d.replies, vs, keep)
  {
    hide Reports;
    var p := Parser(keep, Initial, 0, 0, 0, None, [], CLEARED, "");
    var c := Connection(p, [], false);
    ChunkingIsInvisible(c, chunks);
    var all := Received(c, EncodeAll(vs));
    assert all.parser.buf == EncodeAll(vs);
    DrainReplies(all, vs);
    var d := Drain(all);
    assert d.replies[0..] == d.replies;
  }

  // ---------------------------------------------------------------- empty bulk strings

  /** The reply was not consumed as it was sent: an error, or bytes of it are still in the buffer. */
  predicate Garbled(r: Parsed, rest: string) { r.ret == -1 || (r.ret == 1 && |r.parser.buf| > |rest|) }

  /** Only the CRLF of the length line is consumed for an empty bulk string, not the one after the string. */
  lemma EmptyHeader(p: Parser, v: Value, rest: string)
    requires Wf(p) && p.state == ReadLine && v == BulkString("") && p.buf == Encode(v) + rest
    ensures var q := p.(buf := CRLF + rest, responseLen := p.responseLen + |Header(v)| + 2, bulkLen := 0,
            totalBulks := AtLeastOne(p.totalBulks), state := EndBulk,
                        response := p.response.(status := Some(CString(Header(v)))));
            Wf(q) && Parse(p) == Parse(q)
  {
    hide ChainSum, Next, CString, StrToL, AsInt, Step, Parse, Decimal;
    HeaderHasNoCrlf(v);
    HeaderNumber(0);
    assert Header(v)[1..] == Decimal(0);
    assert p.buf == Header(v) + CRLF + (CRLF + rest);
    LineStep(p, Header(v), CRLF + rest);
    ParseContinues(p);
  }

  lemma BlankLineIsBad(p: Parser, rest: string)
    requires Wf(p) && p.state == ReadLine && p.buf == CRLF + rest
    ensures Parse(p).ret == -1
  {
    assert p.buf == "" + CRLF + rest;
    LineStep(p, "", rest);
  }

  lemma EmptyBulkEnd(q: Parser, rest: string)
    requires Wf(q) && q.state == EndBulk && q.bulkLen == 0 && q.buf == CRLF + rest
    ensures Garbled(Parse(q), rest)
  {
    StepKeepsWf(q);
    if q.totalBulks > 1 {
      ParseContinues(q);
      BlankLineIsBad(Step(q).next, rest);
    }
  }

  lemma EmptyBulkGarbles(p: Parser, v: Value, rest: string)
    requires Wf(p) && p.state == ReadLine && v == BulkString("") && p.buf == Encode(v) + rest
    ensures Garbled(Parse(p), rest)
  {
    hide Wf, Parse, Decimal, CString;
    EmptyHeader(p, v, rest);
    EmptyBulkEnd(p.(buf := CRLF + rest, responseLen := p.responseLen + |Header(v)| + 2, bulkLen := 0,
        totalBulks := AtLeastOne(p.totalBulks), state := EndBulk,
                    response := p.response.(status := Some(CString(Header(v))))), rest);
  }

  lemma {:induction false} GarbledElement(p: Parser, v: Value, rest: string)
    requires Ready(p) && Encodable(v) && !Sendable(v) && p.buf == Encode(v) + rest
    ensures Garbled(Parse(p), rest)
    decreases v
  {
    hide Wf, Parse, AfterHeader;
    if v.BulkString? {
      EmptyBulkGarbles(p, v, rest);
    } else {
      var body := EncodeAll(v.items) + rest;
      assert p.buf == Header(v) + CRLF + body;
      ArrayHeader(p, v, body);
      HeaderTotal(p, v, body);
      OpenArray(p, v, body);
      GarbledItems(AfterHeader(p, v, body), v.items, rest);
    }
  }

  lemma {:induction false} GarbledItems(p: Parser, items: seq<Value>, rest: string)
    requires ReadyFor(p, |items|) && p.buf == EncodeAll(items) + rest
    requires (forall i | 0 <= i < |items| :: Encodable(items[i])) && exists i | 0 <= i < |items| :: !Sendable(items[i])
    ensures Garbled(Parse(p), rest)
    decreases items
  {
    hide Wf, Parse, Absorb, Encodable, Sendable, ReadyFor;
    ReadyForIs(p, |items|);
    var body := EncodeAll(items[1..]) + rest;
    assert p.buf == Encode(items[0]) + body;
    if Sendable(items[0]) {
      ParseElement(p, items[0], body);
      AbsorbTotal(p, items[0], body);
      StillOpen(p, items, body);
      var i :| 0 <= i < |items| && !Sendable(items[i]);
      assert items[1..][i - 1] == items[i];
      GarbledItems(Absorb(p, items[0], body), items[1..], rest);
    } else {
      GarbledElement(p, items[0], body);
    }
  }

  lemma GarbledTop(keep: bool, n: nat, v: Value, rest: string)
    requires Encodable(v) && !Sendable(v)
    ensures Garbled(Parse(Blank(keep, n, Encode(v) + rest)), rest)
  {
    hide Wf, Parse;
    if v.BulkString? {
      EmptyBulkGarbles(Blank(keep, n, Encode(v) + rest), v, rest);
    } else {
      var body := EncodeAll(v.items) + rest;
      assert Encode(v) + rest == Header(v) + CRLF + body;
      RootHeader(keep, n, v, body);
      RootReady(keep, n, v, body);
      GarbledItems(RootOpened(keep, n, v, body), v.items, rest);
    }
  }

  /** The exact condition: a reply is consumed as it was sent iff no bulk string in it is empty. */
  lemma ConsumedIffNoEmptyBulk(p: Parser, v: Value, rest: string)
    requires Wf(p) && p.state == Initial && Encodable(v) && p.buf == Encode(v) + rest
    ensures (Parse(p).ret == 1 && Parse(p).parser.buf == rest) <==> !HasEmptyBulk(v)
    ensures !HasEmptyBulk(v) ==> Understood(Parse(p), v, p.keepValue, rest)
  {
    hide Wf, Parse, Reports;
    SendableIff(v);
    if Sendable(v) {
      ReplyRoundTrip(p, v, rest);
    } else {
      StartsBlank(p);
      GarbledTop(p.keepValue, p.bulkLen, v, rest);
    }
  }
}

/** The Redis reply parser of memtier_benchmark/protocol.cpp: a resumable state machine over a growing
    read buffer.  Nested arrays are rebuilt from one counter of outstanding elements and from parent
    links between array nodes.

    A byte is a `char`; nothing depends on its range.  Array nodes live in `nodes`, and a link to a
    node is its index there. */
module RespParser {
  import opened Basics
  import opened Numerals

  const LONG_LIMIT: nat := 0x8000_0000_0000_0000

  datatype State = Initial | ReadLine | ReadBulk | EndBulk

  datatype Element = Bulk(bytes: Option<string>) | Mbulk(at: nat)

  /** `mbulk_size_el`: how many elements are still to come, and those that came. */
  datatype Node = Node(upper: Option<nat>, bulksCount: int, elements: seq<Element>)

  datatype Response = Response(status: Option<string>, value: Option<string>, mbulk: Option<nat>, totalLen: nat,
      hits: nat, error: bool)

  const CLEARED := Response(None, None, None, 0, 0, false)

  datatype Parser = Parser(
    keepValue: bool,
    state: State,
    bulkLen: nat,
    responseLen: nat,
    totalBulks: nat,
    current: Option<nat>,
    nodes: seq<Node>,
    response: Response,
    buf: string)

  // ---------------------------------------------------------------- lines and numbers

  predicate CrlfAt(s: string, i: int) { 0 <= i && i + 1 < |s| && s[i] == '\r' && s[i + 1] == '\n' }

  /** Position of the first CRLF at or after `from`, or |s| when there is none. */
  function FirstCrlf(s: string, from: nat): (r: nat)
    ensures r == |s| || (from <= r && CrlfAt(s, r))
    ensures forall i | from <= i < r :: !CrlfAt(s, i)
    decreases |s| - from
  {
    if from + 1 >= |s| then |s| else if CrlfAt(s, from) then from else FirstCrlf(s, from + 1)
  }

  /** A C string ends at its first NUL. */
  function CString(s: string): string {
    if s == [] || s[0] == '\0' then [] else [s[0]] + CString(s[1..])
  }

  /** `strtol` in base ten: leading blanks, a sign, digits; saturating at the limits of `long`. */
  function StrToL(line: string): int {
    var s := SkipSpace(line);
    if s != [] && s[0] == '-' then
      var v: int := DigitsValue(s[1..], 0); if v > LONG_LIMIT then 0 - LONG_LIMIT else 0 - v
    else
      var v := DigitsValue(if s != [] && s[0] == '+' then s[1..] else s, 0);
          if v >= LONG_LIMIT then LONG_LIMIT - 1 else v
  }

  /** Conversion of a `long` to `int`. */
  function AsInt(x: int): int {
    var m := x % UINT32;
    if m >= 0x8000_0000 then m - UINT32 else m
  }

  // ---------------------------------------------------------------- array nodes

  predicate NodesOk(nodes: seq<Node>) {
    forall i | 0 <= i < |nodes| :: nodes[i].bulksCount >= 0 && (nodes[i].upper.Some? ==> nodes[i].upper.value < i)
  }

  predicate LinkOk(nodes: seq<Node>, c: Option<nat>) { c.Some? ==> c.value < |nodes| }

  function Attach(nodes: seq<Node>, c: nat, e: Element): seq<Node>
    requires c < |nodes|
  {
    nodes[c := Node(nodes[c].upper, nodes[c].bulksCount - 1, nodes[c].elements + [e])]
  }

  /** `get_next_mbulk`: the nearest enclosing array that still expects elements. */
  function Next(nodes: seq<Node>, c: Option<nat>): (r: Option<nat>)
    requires NodesOk(nodes) && LinkOk(nodes, c)
    ensures LinkOk(nodes, r) && (r.Some? ==> nodes[r.value].bulksCount > 0)
    decreases if c.Some? then c.value + 1 else 0
  {
    if c.None? || nodes[c.value].bulksCount != 0 then c else Next(nodes, nodes[c.value].upper)
  }

  /** Elements still expected by an array and the arrays around it. */
  function ChainSum(nodes: seq<Node>, c: Option<nat>): (n: nat)
    requires NodesOk(nodes) && LinkOk(nodes, c)
    decreases if c.Some? then c.value + 1 else 0
  {
    if c.None? then 0 else nodes[c.value].bulksCount + ChainSum(nodes, nodes[c.value].upper)
  }

  // ---------------------------------------------------------------- one turn of the parsing loop

  datatype Outcome = NeedMore | Continue(next: Parser) | Reply(next: Parser) | Bad(next: Parser)

  /** What holds between any two turns of the loop, whatever bytes came in. */
  predicate Wf(p: Parser) {
    && NodesOk(p.nodes) && LinkOk(p.nodes, p.current)
    && (p.state == Initial ==> p.current.None? && p.totalBulks == 0)
    && (p.state == ReadLine ==>
         (p.response.mbulk.Some? <==> p.current.Some?) && (p.keepValue ==> (p.current.Some? <==> p.totalBulks > 0)))
    && (p.state == ReadBulk || p.state == EndBulk ==>
         p.totalBulks > 0 && (p.keepValue && p.current.None? ==> p.totalBulks == 1 && p.response.mbulk.None?))
    && (p.current.Some? ==>
         && p.response.mbulk.Some?
         && p.nodes[p.current.value].bulksCount > 0
         && p.totalBulks == ChainSum(p.nodes, p.current))
    && (p.state == ReadBulk ==> p.bulkLen > 0)
    && (p.state == EndBulk && p.bulkLen > 0 ==> |p.buf| >= p.bulkLen + 2)
    && (!p.keepValue ==> p.current.None? && p.nodes == [] && p.response.mbulk.None?)
  }

  /** The reply ends when no element is outstanding. */
  function Complete(p: Parser): Outcome {
    if p.totalBulks == 0 then Reply(p.(response := p.response.(totalLen := p.responseLen % UINT32), state := Initial))
    else Continue(p.(state := ReadLine))
  }

  /** Puts an element into the current array and moves to the array that the next one belongs to. */
  function AddBulk(p: Parser, bytes: Option<string>): Parser
    requires Wf(p) && p.current.Some?
  {
    var nodes := Attach(p.nodes, p.current.value, Bulk(bytes));
    assert NodesOk(nodes);
    p.(nodes := nodes, current := Next(nodes, p.current))
  }

  function OnArray(p: Parser, line: string, count: nat): Outcome
    requires Wf(p) && p.state == ReadLine
  {
    var total := if p.totalBulks > 0 then p.totalBulks - 1 else 0;
    var q :=
      if !p.keepValue then p
      else
        var k := |p.nodes|;
        var added := Node(p.current, count, []);
        var nodes := if p.response.mbulk.None? then p.nodes + [added]
            else Attach(p.nodes, p.current.value, Mbulk(k)) + [added];
        assert NodesOk(nodes);
        p.(nodes := nodes, current := Next(nodes, Some(k)),
            response := p.response.(mbulk := if p.response.mbulk.None? then Some(k) else p.response.mbulk));
    Complete(q.(response := q.response.(status := Some(CString(line))), totalBulks := total + count))
  }

  function OnBulkHeader(p: Parser, line: string, len: int): Outcome
    requires Wf(p) && p.state == ReadLine
  {
    var q := p.(totalBulks := if p.totalBulks == 0 then 1
        else p.totalBulks, response := p.response.(status := Some(CString(line))));
    Continue(if len <= 0 then q.(bulkLen := 0, state := EndBulk) else q.(bulkLen := len, state := ReadBulk))
  }

  function OnSimple(p: Parser, line: string): Outcome
    requires Wf(p) && p.state == ReadLine && line != []
  {
    var total := if p.totalBulks == 0 then 1 else p.totalBulks;
    var q := if p.keepValue && p.current.Some? then AddBulk(p, Some(CString(line))) else p;
    Complete(q.(totalBulks := total - 1,
                response := q.response.(error := q.response.error || line[0] == '-', status := Some(CString(line)))))
  }

  function OnLine(p: Parser, line: string): Outcome
    requires Wf(p) && p.state == ReadLine
  {
    if line == [] then Bad(p)
    else if line[0] == '*' then OnArray(p, line, var n := AsInt(StrToL(line[1..])); if n < 0 then 0 else n)
    else if line[0] == '$' then OnBulkHeader(p, line, AsInt(StrToL(line[1..])))
    else if line[0] == '+' || line[0] == '-' || line[0] == ':' then OnSimple(p, line)
    else Bad(p)
  }

  function OnBulkEnd(p: Parser): Outcome
    requires Wf(p) && p.state == EndBulk
  {
    var bytes := if p.bulkLen > 0 then Some(p.buf[..p.bulkLen]) else None;
    var q := if p.bulkLen > 0 then p.(buf := p.buf[p.bulkLen + 2..]) else p;
    var s :=
      if !p.keepValue then q
      else if p.current.Some? then AddBulk(p, bytes).(buf := q.buf)
      else q.(response := q.response.(value := bytes));
    Complete(s.(totalBulks := s.totalBulks - 1))
  }

  function Step(p: Parser): Outcome
    requires Wf(p)
  {
    match p.state
    case Initial => Continue(p.(response := CLEARED, nodes := [], responseLen := 0, totalBulks := 0, state := ReadLine))
    case ReadLine =>
      var i := FirstCrlf(p.buf, 0);
      if i == |p.buf| then NeedMore else OnLine(p.(buf := p.buf[i + 2..], responseLen := p.responseLen + i + 2),
          p.buf[..i])
    case ReadBulk =>
      if |p.buf| < p.bulkLen + 2 then NeedMore
      else Continue(p.(responseLen := p.responseLen + p.bulkLen + 2,
          response := p.response.(hits := p.response.hits + 1), state := EndBulk))
    case EndBulk => OnBulkEnd(p)
  }

  // ---------------------------------------------------------------- every turn keeps the invariant

  lemma {:induction false} NextSum(nodes: seq<Node>, c: Option<nat>)
    requires NodesOk(nodes) && LinkOk(nodes, c)
    ensures ChainSum(nodes, Next(nodes, c)) == ChainSum(nodes, c)
    ensures Next(nodes, c).None? <==> ChainSum(nodes, c) == 0
    decreases if c.Some? then c.value + 1 else 0
  {
    if c.Some? && nodes[c.value].bulksCount == 0 { NextSum(nodes, nodes[c.value].upper); }
  }

  /** A chain sees nothing of nodes above where it starts. */
  lemma {:induction false} SumFrame(a: seq<Node>, b: seq<Node>, c: Option<nat>, hi: nat)
    requires NodesOk(a) && NodesOk(b) && hi <= |a| && hi <= |b|
             && (forall i | 0 <= i < hi :: a[i].upper == b[i].upper && a[i].bulksCount == b[i].bulksCount)
    requires c.Some? ==> c.value < hi
    ensures ChainSum(a, c) == ChainSum(b, c)
    decreases if c.Some? then c.value + 1 else 0
  {
    if c.Some? { SumFrame(a, b, a[c.value].upper, hi); }
  }

  lemma AttachSum(nodes: seq<Node>, c: nat, e: Element)
    requires NodesOk(nodes) && c < |nodes| && nodes[c].bulksCount > 0
    ensures NodesOk(Attach(nodes, c, e))
    ensures ChainSum(Attach(nodes, c, e), Some(c)) == ChainSum(nodes, Some(c)) - 1
  {
    SumFrame(nodes, Attach(nodes, c, e), nodes[c].upper, c);
  }

  lemma AppendSum(nodes: seq<Node>, added: Node)
    requires NodesOk(nodes) && added.bulksCount >= 0 && LinkOk(nodes, added.upper)
    ensures NodesOk(nodes + [added])
    ensures ChainSum(nodes + [added], Some(|nodes|)) == added.bulksCount + ChainSum(nodes, added.upper)
  {
    SumFrame(nodes, nodes + [added], added.upper, |nodes|);
  }

  function After(o: Outcome, p: Parser): Parser { if o.NeedMore? then p else o.next }

  lemma AddBulkSum(p: Parser, bytes: Option<string>)
    requires Wf(p) && p.current.Some?
    ensures var q := AddBulk(p, bytes);
            && NodesOk(q.nodes) && LinkOk(q.nodes, q.current)
            && (q.current.Some? ==>
                 q.nodes[q.current.value].bulksCount > 0 && p.totalBulks - 1 == ChainSum(q.nodes, q.current))
            && (q.current.Some? <==> p.totalBulks > 1)
  {
    AttachSum(p.nodes, p.current.value, Bulk(bytes));
    NextSum(Attach(p.nodes, p.current.value, Bulk(bytes)), p.current);
  }

  lemma OnArrayKeepsWf(p: Parser, line: string, count: nat)
    requires Wf(p) && p.state == ReadLine
    ensures !OnArray(p, line, count).NeedMore? && Wf(OnArray(p, line, count).next)
  {
    if p.keepValue {
      var added := Node(p.current, count, []);
      var under := if p.response.mbulk.None? then p.nodes else Attach(p.nodes, p.current.value, Mbulk(|p.nodes|));
      if p.current.Some? { AttachSum(p.nodes, p.current.value, Mbulk(|p.nodes|)); }
      AppendSum(under, added);
      NextSum(under + [added], Some(|p.nodes|));
    }
  }

  lemma OnSimpleKeepsWf(p: Parser, line: string)
    requires Wf(p) && p.state == ReadLine && line != []
    ensures !OnSimple(p, line).NeedMore? && Wf(OnSimple(p, line).next)
  {
    if p.current.Some? { AddBulkSum(p, Some(CString(line))); }
  }

  lemma OnBulkEndKeepsWf(p: Parser)
    requires Wf(p) && p.state == EndBulk
    ensures !OnBulkEnd(p).NeedMore? && Wf(OnBulkEnd(p).next)
  {
    if p.current.Some? { AddBulkSum(p, if p.bulkLen > 0 then Some(p.buf[..p.bulkLen]) else None); }
  }

  lemma OnLineKeepsWf(p: Parser, line: string)
    requires Wf(p) && p.state == ReadLine
    ensures !OnLine(p, line).NeedMore? && Wf(OnLine(p, line).next)
  {
    hide OnArray, OnSimple, StrToL, AsInt;
    if line != [] && line[0] == '*' {
      OnArrayKeepsWf(p, line, var n := AsInt(StrToL(line[1..])); if n < 0 then 0 else n);
    } else if line != [] && (line[0] == '+' || line[0] == '-' || line[0] == ':') {
      OnSimpleKeepsWf(p, line);
    }
  }

  /** Whatever bytes arrive: the counter is the number of elements missing from the open arrays. */
  lemma StepKeepsWf(p: Parser)
    requires Wf(p)
    ensures Wf(After(Step(p), p))
  {
    hide OnLine, OnBulkEnd;
    match p.state
    case Initial =>
    case ReadLine =>
      var i := FirstCrlf(p.buf, 0);
      if i < |p.buf| {
        OnLineKeepsWf(p.(buf := p.buf[i + 2..], responseLen := p.responseLen + i + 2), p.buf[..i]);
      }
    case ReadBulk =>
    case EndBulk => OnBulkEndKeepsWf(p);
  }

  // ---------------------------------------------------------------- parse_response

  function Rank(s: State): nat { match s case ReadLine => 0 case Initial => 1 case EndBulk => 2 case ReadBulk => 3 }

  /** Every turn that does not wait consumes bytes or moves to a state of lower rank. */
  function Measure(p: Parser): nat { 4 * |p.buf| + Rank(p.state) }

  lemma OnLineBuffer(p: Parser, line: string)
    requires Wf(p) && p.state == ReadLine
    ensures !OnLine(p, line).NeedMore? && OnLine(p, line).next.buf == p.buf && Rank(OnLine(p, line).next.state) <= 3
  {
    hide StrToL, AsInt, Attach, Next;
  }

  lemma StepProgresses(p: Parser)
    requires Wf(p) && !Step(p).NeedMore?
    ensures Measure(Step(p).next) < Measure(p)
  {
    hide OnLine, Next, Attach, ChainSum;
    if p.state == ReadLine {
      var i := FirstCrlf(p.buf, 0);
      OnLineBuffer(p.(buf := p.buf[i + 2..], responseLen := p.responseLen + i + 2), p.buf[..i]);
    }
  }

  datatype Parsed = Parsed(ret: int, parser: Parser)

  /** `parse_response`: 1 with a complete reply, 0 when more bytes are needed, -1 on a line it cannot read. */
  function Parse(p: Parser): (r: Parsed)
    requires Wf(p)
    ensures Wf(r.parser) && -1 <= r.ret <= 1
    ensures if r.ret == 0 then Measure(r.parser) <= Measure(p) && Step(r.parser).NeedMore?
            else Measure(r.parser) < Measure(p)
    decreases Measure(p)
  {
    StepKeepsWf(p);
    if Step(p).NeedMore? then Parsed(0, p)
    else
      StepProgresses(p);
      match Step(p)
      case Continue(q) => Parse(q)
      case Reply(q) => Parsed(1, q)
      case Bad(q) => Parsed(-1, q)
  }

  // ---------------------------------------------------------------- the parser object

  class RedisParser {
    const keepValue: bool
    var state: State
    var bulkLen: nat
    var responseLen: nat
    var totalBulks: nat
    var current: Option<nat>
    var nodes: seq<Node>
    var response: Response
    var buf: string

    ghost function View(): Parser
      reads this
    {
      Parser(keepValue, state, bulkLen, responseLen, totalBulks, current, nodes, response, buf)
    }

    constructor (keep: bool)
      ensures Wf(View()) && View() == Parser(keep, Initial, 0, 0, 0, None, [], CLEARED, "")
    {
      keepValue := keep;
      state, bulkLen, responseLen, totalBulks, current, nodes, response, buf := Initial, 0, 0, 0, None, [], CLEARED, "";
    }

    /** Bytes arrive from the server. */
    method Receive(bytes: string)
      requires Wf(View())
      modifies this`buf
      ensures Wf(View()) && View() == old(View()).(buf := old(buf) + bytes)
    {
      buf := buf + bytes;
    }

    /** `get_next_mbulk`, started at node `c`. */
    method NextMbulk(c: Option<nat>) returns (next: Option<nat>)
      requires NodesOk(nodes) && LinkOk(nodes, c)
      ensures next == Next(nodes, c)
    {
      next := c;
      while next.Some? && nodes[next.value].bulksCount == 0
        invariant LinkOk(nodes, next) && Next(nodes, next) == Next(nodes, c)
        decreases if next.Some? then next.value + 1 else 0
      {
        next := nodes[next.value].upper;
      }
    }

    /** The reply is complete when no element is outstanding. */
    method CheckDone() returns (done: bool)
      modifies this
      ensures (if done then Reply(View()) else Continue(View())) == Complete(old(View()))
    {
      if totalBulks == 0 {
        response := response.(totalLen := responseLen % UINT32);
        state := Initial;
        return true;
      }
      state := ReadLine;
      return false;
    }

    method ArrayLine(line: string, count: nat) returns (done: bool)
      requires Wf(View()) && state == ReadLine
      modifies this
      ensures (if done then Reply(View()) else Continue(View())) == OnArray(old(View()), line, count)
    {
      if totalBulks > 0 { totalBulks := totalBulks - 1; }
      if keepValue {
        var k := |nodes|;
        var added := Node(current, count, []);
        if response.mbulk.None? {
          response := response.(mbulk := Some(k));
          nodes := nodes + [added];
        } else {
          nodes := Attach(nodes, current.value, Mbulk(k)) + [added];
        }
        current := NextMbulk(Some(k));
      }
      response := response.(status := Some(CString(line)));
      totalBulks := totalBulks + count;
      done := CheckDone();
    }

    method BulkLine(line: string, len: int)
      requires Wf(View()) && state == ReadLine
      modifies this
      ensures Continue(View()) == OnBulkHeader(old(View()), line, len)
    {
      if totalBulks == 0 { totalBulks := totalBulks + 1; }
      response := response.(status := Some(CString(line)));
      if len <= 0 {
        bulkLen := 0;
        state := EndBulk;
      } else {
        bulkLen := len;
        state := ReadBulk;
      }
    }

    method SimpleLine(line: string) returns (done: bool)
      requires Wf(View()) && state == ReadLine && line != []
      modifies this
      ensures (if done then Reply(View()) else Continue(View())) == OnSimple(old(View()), line)
    {
      if totalBulks == 0 { totalBulks := totalBulks + 1; }
      if keepValue && current.Some? {
        nodes := Attach(nodes, current.value, Bulk(Some(CString(line))));
        current := NextMbulk(current);
      }
      if line[0] == '-' { response := response.(error := true); }
      response := response.(status := Some(CString(line)));
      totalBulks := totalBulks - 1;
      done := CheckDone();
    }

    method BulkEnd() returns (done: bool)
      requires Wf(View()) && state == EndBulk
      modifies this
      ensures (if done then Reply(View()) else Continue(View())) == OnBulkEnd(old(View()))
    {
      if keepValue {
        var bytes: Option<string> := None;
        if bulkLen > 0 {
          bytes := Some(buf[..bulkLen]);
          buf := buf[bulkLen + 2..];
        }
        if current.Some? {
          nodes := Attach(nodes, current.value, Bulk(bytes));
          current := NextMbulk(current);
        } else {
          response := response.(value := bytes);
        }
      } else if bulkLen > 0 {
        buf := buf[bulkLen + 2..];
      }
      totalBulks := totalBulks - 1;
      done := CheckDone();
    }

    /** The switch on the kind of line: 2 to go on, 1 or -1 to return. */
    method TakeLine(line: string) returns (ret: int)
      requires Wf(View()) && state == ReadLine
      modifies this
      ensures ret == 1 || ret == -1 || ret == 2
      ensures (if ret == 1 then Reply(View()) else if ret == -1 then Bad(View()) else Continue(View())) ==
              OnLine(old(View()), line)
    {
      hide OnArray, OnSimple, OnBulkHeader;
      if line == [] { return -1; }
      if line[0] == '*' {
        var count := AsInt(StrToL(line[1..]));
        if count < 0 { count := 0; }
        var done := ArrayLine(line, count);
        return if done then 1 else 2;
      } else if line[0] == '$' {
        BulkLine(line, AsInt(StrToL(line[1..])));
        return 2;
      } else if line[0] == '+' || line[0] == '-' || line[0] == ':' {
        var done := SimpleLine(line);
        return if done then 1 else 2;
      }
      return -1;
    }

    /** One turn of the loop: 2 to go on, otherwise the value to return. */
    method Turn() returns (ret: int)
      requires Wf(View())
      modifies this
      ensures -1 <= ret <= 2
      ensures (if ret == 0 then NeedMore else if ret == 1 then Reply(View()) else if ret == -1 then Bad(View())
              else Continue(View())) == Step(old(View()))
      ensures ret == 0 ==> View() == old(View())
    {
      hide OnLine, OnBulkEnd;
      match state
      case Initial =>
        response, nodes, responseLen, totalBulks, state := CLEARED, [], 0, 0, ReadLine;
        return 2;
      case ReadLine =>
        var i := FirstCrlf(buf, 0);
        if i == |buf| { return 0; }
        var line := buf[..i];
        buf := buf[i + 2..];
        responseLen := responseLen + i + 2;
        ret := TakeLine(line);
      case ReadBulk =>
        if |buf| < bulkLen + 2 { return 0; }
        responseLen := responseLen + bulkLen + 2;
        response := response.(hits := response.hits + 1);
        state := EndBulk;
        return 2;
      case EndBulk =>
        var done := BulkEnd();
        return if done then 1 else 2;
    }

    method ParseResponse() returns (ret: int)
      requires Wf(View())
      modifies this
      ensures Wf(View()) && Parsed(ret, View()) == Parse(old(View()))
    {
      hide Step, Wf;
      while true
        invariant Wf(View()) && Parse(View()) == Parse(old(View()))
        decreases Measure(View())
      {
        ghost var p := View();
        StepKeepsWf(p);
        ret := Turn();
        if ret != 2 { return; }
        StepProgresses(p);
      }
    }
  }
}

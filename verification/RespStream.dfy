/** How a connection drives the parser: bytes arrive in chunks, and after each chunk replies are taken
    until more bytes are needed (memtier_benchmark/shard_connection.cpp, `process_response`). */
module RespStream {
  import opened Basics
  import opened Numerals
  import opened RespParser

  function More(p: Parser, bytes: string): Parser { p.(buf := p.buf + bytes) }

  function MoreAfter(o: Outcome, bytes: string): Outcome {
    match o
    case NeedMore => NeedMore
    case Continue(q) => Continue(More(q, bytes))
    case Reply(q) => Reply(More(q, bytes))
    case Bad(q) => Bad(More(q, bytes))
  }

  /** Bytes that arrive later do not move the end of a line that is already there. */
  lemma FirstCrlfStays(s: string, t: string)
    requires FirstCrlf(s, 0) < |s|
    ensures FirstCrlf(s + t, 0) == FirstCrlf(s, 0)
  {
    var i := FirstCrlf(s, 0);
    assert CrlfAt(s + t, i);
    forall j | 0 <= j < i ensures !CrlfAt(s + t, j) { assert !CrlfAt(s, j); }
  }

  lemma OnArrayMore(p: Parser, line: string, count: nat, bytes: string)
    requires Wf(p) && p.state == ReadLine
    ensures OnArray(More(p, bytes), line, count) == MoreAfter(OnArray(p, line, count), bytes)
  {
    hide Attach, ChainSum, Next, CString;
  }

  lemma OnSimpleMore(p: Parser, line: string, bytes: string)
    requires Wf(p) && p.state == ReadLine && line != []
    ensures OnSimple(More(p, bytes), line) == MoreAfter(OnSimple(p, line), bytes)
  {
    hide Attach, ChainSum, Next, CString;
  }

  lemma OnLineMore(p: Parser, line: string, bytes: string)
    requires Wf(p) && p.state == ReadLine
    ensures OnLine(More(p, bytes), line) == MoreAfter(OnLine(p, line), bytes)
  {
    hide StrToL, AsInt, OnArray, OnSimple, CString, ChainSum, Next;
    if line != [] && line[0] == '*' {
      OnArrayMore(p, line, var n := AsInt(StrToL(line[1..])); if n < 0 then 0 else n, bytes);
    } else if line != [] && (line[0] == '+' || line[0] == '-' || line[0] == ':') {
      OnSimpleMore(p, line, bytes);
    }
  }

  lemma OnBulkEndMore(p: Parser, bytes: string)
    requires Wf(p) && p.state == EndBulk
    ensures Wf(More(p, bytes)) && OnBulkEnd(More(p, bytes)) == MoreAfter(OnBulkEnd(p), bytes)
  {
    hide Attach, ChainSum, Next;
    var q := More(p, bytes);
    if p.bulkLen > 0 {
      assert q.buf[..p.bulkLen] == p.buf[..p.bulkLen] && q.buf[p.bulkLen + 2..] == p.buf[p.bulkLen + 2..] + bytes;
    }
  }

  /** A turn that does not wait does the same however many bytes follow. */
  lemma StepMore(p: Parser, bytes: string)
    requires Wf(p) && !Step(p).NeedMore?
    ensures Wf(More(p, bytes)) && Step(More(p, bytes)) == MoreAfter(Step(p), bytes)
  {
    hide OnLine, OnBulkEnd;
    var q := More(p, bytes);
    if p.state == ReadLine {
      var i := FirstCrlf(p.buf, 0);
      FirstCrlfStays(p.buf, bytes);
      assert q.buf[..i] == p.buf[..i] && q.buf[i + 2..] == p.buf[i + 2..] + bytes;
      OnLineMore(p.(buf := p.buf[i + 2..], responseLen := p.responseLen + i + 2), p.buf[..i], bytes);
    }
    if p.state == EndBulk { OnBulkEndMore(p, bytes); }
  }

  lemma MoreKeepsWf(p: Parser, bytes: string)
    requires Wf(p)
    ensures Wf(More(p, bytes))
  {
  }

  /** Parsing first and receiving later is the same as receiving everything and then parsing. */
  lemma {:induction false} ParseMore(p: Parser, bytes: string)
    requires Wf(p)
    ensures Wf(More(p, bytes)) && Wf(More(Parse(p).parser, bytes))
    ensures Parse(More(p, bytes)) ==
              if Parse(p).ret == 0 then Parse(More(Parse(p).parser, bytes))
                  else Parsed(Parse(p).ret, More(Parse(p).parser, bytes))
    decreases Measure(p)
  {
    hide Wf, Step;
    MoreKeepsWf(p, bytes);
    MoreKeepsWf(Parse(p).parser, bytes);
    StepKeepsWf(p);
    if !Step(p).NeedMore? {
      StepProgresses(p);
      StepMore(p, bytes);
      if Step(p).Continue? { ParseMore(Step(p).next, bytes); }
    }
  }

  // ---------------------------------------------------------------- a connection

  /** A reply as the caller sees it: the response and the array nodes it owns. */
  datatype Report = Report(response: Response, nodes: seq<Node>)

  datatype Connection = Connection(parser: Parser, replies: seq<Report>, failed: bool)

  /** Takes replies until more bytes are needed or a line cannot be read. */
  function Drain(c: Connection): (r: Connection)
    requires Wf(c.parser)
    ensures Wf(r.parser)
    decreases Measure(c.parser)
  {
    if c.failed then c
    else
      var r := Parse(c.parser);
      if r.ret == 0 then c.(parser := r.parser)
      else if r.ret == 1 then Drain(c.(parser := r.parser,
          replies := c.replies + [Report(r.parser.response, r.parser.nodes)]))
      else c.(parser := r.parser, failed := true)
  }

  function Received(c: Connection, bytes: string): Connection { c.(parser := More(c.parser, bytes)) }

  function Feed(c: Connection, bytes: string): (r: Connection)
    requires Wf(c.parser)
    ensures Wf(r.parser)
  {
    MoreKeepsWf(c.parser, bytes);
    Drain(Received(c, bytes))
  }

  lemma {:induction false} DrainMore(c: Connection, bytes: string)
    requires Wf(c.parser)
    ensures Feed(Drain(c), bytes) == Feed(c, bytes)
    decreases Measure(c.parser)
  {
    hide Wf;
    if !c.failed {
      ParseMore(c.parser, bytes);
      var r := Parse(c.parser);
      if r.ret == 1 {
        DrainMore(c.(parser := r.parser, replies := c.replies + [Report(r.parser.response, r.parser.nodes)]), bytes);
      }
    }
  }

  /** Two chunks are as good as one. */
  lemma FeedTwice(c: Connection, a: string, b: string)
    requires Wf(c.parser)
    ensures Feed(Feed(c, a), b) == Feed(c, a + b)
  {
    MoreKeepsWf(c.parser, a);
    DrainMore(Received(c, a), b);
    assert c.parser.buf + a + b == c.parser.buf + (a + b);
  }

  function Concat(chunks: seq<string>): string {
    if chunks == [] then "" else chunks[0] + Concat(chunks[1..])
  }

  function FeedAll(c: Connection, chunks: seq<string>): (r: Connection)
    requires Wf(c.parser)
    ensures Wf(r.parser)
    decreases |chunks|
  {
    if chunks == [] then c else FeedAll(Feed(c, chunks[0]), chunks[1..])
  }

  /** However a stream is cut into chunks, the connection ends in the same state with the same replies,
      up to and including the first line that cannot be read. */
  lemma {:induction false} ChunkingIsInvisible(c: Connection, chunks: seq<string>)
    requires Wf(c.parser) && chunks != []
    ensures FeedAll(c, chunks) == Feed(c, Concat(chunks))
    decreases |chunks|
  {
    if |chunks| == 1 {
      assert chunks[0] + "" == chunks[0] && chunks[1..] == [];
    } else {
      ChunkingIsInvisible(Feed(c, chunks[0]), chunks[1..]);
      FeedTwice(c, chunks[0], Concat(chunks[1..]));
    }
  }

  // ---------------------------------------------------------------- the loop over arriving bytes

  /** The reading side of a connection: each chunk that arrives is added to the buffer, and replies are taken
      until none is complete or a line cannot be read (`process_response`). */
  method Read(parser: RedisParser, chunks: seq<string>) returns (replies: seq<Report>, failed: bool)
    requires Wf(parser.View())
    modifies parser
    ensures Wf(parser.View())
    ensures Connection(parser.View(), replies, failed) == FeedAll(Connection(old(parser.View()), [], false), chunks)
  {
    hide Wf;
    replies, failed := [], false;
    var i := 0;
    ghost var start := Connection(parser.View(), [], false);
    assert chunks[0..] == chunks;
    while i < |chunks|
      invariant i <= |chunks| && Wf(parser.View())
      invariant FeedAll(Connection(parser.View(), replies, failed), chunks[i..]) == FeedAll(start, chunks)
    {
      ghost var c := Connection(parser.View(), replies, failed);
      assert chunks[i..][1..] == chunks[i + 1..];
      parser.Receive(chunks[i]);
      var more := !failed;
      while more
        invariant Wf(parser.View()) && Drain(Connection(parser.View(), replies, failed)) == Feed(c, chunks[i])
        invariant !more ==>
                    Drain(Connection(parser.View(), replies, failed)) == Connection(parser.View(), replies, failed)
        invariant more ==> !failed
        decreases more, Measure(parser.View())
      {
        var ret := parser.ParseResponse();
        if ret == 1 {
          replies := replies + [Report(parser.response, parser.nodes)];
        } else {
          failed, more := ret != 0, false;
        }
      }
      i := i + 1;
    }
  }
}

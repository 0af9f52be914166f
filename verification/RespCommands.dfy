/** The command writers of memtier_benchmark/protocol.cpp: each command is an array of bulk strings. */
module RespCommands {
  import opened Basics
  import opened Numerals
  import opened RespParser
  import opened RespReply
  import opened RespRoundTrip
  import opened RespStream

  function Command(args: seq<string>): Value {
    Array(seq(|args|, i requires 0 <= i < |args| => BulkString(args[i])))
  }

  /** Conversion of `int` to `unsigned int`. */
  function Unsigned(x: int): nat { x % UINT32 }

  function SetArgs(key: string, value: string, expiry: int, offset: nat): seq<string> {
    if expiry == 0 && offset == 0 then ["SET", key, value]
    else if offset != 0 then ["SETRANGE", key, Decimal(offset), value]
    else ["SETEX", key, Decimal(Unsigned(expiry)), value]
  }

  function GetArgs(key: string, offset: nat): seq<string> {
    if offset == 0 then ["GET", key] else ["GETRANGE", key, Decimal(offset), "-1"]
  }

  function WaitArgs(slaves: nat, timeout: nat): seq<string> { ["WAIT", Decimal(slaves), Decimal(timeout)] }

  /** A length line, such as "$3\r\n". */
  function Len(kind: char, n: nat): string { [kind] + Decimal(n) + CRLF }

  /** A command as the pieces it is written in. */
  function ArgPieces(args: seq<string>): seq<string> {
    if args == [] then [] else [Len('$', |args[0]|), args[0], CRLF] + ArgPieces(args[1..])
  }

  function CommandPieces(args: seq<string>): seq<string> { [Len('*', |args|)] + ArgPieces(args) }

  lemma {:induction false} ConcatAppend(a: seq<string>, b: seq<string>)
    ensures Concat(a + b) == Concat(a) + Concat(b)
  {
    if a == [] {
      assert a + b == b;
    } else {
      assert (a + b)[1..] == a[1..] + b;
      ConcatAppend(a[1..], b);
    }
  }

  lemma ThreePieces(a: string, b: string, c: string)
    ensures Concat([a, b, c]) == a + (b + c)
  {
    assert [a, b, c][1..] == [b, c] && [b, c][1..] == [c] && [c][1..] == [];
    assert Concat([c]) == c + "" == c;
  }

  lemma {:induction false} EncodeArgs(args: seq<string>)
    ensures EncodeAll(seq(|args|, i requires 0 <= i < |args| => BulkString(args[i]))) == Concat(ArgPieces(args))
  {
    var items := seq(|args|, i requires 0 <= i < |args| => BulkString(args[i]));
    if args != [] {
      EncodeArgs(args[1..]);
      assert items[1..] == seq(|args[1..]|, i requires 0 <= i < |args[1..]| => BulkString(args[1..][i]));
      ConcatAppend([Len('$', |args[0]|), args[0], CRLF], ArgPieces(args[1..]));
      ThreePieces(Len('$', |args[0]|), args[0], CRLF);
    }
  }

  lemma PiecesEncode(args: seq<string>)
    ensures Concat(CommandPieces(args)) == Encode(Command(args))
  {
    EncodeArgs(args);
    ConcatAppend([Len('*', |args|)], ArgPieces(args));
    assert [Len('*', |args|)][1..] == [];
  }

  lemma LiteralLengths()
    ensures Len('*', 2) == "*2\r\n" && Len('*', 3) == "*3\r\n" && Len('*', 4) == "*4\r\n"
    ensures Len('$', 2) == "$2\r\n" && Len('$', 3) == "$3\r\n" && Len('$', 4) == "$4\r\n" && Len('$', 5) == "$5\r\n"
            && Len('$', 7) == "$7\r\n" && Len('$', 8) == "$8\r\n"
  {
  }

  lemma TwoArgs(a: string, b: string)
    ensures CommandPieces([a, b]) == [Len('*', 2), Len('$', |a|), a, CRLF, Len('$', |b|), b, CRLF]
  {
    assert [a, b][1..] == [b] && [b][1..] == [];
    assert ArgPieces([b]) == [Len('$', |b|), b, CRLF];
  }

  lemma ThreeArgs(a: string, b: string, c: string)
    ensures CommandPieces([a, b, c]) == [Len('*', 3), Len('$', |a|), a, CRLF, Len('$', |b|), b, CRLF, Len('$', |c|), c,
            CRLF]
  {
    assert [a, b, c][1..] == [b, c] && [b, c][1..] == [c] && [c][1..] == [];
    assert ArgPieces([c]) == [Len('$', |c|), c, CRLF];
    assert ArgPieces([b, c]) == [Len('$', |b|), b, CRLF, Len('$', |c|), c, CRLF];
  }

  lemma FourArgs(a: string, b: string, c: string, d: string)
    ensures CommandPieces([a, b, c, d]) ==
              [Len('*', 4), Len('$', |a|), a, CRLF, Len('$', |b|), b, CRLF, Len('$', |c|), c, CRLF, Len('$', |d|), d,
                  CRLF]
  {
    assert [a, b, c, d][1..] == [b, c, d] && [b, c, d][1..] == [c, d] && [c, d][1..] == [d] && [d][1..] == [];
    assert ArgPieces([d]) == [Len('$', |d|), d, CRLF];
    assert ArgPieces([c, d]) == [Len('$', |c|), c, CRLF, Len('$', |d|), d, CRLF];
    assert ArgPieces([b, c, d]) == [Len('$', |b|), b, CRLF, Len('$', |c|), c, CRLF, Len('$', |d|), d, CRLF];
  }

  /** `get_number_length`. */
  function NumberLength(n: nat): nat {
    if n < 10 then 1
    else if n < 100 then 2
    else if n < 1000 then 3
    else if n < 10000 then 4
    else if n < 100000 then 5
    else if n < 1000000 then 6
    else if n < 10000000 then 7
    else if n < 100000000 then 8
    else if n < 1000000000 then 9
    else 10
  }

  lemma {:induction false} NumberLengthCountsDigits(n: nat)
    requires n < 10000000000
    ensures NumberLength(n) == |Decimal(n)|
  {
    if n >= 10 {
      NumberLengthCountsDigits(n / 10);
    }
  }

  class CommandWriter {
    var buf: string
    /** The pieces in the buffer, in the order they were written. */
    ghost var pieces: seq<string>

    ghost predicate Valid()
      reads this
    {
      buf == Concat(pieces)
    }

    constructor ()
      ensures Valid() && buf == "" && pieces == []
    {
      buf, pieces := "", [];
    }

    /** `evbuffer_add_printf` returns the number of bytes it appended. */
    method Printf(ps: seq<string>) returns (size: nat)
      requires Valid()
      modifies this
      ensures Valid() && pieces == old(pieces) + ps && size == |Concat(ps)|
    {
      ConcatAppend(pieces, ps);
      buf, pieces := buf + Concat(ps), pieces + ps;
      size := |Concat(ps)|;
    }

    /** `evbuffer_add` returns 0 on success. */
    method Add(bytes: string) returns (status: nat)
      requires Valid()
      modifies this
      ensures Valid() && pieces == old(pieces) + [bytes] && status == 0
    {
      ConcatAppend(pieces, [bytes]);
      assert Concat([bytes]) == bytes + "" == bytes;
      buf, pieces := buf + bytes, pieces + [bytes];
      status := 0;
    }

    /** What the three forms of the command have before the key, and between key and value. */
    method SetPieces(key: string, value: string, expiry: int, offset: nat)
        returns (first: seq<string>, second: seq<string>)
      requires key != [] && value != []
      ensures first + [key] + second + [value] + ["\r\n"] == CommandPieces(SetArgs(key, value, expiry, offset))
    {
      hide Decimal, Len, CommandPieces;
      LiteralLengths();
      if expiry == 0 && offset == 0 {
        first := ["*3\r\n", "$3\r\n", "SET", "\r\n", Len('$', |key|)];
        second := ["\r\n", Len('$', |value|)];
        ThreeArgs("SET", key, value);
      } else if offset != 0 {
        var number := Decimal(offset);
        first := ["*4\r\n", "$8\r\n", "SETRANGE", "\r\n", Len('$', |key|)];
        second := ["\r\n", Len('$', |number|), number, "\r\n", Len('$', |value|)];
        FourArgs("SETRANGE", key, number, value);
      } else {
        var number := Decimal(Unsigned(expiry));
        first := ["*4\r\n", "$5\r\n", "SETEX", "\r\n", Len('$', |key|)];
        second := ["\r\n", Len('$', |number|), number, "\r\n", Len('$', |value|)];
        FourArgs("SETEX", key, number, value);
      }
    }

    method WriteSet(key: string, value: string, expiry: int, offset: nat) returns (size: nat)
      requires Valid() && key != [] && value != []
      modifies this
      ensures Valid() && buf == old(buf) + Encode(Command(SetArgs(key, value, expiry, offset)))
      ensures size == |Encode(Command(SetArgs(key, value, expiry, offset)))|
      ensures expiry == 0 && offset == 0 ==> buf == old(buf) + Encode(Command(["SET", key, value]))
      ensures offset != 0 ==> buf == old(buf) + Encode(Command(["SETRANGE", key, Decimal(offset), value]))
      ensures offset == 0 && expiry != 0 ==>
                buf == old(buf) + Encode(Command(["SETEX", key, Decimal(expiry % 0x1_0000_0000), value]))
    {
      hide Decimal, Encode, Command, Len, Concat, CommandPieces;
      var first, second := SetPieces(key, value, expiry, offset);
      size := Printf(first);
      var status := Add(key);
      size := size + |key|;
      var more := Printf(second);
      size := size + more;
      status := Add(value);
      status := Add("\r\n");
      size := size + |value| + 2;
      Regroup(old(pieces), first, [key]);
      Regroup(old(pieces), first + [key], second);
      Regroup(old(pieces), first + [key] + second, [value]);
      Regroup(old(pieces), first + [key] + second + [value], ["\r\n"]);
      SetWritten(old(pieces), first, key, second, value, SetArgs(key, value, expiry, offset));
    }

    method WriteGet(key: string, offset: nat) returns (size: nat)
      requires Valid() && key != []
      modifies this
      ensures Valid() && buf == old(buf) + Encode(Command(GetArgs(key, offset)))
      ensures size == |Encode(Command(GetArgs(key, offset)))|
      ensures offset == 0 ==> buf == old(buf) + Encode(Command(["GET", key]))
      ensures offset != 0 ==> buf == old(buf) + Encode(Command(["GETRANGE", key, Decimal(offset), "-1"]))
    {
      hide Decimal, Encode, Command, Len, Concat, CommandPieces;
      LiteralLengths();
      var status, more;
      if offset == 0 {
        var first := ["*2\r\n", "$3\r\n", "GET", "\r\n", Len('$', |key|)];
        TwoArgs("GET", key);
        size := Printf(first);
        status := Add(key);
        status := Add("\r\n");
        size := size + |key| + 2;
        GetWritten(old(pieces), first, key, ["\r\n"], ["GET", key]);
        OnePiece("\r\n");
      } else {
        var number := Decimal(offset);
        var first := ["*4\r\n", "$8\r\n", "GETRANGE", "\r\n", Len('$', |key|)];
        var second := ["\r\n", Len('$', |number|), number, "\r\n", "$2\r\n", "-1", "\r\n"];
        FourArgs("GETRANGE", key, number, "-1");
        size := Printf(first);
        status := Add(key);
        size := size + |key|;
        more := Printf(second);
        size := size + more;
        GetWritten(old(pieces), first, key, second, ["GETRANGE", key, number, "-1"]);
      }
    }

    method WriteWait(slaves: nat, timeout: nat) returns (size: nat)
      requires Valid() && slaves < UINT32 && timeout < UINT32
      modifies this
      ensures Valid() && buf == old(buf) + Encode(Command(WaitArgs(slaves, timeout)))
      ensures size == |Encode(Command(WaitArgs(slaves, timeout)))|
      ensures buf == old(buf) + Encode(Command(["WAIT", Decimal(slaves), Decimal(timeout)]))
    {
      hide Decimal, Encode, Command, Len, Concat, CommandPieces;
      LiteralLengths();
      NumberLengthCountsDigits(slaves);
      NumberLengthCountsDigits(timeout);
      ThreeArgs("WAIT", Decimal(slaves), Decimal(timeout));
      PiecesEncode(WaitArgs(slaves, timeout));
      ConcatAppend(pieces, CommandPieces(WaitArgs(slaves, timeout)));
      size := Printf(["*3\r\n", "$4\r\n", "WAIT", "\r\n", Len('$', NumberLength(slaves)), Decimal(slaves), "\r\n",
                      Len('$', NumberLength(timeout)), Decimal(timeout), "\r\n"]);
    }

    /** Writes the whole command but reports 0 bytes, because it passes on the status of `evbuffer_add`. */
    method WriteClusterSlots() returns (size: nat)
      requires Valid()
      modifies this
      ensures Valid() && buf == old(buf) + Encode(Command(["CLUSTER", "SLOTS"]))
      ensures size == 0 && |Encode(Command(["CLUSTER", "SLOTS"]))| == 28
    {
      ClusterBytes();
      ConcatAppend(pieces, ["*2\r\n$7\r\nCLUSTER\r\n$5\r\nSLOTS\r\n"]);
      OnePiece("*2\r\n$7\r\nCLUSTER\r\n$5\r\nSLOTS\r\n");
      size := Add("*2\r\n$7\r\nCLUSTER\r\n$5\r\nSLOTS\r\n");
    }
  }

  lemma OnePiece(s: string)
    ensures Concat([s]) == s
  {
    assert [s][1..] == [] && s + "" == s;
  }

  lemma Regroup(a: seq<string>, b: seq<string>, c: seq<string>)
    ensures a + b + c == a + (b + c)
  {
  }

  lemma SnocLength(a: seq<string>, s: string)
    ensures |Concat(a + [s])| == |Concat(a)| + |s|
  {
    ConcatAppend(a, [s]);
    OnePiece(s);
  }

  lemma AppendLength(a: seq<string>, b: seq<string>)
    ensures |Concat(a + b)| == |Concat(a)| + |Concat(b)|
  {
    ConcatAppend(a, b);
  }

  lemma SetWritten(before: seq<string>, first: seq<string>, key: string, second: seq<string>, value: string,
                   args: seq<string>)
    requires first + [key] + second + [value] + ["\r\n"] == CommandPieces(args)
    ensures Concat(before + (first + [key] + second + [value] + ["\r\n"])) == Concat(before) + Encode(Command(args))
    ensures |Encode(Command(args))| == |Concat(first)| + |key| + |Concat(second)| + |value| + 2
  {
    hide Encode, Command, CommandPieces, Concat;
    PiecesEncode(args);
    ConcatAppend(before, CommandPieces(args));
    SnocLength(first + [key] + second + [value], "\r\n");
    SnocLength(first + [key] + second, value);
    AppendLength(first + [key], second);
    SnocLength(first, key);
  }

  lemma GetWritten(before: seq<string>, first: seq<string>, key: string, second: seq<string>, args: seq<string>)
    requires first + [key] + second == CommandPieces(args)
    ensures Concat(before + first + [key] + second) == Concat(before) + Encode(Command(args))
    ensures |Encode(Command(args))| == |Concat(first)| + |key| + |Concat(second)|
  {
    hide Encode, Command, CommandPieces, Concat;
    PiecesEncode(args);
    assert before + first + [key] + second == before + CommandPieces(args);
    ConcatAppend(before, CommandPieces(args));
    ConcatAppend(first + [key], second);
    ConcatAppend(first, [key]);
    OnePiece(key);
  }

  lemma ClusterBytes()
    ensures Encode(Command(["CLUSTER", "SLOTS"])) == "*2\r\n$7\r\nCLUSTER\r\n$5\r\nSLOTS\r\n"
  {
    hide Encode, Command, CommandPieces, Concat;
    LiteralLengths();
    TwoArgs("CLUSTER", "SLOTS");
    PiecesEncode(["CLUSTER", "SLOTS"]);
    var one, two := ["$7\r\n", "CLUSTER", "\r\n"], ["$5\r\n", "SLOTS", "\r\n"];
    assert CommandPieces(["CLUSTER", "SLOTS"]) == ["*2\r\n"] + one + two;
    ConcatAppend(["*2\r\n"] + one, two);
    ConcatAppend(["*2\r\n"], one);
    OnePiece("*2\r\n");
    ThreePieces("$7\r\n", "CLUSTER", "\r\n");
    ThreePieces("$5\r\n", "SLOTS", "\r\n");
  }

  /** A written command parses back to its argument list. */
  lemma CommandRoundTrip(p: Parser, args: seq<string>, rest: string)
    requires Wf(p) && p.state == Initial && p.keepValue && p.buf == Encode(Command(args)) + rest
    requires |args| < 0x8000_0000 && forall i | 0 <= i < |args| :: 0 < |args[i]| < 0x8000_0000
    ensures var r := Parse(p);
            && r.ret == 1 && r.parser.buf == rest && r.parser.response.hits == |args| && |r.parser.nodes| > 0
            && |r.parser.nodes[0].elements| == |args|
            && forall i | 0 <= i < |args| :: r.parser.nodes[0].elements[i] == Bulk(Some(args[i]))
  {
    hide Wf, Parse, Encode;
    ReplyRoundTrip(p, Command(args), rest);
    var items := Command(args).items;
    BulkHits(items);
    var r := Parse(p);
    assert Holds(r.parser.nodes, Mbulk(0), Array(items), 0);
    forall i | 0 <= i < |args| ensures r.parser.nodes[0].elements[i] == Bulk(Some(args[i])) {
      assert items[i] == BulkString(args[i]);
      assert Holds(r.parser.nodes, r.parser.nodes[0].elements[i], items[i], 0);
    }
  }

  lemma {:induction false} BulkHits(items: seq<Value>)
    requires forall i | 0 <= i < |items| :: items[i].BulkString?
    ensures HitsAll(items) == |items|
  {
    if items != [] { BulkHits(items[1..]); }
  }
}

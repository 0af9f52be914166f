/** The CSV dump of memtier_benchmark/file_io.cpp: quoting doubles the quotes inside a quoted field (rule
    7 in section 2 of RFC 4180), and fields may hold any byte, line breaks included.

    The rest of the file from the read position on is a string. */
module Csv {
  import opened Basics
  import opened Numerals

  // ---------------------------------------------------------------- quoting

  function Quote(s: string): string {
    if s == [] then [] else (if s[0] == '"' then ['"', '"'] else [s[0]]) + Quote(s[1..])
  }

  lemma {:induction false} QuoteSnoc(s: string, c: char)
    ensures Quote(s + [c]) == Quote(s) + (if c == '"' then ['"', '"'] else [c])
  {
    if s == [] {
      assert s + [c] == [c] && [c][1..] == [];
    } else {
      assert (s + [c])[1..] == s[1..] + [c];
      QuoteSnoc(s[1..], c);
    }
  }

  lemma {:induction false} NoQuotes(s: string)
    requires '"' !in s
    ensures Quote(s) == s
  {
    if s != [] { NoQuotes(s[1..]); }
  }

  /** `get_quoted_str`: the string itself when it holds no quote, a quoted copy otherwise. */
  method GetQuotedStr(s: string) returns (q: string)
    ensures q == Quote(s)
  {
    if '"' !in s {
      NoQuotes(s);
      return s;
    }
    q := [];
    var i := 0;
    while i < |s|
      invariant i <= |s| && q == Quote(s[..i])
    {
      QuoteSnoc(s[..i], s[i]);
      assert s[..i + 1] == s[..i] + [s[i]];
      q := q + [s[i]];
      if s[i] == '"' { q := q + ['"']; }
      i := i + 1;
    }
    assert s[..|s|] == s;
  }

  // ---------------------------------------------------------------- reading a field

  datatype Field = Eof | Field(text: string, left: nat, skip: bool, rest: string)

  /** The loop of `read_string` after the first byte. */
  function Body(rest: string, len: nat, skip: bool, dequote: bool, text: string): Field
    decreases |rest|
  {
    if len == 0 then Field(text, 0, skip, rest)
    else if rest == [] then Eof
    else
      var c, t := rest[0], rest[1..];
      if skip && c != '"' then Field(text, len, skip, t)
      else if skip && c == '"' then Body(t, len, false, dequote, text)
      else if c == '"' && !dequote then Field(text, len, skip, t)
      else if !dequote && (c == ',' || c == '\r' || c == '\n') then Field(text, len, skip, rest)
      else Body(t, len - 1, c == '"', dequote, text + [c])
  }

  function Drop(s: string): string { if s == [] then s else s[1..] }

  /** Consumes the ending quote. */
  function Ended(f: Field, dequote: bool): Option<(string, string)> {
    if f.Eof? then None
    else if f.left == 0 && dequote then Some((f.text, Drop(if f.skip then Drop(f.rest) else f.rest)))
    else Some((f.text, f.rest))
  }

  /** `read_string`: the field's text and the rest of the file. */
  function ReadString(s: string, len: nat): Option<(string, string)> {
    if len > 0 && s != [] && s[0] == '"' then Ended(Body(s[1..], len, false, true, []), true)
    else Ended(Body(s, len, false, false, []), false)
  }

  class FileReader {
    var rest: string

    constructor (content: string)
      ensures rest == content
    {
      rest := content;
    }

    /** `read_string`, as the loop it is. */
    method Read(length: nat) returns (ok: bool, text: string)
      modifies this
      ensures ok == ReadString(old(rest), length).Some?
      ensures ok ==> (text, rest) == ReadString(old(rest), length).value
    {
      var len, skip, first, dequote := length, false, true, false;
      text := [];
      while len > 0
        invariant first ==> rest == old(rest) && len == length && !skip && !dequote && text == []
        invariant !first ==> Ended(Body(rest, len, skip, dequote, text), dequote) == ReadString(old(rest), length)
        decreases |rest|, first
      {
        var eof := rest == [];
        var c := if eof then ' ' else rest[0];
        if first {
          first := false;
          if !eof && c == '"' {
            dequote := true;
            rest := rest[1..];
            continue;
          }
        }
        if eof { return false, []; }
        assert [c] + rest[1..] == rest;
        rest := rest[1..];
        if skip && c != '"' { break; }
        if c == '"' {
          if skip {
            skip := false;
            continue;
          }
          if dequote { skip := true; } else { break; }
        }
        if (c == ',' || c == '\r' || c == '\n') && !dequote {
          rest := [c] + rest;
          break;
        }
        text := text + [c];
        len := len - 1;
      }
      if len == 0 && dequote {
        if skip { rest := Drop(rest); }
        rest := Drop(rest);
      }
      ok := true;
    }

    /** `read_item` */
    method ReadNext() returns (item: Option<Item>)
      modifies this
      ensures item.Some? <==> ReadItem(old(rest)).GotItem?
      ensures item.Some? ==> GotItem(item.value, rest) == ReadItem(old(rest))
    {
      hide ScanColumns, ReadString;
      var row := ScanColumns(rest, 8);
      if row.BadRow? || |row.numbers| != 8 { return None; }
      var ns := row.numbers;
      rest := row.rest;
      var ok, key := Read(ns[7]);
      if !ok { return None; }
      if rest == [] || rest[0] != ',' { return None; }
      rest := Drop(rest[1..]);
      var len := (ns[3] + UINT32 - 2) % UINT32;
      var read, data := Read(len);
      if !read || |data| != len { return None; }
      rest := SkipLineEnd(rest);
      item := Some(Item(ns[0], ns[1], ns[2], ns[4], ns[5], ns[6], key, data));
    }
  }

  // ---------------------------------------------------------------- a plain field reads back

  /** A byte that means nothing special outside quotes. */
  predicate PlainByte(c: char) { c != '"' && c != ',' && c != '\r' && c != '\n' }

  predicate Plain(s: string) { forall i | 0 <= i < |s| :: PlainByte(s[i]) }

  lemma {:induction false} PlainBody(s: string, rest: string, more: nat, text: string)
    requires Plain(s)
    ensures Body(s + rest, |s| + more, false, false, text) == Body(rest, more, false, false, text + s)
    decreases s
  {
    if s == [] {
      assert s + rest == rest && text + s == text;
    } else {
      assert (s + rest)[0] == s[0] && (s + rest)[1..] == s[1..] + rest && PlainByte(s[0]);
      PlainBody(s[1..], rest, more, text + [s[0]]);
      assert text + [s[0]] + s[1..] == text + s;
    }
  }

  /** A field without quotes around it, of the announced length or up to the next comma or line end, is read as it
      stands. */
  lemma PlainFieldReadsBack(s: string, rest: string, len: nat)
    requires Plain(s) && (s == [] ==> len == 0 || rest == [] || rest[0] != '"')
    requires |s| == len || (|s| < len && rest != [] && (rest[0] == ',' || rest[0] == '\r' || rest[0] == '\n'))
    ensures ReadString(s + rest, len) == Some((s, rest))
  {
    PlainBody(s, rest, len - |s|, []);
    assert [] + s == s;
    if s != [] { assert (s + rest)[0] == s[0] && PlainByte(s[0]); } else { assert s + rest == rest; }
  }

  // ---------------------------------------------------------------- a quoted field reads back

  lemma QuoteTail(s: string, tail: string)
    requires s != []
    ensures Quote(s) + tail == if s[0] == '"' then ['"'] + (['"'] + (Quote(s[1..]) + tail))
            else [s[0]] + (Quote(s[1..]) + tail)
  {
  }

  /** Reading past a quoted string with more bytes to go. */
  lemma {:induction false} BodyGoesOn(s: string, tail: string, more: nat, text: string)
    requires more > 0
    ensures Body(Quote(s) + tail, |s| + more, false, true, text) == Body(tail, more, false, true, text + s)
    decreases s
  {
    if s == [] {
      assert Quote(s) + tail == tail && text + s == text;
    } else {
      var q := Quote(s[1..]) + tail;
      BodyGoesOn(s[1..], tail, more, text + [s[0]]);
      assert text + [s[0]] + s[1..] == text + s;
      QuoteTail(s, tail);
      hide Quote;
      AfterFirst(s[0], q);
      AfterFirst(s[0], [s[0]] + q);
      if s[0] == '"' {
        assert Body(['"'] + (['"'] + q), |s| + more, false, true, text) ==
            Body(['"'] + q, |s| - 1 + more, true, true, text + ['"']);
      }
    }
  }

  /** The last byte of a quoted string: when it is a quote its double is still unread. */
  lemma BodyEnds(c: char, tail: string, text: string)
    ensures Body(Quote([c]) + tail, 1, false, true, text) ==
            Field(text + [c], 0, c == '"', if c == '"' then ['"'] + tail else tail)
  {
    assert [c][1..] == [];
    if c == '"' {
      assert Quote([c]) + tail == ['"'] + (['"'] + tail);
      assert (['"'] + (['"'] + tail))[1..] == ['"'] + tail;
    } else {
      assert Quote([c]) + tail == [c] + tail && ([c] + tail)[1..] == tail;
    }
  }

  lemma {:induction false} QuoteConcat(a: string, b: string)
    ensures Quote(a + b) == Quote(a) + Quote(b)
  {
    if a == [] {
      assert a + b == b;
    } else {
      assert (a + b)[1..] == a[1..] + b;
      QuoteConcat(a[1..], b);
    }
  }

  lemma QuotedBody(s: string, tail: string)
    requires s != []
    ensures var c := s[|s| - 1];
            Body(Quote(s) + tail, |s|, false, true, []) ==
                Field(s, 0, c == '"', if c == '"' then ['"'] + tail else tail)
  {
    hide Body, Quote;
    var a, c := s[..|s| - 1], s[|s| - 1];
    assert s == a + [c];
    QuoteConcat(a, [c]);
    assert Quote(s) + tail == Quote(a) + (Quote([c]) + tail);
    BodyGoesOn(a, Quote([c]) + tail, 1, []);
    assert [] + a == a;
    BodyEnds(c, tail, a);
  }

  /** What was written between quotes is read back, and reading stops right after the closing quote. */
  lemma QuotedFieldReadsBack(s: string, rest: string)
    requires s != []
    ensures ReadString(['"'] + (Quote(s) + (['"'] + rest)), |s|) == Some((s, rest))
  {
    hide Body, Quote;
    var tail := ['"'] + rest;
    QuotedBody(s, tail);
    assert tail[1..] == rest && (['"'] + tail)[1..] == tail;
    var text := ['"'] + (Quote(s) + tail);
    assert text[1..] == Quote(s) + tail;
  }

  // ---------------------------------------------------------------- items

  /** `data` without the CRLF that ends it in memory. */
  datatype Item = Item(dumpflags: nat, time: nat, exptime: nat, nsuffix: nat, flags: nat, clsid: nat, key: string,
      data: string)

  function NBytes(it: Item): nat { |it.data| + 2 }

  function Numbers(it: Item): seq<nat> {
    [it.dumpflags, it.time, it.exptime, NBytes(it), it.nsuffix, it.flags, it.clsid, |it.key|]
  }

  predicate FitsUnsigned(it: Item) {
    forall i | 0 <= i < 8 :: Numbers(it)[i] < UINT32
  }

  /** "%.*s" stops at a NUL. */
  function UpToNul(s: string): string {
    if s == [] || s[0] == '\0' then [] else [s[0]] + UpToNul(s[1..])
  }

  function Columns(ns: seq<nat>): string {
    if ns == [] then [] else Decimal(ns[0]) + ([',', ' '] + Columns(ns[1..]))
  }

  /** The columns `key` and `data` and the end of the line. */
  function Texts(it: Item, rest: string): string {
    ['"'] + (UpToNul(Quote(it.key)) + (['"', ',', ' ', '"'] + (Quote(it.data) + (['"', '\n'] + rest))))
  }

  /** What `write_item` has put in front of `rest` when it succeeds. */
  function Written(it: Item, rest: string): string { Columns(Numbers(it)) + Texts(it, rest) }

  /** `write_item` fails when there is no data, because `fwrite` of nothing reports nothing written. */
  predicate WriteSucceeds(it: Item) { it.data != [] }

  // ---------------------------------------------------------------- reading items

  datatype Scanned = NoNumber | Scanned(number: nat, rest: string)

  function Digits(s: string, acc: nat): (nat, string) {
    if s != [] && IsDigit(s[0]) then Digits(s[1..], acc * 10 + (s[0] - '0') as nat) else (acc, s)
  }

  /** "%u": blanks, a sign, digits. */
  function ScanUnsigned(s: string): Scanned {
    var t := SkipSpace(s);
    var u := if t != [] && (t[0] == '+' || t[0] == '-') then t[1..] else t;
    if u == [] || !IsDigit(u[0]) then NoNumber
    else
      var (v, rest) := Digits(u, 0);
      Scanned(if t[0] == '-' then (UINT32 - v % UINT32) % UINT32 else v % UINT32, rest)
  }

  datatype Row = BadRow | Row(numbers: seq<nat>, rest: string)

  /** `fscanf` of `n` numbers, each followed by a comma and blanks. */
  function ScanColumns(s: string, n: nat): Row
    decreases n
  {
    if n == 0 then Row([], s)
    else
      var k := ScanUnsigned(s);
      if k.NoNumber? then BadRow
      else if k.rest != [] && k.rest[0] == ',' then
        var r := ScanColumns(SkipSpace(k.rest[1..]), n - 1);
        if r.BadRow? then BadRow else Row([k.number] + r.numbers, r.rest)
      else if n == 1 then Row([k.number], k.rest)
      else BadRow
  }

  /** Line end after the last column: CRLF, LF, or any other byte with a warning. */
  function SkipLineEnd(s: string): (r: string)
    ensures forall rest :: s == ['\n'] + rest || s == ['\r', '\n'] + rest ==> r == rest
  {
    if s != [] && s[0] == '\r' then Drop(s[1..]) else Drop(s)
  }

  datatype ReadResult = NoItem | GotItem(item: Item, rest: string)

  function ReadItem(s: string): ReadResult {
    var row := ScanColumns(s, 8);
    if row.BadRow? || |row.numbers| != 8 then NoItem
    else
      var ns := row.numbers;
      var key := ReadString(row.rest, ns[7]);
      if key.None? || key.value.1 == [] || key.value.1[0] != ',' then NoItem
      else
        var len := (ns[3] + UINT32 - 2) % UINT32;
        var data := ReadString(Drop(key.value.1[1..]), len);
        if data.None? || |data.value.0| != len then NoItem
        else GotItem(Item(ns[0], ns[1], ns[2], ns[4], ns[5], ns[6], key.value.0, data.value.0),
            SkipLineEnd(data.value.1))
  }

  // ---------------------------------------------------------------- columns read back

  lemma {:induction false} DigitsRead(s: string, rest: string, acc: nat)
    requires (forall i | 0 <= i < |s| :: IsDigit(s[i])) && (rest == [] || !IsDigit(rest[0]))
    ensures Digits(s + rest, acc) == (DigitsValue(s, acc), rest)
    decreases s
  {
    if s == [] {
      assert s + rest == rest;
    } else {
      assert (s + rest)[1..] == s[1..] + rest;
      DigitsRead(s[1..], rest, acc * 10 + (s[0] - '0') as nat);
    }
  }

  lemma NumberReadsBack(n: nat, rest: string)
    requires n < UINT32 && (rest == [] || !IsDigit(rest[0]))
    ensures ScanUnsigned(Decimal(n) + rest) == Scanned(n, rest)
  {
    hide Decimal, Digits;
    var s := Decimal(n) + rest;
    assert IsDigit(s[0]);
    assert SkipSpace(s) == s;
    DigitsRead(Decimal(n), rest, 0);
    DecimalValue(n);
  }

  /** A number with a sign is read, too: a negative one modulo 2^32. */
  lemma SignedNumberReads(n: nat, rest: string)
    requires n < UINT32 && (rest == [] || !IsDigit(rest[0]))
    ensures ScanUnsigned(['+'] + (Decimal(n) + rest)) == Scanned(n, rest)
    ensures ScanUnsigned(['-'] + (Decimal(n) + rest)) == Scanned(if n == 0 then 0 else UINT32 - n, rest)
  {
    hide Digits;
    var d := Decimal(n) + rest;
    NumberReadsBack(n, rest);
    assert d[0] == Decimal(n)[0] && IsDigit(d[0]) && SkipSpace(d) == d;
    forall c: char | c == '+' || c == '-' ensures SkipSpace([c] + d) == [c] + d && ([c] + d)[1..] == d { }
  }

  /** Behind the last column the comma may be missing. */
  lemma LastColumnReads(n: nat, rest: string)
    requires n < UINT32 && (rest == [] || (!IsDigit(rest[0]) && rest[0] != ','))
    ensures ScanColumns(Decimal(n) + rest, 1) == Row([n], rest)
  {
    hide ScanUnsigned, Decimal;
    NumberReadsBack(n, rest);
  }

  lemma {:induction false} ColumnsReadBack(ns: seq<nat>, rest: string)
    requires (forall i | 0 <= i < |ns| :: ns[i] < UINT32) && rest != [] && !IsSpace(rest[0])
    ensures ScanColumns(Columns(ns) + rest, |ns|) == Row(ns, rest)
    decreases ns
  {
    if ns == [] {
      assert Columns(ns) + rest == rest;
    } else {
      hide ScanUnsigned, Decimal;
      var next := Columns(ns[1..]) + rest;
      var after := [','] + ([' '] + next);
      ColumnsTail(ns, rest);
      hide Columns;
      AfterFirst(',', [' '] + next);
      AfterFirst(' ', next);
      NumberReadsBack(ns[0], after);
      NextStarts(ns[1..], rest);
      assert SkipSpace([' '] + next) == SkipSpace(next) == next;
      ColumnsReadBack(ns[1..], rest);
      assert [ns[0]] + ns[1..] == ns;
    }
  }

  lemma ColumnsTail(ns: seq<nat>, rest: string)
    requires ns != []
    ensures Columns(ns) + rest == Decimal(ns[0]) + ([','] + ([' '] + (Columns(ns[1..]) + rest)))
  {
  }

  lemma NextStarts(ns: seq<nat>, rest: string)
    requires rest != [] && !IsSpace(rest[0])
    ensures var s := Columns(ns) + rest; s != [] && !IsSpace(s[0])
  {
    if ns == [] {
      assert Columns(ns) + rest == rest;
    } else {
      assert (Columns(ns) + rest)[0] == Decimal(ns[0])[0];
    }
  }

  // ---------------------------------------------------------------- NUL in keys

  lemma {:induction false} NulFree(s: string)
    requires '\0' !in s
    ensures UpToNul(Quote(s)) == Quote(s)
  {
    if s != [] {
      NulFree(s[1..]);
      UpToNulPrefix(if s[0] == '"' then ['"', '"'] else [s[0]], Quote(s[1..]));
    }
  }

  lemma {:induction false} UpToNulPrefix(a: string, b: string)
    requires '\0' !in a
    ensures UpToNul(a + b) == a + UpToNul(b)
  {
    if a == [] {
      assert a + b == b;
    } else {
      assert (a + b)[1..] == a[1..] + b;
      UpToNulPrefix(a[1..], b);
    }
  }

  lemma {:induction false} QuoteNulFree(s: string)
    requires '\0' !in s
    ensures '\0' !in Quote(s)
  {
    if s != [] { QuoteNulFree(s[1..]); }
  }

  lemma CutAtNul(a: string, b: string)
    requires '\0' !in a
    ensures UpToNul(Quote(a + ['\0'] + b)) == Quote(a)
  {
    assert a + ['\0'] + b == a + (['\0'] + b);
    QuoteConcat(a, ['\0'] + b);
    QuoteNulFree(a);
    var q := Quote(['\0'] + b);
    assert q[0] == '\0';
    UpToNulPrefix(Quote(a), q);
    assert Quote(a) + [] == Quote(a);
  }

  // ---------------------------------------------------------------- the round trip

  predicate RoundTrips(it: Item) { it.key != [] && '\0' !in it.key && it.data != [] }

  lemma ColumnsOf(it: Item, rest: string)
    requires FitsUnsigned(it)
    ensures ScanColumns(Written(it, rest), 8) == Row(Numbers(it), Texts(it, rest))
  {
    hide ScanColumns, Columns, Quote, UpToNul;
    ColumnsReadBack(Numbers(it), Texts(it, rest));
  }

  /** Item by item: what is read is what was written, and the file is left at the next record. */
  lemma ItemRoundTrip(it: Item, rest: string)
    requires RoundTrips(it) && FitsUnsigned(it)
    ensures ReadItem(Written(it, rest)) == GotItem(it, rest)
  {
    hide ReadString, ScanColumns, Columns, Quote, UpToNul, Written, Texts;
    ColumnsOf(it, rest);
    var line := ['\n'] + rest;
    var second := ['"'] + (Quote(it.data) + (['"'] + line));
    var after := [','] + ([' '] + second);
    TextsAre(it, rest);
    QuotedFieldReadsBack(it.key, after);
    QuotedFieldReadsBack(it.data, line);
    assert after[1..] == [' '] + second && Drop([' '] + second) == second;
    assert Drop(line) == rest;
    assert Numbers(it)[3] < UINT32;
  }

  lemma TextsAre(it: Item, rest: string)
    requires '\0' !in it.key
    ensures Texts(it, rest) ==
              ['"'] + (Quote(it.key)
                + (['"'] + ([','] + ([' '] + (['"'] + (Quote(it.data) + (['"'] + (['\n'] + rest))))))))
  {
    hide Quote, UpToNul;
    NulFree(it.key);
    var line := ['\n'] + rest;
    assert ['"', '\n'] + rest == ['"'] + line;
    var data := Quote(it.data) + (['"'] + line);
    assert ['"', ',', ' ', '"'] + data == ['"'] + ([','] + ([' '] + (['"'] + data)));
  }

  /** An empty key leaves its quotes unread. */
  lemma EmptyKeyIsLost(it: Item, rest: string)
    requires it.key == [] && FitsUnsigned(it)
    ensures ReadItem(Written(it, rest)) == NoItem
  {
    ColumnsOf(it, rest);
    assert Texts(it, rest)[0] == '"';
  }

  /** A closing quote that comes too early is taken for a quote inside the field. */
  lemma EarlyQuote(more: nat, x: string, text: string)
    requires more > 0
    ensures var f := Body(['"'] + ([','] + ([' '] + x)), more, false, true, text);
            if more == 1 then f == Field(text + ['"'], 0, true, [','] + ([' '] + x))
                else f == Field(text + ['"'], more - 1, true, [' '] + x)
  {
    var three := [','] + ([' '] + x);
    var all := ['"'] + three;
    assert all[1..] == three && three[1..] == [' '] + x;
    assert Body(all, more, false, true, text) == Body(three, more - 1, true, true, text + ['"']);
  }

  lemma Delimiter(x: string)
    ensures ['"', ',', ' ', '"'] + x == ['"'] + ([','] + ([' '] + (['"'] + x)))
  {
  }

  lemma AfterFirst(c: char, s: string)
    ensures ([c] + s)[1..] == s && ([c] + s)[0] == c && Drop([c] + s) == s && [c] + s != []
  {
  }

  /** After a key cut short at a NUL the delimiter is not where the reader looks for it. */
  lemma ShortKey(a: string, more: nat, x: string)
    requires more > 0
    ensures var r := ReadString(['"'] + (Quote(a) + (['"', ',', ' ', '"'] + x)), |a| + more);
            r.Some? && r.value.1 != [] && r.value.1[0] != ','
  {
    hide Quote, Body;
    var y := ['"'] + x;
    var three := [','] + ([' '] + y);
    Delimiter(x);
    AfterFirst('"', Quote(a) + (['"'] + three));
    AfterFirst(',', [' '] + y);
    AfterFirst(' ', y);
    BodyGoesOn(a, ['"'] + three, more, []);
    EarlyQuote(more, y, [] + a);
  }

  lemma NulKeyIsLost(it: Item, rest: string, a: string, b: string)
    requires it.key == a + ['\0'] + b && '\0' !in a && FitsUnsigned(it)
    ensures ReadItem(Written(it, rest)) == NoItem
  {
    hide ReadString, Quote, UpToNul, ScanColumns, Columns;
    ColumnsOf(it, rest);
    CutAtNul(a, b);
    ShortKey(a, |b| + 1, Quote(it.data) + (['"', '\n'] + rest));
  }

  lemma {:induction false} FirstNul(s: string) returns (a: string, b: string)
    requires '\0' in s
    ensures s == a + ['\0'] + b && '\0' !in a
  {
    if s[0] == '\0' {
      a, b := [], s[1..];
    } else {
      a, b := FirstNul(s[1..]);
      a := [s[0]] + a;
    }
  }

  /** The exact condition for an item to survive the dump. */
  lemma ItemRoundTripIff(it: Item, rest: string)
    requires FitsUnsigned(it)
    ensures (WriteSucceeds(it) && ReadItem(Written(it, rest)) == GotItem(it, rest)) <==> RoundTrips(it)
  {
    hide ReadItem, Written;
    if RoundTrips(it) {
      ItemRoundTrip(it, rest);
    } else if it.key == [] {
      EmptyKeyIsLost(it, rest);
    } else if '\0' in it.key {
      var a, b := FirstNul(it.key);
      NulKeyIsLost(it, rest, a, b);
    }
  }

  function WrittenAll(items: seq<Item>): string {
    if items == [] then [] else Written(items[0], WrittenAll(items[1..]))
  }

  /** Reads `n` items. */
  function ReadMany(s: string, n: nat): Option<(seq<Item>, string)>
    decreases n
  {
    if n == 0 then Some(([], s))
    else
      var r := ReadItem(s);
      if r.NoItem? then None
      else
        var others := ReadMany(r.rest, n - 1);
        if others.None? then None else Some(([r.item] + others.value.0, others.value.1))
  }

  /** A dump of items with non-empty NUL-free keys and non-empty data, of any bytes, reads back item for item. */
  lemma {:induction false} DumpRoundTrip(items: seq<Item>)
    requires forall i | 0 <= i < |items| :: RoundTrips(items[i]) && FitsUnsigned(items[i])
    ensures ReadMany(WrittenAll(items), |items|) == Some((items, []))
    decreases items
  {
    if items != [] {
      hide ReadItem, Written, RoundTrips, FitsUnsigned;
      ItemRoundTrip(items[0], WrittenAll(items[1..]));
      DumpRoundTrip(items[1..]);
      assert [items[0]] + items[1..] == items;
    }
  }

  // ---------------------------------------------------------------- the writer

  class FileWriter {
    var content: string

    constructor ()
      ensures content == []
    {
      content := [];
    }

    /** `write_item` */
    method WriteItem(it: Item) returns (ok: bool)
      modifies this
      ensures ok == WriteSucceeds(it)
      ensures ok ==> forall rest :: content + rest == old(content) + Written(it, rest)
    {
      hide Columns, Quote, UpToNul, Written;
      ghost var before := content;
      var key := GetQuotedStr(it.key);
      var data := GetQuotedStr(it.data);
      var head := Columns(Numbers(it)) + (['"'] + (UpToNul(key) + ['"', ',', ' ', '"']));
      content := content + head;
      if |data| == 0 {
        QuoteIsEmpty(it.data);
        return false;
      }
      QuoteIsEmpty(it.data);
      content := content + data;
      content := content + ['"', '\n'];
      forall rest ensures content + rest == before + Written(it, rest) {
        HeadAndData(it, rest);
        assert content + rest == before + (head + (data + (['"', '\n'] + rest)));
      }
      return true;
    }
  }

  lemma QuoteIsEmpty(s: string)
    ensures |Quote(s)| == 0 <==> s == []
  {
  }

  lemma HeadAndData(it: Item, rest: string)
    ensures Written(it, rest) ==
              (Columns(Numbers(it)) + (['"'] + (UpToNul(Quote(it.key)) + ['"', ',', ' ',
                  '"']))) + (Quote(it.data) + (['"', '\n'] + rest))
  {
    hide Columns, Quote, UpToNul;
    var k, d := UpToNul(Quote(it.key)), Quote(it.data) + (['"', '\n'] + rest);
    assert (['"'] + (k + ['"', ',', ' ', '"'])) + d == ['"'] + (k + (['"', ',', ' ', '"'] + d));
  }
}

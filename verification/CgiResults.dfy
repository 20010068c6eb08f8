/** Printing a parsed response and parsing it again. */
module CgiResults {
  import opened Prelude
  import opened StreamText
  import opened Utf8
  import opened Decimals
  import opened ByteLines
  import opened Cgi
  import opened Trimming

  // ----- what a parsed response looks like -------------------------------------------------

  predicate CleanName(s: string) { Trimmed(s) && ':' !in s && '\n' !in s }
  predicate CleanValue(s: string) { Trimmed(s) && '\n' !in s }
  predicate CleanHeader(h: Header) { CleanName(h.name) && CleanValue(h.value) && !IsStatus(h.name) }

  predicate HasType(hs: seq<Header>) { exists k :: 0 <= k < |hs| && IsType(hs[k].name) }
  predicate CleanHeaders(hs: seq<Header>) { forall k :: 0 <= k < |hs| ==> CleanHeader(hs[k]) }

  /** A status that fits 16 bits, trimmed one-line headers, none named Status, one of them
      the content type. */
  predicate Clean(r: Response) { r.status < 65536 && CleanHeaders(r.headers) && HasType(r.headers) }

  predicate CleanHead(h: Head) { h.status < 65536 && CleanHeaders(h.headers) && h.sawType == HasType(h.headers) }

  // ----- parsing gives clean responses ----------------------------------------------------------

  lemma {:induction false} LinesHaveNoBreak(b: Bytes)
    ensures forall k :: 0 <= k < |Lines(b)| ==> LF !in Lines(b)[k]
    decreases |b|
  {
    var e := LineEnd(b, 0);
    assert b[0..e] == b[..e];
    if e == |b| {
      assert b[..e] == b;
    } else {
      LinesHaveNoBreak(b[e + 1..]);
    }
  }

  lemma TextHasNoBreak(line: Bytes)
    requires LF !in line
    ensures '\n' !in TextOf(line)
  {
    if IsUtf8(line) {
      AsciiBytes(Decode(line), LF);
      EncodeDecode(line);
    }
  }

  lemma LineKeepsClean(h: Head, line: Bytes)
    requires CleanHead(h) && LF !in line
    ensures CleanHead(TakeLine(h, line))
  {
    TextHasNoBreak(line);
    TrimEndShape(TextOf(line));
    var text := TrimEnd(TextOf(line));
    FindCharIsFirst(text, ':', 0);
    match FindChar(text, ':', 0)
    case None =>
    case Some(i) =>
      TrimShape(text[..i]);
      TrimShape(text[i + 1..]);
      FieldKeepsClean(h, Trim(text[..i]), Trim(text[i + 1..]));
  }

  lemma FieldKeepsClean(h: Head, name: string, value: string)
    requires CleanHead(h) && CleanName(name) && CleanValue(value)
    ensures CleanHead(TakeField(h, name, value))
  {
    if !IsStatus(name) { AddedHeader(h.headers, Header(name, value)); }
  }

  lemma AddedHeader(hs: seq<Header>, x: Header)
    ensures HasType(hs + [x]) == (HasType(hs) || IsType(x.name))
    ensures CleanHeaders(hs) && CleanHeader(x) ==> CleanHeaders(hs + [x])
  {
    var all := hs + [x];
    if HasType(hs) {
      var k :| 0 <= k < |hs| && IsType(hs[k].name);
      assert IsType(all[k].name);
    }
    if IsType(x.name) { assert IsType(all[|hs|].name); }
    if HasType(all) {
      var k :| 0 <= k < |all| && IsType(all[k].name);
      assert k < |hs| ==> IsType(hs[k].name);
    }
  }

  lemma {:induction false} LinesKeepClean(h: Head, lines: seq<Bytes>)
    requires CleanHead(h) && forall k :: 0 <= k < |lines| ==> LF !in lines[k]
    ensures CleanHead(TakeLines(h, lines))
    decreases |lines|
  {
    if lines != [] {
      LineKeepsClean(h, lines[0]);
      LinesKeepClean(TakeLine(h, lines[0]), lines[1..]);
    }
  }

  lemma DefaultIsClean()
    ensures CleanHeader(DefaultType()) && IsType(DefaultType().name)
  {
  }

  lemma FinishIsClean(h: Head, body: Bytes)
    requires CleanHead(h)
    ensures Clean(Finish(h, body))
  {
    DefaultIsClean();
    AddedHeader(h.headers, DefaultType());
  }

  lemma HeadIsClean(head: Bytes, body: Bytes)
    ensures Clean(Finish(TakeLines(Start(), Lines(head)), body))
  {
    LinesHaveNoBreak(head);
    LinesKeepClean(Start(), Lines(head));
    FinishIsClean(TakeLines(Start(), Lines(head)), body);
  }

  /** Whatever bytes came in, the response is clean. */
  lemma ParsedIsClean(x: Bytes)
    ensures Clean(Parse(x))
  {
    var i, j := FindSub(x, BlankCrlf(), 0), FindSub(x, BlankLf(), 0);
    if i < |x| {
      HeadIsClean(x[..i], x[i + 4..]);
    } else if j < |x| {
      HeadIsClean(x[..j], x[j + 2..]);
    } else {
      DefaultIsClean();
      assert IsType(Parse(x).headers[0].name);
    }
  }

  // ----- one printed line reads back ------------------------------------------------------------

  lemma FirstIs(s: string, c: char, j: nat)
    requires j < |s| && s[j] == c && c !in s[..j]
    ensures FindChar(s, c, 0) == Some(j)
  {
    FindCharIsFirst(s, c, 0);
    assert forall k :: 0 <= k < j ==> s[k] in s[..j];
  }

  /** A name, a colon, white space, a value. */
  function FieldLine(name: string, gap: string, value: string): string { name + ([':'] + (gap + value)) }

  /** The line once its end is trimmed. */
  lemma FieldTrims(name: string, gap: string, value: string)
    requires AllSpace(gap) && Trimmed(value)
    ensures TrimEnd(FieldLine(name, gap, value)) == if value == [] then name + [':'] else FieldLine(name, gap, value)
  {
    var s := FieldLine(name, gap, value);
    if value == [] {
      assert s == (name + [':']) + gap;
      TrimEndOf(name + [':'], gap);
    } else {
      assert s[|s| - 1] == value[|value| - 1];
    }
  }

  lemma FieldSplits(name: string, gap: string, value: string)
    requires CleanName(name) && CleanValue(value) && AllSpace(gap)
    ensures var text := if value == [] then name + [':'] else FieldLine(name, gap, value);
      FindChar(text, ':', 0) == Some(|name|) && Trim(text[..|name|]) == name && Trim(text[|name| + 1..]) == value
  {
    var text := if value == [] then name + [':'] else FieldLine(name, gap, value);
    assert text[..|name|] == name && text[|name|] == ':';
    FirstIs(text, ':', |name|);
    TrimmedStays(name);
    assert text[|name| + 1..] == if value == [] then [] else gap + (value + []);
    TrimOf(gap, value, []);
  }

  lemma FieldReadsBack(h: Head, name: string, gap: string, value: string)
    requires CleanName(name) && CleanValue(value) && AllSpace(gap)
    ensures TakeLine(h, Encode(FieldLine(name, gap, value))) == TakeField(h, name, value)
  {
    DecodeEncode(FieldLine(name, gap, value));
    FieldTrims(name, gap, value);
    FieldSplits(name, gap, value);
  }

  lemma LineReadsBack(h: Head, name: string, value: string)
    requires CleanName(name) && CleanValue(value)
    ensures TakeLine(h, Encode(HeaderLine(name, value))) == TakeField(h, name, value)
  {
    assert HeaderLine(name, value) == FieldLine(name, [' '], value);
    FieldReadsBack(h, name, [' '], value);
  }

  // ----- the status ---------------------------------------------------------------------------------

  lemma {:induction false} NoWordEnd(s: string, i: nat)
    requires i <= |s| && forall k :: 0 <= k < |s| ==> !IsSpace(s[k])
    ensures WordEnd(s, i) == |s|
    decreases |s| - i
  {
    if i < |s| { NoWordEnd(s, i + 1); }
  }

  lemma DigitsAreWord(s: string)
    requires s != [] && AllDigits(s)
    ensures FirstWord(s) == s && CleanValue(s) && s[0] != '+'
  {
    forall k | 0 <= k < |s| ensures !IsSpace(s[k]) { assert '0' <= s[k] <= '9'; }
    assert TrimStart(s) == s;
    NoWordEnd(s, 0);
  }

  lemma StatusReads(s: string, n: nat)
    requires s != [] && AllDigits(s) && DigitsValue(s) == n < 65536
    ensures StatusOf(s) == n && CleanValue(s)
  {
    DigitsAreWord(s);
  }

  lemma StatusName()
    ensures CleanName("Status") && IsStatus("Status")
  {
  }

  // ----- all lines read back --------------------------------------------------------------------------

  function Encoded(lines: seq<string>): seq<Bytes>
    decreases |lines|
  {
    if lines == [] then [] else [Encode(lines[0])] + Encoded(lines[1..])
  }

  /** `h` with more headers. */
  function Plus(h: Head, hs: seq<Header>): Head { Head(h.status, h.headers + hs, HasType(h.headers + hs)) }

  lemma PlusFirst(h: Head, hs: seq<Header>)
    requires hs != []
    ensures Plus(Plus(h, [hs[0]]), hs[1..]) == Plus(h, hs)
  {
    assert h.headers + [hs[0]] + hs[1..] == h.headers + hs;
  }

  lemma {:induction false} HeadersReadBack(h: Head, hs: seq<Header>)
    requires CleanHeaders(hs) && h.sawType == HasType(h.headers)
    ensures TakeLines(h, Encoded(HeaderLines(hs))) == Plus(h, hs)
    decreases |hs|
  {
    if hs == [] {
      assert h.headers + hs == h.headers;
    } else {
      EncodedNext(h, hs);
      HeaderReadsBack(h, hs[0]);
      HeadersReadBack(Plus(h, [hs[0]]), hs[1..]);
      PlusFirst(h, hs);
    }
  }

  lemma HeaderReadsBack(h: Head, x: Header)
    requires CleanHeader(x) && h.sawType == HasType(h.headers)
    ensures TakeLine(h, Encode(HeaderLine(x.name, x.value))) == Plus(h, [x])
  {
    LineReadsBack(h, x.name, x.value);
    AddedHeader(h.headers, x);
  }

  lemma EncodedNext(h: Head, hs: seq<Header>)
    requires hs != []
    ensures TakeLines(h, Encoded(HeaderLines(hs)))
         == TakeLines(TakeLine(h, Encode(HeaderLine(hs[0].name, hs[0].value))), Encoded(HeaderLines(hs[1..])))
  {
    EncodedCons(HeaderLine(hs[0].name, hs[0].value), HeaderLines(hs[1..]));
    TakeCons(h, Encode(HeaderLine(hs[0].name, hs[0].value)), Encoded(HeaderLines(hs[1..])));
  }

  lemma EncodedCons(line: string, lines: seq<string>)
    ensures Encoded([line] + lines) == [Encode(line)] + Encoded(lines)
  {
    assert ([line] + lines)[1..] == lines;
  }

  lemma TakeCons(h: Head, line: Bytes, lines: seq<Bytes>)
    ensures TakeLines(h, [line] + lines) == TakeLines(TakeLine(h, line), lines)
  {
    assert ([line] + lines)[1..] == lines;
  }

  /** All lines of a printed head, read in order. */
  lemma HeadReadsBack(r: Response, name: string)
    requires Clean(r) && CleanName(name) && IsStatus(name)
    ensures TakeLines(Start(), Encoded(HeadLines(r, name))) == Head(r.status, r.headers, true)
  {
    var line := HeaderLine(name, Decimal(r.status));
    DecimalReads(r.status);
    StatusReads(Decimal(r.status), r.status);
    LineReadsBack(Start(), name, Decimal(r.status));
    EncodedCons(line, HeaderLines(r.headers));
    TakeCons(Start(), Encode(line), Encoded(HeaderLines(r.headers)));
    var h := Head(r.status, [], false);
    HeadersReadBack(h, r.headers);
    assert h.headers + r.headers == r.headers;
  }

  // ----- where the head ends --------------------------------------------------------------------------

  /** One line of a printed head: not empty, no line feed, no carriage return at its end. */
  predicate GoodLine(l: string) { l != [] && '\n' !in l && l[|l| - 1] != '\r' }

  predicate PlainLine(l: string) { l != [] && '\n' !in l }

  predicate AllPlain(lines: seq<string>) { forall k :: 0 <= k < |lines| ==> PlainLine(lines[k]) }

  predicate AllGood(lines: seq<string>) { forall k :: 0 <= k < |lines| ==> GoodLine(lines[k]) }

  /** Ends in a line feed, and every line feed follows something other than a line break. */
  predicate GoodHead(h: Bytes) {
    && h != [] && h[0] != 10 && h[|h| - 1] == 10
    && forall i :: 0 <= i < |h| - 1 && h[i + 1] == 10 ==> h[i] != 13 && h[i] != 10
  }

  lemma GoodBytes(l: string)
    requires GoodLine(l)
    ensures var e := Encode(l); e != [] && 10 !in e && e[|e| - 1] != 13 && e[|e| - 1] != 10
  {
    AsciiBytes(l, 10);
    LastByte(l);
  }

  lemma HeadCons(e: Bytes, rest: Bytes)
    requires e != [] && 10 !in e && e[|e| - 1] != 13 && (rest == [] || GoodHead(rest))
    ensures GoodHead(e + [LF] + rest)
  {
    var h := e + [LF] + rest;
    assert forall k :: 0 <= k < |e| ==> h[k] == e[k];
    forall i | 0 <= i < |h| - 1 && h[i + 1] == 10 ensures h[i] != 13 && h[i] != 10 {
      if i >= |e| {
        var k := i - |e|;
        assert h[i + 1] == rest[k] && (k > 0 ==> h[i] == rest[k - 1]);
      }
    }
  }

  lemma {:induction false} JoinedIsGood(lines: seq<string>)
    requires lines != [] && AllGood(lines)
    ensures GoodHead(Joined(lines))
    decreases |lines|
  {
    GoodBytes(lines[0]);
    if |lines| > 1 { JoinedIsGood(lines[1..]); }
    HeadCons(Encode(lines[0]), Joined(lines[1..]));
  }

  lemma FirstLine(e: Bytes, rest: Bytes)
    requires LF !in e
    ensures Lines(e) == [e] && Lines(e + [LF] + rest) == [e] + Lines(rest)
  {
    var b := e + [LF] + rest;
    assert e[0..|e|] == e && e[..|e|] == e && b[0..|e|] == e && b[..|e|] == e && b[|e| + 1..] == rest;
    LineEndIs(e, 0, |e|);
    LineEndIs(b, 0, |e|);
  }

  /** The head without its last line feed splits into exactly its lines. */
  lemma {:induction false} JoinedSplits(lines: seq<string>)
    requires lines != [] && AllPlain(lines)
    ensures Splits(lines)
    decreases |lines|
  {
    if |lines| > 1 { JoinedSplits(lines[1..]); }
    SplitsCons(lines[0], lines[1..]);
    assert [lines[0]] + lines[1..] == lines;
  }

  predicate Splits(lines: seq<string>) {
    Joined(lines) != [] && Lines(Joined(lines)[..|Joined(lines)| - 1]) == Encoded(lines)
  }

  lemma SplitsCons(line: string, rest: seq<string>)
    requires PlainLine(line) && (rest == [] || Splits(rest))
    ensures Splits([line] + rest)
  {
    AsciiBytes(line, 10);
    JoinedCons(line, rest);
    EncodedCons(line, rest);
    if rest == [] {
      SplitOnly(Joined([line] + rest), Encode(line));
    } else {
      SplitFirst(Joined([line] + rest), Encode(line), Joined(rest), Encoded(rest));
    }
  }

  lemma SplitOnly(all: Bytes, e: Bytes)
    requires all == e + [LF] + [] && LF !in e
    ensures Lines(all[..|all| - 1]) == [e] + []
  {
    assert all[..|all| - 1] == e;
    FirstLine(e, []);
  }

  lemma SplitFirst(all: Bytes, e: Bytes, rest: Bytes, others: seq<Bytes>)
    requires all == e + [LF] + rest && LF !in e && rest != [] && Lines(rest[..|rest| - 1]) == others
    ensures Lines(all[..|all| - 1]) == [e] + others
  {
    var inner := rest[..|rest| - 1];
    assert all[..|all| - 1] == e + [LF] + inner;
    FirstLine(e, inner);
  }

  lemma {:induction false} HeaderLinesGood(hs: seq<Header>)
    requires CleanHeaders(hs)
    ensures AllGood(HeaderLines(hs))
    decreases |hs|
  {
    if hs != [] {
      HeaderLinesGood(hs[1..]);
      HeaderLineGood(hs[0].name, hs[0].value);
    }
  }

  lemma HeaderLineGood(name: string, value: string)
    requires CleanName(name) && CleanValue(value)
    ensures GoodLine(HeaderLine(name, value))
  {
    var l := HeaderLine(name, value);
    assert l[|l| - 1] == if value == [] then ' ' else value[|value| - 1];
  }

  // ----- the body -------------------------------------------------------------------------------------

  lemma FindSubIs(h: Bytes, pat: Bytes, j: nat)
    requires pat != [] && j <= |h| && (j == |h| || At(h, pat, j)) && forall k :: 0 <= k < j ==> !At(h, pat, k)
    ensures FindSub(h, pat, 0) == j
  {
    FindSubIsFirst(h, pat, 0);
  }

  /** The blank line that ends a printed head is the first one of either kind, except for
      a CRLF CRLF in the body. */
  lemma HeadEnds(head: Bytes, body: Bytes)
    requires GoodHead(head)
    ensures var y := head + [LF] + body;
      && FindSub(y, BlankLf(), 0) == |head| - 1
      && FindSub(y, BlankCrlf(), 0) == |head| + 1 + FindSub(body, BlankCrlf(), 0)
  {
    FirstLf(head, body);
    FirstCrlf(head, body);
  }

  lemma FirstLf(head: Bytes, body: Bytes)
    requires GoodHead(head)
    ensures FindSub(head + [LF] + body, BlankLf(), 0) == |head| - 1
  {
    var y := head + [LF] + body;
    var n := |head| - 1;
    assert y[n..n + 2] == BlankLf();
    forall k | 0 <= k < n ensures !At(y, BlankLf(), k) {
      assert y[k..k + 2] == [head[k], head[k + 1]];
    }
    FindSubIs(y, BlankLf(), n);
  }

  lemma NotInHead(head: Bytes, body: Bytes, k: nat)
    requires GoodHead(head) && k <= |head|
    ensures !At(head + [LF] + body, BlankCrlf(), k)
  {
    var y := head + [LF] + body;
    if k + 4 <= |y| {
      assert y[k..k + 4][0] == y[k] && y[k..k + 4][1] == y[k + 1];
      if k < |head| - 1 { assert y[k] == head[k] && y[k + 1] == head[k + 1]; }
    }
  }

  lemma InBody(head: Bytes, body: Bytes, k: nat)
    ensures At(head + [LF] + body, BlankCrlf(), |head| + 1 + k) <==> At(body, BlankCrlf(), k)
  {
    var y := head + [LF] + body;
    if k + 4 <= |body| { assert y[|head| + 1 + k..|head| + 1 + k + 4] == body[k..k + 4]; }
  }

  lemma FirstCrlf(head: Bytes, body: Bytes)
    requires GoodHead(head)
    ensures FindSub(head + [LF] + body, BlankCrlf(), 0) == |head| + 1 + FindSub(body, BlankCrlf(), 0)
  {
    var y := head + [LF] + body;
    var f := FindSub(body, BlankCrlf(), 0);
    FindSubIsFirst(body, BlankCrlf(), 0);
    forall k | 0 <= k < |head| + 1 + f ensures !At(y, BlankCrlf(), k) {
      if k <= |head| { NotInHead(head, body, k); } else { InBody(head, body, k - |head| - 1); }
    }
    InBody(head, body, f);
    FindSubIs(y, BlankCrlf(), |head| + 1 + f);
  }

  // ----- the round trip ---------------------------------------------------------------------------------

  predicate HasBlankCrlf(body: Bytes) { exists i :: 0 <= i < |body| && At(body, BlankCrlf(), i) }

  lemma BlankFound(body: Bytes)
    ensures HasBlankCrlf(body) <==> FindSub(body, BlankCrlf(), 0) < |body|
  {
    FindSubIsFirst(body, BlankCrlf(), 0);
    if HasBlankCrlf(body) {
      var i :| 0 <= i < |body| && At(body, BlankCrlf(), i);
      assert i < |body|;
    }
  }

  lemma PrintedLinesGood(r: Response, name: string)
    requires Clean(r) && CleanName(name) && IsStatus(name)
    ensures HeadLines(r, name) != [] && AllGood(HeadLines(r, name))
  {
    DecimalReads(r.status);
    StatusReads(Decimal(r.status), r.status);
    HeaderLineGood(name, Decimal(r.status));
    HeaderLinesGood(r.headers);
  }

  lemma ParsePlain(y: Bytes, head: Bytes, body: Bytes, h: Head)
    requires GoodHead(head) && y == head + [LF] + body && !HasBlankCrlf(body)
    requires TakeLines(Start(), Lines(head[..|head| - 1])) == h
    ensures Parse(y) == Finish(h, body)
  {
    HeadEnds(head, body);
    BlankFound(body);
    assert |y| == |head| + 1 + |body|;
    assert y[..|head| - 1] == head[..|head| - 1] && y[|head| + 1..] == body;
  }

  lemma ParseSplitBody(y: Bytes, head: Bytes, body: Bytes)
    requires GoodHead(head) && y == head + [LF] + body && HasBlankCrlf(body)
    ensures |Parse(y).body| < |body|
  {
    HeadEnds(head, body);
    BlankFound(body);
  }

  lemma ReadsBackFrom(lines: seq<string>, y: Bytes, body: Bytes, h: Head)
    requires lines != [] && AllGood(lines) && TakeLines(Start(), Encoded(lines)) == h
    requires y == Joined(lines) + [LF] + body
    ensures !HasBlankCrlf(body) ==> Parse(y) == Finish(h, body)
    ensures HasBlankCrlf(body) ==> |Parse(y).body| < |body|
  {
    JoinedIsGood(lines);
    JoinedSplits(lines);
    if HasBlankCrlf(body) { ParseSplitBody(y, Joined(lines), body); } else { ParsePlain(y, Joined(lines), body, h); }
  }

  lemma ReadsBackWith(r: Response, name: string)
    requires Clean(r) && CleanName(name) && IsStatus(name)
    ensures !HasBlankCrlf(r.body) ==> Parse(PrintedWith(r, name)) == r
    ensures HasBlankCrlf(r.body) ==> |Parse(PrintedWith(r, name)).body| < |r.body|
  {
    PrintedLinesGood(r, name);
    HeadReadsBack(r, name);
    ReadsBackFrom(HeadLines(r, name), PrintedWith(r, name), r.body, Head(r.status, r.headers, true));
  }

  /** A clean response survives printing and parsing exactly when its body holds no
      CRLF CRLF; otherwise the body comes back shorter. */
  lemma PrintedReadsBack(r: Response)
    requires Clean(r)
    ensures Parse(Printed(r)) == r <==> !HasBlankCrlf(r.body)
    ensures HasBlankCrlf(r.body) ==> |Parse(Printed(r)).body| < |r.body|
  {
    StatusName();
    ReadsBackWith(r, "Status");
  }

  /** Re-encoding is stable, for every byte string, exactly when the parsed body holds no
      CRLF CRLF. */
  lemma ReencodingIsStable(x: Bytes)
    ensures Parse(Printed(Parse(x))) == Parse(x) <==> !HasBlankCrlf(Parse(x).body)
  {
    ParsedIsClean(x);
    PrintedReadsBack(Parse(x));
  }
}

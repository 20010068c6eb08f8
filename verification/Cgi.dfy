/** Reading and printing the response form of CGI output (section 6 of RFC 3875). */
module Cgi {
  import opened Prelude
  import opened StreamText
  import opened Utf8
  import opened Decimals
  import opened ByteLines

  datatype Header = Header(name: string, value: string)
  datatype Response = Response(status: nat, headers: seq<Header>, body: Bytes)

  // ----- searching bytes ---------------------------------------------------------------

  predicate At(h: Bytes, pat: Bytes, i: int) { 0 <= i && i + |pat| <= |h| && h[i..i + |pat|] == pat }

  /** The source's `find_subslice` from `i` on, `|h|` standing for no occurrence. */
  function FindSub(h: Bytes, pat: Bytes, i: nat): (r: nat)
    requires i <= |h| && pat != []
    ensures i <= r <= |h| && (r < |h| ==> At(h, pat, r))
    decreases |h| - i
  {
    if i == |h| then i else if At(h, pat, i) then i else FindSub(h, pat, i + 1)
  }

  lemma {:induction false} FindSubIsFirst(h: Bytes, pat: Bytes, i: nat)
    requires i <= |h| && pat != []
    ensures forall k :: i <= k < FindSub(h, pat, i) ==> !At(h, pat, k)
    decreases |h| - i
  {
    if i < |h| && !At(h, pat, i) { FindSubIsFirst(h, pat, i + 1); }
  }

  method FindSubslice(h: Bytes, pat: Bytes) returns (r: nat)
    requires pat != []
    ensures r == FindSub(h, pat, 0)
  {
    r := 0;
    while r < |h|
      invariant r <= |h| && FindSub(h, pat, 0) == FindSub(h, pat, r)
    {
      if r + |pat| <= |h| && h[r..r + |pat|] == pat { return; }
      r := r + 1;
    }
  }

  function BlankCrlf(): Bytes { [13, 10, 13, 10] }
  function BlankLf(): Bytes { [10, 10] }

  // ----- lines ----------------------------------------------------------------------------

  /** The source's `split` at line feeds. */
  function Lines(b: Bytes): seq<Bytes>
    decreases |b|
  {
    var e := LineEnd(b, 0);
    if e == |b| then [b] else [b[..e]] + Lines(b[e + 1..])
  }

  /** Text that is not UTF-8 reads as empty. */
  function TextOf(line: Bytes): string { if IsUtf8(line) then Decode(line) else [] }

  // ----- names and the status -----------------------------------------------------------------

  function Lower(c: char): char { if 'A' <= c <= 'Z' then ((c as int) + 32) as char else c }

  predicate SameName(a: string, b: string) { |a| == |b| && forall k :: 0 <= k < |a| ==> Lower(a[k]) == Lower(b[k]) }

  predicate IsStatus(name: string) { SameName(name, "status") }
  predicate IsType(name: string) { SameName(name, "content-type") }

  function DefaultType(): Header { Header("Content-Type", "text/plain") }

  function WordEnd(s: string, i: nat): (r: nat)
    requires i <= |s|
    ensures i <= r <= |s|
    decreases |s| - i
  {
    if i == |s| || IsSpace(s[i]) then i else WordEnd(s, i + 1)
  }

  function FirstWord(s: string): string { TrimStart(s)[..WordEnd(TrimStart(s), 0)] }

  function StatusOf(value: string): (n: nat)
    ensures n < 65536
  {
    match ParseU16(FirstWord(value))
    case Some(n) => n
    case None => 200
  }

  // ----- reading ------------------------------------------------------------------------------

  datatype Head = Head(status: nat, headers: seq<Header>, sawType: bool)

  function TakeField(h: Head, name: string, value: string): Head {
    if IsStatus(name) then h.(status := StatusOf(value))
    else h.(headers := h.headers + [Header(name, value)], sawType := h.sawType || IsType(name))
  }

  function TakeLine(h: Head, line: Bytes): Head {
    var text := TrimEnd(TextOf(line));
    match FindChar(text, ':', 0)
    case None => h
    case Some(i) => TakeField(h, Trim(text[..i]), Trim(text[i + 1..]))
  }

  function TakeLines(h: Head, lines: seq<Bytes>): Head
    decreases |lines|
  {
    if lines == [] then h else TakeLines(TakeLine(h, lines[0]), lines[1..])
  }

  function Start(): Head { Head(200, [], false) }

  function Finish(h: Head, body: Bytes): Response {
    Response(h.status, if h.sawType then h.headers else h.headers + [DefaultType()], body)
  }

  function Parse(x: Bytes): Response {
    var i := FindSub(x, BlankCrlf(), 0);
    if i < |x| then Finish(TakeLines(Start(), Lines(x[..i])), x[i + 4..])
    else
      var j := FindSub(x, BlankLf(), 0);
      if j < |x| then Finish(TakeLines(Start(), Lines(x[..j])), x[j + 2..])
      else Response(200, [DefaultType()], x)
  }

  method ParseCgi(stdout: Bytes) returns (r: Response)
    ensures r == Parse(stdout)
  {
    var head, body := [], [];
    var i := FindSubslice(stdout, [13, 10, 13, 10]);
    if i < |stdout| {
      head, body := stdout[..i], stdout[i + 4..];
    } else {
      i := FindSubslice(stdout, [10, 10]);
      if i < |stdout| {
        head, body := stdout[..i], stdout[i + 2..];
      } else {
        return Response(200, [Header("Content-Type", "text/plain")], stdout);
      }
    }
    var h := ReadHead(head);
    r := Finish(h, body);
  }

  method ReadHead(head: Bytes) returns (h: Head)
    ensures h == TakeLines(Start(), Lines(head))
  {
    var lines := Lines(head);
    h := Head(200, [], false);
    for k := 0 to |lines|
      invariant TakeLines(h, lines[k..]) == TakeLines(Start(), lines)
    {
      var text := TrimEnd(TextOf(lines[k]));
      assert lines[k..][0] == lines[k] && lines[k..][1..] == lines[k + 1..];
      match FindChar(text, ':', 0)
      case None =>
      case Some(i) =>
        var name, value := Trim(text[..i]), Trim(text[i + 1..]);
        if IsStatus(name) {
          h := h.(status := StatusOf(value));
        } else {
          if IsType(name) { h := h.(sawType := true); }
          h := h.(headers := h.headers + [Header(name, value)]);
        }
    }
  }

  // ----- printing -----------------------------------------------------------------------------

  function HeaderLine(name: string, value: string): string { name + ": " + value }

  function HeaderLines(hs: seq<Header>): seq<string>
    decreases |hs|
  {
    if hs == [] then [] else [HeaderLine(hs[0].name, hs[0].value)] + HeaderLines(hs[1..])
  }

  /** Each line with its line feed. */
  function Joined(lines: seq<string>): Bytes
    decreases |lines|
  {
    if lines == [] then [] else Encode(lines[0]) + [LF] + Joined(lines[1..])
  }

  /** The lines of a head whose status line is called `name`. */
  function HeadLines(r: Response, name: string): seq<string> {
    [HeaderLine(name, Decimal(r.status))] + HeaderLines(r.headers)
  }

  function PrintedWith(r: Response, name: string): Bytes { Joined(HeadLines(r, name)) + [LF] + r.body }

  function Printed(r: Response): Bytes { PrintedWith(r, "Status") }

  method CgiBytes(r: Response) returns (out: Bytes)
    ensures out == Printed(r)
  {
    var first := HeaderLine("Status", Decimal(r.status));
    out := Encode(first) + [10];
    var all := HeaderLines(r.headers);
    assert ([first] + all)[1..] == all;
    for k := 0 to |r.headers|
      invariant out + Joined(HeaderLines(r.headers[k..])) == Joined(HeadLines(r, "Status"))
    {
      var line := HeaderLine(r.headers[k].name, r.headers[k].value);
      JoinedNext(out, r.headers[k..]);
      assert r.headers[k..][1..] == r.headers[k + 1..];
      out := out + (Encode(line) + [10]);
    }
    out := out + [10];
    out := out + r.body;
  }

  lemma JoinedCons(line: string, lines: seq<string>)
    ensures Joined([line] + lines) == (Encode(line) + [LF]) + Joined(lines)
  {
    assert ([line] + lines)[1..] == lines;
  }

  lemma JoinedNext(out: Bytes, hs: seq<Header>)
    requires hs != []
    ensures out + Joined(HeaderLines(hs)) == out + (Encode(HeaderLine(hs[0].name, hs[0].value)) + [LF]) +
      Joined(HeaderLines(hs[1..]))
  {
    var line, rest := HeaderLine(hs[0].name, hs[0].value), HeaderLines(hs[1..]);
    JoinedCons(line, rest);
    Assoc(out, Encode(line) + [LF], Joined(rest));
  }
}

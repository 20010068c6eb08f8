/** Heads with CRLF line ends, the standard form of CGI output (section 6 of RFC 3875). */
module CgiCrlf {
  import opened Prelude
  import opened StreamText
  import opened Trimming
  import opened Utf8
  import opened Decimals
  import opened ByteLines
  import opened Cgi
  import opened CgiResults

  // ----- names in any spelling ---------------------------------------------------------

  /** `name` letter by letter in lower or upper case. */
  predicate Spells(name: string, lower: string, upper: string) {
    |name| == |lower| == |upper| && forall k :: 0 <= k < |name| ==> name[k] == lower[k] || name[k] == upper[k]
  }

  lemma SameLetter(c: char, lower: char, upper: char)
    requires if 'a' <= lower <= 'z' then (upper as int) == (lower as int) - 32
             else upper == lower && !('A' <= lower <= 'Z')
    ensures Lower(c) == Lower(lower) <==> c == lower || c == upper
  {
  }

  predicate Cases(lower: string, upper: string) {
    |lower| == |upper|
    && forall k :: 0 <= k < |lower| ==>
      if 'a' <= lower[k] <= 'z' then (upper[k] as int) == (lower[k] as int) - 32
      else upper[k] == lower[k] && !('A' <= lower[k] <= 'Z')
  }

  lemma SpellsIs(name: string, lower: string, upper: string)
    requires Cases(lower, upper)
    ensures SameName(name, lower) <==> Spells(name, lower, upper)
  {
    if |name| == |lower| {
      forall k | 0 <= k < |name|
        ensures Lower(name[k]) == Lower(lower[k]) <==> name[k] == lower[k] || name[k] == upper[k]
      {
        SameLetter(name[k], lower[k], upper[k]);
      }
    }
  }

  /** The two names that the reader looks for, in every mix of cases. */
  lemma NamesAre(name: string)
    ensures IsStatus(name) <==> Spells(name, "status", "STATUS")
    ensures IsType(name) <==> Spells(name, "content-type", "CONTENT-TYPE")
  {
    SpellsIs(name, "status", "STATUS");
    SpellsIs(name, "content-type", "CONTENT-TYPE");
  }

  // ----- heads of fields -----------------------------------------------------------------

  /** One field as it may be written: blanks between the colon and the value. */
  datatype Field = Field(name: string, gap: string, value: string)

  predicate CleanField(f: Field) {
    CleanName(f.name) && CleanValue(f.value) && forall k :: 0 <= k < |f.gap| ==> f.gap[k] in {' ', '\t'}
  }

  function LineOf(f: Field): string { FieldLine(f.name, f.gap, f.value) }

  function LinesOf(fs: seq<Field>): seq<string> { seq(|fs|, k requires 0 <= k < |fs| => LineOf(fs[k])) }

  /** The lines, each ended by CR LF. */
  function Crlf(lines: seq<string>): Bytes
    decreases |lines|
  {
    if lines == [] then [] else (Encode(lines[0]) + [13, 10]) + Crlf(lines[1..])
  }

  /** The fields, an empty line and the body. */
  function CrlfOutput(fs: seq<Field>, body: Bytes): Bytes { Crlf(LinesOf(fs)) + ([13, 10] + body) }

  lemma FieldIsPlain(f: Field)
    requires CleanField(f)
    ensures PlainLine(LineOf(f)) && AllSpace(f.gap)
  {
  }

  // ----- where the head ends ----------------------------------------------------------------

  /** No line feed two bytes after another, none in the first two bytes, and CR LF at the end. */
  predicate CrlfHead(h: Bytes) {
    && |h| >= 3 && h[0] != 10 && h[1] != 10 && h[|h| - 2] == 13 && h[|h| - 1] == 10
    && forall i :: 0 <= i < |h| - 2 && h[i] == 10 ==> h[i + 2] != 10
  }

  lemma CrlfCons(e: Bytes, rest: Bytes)
    requires e != [] && 10 !in e && (rest == [] || CrlfHead(rest))
    ensures CrlfHead((e + [13, 10]) + rest)
  {
    var h := (e + [13, 10]) + rest;
    assert forall k :: 0 <= k < |e| ==> h[k] == e[k];
    assert h[|e|] == 13 && h[|e| + 1] == 10;
    assert forall k :: 0 <= k < |rest| ==> h[|e| + 2 + k] == rest[k];
    forall i | 0 <= i < |h| - 2 && h[i] == 10 ensures h[i + 2] != 10 {
      if i > |e| + 1 { assert h[i] == rest[i - |e| - 2] && h[i + 2] == rest[i - |e|]; }
    }
  }

  lemma {:induction false} CrlfIsHead(lines: seq<string>)
    requires lines != [] && AllPlain(lines)
    ensures CrlfHead(Crlf(lines))
    decreases |lines|
  {
    assert PlainLine(lines[0]);
    AsciiBytes(lines[0], 10);
    LastByte(lines[0]);
    if |lines| > 1 { CrlfIsHead(lines[1..]); }
    CrlfCons(Encode(lines[0]), Crlf(lines[1..]));
  }

  /** The empty line behind such a head is the first one in CR LF form. */
  lemma CrlfEnds(head: Bytes, body: Bytes)
    requires CrlfHead(head)
    ensures FindSub(head + ([13, 10] + body), BlankCrlf(), 0) == |head| - 2
  {
    var x := head + ([13, 10] + body);
    var n := |head| - 2;
    assert x[n..n + 4] == BlankCrlf();
    forall k | 0 <= k < n ensures !At(x, BlankCrlf(), k) {
      assert x[k..k + 4][1] == x[k + 1] == head[k + 1] && x[k..k + 4][3] == x[k + 3];
      assert k + 3 < |head| ==> x[k + 3] == head[k + 3];
    }
    FindSubIs(x, BlankCrlf(), n);
  }

  /** The lines as the reader finds them: all but the last keep their CR. */
  function Kept(lines: seq<string>): seq<string>
    decreases |lines|
  {
    if |lines| <= 1 then lines else [lines[0] + ['\r']] + Kept(lines[1..])
  }

  lemma ReturnByte(l: string)
    ensures Encode(l + ['\r']) == Encode(l) + [13]
  {
    EncodeConcat(l, ['\r']);
    assert ['\r'][1..] == [];
    assert Encode(['\r']) == EncodeChar('\r') + [] == [13];
  }

  lemma {:induction false} KeptJoined(lines: seq<string>)
    requires lines != [] && AllPlain(lines)
    ensures var j := Joined(Kept(lines)); j != [] && Crlf(lines) == j[..|j| - 1] + [13, 10]
    ensures Kept(lines) != [] && AllPlain(Kept(lines))
    decreases |lines|
  {
    assert PlainLine(lines[0]);
    if |lines| == 1 {
      OneLast(lines);
    } else {
      var rest := Kept(lines[1..]);
      KeptJoined(lines[1..]);
      ReturnByte(lines[0]);
      JoinedCons(lines[0] + ['\r'], rest);
      KeptStep(Encode(lines[0]), Joined(rest), Crlf(lines[1..]));
      KeptPlain(lines[0], rest);
    }
  }

  lemma OneLast(lines: seq<string>)
    requires |lines| == 1
    ensures Crlf(lines) == Encode(lines[0]) + [13, 10] && Joined(lines) == Encode(lines[0]) + [LF]
  {
    var none := lines[1..];
    assert none == [];
    assert Crlf(none) == [] && Joined(none) == [];
    assert (Encode(lines[0]) + [13, 10]) + [] == Encode(lines[0]) + [13, 10];
    assert Encode(lines[0]) + [LF] + [] == Encode(lines[0]) + [LF];
  }

  lemma KeptPlain(l: string, rest: seq<string>)
    requires PlainLine(l) && AllPlain(rest)
    ensures AllPlain([l + ['\r']] + rest)
  {
  }

  lemma KeptStep(e: Bytes, j: Bytes, crlf: Bytes)
    requires j != [] && crlf == j[..|j| - 1] + [13, 10]
    ensures var all := ((e + [13]) + [LF]) + j; all != [] && (e + [13, 10]) + crlf == all[..|all| - 1] + [13, 10]
  {
    var all := ((e + [13]) + [LF]) + j;
    assert all[..|all| - 1] == (e + [13, 10]) + j[..|j| - 1];
  }

  /** A CR at the end of a line is trimmed away. */
  lemma ReturnTrimmed(h: Head, l: string)
    ensures TakeLine(h, Encode(l + ['\r'])) == TakeLine(h, Encode(l))
  {
    DecodeEncode(l);
    DecodeEncode(l + ['\r']);
    assert (l + ['\r'])[..|l|] == l;
  }

  lemma {:induction false} KeptReads(h: Head, lines: seq<string>)
    requires lines != []
    ensures TakeLines(h, Encoded(Kept(lines))) == TakeLines(h, Encoded(lines))
    decreases |lines|
  {
    if |lines| > 1 {
      var rest := lines[1..];
      EncodedCons(lines[0] + ['\r'], Kept(rest));
      TakeCons(h, Encode(lines[0] + ['\r']), Encoded(Kept(rest)));
      ReturnTrimmed(h, lines[0]);
      KeptReads(TakeLine(h, Encode(lines[0])), rest);
    }
  }

  lemma ParseCrlf(head: Bytes, inner: Bytes, body: Bytes, h: Head)
    requires CrlfHead(head) && head == inner + [13, 10] && TakeLines(Start(), Lines(inner)) == h
    ensures Parse(head + ([13, 10] + body)) == Finish(h, body)
  {
    var x := head + ([13, 10] + body);
    CrlfEnds(head, body);
    assert x[..|inner|] == inner && x[|inner| + 4..] == body;
  }

  /** A head of such lines is read line by line, and the body is what follows the empty line. */
  lemma {:induction false} CrlfLinesRead(lines: seq<string>, body: Bytes)
    requires lines != [] && AllPlain(lines)
    ensures Parse(Crlf(lines) + ([13, 10] + body)) == Finish(TakeLines(Start(), Encoded(lines)), body)
  {
    var j := Joined(Kept(lines));
    CrlfIsHead(lines);
    KeptJoined(lines);
    InnerReads(lines, j[..|j| - 1]);
    ParseCrlf(Crlf(lines), j[..|j| - 1], body, TakeLines(Start(), Encoded(lines)));
  }

  lemma {:induction false} InnerReads(lines: seq<string>, inner: Bytes)
    requires lines != [] && AllPlain(lines) && Joined(Kept(lines)) != []
    requires inner == Joined(Kept(lines))[..|Joined(Kept(lines))| - 1]
    ensures TakeLines(Start(), Lines(inner)) == TakeLines(Start(), Encoded(lines))
  {
    KeptJoined(lines);
    JoinedSplits(Kept(lines));
    KeptReads(Start(), lines);
  }

  // ----- what fields mean ---------------------------------------------------------------------

  /** The fields that are not the status, in order. */
  function Others(fs: seq<Field>): seq<Header>
    decreases |fs|
  {
    if fs == [] then []
    else (if Spells(fs[0].name, "status", "STATUS") then [] else [Header(fs[0].name, fs[0].value)]) + Others(fs[1..])
  }

  /** With the type that is assumed when none is given. */
  function Typed(hs: seq<Header>): seq<Header> {
    if exists k :: 0 <= k < |hs| && Spells(hs[k].name, "content-type", "CONTENT-TYPE") then hs
    else hs + [Header("Content-Type", "text/plain")]
  }

  /** A number that fits 16 bits, alone or with white space and a reason behind it. */
  ghost predicate Codes(value: string, n: nat) {
    n < 65536 && exists reason :: value == Decimal(n) + reason && (reason == [] || IsSpace(reason[0]))
  }

  lemma {:induction false} WordEndsAt(s: string, i: nat, n: nat)
    requires i <= n <= |s| && (n == |s| || IsSpace(s[n])) && forall k :: i <= k < n ==> !IsSpace(s[k])
    ensures WordEnd(s, i) == n
    decreases n - i
  {
    if i < n { WordEndsAt(s, i + 1, n); }
  }

  lemma CodeReads(value: string, n: nat)
    requires Codes(value, n)
    ensures StatusOf(value) == n
  {
    var digits := Decimal(n);
    var reason :| value == digits + reason && (reason == [] || IsSpace(reason[0]));
    DecimalReads(n);
    DigitsAreWord(digits);
    forall k | 0 <= k < |digits| ensures !IsSpace(value[k]) { assert value[k] == digits[k] && '0' <= digits[k] <= '9'; }
    assert TrimStart(value) == value;
    WordEndsAt(value, 0, |digits|);
    assert value[..|digits|] == digits;
  }

  /** A status that does not open with a number is read as 200. */
  lemma NoCodeReads(value: string)
    requires value != [] && !IsSpace(value[0]) && value[0] != '+' && !('0' <= value[0] <= '9')
    ensures StatusOf(value) == 200
  {
    assert TrimStart(value) == value;
    assert WordEnd(value, 0) > 0;
    assert !AllDigits(FirstWord(value)) by { assert FirstWord(value)[0] == value[0]; }
  }

  /** Status codes are printed in base ten. */
  lemma ThreeDigits(a: nat, b: nat, c: nat)
    requires 0 < a < 10 && b < 10 && c < 10
    ensures Decimal(100 * a + 10 * b + c) ==
      [('0' as int + a) as char, ('0' as int + b) as char, ('0' as int + c) as char]
  {
    assert Decimal(10 * a + b) == Decimal(a) + [Digit(b)];
  }

  // ----- reading fields ----------------------------------------------------------------------

  predicate CleanFields(fs: seq<Field>) { forall k :: 0 <= k < |fs| ==> CleanField(fs[k]) }

  /** Fields none of which is the status only add headers. */
  lemma {:induction false} OthersRead(h: Head, fs: seq<Field>)
    requires CleanFields(fs) && h.sawType == HasType(h.headers)
    requires forall k :: 0 <= k < |fs| ==> !IsStatus(fs[k].name)
    ensures TakeLines(h, Encoded(LinesOf(fs))) == Plus(h, Others(fs))
    decreases |fs|
  {
    if fs == [] {
      assert h.headers + Others(fs) == h.headers;
    } else {
      var f, rest := fs[0], fs[1..];
      assert CleanField(f) && !IsStatus(f.name);
      LinesFirst(fs);
      FieldIsPlain(f);
      FieldReadsBack(h, f.name, f.gap, f.value);
      EncodedCons(LineOf(f), LinesOf(rest));
      TakeCons(h, Encode(LineOf(f)), Encoded(LinesOf(rest)));
      AddedHeader(h.headers, Header(f.name, f.value));
      OthersRead(Plus(h, [Header(f.name, f.value)]), rest);
      OthersFirst(h, f, rest, fs);
    }
  }

  lemma LinesFirst(fs: seq<Field>)
    requires fs != []
    ensures LinesOf(fs) == [LineOf(fs[0])] + LinesOf(fs[1..])
  {
  }

  lemma OthersFirst(h: Head, f: Field, rest: seq<Field>, fs: seq<Field>)
    requires fs != [] && f == fs[0] && rest == fs[1..] && !IsStatus(f.name)
    ensures Plus(Plus(h, [Header(f.name, f.value)]), Others(rest)) == Plus(h, Others(fs))
  {
    NamesAre(f.name);
    assert Others(fs) == [Header(f.name, f.value)] + Others(rest);
    assert h.headers + [Header(f.name, f.value)] + Others(rest) == h.headers + Others(fs);
  }

  lemma {:induction false} TakenConcat(h: Head, a: seq<Bytes>, b: seq<Bytes>)
    ensures TakeLines(h, a + b) == TakeLines(TakeLines(h, a), b)
    decreases |a|
  {
    if a == [] {
      assert a + b == b;
    } else {
      assert (a + b)[1..] == a[1..] + b;
      TakenConcat(TakeLine(h, a[0]), a[1..], b);
    }
  }

  lemma {:induction false} EncodedConcat(a: seq<string>, b: seq<string>)
    ensures Encoded(a + b) == Encoded(a) + Encoded(b)
    decreases |a|
  {
    if a == [] {
      assert a + b == b;
    } else {
      assert (a + b)[1..] == a[1..] + b;
      EncodedConcat(a[1..], b);
    }
  }

  lemma TypedIs(h: Head, body: Bytes)
    requires h.sawType == HasType(h.headers)
    ensures Finish(h, body) == Response(h.status, Typed(h.headers), body)
  {
    forall k | 0 <= k < |h.headers|
      ensures IsType(h.headers[k].name) <==> Spells(h.headers[k].name, "content-type", "CONTENT-TYPE")
    {
      NamesAre(h.headers[k].name);
    }
  }

  lemma AllFieldsPlain(fs: seq<Field>)
    requires CleanFields(fs)
    ensures AllPlain(LinesOf(fs))
  {
    forall k | 0 <= k < |fs| ensures PlainLine(LinesOf(fs)[k]) { FieldIsPlain(fs[k]); }
  }

  /** A head without a status: 200, its fields as headers, and a type if it gave none. */
  lemma WithoutStatus(fs: seq<Field>, body: Bytes)
    requires fs != [] && CleanFields(fs) && forall k :: 0 <= k < |fs| ==> !Spells(fs[k].name, "status", "STATUS")
    ensures Parse(CrlfOutput(fs, body)) == Response(200, Typed(Others(fs)), body)
  {
    forall k | 0 <= k < |fs| ensures !IsStatus(fs[k].name) { NamesAre(fs[k].name); }
    AllFieldsPlain(fs);
    CrlfLinesRead(LinesOf(fs), body);
    OthersRead(Start(), fs);
    assert [] + Others(fs) == Others(fs);
    TypedIs(Plus(Start(), Others(fs)), body);
  }

  /** The status may stand anywhere among the fields. */
  lemma FieldsRead(before: seq<Field>, f: Field, after: seq<Field>, n: nat)
    requires CleanFields(before) && CleanField(f) && CleanFields(after) && IsStatus(f.name) && Codes(f.value, n)
    requires forall k :: 0 <= k < |before| ==> !IsStatus(before[k].name)
    requires forall k :: 0 <= k < |after| ==> !IsStatus(after[k].name)
    ensures var hs := Others(before) + Others(after);
      TakeLines(Start(), Encoded(LinesOf(before + [f] + after))) == Head(n, hs, HasType(hs))
  {
    var a, b, c := LinesOf(before), [LineOf(f)], LinesOf(after);
    assert LinesOf(before + [f] + after) == a + (b + c);
    EncodedConcat(a, b + c);
    EncodedCons(LineOf(f), c);
    TakenConcat(Start(), Encoded(a), [Encode(LineOf(f))] + Encoded(c));
    OthersRead(Start(), before);
    assert [] + Others(before) == Others(before);
    var h := Plus(Start(), Others(before));
    TakeCons(h, Encode(LineOf(f)), Encoded(c));
    FieldIsPlain(f);
    FieldReadsBack(h, f.name, f.gap, f.value);
    CodeReads(f.value, n);
    OthersRead(h.(status := n), after);
  }

  /** A head with CR LF line ends whose status field, in any spelling and at any place, is `n`
      with or without a reason, is read as that status, the other fields in order, and exactly
      the body. */
  lemma WithStatus(before: seq<Field>, f: Field, after: seq<Field>, n: nat, body: Bytes)
    requires CleanFields(before) && CleanField(f) && CleanFields(after)
    requires Spells(f.name, "status", "STATUS") && Codes(f.value, n)
    requires forall k :: 0 <= k < |before| ==> !Spells(before[k].name, "status", "STATUS")
    requires forall k :: 0 <= k < |after| ==> !Spells(after[k].name, "status", "STATUS")
    ensures Parse(CrlfOutput(before + [f] + after, body)) == Response(n, Typed(Others(before) + Others(after)), body)
  {
    var fs := before + [f] + after;
    NamesAre(f.name);
    forall k | 0 <= k < |before| ensures !IsStatus(before[k].name) { NamesAre(before[k].name); }
    forall k | 0 <= k < |after| ensures !IsStatus(after[k].name) { NamesAre(after[k].name); }
    FieldsRead(before, f, after, n);
    AllFieldsPlain(fs);
    CrlfLinesRead(LinesOf(fs), body);
    var hs := Others(before) + Others(after);
    TypedIs(Head(n, hs, HasType(hs)), body);
  }

  predicate CrlfTwice(x: Bytes, k: nat)
    requires k + 3 < |x|
  {
    x[k] == 13 && x[k + 1] == 10 && x[k + 2] == 13 && x[k + 3] == 10
  }

  predicate LfTwice(x: Bytes, k: nat)
    requires k + 1 < |x|
  {
    x[k] == 10 && x[k + 1] == 10
  }

  lemma BlankAt(x: Bytes, k: nat)
    ensures At(x, BlankCrlf(), k) <==> k + 3 < |x| && CrlfTwice(x, k)
    ensures At(x, BlankLf(), k) <==> k + 1 < |x| && LfTwice(x, k)
  {
    if k + 3 < |x| { assert x[k..k + 4] == [x[k], x[k + 1], x[k + 2], x[k + 3]]; }
    if k + 1 < |x| { assert x[k..k + 2] == [x[k], x[k + 1]]; }
  }

  /** Output without an empty line of either kind is all body. */
  lemma WithoutHead(x: Bytes)
    requires forall k :: 0 <= k < |x| - 1 ==> !LfTwice(x, k)
    requires forall k :: 0 <= k < |x| - 3 ==> !CrlfTwice(x, k)
    ensures Parse(x) == Response(200, [Header("Content-Type", "text/plain")], x)
  {
    BlankAt(x, FindSub(x, BlankCrlf(), 0));
    BlankAt(x, FindSub(x, BlankLf(), 0));
  }
}

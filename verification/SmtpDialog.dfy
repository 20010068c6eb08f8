/** The line-buffered reply reader of the SMTP client. */
module SmtpDialog {
  import opened Prelude
  import opened Utf8
  import opened Decimals
  import opened ByteLines

  /** A line without its line feed loses one carriage return. */
  function StripCr(line: Bytes): Bytes {
    if line != [] && line[|line| - 1] == 13 then line[..|line| - 1] else line
  }

  /** The end of the stream: the peer closed it, or reading it failed. */
  datatype End = Closed | Failed

  datatype Line = Text(bytes: Bytes) | NotUtf8 | NoLine(end: End)

  datatype Reply = Code(code: nat) | Bad | Garbled | Ended(end: End) | Panicked

  datatype Answer = Answer(reply: Reply, rest: Bytes)

  /** The tests of one line; nothing if the next one is to be read. A line whose fourth byte
      goes on with a character stops the source with a panic. */
  function Verdict(text: Bytes): Option<Reply> {
    if !IsUtf8(text) then Some(Garbled)
    else if |text| < 4 then Some(Bad)
    else if !IsUtf8(text[..3]) then Some(Panicked)
    else match ParseU16(Decode(text[..3]))
      case None => Some(Bad)
      case Some(n) => if text[3] == 32 then Some(Code(n)) else None
  }

  /** Reading one reply from everything the peer sends. */
  function ReplyOf(all: Bytes, end: End): Answer
    decreases |all|
  {
    var e := LineEnd(all, 0);
    if e == |all| then Answer(Ended(end), all)
    else match Verdict(StripCr(all[..e]))
      case Some(r) => Answer(r, all[e + 1..])
      case None => ReplyOf(all[e + 1..], end)
  }

  class Dialog {
    var buf: Bytes
    /** What the stream has yet to deliver, one read at a time, and how it then ends. */
    var incoming: seq<Bytes>
    const end: End

    constructor (incoming: seq<Bytes>, end: End)
      ensures this.incoming == incoming && this.end == end && Pending() == Flat(incoming)
    {
      buf := [];
      this.incoming := incoming;
      this.end := end;
    }

    /** Everything not yet consumed. */
    function Pending(): Bytes
      reads this
    {
      buf + Flat(incoming)
    }

    /** The source's `line`: how the bytes were cut into reads makes no difference. */
    method ReadLine() returns (r: Line)
      modifies this
      ensures var all := old(Pending()); var e := LineEnd(all, 0);
        if e == |all| then r == NoLine(end) && Pending() == all
        else (r == if IsUtf8(StripCr(all[..e])) then Text(StripCr(all[..e])) else NotUtf8) && Pending() == all[e + 1..]
    {
      ghost var all := Pending();
      while true
        invariant Pending() == all
        decreases |incoming|
      {
        var pos := LineEnd(buf, 0);
        if pos < |buf| {
          LineFound(buf, Flat(incoming), pos);
          var out := buf[..pos];
          buf := buf[pos + 1..];
          if |out| > 0 && out[|out| - 1] == 13 { out := out[..|out| - 1]; }
          if IsUtf8(out) { return Text(out); } else { return NotUtf8; }
        }
        if incoming == [] {
          assert buf + Flat(incoming) == buf;
          return NoLine(end);
        }
        Deliver(buf, incoming);
        buf := buf + incoming[0];
        incoming := incoming[1..];
      }
      r := NoLine(end);
    }

    /** The source's `reply`. */
    method ReadReply() returns (r: Reply)
      modifies this
      ensures Answer(r, Pending()) == ReplyOf(old(Pending()), end)
    {
      ghost var all := Pending();
      while true
        invariant ReplyOf(Pending(), end) == ReplyOf(all, end)
        decreases |Pending()|
      {
        var line := ReadLine();
        match line
        case NoLine(x) => return Ended(x);
        case NotUtf8 => return Garbled;
        case Text(text) =>
          if |text| < 4 { return Bad; }
          if !IsUtf8(text[..3]) { return Panicked; }
          var code := ParseU16(Decode(text[..3]));
          if code.None? { return Bad; }
          if text[3] == 32 { return Code(code.value); }
      }
      r := Bad;
    }
  }

  lemma LineFound(buf: Bytes, later: Bytes, pos: nat)
    requires pos == LineEnd(buf, 0) < |buf|
    ensures var all := buf + later;
      LineEnd(all, 0) == pos < |all| && all[..pos] == buf[..pos] && all[pos + 1..] == buf[pos + 1..] + later
  {
    LineEndIn(buf, later, 0);
  }

  lemma Deliver(buf: Bytes, incoming: seq<Bytes>)
    requires incoming != []
    ensures buf + Flat(incoming) == (buf + incoming[0]) + Flat(incoming[1..])
  {
    assert buf + (incoming[0] + Flat(incoming[1..])) == (buf + incoming[0]) + Flat(incoming[1..]);
  }

  // ----- what a reply tells ------------------------------------------------------------------

  /** The complete lines, as the reader sees them. */
  function Lines(all: Bytes): seq<Bytes>
    decreases |all|
  {
    var e := LineEnd(all, 0);
    if e == |all| then [] else [StripCr(all[..e])] + Lines(all[e + 1..])
  }

  function DigitOf(b: Byte): Option<nat> { if 48 <= b <= 57 then Some(b - 48) else None }

  /** The number in the three bytes before the separator: three digits, or two after a plus. */
  function NumberOf(text: Bytes): Option<nat>
    requires |text| >= 3
  {
    match (DigitOf(text[0]), DigitOf(text[1]), DigitOf(text[2]))
    case (Some(a), Some(b), Some(c)) => Some(100 * a + 10 * b + c)
    case (None, Some(b), Some(c)) => if text[0] == 43 then Some(10 * b + c) else None
    case _ => None
  }

  /** What a line makes of the reply; nothing if the reader goes on to the next. */
  function Tells(text: Bytes): Option<Reply> {
    if !IsUtf8(text) then Some(Garbled)
    else if |text| < 4 then Some(Bad)
    else if IsInner(text[3]) then Some(Panicked)
    else if NumberOf(text).None? then Some(Bad)
    else if text[3] == 32 then Some(Code(NumberOf(text).value))
    else None
  }

  predicate TellsAt(lines: seq<Bytes>, j: nat, r: Reply) {
    j < |lines| && Tells(lines[j]) == Some(r) && forall i :: 0 <= i < j ==> Tells(lines[i]) == None
  }

  ghost predicate Decides(lines: seq<Bytes>, r: Reply) { exists j: nat :: TellsAt(lines, j, r) }

  predicate Silent(lines: seq<Bytes>) { forall i :: 0 <= i < |lines| ==> Tells(lines[i]) == None }

  predicate IsAscii(s: string) { forall k :: 0 <= k < |s| ==> s[k] as int < 0x80 }

  lemma {:induction false} AsciiEncodes(s: string)
    requires IsAscii(s)
    ensures |Encode(s)| == |s| && forall k :: 0 <= k < |s| ==> Encode(s)[k] == s[k] as int
    decreases |s|
  {
    if s != [] { AsciiEncodes(s[1..]); }
  }

  lemma ValueOfThree(s: string)
    requires |s| == 3 && AllDigits(s)
    ensures DigitsValue(s) == 100 * (s[0] as int - 48) + 10 * (s[1] as int - 48) + (s[2] as int - 48)
  {
    assert s[..2][..1] == s[..1] && s[..1][..0] == [];
    assert DigitsValue(s[..1]) == s[0] as int - 48;
  }

  lemma ValueOfTwo(s: string)
    requires |s| == 2 && AllDigits(s)
    ensures DigitsValue(s) == 10 * (s[0] as int - 48) + (s[1] as int - 48)
  {
    assert s[..1][..0] == [];
    assert DigitsValue(s[..1]) == s[0] as int - 48;
  }

  /** For text of three ASCII characters the two ways to read the number agree. */
  lemma ThreeRead(s: string, b: Bytes)
    requires |s| == 3 == |b| && forall k :: 0 <= k < 3 ==> s[k] as int == b[k]
    ensures ParseU16(s) == NumberOf(b)
  {
    if s[0] == '+' {
      if AllDigits(s[1..]) { ValueOfTwo(s[1..]); }
      assert AllDigits(s[1..]) <==> DigitOf(b[1]).Some? && DigitOf(b[2]).Some? by {
        assert s[1..][0] == s[1] && s[1..][1] == s[2];
      }
    } else {
      if AllDigits(s) { ValueOfThree(s); }
      assert AllDigits(s) <==> DigitOf(b[0]).Some? && DigitOf(b[1]).Some? && DigitOf(b[2]).Some?;
    }
  }

  lemma NumberReads(b: Bytes)
    requires |b| == 3 && IsUtf8(b)
    ensures ParseU16(Decode(b)) == NumberOf(b)
  {
    var s := Decode(b);
    EncodeDecode(b);
    if ParseU16(s).Some? {
      ParsedIsAscii(s);
      AsciiEncodes(s);
      ThreeRead(s, b);
    } else if NumberOf(b).Some? {
      var t := [b[0] as char, b[1] as char, b[2] as char];
      AsciiEncodes(t);
      assert Encode(t) == b;
      DecodeEncode(t);
      ThreeRead(t, b);
    }
  }

  lemma ParsedIsAscii(s: string)
    requires ParseU16(s).Some?
    ensures IsAscii(s)
  {
    if s[0] == '+' {
      forall k | 0 <= k < |s| ensures s[k] as int < 0x80 { assert k > 0 ==> s[k] == s[1..][k - 1]; }
    }
  }

  lemma TellsFrom(first: Bytes, more: seq<Bytes>, j: nat, r: Reply)
    ensures TellsAt([first] + more, j + 1, r) <==> Tells(first) == None && TellsAt(more, j, r)
  {
    var lines := [first] + more;
    assert lines[0] == first && forall i :: 0 <= i < |more| ==> more[i] == lines[i + 1];
    assert forall i :: 0 < i < |lines| ==> lines[i] == more[i - 1];
  }

  lemma DecidesLater(first: Bytes, more: seq<Bytes>, r: Reply)
    ensures Decides([first] + more, r) <==> Tells(first) == Some(r) || (Tells(first) == None && Decides(more, r))
  {
    var lines := [first] + more;
    if Decides(lines, r) {
      var j: nat :| TellsAt(lines, j, r);
      if j > 0 { TellsFrom(first, more, j - 1, r); }
    }
    if Tells(first) == Some(r) { assert TellsAt(lines, 0, r); }
    if Tells(first) == None && Decides(more, r) {
      var j: nat :| TellsAt(more, j, r);
      TellsFrom(first, more, j, r);
    }
  }

  lemma SilentLater(first: Bytes, more: seq<Bytes>)
    ensures Silent([first] + more) <==> Tells(first) == None && Silent(more)
  {
    var lines := [first] + more;
    assert lines[0] == first && forall i :: 0 <= i < |more| ==> more[i] == lines[i + 1];
    assert forall i :: 0 < i < |lines| ==> lines[i] == more[i - 1];
  }

  lemma SameNumber(text: Bytes)
    requires |text| >= 3
    ensures NumberOf(text[..3]) == NumberOf(text)
  {
  }

  lemma CodePart(text: Bytes)
    requires IsUtf8(text) && |text| >= 4
    ensures IsUtf8(text[..3]) <==> !IsInner(text[3])
    ensures IsUtf8(text[..3]) ==> ParseU16(Decode(text[..3])) == NumberOf(text)
  {
    var code := text[..3];
    PrefixIsText(text, 3);
    SameNumber(text);
    if IsUtf8(code) { NumberReads(code); }
  }

  lemma VerdictTells(text: Bytes)
    ensures Verdict(text) == Tells(text)
  {
    if IsUtf8(text) && |text| >= 4 { CodePart(text); }
  }

  /** A reply is what the first line that decides anything makes of it, and the end of the
      stream exactly if no line decides. */
  lemma {:induction false} FirstLineTells(all: Bytes, end: End, r: Reply)
    ensures ReplyOf(all, end).reply == r <==>
      Decides(Lines(all), r) || (Silent(Lines(all)) && r == Ended(end))
    decreases |all|
  {
    var e := LineEnd(all, 0);
    if e < |all| {
      var text, rest := StripCr(all[..e]), all[e + 1..];
      VerdictTells(text);
      FirstLineTells(rest, end, r);
      LinesOf(all, text, rest);
      DecidesLater(text, Lines(rest), r);
      SilentLater(text, Lines(rest));
    } else {
      assert Lines(all) == [];
    }
  }

  lemma LinesOf(all: Bytes, text: Bytes, rest: Bytes)
    requires var e := LineEnd(all, 0); e < |all| && text == StripCr(all[..e]) && rest == all[e + 1..]
    ensures Lines(all) == [text] + Lines(rest)
  {
  }

  /** The byte after the code goes on with a character. */
  predicate SplitsChar(text: Bytes) { IsUtf8(text) && |text| >= 4 && IsInner(text[3]) }

  /** Reading a reply panics exactly when some line's fourth byte goes on with a character
      and no line before it decides the reply. */
  lemma PanicsExactly(all: Bytes, end: End)
    ensures ReplyOf(all, end).reply == Panicked <==>
      exists j: nat :: j < |Lines(all)| && SplitsChar(Lines(all)[j]) && Silent(Lines(all)[..j])
  {
    var lines := Lines(all);
    FirstLineTells(all, end, Panicked);
    forall j: nat | j < |lines| ensures TellsAt(lines, j, Panicked) <==> SplitsChar(lines[j]) && Silent(lines[..j]) {
      assert forall i :: 0 <= i < j ==> lines[..j][i] == lines[i];
    }
  }

  // ----- replies as a server prints them (section 4.2.1 of RFC 5321) -----------------------

  function ReplyText(code: nat, sep: char, text: string): Bytes { Encode(Decimal(code) + ([sep] + text)) }

  function CrLf(): Bytes { [13, 10] }

  function PrintedReply(code: nat, texts: seq<string>): Bytes
    requires texts != []
    decreases |texts|
  {
    if |texts| == 1 then ReplyText(code, ' ', texts[0]) + CrLf()
    else (ReplyText(code, '-', texts[0]) + CrLf()) + PrintedReply(code, texts[1..])
  }

  lemma {:induction false} DigitsEncode(s: string)
    requires AllDigits(s)
    ensures |Encode(s)| == |s|
    decreases |s|
  {
    if s != [] { DigitsEncode(s[1..]); }
  }

  lemma ThreeDigits(code: nat)
    requires 100 <= code <= 999
    ensures |Decimal(code)| == 3 && AllDigits(Decimal(code)) && ParseU16(Decimal(code)) == Some(code)
  {
    DecimalReads(code);
    assert |Decimal(code / 10 / 10)| == 1 && |Decimal(code / 10)| == 2;
    assert '0' <= Decimal(code)[0] <= '9';
  }

  lemma TextParts(code: nat, sep: char, text: string)
    requires 100 <= code <= 999 && (sep == ' ' || sep == '-') && '\n' !in text
    ensures var b := ReplyText(code, sep, text);
      && IsUtf8(b) && |b| >= 4 && LF !in b && b[3] == sep as int
      && IsUtf8(b[..3]) && Decode(b[..3]) == Decimal(code)
  {
    var d, tail := Decimal(code), [sep] + text;
    ThreeDigits(code);
    EncodeConcat(d, tail);
    DigitsEncode(d);
    DecodeEncode(d);
    DecodeEncode(d + tail);
    assert Encode(tail)[0] == sep as int;
    assert Encode(d + tail)[..3] == Encode(d);
    NoBreakIn(d, sep, text);
  }

  lemma NoBreakIn(d: string, sep: char, text: string)
    requires AllDigits(d) && sep != '\n' && '\n' !in text
    ensures LF !in Encode(d + ([sep] + text))
  {
    AsciiBytes(d + ([sep] + text), LF);
  }

  lemma LineCut(b: Bytes, rest: Bytes)
    requires LF !in b
    ensures var all := (b + CrLf()) + rest;
      LineEnd(all, 0) == |b| + 1 && StripCr(all[..|b| + 1]) == b && all[|b| + 2..] == rest
  {
    var all := (b + CrLf()) + rest;
    assert all[0..|b| + 1] == b + [13] && all[..|b| + 1] == b + [13];
    LineEndIs(all, 0, |b| + 1);
  }

  lemma OneReplyLine(code: nat, sep: char, text: string, rest: Bytes, end: End)
    requires 100 <= code <= 999 && (sep == ' ' || sep == '-') && '\n' !in text
    ensures ReplyOf((ReplyText(code, sep, text) + CrLf()) + rest, end)
         == if sep == ' ' then Answer(Code(code), rest) else ReplyOf(rest, end)
  {
    TextParts(code, sep, text);
    ThreeDigits(code);
    LineCut(ReplyText(code, sep, text), rest);
  }

  /** A printed reply of any number of lines reads as its code and leaves what follows it. */
  lemma {:induction false} PrintedReplyReads(code: nat, texts: seq<string>, rest: Bytes, end: End)
    requires 100 <= code <= 999 && texts != [] && forall k :: 0 <= k < |texts| ==> '\n' !in texts[k]
    ensures ReplyOf(PrintedReply(code, texts) + rest, end) == Answer(Code(code), rest)
    decreases |texts|
  {
    if |texts| == 1 {
      OneReplyLine(code, ' ', texts[0], rest, end);
    } else {
      var first, more := ReplyText(code, '-', texts[0]) + CrLf(), PrintedReply(code, texts[1..]);
      OneReplyLine(code, '-', texts[0], more + rest, end);
      PrintedReplyReads(code, texts[1..], rest, end);
      assert (first + more) + rest == first + (more + rest);
    }
  }
}

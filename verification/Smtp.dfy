/** The DATA payload of an SMTP session and its transparency (section 4.5.2 of RFC 5321). */
module Smtp {
  import opened Prelude

  // ----- sending ------------------------------------------------------------------------

  /** The source's `replace("\r\n", "\n")`. */
  function Normal(msg: string): string
    decreases |msg|
  {
    if msg == [] then []
    else if |msg| >= 2 && msg[0] == '\r' && msg[1] == '\n' then ['\n'] + Normal(msg[2..])
    else [msg[0]] + Normal(msg[1..])
  }

  function BreakAt(s: string, i: nat): (r: nat)
    requires i <= |s|
    ensures i <= r <= |s| && (r < |s| ==> s[r] == '\n') && forall k :: i <= k < r ==> s[k] != '\n'
    decreases |s| - i
  {
    if i == |s| || s[i] == '\n' then i else BreakAt(s, i + 1)
  }

  /** The source's `split('\n')`. */
  function Lines(s: string): seq<string>
    decreases |s|
  {
    var e := BreakAt(s, 0);
    if e == |s| then [s] else [s[..e]] + Lines(s[e + 1..])
  }

  function Joined(lines: seq<string>): string
    decreases |lines|
  {
    if lines == [] then [] else if |lines| == 1 then lines[0] else lines[0] + ['\n'] + Joined(lines[1..])
  }

  /** Splitting loses nothing, and no line holds a break. */
  lemma {:induction false} LinesJoin(s: string)
    ensures Lines(s) != [] && Joined(Lines(s)) == s && forall k :: 0 <= k < |Lines(s)| ==> '\n' !in Lines(s)[k]
    decreases |s|
  {
    var e := BreakAt(s, 0);
    if e < |s| {
      LinesJoin(s[e + 1..]);
      assert s == s[..e] + ['\n'] + s[e + 1..];
    }
  }

  function StripCr(line: string): string {
    if line != [] && line[|line| - 1] == '\r' then line[..|line| - 1] else line
  }

  /** Every line that a break follows loses one carriage return at its end. */
  function Stripped(lines: seq<string>): seq<string>
    decreases |lines|
  {
    if |lines| <= 1 then lines else [StripCr(lines[0])] + Stripped(lines[1..])
  }

  lemma {:induction false} NormalLine(line: string)
    requires '\n' !in line
    ensures Normal(line) == line
    decreases |line|
  {
    if line != [] {
      NormalLine(line[1..]);
      assert line == [line[0]] + line[1..];
    }
  }

  lemma {:induction false} NormalBreak(line: string, rest: string)
    requires '\n' !in line
    ensures Normal(line + (['\n'] + rest)) == StripCr(line) + (['\n'] + Normal(rest))
    decreases |line|
  {
    var s := line + (['\n'] + rest);
    if line == [] {
      assert s[1..] == rest;
    } else {
      assert s[1..] == line[1..] + (['\n'] + rest);
      if |line| == 1 && line[0] == '\r' {
        assert s[2..] == rest;
      } else {
        NormalBreak(line[1..], rest);
        StripFirst(line, ['\n'] + Normal(rest));
      }
    }
  }

  lemma StripFirst(line: string, tail: string)
    requires line != [] && (|line| > 1 || line[0] != '\r')
    ensures StripCr(line) + tail == [line[0]] + (StripCr(line[1..]) + tail)
  {
    assert StripCr(line) == [line[0]] + StripCr(line[1..]);
  }

  lemma FirstLine(line: string, rest: string)
    requires '\n' !in line
    ensures Lines(line + (['\n'] + rest)) == [line] + Lines(rest)
  {
    var s := line + (['\n'] + rest);
    assert s[|line|] == '\n';
    forall k | 0 <= k < |line| ensures s[k] != '\n' { assert s[k] == line[k]; }
    assert s[..|line|] == line && s[|line| + 1..] == rest;
  }

  /** The lines of the normalised text are the message's own, without the carriage return
      of each CRLF. */
  lemma {:induction false} NormalIsStripped(msg: string)
    ensures Lines(Normal(msg)) == Stripped(Lines(msg))
    decreases |msg|
  {
    var e := BreakAt(msg, 0);
    var line := msg[..e];
    if e == |msg| {
      NormalLine(msg);
    } else {
      var rest := msg[e + 1..];
      assert msg == line + (['\n'] + rest);
      NormalBreak(line, rest);
      NormalIsStripped(rest);
      FirstLine(StripCr(line), Normal(rest));
      FirstLine(line, rest);
      LinesJoin(rest);
    }
  }

  function Stuffed(line: string): string { if line != [] && line[0] == '.' then ['.'] + line else line }

  function CrLf(): string { ['\r', '\n'] }

  function Sent(lines: seq<string>): string
    decreases |lines|
  {
    if lines == [] then ['.'] + CrLf() else (Stuffed(lines[0]) + CrLf()) + Sent(lines[1..])
  }

  method DataBlock(msg: string) returns (out: string)
    ensures out == Sent(Lines(Normal(msg)))
  {
    out := [];
    var lines := Lines(Normal(msg));
    for k := 0 to |lines|
      invariant out + Sent(lines[k..]) == Sent(lines)
    {
      var line := lines[k];
      ghost var before := out;
      if |line| >= 1 && line[0] == '.' {
        out := out + ['.'];
        out := out + ['.'];
        out := out + line[1..];
      } else {
        out := out + line;
      }
      assert out == before + Stuffed(line);
      out := out + ['\r', '\n'];
      assert lines[k..][1..] == lines[k + 1..];
      Regroup(before, Stuffed(line), CrLf(), Sent(lines[k + 1..]));
    }
    out := out + ['.', '\r', '\n'];
  }

  lemma Regroup(a: string, b: string, c: string, d: string)
    ensures a + ((b + c) + d) == a + b + c + d
  {
  }

  // ----- receiving ------------------------------------------------------------------------

  /** The first CRLF at or after `i`, or `|s|`. */
  function CrLfAt(s: string, i: nat): (r: nat)
    requires i <= |s|
    ensures i <= r <= |s| && (r < |s| ==> r + 2 <= |s| && s[r] == '\r' && s[r + 1] == '\n')
    ensures forall k :: i <= k < r && k + 1 < |s| ==> !(s[k] == '\r' && s[k + 1] == '\n')
    decreases |s| - i
  {
    if i == |s| then i
    else if i + 1 < |s| && s[i] == '\r' && s[i + 1] == '\n' then i
    else CrLfAt(s, i + 1)
  }

  function Unstuffed(line: string): string { if line != [] && line[0] == '.' then line[1..] else line }

  datatype Received = Received(lines: seq<string>, rest: string)

  /** A receiving server: lines end at CRLF, a lone period ends the message, a leading
      period of any other line is dropped. */
  function Receive(s: string): Option<Received>
    decreases |s|
  {
    var e := CrLfAt(s, 0);
    if e == |s| then None
    else if s[..e] == ['.'] then Some(Received([], s[e + 2..]))
    else match Receive(s[e + 2..])
      case None => None
      case Some(more) => Some(Received([Unstuffed(s[..e])] + more.lines, more.rest))
  }

  lemma FirstCrLf(line: string, rest: string)
    requires '\n' !in line
    ensures var s := (line + CrLf()) + rest; CrLfAt(s, 0) == |line| && s[..|line|] == line && s[|line| + 2..] == rest
  {
    var s := (line + CrLf()) + rest;
    assert s[|line|] == '\r' && s[|line| + 1] == '\n';
    forall j | 0 < j <= |line| ensures s[j] != '\n' { assert j < |line| ==> s[j] == line[j]; }
  }

  lemma StuffedLine(line: string)
    ensures Stuffed(line) != ['.'] && Unstuffed(Stuffed(line)) == line && ('\n' !in line ==> '\n' !in Stuffed(line))
  {
  }

  /** What is received is what was sent, and it ends with the block's last line. */
  lemma {:induction false} SentIsReceived(lines: seq<string>, rest: string)
    requires forall k :: 0 <= k < |lines| ==> '\n' !in lines[k]
    ensures Receive(Sent(lines) + rest) == Some(Received(lines, rest))
    decreases |lines|
  {
    if lines == [] {
      FirstCrLf(['.'], rest);
    } else {
      var first, tail := Stuffed(lines[0]) + CrLf(), Sent(lines[1..]);
      SentIsReceived(lines[1..], rest);
      ReceiveLine(lines[0], tail + rest, lines[1..], rest);
      Assoc(first, tail, rest);
      assert [lines[0]] + lines[1..] == lines;
    }
  }

  lemma ReceiveLine(line: string, tail: string, lines: seq<string>, rest: string)
    requires '\n' !in line && Receive(tail) == Some(Received(lines, rest))
    ensures Receive((Stuffed(line) + CrLf()) + tail) == Some(Received([line] + lines, rest))
  {
    StuffedLine(line);
    FirstCrLf(Stuffed(line), tail);
  }

  /** Every message arrives as the lines of its normalised text, and nothing of it is left
      over: the lone period that ends it is the last line of the block. */
  lemma DataIsTransparent(msg: string)
    ensures Receive(Sent(Lines(Normal(msg)))) == Some(Received(Lines(Normal(msg)), []))
    ensures Joined(Lines(Normal(msg))) == Normal(msg)
  {
    LinesJoin(Normal(msg));
    SentIsReceived(Lines(Normal(msg)), []);
    assert Sent(Lines(Normal(msg))) + [] == Sent(Lines(Normal(msg)));
  }
}

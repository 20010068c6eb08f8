/** The incremental extractor of a final answer's text from streamed model output. */
module FinalStream {
  import opened Prelude
  import opened StreamText

  datatype Parse =
    | Scanning
    | InContent
    | Escaped
    | Unicode(rem: nat, acc: nat)
    | Done
    | Suppressed
    | Raw

  /** The extractor's fields. */
  datatype FS = FS(buf: string, pos: nat, state: Parse)

  // ----- locating the content -------------------------------------------------

  /** The quoted keys and the value that the protocol goes by. */
  datatype Protocol = Protocol(typeKey: string, finalValue: string, contentKey: string)

  const PROTOCOL := Protocol("\"type\"", "final", "\"content\"")

  /** Position just inside the string value of the quoted `key` at or after `i`, once it is open. */
  function KeyOpenQuote(s: string, key: string, i: nat): (r: Option<nat>)
    ensures r.Some? ==> i + 1 < r.value <= |s|
  {
    match Find(s, key, i)
    case None => None
    case Some(k) =>
      match FindChar(s, ':', k + |key|)
      case None => None
      case Some(colon) =>
        match FindChar(s, '"', colon + 1)
        case None => None
        case Some(q) => Some(q + 1)
  }

  /** The string value of the quoted `key` and the position past its closing quote. */
  function StringValue(s: string, key: string): (r: Option<(string, nat)>)
    ensures r.Some? ==> r.value.1 <= |s|
  {
    match KeyOpenQuote(s, key, 0)
    case None => None
    case Some(open) =>
      match FindChar(s, '"', open)
      case None => None
      case Some(close) => Some((s[open..close], close + 1))
  }

  datatype Target = NeedMore | NotFinal | ContentAt(offset: nat)

  /** What the text from the first brace on says about where the answer starts. */
  function Locate(pr: Protocol, s: string): (t: Target)
    ensures t.ContentAt? ==> 1 < t.offset <= |s|
  {
    match StringValue(s, pr.typeKey)
    case None => NeedMore
    case Some((value, end)) =>
      if value != pr.finalValue then NotFinal
      else match KeyOpenQuote(s, pr.contentKey, end)
        case None => NeedMore
        case Some(open) => ContentAt(open)
  }

  /** A way to locate the answer in the text from the first brace on. */
  type Locator = f: string -> Target | Bounded(f) witness (_ => NeedMore)

  ghost predicate Bounded(f: string -> Target) { forall s :: f(s).ContentAt? ==> 1 < f(s).offset <= |s| }

  function LocatorOf(pr: Protocol): Locator { s => Locate(pr, s) }

  /** The locator of the protocol. */
  function ByProtocol(): Locator { LocatorOf(PROTOCOL) }

  const RAW_AFTER := 64
  const GIVE_UP_AFTER := 4096

  /** One `scan`: the new position and state; still Scanning means more input is needed. */
  function Scan(loc: Locator, f: FS): (r: FS)
    requires f.state.Scanning? && f.pos <= |f.buf|
    ensures r.buf == f.buf && r.pos <= |r.buf|
    ensures r.state.Scanning? || r.state.InContent? || r.state.Suppressed? || r.state.Raw?
  {
    if f.pos == 0 && FindChar(f.buf, '{', 0).None? then
      if ByteLen(f.buf) >= RAW_AFTER then f.(state := Raw) else f
    else
      var at := if f.pos == 0 then FindChar(f.buf, '{', 0).value else f.pos;
      match loc(f.buf[at..])
      case ContentAt(o) => FS(f.buf, at + o, InContent)
      case NotFinal => FS(f.buf, at, Suppressed)
      case NeedMore => FS(f.buf, at, if ByteLen(f.buf) > GIVE_UP_AFTER then Suppressed else Scanning)
  }

  // ----- decoding -------------------------------------------------------------

  /** `char::from_u32`: None for surrogates and beyond the last code point. */
  function FromCode(v: nat): string {
    if v < 0xD800 || 0xE000 <= v < 0x11_0000 then [v as char] else ""
  }

  function Unescape(c: char): char {
    match c
    case 'b' => '\U{0008}'
    case 'f' => '\U{000C}'
    case 'n' => '\n'
    case 'r' => '\r'
    case 't' => '\t'
    case other => other
  }

  /** The state that takes no further input. */
  predicate Stopped(p: Parse) { p.Done? || p.Suppressed? || p.Scanning? }

  /** The effect of one character inside the content. */
  function Next(p: Parse, c: char): (Parse, string)
    requires !Stopped(p)
  {
    match p
    case Raw => (Raw, [c])
    case InContent => if c == '"' then (Done, "") else if c == '\\' then (Escaped, "") else (InContent, [c])
    case Escaped => if c == 'u' then (Unicode(4, 0), "") else (InContent, [Unescape(c)])
    case Unicode(rem, acc) =>
      match HexDigit(c)
      case None => (InContent, "")
      case Some(d) => if rem == 1 then (InContent, FromCode(acc * 16 + d))
                      else (Unicode(if rem > 0 then rem - 1 else 0, acc * 16 + d), "")
  }

  /** The state reached by reading `s` from state `p`. */
  function Reach(p: Parse, s: string): Parse
    decreases |s|
  {
    if s == "" || Stopped(p) then p else Reach(Next(p, s[0]).0, s[1..])
  }

  /** How many characters of `s` are read. */
  function Used(p: Parse, s: string): (n: nat)
    ensures n <= |s|
    decreases |s|
  {
    if s == "" || Stopped(p) then 0 else Used(Next(p, s[0]).0, s[1..]) + 1
  }

  /** What reading `s` emits. */
  function Output(p: Parse, s: string): string
    decreases |s|
  {
    if s == "" || Stopped(p) then "" else Next(p, s[0]).1 + Output(Next(p, s[0]).0, s[1..])
  }

  /** The fields after a chunk arrived and, if still scanning, was scanned. */
  function Located(loc: Locator, f: FS, chunk: string): (r: FS)
    requires f.pos <= |f.buf|
    ensures r.buf == f.buf + chunk && r.pos <= |r.buf|
  {
    var f1 := f.(buf := f.buf + chunk);
    if f1.state.Scanning? then Scan(loc, f1) else f1
  }

  function Settle(f: FS): (r: FS)
    requires f.pos <= |f.buf|
    ensures r.buf == f.buf && r.pos <= |r.buf|
  {
    FS(f.buf, f.pos + Used(f.state, f.buf[f.pos..]), Reach(f.state, f.buf[f.pos..]))
  }

  /** The fields after one `push`. */
  function Push(loc: Locator, f: FS, chunk: string): (r: FS)
    requires f.pos <= |f.buf|
    ensures r.buf == f.buf + chunk && r.pos <= |r.buf|
  {
    Settle(Located(loc, f, chunk))
  }

  /** The text one `push` emits. */
  function Emits(loc: Locator, f: FS, chunk: string): string
    requires f.pos <= |f.buf|
  {
    var l := Located(loc, f, chunk);
    Output(l.state, l.buf[l.pos..])
  }

  function PushAll(loc: Locator, f: FS, chunks: seq<string>): (r: FS)
    requires f.pos <= |f.buf|
    ensures r.pos <= |r.buf|
  {
    if chunks == [] then f else Push(loc, PushAll(loc, f, chunks[..|chunks| - 1]), chunks[|chunks| - 1])
  }

  /** The concatenation of what the pushes emit. */
  function EmitsAll(loc: Locator, f: FS, chunks: seq<string>): string
    requires f.pos <= |f.buf|
  {
    if chunks == [] then ""
    else
      var before := chunks[..|chunks| - 1];
      EmitsAll(loc, f, before) + Emits(loc, PushAll(loc, f, before), chunks[|chunks| - 1])
  }

  function Concat(chunks: seq<string>): string {
    if chunks == [] then "" else Concat(chunks[..|chunks| - 1]) + chunks[|chunks| - 1]
  }

  // ----- the extractor as the program runs it -----------------------------------

  /** One character at position `at`. */
  lemma ReadStep(p: Parse, text: string, at: nat)
    requires at < |text| && !Stopped(p)
    ensures var (next, o) := Next(p, text[at]);
            && Reach(p, text[at..]) == Reach(next, text[at + 1..])
            && Used(p, text[at..]) == Used(next, text[at + 1..]) + 1
            && Output(p, text[at..]) == o + Output(next, text[at + 1..])
  {
    assert text[at..][0] == text[at] && text[at..][1..] == text[at + 1..];
  }

  lemma ReadNothing(p: Parse, text: string, at: nat)
    requires at <= |text| && (at == |text| || Stopped(p))
    ensures Reach(p, text[at..]) == p && Used(p, text[at..]) == 0 && Output(p, text[at..]) == ""
  {
  }

  class Extractor {
    const loc: Locator
    var buf: string
    var pos: nat
    var state: Parse

    ghost predicate Valid()
      reads this
    {
      pos <= |buf|
    }

    ghost function Fields(): FS
      reads this
    {
      FS(buf, pos, state)
    }

    constructor ()
      ensures Valid() && Fields() == FS("", 0, Scanning) && loc == ByProtocol()
    {
      loc := ByProtocol();
      buf, pos, state := "", 0, Scanning;
    }

    method ScanOnce() returns (moved: bool)
      requires Valid() && state.Scanning?
      modifies this
      ensures Valid() && Fields() == Scan(loc, old(Fields()))
      ensures moved == !state.Scanning?
    {
      if pos == 0 {
        var brace := FindChar(buf, '{', 0);
        if brace.None? {
          if ByteLen(buf) >= 64 { state := Raw; }
          return !state.Scanning?;
        }
        pos := brace.value;
      }
      match loc(buf[pos..]) {
        case ContentAt(offset) =>
          pos := pos + offset;
          state := InContent;
        case NotFinal => state := Suppressed;
        case NeedMore =>
          if ByteLen(buf) > 4096 { state := Suppressed; } else { return false; }
      }
      moved := true;
    }

    method PushChunk(chunk: string) returns (emitted: Option<string>)
      requires Valid()
      modifies this
      ensures Valid() && Fields() == Push(loc, old(Fields()), chunk)
      ensures var out := Emits(loc, old(Fields()), chunk);
              emitted == if state.Raw? || out != "" then Some(out) else None
    {
      buf := buf + chunk;
      if state.Scanning? {
        var moved := ScanOnce();
        if !moved { return None; }
      }
      var out;
      out := Drain();
      emitted := if state.Raw? || out != "" then Some(out) else None;
    }

    /** Consume the buffer until it ends or the state takes no more. */
    method Drain() returns (out: string)
      requires Valid() && !state.Scanning?
      modifies this
      ensures Valid() && Fields() == Settle(old(Fields()))
      ensures out == Output(old(state), old(buf[pos..]))
    {
      var text, start, first := buf, pos, state;
      var at, p := start, first;
      out := "";
      assert "" + Output(p, text[at..]) == Output(p, text[at..]);
      while !Stopped(p) && at < |text|
        invariant buf == text && start <= at <= |text| && !p.Scanning?
        invariant Reach(first, text[start..]) == Reach(p, text[at..])
        invariant Used(first, text[start..]) == at - start + Used(p, text[at..])
        invariant Output(first, text[start..]) == out + Output(p, text[at..])
      {
        var (next, o) := Next(p, text[at]);
        ReadStep(p, text, at);
        Assoc(out, o, Output(next, text[at + 1..]));
        out := out + o;
        p := next;
        at := at + 1;
      }
      ReadNothing(p, text, at);
      assert out + "" == out;
      state, pos := p, at;
    }
  }
}

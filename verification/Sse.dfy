/** Server-sent events of a streamed completion: the line decoder and the event machine. */
module Sse {
  import opened Prelude
  import opened ByteLines

  // ----- the decoder -----------------------------------------------------------------------

  /** How bytes read as text and payloads as JSON is left to the host: `lossy` stands for
      `String::from_utf8_lossy`, `read` for what the source looks up in a payload. */
  datatype Host = Host(lossy: Bytes -> string, read: string -> Option<Payload>)

  datatype Payload = Payload(model: Option<string>, usage: Option<Usage>, delta: string, finishes: bool)

  /** A usage object: its two counts, where they are unsigned 64-bit numbers. */
  datatype Usage = Usage(prompt: Option<nat>, completion: Option<nat>)

  function Prefix(): string { "data:" }

  /** What one raw line, with its line feed, adds to the queue. */
  function LineData(h: Host, raw: Bytes): seq<string> {
    var line := TrimStart(TrimEnd(h.lossy(raw)));
    if Prefix() <= line then [Trim(line[|Prefix()|..])] else []
  }

  /** The payloads of all complete lines. */
  function Data(h: Host, all: Bytes): seq<string>
    decreases |all|
  {
    var e := LineEnd(all, 0);
    if e == |all| then [] else LineData(h, all[..e + 1]) + Data(h, all[e + 1..])
  }

  /** What follows the last line feed. */
  function Rest(all: Bytes): Bytes
    decreases |all|
  {
    var e := LineEnd(all, 0);
    if e == |all| then all else Rest(all[e + 1..])
  }

  class Decoder {
    var buf: Bytes
    var data: seq<string>

    constructor ()
      ensures buf == [] && data == []
    {
      buf, data := [], [];
    }

    method Push(h: Host, chunk: Bytes)
      modifies this
      ensures buf == Rest(old(buf) + chunk)
      ensures data == old(data) + Data(h, old(buf) + chunk)
    {
      buf := buf + chunk;
      ghost var all := buf;
      while true
        invariant Rest(buf) == Rest(all) && data + Data(h, buf) == old(data) + Data(h, all)
        decreases |buf|
      {
        var pos := LineEnd(buf, 0);
        if pos == |buf| { break; }
        var raw := buf[..pos + 1];
        NextLine(h, buf);
        Assoc(data, LineData(h, raw), Data(h, buf[pos + 1..]));
        buf := buf[pos + 1..];
        Keep(h, raw);
      }
      NothingYet(h, buf, []);
    }

    /** The body of its loop. */
    method Keep(h: Host, raw: Bytes)
      modifies this`data
      ensures data == old(data) + LineData(h, raw)
    {
      var line := TrimEnd(h.lossy(raw));
      var start := TrimStart(line);
      if Prefix() <= start { data := data + [Trim(start[|Prefix()|..])]; }
    }
  }

  lemma NextLine(h: Host, all: Bytes)
    requires LineEnd(all, 0) < |all|
    ensures var e := LineEnd(all, 0);
      Data(h, all) == LineData(h, all[..e + 1]) + Data(h, all[e + 1..]) && Rest(all) == Rest(all[e + 1..])
  {
  }

  /** Feeding `b` after `a` continues from what `a` left. */
  predicate Continues(h: Host, a: Bytes, b: Bytes, both: Bytes) {
    Rest(Rest(a) + b) == Rest(both) && Data(h, a) + Data(h, Rest(a) + b) == Data(h, both)
  }

  lemma {:induction false} DataSplits(h: Host, a: Bytes, b: Bytes)
    ensures Continues(h, a, b, a + b)
    decreases |a|
  {
    var e := LineEnd(a, 0);
    if e < |a| {
      LineEndIn(a, b, 0);
      assert (a + b)[..e + 1] == a[..e + 1] && (a + b)[e + 1..] == a[e + 1..] + b;
      DataSplits(h, a[e + 1..], b);
      LineBefore(h, a, b, a + b, a[e + 1..]);
    } else {
      NothingYet(h, a, Data(h, a + b));
    }
  }

  lemma LineBefore(h: Host, a: Bytes, b: Bytes, both: Bytes, more: Bytes)
    requires LineEnd(a, 0) < |a| && LineEnd(both, 0) == LineEnd(a, 0) < |both|
    requires both[..LineEnd(a, 0) + 1] == a[..LineEnd(a, 0) + 1]
    requires more == a[LineEnd(a, 0) + 1..] && Continues(h, more, b, both[LineEnd(a, 0) + 1..])
    ensures Continues(h, a, b, both)
  {
    var line, tail := a[..LineEnd(a, 0) + 1], both[LineEnd(a, 0) + 1..];
    assert Data(h, a) == LineData(h, line) + Data(h, more) && Rest(a) == Rest(more)
      && Data(h, both) == LineData(h, line) + Data(h, tail) && Rest(both) == Rest(tail)
    by {
      NextLine(h, a);
      NextLine(h, both);
    }
    AfterLine(h, LineData(h, line), a, b, both, more, tail);
  }

  /** A line that opens both texts. */
  lemma AfterLine(h: Host, line: seq<string>, a: Bytes, b: Bytes, both: Bytes, more: Bytes, tail: Bytes)
    requires Data(h, a) == line + Data(h, more) && Rest(a) == Rest(more)
    requires Data(h, both) == line + Data(h, tail) && Rest(both) == Rest(tail)
    requires Continues(h, more, b, tail)
    ensures Continues(h, a, b, both)
  {
    Assoc(line, Data(h, more), Data(h, Rest(a) + b));
  }

  lemma NothingYet(h: Host, a: Bytes, d: seq<string>)
    requires LineEnd(a, 0) == |a|
    ensures Data(h, a) + d == d && Rest(a) == a
  {
  }

  /** The queue and buffer after two pushes are those after one push of both chunks. */
  lemma PushSplits(h: Host, buf: Bytes, a: Bytes, b: Bytes)
    ensures Continues(h, buf + a, b, buf + (a + b))
  {
    DataSplits(h, buf + a, b);
    assert (buf + a) + b == buf + (a + b);
  }

  // ----- handling payloads ----------------------------------------------------------------------

  /** What a response says of a usage object, or of none: counts cut to 32 bits. */
  datatype Tokens = Tokens(input: Option<nat>, output: Option<nat>)

  function Low32(v: Option<nat>): Option<nat> { if v.Some? then Some(v.value % 0x1_0000_0000) else None }

  function TokensOf(u: Option<Usage>): Tokens {
    if u.Some? then Tokens(Low32(u.value.prompt), Low32(u.value.completion)) else Tokens(None, None)
  }

  datatype Active = Active(events: seq<string>, text: string, model: Option<string>, tokens: Tokens, finished: bool)

  datatype Response = Response(text: string, model: Option<string>, tokens: Tokens)

  function ResponseOf(s: Active): Response { Response(s.text, s.model, s.tokens) }

  const INITIAL := Active([], [], None, Tokens(None, None), false)

  predicate IsEnd(data: string) { Trim(data) == "[DONE]" }

  function Handle(h: Host, s: Active, data: string): Active {
    if IsEnd(data) then s.(finished := true)
    else match h.read(data)
      case None => s
      case Some(v) =>
        Active(if v.delta == [] then s.events else s.events + [v.delta],
               s.text + v.delta,
               if v.model.Some? then v.model else s.model,
               if v.usage.Some? then TokensOf(v.usage) else s.tokens,
               s.finished || v.finishes)
  }

  function HandleAll(h: Host, s: Active, data: seq<string>): Active
    decreases |data|
  {
    if data == [] then s else HandleAll(h, Handle(h, s, data[0]), data[1..])
  }

  // ----- the events still to come ------------------------------------------------------------------

  datatype Read = Chunk(bytes: Bytes) | Broken

  datatype Event = Delta(text: string) | Done(response: Response) | Error

  /** Everything `next` will emit: queued deltas first; then the response once finished or
      the stream is over; otherwise what the next read brings. */
  function Remaining(h: Host, s: Active, buf: Bytes, incoming: seq<Read>): seq<Event>
    decreases |incoming|, |s.events|
  {
    if s.events != [] then [Delta(s.events[0])] + Remaining(h, s.(events := s.events[1..]), buf, incoming)
    else if s.finished || incoming == [] then [Done(ResponseOf(s))]
    else match incoming[0]
      case Broken => [Error]
      case Chunk(bytes) => Remaining(h, HandleAll(h, s, Data(h, buf + bytes)), Rest(buf + bytes), incoming[1..])
  }

  datatype Phase = Connecting(accepted: bool) | Streaming | Over

  /** The source's `SseState`, with the state of `ActiveSse` in its fields. */
  class Session {
    const host: Host
    var phase: Phase
    var incoming: seq<Read>
    const decoder: Decoder
    var events: seq<string>
    var text: string
    var model: Option<string>
    var usage: Option<Usage>
    var finished: bool

    /** `accepted` says whether the request got a successful response. */
    constructor (host: Host, accepted: bool, incoming: seq<Read>)
      ensures this.host == host && fresh(decoder) && Valid()
      ensures Left() == if accepted then Remaining(host, INITIAL, [], incoming) else [Error]
    {
      this.host := host;
      phase := Connecting(accepted);
      this.incoming := incoming;
      decoder := new Decoder();
      events, text, model, usage, finished := [], [], None, None, false;
    }

    ghost predicate Valid()
      reads this, decoder
    {
      decoder.data == []
    }

    function Now(): Active
      reads this
    {
      Active(events, text, model, TokensOf(usage), finished)
    }

    ghost function Left(): seq<Event>
      reads this, decoder
    {
      match phase
      case Over => []
      case Connecting(accepted) => if accepted then Remaining(host, Now(), decoder.buf, incoming) else [Error]
      case Streaming => Remaining(host, Now(), decoder.buf, incoming)
    }

    method HandleData(data: string)
      modifies this`events, this`text, this`model, this`usage, this`finished
      ensures Now() == Handle(host, old(Now()), data)
    {
      if IsEnd(data) {
        finished := true;
        return;
      }
      match host.read(data)
      case None =>
      case Some(v) =>
        if v.model.Some? { model := v.model; }
        if v.usage.Some? { usage := v.usage; }
        assert text + [] == text;
        if v.delta != [] {
          text := text + v.delta;
          events := events + [v.delta];
        }
        if v.finishes { finished := true; }
    }

    /** The source's `next`: it emits exactly the events that are left, one a call. */
    method Next() returns (ev: Option<Event>)
      requires Valid()
      modifies this, decoder
      ensures Valid()
      ensures if old(Left()) == [] then ev == None && Left() == []
              else ev == Some(old(Left())[0]) && Left() == old(Left())[1..]
    {
      ghost var left := Left();
      while true
        invariant Valid() && Left() == left
        decreases if phase.Connecting? then 1 else 0, |incoming|, if finished then 0 else 1
      {
        match phase
        case Over => return None;
        case Connecting(accepted) =>
          if !accepted {
            phase := Over;
            return Some(Error);
          }
          phase := Streaming;
        case Streaming =>
          if events != [] {
            ev := Some(Delta(events[0]));
            events := events[1..];
            assert left == [ev.value] + Left();
            return;
          }
          if finished {
            ev := Some(Done(ResponseOf(Now())));
            phase := Over;
            return;
          }
          if incoming == [] {
            finished := true;
          } else {
            match incoming[0]
            case Broken =>
              phase := Over;
              return Some(Error);
            case Chunk(bytes) =>
              incoming := incoming[1..];
              TakeChunk(bytes);
          }
      }
      ev := None;
    }

    method TakeChunk(bytes: Bytes)
      requires Valid()
      modifies this`events, this`text, this`model, this`usage, this`finished, decoder
      ensures Valid() && decoder.buf == Rest(old(decoder.buf) + bytes)
      ensures Now() == HandleAll(host, old(Now()), Data(host, old(decoder.buf) + bytes))
    {
      ghost var d := Data(host, decoder.buf + bytes);
      decoder.Push(host, bytes);
      assert [] + d == d && decoder.data == d;
      TakeAll();
    }

    /** The inner loop over the decoder's queue. */
    method TakeAll()
      modifies this`events, this`text, this`model, this`usage, this`finished, decoder`data
      ensures decoder.data == [] && Now() == HandleAll(host, old(Now()), old(decoder.data))
    {
      while decoder.data != []
        invariant HandleAll(host, Now(), decoder.data) == HandleAll(host, old(Now()), old(decoder.data))
        decreases |decoder.data|
      {
        var data := decoder.data[0];
        decoder.data := decoder.data[1..];
        HandleData(data);
      }
    }
  }
}

/** Which lines of a stream carry a payload, and what a whole stream of payloads tells. */
module SsePayloads {
  import opened Prelude
  import opened Trimming
  import opened ByteLines
  import opened Utf8
  import opened Sse
  import opened SseResults

  // ----- lines ---------------------------------------------------------------------------

  /** `t` is `pre` and then `p`, but for white space around both. */
  ghost predicate Around(pre: string, t: string, p: string) {
    Trimmed(p) && exists lead, gap, tail :: Wraps(pre, t, p, lead, gap, tail)
  }

  predicate Wraps(pre: string, t: string, p: string, lead: string, gap: string, tail: string) {
    AllSpace(lead) && AllSpace(gap) && AllSpace(tail) && t == lead + (pre + (gap + (p + tail)))
  }

  /** What the decoder makes of a line's text, for any prefix. */
  function Behind(pre: string, t: string): Option<string> {
    var line := TrimStart(TrimEnd(t));
    if pre <= line then Some(Trim(line[|pre|..])) else None
  }

  lemma WrappedReads(pre: string, t: string, p: string, lead: string, gap: string, tail: string)
    requires pre != [] && Trimmed(pre) && Trimmed(p) && Wraps(pre, t, p, lead, gap, tail)
    requires p == [] ==> gap == []
    ensures Behind(pre, t) == Some(p)
  {
    var body := pre + (gap + p);
    assert t == (lead + body) + tail;
    assert body[|body| - 1] == if p == [] then pre[|pre| - 1] else p[|p| - 1];
    TrimEndOf(lead + body, tail);
    TrimStartOf(lead, body);
    assert body[|pre|..] == gap + (p + []);
    TrimOf(gap, p, []);
  }

  lemma AroundReads(pre: string, t: string, p: string)
    requires pre != [] && Trimmed(pre) && Around(pre, t, p)
    ensures Behind(pre, t) == Some(p)
  {
    var lead, gap, tail :| Wraps(pre, t, p, lead, gap, tail);
    if p == [] {
      assert gap + (p + tail) == [] + (p + (gap + tail));
      assert Wraps(pre, t, p, lead, [], gap + tail);
      WrappedReads(pre, t, p, lead, [], gap + tail);
    } else {
      WrappedReads(pre, t, p, lead, gap, tail);
    }
  }

  lemma {:induction false} BehindIsAround(pre: string, t: string, p: string)
    requires Behind(pre, t) == Some(p)
    ensures Around(pre, t, p)
  {
    var tail := EndTrimmed(t);
    var lead := StartTrimmed(TrimEnd(t));
    var line := TrimStart(TrimEnd(t));
    var rest := line[|pre|..];
    var gap := StartTrimmed(rest);
    var tail' := EndTrimmed(TrimStart(rest));
    TrimShape(rest);
    assert line == pre + rest;
    assert rest == gap + (p + tail');
    assert TrimEnd(t) == lead + (pre + (gap + (p + tail')));
    assert t == (lead + (pre + (gap + (p + tail')))) + tail;
    Regrouped(lead, pre, gap, p, tail', tail);
    assert Wraps(pre, t, p, lead, gap, tail' + tail);
  }

  lemma Regrouped(a: string, b: string, c: string, d: string, e: string, f: string)
    ensures (a + (b + (c + (d + e)))) + f == a + (b + (c + (d + (e + f))))
  {
    Assoc(d, e, f);
    Assoc(c, d + e, f);
    Assoc(b, c + (d + e), f);
    Assoc(a, b + (c + (d + e)), f);
  }

  /** A line queues `p` if and only if its text is `data:` and `p`, up to white space at its
      ends and between them; any other line queues nothing. */
  lemma LineDataIs(h: Host, raw: Bytes, p: string)
    ensures LineData(h, raw) == [p] <==> Around("data:", h.lossy(raw), p)
    ensures LineData(h, raw) == [] <==> forall q :: !Around("data:", h.lossy(raw), q)
  {
    var t := h.lossy(raw);
    assert LineData(h, raw) == match Behind("data:", t) case Some(q) => [q] case None => [];
    forall q ensures Around("data:", t, q) <==> Behind("data:", t) == Some(q) {
      BehindAround(t, q);
    }
    if Behind("data:", t).Some? { assert Around("data:", t, Behind("data:", t).value); }
  }

  lemma BehindAround(t: string, q: string)
    ensures Around("data:", t, q) <==> Behind("data:", t) == Some(q)
  {
    if Around("data:", t, q) { AroundReads("data:", t, q); }
    if Behind("data:", t) == Some(q) { BehindIsAround("data:", t, q); }
  }

  // ----- streams of payloads -----------------------------------------------------------------

  /** Text written as UTF-8 is read as it is. */
  ghost predicate Faithful(h: Host) { forall s: string :: h.lossy(Encode(s)) == s }

  /** One line of text, and no white space at its ends. */
  predicate OneLine(p: string) { Trimmed(p) && '\n' !in p }

  /** A payload as an event of its own, as servers send it: the line and a blank one. */
  function EventBytes(p: string): Bytes { Encode("data: " + p) + [10, 10] }

  function Sent(event: string -> Bytes, ps: seq<string>): Bytes
    decreases |ps|
  {
    if ps == [] then [] else event(ps[0]) + Sent(event, ps[1..])
  }

  lemma NewLine(s: string)
    ensures Encode(s + ['\n']) == Encode(s) + [10]
  {
    EncodeConcat(s, ['\n']);
    assert ['\n'][1..] == [];
    assert Encode(['\n']) == EncodeChar('\n') + [] == [10];
  }

  lemma LineWritten(text: string, more: Bytes)
    requires '\n' !in text
    ensures LineEnd((Encode(text) + [10]) + more, 0) == |Encode(text)|
  {
    var b := Encode(text);
    var all := (b + [10]) + more;
    AsciiBytes(text, 10);
    assert all[0..|b|] == b;
    LineEndIs(all, 0, |b|);
  }

  lemma AnyLine(h: Host, text: string, more: Bytes)
    requires Faithful(h) && '\n' !in text
    ensures Data(h, (Encode(text) + [10]) + more) == LineData(h, Encode(text + ['\n'])) + Data(h, more)
  {
    var line := Encode(text) + [10];
    NewLine(text);
    LineWritten(text, []);
    assert line + [] == line;
    DataOfLine(h, line, more);
  }

  lemma PayloadWritten(h: Host, pre: string, p: string)
    requires Faithful(h) && OneLine(p) && pre == "data:"
    ensures LineData(h, Encode(pre + [' '] + p + ['\n'])) == [p]
  {
    var t := pre + [' '] + p + ['\n'];
    assert t == [] + (pre + ([' '] + (p + ['\n'])));
    assert Wraps(pre, t, p, [], [' '], ['\n']);
    assert h.lossy(Encode(t)) == t;
    LineDataIs(h, Encode(t), p);
  }

  lemma BlankWritten(h: Host)
    requires Faithful(h)
    ensures LineData(h, Encode([] + ['\n'])) == []
  {
    var t := [] + ['\n'];
    assert h.lossy(Encode(t)) == t;
    SpaceTrimmed(t);
    TrimEndOf([], t);
    assert [] + t == t;
  }

  lemma TwoBreaks(b: Bytes, more: Bytes)
    ensures (b + [10, 10]) + more == (b + [10]) + (([] + [10]) + more)
  {
    assert b + [10, 10] == (b + [10]) + [10];
    Assoc(b + [10], [10], more);
  }

  lemma EventData(h: Host, pre: string, text: string, p: string, more: Bytes)
    requires Faithful(h) && OneLine(p) && pre == "data:" && text == pre + [' '] + p && '\n' !in text
    ensures Data(h, (Encode(text) + [10, 10]) + more) == [p] + Data(h, more)
  {
    var blank: Bytes := [] + [10];
    TwoBreaks(Encode(text), more);
    AnyLine(h, text, blank + more);
    PayloadWritten(h, pre, p);
    BlankData(h, more);
  }

  lemma BlankData(h: Host, more: Bytes)
    requires Faithful(h)
    ensures Data(h, ([] + [10]) + more) == Data(h, more)
  {
    AnyLine(h, [], more);
    BlankWritten(h);
    assert [] + Data(h, more) == Data(h, more);
  }

  lemma Spaced(p: string)
    requires '\n' !in p
    ensures "data: " + p == "data:" + [' '] + p && '\n' !in "data: " + p
  {
  }

  predicate ReadsFirst(h: Host, event: string -> Bytes, p: string, more: Bytes) {
    OneLine(p) ==> Data(h, event(p) + more) == [p] + Data(h, more)
  }

  lemma FirstEvent(h: Host, p: string, more: Bytes)
    requires Faithful(h)
    ensures ReadsFirst(h, EventBytes, p, more)
  {
    if OneLine(p) {
      Spaced(p);
      EventData(h, "data:", "data: " + p, p, more);
    }
  }

  /** A stream of payloads is read as those payloads. */
  lemma {:induction false} SentReads(h: Host, event: string -> Bytes, ps: seq<string>)
    requires (forall p, more :: ReadsFirst(h, event, p, more)) && forall p :: p in ps ==> OneLine(p)
    ensures Data(h, Sent(event, ps)) == ps
    decreases |ps|
  {
    if ps == [] {
      NoData(h, []);
    } else {
      var first, rest := ps[0], ps[1..];
      assert OneLine(first) && ReadsFirst(h, event, first, Sent(event, rest));
      SentReads(h, event, rest);
      assert ps == [first] + rest;
    }
  }

  lemma SentData(h: Host, ps: seq<string>)
    requires Faithful(h) && forall p :: p in ps ==> OneLine(p)
    ensures Data(h, Sent(EventBytes, ps)) == ps
  {
    forall p, more ensures ReadsFirst(h, EventBytes, p, more) { FirstEvent(h, p, more); }
    SentReads(h, EventBytes, ps);
  }

  // ----- what a stream tells --------------------------------------------------------------------

  /** The payloads that can be read. */
  function Readable(h: Host, ps: seq<string>): seq<Payload> {
    if ps == [] then []
    else Readable(h, ps[..|ps| - 1])
         + match h.read(ps[|ps| - 1]) case Some(v) => [v] case None => []
  }

  /** The texts of the payloads that have any. */
  function Shown(vs: seq<Payload>): seq<string> {
    if vs == [] then [] else Shown(vs[..|vs| - 1]) + if vs[|vs| - 1].delta == [] then [] else [vs[|vs| - 1].delta]
  }

  function LastModel(vs: seq<Payload>): Option<string> {
    if vs == [] then None else if vs[|vs| - 1].model.Some? then vs[|vs| - 1].model else LastModel(vs[..|vs| - 1])
  }

  function LastUsage(vs: seq<Payload>): Option<Usage> {
    if vs == [] then None else if vs[|vs| - 1].usage.Some? then vs[|vs| - 1].usage else LastUsage(vs[..|vs| - 1])
  }

  /** A count as the response reports it, in 32 bits. */
  function Count(v: Option<nat>): Option<nat> { match v case None => None case Some(n) => Some(n % 4294967296) }

  /** The response to what was told: all text, the last model, and of the last usage object
      the prompt's tokens as input and the completion's as output. */
  function Answer(vs: seq<Payload>): Response {
    Response(Concat(Shown(vs)), LastModel(vs),
      match LastUsage(vs)
      case None => Tokens(None, None)
      case Some(u) => Tokens(Count(u.prompt), Count(u.completion)))
  }

  predicate Tells(s: Active, vs: seq<Payload>) { s.events == Shown(vs) && ResponseOf(s) == Answer(vs) }

  /** The state after payloads none of which ends the stream. */
  lemma {:induction false} Accumulates(h: Host, ps: seq<string>)
    requires forall p :: p in ps ==> !IsEnd(p)
    ensures Tells(HandleAll(h, INITIAL, ps), Readable(h, ps))
  {
    if ps != [] {
      var before, p := ps[..|ps| - 1], ps[|ps| - 1];
      Accumulates(h, before);
      HandledLast(h, before, p);
      assert ps == before + [p] && !IsEnd(p);
      TellsMore(h, HandleAll(h, INITIAL, before), Readable(h, before), p);
    }
  }

  lemma TellsMore(h: Host, s: Active, vs: seq<Payload>, p: string)
    requires Tells(s, vs) && !IsEnd(p)
    ensures Tells(Handle(h, s, p), vs + match h.read(p) case Some(v) => [v] case None => [])
  {
    match h.read(p)
    case None => assert vs + [] == vs;
    case Some(v) => Told(vs, v, s, Handle(h, s, p));
  }

  lemma HandledLast(h: Host, ps: seq<string>, p: string)
    ensures HandleAll(h, INITIAL, ps + [p]) == Handle(h, HandleAll(h, INITIAL, ps), p)
  {
    HandleAllConcat(h, INITIAL, ps, [p]);
    assert [p][1..] == [];
  }

  lemma Told(vs: seq<Payload>, v: Payload, s: Active, t: Active)
    requires s.events == Shown(vs) && ResponseOf(s) == Answer(vs)
    requires t.events == (if v.delta == [] then s.events else s.events + [v.delta]) && t.text == s.text + v.delta
    requires t.model == (if v.model.Some? then v.model else s.model)
    requires t.tokens == if v.usage.Some? then TokensOf(v.usage) else s.tokens
    ensures t.events == Shown(vs + [v]) && ResponseOf(t) == Answer(vs + [v])
  {
    assert (vs + [v])[..|vs|] == vs;
    ConcatAppend(Shown(vs), v.delta);
    assert v.delta == [] ==> Shown(vs) + [] == Shown(vs) && s.text + [] == s.text;
  }

  lemma ReadsSplit(chunks: seq<Bytes>, more: seq<Read>)
    requires chunks != []
    ensures Reads(chunks) + more == [Chunk(chunks[0])] + (Reads(chunks[1..]) + more)
  {
  }

  lemma {:induction false} ReadsOn(h: Host, s: Active, buf: Bytes, bytes: Bytes, more: seq<Read>)
    requires !s.finished && s.events == []
    ensures var t := HandleAll(h, s, Data(h, buf + bytes));
      Remaining(h, s, buf, [Chunk(bytes)] + more) == Remaining(h, t, Rest(buf + bytes), more)
  {
    assert ([Chunk(bytes)] + more)[1..] == more;
  }

  lemma {:induction false} OneReadMore(h: Host, s: Active, buf: Bytes, chunks: seq<Bytes>, more: seq<Read>)
    requires chunks != [] && !s.finished && s.events == []
    ensures Remaining(h, s, buf, Reads(chunks) + more)
         == Remaining(h, HandleAll(h, s, Data(h, buf + chunks[0])), Rest(buf + chunks[0]), Reads(chunks[1..]) + more)
  {
    ReadsSplit(chunks, more);
    ReadsOn(h, s, buf, chunks[0], Reads(chunks[1..]) + more);
  }

  /** Reads that make no difference to a state without queued deltas make none with some. */
  lemma DrainsAlike(h: Host, t: Active, buf: Bytes, a: seq<Read>, b: seq<Read>)
    requires t.finished || Remaining(h, t.(events := []), buf, a) == Remaining(h, t.(events := []), buf, b)
    ensures Remaining(h, t, buf, a) == Remaining(h, t, buf, b)
  {
    if t.finished {
      FinishedDrains(h, t, buf, a);
      FinishedDrains(h, t, buf, b);
    } else {
      Drains(h, t, buf, a);
      Drains(h, t, buf, b);
    }
  }

  /** Once the stream is finished, nothing more is read. */
  lemma {:induction false} FinishedReads(h: Host, s: Active, buf: Bytes, chunks: seq<Bytes>, more: seq<Read>)
    requires !s.finished && s.events == [] && LineEnd(buf, 0) == |buf|
    requires HandleAll(h, s, Data(h, buf + Flat(chunks))).finished
    ensures Remaining(h, s, buf, Reads(chunks) + more) == Remaining(h, s, buf, Reads(chunks))
    decreases |chunks|
  {
    if chunks == [] {
      assert buf + Flat(chunks) == buf;
      NoData(h, buf);
    } else {
      var rest := Rest(buf + chunks[0]);
      var t := HandleAll(h, s, Data(h, buf + chunks[0]));
      if !t.finished {
        RestHasNoLine(buf + chunks[0]);
        StillToFinish(h, s, t, buf, chunks);
        FinishedReads(h, t.(events := []), rest, chunks[1..], more);
      }
      DrainsAlike(h, t, rest, Reads(chunks[1..]) + more, Reads(chunks[1..]));
      OneRead(h, s, buf, chunks);
      OneReadMore(h, s, buf, chunks, more);
    }
  }

  lemma StillToFinish(h: Host, s: Active, t: Active, buf: Bytes, chunks: seq<Bytes>)
    requires chunks != [] && LineEnd(buf, 0) == |buf| && t == HandleAll(h, s, Data(h, buf + chunks[0]))
    requires HandleAll(h, s, Data(h, buf + Flat(chunks))).finished
    ensures HandleAll(h, t.(events := []), Data(h, Rest(buf + chunks[0]) + Flat(chunks[1..]))).finished
  {
    var later := Data(h, Rest(buf + chunks[0]) + Flat(chunks[1..]));
    PushSplits(h, buf, chunks[0], Flat(chunks[1..]));
    HandleAllConcat(h, s, Data(h, buf + chunks[0]), later);
    FinishesLater(h, t, later);
  }

  /** Whether payloads finish a stream does not depend on what is queued. */
  lemma FinishesLater(h: Host, t: Active, data: seq<string>)
    ensures HandleAll(h, t.(events := []), data).finished == HandleAll(h, t, data).finished
  {
    var empty := t.(events := []);
    assert Queued(t.events, empty) == t by { assert t.events + [] == t.events; }
    HandleAllQueued(h, t.events, empty, data);
  }

  /** Payloads that end with the end marker and none of which finishes before, sent as events
      and cut into reads in any way, with anything behind them: their texts one by one, and
      then the response to all of them. */
  lemma StreamTells(h: Host, ps: seq<string>, chunks: seq<Bytes>, more: seq<Read>)
    requires Faithful(h) && Flat(chunks) == Sent(EventBytes, ps + ["[DONE]"])
    requires forall p :: p in ps ==> OneLine(p) && !Finishes(h, p)
    ensures Remaining(h, INITIAL, [], Reads(chunks) + more) ==
      Deltas(Shown(Readable(h, ps))) + [Done(Answer(Readable(h, ps)))]
  {
    var d := ps + ["[DONE]"];
    DoneEnds("[DONE]");
    SentData(h, d);
    assert [] + Flat(chunks) == Flat(chunks);
    FirstFinishIs(h, ps, "[DONE]", []);
    assert d + [] == d;
    HandledLast(h, ps, "[DONE]");
    FinishedReads(h, INITIAL, [], chunks, more);
    SameAsWhole(h, INITIAL, [], chunks);
    Accumulates(h, ps);
  }

  /** A stream that breaks off before it is finished: the texts so far, and then an error. */
  lemma {:induction false} BrokenOff(h: Host, s: Active, buf: Bytes, chunks: seq<Bytes>, more: seq<Read>)
    requires s.events == [] && LineEnd(buf, 0) == |buf|
    requires !HandleAll(h, s, Data(h, buf + Flat(chunks))).finished
    ensures Remaining(h, s, buf, Reads(chunks) + ([Broken] + more)) ==
      Deltas(HandleAll(h, s, Data(h, buf + Flat(chunks))).events) + [Error]
    decreases |chunks|
  {
    if chunks == [] {
      assert buf + Flat(chunks) == buf && Reads(chunks) + ([Broken] + more) == [Broken] + more;
      NoData(h, buf);
    } else {
      var all := buf + chunks[0];
      var u, later := HandleAll(h, s, Data(h, all)), Data(h, Rest(all) + Flat(chunks[1..]));
      PushSplits(h, buf, chunks[0], Flat(chunks[1..]));
      RestHasNoLine(all);
      HandleAllConcat(h, s, Data(h, all), later);
      StillOpen(h, u, later);
      StillOpen(h, s, Data(h, all));
      OneReadMore(h, s, buf, chunks, [Broken] + more);
      FinishesLater(h, u, later);
      BrokenOff(h, u.(events := []), Rest(all), chunks[1..], more);
      QueuedBefore(h, u, later, Rest(all), Reads(chunks[1..]) + ([Broken] + more));
    }
  }

  lemma StillOpen(h: Host, s: Active, data: seq<string>)
    requires !HandleAll(h, s, data).finished
    ensures !s.finished
  {
    if s.finished { FinishedStays(h, s, data); }
  }

  lemma QueuedBefore(h: Host, u: Active, data: seq<string>, buf: Bytes, incoming: seq<Read>)
    requires Remaining(h, u.(events := []), buf, incoming) ==
      Deltas(HandleAll(h, u.(events := []), data).events) + [Error]
    ensures Remaining(h, u, buf, incoming) == Deltas(HandleAll(h, u, data).events) + [Error]
  {
    var empty := u.(events := []);
    Drains(h, u, buf, incoming);
    assert Queued(u.events, empty) == u by { assert u.events + [] == u.events; }
    HandleAllQueued(h, u.events, empty, data);
    DeltasConcat(u.events, HandleAll(h, empty, data).events);
  }

  /** A stream that closes before it is finished is seen as a whole. */
  lemma {:induction false} ClosedOff(h: Host, chunks: seq<Bytes>, ps: seq<string>)
    requires Data(h, [] + Flat(chunks)) == ps && forall p :: p in ps ==> !Finishes(h, p)
    ensures Remaining(h, INITIAL, [], Reads(chunks)) == Whole(HandleAll(h, INITIAL, ps))
  {
    assert FirstFinish(h, ps) == |ps|;
    SameAsWhole(h, INITIAL, [], chunks);
  }

  /** Payloads none of which finishes the stream, cut into reads in any way: if the stream then
      closes, their texts and the response to all of them; if it breaks off, their texts and an
      error, whatever would have come. */
  lemma {:induction false} StreamStops(h: Host, ps: seq<string>, chunks: seq<Bytes>, more: seq<Read>)
    requires Faithful(h) && Flat(chunks) == Sent(EventBytes, ps)
    requires forall p :: p in ps ==> OneLine(p) && !Finishes(h, p)
    ensures Remaining(h, INITIAL, [], Reads(chunks)) ==
      Deltas(Shown(Readable(h, ps))) + [Done(Answer(Readable(h, ps)))]
    ensures Remaining(h, INITIAL, [], Reads(chunks) + ([Broken] + more)) == Deltas(Shown(Readable(h, ps))) + [Error]
  {
    SentData(h, ps);
    assert [] + Flat(chunks) == Flat(chunks);
    FinishedBy(h, INITIAL, ps);
    Accumulates(h, ps);
    BrokenOff(h, INITIAL, [], chunks, more);
    ClosedOff(h, chunks, ps);
  }

  lemma DoneEnds(p: string)
    requires p == "[DONE]"
    ensures IsEnd(p) && OneLine(p)
  {
    TrimmedStays(p);
  }
}

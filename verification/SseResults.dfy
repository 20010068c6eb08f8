/** What a whole stream of events looks like, and when its reads may be cut anywhere. */
module SseResults {
  import opened Prelude
  import opened ByteLines
  import opened Sse

  function Concat(parts: seq<string>): string
    decreases |parts|
  {
    if parts == [] then [] else parts[0] + Concat(parts[1..])
  }

  lemma {:induction false} ConcatAppend(parts: seq<string>, x: string)
    ensures Concat(parts + [x]) == Concat(parts) + x
    decreases |parts|
  {
    if parts == [] {
      assert [x][1..] == [] && parts + [x] == [x];
    } else {
      assert (parts + [x])[1..] == parts[1..] + [x];
      ConcatAppend(parts[1..], x);
    }
  }

  /** The text of the deltas among some events. */
  function Said(events: seq<Event>): string
    decreases |events|
  {
    if events == [] then [] else (if events[0].Delta? then events[0].text else []) + Said(events[1..])
  }

  /** Deltas, then exactly one response or error. */
  predicate EndsOnce(events: seq<Event>)
    decreases |events|
  {
    events != [] && if |events| == 1 then !events[0].Delta? else events[0].Delta? && EndsOnce(events[1..])
  }

  // ----- the response repeats the deltas -----------------------------------------------------

  /** What was sent and what is queued make up the text. */
  predicate InStep(s: Active, sent: string) { sent + Concat(s.events) == s.text }

  lemma HandleKeepsStep(h: Host, s: Active, data: string, sent: string)
    requires InStep(s, sent)
    ensures InStep(Handle(h, s, data), sent)
  {
    if !IsEnd(data) && h.read(data).Some? {
      var d := h.read(data).value.delta;
      ConcatAppend(s.events, d);
      assert s.text + [] == s.text;
    }
  }

  lemma {:induction false} HandleAllKeepsStep(h: Host, s: Active, data: seq<string>, sent: string)
    requires InStep(s, sent)
    ensures InStep(HandleAll(h, s, data), sent)
    decreases |data|
  {
    if data != [] {
      HandleKeepsStep(h, s, data[0], sent);
      HandleAllKeepsStep(h, Handle(h, s, data[0]), data[1..], sent);
    }
  }

  /** The last of the events is a response repeating `sent` and every delta, or an error. */
  predicate Closes(events: seq<Event>, sent: string) {
    EndsOnce(events) && (events[|events| - 1].Done? ==> events[|events| - 1].response.text == sent + Said(events))
  }

  lemma ClosesLater(x: string, more: seq<Event>, sent: string)
    requires Closes(more, sent + x)
    ensures Closes([Delta(x)] + more, sent)
  {
    var all := [Delta(x)] + more;
    assert all[1..] == more && all[|all| - 1] == more[|more| - 1];
    assert sent + (x + Said(more)) == (sent + x) + Said(more);
  }

  lemma ClosesNow(s: Active, sent: string)
    requires InStep(s, sent) && s.events == []
    ensures Closes([Done(ResponseOf(s))], sent)
  {
    assert [Done(ResponseOf(s))][1..] == [];
  }

  lemma {:induction false} RemainingCloses(h: Host, s: Active, buf: Bytes, incoming: seq<Read>, sent: string)
    requires InStep(s, sent)
    ensures Closes(Remaining(h, s, buf, incoming), sent)
    decreases |incoming|, |s.events|
  {
    if s.events != [] {
      var next := s.(events := s.events[1..]);
      assert sent + (s.events[0] + Concat(s.events[1..])) == (sent + s.events[0]) + Concat(s.events[1..]);
      RemainingCloses(h, next, buf, incoming, sent + s.events[0]);
      ClosesLater(s.events[0], Remaining(h, next, buf, incoming), sent);
    } else if s.finished || incoming == [] {
      ClosesNow(s, sent);
    } else if incoming[0].Chunk? {
      var bytes := incoming[0].bytes;
      HandleAllKeepsStep(h, s, Data(h, buf + bytes), sent);
      RemainingCloses(h, HandleAll(h, s, Data(h, buf + bytes)), Rest(buf + bytes), incoming[1..], sent);
    }
  }

  /** Over every run: deltas, then one response or error and nothing after it; a response
      carries exactly the concatenated deltas. */
  lemma StreamCloses(h: Host, incoming: seq<Read>)
    ensures var events := Remaining(h, INITIAL, [], incoming);
      EndsOnce(events) && (events[|events| - 1].Done? ==> events[|events| - 1].response.text == Said(events))
  {
    RemainingCloses(h, INITIAL, [], incoming, []);
    var events := Remaining(h, INITIAL, [], incoming);
    assert [] + Said(events) == Said(events);
  }

  // ----- cutting the stream ----------------------------------------------------------------------

  predicate Finishes(h: Host, data: string) { IsEnd(data) || (h.read(data).Some? && h.read(data).value.finishes) }

  function Deltas(parts: seq<string>): seq<Event>
    decreases |parts|
  {
    if parts == [] then [] else [Delta(parts[0])] + Deltas(parts[1..])
  }

  function Reads(chunks: seq<Bytes>): seq<Read>
    decreases |chunks|
  {
    if chunks == [] then [] else [Chunk(chunks[0])] + Reads(chunks[1..])
  }

  /** All queued deltas, then the response. */
  function Whole(s: Active): seq<Event> { Deltas(s.events) + [Done(ResponseOf(s))] }

  lemma {:induction false} HandleAllConcat(h: Host, s: Active, a: seq<string>, b: seq<string>)
    ensures HandleAll(h, s, a + b) == HandleAll(h, HandleAll(h, s, a), b)
    decreases |a|
  {
    if a == [] {
      assert a + b == b;
    } else {
      assert (a + b)[1..] == a[1..] + b;
      HandleAllConcat(h, Handle(h, s, a[0]), a[1..], b);
    }
  }

  lemma {:induction false} FinishedBy(h: Host, s: Active, data: seq<string>)
    requires !s.finished && forall k :: 0 <= k < |data| ==> !Finishes(h, data[k])
    ensures !HandleAll(h, s, data).finished
    decreases |data|
  {
    if data != [] {
      assert !Finishes(h, data[0]);
      FinishedBy(h, Handle(h, s, data[0]), data[1..]);
    }
  }

  /** `s` with `front` queued before its own deltas. */
  function Queued(front: seq<string>, s: Active): Active { s.(events := front + s.events) }

  lemma HandleQueued(h: Host, front: seq<string>, s: Active, data: string)
    ensures Handle(h, Queued(front, s), data) == Queued(front, Handle(h, s, data))
  {
    if !IsEnd(data) && h.read(data).Some? {
      var d := h.read(data).value.delta;
      assert (front + s.events) + [d] == front + (s.events + [d]);
    }
  }

  lemma {:induction false} HandleAllQueued(h: Host, front: seq<string>, s: Active, data: seq<string>)
    ensures HandleAll(h, Queued(front, s), data) == Queued(front, HandleAll(h, s, data))
    decreases |data|
  {
    if data != [] {
      HandleQueued(h, front, s, data[0]);
      HandleAllQueued(h, front, Handle(h, s, data[0]), data[1..]);
    }
  }

  lemma {:induction false} DeltasConcat(a: seq<string>, b: seq<string>)
    ensures Deltas(a + b) == Deltas(a) + Deltas(b)
    decreases |a|
  {
    if a == [] {
      assert a + b == b;
    } else {
      assert (a + b)[1..] == a[1..] + b;
      DeltasConcat(a[1..], b);
    }
  }

  /** Queued deltas come out first. */
  lemma {:induction false} Drains(h: Host, s: Active, buf: Bytes, incoming: seq<Read>)
    ensures Remaining(h, s, buf, incoming) == Deltas(s.events) + Remaining(h, s.(events := []), buf, incoming)
    decreases |s.events|
  {
    if s.events == [] {
      assert s.(events := []) == s;
    } else {
      var next := s.(events := s.events[1..]);
      Drains(h, next, buf, incoming);
      assert next.(events := []) == s.(events := []);
    }
  }

  lemma WholeQueued(front: seq<string>, s: Active)
    ensures Whole(Queued(front, s)) == Deltas(front) + Whole(s)
  {
    DeltasConcat(front, s.events);
    assert (Deltas(front) + Deltas(s.events)) + [Done(ResponseOf(s))] ==
      Deltas(front) + (Deltas(s.events) + [Done(ResponseOf(s))]);
  }

  /** The first payload that finishes the stream, or the number of payloads. */
  function FirstFinish(h: Host, data: seq<string>): (f: nat)
    ensures f <= |data| && (f < |data| ==> Finishes(h, data[f])) && forall k :: 0 <= k < f ==> !Finishes(h, data[k])
    decreases |data|
  {
    if data == [] || Finishes(h, data[0]) then 0
    else
      var f := FirstFinish(h, data[1..]);
      assert forall k :: 1 <= k < f + 1 ==> data[k] == data[1..][k - 1];
      f + 1
  }

  lemma {:induction false} FinishedStays(h: Host, s: Active, data: seq<string>)
    requires s.finished
    ensures HandleAll(h, s, data).finished
    decreases |data|
  {
    if data != [] { FinishedStays(h, Handle(h, s, data[0]), data[1..]); }
  }

  /** The first `k` payloads finish the stream exactly when they reach the first finishing one. */
  lemma FinishedAt(h: Host, s: Active, data: seq<string>, k: nat)
    requires !s.finished && k <= |data|
    ensures HandleAll(h, s, data[..k]).finished <==> FirstFinish(h, data) < k
  {
    var f := FirstFinish(h, data);
    if f < k {
      var before, after := data[..f], data[f..k];
      assert data[..k] == before + after && after[0] == data[f];
      HandleAllConcat(h, s, before, after);
      var t := HandleAll(h, s, before);
      assert Handle(h, t, after[0]).finished;
      FinishedStays(h, Handle(h, t, after[0]), after[1..]);
    } else {
      FinishedBy(h, s, data[..k]);
    }
  }

  lemma {:induction false} RestHasNoLine(all: Bytes)
    ensures LineEnd(Rest(all), 0) == |Rest(all)|
    decreases |all|
  {
    if LineEnd(all, 0) < |all| { RestHasNoLine(all[LineEnd(all, 0) + 1..]); }
  }

  lemma OneRead(h: Host, s: Active, buf: Bytes, chunks: seq<Bytes>)
    requires chunks != [] && !s.finished && s.events == []
    ensures Remaining(h, s, buf, Reads(chunks))
         == Remaining(h, HandleAll(h, s, Data(h, buf + chunks[0])), Rest(buf + chunks[0]), Reads(chunks[1..]))
  {
    assert Reads(chunks)[0] == Chunk(chunks[0]) && Reads(chunks)[1..] == Reads(chunks[1..]);
  }

  /** A finished stream reads no more. */
  lemma FinishedDrains(h: Host, t: Active, buf: Bytes, incoming: seq<Read>)
    requires t.finished
    ensures Remaining(h, t, buf, incoming) == Whole(t)
  {
    Drains(h, t, buf, incoming);
  }

  /** The events are those of the first `k` payloads: all of them, or some that finish the stream. */
  predicate StopsBy(h: Host, s: Active, d: seq<string>, k: nat, events: seq<Event>) {
    k <= |d| && (k < |d| ==> HandleAll(h, s, d[..k]).finished) && events == Whole(HandleAll(h, s, d[..k]))
  }

  /** Any reads stop by some `k`. */
  lemma {:induction false} StopsAt(h: Host, s: Active, buf: Bytes, chunks: seq<Bytes>) returns (k: nat)
    requires !s.finished && s.events == [] && LineEnd(buf, 0) == |buf|
    ensures StopsBy(h, s, Data(h, buf + Flat(chunks)), k, Remaining(h, s, buf, Reads(chunks)))
    decreases |chunks|
  {
    if chunks == [] {
      assert buf + Flat(chunks) == buf;
      NothingYet(h, buf, []);
      k := 0;
    } else {
      var c, rest := chunks[0], Rest(buf + chunks[0]);
      var now, later := Data(h, buf + c), Data(h, rest + Flat(chunks[1..]));
      PushSplits(h, buf, c, Flat(chunks[1..]));
      OneRead(h, s, buf, chunks);
      var t := HandleAll(h, s, now);
      if t.finished {
        FinishedDrains(h, t, rest, Reads(chunks[1..]));
        StopsNow(h, s, now, later);
        k := |now|;
      } else {
        RestHasNoLine(buf + c);
        Drains(h, t, rest, Reads(chunks[1..]));
        var empty := t.(events := []);
        var more := StopsAt(h, empty, rest, chunks[1..]);
        StopsLater(h, s, now, later, more, Remaining(h, empty, rest, Reads(chunks[1..])));
        k := |now| + more;
      }
    }
  }

  lemma StopsNow(h: Host, s: Active, now: seq<string>, later: seq<string>)
    requires HandleAll(h, s, now).finished
    ensures StopsBy(h, s, now + later, |now|, Whole(HandleAll(h, s, now)))
  {
    assert (now + later)[..|now|] == now;
  }

  lemma StopsLater(h: Host, s: Active, now: seq<string>, later: seq<string>, more: nat, events: seq<Event>)
    requires StopsBy(h, HandleAll(h, s, now).(events := []), later, more, events)
    ensures StopsBy(h, s, now + later, |now| + more, Deltas(HandleAll(h, s, now).events) + events)
  {
    assert (now + later)[..|now| + more] == now + later[..more];
    AfterRead(h, s, now, later[..more]);
  }

  lemma AfterRead(h: Host, s: Active, now: seq<string>, later: seq<string>)
    ensures var t := HandleAll(h, s, now); var rest := HandleAll(h, t.(events := []), later);
      && HandleAll(h, s, now + later).finished == rest.finished
      && Deltas(t.events) + Whole(rest) == Whole(HandleAll(h, s, now + later))
  {
    var t := HandleAll(h, s, now);
    var empty := t.(events := []);
    HandleAllConcat(h, s, now, later);
    assert Queued(t.events, empty) == t by { assert t.events + [] == t.events; }
    HandleAllQueued(h, t.events, empty, later);
    WholeQueued(t.events, HandleAll(h, empty, later));
  }

  // ----- a cut after any payload -----------------------------------------------------------

  lemma {:induction false} DeltasAre(parts: seq<string>)
    ensures |Deltas(parts)| == |parts| && forall k :: 0 <= k < |parts| ==> Deltas(parts)[k] == Delta(parts[k])
    decreases |parts|
  {
    if parts != [] { DeltasAre(parts[1..]); }
  }

  /** The events tell the states apart. */
  lemma WholeInjective(a: Active, b: Active)
    requires Whole(a) == Whole(b) && a.finished == b.finished
    ensures a == b
  {
    DeltasAre(a.events);
    DeltasAre(b.events);
    var n := |a.events|;
    assert |Whole(a)| == n + 1 && |Whole(b)| == |b.events| + 1;
    assert Whole(a)[n] == Done(ResponseOf(a)) && Whole(b)[n] == Done(ResponseOf(b));
    forall k | 0 <= k < n ensures a.events[k] == b.events[k] {
      assert Whole(a)[k] == Delta(a.events[k]) && Whole(b)[k] == Delta(b.events[k]);
    }
  }

  /** The first line, what it adds to the queue whatever follows it, and what does follow. */
  lemma TakeLine(h: Host, all: Bytes) returns (line: Bytes, rest: Bytes, here: seq<string>)
    requires LineEnd(all, 0) < |all|
    ensures line != [] && all == line + rest && |here| <= 1
    ensures forall more :: Data(h, line + more) == here + Data(h, more)
  {
    var e := LineEnd(all, 0);
    line, rest := all[..e + 1], all[e + 1..];
    here := LineData(h, line);
    assert line[0..e] == all[0..e];
    LineEndIs(line, 0, e);
    forall more ensures Data(h, line + more) == here + Data(h, more) { DataOfLine(h, line, more); }
  }

  lemma DataOfLine(h: Host, line: Bytes, more: Bytes)
    requires line != [] && LineEnd(line, 0) == |line| - 1
    ensures Data(h, line + more) == LineData(h, line) + Data(h, more)
  {
    LineEndIn(line, more, 0);
    NextLine(h, line + more);
    assert (line + more)[..|line|] == line && (line + more)[|line|..] == more;
  }

  lemma NoData(h: Host, all: Bytes)
    requires LineEnd(all, 0) == |all|
    ensures Data(h, all) == []
  {
  }

  /** The bytes that end with the line of the `k`-th payload. */
  lemma {:induction false} CutAfter(h: Host, all: Bytes, k: nat) returns (p: nat)
    requires k <= |Data(h, all)|
    ensures p <= |all| && Data(h, all[..p]) == Data(h, all)[..k]
    decreases |all|
  {
    if k == 0 {
      NoData(h, []);
      assert all[..0] == [];
      p := 0;
    } else {
      if LineEnd(all, 0) == |all| { NoData(h, all); }
      var line, rest, here := TakeLine(h, all);
      assert Data(h, line + rest) == here + Data(h, rest);
      var more := CutAfter(h, rest, k - |here|);
      p := |line| + more;
      assert all[..p] == line + rest[..more];
      CutJoins(Data(h, all[..p]), here, Data(h, rest[..more]), Data(h, rest), k);
    }
  }

  lemma CutJoins<T>(cut: seq<T>, here: seq<T>, later: seq<T>, rest: seq<T>, k: nat)
    requires cut == here + later && |here| <= k <= |here| + |rest| && later == rest[..k - |here|]
    ensures cut == (here + rest)[..k]
  {
  }

  /** Cutting the reads there makes the stream stop there. */
  lemma StopsAfter(h: Host, s: Active, buf: Bytes, bytes: Bytes, k: nat) returns (chunks: seq<Bytes>)
    requires !s.finished && s.events == [] && LineEnd(buf, 0) == |buf|
    requires FirstFinish(h, Data(h, buf + bytes)) < k <= |Data(h, buf + bytes)|
    ensures Flat(chunks) == bytes
    ensures Remaining(h, s, buf, Reads(chunks)) == Whole(HandleAll(h, s, Data(h, buf + bytes)[..k]))
  {
    var all := buf + bytes;
    var p := CutAfter(h, all, k);
    NoLineBefore(h, buf, bytes, p);
    var c := bytes[..p - |buf|];
    chunks := [c, bytes[p - |buf|..]];
    assert all[..p] == buf + c;
    FlatTwo(c, bytes[p - |buf|..]);
    assert c + bytes[p - |buf|..] == bytes;
    OneRead(h, s, buf, chunks);
    FinishedAt(h, s, Data(h, all), k);
    FinishedDrains(h, HandleAll(h, s, Data(h, all)[..k]), Rest(buf + c), Reads(chunks[1..]));
  }

  lemma NoLineBefore(h: Host, buf: Bytes, more: Bytes, p: nat)
    requires LineEnd(buf, 0) == |buf|
    ensures p <= |buf| ==> Data(h, (buf + more)[..p]) == []
  {
    if p <= |buf| {
      var start := (buf + more)[..p];
      assert buf[0..|buf|] == buf && start[0..p] == start;
      assert forall k :: 0 <= k < p ==> start[k] == buf[k];
      LineEndIs(start, 0, p);
    }
  }

  lemma FlatTwo(a: Bytes, b: Bytes)
    ensures Flat([a, b]) == a + b
  {
    assert [a, b][1..] == [b] && [b][1..] == [];
    assert Flat([b]) == b + Flat([]) && b + [] == b;
  }

  // ----- when cuts do not matter -----------------------------------------------------------

  /** Every way to cut the bytes into reads gives the events of a single read. */
  ghost predicate Independent(h: Host, s: Active, buf: Bytes, bytes: Bytes) {
    forall chunks | Flat(chunks) == bytes :: Remaining(h, s, buf, Reads(chunks)) == Remaining(h, s, buf, Reads([bytes]))
  }

  /** No payload after the first finishing one changes anything any more. */
  predicate LateInert(h: Host, s: Active, data: seq<string>) {
    var f := FirstFinish(h, data);
    forall k :: f < k < |data| ==> var t := HandleAll(h, s, data[..f + 1]); Handle(h, t, data[k]) == t
  }

  lemma NextPayload(h: Host, s: Active, data: seq<string>, k: nat)
    requires k < |data|
    ensures HandleAll(h, s, data[..k + 1]) == Handle(h, HandleAll(h, s, data[..k]), data[k])
  {
    assert data[..k + 1] == data[..k] + [data[k]];
    HandleAllConcat(h, s, data[..k], [data[k]]);
    assert [data[k]][1..] == [];
  }

  lemma InertFrom(h: Host, s: Active, data: seq<string>, k: nat)
    requires LateInert(h, s, data) && FirstFinish(h, data) < k <= |data|
    ensures HandleAll(h, s, data[..k]) == HandleAll(h, s, data[..FirstFinish(h, data) + 1])
  {
    var f := FirstFinish(h, data);
    StaysAt(h, s, data, f + 1, HandleAll(h, s, data[..f + 1]), k);
  }

  lemma {:induction false} StaysAt(h: Host, s: Active, data: seq<string>, i: nat, t: Active, k: nat)
    requires i <= k <= |data| && HandleAll(h, s, data[..i]) == t
    requires forall j :: i <= j < |data| ==> Handle(h, t, data[j]) == t
    ensures HandleAll(h, s, data[..k]) == t
    decreases k
  {
    if k > i {
      StaysAt(h, s, data, i, t, k - 1);
      NextPayload(h, s, data, k - 1);
    }
  }

  lemma SameAsWhole(h: Host, s: Active, buf: Bytes, chunks: seq<Bytes>)
    requires !s.finished && s.events == [] && LineEnd(buf, 0) == |buf|
    requires LateInert(h, s, Data(h, buf + Flat(chunks)))
    ensures Remaining(h, s, buf, Reads(chunks)) == Whole(HandleAll(h, s, Data(h, buf + Flat(chunks))))
  {
    var d := Data(h, buf + Flat(chunks));
    var k := StopsAt(h, s, buf, chunks);
    assert d[..|d|] == d;
    if k < |d| {
      FinishedAt(h, s, d, k);
      InertFrom(h, s, d, k);
      InertFrom(h, s, d, |d|);
    }
  }

  lemma IndependentAt(h: Host, s: Active, buf: Bytes, bytes: Bytes, k: nat)
    requires !s.finished && s.events == [] && LineEnd(buf, 0) == |buf| && Independent(h, s, buf, bytes)
    requires FirstFinish(h, Data(h, buf + bytes)) < k <= |Data(h, buf + bytes)|
    ensures var d := Data(h, buf + bytes);
      Whole(HandleAll(h, s, d[..k])) == Remaining(h, s, buf, Reads([bytes])) && HandleAll(h, s, d[..k]).finished
  {
    var chunks := StopsAfter(h, s, buf, bytes, k);
    FinishedAt(h, s, Data(h, buf + bytes), k);
  }

  /** Cuts do not matter, exactly: every list of reads of the same bytes gives the same
      events if and only if no payload after the first finishing one changes anything. */
  lemma CutsDoNotMatter(h: Host, s: Active, buf: Bytes, bytes: Bytes)
    requires !s.finished && s.events == [] && LineEnd(buf, 0) == |buf|
    ensures Independent(h, s, buf, bytes) <==> LateInert(h, s, Data(h, buf + bytes))
  {
    var d := Data(h, buf + bytes);
    assert Flat([bytes]) == bytes by { assert [bytes][1..] == [] && bytes + [] == bytes; }
    if LateInert(h, s, d) {
      forall chunks | Flat(chunks) == bytes
        ensures Remaining(h, s, buf, Reads(chunks)) == Remaining(h, s, buf, Reads([bytes]))
      {
        SameAsWhole(h, s, buf, chunks);
        SameAsWhole(h, s, buf, [bytes]);
      }
    }
    if Independent(h, s, buf, bytes) {
      var f := FirstFinish(h, d);
      forall k | f < k < |d| ensures var t := HandleAll(h, s, d[..f + 1]); Handle(h, t, d[k]) == t {
        IndependentAt(h, s, buf, bytes, f + 1);
        IndependentAt(h, s, buf, bytes, k);
        IndependentAt(h, s, buf, bytes, k + 1);
        WholeInjective(HandleAll(h, s, d[..f + 1]), HandleAll(h, s, d[..k]));
        WholeInjective(HandleAll(h, s, d[..f + 1]), HandleAll(h, s, d[..k + 1]));
        NextPayload(h, s, d, k);
      }
    }
  }

  /** What such a payload may be: an end marker, something that is not JSON, or one without
      text whose model and token counts, if any, are those already seen. */
  lemma InertIs(h: Host, t: Active, data: string)
    requires t.finished
    ensures Handle(h, t, data) == t <==>
      || IsEnd(data) || h.read(data).None?
      || (var v := h.read(data).value;
          v.delta == [] && (v.model.Some? ==> v.model == t.model) && (v.usage.Some? ==> TokensOf(v.usage) == t.tokens))
  {
    if !IsEnd(data) && h.read(data).Some? {
      var d := h.read(data).value.delta;
      assert |t.text + d| == |t.text| + |d|;
      assert d == [] ==> t.text + d == t.text;
    }
  }

  /** The usual end of a stream, a finish reason and then end markers, may be cut anywhere. */
  lemma FinishThenEnd(h: Host, s: Active, buf: Bytes, bytes: Bytes, before: seq<string>, x: string, ends: seq<string>)
    requires !s.finished && s.events == [] && LineEnd(buf, 0) == |buf|
    requires Data(h, buf + bytes) == before + [x] + ends
    requires Finishes(h, x) && forall k :: 0 <= k < |before| ==> !Finishes(h, before[k])
    requires forall y :: y in ends ==> IsEnd(y)
    ensures Independent(h, s, buf, bytes)
  {
    var d := Data(h, buf + bytes);
    var f := |before|;
    FirstFinishIs(h, before, x, ends);
    FinishedAt(h, s, d, f + 1);
    var t := HandleAll(h, s, d[..f + 1]);
    forall k | f < k < |d| ensures Handle(h, t, d[k]) == t {
      EndAt(before, x, ends, k);
    }
    CutsDoNotMatter(h, s, buf, bytes);
  }

  lemma FirstFinishIs(h: Host, before: seq<string>, x: string, ends: seq<string>)
    requires Finishes(h, x) && forall k :: 0 <= k < |before| ==> !Finishes(h, before[k])
    ensures FirstFinish(h, before + [x] + ends) == |before|
  {
    var d := before + [x] + ends;
    var f := FirstFinish(h, d);
    assert d[|before|] == x;
    assert forall k :: 0 <= k < |before| ==> d[k] == before[k];
  }

  lemma EndAt(before: seq<string>, x: string, ends: seq<string>, k: nat)
    requires |before| < k < |before + [x] + ends|
    ensures (before + [x] + ends)[k] in ends
  {
    assert (before + [x] + ends)[k] == ends[k - |before| - 1];
  }

  /** Other token counts, another model or text that arrives after the finish reason is seen
      or lost depending on the cut. */
  lemma LatePayloadDepends(h: Host, s: Active, buf: Bytes, bytes: Bytes, x: string, y: string)
    requires !s.finished && s.events == [] && LineEnd(buf, 0) == |buf| && Data(h, buf + bytes) == [x, y]
    requires Finishes(h, x) && !IsEnd(y) && h.read(y).Some?
    requires var v, t := h.read(y).value, Handle(h, s, x);
      v.delta != [] || (v.usage.Some? && TokensOf(v.usage) != t.tokens) || (v.model.Some? && v.model != t.model)
    ensures !Independent(h, s, buf, bytes)
  {
    var d := [x, y];
    assert FirstFinish(h, d) == 0;
    NextPayload(h, s, d, 0);
    assert d[..0] == [];
    FinishedAt(h, s, d, 1);
    InertIs(h, HandleAll(h, s, d[..1]), y);
    assert d[1] == y;
    CutsDoNotMatter(h, s, buf, bytes);
  }
}

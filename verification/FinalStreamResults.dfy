/** Chunking independence of the extractor, exactly when it holds, and the inversion
    of JSON string escaping. */
module FinalStreamResults {
  import opened Prelude
  import opened StreamText
  import opened FinalStream

  // ----- growing text -----------------------------------------------------------

  lemma KeyOpenGrows(s: string, t: string, key: string, i: nat)
    ensures KeyOpenQuote(s, key, i).Some? ==> KeyOpenQuote(s + t, key, i) == KeyOpenQuote(s, key, i)
    ensures KeyOpenQuote(s + t, key, i).Some? && KeyOpenQuote(s + t, key, i).value <= |s| ==>
      KeyOpenQuote(s, key, i) == KeyOpenQuote(s + t, key, i)
  {
    FindGrows(s, t, key, i);
    var k := Find(s + t, key, i);
    if k.Some? {
      FindCharGrows(s, t, ':', k.value + |key|);
      var colon := FindChar(s + t, ':', k.value + |key|);
      if colon.Some? { FindCharGrows(s, t, '"', colon.value + 1); }
    }
  }

  lemma StringValueGrows(s: string, t: string, key: string)
    ensures StringValue(s, key).Some? ==> StringValue(s + t, key) == StringValue(s, key)
    ensures StringValue(s + t, key).Some? && StringValue(s + t, key).value.1 <= |s| ==>
      StringValue(s, key) == StringValue(s + t, key)
  {
    KeyOpenGrows(s, t, key, 0);
    var open := KeyOpenQuote(s + t, key, 0);
    if open.Some? {
      FindCharGrows(s, t, '"', open.value);
      var close := FindChar(s + t, '"', open.value);
      if close.Some? && close.value < |s| { assert (s + t)[open.value..close.value] == s[open.value..close.value]; }
    }
  }

  /** A decision of `Locate` stands as text is added, and a start that lies inside
      the old text was already known. */
  lemma LocateGrows(pr: Protocol, s: string, t: string)
    ensures !Locate(pr, s).NeedMore? ==> Locate(pr, s + t) == Locate(pr, s)
    ensures Locate(pr, s + t).ContentAt? && Locate(pr, s + t).offset <= |s| ==> Locate(pr, s) == Locate(pr, s + t)
  {
    StringValueGrows(s, t, pr.typeKey);
    var v := StringValue(s + t, pr.typeKey);
    if v.Some? { KeyOpenGrows(s, t, pr.contentKey, v.value.1); }
  }

  lemma {:induction false} ReadConcat(p: Parse, s: string, t: string)
    ensures var q := Reach(p, s);
            && Reach(p, s + t) == Reach(q, t)
            && Used(p, s + t) == Used(p, s) + Used(q, t)
            && Output(p, s + t) == Output(p, s) + Output(q, t)
    decreases |s|
  {
    if s == "" {
      assert s + t == t;
      assert "" + Output(p, t) == Output(p, t);
    } else if Stopped(p) {
      assert Reach(p, s) == p && Output(p, s + t) == "" && Output(p, t) == "";
    } else {
      var (q, o) := Next(p, s[0]);
      assert (s + t)[0] == s[0] && (s + t)[1..] == s[1..] + t;
      ReadConcat(q, s[1..], t);
      Assoc(o, Output(q, s[1..]), Output(Reach(q, s[1..]), t));
    }
  }

  /** Reading stops early only in a stopped state. */
  lemma {:induction false} UsedAll(p: Parse, s: string)
    ensures Used(p, s) < |s| ==> Stopped(Reach(p, s))
    decreases |s|
  {
    if s != "" && !Stopped(p) { UsedAll(Next(p, s[0]).0, s[1..]); }
  }

  /** Decoding never leads back to scanning, to raw text or to suppression. */
  predicate Inside(p: Parse) { p.InContent? || p.Escaped? || p.Unicode? || p.Done? }

  lemma {:induction false} ReachInside(p: Parse, s: string)
    requires Inside(p)
    ensures Inside(Reach(p, s))
    decreases |s|
  {
    if s != "" && !Stopped(p) { ReachInside(Next(p, s[0]).0, s[1..]); }
  }

  lemma {:induction false} ReadRaw(s: string)
    ensures Reach(Raw, s) == Raw && Used(Raw, s) == |s| && Output(Raw, s) == s
    decreases |s|
  {
    if s != "" {
      ReadRaw(s[1..]);
      assert [s[0]] + s[1..] == s;
    }
  }

  // ----- locators ---------------------------------------------------------------------

  ghost predicate StableAt(loc: Locator, s: string, t: string) {
    && (!loc(s).NeedMore? ==> loc(s + t) == loc(s))
    && (loc(s + t).ContentAt? && loc(s + t).offset <= |s| ==> loc(s) == loc(s + t))
  }

  /** More text revises no decision, and reveals no start inside the old text. */
  ghost predicate Stable(loc: Locator) { forall s, t :: StableAt(loc, s, t) }

  lemma ProtocolIsStable(pr: Protocol)
    ensures Stable(LocatorOf(pr))
  {
    forall s, t ensures StableAt(LocatorOf(pr), s, t) { LocateGrows(pr, s, t); }
  }

  // ----- chunking independence ------------------------------------------------------

  /** The fields of a new extractor. */
  predicate Initial(f: FS) { |f.buf| == 0 && f.pos == 0 && f.state.Scanning? }

  function Brace(t: string): Option<nat> { FindChar(t, '{', 0) }

  /** Fewer than 64 bytes come before the first brace; and if the text is a final
      answer, at most 4096 bytes come before its content's opening quote. */
  predicate Steady(loc: Locator, t: string) {
    Brace(t).Some? ==> SteadyAt(loc, t, Brace(t).value)
  }

  predicate SteadyAt(loc: Locator, t: string, i: nat)
    requires i <= |t|
  {
    && BytesTo(t, i) < 64
    && (loc(t[i..]).ContentAt? ==> BytesTo(t, i + loc(t[i..]).offset - 1) <= 4096)
  }

  /** The fields after all of `t` arrived in one push, before reading on. */
  function Placed(loc: Locator, t: string): (f: FS)
    ensures f.buf == t && f.pos <= |t|
  {
    match Brace(t)
    case None => if ByteLen(t) >= RAW_AFTER then FS(t, 0, Raw) else FS(t, 0, Scanning)
    case Some(i) =>
      match loc(t[i..])
      case ContentAt(o) => FS(t, i + o, InContent)
      case NotFinal => FS(t, i, Suppressed)
      case NeedMore => FS(t, i, if ByteLen(t) > GIVE_UP_AFTER then Suppressed else Scanning)
  }

  function Whole(loc: Locator, t: string): FS { Settle(Placed(loc, t)) }

  function WholeOutput(loc: Locator, t: string): string { Output(Placed(loc, t).state, t[Placed(loc, t).pos..]) }

  lemma LocatedIsPlaced(loc: Locator, f: FS, t: string)
    requires Initial(f)
    ensures Located(loc, f, t) == Placed(loc, t)
  {
    assert f.buf + t == t;
  }

  lemma WholeIsOnePush(loc: Locator, f: FS, t: string)
    requires Initial(f)
    ensures Push(loc, f, t) == Whole(loc, t) && Emits(loc, f, t) == WholeOutput(loc, t)
  {
    LocatedIsPlaced(loc, f, t);
  }

  lemma BraceGrows(p: string, c: string)
    ensures Brace(p).Some? ==> Brace(p + c) == Brace(p)
    ensures Brace(p).None? && Brace(p + c).Some? ==> Brace(p + c).value >= |p|
  {
    FindCharGrows(p, c, '{', 0);
  }

  lemma SteadyPrefix(loc: Locator, p: string, c: string)
    requires Stable(loc)
    requires Steady(loc, p + c)
    ensures Steady(loc, p)
  {
    BraceGrows(p, c);
    if Brace(p).Some? { SteadyPrefixAt(loc, p, c, Brace(p).value); }
  }

  lemma SteadyPrefixAt(loc: Locator, p: string, c: string, i: nat)
    requires Stable(loc)
    requires i <= |p| && SteadyAt(loc, p + c, i)
    ensures SteadyAt(loc, p, i)
  {
    assert (p + c)[i..] == p[i..] + c;
    assert StableAt(loc, p[i..], c);
    BytesPrefix(p, c, i);
    if loc(p[i..]).ContentAt? { BytesPrefix(p, c, i + loc(p[i..]).offset - 1); }
  }

  /** One more chunk after a text whose scan is not over: as if all had come at once. */
  lemma LocatedScanning(loc: Locator, p: string, c: string)
    requires Placed(loc, p).state.Scanning?
    ensures Located(loc, Placed(loc, p), c) == Placed(loc, p + c)
  {
    BraceGrows(p, c);
  }

  /** ... and after one whose scan is over: reading goes on where it stopped. */
  lemma LocatedReading(loc: Locator, p: string, c: string)
    requires !Whole(loc, p).state.Scanning?
    ensures Located(loc, Whole(loc, p), c) == Whole(loc, p).(buf := p + c)
  {
  }

  lemma StillScanning(loc: Locator, p: string)
    requires Whole(loc, p).state.Scanning?
    ensures Whole(loc, p) == Placed(loc, p) && Placed(loc, p).state.Scanning? && WholeOutput(loc, p) == ""
  {
    var f := Placed(loc, p);
    if f.state.InContent? { ReachInside(InContent, p[f.pos..]); }
    if f.state.Raw? { ReadRaw(p[f.pos..]); }
  }

  /** Reading `rest` and then `c`, in one go or in two. */
  lemma ReadOn(buf: string, c: string, pos: nat, st: Parse)
    requires pos <= |buf|
    ensures var f := Settle(FS(buf, pos, st)).(buf := buf + c);
            && Settle(f) == Settle(FS(buf + c, pos, st))
            && Output(st, buf[pos..]) + Output(f.state, (buf + c)[f.pos..]) == Output(st, (buf + c)[pos..])
  {
    var rest := buf[pos..];
    var q, n := Reach(st, rest), Used(st, rest);
    assert (buf + c)[pos..] == rest + c;
    ReadConcat(st, rest, c);
    UsedAll(st, rest);
    if n == |rest| { assert (buf + c)[pos + n..] == c; }
  }

  /** In a steady text, a placement that scanning reached is never revised. */
  lemma PlacementStands(loc: Locator, p: string, c: string)
    requires Stable(loc)
    requires Steady(loc, p + c) && !Placed(loc, p).state.Scanning?
    ensures Placed(loc, p + c) == Placed(loc, p).(buf := p + c)
  {
    BraceGrows(p, c);
    ByteLenConcat(p, c);
    if Brace(p).None? {
      if Brace(p + c).Some? { LongPrefix(p, c, Brace(p + c).value); }
    } else {
      var i := Brace(p).value;
      assert (p + c)[i..] == p[i..] + c;
      LocateStands(loc, p, c, i);
    }
  }

  lemma LocateStands(loc: Locator, p: string, c: string, i: nat)
    requires Stable(loc)
    requires i <= |p| && SteadyAt(loc, p + c, i)
    requires loc(p[i..]).NeedMore? ==> ByteLen(p) > GIVE_UP_AFTER
    ensures var a, b := loc(p[i..]), loc((p + c)[i..]);
            if a.NeedMore? then !b.ContentAt? else a == b
  {
    LocateSuffixGrows(loc, p, c, i);
    NotRevised(p, c, i, loc(p[i..]), loc((p + c)[i..]));
  }

  lemma LocateSuffixGrows(loc: Locator, p: string, c: string, i: nat)
    requires Stable(loc)
    requires i <= |p|
    ensures var a, b := loc(p[i..]), loc((p + c)[i..]);
            (!a.NeedMore? ==> a == b) && (b.ContentAt? && b.offset <= |p| - i ==> a == b)
  {
    assert (p + c)[i..] == p[i..] + c;
    assert StableAt(loc, p[i..], c);
  }

  lemma NotRevised(p: string, c: string, i: nat, a: Target, b: Target)
    requires i <= |p| && (b.ContentAt? ==> 0 < b.offset <= |p + c| - i)
    requires (!a.NeedMore? ==> a == b) && (b.ContentAt? && b.offset <= |p| - i ==> a == b)
    requires b.ContentAt? ==> BytesTo(p + c, i + b.offset - 1) <= GIVE_UP_AFTER
    requires a.NeedMore? ==> ByteLen(p) > GIVE_UP_AFTER
    ensures if a.NeedMore? then !b.ContentAt? else a == b
  {
    if a.NeedMore? && b.ContentAt? { LongPrefix(p, c, i + b.offset - 1); }
  }

  lemma LongPrefix(p: string, c: string, n: nat)
    requires |p| <= n <= |p + c|
    ensures ByteLen(p) <= BytesTo(p + c, n)
  {
    BytesMonotone(p + c, |p|, n);
    BytesPrefix(p, c, |p|);
  }

  lemma PushAfterWhole(loc: Locator, p: string, c: string)
    requires Stable(loc)
    requires Steady(loc, p + c)
    ensures Push(loc, Whole(loc, p), c) == Whole(loc, p + c)
    ensures WholeOutput(loc, p) + Emits(loc, Whole(loc, p), c) == WholeOutput(loc, p + c)
  {
    if Whole(loc, p).state.Scanning? {
      StillScanning(loc, p);
      LocatedScanning(loc, p, c);
      assert "" + WholeOutput(loc, p + c) == WholeOutput(loc, p + c);
    } else {
      LocatedReading(loc, p, c);
      PlacementStands(loc, p, c);
      ReadOn(p, c, Placed(loc, p).pos, Placed(loc, p).state);
    }
  }

  /** Pushing the chunks does what one push of `t` does. */
  predicate Agrees(loc: Locator, f: FS, chunks: seq<string>, t: string)
    requires Initial(f)
  {
    PushAll(loc, f, chunks) == Whole(loc, t) && EmitsAll(loc, f, chunks) == WholeOutput(loc, t)
  }

  lemma {:induction false} SteadySplit(loc: Locator, f: FS, chunks: seq<string>, t: string)
    requires Initial(f)
    requires Stable(loc)
    requires t == Concat(chunks) && Steady(loc, t)
    ensures Agrees(loc, f, chunks, t)
    decreases |chunks|, 1
  {
    if chunks == [] {
      NothingPushed(loc, f, chunks, t);
    } else {
      var p, last := Concat(chunks[..|chunks| - 1]), chunks[|chunks| - 1];
      assert t == p + last;
      SteadyPrefix(loc, p, last);
      SteadySnoc(loc, f, chunks, p, last);
    }
  }

  lemma {:induction false} SteadySnoc(loc: Locator, f: FS, chunks: seq<string>, p: string, last: string)
    requires Initial(f)
    requires Stable(loc) && chunks != [] && last == chunks[|chunks| - 1] && p == Concat(chunks[..|chunks| - 1])
    requires Steady(loc, p) && Steady(loc, p + last)
    ensures Agrees(loc, f, chunks, p + last)
    decreases |chunks|, 0
  {
    SteadySplit(loc, f, chunks[..|chunks| - 1], p);
    OneMore(loc, f, chunks, p, last);
  }

  lemma NothingPushed(loc: Locator, f: FS, chunks: seq<string>, t: string)
    requires Initial(f)
    requires |chunks| == 0 && |t| == 0
    ensures Agrees(loc, f, chunks, t)
  {
    NothingPlaced(loc, t);
    assert f.buf == t;
  }

  lemma NothingPlaced(loc: Locator, t: string)
    requires |t| == 0
    ensures Whole(loc, t) == FS(t, 0, Scanning) && WholeOutput(loc, t) == t
  {
    assert Brace(t).None? && ByteLen(t) == 0;
  }

  lemma OneMore(loc: Locator, f: FS, chunks: seq<string>, p: string, c: string)
    requires Initial(f)
    requires Stable(loc)
    requires chunks != [] && Steady(loc, p + c) && c == chunks[|chunks| - 1]
    requires Agrees(loc, f, chunks[..|chunks| - 1], p)
    ensures Agrees(loc, f, chunks, p + c)
  {
    PushAfterWhole(loc, p, c);
  }

  lemma TwoChunks(loc: Locator, f: FS, a: string, b: string)
    requires Initial(f)
    ensures Concat([a, b]) == a + b && PushAll(loc, f, [a, b]) == Push(loc, Whole(loc, a), b)
  {
    assert [a, b][..1] == [a] && [a][..0] == [];
    assert Concat([a]) == "" + a == a;
    assert PushAll(loc, f, [a]) == Push(loc, f, a);
    WholeIsOnePush(loc, f, a);
  }

  /** Too much before the brace: a first push up to it makes the stream raw for good. */
  lemma StaysRaw(loc: Locator, a: string, b: string)
    requires Brace(a).None? && ByteLen(a) >= RAW_AFTER
    ensures Push(loc, Whole(loc, a), b).state.Raw?
  {
    ReadRaw(a[0..]);
    LocatedReading(loc, a, b);
    ReadRaw((a + b)[|a|..]);
  }

  lemma StaysSuppressed(loc: Locator, a: string, b: string)
    requires Placed(loc, a).state.Suppressed?
    ensures Push(loc, Whole(loc, a), b).state.Suppressed?
  {
    LocatedReading(loc, a, b);
  }

  lemma NeverRaw(loc: Locator, t: string)
    requires Brace(t).Some?
    ensures !Whole(loc, t).state.Raw?
    ensures Placed(loc, t).state.InContent? ==> !Whole(loc, t).state.Suppressed?
  {
    if Placed(loc, t).state.InContent? { ReachInside(InContent, t[Placed(loc, t).pos..]); }
  }

  /** Text that stops just before the content's opening quote, past the limit. */
  lemma CutBeforeContent(loc: Locator, t: string, i: nat, n: nat)
    requires Stable(loc)
    requires Brace(t) == Some(i) && loc(t[i..]).ContentAt? && n == i + loc(t[i..]).offset - 1
    requires BytesTo(t, n) > GIVE_UP_AFTER
    ensures Placed(loc, t[..n]).state.Suppressed?
  {
    var a, b := t[..n], t[n..];
    assert a + b == t;
    BraceGrows(a, b);
    BytesPrefix(a, b, n);
    assert t[i..] == a[i..] + b;
    assert StableAt(loc, a[i..], b);
  }

  /** An unsteady text has a split that ends in another state than the single push. */
  lemma UnsteadySplit(loc: Locator, f: FS, t: string) returns (chunks: seq<string>)
    requires Initial(f)
    requires Stable(loc)
    requires !Steady(loc, t)
    ensures Concat(chunks) == t && PushAll(loc, f, chunks).state != Whole(loc, t).state
  {
    var i := Brace(t).value;
    var n := if BytesTo(t, i) >= RAW_AFTER then i else i + loc(t[i..]).offset - 1;
    assert t[..n] + t[n..] == t;
    TwoChunks(loc, f, t[..n], t[n..]);
    chunks := [t[..n], t[n..]];
    SplitDiffers(loc, t, i, n);
  }

  lemma SplitDiffers(loc: Locator, t: string, i: nat, n: nat)
    requires Stable(loc) && Brace(t) == Some(i) && !SteadyAt(loc, t, i)
    requires n == if BytesTo(t, i) >= RAW_AFTER then i else i + loc(t[i..]).offset - 1
    ensures Push(loc, Whole(loc, t[..n]), t[n..]).state != Whole(loc, t).state
  {
    NeverRaw(loc, t);
    if BytesTo(t, i) >= RAW_AFTER {
      NoBraceBefore(t, i);
      StaysRaw(loc, t[..n], t[n..]);
    } else {
      CutBeforeContent(loc, t, i, n);
      StaysSuppressed(loc, t[..n], t[n..]);
    }
  }

  lemma NoBraceBefore(t: string, i: nat)
    requires Brace(t) == Some(i)
    ensures Brace(t[..i]).None? && ByteLen(t[..i]) == BytesTo(t, i)
  {
    assert t[..i] + t[i..] == t;
    BytesPrefix(t[..i], t[i..], i);
    FindCharIsFirst(t, '{', 0);
  }

  /** Chunking independence, exactly: every split of `t` leaves the same fields and
      emits the same text as one push if and only if `t` is steady. */
  lemma ChunkingIndependence(loc: Locator, f: FS, t: string)
    requires Initial(f)
    requires Stable(loc)
    ensures Steady(loc, t) <==> forall chunks | Concat(chunks) == t ::
      PushAll(loc, f, chunks) == Push(loc, f, t) && EmitsAll(loc, f, chunks) == Emits(loc, f, t)
  {
    WholeIsOnePush(loc, f, t);
    if Steady(loc, t) {
      forall chunks | Concat(chunks) == t
        ensures PushAll(loc, f, chunks) == Push(loc, f, t) && EmitsAll(loc, f, chunks) == Emits(loc, f, t)
      {
        SteadySplit(loc, f, chunks, t);
      }
    } else {
      var chunks := UnsteadySplit(loc, f, t);
    }
  }
}

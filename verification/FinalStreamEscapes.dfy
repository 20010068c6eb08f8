/** The extractor inverts JSON string escaping (section 7 of RFC 8259). */
module FinalStreamEscapes {
  import opened JsonEscapes
  import opened Prelude
  import opened StreamText
  import opened FinalStream
  import opened FinalStreamResults

  /** One unit of an escaped JSON string (section 7 of RFC 8259): a plain character, a
      two-character escape, a \u escape of four hex digits, or a surrogate pair. */
  datatype Piece =
    | Plain(c: char)
    | Short(c: char)
    | Hex(digits: string)
    | Pair(high: string, low: string)

  ghost predicate Valid(p: Piece) {
    match p
    case Plain(c) => c != '"' && c != '\\'
    case Short(c) => ShortCode(c).Some?
    case Hex(d) => IsHex4(d) && !(0xD800 <= HexValue(d) < 0xE000)
    case Pair(h, l) => IsHex4(h) && IsHex4(l) && 0xD800 <= HexValue(h) < 0xDC00 <= HexValue(l) < 0xE000
  }

  function Text(p: Piece): string {
    match p
    case Plain(c) => [c]
    case Short(c) => ['\\', c]
    case Hex(d) => ['\\', 'u'] + d
    case Pair(h, l) => ['\\', 'u'] + h + (['\\', 'u'] + l)
  }

  /** What the piece stands for, in the standard. */
  ghost function Meaning(p: Piece): string
    requires Valid(p)
  {
    match p
    case Plain(c) => [c]
    case Short(c) => [ShortCode(c).value as char]
    case Hex(d) => [HexValue(d) as char]
    case Pair(h, l) => [(0x1_0000 + (HexValue(h) - 0xD800) * 0x400 + (HexValue(l) - 0xDC00)) as char]
  }

  function TextAll(ps: seq<Piece>): string {
    if ps == [] then "" else Text(ps[0]) + TextAll(ps[1..])
  }

  ghost function MeaningAll(ps: seq<Piece>): string
    requires forall p :: p in ps ==> Valid(p)
  {
    if ps == [] then "" else Meaning(ps[0]) + MeaningAll(ps[1..])
  }

  function Pairs(ps: seq<Piece>): nat {
    if ps == [] then 0 else (if ps[0].Pair? then 1 else 0) + Pairs(ps[1..])
  }

  /** Reading `s` from inside the content stays inside and emits `out`. */
  predicate Reads(s: string, out: string) {
    Reach(InContent, s) == InContent && Used(InContent, s) == |s| && Output(InContent, s) == out
  }

  lemma ReadsConcat(s: string, a: string, t: string, b: string)
    requires Reads(s, a) && Reads(t, b)
    ensures Reads(s + t, a + b)
  {
    ReadConcat(InContent, s, t);
  }

  /** Reading one character and then the rest. */
  lemma ReadCons(p: Parse, c: char, s: string)
    requires !Stopped(p)
    ensures var (q, o) := Next(p, c);
            && Reach(p, [c] + s) == Reach(q, s) && Used(p, [c] + s) == 1 + Used(q, s)
            && Output(p, [c] + s) == o + Output(q, s)
  {
    assert ([c] + s)[0] == c && ([c] + s)[1..] == s;
  }

  lemma ReadsPlain(c: char)
    requires c != '"' && c != '\\'
    ensures Reads([c], [c])
  {
    ReadCons(InContent, c, []);
    assert [c] + [] == [c];
  }

  lemma ReadsShort(c: char)
    requires ShortCode(c).Some?
    ensures Reads(['\\', c], [ShortCode(c).value as char])
  {
    assert ['\\', c] == ['\\'] + ([c] + []);
    ReadCons(InContent, '\\', [c] + []);
    ReadCons(Escaped, c, []);
  }

  /** One digit of a \u escape. */
  lemma ReadDigit(rem: nat, acc: nat, c: char, d: nat, s: string)
    requires HexDigit(c) == Some(d) && rem > 1
    ensures var (p, q) := (Unicode(rem, acc), Unicode(rem - 1, acc * 16 + d));
            && Reach(p, [c] + s) == Reach(q, s) && Used(p, [c] + s) == 1 + Used(q, s)
            && Output(p, [c] + s) == Output(q, s)
  {
    ReadCons(Unicode(rem, acc), c, s);
  }

  lemma ReadLastDigit(acc: nat, c: char, d: nat)
    requires HexDigit(c) == Some(d)
    ensures var p := Unicode(1, acc);
            Reach(p, [c]) == InContent && Used(p, [c]) == 1 && Output(p, [c]) == FromCode(acc * 16 + d)
  {
    assert [c] == [c] + [];
    ReadCons(Unicode(1, acc), c, []);
  }

  /** The last two digits. */
  lemma ReadsLastTwo(acc: nat, c2: char, c3: char, d2: nat, d3: nat)
    requires HexDigit(c2) == Some(d2) && HexDigit(c3) == Some(d3)
    ensures var (p, h) := (Unicode(2, acc), [c2] + [c3]);
            Reach(p, h) == InContent && Used(p, h) == 2 && Output(p, h) == FromCode(acc * 256 + d2 * 16 + d3)
  {
    ReadDigit(2, acc, c2, d2, [c3]);
    ReadLastDigit(acc * 16 + d2, c3, d3);
  }

  /** The four digits; surrogates emit nothing. */
  lemma ReadsDigits(c0: char, c1: char, low: string, d0: nat, d1: nat, v: nat)
    requires HexDigit(c0) == Some(d0) && HexDigit(c1) == Some(d1)
    requires var p := Unicode(2, d0 * 16 + d1);
             Reach(p, low) == InContent && Used(p, low) == 2 && Output(p, low) == FromCode(v)
    ensures var (p, h) := (Unicode(4, 0), [c0] + ([c1] + low));
            Reach(p, h) == InContent && Used(p, h) == 4 && Output(p, h) == FromCode(v)
  {
    ReadDigit(4, 0, c0, d0, [c1] + low);
    ReadDigit(3, d0, c1, d1, low);
  }

  lemma ReadsHex(h: string)
    requires IsHex4(h)
    ensures Reads(['\\', 'u'] + h, FromCode(HexValue(h)))
  {
    var d := HexDigits(h);
    ReadsLastTwo(d[0] * 16 + d[1], h[2], h[3], d[2], d[3]);
    ReadsDigits(h[0], h[1], [h[2]] + [h[3]], d[0], d[1], HexValue(h));
    assert h == [h[0]] + ([h[1]] + ([h[2]] + [h[3]]));
    ReadsU(h, FromCode(HexValue(h)));
  }

  lemma ReadsU(h: string, out: string)
    requires |h| == 4 && Reach(Unicode(4, 0), h) == InContent && Used(Unicode(4, 0), h) == 4
    requires Output(Unicode(4, 0), h) == out
    ensures Reads(['\\', 'u'] + h, out)
  {
    assert ['\\', 'u'] + h == ['\\'] + (['u'] + h);
    ReadCons(InContent, '\\', ['u'] + h);
    ReadCons(Escaped, 'u', h);
  }

  /** An escape that the standard does not know stands for its character. */
  lemma ReadsUnknown(c: char)
    requires ShortCode(c).None? && c != 'u'
    ensures Reads(['\\', c], [c])
  {
    assert ['\\', c] == ['\\'] + ([c] + []);
    ReadCons(InContent, '\\', [c] + []);
    ReadCons(Escaped, c, []);
  }

  /** A \u escape cut short is dropped, together with the character that cuts it. */
  lemma {:induction false} ReadsMalformed(rem: nat, acc: nat, digits: string, bad: char)
    requires |digits| < rem && (forall k :: 0 <= k < |digits| ==> HexDigit(digits[k]).Some?) && HexDigit(bad).None?
    ensures var (p, s) := (Unicode(rem, acc), digits + [bad]);
            Reach(p, s) == InContent && Used(p, s) == |s| && Output(p, s) == ""
    decreases |digits|
  {
    if digits == [] {
      assert digits + [bad] == [bad] + [];
      ReadCons(Unicode(rem, acc), bad, []);
    } else {
      var d := HexDigit(digits[0]).value;
      assert digits + [bad] == [digits[0]] + (digits[1..] + [bad]);
      ReadDigit(rem, acc, digits[0], d, digits[1..] + [bad]);
      ReadsMalformed(rem - 1, acc * 16 + d, digits[1..], bad);
    }
  }

  lemma ReadsPair(h: string, l: string)
    requires Valid(Pair(h, l))
    ensures Reads(Text(Pair(h, l)), "")
  {
    ReadsHex(h);
    ReadsHex(l);
    ReadsConcat(['\\', 'u'] + h, "", ['\\', 'u'] + l, "");
    assert "" + "" == "";
  }

  lemma ReadsPiece(p: Piece)
    requires Valid(p)
    ensures Reads(Text(p), if p.Pair? then "" else Meaning(p))
  {
    match p
    case Plain(c) => ReadsPlain(c);
    case Short(c) => ReadsShort(c);
    case Hex(d) => ReadsHex(d);
    case Pair(h, l) => ReadsPair(h, l);
  }

  lemma MeaningIsOne(p: Piece)
    requires Valid(p)
    ensures |Meaning(p)| == 1
  {
  }

  /** What the extractor makes of escaped content: every piece's meaning, without the
      surrogate pairs. */
  ghost function Kept(ps: seq<Piece>): string
    requires forall p :: p in ps ==> Valid(p)
  {
    if ps == [] then "" else (if ps[0].Pair? then "" else Meaning(ps[0])) + Kept(ps[1..])
  }

  lemma {:induction false} ReadsPieces(ps: seq<Piece>)
    requires forall p :: p in ps ==> Valid(p)
    ensures Reads(TextAll(ps), Kept(ps))
    ensures |MeaningAll(ps)| == |Kept(ps)| + Pairs(ps)
    ensures Pairs(ps) == 0 ==> Kept(ps) == MeaningAll(ps)
  {
    if ps != [] {
      ReadsPiece(ps[0]);
      MeaningIsOne(ps[0]);
      ReadsPieces(ps[1..]);
      ReadsConcat(Text(ps[0]), if ps[0].Pair? then "" else Meaning(ps[0]), TextAll(ps[1..]), Kept(ps[1..]));
    }
  }

  // ----- whole messages ---------------------------------------------------------------

  lemma FindCharIs(s: string, c: char, i: nat, j: nat)
    requires i <= j < |s| && s[j] == c && forall k :: i <= k < j ==> s[k] != c
    ensures FindChar(s, c, i) == Some(j)
  {
    FindCharIsFirst(s, c, i);
  }

  /** A member up to the opening quote of its string value: what stands before the key,
      the key, and the white space on both sides of the colon. */
  datatype Opening = Opening(lead: string, name: string, gap: string)

  function Opens(key: string, o: Opening): string { o.lead + (key + (o.name + ([':'] + (o.gap + ['"'])))) }

  /** Behind `i` characters, the key is found and its value's opening quote. */
  lemma OpensAt(s: string, key: string, o: Opening, i: nat, rest: string)
    requires i <= |s| && s[i..] == Opens(key, o) + rest && key != [] && key[0] !in o.lead
    requires White(o.name) && White(o.gap)
    ensures KeyOpenQuote(s, key, i) == Some(i + |Opens(key, o)|)
  {
    OpensSplit(key, o, rest);
    KeyThenQuote(s, key, i, |o.lead|, |o.lead| + |key| + |o.name|, |Opens(key, o)| - 1);
  }

  lemma KeyThenQuote(s: string, key: string, i: nat, j: nat, colon: nat, quote: nat)
    requires i <= |s| && key != [] && j + |key| <= colon < quote < |s[i..]|
    requires key[0] !in s[i..][..j] && s[i..][j..j + |key|] == key
    requires (forall k :: j + |key| <= k < colon ==> s[i..][k] != ':') && s[i..][colon] == ':'
    requires (forall k :: colon + 1 <= k < quote ==> s[i..][k] != '"') && s[i..][quote] == '"'
    ensures KeyOpenQuote(s, key, i) == Some(i + quote + 1)
  {
    KeyAt(s, key, i, i + j);
    FindCharBehind(s, i, ':', j + |key|, colon);
    FindCharBehind(s, i, '"', colon + 1, quote);
  }

  lemma FindCharBehind(s: string, i: nat, c: char, from: nat, at: nat)
    requires i <= |s| && from <= at < |s[i..]| && s[i..][at] == c
    requires forall k :: from <= k < at ==> s[i..][k] != c
    ensures FindChar(s, c, i + from) == Some(i + at)
  {
    forall k | i + from <= k < i + at ensures s[k] != c { assert s[k] == s[i..][k - i]; }
    FindCharIs(s, c, i + from, i + at);
  }

  lemma OpensSplit(key: string, o: Opening, rest: string)
    requires White(o.name) && White(o.gap)
    ensures var t := Opens(key, o) + rest; var j := |o.lead|; var colon := j + |key| + |o.name|;
      && |t| == colon + 2 + |o.gap| + |rest| && t[..j] == o.lead && t[j..j + |key|] == key
      && (forall k :: j + |key| <= k < colon ==> t[k] != ':') && t[colon] == ':'
      && (forall k :: colon + 1 <= k < colon + 1 + |o.gap| ==> t[k] != '"') && t[colon + 1 + |o.gap|] == '"'
  {
    var t := Opens(key, o) + rest;
    var j := |o.lead|;
    var colon := j + |key| + |o.name|;
    forall k | j + |key| <= k < colon ensures t[k] != ':' { assert t[k] == o.name[k - j - |key|]; }
    forall k | colon + 1 <= k < colon + 1 + |o.gap| ensures t[k] != '"' { assert t[k] == o.gap[k - colon - 1]; }
  }

  /** A key that starts at `j`. */
  lemma KeyAt(s: string, key: string, i: nat, j: nat)
    requires key != [] && i <= j && j + |key| <= |s| && s[i..][j - i..j - i + |key|] == key
    requires key[0] !in s[i..][..j - i]
    ensures Find(s, key, i) == Some(j)
  {
    forall k | i <= k < j ensures !Occurs(s, key, k) {
      if k + |key| <= |s| { assert s[k..k + |key|][0] == s[k] == s[i..][..j - i][k - i]; }
    }
    FindIs(s, key, i, j);
  }

  /** Keys that cannot be mistaken for what stands around them. */
  predicate Sound(pr: Protocol) {
    && pr.typeKey != [] && pr.typeKey[0] != '{' && !IsWhite(pr.typeKey[0])
    && pr.contentKey != [] && pr.contentKey[0] != ',' && !IsWhite(pr.contentKey[0])
    && '"' !in pr.finalValue
  }

  /** The white space a model may write between the tokens of an action, in order. */
  datatype Gaps = Gaps(brace: string, name: string, colon: string, value: string, comma: string,
    name': string, colon': string)

  predicate AllWhite(g: Gaps) {
    && White(g.brace) && White(g.name) && White(g.colon) && White(g.value) && White(g.comma)
    && White(g.name') && White(g.colon')
  }

  /** `{"type":"<value>"`, with white space between the tokens. */
  function TypePrefix(pr: Protocol, g: Gaps, value: string): (s: string)
    ensures s != "" && s[0] == '{'
  {
    Opens(pr.typeKey, Opening(['{'] + g.brace, g.name, g.colon)) + (value + ['"'])
  }

  /** `{"type":"final","content":"`, with white space between the tokens. */
  function FinalPrefix(pr: Protocol, g: Gaps): (s: string)
    ensures s != "" && s[0] == '{'
  {
    TypePrefix(pr, g, pr.finalValue) + Opens(pr.contentKey, Opening(g.value + ([','] + g.comma), g.name', g.colon'))
  }

  lemma NotInLead(c: char, first: char, w: string)
    requires c != first && !IsWhite(c) && White(w)
    ensures c !in [first] + w
  {
  }

  lemma TypePrefixValue(pr: Protocol, g: Gaps, value: string, rest: string)
    requires Sound(pr) && AllWhite(g) && '"' !in value
    ensures StringValue(TypePrefix(pr, g, value) + rest, pr.typeKey) == Some((value, |TypePrefix(pr, g, value)|))
  {
    var o := Opening(['{'] + g.brace, g.name, g.colon);
    var a := Opens(pr.typeKey, o);
    var s := TypePrefix(pr, g, value) + rest;
    assert s[0..] == s == a + (value + (['"'] + rest));
    NotInLead(pr.typeKey[0], '{', g.brace);
    OpensAt(s, pr.typeKey, o, 0, value + (['"'] + rest));
    assert s[|a|..|a| + |value|] == value && s[|a| + |value|] == '"';
    ValueEnds(s, value, |a|);
  }

  lemma ValueEnds(s: string, value: string, open: nat)
    requires open + |value| < |s| && s[open..open + |value|] == value && s[open + |value|] == '"' && '"' !in value
    ensures FindChar(s, '"', open) == Some(open + |value|)
  {
    forall k | open <= k < open + |value| ensures s[k] != '"' { assert s[k] == value[k - open]; }
    FindCharIs(s, '"', open, open + |value|);
  }

  lemma FinalPrefixLocated(pr: Protocol, g: Gaps)
    requires Sound(pr) && AllWhite(g)
    ensures Locate(pr, FinalPrefix(pr, g)) == ContentAt(|FinalPrefix(pr, g)|)
  {
    var o := Opening(g.value + ([','] + g.comma), g.name', g.colon');
    var a, b := TypePrefix(pr, g, pr.finalValue), Opens(pr.contentKey, o);
    TypePrefixValue(pr, g, pr.finalValue, b);
    NotInLead(pr.contentKey[0], ',', g.comma);
    assert (a + b)[|a|..] == b + [];
    OpensAt(a + b, pr.contentKey, o, |a|, []);
  }

  lemma OtherPrefixLocated(pr: Protocol, g: Gaps, value: string)
    requires Sound(pr) && AllWhite(g) && '"' !in value && value != pr.finalValue
    ensures Locate(pr, TypePrefix(pr, g, value)) == NotFinal
  {
    TypePrefixValue(pr, g, value, "");
    assert TypePrefix(pr, g, value) + "" == TypePrefix(pr, g, value);
  }

  /** A text that opens with a located prefix is steady, and placed by that prefix. */
  lemma PlacedByPrefix(loc: Locator, prefix: string, rest: string, t: string)
    requires Stable(loc) && t == prefix + rest && prefix != "" && prefix[0] == '{'
    requires loc(prefix) == NotFinal || (loc(prefix) == ContentAt(|prefix|) && BytesTo(prefix, |prefix| - 1) <= 4096)
    ensures Steady(loc, t)
    ensures Placed(loc, t) == if loc(prefix).NotFinal? then FS(t, 0, Suppressed) else FS(t, |prefix|, InContent)
  {
    assert t[0..] == prefix + rest;
    assert StableAt(loc, prefix, rest);
    BytesPrefix(prefix, rest, |prefix| - 1);
    PlacedBy(loc, t, loc(prefix));
  }

  lemma PlacedBy(loc: Locator, t: string, target: Target)
    requires t != "" && t[0] == '{' && loc(t[0..]) == target
    requires target == NotFinal || (target.ContentAt? && BytesTo(t, target.offset - 1) <= 4096)
    ensures Steady(loc, t)
    ensures Placed(loc, t) == if target.NotFinal? then FS(t, 0, Suppressed) else FS(t, target.offset, InContent)
  {
    assert Brace(t) == Some(0);
  }

  lemma ContentRead(ps: seq<Piece>, rest: string)
    requires forall p :: p in ps ==> Valid(p)
    ensures var body := TextAll(ps) + (['"'] + rest);
            Output(InContent, body) == Kept(ps) && Reach(InContent, body) == Done
  {
    ReadsPieces(ps);
    ReadConcat(InContent, TextAll(ps), ['"'] + rest);
    ReadCons(InContent, '"', rest);
    assert Output(Done, rest) == "" && Kept(ps) + ("" + "") == Kept(ps);
  }

  /** Behind a prefix that opens the content the text is read as content, in any chunks. */
  lemma BehindPrefix(loc: Locator, prefix: string, f: FS, chunks: seq<string>, body: string)
    requires Stable(loc) && prefix != "" && prefix[0] == '{' && loc(prefix) == ContentAt(|prefix|)
    requires BytesTo(prefix, |prefix| - 1) <= 4096 && Initial(f) && Concat(chunks) == prefix + body
    ensures PushAll(loc, f, chunks).state == Reach(InContent, body)
    ensures EmitsAll(loc, f, chunks) == Output(InContent, body)
  {
    var t := Concat(chunks);
    PlacedByPrefix(loc, prefix, body, t);
    SteadySplit(loc, f, chunks, t);
    assert t[|prefix|..] == body;
  }

  /** ... up to the closing quote, and nothing behind it. */
  lemma ContentDecoded(loc: Locator, prefix: string, f: FS, chunks: seq<string>, ps: seq<Piece>, rest: string)
    requires Stable(loc) && prefix != "" && prefix[0] == '{' && loc(prefix) == ContentAt(|prefix|)
    requires BytesTo(prefix, |prefix| - 1) <= 4096 && Initial(f) && forall p :: p in ps ==> Valid(p)
    requires Concat(chunks) == prefix + (TextAll(ps) + (['"'] + rest))
    ensures PushAll(loc, f, chunks).state.Done? && EmitsAll(loc, f, chunks) == Kept(ps)
    ensures Kept(ps) == MeaningAll(ps) <==> Pairs(ps) == 0
  {
    BehindPrefix(loc, prefix, f, chunks, TextAll(ps) + (['"'] + rest));
    ContentRead(ps, rest);
    ReadsPieces(ps);
  }

  /** Feeding a final action with any JSON-escaped content and any white space between its
      tokens, in any chunks, emits exactly the pieces' meanings without the surrogate pairs:
      the content itself if and only if it was escaped without surrogate pairs. */
  lemma FinalContentDecoded(pr: Protocol, g: Gaps, prefix: string, f: FS, chunks: seq<string>, ps: seq<Piece>,
                            rest: string)
    requires Sound(pr) && AllWhite(g) && prefix == FinalPrefix(pr, g) && BytesTo(prefix, |prefix| - 1) <= 4096
    requires Initial(f) && forall p :: p in ps ==> Valid(p)
    requires Concat(chunks) == prefix + (TextAll(ps) + (['"'] + rest))
    ensures PushAll(LocatorOf(pr), f, chunks).state.Done? && EmitsAll(LocatorOf(pr), f, chunks) == Kept(ps)
    ensures Kept(ps) == MeaningAll(ps) <==> Pairs(ps) == 0
  {
    FinalPrefixLocated(pr, g);
    ProtocolIsStable(pr);
    ContentDecoded(LocatorOf(pr), prefix, f, chunks, ps, rest);
  }

  /** Any text that starts as another action emits nothing, in any chunks. */
  lemma OtherActionSilent(pr: Protocol, g: Gaps, f: FS, chunks: seq<string>, value: string, rest: string)
    requires Sound(pr) && AllWhite(g) && '"' !in value && value != pr.finalValue
    requires Initial(f) && Concat(chunks) == TypePrefix(pr, g, value) + rest
    ensures EmitsAll(LocatorOf(pr), f, chunks) == "" && PushAll(LocatorOf(pr), f, chunks).state.Suppressed?
  {
    OtherPrefixLocated(pr, g, value);
    ProtocolIsStable(pr);
    SilentBehind(LocatorOf(pr), TypePrefix(pr, g, value), f, chunks, rest);
  }

  lemma SilentBehind(loc: Locator, prefix: string, f: FS, chunks: seq<string>, rest: string)
    requires Stable(loc) && prefix != "" && prefix[0] == '{' && loc(prefix) == NotFinal
    requires Initial(f) && Concat(chunks) == prefix + rest
    ensures EmitsAll(loc, f, chunks) == "" && PushAll(loc, f, chunks).state.Suppressed?
  {
    PlacedByPrefix(loc, prefix, rest, Concat(chunks));
    SteadySplit(loc, f, chunks, Concat(chunks));
  }

  /** A text without a brace is streamed as it is from 64 bytes on, and not at all before,
      in any chunks. */
  lemma PlainTextStreams(loc: Locator, f: FS, chunks: seq<string>, t: string)
    requires Stable(loc) && Initial(f) && t == Concat(chunks) && '{' !in t
    ensures EmitsAll(loc, f, chunks) == if ByteLen(t) >= 64 then t else ""
  {
    assert Brace(t).None?;
    SteadySplit(loc, f, chunks, t);
    assert t[0..] == t;
    ReadRaw(t);
  }

  /** The prefix of a tool call or another action, without white space. */
  lemma PlainPrefix(pr: Protocol, g: Gaps, value: string)
    requires g == Gaps("", "", "", "", "", "", "")
    ensures TypePrefix(pr, g, value) == ['{'] + pr.typeKey + [':', '"'] + value + ['"']
    ensures FinalPrefix(pr, g) == TypePrefix(pr, g, pr.finalValue) + [','] + pr.contentKey + [':', '"']
  {
  }

  /** All of this applies to the protocol itself. */
  lemma ProtocolIsSound()
    ensures Sound(PROTOCOL) && ByProtocol() == LocatorOf(PROTOCOL)
    ensures PROTOCOL == Protocol("\"type\"", "final", "\"content\"")
    ensures '"' !in "tool_call" && "tool_call" != PROTOCOL.finalValue
  {
  }
}

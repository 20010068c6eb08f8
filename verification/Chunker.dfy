/** Splitting document text into chunks on paragraph boundaries. */
module Chunker {
  import opened Prelude
  import opened StreamText
  import opened Trimming

  function Sep(): string { ['\n', '\n'] }

  /** The source's `split("\n\n")`. */
  function Paras(s: string): seq<string>
    decreases |s|
  {
    match Find(s, Sep(), 0)
    case None => [s]
    case Some(i) => [s[..i]] + Paras(s[i + 2..])
  }

  /** Paragraphs, each followed by the separator. */
  function Glue(ps: seq<string>): string
    decreases |ps|
  {
    if ps == [] then [] else (ps[0] + Sep()) + Glue(ps[1..])
  }

  lemma {:induction false} ParasGlue(s: string)
    ensures Paras(s) != [] && Glue(Paras(s)) == s + Sep()
    decreases |s|
  {
    FindIsFirst(s, Sep(), 0);
    match Find(s, Sep(), 0)
    case None => assert Glue([s]) == s + Sep();
    case Some(i) =>
      ParasGlue(s[i + 2..]);
      GlueFirst(s[..i], Paras(s[i + 2..]));
      PairAt(s, i);
      Cut(s, i);
      Regrouped(s, s[..i], Sep(), s[i + 2..]);
  }

  lemma Regrouped(s: string, a: string, sep: string, b: string)
    requires s == a + (sep + b)
    ensures (a + sep) + (b + sep) == s + sep
  {
  }

  lemma GlueFirst(p: string, ps: seq<string>)
    ensures Glue([p] + ps) == (p + Sep()) + Glue(ps)
  {
    assert ([p] + ps)[1..] == ps;
  }

  lemma {:induction false} GlueConcat(a: seq<string>, b: seq<string>)
    ensures Glue(a + b) == Glue(a) + Glue(b)
    decreases |a|
  {
    if a == [] {
      assert a + b == b;
    } else {
      assert (a + b)[1..] == a[1..] + b;
      GlueConcat(a[1..], b);
    }
  }

  lemma GlueOne(p: string)
    ensures Glue([p]) == p + Sep()
  {
    assert [p][1..] == [];
  }

  /** The paragraphs with a blank line between them. */
  function Join(ps: seq<string>): string
    requires ps != []
    decreases |ps|
  {
    if |ps| == 1 then ps[0] else ps[0] + (['\n', '\n'] + Join(ps[1..]))
  }

  /** A line feed that another one follows, or nothing. */
  predicate PairFrom(p: string, k: nat)
    requires k < |p|
  {
    p[k] == '\n' && (k + 1 == |p| || p[k + 1] == '\n')
  }

  /** No pair of line feeds inside, and none that starts before the two that follow. */
  predicate EndsAtFirst(p: string) { forall k :: 0 <= k < |p| ==> !PairFrom(p, k) }

  predicate HasNone(p: string) { forall k :: 0 <= k < |p| - 1 ==> !(p[k] == p[k + 1] == '\n') }

  /** `ps` are the paragraphs of `s`: joined they are `s`, none holds a blank line, and each
      one but the last ends where the first blank line from its start on begins. */
  predicate IsSplit(s: string, ps: seq<string>) {
    && ps != [] && Join(ps) == s && HasNone(ps[|ps| - 1])
    && forall k :: 0 <= k < |ps| - 1 ==> EndsAtFirst(ps[k])
  }

  lemma PairAt(s: string, k: nat)
    ensures Occurs(s, Sep(), k) <==> k + 1 < |s| && s[k] == s[k + 1] == '\n'
  {
    if k + 2 <= |s| { assert s[k..k + 2] == [s[k], s[k + 1]]; }
  }

  /** The first blank line of a joined text is the one behind its first paragraph. */
  lemma FirstPair(p: string, rest: string)
    requires EndsAtFirst(p)
    ensures var s := p + (Sep() + rest); Find(s, Sep(), 0) == Some(|p|) && s[..|p|] == p && s[|p| + 2..] == rest
  {
    var s := p + (Sep() + rest);
    assert s[|p|..|p| + 2] == Sep();
    forall k | 0 <= k < |p| ensures !Occurs(s, Sep(), k) {
      PairAt(s, k);
      assert !PairFrom(p, k);
      assert s[k] == p[k];
      if k + 1 < |p| { assert s[k + 1] == p[k + 1]; }
    }
    FindIs(s, Sep(), 0, |p|);
  }

  lemma NoPair(p: string)
    ensures HasNone(p) <==> Find(p, Sep(), 0).None?
  {
    FindIsFirst(p, Sep(), 0);
    match Find(p, Sep(), 0)
    case Some(j) => PairAt(p, j);
    case None =>
      forall k | 0 <= k < |p| - 1 ensures !(p[k] == p[k + 1] == '\n') { PairAt(p, k); }
  }

  lemma CutEnds(s: string, i: nat, p: string)
    requires Find(s, Sep(), 0) == Some(i) && p == s[..i]
    ensures EndsAtFirst(p) && s == p + (['\n', '\n'] + s[i + 2..])
  {
    FindIsFirst(s, Sep(), 0);
    PairAt(s, i);
    forall k | 0 <= k < |p| ensures !PairFrom(p, k) {
      assert !Occurs(s, Sep(), k);
      PairAt(s, k);
      assert s[k] == p[k];
      if k + 1 < i { assert s[k + 1] == p[k + 1]; }
    }
    Cut(s, i);
  }

  lemma Cut(s: string, i: nat)
    requires i + 1 < |s| && s[i] == s[i + 1] == '\n'
    ensures s == s[..i] + (['\n', '\n'] + s[i + 2..])
  {
    assert s[i..i + 2] == ['\n', '\n'];
    assert s == s[..i] + (s[i..i + 2] + s[i + 2..]);
  }

  lemma SplitCons(p: string, t: string, rest: seq<string>, ps: seq<string>)
    requires EndsAtFirst(p) && IsSplit(t, rest) && ps == [p] + rest
    ensures IsSplit(p + (['\n', '\n'] + t), ps)
  {
    assert ps[1..] == rest && ps[|ps| - 1] == rest[|rest| - 1];
    forall k | 0 <= k < |ps| - 1 ensures EndsAtFirst(ps[k]) {
      if k > 0 { assert ps[k] == rest[k - 1]; }
    }
  }

  lemma {:induction false} ParasSplit(s: string)
    ensures IsSplit(s, Paras(s))
    decreases |s|
  {
    match Find(s, Sep(), 0)
    case None => NoPair(s);
    case Some(i) =>
      CutEnds(s, i, s[..i]);
      ParasSplit(s[i + 2..]);
      SplitCons(s[..i], s[i + 2..], Paras(s[i + 2..]), Paras(s));
  }

  lemma SplitFirst(s: string, ps: seq<string>, rest: seq<string>)
    requires IsSplit(s, ps) && |ps| > 1 && rest == ps[1..]
    ensures s == ps[0] + (['\n', '\n'] + Join(rest)) && EndsAtFirst(ps[0]) && IsSplit(Join(rest), rest)
  {
    assert rest[|rest| - 1] == ps[|ps| - 1];
    forall k | 0 <= k < |rest| - 1 ensures EndsAtFirst(rest[k]) { assert rest[k] == ps[k + 1]; }
  }

  lemma {:induction false} SplitIsParas(s: string, ps: seq<string>)
    requires IsSplit(s, ps)
    ensures ps == Paras(s)
    decreases |ps|
  {
    if |ps| == 1 {
      NoPair(s);
      assert ps == [s];
    } else {
      var rest := ps[1..];
      SplitFirst(s, ps, rest);
      FirstPair(ps[0], Join(rest));
      SplitIsParas(Join(rest), rest);
      assert ps == [ps[0]] + rest;
    }
  }

  /** The paragraphs are the one way to split the text at blank lines from the left. */
  lemma ParasAre(s: string, ps: seq<string>)
    ensures ps == Paras(s) <==> IsSplit(s, ps)
  {
    ParasSplit(s);
    if IsSplit(s, ps) { SplitIsParas(s, ps); }
  }

  /** A paragraph that no longer fits starts a new group, unless the group is empty. */
  predicate Closes(cur: seq<string>, p: string, size: nat) { ByteLen(Glue(cur)) + ByteLen(p) > size && cur != [] }

  /** The paragraphs of each chunk, the last one still open. */
  function Groups(paras: seq<string>, size: nat, cur: seq<string>): (g: seq<seq<string>>)
    ensures g != []
    decreases |paras|
  {
    if paras == [] then [cur]
    else if Closes(cur, paras[0], size) then [cur] + Groups(paras[1..], size, [paras[0]])
    else Groups(paras[1..], size, cur + [paras[0]])
  }

  /** The text of each group; a last group of white space is dropped. */
  function Texts(groups: seq<seq<string>>): seq<string>
    decreases |groups|
  {
    if groups == [] then []
    else if |groups| == 1 then (if Trim(Glue(groups[0])) == [] then [] else [Glue(groups[0])])
    else [Glue(groups[0])] + Texts(groups[1..])
  }

  function Chunks(text: string, size: nat): seq<string> { Texts(Groups(Paras(text), size, [])) }

  method Chunk(text: string, size: nat) returns (chunks: seq<string>)
    ensures chunks == Chunks(text, size)
  {
    chunks := [];
    var cur: string := [];
    var paras := Paras(text);
    ghost var group: seq<string> := [];
    for k := 0 to |paras|
      invariant cur == Glue(group) && (cur == [] <==> group == [])
      invariant chunks + Texts(Groups(paras[k..], size, group)) == Chunks(text, size)
    {
      var para := paras[k];
      assert paras[k..][0] == para && paras[k..][1..] == paras[k + 1..];
      if ByteLen(cur) + ByteLen(para) > size && cur != [] {
        Pushed(chunks, group, Groups(paras[k + 1..], size, [para]));
        chunks := chunks + [cur];
        cur := [];
        group := [];
      }
      GlueConcat(group, [para]);
      GlueOne(para);
      Regroup(cur, para);
      assert [] + [para] == [para];
      cur := cur + para;
      cur := cur + ['\n', '\n'];
      group := group + [para];
    }
    if Trim(cur) != [] { chunks := chunks + [cur]; }
  }

  lemma Pushed(chunks: seq<string>, group: seq<string>, rest: seq<seq<string>>)
    requires rest != []
    ensures chunks + Texts([group] + rest) == (chunks + [Glue(group)]) + Texts(rest)
  {
    assert ([group] + rest)[1..] == rest;
  }

  lemma Regroup(cur: string, para: string)
    ensures cur + (para + Sep()) == (cur + para) + Sep()
  {
  }

  // ----- conservation --------------------------------------------------------------------------

  function Flat(chunks: seq<string>): string
    decreases |chunks|
  {
    if chunks == [] then [] else chunks[0] + Flat(chunks[1..])
  }

  function FlatGroups(groups: seq<seq<string>>): seq<string>
    decreases |groups|
  {
    if groups == [] then [] else groups[0] + FlatGroups(groups[1..])
  }

  /** The white space that is dropped at the end. */
  function Tail(groups: seq<seq<string>>): string
    requires groups != []
  {
    var last := Glue(groups[|groups| - 1]);
    if Trim(last) == [] then last else []
  }

  /** The groups hold the paragraphs in order. */
  lemma {:induction false} GroupsHold(paras: seq<string>, size: nat, cur: seq<string>)
    ensures FlatGroups(Groups(paras, size, cur)) == cur + paras
    decreases |paras|
  {
    if paras == [] {
      assert FlatGroups([cur]) == cur + FlatGroups([]);
    } else {
      assert cur + paras == (cur + [paras[0]]) + paras[1..] == cur + ([paras[0]] + paras[1..]);
      if Closes(cur, paras[0], size) {
        GroupsHold(paras[1..], size, [paras[0]]);
        assert ([cur] + Groups(paras[1..], size, [paras[0]]))[1..] == Groups(paras[1..], size, [paras[0]]);
      } else {
        GroupsHold(paras[1..], size, cur + [paras[0]]);
      }
    }
  }

  lemma {:induction false} TextsHold(groups: seq<seq<string>>)
    requires groups != []
    ensures Flat(Texts(groups)) + Tail(groups) == Glue(FlatGroups(groups))
    decreases |groups|
  {
    var first, rest := groups[0], groups[1..];
    GlueConcat(first, FlatGroups(rest));
    if rest == [] {
      LastText(Glue(first));
    } else {
      TextsHold(rest);
      assert rest[|rest| - 1] == groups[|groups| - 1];
      FlatFirst(Glue(first), Texts(rest), Tail(groups));
    }
  }

  lemma LastText(t: string)
    ensures Flat([t]) == t && Flat([]) == [] && [] + t == t && t + [] == t
  {
  }

  lemma FlatFirst(t: string, rest: seq<string>, tail: string)
    ensures Flat([t] + rest) + tail == t + (Flat(rest) + tail)
  {
    assert ([t] + rest)[1..] == rest;
  }

  /** The chunks in order are the text and a blank line, minus only a tail of white space;
      without a tail the last chunk holds more than white space. */
  lemma ChunksConserve(text: string, size: nat) returns (tail: string)
    ensures Flat(Chunks(text, size)) + tail == text + ['\n', '\n'] && AllSpace(tail)
    ensures tail == [] ==> Chunks(text, size) != [] && !AllSpace(Chunks(text, size)[|Chunks(text, size)| - 1])
  {
    var groups := Groups(Paras(text), size, []);
    tail := Tail(groups);
    GroupsHold(Paras(text), size, []);
    assert [] + Paras(text) == Paras(text);
    TextsHold(groups);
    ParasGlue(text);
    var last := Glue(groups[|groups| - 1]);
    if Trim(last) == [] {
      NothingButSpace(last);
      assert tail == last;
      ChunksNotEmpty(text, size);
    } else {
      LastTextKept(groups);
      if AllSpace(last) { SpaceTrimmed(last); }
    }
  }

  lemma {:induction false} LastTextKept(groups: seq<seq<string>>)
    requires groups != [] && Trim(Glue(groups[|groups| - 1])) != []
    ensures Texts(groups) != [] && Texts(groups)[|Texts(groups)| - 1] == Glue(groups[|groups| - 1])
    decreases |groups|
  {
    if |groups| > 1 {
      LastTextKept(groups[1..]);
      assert groups[1..][|groups| - 2] == groups[|groups| - 1];
    }
  }

  /** No group is empty. */
  lemma ChunksNotEmpty(text: string, size: nat)
    ensures var groups := Groups(Paras(text), size, []); Glue(groups[|groups| - 1]) != []
  {
    var groups := Groups(Paras(text), size, []);
    ParasGlue(text);
    GroupsFit(Paras(text), size, []);
    if |groups| > 1 { assert Full(groups[|groups| - 2], groups[|groups| - 1], size); }
  }

  // ----- sizes -----------------------------------------------------------------------------------

  /** At most two bytes over, or a single paragraph. */
  predicate Fits(group: seq<string>, size: nat) { |group| == 1 || ByteLen(Glue(group)) <= size + 2 }

  /** The next group's first paragraph would not have fitted. */
  predicate Full(group: seq<string>, next: seq<string>, size: nat) {
    group != [] && next != [] && ByteLen(Glue(group)) + ByteLen(next[0]) > size
  }

  lemma SepBytes(p: string)
    ensures ByteLen(p + Sep()) == ByteLen(p) + 2
  {
    ByteLenConcat(p, Sep());
    assert BytesTo(Sep(), 1) == 1 && BytesTo(Sep(), 2) == 2;
  }

  lemma AddFits(cur: seq<string>, p: string, size: nat)
    requires !Closes(cur, p, size)
    ensures Fits(cur + [p], size)
  {
    if cur == [] {
      assert cur + [p] == [p];
    } else {
      GlueConcat(cur, [p]);
      GlueOne(p);
      SepBytes(p);
      ByteLenConcat(Glue(cur), p + Sep());
    }
  }

  /** Every group is within the limit, and none could have taken the next paragraph. */
  lemma {:induction false} GroupsFit(paras: seq<string>, size: nat, cur: seq<string>)
    requires (cur == [] ==> paras != []) && (cur != [] ==> Fits(cur, size))
    ensures var g := Groups(paras, size, cur);
      && (forall k :: 0 <= k < |g| ==> Fits(g[k], size))
      && (forall k :: 0 <= k < |g| - 1 ==> Full(g[k], g[k + 1], size))
      && g[0] != [] && (if cur == [] then g[0][0] == paras[0] else g[0][0] == cur[0])
    decreases |paras|
  {
    if paras != [] {
      var p, rest := paras[0], paras[1..];
      if Closes(cur, p, size) {
        GroupsFit(rest, size, [p]);
      } else {
        AddFits(cur, p, size);
        GroupsFit(rest, size, cur + [p]);
      }
    }
  }

  lemma {:induction false} TextsAre(groups: seq<seq<string>>)
    ensures |Texts(groups)| <= |groups| && forall k :: 0 <= k < |Texts(groups)| ==> Texts(groups)[k] == Glue(groups[k])
    decreases |groups|
  {
    if |groups| > 1 { TextsAre(groups[1..]); }
  }

  /** Every chunk is at most `size + 2` bytes or a single paragraph with its separator. */
  lemma ChunksFit(text: string, size: nat, k: nat) returns (group: seq<string>)
    requires k < |Chunks(text, size)|
    ensures Chunks(text, size)[k] == Glue(group) && group != []
    ensures ByteLen(Chunks(text, size)[k]) <= size + 2 || |group| == 1
    ensures forall j :: 0 <= j < |group| ==> group[j] in Paras(text)
  {
    var groups := Groups(Paras(text), size, []);
    ParasGlue(text);
    GroupsFit(Paras(text), size, []);
    TextsAre(groups);
    GroupsHold(Paras(text), size, []);
    group := groups[k];
    assert group != [] by {
      if k < |groups| - 1 {
        assert Full(groups[k], groups[k + 1], size);
      } else if k > 0 {
        assert Full(groups[k - 1], groups[k], size);
      }
    }
    InFlat(groups, k);
  }

  lemma {:induction false} InFlat(groups: seq<seq<string>>, k: nat)
    requires k < |groups|
    ensures forall j :: 0 <= j < |groups[k]| ==> groups[k][j] in FlatGroups(groups)
    decreases |groups|
  {
    if k > 0 { InFlat(groups[1..], k - 1); }
  }

  /** A chunk is closed only when the next paragraph would have made it too long. */
  lemma ChunksAreFull(text: string, size: nat, k: nat) returns (next: string)
    requires k + 1 < |Chunks(text, size)|
    ensures ByteLen(Chunks(text, size)[k]) + ByteLen(next) > size
    ensures next in Paras(text) && next + Sep() <= Chunks(text, size)[k + 1]
  {
    var groups := Groups(Paras(text), size, []);
    ParasGlue(text);
    GroupsFit(Paras(text), size, []);
    TextsAre(groups);
    assert Full(groups[k], groups[k + 1], size);
    next := groups[k + 1][0];
    GroupsHold(Paras(text), size, []);
    InFlat(groups, k + 1);
  }
}

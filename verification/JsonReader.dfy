/** A reader of compact JSON (RFC 8259), which reads back whatever is printed. */
module JsonReader {
  import opened JsonEscapes
  import opened Prelude
  import opened ParseAction

  // ----- strings (section 7 of RFC 8259) -----------------------------------------------------

  /** Four hexadecimal digits. */
  function Hex4(s: string): Option<nat> {
    if |s| < 4 then None
    else match (HexDigit(s[0]), HexDigit(s[1]), HexDigit(s[2]), HexDigit(s[3]))
      case (Some(a), Some(b), Some(c), Some(d)) => Some(((a * 16 + b) * 16 + c) * 16 + d)
      case _ => None
  }

  /** The character after a backslash and what follows it; surrogates are not read. */
  function ReadEscape(s: string): (r: Option<(char, string)>)
    ensures r.Some? ==> |r.value.1| < |s|
  {
    if s == [] then None
    else match s[0]
      case '"' => Some(('"', s[1..]))
      case '\\' => Some(('\\', s[1..]))
      case '/' => Some(('/', s[1..]))
      case 'n' => Some(('\n', s[1..]))
      case 'r' => Some(('\r', s[1..]))
      case 't' => Some(('\t', s[1..]))
      case 'b' => Some((8 as char, s[1..]))
      case 'f' => Some((12 as char, s[1..]))
      case 'u' =>
        (match Hex4(s[1..])
         case Some(v) => if v < 0xD800 || 0xE000 <= v < 0x1_0000 then Some((v as char, s[5..])) else None
         case None => None)
      case _ => None
  }

  /** The text up to the closing quote, and what follows that. */
  function ReadChars(s: string): (r: Option<(string, string)>)
    ensures r.Some? ==> |r.value.1| < |s|
    decreases |s|
  {
    if s == [] || s[0] as int < 0x20 then None
    else if s[0] == '"' then Some(([], s[1..]))
    else
      match if s[0] == '\\' then ReadEscape(s[1..]) else Some((s[0], s[1..]))
      case None => None
      case Some((c, rest)) =>
        match ReadChars(rest)
        case None => None
        case Some((t, rest')) => Some(([c] + t, rest'))
  }

  /** What the two-character escapes stand for is the standard's table. */
  lemma EscapeMeans(c: char, more: string)
    requires c != 'u'
    ensures ReadEscape([c] + more) ==
      match ShortCode(c) case Some(v) => Some((v as char, more)) case None => None
  {
    assert ([c] + more)[1..] == more;
  }

  /** A \u escape is the code point of its four digits; surrogates are not read. */
  lemma HexEscapeMeans(h: string, v: nat, more: string)
    requires IsHex4(h) && v == HexValue(h)
    ensures ReadEscape(['u'] + (h + more)) == if 0xD800 <= v < 0xE000 then None else Some((v as char, more))
  {
    var d := HexDigits(h);
    Hex4Is(h + more, d);
    assert (['u'] + (h + more))[1..] == h + more && (['u'] + (h + more))[5..] == more;
    ReadU(['u'] + (h + more), v, more);
  }

  lemma ReadU(s: string, v: nat, more: string)
    requires |s| >= 5 && s[0] == 'u' && Hex4(s[1..]) == Some(v) && s[5..] == more && v < 0x1_0000
    ensures ReadEscape(s) == if 0xD800 <= v < 0xE000 then None else Some((v as char, more))
  {
  }

  lemma Hex4Is(s: string, d: seq<nat>)
    requires |s| >= 4 && |d| == 4 && forall k :: 0 <= k < 4 ==> HexDigit(s[k]) == Some(d[k])
    ensures Hex4(s) == Some(0x1000 * d[0] + 0x100 * d[1] + 0x10 * d[2] + d[3])
  {
  }

  // ----- values ------------------------------------------------------------------------------

  function NumLen(s: string): (n: nat)
    ensures n <= |s|
  {
    if s == [] || !IsNumChar(s[0]) then 0 else 1 + NumLen(s[1..])
  }

  function Word(s: string, word: string, v: Json): (r: Option<(Json, string)>)
    requires word != []
    ensures r.Some? ==> |r.value.1| < |s|
  {
    if word <= s then Some((v, s[|word|..])) else None
  }

  function ReadValue(s: string): (r: Option<(Json, string)>)
    ensures r.Some? ==> |r.value.1| < |s|
    decreases |s|, 0
  {
    if s == [] then None
    else match s[0]
      case '"' => (match ReadChars(s[1..]) case Some((t, rest)) => Some((Str(t), rest)) case None => None)
      case '[' =>
        if s[1..] != [] && s[1] == ']' then Some((Arr([]), s[2..]))
        else (match ReadItems(s[1..]) case Some((items, rest)) => Some((Arr(items), rest)) case None => None)
      case '{' =>
        if s[1..] != [] && s[1] == '}' then Some((Obj([]), s[2..]))
        else (match ReadFields(s[1..]) case Some((fields, rest)) => Some((Obj(fields), rest)) case None => None)
      case 'n' => Word(s, "null", Null)
      case 't' => Word(s, "true", Bool(true))
      case 'f' => Word(s, "false", Bool(false))
      case _ => if NumLen(s) == 0 then None else Some((Num(s[..NumLen(s)]), s[NumLen(s)..]))
  }

  /** One or more values and the closing bracket. */
  function ReadItems(s: string): (r: Option<(seq<Json>, string)>)
    ensures r.Some? ==> |r.value.1| < |s|
    decreases |s|, 1
  {
    match ReadValue(s)
    case None => None
    case Some((v, rest)) =>
      if rest == [] then None
      else if rest[0] == ']' then Some(([v], rest[1..]))
      else if rest[0] != ',' then None
      else match ReadItems(rest[1..])
        case None => None
        case Some((vs, rest')) => Some(([v] + vs, rest'))
  }

  /** A key, a colon and a value. */
  function ReadMember(s: string): (r: Option<(Member, string)>)
    ensures r.Some? ==> |r.value.1| < |s|
    decreases |s|, 1
  {
    if s == [] || s[0] != '"' then None
    else match ReadChars(s[1..])
      case None => None
      case Some((key, rest)) =>
        if rest == [] || rest[0] != ':' then None
        else match ReadValue(rest[1..])
          case None => None
          case Some((v, rest')) => Some((Member(key, v), rest'))
  }

  /** One or more members and the closing brace. */
  function ReadFields(s: string): (r: Option<(seq<Member>, string)>)
    ensures r.Some? ==> |r.value.1| < |s|
    decreases |s|, 2
  {
    match ReadMember(s)
    case None => None
    case Some((m, rest)) =>
      if rest == [] then None
      else if rest[0] == '}' then Some(([m], rest[1..]))
      else if rest[0] != ',' then None
      else match ReadFields(rest[1..])
        case None => None
        case Some((ms, rest')) => Some(([m] + ms, rest'))
  }

  /** A whole text that is one value. */
  function ReadJson(s: string): Option<Json> {
    match ReadValue(s)
    case Some((v, rest)) => if rest == [] then Some(v) else None
    case None => None
  }

  // ----- what is printed reads back ----------------------------------------------------------

  lemma HexReads(n: nat)
    requires n < 16
    ensures HexDigit(HexChar(n)) == Some(n)
  {
  }

  /** One printed character, before whatever comes next. */
  lemma CharReads(c: char, more: string)
    ensures var s := EscapeChar(c) + more;
      && s != [] && s[0] as int >= 0x20 && s[0] != '"'
      && (if s[0] == '\\' then ReadEscape(s[1..]) else Some((s[0], s[1..]))) == Some((c, more))
  {
    var e := EscapeChar(c);
    var s := e + more;
    if |e| == 1 {
      assert s[1..] == more;
    } else if |e| == 2 {
      assert s[1..] == [e[1]] + more && ([e[1]] + more)[1..] == more;
    } else {
      HexReads(c as int / 16);
      HexReads(c as int % 16);
      var t := s[1..];
      assert t[1] == '0' && t[2] == '0' && t[3] == e[4] && t[4] == e[5];
      assert Hex4(t[1..]) == Some(c as int);
      assert t[5..] == more;
    }
  }

  lemma {:induction false} CharsRead(t: string, more: string)
    ensures ReadChars(Escape(t) + (['"'] + more)) == Some((t, more))
    decreases |t|
  {
    var close := ['"'] + more;
    if t == [] {
      assert [] + close == close && close[1..] == more;
    } else {
      var later := Escape(t[1..]) + close;
      assert Escape(t) + close == EscapeChar(t[0]) + later;
      CharReads(t[0], later);
      CharsRead(t[1..], more);
      assert [t[0]] + t[1..] == t;
    }
  }

  lemma QuotedReads(t: string, more: string)
    ensures var s := Quoted(t) + more; s[0] == '"' && ReadChars(s[1..]) == Some((t, more))
  {
    CharsRead(t, more);
    assert (Quoted(t) + more)[1..] == Escape(t) + (['"'] + more);
  }

  /** A number must not run on. */
  predicate Stopped(more: string) { more == [] || !IsNumChar(more[0]) }

  lemma {:induction false} NumLenIs(literal: string, more: string)
    requires (forall k :: 0 <= k < |literal| ==> IsNumChar(literal[k])) && Stopped(more)
    ensures NumLen(literal + more) == |literal|
    decreases |literal|
  {
    if literal == [] {
      assert literal + more == more;
    } else {
      assert (literal + more)[1..] == literal[1..] + more;
      NumLenIs(literal[1..], more);
    }
  }

  lemma PrintStarts(v: Json)
    requires WellFormed(v)
    ensures Print(v) != [] && Print(v)[0] != ']'
  {
  }

  predicate AllWellFormed(items: seq<Json>) { forall i :: 0 <= i < |items| ==> WellFormed(items[i]) }

  predicate FieldsWellFormed(fields: seq<Member>) { forall i :: 0 <= i < |fields| ==> WellFormed(fields[i].value) }

  /** Every printed value reads back, before anything that does not run on from it. */
  lemma {:induction false} ValueReads(v: Json, more: string)
    requires WellFormed(v) && Stopped(more)
    ensures ReadValue(Print(v) + more) == Some((v, more))
    decreases v, 0
  {
    match v
    case Null => WordReads("null", v, more);
    case Bool(b) => WordReads(if b then "true" else "false", v, more);
    case Num(literal) =>
      NumLenIs(literal, more);
      assert (literal + more)[..|literal|] == literal && (literal + more)[|literal|..] == more;
    case Str(t) => QuotedReads(t, more);
    case Arr(items) =>
      if items != [] { ItemsRead(items, more); }
      ArrReads(items, more);
    case Obj(fields) =>
      if fields != [] { FieldsRead(fields, more); }
      ObjReads(fields, more);
  }

  lemma WordReads(word: string, v: Json, more: string)
    requires word != []
    ensures Word(word + more, word, v) == Some((v, more))
  {
    assert (word + more)[|word|..] == more;
  }

  lemma ArrReads(items: seq<Json>, more: string)
    requires AllWellFormed(items)
    requires items != [] ==> ReadItems(PrintItems(items) + ([']'] + more)) == Some((items, more))
    ensures ReadValue(Print(Arr(items)) + more) == Some((Arr(items), more))
  {
    var inner := PrintItems(items) + ([']'] + more);
    Wrapped('[', PrintItems(items), ']', more);
    if items == [] {
      assert inner == [']'] + more;
      ReadsNoItems(more);
    } else {
      ItemsStart(items);
      assert inner[0] == PrintItems(items)[0];
      ReadsBracketed(inner, items, more);
    }
  }

  lemma Wrapped(open: char, inner: string, close: char, more: string)
    ensures ([open] + (inner + [close])) + more == [open] + (inner + ([close] + more))
  {
  }

  lemma ReadsNoItems(more: string)
    ensures ReadValue(['['] + ([']'] + more)) == Some((Arr([]), more))
  {
    assert (['['] + ([']'] + more))[1..] == [']'] + more && (['['] + ([']'] + more))[2..] == more;
  }

  lemma ReadsBracketed(inner: string, items: seq<Json>, more: string)
    requires inner != [] && inner[0] != ']' && ReadItems(inner) == Some((items, more))
    ensures ReadValue(['['] + inner) == Some((Arr(items), more))
  {
    assert (['['] + inner)[1..] == inner;
  }

  lemma ItemsStart(items: seq<Json>)
    requires items != [] && WellFormed(items[0])
    ensures PrintItems(items) != [] && PrintItems(items)[0] != ']'
  {
    PrintStarts(items[0]);
  }

  lemma ObjReads(fields: seq<Member>, more: string)
    requires fields != [] ==> ReadFields(PrintFields(fields) + (['}'] + more)) == Some((fields, more))
    ensures ReadValue(Print(Obj(fields)) + more) == Some((Obj(fields), more))
  {
    var inner := PrintFields(fields) + (['}'] + more);
    Wrapped('{', PrintFields(fields), '}', more);
    if fields == [] {
      assert inner == ['}'] + more;
      ReadsNoFields(more);
    } else {
      FieldsStart(fields);
      assert inner[0] == PrintFields(fields)[0];
      ReadsBraced(inner, fields, more);
    }
  }

  lemma ReadsNoFields(more: string)
    ensures ReadValue(['{'] + (['}'] + more)) == Some((Obj([]), more))
  {
    assert (['{'] + (['}'] + more))[1..] == ['}'] + more && (['{'] + (['}'] + more))[2..] == more;
  }

  lemma ReadsBraced(inner: string, fields: seq<Member>, more: string)
    requires inner != [] && inner[0] != '}' && ReadFields(inner) == Some((fields, more))
    ensures ReadValue(['{'] + inner) == Some((Obj(fields), more))
  {
    assert (['{'] + inner)[1..] == inner;
  }

  lemma FieldsStart(fields: seq<Member>)
    requires fields != []
    ensures PrintFields(fields) != [] && PrintFields(fields)[0] == '"'
  {
  }

  lemma ItemsGoOn(s: string, v: Json, later: string, vs: seq<Json>, more: string)
    requires ReadValue(s) == Some((v, [','] + later)) && ReadItems(later) == Some((vs, more))
    ensures ReadItems(s) == Some(([v] + vs, more))
  {
    assert ([','] + later)[1..] == later;
  }

  lemma ItemsEnd(s: string, v: Json, more: string)
    requires ReadValue(s) == Some((v, [']'] + more))
    ensures ReadItems(s) == Some(([v], more))
  {
    assert ([']'] + more)[1..] == more;
  }

  /** The text of the items, one at a time. */
  lemma ItemsText(items: seq<Json>, close: string)
    requires items != []
    ensures |items| == 1 ==> PrintItems(items) + close == Print(items[0]) + close
    ensures |items| > 1 ==>
      PrintItems(items) + close == Print(items[0]) + ([','] + (PrintItems(items[1..]) + close))
  {
    var p, later := Print(items[0]), PrintItems(items[1..]);
    if |items| == 1 {
      assert later == [];
      RegroupThree(p, [], [], close);
    } else {
      RegroupThree(p, [','], later, close);
    }
  }

  lemma RegroupThree(c: string, d: string, e: string, f: string)
    ensures (c + (d + e)) + f == c + (d + (e + f))
    ensures d == [] && e == [] ==> (c + (d + e)) + f == c + f
  {
    assert (d + e) + f == d + (e + f);
    assert d == [] && e == [] ==> d + (e + f) == f;
  }

  lemma {:induction false} ItemsRead(items: seq<Json>, more: string)
    requires items != [] && AllWellFormed(items)
    ensures ReadItems(PrintItems(items) + ([']'] + more)) == Some((items, more))
    decreases items, 1
  {
    var first, close := Print(items[0]), [']'] + more;
    ItemsText(items, close);
    if |items| == 1 {
      ValueReads(items[0], close);
      ItemsEnd(first + close, items[0], more);
      assert items == [items[0]];
    } else {
      var later := PrintItems(items[1..]) + close;
      ValueReads(items[0], [','] + later);
      ItemsRead(items[1..], more);
      ItemsGoOn(first + ([','] + later), items[0], later, items[1..], more);
      assert items == [items[0]] + items[1..];
    }
  }

  lemma MemberReads(m: Member, more: string)
    requires ReadValue(Print(m.value) + more) == Some((m.value, more))
    ensures ReadMember(MemberText(m, more)) == Some((m, more))
  {
    var tail := [':'] + (Print(m.value) + more);
    QuotedReads(m.key, tail);
    assert tail[1..] == Print(m.value) + more;
  }

  function MemberText(m: Member, more: string): string { Quoted(m.key) + ([':'] + (Print(m.value) + more)) }

  lemma FieldsGoOn(s: string, m: Member, later: string, ms: seq<Member>, more: string)
    requires ReadMember(s) == Some((m, [','] + later)) && ReadFields(later) == Some((ms, more))
    ensures ReadFields(s) == Some(([m] + ms, more))
  {
    assert ([','] + later)[1..] == later;
  }

  lemma FieldsEnd(s: string, m: Member, more: string)
    requires ReadMember(s) == Some((m, ['}'] + more))
    ensures ReadFields(s) == Some(([m], more))
  {
    assert (['}'] + more)[1..] == more;
  }

  /** The text of the members, one at a time. */
  lemma FieldsText(fields: seq<Member>, close: string)
    requires fields != []
    ensures |fields| == 1 ==> PrintFields(fields) + close == MemberText(fields[0], close)
    ensures |fields| > 1 ==>
      PrintFields(fields) + close == MemberText(fields[0], [','] + (PrintFields(fields[1..]) + close))
  {
    var q, p, later := Quoted(fields[0].key), Print(fields[0].value), PrintFields(fields[1..]);
    if |fields| == 1 {
      assert later == [];
      Regroup(q, [':'], p, [], [], close);
    } else {
      Regroup(q, [':'], p, [','], later, close);
    }
  }

  lemma Regroup(a: string, b: string, c: string, d: string, e: string, f: string)
    ensures (a + (b + (c + (d + e)))) + f == a + (b + (c + (d + (e + f))))
    ensures d == [] && e == [] ==> (a + (b + (c + (d + e)))) + f == a + (b + (c + f))
  {
    assert (c + (d + e)) + f == c + (d + (e + f));
    assert (b + (c + (d + e))) + f == b + ((c + (d + e)) + f);
    assert d == [] && e == [] ==> d + (e + f) == f;
  }

  lemma {:induction false} FieldsRead(fields: seq<Member>, more: string)
    requires fields != [] && FieldsWellFormed(fields)
    ensures ReadFields(PrintFields(fields) + (['}'] + more)) == Some((fields, more))
    decreases fields, 1
  {
    var m, close := fields[0], ['}'] + more;
    FieldsText(fields, close);
    if |fields| == 1 {
      ValueReads(m.value, close);
      MemberReads(m, close);
      FieldsEnd(MemberText(m, close), m, more);
      assert fields == [m];
    } else {
      var later := PrintFields(fields[1..]) + close;
      ValueReads(m.value, [','] + later);
      MemberReads(m, [','] + later);
      FieldsRead(fields[1..], more);
      FieldsGoOn(MemberText(m, [','] + later), m, later, fields[1..], more);
      assert fields == [m] + fields[1..];
    }
  }

  /** Printing and reading are inverse. */
  lemma PrintReadsBack(v: Json)
    requires WellFormed(v)
    ensures ReadJson(Print(v)) == Some(v)
  {
    ValueReads(v, []);
    assert Print(v) + [] == Print(v);
  }

  /** A serialised action inside prose parses back to itself. */
  lemma ActionParses(lenient: Json -> Option<ModelAction>, prefix: string, a: ModelAction, suffix: string)
    requires a.ToolCall? ==> WellFormed(a.arguments)
    requires forall k :: 0 <= k < |prefix| ==> prefix[k] != '{'
    ensures Parse(ReadJson, lenient, prefix + (Print(ToJson(a)) + suffix)) == Some(a)
  {
    PrintReadsBack(ToJson(a));
    ActionReadsBack(ReadJson, lenient, prefix, a, suffix);
  }
}

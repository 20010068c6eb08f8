/** Finding a JSON action inside model prose: the depth / in-string / escape scan
    selects exactly the printed object. */
module ParseAction {
  import opened Prelude
  import opened StreamText

  // ----- JSON and its compact printing -----------------------------------------

  datatype Json =
    | Null
    | Bool(b: bool)
    | Num(literal: string)
    | Str(s: string)
    | Arr(items: seq<Json>)
    | Obj(fields: seq<Member>)

  datatype Member = Member(key: string, value: Json)

  /** What number literals are made of. */
  predicate IsNumChar(c: char) { '0' <= c <= '9' || c == '-' || c == '+' || c == '.' || c == 'e' || c == 'E' }

  predicate IsNumber(s: string) { s != [] && forall k :: 0 <= k < |s| ==> IsNumChar(s[k]) }

  /** No quote and no brace. */
  predicate Plain(s: string) { forall k :: 0 <= k < |s| ==> s[k] != '"' && s[k] != '{' && s[k] != '}' }

  predicate WellFormed(v: Json) {
    match v
    case Num(literal) => IsNumber(literal)
    case Arr(items) => forall i :: 0 <= i < |items| ==> WellFormed(items[i])
    case Obj(fields) => forall i :: 0 <= i < |fields| ==> WellFormed(fields[i].value)
    case _ => true
  }

  function HexChar(n: nat): char
    requires n < 16
  {
    if n < 10 then '0' + n as char else 'a' + (n - 10) as char
  }

  /** Escaping as the serializer does it: quotes, backslashes and control characters. */
  function EscapeChar(c: char): string {
    match c
    case '"' => ['\\', '"']
    case '\\' => ['\\', '\\']
    case '\n' => ['\\', 'n']
    case '\r' => ['\\', 'r']
    case '\t' => ['\\', 't']
    case _ =>
      if c as int == 8 then ['\\', 'b']
      else if c as int == 12 then ['\\', 'f']
      else if c as int < 0x20 then ['\\', 'u', '0', '0', HexChar(c as int / 16), HexChar(c as int % 16)]
      else [c]
  }

  function Escape(s: string): string {
    if s == [] then [] else EscapeChar(s[0]) + Escape(s[1..])
  }

  function Quoted(s: string): string { ['"'] + (Escape(s) + ['"']) }

  function Print(v: Json): string
    decreases v
  {
    match v
    case Null => "null"
    case Bool(b) => if b then "true" else "false"
    case Num(literal) => literal
    case Str(s) => Quoted(s)
    case Arr(items) => ['['] + (PrintItems(items) + [']'])
    case Obj(fields) => ['{'] + (PrintFields(fields) + ['}'])
  }

  function PrintItems(items: seq<Json>): string
    decreases items
  {
    if items == [] then []
    else Print(items[0]) + ((if |items| > 1 then [','] else []) + PrintItems(items[1..]))
  }

  function PrintFields(fields: seq<Member>): string
    decreases fields
  {
    if fields == [] then []
    else
      var separator := if |fields| > 1 then [','] else [];
      Quoted(fields[0].key) + ([':'] + (Print(fields[0].value) + (separator + PrintFields(fields[1..]))))
  }

  // ----- the scan ----------------------------------------------------------------

  datatype Scan = Scan(depth: int, inStr: bool, esc: bool)

  const START := Scan(0, false, false)

  function Delta(st: Scan, c: char): Scan {
    if st.inStr then
      if st.esc then st.(esc := false)
      else if c == '\\' then st.(esc := true)
      else if c == '"' then st.(inStr := false)
      else st
    else
      match c
      case '"' => st.(inStr := true)
      case '{' => st.(depth := st.depth + 1)
      case '}' => st.(depth := st.depth - 1)
      case _ => st
  }

  /** The brace that brings the depth back to zero. */
  predicate Closes(st: Scan, c: char) { !st.inStr && c == '}' && st.depth == 1 }

  function After(st: Scan, s: string): Scan
    decreases |s|
  {
    if s == [] then st else After(Delta(st, s[0]), s[1..])
  }

  /** Does reading `s` meet the closing brace? */
  predicate Stops(st: Scan, s: string)
    decreases |s|
  {
    s != [] && (Closes(st, s[0]) || Stops(Delta(st, s[0]), s[1..]))
  }

  /** How many characters are read: up to and including the closing brace, or all. */
  function Read(st: Scan, s: string): (n: nat)
    ensures n <= |s|
    decreases |s|
  {
    if s == [] then 0 else if Closes(st, s[0]) then 1 else 1 + Read(Delta(st, s[0]), s[1..])
  }

  /** The text that `parse_action` hands to the JSON reader. */
  function Span(text: string): Option<string> {
    var trimmed := Trim(text);
    match FindChar(trimmed, '{', 0)
    case None => None
    case Some(start) =>
      if Stops(START, trimmed[start..]) then Some(trimmed[start..start + Read(START, trimmed[start..])]) else None
  }

  /** The loop of the source: the position past the closing brace. */
  method ScanObject(s: string) returns (end: Option<nat>)
    ensures end == if Stops(START, s) then Some(Read(START, s)) else None
  {
    var depth, inStr, esc := 0, false, false;
    for i := 0 to |s|
      invariant Stops(START, s) == Stops(Scan(depth, inStr, esc), s[i..])
      invariant Read(START, s) == i + Read(Scan(depth, inStr, esc), s[i..])
    {
      var c := s[i];
      assert s[i..][0] == c && s[i..][1..] == s[i + 1..];
      if inStr {
        if esc {
          esc := false;
        } else if c == '\\' {
          esc := true;
        } else if c == '"' {
          inStr := false;
        }
        continue;
      }
      if c == '"' {
        inStr := true;
      } else if c == '{' {
        depth := depth + 1;
      } else if c == '}' {
        depth := depth - 1;
        if depth == 0 { return Some(i + 1); }
      }
    }
    end := None;
  }

  method FindSpan(text: string) returns (json: Option<string>)
    ensures json == Span(text)
  {
    var trimmed := Trim(text);
    var start := FindChar(trimmed, '{', 0);
    if start.None? { return None; }
    var end := ScanObject(trimmed[start.value..]);
    if end.None? { return None; }
    json := Some(trimmed[start.value..start.value + end.value]);
  }

  // ----- the scan over printed values ------------------------------------------------

  lemma {:induction false} AfterConcat(st: Scan, s: string, t: string)
    ensures After(st, s + t) == After(After(st, s), t)
    ensures Stops(st, s + t) == (Stops(st, s) || Stops(After(st, s), t))
    ensures Read(st, s + t) == if Stops(st, s) then Read(st, s) else |s| + Read(After(st, s), t)
    decreases |s|
  {
    if s == [] {
      assert s + t == t;
    } else {
      assert (s + t)[0] == s[0] && (s + t)[1..] == s[1..] + t;
      AfterConcat(Delta(st, s[0]), s[1..], t);
    }
  }

  /** Reading `s` from `st` passes over it: no closing brace, and the same state after. */
  predicate Passes(st: Scan, s: string) { !Stops(st, s) && After(st, s) == st }

  lemma {:induction false} ReadAll(st: Scan, s: string)
    requires !Stops(st, s)
    ensures Read(st, s) == |s|
    decreases |s|
  {
    if s != [] { ReadAll(Delta(st, s[0]), s[1..]); }
  }

  lemma PassesConcat(st: Scan, s: string, t: string)
    requires Passes(st, s) && Passes(st, t)
    ensures Passes(st, s + t)
  {
    AfterConcat(st, s, t);
  }

  lemma {:induction false} PassesPlain(st: Scan, s: string)
    requires !st.inStr && Plain(s)
    ensures Passes(st, s)
    decreases |s|
  {
    if s != [] { PassesPlain(st, s[1..]); }
  }

  lemma PassesEscapeChar(st: Scan, c: char)
    requires st.inStr && !st.esc
    ensures Passes(st, EscapeChar(c))
  {
    var e := EscapeChar(c);
    if |e| == 1 {
      assert e[1..] == [];
    } else {
      assert e[0] == '\\' && Delta(st, e[0]) == st.(esc := true) && Delta(st.(esc := true), e[1]) == st;
      assert e[1..][0] == e[1] && e[1..][1..] == e[2..];
      PassesPlainInString(st, e[2..]);
    }
  }

  lemma {:induction false} PassesPlainInString(st: Scan, s: string)
    requires st.inStr && !st.esc && forall k :: 0 <= k < |s| ==> s[k] != '"' && s[k] != '\\'
    ensures Passes(st, s)
    decreases |s|
  {
    if s != [] { PassesPlainInString(st, s[1..]); }
  }

  lemma {:induction false} PassesEscape(st: Scan, s: string)
    requires st.inStr && !st.esc
    ensures Passes(st, Escape(s))
    decreases |s|
  {
    if s != [] {
      PassesEscapeChar(st, s[0]);
      PassesEscape(st, s[1..]);
      PassesConcat(st, EscapeChar(s[0]), Escape(s[1..]));
    }
  }

  lemma PassesQuoted(st: Scan, s: string)
    requires !st.inStr && !st.esc
    ensures Passes(st, Quoted(s))
  {
    var inside := st.(inStr := true);
    PassesEscape(inside, s);
    AfterConcat(inside, Escape(s), ['"']);
    AfterConcat(st, ['"'], Escape(s) + ['"']);
    assert ['"'][1..] == [];
  }

  lemma ReadOne(st: Scan, c: char, s: string)
    ensures After(st, [c] + s) == After(Delta(st, c), s)
    ensures Stops(st, [c] + s) == (Closes(st, c) || Stops(Delta(st, c), s))
    ensures Read(st, [c] + s) == if Closes(st, c) then 1 else 1 + Read(Delta(st, c), s)
  {
    assert ([c] + s)[1..] == s;
  }

  lemma ReadInside(st: Scan, inner: Scan, s: string, close: string)
    requires !st.inStr && !st.esc && st.depth >= 0 && inner == st.(depth := st.depth + 1) && Passes(inner, s)
    requires |close| == 1 && close[0] == '}'
    ensures After(inner, s + close) == st
    ensures Stops(inner, s + close) == (st.depth == 0) && Read(inner, s + close) == |s| + 1
  {
    AfterConcat(inner, s, close);
    assert close[1..] == [];
  }

  lemma ReadOpen(st: Scan, inner: Scan, t: string)
    requires !st.inStr && !st.esc && inner == st.(depth := st.depth + 1)
    ensures After(st, ['{'] + t) == After(inner, t)
    ensures Stops(st, ['{'] + t) == Stops(inner, t) && Read(st, ['{'] + t) == Read(inner, t) + 1
  {
    ReadOne(st, '{', t);
  }

  /** A braced text passes at depth one or more if its inside does one level deeper; at
      depth zero its last brace is the closing one. */
  lemma PassesBraced(st: Scan, s: string)
    requires !st.inStr && !st.esc && st.depth >= 0 && Passes(st.(depth := st.depth + 1), s)
    ensures var t := ['{'] + (s + ['}']);
            After(st, t) == st && Stops(st, t) == (st.depth == 0) && Read(st, t) == |t|
  {
    var inner := st.(depth := st.depth + 1);
    ReadInside(st, inner, s, ['}']);
    ReadOpen(st, inner, s + ['}']);
  }

  lemma {:induction false} PassesValue(st: Scan, v: Json)
    requires WellFormed(v) && !st.inStr && !st.esc && st.depth >= 1
    ensures Passes(st, Print(v))
    decreases v
  {
    match v
    case Null => PassesPlain(st, "null");
    case Bool(b) => PassesPlain(st, "true"); PassesPlain(st, "false");
    case Num(literal) => PassesPlain(st, literal);
    case Str(s) => PassesQuoted(st, s);
    case Arr(items) =>
      PassesItems(st, items);
      PassesPlain(st, ['[']);
      PassesPlain(st, [']']);
      PassesConcat(st, PrintItems(items), [']']);
      PassesConcat(st, ['['], PrintItems(items) + [']']);
    case Obj(fields) =>
      PassesFields(st.(depth := st.depth + 1), fields);
      PassesBraced(st, PrintFields(fields));
  }

  lemma {:induction false} PassesItems(st: Scan, items: seq<Json>)
    requires !st.inStr && !st.esc && st.depth >= 1 && forall i :: 0 <= i < |items| ==> WellFormed(items[i])
    ensures Passes(st, PrintItems(items))
    decreases items
  {
    if items != [] {
      PassesValue(st, items[0]);
      PassesItems(st, items[1..]);
      var comma := if |items| > 1 then [','] else [];
      PassesPlain(st, comma);
      PassesConcat(st, comma, PrintItems(items[1..]));
      PassesConcat(st, Print(items[0]), comma + PrintItems(items[1..]));
    }
  }

  lemma {:induction false} PassesFields(st: Scan, fields: seq<Member>)
    requires !st.inStr && !st.esc && st.depth >= 1 && forall i :: 0 <= i < |fields| ==> WellFormed(fields[i].value)
    ensures Passes(st, PrintFields(fields))
    decreases fields
  {
    if fields != [] {
      var f := fields[0];
      PassesQuoted(st, f.key);
      PassesValue(st, f.value);
      PassesFields(st, fields[1..]);
      var comma := if |fields| > 1 then [','] else [];
      PassesPlain(st, comma);
      PassesPlain(st, [':']);
      PassesConcat(st, comma, PrintFields(fields[1..]));
      PassesConcat(st, Print(f.value), comma + PrintFields(fields[1..]));
      PassesConcat(st, [':'], Print(f.value) + (comma + PrintFields(fields[1..])));
      PassesConcat(st, Quoted(f.key), [':'] + (Print(f.value) + (comma + PrintFields(fields[1..]))));
    }
  }

  // ----- the object inside prose -------------------------------------------------------

  lemma {:induction false} TrimStartKeeps(prefix: string, rest: string) returns (left: string)
    requires rest != [] && !IsSpace(rest[0]) && forall k :: 0 <= k < |prefix| ==> prefix[k] != '{'
    ensures TrimStart(prefix + rest) == left + rest && forall k :: 0 <= k < |left| ==> left[k] != '{'
    decreases |prefix|
  {
    if prefix != [] && IsSpace(prefix[0]) {
      assert (prefix + rest)[1..] == prefix[1..] + rest;
      left := TrimStartKeeps(prefix[1..], rest);
    } else {
      if prefix == [] { assert prefix + rest == rest; }
      left := prefix;
    }
  }

  lemma {:induction false} TrimEndKeeps(rest: string, suffix: string) returns (right: string)
    requires rest != [] && !IsSpace(rest[|rest| - 1])
    ensures TrimEnd(rest + suffix) == rest + right
    decreases |suffix|
  {
    if suffix != [] && IsSpace(suffix[|suffix| - 1]) {
      assert (rest + suffix)[..|rest + suffix| - 1] == rest + suffix[..|suffix| - 1];
      right := TrimEndKeeps(rest, suffix[..|suffix| - 1]);
    } else {
      if suffix == [] { assert rest + suffix == rest; }
      right := suffix;
    }
  }

  lemma TrimKeeps(prefix: string, p: string, suffix: string) returns (left: string, right: string)
    requires p != [] && p[0] == '{' && p[|p| - 1] == '}' && forall k :: 0 <= k < |prefix| ==> prefix[k] != '{'
    ensures Trim(prefix + (p + suffix)) == (left + p) + right && forall k :: 0 <= k < |left| ==> left[k] != '{'
  {
    left := TrimStartKeeps(prefix, p + suffix);
    assert left + (p + suffix) == (left + p) + suffix;
    right := TrimEndKeeps(left + p, suffix);
  }

  lemma SpanAt(text: string, left: string, p: string, right: string)
    requires Trim(text) == (left + p) + right && FindChar((left + p) + right, '{', 0) == Some(|left|)
    requires Stops(START, p + right) && Read(START, p + right) == |p|
    ensures Span(text) == Some(p)
  {
    var t := (left + p) + right;
    assert t[|left|..] == p + right && t[|left|..|left| + |p|] == p;
  }

  /** The scan selects exactly the printed object, whatever prose without a brace comes
      before it and whatever comes after it. */
  lemma SpanIsObject(prefix: string, fields: seq<Member>, suffix: string)
    requires WellFormed(Obj(fields)) && forall k :: 0 <= k < |prefix| ==> prefix[k] != '{'
    ensures Span(prefix + (Print(Obj(fields)) + suffix)) == Some(Print(Obj(fields)))
  {
    var p := Print(Obj(fields));
    assert p[0] == '{' && p[|p| - 1] == '}';
    var left, right := TrimKeeps(prefix, p, suffix);
    BraceIsFirst(left, p, right);
    ObjectEnds(fields, right);
    SpanAt(prefix + (p + suffix), left, p, right);
  }

  lemma BraceIsFirst(left: string, p: string, right: string)
    requires p != [] && p[0] == '{' && forall k :: 0 <= k < |left| ==> left[k] != '{'
    ensures FindChar((left + p) + right, '{', 0) == Some(|left|)
  {
    FindCharIsFirst((left + p) + right, '{', 0);
    assert ((left + p) + right)[|left|] == '{';
  }

  lemma ObjectEnds(fields: seq<Member>, right: string)
    requires WellFormed(Obj(fields))
    ensures Stops(START, Print(Obj(fields)) + right) && Read(START, Print(Obj(fields)) + right) == |Print(Obj(fields))|
  {
    PassesFields(Scan(1, false, false), fields);
    PassesBraced(START, PrintFields(fields));
    AfterConcat(START, Print(Obj(fields)), right);
  }

  /** Any selected span is the shortest balanced one: its depth is positive all the way
      and returns to zero, outside strings, exactly at its end. */
  lemma {:induction false} SpanIsBalanced(st: Scan, s: string, n: nat)
    requires Stops(st, s) && n == Read(st, s) && (st.depth >= 1 || (st == START && s[0] == '{'))
    ensures 0 < n <= |s| && After(st, s[..n]).depth == 0 && !After(st, s[..n]).inStr
    ensures forall k :: 0 < k < n ==> After(st, s[..k]).depth >= 1
    decreases |s|
  {
    var st' := Delta(st, s[0]);
    if Closes(st, s[0]) {
      assert s[..1][1..] == [];
    } else {
      SpanIsBalanced(st', s[1..], n - 1);
      assert s[..n][0] == s[0] && s[..n][1..] == s[1..][..n - 1];
      forall k | 0 < k < n ensures After(st, s[..k]).depth >= 1 {
        assert s[..k][0] == s[0] && s[..k][1..] == s[1..][..k - 1];
        if k == 1 { assert s[1..][..0] == []; }
      }
    }
  }

  // ----- actions -------------------------------------------------------------------

  datatype ModelAction = ToolCall(name: string, arguments: Json) | Final(content: string)

  /** The tagged form in which actions are serialised. */
  function ToJson(a: ModelAction): Json {
    match a
    case ToolCall(name, arguments) =>
      Obj([Member("type", Str("tool_call")), Member("name", Str(name)), Member("arguments", arguments)])
    case Final(content) => Obj([Member("type", Str("final")), Member("content", Str(content))])
  }

  function Field(fields: seq<Member>, key: string): Option<Json> {
    if fields == [] then None else if fields[0].key == key then Some(fields[0].value) else Field(fields[1..], key)
  }

  /** The tagged enum read back from a value. */
  function FromJson(v: Json): Option<ModelAction> {
    if !v.Obj? then None
    else match Field(v.fields, "type")
      case Some(Str(tag)) =>
        if tag == "tool_call" then
          (match (Field(v.fields, "name"), Field(v.fields, "arguments"))
           case (Some(Str(name)), Some(arguments)) => Some(ToolCall(name, arguments))
           case _ => None)
        else if tag == "final" then
          (match Field(v.fields, "content") case Some(Str(content)) => Some(Final(content)) case _ => None)
        else None
      case _ => None
  }

  /** `parse_action` for a JSON reader `read`; `lenient` is the fallback for values that
      are not a tagged action. */
  function Parse(read: string -> Option<Json>, lenient: Json -> Option<ModelAction>, text: string)
    : Option<ModelAction>
  {
    match Span(text)
    case None => None
    case Some(json) =>
      match read(json)
      case None => None
      case Some(v) => if FromJson(v).Some? then FromJson(v) else lenient(v)
  }

  lemma FieldSkips(m: Member, rest: seq<Member>, key: string)
    requires |m.key| != |key|
    ensures Field([m] + rest, key) == Field(rest, key)
  {
    assert ([m] + rest)[1..] == rest;
  }

  lemma FieldsReadBack(a: ModelAction)
    ensures FromJson(ToJson(a)) == Some(a)
  {
    match a
    case ToolCall(name, arguments) =>
      var t, n, g := Member("type", Str("tool_call")), Member("name", Str(name)), Member("arguments", arguments);
      assert ToJson(a).fields == [t] + [n, g] && [n, g] == [n] + [g];
      assert t.key[0] != n.key[0];
      assert Field(ToJson(a).fields, "name") == Some(Str(name)) by { assert ToJson(a).fields[1..][0] == n; }
      FieldSkips(t, [n, g], "arguments");
      FieldSkips(n, [g], "arguments");
    case Final(content) =>
      var t, c := Member("type", Str("final")), Member("content", Str(content));
      assert ToJson(a).fields == [t] + [c];
      FieldSkips(t, [c], "content");
      assert |"final"| != |"tool_call"|;
  }

  /** A serialised action inside prose parses back to itself, given a JSON reader that
      reads back what was printed. */
  lemma ActionReadsBack(read: string -> Option<Json>, lenient: Json -> Option<ModelAction>,
                        prefix: string, a: ModelAction, suffix: string)
    requires a.ToolCall? ==> WellFormed(a.arguments)
    requires forall k :: 0 <= k < |prefix| ==> prefix[k] != '{'
    requires read(Print(ToJson(a))) == Some(ToJson(a))
    ensures Parse(read, lenient, prefix + (Print(ToJson(a)) + suffix)) == Some(a)
  {
    SpanIsObject(prefix, ToJson(a).fields, suffix);
    FieldsReadBack(a);
  }
}

/** What trimming white space off a text leaves. */
module Trimming {
  import opened Prelude

  /** No white space at either end. */
  predicate Trimmed(s: string) { s == [] || (!IsSpace(s[0]) && !IsSpace(s[|s| - 1])) }

  lemma {:induction false} TrimStartShape(s: string)
    ensures var t := TrimStart(s); |t| <= |s| && t == s[|s| - |t|..] && (t != [] ==> !IsSpace(t[0]))
    decreases |s|
  {
    if s != [] && IsSpace(s[0]) { TrimStartShape(s[1..]); }
  }

  lemma {:induction false} TrimEndShape(s: string)
    ensures var t := TrimEnd(s); t <= s && (t != [] ==> !IsSpace(t[|t| - 1]))
    decreases |s|
  {
    if s != [] && IsSpace(s[|s| - 1]) { TrimEndShape(s[..|s| - 1]); }
  }

  /** Trimmed text is a stretch of the original with no white space at its ends. */
  lemma TrimShape(s: string)
    ensures Trimmed(Trim(s)) && forall c :: c in Trim(s) ==> c in s
  {
    TrimStartShape(s);
    TrimEndShape(TrimStart(s));
  }

  lemma TrimmedStays(s: string)
    requires Trimmed(s)
    ensures Trim(s) == s
  {
  }

  // ----- what is trimmed away ------------------------------------------------------------------

  lemma {:induction false} TrimmedAway(s: string)
    requires TrimStart(s) == []
    ensures AllSpace(s)
    decreases |s|
  {
    if s != [] { TrimmedAway(s[1..]); }
  }

  lemma {:induction false} StartOfSpace(s: string)
    requires TrimStart(s) != []
    ensures !IsSpace(TrimStart(s)[0])
    decreases |s|
  {
    if IsSpace(s[0]) { StartOfSpace(s[1..]); }
  }

  lemma {:induction false} EndKeepsFirst(s: string)
    requires s != [] && !IsSpace(s[0])
    ensures TrimEnd(s) != []
    decreases |s|
  {
    if IsSpace(s[|s| - 1]) { EndKeepsFirst(s[..|s| - 1]); }
  }

  lemma NothingButSpace(s: string)
    requires Trim(s) == []
    ensures AllSpace(s)
  {
    if TrimStart(s) != [] {
      StartOfSpace(s);
      EndKeepsFirst(TrimStart(s));
    }
    TrimmedAway(s);
  }

  lemma {:induction false} SpaceTrimmed(s: string)
    requires AllSpace(s)
    ensures Trim(s) == []
    decreases |s|
  {
    if s != [] { SpaceTrimmed(s[1..]); }
  }

  lemma {:induction false} TrimStartOf(lead: string, t: string)
    requires AllSpace(lead) && (t == [] || !IsSpace(t[0]))
    ensures TrimStart(lead + t) == t
    decreases |lead|
  {
    if lead == [] {
      assert lead + t == t;
    } else {
      assert (lead + t)[1..] == lead[1..] + t;
      TrimStartOf(lead[1..], t);
    }
  }

  lemma {:induction false} TrimEndOf(t: string, tail: string)
    requires AllSpace(tail) && (t == [] || !IsSpace(t[|t| - 1]))
    ensures TrimEnd(t + tail) == t
    decreases |tail|
  {
    if tail == [] {
      assert t + tail == t;
    } else {
      assert (t + tail)[..|t + tail| - 1] == t + tail[..|tail| - 1];
      TrimEndOf(t, tail[..|tail| - 1]);
    }
  }

  /** Trimming undoes what was put around a trimmed text. */
  lemma TrimOf(lead: string, p: string, tail: string)
    requires AllSpace(lead) && AllSpace(tail) && Trimmed(p)
    ensures Trim(lead + (p + tail)) == p
  {
    if p == [] {
      assert lead + (p + tail) == lead + tail;
      SpaceTrimmed(lead + tail);
    } else {
      TrimStartOf(lead, p + tail);
      TrimEndOf(p, tail);
    }
  }

  lemma {:induction false} StartTrimmed(s: string) returns (lead: string)
    ensures s == lead + TrimStart(s) && AllSpace(lead)
    decreases |s|
  {
    if s != [] && IsSpace(s[0]) {
      var more := StartTrimmed(s[1..]);
      lead := [s[0]] + more;
      assert s == [s[0]] + s[1..];
    } else {
      lead := [];
    }
  }

  lemma {:induction false} EndTrimmed(s: string) returns (tail: string)
    ensures s == TrimEnd(s) + tail && AllSpace(tail)
    decreases |s|
  {
    if s != [] && IsSpace(s[|s| - 1]) {
      var more := EndTrimmed(s[..|s| - 1]);
      tail := more + [s[|s| - 1]];
      assert s == s[..|s| - 1] + [s[|s| - 1]];
    } else {
      tail := [];
      assert s + [] == s;
    }
  }

  /** Among ASCII characters, white space is the space and the five controls from tab on. */
  lemma AsciiSpace(c: char)
    requires (c as int) < 0x80
    ensures IsSpace(c) <==> c == ' ' || c in {9 as char, 10 as char, 11 as char, 12 as char, 13 as char}
  {
  }
}

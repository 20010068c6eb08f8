/** Searching text from the left, and how found positions behave as the text grows. */
module StreamText {
  import opened Prelude

  predicate Occurs(s: string, pat: string, i: int) {
    0 <= i && i + |pat| <= |s| && s[i..i + |pat|] == pat
  }

  /** The first occurrence of `pat` at or after `i`: the source's `s[i..].find(pat)`. */
  function Find(s: string, pat: string, i: nat): (r: Option<nat>)
    ensures r.Some? ==> i <= r.value && r.value + |pat| <= |s|
    decreases |s| - i
  {
    if i + |pat| > |s| then None
    else if s[i..i + |pat|] == pat then Some(i)
    else if i == |s| then None
    else Find(s, pat, i + 1)
  }

  lemma OccursPrefix(s: string, t: string, pat: string, i: int)
    ensures Occurs(s, pat, i) ==> Occurs(s + t, pat, i)
    ensures Occurs(s + t, pat, i) && i + |pat| <= |s| ==> Occurs(s, pat, i)
  {
    if 0 <= i && i + |pat| <= |s| {
      assert (s + t)[i..i + |pat|] == s[i..i + |pat|];
    }
  }

  lemma {:induction false} FindIsFirst(s: string, pat: string, i: nat)
    ensures var r := Find(s, pat, i);
            match r
            case Some(j) => Occurs(s, pat, j) && forall k :: i <= k < j ==> !Occurs(s, pat, k)
            case None => forall k :: i <= k ==> !Occurs(s, pat, k)
    decreases |s| - i
  {
    if i + |pat| <= |s| && s[i..i + |pat|] != pat && i != |s| { FindIsFirst(s, pat, i + 1); }
  }

  /** More text does not move what was found, and finds nothing new inside the old text. */
  lemma FindGrows(s: string, t: string, pat: string, i: nat)
    ensures Find(s, pat, i).Some? ==> Find(s + t, pat, i) == Find(s, pat, i)
    ensures Find(s + t, pat, i).Some? && Find(s + t, pat, i).value + |pat| <= |s| ==>
      Find(s, pat, i) == Find(s + t, pat, i)
  {
    FindIsFirst(s, pat, i);
    FindIsFirst(s + t, pat, i);
    forall k ensures Occurs(s, pat, k) ==> Occurs(s + t, pat, k)
             ensures Occurs(s + t, pat, k) && k + |pat| <= |s| ==> Occurs(s, pat, k)
    {
      OccursPrefix(s, t, pat, k);
    }
  }

  lemma FindIs(s: string, pat: string, i: nat, j: nat)
    requires i <= j && Occurs(s, pat, j) && forall k :: i <= k < j ==> !Occurs(s, pat, k)
    ensures Find(s, pat, i) == Some(j)
  {
    FindIsFirst(s, pat, i);
  }

  /** The first `c` at or after `i`. */
  function FindChar(s: string, c: char, i: nat): (r: Option<nat>)
    ensures r.Some? ==> i <= r.value < |s| && s[r.value] == c
    decreases |s| - i
  {
    if i >= |s| then None else if s[i] == c then Some(i) else FindChar(s, c, i + 1)
  }

  lemma {:induction false} FindCharIsFirst(s: string, c: char, i: nat)
    ensures forall k :: i <= k < |s| && (FindChar(s, c, i).None? || k < FindChar(s, c, i).value) ==> s[k] != c
    decreases |s| - i
  {
    if i < |s| && s[i] != c { FindCharIsFirst(s, c, i + 1); }
  }

  lemma {:induction false} FindCharGrows(s: string, t: string, c: char, i: nat)
    ensures FindChar(s, c, i).Some? ==> FindChar(s + t, c, i) == FindChar(s, c, i)
    ensures FindChar(s + t, c, i).Some? && FindChar(s + t, c, i).value < |s| ==>
      FindChar(s, c, i) == FindChar(s + t, c, i)
    decreases |s| - i
  {
    if i < |s| {
      assert (s + t)[i] == s[i];
      FindCharGrows(s, t, c, i + 1);
    }
  }
}

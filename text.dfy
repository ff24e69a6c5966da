/**
 The few Arduino `String` operations the two controllers rely on, on `seq<char>`.
 Both controllers scrape backend replies and match location names with
 `indexOf`, and normalise names with `toUpperCase`.
 */
module Text {

  /** `pat` occurs in `s` starting at position `k`. */
  predicate OccursAt(s: string, pat: string, k: nat)
  {
    k + |pat| <= |s| && s[k..k + |pat|] == pat
  }

  /**
   Arduino's `s.indexOf(pat, from)`: the first position at or after `from` where
   `pat` occurs, or -1. As in the Arduino core (which calls `strstr` on the
   buffer from `from` on), a start at or past the end finds nothing, even for an
   empty pattern, and an empty pattern otherwise occurs right at `from`.
   */
  function IndexOf(s: string, pat: string, from: nat): (r: int)
    decreases |s| - from
    ensures r == -1 || (from <= r < |s| && OccursAt(s, pat, r))
    ensures forall k :: from <= k < (if r == -1 then |s| else r) ==> !OccursAt(s, pat, k)
  {
    if from >= |s| then -1
    else if OccursAt(s, pat, from) then from
    else IndexOf(s, pat, from + 1)
  }

  /** `s.indexOf(pat) >= 0`. */
  predicate Contains(s: string, pat: string)
  {
    IndexOf(s, pat, 0) >= 0
  }

  /** `Contains` is plain substring search, except that nothing occurs in the empty string. */
  lemma ContainsIff(s: string, pat: string)
    ensures Contains(s, pat) <==> exists k: nat :: k < |s| && OccursAt(s, pat, k)
  {
    if exists k: nat :: k < |s| && OccursAt(s, pat, k) {
      var k: nat :| k < |s| && OccursAt(s, pat, k);
      assert IndexOf(s, pat, 0) != -1;
    }
  }

  /** A pattern with a character that never appears in `s` is not contained in it. */
  lemma NotContainsChar(s: string, pat: string, i: nat)
    requires i < |pat| && pat[i] !in s
    ensures !Contains(s, pat)
  {
    var r := IndexOf(s, pat, 0);
    if r != -1 {
      CharOfOccurrence(s, pat, r, i);
      assert false;
    }
  }

  /** Where `pat` occurs at `k`, the character at `k + i` is `pat[i]`. */
  lemma CharOfOccurrence(s: string, pat: string, k: nat, i: nat)
    requires OccursAt(s, pat, k) && i < |pat|
    ensures s[k + i] == pat[i]
  {
    assert s[k..k + |pat|][i] == pat[i];
  }

  /** For a one-character pattern, `IndexOf` finds the first occurrence of that character at or after `from`. */
  lemma IndexOfChar(s: string, c: char, from: nat)
    requires from <= |s|
    ensures var r := IndexOf(s, [c], from);
            && (r != -1 ==> from <= r < |s| && s[r] == c)
            && forall k :: from <= k < (if r == -1 then |s| else r) ==> s[k] != c
  {
    var r := IndexOf(s, [c], from);
    var stop := if r == -1 then |s| else r;
    forall k | from <= k < stop
      ensures s[k] != c
    {
      assert !OccursAt(s, [c], k);
      assert s[k..k + 1] == [s[k]];
    }
    if r != -1 {
      CharOfOccurrence(s, [c], r, 0);
    }
  }

  predicate IsLower(c: char)
  {
    'a' <= c <= 'z'
  }

  /** C `toupper` in the "C" locale: only ASCII letters change. */
  function UpperChar(c: char): (u: char)
    ensures !IsLower(u)
    ensures IsLower(c) ==> 'A' <= u <= 'Z' && u as int - 'A' as int == c as int - 'a' as int
    ensures !IsLower(c) ==> u == c
  {
    if IsLower(c) then (c as int - 32) as char else c
  }

  /** Arduino's `String::toUpperCase`, character by character. */
  function Upper(s: string): (r: string)
    ensures |r| == |s|
    ensures forall i :: 0 <= i < |s| ==> !IsLower(r[i]) && (!IsLower(s[i]) ==> r[i] == s[i])
    ensures forall i :: 0 <= i < |s| && IsLower(s[i]) ==>
              'A' <= r[i] <= 'Z' && r[i] as int - 'A' as int == s[i] as int - 'a' as int
  {
    seq(|s|, i requires 0 <= i < |s| => UpperChar(s[i]))
  }

  /** Upper-casing twice is upper-casing once. */
  lemma UpperIdempotent(s: string)
    ensures Upper(Upper(s)) == Upper(s)
  {
    var u := Upper(s);
    forall i | 0 <= i < |s|
      ensures Upper(u)[i] == u[i]
    {
      assert !IsLower(u[i]);
    }
  }

  /**
   An upper-cased string never contains a pattern with a lower-case letter,
   so the `indexOf("Pahar")` test that follows `toUpperCase` can never succeed.
   */
  lemma UpperHasNoPahar(s: string)
    ensures !Contains(Upper(s), "Pahar")
  {
    var u := Upper(s);
    var r := IndexOf(u, "Pahar", 0);
    if r != -1 {
      CharOfOccurrence(u, "Pahar", r, 1);
      assert false;
    }
  }
}

/** String tests the transform relies on: JavaScript's `String.prototype.includes`,
    ASCII lower-casing, and keyword-alternation patterns such as `/(家宽|住宅|ISP)/i`. */
module Strings {

  /** `k` occurs at the very start of `s`, compared character by character. */
  predicate IsPrefix(k: string, s: string)
    decreases |k|
  {
    |k| == 0 || (|s| > 0 && k[0] == s[0] && IsPrefix(k[1..], s[1..]))
  }

  /** The character-wise comparison agrees with comparing the leading slice. */
  lemma {:induction false} PrefixIffSlice(k: string, s: string)
    ensures IsPrefix(k, s) <==> |k| <= |s| && s[..|k|] == k
    decreases |k|
  {
    if |k| > 0 && |s| > 0 {
      PrefixIffSlice(k[1..], s[1..]);
      if |k| <= |s| && s[..|k|] == k {
        assert s[1..][..|k| - 1] == s[..|k|][1..];
      }
      if IsPrefix(k, s) {
        assert s[..|k|] == [s[0]] + s[1..][..|k| - 1];
        assert k == [k[0]] + k[1..];
      }
    }
  }

  /** `s.includes(k)`: `k` occurs somewhere in `s`; the empty string occurs in every string. */
  predicate Contains(s: string, k: string): (b: bool)
    ensures b ==> |k| <= |s|
    ensures IsPrefix(k, s) ==> b
    decreases |s|
  {
    PrefixIffSlice(k, s);
    IsPrefix(k, s) || (|s| > 0 && Contains(s[1..], k))
  }

  /** Reference definition of an occurrence: `k` sits in `s` starting at index `i`. */
  predicate OccursAt(s: string, k: string, i: nat) {
    i + |k| <= |s| && s[i..i + |k|] == k
  }

  /** The recursive scan finds `k` exactly when `k` occurs at some index of `s`. */
  lemma {:induction false} ContainsIffOccurs(s: string, k: string)
    ensures Contains(s, k) <==> exists i: nat :: OccursAt(s, k, i)
    decreases |s|
  {
    PrefixIffSlice(k, s);
    if Contains(s, k) {
      if IsPrefix(k, s) {
        assert OccursAt(s, k, 0);
      } else {
        ContainsIffOccurs(s[1..], k);
        var i: nat :| OccursAt(s[1..], k, i);
        assert s[1..][i..i + |k|] == s[i + 1..i + 1 + |k|];
        assert OccursAt(s, k, i + 1);
      }
    }
    if exists i: nat :: OccursAt(s, k, i) {
      var i: nat :| OccursAt(s, k, i);
      if i == 0 {
        assert IsPrefix(k, s);
      } else {
        assert s[1..][i - 1..i - 1 + |k|] == s[i..i + |k|];
        assert OccursAt(s[1..], k, i - 1);
        ContainsIffOccurs(s[1..], k);
      }
    }
  }

  /** A string holding a character that `s` lacks does not occur in `s`. */
  lemma MissingChar(s: string, k: string, c: char)
    requires c in k && c !in s
    ensures !Contains(s, k)
  {
    ContainsIffOccurs(s, k);
  }

  /** The same, comparing without ASCII case. */
  lemma MissingCharIgnoringCase(s: string, k: string, c: char)
    requires c in k && LowerChar(c) !in Lower(s)
    ensures !Contains(Lower(s), Lower(k))
  {
    var j :| 0 <= j < |k| && k[j] == c;
    assert Lower(k)[j] == LowerChar(c);
    MissingChar(Lower(s), Lower(k), LowerChar(c));
  }

  /** Some keyword of `kws` occurs in `s`: `kws.some(k => s.includes(k))`. */
  predicate ContainsAny(s: string, kws: seq<string>) {
    exists i :: 0 <= i < |kws| && Contains(s, kws[i])
  }

  /** No keyword occurs in `s` when each holds, at the given position, a character
      that `s` lacks. */
  lemma NoKeywordOccurs(s: string, kws: seq<string>, at: seq<nat>)
    requires |at| == |kws|
    requires forall i :: 0 <= i < |kws| ==> at[i] < |kws[i]| && kws[i][at[i]] !in s
    ensures !ContainsAny(s, kws)
  {
    forall i | 0 <= i < |kws|
      ensures !Contains(s, kws[i])
    {
      MissingChar(s, kws[i], kws[i][at[i]]);
    }
  }

  /** ASCII lower-casing of one character; every other character is left alone. */
  function LowerChar(c: char): char {
    if 'A' <= c <= 'Z' then (c as int + 32) as char else c
  }

  /** ASCII lower-casing of a string, character by character. */
  function Lower(s: string): string {
    seq(|s|, i requires 0 <= i < |s| => LowerChar(s[i]))
  }

  /** Lower-casing twice is lower-casing once. */
  lemma LowerIdempotent(s: string)
    ensures Lower(Lower(s)) == Lower(s)
  {
  }

  /** Lower-casing a whole string commutes with taking a slice of it. */
  lemma LowerSlice(s: string, i: nat, j: nat)
    requires i <= j <= |s|
    ensures Lower(s[i..j]) == Lower(s)[i..j]
  {
  }

  /** Matching is preserved by lower-casing both sides. */
  lemma {:induction false} ContainsLower(s: string, k: string)
    requires Contains(s, k)
    ensures Contains(Lower(s), Lower(k))
  {
    ContainsIffOccurs(s, k);
    var i: nat :| OccursAt(s, k, i);
    LowerSlice(s, i, i + |k|);
    assert OccursAt(Lower(s), Lower(k), i);
    ContainsIffOccurs(Lower(s), Lower(k));
  }

  /** A regular expression made of literal alternatives, `/(a|b|c)/` or `/(a|b|c)/i`. */
  datatype Pattern = Pattern(alternatives: seq<string>, ignoreCase: bool)

  /** Lower-casing when a pattern ignores case, the string itself otherwise. */
  function Fold(ignoreCase: bool, s: string): string {
    if ignoreCase then Lower(s) else s
  }

  /** Reference definition of a match: some alternative sits at some index of `s`,
      both sides lower-cased when the pattern ignores case. */
  ghost predicate Matches(p: Pattern, s: string) {
    exists i: nat, j: nat :: i < |p.alternatives|
      && OccursAt(Fold(p.ignoreCase, s), Fold(p.ignoreCase, p.alternatives[i]), j)
  }

  /** `pattern.test(s)`: some alternative occurs in `s`, comparing ASCII letters without case
      when the pattern carries the `i` flag. The flag only widens a pattern: every exact
      occurrence of an alternative is a match either way. */
  predicate Test(p: Pattern, s: string): (b: bool)
    ensures b <==> Matches(p, s)
    ensures ContainsAny(s, p.alternatives) ==> b
  {
    FoldedContainsIffMatches(p, s);
    if p.ignoreCase then
      ContainsAnyLower(s, p.alternatives);
      exists i :: 0 <= i < |p.alternatives| && Contains(Lower(s), Lower(p.alternatives[i]))
    else
      ContainsAny(s, p.alternatives)
  }

  /** The scan over the alternatives agrees with the reference definition. */
  lemma FoldedContainsIffMatches(p: Pattern, s: string)
    ensures (exists i :: 0 <= i < |p.alternatives|
               && Contains(Fold(p.ignoreCase, s), Fold(p.ignoreCase, p.alternatives[i])))
            <==> Matches(p, s)
  {
    forall i | 0 <= i < |p.alternatives|
      ensures Contains(Fold(p.ignoreCase, s), Fold(p.ignoreCase, p.alternatives[i]))
              <==> exists j: nat :: OccursAt(Fold(p.ignoreCase, s), Fold(p.ignoreCase, p.alternatives[i]), j)
    {
      ContainsIffOccurs(Fold(p.ignoreCase, s), Fold(p.ignoreCase, p.alternatives[i]));
    }
  }

  /** A case-insensitive pattern fails when each alternative holds, at the given
      position, a character whose lower-case form the lower-cased `s` lacks. */
  lemma NoAlternativeMatches(p: Pattern, s: string, at: seq<nat>)
    requires p.ignoreCase && |at| == |p.alternatives|
    requires forall i :: 0 <= i < |at| ==>
               at[i] < |p.alternatives[i]| && LowerChar(p.alternatives[i][at[i]]) !in Lower(s)
    ensures !Test(p, s)
  {
    forall i | 0 <= i < |at|
      ensures !Contains(Lower(s), Lower(p.alternatives[i]))
    {
      MissingCharIgnoringCase(s, p.alternatives[i], p.alternatives[i][at[i]]);
    }
  }

  /** Neither kind of test can match a string shorter than every alternative. */
  lemma TooShortToMatch(p: Pattern, s: string)
    requires forall i :: 0 <= i < |p.alternatives| ==> |s| < |p.alternatives[i]|
    ensures !Test(p, s)
  {
    forall i | 0 <= i < |p.alternatives|
      ensures !Contains(s, p.alternatives[i]) && !Contains(Lower(s), Lower(p.alternatives[i]))
    {
      assert |Lower(p.alternatives[i])| > |Lower(s)|;
    }
  }

  /** An alternative occurring in `s` still occurs once both sides are lower-cased. */
  lemma ContainsAnyLower(s: string, alts: seq<string>)
    ensures ContainsAny(s, alts) ==> exists i :: 0 <= i < |alts| && Contains(Lower(s), Lower(alts[i]))
  {
    if ContainsAny(s, alts) {
      var i :| 0 <= i < |alts| && Contains(s, alts[i]);
      ContainsLower(s, alts[i]);
    }
  }
}

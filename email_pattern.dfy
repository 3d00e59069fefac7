/**
 * The email test of the submission form: the regular expression
 * `^[^\s@]+@[^\s@]+\.[^\s@]+$` (no flags), its meaning stated as a split of the
 * string into its five pieces, a matcher that scans the string, and the
 * characterisation of accepted strings in plain terms.
 */
module EmailPattern {
  import opened Text

  /** The class `[^\s@]`. Note that it contains '.'. */
  predicate InClass(c: char) {
    !IsSpace(c) && c != '@'
  }

  predicate AllInClass(s: string) {
    forall i :: 0 <= i < |s| ==> InClass(s[i])
  }

  /** `s` is `[^\s@]+` `@` `[^\s@]+` `\.` `[^\s@]+` with the '@' at index `at`
      and the escaped '.' at index `dot`. */
  predicate MatchesAt(s: string, at: int, dot: int) {
    0 < at && at + 1 < dot && dot + 1 < |s| &&
    s[at] == '@' && s[dot] == '.' &&
    AllInClass(s[..at]) && AllInClass(s[at + 1..dot]) && AllInClass(s[dot + 1..])
  }

  /** What the anchored regular expression accepts: some split of `s` fits it. */
  ghost predicate PatternMatches(s: string) {
    exists at, dot :: MatchesAt(s, at, dot)
  }

  /** The end of the longest run of class characters starting at `i`. */
  function ClassRunEnd(s: string, i: nat): (j: nat)
    requires i <= |s|
    ensures i <= j <= |s|
    ensures AllInClass(s[i..j])
    ensures j < |s| ==> !InClass(s[j])
    decreases |s| - i
  {
    if i == |s| || !InClass(s[i]) then i else ClassRunEnd(s, i + 1)
  }

  /** Some index in [lo, hi) holds a '.'. */
  function HasDotIn(s: string, lo: nat, hi: nat): (b: bool)
    requires hi <= |s|
    ensures b <==> exists d :: lo <= d < hi && s[d] == '.'
    decreases hi - lo
  {
    if lo >= hi then false else s[lo] == '.' || HasDotIn(s, lo + 1, hi)
  }

  /** The matcher: a maximal local run ending at an '@', a domain made only of
      class characters up to the end, and a '.' in the domain with a character
      of the domain on each side of it. It accepts exactly the strings the
      regular expression accepts. */
  function Test(s: string): (ok: bool)
    ensures ok <==> PatternMatches(s)
  {
    var at := ClassRunEnd(s, 0);
    var ok := 0 < at < |s| && s[at] == '@' && ClassRunEnd(s, at + 1) == |s| && HasDotIn(s, at + 2, |s| - 1);
    assert ok <==> PatternMatches(s) by {
      if ok {
        var dot :| at + 2 <= dot < |s| - 1 && s[dot] == '.';
        assert AllInClass(s[at + 1..]);
        assert forall k :: at + 1 <= k < |s| ==> s[at + 1..][k - (at + 1)] == s[k];
        assert MatchesAt(s, at, dot);
      }
      if PatternMatches(s) {
        var a, d :| MatchesAt(s, a, d);
        assert forall k :: 0 <= k < a ==> s[..a][k] == s[k];
        assert at == a;
        forall k | a + 1 <= k < |s|
          ensures InClass(s[k])
        {
          if k < d {
            assert s[a + 1..d][k - (a + 1)] == s[k];
          } else if d < k {
            assert s[d + 1..][k - (d + 1)] == s[k];
          }
        }
        var e := ClassRunEnd(s, a + 1);
        assert e == |s|;
        assert HasDotIn(s, a + 2, |s| - 1);
      }
    }
    ok
  }

  /** The accepted strings in plain terms: no whitespace, exactly one '@',
      something before it, and a '.' after it with at least one character on
      each side of the '.' within the part after the '@'. */
  predicate WellFormed(s: string) {
    NoSpace(s) &&
    exists at :: 0 <= at < |s| && s[at] == '@' &&
      (forall j :: 0 <= j < |s| && s[j] == '@' ==> j == at) &&
      0 < at &&
      exists dot :: at + 1 < dot < |s| - 1 && s[dot] == '.'
  }

  lemma PatternCharacterisation(s: string)
    ensures PatternMatches(s) <==> WellFormed(s)
  {
    if PatternMatches(s) {
      var a, d :| MatchesAt(s, a, d);
      forall k | 0 <= k < |s|
        ensures !IsSpace(s[k]) && (s[k] == '@' ==> k == a)
      {
        if k < a {
          assert s[..a][k] == s[k];
        } else if a < k < d {
          assert s[a + 1..d][k - (a + 1)] == s[k];
        } else if d < k {
          assert s[d + 1..][k - (d + 1)] == s[k];
        }
      }
      assert WellFormed(s);
    }
    if WellFormed(s) {
      var a :| 0 <= a < |s| && s[a] == '@' &&
        (forall j :: 0 <= j < |s| && s[j] == '@' ==> j == a) &&
        0 < a && exists dot :: a + 1 < dot < |s| - 1 && s[dot] == '.';
      var d :| a + 1 < d < |s| - 1 && s[d] == '.';
      assert MatchesAt(s, a, d);
    }
  }
}

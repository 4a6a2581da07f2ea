/**
 * `re.findall` over a text, for any compiled pattern given as a matcher, and the fact that the
 * search only looks forward.
 */
module PatternSearch {
  import opened Wrappers

  /**
   * A compiled pattern, seen from the text it searches: for a start position, the capture start,
   * capture end and match end of the match found there, if any.
   */
  type Matcher = nat -> Option<(nat, nat, nat)>

  /** A match inside the text whose end lies beyond its start, so the search moves forward. */
  predicate Fits(s: string, p: nat, m: (nat, nat, nat)) {
    m.0 <= m.1 <= |s| && p < m.2 <= |s|
  }

  /** Every match the matcher finds inside the text fits it. */
  ghost predicate Fitting(s: string, at: Matcher) {
    forall q: nat :: q < |s| && at(q).Some? ==> Fits(s, q, at(q).value)
  }

  /**
   * `re.findall` from position `p` with the matcher `at`: after a match the search resumes where
   * the match ended, otherwise one position further on.
   */
  function FindAll(s: string, p: nat, at: Matcher): seq<string>
    requires p <= |s| && Fitting(s, at)
    decreases |s| - p
  {
    if p == |s| then []
    else if at(p).None? then FindAll(s, p + 1, at)
    else
      var m := at(p).value;
      [s[m.0..m.1]] + FindAll(s, m.2, at)
  }

  /** `s` holds `t` from position `d` onward and nothing behind it. */
  predicate Agree(s: string, t: string, d: nat) {
    d <= |s| && s[d..] == t
  }

  /** A text ends with the text appended to it. */
  lemma AppendAgrees(a: string, b: string)
    ensures Agree(a + b, b, |a|)
  {
  }

  /** A slice behind position `d` is the same slice of the text from `d` onward. */
  lemma SliceAgree(s: string, t: string, d: nat, i: nat, j: nat)
    requires Agree(s, t, d) && d <= i <= j <= |s|
    ensures s[i..j] == t[i - d..j - d]
  {
    forall k | i <= k < j
      ensures s[k] == t[k - d]
    {
      assert s[d + (k - d)] == t[k - d];
    }
  }

  /** Matches at the positions from `d` onward of `s` are those of `t`, moved by `d`. */
  predicate Shifted(m: Option<(nat, nat, nat)>, n: Option<(nat, nat, nat)>, d: nat) {
    && (m.None? <==> n.None?)
    && (m.Some? && n.Some? ==> m.value == (n.value.0 + d, n.value.1 + d, n.value.2 + d))
  }

  ghost predicate MatchersAgree(f: Matcher, g: Matcher, d: nat, n: nat) {
    forall q :: d <= q < n ==> Shifted(f(q), g(q - d), d)
  }

  /** `s` holds `t` from `d` onward, and the matches `f` finds there are those `g` finds in `t`. */
  ghost predicate Aligned(s: string, t: string, d: nat, f: Matcher, g: Matcher) {
    Fitting(s, f) && Fitting(t, g) && Agree(s, t, d) && MatchersAgree(f, g, d, |s|)
  }

  /** A match at `p` and at `p - d` yields the same answer and resumes at corresponding positions. */
  lemma MatchAgrees(s: string, t: string, d: nat, f: Matcher, g: Matcher, p: nat)
    requires Aligned(s, t, d, f, g) && d <= p < |s| && f(p).Some?
    requires FindAll(s, f(p).value.2, f) == FindAll(t, f(p).value.2 - d, g)
    ensures FindAll(s, p, f) == FindAll(t, p - d, g)
  {
    var q := p - d;
    assert Shifted(f(p), g(q), d);
    var m := f(p).value;
    SliceAgree(s, t, d, m.0, m.1);
  }

  /** No match at `p`, nor at `p - d`: both searches move on by one position. */
  lemma SkipAgrees(s: string, t: string, d: nat, f: Matcher, g: Matcher, p: nat)
    requires Aligned(s, t, d, f, g) && d <= p < |s| && f(p).None?
    requires FindAll(s, p + 1, f) == FindAll(t, p + 1 - d, g)
    ensures FindAll(s, p, f) == FindAll(t, p - d, g)
  {
    var q := p - d;
    assert Shifted(f(p), g(q), d);
    assert q + 1 == p + 1 - d;
  }

  /** The search only looks forward: from a position behind `d` it only sees the text and the matches from `d` onward. */
  lemma {:induction false} FindAllAgree(s: string, t: string, d: nat, f: Matcher, g: Matcher, p: nat)
    requires Aligned(s, t, d, f, g) && d <= p <= |s|
    ensures FindAll(s, p, f) == FindAll(t, p - d, g)
    decreases |s| - p
  {
    if p < |s| {
      if f(p).Some? {
        FindAllAgree(s, t, d, f, g, f(p).value.2);
        MatchAgrees(s, t, d, f, g, p);
      } else {
        FindAllAgree(s, t, d, f, g, p + 1);
        SkipAgrees(s, t, d, f, g, p);
      }
    }
  }

}

/**
 * `get_main_entity_from_question`: the Freebase entity named by a question's `url`, as the
 * title-cased tokens of the url's last path part.
 */
module WebQuestionsEntity {
  import opened Wrappers
  import opened Sequences
  import opened WebQuestionsAnswers

  /** The url prefix removed from the entity url. */
  const FREEBASE_PREFIX: string := "http://www.freebase.com/view/en/"

  /** The tag that accompanies the tokens. */
  const URL_TAG: string := "URL"

  /** The result: `()` when there is no url, `(tokens, 'URL')` otherwise. */
  datatype MainEntity = NoEntity | UrlEntity(tokens: seq<string>, tag: string)

  /** `s.replace(pat, "")`: removes the non-overlapping occurrences of `pat`, scanning left to right. */
  function RemoveAll(s: string, pat: string): (r: string)
    requires |pat| > 0
    ensures |r| <= |s|
    decreases |s|
  {
    if |s| < |pat| then s
    else if StartsWith(s, 0, pat) then RemoveAll(s[|pat|..], pat)
    else [s[0]] + RemoveAll(s[1..], pat)
  }

  /** Text in which `pat` does not occur is left as it is. */
  lemma {:induction false} RemoveAllAbsent(s: string, pat: string)
    requires |pat| > 0
    requires forall i :: 0 <= i <= |s| ==> !StartsWith(s, i, pat)
    ensures RemoveAll(s, pat) == s
    decreases |s|
  {
    if |s| >= |pat| {
      var t := s[1..];
      forall i | 0 <= i <= |t|
        ensures !StartsWith(t, i, pat)
      {
        if i + |pat| <= |t| {
          assert t[i..i + |pat|] == s[i + 1..i + 1 + |pat|];
        }
        assert !StartsWith(s, i + 1, pat);
      }
      RemoveAllAbsent(t, pat);
      assert [s[0]] + t == s;
    }
  }

  /** A leading occurrence is removed and the scan continues behind it. */
  lemma RemoveAllLeading(pat: string, s: string)
    requires |pat| > 0
    ensures RemoveAll(pat + s, pat) == RemoveAll(s, pat)
  {
    assert (pat + s)[0..|pat|] == pat;
    assert (pat + s)[|pat|..] == s;
  }

  function Count(s: string, c: char): (n: nat)
    ensures n <= |s|
  {
    if |s| == 0 then 0 else (if s[0] == c then 1 else 0) + Count(s[1..], c)
  }

  /** `sep.join(parts)` */
  function Join(parts: seq<string>, sep: char): string
    requires |parts| > 0
  {
    if |parts| == 1 then parts[0] else parts[0] + [sep] + Join(parts[1..], sep)
  }

  /**
   * `s.split(sep)`: one part more than there are separators, no part holds the separator, and
   * joining the parts with the separator gives `s` back.
   */
  function Split(s: string, sep: char): (r: seq<string>)
    ensures |r| == Count(s, sep) + 1
    ensures forall part :: part in r ==> sep !in part
    ensures Join(r, sep) == s
  {
    if |s| == 0 then [""]
    else
      var rest := Split(s[1..], sep);
      if s[0] == sep then
        assert [s[0]] + s[1..] == s;
        [""] + rest
      else
        var r := [[s[0]] + rest[0]] + rest[1..];
        assert r[1..] == rest[1..];
        assert Join(r, sep) == s by {
          if |rest| == 1 {
            assert [s[0]] + s[1..] == s;
          } else {
            calc {
              Join(r, sep);
              ([s[0]] + rest[0]) + [sep] + Join(rest[1..], sep);
              [s[0]] + (rest[0] + [sep] + Join(rest[1..], sep));
              [s[0]] + Join(rest, sep);
              s;
            }
          }
        }
        r
  }

  /** Text without the separator is one part. */
  lemma {:induction false} SplitWithout(a: string, sep: char)
    requires sep !in a
    ensures Split(a, sep) == [a]
    decreases |a|
  {
    if |a| > 0 {
      SplitWithout(a[1..], sep);
      assert [a[0]] + a[1..] == a;
    }
  }

  /** Splitting cuts at the first separator and splits the remainder the same way. */
  lemma {:induction false} SplitAtFirst(a: string, b: string, sep: char)
    requires sep !in a
    ensures Split(a + [sep] + b, sep) == [a] + Split(b, sep)
    decreases |a|
  {
    var s := a + [sep] + b;
    if |a| == 0 {
      assert s[1..] == b;
    } else {
      assert s[1..] == a[1..] + [sep] + b;
      SplitAtFirst(a[1..], b, sep);
      assert [a[0]] + a[1..] == a;
    }
  }

  predicate IsCased(c: char) { IsUpper(c) || IsLower(c) }

  /**
   * `str.title` on ASCII text: a letter that follows a letter is lower-cased, any other letter is
   * upper-cased, and everything else is kept.
   */
  function Title(s: string): (r: string)
    ensures |r| == |s|
  {
    seq(|s|, i requires 0 <= i < |s| => if i > 0 && IsCased(s[i - 1]) then LowerChar(s[i]) else UpperChar(s[i]))
  }

  /**
   * Title-casing changes only the case of letters, so lower-casing afterwards gives the same
   * text as lower-casing alone, and title-casing again changes nothing.
   */
  lemma TitleFacts(s: string)
    ensures Lower(Title(s)) == Lower(s)
    ensures Title(Title(s)) == Title(s)
    ensures forall i :: 0 <= i < |s| ==> (IsCased(Title(s)[i]) <==> IsCased(s[i]))
  {
    var t := Title(s);
    forall i | 0 <= i < |s|
      ensures IsCased(t[i]) <==> IsCased(s[i])
      ensures LowerChar(t[i]) == LowerChar(s[i])
    {
    }
    assert Lower(t) == Lower(s);
    forall i | 0 <= i < |s|
      ensures Title(t)[i] == t[i]
    {
      if i > 0 {
        assert IsCased(t[i - 1]) <==> IsCased(s[i - 1]);
      }
    }
  }

  /** `get_main_entity_from_question` on the question's `url` field. */
  function MainEntityOf(url: Option<string>): (r: MainEntity)
    ensures r.NoEntity? <==> url.None? || url.value == ""
    ensures r.UrlEntity? ==> r.tag == URL_TAG && |r.tokens| == Count(RemoveAll(url.value, FREEBASE_PREFIX), '_') + 1
  {
    if url.None? || url.value == "" then NoEntity
    else UrlEntity(MapSeq(Title, Split(RemoveAll(url.value, FREEBASE_PREFIX), '_')), URL_TAG)
  }

  lemma {:induction false} LowerJoin(parts: seq<string>, sep: char)
    requires |parts| > 0 && !IsUpper(sep)
    ensures Lower(Join(parts, sep)) == Join(MapSeq(Lower, parts), sep)
    decreases |parts|
  {
    if |parts| > 1 {
      LowerJoin(parts[1..], sep);
      LowerFacts(parts[0] + [sep], Join(parts[1..], sep));
      LowerFacts(parts[0], [sep]);
      assert MapSeq(Lower, parts)[1..] == MapSeq(Lower, parts[1..]);
    }
  }

  /**
   * The tokens are the url's entity part split at `_`: joining them with `_` gives that part back
   * up to letter case, and none of them holds an `_`.
   */
  lemma MainEntityTokens(url: string)
    requires url != ""
    ensures var r := MainEntityOf(Some(url));
      && Lower(Join(r.tokens, '_')) == Lower(RemoveAll(url, FREEBASE_PREFIX))
      && (forall token :: token in r.tokens ==> '_' !in token)
  {
    var parts := Split(RemoveAll(url, FREEBASE_PREFIX), '_');
    var tokens := MapSeq(Title, parts);
    forall k | 0 <= k < |parts|
      ensures Lower(tokens[k]) == Lower(parts[k])
      ensures '_' !in tokens[k]
    {
      TitleFacts(parts[k]);
      assert parts[k] in parts;
      forall j | 0 <= j < |tokens[k]|
        ensures tokens[k][j] != '_'
      {
        assert Lower(tokens[k])[j] == Lower(parts[k])[j];
        assert parts[k][j] in parts[k];
      }
    }
    LowerJoin(tokens, '_');
    LowerJoin(parts, '_');
    assert MapSeq(Lower, tokens) == MapSeq(Lower, parts);
  }

  /** A lower-case word is title-cased by upper-casing its first letter. */
  lemma TitleExample(word: string, titled: string)
    requires |word| == |titled| > 0
    requires titled[0] == UpperChar(word[0]) && titled[1..] == word[1..]
    requires forall i :: 0 <= i < |word| ==> IsLower(word[i])
    ensures Title(word) == titled
  {
    forall i | 0 < i < |word|
      ensures Title(word)[i] == titled[i]
    {
      assert IsLower(word[i - 1]) && IsLower(word[i]);
      assert titled[i] == titled[1..][i - 1];
    }
  }

  /** A lower-case word holds no `_`. */
  lemma LowerWordPlain(word: string)
    requires forall i :: 0 <= i < |word| ==> IsLower(word[i])
    ensures '_' !in word
  {
    forall i | 0 <= i < |word|
      ensures word[i] != '_'
    {
      assert IsLower(word[i]);
    }
  }

  lemma NatalieSplit()
    ensures Split("natalie_portman", '_') == ["natalie"] + Split("portman", '_')
  {
    var first, last := "natalie", "portman";
    assert "natalie_portman" == first + ['_'] + last;
    LowerWordPlain(first);
    SplitAtFirst(first, last, '_');
  }

  lemma PortmanSplit()
    ensures Split("portman", '_') == ["portman"]
  {
    LowerWordPlain("portman");
    SplitWithout("portman", '_');
  }

  lemma NataliePortmanParts()
    ensures Split("natalie_portman", '_') == ["natalie", "portman"]
  {
    NatalieSplit();
    PortmanSplit();
  }

  lemma NatalieTitle()
    ensures Title("natalie") == "Natalie"
  {
    TitleExample("natalie", "Natalie");
  }

  lemma PortmanTitle()
    ensures Title("portman") == "Portman"
  {
    TitleExample("portman", "Portman");
  }

  lemma NataliePortmanTokens()
    ensures MapSeq(Title, Split("natalie_portman", '_')) == ["Natalie", "Portman"]
  {
    NataliePortmanParts();
    NatalieTitle();
    PortmanTitle();
  }

  /** The prefix is removed from the url of Natalie Portman. */
  lemma NataliePortmanRemoved()
    ensures RemoveAll("http://www.freebase.com/view/en/natalie_portman", FREEBASE_PREFIX) == "natalie_portman"
  {
    var rest := "natalie_portman";
    assert "http://www.freebase.com/view/en/natalie_portman" == FREEBASE_PREFIX + rest;
    RemoveAllLeading(FREEBASE_PREFIX, rest);
  }

  /** The documented example: the url of Natalie Portman. */
  lemma NataliePortmanExample()
    ensures MainEntityOf(Some("http://www.freebase.com/view/en/natalie_portman")) == UrlEntity(["Natalie", "Portman"], "URL")
  {
    NataliePortmanRemoved();
    NataliePortmanTokens();
  }

  /** The documented example without a url. */
  lemma NoUrlExample()
    ensures MainEntityOf(None) == NoEntity
  {
  }
}

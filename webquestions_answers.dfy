/**
 * `get_answers_from_question`: every capture of the pattern `\(description "?(.*?)"?\)` in a
 * question's `targetValue`, found left to right without overlaps as `re.findall` does, and the
 * lower-casing `get_validation_with_gold` applies to them.
 */
module WebQuestionsAnswers {
  import opened Wrappers
  import opened PatternSearch

  /** The literal that opens every answer item. */
  const DESCRIPTION: string := "(description "

  predicate StartsWith(s: string, i: nat, pat: string) {
    i + |pat| <= |s| && s[i..i + |pat|] == pat
  }

  /**
   * The lazy `(.*?)` followed by `"?\)`, tried from position `j`: the end of the capture and the
   * end of the match. At every position the optional quote is tried before the bare `)`, and the
   * capture grows by one character (never a newline) only when neither closes the item.
   */
  function CloseFrom(s: string, j: nat): (r: Option<(nat, nat)>)
    requires j <= |s|
    ensures r.Some? ==> j <= r.value.0 < r.value.1 <= |s|
    decreases |s| - j
  {
    if j + 1 < |s| && s[j] == '"' && s[j + 1] == ')' then Some((j, j + 2))
    else if j < |s| && s[j] == ')' then Some((j, j + 1))
    else if j < |s| && s[j] != '\n' then CloseFrom(s, j + 1)
    else None
  }

  /**
   * What the closing scan finds: the first `)` after `j`, with the quote in front of it taken
   * into the closing when there is one, and no newline on the way.
   */
  lemma {:induction false} CloseFromFacts(s: string, j: nat)
    requires j <= |s|
    ensures var r := CloseFrom(s, j);
      r.Some? ==>
        && (forall k :: j <= k < r.value.0 ==> s[k] != ')' && s[k] != '\n')
        && (|| (r.value.1 == r.value.0 + 2 && s[r.value.0] == '"' && s[r.value.0 + 1] == ')')
            || (r.value.1 == r.value.0 + 1 && s[r.value.0] == ')'))
        && (j < r.value.0 && s[r.value.0 - 1] == '"' ==> s[r.value.0] != ')')
    decreases |s| - j
  {
    if !(j + 1 < |s| && s[j] == '"' && s[j + 1] == ')') && !(j < |s| && s[j] == ')') && j < |s| && s[j] != '\n' {
      CloseFromFacts(s, j + 1);
    }
  }

  /** A match of the whole pattern starting at `p`: capture start, capture end and match end. */
  function MatchAt(s: string, p: nat): (r: Option<(nat, nat, nat)>)
    requires p <= |s|
    ensures r.Some? ==> p + |DESCRIPTION| <= r.value.0 <= r.value.1 < r.value.2 <= |s|
  {
    if !StartsWith(s, p, DESCRIPTION) then None
    else CaptureFrom(s, p + |DESCRIPTION|)
  }

  /**
   * The part of the pattern behind the opening literal, `"?(.*?)"?\)`, tried from position `c`:
   * the optional quote is taken when the rest of the item can then be closed.
   */
  function CaptureFrom(s: string, c: nat): (r: Option<(nat, nat, nat)>)
    requires c <= |s|
    ensures r.Some? ==> c <= r.value.0 <= r.value.1 < r.value.2 <= |s|
  {
    if c < |s| && s[c] == '"' && CloseFrom(s, c + 1).Some? then
      var close := CloseFrom(s, c + 1).value;
      Some((c + 1, close.0, close.1))
    else
      match CloseFrom(s, c)
      case None => None
      case Some(close) => Some((c, close.0, close.1))
  }

  /** The pattern `\(description "?(.*?)"?\)` as a matcher over `s`. */
  function MatcherOf(s: string): (r: Matcher)
    ensures Fitting(s, r)
  {
    (q: nat) => if q <= |s| then MatchAt(s, q) else None
  }

  /** `re.findall` of the answer pattern over `s`, from position `p`. */
  function FindAllFrom(s: string, p: nat): seq<string>
    requires p <= |s|
  {
    FindAll(s, p, MatcherOf(s))
  }

  /**
   * One step of the search: a match at `p` contributes its capture and the search resumes behind
   * it; without one the search moves on by one position.
   */
  lemma FindAllFromStep(s: string, p: nat)
    requires p < |s|
    ensures MatchAt(s, p).None? ==> FindAllFrom(s, p) == FindAllFrom(s, p + 1)
    ensures MatchAt(s, p).Some? ==>
      var m := MatchAt(s, p).value;
      FindAllFrom(s, p) == [s[m.0..m.1]] + FindAllFrom(s, m.2)
  {
    assert MatcherOf(s)(p) == MatchAt(s, p);
  }

  /**
   * `get_answers_from_question`: the answers listed in a question's `targetValue`. No answer holds
   * a closing parenthesis or a line break, since the lazy capture stops before either.
   */
  function Answers(targetValue: string): (r: seq<string>)
    ensures forall a :: a in r ==> ')' !in a && '\n' !in a
  {
    CapturesClean(targetValue);
    FindAllFrom(targetValue, 0)
  }

  /**
   * Where an answer comes from: it is the text between an opening `(description ` (with the
   * optional quote) and the first `)` or `")` after it, and it never ends in a quote that sits
   * right before the closing parenthesis.
   */
  predicate Opens(s: string, b: nat) {
    || (b >= |DESCRIPTION| && StartsWith(s, b - |DESCRIPTION|, DESCRIPTION))
    || (b > |DESCRIPTION| && StartsWith(s, b - |DESCRIPTION| - 1, DESCRIPTION + "\""))
  }

  predicate CapturedAt(s: string, a: string, b: nat, e: nat) {
    && b <= e < |s|
    && s[b..e] == a
    && Opens(s, b)
    && (StartsWith(s, e, ")") || StartsWith(s, e, "\")"))
    && (forall k :: b <= k < e ==> s[k] != ')' && s[k] != '\n')
    && (b < e && s[e - 1] == '"' ==> s[e] != ')')
  }

  /** A match starts with the opening literal and its capture runs up to the closing scan's result. */
  lemma MatchAtFacts(s: string, p: nat)
    requires p <= |s| && MatchAt(s, p).Some?
    ensures var m := MatchAt(s, p).value;
      && StartsWith(s, p, DESCRIPTION)
      && (m.0 == p + |DESCRIPTION| || (m.0 == p + |DESCRIPTION| + 1 && s[p + |DESCRIPTION|] == '"'))
      && CloseFrom(s, m.0) == Some((m.1, m.2))
  {
  }

  /** The closing scan stops at a `)` or `")` and passes only over text without `)` or newline. */
  lemma CloseCaptured(s: string, j: nat)
    requires j <= |s| && CloseFrom(s, j).Some?
    ensures var r := CloseFrom(s, j).value;
      && (StartsWith(s, r.0, ")") || StartsWith(s, r.0, "\")"))
      && (forall k :: j <= k < r.0 ==> s[k] != ')' && s[k] != '\n')
      && (j < r.0 && s[r.0 - 1] == '"' ==> s[r.0] != ')')
  {
    var r := CloseFrom(s, j).value;
    CloseFromFacts(s, j);
    if r.1 == r.0 + 2 && s[r.0] == '"' && s[r.0 + 1] == ')' {
      var w := s[r.0..r.0 + 2];
      assert |w| == 2 && w[0] == '"' && w[1] == ')';
      assert w == "\")";
    } else {
      assert s[r.0] == ')';
      var w := s[r.0..r.0 + 1];
      assert |w| == 1 && w[0] == ')';
      assert w == ")";
    }
  }

  /** A match's capture starts right behind the opening literal and its optional quote. */
  lemma MatchOpens(s: string, p: nat)
    requires p <= |s| && MatchAt(s, p).Some?
    ensures p <= MatchAt(s, p).value.0 && Opens(s, MatchAt(s, p).value.0)
  {
    MatchAtFacts(s, p);
    if MatchAt(s, p).value.0 == p + |DESCRIPTION| + 1 {
      assert s[p..p + |DESCRIPTION| + 1] == s[p..p + |DESCRIPTION|] + [s[p + |DESCRIPTION|]];
    }
  }

  /** The capture of a match sits where `CapturedAt` says. */
  lemma MatchCaptured(s: string, p: nat)
    requires p <= |s| && MatchAt(s, p).Some?
    ensures var m := MatchAt(s, p).value;
      p <= m.0 && CapturedAt(s, s[m.0..m.1], m.0, m.1)
  {
    MatchAtFacts(s, p);
    MatchOpens(s, p);
    CloseCaptured(s, MatchAt(s, p).value.0);
  }

  /** Where the `i`-th answer found from position `p` onward sits in `s`. */
  lemma {:induction false} FindAllFromCaptured(s: string, p: nat, i: nat) returns (b: nat, e: nat)
    requires p <= |s| && i < |FindAllFrom(s, p)|
    ensures p <= b && CapturedAt(s, FindAllFrom(s, p)[i], b, e)
    decreases |s| - p
  {
    var r := FindAllFrom(s, p);
    FindAllFromStep(s, p);
    match MatchAt(s, p)
    case Some(m) =>
      var later := FindAllFrom(s, m.2);
      if i == 0 {
        MatchCaptured(s, p);
        b, e := m.0, m.1;
      } else {
        assert r[i] == later[i - 1];
        b, e := FindAllFromCaptured(s, m.2, i - 1);
      }
    case None =>
      b, e := FindAllFromCaptured(s, p + 1, i);
  }

  /**
   * Every answer is the text between an opening `(description ` (with its optional quote) and the
   * first `)` after it: it holds no `)` and no newline, and a quote right before the `)` belongs
   * to the closing, not to the answer.
   */
  lemma AnswerCaptured(targetValue: string, i: nat) returns (b: nat, e: nat)
    requires i < |Answers(targetValue)|
    ensures CapturedAt(targetValue, Answers(targetValue)[i], b, e)
    ensures ')' !in Answers(targetValue)[i] && '\n' !in Answers(targetValue)[i]
  {
    b, e := FindAllFromCaptured(targetValue, 0, i);
  }

  /** No capture found in `s` holds a `)` or a line break. */
  lemma CapturesClean(s: string)
    ensures forall a :: a in FindAllFrom(s, 0) ==> ')' !in a && '\n' !in a
  {
    var r := FindAllFrom(s, 0);
    forall i | 0 <= i < |r|
      ensures ')' !in r[i] && '\n' !in r[i]
    {
      var b, e := FindAllFromCaptured(s, 0, i);
      forall k | 0 <= k < |r[i]|
        ensures r[i][k] != ')' && r[i][k] != '\n'
      {
        assert r[i][k] == s[b + k];
      }
    }
  }

  /** Text without any `(description ` item has no answers. */
  lemma {:induction false} NoItemNoAnswers(s: string, p: nat)
    requires p <= |s|
    requires forall i :: p <= i <= |s| ==> !StartsWith(s, i, DESCRIPTION)
    ensures FindAllFrom(s, p) == []
    decreases |s| - p
  {
    if p < |s| {
      NoItemNoAnswers(s, p + 1);
    }
  }

  /** The closing scan only looks forward: text in front of the scanned position changes nothing. */
  lemma {:induction false} CloseFromAgree(s: string, t: string, d: nat, j: nat)
    requires Agree(s, t, d) && d <= j <= |s|
    ensures CloseFrom(s, j).None? <==> CloseFrom(t, j - d).None?
    ensures CloseFrom(s, j).Some? ==>
      CloseFrom(s, j).value == (CloseFrom(t, j - d).value.0 + d, CloseFrom(t, j - d).value.1 + d)
    decreases |s| - j
  {
    if j < |s| {
      assert s[d + (j - d)] == t[j - d];
      if j + 1 < |s| {
        assert s[d + (j + 1 - d)] == t[j + 1 - d];
      }
    }
    if !(j + 1 < |s| && s[j] == '"' && s[j + 1] == ')') && !(j < |s| && s[j] == ')') && j < |s| && s[j] != '\n' {
      CloseFromAgree(s, t, d, j + 1);
    }
  }

  /** The closing scan over `a + b` behind `a` is the scan over `b`, moved by `|a|`. */
  lemma CloseFromShift(a: string, b: string, j: nat)
    requires |a| <= j <= |a| + |b|
    ensures CloseFrom(a + b, j).None? <==> CloseFrom(b, j - |a|).None?
    ensures CloseFrom(a + b, j).Some? ==>
      CloseFrom(a + b, j).value == (CloseFrom(b, j - |a|).value.0 + |a|, CloseFrom(b, j - |a|).value.1 + |a|)
  {
    AppendAgrees(a, b);
    CloseFromAgree(a + b, b, |a|, j);
  }

  lemma StartsWithAgree(s: string, t: string, d: nat, p: nat, pat: string)
    requires Agree(s, t, d) && d <= p <= |s|
    ensures StartsWith(s, p, pat) <==> StartsWith(t, p - d, pat)
  {
    if p + |pat| <= |s| {
      SliceAgree(s, t, d, p, p + |pat|);
    }
  }

  lemma StartsWithHead(s: string, i: nat, pat: string)
    requires StartsWith(s, i, pat) && |pat| >= 2
    ensures s[i] == pat[0] && s[i + 1] == pat[1]
  {
    assert s[i..i + |pat|][0] == s[i] && s[i..i + |pat|][1] == s[i + 1];
  }

  /** The capture scan only looks forward. */
  lemma CaptureFromAgree(s: string, t: string, d: nat, c: nat)
    requires Agree(s, t, d) && d <= c <= |s|
    ensures Shifted(CaptureFrom(s, c), CaptureFrom(t, c - d), d)
  {
    CloseFromAgree(s, t, d, c);
    if c < |s| {
      assert s[d + (c - d)] == t[c - d];
      CloseFromAgree(s, t, d, c + 1);
    }
  }

  /** A match behind position `d` is found the same way in the text from `d` onward. */
  lemma MatchAtAgree(s: string, t: string, d: nat, p: nat)
    requires Agree(s, t, d) && d <= p < |s|
    ensures Shifted(MatchAt(s, p), MatchAt(t, p - d), d)
  {
    StartsWithAgree(s, t, d, p, DESCRIPTION);
    if StartsWith(s, p, DESCRIPTION) {
      CaptureFromAgree(s, t, d, p + |DESCRIPTION|);
    }
  }

  /** Matching only looks forward, so the search from a position behind `d` only sees the text from `d` onward. */
  lemma FindAllFromAgree(s: string, t: string, d: nat, p: nat)
    requires Agree(s, t, d) && d <= p <= |s|
    ensures FindAllFrom(s, p) == FindAllFrom(t, p - d)
  {
    MatchersOfAgree(s, t, d);
    FindAllAgree(s, t, d, MatcherOf(s), MatcherOf(t), p);
  }

  /** At every position from `d` onward, `s` has the match `t` has there, moved by `d`. */
  lemma MatchersOfAgree(s: string, t: string, d: nat)
    requires Agree(s, t, d)
    ensures MatchersAgree(MatcherOf(s), MatcherOf(t), d, |s|)
  {
    forall q | d <= q < |s|
      ensures Shifted(MatcherOf(s)(q), MatcherOf(t)(q - d), d)
    {
      MatcherAgrees(s, t, d, q);
    }
  }

  lemma MatcherAgrees(s: string, t: string, d: nat, q: nat)
    requires Agree(s, t, d) && d <= q < |s|
    ensures Shifted(MatcherOf(s)(q), MatcherOf(t)(q - d), d)
  {
    assert MatcherOf(s)(q) == MatchAt(s, q);
    assert MatcherOf(t)(q - d) == MatchAt(t, q - d);
    MatchAtAgree(s, t, d, q);
  }

  /** The search over `a + b` from a position behind `a` ignores `a`. */
  lemma FindAllFromShift(a: string, b: string, p: nat)
    requires |a| <= p <= |a| + |b|
    ensures FindAllFrom(a + b, p) == FindAllFrom(b, p - |a|)
  {
    AppendAgrees(a, b);
    FindAllFromAgree(a + b, b, |a|, p);
  }

  /** Position `i` of `t` cannot start an item, whatever text follows `t`. */
  predicate NoItemAt(t: string, i: nat)
    requires i < |t|
  {
    t[i] != '(' || (i + 1 < |t| && t[i + 1] != 'd')
  }

  /** Text in which no position starts an item contributes no answers in front of the rest. */
  lemma SkipText(t: string, rest: string)
    requires forall i :: 0 <= i < |t| ==> NoItemAt(t, i)
    ensures FindAllFrom(t + rest, 0) == FindAllFrom(rest, 0)
  {
    var s := t + rest;
    forall i | 0 <= i < |t|
      ensures !StartsWith(s, i, DESCRIPTION)
    {
      assert s[i] == t[i];
      if i + 1 < |t| {
        assert s[i + 1] == t[i + 1];
      }
      assert DESCRIPTION[0] == '(' && DESCRIPTION[1] == 'd';
      assert NoItemAt(t, i);
      if StartsWith(s, i, DESCRIPTION) {
        StartsWithHead(s, i, DESCRIPTION);
      }
    }
    SkipPositions(s, 0, |t|);
    FindAllFromShift(t, rest, |t|);
  }

  lemma {:induction false} SkipPositions(s: string, p: nat, q: nat)
    requires p <= q <= |s|
    requires forall i :: p <= i < q ==> !StartsWith(s, i, DESCRIPTION)
    ensures FindAllFrom(s, p) == FindAllFrom(s, q)
    decreases q - p
  {
    if p < q {
      SkipPositions(s, p + 1, q);
    }
  }

  /** The closing scan passes over text that has no `)`, no newline and no quote right before a `)`. */
  lemma {:induction false} CloseFromSkips(s: string, j: nat, e: nat)
    requires j <= e < |s|
    requires forall k :: j <= k < e ==> s[k] != ')' && s[k] != '\n' && (s[k] == '"' ==> s[k + 1] != ')')
    ensures CloseFrom(s, j) == CloseFrom(s, e)
    decreases e - j
  {
    if j < e {
      CloseFromSkips(s, j + 1, e);
    }
  }

  /** A quoted item followed by more text yields its answer first; the answer may hold any text without `)` or newline. */
  lemma QuotedItemThenRest(answer: string, rest: string)
    requires ')' !in answer && '\n' !in answer
    ensures FindAllFrom(DESCRIPTION + "\"" + answer + "\")" + rest, 0) == [answer] + FindAllFrom(rest, 0)
  {
    var opening := DESCRIPTION + "\"";
    var v := answer + "\")" + rest;
    var s := opening + v;
    assert s == DESCRIPTION + "\"" + answer + "\")" + rest;
    var n := |answer|;
    var c := |DESCRIPTION|;
    assert s[..c] == DESCRIPTION;
    assert s[c] == '"';
    assert v[n] == '"' && v[n + 1] == ')';
    forall k | 0 <= k < n
      ensures v[k] != ')' && v[k] != '\n' && (v[k] == '"' ==> v[k + 1] != ')')
    {
      assert v[k] == answer[k];
      if k + 1 < n {
        assert v[k + 1] == answer[k + 1];
      }
    }
    CloseFromSkips(v, 0, n);
    CloseFromShift(opening, v, c + 1);
    assert CloseFrom(s, c + 1) == Some((c + 1 + n, c + 3 + n));
    assert MatchAt(s, 0) == Some((c + 1, c + 1 + n, c + 3 + n));
    assert s[c + 1..c + 1 + n] == answer;
    var item := DESCRIPTION + "\"" + answer + "\")";
    assert s == item + rest && |item| == c + 3 + n;
    FindAllFromShift(item, rest, c + 3 + n);
  }

  /**
   * A bare item followed by more text yields its answer first; the answer has no `)` or newline
   * and neither starts nor ends with a quote, since the optional quotes of the pattern would take
   * those.
   */
  lemma BareItemThenRest(answer: string, rest: string)
    requires ')' !in answer && '\n' !in answer
    requires answer == [] || (answer[0] != '"' && answer[|answer| - 1] != '"')
    ensures FindAllFrom(DESCRIPTION + answer + ")" + rest, 0) == [answer] + FindAllFrom(rest, 0)
  {
    var v := answer + ")" + rest;
    var s := DESCRIPTION + v;
    assert s == DESCRIPTION + answer + ")" + rest;
    var n := |answer|;
    var c := |DESCRIPTION|;
    assert s[..c] == DESCRIPTION;
    assert v[n] == ')';
    forall k | 0 <= k < n
      ensures v[k] != ')' && v[k] != '\n' && (v[k] == '"' ==> v[k + 1] != ')')
    {
      assert v[k] == answer[k];
      if k + 1 < n {
        assert v[k + 1] == answer[k + 1];
      }
    }
    CloseFromSkips(v, 0, n);
    CloseFromShift(DESCRIPTION, v, c);
    assert CloseFrom(s, c) == Some((c + n, c + n + 1));
    if n > 0 {
      assert s[c] == answer[0];
    }
    assert MatchAt(s, 0) == Some((c, c + n, c + n + 1));
    assert s[c..c + n] == answer;
    var item := DESCRIPTION + answer + ")";
    assert s == item + rest && |item| == c + n + 1;
    FindAllFromShift(item, rest, c + n + 1);
  }

  /** The text of the first documented example, split at its item. */
  lemma QuotedExampleText()
    ensures "(list (description \"Padmé Amidala\"))" == "(list " + (DESCRIPTION + "\"" + "Padmé Amidala" + "\")" + ")")
  {
  }

  /** The first documented example: one quoted answer with a non-ASCII letter. */
  lemma QuotedAnswerExample()
    ensures Answers("(list (description \"Padmé Amidala\"))") == ["Padmé Amidala"]
  {
    var item := DESCRIPTION + "\"" + "Padmé Amidala" + "\")";
    QuotedExampleText();
    PunctuationSkips(item + ")");
    QuotedItemThenRest("Padmé Amidala", ")");
    PunctuationSkips([]);
  }

  /** The `(list ` that opens a `targetValue`, the spaces between items and the closing `)` contribute no answers. */
  lemma PunctuationSkips(rest: string)
    ensures FindAllFrom("(list " + rest, 0) == FindAllFrom(rest, 0)
    ensures FindAllFrom(" " + rest, 0) == FindAllFrom(rest, 0)
    ensures FindAllFrom(")" + rest, 0) == FindAllFrom(rest, 0)
    ensures FindAllFrom(")", 0) == []
  {
    SkipText("(list ", rest);
    SkipText(" ", rest);
    SkipText(")", rest);
    SkipText(")", []);
    assert ")" + [] == ")";
  }

  /** The two quoted items that end the second documented example. */
  lemma QuotedTailExample()
    ensures FindAllFrom(DESCRIPTION + "\"" + "Valentine's Day" + "\")" + (" " + (DESCRIPTION + "\"" + "New Moon" + "\")" + ")")), 0)
      == ["Valentine's Day", "New Moon"]
  {
    var tail4 := DESCRIPTION + "\"" + "New Moon" + "\")" + ")";
    assert FindAllFrom(tail4, 0) == ["New Moon"] by {
      QuotedItemThenRest("New Moon", ")");
      PunctuationSkips([]);
    }
    QuotedItemThenRest("Valentine's Day", " " + tail4);
    PunctuationSkips(tail4);
  }

  /** The text of the second documented example, item by item. */
  lemma MixedExampleText()
    ensures "(list (description Abduction) " + "(description Eclipse) "
            + "(description \"Valentine's Day\") " + "(description \"New Moon\"))"
      == "(list " + (DESCRIPTION + "Abduction" + ")" + (" " + (DESCRIPTION + "Eclipse" + ")" + (" " +
         (DESCRIPTION + "\"" + "Valentine's Day" + "\")" + (" " + (DESCRIPTION + "\"" + "New Moon" + "\")" + ")")))))))
  {
    MixedChunks();
  }

  /** The four pieces of the second documented example's text, each as its item and separator. */
  lemma MixedChunks()
    ensures "(list (description Abduction) " == "(list " + (DESCRIPTION + "Abduction" + ")") + " "
    ensures "(description Eclipse) " == DESCRIPTION + "Eclipse" + ")" + " "
    ensures "(description \"Valentine's Day\") " == DESCRIPTION + "\"" + "Valentine's Day" + "\")" + " "
    ensures "(description \"New Moon\"))" == DESCRIPTION + "\"" + "New Moon" + "\")" + ")"
  {
    AbductionChunk();
    EclipseChunk();
    ValentineChunk();
    NewMoonChunk();
  }

  lemma AbductionChunk()
    ensures "(list (description Abduction) " == "(list " + (DESCRIPTION + "Abduction" + ")") + " "
  {
  }

  lemma EclipseChunk()
    ensures "(description Eclipse) " == DESCRIPTION + "Eclipse" + ")" + " "
  {
  }

  lemma ValentineChunk()
    ensures "(description \"Valentine's Day\") " == DESCRIPTION + "\"" + "Valentine's Day" + "\")" + " "
  {
  }

  lemma NewMoonChunk()
    ensures "(description \"New Moon\"))" == DESCRIPTION + "\"" + "New Moon" + "\")" + ")"
  {
  }

  /** The last three items of the second documented example. */
  lemma EclipseOnwardExample()
    ensures FindAllFrom(DESCRIPTION + "Eclipse" + ")" + (" " +
              (DESCRIPTION + "\"" + "Valentine's Day" + "\")" + (" " + (DESCRIPTION + "\"" + "New Moon" + "\")" + ")")))), 0)
      == ["Eclipse", "Valentine's Day", "New Moon"]
  {
    var tail3 := DESCRIPTION + "\"" + "Valentine's Day" + "\")" + (" " + (DESCRIPTION + "\"" + "New Moon" + "\")" + ")"));
    QuotedTailExample();
    BareItemThenRest("Eclipse", " " + tail3);
    PunctuationSkips(tail3);
  }

  /** The four items of the second documented example, after its opening `(list `. */
  lemma MixedItemsExample()
    ensures FindAllFrom(DESCRIPTION + "Abduction" + ")" + (" " + (DESCRIPTION + "Eclipse" + ")" + (" " +
              (DESCRIPTION + "\"" + "Valentine's Day" + "\")" + (" " + (DESCRIPTION + "\"" + "New Moon" + "\")" + ")")))))), 0)
      == ["Abduction", "Eclipse", "Valentine's Day", "New Moon"]
  {
    var tail2 := DESCRIPTION + "Eclipse" + ")" + (" " +
      (DESCRIPTION + "\"" + "Valentine's Day" + "\")" + (" " + (DESCRIPTION + "\"" + "New Moon" + "\")" + ")"))));
    EclipseOnwardExample();
    BareItemThenRest("Abduction", " " + tail2);
    PunctuationSkips(tail2);
  }

  /** The second documented example: bare and quoted answers in document order. */
  lemma MixedAnswersExample()
    ensures Answers("(list (description Abduction) " + "(description Eclipse) "
                    + "(description \"Valentine's Day\") " + "(description \"New Moon\"))")
      == ["Abduction", "Eclipse", "Valentine's Day", "New Moon"]
  {
    var items := DESCRIPTION + "Abduction" + ")" + (" " + (DESCRIPTION + "Eclipse" + ")" + (" " +
      (DESCRIPTION + "\"" + "Valentine's Day" + "\")" + (" " + (DESCRIPTION + "\"" + "New Moon" + "\")" + ")"))))));
    MixedItemsExample();
    MixedExampleText();
    PunctuationSkips(items);
  }

  predicate IsUpper(c: char) { 'A' <= c <= 'Z' }
  predicate IsLower(c: char) { 'a' <= c <= 'z' }

  function LowerChar(c: char): char {
    if IsUpper(c) then (c as int + 32) as char else c
  }

  function UpperChar(c: char): char {
    if IsLower(c) then (c as int - 32) as char else c
  }

  /** `str.lower` on the ASCII letters. */
  function Lower(s: string): (r: string)
    ensures |r| == |s|
    ensures forall i :: 0 <= i < |r| ==> !IsUpper(r[i]) && (r[i] == s[i] || (IsUpper(s[i]) && r[i] == (s[i] as int + 32) as char))
  {
    seq(|s|, i requires 0 <= i < |s| => LowerChar(s[i]))
  }

  /** Lower-casing is idempotent and distributes over concatenation. */
  lemma LowerFacts(a: string, b: string)
    ensures Lower(Lower(a)) == Lower(a)
    ensures Lower(a + b) == Lower(a) + Lower(b)
  {
  }

  /** The gold answers `get_validation_with_gold` keeps for one question. */
  function GoldAnswers(targetValue: string): (r: seq<string>)
    ensures |r| == |Answers(targetValue)|
    ensures forall i :: 0 <= i < |r| ==> r[i] == Lower(Answers(targetValue)[i])
  {
    var answers := Answers(targetValue);
    seq(|answers|, i requires 0 <= i < |answers| => Lower(answers[i]))
  }
}

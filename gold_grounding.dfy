/**
 * Grounding against gold answers: `ground_one_with_gold` scores every grounding of one graph,
 * `ground_with_gold` walks a list of suggestions until one of them yields a grounding that beats
 * the current F-score and keeps the best three of that suggestion's groundings.
 */
module GoldGrounding {
  import opened Sequences
  import opened Graphs
  import opened GroundingKeys
  import opened Oracles
  import opened Apply
  import opened Resolver

  /** A grounding whose F-score is below this is kept as a negative example. */
  const NEGATIVE_F1_BELOW: real := 0.01
  /** At most this many of the chosen groundings are returned. */
  const MAX_CHOSEN: nat := 3

  /**
   * An element of the lists the search passes around: a grounded graph with its scores and the
   * answers it retrieved (the Python triple), or only the graph (the one-element tuple of a negative).
   */
  datatype Sample = Scored(graph: Graph, scores: Scores, answers: seq<string>) | Unscored(graph: Graph)

  /** The F-score of a sample; a negative counts as 0.0, as in the documentation's examples. */
  function F1(s: Sample): real {
    if s.Scored? then s.scores.f1 else 0.0
  }

  /** The `(chosen_graphs, not_chosen_graphs)` pair. */
  datatype Selection = Selection(chosen: seq<Sample>, rejected: seq<Sample>)

  /** The denotations of `g`, labelled or mapped as the `label.query.results` flag says. */
  function Retrieved(g: Graph, b: Backend): seq<string> {
    var answers := b.denotations(g);
    if b.labelQueryResults then b.labelResults(answers) else b.mapResults(answers)
  }

  /** A grounded graph with its scores against the gold answers. */
  function Evaluated(g: Graph, gold: seq<string>, b: Backend): Sample {
    Scored(g, b.prf1(gold, Retrieved(g, b)), Retrieved(g, b))
  }

  /** Every grounding of `sg` applied to a copy of it and evaluated, in the order the groundings come. */
  function ScoredGroundings(sg: Graph, gold: seq<string>, b: Backend): (r: seq<Sample>)
    ensures |r| == |Groundings(sg, b.groundings)|
    ensures forall i :: 0 <= i < |r| ==> r[i] == Evaluated(Applied(sg, Groundings(sg, b.groundings)[i]), gold, b)
    ensures forall x :: x in r ==> x.Scored?
  {
    MapSeq((p: Grounding) => Evaluated(Applied(sg, p), gold, b), Groundings(sg, b.groundings))
  }

  /** The samples whose F-score is strictly above `minF1`, in order. */
  function AboveF1(samples: seq<Sample>, minF1: real): (r: seq<Sample>)
    ensures |r| <= |samples|
    ensures forall x :: x in r <==> x in samples && F1(x) > minF1
    decreases |samples|
  {
    if |samples| == 0 then []
    else (if F1(samples[0]) > minF1 then [samples[0]] else []) + AboveF1(samples[1..], minF1)
  }

  /** The graphs of the samples whose F-score is below `NEGATIVE_F1_BELOW`, each as a negative, in order. */
  function Negatives(samples: seq<Sample>): (r: seq<Sample>)
    ensures |r| <= |samples|
    ensures forall x :: x in r <==> exists s :: s in samples && F1(s) < NEGATIVE_F1_BELOW && x == Unscored(s.graph)
    decreases |samples|
  {
    if |samples| == 0 then []
    else
      var rest := Negatives(samples[1..]);
      assert forall s :: s in samples <==> s == samples[0] || s in samples[1..];
      (if F1(samples[0]) < NEGATIVE_F1_BELOW then [Unscored(samples[0].graph)] else []) + rest
  }

  /** The choice keeps the order of the samples: it distributes over concatenation. */
  lemma {:induction false} AboveF1Append(a: seq<Sample>, c: seq<Sample>, minF1: real)
    ensures AboveF1(a + c, minF1) == AboveF1(a, minF1) + AboveF1(c, minF1)
    decreases |a|
  {
    if |a| == 0 {
      assert a + c == c;
    } else {
      assert (a + c)[1..] == a[1..] + c;
      AboveF1Append(a[1..], c, minF1);
    }
  }

  /** The negatives keep the order of the samples: they distribute over concatenation. */
  lemma {:induction false} NegativesAppend(a: seq<Sample>, c: seq<Sample>)
    ensures Negatives(a + c) == Negatives(a) + Negatives(c)
    decreases |a|
  {
    if |a| == 0 {
      assert a + c == c;
    } else {
      assert (a + c)[1..] == a[1..] + c;
      NegativesAppend(a[1..], c);
    }
  }

  /**
   * `ground_one_with_gold(s_g, gold_answers, min_fscore)`: of the scored groundings of `sg`, those
   * above `minF1` are chosen and those below `NEGATIVE_F1_BELOW` are returned as negatives.
   */
  function GroundOne(sg: Graph, gold: seq<string>, minF1: real, b: Backend): (r: Selection)
    ensures forall s :: s in r.chosen <==> s in ScoredGroundings(sg, gold, b) && F1(s) > minF1
    ensures forall x :: x in r.rejected <==>
      exists s :: s in ScoredGroundings(sg, gold, b) && F1(s) < NEGATIVE_F1_BELOW && x == Unscored(s.graph)
  {
    var scored := ScoredGroundings(sg, gold, b);
    Selection(AboveF1(scored, minF1), Negatives(scored))
  }

  /** `ground_one_with_gold` with the gold answers, threshold and backend fixed. */
  function Grounder(gold: seq<string>, minF1: real, b: Backend): Graph -> Selection {
    sg => GroundOne(sg, gold, minF1, b)
  }

  /**
   * The loop of `ground_with_gold` before sorting, for any way `ground` of grounding one input:
   * inputs are grounded in order until one of them has a chosen grounding; the negatives of every
   * input grounded so far are collected.
   */
  function Scan(inputs: seq<Graph>, ground: Graph -> Selection): Selection
    decreases |inputs|
  {
    if |inputs| == 0 then Selection([], [])
    else
      var one := ground(inputs[0]);
      if one.chosen != [] then one
      else
        var rest := Scan(inputs[1..], ground);
        Selection(rest.chosen, one.rejected + rest.rejected)
  }

  predicate SortedByF1(s: seq<Sample>) {
    forall i, j :: 0 <= i < j < |s| ==> F1(s[i]) >= F1(s[j])
  }

  /** Inserts `x` before the first element it does not score below, so earlier inputs stay ahead of equal ones. */
  function InsertByF1(x: Sample, s: seq<Sample>): (r: seq<Sample>)
    ensures multiset(r) == multiset(s) + multiset{x}
    decreases |s|
  {
    if |s| == 0 || F1(x) >= F1(s[0]) then [x] + s
    else
      assert s == [s[0]] + s[1..];
      [s[0]] + InsertByF1(x, s[1..])
  }

  /** No element of `s` scores above `v`. */
  predicate AtMost(s: seq<Sample>, v: real) {
    forall i :: 0 <= i < |s| ==> F1(s[i]) <= v
  }

  /** A sorted list with nothing above `F1(h)` stays sorted with `h` in front. */
  lemma SortedCons(h: Sample, s: seq<Sample>)
    requires SortedByF1(s) && AtMost(s, F1(h))
    ensures SortedByF1([h] + s)
  {
    var r := [h] + s;
    forall i, j | 0 <= i < j < |r|
      ensures F1(r[i]) >= F1(r[j])
    {
      assert r[j] == s[j - 1];
      if i > 0 {
        assert r[i] == s[i - 1];
      }
    }
  }

  /** Behind the head of a sorted list nothing scores above the head. */
  lemma SortedTail(s: seq<Sample>)
    requires SortedByF1(s) && |s| > 0
    ensures SortedByF1(s[1..]) && AtMost(s[1..], F1(s[0]))
  {
    forall i | 0 <= i < |s[1..]|
      ensures F1(s[1..][i]) <= F1(s[0])
    {
      assert s[1..][i] == s[i + 1];
    }
  }

  /** Inserting an element no better than `v` into a list with nothing above `v` keeps nothing above `v`. */
  lemma {:induction false} InsertAtMost(x: Sample, s: seq<Sample>, v: real)
    requires AtMost(s, v) && F1(x) <= v
    ensures AtMost(InsertByF1(x, s), v)
    decreases |s|
  {
    if |s| > 0 && F1(x) < F1(s[0]) {
      InsertAtMost(x, s[1..], v);
      var tail := InsertByF1(x, s[1..]);
      var r := [s[0]] + tail;
      forall i | 0 <= i < |r|
        ensures F1(r[i]) <= v
      {
        if i > 0 {
          assert r[i] == tail[i - 1];
        }
      }
    } else {
      var r := [x] + s;
      forall i | 0 <= i < |r|
        ensures F1(r[i]) <= v
      {
        if i > 0 {
          assert r[i] == s[i - 1];
        }
      }
    }
  }

  /** Inserting into a list sorted best first keeps it sorted. */
  lemma {:induction false} InsertKeepsSorted(x: Sample, s: seq<Sample>)
    requires SortedByF1(s)
    ensures SortedByF1(InsertByF1(x, s))
    decreases |s|
  {
    if |s| == 0 {
      SortedCons(x, s);
    } else {
      SortedTail(s);
      if F1(x) < F1(s[0]) {
        InsertKeepsSorted(x, s[1..]);
        InsertAtMost(x, s[1..], F1(s[0]));
        SortedCons(s[0], InsertByF1(x, s[1..]));
      } else {
        SortedCons(x, s);
      }
    }
  }

  /** `sorted(samples, key=lambda x: x[1][2], reverse=True)`: highest F-score first, a permutation of the input. */
  function SortByF1(s: seq<Sample>): (r: seq<Sample>)
    ensures multiset(r) == multiset(s)
    ensures SortedByF1(r)
    decreases |s|
  {
    if |s| == 0 then []
    else
      assert s == [s[0]] + s[1..];
      var sortedTail := SortByF1(s[1..]);
      InsertKeepsSorted(s[0], sortedTail);
      InsertByF1(s[0], sortedTail)
  }

  /** The first `MAX_CHOSEN` elements, or all of them when there are fewer. */
  function Top(s: seq<Sample>): (r: seq<Sample>)
    ensures |r| == if |s| > MAX_CHOSEN then MAX_CHOSEN else |s|
    ensures r <= s
  {
    if |s| > MAX_CHOSEN then s[..MAX_CHOSEN] else s
  }

  /** The pair `ground_with_gold(inputs, gold_answers, min_fscore)` returns. */
  function GroundedWithGold(inputs: seq<Graph>, gold: seq<string>, minF1: real, b: Backend): Selection {
    var scan := Scan(inputs, Grounder(gold, minF1, b));
    Selection(Top(SortByF1(scan.chosen)), scan.rejected)
  }

  /** `ground_with_gold`: pops suggestions until one yields a chosen grounding, then sorts and truncates. */
  method GroundWithGold(inputs: seq<Graph>, gold: seq<string>, minF1: real, b: Backend)
    returns (chosen: seq<Sample>, rejected: seq<Sample>)
    ensures Selection(chosen, rejected) == GroundedWithGold(inputs, gold, minF1, b)
  {
    chosen, rejected := ScanInputs(inputs, Grounder(gold, minF1, b));
    chosen := SortByF1(chosen);
    if |chosen| > MAX_CHOSEN {
      chosen := chosen[..MAX_CHOSEN];
    }
  }

  /** The loop of `ground_with_gold`: grounds the inputs in order until one has a chosen grounding. */
  method ScanInputs(inputs: seq<Graph>, ground: Graph -> Selection) returns (chosen: seq<Sample>, rejected: seq<Sample>)
    ensures Selection(chosen, rejected) == Scan(inputs, ground)
  {
    chosen, rejected := [], [];
    var i := 0;
    while i < |inputs| && |chosen| == 0
      invariant 0 <= i <= |inputs|
      invariant chosen == [] ==>
        Scan(inputs, ground) == Selection(Scan(inputs[i..], ground).chosen, rejected + Scan(inputs[i..], ground).rejected)
      invariant chosen != [] ==> Scan(inputs, ground) == Selection(chosen, rejected)
      decreases |inputs| - i
    {
      var one := ground(inputs[i]);
      assert inputs[i..][1..] == inputs[i + 1..];
      chosen := chosen + one.chosen;
      rejected := rejected + one.rejected;
      i := i + 1;
    }
    if chosen == [] {
      assert inputs[i..] == [];
    }
  }

  /** One round of the loop at input `i`: that input decides if `ground` chooses something for it, else the remaining inputs do. */
  lemma ScanRound(inputs: seq<Graph>, i: nat, ground: Graph -> Selection)
    requires i < |inputs|
    ensures var here := ground(inputs[i]);
      && (here.chosen != [] ==> Scan(inputs[i..], ground) == here)
      && (here.chosen == [] ==>
        Scan(inputs[i..], ground)
          == Selection(Scan(inputs[i + 1..], ground).chosen, here.rejected + Scan(inputs[i + 1..], ground).rejected))
  {
    var remaining := inputs[i..];
    assert remaining[1..] == inputs[i + 1..];
    assert remaining[0] == inputs[i];
  }

  /**
   * The position of the first input `ground` chooses something for, or `|inputs|` when there is
   * none: every input before it has nothing chosen.
   */
  function FirstChosen(inputs: seq<Graph>, ground: Graph -> Selection): (k: nat)
    ensures k <= |inputs|
    ensures forall j :: 0 <= j < k ==> ground(inputs[j]).chosen == []
    ensures k < |inputs| ==> ground(inputs[k]).chosen != []
    decreases |inputs|
  {
    if |inputs| == 0 || ground(inputs[0]).chosen != [] then 0
    else
      var k := FirstChosen(inputs[1..], ground);
      assert forall j :: 1 <= j <= k ==> inputs[j] == inputs[1..][j - 1];
      k + 1
  }

  /** How many inputs the loop grounds: every one up to and including the first with a choice. */
  function Tried(inputs: seq<Graph>, ground: Graph -> Selection): (n: nat)
    ensures n <= |inputs|
  {
    var k := FirstChosen(inputs, ground);
    if k < |inputs| then k + 1 else k
  }

  /** The negatives `ground` collects for one input. */
  function RejectedBy(ground: Graph -> Selection): Graph -> seq<Sample> {
    sg => ground(sg).rejected
  }

  /**
   * The loop stops at the first input that has a chosen grounding and returns that input's
   * choice; it chooses nothing exactly when no input has a chosen grounding.
   */
  lemma {:induction false} ScanChosen(inputs: seq<Graph>, ground: Graph -> Selection)
    ensures var k := FirstChosen(inputs, ground);
      Scan(inputs, ground).chosen == if k < |inputs| then ground(inputs[k]).chosen else []
    ensures Scan(inputs, ground).chosen == [] <==> forall k :: 0 <= k < |inputs| ==> ground(inputs[k]).chosen == []
    decreases |inputs|
  {
    if |inputs| > 0 && ground(inputs[0]).chosen == [] {
      var rest := inputs[1..];
      ScanChosen(rest, ground);
      var k := FirstChosen(rest, ground);
      if k < |rest| {
        assert inputs[k + 1] == rest[k];
      }
    }
  }

  /**
   * The negatives collected are those of the inputs grounded, in input order: the inputs up to
   * and including the first with a choice, or all of them when none has one.
   */
  lemma {:induction false} ScanRejected(inputs: seq<Graph>, ground: Graph -> Selection)
    ensures Scan(inputs, ground).rejected == Flatten(MapSeq(RejectedBy(ground), inputs[..Tried(inputs, ground)]))
    decreases |inputs|
  {
    var f := RejectedBy(ground);
    var n := Tried(inputs, ground);
    if |inputs| > 0 {
      var one := ground(inputs[0]);
      if one.chosen != [] {
        assert MapSeq(f, inputs[..n]) == [one.rejected];
        FlattenSingle(one.rejected);
      } else {
        var rest := inputs[1..];
        ScanRejected(rest, ground);
        var m := Tried(rest, ground);
        assert n == m + 1;
        assert MapSeq(f, inputs[..n]) == [one.rejected] + MapSeq(f, rest[..m]);
        FlattenAppend([one.rejected], MapSeq(f, rest[..m]));
        FlattenSingle(one.rejected);
      }
    }
  }

  /** Every negative collected is a negative of one of the inputs. */
  lemma {:induction false} ScanRejectedFrom(inputs: seq<Graph>, ground: Graph -> Selection)
    ensures forall x :: x in Scan(inputs, ground).rejected ==> exists k :: 0 <= k < |inputs| && x in ground(inputs[k]).rejected
    decreases |inputs|
  {
    if |inputs| > 0 {
      ScanRejectedFrom(inputs[1..], ground);
      forall x | x in Scan(inputs, ground).rejected
        ensures exists k :: 0 <= k < |inputs| && x in ground(inputs[k]).rejected
      {
        if x !in ground(inputs[0]).rejected {
          var k :| 0 <= k < |inputs[1..]| && x in ground(inputs[1..][k]).rejected;
          assert inputs[1..][k] == inputs[k + 1];
        }
      }
    }
  }

  /** No element of `all` left out of `kept` scores above an element that was kept. */
  predicate KeepsBest(kept: seq<Sample>, all: seq<Sample>) {
    forall x :: x in all ==> x in kept || forall y :: y in kept ==> F1(y) >= F1(x)
  }

  /**
   * Keeping the first `MAX_CHOSEN` of the sorted list keeps the best: the kept ones are sorted and
   * taken from the list, none is kept only when the list is empty, and an element left out scores
   * no higher than any kept one.
   */
  lemma TopKeepsBest(c: seq<Sample>)
    ensures var r := Top(SortByF1(c));
      && |r| <= MAX_CHOSEN
      && |r| == (if |c| > MAX_CHOSEN then MAX_CHOSEN else |c|)
      && SortedByF1(r)
      && (r == [] <==> c == [])
      && (forall x :: x in r ==> x in c)
      && KeepsBest(r, c)
  {
    var sorted := SortByF1(c);
    assert |sorted| == |c| by {
      assert |multiset(sorted)| == |multiset(c)|;
    }
    TopOfSorted(sorted);
    SortedMembers(c);
    if sorted == [] {
      assert multiset(c) == multiset{};
    }
  }

  /** Sorting neither adds nor drops an element. */
  lemma SortedMembers(c: seq<Sample>)
    ensures forall x :: x in SortByF1(c) <==> x in c
  {
    var sorted := SortByF1(c);
    forall x
      ensures x in sorted <==> x in c
    {
      assert x in sorted <==> x in multiset(sorted);
      assert x in c <==> x in multiset(c);
    }
  }

  /** The first `MAX_CHOSEN` of a sorted list are sorted, and none left out scores above one kept. */
  lemma TopOfSorted(sorted: seq<Sample>)
    requires SortedByF1(sorted)
    ensures var r := Top(sorted);
      && SortedByF1(r)
      && (forall x :: x in r ==> x in sorted)
      && KeepsBest(r, sorted)
  {
    var r := Top(sorted);
    forall i, j | 0 <= i < j < |r|
      ensures F1(r[i]) >= F1(r[j])
    {
      assert r[i] == sorted[i] && r[j] == sorted[j];
    }
    forall x | x in sorted
      ensures x in r || forall y :: y in r ==> F1(y) >= F1(x)
    {
      var i :| 0 <= i < |sorted| && sorted[i] == x;
      if i >= MAX_CHOSEN {
        forall y | y in r
          ensures F1(y) >= F1(x)
        {
          var j :| 0 <= j < |r| && r[j] == y;
          assert sorted[j] == y;
        }
      }
    }
  }

  /** `kept` are scored groundings of `sg` above `minF1`, and the best of those `sg` has above it. */
  predicate BestGroundingsOf(kept: seq<Sample>, sg: Graph, gold: seq<string>, minF1: real, b: Backend) {
    && (forall x :: x in kept ==> x in ScoredGroundings(sg, gold, b) && x.Scored? && F1(x) > minF1)
    && KeepsBest(kept, GroundOne(sg, gold, minF1, b).chosen)
  }

  /** `ground_with_gold` returns at most three chosen groundings, best first, each scored strictly above `minF1`. */
  lemma GroundedWithGoldBounds(inputs: seq<Graph>, gold: seq<string>, minF1: real, b: Backend)
    ensures var r := GroundedWithGold(inputs, gold, minF1, b);
      && |r.chosen| <= MAX_CHOSEN
      && SortedByF1(r.chosen)
      && (forall x :: x in r.chosen ==> x.Scored? && F1(x) > minF1)
  {
    var ground := Grounder(gold, minF1, b);
    var scan := Scan(inputs, ground);
    ScanChosen(inputs, ground);
    TopKeepsBest(scan.chosen);
    if scan.chosen != [] {
      var k :| 0 <= k < |inputs| && scan.chosen == ground(inputs[k]).chosen;
      var scored := ScoredGroundings(inputs[k], gold, b);
      assert forall x :: x in scan.chosen ==> x in scored && F1(x) > minF1;
    }
  }

  /** `ground_with_gold` chooses nothing exactly when no input has a grounding above `minF1`. */
  lemma GroundedWithGoldNone(inputs: seq<Graph>, gold: seq<string>, minF1: real, b: Backend)
    ensures GroundedWithGold(inputs, gold, minF1, b).chosen == []
        <==> forall k :: 0 <= k < |inputs| ==> GroundOne(inputs[k], gold, minF1, b).chosen == []
  {
    var ground := Grounder(gold, minF1, b);
    ScanChosen(inputs, ground);
    TopKeepsBest(Scan(inputs, ground).chosen);
    assert forall k :: 0 <= k < |inputs| ==> ground(inputs[k]) == GroundOne(inputs[k], gold, minF1, b);
  }

  /**
   * The chosen groundings are the best groundings of the first input that has any above `minF1`:
   * every earlier input has none, and nothing of that input left out scores above one kept.
   */
  lemma GroundedWithGoldChosen(inputs: seq<Graph>, gold: seq<string>, minF1: real, b: Backend)
    ensures var r := GroundedWithGold(inputs, gold, minF1, b);
      r.chosen != [] ==> (exists k ::
        && 0 <= k < |inputs|
        && (forall j :: 0 <= j < k ==> GroundOne(inputs[j], gold, minF1, b).chosen == [])
        && BestGroundingsOf(r.chosen, inputs[k], gold, minF1, b)
        && |r.chosen| == var n := |GroundOne(inputs[k], gold, minF1, b).chosen|; if n > MAX_CHOSEN then MAX_CHOSEN else n)
  {
    var ground := Grounder(gold, minF1, b);
    var scan := Scan(inputs, ground);
    ScanChosen(inputs, ground);
    TopKeepsBest(scan.chosen);
    var r := GroundedWithGold(inputs, gold, minF1, b);
    if r.chosen != [] {
      var k := FirstChosen(inputs, ground);
      assert forall j :: 0 <= j < k ==> ground(inputs[j]) == GroundOne(inputs[j], gold, minF1, b);
      var scored := ScoredGroundings(inputs[k], gold, b);
      forall x | x in r.chosen
        ensures x in scored && x.Scored? && F1(x) > minF1
      {
        assert x in AboveF1(scored, minF1);
      }
      assert BestGroundingsOf(r.chosen, inputs[k], gold, minF1, b);
    }
  }

  /** The negatives `ground_one_with_gold` collects for an input are its groundings scoring below `NEGATIVE_F1_BELOW`. */
  lemma GrounderRejected(xs: seq<Graph>, gold: seq<string>, minF1: real, b: Backend)
    ensures MapSeq(RejectedBy(Grounder(gold, minF1, b)), xs) == MapSeq((sg: Graph) => Negatives(ScoredGroundings(sg, gold, b)), xs)
  {
    var f := RejectedBy(Grounder(gold, minF1, b));
    var g := (sg: Graph) => Negatives(ScoredGroundings(sg, gold, b));
    forall i | 0 <= i < |xs|
      ensures f(xs[i]) == g(xs[i])
    {
    }
  }

  /**
   * The negatives `ground_with_gold` returns are those of `ground_one_with_gold` for each input it
   * grounded, in input order; each is a grounding of its input that scored below `NEGATIVE_F1_BELOW`.
   */
  lemma GroundedWithGoldRejected(inputs: seq<Graph>, gold: seq<string>, minF1: real, b: Backend)
    ensures GroundedWithGold(inputs, gold, minF1, b).rejected
      == Flatten(MapSeq((sg: Graph) => Negatives(ScoredGroundings(sg, gold, b)), inputs[..Tried(inputs, Grounder(gold, minF1, b))]))
    ensures forall x :: x in GroundedWithGold(inputs, gold, minF1, b).rejected ==>
      (x.Unscored? && exists k, s :: 0 <= k < |inputs| && s in ScoredGroundings(inputs[k], gold, b) && F1(s) < NEGATIVE_F1_BELOW && x == Unscored(s.graph))
  {
    var ground := Grounder(gold, minF1, b);
    ScanRejected(inputs, ground);
    GrounderRejected(inputs[..Tried(inputs, ground)], gold, minF1, b);
    GroundedNegatives(inputs, gold, minF1, b);
  }

  /** Every negative `ground_with_gold` returns is a grounding of one of its inputs that scored below `NEGATIVE_F1_BELOW`. */
  lemma GroundedNegatives(inputs: seq<Graph>, gold: seq<string>, minF1: real, b: Backend)
    ensures forall x :: x in GroundedWithGold(inputs, gold, minF1, b).rejected ==>
      (x.Unscored? && exists k, s :: 0 <= k < |inputs| && s in ScoredGroundings(inputs[k], gold, b) && F1(s) < NEGATIVE_F1_BELOW && x == Unscored(s.graph))
  {
    var ground := Grounder(gold, minF1, b);
    ScanRejectedFrom(inputs, ground);
    forall x | x in GroundedWithGold(inputs, gold, minF1, b).rejected
      ensures x.Unscored? && exists k, s :: 0 <= k < |inputs| && s in ScoredGroundings(inputs[k], gold, b) && F1(s) < NEGATIVE_F1_BELOW && x == Unscored(s.graph)
    {
      var k :| 0 <= k < |inputs| && x in ground(inputs[k]).rejected;
      assert x in Negatives(ScoredGroundings(inputs[k], gold, b));
    }
  }
}

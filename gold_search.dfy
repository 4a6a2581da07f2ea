/**
 * `generate_with_gold`: a breadth-first search over graphs. Each graph taken from the pool is
 * either kept as a result (its F-score is already high, or no refinement beats it) or replaced in
 * the pool by the best groundings of its first restriction or expansion that scores higher.
 */
module GoldSearch {
  import opened Sequences
  import opened Graphs
  import opened Oracles
  import opened Enrichment
  import opened GoldGrounding

  /** A graph scoring below this is refined; one scoring at least this is kept as it is. */
  const RESTRICT_BELOW_F1: real := 0.7
  /** The search stops once the last kept graph scores at least this. */
  const GOOD_ENOUGH_F1: real := 0.9

  /** The `pool`, `positive_graphs` and `negative_graphs` lists of the search. */
  datatype SearchState = SearchState(pool: seq<Sample>, positives: seq<Sample>, negatives: seq<Sample>)

  /** The restrictions of a graph, each with its objects labelled. */
  function Suggestions(g: Sample, b: Backend): seq<Graph> {
    MapSeq((r: Graph) => Labelled(r, b.labelEntity), b.restrict(g.graph))
  }

  /**
   * One suggestion of the inner loop: grounded on its own and, when that chooses nothing, through
   * its expansions; the negatives of both groundings are collected.
   */
  function Attempt(sg: Graph, gold: seq<string>, minF1: real, b: Backend): Selection {
    var first := GroundedWithGold([sg], gold, minF1, b);
    if first.chosen != [] then first
    else
      var second := GroundedWithGold(b.expand(sg), gold, minF1, b);
      Selection(second.chosen, first.rejected + second.rejected)
  }

  /** `Attempt` for the given answers, threshold and backend, as a function of the suggestion. */
  function Attempter(gold: seq<string>, minF1: real, b: Backend): Graph -> Selection {
    sg => Attempt(sg, gold, minF1, b)
  }

  /** Grounds one suggestion, and its expansions when the suggestion alone chooses nothing. */
  method AttemptWithGold(sg: Graph, gold: seq<string>, minF1: real, b: Backend)
    returns (chosen: seq<Sample>, rejected: seq<Sample>)
    ensures Selection(chosen, rejected) == Attempt(sg, gold, minF1, b)
  {
    chosen, rejected := GroundWithGold([sg], gold, minF1, b);
    if chosen == [] {
      var expanded := b.expand(sg);
      var notChosen;
      chosen, notChosen := GroundWithGold(expanded, gold, minF1, b);
      rejected := rejected + notChosen;
    }
  }

  /** Grounding the graph itself and grounding its expansions both choose nothing. */
  predicate Unproductive(sg: Graph, gold: seq<string>, minF1: real, b: Backend) {
    && GroundedWithGold([sg], gold, minF1, b).chosen == []
    && GroundedWithGold(b.expand(sg), gold, minF1, b).chosen == []
  }

  /** Grounding chooses nothing exactly when no input has a grounding above `minF1`. */
  lemma NothingChosen(inputs: seq<Graph>, gold: seq<string>, minF1: real, b: Backend)
    ensures GroundedWithGold(inputs, gold, minF1, b).chosen == []
        <==> forall e :: e in inputs ==> GroundOne(e, gold, minF1, b).chosen == []
  {
    GroundedWithGoldNone(inputs, gold, minF1, b);
  }

  /** A suggestion is unproductive exactly when neither it nor any of its expansions has a grounding above `minF1`. */
  lemma UnproductiveMeans(sg: Graph, gold: seq<string>, minF1: real, b: Backend)
    ensures Unproductive(sg, gold, minF1, b)
        <==> GroundOne(sg, gold, minF1, b).chosen == [] && forall e :: e in b.expand(sg) ==> GroundOne(e, gold, minF1, b).chosen == []
  {
    NothingChosen([sg], gold, minF1, b);
    NothingChosen(b.expand(sg), gold, minF1, b);
  }

  /** `chosen` is what grounding `sg` itself, or else its expansions, chooses. */
  predicate RefinementOf(chosen: seq<Sample>, sg: Graph, gold: seq<string>, minF1: real, b: Backend) {
    || chosen == GroundedWithGold([sg], gold, minF1, b).chosen
    || chosen == GroundedWithGold(b.expand(sg), gold, minF1, b).chosen
  }

  /** A non-empty refinement of `sg` is the best groundings of `sg` itself or of one of its expansions. */
  lemma RefinementMeans(chosen: seq<Sample>, sg: Graph, gold: seq<string>, minF1: real, b: Backend)
    requires chosen != [] && RefinementOf(chosen, sg, gold, minF1, b)
    ensures || BestGroundingsOf(chosen, sg, gold, minF1, b)
            || exists e :: e in b.expand(sg) && BestGroundingsOf(chosen, e, gold, minF1, b)
  {
    if chosen == GroundedWithGold([sg], gold, minF1, b).chosen {
      GroundedWithGoldChosen([sg], gold, minF1, b);
      var k :| 0 <= k < 1 && BestGroundingsOf(chosen, [sg][k], gold, minF1, b);
    } else {
      GroundedWithGoldChosen(b.expand(sg), gold, minF1, b);
      var k :| 0 <= k < |b.expand(sg)| && BestGroundingsOf(chosen, b.expand(sg)[k], gold, minF1, b);
      assert b.expand(sg)[k] in b.expand(sg);
    }
  }

  /**
   * One attempt chooses at most three groundings, best first, each above `minF1`; it chooses
   * nothing exactly when the suggestion is unproductive, and otherwise what the suggestion or its
   * expansions choose; every negative is unscored.
   */
  lemma AttemptFacts(sg: Graph, gold: seq<string>, minF1: real, b: Backend)
    ensures var a := Attempt(sg, gold, minF1, b);
      && |a.chosen| <= MAX_CHOSEN
      && SortedByF1(a.chosen)
      && (forall x :: x in a.chosen ==> x.Scored? && F1(x) > minF1)
      && (forall x :: x in a.rejected ==> x.Unscored?)
      && (a.chosen == [] <==> Unproductive(sg, gold, minF1, b))
      && (a.chosen != [] ==> RefinementOf(a.chosen, sg, gold, minF1, b))
  {
    GroundedWithGoldBounds([sg], gold, minF1, b);
    GroundedNegatives([sg], gold, minF1, b);
    GroundedWithGoldBounds(b.expand(sg), gold, minF1, b);
    GroundedNegatives(b.expand(sg), gold, minF1, b);
  }

  /** Bookkeeping of the inner loop: the rejections of one more round join the collected ones. */
  lemma RejectedChain(total: Selection, here: Selection, before: seq<Sample>, extra: seq<Sample>, next: Selection)
    requires total == Selection(here.chosen, before + here.rejected)
    requires here == Selection(next.chosen, extra + next.rejected)
    ensures total == Selection(next.chosen, (before + extra) + next.rejected)
  {
    assert before + (extra + next.rejected) == (before + extra) + next.rejected;
  }

  /** The `while not chosen_graphs and suggested_graphs` loop of `generate_with_gold`. */
  method RefineWithGold(suggested: seq<Graph>, gold: seq<string>, minF1: real, b: Backend)
    returns (chosen: seq<Sample>, rejected: seq<Sample>)
    ensures Selection(chosen, rejected) == Scan(suggested, Attempter(gold, minF1, b))
  {
    chosen, rejected := [], [];
    var i := 0;
    ghost var attempt := Attempter(gold, minF1, b);
    ghost var total := Scan(suggested, attempt);
    assert suggested[i..] == suggested;
    while chosen == [] && i < |suggested|
      invariant 0 <= i <= |suggested|
      invariant chosen == [] ==>
        total == Selection(Scan(suggested[i..], attempt).chosen, rejected + Scan(suggested[i..], attempt).rejected)
      invariant chosen != [] ==> total == Selection(chosen, rejected)
      decreases |suggested| - i
    {
      ghost var before := rejected;
      ghost var here := Scan(suggested[i..], attempt);
      ghost var next := Scan(suggested[i + 1..], attempt);
      ScanRound(suggested, i, attempt);
      var notChosen;
      chosen, notChosen := AttemptWithGold(suggested[i], gold, minF1, b);
      assert Selection(chosen, notChosen) == attempt(suggested[i]);
      rejected := rejected + notChosen;
      if chosen == [] {
        RejectedChain(total, here, before, notChosen, next);
      }
      i := i + 1;
    }
    if chosen == [] {
      assert suggested[i..] == [];
    }
  }

  /** `attempt` chooses at most three groundings for `sg`, best first, each above `minF1`, and collects only unscored negatives. */
  predicate AttemptWithin(attempt: Graph -> Selection, minF1: real, sg: Graph) {
    var a := attempt(sg);
    && |a.chosen| <= MAX_CHOSEN
    && SortedByF1(a.chosen)
    && (forall x :: x in a.chosen ==> x.Scored? && F1(x) > minF1)
    && (forall x :: x in a.rejected ==> x.Unscored?)
  }

  /** The refinement keeps the bounds every attempt keeps. */
  lemma {:induction false} RefinedWithin(suggested: seq<Graph>, attempt: Graph -> Selection, minF1: real)
    requires forall k :: 0 <= k < |suggested| ==> AttemptWithin(attempt, minF1, suggested[k])
    ensures var r := Scan(suggested, attempt);
      && |r.chosen| <= MAX_CHOSEN
      && SortedByF1(r.chosen)
      && (forall x :: x in r.chosen ==> x.Scored? && F1(x) > minF1)
      && (forall x :: x in r.rejected ==> x.Unscored?)
    decreases |suggested|
  {
    if |suggested| > 0 {
      assert AttemptWithin(attempt, minF1, suggested[0]);
      var tail := suggested[1..];
      forall k | 0 <= k < |tail|
        ensures AttemptWithin(attempt, minF1, tail[k])
      {
        assert tail[k] == suggested[k + 1];
      }
      RefinedWithin(tail, attempt, minF1);
    }
  }

  /**
   * The refinement chooses at most three groundings, best first, each scoring above `minF1`,
   * and every negative it collects is unscored.
   */
  lemma RefinedBounds(suggested: seq<Graph>, gold: seq<string>, minF1: real, b: Backend)
    ensures var r := Scan(suggested, Attempter(gold, minF1, b));
      && |r.chosen| <= MAX_CHOSEN
      && SortedByF1(r.chosen)
      && (forall x :: x in r.chosen ==> x.Scored? && F1(x) > minF1)
      && (forall x :: x in r.rejected ==> x.Unscored?)
  {
    forall k | 0 <= k < |suggested|
      ensures AttemptWithin(Attempter(gold, minF1, b), minF1, suggested[k])
    {
      AttemptFacts(suggested[k], gold, minF1, b);
    }
    RefinedWithin(suggested, Attempter(gold, minF1, b), minF1);
  }

  /** The refinement chooses nothing exactly when every suggestion is unproductive. */
  lemma RefinedNone(suggested: seq<Graph>, gold: seq<string>, minF1: real, b: Backend)
    ensures Scan(suggested, Attempter(gold, minF1, b)).chosen == []
        <==> forall k :: 0 <= k < |suggested| ==> Unproductive(suggested[k], gold, minF1, b)
  {
    ScanChosen(suggested, Attempter(gold, minF1, b));
    forall k | 0 <= k < |suggested|
      ensures Attempter(gold, minF1, b)(suggested[k]).chosen == [] <==> Unproductive(suggested[k], gold, minF1, b)
    {
      AttemptFacts(suggested[k], gold, minF1, b);
    }
  }

  /**
   * What the refinement chooses comes from the first productive suggestion: every earlier one is
   * unproductive, and the choice is the best groundings of that suggestion or of its expansions.
   * The negatives are those of every suggestion tried, in order.
   */
  lemma RefinedOrigin(suggested: seq<Graph>, gold: seq<string>, minF1: real, b: Backend)
    ensures var r := Scan(suggested, Attempter(gold, minF1, b));
      r.chosen != [] ==> (exists k ::
        && 0 <= k < |suggested|
        && (forall j :: 0 <= j < k ==> Unproductive(suggested[j], gold, minF1, b))
        && RefinementOf(r.chosen, suggested[k], gold, minF1, b))
    ensures Scan(suggested, Attempter(gold, minF1, b)).rejected
      == Flatten(MapSeq((sg: Graph) => Attempt(sg, gold, minF1, b).rejected, suggested[..Tried(suggested, Attempter(gold, minF1, b))]))
  {
    var attempt := Attempter(gold, minF1, b);
    var r := Scan(suggested, attempt);
    ScanChosen(suggested, attempt);
    if r.chosen != [] {
      var k := FirstChosen(suggested, attempt);
      forall j | 0 <= j < k
        ensures Unproductive(suggested[j], gold, minF1, b)
      {
        AttemptFacts(suggested[j], gold, minF1, b);
      }
      AttemptFacts(suggested[k], gold, minF1, b);
      assert RefinementOf(r.chosen, suggested[k], gold, minF1, b);
    }
    AttempterRejected(suggested[..Tried(suggested, attempt)], gold, minF1, b);
    ScanRejected(suggested, attempt);
  }

  /** The negatives the attempter collects for a suggestion are those of `Attempt`. */
  lemma AttempterRejected(xs: seq<Graph>, gold: seq<string>, minF1: real, b: Backend)
    ensures MapSeq(RejectedBy(Attempter(gold, minF1, b)), xs) == MapSeq((sg: Graph) => Attempt(sg, gold, minF1, b).rejected, xs)
  {
    var f := RejectedBy(Attempter(gold, minF1, b));
    var g := (sg: Graph) => Attempt(sg, gold, minF1, b).rejected;
    forall i | 0 <= i < |xs|
      ensures f(xs[i]) == g(xs[i])
    {
    }
  }

  /** The F-score of the last kept graph, 0.0 while none is kept. */
  function LastF1(positives: seq<Sample>): real {
    if |positives| > 0 then F1(positives[|positives| - 1]) else 0.0
  }

  /** The condition of the outer `while` loop. */
  predicate Continues(s: SearchState) {
    s.pool != [] && LastF1(s.positives) < GOOD_ENOUGH_F1
  }

  /** What the inner loop makes of a popped graph: the refinements of its suggestions that beat its own F-score. */
  function Refinement(g: Sample, gold: seq<string>, b: Backend): Selection {
    Scan(Suggestions(g, b), Attempter(gold, F1(g), b))
  }

  /** The inner loop of `generate_with_gold` for the given answers and backend, as a function of the popped graph. */
  function Refiner(gold: seq<string>, b: Backend): Sample -> Selection {
    g => Refinement(g, gold, b)
  }

  /**
   * One round of the outer loop: the first graph of the pool is kept, or replaced by the better
   * refinements `refine` finds for it.
   */
  function Step(s: SearchState, refine: Sample -> Selection): SearchState
    requires s.pool != []
  {
    var g := s.pool[0];
    var pool := s.pool[1..];
    if F1(g) < RESTRICT_BELOW_F1 then
      var refined := refine(g);
      if refined.chosen != [] then SearchState(pool + refined.chosen, s.positives, s.negatives + refined.rejected)
      else SearchState(pool, s.positives + [g], s.negatives + refined.rejected)
    else SearchState(pool, s.positives + [g], s.negatives)
  }

  /** At most `fuel` rounds of the outer loop, stopping early when its condition fails. */
  function Run(s: SearchState, refine: Sample -> Selection, fuel: nat): SearchState
    decreases fuel
  {
    if fuel == 0 || !Continues(s) then s else Run(Step(s, refine), refine, fuel - 1)
  }

  /** A round of the loop consumes one unit of fuel and leaves the final state unchanged. */
  lemma RunAdvances(start: SearchState, s: SearchState, next: SearchState, refine: Sample -> Selection, fuel: nat, left: nat)
    requires left > 0 && Continues(s) && next == Step(s, refine)
    requires Run(start, refine, fuel) == Run(s, refine, left)
    ensures Run(start, refine, fuel) == Run(next, refine, left - 1)
  {
  }

  /** The pool entry `generate_with_gold` starts from: the linked graph with zero scores and no answers. */
  function Start(g: Graph, b: Backend): Sample {
    Scored(Linked(g, b.linkEntity), Scores(0.0, 0.0, 0.0), [])
  }

  /** The list `generate_with_gold` returns when the search ends within `fuel` rounds: kept graphs, then negatives. */
  function GeneratedWithGold(g: Graph, gold: seq<string>, b: Backend, fuel: nat): seq<Sample> {
    var final := Run(SearchState([Start(g, b)], [], []), Refiner(gold, b), fuel);
    final.positives + final.negatives
  }

  /**
   * One round of the loop of `generate_with_gold`: pops the first graph of the pool and keeps it
   * or replaces it by what `refine` (the inner loop) makes of it.
   */
  method SearchRound(pool: seq<Sample>, positives: seq<Sample>, negatives: seq<Sample>, refine: Sample -> Selection)
    returns (pool': seq<Sample>, positives': seq<Sample>, negatives': seq<Sample>)
    requires pool != []
    ensures SearchState(pool', positives', negatives') == Step(SearchState(pool, positives, negatives), refine)
  {
    var g := pool[0];
    pool', positives', negatives' := pool[1..], positives, negatives;
    if F1(g) < RESTRICT_BELOW_F1 {
      var refined := refine(g);
      negatives' := negatives' + refined.rejected;
      if refined.chosen != [] {
        pool' := pool' + refined.chosen;
      } else {
        positives' := positives' + [g];
      }
    } else {
      positives' := positives' + [g];
    }
  }
  /** The `while pool and ...` loop of `generate_with_gold`, for at most `fuel` rounds. */
  method Search(pool: seq<Sample>, refine: Sample -> Selection, fuel: nat)
    returns (positives: seq<Sample>, negatives: seq<Sample>)
    ensures var final := Run(SearchState(pool, [], []), refine, fuel);
      positives == final.positives && negatives == final.negatives
  {
    var rest := pool;
    positives, negatives := [], [];
    ghost var left: nat := fuel;
    var iterations: nat := 0;
    while rest != [] && LastF1(positives) < GOOD_ENOUGH_F1 && iterations < fuel
      invariant iterations <= fuel && left == fuel - iterations
      invariant Run(SearchState(pool, [], []), refine, fuel) == Run(SearchState(rest, positives, negatives), refine, left)
      decreases fuel - iterations
    {
      ghost var before := SearchState(rest, positives, negatives);
      rest, positives, negatives := SearchRound(rest, positives, negatives, refine);
      RunAdvances(SearchState(pool, [], []), before, SearchState(rest, positives, negatives), refine, fuel, left);
      iterations := iterations + 1;
      left := left - 1;
    }
  }

  /** `generate_with_gold`: links the entities, then runs the search loop for at most `fuel` rounds. */
  method GenerateWithGold(ungrounded: Graph, gold: seq<string>, b: Backend, fuel: nat) returns (generated: seq<Sample>)
    ensures generated == GeneratedWithGold(ungrounded, gold, b, fuel)
  {
    var linked := LinkEntities(ungrounded, b.linkEntity);
    var positives, negatives := Search([Scored(linked, Scores(0.0, 0.0, 0.0), [])], Refiner(gold, b), fuel);
    generated := positives + negatives;
  }

  /** What every round keeps true: kept and pooled graphs are scored, and apart from the start they score above zero; negatives are unscored. */
  predicate WellFormed(s: SearchState, start: Sample) {
    && (forall x :: x in s.pool ==> x.Scored? && (x == start || F1(x) > 0.0))
    && (forall x :: x in s.positives ==> x.Scored? && (x == start || F1(x) > 0.0))
    && (forall x :: x in s.negatives ==> x.Unscored?)
  }

  /** What `refine` makes of `g` only pools graphs that score above `g`, and only collects unscored negatives. */
  predicate ImprovesOn(refine: Sample -> Selection, g: Sample) {
    && (forall x :: x in refine(g).chosen ==> x.Scored? && F1(x) > F1(g))
    && (forall x :: x in refine(g).rejected ==> x.Unscored?)
  }

  ghost predicate Improves(refine: Sample -> Selection) {
    forall g :: ImprovesOn(refine, g)
  }

  /** The inner loop of `generate_with_gold` only pools refinements that beat their parent, and its negatives are unscored. */
  lemma RefinerImproves(gold: seq<string>, b: Backend)
    ensures Improves(Refiner(gold, b))
  {
    forall g
      ensures ImprovesOn(Refiner(gold, b), g)
    {
      RefinedBounds(Suggestions(g, b), gold, F1(g), b);
    }
  }

  /** A round keeps the state well formed: a refinement only enters the pool when it beats its parent. */
  lemma StepPreserves(s: SearchState, start: Sample, refine: Sample -> Selection)
    requires s.pool != [] && F1(start) == 0.0
    requires Improves(refine) && WellFormed(s, start)
    ensures WellFormed(Step(s, refine), start)
  {
    var g := s.pool[0];
    assert g in s.pool;
    assert ImprovesOn(refine, g);
    forall x | x in s.pool[1..]
      ensures x in s.pool
    {
    }
  }

  /** The whole run keeps the state well formed. */
  lemma {:induction false} RunPreserves(s: SearchState, start: Sample, refine: Sample -> Selection, fuel: nat)
    requires F1(start) == 0.0
    requires Improves(refine) && WellFormed(s, start)
    ensures WellFormed(Run(s, refine, fuel), start)
    decreases fuel
  {
    if fuel > 0 && Continues(s) {
      StepPreserves(s, start, refine);
      RunPreserves(Step(s, refine), start, refine, fuel - 1);
    }
  }

  /** A round only appends to the kept graphs and to the negatives. */
  lemma StepExtends(s: SearchState, refine: Sample -> Selection)
    requires s.pool != []
    ensures s.positives <= Step(s, refine).positives
    ensures s.negatives <= Step(s, refine).negatives
  {
  }

  /** The whole run only appends to the kept graphs and to the negatives. */
  lemma {:induction false} RunExtends(s: SearchState, refine: Sample -> Selection, fuel: nat)
    ensures s.positives <= Run(s, refine, fuel).positives
    ensures s.negatives <= Run(s, refine, fuel).negatives
    decreases fuel
  {
    if fuel > 0 && Continues(s) {
      var next := Step(s, refine);
      StepExtends(s, refine);
      RunExtends(next, refine, fuel - 1);
    }
  }

  /**
   * Once the search has stopped within `fuel` rounds, more rounds change nothing: the result is
   * the one the unbounded loop returns.
   */
  lemma {:induction false} RunSettles(s: SearchState, refine: Sample -> Selection, fuel: nat, more: nat)
    requires !Continues(Run(s, refine, fuel))
    requires fuel <= more
    ensures Run(s, refine, more) == Run(s, refine, fuel)
    decreases fuel
  {
    if fuel > 0 && Continues(s) {
      RunSettles(Step(s, refine), refine, fuel - 1, more - 1);
    }
  }

  /** The kept graphs of a well-formed state, followed by its negatives: scored before unscored, and above zero apart from the start. */
  lemma ResultShape(s: SearchState, start: Sample)
    requires WellFormed(s, start)
    ensures var r := s.positives + s.negatives;
      && (forall i, j :: 0 <= i < j < |r| && r[i].Unscored? ==> r[j].Unscored?)
      && (forall x :: x in r ==> x.Unscored? || x == start || F1(x) > 0.0)
  {
    var r := s.positives + s.negatives;
    assert forall k :: 0 <= k < |s.positives| ==> r[k] == s.positives[k] && r[k] in s.positives;
    assert forall k :: 0 <= k < |s.positives| ==> r[k].Scored?;
    assert forall k :: |s.positives| <= k < |r| ==> r[k] == s.negatives[k - |s.positives|];
    forall i, j | 0 <= i < j < |r| && r[i].Unscored?
      ensures r[j].Unscored?
    {
      assert r[j] in s.negatives;
    }
  }

  /**
   * What `generate_with_gold` returns: the kept graphs, all scored, come before the negatives,
   * all unscored; every kept graph except the linked start retrieved some gold answer (F-score
   * above zero).
   */
  lemma GeneratedWithGoldShape(g: Graph, gold: seq<string>, b: Backend, fuel: nat)
    ensures var r := GeneratedWithGold(g, gold, b, fuel);
      && (forall i, j :: 0 <= i < j < |r| && r[i].Unscored? ==> r[j].Unscored?)
      && (forall x :: x in r ==> x.Unscored? || x == Start(g, b) || F1(x) > 0.0)
  {
    var start := SearchState([Start(g, b)], [], []);
    RefinerImproves(gold, b);
    RunPreserves(start, Start(g, b), Refiner(gold, b), fuel);
    ResultShape(Run(start, Refiner(gold, b), fuel), Start(g, b));
  }
}

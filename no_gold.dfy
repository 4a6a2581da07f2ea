/**
 * `generate_without_gold`: explores every restriction and expansion of the question graph without
 * scoring, keeps the explored graphs the knowledge base confirms, and grounds them subject to the
 * relation whitelist (`ground_without_gold`).
 */
module NoGold {
  import opened Wrappers
  import opened Sequences
  import opened Graphs
  import opened Oracles
  import opened Enrichment
  import opened Resolver

  /**
   * The three action lists: the knowledge-base restrict and expand actions (the intersections of
   * `wikidata_actions` with the restrict and expand action sets) and the non-linking actions.
   * The intersections are sets in the source, so any order may be passed.
   */
  datatype Actions = Actions(
    restrict: seq<Graph -> seq<Graph>>,
    expand: seq<Graph -> seq<Graph>>,
    nonLinking: seq<Graph -> seq<Graph>>)

  /** `[el for f in actions for el in f(x)]` */
  function Outputs(x: Graph, actions: seq<Graph -> seq<Graph>>): seq<Graph> {
    Flatten(MapSeq((f: Graph -> seq<Graph>) => f(x), actions))
  }

  /** `[el for x in xs for f in actions for el in f(x)]` */
  function AllOutputs(xs: seq<Graph>, actions: seq<Graph -> seq<Graph>>): seq<Graph> {
    Flatten(MapSeq((x: Graph) => Outputs(x, actions), xs))
  }

  /** `[add_canonical_labels_to_entities(x) for x in xs]` */
  function LabelAll(xs: seq<Graph>, labelEntity: string -> Option<string>): seq<Graph> {
    MapSeq((x: Graph) => Labelled(x, labelEntity), xs)
  }

  /** The restrictions of `g`, followed by every expansion of each of them. */
  function Suggested(g: Graph, acts: Actions): seq<Graph> {
    var restricted := Outputs(g, acts.restrict);
    restricted + AllOutputs(restricted, acts.expand)
  }

  /** The `pool` and `generated_graphs` lists of the exploration. */
  datatype Exploration = Exploration(pool: seq<Graph>, generated: seq<Graph>)

  /**
   * One round of the `while pool` loop. The suggestions are labelled in place after they were
   * put on the pool, so the pool receives the labelled graphs; the generated list receives them
   * together with their non-linking variants.
   */
  function ExploreStep(s: Exploration, acts: Actions, labelEntity: string -> Option<string>): Exploration
    requires s.pool != []
  {
    var labelled := LabelAll(Suggested(s.pool[0], acts), labelEntity);
    Exploration(s.pool[1..] + labelled, s.generated + labelled + AllOutputs(labelled, acts.nonLinking))
  }

  /** At most `fuel` rounds, stopping early when the pool is empty. */
  function Explore(s: Exploration, acts: Actions, labelEntity: string -> Option<string>, fuel: nat): Exploration
    decreases fuel
  {
    if fuel == 0 || s.pool == [] then s else Explore(ExploreStep(s, acts, labelEntity), acts, labelEntity, fuel - 1)
  }

  /** A round of the loop consumes one unit of fuel and leaves the final exploration unchanged. */
  lemma ExploreAdvances(start: Exploration, s: Exploration, acts: Actions, labelEntity: string -> Option<string>, fuel: nat, left: nat)
    requires left > 0 && s.pool != []
    requires Explore(start, acts, labelEntity, fuel) == Explore(s, acts, labelEntity, left)
    ensures Explore(start, acts, labelEntity, fuel) == Explore(ExploreStep(s, acts, labelEntity), acts, labelEntity, left - 1)
  {
  }

  /** Every pooled graph except the start is already labelled and is among the generated graphs. */
  predicate ExploreInvariant(s: Exploration, start: Graph, labelEntity: string -> Option<string>) {
    forall x :: x in s.pool ==> x == start || (x in s.generated && Labelled(x, labelEntity) == x)
  }

  /** Labelled graphs are left as they are by labelling again. */
  lemma LabelAllLabelled(xs: seq<Graph>, labelEntity: string -> Option<string>)
    ensures forall x :: x in LabelAll(xs, labelEntity) ==> Labelled(x, labelEntity) == x
  {
    forall x | x in LabelAll(xs, labelEntity)
      ensures Labelled(x, labelEntity) == x
    {
      var k :| 0 <= k < |xs| && LabelAll(xs, labelEntity)[k] == x;
      LabellingIdempotent(xs[k], labelEntity);
    }
  }

  /** A round keeps the invariant and only appends to the generated graphs. */
  lemma ExploreStepPreserves(s: Exploration, start: Graph, acts: Actions, labelEntity: string -> Option<string>)
    requires s.pool != [] && ExploreInvariant(s, start, labelEntity)
    ensures ExploreInvariant(ExploreStep(s, acts, labelEntity), start, labelEntity)
    ensures s.generated <= ExploreStep(s, acts, labelEntity).generated
  {
    var labelled := LabelAll(Suggested(s.pool[0], acts), labelEntity);
    var grown := s.generated + labelled;
    var t := ExploreStep(s, acts, labelEntity);
    assert t.generated == grown + AllOutputs(labelled, acts.nonLinking);
    LabelAllLabelled(Suggested(s.pool[0], acts), labelEntity);
    forall x | x in t.pool
      ensures x == start || (x in t.generated && Labelled(x, labelEntity) == x)
    {
      if x in s.pool[1..] {
        assert x in s.pool;
      } else {
        assert x in labelled && x in grown;
      }
    }
  }

  /** The exploration keeps its invariant and only appends to the generated graphs. */
  lemma {:induction false} ExplorePreserves(s: Exploration, start: Graph, acts: Actions, labelEntity: string -> Option<string>, fuel: nat)
    requires ExploreInvariant(s, start, labelEntity)
    ensures ExploreInvariant(Explore(s, acts, labelEntity, fuel), start, labelEntity)
    ensures s.generated <= Explore(s, acts, labelEntity, fuel).generated
    decreases fuel
  {
    if fuel > 0 && s.pool != [] {
      ExploreStepPreserves(s, start, acts, labelEntity);
      ExplorePreserves(ExploreStep(s, acts, labelEntity), start, acts, labelEntity, fuel - 1);
    }
  }

  /** The exploration only appends to the generated graphs: it ends with them followed by `added`. */
  lemma {:induction false} ExploreGrows(s: Exploration, acts: Actions, labelEntity: string -> Option<string>, fuel: nat)
    returns (added: seq<Graph>)
    ensures Explore(s, acts, labelEntity, fuel).generated == s.generated + added
    decreases fuel
  {
    if fuel > 0 && s.pool != [] {
      var labelled := LabelAll(Suggested(s.pool[0], acts), labelEntity);
      var here := labelled + AllOutputs(labelled, acts.nonLinking);
      var t := ExploreStep(s, acts, labelEntity);
      assert t.generated == s.generated + here;
      var more := ExploreGrows(t, acts, labelEntity, fuel - 1);
      added := here + more;
      AppendAssociative(s.generated, here, more);
    } else {
      added := [];
      assert s.generated + [] == s.generated;
    }
  }

  /** Once the pool is empty within `fuel` rounds, more rounds change nothing: the result is the unbounded loop's. */
  lemma {:induction false} ExploreSettles(s: Exploration, acts: Actions, labelEntity: string -> Option<string>, fuel: nat, more: nat)
    requires Explore(s, acts, labelEntity, fuel).pool == []
    requires fuel <= more
    ensures Explore(s, acts, labelEntity, more) == Explore(s, acts, labelEntity, fuel)
    decreases fuel
  {
    if fuel > 0 && s.pool != [] {
      ExploreSettles(ExploreStep(s, acts, labelEntity), acts, labelEntity, fuel - 1, more - 1);
    }
  }

  /** Every edge of the graph has a `kbID`, which `ground_without_gold` reads unconditionally. */
  predicate RelationIdsPresent(g: Graph) {
    forall e :: e in g.edgeSet ==> e.kbID.Some?
  }

  /** Every edge's relation, without its last character, is in the whitelist. */
  predicate WhitelistedGraph(g: Graph, whitelist: set<string>) {
    forall e :: e in g.edgeSet ==> WhitelistedEdge(e, whitelist)
  }

  /** `[g for g in graphs if all(e.get("kbID")[:-1] in whitelist for e in g.get('edgeSet', []))]` */
  function KeepWhitelisted(graphs: seq<Graph>, whitelist: set<string>): (r: seq<Graph>)
    requires forall g :: g in graphs ==> RelationIdsPresent(g)
    ensures forall g :: g in r <==> g in graphs && WhitelistedGraph(g, whitelist)
    ensures |r| <= |graphs|
    decreases |graphs|
  {
    if |graphs| == 0 then []
    else
      var last := graphs[|graphs| - 1];
      assert graphs == graphs[..|graphs| - 1] + [last];
      KeepWhitelisted(graphs[..|graphs| - 1], whitelist) + (if WhitelistedGraph(last, whitelist) then [last] else [])
  }

  /** The filter keeps the order of the graphs: it distributes over concatenation. */
  lemma {:induction false} KeepWhitelistedAppend(a: seq<Graph>, c: seq<Graph>, whitelist: set<string>)
    requires forall g :: g in a + c ==> RelationIdsPresent(g)
    ensures KeepWhitelisted(a + c, whitelist) == KeepWhitelisted(a, whitelist) + KeepWhitelisted(c, whitelist)
    decreases |c|
  {
    assert forall g :: g in a ==> g in a + c;
    assert forall g :: g in c ==> g in a + c;
    if |c| == 0 {
      assert a + c == a;
    } else {
      var c' := c[..|c| - 1];
      assert (a + c)[..|a + c| - 1] == a + c';
      assert forall g :: g in a + c' ==> g in a + c;
      KeepWhitelistedAppend(a, c', whitelist);
    }
  }

  /** `[p for s_g in inputs for p in find_groundings_with_gold(s_g)]` */
  function AllGoldGroundings(inputs: seq<Graph>, b: Backend): seq<Graph> {
    Flatten(MapSeq((x: Graph) => GoldGroundings(x, b), inputs))
  }

  /** What `ground_without_gold(inputs)` returns: the groundings of the inputs whose relations are all whitelisted. */
  function GroundedWithoutGold(inputs: seq<Graph>, b: Backend): (r: seq<Graph>)
    requires forall h :: h in AllGoldGroundings(inputs, b) ==> RelationIdsPresent(h)
    ensures forall h :: h in r <==> h in AllGoldGroundings(inputs, b) && WhitelistedGraph(h, b.whitelist)
    ensures |r| <= |AllGoldGroundings(inputs, b)|
  {
    KeepWhitelisted(AllGoldGroundings(inputs, b), b.whitelist)
  }

  /**
   * `ground_without_gold` returns exactly the whitelisted groundings of its inputs: a graph is in
   * the result when and only when it is among `find_groundings_with_gold` of some input and every
   * edge's relation passes the whitelist.
   */
  lemma GroundedWithoutGoldMember(inputs: seq<Graph>, b: Backend, h: Graph)
    requires forall h :: h in AllGoldGroundings(inputs, b) ==> RelationIdsPresent(h)
    ensures h in GroundedWithoutGold(inputs, b) <==>
      WhitelistedGraph(h, b.whitelist) && exists k :: 0 <= k < |inputs| && h in GoldGroundings(inputs[k], b)
  {
    var blocks := MapSeq((x: Graph) => GoldGroundings(x, b), inputs);
    FlattenMember(blocks, h);
    assert forall k :: 0 <= k < |inputs| ==> blocks[k] == GoldGroundings(inputs[k], b);
  }

  /** `del g['entities']` on every graph. */
  function WithoutEntities(graphs: seq<Graph>): (r: seq<Graph>)
    ensures |r| == |graphs|
  {
    seq(|graphs|, i requires 0 <= i < |graphs| => graphs[i].(entities := None))
  }

  /** The graphs handed to `ground_without_gold`: explored, confirmed by the knowledge base, without entities. */
  function VerifiedCandidates(ungrounded: Graph, acts: Actions, b: Backend, fuel: nat): seq<Graph> {
    var explored := Explore(Exploration([ungrounded], []), acts, b.labelEntity, fuel);
    WithoutEntities(KeepVerified(explored.generated, b.ask))
  }

  /** Whether every grounding of every candidate has all its relation ids. */
  predicate CandidateGroundingsHaveIds(ungrounded: Graph, acts: Actions, b: Backend, fuel: nat) {
    forall h :: h in AllGoldGroundings(VerifiedCandidates(ungrounded, acts, b, fuel), b) ==> RelationIdsPresent(h)
  }

  /** What `generate_without_gold` returns when the exploration ends within `fuel` rounds. */
  function GeneratedWithoutGold(ungrounded: Graph, acts: Actions, b: Backend, fuel: nat): seq<Graph>
    requires CandidateGroundingsHaveIds(ungrounded, acts, b, fuel)
  {
    GroundedWithoutGold(VerifiedCandidates(ungrounded, acts, b, fuel), b)
  }

  /** One round of the `while pool` loop of `generate_without_gold`. */
  method ExploreRound(pool: seq<Graph>, generated: seq<Graph>, acts: Actions, labelEntity: string -> Option<string>)
    returns (pool': seq<Graph>, generated': seq<Graph>)
    requires pool != []
    ensures Exploration(pool', generated') == ExploreStep(Exploration(pool, generated), acts, labelEntity)
  {
    var g := pool[0];
    pool' := pool[1..];
    var suggested := Outputs(g, acts.restrict);
    suggested := suggested + AllOutputs(suggested, acts.expand);
    var chosen := suggested;
    pool' := pool' + LabelAll(chosen, labelEntity);
    chosen := LabelAll(chosen, labelEntity);
    var extended := AllOutputs(chosen, acts.nonLinking);
    chosen := chosen + extended;
    generated' := generated + chosen;
  }

  /** The `while pool` loop of `generate_without_gold`, for at most `fuel` rounds; returns `generated_graphs`. */
  method Exploring(ungrounded: Graph, acts: Actions, labelEntity: string -> Option<string>, fuel: nat) returns (generated: seq<Graph>)
    ensures generated == Explore(Exploration([ungrounded], []), acts, labelEntity, fuel).generated
  {
    var pool := [ungrounded];
    generated := [];
    ghost var start := Exploration(pool, generated);
    ghost var left: nat := fuel;
    var iterations: nat := 0;
    while pool != [] && iterations < fuel
      invariant iterations <= fuel && left == fuel - iterations
      invariant Explore(start, acts, labelEntity, fuel) == Explore(Exploration(pool, generated), acts, labelEntity, left)
      decreases fuel - iterations
    {
      ExploreAdvances(start, Exploration(pool, generated), acts, labelEntity, fuel, left);
      pool, generated := ExploreRound(pool, generated, acts, labelEntity);
      iterations := iterations + 1;
      left := left - 1;
    }
  }

  /** `for g in generated_graphs: del g['entities']`, in place on the list. */
  method DropEntities(graphs: seq<Graph>) returns (r: seq<Graph>)
    ensures r == WithoutEntities(graphs)
  {
    r := graphs;
    for i := 0 to |r|
      invariant |r| == |graphs|
      invariant forall k :: 0 <= k < i ==> r[k] == graphs[k].(entities := None)
      invariant forall k :: i <= k < |r| ==> r[k] == graphs[k]
    {
      r := r[i := r[i].(entities := None)];
    }
  }

  /** `generate_without_gold`, with the exploration loop bounded by `fuel` rounds. */
  method GenerateWithoutGold(ungrounded: Graph, acts: Actions, b: Backend, fuel: nat) returns (result: seq<Graph>)
    requires CandidateGroundingsHaveIds(ungrounded, acts, b, fuel)
    ensures result == GeneratedWithoutGold(ungrounded, acts, b, fuel)
  {
    var generated := Exploring(ungrounded, acts, b.labelEntity, fuel);
    generated := KeepVerified(generated, b.ask);
    generated := DropEntities(generated);
    result := GroundedWithoutGold(generated, b);
  }

  /**
   * What `generate_without_gold` returns: every graph is whitelisted, and is a grounding of a
   * candidate without entities that the knowledge base confirmed among the explored graphs.
   */
  lemma GeneratedWithoutGoldMember(ungrounded: Graph, acts: Actions, b: Backend, fuel: nat, h: Graph)
    requires CandidateGroundingsHaveIds(ungrounded, acts, b, fuel)
    requires h in GeneratedWithoutGold(ungrounded, acts, b, fuel)
    ensures WhitelistedGraph(h, b.whitelist)
    ensures exists x ::
      (x in Explore(Exploration([ungrounded], []), acts, b.labelEntity, fuel).generated
       && b.ask(x) && h in GoldGroundings(x.(entities := None), b))
  {
    var explored := Explore(Exploration([ungrounded], []), acts, b.labelEntity, fuel);
    var verified := KeepVerified(explored.generated, b.ask);
    var candidates := VerifiedCandidates(ungrounded, acts, b, fuel);
    GroundedWithoutGoldMember(candidates, b, h);
    var k :| 0 <= k < |candidates| && h in GoldGroundings(candidates[k], b);
    assert candidates[k] == verified[k].(entities := None);
    assert verified[k] in verified;
  }

  /**
   * Every graph the exploration puts in the pool after the start is labelled and appears among
   * the generated graphs, and the generated graphs only grow.
   */
  lemma ExplorationFacts(ungrounded: Graph, acts: Actions, b: Backend, fuel: nat)
    ensures var e := Explore(Exploration([ungrounded], []), acts, b.labelEntity, fuel);
      forall x :: x in e.pool ==> x == ungrounded || (x in e.generated && Labelled(x, b.labelEntity) == x)
  {
    ExplorePreserves(Exploration([ungrounded], []), ungrounded, acts, b.labelEntity, fuel);
  }
}

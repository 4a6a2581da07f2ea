/**
 * The edge-grounding resolver: `find_groundings`, `find_groundings_with_gold` and
 * `approximate_groundings`. The knowledge-base queries are the backend's functions.
 */
module Resolver {
  import opened Wrappers
  import opened Graphs
  import opened GroundingKeys
  import opened Sequences
  import opened Oracles
  import opened Apply

  /** The two types tried for every ungrounded edge, in the order `itertools.product` tries them. */
  const DIRECTIONS: seq<EdgeType> := [Direct, Reverse]

  // ---------------------------------------------------------------------------------------------
  // Typing the ungrounded edges

  lemma {:induction false} UngroundedCountPrefix(edges: seq<Edge>, i: nat)
    requires i <= |edges|
    ensures UngroundedCount(edges[..i]) <= UngroundedCount(edges)
    decreases |edges|
  {
    if i < |edges| {
      var init := edges[..|edges| - 1];
      UngroundedCountPrefix(init, i);
      assert init[..i] == edges[..i];
    } else {
      assert edges[..i] == edges;
    }
  }

  /** One more edge of the prefix adds one to the count when it is ungrounded. */
  lemma UngroundedCountStep(edges: seq<Edge>, i: nat)
    requires i < |edges|
    ensures UngroundedCount(edges[..i + 1]) == UngroundedCount(edges[..i]) + if IsGrounded(edges[i]) then 0 else 1
  {
    assert edges[..i + 1][..i] == edges[..i];
  }

  /** The edges with `combo[j]` written into the `type` of the `j`-th ungrounded edge. */
  function Typed(edges: seq<Edge>, combo: seq<EdgeType>): seq<Edge>
    requires |combo| == UngroundedCount(edges)
    decreases |edges|
  {
    if |edges| == 0 then []
    else
      var last := edges[|edges| - 1];
      if IsGrounded(last) then Typed(edges[..|edges| - 1], combo) + [last]
      else Typed(edges[..|edges| - 1], combo[..|combo| - 1]) + [last.(edgeType := Some(combo[|combo| - 1]))]
  }

  /**
   * Types are assigned in edge order: the edge at index `i`, if ungrounded, receives the entry of
   * `combo` numbered by how many ungrounded edges precede it; grounded edges are untouched.
   */
  lemma {:induction false} TypedAt(edges: seq<Edge>, combo: seq<EdgeType>, i: nat)
    requires |combo| == UngroundedCount(edges)
    requires i < |edges|
    ensures |Typed(edges, combo)| == |edges|
    ensures !IsGrounded(edges[i]) ==> UngroundedCount(edges[..i]) < |combo|
    ensures Typed(edges, combo)[i]
         == if IsGrounded(edges[i]) then edges[i] else edges[i].(edgeType := Some(combo[UngroundedCount(edges[..i])]))
    decreases |edges|
  {
    var n := |edges|;
    var init := edges[..n - 1];
    var rest := if IsGrounded(edges[n - 1]) then combo else combo[..|combo| - 1];
    TypedLength(init, rest);
    if i == n - 1 {
      assert edges[..i] == init;
    } else {
      TypedAt(init, rest, i);
      assert init[..i] == edges[..i];
      UngroundedCountPrefix(init, i + 1);
      assert init[..i + 1][..i] == edges[..i];
    }
  }

  lemma {:induction false} TypedLength(edges: seq<Edge>, combo: seq<EdgeType>)
    requires |combo| == UngroundedCount(edges)
    ensures |Typed(edges, combo)| == |edges|
    decreases |edges|
  {
    if |edges| > 0 {
      var init := edges[..|edges| - 1];
      TypedLength(init, if IsGrounded(edges[|edges| - 1]) then combo else combo[..|combo| - 1]);
    }
  }

  /** `t = graph.copy_graph(g)` followed by typing its ungrounded edges with `combo`. */
  function WithTypes(g: Graph, combo: seq<EdgeType>): Graph
    requires |combo| == UngroundedCount(g.edgeSet)
  {
    CopyGraph(g).(edgeSet := Typed(g.edgeSet, combo))
  }

  /** Copies the graph and writes `combo` into the types of its ungrounded edges, in edge order. */
  method TypeUngroundedEdges(g: Graph, combo: seq<EdgeType>) returns (t: Graph)
    requires |combo| == UngroundedCount(g.edgeSet)
    ensures t == WithTypes(g, combo)
  {
    ghost var typed := Typed(g.edgeSet, combo);
    TypedLength(g.edgeSet, combo);
    t := CopyGraph(g);
    var edges := t.edgeSet;
    var j := 0;
    for i := 0 to |edges|
      invariant |edges| == |g.edgeSet|
      invariant j == UngroundedCount(g.edgeSet[..i])
      invariant forall k :: 0 <= k < i ==> edges[k] == typed[k]
      invariant forall k :: i <= k < |edges| ==> edges[k] == g.edgeSet[k]
    {
      TypedAt(g.edgeSet, combo, i);
      UngroundedCountStep(g.edgeSet, i);
      ghost var before := edges;
      if !IsGrounded(edges[i]) {
        edges := edges[i := edges[i].(edgeType := Some(combo[j]))];
        j := j + 1;
      }
      assert edges[i] == typed[i];
      assert forall k :: 0 <= k < |edges| && k != i ==> edges[k] == before[k];
    }
    t := t.(edgeSet := edges);
  }

  /** `list(itertools.product(*[['direct', 'reverse']] * n))` */
  function TypeCombinations(n: nat): (combos: seq<seq<EdgeType>>)
    ensures |combos| == Power(2, n)
    ensures forall k :: 0 <= k < |combos| ==> |combos[k]| == n
    ensures forall c :: c in combos <==> |c| == n && forall k :: 0 <= k < |c| ==> c[k] == Direct || c[k] == Reverse
  {
    ProductLength(Repeat(DIRECTIONS, n));
    ProductSizeRepeat(DIRECTIONS, n);
    TypeCombinationsCover(n);
    Product(Repeat(DIRECTIONS, n))
  }

  lemma TypeCombinationsCover(n: nat)
    ensures forall c :: c in Product(Repeat(DIRECTIONS, n)) <==> |c| == n && forall k :: 0 <= k < |c| ==> c[k] == Direct || c[k] == Reverse
  {
    forall c
      ensures c in Product(Repeat(DIRECTIONS, n)) <==> |c| == n && forall k :: 0 <= k < |c| ==> c[k] == Direct || c[k] == Reverse
    {
      ProductMember(Repeat(DIRECTIONS, n), c);
    }
  }

  // ---------------------------------------------------------------------------------------------
  // find_groundings

  /** Some ungrounded edge carries a `hopUp` or `hopDown`. */
  predicate HopInUngrounded(edges: seq<Edge>) {
    exists k :: 0 <= k < |edges| && !IsGrounded(edges[k]) && (edges[k].hopUp.Some? || edges[k].hopDown.Some?)
  }

  /** The tokens contain one of the trigger words `play`, `played`, `plays`. */
  predicate HasPlayTrigger(g: Graph) {
    "play" in TokensOf(g) || "played" in TokensOf(g) || "plays" in TokensOf(g)
  }

  /** One copy of `g` per direct/reverse tuple, in product order. */
  function TypedQueries(g: Graph): (queries: seq<Graph>)
    ensures |queries| == Power(2, UngroundedCount(g.edgeSet))
  {
    var combos := TypeCombinations(UngroundedCount(g.edgeSet));
    seq(|combos|, k requires 0 <= k < |combos| => WithTypes(g, combos[k]))
  }

  /** The graphs `find_groundings` sends to the grounding query, in the order it sends them. */
  function GroundingQueries(g: Graph): seq<Graph> {
    var n := UngroundedCount(g.edgeSet);
    (if !HopInUngrounded(g.edgeSet) then [g] else TypedQueries(g))
      + (if HasPlayTrigger(g) && n == 1 then [WithTypes(g, [VStructure])] else [])
  }

  /** What `find_groundings(g)` returns: the answers to its queries, concatenated. */
  function Groundings(g: Graph, query: Graph -> seq<Grounding>): seq<Grounding> {
    Flatten(MapSeq(query, GroundingQueries(g)))
  }

  lemma MapSeqAppend<A, B>(f: A -> B, xs: seq<A>, ys: seq<A>)
    ensures MapSeq(f, xs + ys) == MapSeq(f, xs) + MapSeq(f, ys)
  {
  }

  /** The queries of the hop branch, one per direct/reverse tuple. */
  method QueryTypedCopies(g: Graph, query: Graph -> seq<Grounding>) returns (results: seq<Grounding>)
    ensures results == Flatten(MapSeq(query, TypedQueries(g)))
  {
    results := [];
    var combos := TypeCombinations(UngroundedCount(g.edgeSet));
    ghost var blocks := MapSeq(query, TypedQueries(g));
    for j := 0 to |combos|
      invariant results == Flatten(blocks[..j])
    {
      var t := TypeUngroundedEdges(g, combos[j]);
      results := results + query(t);
      FlattenSnoc(blocks, j);
    }
    assert blocks[..|combos|] == blocks;
  }

  /** `find_groundings`: one query, or one per direct/reverse tuple, plus the v-structure query. */
  method FindGroundings(g: Graph, query: Graph -> seq<Grounding>) returns (results: seq<Grounding>)
    ensures results == Groundings(g, query)
  {
    var n := UngroundedCount(g.edgeSet);
    ghost var main: seq<Graph>;
    if !HopInUngrounded(g.edgeSet) {
      results := query(g);
      main := [g];
      assert Flatten(MapSeq(query, main)) == Flatten([]) + query(g);
    } else {
      results := QueryTypedCopies(g, query);
      main := TypedQueries(g);
    }
    ghost var extra: seq<Graph> := [];
    if HasPlayTrigger(g) && n == 1 {
      var t := TypeUngroundedEdges(g, [VStructure]);
      extra := [t];
      assert Flatten(MapSeq(query, extra)) == Flatten([]) + query(t);
      results := results + query(t);
    }
    assert GroundingQueries(g) == main + extra;
    MapSeqAppend(query, main, extra);
    FlattenAppend(MapSeq(query, main), MapSeq(query, extra));
  }

  /**
   * Exactly one query when no ungrounded edge has a hop, otherwise one per direct/reverse tuple
   * (2^n of them); plus one v-structure query exactly when a trigger word is present and one edge
   * is ungrounded.
   */
  lemma GroundingQueryCount(g: Graph)
    ensures var n := UngroundedCount(g.edgeSet);
      |GroundingQueries(g)| == (if HopInUngrounded(g.edgeSet) then Power(2, n) else 1)
                               + (if HasPlayTrigger(g) && n == 1 then 1 else 0)
  {
  }

  /**
   * With a hop present, query `k` is the copy typed by the `k`-th tuple of the product, and the
   * tuples enumerated are exactly the direct/reverse tuples of length n.
   */
  lemma HopQueriesEnumerateTypings(g: Graph, k: nat)
    requires HopInUngrounded(g.edgeSet)
    requires k < Power(2, UngroundedCount(g.edgeSet))
    ensures var combos := TypeCombinations(UngroundedCount(g.edgeSet));
      && GroundingQueries(g)[k] == WithTypes(g, combos[k])
      && forall c :: c in combos <==> |c| == |combos[k]| && forall m :: 0 <= m < |c| ==> c[m] in DIRECTIONS
  {
  }

  /**
   * The extra query for a trigger word types the single ungrounded edge as a v-structure and
   * leaves every other edge as it was.
   */
  lemma VStructureQuery(g: Graph, i: nat)
    requires HasPlayTrigger(g) && UngroundedCount(g.edgeSet) == 1
    requires i < |g.edgeSet|
    ensures var q := GroundingQueries(g)[|GroundingQueries(g)| - 1];
      && |q.edgeSet| == |g.edgeSet|
      && q.edgeSet[i] == if IsGrounded(g.edgeSet[i]) then g.edgeSet[i] else g.edgeSet[i].(edgeType := Some(VStructure))
  {
    TypedAt(g.edgeSet, [VStructure], i);
  }

  // ---------------------------------------------------------------------------------------------
  // approximate_groundings

  /** Whether `kbID` is present and, without its last character, in the whitelist. */
  predicate WhitelistedEdge(e: Edge, whitelist: set<string>) {
    e.kbID.Some? && StripMarker(e.kbID.value) in whitelist
  }

  /** `[e for e in edges if "kbID" in e and e["kbID"][:-1] in whitelist]` */
  function WhitelistedEdges(edges: seq<Edge>, whitelist: set<string>): (r: seq<Edge>)
    ensures forall e :: e in r <==> e in edges && WhitelistedEdge(e, whitelist)
    ensures |r| <= |edges|
    decreases |edges|
  {
    if |edges| == 0 then []
    else
      var init := WhitelistedEdges(edges[..|edges| - 1], whitelist);
      var last := edges[|edges| - 1];
      assert edges == edges[..|edges| - 1] + [last];
      if WhitelistedEdge(last, whitelist) then init + [last] else init
  }

  /** The filter keeps the order of the edges: it distributes over concatenation. */
  lemma {:induction false} WhitelistedEdgesAppend(a: seq<Edge>, c: seq<Edge>, whitelist: set<string>)
    ensures WhitelistedEdges(a + c, whitelist) == WhitelistedEdges(a, whitelist) + WhitelistedEdges(c, whitelist)
    decreases |c|
  {
    if |c| == 0 {
      assert a + c == a;
    } else {
      var c' := c[..|c| - 1];
      assert (a + c)[..|a + c| - 1] == a + c';
      WhitelistedEdgesAppend(a, c', whitelist);
    }
  }

  /** The candidates for one edge: itself if grounded, else its whitelisted single-edge groundings. */
  function EdgeOptions(e: Edge, b: Backend): seq<Edge> {
    if IsGrounded(e) then [e]
    else
      var t := SingleEdgeGraph(e);
      var ps := b.groundings(t);
      WhitelistedEdges(seq(|ps|, k requires 0 <= k < |ps| => Applied(t, ps[k]).edgeSet[0]), b.whitelist)
  }

  function AllEdgeOptions(edges: seq<Edge>, b: Backend): (options: seq<seq<Edge>>)
    ensures |options| == |edges|
  {
    seq(|edges|, i requires 0 <= i < |edges| => EdgeOptions(edges[i], b))
  }

  /** What `approximate_groundings(g)` returns: one copy of `g` per tuple of edge candidates. */
  function Approximations(g: Graph, b: Backend): seq<Graph> {
    var combos := Product(AllEdgeOptions(g.edgeSet, b));
    seq(|combos|, k requires 0 <= k < |combos| => CopyGraph(g).(edgeSet := combos[k]))
  }

  /** `approximate_groundings`: collects the candidates of each edge, then builds their product. */
  method ApproximateGroundings(g: Graph, b: Backend) returns (graphGroundings: seq<Graph>)
    ensures graphGroundings == Approximations(g, b)
  {
    var separate: seq<seq<Edge>> := [];
    for i := 0 to |g.edgeSet|
      invariant |separate| == i
      invariant forall k :: 0 <= k < i ==> separate[k] == EdgeOptions(g.edgeSet[k], b)
    {
      var edge := g.edgeSet[i];
      if !IsGrounded(edge) {
        var t := SingleEdgeGraph(edge);
        var ps := b.groundings(t);
        var edgeGroundings := seq(|ps|, k requires 0 <= k < |ps| => Applied(t, ps[k]).edgeSet[0]);
        separate := separate + [WhitelistedEdges(edgeGroundings, b.whitelist)];
      } else {
        separate := separate + [[edge]];
      }
    }
    assert separate == AllEdgeOptions(g.edgeSet, b);
    var combos := Product(separate);
    graphGroundings := [];
    for j := 0 to |combos|
      invariant |graphGroundings| == j
      invariant forall k :: 0 <= k < j ==> graphGroundings[k] == CopyGraph(g).(edgeSet := combos[k])
    {
      var newG := CopyGraph(g).(edgeSet := combos[j]);
      graphGroundings := graphGroundings + [newG];
    }
  }

  /** As many results as the product of the per-edge candidate counts. */
  lemma ApproximationCount(g: Graph, b: Backend)
    ensures |Approximations(g, b)| == ProductSize(AllEdgeOptions(g.edgeSet, b))
  {
    ProductLength(AllEdgeOptions(g.edgeSet, b));
  }

  /**
   * A graph is an approximate grounding exactly when it is a copy of `g` whose edges are picked
   * one per position from that position's candidates.
   */
  lemma ApproximationMember(g: Graph, b: Backend, r: Graph)
    ensures r in Approximations(g, b) <==>
      && r == CopyGraph(g).(edgeSet := r.edgeSet)
      && |r.edgeSet| == |g.edgeSet|
      && forall k :: 0 <= k < |g.edgeSet| ==> r.edgeSet[k] in EdgeOptions(g.edgeSet[k], b)
  {
    var options := AllEdgeOptions(g.edgeSet, b);
    var combos := Product(options);
    ProductMember(options, r.edgeSet);
    if r in Approximations(g, b) {
      var k :| 0 <= k < |combos| && Approximations(g, b)[k] == r;
      assert r.edgeSet == combos[k];
    }
    if r == CopyGraph(g).(edgeSet := r.edgeSet) && |r.edgeSet| == |g.edgeSet|
       && forall k :: 0 <= k < |g.edgeSet| ==> r.edgeSet[k] in EdgeOptions(g.edgeSet[k], b) {
      var k :| 0 <= k < |combos| && combos[k] == r.edgeSet;
      assert Approximations(g, b)[k] == r;
    }
  }

  /**
   * In every approximate grounding a grounded edge is kept unchanged and every substituted edge
   * has a `kbID` whose stripped form is in the whitelist.
   */
  lemma ApproximationEdges(g: Graph, b: Backend, r: Graph, k: nat)
    requires r in Approximations(g, b)
    requires k < |g.edgeSet|
    ensures |r.edgeSet| == |g.edgeSet|
    ensures IsGrounded(g.edgeSet[k]) ==> r.edgeSet[k] == g.edgeSet[k]
    ensures !IsGrounded(g.edgeSet[k]) ==> WhitelistedEdge(r.edgeSet[k], b.whitelist)
  {
    ApproximationMember(g, b, r);
  }

  /**
   * A two-edge graph whose first edge is grounded has exactly as many approximate groundings as
   * its second edge has candidates.
   */
  lemma ApproximationOneFreeEdge(g: Graph, b: Backend)
    requires |g.edgeSet| == 2 && IsGrounded(g.edgeSet[0]) && !IsGrounded(g.edgeSet[1])
    ensures |Approximations(g, b)| == |EdgeOptions(g.edgeSet[1], b)|
  {
    var options := AllEdgeOptions(g.edgeSet, b);
    ApproximationCount(g, b);
    assert |options[0]| == 1;
    assert options[1..][0] == options[1] && |options[1..][1..]| == 0;
    assert ProductSize(options[1..]) == |options[1]| * ProductSize(options[1..][1..]);
  }

  // ---------------------------------------------------------------------------------------------
  // find_groundings_with_gold

  /** `[a for a in graphs if verify_grounding(a)]` */
  function KeepVerified(graphs: seq<Graph>, ask: Graph -> bool): (r: seq<Graph>)
    ensures forall h :: h in r <==> h in graphs && ask(h)
    decreases |graphs|
  {
    if |graphs| == 0 then []
    else
      var last := graphs[|graphs| - 1];
      assert graphs == graphs[..|graphs| - 1] + [last];
      KeepVerified(graphs[..|graphs| - 1], ask) + (if ask(last) then [last] else [])
  }

  /** The filter keeps the order of the graphs: it distributes over concatenation. */
  lemma {:induction false} KeepVerifiedAppend(a: seq<Graph>, c: seq<Graph>, ask: Graph -> bool)
    ensures KeepVerified(a + c, ask) == KeepVerified(a, ask) + KeepVerified(c, ask)
    decreases |c|
  {
    if |c| == 0 {
      assert a + c == a;
    } else {
      var c' := c[..|c| - 1];
      assert (a + c)[..|a + c| - 1] == a + c';
      KeepVerifiedAppend(a, c', ask);
    }
  }

  /** The graphs one typed copy `t` contributes: its groundings, or verified approximations when the backend gives up. */
  function Candidates(t: Graph, b: Backend): seq<Graph> {
    match b.groundingsOrFail(t)
    case None => KeepVerified(Approximations(t, b), b.ask)
    case Some(ps) => seq(|ps|, k requires 0 <= k < |ps| => Applied(t, ps[k]))
  }

  /** One typed copy of `g` per direct/reverse tuple (also when no edge has a hop). */
  function GoldGroundingBlocks(g: Graph, b: Backend): (blocks: seq<seq<Graph>>)
    ensures |blocks| == Power(2, UngroundedCount(g.edgeSet))
  {
    var queries := TypedQueries(g);
    seq(|queries|, k requires 0 <= k < |queries| => Candidates(queries[k], b))
  }

  /** What `find_groundings_with_gold(g)` returns. */
  function GoldGroundings(g: Graph, b: Backend): seq<Graph> {
    Flatten(GoldGroundingBlocks(g, b))
  }

  /** `find_groundings_with_gold`: queries every direct/reverse typing, falling back to approximation. */
  method FindGroundingsWithGold(g: Graph, b: Backend) returns (graphGroundings: seq<Graph>)
    ensures graphGroundings == GoldGroundings(g, b)
  {
    graphGroundings := [];
    var combos := TypeCombinations(UngroundedCount(g.edgeSet));
    ghost var blocks := GoldGroundingBlocks(g, b);
    for j := 0 to |combos|
      invariant graphGroundings == Flatten(blocks[..j])
    {
      var t := TypeUngroundedEdges(g, combos[j]);
      assert t == TypedQueries(g)[j];
      var queryResults := b.groundingsOrFail(t);
      var found: seq<Graph>;
      if queryResults.None? {
        found := ApproximateGroundings(t, b);
        found := KeepVerified(found, b.ask);
      } else {
        var ps := queryResults.value;
        found := seq(|ps|, k requires 0 <= k < |ps| => Applied(t, ps[k]));
      }
      assert found == blocks[j];
      FlattenSnoc(blocks, j);
      graphGroundings := graphGroundings + found;
    }
    assert blocks[..|combos|] == blocks;
  }

  /**
   * A graph is returned by `find_groundings_with_gold` exactly when, for some direct/reverse
   * typing `t` of `g`, it is `t` with one of the backend's groundings applied, or, when the
   * backend gave up on `t`, a verified approximate grounding of `t`.
   */
  lemma GoldGroundingsMember(g: Graph, b: Backend, r: Graph)
    ensures r in GoldGroundings(g, b) <==>
      exists k :: 0 <= k < |TypedQueries(g)| && GroundingFrom(r, TypedQueries(g)[k], b)
  {
    var blocks := GoldGroundingBlocks(g, b);
    FlattenMember(blocks, r);
    forall k | 0 <= k < |blocks|
      ensures r in blocks[k] <==> GroundingFrom(r, TypedQueries(g)[k], b)
    {
      CandidatesMember(TypedQueries(g)[k], b, r);
    }
  }

  /**
   * `r` is what the typed copy `t` yields: one of its groundings applied to it, or, when the
   * backend gives up on `t`, one of its approximations that the backend verifies.
   */
  predicate GroundingFrom(r: Graph, t: Graph, b: Backend) {
    match b.groundingsOrFail(t)
    case None => r in Approximations(t, b) && b.ask(r)
    case Some(ps) => exists p :: p in ps && r == Applied(t, p)
  }

  /** The graphs one typed copy contributes are exactly those it yields. */
  lemma CandidatesMember(t: Graph, b: Backend, r: Graph)
    ensures r in Candidates(t, b) <==> GroundingFrom(r, t, b)
  {
    if b.groundingsOrFail(t).Some? {
      var ps := b.groundingsOrFail(t).value;
      var c := Candidates(t, b);
      if r in c {
        var m :| 0 <= m < |ps| && c[m] == r;
        assert ps[m] in ps;
      }
      if exists p :: p in ps && r == Applied(t, p) {
        var p :| p in ps && r == Applied(t, p);
        var m :| 0 <= m < |ps| && ps[m] == p;
        assert c[m] == r;
      }
    }
  }

  /** Every graph `find_groundings_with_gold` returns keeps the input's edge count. */
  lemma GoldGroundingsKeepEdgeCount(g: Graph, b: Backend, r: Graph)
    requires r in GoldGroundings(g, b)
    ensures |r.edgeSet| == |g.edgeSet|
  {
    GoldGroundingsMember(g, b, r);
    var k :| 0 <= k < |TypedQueries(g)| && GroundingFrom(r, TypedQueries(g)[k], b);
    var combos := TypeCombinations(UngroundedCount(g.edgeSet));
    var t := TypedQueries(g)[k];
    TypedLength(g.edgeSet, combos[k]);
    assert |t.edgeSet| == |g.edgeSet|;
    if b.groundingsOrFail(t).None? {
      ApproximationMember(t, b, r);
    }
  }
}

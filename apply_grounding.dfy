/**
 * `apply_grounding`: materialise one grounding returned by the knowledge base on a copy of a
 * graph, edge by edge, according to the positional key grammar.
 */
module Apply {
  import opened Wrappers
  import opened Graphs
  import opened GroundingKeys

  /** The edge at index `i` after the grounding's keys for that index are applied to it. */
  function GroundEdge(e: Edge, i: nat, grounding: Grounding): Edge {
    var withObject := if ObjectKey(i) in grounding then e.(rightkbID := Some(grounding[ObjectKey(i)])) else e;
    var withHop :=
      if HopKey(i) !in grounding then withObject
      else if withObject.hopUp.Some? then withObject.(hopUp := Some(grounding[HopKey(i)]))
      else withObject.(hopDown := Some(grounding[HopKey(i)]));
    if RelationKey(i, 'd') in grounding then
      withHop.(kbID := Some(grounding[RelationKey(i, 'd')]), edgeType := Some(Direct))
    else if RelationKey(i, 'r') in grounding then
      withHop.(kbID := Some(grounding[RelationKey(i, 'r')]), edgeType := Some(Reverse))
    else if RelationKey(i, 'v') in grounding then
      withHop.(kbID := Some(grounding[RelationKey(i, 'v')]), edgeType := Some(VStructure))
    else withHop
  }

  /** The graph `apply_grounding(g, grounding)` returns. */
  function Applied(g: Graph, grounding: Grounding): Graph {
    CopyGraph(g).(edgeSet := seq(|g.edgeSet|, i requires 0 <= i < |g.edgeSet| => GroundEdge(g.edgeSet[i], i, grounding)))
  }

  /** Copies the graph and then updates the copy's edges one index at a time. */
  method ApplyGrounding(g: Graph, grounding: Grounding) returns (grounded: Graph)
    ensures grounded == Applied(g, grounding)
  {
    grounded := CopyGraph(g);
    var edges := grounded.edgeSet;
    for i := 0 to |edges|
      invariant |edges| == |g.edgeSet|
      invariant forall k :: 0 <= k < i ==> edges[k] == GroundEdge(g.edgeSet[k], k, grounding)
      invariant forall k :: i <= k < |edges| ==> edges[k] == g.edgeSet[k]
    {
      var edge := edges[i];
      if ObjectKey(i) in grounding {
        edge := edge.(rightkbID := Some(grounding[ObjectKey(i)]));
      }
      if HopKey(i) in grounding {
        if edge.hopUp.Some? {
          edge := edge.(hopUp := Some(grounding[HopKey(i)]));
        } else {
          edge := edge.(hopDown := Some(grounding[HopKey(i)]));
        }
      }
      if RelationKey(i, 'd') in grounding {
        edge := edge.(kbID := Some(grounding[RelationKey(i, 'd')]), edgeType := Some(Direct));
      } else if RelationKey(i, 'r') in grounding {
        edge := edge.(kbID := Some(grounding[RelationKey(i, 'r')]), edgeType := Some(Reverse));
      } else if RelationKey(i, 'v') in grounding {
        edge := edge.(kbID := Some(grounding[RelationKey(i, 'v')]), edgeType := Some(VStructure));
      }
      edges := edges[i := edge];
    }
    grounded := grounded.(edgeSet := edges);
  }

  /** The result has the input's edge count, tokens and entities (an absent entity list becomes `[]`). */
  lemma AppliedShape(g: Graph, grounding: Grounding)
    ensures |Applied(g, grounding).edgeSet| == |g.edgeSet|
    ensures Applied(g, grounding).tokens == g.tokens
    ensures Applied(g, grounding).entities == Some(EntitiesOf(g))
  {
  }

  /** An empty grounding returns a copy equal to the input except for the normalised entity list. */
  lemma {:induction false} EmptyGroundingCopies(g: Graph)
    ensures Applied(g, map[]) == CopyGraph(g)
  {
    var r := Applied(g, map[]);
    forall i | 0 <= i < |g.edgeSet|
      ensures r.edgeSet[i] == g.edgeSet[i]
    {
    }
  }

  /**
   * Relation keys take precedence `r{i}d` over `r{i}r` over `r{i}v`; the one that applies sets
   * both `kbID` and `type`, and without any of them both fields are left as they were.
   */
  lemma RelationKeyPrecedence(g: Graph, grounding: Grounding, i: nat)
    requires i < |g.edgeSet|
    ensures var e, r := g.edgeSet[i], Applied(g, grounding).edgeSet[i];
      && (RelationKey(i, 'd') in grounding ==>
            r.kbID == Some(grounding[RelationKey(i, 'd')]) && r.edgeType == Some(Direct))
      && (RelationKey(i, 'd') !in grounding && RelationKey(i, 'r') in grounding ==>
            r.kbID == Some(grounding[RelationKey(i, 'r')]) && r.edgeType == Some(Reverse))
      && (RelationKey(i, 'd') !in grounding && RelationKey(i, 'r') !in grounding && RelationKey(i, 'v') in grounding ==>
            r.kbID == Some(grounding[RelationKey(i, 'v')]) && r.edgeType == Some(VStructure))
      && (RelationKey(i, 'd') !in grounding && RelationKey(i, 'r') !in grounding && RelationKey(i, 'v') !in grounding ==>
            r.kbID == e.kbID && r.edgeType == e.edgeType)
  {
  }

  /**
   * `e2{i}` sets only `rightkbID`; `hop{i}v` sets `hopUp` when the edge already has one and
   * `hopDown` otherwise; the object span and its label are never touched.
   */
  lemma ObjectAndHopKeys(g: Graph, grounding: Grounding, i: nat)
    requires i < |g.edgeSet|
    ensures var e, r := g.edgeSet[i], Applied(g, grounding).edgeSet[i];
      && r.rightkbID == (if ObjectKey(i) in grounding then Some(grounding[ObjectKey(i)]) else e.rightkbID)
      && (HopKey(i) in grounding && e.hopUp.Some? ==> r.hopUp == Some(grounding[HopKey(i)]) && r.hopDown == e.hopDown)
      && (HopKey(i) in grounding && e.hopUp.None? ==> r.hopUp == None && r.hopDown == Some(grounding[HopKey(i)]))
      && (HopKey(i) !in grounding ==> r.hopUp == e.hopUp && r.hopDown == e.hopDown)
      && r.right == e.right && r.canonicalRight == e.canonicalRight
  {
  }

  /** An edge for whose index the grounding has no key keeps all its fields. */
  lemma EdgeWithoutKeysUnchanged(g: Graph, grounding: Grounding, i: nat)
    requires i < |g.edgeSet|
    requires ObjectKey(i) !in grounding && HopKey(i) !in grounding
    requires RelationKey(i, 'd') !in grounding && RelationKey(i, 'r') !in grounding && RelationKey(i, 'v') !in grounding
    ensures Applied(g, grounding).edgeSet[i] == g.edgeSet[i]
  {
  }

  /** Applying the same grounding a second time changes nothing. */
  lemma {:induction false} AppliedIdempotent(g: Graph, grounding: Grounding)
    ensures Applied(Applied(g, grounding), grounding) == Applied(g, grounding)
  {
    var once := Applied(g, grounding);
    var twice := Applied(once, grounding);
    forall i | 0 <= i < |g.edgeSet|
      ensures twice.edgeSet[i] == once.edgeSet[i]
    {
      var e := g.edgeSet[i];
      var r := once.edgeSet[i];
      assert r == GroundEdge(e, i, grounding);
      assert e.hopUp.Some? <==> r.hopUp.Some?;
    }
  }

  /** The examples of the function's documentation whose keys the code reads. */
  lemma DocumentedExamples()
    ensures Applied(Graph(None, None, [EMPTY_EDGE]), map["r0d" := "P31v"])
         == Graph(None, Some([]), [EMPTY_EDGE.(edgeType := Some(Direct), kbID := Some("P31v"))])
    ensures Applied(Graph(None, None, [EMPTY_EDGE]), map["r0v" := "P31v"])
         == Graph(None, Some([]), [EMPTY_EDGE.(edgeType := Some(VStructure), kbID := Some("P31v"))])
    ensures var grounded := EMPTY_EDGE.(edgeType := Some(VStructure), kbID := Some("P31v"), hopUp := Some("P131v"));
      Applied(Graph(Some([]), None, [grounded]), map[]) == Graph(Some([]), Some([]), [grounded])
    ensures Applied(Graph(None, None, [EMPTY_EDGE, EMPTY_EDGE]), map["r1d" := "P39v", "r0v" := "P31v", "e20" := "Q18"])
         == Graph(None, Some([]), [
              EMPTY_EDGE.(edgeType := Some(VStructure), kbID := Some("P31v"), rightkbID := Some("Q18")),
              EMPTY_EDGE.(edgeType := Some(Direct), kbID := Some("P39v"))])
    ensures Applied(Graph(None, None, []), map[]) == Graph(None, Some([]), [])
  {
    assert NatToString(0) == "0" && NatToString(1) == "1";
    assert RelationKey(0, 'd') == "r0d" && RelationKey(0, 'r') == "r0r" && RelationKey(0, 'v') == "r0v";
    assert RelationKey(1, 'd') == "r1d";
    assert ObjectKey(0) == "e20" && ObjectKey(1) == "e21";
    assert HopKey(0) == "hop0v" && HopKey(1) == "hop1v";
    EmptyGroundingCopies(Graph(Some([]), None, [EMPTY_EDGE.(edgeType := Some(VStructure), kbID := Some("P31v"), hopUp := Some("P131v"))]));
  }

  /**
   * The documentation's example with the key `hopup0v`: the code reads only `hop0v`, so the hop
   * binding is ignored and the edge gets no `hopUp`.
   */
  lemma HopupExampleIgnored()
    ensures Applied(Graph(None, None, [EMPTY_EDGE]), map["r0v" := "P31v", "hopup0v" := "P131v"])
         == Graph(None, Some([]), [EMPTY_EDGE.(edgeType := Some(VStructure), kbID := Some("P31v"))])
  {
    assert NatToString(0) == "0";
    assert RelationKey(0, 'd') == "r0d" && RelationKey(0, 'r') == "r0r" && RelationKey(0, 'v') == "r0v";
    assert ObjectKey(0) == "e20" && HopKey(0) == "hop0v";
  }
}

/**
 * Enrichment of a graph in place: `add_canonical_labels_to_entities` labels the bound objects of
 * the edges, `link_entities_in_graph` attaches knowledge-base candidates to the entity mentions.
 */
module Enrichment {
  import opened Wrappers
  import opened Graphs

  /** One edge after labelling: only an edge with a truthy `rightkbID` and no label gets one, and only a truthy label is stored. */
  function LabelEdge(e: Edge, labelEntity: string -> Option<string>): Edge {
    if Truthy(e.rightkbID) && e.canonicalRight.None? && Truthy(labelEntity(e.rightkbID.value))
    then e.(canonicalRight := labelEntity(e.rightkbID.value))
    else e
  }

  /** The graph `add_canonical_labels_to_entities(g)` leaves behind. */
  function Labelled(g: Graph, labelEntity: string -> Option<string>): Graph {
    g.(edgeSet := seq(|g.edgeSet|, i requires 0 <= i < |g.edgeSet| => LabelEdge(g.edgeSet[i], labelEntity)))
  }

  /** `add_canonical_labels_to_entities`: walks the edges and labels each one that needs it. */
  method AddCanonicalLabels(g: Graph, labelEntity: string -> Option<string>) returns (labelled: Graph)
    ensures labelled == Labelled(g, labelEntity)
  {
    var edges := g.edgeSet;
    for i := 0 to |edges|
      invariant |edges| == |g.edgeSet|
      invariant forall k :: 0 <= k < i ==> edges[k] == LabelEdge(g.edgeSet[k], labelEntity)
      invariant forall k :: i <= k < |edges| ==> edges[k] == g.edgeSet[k]
    {
      var edge := edges[i];
      var entityKbID := edge.rightkbID;
      if Truthy(entityKbID) && edge.canonicalRight.None? {
        var entityLabel := labelEntity(entityKbID.value);
        if Truthy(entityLabel) {
          edges := edges[i := edge.(canonicalRight := entityLabel)];
        }
      }
    }
    labelled := g.(edgeSet := edges);
  }

  /**
   * Labelling changes at most the `canonical_right` of an edge that has a truthy `rightkbID` and
   * no label yet; an existing label is never overwritten, and nothing else in the graph changes.
   */
  lemma LabellingOnlyAddsMissingLabels(g: Graph, labelEntity: string -> Option<string>, i: nat)
    requires i < |g.edgeSet|
    ensures var e, r := g.edgeSet[i], Labelled(g, labelEntity).edgeSet[i];
      && |Labelled(g, labelEntity).edgeSet| == |g.edgeSet|
      && r == e.(canonicalRight := r.canonicalRight)
      && (e.canonicalRight.Some? ==> r == e)
      && (!Truthy(e.rightkbID) ==> r == e)
      && (r != e ==> Truthy(r.canonicalRight) && e.rightkbID.Some? && r.canonicalRight == labelEntity(e.rightkbID.value))
      && (Truthy(e.rightkbID) && e.canonicalRight.None? && Truthy(labelEntity(e.rightkbID.value)) ==> r.canonicalRight == labelEntity(e.rightkbID.value))
    ensures Labelled(g, labelEntity).tokens == g.tokens && Labelled(g, labelEntity).entities == g.entities
  {
  }

  /** Labelling twice is labelling once. */
  lemma {:induction false} LabellingIdempotent(g: Graph, labelEntity: string -> Option<string>)
    ensures Labelled(Labelled(g, labelEntity), labelEntity) == Labelled(g, labelEntity)
  {
    var once := Labelled(g, labelEntity);
    var twice := Labelled(once, labelEntity);
    forall i | 0 <= i < |g.edgeSet|
      ensures twice.edgeSet[i] == once.edgeSet[i]
    {
      var e := g.edgeSet[i];
      if Truthy(e.rightkbID) && e.canonicalRight.None? && Truthy(labelEntity(e.rightkbID.value)) {
        assert once.edgeSet[i].canonicalRight.Some?;
      }
    }
  }

  /** One mention after linking: a mention without linkings gets the linker's candidates. */
  function LinkEntity(e: Entity, linkEntity: Entity -> seq<string>): Entity {
    if e.linkings.None? then e.(linkings := Some(linkEntity(e))) else e
  }

  /** The graph `link_entities_in_graph(g)` leaves behind: `entities` always present afterwards. */
  function Linked(g: Graph, linkEntity: Entity -> seq<string>): Graph {
    var entities := EntitiesOf(g);
    g.(entities := Some(seq(|entities|, i requires 0 <= i < |entities| => LinkEntity(entities[i], linkEntity))))
  }

  /** `link_entities_in_graph`: rebuilds the entity list, linking every two-element mention. */
  method LinkEntities(g: Graph, linkEntity: Entity -> seq<string>) returns (linked: Graph)
    ensures linked == Linked(g, linkEntity)
  {
    var entities: seq<Entity> := [];
    var mentions := EntitiesOf(g);
    for i := 0 to |mentions|
      invariant |entities| == i
      invariant forall k :: 0 <= k < i ==> entities[k] == LinkEntity(mentions[k], linkEntity)
    {
      var entity := mentions[i];
      if entity.linkings.None? {
        var linkings := linkEntity(entity);
        entities := entities + [entity.(linkings := Some(linkings))];
      } else {
        entities := entities + [entity];
      }
    }
    assert entities == EntitiesOf(Linked(g, linkEntity));
    linked := g.(entities := Some(entities));
  }

  /**
   * After linking every mention carries linkings, mentions that had them keep them, the span and
   * kind of every mention are kept, and linking again changes nothing.
   */
  lemma {:induction false} LinkingCompletesOnce(g: Graph, linkEntity: Entity -> seq<string>)
    ensures var linked := Linked(g, linkEntity);
      && |EntitiesOf(linked)| == |EntitiesOf(g)|
      && (forall k :: 0 <= k < |EntitiesOf(g)| ==>
            && EntitiesOf(linked)[k].linkings.Some?
            && EntitiesOf(linked)[k].span == EntitiesOf(g)[k].span
            && EntitiesOf(linked)[k].kind == EntitiesOf(g)[k].kind
            && (EntitiesOf(g)[k].linkings.Some? ==> EntitiesOf(linked)[k] == EntitiesOf(g)[k]))
      && Linked(linked, linkEntity) == linked
  {
    var linked := Linked(g, linkEntity);
    var twice := Linked(linked, linkEntity);
    assert EntitiesOf(twice) == EntitiesOf(linked);
  }
}

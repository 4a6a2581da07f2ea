/**
 * The semantic graph of a question: its tokens, its entity mentions and its ordered edge set.
 * The Python graphs are dictionaries with optional keys; here every optional key is an `Option`.
 */
module Graphs {
  import opened Wrappers

  /** The value of an edge's `type` key. */
  datatype EdgeType = Direct | Reverse | VStructure

  /**
   * An edge dictionary. `edgeType` is the `type` key; `right` the token span of the object,
   * `rightkbID` its bound entity, `canonicalRight` the entity's label.
   */
  datatype Edge = Edge(
    kbID: Option<string>,
    edgeType: Option<EdgeType>,
    hopUp: Option<string>,
    hopDown: Option<string>,
    right: Option<seq<string>>,
    rightkbID: Option<string>,
    canonicalRight: Option<string>)

  /** The edge `{}`. */
  const EMPTY_EDGE := Edge(None, None, None, None, None, None, None)

  /** An entity mention `(span, kind)`, or `(span, kind, linkings)` once linked. */
  datatype Entity = Entity(span: seq<string>, kind: string, linkings: Option<seq<string>>)

  /** A graph dictionary; an absent `edgeSet` is the empty edge set, as every reader treats it. */
  datatype Graph = Graph(tokens: Option<seq<string>>, entities: Option<seq<Entity>>, edgeSet: seq<Edge>)

  /** `'type' in e and 'kbID' in e` */
  predicate IsGrounded(e: Edge) {
    e.edgeType.Some? && e.kbID.Some?
  }

  /** `sum(1 for e in edges if not('type' in e and 'kbID' in e))` */
  function UngroundedCount(edges: seq<Edge>): (n: nat)
    ensures n <= |edges|
    decreases |edges|
  {
    if |edges| == 0 then 0
    else UngroundedCount(edges[..|edges| - 1]) + (if IsGrounded(edges[|edges| - 1]) then 0 else 1)
  }

  /** Python truthiness of an optional string value. */
  predicate Truthy(s: Option<string>) {
    s.Some? && s.value != ""
  }

  /** `g.get('tokens', [])` */
  function TokensOf(g: Graph): seq<string> {
    if g.tokens.Some? then g.tokens.value else []
  }

  /** `g.get('entities', [])` */
  function EntitiesOf(g: Graph): seq<Entity> {
    if g.entities.Some? then g.entities.value else []
  }

  /**
   * `graph.copy_graph(g)`: a deep copy, which on values is the graph itself, except that an
   * absent `entities` key comes back as `[]`.
   */
  function CopyGraph(g: Graph): Graph {
    g.(entities := Some(EntitiesOf(g)))
  }

  /** `{'edgeSet': [e]}` */
  function SingleEdgeGraph(e: Edge): Graph {
    Graph(None, None, [e])
  }

  /** `e.get('kbID')[:-1]`: the relation identifier without its trailing direction marker. */
  function StripMarker(id: string): (r: string)
    ensures |id| > 0 ==> id == r + [id[|id| - 1]]
    ensures |id| == 0 ==> r == ""
  {
    if |id| == 0 then "" else id[..|id| - 1]
  }
}

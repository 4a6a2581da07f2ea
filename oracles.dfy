/**
 * The collaborators the search engine calls but does not implement: the Wikidata queries,
 * answer post-processing, F1 scoring, entity labelling and linking, the relation whitelist and
 * the restrict/expand operators. They are given as functions, so each answers the same question
 * the same way every time it is asked.
 */
module Oracles {
  import opened Wrappers
  import opened Graphs
  import opened GroundingKeys

  /** `(precision, recall, f1)` as returned by the scorer. */
  datatype Scores = Scores(precision: real, recall: real, f1: real)

  datatype Backend = Backend(
    // wdaccess.query_graph_groundings(g)
    groundings: Graph -> seq<Grounding>,
    // wdaccess.query_graph_groundings(g, use_cache=False, pass_exception=True); None when the backend gives up
    groundingsOrFail: Graph -> Option<seq<Grounding>>,
    // query_wikidata(graph_to_ask(g))
    ask: Graph -> bool,
    // wdaccess.query_graph_denotations(g)
    denotations: Graph -> seq<string>,
    // generation_p['label.query.results'], True by default
    labelQueryResults: bool,
    // wdaccess.label_query_results and wdaccess.map_query_results
    labelResults: seq<string> -> seq<string>,
    mapResults: seq<string> -> seq<string>,
    // evaluation.retrieval_prec_rec_f1_with_altlabels(gold, retrieved)
    prf1: (seq<string>, seq<string>) -> Scores,
    // wdaccess.label_entity(entity_id)
    labelEntity: string -> Option<string>,
    // entity_linking.link_entity(entity)
    linkEntity: Entity -> seq<string>,
    // wdaccess.property_whitelist
    whitelist: set<string>,
    // stages.restrict and stages.expand
    restrict: Graph -> seq<Graph>,
    expand: Graph -> seq<Graph>)
}

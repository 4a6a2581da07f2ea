# Staged graph generation and WebQuestions data, modelled in Dafny

This project models two parts of a question-answering system that works over Wikidata.

**Grounding search** (`questionanswering/construction/staged_generation.py`).
- A question is a semantic graph: tokens, entity mentions and an ordered edge set.
- The search grounds its edges in the knowledge base:
  - `apply_grounding` writes one knowledge-base grounding into a copy of the graph. It follows the positional key grammar `r{i}d`/`r{i}r`/`r{i}v`, `hop{i}v` and `e2{i}`.
  - `find_groundings` queries the knowledge base once with the graph as it is. When an ungrounded edge has a hop, it instead queries once per direct/reverse typing of the ungrounded edges. When a play word occurs and exactly one edge is ungrounded, it adds a query with that edge typed `v-structure`. It has no fallback.
  - `find_groundings_with_gold` queries once per direct/reverse typing of the ungrounded edges. When the knowledge base gives up on a typing (returns `None`), it falls back to the verified approximations of that typed graph.
  - `approximate_groundings` enumerates no typings. It is the product, over the edges, of each ungrounded edge's whitelisted groundings (a grounded edge stays as it is).
  - `ground_one_with_gold` and `ground_with_gold` score groundings against gold answers. They keep the best three above the current F-score and collect negatives below 0.01.
- `generate_with_gold` is a breadth-first search. It replaces a pooled graph by better-scoring refinements of its restrictions and expansions, or keeps it.
- `generate_without_gold` explores every restriction and expansion. It keeps what the knowledge base confirms and grounds the result subject to the whitelist.
- `add_canonical_labels_to_entities` and `link_entities_in_graph` enrich graphs in place.

**WebQuestions data** (`questionanswering/datasets/webquestions_io.py`).
- Extracting the answers from a question's `targetValue`, with the regular expression `\(description "?(.*?)"?\)`.
- Extracting the main entity from its `url`.
- Selecting the training questions.
- Building each training sample: truncated silver graphs, a negative pool, random draws or padding, a shuffle, and the argmax target.
- Cutting one cycle of the training generator into batches.
- The validation graphs with their lower-cased gold answers.

How the model is built:
- Graphs, edges and entities are datatypes. Every optional dictionary key is an `Option`.
- The knowledge base, the scorer, the entity labeller and linker, the whitelist and the restrict/expand actions are functions bundled in `Oracles.Backend`.
- Code that loops and mutates becomes a method, proved equal to a function that states its result:
  - `apply_grounding`, the labelling and linking, the typing loop;
  - `approximate_groundings`, `find_groundings*`, `ground_with_gold`;
  - both search loops, `_get_indexed_samples` and the batch loop.
- Properties are proved about those functions.
- Where a loop's step is itself a search, the loop is written once over a function parameter for the step, and the step is passed in:
  - `GoldGrounding.ScanInputs` takes the per-graph grounding, built by `Grounder`;
  - `RefineWithGold` runs the same `Scan` with one attempt as the step, built by `Attempter`;
  - `GoldSearch.Search` takes the refinement of a pooled graph, built by `Refiner`.
- `re.findall` is the generic scan `PatternSearch.FindAll`: it tries a matcher at each position and resumes after each match. `WebQuestionsAnswers` supplies the matcher for the answer pattern.
- The `while pool` loops of the two generators are run for at most `fuel` rounds. `RunSettles` and `ExploreSettles` show that once the loop has stopped, more fuel changes nothing.

How the code differs from its documentation (the model follows the code):
- The search stops once the last graph appended to `positive_graphs` scores at least 0.9 (`positive_graphs[-1]`). It is not the best kept graph.
- The `apply_grounding` doctest with key `hopup0v` expects a `hopUp`, but the code reads only `hop{i}v`.
- `get_training_samples` promises graph lists "all of size 30". That holds only when at most 30 silver graphs are kept. With the defaults, at most 15 are kept, so it always holds.

## Model

| member | source | states |
|---|---|---|
| Graphs.UngroundedCount | questionanswering/construction/staged_generation.py:177 | the number of edges lacking `type` or `kbID` is at most the number of edges |
| Graphs.StripMarker | questionanswering/construction/staged_generation.py:301 | `id[:-1]`: the identifier is the result followed by its last character; the empty string stays empty |
| GroundingKeys.NatToString | questionanswering/construction/staged_generation.py:336-351 | `str(i)` is a non-empty string of decimal digits, one digit exactly for i < 10 |
| GroundingKeys.Digit | questionanswering/construction/staged_generation.py:336-351 | the digit of a value below ten is a decimal digit, different from the digit of every other value |
| GroundingKeys.NatToStringInjective | questionanswering/construction/staged_generation.py:336-351 | distinct edge indices have distinct numerals |
| GroundingKeys.KeysUnambiguous | questionanswering/construction/staged_generation.py:336-351 | each grounding key names one edge index and one kind of binding (relation with direction, hop, object) |
| GroundingKeys.HopupKeyNeverRead | questionanswering/construction/staged_generation.py:325-326 | the key `hopup0v` is never a key the code reads for any edge |
| Apply.ApplyGrounding | questionanswering/construction/staged_generation.py:313-353 | the copy-and-update loop returns exactly `Applied(g, grounding)` |
| Apply.AppliedShape | questionanswering/construction/staged_generation.py:334-335 | the grounded graph has the input's edge count and tokens; entities become `[]` when absent |
| Apply.EmptyGroundingCopies | questionanswering/construction/staged_generation.py:331-334 | an empty grounding returns the copy of the graph |
| Apply.RelationKeyPrecedence | questionanswering/construction/staged_generation.py:343-351 | `r{i}d` beats `r{i}r` beats `r{i}v`; the applying key sets `kbID` and the matching `type`; without one both stay |
| Apply.ObjectAndHopKeys | questionanswering/construction/staged_generation.py:336-342 | `e2{i}` sets `rightkbID`; `hop{i}v` sets `hopUp` if the edge has one, else `hopDown`; span and label untouched |
| Apply.EdgeWithoutKeysUnchanged | questionanswering/construction/staged_generation.py:335-351 | an edge without keys for its index is returned unchanged |
| Apply.AppliedIdempotent | questionanswering/construction/staged_generation.py:334-353 | applying the same grounding twice equals applying it once |
| Apply.DocumentedExamples | questionanswering/construction/staged_generation.py:321-332 | the documentation's examples whose keys the code reads give the documented graphs |
| Apply.HopupExampleIgnored | questionanswering/construction/staged_generation.py:325-326 | on the `hopup0v` example the code sets only the v-structure relation, no `hopUp` |
| Enrichment.AddCanonicalLabels | questionanswering/construction/staged_generation.py:356-369 | the labelling loop returns `Labelled(g, labelEntity)` |
| Enrichment.LabellingOnlyAddsMissingLabels | questionanswering/construction/staged_generation.py:363-368 | only an edge with a truthy `rightkbID` and no label changes, and then its label becomes `labelEntity(rightkbID)` exactly when that is truthy; nothing else changes |
| Enrichment.LabellingIdempotent | questionanswering/construction/staged_generation.py:363-369 | labelling a labelled graph changes nothing |
| Enrichment.LinkEntities | questionanswering/construction/staged_generation.py:74-89 | the linking loop returns `Linked(g, linkEntity)` |
| Enrichment.LinkingCompletesOnce | questionanswering/construction/staged_generation.py:81-88 | after linking every mention has linkings, earlier linkings and spans are kept, and linking again changes nothing |
| GoldGrounding.ScoredGroundings | questionanswering/construction/staged_generation.py:119-131 | one scored sample per grounding of `find_groundings`, in order, each the applied grounding evaluated against the gold answers |
| GoldGrounding.GroundOne | questionanswering/construction/staged_generation.py:118-135 | a grounding is chosen iff it scores above `min_fscore`, and a negative iff it scores below 0.01 (as the unscored graph); `GroundedWithGoldChosen` states what `ground_with_gold` keeps of the first productive input's choice |
| GoldGrounding.AboveF1 | questionanswering/construction/staged_generation.py:132-133 | a sample is chosen iff it is scored above `min_fscore` |
| GoldGrounding.AboveF1Append | questionanswering/construction/staged_generation.py:132-133 | the filter distributes over concatenation, so the chosen samples keep their order |
| GoldGrounding.Negatives | questionanswering/construction/staged_generation.py:134 | the negatives are exactly the graphs of samples with F1 < 0.01, as one-element tuples |
| GoldGrounding.NegativesAppend | questionanswering/construction/staged_generation.py:134 | the negatives of a concatenation are the negatives of each part, in order |
| GoldGrounding.InsertByF1 | questionanswering/construction/staged_generation.py:111 | insertion adds exactly the element to the multiset |
| GoldGrounding.InsertKeepsSorted | questionanswering/construction/staged_generation.py:111 | inserting into a list sorted best-first keeps it sorted |
| GoldGrounding.InsertAtMost | questionanswering/construction/staged_generation.py:111 | inserting an element scoring at most a bound into a list scoring at most that bound keeps the bound |
| GoldGrounding.SortByF1 | questionanswering/construction/staged_generation.py:111 | `sorted(..., reverse=True)` is a permutation sorted by descending F1 |
| GoldGrounding.SortedMembers | questionanswering/construction/staged_generation.py:111 | sorting keeps exactly the members of the list |
| GoldGrounding.Top | questionanswering/construction/staged_generation.py:112-113 | the result is a prefix of length min(3, n) |
| GoldGrounding.TopOfSorted | questionanswering/construction/staged_generation.py:112-113 | the first three of a sorted list are sorted, come from it, and none left out scores higher than one kept |
| GoldGrounding.GroundWithGold | questionanswering/construction/staged_generation.py:92-115 | the pop-until-chosen loop over `ground_one_with_gold`, the sort and the truncation return `GroundedWithGold` |
| GoldGrounding.ScanInputs | questionanswering/construction/staged_generation.py:104-110 | for any per-graph grounding step, the pop-until-chosen loop returns `Scan(inputs, ground)` |
| GoldGrounding.ScanRound | questionanswering/construction/staged_generation.py:106-110 | one loop round: if the popped input's step chooses something that is the result, else its negatives come first and the remaining inputs decide the rest |
| GoldGrounding.FirstChosen | questionanswering/construction/staged_generation.py:106-110 | the position of the first input whose step chooses something; every earlier input's step chooses nothing |
| GoldGrounding.ScanChosen | questionanswering/construction/staged_generation.py:106-110 | for any per-graph grounding step, the loop chooses exactly what the first input with a non-empty choice (`FirstChosen`) chooses, and nothing iff no input's step chooses anything |
| GoldGrounding.ScanRejected | questionanswering/construction/staged_generation.py:106-110 | the collected negatives are the negatives of every popped input, in input order: all inputs up to and including the first that chooses something |
| GoldGrounding.ScanRejectedFrom | questionanswering/construction/staged_generation.py:106-110 | every collected negative is a negative of some input's step |
| GoldGrounding.TopKeepsBest | questionanswering/construction/staged_generation.py:111-113 | the kept ones are min(3, n) in number, sorted, come from the list, are empty only for an empty list, and none left out scores higher than one kept |
| GoldGrounding.GroundedWithGoldBounds | questionanswering/construction/staged_generation.py:111-113 | at most three chosen, best first, each scored above `min_fscore` |
| GoldGrounding.GroundedWithGoldNone | questionanswering/construction/staged_generation.py:104-115 | nothing is chosen iff no input has a grounding above `min_fscore` |
| GoldGrounding.GroundedWithGoldChosen | questionanswering/construction/staged_generation.py:104-115 | the chosen are the best groundings of the first input that has any above `min_fscore`, min(3, n) of its n chosen; every earlier input has none |
| GoldGrounding.GroundedWithGoldRejected | questionanswering/construction/staged_generation.py:104-134 | the negatives are, in input order, the below-0.01 groundings of every popped input, up to and including the first with a grounding above `min_fscore` |
| GoldGrounding.GroundedNegatives | questionanswering/construction/staged_generation.py:104-134 | every returned negative is the unscored graph of a grounding of an input scoring below 0.01 |
| GoldSearch.NothingChosen | questionanswering/construction/staged_generation.py:104-110 | `ground_with_gold` chooses nothing iff `ground_one_with_gold` chooses nothing for every input graph |
| GoldSearch.AttemptWithGold | questionanswering/construction/staged_generation.py:51-58 | grounding the suggestion alone and, only when nothing is chosen, its expansions, gathering the negatives of both, returns `Attempt` |
| GoldSearch.AttemptFacts | questionanswering/construction/staged_generation.py:51-58 | one attempt chooses at most three, best first, above `min_fscore`, rejects only unscored graphs, chooses nothing iff the suggestion is unproductive, and otherwise chooses the best groundings of the suggestion or of one expansion |
| GoldSearch.RefineWithGold | questionanswering/construction/staged_generation.py:47-59 | the inner `while not chosen_graphs and suggested_graphs` loop returns `Scan` of the suggestions with `Attempt` as the step |
| GoldSearch.RefinedWithin | questionanswering/construction/staged_generation.py:47-59 | when every attempt keeps the bounds (at most three, best first, above `min_fscore`, unscored negatives) the whole inner loop keeps them |
| GoldSearch.UnproductiveMeans | questionanswering/construction/staged_generation.py:51-58 | a suggestion yields nothing iff neither it nor any expansion has a grounding above `min_fscore` |
| GoldSearch.RefinementMeans | questionanswering/construction/staged_generation.py:51-58 | a non-empty refinement is the best groundings of the suggestion or of one of its expansions |
| GoldSearch.RefinedBounds | questionanswering/construction/staged_generation.py:47-59 | at most three refinements, best first, each above `min_fscore`; all negatives unscored |
| GoldSearch.RefinedNone | questionanswering/construction/staged_generation.py:49-59 | the refinement is empty iff every suggestion is unproductive |
| GoldSearch.RefinedOrigin | questionanswering/construction/staged_generation.py:49-59 | a non-empty refinement is the best groundings of the first productive suggestion or of one of its expansions, every earlier suggestion being unproductive; the negatives are the attempts' negatives of every popped suggestion, in order |
| GoldSearch.RunAdvances | questionanswering/construction/staged_generation.py:37-68 | a loop round consumes one unit of fuel and leaves the final state unchanged |
| GoldSearch.Search | questionanswering/construction/staged_generation.py:37-68 | for any refinement step, the outer loop returns the kept graphs and negatives of `Run` after at most `fuel` rounds |
| GoldSearch.RefinerImproves | questionanswering/construction/staged_generation.py:41-59 | refining a pooled graph chooses only scored graphs above its F-score and rejects only unscored graphs |
| GoldSearch.SearchRound | questionanswering/construction/staged_generation.py:38-68 | one round of the outer loop (pop, keep or refine, extend) equals `Step` |
| GoldSearch.GenerateWithGold | questionanswering/construction/staged_generation.py:19-71 | linking then the bounded search loop returns `GeneratedWithGold` |
| GoldSearch.StepPreserves | questionanswering/construction/staged_generation.py:41-68 | a round keeps the state well formed: pooled and kept graphs scored and above zero apart from the start, negatives unscored |
| GoldSearch.RunPreserves | questionanswering/construction/staged_generation.py:37-68 | the whole run keeps the state well formed |
| GoldSearch.StepExtends | questionanswering/construction/staged_generation.py:52-68 | a round only appends to the kept graphs and the negatives |
| GoldSearch.RunExtends | questionanswering/construction/staged_generation.py:37-68 | the run only appends to the kept graphs and the negatives |
| GoldSearch.RunSettles | questionanswering/construction/staged_generation.py:37 | once the loop condition fails, more rounds change nothing |
| GoldSearch.ResultShape | questionanswering/construction/staged_generation.py:71 | kept graphs (scored) come before the negatives (unscored) |
| GoldSearch.GeneratedWithGoldShape | questionanswering/construction/staged_generation.py:33-71 | the result lists scored kept graphs before unscored negatives; every kept graph but the start has F1 above zero |
| Resolver.UngroundedCountPrefix | questionanswering/construction/staged_generation.py:184 | a prefix of the edges has no more ungrounded edges than the whole |
| Resolver.UngroundedCountStep | questionanswering/construction/staged_generation.py:184 | one more edge of the prefix adds one to the count exactly when that edge lacks `type` or `kbID` |
| Resolver.TypedAt | questionanswering/construction/staged_generation.py:184-185 | the i-th ungrounded edge (in edge order) receives the i-th type of the tuple; grounded edges untouched |
| Resolver.TypedLength | questionanswering/construction/staged_generation.py:184-185 | typing the ungrounded edges keeps the number of edges |
| Resolver.TypeUngroundedEdges | questionanswering/construction/staged_generation.py:183-185 | the copy-and-type loop returns `WithTypes(g, combo)` |
| Resolver.TypeCombinations | questionanswering/construction/staged_generation.py:181 | 2^n tuples of length n; a tuple is listed iff it has length n and only direct/reverse |
| Resolver.TypeCombinationsCover | questionanswering/construction/staged_generation.py:181 | `itertools.product` of n direct/reverse lists lists exactly the direct/reverse tuples of length n |
| Resolver.TypedQueries | questionanswering/construction/staged_generation.py:181-186 | one typed copy per tuple: 2^n of them |
| Resolver.QueryTypedCopies | questionanswering/construction/staged_generation.py:182-186 | the per-tuple query loop concatenates the answers for the typed copies in product order |
| Resolver.FindGroundings | questionanswering/construction/staged_generation.py:168-192 | `find_groundings` returns `Groundings(g, query)` |
| Resolver.GroundingQueryCount | questionanswering/construction/staged_generation.py:177-191 | one query without a hop on an ungrounded edge, else 2^n; plus one exactly when a play-word is present and one edge is ungrounded |
| Resolver.HopQueriesEnumerateTypings | questionanswering/construction/staged_generation.py:181-186 | with a hop, query k is the copy typed by the k-th direct/reverse tuple |
| Resolver.VStructureQuery | questionanswering/construction/staged_generation.py:187-191 | the extra query types the single ungrounded edge `v-structure` and leaves other edges as they were |
| Resolver.WhitelistedEdges | questionanswering/construction/staged_generation.py:154 | an edge is kept iff it has a `kbID` whose stripped form is whitelisted |
| Resolver.WhitelistedEdgesAppend | questionanswering/construction/staged_generation.py:154 | the edge filter distributes over concatenation, so kept edges keep their order |
| Resolver.AllEdgeOptions | questionanswering/construction/staged_generation.py:150-158 | one candidate list per edge |
| Resolver.ApproximateGroundings | questionanswering/construction/staged_generation.py:138-165 | the per-edge loop and the product loop return `Approximations(g, b)` |
| Resolver.ApproximationCount | questionanswering/construction/staged_generation.py:159-163 | as many approximations as the product of the candidate counts |
| Resolver.ApproximationMember | questionanswering/construction/staged_generation.py:148-165 | a graph is an approximation iff it is a copy of g with each edge chosen from that position's candidates |
| Resolver.ApproximationEdges | questionanswering/construction/staged_generation.py:150-158 | grounded edges are kept; each substituted edge is whitelisted |
| Resolver.ApproximationOneFreeEdge | questionanswering/construction/staged_generation.py:145-146 | a two-edge graph with the first grounded has as many approximations as the second edge has candidates |
| Resolver.KeepVerified | questionanswering/construction/staged_generation.py:215 | a graph is kept iff it is in the list and the knowledge base confirms it |
| Resolver.KeepVerifiedAppend | questionanswering/construction/staged_generation.py:215 | the verification filter distributes over concatenation, so kept graphs keep their order |
| Resolver.GoldGroundingBlocks | questionanswering/construction/staged_generation.py:207-218 | one block per direct/reverse tuple: 2^n blocks |
| Resolver.FindGroundingsWithGold | questionanswering/construction/staged_generation.py:195-219 | the typing loop with its fallback returns `GoldGroundings(g, b)` |
| Resolver.GoldGroundingsMember | questionanswering/construction/staged_generation.py:205-219 | a graph is returned iff for some typing it is a backend grounding applied to it, or a verified approximation when the backend gave up |
| Resolver.CandidatesMember | questionanswering/construction/staged_generation.py:212-218 | the graphs one typed copy contributes are exactly its backend groundings applied to it, or, when the backend gives up, its approximations the knowledge base confirms |
| Resolver.GoldGroundingsKeepEdgeCount | questionanswering/construction/staged_generation.py:205-219 | every returned graph has the input's edge count |
| Sequences.ProductLength | questionanswering/construction/staged_generation.py:160 | the product has as many tuples as the product of the list lengths |
| Sequences.ProductMember | questionanswering/construction/staged_generation.py:160 | a tuple is in the product iff it picks one element per position from that position's list |
| NoGold.ExploreAdvances | questionanswering/construction/staged_generation.py:248-273 | a loop round consumes one unit of fuel and leaves the final exploration unchanged |
| NoGold.ExploreStepPreserves | questionanswering/construction/staged_generation.py:252-272 | a round keeps every pooled graph but the start labelled and among the generated, and the old generated graphs are a prefix of the new |
| NoGold.ExplorePreserves | questionanswering/construction/staged_generation.py:248-273 | the whole exploration keeps that invariant, and the old generated graphs are a prefix of the final ones |
| NoGold.ExploreGrows | questionanswering/construction/staged_generation.py:248-273 | the exploration only appends to the generated graphs |
| NoGold.LabelAllLabelled | questionanswering/construction/staged_generation.py:265 | every graph labelled by the comprehension is left unchanged by labelling it again |
| NoGold.Exploring | questionanswering/construction/staged_generation.py:243-273 | the `while pool` loop from the question graph returns the generated graphs of `Explore` |
| NoGold.ExploreSettles | questionanswering/construction/staged_generation.py:248 | once the pool is empty, more rounds change nothing |
| NoGold.KeepWhitelisted | questionanswering/construction/staged_generation.py:301 | a grounded graph is kept iff every edge's stripped relation is whitelisted |
| NoGold.KeepWhitelistedAppend | questionanswering/construction/staged_generation.py:301 | the whitelist filter distributes over concatenation, preserving order |
| NoGold.GroundedWithoutGold | questionanswering/construction/staged_generation.py:290-305 | a graph is returned iff it is among the `find_groundings_with_gold` results of the inputs and all its relations are whitelisted; `GroundedWithoutGoldMember` states it per input |
| NoGold.GroundedWithoutGoldMember | questionanswering/construction/staged_generation.py:290-305 | `ground_without_gold` returns exactly the whitelisted `find_groundings_with_gold` results of its inputs |
| NoGold.WithoutEntities | questionanswering/construction/staged_generation.py:279-281 | one graph per input, each without `entities` and otherwise unchanged |
| NoGold.DropEntities | questionanswering/construction/staged_generation.py:279-281 | the `del g['entities']` loop returns `WithoutEntities(graphs)` |
| NoGold.ExploreRound | questionanswering/construction/staged_generation.py:252-273 | one round of the `while pool` loop equals `ExploreStep` |
| NoGold.GenerateWithoutGold | questionanswering/construction/staged_generation.py:232-287 | exploration, verification, entity removal and grounding return `GeneratedWithoutGold` |
| NoGold.GeneratedWithoutGoldMember | questionanswering/construction/staged_generation.py:276-287 | every result is whitelisted and a grounding of an explored graph the knowledge base confirmed, taken without entities |
| NoGold.ExplorationFacts | questionanswering/construction/staged_generation.py:243-273 | from the question graph, every pooled graph after the start is labelled and among the generated graphs |
| WebQuestionsAnswers.CloseFrom | questionanswering/datasets/webquestions_io.py:137 | the lazy `(.*?)"?\)` tail ends within the text, after the capture start |
| WebQuestionsAnswers.CloseFromFacts | questionanswering/datasets/webquestions_io.py:137 | the capture holds no `)` or line break, ends at `")` or `)`, and a quote right before `)` is not captured |
| WebQuestionsAnswers.CloseFromSkips | questionanswering/datasets/webquestions_io.py:137 | the lazy capture passes over characters that are not `)`, a line break, or a quote before `)` |
| WebQuestionsAnswers.CloseFromAgree | questionanswering/datasets/webquestions_io.py:137 | the closing found depends only on the text from the capture start on: on a text with `d` characters fewer in front it is found `d` places earlier |
| WebQuestionsAnswers.CaptureFrom | questionanswering/datasets/webquestions_io.py:137 | after `(description `, the optional quote and the lazy capture: a capture found starts no earlier than the given position and ends before the match end, within the text |
| WebQuestionsAnswers.MatchAt | questionanswering/datasets/webquestions_io.py:137 | a match starts with `(description `, then the capture, then the closing |
| WebQuestionsAnswers.MatchAtFacts | questionanswering/datasets/webquestions_io.py:137 | a match opens with `(description ` and an optional quote, and closes as `CloseFrom` says |
| WebQuestionsAnswers.MatchAtAgree | questionanswering/datasets/webquestions_io.py:137 | a match depends only on the text from its start on: with `d` characters fewer in front it is found `d` places earlier |
| WebQuestionsAnswers.MatcherOf | questionanswering/datasets/webquestions_io.py:137 | every match found inside the text starts its capture within the text and ends past the scan position, within the text |
| WebQuestionsAnswers.FindAllFromStep | questionanswering/datasets/webquestions_io.py:137 | at a position without a match the scan moves on by one; at a match it yields the capture and resumes after the match |
| WebQuestionsAnswers.FindAllFromCaptured | questionanswering/datasets/webquestions_io.py:137 | every item `re.findall` returns is the capture of a match in the text |
| PatternSearch.FindAllAgree | questionanswering/datasets/webquestions_io.py:137 | a left-to-right scan for non-overlapping matches gives the same items on two texts that agree after the first `d` characters, when their matchers agree there |
| WebQuestionsAnswers.FindAllFromAgree | questionanswering/datasets/webquestions_io.py:137 | `re.findall` from a position gives the same answers on a text with `d` characters fewer in front, scanning from `d` places earlier |
| WebQuestionsAnswers.FindAllFromShift | questionanswering/datasets/webquestions_io.py:137 | scanning `a + b` from a position inside `b` gives the answers of `b` alone |
| WebQuestionsAnswers.SkipPositions | questionanswering/datasets/webquestions_io.py:137 | positions where `(description ` does not start contribute no answers |
| WebQuestionsAnswers.SkipText | questionanswering/datasets/webquestions_io.py:137 | a prefix holding no `(description ` adds no answers |
| WebQuestionsAnswers.Answers | questionanswering/datasets/webquestions_io.py:126-137 | no answer holds a `)` or a line break; `AnswerCaptured`, `QuotedItemThenRest` and `BareItemThenRest` state where each answer comes from and in what order |
| WebQuestionsAnswers.CapturesClean | questionanswering/datasets/webquestions_io.py:137 | no capture of the pattern holds a `)` or a line break |
| WebQuestionsAnswers.AnswerCaptured | questionanswering/datasets/webquestions_io.py:137 | every answer is a capture of the pattern and contains no `)` and no line break |
| WebQuestionsAnswers.NoItemNoAnswers | questionanswering/datasets/webquestions_io.py:137 | text without `(description ` yields no answers |
| WebQuestionsAnswers.QuotedItemThenRest | questionanswering/datasets/webquestions_io.py:137 | `(description "a")` followed by more text yields `a` followed by the answers of the rest |
| WebQuestionsAnswers.BareItemThenRest | questionanswering/datasets/webquestions_io.py:137 | `(description a)` followed by more text yields `a` followed by the answers of the rest |
| WebQuestionsAnswers.QuotedAnswerExample | questionanswering/datasets/webquestions_io.py:132-133 | the first documented example yields `['Padmé Amidala']` |
| WebQuestionsAnswers.MixedAnswersExample | questionanswering/datasets/webquestions_io.py:134-135 | the second documented example yields the four documented answers |
| WebQuestionsAnswers.Lower | questionanswering/datasets/webquestions_io.py:120 | lower-casing keeps the length, leaves no upper-case letter and changes only upper-case letters |
| WebQuestionsAnswers.LowerFacts | questionanswering/datasets/webquestions_io.py:120 | lower-casing is idempotent and distributes over concatenation |
| WebQuestionsAnswers.GoldAnswers | questionanswering/datasets/webquestions_io.py:120 | the gold answers are the answers, each lower-cased |
| WebQuestionsEntity.RemoveAll | questionanswering/datasets/webquestions_io.py:153 | `replace(prefix, "")` never lengthens the text |
| WebQuestionsEntity.RemoveAllAbsent | questionanswering/datasets/webquestions_io.py:153 | text without the prefix is unchanged |
| WebQuestionsEntity.RemoveAllLeading | questionanswering/datasets/webquestions_io.py:153 | a leading prefix is removed |
| WebQuestionsEntity.Split | questionanswering/datasets/webquestions_io.py:153 | `split("_")` gives one part more than underscores, no part holds `_`, and joining with `_` gives the text back |
| WebQuestionsEntity.SplitWithout | questionanswering/datasets/webquestions_io.py:153 | text without `_` is one part |
| WebQuestionsEntity.SplitAtFirst | questionanswering/datasets/webquestions_io.py:153 | splitting cuts at the first `_` and splits the rest |
| WebQuestionsEntity.TitleFacts | questionanswering/datasets/webquestions_io.py:154 | `title()` changes only letter case, is idempotent and keeps which characters are letters |
| WebQuestionsEntity.Title | questionanswering/datasets/webquestions_io.py:154 | `title()` keeps the length |
| WebQuestionsEntity.MainEntityOf | questionanswering/datasets/webquestions_io.py:151-155 | `()` iff the url is missing or empty; otherwise tag `URL` and one token more than underscores in the stripped url |
| WebQuestionsEntity.LowerJoin | questionanswering/datasets/webquestions_io.py:153-154 | lower-casing a join is joining the lower-cased parts |
| WebQuestionsEntity.MainEntityTokens | questionanswering/datasets/webquestions_io.py:151-154 | joined with `_`, the tokens give the stripped url back up to case; no token holds `_` |
| WebQuestionsEntity.NataliePortmanExample | questionanswering/datasets/webquestions_io.py:146-147 | the documented url yields `(['Natalie', 'Portman'], 'URL')` |
| WebQuestionsEntity.NataliePortmanRemoved | questionanswering/datasets/webquestions_io.py:146-153 | removing the Freebase prefix from the documented url leaves `natalie_portman` |
| WebQuestionsEntity.NataliePortmanTokens | questionanswering/datasets/webquestions_io.py:146-154 | splitting `natalie_portman` at `_` and title-casing gives `Natalie`, `Portman` |
| WebQuestionsEntity.NoUrlExample | questionanswering/datasets/webquestions_io.py:148-149 | a question without url yields `()` |
| WebQuestionsSamples.SampleIndices | questionanswering/datasets/webquestions_io.py:41-44 | every collected index has a silver graph with F1 above the threshold and a non-empty choice list |
| WebQuestionsSamples.SampleIndicesAppend | questionanswering/datasets/webquestions_io.py:41-44 | the filter keeps question order (distributes over concatenation) |
| WebQuestionsSamples.SampleIndicesComplete | questionanswering/datasets/webquestions_io.py:41-44 | every question meeting the condition has its index collected |
| WebQuestionsSamples.NegativePool | questionanswering/datasets/webquestions_io.py:53-54 | a choice graph is in the pool iff its edge set differs from every kept silver graph's |
| WebQuestionsSamples.ArgMax | questionanswering/datasets/webquestions_io.py:63 | `np.argmax` is a position of a maximum with no earlier equal value |
| WebQuestionsSamples.DrawNegatives | questionanswering/datasets/webquestions_io.py:56-61 | raises iff the pool is non-empty and the size negative; otherwise size draws from the pool (distinct positions when the pool is large enough) or padding copies |
| WebQuestionsSamples.IndexedSample | questionanswering/datasets/webquestions_io.py:50-66 | raises exactly in the failing cases; otherwise the graphs of a shuffle of kept silver graphs plus negatives, targeting the argmax |
| WebQuestionsSamples.SampleLength | questionanswering/datasets/webquestions_io.py:52-61 | a graph list has `max.negative.samples` graphs when no more silver graphs are kept, else only the kept ones and the pool was empty |
| WebQuestionsSamples.SampleTarget | questionanswering/datasets/webquestions_io.py:62-64 | the target is the first graph of maximal F1, no kept silver graph scores higher, and it is a scored silver graph when one scores above zero |
| WebQuestionsSamples.SampleGraphs | questionanswering/datasets/webquestions_io.py:52-64 | every sample graph is a kept silver graph, a pool graph or the padding graph |
| WebQuestionsSamples.DefaultsNeverFail | questionanswering/datasets/webquestions_io.py:52-59 | with the default parameters no index raises |
| WebQuestionsSamples.IndexedSamples | questionanswering/datasets/webquestions_io.py:47-67 | succeeds iff no index fails, with one possible sample per index |
| WebQuestionsSamples.QuestionSamples | questionanswering/datasets/webquestions_io.py:40-45 | `_get_samples` is `_get_indexed_samples` of the collected indices |
| WebQuestionsSamples.Batches | questionanswering/datasets/webquestions_io.py:102-103 | every batch is non-empty and at most `batch_size` long |
| WebQuestionsSamples.BatchAt | questionanswering/datasets/webquestions_io.py:102-103 | batch k is `indices[k*size : (k+1)*size]`, cut at the end |
| WebQuestionsSamples.BatchAtOffset | questionanswering/datasets/webquestions_io.py:102-103 | batch k starts at the k-th offset (k additions of `batch_size`) and ends at the next offset, cut at the end |
| WebQuestionsSamples.BatchWithin | questionanswering/datasets/webquestions_io.py:102-103 | every index of a batch is one of the collected indices |
| WebQuestionsSamples.BatchesFlatten | questionanswering/datasets/webquestions_io.py:102-103 | the batches of one cycle concatenate back to the indices |
| WebQuestionsSamples.BatchesCount | questionanswering/datasets/webquestions_io.py:102 | as many batches as offsets `range(0, len, size)` |
| WebQuestionsSamples.BatchCycle | questionanswering/datasets/webquestions_io.py:102-103 | the offset loop produces `Batches(indices, size)` |
| WebQuestionsSamples.TrainingCycle | questionanswering/datasets/webquestions_io.py:98-104 | the results of the batches of the collected indices in order, up to and including the first batch that raises: each succeeds iff no index of its batch fails, and then holds one possible sample per index; every result before the last succeeds, and the cycle stops early only after a failure |
| WebQuestionsSamples.BatchSamples | questionanswering/datasets/webquestions_io.py:47-67 | `_get_indexed_samples` of one batch, as line 104 calls it, succeeds iff no index in it fails, and then holds one possible sample per index (graphs of kept silver graphs and negatives, the argmax target) |
| WebQuestionsSamples.ValidationWithGold | questionanswering/datasets/webquestions_io.py:115-123 | one graph list per validation question, its choice graphs |
| WebQuestionsSamples.ValidationAnswers | questionanswering/datasets/webquestions_io.py:120 | the gold answers are the lower-cased answers: stable under lower-casing, no upper-case letter, `)` or line break |

## Left out

- The knowledge-base queries are oracle functions of `Oracles.Backend`. This covers Wikidata access, denotations, label/map post-processing, F1 scoring, entity labelling and linking, the whitelist and the restrict/expand actions. Their caching, network errors and `clear_cache` are not modelled.
- Logging, `tqdm` progress bars and the `iterations` counters have no effect on results and are left out.
- `generate_with_model` returns `None` and has no behaviour to model.
- The `while pool` loops of `generate_with_gold` and `generate_without_gold` run for at most `fuel` rounds. A search that never empties its pool is not modelled beyond that bound.
- The restrict and expand action sets of `generate_without_gold` are Python sets. The model takes them as sequences in a given order, because set iteration order is not fixed.
- Graphs are values. In-place mutation is modelled by returning the updated graph. Aliasing between a caller's dictionary and the pool is modelled only where the loop relies on it, in the labelling of pooled graphs in `generate_without_gold`. `graph.copy_graph` is taken to be a deep copy that adds `entities: []`; `graph.py` is not part of this model.
- Apply.DocumentedExamples: leaves out the `hopup0v` example. The code never reads that key, so the documented output is not what the code produces; `Apply.HopupExampleIgnored` states what it does produce.
- The doctests of `generate_with_gold` and `approximate_groundings` depend on live Wikidata answers and are not stated.
- An absent `edgeSet` is the empty edge set, as every reader of it defaults it.
- NoGold.KeepWhitelisted: requires every edge to carry a `kbID`. The source calls `[:-1]` on `e.get("kbID")` and raises a TypeError on an edge without one; that crash is not modelled.
- GoldGrounding.SortByF1: states sortedness and permutation only. The stability of Python's `sorted` among equal F-scores is not proved.
- F-scores and the thresholds are exact reals: `NEGATIVE_F1_BELOW` is 1/100, and the search compares against `RESTRICT_BELOW_F1` (7/10) and `GOOD_ENOUGH_F1` (9/10). The source compares Python floats with the float literals 0.01, 0.7 and 0.9, whose binary values differ slightly from those rationals; that rounding is not modelled, so a score equal to such a float may fall on the other side of a threshold.
- Letter case is ASCII only in `Lower` and `Title`. Python's Unicode `lower()` and `title()` are not modelled.
- WebQuestionsAnswers.CloseFrom: the regular expression is modelled directly as a scanner for this one pattern. It is not a general regular-expression engine.
- The `WebQuestions` constructor loads JSON files and checks their lengths. That is I/O and left out; the loaded data is the `Dataset` value.
- WebQuestionsSamples.SampleIndices, WebQuestionsSamples.IndexedSample, WebQuestionsSamples.IndexedSamples, WebQuestionsSamples.QuestionSamples, WebQuestionsSamples.TrainingCycle, WebQuestionsSamples.BatchSamples and WebQuestionsSamples.ValidationWithGold: require every question index to address both graph lists (`Indexed`, or an index within the choice graphs for `ValidationWithGold`). An index past the end of the loaded lists makes Python raise an IndexError, and a negative index reads from the end of a list; neither case is modelled.
- A question without `targetValue` makes `re.findall` raise a TypeError. In the model every question has one.
- `max.silver.samples` is a natural number. Python's slicing with a negative bound is not modelled.
- `np.random.choice` and `np.random.shuffle` are arbitrary choices: any draw of the right size from the pool, and any permutation. The probability distribution is not modelled.
- The targets are natural numbers; numpy's `int32` array is not modelled.
- `get_training_generator` repeats its cycle without end. `TrainingCycle` models one cycle, which ends early at the first batch that raises, as the exception ends the generator.
- WebQuestionsSamples.TrainingCycle: requires `batch_size > 0`. With `batch_size == 0`, Python's `range(0, n, 0)` raises a ValueError, and with a negative `batch_size` the range is empty, so `itertools.cycle` ends the generator without yielding; neither case is modelled.
- GoldSearch.Search: calls the refinement as the function `Refiner`, which `RefineWithGold` is proved to compute, rather than calling that method inside the loop.
- GoldGrounding.ScanInputs: is called from `GroundWithGold` with the function `Grounder`, which is `ground_one_with_gold` (a comprehension over the backend's answers, modelled as the function `GroundOne`).

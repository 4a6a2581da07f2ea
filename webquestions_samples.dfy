/**
 * The training and validation data of the `WebQuestions` dataset: which questions yield training
 * samples, how each sample's graph list is filled up with negative graphs, which graph is its
 * target, how one cycle of the training generator cuts the question indices into batches, and the
 * validation graphs with their gold answers.
 */
module WebQuestionsSamples {
  import opened Wrappers
  import opened Sequences
  import opened Graphs
  import opened Oracles
  import opened WebQuestionsAnswers

  /** A silver graph entry: `(graph,)` without scores, or `(graph, (precision, recall, f1), ...)`. */
  datatype SilverEntry = SilverEntry(graph: Graph, scores: Option<Scores>)

  /** A question object: its `index` into the graph files, its `url` and its `targetValue`. */
  datatype Question = Question(index: nat, url: Option<string>, targetValue: string)

  /** The loaded silver graphs and choice graphs (each choice graph already reduced to `g[0]`). */
  datatype Dataset = Dataset(silver: seq<seq<SilverEntry>>, choice: seq<seq<Graph>>)

  /** `f1.samples.threshold`, `max.silver.samples` and `max.negative.samples`. */
  datatype Parameters = Parameters(f1Threshold: real, maxSilver: nat, maxNegative: int)

  /** The values used when the parameters do not set them. */
  const DEFAULTS := Parameters(0.5, 15, 30)

  /** The padding graph `{'edgeSet': []}`. */
  const PADDING := Graph(None, None, [])

  /** One sample: its graph list and the position of the target graph in it. */
  datatype Sample = Sample(graphs: seq<Graph>, target: nat)

  /** What `_get_indexed_samples` returns: `(graph_lists, targets)`. */
  datatype Samples = Samples(graphLists: seq<seq<Graph>>, targets: seq<nat>)

  predicate Indexed(ds: Dataset, index: nat) {
    index < |ds.silver| && index < |ds.choice|
  }

  /** `len(g) > 1 and g[1][2] > threshold` */
  predicate GoodSilver(e: SilverEntry, threshold: real) {
    e.scores.Some? && e.scores.value.f1 > threshold
  }

  /** The condition `_get_samples` puts on a question index. */
  predicate Trainable(ds: Dataset, p: Parameters, index: nat)
    requires Indexed(ds, index)
  {
    (exists e :: e in ds.silver[index] && GoodSilver(e, p.f1Threshold)) && ds.choice[index] != []
  }

  /** The indices `_get_samples` and `get_training_generator` collect, in question order. */
  function SampleIndices(ds: Dataset, p: Parameters, questions: seq<Question>): (r: seq<nat>)
    requires forall q :: q in questions ==> Indexed(ds, q.index)
    ensures |r| <= |questions|
    ensures forall i :: i in r ==> Indexed(ds, i) && Trainable(ds, p, i)
    decreases |questions|
  {
    if |questions| == 0 then []
    else
      var q := questions[|questions| - 1];
      var rest := SampleIndices(ds, p, questions[..|questions| - 1]);
      if Trainable(ds, p, q.index) then rest + [q.index] else rest
  }

  /** The filter keeps the question order: it distributes over concatenation. */
  lemma {:induction false} SampleIndicesAppend(ds: Dataset, p: Parameters, a: seq<Question>, b: seq<Question>)
    requires forall q :: q in a + b ==> Indexed(ds, q.index)
    ensures SampleIndices(ds, p, a + b) == SampleIndices(ds, p, a) + SampleIndices(ds, p, b)
    decreases |b|
  {
    assert forall q :: q in a ==> q in a + b;
    assert forall q :: q in b ==> q in a + b;
    if |b| == 0 {
      assert a + b == a;
    } else {
      var b' := b[..|b| - 1];
      assert (a + b)[..|a + b| - 1] == a + b';
      assert forall q :: q in a + b' ==> q in a + b;
      SampleIndicesAppend(ds, p, a, b');
    }
  }

  /** Every trainable question's index is collected. */
  lemma {:induction false} SampleIndicesComplete(ds: Dataset, p: Parameters, questions: seq<Question>, k: nat)
    requires forall q :: q in questions ==> Indexed(ds, q.index)
    requires k < |questions| && Trainable(ds, p, questions[k].index)
    ensures questions[k].index in SampleIndices(ds, p, questions)
    decreases |questions|
  {
    if k < |questions| - 1 {
      SampleIndicesComplete(ds, p, questions[..|questions| - 1], k);
    }
  }

  /** `graph_list[:max_silver]` */
  function Kept(ds: Dataset, p: Parameters, index: nat): (r: seq<SilverEntry>)
    requires Indexed(ds, index)
  {
    var s := ds.silver[index];
    if |s| <= p.maxSilver then s else s[..p.maxSilver]
  }

  /** `all(n_g.get('edgeSet', []) != g[0].get('edgeSet', []) for g in kept)` */
  predicate UnlikeAll(n: Graph, kept: seq<SilverEntry>) {
    forall e :: e in kept ==> n.edgeSet != e.graph.edgeSet
  }

  /** The choice graphs whose edge set differs from that of every kept silver graph, in order. */
  function NegativePool(kept: seq<SilverEntry>, choices: seq<Graph>): (r: seq<Graph>)
    ensures |r| <= |choices|
    ensures forall n :: n in r <==> n in choices && UnlikeAll(n, kept)
    decreases |choices|
  {
    if |choices| == 0 then []
    else
      var init := choices[..|choices| - 1];
      var n := choices[|choices| - 1];
      assert choices == init + [n];
      var rest := NegativePool(kept, init);
      if UnlikeAll(n, kept) then rest + [n] else rest
  }

  function Pool(ds: Dataset, p: Parameters, index: nat): seq<Graph>
    requires Indexed(ds, index)
  {
    NegativePool(Kept(ds, p, index), ds.choice[index])
  }

  /** `negative_pool_size`, negative when more silver graphs are kept than the maximum. */
  function NegativeSize(ds: Dataset, p: Parameters, index: nat): int
    requires Indexed(ds, index)
  {
    p.maxNegative - |Kept(ds, p, index)|
  }

  /** `g[1][2] if len(g) > 1 else 0.0` */
  function F1Of(e: SilverEntry): real {
    if e.scores.Some? then e.scores.value.f1 else 0.0
  }

  function F1s(entries: seq<SilverEntry>): seq<real> {
    MapSeq(F1Of, entries)
  }

  /** `el[0]` */
  function GraphOf(e: SilverEntry): Graph {
    e.graph
  }

  function GraphsOf(entries: seq<SilverEntry>): seq<Graph> {
    MapSeq(GraphOf, entries)
  }

  /** `(n_g,)` */
  function Unscored(g: Graph): SilverEntry {
    SilverEntry(g, None)
  }

  /** `np.argmax`: the first position of a maximal value. */
  function ArgMax(xs: seq<real>): (r: nat)
    requires |xs| > 0
    ensures r < |xs|
    ensures forall k :: 0 <= k < |xs| ==> xs[k] <= xs[r]
    ensures forall k :: 0 <= k < r ==> xs[k] < xs[r]
    decreases |xs|
  {
    if |xs| == 1 then 0
    else
      var m := ArgMax(xs[..|xs| - 1]);
      if xs[|xs| - 1] > xs[m] then |xs| - 1 else m
  }

  /**
   * When `_get_indexed_samples` raises for an index: `np.random.choice` refuses a negative size,
   * and `np.argmax` refuses an empty list.
   */
  predicate Fails(ds: Dataset, p: Parameters, index: nat)
    requires Indexed(ds, index)
  {
    var size := NegativeSize(ds, p, index);
    (Pool(ds, p, index) != [] && size < 0) || (|Kept(ds, p, index)| == 0 && size <= 0)
  }

  /**
   * The negatives added to a graph list: `size` draws from a non-empty pool (any pool graphs when
   * the pool is smaller than `size`, distinct pool positions otherwise), or copies of the padding
   * graph when the pool is empty; all without scores.
   */
  ghost predicate Drawn(pool: seq<Graph>, size: int, negatives: seq<SilverEntry>) {
    && (forall k :: 0 <= k < |negatives| ==> negatives[k].scores.None?)
    && if pool == [] then GraphsOf(negatives) == Repeat(PADDING, if size < 0 then 0 else size)
       else
         && size >= 0 && |negatives| == size
         && if |pool| < size then forall k :: 0 <= k < |negatives| ==> negatives[k].graph in pool
            else multiset(GraphsOf(negatives)) <= multiset(pool)
  }

  /**
   * A sample `_get_indexed_samples` can produce for `index`: the graphs of a shuffle of the kept
   * silver entries and the drawn negatives, with the target the first entry of maximal F1.
   */
  ghost predicate PossibleSample(ds: Dataset, p: Parameters, index: nat, s: Sample, entries: seq<SilverEntry>, negatives: seq<SilverEntry>)
    requires Indexed(ds, index)
  {
    && Drawn(Pool(ds, p, index), NegativeSize(ds, p, index), negatives)
    && multiset(entries) == multiset(Kept(ds, p, index) + negatives)
    && |entries| > 0
    && s.graphs == GraphsOf(entries)
    && s.target == ArgMax(F1s(entries))
  }

  /**
   * The negatives of one graph list: `np.random.choice` from a non-empty pool, with replacement
   * exactly when the pool is smaller than the size, or the padding list `[({'edgeSet': []},)] * size`
   * for an empty pool. The draw is an arbitrary choice.
   */
  method DrawNegatives(pool: seq<Graph>, size: int) returns (r: Result<seq<SilverEntry>, string>)
    ensures r.Err? <==> pool != [] && size < 0
    ensures r.Ok? ==> Drawn(pool, size, r.value)
  {
    if pool == [] {
      var padding := Repeat(Unscored(PADDING), if size < 0 then 0 else size);
      assert GraphsOf(padding) == Repeat(PADDING, if size < 0 then 0 else size);
      return Ok(padding);
    }
    if size < 0 {
      return Err("negative dimensions are not allowed");
    }
    var picks: seq<Graph>;
    if |pool| < size {
      var some := Repeat(pool[0], size);
      assert |some| == size && forall n :: n in some ==> n in pool;
      picks :| |picks| == size && forall n :: n in picks ==> n in pool;
    } else {
      var some := pool[..size];
      assert |some| == size && multiset(some) <= multiset(pool) by {
        assert pool == some + pool[size..];
      }
      picks :| |picks| == size && multiset(picks) <= multiset(pool);
    }
    var drawn := MapSeq(Unscored, picks);
    assert GraphsOf(drawn) == picks;
    assert forall k :: 0 <= k < |drawn| ==> drawn[k].graph == picks[k] && picks[k] in picks;
    r := Ok(drawn);
  }

  /**
   * One pass of the `_get_indexed_samples` loop body. The shuffle is an arbitrary permutation;
   * `entries` and `negatives` report the shuffled list and the drawn negatives.
   */
  method IndexedSample(ds: Dataset, p: Parameters, index: nat) returns (r: Result<Sample, string>, ghost entries: seq<SilverEntry>, ghost negatives: seq<SilverEntry>)
    requires Indexed(ds, index)
    ensures r.Err? <==> Fails(ds, p, index)
    ensures r.Ok? ==> PossibleSample(ds, p, index, r.value, entries, negatives)
  {
    var graphList := Kept(ds, p, index);
    var drawn := DrawNegatives(Pool(ds, p, index), NegativeSize(ds, p, index));
    if drawn.Err? {
      return Err(drawn.error), [], [];
    }
    assert |drawn.value| == |GraphsOf(drawn.value)|;
    graphList := graphList + drawn.value;
    var shuffled :| multiset(shuffled) == multiset(graphList);
    assert |shuffled| == |multiset(shuffled)| == |graphList|;
    if |shuffled| == 0 {
      return Err("attempt to get argmax of an empty sequence"), [], [];
    }
    r := Ok(Sample(GraphsOf(shuffled), ArgMax(F1s(shuffled))));
    entries, negatives := shuffled, drawn.value;
  }

  /** Lengths of the graph list: `max.negative.samples` whenever no more silver graphs are kept. */
  lemma SampleLength(ds: Dataset, p: Parameters, index: nat, s: Sample, entries: seq<SilverEntry>, negatives: seq<SilverEntry>)
    requires Indexed(ds, index) && PossibleSample(ds, p, index, s, entries, negatives)
    ensures |Kept(ds, p, index)| <= p.maxNegative ==> |s.graphs| == p.maxNegative
    ensures |Kept(ds, p, index)| > p.maxNegative ==> |s.graphs| == |Kept(ds, p, index)| && Pool(ds, p, index) == []
  {
    var kept := Kept(ds, p, index);
    assert |entries| == |multiset(entries)| == |multiset(kept + negatives)| == |kept| + |negatives|;
    if Pool(ds, p, index) == [] {
      assert |negatives| == |GraphsOf(negatives)|;
    }
  }

  /**
   * The target is the first graph of maximal F1; no kept silver graph scores higher, and when
   * some kept silver graph has a positive F1 the target is a scored silver graph.
   */
  lemma SampleTarget(ds: Dataset, p: Parameters, index: nat, s: Sample, entries: seq<SilverEntry>, negatives: seq<SilverEntry>)
    requires Indexed(ds, index) && PossibleSample(ds, p, index, s, entries, negatives)
    ensures s.target < |s.graphs| && s.graphs[s.target] == entries[s.target].graph
    ensures forall k :: 0 <= k < s.target ==> F1Of(entries[k]) < F1Of(entries[s.target])
    ensures forall e :: e in Kept(ds, p, index) ==> F1Of(e) <= F1Of(entries[s.target])
    ensures (exists e :: e in Kept(ds, p, index) && F1Of(e) > 0.0) ==>
      entries[s.target] in Kept(ds, p, index) && entries[s.target].scores.Some?
  {
    var kept := Kept(ds, p, index);
    var t := s.target;
    var f1s := F1s(entries);
    forall e | e in kept
      ensures F1Of(e) <= F1Of(entries[t])
    {
      assert e in multiset(kept + negatives);
      assert e in multiset(entries);
      var k :| 0 <= k < |entries| && entries[k] == e;
      assert f1s[k] <= f1s[t];
    }
    if exists e :: e in kept && F1Of(e) > 0.0 {
      var e :| e in kept && F1Of(e) > 0.0;
      assert F1Of(entries[t]) > 0.0;
      assert entries[t] in multiset(kept + negatives);
      assert forall k :: 0 <= k < |negatives| ==> F1Of(negatives[k]) == 0.0;
      assert entries[t] !in negatives;
    }
  }

  /** Every graph of a sample is a kept silver graph, a pool graph or the padding graph. */
  lemma SampleGraphs(ds: Dataset, p: Parameters, index: nat, s: Sample, entries: seq<SilverEntry>, negatives: seq<SilverEntry>)
    requires Indexed(ds, index) && PossibleSample(ds, p, index, s, entries, negatives)
    ensures forall g :: g in s.graphs ==> g in GraphsOf(Kept(ds, p, index)) || g in Pool(ds, p, index) || g == PADDING
  {
    var kept := Kept(ds, p, index);
    var pool := Pool(ds, p, index);
    forall g | g in s.graphs
      ensures g in GraphsOf(kept) || g in pool || g == PADDING
    {
      var k :| 0 <= k < |s.graphs| && s.graphs[k] == g;
      var e := entries[k];
      assert e in multiset(kept + negatives);
      if e in kept {
        var j :| 0 <= j < |kept| && kept[j] == e;
        assert GraphsOf(kept)[j] == g;
      } else {
        assert e in negatives;
        var j :| 0 <= j < |negatives| && negatives[j] == e;
        assert GraphsOf(negatives)[j] == g;
        if pool == [] {
          assert GraphsOf(negatives)[j] == PADDING;
        } else if |pool| >= NegativeSize(ds, p, index) {
          assert g in multiset(GraphsOf(negatives));
        }
      }
    }
  }

  /** With the default parameters no index makes `_get_indexed_samples` raise. */
  lemma DefaultsNeverFail(ds: Dataset, index: nat)
    requires Indexed(ds, index)
    ensures !Fails(ds, DEFAULTS, index)
  {
    assert |Kept(ds, DEFAULTS, index)| <= 15;
  }

  /** Each produced sample is a possible sample for its index. */
  ghost predicate SamplesOf(ds: Dataset, p: Parameters, indices: seq<nat>, out: Samples, entries: seq<seq<SilverEntry>>, negatives: seq<seq<SilverEntry>>)
    requires forall i :: i in indices ==> Indexed(ds, i)
  {
    && |out.graphLists| == |indices| && |out.targets| == |indices|
    && |entries| == |indices| && |negatives| == |indices|
    && forall k :: 0 <= k < |indices| ==>
      PossibleSample(ds, p, indices[k], Sample(out.graphLists[k], out.targets[k]), entries[k], negatives[k])
  }

  /** `_get_indexed_samples`: one sample per index, or the first index's exception. */
  method IndexedSamples(ds: Dataset, p: Parameters, indices: seq<nat>) returns (r: Result<Samples, string>, ghost entries: seq<seq<SilverEntry>>, ghost negatives: seq<seq<SilverEntry>>)
    requires forall i :: i in indices ==> Indexed(ds, i)
    ensures r.Ok? <==> forall k :: 0 <= k < |indices| ==> !Fails(ds, p, indices[k])
    ensures r.Ok? ==> SamplesOf(ds, p, indices, r.value, entries, negatives)
  {
    var graphLists: seq<seq<Graph>> := [];
    var targets: seq<nat> := [];
    entries, negatives := [], [];
    for i := 0 to |indices|
      invariant forall k :: 0 <= k < i ==> !Fails(ds, p, indices[k])
      invariant forall k :: 0 <= k < i ==> indices[k] in indices[..i]
      invariant SamplesOf(ds, p, indices[..i], Samples(graphLists, targets), entries, negatives)
    {
      assert indices[i] in indices;
      var sample;
      ghost var e, n;
      sample, e, n := IndexedSample(ds, p, indices[i]);
      if sample.Err? {
        return Err(sample.error), [], [];
      }
      graphLists := graphLists + [sample.value.graphs];
      targets := targets + [sample.value.target];
      entries, negatives := entries + [e], negatives + [n];
      assert indices[..i + 1] == indices[..i] + [indices[i]];
    }
    assert indices[..|indices|] == indices;
    r := Ok(Samples(graphLists, targets));
  }

  /**
   * `_get_samples` (and so `get_training_samples` and `get_validation_samples`): the samples of
   * the trainable questions.
   */
  method QuestionSamples(ds: Dataset, p: Parameters, questions: seq<Question>) returns (r: Result<Samples, string>, ghost entries: seq<seq<SilverEntry>>, ghost negatives: seq<seq<SilverEntry>>)
    requires forall q :: q in questions ==> Indexed(ds, q.index)
    ensures r.Ok? <==> forall i :: i in SampleIndices(ds, p, questions) ==> !Fails(ds, p, i)
    ensures r.Ok? ==> SamplesOf(ds, p, SampleIndices(ds, p, questions), r.value, entries, negatives)
  {
    var indices := SampleIndices(ds, p, questions);
    r, entries, negatives := IndexedSamples(ds, p, indices);
  }

  function Min(a: int, b: int): int {
    if a <= b then a else b
  }

  /** `[indices[i:i + size] for i in range(0, len(indices), size)]`: one cycle of batches. */
  function Batches(xs: seq<nat>, size: nat): (r: seq<seq<nat>>)
    requires size > 0
    ensures forall k :: 0 <= k < |r| ==> 0 < |r[k]| <= size

    decreases |xs|
  {
    if |xs| == 0 then []
    else if |xs| <= size then [xs]
    else [xs[..size]] + Batches(xs[size..], size)
  }

  /** `k * size`, counted out by repeated addition so that proofs about batches stay linear. */
  function Offset(k: nat, size: nat): nat {
    if k == 0 then 0 else Offset(k - 1, size) + size
  }

  lemma {:induction false} OffsetIs(k: nat, size: nat)
    ensures Offset(k, size) == k * size
  {
    if k > 0 {
      OffsetIs(k - 1, size);
      assert k * size == (k - 1) * size + size;
    }
  }

  /** Batch `k` starts at offset `k` and runs up to the next offset, cut at the end. */
  lemma {:induction false} BatchAtOffset(xs: seq<nat>, size: nat, k: nat)
    requires size > 0 && k < |Batches(xs, size)|
    ensures Offset(k, size) < |xs| && Batches(xs, size)[k] == xs[Offset(k, size)..Min(Offset(k + 1, size), |xs|)]
    decreases |xs|
  {
    if k > 0 {
      var rest := xs[size..];
      BatchAtOffset(rest, size, k - 1);
      DropSlice(xs, size, Offset(k - 1, size), Min(Offset(k, size), |rest|));
    }
  }

  /** Batch `k` is the slice of `size` indices from offset `k * size`, cut at the end. */
  lemma BatchAt(xs: seq<nat>, size: nat, k: nat)
    requires size > 0 && k < |Batches(xs, size)|
    ensures k * size < |xs| && Batches(xs, size)[k] == xs[k * size..Min((k + 1) * size, |xs|)]
  {
    BatchAtOffset(xs, size, k);
    OffsetIs(k, size);
    OffsetIs(k + 1, size);
  }

  /** Batch `k` holds only indices from `xs`. */
  lemma BatchWithin(xs: seq<nat>, size: nat, k: nat)
    requires size > 0 && k < |Batches(xs, size)|
    ensures forall i :: i in Batches(xs, size)[k] ==> i in xs
  {
    BatchAtOffset(xs, size, k);
    var lo, hi := Offset(k, size), Min(Offset(k + 1, size), |xs|);
    forall i | i in xs[lo..hi]
      ensures i in xs
    {
      var j :| 0 <= j < hi - lo && xs[lo..hi][j] == i;
      assert xs[lo + j] == i;
    }
  }

  /** The batches of one cycle concatenate back to the indices. */
  lemma {:induction false} BatchesFlatten(xs: seq<nat>, size: nat)
    requires size > 0
    ensures Flatten(Batches(xs, size)) == xs
    decreases |xs|
  {
    if 0 < |xs| <= size {
      FlattenSingle(xs);
    } else if |xs| > size {
      var head, rest := xs[..size], xs[size..];
      BatchesFlatten(rest, size);
      FlattenAppend([head], Batches(rest, size));
      FlattenSingle(head);
      assert head + rest == xs;
    }
  }

  /** There are as many batches as offsets `0, size, 2 * size, ...` below the length. */
  lemma {:induction false} BatchesCount(xs: seq<nat>, size: nat)
    requires size > 0
    ensures (|Batches(xs, size)| - 1) * size < |xs| <= |Batches(xs, size)| * size
    decreases |xs|
  {
    if |xs| > size {
      var n := |Batches(xs[size..], size)|;
      BatchesCount(xs[size..], size);
      assert (n + 1) * size == n * size + size;
    }
  }

  /** The offset loop of `get_training_generator`, over one cycle. */
  method BatchCycle(indices: seq<nat>, batchSize: nat) returns (batches: seq<seq<nat>>)
    requires batchSize > 0
    ensures batches == Batches(indices, batchSize)
  {
    batches := [];
    var i := 0;
    while i < |indices|
      invariant batches + Batches(indices[Min(i, |indices|)..], batchSize) == Batches(indices, batchSize)
      decreases |indices| - i
    {
      var rest := indices[i..];
      var batch := indices[i..Min(i + batchSize, |indices|)];
      if |rest| <= batchSize {
        assert batch == rest;
        assert indices[|indices|..] == [];
      } else {
        assert batch == rest[..batchSize];
        assert rest[batchSize..] == indices[i + batchSize..];
      }
      batches := batches + [batch];
      i := i + batchSize;
    }
  }

  /** What `_get_indexed_samples` yields for one batch: samples for all of it exactly when none of its indices raises. */
  ghost predicate BatchOutcome(ds: Dataset, p: Parameters, batch: seq<nat>, r: Result<Samples, string>) {
    && (r.Ok? <==> forall j :: 0 <= j < |batch| ==> Indexed(ds, batch[j]) && !Fails(ds, p, batch[j]))
    && (r.Ok? ==> (forall i :: i in batch ==> Indexed(ds, i)) && exists entries, negatives :: SamplesOf(ds, p, batch, r.value, entries, negatives))
  }

  /**
   * One cycle of `get_training_generator`: the samples of each batch of trainable training
   * questions, in batch order. A batch whose samples raise ends the generator, so no later batch
   * is yielded. Without such a batch the generator repeats this cycle without end.
   */
  method TrainingCycle(ds: Dataset, p: Parameters, questions: seq<Question>, batchSize: nat) returns (results: seq<Result<Samples, string>>)
    requires forall q :: q in questions ==> Indexed(ds, q.index)
    requires batchSize > 0
    ensures var batches := Batches(SampleIndices(ds, p, questions), batchSize);
      && |results| <= |batches|
      && (forall k :: 0 <= k < |results| ==> BatchOutcome(ds, p, batches[k], results[k]))
      && (forall k :: 0 <= k < |results| - 1 ==> results[k].Ok?)
      && (|results| < |batches| ==> |results| > 0 && results[|results| - 1].Err?)
  {
    var indices := SampleIndices(ds, p, questions);
    var batches := BatchCycle(indices, batchSize);
    results := [];
    var k := 0;
    while k < |batches|
      invariant k == |results| <= |batches|
      invariant forall m :: 0 <= m < k ==> BatchOutcome(ds, p, batches[m], results[m])
      invariant forall m :: 0 <= m < k ==> results[m].Ok?
    {
      BatchWithin(indices, batchSize, k);
      var r := BatchSamples(ds, p, batches[k]);
      OutcomesExtend(ds, p, batches, results, r);
      results := results + [r];
      if r.Err? {
        return;
      }
      k := k + 1;
    }
  }

  /** Appending the outcome of the next batch keeps every earlier batch's outcome. */
  lemma OutcomesExtend(ds: Dataset, p: Parameters, batches: seq<seq<nat>>, results: seq<Result<Samples, string>>, r: Result<Samples, string>)
    requires |results| < |batches|
    requires forall m :: 0 <= m < |results| ==> BatchOutcome(ds, p, batches[m], results[m])
    requires BatchOutcome(ds, p, batches[|results|], r)
    ensures forall m :: 0 <= m < |results| + 1 ==> BatchOutcome(ds, p, batches[m], (results + [r])[m])
  {
    forall m | 0 <= m < |results| + 1
      ensures BatchOutcome(ds, p, batches[m], (results + [r])[m])
    {
      if m < |results| {
        assert (results + [r])[m] == results[m];
      } else {
        assert (results + [r])[m] == r;
      }
    }
  }

  /** The samples of one batch, as `get_training_generator` yields them. */
  method BatchSamples(ds: Dataset, p: Parameters, batch: seq<nat>) returns (r: Result<Samples, string>)
    requires forall i :: i in batch ==> Indexed(ds, i)
    ensures BatchOutcome(ds, p, batch, r)
  {
    ghost var entries, negatives;
    r, entries, negatives := IndexedSamples(ds, p, batch);
    if r.Ok? {
      assert SamplesOf(ds, p, batch, r.value, entries, negatives);
    }
  }

  /** `get_validation_with_gold`: each validation question's choice graphs and its lower-cased answers. */
  function ValidationWithGold(ds: Dataset, questions: seq<Question>): (r: (seq<seq<Graph>>, seq<seq<string>>))
    requires forall q :: q in questions ==> q.index < |ds.choice|
    ensures |r.0| == |questions| && |r.1| == |questions|
    ensures forall k :: 0 <= k < |questions| ==> r.0[k] == ds.choice[questions[k].index]
  {
    (seq(|questions|, k requires 0 <= k < |questions| => ds.choice[questions[k].index]),
     MapSeq((q: Question) => GoldAnswers(q.targetValue), questions))
  }

  /**
   * The gold answers are the question's answers lower-cased: lower-casing them again changes
   * nothing, and none holds an upper-case letter, a `)` or a line break.
   */
  lemma ValidationAnswers(ds: Dataset, questions: seq<Question>, k: nat, j: nat)
    requires forall q :: q in questions ==> q.index < |ds.choice|
    requires k < |questions| && j < |ValidationWithGold(ds, questions).1[k]|
    ensures var a := ValidationWithGold(ds, questions).1[k][j];
      && |ValidationWithGold(ds, questions).1[k]| == |Answers(questions[k].targetValue)|
      && a == Lower(Answers(questions[k].targetValue)[j])
      && Lower(a) == a
      && (forall i :: 0 <= i < |a| ==> !IsUpper(a[i]))
      && ')' !in a && '\n' !in a
  {
    var answer := Answers(questions[k].targetValue)[j];
    var a := Lower(answer);
    var b, e := AnswerCaptured(questions[k].targetValue, j);
    LowerFacts(answer, []);
    forall i | 0 <= i < |a|
      ensures a[i] != ')' && a[i] != '\n'
    {
      assert answer[i] in answer;
    }
  }
}

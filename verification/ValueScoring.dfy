/**
 Scoring many recorded states: equal graphs are scored once, and what is left is scored in
 batches.  Graphs count as equal when their keys are; the code's key is a hash of the
 graph's canonical text.
 */
module ValueScoring {
  import opened Wrappers
  import opened GraphBatch

  datatype ScoringError = EncoderMissing | BatchSizeNotPositive

  /** The first position whose graph has the key of position i. */
  function First<X, K(==)>(key: Graph<X> -> K, graphs: seq<Graph<X>>, i: nat): (j: nat)
    requires i < |graphs|
    ensures j <= i && key(graphs[j]) == key(graphs[i])
    ensures forall k :: 0 <= k < j ==> key(graphs[k]) != key(graphs[i])
  {
    FirstFrom(key, graphs, i, 0)
  }

  function FirstFrom<X, K(==)>(key: Graph<X> -> K, graphs: seq<Graph<X>>, i: nat, from: nat): (j: nat)
    requires from <= i < |graphs|
    requires forall k :: 0 <= k < from ==> key(graphs[k]) != key(graphs[i])
    ensures from <= j <= i && key(graphs[j]) == key(graphs[i])
    ensures forall k :: 0 <= k < j ==> key(graphs[k]) != key(graphs[i])
    decreases i - from
  {
    if key(graphs[from]) == key(graphs[i]) then from else FirstFrom(key, graphs, i, from + 1)
  }

  lemma FirstAgrees<X, K>(key: Graph<X> -> K, graphs: seq<Graph<X>>, i: nat, j: nat)
    requires i < |graphs| && j < |graphs| && key(graphs[i]) == key(graphs[j])
    ensures First(key, graphs, i) == First(key, graphs, j)
  {
  }

  /** The table finds exactly the graphs kept so far. */
  predicate Table<X, K(==)>(key: Graph<X> -> K, unique: map<K, nat>, distinct: seq<Graph<X>>) {
    && (forall k :: k in unique ==> unique[k] < |distinct| && key(distinct[unique[k]]) == k)
    && (forall a :: 0 <= a < |distinct| ==> key(distinct[a]) in unique && unique[key(distinct[a])] == a)
  }

  lemma TableGrows<X, K>(key: Graph<X> -> K, unique: map<K, nat>, distinct: seq<Graph<X>>, g: Graph<X>)
    requires Table(key, unique, distinct) && key(g) !in unique
    ensures Table(key, unique[key(g) := |distinct|], distinct + [g])
  {
  }

  lemma EmptyTable<X, K>(key: Graph<X> -> K)
    ensures Table(key, map[], [])
  {
  }

  lemma TableFinds<X, K>(key: Graph<X> -> K, unique: map<K, nat>, distinct: seq<Graph<X>>, k: K)
    requires Table(key, unique, distinct) && k in unique
    ensures unique[k] < |distinct| && key(distinct[unique[k]]) == k
  {
  }

  lemma TableTellsApart<X, K>(key: Graph<X> -> K, unique: map<K, nat>, distinct: seq<Graph<X>>)
    requires Table(key, unique, distinct)
    ensures forall a, b :: 0 <= a < b < |distinct| ==> key(distinct[a]) != key(distinct[b])
  {
  }

  lemma NewKeyIsFirst<X, K>(key: Graph<X> -> K, graphs: seq<Graph<X>>, i: nat, unique: map<K, nat>)
    requires i < |graphs| && key(graphs[i]) !in unique
    requires forall m :: 0 <= m < i ==> key(graphs[m]) in unique
    ensures First(key, graphs, i) == i
  {
  }

  /** origin gives the first position of each graph kept from the first i. */
  ghost predicate Origins<X, K>(key: Graph<X> -> K, graphs: seq<Graph<X>>, i: nat, distinct: seq<Graph<X>>,
                                origin: seq<nat>)
  {
    && |origin| == |distinct| && i <= |graphs|
    && forall a :: 0 <= a < |origin| ==>
         origin[a] < i && distinct[a] == graphs[origin[a]] && First(key, graphs, origin[a]) == origin[a]
  }

  /** The distinct graphs in order of appearance, and for each state the position of its own. */
  method Deduplicate<X, K(==)>(key: Graph<X> -> K, graphs: seq<Graph<X>>)
    returns (distinct: seq<Graph<X>>, positions: seq<nat>)
    ensures |positions| == |graphs|
    ensures forall i :: 0 <= i < |graphs| ==>
              positions[i] < |distinct| && distinct[positions[i]] == graphs[First(key, graphs, i)]
    ensures forall a, b :: 0 <= a < b < |distinct| ==> key(distinct[a]) != key(distinct[b])
    ensures forall g :: g in distinct ==> g in graphs
  {
    hide First, Table;
    distinct, positions := [], [];
    var unique: map<K, nat> := map[];
    ghost var origin: seq<nat> := [];
    EmptyTable(key);
    for i := 0 to |graphs|
      invariant |positions| == i && Table(key, unique, distinct) && Origins(key, graphs, i, distinct, origin)
      invariant forall m :: 0 <= m < i ==> key(graphs[m]) in unique
      invariant forall m :: 0 <= m < i ==> positions[m] < |distinct| && First(key, graphs, m) == origin[positions[m]]
    {
      var k := key(graphs[i]);
      if k !in unique {
        TableGrows(key, unique, distinct, graphs[i]);
        NewKeyIsFirst(key, graphs, i, unique);
        unique := unique[k := |distinct|];
        distinct, origin := distinct + [graphs[i]], origin + [i];
      } else {
        TableFinds(key, unique, distinct, k);
        FirstAgrees(key, graphs, i, origin[unique[k]]);
      }
      positions := positions + [unique[k]];
    }
    TableTellsApart(key, unique, distinct);
  }

  /** The score of every state, in the order of the states, for every batch size.  The model
      comes with a text encoder or without one. */
  method PredictStates<X, V, P, R, K(==)>(model: Model<X, V, P, R>, encoder: bool, key: Graph<X> -> K,
                                          graphs: seq<Graph<X>>, batch: int)
    returns (scores: Result<seq<R>, ScoringError>)
    requires AllWellFormed(graphs)
    ensures scores == Failure(EncoderMissing) <==> !encoder
    ensures scores == Failure(BatchSizeNotPositive) <==> encoder && batch <= 0
    ensures scores.Success? ==> |scores.value| == |graphs|
    ensures scores.Success? ==>
              forall i :: 0 <= i < |graphs| ==> scores.value[i] == Single(model, graphs[First(key, graphs, i)])
  {
    if !encoder { return Failure(EncoderMissing); }
    if batch <= 0 { return Failure(BatchSizeNotPositive); }
    var distinct, positions := Deduplicate(key, graphs);
    assert AllWellFormed(distinct) by {
      forall a | 0 <= a < |distinct| ensures WellFormed(distinct[a]) { assert distinct[a] in graphs; }
    }
    var values := ScoreInBatches(model, distinct, batch);
    var result: seq<R> := [];
    for i := 0 to |positions|
      invariant |result| == i
      invariant forall k :: 0 <= k < i ==> result[k] == values[positions[k]]
    {
      result := result + [values[positions[i]]];
    }
    scores := Success(result);
  }

  method ScoreInBatches<X, V, P, R>(model: Model<X, V, P, R>, graphs: seq<Graph<X>>, batch: nat)
    returns (values: seq<R>)
    requires batch > 0 && AllWellFormed(graphs)
    ensures |values| == |graphs|
    ensures forall i :: 0 <= i < |graphs| ==> values[i] == Single(model, graphs[i])
  {
    values := [];
    var start := 0;
    while start < |graphs|
      invariant |values| == if start < |graphs| then start else |graphs|
      invariant forall k :: 0 <= k < |values| ==> values[k] == Single(model, graphs[k])
    {
      var end := if start + batch < |graphs| then start + batch else |graphs|;
      var part := ForwardBatch(model, graphs[start..end]);
      values := values + part;
      start := start + batch;
    }
  }

  /** The states of the list whose keys agree also have the same score on their own. */
  ghost predicate KeysAgreeOnScores<X, V, P, R, K>(model: Model<X, V, P, R>, key: Graph<X> -> K, graphs: seq<Graph<X>>)
    requires AllWellFormed(graphs)
  {
    forall i, j :: 0 <= i < |graphs| && 0 <= j < |graphs| && key(graphs[i]) == key(graphs[j]) ==>
      Single(model, graphs[i]) == Single(model, graphs[j])
  }

  /** Scoring with deduplication is scoring each state on its own, exactly when keys do not
      confuse graphs of the list that score differently. */
  lemma DeduplicationIsExactIff<X, V, P, R, K>(model: Model<X, V, P, R>, key: Graph<X> -> K, graphs: seq<Graph<X>>)
    requires AllWellFormed(graphs)
    ensures KeysAgreeOnScores(model, key, graphs) <==>
            forall i :: 0 <= i < |graphs| ==> Single(model, graphs[First(key, graphs, i)]) == Single(model, graphs[i])
  {
    if forall i :: 0 <= i < |graphs| ==> Single(model, graphs[First(key, graphs, i)]) == Single(model, graphs[i]) {
      forall i, j | 0 <= i < |graphs| && 0 <= j < |graphs| && key(graphs[i]) == key(graphs[j])
        ensures Single(model, graphs[i]) == Single(model, graphs[j])
      {
        FirstAgrees(key, graphs, i, j);
      }
    }
  }

  /** A key that tells the graphs of the list apart never confuses them. */
  lemma InjectiveKeysAgree<X, V, P, R, K>(model: Model<X, V, P, R>, key: Graph<X> -> K, graphs: seq<Graph<X>>, i: nat)
    requires AllWellFormed(graphs) && i < |graphs|
    requires forall a, b :: 0 <= a < |graphs| && 0 <= b < |graphs| && key(graphs[a]) == key(graphs[b]) ==>
               graphs[a] == graphs[b]
    ensures KeysAgreeOnScores(model, key, graphs)
    ensures Single(model, graphs[First(key, graphs, i)]) == Single(model, graphs[i])
  {
  }
}

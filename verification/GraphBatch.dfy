/**
 Relational message passing over many graphs at once.  The batch form lays the graphs side by
 side, with the edges of each shifted past the nodes before it, and cuts the result apart
 again.  Vectors, their addition, the learned maps and the pooling are arbitrary: not even
 commutativity of the addition is used, because the batch form adds the same messages in the
 same order.
 */
module GraphBatch {

  datatype Edge = Edge(source: nat, target: nat, kind: nat)

  datatype Graph<X> = Graph(features: seq<X>, edges: seq<Edge>)

  /** One layer: a projection for each relation, and the map from a node's state, what it has
      received and its degree to its next state. */
  datatype Layer<!V> = Layer(relations: nat, zero: V, add: (V, V) -> V, project: (nat, V) -> V,
                             combine: (V, V, nat) -> V)

  /** embed is the input projection, pool turns the node states of a graph into one vector,
      with a fixed one for a graph without nodes, and read is the head. */
  datatype Model<!X, !V, !P, !R> = Model(embed: X -> V, layers: seq<Layer<V>>, pool: seq<V> -> P, read: P -> R)

  predicate InRange(n: nat, edges: seq<Edge>) {
    forall k :: 0 <= k < |edges| ==> edges[k].source < n && edges[k].target < n
  }

  predicate WellFormed<X>(g: Graph<X>) { InRange(|g.features|, g.edges) }

  predicate AllWellFormed<X>(graphs: seq<Graph<X>>) {
    forall i :: 0 <= i < |graphs| ==> WellFormed(graphs[i])
  }

  // ---------------------------------------------------------------- from records to edges

  datatype RawEdge = RawEdge(source: string, target: string, kind: string)

  predicate Known(ids: seq<string>, e: RawEdge) { e.source in ids && e.target in ids }

  predicate IsLast(ids: seq<string>, p: nat, id: string) {
    p < |ids| && ids[p] == id && forall k :: p < k < |ids| ==> ids[k] != id
  }

  /** The last position of an id. */
  function PositionOf(ids: seq<string>, id: string): (p: nat)
    requires id in ids
    ensures IsLast(ids, p, id)
  {
    if ids[|ids| - 1] == id then |ids| - 1
    else
      assert ids == ids[..|ids| - 1] + [ids[|ids| - 1]];
      PositionOf(ids[..|ids| - 1], id)
  }

  /** Edges whose ends are both known keep their order and point to the last nodes with those
      ids; others are dropped, so a graph made this way is well formed.  kindIndex stands for
      the position of a kind in the fixed list, or 0. */
  method EdgesFromRecords(ids: seq<string>, records: seq<RawEdge>, kindIndex: string -> nat)
    returns (edges: seq<Edge>, ghost origin: seq<nat>)
    ensures InRange(|ids|, edges) && |origin| == |edges|
    ensures forall k :: 0 <= k < |edges| ==>
              && origin[k] < |records| && Known(ids, records[origin[k]])
              && IsLast(ids, edges[k].source, records[origin[k]].source)
              && IsLast(ids, edges[k].target, records[origin[k]].target)
              && edges[k].kind == kindIndex(records[origin[k]].kind)
    ensures forall j, k :: 0 <= j < k < |origin| ==> origin[j] < origin[k]
    ensures forall r :: 0 <= r < |records| && Known(ids, records[r]) ==> r in origin
  {
    edges, origin := [], [];
    for r := 0 to |records|
      invariant InRange(|ids|, edges) && |origin| == |edges|
      invariant forall k :: 0 <= k < |edges| ==>
                  && origin[k] < r && Known(ids, records[origin[k]])
                  && IsLast(ids, edges[k].source, records[origin[k]].source)
                  && IsLast(ids, edges[k].target, records[origin[k]].target)
                  && edges[k].kind == kindIndex(records[origin[k]].kind)
      invariant forall j, k :: 0 <= j < k < |origin| ==> origin[j] < origin[k]
      invariant forall q :: 0 <= q < r && Known(ids, records[q]) ==> q in origin
    {
      var record := records[r];
      if Known(ids, record) {
        edges := edges + [Edge(PositionOf(ids, record.source), PositionOf(ids, record.target), kindIndex(record.kind))];
        origin := origin + [r];
      }
    }
  }

  // ---------------------------------------------------------------- one layer, node by node

  /** Node v after the messages of relation r have been added to sum, in edge order. */
  function Received<V>(layer: Layer<V>, states: seq<V>, edges: seq<Edge>, r: nat, v: nat, sum: V): V
    requires InRange(|states|, edges)
  {
    if edges == [] then sum
    else
      var last := edges[|edges| - 1];
      var before := Received(layer, states, edges[..|edges| - 1], r, v, sum);
      if last.kind == r && last.target == v then layer.add(before, layer.project(r, states[last.source])) else before
  }

  /** What v has received through the first r relations. */
  function Aggregate<V>(layer: Layer<V>, states: seq<V>, edges: seq<Edge>, r: nat, v: nat): V
    requires InRange(|states|, edges)
  {
    if r == 0 then layer.zero
    else Received(layer, states, edges, r - 1, v, Aggregate(layer, states, edges, r - 1, v))
  }

  function Incoming(edges: seq<Edge>, r: nat, v: nat): nat {
    if edges == [] then 0
    else
      var last := edges[|edges| - 1];
      Incoming(edges[..|edges| - 1], r, v) + if last.kind == r && last.target == v then 1 else 0
  }

  function Degree(edges: seq<Edge>, r: nat, v: nat): nat {
    if r == 0 then 1 else Degree(edges, r - 1, v) + Incoming(edges, r - 1, v)
  }

  function Output<V>(layer: Layer<V>, states: seq<V>, edges: seq<Edge>): (out: seq<V>)
    requires InRange(|states|, edges)
    ensures |out| == |states|
  {
    seq(|states|, v requires 0 <= v < |states| =>
      layer.combine(states[v], Aggregate(layer, states, edges, layer.relations, v), Degree(edges, layer.relations, v)))
  }

  function Run<V>(layers: seq<Layer<V>>, states: seq<V>, edges: seq<Edge>): (out: seq<V>)
    requires InRange(|states|, edges)
    ensures |out| == |states|
  {
    if layers == [] then states
    else Output(layers[|layers| - 1], Run(layers[..|layers| - 1], states, edges), edges)
  }

  function Embedded<X, V>(embed: X -> V, features: seq<X>): (r: seq<V>)
    ensures |r| == |features| && forall i :: 0 <= i < |r| ==> r[i] == embed(features[i])
  {
    seq(|features|, i requires 0 <= i < |features| => embed(features[i]))
  }

  /** The node states of a graph evaluated on its own. */
  function NodeStates<X, V, P, R>(model: Model<X, V, P, R>, g: Graph<X>): (r: seq<V>)
    requires WellFormed(g)
    ensures |r| == |g.features|
  {
    Run(model.layers, Embedded(model.embed, g.features), g.edges)
  }

  /** The value of a graph evaluated on its own. */
  function Single<X, V, P, R>(model: Model<X, V, P, R>, g: Graph<X>): R
    requires WellFormed(g)
  {
    model.read(model.pool(NodeStates(model, g)))
  }

  // ---------------------------------------------------------------- the layer as a loop

  /** Adds the messages relation by relation into a buffer for all nodes at once. */
  method Forward<V>(layer: Layer<V>, states: seq<V>, edges: seq<Edge>) returns (out: seq<V>)
    requires InRange(|states|, edges)
    ensures out == Output(layer, states, edges)
  {
    var aggregate := seq(|states|, _ => layer.zero);
    var degree: seq<nat> := seq(|states|, _ => 1);
    for r := 0 to layer.relations
      invariant |aggregate| == |degree| == |states|
      invariant forall v :: 0 <= v < |states| ==> aggregate[v] == Aggregate(layer, states, edges, r, v)
      invariant forall v :: 0 <= v < |states| ==> degree[v] == Degree(edges, r, v)
    {
      aggregate, degree := AddRelation(layer, states, edges, r, aggregate, degree);
    }
    out := [];
    for v := 0 to |states|
      invariant |out| == v
      invariant forall u :: 0 <= u < v ==> out[u] == Output(layer, states, edges)[u]
    {
      out := out + [layer.combine(states[v], aggregate[v], degree[v])];
    }
  }

  method AddRelation<V>(layer: Layer<V>, states: seq<V>, edges: seq<Edge>, r: nat, sums: seq<V>, counts: seq<nat>)
    returns (aggregate: seq<V>, degree: seq<nat>)
    requires InRange(|states|, edges) && |sums| == |counts| == |states|
    ensures |aggregate| == |degree| == |states|
    ensures forall v :: 0 <= v < |states| ==> aggregate[v] == Received(layer, states, edges, r, v, sums[v])
    ensures forall v :: 0 <= v < |states| ==> degree[v] == counts[v] + Incoming(edges, r, v)
  {
    aggregate, degree := sums, counts;
    for k := 0 to |edges|
      invariant |aggregate| == |degree| == |states|
      invariant forall v :: 0 <= v < |states| ==>
                  aggregate[v] == Received(layer, states, edges[..k], r, v, sums[v])
      invariant forall v :: 0 <= v < |states| ==> degree[v] == counts[v] + Incoming(edges[..k], r, v)
    {
      assert edges[..k + 1][..k] == edges[..k];
      var e := edges[k];
      if e.kind == r {
        aggregate := aggregate[e.target := layer.add(aggregate[e.target], layer.project(r, states[e.source]))];
        degree := degree[e.target := degree[e.target] + 1];
      }
    }
    assert edges[..|edges|] == edges;
  }

  method RunLayers<V>(layers: seq<Layer<V>>, states: seq<V>, edges: seq<Edge>) returns (out: seq<V>)
    requires InRange(|states|, edges)
    ensures out == Run(layers, states, edges)
  {
    out := states;
    for i := 0 to |layers|
      invariant |out| == |states| && out == Run(layers[..i], states, edges)
    {
      assert layers[..i + 1][..i] == layers[..i];
      out := Forward(layers[i], out, edges);
    }
    assert layers[..|layers|] == layers;
  }

  // ---------------------------------------------------------------- side by side

  function Shifted(edges: seq<Edge>, offset: nat): (r: seq<Edge>)
    ensures |r| == |edges|
    ensures forall k :: 0 <= k < |r| ==>
              r[k] == Edge(edges[k].source + offset, edges[k].target + offset, edges[k].kind)
  {
    seq(|edges|, k requires 0 <= k < |edges| =>
      Edge(edges[k].source + offset, edges[k].target + offset, edges[k].kind))
  }

  /** Edges of a left part alone, seen in a longer list of states. */
  lemma {:induction false} LeftEdges<V>(layer: Layer<V>, a: seq<V>, b: seq<V>, edges: seq<Edge>, r: nat, v: nat, sum: V)
    requires InRange(|a|, edges) && InRange(|a + b|, edges)
    ensures Received(layer, a + b, edges, r, v, sum) ==
            if v < |a| then Received(layer, a, edges, r, v, sum) else sum
    ensures v >= |a| ==> Incoming(edges, r, v) == 0
  {
    if edges != [] { LeftEdges(layer, a, b, edges[..|edges| - 1], r, v, sum); }
  }

  /** A node of either part receives exactly what it receives there. */
  lemma {:induction false} ReceivedApart<V>(layer: Layer<V>, a: seq<V>, b: seq<V>, ea: seq<Edge>, eb: seq<Edge>,
                                            r: nat, v: nat, sum: V)
    requires InRange(|a|, ea) && InRange(|b|, eb) && v < |a| + |b|
    requires InRange(|a + b|, ea + Shifted(eb, |a|))
    ensures Received(layer, a + b, ea + Shifted(eb, |a|), r, v, sum) ==
            if v < |a| then Received(layer, a, ea, r, v, sum) else Received(layer, b, eb, r, v - |a|, sum)
    ensures Incoming(ea + Shifted(eb, |a|), r, v) ==
            if v < |a| then Incoming(ea, r, v) else Incoming(eb, r, v - |a|)
  {
    var all := ea + Shifted(eb, |a|);
    if eb == [] {
      assert all == ea;
      LeftEdges(layer, a, b, ea, r, v, sum);
    } else {
      var shorter := eb[..|eb| - 1];
      var last := eb[|eb| - 1];
      assert all[..|all| - 1] == ea + Shifted(shorter, |a|);
      assert all[|all| - 1] == Edge(last.source + |a|, last.target + |a|, last.kind);
      assert (a + b)[last.source + |a|] == b[last.source];
      ReceivedApart(layer, a, b, ea, shorter, r, v, sum);
    }
  }

  lemma {:induction false} AggregateApart<V>(layer: Layer<V>, a: seq<V>, b: seq<V>, ea: seq<Edge>, eb: seq<Edge>,
                                             r: nat, v: nat)
    requires InRange(|a|, ea) && InRange(|b|, eb) && v < |a| + |b|
    requires InRange(|a + b|, ea + Shifted(eb, |a|))
    ensures Aggregate(layer, a + b, ea + Shifted(eb, |a|), r, v) ==
            if v < |a| then Aggregate(layer, a, ea, r, v) else Aggregate(layer, b, eb, r, v - |a|)
    ensures Degree(ea + Shifted(eb, |a|), r, v) == if v < |a| then Degree(ea, r, v) else Degree(eb, r, v - |a|)
  {
    if r > 0 {
      AggregateApart(layer, a, b, ea, eb, r - 1, v);
      ReceivedApart(layer, a, b, ea, eb, r - 1, v, Aggregate(layer, a + b, ea + Shifted(eb, |a|), r - 1, v));
    }
  }

  lemma JoinedInRange(n: nat, m: nat, ea: seq<Edge>, eb: seq<Edge>)
    requires InRange(n, ea) && InRange(m, eb)
    ensures InRange(n + m, ea + Shifted(eb, n))
  {
  }

  lemma OutputApart<V>(layer: Layer<V>, a: seq<V>, b: seq<V>, ea: seq<Edge>, eb: seq<Edge>)
    requires InRange(|a|, ea) && InRange(|b|, eb) && InRange(|a + b|, ea + Shifted(eb, |a|))
    ensures Output(layer, a + b, ea + Shifted(eb, |a|)) == Output(layer, a, ea) + Output(layer, b, eb)
  {
    var whole := Output(layer, a + b, ea + Shifted(eb, |a|));
    var parts := Output(layer, a, ea) + Output(layer, b, eb);
    forall v | 0 <= v < |a| + |b| ensures whole[v] == parts[v] {
      AggregateApart(layer, a, b, ea, eb, layer.relations, v);
    }
  }

  /** Through any number of layers, the two parts of a disjoint union do not see each other. */
  lemma {:induction false} RunApart<V>(layers: seq<Layer<V>>, a: seq<V>, b: seq<V>, ea: seq<Edge>, eb: seq<Edge>)
    requires InRange(|a|, ea) && InRange(|b|, eb) && InRange(|a + b|, ea + Shifted(eb, |a|))
    ensures Run(layers, a + b, ea + Shifted(eb, |a|)) == Run(layers, a, ea) + Run(layers, b, eb)
  {
    if layers != [] {
      var fewer := layers[..|layers| - 1];
      RunApart(fewer, a, b, ea, eb);
      OutputApart(layers[|layers| - 1], Run(fewer, a, ea), Run(fewer, b, eb), ea, eb);
    }
  }

  // ---------------------------------------------------------------- many graphs

  /** The disjoint union of the graphs. */
  function Joined<X>(graphs: seq<Graph<X>>): Graph<X> {
    if graphs == [] then Graph([], [])
    else
      var before := Joined(graphs[..|graphs| - 1]);
      var last := graphs[|graphs| - 1];
      Graph(before.features + last.features, before.edges + Shifted(last.edges, |before.features|))
  }

  lemma {:induction false} JoinedWellFormed<X>(graphs: seq<Graph<X>>)
    requires AllWellFormed(graphs)
    ensures WellFormed(Joined(graphs))
  {
    if graphs != [] {
      var before := graphs[..|graphs| - 1];
      JoinedWellFormed(before);
      var last := graphs[|graphs| - 1];
      JoinedInRange(|Joined(before).features|, |last.features|, Joined(before).edges, last.edges);
    }
  }

  /** Where the nodes of graph i start in the union. */
  function Offset<X>(graphs: seq<Graph<X>>, i: nat): nat
    requires i <= |graphs|
  {
    |Joined(graphs[..i]).features|
  }

  /** The piece of the union's states that belongs to graph i is what graph i has on its own. */
  lemma {:induction false} PiecesAreTheirOwn<X, V, P, R>(model: Model<X, V, P, R>, graphs: seq<Graph<X>>, i: nat)
    requires AllWellFormed(graphs) && i < |graphs| && WellFormed(Joined(graphs))
    ensures Offset(graphs, i) + |graphs[i].features| == Offset(graphs, i + 1) <= |Joined(graphs).features|
    ensures NodeStates(model, Joined(graphs))[Offset(graphs, i)..Offset(graphs, i + 1)] == NodeStates(model, graphs[i])
  {
    var n := |graphs|;
    var before := graphs[..n - 1];
    var last := graphs[n - 1];
    JoinedWellFormed(before);
    assert graphs[..i + 1][..i] == graphs[..i];
    assert graphs[..n] == graphs;
    var a, b := Embedded(model.embed, Joined(before).features), Embedded(model.embed, last.features);
    assert Embedded(model.embed, Joined(graphs).features) == a + b;
    RunApart(model.layers, a, b, Joined(before).edges, last.edges);
    if i < n - 1 {
      PiecesAreTheirOwn(model, before, i);
      assert before[..i] == graphs[..i] && before[..i + 1] == graphs[..i + 1];
    }
  }

  /** Lays the graphs side by side with a running offset. */
  method Union<X>(graphs: seq<Graph<X>>) returns (union: Graph<X>)
    ensures union == Joined(graphs)
  {
    var features: seq<X> := [];
    var edges: seq<Edge> := [];
    var offset := 0;
    for i := 0 to |graphs|
      invariant Graph(features, edges) == Joined(graphs[..i]) && offset == |features|
    {
      assert graphs[..i + 1][..i] == graphs[..i];
      features := features + graphs[i].features;
      if graphs[i].edges != [] {
        edges := edges + Shifted(graphs[i].edges, offset);
      } else {
        assert edges + Shifted(graphs[i].edges, offset) == edges;
      }
      offset := offset + |graphs[i].features|;
    }
    assert graphs[..|graphs|] == graphs;
    union := Graph(features, edges);
  }

  /** What a graph encodes to: its node states, and the vector they are pooled to. */
  datatype Encoding<V, P> = Encoding(states: seq<V>, pooled: P)

  /** The encoding of a graph on its own. */
  function EncodingOf<X, V, P, R>(model: Model<X, V, P, R>, g: Graph<X>): Encoding<V, P>
    requires WellFormed(g)
  {
    Encoding(NodeStates(model, g), model.pool(NodeStates(model, g)))
  }

  /** The encoding of every graph, in one pass over their union unless one is empty. */
  method EncodeBatch<X, V, P, R>(model: Model<X, V, P, R>, graphs: seq<Graph<X>>) returns (encoded: seq<Encoding<V, P>>)
    requires AllWellFormed(graphs)
    ensures |encoded| == |graphs|
    ensures forall i :: 0 <= i < |graphs| ==> encoded[i] == EncodingOf(model, graphs[i])
  {
    hide Run;
    encoded := [];
    if graphs == [] { return; }
    if exists i :: 0 <= i < |graphs| && |graphs[i].features| == 0 {
      for i := 0 to |graphs|
        invariant |encoded| == i && forall k :: 0 <= k < i ==> encoded[k] == EncodingOf(model, graphs[k])
      {
        var own := RunLayers(model.layers, Embedded(model.embed, graphs[i].features), graphs[i].edges);
        encoded := encoded + [Encoding(own, model.pool(own))];
      }
      return;
    }
    var union := Union(graphs);
    JoinedWellFormed(graphs);
    var states := RunLayers(model.layers, Embedded(model.embed, union.features), union.edges);
    var cursor := 0;
    for i := 0 to |graphs|
      invariant |encoded| == i && cursor == Offset(graphs, i)
      invariant forall k :: 0 <= k < i ==> encoded[k] == EncodingOf(model, graphs[k])
    {
      PiecesAreTheirOwn(model, graphs, i);
      var chunk := states[cursor..cursor + |graphs[i].features|];
      encoded := encoded + [Encoding(chunk, model.pool(chunk))];
      cursor := cursor + |graphs[i].features|;
    }
  }

  /** The values of a batch: whatever the graphs, each gets the value it has on its own. */
  method ForwardBatch<X, V, P, R>(model: Model<X, V, P, R>, graphs: seq<Graph<X>>) returns (values: seq<R>)
    requires AllWellFormed(graphs)
    ensures |values| == |graphs|
    ensures forall i :: 0 <= i < |graphs| ==> values[i] == Single(model, graphs[i])
  {
    var encoded := EncodeBatch(model, graphs);
    values := [];
    for i := 0 to |graphs|
      invariant |values| == i && forall k :: 0 <= k < i ==> values[k] == Single(model, graphs[k])
    {
      values := values + [model.read(encoded[i].pooled)];
    }
  }
}

/**
 What message passing computes, said without the buffers and sums of GraphBatch: which edges a
 node hears, in which order, and how far it sees through several layers.
 */
module GraphLocality {
  import opened GraphBatch

  // ---------------------------------------------------------------- messages in order

  /** A message to v: an edge into v of a relation that the layer has. */
  predicate IsMessage(relations: nat, edges: seq<Edge>, v: nat, k: nat) {
    k < |edges| && edges[k].target == v && edges[k].kind < relations
  }

  /** The positions of all edges into v of the first relations, relation by relation and in edge
      order within each; there is only one such list. */
  ghost predicate IsInbox(relations: nat, edges: seq<Edge>, v: nat, inbox: seq<nat>) {
    && (forall i :: 0 <= i < |inbox| ==> IsMessage(relations, edges, v, inbox[i]))
    && (forall k: nat :: IsMessage(relations, edges, v, k) ==> k in inbox)
    && (forall i, j :: 0 <= i < j < |inbox| ==> Earlier(edges, inbox[i], inbox[j]))
  }

  predicate Earlier(edges: seq<Edge>, j: nat, k: nat) {
    j < |edges| && k < |edges| && (edges[j].kind < edges[k].kind || (edges[j].kind == edges[k].kind && j < k))
  }

  predicate Readable(edges: seq<Edge>, inbox: seq<nat>) {
    forall i :: 0 <= i < |inbox| ==> inbox[i] < |edges|
  }

  /** The projected states of the sources, added one after the other. */
  function Heard<V>(layer: Layer<V>, states: seq<V>, edges: seq<Edge>, inbox: seq<nat>): V
    requires InRange(|states|, edges) && Readable(edges, inbox)
  {
    if inbox == [] then layer.zero
    else
      var e := edges[inbox[|inbox| - 1]];
      layer.add(Heard(layer, states, edges, inbox[..|inbox| - 1]), layer.project(e.kind, states[e.source]))
  }

  lemma {:induction false} RelationHeard<V>(layer: Layer<V>, states: seq<V>, edges: seq<Edge>, n: nat, r: nat, v: nat,
                                            earlier: seq<nat>) returns (inbox: seq<nat>)
    requires InRange(|states|, edges) && n <= |edges|
    requires IsInbox(r, edges, v, earlier)
    ensures Readable(edges, inbox) && forall i :: 0 <= i < |inbox| ==> IsMessage(r + 1, edges, v, inbox[i])
    ensures forall i :: 0 <= i < |inbox| && edges[inbox[i]].kind == r ==> inbox[i] < n
    ensures forall k: nat :: IsMessage(r, edges, v, k) || (k < n && IsMessage(r + 1, edges, v, k)) ==> k in inbox
    ensures forall i, j :: 0 <= i < j < |inbox| ==> Earlier(edges, inbox[i], inbox[j])
    ensures Heard(layer, states, edges, inbox)
            == Received(layer, states, edges[..n], r, v, Heard(layer, states, edges, earlier))
    ensures |inbox| == |earlier| + Incoming(edges[..n], r, v)
    decreases n
  {
    inbox := earlier;
    if n > 0 {
      inbox := RelationHeard(layer, states, edges, n - 1, r, v, earlier);
      assert edges[..n][..n - 1] == edges[..n - 1];
      if edges[n - 1].kind == r && edges[n - 1].target == v {
        assert (inbox + [n - 1])[..|inbox|] == inbox;
        inbox := inbox + [n - 1];
      }
    }
  }

  lemma {:induction false} InboxHeard<V>(layer: Layer<V>, states: seq<V>, edges: seq<Edge>, r: nat, v: nat)
    returns (inbox: seq<nat>)
    requires InRange(|states|, edges)
    ensures IsInbox(r, edges, v, inbox)
    ensures Heard(layer, states, edges, inbox) == Aggregate(layer, states, edges, r, v)
    ensures 1 + |inbox| == Degree(edges, r, v)
  {
    if r == 0 {
      inbox := [];
    } else {
      inbox := InboxHeard(layer, states, edges, r - 1, v);
      inbox := RelationHeard(layer, states, edges, |edges|, r - 1, v, inbox);
      assert edges[..|edges|] == edges;
    }
  }

  /** What a layer gives node v: its state combined with what it hears along its incoming edges,
      and with one more than their number. */
  lemma LayerHears<V>(layer: Layer<V>, states: seq<V>, edges: seq<Edge>, v: nat) returns (inbox: seq<nat>)
    requires InRange(|states|, edges) && v < |states|
    ensures IsInbox(layer.relations, edges, v, inbox)
    ensures Output(layer, states, edges)[v]
            == layer.combine(states[v], Heard(layer, states, edges, inbox), 1 + |inbox|)
  {
    inbox := InboxHeard(layer, states, edges, layer.relations, v);
  }

  lemma {:induction false} SortedOnce(edges: seq<Edge>, a: seq<nat>, b: seq<nat>)
    requires forall i, j :: 0 <= i < j < |a| ==> Earlier(edges, a[i], a[j])
    requires forall i, j :: 0 <= i < j < |b| ==> Earlier(edges, b[i], b[j])
    requires forall k :: k in a <==> k in b
    ensures a == b
  {
    if a != [] { assert a[0] in b; }
    if b != [] { assert b[0] in a; }
    if a != [] && b != [] {
      var m, n := |a| - 1, |b| - 1;
      assert a[m] in b && b[n] in a;
      var i :| 0 <= i < |b| && b[i] == a[m];
      var j :| 0 <= j < |a| && a[j] == b[n];
      assert i == n;
      forall k ensures k in a[..m] <==> k in b[..n] {
        assert k in a[..m] <==> k in a && k != a[m];
        assert k in b[..n] <==> k in b && k != b[n];
      }
      SortedOnce(edges, a[..m], b[..n]);
    }
  }

  lemma InboxIsUnique(relations: nat, edges: seq<Edge>, v: nat, a: seq<nat>, b: seq<nat>)
    requires IsInbox(relations, edges, v, a) && IsInbox(relations, edges, v, b)
    ensures a == b
  {
    forall k ensures k in a <==> k in b {
      if k in a { var i :| 0 <= i < |a| && a[i] == k; assert IsMessage(relations, edges, v, k); }
      if k in b { var i :| 0 <= i < |b| && b[i] == k; assert IsMessage(relations, edges, v, k); }
    }
    SortedOnce(edges, a, b);
  }

  /** A node that nobody writes to is combined with zero and one. */
  lemma NobodyWrites<V>(layer: Layer<V>, states: seq<V>, edges: seq<Edge>, v: nat)
    requires InRange(|states|, edges) && v < |states| && forall k: nat :: !IsMessage(layer.relations, edges, v, k)
    ensures Output(layer, states, edges)[v] == layer.combine(states[v], layer.zero, 1)
  {
    var inbox := LayerHears(layer, states, edges, v);
    InboxIsUnique(layer.relations, edges, v, inbox, []);
  }

  lemma {:induction false} SameHeard<V>(layer: Layer<V>, a: seq<V>, b: seq<V>, ea: seq<Edge>, eb: seq<Edge>,
                                        inbox: seq<nat>)
    requires InRange(|a|, ea) && InRange(|b|, eb) && Readable(ea, inbox) && Readable(eb, inbox)
    requires forall i :: 0 <= i < |inbox| ==>
               ea[inbox[i]] == eb[inbox[i]] && a[ea[inbox[i]].source] == b[ea[inbox[i]].source]
    ensures Heard(layer, a, ea, inbox) == Heard(layer, b, eb, inbox)
  {
    if inbox != [] { SameHeard(layer, a, b, ea, eb, inbox[..|inbox| - 1]); }
  }

  /** What a node becomes depends on its own state and on those of the nodes with an edge to it,
      and on nothing else. */
  lemma OnlySourcesMatter<V>(layer: Layer<V>, a: seq<V>, b: seq<V>, edges: seq<Edge>, v: nat)
    requires |a| == |b| && InRange(|a|, edges) && v < |a| && a[v] == b[v]
    requires forall k :: 0 <= k < |edges| && edges[k].target == v ==> a[edges[k].source] == b[edges[k].source]
    ensures Output(layer, a, edges)[v] == Output(layer, b, edges)[v]
  {
    var inbox := LayerHears(layer, a, edges, v);
    var other := LayerHears(layer, b, edges, v);
    InboxIsUnique(layer.relations, edges, v, inbox, other);
    forall i | 0 <= i < |inbox| ensures a[edges[inbox[i]].source] == b[edges[inbox[i]].source] {
      assert IsMessage(layer.relations, edges, v, inbox[i]);
    }
    SameHeard(layer, a, b, edges, edges, inbox);
  }

  /** One edge more does not change the nodes it does not point to. */
  lemma EdgeElsewhere<V>(layer: Layer<V>, states: seq<V>, edges: seq<Edge>, e: Edge, v: nat)
    requires InRange(|states|, edges) && InRange(|states|, edges + [e]) && v < |states|
    requires v != e.target || e.kind >= layer.relations
    ensures Output(layer, states, edges + [e])[v] == Output(layer, states, edges)[v]
  {
    hide Output;
    var inbox := LayerHears(layer, states, edges, v);
    var longer := LayerHears(layer, states, edges + [e], v);
    StaysInbox(layer.relations, edges, e, v, inbox);
    InboxIsUnique(layer.relations, edges + [e], v, inbox, longer);
    SameHeard(layer, states, states, edges, edges + [e], inbox);
  }

  lemma StaysInbox(relations: nat, edges: seq<Edge>, e: Edge, v: nat, inbox: seq<nat>)
    requires IsInbox(relations, edges, v, inbox) && (v != e.target || e.kind >= relations)
    ensures IsInbox(relations, edges + [e], v, inbox)
  {
    forall k: nat | IsMessage(relations, edges + [e], v, k) ensures k in inbox {
      assert IsMessage(relations, edges, v, k);
    }
  }

  /** The node that one edge more points to hears the projected state of its source, added to what
      came along the edges of earlier relations and the earlier edges of its own; then comes what
      later relations bring, and the degree is one higher. */
  lemma EdgeHere<V>(layer: Layer<V>, states: seq<V>, edges: seq<Edge>, e: Edge) returns (a: seq<nat>, b: seq<nat>)
    requires InRange(|states|, edges) && e.source < |states| && e.target < |states| && e.kind < layer.relations
    ensures InRange(|states|, edges + [e])
    ensures IsInbox(layer.relations, edges, e.target, a + b) && Divided(edges, e.kind, a, b)
    ensures Readable(edges + [e], a + [|edges|]) && Readable(edges + [e], a + [|edges|] + b)
    ensures Heard(layer, states, edges + [e], a + [|edges|])
            == layer.add(Heard(layer, states, edges, a), layer.project(e.kind, states[e.source]))
    ensures Output(layer, states, edges)[e.target]
            == layer.combine(states[e.target], Heard(layer, states, edges, a + b), 1 + |a + b|)
    ensures Output(layer, states, edges + [e])[e.target]
            == layer.combine(states[e.target], Heard(layer, states, edges + [e], a + [|edges|] + b), 2 + |a + b|)
  {
    hide Output, IsInbox, Divided, Earlier;
    var more := edges + [e];
    var inbox := LayerHears(layer, states, edges, e.target);
    var longer := LayerHears(layer, states, more, e.target);
    InboxIsSorted(layer.relations, edges, e.target, inbox);
    a, b := SplitByKind(edges, inbox, e.kind);
    Inserted(layer.relations, edges, e, a, b);
    InboxIsUnique(layer.relations, more, e.target, a + [|edges|] + b, longer);
    HearsOneMore(layer, states, edges, e, a, b);
  }

  lemma HearsOneMore<V>(layer: Layer<V>, states: seq<V>, edges: seq<Edge>, e: Edge, a: seq<nat>, b: seq<nat>)
    requires InRange(|states|, edges) && InRange(|states|, edges + [e]) && Divided(edges, e.kind, a, b)
    ensures Readable(edges, a) && Readable(edges + [e], a + [|edges|]) && e.source < |states|
    ensures Heard(layer, states, edges + [e], a + [|edges|])
            == layer.add(Heard(layer, states, edges, a), layer.project(e.kind, states[e.source]))
  {
    var more := edges + [e];
    assert more[|edges|] == e;
    assert (a + [|edges|])[..|a|] == a;
    SameHeard(layer, states, states, edges, more, a);
  }

  lemma InboxIsSorted(relations: nat, edges: seq<Edge>, v: nat, inbox: seq<nat>)
    requires IsInbox(relations, edges, v, inbox)
    ensures Readable(edges, inbox) && forall i, j :: 0 <= i < j < |inbox| ==> Earlier(edges, inbox[i], inbox[j])
  {
  }

  /** Messages of relations up to kind, and messages of later ones. */
  predicate Divided(edges: seq<Edge>, kind: nat, a: seq<nat>, b: seq<nat>) {
    && Readable(edges, a) && Readable(edges, b)
    && (forall i :: 0 <= i < |a| ==> edges[a[i]].kind <= kind)
    && (forall i :: 0 <= i < |b| ==> edges[b[i]].kind > kind)
  }

  lemma {:induction false} SplitByKind(edges: seq<Edge>, inbox: seq<nat>, kind: nat) returns (a: seq<nat>, b: seq<nat>)
    requires Readable(edges, inbox)
    requires forall i, j :: 0 <= i < j < |inbox| ==> Earlier(edges, inbox[i], inbox[j])
    ensures inbox == a + b && Divided(edges, kind, a, b)
  {
    if inbox == [] || edges[inbox[|inbox| - 1]].kind <= kind {
      a, b := inbox, [];
    } else {
      a, b := SplitByKind(edges, inbox[..|inbox| - 1], kind);
      b := b + [inbox[|inbox| - 1]];
    }
  }

  lemma Inserted(relations: nat, edges: seq<Edge>, e: Edge, a: seq<nat>, b: seq<nat>)
    requires IsInbox(relations, edges, e.target, a + b) && e.kind < relations
    requires Divided(edges, e.kind, a, b)
    ensures IsInbox(relations, edges + [e], e.target, a + [|edges|] + b)
    ensures Readable(edges + [e], a + [|edges|] + b)
  {
    var more, inbox := edges + [e], a + [|edges|] + b;
    forall i | 0 <= i < |inbox| ensures IsMessage(relations, more, e.target, inbox[i]) {
      if i != |a| { assert IsMessage(relations, edges, e.target, (a + b)[if i < |a| then i else i - 1]); }
    }
    forall k: nat | IsMessage(relations, more, e.target, k) ensures k in inbox {
      if k < |edges| { assert IsMessage(relations, edges, e.target, k); assert k in a + b; }
      else { assert inbox[|a|] == k; }
    }
    forall i, j | 0 <= i < j < |inbox| ensures Earlier(more, inbox[i], inbox[j]) {
      if i != |a| && j != |a| {
        assert Earlier(edges, (a + b)[if i < |a| then i else i - 1], (a + b)[if j < |a| then j else j - 1]);
      }
    }
  }

  /** u is v, or there is a path of at most so many edges from u to v. */
  predicate Near(edges: seq<Edge>, u: nat, v: nat, hops: nat)
    decreases hops
  {
    || u == v
    || (hops > 0
        && exists k :: 0 <= k < |edges| && edges[k].target == v && Near(edges, u, edges[k].source, hops - 1))
  }

  lemma {:induction false} NearStays(edges: seq<Edge>, u: nat, v: nat, hops: nat)
    requires Near(edges, u, v, hops)
    ensures Near(edges, u, v, hops + 1)
    decreases hops
  {
    if u != v {
      var k :| 0 <= k < |edges| && edges[k].target == v && Near(edges, u, edges[k].source, hops - 1);
      NearStays(edges, u, edges[k].source, hops - 1);
    }
  }

  /** Through several layers a node sees as many edges far back as there are layers. */
  lemma {:induction false} RunSeesNeighbourhood<V>(layers: seq<Layer<V>>, a: seq<V>, b: seq<V>, edges: seq<Edge>,
                                                   v: nat)
    requires |a| == |b| && InRange(|a|, edges) && v < |a|
    requires forall u :: 0 <= u < |a| && Near(edges, u, v, |layers|) ==> a[u] == b[u]
    ensures Run(layers, a, edges)[v] == Run(layers, b, edges)[v]
  {
    if layers == [] {
      assert Near(edges, v, v, 0);
    } else {
      var n := |layers| - 1;
      forall u | 0 <= u < |a| && Near(edges, u, v, n) ensures a[u] == b[u] { NearStays(edges, u, v, n); }
      RunSeesNeighbourhood(layers[..n], a, b, edges, v);
      forall k | 0 <= k < |edges| && edges[k].target == v
        ensures Run(layers[..n], a, edges)[edges[k].source] == Run(layers[..n], b, edges)[edges[k].source]
      {
        RunSeesNeighbourhood(layers[..n], a, b, edges, edges[k].source);
      }
      OnlySourcesMatter(layers[n], Run(layers[..n], a, edges), Run(layers[..n], b, edges), edges, v);
    }
  }

  /** Layers are applied from the first to the last. */
  lemma {:induction false} RunComposes<V>(first: seq<Layer<V>>, second: seq<Layer<V>>, states: seq<V>, edges: seq<Edge>)
    requires InRange(|states|, edges)
    ensures Run(first + second, states, edges) == Run(second, Run(first, states, edges), edges)
    decreases second
  {
    if second == [] {
      assert first + second == first;
    } else {
      var n := |second| - 1;
      assert (first + second)[..|first| + n] == first + second[..n];
      RunComposes(first, second[..n], states, edges);
    }
  }
}

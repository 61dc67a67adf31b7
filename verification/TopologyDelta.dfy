/**
 Recorded changes between consecutive snapshots of an organization, and the credit given to
 each.  The lists of a change are kept here as maps by node id and by edge key; the code sorts
 them by the same keys.
 */
module TopologyDelta {
  import opened Wrappers

  datatype Node = Node(id: string, parent: Option<string>, depth: nat, status: string)

  datatype EdgeState = EdgeState(resolved: Option<bool>, active: Option<bool>)

  datatype Edge = Edge(kind: string, source: string, target: string, artifact: Option<string>, state: EdgeState)

  type EdgeKey = (string, string, string, string)

  datatype Snapshot = Snapshot(nodes: seq<Node>, edges: seq<Edge>)

  function KeyOf(e: Edge): EdgeKey {
    (e.kind, e.source, e.target, if e.artifact.Some? then e.artifact.value else "")
  }

  /** The last node with each id. */
  function NodesById(nodes: seq<Node>): (m: map<string, Node>)
    ensures forall id :: id in m ==> m[id].id == id && m[id] in nodes
    ensures forall n :: n in nodes ==> n.id in m
  {
    if nodes == [] then map[]
    else
      var last := nodes[|nodes| - 1];
      assert nodes == nodes[..|nodes| - 1] + [last];
      NodesById(nodes[..|nodes| - 1])[last.id := last]
  }

  function EdgesByKey(edges: seq<Edge>): (m: map<EdgeKey, Edge>)
    ensures forall k :: k in m ==> KeyOf(m[k]) == k && m[k] in edges
    ensures forall e :: e in edges ==> KeyOf(e) in m
  {
    if edges == [] then map[]
    else
      var last := edges[|edges| - 1];
      assert edges == edges[..|edges| - 1] + [last];
      EdgesByKey(edges[..|edges| - 1])[KeyOf(last) := last]
  }

  function MaximumDepth(nodes: seq<Node>): nat {
    if nodes == [] then 0
    else
      var earlier := MaximumDepth(nodes[..|nodes| - 1]);
      if nodes[|nodes| - 1].depth > earlier then nodes[|nodes| - 1].depth else earlier
  }

  lemma {:induction false} DepthIsReached(nodes: seq<Node>)
    ensures forall k :: 0 <= k < |nodes| ==> nodes[k].depth <= MaximumDepth(nodes)
    ensures nodes != [] ==> exists k :: 0 <= k < |nodes| && nodes[k].depth == MaximumDepth(nodes)
  {
    if nodes != [] {
      var n := |nodes| - 1;
      DepthIsReached(nodes[..n]);
      if nodes[n].depth > MaximumDepth(nodes[..n]) || n == 0 {
        assert nodes[n].depth == MaximumDepth(nodes);
      } else {
        var k :| 0 <= k < n && nodes[..n][k].depth == MaximumDepth(nodes[..n]);
        assert nodes[k].depth == MaximumDepth(nodes);
      }
    }
  }

  // ---------------------------------------------------------------- a change of one table

  /** What was added, what was removed, and which states differ on what stayed. */
  datatype Change<!K, E, S> = Change(added: map<K, E>, removed: map<K, E>, altered: map<K, (S, S)>)
  {
    predicate Empty() { added == map[] && removed == map[] && altered == map[] }
  }

  function ChangeOf<K, E, S(==)>(state: E -> S, left: map<K, E>, right: map<K, E>): Change<K, E, S> {
    Change(
      map k | k in right && k !in left :: right[k],
      map k | k in left && k !in right :: left[k],
      map k | k in left && k in right && state(left[k]) != state(right[k]) :: (state(left[k]), state(right[k])))
  }

  function StatesOf<K, E, S>(state: E -> S, table: map<K, E>): map<K, S> {
    map k | k in table :: state(table[k])
  }

  function Forward<K, E, S>(state: E -> S, states: map<K, S>, c: Change<K, E, S>): map<K, S> {
    map k | k in states.Keys + c.added.Keys && k !in c.removed ::
      if k in c.added then state(c.added[k]) else if k in c.altered then c.altered[k].1 else states[k]
  }

  function Backward<K, E, S>(state: E -> S, states: map<K, S>, c: Change<K, E, S>): map<K, S> {
    map k | k in states.Keys + c.removed.Keys && k !in c.added ::
      if k in c.removed then state(c.removed[k]) else if k in c.altered then c.altered[k].0 else states[k]
  }

  lemma ChangeConnects<K, E, S>(state: E -> S, left: map<K, E>, right: map<K, E>)
    ensures Forward(state, StatesOf(state, left), ChangeOf(state, left, right)) == StatesOf(state, right)
    ensures Backward(state, StatesOf(state, right), ChangeOf(state, left, right)) == StatesOf(state, left)
  {
  }

  lemma EmptyChangeIff<K, E, S>(state: E -> S, left: map<K, E>, right: map<K, E>)
    ensures ChangeOf(state, left, right).Empty() <==> StatesOf(state, left) == StatesOf(state, right)
  {
    var c := ChangeOf(state, left, right);
    var a, b := StatesOf(state, left), StatesOf(state, right);
    if c.Empty() {
      ChangeConnects(state, left, right);
      forall k ensures k in left <==> k in right {
        assert k !in c.added && k !in c.removed;
      }
      forall k | k in left ensures a[k] == b[k] {
        assert k !in c.altered;
      }
    }
    if a == b {
      forall k ensures k !in c.added && k !in c.removed && k !in c.altered {
        assert k in a <==> k in b;
        if k in a { assert a[k] == b[k]; }
      }
    }
  }

  // ---------------------------------------------------------------- a change of a snapshot

  datatype Delta = Delta(nodes: Change<string, Node, string>, edges: Change<EdgeKey, Edge, EdgeState>,
                         nodeCountDelta: int, edgeCountDelta: int, depthDelta: int)

  function StatusOf(n: Node): string { n.status }

  function StateOf(e: Edge): EdgeState { e.state }

  function DeltaOf(before: Snapshot, after: Snapshot): Delta {
    Delta(
      ChangeOf(StatusOf, NodesById(before.nodes), NodesById(after.nodes)),
      ChangeOf(StateOf, EdgesByKey(before.edges), EdgesByKey(after.edges)),
      |after.nodes| - |before.nodes|, |after.edges| - |before.edges|,
      MaximumDepth(after.nodes) - MaximumDepth(before.nodes))
  }

  /** The recorded flag: some list of the change is not empty. */
  predicate Changed(d: Delta) { !d.nodes.Empty() || !d.edges.Empty() }

  /** The observable content of a snapshot: node statuses and edge states. */
  datatype View = View(statuses: map<string, string>, edges: map<EdgeKey, EdgeState>)

  function ViewOf(s: Snapshot): View {
    View(StatesOf(StatusOf, NodesById(s.nodes)), StatesOf(StateOf, EdgesByKey(s.edges)))
  }

  /** A view shows the status of the last node with an id, and the state of the last edge of a
      kind between two nodes for an artifact, where no artifact is the same as an empty one. */
  lemma ViewShows(s: Snapshot, i: nat)
    ensures i < |s.nodes| && (forall k :: i < k < |s.nodes| ==> s.nodes[k].id != s.nodes[i].id) ==>
              s.nodes[i].id in ViewOf(s).statuses && ViewOf(s).statuses[s.nodes[i].id] == s.nodes[i].status
    ensures i < |s.edges| && (forall k :: i < k < |s.edges| ==> !SameEdge(s.edges[k], s.edges[i])) ==>
              KeyOf(s.edges[i]) in ViewOf(s).edges && ViewOf(s).edges[KeyOf(s.edges[i])] == s.edges[i].state
  {
    if i < |s.nodes| { LastNodeIsFound(s.nodes, i); }
    if i < |s.edges| { LastEdgeIsFound(s.edges, i); }
  }

  lemma {:induction false} LastNodeIsFound(nodes: seq<Node>, i: nat)
    requires i < |nodes|
    ensures (forall k :: i < k < |nodes| ==> nodes[k].id != nodes[i].id) ==> NodesById(nodes)[nodes[i].id] == nodes[i]
  {
    if i < |nodes| - 1 { LastNodeIsFound(nodes[..|nodes| - 1], i); }
  }

  lemma {:induction false} LastEdgeIsFound(edges: seq<Edge>, i: nat)
    requires i < |edges|
    ensures (forall k :: i < k < |edges| ==> !SameEdge(edges[k], edges[i])) ==>
              EdgesByKey(edges)[KeyOf(edges[i])] == edges[i]
  {
    if i < |edges| - 1 {
      LastEdgeIsFound(edges[..|edges| - 1], i);
      SameKeyIff(edges[|edges| - 1], edges[i]);
    }
  }

  lemma SameKeyIff(e: Edge, f: Edge)
    ensures KeyOf(e) == KeyOf(f) <==> SameEdge(e, f)
  {
  }

  predicate SameEdge(e: Edge, f: Edge) {
    && e.kind == f.kind && e.source == f.source && e.target == f.target
    && (e.artifact == f.artifact || {e.artifact, f.artifact} == {None, Some("")})
  }

  function Replay(v: View, d: Delta): View {
    View(Forward(StatusOf, v.statuses, d.nodes), Forward(StateOf, v.edges, d.edges))
  }

  function Undo(v: View, d: Delta): View {
    View(Backward(StatusOf, v.statuses, d.nodes), Backward(StateOf, v.edges, d.edges))
  }

  /** A change leads from the view before it to the view after it, and back. */
  lemma DeltaConnects(before: Snapshot, after: Snapshot)
    ensures Replay(ViewOf(before), DeltaOf(before, after)) == ViewOf(after)
    ensures Undo(ViewOf(after), DeltaOf(before, after)) == ViewOf(before)
  {
    ChangeConnects(StatusOf, NodesById(before.nodes), NodesById(after.nodes));
    ChangeConnects(StateOf, EdgesByKey(before.edges), EdgesByKey(after.edges));
  }

  /** A change is reported exactly when the views differ: a node that only moves to another
      parent or depth is not reported. */
  lemma ChangedIff(before: Snapshot, after: Snapshot)
    ensures Changed(DeltaOf(before, after)) <==> ViewOf(before) != ViewOf(after)
  {
    EmptyChangeIff(StatusOf, NodesById(before.nodes), NodesById(after.nodes));
    EmptyChangeIff(StateOf, EdgesByKey(before.edges), EdgesByKey(after.edges));
  }

  lemma StatesOfUpdate<K, E, S>(state: E -> S, table: map<K, E>, k: K, e: E)
    ensures StatesOf(state, table[k := e]) == StatesOf(state, table)[k := state(e)]
  {
  }

  lemma {:induction false} SameStatusesSameView(before: seq<Node>, after: seq<Node>)
    requires |before| == |after|
    requires forall k :: 0 <= k < |before| ==> before[k].id == after[k].id && before[k].status == after[k].status
    ensures StatesOf(StatusOf, NodesById(before)) == StatesOf(StatusOf, NodesById(after))
  {
    hide StatesOf;
    if before != [] {
      var n := |before| - 1;
      SameStatusesSameView(before[..n], after[..n]);
      StatesOfUpdate(StatusOf, NodesById(before[..n]), before[n].id, before[n]);
      StatesOfUpdate(StatusOf, NodesById(after[..n]), after[n].id, after[n]);
    }
  }

  /** A node that moves to another parent, one level down, goes unreported. */
  lemma MovedNodeIsNotSeen()
    ensures var before := Snapshot([Node("root", None, 0, "ready"), Node("node-1", Some("root"), 1, "ready"),
                                    Node("node-2", Some("root"), 1, "ready")], []);
            var after := Snapshot([Node("root", None, 0, "ready"), Node("node-1", Some("root"), 1, "ready"),
                                   Node("node-2", Some("node-1"), 2, "ready")], []);
            before.nodes[2] != after.nodes[2] && !Changed(DeltaOf(before, after))
  {
    var before := Snapshot([Node("root", None, 0, "ready"), Node("node-1", Some("root"), 1, "ready"),
                            Node("node-2", Some("root"), 1, "ready")], []);
    var after := Snapshot([Node("root", None, 0, "ready"), Node("node-1", Some("root"), 1, "ready"),
                           Node("node-2", Some("node-1"), 2, "ready")], []);
    SameStatusesSameView(before.nodes, after.nodes);
    ChangedIff(before, after);
  }

  // ---------------------------------------------------------------- whole trajectories

  /** One change for each pair of consecutive snapshots. */
  method BuildDeltas(states: seq<Snapshot>) returns (deltas: seq<Delta>)
    ensures |deltas| == if |states| < 2 then 0 else |states| - 1
    ensures forall k :: 0 <= k < |deltas| ==> deltas[k] == DeltaOf(states[k], states[k + 1])
  {
    hide DeltaOf;
    deltas := [];
    if |states| < 2 { return; }
    for k := 0 to |states| - 1
      invariant |deltas| == k && forall m :: 0 <= m < k ==> deltas[m] == DeltaOf(states[m], states[m + 1])
    {
      deltas := deltas + [DeltaOf(states[k], states[k + 1])];
    }
  }

  function ReplayAll(v: View, deltas: seq<Delta>): View {
    if deltas == [] then v else Replay(ReplayAll(v, deltas[..|deltas| - 1]), deltas[|deltas| - 1])
  }

  function TotalNodeDelta(deltas: seq<Delta>): int {
    if deltas == [] then 0 else TotalNodeDelta(deltas[..|deltas| - 1]) + deltas[|deltas| - 1].nodeCountDelta
  }

  function TotalEdgeDelta(deltas: seq<Delta>): int {
    if deltas == [] then 0 else TotalEdgeDelta(deltas[..|deltas| - 1]) + deltas[|deltas| - 1].edgeCountDelta
  }

  function TotalDepthDelta(deltas: seq<Delta>): int {
    if deltas == [] then 0 else TotalDepthDelta(deltas[..|deltas| - 1]) + deltas[|deltas| - 1].depthDelta
  }

  /** From the first snapshot and the recorded changes every later view can be rebuilt, and node
      counts, edge counts and depths add up. */
  lemma {:induction false} ReplayReproduces(states: seq<Snapshot>, deltas: seq<Delta>)
    requires |states| == |deltas| + 1
    requires forall k :: 0 <= k < |deltas| ==> deltas[k] == DeltaOf(states[k], states[k + 1])
    ensures ReplayAll(ViewOf(states[0]), deltas) == ViewOf(states[|deltas|])
    ensures TotalNodeDelta(deltas) == |states[|deltas|].nodes| - |states[0].nodes|
    ensures TotalEdgeDelta(deltas) == |states[|deltas|].edges| - |states[0].edges|
    ensures TotalDepthDelta(deltas) == MaximumDepth(states[|deltas|].nodes) - MaximumDepth(states[0].nodes)
  {
    if deltas != [] {
      ReplayReproduces(states[..|states| - 1], deltas[..|deltas| - 1]);
      DeltaConnects(states[|deltas| - 1], states[|deltas|]);
    }
  }

  function Repeats(nodes: seq<Node>): int { |nodes| - |NodesById(nodes)| }

  lemma CardinalityOfDifference(a: set<string>, b: set<string>)
    ensures |b| - |a| == |b - a| - |a - b|
  {
  }

  /** The recorded node count is the number of added minus the number of removed nodes exactly
      when the two snapshots repeat ids equally often, in particular when neither does. */
  lemma CountsMatchIff(before: Snapshot, after: Snapshot)
    ensures var d := DeltaOf(before, after);
            d.nodeCountDelta == |d.nodes.added| - |d.nodes.removed| <==> Repeats(before.nodes) == Repeats(after.nodes)
  {
    var left, right := NodesById(before.nodes), NodesById(after.nodes);
    var d := DeltaOf(before, after);
    assert d.nodes.added.Keys == right.Keys - left.Keys;
    assert d.nodes.removed.Keys == left.Keys - right.Keys;
    CardinalityOfDifference(left.Keys, right.Keys);
    assert |d.nodes.added| == |d.nodes.added.Keys| && |d.nodes.removed| == |d.nodes.removed.Keys|;
    assert |left| == |left.Keys| && |right| == |right.Keys|;
  }

  // ---------------------------------------------------------------- credit

  function SumFrom(s: seq<real>, i: nat): real
    requires i <= |s|
    decreases |s| - i
  {
    if i == |s| then 0.0 else s[i] + SumFrom(s, i + 1)
  }

  datatype CreditError = DifferentSizes | TooShort

  datatype Credit = Credit(rewards: seq<real>, returnsToGo: seq<real>)

  /** The reward of each transition is the rise in value, the last one up to the terminal
      reward, and the return from a step is what is still to come. */
  predicate Credits(c: Credit, values: seq<real>, reward: real) {
    && |values| >= 2 && |c.rewards| == |c.returnsToGo| == |values| - 1
    && (forall i :: 0 <= i < |c.rewards| ==> c.returnsToGo[i] == SumFrom(c.rewards, i))
    && SumFrom(c.rewards, 0) == reward - values[0]
    && forall i :: 0 <= i < |values| - 2 ==> c.rewards[i] == values[i + 1] - values[i]
  }

  /** The credit of a group of trajectories.  Rewards telescope, so the check that ends the loop
      of the original never fails. */
  method ProcessCredit(values: seq<seq<real>>, rewards: seq<real>) returns (r: Result<seq<Credit>, CreditError>)
    ensures r == Failure(DifferentSizes) <==> |values| != |rewards|
    ensures r == Failure(TooShort) <==> |values| == |rewards| && exists t :: 0 <= t < |values| && |values[t]| < 2
    ensures r.Success? ==>
              |r.value| == |values| && forall t :: 0 <= t < |values| ==> Credits(r.value[t], values[t], rewards[t])
  {
    if |values| != |rewards| { return Failure(DifferentSizes); }
    var credits: seq<Credit> := [];
    for t := 0 to |values|
      invariant |credits| == t && forall u :: 0 <= u < t ==> Credits(credits[u], values[u], rewards[u])
    {
      if |values[t]| < 2 { return Failure(TooShort); }
      var credit := TrajectoryCredit(values[t], rewards[t]);
      credits := credits + [credit];
    }
    r := Success(credits);
  }

  method TrajectoryCredit(values: seq<real>, reward: real) returns (c: Credit)
    requires |values| >= 2
    ensures Credits(c, values, reward)
  {
    var rewards: seq<real> := [];
    for i := 0 to |values| - 2
      invariant |rewards| == i && forall k :: 0 <= k < i ==> rewards[k] == values[k + 1] - values[k]
    {
      rewards := rewards + [values[i + 1] - values[i]];
    }
    rewards := rewards + [reward - values[|values| - 2]];
    var returnsToGo: seq<real> := [];
    for i := 0 to |values| - 1
      invariant |returnsToGo| == i && forall k :: 0 <= k < i ==> returnsToGo[k] == SumFrom(rewards, k)
    {
      Telescopes(values, rewards, reward, i);
      returnsToGo := returnsToGo + [reward - values[i]];
    }
    Telescopes(values, rewards, reward, 0);
    c := Credit(rewards, returnsToGo);
  }

  lemma {:induction false} Telescopes(values: seq<real>, rewards: seq<real>, reward: real, i: nat)
    requires |values| >= 2 && |rewards| == |values| - 1 && i < |rewards|
    requires forall k :: 0 <= k < |rewards| - 1 ==> rewards[k] == values[k + 1] - values[k]
    requires rewards[|rewards| - 1] == reward - values[|values| - 2]
    ensures SumFrom(rewards, i) == reward - values[i]
    decreases |rewards| - i
  {
    if i < |rewards| - 1 { Telescopes(values, rewards, reward, i + 1); }
  }
}

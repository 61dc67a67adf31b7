/**
 The gold answer of the routing problem: least costs from the first node of an undirected
 graph, by a queue whose outdated entries are skipped when they are popped.
 */
module ShortestPath {

  /** The value that stands for "not reached yet". */
  const UNREACHED: int := 1_000_000_000_000_000_000

  datatype Road = Road(left: nat, right: nat, weight: int)

  /** One direction of a road. */
  datatype Step = Step(source: nat, target: nat, weight: int)

  datatype Entry = Entry(distance: int, node: nat)

  // ---------------------------------------------------------------- the graph

  /** Closed roads are left out and one road carries a toll. */
  function Adjusted(roads: seq<Road>, closed: set<(nat, nat)>, tollRoad: (nat, nat), toll: int): seq<Road> {
    if roads == [] then []
    else
      var earlier := Adjusted(roads[..|roads| - 1], closed, tollRoad, toll);
      var road := roads[|roads| - 1];
      if (road.left, road.right) in closed then earlier
      else earlier + [if (road.left, road.right) == tollRoad then road.(weight := road.weight + toll) else road]
  }

  /** The ends of every road are nodes and its weight is positive. */
  predicate Proper(n: nat, roads: seq<Road>) {
    forall k :: 0 <= k < |roads| ==> roads[k].left < n && roads[k].right < n && roads[k].weight > 0
  }

  predicate HasStep(roads: seq<Road>, s: Step) {
    Road(s.source, s.target, s.weight) in roads || Road(s.target, s.source, s.weight) in roads
  }

  // ---------------------------------------------------------------- walks

  predicate IsWalk(roads: seq<Road>, walk: seq<Step>, target: nat)
  {
    if walk == [] then target == 0
    else
      var last := walk[|walk| - 1];
      last.target == target && HasStep(roads, last) && IsWalk(roads, walk[..|walk| - 1], last.source)
  }

  function Cost(walk: seq<Step>): int {
    if walk == [] then 0 else Cost(walk[..|walk| - 1]) + walk[|walk| - 1].weight
  }

  ghost predicate Reaches(roads: seq<Road>, target: nat, cost: int) {
    exists walk :: IsWalk(roads, walk, target) && Cost(walk) == cost
  }

  lemma StepExtendsWalk(roads: seq<Road>, s: Step, cost: int)
    requires Reaches(roads, s.source, cost) && HasStep(roads, s)
    ensures Reaches(roads, s.target, cost + s.weight)
  {
    var walk :| IsWalk(roads, walk, s.source) && Cost(walk) == cost;
    assert (walk + [s])[..|walk|] == walk;
    assert IsWalk(roads, walk + [s], s.target) && Cost(walk + [s]) == cost + s.weight;
  }

  // ---------------------------------------------------------------- adjacency lists

  /** What has been entered for node v after the given roads. */
  function Neighbours(roads: seq<Road>, v: nat): (r: seq<(nat, int)>)
  {
    if roads == [] then []
    else
      var road := roads[|roads| - 1];
      Neighbours(roads[..|roads| - 1], v)
      + (if road.left == v then [(road.right, road.weight)] else [])
      + (if road.right == v then [(road.left, road.weight)] else [])
  }

  lemma {:induction false} NeighboursAreSteps(roads: seq<Road>, v: nat, u: nat, w: int)
    ensures (u, w) in Neighbours(roads, v) <==> HasStep(roads, Step(v, u, w))
  {
    if roads != [] {
      var earlier := roads[..|roads| - 1];
      var road := roads[|roads| - 1];
      NeighboursAreSteps(earlier, v, u, w);
      assert roads == earlier + [road];
    }
  }

  function TotalNeighbours(n: nat, roads: seq<Road>): nat {
    if n == 0 then 0 else TotalNeighbours(n - 1, roads) + |Neighbours(roads, n - 1)|
  }

  lemma {:induction false} NeighboursOfOneMore(n: nat, roads: seq<Road>)
    requires roads != []
    ensures TotalNeighbours(n, roads) == TotalNeighbours(n, roads[..|roads| - 1])
              + (if roads[|roads| - 1].left < n then 1 else 0) + (if roads[|roads| - 1].right < n then 1 else 0)
  {
    if n > 0 { NeighboursOfOneMore(n - 1, roads); }
  }

  /** Each road is entered twice, once in each direction. */
  lemma {:induction false} TwoEntriesPerRoad(n: nat, roads: seq<Road>)
    requires Proper(n, roads)
    ensures TotalNeighbours(n, roads) == 2 * |roads|
  {
    if roads == [] {
      NoRoadsNoNeighbours(n);
    } else {
      TwoEntriesPerRoad(n, roads[..|roads| - 1]);
      NeighboursOfOneMore(n, roads);
    }
  }

  lemma {:induction false} NoRoadsNoNeighbours(n: nat)
    ensures TotalNeighbours(n, []) == 0
  {
    if n > 0 { NoRoadsNoNeighbours(n - 1); }
  }

  method BuildAdjacency(n: nat, roads: seq<Road>) returns (adjacency: seq<seq<(nat, int)>>)
    requires Proper(n, roads)
    ensures |adjacency| == n && forall v :: 0 <= v < n ==> adjacency[v] == Neighbours(roads, v)
  {
    adjacency := seq(n, _ => []);
    for k := 0 to |roads|
      invariant |adjacency| == n && forall v :: 0 <= v < n ==> adjacency[v] == Neighbours(roads[..k], v)
    {
      var road := roads[k];
      assert roads[..k + 1][..k] == roads[..k];
      ghost var before := adjacency;
      adjacency := adjacency[road.left := adjacency[road.left] + [(road.right, road.weight)]];
      adjacency := adjacency[road.right := adjacency[road.right] + [(road.left, road.weight)]];
    }
    assert roads[..|roads|] == roads;
  }

  // ---------------------------------------------------------------- the queue

  predicate NoLater(a: Entry, b: Entry) {
    a.distance < b.distance || (a.distance == b.distance && a.node <= b.node)
  }

  /** Takes out a least entry. */
  method PopLeast(queue: seq<Entry>) returns (least: Entry, rest: seq<Entry>)
    requires queue != []
    ensures multiset(queue) == multiset(rest) + multiset{least}
    ensures |rest| == |queue| - 1
    ensures forall e :: e in rest ==> NoLater(least, e)
  {
    var at := 0;
    for i := 1 to |queue|
      invariant at < i <= |queue|
      invariant forall k :: 0 <= k < i ==> NoLater(queue[at], queue[k])
    {
      if !NoLater(queue[at], queue[i]) { at := i; }
    }
    least := queue[at];
    rest := queue[..at] + queue[at + 1..];
    assert queue == queue[..at] + [least] + queue[at + 1..];
    forall e | e in rest ensures NoLater(least, e) { assert e in queue; }
  }

  /** No entry occurs twice. */
  predicate Distinct(queue: seq<Entry>) {
    forall e :: e in queue ==> multiset(queue)[e] == 1
  }

  lemma PoppedStaysDistinct(queue: seq<Entry>, least: Entry, rest: seq<Entry>)
    requires Distinct(queue) && multiset(queue) == multiset(rest) + multiset{least}
    ensures Distinct(rest) && least in queue
    ensures forall e :: e in rest <==> e in queue && e != least
  {
    assert multiset(queue)[least] > 0;
    forall e ensures e in rest <==> e in queue && e != least {
      assert e in queue <==> multiset(queue)[e] > 0;
      assert e in rest <==> multiset(rest)[e] > 0;
      assert multiset(queue)[e] == multiset(rest)[e] + multiset{least}[e];
    }
    forall e | e in rest ensures multiset(rest)[e] == 1 {
      assert multiset(queue)[e] == multiset(rest)[e] + multiset{least}[e];
    }
  }

  // ---------------------------------------------------------------- the loop invariant

  /** Every distance is the cost of a walk, or the mark for "not reached". */
  ghost predicate Attained(roads: seq<Road>, d: seq<int>) {
    && |d| > 0 && d[0] == 0
    && forall v :: 0 <= v < |d| ==> 0 <= d[v] <= UNREACHED && (d[v] < UNREACHED ==> Reaches(roads, v, d[v]))
  }

  /** An entry is up to date or outdated, never optimistic; a reached node that has not been
      expanded has its up-to-date entry in the queue, an expanded one has not. */
  predicate Queued(d: seq<int>, queue: seq<Entry>, expanded: seq<nat>) {
    && Distinct(queue)
    && (forall e :: e in queue ==> e.node < |d| && d[e.node] <= e.distance < UNREACHED)
    && (forall v :: 0 <= v < |d| && d[v] < UNREACHED ==> (Entry(d[v], v) in queue <==> v !in expanded))
  }

  /** Expanded nodes are no farther than anything still queued. */
  predicate Settled(d: seq<int>, queue: seq<Entry>, expanded: seq<nat>) {
    && (forall v :: v in expanded ==> v < |d| && d[v] < UNREACHED)
    && (forall v, e :: v in expanded && e in queue ==> d[v] <= e.distance)
    && (forall i, j :: 0 <= i < j < |expanded| ==> expanded[i] != expanded[j])
  }

  /** No step out of v would shorten anything. */
  predicate RelaxedFrom(roads: seq<Road>, d: seq<int>, v: nat)
    requires v < |d|
  {
    forall k :: 0 <= k < |Neighbours(roads, v)| ==> Relaxed(d, v, Neighbours(roads, v)[k])
  }

  predicate Relaxed(d: seq<int>, v: nat, hop: (nat, int))
    requires v < |d|
  {
    hop.0 < |d| && d[hop.0] <= d[v] + hop.1
  }

  predicate AllRelaxed(roads: seq<Road>, d: seq<int>, nodes: seq<nat>) {
    forall v :: v in nodes ==> v < |d| && RelaxedFrom(roads, d, v)
  }

  // ---------------------------------------------------------------- counting the work

  function Elements(nodes: seq<nat>): set<nat> { set v | v in nodes }

  /** Adjacency entries of the nodes in nodes. */
  function Examined(roads: seq<Road>, nodes: seq<nat>): nat {
    if nodes == [] then 0 else Examined(roads, nodes[..|nodes| - 1]) + |Neighbours(roads, nodes[|nodes| - 1])|
  }

  function ExaminedBelow(n: nat, roads: seq<Road>, nodes: set<nat>): nat {
    if n == 0 then 0
    else ExaminedBelow(n - 1, roads, nodes) + if n - 1 in nodes then |Neighbours(roads, n - 1)| else 0
  }

  lemma {:induction false} ExaminedBelowGrows(n: nat, roads: seq<Road>, nodes: set<nat>, v: nat)
    requires v !in nodes
    ensures ExaminedBelow(n, roads, nodes + {v})
            == ExaminedBelow(n, roads, nodes) + if v < n then |Neighbours(roads, v)| else 0
  {
    if n > 0 { ExaminedBelowGrows(n - 1, roads, nodes, v); }
  }

  lemma {:induction false} ExaminedOnce(n: nat, roads: seq<Road>, nodes: seq<nat>)
    requires forall v :: v in nodes ==> v < n
    requires forall i, j :: 0 <= i < j < |nodes| ==> nodes[i] != nodes[j]
    ensures Examined(roads, nodes) == ExaminedBelow(n, roads, Elements(nodes))
  {
    if nodes == [] {
      assert Elements(nodes) == {};
      NothingExamined(n, roads);
    } else {
      var earlier := nodes[..|nodes| - 1];
      var last := nodes[|nodes| - 1];
      assert nodes == earlier + [last] && last in nodes;
      forall v | v in earlier ensures v < n { assert v in nodes; }
      ExaminedOnce(n, roads, earlier);
      forall i | 0 <= i < |earlier| ensures earlier[i] != last { assert nodes[i] != nodes[|earlier|]; }
      assert Elements(nodes) == Elements(earlier) + {last};
      ExaminedBelowGrows(n, roads, Elements(earlier), last);
    }
  }

  lemma {:induction false} NothingExamined(n: nat, roads: seq<Road>)
    ensures ExaminedBelow(n, roads, {}) == 0
  {
    if n > 0 { NothingExamined(n - 1, roads); }
  }

  lemma {:induction false} ExaminedBelowAtMost(n: nat, roads: seq<Road>, nodes: set<nat>)
    ensures ExaminedBelow(n, roads, nodes) <= TotalNeighbours(n, roads)
  {
    if n > 0 { ExaminedBelowAtMost(n - 1, roads, nodes); }
  }

  /** Expanding each node at most once looks at each direction of each road at most once. */
  lemma ExaminedAtMostTwicePerRoad(n: nat, roads: seq<Road>, nodes: seq<nat>)
    requires Proper(n, roads) && forall v :: v in nodes ==> v < n
    requires forall i, j :: 0 <= i < j < |nodes| ==> nodes[i] != nodes[j]
    ensures Examined(roads, nodes) <= 2 * |roads|
  {
    ExaminedOnce(n, roads, nodes);
    TwoEntriesPerRoad(n, roads);
    ExaminedBelowAtMost(n, roads, Elements(nodes));
  }

  // ---------------------------------------------------------------- the loops

  /** Lowering the distance of a node that has not been expanded, and queueing it again. */
  lemma LoweringKeepsQueue(d: seq<int>, queue: seq<Entry>, expanded: seq<nat>, v: nat, c: int)
    requires Queued(d, queue, expanded) && v < |d| && v !in expanded && c < d[v] <= UNREACHED
    ensures Queued(d[v := c], queue + [Entry(c, v)], expanded)
    ensures forall e :: e in queue + [Entry(c, v)] <==> e in queue || e == Entry(c, v)
  {
  }

  lemma LoweringStaysAttained(roads: seq<Road>, d: seq<int>, v: nat, c: int, u: nat, w: int)
    requires Attained(roads, d) && v < |d| && u < |d| && 0 <= c < d[v] && HasStep(roads, Step(u, v, w))
    requires d[u] < UNREACHED && c == d[u] + w
    ensures Attained(roads, d[v := c])
  {
    hide HasStep;
    StepExtendsWalk(roads, Step(u, v, w), d[u]);
    hide Reaches;
  }

  /** The first k neighbours of u have been offered the way through u. */
  predicate Offered(d: seq<int>, u: nat, hops: seq<(nat, int)>, k: nat)
    requires u < |d| && k <= |hops|
  {
    forall m :: 0 <= m < k ==> Relaxed(d, u, hops[m])
  }

  lemma NothingOffered(d: seq<int>, u: nat, hops: seq<(nat, int)>)
    requires u < |d|
    ensures Offered(d, u, hops, 0)
  {
  }

  lemma OneMoreOffered(d: seq<int>, u: nat, hops: seq<(nat, int)>, k: nat)
    requires u < |d| && k < |hops| && Offered(d, u, hops, k) && Relaxed(d, u, hops[k])
    ensures Offered(d, u, hops, k + 1)
  {
  }

  lemma LoweringKeepsOffered(d: seq<int>, u: nat, hops: seq<(nat, int)>, k: nat, c: int)
    requires u < |d| && k < |hops| && Offered(d, u, hops, k)
    requires hops[k].0 < |d| && hops[k].0 != u && d[u] + hops[k].1 == c < d[hops[k].0]
    ensures Offered(d[hops[k].0 := c], u, hops, k + 1)
  {
  }

  /** The state while the neighbours of a settled node are being offered: nothing has got
      farther, settled nodes have not moved and nothing nearer than distance is queued. */
  ghost predicate Relaxing(roads: seq<Road>, d0: seq<int>, d: seq<int>, queue: seq<Entry>, expanded: seq<nat>,
                           distance: int)
  {
    && |d| == |d0| && Attained(roads, d) && Queued(d, queue, expanded)
    && (forall v :: 0 <= v < |d| ==> d[v] <= d0[v])
    && (forall v :: v in expanded ==> v < |d| && d[v] == d0[v] <= distance)
    && (forall e :: e in queue ==> distance <= e.distance)
  }

  lemma HopIsProper(n: nat, roads: seq<Road>, v: nat, k: nat)
    requires Proper(n, roads) && k < |Neighbours(roads, v)|
    ensures Neighbours(roads, v)[k].0 < n && Neighbours(roads, v)[k].1 > 0
    ensures HasStep(roads, Step(v, Neighbours(roads, v)[k].0, Neighbours(roads, v)[k].1))
  {
  }

  lemma LoweringKeepsRelaxing(roads: seq<Road>, d0: seq<int>, d: seq<int>, queue: seq<Entry>, expanded: seq<nat>,
                              node: nat, distance: int, v: nat, w: int)
    requires Relaxing(roads, d0, d, queue, expanded, distance)
    requires node in expanded && v < |d| && w > 0 && HasStep(roads, Step(node, v, w))
    requires d0[node] == distance && distance + w < d[v]
    ensures Relaxing(roads, d0, d[v := distance + w], queue + [Entry(distance + w, v)], expanded, distance)
    ensures v !in expanded && v != node
  {
    hide HasStep;
    LoweringStaysAttained(roads, d, v, distance + w, node, w);
    LoweringKeepsQueue(d, queue, expanded, v, distance + w);
    hide Attained, Queued;
  }

  lemma AllOffered(roads: seq<Road>, d0: seq<int>, d: seq<int>, queue0: seq<Entry>, queue: seq<Entry>,
                   expanded: seq<nat>, node: nat, distance: int)
    requires Relaxing(roads, d0, d, queue, expanded, distance) && Settled(d0, queue0, expanded)
    requires node < |d| && RelaxedFrom(roads, d, node)
    requires forall v :: v in expanded && v != node ==> v < |d0| && RelaxedFrom(roads, d0, v)
    ensures Settled(d, queue, expanded) && AllRelaxed(roads, d, expanded)
  {
  }

  /** Offers the neighbours of a node that has just been settled at distance. */
  method Relax(roads: seq<Road>, hops: seq<(nat, int)>, node: nat, distance: int,
               d0: seq<int>, queue0: seq<Entry>, ghost expanded: seq<nat>, ghost n: nat)
    returns (d: seq<int>, queue: seq<Entry>, ghost pushes: nat)
    requires n == |d0| && Proper(n, roads) && node < n && hops == Neighbours(roads, node)
    requires Attained(roads, d0) && Queued(d0, queue0, expanded) && Settled(d0, queue0, expanded)
    requires node in expanded && d0[node] == distance
    requires forall v :: v in expanded ==> d0[v] <= distance
    requires forall e :: e in queue0 ==> distance <= e.distance
    requires forall v :: v in expanded && v != node ==> RelaxedFrom(roads, d0, v)
    ensures |d| == n && Attained(roads, d) && Queued(d, queue, expanded) && Settled(d, queue, expanded)
    ensures AllRelaxed(roads, d, expanded)
    ensures |queue| == |queue0| + pushes && pushes <= |hops|
  {
    hide Relaxing, Offered, Attained, Queued, Settled, HasStep, Neighbours, RelaxedFrom, Proper;
    NothingOffered(d0, node, hops);
    StartRelaxing(roads, d0, queue0, expanded, distance);
    d, queue, pushes := d0, queue0, 0;
    for k := 0 to |hops|
      invariant |d| == n && Relaxing(roads, d0, d, queue, expanded, distance)
      invariant Offered(d, node, hops, k)
      invariant |queue| == |queue0| + pushes && pushes <= k
    {
      var neighbour, weight := hops[k].0, hops[k].1;
      HopIsProper(n, roads, node, k);
      RelaxingKeeps(roads, d0, d, queue, expanded, distance);
      var candidate := distance + weight;
      if candidate < d[neighbour] {
        LoweringKeepsRelaxing(roads, d0, d, queue, expanded, node, distance, neighbour, weight);
        LoweringKeepsOffered(d, node, hops, k, candidate);
        d := d[neighbour := candidate];
        queue := queue + [Entry(candidate, neighbour)];
        pushes := pushes + 1;
      } else {
        OneMoreOffered(d, node, hops, k);
      }
    }
    NodeIsRelaxed(roads, d, node);
    AllOffered(roads, d0, d, queue0, queue, expanded, node, distance);
    RelaxingKeeps(roads, d0, d, queue, expanded, distance);
  }

  lemma RelaxingKeeps(roads: seq<Road>, d0: seq<int>, d: seq<int>, queue: seq<Entry>, expanded: seq<nat>, distance: int)
    requires Relaxing(roads, d0, d, queue, expanded, distance)
    ensures Attained(roads, d) && Queued(d, queue, expanded)
    ensures forall v :: v in expanded ==> d[v] == d0[v]
  {
  }

  lemma StartRelaxing(roads: seq<Road>, d: seq<int>, queue: seq<Entry>, expanded: seq<nat>, distance: int)
    requires Attained(roads, d) && Queued(d, queue, expanded) && Settled(d, queue, expanded)
    requires forall v :: v in expanded ==> d[v] <= distance
    requires forall e :: e in queue ==> distance <= e.distance
    ensures Relaxing(roads, d, d, queue, expanded, distance)
  {
  }

  lemma NodeIsRelaxed(roads: seq<Road>, d: seq<int>, v: nat)
    requires v < |d| && Offered(d, v, Neighbours(roads, v), |Neighbours(roads, v)|)
    ensures RelaxedFrom(roads, d, v)
  {
  }

  /** An outdated entry is dropped. */
  lemma PoppedOutdated(d: seq<int>, queue: seq<Entry>, expanded: seq<nat>, least: Entry, rest: seq<Entry>)
    requires Queued(d, queue, expanded) && Settled(d, queue, expanded)
    requires multiset(queue) == multiset(rest) + multiset{least}
    ensures least.node < |d| && d[least.node] <= least.distance
    ensures least.distance != d[least.node] ==> Queued(d, rest, expanded) && Settled(d, rest, expanded)
  {
    PoppedStaysDistinct(queue, least, rest);
  }

  /** The node of an up-to-date least entry has not been expanded, and is settled from now on. */
  lemma PoppedCurrent(d: seq<int>, queue: seq<Entry>, expanded: seq<nat>, least: Entry, rest: seq<Entry>)
    requires Queued(d, queue, expanded) && Settled(d, queue, expanded)
    requires multiset(queue) == multiset(rest) + multiset{least} && forall e :: e in rest ==> NoLater(least, e)
    requires least.node < |d| && least.distance == d[least.node]
    ensures Queued(d, rest, expanded + [least.node]) && Settled(d, rest, expanded + [least.node])
    ensures forall v :: v in expanded + [least.node] ==> d[v] <= least.distance
    ensures forall e :: e in rest ==> least.distance <= e.distance
  {
    PoppedStaysDistinct(queue, least, rest);
  }

  lemma StartIsSettled(n: nat, roads: seq<Road>)
    requires n > 0
    ensures Attained(roads, seq(n, _ => UNREACHED)[0 := 0])
    ensures Queued(seq(n, _ => UNREACHED)[0 := 0], [Entry(0, 0)], [])
    ensures Settled(seq(n, _ => UNREACHED)[0 := 0], [Entry(0, 0)], [])
  {
    assert IsWalk(roads, [], 0) && Cost([]) == 0;
  }

  lemma NothingQueued(n: nat, roads: seq<Road>, d: seq<int>, expanded: seq<nat>, v: nat)
    requires Proper(n, roads) && |d| == n && v < n && Attained(roads, d)
    requires Queued(d, [], expanded) && AllRelaxed(roads, d, expanded)
    ensures IsCappedLeast(roads, v, d[v])
  {
    DistancesAreLeast(n, roads, d, v);
  }

  lemma ExpandedStayBelow(n: nat, roads: seq<Road>, d: seq<int>, queue: seq<Entry>, expanded: seq<nat>)
    requires |d| == n && Settled(d, queue, expanded) && Proper(n, roads)
    ensures Examined(roads, expanded) <= 2 * |roads|
    ensures forall i, j :: 0 <= i < j < |expanded| ==> expanded[i] != expanded[j]
  {
    ExaminedAtMostTwicePerRoad(n, roads, expanded);
  }

  /** The distances when the queue has run empty.  expanded lists the nodes that were expanded,
      in order, and pushes counts the entries ever queued. */
  method Distances(n: nat, roads: seq<Road>) returns (d: seq<int>, ghost expanded: seq<nat>, ghost pushes: nat)
    requires n > 0 && Proper(n, roads)
    ensures |d| == n
    ensures forall v :: 0 <= v < n ==> IsCappedLeast(roads, v, d[v])
    ensures forall i, j :: 0 <= i < j < |expanded| ==> expanded[i] != expanded[j]
    ensures pushes <= 1 + 2 * |roads|
  {
    hide Attained, Queued, Settled, Proper, RelaxedFrom, IsCappedLeast;
    var adjacency := BuildAdjacency(n, roads);
    d := seq(n, _ => UNREACHED)[0 := 0];
    var queue := [Entry(0, 0)];
    expanded, pushes := [], 1;
    ghost var pops := 0;
    StartIsSettled(n, roads);
    while queue != []
      invariant |d| == n && Attained(roads, d) && Queued(d, queue, expanded) && Settled(d, queue, expanded)
      invariant AllRelaxed(roads, d, expanded)
      invariant |queue| == pushes - pops && pushes <= 1 + Examined(roads, expanded)
      decreases 1 + 2 * |roads| - pops
    {
      ExpandedStayBelow(n, roads, d, queue, expanded);
      var least, rest := PopLeast(queue);
      PoppedOutdated(d, queue, expanded, least, rest);
      pops := pops + 1;
      if least.distance == d[least.node] {
        PoppedCurrent(d, queue, expanded, least, rest);
        ghost var before := expanded;
        expanded := expanded + [least.node];
        assert expanded[..|before|] == before;
        ghost var more;
        d, queue, more := Relax(roads, adjacency[least.node], least.node, least.distance, d, rest, expanded, n);
        pushes := pushes + more;
      } else {
        queue := rest;
      }
    }
    ExpandedStayBelow(n, roads, d, queue, expanded);
    forall v | 0 <= v < n ensures IsCappedLeast(roads, v, d[v]) {
      NothingQueued(n, roads, d, expanded, v);
    }
  }

  // ---------------------------------------------------------------- least costs

  /** c is the least cost of a walk to v, or the mark when no walk is cheaper than the mark. */
  ghost predicate IsCappedLeast(roads: seq<Road>, v: nat, c: int) {
    && c <= UNREACHED
    && (c < UNREACHED ==> Reaches(roads, v, c))
    && forall walk :: IsWalk(roads, walk, v) ==> c <= Cost(walk)
  }

  ghost predicate IsLeast(roads: seq<Road>, v: nat, c: int) {
    Reaches(roads, v, c) && forall walk :: IsWalk(roads, walk, v) ==> c <= Cost(walk)
  }

  lemma {:induction false} NoWalkIsCheaper(n: nat, roads: seq<Road>, d: seq<int>, walk: seq<Step>, v: nat)
    requires Proper(n, roads) && |d| == n && n > 0 && d[0] == 0
    requires forall u :: 0 <= u < n ==> d[u] <= UNREACHED
    requires forall u :: 0 <= u < n && d[u] < UNREACHED ==> RelaxedFrom(roads, d, u)
    requires IsWalk(roads, walk, v)
    ensures v < n && d[v] <= Cost(walk)
  {
    if walk != [] {
      var last := walk[|walk| - 1];
      var shorter := walk[..|walk| - 1];
      NoWalkIsCheaper(n, roads, d, shorter, last.source);
      if d[last.source] < UNREACHED {
        NeighboursAreSteps(roads, last.source, v, last.weight);
        var k :| 0 <= k < |Neighbours(roads, last.source)| && Neighbours(roads, last.source)[k] == (v, last.weight);
        assert Relaxed(d, last.source, Neighbours(roads, last.source)[k]);
      }
    }
  }

  lemma DistancesAreLeast(n: nat, roads: seq<Road>, d: seq<int>, v: nat)
    requires Proper(n, roads) && |d| == n && v < n && Attained(roads, d)
    requires forall u :: 0 <= u < n && d[u] < UNREACHED ==> RelaxedFrom(roads, d, u)
    ensures IsCappedLeast(roads, v, d[v])
  {
    forall walk | IsWalk(roads, walk, v) ensures d[v] <= Cost(walk) {
      NoWalkIsCheaper(n, roads, d, walk, v);
    }
  }

  // ---------------------------------------------------------------- the answer

  /** The road from each node to the next is open. */
  predicate ChainOpen(n: nat, roads: seq<Road>, closed: set<(nat, nat)>) {
    forall i :: 0 <= i < n - 1 ==> (i, i + 1) !in closed && HasChainRoad(roads, i)
  }

  predicate HasChainRoad(roads: seq<Road>, i: nat) {
    exists k :: 0 <= k < |roads| && roads[k].left == i && roads[k].right == i + 1
  }

  /** Weights stay below this bound, toll included. */
  predicate Bounded(roads: seq<Road>, toll: int, bound: nat) {
    forall k :: 0 <= k < |roads| ==> roads[k].weight + toll <= bound
  }

  lemma {:induction false} AdjustedRoads(roads: seq<Road>, closed: set<(nat, nat)>, tollRoad: (nat, nat), toll: int,
                                         road: Road)
    ensures road in Adjusted(roads, closed, tollRoad, toll) <==>
              && (road.left, road.right) !in closed
              && (if (road.left, road.right) == tollRoad then road.(weight := road.weight - toll) in roads
                  else road in roads)
  {
    if roads != [] {
      AdjustedRoads(roads[..|roads| - 1], closed, tollRoad, toll, road);
      assert roads == roads[..|roads| - 1] + [roads[|roads| - 1]];
    }
  }

  lemma AdjustedStaysProper(n: nat, roads: seq<Road>, closed: set<(nat, nat)>, tollRoad: (nat, nat), toll: nat)
    requires Proper(n, roads)
    ensures Proper(n, Adjusted(roads, closed, tollRoad, toll))
  {
  }

  lemma {:induction false} ChainReaches(n: nat, roads: seq<Road>, closed: set<(nat, nat)>, tollRoad: (nat, nat),
                                        toll: nat, bound: nat, v: nat)
    returns (cost: int)
    requires ChainOpen(n, roads, closed) && Bounded(roads, toll, bound) && v < n
    ensures Reaches(Adjusted(roads, closed, tollRoad, toll), v, cost) && cost <= bound * v
    decreases v
  {
    var adjusted := Adjusted(roads, closed, tollRoad, toll);
    if v == 0 {
      cost := 0;
      assert IsWalk(adjusted, [], 0) && Cost([]) == 0;
    } else {
      var before := ChainReaches(n, roads, closed, tollRoad, toll, bound, v - 1);
      assert HasChainRoad(roads, v - 1);
      var k :| 0 <= k < |roads| && roads[k].left == v - 1 && roads[k].right == v;
      var w := if (v - 1, v) == tollRoad then roads[k].weight + toll else roads[k].weight;
      AdjustedRoads(roads, closed, tollRoad, toll, Road(v - 1, v, w));
      StepExtendsWalk(adjusted, Step(v - 1, v, w), before);
      cost := before + w;
      assert bound * v == bound * (v - 1) + bound;
    }
  }

  /** A distance that is capped at the mark is exact as soon as some walk is cheaper. */
  lemma CheapWalkMakesExact(roads: seq<Road>, v: nat, c: int, cost: int)
    requires IsCappedLeast(roads, v, c) && Reaches(roads, v, cost) && cost < UNREACHED
    ensures IsLeast(roads, v, c)
  {
  }

  /** The answer to a routing problem: the least cost from the first node to the last after
      the adjustments, times factor, plus checksum.  Because the chain stays open, the mark
      for "not reached" never gets into an answer. */
  method RoutingGold(n: nat, roads: seq<Road>, closed: set<(nat, nat)>, tollRoad: (nat, nat), toll: nat,
                     factor: int, checksum: int, ghost bound: nat)
    returns (gold: int, ghost least: int)
    requires n > 0 && Proper(n, roads) && ChainOpen(n, roads, closed)
    requires Bounded(roads, toll, bound) && bound * (n - 1) < UNREACHED
    ensures IsLeast(Adjusted(roads, closed, tollRoad, toll), n - 1, least)
    ensures gold == least * factor + checksum
    ensures forall c :: IsLeast(Adjusted(roads, closed, tollRoad, toll), n - 1, c) ==> gold == c * factor + checksum
  {
    var adjusted := Adjusted(roads, closed, tollRoad, toll);
    AdjustedStaysProper(n, roads, closed, tollRoad, toll);
    ghost var expanded, pushes;
    var distances;
    distances, expanded, pushes := Distances(n, adjusted);
    ghost var cost := ChainReaches(n, roads, closed, tollRoad, toll, bound, n - 1);
    CheapWalkMakesExact(adjusted, n - 1, distances[n - 1], cost);
    least := distances[n - 1];
    gold := distances[n - 1] * factor + checksum;
    var last: nat := n - 1;
    forall c | IsLeast(adjusted, last, c) ensures c == least {
      LeastIsUnique(adjusted, last, c, least);
    }
  }

  lemma {:induction false} LeastIsUnique(roads: seq<Road>, v: nat, c: int, d: int)
    requires IsLeast(roads, v, c) && IsLeast(roads, v, d)
    ensures c == d
  {
  }
}

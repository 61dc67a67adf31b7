/**
 What the scheduler adds.  The code always lets the deepest node among the actors of all
 candidates choose.  Then control is depth-first, and a node that waits for a dependency
 never wakes.
 */
module OrganizationDepthFirst {
  import opened OrganizationModel
  import opened OrganizationSafety

  /** The actor of c is a deepest one among the actors of everything on offer.  Ties may be
      broken either way. */
  ghost predicate Scheduled(cfg: Config, s: State, c: Candidate) {
    && ActorOf(c) < |s.nodes|
    && forall d :: Offered(cfg, s, d) && ActorOf(d) < |s.nodes| ==>
         s.nodes[ActorOf(d)].depth <= s.nodes[ActorOf(c)].depth
  }

  ghost predicate ScheduledStep(cfg: Config, s: State, e: Event, s': State) {
    IsStep(cfg, s, e, s') && (e.Decision? ==> Scheduled(cfg, s, e.choice))
  }

  ghost predicate IsScheduledRun(cfg: Config, states: seq<State>, events: seq<Event>) {
    && |states| == |events| + 1
    && (exists objective :: states[0] == Initial(objective))
    && forall k :: 0 <= k < |events| ==> ScheduledStep(cfg, states[k], events[k], states[k + 1])
  }

  lemma ScheduledRunsAreRuns(cfg: Config, states: seq<State>, events: seq<Event>)
    requires IsScheduledRun(cfg, states, events)
    ensures IsRunFromStart(cfg, states, events)
  {
  }

  // ---------------------------------------------------------------- the tree order

  lemma {:induction false} AboveIsEarlier(nodes: seq<Node>, a: NodeId, b: NodeId)
    requires TreeShaped(nodes) && b < |nodes| && Above(nodes, a, b)
    ensures a <= b && nodes[a].depth <= nodes[b].depth
    ensures a != b ==> a < b && nodes[a].depth < nodes[b].depth
    decreases b
  {
    if a != b {
      assert HasParent(nodes, b);
      AboveIsEarlier(nodes, a, ParentOf(nodes, b));
    }
  }

  lemma {:induction false} AboveKept(nodes: seq<Node>, nodes': seq<Node>, a: NodeId, b: NodeId)
    requires TreeShaped(nodes) && TreeShaped(nodes') && b < |nodes| <= |nodes'|
    requires forall i :: 0 <= i < |nodes| ==> nodes'[i].parent == nodes[i].parent
    ensures Above(nodes', a, b) <==> Above(nodes, a, b)
    decreases b
  {
    if a != b && b > 0 {
      assert HasParent(nodes, b) && HasParent(nodes', b);
      AboveKept(nodes, nodes', a, ParentOf(nodes, b));
    }
  }

  // ---------------------------------------------------------------- the invariant

  /** Of two nodes in play the later one lies below the earlier one. */
  predicate OneRootPath(nodes: seq<Node>)
    requires TreeShaped(nodes)
  {
    forall i, j :: 0 <= i < j < |nodes| && InPlay(nodes[i].status) && InPlay(nodes[j].status) ==> Above(nodes, i, j)
  }

  predicate Stuck(status: Status) { status == Pruned || status == WaitingDependency }

  /** i waits for a producer that will never return. */
  predicate StuckOn(nodes: seq<Node>, dependencies: seq<Dependency>, i: NodeId, k: nat) {
    && k < |dependencies| && dependencies[k].consumer == i && !dependencies[k].resolved
    && dependencies[k].producer < |nodes| && Stuck(nodes[dependencies[k].producer].status)
  }

  predicate WaitersStuck(nodes: seq<Node>, dependencies: seq<Dependency>) {
    forall i :: 0 <= i < |nodes| && nodes[i].status == WaitingDependency ==>
      exists k :: 0 <= k < |dependencies| && StuckOn(nodes, dependencies, i, k)
  }

  predicate DepthFirst(s: State)
    requires TreeShaped(s.nodes)
  {
    OneRootPath(s.nodes) && WaitersStuck(s.nodes, s.dependencies)
  }

  /** t is in play and everything in play lies above it. */
  predicate Tip(nodes: seq<Node>, t: NodeId)
    requires TreeShaped(nodes)
  {
    t < |nodes| && InPlay(nodes[t].status)
    && forall i :: 0 <= i < |nodes| && InPlay(nodes[i].status) ==> Above(nodes, i, t)
  }

  lemma NothingInPlayIsDeeper(cfg: Config, s: State, c: Candidate, i: NodeId)
    requires Idle(s) && PendingMatches(s) && Scheduled(cfg, s, c)
    requires 1 <= i < |s.nodes| && InPlay(s.nodes[i].status)
    ensures s.nodes[i].depth <= s.nodes[ActorOf(c)].depth
  {
    var d := if s.nodes[i].status == Ready then Execute(i) else Return(i);
    assert Offered(cfg, s, d);
  }

  /** The scheduled node, when in play, is the tip of the path. */
  lemma ScheduledIsTip(cfg: Config, s: State, c: Candidate)
    requires Inv(cfg, s) && Idle(s) && OneRootPath(s.nodes) && Scheduled(cfg, s, c)
    requires InPlay(s.nodes[ActorOf(c)].status)
    ensures Tip(s.nodes, ActorOf(c))
  {
    var t := ActorOf(c);
    forall i | 0 <= i < |s.nodes| && InPlay(s.nodes[i].status) ensures Above(s.nodes, i, t) {
      if i > t {
        NothingInPlayIsDeeper(cfg, s, c, i);
        AboveIsEarlier(s.nodes, t, i);
      }
    }
  }

  // ---------------------------------------------------------------- changes inside a fixed tree

  /** The nodes in play stay among those that were, the parent of a tip apart, and what was
      stuck stays stuck. */
  lemma PathKept(nodes: seq<Node>, nodes': seq<Node>)
    requires TreeShaped(nodes) && TreeShaped(nodes') && SameTree(nodes, nodes') && OneRootPath(nodes)
    requires forall i :: 0 <= i < |nodes| && InPlay(nodes'[i].status) ==> InPlay(nodes[i].status)
    ensures OneRootPath(nodes')
  {
    forall i | 0 <= i < |nodes| ensures nodes'[i].parent == nodes[i].parent { assert SamePlace(nodes, nodes', i); }
    forall i, j | 0 <= i < j < |nodes'| && InPlay(nodes'[i].status) && InPlay(nodes'[j].status)
      ensures Above(nodes', i, j)
    {
      AboveKept(nodes, nodes', i, j);
    }
  }

  lemma StuckKept(nodes: seq<Node>, nodes': seq<Node>, dependencies: seq<Dependency>)
    requires |nodes'| == |nodes| && WaitersStuck(nodes, dependencies)
    requires forall i :: 0 <= i < |nodes| ==>
               && (Stuck(nodes[i].status) ==> Stuck(nodes'[i].status))
               && (nodes'[i].status == WaitingDependency ==> nodes[i].status == WaitingDependency)
    ensures WaitersStuck(nodes', dependencies)
  {
    forall i | 0 <= i < |nodes'| && nodes'[i].status == WaitingDependency
      ensures exists k :: 0 <= k < |dependencies| && StuckOn(nodes', dependencies, i, k)
    {
      var k :| 0 <= k < |dependencies| && StuckOn(nodes, dependencies, i, k);
      assert StuckOn(nodes', dependencies, i, k);
    }
  }

  lemma SimpleChangeKeeps(s: State, s': State)
    requires TreeShaped(s.nodes) && TreeShaped(s'.nodes) && SameTree(s.nodes, s'.nodes) && DepthFirst(s)
    requires s'.dependencies == s.dependencies
    requires forall i :: 0 <= i < |s.nodes| ==>
               && (InPlay(s'.nodes[i].status) ==> InPlay(s.nodes[i].status))
               && (Stuck(s.nodes[i].status) ==> Stuck(s'.nodes[i].status))
               && (s'.nodes[i].status == WaitingDependency ==> s.nodes[i].status == WaitingDependency)
    ensures DepthFirst(s')
  {
    PathKept(s.nodes, s'.nodes);
    StuckKept(s.nodes, s'.nodes, s.dependencies);
  }

  // ---------------------------------------------------------------- returning

  /** Returning the tip resolves nothing a waiting node is stuck on. */
  lemma ReturnWakesNobody(s: State, a: NodeId, i: NodeId)
    requires TreeShaped(s.nodes) && WaitersStuck(s.nodes, s.dependencies)
    requires a < |s.nodes| && s.nodes[a].status == Reported
    requires i < |s.nodes| && s.nodes[i].status == WaitingDependency
    ensures WokenStatus(ResolveFrom(s.dependencies, a), i, WaitingDependency) == WaitingDependency
    ensures exists k :: 0 <= k < |s.dependencies| && StuckOn(s.nodes, ResolveFrom(s.dependencies, a), i, k)
  {
    var k :| 0 <= k < |s.dependencies| && StuckOn(s.nodes, s.dependencies, i, k);
    var resolved := ResolveFrom(s.dependencies, a);
    assert resolved[k] == s.dependencies[k];
    assert StuckOn(s.nodes, resolved, i, k);
  }

  /** Returning a node neither wakes a waiter nor makes one. */
  lemma ReturnKeepsWaiters(s: State, a: NodeId)
    requires TreeShaped(s.nodes) && WaitersStuck(s.nodes, s.dependencies)
    requires 1 <= a < |s.nodes| && s.nodes[a].status == Reported
    requires s.nodes[a].parent.Some? && s.nodes[a].parent.value < |s.nodes|
    requires InPlay(s.nodes[s.nodes[a].parent.value].status)
    ensures |AfterReturn(s, a).nodes| == |s.nodes|
    ensures forall i :: 0 <= i < |s.nodes| ==> (s.nodes[i].status == WaitingDependency <==>
              AfterReturn(s, a).nodes[i].status == WaitingDependency)
    ensures forall i :: 0 <= i < |s.nodes| && Stuck(s.nodes[i].status) ==> Stuck(AfterReturn(s, a).nodes[i].status)
  {
  }

  lemma ReturnKeepsStuck(s: State, a: NodeId)
    requires TreeShaped(s.nodes) && WaitersStuck(s.nodes, s.dependencies)
    requires 1 <= a < |s.nodes| && s.nodes[a].status == Reported
    requires s.nodes[a].parent.Some? && s.nodes[a].parent.value < |s.nodes|
    requires InPlay(s.nodes[s.nodes[a].parent.value].status)
    ensures WaitersStuck(AfterReturn(s, a).nodes, AfterReturn(s, a).dependencies)
    ensures forall i :: 0 <= i < |s.nodes| ==> (s.nodes[i].status == WaitingDependency <==>
              AfterReturn(s, a).nodes[i].status == WaitingDependency)
  {
    hide ReturnedNodes;
    var s' := AfterReturn(s, a);
    ReturnKeepsWaiters(s, a);
    forall i | 0 <= i < |s'.nodes| && s'.nodes[i].status == WaitingDependency
      ensures exists k :: 0 <= k < |s'.dependencies| && StuckOn(s'.nodes, s'.dependencies, i, k)
    {
      ReturnWakesNobody(s, a, i);
      var k :| 0 <= k < |s.dependencies| && StuckOn(s.nodes, s'.dependencies, i, k);
      assert StuckOn(s'.nodes, s'.dependencies, i, k);
    }
  }

  /** After the tip returns, its parent is the tip. */
  lemma ReturnHandsBack(cfg: Config, s: State, a: NodeId)
    requires Inv(cfg, s) && DepthFirst(s) && Tip(s.nodes, a)
    requires 1 <= a && s.nodes[a].status == Reported
    requires Legal(cfg, s, Return(a))
    requires s.nodes[a].parent.Some? && s.nodes[a].parent.value < |s.nodes|
    ensures TreeShaped(AfterReturn(s, a).nodes) && OneRootPath(AfterReturn(s, a).nodes)
    ensures WaitersStuck(AfterReturn(s, a).nodes, AfterReturn(s, a).dependencies)
    ensures Tip(AfterReturn(s, a).nodes, s.nodes[a].parent.value)
    ensures AfterReturn(s, a).nodes[s.nodes[a].parent.value].status == Ready
  {
    var s' := AfterReturn(s, a);
    var p := ParentOf(s.nodes, a);
    ReturnedStatuses(s.nodes, s.dependencies, a);
    ReturnKeepsFinished(s.nodes, s.dependencies, a);
    assert s.nodes[p].status != WaitingDependency;
    ReturnKeepsStuck(s, a);
    forall i | 0 <= i < |s.nodes| ensures s'.nodes[i].parent == s.nodes[i].parent {
      assert SamePlace(s.nodes, s'.nodes, i);
    }
    assert s'.nodes[p].status == StatusAfterReturn(s.nodes, s.dependencies, a, p);
    forall i | 0 <= i < |s'.nodes| && InPlay(s'.nodes[i].status)
      ensures InPlay(s.nodes[i].status) && Above(s'.nodes, i, p)
    {
      assert s'.nodes[i].status == StatusAfterReturn(s.nodes, s.dependencies, a, i);
      AboveKept(s.nodes, s'.nodes, i, p);
      assert i != a;
    }
    PathKept(s.nodes, s'.nodes);
  }

  // ---------------------------------------------------------------- deriving

  /** The producers a child of the tip has to wait for are stuck. */
  lemma UnresolvedProducersAreStuck(cfg: Config, s: State, a: NodeId, i: nat, k: nat)
    requires Inv(cfg, s) && Idle(s) && Tip(s.nodes, a) && HasSpec(s, a, i)
    requires k < |Producers(s, a, i)| && s.nodes[Producers(s, a, i)[k]].status != Returned
    ensures Stuck(s.nodes[Producers(s, a, i)[k]].status)
  {
    var report := s.nodes[a].report.value;
    ValidDependenciesExist(s, a, SafeDependencies(s, a, report, report.children[i]));
    assert !Above(s.nodes, Producers(s, a, i)[k], a);
  }

  lemma NewWaiterIsStuck(nodes: seq<Node>, dependencies: seq<Dependency>, added: seq<Dependency>, child: Node)
    requires EdgesSound(nodes, dependencies) && FreshEdges(nodes, added)
    requires forall k :: 0 <= k < |added| && !added[k].resolved ==> Stuck(nodes[added[k].producer].status)
    requires !AllResolved(dependencies + added, |nodes|)
    ensures exists k :: 0 <= k < |dependencies + added| && StuckOn(nodes + [child], dependencies + added, |nodes|, k)
  {
    var edges := dependencies + added;
    NoEdgesToNewNode(nodes, dependencies);
    var k :| 0 <= k < |edges| && edges[k].consumer == |nodes| && !edges[k].resolved;
    assert edges[k] == added[k - |dependencies|];
    assert StuckOn(nodes + [child], edges, |nodes|, k);
  }

  lemma OldWaitersStayStuck(nodes: seq<Node>, dependencies: seq<Dependency>, added: seq<Dependency>, child: Node,
                            i: NodeId)
    requires WaitersStuck(nodes, dependencies) && i < |nodes| && nodes[i].status == WaitingDependency
    ensures exists k :: 0 <= k < |dependencies + added| && StuckOn(nodes + [child], dependencies + added, i, k)
  {
    var k :| 0 <= k < |dependencies| && StuckOn(nodes, dependencies, i, k);
    assert (dependencies + added)[k] == dependencies[k];
    assert StuckOn(nodes + [child], dependencies + added, i, k);
  }

  lemma DeriveKeepsStuck(cfg: Config, s: State, a: NodeId, i: nat)
    requires Inv(cfg, s) && Idle(s) && DepthFirst(s) && Tip(s.nodes, a) && HasSpec(s, a, i)
    ensures WaitersStuck(AfterDerive(cfg, s, a, i).nodes, AfterDerive(cfg, s, a, i).dependencies)
  {
    var s' := AfterDerive(cfg, s, a, i);
    var child := s'.nodes[|s.nodes|];
    var producers := Producers(s, a, i);
    var added := NewDependencies(s.nodes, producers, |s.nodes|);
    forall k | 0 <= k < |added| && !added[k].resolved ensures Stuck(s.nodes[added[k].producer].status) {
      UnresolvedProducersAreStuck(cfg, s, a, i, k);
    }
    forall j | 0 <= j < |s'.nodes| && s'.nodes[j].status == WaitingDependency
      ensures exists k :: 0 <= k < |s'.dependencies| && StuckOn(s'.nodes, s'.dependencies, j, k)
    {
      if j < |s.nodes| {
        OldWaitersStayStuck(s.nodes, s.dependencies, added, child, j);
      } else {
        NewWaiterIsStuck(s.nodes, s.dependencies, added, child);
      }
    }
  }

  /** After the tip derives a child, the tip is the child, or still the deriving node when
      the child has to wait. */
  lemma DeriveHandsOver(cfg: Config, s: State, a: NodeId, i: nat)
    requires Inv(cfg, s) && Idle(s) && DepthFirst(s) && Tip(s.nodes, a) && HasSpec(s, a, i)
    ensures TreeShaped(AfterDerive(cfg, s, a, i).nodes) && DepthFirst(AfterDerive(cfg, s, a, i))
    ensures Tip(AfterDerive(cfg, s, a, i).nodes,
                if AfterDerive(cfg, s, a, i).nodes[|s.nodes|].status == Ready then |s.nodes| else a)
  {
    var s' := AfterDerive(cfg, s, a, i);
    var child := |s.nodes|;
    GrownTree(s.nodes, s'.nodes[child], a);
    DeriveKeepsStuck(cfg, s, a, i);
    assert HasParent(s'.nodes, child);
    forall j | 0 <= j < child && InPlay(s.nodes[j].status)
      ensures Above(s'.nodes, j, a) && Above(s'.nodes, j, child)
    {
      AboveKept(s.nodes, s'.nodes, j, a);
    }
    forall j, l | 0 <= j < l < |s'.nodes| && InPlay(s'.nodes[j].status) && InPlay(s'.nodes[l].status)
      ensures Above(s'.nodes, j, l)
    {
      if l < child { AboveKept(s.nodes, s'.nodes, j, l); }
    }
  }

  // ---------------------------------------------------------------- every scheduled run

  /** Choices other than deriving and returning move no node in or out of play. */
  lemma SimpleEffect(cfg: Config, s: State, c: Candidate, report: Report)
    requires TreeShaped(s.nodes) && Offered(cfg, s, c) && Applicable(s, c) && !c.Derive? && !c.Return?
    ensures SameTree(s.nodes, Decide(cfg, s, c, report).nodes)
    ensures Decide(cfg, s, c, report).dependencies == s.dependencies
    ensures forall i :: 0 <= i < |s.nodes| ==>
              && (InPlay(Decide(cfg, s, c, report).nodes[i].status) <==> InPlay(s.nodes[i].status))
              && (Stuck(s.nodes[i].status) ==> Stuck(Decide(cfg, s, c, report).nodes[i].status))
              && (s.nodes[i].status == WaitingDependency <==>
                  Decide(cfg, s, c, report).nodes[i].status == WaitingDependency)
  {
  }

  lemma ScheduledReturn(cfg: Config, s: State, a: NodeId)
    requires Inv(cfg, s) && DepthFirst(s) && Idle(s) && Tip(s.nodes, a)
    requires a != 0 && StatusIs(s, a, Reported) && Legal(cfg, s, Return(a))
    requires !LimitReached(s.decisions, cfg.maximumDecisions)
    ensures Applicable(s, Return(a)) && s.nodes[a].parent.Some? && s.nodes[a].parent.value < |s.nodes|
    ensures var s' := AfterReturn(Record(s, Return(a)), a);
            && TreeShaped(s'.nodes) && DepthFirst(s') && Tip(s'.nodes, s.nodes[a].parent.value)
            && forall i :: 0 <= i < |s.nodes| ==>
                 (s.nodes[i].status == WaitingDependency <==> s'.nodes[i].status == WaitingDependency)
  {
    var r := Record(s, Return(a));
    RecordKeeps(cfg, s, Return(a));
    var p := ParentOf(s.nodes, a);
    ReturnKeepsFinished(s.nodes, s.dependencies, a);
    ReturnHandsBack(cfg, r, a);
    assert s.nodes[p].status != WaitingDependency;
    ReturnKeepsStuck(r, a);
  }

  /** What one step of a scheduled run does to the path and to the waiting nodes. */
  lemma DecisionKeepsDepthFirst(cfg: Config, s: State, c: Candidate, report: Report)
    requires Inv(cfg, s) && DepthFirst(s) && Enabled(cfg, s, Decision(c, report)) && Scheduled(cfg, s, c)
    ensures Applicable(s, c) && Inv(cfg, Decide(cfg, s, c, report)) && DepthFirst(Decide(cfg, s, c, report))
    ensures |s.nodes| <= |Decide(cfg, s, c, report).nodes|
    ensures forall i :: 0 <= i < |s.nodes| ==>
              (s.nodes[i].status == WaitingDependency <==>
               Decide(cfg, s, c, report).nodes[i].status == WaitingDependency)
  {
    DecisionKeeps(cfg, s, c, report);
    if c.Derive? {
      ScheduledIsTip(cfg, s, c);
      RecordKeeps(cfg, s, c);
      DeriveHandsOver(cfg, Record(s, c), c.actor, c.index);
    } else if c.Return? {
      ScheduledIsTip(cfg, s, c);
      ScheduledReturn(cfg, s, c.actor);
    } else {
      SimpleEffect(cfg, s, c, report);
      SimpleChangeKeeps(s, Decide(cfg, s, c, report));
    }
  }

  lemma StepKeepsDepthFirst(cfg: Config, s: State, e: Event)
    requires Inv(cfg, s) && DepthFirst(s) && Enabled(cfg, s, e)
    requires e.Decision? ==> Scheduled(cfg, s, e.choice)
    ensures Defined(s, e) && Inv(cfg, Next(cfg, s, e)) && DepthFirst(Next(cfg, s, e))
    ensures |s.nodes| <= |Next(cfg, s, e).nodes|
    ensures forall i :: 0 <= i < |s.nodes| ==>
              (s.nodes[i].status == WaitingDependency <==> Next(cfg, s, e).nodes[i].status == WaitingDependency)
  {
    StepKeeps(cfg, s, e);
    RootPlays(s.nodes, s.dependencies);
    if e.Decision? {
      DecisionKeepsDepthFirst(cfg, s, e.choice, e.report);
    } else {
      SimpleChangeKeeps(s, Next(cfg, s, e));
    }
  }

  /** Control is depth-first: at every moment of every scheduled run all nodes in play lie on
      one root path, and each node waiting for a dependency waits for a producer that was
      pruned or is itself waiting. */
  lemma {:induction false} ControlIsDepthFirst(cfg: Config, states: seq<State>, events: seq<Event>, k: nat)
    requires cfg.Valid() && IsScheduledRun(cfg, states, events) && k < |states|
    ensures Inv(cfg, states[k]) && DepthFirst(states[k])
    ensures k < |events| ==> Defined(states[k], events[k]) && states[k + 1] == Next(cfg, states[k], events[k])
    decreases k
  {
    ScheduledRunsAreRuns(cfg, states, events);
    EveryRunIsSafe(cfg, states, events, k);
    if k > 0 {
      ControlIsDepthFirst(cfg, states, events, k - 1);
      assert ScheduledStep(cfg, states[k - 1], events[k - 1], states[k]);
      StepKeepsDepthFirst(cfg, states[k - 1], events[k - 1]);
    }
  }

  lemma {:induction false} WaitingIsForLife(cfg: Config, states: seq<State>, events: seq<Event>,
                                            j: nat, k: nat, i: NodeId)
    requires cfg.Valid() && IsScheduledRun(cfg, states, events) && j <= k < |states| && i < |states[j].nodes|
    ensures i < |states[k].nodes|
    ensures states[j].nodes[i].status == WaitingDependency <==> states[k].nodes[i].status == WaitingDependency
    decreases k - j
  {
    if j < k {
      WaitingIsForLife(cfg, states, events, j, k - 1, i);
      ControlIsDepthFirst(cfg, states, events, k - 1);
      assert ScheduledStep(cfg, states[k - 1], events[k - 1], states[k]);
      StepKeepsDepthFirst(cfg, states[k - 1], events[k - 1]);
    }
  }

  /** Under the scheduler the wake loop never finds anything: a node that waits for a
      dependency waits for the rest of the run, and no node above it ever finishes. */
  lemma WaitersNeverWake(cfg: Config, states: seq<State>, events: seq<Event>,
                         j: nat, k: nat, i: NodeId, above: NodeId)
    requires cfg.Valid() && IsScheduledRun(cfg, states, events) && j <= k < |states|
    requires i < |states[j].nodes| && states[j].nodes[i].status == WaitingDependency
    ensures i < |states[k].nodes| && states[k].nodes[i].status == WaitingDependency
    ensures TreeShaped(states[k].nodes)
    ensures above < |states[k].nodes| && Above(states[k].nodes, above, i) ==> !Finished(states[k].nodes[above].status)
  {
    ControlIsDepthFirst(cfg, states, events, k);
    WaitingIsForLife(cfg, states, events, j, k, i);
    if above < |states[k].nodes| && Above(states[k].nodes, above, i) && Finished(states[k].nodes[above].status) {
      FinishedCoversSubtree(states[k].nodes, above, i);
    }
  }

  /** Who holds the control after a scheduled decision of a node in play: a derived child that
      may start, the parent of a node that returned, and otherwise the same node. */
  function NextTip(s: State, c: Candidate, s': State): NodeId
    requires |s'.nodes| >= |s.nodes| >= 1
    requires c.Return? ==> c.actor < |s.nodes| && s.nodes[c.actor].parent.Some?
  {
    match c
    case Derive(a, _) =>
      if |s'.nodes| > |s.nodes| && s'.nodes[|s.nodes|].status == Ready then |s.nodes| else a
    case Return(a) => s.nodes[a].parent.value
    case _ => ActorOf(c)
  }

  lemma TipKept(nodes: seq<Node>, nodes': seq<Node>, t: NodeId)
    requires TreeShaped(nodes) && TreeShaped(nodes') && SameTree(nodes, nodes') && Tip(nodes, t)
    requires forall i :: 0 <= i < |nodes| ==> (InPlay(nodes'[i].status) <==> InPlay(nodes[i].status))
    ensures Tip(nodes', t)
  {
    forall i | 0 <= i < |nodes| ensures nodes'[i].parent == nodes[i].parent { assert SamePlace(nodes, nodes', i); }
    forall i | 0 <= i < |nodes'| && InPlay(nodes'[i].status) ensures Above(nodes', i, t) {
      AboveKept(nodes, nodes', i, t);
    }
  }

  lemma DecisionMovesControl(cfg: Config, s: State, c: Candidate, report: Report)
    requires Inv(cfg, s) && DepthFirst(s) && Enabled(cfg, s, Decision(c, report)) && Scheduled(cfg, s, c)
    requires Applicable(s, c) && InPlay(s.nodes[ActorOf(c)].status)
    requires TreeShaped(Decide(cfg, s, c, report).nodes)
    ensures Tip(s.nodes, ActorOf(c))
    ensures c.Return? ==> s.nodes[c.actor].parent.Some?
    ensures |s.nodes| <= |Decide(cfg, s, c, report).nodes|
    ensures Tip(Decide(cfg, s, c, report).nodes, NextTip(s, c, Decide(cfg, s, c, report)))
  {
    ScheduledIsTip(cfg, s, c);
    if c.Derive? {
      RecordKeeps(cfg, s, c);
      DeriveHandsOver(cfg, Record(s, c), c.actor, c.index);
    } else if c.Return? {
      ScheduledReturn(cfg, s, c.actor);
    } else {
      SimpleEffect(cfg, s, c, report);
      TipKept(s.nodes, Decide(cfg, s, c, report).nodes, ActorOf(c));
    }
  }

  /** A candidate whose actor is not in play shares the report of a returned node. */
  lemma OnlyReturnedNodesActFromOutside(cfg: Config, s: State, c: Candidate)
    requires Inv(cfg, s) && Idle(s) && Offered(cfg, s, c)
    ensures ActorOf(c) < |s.nodes|
    ensures !InPlay(s.nodes[ActorOf(c)].status) ==> c.Connect? && s.nodes[ActorOf(c)].status == Returned
  {
  }

  /** Each scheduled decision is taken either by a returned node that shares its report, or by
      the one node in play below which nothing is in play; and the control then moves as
      NextTip says. */
  lemma ControlMoves(cfg: Config, states: seq<State>, events: seq<Event>, k: nat)
    requires cfg.Valid() && IsScheduledRun(cfg, states, events) && k < |events| && events[k].Decision?
    ensures ActorOf(events[k].choice) < |states[k].nodes|
    ensures TreeShaped(states[k].nodes) && TreeShaped(states[k + 1].nodes)
    ensures !InPlay(states[k].nodes[ActorOf(events[k].choice)].status) ==>
              events[k].choice.Connect? && states[k].nodes[ActorOf(events[k].choice)].status == Returned
    ensures InPlay(states[k].nodes[ActorOf(events[k].choice)].status) ==>
              && Tip(states[k].nodes, ActorOf(events[k].choice))
              && (events[k].choice.Return? ==> states[k].nodes[events[k].choice.actor].parent.Some?)
              && |states[k].nodes| <= |states[k + 1].nodes|
              && Tip(states[k + 1].nodes, NextTip(states[k], events[k].choice, states[k + 1]))
  {
    ControlIsDepthFirst(cfg, states, events, k);
    ControlIsDepthFirst(cfg, states, events, k + 1);
    assert ScheduledStep(cfg, states[k], events[k], states[k + 1]);
    OnlyReturnedNodesActFromOutside(cfg, states[k], events[k].choice);
    if InPlay(states[k].nodes[ActorOf(events[k].choice)].status) {
      DecisionMovesControl(cfg, states[k], events[k].choice, events[k].report);
    }
  }
}

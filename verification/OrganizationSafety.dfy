/**
 What every step keeps, whichever legal candidate is chosen and whatever the reports say.
 */
module OrganizationSafety {
  import opened Wrappers
  import opened OrganizationModel

  // ---------------------------------------------------------------- the invariant

  function ParentOf(nodes: seq<Node>, i: NodeId): (p: NodeId)
    requires TreeShaped(nodes) && 1 <= i < |nodes|
    ensures p < i && nodes[i].parent == Some(p) && nodes[i].depth == nodes[p].depth + 1
  {
    assert HasParent(nodes, i);
    nodes[i].parent.value
  }

  /** A finished node has only finished children, and the root never finishes. */
  predicate FinishedBelow(nodes: seq<Node>)
    requires TreeShaped(nodes)
  {
    && !Finished(nodes[0].status)
    && forall i :: 1 <= i < |nodes| && Finished(nodes[ParentOf(nodes, i)].status) ==> Finished(nodes[i].status)
  }

  /** One dependency edge: it points to a later node, a resolved one has a finished
      producer, a returned producer has resolved it, and its consumer may run only
      when it is resolved. */
  predicate EdgeSound(nodes: seq<Node>, d: Dependency) {
    && d.producer < d.consumer < |nodes|
    && (d.resolved ==> Finished(nodes[d.producer].status))
    && (nodes[d.producer].status == Returned ==> d.resolved)
    && (nodes[d.consumer].status != WaitingDependency ==> d.resolved)
  }

  predicate EdgesSound(nodes: seq<Node>, dependencies: seq<Dependency>) {
    forall k :: 0 <= k < |dependencies| ==> EdgeSound(nodes, dependencies[k])
  }

  predicate WaitersBlocked(nodes: seq<Node>, dependencies: seq<Dependency>) {
    forall i :: 0 <= i < |nodes| && nodes[i].status == WaitingDependency ==> !AllResolved(dependencies, i)
  }

  predicate WaitersChildless(nodes: seq<Node>)
    requires TreeShaped(nodes)
  {
    forall i :: 1 <= i < |nodes| ==> nodes[ParentOf(nodes, i)].status != WaitingDependency
  }

  predicate CommunicationForest(n: nat, edges: seq<Edge>) {
    && (forall k :: 0 <= k < |edges| ==> edges[k].source < edges[k].target < n)
    && (forall k, l :: 0 <= k < l < |edges| ==> edges[k].target != edges[l].target)
  }

  predicate DerivationsMatch(nodes: seq<Node>, edges: seq<Edge>)
    requires TreeShaped(nodes)
  {
    && |edges| == |nodes| - 1
    && forall k :: 0 <= k < |edges| ==> edges[k] == Edge(ParentOf(nodes, k + 1), k + 1)
  }

  /** The recorded gap keys and fingerprints are those of the derived nodes, none twice. */
  predicate KeysMatch(cfg: Config, s: State)
    requires TreeShaped(s.nodes)
  {
    && |s.gapKeys| == |s.fingerprints| == |s.nodes| - 1
    && (forall k :: 0 <= k < |s.gapKeys| ==> s.gapKeys[k] == (ParentOf(s.nodes, k + 1), s.nodes[k + 1].gap))
    && (forall k :: 0 <= k < |s.gapKeys| ==> s.fingerprints[k] == cfg.fingerprint(s.nodes[k + 1].objective))
    && (forall k, l :: 0 <= k < l < |s.gapKeys| ==> s.gapKeys[k] != s.gapKeys[l])
    && (forall k, l :: 0 <= k < l < |s.fingerprints| ==> s.fingerprints[k] != s.fingerprints[l])
  }

  predicate WithinCeilings(cfg: Config, nodes: seq<Node>) {
    && |nodes| <= cfg.NodeCeiling()
    && forall i :: 0 <= i < |nodes| ==> nodes[i].depth <= cfg.DepthCeiling()
  }

  /** Exactly the node whose acquisition is outstanding is waiting for it. */
  predicate PendingMatches(s: State) {
    && PendingInRange(s)
    && !(s.pendingTool.Some? && s.pendingUser.Some?)
    && forall i :: 0 <= i < |s.nodes| ==>
         (s.nodes[i].status == Waiting <==> s.pendingTool == Some(i) || s.pendingUser == Some(i))
  }

  /** Until the run has ended one model call is left; afterwards the limit still holds. */
  predicate WithinBudgets(cfg: Config, s: State) {
    && (cfg.maximumLlmCalls.Some? ==>
          s.llmCalls + (if s.termination.None? then 1 else 0) <= cfg.maximumLlmCalls.value)
    && (cfg.maximumToolCalls.Some? ==>
          s.toolCalls + (if s.pendingTool.Some? then 1 else 0) <= cfg.maximumToolCalls.value)
    && (cfg.maximumDecisions.Some? ==> s.decisions <= cfg.maximumDecisions.value)
  }

  predicate GateHolds(nodes: seq<Node>, dependencies: seq<Dependency>)
    requires TreeShaped(nodes)
  {
    EdgesSound(nodes, dependencies) && WaitersBlocked(nodes, dependencies) && WaitersChildless(nodes)
  }

  predicate Inv(cfg: Config, s: State) {
    && TreeShaped(s.nodes)
    && FinishedBelow(s.nodes)
    && GateHolds(s.nodes, s.dependencies)
    && CommunicationForest(|s.nodes|, s.communications)
    && DerivationsMatch(s.nodes, s.derivations)
    && KeysMatch(cfg, s)
    && AliasesInRange(s)
    && WithinCeilings(cfg, s.nodes)
    && PendingMatches(s)
    && WithinBudgets(cfg, s)
  }

  // ---------------------------------------------------------------- changes that keep the tree

  /** Nothing but statuses, reports and the root's objective differs. */
  predicate SameTree(nodes: seq<Node>, nodes': seq<Node>) {
    && |nodes'| == |nodes|
    && forall i :: 0 <= i < |nodes| ==> SamePlace(nodes, nodes', i)
  }

  predicate SamePlace(nodes: seq<Node>, nodes': seq<Node>, i: NodeId)
    requires i < |nodes| == |nodes'|
  {
    && nodes'[i].parent == nodes[i].parent && nodes'[i].depth == nodes[i].depth
    && nodes'[i].gap == nodes[i].gap && (i > 0 ==> nodes'[i].objective == nodes[i].objective)
  }

  lemma SameTreeKeeps(nodes: seq<Node>, nodes': seq<Node>)
    requires TreeShaped(nodes) && SameTree(nodes, nodes')
    ensures TreeShaped(nodes')
    ensures forall i :: 1 <= i < |nodes| ==> ParentOf(nodes', i) == ParentOf(nodes, i)
  {
    assert SamePlace(nodes, nodes', 0);
    forall i | 1 <= i < |nodes'| ensures HasParent(nodes', i) {
      assert HasParent(nodes, i) && SamePlace(nodes, nodes', i);
      assert SamePlace(nodes, nodes', nodes[i].parent.value);
    }
    forall i | 1 <= i < |nodes| ensures ParentOf(nodes', i) == ParentOf(nodes, i) {
      assert SamePlace(nodes, nodes', i);
    }
  }

  /** A step that keeps the tree and the ledgers of derived work keeps what concerns them. */
  lemma SameTreeKeepsRecords(cfg: Config, s: State, s': State)
    requires Inv(cfg, s) && SameTree(s.nodes, s'.nodes)
    requires s'.derivations == s.derivations && s'.gapKeys == s.gapKeys && s'.fingerprints == s.fingerprints
    requires s'.aliases == s.aliases
    ensures TreeShaped(s'.nodes) && DerivationsMatch(s'.nodes, s'.derivations) && KeysMatch(cfg, s')
    ensures AliasesInRange(s') && WithinCeilings(cfg, s'.nodes)
  {
    SameTreeKeeps(s.nodes, s'.nodes);
    forall i | 0 <= i < |s.nodes| ensures s'.nodes[i].depth == s.nodes[i].depth {
      assert SamePlace(s.nodes, s'.nodes, i);
    }
    forall i | 1 <= i < |s.nodes|
      ensures s'.nodes[i].gap == s.nodes[i].gap && s'.nodes[i].objective == s.nodes[i].objective
    {
      assert SamePlace(s.nodes, s'.nodes, i);
    }
  }

  /** Only node a changes status, between two unfinished ones other than waiting for a
      dependency. */
  lemma UnfinishedChangeKeeps(nodes: seq<Node>, nodes': seq<Node>, dependencies: seq<Dependency>, a: NodeId)
    requires TreeShaped(nodes) && TreeShaped(nodes') && SameTree(nodes, nodes')
    requires FinishedBelow(nodes) && GateHolds(nodes, dependencies)
    requires a < |nodes| && InPlay(nodes[a].status) && InPlay(nodes'[a].status)
    requires forall i :: 0 <= i < |nodes| && i != a ==> nodes'[i].status == nodes[i].status
    ensures FinishedBelow(nodes') && GateHolds(nodes', dependencies)
  {
    SameTreeKeeps(nodes, nodes');
    forall k | 0 <= k < |dependencies| ensures EdgeSound(nodes', dependencies[k]) {
      assert EdgeSound(nodes, dependencies[k]);
    }
  }

  // ---------------------------------------------------------------- the steps

  lemma RecordKeeps(cfg: Config, s: State, c: Candidate)
    requires Inv(cfg, s) && Idle(s) && !LimitReached(s.decisions, cfg.maximumDecisions)
    requires c.Derive? ==> HasSpec(s, c.actor, c.index)
    ensures Inv(cfg, Record(s, c)) && Idle(Record(s, c))
  {
  }

  lemma ExecuteKeeps(cfg: Config, s: State, a: NodeId, report: Report)
    requires Inv(cfg, s) && Idle(s) && StatusIs(s, a, Ready)
    requires !RemainingAtMost(s.llmCalls, cfg.maximumLlmCalls, 1)
    ensures Inv(cfg, AfterExecute(s, a, report))
  {
    var s' := AfterExecute(s, a, report);
    SameTreeKeepsRecords(cfg, s, s');
    UnfinishedChangeKeeps(s.nodes, s'.nodes, s.dependencies, a);
  }

  lemma ConnectKeeps(cfg: Config, s: State, f: NodeId, t: NodeId)
    requires Inv(cfg, s) && MayShare(s, f, t)
    ensures Inv(cfg, AfterConnect(s, f, t))
  {
    var s' := AfterConnect(s, f, t);
    SameTreeKeepsRecords(cfg, s, s');
    UnfinishedChangeKeeps(s.nodes, s'.nodes, s.dependencies, t);
  }

  lemma AcquireUserKeeps(cfg: Config, s: State, a: NodeId)
    requires Inv(cfg, s) && Idle(s) && StatusIs(s, a, Reported)
    ensures Inv(cfg, AfterAcquireUser(s, a))
  {
    var s' := AfterAcquireUser(s, a);
    SameTreeKeepsRecords(cfg, s, s');
    UnfinishedChangeKeeps(s.nodes, s'.nodes, s.dependencies, a);
  }

  lemma AcquireToolKeeps(cfg: Config, s: State, a: NodeId, tool: string)
    requires Inv(cfg, s) && Idle(s) && StatusIs(s, a, Reported)
    requires !RemainingAtMost(s.llmCalls, cfg.maximumLlmCalls, 1)
    requires !LimitReached(s.toolCalls, cfg.maximumToolCalls)
    ensures Inv(cfg, AfterAcquireTool(cfg, s, a, tool))
  {
    var s' := AfterAcquireTool(cfg, s, a, tool);
    SameTreeKeepsRecords(cfg, s, s');
    UnfinishedChangeKeeps(s.nodes, s'.nodes, s.dependencies, a);
  }

  lemma PruneKeeps(cfg: Config, s: State, t: NodeId)
    requires Inv(cfg, s) && StatusIs(s, t, Returned)
    ensures Inv(cfg, AfterPrune(s, t))
  {
    var s' := AfterPrune(s, t);
    SameTreeKeepsRecords(cfg, s, s');
    SameTreeKeeps(s.nodes, s'.nodes);
    forall k | 0 <= k < |s.dependencies| ensures EdgeSound(s'.nodes, s.dependencies[k]) {
      assert EdgeSound(s.nodes, s.dependencies[k]);
    }
  }

  lemma StopKeeps(cfg: Config, s: State)
    requires Inv(cfg, s) && Idle(s)
    ensures Inv(cfg, AfterStop(s))
  {
  }

  lemma AnswerKeeps(cfg: Config, s: State, s': State, a: NodeId)
    requires Inv(cfg, s) && a < |s.nodes| && InPlay(s.nodes[a].status)
    requires s'.nodes == SetStatus(s.nodes, a, Ready)
    requires s'.derivations == s.derivations && s'.gapKeys == s.gapKeys && s'.fingerprints == s.fingerprints
    requires s'.aliases == s.aliases && s'.dependencies == s.dependencies && s'.communications == s.communications
    requires PendingMatches(s') && WithinBudgets(cfg, s')
    ensures Inv(cfg, s')
  {
    SameTreeKeepsRecords(cfg, s, s');
    UnfinishedChangeKeeps(s.nodes, s'.nodes, s.dependencies, a);
  }

  // ---------------------------------------------------------------- returning

  /** What returning a does to every status. */
  function StatusAfterReturn(nodes: seq<Node>, dependencies: seq<Dependency>, a: NodeId, i: NodeId): Status
    requires i < |nodes| && a < |nodes|
  {
    if nodes[a].parent == Some(i) then Ready
    else if i == a then Returned
    else WokenStatus(ResolveFrom(dependencies, a), i, nodes[i].status)
  }

  lemma ReturnedStatuses(nodes: seq<Node>, dependencies: seq<Dependency>, a: NodeId)
    requires TreeShaped(nodes) && 1 <= a < |nodes|
    ensures nodes[a].parent == Some(ParentOf(nodes, a))
    ensures SameTree(nodes, ReturnedNodes(nodes, dependencies, a))
    ensures forall i :: 0 <= i < |nodes| ==>
              && ReturnedNodes(nodes, dependencies, a)[i].status == StatusAfterReturn(nodes, dependencies, a, i)
              && ReturnedNodes(nodes, dependencies, a)[i].report == nodes[i].report
  {
  }

  /** A reported node whose children are finished returns: no node below a finished one
      stays unfinished, and its parent was unfinished. */
  lemma ReturnKeepsFinished(nodes: seq<Node>, dependencies: seq<Dependency>, a: NodeId)
    requires TreeShaped(nodes) && 1 <= a < |nodes| && FinishedBelow(nodes) && nodes[a].status == Reported
    requires forall i :: 0 <= i < |nodes| && nodes[i].parent == Some(a) ==> Finished(nodes[i].status)
    ensures nodes[a].parent == Some(ParentOf(nodes, a))
    ensures TreeShaped(ReturnedNodes(nodes, dependencies, a))
    ensures FinishedBelow(ReturnedNodes(nodes, dependencies, a))
    ensures !Finished(nodes[ParentOf(nodes, a)].status)
  {
    assert HasParent(nodes, a);
    var r := ReturnedNodes(nodes, dependencies, a);
    ReturnedStatuses(nodes, dependencies, a);
    SameTreeKeeps(nodes, r);
    forall i | 1 <= i < |r| && Finished(r[ParentOf(r, i)].status) ensures Finished(r[i].status) {
      assert r[i].status == StatusAfterReturn(nodes, dependencies, a, i);
      assert r[ParentOf(r, i)].status == StatusAfterReturn(nodes, dependencies, a, ParentOf(nodes, i));
    }
  }

  lemma ReturnKeepsGate(nodes: seq<Node>, dependencies: seq<Dependency>, a: NodeId)
    requires TreeShaped(nodes) && 1 <= a < |nodes| && GateHolds(nodes, dependencies) && nodes[a].status == Reported
    requires nodes[a].parent == Some(ParentOf(nodes, a)) && !Finished(nodes[ParentOf(nodes, a)].status)
    requires TreeShaped(ReturnedNodes(nodes, dependencies, a))
    ensures GateHolds(ReturnedNodes(nodes, dependencies, a), ResolveFrom(dependencies, a))
  {
    var r := ReturnedNodes(nodes, dependencies, a);
    var resolved := ResolveFrom(dependencies, a);
    ReturnedStatuses(nodes, dependencies, a);
    SameTreeKeeps(nodes, r);
    forall k | 0 <= k < |resolved| ensures EdgeSound(r, resolved[k]) {
      assert EdgeSound(nodes, dependencies[k]);
      var d := dependencies[k];
      assert r[d.producer].status == StatusAfterReturn(nodes, dependencies, a, d.producer);
      assert r[d.consumer].status == StatusAfterReturn(nodes, dependencies, a, d.consumer);
    }
    forall i | 0 <= i < |r| && r[i].status == WaitingDependency ensures !AllResolved(resolved, i) {
      assert r[i].status == StatusAfterReturn(nodes, dependencies, a, i);
      WaiterHasIncoming(nodes, dependencies, a, i);
    }
    forall i | 1 <= i < |r| ensures r[ParentOf(r, i)].status != WaitingDependency {
      assert r[ParentOf(r, i)].status == StatusAfterReturn(nodes, dependencies, a, ParentOf(nodes, i));
    }
  }

  lemma WaiterHasIncoming(nodes: seq<Node>, dependencies: seq<Dependency>, a: NodeId, i: NodeId)
    requires WaitersBlocked(nodes, dependencies) && i < |nodes| && nodes[i].status == WaitingDependency
    ensures HasIncoming(ResolveFrom(dependencies, a), i)
  {
  }

  lemma ReturnKeeps(cfg: Config, s: State, a: NodeId)
    requires Inv(cfg, s) && Idle(s) && a != 0 && StatusIs(s, a, Reported) && Legal(cfg, s, Return(a))
    ensures s.nodes[a].parent.Some? && s.nodes[a].parent.value < |s.nodes|
    ensures Inv(cfg, AfterReturn(s, a))
  {
    assert s.nodes[a].parent == Some(ParentOf(s.nodes, a));
    var s' := AfterReturn(s, a);
    ReturnKeepsFinished(s.nodes, s.dependencies, a);
    ReturnKeepsGate(s.nodes, s.dependencies, a);
    ReturnedStatuses(s.nodes, s.dependencies, a);
    SameTreeKeepsRecords(cfg, s, s');
    forall i | 0 <= i < |s'.nodes| ensures s'.nodes[i].status != Waiting {
      assert s'.nodes[i].status == StatusAfterReturn(s.nodes, s.dependencies, a, i);
    }
  }

  // ---------------------------------------------------------------- deriving

  lemma GrownTree(nodes: seq<Node>, child: Node, a: NodeId)
    requires TreeShaped(nodes) && a < |nodes| && child.parent == Some(a) && child.depth == nodes[a].depth + 1
    ensures TreeShaped(nodes + [child])
    ensures forall i :: 1 <= i < |nodes| ==> ParentOf(nodes + [child], i) == ParentOf(nodes, i)
    ensures ParentOf(nodes + [child], |nodes|) == a
  {
    var grown := nodes + [child];
    forall i | 1 <= i < |grown| ensures HasParent(grown, i) {
      if i < |nodes| { assert HasParent(nodes, i); }
    }
  }

  /** added holds the edges from some existing nodes to the node about to be added. */
  predicate FreshEdges(nodes: seq<Node>, added: seq<Dependency>) {
    forall k :: 0 <= k < |added| ==>
      && added[k].producer < |nodes| && added[k].consumer == |nodes|
      && added[k].resolved == (nodes[added[k].producer].status == Returned)
  }

  lemma OldWaitersUnchanged(nodes: seq<Node>, dependencies: seq<Dependency>, added: seq<Dependency>, i: NodeId)
    requires i < |nodes| && FreshEdges(nodes, added)
    ensures AllResolved(dependencies + added, i) ==> AllResolved(dependencies, i)
  {
    if AllResolved(dependencies + added, i) {
      forall k | 0 <= k < |dependencies| && dependencies[k].consumer == i ensures dependencies[k].resolved {
        assert (dependencies + added)[k] == dependencies[k];
      }
    }
  }

  lemma GrownEdgesSound(nodes: seq<Node>, dependencies: seq<Dependency>, added: seq<Dependency>, child: Node)
    requires EdgesSound(nodes, dependencies) && FreshEdges(nodes, added)
    requires child.status == if AllResolved(dependencies + added, |nodes|) then Ready else WaitingDependency
    ensures EdgesSound(nodes + [child], dependencies + added)
  {
  }

  lemma DeriveKeepsGate(nodes: seq<Node>, dependencies: seq<Dependency>, added: seq<Dependency>, child: Node, a: NodeId)
    requires TreeShaped(nodes) && GateHolds(nodes, dependencies) && FreshEdges(nodes, added)
    requires a < |nodes| && nodes[a].status == Reported
    requires child.parent == Some(a) && child.depth == nodes[a].depth + 1
    requires child.status == if AllResolved(dependencies + added, |nodes|) then Ready else WaitingDependency
    requires TreeShaped(nodes + [child])
    ensures GateHolds(nodes + [child], dependencies + added)
  {
    var grown := nodes + [child];
    var edges := dependencies + added;
    GrownTree(nodes, child, a);
    GrownEdgesSound(nodes, dependencies, added, child);
    forall i | 0 <= i < |grown| && grown[i].status == WaitingDependency ensures !AllResolved(edges, i) {
      if i < |nodes| { OldWaitersUnchanged(nodes, dependencies, added, i); }
    }
  }

  lemma DeriveKeepsRecords(cfg: Config, s: State, a: NodeId, i: nat)
    requires Inv(cfg, s) && NewWork(cfg, s, a, i)
    requires |s.nodes| < cfg.NodeCeiling() && s.nodes[a].depth < cfg.DepthCeiling()
    ensures var s' := AfterDerive(cfg, s, a, i);
            && TreeShaped(s'.nodes) && FinishedBelow(s'.nodes)
            && DerivationsMatch(s'.nodes, s'.derivations) && KeysMatch(cfg, s')
            && WithinCeilings(cfg, s'.nodes)
  {
    var s' := AfterDerive(cfg, s, a, i);
    GrownTree(s.nodes, s'.nodes[|s.nodes|], a);
    forall k | 0 <= k < |s'.derivations| ensures s'.derivations[k] == Edge(ParentOf(s'.nodes, k + 1), k + 1) {
    }
    forall k | 0 <= k < |s'.gapKeys|
      ensures s'.gapKeys[k] == (ParentOf(s'.nodes, k + 1), s'.nodes[k + 1].gap)
      ensures s'.fingerprints[k] == cfg.fingerprint(s'.nodes[k + 1].objective)
    {
    }
  }

  lemma NoEdgesToNewNode(nodes: seq<Node>, dependencies: seq<Dependency>)
    requires EdgesSound(nodes, dependencies)
    ensures forall k :: 0 <= k < |dependencies| ==> dependencies[k].consumer < |nodes|
    ensures AllResolved(dependencies, |nodes|)
  {
  }

  lemma DeriveKeeps(cfg: Config, s: State, a: NodeId, i: nat)
    requires Inv(cfg, s) && Idle(s) && NewWork(cfg, s, a, i)
    requires |s.nodes| < cfg.NodeCeiling() && s.nodes[a].depth < cfg.DepthCeiling()
    ensures Inv(cfg, AfterDerive(cfg, s, a, i))
  {
    var s' := AfterDerive(cfg, s, a, i);
    DeriveKeepsRecords(cfg, s, a, i);
    NoEdgesToNewNode(s.nodes, s.dependencies);
    assert Producers(s, a, i) == [] ==> s'.dependencies == s.dependencies;
    DeriveKeepsGate(s.nodes, s.dependencies, NewDependencies(s.nodes, Producers(s, a, i), |s.nodes|),
                    s'.nodes[|s.nodes|], a);
    assert CommunicationForest(|s'.nodes|, s'.communications);
    assert PendingMatches(s');
  }

  // ---------------------------------------------------------------- one step

  lemma InitialHolds(cfg: Config, objective: string)
    requires cfg.Valid()
    ensures Inv(cfg, Initial(objective))
  {
  }

  lemma OfferedIsApplicable(cfg: Config, s: State, c: Candidate)
    requires Inv(cfg, s) && Offered(cfg, s, c)
    ensures Applicable(s, c)
  {
    if c.Return? { assert s.nodes[c.actor].parent == Some(ParentOf(s.nodes, c.actor)); }
  }

  lemma DecisionKeeps(cfg: Config, s: State, c: Candidate, report: Report)
    requires Inv(cfg, s) && Enabled(cfg, s, Decision(c, report))
    ensures Applicable(s, c) && Inv(cfg, Decide(cfg, s, c, report))
  {
    hide FinishedBelow, GateHolds, CommunicationForest, DerivationsMatch, KeysMatch, WithinCeilings, PendingMatches,
         WithinBudgets;
    OfferedIsApplicable(cfg, s, c);
    RecordKeeps(cfg, s, c);
    var r := Record(s, c);
    match c
    case Execute(a) => ExecuteKeeps(cfg, r, a, report);
    case Derive(a, i) => DeriveKeeps(cfg, r, a, i);
    case AcquireUser(a, _) => AcquireUserKeeps(cfg, r, a);
    case AcquireTool(a, t) => AcquireToolKeeps(cfg, r, a, t);
    case Return(a) => ReturnKeeps(cfg, r, a);
    case Prune(t) => PruneKeeps(cfg, r, t);
    case Connect(f, t) => ConnectKeeps(cfg, r, f, t);
    case Stop => StopKeeps(cfg, r);
    case StopFallback => StopKeeps(cfg, r);
  }

  lemma RootPlays(nodes: seq<Node>, dependencies: seq<Dependency>)
    requires TreeShaped(nodes) && FinishedBelow(nodes) && GateHolds(nodes, dependencies)
    ensures InPlay(nodes[0].status)
  {
  }

  lemma UserMessageKeeps(cfg: Config, s: State, objective: string)
    requires Inv(cfg, s) && Idle(s)
    ensures Inv(cfg, AfterUserMessage(s, objective))
  {
    var s' := AfterUserMessage(s, objective);
    RootPlays(s.nodes, s.dependencies);
    SameTreeKeepsRecords(cfg, s, s');
    UnfinishedChangeKeeps(s.nodes, s'.nodes, s.dependencies, 0);
  }

  /** Whatever happens next is defined, and the invariant survives it. */
  lemma StepKeeps(cfg: Config, s: State, e: Event)
    requires Inv(cfg, s) && Enabled(cfg, s, e)
    ensures Defined(s, e) && Inv(cfg, Next(cfg, s, e))
  {
    match e
    case Decision(c, report) => DecisionKeeps(cfg, s, c, report);
    case ToolReply(failed) => AnswerKeeps(cfg, s, AfterToolObservation(s, failed), s.pendingTool.value);
    case UserReply => AnswerKeeps(cfg, s, AfterUserObservation(s), s.pendingUser.value);
    case UserMessage(objective) => UserMessageKeeps(cfg, s, objective);
    case Truncation(_) =>
  }

  // ---------------------------------------------------------------- every run

  /** Every state of every run satisfies the invariant, and no step of it is undefined. */
  lemma {:induction false} EveryRunIsSafe(cfg: Config, states: seq<State>, events: seq<Event>, k: nat)
    requires cfg.Valid() && IsRunFromStart(cfg, states, events) && k < |states|
    ensures Inv(cfg, states[k])
    ensures k < |events| ==> Defined(states[k], events[k]) && states[k + 1] == Next(cfg, states[k], events[k])
    decreases k
  {
    if k == 0 {
      var objective :| states[0] == Initial(objective);
      InitialHolds(cfg, objective);
    } else {
      EveryRunIsSafe(cfg, states, events, k - 1);
      assert IsStep(cfg, states[k - 1], events[k - 1], states[k]);
      StepKeeps(cfg, states[k - 1], events[k - 1]);
    }
    if k < |events| {
      assert IsStep(cfg, states[k], events[k], states[k + 1]);
      StepKeeps(cfg, states[k], events[k]);
    }
  }

  // ---------------------------------------------------------------- finished stays finished

  lemma {:induction false} FinishedCoversSubtree(nodes: seq<Node>, a: NodeId, b: NodeId)
    requires TreeShaped(nodes) && FinishedBelow(nodes) && a < |nodes| && b < |nodes|
    requires Above(nodes, a, b) && Finished(nodes[a].status)
    ensures Finished(nodes[b].status)
    decreases b
  {
    if a != b {
      assert HasParent(nodes, b);
      FinishedCoversSubtree(nodes, a, ParentOf(nodes, b));
    }
  }

  /** A finished node can only go from returned to pruned. */
  predicate FinishedOnlyPruned(before: Status, after: Status) {
    Finished(before) ==> after == before || after == Pruned
  }

  lemma ReturnLeavesFinished(s: State, a: NodeId, i: NodeId)
    requires TreeShaped(s.nodes) && FinishedBelow(s.nodes) && i < |s.nodes|
    requires 1 <= a < |s.nodes| && s.nodes[a].status == Reported
    requires forall j :: 0 <= j < |s.nodes| && s.nodes[j].parent == Some(a) ==> Finished(s.nodes[j].status)
    requires s.nodes[a].parent.Some? && s.nodes[a].parent.value < |s.nodes|
    ensures FinishedOnlyPruned(s.nodes[i].status, AfterReturn(s, a).nodes[i].status)
  {
    ReturnedStatuses(s.nodes, s.dependencies, a);
    ReturnKeepsFinished(s.nodes, s.dependencies, a);
    assert AfterReturn(s, a).nodes[i].status == StatusAfterReturn(s.nodes, s.dependencies, a, i);
  }

  lemma StepLeavesFinished(cfg: Config, s: State, e: Event, i: NodeId)
    requires Inv(cfg, s) && Enabled(cfg, s, e) && Defined(s, e) && i < |s.nodes|
    ensures i < |Next(cfg, s, e).nodes|
    ensures FinishedOnlyPruned(s.nodes[i].status, Next(cfg, s, e).nodes[i].status)
  {
    if e.Decision? && e.choice.Return? {
      assert HasParent(s.nodes, e.choice.actor);
      ReturnLeavesFinished(Record(s, e.choice), e.choice.actor, i);
    }
  }

  /** In every run a node that has returned or was pruned is never worked on again: at any
      later moment it is returned or pruned, once pruned it stays pruned, and so is
      everything below it. */
  lemma {:induction false} FinishedStaysFinished(cfg: Config, states: seq<State>, events: seq<Event>,
                                                j: nat, k: nat, a: NodeId, b: NodeId)
    requires cfg.Valid() && IsRunFromStart(cfg, states, events) && j <= k < |states|
    requires a < |states[j].nodes| && Finished(states[j].nodes[a].status)
    ensures a < |states[k].nodes| && FinishedOnlyPruned(states[j].nodes[a].status, states[k].nodes[a].status)
    ensures TreeShaped(states[k].nodes)
    ensures b < |states[k].nodes| && Above(states[k].nodes, a, b) ==> Finished(states[k].nodes[b].status)
    decreases k - j
  {
    hide Next, Enabled, GateHolds, CommunicationForest, DerivationsMatch, KeysMatch, WithinCeilings, PendingMatches,
         WithinBudgets;
    EveryRunIsSafe(cfg, states, events, k);
    if j < k {
      FinishedStaysFinished(cfg, states, events, j, k - 1, a, b);
      EveryRunIsSafe(cfg, states, events, k - 1);
      assert IsStep(cfg, states[k - 1], events[k - 1], states[k]);
      StepLeavesFinished(cfg, states[k - 1], events[k - 1], a);
    }
    if b < |states[k].nodes| && Above(states[k].nodes, a, b) {
      FinishedCoversSubtree(states[k].nodes, a, b);
    }
  }

  // ---------------------------------------------------------------- the dependency gate

  /** At every moment of every run: a node that is not waiting for a dependency has all its
      incoming edges resolved, one that is waiting has an unresolved one, every edge from a
      returned node is resolved and every resolved edge comes from a returned or pruned one. */
  lemma DependencyGateIsExact(cfg: Config, states: seq<State>, events: seq<Event>, k: nat)
    requires cfg.Valid() && IsRunFromStart(cfg, states, events) && k < |states|
    ensures forall i :: 0 <= i < |states[k].nodes| ==>
              (states[k].nodes[i].status == WaitingDependency <==> !AllResolved(states[k].dependencies, i))
    ensures forall d :: d in states[k].dependencies ==>
              && d.producer < |states[k].nodes|
              && (states[k].nodes[d.producer].status == Returned ==> d.resolved)
              && (d.resolved ==> Finished(states[k].nodes[d.producer].status))
  {
    EveryRunIsSafe(cfg, states, events, k);
    var s := states[k];
    forall i | 0 <= i < |s.nodes| && s.nodes[i].status != WaitingDependency ensures AllResolved(s.dependencies, i) {
      forall m | 0 <= m < |s.dependencies| && s.dependencies[m].consumer == i ensures s.dependencies[m].resolved {
        assert EdgeSound(s.nodes, s.dependencies[m]);
      }
    }
    forall d | d in s.dependencies
      ensures d.producer < |s.nodes|
              && (s.nodes[d.producer].status == Returned ==> d.resolved)
              && (d.resolved ==> Finished(s.nodes[d.producer].status))
    {
      var m :| 0 <= m < |s.dependencies| && s.dependencies[m] == d;
      assert EdgeSound(s.nodes, s.dependencies[m]);
    }
  }

  // ---------------------------------------------------------------- one acyclic graph

  predicate Linked(s: State, x: NodeId, y: NodeId) {
    || Edge(x, y) in s.derivations
    || Edge(x, y) in s.communications
    || exists k :: 0 <= k < |s.dependencies| && s.dependencies[k].producer == x && s.dependencies[k].consumer == y
  }

  predicate IsPath(s: State, path: seq<NodeId>) {
    forall k :: 0 <= k < |path| - 1 ==> Linked(s, path[k], path[k + 1])
  }

  lemma LinksPointForward(cfg: Config, s: State, x: NodeId, y: NodeId)
    requires Inv(cfg, s) && Linked(s, x, y)
    ensures x < y < |s.nodes|
  {
  }

  lemma {:induction false} PathsClimb(cfg: Config, s: State, path: seq<NodeId>)
    requires Inv(cfg, s) && IsPath(s, path) && |path| >= 2
    ensures path[0] < path[|path| - 1]
  {
    var shorter := path[..|path| - 1];
    LinksPointForward(cfg, s, path[|path| - 2], path[|path| - 1]);
    if |path| > 2 {
      assert IsPath(s, shorter) by {
        forall k | 0 <= k < |shorter| - 1 ensures Linked(s, shorter[k], shorter[k + 1]) {
          assert Linked(s, path[k], path[k + 1]);
        }
      }
      PathsClimb(cfg, s, shorter);
    }
  }

  /** No path through derivation, dependency and communication edges ever comes back. */
  lemma OrganizationIsAcyclic(cfg: Config, states: seq<State>, events: seq<Event>, k: nat, path: seq<NodeId>)
    requires cfg.Valid() && IsRunFromStart(cfg, states, events) && k < |states|
    requires |path| >= 2 && IsPath(states[k], path)
    ensures path[0] != path[|path| - 1]
  {
    EveryRunIsSafe(cfg, states, events, k);
    PathsClimb(cfg, states[k], path);
  }

  // ---------------------------------------------------------------- the reserved model call

  /** With a limit L on model calls every run makes at most L, and until it ends one call is
      left.  So no turn is ever cut short for want of calls, and the final answer, whether by
      choice or by truncation, always gets a model call of its own. */
  lemma FinalAnswerHasItsCall(cfg: Config, states: seq<State>, events: seq<Event>, k: nat)
    requires cfg.Valid() && IsRunFromStart(cfg, states, events) && k < |states|
    ensures cfg.maximumLlmCalls.Some? ==> states[k].llmCalls <= cfg.maximumLlmCalls.value
    ensures states[k].termination.None? ==> !LimitReached(states[k].llmCalls, cfg.maximumLlmCalls)
    ensures k < |events| && EndsRun(events[k]) ==>
              states[k + 1].llmCalls == states[k].llmCalls + 1 && states[k + 1].termination.Some?
  {
    EveryRunIsSafe(cfg, states, events, k);
    if k < |events| {
      assert IsStep(cfg, states[k], events[k], states[k + 1]);
    }
  }

  predicate EndsRun(e: Event) {
    e.Truncation? || (e.Decision? && (e.choice.Stop? || e.choice.StopFallback?))
  }

  // ---------------------------------------------------------------- ceilings and repeated work

  /** The tree never outgrows the ceilings, each node lies one level below its parent, and no
      two derived nodes answer the same gap of the same node or pursue the same objective. */
  lemma NothingIsDerivedTwice(cfg: Config, states: seq<State>, events: seq<Event>, k: nat)
    requires cfg.Valid() && IsRunFromStart(cfg, states, events) && k < |states|
    ensures |states[k].nodes| <= cfg.envelopeNodes
    ensures cfg.maximumNodes.Some? ==> |states[k].nodes| <= cfg.maximumNodes.value
    ensures forall i :: 0 <= i < |states[k].nodes| ==>
              && states[k].nodes[i].depth <= cfg.envelopeDepth
              && (cfg.maximumDepth.Some? ==> states[k].nodes[i].depth <= cfg.maximumDepth.value)
    ensures forall i, j :: 1 <= i < j < |states[k].nodes| ==>
              (states[k].nodes[i].parent, states[k].nodes[i].gap) != (states[k].nodes[j].parent, states[k].nodes[j].gap)
    ensures forall i, j :: 1 <= i < j < |states[k].nodes| ==>
              cfg.fingerprint(states[k].nodes[i].objective) != cfg.fingerprint(states[k].nodes[j].objective)
  {
    EveryRunIsSafe(cfg, states, events, k);
    var s := states[k];
    forall i, j | 1 <= i < j < |s.nodes|
      ensures (s.nodes[i].parent, s.nodes[i].gap) != (s.nodes[j].parent, s.nodes[j].gap)
      ensures cfg.fingerprint(s.nodes[i].objective) != cfg.fingerprint(s.nodes[j].objective)
    {
      assert s.gapKeys[i - 1] != s.gapKeys[j - 1];
      assert s.fingerprints[i - 1] != s.fingerprints[j - 1];
    }
  }
}

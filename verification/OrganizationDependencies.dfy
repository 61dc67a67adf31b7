/**
 What a child depends on, said from the report that asked for it and the events of the run:
 which names count, which nodes they stand for, and what the child then waits for.
 */
module OrganizationDependencies {
  import opened Wrappers
  import opened OrganizationModel
  import opened OrganizationSafety
  import opened OrganizationBookkeeping
  import opened OrganizationDepthFirst

  // ---------------------------------------------------------------- names and nodes

  predicate NodeExists(s: State, id: Identifier) {
    id.NodeRef? && id.id < |s.nodes|
  }

  /** Child i of the report of a names id as a dependency, and the name counts: it is not a, and
      there is a node of that id, or the child is an explicit proposal and id the name of a
      proposal of the same report. */
  predicate Names(s: State, a: NodeId, i: nat, id: Identifier)
    requires HasSpec(s, a, i)
  {
    var report := s.nodes[a].report.value;
    && id in report.children[i].dependsOn && id != NodeRef(a)
    && (NodeExists(s, id) || (report.children[i].explicit && id in report.aliases))
  }

  /** What the name stands for before event k: the node of that id, or else the node that a last
      derived from the proposal of that name. */
  ghost predicate StandsFor(states: seq<State>, events: seq<Event>, k: nat, a: NodeId, id: Identifier, n: NodeId)
    requires k < |states|
  {
    if NodeExists(states[k], id) then n == id.id
    else exists j :: 0 <= j < k && LatestProposal(states, events, k, a, id, j) && n == |states[j].nodes|
  }

  /** Child i of a depends on node n: it names it, and n is neither a nor above a. */
  ghost predicate DependsOn(states: seq<State>, events: seq<Event>, k: nat, a: NodeId, i: nat, n: NodeId)
    requires k < |states| && TreeShaped(states[k].nodes) && HasSpec(states[k], a, i)
  {
    && !Above(states[k].nodes, n, a)
    && exists id :: Names(states[k], a, i, id) && StandsFor(states, events, k, a, id, n)
  }

  // ---------------------------------------------------------------- the lists the agent computes

  lemma {:induction false} SafeIff(known: nat, actor: NodeId, symbolic: set<Identifier>, ids: seq<Identifier>,
                                   id: Identifier)
    ensures id in FilterSafe(known, actor, symbolic, ids) <==>
            id in ids && id != NodeRef(actor) && ((id.NodeRef? && id.id < known) || id in symbolic)
  {
    if ids != [] { SafeIff(known, actor, symbolic, ids[1..], id); }
  }

  lemma SafeNames(s: State, a: NodeId, i: nat, id: Identifier)
    requires HasSpec(s, a, i)
    ensures id in SafeDependencies(s, a, s.nodes[a].report.value, s.nodes[a].report.value.children[i])
            <==> Names(s, a, i, id)
  {
    var report := s.nodes[a].report.value;
    var spec := report.children[i];
    SafeIff(|s.nodes|, a, if spec.explicit then report.aliases else {}, spec.dependsOn, id);
  }

  lemma {:induction false} ValidIff(s: State, a: NodeId, ids: seq<Identifier>, n: NodeId)
    requires TreeShaped(s.nodes) && a < |s.nodes|
    ensures n in ValidDependencies(s, a, ids) <==>
            !Above(s.nodes, n, a) && exists id :: id in ids && Lookup(s, a, id) == Some(n)
  {
    if ids != [] {
      var last := ids[|ids| - 1];
      var fewer := ids[..|ids| - 1];
      ValidIff(s, a, fewer, n);
      assert forall id :: id in ids <==> id in fewer || id == last;
    }
  }

  /** Names keep their order, in the list that counts and in the list of nodes, where a node stands
      at the place of its first name. */
  lemma {:induction false} NamesKeepOrder(s: State, a: NodeId, first: seq<Identifier>, id: Identifier)
    requires TreeShaped(s.nodes) && a < |s.nodes|
    ensures var known := ValidDependencies(s, a, first);
            ValidDependencies(s, a, first + [id]) ==
            if exists n :: Lookup(s, a, id) == Some(n) && n !in known && !Above(s.nodes, n, a)
            then known + [Lookup(s, a, id).value] else known
    ensures forall symbolic :: FilterSafe(|s.nodes|, a, symbolic, first + [id])
                               == FilterSafe(|s.nodes|, a, symbolic, first) + FilterSafe(|s.nodes|, a, symbolic, [id])
  {
    assert (first + [id])[..|first|] == first;
    forall symbolic
      ensures FilterSafe(|s.nodes|, a, symbolic, first + [id])
              == FilterSafe(|s.nodes|, a, symbolic, first) + FilterSafe(|s.nodes|, a, symbolic, [id])
    {
      SafeKeepsOrder(|s.nodes|, a, symbolic, first, [id]);
    }
  }

  lemma {:induction false} SafeKeepsOrder(known: nat, actor: NodeId, symbolic: set<Identifier>,
                                          ids: seq<Identifier>, more: seq<Identifier>)
    ensures FilterSafe(known, actor, symbolic, ids + more)
            == FilterSafe(known, actor, symbolic, ids) + FilterSafe(known, actor, symbolic, more)
  {
    if ids == [] {
      assert ids + more == more;
    } else {
      assert (ids + more)[1..] == ids[1..] + more;
      SafeKeepsOrder(known, actor, symbolic, ids[1..], more);
    }
  }

  lemma LookupIff(cfg: Config, states: seq<State>, events: seq<Event>, k: nat, a: NodeId, id: Identifier, n: NodeId)
    requires cfg.Valid() && IsRunFromStart(cfg, states, events) && k < |states|
    ensures Lookup(states[k], a, id) == Some(n) <==> StandsFor(states, events, k, a, id, n)
  {
    hide DerivesProposal;
    AliasesFollowDerivations(cfg, states, events, k, a, id);
    if !NodeExists(states[k], id) {
      forall i, j | 0 <= i < k && 0 <= j < k && LatestProposal(states, events, k, a, id, i)
                    && LatestProposal(states, events, k, a, id, j)
        ensures i == j
      {
      }
    }
  }

  /** The producers the agent computes are the nodes that the child depends on, each once. */
  lemma ProducersIff(cfg: Config, states: seq<State>, events: seq<Event>, k: nat, a: NodeId, i: nat, n: NodeId)
    requires cfg.Valid() && IsRunFromStart(cfg, states, events) && k < |states|
    requires TreeShaped(states[k].nodes) && AliasesInRange(states[k]) && HasSpec(states[k], a, i)
    ensures n in Producers(states[k], a, i) <==> DependsOn(states, events, k, a, i, n)
  {
    hide Names, StandsFor, SafeDependencies, TreeShaped, AliasesInRange;
    var s := states[k];
    var ids := SafeDependencies(s, a, s.nodes[a].report.value, s.nodes[a].report.value.children[i]);
    ValidIff(s, a, ids, n);
    forall id ensures id in ids <==> Names(s, a, i, id) { SafeNames(s, a, i, id); }
    forall id ensures Lookup(s, a, id) == Some(n) <==> StandsFor(states, events, k, a, id, n) {
      LookupIff(cfg, states, events, k, a, id, n);
    }
  }

  // ---------------------------------------------------------------- deriving a child

  lemma BornWaitingIff(cfg: Config, s: State, a: NodeId, i: nat)
    requires Inv(cfg, s) && HasSpec(s, a, i)
    ensures AfterDerive(cfg, s, a, i).nodes[|s.nodes|].status == WaitingDependency <==>
            exists k :: 0 <= k < |Producers(s, a, i)| && s.nodes[Producers(s, a, i)[k]].status != Returned
  {
    hide FinishedBelow, CommunicationForest, DerivationsMatch, KeysMatch, WithinCeilings, PendingMatches, WithinBudgets;
    var producers := Producers(s, a, i);
    var added := NewDependencies(s.nodes, producers, |s.nodes|);
    var edges := s.dependencies + added;
    NoEdgesToNewNode(s.nodes, s.dependencies);
    if k :| 0 <= k < |producers| && s.nodes[producers[k]].status != Returned {
      assert edges[|s.dependencies| + k] == added[k];
    } else {
      forall k | 0 <= k < |edges| && edges[k].consumer == |s.nodes| ensures edges[k].resolved {
        assert edges[k] == added[k - |s.dependencies|];
      }
    }
  }

  lemma ProducersIgnoreRecord(s: State, a: NodeId, i: nat, c: Candidate)
    requires TreeShaped(s.nodes) && AliasesInRange(s) && HasSpec(s, a, i) && c == Derive(a, i)
    ensures Producers(Record(s, c), a, i) == Producers(s, a, i)
  {
    var report := s.nodes[a].report.value;
    SameValidDependencies(s, Record(s, c), a, SafeDependencies(s, a, report, report.children[i]));
  }

  lemma {:induction false} SameValidDependencies(s: State, s': State, a: NodeId, identifiers: seq<Identifier>)
    requires TreeShaped(s.nodes) && a < |s.nodes| && s'.nodes == s.nodes && s'.aliases == s.aliases
    ensures ValidDependencies(s', a, identifiers) == ValidDependencies(s, a, identifiers)
  {
    if identifiers != [] { SameValidDependencies(s, s', a, identifiers[..|identifiers| - 1]); }
  }

  /** The last edges of s', from position old on, lead to the child: one from each node it depends
      on, resolved when that node has returned, and no others. */
  ghost predicate EdgesFromNames(states: seq<State>, events: seq<Event>, k: nat, a: NodeId, i: nat,
                                 added: seq<Dependency>)
    requires k < |states| && TreeShaped(states[k].nodes) && HasSpec(states[k], a, i)
  {
    var nodes := states[k].nodes;
    && (forall m :: 0 <= m < |added| ==>
          && added[m].consumer == |nodes| && added[m].producer < |nodes|
          && DependsOn(states, events, k, a, i, added[m].producer)
          && (added[m].resolved <==> nodes[added[m].producer].status == Returned))
    && (forall n :: DependsOn(states, events, k, a, i, n) ==> exists m :: 0 <= m < |added| && added[m].producer == n)
    && (forall m, l :: 0 <= m < l < |added| ==> added[m].producer != added[l].producer)
  }

  /** The child depends on a node that has not returned. */
  ghost predicate MustWait(states: seq<State>, events: seq<Event>, k: nat, a: NodeId, i: nat)
    requires k < |states| && TreeShaped(states[k].nodes) && HasSpec(states[k], a, i)
  {
    exists n :: 0 <= n < |states[k].nodes|
                && DependsOn(states, events, k, a, i, n) && states[k].nodes[n].status != Returned
  }

  /** What a derivation does, whatever the run so far: the child gets the place, objective and gap
      that the report gives it and exactly the edges that its names call for, and it waits if and
      only if one of those nodes has not returned.  Other nodes and edges stay as they are. */
  lemma ChildGetsItsEdges(cfg: Config, states: seq<State>, events: seq<Event>, k: nat, a: NodeId, i: nat)
    requires cfg.Valid() && IsRunFromStart(cfg, states, events) && k < |events|
    requires events[k].Decision? && events[k].choice == Derive(a, i)
    ensures TreeShaped(states[k].nodes) && HasSpec(states[k], a, i)
    ensures |states[k + 1].dependencies| >= |states[k].dependencies|
    ensures states[k + 1].dependencies[..|states[k].dependencies|] == states[k].dependencies
    ensures EdgesFromNames(states, events, k, a, i, states[k + 1].dependencies[|states[k].dependencies|..])
    ensures var spec := states[k].nodes[a].report.value.children[i];
            states[k + 1].nodes == states[k].nodes
            + [Node(Some(a), states[k].nodes[a].depth + 1, spec.objective, spec.gap,
                    if MustWait(states, events, k, a, i) then WaitingDependency else Ready, None)]
  {
    hide Inv, Next, DependsOn, EdgesFromNames, MustWait, AreProducers, Producers, NewDependencies,
         Enabled;
    EveryRunIsSafe(cfg, states, events, k);
    assert IsStep(cfg, states[k], events[k], states[k + 1]);
    DerivedStep(cfg, states[k], events[k], a, i);
    var producers := Producers(states[k], a, i);
    ProducersAreThose(cfg, states, events, k, a, i);
    WaitMatchesNames(states, events, k, a, i, producers);
    EdgesMatchNames(states, events, k, a, i, Producers(states[k], a, i));
    var added := NewDependencies(states[k].nodes, Producers(states[k], a, i), |states[k].nodes|);
    assert states[k + 1].dependencies[|states[k].dependencies|..] == added;
  }

  /** The list holds exactly the nodes that the child depends on. */
  ghost predicate AreProducers(states: seq<State>, events: seq<Event>, k: nat, a: NodeId, i: nat,
                               producers: seq<NodeId>)
    requires k < |states| && TreeShaped(states[k].nodes) && HasSpec(states[k], a, i)
  {
    && (forall m :: 0 <= m < |producers| ==>
          producers[m] < |states[k].nodes| && DependsOn(states, events, k, a, i, producers[m]))
    && (forall n :: DependsOn(states, events, k, a, i, n) ==> exists m :: 0 <= m < |producers| && producers[m] == n)
    && (forall m, l :: 0 <= m < l < |producers| ==> producers[m] != producers[l])
  }

  lemma ProducersAreThose(cfg: Config, states: seq<State>, events: seq<Event>, k: nat, a: NodeId, i: nat)
    requires cfg.Valid() && IsRunFromStart(cfg, states, events) && k < |states|
    requires TreeShaped(states[k].nodes) && AliasesInRange(states[k]) && HasSpec(states[k], a, i)
    ensures AreProducers(states, events, k, a, i, Producers(states[k], a, i))
  {
    hide DependsOn, TreeShaped, HasSpec, AliasesInRange;
    ProducersDiffer(states[k], a, i);
    var producers := Producers(states[k], a, i);
    forall m | 0 <= m < |producers| ensures DependsOn(states, events, k, a, i, producers[m]) {
      ProducersIff(cfg, states, events, k, a, i, producers[m]);
    }
    forall n | DependsOn(states, events, k, a, i, n) ensures exists m :: 0 <= m < |producers| && producers[m] == n {
      ProducersIff(cfg, states, events, k, a, i, n);
    }
  }

  lemma EdgesMatchNames(states: seq<State>, events: seq<Event>, k: nat, a: NodeId, i: nat, producers: seq<NodeId>)
    requires k < |states| && TreeShaped(states[k].nodes) && HasSpec(states[k], a, i)
    requires AreProducers(states, events, k, a, i, producers)
    ensures EdgesFromNames(states, events, k, a, i,
                           NewDependencies(states[k].nodes, producers, |states[k].nodes|))
  {
    hide DependsOn, TreeShaped, HasSpec;
    var added := NewDependencies(states[k].nodes, producers, |states[k].nodes|);
    forall n | DependsOn(states, events, k, a, i, n)
      ensures exists m :: 0 <= m < |added| && added[m].producer == n
    {
      var m :| 0 <= m < |producers| && producers[m] == n;
      assert added[m].producer == n;
    }
  }

  lemma WaitMatchesNames(states: seq<State>, events: seq<Event>, k: nat, a: NodeId, i: nat, producers: seq<NodeId>)
    requires k < |states| && TreeShaped(states[k].nodes) && HasSpec(states[k], a, i)
    requires AreProducers(states, events, k, a, i, producers)
    ensures MustWait(states, events, k, a, i) <==>
            exists m :: 0 <= m < |producers| && states[k].nodes[producers[m]].status != Returned
  {
    hide DependsOn, TreeShaped, HasSpec;
  }

  /** The same, in terms of the list of producers. */
  lemma DerivedStep(cfg: Config, s: State, e: Event, a: NodeId, i: nat)
    requires Inv(cfg, s) && Enabled(cfg, s, e) && e.Decision? && e.choice == Derive(a, i)
    ensures HasSpec(s, a, i) && TreeShaped(s.nodes) && AliasesInRange(s) && Defined(s, e)
    ensures var producers, spec := Producers(s, a, i), s.nodes[a].report.value.children[i];
            && Next(cfg, s, e).dependencies == s.dependencies + NewDependencies(s.nodes, producers, |s.nodes|)
            && (forall m, l :: 0 <= m < l < |producers| ==> producers[m] != producers[l])
            && Next(cfg, s, e).nodes == s.nodes
               + [Node(Some(a), s.nodes[a].depth + 1, spec.objective, spec.gap,
                       if exists k :: 0 <= k < |producers| && s.nodes[producers[k]].status != Returned
                       then WaitingDependency else Ready, None)]
  {
    StepKeeps(cfg, s, e);
    hide Inv, TreeShaped, AliasesInRange, Producers, SafeDependencies, Legal, Offered;
    RecordKeeps(cfg, s, e.choice);
    ProducersIgnoreRecord(s, a, i, e.choice);
    ProducersDiffer(s, a, i);
    BornWaitingIff(cfg, Record(s, e.choice), a, i);
  }

  lemma ProducersDiffer(s: State, a: NodeId, i: nat)
    requires TreeShaped(s.nodes) && AliasesInRange(s) && HasSpec(s, a, i)
    ensures forall m, l :: 0 <= m < l < |Producers(s, a, i)| ==> Producers(s, a, i)[m] != Producers(s, a, i)[l]
  {
    var report := s.nodes[a].report.value;
    ValidDependenciesExist(s, a, SafeDependencies(s, a, report, report.children[i]));
  }

  /** DERIVE is legal exactly while there is room for a node and a level under both ceilings, and
      everything the child names stands for some node: a name that only a proposal of the report
      has, once that proposal has been derived. */
  lemma DeriveLegalIff(cfg: Config, states: seq<State>, events: seq<Event>, k: nat, a: NodeId, i: nat)
    requires cfg.Valid() && IsRunFromStart(cfg, states, events) && k < |states| && HasSpec(states[k], a, i)
    ensures Legal(cfg, states[k], Derive(a, i)) <==>
            && |states[k].nodes| < cfg.envelopeNodes
            && (cfg.maximumNodes.Some? ==> |states[k].nodes| < cfg.maximumNodes.value)
            && states[k].nodes[a].depth < cfg.envelopeDepth
            && (cfg.maximumDepth.Some? ==> states[k].nodes[a].depth < cfg.maximumDepth.value)
            && (forall id :: Names(states[k], a, i, id) && !NodeExists(states[k], id) ==>
                  exists j :: 0 <= j < k && DerivesProposal(states[j], events[j], a, id))
  {
    hide Names, SafeDependencies, DerivesProposal;
    var s := states[k];
    var ids := SafeDependencies(s, a, s.nodes[a].report.value, s.nodes[a].report.value.children[i]);
    forall id
      ensures id in ids <==> Names(s, a, i, id)
      ensures Known(s, a, id) <==>
              NodeExists(s, id) || exists j :: 0 <= j < k && DerivesProposal(states[j], events[j], a, id)
    {
      SafeNames(s, a, i, id);
      AliasesFollowDerivations(cfg, states, events, k, a, id);
    }
    assert DependenciesAvailable(s, a, ids) <==> forall id :: id in ids ==> Known(s, a, id);
  }

  /** The exact condition under which a derived child ever runs: when it is derived, every node
      that it depends on has returned and is not pruned.  Otherwise it waits for ever. */
  lemma ChildRunsIffProducersReturned(cfg: Config, states: seq<State>, events: seq<Event>, j: nat, k: nat,
                                      a: NodeId, i: nat)
    requires cfg.Valid() && IsScheduledRun(cfg, states, events) && j < k < |states|
    requires events[j].Decision? && events[j].choice == Derive(a, i)
    ensures TreeShaped(states[j].nodes) && HasSpec(states[j], a, i) && |states[j].nodes| < |states[k].nodes|
    ensures states[k].nodes[|states[j].nodes|].status == WaitingDependency <==> MustWait(states, events, j, a, i)
  {
    ScheduledRunsAreRuns(cfg, states, events);
    ChildGetsItsEdges(cfg, states, events, j, a, i);
    WaitingIsForLife(cfg, states, events, j + 1, k, |states[j].nodes|);
  }
}

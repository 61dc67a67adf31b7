/**
 Three runs under the scheduler.  In the first a derived node never gets to run: its producer
 had answered, but was pruned before the node was derived.  In the other two a turn raises:
 once because a node must execute with one model call left, once because a node waits for a
 child that will never run.
 */
module OrganizationStuckRun {
  import opened Wrappers
  import opened OrganizationModel
  import opened OrganizationDepthFirst
  import opened OrganizationScheduler
  import opened OrganizationStranding

  function Limited(calls: Option<nat>): (cfg: Config)
    requires calls.Some? ==> calls.value >= 1
    ensures cfg.Valid()
  {
    Config(calls, None, None, None, None, 24, 8, 1, 0, 4096, [], objective => objective)
  }

  function Unlimited(): (cfg: Config)
    ensures cfg.Valid()
  {
    Limited(None)
  }

  /** The root asks for three children, the second depending on the first. */
  function Plan(): Report {
    Report([ChildSpec(None, "first", "survey", [], false), ChildSpec(None, "second", "combine", [NodeRef(1)], false),
            ChildSpec(None, "third", "verify", [], false)], {}, [], [])
  }

  /** A later node asks for a child that depends on the first one. */
  function Needs(): Report {
    Report([ChildSpec(None, "fourth", "compare", [NodeRef(1)], false)], {}, [], [])
  }

  function Silent(): Report { Report([], {}, [], []) }

  function PruneTooEarly(): seq<Event> {
    [Decision(Execute(0), Plan()), Decision(Derive(0, 0), Silent()), Decision(Execute(1), Silent()),
     Decision(Return(1), Silent()), Decision(Execute(0), Plan()), Decision(Prune(1), Silent()),
     Decision(Derive(0, 1), Silent())]
  }

  /** Only nodes that are in play, or have returned with someone left to tell, may act. */
  lemma RootAloneActs(cfg: Config, s: State, d: Candidate)
    requires |s.nodes| == 2 && s.nodes[0].depth == 0 && Finished(s.nodes[1].status)
    requires Offered(cfg, s, d) && ActorOf(d) < |s.nodes|
    ensures ActorOf(d) == 0
  {
  }

  lemma SecondHasOneProducer(s: State)
    requires TreeShaped(s.nodes) && AliasesInRange(s) && |s.nodes| == 2
    requires s.nodes[0].report == Some(Plan())
    ensures Producers(s, 0, 1) == [1]
    ensures SafeDependencies(s, 0, Plan(), Plan().children[1]) == [NodeRef(1)]
  {
    var ids := [NodeRef(1)];
    assert SafeDependencies(s, 0, Plan(), Plan().children[1]) == ids by { assert ids[1..] == []; }
    assert ids[..0] == [];
    assert ValidDependencies(s, 0, ids) == [1];
  }

  lemma OthersHaveNone(s: State)
    requires TreeShaped(s.nodes) && AliasesInRange(s) && s.nodes[0].report == Some(Plan())
    ensures Producers(s, 0, 0) == Producers(s, 0, 2) == []
  {
  }

  /** The state of this run before its last decision: the root, perhaps the first child, and
      no trace of the second one. */
  predicate Looks(s: State, root: Status, plan: Option<Report>, below: seq<Node>) {
    && s.nodes == [Node(None, 0, "question", "", root, plan)] + below
    && |below| <= 1
    && (below != [] ==> below[0] == First(below[0].status, below[0].report))
    && s.gapKeys == (if below == [] then [] else [(0, "first")])
    && s.fingerprints == (if below == [] then [] else ["survey"])
    && s.aliases == map[] && s.dependencies == [] && s.communications == []
    && DeriveId(0, "second", 1) !in s.used && DeriveId(0, "third", 2) !in s.used && DeriveId(2, "fourth", 0) !in s.used
    && (PruneId(1) in s.used ==> |below| == 1 && below[0].status == Pruned)
    && (DeriveId(0, "first", 0) in s.used ==> |below| == 1)
    && Idle(s)
  }

  function First(status: Status, report: Option<Report>): Node {
    Node(Some(0), 1, "survey", "first", status, report)
  }

  lemma RootPlans(calls: Option<nat>, s: State, below: seq<Node>, plan: Option<Report>) returns (s': State)
    requires Looks(s, Ready, plan, below) && (below != [] ==> Finished(below[0].status))
    requires calls.Some? ==> s.llmCalls + 1 < calls.value
    ensures ScheduledStep(Limited(calls), s, Decision(Execute(0), Plan()), s')
    ensures Looks(s', Reported, Some(Plan()), below) && s'.llmCalls == s.llmCalls + 1
  {
    s' := Next(Limited(calls), s, Decision(Execute(0), Plan()));
    if below != [] {
      forall d | Offered(Limited(calls), s, d) && ActorOf(d) < |s.nodes| ensures ActorOf(d) == 0 {
        RootAloneActs(Limited(calls), s, d);
      }
    }
  }

  lemma FirstIsDerived(calls: Option<nat>, s: State) returns (s': State)
    requires Looks(s, Reported, Some(Plan()), [])
    requires calls.Some? ==> s.llmCalls < calls.value
    ensures ScheduledStep(Limited(calls), s, Decision(Derive(0, 0), Silent()), s')
    ensures Looks(s', Reported, Some(Plan()), [First(Ready, None)]) && s'.llmCalls == s.llmCalls
  {
    var r := Record(s, Derive(0, 0));
    OthersHaveNone(r);
    assert NewDependencies(r.nodes, [], 1) == [];
    s' := Next(Limited(calls), s, Decision(Derive(0, 0), Silent()));
    assert s'.dependencies == [];
  }

  lemma FirstAnswers(s: State) returns (s': State)
    requires Looks(s, Reported, Some(Plan()), [First(Ready, None)])
    ensures ScheduledStep(Unlimited(), s, Decision(Execute(1), Silent()), s')
    ensures Looks(s', Reported, Some(Plan()), [First(Reported, Some(Silent()))])
  {
    s' := Next(Unlimited(), s, Decision(Execute(1), Silent()));
  }

  lemma FirstReturns(s: State) returns (s': State)
    requires Looks(s, Reported, Some(Plan()), [First(Reported, Some(Silent()))])
    ensures ScheduledStep(Unlimited(), s, Decision(Return(1), Silent()), s')
    ensures Looks(s', Ready, Some(Plan()), [First(Returned, Some(Silent()))])
  {
    s' := Next(Unlimited(), s, Decision(Return(1), Silent()));
  }

  lemma FirstIsPruned(s: State) returns (s': State)
    requires Looks(s, Reported, Some(Plan()), [First(Returned, Some(Silent()))])
    ensures ScheduledStep(Unlimited(), s, Decision(Prune(1), Silent()), s')
    ensures Looks(s', Reported, Some(Plan()), [First(Pruned, Some(Silent()))])
  {
    forall d | Offered(Unlimited(), s, d) && ActorOf(d) < |s.nodes| ensures ActorOf(d) == 0 {
      RootAloneActs(Unlimited(), s, d);
    }
    s' := Next(Unlimited(), s, Decision(Prune(1), Silent()));
  }

  lemma SecondIsOffered(s: State)
    requires Looks(s, Reported, Some(Plan()), [First(Pruned, Some(Silent()))])
    ensures Applicable(s, Derive(0, 1)) && HasSpec(s, 0, 1) && Enabled(Unlimited(), s, Decision(Derive(0, 1), Silent()))
    ensures Scheduled(Unlimited(), s, Derive(0, 1))
  {
    forall d | Offered(Unlimited(), s, d) && ActorOf(d) < |s.nodes| ensures ActorOf(d) == 0 {
      RootAloneActs(Unlimited(), s, d);
    }
    SecondHasOneProducer(s);
    assert SafeDependencies(s, 0, Plan(), Plan().children[1]) == [NodeRef(1)];
  }

  lemma SecondWaits(cfg: Config, r: State)
    requires TreeShaped(r.nodes) && AliasesInRange(r) && |r.nodes| == 2 && r.dependencies == []
    requires r.nodes[0].report == Some(Plan()) && r.nodes[1].status == Pruned
    ensures AfterDerive(cfg, r, 0, 1).nodes
            == r.nodes + [Node(Some(0), r.nodes[0].depth + 1, "combine", "second", WaitingDependency, None)]
  {
    SecondHasOneProducer(r);
    var edges := AfterDerive(cfg, r, 0, 1).dependencies;
    assert edges == NewDependencies(r.nodes, [1], 2);
    assert edges[0] == Dependency(1, 2, false);
  }

  lemma SecondIsDerived(s: State) returns (s': State)
    requires Looks(s, Reported, Some(Plan()), [First(Pruned, Some(Silent()))])
    ensures ScheduledStep(Unlimited(), s, Decision(Derive(0, 1), Silent()), s')
    ensures |s'.nodes| == 3 && s'.nodes[2].status == WaitingDependency && OffersStop(s') && Idle(s')
  {
    hide Offered, Legal, Scheduled;
    SecondIsOffered(s);
    SecondWaits(Unlimited(), Record(s, Derive(0, 1)));
    s' := Next(Unlimited(), s, Decision(Derive(0, 1), Silent()));
  }

  lemma StartLooks()
    ensures Looks(Initial("question"), Ready, None, [])
  {
  }

  /** A node that has been derived may never run, and the root may stop without it. */
  lemma SomeChildNeverRuns() returns (states: seq<State>, events: seq<Event>)
    ensures IsScheduledRun(Unlimited(), states, events) && |states| == 8
    ensures |states[7].nodes| == 3 && states[7].nodes[2].status == WaitingDependency
    ensures Idle(states[7]) && OffersStop(states[7])
  {
    StartLooks();
    hide Looks, ScheduledStep, OffersStop, Initial, Limited, Plan, Silent;
    var s0 := Initial("question");
    var s1 := RootPlans(None, s0, [], None);
    var s2 := FirstIsDerived(None, s1);
    var s3 := FirstAnswers(s2);
    var s4 := FirstReturns(s3);
    var s5 := RootPlans(None, s4, [First(Returned, Some(Silent()))], Some(Plan()));
    var s6 := FirstIsPruned(s5);
    var s7 := SecondIsDerived(s6);
    states, events := [s0, s1, s2, s3, s4, s5, s6, s7], PruneTooEarly();
  }

  // ---------------------------------------------------------------- one model call left

  /** Two decisions into a run with a limit of two model calls the turn raises: the new child
      must execute and may not, while the root could derive another one. */
  lemma TwoDecisionsCanRaise() returns (states: seq<State>, events: seq<Event>)
    ensures IsScheduledRun(Limited(Some(2)), states, events) && |states| == 3
    ensures Raises(Limited(Some(2)), states[2])
  {
    StartLooks();
    var s0 := Initial("question");
    var s1 := RootPlans(Some(2), s0, [], None);
    var s2 := FirstIsDerived(Some(2), s1);
    states, events := [s0, s1, s2], [Decision(Execute(0), Plan()), Decision(Derive(0, 0), Silent())];
    assert IsScheduledRun(Limited(Some(2)), states, events);
    LastCallStrands(states, events);
  }

  lemma LastCallStrands(states: seq<State>, events: seq<Event>)
    requires IsScheduledRun(Limited(Some(2)), states, events) && |states| == 3 && states[2].llmCalls == 1
    requires Looks(states[2], Reported, Some(Plan()), [First(Ready, None)])
    ensures Raises(Limited(Some(2)), states[2])
  {
    var cfg, s := Limited(Some(2)), states[2];
    YieldsOrders(s.nodes, 1, 1);
    assert LastActing(s, 1) && Stranded(cfg, s, 1);
    ThirdIsLegal(cfg, s);
    TurnRaisesIff(cfg, states, events, 2);
  }

  lemma ThirdIsLegal(cfg: Config, s: State)
    requires cfg == Limited(Some(2)) && Looks(s, Reported, Some(Plan()), [First(Ready, None)])
    ensures !DeadTurn(cfg, s)
  {
    assert OffersDerive(cfg, s, 0, 2) && Legal(cfg, s, Derive(0, 2));
    assert !Dead(cfg, s, 0);
  }

  // ---------------------------------------------------------------- a child that waits

  function Third(status: Status, report: Option<Report>): Node {
    Node(Some(0), 1, "verify", "third", status, report)
  }

  /** After the first child was pruned and the third derived. */
  predicate LooksLate(s: State, third: Node) {
    && s.nodes == [Node(None, 0, "question", "", Reported, Some(Plan())), First(Pruned, Some(Silent())), third]
    && s.gapKeys == [(0, "first"), (0, "third")] && s.fingerprints == ["survey", "verify"]
    && s.aliases == map[] && s.dependencies == [] && s.communications == []
    && DeriveId(0, "second", 1) !in s.used && DeriveId(2, "fourth", 0) !in s.used
    && Idle(s)
  }

  lemma ThirdIsDerived(s: State) returns (s': State)
    requires Looks(s, Reported, Some(Plan()), [First(Pruned, Some(Silent()))])
    ensures ScheduledStep(Unlimited(), s, Decision(Derive(0, 2), Silent()), s')
    ensures LooksLate(s', Third(Ready, None))
  {
    forall d | Offered(Unlimited(), s, d) && ActorOf(d) < |s.nodes| ensures ActorOf(d) == 0 {
      RootAloneActs(Unlimited(), s, d);
    }
    var r := Record(s, Derive(0, 2));
    OthersHaveNone(r);
    assert NewDependencies(r.nodes, [], 2) == [];
    s' := Next(Unlimited(), s, Decision(Derive(0, 2), Silent()));
    assert s'.dependencies == [];
  }

  lemma ThirdReports(s: State) returns (s': State)
    requires LooksLate(s, Third(Ready, None))
    ensures ScheduledStep(Unlimited(), s, Decision(Execute(2), Needs()), s')
    ensures LooksLate(s', Third(Reported, Some(Needs())))
  {
    s' := Next(Unlimited(), s, Decision(Execute(2), Needs()));
  }

  lemma FourthHasOneProducer(s: State)
    requires TreeShaped(s.nodes) && AliasesInRange(s) && |s.nodes| == 3
    requires s.nodes[2].report == Some(Needs()) && s.nodes[2].parent == Some(0)
    ensures Producers(s, 2, 0) == [1]
    ensures SafeDependencies(s, 2, Needs(), Needs().children[0]) == [NodeRef(1)]
  {
    var ids := [NodeRef(1)];
    assert SafeDependencies(s, 2, Needs(), Needs().children[0]) == ids by { assert ids[1..] == []; }
    assert ids[..0] == [];
    assert !Above(s.nodes, 1, 0) && !Above(s.nodes, 1, 2);
    assert ValidDependencies(s, 2, ids) == [1];
  }

  lemma FourthIsOffered(s: State)
    requires LooksLate(s, Third(Reported, Some(Needs())))
    ensures Applicable(s, Derive(2, 0)) && Enabled(Unlimited(), s, Decision(Derive(2, 0), Silent()))
    ensures Scheduled(Unlimited(), s, Derive(2, 0))
  {
    FourthHasOneProducer(s);
  }

  lemma FourthWaits(cfg: Config, r: State)
    requires TreeShaped(r.nodes) && AliasesInRange(r) && |r.nodes| == 3 && r.dependencies == []
    requires r.nodes[2].report == Some(Needs()) && r.nodes[2].parent == Some(0) && r.nodes[1].status == Pruned
    ensures AfterDerive(cfg, r, 2, 0).nodes
            == r.nodes + [Node(Some(2), r.nodes[2].depth + 1, "compare", "fourth", WaitingDependency, None)]
  {
    FourthHasOneProducer(r);
    var edges := AfterDerive(cfg, r, 2, 0).dependencies;
    assert edges == NewDependencies(r.nodes, [1], 3);
    assert edges[0] == Dependency(1, 3, false);
  }

  lemma FourthIsDerived(s: State) returns (s': State)
    requires LooksLate(s, Third(Reported, Some(Needs())))
    ensures ScheduledStep(Unlimited(), s, Decision(Derive(2, 0), Silent()), s')
    ensures LooksStranded(s')
  {
    hide Offered, Legal, Scheduled;
    FourthIsOffered(s);
    FourthWaits(Unlimited(), Record(s, Derive(2, 0)));
    s' := Next(Unlimited(), s, Decision(Derive(2, 0), Silent()));
  }

  /** The state at the end: the fourth node waits below the third, the second may be derived. */
  predicate LooksStranded(s: State) {
    && s.nodes == [Node(None, 0, "question", "", Reported, Some(Plan())), First(Pruned, Some(Silent())),
                   Third(Reported, Some(Needs())), Node(Some(2), 2, "compare", "fourth", WaitingDependency, None)]
    && s.gapKeys == [(0, "first"), (0, "third"), (2, "fourth")] && s.fingerprints == ["survey", "verify", "compare"]
    && DeriveId(0, "second", 1) !in s.used && Idle(s)
  }

  lemma ThirdIsStranded(s: State)
    requires LooksStranded(s)
    ensures LastActing(s, 2) && Stranded(Unlimited(), s, 2) && !DeadTurn(Unlimited(), s)
    ensures Idle(s) && !LimitReached(s.decisions, Unlimited().maximumDecisions)
  {
    SecondHasKnownProducer(s);
    assert OffersDerive(Unlimited(), s, 0, 1) && Legal(Unlimited(), s, Derive(0, 1));
    assert !Dead(Unlimited(), s, 0);
    assert s.nodes[3].parent == Some(2);
    YieldsOrders(s.nodes, 2, 2);
  }

  lemma SecondHasKnownProducer(s: State)
    requires |s.nodes| > 1
    ensures SafeDependencies(s, 0, Plan(), Plan().children[1]) == [NodeRef(1)]
  {
    var ids := [NodeRef(1)];
    assert ids[1..] == [];
    assert FilterSafe(|s.nodes|, 0, {}, ids) == ids;
  }

  /** Without any limit the turn raises after nine decisions: the node that is scheduled waits
      for a child that waits for a pruned node, while the root could derive another child. */
  lemma WaitingChildCanRaise() returns (states: seq<State>, events: seq<Event>)
    ensures IsScheduledRun(Unlimited(), states, events) && |states| == 10
    ensures Raises(Unlimited(), states[9])
  {
    StartLooks();
    hide Looks, LooksLate, ScheduledStep, Initial, Limited, Plan, Silent, Needs, Raises, LooksStranded, DeadTurn;
    var s0 := Initial("question");
    var s1 := RootPlans(None, s0, [], None);
    var s2 := FirstIsDerived(None, s1);
    var s3 := FirstAnswers(s2);
    var s4 := FirstReturns(s3);
    var s5 := RootPlans(None, s4, [First(Returned, Some(Silent()))], Some(Plan()));
    var s6 := FirstIsPruned(s5);
    var s7 := ThirdIsDerived(s6);
    var s8 := ThirdReports(s7);
    var s9 := FourthIsDerived(s8);
    states := [s0, s1, s2, s3, s4, s5, s6, s7, s8, s9];
    events := PruneTooEarly()[..6] + [Decision(Derive(0, 2), Silent()), Decision(Execute(2), Needs()),
                                      Decision(Derive(2, 0), Silent())];
    ThirdIsStranded(s9);
    TurnRaisesIff(Unlimited(), states, events, 9);
  }
}

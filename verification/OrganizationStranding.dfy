/**
 When a turn raises.  The agent looks for any legal candidate at all, but then chooses among
 those of the scheduled node only; when these are all illegal the mask raises and the episode
 ends without an answer.  This module says exactly when that happens, and when a turn is cut
 short because nothing at all is legal.
 */
module OrganizationStranding {
  import opened Wrappers
  import opened OrganizationModel
  import opened OrganizationSafety
  import opened OrganizationDepthFirst
  import opened OrganizationScheduler

  ghost predicate SomethingLegal(cfg: Config, s: State) {
    exists c :: Offered(cfg, s, c) && Legal(cfg, s, c)
  }

  /** The scheduled node has no legal candidate. */
  ghost predicate ContextBarred(cfg: Config, s: State) {
    exists t :: IsContext(cfg, s, t) && forall c :: Offered(cfg, s, c) && ActorOf(c) == t ==> !Legal(cfg, s, c)
  }

  /** The loop gets past its own checks and the mask raises. */
  ghost predicate Raises(cfg: Config, s: State) {
    && Idle(s) && !LimitReached(s.decisions, cfg.maximumDecisions)
    && SomethingLegal(cfg, s) && ContextBarred(cfg, s)
  }

  // ---------------------------------------------------------------- what a reported node may still do

  predicate MayDerive(cfg: Config, s: State, t: NodeId) {
    && HasReport(s, t)
    && exists i :: 0 <= i < |s.nodes[t].report.value.children|
                   && OffersDerive(cfg, s, t, i) && Legal(cfg, s, Derive(t, i))
  }

  predicate MayAsk(s: State, t: NodeId) {
    && HasReport(s, t)
    && exists g :: g in s.nodes[t].report.value.userGaps && AcquireUserId(t, g) !in s.used
  }

  predicate MayCallTool(cfg: Config, s: State, t: NodeId) {
    && HasReport(s, t)
    && !RemainingAtMost(s.llmCalls, cfg.maximumLlmCalls, 1) && !LimitReached(s.toolCalls, cfg.maximumToolCalls)
    && exists tool :: tool in s.nodes[t].report.value.tools && tool in cfg.tools && AcquireToolId(t, tool) !in s.used
  }

  predicate HasWaitingChild(s: State, t: NodeId) {
    exists i :: 0 <= i < |s.nodes| && s.nodes[i].parent == Some(t) && s.nodes[i].status == WaitingDependency
  }

  /** A node that must execute with one model call left, or that must wait for a child that
      waits itself and has nothing else to do. */
  predicate Stranded(cfg: Config, s: State, t: NodeId)
    requires t < |s.nodes|
  {
    && t != 0
    && if s.nodes[t].status == Ready then RemainingAtMost(s.llmCalls, cfg.maximumLlmCalls, 1)
       else
         && s.nodes[t].status == Reported && HasWaitingChild(s, t)
         && !MayDerive(cfg, s, t) && !MayAsk(s, t) && !MayCallTool(cfg, s, t)
  }

  predicate HasUnfinishedChild(s: State, t: NodeId) {
    exists i :: 0 <= i < |s.nodes| && s.nodes[i].parent == Some(t) && !Finished(s.nodes[i].status)
  }

  predicate OthersInPlay(s: State) {
    exists j :: 1 <= j < |s.nodes| && InPlay(s.nodes[j].status)
  }

  /** Node i has no legal candidate, nor has the root one for it. */
  predicate Dead(cfg: Config, s: State, i: NodeId)
    requires i < |s.nodes|
  {
    match s.nodes[i].status
    case Ready => RemainingAtMost(s.llmCalls, cfg.maximumLlmCalls, 1)
    case Reported =>
      && !MayDerive(cfg, s, i) && !MayAsk(s, i) && !MayCallTool(cfg, s, i) && !Shares(s, i)
      && if i == 0 then OthersInPlay(s) else HasUnfinishedChild(s, i)
    case Returned => !Shares(s, i) && PruneId(i) in s.used
    case _ => true
  }

  /** A decision is due and no node can do anything: here the agent cuts the turn short for want
      of a legal action. */
  predicate DeadTurn(cfg: Config, s: State) {
    && Idle(s) && !LimitReached(s.decisions, cfg.maximumDecisions)
    && forall i :: 0 <= i < |s.nodes| ==> Dead(cfg, s, i)
  }

  /** A decision is due, some node is not dead, and the scheduled node is stranded with nobody to
      share its report with.  All of it can be read off the state before the call. */
  ghost predicate StrandedTurn(cfg: Config, s: State) {
    && Idle(s) && !LimitReached(s.decisions, cfg.maximumDecisions) && !DeadTurn(cfg, s)
    && exists t :: LastActing(s, t) && Stranded(cfg, s, t) && !Shares(s, t)
  }

  /** No node in play lies below the scheduled one, so its unfinished children wait. */
  lemma ReturnBarredIff(cfg: Config, s: State, t: NodeId)
    requires Inv(cfg, s) && Idle(s) && LastActing(s, t) && t != 0 && s.nodes[t].status == Reported
    ensures !Legal(cfg, s, Return(t)) <==> HasWaitingChild(s, t)
  {
    forall k | 0 <= k < |s.dependencies| && s.dependencies[k].consumer == t ensures s.dependencies[k].resolved {
      assert EdgeSound(s.nodes, s.dependencies[k]);
    }
    forall i | 0 <= i < |s.nodes| && s.nodes[i].parent == Some(t) && !Finished(s.nodes[i].status)
      ensures s.nodes[i].status == WaitingDependency
    {
      assert i > 0 && HasParent(s.nodes, i);
      var acting := Acting(s, i);
    }
  }

  lemma OwnMovesAreLegal(cfg: Config, s: State, t: NodeId)
    requires Inv(cfg, s) && !LimitReached(s.decisions, cfg.maximumDecisions)
    requires t < |s.nodes| && s.nodes[t].status == Reported
    requires MayDerive(cfg, s, t) || MayAsk(s, t) || MayCallTool(cfg, s, t) || Shares(s, t)
    ensures exists c :: Offered(cfg, s, c) && ActorOf(c) == t && Legal(cfg, s, c)
  {
    hide Inv;
    if MayDerive(cfg, s, t) {
      var i :| 0 <= i < |s.nodes[t].report.value.children|
        && OffersDerive(cfg, s, t, i) && Legal(cfg, s, Derive(t, i));
      assert Offered(cfg, s, Derive(t, i));
    } else if MayAsk(s, t) {
      var g :| g in s.nodes[t].report.value.userGaps && AcquireUserId(t, g) !in s.used;
      assert Offered(cfg, s, AcquireUser(t, g));
    } else if MayCallTool(cfg, s, t) {
      var tool :| tool in s.nodes[t].report.value.tools && tool in cfg.tools && AcquireToolId(t, tool) !in s.used;
      assert Offered(cfg, s, AcquireTool(t, tool));
    } else {
      var d :| 0 <= d < |s.nodes| && OffersConnect(s, t, d);
      assert Offered(cfg, s, Connect(t, d));
    }
  }

  lemma WithoutMovesOnlyReturn(cfg: Config, s: State, t: NodeId, c: Candidate)
    requires t != 0 && t < |s.nodes| && s.nodes[t].status == Reported
    requires !MayDerive(cfg, s, t) && !MayAsk(s, t) && !MayCallTool(cfg, s, t) && !Shares(s, t)
    requires Offered(cfg, s, c) && ActorOf(c) == t && Legal(cfg, s, c)
    ensures c == Return(t)
  {
  }

  lemma ReportedBarredIff(cfg: Config, s: State, t: NodeId)
    requires Inv(cfg, s) && Idle(s) && !LimitReached(s.decisions, cfg.maximumDecisions)
    requires LastActing(s, t) && t != 0 && s.nodes[t].status == Reported
    ensures (forall c :: Offered(cfg, s, c) && ActorOf(c) == t ==> !Legal(cfg, s, c)) <==>
            Stranded(cfg, s, t) && !Shares(s, t)
  {
    ReturnBarredIff(cfg, s, t);
    assert Offered(cfg, s, Return(t)) by { assert OffersProper(cfg, s, Return(t)); }
    if MayDerive(cfg, s, t) || MayAsk(s, t) || MayCallTool(cfg, s, t) || Shares(s, t) {
      OwnMovesAreLegal(cfg, s, t);
    } else {
      forall c | Offered(cfg, s, c) && ActorOf(c) == t && Legal(cfg, s, c) ensures c == Return(t) {
        WithoutMovesOnlyReturn(cfg, s, t, c);
      }
    }
  }

  /** In every state that satisfies the invariant, with or without the scheduler's past, the
      mask raises exactly on a stranded turn. */
  lemma RaisesIff(cfg: Config, s: State)
    requires Inv(cfg, s)
    ensures Raises(cfg, s) <==> StrandedTurn(cfg, s)
  {
    hide DeadTurn, Offered, Legal;
    if !Idle(s) || LimitReached(s.decisions, cfg.maximumDecisions) { return; }
    NothingLegalIff(cfg, s);
    forall t | IsContext(cfg, s, t) || LastActing(s, t)
      ensures IsContext(cfg, s, t) && LastActing(s, t)
      ensures SomethingLegal(cfg, s) ==>
                ((forall c :: Offered(cfg, s, c) && ActorOf(c) == t ==> !Legal(cfg, s, c)) <==>
                 Stranded(cfg, s, t) && !Shares(s, t))
    {
      ContextIsLastActing(cfg, s, t);
      BarredIff(cfg, s, t);
    }
  }

  /** When the root is scheduled it has all the candidates there are. */
  lemma ScheduledRootHasAll(cfg: Config, s: State)
    requires Inv(cfg, s) && Idle(s) && LastActing(s, 0) && SomethingLegal(cfg, s)
    ensures exists c :: Offered(cfg, s, c) && ActorOf(c) == 0 && Legal(cfg, s, c)
  {
    hide Offered, Legal;
    var c :| Offered(cfg, s, c) && Legal(cfg, s, c);
    ActorsAct(cfg, s, c);
    OnlyRootIsShallow(s.nodes, ActorOf(c));
    OnlyRootIsShallow(s.nodes, 0);
  }

  lemma BarredIff(cfg: Config, s: State, t: NodeId)
    requires Inv(cfg, s) && Idle(s) && !LimitReached(s.decisions, cfg.maximumDecisions)
    requires LastActing(s, t)
    ensures SomethingLegal(cfg, s) ==>
              ((forall c :: Offered(cfg, s, c) && ActorOf(c) == t ==> !Legal(cfg, s, c)) <==>
               Stranded(cfg, s, t) && !Shares(s, t))
  {
    if t == 0 {
      if SomethingLegal(cfg, s) { ScheduledRootHasAll(cfg, s); }
    } else if s.nodes[t].status == Ready {
      assert OffersProper(cfg, s, Execute(t));
      assert Offered(cfg, s, Execute(t));
    } else if s.nodes[t].status == Reported {
      ReportedBarredIff(cfg, s, t);
    } else {
      // A returned node is scheduled only to share, which is legal.
      var d :| 0 <= d < |s.nodes| && OffersConnect(s, t, d);
      assert Offered(cfg, s, Connect(t, d)) && Legal(cfg, s, Connect(t, d));
    }
  }

  // ---------------------------------------------------------------- every scheduled run

  /** The lowest node of the path has nobody to share with: who could listen lies above it. */
  lemma TipSharesNothing(cfg: Config, s: State, t: NodeId)
    requires Inv(cfg, s) && Idle(s) && DepthFirst(s) && LastActing(s, t) && InPlay(s.nodes[t].status)
    ensures !Shares(s, t)
  {
    forall d | 0 <= d < |s.nodes| ensures !OffersConnect(s, t, d) {
      if InPlay(s.nodes[d].status) && t < d {
        AboveIsEarlier(s.nodes, t, d);
        var acting := Acting(s, d);
      }
    }
  }

  /** At every moment of every scheduled run at which a decision is due: the turn raises if and
      only if some node is not dead, and the scheduled node is not the root and is either ready
      with one model call left, or reported above a waiting child with nothing to derive and
      nothing to acquire. */
  lemma TurnRaisesIff(cfg: Config, states: seq<State>, events: seq<Event>, k: nat)
    requires cfg.Valid() && IsScheduledRun(cfg, states, events) && k < |states|
    requires Idle(states[k]) && !LimitReached(states[k].decisions, cfg.maximumDecisions)
    ensures Raises(cfg, states[k]) <==>
            !DeadTurn(cfg, states[k]) && exists t :: LastActing(states[k], t) && Stranded(cfg, states[k], t)
  {
    ControlIsDepthFirst(cfg, states, events, k);
    RaisesIff(cfg, states[k]);
    forall t | LastActing(states[k], t) && Stranded(cfg, states[k], t) ensures !Shares(states[k], t) {
      TipSharesNothing(cfg, states[k], t);
    }
  }

  // ---------------------------------------------------------------- when nothing at all is legal

  /** The node that a candidate is about. */
  function Concerned(c: Candidate): NodeId {
    if c.Prune? then c.target else ActorOf(c)
  }

  lemma DeadHasNothing(cfg: Config, s: State, c: Candidate)
    requires Inv(cfg, s) && Offered(cfg, s, c) && Legal(cfg, s, c) && c != StopFallback
    ensures Concerned(c) < |s.nodes| && !Dead(cfg, s, Concerned(c))
  {
  }

  lemma NothingMeansDead(cfg: Config, s: State, i: NodeId)
    requires Inv(cfg, s) && Idle(s) && !LimitReached(s.decisions, cfg.maximumDecisions) && i < |s.nodes|
    requires !SomethingLegal(cfg, s)
    ensures Dead(cfg, s, i)
  {
    match s.nodes[i].status
    case Ready => assert Offered(cfg, s, Execute(i));
    case Reported =>
      if MayDerive(cfg, s, i) || MayAsk(s, i) || MayCallTool(cfg, s, i) || Shares(s, i) {
        OwnMovesAreLegal(cfg, s, i);
      } else if i == 0 {
        assert !OthersInPlay(s) ==> Offered(cfg, s, Stop) && Legal(cfg, s, Stop);
      } else if !HasUnfinishedChild(s, i) {
        ReturnIsLegal(cfg, s, i);
        assert Offered(cfg, s, Return(i));
      }
    case Returned =>
      if Shares(s, i) {
        var d :| 0 <= d < |s.nodes| && OffersConnect(s, i, d);
        assert Offered(cfg, s, Connect(i, d)) && Legal(cfg, s, Connect(i, d));
      }
      assert PruneId(i) in s.used || (Offered(cfg, s, Prune(i)) && Legal(cfg, s, Prune(i)));
    case _ =>
  }

  lemma ReturnIsLegal(cfg: Config, s: State, i: NodeId)
    requires Inv(cfg, s) && i < |s.nodes| && s.nodes[i].status == Reported && !HasUnfinishedChild(s, i)
    ensures Legal(cfg, s, Return(i))
  {
    forall k | 0 <= k < |s.dependencies| && s.dependencies[k].consumer == i ensures s.dependencies[k].resolved {
      assert EdgeSound(s.nodes, s.dependencies[k]);
    }
  }

  /** In every state that satisfies the invariant and in which a decision is due: no candidate at
      all is legal if and only if every node is dead. */
  lemma NothingLegalIff(cfg: Config, s: State)
    requires Inv(cfg, s) && Idle(s) && !LimitReached(s.decisions, cfg.maximumDecisions)
    ensures !SomethingLegal(cfg, s) <==> DeadTurn(cfg, s)
  {
    hide Inv, Offered, Legal, Dead;
    if !SomethingLegal(cfg, s) {
      forall i | 0 <= i < |s.nodes| ensures Dead(cfg, s, i) { NothingMeansDead(cfg, s, i); }
    } else {
      var c :| Offered(cfg, s, c) && Legal(cfg, s, c);
      FallbackIsNotOffered(cfg, s);
      DeadHasNothing(cfg, s, c);
    }
  }

  /** The root is ready or reported when a decision is due, and the last node in play always has
      a candidate of its own. */
  lemma FallbackIsNotOffered(cfg: Config, s: State)
    requires Inv(cfg, s) && Idle(s)
    ensures !Offered(cfg, s, StopFallback)
  {
    RootActs(cfg, s);
    if s.nodes[0].status == Ready {
      assert OffersProper(cfg, s, Execute(0));
    } else if OthersInPlay(s) {
      var j :| 1 <= j < |s.nodes| && InPlay(s.nodes[j].status);
      assert OffersProper(cfg, s, Execute(j)) || OffersProper(cfg, s, Return(j));
    } else {
      assert OffersProper(cfg, s, Stop);
    }
  }

  lemma RootActs(cfg: Config, s: State)
    requires Inv(cfg, s) && Idle(s)
    ensures s.nodes[0].status == Ready || s.nodes[0].status == Reported
  {
    forall k | 0 <= k < |s.dependencies| ensures s.dependencies[k].consumer != 0 {
      assert EdgeSound(s.nodes, s.dependencies[k]);
    }
  }

  lemma {:induction false} LastInPlay(nodes: seq<Node>, n: nat) returns (j: NodeId)
    requires 1 <= n <= |nodes| && InPlay(nodes[0].status)
    ensures j < n && InPlay(nodes[j].status) && forall i :: j < i < n ==> !InPlay(nodes[i].status)
  {
    j := n - 1;
    if !InPlay(nodes[j].status) { j := LastInPlay(nodes, n - 1); }
  }

  /** Without a limit on model calls and while no node waits for a dependency, no turn raises,
      and none is cut short for want of a legal action. */
  lemma NoLimitNoWaiterNoRaise(cfg: Config, s: State)
    requires Inv(cfg, s) && cfg.maximumLlmCalls.None?
    requires forall i :: 0 <= i < |s.nodes| ==> s.nodes[i].status != WaitingDependency
    ensures !Raises(cfg, s) && !DeadTurn(cfg, s)
    ensures Idle(s) && !LimitReached(s.decisions, cfg.maximumDecisions) ==> SomethingLegal(cfg, s)
  {
    if Raises(cfg, s) { RaisesIff(cfg, s); }
    if Idle(s) && !LimitReached(s.decisions, cfg.maximumDecisions) {
      NothingLegalIff(cfg, s);
      RootActs(cfg, s);
      var j := LastInPlay(s.nodes, |s.nodes|);
      assert Dead(cfg, s, j) ==> j == 0 || HasUnfinishedChild(s, j);
      forall i | 0 <= i < |s.nodes| && s.nodes[i].parent == Some(j) ensures j < i {
        assert i > 0 && HasParent(s.nodes, i);
      }
      assert !Dead(cfg, s, j);
    }
  }

  // ---------------------------------------------------------------- runs that never raise

  predicate Independent(report: Report) {
    forall i :: 0 <= i < |report.children| ==> report.children[i].dependsOn == []
  }

  /** No report of the state names a dependency, and there are none. */
  predicate DependencyFree(s: State) {
    && s.dependencies == []
    && forall i :: 0 <= i < |s.nodes| && s.nodes[i].report.Some? ==> Independent(s.nodes[i].report.value)
  }

  lemma NoNamesNoProducers(s: State, a: NodeId, i: nat)
    requires TreeShaped(s.nodes) && AliasesInRange(s) && HasSpec(s, a, i) && Independent(s.nodes[a].report.value)
    ensures Producers(s, a, i) == []
  {
  }

  lemma StepKeepsFree(cfg: Config, s: State, e: Event)
    requires Inv(cfg, s) && Enabled(cfg, s, e) && Defined(s, e) && DependencyFree(s)
    requires e.Decision? ==> Independent(e.report)
    ensures DependencyFree(Next(cfg, s, e))
  {
    hide FinishedBelow, GateHolds, CommunicationForest, DerivationsMatch, KeysMatch, WithinCeilings, PendingMatches,
         WithinBudgets;
    if e.Decision? && e.choice.Derive? {
      NoNamesNoProducers(Record(s, e.choice), e.choice.actor, e.choice.index);
    } else if e.Decision? && e.choice.Return? {
      assert HasParent(s.nodes, e.choice.actor);
      ReturnedStatuses(s.nodes, s.dependencies, e.choice.actor);
    }
  }

  lemma {:induction false} RunStaysFree(cfg: Config, states: seq<State>, events: seq<Event>, k: nat)
    requires cfg.Valid() && IsRunFromStart(cfg, states, events) && k < |states|
    requires forall j :: 0 <= j < |events| && events[j].Decision? ==> Independent(events[j].report)
    ensures DependencyFree(states[k])
    decreases k
  {
    if k > 0 {
      RunStaysFree(cfg, states, events, k - 1);
      EveryRunIsSafe(cfg, states, events, k - 1);
      assert IsStep(cfg, states[k - 1], events[k - 1], states[k]);
      StepKeepsFree(cfg, states[k - 1], events[k - 1]);
    }
  }

  /** With no limit on model calls and reports that name no dependencies, no turn of any run
      ever raises, and none is cut short for want of a legal action. */
  lemma IndependentWorkNeverRaises(cfg: Config, states: seq<State>, events: seq<Event>, k: nat)
    requires cfg.Valid() && IsRunFromStart(cfg, states, events) && k < |states| && cfg.maximumLlmCalls.None?
    requires forall j :: 0 <= j < |events| && events[j].Decision? ==> Independent(events[j].report)
    ensures !Raises(cfg, states[k]) && !DeadTurn(cfg, states[k])
  {
    RunStaysFree(cfg, states, events, k);
    DependencyGateIsExact(cfg, states, events, k);
    EveryRunIsSafe(cfg, states, events, k);
    NoLimitNoWaiterNoRaise(cfg, states[k]);
  }
}

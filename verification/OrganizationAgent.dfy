/**
 The agent object.  Its methods change the organization in place, with the loops of the
 original; each is proved to do what the transition of OrganizationModel says, and one call
 of the decision loop is proved to be a piece of a scheduled run.
 */
module OrganizationAgent {
  import opened Wrappers
  import opened OrganizationModel
  import opened OrganizationSafety
  import opened OrganizationTermination
  import opened OrganizationBookkeeping
  import opened OrganizationDepthFirst
  import opened OrganizationScheduler
  import opened OrganizationStranding
  import ExplorationEnvelope

  datatype Incoming = Nothing | ToolMessage(failed: bool) | UserText(content: string)

  datatype Message =
    | UserQuestion(gap: string)
    | ToolCall(tool: string)
    | FinalAnswer
    | TruncatedAnswer(reason: Termination, writtenByModel: bool)

  datatype AgentError = EnvelopeRemovedEveryAction | ToolUnavailableOrAmbiguous(tool: string)

  lemma OnlyRootIsParentless(nodes: seq<Node>, i: NodeId)
    requires TreeShaped(nodes) && i < |nodes| && nodes[i].parent.None?
    ensures i == 0
  {
    forall j | 1 <= j < |nodes| ensures nodes[j].parent.Some? { assert HasParent(nodes, j); }
  }

  lemma {:induction false} SameStatusesSameEdges(nodes: seq<Node>, nodes': seq<Node>, producers: seq<NodeId>,
                                                 child: NodeId)
    requires forall k :: 0 <= k < |producers| ==>
               && producers[k] < |nodes| && producers[k] < |nodes'|
               && nodes'[producers[k]].status == nodes[producers[k]].status
    ensures NewDependencies(nodes', producers, child) == NewDependencies(nodes, producers, child)
  {
  }

  class Agent {
    const cfg: Config
    var nodes: seq<Node>
    var derivations: seq<Edge>
    var dependencies: seq<Dependency>
    var communications: seq<Edge>
    var used: seq<CandidateId>
    var gapKeys: seq<(NodeId, string)>
    var fingerprints: seq<string>
    var aliases: map<(NodeId, Identifier), NodeId>
    var failedTools: seq<CandidateId>
    var actions: seq<CandidateId>
    var pendingTool: Option<NodeId>
    var pendingUser: Option<NodeId>
    var decisions: nat
    var llmCalls: nat
    var toolCalls: nat
    var termination: Option<Termination>

    /** The state the object holds. */
    function Snapshot(): State
      reads this
    {
      State(nodes, derivations, dependencies, communications, used, gapKeys, fingerprints, aliases,
            failedTools, actions, pendingTool, pendingUser, decisions, llmCalls, toolCalls, termination)
    }

    constructor (cfg: Config, objective: string)
      ensures this.cfg == cfg && Snapshot() == Initial(objective)
    {
      this.cfg := cfg;
      nodes := [Node(None, 0, objective, "", Ready, None)];
      derivations, dependencies, communications := [], [], [];
      used, gapKeys, fingerprints, aliases := [], [], [], map[];
      failedTools, actions := [], [];
      pendingTool, pendingUser := None, None;
      decisions, llmCalls, toolCalls, termination := 0, 0, 0, None;
    }

    // -------------------------------------------------------------- answers from outside

    method IngestToolObservation(failed: bool)
      requires |nodes| >= 1 && (pendingTool.Some? ==> pendingTool.value < |nodes|)
      modifies this
      ensures Snapshot() == AfterToolObservation(old(Snapshot()), failed)
    {
      hide SetStatus;
      toolCalls := toolCalls + 1;
      var actor := if pendingTool.Some? then pendingTool.value else 0;
      nodes := SetStatus(nodes, actor, Ready);
      if failed {
        var i: nat := |actions|;
        assert actions[..i] == actions;
        while i > 0 && !actions[i - 1].AcquireToolId?
          invariant i <= |actions|
          invariant LastToolAction(actions[..i]) == LastToolAction(actions)
        {
          assert actions[..i][..i - 1] == actions[..i - 1];
          i := i - 1;
        }
        if i > 0 && actions[i - 1] !in failedTools {
          failedTools := failedTools + [actions[i - 1]];
        }
      }
      pendingTool := None;
    }

    method IngestUserObservation()
      requires |nodes| >= 1 && (pendingUser.Some? ==> pendingUser.value < |nodes|)
      modifies this
      ensures Snapshot() == AfterUserObservation(old(Snapshot()))
    {
      hide SetStatus;
      var actor := if pendingUser.Some? then pendingUser.value else 0;
      nodes := SetStatus(nodes, actor, Ready);
      pendingUser := None;
      if failedTools != [] {
        var kept: seq<CandidateId> := [];
        for i := 0 to |used|
          invariant kept == Without(used[..i], failedTools)
        {
          assert used[..i + 1][..i] == used[..i];
          if used[i] !in failedTools { kept := kept + [used[i]]; }
        }
        assert used[..|used|] == used;
        used := kept;
        failedTools := [];
      }
    }

    // -------------------------------------------------------------- deriving

    /** The dependency ids that name a node other than actor and the nodes above it. */
    method ValidDependencyIds(actor: NodeId, identifiers: seq<Identifier>) returns (result: seq<NodeId>)
      requires TreeShaped(nodes) && actor < |nodes|
      ensures result == ValidDependencies(Snapshot(), actor, identifiers)
    {
      var ancestors := {actor};
      var cursor: nat := actor;
      while nodes[cursor].parent.Some?
        invariant cursor < |nodes| && cursor in ancestors
        invariant forall a :: Above(nodes, a, actor) <==> a in ancestors || Above(nodes, a, cursor)
        decreases cursor
      {
        assert HasParent(nodes, cursor);
        cursor := nodes[cursor].parent.value;
        ancestors := ancestors + {cursor};
      }
      OnlyRootIsParentless(nodes, cursor);
      result := [];
      for i := 0 to |identifiers|
        invariant result == ValidDependencies(Snapshot(), actor, identifiers[..i])
      {
        assert identifiers[..i + 1][..i] == identifiers[..i];
        var found := Lookup(Snapshot(), actor, identifiers[i]);
        if found.Some? && found.value !in ancestors && found.value !in result {
          result := result + [found.value];
        }
      }
      assert identifiers[..|identifiers|] == identifiers;
    }

    method AddDependencies(producers: seq<NodeId>, child: NodeId)
      requires forall k :: 0 <= k < |producers| ==> producers[k] < |nodes|
      modifies this`dependencies
      ensures dependencies == old(dependencies) + NewDependencies(nodes, producers, child)
    {
      ghost var before := dependencies;
      for k := 0 to |producers|
        invariant dependencies == before + NewDependencies(nodes, producers[..k], child)
      {
        assert producers[..k + 1][..k] == producers[..k];
        dependencies := dependencies + [Dependency(producers[k], child, nodes[producers[k]].status == Returned)];
      }
      assert producers[..|producers|] == producers;
    }

    /** Adds the child and records its gap, objective and alias. */
    method AppendChild(a: NodeId, spec: ChildSpec)
      requires a < |nodes|
      modifies this
      ensures Snapshot() == old(Snapshot()).(
                nodes := old(nodes) + [Node(Some(a), old(nodes)[a].depth + 1, spec.objective, spec.gap, Ready, None)],
                derivations := old(derivations) + [Edge(a, |old(nodes)|)],
                aliases := if spec.proposal.Some? then old(aliases)[(a, spec.proposal.value) := |old(nodes)|]
                           else old(aliases),
                gapKeys := old(gapKeys) + [(a, spec.gap)],
                fingerprints := old(fingerprints) + [cfg.fingerprint(spec.objective)])
    {
      var child := |nodes|;
      nodes := nodes + [Node(Some(a), nodes[a].depth + 1, spec.objective, spec.gap, Ready, None)];
      derivations := derivations + [Edge(a, child)];
      if spec.proposal.Some? { aliases := aliases[(a, spec.proposal.value) := child]; }
      gapKeys := gapKeys + [(a, spec.gap)];
      fingerprints := fingerprints + [cfg.fingerprint(spec.objective)];
    }

    method ApplyDerive(a: NodeId, i: nat)
      requires TreeShaped(nodes) && AliasesInRange(Snapshot()) && HasSpec(Snapshot(), a, i)
      modifies this
      ensures Snapshot() == AfterDerive(cfg, old(Snapshot()), a, i)
    {
      hide TreeShaped, AliasesInRange, ValidDependencies, SafeDependencies, NewDependencies;
      ghost var s := Snapshot();
      var report := nodes[a].report.value;
      var child := |nodes|;
      var producers := ValidDependencyIds(a, SafeDependencies(Snapshot(), a, report, report.children[i]));
      assert producers == Producers(s, a, i);
      AppendChild(a, report.children[i]);
      SameStatusesSameEdges(s.nodes, nodes, producers, child);
      AddDependencies(producers, child);
      if producers != [] && !AllResolved(dependencies, child) {
        nodes := SetStatus(nodes, child, WaitingDependency);
      }
    }

    // -------------------------------------------------------------- returning

    method WakeDependencyNodes()
      modifies this`nodes
      ensures nodes == Wake(old(nodes), dependencies)
    {
      for i := 0 to |nodes|
        invariant |nodes| == |old(nodes)|
        invariant forall k :: 0 <= k < i ==> nodes[k] == Wake(old(nodes), dependencies)[k]
        invariant forall k :: i <= k < |nodes| ==> nodes[k] == old(nodes)[k]
      {
        if nodes[i].status == WaitingDependency && HasIncoming(dependencies, i) && AllResolved(dependencies, i) {
          nodes := SetStatus(nodes, i, Ready);
        }
      }
    }

    method ApplyReturn(a: NodeId)
      requires a < |nodes| && (nodes[a].parent.Some? ==> nodes[a].parent.value < |nodes|)
      modifies this`nodes, this`dependencies
      ensures Snapshot() == AfterReturn(old(Snapshot()), a)
    {
      ghost var before := dependencies;
      var parent := nodes[a].parent;
      nodes := SetStatus(nodes, a, Returned);
      for k := 0 to |dependencies|
        invariant nodes == SetStatus(old(nodes), a, Returned)
        invariant |dependencies| == |before|
        invariant forall m :: 0 <= m < k ==> dependencies[m] == ResolveFrom(before, a)[m]
        invariant forall m :: k <= m < |before| ==> dependencies[m] == before[m]
      {
        if dependencies[k].producer == a {
          dependencies := dependencies[k := dependencies[k].(resolved := true)];
        }
      }
      assert dependencies == ResolveFrom(before, a);
      WakeDependencyNodes();
      if parent.Some? { nodes := SetStatus(nodes, parent.value, Ready); }
    }

    // -------------------------------------------------------------- applying a choice

    /** The node waits even when the tool turns out to be missing or ambiguous. */
    method ApplyAcquireTool(a: NodeId, tool: string) returns (outward: Result<Option<Message>, AgentError>)
      requires a < |nodes|
      modifies this
      ensures Snapshot() == AfterAcquireTool(cfg, old(Snapshot()), a, tool)
      ensures outward == Outward(cfg, AcquireTool(a, tool))
    {
      pendingTool := Some(a);
      nodes := SetStatus(nodes, a, Waiting);
      var selected := CountTools(tool);
      if selected != 1 { return Failure(ToolUnavailableOrAmbiguous(tool)); }
      llmCalls := llmCalls + 1;
      outward := Success(Some(ToolCall(tool)));
    }

    /** Carries out a choice that has been recorded, and says what goes out, if anything. */
    method Apply(c: Candidate, report: Report) returns (outward: Result<Option<Message>, AgentError>)
      requires Applicable(Snapshot(), c)
      modifies this
      ensures Snapshot() == Effect(cfg, old(Snapshot()), c, report)
      ensures outward == Outward(cfg, c)
    {
      hide TreeShaped, AliasesInRange, AfterDerive, AfterReturn, AfterAcquireTool;
      outward := Success(None);
      match c
      case Execute(a) =>
        llmCalls := llmCalls + 1;
        nodes := nodes[a := nodes[a].(report := Some(report), status := Reported)];
      case Derive(a, i) => ApplyDerive(a, i);
      case Connect(f, t) =>
        communications := communications + [Edge(f, t)];
        if nodes[t].status == Reported { nodes := SetStatus(nodes, t, Ready); }
      case Return(a) => ApplyReturn(a);
      case Prune(t) => nodes := SetStatus(nodes, t, Pruned);
      case AcquireUser(a, gap) =>
        pendingUser := Some(a);
        nodes := SetStatus(nodes, a, Waiting);
        outward := Success(Some(UserQuestion(gap)));
      case AcquireTool(a, tool) =>
        outward := ApplyAcquireTool(a, tool);
      case Stop =>
        llmCalls, termination := llmCalls + 1, Some(PolicyStop);
        outward := Success(Some(FinalAnswer));
      case StopFallback =>
        llmCalls, termination := llmCalls + 1, Some(PolicyStop);
        outward := Success(Some(FinalAnswer));
    }

    method CountTools(tool: string) returns (n: nat)
      ensures n == Occurrences(cfg.tools, tool)
    {
      n := 0;
      for i := 0 to |cfg.tools|
        invariant n == Occurrences(cfg.tools[..i], tool)
      {
        assert cfg.tools[..i + 1][..i] == cfg.tools[..i];
        if cfg.tools[i] == tool { n := n + 1; }
      }
      assert cfg.tools[..|cfg.tools|] == cfg.tools;
    }

    method TruncateAndFinalize(reason: Termination) returns (m: Message)
      modifies this
      ensures Snapshot() == AfterTruncation(cfg, old(Snapshot()), reason)
      ensures m == TruncatedAnswer(reason, !LimitReached(old(llmCalls), cfg.maximumLlmCalls))
    {
      var byModel := !LimitReached(llmCalls, cfg.maximumLlmCalls);
      if byModel { llmCalls := llmCalls + 1; }
      termination := Some(reason);
      m := TruncatedAnswer(reason, byModel);
    }

    // -------------------------------------------------------------- what is offered

    method DeriveCandidates(n: NodeId) returns (result: seq<Candidate>)
      requires HasReport(Snapshot(), n) && nodes[n].status == Reported
      ensures forall c :: c in result <==> c.Derive? && c.actor == n && OffersDerive(cfg, Snapshot(), n, c.index)
    {
      result := [];
      var children := nodes[n].report.value.children;
      for i := 0 to |children|
        invariant forall c :: c in result <==>
                    c.Derive? && c.actor == n && c.index < i && OffersDerive(cfg, Snapshot(), n, c.index)
      {
        if (n, children[i].gap) !in gapKeys && cfg.fingerprint(children[i].objective) !in fingerprints {
          if DeriveId(n, children[i].gap, i) !in used { result := result + [Derive(n, i)]; }
        }
      }
    }

    method AcquisitionCandidates(n: NodeId) returns (result: seq<Candidate>)
      requires HasReport(Snapshot(), n) && nodes[n].status == Reported
      ensures forall c :: c in result <==>
                (c.AcquireUser? || c.AcquireTool?) && c.actor == n && OffersProper(cfg, Snapshot(), c)
    {
      result := [];
      var report := nodes[n].report.value;
      for i := 0 to |report.userGaps|
        invariant forall c :: c in result <==>
                    c.AcquireUser? && c.actor == n && c.gap in report.userGaps[..i] && AcquireUserId(n, c.gap) !in used
      {
        assert report.userGaps[..i + 1] == report.userGaps[..i] + [report.userGaps[i]];
        if AcquireUserId(n, report.userGaps[i]) !in used { result := result + [AcquireUser(n, report.userGaps[i])]; }
      }
      ghost var questions := result;
      assert report.userGaps[..|report.userGaps|] == report.userGaps;
      for i := 0 to |cfg.tools|
        invariant forall c :: c in result <==>
                    || c in questions
                    || (c.AcquireTool? && c.actor == n && c.tool in cfg.tools[..i] && c.tool in report.tools
                        && AcquireToolId(n, c.tool) !in used)
      {
        assert cfg.tools[..i + 1] == cfg.tools[..i] + [cfg.tools[i]];
        if cfg.tools[i] in report.tools && AcquireToolId(n, cfg.tools[i]) !in used {
          result := result + [AcquireTool(n, cfg.tools[i])];
        }
      }
      assert cfg.tools[..|cfg.tools|] == cfg.tools;
    }

    /** What one node may do by itself. */
    method NodeCandidates(n: NodeId) returns (result: seq<Candidate>)
      requires n < |nodes|
      ensures forall c :: c in result <==> PerNode(c) && ActorOf(c) == n && OffersProper(cfg, Snapshot(), c)
    {
      result := [];
      if nodes[n].status == Ready { return [Execute(n)]; }
      if nodes[n].status != Reported { return; }
      if nodes[n].report.Some? {
        var derive := DeriveCandidates(n);
        var acquire := AcquisitionCandidates(n);
        result := derive + acquire;
      }
      if n != 0 {
        result := result + [Return(n)];
      } else if forall i :: 1 <= i < |nodes| ==> !InPlay(nodes[i].status) {
        result := result + [Stop];
      }
    }

    method ConnectCandidates() returns (result: seq<Candidate>)
      ensures forall c :: c in result <==> c.Connect? && OffersConnect(Snapshot(), c.source, c.destination)
    {
      result := [];
      for f := 0 to |nodes|
        invariant forall c :: c in result <==>
                    c.Connect? && c.source < f && OffersConnect(Snapshot(), c.source, c.destination)
      {
        for t := 0 to |nodes|
          invariant forall c :: c in result <==>
                      && c.Connect? && OffersConnect(Snapshot(), c.source, c.destination)
                      && (c.source < f || (c.source == f && c.destination < t))
        {
          if OffersConnect(Snapshot(), f, t) { result := result + [Connect(f, t)]; }
        }
      }
    }

    /** Everything on offer, and the fallback when that is nothing. */
    method Candidates() returns (result: seq<Candidate>)
      ensures result != []
      ensures forall c :: c in result <==> Offered(cfg, Snapshot(), c)
    {
      result := [];
      for n := 0 to |nodes|
        invariant forall c :: c in result <==> PerNode(c) && ActorOf(c) < n && OffersProper(cfg, Snapshot(), c)
      {
        var own := NodeCandidates(n);
        result := result + own;
      }
      ghost var perNode := result;
      for n := 0 to |nodes|
        invariant forall c :: c in result <==>
                    c in perNode || (c.Prune? && c.target < n && OffersProper(cfg, Snapshot(), c))
      {
        if nodes[n].status == Returned && PruneId(n) !in used { result := result + [Prune(n)]; }
      }
      var connect := ConnectCandidates();
      result := result + connect;
      assert forall c :: c in result <==> OffersProper(cfg, Snapshot(), c) by {
        forall c | OffersProper(cfg, Snapshot(), c) ensures c in result {
          if PerNode(c) { assert ActorOf(c) < |nodes|; }
        }
      }
      if result == [] {
        result := [StopFallback];
        assert StopFallback in result;
      } else {
        assert result[0] in result;
      }
    }

    // -------------------------------------------------------------- one turn

    /** The deepest actor of the candidates, and of equally deep ones the one named last. */
    method ScheduledNode(candidates: seq<Candidate>) returns (context: NodeId)
      requires candidates != [] && forall c :: c in candidates ==> ActorOf(c) < |nodes|
      ensures context < |nodes| && exists c :: c in candidates && ActorOf(c) == context
      ensures forall c :: c in candidates ==> Yields(nodes, ActorOf(c), context)
    {
      context := ActorOf(candidates[0]);
      assert candidates[0] in candidates;
      for i := 0 to |candidates|
        invariant context < |nodes|
        invariant exists c :: c in candidates && ActorOf(c) == context
        invariant forall k :: 0 <= k < i ==>
                    candidates[k] in candidates && Yields(nodes, ActorOf(candidates[k]), context)
      {
        assert candidates[i] in candidates;
        var actor := ActorOf(candidates[i]);
        YieldsOrders(nodes, actor, context);
        if !Yields(nodes, actor, context) {
          forall k | 0 <= k < i ensures Yields(nodes, ActorOf(candidates[k]), actor) {
            YieldsTransitive(nodes, ActorOf(candidates[k]), context, actor);
          }
          YieldsOrders(nodes, actor, actor);
          context := actor;
        }
      }
    }

    method OfContext(candidates: seq<Candidate>, context: NodeId) returns (own: seq<Candidate>)
      ensures forall c :: c in own <==> c in candidates && ActorOf(c) == context
    {
      own := [];
      for i := 0 to |candidates|
        invariant forall c :: c in own <==> c in candidates[..i] && ActorOf(c) == context
      {
        assert candidates[..i + 1] == candidates[..i] + [candidates[i]];
        if ActorOf(candidates[i]) == context { own := own + [candidates[i]]; }
      }
      assert candidates[..|candidates|] == candidates;
    }

    method Masked(own: seq<Candidate>) returns (mask: Result<seq<bool>, ExplorationEnvelope.EnvelopeError>)
      requires |nodes| >= 1 && forall c :: c in own ==> ActorOf(c) < |nodes|
      ensures mask.Failure? <==> forall c :: c in own ==> !Legal(cfg, Snapshot(), c)
      ensures mask.Success? ==> |mask.value| == |own|
      ensures mask.Success? ==> forall i :: 0 <= i < |own| ==> mask.value[i] == Legal(cfg, Snapshot(), own[i])
    {
      var s := Snapshot();
      var gap := exists c | c in own :: Legal(cfg, s, c) && (c.Derive? || c.AcquireUser? || c.AcquireTool?);
      var deepest := 0;
      for i := 0 to |nodes| {
        if nodes[i].depth > deepest { deepest := nodes[i].depth; }
      }
      var envelope := ExplorationEnvelope.Envelope(cfg.floorNodes, cfg.envelopeNodes,
                                                   cfg.floorDepth, cfg.envelopeDepth);
      var progress := ExplorationEnvelope.Progress(|nodes|, deepest, gap);
      var actions := seq(|own|, i requires 0 <= i < |own| => AsAction(cfg, s, own[i]));
      mask := ExplorationEnvelope.LegalActions(actions, envelope, progress);
      ExplorationEnvelope.OrdinaryKindsPass(actions, envelope, progress);
      assert forall i :: 0 <= i < |own| ==> (own[i] in own && actions[i].legal == Legal(cfg, s, own[i]));
    }

    /** Samples a legal candidate of the scheduled node; any of them may come out.  When that
        node has none the mask raises, although other nodes may have some. */
    method Choose(candidates: seq<Candidate>) returns (r: Result<Candidate, AgentError>)
      requires Inv(cfg, Snapshot()) && Idle(Snapshot()) && candidates != []
      requires forall c :: c in candidates <==> Offered(cfg, Snapshot(), c)
      ensures r.Success? ==> Offered(cfg, Snapshot(), r.value) && Legal(cfg, Snapshot(), r.value)
      ensures r.Success? ==> IsContext(cfg, Snapshot(), ActorOf(r.value))
      ensures r.Failure? <==> ContextBarred(cfg, Snapshot())
      ensures r.Failure? ==> r.error == EnvelopeRemovedEveryAction
    {
      forall c | c in candidates ensures ActorOf(c) < |nodes| {
        OnlyReturnedNodesActFromOutside(cfg, Snapshot(), c);
      }
      var context := ScheduledNode(candidates);
      assert IsContext(cfg, Snapshot(), context);
      var own := OfContext(candidates, context);
      var mask := Masked(own);
      if mask.Failure? {
        return Failure(EnvelopeRemovedEveryAction);
      }
      var first :| first in own && Legal(cfg, Snapshot(), first);
      forall t | IsContext(cfg, Snapshot(), t) ensures t == context {
        ContextIsUnique(cfg, Snapshot(), t, context);
      }
      var i :| 0 <= i < |own| && mask.value[i];
      assert own[i] in own;
      r := Success(own[i]);
    }

    method Ingest(message: Incoming)
      requires Inv(cfg, Snapshot()) && Expected(Snapshot(), message)
      modifies this
      ensures Snapshot() == AfterIncoming(old(Snapshot()), message)
    {
      match message
      case Nothing =>
      case ToolMessage(failed) => IngestToolObservation(failed);
      case UserText(content) =>
        if pendingUser.Some? {
          IngestUserObservation();
        } else {
          nodes := nodes[0 := nodes[0].(objective := content, status := Ready)];
        }
    }

    /** One call of the agent: it takes in a message, then decides until something goes out.
        The trace is a piece of a scheduled run, so all that is proved of those applies.  The
        call raises exactly when it comes to a stranded turn, or chooses a tool whose name
        occurs more than once.  It is cut short for want of a legal action exactly when it comes
        to a dead turn with a decision of this call left.  What it answers with is what its last
        decision, and no earlier one, sends out. */
    method GenerateNextMessage(message: Incoming)
      returns (r: Result<Message, AgentError>, ghost states: seq<State>, ghost events: seq<Event>)
      requires cfg.Valid() && Inv(cfg, Snapshot()) && Expected(Snapshot(), message)
      modifies this
      ensures Inv(cfg, Snapshot())
      ensures ScheduledPiece(cfg, states, events)
      ensures states[0] == AfterIncoming(old(Snapshot()), message) && states[|events|] == Snapshot()
      ensures decisions <= old(decisions) + 8 * cfg.NodeCeiling() - 6
      ensures decisions <= old(decisions) + cfg.maximumInternalDecisions
      ensures r.Success? && r.value.TruncatedAnswer? ==>
                && r.value.writtenByModel && r.value.reason != LlmCallBudgetExhausted
                && (cfg.maximumInternalDecisions >= 8 * cfg.NodeCeiling() - 6 ==>
                      r.value.reason != InternalTurnDecisionLimit)
      ensures r.Success? ==> (termination.None? <==> r.value.UserQuestion? || r.value.ToolCall?)
      ensures r == Failure(EnvelopeRemovedEveryAction) <==> StrandedTurn(cfg, Snapshot())
      ensures EndsInTime(cfg, states, events, r)
      ensures r == Success(TruncatedAnswer(RuntimeActionBudgetExhausted, true)) <==>
                1 <= |events| <= cfg.maximumInternalDecisions && DeadTurn(cfg, states[|events| - 1])
    {
      hide EndsInTime, Quiet, Inv, StrandedTurn, DeadTurn, ScheduledPiece, Measure, LimitReached;
      Ingest(message);
      IncomingKeeps(cfg, old(Snapshot()), message);
      ghost var first := Snapshot();
      states, events := [Snapshot()], [];
      ghost var start := Measure(cfg, Snapshot());
      MeasureBounds(cfg, Snapshot());
      QuietAtFirst(cfg, states);
      var taken := 0;
      while taken < cfg.maximumInternalDecisions
        invariant taken <= cfg.maximumInternalDecisions
        invariant Inv(cfg, Snapshot()) && Idle(Snapshot())
        invariant ScheduledPiece(cfg, states, events) && Quiet(cfg, states, events)
        invariant decisions == old(decisions) + taken && |events| == taken && |states| == taken + 1
        invariant states[0] == first && states[|events|] == Snapshot()
        invariant taken <= start - Measure(cfg, Snapshot())
      {
        MeasureBounds(cfg, Snapshot());
        if LimitReached(decisions, cfg.maximumDecisions) {
          r, states, events := CutShort(DecisionBudgetExhausted, states, events);
          DeadIffCut(cfg, states, events, r);
          return;
        }
        if LimitReached(llmCalls, cfg.maximumLlmCalls) {
          // The original cuts the turn short with llm_call_budget_exhausted here.
          OneCallIsLeft(cfg, Snapshot());
          assert false;
        }
        var over;
        over, r, states, events := DecideOnce(states, events);
        taken := taken + 1;
        if over {
          DeadIffCut(cfg, states, events, r);
          return;
        }
      }
      MeasureBounds(cfg, Snapshot());
      r, states, events := CutShort(InternalTurnDecisionLimit, states, events);
      DeadIffCut(cfg, states, events, r);
    }

    /** One round of the loop.  over says whether the call ends here, with r. */
    method DecideOnce(ghost states: seq<State>, ghost events: seq<Event>)
      returns (over: bool, r: Result<Message, AgentError>, ghost states': seq<State>, ghost events': seq<Event>)
      requires Inv(cfg, Snapshot()) && Idle(Snapshot()) && !LimitReached(decisions, cfg.maximumDecisions)
      requires !LimitReached(llmCalls, cfg.maximumLlmCalls)
      requires ScheduledPiece(cfg, states, events) && Quiet(cfg, states, events) && states[|events|] == Snapshot()
      requires |events| < cfg.maximumInternalDecisions
      modifies this
      ensures Inv(cfg, Snapshot()) && decisions <= old(decisions) + 1
      ensures ScheduledPiece(cfg, states', events') && states'[0] == states[0] && states'[|events'|] == Snapshot()
      ensures !over ==>
                && Idle(Snapshot()) && Quiet(cfg, states', events')
                && decisions == old(decisions) + 1 && |states'| == |events'| + 1 == |events| + 2
                && Measure(cfg, Snapshot()) < Measure(cfg, old(Snapshot()))
      ensures over ==> EndsInTime(cfg, states', events', r)
      ensures over ==> (r == Failure(EnvelopeRemovedEveryAction) <==> StrandedTurn(cfg, Snapshot()))
      ensures over && r.Success? && r.value.TruncatedAnswer? ==>
                r.value.writtenByModel && r.value.reason == RuntimeActionBudgetExhausted
      ensures over && r.Success? ==> (termination.None? <==> r.value.UserQuestion? || r.value.ToolCall?)
    {
      hide EndsInTime, Quiet, Outward, Inv, Offered, Scheduled, StrandedTurn, DeadTurn, Legal, ScheduledStep, IsContext,
           ContextBarred, Measure;
      over := true;
      var candidates := Candidates();
      DeadIffNoneLegal(cfg, Snapshot(), candidates);
      if !exists c | c in candidates :: Legal(cfg, Snapshot(), c) {
        r, states', events' := CutShort(RuntimeActionBudgetExhausted, states, events);
        return;
      }
      var choice := Choose(candidates);
      ChoosingRaisesIff(cfg, Snapshot(), candidates);
      if choice.Failure? {
        r, states', events' := Failure(choice.error), states, events;
        BarredIsInTime(cfg, states, events);
        return;
      }
      var outward;
      outward, states', events' := TakeDecision(choice.value, states, events);
      DecisionIsInTime(cfg, states, events, events'[|events|], Snapshot());
      match outward
      case Failure(error) => r := Failure(error);
      case Success(Some(m)) => r := Success(m);
      case Success(None) => over, r := false, Success(FinalAnswer);
    }

    method CutShort(reason: Termination, ghost states: seq<State>, ghost events: seq<Event>)
      returns (r: Result<Message, AgentError>, ghost states': seq<State>, ghost events': seq<Event>)
      requires Inv(cfg, Snapshot()) && Idle(Snapshot()) && CutFor(cfg, Snapshot(), |events|, reason)
      requires ScheduledPiece(cfg, states, events) && Quiet(cfg, states, events) && states[|events|] == Snapshot()
      modifies this
      ensures Inv(cfg, Snapshot()) && decisions == old(decisions) && termination == Some(reason)
      ensures ScheduledPiece(cfg, states', events')
      ensures states' == states + [Snapshot()] && events' == events + [Truncation(reason)]
      ensures states'[0] == states[0] && states'[|events'|] == Snapshot()
      ensures r == Success(TruncatedAnswer(reason, true)) && !StrandedTurn(cfg, Snapshot())
      ensures EndsInTime(cfg, states', events', r)
    {
      StepKeeps(cfg, Snapshot(), Truncation(reason));
      var m := TruncateAndFinalize(reason);
      r := Success(m);
      states', events' := states + [Snapshot()], events + [Truncation(reason)];
      PieceGrows(cfg, states, events, Truncation(reason), Snapshot());
      CutIsInTime(cfg, states, events, reason, Snapshot());
    }

    method TakeDecision(c: Candidate, ghost states: seq<State>, ghost events: seq<Event>)
      returns (outward: Result<Option<Message>, AgentError>, ghost states': seq<State>, ghost events': seq<Event>)
      requires Inv(cfg, Snapshot()) && Idle(Snapshot())
      requires !LimitReached(decisions, cfg.maximumDecisions) && !LimitReached(llmCalls, cfg.maximumLlmCalls)
      requires Offered(cfg, Snapshot(), c) && Legal(cfg, Snapshot(), c) && IsContext(cfg, Snapshot(), ActorOf(c))
      requires ScheduledPiece(cfg, states, events) && states[|events|] == Snapshot()
      modifies this
      ensures Inv(cfg, Snapshot()) && decisions == old(decisions) + 1
      ensures ScheduledPiece(cfg, states', events')
      ensures states' == states + [Snapshot()] && |events'| == |events| + 1 && events'[..|events|] == events
      ensures events'[|events|].Decision? && events'[|events|].choice == c && events' == events + [events'[|events|]]
      ensures outward == Outward(cfg, c) && (outward != Success(None) ==> !StrandedTurn(cfg, Snapshot()))
      ensures outward.Failure? ==> c.AcquireTool? && Occurrences(cfg.tools, c.tool) > 1
      ensures outward == Success(None) ==>
                Idle(Snapshot()) && Measure(cfg, Snapshot()) < Measure(cfg, old(Snapshot()))
      ensures outward.Success? && outward.value.Some? ==>
                (termination.None? <==> outward.value.value.UserQuestion? || outward.value.value.ToolCall?)
    {
      hide Inv, Offered, Scheduled, Legal, ScheduledPiece, Measure, Effect, IsContext;
      ghost var s := Snapshot();
      ContextIsScheduled(cfg, s, c);
      OfferedToolOccurs(cfg, s, c);
      var report: Report := *;
      DecisionFacts(cfg, s, c, report);
      used, actions := used + [IdOf(Snapshot(), c)], actions + [IdOf(Snapshot(), c)];
      decisions := decisions + 1;
      assert Snapshot() == Record(s, c);
      outward := Apply(c, report);
      states', events' := states + [Snapshot()], events + [Decision(c, report)];
      PieceGrows(cfg, states, events, Decision(c, report), Snapshot());
    }
  }

  /** The message answers what is outstanding, if anything is. */
  predicate Expected(s: State, message: Incoming) {
    && s.termination.None?
    && match message
       case Nothing => Idle(s)
       case ToolMessage(_) => s.pendingTool.Some?
       case UserText(_) => s.pendingTool.None?
  }

  function AfterIncoming(s: State, message: Incoming): State
    requires |s.nodes| >= 1 && PendingInRange(s)
  {
    match message
    case Nothing => s
    case ToolMessage(failed) => AfterToolObservation(s, failed)
    case UserText(content) => if s.pendingUser.Some? then AfterUserObservation(s) else AfterUserMessage(s, content)
  }

  lemma IncomingKeeps(cfg: Config, s: State, message: Incoming)
    requires Inv(cfg, s) && Expected(s, message)
    ensures Inv(cfg, AfterIncoming(s, message)) && Idle(AfterIncoming(s, message))
    ensures AfterIncoming(s, message).decisions == s.decisions
  {
    match message
    case Nothing =>
    case ToolMessage(failed) => StepKeeps(cfg, s, ToolReply(failed));
    case UserText(content) => StepKeeps(cfg, s, if s.pendingUser.Some? then UserReply else UserMessage(content));
  }

  lemma OneCallIsLeft(cfg: Config, s: State)
    requires Inv(cfg, s) && Idle(s)
    ensures !LimitReached(s.llmCalls, cfg.maximumLlmCalls)
  {
  }

  /** Everything a turn needs to know about one decision. */
  lemma DecisionFacts(cfg: Config, s: State, c: Candidate, report: Report)
    requires Inv(cfg, s) && Scheduled(cfg, s, c) && Enabled(cfg, s, Decision(c, report))
    ensures Applicable(s, c) && Applicable(Record(s, c), c) && Inv(cfg, Decide(cfg, s, c, report))
    ensures ScheduledStep(cfg, s, Decision(c, report), Decide(cfg, s, c, report))
    ensures Decide(cfg, s, c, report).decisions == s.decisions + 1
    ensures Outward(cfg, c) != Success(None) ==> !Idle(Decide(cfg, s, c, report))
    ensures Outward(cfg, c) == Success(None) ==>
              Idle(Decide(cfg, s, c, report)) && Measure(cfg, Decide(cfg, s, c, report)) < Measure(cfg, s)
    ensures Outward(cfg, c).Success? && Outward(cfg, c).value.Some? ==>
              (Decide(cfg, s, c, report).termination.None? <==>
               Outward(cfg, c).value.value.UserQuestion? || Outward(cfg, c).value.value.ToolCall?)
  {
    StepKeeps(cfg, s, Decision(c, report));
    if Stays(c) { DecisionLowers(cfg, s, c, report); }
  }

  /** Consecutive states of a scheduled run. */
  ghost predicate ScheduledPiece(cfg: Config, states: seq<State>, events: seq<Event>) {
    && |states| == |events| + 1
    && forall k :: 0 <= k < |events| ==> ScheduledStep(cfg, states[k], events[k], states[k + 1])
  }

  lemma PieceGrows(cfg: Config, states: seq<State>, events: seq<Event>, e: Event, s': State)
    requires ScheduledPiece(cfg, states, events) && ScheduledStep(cfg, states[|events|], e, s')
    ensures ScheduledPiece(cfg, states + [s'], events + [e])
  {
  }

  /** What goes out when a choice is carried out. */
  function Outward(cfg: Config, c: Candidate): (r: Result<Option<Message>, AgentError>)
    ensures r.Failure? ==> r.error.ToolUnavailableOrAmbiguous?
    ensures r.Success? && r.value.Some? ==> !r.value.value.TruncatedAnswer?
  {
    match c
    case AcquireUser(_, gap) => Success(Some(UserQuestion(gap)))
    case AcquireTool(_, tool) =>
      if Occurrences(cfg.tools, tool) == 1 then Success(Some(ToolCall(tool)))
      else Failure(ToolUnavailableOrAmbiguous(tool))
    case Stop => Success(Some(FinalAnswer))
    case StopFallback => Success(Some(FinalAnswer))
    case _ => Success(None)
  }

  /** A question goes out with its gap, a call with its tool when exactly one tool carries the name,
      a stop with the final answer, and nothing with any other choice. */
  lemma WhatGoesOut(cfg: Config, c: Candidate)
    ensures c.AcquireUser? ==> Outward(cfg, c) == Success(Some(UserQuestion(c.gap)))
    ensures c.AcquireTool? ==>
              Outward(cfg, c) == if exists i :: 0 <= i < |cfg.tools| && OnlyAt(cfg.tools, c.tool, i)
                                 then Success(Some(ToolCall(c.tool))) else Failure(ToolUnavailableOrAmbiguous(c.tool))
    ensures c.Stop? || c.StopFallback? ==> Outward(cfg, c) == Success(Some(FinalAnswer))
    ensures Outward(cfg, c) == Success(None) <==> c.Execute? || c.Derive? || c.Return? || c.Prune? || c.Connect?
  {
    if c.AcquireTool? { OccursOnceIff(cfg.tools, c.tool); }
  }

  predicate PerNode(c: Candidate) { !c.Prune? && !c.Connect? && !c.StopFallback? }

  function KindName(c: Candidate): string {
    match c
    case Execute(_) => "EXECUTE"
    case Derive(_, _) => "DERIVE"
    case AcquireUser(_, _) => "ACQUIRE"
    case AcquireTool(_, _) => "ACQUIRE"
    case Return(_) => "RETURN"
    case Prune(_) => "PRUNE"
    case Connect(_, _) => "CONNECT"
    case Stop => "STOP"
    case StopFallback => "STOP"
  }

  function AsAction(cfg: Config, s: State, c: Candidate): (a: ExplorationEnvelope.Action)
    ensures a.legal == Legal(cfg, s, c) && ExplorationEnvelope.Ordinary(a.kind)
  {
    ExplorationEnvelope.Action(KindName(c), Legal(cfg, s, c),
      if c.Derive? && c.actor < |s.nodes| then Some(s.nodes[c.actor].depth + 1) else None,
      c.Derive? || c.AcquireUser? || c.AcquireTool?)
  }

  /** The last decision of the turn was to call a tool whose name is not unique. */
  ghost predicate EndsAmbiguously(cfg: Config, events: seq<Event>, tool: string) {
    && events != [] && events[|events| - 1].Decision? && events[|events| - 1].choice.AcquireTool?
    && events[|events| - 1].choice.tool == tool && Occurrences(cfg.tools, tool) > 1
  }

  predicate EndsWithCut(events: seq<Event>, reason: Termination) {
    events != [] && events[|events| - 1] == Truncation(reason)
  }

  /** Why the call is cut short in state s after so many decisions: these are used up, or those of
      the whole run are, or no node can do anything. */
  predicate CutFor(cfg: Config, s: State, taken: nat, reason: Termination) {
    match reason
    case InternalTurnDecisionLimit => taken == cfg.maximumInternalDecisions
    case DecisionBudgetExhausted =>
      taken < cfg.maximumInternalDecisions && LimitReached(s.decisions, cfg.maximumDecisions)
    case RuntimeActionBudgetExhausted => taken < cfg.maximumInternalDecisions && DeadTurn(cfg, s)
    case _ => false
  }

  /** The last decision sends out this message. */
  predicate EndsWithMessage(cfg: Config, events: seq<Event>, m: Message) {
    events != [] && events[|events| - 1].Decision? && Outward(cfg, events[|events| - 1].choice) == Success(Some(m))
  }

  /** No decision was taken on a stranded or a dead turn, and only the last one may send out
      something: what the call answers with.  The call fails for a tool exactly when it chose one
      whose name occurs more than once, and is cut short for the reason that holds. */
  ghost predicate EndsInTime(cfg: Config, states: seq<State>, events: seq<Event>, r: Result<Message, AgentError>) {
    && |states| == |events| + 1 && |events| <= cfg.maximumInternalDecisions + 1
    && (forall k :: 0 <= k < |events| ==>
          if events[k].Decision? then !StrandedTurn(cfg, states[k]) && !DeadTurn(cfg, states[k])
          else k == |events| - 1 && events[k].Truncation? && CutFor(cfg, states[k], k, events[k].reason))
    && (forall k :: 0 <= k < |events| - 1 ==> Silent(cfg, events[k]))
    && (forall m: Message :: !m.TruncatedAnswer? ==> (r == Success(m) <==> EndsWithMessage(cfg, events, m)))
    && (forall tool :: r == Failure(ToolUnavailableOrAmbiguous(tool)) <==> EndsAmbiguously(cfg, events, tool))
    && (forall reason :: r == Success(TruncatedAnswer(reason, true)) <==> EndsWithCut(events, reason))
  }

  /** Decisions so far, none of them on a stranded or a dead turn, after none of which anything
      went out. */
  ghost predicate Quiet(cfg: Config, states: seq<State>, events: seq<Event>) {
    && |states| == |events| + 1 && |events| <= cfg.maximumInternalDecisions
    && forall k :: 0 <= k < |events| ==>
         Silent(cfg, events[k]) && !StrandedTurn(cfg, states[k]) && !DeadTurn(cfg, states[k])
  }

  /** A decision after which nothing goes out. */
  predicate Silent(cfg: Config, e: Event) {
    e.Decision? && Outward(cfg, e.choice) == Success(None)
  }

  lemma QuietAtFirst(cfg: Config, states: seq<State>)
    requires |states| == 1
    ensures Quiet(cfg, states, []) && ScheduledPiece(cfg, states, [])
  {
  }

  lemma CutIsInTime(cfg: Config, states: seq<State>, events: seq<Event>, reason: Termination, s: State)
    requires Quiet(cfg, states, events) && CutFor(cfg, states[|events|], |events|, reason)
    ensures EndsInTime(cfg, states + [s], events + [Truncation(reason)], Success(TruncatedAnswer(reason, true)))
  {
    hide StrandedTurn, DeadTurn, Occurrences;
  }

  lemma BarredIsInTime(cfg: Config, states: seq<State>, events: seq<Event>)
    requires Quiet(cfg, states, events)
    ensures EndsInTime(cfg, states, events, Failure(EnvelopeRemovedEveryAction))
  {
    hide StrandedTurn, DeadTurn, Occurrences;
  }

  lemma DecisionIsInTime(cfg: Config, states: seq<State>, events: seq<Event>, e: Event, s: State)
    requires Quiet(cfg, states, events) && |events| < cfg.maximumInternalDecisions
    requires e.Decision? && !StrandedTurn(cfg, states[|events|]) && !DeadTurn(cfg, states[|events|])
    requires Outward(cfg, e.choice).Failure? ==> e.choice.AcquireTool? && Occurrences(cfg.tools, e.choice.tool) > 1
    ensures match Outward(cfg, e.choice)
            case Failure(error) => EndsInTime(cfg, states + [s], events + [e], Failure(error))
            case Success(Some(m)) => EndsInTime(cfg, states + [s], events + [e], Success(m))
            case Success(None) => Quiet(cfg, states + [s], events + [e])
  {
    hide StrandedTurn, DeadTurn, Occurrences;
    var longer, states' := events + [e], states + [s];
    forall k | 0 <= k < |longer|
      ensures longer[k].Decision? && !StrandedTurn(cfg, states'[k]) && !DeadTurn(cfg, states'[k])
    {
      assert k < |events| ==> longer[k] == events[k] && states'[k] == states[k];
    }
  }

  /** The call is cut short for want of a legal action exactly when it came to a dead turn. */
  lemma DeadIffCut(cfg: Config, states: seq<State>, events: seq<Event>, r: Result<Message, AgentError>)
    requires EndsInTime(cfg, states, events, r)
    ensures r == Success(TruncatedAnswer(RuntimeActionBudgetExhausted, true)) <==>
              1 <= |events| <= cfg.maximumInternalDecisions && DeadTurn(cfg, states[|events| - 1])
  {
  }

  lemma DeadIffNoneLegal(cfg: Config, s: State, candidates: seq<Candidate>)
    requires Inv(cfg, s) && Idle(s) && !LimitReached(s.decisions, cfg.maximumDecisions)
    requires forall c :: c in candidates <==> Offered(cfg, s, c)
    ensures (exists c :: c in candidates && Legal(cfg, s, c)) <==> !DeadTurn(cfg, s)
  {
    hide Inv, Offered, Legal, DeadTurn;
    NothingLegalIff(cfg, s);
  }

  lemma OfferedToolOccurs(cfg: Config, s: State, c: Candidate)
    requires Offered(cfg, s, c)
    ensures c.AcquireTool? ==> Occurrences(cfg.tools, c.tool) >= 1
  {
    if c.AcquireTool? { OccursIff(cfg.tools, c.tool); }
  }

  /** Once something is legal, choosing raises exactly on a stranded turn. */
  lemma ChoosingRaisesIff(cfg: Config, s: State, candidates: seq<Candidate>)
    requires Inv(cfg, s) && Idle(s) && !LimitReached(s.decisions, cfg.maximumDecisions)
    requires forall c :: c in candidates <==> Offered(cfg, s, c)
    requires exists c :: c in candidates && Legal(cfg, s, c)
    ensures ContextBarred(cfg, s) <==> StrandedTurn(cfg, s)
  {
    var c :| c in candidates && Legal(cfg, s, c);
    RaisesIff(cfg, s);
  }
}

/**
 The organization that one agent grows while it answers a task: a tree of reasoning
 nodes, three kinds of edges, two kinds of outstanding acquisition and the run-time
 budgets.  This module gives the state as a value and each transition as a function;
 OrganizationAgent holds the same state in an object and changes it in place.

 A node is named by its position: position 0 is "root" and position k is "node-k".
 */
module OrganizationModel {
  import opened Wrappers

  type NodeId = nat

  datatype Status = Ready | Reported | Waiting | WaitingDependency | Returned | Pruned

  /** What a report may name as a dependency: a node, or the id of a proposal. */
  datatype Identifier = NodeRef(id: NodeId) | Alias(name: string)

  /** A child a report asks for.  Only explicit proposals may name other proposals. */
  datatype ChildSpec = ChildSpec(proposal: Option<Identifier>, gap: string, objective: string,
                                 dependsOn: seq<Identifier>, explicit: bool)

  /** A report is arbitrary data: nothing is assumed about what the language model wrote. */
  datatype Report = Report(children: seq<ChildSpec>, aliases: set<Identifier>,
                           userGaps: seq<string>, tools: seq<string>)

  datatype Node = Node(parent: Option<NodeId>, depth: nat, objective: string, gap: string,
                       status: Status, report: Option<Report>)

  datatype Edge = Edge(source: NodeId, target: NodeId)

  datatype Dependency = Dependency(producer: NodeId, consumer: NodeId, resolved: bool)

  datatype Candidate =
    | Execute(actor: NodeId)
    | Derive(actor: NodeId, index: nat)
    | AcquireUser(actor: NodeId, gap: string)
    | AcquireTool(actor: NodeId, tool: string)
    | Return(actor: NodeId)
    | Prune(target: NodeId)
    | Connect(source: NodeId, destination: NodeId)
    | Stop
    | StopFallback

  /** The identifier under which a choice is remembered as used. */
  datatype CandidateId =
    | ExecuteId(actor: NodeId, decision: nat)
    | DeriveId(actor: NodeId, gap: string, index: nat)
    | AcquireUserId(actor: NodeId, gap: string)
    | AcquireToolId(actor: NodeId, tool: string)
    | ReturnId(actor: NodeId)
    | PruneId(target: NodeId)
    | ConnectId(source: NodeId, destination: NodeId)
    | StopId(decision: nat)
    | StopFallbackId

  datatype Termination =
    | PolicyStop
    | DecisionBudgetExhausted
    | LlmCallBudgetExhausted
    | RuntimeActionBudgetExhausted
    | InternalTurnDecisionLimit

  /** The run-time budget, the exploration envelope's ceilings and the fixed tool list.
      fingerprint stands for the hash of a normalised objective. */
  datatype Config = Config(
    maximumLlmCalls: Option<nat>, maximumToolCalls: Option<nat>, maximumNodes: Option<nat>,
    maximumDepth: Option<nat>, maximumDecisions: Option<nat>,
    envelopeNodes: nat, envelopeDepth: nat, floorNodes: nat, floorDepth: nat,
    maximumInternalDecisions: nat, tools: seq<string>, fingerprint: string -> string)
  {
    /** What the constructors of the budget and of the envelope check. */
    predicate Valid() {
      && (maximumLlmCalls.Some? ==> maximumLlmCalls.value >= 1)
      && (maximumNodes.Some? ==> maximumNodes.value >= 1)
      && (maximumDecisions.Some? ==> maximumDecisions.value >= 1)
      && envelopeNodes >= 1
    }

    function NodeCeiling(): nat { EffectiveCeiling(maximumNodes, envelopeNodes) }

    function DepthCeiling(): nat { EffectiveCeiling(maximumDepth, envelopeDepth) }
  }

  datatype State = State(
    nodes: seq<Node>,
    derivations: seq<Edge>,
    dependencies: seq<Dependency>,
    communications: seq<Edge>,
    used: seq<CandidateId>,
    gapKeys: seq<(NodeId, string)>,
    fingerprints: seq<string>,
    aliases: map<(NodeId, Identifier), NodeId>,
    failedTools: seq<CandidateId>,
    actions: seq<CandidateId>,
    pendingTool: Option<NodeId>,
    pendingUser: Option<NodeId>,
    decisions: nat,
    llmCalls: nat,
    toolCalls: nat,
    termination: Option<Termination>)

  // ---------------------------------------------------------------- budgets

  predicate LimitReached(used: nat, limit: Option<nat>) {
    limit.Some? && used >= limit.value
  }

  predicate RemainingAtMost(used: nat, limit: Option<nat>, threshold: nat) {
    limit.Some? && limit.value - used <= threshold
  }

  function EffectiveCeiling(limit: Option<nat>, envelope: nat): nat {
    if limit.None? || limit.value > envelope then envelope else limit.value
  }

  // ---------------------------------------------------------------- nodes

  predicate Finished(status: Status) {
    status == Returned || status == Pruned
  }

  predicate InPlay(status: Status) {
    status == Ready || status == Reported || status == Waiting
  }

  /** Every node but the root has an earlier parent one level above it. */
  predicate TreeShaped(nodes: seq<Node>) {
    && |nodes| >= 1
    && nodes[0].parent.None?
    && nodes[0].depth == 0
    && forall i :: 1 <= i < |nodes| ==> HasParent(nodes, i)
  }

  predicate HasParent(nodes: seq<Node>, i: NodeId)
    requires i < |nodes|
  {
    && nodes[i].parent.Some?
    && nodes[i].parent.value < i
    && nodes[i].depth == nodes[nodes[i].parent.value].depth + 1
  }

  /** a is b or lies above b in the tree. */
  predicate Above(nodes: seq<Node>, a: NodeId, b: NodeId)
    requires TreeShaped(nodes) && b < |nodes|
    decreases b
  {
    a == b || (b > 0 && (assert HasParent(nodes, b); Above(nodes, a, nodes[b].parent.value)))
  }

  function SetStatus(nodes: seq<Node>, i: NodeId, status: Status): seq<Node>
    requires i < |nodes|
  {
    nodes[i := nodes[i].(status := status)]
  }

  // ---------------------------------------------------------------- dependencies

  predicate HasIncoming(dependencies: seq<Dependency>, node: NodeId) {
    exists k :: 0 <= k < |dependencies| && dependencies[k].consumer == node
  }

  predicate AllResolved(dependencies: seq<Dependency>, node: NodeId) {
    forall k :: 0 <= k < |dependencies| && dependencies[k].consumer == node ==> dependencies[k].resolved
  }

  /** The node an identifier stands for when it is named by a child of actor. */
  function Lookup(s: State, actor: NodeId, identifier: Identifier): Option<NodeId> {
    if identifier.NodeRef? && identifier.id < |s.nodes| then Some(identifier.id)
    else if (actor, identifier) in s.aliases then Some(s.aliases[(actor, identifier)])
    else None
  }

  predicate Known(s: State, actor: NodeId, identifier: Identifier) {
    Lookup(s, actor, identifier).Some?
  }

  /** The nodes a new child of actor waits for: each named node once, in the order of
      naming, without actor and the nodes above it. */
  function ValidDependencies(s: State, actor: NodeId, identifiers: seq<Identifier>): (r: seq<NodeId>)
    requires TreeShaped(s.nodes) && actor < |s.nodes|
  {
    if identifiers == [] then []
    else
      var earlier := ValidDependencies(s, actor, identifiers[..|identifiers| - 1]);
      var found := Lookup(s, actor, identifiers[|identifiers| - 1]);
      if found.Some? && !Above(s.nodes, found.value, actor) && found.value !in earlier
      then earlier + [found.value] else earlier
  }

  /** The dependency ids of a child specification that survive at this moment. */
  function SafeDependencies(s: State, actor: NodeId, report: Report, spec: ChildSpec): seq<Identifier> {
    FilterSafe(|s.nodes|, actor, if spec.explicit then report.aliases else {}, spec.dependsOn)
  }

  function FilterSafe(known: nat, actor: NodeId, symbolic: set<Identifier>, ids: seq<Identifier>): seq<Identifier> {
    if ids == [] then []
    else
      var rest := FilterSafe(known, actor, symbolic, ids[1..]);
      if ((ids[0].NodeRef? && ids[0].id < known) || ids[0] in symbolic) && ids[0] != NodeRef(actor)
      then [ids[0]] + rest else rest
  }

  // ---------------------------------------------------------------- what is offered

  function IdOf(s: State, c: Candidate): CandidateId
    requires c.Derive? ==> HasSpec(s, c.actor, c.index)
  {
    match c
    case Execute(a) => ExecuteId(a, s.decisions)
    case Derive(a, i) => DeriveId(a, s.nodes[a].report.value.children[i].gap, i)
    case AcquireUser(a, g) => AcquireUserId(a, g)
    case AcquireTool(a, t) => AcquireToolId(a, t)
    case Return(a) => ReturnId(a)
    case Prune(t) => PruneId(t)
    case Connect(f, t) => ConnectId(f, t)
    case Stop => StopId(s.decisions)
    case StopFallback => StopFallbackId
  }

  function ActorOf(c: Candidate): NodeId {
    match c
    case Prune(_) => 0
    case Connect(f, _) => f
    case Stop => 0
    case StopFallback => 0
    case _ => c.actor
  }

  predicate HasReport(s: State, a: NodeId) {
    a < |s.nodes| && s.nodes[a].report.Some?
  }

  predicate HasSpec(s: State, a: NodeId, i: nat) {
    HasReport(s, a) && i < |s.nodes[a].report.value.children|
  }

  predicate StatusIs(s: State, a: NodeId, status: Status) {
    a < |s.nodes| && s.nodes[a].status == status
  }

  /** The specification's gap and objective have not been derived before. */
  predicate NewWork(cfg: Config, s: State, a: NodeId, i: nat) {
    && StatusIs(s, a, Reported)
    && HasSpec(s, a, i)
    && var spec := s.nodes[a].report.value.children[i];
       && (a, spec.gap) !in s.gapKeys
       && cfg.fingerprint(spec.objective) !in s.fingerprints
  }

  predicate OffersDerive(cfg: Config, s: State, a: NodeId, i: nat) {
    NewWork(cfg, s, a, i) && DeriveId(a, s.nodes[a].report.value.children[i].gap, i) !in s.used
  }

  /** The position order that keeps communication pointing forward. */
  function NodeSequence(a: NodeId): nat { if a == 0 then 0 else a + 1 }

  /** The report of f may still be shared with t. */
  predicate MayShare(s: State, f: NodeId, t: NodeId) {
    && f < |s.nodes| && t < |s.nodes|
    && f != t
    && Edge(f, t) !in s.communications
    && (forall k :: 0 <= k < |s.communications| ==> s.communications[k].target != t)
    && s.nodes[f].report.Some?
    && (s.nodes[f].status == Reported || s.nodes[f].status == Returned)
    && NodeSequence(f) < NodeSequence(t)
    && (s.nodes[t].status == Ready || s.nodes[t].status == Reported)
  }

  predicate OffersConnect(s: State, f: NodeId, t: NodeId) {
    MayShare(s, f, t) && ConnectId(f, t) !in s.used
  }

  predicate OffersStop(s: State) {
    && StatusIs(s, 0, Reported)
    && forall i :: 1 <= i < |s.nodes| ==> !InPlay(s.nodes[i].status)
  }

  /** Which candidates are on offer, but for the fallback. */
  predicate OffersProper(cfg: Config, s: State, c: Candidate) {
    match c
    case Execute(a) => StatusIs(s, a, Ready)
    case Derive(a, i) => OffersDerive(cfg, s, a, i)
    case AcquireUser(a, g) =>
      StatusIs(s, a, Reported) && HasReport(s, a)
      && g in s.nodes[a].report.value.userGaps && AcquireUserId(a, g) !in s.used
    case AcquireTool(a, t) =>
      StatusIs(s, a, Reported) && HasReport(s, a)
      && t in s.nodes[a].report.value.tools && t in cfg.tools && AcquireToolId(a, t) !in s.used
    case Return(a) => a != 0 && StatusIs(s, a, Reported)
    case Prune(t) => StatusIs(s, t, Returned) && PruneId(t) !in s.used
    case Connect(f, t) => OffersConnect(s, f, t)
    case Stop => OffersStop(s)
    case StopFallback => false
  }

  ghost predicate NothingProper(cfg: Config, s: State) {
    forall c :: !OffersProper(cfg, s, c)
  }

  ghost predicate Offered(cfg: Config, s: State, c: Candidate) {
    OffersProper(cfg, s, c) || (c == StopFallback && NothingProper(cfg, s))
  }

  // ---------------------------------------------------------------- what is legal

  predicate DependenciesAvailable(s: State, a: NodeId, identifiers: seq<Identifier>) {
    forall k :: 0 <= k < |identifiers| ==> Known(s, a, identifiers[k])
  }

  predicate Legal(cfg: Config, s: State, c: Candidate) {
    match c
    case Execute(_) =>
      !RemainingAtMost(s.llmCalls, cfg.maximumLlmCalls, 1) && !LimitReached(s.decisions, cfg.maximumDecisions)
    case AcquireTool(_, _) =>
      && !RemainingAtMost(s.llmCalls, cfg.maximumLlmCalls, 1)
      && !LimitReached(s.toolCalls, cfg.maximumToolCalls)
      && !LimitReached(s.decisions, cfg.maximumDecisions)
    case Stop =>
      !RemainingAtMost(s.llmCalls, cfg.maximumLlmCalls, 0) && !LimitReached(s.decisions, cfg.maximumDecisions)
    case StopFallback =>
      !RemainingAtMost(s.llmCalls, cfg.maximumLlmCalls, 0) && !LimitReached(s.decisions, cfg.maximumDecisions)
    case Derive(a, i) =>
      && HasSpec(s, a, i)
      && DependenciesAvailable(
           s, a, SafeDependencies(s, a, s.nodes[a].report.value, s.nodes[a].report.value.children[i]))
      && |s.nodes| < cfg.NodeCeiling()
      && s.nodes[a].depth + 1 <= cfg.DepthCeiling()
    case Return(a) =>
      && AllResolved(s.dependencies, a)
      && forall i :: 0 <= i < |s.nodes| && s.nodes[i].parent == Some(a) ==> Finished(s.nodes[i].status)
    case _ => !LimitReached(s.decisions, cfg.maximumDecisions)
  }

  // ---------------------------------------------------------------- transitions

  function Initial(objective: string): State {
    State([Node(None, 0, objective, "", Ready, None)], [], [], [], [], [], [], map[], [], [],
          None, None, 0, 0, 0, None)
  }

  /** The bookkeeping done for every choice before it takes effect. */
  function Record(s: State, c: Candidate): State
    requires c.Derive? ==> HasSpec(s, c.actor, c.index)
  {
    s.(used := s.used + [IdOf(s, c)], actions := s.actions + [IdOf(s, c)], decisions := s.decisions + 1)
  }

  function AfterExecute(s: State, a: NodeId, report: Report): State
    requires a < |s.nodes|
  {
    s.(nodes := s.nodes[a := s.nodes[a].(report := Some(report), status := Reported)],
       llmCalls := s.llmCalls + 1)
  }

  /** The edges from producers to a child that is about to be added. */
  function NewDependencies(nodes: seq<Node>, producers: seq<NodeId>, child: NodeId): (r: seq<Dependency>)
    requires forall k :: 0 <= k < |producers| ==> producers[k] < |nodes|
    ensures |r| == |producers|
    ensures forall k :: 0 <= k < |r| ==>
              r[k] == Dependency(producers[k], child, nodes[producers[k]].status == Returned)
  {
    if producers == [] then []
    else
      var last := producers[|producers| - 1];
      NewDependencies(nodes, producers[..|producers| - 1], child)
      + [Dependency(last, child, nodes[last].status == Returned)]
  }

  /** The dependency ids of a new child all name existing nodes when the alias table does. */
  predicate AliasesInRange(s: State) {
    forall key :: key in s.aliases ==> s.aliases[key] < |s.nodes|
  }

  lemma {:induction false} ValidDependenciesExist(s: State, actor: NodeId, identifiers: seq<Identifier>)
    requires TreeShaped(s.nodes) && actor < |s.nodes| && AliasesInRange(s)
    ensures forall k :: 0 <= k < |ValidDependencies(s, actor, identifiers)| ==>
              && ValidDependencies(s, actor, identifiers)[k] < |s.nodes|
              && !Above(s.nodes, ValidDependencies(s, actor, identifiers)[k], actor)
    ensures forall k, l :: 0 <= k < l < |ValidDependencies(s, actor, identifiers)| ==>
              ValidDependencies(s, actor, identifiers)[k] != ValidDependencies(s, actor, identifiers)[l]
  {
    if identifiers != [] {
      ValidDependenciesExist(s, actor, identifiers[..|identifiers| - 1]);
    }
  }

  function Producers(s: State, a: NodeId, i: nat): (r: seq<NodeId>)
    requires TreeShaped(s.nodes) && AliasesInRange(s) && HasSpec(s, a, i)
    ensures forall k :: 0 <= k < |r| ==> r[k] < |s.nodes|
  {
    var report := s.nodes[a].report.value;
    var ids := SafeDependencies(s, a, report, report.children[i]);
    ValidDependenciesExist(s, a, ids);
    ValidDependencies(s, a, ids)
  }

  function AfterDerive(cfg: Config, s: State, a: NodeId, i: nat): State
    requires TreeShaped(s.nodes) && AliasesInRange(s) && HasSpec(s, a, i)
  {
    var spec := s.nodes[a].report.value.children[i];
    var child := |s.nodes|;
    var producers := Producers(s, a, i);
    var edges := NewDependencies(s.nodes, producers, child);
    var status := if producers != [] && !AllResolved(s.dependencies + edges, child) then WaitingDependency else Ready;
    s.(nodes := s.nodes + [Node(Some(a), s.nodes[a].depth + 1, spec.objective, spec.gap, status, None)],
       derivations := s.derivations + [Edge(a, child)],
       dependencies := s.dependencies + edges,
       aliases := if spec.proposal.Some? then s.aliases[(a, spec.proposal.value) := child] else s.aliases,
       gapKeys := s.gapKeys + [(a, spec.gap)],
       fingerprints := s.fingerprints + [cfg.fingerprint(spec.objective)])
  }

  function AfterConnect(s: State, f: NodeId, t: NodeId): State
    requires t < |s.nodes|
  {
    s.(communications := s.communications + [Edge(f, t)],
       nodes := if s.nodes[t].status == Reported then SetStatus(s.nodes, t, Ready) else s.nodes)
  }

  function ResolveFrom(dependencies: seq<Dependency>, producer: NodeId): (r: seq<Dependency>)
    ensures |r| == |dependencies|
    ensures forall k :: 0 <= k < |r| ==>
              r[k] == dependencies[k].(resolved := dependencies[k].resolved || dependencies[k].producer == producer)
  {
    seq(|dependencies|, k requires 0 <= k < |dependencies| =>
      if dependencies[k].producer == producer then dependencies[k].(resolved := true) else dependencies[k])
  }

  function WokenStatus(dependencies: seq<Dependency>, i: NodeId, status: Status): Status {
    if status == WaitingDependency && HasIncoming(dependencies, i) && AllResolved(dependencies, i)
    then Ready else status
  }

  function Wake(nodes: seq<Node>, dependencies: seq<Dependency>): (r: seq<Node>)
    ensures |r| == |nodes|
    ensures forall i :: 0 <= i < |r| ==> r[i] == nodes[i].(status := WokenStatus(dependencies, i, nodes[i].status))
  {
    seq(|nodes|, i requires 0 <= i < |nodes| => nodes[i].(status := WokenStatus(dependencies, i, nodes[i].status)))
  }

  function ReturnedNodes(nodes: seq<Node>, dependencies: seq<Dependency>, a: NodeId): (r: seq<Node>)
    requires a < |nodes| && (nodes[a].parent.Some? ==> nodes[a].parent.value < |nodes|)
    ensures |r| == |nodes|
  {
    var woken := Wake(SetStatus(nodes, a, Returned), ResolveFrom(dependencies, a));
    if nodes[a].parent.Some? then SetStatus(woken, nodes[a].parent.value, Ready) else woken
  }

  function AfterReturn(s: State, a: NodeId): State
    requires a < |s.nodes| && (s.nodes[a].parent.Some? ==> s.nodes[a].parent.value < |s.nodes|)
  {
    s.(nodes := ReturnedNodes(s.nodes, s.dependencies, a), dependencies := ResolveFrom(s.dependencies, a))
  }

  function AfterPrune(s: State, t: NodeId): State
    requires t < |s.nodes|
  {
    s.(nodes := SetStatus(s.nodes, t, Pruned))
  }

  function AfterAcquireUser(s: State, a: NodeId): State
    requires a < |s.nodes|
  {
    s.(pendingUser := Some(a), nodes := SetStatus(s.nodes, a, Waiting))
  }

  function Occurrences(tools: seq<string>, tool: string): nat {
    if tools == [] then 0
    else (if tools[|tools| - 1] == tool then 1 else 0) + Occurrences(tools[..|tools| - 1], tool)
  }

  /** The model is asked for arguments only when exactly one tool carries the name. */
  function AfterAcquireTool(cfg: Config, s: State, a: NodeId, tool: string): State
    requires a < |s.nodes|
  {
    s.(pendingTool := Some(a), nodes := SetStatus(s.nodes, a, Waiting),
       llmCalls := if Occurrences(cfg.tools, tool) == 1 then s.llmCalls + 1 else s.llmCalls)
  }

  function AfterStop(s: State): State {
    s.(llmCalls := s.llmCalls + 1, termination := Some(PolicyStop))
  }

  /** The candidate's effect is defined: it names existing nodes and specifications. */
  predicate Applicable(s: State, c: Candidate) {
    && TreeShaped(s.nodes) && AliasesInRange(s)
    && match c
       case Derive(a, i) => HasSpec(s, a, i)
       case Prune(t) => t < |s.nodes|
       case Connect(_, t) => t < |s.nodes|
       case Return(a) =>
         a < |s.nodes| && (s.nodes[a].parent.Some? ==> s.nodes[a].parent.value < |s.nodes|)
       case Stop => true
       case StopFallback => true
       case _ => c.actor < |s.nodes|
  }

  /** The effect of a candidate.  report is what the language model answers when the choice
      is to execute a node. */
  function Effect(cfg: Config, s: State, c: Candidate, report: Report): State
    requires Applicable(s, c)
  {
    match c
    case Execute(a) => AfterExecute(s, a, report)
    case Derive(a, i) => AfterDerive(cfg, s, a, i)
    case AcquireUser(a, _) => AfterAcquireUser(s, a)
    case AcquireTool(a, t) => AfterAcquireTool(cfg, s, a, t)
    case Return(a) => AfterReturn(s, a)
    case Prune(t) => AfterPrune(s, t)
    case Connect(f, t) => AfterConnect(s, f, t)
    case Stop => AfterStop(s)
    case StopFallback => AfterStop(s)
  }

  /** One decision: the bookkeeping, then the effect. */
  function Decide(cfg: Config, s: State, c: Candidate, report: Report): State
    requires Applicable(s, c)
  {
    Effect(cfg, Record(s, c), c, report)
  }

  // ---------------------------------------------------------------- answers from outside

  /** The most recent tool acquisition among the first n actions. */
  function LastToolAction(actions: seq<CandidateId>): Option<CandidateId> {
    if actions == [] then None
    else if actions[|actions| - 1].AcquireToolId? then Some(actions[|actions| - 1])
    else LastToolAction(actions[..|actions| - 1])
  }

  function AddFailed(failedTools: seq<CandidateId>, last: Option<CandidateId>): seq<CandidateId> {
    if last.Some? && last.value !in failedTools then failedTools + [last.value] else failedTools
  }

  /** A tool observation reaches the node that asked, or the root when none did. */
  function AfterToolObservation(s: State, failed: bool): State
    requires |s.nodes| >= 1 && (s.pendingTool.Some? ==> s.pendingTool.value < |s.nodes|)
  {
    var actor := if s.pendingTool.Some? then s.pendingTool.value else 0;
    s.(toolCalls := s.toolCalls + 1,
       nodes := SetStatus(s.nodes, actor, Ready),
       failedTools := if failed then AddFailed(s.failedTools, LastToolAction(s.actions)) else s.failedTools,
       pendingTool := None)
  }

  function Without(used: seq<CandidateId>, removed: seq<CandidateId>): seq<CandidateId> {
    if used == [] then []
    else
      var earlier := Without(used[..|used| - 1], removed);
      if used[|used| - 1] in removed then earlier else earlier + [used[|used| - 1]]
  }

  /** A user's answer also makes tool calls that failed available again. */
  function AfterUserObservation(s: State): State
    requires |s.nodes| >= 1 && (s.pendingUser.Some? ==> s.pendingUser.value < |s.nodes|)
  {
    var actor := if s.pendingUser.Some? then s.pendingUser.value else 0;
    s.(nodes := SetStatus(s.nodes, actor, Ready), pendingUser := None,
       used := if s.failedTools != [] then Without(s.used, s.failedTools) else s.used,
       failedTools := [])
  }

  /** A user message nobody asked for restarts the root with a new objective. */
  function AfterUserMessage(s: State, objective: string): State
    requires |s.nodes| >= 1
  {
    s.(nodes := s.nodes[0 := s.nodes[0].(objective := objective, status := Ready)])
  }

  /** A turn cut short: the final answer is written by the model while a call is left. */
  function AfterTruncation(cfg: Config, s: State, reason: Termination): State {
    s.(llmCalls := if LimitReached(s.llmCalls, cfg.maximumLlmCalls) then s.llmCalls else s.llmCalls + 1,
       termination := Some(reason))
  }

  // ---------------------------------------------------------------- runs

  datatype Event =
    | Decision(choice: Candidate, report: Report)
    | ToolReply(failed: bool)
    | UserReply
    | UserMessage(objective: string)
    | Truncation(reason: Termination)

  predicate Idle(s: State) {
    s.termination.None? && s.pendingTool.None? && s.pendingUser.None?
  }

  /** A decision is taken in a turn that is not cut short, among what is offered and legal.
      The environment answers a tool call with one tool message and a question with one
      user message. */
  ghost predicate Enabled(cfg: Config, s: State, e: Event) {
    match e
    case Decision(c, _) =>
      && Idle(s)
      && !LimitReached(s.decisions, cfg.maximumDecisions)
      && !LimitReached(s.llmCalls, cfg.maximumLlmCalls)
      && Offered(cfg, s, c) && Legal(cfg, s, c)
    case ToolReply(_) => s.termination.None? && s.pendingTool.Some?
    case UserReply => s.termination.None? && s.pendingUser.Some?
    case UserMessage(_) => Idle(s)
    case Truncation(_) => Idle(s)
  }

  predicate PendingInRange(s: State) {
    && (s.pendingTool.Some? ==> s.pendingTool.value < |s.nodes|)
    && (s.pendingUser.Some? ==> s.pendingUser.value < |s.nodes|)
  }

  /** Everything an event refers to exists. */
  predicate Defined(s: State, e: Event) {
    |s.nodes| >= 1 && PendingInRange(s) && (e.Decision? ==> Applicable(s, e.choice))
  }

  function Next(cfg: Config, s: State, e: Event): State
    requires Defined(s, e)
  {
    match e
    case Decision(c, report) => Decide(cfg, s, c, report)
    case ToolReply(failed) => AfterToolObservation(s, failed)
    case UserReply => AfterUserObservation(s)
    case UserMessage(objective) => AfterUserMessage(s, objective)
    case Truncation(reason) => AfterTruncation(cfg, s, reason)
  }

  /** The states visited by a run, the first one being s: one more state than events. */
  ghost predicate IsRun(cfg: Config, states: seq<State>, events: seq<Event>) {
    && |states| == |events| + 1
    && forall k :: 0 <= k < |events| ==> IsStep(cfg, states[k], events[k], states[k + 1])
  }

  ghost predicate IsStep(cfg: Config, s: State, e: Event, s': State) {
    Enabled(cfg, s, e) && (Defined(s, e) ==> s' == Next(cfg, s, e))
  }

  /** A run from the state in which an agent starts. */
  ghost predicate IsRunFromStart(cfg: Config, states: seq<State>, events: seq<Event>) {
    IsRun(cfg, states, events) && exists objective :: states[0] == Initial(objective)
  }
}

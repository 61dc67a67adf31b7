/**
 What the counters and the memory of used candidates amount to over a whole run.
 */
module OrganizationBookkeeping {
  import opened Wrappers
  import opened OrganizationModel
  import opened OrganizationSafety

  // ---------------------------------------------------------------- the counters

  /** The model calls an event makes: one to execute a node, one to fill in the arguments of a
      tool that is not ambiguous, one for the final answer. */
  function CallsOf(cfg: Config, e: Event): nat {
    match e
    case Decision(c, _) =>
      (match c
       case Execute(_) => 1
       case AcquireTool(_, t) => if Occurrences(cfg.tools, t) == 1 then 1 else 0
       case Stop => 1
       case StopFallback => 1
       case _ => 0)
    case Truncation(_) => 1
    case _ => 0
  }

  function Calls(cfg: Config, events: seq<Event>): nat {
    if events == [] then 0 else Calls(cfg, events[..|events| - 1]) + CallsOf(cfg, events[|events| - 1])
  }

  function Decisions(events: seq<Event>): nat {
    if events == [] then 0
    else Decisions(events[..|events| - 1]) + (if events[|events| - 1].Decision? then 1 else 0)
  }

  function ToolReplies(events: seq<Event>): nat {
    if events == [] then 0
    else ToolReplies(events[..|events| - 1]) + (if events[|events| - 1].ToolReply? then 1 else 0)
  }

  lemma {:induction false} OccursIff(tools: seq<string>, tool: string)
    ensures Occurrences(tools, tool) == 0 <==> tool !in tools
  {
    if tools != [] {
      OccursIff(tools[..|tools| - 1], tool);
      assert tools == tools[..|tools| - 1] + [tools[|tools| - 1]];
    }
  }

  predicate OnlyAt(tools: seq<string>, tool: string, i: nat) {
    i < |tools| && tools[i] == tool && forall j :: 0 <= j < |tools| && j != i ==> tools[j] != tool
  }

  /** Exactly one tool carries the name. */
  lemma {:induction false} OccursOnceIff(tools: seq<string>, tool: string)
    ensures Occurrences(tools, tool) == 1 <==> exists i :: 0 <= i < |tools| && OnlyAt(tools, tool, i)
  {
    if tools != [] {
      var n := |tools| - 1;
      OccursOnceIff(tools[..n], tool);
      OccursIff(tools[..n], tool);
      if i :| 0 <= i < n && OnlyAt(tools[..n], tool, i) {
        if tools[n] != tool { assert OnlyAt(tools, tool, i); }
      }
      if tools[n] == tool && tool !in tools[..n] {
        forall j | 0 <= j < n ensures tools[j] != tool { assert tools[..n][j] != tool; }
        assert OnlyAt(tools, tool, n);
      }
      if i :| 0 <= i < |tools| && OnlyAt(tools, tool, i) {
        if i < n { assert OnlyAt(tools[..n], tool, i); }
      }
    }
  }

  lemma StepCounts(cfg: Config, s: State, e: Event)
    requires Inv(cfg, s) && Enabled(cfg, s, e) && Defined(s, e)
    ensures Next(cfg, s, e).llmCalls == s.llmCalls + CallsOf(cfg, e)
    ensures Next(cfg, s, e).toolCalls == s.toolCalls + (if e.ToolReply? then 1 else 0)
    ensures Next(cfg, s, e).decisions == s.decisions + (if e.Decision? then 1 else 0)
  {
    hide TreeShaped, FinishedBelow, GateHolds, CommunicationForest, DerivationsMatch, KeysMatch, WithinCeilings;
  }

  lemma {:induction false} CountersAgree(cfg: Config, states: seq<State>, events: seq<Event>, k: nat)
    requires cfg.Valid() && IsRunFromStart(cfg, states, events) && k < |states|
    ensures states[k].llmCalls == Calls(cfg, events[..k])
    ensures states[k].toolCalls == ToolReplies(events[..k])
    ensures states[k].decisions == Decisions(events[..k])
    decreases k
  {
    if k == 0 {
      var objective :| states[0] == Initial(objective);
    } else {
      hide Inv, Next, CallsOf;
      CountersAgree(cfg, states, events, k - 1);
      EveryRunIsSafe(cfg, states, events, k - 1);
      assert IsStep(cfg, states[k - 1], events[k - 1], states[k]);
      StepCounts(cfg, states[k - 1], events[k - 1]);
      assert events[..k][..k - 1] == events[..k - 1];
    }
  }

  /** The counters count: at each moment of each run they equal the number of model calls, of
      tool answers and of decisions so far, so these numbers never exceed their limits. */
  lemma CountersCount(cfg: Config, states: seq<State>, events: seq<Event>, k: nat)
    requires cfg.Valid() && IsRunFromStart(cfg, states, events) && k < |states|
    ensures states[k].llmCalls == Calls(cfg, events[..k])
    ensures states[k].toolCalls == ToolReplies(events[..k])
    ensures states[k].decisions == Decisions(events[..k])
    ensures cfg.maximumLlmCalls.Some? ==> Calls(cfg, events[..k]) <= cfg.maximumLlmCalls.value
    ensures cfg.maximumToolCalls.Some? ==> ToolReplies(events[..k]) <= cfg.maximumToolCalls.value
    ensures cfg.maximumDecisions.Some? ==> Decisions(events[..k]) <= cfg.maximumDecisions.value
  {
    EveryRunIsSafe(cfg, states, events, k);
    CountersAgree(cfg, states, events, k);
    assert WithinBudgets(cfg, states[k]);
  }

  // ---------------------------------------------------------------- candidates chosen before

  predicate Within(inner: seq<CandidateId>, outer: seq<CandidateId>) {
    forall id :: id in inner ==> id in outer
  }

  /** Only tool acquisitions are remembered as failed, each of them is still used, and the
      acquisition that is outstanding is the last one and is used. */
  predicate MemorySound(s: State) {
    && Within(s.failedTools, s.used)
    && (forall id :: id in s.failedTools ==> id.AcquireToolId?)
    && (s.pendingTool.Some? ==> LastToolAction(s.actions).Some? && LastToolAction(s.actions).value in s.used)
  }

  lemma {:induction false} WithoutKeeps(used: seq<CandidateId>, removed: seq<CandidateId>, id: CandidateId)
    ensures id in Without(used, removed) <==> id in used && id !in removed
  {
    if used != [] {
      assert used == used[..|used| - 1] + [used[|used| - 1]];
      WithoutKeeps(used[..|used| - 1], removed, id);
    }
  }

  lemma {:induction false} LastIsATool(actions: seq<CandidateId>)
    ensures LastToolAction(actions).Some? ==> LastToolAction(actions).value.AcquireToolId?
  {
    if actions != [] { LastIsATool(actions[..|actions| - 1]); }
  }

  lemma ChoiceKeepsMemory(s: State, s': State, id: CandidateId)
    requires MemorySound(s)
    requires s'.used == s.used + [id] && s'.actions == s.actions + [id] && s'.failedTools == s.failedTools
    requires s'.pendingTool.Some? ==> id.AcquireToolId?
    ensures MemorySound(s')
  {
  }

  lemma StepKeepsMemory(cfg: Config, s: State, e: Event)
    requires Inv(cfg, s) && MemorySound(s) && Enabled(cfg, s, e) && Defined(s, e)
    ensures MemorySound(Next(cfg, s, e))
  {
    hide TreeShaped, FinishedBelow, GateHolds, CommunicationForest, DerivationsMatch, KeysMatch, WithinCeilings,
         WithinBudgets;
    LastIsATool(s.actions);
    match e
    case Decision(c, _) =>
      hide MemorySound;
      ChoiceKeepsMemory(s, Next(cfg, s, e), IdOf(s, c));
    case _ =>
  }

  lemma {:induction false} MemoryStaysSound(cfg: Config, states: seq<State>, events: seq<Event>, k: nat)
    requires cfg.Valid() && IsRunFromStart(cfg, states, events) && k < |states|
    ensures MemorySound(states[k])
    decreases k
  {
    if k > 0 {
      MemoryStaysSound(cfg, states, events, k - 1);
      EveryRunIsSafe(cfg, states, events, k - 1);
      assert IsStep(cfg, states[k - 1], events[k - 1], states[k]);
      StepKeepsMemory(cfg, states[k - 1], events[k - 1]);
    }
  }

  /** At step m the tool call remembered as id came back as a failure, and at the later step n
      the user answered. */
  predicate FailedThenAnswered(states: seq<State>, events: seq<Event>, id: CandidateId, m: nat, n: nat) {
    Failed(states, events, id, m) && m < n < |events| && events[n].UserReply?
  }

  predicate Failed(states: seq<State>, events: seq<Event>, id: CandidateId, m: nat) {
    m < |events| && m < |states| && events[m] == ToolReply(true) && LastToolAction(states[m].actions) == Some(id)
  }

  /** Between steps i and k the used candidate id was forgotten only for the one reason. */
  ghost predicate ForgottenForCause(states: seq<State>, events: seq<Event>, id: CandidateId, i: nat, k: nat) {
    exists m: nat, n: nat :: i < m && n < k && FailedThenAnswered(states, events, id, m, n)
  }

  ghost predicate Remembered(states: seq<State>, events: seq<Event>, id: CandidateId, i: nat, k: nat)
    requires k < |states|
  {
    && id in states[k].used
    && (id in states[k].failedTools ==> exists m: nat :: i < m < k && Failed(states, events, id, m))
  }

  lemma StepRemembers(cfg: Config, states: seq<State>, events: seq<Event>, id: CandidateId, i: nat, k: nat)
    requires cfg.Valid() && IsRunFromStart(cfg, states, events) && i < k < |events|
    requires Remembered(states, events, id, i, k)
    ensures Remembered(states, events, id, i, k + 1) || ForgottenForCause(states, events, id, i, k + 1)
  {
    EveryRunIsSafe(cfg, states, events, k);
    var s, e := states[k], events[k];
    assert IsStep(cfg, s, e, states[k + 1]);
    match e
    case ToolReply(failed) =>
      if id in states[k + 1].failedTools && id !in s.failedTools {
        assert Failed(states, events, id, k);
      }
    case UserReply =>
      WithoutKeeps(s.used, s.failedTools, id);
      if id in s.failedTools {
        var m: nat :| i < m < k && Failed(states, events, id, m);
        assert FailedThenAnswered(states, events, id, m, k);
      }
    case _ =>
  }

  lemma {:induction false} ChosenIsRemembered(cfg: Config, states: seq<State>, events: seq<Event>,
                                             id: CandidateId, i: nat, k: nat)
    requires cfg.Valid() && IsRunFromStart(cfg, states, events) && i < k < |states|
    requires states[i + 1].used != [] && states[i + 1].used[|states[i + 1].used| - 1] == id
    requires id !in states[i + 1].failedTools
    ensures Remembered(states, events, id, i, k) || ForgottenForCause(states, events, id, i, k)
    decreases k
  {
    if k > i + 1 {
      ChosenIsRemembered(cfg, states, events, id, i, k - 1);
      if Remembered(states, events, id, i, k - 1) {
        StepRemembers(cfg, states, events, id, i, k - 1);
      } else {
        var m: nat, n: nat :| i < m && n < k - 1 && FailedThenAnswered(states, events, id, m, n);
        assert FailedThenAnswered(states, events, id, m, n);
      }
    }
  }

  /** When the same candidate is chosen twice, it is a tool call that came back as a failure
      after the first time, with an answer of the user before the second.  So no question is
      asked twice, no report is shared twice with the same node and nothing is pruned twice. */
  lemma ChosenTwiceOnlyAfterFailure(cfg: Config, states: seq<State>, events: seq<Event>, i: nat, j: nat)
    requires cfg.Valid() && IsRunFromStart(cfg, states, events) && i < j < |events|
    requires events[i].Decision? && events[j].Decision? && events[i].choice == events[j].choice
    requires var c := events[i].choice; c.AcquireUser? || c.AcquireTool? || c.Connect? || c.Prune?
    ensures events[i].choice.AcquireTool?
    ensures exists m: nat, n: nat :: i < m < n < j && events[m] == ToolReply(true) && events[n].UserReply?
              && LastToolAction(states[m].actions)
                 == Some(AcquireToolId(events[i].choice.actor, events[i].choice.tool))
  {
    var c := events[i].choice;
    EveryRunIsSafe(cfg, states, events, i);
    EveryRunIsSafe(cfg, states, events, j);
    MemoryStaysSound(cfg, states, events, i);
    assert IsStep(cfg, states[i], events[i], states[i + 1]);
    assert IsStep(cfg, states[j], events[j], states[j + 1]);
    var id := IdOf(states[i], c);
    assert states[i + 1].used == states[i].used + [id];
    assert id !in states[i].failedTools;
    ChosenIsRemembered(cfg, states, events, id, i, j);
    var m: nat, n: nat :| i < m && n < j && FailedThenAnswered(states, events, id, m, n);
    MemoryStaysSound(cfg, states, events, m);
    LastIsATool(states[m].actions);
  }

  lemma StepKeepsFailure(cfg: Config, s: State, e: Event, id: CandidateId)
    requires Inv(cfg, s) && Enabled(cfg, s, e) && Defined(s, e) && id in s.failedTools && !e.UserReply?
    ensures id in Next(cfg, s, e).failedTools
  {
  }

  lemma {:induction false} FailureIsHeld(cfg: Config, states: seq<State>, events: seq<Event>,
                                        id: CandidateId, m: nat, k: nat)
    requires cfg.Valid() && IsRunFromStart(cfg, states, events) && m < k < |states| && Failed(states, events, id, m)
    requires forall n :: m < n < k ==> !events[n].UserReply?
    ensures id in states[k].failedTools
    decreases k
  {
    EveryRunIsSafe(cfg, states, events, k - 1);
    assert IsStep(cfg, states[k - 1], events[k - 1], states[k]);
    if k > m + 1 {
      FailureIsHeld(cfg, states, events, id, m, k - 1);
      StepKeepsFailure(cfg, states[k - 1], events[k - 1], id);
    }
  }

  /** The next answer of the user makes a failed tool call available again. */
  lemma AnswerForgivesFailure(cfg: Config, states: seq<State>, events: seq<Event>, m: nat, n: nat)
    requires cfg.Valid() && IsRunFromStart(cfg, states, events) && m < n < |events|
    requires events[m] == ToolReply(true) && events[n].UserReply?
    requires forall l :: m < l < n ==> !events[l].UserReply?
    ensures LastToolAction(states[m].actions).Some?
    ensures LastToolAction(states[m].actions).value in states[m].used
    ensures LastToolAction(states[m].actions).value !in states[n + 1].used
  {
    MemoryStaysSound(cfg, states, events, m);
    EveryRunIsSafe(cfg, states, events, n);
    assert IsStep(cfg, states[m], events[m], states[m + 1]);
    assert IsStep(cfg, states[n], events[n], states[n + 1]);
    var id := LastToolAction(states[m].actions).value;
    FailureIsHeld(cfg, states, events, id, m, n);
    WithoutKeeps(states[n].used, states[n].failedTools, id);
  }

  // ---------------------------------------------------------------- reports are up to date

  /** What gives node t something new to consider: a report shared with it, the return of one
      of its children, the answer to its own acquisition, a new message for the root. */
  predicate News(s: State, e: Event, t: NodeId) {
    match e
    case Decision(c, _) =>
      || (c.Connect? && c.destination == t)
      || (c.Return? && c.actor < |s.nodes| && s.nodes[c.actor].parent == Some(t))
    case ToolReply(_) => s.pendingTool == Some(t)
    case UserReply => s.pendingUser == Some(t)
    case UserMessage(_) => t == 0
    case Truncation(_) => false
  }

  predicate Executes(e: Event, t: NodeId) {
    e.Decision? && e.choice == Execute(t)
  }

  lemma ReturnReportsNobody(s: State, a: NodeId, t: NodeId)
    requires TreeShaped(s.nodes) && 1 <= a < |s.nodes| && t < |s.nodes|
    requires s.nodes[a].parent.Some? && s.nodes[a].parent.value < |s.nodes|
    ensures AfterReturn(s, a).nodes[t].status == Reported ==>
              s.nodes[t].status == Reported && s.nodes[a].parent != Some(t)
  {
    ReturnedStatuses(s.nodes, s.dependencies, a);
    assert AfterReturn(s, a).nodes[t].status == StatusAfterReturn(s.nodes, s.dependencies, a, t);
  }

  /** A node is reported after a step only if it executed or was reported and heard nothing. */
  lemma ReportedOnlyByExecuting(cfg: Config, s: State, e: Event, t: NodeId)
    requires Inv(cfg, s) && Enabled(cfg, s, e) && Defined(s, e) && t < |Next(cfg, s, e).nodes|
    requires Next(cfg, s, e).nodes[t].status == Reported && !Executes(e, t)
    ensures StatusIs(s, t, Reported) && !News(s, e, t)
  {
    if e.Decision? && e.choice.Return? {
      var r := Record(s, e.choice);
      assert Next(cfg, s, e) == AfterReturn(r, e.choice.actor);
      assert HasParent(s.nodes, e.choice.actor);
      ReturnReportsNobody(r, e.choice.actor, t);
    } else if e.Decision? && e.choice.Derive? {
      assert t < |s.nodes|;
    }
  }

  lemma {:induction false} SilentSince(cfg: Config, states: seq<State>, events: seq<Event>, i: nat, k: nat, t: NodeId)
    requires cfg.Valid() && IsRunFromStart(cfg, states, events) && i < k < |states|
    requires StatusIs(states[k], t, Reported)
    requires forall j :: i < j < k ==> !Executes(events[j], t)
    ensures Executes(events[i], t) || !News(states[i], events[i], t)
    decreases k
  {
    EveryRunIsSafe(cfg, states, events, k - 1);
    assert IsStep(cfg, states[k - 1], events[k - 1], states[k]);
    if !Executes(events[k - 1], t) {
      ReportedOnlyByExecuting(cfg, states[k - 1], events[k - 1], t);
      if k > i + 1 { SilentSince(cfg, states, events, i, k - 1, t); }
    }
  }

  /** A standing report is never out of date: whatever news its node received at step i, the
      node has executed since.  So no parent returns or derives on a report written before
      one of its children returned, and none before a report was shared with it. */
  lemma ReportsAreUpToDate(cfg: Config, states: seq<State>, events: seq<Event>, i: nat, k: nat, t: NodeId)
    requires cfg.Valid() && IsRunFromStart(cfg, states, events) && i < k < |states|
    requires News(states[i], events[i], t) && StatusIs(states[k], t, Reported)
    ensures exists j :: i < j < k && Executes(events[j], t)
  {
    if forall j :: i < j < k ==> !Executes(events[j], t) {
      SilentSince(cfg, states, events, i, k, t);
    }
  }

  lemma ReportsComeFromExecuting(cfg: Config, s: State, e: Event, t: NodeId)
    requires Inv(cfg, s) && Enabled(cfg, s, e) && Defined(s, e) && t < |Next(cfg, s, e).nodes|
    ensures Next(cfg, s, e).nodes[t].report
            == if Executes(e, t) then Some(e.report) else if t < |s.nodes| then s.nodes[t].report else None
  {
    if e.Decision? && e.choice.Return? {
      assert HasParent(s.nodes, e.choice.actor);
      ReturnedStatuses(s.nodes, s.dependencies, e.choice.actor);
    }
  }

  predicate LatestReport(events: seq<Event>, k: nat, t: NodeId, j: nat, report: Report) {
    && j < k <= |events| && Executes(events[j], t) && events[j].report == report
    && forall l :: j < l < k ==> !Executes(events[l], t)
  }

  /** What a node reports is what the model answered when the node last executed, and a
      reported node has executed. */
  lemma {:induction false} ReportIsTheLatest(cfg: Config, states: seq<State>, events: seq<Event>, k: nat, t: NodeId)
    requires cfg.Valid() && IsRunFromStart(cfg, states, events) && k < |states| && t < |states[k].nodes|
    ensures states[k].nodes[t].report.Some? ==>
              exists j :: 0 <= j < k && LatestReport(events, k, t, j, states[k].nodes[t].report.value)
    ensures states[k].nodes[t].report.None? ==> forall j :: 0 <= j < k ==> !Executes(events[j], t)
    ensures states[k].nodes[t].status == Reported ==> states[k].nodes[t].report.Some?
    decreases k
  {
    if k == 0 {
      var objective :| states[0] == Initial(objective);
    } else {
      hide Inv, Next, Enabled, Executes;
      EveryRunIsSafe(cfg, states, events, k - 1);
      var s, e := states[k - 1], events[k - 1];
      assert IsStep(cfg, s, e, states[k]);
      ReportsComeFromExecuting(cfg, s, e, t);
      if t < |s.nodes| {
        ReportIsTheLatest(cfg, states, events, k - 1, t);
      } else {
        NobodyExecutesUnborn(cfg, states, events, k, t);
      }
      if Executes(e, t) {
        assert LatestReport(events, k, t, k - 1, e.report);
      } else {
        if states[k].nodes[t].status == Reported { ReportedOnlyByExecuting(cfg, s, e, t); }
        if states[k].nodes[t].report.Some? {
          var j :| 0 <= j < k - 1 && LatestReport(events, k - 1, t, j, s.nodes[t].report.value);
          assert LatestReport(events, k, t, j, s.nodes[t].report.value);
        }
      }
    }
  }

  lemma ObjectiveStays(cfg: Config, s: State, e: Event)
    requires Inv(cfg, s) && Enabled(cfg, s, e) && Defined(s, e)
    ensures |Next(cfg, s, e).nodes| >= 1
    ensures Next(cfg, s, e).nodes[0].objective == if e.UserMessage? then e.objective else s.nodes[0].objective
  {
    if e.Decision? && e.choice.Return? {
      assert HasParent(s.nodes, e.choice.actor);
      ReturnedStatuses(s.nodes, s.dependencies, e.choice.actor);
    }
  }

  /** The root pursues what the user last said without having been asked, or else the objective
      it started with. */
  lemma {:induction false} RootPursuesTheLatest(cfg: Config, states: seq<State>, events: seq<Event>, k: nat)
    requires cfg.Valid() && IsRunFromStart(cfg, states, events) && k < |states|
    ensures |states[k].nodes| >= 1 && states[0] == Initial(states[0].nodes[0].objective)
    ensures forall j :: 0 <= j < k && events[j].UserMessage? && (forall l :: j < l < k ==> !events[l].UserMessage?) ==>
              states[k].nodes[0].objective == events[j].objective
    ensures (forall j :: 0 <= j < k ==> !events[j].UserMessage?) ==>
              states[k].nodes[0].objective == states[0].nodes[0].objective
    decreases k
  {
    if k == 0 {
      var objective :| states[0] == Initial(objective);
    } else {
      hide Inv, Next, Enabled;
      RootPursuesTheLatest(cfg, states, events, k - 1);
      EveryRunIsSafe(cfg, states, events, k - 1);
      assert IsStep(cfg, states[k - 1], events[k - 1], states[k]);
      ObjectiveStays(cfg, states[k - 1], events[k - 1]);
    }
  }

  lemma NodesStay(cfg: Config, s: State, e: Event)
    requires Inv(cfg, s) && Enabled(cfg, s, e) && Defined(s, e)
    ensures |s.nodes| <= |Next(cfg, s, e).nodes|
    ensures forall t: nat :: Executes(e, t) ==> t < |s.nodes|
  {
    hide FinishedBelow, GateHolds, CommunicationForest, DerivationsMatch, KeysMatch, WithinCeilings, WithinBudgets;
  }

  lemma {:induction false} NobodyExecutesUnborn(cfg: Config, states: seq<State>, events: seq<Event>, k: nat, t: NodeId)
    requires cfg.Valid() && IsRunFromStart(cfg, states, events) && 0 < k < |states| && t >= |states[k - 1].nodes|
    ensures forall j :: 0 <= j < k ==> !Executes(events[j], t)
    decreases k
  {
    hide Inv, Next, Enabled, Executes;
    EveryRunIsSafe(cfg, states, events, k - 1);
    assert IsStep(cfg, states[k - 1], events[k - 1], states[k]);
    NodesStay(cfg, states[k - 1], events[k - 1]);
    if k > 1 {
      EveryRunIsSafe(cfg, states, events, k - 2);
      assert IsStep(cfg, states[k - 2], events[k - 2], states[k - 1]);
      NodesStay(cfg, states[k - 2], events[k - 2]);
      NobodyExecutesUnborn(cfg, states, events, k - 1, t);
    }
  }

  // ---------------------------------------------------------------- proposals and their nodes

  /** In state s the event derives, for node a, the proposal named p. */
  predicate DerivesProposal(s: State, e: Event, a: NodeId, p: Identifier) {
    && e.Decision? && e.choice.Derive? && e.choice.actor == a && HasSpec(s, a, e.choice.index)
    && s.nodes[a].report.value.children[e.choice.index].proposal == Some(p)
  }

  ghost predicate LatestProposal(states: seq<State>, events: seq<Event>, k: nat, a: NodeId, p: Identifier, j: nat) {
    && j < k <= |events| && |states| == |events| + 1
    && DerivesProposal(states[j], events[j], a, p)
    && forall l :: j < l < k ==> !DerivesProposal(states[l], events[l], a, p)
  }

  lemma StepAliases(cfg: Config, s: State, e: Event, a: NodeId, p: Identifier)
    requires Inv(cfg, s) && Enabled(cfg, s, e) && Defined(s, e)
    ensures DerivesProposal(s, e, a, p) ==>
              (a, p) in Next(cfg, s, e).aliases && Next(cfg, s, e).aliases[(a, p)] == |s.nodes|
    ensures !DerivesProposal(s, e, a, p) ==>
              && ((a, p) in Next(cfg, s, e).aliases <==> (a, p) in s.aliases)
              && ((a, p) in s.aliases ==> Next(cfg, s, e).aliases[(a, p)] == s.aliases[(a, p)])
  {
  }

  /** The alias table holds, for the proposal, the node last derived from it. */
  ghost predicate AliasRight(states: seq<State>, events: seq<Event>, k: nat, a: NodeId, p: Identifier)
    requires k <= |events| && |states| == |events| + 1
  {
    if (a, p) in states[k].aliases then
      exists j :: 0 <= j < k
                  && LatestProposal(states, events, k, a, p, j) && states[k].aliases[(a, p)] == |states[j].nodes|
    else
      forall j :: 0 <= j < k ==> !DerivesProposal(states[j], events[j], a, p)
  }

  lemma AliasStaysRight(states: seq<State>, events: seq<Event>, k: nat, a: NodeId, p: Identifier)
    requires k < |events| && |states| == |events| + 1 && AliasRight(states, events, k, a, p)
    requires DerivesProposal(states[k], events[k], a, p) ==>
               (a, p) in states[k + 1].aliases && states[k + 1].aliases[(a, p)] == |states[k].nodes|
    requires !DerivesProposal(states[k], events[k], a, p) ==>
               && ((a, p) in states[k + 1].aliases <==> (a, p) in states[k].aliases)
               && ((a, p) in states[k].aliases ==> states[k + 1].aliases[(a, p)] == states[k].aliases[(a, p)])
    ensures AliasRight(states, events, k + 1, a, p)
  {
  }

  lemma {:induction false} AliasesFollowDerivations(cfg: Config, states: seq<State>, events: seq<Event>,
                                                    k: nat, a: NodeId, p: Identifier)
    requires cfg.Valid() && IsRunFromStart(cfg, states, events) && k < |states|
    ensures AliasRight(states, events, k, a, p)
    decreases k
  {
    if k == 0 {
      var objective :| states[0] == Initial(objective);
    } else {
      AliasesFollowDerivations(cfg, states, events, k - 1, a, p);
      EveryRunIsSafe(cfg, states, events, k - 1);
      hide Inv, Next, DerivesProposal, AliasRight;
      assert IsStep(cfg, states[k - 1], events[k - 1], states[k]);
      StepAliases(cfg, states[k - 1], events[k - 1], a, p);
      AliasStaysRight(states, events, k - 1, a, p);
    }
  }

  /** When a child of a names the proposal p as a dependency, it waits for the node that a
      last derived from that proposal; a name that a never derived stands for nothing. */
  lemma ProposalsNameTheirNodes(cfg: Config, states: seq<State>, events: seq<Event>, k: nat, a: NodeId, p: Identifier)
    requires cfg.Valid() && IsRunFromStart(cfg, states, events) && k < |states| && p.Alias?
    ensures Known(states[k], a, p) ==>
              exists j :: 0 <= j < k && LatestProposal(states, events, k, a, p, j)
                && Lookup(states[k], a, p) == Some(|states[j].nodes|)
    ensures !Known(states[k], a, p) ==> forall j :: 0 <= j < k ==> !DerivesProposal(states[j], events[j], a, p)
  {
    hide DerivesProposal, LatestProposal;
    AliasesFollowDerivations(cfg, states, events, k, a, p);
  }
}

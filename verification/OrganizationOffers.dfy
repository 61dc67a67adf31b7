/**
 What is on offer at each moment of a run, said from statuses, reports and the events so far
 instead of the agent's own memory of used candidates and recorded edges.
 */
module OrganizationOffers {
  import opened Wrappers
  import opened OrganizationModel
  import opened OrganizationSafety
  import opened OrganizationBookkeeping

  predicate Chose(e: Event, c: Candidate) { e.Decision? && e.choice == c }

  ghost predicate ChosenBefore(events: seq<Event>, k: nat, c: Candidate)
    requires k <= |events|
  {
    exists j :: 0 <= j < k && Chose(events[j], c)
  }

  /** Candidates that are remembered as used by what they name alone. */
  predicate OnceOnly(c: Candidate) { c.AcquireUser? || c.Connect? || c.Prune? }

  /** An acquisition with a tool comes back when it failed and the user has answered since. */
  predicate Reusable(c: Candidate) { OnceOnly(c) || c.AcquireTool? }

  function Mark(c: Candidate): CandidateId
    requires Reusable(c)
  {
    match c
    case AcquireUser(a, g) => AcquireUserId(a, g)
    case Connect(f, t) => ConnectId(f, t)
    case Prune(t) => PruneId(t)
    case AcquireTool(a, t) => AcquireToolId(a, t)
  }

  lemma NothingHasHappened(cfg: Config, states: seq<State>, events: seq<Event>)
    requires IsRunFromStart(cfg, states, events)
    ensures states[0].used == states[0].actions == [] && states[0].communications == []
  {
  }

  lemma StepMarks(cfg: Config, s: State, e: Event, c: Candidate)
    requires Inv(cfg, s) && MemorySound(s) && Enabled(cfg, s, e) && Defined(s, e) && Reusable(c)
    ensures Mark(c) in Next(cfg, s, e).used ==> Mark(c) in s.used || Chose(e, c)
    ensures Chose(e, c) ==> Mark(c) in Next(cfg, s, e).used && Mark(c) !in s.used
    ensures Mark(c) in s.used && (OnceOnly(c) || !e.UserReply?) ==> Mark(c) in Next(cfg, s, e).used
  {
    hide TreeShaped, FinishedBelow, GateHolds, CommunicationForest, DerivationsMatch, KeysMatch, WithinCeilings,
         WithinBudgets;
    if e.UserReply? { WithoutKeeps(s.used, s.failedTools, Mark(c)); }
  }

  lemma {:induction false} UsedIff(cfg: Config, states: seq<State>, events: seq<Event>, k: nat, c: Candidate)
    requires cfg.Valid() && IsRunFromStart(cfg, states, events) && k < |states| && Reusable(c)
    ensures Mark(c) in states[k].used ==> ChosenBefore(events, k, c)
    ensures OnceOnly(c) && ChosenBefore(events, k, c) ==> Mark(c) in states[k].used
    decreases k
  {
    hide Inv, Next, Enabled, Mark, MemorySound;
    if k == 0 {
      NothingHasHappened(cfg, states, events);
    } else {
      UsedIff(cfg, states, events, k - 1, c);
      EveryRunIsSafe(cfg, states, events, k - 1);
      MemoryStaysSound(cfg, states, events, k - 1);
      assert IsStep(cfg, states[k - 1], events[k - 1], states[k]);
      StepMarks(cfg, states[k - 1], events[k - 1], c);
    }
  }

  /** The tool was called and has not since failed and been forgiven. */
  ghost predicate StillUsed(states: seq<State>, events: seq<Event>, k: nat, c: Candidate)
    requires k < |states| && k <= |events| && c.AcquireTool?
  {
    exists j :: 0 <= j < k && Chose(events[j], c) && !ForgottenForCause(states, events, Mark(c), j, k)
  }

  lemma ForgivenIsUnused(cfg: Config, states: seq<State>, events: seq<Event>, k: nat, id: CandidateId, m: nat)
    requires cfg.Valid() && IsRunFromStart(cfg, states, events) && m < k < |events| && events[k].UserReply?
    requires Failed(states, events, id, m) && forall n :: m < n < k ==> !events[n].UserReply?
    ensures id !in states[k + 1].used
  {
    FailureIsHeld(cfg, states, events, id, m, k);
    EveryRunIsSafe(cfg, states, events, k);
    assert IsStep(cfg, states[k], events[k], states[k + 1]);
    WithoutKeeps(states[k].used, states[k].failedTools, id);
  }

  lemma {:induction false} UsedToolsAreStillUsed(cfg: Config, states: seq<State>, events: seq<Event>, k: nat,
                                                 c: Candidate)
    requires cfg.Valid() && IsRunFromStart(cfg, states, events) && k < |states| && c.AcquireTool?
    requires Mark(c) in states[k].used
    ensures StillUsed(states, events, k, c)
    decreases k
  {
    hide Inv, Next, Enabled, MemorySound, Failed;
    var id := Mark(c);
    if k == 0 {
      assert false;
    } else {
      EveryRunIsSafe(cfg, states, events, k - 1);
      MemoryStaysSound(cfg, states, events, k - 1);
      assert IsStep(cfg, states[k - 1], events[k - 1], states[k]);
      StepMarks(cfg, states[k - 1], events[k - 1], c);
      if !Chose(events[k - 1], c) {
        UsedToolsAreStillUsed(cfg, states, events, k - 1, c);
        var j :| 0 <= j < k - 1 && Chose(events[j], c) && !ForgottenForCause(states, events, id, j, k - 1);
        if m: nat, n: nat :| j < m && n < k && FailedThenAnswered(states, events, id, m, n) {
          assert n == k - 1;
          forall l | m < l < k - 1 ensures !events[l].UserReply? {
            assert !FailedThenAnswered(states, events, id, m, l);
          }
          ForgivenIsUnused(cfg, states, events, k - 1, id, m);
        }
      } else {
        assert !ForgottenForCause(states, events, id, k - 1, k);
      }
    }
  }

  lemma StillUsedAreUsed(cfg: Config, states: seq<State>, events: seq<Event>, k: nat, c: Candidate)
    requires cfg.Valid() && IsRunFromStart(cfg, states, events) && k < |states| && c.AcquireTool?
    requires StillUsed(states, events, k, c)
    ensures Mark(c) in states[k].used
  {
    var j :| 0 <= j < k && Chose(events[j], c) && !ForgottenForCause(states, events, Mark(c), j, k);
    EveryRunIsSafe(cfg, states, events, j);
    MemoryStaysSound(cfg, states, events, j);
    assert IsStep(cfg, states[j], events[j], states[j + 1]);
    assert states[j + 1].used == states[j].used + [Mark(c)];
    ChosenIsRemembered(cfg, states, events, Mark(c), j, k);
  }

  // ---------------------------------------------------------------- the call an answer belongs to

  lemma StepActs(cfg: Config, s: State, e: Event)
    requires Inv(cfg, s) && Enabled(cfg, s, e) && Defined(s, e)
    ensures Next(cfg, s, e).actions == s.actions + if e.Decision? then [IdOf(s, e.choice)] else []
    ensures e.Decision? ==>
              (IdOf(s, e.choice).AcquireToolId? <==> e.choice.AcquireTool?)
              && (e.choice.AcquireTool? ==> IdOf(s, e.choice) == AcquireToolId(e.choice.actor, e.choice.tool))
  {
    hide TreeShaped, FinishedBelow, GateHolds, CommunicationForest, DerivationsMatch, KeysMatch, WithinCeilings,
         WithinBudgets, PendingMatches;
  }

  predicate CallsTool(e: Event) { e.Decision? && e.choice.AcquireTool? }

  /** The last tool call before step k was made at step j. */
  predicate LastCallAt(events: seq<Event>, k: nat, j: nat)
    requires k <= |events|
  {
    j < k && CallsTool(events[j]) && forall l :: j < l < k ==> !CallsTool(events[l])
  }

  lemma StepCalls(cfg: Config, s: State, e: Event)
    requires Inv(cfg, s) && Enabled(cfg, s, e) && Defined(s, e)
    ensures LastToolAction(Next(cfg, s, e).actions) ==
            if CallsTool(e) then Some(AcquireToolId(e.choice.actor, e.choice.tool)) else LastToolAction(s.actions)
  {
    hide Inv, Next, Enabled;
    StepActs(cfg, s, e);
    var after := Next(cfg, s, e).actions;
    if e.Decision? { assert after[..|after| - 1] == s.actions; } else { assert after == s.actions; }
  }

  ghost predicate LastCallIs(events: seq<Event>, k: nat, found: Option<CandidateId>)
    requires k <= |events|
  {
    match found
    case None => forall j :: 0 <= j < k ==> !CallsTool(events[j])
    case Some(id) =>
      exists j :: 0 <= j < k && LastCallAt(events, k, j)
                  && id == AcquireToolId(events[j].choice.actor, events[j].choice.tool)
  }

  lemma NoCallYet(events: seq<Event>)
    ensures LastCallIs(events, 0, LastToolAction([]))
  {
  }

  lemma LastCallMoves(events: seq<Event>, k: nat, found: Option<CandidateId>)
    requires k < |events| && LastCallIs(events, k, found)
    ensures LastCallIs(events, k + 1,
                       if CallsTool(events[k]) then Some(AcquireToolId(events[k].choice.actor, events[k].choice.tool))
                       else found)
  {
    if CallsTool(events[k]) {
      assert LastCallAt(events, k + 1, k);
    } else if found.Some? {
      var j :| 0 <= j < k && LastCallAt(events, k, j)
        && found.value == AcquireToolId(events[j].choice.actor, events[j].choice.tool);
      assert LastCallAt(events, k + 1, j);
    }
  }

  /** The call that a failing answer is remembered for is the last tool call of the run. */
  lemma {:induction false} LastToolIsLatest(cfg: Config, states: seq<State>, events: seq<Event>, k: nat)
    requires cfg.Valid() && IsRunFromStart(cfg, states, events) && k < |states|
    ensures LastCallIs(events, k, LastToolAction(states[k].actions))
    decreases k
  {
    hide Inv, Next, Enabled, CallsTool, LastToolAction, LastCallIs;
    if k == 0 {
      NothingHasHappened(cfg, states, events);
      NoCallYet(events);
    } else {
      LastToolIsLatest(cfg, states, events, k - 1);
      EveryRunIsSafe(cfg, states, events, k - 1);
      assert IsStep(cfg, states[k - 1], events[k - 1], states[k]);
      StepCalls(cfg, states[k - 1], events[k - 1]);
      LastCallMoves(events, k - 1, LastToolAction(states[k - 1].actions));
    }
  }

  // ---------------------------------------------------------------- reports that were shared

  predicate SharesWith(e: Event, t: NodeId) {
    e.Decision? && e.choice.Connect? && e.choice.destination == t
  }

  ghost predicate SharedBefore(events: seq<Event>, k: nat, t: NodeId)
    requires k <= |events|
  {
    exists j :: 0 <= j < k && SharesWith(events[j], t)
  }

  predicate HasEdgeTo(edges: seq<Edge>, t: NodeId) {
    exists i :: 0 <= i < |edges| && edges[i].target == t
  }

  lemma StepShares(cfg: Config, s: State, e: Event, t: NodeId)
    requires Inv(cfg, s) && Enabled(cfg, s, e) && Defined(s, e)
    ensures HasEdgeTo(Next(cfg, s, e).communications, t) <==> HasEdgeTo(s.communications, t) || SharesWith(e, t)
  {
    hide TreeShaped, FinishedBelow, GateHolds, CommunicationForest, DerivationsMatch, KeysMatch, WithinCeilings,
         WithinBudgets, PendingMatches;
    var before, after := s.communications, Next(cfg, s, e).communications;
    if e.Decision? && e.choice.Connect? {
      assert after == before + [Edge(e.choice.source, e.choice.destination)];
      assert after[|before|].target == e.choice.destination;
      forall i | 0 <= i < |before| ensures after[i] == before[i] {}
    }
  }

  lemma {:induction false} SharedIff(cfg: Config, states: seq<State>, events: seq<Event>, k: nat, t: NodeId)
    requires cfg.Valid() && IsRunFromStart(cfg, states, events) && k < |states|
    ensures HasEdgeTo(states[k].communications, t) <==> SharedBefore(events, k, t)
    decreases k
  {
    hide Inv, Next, Enabled;
    if k == 0 {
      NothingHasHappened(cfg, states, events);
    } else {
      SharedIff(cfg, states, events, k - 1, t);
      EveryRunIsSafe(cfg, states, events, k - 1);
      assert IsStep(cfg, states[k - 1], events[k - 1], states[k]);
      StepShares(cfg, states[k - 1], events[k - 1], t);
    }
  }

  // ---------------------------------------------------------------- finished nodes have reported

  lemma StepFinishes(cfg: Config, s: State, e: Event, t: NodeId)
    requires Inv(cfg, s) && Enabled(cfg, s, e) && Defined(s, e) && t < |Next(cfg, s, e).nodes|
    ensures Finished(Next(cfg, s, e).nodes[t].status) ==>
              t < |s.nodes| && (Finished(s.nodes[t].status) || s.nodes[t].status == Reported)
  {
    hide GateHolds, CommunicationForest, DerivationsMatch, KeysMatch, WithinCeilings, WithinBudgets;
    if e.Decision? && e.choice.Return? {
      assert HasParent(s.nodes, e.choice.actor);
      ReturnedStatuses(s.nodes, s.dependencies, e.choice.actor);
    }
  }

  lemma {:induction false} FinishedHaveReported(cfg: Config, states: seq<State>, events: seq<Event>, k: nat, t: NodeId)
    requires cfg.Valid() && IsRunFromStart(cfg, states, events) && k < |states| && t < |states[k].nodes|
    requires Finished(states[k].nodes[t].status) || states[k].nodes[t].status == Reported
    ensures states[k].nodes[t].report.Some?
    decreases k
  {
    ReportIsTheLatest(cfg, states, events, k, t);
    if Finished(states[k].nodes[t].status) {
      hide Inv, Next, Enabled;
      if k == 0 {
        assert false;
      } else {
        EveryRunIsSafe(cfg, states, events, k - 1);
        assert IsStep(cfg, states[k - 1], events[k - 1], states[k]);
        StepFinishes(cfg, states[k - 1], events[k - 1], t);
        ReportsComeFromExecuting(cfg, states[k - 1], events[k - 1], t);
        FinishedHaveReported(cfg, states, events, k - 1, t);
      }
    }
  }

  // ---------------------------------------------------------------- work that was derived

  /** Some derived node answers the gap for node a. */
  predicate Answered(s: State, a: NodeId, gap: string) {
    exists n :: 1 <= n < |s.nodes| && s.nodes[n].parent == Some(a) && s.nodes[n].gap == gap
  }

  predicate Pursued(cfg: Config, s: State, objective: string) {
    exists n :: 1 <= n < |s.nodes| && cfg.fingerprint(s.nodes[n].objective) == cfg.fingerprint(objective)
  }

  lemma RecordsMatchNodes(cfg: Config, s: State, a: NodeId, spec: ChildSpec)
    requires Inv(cfg, s)
    ensures (a, spec.gap) in s.gapKeys <==> Answered(s, a, spec.gap)
    ensures cfg.fingerprint(spec.objective) in s.fingerprints <==> Pursued(cfg, s, spec.objective)
  {
    if (a, spec.gap) in s.gapKeys {
      var m :| 0 <= m < |s.gapKeys| && s.gapKeys[m] == (a, spec.gap);
      assert s.nodes[m + 1].parent == Some(a);
    }
    if n :| 1 <= n < |s.nodes| && s.nodes[n].parent == Some(a) && s.nodes[n].gap == spec.gap {
      assert s.gapKeys[n - 1] == (a, spec.gap);
    }
    if cfg.fingerprint(spec.objective) in s.fingerprints {
      var m :| 0 <= m < |s.fingerprints| && s.fingerprints[m] == cfg.fingerprint(spec.objective);
      assert cfg.fingerprint(s.nodes[m + 1].objective) == cfg.fingerprint(spec.objective);
    }
    if n :| 1 <= n < |s.nodes| && cfg.fingerprint(s.nodes[n].objective) == cfg.fingerprint(spec.objective) {
      assert s.fingerprints[n - 1] == cfg.fingerprint(spec.objective);
    }
  }

  lemma StepDerives(cfg: Config, s: State, e: Event, a: NodeId, gap: string, i: nat)
    requires Inv(cfg, s) && Enabled(cfg, s, e) && Defined(s, e)
    requires DeriveId(a, gap, i) in s.used ==> (a, gap) in s.gapKeys
    ensures DeriveId(a, gap, i) in Next(cfg, s, e).used ==> (a, gap) in Next(cfg, s, e).gapKeys
  {
    hide TreeShaped, FinishedBelow, GateHolds, CommunicationForest, DerivationsMatch, KeysMatch, WithinCeilings,
         WithinBudgets, PendingMatches;
    if e.UserReply? { WithoutKeeps(s.used, s.failedTools, DeriveId(a, gap, i)); }
  }

  lemma {:induction false} DerivedAreRecorded(cfg: Config, states: seq<State>, events: seq<Event>, k: nat, a: NodeId,
                                              gap: string, i: nat)
    requires cfg.Valid() && IsRunFromStart(cfg, states, events) && k < |states|
    ensures DeriveId(a, gap, i) in states[k].used ==> (a, gap) in states[k].gapKeys
    decreases k
  {
    hide Inv, Next, Enabled;
    if k == 0 {
      NothingHasHappened(cfg, states, events);
    } else {
      DerivedAreRecorded(cfg, states, events, k - 1, a, gap, i);
      EveryRunIsSafe(cfg, states, events, k - 1);
      assert IsStep(cfg, states[k - 1], events[k - 1], states[k]);
      StepDerives(cfg, states[k - 1], events[k - 1], a, gap, i);
    }
  }

  // ---------------------------------------------------------------- pruned once

  lemma StepPrunes(cfg: Config, s: State, e: Event, t: NodeId)
    requires Inv(cfg, s) && Enabled(cfg, s, e) && Defined(s, e) && t < |s.nodes|
    requires Chose(e, Prune(t)) || s.nodes[t].status == Pruned
    ensures t < |Next(cfg, s, e).nodes| && Next(cfg, s, e).nodes[t].status == Pruned
  {
    hide GateHolds, CommunicationForest, DerivationsMatch, KeysMatch, WithinCeilings, WithinBudgets;
    if e.Decision? && e.choice.Return? {
      assert HasParent(s.nodes, e.choice.actor);
      ReturnedStatuses(s.nodes, s.dependencies, e.choice.actor);
    }
  }

  lemma {:induction false} ChosenArePruned(cfg: Config, states: seq<State>, events: seq<Event>, k: nat, t: NodeId)
    requires cfg.Valid() && IsRunFromStart(cfg, states, events) && k < |states| && ChosenBefore(events, k, Prune(t))
    ensures t < |states[k].nodes| && states[k].nodes[t].status == Pruned
    decreases k
  {
    hide Inv, Next, Enabled;
    EveryRunIsSafe(cfg, states, events, k - 1);
    assert IsStep(cfg, states[k - 1], events[k - 1], states[k]);
    if !Chose(events[k - 1], Prune(t)) { ChosenArePruned(cfg, states, events, k - 1, t); }
    else { PruneNamesANode(cfg, states[k - 1], events[k - 1], t); }
    StepPrunes(cfg, states[k - 1], events[k - 1], t);
  }

  lemma PruneNamesANode(cfg: Config, s: State, e: Event, t: NodeId)
    requires Enabled(cfg, s, e) && Chose(e, Prune(t))
    ensures t < |s.nodes|
  {
  }

  // ---------------------------------------------------------------- the offers

  /** The offers, kind by kind. */
  ghost predicate Due(cfg: Config, states: seq<State>, events: seq<Event>, k: nat, c: Candidate)
    requires k < |states| && |states| == |events| + 1
  {
    var s := states[k];
    match c
    case Execute(a) => StatusIs(s, a, Ready)
    case Derive(a, i) =>
      && StatusIs(s, a, Reported) && HasSpec(s, a, i)
      && !Answered(s, a, s.nodes[a].report.value.children[i].gap)
      && !Pursued(cfg, s, s.nodes[a].report.value.children[i].objective)
    case AcquireUser(a, g) =>
      && StatusIs(s, a, Reported) && HasReport(s, a) && g in s.nodes[a].report.value.userGaps
      && !ChosenBefore(events, k, c)
    case AcquireTool(a, t) =>
      && StatusIs(s, a, Reported) && HasReport(s, a) && t in s.nodes[a].report.value.tools && t in cfg.tools
      && !StillUsed(states, events, k, c)
    case Return(a) => a != 0 && StatusIs(s, a, Reported)
    case Prune(t) => StatusIs(s, t, Returned)
    case Connect(f, t) =>
      && f < t < |s.nodes| && (s.nodes[f].status == Reported || s.nodes[f].status == Returned)
      && (s.nodes[t].status == Ready || s.nodes[t].status == Reported) && !SharedBefore(events, k, t)
    case Stop => StatusIs(s, 0, Reported) && forall i :: 1 <= i < |s.nodes| ==>
                   s.nodes[i].status in {Returned, Pruned, WaitingDependency}
    case StopFallback => false
  }

  /** At each moment of each run: a ready node may execute; a reported one may derive what no
      node answers or pursues yet, ask what it has not asked, and unless it is the root return; a
      returned one may be pruned; a node that has reported may share its report with any later
      one that runs and has not been given one; and the root may stop when nobody else runs. */
  lemma WhatIsOffered(cfg: Config, states: seq<State>, events: seq<Event>, k: nat, c: Candidate)
    requires cfg.Valid() && IsRunFromStart(cfg, states, events) && k < |states|
    ensures OffersProper(cfg, states[k], c) <==> Due(cfg, states, events, k, c)
  {
    EveryRunIsSafe(cfg, states, events, k);
    var s := states[k];
    match c
    case Derive(a, i) =>
      if HasSpec(s, a, i) {
        var spec := s.nodes[a].report.value.children[i];
        RecordsMatchNodes(cfg, s, a, spec);
        DerivedAreRecorded(cfg, states, events, k, a, spec.gap, i);
      }
    case AcquireUser(_, _) => UsedIff(cfg, states, events, k, c);
    case AcquireTool(_, _) =>
      if Mark(c) in s.used { UsedToolsAreStillUsed(cfg, states, events, k, c); }
      if StillUsed(states, events, k, c) { StillUsedAreUsed(cfg, states, events, k, c); }
    case Prune(t) =>
      UsedIff(cfg, states, events, k, c);
      if ChosenBefore(events, k, c) { ChosenArePruned(cfg, states, events, k, t); }
    case Connect(f, t) => ConnectIsDue(cfg, states, events, k, f, t);
    case _ =>
  }

  lemma ConnectIsDue(cfg: Config, states: seq<State>, events: seq<Event>, k: nat, f: NodeId, t: NodeId)
    requires cfg.Valid() && IsRunFromStart(cfg, states, events) && k < |states|
    ensures OffersConnect(states[k], f, t) <==> Due(cfg, states, events, k, Connect(f, t))
  {
    UsedIff(cfg, states, events, k, Connect(f, t));
    SharedIff(cfg, states, events, k, t);
    if j :| 0 <= j < k && Chose(events[j], Connect(f, t)) { assert SharesWith(events[j], t); }
    if f < |states[k].nodes| && (states[k].nodes[f].status == Reported || states[k].nodes[f].status == Returned) {
      FinishedHaveReported(cfg, states, events, k, f);
    }
  }
}

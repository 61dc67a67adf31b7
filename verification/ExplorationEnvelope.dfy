/**
 The mask that the exploration envelope puts over the candidates of one scheduled node.
 */
module ExplorationEnvelope {
  import opened Wrappers

  datatype Action = Action(kind: string, legal: bool, resultingDepth: Option<int>, resolvesGap: bool)

  datatype Envelope = Envelope(minimumNodes: nat, maximumNodes: nat, minimumDepth: nat, maximumDepth: nat)

  /** Where the organization stands when the mask is asked for. */
  datatype Progress = Progress(nodeCount: nat, maximumDepth: nat, unresolvedGap: bool)

  datatype EnvelopeError = RemovedEveryAction

  predicate IsDerivation(kind: string) { kind == "DERIVE_INFO" || kind == "DERIVE_ORG" }

  predicate FloorsMet(e: Envelope, p: Progress) {
    p.nodeCount >= e.minimumNodes && p.maximumDepth >= e.minimumDepth
  }

  /** Within the ceilings, and no early finish. */
  predicate Feasible(a: Action, e: Envelope, p: Progress) {
    && a.legal
    && (a.kind == "FINISH" ==> !p.unresolvedGap || FloorsMet(e, p))
    && (IsDerivation(a.kind) ==>
          p.nodeCount < e.maximumNodes
          && (if a.resultingDepth.Some? then a.resultingDepth.value else p.maximumDepth + 1) <= e.maximumDepth)
  }

  predicate FeasibleDerivation(a: Action, e: Envelope, p: Progress) {
    Feasible(a, e, p) && IsDerivation(a.kind)
  }

  predicate Deepening(a: Action, e: Envelope, p: Progress) {
    && FeasibleDerivation(a, e, p)
    && (if a.resultingDepth.Some? then a.resultingDepth.value else 0) > p.maximumDepth
  }

  predicate Continuing(a: Action, e: Envelope, p: Progress) {
    Feasible(a, e, p) && a.kind == "CONTINUE" && a.resolvesGap
  }

  predicate AnyDerivation(actions: seq<Action>, e: Envelope, p: Progress) {
    exists i :: 0 <= i < |actions| && FeasibleDerivation(actions[i], e, p)
  }

  predicate AnyDeepening(actions: seq<Action>, e: Envelope, p: Progress) {
    exists i :: 0 <= i < |actions| && Deepening(actions[i], e, p)
  }

  predicate AnyContinuing(actions: seq<Action>, e: Envelope, p: Progress) {
    exists i :: 0 <= i < |actions| && Continuing(actions[i], e, p)
  }

  /** The actions that an unmet floor prefers. */
  predicate Preferred(actions: seq<Action>, a: Action, e: Envelope, p: Progress) {
    if AnyDerivation(actions, e, p) then
      if p.maximumDepth < e.minimumDepth && AnyDeepening(actions, e, p) then Deepening(a, e, p)
      else FeasibleDerivation(a, e, p)
    else Continuing(a, e, p)
  }

  predicate Steers(actions: seq<Action>, e: Envelope, p: Progress) {
    && p.unresolvedGap && !FloorsMet(e, p)
    && (AnyDerivation(actions, e, p) || AnyContinuing(actions, e, p))
  }

  predicate Allowed(actions: seq<Action>, a: Action, e: Envelope, p: Progress) {
    Feasible(a, e, p) && (Steers(actions, e, p) ==> Preferred(actions, a, e, p))
  }

  predicate NoneAllowed(actions: seq<Action>, e: Envelope, p: Progress) {
    forall i :: 0 <= i < |actions| ==> !Allowed(actions, actions[i], e, p)
  }

  /** The mask as the code builds it: two passes over the candidates, then a rewrite. */
  method LegalActions(actions: seq<Action>, e: Envelope, p: Progress) returns (r: Result<seq<bool>, EnvelopeError>)
    ensures r.Failure? <==> NoneAllowed(actions, e, p)
    ensures r.Success? ==> |r.value| == |actions|
    ensures r.Success? ==> forall i :: 0 <= i < |actions| ==> r.value[i] == Allowed(actions, actions[i], e, p)
  {
    var floorsReached := p.nodeCount >= e.minimumNodes && p.maximumDepth >= e.minimumDepth;
    var terminalAllowed := !p.unresolvedGap || floorsReached;
    var derivationAllowed := p.nodeCount < e.maximumNodes;
    var result: seq<bool> := [];
    for i := 0 to |actions|
      invariant |result| == i
      invariant forall k :: 0 <= k < i ==> result[k] == Feasible(actions[k], e, p)
    {
      var legal := actions[i].legal;
      if actions[i].kind == "FINISH" && !terminalAllowed { legal := false; }
      if IsDerivation(actions[i].kind) {
        var depth := if actions[i].resultingDepth.Some? then actions[i].resultingDepth.value else p.maximumDepth + 1;
        if !derivationAllowed || depth > e.maximumDepth { legal := false; }
      }
      result := result + [legal];
    }
    if p.unresolvedGap && !floorsReached {
      var preferred := PreferredPositions(actions, result, e, p);
      if preferred != {} {
        var kept: seq<bool> := [];
        for i := 0 to |actions|
          invariant |kept| == i
          invariant forall k :: 0 <= k < i ==> kept[k] == (result[k] && k in preferred)
        {
          kept := kept + [result[i] && i in preferred];
        }
        result := kept;
      }
    }
    assert forall i :: 0 <= i < |actions| ==> result[i] == Allowed(actions, actions[i], e, p);
    if true in result { return Success(result); }
    assert forall i :: 0 <= i < |actions| ==> !result[i];
    return Failure(RemovedEveryAction);
  }

  method PreferredPositions(actions: seq<Action>, legal: seq<bool>, e: Envelope, p: Progress)
    returns (preferred: set<nat>)
    requires |legal| == |actions|
    requires forall i :: 0 <= i < |actions| ==> legal[i] == Feasible(actions[i], e, p)
    ensures preferred == {} <==> !AnyDerivation(actions, e, p) && !AnyContinuing(actions, e, p)
    ensures preferred != {} ==>
              forall i :: i in preferred <==> 0 <= i < |actions| && Preferred(actions, actions[i], e, p)
  {
    var derivations: set<nat>, deepening: set<nat>, continuing: set<nat> := {}, {}, {};
    for i := 0 to |actions|
      invariant forall k: nat :: k in derivations <==> k < i && FeasibleDerivation(actions[k], e, p)
      invariant forall k: nat :: k in deepening <==> k < i && Deepening(actions[k], e, p)
      invariant forall k: nat :: k in continuing <==> k < i && Continuing(actions[k], e, p)
    {
      if legal[i] && IsDerivation(actions[i].kind) {
        derivations := derivations + {i};
        var depth := if actions[i].resultingDepth.Some? then actions[i].resultingDepth.value else 0;
        if depth > p.maximumDepth { deepening := deepening + {i}; }
      }
      if legal[i] && actions[i].kind == "CONTINUE" && actions[i].resolvesGap {
        continuing := continuing + {i};
      }
    }
    EmptyIff(actions, e, p, derivations, deepening, continuing);
    if derivations != {} {
      preferred := derivations;
      if p.maximumDepth < e.minimumDepth && deepening != {} { preferred := deepening; }
    } else {
      preferred := continuing;
    }
  }

  lemma EmptyIff(actions: seq<Action>, e: Envelope, p: Progress,
                 derivations: set<nat>, deepening: set<nat>, continuing: set<nat>)
    requires forall k: nat :: k in derivations <==> k < |actions| && FeasibleDerivation(actions[k], e, p)
    requires forall k: nat :: k in deepening <==> k < |actions| && Deepening(actions[k], e, p)
    requires forall k: nat :: k in continuing <==> k < |actions| && Continuing(actions[k], e, p)
    ensures derivations != {} <==> AnyDerivation(actions, e, p)
    ensures deepening != {} <==> AnyDeepening(actions, e, p)
    ensures continuing != {} <==> AnyContinuing(actions, e, p)
  {
  }

  /** A kind the mask has no rule for. */
  predicate Ordinary(kind: string) {
    !IsDerivation(kind) && kind != "FINISH" && kind != "CONTINUE"
  }

  predicate OnlyDerivationsLeft(actions: seq<Action>, e: Envelope, p: Progress) {
    && !NoneAllowed(actions, e, p)
    && forall i :: 0 <= i < |actions| && Allowed(actions, actions[i], e, p) ==> IsDerivation(actions[i].kind)
  }

  /** The mask never adds an action, and with a gap open and a floor unmet it leaves only
      derivations, at least one of them, if and only if a feasible one is on offer. */
  lemma FloorsLeaveOnlyDerivations(actions: seq<Action>, e: Envelope, p: Progress)
    ensures forall i :: 0 <= i < |actions| && Allowed(actions, actions[i], e, p) ==> actions[i].legal
    ensures p.unresolvedGap && !FloorsMet(e, p) ==>
              (OnlyDerivationsLeft(actions, e, p) <==> AnyDerivation(actions, e, p))
  {
    if p.unresolvedGap && !FloorsMet(e, p) && AnyDerivation(actions, e, p) {
      if p.maximumDepth < e.minimumDepth && AnyDeepening(actions, e, p) {
        var k :| 0 <= k < |actions| && Deepening(actions[k], e, p);
        assert Allowed(actions, actions[k], e, p);
      } else {
        var k :| 0 <= k < |actions| && FeasibleDerivation(actions[k], e, p);
        assert Allowed(actions, actions[k], e, p);
      }
    }
  }

  /** The rules of the mask, kind by kind.  With no gap open or both floors met, an action is
      allowed when it is legal, and a derivation needs a free node and a level besides.  With a gap
      open and a floor unmet, FINISH is never allowed; a level that is missing and on offer must
      come first; and without a derivation only a CONTINUE that closes the gap is left, if any. */
  lemma MaskRules(actions: seq<Action>, a: Action, e: Envelope, p: Progress)
    ensures !p.unresolvedGap || (p.nodeCount >= e.minimumNodes && p.maximumDepth >= e.minimumDepth) ==>
              (Allowed(actions, a, e, p) <==>
                 && a.legal
                 && (a.kind == "DERIVE_INFO" || a.kind == "DERIVE_ORG" ==>
                       && p.nodeCount < e.maximumNodes
                       && (a.resultingDepth.Some? ==> a.resultingDepth.value <= e.maximumDepth)
                       && (a.resultingDepth.None? ==> p.maximumDepth < e.maximumDepth)))
    ensures p.unresolvedGap && (p.nodeCount < e.minimumNodes || p.maximumDepth < e.minimumDepth) ==>
              && (a.kind == "FINISH" ==> !Allowed(actions, a, e, p))
              && (Allowed(actions, a, e, p) && p.maximumDepth < e.minimumDepth && AnyDeepening(actions, e, p) ==>
                    IsDerivation(a.kind) && a.resultingDepth.Some? && a.resultingDepth.value > p.maximumDepth)
              && (Allowed(actions, a, e, p) && !AnyDerivation(actions, e, p) && AnyContinuing(actions, e, p) ==>
                    a.kind == "CONTINUE" && a.resolvesGap)
    ensures AnyDeepening(actions, e, p) <==>
            exists i :: 0 <= i < |actions| && FeasibleDerivation(actions[i], e, p)
                        && actions[i].resultingDepth.Some? && actions[i].resultingDepth.value > p.maximumDepth
  {
    if AnyDeepening(actions, e, p) {
      var i :| 0 <= i < |actions| && Deepening(actions[i], e, p);
    }
    if i :| 0 <= i < |actions| && FeasibleDerivation(actions[i], e, p)
            && actions[i].resultingDepth.Some? && actions[i].resultingDepth.value > p.maximumDepth {
      assert Deepening(actions[i], e, p);
    }
  }

  /** On ordinary kinds the envelope is inert: its floors and ceilings change nothing, whatever
      they are, and it only fails when no candidate was legal to begin with. */
  lemma OrdinaryKindsPass(actions: seq<Action>, e: Envelope, p: Progress)
    requires forall i :: 0 <= i < |actions| ==> Ordinary(actions[i].kind)
    ensures forall i :: 0 <= i < |actions| ==> (Allowed(actions, actions[i], e, p) <==> actions[i].legal)
    ensures NoneAllowed(actions, e, p) <==> forall i :: 0 <= i < |actions| ==> !actions[i].legal
  {
  }

  /** Floors do not steer the agent: with a gap open, too few nodes and a legal derivation under
      the name the agent gives it, returning to the parent stays allowed. */
  lemma FloorsDoNotSteer()
    ensures var e := Envelope(6, 24, 3, 8);
            var p := Progress(2, 1, true);
            var derive := Action("DERIVE", true, Some(2), true);
            var goBack := Action("RETURN", true, None, false);
            && !FloorsMet(e, p)
            && Allowed([derive, goBack], derive, e, p) && Allowed([derive, goBack], goBack, e, p)
            && !OnlyDerivationsLeft([derive, goBack], e, p)
  {
    var e, p := Envelope(6, 24, 3, 8), Progress(2, 1, true);
    var actions := [Action("DERIVE", true, Some(2), true), Action("RETURN", true, None, false)];
    OrdinaryKindsPass(actions, e, p);
    assert Allowed(actions, actions[0], e, p) && Allowed(actions, actions[1], e, p);
  }
}

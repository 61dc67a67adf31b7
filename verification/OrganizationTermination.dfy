/**
 Every turn of the decision loop ends by itself.  The code only bounds a turn by a large
 constant; here a quantity that each inner decision lowers gives a bound in terms of the
 node ceiling alone, for every choice of candidates and every report.
 */
module OrganizationTermination {
  import opened OrganizationModel
  import opened OrganizationSafety

  // ---------------------------------------------------------------- sums

  function Sum(w: seq<nat>): nat {
    if w == [] then 0 else Sum(w[..|w| - 1]) + w[|w| - 1]
  }

  lemma {:induction false} SumUpdate(w: seq<nat>, i: nat, x: nat)
    requires i < |w|
    ensures Sum(w[i := x]) == Sum(w) - w[i] + x
  {
    var last := |w| - 1;
    if i == last {
      assert w[i := x][..last] == w[..last];
    } else {
      assert w[i := x][..last] == w[..last][i := x];
      SumUpdate(w[..last], i, x);
    }
  }

  lemma {:induction false} SumMonotone(v: seq<nat>, w: seq<nat>)
    requires |v| == |w| && forall i :: 0 <= i < |v| ==> v[i] <= w[i]
    ensures Sum(v) <= Sum(w)
  {
    if v != [] { SumMonotone(v[..|v| - 1], w[..|w| - 1]); }
  }

  lemma {:induction false} SumAtMost(w: seq<nat>, bound: nat)
    requires forall i :: 0 <= i < |w| ==> w[i] <= bound
    ensures Sum(w) <= bound * |w|
  {
    if w != [] {
      SumAtMost(w[..|w| - 1], bound);
      assert bound * |w| == bound * (|w| - 1) + bound;
    }
  }

  lemma {:induction false} SumAtLeast(w: seq<nat>, i: nat)
    requires i < |w|
    ensures w[i] <= Sum(w)
  {
    if i < |w| - 1 { SumAtLeast(w[..|w| - 1], i); }
  }

  // ---------------------------------------------------------------- the measure

  predicate HearsFrom(edges: seq<Edge>, i: NodeId) {
    exists k :: 0 <= k < |edges| && edges[k].target == i
  }

  /** Two for being unfinished, two for having no incoming communication, two for waiting on
      dependencies or one for being ready, and one for not being pruned. */
  function Weight(edges: seq<Edge>, i: NodeId, status: Status): nat {
    (if Finished(status) then 0 else 2)
    + (if HearsFrom(edges, i) then 0 else 2)
    + (if status == WaitingDependency then 2 else if status == Ready then 1 else 0)
    + (if status == Pruned then 0 else 1)
  }

  function Weights(nodes: seq<Node>, edges: seq<Edge>): (w: seq<nat>)
    ensures |w| == |nodes|
    ensures forall i :: 0 <= i < |w| ==> w[i] == Weight(edges, i, nodes[i].status)
  {
    seq(|nodes|, i requires 0 <= i < |nodes| => Weight(edges, i, nodes[i].status))
  }

  function Measure(cfg: Config, s: State): int {
    8 * (cfg.NodeCeiling() - |s.nodes|) + Sum(Weights(s.nodes, s.communications))
  }

  lemma MeasureBounds(cfg: Config, s: State)
    requires Inv(cfg, s)
    ensures 5 <= Measure(cfg, s) <= 8 * cfg.NodeCeiling() - 2
  {
    var w := Weights(s.nodes, s.communications);
    RootPlays(s.nodes, s.dependencies);
    assert w[0] >= 5;
    SumAtLeast(w, 0);
    assert w[0] <= 6;
    var raised := w[0 := 7];
    SumUpdate(w, 0, 7);
    SumAtMost(raised, 7);
  }

  /** One node lost at least one unit and no other gained. */
  lemma OneDrops(v: seq<nat>, w: seq<nat>, a: nat)
    requires |v| == |w| && a < |w| && v[a] < w[a]
    requires forall i :: 0 <= i < |w| && i != a ==> v[i] <= w[i]
    ensures Sum(v) < Sum(w)
  {
    SumUpdate(w, a, v[a]);
    SumMonotone(v, w[a := v[a]]);
  }

  /** One node lost two units, another gained at most one and no other gained. */
  lemma TwoDropOneGains(v: seq<nat>, w: seq<nat>, a: nat, p: nat)
    requires |v| == |w| && a < |w| && p < |w| && a != p && v[a] + 2 <= w[a] && v[p] <= w[p] + 1
    requires forall i :: 0 <= i < |w| && i != a && i != p ==> v[i] <= w[i]
    ensures Sum(v) < Sum(w)
  {
    SumUpdate(w, a, v[a]);
    SumUpdate(w[a := v[a]], p, v[p]);
    SumMonotone(v, w[a := v[a]][p := v[p]]);
  }

  // ---------------------------------------------------------------- the decisions that stay in the loop

  predicate Stays(c: Candidate) {
    c.Execute? || c.Derive? || c.Connect? || c.Return? || c.Prune?
  }

  lemma ExecuteLowers(cfg: Config, s: State, a: NodeId, report: Report)
    requires StatusIs(s, a, Ready)
    ensures Measure(cfg, AfterExecute(s, a, report)) < Measure(cfg, s)
  {
    var s' := AfterExecute(s, a, report);
    OneDrops(Weights(s'.nodes, s'.communications), Weights(s.nodes, s.communications), a);
  }

  lemma PruneLowers(cfg: Config, s: State, t: NodeId)
    requires StatusIs(s, t, Returned)
    ensures Measure(cfg, AfterPrune(s, t)) < Measure(cfg, s)
  {
    var s' := AfterPrune(s, t);
    OneDrops(Weights(s'.nodes, s'.communications), Weights(s.nodes, s.communications), t);
  }

  lemma HearsAfterConnect(edges: seq<Edge>, f: NodeId, t: NodeId, i: NodeId)
    ensures HearsFrom(edges + [Edge(f, t)], i) <==> HearsFrom(edges, i) || i == t
  {
    var longer := edges + [Edge(f, t)];
    if HearsFrom(edges, i) {
      var k :| 0 <= k < |edges| && edges[k].target == i;
      assert longer[k].target == i;
    }
    assert longer[|edges|].target == t;
  }

  lemma ConnectLowers(cfg: Config, s: State, f: NodeId, t: NodeId)
    requires MayShare(s, f, t)
    ensures Measure(cfg, AfterConnect(s, f, t)) < Measure(cfg, s)
  {
    var s' := AfterConnect(s, f, t);
    forall i | 0 <= i < |s.nodes|
      ensures HearsFrom(s'.communications, i) <==> HearsFrom(s.communications, i) || i == t
    {
      HearsAfterConnect(s.communications, f, t, i);
    }
    assert !HearsFrom(s.communications, t);
    OneDrops(Weights(s'.nodes, s'.communications), Weights(s.nodes, s.communications), t);
  }

  lemma DeriveLowers(cfg: Config, s: State, a: NodeId, i: nat)
    requires TreeShaped(s.nodes) && AliasesInRange(s) && HasSpec(s, a, i)
    ensures Measure(cfg, AfterDerive(cfg, s, a, i)) < Measure(cfg, s)
  {
    var s' := AfterDerive(cfg, s, a, i);
    var w := Weights(s.nodes, s.communications);
    var w' := Weights(s'.nodes, s'.communications);
    assert w'[..|w'| - 1] == w;
  }

  lemma ReturnLowers(cfg: Config, s: State, a: NodeId)
    requires Inv(cfg, s) && Idle(s) && a != 0 && StatusIs(s, a, Reported) && Legal(cfg, s, Return(a))
    requires s.nodes[a].parent.Some? && s.nodes[a].parent.value < |s.nodes|
    ensures Measure(cfg, AfterReturn(s, a)) < Measure(cfg, s)
  {
    var s' := AfterReturn(s, a);
    var p := ParentOf(s.nodes, a);
    ReturnedStatuses(s.nodes, s.dependencies, a);
    ReturnKeepsFinished(s.nodes, s.dependencies, a);
    var w := Weights(s.nodes, s.communications);
    var w' := Weights(s'.nodes, s'.communications);
    forall i | 0 <= i < |w|
      ensures w'[i] == Weight(s.communications, i, StatusAfterReturn(s.nodes, s.dependencies, a, i))
    {
      assert s'.nodes[i].status == StatusAfterReturn(s.nodes, s.dependencies, a, i);
    }
    TwoDropOneGains(w', w, a, p);
  }

  lemma DecisionLowers(cfg: Config, s: State, c: Candidate, report: Report)
    requires Inv(cfg, s) && Enabled(cfg, s, Decision(c, report)) && Stays(c)
    ensures Applicable(s, c)
    ensures Measure(cfg, Decide(cfg, s, c, report)) < Measure(cfg, s)
  {
    OfferedIsApplicable(cfg, s, c);
    RecordKeeps(cfg, s, c);
    var r := Record(s, c);
    match c
    case Execute(a) => ExecuteLowers(cfg, r, a, report);
    case Derive(a, i) => DeriveLowers(cfg, r, a, i);
    case Return(a) => assert HasParent(r.nodes, a); ReturnLowers(cfg, r, a);
    case Prune(t) => PruneLowers(cfg, r, t);
    case Connect(f, t) => ConnectLowers(cfg, r, f, t);
  }

  lemma LeavingIsNotIdle(cfg: Config, s: State, c: Candidate, report: Report)
    requires Applicable(s, c) && !Stays(c)
    ensures !Idle(Decide(cfg, s, c, report))
  {
  }

  // ---------------------------------------------------------------- the bound

  lemma {:induction false} DecisionsFit(cfg: Config, states: seq<State>, events: seq<Event>)
    requires IsRun(cfg, states, events) && Inv(cfg, states[0])
    requires forall k :: 0 <= k < |events| ==> events[k].Decision?
    ensures Inv(cfg, states[|events|])
    ensures events == [] || Idle(states[|events|]) ==>
              |events| <= Measure(cfg, states[0]) - Measure(cfg, states[|events|])
    ensures |events| <= Measure(cfg, states[0]) - 4
  {
    hide Inv, Measure, Decide, Offered, Legal;
    var n := |events|;
    MeasureBounds(cfg, states[0]);
    if n > 0 {
      assert IsRun(cfg, states[..n], events[..n - 1]) by {
        forall k | 0 <= k < n - 1 ensures IsStep(cfg, states[..n][k], events[..n - 1][k], states[..n][k + 1]) {
          assert IsStep(cfg, states[k], events[k], states[k + 1]);
        }
      }
      DecisionsFit(cfg, states[..n], events[..n - 1]);
      assert IsStep(cfg, states[n - 1], events[n - 1], states[n]);
      StepKeeps(cfg, states[n - 1], events[n - 1]);
      MeasureBounds(cfg, states[n - 1]);
      MeasureBounds(cfg, states[n]);
      var e := events[n - 1];
      if Stays(e.choice) {
        DecisionLowers(cfg, states[n - 1], e.choice, e.report);
      } else {
        LeavingIsNotIdle(cfg, states[n - 1], e.choice, e.report);
      }
    }
  }

  /** With node ceiling N, decisions follow one another at most 8N - 6 times before an answer
      goes out, whatever legal candidate is chosen each time. */
  lemma TurnsEndByThemselves(cfg: Config, states: seq<State>, events: seq<Event>)
    requires IsRun(cfg, states, events) && Inv(cfg, states[0])
    requires forall k :: 0 <= k < |events| ==> events[k].Decision?
    ensures |events| <= 8 * cfg.NodeCeiling() - 6
  {
    MeasureBounds(cfg, states[0]);
    DecisionsFit(cfg, states, events);
  }
}

/**
 The clipped policy loss, accumulated over bounded batches of decisions, against the loss as it
 is defined: the mean over trajectories of the mean over decisions.  Numbers are reals, exp is
 any function, and the log-probability of a decision is any function of the encoding of its
 graph and its record.
 */
module PolicyLoss {
  import opened Wrappers
  import opened GraphBatch

  /** A recorded decision: the graph it was taken in, the log-probability it had then, and
      what else is needed to find it among the candidates. */
  datatype Decision<X, D> = Decision(graph: Graph<X>, recorded: real, data: D)

  /** The policy that is being trained.  There is no log-probability when the recorded choice
      is not among the candidates of the replayed state. */
  datatype Policy<!X, !V, !P, !R, !D> =
    Policy(model: Model<X, V, P, R>, logProbability: (seq<V>, P, D) -> Option<real>, exp: real -> real)

  datatype LossError = DifferentLengths | NoTrajectory | UnmatchedTrajectory | EmptyTrajectory | ChoiceNotAvailable

  function Min(a: real, b: real): real { if a <= b then a else b }

  function Max(a: real, b: real): real { if a >= b then a else b }

  /** The upper bound wins when the bounds are crossed. */
  function Clamp(x: real, low: real, high: real): real { Min(Max(x, low), high) }

  function Clipped(ratio: real, epsilon: real, advantage: real): real {
    Min(ratio * advantage, Clamp(ratio, 1.0 - epsilon, 1.0 + epsilon) * advantage)
  }

  function Surrogate(exp: real -> real, epsilon: real, advantage: real, current: real, recorded: real): real {
    Clipped(exp(current - recorded), epsilon, advantage)
  }

  /** What one decision contributes: a good one nothing beyond the ratio 1 + epsilon, and a bad one
      nothing below the ratio 1 - epsilon; in between the ratio times the advantage. */
  lemma ContributionIsClipped(ratio: real, epsilon: real, advantage: real)
    ensures advantage >= 0.0 && ratio <= 1.0 + epsilon ==> Clipped(ratio, epsilon, advantage) == ratio * advantage
    ensures advantage >= 0.0 && ratio > 1.0 + epsilon ==>
              Clipped(ratio, epsilon, advantage) == (1.0 + epsilon) * advantage
    ensures advantage < 0.0 && ratio >= 1.0 - epsilon ==> Clipped(ratio, epsilon, advantage) == ratio * advantage
    ensures advantage < 0.0 && epsilon >= 0.0 && ratio < 1.0 - epsilon ==>
              Clipped(ratio, epsilon, advantage) == (1.0 - epsilon) * advantage
  {
    var clipped := Clamp(ratio, 1.0 - epsilon, 1.0 + epsilon);
    ScaledMin(ratio, clipped, advantage);
    assert Min(ratio, clipped) == if ratio <= 1.0 + epsilon then ratio else 1.0 + epsilon;
  }

  lemma ScaledMin(a: real, b: real, c: real)
    ensures Min(a * c, b * c) == (if c >= 0.0 then Min(a, b) else Max(a, b)) * c
  {
    if a <= b { Scales(a, b, if c >= 0.0 then c else -c); } else { Scales(b, a, if c >= 0.0 then c else -c); }
  }

  lemma Scales(a: real, b: real, c: real)
    requires a <= b && c >= 0.0
    ensures a * c <= b * c && b * -c <= a * -c
  {
    assert (b - a) * c >= 0.0;
  }

  // ---------------------------------------------------------------- the loss as defined

  function SurrogateSum(exp: real -> real, epsilon: real, advantage: real,
                        current: seq<real>, recorded: seq<real>): real
    requires |current| == |recorded|
  {
    if current == [] then 0.0
    else
      var n := |current| - 1;
      SurrogateSum(exp, epsilon, advantage, current[..n], recorded[..n])
      + Surrogate(exp, epsilon, advantage, current[n], recorded[n])
  }

  /** Every trajectory has as many new as recorded log-probabilities, and at least one. */
  predicate Matched(current: seq<seq<real>>, recorded: seq<seq<real>>) {
    |current| == |recorded| && forall t :: 0 <= t < |current| ==> |current[t]| == |recorded[t]| > 0
  }

  /** The sum over trajectories of the mean over their decisions. */
  function SumOfMeans(exp: real -> real, epsilon: real, current: seq<seq<real>>, recorded: seq<seq<real>>,
                      advantages: seq<real>): real
    requires Matched(current, recorded) && |current| == |advantages|
  {
    if current == [] then 0.0
    else
      var n := |current| - 1;
      SumOfMeans(exp, epsilon, current[..n], recorded[..n], advantages[..n])
      + SurrogateSum(exp, epsilon, advantages[n], current[n], recorded[n]) / |current[n]| as real
  }

  function ReferenceLoss(exp: real -> real, epsilon: real, current: seq<seq<real>>, recorded: seq<seq<real>>,
                         advantages: seq<real>): real
    requires Matched(current, recorded) && |current| == |advantages| > 0
  {
    -(SumOfMeans(exp, epsilon, current, recorded, advantages) / |current| as real)
  }

  // ---------------------------------------------------------------- what that loss is

  lemma {:induction false} OnPolicySum(exp: real -> real, epsilon: real, advantage: real, recorded: seq<real>)
    requires exp(0.0) == 1.0 && epsilon >= 0.0
    ensures SurrogateSum(exp, epsilon, advantage, recorded, recorded) == |recorded| as real * advantage
  {
    if recorded != [] {
      var n := |recorded| - 1;
      OnPolicySum(exp, epsilon, advantage, recorded[..n]);
      assert recorded[n] - recorded[n] == 0.0;
      ContributionIsClipped(1.0, epsilon, advantage);
      Distributes(n as real, 1.0, advantage);
    }
  }

  /** While the policy is the recorded one, the loss is minus the mean advantage of the
      trajectories, however many decisions each of them has. */
  lemma {:induction false} OnPolicyMeans(exp: real -> real, epsilon: real, recorded: seq<seq<real>>,
                                         advantages: seq<real>)
    requires exp(0.0) == 1.0 && epsilon >= 0.0 && Matched(recorded, recorded) && |recorded| == |advantages|
    ensures SumOfMeans(exp, epsilon, recorded, recorded, advantages) == Total(advantages)
    ensures recorded != [] ==>
              ReferenceLoss(exp, epsilon, recorded, recorded, advantages) == -(Total(advantages) / |recorded| as real)
  {
    if recorded != [] {
      var n := |recorded| - 1;
      OnPolicyMeans(exp, epsilon, recorded[..n], advantages[..n]);
      OnPolicySum(exp, epsilon, advantages[n], recorded[n]);
      TimesThenDivided(advantages[n], |recorded[n]| as real);
    }
  }

  lemma TimesThenDivided(a: real, b: real)
    requires b > 0.0
    ensures b * a / b == a
  {
  }

  lemma {:induction false} SumMoves(exp: real -> real, epsilon: real, advantage: real, current: seq<real>,
                                    recorded: seq<real>, k: nat, x: real)
    requires k < |current| == |recorded|
    ensures SurrogateSum(exp, epsilon, advantage, current[k := x], recorded)
            == SurrogateSum(exp, epsilon, advantage, current, recorded)
               + (Clipped(exp(x - recorded[k]), epsilon, advantage)
                  - Clipped(exp(current[k] - recorded[k]), epsilon, advantage))
  {
    var n := |current| - 1;
    if k == n {
      assert current[k := x][..n] == current[..n];
    } else {
      assert current[k := x][..n] == current[..n][k := x];
      SumMoves(exp, epsilon, advantage, current[..n], recorded[..n], k, x);
    }
  }

  lemma {:induction false} MeansMove(exp: real -> real, epsilon: real, current: seq<seq<real>>,
                                     recorded: seq<seq<real>>, advantages: seq<real>, t: nat, k: nat, x: real)
    requires Matched(current, recorded) && t < |current| == |advantages| && k < |current[t]|
    requires Matched(current[t := current[t][k := x]], recorded)
    ensures SumOfMeans(exp, epsilon, current[t := current[t][k := x]], recorded, advantages)
            == SumOfMeans(exp, epsilon, current, recorded, advantages)
               + (Clipped(exp(x - recorded[t][k]), epsilon, advantages[t])
                  - Clipped(exp(current[t][k] - recorded[t][k]), epsilon, advantages[t])) / |current[t]| as real
  {
    hide Clipped, SurrogateSum;
    var n := |current| - 1;
    var moved := current[t := current[t][k := x]];
    if t == n {
      assert moved[..n] == current[..n];
      SumMoves(exp, epsilon, advantages[n], current[n], recorded[n], k, x);
      DividesApart(SurrogateSum(exp, epsilon, advantages[n], current[n], recorded[n]),
                   Clipped(exp(x - recorded[t][k]), epsilon, advantages[t])
                   - Clipped(exp(current[t][k] - recorded[t][k]), epsilon, advantages[t]), |current[t]| as real);
    } else {
      assert moved[..n] == current[..n][t := current[..n][t][k := x]];
      MeansMove(exp, epsilon, current[..n], recorded[..n], advantages[..n], t, k, x);
    }
  }

  /** When one decision gets another log-probability, the loss goes down by what its clipped
      contribution goes up, divided by the decisions of its trajectory and by the trajectories. */
  lemma EveryDecisionWeighs(exp: real -> real, epsilon: real, current: seq<seq<real>>, recorded: seq<seq<real>>,
                            advantages: seq<real>, t: nat, k: nat, x: real)
    requires Matched(current, recorded) && t < |current| == |advantages| && k < |current[t]|
    ensures Matched(current[t := current[t][k := x]], recorded)
    ensures ReferenceLoss(exp, epsilon, current[t := current[t][k := x]], recorded, advantages)
            == ReferenceLoss(exp, epsilon, current, recorded, advantages)
               - (Clipped(exp(x - recorded[t][k]), epsilon, advantages[t])
                  - Clipped(exp(current[t][k] - recorded[t][k]), epsilon, advantages[t]))
                 / |current[t]| as real / |current| as real
  {
    var gain := (Clipped(exp(x - recorded[t][k]), epsilon, advantages[t])
                 - Clipped(exp(current[t][k] - recorded[t][k]), epsilon, advantages[t])) / |current[t]| as real;
    MeansMove(exp, epsilon, current, recorded, advantages, t, k, x);
    DividesApart(SumOfMeans(exp, epsilon, current, recorded, advantages), gain, |current| as real);
  }

  lemma LossOfOneDecision(exp: real -> real, epsilon: real, current: real, recorded: real, advantage: real)
    ensures Matched([[current]], [[recorded]])
    ensures ReferenceLoss(exp, epsilon, [[current]], [[recorded]], [advantage])
            == -Clipped(exp(current - recorded), epsilon, advantage)
  {
    hide Clipped;
    assert [current][..0] == [] && [recorded][..0] == [];
    var value := Clipped(exp(current - recorded), epsilon, advantage);
    assert SurrogateSum(exp, epsilon, advantage, [current], [recorded]) == 0.0 + value;
    assert [[current]][..0] == [] && [[recorded]][..0] == [] && [advantage][..0] == [];
    assert SumOfMeans(exp, epsilon, [[current]], [[recorded]], [advantage]) == value / 1.0;
  }

  lemma ContributionIsBounded(ratio: real, epsilon: real, advantage: real)
    requires epsilon >= 0.0 && advantage >= 0.0
    ensures Clipped(ratio, epsilon, advantage) <= (1.0 + epsilon) * advantage
  {
    ContributionIsClipped(ratio, epsilon, advantage);
    if ratio <= 1.0 + epsilon { Scales(ratio, 1.0 + epsilon, advantage); }
  }

  lemma {:induction false} SumIsBounded(exp: real -> real, epsilon: real, advantage: real, bound: real,
                                        current: seq<real>, recorded: seq<real>)
    requires |current| == |recorded| && forall ratio :: Clipped(ratio, epsilon, advantage) <= bound
    ensures SurrogateSum(exp, epsilon, advantage, current, recorded) <= |current| as real * bound
  {
    hide Clipped;
    if current != [] {
      var n := |current| - 1;
      SumIsBounded(exp, epsilon, advantage, bound, current[..n], recorded[..n]);
      Distributes(n as real, 1.0, bound);
    }
  }

  predicate NoneNegative(advantages: seq<real>) {
    forall t :: 0 <= t < |advantages| ==> advantages[t] >= 0.0
  }

  /** Where no trajectory did worse than its group, the loss cannot fall below minus (1 + epsilon)
      times the mean advantage, whatever the policy does. */
  lemma {:induction false} LossIsBounded(exp: real -> real, epsilon: real, current: seq<seq<real>>,
                                         recorded: seq<seq<real>>, advantages: seq<real>)
    requires Matched(current, recorded) && |current| == |advantages|
    requires epsilon >= 0.0 && NoneNegative(advantages)
    ensures SumOfMeans(exp, epsilon, current, recorded, advantages) <= (1.0 + epsilon) * Total(advantages)
    ensures current != [] ==>
              ReferenceLoss(exp, epsilon, current, recorded, advantages)
              >= -((1.0 + epsilon) * Total(advantages) / |current| as real)
  {
    hide Clipped, SurrogateSum;
    if current != [] {
      var n, factor := |current| - 1, 1.0 + epsilon;
      var sum := SurrogateSum(exp, epsilon, advantages[n], current[n], recorded[n]);
      LossIsBounded(exp, epsilon, current[..n], recorded[..n], advantages[..n]);
      forall ratio ensures Clipped(ratio, epsilon, advantages[n]) <= factor * advantages[n] {
        ContributionIsBounded(ratio, epsilon, advantages[n]);
      }
      SumIsBounded(exp, epsilon, advantages[n], factor * advantages[n], current[n], recorded[n]);
      MeanIsBounded(sum, factor * advantages[n], |current[n]| as real);
      Distributes(Total(advantages[..n]), advantages[n], factor);
      DivisionKeepsOrder(SumOfMeans(exp, epsilon, current, recorded, advantages), factor * Total(advantages),
                         |current| as real);
    }
  }

  lemma MeanIsBounded(sum: real, bound: real, n: real)
    requires n > 0.0 && sum <= n * bound
    ensures sum / n <= bound
  {
    DivisionKeepsOrder(sum, n * bound, n);
    TimesThenDivided(bound, n);
  }

  lemma DivisionKeepsOrder(a: real, b: real, n: real)
    requires n > 0.0 && a <= b
    ensures a / n <= b / n
  {
  }

  // ---------------------------------------------------------------- the loss, trajectory by trajectory

  /** The objective of each trajectory is appended to a list, which is averaged in the end. */
  method SingleObjectiveLoss(exp: real -> real, epsilon: real, current: seq<seq<real>>, recorded: seq<seq<real>>,
                             advantages: seq<real>)
    returns (loss: Result<real, LossError>)
    ensures loss == Failure(DifferentLengths) <==> !(|current| == |recorded| == |advantages|)
    ensures loss == Failure(NoTrajectory) <==> |current| == |recorded| == |advantages| == 0
    ensures loss == Failure(UnmatchedTrajectory) <==>
            |current| == |recorded| == |advantages| && !Matched(current, recorded)
    ensures loss.Failure? ==> loss.error in {DifferentLengths, NoTrajectory, UnmatchedTrajectory}
    ensures loss.Success? ==> loss.value == ReferenceLoss(exp, epsilon, current, recorded, advantages)
    ensures loss.Success? && epsilon >= 0.0 && NoneNegative(advantages) ==>
              loss.value >= -((1.0 + epsilon) * Total(advantages) / |current| as real)
  {
    if !(|current| == |recorded| == |advantages|) { return Failure(DifferentLengths); }
    if current == [] { return Failure(NoTrajectory); }
    var objectives: seq<real> := [];
    for t := 0 to |current|
      invariant |objectives| == t && Matched(current[..t], recorded[..t])
      invariant Total(objectives) == SumOfMeans(exp, epsilon, current[..t], recorded[..t], advantages[..t])
    {
      if |current[t]| != |recorded[t]| || current[t] == [] { return Failure(UnmatchedTrajectory); }
      var sum := SumOneByOne(exp, epsilon, advantages[t], current[t], recorded[t]);
      OneMoreMean(exp, epsilon, current, recorded, advantages, t);
      TotalGrows(objectives, sum / |current[t]| as real);
      objectives := objectives + [sum / |current[t]| as real];
    }
    assert current[..|current|] == current && recorded[..|recorded|] == recorded;
    assert advantages[..|advantages|] == advantages;
    loss := Success(-(Total(objectives) / |current| as real));
    if epsilon >= 0.0 && NoneNegative(advantages) { LossIsBounded(exp, epsilon, current, recorded, advantages); }
  }

  method SumOneByOne(exp: real -> real, epsilon: real, advantage: real, current: seq<real>, recorded: seq<real>)
    returns (sum: real)
    requires |current| == |recorded|
    ensures sum == SurrogateSum(exp, epsilon, advantage, current, recorded)
  {
    sum := 0.0;
    for k := 0 to |current|
      invariant sum == SurrogateSum(exp, epsilon, advantage, current[..k], recorded[..k])
    {
      assert current[..k + 1][..k] == current[..k] && recorded[..k + 1][..k] == recorded[..k];
      sum := sum + Surrogate(exp, epsilon, advantage, current[k], recorded[k]);
    }
    assert current[..|current|] == current && recorded[..|current|] == recorded;
  }

  lemma OneMoreMean(exp: real -> real, epsilon: real, current: seq<seq<real>>, recorded: seq<seq<real>>,
                    advantages: seq<real>, t: nat)
    requires t < |current| == |recorded| == |advantages|
    requires Matched(current[..t], recorded[..t]) && |current[t]| == |recorded[t]| > 0
    ensures Matched(current[..t + 1], recorded[..t + 1])
    ensures SumOfMeans(exp, epsilon, current[..t + 1], recorded[..t + 1], advantages[..t + 1]) ==
            SumOfMeans(exp, epsilon, current[..t], recorded[..t], advantages[..t])
            + SurrogateSum(exp, epsilon, advantages[t], current[t], recorded[t]) / |current[t]| as real
  {
    assert current[..t + 1][..t] == current[..t] && recorded[..t + 1][..t] == recorded[..t];
    assert advantages[..t + 1][..t] == advantages[..t];
  }

  lemma TotalGrows(s: seq<real>, x: real)
    ensures Total(s + [x]) == Total(s) + x
  {
  }

  function Total(s: seq<real>): real {
    if s == [] then 0.0 else Total(s[..|s| - 1]) + s[|s| - 1]
  }

  // ---------------------------------------------------------------- replaying decisions

  /** The log-probability of one decision, replayed on its own. */
  function Replay<X, V, P, R, D>(policy: Policy<X, V, P, R, D>, d: Decision<X, D>): Option<real>
    requires WellFormed(d.graph)
  {
    var encoding := EncodingOf(policy.model, d.graph);
    policy.logProbability(encoding.states, encoding.pooled, d.data)
  }

  predicate Replayable<X, D>(decisions: seq<Decision<X, D>>) {
    forall k :: 0 <= k < |decisions| ==> WellFormed(decisions[k].graph)
  }

  predicate AllReplayable<X, D>(records: seq<seq<Decision<X, D>>>) {
    forall t :: 0 <= t < |records| ==> Replayable(records[t])
  }

  /** Every recorded choice is still among the candidates. */
  predicate Available<X, V, P, R, D>(policy: Policy<X, V, P, R, D>, decisions: seq<Decision<X, D>>)
    requires Replayable(decisions)
  {
    forall k :: 0 <= k < |decisions| ==> Replay(policy, decisions[k]).Some?
  }

  function Currents<X, V, P, R, D>(policy: Policy<X, V, P, R, D>, decisions: seq<Decision<X, D>>): (r: seq<real>)
    requires Replayable(decisions) && Available(policy, decisions)
    ensures |r| == |decisions| && forall k :: 0 <= k < |r| ==> r[k] == Replay(policy, decisions[k]).value
  {
    seq(|decisions|, k requires 0 <= k < |decisions| => Replay(policy, decisions[k]).value)
  }

  function Recorded<X, D>(decisions: seq<Decision<X, D>>): (r: seq<real>)
    ensures |r| == |decisions| && forall k :: 0 <= k < |r| ==> r[k] == decisions[k].recorded
  {
    seq(|decisions|, k requires 0 <= k < |decisions| => decisions[k].recorded)
  }

  function Graphs<X, D>(decisions: seq<Decision<X, D>>): (r: seq<Graph<X>>)
    ensures |r| == |decisions| && forall k :: 0 <= k < |r| ==> r[k] == decisions[k].graph
  {
    seq(|decisions|, k requires 0 <= k < |decisions| => decisions[k].graph)
  }

  /** The log-probabilities of a batch, from one pass over all its graphs.  It fails exactly when
      a recorded choice is not available. */
  method ReplayBatch<X, V, P, R, D>(policy: Policy<X, V, P, R, D>, batch: seq<Decision<X, D>>)
    returns (current: Result<seq<real>, LossError>)
    requires Replayable(batch)
    ensures current.Success? <==> Available(policy, batch)
    ensures current.Success? ==> current.value == Currents(policy, batch)
    ensures current.Failure? ==> current.error == ChoiceNotAvailable
  {
    var encoded := EncodeBatch(policy.model, Graphs(batch));
    var result: seq<real> := [];
    for k := 0 to |batch|
      invariant |result| == k
      invariant forall m :: 0 <= m < k ==> Replay(policy, batch[m]) == Some(result[m])
    {
      var found := policy.logProbability(encoded[k].states, encoded[k].pooled, batch[k].data);
      assert found == Replay(policy, batch[k]);
      if found.None? { return Failure(ChoiceNotAvailable); }
      result := result + [found.value];
    }
    assert result == Currents(policy, batch);
    current := Success(result);
  }

  // ---------------------------------------------------------------- the loss in batches

  lemma {:induction false} SurrogateSumSplits(exp: real -> real, epsilon: real, advantage: real,
                                             a: seq<real>, ra: seq<real>, b: seq<real>, rb: seq<real>)
    requires |a| == |ra| && |b| == |rb|
    ensures SurrogateSum(exp, epsilon, advantage, a + b, ra + rb) ==
            SurrogateSum(exp, epsilon, advantage, a, ra) + SurrogateSum(exp, epsilon, advantage, b, rb)
  {
    if b == [] {
      assert a + b == a && ra + rb == ra;
    } else {
      var n := |b| - 1;
      assert (a + b)[..|a + b| - 1] == a + b[..n] && (ra + rb)[..|a + b| - 1] == ra + rb[..n];
      SurrogateSumSplits(exp, epsilon, advantage, a, ra, b[..n], rb[..n]);
    }
  }

  /** What the decisions contribute, each replayed on its own. */
  function ReplayedSum<X, V, P, R, D>(policy: Policy<X, V, P, R, D>, epsilon: real, advantage: real,
                                      decisions: seq<Decision<X, D>>): real
    requires Replayable(decisions) && Available(policy, decisions)
  {
    SurrogateSum(policy.exp, epsilon, advantage, Currents(policy, decisions), Recorded(decisions))
  }

  lemma ReplayedSumSplits<X, V, P, R, D>(policy: Policy<X, V, P, R, D>, epsilon: real, advantage: real,
                                         a: seq<Decision<X, D>>, b: seq<Decision<X, D>>)
    requires Replayable(a) && Replayable(b) && Available(policy, a) && Available(policy, b)
    ensures Replayable(a + b) && Available(policy, a + b)
    ensures ReplayedSum(policy, epsilon, advantage, a + b) ==
            ReplayedSum(policy, epsilon, advantage, a) + ReplayedSum(policy, epsilon, advantage, b)
  {
    assert Currents(policy, a + b) == Currents(policy, a) + Currents(policy, b);
    assert Recorded(a + b) == Recorded(a) + Recorded(b);
    SurrogateSumSplits(policy.exp, epsilon, advantage,
                       Currents(policy, a), Recorded(a), Currents(policy, b), Recorded(b));
  }

  /** One decision more in a trajectory adds its clipped contribution, for the log-probability it
      has when replayed alone and the one it was recorded with. */
  lemma OneMoreReplayed<X, V, P, R, D>(policy: Policy<X, V, P, R, D>, epsilon: real, advantage: real,
                                       decisions: seq<Decision<X, D>>, d: Decision<X, D>)
    requires Replayable(decisions) && Available(policy, decisions) && WellFormed(d.graph) && Replay(policy, d).Some?
    ensures Replayable(decisions + [d]) && Available(policy, decisions + [d])
    ensures ReplayedSum(policy, epsilon, advantage, decisions + [d])
            == ReplayedSum(policy, epsilon, advantage, decisions)
               + Clipped(policy.exp(Replay(policy, d).value - d.recorded), epsilon, advantage)
  {
    hide Clipped;
    var more := decisions + [d];
    assert Currents(policy, more)[..|decisions|] == Currents(policy, decisions);
    assert Recorded(more)[..|decisions|] == Recorded(decisions);
  }

  /** One trajectory's share, batch by batch. */
  method TrajectoryLoss<X, V, P, R, D>(policy: Policy<X, V, P, R, D>, epsilon: real, advantage: real,
                                       decisions: seq<Decision<X, D>>, scale: real, microbatch: nat)
    returns (loss: Result<real, LossError>)
    requires Replayable(decisions) && microbatch > 0
    ensures loss.Success? <==> Available(policy, decisions)
    ensures loss.Success? ==> loss.value == -(ReplayedSum(policy, epsilon, advantage, decisions) * scale)
    ensures loss.Failure? ==> loss.error == ChoiceNotAvailable
  {
    hide Replay, SurrogateSum, ReplayedSum;
    NothingReplayed(policy, epsilon, advantage);
    assert decisions[..0] == [];
    var total := 0.0;
    var start := 0;
    while start < |decisions|
      invariant 0 <= start <= |decisions| && Available(policy, decisions[..start])
      invariant total == -(ReplayedSum(policy, epsilon, advantage, decisions[..start]) * scale)
    {
      var end := if start + microbatch < |decisions| then start + microbatch else |decisions|;
      var batch := decisions[start..end];
      var current := ReplayBatch(policy, batch);
      if current.Failure? {
        AvailableBatch(policy, decisions, start, end);
        return Failure(current.error);
      }
      var sum := SumOneByOne(policy.exp, epsilon, advantage, current.value, Recorded(batch));
      BatchIsReplayed(policy, epsilon, advantage, batch);
      assert decisions[..end] == decisions[..start] + batch;
      ReplayedSumSplits(policy, epsilon, advantage, decisions[..start], batch);
      Distributes(ReplayedSum(policy, epsilon, advantage, decisions[..start]), sum, scale);
      total := total + -(sum * scale);
      start := end;
    }
    assert decisions[..|decisions|] == decisions;
    loss := Success(total);
  }

  lemma NothingReplayed<X, V, P, R, D>(policy: Policy<X, V, P, R, D>, epsilon: real, advantage: real)
    ensures ReplayedSum<X, V, P, R, D>(policy, epsilon, advantage, []) == 0.0
  {
  }

  lemma BatchIsReplayed<X, V, P, R, D>(policy: Policy<X, V, P, R, D>, epsilon: real, advantage: real,
                                       batch: seq<Decision<X, D>>)
    requires Replayable(batch) && Available(policy, batch)
    ensures SurrogateSum(policy.exp, epsilon, advantage, Currents(policy, batch), Recorded(batch)) ==
            ReplayedSum(policy, epsilon, advantage, batch)
  {
  }

  lemma AvailableBatch<X, V, P, R, D>(policy: Policy<X, V, P, R, D>, decisions: seq<Decision<X, D>>,
                                      start: nat, end: nat)
    requires Replayable(decisions) && start <= end <= |decisions| && !Available(policy, decisions[start..end])
    ensures !Available(policy, decisions)
  {
    var k :| 0 <= k < end - start && Replay(policy, decisions[start..end][k]).None?;
    assert Replay(policy, decisions[start + k]).None?;
  }

  lemma Distributes(a: real, b: real, c: real)
    ensures (a + b) * c == a * c + b * c
  {
  }

  lemma ScaleIsMeanOfMean(sum: real, trajectories: real, decisions: real)
    requires trajectories > 0.0 && decisions > 0.0
    ensures trajectories * decisions > 0.0
    ensures sum * (1.0 / (trajectories * decisions)) == (sum / decisions) / trajectories
  {
    var scale := 1.0 / (trajectories * decisions);
    var mean := sum / decisions;
    assert trajectories * decisions > 0.0;
    assert scale * (trajectories * decisions) == 1.0;
    assert sum == mean * decisions;
    calc {
      sum * scale * trajectories;
      mean * decisions * scale * trajectories;
      mean * (scale * (trajectories * decisions));
      mean;
    }
  }

  lemma DividesApart(a: real, b: real, c: real)
    requires c > 0.0
    ensures (a + b) / c == a / c + b / c
  {
  }

  // ---------------------------------------------------------------- all trajectories

  /** The trajectory contributes to the loss. */
  predicate Usable<X, V, P, R, D>(policy: Policy<X, V, P, R, D>, decisions: seq<Decision<X, D>>)
    requires Replayable(decisions)
  {
    decisions != [] && Available(policy, decisions)
  }

  function AllCurrents<X, V, P, R, D>(policy: Policy<X, V, P, R, D>, records: seq<seq<Decision<X, D>>>)
    : (r: seq<seq<real>>)
    requires AllReplayable(records) && forall t :: 0 <= t < |records| ==> Usable(policy, records[t])
    ensures |r| == |records|
    ensures forall t :: 0 <= t < |r| ==> Usable(policy, records[t]) && r[t] == Currents(policy, records[t])
  {
    seq(|records|, t requires 0 <= t < |records| => assert Usable(policy, records[t]); Currents(policy, records[t]))
  }

  function AllRecorded<X, D>(records: seq<seq<Decision<X, D>>>): (r: seq<seq<real>>)
    ensures |r| == |records| && forall t :: 0 <= t < |r| ==> r[t] == Recorded(records[t])
  {
    seq(|records|, t requires 0 <= t < |records| => Recorded(records[t]))
  }

  /** The loss as defined, of the decisions replayed one at a time. */
  function LossOf<X, V, P, R, D>(policy: Policy<X, V, P, R, D>, epsilon: real, records: seq<seq<Decision<X, D>>>,
                                 advantages: seq<real>): real
    requires AllReplayable(records) && |records| == |advantages| > 0
    requires forall t :: 0 <= t < |records| ==> Usable(policy, records[t])
  {
    ReferenceLoss(policy.exp, epsilon, AllCurrents(policy, records), AllRecorded(records), advantages)
  }

  /** Up to trajectory t, before the sign and the division by the number of trajectories. */
  function MeansUpTo<X, V, P, R, D>(policy: Policy<X, V, P, R, D>, epsilon: real, records: seq<seq<Decision<X, D>>>,
                                    advantages: seq<real>, t: nat): real
    requires AllReplayable(records) && t <= |records| == |advantages|
    requires forall u :: 0 <= u < t ==> Usable(policy, records[u])
  {
    SumOfMeans(policy.exp, epsilon, AllCurrents(policy, records[..t]), AllRecorded(records[..t]), advantages[..t])
  }

  lemma MeansGrow<X, V, P, R, D>(policy: Policy<X, V, P, R, D>, epsilon: real, records: seq<seq<Decision<X, D>>>,
                                 advantages: seq<real>, t: nat)
    requires AllReplayable(records) && t < |records| == |advantages|
    requires forall u :: 0 <= u <= t ==> Usable(policy, records[u])
    ensures MeansUpTo(policy, epsilon, records, advantages, t + 1) ==
            MeansUpTo(policy, epsilon, records, advantages, t)
            + ReplayedSum(policy, epsilon, advantages[t], records[t]) / |records[t]| as real
  {
    var current, recorded := AllCurrents(policy, records[..t + 1]), AllRecorded(records[..t + 1]);
    assert current[..t] == AllCurrents(policy, records[..t]) && recorded[..t] == AllRecorded(records[..t]);
    assert current[..t + 1] == current && recorded[..t + 1] == recorded;
    assert advantages[..t + 1][..t] == advantages[..t] && advantages[..t + 1][..t + 1] == advantages[..t + 1];
    OneMoreMean(policy.exp, epsilon, current, recorded, advantages[..t + 1], t);
  }

  lemma MeansInTheEnd<X, V, P, R, D>(policy: Policy<X, V, P, R, D>, epsilon: real, records: seq<seq<Decision<X, D>>>,
                                     advantages: seq<real>)
    requires AllReplayable(records) && |records| == |advantages| > 0
    requires forall t :: 0 <= t < |records| ==> Usable(policy, records[t])
    ensures LossOf(policy, epsilon, records, advantages)
            == -(MeansUpTo(policy, epsilon, records, advantages, |records|) / |records| as real)
  {
    assert records[..|records|] == records && advantages[..|records|] == advantages;
  }

  lemma NoMeans<X, V, P, R, D>(policy: Policy<X, V, P, R, D>, epsilon: real, records: seq<seq<Decision<X, D>>>,
                               advantages: seq<real>)
    requires AllReplayable(records) && |records| == |advantages|
    ensures MeansUpTo(policy, epsilon, records, advantages, 0) == 0.0
  {
  }

  lemma ReplayedLossIsBounded<X, V, P, R, D>(policy: Policy<X, V, P, R, D>, epsilon: real,
                                             records: seq<seq<Decision<X, D>>>, advantages: seq<real>)
    requires AllReplayable(records) && |records| == |advantages| > 0 && epsilon >= 0.0 && NoneNegative(advantages)
    requires forall t :: 0 <= t < |records| ==> Usable(policy, records[t])
    ensures LossOf(policy, epsilon, records, advantages)
            >= -((1.0 + epsilon) * Total(advantages) / |records| as real)
  {
    LossIsBounded(policy.exp, epsilon, AllCurrents(policy, records), AllRecorded(records), advantages);
  }

  predicate FirstUnusable<X, V, P, R, D>(policy: Policy<X, V, P, R, D>, records: seq<seq<Decision<X, D>>>, t: nat,
                                         error: LossError)
    requires AllReplayable(records) && t < |records|
  {
    && !Usable(policy, records[t]) && (forall u :: 0 <= u < t ==> Usable(policy, records[u]))
    && error == if records[t] == [] then EmptyTrajectory else ChoiceNotAvailable
  }

  /** Whatever the batch size, the accumulated loss is the loss as defined, of the decisions
      replayed one at a time; it fails exactly when a trajectory has no decision or a choice
      that is not available, and says which came first. */
  method AccumulatedLoss<X, V, P, R, D>(policy: Policy<X, V, P, R, D>, epsilon: real, records: seq<seq<Decision<X, D>>>,
                                        advantages: seq<real>, microbatch: nat)
    returns (loss: Result<real, LossError>)
    requires AllReplayable(records) && |records| == |advantages| > 0 && microbatch > 0
    ensures loss.Success? <==> forall t :: 0 <= t < |records| ==> Usable(policy, records[t])
    ensures loss.Success? ==> loss.value == LossOf(policy, epsilon, records, advantages)
    ensures loss.Success? && epsilon >= 0.0 && NoneNegative(advantages) ==>
              loss.value >= -((1.0 + epsilon) * Total(advantages) / |records| as real)
    ensures loss.Failure? ==> exists t :: 0 <= t < |records| && FirstUnusable(policy, records, t, loss.error)
  {
    hide MeansUpTo, LossOf, ReplayedSum, Available, SurrogateSum, SumOfMeans;
    var total := 0.0;
    var count := |records| as real;
    NoMeans(policy, epsilon, records, advantages);
    for t := 0 to |records|
      invariant forall u :: 0 <= u < t ==> Usable(policy, records[u])
      invariant total == -(MeansUpTo(policy, epsilon, records, advantages, t) / count)
    {
      if records[t] == [] {
        assert FirstUnusable(policy, records, t, EmptyTrajectory);
        return Failure(EmptyTrajectory);
      }
      var decisions := |records[t]| as real;
      var part := TrajectoryLoss(policy, epsilon, advantages[t], records[t], 1.0 / (count * decisions), microbatch);
      if part.Failure? {
        assert FirstUnusable(policy, records, t, part.error);
        return Failure(part.error);
      }
      ghost var sum := ReplayedSum(policy, epsilon, advantages[t], records[t]);
      ScaleIsMeanOfMean(sum, count, decisions);
      MeansGrow(policy, epsilon, records, advantages, t);
      DividesApart(MeansUpTo(policy, epsilon, records, advantages, t), sum / decisions, count);
      total := total + part.value;
    }
    MeansInTheEnd(policy, epsilon, records, advantages);
    loss := Success(total);
    if epsilon >= 0.0 && NoneNegative(advantages) { ReplayedLossIsBounded(policy, epsilon, records, advantages); }
  }
}

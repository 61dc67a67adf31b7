/**
 Collecting groups of eight rollouts and updating the model, across crashes and resumes.  The
 trajectory log and the model file survive a crash; everything else is rebuilt from them.
 */
module OnPolicyTraining {
  import opened Wrappers
  import Counting

  const GROUP_SIZE: nat := 8

  /** A domain, a task and an epoch. */
  type Group = string

  /** What a program run fixes for a group through its arguments: the seed of the environment,
      the exploration envelope and the run-time budget, here by number, and the hash of the
      initial history. */
  datatype Conditions = Conditions(environmentSeed: int, envelope: nat, budget: nat, snapshot: string)

  /** One line of the log; decisions counts the recorded decisions of the policy. */
  datatype Rollout = Rollout(group: Group, index: nat, attempt: nat, conditions: Conditions, seed: int,
                             accepted: bool, decisions: nat, utility: real)

  /** applied lists the groups whose gradient step is in the saved weights, oldest first. */
  datatype Checkpoint = Checkpoint(updated: set<Group>, applied: seq<Group>, groups: nat, steps: nat, zeroVariance: nat)

  // ---------------------------------------------------------------- reading the log

  predicate InSlot(r: Rollout, g: Group, i: nat) { r.group == g && r.index == i }

  /** How often a slot was tried. */
  function Attempts(log: seq<Rollout>, g: Group, i: nat): nat {
    if log == [] then 0
    else Attempts(log[..|log| - 1], g, i) + if InSlot(log[|log| - 1], g, i) then 1 else 0
  }

  /** The accepted rollouts of a group, in log order. */
  function AcceptedOf(log: seq<Rollout>, g: Group): seq<Rollout> {
    if log == [] then []
    else
      var last := log[|log| - 1];
      AcceptedOf(log[..|log| - 1], g) + if last.group == g && last.accepted then [last] else []
  }

  predicate HasAccepted(log: seq<Rollout>, g: Group, i: nat) {
    exists k :: 0 <= k < |log| && InSlot(log[k], g, i) && log[k].accepted
  }

  function SeedOf(base: int, index: nat, attempt: nat): int {
    base + index + 1 + attempt * GROUP_SIZE
  }

  // ---------------------------------------------------------------- what the files satisfy

  /** A record carries the next attempt number of its slot and the seed that belongs to it.
      Only a run that the policy chose to stop is accepted, so it has a decision. */
  predicate RecordOk(log: seq<Rollout>, k: nat)
    requires k < |log|
  {
    && log[k].index < GROUP_SIZE
    && log[k].attempt == Attempts(log[..k], log[k].group, log[k].index)
    && log[k].seed == SeedOf(log[k].conditions.environmentSeed, log[k].index, log[k].attempt)
    && (log[k].accepted ==> log[k].decisions > 0)
  }

  predicate SameConditions(records: seq<Rollout>) {
    forall a, b :: 0 <= a < b < |records| ==> records[a].conditions == records[b].conditions
  }

  /** Besides, nothing is tried again in a slot that has been filled. */
  ghost predicate LogOk(log: seq<Rollout>) {
    && (forall k :: 0 <= k < |log| ==> RecordOk(log, k))
    && (forall j, k :: 0 <= j < k < |log| && InSlot(log[k], log[j].group, log[j].index) ==> !log[j].accepted)
  }

  /** The groups in the weights are the marked ones whose utilities differ, each once; a marked
      group is complete in the log and was collected under one set of conditions; the counters
      agree. */
  ghost predicate ModelOk(log: seq<Rollout>, m: Checkpoint) {
    && (forall i, j :: 0 <= i < j < |m.applied| ==> m.applied[i] != m.applied[j])
    && (forall g :: g in m.applied <==> g in m.updated && Varied(AcceptedOf(log, g)))
    && (forall g :: g in m.updated ==> |AcceptedOf(log, g)| == GROUP_SIZE && SameConditions(AcceptedOf(log, g)))
    && m.steps == |m.applied| && m.groups == |m.updated| && m.groups == m.steps + m.zeroVariance
  }

  ghost predicate FilesOk(log: Option<seq<Rollout>>, model: Option<Checkpoint>) {
    && LogOk(Lines(log))
    && (log.Some? ==> model.Some?)
    && (model.Some? ==> ModelOk(Lines(log), model.value))
  }

  function Lines(log: Option<seq<Rollout>>): seq<Rollout> { if log.Some? then log.value else [] }

  // ---------------------------------------------------------------- seeds and slots

  lemma {:induction false} AttemptsGrow(log: seq<Rollout>, j: nat, k: nat, g: Group, i: nat)
    requires j <= k <= |log|
    ensures Attempts(log[..j], g, i) <= Attempts(log[..k], g, i)
    ensures j < k && InSlot(log[j], g, i) ==> Attempts(log[..j], g, i) < Attempts(log[..k], g, i)
    decreases k
  {
    if j < k {
      assert log[..k][..k - 1] == log[..k - 1];
      AttemptsGrow(log, j, k - 1, g, i);
    }
  }

  /** Counts the slots of a group attempt by attempt: eight for the first ones, then eight more. */
  function SlotNumber(r: Rollout): nat { r.attempt * GROUP_SIZE + r.index }

  /** Two records of a group have different slot numbers, so their organization seeds are equal
      exactly when their environment seeds differ by as much the other way round: never for one
      environment seed. */
  lemma SeedsNeverRepeat(log: seq<Rollout>, j: nat, k: nat)
    requires LogOk(log) && j < k < |log| && log[j].group == log[k].group
    ensures SlotNumber(log[j]) != SlotNumber(log[k])
    ensures log[k].seed == log[k].conditions.environmentSeed + 1 + SlotNumber(log[k])
    ensures log[j].seed == log[k].seed <==>
              log[j].conditions.environmentSeed - log[k].conditions.environmentSeed
              == SlotNumber(log[k]) - SlotNumber(log[j])
    ensures log[j].conditions.environmentSeed == log[k].conditions.environmentSeed ==> log[j].seed != log[k].seed
  {
    assert RecordOk(log, j) && RecordOk(log, k);
    if log[j].index == log[k].index {
      AttemptsGrow(log, j, k, log[j].group, log[j].index);
    }
  }

  /** Seeds repeat after a resume with another seed: slot 0 is filled for the environment seed 10
      and slot 1 for the environment seed 9. */
  lemma ResumeWithOtherSeedRepeats(g: Group) returns (log: seq<Rollout>)
    ensures LogOk(log) && |log| == 2 && log[0].group == log[1].group == g && log[0].accepted && log[1].accepted
    ensures log[0].index == 0 && log[1].index == 1 && log[0].seed == log[1].seed
  {
    var first := Rollout(g, 0, 0, Conditions(10, 0, 0, ""), 11, true, 1, 0.0);
    var second := Rollout(g, 1, 0, Conditions(9, 0, 0, ""), 11, true, 1, 0.0);
    TwoFirstRecords(first, second);
    log := [first, second];
  }

  lemma TwoFirstRecords(a: Rollout, b: Rollout)
    requires a.attempt == b.attempt == 0 && a.index < GROUP_SIZE && b.index < GROUP_SIZE
    requires !InSlot(b, a.group, a.index) && a.decisions > 0 && b.decisions > 0
    requires a.seed == SeedOf(a.conditions.environmentSeed, a.index, 0)
    requires b.seed == SeedOf(b.conditions.environmentSeed, b.index, 0)
    ensures LogOk([a, b])
  {
    var log := [a, b];
    assert log[..0] == [] && log[..1] == [a] && [a][..0] == [];
    assert Attempts([a], b.group, b.index) == 0;
    assert RecordOk(log, 0) && RecordOk(log, 1);
  }

  lemma {:induction false} AcceptedComeFromSlots(log: seq<Rollout>, g: Group, a: nat)
    requires LogOk(log) && a < |AcceptedOf(log, g)|
    ensures AcceptedOf(log, g)[a].group == g && AcceptedOf(log, g)[a].accepted && AcceptedOf(log, g)[a].decisions > 0
    ensures AcceptedOf(log, g)[a] in log
    ensures AcceptedOf(log, g)[a].index < GROUP_SIZE && HasAccepted(log, g, AcceptedOf(log, g)[a].index)
    ensures forall b :: 0 <= b < a ==> AcceptedOf(log, g)[b].index != AcceptedOf(log, g)[a].index
  {
    var shorter := log[..|log| - 1];
    var last := log[|log| - 1];
    PrefixIsOk(log);
    assert RecordOk(log, |log| - 1);
    if a < |AcceptedOf(shorter, g)| {
      AcceptedComeFromSlots(shorter, g, a);
      var k :| 0 <= k < |shorter| && InSlot(shorter[k], g, AcceptedOf(log, g)[a].index) && shorter[k].accepted;
      assert log[k] == shorter[k];
    } else {
      forall b | 0 <= b < a ensures AcceptedOf(log, g)[b].index != last.index {
        AcceptedComeFromSlots(shorter, g, b);
        var k :| 0 <= k < |shorter| && InSlot(shorter[k], g, AcceptedOf(log, g)[b].index) && shorter[k].accepted;
        assert log[k] == shorter[k];
      }
    }
  }

  lemma PrefixIsOk(log: seq<Rollout>)
    requires LogOk(log) && log != []
    ensures LogOk(log[..|log| - 1])
  {
    var shorter := log[..|log| - 1];
    forall k | 0 <= k < |shorter| ensures RecordOk(shorter, k) {
      assert RecordOk(log, k);
      assert shorter[..k] == log[..k];
    }
  }

  lemma {:induction false} AcceptedAreFound(log: seq<Rollout>, g: Group, i: nat)
    requires HasAccepted(log, g, i)
    ensures exists a :: 0 <= a < |AcceptedOf(log, g)| && AcceptedOf(log, g)[a].index == i
  {
    var k :| 0 <= k < |log| && InSlot(log[k], g, i) && log[k].accepted;
    var shorter := log[..|log| - 1];
    if k < |shorter| {
      assert shorter[k] == log[k];
      AcceptedAreFound(shorter, g, i);
      var a :| 0 <= a < |AcceptedOf(shorter, g)| && AcceptedOf(shorter, g)[a].index == i;
      assert AcceptedOf(log, g)[a].index == i;
    } else {
      assert AcceptedOf(log, g)[|AcceptedOf(shorter, g)|].index == i;
    }
  }

  function Indices(records: seq<Rollout>): (r: seq<nat>)
    ensures |r| == |records| && forall k :: 0 <= k < |r| ==> r[k] == records[k].index
  {
    seq(|records|, k requires 0 <= k < |records| => records[k].index)
  }

  /** A group never has more than eight accepted rollouts, and eight of them are the rollouts
      numbered 0 to 7, each once. */
  lemma EightAreZeroToSeven(log: seq<Rollout>, g: Group)
    requires LogOk(log)
    ensures |AcceptedOf(log, g)| <= GROUP_SIZE
    ensures forall a, b :: 0 <= a < b < |AcceptedOf(log, g)| ==>
              AcceptedOf(log, g)[a].index != AcceptedOf(log, g)[b].index
    ensures |AcceptedOf(log, g)| == GROUP_SIZE ==>
              forall i :: 0 <= i < GROUP_SIZE ==> i in Indices(AcceptedOf(log, g))
    ensures |AcceptedOf(log, g)| == GROUP_SIZE <==> forall i :: 0 <= i < GROUP_SIZE ==> HasAccepted(log, g, i)
  {
    var accepted := AcceptedOf(log, g);
    forall a, b | 0 <= a < b < |accepted| ensures accepted[a].index != accepted[b].index {
      AcceptedComeFromSlots(log, g, b);
    }
    forall a | 0 <= a < |accepted| ensures accepted[a].index < GROUP_SIZE && HasAccepted(log, g, accepted[a].index) {
      AcceptedComeFromSlots(log, g, a);
    }
    Counting.NoneMissing(Indices(accepted), GROUP_SIZE);
    if forall i :: 0 <= i < GROUP_SIZE ==> HasAccepted(log, g, i) {
      forall i | 0 <= i < GROUP_SIZE ensures i in Indices(accepted) {
        AcceptedAreFound(log, g, i);
        var a :| 0 <= a < |accepted| && accepted[a].index == i;
        assert Indices(accepted)[a] == i;
      }
      AllPresentNeedsAll(Indices(accepted), GROUP_SIZE);
    } else if |accepted| == GROUP_SIZE {
      forall i | 0 <= i < GROUP_SIZE ensures HasAccepted(log, g, i) {
        assert i in Indices(accepted);
        var a :| 0 <= a < |accepted| && Indices(accepted)[a] == i;
      }
    }
  }

  lemma {:induction false} AllPresentNeedsAll(s: seq<nat>, n: nat)
    requires forall i :: 0 <= i < n ==> i in s
    ensures |s| >= n
  {
    if n > 0 {
      assert n - 1 in s;
      var at :| 0 <= at < |s| && s[at] == n - 1;
      var rest := s[..at] + s[at + 1..];
      forall i | 0 <= i < n - 1 ensures i in rest {
        assert i in s;
        var k :| 0 <= k < |s| && s[k] == i;
        assert rest[if k < at then k else k - 1] == i;
      }
      AllPresentNeedsAll(rest, n - 1);
    }
  }

  /** What files in order guarantee: a slot is filled at most once, seeds repeat in a group only
      where environment seeds make up for the distance of the slots, and a group that is in the
      weights is there once, has the rollouts 0 to 7, had one environment seed for all of them,
      and has utilities that differ; of the groups marked as updated those are missing there
      whose utilities do not. */
  lemma WhatTheFilesGuarantee(log: Option<seq<Rollout>>, model: Option<Checkpoint>, j: nat, k: nat)
    requires FilesOk(log, model) && j < k < |Lines(log)|
    ensures Lines(log)[j].group == Lines(log)[k].group ==>
              (Lines(log)[j].seed == Lines(log)[k].seed <==>
               Lines(log)[j].conditions.environmentSeed - Lines(log)[k].conditions.environmentSeed
               == SlotNumber(Lines(log)[k]) - SlotNumber(Lines(log)[j]) != 0)
    ensures InSlot(Lines(log)[k], Lines(log)[j].group, Lines(log)[j].index) ==>
              !(Lines(log)[j].accepted && Lines(log)[k].accepted)
    ensures model.Some? ==>
              forall a, b :: 0 <= a < b < |model.value.applied| ==> model.value.applied[a] != model.value.applied[b]
    ensures model.Some? ==> forall g :: g in model.value.applied ==> SameConditions(AcceptedOf(Lines(log), g))
    ensures model.Some? ==>
              forall g, i :: g in model.value.applied && 0 <= i < GROUP_SIZE ==> HasAccepted(Lines(log), g, i)
    ensures model.Some? ==>
              forall g :: g in model.value.applied <==> g in model.value.updated && Varied(AcceptedOf(Lines(log), g))
  {
    if Lines(log)[j].group == Lines(log)[k].group { SeedsNeverRepeat(Lines(log), j, k); }
    if model.Some? {
      forall g, i | g in model.value.applied && 0 <= i < GROUP_SIZE ensures HasAccepted(Lines(log), g, i) {
        EightAreZeroToSeven(Lines(log), g);
      }
    }
  }

  // ---------------------------------------------------------------- growing the log

  lemma AppendedLogOk(log: seq<Rollout>, r: Rollout)
    requires LogOk(log) && r.index < GROUP_SIZE && !HasAccepted(log, r.group, r.index)
    requires r.attempt == Attempts(log, r.group, r.index)
    requires r.seed == SeedOf(r.conditions.environmentSeed, r.index, r.attempt)
    requires r.accepted ==> r.decisions > 0
    ensures LogOk(log + [r])
  {
    var longer := log + [r];
    forall k | 0 <= k < |longer| ensures RecordOk(longer, k) {
      if k < |log| {
        assert RecordOk(log, k);
        assert longer[..k] == log[..k];
      } else {
        assert longer[..k] == log;
      }
    }
  }

  lemma NothingRead()
    ensures forall g :: AcceptedOf([], g) == []
    ensures forall g, i :: Attempts([], g, i) == 0
  {
  }

  lemma AppendedCounts(log: seq<Rollout>, r: Rollout, g: Group, i: nat)
    ensures Attempts(log + [r], g, i) == Attempts(log, g, i) + if InSlot(r, g, i) then 1 else 0
    ensures AcceptedOf(log + [r], g) == AcceptedOf(log, g) + if r.group == g && r.accepted then [r] else []
    ensures HasAccepted(log + [r], g, i) <==> HasAccepted(log, g, i) || (InSlot(r, g, i) && r.accepted)
  {
  }

  /** A group that is complete stays complete, so the model stays in step with a longer log. */
  lemma AppendKeepsModel(log: seq<Rollout>, r: Rollout, m: Checkpoint)
    requires LogOk(log) && ModelOk(log, m) && r.index < GROUP_SIZE && !HasAccepted(log, r.group, r.index)
    ensures ModelOk(log + [r], m)
  {
    forall g | g in m.updated ensures AcceptedOf(log + [r], g) == AcceptedOf(log, g) {
      AppendedCounts(log, r, g, r.index);
      EightAreZeroToSeven(log, g);
    }
  }

  lemma AppendKeepsFiles(log: Option<seq<Rollout>>, model: Option<Checkpoint>, r: Rollout)
    requires FilesOk(log, model) && model.Some? && r.index < GROUP_SIZE && !HasAccepted(Lines(log), r.group, r.index)
    requires r.attempt == Attempts(Lines(log), r.group, r.index)
    requires r.seed == SeedOf(r.conditions.environmentSeed, r.index, r.attempt) && (r.accepted ==> r.decisions > 0)
    ensures FilesOk(Some(Lines(log) + [r]), model)
  {
    AppendedLogOk(Lines(log), r);
    AppendKeepsModel(Lines(log), r, model.value);
  }

  // ---------------------------------------------------------------- the programs

  class Files {
    var log: Option<seq<Rollout>>
    var model: Option<Checkpoint>

    constructor ()
      ensures log == None && model == None
    {
      log, model := None, None;
    }
  }

  datatype StartError = ResumeNeedsBoth | LogExists | ModelExists | AttemptsNotPositive

  function Start(log: Option<seq<Rollout>>, model: Option<Checkpoint>, resume: bool): Result<(), StartError> {
    if resume && log.Some? != model.Some? then Failure(ResumeNeedsBoth)
    else if log.Some? && !resume then Failure(LogExists)
    else if model.Some? && !resume then Failure(ModelExists)
    else Success(())
  }

  /** A run starts exactly on both files or none, and on both only to resume.  The files left by a
      crash after the first save and before the first rollout let no run start again, with or
      without resume; any other files that can arise let one start. */
  lemma NothingStartsIff(log: Option<seq<Rollout>>, model: Option<Checkpoint>)
    requires FilesOk(log, model)
    ensures Start(log, model, true).Failure? && Start(log, model, false).Failure? <==> model.Some? && log.None?
    ensures forall resume :: Start(log, model, resume).Success? <==> log.Some? == model.Some? && (log.Some? ==> resume)
  {
  }

  /** What a refused start is told, whatever the files. */
  lemma WhyNotStarted(log: Option<seq<Rollout>>, model: Option<Checkpoint>)
    ensures Start(log, model, true) == if log.Some? == model.Some? then Success(()) else Failure(ResumeNeedsBoth)
    ensures log.Some? ==> Start(log, model, false) == Failure(LogExists)
    ensures log.None? && model.Some? ==> Start(log, model, false) == Failure(ModelExists)
    ensures log.None? && model.None? ==> Start(log, model, false) == Success(())
  {
  }

  const FRESH: Checkpoint := Checkpoint({}, [], 0, 0, 0)

  datatype UpdateError =
    | WrongSize
    | MixedGroups
    | AlreadyOptimized
    | Truncated
    | DifferentEnvelopes
    | WrongIndices
    | DifferentSeeds
    | DifferentSnapshots
    | DifferentBudgets
    | NoPolicyRecords

  /** Whether the utilities of a group differ enough to learn from: their variance is above the
      square of 1e-8. */
  predicate Varied(records: seq<Rollout>) {
    records != [] && Spread(records, Total(records) / |records| as real) / |records| as real > 0.0000000000000001
  }

  function Total(records: seq<Rollout>): real {
    if records == [] then 0.0 else Total(records[..|records| - 1]) + records[|records| - 1].utility
  }

  function Away(r: Rollout, mean: real): real { (r.utility - mean) * (r.utility - mean) }

  function Spread(records: seq<Rollout>, mean: real): real {
    if records == [] then 0.0
    else
      Spread(records[..|records| - 1], mean) + Away(records[|records| - 1], mean)
  }

  predicate Equal(records: seq<Rollout>) {
    forall k :: 0 <= k < |records| ==> records[k].utility == records[0].utility
  }

  lemma {:induction false} EqualHaveNoSpread(records: seq<Rollout>, u: real)
    requires forall k :: 0 <= k < |records| ==> records[k].utility == u
    ensures Total(records) == |records| as real * u && Spread(records, u) == 0.0
  {
    if records != [] { EqualHaveNoSpread(records[..|records| - 1], u); }
  }

  lemma {:induction false} SpreadCovers(records: seq<Rollout>, mean: real, a: nat, b: nat)
    requires a < b < |records|
    ensures Spread(records, mean) >= Away(records[a], mean) + Away(records[b], mean)
  {
    hide Away;
    var n := |records| - 1;
    AwayIsPositive(records[n], mean);
    if b < n { SpreadCovers(records[..n], mean, a, b); } else { SpreadCoversOne(records[..n], mean, a); }
  }

  lemma {:induction false} SpreadCoversOne(records: seq<Rollout>, mean: real, a: nat)
    requires a < |records|
    ensures Spread(records, mean) >= Away(records[a], mean)
  {
    hide Away;
    var n := |records| - 1;
    SpreadIsPositive(records[..n], mean);
    AwayIsPositive(records[n], mean);
    if a < n { SpreadCoversOne(records[..n], mean, a); }
  }

  lemma {:induction false} SpreadIsPositive(records: seq<Rollout>, mean: real)
    ensures Spread(records, mean) >= 0.0
  {
    hide Away;
    if records != [] {
      SpreadIsPositive(records[..|records| - 1], mean);
      AwayIsPositive(records[|records| - 1], mean);
    }
  }

  lemma AwayIsPositive(r: Rollout, mean: real)
    ensures Away(r, mean) >= 0.0
  {
    SquareIsPositive(r.utility - mean);
  }

  /** Eight equal utilities teach nothing, and two of eight that are more than 4e-8 apart do. */
  lemma DifferentUtilitiesVary(records: seq<Rollout>, a: nat, b: nat)
    requires |records| == GROUP_SIZE && a < b < GROUP_SIZE
    ensures Equal(records) ==> !Varied(records)
    ensures records[a].utility - records[b].utility > 0.00000004 ==> Varied(records)
    ensures records[b].utility - records[a].utility > 0.00000004 ==> Varied(records)
  {
    if Equal(records) { EqualHaveNoSpread(records, records[0].utility); }
    var mean := Total(records) / 8.0;
    SpreadCovers(records, mean, a, b);
    HalfTheSquare(records[a].utility - mean, records[b].utility - mean);
    if records[a].utility - records[b].utility > 0.00000004 {
      SquaresGrow(0.00000004, records[a].utility - records[b].utility);
    } else if records[b].utility - records[a].utility > 0.00000004 {
      SquaresGrow(0.00000004, records[b].utility - records[a].utility);
    }
  }

  /** Every other utility lies h above the mean, the others h below. */
  predicate HalfAndHalf(records: seq<Rollout>, mean: real, h: real) {
    && |records| == GROUP_SIZE
    && forall k :: 0 <= k < |records| ==> records[k].utility == if k % 2 == 0 then mean + h else mean - h
  }

  lemma {:induction false} HalvesSum(records: seq<Rollout>, mean: real, h: real)
    requires forall k :: 0 <= k < |records| ==> records[k].utility == if k % 2 == 0 then mean + h else mean - h
    ensures Total(records) == |records| as real * mean + if |records| % 2 == 1 then h else 0.0
    ensures Spread(records, mean) == |records| as real * (h * h)
  {
    if records != [] {
      HalvesSum(records[..|records| - 1], mean, h);
      assert (-h) * (-h) == h * h;
    }
  }

  /** The threshold: utilities that lie h above and h below their mean, four and four, vary exactly
      when h is more than 1e-8. */
  lemma ThresholdIsExact(records: seq<Rollout>, mean: real, h: real)
    requires h >= 0.0 && HalfAndHalf(records, mean, h)
    ensures Varied(records) <==> h > 0.00000001
  {
    HalvesSum(records, mean, h);
    if h > 0.00000001 { SquaresGrow(0.00000001, h); }
    if h < 0.00000001 { SquaresGrow(h, 0.00000001); }
  }

  lemma HalfTheSquare(x: real, y: real)
    ensures 2.0 * (x * x + y * y) >= (x - y) * (x - y) == (y - x) * (y - x)
  {
    SquareIsPositive(x + y);
  }

  lemma SquareIsPositive(x: real)
    ensures x * x >= 0.0
  {
    if x < 0.0 { assert x * x == (-x) * (-x); }
  }

  lemma SquaresGrow(x: real, y: real)
    requires 0.0 <= x < y
    ensures x * x < y * y
  {
    var difference, sum := y - x, y + x;
    assert difference * sum > 0.0;
    assert difference * sum == y * y - x * x;
  }

  predicate Distinct(records: seq<Rollout>) {
    && (forall k :: 0 <= k < |records| ==> records[k].index < GROUP_SIZE)
    && (forall j, k :: 0 <= j < k < |records| ==> records[j].index != records[k].index)
  }

  /** The checks before an update, in their order; the last one is made only when there is
      something to learn. */
  function Rejects(records: seq<Rollout>, m: Checkpoint): Option<UpdateError> {
    if |records| != GROUP_SIZE then Some(WrongSize)
    else if exists k :: 0 <= k < |records| && records[k].group != records[0].group then Some(MixedGroups)
    else if records[0].group in m.updated then Some(AlreadyOptimized)
    else if exists k :: 0 <= k < |records| && !records[k].accepted then Some(Truncated)
    else if exists k :: 0 <= k < |records| && records[k].conditions.envelope != records[0].conditions.envelope then
      Some(DifferentEnvelopes)
    else if exists i :: 0 <= i < GROUP_SIZE && i !in Indices(records) then Some(WrongIndices)
    else if exists k :: 0 <= k < |records| && records[k].index >= GROUP_SIZE then Some(WrongIndices)
    else if exists k :: 0 <= k < |records|
                        && records[k].conditions.environmentSeed != records[0].conditions.environmentSeed then
      Some(DifferentSeeds)
    else if exists k :: 0 <= k < |records| && records[k].conditions.snapshot != records[0].conditions.snapshot then
      Some(DifferentSnapshots)
    else if exists k :: 0 <= k < |records| && records[k].conditions.budget != records[0].conditions.budget then
      Some(DifferentBudgets)
    else if Varied(records) && exists k :: 0 <= k < |records| && records[k].decisions == 0 then Some(NoPolicyRecords)
    else None
  }

  /** What the checks let through: eight accepted rollouts of one group that is not marked, with
      eight different indices and one set of conditions, and with decisions in each of them if
      there is something to learn. */
  lemma PassesIff(records: seq<Rollout>, m: Checkpoint)
    ensures Rejects(records, m) == None <==>
            && |records| == GROUP_SIZE && Distinct(records) && SameConditions(records)
            && records[0].group !in m.updated
            && (forall k :: 0 <= k < |records| ==> records[k].group == records[0].group && records[k].accepted)
            && (Varied(records) ==> forall k :: 0 <= k < |records| ==> records[k].decisions > 0)
  {
    hide Varied;
    if Rejects(records, m) == None {
      ConditionsAgree(records);
      forall j, k | 0 <= j < k < |records| ensures records[j].index != records[k].index {
        if records[j].index == records[k].index { AllPresentAreDistinct(Indices(records), GROUP_SIZE, j, k); }
      }
    } else if |records| == GROUP_SIZE && Distinct(records) {
      Counting.NoneMissing(Indices(records), GROUP_SIZE);
      assert forall k :: 0 < k < |records| && SameConditions(records) ==>
                           records[k].conditions == records[0].conditions;
    }
  }

  /** Which error wins when several checks fail: size, group, mark and truncation come before the
      envelope, that before the indices, and these before seed, snapshot and budget. */
  lemma WhichErrorWins(records: seq<Rollout>, m: Checkpoint, k: nat)
    requires |records| == GROUP_SIZE && 0 < k < GROUP_SIZE
    ensures records[k].group != records[0].group ==> Rejects(records, m) == Some(MixedGroups)
    ensures (forall j :: 0 <= j < GROUP_SIZE ==> records[j].group == records[0].group) ==>
              && (records[0].group in m.updated ==> Rejects(records, m) == Some(AlreadyOptimized))
              && (records[0].group !in m.updated && !records[k].accepted ==> Rejects(records, m) == Some(Truncated))
              && (records[0].group !in m.updated && (forall j :: 0 <= j < GROUP_SIZE ==> records[j].accepted) ==>
                    ErrorOfGroup(records, m, k))
  {
  }

  predicate ErrorOfGroup(records: seq<Rollout>, m: Checkpoint, k: nat)
    requires k < |records|
  {
    var a, b, error := records[0].conditions, records[k].conditions, Rejects(records, m);
    && (a.envelope != b.envelope ==> error == Some(DifferentEnvelopes))
    && (error == Some(WrongIndices) ==> a.envelope == b.envelope)
    && (a.environmentSeed != b.environmentSeed ==>
          error in {Some(DifferentEnvelopes), Some(WrongIndices), Some(DifferentSeeds)})
    && (error == Some(DifferentSnapshots) ==> a.environmentSeed == b.environmentSeed)
    && (error == Some(DifferentBudgets) ==> a.environmentSeed == b.environmentSeed && a.snapshot == b.snapshot)
  }

  lemma ConditionsAgree(records: seq<Rollout>)
    requires records != []
    requires forall k :: 0 <= k < |records| ==>
               && records[k].conditions.environmentSeed == records[0].conditions.environmentSeed
               && records[k].conditions.envelope == records[0].conditions.envelope
               && records[k].conditions.budget == records[0].conditions.budget
               && records[k].conditions.snapshot == records[0].conditions.snapshot
    ensures SameConditions(records)
  {
    forall a | 0 <= a < |records| ensures records[a].conditions == records[0].conditions {
      var c := records[a].conditions;
      assert c == Conditions(c.environmentSeed, c.envelope, c.budget, c.snapshot);
    }
  }

  lemma AllPresentAreDistinct(s: seq<nat>, n: nat, j: nat, k: nat)
    requires |s| == n && j < k < n && s[j] == s[k]
    ensures exists i :: 0 <= i < n && i !in s
  {
    if forall i :: 0 <= i < n ==> i in s {
      var rest := s[..k] + s[k + 1..];
      forall i | 0 <= i < n ensures i in rest {
        assert i in s;
        var at :| 0 <= at < |s| && s[at] == i;
        assert rest[if at == k then j else if at < k then at else at - 1] == i;
      }
      AllPresentNeedsAll(rest, n);
    }
  }

  /** The eight accepted rollouts of a group that is not marked pass every check if and only if
      they were collected under one set of conditions. */
  lemma CompleteGroupPassesIff(log: seq<Rollout>, g: Group, m: Checkpoint)
    requires LogOk(log) && |AcceptedOf(log, g)| == GROUP_SIZE && g !in m.updated
    ensures Rejects(AcceptedOf(log, g), m) == None <==> SameConditions(AcceptedOf(log, g))
  {
    var records := AcceptedOf(log, g);
    EightAreZeroToSeven(log, g);
    forall a | 0 <= a < GROUP_SIZE
      ensures records[a].group == g && records[a].accepted && records[a].index < GROUP_SIZE && records[a].decisions > 0
    {
      AcceptedComeFromSlots(log, g, a);
    }
    PassesIff(records, m);
  }

  /** A group completed under mixed conditions is rejected now and after every longer log: no
      run tries its slots again. */
  lemma MixedGroupStaysRejected(log: seq<Rollout>, r: Rollout, g: Group, m: Checkpoint)
    requires LogOk(log) && |AcceptedOf(log, g)| == GROUP_SIZE && g !in m.updated
    requires !SameConditions(AcceptedOf(log, g))
    requires r.index < GROUP_SIZE && !HasAccepted(log, r.group, r.index)
    ensures AcceptedOf(log + [r], g) == AcceptedOf(log, g) && Rejects(AcceptedOf(log + [r], g), m) != None
  {
    CompleteGroupPassesIff(log, g, m);
    AppendedCounts(log, r, g, r.index);
    EightAreZeroToSeven(log, g);
  }

  /** The model after a group, whose rollouts either differ in utility or do not. */
  function Updated(m: Checkpoint, g: Group, varied: bool): Checkpoint {
    if varied then Checkpoint(m.updated + {g}, m.applied + [g], m.groups + 1, m.steps + 1, m.zeroVariance)
    else Checkpoint(m.updated + {g}, m.applied, m.groups + 1, m.steps, m.zeroVariance + 1)
  }

  lemma UpdateKeepsModel(log: seq<Rollout>, m: Checkpoint, g: Group, varied: bool)
    requires ModelOk(log, m) && g !in m.updated && varied == Varied(AcceptedOf(log, g))
    requires |AcceptedOf(log, g)| == GROUP_SIZE && SameConditions(AcceptedOf(log, g))
    ensures ModelOk(log, Updated(m, g, varied))
  {
  }

  /** The trainer's copy of the model in memory. */
  class Trainer {
    var memory: Checkpoint

    constructor (files: Files, resume: bool)
      ensures memory == if resume && files.model.Some? then files.model.value else FRESH
    {
      memory := if resume && files.model.Some? then files.model.value else FRESH;
    }

    method Save(files: Files)
      modifies files`model
      ensures files.model == Some(memory)
    {
      files.model := Some(memory);
    }

    /** Learns from one group and saves.  It may die before the save is done, and then r holds
        false. */
    method UpdateGroup(files: Files, records: seq<Rollout>) returns (r: Result<bool, UpdateError>)
      modifies this, files`model
      ensures r.Failure? <==> Rejects(records, old(memory)).Some?
      ensures r.Failure? ==>
                && r.error == Rejects(records, old(memory)).value
                && memory == old(memory) && files.model == old(files.model)
      ensures r.Success? ==> records != [] && memory == Updated(old(memory), records[0].group, Varied(records))
      ensures r.Success? ==> files.model == if r.value then Some(memory) else old(files.model)
    {
      var problem := Rejects(records, memory);
      if problem.Some? { return Failure(problem.value); }
      memory := Updated(memory, records[0].group, Varied(records));
      if * { return Success(false); }
      Save(files);
      r := Success(true);
    }
  }

  class Run {
    const conditions: Group -> Conditions
    const files: Files
    const trainer: Trainer
    var byGroup: map<Group, seq<Rollout>>
    var attemptsBySlot: map<(Group, nat), nat>

    function Records(g: Group): seq<Rollout>
      reads this
    {
      if g in byGroup then byGroup[g] else []
    }

    function Tried(g: Group, i: nat): nat
      reads this
    {
      if (g, i) in attemptsBySlot then attemptsBySlot[(g, i)] else 0
    }

    /** The files are in order and the memory is what they say. */
    ghost predicate Valid()
      reads this, files, trainer
    {
      && FilesOk(files.log, files.model)
      && files.model == Some(trainer.memory)
      && Mirrors(Lines(files.log))
    }

    ghost predicate Mirrors(log: seq<Rollout>)
      reads this
    {
      && (forall g :: Records(g) == AcceptedOf(log, g))
      && (forall g, i :: Tried(g, i) == Attempts(log, g, i))
    }

    constructor (conditions: Group -> Conditions, files: Files, trainer: Trainer)
      ensures this.conditions == conditions && this.files == files && this.trainer == trainer
      ensures byGroup == map[] && attemptsBySlot == map[]
    {
      this.conditions, this.files, this.trainer := conditions, files, trainer;
      byGroup, attemptsBySlot := map[], map[];
    }

    /** Takes one record into the tables. */
    method Count(r: Rollout, ghost log: seq<Rollout>)
      requires Mirrors(log)
      modifies this
      ensures Mirrors(log + [r])
    {
      hide Attempts, AcceptedOf, HasAccepted;
      attemptsBySlot := attemptsBySlot[(r.group, r.index) := Tried(r.group, r.index) + 1];
      if r.accepted { byGroup := byGroup[r.group := Records(r.group) + [r]]; }
      forall g ensures Records(g) == AcceptedOf(log + [r], g) { AppendedCounts(log, r, g, 0); }
      forall g, i: nat ensures Tried(g, i) == Attempts(log + [r], g, i) { AppendedCounts(log, r, g, i); }
    }

    method ReadLog()
      requires byGroup == map[] && attemptsBySlot == map[]
      modifies this
      ensures Mirrors(Lines(files.log))
    {
      hide Attempts, AcceptedOf;
      var lines := Lines(files.log);
      NothingRead();
      for k := 0 to |lines|
        invariant Mirrors(lines[..k])
      {
        assert lines[..k + 1] == lines[..k] + [lines[k]];
        Count(lines[k], lines[..k]);
      }
      assert lines[..|lines|] == lines;
    }

    /** Runs one rollout of a slot and appends it to the log.  False means that the process
        died; the record is in the log or it is not. */
    method Attempt(g: Group, i: nat) returns (alive: bool, accepted: bool)
      requires Valid() && i < GROUP_SIZE && !HasAccepted(Lines(files.log), g, i)
      modifies this, files`log
      ensures FilesOk(files.log, files.model)
      ensures Grown(conditions, old(files.log), files.log) && OthersKept(old(files.log), files.log, g)
      ensures alive ==> Valid()
      ensures alive ==> (HasAccepted(Lines(files.log), g, i) <==> accepted)
      ensures alive ==> Progress(Lines(old(files.log)), Lines(files.log), g, i, 0, 1)
    {
      hide FilesOk, AcceptedOf, HasAccepted, Attempts, SeedOf, Grown, OthersKept, Progress;
      NothingGrows(conditions, files.log, g);
      accepted := *;
      if * { return false, accepted; }
      var attempt := Tried(g, i);
      var decisions: nat :| decisions >= 0;
      var utility: real := *;
      var r := Rollout(g, i, attempt, conditions(g), SeedOf(conditions(g).environmentSeed, i, attempt), accepted,
                       if accepted then decisions + 1 else decisions, utility);
      ghost var lines := Lines(files.log);
      AppendKeepsFiles(files.log, files.model, r);
      AppendedCounts(lines, r, g, i);
      AppendProgresses(lines, r);
      AppendGrows(conditions, files.log, r);
      files.log := Some(Lines(files.log) + [r]);
      if * { return false, accepted; }
      Count(r, lines);
      alive := true;
    }

    /** Fills the slots of a group that are still open, with a bounded number of attempts each:
        unless the process dies, each of them is filled, or was tried that often in vain. */
    method Collect(g: Group, maxAttempts: nat) returns (alive: bool)
      requires Valid()
      modifies this, files`log
      ensures FilesOk(files.log, files.model)
      ensures Grown(conditions, old(files.log), files.log) && OthersKept(old(files.log), files.log, g)
      ensures alive ==> Valid()
      ensures alive ==> Collected(Lines(old(files.log)), Lines(files.log), g, maxAttempts)
    {
      hide FilesOk, Grown, OthersKept, Progress, HasAccepted, AcceptedOf;
      NothingGrows(conditions, files.log, g);
      ghost var start := Lines(files.log);
      NothingProgresses(start, g, maxAttempts);
      var present := Indices(Records(g));
      forall i: nat ensures i in present <==> HasAccepted(start, g, i) {
        PresentIffAccepted(files.log, files.model, g, i);
      }
      for i := 0 to GROUP_SIZE
        invariant Valid() && Grown(conditions, old(files.log), files.log) && OthersKept(old(files.log), files.log, g)
        invariant Progress(start, Lines(files.log), g, i, maxAttempts, 0)
      {
        var tries := 0;
        UntouchedSlot(start, Lines(files.log), g, i, maxAttempts);
        if i !in present {
          var filled := false;
          while tries < maxAttempts && !filled
            invariant Valid() && (filled <==> HasAccepted(Lines(files.log), g, i)) && tries <= maxAttempts
            invariant Progress(start, Lines(files.log), g, i, maxAttempts, tries)
            invariant Grown(conditions, old(files.log), files.log) && OthersKept(old(files.log), files.log, g)
            decreases maxAttempts - tries
          {
            ghost var before := files.log;
            alive, filled := Attempt(g, i);
            GrownFurther(conditions, old(files.log), before, files.log);
            KeptFurther(old(files.log), before, files.log, g);
            if !alive { return; }
            OneMoreTry(start, Lines(before), Lines(files.log), g, i, maxAttempts, tries);
            tries := tries + 1;
          }
        }
        SlotIsDone(start, Lines(files.log), g, i, maxAttempts, tries);
      }
      alive := true;
    }

    /** Collects a group and learns from it once it is complete.  error is what the update
        raises: a complete group that is not marked raises if and only if its rollouts were
        collected under different conditions.  If nothing raises, a complete group is marked. */
    method TrainGroup(g: Group, maxAttempts: nat) returns (alive: bool, error: Option<UpdateError>)
      requires Valid()
      modifies this, files, trainer
      ensures FilesOk(files.log, files.model)
      ensures Grown(conditions, old(files.log), files.log) && OthersKept(old(files.log), files.log, g)
      ensures alive ==> Valid()
      ensures alive ==> Collected(Lines(old(files.log)), Lines(files.log), g, maxAttempts)
      ensures error.Some? ==> alive && trainer.memory == old(trainer.memory)
      ensures alive ==> (error.Some? <==>
                && |AcceptedOf(Lines(files.log), g)| == GROUP_SIZE && g !in old(trainer.memory).updated
                && !SameConditions(AcceptedOf(Lines(files.log), g)))
      ensures error.Some? ==> !SameConditions(AcceptedOf(Lines(files.log), g))
      ensures alive && error.None? && |AcceptedOf(Lines(files.log), g)| == GROUP_SIZE ==>
                g in trainer.memory.updated
      ensures old(trainer.memory).updated <= trainer.memory.updated <= old(trainer.memory).updated + {g}
    {
      error := None;
      alive := Collect(g, maxAttempts);
      if !alive { return; }
      var records := Records(g);
      if |records| != GROUP_SIZE || g in trainer.memory.updated { return; }
      ghost var log := Lines(files.log);
      ghost var before := trainer.memory;
      CompleteGroupPassesIff(log, g, trainer.memory);
      AcceptedComeFromSlots(log, g, 0);
      var result := trainer.UpdateGroup(files, records);
      match result
      case Failure(e) => error := Some(e);
      case Success(saved) =>
        UpdateKeepsModel(log, before, g, Varied(records));
        alive := saved;
    }

    /** Goes through the plan.  Without a death or an error every complete group of it is marked
        in the end. */
    method TrainPlan(plan: seq<Group>, maxAttempts: nat) returns (ending: Ending)
      requires Valid()
      modifies this, files, trainer
      ensures FilesOk(files.log, files.model)
      ensures Grown(conditions, old(files.log), files.log)
      ensures !ending.NotStarted?
      ensures plan == [] ==> files.log == old(files.log) && files.model == old(files.model)
      ensures ending.Raised? ==> exists g :: g in plan && !SameConditions(AcceptedOf(Lines(files.log), g))
      ensures ending.Finished? ==>
                && files.model.Some? && CompleteAreMarked(plan, files.log, files.model.value.updated)
                && PlanCollected(Lines(old(files.log)), Lines(files.log), plan, maxAttempts)
    {
      hide FilesOk, CompleteAreMarked, OthersKept, Grown, SameConditions, AcceptedOf, Collected, PlanCollected;
      NothingTrained(conditions, files.log);
      EmptyPlanCollected(Lines(files.log), maxAttempts);
      for k := 0 to |plan|
        invariant Valid() && Grown(conditions, old(files.log), files.log)
        invariant plan == [] ==> files.log == old(files.log) && files.model == old(files.model)
        invariant CompleteAreMarked(plan[..k], files.log, trainer.memory.updated)
        invariant PlanCollected(Lines(old(files.log)), Lines(files.log), plan[..k], maxAttempts)
      {
        ghost var before, marked := files.log, trainer.memory.updated;
        var alive, error := TrainGroup(plan[k], maxAttempts);
        GrownFurther(conditions, old(files.log), before, files.log);
        if error.Some? {
          assert plan[k] in plan;
          return Raised(error.value);
        }
        if !alive { return Died; }
        CollectedSoFar(old(files.log), before, files.log, plan, k, maxAttempts);
        MarkedSoFar(plan, k, before, files.log, marked, trainer.memory.updated);
      }
      assert plan[..|plan|] == plan;
      ending := Finished;
    }
  }

  // ---------------------------------------------------------------- slots that are tried

  /** A slot that was filled is left alone.  One that was open is filled after at least one and
      at most n new lines, or has n new lines and is still open. */
  predicate SlotTried(before: seq<Rollout>, after: seq<Rollout>, g: Group, i: nat, n: nat) {
    if HasAccepted(before, g, i) then HasAccepted(after, g, i) && Attempts(after, g, i) == Attempts(before, g, i)
    else if HasAccepted(after, g, i) then Attempts(before, g, i) < Attempts(after, g, i) <= Attempts(before, g, i) + n
    else Attempts(after, g, i) == Attempts(before, g, i) + n
  }

  /** The slots before i are done, slot i was tried so often, and later ones are untouched. */
  ghost predicate Progress(before: seq<Rollout>, after: seq<Rollout>, g: Group, i: nat, n: nat, tries: nat) {
    forall j: nat :: SlotProgress(before, after, g, i, n, tries, j)
  }

  predicate SlotProgress(before: seq<Rollout>, after: seq<Rollout>, g: Group, i: nat, n: nat, tries: nat, j: nat) {
    SlotTried(before, after, g, j, if j < i then n else if j == i then tries else 0)
  }

  /** Each of the eight slots of the group was tried up to n times, and there are no others. */
  ghost predicate Collected(before: seq<Rollout>, after: seq<Rollout>, g: Group, n: nat) {
    Progress(before, after, g, GROUP_SIZE, n, 0)
  }

  lemma TriedFurther(a: seq<Rollout>, b: seq<Rollout>, c: seq<Rollout>, g: Group, i: nat, m: nat, n: nat)
    requires SlotTried(a, b, g, i, m) && SlotTried(b, c, g, i, n)
    ensures SlotTried(a, c, g, i, m + n)
  {
  }

  lemma NothingProgresses(log: seq<Rollout>, g: Group, n: nat)
    ensures Progress(log, log, g, 0, n, 0) && Collected(log, log, g, 0)
  {
  }

  lemma AppendProgresses(log: seq<Rollout>, r: Rollout)
    requires !HasAccepted(log, r.group, r.index)
    ensures Progress(log, log + [r], r.group, r.index, 0, 1)
    ensures forall h :: h != r.group ==> Collected(log, log + [r], h, 0)
  {
    hide Attempts, HasAccepted;
    forall j: nat ensures SlotProgress(log, log + [r], r.group, r.index, 0, 1, j) {
      AppendedCounts(log, r, r.group, j);
    }
    forall h, j: nat ensures h != r.group ==> SlotProgress(log, log + [r], h, GROUP_SIZE, 0, 0, j) {
      AppendedCounts(log, r, h, j);
    }
  }

  lemma OneMoreTry(a: seq<Rollout>, b: seq<Rollout>, c: seq<Rollout>, g: Group, i: nat, n: nat, tries: nat)
    requires Progress(a, b, g, i, n, tries) && Progress(b, c, g, i, 0, 1)
    ensures Progress(a, c, g, i, n, tries + 1)
  {
    hide SlotTried;
    var more := tries + 1;
    forall j: nat ensures SlotProgress(a, c, g, i, n, more, j) {
      assert SlotProgress(a, b, g, i, n, tries, j) && SlotProgress(b, c, g, i, 0, 1, j);
      TriedFurther(a, b, c, g, j, if j < i then n else if j == i then tries else 0, if j == i then 1 else 0);
    }
  }

  lemma UntouchedSlot(before: seq<Rollout>, after: seq<Rollout>, g: Group, i: nat, n: nat)
    requires Progress(before, after, g, i, n, 0)
    ensures HasAccepted(after, g, i) <==> HasAccepted(before, g, i)
  {
    assert SlotProgress(before, after, g, i, n, 0, i);
  }

  lemma SlotIsDone(before: seq<Rollout>, after: seq<Rollout>, g: Group, i: nat, n: nat, tries: nat)
    requires Progress(before, after, g, i, n, tries) && tries <= n && (HasAccepted(after, g, i) || tries == n)
    ensures Progress(before, after, g, i + 1, n, 0)
  {
    var next := i + 1;
    forall j: nat ensures SlotProgress(before, after, g, next, n, 0, j) {
      assert SlotProgress(before, after, g, i, n, tries, j);
    }
  }

  lemma CollectedFurther(a: seq<Rollout>, b: seq<Rollout>, c: seq<Rollout>, g: Group, m: nat, n: nat)
    requires Collected(a, b, g, m) && Collected(b, c, g, n)
    ensures Collected(a, c, g, m + n)
  {
    hide SlotTried;
    var sum := m + n;
    forall j: nat ensures SlotProgress(a, c, g, GROUP_SIZE, sum, 0, j) {
      assert SlotProgress(a, b, g, GROUP_SIZE, m, 0, j) && SlotProgress(b, c, g, GROUP_SIZE, n, 0, j);
      TriedFurther(a, b, c, g, j, if j < GROUP_SIZE then m else 0, if j < GROUP_SIZE then n else 0);
    }
  }

  /** How often a group occurs in a plan. */
  function Times(plan: seq<Group>, g: Group): nat {
    if plan == [] then 0 else Times(plan[..|plan| - 1], g) + if plan[|plan| - 1] == g then 1 else 0
  }

  /** Every group was collected as often as it occurs in the plan. */
  ghost predicate PlanCollected(before: seq<Rollout>, after: seq<Rollout>, plan: seq<Group>, maxAttempts: nat) {
    forall g :: CollectedAsPlanned(before, after, plan, maxAttempts, g)
  }

  ghost predicate CollectedAsPlanned(before: seq<Rollout>, after: seq<Rollout>, plan: seq<Group>, maxAttempts: nat,
                                     g: Group)
  {
    Collected(before, after, g, Times(plan, g) * maxAttempts)
  }

  lemma PlanFurther(a: seq<Rollout>, b: seq<Rollout>, c: seq<Rollout>, plan: seq<Group>, k: nat, maxAttempts: nat)
    requires k < |plan| && PlanCollected(a, b, plan[..k], maxAttempts) && Collected(b, c, plan[k], maxAttempts)
    requires forall h :: h != plan[k] ==> Collected(b, c, h, 0)
    ensures PlanCollected(a, c, plan[..k + 1], maxAttempts)
  {
    hide Collected;
    var longer := plan[..k + 1];
    forall g ensures CollectedAsPlanned(a, c, longer, maxAttempts, g) {
      assert CollectedAsPlanned(a, b, plan[..k], maxAttempts, g);
      assert plan[..k + 1][..k] == plan[..k];
      var n := if plan[k] == g then maxAttempts else 0;
      assert Times(plan[..k + 1], g) * maxAttempts == Times(plan[..k], g) * maxAttempts + n;
      CollectedFurther(a, b, c, g, Times(plan[..k], g) * maxAttempts, n);
    }
  }

  lemma CollectedSoFar(start: Option<seq<Rollout>>, before: Option<seq<Rollout>>, after: Option<seq<Rollout>>,
                       plan: seq<Group>, k: nat, maxAttempts: nat)
    requires k < |plan| && PlanCollected(Lines(start), Lines(before), plan[..k], maxAttempts)
    requires OthersKept(before, after, plan[k]) && Collected(Lines(before), Lines(after), plan[k], maxAttempts)
    ensures PlanCollected(Lines(start), Lines(after), plan[..k + 1], maxAttempts)
  {
    PlanFurther(Lines(start), Lines(before), Lines(after), plan, k, maxAttempts);
  }

  lemma EmptyPlanCollected(log: seq<Rollout>, maxAttempts: nat)
    ensures PlanCollected(log, log, [], maxAttempts)
  {
    forall g ensures CollectedAsPlanned(log, log, [], maxAttempts, g) { NothingProgresses(log, g, 0); }
  }

  /** The other groups have the accepted rollouts and the lines they had. */
  ghost predicate OthersKept(before: Option<seq<Rollout>>, after: Option<seq<Rollout>>, g: Group) {
    forall h :: h != g ==>
      AcceptedOf(Lines(after), h) == AcceptedOf(Lines(before), h) && Collected(Lines(before), Lines(after), h, 0)
  }

  lemma KeptFurther(a: Option<seq<Rollout>>, b: Option<seq<Rollout>>, c: Option<seq<Rollout>>, g: Group)
    requires OthersKept(a, b, g) && OthersKept(b, c, g)
    ensures OthersKept(a, c, g)
  {
    hide Collected;
    forall h | h != g ensures Collected(Lines(a), Lines(c), h, 0) {
      CollectedFurther(Lines(a), Lines(b), Lines(c), h, 0, 0);
    }
  }

  /** The new lines of the log were collected under the given conditions. */
  ghost predicate Grown(conditions: Group -> Conditions, before: Option<seq<Rollout>>, after: Option<seq<Rollout>>) {
    && |Lines(before)| <= |Lines(after)| && Lines(after)[..|Lines(before)|] == Lines(before)
    && (before.Some? ==> after.Some?) && (after.Some? ==> before.Some? || |Lines(after)| > 0)
    && forall k :: |Lines(before)| <= k < |Lines(after)| ==>
         Lines(after)[k].conditions == conditions(Lines(after)[k].group)
  }

  lemma GrownFurther(conditions: Group -> Conditions, a: Option<seq<Rollout>>, b: Option<seq<Rollout>>,
                     c: Option<seq<Rollout>>)
    requires Grown(conditions, a, b) && Grown(conditions, b, c)
    ensures Grown(conditions, a, c)
  {
    forall k | |Lines(a)| <= k < |Lines(c)| ensures Lines(c)[k].conditions == conditions(Lines(c)[k].group) {
      if k < |Lines(b)| { assert Lines(c)[..|Lines(b)|][k] == Lines(b)[k]; }
    }
    assert Lines(c)[..|Lines(a)|] == Lines(c)[..|Lines(b)|][..|Lines(a)|];
  }

  lemma NothingGrows(conditions: Group -> Conditions, log: Option<seq<Rollout>>, g: Group)
    ensures Grown(conditions, log, log) && OthersKept(log, log, g)
  {
    forall h ensures Collected(Lines(log), Lines(log), h, 0) { NothingProgresses(Lines(log), h, 0); }
  }

  lemma AppendGrows(conditions: Group -> Conditions, log: Option<seq<Rollout>>, r: Rollout)
    requires r.conditions == conditions(r.group) && !HasAccepted(Lines(log), r.group, r.index)
    ensures Grown(conditions, log, Some(Lines(log) + [r])) && OthersKept(log, Some(Lines(log) + [r]), r.group)
  {
    hide AcceptedOf, HasAccepted, Collected;
    AppendProgresses(Lines(log), r);
    forall h ensures h != r.group ==> AcceptedOf(Lines(log) + [r], h) == AcceptedOf(Lines(log), h) {
      AppendedCounts(Lines(log), r, h, 0);
    }
  }

  /** All lines of the log were collected under the given conditions. */
  ghost predicate Under(conditions: Group -> Conditions, log: Option<seq<Rollout>>) {
    forall k :: 0 <= k < |Lines(log)| ==> Lines(log)[k].conditions == conditions(Lines(log)[k].group)
  }

  lemma GrownStaysUnder(conditions: Group -> Conditions, before: Option<seq<Rollout>>, after: Option<seq<Rollout>>)
    requires Grown(conditions, before, after) && Under(conditions, before)
    ensures Under(conditions, after)
  {
    forall k | 0 <= k < |Lines(after)| ensures Lines(after)[k].conditions == conditions(Lines(after)[k].group) {
      if k < |Lines(before)| { assert Lines(after)[..|Lines(before)|][k] == Lines(before)[k]; }
    }
  }

  lemma UnderMeansSame(conditions: Group -> Conditions, log: seq<Rollout>, g: Group)
    requires LogOk(log) && Under(conditions, Some(log))
    ensures SameConditions(AcceptedOf(log, g))
  {
    forall a | 0 <= a < |AcceptedOf(log, g)| ensures AcceptedOf(log, g)[a].conditions == conditions(g) {
      AcceptedComeFromSlots(log, g, a);
      var k :| 0 <= k < |log| && log[k] == AcceptedOf(log, g)[a];
      assert Lines(Some(log))[k].conditions == conditions(log[k].group);
    }
  }

  lemma PresentIffAccepted(log: Option<seq<Rollout>>, model: Option<Checkpoint>, g: Group, i: nat)
    requires FilesOk(log, model)
    ensures i in Indices(AcceptedOf(Lines(log), g)) <==> HasAccepted(Lines(log), g, i)
  {
    var accepted := AcceptedOf(Lines(log), g);
    if HasAccepted(Lines(log), g, i) {
      AcceptedAreFound(Lines(log), g, i);
      var a :| 0 <= a < |accepted| && accepted[a].index == i;
      assert Indices(accepted)[a] == i;
    }
    if i in Indices(accepted) {
      var a :| 0 <= a < |accepted| && Indices(accepted)[a] == i;
      AcceptedComeFromSlots(Lines(log), g, a);
    }
  }

  /** A log is never without a model, and the first save leaves files in order. */
  lemma FilesInStep(log: Option<seq<Rollout>>, model: Option<Checkpoint>)
    requires FilesOk(log, model)
    ensures log.Some? ==> model.Some?
    ensures model.None? ==> FilesOk(log, Some(FRESH))
  {
  }

  /** The groups of a plan that are complete in the log are marked. */
  ghost predicate CompleteAreMarked(plan: seq<Group>, log: Option<seq<Rollout>>, updated: set<Group>) {
    forall g :: g in plan && |AcceptedOf(Lines(log), g)| == GROUP_SIZE ==> g in updated
  }

  lemma NothingTrained(conditions: Group -> Conditions, log: Option<seq<Rollout>>)
    ensures Grown(conditions, log, log) && forall updated :: CompleteAreMarked([], log, updated)
  {
  }

  lemma MarkedSoFar(plan: seq<Group>, k: nat, before: Option<seq<Rollout>>, after: Option<seq<Rollout>>,
                    marked: set<Group>, updated: set<Group>)
    requires k < |plan| && CompleteAreMarked(plan[..k], before, marked) && marked <= updated
    requires OthersKept(before, after, plan[k])
    requires |AcceptedOf(Lines(after), plan[k])| == GROUP_SIZE ==> plan[k] in updated
    ensures CompleteAreMarked(plan[..k + 1], after, updated)
  {
  }

  /** What a program run is given: whether to resume, the groups of all epochs in order, the
      bound on attempts and the conditions.  diesEarly says that it dies between the first save
      of the model and the first rollout. */
  datatype Arguments = Arguments(resume: bool, plan: seq<Group>, maxAttempts: nat, conditions: Group -> Conditions,
                                 diesEarly: bool)

  datatype Ending = NotStarted(StartError) | Died | Raised(UpdateError) | Finished

  /** One run of the program.  It may die between any two durable writes; whenever it does, the
      files are in order.  A run that gets to the end leaves every complete group of its plan
      marked in the saved model. */
  method Train(files: Files, run: Arguments) returns (ending: Ending)
    requires FilesOk(files.log, files.model)
    modifies files
    ensures FilesOk(files.log, files.model)
    ensures Grown(run.conditions, old(files.log), files.log)
    ensures ending.NotStarted? <==>
              Start(old(files.log), old(files.model), run.resume).Failure? || (run.maxAttempts < 1 && !ending.Died?)
    ensures Start(old(files.log), old(files.model), run.resume).Failure? ==>
              && ending == NotStarted(Start(old(files.log), old(files.model), run.resume).error)
              && files.log == old(files.log) && files.model == old(files.model)
    ensures old(files.model).None? && (run.diesEarly || run.maxAttempts < 1 || run.plan == []) ==>
              files.log == None && files.model == Some(FRESH)
    ensures ending.Raised? ==> exists g :: g in run.plan && !SameConditions(AcceptedOf(Lines(files.log), g))
    ensures ending.Finished? ==>
              && files.model.Some? && CompleteAreMarked(run.plan, files.log, files.model.value.updated)
              && PlanCollected(Lines(old(files.log)), Lines(files.log), run.plan, run.maxAttempts)
  {
    hide FilesOk, CompleteAreMarked, OthersKept, Grown, PlanCollected;
    NothingTrained(run.conditions, files.log);
    FilesInStep(files.log, files.model);
    var started := Start(files.log, files.model, run.resume);
    if started.Failure? { return NotStarted(started.error); }
    var trainer := new Trainer(files, run.resume);
    if files.model.None? {
      trainer.Save(files);
      if run.diesEarly { return Died; }
    }
    if run.maxAttempts < 1 { return NotStarted(AttemptsNotPositive); }
    var r := new Run(run.conditions, files, trainer);
    r.ReadLog();
    ending := r.TrainPlan(run.plan, run.maxAttempts);
  }

  /** When every line so far and all new ones were collected under one set of conditions for
      each group, a run never raises. */
  lemma SameArgumentsNeverRaise(conditions: Group -> Conditions, before: Option<seq<Rollout>>,
                                log: Option<seq<Rollout>>, model: Option<Checkpoint>, g: Group)
    requires Under(conditions, before) && Grown(conditions, before, log) && FilesOk(log, model)
    ensures Under(conditions, log) && SameConditions(AcceptedOf(Lines(log), g))
  {
    GrownStaysUnder(conditions, before, log);
    UnderMeansSame(conditions, Lines(log), g);
  }

  /** Any number of runs with any arguments, each dying wherever it likes, starting from
      nothing: the files are in order in the end, so WhatTheFilesGuarantee applies.  If all runs
      had the same conditions, none of them raised. */
  method Campaign(runs: seq<Arguments>, ghost conditions: Group -> Conditions) returns (files: Files, raised: bool)
    ensures FilesOk(files.log, files.model)
    ensures (forall k :: 0 <= k < |runs| ==> runs[k].conditions == conditions) ==> !raised
  {
    hide FilesOk;
    files := new Files();
    NothingIsInOrder();
    raised := false;
    for k := 0 to |runs|
      invariant fresh(files) && FilesOk(files.log, files.model)
      invariant (forall j :: 0 <= j < k ==> runs[j].conditions == conditions) ==>
                  !raised && Under(conditions, files.log)
      modifies files
    {
      ghost var before := files.log;
      var ending := Train(files, runs[k]);
      if (forall j :: 0 <= j < k + 1 ==> runs[j].conditions == conditions) {
        forall g ensures SameConditions(AcceptedOf(Lines(files.log), g)) && Under(conditions, files.log) {
          SameArgumentsNeverRaise(conditions, before, files.log, files.model, g);
        }
      }
      raised := raised || ending.Raised?;
    }
  }

  lemma NothingIsInOrder()
    ensures FilesOk(None, None)
  {
  }

  // ---------------------------------------------------------------- where promises end

  /** A run that dies before its first rollout, or is given no attempts or no groups, leaves a
      model without a log, and no later run with any arguments starts. */
  method NothingStartsAgain(first: Arguments, later: seq<Arguments>) returns (files: Files)
    requires first.diesEarly || first.maxAttempts < 1 || first.plan == []
    ensures files.log == None && files.model == Some(FRESH)
    ensures FilesOk(None, Some(FRESH))
  {
    hide FilesOk, LogOk, ModelOk, Grown;
    files := new Files();
    NothingIsInOrder();
    var ending := Train(files, first);
    for k := 0 to |later|
      invariant fresh(files) && FilesOk(files.log, files.model) && files.log == None && files.model == Some(FRESH)
      modifies files
    {
      ending := Train(files, later[k]);
      assert ending.NotStarted?;
    }
  }

  /** Eight accepted rollouts, the last one collected by a resume with another budget: the log
      is in order, and the group is rejected. */
  lemma ResumeWithOtherBudgetRejects(g: Group)
    ensures LogOk(MixedLog(g, 8)) && |AcceptedOf(MixedLog(g, 8), g)| == GROUP_SIZE
    ensures Rejects(AcceptedOf(MixedLog(g, 8), g), FRESH) != None
  {
    MixedLogIsOk(g, 8);
    var records := AcceptedOf(MixedLog(g, 8), g);
    assert records[0].conditions != records[7].conditions;
    CompleteGroupPassesIff(MixedLog(g, 8), g, FRESH);
  }

  function MixedRollout(g: Group, i: nat): Rollout {
    Rollout(g, i, 0, Conditions(1, 0, if i == 7 then 1 else 0, ""), SeedOf(1, i, 0), true, 1, 0.0)
  }

  function MixedLog(g: Group, n: nat): (log: seq<Rollout>) {
    if n == 0 then [] else MixedLog(g, n - 1) + [MixedRollout(g, n - 1)]
  }

  /** No slot from n on has been tried. */
  ghost predicate Untried(log: seq<Rollout>, g: Group, n: nat) {
    forall i: nat :: i >= n ==> Attempts(log, g, i) == 0 && !HasAccepted(log, g, i)
  }

  lemma {:induction false} MixedLogIsOk(g: Group, n: nat)
    requires n <= 8
    ensures LogOk(MixedLog(g, n)) && AcceptedOf(MixedLog(g, n), g) == MixedLog(g, n) && Untried(MixedLog(g, n), g, n)
    ensures |MixedLog(g, n)| == n && forall k :: 0 <= k < n ==> MixedLog(g, n)[k] == MixedRollout(g, k)
  {
    if n > 0 {
      MixedLogIsOk(g, n - 1);
      MixedLogGrows(MixedLog(g, n - 1), g, n - 1);
    }
  }

  lemma MixedLogGrows(log: seq<Rollout>, g: Group, n: nat)
    requires n < 8 && LogOk(log) && AcceptedOf(log, g) == log && Untried(log, g, n)
    ensures LogOk(log + [MixedRollout(g, n)]) && Untried(log + [MixedRollout(g, n)], g, n + 1)
    ensures AcceptedOf(log + [MixedRollout(g, n)], g) == log + [MixedRollout(g, n)]
  {
    hide LogOk, Attempts, AcceptedOf, HasAccepted;
    var r := MixedRollout(g, n);
    AppendedLogOk(log, r);
    AppendedCounts(log, r, g, n);
    forall i: nat | i >= n + 1 ensures Attempts(log + [r], g, i) == 0 && !HasAccepted(log + [r], g, i) {
      AppendedCounts(log, r, g, i);
    }
  }
}

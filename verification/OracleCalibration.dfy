/**
 Calibration of the oracle: the authority's own spread is measured, widened into a tolerance by
 integer arithmetic, and the authority's repetitions, rotated within each case, are shown to pass.
 */
module OracleCalibration {
  import opened Outcomes
  import EpisodeRecords
  import opened OracleComparison

  datatype OracleError =
    | ReferenceRoleRequired
    | ExperimentIdentityMismatch
    | InvalidObservation
    | NoiseFloorUnavailable
    | InvalidCorpus

  datatype Floor = Floor(absoluteNanos: nat, relativePpb: nat, deterministic: bool)

  datatype Plan = Plan(slackPercent: nat, repetitions: nat)

  const U16_MAX: nat := 0xFFFF
  const U64_MAX: nat := 0xFFFF_FFFF_FFFF_FFFF

  /** What a run receipt is checked for when it is made. */
  ghost predicate ValidRun(r: Run) {
    && r.observations != []
    && (forall i :: 0 <= i < |r.observations| ==>
          && r.observations[i].repetition != 0
          && (r.observations[i].status == 0 <==> r.observations[i].output.Some?)
          && (r.observations[i].reorder.Some? ==> r.observations[i].output.Some?))
    && (forall i, j :: 0 <= i < j < |r.observations| ==> KeyOf(r.observations[i]) != KeyOf(r.observations[j]))
  }

  // ----- Outputs of a case

  function Produced(o: Observation, c: string): seq<Fp32> {
    if o.caseId == c && o.output.Some? then [o.output.value] else []
  }

  /** Every output of one case, in observation order. */
  function Outputs(obs: seq<Observation>, c: string): seq<Fp32> {
    if obs == [] then [] else Outputs(obs[..|obs| - 1], c) + Produced(obs[|obs| - 1], c)
  }

  /** How many outputs of its case come before an observation. */
  function Rank(obs: seq<Observation>, i: nat): nat
    requires i < |obs|
  {
    |Outputs(obs[..i], obs[i].caseId)|
  }

  lemma {:induction false} OutputsPrefix(obs: seq<Observation>, i: nat, c: string)
    requires i <= |obs|
    ensures Outputs(obs[..i], c) <= Outputs(obs, c)
    decreases |obs|
  {
    if i < |obs| {
      OutputsPrefix(obs[..|obs| - 1], i, c);
      assert obs[..|obs| - 1][..i] == obs[..i];
    } else {
      assert obs[..i] == obs;
    }
  }

  /** An observation's output stands at its rank. */
  lemma RankFinds(obs: seq<Observation>, i: nat)
    requires i < |obs| && obs[i].output.Some?
    ensures var outputs := Outputs(obs, obs[i].caseId);
            Rank(obs, i) < |outputs| && outputs[Rank(obs, i)] == obs[i].output.value
  {
    var c := obs[i].caseId;
    var next := obs[..i + 1];
    assert next[..i] == obs[..i] && next[i] == obs[i];
    assert Outputs(next, c) == Outputs(obs[..i], c) + [obs[i].output.value];
    OutputsPrefix(obs, i + 1, c);
  }

  /** Every output comes from an observation of its case. */
  lemma {:induction false} OutputHasSource(obs: seq<Observation>, c: string, k: nat) returns (i: nat)
    requires k < |Outputs(obs, c)|
    ensures i < |obs| && obs[i].caseId == c && obs[i].output == Some(Outputs(obs, c)[k]) && Rank(obs, i) == k
    decreases |obs|
  {
    var n := |obs| - 1;
    var init := obs[..n];
    if k < |Outputs(init, c)| {
      i := OutputHasSource(init, c, k);
      assert init[..i] == obs[..i];
    } else {
      i := n;
    }
  }

  lemma {:induction false} SuccessfulAreOutputs(obs: seq<Observation>, c: string)
    requires forall i :: 0 <= i < |obs| ==> (obs[i].status == 0 <==> obs[i].output.Some?)
    ensures SuccessfulOutputs(obs, c) == Outputs(obs, c)
    decreases |obs|
  {
    if obs != [] {
      SuccessfulAreOutputs(obs[..|obs| - 1], c);
    }
  }

  // ----- Measuring the spread

  type Pair = (Fp32, Fp32)

  predicate FinitePair(p: Pair) {
    !p.0.NonFinite? && !p.1.NonFinite?
  }

  /** Distance between two outputs of the same mathematics. */
  function Error(p: Pair): (r: real)
    ensures r >= 0.0
  {
    if FinitePair(p) then Abs(ToReal(p.1) - ToReal(p.0)) else 0.0
  }

  function Ratio(p: Pair): (r: real)
    ensures r >= 0.0
  {
    if FinitePair(p) && ToReal(p.0) != 0.0 then Error(p) / Abs(ToReal(p.0)) else 0.0
  }

  function MaxOf(pairs: seq<Pair>, measure: Pair -> real): (r: real)
    ensures r >= 0.0
  {
    if pairs == [] then 0.0 else Max(MaxOf(pairs[..|pairs| - 1], measure), measure(pairs[|pairs| - 1]))
  }

  lemma {:induction false} MaxBounds(pairs: seq<Pair>, measure: Pair -> real)
    ensures forall p :: p in pairs ==> measure(p) <= MaxOf(pairs, measure)
    ensures MaxOf(pairs, measure) == 0.0 || exists p :: p in pairs && measure(p) == MaxOf(pairs, measure)
    decreases |pairs|
  {
    if pairs != [] {
      var init, last := pairs[..|pairs| - 1], pairs[|pairs| - 1];
      MaxBounds(init, measure);
      assert forall p :: p in pairs <==> p in init || p == last;
      if MaxOf(pairs, measure) == measure(last) {
        assert last in pairs;
      }
    }
  }

  /** A maximum depends only on which pairs there are. */
  lemma MaxSame(a: seq<Pair>, b: seq<Pair>, measure: Pair -> real)
    requires forall p :: p in a <==> p in b
    ensures MaxOf(a, measure) == MaxOf(b, measure)
  {
    MaxBounds(a, measure);
    MaxBounds(b, measure);
  }

  function ReorderPair(o: Observation): seq<Pair> {
    if o.output.Some? && o.reorder.Some? then [(o.output.value, o.reorder.value)] else []
  }

  function ReorderPairs(obs: seq<Observation>): seq<Pair> {
    if obs == [] then [] else ReorderPairs(obs[..|obs| - 1]) + ReorderPair(obs[|obs| - 1])
  }

  function Successes(obs: seq<Observation>): nat {
    if obs == [] then 0 else Successes(obs[..|obs| - 1]) + if obs[|obs| - 1].output.Some? then 1 else 0
  }

  /** Adjacent outputs of one case, listed as the later one is observed. */
  function WindowPairs(obs: seq<Observation>): seq<Pair> {
    if obs == [] then []
    else
      var init, last := obs[..|obs| - 1], obs[|obs| - 1];
      var earlier := Outputs(init, last.caseId);
      WindowPairs(init)
      + if last.output.Some? && earlier != [] then [(earlier[|earlier| - 1], last.output.value)] else []
  }

  ghost predicate IsWindow(obs: seq<Observation>, c: string, k: nat, p: Pair) {
    k + 1 < |Outputs(obs, c)| && p == (Outputs(obs, c)[k], Outputs(obs, c)[k + 1])
  }

  lemma {:induction false} WindowIsListed(obs: seq<Observation>, c: string, k: nat, p: Pair)
    requires IsWindow(obs, c, k, p)
    ensures p in WindowPairs(obs)
    decreases |obs|
  {
    var init, last := obs[..|obs| - 1], obs[|obs| - 1];
    if k + 1 < |Outputs(init, c)| {
      WindowIsListed(init, c, k, p);
    } else {
      assert last.caseId == c && last.output.Some?;
    }
  }

  lemma {:induction false} ListedIsWindow(obs: seq<Observation>, p: Pair) returns (c: string, k: nat)
    requires p in WindowPairs(obs)
    ensures IsWindow(obs, c, k, p)
    decreases |obs|
  {
    var init, last := obs[..|obs| - 1], obs[|obs| - 1];
    if p in WindowPairs(init) {
      c, k := ListedIsWindow(init, p);
    } else {
      c := last.caseId;
      k := |Outputs(init, c)| - 1;
    }
  }

  // ----- The floor

  function Ceiling(x: real): int {
    -((-x).Floor)
  }

  /** Rounded up into units, so that no spread becomes nothing. */
  function ToUnits(value: real): nat {
    var scaled := Ceiling(value * UNITS);
    if scaled <= 0 then 0 else if scaled > U64_MAX then U64_MAX else scaled
  }

  function FloorOf(pairs: seq<Pair>): Floor {
    Floor(ToUnits(MaxOf(pairs, Error)), ToUnits(MaxOf(pairs, Ratio)), forall p :: p in pairs ==> p.0 == p.1)
  }

  function NoiseFloor(reference: Run, corpus: Corpus): Result<Floor, OracleError> {
    var obs := reference.observations;
    if reference.role != CudaReference then Err(ReferenceRoleRequired)
    else if corpus.digest != reference.corpus then Err(ExperimentIdentityMismatch)
    else if exists p :: p in ReorderPairs(obs) && !FinitePair(p) then Err(InvalidObservation)
    else if ReorderPairs(obs) != [] && |ReorderPairs(obs)| != Successes(obs) then Err(NoiseFloorUnavailable)
    else if exists p :: p in WindowPairs(obs) && !FinitePair(p) then Err(InvalidObservation)
    else if ReorderPairs(obs) + WindowPairs(obs) == [] then Err(NoiseFloorUnavailable)
    else Ok(FloorOf(ReorderPairs(obs) + WindowPairs(obs)))
  }

  // ----- Widening

  function Widen(observed: nat, slackPercent: nat): (r: Option<U32>)
    ensures r.Some? <==>
              100 + slackPercent <= U16_MAX && observed * (100 + slackPercent) / 100 <= EpisodeRecords.U32_MAX
    ensures r.Some? ==> observed <= r.value
    ensures r.Some? ==> 100 * r.value <= observed * (100 + slackPercent) < 100 * (r.value + 1)
  {
    if 100 + slackPercent > U16_MAX then None
    else
      var widened := observed * (100 + slackPercent) / 100;
      assert observed <= widened;
      if widened <= EpisodeRecords.U32_MAX then Some(widened) else None
  }

  function Derive(floor: Floor, plan: Plan): Result<Policy, OracleError> {
    var absolute, relative := Widen(floor.absoluteNanos, plan.slackPercent), Widen(floor.relativePpb, plan.slackPercent);
    if absolute.None? || relative.None? then Err(InvalidCorpus)
    else Ok(Policy(absolute.value, relative.value, plan.repetitions))
  }

  lemma UnitsCover(value: real)
    requires value >= 0.0 && ToUnits(value) < U64_MAX
    ensures value <= ToUnits(value) as real / UNITS
    ensures ToUnits(value) as real < value * UNITS + 1.0
  {
  }

  /** Every measured distance lies within the derived absolute tolerance. */
  lemma DerivedCovers(pairs: seq<Pair>, plan: Plan, p: Pair, x: real)
    requires p in pairs && Derive(FloorOf(pairs), plan).Ok?
    ensures Error(p) <= Bound(x, Derive(FloorOf(pairs), plan).value)
  {
    var widest := MaxOf(pairs, Error);
    MaxBounds(pairs, Error);
    UnitsCover(widest);
    var policy := Derive(FloorOf(pairs), plan).value;
    assert ToUnits(widest) as real <= policy.absoluteNanos as real;
    assert ToUnits(widest) as real / UNITS <= policy.absoluteNanos as real / UNITS;
  }

  lemma ShareCovers(error: real, share: real, units: real, size: real)
    requires size >= 0.0 && share * UNITS <= units && error <= share * size
    ensures error * UNITS <= size * units
  {
    assert share * size * UNITS == size * (share * UNITS) <= size * units;
  }

  /** The derived relative tolerance is no smaller than any measured ratio. */
  lemma RatioWithin(pairs: seq<Pair>, plan: Plan, p: Pair)
    requires p in pairs && Derive(FloorOf(pairs), plan).Ok?
    ensures Ratio(p) * UNITS <= Derive(FloorOf(pairs), plan).value.relativePpb as real
  {
    hide Ratio;
    var widest := MaxOf(pairs, Ratio);
    MaxBounds(pairs, Ratio);
    UnitsCover(widest);
    var policy := Derive(FloorOf(pairs), plan).value;
    assert ToUnits(widest) as real <= policy.relativePpb as real;
  }

  /** Every measured ratio is tolerated at every magnitude: whatever differs from an expected output by
      no larger a share than some measured pair does is in tolerance. */
  lemma DerivedCoversRatio(pairs: seq<Pair>, plan: Plan, p: Pair, x: real, y: real)
    requires p in pairs && Derive(FloorOf(pairs), plan).Ok?
    requires Distance(x, y) <= Ratio(p) * Distance(0.0, x)
    ensures Within(Finite(x), Finite(y), Derive(FloorOf(pairs), plan).value)
  {
    hide Derive, FloorOf, Ratio, Within;
    var policy := Derive(FloorOf(pairs), plan).value;
    RatioWithin(pairs, plan, p);
    ShareCovers(Distance(x, y), Ratio(p), policy.relativePpb as real, Distance(0.0, x));
    WithinExactly(Finite(x), Finite(y), policy);
  }

  // ----- The rotated authority

  function RotatedObservation(obs: seq<Observation>, i: nat): Observation
    requires i < |obs|
  {
    var outputs := Outputs(obs, obs[i].caseId);
    if obs[i].output.None? || outputs == [] then obs[i]
    else obs[i].(output := Some(outputs[(Rank(obs, i) + 1) % |outputs|]))
  }

  function Rotated(obs: seq<Observation>): (r: seq<Observation>)
    ensures |r| == |obs|
    ensures forall i :: 0 <= i < |obs| ==> r[i] == RotatedObservation(obs, i)
  {
    seq(|obs|, i requires 0 <= i < |obs| => RotatedObservation(obs, i))
  }

  function SecondOrder(o: Observation): Observation {
    if o.reorder.Some? then o.(output := o.reorder) else o
  }

  function InSecondOrder(obs: seq<Observation>): (r: seq<Observation>)
    ensures |r| == |obs|
    ensures forall i :: 0 <= i < |obs| ==> r[i] == SecondOrder(obs[i])
  {
    seq(|obs|, i requires 0 <= i < |obs| => SecondOrder(obs[i]))
  }

  predicate HasSecondOrder(obs: seq<Observation>) {
    exists i :: 0 <= i < |obs| && obs[i].reorder.Some?
  }

  predicate Repeats(obs: seq<Observation>) {
    exists i :: 0 <= i < |obs| && |Outputs(obs, obs[i].caseId)| >= 2
  }

  const REORDERED: string := "candidate-reordered-authority"

  /** These results of the authority, presented as a candidate run. */
  function Presented(reference: Run, obs: seq<Observation>): Run {
    reference.(role := AscendCandidate, candidate := Some(REORDERED), observations := obs)
  }

  /** The authority's own other results, presented as a candidate run. */
  function ReorderedAuthority(reference: Run): Option<Run> {
    var obs := reference.observations;
    if HasSecondOrder(obs) then
      Some(Presented(reference, InSecondOrder(obs)))
    else if !Repeats(obs) then None
    else Some(Presented(reference, Rotated(obs)))
  }

  /** The authority covers the corpus, each case the same number of times. */
  ghost predicate Covers(reference: Run, corpus: Corpus, repetitions: nat) {
    var expected, cases := ByKey(reference.observations), CasesByKey(corpus.cases);
    && expected.Keys == cases.Keys
    && (forall k :: k in expected ==> expected[k].elements == cases[k].elements && expected[k].input == cases[k].input)
    && RepetitionsOk(reference, Policy(0, 0, repetitions))
  }

  /** A case that produced positive zero once produced it every time. */
  ghost predicate ZerosReproduced(obs: seq<Observation>) {
    forall i, j | 0 <= i < |obs| && 0 <= j < |obs| && obs[i].caseId == obs[j].caseId ::
      obs[i].output == Some(Finite(0.0)) && obs[j].output.Some? ==> obs[j].output == Some(Finite(0.0))
  }

  ghost predicate AllFinite(obs: seq<Observation>) {
    forall i :: 0 <= i < |obs| && obs[i].output.Some? ==> !obs[i].output.value.NonFinite?
  }

  lemma RepetitionInRange(reference: Run, repetitions: nat, i: nat)
    requires RepetitionsOk(reference, Policy(0, 0, repetitions)) && i < |reference.observations|
    ensures 1 <= reference.observations[i].repetition <= repetitions
  {
    var o := reference.observations[i];
    assert KeyOf(o) == (o.caseId, o.repetition);
    assert o.repetition in RepetitionsOf(reference.observations)[o.caseId];
  }

  /** Two repetitions per case leave at most two outputs. */
  lemma AtMostTwo(reference: Run, c: string)
    requires ValidRun(reference) && RepetitionsOk(reference, Policy(0, 0, 2))
    ensures |Outputs(reference.observations, c)| <= 2
  {
    hide RepetitionsOk, Outputs;
    var obs := reference.observations;
    if |Outputs(obs, c)| > 2 {
      var i := OutputHasSource(obs, c, 0);
      var j := OutputHasSource(obs, c, 1);
      var k := OutputHasSource(obs, c, 2);
      RepetitionInRange(reference, 2, i);
      RepetitionInRange(reference, 2, j);
      RepetitionInRange(reference, 2, k);
      assert false;
    }
  }

  lemma BoundIsNatural(x: real, p: Policy)
    ensures Bound(x, p) >= 0.0
  {
  }

  /** An authority that always gives the same bits is found deterministic, and has no spread. */
  lemma {:induction false} SteadyFloor(pairs: seq<Pair>)
    ensures FloorOf(pairs).deterministic <==> forall i :: 0 <= i < |pairs| ==> pairs[i].0 == pairs[i].1
    ensures FloorOf(pairs).deterministic ==> FloorOf(pairs) == Floor(0, 0, true)
  {
    MaxBounds(pairs, Error);
    MaxBounds(pairs, Ratio);
    if FloorOf(pairs).deterministic {
      assert forall p :: p in pairs ==> Error(p) == 0.0 && Ratio(p) == 0.0;
    }
  }

  /** There is nothing else to present exactly when no observation has a second output and no case a
      second repetition that produced one. */
  lemma NothingToPresent(reference: Run)
    ensures ReorderedAuthority(reference).None? <==>
              && (forall i :: 0 <= i < |reference.observations| ==> reference.observations[i].reorder.None?)
              && (forall c: string :: |Outputs(reference.observations, c)| < 2)
  {
    hide Outputs, Rank, Rotated, InSecondOrder;
    RepeatsExactly(reference.observations);
  }

  lemma RepeatsExactly(obs: seq<Observation>)
    ensures Repeats(obs) <==> exists c: string :: |Outputs(obs, c)| >= 2
  {
    hide Outputs, Rank;
    if c: string :| |Outputs(obs, c)| >= 2 {
      var i := OutputHasSource(obs, c, 0);
      assert |Outputs(obs, obs[i].caseId)| >= 2;
    }
  }
}

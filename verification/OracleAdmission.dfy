/** An authority without a second summation order: when the gate admits its own repetitions, rotated
    within each case. */
module OracleAdmission {
  import opened Outcomes
  import opened OracleComparison
  import opened OracleCalibration

  // ----- The rotated run has the same keys

  lemma {:induction false} ByKeyUnique(obs: seq<Observation>, i: nat)
    requires i < |obs| && forall a, b :: 0 <= a < b < |obs| ==> KeyOf(obs[a]) != KeyOf(obs[b])
    ensures KeyOf(obs[i]) in ByKey(obs) && ByKey(obs)[KeyOf(obs[i])] == obs[i]
    decreases |obs|
  {
    hide KeyOf;
    var n := |obs| - 1;
    if i < n {
      ByKeyUnique(obs[..n], i);
      assert obs[..n][i] == obs[i];
    }
  }

  lemma SameKeys(obs: seq<Observation>, other: seq<Observation>)
    requires |obs| == |other| && forall i :: 0 <= i < |obs| ==> KeyOf(obs[i]) == KeyOf(other[i])
    ensures ByKey(obs).Keys == ByKey(other).Keys
  {
  }

  /** What rotation leaves alone, and where the new output comes from. */
  lemma RotationFacts(obs: seq<Observation>, i: nat)
    requires i < |obs|
    ensures Rotated(obs)[i] == obs[i].(output := Rotated(obs)[i].output)
    ensures Rotated(obs)[i].output.Some? <==> obs[i].output.Some?
    ensures obs[i].output.Some? ==>
              var outputs := Outputs(obs, obs[i].caseId);
              && Rank(obs, i) < |outputs| && outputs[Rank(obs, i)] == obs[i].output.value
              && Rotated(obs)[i].output == Some(outputs[(Rank(obs, i) + 1) % |outputs|])
  {
    hide Outputs, Rank;
    if obs[i].output.Some? {
      RankFinds(obs, i);
    }
  }

  /** The rotated run's outputs of a case are the authority's, each one place further on. */
  lemma {:induction false} RotatedInOrder(obs: seq<Observation>, n: nat, c: string)
    requires n <= |obs|
    ensures var outputs, seen := Outputs(obs, c), Outputs(Rotated(obs)[..n], c);
            && |seen| == |Outputs(obs[..n], c)| <= |outputs|
            && forall j :: 0 <= j < |seen| ==> seen[j] == After(outputs, j)
    decreases n
  {
    hide Outputs, Rotated, RotatedObservation;
    OutputsPrefix(obs, n, c);
    if n == 0 {
      NoneProduced(c);
      assert Rotated(obs)[..0] == [] && obs[..0] == [];
    } else {
      RotatedInOrder(obs, n - 1, c);
      RotationFacts(obs, n - 1);
      OneMoreOutput(obs, n - 1, c);
      OneMoreOutput(Rotated(obs), n - 1, c);
      if obs[n - 1].caseId == c && obs[n - 1].output.Some? {
        AfterIsNext(Outputs(obs, c), Rank(obs, n - 1));
      }
    }
  }

  lemma NoneProduced(c: string)
    ensures Outputs([], c) == []
  {
  }

  lemma OneMoreOutput(obs: seq<Observation>, i: nat, c: string)
    requires i < |obs|
    ensures Outputs(obs[..i + 1], c) == Outputs(obs[..i], c) + Produced(obs[i], c)
  {
    assert obs[..i + 1][..i] == obs[..i];
  }

  lemma RotatedOutputs(reference: Run, c: string)
    requires ValidRun(reference)
    ensures var obs := reference.observations;
            var outputs, seen := Outputs(obs, c), SuccessfulOutputs(Rotated(obs), c);
            && |seen| == |outputs|
            && forall j :: 0 <= j < |seen| ==> seen[j] == After(outputs, j)
  {
    hide Outputs, Rotated, SuccessfulOutputs, RotatedObservation;
    var obs := reference.observations;
    RotatedInOrder(obs, |obs|, c);
    assert Rotated(obs)[..|obs|] == Rotated(obs) && obs[..|obs|] == obs;
    forall i | 0 <= i < |obs|
      ensures Rotated(obs)[i].status == 0 <==> Rotated(obs)[i].output.Some?
    {
      RotationFacts(obs, i);
    }
    SuccessfulAreOutputs(Rotated(obs), c);
  }

  // ----- What one case needs

  /** The step from the last repetition back to the first, and every repetition against the second. */
  ghost predicate Wraps(outputs: seq<Fp32>, p: Policy) {
    outputs != [] ==>
      && Within(outputs[|outputs| - 1], outputs[0], p)
      && forall j :: 0 <= j < |outputs| ==> Within(outputs[1 % |outputs|], outputs[j], p)
  }

  ghost predicate AllWrap(obs: seq<Observation>, p: Policy) {
    forall c: string :: Wraps(Outputs(obs, c), p)
  }

  /** The output that takes the place of this one. */
  function After(outputs: seq<Fp32>, j: nat): Fp32
    requires j < |outputs|
  {
    if j + 1 < |outputs| then outputs[j + 1] else outputs[0]
  }

  lemma AfterIsNext(outputs: seq<Fp32>, j: nat)
    requires j < |outputs|
    ensures outputs[(j + 1) % |outputs|] == After(outputs, j)
  {
  }

  /** Positive zero is followed by positive zero. */
  ghost predicate ZerosFollow(outputs: seq<Fp32>) {
    forall j {:trigger After(outputs, j)} :: 0 <= j < |outputs| && outputs[j] == Finite(0.0) ==>
      After(outputs, j) == Finite(0.0)
  }

  lemma {:induction false} ZerosUp(outputs: seq<Fp32>, j: nat, k: nat)
    requires ZerosFollow(outputs) && j <= k < |outputs| && outputs[j] == Finite(0.0)
    ensures outputs[k] == Finite(0.0)
    decreases k
  {
    if j < k {
      ZerosUp(outputs, j, k - 1);
      assert After(outputs, k - 1) == outputs[k];
    }
  }

  lemma ZerosSpread(outputs: seq<Fp32>, j: nat, k: nat)
    requires ZerosFollow(outputs) && j < |outputs| && k < |outputs| && outputs[j] == Finite(0.0)
    ensures outputs[k] == Finite(0.0)
  {
    ZerosUp(outputs, j, |outputs| - 1);
    assert After(outputs, |outputs| - 1) == outputs[0];
    ZerosUp(outputs, 0, k);
  }

  lemma FollowingZerosReproduce(obs: seq<Observation>)
    requires forall c: string :: ZerosFollow(Outputs(obs, c))
    ensures ZerosReproduced(obs)
  {
    hide Outputs, Rank, ZerosFollow;
    forall i, j | 0 <= i < |obs| && 0 <= j < |obs| && obs[i].caseId == obs[j].caseId
                  && obs[i].output == Some(Finite(0.0)) && obs[j].output.Some?
      ensures obs[j].output == Some(Finite(0.0))
    {
      RankFinds(obs, i);
      RankFinds(obs, j);
      ZerosSpread(Outputs(obs, obs[i].caseId), Rank(obs, i), Rank(obs, j));
    }
  }

  // ----- Admission

  /** Everything that the theorem is about: a measured authority without a second-order column. */
  ghost predicate Measured(reference: Run, corpus: Corpus, plan: Plan, policy: Policy) {
    && ValidRun(reference) && reference.invoked && reference.synchronized
    && Covers(reference, corpus, plan.repetitions)
    && !HasSecondOrder(reference.observations) && Repeats(reference.observations)
    && NoiseFloor(reference, corpus).Ok?
    && Derive(NoiseFloor(reference, corpus).value, plan) == Ok(policy)
  }

  lemma MeasuredFacts(reference: Run, corpus: Corpus, plan: Plan, policy: Policy)
    requires Measured(reference, corpus, plan, policy)
    ensures var obs := reference.observations;
            && ValidRun(reference) && Covers(reference, corpus, plan.repetitions)
            && reference.invoked && reference.synchronized && RepetitionsOk(reference, policy)
            && (forall p :: p in WindowPairs(obs) ==> FinitePair(p))
            && Derive(FloorOf(ReorderPairs(obs) + WindowPairs(obs)), plan) == Ok(policy)
            && ReorderedAuthority(reference) == Some(Presented(reference, Rotated(obs)))
  {
    hide Rotated, Outputs, WindowPairs, ReorderPairs, FloorOf, Derive, RepetitionsOf, NoiseFloor, ValidRun, Repeats,
      HasSecondOrder, ByKey, CasesByKey;
    NoiseFloorFacts(reference, corpus);
    DeriveKeepsRepetitions(NoiseFloor(reference, corpus).value, plan);
  }

  lemma NoiseFloorFacts(reference: Run, corpus: Corpus)
    requires NoiseFloor(reference, corpus).Ok?
    ensures var obs := reference.observations;
            && (forall p :: p in WindowPairs(obs) ==> FinitePair(p))
            && NoiseFloor(reference, corpus).value == FloorOf(ReorderPairs(obs) + WindowPairs(obs))
  {
  }

  lemma DeriveKeepsRepetitions(floor: Floor, plan: Plan)
    ensures Derive(floor, plan).Ok? ==> Derive(floor, plan).value.repetitions == plan.repetitions
  {
  }

  /** Adjacent repetitions always agree, whichever is expected. */
  lemma NeighboursAgree(reference: Run, corpus: Corpus, plan: Plan, policy: Policy, c: string, k: nat)
    requires Measured(reference, corpus, plan, policy) && k + 1 < |Outputs(reference.observations, c)|
    ensures Within(Outputs(reference.observations, c)[k], Outputs(reference.observations, c)[k + 1], policy)
    ensures Within(Outputs(reference.observations, c)[k + 1], Outputs(reference.observations, c)[k], policy)
  {
    hide Measured, Outputs, WindowPairs, ReorderPairs, FloorOf, Derive, RepetitionsOk, ValidRun, Covers, Bound,
      ReorderedAuthority;
    var obs := reference.observations;
    var outputs, pairs := Outputs(obs, c), ReorderPairs(obs) + WindowPairs(obs);
    MeasuredFacts(reference, corpus, plan, policy);
    var p := (outputs[k], outputs[k + 1]);
    WindowIsListed(obs, c, k, p);
    assert p in pairs;
    DerivedCovers(pairs, plan, p, ToReal(outputs[k]));
    DerivedCovers(pairs, plan, p, ToReal(outputs[k + 1]));
  }

  lemma RotatedMatches(reference: Run, corpus: Corpus, plan: Plan, policy: Policy, i: nat, c: Case)
    requires Measured(reference, corpus, plan, policy)
    requires AllWrap(reference.observations, policy) && ZerosReproduced(reference.observations)
    requires i < |reference.observations|
    requires c.elements == reference.observations[i].elements && c.input == reference.observations[i].input
    ensures Matches(reference.observations[i], Rotated(reference.observations)[i], c, policy)
  {
    hide Measured, Outputs, Rank, Rotated, Within, Covers, Derive, FloorOf, WindowPairs, ReorderPairs, RepetitionsOk,
      ReorderedAuthority;
    var obs := reference.observations;
    var o := obs[i];
    RotationFacts(obs, i);
    MeasuredFacts(reference, corpus, plan, policy);
    if o.output.Some? {
      var outputs := Outputs(obs, o.caseId);
      var k := Rank(obs, i);
      assert Wraps(outputs, policy);
      if k + 1 < |outputs| {
        NeighboursAgree(reference, corpus, plan, policy, o.caseId, k);
      }
      AfterIsNext(outputs, k);
      var j := OutputHasSource(obs, o.caseId, if k + 1 < |outputs| then k + 1 else 0);
    }
  }

  lemma RotatedRepeats(reference: Run, policy: Policy, c: string)
    requires ValidRun(reference) && Wraps(Outputs(reference.observations, c), policy)
    ensures !Disagree(SuccessfulOutputs(Rotated(reference.observations), c), policy)
  {
    hide Outputs, Rotated, Within, SuccessfulOutputs, ValidRun;
    RotatedOutputs(reference, c);
  }

  lemma SameRotatedKeys(obs: seq<Observation>)
    ensures forall i :: 0 <= i < |obs| ==> KeyOf(obs[i]) == KeyOf(Rotated(obs)[i])
    ensures ByKey(obs).Keys == ByKey(Rotated(obs)).Keys
  {
    hide Rotated, ByKey, RotatedObservation;
    forall i | 0 <= i < |obs| ensures KeyOf(obs[i]) == KeyOf(Rotated(obs)[i]) {
      RotationFacts(obs, i);
    }
    SameKeys(obs, Rotated(obs));
  }

  lemma RotatedAgrees(reference: Run, corpus: Corpus, plan: Plan, policy: Policy)
    requires Measured(reference, corpus, plan, policy)
    requires AllWrap(reference.observations, policy) && ZerosReproduced(reference.observations)
    ensures Agrees(reference, ReorderedAuthority(reference).value, policy, corpus)
  {
    hide Measured, Outputs, Rotated, Matches, Disagree, SuccessfulOutputs, ReorderedAuthority, ZerosReproduced,
      RotatedObservation, ByKey, CasesByKey, RepetitionsOf, WindowPairs, ReorderPairs, FloorOf, Derive, Wraps;
    var obs := reference.observations;
    var rotated := Rotated(obs);
    MeasuredFacts(reference, corpus, plan, policy);
    SameRotatedKeys(obs);
    var expected, actual, cases := ByKey(obs), ByKey(rotated), CasesByKey(corpus.cases);
    forall k | k in expected ensures Matches(expected[k], actual[k], cases[k], policy) {
      var i := ByKeyFrom(obs, k);
      ByKeyUnique(obs, i);
      ByKeyUnique(rotated, i);
      RotatedMatches(reference, corpus, plan, policy, i, cases[k]);
    }
    forall c | c in RepetitionsOf(obs) ensures !Disagree(SuccessfulOutputs(rotated, c), policy) {
      assert Wraps(Outputs(obs, c), policy);
      RotatedRepeats(reference, policy, c);
    }
  }

  // ----- And only then

  lemma AdmissionMatches(reference: Run, corpus: Corpus, plan: Plan, policy: Policy, i: nat) returns (c: Case)
    requires Measured(reference, corpus, plan, policy) && i < |reference.observations|
    requires Agrees(reference, ReorderedAuthority(reference).value, policy, corpus)
    ensures Matches(reference.observations[i], Rotated(reference.observations)[i], c, policy)
    ensures !Disagree(SuccessfulOutputs(Rotated(reference.observations), reference.observations[i].caseId), policy)
  {
    hide Measured, Outputs, Rotated, Matches, Disagree, SuccessfulOutputs, ReorderedAuthority,
      RotatedObservation, ByKey, CasesByKey, RepetitionsOf, WindowPairs, ReorderPairs, FloorOf, Derive;
    var obs := reference.observations;
    MeasuredFacts(reference, corpus, plan, policy);
    SameRotatedKeys(obs);
    ByKeyUnique(obs, i);
    ByKeyUnique(Rotated(obs), i);
    c := CasesByKey(corpus.cases)[KeyOf(obs[i])];
  }

  /** What admission says about one output and the next. */
  lemma AdmissionSteps(reference: Run, corpus: Corpus, plan: Plan, policy: Policy, c: string, k: nat)
    requires Measured(reference, corpus, plan, policy) && k < |Outputs(reference.observations, c)|
    requires Agrees(reference, ReorderedAuthority(reference).value, policy, corpus)
    ensures var outputs := Outputs(reference.observations, c);
            var next := After(outputs, k);
            && Within(outputs[k], next, policy)
            && (outputs[k] == Finite(0.0) ==> next == Finite(0.0))
    ensures !Disagree(SuccessfulOutputs(Rotated(reference.observations), c), policy)
  {
    hide Measured, Agrees, Outputs, Rank, Rotated, Disagree, SuccessfulOutputs, Within, ReorderedAuthority;
    var obs := reference.observations;
    var i := OutputHasSource(obs, c, k);
    var matched := AdmissionMatches(reference, corpus, plan, policy, i);
    RotationFacts(obs, i);
    AfterIsNext(Outputs(obs, c), k);
  }

  lemma AdmissionWraps(reference: Run, corpus: Corpus, plan: Plan, policy: Policy, c: string)
    requires Measured(reference, corpus, plan, policy)
    requires Agrees(reference, ReorderedAuthority(reference).value, policy, corpus)
    ensures Wraps(Outputs(reference.observations, c), policy) && ZerosFollow(Outputs(reference.observations, c))
  {
    hide Measured, Agrees, Outputs, Rotated, SuccessfulOutputs, Within, ReorderedAuthority, WindowPairs, ReorderPairs,
      FloorOf, Derive, ValidRun, Covers, RepetitionsOk;
    var outputs := Outputs(reference.observations, c);
    var n := |outputs|;
    forall k | 0 <= k < n
      ensures Within(outputs[k], After(outputs, k), policy)
      ensures outputs[k] == Finite(0.0) ==> After(outputs, k) == Finite(0.0)
    {
      AdmissionSteps(reference, corpus, plan, policy, c, k);
    }
    if n > 0 {
      MeasuredFacts(reference, corpus, plan, policy);
      RotatedOutputs(reference, c);
      var seen := SuccessfulOutputs(Rotated(reference.observations), c);
      AdmissionSteps(reference, corpus, plan, policy, c, 0);
      assert Within(outputs[n - 1], After(outputs, n - 1), policy);
      forall j | 0 <= j < n ensures Within(outputs[1 % n], outputs[j], policy) {
        AgainstSecond(outputs, seen, policy, j);
      }
    }
  }

  /** The rotated run's first output is the second one, and it agrees with itself and with the rest. */
  lemma AgainstSecond(outputs: seq<Fp32>, seen: seq<Fp32>, p: Policy, j: nat)
    requires |seen| == |outputs| && j < |outputs| && !Disagree(seen, p)
    requires forall k :: 0 <= k < |seen| ==> seen[k] == After(outputs, k)
    requires forall k :: 0 <= k < |outputs| ==> Within(outputs[k], After(outputs, k), p)
    ensures Within(outputs[1 % |outputs|], outputs[j], p)
  {
    hide Within;
    var n := |outputs|;
    var m := if j == 0 then n - 1 else j - 1;
    AfterIsNext(outputs, 0);
    assert seen[0] == outputs[1 % n] && seen[m] == outputs[j];
    if m == 0 {
      WithinItself(outputs[1 % n], After(outputs, 1 % n), p);
    }
  }

  lemma WithinItself(x: Fp32, y: Fp32, p: Policy)
    requires Within(x, y, p)
    ensures Within(x, x, p)
  {
    hide Bound;
    BoundIsNatural(ToReal(x), p);
  }

  /** For every measured authority, whatever its number of repetitions, the derived tolerance admits the
      rotated run exactly when positive zero is reproduced and, in each case, the first output lies
      within tolerance of the last and every output within tolerance of the second. Adjacent repetitions
      never need checking: they were measured. */
  lemma RotatedAuthorityAdmitted(reference: Run, corpus: Corpus, plan: Plan, policy: Policy)
    requires Measured(reference, corpus, plan, policy)
    ensures ReorderedAuthority(reference).Some?
    ensures Agrees(reference, ReorderedAuthority(reference).value, policy, corpus) <==>
              AllWrap(reference.observations, policy) && ZerosReproduced(reference.observations)
  {
    hide Measured, Agrees, ReorderedAuthority, ZerosReproduced, Wraps, ZerosFollow, ValidRun, Covers, RepetitionsOk,
      WindowPairs, ReorderPairs, FloorOf, Derive, Outputs, Rotated;
    var obs := reference.observations;
    MeasuredFacts(reference, corpus, plan, policy);
    if AllWrap(obs, policy) && ZerosReproduced(obs) {
      RotatedAgrees(reference, corpus, plan, policy);
    }
    if Agrees(reference, ReorderedAuthority(reference).value, policy, corpus) {
      forall c: string ensures Wraps(Outputs(obs, c), policy) && ZerosFollow(Outputs(obs, c)) {
        AdmissionWraps(reference, corpus, plan, policy, c);
      }
      FollowingZerosReproduce(obs);
    }
  }

  /** With two repetitions per case nothing is left to check but finiteness. */
  lemma TwoRepetitionsWrap(reference: Run, corpus: Corpus, plan: Plan, policy: Policy)
    requires Measured(reference, corpus, plan, policy) && plan.repetitions == 2
    ensures AllWrap(reference.observations, policy) <==> AllFinite(reference.observations)
  {
    hide Measured, Outputs, Rank, Within, ValidRun, WindowPairs, ReorderPairs, FloorOf, Derive, ReorderedAuthority,
      ByKey, CasesByKey, RepetitionsOf;
    var obs := reference.observations;
    MeasuredFacts(reference, corpus, plan, policy);
    if AllWrap(obs, policy) {
      forall i | 0 <= i < |obs| && obs[i].output.Some? ensures !obs[i].output.value.NonFinite? {
        RankFinds(obs, i);
        var outputs := Outputs(obs, obs[i].caseId);
        assert Wraps(outputs, policy);
        assert Within(outputs[1 % |outputs|], outputs[Rank(obs, i)], policy);
        WithinIsFinite(outputs[1 % |outputs|], outputs[Rank(obs, i)], policy);
      }
    }
    if AllFinite(obs) {
      forall c: string ensures Wraps(Outputs(obs, c), policy) {
        AtMostTwo(reference, c);
        FewWrap(reference, corpus, plan, policy, c);
      }
    }
  }

  lemma WithinIsFinite(x: Fp32, y: Fp32, p: Policy)
    requires Within(x, y, p)
    ensures !x.NonFinite? && !y.NonFinite?
  {
  }

  lemma FiniteWithinItself(x: Fp32, p: Policy)
    requires !x.NonFinite?
    ensures Within(x, x, p)
  {
    hide Bound;
    BoundIsNatural(ToReal(x), p);
  }

  lemma FewWrap(reference: Run, corpus: Corpus, plan: Plan, policy: Policy, c: string)
    requires Measured(reference, corpus, plan, policy) && AllFinite(reference.observations)
    requires |Outputs(reference.observations, c)| <= 2
    ensures Wraps(Outputs(reference.observations, c), policy)
  {
    hide Measured, Outputs, Rank, Within;
    var obs := reference.observations;
    var outputs := Outputs(obs, c);
    forall j | 0 <= j < |outputs| ensures Within(outputs[j], outputs[j], policy) {
      var i := OutputHasSource(obs, c, j);
      FiniteWithinItself(outputs[j], policy);
    }
    if |outputs| == 2 {
      NeighboursAgree(reference, corpus, plan, policy, c, 0);
      assert 1 % 2 == 1;
    } else if |outputs| == 1 {
      assert 1 % 1 == 0;
    }
  }

  /** The plan in use: two repetitions per case are admitted exactly when every output is finite and
      positive zero is reproduced. */
  lemma TwoRepetitionsAdmitted(reference: Run, corpus: Corpus, plan: Plan, policy: Policy)
    requires Measured(reference, corpus, plan, policy) && plan.repetitions == 2
    ensures ReorderedAuthority(reference).Some?
    ensures Agrees(reference, ReorderedAuthority(reference).value, policy, corpus) <==>
              AllFinite(reference.observations) && ZerosReproduced(reference.observations)
  {
    hide Measured, Agrees, ReorderedAuthority, AllFinite, ZerosReproduced, AllWrap;
    RotatedAuthorityAdmitted(reference, corpus, plan, policy);
    TwoRepetitionsWrap(reference, corpus, plan, policy);
  }

  // ----- An authority that is measured

  ghost function Summed(d: Digest, n: nat, value: real): Observation {
    Observation("sum", n, 4, d, 0, Some(Finite(value)), None)
  }

  /** Two repetitions of one case, 10 and 11. */
  ghost function Repeating(d: Digest): Run {
    Run(d, CudaReference, None, d, d, true, true, [Summed(d, 1, 10.0), Summed(d, 2, 11.0)])
  }

  ghost function RepeatedCorpus(d: Digest): Corpus {
    Corpus(d, [Case("sum", 1, 4, d), Case("sum", 2, 4, d)])
  }

  lemma RepeatingOutputs(d: Digest)
    ensures var obs := Repeating(d).observations;
            && Outputs(obs, "sum") == [Finite(10.0), Finite(11.0)]
            && ReorderPairs(obs) == [] && WindowPairs(obs) == [(Finite(10.0), Finite(11.0))]
  {
    var obs := Repeating(d).observations;
    var one := obs[..1];
    assert one[..0] == [];
    assert Outputs(one, "sum") == [Finite(10.0)] && ReorderPairs(one) == [] && WindowPairs(one) == [];
  }

  lemma RepeatingFloor(d: Digest)
    ensures NoiseFloor(Repeating(d), RepeatedCorpus(d)) == Ok(Floor(1_000_000_000, 100_000_000, false))
  {
    hide Outputs, WindowPairs, ReorderPairs;
    RepeatingOutputs(d);
    var a: Pair := (Finite(10.0), Finite(11.0));
    assert [] + [a] == [a] && [a][..0] == [];
    assert Error(a) == 1.0 && Ratio(a) == 0.1;
    assert MaxOf([a], Error) == 1.0 && MaxOf([a], Ratio) == 0.1;
    assert a in [a] && a.0 != a.1;
  }

  lemma RepeatingCovers(d: Digest)
    ensures Covers(Repeating(d), RepeatedCorpus(d), 2)
  {
    var obs, cases := Repeating(d).observations, RepeatedCorpus(d).cases;
    var one, first := obs[..1], cases[..1];
    assert one[..0] == [] && first[..0] == [];
    assert ByKey(one) == map[("sum", 1) := obs[0]];
    assert ByKey(obs) == map[("sum", 1) := obs[0], ("sum", 2) := obs[1]];
    assert CasesByKey(first) == map[("sum", 1) := cases[0]];
    assert CasesByKey(cases) == map[("sum", 1) := cases[0], ("sum", 2) := cases[1]];
    RepeatedTwice(d);
  }

  lemma RepeatedTwice(d: Digest)
    ensures RepetitionsOk(Repeating(d), Policy(0, 0, 2))
  {
    var obs := Repeating(d).observations;
    var one := obs[..1];
    assert one[..0] == [] && one[0] == obs[0];
    assert RepetitionsOf(one) == WithRepetition(RepetitionsOf(one[..0]), obs[0]);
    assert RepetitionsOf(obs) == WithRepetition(RepetitionsOf(one), obs[1]);
    var m := RepetitionsOf(obs);
    assert m.Keys == {"sum"};
    assert m["sum"] == {} + {1} + {2};
    assert UpTo(2) == {} + {1} + {2};
  }

  /** The theorem is about something: this authority is measured, and its rotated run is admitted. */
  lemma RepeatingIsAdmitted(d: Digest)
    ensures Measured(Repeating(d), RepeatedCorpus(d), Plan(50, 2), Policy(1_500_000_000, 150_000_000, 2))
    ensures Agrees(Repeating(d), ReorderedAuthority(Repeating(d)).value, Policy(1_500_000_000, 150_000_000, 2),
                   RepeatedCorpus(d))
  {
    hide NoiseFloor, Outputs, Covers, Agrees, ReorderedAuthority, WindowPairs, ReorderPairs;
    RepeatingOutputs(d);
    RepeatingFloor(d);
    RepeatingCovers(d);
    assert Repeating(d).observations[0].caseId == "sum";
    assert Repeats(Repeating(d).observations);
    TwoRepetitionsAdmitted(Repeating(d), RepeatedCorpus(d), Plan(50, 2), Policy(1_500_000_000, 150_000_000, 2));
  }

  // ----- More than two repetitions

  /** An authority that drifts: 10, then 11, then 12. */
  ghost function Drifting(d: Digest): Run {
    Run(d, CudaReference, None, d, d, true, true, [Summed(d, 1, 10.0), Summed(d, 2, 11.0), Summed(d, 3, 12.0)])
  }

  lemma DriftingOutputs(d: Digest)
    ensures var obs := Drifting(d).observations;
            && Outputs(obs, "sum") == [Finite(10.0), Finite(11.0), Finite(12.0)]
            && Rank(obs, 2) == 2
            && ReorderPairs(obs) == []
            && WindowPairs(obs) == [(Finite(10.0), Finite(11.0)), (Finite(11.0), Finite(12.0))]
  {
    var obs := Drifting(d).observations;
    var two, one := obs[..2], obs[..1];
    assert two[..1] == one && one[..0] == [];
    assert Outputs(one, "sum") == [Finite(10.0)];
    assert Outputs(two, "sum") == [Finite(10.0), Finite(11.0)];
    assert ReorderPairs(one) == [] && ReorderPairs(two) == [];
    assert WindowPairs(one) == [];
    assert WindowPairs(two) == [(Finite(10.0), Finite(11.0))];
  }

  lemma DriftingFloor(d: Digest)
    ensures FloorOf([(Finite(10.0), Finite(11.0)), (Finite(11.0), Finite(12.0))])
            == Floor(1_000_000_000, 100_000_000, false)
  {
    var a: Pair, b: Pair := (Finite(10.0), Finite(11.0)), (Finite(11.0), Finite(12.0));
    var pairs := [a, b];
    assert pairs[..1] == [a] && [a][..0] == [];
    assert Error(a) == 1.0 && Error(b) == 1.0;
    assert Ratio(a) == 0.1 && Ratio(b) == 1.0 / 11.0;
    assert MaxOf([a], Error) == 1.0 && MaxOf([a], Ratio) == 0.1;
    assert a in pairs && a.0 != a.1;
  }

  ghost function DriftedCorpus(d: Digest): Corpus {
    Corpus(d, [Case("sum", 1, 4, d), Case("sum", 2, 4, d), Case("sum", 3, 4, d)])
  }

  lemma DriftingSpread(d: Digest)
    ensures NoiseFloor(Drifting(d), DriftedCorpus(d)) == Ok(Floor(1_000_000_000, 100_000_000, false))
  {
    hide Outputs, WindowPairs, ReorderPairs, FloorOf, Rank;
    DriftingOutputs(d);
    DriftingFloor(d);
    var pairs: seq<Pair> := [(Finite(10.0), Finite(11.0)), (Finite(11.0), Finite(12.0))];
    assert [] + pairs == pairs;
  }

  lemma DriftingKeys(d: Digest)
    ensures var obs, cases := Drifting(d).observations, DriftedCorpus(d).cases;
            && ByKey(obs) == map[("sum", 1) := obs[0], ("sum", 2) := obs[1], ("sum", 3) := obs[2]]
            && CasesByKey(cases) == map[("sum", 1) := cases[0], ("sum", 2) := cases[1], ("sum", 3) := cases[2]]
  {
    var obs, cases := Drifting(d).observations, DriftedCorpus(d).cases;
    var two, one, second, first := obs[..2], obs[..1], cases[..2], cases[..1];
    assert two[..1] == one && one[..0] == [] && second[..1] == first && first[..0] == [];
    assert ByKey(one) == map[("sum", 1) := obs[0]];
    assert ByKey(two) == map[("sum", 1) := obs[0], ("sum", 2) := obs[1]];
    assert CasesByKey(first) == map[("sum", 1) := cases[0]];
    assert CasesByKey(second) == map[("sum", 1) := cases[0], ("sum", 2) := cases[1]];
  }

  lemma RepeatedThrice(d: Digest)
    ensures RepetitionsOk(Drifting(d), Policy(0, 0, 3))
  {
    var obs := Drifting(d).observations;
    var two, one := obs[..2], obs[..1];
    assert two[..1] == one && one[..0] == [] && one[0] == obs[0] && two[1] == obs[1];
    assert RepetitionsOf(one) == WithRepetition(RepetitionsOf(one[..0]), obs[0]);
    assert RepetitionsOf(two) == WithRepetition(RepetitionsOf(one), obs[1]);
    assert RepetitionsOf(obs) == WithRepetition(RepetitionsOf(two), obs[2]);
    var m := RepetitionsOf(obs);
    assert m.Keys == {"sum"} && m["sum"] == {} + {1} + {2} + {3};
    assert UpTo(2) == {} + {1} + {2} && UpTo(3) == UpTo(2) + {3};
  }

  /** Only adjacent repetitions are measured, so with three of them the step from the last back to
      the first can exceed what the half-again slack allows, and the rotated authority is refused. */
  lemma ThreeRepetitionsCanBeRefused(d: Digest)
    ensures Measured(Drifting(d), DriftedCorpus(d), Plan(50, 3), Policy(1_500_000_000, 150_000_000, 3))
    ensures ReorderedAuthority(Drifting(d)).Some?
    ensures !Agrees(Drifting(d), ReorderedAuthority(Drifting(d)).value, Policy(1_500_000_000, 150_000_000, 3),
                    DriftedCorpus(d))
  {
    hide NoiseFloor, Outputs, Rank, Agrees, ReorderedAuthority, WindowPairs, ReorderPairs, ByKey, CasesByKey,
      RepetitionsOk;
    var policy := Policy(1_500_000_000, 150_000_000, 3);
    var obs := Drifting(d).observations;
    DriftingOutputs(d);
    DriftingSpread(d);
    DriftingKeys(d);
    RepeatedThrice(d);
    assert obs[0].caseId == "sum" && Repeats(obs);
    RotatedAuthorityAdmitted(Drifting(d), DriftedCorpus(d), Plan(50, 3), policy);
    var outputs := Outputs(obs, "sum");
    assert outputs[2] == Finite(12.0) && outputs[0] == Finite(10.0);
    assert !Within(Finite(12.0), Finite(10.0), policy);
    assert !Wraps(outputs, policy);
  }
}

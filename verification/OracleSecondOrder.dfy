/** An authority that also sums in a second order: when the gate admits that order's results. */
module OracleSecondOrder {
  import opened Outcomes
  import opened OracleComparison
  import opened OracleCalibration
  import OracleAdmission

  // ----- The second-order column

  function SecondOf(o: Observation, c: string): seq<Fp32> {
    if o.caseId == c && o.reorder.Some? then [o.reorder.value] else []
  }

  /** Every second-order output of one case, in observation order. */
  function Seconds(obs: seq<Observation>, c: string): seq<Fp32> {
    if obs == [] then [] else Seconds(obs[..|obs| - 1], c) + SecondOf(obs[|obs| - 1], c)
  }

  /** The column is complete: an observation has a second output exactly when it has a first. */
  ghost predicate Complete(obs: seq<Observation>) {
    forall i :: 0 <= i < |obs| ==> (obs[i].reorder.Some? <==> obs[i].output.Some?)
  }

  /** No more pairs than outputs, and a gap in the column leaves fewer. */
  lemma {:induction false} PairsAreCounted(obs: seq<Observation>)
    ensures |ReorderPairs(obs)| <= Successes(obs)
    ensures |ReorderPairs(obs)| == Successes(obs) ==>
              forall i :: 0 <= i < |obs| && obs[i].output.Some? ==> obs[i].reorder.Some?
    decreases |obs|
  {
    if obs != [] {
      var init := obs[..|obs| - 1];
      PairsAreCounted(init);
      assert forall i :: 0 <= i < |init| ==> obs[i] == init[i];
    }
  }

  lemma {:induction false} PairIsListed(obs: seq<Observation>, i: nat)
    requires i < |obs| && obs[i].output.Some? && obs[i].reorder.Some?
    ensures (obs[i].output.value, obs[i].reorder.value) in ReorderPairs(obs)
    decreases |obs|
  {
    if i < |obs| - 1 {
      PairIsListed(obs[..|obs| - 1], i);
    }
  }

  lemma {:induction false} SecondsAreSeen(obs: seq<Observation>, c: string)
    requires Complete(obs) && forall i :: 0 <= i < |obs| ==> (obs[i].status == 0 <==> obs[i].output.Some?)
    ensures SuccessfulOutputs(InSecondOrder(obs), c) == Seconds(obs, c)
    decreases |obs|
  {
    if obs != [] {
      var n := |obs| - 1;
      SecondsAreSeen(obs[..n], c);
      assert InSecondOrder(obs)[..n] == InSecondOrder(obs[..n]);
    }
  }

  // ----- Admission

  /** A measured authority with a second-order column. */
  ghost predicate Measured(reference: Run, corpus: Corpus, plan: Plan, policy: Policy) {
    && ValidRun(reference) && reference.invoked && reference.synchronized
    && Covers(reference, corpus, plan.repetitions)
    && HasSecondOrder(reference.observations)
    && NoiseFloor(reference, corpus).Ok?
    && Derive(NoiseFloor(reference, corpus).value, plan) == Ok(policy)
  }

  /** Positive zero is positive zero in the second order too. */
  ghost predicate ZerosKept(obs: seq<Observation>) {
    forall i :: 0 <= i < |obs| && obs[i].output == Some(Finite(0.0)) ==> obs[i].reorder == Some(Finite(0.0))
  }

  /** Every result lies within tolerance of the first. */
  ghost predicate Repeated(outputs: seq<Fp32>, p: Policy) {
    forall j :: 0 < j < |outputs| ==> Within(outputs[0], outputs[j], p)
  }

  /** The second order repeats itself in every case. */
  ghost predicate Steady(obs: seq<Observation>, p: Policy) {
    forall c: string :: Repeated(Seconds(obs, c), p)
  }

  lemma FloorFacts(reference: Run, corpus: Corpus)
    requires NoiseFloor(reference, corpus).Ok?
    ensures var obs := reference.observations;
            && (forall p :: p in ReorderPairs(obs) ==> FinitePair(p))
            && (ReorderPairs(obs) == [] || |ReorderPairs(obs)| == Successes(obs))
  {
  }

  lemma MeasuredFacts(reference: Run, corpus: Corpus, plan: Plan, policy: Policy)
    requires Measured(reference, corpus, plan, policy)
    ensures var obs := reference.observations;
            && ValidRun(reference) && Covers(reference, corpus, plan.repetitions)
            && reference.invoked && reference.synchronized && RepetitionsOk(reference, policy)
            && Complete(obs) && (forall p :: p in ReorderPairs(obs) ==> FinitePair(p))
            && Derive(FloorOf(ReorderPairs(obs) + WindowPairs(obs)), plan) == Ok(policy)
            && ReorderedAuthority(reference)
               == Some(Presented(reference, InSecondOrder(obs)))
  {
    hide Outputs, WindowPairs, ReorderPairs, FloorOf, Derive, RepetitionsOf, NoiseFloor, InSecondOrder, ByKey, CasesByKey,
      ValidRun, Complete, HasSecondOrder, ReorderedAuthority, FinitePair;
    OracleAdmission.NoiseFloorFacts(reference, corpus);
    OracleAdmission.DeriveKeepsRepetitions(NoiseFloor(reference, corpus).value, plan);
    FloorFacts(reference, corpus);
    ColumnIsComplete(reference);
    PresentedInSecondOrder(reference);
  }

  /** A column that is there at all and has as many pairs as outputs has no gap. */
  lemma ColumnIsComplete(reference: Run)
    requires ValidRun(reference) && HasSecondOrder(reference.observations)
    requires ReorderPairs(reference.observations) == []
             || |ReorderPairs(reference.observations)| == Successes(reference.observations)
    ensures Complete(reference.observations)
  {
    hide ReorderPairs, Successes, KeyOf;
    var obs := reference.observations;
    var i :| 0 <= i < |obs| && obs[i].reorder.Some?;
    PairIsListed(obs, i);
    PairsAreCounted(obs);
  }

  lemma PresentedInSecondOrder(reference: Run)
    requires HasSecondOrder(reference.observations)
    ensures ReorderedAuthority(reference)
            == Some(Presented(reference, InSecondOrder(reference.observations)))
  {
  }

  /** The two orders of one observation always agree: their distance was measured. */
  lemma OrdersAgree(reference: Run, corpus: Corpus, plan: Plan, policy: Policy, i: nat)
    requires Measured(reference, corpus, plan, policy)
    requires i < |reference.observations| && reference.observations[i].output.Some?
    ensures reference.observations[i].reorder.Some?
    ensures Within(reference.observations[i].output.value, reference.observations[i].reorder.value, policy)
  {
    hide Measured, WindowPairs, ReorderPairs, FloorOf, Derive, RepetitionsOk, ValidRun, Covers, Bound,
      ReorderedAuthority, InSecondOrder;
    var obs := reference.observations;
    var pairs := ReorderPairs(obs) + WindowPairs(obs);
    MeasuredFacts(reference, corpus, plan, policy);
    PairIsListed(obs, i);
    var p := (obs[i].output.value, obs[i].reorder.value);
    assert p in pairs;
    DerivedCovers(pairs, plan, p, ToReal(p.0));
  }

  lemma MatchesExactly(reference: Run, corpus: Corpus, plan: Plan, policy: Policy, i: nat, c: Case)
    requires Measured(reference, corpus, plan, policy) && i < |reference.observations|
    requires c.elements == reference.observations[i].elements && c.input == reference.observations[i].input
    ensures Matches(reference.observations[i], SecondOrder(reference.observations[i]), c, policy) <==>
              (reference.observations[i].output == Some(Finite(0.0)) ==>
                 reference.observations[i].reorder == Some(Finite(0.0)))
  {
    hide Measured, Within, Covers, Derive, FloorOf, WindowPairs, ReorderPairs, RepetitionsOk, ReorderedAuthority,
      InSecondOrder;
    var o := reference.observations[i];
    MeasuredFacts(reference, corpus, plan, policy);
    if o.output.Some? {
      OrdersAgree(reference, corpus, plan, policy, i);
      OracleAdmission.WithinIsFinite(o.output.value, o.reorder.value, policy);
    }
  }

  lemma SameSecondKeys(obs: seq<Observation>)
    ensures forall i :: 0 <= i < |obs| ==> KeyOf(obs[i]) == KeyOf(InSecondOrder(obs)[i])
    ensures ByKey(obs).Keys == ByKey(InSecondOrder(obs)).Keys
  {
    hide ByKey;
    OracleAdmission.SameKeys(obs, InSecondOrder(obs));
  }

  /** Key by key, only the zeros are left to check. */
  lemma KeysMatchExactly(reference: Run, corpus: Corpus, plan: Plan, policy: Policy)
    requires Measured(reference, corpus, plan, policy)
    ensures var obs := reference.observations;
            var expected, actual, cases := ByKey(obs), ByKey(InSecondOrder(obs)), CasesByKey(corpus.cases);
            && expected.Keys == cases.Keys == actual.Keys
            && ((forall key :: key in expected ==> Matches(expected[key], actual[key], cases[key], policy)) <==>
                  ZerosKept(obs))
  {
    hide Measured, Matches, ReorderedAuthority, InSecondOrder, ByKey, CasesByKey, RepetitionsOk, WindowPairs,
      ReorderPairs, FloorOf, Derive, SecondOrder;
    var obs := reference.observations;
    var expected, actual, cases := ByKey(obs), ByKey(InSecondOrder(obs)), CasesByKey(corpus.cases);
    MeasuredFacts(reference, corpus, plan, policy);
    SameSecondKeys(obs);
    forall i | 0 <= i < |obs|
      ensures KeyOf(obs[i]) in expected && expected[KeyOf(obs[i])] == obs[i]
      ensures Matches(obs[i], actual[KeyOf(obs[i])], cases[KeyOf(obs[i])], policy) <==>
                (obs[i].output == Some(Finite(0.0)) ==> obs[i].reorder == Some(Finite(0.0)))
    {
      OracleAdmission.ByKeyUnique(obs, i);
      OracleAdmission.ByKeyUnique(InSecondOrder(obs), i);
      MatchesExactly(reference, corpus, plan, policy, i, cases[KeyOf(obs[i])]);
    }
    forall key | key in expected
      ensures exists i :: 0 <= i < |obs| && KeyOf(obs[i]) == key
    {
      var i := ByKeyFrom(obs, key);
    }
  }

  ghost predicate CasesAgree(reference: Run, candidate: Run, p: Policy) {
    forall c :: c in RepetitionsOf(reference.observations) ==>
      !Disagree(SuccessfulOutputs(candidate.observations, c), p)
  }

  /** Case by case, the rule for a candidate asks for steadiness. */
  lemma CasesAgreeExactly(reference: Run, candidate: Run, policy: Policy)
    requires ValidRun(reference) && Complete(reference.observations)
    requires candidate.observations == InSecondOrder(reference.observations)
    ensures CasesAgree(reference, candidate, policy) <==> Steady(reference.observations, policy)
  {
    hide Seconds, SuccessfulOutputs, InSecondOrder, RepetitionsOf, Within;
    var obs := reference.observations;
    forall c: string
      ensures SuccessfulOutputs(candidate.observations, c) == Seconds(obs, c)
      ensures Seconds(obs, c) != [] ==> c in RepetitionsOf(obs)
    {
      SecondsAreSeen(obs, c);
      SecondsHaveCase(obs, c);
    }
    if CasesAgree(reference, candidate, policy) {
      forall c: string ensures Repeated(Seconds(obs, c), policy) {
        assert SuccessfulOutputs(candidate.observations, c) == Seconds(obs, c);
      }
    }
    if Steady(obs, policy) {
      forall c | c in RepetitionsOf(obs) ensures !Disagree(SuccessfulOutputs(candidate.observations, c), policy) {
        assert Repeated(Seconds(obs, c), policy);
      }
    }
  }

  lemma {:induction false} SecondsHaveCase(obs: seq<Observation>, c: string)
    ensures Seconds(obs, c) != [] ==> exists i :: 0 <= i < |obs| && obs[i].caseId == c
    decreases |obs|
  {
    if obs != [] {
      SecondsHaveCase(obs[..|obs| - 1], c);
    }
  }

  /** For every measured authority with a second order, whatever its number of repetitions, the derived
      tolerance admits that order exactly when it keeps positive zeros and repeats itself within
      tolerance. The distance between the orders never needs checking: it was measured. */
  lemma SecondOrderAdmitted(reference: Run, corpus: Corpus, plan: Plan, policy: Policy)
    requires Measured(reference, corpus, plan, policy)
    ensures ReorderedAuthority(reference).Some?
    ensures Agrees(reference, ReorderedAuthority(reference).value, policy, corpus) <==>
              ZerosKept(reference.observations) && Steady(reference.observations, policy)
  {
    hide Measured, ReorderedAuthority, ZerosKept, Steady, ValidRun, Covers, Complete, RepetitionsOk, WindowPairs,
      ReorderPairs, FloorOf, Derive, Matches, ByKey, CasesByKey, InSecondOrder, SuccessfulOutputs, RepetitionsOf,
      Disagree;
    MeasuredFacts(reference, corpus, plan, policy);
    KeysMatchExactly(reference, corpus, plan, policy);
    CasesAgreeExactly(reference, ReorderedAuthority(reference).value, policy);
  }

  // ----- A second order that is refused

  ghost function Summed(d: Digest, n: nat, first: real, second: real): Observation {
    Observation("sum", n, 4, d, 0, Some(Finite(first)), Some(Finite(second)))
  }

  /** Two repetitions: 10 and 11 in one order, 9 and 12 in the other. */
  ghost function Spreading(d: Digest): Run {
    Run(d, CudaReference, None, d, d, true, true, [Summed(d, 1, 10.0, 9.0), Summed(d, 2, 11.0, 12.0)])
  }

  lemma SpreadingPairs(d: Digest)
    ensures var obs := Spreading(d).observations;
            && Seconds(obs, "sum") == [Finite(9.0), Finite(12.0)] && Successes(obs) == 2
            && ReorderPairs(obs) == [(Finite(10.0), Finite(9.0)), (Finite(11.0), Finite(12.0))]
            && WindowPairs(obs) == [(Finite(10.0), Finite(11.0))]
  {
    var obs := Spreading(d).observations;
    var one := obs[..1];
    assert one[..0] == [];
    assert Outputs(one, "sum") == [Finite(10.0)] && Seconds(one, "sum") == [Finite(9.0)];
    assert ReorderPairs(one) == [(Finite(10.0), Finite(9.0))] && WindowPairs(one) == [];
    assert Successes(one) == 1;
  }

  lemma SpreadingFloor(d: Digest)
    ensures NoiseFloor(Spreading(d), OracleAdmission.RepeatedCorpus(d)) == Ok(Floor(1_000_000_000, 100_000_000, false))
  {
    hide Outputs, WindowPairs, ReorderPairs, Successes, Seconds;
    SpreadingPairs(d);
    var a: Pair, b: Pair, c: Pair :=
      (Finite(10.0), Finite(9.0)), (Finite(11.0), Finite(12.0)), (Finite(10.0), Finite(11.0));
    assert [a, b] + [c] == [a, b, c] && [a, b, c][..2] == [a, b] && [a, b][..1] == [a] && [a][..0] == [];
    assert Error(a) == 1.0 && Error(b) == 1.0 && Error(c) == 1.0;
    assert Ratio(a) == 0.1 && Ratio(b) == 1.0 / 11.0 && Ratio(c) == 0.1;
    assert MaxOf([a], Error) == 1.0 && MaxOf([a, b], Error) == 1.0 && MaxOf([a, b, c], Error) == 1.0;
    assert MaxOf([a], Ratio) == 0.1 && MaxOf([a, b], Ratio) == 0.1 && MaxOf([a, b, c], Ratio) == 0.1;
    assert a in [a, b, c] && a.0 != a.1;
  }

  /** The distance between two second-order results of a case is not measured, so already with two
      repetitions it can exceed what the half-again slack allows. */
  lemma SecondOrderCanBeRefused(d: Digest)
    ensures Measured(Spreading(d), OracleAdmission.RepeatedCorpus(d), Plan(50, 2), Policy(1_500_000_000, 150_000_000, 2))
    ensures ReorderedAuthority(Spreading(d)).Some?
    ensures !Agrees(Spreading(d), ReorderedAuthority(Spreading(d)).value, Policy(1_500_000_000, 150_000_000, 2),
                    OracleAdmission.RepeatedCorpus(d))
  {
    hide NoiseFloor, Outputs, Covers, Agrees, ReorderedAuthority, WindowPairs, ReorderPairs, Seconds;
    var policy := Policy(1_500_000_000, 150_000_000, 2);
    SpreadingPairs(d);
    SpreadingFloor(d);
    SpreadingCovers(d);
    assert Spreading(d).observations[0].reorder.Some?;
    SecondOrderAdmitted(Spreading(d), OracleAdmission.RepeatedCorpus(d), Plan(50, 2), policy);
    assert !Within(Finite(9.0), Finite(12.0), policy);
    var seconds := Seconds(Spreading(d).observations, "sum");
    assert seconds[0] == Finite(9.0) && seconds[1] == Finite(12.0);
    assert !Repeated(seconds, policy);
  }

  lemma SpreadingCovers(d: Digest)
    ensures Covers(Spreading(d), OracleAdmission.RepeatedCorpus(d), 2)
  {
    var obs, cases := Spreading(d).observations, OracleAdmission.RepeatedCorpus(d).cases;
    var one, first := obs[..1], cases[..1];
    assert one[..0] == [] && first[..0] == [] && one[0] == obs[0];
    assert ByKey(one) == map[("sum", 1) := obs[0]];
    assert ByKey(obs) == map[("sum", 1) := obs[0], ("sum", 2) := obs[1]];
    assert CasesByKey(first) == map[("sum", 1) := cases[0]];
    assert CasesByKey(cases) == map[("sum", 1) := cases[0], ("sum", 2) := cases[1]];
    assert RepetitionsOf(one) == WithRepetition(RepetitionsOf(one[..0]), obs[0]);
    assert RepetitionsOf(obs) == WithRepetition(RepetitionsOf(one), obs[1]);
    var m := RepetitionsOf(obs);
    assert m.Keys == {"sum"} && m["sum"] == {} + {1} + {2};
    assert UpTo(2) == {} + {1} + {2};
  }
}

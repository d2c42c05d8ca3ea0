/**
 The differential oracle: one candidate run judged against one authority run. Arithmetic is exact,
 and an output is the real number its bits stand for, with the two zeros kept apart.
 */
module OracleComparison {
  import opened Outcomes
  import EpisodeRecords

  type Digest = EpisodeRecords.Digest

  type U32 = EpisodeRecords.U32

  /** `Finite(0.0)` is positive zero, whose bits are all clear. */
  datatype Fp32 = Finite(value: real) | NegativeZero | NonFinite(bits: nat)

  type Key = (string, nat)

  datatype Observation = Observation(
    caseId: string, repetition: nat, elements: nat, input: Digest, status: int,
    output: Option<Fp32>, reorder: Option<Fp32>)

  datatype Case = Case(caseId: string, repetition: nat, elements: nat, input: Digest)

  datatype Role = CudaReference | AscendCandidate

  /** One side of an experiment: which experiment, whose implementation, and what it did. */
  datatype Run = Run(
    experiment: Digest, role: Role, candidate: Option<string>, implementation: Digest, corpus: Digest,
    invoked: bool, synchronized: bool, observations: seq<Observation>)

  datatype Corpus = Corpus(digest: Digest, cases: seq<Case>)

  datatype Policy = Policy(absoluteNanos: U32, relativePpb: U32, repetitions: nat)

  datatype Failure =
    | ReferenceNotAuthoritative
    | CandidatePathNotInvoked
    | MissingSynchronization
    | CorpusNotCovered
    | CandidateKeysDiffer
    | RepetitionsMissing
    | InputDiffers(key: Key)
    | StatusMismatch(key: Key)
    | MissingOutput(key: Key)
    | NonFiniteOutput(key: Key)
    | SignedZeroMismatch(key: Key)
    | NumericMismatch(key: Key)
    | NondeterministicOutput(caseId: string)
    | CalibrationUnavailable

  // ----- Tolerance

  const UNITS: real := 1_000_000_000.0

  function Abs(x: real): (r: real)
    ensures r >= 0.0 && r >= x && r >= -x
  {
    if x < 0.0 then -x else x
  }

  function Max(x: real, y: real): real {
    if x < y then y else x
  }

  function ToReal(x: Fp32): real
    requires !x.NonFinite?
  {
    if x.NegativeZero? then 0.0 else x.value
  }

  /** The largest error that this policy admits at `expected`. */
  function Bound(expected: real, p: Policy): real {
    Max(p.absoluteNanos as real / UNITS, Abs(expected) * p.relativePpb as real / UNITS)
  }

  predicate Within(expected: Fp32, actual: Fp32, p: Policy) {
    && !expected.NonFinite? && !actual.NonFinite?
    && Abs(ToReal(actual) - ToReal(expected)) <= Bound(ToReal(expected), p)
  }

  lemma LargerLimit(error: real, absolute: real, relative: real)
    ensures error <= Max(absolute / UNITS, relative / UNITS) <==>
              error * 1_000_000_000.0 <= absolute || error * 1_000_000_000.0 <= relative
  {
  }

  function Distance(x: real, y: real): real {
    if x <= y then y - x else x - y
  }

  /** Two finite outputs are in tolerance exactly when they differ by no more than the absolute limit in
      nanos, or by no more than the expected magnitude's share in parts per billion. */
  lemma WithinExactly(expected: Fp32, actual: Fp32, p: Policy)
    ensures Within(expected, actual, p) <==>
              && !expected.NonFinite? && !actual.NonFinite?
              && var error := Distance(ToReal(expected), ToReal(actual)) * 1_000_000_000.0;
                 || error <= p.absoluteNanos as real
                 || error <= Distance(0.0, ToReal(expected)) * p.relativePpb as real
  {
    hide Bound, Max;
    if !expected.NonFinite? && !actual.NonFinite? {
      var x, y := ToReal(expected), ToReal(actual);
      var relative := Distance(0.0, x) * p.relativePpb as real;
      BoundIs(x, p, relative);
      LargerLimit(Distance(x, y), p.absoluteNanos as real, relative);
    }
  }

  lemma BoundIs(x: real, p: Policy, relative: real)
    requires relative == Distance(0.0, x) * p.relativePpb as real
    ensures Bound(x, p) == Max(p.absoluteNanos as real / UNITS, relative / UNITS)
  {
    assert Abs(x) == Distance(0.0, x);
  }

  // ----- Indexing

  function KeyOf(o: Observation): Key {
    (o.caseId, o.repetition)
  }

  function CaseKey(c: Case): Key {
    (c.caseId, c.repetition)
  }

  function ByKey(observations: seq<Observation>): map<Key, Observation> {
    if observations == [] then map[]
    else
      var last := observations[|observations| - 1];
      ByKey(observations[..|observations| - 1])[KeyOf(last) := last]
  }

  /** Every entry is an observation with that key, and every key has an entry. */
  lemma {:induction false} ByKeyFrom(observations: seq<Observation>, k: Key) returns (i: nat)
    requires k in ByKey(observations)
    ensures i < |observations| && KeyOf(observations[i]) == k && ByKey(observations)[k] == observations[i]
    decreases |observations|
  {
    hide KeyOf;
    i := |observations| - 1;
    if KeyOf(observations[i]) != k {
      i := ByKeyFrom(observations[..|observations| - 1], k);
    }
  }

  lemma {:induction false} ByKeyHas(observations: seq<Observation>, i: nat)
    requires i < |observations|
    ensures KeyOf(observations[i]) in ByKey(observations)
    decreases |observations|
  {
    hide KeyOf;
    if i < |observations| - 1 {
      ByKeyHas(observations[..|observations| - 1], i);
    }
  }

  function CasesByKey(cases: seq<Case>): map<Key, Case> {
    if cases == [] then map[]
    else CasesByKey(cases[..|cases| - 1])[CaseKey(cases[|cases| - 1]) := cases[|cases| - 1]]
  }

  function RepetitionsOf(observations: seq<Observation>): (m: map<string, set<nat>>)
    ensures forall c, n :: c in m && n in m[c] <==> exists i :: 0 <= i < |observations| && KeyOf(observations[i]) == (c, n)
    ensures forall i :: 0 <= i < |observations| ==> observations[i].caseId in m
  {
    if observations == [] then map[]
    else WithRepetition(RepetitionsOf(observations[..|observations| - 1]), observations[|observations| - 1])
  }

  function WithRepetition(m: map<string, set<nat>>, o: Observation): map<string, set<nat>> {
    m[o.caseId := (if o.caseId in m then m[o.caseId] else {}) + {o.repetition}]
  }

  /** The numbers from one to `n`. */
  function UpTo(n: nat): (r: set<nat>)
    ensures forall k :: k in r <==> 1 <= k <= n
  {
    if n == 0 then {} else UpTo(n - 1) + {n}
  }

  /** Successful outputs of one case, in observation order. */
  function SuccessfulOutputs(observations: seq<Observation>, caseId: string): seq<Fp32> {
    if observations == [] then []
    else
      var last := observations[|observations| - 1];
      SuccessfulOutputs(observations[..|observations| - 1], caseId)
      + if last.caseId == caseId && last.status == 0 && last.output.Some? then [last.output.value] else []
  }

  predicate Disagree(outputs: seq<Fp32>, p: Policy) {
    exists i :: 0 < i < |outputs| && !Within(outputs[0], outputs[i], p)
  }

  // ----- Which failures there are

  /** The first rule that one observation breaks. */
  function KeyFailure(key: Key, expected: Observation, actual: Observation, c: Case, p: Policy): Option<Failure> {
    if expected.elements != c.elements || expected.input != c.input
       || actual.elements != expected.elements || actual.input != expected.input then Some(InputDiffers(key))
    else if actual.status != expected.status then Some(StatusMismatch(key))
    else if expected.output.None? || actual.output.None? then
      if expected.status == 0 then Some(MissingOutput(key)) else None
    else if expected.output.value.NonFinite? || actual.output.value.NonFinite? then Some(NonFiniteOutput(key))
    else if expected.output.value == Finite(0.0) && actual.output.value != Finite(0.0) then Some(SignedZeroMismatch(key))
    else if !Within(expected.output.value, actual.output.value, p) then Some(NumericMismatch(key))
    else None
  }

  ghost predicate FailsAt(reference: Run, candidate: Run, p: Policy, corpus: Corpus, key: Key, f: Failure) {
    var expected, actual, cases := ByKey(reference.observations), ByKey(candidate.observations), CasesByKey(corpus.cases);
    key in expected && key in actual && key in cases
    && KeyFailure(key, expected[key], actual[key], cases[key], p) == Some(f)
  }

  ghost predicate RepetitionsOk(reference: Run, p: Policy) {
    var m := RepetitionsOf(reference.observations);
    forall c :: c in m ==> m[c] == UpTo(p.repetitions)
  }

  ghost predicate FailsCase(reference: Run, candidate: Run, p: Policy, f: Failure) {
    && f.NondeterministicOutput? && f.caseId in RepetitionsOf(reference.observations)
    && Disagree(SuccessfulOutputs(candidate.observations, f.caseId), p)
  }

  ghost predicate FailsOnceCovered(reference: Run, candidate: Run, p: Policy, corpus: Corpus, f: Failure) {
    || (f.RepetitionsMissing? && !RepetitionsOk(reference, p))
    || (exists key: Key :: FailsAt(reference, candidate, p, corpus, key, f))
    || FailsCase(reference, candidate, p, f)
  }

  ghost predicate Fails(reference: Run, candidate: Run, p: Policy, corpus: Corpus, f: Failure) {
    if !reference.invoked || !reference.synchronized then f.ReferenceNotAuthoritative?
    else
      || (f.CandidatePathNotInvoked? && !candidate.invoked)
      || (f.MissingSynchronization? && !candidate.synchronized)
      || (if ByKey(reference.observations).Keys != CasesByKey(corpus.cases).Keys then f.CorpusNotCovered?
          else if ByKey(reference.observations).Keys != ByKey(candidate.observations).Keys then f.CandidateKeysDiffer?
          else FailsOnceCovered(reference, candidate, p, corpus, f))
  }

  // ----- The declared relation

  /** One observation of the candidate stands for one of the authority's. */
  ghost predicate Matches(expected: Observation, actual: Observation, c: Case, p: Policy) {
    && expected.elements == actual.elements == c.elements
    && expected.input == actual.input == c.input
    && actual.status == expected.status
    && (expected.output.None? || actual.output.None? ==> expected.status != 0)
    && (expected.output.Some? && actual.output.Some? ==>
          && Within(expected.output.value, actual.output.value, p)
          && (expected.output.value == Finite(0.0) ==> actual.output.value == Finite(0.0)))
  }

  ghost predicate Agrees(reference: Run, candidate: Run, p: Policy, corpus: Corpus) {
    var expected, actual, cases := ByKey(reference.observations), ByKey(candidate.observations), CasesByKey(corpus.cases);
    && reference.invoked && reference.synchronized && candidate.invoked && candidate.synchronized
    && expected.Keys == cases.Keys == actual.Keys
    && RepetitionsOk(reference, p)
    && (forall key :: key in expected ==> Matches(expected[key], actual[key], cases[key], p))
    && (forall c :: c in RepetitionsOf(reference.observations) ==>
          !Disagree(SuccessfulOutputs(candidate.observations, c), p))
  }

  lemma KeyFailureExact(key: Key, expected: Observation, actual: Observation, c: Case, p: Policy)
    ensures KeyFailure(key, expected, actual, c, p).None? <==> Matches(expected, actual, c, p)
  {
  }

  /** No failure exactly when the declared relation holds. */
  lemma NoFailureMeansAgreement(reference: Run, candidate: Run, p: Policy, corpus: Corpus)
    ensures (forall f :: !Fails(reference, candidate, p, corpus, f)) <==> Agrees(reference, candidate, p, corpus)
  {
    hide KeyFailure, Matches, ByKey, CasesByKey, RepetitionsOf, SuccessfulOutputs, Disagree, RepetitionsOk;
    if forall f :: !Fails(reference, candidate, p, corpus, f) {
      NoFailureAgrees(reference, candidate, p, corpus);
    }
    if Agrees(reference, candidate, p, corpus) {
      forall f ensures !Fails(reference, candidate, p, corpus, f) {
        AgreementHasNoFailure(reference, candidate, p, corpus, f);
      }
    }
  }

  lemma AgreementHasNoFailure(reference: Run, candidate: Run, p: Policy, corpus: Corpus, f: Failure)
    requires Agrees(reference, candidate, p, corpus)
    ensures !Fails(reference, candidate, p, corpus, f)
  {
    hide KeyFailure, Matches, ByKey, CasesByKey, RepetitionsOf, SuccessfulOutputs, Disagree, RepetitionsOk;
    forall key: Key | key in ByKey(reference.observations)
      ensures !FailsAt(reference, candidate, p, corpus, key, f)
    {
      KeyFailureExact(key, ByKey(reference.observations)[key], ByKey(candidate.observations)[key],
                      CasesByKey(corpus.cases)[key], p);
    }
  }

  lemma NoFailureAgrees(reference: Run, candidate: Run, p: Policy, corpus: Corpus)
    requires forall f :: !Fails(reference, candidate, p, corpus, f)
    ensures Agrees(reference, candidate, p, corpus)
  {
    hide KeyFailure, Matches, ByKey, CasesByKey, RepetitionsOf, SuccessfulOutputs, Disagree, RepetitionsOk;
    assert !Fails(reference, candidate, p, corpus, ReferenceNotAuthoritative);
    assert !Fails(reference, candidate, p, corpus, CandidatePathNotInvoked);
    assert !Fails(reference, candidate, p, corpus, MissingSynchronization);
    assert !Fails(reference, candidate, p, corpus, CorpusNotCovered);
    assert !Fails(reference, candidate, p, corpus, CandidateKeysDiffer);
    assert !Fails(reference, candidate, p, corpus, RepetitionsMissing);
    var expected, actual, cases := ByKey(reference.observations), ByKey(candidate.observations), CasesByKey(corpus.cases);
    forall key | key in expected ensures Matches(expected[key], actual[key], cases[key], p) {
      KeyFailureExact(key, expected[key], actual[key], cases[key], p);
      var found := KeyFailure(key, expected[key], actual[key], cases[key], p);
      assert found.Some? ==> FailsAt(reference, candidate, p, corpus, key, found.value);
      assert found.Some? ==> !Fails(reference, candidate, p, corpus, found.value);
    }
    forall c | c in RepetitionsOf(reference.observations)
      ensures !Disagree(SuccessfulOutputs(candidate.observations, c), p)
    {
      assert !Fails(reference, candidate, p, corpus, NondeterministicOutput(c));
    }
  }

  // ----- Loosening the tolerance

  predicate Looser(q: Policy, p: Policy) {
    q.absoluteNanos >= p.absoluteNanos && q.relativePpb >= p.relativePpb && q.repetitions == p.repetitions
  }

  lemma Scaled(x: real, low: U32, high: U32)
    requires x >= 0.0 && low <= high
    ensures x * low as real / UNITS <= x * high as real / UNITS
  {
  }

  lemma BoundGrows(expected: real, q: Policy, p: Policy)
    requires Looser(q, p)
    ensures Bound(expected, p) <= Bound(expected, q)
  {
    Scaled(Abs(expected), p.relativePpb, q.relativePpb);
  }

  lemma WithinGrows(expected: Fp32, actual: Fp32, q: Policy, p: Policy)
    requires Looser(q, p) && Within(expected, actual, p)
    ensures Within(expected, actual, q)
  {
    hide Bound;
    BoundGrows(ToReal(expected), q, p);
  }

  /** A looser tolerance reports nothing that the tighter one did not report. */
  lemma LooseningAddsNoFailure(reference: Run, candidate: Run, q: Policy, p: Policy, corpus: Corpus, f: Failure)
    requires Looser(q, p) && Fails(reference, candidate, q, corpus, f)
    ensures Fails(reference, candidate, p, corpus, f)
  {
    hide ByKey, CasesByKey, FailsAt, FailsCase;
    if exists key: Key :: FailsAt(reference, candidate, q, corpus, key, f) {
      var key: Key :| FailsAt(reference, candidate, q, corpus, key, f);
      FailsAtShrinks(reference, candidate, q, p, corpus, key, f);
    } else if FailsCase(reference, candidate, q, f) {
      FailsCaseShrinks(reference, candidate, q, p, f);
    }
  }

  lemma FailsAtShrinks(reference: Run, candidate: Run, q: Policy, p: Policy, corpus: Corpus, key: Key, f: Failure)
    requires Looser(q, p) && FailsAt(reference, candidate, q, corpus, key, f)
    ensures FailsAt(reference, candidate, p, corpus, key, f)
  {
    hide ByKey, CasesByKey, KeyFailure;
    KeyFailureShrinks(key, ByKey(reference.observations)[key], ByKey(candidate.observations)[key],
                      CasesByKey(corpus.cases)[key], q, p);
  }

  lemma FailsCaseShrinks(reference: Run, candidate: Run, q: Policy, p: Policy, f: Failure)
    requires Looser(q, p) && FailsCase(reference, candidate, q, f)
    ensures FailsCase(reference, candidate, p, f)
  {
    hide RepetitionsOf, SuccessfulOutputs, Within;
    var outputs := SuccessfulOutputs(candidate.observations, f.caseId);
    var i :| 0 < i < |outputs| && !Within(outputs[0], outputs[i], q);
    if Within(outputs[0], outputs[i], p) {
      WithinGrows(outputs[0], outputs[i], q, p);
    }
  }

  lemma KeyFailureShrinks(key: Key, expected: Observation, actual: Observation, c: Case, q: Policy, p: Policy)
    requires Looser(q, p) && KeyFailure(key, expected, actual, c, q).Some?
    ensures KeyFailure(key, expected, actual, c, p) == KeyFailure(key, expected, actual, c, q)
  {
    hide Within;
    if expected.output.Some? && actual.output.Some? && Within(expected.output.value, actual.output.value, p) {
      WithinGrows(expected.output.value, actual.output.value, q, p);
    }
  }

  // ----- The comparator

  method IndexObservations(observations: seq<Observation>) returns (m: map<Key, Observation>)
    ensures m == ByKey(observations)
  {
    m := map[];
    assert observations[..0] == [];
    for i := 0 to |observations|
      invariant m == ByKey(observations[..i])
    {
      assert observations[..i + 1][..i] == observations[..i];
      m := m[KeyOf(observations[i]) := observations[i]];
    }
    assert observations[..|observations|] == observations;
  }

  method CollectRepetitions(observations: seq<Observation>) returns (m: map<string, set<nat>>)
    ensures m == RepetitionsOf(observations)
  {
    m := map[];
    assert observations[..0] == [];
    for i := 0 to |observations|
      invariant m == RepetitionsOf(observations[..i])
    {
      assert observations[..i + 1][..i] == observations[..i];
      m := WithRepetition(m, observations[i]);
    }
    assert observations[..|observations|] == observations;
  }

  method CompareKeys(expected: map<Key, Observation>, actual: map<Key, Observation>, cases: map<Key, Case>, p: Policy)
    returns (failures: seq<Failure>)
    requires expected.Keys == actual.Keys == cases.Keys
    ensures forall f :: f in failures <==>
              exists key :: key in expected && KeyFailure(key, expected[key], actual[key], cases[key], p) == Some(f)
  {
    hide KeyFailure;
    failures := [];
    var rest := expected.Keys;
    while rest != {}
      invariant rest <= expected.Keys
      invariant forall f :: f in failures <==>
                  exists key :: key in expected && key !in rest
                                && KeyFailure(key, expected[key], actual[key], cases[key], p) == Some(f)
      decreases |rest|
    {
      var key :| key in rest;
      var found := KeyFailure(key, expected[key], actual[key], cases[key], p);
      if found.Some? {
        failures := failures + [found.value];
      }
      rest := rest - {key};
    }
  }

  method CompareRepetitions(cases: set<string>, observations: seq<Observation>, p: Policy)
    returns (failures: seq<Failure>)
    ensures forall f :: f in failures <==>
              f.NondeterministicOutput? && f.caseId in cases && Disagree(SuccessfulOutputs(observations, f.caseId), p)
  {
    hide Disagree, SuccessfulOutputs;
    failures := [];
    var rest := cases;
    while rest != {}
      invariant rest <= cases
      invariant forall f :: f in failures <==>
                  && f.NondeterministicOutput? && f.caseId in cases && f.caseId !in rest
                  && Disagree(SuccessfulOutputs(observations, f.caseId), p)
      decreases |rest|
    {
      var c :| c in rest;
      if Disagree(SuccessfulOutputs(observations, c), p) {
        failures := failures + [NondeterministicOutput(c)];
      }
      rest := rest - {c};
    }
  }

  /** Reports exactly the failures there are; none exactly when the declared relation holds. */
  method CompareRuns(reference: Run, candidate: Run, p: Policy, corpus: Corpus) returns (failures: seq<Failure>)
    ensures forall f :: f in failures <==> Fails(reference, candidate, p, corpus, f)
    ensures failures == [] <==> Agrees(reference, candidate, p, corpus)
  {
    hide Agrees, Fails;
    failures := FindFailures(reference, candidate, p, corpus);
    NoFailureMeansAgreement(reference, candidate, p, corpus);
    assert failures != [] ==> failures[0] in failures;
  }

  method FindFailures(reference: Run, candidate: Run, p: Policy, corpus: Corpus) returns (failures: seq<Failure>)
    ensures forall f :: f in failures <==> Fails(reference, candidate, p, corpus, f)
  {
    hide ByKey, CasesByKey, RepetitionsOf, SuccessfulOutputs, Disagree, KeyFailure, FailsAt, FailsCase, UpTo;
    failures := [];
    if !reference.invoked || !reference.synchronized {
      return [ReferenceNotAuthoritative];
    }
    if !candidate.invoked {
      failures := failures + [CandidatePathNotInvoked];
    }
    if !candidate.synchronized {
      failures := failures + [MissingSynchronization];
    }
    var expected := IndexObservations(reference.observations);
    var actual := IndexObservations(candidate.observations);
    var cases := CasesByKey(corpus.cases);
    if expected.Keys != cases.Keys {
      failures := failures + [CorpusNotCovered];
      return;
    }
    if expected.Keys != actual.Keys {
      failures := failures + [CandidateKeysDiffer];
      return;
    }
    var repetitions := CollectRepetitions(reference.observations);
    if exists c :: c in repetitions && repetitions[c] != UpTo(p.repetitions) {
      failures := failures + [RepetitionsMissing];
    }
    var byKey := CompareKeys(expected, actual, cases, p);
    var byCase := CompareRepetitions(repetitions.Keys, candidate.observations, p);
    CoveredFailures(reference, candidate, p, corpus, expected, actual, cases, byKey, byCase);
    failures := failures + byKey + byCase;
  }

  lemma CoveredFailures(reference: Run, candidate: Run, p: Policy, corpus: Corpus,
                        expected: map<Key, Observation>, actual: map<Key, Observation>, cases: map<Key, Case>,
                        byKey: seq<Failure>, byCase: seq<Failure>)
    requires expected == ByKey(reference.observations) && actual == ByKey(candidate.observations)
    requires cases == CasesByKey(corpus.cases) && expected.Keys == actual.Keys == cases.Keys
    requires forall f :: f in byKey <==>
               exists key :: key in expected && KeyFailure(key, expected[key], actual[key], cases[key], p) == Some(f)
    requires forall f :: f in byCase <==>
               && f.NondeterministicOutput? && f.caseId in RepetitionsOf(reference.observations).Keys
               && Disagree(SuccessfulOutputs(candidate.observations, f.caseId), p)
    ensures forall f :: f in byKey <==> exists key: Key :: FailsAt(reference, candidate, p, corpus, key, f)
    ensures forall f :: f in byCase <==> FailsCase(reference, candidate, p, f)
  {
    hide ByKey, CasesByKey, RepetitionsOf, SuccessfulOutputs, Disagree, KeyFailure;
    forall f ensures f in byKey <==> exists key: Key :: FailsAt(reference, candidate, p, corpus, key, f) {
      if f in byKey {
        var key :| key in expected && KeyFailure(key, expected[key], actual[key], cases[key], p) == Some(f);
        assert FailsAt(reference, candidate, p, corpus, key, f);
      }
    }
  }

  /** An output counts as successful exactly when its call reported no failure. */
  lemma {:induction false} SuccessfulExactly(obs: seq<Observation>, c: string, v: Fp32)
    ensures v in SuccessfulOutputs(obs, c) <==>
              exists i :: 0 <= i < |obs| && obs[i].caseId == c && obs[i].status == 0 && obs[i].output == Some(v)
    decreases |obs|
  {
    if obs != [] {
      var init := obs[..|obs| - 1];
      SuccessfulExactly(init, c, v);
      assert forall i :: 0 <= i < |init| ==> init[i] == obs[i];
    }
  }
}

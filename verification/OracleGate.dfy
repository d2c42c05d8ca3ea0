/** The oracle at work: measuring the floor, rotating the authority, calibrating, and judging. */
module OracleGate {
  import opened Outcomes
  import opened OracleComparison
  import opened OracleCalibration

  // ----- Measuring

  datatype Spread = Spread(absolute: real, relative: real, deterministic: bool)

  ghost function SpreadOf(pairs: seq<Pair>): Spread {
    Spread(MaxOf(pairs, Error), MaxOf(pairs, Ratio), forall p :: p in pairs ==> p.0 == p.1)
  }

  function Observe(s: Spread, p: Pair): Spread {
    Spread(Max(s.absolute, Error(p)), Max(s.relative, Ratio(p)), s.deterministic && p.0 == p.1)
  }

  lemma SpreadGrows(pairs: seq<Pair>, p: Pair)
    ensures SpreadOf(pairs + [p]) == Observe(SpreadOf(pairs), p)
  {
  }

  lemma SpreadSame(a: seq<Pair>, b: seq<Pair>)
    requires forall p :: p in a <==> p in b
    ensures SpreadOf(a) == SpreadOf(b)
  {
    MaxSame(a, b, Error);
    MaxSame(a, b, Ratio);
  }

  /** The outputs collected so far, by case. */
  ghost predicate Collected(byCase: map<string, seq<Fp32>>, obs: seq<Observation>) {
    forall c :: (if c in byCase then byCase[c] else []) == Outputs(obs, c)
  }

  function WithOutput(byCase: map<string, seq<Fp32>>, o: Observation): map<string, seq<Fp32>>
    requires o.output.Some?
  {
    byCase[o.caseId := (if o.caseId in byCase then byCase[o.caseId] else []) + [o.output.value]]
  }

  lemma {:induction false} ReorderPairsPrefix(obs: seq<Observation>, i: nat)
    requires i <= |obs|
    ensures ReorderPairs(obs[..i]) <= ReorderPairs(obs)
    decreases |obs|
  {
    hide ReorderPair;
    if i < |obs| {
      ReorderPairsPrefix(obs[..|obs| - 1], i);
      assert obs[..|obs| - 1][..i] == obs[..i];
    } else {
      assert obs[..i] == obs;
    }
  }

  /** One step over the observations: what each of the running values becomes. */
  lemma ObservationStep(obs: seq<Observation>, i: nat)
    requires i < |obs|
    ensures var o, before, after := obs[i], obs[..i], obs[..i + 1];
            && ReorderPairs(after) == ReorderPairs(before) + ReorderPair(o)
            && (ReorderPair(o) == [] ==> ReorderPairs(after) == ReorderPairs(before))
            && Successes(after) == Successes(before) + (if o.output.Some? then 1 else 0)
            && (forall c :: Outputs(after, c) == Outputs(before, c) + Produced(o, c))
  {
    assert obs[..i + 1][..i] == obs[..i];
  }

  /** The first loop: second-order pairs, and the outputs by case. */
  method MeasureReorders(obs: seq<Observation>)
    returns (ok: bool, spread: Spread, successes: nat, pairs: nat, byCase: map<string, seq<Fp32>>)
    ensures ok <==> forall p :: p in ReorderPairs(obs) ==> FinitePair(p)
    ensures ok ==>
              && spread == SpreadOf(ReorderPairs(obs)) && pairs == |ReorderPairs(obs)|
              && successes == Successes(obs) && Collected(byCase, obs)
  {
    hide SpreadOf, Observe, FinitePair, ReorderPairs, Successes, Outputs;
    spread, successes, pairs, byCase := Spread(0.0, 0.0, true), 0, 0, map[];
    NothingObserved();
    assert obs[..0] == [];
    for i := 0 to |obs|
      invariant forall p :: p in ReorderPairs(obs[..i]) ==> FinitePair(p)
      invariant spread == SpreadOf(ReorderPairs(obs[..i])) && pairs == |ReorderPairs(obs[..i])|
      invariant successes == Successes(obs[..i]) && Collected(byCase, obs[..i])
    {
      var o := obs[i];
      ObservationStep(obs, i);
      ReorderPairsPrefix(obs, i + 1);
      if o.output.Some? {
        successes := successes + 1;
        byCase := WithOutput(byCase, o);
        if o.reorder.Some? {
          var p := (o.output.value, o.reorder.value);
          pairs := pairs + 1;
          if !FinitePair(p) {
            assert p in ReorderPairs(obs[..i + 1]);
            ok := false;
            return;
          }
          SpreadGrows(ReorderPairs(obs[..i]), p);
          spread := Observe(spread, p);
        }
      }
    }
    assert obs[..|obs|] == obs;
    ok := true;
  }

  lemma NothingObserved()
    ensures ReorderPairs([]) == [] && Successes([]) == 0 && Collected(map[], [])
    ensures SpreadOf([]) == Spread(0.0, 0.0, true)
  {
  }

  ghost predicate IsStep(outputs: seq<Fp32>, p: Pair) {
    exists k :: 0 <= k < |outputs| - 1 && p == (outputs[k], outputs[k + 1])
  }

  ghost predicate AllSteps(outputs: seq<Fp32>, seen: seq<Pair>) {
    forall k :: 0 <= k < |outputs| - 1 ==>
      (outputs[k], outputs[k + 1]) in seen && FinitePair((outputs[k], outputs[k + 1]))
  }

  ghost predicate Extends(seen: seq<Pair>, after: seq<Pair>) {
    forall p :: p in seen ==> p in after
  }

  /** Adjacent outputs of one case. */
  method MeasureCase(outputs: seq<Fp32>, before: Spread, ghost seen: seq<Pair>)
    returns (ok: bool, spread: Spread, ghost after: seq<Pair>)
    requires before == SpreadOf(seen)
    ensures ok <==> forall p :: IsStep(outputs, p) ==> FinitePair(p)
    ensures ok ==> spread == SpreadOf(after) && AllSteps(outputs, after) && Extends(seen, after)
    ensures ok ==> forall p :: p in after ==> p in seen || IsStep(outputs, p)
  {
    hide SpreadOf, Observe, FinitePair;
    spread, after := before, seen;
    var k := 0;
    while k + 1 < |outputs|
      invariant 0 <= k && (k <= |outputs| - 1 || k == 0)
      invariant spread == SpreadOf(after) && Extends(seen, after)
      invariant forall j :: 0 <= j < k ==>
                  (outputs[j], outputs[j + 1]) in after && FinitePair((outputs[j], outputs[j + 1]))
      invariant forall p :: p in after ==> p in seen || IsStep(outputs, p)
    {
      var p := (outputs[k], outputs[k + 1]);
      assert IsStep(outputs, p);
      if !FinitePair(p) {
        ok := false;
        return;
      }
      SpreadGrows(after, p);
      spread, after := Observe(spread, p), after + [p];
      k := k + 1;
    }
    ok := true;
  }

  lemma StepsKept(outputs: seq<Fp32>, seen: seq<Pair>, after: seq<Pair>)
    requires AllSteps(outputs, seen) && Extends(seen, after)
    ensures AllSteps(outputs, after)
  {
  }

  /** The second loop: adjacent outputs of every case. */
  method MeasureRepetitions(byCase: map<string, seq<Fp32>>, before: Spread, ghost obs: seq<Observation>,
                            ghost reorders: seq<Pair>)
    returns (ok: bool, spread: Spread, any: bool)
    requires Collected(byCase, obs) && before == SpreadOf(reorders)
    ensures ok <==> forall p :: p in WindowPairs(obs) ==> FinitePair(p)
    ensures ok ==> spread == SpreadOf(reorders + WindowPairs(obs)) && (any <==> WindowPairs(obs) != [])
  {
    hide SpreadOf, FinitePair, WindowPairs, AllSteps, IsStep, Collected, Extends;
    spread, any := before, false;
    ghost var seen := reorders;
    ghost var windows := WindowPairs(obs);
    var rest := byCase.Keys;
    ExtendsItself(reorders);
    while rest != {}
      invariant rest <= byCase.Keys && spread == SpreadOf(seen) && Extends(reorders, seen)
      invariant forall p :: p in seen ==> p in reorders || p in windows
      invariant forall c :: c in byCase && c !in rest ==> AllSteps(byCase[c], seen)
      invariant any <==> exists c :: c in byCase && c !in rest && |byCase[c]| > 1
      decreases |rest|
    {
      var c :| c in rest;
      CaseWindows(byCase, obs, c);
      ghost var was := seen;
      ok, spread, seen := MeasureCase(byCase[c], spread, seen);
      if !ok {
        return;
      }
      ExtendsTransitive(reorders, was, seen);
      forall d | d in byCase && d !in rest ensures AllSteps(byCase[d], seen) {
        StepsKept(byCase[d], was, seen);
      }
      any := any || |byCase[c]| > 1;
      rest := rest - {c};
    }
    ok := true;
    WindowsFound(byCase, obs, seen);
    SameMembers(seen, reorders, windows);
    SpreadSame(seen, reorders + windows);
    AnyWindow(byCase, obs);
  }

  lemma ExtendsItself(seen: seq<Pair>)
    ensures Extends(seen, seen)
  {
  }

  lemma ExtendsTransitive(a: seq<Pair>, b: seq<Pair>, c: seq<Pair>)
    requires Extends(a, b) && Extends(b, c)
    ensures Extends(a, c)
  {
  }

  lemma SameMembers(seen: seq<Pair>, reorders: seq<Pair>, windows: seq<Pair>)
    requires Extends(reorders, seen) && Extends(windows, seen)
    requires forall p :: p in seen ==> p in reorders || p in windows
    ensures forall p :: p in seen <==> p in reorders + windows
  {
  }

  lemma CaseWindows(byCase: map<string, seq<Fp32>>, obs: seq<Observation>, c: string)
    requires Collected(byCase, obs) && c in byCase
    ensures forall p :: IsStep(byCase[c], p) ==> p in WindowPairs(obs)
  {
    hide Outputs, WindowPairs;
    assert byCase[c] == Outputs(obs, c);
    forall p | IsStep(byCase[c], p) ensures p in WindowPairs(obs) {
      var k :| 0 <= k < |byCase[c]| - 1 && p == (byCase[c][k], byCase[c][k + 1]);
      WindowIsListed(obs, c, k, p);
    }
  }

  lemma WindowsFound(byCase: map<string, seq<Fp32>>, obs: seq<Observation>, seen: seq<Pair>)
    requires Collected(byCase, obs)
    requires forall c :: c in byCase ==> AllSteps(byCase[c], seen)
    ensures Extends(WindowPairs(obs), seen)
    ensures forall p :: p in WindowPairs(obs) ==> FinitePair(p)
  {
    hide Outputs, WindowPairs, FinitePair;
    forall p | p in WindowPairs(obs) ensures p in seen && FinitePair(p) {
      var c, k := ListedIsWindow(obs, p);
      assert (if c in byCase then byCase[c] else []) == Outputs(obs, c);
      assert AllSteps(byCase[c], seen);
    }
  }

  lemma AnyWindow(byCase: map<string, seq<Fp32>>, obs: seq<Observation>)
    requires Collected(byCase, obs)
    ensures WindowPairs(obs) != [] <==> exists c :: c in byCase && |byCase[c]| > 1
  {
    hide Outputs, WindowPairs;
    if WindowPairs(obs) != [] {
      var c, k := ListedIsWindow(obs, WindowPairs(obs)[0]);
      assert (if c in byCase then byCase[c] else []) == Outputs(obs, c);
    }
    if c :| c in byCase && |byCase[c]| > 1 {
      assert byCase[c] == Outputs(obs, c);
      WindowIsListed(obs, c, 0, (byCase[c][0], byCase[c][1]));
    }
  }

  method MeasureNoiseFloor(reference: Run, corpus: Corpus) returns (r: Result<Floor, OracleError>)
    ensures r == NoiseFloor(reference, corpus)
  {
    hide Outputs, WindowPairs, ReorderPairs, Successes, FinitePair, ToUnits, Collected;
    if reference.role != CudaReference {
      return Err(ReferenceRoleRequired);
    }
    if corpus.digest != reference.corpus {
      return Err(ExperimentIdentityMismatch);
    }
    var obs := reference.observations;
    var finite, spread, successes, pairs, byCase := MeasureReorders(obs);
    if !finite {
      return Err(InvalidObservation);
    }
    if pairs != 0 && pairs != successes {
      return Err(NoiseFloorUnavailable);
    }
    var repeatable, total, any := MeasureRepetitions(byCase, spread, obs, ReorderPairs(obs));
    if !repeatable {
      return Err(InvalidObservation);
    }
    if !any && pairs == 0 {
      return Err(NoiseFloorUnavailable);
    }
    return Ok(Floor(ToUnits(total.absolute), ToUnits(total.relative), total.deterministic));
  }

  // ----- Rotating

  method CollectOutputs(obs: seq<Observation>) returns (byCase: map<string, seq<Fp32>>)
    ensures Collected(byCase, obs)
  {
    hide Outputs, ReorderPairs, Successes;
    byCase := map[];
    NoOutputs();
    assert obs[..0] == [];
    for i := 0 to |obs|
      invariant Collected(byCase, obs[..i])
    {
      ObservationStep(obs, i);
      if obs[i].output.Some? {
        byCase := WithOutput(byCase, obs[i]);
      }
    }
    assert obs[..|obs|] == obs;
  }

  /** Hands each observation the next output of its case, counting what was consumed. */
  method RotateWithinCases(obs: seq<Observation>) returns (r: seq<Observation>)
    ensures r == Rotated(obs)
  {
    hide Outputs, ReorderPairs, Successes;
    var byCase := CollectOutputs(obs);
    NoOutputs();
    assert obs[..0] == [];
    var consumed: map<string, nat> := map[];
    r := [];
    for i := 0 to |obs|
      invariant r == Rotated(obs)[..i]
      invariant forall c :: (if c in consumed then consumed[c] else 0) == |Outputs(obs[..i], c)|
    {
      ObservationStep(obs, i);
      var o := obs[i];
      var index := if o.caseId in consumed then consumed[o.caseId] else 0;
      if o.output.Some? {
        RankFinds(obs, i);
        assert (if o.caseId in byCase then byCase[o.caseId] else []) == Outputs(obs, o.caseId);
        var outputs := byCase[o.caseId];
        r := r + [o.(output := Some(outputs[(index + 1) % |outputs|]))];
        consumed := consumed[o.caseId := index + 1];
      } else {
        r := r + [o];
      }
      assert r == Rotated(obs)[..i] + [RotatedObservation(obs, i)];
    }
  }

  lemma NoOutputs()
    ensures Collected(map[], []) && forall c :: Outputs([], c) == []
  {
  }

  method PresentReordered(reference: Run) returns (r: Option<Run>)
    ensures r == ReorderedAuthority(reference)
  {
    hide Rotated, Repeats;
    var obs := reference.observations;
    if HasSecondOrder(obs) {
      var reordered := obs;
      for i := 0 to |obs|
        invariant |reordered| == |obs|
        invariant forall j :: 0 <= j < |obs| ==> reordered[j] == if j < i then SecondOrder(obs[j]) else obs[j]
      {
        reordered := reordered[i := SecondOrder(reordered[i])];
      }
      assert reordered == InSecondOrder(obs);
      return Some(Presented(reference, reordered));
    }
    if !Repeats(obs) {
      return None;
    }
    var rotated := RotateWithinCases(obs);
    return Some(Presented(reference, rotated));
  }

  // ----- Calibration

  datatype Mutant =
    | ArithmeticScale
    | IndexingSwap
    | BoundaryMask
    | AccumulationError
    | InvalidStatus
    | SignedZero
    | NonFiniteValue
    | Nondeterminism
    | JustOutsideTolerance

  const MUTANTS: seq<Mutant> := [
    ArithmeticScale, IndexingSwap, BoundaryMask, AccumulationError, InvalidStatus, SignedZero, NonFiniteValue,
    Nondeterminism, JustOutsideTolerance]

  /** A defect applied to a run, when the run gives it something to perturb. */
  type Battery = (Run, Mutant, Policy) -> Option<Run>

  /** Digests stand for what they are the digests of: the run and the derived policy. */
  datatype Calibration = Calibration(
    revision: string, policy: Option<Policy>, corpus: Digest, reference: Run,
    measured: bool, admitted: bool, undetected: seq<Mutant>, passed: bool)
  {
    /** The verdict, recomputed from the recorded facts. */
    predicate Passed() {
      passed && measured && admitted && undetected == []
    }
  }

  const REVISION: string := "cuda-reduction-differential-oracle-v1"

  ghost predicate Detects(reference: Run, corpus: Corpus, policy: Policy, battery: Battery, m: Mutant) {
    var mutated := battery(reference, m, policy);
    mutated.Some? && !Agrees(reference, mutated.value, policy, corpus)
  }

  /** The gate is neither too tight nor too loose at the tolerance this authority measures. */
  ghost predicate Calibrated(reference: Run, corpus: Corpus, policy: Policy, battery: Battery) {
    && ReorderedAuthority(reference).Some?
    && Agrees(reference, ReorderedAuthority(reference).value, policy, corpus)
    && (forall m :: m in MUTANTS ==> Detects(reference, corpus, policy, battery, m))
  }

  /** The defects that the comparator would let through, in battery order. */
  ghost function Undetected(mutants: seq<Mutant>, reference: Run, corpus: Corpus, policy: Policy, battery: Battery)
    : seq<Mutant>
  {
    if mutants == [] then []
    else
      var last := mutants[|mutants| - 1];
      Undetected(mutants[..|mutants| - 1], reference, corpus, policy, battery)
      + if Detects(reference, corpus, policy, battery, last) then [] else [last]
  }

  lemma {:induction false} AllDetected(mutants: seq<Mutant>, reference: Run, corpus: Corpus, policy: Policy, battery: Battery)
    ensures Undetected(mutants, reference, corpus, policy, battery) == [] <==>
              forall m :: m in mutants ==> Detects(reference, corpus, policy, battery, m)
  {
    hide Detects;
    if mutants != [] {
      AllDetected(mutants[..|mutants| - 1], reference, corpus, policy, battery);
      assert mutants == mutants[..|mutants| - 1] + [mutants[|mutants| - 1]];
    }
  }

  ghost function CalibrationOf(reference: Run, plan: Plan, corpus: Corpus, battery: Battery)
    : Result<Calibration, OracleError>
  {
    if reference.role != CudaReference then Err(ReferenceRoleRequired)
    else if corpus.digest != reference.corpus then Err(ExperimentIdentityMismatch)
    else if NoiseFloor(reference, corpus).Err? then
      Ok(Calibration(REVISION, None, reference.corpus, reference, false, false, MUTANTS, false))
    else
      var policy :- Derive(NoiseFloor(reference, corpus).value, plan);
      var reordered := ReorderedAuthority(reference);
      var admitted := reordered.Some? && Agrees(reference, reordered.value, policy, corpus);
      var undetected := Undetected(MUTANTS, reference, corpus, policy, battery);
      Ok(Calibration(REVISION, Some(policy), reference.corpus, reference, true, admitted, undetected,
                     admitted && undetected == []))
  }

  /** A calibration passes exactly when the floor was measured and the gate separates correct from
      broken at the tolerance that the floor gives. */
  lemma CalibrationPasses(reference: Run, plan: Plan, corpus: Corpus, battery: Battery)
    requires CalibrationOf(reference, plan, corpus, battery).Ok?
    ensures var k := CalibrationOf(reference, plan, corpus, battery).value;
            k.Passed() <==>
              && NoiseFloor(reference, corpus).Ok?
              && Derive(NoiseFloor(reference, corpus).value, plan).Ok?
              && k.policy == Some(Derive(NoiseFloor(reference, corpus).value, plan).value)
              && Calibrated(reference, corpus, Derive(NoiseFloor(reference, corpus).value, plan).value, battery)
  {
    hide NoiseFloor, Derive, Agrees, ReorderedAuthority, Undetected, Detects;
    if NoiseFloor(reference, corpus).Ok? && Derive(NoiseFloor(reference, corpus).value, plan).Ok? {
      AllDetected(MUTANTS, reference, corpus, Derive(NoiseFloor(reference, corpus).value, plan).value, battery);
    }
  }

  method RunBattery(reference: Run, corpus: Corpus, policy: Policy, battery: Battery)
    returns (undetected: seq<Mutant>)
    ensures undetected == Undetected(MUTANTS, reference, corpus, policy, battery)
  {
    hide Agrees, Fails;
    undetected := [];
    assert MUTANTS[..0] == [];
    for i := 0 to |MUTANTS|
      invariant undetected == Undetected(MUTANTS[..i], reference, corpus, policy, battery)
    {
      var mutated := battery(reference, MUTANTS[i], policy);
      var detected := false;
      if mutated.Some? {
        var failures := CompareRuns(reference, mutated.value, policy, corpus);
        detected := failures != [];
      }
      assert MUTANTS[..i + 1][..i] == MUTANTS[..i];
      if !detected {
        undetected := undetected + [MUTANTS[i]];
      }
    }
    assert MUTANTS[..|MUTANTS|] == MUTANTS;
  }

  method Calibrate(reference: Run, plan: Plan, corpus: Corpus, battery: Battery)
    returns (r: Result<Calibration, OracleError>)
    ensures r == CalibrationOf(reference, plan, corpus, battery)
  {
    hide Agrees, Fails, NoiseFloor, Derive, ReorderedAuthority, Undetected;
    if reference.role != CudaReference {
      return Err(ReferenceRoleRequired);
    }
    if corpus.digest != reference.corpus {
      return Err(ExperimentIdentityMismatch);
    }
    var floor := MeasureNoiseFloor(reference, corpus);
    if floor.Err? {
      return Ok(Calibration(REVISION, None, reference.corpus, reference, false, false, MUTANTS, false));
    }
    var policy := Derive(floor.value, plan);
    if policy.Err? {
      return Err(policy.error);
    }
    var admitted := false;
    var reordered := PresentReordered(reference);
    if reordered.Some? {
      var failures := CompareRuns(reference, reordered.value, policy.value, corpus);
      admitted := failures == [];
    }
    var undetected := RunBattery(reference, corpus, policy.value, battery);
    return Ok(Calibration(REVISION, Some(policy.value), reference.corpus, reference,
                          true, admitted, undetected, admitted && undetected == []));
  }

  // ----- Judging

  datatype Verdict = Pass | Fail | Unverifiable

  datatype Experiment = Experiment(identity: Digest, candidate: string, corpus: Digest, plan: Plan)

  /** This calibration vouches for this authority, this corpus and the tolerance derived from them. */
  ghost predicate Vouches(k: Calibration, reference: Run, corpus: Corpus, plan: Plan) {
    && k.Passed() && k.revision == REVISION && k.corpus == corpus.digest && k.reference == reference
    && NoiseFloor(reference, corpus).Ok? && Derive(NoiseFloor(reference, corpus).value, plan).Ok?
    && k.policy == Some(Derive(NoiseFloor(reference, corpus).value, plan).value)
  }

  predicate Crossed(e: Experiment, reference: Run, candidate: Run, plan: Plan, corpus: Corpus) {
    || reference.role != CudaReference || candidate.role != AscendCandidate
    || candidate.candidate != Some(e.candidate)
    || reference.experiment != e.identity || candidate.experiment != e.identity
    || reference.corpus != e.corpus || candidate.corpus != e.corpus
    || plan != e.plan || corpus.digest != e.corpus
  }

  /** Both runs were made for this experiment, one by the authority and one by its candidate. */
  predicate Paired(e: Experiment, reference: Run, candidate: Run) {
    && reference.role.CudaReference? && reference.experiment == e.identity && reference.corpus == e.corpus
    && candidate.role.AscendCandidate? && candidate.experiment == e.identity && candidate.corpus == e.corpus
    && candidate.candidate == Some(e.candidate)
  }

  /** Without a calibration that vouches, a candidate is unverifiable, never failed. */
  ghost function VerdictOf(e: Experiment, reference: Run, candidate: Run, plan: Plan, corpus: Corpus, k: Calibration)
    : Result<Verdict, OracleError>
  {
    if Crossed(e, reference, candidate, plan, corpus) then Err(ExperimentIdentityMismatch)
    else if NoiseFloor(reference, corpus).Err? then Ok(Unverifiable)
    else
      var policy :- Derive(NoiseFloor(reference, corpus).value, plan);
      Ok(if !Vouches(k, reference, corpus, plan) then Unverifiable
         else if Agrees(reference, candidate, policy, corpus) then Pass else Fail)
  }

  /** A pass over the runner's own calibration means that both runs were made for this experiment and
      this candidate, and that the candidate run stands in the declared relation to the authority's, at
      the tolerance measured from the authority and shown to separate correct from broken. */
  lemma PassMeansCalibratedAgreement(e: Experiment, reference: Run, candidate: Run, plan: Plan, corpus: Corpus,
                                     battery: Battery)
    requires CalibrationOf(reference, plan, corpus, battery).Ok?
    requires VerdictOf(e, reference, candidate, plan, corpus, CalibrationOf(reference, plan, corpus, battery).value)
             == Ok(Pass)
    ensures Paired(e, reference, candidate)
    ensures NoiseFloor(reference, corpus).Ok? && Derive(NoiseFloor(reference, corpus).value, plan).Ok?
    ensures var policy := Derive(NoiseFloor(reference, corpus).value, plan).value;
            Calibrated(reference, corpus, policy, battery) && Agrees(reference, candidate, policy, corpus)
  {
    hide NoiseFloor, Derive, Agrees, Calibrated, CalibrationOf;
    CalibrationPasses(reference, plan, corpus, battery);
  }

  /** The tolerance was measured on this authority, and the gate separates correct from broken at it. */
  ghost predicate CalibratedOn(reference: Run, plan: Plan, corpus: Corpus, battery: Battery) {
    && NoiseFloor(reference, corpus).Ok? && Derive(NoiseFloor(reference, corpus).value, plan).Ok?
    && Calibrated(reference, corpus, Derive(NoiseFloor(reference, corpus).value, plan).value, battery)
  }

  /** Over the runner's own calibration: a calibrated gate passes exactly the candidates that agree and
      fails exactly the others, and one that is not calibrated judges nobody. */
  lemma OwnVerdictExactly(e: Experiment, reference: Run, candidate: Run, plan: Plan, corpus: Corpus, battery: Battery)
    requires CalibrationOf(reference, plan, corpus, battery).Ok?
    requires VerdictOf(e, reference, candidate, plan, corpus, CalibrationOf(reference, plan, corpus, battery).value).Ok?
    ensures var v := VerdictOf(e, reference, candidate, plan, corpus,
                               CalibrationOf(reference, plan, corpus, battery).value).value;
            var calibrated := CalibratedOn(reference, plan, corpus, battery);
            && (v.Unverifiable? <==> !calibrated)
            && (calibrated ==>
                  var policy := Derive(NoiseFloor(reference, corpus).value, plan).value;
                  && (v.Pass? <==> Agrees(reference, candidate, policy, corpus))
                  && (v.Fail? <==> !Agrees(reference, candidate, policy, corpus)))
  {
    hide NoiseFloor, Derive, Agrees, Calibrated, CalibrationOf;
    CalibrationPasses(reference, plan, corpus, battery);
    OwnIdentity(reference, plan, corpus, battery);
  }

  lemma OwnIdentity(reference: Run, plan: Plan, corpus: Corpus, battery: Battery)
    requires CalibrationOf(reference, plan, corpus, battery).Ok?
    ensures var k := CalibrationOf(reference, plan, corpus, battery).value;
            && k.revision == REVISION && k.corpus == corpus.digest && k.reference == reference
            && (NoiseFloor(reference, corpus).Ok? && Derive(NoiseFloor(reference, corpus).value, plan).Ok? ==>
                  k.policy == Some(Derive(NoiseFloor(reference, corpus).value, plan).value))
  {
    hide NoiseFloor, Derive, Agrees, Undetected, ReorderedAuthority;
  }

  /** Crossed runs are refused. Otherwise a pass means exactly that a matching calibration passed and
      the declared relation holds at the tolerance it was calibrated for. */
  method EvaluateCorrectness(e: Experiment, reference: Run, candidate: Run, plan: Plan, corpus: Corpus, k: Calibration)
    returns (r: Result<(Verdict, seq<Failure>), OracleError>)
    ensures var verdict := VerdictOf(e, reference, candidate, plan, corpus, k);
            if r.Err? then verdict == Err(r.error) else verdict == Ok(r.value.0)
    ensures r.Ok? ==> Paired(e, reference, candidate) && plan == e.plan && corpus.digest == e.corpus
    ensures r.Ok? ==>
              && (r.value.0.Pass? <==>
                    && Vouches(k, reference, corpus, plan)
                    && Agrees(reference, candidate, k.policy.value, corpus))
              && (r.value.0.Fail? <==>
                    && Vouches(k, reference, corpus, plan)
                    && !Agrees(reference, candidate, k.policy.value, corpus))
              && (r.value.0.Unverifiable? ==> r.value.1 == [CalibrationUnavailable])
              && (r.value.0.Fail? ==>
                    forall f :: f in r.value.1 <==> Fails(reference, candidate, k.policy.value, corpus, f))
  {
    hide Agrees, Fails, NoiseFloor, Derive;
    if Crossed(e, reference, candidate, plan, corpus) {
      return Err(ExperimentIdentityMismatch);
    }
    var floor := MeasureNoiseFloor(reference, corpus);
    if floor.Err? {
      return Ok((Unverifiable, [CalibrationUnavailable]));
    }
    var policy := Derive(floor.value, plan);
    if policy.Err? {
      return Err(policy.error);
    }
    if !(k.Passed() && k.revision == REVISION && k.corpus == e.corpus && k.reference == reference
         && k.policy == Some(policy.value)) {
      return Ok((Unverifiable, [CalibrationUnavailable]));
    }
    var failures := CompareRuns(reference, candidate, policy.value, corpus);
    return Ok((if failures == [] then Pass else Fail, failures));
  }

  /** Every known defect is tried. */
  lemma EveryMutantIsTried(m: Mutant)
    ensures m in MUTANTS
  {
    assert m == match m
      case ArithmeticScale => MUTANTS[0]
      case IndexingSwap => MUTANTS[1]
      case BoundaryMask => MUTANTS[2]
      case AccumulationError => MUTANTS[3]
      case InvalidStatus => MUTANTS[4]
      case SignedZero => MUTANTS[5]
      case NonFiniteValue => MUTANTS[6]
      case Nondeterminism => MUTANTS[7]
      case JustOutsideTolerance => MUTANTS[8];
  }

  /** A stored verdict vouches only with its evidence, whatever the receipt claims. */
  lemma ClaimsNeedEvidence(k: Calibration, reference: Run, corpus: Corpus, plan: Plan)
    requires Vouches(k, reference, corpus, plan)
    ensures k.passed && k.measured && k.admitted && k.undetected == [] && k.reference == reference
  {
    hide NoiseFloor, Derive;
  }
}

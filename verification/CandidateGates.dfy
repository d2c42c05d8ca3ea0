/**
 The candidate tool gateway: which of its answers may complete a migration, and why an episode that
 succeeds over it was passed by the most downstream gate that is enabled.

 Artifacts, workers and JSON are surroundings that answer anything at all. What is read under a
 digest, and what a worker observed, are inputs of each call.
 */
module CandidateGates {
  import opened Outcomes
  import opened EpisodeRecords
  import opened EpisodeReducer
  import opened EpisodeInvariant
  import opened EpisodeSegments
  import opened EpisodeAnswers
  import opened EpisodeWorld
  import opened EpisodeTheorems
  import SourceGate
  import OracleComparison
  import OracleCalibration
  import OracleGate

  type Bytes = seq<nat>

  datatype GatewayError = Citation | Adapter | UnexpectedRequest

  const SUBMIT_CANDIDATE_BUNDLE: string := "submit_candidate_bundle"
  const REQUEST_SOURCE_GATE: string := "request_source_gate"
  const READ_REFERENCE: string := "read_reference"
  const READ_BUILD_DIAGNOSTICS: string := "read_build_diagnostics"
  const REQUEST_ASCEND_BUILD: string := "request_ascend_build"
  const REQUEST_REDUCTION_CORRECTNESS: string := "request_reduction_correctness"

  // ----- Receipts

  /** `migration` stands for the frozen specification and strategy. */
  datatype Manifest = Manifest(candidate: string, task: string, migration: Digest, source: SourceGate.SourceManifest)

  datatype SourceReceipt = SourceReceipt(
    candidate: string, manifest: Digest, passed: bool, findings: seq<SourceGate.Finding>)

  datatype BuildOutcome = Succeeded | CandidateFailed | TimedOut | Cancelled | InfraError | IntegrityViolation

  datatype BuildReceipt = BuildReceipt(
    task: string, candidate: string, manifest: Digest, sourceReceipt: Digest,
    passed: bool, outcome: BuildOutcome, exitCode: Option<int>)

  datatype Experiment = Experiment(
    task: string, candidate: string, migration: Digest, manifest: Digest,
    sourceReceipt: Digest, buildReceipt: Digest, corpus: Digest, plan: OracleCalibration.Plan)

  /** What the workers are asked to run: the implementations of the authority and of the candidate. */
  datatype Assignment = Assignment(experiment: Experiment, reference: Digest, candidate: Digest)

  datatype CorrectnessReceipt = CorrectnessReceipt(
    experiment: Experiment, reference: Digest, candidate: Digest, calibration: Digest, verdict: OracleGate.Verdict)

  datatype BuildArguments = BuildArguments(manifest: Digest, sourceReceipt: Digest)

  datatype CorrectnessArguments = CorrectnessArguments(
    candidate: string, manifest: Digest, sourceReceipt: Digest, buildReceipt: Digest)

  /** JSON and identities, as far as the gateway uses them; a tree that makes no bundle has no
      implementation identity. */
  datatype Codec = Codec(
    sourceArguments: Bytes -> Option<Digest>,
    buildArguments: Bytes -> Option<BuildArguments>,
    correctnessArguments: Bytes -> Option<CorrectnessArguments>,
    manifest: Bytes -> Option<Manifest>,
    readBuildReceipt: Bytes -> Option<BuildReceipt>,
    writeSourceReceipt: SourceReceipt -> Bytes,
    writeBuildReceipt: BuildReceipt -> Bytes,
    writeRun: OracleComparison.Run -> Bytes,
    writeCalibration: OracleGate.Calibration -> Bytes,
    writeCorrectnessReceipt: CorrectnessReceipt -> Bytes,
    writeResult: seq<Digest> -> Bytes,
    experiment: Experiment -> Digest,
    implementation: (OracleComparison.Role, SourceGate.Tree) -> Option<Digest>)

  /** The oracle that the controller freezes: authority, corpus, tolerance plan and defect battery. */
  datatype Oracle = Oracle(
    authority: SourceGate.Tree, corpus: OracleComparison.Corpus, plan: OracleCalibration.Plan,
    battery: OracleGate.Battery)

  datatype Gateway = Gateway(
    task: string, migration: Digest, symbol: string, target: string, inputs: seq<SourceGate.Path>,
    codec: Codec, utf8: SourceGate.Utf8, oracle: Oracle, reference: bool, build: bool, correctness: bool)

  // ----- Surroundings

  datatype BuildObservation =
    | BuildPending(diagnostic: Digest)
    | BuildFinished(bound: bool, complete: bool, outcome: BuildOutcome, exitCode: Option<int>, buildCompleted: bool)

  datatype RunObservation =
    | RunsPending(diagnostic: Digest)
    | RunsFinished(reference: OracleComparison.Run, candidate: OracleComparison.Run)

  /** Everything one call learns from outside: the artifact store, the workspace, the workers. */
  datatype Surroundings = Surroundings(
    read: Digest -> Result<Bytes, GatewayError>,
    stores: bool,
    submitted: Result<Digest, GatewayError>,
    instrument: Result<ToolOutcome, GatewayError>,
    sources: Manifest -> Result<SourceGate.Tree, GatewayError>,
    buildWorker: Result<BuildObservation, GatewayError>,
    runWorkers: Result<RunObservation, GatewayError>)

  type Answer = Result<ToolOutcome, GatewayError>

  function OrAdapter<T>(value: Option<T>): Result<T, GatewayError> {
    if value.Some? then Ok(value.value) else Err(Adapter)
  }

  function OrCitation<T>(value: Option<T>): Result<T, GatewayError> {
    if value.Some? then Ok(value.value) else Err(Citation)
  }

  // ----- Operations

  predicate Belongs(g: Gateway, m: Manifest) {
    && m.task == g.task && m.migration == g.migration
    && m.source.symbol == g.symbol && m.source.target == g.target && m.source.inputs == g.inputs
  }

  function Publish(g: Gateway, env: Surroundings, receipts: seq<Digest>): Result<Digest, GatewayError> {
    if env.stores then Ok(OfBytes(g.codec.writeResult(receipts))) else Err(Adapter)
  }

  function ReadManifest(g: Gateway, env: Surroundings, digest: Digest): Result<Manifest, GatewayError> {
    var bytes :- env.read(digest);
    OrCitation(g.codec.manifest(bytes))
  }

  /** The receipt that the Source Gate writes for one tree. */
  ghost function SourceReceiptOf(g: Gateway, m: Manifest, digest: Digest, tree: SourceGate.Tree): SourceReceipt {
    var findings := SourceGate.Findings(m.source, tree, g.utf8);
    SourceReceipt(m.candidate, digest, SourceGate.NothingBlocks(findings), findings)
  }

  ghost function Inspect(g: Gateway, env: Surroundings, m: Manifest, digest: Digest)
    : Result<SourceReceipt, GatewayError>
  {
    var tree :- env.sources(m);
    Ok(SourceReceiptOf(g, m, digest, tree))
  }

  ghost function RequestSourceGate(g: Gateway, env: Surroundings, arguments: Bytes): Answer {
    var digest :- OrAdapter(g.codec.sourceArguments(arguments));
    var m :- ReadManifest(g, env, digest);
    if !Belongs(g, m) then Err(Citation)
    else
      var receipt :- Inspect(g, env, m, digest);
      var receiptDigest := OfBytes(g.codec.writeSourceReceipt(receipt));
      var result :- Publish(g, env, [receiptDigest]);
      Ok(Completed(if receipt.passed then ToolStatus.Succeeded else ToolStatus.CandidateFailed,
                   result, [receiptDigest], receipt.passed && !g.build && !g.correctness))
  }

  function CandidateRejected(result: Digest): ToolOutcome {
    Completed(ToolStatus.CandidateFailed, result, [result], false)
  }

  function BuildStatus(passed: bool, outcome: BuildOutcome): ToolStatus {
    if passed then ToolStatus.Succeeded
    else match outcome
      case CandidateFailed => ToolStatus.CandidateFailed
      case TimedOut => ToolStatus.TimedOut
      case Cancelled => ToolStatus.Cancelled
      case _ => ToolStatus.InfraFailed
  }

  function ObserveBuild(g: Gateway, env: Surroundings, m: Manifest, arguments: BuildArguments): Answer {
    var observation :- env.buildWorker;
    match observation
    case BuildPending(diagnostic) => Ok(Pending(diagnostic))
    case BuildFinished(bound, complete, outcome, exitCode, buildCompleted) =>
      if !bound || !complete then Err(Adapter)
      else
        var passed := outcome.Succeeded? && exitCode == Some(0) && buildCompleted;
        var receipt := BuildReceipt(m.task, m.candidate, arguments.manifest, arguments.sourceReceipt,
                                    passed, outcome, exitCode);
        var receiptDigest := OfBytes(g.codec.writeBuildReceipt(receipt));
        var result :- Publish(g, env, [receiptDigest]);
        Ok(Completed(BuildStatus(passed, outcome), result, [receiptDigest], passed))
  }

  ghost function Build(g: Gateway, env: Surroundings, raw: Bytes): Answer {
    var arguments :- OrAdapter(g.codec.buildArguments(raw));
    var m :- ReadManifest(g, env, arguments.manifest);
    if !Belongs(g, m) then Err(Adapter)
    else
      var expected :- Inspect(g, env, m, arguments.manifest);
      var supplied :- env.read(arguments.sourceReceipt);
      var bytes := g.codec.writeSourceReceipt(expected);
      if !expected.passed || supplied != bytes || OfBytes(supplied) != arguments.sourceReceipt then
        var result :- Publish(g, env, [arguments.sourceReceipt, OfBytes(bytes)]);
        Ok(CandidateRejected(result))
      else ObserveBuild(g, env, m, arguments)
  }

  function RequireDownstreamGate(outcome: ToolOutcome, downstream: bool): ToolOutcome {
    if outcome.Completed? then outcome.(satisfies := outcome.satisfies && !downstream) else outcome
  }

  /** What a correctness request asks the workers to run, if its citations hold together. */
  function PrepareCorrectness(g: Gateway, env: Surroundings, raw: Bytes): Result<Assignment, GatewayError> {
    var arguments :- OrAdapter(g.codec.correctnessArguments(raw));
    var bytes :- env.read(arguments.buildReceipt);
    if OfBytes(bytes) != arguments.buildReceipt then Err(Citation)
    else
      var receipt :- OrCitation(g.codec.readBuildReceipt(bytes));
      if !receipt.passed || receipt.task != g.task || receipt.candidate != arguments.candidate
         || receipt.manifest != arguments.manifest || receipt.sourceReceipt != arguments.sourceReceipt
      then Err(Citation)
      else
        var m :- ReadManifest(g, env, arguments.manifest);
        if !Belongs(g, m) || m.candidate != arguments.candidate then Err(Citation)
        else
          var tree :- env.sources(m);
          var candidate :- OrAdapter(g.codec.implementation(OracleComparison.AscendCandidate, tree));
          var reference :- OrAdapter(g.codec.implementation(OracleComparison.CudaReference, g.oracle.authority));
          Ok(Assignment(Experiment(g.task, arguments.candidate, g.migration, arguments.manifest,
                                   arguments.sourceReceipt, arguments.buildReceipt,
                                   g.oracle.corpus.digest, g.oracle.plan),
                        reference, candidate))
  }

  function VerdictStatus(verdict: OracleGate.Verdict): ToolStatus {
    match verdict
    case Pass => ToolStatus.Succeeded
    case Fail => ToolStatus.CandidateFailed
    case _ => ToolStatus.InfraFailed
  }

  function FromOracle<T>(value: Result<T, OracleCalibration.OracleError>): Result<T, GatewayError> {
    if value.Ok? then Ok(value.value) else Err(Adapter)
  }

  ghost function CalibrationFor(g: Gateway, reference: OracleComparison.Run)
    : Result<OracleGate.Calibration, GatewayError>
  {
    FromOracle(OracleGate.CalibrationOf(reference, g.oracle.plan, g.oracle.corpus, g.oracle.battery))
  }

  function IdentityOf(g: Gateway, e: Experiment): OracleGate.Experiment {
    OracleGate.Experiment(g.codec.experiment(e), e.candidate, e.corpus, e.plan)
  }

  ghost function VerdictFor(g: Gateway, e: Experiment, reference: OracleComparison.Run,
                            candidate: OracleComparison.Run, k: OracleGate.Calibration)
    : Result<OracleGate.Verdict, GatewayError>
  {
    FromOracle(OracleGate.VerdictOf(IdentityOf(g, e), reference, candidate, g.oracle.plan, g.oracle.corpus, k))
  }

  function CorrectnessReceiptOf(g: Gateway, e: Experiment, reference: OracleComparison.Run,
                                candidate: OracleComparison.Run, calibration: Digest, verdict: OracleGate.Verdict)
    : CorrectnessReceipt
  {
    CorrectnessReceipt(e, OfBytes(g.codec.writeRun(reference)), OfBytes(g.codec.writeRun(candidate)),
                       calibration, verdict)
  }

  ghost function Correctness(g: Gateway, env: Surroundings, raw: Bytes): Answer {
    var assignment :- PrepareCorrectness(g, env, raw);
    var experiment := assignment.experiment;
    var observation :- env.runWorkers;
    match observation
    case RunsPending(diagnostic) => Ok(Pending(diagnostic))
    case RunsFinished(reference, candidate) =>
      if reference.implementation != assignment.reference || candidate.implementation != assignment.candidate
      then Err(Adapter)
      else
        var calibration :- CalibrationFor(g, reference);
        var verdict :- VerdictFor(g, experiment, reference, candidate, calibration);
        var calibrated := OfBytes(g.codec.writeCalibration(calibration));
        var receipt := CorrectnessReceiptOf(g, experiment, reference, candidate, calibrated, verdict);
        var receiptDigest := OfBytes(g.codec.writeCorrectnessReceipt(receipt));
        var result :- Publish(g, env, [receiptDigest, calibrated]);
        Ok(Completed(VerdictStatus(verdict), result, [calibrated, receiptDigest], verdict.Pass?))
  }

  function Submit(g: Gateway, env: Surroundings): Answer {
    var manifest :- env.submitted;
    var result :- Publish(g, env, [manifest]);
    Ok(Completed(ToolStatus.Succeeded, result, [manifest], false))
  }

  /** Reading tools report success or a readable rejection, and never completion. */
  function Instrument(env: Surroundings): Answer {
    var outcome :- env.instrument;
    if outcome.Completed?
    then Ok(outcome.(status := if outcome.status.Succeeded? then ToolStatus.Succeeded else ToolStatus.CandidateFailed,
                     satisfies := false))
    else Err(Adapter)
  }

  function Recoverable(g: Gateway, env: Surroundings): Answer {
    var result :- Publish(g, env, []);
    Ok(Completed(ToolStatus.CandidateFailed, result, [], false))
  }

  function RecoverCitations(g: Gateway, env: Surroundings, answer: Answer): Answer {
    if answer.Err? && answer.error.Citation? then Recoverable(g, env) else answer
  }

  function AsInstrument(g: Gateway, env: Surroundings, answer: Answer): Answer {
    if answer.Err? && answer.error.Adapter? then Recoverable(g, env) else answer
  }

  /** One `execute` or `reconcile`: both take the same path and differ in what the workers observe. */
  ghost function Answered(g: Gateway, env: Surroundings, invocation: ToolInvocation): Answer {
    var name, raw := invocation.call.name, invocation.call.arguments;
    if name == REQUEST_ASCEND_BUILD then
      if !g.build then Err(UnexpectedRequest)
      else
        var outcome :- Build(g, env, raw);
        Ok(RequireDownstreamGate(outcome, g.correctness))
    else if name == REQUEST_REDUCTION_CORRECTNESS then
      if !g.correctness then Err(UnexpectedRequest) else Correctness(g, env, raw)
    else
      RecoverCitations(g, env,
        if name == SUBMIT_CANDIDATE_BUNDLE then Submit(g, env)
        else if name == REQUEST_SOURCE_GATE then RequestSourceGate(g, env, raw)
        else if name == READ_REFERENCE then
          AsInstrument(g, env, if g.reference then Instrument(env) else Err(UnexpectedRequest))
        else if name == READ_BUILD_DIAGNOSTICS then AsInstrument(g, env, Instrument(env))
        else Err(UnexpectedRequest))
  }

  function Describe(g: Gateway, name: string): Option<Descriptor> {
    if name == SUBMIT_CANDIDATE_BUNDLE then Some(Descriptor("1", Observed))
    else if name == REQUEST_SOURCE_GATE then Some(Descriptor("1", VerifiedReference))
    else if name == READ_REFERENCE && g.reference then Some(Descriptor("1", Observed))
    else if name == READ_BUILD_DIAGNOSTICS && g.build then Some(Descriptor("1", Observed))
    else if name == REQUEST_ASCEND_BUILD && g.build then Some(Descriptor("1", VerifiedReference))
    else if name == REQUEST_REDUCTION_CORRECTNESS && g.correctness then Some(Descriptor("1", VerifiedReference))
    else None
  }

  // ----- What completion means

  function LastGate(g: Gateway): string {
    if g.correctness then REQUEST_REDUCTION_CORRECTNESS
    else if g.build then REQUEST_ASCEND_BUILD
    else REQUEST_SOURCE_GATE
  }

  /** A manifest of this migration, and bytes for it that the Source Gate admits. */
  ghost predicate Admitted(g: Gateway, m: Manifest, tree: SourceGate.Tree) {
    Belongs(g, m) && SourceGate.Admissible(m.source, tree, g.utf8)
  }

  /** The receipt of an admitted tree: for this candidate and manifest, with its advisories. */
  ghost function PassingReceipt(g: Gateway, m: Manifest, digest: Digest, tree: SourceGate.Tree): SourceReceipt {
    SourceReceipt(m.candidate, digest, true, SourceGate.Findings(m.source, tree, g.utf8))
  }

  /** The Source Gate receipt of an admitted tree: the one that was found for the cited manifest. */
  ghost predicate SourcePassed(g: Gateway, env: Surroundings, raw: Bytes, receipts: seq<Digest>) {
    exists m: Manifest, digest: Digest, tree: SourceGate.Tree ::
      && Admitted(g, m, tree)
      && g.codec.sourceArguments(raw) == Some(digest)
      && ReadManifest(g, env, digest) == Ok(m) && env.sources(m) == Ok(tree)
      && receipts == [OfBytes(g.codec.writeSourceReceipt(PassingReceipt(g, m, digest, tree)))]
  }

  /** The worker built the cited manifest's tree, and the Source Gate admits that tree with exactly the
      cited source receipt. */
  ghost predicate BuildPassed(g: Gateway, env: Surroundings, raw: Bytes, receipts: seq<Digest>) {
    exists m: Manifest, arguments: BuildArguments, tree: SourceGate.Tree ::
      && Admitted(g, m, tree)
      && g.codec.buildArguments(raw) == Some(arguments)
      && ReadManifest(g, env, arguments.manifest) == Ok(m) && env.sources(m) == Ok(tree)
      && arguments.sourceReceipt
         == OfBytes(g.codec.writeSourceReceipt(PassingReceipt(g, m, arguments.manifest, tree)))
      && env.buildWorker == Ok(BuildFinished(true, true, BuildOutcome.Succeeded, Some(0), true))
      && receipts == [OfBytes(g.codec.writeBuildReceipt(
           BuildReceipt(g.task, m.candidate, arguments.manifest, arguments.sourceReceipt,
                        true, BuildOutcome.Succeeded, Some(0))))]
  }

  /** The cited build receipt passed for the experiment's task, candidate, manifest and source receipt,
      and the manifest is one of this migration. */
  ghost predicate Built(g: Gateway, env: Surroundings, raw: Bytes, e: Experiment) {
    exists bytes: Bytes, build: BuildReceipt, m: Manifest ::
      && g.codec.correctnessArguments(raw)
         == Some(CorrectnessArguments(e.candidate, e.manifest, e.sourceReceipt, e.buildReceipt))
      && e.task == g.task && e.migration == g.migration
      && e.buildReceipt == OfBytes(bytes) && g.codec.readBuildReceipt(bytes) == Some(build)
      && build.passed && build.task == e.task && build.candidate == e.candidate
      && build.manifest == e.manifest && build.sourceReceipt == e.sourceReceipt
      && ReadManifest(g, env, e.manifest) == Ok(m) && Belongs(g, m) && m.candidate == e.candidate
  }

  /** The workers reported these runs, for this experiment: one of the frozen authority, and one of the
      tree that was found for the experiment's manifest. */
  ghost predicate Reported(g: Gateway, env: Surroundings, e: Experiment, reference: OracleComparison.Run,
                           candidate: OracleComparison.Run)
  {
    && env.runWorkers == Ok(RunsFinished(reference, candidate))
    && OracleGate.Paired(IdentityOf(g, e), reference, candidate)
    && g.codec.implementation(OracleComparison.CudaReference, g.oracle.authority) == Some(reference.implementation)
    && exists m: Manifest, tree: SourceGate.Tree ::
         ReadManifest(g, env, e.manifest) == Ok(m) && env.sources(m) == Ok(tree)
         && g.codec.implementation(OracleComparison.AscendCandidate, tree) == Some(candidate.implementation)
  }

  /** The candidate run stands in the declared relation to the authority's, at a tolerance that was
      measured from the authority and calibrated on it. */
  ghost predicate AgreesWhenCalibrated(g: Gateway, reference: OracleComparison.Run, candidate: OracleComparison.Run) {
    var floor := OracleCalibration.NoiseFloor(reference, g.oracle.corpus);
    && floor.Ok? && OracleCalibration.Derive(floor.value, g.oracle.plan).Ok?
    && var policy := OracleCalibration.Derive(floor.value, g.oracle.plan).value;
       && OracleGate.Calibrated(reference, g.oracle.corpus, policy, g.oracle.battery)
       && OracleComparison.Agrees(reference, candidate, policy, g.oracle.corpus)
  }

  /** A Pass over a built candidate: the runs that the workers reported agree, and the receipt names
      them, with the calibration receipt beside the verdict. */
  ghost predicate CorrectnessPassed(g: Gateway, env: Surroundings, raw: Bytes, receipts: seq<Digest>) {
    exists e: Experiment, reference: OracleComparison.Run, candidate: OracleComparison.Run ::
      && Built(g, env, raw, e)
      && Reported(g, env, e, reference, candidate)
      && AgreesWhenCalibrated(g, reference, candidate)
      && CalibrationFor(g, reference).Ok?
      && var calibrated := OfBytes(g.codec.writeCalibration(CalibrationFor(g, reference).value));
         receipts == [calibrated, OfBytes(g.codec.writeCorrectnessReceipt(
           CorrectnessReceipt(e, OfBytes(g.codec.writeRun(reference)), OfBytes(g.codec.writeRun(candidate)),
                              calibrated, OracleGate.Pass)))]
  }

  ghost predicate Passed(g: Gateway, env: Surroundings, raw: Bytes, receipts: seq<Digest>) {
    if g.correctness then CorrectnessPassed(g, env, raw, receipts)
    else if g.build then BuildPassed(g, env, raw, receipts)
    else SourcePassed(g, env, raw, receipts)
  }

  lemma SourceGateCompletes(g: Gateway, env: Surroundings, raw: Bytes)
    requires RequestSourceGate(g, env, raw).Ok? && RequestSourceGate(g, env, raw).value.satisfies
    ensures !g.build && !g.correctness
    ensures RequestSourceGate(g, env, raw).value.status.Succeeded?
    ensures SourcePassed(g, env, raw, RequestSourceGate(g, env, raw).value.receipts)
  {
    hide SourceGate.Findings, SourceGate.NothingBlocks, SourceGate.Admissible;
    var digest := g.codec.sourceArguments(raw).value;
    var m := ReadManifest(g, env, digest).value;
    var tree := env.sources(m).value;
    SourceGate.PassesExactly(m.source, tree, g.utf8);
    assert Admitted(g, m, tree);
  }

  lemma BuildCompletes(g: Gateway, env: Surroundings, raw: Bytes)
    requires Build(g, env, raw).Ok? && Build(g, env, raw).value.Completed?
    requires Build(g, env, raw).value.satisfies
    ensures Build(g, env, raw).value.status.Succeeded?
    ensures BuildPassed(g, env, raw, Build(g, env, raw).value.receipts)
  {
    hide SourceGate.Findings, SourceGate.NothingBlocks, SourceGate.Admissible;
    var arguments := g.codec.buildArguments(raw).value;
    var m := ReadManifest(g, env, arguments.manifest).value;
    var tree := env.sources(m).value;
    SourceGate.PassesExactly(m.source, tree, g.utf8);
    assert Admitted(g, m, tree);
  }

  lemma PreparedIsBuilt(g: Gateway, env: Surroundings, raw: Bytes)
    requires PrepareCorrectness(g, env, raw).Ok?
    ensures Built(g, env, raw, PrepareCorrectness(g, env, raw).value.experiment)
  {
    var e := PrepareCorrectness(g, env, raw).value.experiment;
    var bytes := env.read(e.buildReceipt).value;
    assert e.buildReceipt == OfBytes(bytes);
  }

  lemma PreparedAssigns(g: Gateway, env: Surroundings, raw: Bytes)
    requires PrepareCorrectness(g, env, raw).Ok?
    ensures var a := PrepareCorrectness(g, env, raw).value;
            && g.codec.implementation(OracleComparison.CudaReference, g.oracle.authority) == Some(a.reference)
            && exists m: Manifest, tree: SourceGate.Tree ::
                 ReadManifest(g, env, a.experiment.manifest) == Ok(m) && env.sources(m) == Ok(tree)
                 && g.codec.implementation(OracleComparison.AscendCandidate, tree) == Some(a.candidate)
  {
  }

  lemma PassIsAgreement(g: Gateway, e: Experiment, reference: OracleComparison.Run,
                        candidate: OracleComparison.Run)
    requires CalibrationFor(g, reference).Ok?
    requires VerdictFor(g, e, reference, candidate, CalibrationFor(g, reference).value) == Ok(OracleGate.Pass)
    ensures OracleGate.Paired(IdentityOf(g, e), reference, candidate)
    ensures AgreesWhenCalibrated(g, reference, candidate)
  {
    hide OracleGate.CalibrationOf, OracleGate.VerdictOf, OracleGate.Calibrated, OracleComparison.Agrees,
      OracleCalibration.NoiseFloor, OracleCalibration.Derive;
    OracleGate.PassMeansCalibratedAgreement(
      IdentityOf(g, e), reference, candidate, g.oracle.plan, g.oracle.corpus, g.oracle.battery);
  }

  lemma CorrectnessCompletes(g: Gateway, env: Surroundings, raw: Bytes)
    requires Correctness(g, env, raw).Ok? && Correctness(g, env, raw).value.Completed?
    requires Correctness(g, env, raw).value.satisfies
    ensures Correctness(g, env, raw).value.status.Succeeded?
    ensures CorrectnessPassed(g, env, raw, Correctness(g, env, raw).value.receipts)
  {
    hide PrepareCorrectness, CalibrationFor, VerdictFor, Built, AgreesWhenCalibrated, OracleGate.Paired;
    var e := PrepareCorrectness(g, env, raw).value.experiment;
    var runs := env.runWorkers.value;
    PreparedIsBuilt(g, env, raw);
    PreparedAssigns(g, env, raw);
    PassIsAgreement(g, e, runs.reference, runs.candidate);
    assert Reported(g, env, e, runs.reference, runs.candidate);
    assert Built(g, env, raw, e) && AgreesWhenCalibrated(g, runs.reference, runs.candidate);
  }

  /** Only the most downstream enabled gate completes a migration, and only by passing. */
  lemma OnlyTheLastGateCompletes(g: Gateway, env: Surroundings, invocation: ToolInvocation)
    requires Answered(g, env, invocation).Ok? && Answered(g, env, invocation).value.Completed?
    requires Answered(g, env, invocation).value.satisfies
    ensures invocation.call.name == LastGate(g)
    ensures Answered(g, env, invocation).value.status.Succeeded?
    ensures Passed(g, env, invocation.call.arguments, Answered(g, env, invocation).value.receipts)
  {
    hide RequestSourceGate, Build, Correctness, SourcePassed, BuildPassed, CorrectnessPassed;
    var name, raw := invocation.call.name, invocation.call.arguments;
    if name == REQUEST_ASCEND_BUILD {
      BuildCompletes(g, env, raw);
    } else if name == REQUEST_REDUCTION_CORRECTNESS {
      CorrectnessCompletes(g, env, raw);
    } else {
      assert name == REQUEST_SOURCE_GATE;
      SourceGateCompletes(g, env, raw);
    }
  }

  /** And it completes it every time it passes. */
  lemma LastGateAlwaysCompletes(g: Gateway, env: Surroundings, invocation: ToolInvocation)
    requires Answered(g, env, invocation).Ok? && Answered(g, env, invocation).value.Completed?
    requires invocation.call.name == LastGate(g) && Answered(g, env, invocation).value.status.Succeeded?
    ensures Answered(g, env, invocation).value.satisfies
  {
    hide ReadManifest, Inspect, PrepareCorrectness, CalibrationFor, VerdictFor, Publish, Belongs;
  }

  predicate Honest(status: ToolStatus) {
    status.Succeeded? || status.CandidateFailed? || status.InfraFailed? || status.TimedOut? || status.Cancelled?
  }

  lemma AnswersAreHonest(g: Gateway, env: Surroundings, invocation: ToolInvocation)
    requires Answered(g, env, invocation).Ok?
    ensures Answered(g, env, invocation).value.Completed? ==> Honest(Answered(g, env, invocation).value.status)
  {
    hide ReadManifest, Inspect, PrepareCorrectness, CalibrationFor, VerdictFor, Publish, Belongs;
  }

  /** The reducer can record every answer that the gateway gives to a call that it planned. */
  lemma AnswersAreAcceptable(g: Gateway, env: Surroundings, o: Operation)
    requires Describe(g, o.call.name).Some? && o.authority == Describe(g, o.call.name).value.authority
    requires o.status.Dispatching? || o.status.Running? || o.status.Reconciling?
    requires Answered(g, env, InvocationOf(o)).Ok?
    ensures Acceptable(o, Answered(g, env, InvocationOf(o)).value)
  {
    hide Answered, Passed;
    AnswersAreHonest(g, env, InvocationOf(o));
    var answer := Answered(g, env, InvocationOf(o)).value;
    if answer.Completed? && answer.satisfies {
      OnlyTheLastGateCompletes(g, env, InvocationOf(o));
    }
  }

  // ----- Whole runs

  /** One call of the gateway, and what it met outside. */
  datatype Encounter = Encounter(invocation: ToolInvocation, env: Surroundings)

  /** A completing answer is what the gateway said in one of these encounters. Any other answer may be
      lost, late or wrong. */
  ghost predicate FromGateway(g: Gateway, met: seq<Encounter>, invocation: ToolInvocation, outcome: ToolOutcome) {
    outcome.Completed? && outcome.satisfies ==>
      exists k :: 0 <= k < |met| && met[k].invocation == invocation
        && Answered(g, met[k].env, invocation) == Ok(outcome)
  }

  ghost predicate Gated(g: Gateway, met: seq<Encounter>, w: World, actions: seq<Action>)
    decreases |actions|
  {
    actions == [] ||
    (&& (actions[0].CallTool? && PhaseOf(w, actions[0].runner).ToolReady? ==>
           FromGateway(g, met, PhaseOf(w, actions[0].runner).invocation, actions[0].toolOutcome))
     && Gated(g, met, Next(w, actions[0]), actions[1..]))
  }

  /** This operation was passed by the last enabled gate, in an encounter of its own. */
  ghost predicate Certified(g: Gateway, met: seq<Encounter>, o: Operation) {
    && o.authority.VerifiedReference? && o.status.Succeeded? && o.call.name == LastGate(g)
    && exists k :: 0 <= k < |met| && met[k].invocation == InvocationOf(o)
         && Passed(g, met[k].env, o.call.arguments, o.receipts)
  }

  ghost predicate Earned(g: Gateway, met: seq<Encounter>, s: EpisodeState) {
    s.satisfied ==> exists j :: 0 <= j < |s.operations| && Certified(g, met, s.operations[j])
  }

  ghost predicate AnswersOk(g: Gateway, met: seq<Encounter>, w: World) {
    forall r :: r in w.runners && w.runners[r].ToolAnswered? ==>
      FromGateway(g, met, w.runners[r].invocation, w.runners[r].toolOutcome)
  }

  ghost predicate GatedInv(g: Gateway, met: seq<Encounter>, w: World) {
    Earned(g, met, w.current.state) && AnswersOk(g, met, w)
  }

  lemma EarnedSurvives(g: Gateway, met: seq<Encounter>, s: EpisodeState, t: EpisodeState)
    requires Earned(g, met, s) && Evolves(s, t) && t.satisfied == s.satisfied
    ensures Earned(g, met, t)
  {
    hide Passed;
    if s.satisfied {
      var j :| 0 <= j < |s.operations| && Certified(g, met, s.operations[j]);
      assert OperationEvolves(s.operations[j], t.operations[j]);
      assert Certified(g, met, t.operations[j]);
    }
  }

  /** The one segment that may set `satisfied` records the certificate with it. */
  lemma AfterToolEarns(g: Gateway, met: seq<Encounter>, s: EpisodeState, index: nat, invocation: ToolInvocation,
                       reconciling: bool, outcome: ToolOutcome)
    requires ToolHeld(s, index, invocation, reconciling) && FromGateway(g, met, invocation, outcome)
    requires Earned(g, met, s) && index < |s.operations| && AfterTool(s, index, outcome).Ok?
    ensures AfterTool(s, index, outcome).value.Commit?
    ensures Earned(g, met, AfterTool(s, index, outcome).value.state)
  {
    hide StateInv, Passed, Answered;
    var t := AfterTool(s, index, outcome).value.state;
    if outcome.Completed? && outcome.satisfies {
      var k :| 0 <= k < |met| && met[k].invocation == invocation
        && Answered(g, met[k].env, invocation) == Ok(outcome);
      OnlyTheLastGateCompletes(g, met[k].env, invocation);
      assert Certified(g, met, t.operations[index]);
    } else if s.satisfied {
      var j :| 0 <= j < |s.operations| && Certified(g, met, s.operations[j]);
      assert t.operations[j] == s.operations[j];
    }
  }

  // No other segment touches the flag.

  ghost predicate KeepsFlag(s: EpisodeState, step: Fallible<Step>) {
    step.Ok? && !step.value.Rest? ==> step.value.state.satisfied == s.satisfied
  }

  lemma BeginToolKeepsFlag(s: EpisodeState)
    ensures KeepsFlag(s, BeginTool(s))
  {
  }

  lemma BeginAdvanceKeepsFlag(s: EpisodeState, catalog: Catalog)
    ensures KeepsFlag(s, BeginAdvance(s, catalog))
  {
    hide BeginTool;
    BeginToolKeepsFlag(s);
  }

  lemma AfterModelKeepsFlag(s: EpisodeState, outcome: ModelOutcome)
    ensures KeepsFlag(s, AfterModel(s, outcome))
  {
  }

  lemma CommandsKeepFlag(s: EpisodeState, granted: Allowance)
    ensures KeepsFlag(s, ResumeEpisode(s, granted))
    ensures KeepsFlag(s, ResumeReconciliation(s))
  {
  }

  lemma CancelKeepsFlag(s: EpisodeState)
    ensures KeepsFlag(s, CancelEpisode(s))
  {
  }

  lemma NextKeepsAnswers(g: Gateway, met: seq<Encounter>, w: World, a: Action)
    requires AnswersOk(g, met, w)
    requires a.CallTool? && PhaseOf(w, a.runner).ToolReady? ==>
               FromGateway(g, met, PhaseOf(w, a.runner).invocation, a.toolOutcome)
    ensures AnswersOk(g, met, Next(w, a))
  {
    hide FromGateway, BeginAdvance, ResumeEpisode, CancelEpisode, ResumeReconciliation, AfterModel, AfterTool;
    var v := Next(w, a);
    forall r | r in v.runners && v.runners[r].ToolAnswered?
      ensures FromGateway(g, met, v.runners[r].invocation, v.runners[r].toolOutcome)
    {
      assert r != a.runner ==> r in w.runners && v.runners[r] == w.runners[r];
    }
  }

  lemma SettleEarns(g: Gateway, met: seq<Encounter>, w: World, r: RunnerId, step: Fallible<Step>)
    requires Earned(g, met, w.current.state)
    requires step.Ok? ==> StepKeeps(w.current.state, step.value)
    requires KeepsFlag(w.current.state, step)
    ensures Earned(g, met, Settle(w, r, w.current, step).current.state)
  {
    hide StateInv, Evolves, Earned, ModelHeld, ToolHeld;
    if step.Ok? && !step.value.Rest? {
      EarnedSurvives(g, met, w.current.state, step.value.state);
    }
  }

  /** A commit that loses the race changes nothing; one that wins was computed from the current state. */
  lemma NextEarns(g: Gateway, met: seq<Encounter>, w: World, a: Action)
    requires WorldInv(w) && GatedInv(g, met, w)
    ensures Earned(g, met, Next(w, a).current.state)
  {
    hide StateInv, Evolves, PermitsOk, LogOk, ModelHeld, ToolHeld, Earned, FromGateway, StepKeeps, KeepsFlag,
      BeginAdvance, ResumeEpisode, CancelEpisode, ResumeReconciliation, AfterModel, AfterTool;
    var p := PhaseOf(w, a.runner);
    assert PhaseOk(w.current, p);
    if p.Idle? || p.held != w.current {
    } else {
      var s := w.current.state;
      match a
      case Advance(r, catalog) =>
        BeginAdvanceKeeps(s, catalog);
        BeginAdvanceKeepsFlag(s, catalog);
        SettleEarns(g, met, w, r, BeginAdvance(s, catalog));
      case Resume(r, granted) =>
        if ResumeEpisode(s, granted).Ok? {
          ResumeKeeps(s, granted);
        }
        CommandsKeepFlag(s, granted);
        SettleEarns(g, met, w, r, ResumeEpisode(s, granted));
      case Cancel(r) =>
        CancelKeeps(s);
        CancelKeepsFlag(s);
        SettleEarns(g, met, w, r, CancelEpisode(s));
      case ResumeSuspended(r) =>
        ReconciliationKeeps(s);
        CommandsKeepFlag(s, s.policy.allowance);
        SettleEarns(g, met, w, r, ResumeReconciliation(s));
      case CommitModel(r) =>
        if p.ModelAnswered? {
          AfterModelKeeps(s, p.request, p.modelOutcome);
          AfterModelKeepsFlag(s, p.modelOutcome);
          SettleEarns(g, met, w, r, AfterModel(s, p.modelOutcome));
        }
      case CommitTool(r) =>
        if p.ToolAnswered? && p.index < |s.operations| && AfterTool(s, p.index, p.toolOutcome).Ok? {
          AfterToolEarns(g, met, s, p.index, p.invocation, p.reconciling, p.toolOutcome);
        }
      case _ =>
    }
  }

  lemma {:induction false} RunGated(g: Gateway, met: seq<Encounter>, w: World, actions: seq<Action>)
    requires WorldInv(w) && GatedInv(g, met, w) && Gated(g, met, w, actions)
    ensures WorldInv(Run(w, actions)) && GatedInv(g, met, Run(w, actions))
    decreases |actions|
  {
    hide WorldInv, Next, Earned, AnswersOk, FromGateway;
    if actions != [] {
      NextKeeps(w, actions[0]);
      NextEarns(g, met, w, actions[0]);
      NextKeepsAnswers(g, met, w, actions[0]);
      RunGated(g, met, Next(w, actions[0]), actions[1..]);
    }
  }

  /** Success is earned: over every interleaving of runners, crashes, lost answers and operator
      commands, an episode that reaches `Succeeded` holds an operation that the last enabled gate
      passed. */
  lemma SuccessIsEarned(g: Gateway, met: seq<Encounter>, id: EpisodeId, policy: Policy, input: Digest,
                        actions: seq<Action>)
    requires InitialState(id, policy, input).Ok?
    requires Gated(g, met, Start(InitialState(id, policy, input).value), actions)
    ensures var s := Run(Start(InitialState(id, policy, input).value), actions).current.state;
            s.status.Succeeded? ==> exists j :: 0 <= j < |s.operations| && Certified(g, met, s.operations[j])
  {
    hide StateInv, HoldersOk, PermitsOk, LogOk, Run, Gated, Certified;
    var s := InitialState(id, policy, input).value;
    InitialStateInv(id, policy, input);
    StartInv(s);
    RunGated(g, met, Start(s), actions);
    SuccessIsSatisfied(Run(Start(s), actions).current.state);
  }

  /** With the Correctness Gate enabled, over every interleaving: an episode that reaches `Succeeded`
      holds an operation for a built candidate of this migration, and the runs that the workers reported
      to that operation's call, of the frozen authority and of the manifest's own tree, agree at a
      calibrated tolerance. */
  lemma SuccessMeansAgreement(g: Gateway, met: seq<Encounter>, id: EpisodeId, policy: Policy, input: Digest,
                              actions: seq<Action>)
    requires InitialState(id, policy, input).Ok? && g.correctness
    requires Gated(g, met, Start(InitialState(id, policy, input).value), actions)
    ensures var s := Run(Start(InitialState(id, policy, input).value), actions).current.state;
            s.status.Succeeded? ==>
              exists j, k, e, reference, candidate ::
                && 0 <= j < |s.operations| && s.operations[j].status.Succeeded?
                && 0 <= k < |met| && met[k].invocation == InvocationOf(s.operations[j])
                && Built(g, met[k].env, s.operations[j].call.arguments, e)
                && Reported(g, met[k].env, e, reference, candidate)
                && AgreesWhenCalibrated(g, reference, candidate)
  {
    hide Run, Gated, Built, Reported, AgreesWhenCalibrated, CalibrationFor, CorrectnessReceiptOf;
    SuccessIsEarned(g, met, id, policy, input, actions);
    var s := Run(Start(InitialState(id, policy, input).value), actions).current.state;
    if s.status.Succeeded? {
      var j :| 0 <= j < |s.operations| && Certified(g, met, s.operations[j]);
      var o := s.operations[j];
      var k :| 0 <= k < |met| && met[k].invocation == InvocationOf(o)
        && Passed(g, met[k].env, o.call.arguments, o.receipts);
      assert CorrectnessPassed(g, met[k].env, o.call.arguments, o.receipts);
    }
  }

  lemma SuccessIsSatisfied(s: EpisodeState)
    requires StateInv(s)
    ensures s.status.Succeeded? ==> s.satisfied
  {
  }
}

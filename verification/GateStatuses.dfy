/** What each status of a gate's answer says about the candidate. */
module GateStatuses {
  import opened Outcomes
  import opened EpisodeRecords
  import opened EpisodeReducer
  import opened CandidateGates
  import SourceGate
  import OracleComparison
  import OracleCalibration
  import OracleGate

  /** The Source Gate's answer is success exactly for an admissible tree, and otherwise the candidate's fault. */
  lemma SourceStatusExactly(g: Gateway, env: Surroundings, raw: Bytes)
    requires RequestSourceGate(g, env, raw).Ok?
    ensures var answer, digest := RequestSourceGate(g, env, raw).value, g.codec.sourceArguments(raw);
            && answer.Completed? && digest.Some? && ReadManifest(g, env, digest.value).Ok?
            && var m := ReadManifest(g, env, digest.value).value;
               && Belongs(g, m) && env.sources(m).Ok?
               && answer.status
                  == if SourceGate.Admissible(m.source, env.sources(m).value, g.utf8) then ToolStatus.Succeeded
                     else ToolStatus.CandidateFailed
  {
    hide SourceGate.Findings, SourceGate.NothingBlocks, SourceGate.Admissible;
    var m := ReadManifest(g, env, g.codec.sourceArguments(raw).value).value;
    SourceGate.PassesExactly(m.source, env.sources(m).value, g.utf8);
  }

  /** A build succeeded, the candidate failed it, it took too long or was cancelled, as the worker says;
      everything else, a success without a clean exit included, is nobody's verdict. */
  predicate BuildSays(outcome: BuildOutcome, exitCode: Option<int>, completed: bool, status: ToolStatus) {
    if outcome.Succeeded? && exitCode == Some(0) && completed then status.Succeeded?
    else if outcome.CandidateFailed? then status.CandidateFailed?
    else if outcome.TimedOut? then status.TimedOut?
    else if outcome.Cancelled? then status.Cancelled?
    else status.InfraFailed?
  }

  lemma BuildStatusExactly(g: Gateway, env: Surroundings, raw: Bytes)
    requires Build(g, env, raw).Ok? && Build(g, env, raw).value.Completed?
    ensures var answer, arguments := Build(g, env, raw).value, g.codec.buildArguments(raw);
            && arguments.Some? && ReadManifest(g, env, arguments.value.manifest).Ok?
            && var m := ReadManifest(g, env, arguments.value.manifest).value;
               && env.sources(m).Ok?
               && var receipt := SourceReceiptOf(g, m, arguments.value.manifest, env.sources(m).value);
                  if receipt.passed && env.read(arguments.value.sourceReceipt) == Ok(g.codec.writeSourceReceipt(receipt))
                     && arguments.value.sourceReceipt == OfBytes(g.codec.writeSourceReceipt(receipt))
                  then
                    && env.buildWorker.Ok? && env.buildWorker.value.BuildFinished?
                    && BuildSays(env.buildWorker.value.outcome, env.buildWorker.value.exitCode,
                                 env.buildWorker.value.buildCompleted, answer.status)
                  else answer.status.CandidateFailed? && !answer.satisfies
  {
    hide SourceGate.Findings, SourceGate.NothingBlocks;
  }

  /** The Correctness Gate's answer is success exactly for agreement at a calibrated tolerance, the
      candidate's fault exactly for disagreement at one, and nobody's verdict without one. */
  lemma CorrectnessStatusExactly(g: Gateway, env: Surroundings, raw: Bytes)
    requires Correctness(g, env, raw).Ok? && Correctness(g, env, raw).value.Completed?
    ensures env.runWorkers.Ok? && env.runWorkers.value.RunsFinished?
    ensures var answer, runs := Correctness(g, env, raw).value, env.runWorkers.value;
            var calibrated :=
              OracleGate.CalibratedOn(runs.reference, g.oracle.plan, g.oracle.corpus, g.oracle.battery);
            && (answer.status.Succeeded? <==> AgreesWhenCalibrated(g, runs.reference, runs.candidate))
            && (answer.status.CandidateFailed? <==>
                  calibrated && !AgreesWhenCalibrated(g, runs.reference, runs.candidate))
            && (answer.status.InfraFailed? <==> !calibrated)
            && (answer.satisfies <==> answer.status.Succeeded?)
  {
    hide PrepareCorrectness, OracleGate.CalibrationOf, OracleGate.VerdictOf, OracleGate.Calibrated,
      OracleComparison.Agrees, OracleCalibration.NoiseFloor, OracleCalibration.Derive;
    var e, runs := PrepareCorrectness(g, env, raw).value.experiment, env.runWorkers.value;
    OracleGate.OwnVerdictExactly(IdentityOf(g, e), runs.reference, runs.candidate, g.oracle.plan, g.oracle.corpus,
                                 g.oracle.battery);
  }

  /** A citation that does not hold comes back to the model as a failed call of every tool but the two
      remote gates, and a reading tool never fails the episode for its surroundings, as long as results
      can be stored. */
  lemma ErrorsComeBack(g: Gateway, env: Surroundings, invocation: ToolInvocation)
    requires env.stores && Answered(g, env, invocation).Err?
    ensures var name, error := invocation.call.name, Answered(g, env, invocation).error;
            && (error.Citation? ==> name == REQUEST_ASCEND_BUILD || name == REQUEST_REDUCTION_CORRECTNESS)
            && (name == READ_REFERENCE || name == READ_BUILD_DIAGNOSTICS ==> error.UnexpectedRequest?)
  {
    hide RequestSourceGate, Build, Correctness;
  }

  /** Whatever a gate answers, the manifest that was cited belongs to this task and migration, and names
      its symbol, target and inputs; and the answer was stored. */
  lemma AnswersAreForThisMigration(g: Gateway, env: Surroundings, raw: Bytes, m: Manifest, digest: Digest)
    requires ReadManifest(g, env, digest) == Ok(m)
    requires || (g.codec.sourceArguments(raw) == Some(digest) && RequestSourceGate(g, env, raw).Ok?)
             || (g.codec.buildArguments(raw).Some? && g.codec.buildArguments(raw).value.manifest == digest
                 && Build(g, env, raw).Ok? && Build(g, env, raw).value.Completed?)
             || (g.codec.correctnessArguments(raw).Some? && g.codec.correctnessArguments(raw).value.manifest == digest
                 && Correctness(g, env, raw).Ok? && Correctness(g, env, raw).value.Completed?)
    ensures (m.task, m.migration, m.source.symbol, m.source.target, m.source.inputs)
            == (g.task, g.migration, g.symbol, g.target, g.inputs)
    ensures env.stores
  {
    hide SourceGate.Findings, SourceGate.NothingBlocks, CalibrationFor, VerdictFor;
  }

  /** Which tools a gateway declares, and that exactly its gates may speak for the verified reference. */
  lemma DeclaredExactly(g: Gateway, name: string)
    ensures Describe(g, name).Some? <==>
              || name == "submit_candidate_bundle" || name == "request_source_gate"
              || (g.reference && name == "read_reference")
              || (g.build && (name == "read_build_diagnostics" || name == "request_ascend_build"))
              || (g.correctness && name == "request_reduction_correctness")
    ensures Describe(g, name).Some? ==>
              var gate := name in {"request_source_gate", "request_ascend_build", "request_reduction_correctness"};
              Describe(g, name).value == Descriptor("1", if gate then VerifiedReference else Observed)
  {
  }

  /** A submission that is stored succeeds with its manifest as the one receipt. A reading tool succeeds
      exactly when its instrument does, and otherwise fails readably. Neither completes anything. */
  lemma OtherToolsExactly(g: Gateway, env: Surroundings, invocation: ToolInvocation)
    requires Answered(g, env, invocation).Ok? && Answered(g, env, invocation).value.Completed?
    ensures var name, answer := invocation.call.name, Answered(g, env, invocation).value;
            && (name == SUBMIT_CANDIDATE_BUNDLE && env.submitted.Ok? ==>
                  answer.status.Succeeded? && answer.receipts == [env.submitted.value] && !answer.satisfies)
            && (name == READ_REFERENCE || name == READ_BUILD_DIAGNOSTICS ==>
                  && !answer.satisfies
                  && (answer.status.Succeeded? <==>
                        env.instrument.Ok? && env.instrument.value.Completed? && env.instrument.value.status.Succeeded?)
                  && (answer.status.CandidateFailed? <==> !answer.status.Succeeded?))
  {
    hide RequestSourceGate, Build, Correctness;
  }

  /** A tool that is not enabled is not served. */
  lemma DisabledIsRefused(g: Gateway, env: Surroundings, invocation: ToolInvocation)
    requires Describe(g, invocation.call.name).None? && invocation.call.name != READ_BUILD_DIAGNOSTICS
    ensures Answered(g, env, invocation) == Err(UnexpectedRequest)
  {
    hide RequestSourceGate, Build, Correctness;
  }
}

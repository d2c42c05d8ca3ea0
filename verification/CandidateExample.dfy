/**
 A migration that succeeds: a gateway whose Correctness Gate passes one candidate, and the run of one
 episode, from its creation, that reaches success through it.
 */
module CandidateExample {
  import opened Outcomes
  import opened Texts
  import opened EpisodeRecords
  import opened EpisodeReducer
  import opened EpisodeInvariant
  import opened EpisodeSegments
  import opened EpisodeAnswers
  import opened EpisodeWorld
  import opened EpisodeTheorems
  import opened EpisodeSolo
  import opened EpisodeExamples
  import Examples = EpisodeExamples
  import opened CandidateGates
  import SourceGate
  import OracleComparison
  import OracleCalibration
  import OracleAdmission
  import OracleGate

  // ----- The oracle

  const KNOWN: Digest := Issued(7)

  const PLAN: OracleCalibration.Plan := OracleCalibration.Plan(50, 2)

  const POLICY: OracleComparison.Policy := OracleComparison.Policy(1_500_000_000, 150_000_000, 2)

  ghost function Authority(): OracleComparison.Run {
    OracleAdmission.Repeating(KNOWN)
  }

  /** The candidate returns exactly what the authority returns. */
  ghost function Port(): OracleComparison.Run {
    Authority().(role := OracleComparison.AscendCandidate, candidate := Some("c"))
  }

  /** Every defect is one that the runner admits. */
  function Skipped(run: OracleComparison.Run, m: OracleGate.Mutant, p: OracleComparison.Policy)
    : Option<OracleComparison.Run>
  {
    Some(run.(invoked := false))
  }

  ghost function TheOracle(): Oracle {
    Oracle(map[], OracleAdmission.RepeatedCorpus(KNOWN), PLAN, Skipped)
  }

  lemma PortAgrees()
    ensures OracleComparison.Agrees(Authority(), Port(), POLICY, OracleAdmission.RepeatedCorpus(KNOWN))
  {
    hide OracleComparison.ByKey, OracleComparison.CasesByKey, OracleComparison.RepetitionsOf,
      OracleComparison.SuccessfulOutputs;
    var obs, cases := Authority().observations, OracleAdmission.RepeatedCorpus(KNOWN).cases;
    OracleAdmission.RepeatingCovers(KNOWN);
    OracleAdmission.RepeatedTwice(KNOWN);
    SamePolicyRepeats();
    forall key | key in OracleComparison.ByKey(obs)
      ensures OracleComparison.Matches(OracleComparison.ByKey(obs)[key], OracleComparison.ByKey(obs)[key],
                                       OracleComparison.CasesByKey(cases)[key], POLICY)
    {
      var i := OracleComparison.ByKeyFrom(obs, key);
    }
    forall c ensures !OracleComparison.Disagree(OracleComparison.SuccessfulOutputs(obs, c), POLICY) {
      PortRepeats(c);
    }
  }

  lemma SamePolicyRepeats()
    requires OracleComparison.RepetitionsOk(Authority(), OracleComparison.Policy(0, 0, 2))
    ensures OracleComparison.RepetitionsOk(Authority(), POLICY)
  {
  }

  lemma PortRepeats(c: string)
    ensures !OracleComparison.Disagree(OracleComparison.SuccessfulOutputs(Authority().observations, c), POLICY)
  {
    var obs := Authority().observations;
    var one := obs[..1];
    assert one[..0] == [] && one[0] == obs[0];
    assert OracleComparison.SuccessfulOutputs(one, c) == if c == "sum" then [OracleComparison.Finite(10.0)] else [];
    assert OracleComparison.SuccessfulOutputs(obs, c)
           == if c == "sum" then [OracleComparison.Finite(10.0), OracleComparison.Finite(11.0)] else [];
  }

  lemma AuthorityIsCalibrated()
    ensures OracleCalibration.NoiseFloor(Authority(), OracleAdmission.RepeatedCorpus(KNOWN)).Ok?
    ensures OracleCalibration.Derive(
              OracleCalibration.NoiseFloor(Authority(), OracleAdmission.RepeatedCorpus(KNOWN)).value, PLAN) == Ok(POLICY)
    ensures OracleGate.CalibratedOn(Authority(), PLAN, OracleAdmission.RepeatedCorpus(KNOWN), Skipped)
  {
    hide OracleCalibration.NoiseFloor, OracleCalibration.Derive, OracleCalibration.ReorderedAuthority,
      OracleCalibration.Covers, OracleCalibration.ValidRun;
    var corpus := OracleAdmission.RepeatedCorpus(KNOWN);
    OracleAdmission.RepeatingIsAdmitted(KNOWN);
    OracleAdmission.TwoRepetitionsAdmitted(Authority(), corpus, PLAN, POLICY);
    forall m | m in OracleGate.MUTANTS ensures OracleGate.Detects(Authority(), corpus, POLICY, Skipped, m) {
    }
  }

  // ----- The gateway

  const CITED: CorrectnessArguments := CorrectnessArguments("c", Issued(1), Issued(2), OfBytes([]))

  const BUILT: BuildReceipt :=
    BuildReceipt("task", "c", Issued(1), Issued(2), true, BuildOutcome.Succeeded, Some(0))

  const DECLARED: Manifest := Manifest("c", "task", Issued(3), SourceGate.SourceManifest([], [], "symbol", "target"))

  ghost function TheCodec(): Codec {
    Codec(
      _ => None, _ => None, _ => Some(CITED), _ => Some(DECLARED), _ => Some(BUILT), _ => [], _ => [], _ => [], _ => [],
      _ => [], _ => [], _ => KNOWN, (_, _) => Some(KNOWN))
  }

  ghost function TheGateway(): Gateway {
    Gateway("task", Issued(3), "symbol", "target", [], TheCodec(), _ => None, TheOracle(), false, false, true)
  }

  /** The workers report the authority's run and the candidate's. */
  ghost function TheWorkers(): Surroundings {
    Surroundings(_ => Ok([]), true, Err(Adapter), Err(Adapter), _ => Ok(map[]), Err(Adapter),
                 Ok(RunsFinished(Authority(), Port())))
  }

  const PASSED: ToolOutcome := Completed(ToolStatus.Succeeded, OfBytes([]), [OfBytes([]), OfBytes([])], true)

  lemma CorrectnessAnswers(raw: Bytes)
    ensures Correctness(TheGateway(), TheWorkers(), raw) == Ok(PASSED)
  {
    hide OracleGate.CalibrationOf, OracleGate.VerdictOf, OracleGate.CalibratedOn, OracleComparison.Agrees,
      OracleCalibration.NoiseFloor, OracleCalibration.Derive;
    var g, corpus := TheGateway(), OracleAdmission.RepeatedCorpus(KNOWN);
    var e := Experiment("task", "c", Issued(3), Issued(1), Issued(2), OfBytes([]), KNOWN, PLAN);
    assert PrepareCorrectness(g, TheWorkers(), raw) == Ok(Assignment(e, KNOWN, KNOWN));
    AuthorityIsCalibrated();
    PortAgrees();
    PortIsJudged(IdentityOf(g, e));
    OracleGate.OwnVerdictExactly(IdentityOf(g, e), Authority(), Port(), PLAN, corpus, Skipped);
  }

  lemma PortIsJudged(e: OracleGate.Experiment)
    requires e == OracleGate.Experiment(KNOWN, "c", KNOWN, PLAN)
    requires OracleCalibration.NoiseFloor(Authority(), OracleAdmission.RepeatedCorpus(KNOWN)).Ok?
    requires OracleCalibration.Derive(
               OracleCalibration.NoiseFloor(Authority(), OracleAdmission.RepeatedCorpus(KNOWN)).value, PLAN) == Ok(POLICY)
    ensures OracleGate.CalibrationOf(Authority(), PLAN, OracleAdmission.RepeatedCorpus(KNOWN), Skipped).Ok?
    ensures var k := OracleGate.CalibrationOf(Authority(), PLAN, OracleAdmission.RepeatedCorpus(KNOWN), Skipped).value;
            OracleGate.VerdictOf(e, Authority(), Port(), PLAN, OracleAdmission.RepeatedCorpus(KNOWN), k).Ok?
  {
    hide OracleComparison.Agrees, OracleCalibration.NoiseFloor, OracleCalibration.Derive, OracleGate.Undetected,
      OracleCalibration.ReorderedAuthority;
  }

  lemma GatewayAnswers(invocation: ToolInvocation)
    requires invocation.call.name == REQUEST_REDUCTION_CORRECTNESS
    ensures Answered(TheGateway(), TheWorkers(), invocation) == Ok(PASSED)
  {
    hide Correctness, Build;
    CorrectnessAnswers(invocation.call.arguments);
  }

  // ----- The episode

  const JUDGE: ToolCall := ToolCall("1", REQUEST_REDUCTION_CORRECTNESS, [])

  const GATES: Catalog := Catalog(map[REQUEST_REDUCTION_CORRECTNESS := Descriptor("1", VerifiedReference)], map[])

  function Planned(): Operation {
    PlannedOperation(Asked([JUDGE]), 0, INPUT, GATES)
  }

  function Working(status: ToolStatus): EpisodeState {
    Recorded(4, [JUDGE]).(status := EpisodeStatus.ToolWorkPending, operations := [Planned().(status := status)])
  }

  /** The gate has passed. */
  function Satisfied(): EpisodeState {
    var o := Planned().(status := ToolStatus.Succeeded, result := Some(OfBytes([])), receipts := PASSED.receipts);
    Working(ToolStatus.Dispatching).(operations := [o], satisfied := true)
  }

  function Informed(): EpisodeState {
    Satisfied().(nextInput := ContinuationInput(CONTINUATION, [OfBytes([])]), status := EpisodeStatus.ReadyForModel)
  }

  /** The second turn, without calls. */
  function Stopped(): EpisodeState {
    var s := Informed();
    var a := NewAttempt(s).(status := AttemptStatus.Decoded, response := Some(EXCHANGE),
                            continuation := Some(CONTINUATION));
    s.(attempts := s.attempts + [a], turns := s.turns + [Turn(2, 2, CONTINUATION, ["said"], [])],
       status := EpisodeStatus.TurnRecorded)
  }

  lemma ToolSteps()
    ensures BeginAdvance(Recorded(4, [JUDGE]), GATES)
            == Ok(Commit(Working(ToolStatus.Requested), Progressed(EpisodeStatus.ToolWorkPending)))
    ensures BeginAdvance(Working(ToolStatus.Requested), GATES)
            == Ok(AskTool(Working(ToolStatus.Dispatching), 0, InvocationOf(Planned()), false))
  {
    hide BeginAdvance, Planned, Recorded;
    JudgeIsPlanned();
    RequestedDispatches(Working(ToolStatus.Requested), GATES);
    assert [Planned()][0 := Planned().(status := ToolStatus.Dispatching)] == [Planned().(status := ToolStatus.Dispatching)];
  }

  lemma JudgeIsPlanned()
    ensures Planned().status.Requested? && Planned().input == INPUT && Recorded(4, [JUDGE]).nextInput == INPUT
    ensures Planned().(status := ToolStatus.Requested) == Planned()
    ensures BeginAdvance(Recorded(4, [JUDGE]), GATES)
            == Ok(Commit(Working(ToolStatus.Requested), Progressed(EpisodeStatus.ToolWorkPending)))
  {
    hide Blank;
    JudgeIsRecordable();
    assert [] + PlannedOperations(Asked([JUDGE]), INPUT, GATES) == [Planned()];
  }

  lemma JudgeIsRecordable()
    ensures Recordable(Asked([JUDGE]), GATES)
  {
    LabelsAreFilled();
    assert REQUEST_REDUCTION_CORRECTNESS[0] == 'r';
  }

  lemma GateIsRecorded()
    ensures AfterTool(Working(ToolStatus.Dispatching), 0, PASSED)
            == Ok(Commit(Satisfied(), Progressed(EpisodeStatus.ToolWorkPending)))
  {
    var o, p := Working(ToolStatus.Dispatching).operations[0], Satisfied().operations[0];
    assert o.authority.VerifiedReference? && o.status.Dispatching?;
    assert FinishOperation(o, ToolStatus.Succeeded, OfBytes([]), PASSED.receipts) == Ok(p);
    assert [o][0 := p] == [p];
  }

  lemma LastSteps()
    ensures BeginAdvance(Stopped(), GATES)
            == Ok(Commit(Stopped().(status := EpisodeStatus.StopReview), Progressed(EpisodeStatus.StopReview)))
    ensures BeginAdvance(Stopped().(status := EpisodeStatus.StopReview), GATES)
            == Ok(Commit(Stopped().(status := EpisodeStatus.Succeeded), Terminal(EpisodeStatus.Succeeded)))
  {
    hide Informed;
    StoppedFacts();
  }

  lemma StoppedFacts()
    ensures var s := Stopped();
            && s.status.TurnRecorded? && s.satisfied && |s.turns| == 2 && s.turns[1].calls == []
  {
  }

  lemma PlannedFirst()
    ensures Planned().turn == 1
  {
  }

  lemma GateIsReported()
    ensures BeginAdvance(Satisfied(), GATES) == Ok(Commit(Informed(), Progressed(EpisodeStatus.ReadyForModel)))
  {
    hide Planned;
    PlannedFirst();
    var ops := Satisfied().operations;
    assert ops[..0] == [] && ResultsOf(ops[..0], 1) == [];
    assert ResultsOf(ops, 1) == [OfBytes([])];
    assert FirstUnfinished(ops) == 1;
  }

  lemma SecondTurn()
    ensures BeginAdvance(Informed(), TOOLS)
            == Ok(Commit(Preparing(Informed()), Progressed(EpisodeStatus.ModelAttemptPending)))
    ensures BeginAdvance(Preparing(Informed()), TOOLS)
            == Ok(AskModel(Examples.Dispatching(Informed()), ModelRequest(2, 2, Informed().nextInput)))
    ensures AfterModel(Examples.Dispatching(Informed()), Examples.Answer([]))
            == Ok(Commit(Stopped(), Progressed(EpisodeStatus.TurnRecorded)))
  {
    var s := Informed();
    var prepared, dispatching := Preparing(s), Examples.Dispatching(s);
    assert |s.attempts| == 1 && |s.turns| == 1;
    assert prepared.attempts[1 := dispatching.attempts[1]] == dispatching.attempts;
    assert dispatching.attempts[1 := Stopped().attempts[1]] == Stopped().attempts;
  }

  // ----- The run

  lemma {:induction false} QuietIsGated(g: Gateway, met: seq<Encounter>, w: World, actions: seq<Action>)
    requires QuietActions(actions)
    ensures Gated(g, met, w, actions)
    decreases |actions|
  {
    hide Next, FromGateway;
    if actions != [] {
      QuietIsGated(g, met, Next(w, actions[0]), actions[1..]);
    }
  }

  lemma {:induction false} GatedAppends(g: Gateway, met: seq<Encounter>, w: World, first: seq<Action>, second: seq<Action>)
    requires Gated(g, met, w, first) && Gated(g, met, Run(w, first), second)
    ensures Gated(g, met, w, first + second)
    decreases |first|
  {
    hide Next, FromGateway;
    if first == [] {
      assert first + second == second;
    } else {
      GatedAppends(g, met, Next(w, first[0]), first[1..], second);
      assert (first + second)[1..] == first[1..] + second;
    }
  }

  /** The gateway is asked once, about this operation. */
  ghost function Met(): seq<Encounter> {
    [Encounter(InvocationOf(Planned()), TheWorkers())]
  }

  const JUDGING: seq<Action> :=
    [Load(SOLO), Action.Advance(SOLO, GATES), CallTool(SOLO, PASSED), CommitTool(SOLO)]

  lemma JudgingIsGated(w: World)
    requires PhaseOf(w, SOLO).Idle? && w.current.state == Working(ToolStatus.Requested)
    ensures Gated(TheGateway(), Met(), w, JUDGING)
  {
    hide BeginAdvance, AfterTool, Answered, Working, Planned, Satisfied, FromGateway;
    ToolSteps();
    PassedComesFromGateway();
    var g, w1 := TheGateway(), Next(w, Load(SOLO));
    var w2 := Next(w1, Action.Advance(SOLO, GATES));
    assert PhaseOf(w2, SOLO).ToolReady? && PhaseOf(w2, SOLO).invocation == InvocationOf(Planned());
    var w3 := Next(w2, CallTool(SOLO, PASSED));
    assert JUDGING[1..][1..][1..] == [CommitTool(SOLO)] && JUDGING[1..][1..] == [CallTool(SOLO, PASSED), CommitTool(SOLO)];
    QuietIsGated(g, Met(), w3, [CommitTool(SOLO)]);
    assert Gated(g, Met(), w2, [CallTool(SOLO, PASSED), CommitTool(SOLO)]);
    assert Gated(g, Met(), w1, JUDGING[1..]);
  }

  lemma PassedComesFromGateway()
    ensures FromGateway(TheGateway(), Met(), InvocationOf(Planned()), PASSED)
  {
    hide Answered;
    GatewayAnswers(InvocationOf(Planned()));
    assert Met()[0].invocation == InvocationOf(Planned());
  }

  /** From the satisfied gate to the end. */
  lemma Ends(v: Versioned) returns (sessions: seq<Session>)
    requires v.state == Satisfied()
    ensures Chained(v, sessions) && Final(v, sessions).state == Stopped().(status := EpisodeStatus.Succeeded)
    ensures Quiet(sessions)
  {
    hide Happens, Chained, Final, BeginAdvance, AfterModel, Satisfied, Informed, Stopped, Preparing, Examples.Dispatching;
    GateIsReported();
    LastSteps();
    SecondTurn();
    var a := Committed(v, Action.Advance(SOLO, GATES), Informed(), Progressed(EpisodeStatus.ReadyForModel));
    var b := Committed(a.after, Action.Advance(SOLO, TOOLS), Preparing(Informed()),
                       Progressed(EpisodeStatus.ModelAttemptPending));
    var c := Modelled(b.after, Examples.Dispatching(Informed()), ModelRequest(2, 2, Informed().nextInput),
                      Examples.Answer([]), Stopped(), Progressed(EpisodeStatus.TurnRecorded));
    var d := Committed(c.after, Action.Advance(SOLO, GATES), Stopped().(status := EpisodeStatus.StopReview),
                       Progressed(EpisodeStatus.StopReview));
    var e := Committed(d.after, Action.Advance(SOLO, GATES), Stopped().(status := EpisodeStatus.Succeeded),
                       Terminal(EpisodeStatus.Succeeded));
    NoSessions(v);
    ChainGrows(v, [], a);
    ChainGrows(v, [] + [a], b);
    ChainGrows(v, [] + [a] + [b], c);
    ChainGrows(v, [] + [a] + [b] + [c], d);
    ChainGrows(v, [] + [a] + [b] + [c] + [d], e);
    sessions := [] + [a] + [b] + [c] + [d] + [e];
  }

  /** A run from creation, gated by that gateway, that succeeds. */
  lemma MigrationSucceeds() returns (actions: seq<Action>)
    ensures InitialState("e", Small(4), INPUT).Ok? && TheGateway().correctness
    ensures Gated(TheGateway(), Met(), Start(InitialState("e", Small(4), INPUT).value), actions)
    ensures Run(Start(InitialState("e", Small(4), INPUT).value), actions).current.state.status.Succeeded?
  {
    hide Run, Happens, Chained, Final, BeginAdvance, AfterTool, Gated, WorldInv, Working, Satisfied, Stopped, Recorded;
    FreshIsInitial(4);
    var g, start, v := TheGateway(), Start(Fresh(4)), Versioned(0, Fresh(4));
    ToolSteps();
    GateIsRecorded();
    var recorded := TurnIsRecorded(4, [JUDGE]);
    var planned := Committed(Final(v, recorded), Action.Advance(SOLO, GATES), Working(ToolStatus.Requested),
                             Progressed(EpisodeStatus.ToolWorkPending));
    ChainGrows(v, recorded, planned);
    var before := recorded + [planned];
    ChainRuns(4, before);
    var w := Run(start, AllActions(before));
    QuietThroughout(before);
    QuietIsGated(g, Met(), start, AllActions(before));
    JudgingIsGated(w);
    var judged := ToolJudged(w.current);
    GatedAppends(g, Met(), start, AllActions(before), JUDGING);
    RunAppend(start, AllActions(before), JUDGING);
    SoloEmbeds(w, JUDGING);
    var x := Run(w, JUDGING);
    var rest := Ends(x.current);
    QuietThroughout(rest);
    QuietIsGated(g, Met(), x, AllActions(rest));
    SessionsCompose(x, rest);
    actions := AllActions(before) + JUDGING + AllActions(rest);
    GatedAppends(g, Met(), start, AllActions(before) + JUDGING, AllActions(rest));
    RunAppend(start, AllActions(before) + JUDGING, AllActions(rest));
  }

  lemma ToolJudged(v: Versioned) returns (after: Versioned)
    requires v.state == Working(ToolStatus.Requested)
    ensures var w := Run(Solo(v), JUDGING);
            w.current == after && after.state == Satisfied() && PhaseOf(w, SOLO).Idle?
    ensures AllSolo(JUDGING)
  {
    hide Run, BeginAdvance, AfterTool, Working, Satisfied;
    ToolSteps();
    GateIsRecorded();
    OneOperation();
    ToolRun(v, GATES, PASSED, CommitTool(SOLO));
    after := Versioned(v.revision + 2, Satisfied());
  }

  lemma OneOperation()
    ensures |Working(ToolStatus.Dispatching).operations| == 1
  {
  }
}

/**
 The runtime as it executes: the compare-and-swap repository, the scripted gateways, the fault
 injector, and the runner that drives them. Each method is proved against the reducer's segments;
 one `Advance` is proved to be a run of the interleaving model, so everything proved about runs
 holds of it.
 */
module EpisodeRuntime {
  import opened Outcomes
  import opened Texts
  import opened EpisodeRecords
  import Reducer = EpisodeReducer
  import opened EpisodeReducer
  import opened EpisodeWorld
  import opened EpisodeSolo
  import opened EpisodeSegments

  const U64_MAX: nat := 0xFFFF_FFFF_FFFF_FFFF

  // ----- Repository

  /** Deterministic reference adapter: a map of versioned clones. */
  class InMemoryEpisodeRepository {
    var episodes: map<EpisodeId, Versioned>

    constructor ()
      ensures episodes == map[]
    {
      episodes := map[];
    }

    /** Creates an episode at revision zero, unless the identity exists. */
    method Create(state: EpisodeState) returns (r: Result<(), RuntimeError>)
      modifies this
      ensures r == if state.id in old(episodes) then Err(AlreadyExists) else Ok(())
      ensures episodes == if r.Ok? then old(episodes)[state.id := Versioned(0, state)] else old(episodes)
    {
      if state.id in episodes {
        return Err(AlreadyExists);
      }
      episodes := episodes[state.id := Versioned(0, state)];
      return Ok(());
    }

    method LoadEpisode(id: EpisodeId) returns (r: Result<Versioned, RuntimeError>)
      ensures r == if id in episodes then Ok(episodes[id]) else Err(NotFound)
    {
      if id !in episodes {
        return Err(NotFound);
      }
      return Ok(episodes[id]);
    }

    /** Replaces the state only when `expected` is the current revision. */
    method SaveEpisode(expected: nat, state: EpisodeState) returns (r: Result<nat, RuntimeError>)
      modifies this
      ensures r.Ok? <==>
                state.id in old(episodes) && old(episodes)[state.id].revision == expected && expected < U64_MAX
      ensures r.Ok? ==> r.value == expected + 1
      ensures r.Err? && state.id in old(episodes) && old(episodes)[state.id].revision == expected ==>
                r.error == RevisionExhausted
      ensures episodes == if r.Ok? then old(episodes)[state.id := Versioned(expected + 1, state)] else old(episodes)
    {
      if state.id !in episodes {
        return Err(NotFound);
      }
      var current := episodes[state.id];
      if current.revision != expected {
        return Err(RevisionConflict(expected, current.revision));
      }
      if expected >= U64_MAX {
        return Err(RevisionExhausted);
      }
      episodes := episodes[state.id := Versioned(expected + 1, state)];
      return Ok(expected + 1);
    }
  }

  // ----- Gateways

  datatype ScriptedModelStep = ScriptedModelStep(turnIndex: nat, input: Digest, outcome: ModelOutcome)

  /** Answers from a script; `log` records every request that reached it. */
  class ScriptedModelGateway {
    var steps: seq<ScriptedModelStep>
    ghost var log: seq<Call>

    constructor (script: seq<ScriptedModelStep>)
      ensures steps == script && log == []
    {
      steps := script;
      log := [];
    }

    method InvokeModel(request: ModelRequest) returns (r: Result<ModelOutcome, RuntimeError>)
      modifies this
      ensures log == old(log) + [Invoke(request)]
      ensures steps == if old(steps) == [] then [] else old(steps)[1..]
      ensures r.Err? ==> r.error == ModelGatewayFailed
      ensures r.Ok? <==>
                && old(steps) != []
                && old(steps)[0].turnIndex == request.turnIndex && old(steps)[0].input == request.input
                && (old(steps)[0].outcome.TurnAnswer? ==>
                      ValidTurn(old(steps)[0].outcome.narrative, old(steps)[0].outcome.calls))
      ensures r.Ok? ==> r.value == old(steps)[0].outcome
    {
      log := log + [Invoke(request)];
      if steps == [] {
        return Err(ModelGatewayFailed);
      }
      var step := steps[0];
      steps := steps[1..];
      if step.turnIndex != request.turnIndex || step.input != request.input {
        return Err(ModelGatewayFailed);
      }
      if step.outcome.TurnAnswer? && !ValidTurn(step.outcome.narrative, step.outcome.calls) {
        return Err(ModelGatewayFailed);
      }
      return Ok(step.outcome);
    }
  }

  datatype ScriptedToolStep = ScriptedToolStep(reconciles: bool, toolName: string, outcome: ToolOutcome)

  /** Declares its tools, answers from a script, and remembers which operations it served. */
  class ScriptedToolGateway {
    const catalog: Catalog
    var steps: seq<ScriptedToolStep>
    var invocations: seq<OperationId>
    ghost var log: seq<Call>

    constructor (declared: Catalog, script: seq<ScriptedToolStep>)
      ensures catalog == declared && steps == script && invocations == [] && log == []
    {
      catalog := declared;
      steps := script;
      invocations := [];
      log := [];
    }

    method InvokeTool(reconciling: bool, invocation: ToolInvocation)
      returns (r: Result<ToolOutcome, RuntimeError>)
      modifies this
      ensures log == old(log) + [if reconciling then Reconcile(invocation) else Execute(invocation)]
      ensures steps == if old(steps) == [] then [] else old(steps)[1..]
      ensures r.Err? ==> r.error == ToolGatewayFailed
      ensures r.Ok? <==>
                && old(steps) != []
                && old(steps)[0].reconciles == reconciling && old(steps)[0].toolName == invocation.call.name
      ensures r.Ok? ==> r.value == old(steps)[0].outcome
      ensures invocations == if r.Ok? then old(invocations) + [invocation.id] else old(invocations)
    {
      log := log + [if reconciling then Reconcile(invocation) else Execute(invocation)];
      if steps == [] {
        return Err(ToolGatewayFailed);
      }
      var step := steps[0];
      steps := steps[1..];
      if step.reconciles != reconciling || step.toolName != invocation.call.name {
        return Err(ToolGatewayFailed);
      }
      invocations := invocations + [invocation.id];
      return Ok(step.outcome);
    }
  }

  /** Crashes once, at the chosen point. */
  class OneShotFault {
    var point: Option<FaultPoint>

    constructor (at: Option<FaultPoint>)
      ensures point == at
    {
      point := at;
    }

    method ShouldCrash(at: FaultPoint) returns (crash: bool)
      modifies this
      ensures crash == (old(point) == Some(at))
      ensures point == if crash then None else old(point)
    {
      crash := point == Some(at);
      if crash {
        point := None;
      }
    }
  }

  // ----- What a commit does to the repository

  /** The loaded clone is the stored one: this process borrows the repository exclusively. */
  ghost predicate Fresh(episodes: map<EpisodeId, Versioned>, v: Versioned) {
    v.state.id in episodes && episodes[v.state.id] == v
  }

  /** A segment without external calls is saved whole, or nothing is. */
  ghost predicate Commits(before: map<EpisodeId, Versioned>, after: map<EpisodeId, Versioned>,
                          v: Versioned, step: Fallible<Step>, r: Fallible<Report>) {
    if step.Err? then after == before && r == Err(step.error)
    else if step.value.Rest? then after == before && r == Ok(step.value.report)
    else
      && step.value.Commit?
      && (if v.revision < U64_MAX
          then after == before[v.state.id := Versioned(v.revision + 1, step.value.state)]
               && r == Ok(step.value.committedReport)
          else after == before && r == Err(RevisionExhausted))
  }

  // ----- One runner alone, as a run of the interleaving model

  /** What the repository and the gateways saw is exactly this run, by this runner alone. */
  ghost predicate Refines(before: map<EpisodeId, Versioned>, after: map<EpisodeId, Versioned>,
                          v: Versioned, actions: seq<Action>, calls: seq<Call>) {
    && v.state.id in after
    && after == before[v.state.id := after[v.state.id]]
    && Happens(v, Session(actions, calls, after[v.state.id]))
  }

  /** The run of one `advance`: no operator command, and at most one step of the reducer. */
  ghost predicate Drives(actions: seq<Action>, catalog: Catalog) {
    && (forall i :: 0 <= i < |actions| ==>
          && !actions[i].Resume? && !actions[i].Cancel? && !actions[i].ResumeSuspended?
          && (actions[i].Advance? ==> actions[i].catalog == catalog))
    && (forall i, j :: 0 <= i < j < |actions| ==> !actions[i].Advance? || !actions[j].Advance?)
  }

  /** The run of one operator command. A repository that has no revision left refuses every save. */
  function CommandActions(v: Versioned, a: Action): seq<Action> {
    if v.revision < U64_MAX then [Load(SOLO), a] else [Crash(SOLO)]
  }

  ghost predicate Identified(episodes: map<EpisodeId, Versioned>) {
    forall id :: id in episodes ==> episodes[id].state.id == id
  }

  /** The report that one `advance` owes for its run. */
  ghost function ReportOf(s: EpisodeState, actions: seq<Action>): Option<Report> {
    if |actions| < 2 || !actions[1].Advance? || BeginAdvance(s, actions[1].catalog).Err? then None
    else
      var step := BeginAdvance(s, actions[1].catalog).value;
      match step
      case Rest(report) => Some(report)
      case Commit(_, report) => Some(report)
      case AskModel(t, _) =>
        if |actions| == 4 && actions[2].CallModel? && actions[3].CommitModel?
        then Owed(AfterModel(t, actions[2].modelOutcome)) else None
      case AskTool(t, index, _, _) =>
        if |actions| == 4 && actions[2].CallTool? && actions[3].CommitTool? && index < |t.operations|
        then Owed(AfterTool(t, index, actions[2].toolOutcome)) else None
  }

  function Owed(step: Fallible<Step>): Option<Report> {
    if step.Ok? && step.value.Commit? then Some(step.value.committedReport) else None
  }

  /** What stands in the way of the answer that was given. */
  ghost function AnswerError(s: EpisodeState, actions: seq<Action>): Option<RuntimeError> {
    if |actions| != 4 || !actions[1].Advance? || BeginAdvance(s, actions[1].catalog).Err? then None
    else
      match BeginAdvance(s, actions[1].catalog).value
      case AskModel(t, _) => if actions[2].CallModel? then ErrorOf(AfterModel(t, actions[2].modelOutcome)) else None
      case AskTool(t, index, _, _) =>
        if actions[2].CallTool? && index < |t.operations| then ErrorOf(AfterTool(t, index, actions[2].toolOutcome)) else None
      case _ => None
  }

  function ErrorOf(step: Fallible<Step>): Option<RuntimeError> {
    if step.Err? then Some(step.error) else None
  }

  /** An `advance` fails only if the crash was asked for, the gateway that it called failed, no revision is
      left, or the reducer refuses this state or this answer. */
  ghost predicate Excused(error: RuntimeError, v: Versioned, catalog: Catalog, actions: seq<Action>,
                          fault: Option<FaultPoint>, called: bool)
  {
    || (error.InjectedCrash? && fault == Some(error.point))
    || ((error.ModelGatewayFailed? || error.ToolGatewayFailed?) && called)
    || (error.RevisionExhausted? && v.revision + 1 >= U64_MAX)
    || BeginAdvance(v.state, catalog) == Err(error)
    || AnswerError(v.state, actions) == Some(error)
  }

  /** It reports what its run owes, or is excused. */
  ghost predicate Tells(r: Fallible<Report>, v: Versioned, catalog: Catalog, actions: seq<Action>,
                        fault: Option<FaultPoint>, called: bool)
  {
    && (r.Ok? ==> ReportOf(v.state, actions) == Some(r.value))
    && (r.Err? ==> Excused(r.error, v, catalog, actions, fault, called))
  }

  /** The answers that were recorded are the ones that the gateways gave. */
  ghost predicate HearsModel(actions: seq<Action>, script: seq<ScriptedModelStep>) {
    |actions| == 4 && actions[3].CommitModel? ==>
      script != [] && actions[2].CallModel? && actions[2].modelOutcome == script[0].outcome
  }

  ghost predicate HearsTool(actions: seq<Action>, script: seq<ScriptedToolStep>) {
    |actions| == 4 && actions[3].CommitTool? ==>
      script != [] && actions[2].CallTool? && actions[2].toolOutcome == script[0].outcome
  }

  /** A report names the status that is stored when it is returned. */
  predicate Names(report: Report, status: EpisodeStatus) {
    match report
    case Progressed(s) => s == status
    case ProgressedAfter(s, _) => s == status
    case Terminal(s) => s == status && s.IsTerminal()
    case SuspendedReport => status.Suspended? || status.SuspensionRequested?
  }

  /** A runner that only loads and crashes leaves everything as it was. */
  lemma IdleRun(before: map<EpisodeId, Versioned>, v: Versioned)
    requires Fresh(before, v)
    ensures Refines(before, before, v, [Crash(SOLO)], [])
    ensures forall catalog: Catalog :: Drives([Crash(SOLO)], catalog)
  {
    RunOne(Solo(v), Crash(SOLO));
  }

  /** A call that makes no external call. */
  lemma CommitRun(before: map<EpisodeId, Versioned>, after: map<EpisodeId, Versioned>, v: Versioned,
                  a: Action, r: Fallible<Report>)
    requires Fresh(before, v) && a.runner == SOLO && StepOf(v.state, a).Some?
    requires Commits(before, after, v, StepOf(v.state, a).value, r)
    requires StepKeepsIdentity(v.state, StepOf(v.state, a).value)
    ensures Refines(before, after, v, CommandActions(v, a), [])
  {
    hide StepOf, Run;
    if v.revision < U64_MAX {
      CommandRun(v, a);
    } else {
      IdleRun(before, v);
    }
  }

  /** A committed dispatch, and a crash before the call. */
  lemma DispatchRefines(before: map<EpisodeId, Versioned>, v: Versioned, catalog: Catalog, step: Step)
    requires BeginAdvance(v.state, catalog) == Ok(step) && (step.AskModel? || step.AskTool?)
    ensures var after := before[v.state.id := Versioned(v.revision + 1, step.state)];
            var actions := [Load(SOLO), Action.Advance(SOLO, catalog), Crash(SOLO)];
            Refines(before, after, v, actions, []) && Drives(actions, catalog)
  {
    hide Run, BeginAdvance;
    DispatchRun(v, catalog);
  }

  /** What happened to the episode in between does not matter. */
  lemma RefinesFrom(before: map<EpisodeId, Versioned>, during: map<EpisodeId, Versioned>,
                    after: map<EpisodeId, Versioned>, v: Versioned, actions: seq<Action>, calls: seq<Call>)
    requires v.state.id in during && during == before[v.state.id := during[v.state.id]]
    requires Refines(during, after, v, actions, calls)
    ensures Refines(before, after, v, actions, calls) && v.state.id in after
  {
    hide Happens;
    assert after == before[v.state.id := after[v.state.id]];
  }

  /** A model call, followed by a crash or by the commit of its answer. */
  lemma ModelCallRefines(before: map<EpisodeId, Versioned>, after: map<EpisodeId, Versioned>, v: Versioned,
                         catalog: Catalog, t: EpisodeState, request: ModelRequest, outcome: ModelOutcome, last: Action)
    requires BeginAdvance(v.state, catalog) == Ok(AskModel(t, request))
    requires last == Crash(SOLO) || last == CommitModel(SOLO)
    requires AfterModel(t, outcome).Ok? ==> AfterModel(t, outcome).value.Commit?
    requires v.state.id in after && after == before[v.state.id := after[v.state.id]]
    requires after[v.state.id] == if last.CommitModel? && AfterModel(t, outcome).Ok?
                                  then Versioned(v.revision + 2, AfterModel(t, outcome).value.state)
                                  else Versioned(v.revision + 1, t)
    ensures var actions := [Load(SOLO), Action.Advance(SOLO, catalog), CallModel(SOLO, outcome), last];
            Refines(before, after, v, actions, [Invoke(request)]) && Drives(actions, catalog)
  {
    hide Run, BeginAdvance, AfterModel;
    ModelRun(v, catalog, outcome, last);
  }

  /** And a tool call. */
  lemma ToolCallRefines(before: map<EpisodeId, Versioned>, after: map<EpisodeId, Versioned>, v: Versioned,
                        catalog: Catalog, ask: Step, outcome: ToolOutcome, last: Action)
    requires ask.AskTool? && BeginAdvance(v.state, catalog) == Ok(ask) && ask.index < |ask.state.operations|
    requires last == Crash(SOLO) || last == CommitTool(SOLO)
    requires AfterTool(ask.state, ask.index, outcome).Ok? ==> AfterTool(ask.state, ask.index, outcome).value.Commit?
    requires v.state.id in after && after == before[v.state.id := after[v.state.id]]
    requires after[v.state.id] == if last.CommitTool? && AfterTool(ask.state, ask.index, outcome).Ok?
                                  then Versioned(v.revision + 2, AfterTool(ask.state, ask.index, outcome).value.state)
                                  else Versioned(v.revision + 1, ask.state)
    ensures var actions := [Load(SOLO), Action.Advance(SOLO, catalog), CallTool(SOLO, outcome), last];
            && Refines(before, after, v, actions,
                       [if ask.reconciling then Reconcile(ask.invocation) else Execute(ask.invocation)])
            && Drives(actions, catalog)
  {
    hide Run, BeginAdvance, AfterTool;
    ToolRun(v, catalog, outcome, last);
  }

  predicate StepNames(s: EpisodeState, step: Fallible<Step>) {
    step.Ok? ==>
      match step.value
      case Rest(report) => Names(report, s.status)
      case Commit(t, report) => Names(report, t.status) && t.id == s.id
      case AskModel(t, _) => t.id == s.id
      case AskTool(t, index, _, _) => t.id == s.id && index < |t.operations|
  }

  lemma PlanningNames(s: EpisodeState, catalog: Catalog)
    ensures StepNames(s, PlanTools(s, catalog))
  {
    hide PlannedOperations, Recordable;
  }

  lemma ModelNames(s: EpisodeState)
    ensures StepNames(s, BeginModel(s))
  {
  }

  lemma StoppingNames(s: EpisodeState)
    ensures StepNames(s, Reducer.ReviewStop(s)) && StepNames(s, Reducer.PrepareAttempt(s))
  {
  }

  lemma ToolNames(s: EpisodeState)
    ensures StepNames(s, BeginTool(s))
  {
  }

  lemma ReportsNameTheStatus(s: EpisodeState, catalog: Catalog)
    ensures StepNames(s, BeginAdvance(s, catalog))
  {
    hide PlanTools, BeginModel, Reducer.ReviewStop, Reducer.PrepareAttempt, BeginTool;
    PlanningNames(s, catalog);
    ModelNames(s);
    StoppingNames(s);
    ToolNames(s);
  }

  lemma ModelAnswerNames(s: EpisodeState, outcome: ModelOutcome)
    ensures StepNames(s, AfterModel(s, outcome))
    ensures AfterModel(s, outcome).Ok? ==> AfterModel(s, outcome).value.Commit?
  {
  }

  lemma ToolAnswerNames(s: EpisodeState, index: nat, outcome: ToolOutcome)
    requires index < |s.operations| && s.status.ToolWorkPending?
    ensures StepNames(s, AfterTool(s, index, outcome))
    ensures AfterTool(s, index, outcome).Ok? ==> AfterTool(s, index, outcome).value.Commit?
  {
  }

  lemma ModelRefuses(s: EpisodeState, catalog: Catalog)
    requires s.status.ModelAttemptPending?
    ensures s.attempts == [] ==> BeginAdvance(s, catalog) == Err(MissingModelAttempt)
    ensures s.attempts != [] && !s.attempts[|s.attempts| - 1].status.Dispatching? ==>
              if !s.attempts[|s.attempts| - 1].status.Prepared? then BeginAdvance(s, catalog) == Err(InvalidDurableState)
              else |s.turns| + 1 > U32_MAX ==> BeginAdvance(s, catalog) == Err(CounterExhausted)
  {
  }

  lemma DispatchesModel(s: EpisodeState, catalog: Catalog)
    requires s.status.ModelAttemptPending? && s.attempts != [] && |s.turns| < U32_MAX
    requires s.attempts[|s.attempts| - 1].status.Prepared?
    ensures var last := s.attempts[|s.attempts| - 1];
            BeginAdvance(s, catalog)
            == Ok(AskModel(WithLastAttempt(s, last.(status := AttemptStatus.Dispatching)),
                           ModelRequest(last.number, |s.turns| + 1, s.nextInput)))
  {
  }

  // ----- Loops

  /** Admits the calls of one turn, one by one. */
  method AdmitCalls(turn: Turn, input: Digest, catalog: Catalog) returns (r: Fallible<seq<Operation>>)
    ensures r.Ok? <==> Recordable(turn, catalog)
    ensures r.Ok? ==> r.value == PlannedOperations(turn, input, catalog)
    ensures r.Err? ==> r.error == EmptyField
  {
    var operations: seq<Operation> := [];
    var index := 0;
    while index < |turn.calls|
      invariant 0 <= index <= |turn.calls|
      invariant operations == PlannedOperations(turn, input, catalog)[..index]
      invariant forall i :: 0 <= i < index ==>
                  && !Blank(turn.calls[i].nativeId) && !Blank(turn.calls[i].name)
                  && !Blank(DescriptorOf(catalog, turn.calls[i].name).version)
    {
      var call := turn.calls[index];
      var descriptor := DescriptorOf(catalog, call.name);
      if Blank(call.nativeId) || Blank(call.name) || Blank(descriptor.version) {
        return Err(EmptyField);
      }
      var identity := OperationIdentity(turn.number, index, call.name, descriptor.version,
                                        OfBytes(call.arguments), input);
      var record := Operation(OperationId(index + 1, identity), turn.number, call, descriptor.authority,
                              input, ToolStatus.Requested, None, []);
      if call in catalog.rejections {
        record := FinishOperation(record, ToolStatus.RejectedAsInvalid, catalog.rejections[call], []).value;
      } else if call.name !in catalog.descriptors {
        record := FinishOperation(record, ToolStatus.RejectedAsInvalid, UNKNOWN_TOOL, []).value;
      }
      assert record == PlannedOperation(turn, index, input, catalog);
      operations := operations + [record];
      index := index + 1;
    }
    assert PlannedOperations(turn, input, catalog)[..index] == PlannedOperations(turn, input, catalog);
    return Ok(operations);
  }

  /** Position of the first operation without a result. */
  method FindUnfinished(operations: seq<Operation>) returns (index: nat)
    ensures index == FirstUnfinished(operations)
  {
    index := 0;
    while index < |operations| && operations[index].status.IsTerminal()
      invariant 0 <= index <= |operations|
      invariant FirstUnfinished(operations, index) == FirstUnfinished(operations)
    {
      index := index + 1;
    }
  }

  /** Results of one turn, in the order the calls were made. */
  method CollectResults(operations: seq<Operation>, turn: nat) returns (results: seq<Digest>)
    ensures results == ResultsOf(operations, turn)
  {
    results := [];
    var index := 0;
    while index < |operations|
      invariant 0 <= index <= |operations|
      invariant results == ResultsOf(operations[..index], turn)
    {
      var operation := operations[index];
      assert operations[..index + 1][..index] == operations[..index];
      if operation.turn == turn && operation.result.Some? {
        results := results + [operation.result.value];
      }
      index := index + 1;
    }
    assert operations[..index] == operations;
  }

  /** Whether the newest recorded diagnostic, of whichever attempt, is this one. */
  method RepeatsFailure(attempts: seq<ModelAttempt>, diagnostic: Option<Digest>) returns (repeated: bool)
    ensures repeated <==>
              && diagnostic.Some?
              && exists i :: 0 <= i < |attempts| && attempts[i].diagnostic == diagnostic
                             && forall j :: i < j < |attempts| ==> attempts[j].diagnostic.None?
    ensures repeated <==> diagnostic.Some? && LastDiagnostic(attempts) == diagnostic
  {
    var index := |attempts|;
    assert attempts[..index] == attempts;
    while index > 0 && attempts[index - 1].diagnostic.None?
      invariant 0 <= index <= |attempts|
      invariant forall j :: index <= j < |attempts| ==> attempts[j].diagnostic.None?
      invariant LastDiagnostic(attempts[..index]) == LastDiagnostic(attempts)
    {
      assert attempts[..index][..index - 1] == attempts[..index - 1];
      index := index - 1;
      assert index == 0 ==> attempts[..index] == [];
    }
    return diagnostic.Some? && index > 0 && attempts[index - 1].diagnostic == diagnostic;
  }

  // ----- Runner

  /** Stateless runner; reconstructing it from the same repository is a restart. */
  class AgentLoopRunner {
    const episodeId: EpisodeId

    constructor (id: EpisodeId)
      ensures episodeId == id
    {
      episodeId := id;
    }

    method CommitTransition(repository: InMemoryEpisodeRepository, v: Versioned, next: EpisodeStatus)
      returns (r: Fallible<Report>)
      requires Fresh(repository.episodes, v)
      modifies repository
      ensures Commits(old(repository.episodes), repository.episodes, v, TransitionOnly(v.state, next), r)
    {
      var state :- Transition(v.state, next);
      var _ :- repository.SaveEpisode(v.revision, state);
      return Ok(ProgressReport(next));
    }

    method PrepareAttempt(repository: InMemoryEpisodeRepository, v: Versioned) returns (r: Fallible<Report>)
      requires Fresh(repository.episodes, v)
      modifies repository
      ensures Commits(old(repository.episodes), repository.episodes, v, Reducer.PrepareAttempt(v.state), r)
    {
      var state := v.state;
      if state.cancelRequested {
        r := CommitTransition(repository, v, EpisodeStatus.CancellationPending);
        return;
      }
      if |state.turns| >= state.policy.allowance.maxTurns
         || |state.attempts| >= state.policy.allowance.maxAttempts {
        r := CommitTransition(repository, v, EpisodeStatus.BudgetExhausted);
        return;
      }
      if |state.attempts| + 1 > U32_MAX {
        return Err(CounterExhausted);
      }
      state := state.(attempts := state.attempts + [NewAttempt(state)]);
      state :- Transition(state, EpisodeStatus.ModelAttemptPending);
      var _ :- repository.SaveEpisode(v.revision, state);
      return Ok(Progressed(EpisodeStatus.ModelAttemptPending));
    }

    method ReviewStop(repository: InMemoryEpisodeRepository, v: Versioned) returns (r: Fallible<Report>)
      requires Fresh(repository.episodes, v)
      modifies repository
      ensures Commits(old(repository.episodes), repository.episodes, v, Reducer.ReviewStop(v.state), r)
    {
      var state := v.state;
      var next: EpisodeStatus;
      if state.satisfied {
        next := EpisodeStatus.Succeeded;
      } else if state.stopFeedback < state.policy.rules.maxStopFeedback {
        state := state.(stopFeedback := state.stopFeedback + 1);
        if state.turns == [] {
          return Err(MissingTurn);
        }
        var continuation := state.turns[|state.turns| - 1].continuation;
        state := state.(nextInput := ContinuationInput(continuation, []));
        next := EpisodeStatus.ReadyForModel;
      } else {
        next := EpisodeStatus.Incomplete;
      }
      state :- Transition(state, next);
      var _ :- repository.SaveEpisode(v.revision, state);
      return Ok(ProgressReport(next));
    }

    /** Admits the last turn's calls one by one, or sends the turn elsewhere. */
    method PlanTurnTools(repository: InMemoryEpisodeRepository, v: Versioned,
                         tools: ScriptedToolGateway, faults: OneShotFault)
      returns (r: Fallible<Report>)
      requires Fresh(repository.episodes, v)
      modifies repository, faults
      ensures Commits(old(repository.episodes), repository.episodes, v, PlanTools(v.state, tools.catalog), r)
              || (r == Err(InjectedCrash(AfterTurnCommit)) && old(faults.point) == Some(AfterTurnCommit)
                  && exists report ::
                       Commits(old(repository.episodes), repository.episodes, v,
                               PlanTools(v.state, tools.catalog), Ok(report)))
    {
      var state := v.state;
      if state.turns == [] {
        return Err(MissingTurn);
      }
      var turn := state.turns[|state.turns| - 1];
      if turn.calls == [] {
        r := CommitTransition(repository, v, EpisodeStatus.StopReview);
        return;
      }
      if |turn.calls| > U32_MAX {
        return Err(CounterExhausted);
      }
      if |state.operations| + |turn.calls| > state.policy.allowance.maxOperations {
        r := CommitTransition(repository, v, EpisodeStatus.BudgetExhausted);
        return;
      }
      if |turn.calls| > state.policy.rules.maxCallsPerTurn {
        r := CommitTransition(repository, v, EpisodeStatus.StopReview);
        return;
      }
      var planned :- AdmitCalls(turn, state.nextInput, tools.catalog);
      state := state.(operations := state.operations + planned);
      state :- Transition(state, EpisodeStatus.ToolWorkPending);
      var _ :- repository.SaveEpisode(v.revision, state);
      var crash := faults.ShouldCrash(AfterTurnCommit);
      if crash {
        assert Commits(old(repository.episodes), repository.episodes, v,
                       PlanTools(v.state, tools.catalog), Ok(Progressed(EpisodeStatus.ToolWorkPending)));
        return Err(InjectedCrash(AfterTurnCommit));
      }
      return Ok(Progressed(EpisodeStatus.ToolWorkPending));
    }

    /** What follows a dispatch that produced no usable turn; `state` carries the closed attempt. */
    method FailDispatch(repository: InMemoryEpisodeRepository, v: Versioned, state: EpisodeState,
                        retry: RetryHint, repeated: bool)
      returns (r: Fallible<Report>)
      requires Fresh(repository.episodes, v) && state.id == v.state.id
      modifies repository
      ensures Commits(old(repository.episodes), repository.episodes, v,
                      AfterFailedDispatch(state, retry, repeated), r)
    {
      if retry.Never? || repeated {
        var failed :- Transition(state, EpisodeStatus.Failed);
        var _ :- repository.SaveEpisode(v.revision, failed);
        return Ok(Terminal(EpisodeStatus.Failed));
      }
      var delay := if retry.AfterMillis? then retry.millis else BackoffMillis(FailedAttempts(state.attempts));
      var ready :- Transition(state, EpisodeStatus.ReadyForModel);
      var _ :- repository.SaveEpisode(v.revision, ready);
      return Ok(ProgressedAfter(EpisodeStatus.ReadyForModel, delay));
    }

    /** Counts an attempt whose outcome nobody knows; `state` carries the closed attempt. */
    method CountAmbiguity(repository: InMemoryEpisodeRepository, v: Versioned, state: EpisodeState)
      returns (r: Fallible<Report>)
      requires Fresh(repository.episodes, v) && state.id == v.state.id
      modifies repository
      ensures Commits(old(repository.episodes), repository.episodes, v,
                      if state.ambiguousAttempts + 1 > U32_MAX then Err(CounterExhausted)
                      else var counted := state.(ambiguousAttempts := state.ambiguousAttempts + 1);
                           TransitionOnly(counted, AfterAmbiguity(counted)), r)
    {
      if state.ambiguousAttempts + 1 > U32_MAX {
        return Err(CounterExhausted);
      }
      var counted := state.(ambiguousAttempts := state.ambiguousAttempts + 1);
      var next := EpisodeStatus.ReadyForModel;
      if counted.ambiguousAttempts > counted.policy.rules.maxAmbiguousAttempts {
        next := EpisodeStatus.BudgetExhausted;
      }
      counted :- Transition(counted, next);
      var _ :- repository.SaveEpisode(v.revision, counted);
      return Ok(ProgressReport(next));
    }

    /** A dispatching attempt found at load time. */
    method RecoverModel(repository: InMemoryEpisodeRepository, v: Versioned) returns (r: Fallible<Report>)
      requires Fresh(repository.episodes, v) && v.state.attempts != []
      modifies repository
      ensures Commits(old(repository.episodes), repository.episodes, v, RecoverDispatch(v.state), r)
    {
      var state := v.state;
      var terminal := AttemptStatus.Ambiguous;
      if state.cancelRequested {
        terminal := AttemptStatus.CancelledAmbiguous;
      }
      var finished :- FinishWithoutResponse(state.attempts[|state.attempts| - 1], terminal, None);
      state := WithLastAttempt(state, finished);
      if !state.cancelRequested {
        r := CountAmbiguity(repository, v, state);
        return;
      }
      if state.ambiguousAttempts + 1 > U32_MAX {
        return Err(CounterExhausted);
      }
      state := state.(ambiguousAttempts := state.ambiguousAttempts + 1);
      state :- Transition(state, EpisodeStatus.SuspensionRequested);
      state :- Transition(state, EpisodeStatus.Suspended);
      var _ :- repository.SaveEpisode(v.revision, state);
      return Ok(SuspendedReport);
    }

    /** Records one model answer onto the dispatching state. */
    method RecordModelAnswer(repository: InMemoryEpisodeRepository, v: Versioned, outcome: ModelOutcome)
      returns (r: Fallible<Report>)
      requires Fresh(repository.episodes, v)
      modifies repository
      ensures Commits(old(repository.episodes), repository.episodes, v, AfterModel(v.state, outcome), r)
    {
      var state := v.state;
      if state.attempts == [] {
        return Err(MissingModelAttempt);
      }
      var attempt := state.attempts[|state.attempts| - 1];
      match outcome
      case TurnAnswer(continuation, exchange, narrative, calls) =>
        attempt :- RecordResponse(attempt, exchange);
        attempt := MarkDecoded(attempt, continuation).value;
        if |calls| > U32_MAX {
          return Err(CounterExhausted);
        }
        var turn := Turn(|state.turns| + 1, attempt.number, continuation, narrative, calls);
        state := WithLastAttempt(state, attempt).(turns := state.turns + [turn]);
        state :- Transition(state, EpisodeStatus.TurnRecorded);
        var _ :- repository.SaveEpisode(v.revision, state);
        return Ok(Progressed(EpisodeStatus.TurnRecorded));
      case ConfirmedNotSent(diagnostic, retry) =>
        var repeated := RepeatsFailure(state.attempts, diagnostic);
        attempt :- FinishWithoutResponse(attempt, AttemptStatus.ConfirmedNotSent, diagnostic);
        r := FailDispatch(repository, v, WithLastAttempt(state, attempt), retry, repeated);
      case Rejected(response, diagnostic, retry) =>
        var repeated := RepeatsFailure(state.attempts, diagnostic);
        attempt :- RecordResponse(attempt, response);
        attempt := MarkResponseUnusable(attempt, AttemptStatus.Failed, diagnostic).value;
        r := FailDispatch(repository, v, WithLastAttempt(state, attempt), retry, repeated);
      case DecodeFailed(response, diagnostic) =>
        attempt :- RecordResponse(attempt, response);
        attempt := MarkResponseUnusable(attempt, AttemptStatus.DecodeFailed, diagnostic).value;
        state :- Transition(WithLastAttempt(state, attempt), EpisodeStatus.Failed);
        var _ :- repository.SaveEpisode(v.revision, state);
        return Ok(Terminal(EpisodeStatus.Failed));
      case AmbiguousAnswer(diagnostic) =>
        attempt :- FinishWithoutResponse(attempt, AttemptStatus.Ambiguous, diagnostic);
        r := CountAmbiguity(repository, v, WithLastAttempt(state, attempt));
    }

    /** Records one tool answer onto the dispatch record. */
    method RecordToolAnswer(repository: InMemoryEpisodeRepository, v: Versioned, index: nat, outcome: ToolOutcome)
      returns (r: Fallible<Report>)
      requires Fresh(repository.episodes, v) && index < |v.state.operations|
      modifies repository
      ensures Commits(old(repository.episodes), repository.episodes, v, AfterTool(v.state, index, outcome), r)
    {
      var state := v.state;
      var operation := state.operations[index];
      match outcome
      case Completed(status, result, receipts, satisfies) =>
        if !status.IsTerminal() || status.RejectedAsInvalid? {
          return Err(InvalidToolOutcome);
        }
        if satisfies && !operation.authority.VerifiedReference? {
          return Err(UntrustedCompletion);
        }
        operation :- FinishOperation(operation, status, result, receipts);
        state := state.(operations := state.operations[index := operation]);
        state := state.(satisfied := state.satisfied || satisfies);
        var _ :- repository.SaveEpisode(v.revision, state);
        return Ok(Progressed(EpisodeStatus.ToolWorkPending));
      case Pending(_) =>
        if !operation.status.Running? {
          operation :- AdvanceOperation(operation, ToolStatus.Running);
        }
        state := state.(operations := state.operations[index := operation]);
        var _ :- repository.SaveEpisode(v.revision, state);
        return Ok(Progressed(EpisodeStatus.ToolWorkPending));
      case AmbiguousOutcome(_) =>
        if !operation.status.Reconciling? {
          operation :- AdvanceOperation(operation, ToolStatus.Ambiguous);
        }
        state := state.(operations := state.operations[index := operation]);
        r := SuspendEpisode(repository, v, state);
    }

    /** Suspends an episode whose tool is in doubt. */
    method SuspendEpisode(repository: InMemoryEpisodeRepository, v: Versioned, doubtful: EpisodeState)
      returns (r: Fallible<Report>)
      requires Fresh(repository.episodes, v) && doubtful.id == v.state.id
      modifies repository
      ensures Commits(old(repository.episodes), repository.episodes, v, SuspendStep(doubtful), r)
    {
      var state := doubtful;
      state :- Transition(state, EpisodeStatus.SuspensionRequested);
      state := Transition(state, EpisodeStatus.Suspended).value;
      var _ :- repository.SaveEpisode(v.revision, state);
      return Ok(SuspendedReport);
    }

    /** Dispatches the prepared attempt, asks the model once, and records its answer. */
    method DriveModel(repository: InMemoryEpisodeRepository, v: Versioned, models: ScriptedModelGateway,
                      faults: OneShotFault, ghost catalog: Catalog)
      returns (r: Fallible<Report>, ghost actions: seq<Action>)
      requires Fresh(repository.episodes, v) && v.state.status.ModelAttemptPending?
      modifies repository, models, faults
      ensures old(models.log) <= models.log
      ensures Refines(old(repository.episodes), repository.episodes, v, actions, models.log[|old(models.log)|..])
      ensures Drives(actions, catalog) && |models.log| <= |old(models.log)| + 1
      ensures Tells(r, v, catalog, actions, old(faults.point), |models.log| > |old(models.log)|)
      ensures HearsModel(actions, old(models.steps)) && HearsTool(actions, [])
      ensures r.Ok? ==> Names(r.value, repository.episodes[v.state.id].state.status)
    {
      hide BeginAdvance, RecoverDispatch, AfterModel, Refines, Drives;
      ModelRefuses(v.state, catalog);
      ghost var before := repository.episodes;
      assert models.log[|models.log|..] == [];
      actions := [Crash(SOLO)];
      IdleRun(before, v);
      if v.state.attempts == [] {
        return Err(MissingModelAttempt), actions;
      }
      var last := v.state.attempts[|v.state.attempts| - 1];
      if last.status.Dispatching? {
        r := RecoverModel(repository, v);
        actions := RecoveredActions(before, repository.episodes, v, catalog, r);
        return;
      }
      if !last.status.Prepared? {
        return Err(InvalidDurableState), actions;
      }
      if |v.state.turns| + 1 > U32_MAX {
        return Err(CounterExhausted), actions;
      }
      var dispatching := MarkDispatching(last).value;
      var state := WithLastAttempt(v.state, dispatching);
      var request := ModelRequest(last.number, |v.state.turns| + 1, v.state.nextInput);
      DispatchesModel(v.state, catalog);
      var saved := repository.SaveEpisode(v.revision, state);
      if saved.Err? {
        return Err(saved.error), actions;
      }
      ghost var during := repository.episodes;
      actions := [Load(SOLO), Action.Advance(SOLO, catalog), Crash(SOLO)];
      DispatchRefines(before, v, catalog, AskModel(state, request));
      var crash := faults.ShouldCrash(AfterModelDispatchCommit);
      if crash {
        return Err(InjectedCrash(AfterModelDispatchCommit)), actions;
      }
      r, actions := AskModelOnce(repository, v, Versioned(saved.value, state), request, models, faults, catalog);
      RefinesFrom(before, during, repository.episodes, v, actions, models.log[|old(models.log)|..]);
    }

    /** The call of a committed dispatch, and the commit of what it answered. */
    method AskModelOnce(repository: InMemoryEpisodeRepository, ghost v: Versioned, held: Versioned,
                        request: ModelRequest, models: ScriptedModelGateway, faults: OneShotFault,
                        ghost catalog: Catalog)
      returns (r: Fallible<Report>, ghost actions: seq<Action>)
      requires held.state.id == v.state.id && Fresh(repository.episodes, held)
      requires held.revision == v.revision + 1
      requires BeginAdvance(v.state, catalog) == Ok(AskModel(held.state, request))
      modifies repository, models, faults
      ensures old(models.log) <= models.log
      ensures Refines(old(repository.episodes), repository.episodes, v, actions, models.log[|old(models.log)|..])
      ensures Drives(actions, catalog) && |models.log| <= |old(models.log)| + 1
      ensures Tells(r, v, catalog, actions, old(faults.point), |models.log| > |old(models.log)|)
      ensures HearsModel(actions, old(models.steps)) && HearsTool(actions, [])
      ensures r.Ok? ==> Names(r.value, repository.episodes[v.state.id].state.status)
    {
      hide BeginAdvance, AfterModel, Refines, Drives;
      ghost var before := repository.episodes;
      var answered := models.InvokeModel(request);
      assert models.log[|old(models.log)|..] == [Invoke(request)];
      ghost var said := if answered.Ok? then answered.value else AmbiguousAnswer(None);
      actions := [Load(SOLO), Action.Advance(SOLO, catalog), CallModel(SOLO, said), Crash(SOLO)];
      ModelAnswerNames(held.state, said);
      ModelCallRefines(before, before, v, catalog, held.state, request, said, Crash(SOLO));
      if answered.Err? {
        return Err(answered.error), actions;
      }
      var outcome := answered.value;
      var crash := faults.ShouldCrash(AfterModelOutcomeBeforeCommit);
      if crash {
        return Err(InjectedCrash(AfterModelOutcomeBeforeCommit)), actions;
      }
      r := RecordModelAnswer(repository, held, outcome);
      if held.revision < U64_MAX {
        actions := [Load(SOLO), Action.Advance(SOLO, catalog), CallModel(SOLO, outcome), CommitModel(SOLO)];
        ModelCallRefines(before, repository.episodes, v, catalog, held.state, request, outcome, CommitModel(SOLO));
      }
      if r.Ok? && outcome.TurnAnswer? {
        crash := faults.ShouldCrash(AfterTurnCommit);
        if crash {
          r := Err(InjectedCrash(AfterTurnCommit));
        }
      }
    }

    /** Rebinds the next request once the last turn has no unfinished work. */
    method FinishTurn(repository: InMemoryEpisodeRepository, v: Versioned) returns (r: Fallible<Report>)
      requires Fresh(repository.episodes, v) && FirstUnfinished(v.state.operations) == |v.state.operations|
      modifies repository
      ensures Commits(old(repository.episodes), repository.episodes, v, BeginTool(v.state), r)
    {
      var state := v.state;
      if state.turns == [] {
        return Err(MissingTurn);
      }
      var turn := state.turns[|state.turns| - 1];
      var results := CollectResults(state.operations, turn.number);
      state := state.(nextInput := ContinuationInput(turn.continuation, results));
      state :- Transition(state, EpisodeStatus.ReadyForModel);
      var _ :- repository.SaveEpisode(v.revision, state);
      return Ok(Progressed(EpisodeStatus.ReadyForModel));
    }

    /** Moves an unfinished record to the state it is dispatched under. */
    method DispatchOperation(operation: Operation) returns (r: Fallible<Operation>)
      ensures r == DispatchRecord(operation)
    {
      var record := operation;
      match operation.status {
      case Requested =>
        record := AdvanceOperation(record, ToolStatus.Authorized).value;
        record := AdvanceOperation(record, ToolStatus.Dispatching).value;
      case Dispatching =>
        record := AdvanceOperation(record, ToolStatus.Ambiguous).value;
        record := AdvanceOperation(record, ToolStatus.Reconciling).value;
      case Ambiguous =>
        record := AdvanceOperation(record, ToolStatus.Reconciling).value;
      case Reconciling =>
      case Running =>
      case _ =>
        return Err(InvalidDurableState);
      }
      return Ok(record);
    }

    /** Dispatches the first unfinished operation, calls its tool once, and records the answer. */
    method DriveTools(repository: InMemoryEpisodeRepository, v: Versioned, tools: ScriptedToolGateway,
                      faults: OneShotFault)
      returns (r: Fallible<Report>, ghost actions: seq<Action>)
      requires Fresh(repository.episodes, v) && v.state.status.ToolWorkPending?
      modifies repository, tools, faults
      ensures old(tools.log) <= tools.log
      ensures Refines(old(repository.episodes), repository.episodes, v, actions, tools.log[|old(tools.log)|..])
      ensures Drives(actions, tools.catalog) && |tools.log| <= |old(tools.log)| + 1
      ensures Tells(r, v, tools.catalog, actions, old(faults.point), |tools.log| > |old(tools.log)|)
      ensures HearsTool(actions, old(tools.steps)) && HearsModel(actions, [])
      ensures r.Ok? ==> Names(r.value, repository.episodes[v.state.id].state.status)
    {
      hide BeginAdvance, AfterTool, BeginTool, DispatchRecord, Refines, Drives;
      ghost var before := repository.episodes;
      assert tools.log[|tools.log|..] == [];
      ToolAdvance(v.state, tools.catalog);
      var index := FindUnfinished(v.state.operations);
      if index == |v.state.operations| {
        r := FinishTurn(repository, v);
        actions := CommittedActions(before, repository.episodes, v, tools.catalog, r);
        return;
      }
      actions := [Crash(SOLO)];
      IdleRun(before, v);
      var dispatched := DispatchOperation(v.state.operations[index]);
      if dispatched.Err? {
        return Err(dispatched.error), actions;
      }
      var record := dispatched.value;
      var reconciling := record.status.Reconciling? || record.status.Running?;
      var state := v.state.(operations := v.state.operations[index := record]);
      var invocation := ToolInvocation(record.id, record.call, v.state.nextInput);
      var saved := repository.SaveEpisode(v.revision, state);
      if saved.Err? {
        return Err(saved.error), actions;
      }
      ghost var during := repository.episodes;
      actions := [Load(SOLO), Action.Advance(SOLO, tools.catalog), Crash(SOLO)];
      DispatchRefines(before, v, tools.catalog, AskTool(state, index, invocation, reconciling));
      var crash := faults.ShouldCrash(AfterToolDispatchCommit);
      if crash {
        return Err(InjectedCrash(AfterToolDispatchCommit)), actions;
      }
      r, actions := AskToolOnce(repository, v, Versioned(saved.value, state), index, invocation, reconciling,
                                tools, faults);
      RefinesFrom(before, during, repository.episodes, v, actions, tools.log[|old(tools.log)|..]);
    }

    method AskToolOnce(repository: InMemoryEpisodeRepository, ghost v: Versioned, held: Versioned, index: nat,
                       invocation: ToolInvocation, reconciling: bool, tools: ScriptedToolGateway,
                       faults: OneShotFault)
      returns (r: Fallible<Report>, ghost actions: seq<Action>)
      requires held.state.id == v.state.id && Fresh(repository.episodes, held)
      requires held.revision == v.revision + 1 && index < |held.state.operations|
      requires held.state.status.ToolWorkPending?
      requires BeginAdvance(v.state, tools.catalog) == Ok(AskTool(held.state, index, invocation, reconciling))
      modifies repository, tools, faults
      ensures old(tools.log) <= tools.log
      ensures Refines(old(repository.episodes), repository.episodes, v, actions, tools.log[|old(tools.log)|..])
      ensures Drives(actions, tools.catalog) && |tools.log| <= |old(tools.log)| + 1
      ensures Tells(r, v, tools.catalog, actions, old(faults.point), |tools.log| > |old(tools.log)|)
      ensures HearsTool(actions, old(tools.steps)) && HearsModel(actions, [])
      ensures r.Ok? ==> Names(r.value, repository.episodes[v.state.id].state.status)
    {
      hide BeginAdvance, AfterTool, Refines, Drives;
      ghost var catalog, before := tools.catalog, repository.episodes;
      ghost var ask := AskTool(held.state, index, invocation, reconciling);
      var answered := tools.InvokeTool(reconciling, invocation);
      assert tools.log[|old(tools.log)|..] == [if reconciling then Reconcile(invocation) else Execute(invocation)];
      ghost var said := if answered.Ok? then answered.value else Pending(Issued(0));
      actions := [Load(SOLO), Action.Advance(SOLO, catalog), CallTool(SOLO, said), Crash(SOLO)];
      ToolAnswerNames(held.state, index, said);
      ToolCallRefines(before, before, v, catalog, ask, said, Crash(SOLO));
      if answered.Err? {
        return Err(answered.error), actions;
      }
      var outcome := answered.value;
      var crash := faults.ShouldCrash(AfterToolOutcomeBeforeCommit);
      if crash {
        return Err(InjectedCrash(AfterToolOutcomeBeforeCommit)), actions;
      }
      r := RecordToolAnswer(repository, held, index, outcome);
      if held.revision < U64_MAX {
        actions := [Load(SOLO), Action.Advance(SOLO, catalog), CallTool(SOLO, outcome), CommitTool(SOLO)];
        ToolCallRefines(before, repository.episodes, v, catalog, ask, outcome, CommitTool(SOLO));
      }
      if r.Ok? && outcome.Completed? {
        crash := faults.ShouldCrash(AfterToolResultCommit);
        if crash {
          r := Err(InjectedCrash(AfterToolResultCommit));
        }
      }
    }

    /** Advances at most one externally visible action. Whatever happens, errors and crashes included,
        the repository and both gateways saw one run of the interleaving model by this runner, without
        any operator command; no other episode was touched, and a report names the stored status. */
    method Advance(repository: InMemoryEpisodeRepository, models: ScriptedModelGateway,
                   tools: ScriptedToolGateway, faults: OneShotFault)
      returns (r: Fallible<Report>, ghost actions: seq<Action>)
      requires Identified(repository.episodes)
      modifies repository, models, tools, faults
      ensures old(models.log) <= models.log && old(tools.log) <= tools.log
      ensures episodeId !in old(repository.episodes) ==>
                && r == Err(NotFound) && repository.episodes == old(repository.episodes)
                && models.log == old(models.log) && tools.log == old(tools.log)
      ensures episodeId in old(repository.episodes) ==>
                && Refines(old(repository.episodes), repository.episodes, old(repository.episodes)[episodeId],
                           actions, models.log[|old(models.log)|..] + tools.log[|old(tools.log)|..])
                && Drives(actions, tools.catalog)
                && |models.log| + |tools.log| <= |old(models.log)| + |old(tools.log)| + 1
                && Tells(r, old(repository.episodes)[episodeId], tools.catalog, actions, old(faults.point),
                         |models.log| + |tools.log| > |old(models.log)| + |old(tools.log)|)
                && HearsModel(actions, old(models.steps)) && HearsTool(actions, old(tools.steps))
                && (r.Ok? ==> Names(r.value, repository.episodes[episodeId].state.status))
      ensures Identified(repository.episodes)
    {
      hide Run, BeginAdvance;
      ghost var before := repository.episodes;
      actions := [];
      var loaded := repository.LoadEpisode(episodeId);
      if loaded.Err? {
        return Err(loaded.error), actions;
      }
      var v := loaded.value;
      var status := v.state.status;
      if status.ModelAttemptPending? {
        r, actions := DriveModel(repository, v, models, faults, tools.catalog);
        assert models.log[|old(models.log)|..] + tools.log[|old(tools.log)|..] == models.log[|old(models.log)|..];
        IdentityKept(v, actions);
        return;
      }
      if status.ToolWorkPending? {
        r, actions := DriveTools(repository, v, tools, faults);
        assert models.log[|old(models.log)|..] + tools.log[|old(tools.log)|..] == tools.log[|old(tools.log)|..];
        IdentityKept(v, actions);
        return;
      }
      var crashed := false;
      r, crashed := AdvanceLocally(repository, v, tools, faults);
      if crashed {
        ghost var report :| Commits(before, repository.episodes, v, BeginAdvance(v.state, tools.catalog), Ok(report));
        actions := CommittedActions(before, repository.episodes, v, tools.catalog, Ok(report));
      } else {
        actions := CommittedActions(before, repository.episodes, v, tools.catalog, r);
      }
      IdentityKept(v, actions);
    }

    /** The statuses that call nobody. */
    method AdvanceLocally(repository: InMemoryEpisodeRepository, v: Versioned, tools: ScriptedToolGateway,
                          faults: OneShotFault)
      returns (r: Fallible<Report>, crashed: bool)
      requires Fresh(repository.episodes, v)
      requires !v.state.status.ModelAttemptPending? && !v.state.status.ToolWorkPending?
      modifies repository, faults
      ensures if crashed
              then r == Err(InjectedCrash(AfterTurnCommit)) && old(faults.point) == Some(AfterTurnCommit) && exists report ::
                     Commits(old(repository.episodes), repository.episodes, v,
                             BeginAdvance(v.state, tools.catalog), Ok(report))
              else Commits(old(repository.episodes), repository.episodes, v,
                           BeginAdvance(v.state, tools.catalog), r)
    {
      hide PlanTools, Reducer.PrepareAttempt, Reducer.ReviewStop;
      crashed := false;
      var status := v.state.status;
      if status.IsTerminal() {
        return Ok(Terminal(status)), false;
      }
      match status
      case Created => r := CommitTransition(repository, v, EpisodeStatus.ReadyForModel);
      case ReadyForModel => r := PrepareAttempt(repository, v);
      case TurnRecorded =>
        r := PlanTurnTools(repository, v, tools, faults);
        crashed := r == Err(InjectedCrash(AfterTurnCommit));
        PlanningNeverCrashes(v.state, tools.catalog);
      case StopReview => r := ReviewStop(repository, v);
      case CancellationPending => r := CommitTransition(repository, v, EpisodeStatus.Cancelled);
      case _ => r := Ok(SuspendedReport);
    }

    // ----- Operator commands

    /** Reopens a finished episode under a new allowance. */
    method Resume(repository: InMemoryEpisodeRepository, granted: Allowance) returns (r: Fallible<Report>)
      requires Identified(repository.episodes)
      modifies repository
      ensures episodeId !in old(repository.episodes) ==>
                r == Err(NotFound) && repository.episodes == old(repository.episodes)
      ensures episodeId in old(repository.episodes) ==>
                var v := old(repository.episodes)[episodeId];
                && Commits(old(repository.episodes), repository.episodes, v, ResumeEpisode(v.state, granted), r)
                && Refines(old(repository.episodes), repository.episodes, v, CommandActions(v, Action.Resume(SOLO, granted)), [])
      ensures Identified(repository.episodes)
    {
      hide StepOf, ResumeEpisode, ResumeReconciliation, CancelEpisode;
      var v :- repository.LoadEpisode(episodeId);
      ghost var before := repository.episodes;
      r := ReopenEpisode(repository, v, granted);
      OperatorsKeepIdentity(v.state, granted);
      CommandIs(v.state, Action.Resume(SOLO, granted));
      CommitRun(before, repository.episodes, v, Action.Resume(SOLO, granted), r);
    }

    method ReopenEpisode(repository: InMemoryEpisodeRepository, v: Versioned, granted: Allowance) returns (r: Fallible<Report>)
      requires Fresh(repository.episodes, v)
      modifies repository
      ensures Commits(old(repository.episodes), repository.episodes, v, ResumeEpisode(v.state, granted), r)
    {
      var state := v.state;
      if !state.policy.Valid() {
        return Err(InvalidPolicy);
      }
      if |state.turns| > |state.attempts| {
        return Err(InvalidDurableState);
      }
      var index := 0;
      while index < |state.turns|
        invariant 0 <= index <= |state.turns|
        invariant forall i :: 0 <= i < index ==> ValidTurn(state.turns[i].narrative, state.turns[i].calls)
      {
        if !ValidTurn(state.turns[index].narrative, state.turns[index].calls) {
          return Err(InvalidTurn);
        }
        index := index + 1;
      }
      var resumedFrom := state.status;
      if !resumedFrom.IsTerminal() {
        return Ok(Progressed(resumedFrom));
      }
      state :- Reopen(state);
      var previous := state.policy.allowance;
      state := state.(policy := state.policy.WithAllowance(granted));
      if !state.policy.Valid() {
        return Err(InvalidPolicy);
      }
      state := state.(grants := state.grants + [Grant(resumedFrom, previous, granted)]);
      state := state.(cancelRequested := false);
      var _ :- repository.SaveEpisode(v.revision, state);
      return Ok(Progressed(resumedFrom));
    }

    /** Resumes a suspended episode so that its tools can reconcile. */
    method ResumeReconciling(repository: InMemoryEpisodeRepository) returns (r: Fallible<Report>)
      requires Identified(repository.episodes)
      modifies repository
      ensures episodeId !in old(repository.episodes) ==>
                r == Err(NotFound) && repository.episodes == old(repository.episodes)
      ensures episodeId in old(repository.episodes) ==>
                var v := old(repository.episodes)[episodeId];
                && Commits(old(repository.episodes), repository.episodes, v, ResumeReconciliation(v.state), r)
                && Refines(old(repository.episodes), repository.episodes, v, CommandActions(v, ResumeSuspended(SOLO)), [])
      ensures Identified(repository.episodes)
    {
      hide StepOf, ResumeEpisode, ResumeReconciliation, CancelEpisode;
      var v :- repository.LoadEpisode(episodeId);
      ghost var before := repository.episodes;
      r := ReopenTools(repository, v);
      OperatorsKeepIdentity(v.state, v.state.policy.allowance);
      CommandIs(v.state, ResumeSuspended(SOLO));
      CommitRun(before, repository.episodes, v, ResumeSuspended(SOLO), r);
    }

    method ReopenTools(repository: InMemoryEpisodeRepository, v: Versioned) returns (r: Fallible<Report>)
      requires Fresh(repository.episodes, v)
      modifies repository
      ensures Commits(old(repository.episodes), repository.episodes, v, ResumeReconciliation(v.state), r)
    {
      if !v.state.status.Suspended? {
        return Err(InvalidDurableState);
      }
      var index := FindUnfinished(v.state.operations);
      var next := EpisodeStatus.ReadyForModel;
      if index < |v.state.operations| {
        next := EpisodeStatus.ToolWorkPending;
      } else if v.state.cancelRequested {
        next := EpisodeStatus.CancellationPending;
      }
      r := CommitTransition(repository, v, next);
    }

    /** Closes a model dispatch that is in doubt and marks a tool dispatch that is. */
    method SettleEffects(s: EpisodeState) returns (state: EpisodeState, modelInDoubt: bool)
      ensures modelInDoubt == ModelInDoubt(s)
      ensures SettleModel(s).Ok? && SettleTool(SettleModel(s).value) == Ok(state)
      ensures state.status == s.status && state.id == s.id
    {
      state := s;
      modelInDoubt := state.attempts != [] && state.attempts[|state.attempts| - 1].status.Dispatching?;
      if modelInDoubt {
        var finished := FinishWithoutResponse(
          state.attempts[|state.attempts| - 1], AttemptStatus.CancelledAmbiguous, None).value;
        state := WithLastAttempt(state, finished);
      }
      var index := FindDispatching(state.operations);
      if index < |state.operations| {
        var ambiguous := AdvanceOperation(state.operations[index], ToolStatus.Ambiguous).value;
        state := state.(operations := state.operations[index := ambiguous]);
      }
    }

    /** Requests cancellation without erasing an effect that is in doubt. */
    method RequestCancellation(repository: InMemoryEpisodeRepository) returns (r: Fallible<Report>)
      requires Identified(repository.episodes)
      modifies repository
      ensures episodeId !in old(repository.episodes) ==>
                r == Err(NotFound) && repository.episodes == old(repository.episodes)
      ensures episodeId in old(repository.episodes) ==>
                var v := old(repository.episodes)[episodeId];
                && Commits(old(repository.episodes), repository.episodes, v, CancelEpisode(v.state), r)
                && Refines(old(repository.episodes), repository.episodes, v, CommandActions(v, Cancel(SOLO)), [])
      ensures Identified(repository.episodes)
    {
      hide StepOf, ResumeEpisode, ResumeReconciliation, CancelEpisode;
      var v :- repository.LoadEpisode(episodeId);
      ghost var before := repository.episodes;
      r := CancelLoaded(repository, v);
      OperatorsKeepIdentity(v.state, v.state.policy.allowance);
      CommandIs(v.state, Cancel(SOLO));
      CommitRun(before, repository.episodes, v, Cancel(SOLO), r);
    }

    method CancelLoaded(repository: InMemoryEpisodeRepository, v: Versioned) returns (r: Fallible<Report>)
      requires Fresh(repository.episodes, v)
      modifies repository
      ensures Commits(old(repository.episodes), repository.episodes, v, CancelEpisode(v.state), r)
    {
      if v.state.status.IsTerminal() {
        return Ok(Terminal(v.state.status));
      }
      hide SettleModel, SettleTool;
      var toolInDoubt := exists i :: 0 <= i < |v.state.operations| && v.state.operations[i].status.InFlight();
      var state, modelInDoubt := SettleEffects(v.state.(cancelRequested := true));
      if modelInDoubt || toolInDoubt {
        if !state.status.Suspended? {
          state :- Transition(state, EpisodeStatus.SuspensionRequested);
          state := Transition(state, EpisodeStatus.Suspended).value;
        }
      } else if !state.status.CancellationPending? {
        state := Transition(state, EpisodeStatus.CancellationPending).value;
      }
      var _ :- repository.SaveEpisode(v.revision, state);
      return Ok(Progressed(state.status));
    }
  }

  lemma CommandIs(s: EpisodeState, a: Action)
    ensures a.Advance? ==> StepOf(s, a) == Some(BeginAdvance(s, a.catalog))
    ensures a.Resume? ==> StepOf(s, a) == Some(ResumeEpisode(s, a.granted))
    ensures a.Cancel? ==> StepOf(s, a) == Some(CancelEpisode(s))
    ensures a.ResumeSuspended? ==> StepOf(s, a) == Some(ResumeReconciliation(s))
  {
  }

  /** Position of the first operation whose dispatch is committed and unanswered. */
  method FindDispatching(operations: seq<Operation>) returns (index: nat)
    ensures index == FirstDispatching(operations)
  {
    index := 0;
    while index < |operations| && !operations[index].status.Dispatching?
      invariant 0 <= index <= |operations|
      invariant FirstDispatching(operations, index) == FirstDispatching(operations)
    {
      index := index + 1;
    }
  }

  lemma PlanningNeverCrashes(s: EpisodeState, catalog: Catalog)
    ensures PlanTools(s, catalog).Err? ==> !PlanTools(s, catalog).error.InjectedCrash?
  {
  }

  /** A run keeps the identity of the episode it works on. */
  lemma IdentityKept(v: Versioned, actions: seq<Action>)
    ensures Run(Solo(v), actions).current.state.id == v.state.id
  {
    hide Run;
    SoloIdentity(Solo(v), v.state.id, actions);
  }

  ghost predicate OneIdentity(w: World, id: EpisodeId) {
    && w.current.state.id == id
    && forall r :: r in w.runners && !w.runners[r].Idle? ==> w.runners[r].held.state.id == id
  }

  lemma {:induction false} SoloIdentity(w: World, id: EpisodeId, actions: seq<Action>)
    requires OneIdentity(w, id)
    ensures Run(w, actions).current.state.id == id
    decreases |actions|
  {
    hide Next;
    if actions != [] {
      NextIdentity(w, id, actions[0]);
      SoloIdentity(Next(w, actions[0]), id, actions[1..]);
    }
  }

  lemma SettleIdentity(w: World, id: EpisodeId, r: RunnerId, held: Versioned, step: Fallible<Step>)
    requires OneIdentity(w, id) && held.state.id == id && StepKeepsIdentity(held.state, step)
    ensures OneIdentity(Settle(w, r, held, step), id)
  {
  }

  lemma NextIdentity(w: World, id: EpisodeId, a: Action)
    requires OneIdentity(w, id)
    ensures OneIdentity(Next(w, a), id)
  {
    hide BeginAdvance, ResumeEpisode, CancelEpisode, ResumeReconciliation, AfterModel, AfterTool, Settle;
    var r, p := a.runner, PhaseOf(w, a.runner);
    if !p.Idle? {
      var s := p.held.state;
      match a
      case Advance(_, catalog) =>
        ReportsNameTheStatus(s, catalog);
        SettleIdentity(w, id, r, p.held, BeginAdvance(s, catalog));
      case Resume(_, granted) =>
        OperatorsKeepIdentity(s, granted);
        SettleIdentity(w, id, r, p.held, ResumeEpisode(s, granted));
      case Cancel(_) =>
        OperatorsKeepIdentity(s, s.policy.allowance);
        SettleIdentity(w, id, r, p.held, CancelEpisode(s));
      case ResumeSuspended(_) =>
        OperatorsKeepIdentity(s, s.policy.allowance);
        SettleIdentity(w, id, r, p.held, ResumeReconciliation(s));
      case CommitModel(_) =>
        if p.ModelAnswered? {
          ModelAnswerNames(s, p.modelOutcome);
          SettleIdentity(w, id, r, p.held, AfterModel(s, p.modelOutcome));
        }
      case CommitTool(_) =>
        if p.ToolAnswered? && p.index < |s.operations| {
          ToolAnswerKeepsIdentity(s, p.index, p.toolOutcome);
          SettleIdentity(w, id, r, p.held, AfterTool(s, p.index, p.toolOutcome));
        }
      case _ =>
    }
  }

  predicate StepKeepsIdentity(s: EpisodeState, step: Fallible<Step>) {
    step.Ok? && !step.value.Rest? ==> step.value.state.id == s.id
  }

  lemma OperatorsKeepIdentity(s: EpisodeState, granted: Allowance)
    ensures StepKeepsIdentity(s, ResumeEpisode(s, granted))
    ensures StepKeepsIdentity(s, CancelEpisode(s))
    ensures StepKeepsIdentity(s, ResumeReconciliation(s))
  {
  }

  lemma ToolAnswerKeepsIdentity(s: EpisodeState, index: nat, outcome: ToolOutcome)
    requires index < |s.operations|
    ensures StepKeepsIdentity(s, AfterTool(s, index, outcome))
  {
  }

  /** The run behind a commit that makes no external call. */
  ghost method CommittedActions(before: map<EpisodeId, Versioned>, after: map<EpisodeId, Versioned>,
                                v: Versioned, catalog: Catalog, r: Fallible<Report>)
    returns (actions: seq<Action>)
    requires Fresh(before, v) && Commits(before, after, v, BeginAdvance(v.state, catalog), r)
    ensures Refines(before, after, v, actions, []) && Drives(actions, catalog)
    ensures Tells(r, v, catalog, actions, None, false) && |actions| <= 2
    ensures r.Ok? ==> Names(r.value, after[v.state.id].state.status)
  {
    hide BeginAdvance, Run;
    ReportsNameTheStatus(v.state, catalog);
    var a := Action.Advance(SOLO, catalog);
    if v.revision < U64_MAX || r.Err? {
      actions := CommandActions(v, a);
      CommitRun(before, after, v, a, r);
    } else {
      actions := [Load(SOLO), a];
      CommandRun(v, a);
    }
  }

  ghost method RecoveredActions(before: map<EpisodeId, Versioned>, after: map<EpisodeId, Versioned>,
                                v: Versioned, catalog: Catalog, r: Fallible<Report>)
    returns (actions: seq<Action>)
    requires Fresh(before, v) && v.state.status.ModelAttemptPending?
    requires v.state.attempts != [] && v.state.attempts[|v.state.attempts| - 1].status.Dispatching?
    requires Commits(before, after, v, RecoverDispatch(v.state), r)
    ensures Refines(before, after, v, actions, []) && Drives(actions, catalog)
    ensures Tells(r, v, catalog, actions, None, false) && |actions| <= 2
    ensures r.Ok? ==> Names(r.value, after[v.state.id].state.status)
  {
    assert BeginAdvance(v.state, catalog) == RecoverDispatch(v.state);
    hide RecoverDispatch, BeginAdvance;
    actions := CommittedActions(before, after, v, catalog, r);
  }
}

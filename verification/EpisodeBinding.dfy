/**
 Which input every model attempt is bound to: the initial input before the first turn, and after it
 the continuation of the last turn together with all results of that turn in call order.
 */
module EpisodeBinding {
  import opened Outcomes
  import opened EpisodeRecords
  import opened EpisodeReducer
  import opened EpisodeInvariant
  import opened EpisodeSegments
  import opened EpisodeAnswers
  import opened EpisodeWorld
  import opened EpisodeTheorems

  /** The input that follows the first `k` turns. */
  function Binding(s: EpisodeState, k: nat): Digest
    requires k <= |s.turns|
  {
    if k == 0 then s.initialInput
    else ContinuationInput(s.turns[k - 1].continuation, ResultsOf(s.operations, k))
  }

  /** How many turns were recorded before attempt `n` was prepared. */
  function TurnsBefore(turns: seq<Turn>, n: nat): (k: nat)
    ensures k <= |turns|
  {
    if turns == [] then 0
    else if turns[|turns| - 1].attempt < n then |turns|
    else TurnsBefore(turns[..|turns| - 1], n)
  }

  predicate BoundNow(s: EpisodeState) {
    s.nextInput == Binding(s, |s.turns|)
  }

  ghost predicate BoundHistory(s: EpisodeState) {
    forall i :: 0 <= i < |s.attempts| ==>
      s.attempts[i].request == Binding(s, TurnsBefore(s.turns, i + 1))
  }

  /** The last turn is still being worked on: it came from the last attempt. */
  ghost predicate OpenTurn(s: EpisodeState) {
    s.status.TurnRecorded? || s.status.StopReview? || s.status.ToolWorkPending? || HasUnfinished(s)
  }

  predicate AwaitsModel(status: EpisodeStatus) {
    status.Created? || status.ReadyForModel? || status.ModelAttemptPending? || status.Failed?
  }

  /** Every attempt asked for the right input, and the next one will. */
  ghost predicate InputsOk(s: EpisodeState) {
    && BoundHistory(s)
    && (AwaitsModel(s.status) ==> BoundNow(s))
    && (OpenTurn(s) ==>
          && s.turns != [] && s.attempts != []
          && s.turns[|s.turns| - 1].attempt == |s.attempts|
          && LastAttempt(s).request == s.nextInput)
  }

  // ----- Results of a turn do not depend on other turns

  lemma {:induction false} ResultsStable(ops: seq<Operation>, more: seq<Operation>, turn: nat)
    requires |ops| <= |more|
    requires forall j :: 0 <= j < |ops| ==>
               more[j].turn == ops[j].turn && (ops[j].turn == turn ==> more[j] == ops[j])
    requires forall j :: |ops| <= j < |more| ==> more[j].turn != turn
    ensures ResultsOf(more, turn) == ResultsOf(ops, turn)
    decreases |more|
  {
    if |ops| < |more| {
      ResultsStable(ops, more[..|more| - 1], turn);
    } else if more != [] {
      ResultsStable(ops[..|ops| - 1], more[..|more| - 1], turn);
    }
  }

  lemma {:induction false} NoResults(ops: seq<Operation>, turn: nat)
    requires forall j :: 0 <= j < |ops| ==> ops[j].turn != turn
    ensures ResultsOf(ops, turn) == []
  {
    if ops != [] {
      NoResults(ops[..|ops| - 1], turn);
    }
  }

  lemma {:induction false} AllTurnsBefore(turns: seq<Turn>, n: nat)
    requires forall k :: 0 <= k < |turns| ==> turns[k].attempt < n
    ensures TurnsBefore(turns, n) == |turns|
  {
  }

  // ----- Segments that touch neither turns nor operations

  lemma BindingKept(s: EpisodeState, t: EpisodeState, k: nat)
    requires k <= |s.turns| && s.turns <= t.turns && t.initialInput == s.initialInput
    requires t.operations == s.operations
    ensures Binding(t, k) == Binding(s, k)
  {
  }

  /** Attempts keep their requests, and turns and operations are the same. */
  lemma QuietBinding(s: EpisodeState, t: EpisodeState)
    requires InputsOk(s) && t.turns == s.turns && t.operations == s.operations
    requires t.initialInput == s.initialInput && |t.attempts| == |s.attempts|
    requires forall i :: 0 <= i < |s.attempts| ==> t.attempts[i].request == s.attempts[i].request
    requires AwaitsModel(t.status) ==> BoundNow(t)
    requires OpenTurn(t) ==> OpenTurn(s) && t.nextInput == s.nextInput
    ensures InputsOk(t)
  {
  }

  lemma PreparedBinding(s: EpisodeState, t: EpisodeState)
    requires InputsOk(s) && BoundNow(s) && TurnsOk(s) && !HasUnfinished(s)
    requires t == s.(attempts := s.attempts + [NewAttempt(s)], status := EpisodeStatus.ModelAttemptPending)
    ensures InputsOk(t)
  {
    AllTurnsBefore(s.turns, |s.attempts| + 1);
    forall i | 0 <= i < |t.attempts|
      ensures t.attempts[i].request == Binding(t, TurnsBefore(t.turns, i + 1))
    {
      if i < |s.attempts| {
        BindingKept(s, t, TurnsBefore(s.turns, i + 1));
      }
    }
  }

  lemma TurnBinding(s: EpisodeState, t: EpisodeState, turn: Turn)
    requires InputsOk(s) && s.status.ModelAttemptPending? && s.attempts != []
    requires LastAttempt(s).request == s.nextInput
    requires t.turns == s.turns + [turn] && turn.attempt == |s.attempts| && t.operations == s.operations
    requires t.initialInput == s.initialInput && |t.attempts| == |s.attempts| && t.nextInput == s.nextInput
    requires forall i :: 0 <= i < |s.attempts| ==> t.attempts[i].request == s.attempts[i].request
    requires t.status.TurnRecorded?
    ensures InputsOk(t)
  {
    forall i | 0 <= i < |t.attempts|
      ensures t.attempts[i].request == Binding(t, TurnsBefore(t.turns, i + 1))
    {
      assert t.turns[..|s.turns|] == s.turns;
      BindingKept(s, t, TurnsBefore(s.turns, i + 1));
    }
  }

  // ----- Tool work: only operations of the last turn change

  lemma {:induction false} EarlierThanLast(turns: seq<Turn>, n: nat)
    requires turns != [] && n <= turns[|turns| - 1].attempt
    ensures TurnsBefore(turns, n) < |turns|
  {
  }

  lemma WorkBinding(s: EpisodeState, t: EpisodeState)
    requires InputsOk(s) && OpenTurn(s)
    requires t.turns == s.turns && t.attempts == s.attempts
    requires t.initialInput == s.initialInput && t.nextInput == s.nextInput && !AwaitsModel(t.status)
    requires |s.operations| <= |t.operations|
    requires forall j :: 0 <= j < |s.operations| ==>
               && t.operations[j].turn == s.operations[j].turn
               && (s.operations[j].turn != |s.turns| ==> t.operations[j] == s.operations[j])
    requires forall j :: |s.operations| <= j < |t.operations| ==> t.operations[j].turn == |s.turns|
    ensures InputsOk(t)
  {
    forall i | 0 <= i < |t.attempts|
      ensures t.attempts[i].request == Binding(t, TurnsBefore(t.turns, i + 1))
    {
      EarlierThanLast(s.turns, i + 1);
      var k := TurnsBefore(s.turns, i + 1);
      ResultsStable(s.operations, t.operations, k);
    }
  }

  // ----- The reducer

  lemma OperationTurns(s: EpisodeState)
    requires StateInv(s)
    ensures forall j :: 0 <= j < |s.operations| ==> 1 <= s.operations[j].turn <= |s.turns|
    ensures forall k :: 0 <= k < |s.turns| ==> s.turns[k].number == k + 1 && s.turns[k].attempt <= |s.attempts|
    ensures !ToolPhase(s.status) ==> !HasUnfinished(s)
    ensures s.status.TurnRecorded? || s.status.StopReview? ==>
              forall j :: 0 <= j < |s.operations| ==> s.operations[j].turn < |s.turns|
  {
  }

  lemma ReadyBinding(s: EpisodeState)
    requires StateInv(s) && InputsOk(s) && s.status.ReadyForModel? && PrepareAttempt(s).Ok?
    ensures PrepareAttempt(s).value.Commit? && InputsOk(PrepareAttempt(s).value.state)
  {
    hide StateInv, InputsOk, TurnsBefore;
    assert TurnsOk(s) by { TurnsOf(s); }
    OperationTurns(s);
    BoundWhenReady(s);
    var t := PrepareAttempt(s).value.state;
    if t.status.ModelAttemptPending? {
      PreparedBinding(s, t);
    } else {
      QuietBinding(s, t);
    }
  }

  lemma TurnsOf(s: EpisodeState)
    requires StateInv(s)
    ensures TurnsOk(s)
  {
  }

  lemma BoundWhenReady(s: EpisodeState)
    requires InputsOk(s)
    ensures AwaitsModel(s.status) ==> BoundNow(s)
  {
  }

  lemma ModelBinding(s: EpisodeState)
    requires StateInv(s) && InputsOk(s) && s.status.ModelAttemptPending? && BeginModel(s).Ok?
    ensures match BeginModel(s).value
            case Commit(t, _) => InputsOk(t)
            case AskModel(t, _) => InputsOk(t)
            case _ => false
  {
    hide StateInv, InputsOk, TurnsBefore, RecoverDispatch;
    PendingFacts(s);
    OperationTurns(s);
    BoundWhenReady(s);
    if LastAttempt(s).status.Dispatching? {
      RecoverDispatchValue(s);
    }
    QuietBinding(s, BeginModel(s).value.state);
  }

  lemma PlanBinding(s: EpisodeState, catalog: Catalog)
    requires StateInv(s) && InputsOk(s) && s.status.TurnRecorded? && PlanTools(s, catalog).Ok?
    ensures PlanTools(s, catalog).value.Commit? && InputsOk(PlanTools(s, catalog).value.state)
  {
    hide StateInv, InputsOk, TurnsBefore, PlanTools;
    OperationTurns(s);
    PlanMoves(s, catalog);
    WorkBinding(s, PlanTools(s, catalog).value.state);
  }

  lemma ReviewBinding(s: EpisodeState)
    requires StateInv(s) && InputsOk(s) && s.status.StopReview? && ReviewStop(s).Ok?
    ensures ReviewStop(s).value.Commit? && InputsOk(ReviewStop(s).value.state)
  {
    hide StateInv, InputsOk, TurnsBefore;
    OperationTurns(s);
    NoResults(s.operations, |s.turns|);
    QuietBinding(s, ReviewStop(s).value.state);
  }

  lemma WorkedBinding(s: EpisodeState)
    requires StateInv(s) && InputsOk(s) && s.status.ToolWorkPending? && BeginTool(s).Ok?
    ensures match BeginTool(s).value
            case Commit(t, _) => InputsOk(t)
            case AskTool(t, _, _, _) => InputsOk(t)
            case _ => false
  {
    hide StateInv, InputsOk, TurnsBefore, DispatchRecord;
    OperationTurns(s);
    WorkFacts(s);
    var index := FirstUnfinished(s.operations);
    if index == |s.operations| {
      QuietBinding(s, BeginTool(s).value.state);
    } else {
      assert OperationOk(s, s.operations[index]);
      DispatchRecordMoves(s.operations[index]);
      WorkBinding(s, BeginTool(s).value.state);
    }
  }

  lemma AdvanceBinding(s: EpisodeState, catalog: Catalog)
    requires StateInv(s) && InputsOk(s) && BeginAdvance(s, catalog).Ok?
    ensures match BeginAdvance(s, catalog).value
            case Rest(_) => true
            case Commit(t, _) => InputsOk(t)
            case AskModel(t, _) => InputsOk(t)
            case AskTool(t, _, _, _) => InputsOk(t)
  {
    hide StateInv, InputsOk, PrepareAttempt, BeginModel, PlanTools, BeginTool, ReviewStop;
    match s.status
    case Created =>
      OperationTurns(s);
      BoundWhenReady(s);
      QuietBinding(s, s.(status := EpisodeStatus.ReadyForModel));
    case ReadyForModel => ReadyBinding(s);
    case ModelAttemptPending => ModelBinding(s);
    case TurnRecorded => PlanBinding(s, catalog);
    case ToolWorkPending => WorkedBinding(s);
    case StopReview => ReviewBinding(s);
    case CancellationPending =>
      QuietBinding(s, s.(status := EpisodeStatus.Cancelled));
    case _ =>
  }

  lemma ModelAnswerBinding(s: EpisodeState, request: ModelRequest, outcome: ModelOutcome)
    requires ModelHeld(s, request) && InputsOk(s) && AfterModel(s, outcome).Ok?
    ensures AfterModel(s, outcome).value.Commit? && InputsOk(AfterModel(s, outcome).value.state)
  {
    hide StateInv, InputsOk, AfterModel, TurnsBefore;
    PendingFacts(s);
    OperationTurns(s);
    BoundWhenReady(s);
    if outcome.TurnAnswer? {
      AfterTurnAnswer(s, outcome);
      var t := AfterModel(s, outcome).value.state;
      TurnBinding(s, t, t.turns[|s.turns|]);
    } else {
      AfterUnusableAnswer(s, outcome);
      QuietBinding(s, AfterModel(s, outcome).value.state);
    }
  }

  lemma ToolAnswerBinding(s: EpisodeState, index: nat, invocation: ToolInvocation, reconciling: bool,
                          outcome: ToolOutcome)
    requires ToolHeld(s, index, invocation, reconciling) && InputsOk(s)
    requires index < |s.operations| && AfterTool(s, index, outcome).Ok?
    ensures AfterTool(s, index, outcome).value.Commit? && InputsOk(AfterTool(s, index, outcome).value.state)
  {
    hide StateInv, InputsOk, AfterTool, TurnsBefore;
    HeldFacts(s, index, invocation, reconciling);
    WorkFacts(s);
    assert OperationOk(s, s.operations[index]);
    AfterToolValue(s, index, outcome);
    WorkBinding(s, AfterTool(s, index, outcome).value.state);
  }

  // ----- Operator commands

  lemma CancelBinding(s: EpisodeState)
    requires StateInv(s) && InputsOk(s) && CancelEpisode(s).Ok? && CancelEpisode(s).value.Commit?
    ensures InputsOk(CancelEpisode(s).value.state)
  {
    hide StateInv, InputsOk, CancelEpisode, TurnsBefore;
    NeverSuspensionRequested(s);
    DoubtFacts(s);
    OperationTurns(s);
    CancelShape(s);
    var t := CancelEpisode(s).value.state;
    var index := FirstDispatching(s.operations);
    if index == |s.operations| {
      QuietBinding(s, t);
    } else {
      assert s.operations[index].status.InFlight() && !s.operations[index].status.IsTerminal();
      UnfinishedIsLast(s, index);
      WorkBinding(s, t);
    }
  }

  lemma UnfinishedIsLast(s: EpisodeState, index: nat)
    requires StateInv(s) && index < |s.operations| && !s.operations[index].status.IsTerminal()
    ensures s.operations[index].turn == |s.turns|
  {
  }

  lemma ReconciliationBinding(s: EpisodeState)
    requires StateInv(s) && InputsOk(s) && s.status.Suspended? && ResumeReconciliation(s).Ok?
    ensures ResumeReconciliation(s).value.Commit? && InputsOk(ResumeReconciliation(s).value.state)
  {
    hide StateInv, InputsOk, TurnsBefore;
    SuspendedFacts(s);
    QuietBinding(s, ResumeReconciliation(s).value.state);
  }

  // ----- What a stopped episode holds

  /** No call of the last turn was admitted. */
  predicate Unadmitted(s: EpisodeState) {
    forall j :: 0 <= j < |s.operations| ==> s.operations[j].turn != |s.turns|
  }

  /** The last attempt gave a turn whose calls do not fit into the operation allowance. */
  predicate OverTools(s: EpisodeState) {
    && s.turns != [] && LastTurn(s).attempt == |s.attempts|
    && LastTurn(s).calls != [] && Unadmitted(s)
    && |s.operations| + |LastTurn(s).calls| > s.policy.allowance.maxOperations
  }

  /** A stop that left the last turn open: its request is still the stored input. */
  ghost predicate Stopped(s: EpisodeState) {
    && s.turns != [] && s.attempts != [] && LastTurn(s).attempt == |s.attempts|
    && Unadmitted(s) && LastAttempt(s).request == s.nextInput
  }

  ghost predicate StopsOk(s: EpisodeState) {
    && (s.status.Created? || s.status.ReadyForModel? || s.status.StopReview? ==> !OverTools(s))
    && (s.status.Failed? ==> s.attempts != [] && !LastAttempt(s).status.Decoded?)
    && (s.status.Incomplete? ==> Stopped(s))
    && (s.status.BudgetExhausted? ==> if OverTools(s) then Stopped(s) else BoundNow(s))
  }

  ghost predicate BindingOk(s: EpisodeState) {
    InputsOk(s) && StopsOk(s)
  }

  /** Statuses for which a stop promises nothing. */
  predicate Working(status: EpisodeStatus) {
    status.ModelAttemptPending? || status.TurnRecorded? || ToolPhase(status) || status.Succeeded?
  }

  lemma WorkingStops(s: EpisodeState)
    requires Working(s.status)
    ensures StopsOk(s)
  {
  }

  /** An attempt that gave no turn is newer than every turn. */
  lemma FailedAttemptIsNewest(s: EpisodeState)
    requires TurnsOk(s) && s.attempts != [] && !LastAttempt(s).status.Decoded?
    ensures !OverTools(s)
  {
    if s.turns != [] {
      TurnsPredateLastAttempt(s, |s.turns| - 1);
    }
  }

  lemma ReadyStops(s: EpisodeState)
    requires BindingOk(s) && s.status.ReadyForModel? && PrepareAttempt(s).Ok?
    ensures StopsOk(PrepareAttempt(s).value.state)
  {
    hide TurnsBefore;
  }

  lemma ClosedStops(s: EpisodeState, t: EpisodeState)
    requires TurnsOk(t) && t.attempts != [] && !LastAttempt(t).status.Decoded?
    requires InputsOk(s) && s.status.ModelAttemptPending?
    requires t.turns == s.turns && t.operations == s.operations
    requires t.initialInput == s.initialInput && t.nextInput == s.nextInput
    requires t.status.ReadyForModel? || t.status.Failed? || t.status.BudgetExhausted?
    ensures StopsOk(t)
  {
    hide TurnsBefore;
    FailedAttemptIsNewest(t);
  }

  lemma ModelStops(s: EpisodeState)
    requires StateInv(s) && BindingOk(s) && s.status.ModelAttemptPending? && BeginModel(s).Ok?
    ensures BeginModel(s).value.Commit? || BeginModel(s).value.AskModel?
    ensures StopsOk(BeginModel(s).value.state)
  {
    hide StateInv, InputsOk, StopsOk, RecoverDispatch;
    PendingFacts(s);
    BeginModelKeeps(s);
    if LastAttempt(s).status.Dispatching? {
      RecoverDispatchValue(s);
      var t := BeginModel(s).value.state;
      TurnsOf(t);
      ClosedStops(s, t);
    } else {
      WorkingStops(BeginModel(s).value.state);
    }
  }

  lemma PlanStops(s: EpisodeState, catalog: Catalog)
    requires StateInv(s) && BindingOk(s) && s.status.TurnRecorded? && PlanTools(s, catalog).Ok?
    ensures PlanTools(s, catalog).value.Commit? && StopsOk(PlanTools(s, catalog).value.state)
  {
    hide StateInv, TurnsBefore, PlanTools, BoundHistory;
    OperationTurns(s);
    PlanMoves(s, catalog);
  }

  lemma ReviewStops(s: EpisodeState)
    requires StateInv(s) && BindingOk(s) && s.status.StopReview? && ReviewStop(s).Ok?
    ensures ReviewStop(s).value.Commit? && StopsOk(ReviewStop(s).value.state)
  {
    hide StateInv, TurnsBefore;
    OperationTurns(s);
  }

  lemma WorkedStops(s: EpisodeState)
    requires StateInv(s) && s.status.ToolWorkPending? && BeginTool(s).Ok?
    ensures BeginTool(s).value.Commit? || BeginTool(s).value.AskTool?
    ensures StopsOk(BeginTool(s).value.state)
  {
    hide StateInv, DispatchRecord, TurnsBefore;
    WorkIsLast(s);
  }

  lemma WorkIsLast(s: EpisodeState)
    requires StateInv(s) && s.status.ToolWorkPending?
    ensures s.operations != [] && s.operations[|s.operations| - 1].turn == |s.turns|
  {
  }

  lemma AdvanceStops(s: EpisodeState, catalog: Catalog)
    requires StateInv(s) && BindingOk(s) && BeginAdvance(s, catalog).Ok?
    ensures match BeginAdvance(s, catalog).value
            case Rest(_) => true
            case Commit(t, _) => StopsOk(t)
            case AskModel(t, _) => StopsOk(t)
            case AskTool(t, _, _, _) => StopsOk(t)
  {
    hide StateInv, InputsOk, PrepareAttempt, BeginModel, PlanTools, BeginTool, ReviewStop;
    match s.status
    case ReadyForModel => ReadyBinding(s); ReadyStops(s);
    case ModelAttemptPending => ModelStops(s);
    case TurnRecorded => PlanStops(s, catalog);
    case ToolWorkPending => WorkedStops(s);
    case StopReview => ReviewStops(s);
    case _ =>
  }

  lemma ModelAnswerStops(s: EpisodeState, request: ModelRequest, outcome: ModelOutcome)
    requires ModelHeld(s, request) && BindingOk(s) && AfterModel(s, outcome).Ok?
    ensures AfterModel(s, outcome).value.Commit? && StopsOk(AfterModel(s, outcome).value.state)
  {
    hide StateInv, InputsOk, StopsOk, AfterModel, Evolves;
    PendingFacts(s);
    AfterModelKeeps(s, request, outcome);
    if outcome.TurnAnswer? {
      AfterTurnAnswer(s, outcome);
      WorkingStops(AfterModel(s, outcome).value.state);
    } else {
      AfterUnusableAnswer(s, outcome);
      var t := AfterModel(s, outcome).value.state;
      TurnsOf(t);
      ClosedStops(s, t);
    }
  }

  // ----- Reopening

  /** A stop that was not rebound: Incomplete, or a turn refused for its number of operations. */
  predicate LeftOpen(s: EpisodeState) {
    s.status.Incomplete? || (s.status.BudgetExhausted? && OverTools(s))
  }

  /** The last attempt had asked for its own turn's continuation, with no results. */
  predicate AskedForItsAnswer(s: EpisodeState) {
    s.turns != [] && s.attempts != [] && LastAttempt(s).request == ContinuationInput(LastTurn(s).continuation, [])
  }

  lemma StoppedFacts(s: EpisodeState)
    requires StateInv(s) && BindingOk(s)
    requires s.status.Failed? || s.status.Incomplete? || s.status.BudgetExhausted?
    ensures LeftOpen(s) ==> Stopped(s)
    ensures BoundNow(s) <==> !LeftOpen(s) || AskedForItsAnswer(s)
  {
    hide StateInv, TurnsBefore;
    if LeftOpen(s) {
      NoResults(s.operations, |s.turns|);
    }
  }

  /** What reopening does to the binding, by the status it stopped in and the last turn. After a stop
      that left the last turn open, the next attempt repeats the last request word for word; it asks
      for what the last turn calls for only if that request had been its own answer. After every other
      stop it asks for exactly what the last turn calls for. */
  lemma ResumeBindsExactly(s: EpisodeState, granted: Allowance)
    requires StateInv(s) && BindingOk(s)
    requires ResumeEpisode(s, granted).Ok? && ResumeEpisode(s, granted).value.Commit?
    ensures var t := ResumeEpisode(s, granted).value.state;
            && (LeftOpen(s) ==> s.attempts != [] && NewAttempt(t).request == LastAttempt(s).request)
            && (NewAttempt(t).request == Binding(t, |t.turns|) <==> !LeftOpen(s) || AskedForItsAnswer(s))
            && (InputsOk(t) <==> !LeftOpen(s) || AskedForItsAnswer(s))
  {
    hide StateInv, InputsOk, StopsOk, ResumeEpisode, TurnsBefore, LeftOpen, AskedForItsAnswer;
    ResumeKeeps(s, granted);
    StoppedFacts(s);
    var t := ResumeEpisode(s, granted).value.state;
    BindingKept(s, t, |s.turns|);
    ReopenedInputs(s, t);
  }

  lemma ReopenedInputs(s: EpisodeState, t: EpisodeState)
    requires StateInv(s) && InputsOk(s)
    requires s.status.Failed? || s.status.Incomplete? || s.status.BudgetExhausted?
    requires t == s.(status := EpisodeStatus.ReadyForModel, policy := t.policy, grants := t.grants)
    ensures InputsOk(t) <==> BoundNow(s)
  {
    hide StateInv, TurnsBefore;
    OperationTurns(s);
    BindingKept(s, t, |s.turns|);
    if BoundNow(s) {
      QuietBinding(s, t);
    }
  }

  /** The aggregate that a resume commits. */
  function Reopened(s: EpisodeState, granted: Allowance): EpisodeState {
    s.(status := EpisodeStatus.ReadyForModel, policy := s.policy.WithAllowance(granted),
       grants := s.grants + [Grant(s.status, s.policy.allowance, granted)], cancelRequested := false)
  }

  lemma OpenTurnRepeats(s: EpisodeState, stopped: EpisodeState, granted: Allowance)
    requires StateInv(s) && InputsOk(s) && (s.status.StopReview? || s.status.TurnRecorded?)
    requires stopped == s.(status := stopped.status)
    requires stopped.status.Incomplete? || stopped.status.BudgetExhausted?
    requires s.policy.WithAllowance(granted).Valid()
    requires |s.turns| < granted.maxTurns && |s.attempts| < granted.maxAttempts
    requires forall i :: 0 <= i < |s.turns| ==> ValidTurn(s.turns[i].narrative, s.turns[i].calls)
    ensures var resumed := Reopened(stopped, granted);
            && ResumeEpisode(stopped, granted) == Ok(Commit(resumed, Progressed(stopped.status)))
            && PrepareAttempt(resumed).Ok?
            && s.attempts != [] && NewAttempt(resumed).request == LastAttempt(s).request
            && (BoundNow(resumed) <==> AskedForItsAnswer(s))
  {
    hide StateInv, TurnsBefore;
    OperationTurns(s);
    ReopenableFacts(s);
    NoResults(s.operations, |s.turns|);
    assert !(exists i :: 0 <= i < |stopped.turns| && !ValidTurn(stopped.turns[i].narrative, stopped.turns[i].calls));
  }

  /** An episode that stopped as Incomplete is reopened with a stale input: its next attempt repeats
      the request that had already produced the last turn, and is not bound to that turn. */
  lemma IncompleteResumeRepeats(s: EpisodeState, catalog: Catalog, granted: Allowance)
    requires StateInv(s) && InputsOk(s) && s.status.StopReview?
    requires !s.satisfied && s.stopFeedback == s.policy.rules.maxStopFeedback
    requires s.policy.WithAllowance(granted).Valid()
    requires |s.turns| < granted.maxTurns && |s.attempts| < granted.maxAttempts
    requires forall i :: 0 <= i < |s.turns| ==> ValidTurn(s.turns[i].narrative, s.turns[i].calls)
    ensures var stopped := s.(status := EpisodeStatus.Incomplete);
            && BeginAdvance(s, catalog) == Ok(Commit(stopped, Terminal(EpisodeStatus.Incomplete)))
            && ResumeEpisode(stopped, granted) == Ok(Commit(Reopened(stopped, granted), Progressed(stopped.status)))
            && s.attempts != [] && NewAttempt(Reopened(stopped, granted)).request == LastAttempt(s).request
            && (BoundNow(Reopened(stopped, granted)) <==> AskedForItsAnswer(s))
  {
    hide StateInv, InputsOk, AskedForItsAnswer;
    OpenTurnRepeats(s, s.(status := EpisodeStatus.Incomplete), granted);
  }

  /** So is an episode whose last turn was refused for its number of operations. */
  lemma RefusedTurnResumeRepeats(s: EpisodeState, catalog: Catalog, granted: Allowance)
    requires StateInv(s) && InputsOk(s) && s.status.TurnRecorded? && s.turns != []
    requires |s.operations| + |LastTurn(s).calls| > s.policy.allowance.maxOperations
    requires LastTurn(s).calls != []
    requires s.policy.WithAllowance(granted).Valid()
    requires |s.turns| < granted.maxTurns && |s.attempts| < granted.maxAttempts
    requires forall i :: 0 <= i < |s.turns| ==> ValidTurn(s.turns[i].narrative, s.turns[i].calls)
    ensures var stopped := s.(status := EpisodeStatus.BudgetExhausted);
            && BeginAdvance(s, catalog) == Ok(Commit(stopped, Terminal(EpisodeStatus.BudgetExhausted)))
            && ResumeEpisode(stopped, granted) == Ok(Commit(Reopened(stopped, granted), Progressed(stopped.status)))
            && s.attempts != [] && NewAttempt(Reopened(stopped, granted)).request == LastAttempt(s).request
            && (BoundNow(Reopened(stopped, granted)) <==> AskedForItsAnswer(s))
  {
    hide StateInv, InputsOk, AskedForItsAnswer;
    TurnFacts(s);
    OpenTurnRepeats(s, s.(status := EpisodeStatus.BudgetExhausted), granted);
  }

  /** Reopening a failed episode keeps everything. */
  lemma FailedResumeBinding(s: EpisodeState, granted: Allowance)
    requires StateInv(s) && BindingOk(s) && s.status.Failed?
    requires ResumeEpisode(s, granted).Ok? && ResumeEpisode(s, granted).value.Commit?
    ensures BindingOk(ResumeEpisode(s, granted).value.state)
  {
    hide StateInv, InputsOk, ResumeEpisode, TurnsBefore;
    ResumeKeeps(s, granted);
    ResumeBindsExactly(s, granted);
    TurnsOf(s);
    FailedAttemptIsNewest(s);
    var t := ResumeEpisode(s, granted).value.state;
    TurnsOf(t);
    FailedAttemptIsNewest(t);
  }

  // ----- Runs

  /** A resume that wins its race and reopens the episode finds it failed. */
  predicate ResumesFailed(w: World, a: Action) {
    a.Resume? && PhaseOf(w, a.runner).Loaded?
    && PhaseOf(w, a.runner).held.revision == w.current.revision
    && PhaseOf(w, a.runner).held.state.status.IsTerminal() ==>
      PhaseOf(w, a.runner).held.state.status.Failed?
  }

  lemma NextBinding(w: World, a: Action)
    requires WorldInv(w) && BindingOk(w.current.state) && ResumesFailed(w, a)
    ensures BindingOk(Next(w, a).current.state)
  {
    hide StateInv, Evolves, PermitsOk, LogOk, StepKeeps, InputsOk, StopsOk,
      BeginAdvance, ResumeEpisode, CancelEpisode, ResumeReconciliation, AfterModel, AfterTool;
    var p := PhaseOf(w, a.runner);
    assert PhaseOk(w.current, p);
    if !p.Idle? && p.held.revision == w.current.revision {
      var s := p.held.state;
      match a
      case Advance(_, catalog) =>
        if p.Loaded? && BeginAdvance(s, catalog).Ok? {
          AdvanceBinding(s, catalog);
          AdvanceStops(s, catalog);
        }
      case Resume(_, granted) =>
        if p.Loaded? && ResumeEpisode(s, granted).Ok? {
          ResumeKeeps(s, granted);
          ResumeCommitsOnly(s, granted);
          if ResumeEpisode(s, granted).value.Commit? {
            FailedResumeBinding(s, granted);
          }
        }
      case Cancel(_) =>
        CancelKeeps(s);
        if p.Loaded? && CancelEpisode(s).value.Commit? {
          CancelBinding(s);
          CancelStops(s);
        }
      case ResumeSuspended(_) =>
        ReconciliationKeeps(s);
        if p.Loaded? && ResumeReconciliation(s).Ok? {
          ReconciliationBinding(s);
          ReconciliationStops(s);
        }
      case CommitModel(_) =>
        if p.ModelAnswered? && AfterModel(s, p.modelOutcome).Ok? {
          ModelAnswerBinding(s, p.request, p.modelOutcome);
          ModelAnswerStops(s, p.request, p.modelOutcome);
        }
      case CommitTool(_) =>
        if p.ToolAnswered? && p.index < |s.operations| && AfterTool(s, p.index, p.toolOutcome).Ok? {
          ToolAnswerBinding(s, p.index, p.invocation, p.reconciling, p.toolOutcome);
          ToolAnswerStops(s, p.index, p.toolOutcome);
        }
      case _ =>
    }
  }

  lemma CancelStops(s: EpisodeState)
    requires StateInv(s) && CancelEpisode(s).Ok? && CancelEpisode(s).value.Commit?
    ensures StopsOk(CancelEpisode(s).value.state)
  {
    hide StateInv, StopsOk, CancelEpisode;
    NeverSuspensionRequested(s);
    DoubtFacts(s);
    CancelShape(s);
    WorkingStops(CancelEpisode(s).value.state);
  }

  lemma ReconciliationStops(s: EpisodeState)
    requires StateInv(s) && s.status.Suspended? && ResumeReconciliation(s).Ok?
    ensures StopsOk(ResumeReconciliation(s).value.state)
  {
    hide StateInv, StopsOk;
    SuspendedFacts(s);
    WorkingStops(ResumeReconciliation(s).value.state);
  }

  lemma ToolAnswerStops(s: EpisodeState, index: nat, outcome: ToolOutcome)
    requires index < |s.operations| && s.status.ToolWorkPending? && AfterTool(s, index, outcome).Ok?
    ensures StopsOk(AfterTool(s, index, outcome).value.state)
  {
    hide StopsOk;
    WorkingStops(AfterTool(s, index, outcome).value.state);
  }

  /** The only resumes that reopen the episode reopen it from Failed. */
  predicate OnlyFailedResumed(w: World, actions: seq<Action>)
    decreases |actions|
  {
    actions == [] || (ResumesFailed(w, actions[0]) && OnlyFailedResumed(Next(w, actions[0]), actions[1..]))
  }

  lemma {:induction false} RunBinding(w: World, actions: seq<Action>)
    requires WorldInv(w) && BindingOk(w.current.state) && OnlyFailedResumed(w, actions)
    ensures BindingOk(Run(w, actions).current.state)
    decreases |actions|
  {
    hide WorldInv, BindingOk, ResumesFailed, Next;
    if actions != [] {
      NextBinding(w, actions[0]);
      NextKeeps(w, actions[0]);
      RunBinding(Next(w, actions[0]), actions[1..]);
    }
  }

  lemma InitialBinding(id: EpisodeId, policy: Policy, input: Digest)
    requires InitialState(id, policy, input).Ok?
    ensures BindingOk(InitialState(id, policy, input).value)
  {
  }

  /** In every run whose only resumes are from Failed, each attempt ever prepared asked for exactly the
      input that the turns before it call for, and whenever the episode awaits the model it holds the
      input that the next attempt must ask for. */
  lemma AttemptsAreBound(id: EpisodeId, policy: Policy, input: Digest, actions: seq<Action>)
    requires InitialState(id, policy, input).Ok?
    requires OnlyFailedResumed(Start(InitialState(id, policy, input).value), actions)
    ensures var s := Run(Start(InitialState(id, policy, input).value), actions).current.state;
            && BoundHistory(s)
            && (AwaitsModel(s.status) ==> BoundNow(s))
  {
    hide StateInv, OnlyFailedResumed, Run, HoldersOk, PermitsOk, LogOk;
    var s := InitialState(id, policy, input).value;
    InitialStateInv(id, policy, input);
    StartInv(s);
    InitialBinding(id, policy, input);
    RunBinding(Start(s), actions);
  }
}

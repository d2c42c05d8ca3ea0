/**
 Each reducer segment, started from a state that satisfies the invariant: it is legal, it keeps the
 invariant, and it only extends the history.
 */
module EpisodeSegments {
  import opened Outcomes
  import opened EpisodeRecords
  import opened EpisodeReducer
  import opened EpisodeInvariant
  import opened EpisodeToolWork

  // ----- What a runner holds between its two commits

  function InvocationOf(o: Operation): ToolInvocation {
    ToolInvocation(o.id, o.call, o.input)
  }

  function RequestOf(s: EpisodeState): ModelRequest
    requires s.attempts != []
  {
    ModelRequest(LastAttempt(s).number, |s.turns| + 1, LastAttempt(s).request)
  }

  ghost predicate ModelHeld(t: EpisodeState, request: ModelRequest) {
    && StateInv(t) && t.status.ModelAttemptPending?
    && LastAttempt(t).status.Dispatching?
    && request == RequestOf(t)
  }

  ghost predicate ToolHeld(t: EpisodeState, index: nat, invocation: ToolInvocation, reconciling: bool) {
    && StateInv(t) && t.status.ToolWorkPending?
    && index == FirstUnfinished(t.operations) < |t.operations|
    && invocation == InvocationOf(t.operations[index])
    && (if reconciling
        then t.operations[index].status.Reconciling? || t.operations[index].status.Running?
        else t.operations[index].status.Dispatching?)
  }

  // ----- History

  lemma EvolvesQuietly(s: EpisodeState, t: EpisodeState)
    requires t.id == s.id && t.policy.rules == s.policy.rules && t.initialInput == s.initialInput
    requires s.attempts <= t.attempts && s.turns <= t.turns && s.operations <= t.operations
    requires s.grants <= t.grants && s.stopFeedback <= t.stopFeedback
    requires s.ambiguousAttempts <= t.ambiguousAttempts
    requires (s.satisfied ==> t.satisfied) && (s.cancelRequested ==> t.cancelRequested)
    ensures Evolves(s, t)
  {
  }

  lemma EvolvesByAttempt(s: EpisodeState, t: EpisodeState, a: ModelAttempt)
    requires s.attempts != [] && AttemptEvolves(LastAttempt(s), a)
    requires t == s.(attempts := s.attempts[|s.attempts| - 1 := a], turns := t.turns, status := t.status,
                     ambiguousAttempts := t.ambiguousAttempts, cancelRequested := t.cancelRequested)
    requires s.turns <= t.turns && s.ambiguousAttempts <= t.ambiguousAttempts
    requires s.cancelRequested ==> t.cancelRequested
    ensures Evolves(s, t)
  {
  }

  lemma EvolvesByOperation(s: EpisodeState, t: EpisodeState, index: nat, o: Operation)
    requires index < |s.operations| && OperationEvolves(s.operations[index], o)
    requires t == s.(operations := s.operations[index := o], status := t.status, satisfied := t.satisfied,
                     cancelRequested := t.cancelRequested)
    requires (s.satisfied ==> t.satisfied) && (s.cancelRequested ==> t.cancelRequested)
    ensures Evolves(s, t)
  {
  }

  // ----- advance, first segment

  ghost predicate StepKeeps(s: EpisodeState, step: Step) {
    match step
    case Rest(_) => true
    case Commit(t, _) => StateInv(t) && Evolves(s, t)
    case AskModel(t, request) =>
      && 0 < |s.attempts| == |t.attempts|
      && s.status.ModelAttemptPending? && LastAttempt(s).status.Prepared?
      && ModelHeld(t, request) && Evolves(s, t)
    case AskTool(t, index, invocation, reconciling) =>
      && index < |s.operations| == |t.operations|
      && (!reconciling ==> s.operations[index].status.Requested?)
      && ToolHeld(t, index, invocation, reconciling) && Evolves(s, t)
  }

  // What each status promises, for proofs that need nothing else of the invariant.

  lemma PendingFacts(s: EpisodeState)
    requires StateInv(s) && s.status.ModelAttemptPending?
    ensures s.attempts != [] && (LastAttempt(s).status.Prepared? || LastAttempt(s).status.Dispatching?)
    ensures LastAttempt(s).request == s.nextInput && |s.turns| < s.policy.allowance.maxTurns
    ensures LastAttempt(s).number == |s.attempts| <= U32_MAX
    ensures !s.cancelRequested && s.ambiguousAttempts < U32_MAX
  {
  }

  lemma TurnFacts(s: EpisodeState)
    requires StateInv(s) && (s.status.TurnRecorded? || s.status.StopReview?)
    ensures s.turns != [] && |s.turns[|s.turns| - 1].calls| <= U32_MAX && !HasUnfinished(s)
  {
  }

  lemma WorkFacts(s: EpisodeState)
    requires StateInv(s) && s.status.ToolWorkPending?
    ensures s.turns != [] && s.stopFeedback <= s.policy.rules.maxStopFeedback
    ensures forall j :: 0 <= j < |s.operations| ==> OperationOk(s, s.operations[j])
  {
  }

  lemma PrepareAttemptKeeps(s: EpisodeState)
    requires StateInv(s) && s.status.ReadyForModel?
    ensures PrepareAttempt(s).Ok? && StepKeeps(s, PrepareAttempt(s).value)
  {
    hide StateInv, Evolves;
    if s.cancelRequested {
      PlainMoveInv(s, EpisodeStatus.CancellationPending);
      EvolvesQuietly(s, s.(status := EpisodeStatus.CancellationPending));
    } else if |s.turns| >= s.policy.allowance.maxTurns || |s.attempts| >= s.policy.allowance.maxAttempts {
      PlainMoveInv(s, EpisodeStatus.BudgetExhausted);
      EvolvesQuietly(s, s.(status := EpisodeStatus.BudgetExhausted));
    } else {
      AttemptPreparedInv(s);
      EvolvesQuietly(s, s.(attempts := s.attempts + [NewAttempt(s)], status := EpisodeStatus.ModelAttemptPending));
    }
  }

  lemma BeginModelKeeps(s: EpisodeState)
    requires StateInv(s) && s.status.ModelAttemptPending?
    ensures BeginModel(s).Ok? && StepKeeps(s, BeginModel(s).value)
  {
    hide StateInv, Evolves;
    PendingFacts(s);
    var last := LastAttempt(s);
    if last.status.Dispatching? {
      RecoverDispatchKeeps(s);
    } else {
      var a := last.(status := AttemptStatus.Dispatching);
      AttemptDispatchedInv(s, a);
      EvolvesByAttempt(s, WithLastAttempt(s, a), a);
    }
  }

  lemma RecoverDispatchValue(s: EpisodeState)
    requires s.attempts != [] && LastAttempt(s).status.Dispatching? && s.status.ModelAttemptPending?
    requires !s.cancelRequested && s.ambiguousAttempts < U32_MAX
    ensures var a := LastAttempt(s).(status := AttemptStatus.Ambiguous, diagnostic := None);
            var counted := WithLastAttempt(s, a).(ambiguousAttempts := s.ambiguousAttempts + 1);
            var next := AfterAmbiguity(counted);
            && RecoverDispatch(s) == Ok(Commit(counted.(status := next), ProgressReport(next)))
            && Counted(s, next, s.ambiguousAttempts + 1)
            && (next.BudgetExhausted? || next.ReadyForModel?)
  {
  }

  lemma RecoverDispatchKeeps(s: EpisodeState)
    requires StateInv(s) && s.status.ModelAttemptPending?
    requires s.attempts != [] && LastAttempt(s).status.Dispatching?
    ensures RecoverDispatch(s).Ok? && StepKeeps(s, RecoverDispatch(s).value)
  {
    hide StateInv, Evolves, RecoverDispatch;
    PendingFacts(s);
    RecoverDispatchValue(s);
    var a := LastAttempt(s).(status := AttemptStatus.Ambiguous, diagnostic := None);
    var t := RecoverDispatch(s).value.state;
    AttemptClosedInv(s, a, t.status, s.ambiguousAttempts + 1);
    EvolvesByAttempt(s, t, a);
  }

  lemma ReviewStopKeeps(s: EpisodeState)
    requires StateInv(s) && s.status.StopReview?
    ensures ReviewStop(s).Ok? && StepKeeps(s, ReviewStop(s).value)
  {
    hide StateInv, Evolves;
    TurnFacts(s);
    if s.satisfied {
      PlainMoveInv(s, EpisodeStatus.Succeeded);
      EvolvesQuietly(s, s.(status := EpisodeStatus.Succeeded));
    } else if s.stopFeedback < s.policy.rules.maxStopFeedback {
      var input := ContinuationInput(s.turns[|s.turns| - 1].continuation, []);
      ReboundInv(s, input, s.stopFeedback + 1);
      EvolvesQuietly(s, s.(nextInput := input, stopFeedback := s.stopFeedback + 1,
                           status := EpisodeStatus.ReadyForModel));
    } else {
      PlainMoveInv(s, EpisodeStatus.Incomplete);
      EvolvesQuietly(s, s.(status := EpisodeStatus.Incomplete));
    }
  }

  /** A turn that fits both budgets, one of whose records would lack a label. */
  predicate LacksLabel(s: EpisodeState, catalog: Catalog) {
    && s.turns != []
    && var turn := s.turns[|s.turns| - 1];
       && turn.calls != []
       && |s.operations| + |turn.calls| <= s.policy.allowance.maxOperations
       && |turn.calls| <= s.policy.rules.maxCallsPerTurn
       && !Recordable(turn, catalog)
  }

  /** Planning refuses exactly the turns that fit both budgets and lack a label. A turn that exceeds a
      budget is stopped or sent to review, whatever its labels. */
  lemma PlanToolsKeeps(s: EpisodeState, catalog: Catalog)
    requires StateInv(s) && s.status.TurnRecorded? && s.turns != []
    ensures PlanTools(s, catalog).Ok? ==> StepKeeps(s, PlanTools(s, catalog).value)
    ensures PlanTools(s, catalog).Err? <==> LacksLabel(s, catalog)
    ensures PlanTools(s, catalog).Err? ==> PlanTools(s, catalog).error == EmptyField
  {
    hide StateInv, Evolves;
    TurnFacts(s);
    var turn := s.turns[|s.turns| - 1];
    if turn.calls == [] {
      PlainMoveInv(s, EpisodeStatus.StopReview);
      EvolvesQuietly(s, s.(status := EpisodeStatus.StopReview));
    } else if |s.operations| + |turn.calls| > s.policy.allowance.maxOperations {
      PlainMoveInv(s, EpisodeStatus.BudgetExhausted);
      EvolvesQuietly(s, s.(status := EpisodeStatus.BudgetExhausted));
    } else if |turn.calls| > s.policy.rules.maxCallsPerTurn {
      PlainMoveInv(s, EpisodeStatus.StopReview);
      EvolvesQuietly(s, s.(status := EpisodeStatus.StopReview));
    } else {
      ToolsPlannedInv(s, turn, catalog);
      EvolvesQuietly(s, s.(operations := s.operations + PlannedOperations(turn, s.nextInput, catalog),
                           status := EpisodeStatus.ToolWorkPending));
    }
  }

  /** Planning moves on, and adds no more unfinished work than one turn may hold. */
  lemma PlanMoves(s: EpisodeState, catalog: Catalog)
    requires s.status.TurnRecorded? && PlanTools(s, catalog).Ok?
    ensures PlanTools(s, catalog).value.Commit?
    ensures var t := PlanTools(s, catalog).value.state;
            && t == s.(operations := t.operations, status := t.status)
            && (t.status.StopReview? || t.status.BudgetExhausted? || t.status.ToolWorkPending?)
            && s.operations <= t.operations
            && |t.operations| - |s.operations| <= s.policy.rules.maxCallsPerTurn
            && s.turns != []
            && (forall j :: |s.operations| <= j < |t.operations| ==>
                  t.operations[j].turn == s.turns[|s.turns| - 1].number)
            && (!t.status.ToolWorkPending? ==> t.operations == s.operations)
            && (t.status.ToolWorkPending? ==> |s.operations| < |t.operations|)
            && (t.status.BudgetExhausted? ==>
                  && s.turns[|s.turns| - 1].calls != []
                  && |s.operations| + |s.turns[|s.turns| - 1].calls| > s.policy.allowance.maxOperations)
            && (t.status.StopReview? ==>
                  || s.turns[|s.turns| - 1].calls == []
                  || |s.operations| + |s.turns[|s.turns| - 1].calls| <= s.policy.allowance.maxOperations)
  {
  }

  lemma DispatchRecordMoves(o: Operation)
    requires o.status.Requested? || o.status.InFlight()
    ensures DispatchRecord(o).Ok?
    ensures var record := DispatchRecord(o).value;
            && SameIdentity(o, record) && record.result == o.result && OperationEvolves(o, record)
            && (if o.status.Requested? then record.status.Dispatching?
                else record.status.Reconciling? || record.status.Running?)
  {
  }

  lemma ToolAdvance(s: EpisodeState, catalog: Catalog)
    requires s.status.ToolWorkPending?
    ensures BeginAdvance(s, catalog) == BeginTool(s)
    ensures var index := FirstUnfinished(s.operations);
            index < |s.operations| ==>
              var record := DispatchRecord(s.operations[index]);
              if record.Err? then BeginTool(s) == Err(record.error)
              else BeginTool(s) ==
                   Ok(AskTool(s.(operations := s.operations[index := record.value]), index,
                              ToolInvocation(record.value.id, record.value.call, s.nextInput),
                              record.value.status.Reconciling? || record.value.status.Running?))
  {
  }

  lemma BeginToolKeeps(s: EpisodeState)
    requires StateInv(s) && s.status.ToolWorkPending?
    ensures BeginTool(s).Ok? && StepKeeps(s, BeginTool(s).value)
  {
    hide StateInv, Evolves, DispatchRecord;
    WorkFacts(s);
    var index := FirstUnfinished(s.operations);
    if index == |s.operations| {
      ReboundInv(s, ContinuationOf(s), s.stopFeedback);
      EvolvesQuietly(s, s.(nextInput := ContinuationOf(s), status := EpisodeStatus.ReadyForModel));
    } else {
      var o := s.operations[index];
      assert OperationOk(s, o);
      DispatchRecordMoves(o);
      var record := DispatchRecord(o).value;
      OperationMovedInv(s, index, record, s.status);
      var t := s.(operations := s.operations[index := record]);
      assert t == s.(operations := s.operations[index := record], status := s.status);
      EvolvesByOperation(s, t, index, record);
      StillFirst(s.operations, index, record);
    }
  }

  lemma StillFirst(ops: seq<Operation>, index: nat, o: Operation)
    requires index == FirstUnfinished(ops) < |ops| && !o.status.IsTerminal()
    ensures FirstUnfinished(ops[index := o]) == index
  {
    var updated := ops[index := o];
    var found := FirstUnfinished(updated);
    assert index <= found < index || updated[index] == o;
    assert found < index ==> !updated[found].status.IsTerminal();
  }

  /** The first segment fails exactly when it plans a turn that lacks a label. */
  lemma BeginAdvanceKeeps(s: EpisodeState, catalog: Catalog)
    requires StateInv(s)
    ensures BeginAdvance(s, catalog).Ok? ==> StepKeeps(s, BeginAdvance(s, catalog).value)
    ensures BeginAdvance(s, catalog).Err? <==> s.status.TurnRecorded? && LacksLabel(s, catalog)
    ensures BeginAdvance(s, catalog).Err? ==> BeginAdvance(s, catalog).error == EmptyField
  {
    hide StateInv, Evolves;
    match s.status
    case Created =>
      PlainMoveInv(s, EpisodeStatus.ReadyForModel);
      EvolvesQuietly(s, s.(status := EpisodeStatus.ReadyForModel));
    case ReadyForModel => PrepareAttemptKeeps(s);
    case ModelAttemptPending => BeginModelKeeps(s);
    case TurnRecorded => TurnFacts(s); PlanToolsKeeps(s, catalog);
    case ToolWorkPending => BeginToolKeeps(s);
    case StopReview => ReviewStopKeeps(s);
    case CancellationPending =>
      CancelledInv(s);
      EvolvesQuietly(s, s.(status := EpisodeStatus.Cancelled));
    case _ =>
  }
}

/**
 The lifecycle of an episode as a relation between stored states, written without the reducer: which
 state may follow which, and exactly when. Every commit of every run is in the relation.
 */
module EpisodeLifecycle {
  import opened Outcomes
  import opened Texts
  import opened EpisodeRecords
  import opened EpisodeReducer
  import opened EpisodeInvariant
  import opened EpisodeSegments
  import opened EpisodeAnswers
  import opened EpisodeWorld
  import opened EpisodeTheorems

  // ----- Asking the model

  predicate OutOfTurns(s: EpisodeState) {
    |s.turns| >= s.policy.allowance.maxTurns || |s.attempts| >= s.policy.allowance.maxAttempts
  }

  /** The next attempt: it asks for the bound input and is chained to the attempt and turn before it. */
  predicate Chains(s: EpisodeState, a: ModelAttempt) {
    && a.number == |s.attempts| + 1 && a.request == s.nextInput && a.status.Prepared?
    && a.response.None? && a.continuation.None? && a.diagnostic.None?
    && a.predecessor == (if |s.attempts| == 0 then None else Some(|s.attempts|))
    && a.predecessorContinuation == (if s.turns == [] then None else Some(LastTurn(s).continuation))
  }

  ghost predicate Prepares(s: EpisodeState, t: EpisodeState) {
    if s.cancelRequested then t == s.(status := EpisodeStatus.CancellationPending)
    else if OutOfTurns(s) then t == s.(status := EpisodeStatus.BudgetExhausted)
    else
      && |t.attempts| == |s.attempts| + 1 && Chains(s, t.attempts[|s.attempts|])
      && t == s.(attempts := s.attempts + [t.attempts[|s.attempts|]], status := EpisodeStatus.ModelAttemptPending)
  }

  /** One more attempt whose fate is unknown: too many of them end the episode. */
  ghost predicate CountsAmbiguity(s: EpisodeState, diagnostic: Option<Digest>, t: EpisodeState) {
    && |t.attempts| == |s.attempts| > 0
    && t == s.(attempts := s.attempts[|s.attempts| - 1 := LastAttempt(t)], status := t.status,
               ambiguousAttempts := t.ambiguousAttempts)
    && LastAttempt(t) == LastAttempt(s).(status := AttemptStatus.Ambiguous, diagnostic := diagnostic)
    && t.ambiguousAttempts == s.ambiguousAttempts + 1
    && (t.status.BudgetExhausted? <==> s.ambiguousAttempts >= s.policy.rules.maxAmbiguousAttempts)
    && (t.status.ReadyForModel? <==> s.ambiguousAttempts < s.policy.rules.maxAmbiguousAttempts)
  }

  /** A prepared attempt is dispatched before it is sent; a dispatch that nobody answered is ambiguous. */
  ghost predicate Dispatches(s: EpisodeState, t: EpisodeState) {
    && s.attempts != []
    && if LastAttempt(s).status.Dispatching? then CountsAmbiguity(s, None, t)
       else
         && |t.attempts| == |s.attempts| && LastAttempt(s).status.Prepared?
         && LastAttempt(t) == LastAttempt(s).(status := AttemptStatus.Dispatching)
         && t == s.(attempts := s.attempts[|s.attempts| - 1 := LastAttempt(t)])
  }

  /** This diagnostic was recorded, and no attempt recorded another one after it. */
  ghost predicate NewestDiagnostic(attempts: seq<ModelAttempt>, diagnostic: Option<Digest>) {
    && diagnostic.Some?
    && exists i :: 0 <= i < |attempts| && attempts[i].diagnostic == diagnostic
                   && forall j :: i < j < |attempts| ==> attempts[j].diagnostic.None?
  }

  /** A definite failure ends the episode exactly when it may not be retried or repeats the newest one. */
  ghost predicate Fails(s: EpisodeState, closed: ModelAttempt, retry: RetryHint, t: EpisodeState) {
    var final := retry.Never? || NewestDiagnostic(s.attempts, closed.diagnostic);
    && |t.attempts| == |s.attempts| > 0
    && t == s.(attempts := s.attempts[|s.attempts| - 1 := closed],
               status := if final then EpisodeStatus.Failed else EpisodeStatus.ReadyForModel)
  }

  ghost predicate AnswersModel(s: EpisodeState, outcome: ModelOutcome, t: EpisodeState) {
    && s.attempts != []
    && var last := LastAttempt(s);
       match outcome
       case TurnAnswer(continuation, exchange, narrative, calls) =>
         && |t.attempts| == |s.attempts| && |t.turns| == |s.turns| + 1
         && LastAttempt(t) == last.(status := AttemptStatus.Decoded, response := Some(exchange),
                                    continuation := Some(continuation))
         && LastTurn(t) == Turn(|t.turns|, |t.attempts|, continuation, narrative, calls)
         && t == s.(attempts := s.attempts[|s.attempts| - 1 := LastAttempt(t)], turns := s.turns + [LastTurn(t)],
                    status := EpisodeStatus.TurnRecorded)
       case ConfirmedNotSent(diagnostic, retry) =>
         Fails(s, last.(status := AttemptStatus.ConfirmedNotSent, diagnostic := diagnostic), retry, t)
       case Rejected(response, diagnostic, retry) =>
         Fails(s, last.(status := AttemptStatus.Failed, response := Some(response), diagnostic := diagnostic), retry, t)
       case DecodeFailed(response, diagnostic) =>
         Fails(s, last.(status := AttemptStatus.DecodeFailed, response := Some(response), diagnostic := diagnostic),
               Never, t)
       case AmbiguousAnswer(diagnostic) => CountsAmbiguity(s, diagnostic, t)
  }

  // ----- A turn and its tools

  /** The record of call `i`: what it is, who may speak for it, and whether the catalog refuses it. */
  ghost predicate AdmittedAs(turn: Turn, i: nat, input: Digest, catalog: Catalog, o: Operation)
    requires i < |turn.calls|
  {
    var call := turn.calls[i];
    var declared := call.name in catalog.descriptors;
    && o.call == call && o.turn == turn.number && o.input == input && o.receipts == []
    && o.authority == (if declared then catalog.descriptors[call.name].authority else Narrative)
    && o.id == OperationId(i + 1, OperationIdentity(
                 turn.number, i, call.name, if declared then catalog.descriptors[call.name].version else "unknown",
                 OfBytes(call.arguments), input))
    && (if declared && call !in catalog.rejections then o.status.Requested? && o.result.None?
        else o.status.RejectedAsInvalid?
             && o.result == Some(if call in catalog.rejections then catalog.rejections[call] else UNKNOWN_TOOL))
  }

  /** A turn without calls, or with too many at once, is reviewed; one that exceeds the operations left
      ends the episode; any other is admitted call by call. */
  ghost predicate Plans(s: EpisodeState, catalog: Catalog, t: EpisodeState) {
    && s.turns != []
    && var turn, n := LastTurn(s), |s.operations|;
       if turn.calls != [] && n + |turn.calls| > s.policy.allowance.maxOperations
       then t == s.(status := EpisodeStatus.BudgetExhausted)
       else if turn.calls == [] || |turn.calls| > s.policy.rules.maxCallsPerTurn
       then t == s.(status := EpisodeStatus.StopReview)
       else
         && |t.operations| == n + |turn.calls| && s.operations <= t.operations
         && t == s.(operations := t.operations, status := EpisodeStatus.ToolWorkPending)
         && forall k :: n <= k < n + |turn.calls| ==> AdmittedAs(turn, k - n, s.nextInput, catalog, t.operations[k])
  }

  /** Success exactly when a gate is satisfied; otherwise one more chance, as long as there is one. */
  ghost predicate Reviews(s: EpisodeState, t: EpisodeState) {
    && s.turns != []
    && if s.satisfied then t == s.(status := EpisodeStatus.Succeeded)
       else if s.stopFeedback >= s.policy.rules.maxStopFeedback then t == s.(status := EpisodeStatus.Incomplete)
       else
         && t.stopFeedback == s.stopFeedback + 1
         && t == s.(stopFeedback := t.stopFeedback, nextInput := ContinuationInput(LastTurn(s).continuation, []),
                    status := EpisodeStatus.ReadyForModel)
  }

  /** Everything before this operation is finished, and it is not. */
  predicate IsFirst(ops: seq<Operation>, j: nat) {
    && j < |ops| && !ops[j].status.IsTerminal()
    && forall k :: 0 <= k < j ==> ops[k].status.IsTerminal()
  }

  /** Fresh work is dispatched; whatever may already have happened is reconciled; and when nothing is
      left, the turn's results become the next input. */
  ghost predicate Works(s: EpisodeState, t: EpisodeState) {
    && s.turns != []
    && if forall j :: 0 <= j < |s.operations| ==> s.operations[j].status.IsTerminal()
       then t == s.(nextInput := ContinuationInput(LastTurn(s).continuation, ResultsOf(s.operations, LastTurn(s).number)),
                    status := EpisodeStatus.ReadyForModel)
       else
         exists j: nat ::
           && IsFirst(s.operations, j)
           && t == s.(operations := s.operations[j := s.operations[j].(status := Asked(s.operations[j].status))])
  }

  function Asked(status: ToolStatus): ToolStatus {
    if status.Requested? then ToolStatus.Dispatching
    else if status.Running? then ToolStatus.Running
    else ToolStatus.Reconciling
  }

  ghost predicate AnswersTool(s: EpisodeState, j: nat, outcome: ToolOutcome, t: EpisodeState) {
    && j < |s.operations| == |t.operations|
    && var o := s.operations[j];
       match outcome
       case Completed(status, result, receipts, satisfies) =>
         t == s.(operations := s.operations[j := o.(status := status, result := Some(result), receipts := receipts)],
                 satisfied := s.satisfied || satisfies)
       case Pending(_) => t == s.(operations := s.operations[j := o.(status := ToolStatus.Running)])
       case AmbiguousOutcome(_) =>
         t == s.(operations := s.operations[j := o.(status := if o.status.Reconciling? then o.status else ToolStatus.Ambiguous)],
                 status := EpisodeStatus.Suspended)
  }

  ghost predicate Advances(s: EpisodeState, catalog: Catalog, t: EpisodeState) {
    match s.status
    case Created => t == s.(status := EpisodeStatus.ReadyForModel)
    case ReadyForModel => Prepares(s, t)
    case ModelAttemptPending => Dispatches(s, t)
    case TurnRecorded => Plans(s, catalog, t)
    case ToolWorkPending => Works(s, t)
    case StopReview => Reviews(s, t)
    case CancellationPending => t == s.(status := EpisodeStatus.Cancelled)
    case _ => false
  }

  // ----- Operators

  /** Only an episode that failed or stopped short is reopened; the grant is recorded with its reason. */
  ghost predicate Reopens(s: EpisodeState, granted: Allowance, t: EpisodeState) {
    && (s.status.Failed? || s.status.Incomplete? || s.status.BudgetExhausted?)
    && t == s.(status := EpisodeStatus.ReadyForModel, policy := Policy(s.policy.rules, granted),
               grants := s.grants + [Grant(s.status, s.policy.allowance, granted)], cancelRequested := false)
  }

  /** Whatever is in doubt is recorded as such, and suspends the episode; otherwise it winds down. */
  ghost predicate Cancels(s: EpisodeState, t: EpisodeState) {
    && !s.status.IsTerminal() && |t.attempts| == |s.attempts| && |t.operations| == |s.operations|
    && t == s.(status := t.status, cancelRequested := true, attempts := t.attempts, operations := t.operations)
    && (forall i :: 0 <= i < |s.attempts| ==>
          t.attempts[i] == if s.attempts[i].status.Dispatching?
                           then s.attempts[i].(status := AttemptStatus.CancelledAmbiguous, diagnostic := None)
                           else s.attempts[i])
    && (forall j :: 0 <= j < |s.operations| ==>
          t.operations[j] == if s.operations[j].status.Dispatching?
                             then s.operations[j].(status := ToolStatus.Ambiguous)
                             else s.operations[j])
    && (t.status.Suspended? <==> InDoubt(s))
    && (t.status.CancellationPending? <==> !InDoubt(s))
  }

  /** A call was dispatched, to the model or to a tool, and its outcome is not recorded. */
  ghost predicate InDoubt(s: EpisodeState) {
    || (exists i :: 0 <= i < |s.attempts| && s.attempts[i].status.Dispatching?)
    || (exists j :: 0 <= j < |s.operations| && s.operations[j].status.InFlight())
  }

  ghost predicate Reconsiders(s: EpisodeState, t: EpisodeState) {
    && s.status.Suspended?
    && t == s.(status := if HasUnfinished(s) then EpisodeStatus.ToolWorkPending
                         else EpisodeStatus.CancellationPending)
  }

  // ----- The reducer stays within the lifecycle

  ghost predicate StepIn(step: Fallible<Step>, law: EpisodeState -> bool) {
    step.Ok? && !step.value.Rest? ==> law(step.value.state)
  }

  lemma PrepareLaw(s: EpisodeState)
    requires StateInv(s) && s.status.ReadyForModel?
    ensures StepIn(PrepareAttempt(s), t => Prepares(s, t))
  {
    hide StateInv;
    AttemptNumbers(s);
  }

  lemma AttemptNumbers(s: EpisodeState)
    requires StateInv(s)
    ensures forall i :: 0 <= i < |s.attempts| ==> s.attempts[i].number == i + 1
    ensures forall i :: 0 <= i < |s.attempts| - 1 ==> !s.attempts[i].status.Dispatching?
  {
    hide TurnsOk, LayoutOk, ToolsOk, FlagsOk, SpendingOk, CountersOk;
  }

  lemma DispatchLaw(s: EpisodeState)
    requires StateInv(s) && s.status.ModelAttemptPending?
    ensures StepIn(BeginModel(s), t => Dispatches(s, t))
  {
    hide StateInv, RecoverDispatch;
    PendingFacts(s);
    if LastAttempt(s).status.Dispatching? {
      RecoverDispatchValue(s);
    }
  }

  lemma PlanLaw(s: EpisodeState, catalog: Catalog)
    requires StateInv(s) && s.status.TurnRecorded?
    ensures StepIn(PlanTools(s, catalog), t => Plans(s, catalog, t))
  {
    hide StateInv, Recordable;
    TurnFacts(s);
    var turn := LastTurn(s);
    forall i | 0 <= i < |turn.calls|
      ensures AdmittedAs(turn, i, s.nextInput, catalog, PlannedOperation(turn, i, s.nextInput, catalog))
    {
    }
  }

  lemma ReviewLaw(s: EpisodeState)
    requires StateInv(s) && s.status.StopReview?
    ensures StepIn(ReviewStop(s), t => Reviews(s, t))
  {
    hide StateInv;
    TurnFacts(s);
  }

  lemma WorkLaw(s: EpisodeState)
    requires StateInv(s) && s.status.ToolWorkPending?
    ensures StepIn(BeginTool(s), t => Works(s, t))
  {
    hide StateInv, DispatchRecord, OperationOk;
    WorkFacts(s);
    var j := FirstUnfinished(s.operations);
    if j < |s.operations| {
      DispatchRecordValue(s, s.operations[j]);
      assert IsFirst(s.operations, j);
    }
  }

  lemma DispatchRecordValue(s: EpisodeState, o: Operation)
    requires OperationOk(s, o) && !o.status.IsTerminal()
    ensures DispatchRecord(o) == Ok(o.(status := Asked(o.status)))
  {
  }

  lemma AdvanceLaw(s: EpisodeState, catalog: Catalog)
    requires StateInv(s)
    ensures StepIn(BeginAdvance(s, catalog), t => Advances(s, catalog, t))
  {
    hide StateInv, PrepareAttempt, BeginModel, PlanTools, BeginTool, ReviewStop;
    match s.status
    case ReadyForModel => PrepareLaw(s);
    case ModelAttemptPending => DispatchLaw(s);
    case TurnRecorded => PlanLaw(s, catalog);
    case ToolWorkPending => WorkLaw(s);
    case StopReview => ReviewLaw(s);
    case _ =>
  }

  lemma {:induction false} NewestIsLast(attempts: seq<ModelAttempt>, diagnostic: Option<Digest>)
    ensures diagnostic.Some? && LastDiagnostic(attempts) == diagnostic <==> NewestDiagnostic(attempts, diagnostic)
    decreases |attempts|
  {
    if attempts != [] {
      var init, last := attempts[..|attempts| - 1], attempts[|attempts| - 1];
      NewestIsLast(init, diagnostic);
      assert forall i :: 0 <= i < |init| ==> init[i] == attempts[i];
      if last.diagnostic.Some? && last.diagnostic == diagnostic {
        assert NewestDiagnostic(attempts, diagnostic);
      }
    }
  }

  lemma ModelAnswerLaw(s: EpisodeState, request: ModelRequest, outcome: ModelOutcome)
    requires ModelHeld(s, request)
    ensures StepIn(AfterModel(s, outcome), t => AnswersModel(s, outcome, t))
  {
    hide StateInv, NewestDiagnostic, LastDiagnostic;
    PendingFacts(s);
    match outcome
    case ConfirmedNotSent(diagnostic, _) => NewestIsLast(s.attempts, diagnostic);
    case Rejected(_, diagnostic, _) => NewestIsLast(s.attempts, diagnostic);
    case _ =>
  }

  lemma ToolAnswerLaw(s: EpisodeState, index: nat, invocation: ToolInvocation, reconciling: bool,
                      outcome: ToolOutcome)
    requires ToolHeld(s, index, invocation, reconciling) && index < |s.operations|
    ensures StepIn(AfterTool(s, index, outcome), t => AnswersTool(s, index, outcome, t))
  {
    hide StateInv;
    HeldFacts(s, index, invocation, reconciling);
    var o := s.operations[index];
    assert o.(status := o.status) == o;
  }

  lemma ReopenLaw(s: EpisodeState, granted: Allowance)
    ensures StepIn(ResumeEpisode(s, granted), t => Reopens(s, granted, t))
  {
  }

  lemma ReconsiderLaw(s: EpisodeState)
    requires StateInv(s)
    ensures StepIn(ResumeReconciliation(s), t => Reconsiders(s, t))
  {
    hide StateInv;
    if s.status.Suspended? {
      SuspendedFacts(s);
      var j := FirstUnfinished(s.operations);
      assert j < |s.operations| <==> HasUnfinished(s);
    }
  }

  lemma CancelLaw(s: EpisodeState)
    requires StateInv(s)
    ensures StepIn(CancelEpisode(s), t => Cancels(s, t))
  {
    hide StateInv, SettleModel, SettleTool, FirstDispatching, CancelEpisode, FirstUnfinished;
    DoubtFacts(s);
    AttemptNumbers(s);
    if s.status.IsTerminal() {
      NothingToCancel(s);
    } else {
      NeverSuspensionRequested(s);
      var asked := s.(cancelRequested := true);
      SettledModelExactly(asked);
      SettledToolExactly(SettleModel(asked).value);
      CancelValue(s);
      DoubtIsLast(s);
    }
  }

  lemma NothingToCancel(s: EpisodeState)
    requires s.status.IsTerminal()
    ensures CancelEpisode(s).Ok? && CancelEpisode(s).value.Rest?
  {
  }

  lemma DoubtIsLast(s: EpisodeState)
    requires forall i :: 0 <= i < |s.attempts| - 1 ==> !s.attempts[i].status.Dispatching?
    ensures ModelInDoubt(s) || ToolInDoubt(s) <==> InDoubt(s)
  {
  }

  lemma CancelValue(s: EpisodeState)
    requires !s.status.IsTerminal() && !s.status.SuspensionRequested?
    requires ModelInDoubt(s) ==> s.status.ModelAttemptPending?
    requires ToolInDoubt(s) ==> s.status.ToolWorkPending? || s.status.Suspended?
    requires SettleModel(s.(cancelRequested := true)).Ok?
    requires SettleTool(SettleModel(s.(cancelRequested := true)).value).Ok?
    ensures var settled := SettleTool(SettleModel(s.(cancelRequested := true)).value).value;
            settled.status == s.status ==>
              && CancelEpisode(s).Ok? && CancelEpisode(s).value.Commit?
              && CancelEpisode(s).value.state
                 == settled.(status := if ModelInDoubt(s) || ToolInDoubt(s) then EpisodeStatus.Suspended
                                       else EpisodeStatus.CancellationPending)
  {
    hide SettleModel, SettleTool, ModelInDoubt, ToolInDoubt;
  }

  lemma SettledModelExactly(s: EpisodeState)
    requires forall i :: 0 <= i < |s.attempts| - 1 ==> !s.attempts[i].status.Dispatching?
    ensures SettleModel(s).Ok?
    ensures var t := SettleModel(s).value;
            && t == s.(attempts := t.attempts) && |t.attempts| == |s.attempts|
            && forall i :: 0 <= i < |s.attempts| ==>
                 t.attempts[i] == if s.attempts[i].status.Dispatching?
                                  then s.attempts[i].(status := AttemptStatus.CancelledAmbiguous, diagnostic := None)
                                  else s.attempts[i]
  {
  }

  lemma SettledToolExactly(s: EpisodeState)
    requires forall j :: 0 <= j < |s.operations| && s.operations[j].status.Dispatching? ==>
               j == FirstUnfinished(s.operations)
    ensures SettleTool(s).Ok?
    ensures var t := SettleTool(s).value;
            && t == s.(operations := t.operations) && |t.operations| == |s.operations|
            && forall j :: 0 <= j < |s.operations| ==>
                 t.operations[j] == if s.operations[j].status.Dispatching?
                                    then s.operations[j].(status := ToolStatus.Ambiguous)
                                    else s.operations[j]
  {
  }

  // ----- How long to wait

  /** The attempts that left a diagnostic. */
  ghost function Diagnosed(attempts: seq<ModelAttempt>): set<nat> {
    set i | 0 <= i < |attempts| && attempts[i].diagnostic.Some?
  }

  lemma {:induction false} FailuresAreCounted(attempts: seq<ModelAttempt>)
    ensures FailedAttempts(attempts) == |Diagnosed(attempts)|
    decreases |attempts|
  {
    if attempts != [] {
      var n := |attempts| - 1;
      FailuresAreCounted(attempts[..n]);
      assert Diagnosed(attempts) == Diagnosed(attempts[..n]) + if attempts[n].diagnostic.Some? then {n} else {};
    }
  }

  /** After a failure that may be retried, the driver waits for as long as the transport asks, or else
      for 250 ms doubled once for every failure on record, up to 30 s; every other answer is followed at
      once. */
  lemma RetryDelay(s: EpisodeState, request: ModelRequest, outcome: ModelOutcome)
    requires ModelHeld(s, request) && AfterModel(s, outcome).Ok?
    ensures AfterModel(s, outcome).value.Commit?
    ensures var t, report := AfterModel(s, outcome).value.state, AfterModel(s, outcome).value.committedReport;
            if (outcome.ConfirmedNotSent? || outcome.Rejected?) && t.status.ReadyForModel? then
              var doubled := Doubled(250, |Diagnosed(t.attempts)|);
              report == ProgressedAfter(EpisodeStatus.ReadyForModel,
                                        if outcome.retry.AfterMillis? then outcome.retry.millis
                                        else if doubled > 30_000 then 30_000 else doubled)
            else if t.status.IsTerminal() then report == Terminal(t.status)
            else report == Progressed(t.status)
  {
    hide StateInv, Doubled, BackoffMillis, LastDiagnostic, Diagnosed, FailedAttempts;
    PendingFacts(s);
    var t := AfterModel(s, outcome).value.state;
    FailuresAreCounted(t.attempts);
    BackoffDoubles(FailedAttempts(t.attempts));
  }

  // ----- Every commit of every run

  /** What this action, in this world, may make of the stored state. */
  ghost predicate Lawful(w: World, a: Action, t: EpisodeState) {
    var s, p := w.current.state, PhaseOf(w, a.runner);
    && !p.Idle? && p.held == w.current
    && match a
       case Advance(_, catalog) => Advances(s, catalog, t)
       case Resume(_, granted) => Reopens(s, granted, t)
       case Cancel(_) => Cancels(s, t)
       case ResumeSuspended(_) => Reconsiders(s, t)
       case CommitModel(_) => p.ModelAnswered? && AnswersModel(s, p.modelOutcome, t)
       case CommitTool(_) => p.ToolAnswered? && AnswersTool(s, p.index, p.toolOutcome, t)
       case _ => false
  }

  /** Whoever commits, in whatever interleaving, moves the stored state along the lifecycle. */
  lemma NextIsLawful(w: World, a: Action)
    requires WorldInv(w)
    ensures var v := Next(w, a);
            v.current == w.current || (v.current.revision == w.current.revision + 1 && Lawful(w, a, v.current.state))
  {
    hide StateInv, Evolves, PermitsOk, LogOk, ModelHeld, ToolHeld, Advances, Reopens, Cancels, Reconsiders,
      AnswersModel, AnswersTool,
      BeginAdvance, ResumeEpisode, CancelEpisode, ResumeReconciliation, AfterModel, AfterTool;
    var p := PhaseOf(w, a.runner);
    assert PhaseOk(w.current, p);
    if !p.Idle? && p.held.revision == w.current.revision {
      var s := p.held.state;
      match a
      case Advance(_, catalog) => AdvanceLaw(s, catalog);
      case Resume(_, granted) => ReopenLaw(s, granted);
      case Cancel(_) => CancelLaw(s);
      case ResumeSuspended(_) => ReconsiderLaw(s);
      case CommitModel(_) => if p.ModelAnswered? { ModelAnswerLaw(s, p.request, p.modelOutcome); }
      case CommitTool(_) =>
        if p.ToolAnswered? && p.index < |s.operations| {
          ToolAnswerLaw(s, p.index, p.invocation, p.reconciling, p.toolOutcome);
        }
      case _ =>
    }
  }

  // ----- Creation, refusals and reports

  /** An episode is created exactly under positive limits and no fewer attempts than turns, and it starts
      with nothing done. */
  lemma CreatesExactly(id: EpisodeId, policy: Policy, input: Digest)
    ensures InitialState(id, policy, input).Ok? <==>
              && policy.allowance.maxTurns > 0 && policy.allowance.maxAttempts > 0
              && policy.allowance.maxOperations > 0 && policy.rules.maxCallsPerTurn > 0
              && policy.allowance.maxTurns <= policy.allowance.maxAttempts
    ensures InitialState(id, policy, input).Ok? ==>
              var s := InitialState(id, policy, input).value;
              && s.id == id && s.policy == policy && s.initialInput == input && s.nextInput == input
              && s.status.Created? && !s.satisfied && !s.cancelRequested
              && s.attempts == [] && s.turns == [] && s.operations == [] && s.grants == []
              && s.ambiguousAttempts == 0 && s.stopFeedback == 0
  {
  }

  /** Planning refuses exactly a turn that would be admitted and has a call without an identity or a
      name, or to a tool whose version is blank. */
  lemma PlanRefusesExactly(s: EpisodeState, catalog: Catalog)
    requires StateInv(s) && s.status.TurnRecorded? && s.turns != []
    ensures PlanTools(s, catalog).Err? <==>
              var calls := LastTurn(s).calls;
              && |calls| <= s.policy.rules.maxCallsPerTurn
              && |s.operations| + |calls| <= s.policy.allowance.maxOperations
              && exists i :: 0 <= i < |calls|
                   && (Blank(calls[i].nativeId) || Blank(calls[i].name)
                       || (calls[i].name in catalog.descriptors && Blank(catalog.descriptors[calls[i].name].version)))
  {
    hide StateInv, PlannedOperations, Blank;
    TurnFacts(s);
    UnknownIsNotBlank();
  }

  lemma UnknownIsNotBlank()
    ensures !Blank("unknown")
  {
    assert "unknown"[0] == 'u';
  }

  /** What a driver is told: an end as an end, a suspension as one, and otherwise where the episode stands. */
  predicate Plainly(status: EpisodeStatus, report: Report) {
    report == if status.IsTerminal() then Terminal(status)
              else if status.Suspended? then SuspendedReport else Progressed(status)
  }

  predicate Reports(step: Fallible<Step>) {
    step.Ok? && step.value.Commit? ==> Plainly(step.value.state.status, step.value.committedReport)
  }

  lemma ModelReports(s: EpisodeState)
    requires StateInv(s)
    ensures s.status.ModelAttemptPending? ==> Reports(BeginModel(s))
    ensures s.status.ReadyForModel? ==> Reports(PrepareAttempt(s))
  {
    hide StateInv, RecoverDispatch;
    if s.status.ModelAttemptPending? {
      PendingFacts(s);
      if LastAttempt(s).status.Dispatching? {
        RecoverDispatchValue(s);
      }
    }
  }

  lemma WorkReports(s: EpisodeState, catalog: Catalog)
    ensures Reports(PlanTools(s, catalog)) && Reports(ReviewStop(s)) && Reports(BeginTool(s))
  {
    hide Recordable, PlannedOperations, DispatchRecord;
  }

  /** Whatever an advance finds or leaves is reported plainly. */
  lemma ReportLaw(s: EpisodeState, catalog: Catalog)
    requires StateInv(s)
    ensures Reports(BeginAdvance(s, catalog))
    ensures BeginAdvance(s, catalog).Ok? && BeginAdvance(s, catalog).value.Rest? ==>
              Plainly(s.status, BeginAdvance(s, catalog).value.report)
  {
    hide StateInv, PrepareAttempt, BeginModel, PlanTools, BeginTool, ReviewStop;
    NeverSuspensionRequested(s);
    ModelReports(s);
    WorkReports(s, catalog);
    NoRest(s, catalog);
  }

  lemma NoRest(s: EpisodeState, catalog: Catalog)
    ensures PlanTools(s, catalog).Ok? ==> !PlanTools(s, catalog).value.Rest?
    ensures ReviewStop(s).Ok? ==> !ReviewStop(s).value.Rest?
    ensures BeginTool(s).Ok? ==> !BeginTool(s).value.Rest?
    ensures PrepareAttempt(s).Ok? ==> !PrepareAttempt(s).value.Rest?
    ensures BeginModel(s).Ok? ==> !BeginModel(s).value.Rest?
  {
    hide Recordable, PlannedOperations, DispatchRecord;
  }

  /** So is a tool's answer. */
  lemma AnswerReports(s: EpisodeState, index: nat, outcome: ToolOutcome)
    requires index < |s.operations| && s.status.ToolWorkPending?
    ensures Reports(AfterTool(s, index, outcome))
  {
  }

  /** A resume reports what it resumed from, or where a running episode stands; a cancellation where it
      leaves the episode. */
  lemma OperatorReports(s: EpisodeState, granted: Allowance)
    ensures ResumeEpisode(s, granted).Ok? ==>
              match ResumeEpisode(s, granted).value
              case Rest(report) => report == Progressed(s.status) && !s.status.IsTerminal()
              case Commit(_, report) => report == Progressed(s.status) && s.status.IsTerminal()
              case _ => false
    ensures CancelEpisode(s).Ok? ==>
              match CancelEpisode(s).value
              case Rest(report) => report == Terminal(s.status) && s.status.IsTerminal()
              case Commit(t, report) => report == Progressed(t.status)
              case _ => false
  {
  }

  /** A record is resumed only if every turn says or calls something and its calls are told apart. */
  lemma ResumedIsWellFormed(s: EpisodeState, granted: Allowance, k: nat, i: nat, j: nat)
    requires ResumeEpisode(s, granted).Ok? && k < |s.turns| && i < j < |s.turns[k].calls|
    ensures s.turns[k].calls[i].nativeId != s.turns[k].calls[j].nativeId
    ensures !Blank(s.turns[k].calls[i].nativeId) && !Blank(s.turns[k].calls[j].name)
  {
    assert ValidTurn(s.turns[k].narrative, s.turns[k].calls);
  }

  lemma ResumedSaysSomething(s: EpisodeState, granted: Allowance, k: nat)
    requires ResumeEpisode(s, granted).Ok? && k < |s.turns|
    ensures s.turns[k].narrative != [] || s.turns[k].calls != []
  {
    assert ValidTurn(s.turns[k].narrative, s.turns[k].calls);
  }
}

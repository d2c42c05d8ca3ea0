/**
 The reducer, segment by segment. A segment runs between two repository or gateway boundaries, so
 it is a function from the loaded state to what is committed next.
 */
module EpisodeReducer {
  import opened Outcomes
  import opened Texts
  import opened EpisodeRecords

  // ----- Ports

  datatype ModelRequest = ModelRequest(attempt: nat, turnIndex: nat, input: Digest)

  datatype RetryHint = Never | Immediate | AfterMillis(millis: nat)

  datatype ModelOutcome =
    | TurnAnswer(continuation: Digest, exchange: Digest, narrative: seq<string>, calls: seq<ToolCall>)
    | ConfirmedNotSent(diagnostic: Option<Digest>, retry: RetryHint)
    | Rejected(response: Digest, diagnostic: Option<Digest>, retry: RetryHint)
    | DecodeFailed(response: Digest, diagnostic: Option<Digest>)
    | AmbiguousAnswer(diagnostic: Option<Digest>)

  datatype ToolInvocation = ToolInvocation(id: OperationId, call: ToolCall, input: Digest)

  datatype ToolOutcome =
    | Completed(status: ToolStatus, result: Digest, receipts: seq<Digest>, satisfies: bool)
    | Pending(diagnostic: Digest)
    | AmbiguousOutcome(diagnostic: Digest)

  datatype Descriptor = Descriptor(version: string, authority: ToolAuthority)

  /** The side-effect-free half of a tool gateway: what it declares, and which calls it refuses. */
  datatype Catalog = Catalog(descriptors: map<string, Descriptor>, rejections: map<ToolCall, Digest>)

  /** What one call of `advance` tells its driver. */
  datatype Report =
    | Progressed(status: EpisodeStatus)
    | ProgressedAfter(delayedStatus: EpisodeStatus, delayMillis: nat)
    | Terminal(terminalStatus: EpisodeStatus)
    | SuspendedReport

  /** Where the first segment of `advance` leaves the runner. */
  datatype Step =
    | Rest(report: Report)
    | Commit(state: EpisodeState, committedReport: Report)
    | AskModel(state: EpisodeState, request: ModelRequest)
    | AskTool(state: EpisodeState, index: nat, invocation: ToolInvocation, reconciling: bool)

  type Fallible<T> = Result<T, RuntimeError>

  function ProgressReport(status: EpisodeStatus): Report {
    if status.IsTerminal() then Terminal(status)
    else if status.Suspended? then SuspendedReport
    else Progressed(status)
  }

  // ----- Text checks

  predicate ValidCalls(calls: seq<ToolCall>) {
    && (forall i :: 0 <= i < |calls| ==> !Blank(calls[i].nativeId) && !Blank(calls[i].name))
    && (forall i, j :: 0 <= i < j < |calls| ==> calls[i].nativeId != calls[j].nativeId)
  }

  /** A turn with something in it whose calls carry distinct, non-blank identities. */
  predicate ValidTurn(narrative: seq<string>, calls: seq<ToolCall>) {
    (narrative != [] || calls != []) && ValidCalls(calls)
  }

  // ----- Creation

  function InitialState(id: EpisodeId, policy: Policy, input: Digest): Fallible<EpisodeState> {
    if !policy.Valid() then Err(InvalidPolicy)
    else Ok(EpisodeState(id, EpisodeStatus.Created, policy, input, input, [], [], [], 0, 0, false, false, []))
  }

  // ----- advance, first segment

  function BeginAdvance(s: EpisodeState, catalog: Catalog): Fallible<Step> {
    if s.status.IsTerminal() then Ok(Rest(Terminal(s.status)))
    else match s.status
      case Created => TransitionOnly(s, EpisodeStatus.ReadyForModel)
      case ReadyForModel => PrepareAttempt(s)
      case ModelAttemptPending => BeginModel(s)
      case TurnRecorded => PlanTools(s, catalog)
      case ToolWorkPending => BeginTool(s)
      case StopReview => ReviewStop(s)
      case CancellationPending => TransitionOnly(s, EpisodeStatus.Cancelled)
      case _ => Ok(Rest(SuspendedReport))
  }

  function TransitionOnly(s: EpisodeState, next: EpisodeStatus): Fallible<Step> {
    var moved :- Transition(s, next);
    Ok(Commit(moved, ProgressReport(next)))
  }

  function PrepareAttempt(s: EpisodeState): Fallible<Step> {
    if s.cancelRequested then TransitionOnly(s, EpisodeStatus.CancellationPending)
    else if |s.turns| >= s.policy.allowance.maxTurns || |s.attempts| >= s.policy.allowance.maxAttempts
    then TransitionOnly(s, EpisodeStatus.BudgetExhausted)
    else if |s.attempts| + 1 > U32_MAX then Err(CounterExhausted)
    else
      var attempt := NewAttempt(s);
      var moved :- Transition(s.(attempts := s.attempts + [attempt]), EpisodeStatus.ModelAttemptPending);
      Ok(Commit(moved, Progressed(EpisodeStatus.ModelAttemptPending)))
  }

  function NewAttempt(s: EpisodeState): ModelAttempt {
    ModelAttempt(
      |s.attempts| + 1,
      s.nextInput,
      if s.attempts == [] then None else Some(s.attempts[|s.attempts| - 1].number),
      if s.turns == [] then None else Some(s.turns[|s.turns| - 1].continuation),
      AttemptStatus.Prepared, None, None, None)
  }

  function WithLastAttempt(s: EpisodeState, a: ModelAttempt): EpisodeState
    requires s.attempts != []
  {
    s.(attempts := s.attempts[|s.attempts| - 1 := a])
  }

  function Suspend(s: EpisodeState): Fallible<EpisodeState> {
    var requested :- Transition(s, EpisodeStatus.SuspensionRequested);
    Transition(requested, EpisodeStatus.Suspended)
  }

  function SuspendStep(s: EpisodeState): Fallible<Step> {
    var suspended :- Suspend(s);
    Ok(Commit(suspended, SuspendedReport))
  }

  function BeginModel(s: EpisodeState): Fallible<Step> {
    if s.attempts == [] then Err(MissingModelAttempt)
    else
      var last := s.attempts[|s.attempts| - 1];
      if last.status.Dispatching? then RecoverDispatch(s)
      else if !last.status.Prepared? then Err(InvalidDurableState)
      else if |s.turns| + 1 > U32_MAX then Err(CounterExhausted)
      else
        var dispatching :- MarkDispatching(last);
        Ok(AskModel(WithLastAttempt(s, dispatching),
                    ModelRequest(last.number, |s.turns| + 1, s.nextInput)))
  }

  /** Recovery found a dispatch whose outcome nobody recorded. */
  function RecoverDispatch(s: EpisodeState): Fallible<Step>
    requires s.attempts != []
  {
    var terminal := if s.cancelRequested then AttemptStatus.CancelledAmbiguous else AttemptStatus.Ambiguous;
    var finished :- FinishWithoutResponse(s.attempts[|s.attempts| - 1], terminal, None);
    if s.ambiguousAttempts + 1 > U32_MAX then Err(CounterExhausted)
    else
      var counted := WithLastAttempt(s, finished).(ambiguousAttempts := s.ambiguousAttempts + 1);
      if s.cancelRequested then
        var suspended :- Suspend(counted);
        Ok(Commit(suspended, SuspendedReport))
      else
        TransitionOnly(counted, AfterAmbiguity(counted))
  }

  function AfterAmbiguity(s: EpisodeState): EpisodeStatus {
    if s.ambiguousAttempts > s.policy.rules.maxAmbiguousAttempts
    then EpisodeStatus.BudgetExhausted else EpisodeStatus.ReadyForModel
  }

  function ReviewStop(s: EpisodeState): Fallible<Step> {
    if s.satisfied then TransitionOnly(s, EpisodeStatus.Succeeded)
    else if s.stopFeedback < s.policy.rules.maxStopFeedback then
      if s.turns == [] then Err(MissingTurn)
      else
        TransitionOnly(
          s.(stopFeedback := s.stopFeedback + 1,
             nextInput := ContinuationInput(s.turns[|s.turns| - 1].continuation, [])),
          EpisodeStatus.ReadyForModel)
    else TransitionOnly(s, EpisodeStatus.Incomplete)
  }

  // ----- Planning a turn's tools

  const UNKNOWN_TOOL: Digest := OfBytes([117, 110, 107, 110, 111, 119, 110, 45, 116, 111, 111, 108])

  function DescriptorOf(catalog: Catalog, name: string): Descriptor {
    if name in catalog.descriptors then catalog.descriptors[name]
    else Descriptor("unknown", Narrative)
  }

  function PlannedOperation(turn: Turn, index: nat, input: Digest, catalog: Catalog): Operation
    requires index < |turn.calls|
  {
    var call := turn.calls[index];
    var d := DescriptorOf(catalog, call.name);
    var id := OperationId(index + 1,
                          OperationIdentity(turn.number, index, call.name, d.version,
                                            OfBytes(call.arguments), input));
    var record := Operation(id, turn.number, call, d.authority, input, ToolStatus.Requested, None, []);
    if call in catalog.rejections then
      record.(status := ToolStatus.RejectedAsInvalid, result := Some(catalog.rejections[call]))
    else if call.name !in catalog.descriptors then
      record.(status := ToolStatus.RejectedAsInvalid, result := Some(UNKNOWN_TOOL))
    else record
  }

  function PlannedOperations(turn: Turn, input: Digest, catalog: Catalog): (ops: seq<Operation>)
    ensures |ops| == |turn.calls|
    ensures forall i :: 0 <= i < |ops| ==> ops[i] == PlannedOperation(turn, i, input, catalog)
  {
    seq(|turn.calls|, i requires 0 <= i < |turn.calls| => PlannedOperation(turn, i, input, catalog))
  }

  /** Every field that a new operation record must carry is present. */
  predicate Recordable(turn: Turn, catalog: Catalog) {
    forall i :: 0 <= i < |turn.calls| ==>
      && !Blank(turn.calls[i].nativeId)
      && !Blank(turn.calls[i].name)
      && !Blank(DescriptorOf(catalog, turn.calls[i].name).version)
  }

  function PlanTools(s: EpisodeState, catalog: Catalog): Fallible<Step> {
    if s.turns == [] then Err(MissingTurn)
    else
      var turn := s.turns[|s.turns| - 1];
      if turn.calls == [] then TransitionOnly(s, EpisodeStatus.StopReview)
      else if |turn.calls| > U32_MAX then Err(CounterExhausted)
      else if |s.operations| + |turn.calls| > s.policy.allowance.maxOperations
      then TransitionOnly(s, EpisodeStatus.BudgetExhausted)
      else if |turn.calls| > s.policy.rules.maxCallsPerTurn
      then TransitionOnly(s, EpisodeStatus.StopReview)
      else if !Recordable(turn, catalog) then Err(EmptyField)
      else TransitionOnly(
        s.(operations := s.operations + PlannedOperations(turn, s.nextInput, catalog)),
        EpisodeStatus.ToolWorkPending)
  }

  // ----- Driving one tool

  function FirstUnfinished(ops: seq<Operation>, from: nat := 0): (index: nat)
    requires from <= |ops|
    ensures from <= index <= |ops|
    ensures forall j :: from <= j < index ==> ops[j].status.IsTerminal()
    ensures index < |ops| ==> !ops[index].status.IsTerminal()
    decreases |ops| - from
  {
    if from == |ops| || !ops[from].status.IsTerminal() then from else FirstUnfinished(ops, from + 1)
  }

  /** Recorded results of one turn, in call order. */
  function ResultsOf(ops: seq<Operation>, turn: nat): seq<Digest> {
    if ops == [] then []
    else
      var rest := ResultsOf(ops[..|ops| - 1], turn);
      var last := ops[|ops| - 1];
      if last.turn == turn && last.result.Some? then rest + [last.result.value] else rest
  }

  function ContinuationOf(s: EpisodeState): Digest
    requires s.turns != []
  {
    var turn := s.turns[|s.turns| - 1];
    ContinuationInput(turn.continuation, ResultsOf(s.operations, turn.number))
  }

  /** The record an operation is dispatched under: fresh work executes, anything else reconciles. */
  function DispatchRecord(o: Operation): Fallible<Operation> {
    match o.status
    case Requested =>
      var authorized :- AdvanceOperation(o, ToolStatus.Authorized);
      AdvanceOperation(authorized, ToolStatus.Dispatching)
    case Dispatching =>
      var ambiguous :- AdvanceOperation(o, ToolStatus.Ambiguous);
      AdvanceOperation(ambiguous, ToolStatus.Reconciling)
    case Ambiguous => AdvanceOperation(o, ToolStatus.Reconciling)
    case Reconciling => Ok(o)
    case Running => Ok(o)
    case _ => Err(InvalidDurableState)
  }

  function BeginTool(s: EpisodeState): Fallible<Step> {
    var index := FirstUnfinished(s.operations);
    if index == |s.operations| then
      if s.turns == [] then Err(MissingTurn)
      else TransitionOnly(s.(nextInput := ContinuationOf(s)), EpisodeStatus.ReadyForModel)
    else
      var record :- DispatchRecord(s.operations[index]);
      Ok(AskTool(s.(operations := s.operations[index := record]), index,
                 ToolInvocation(record.id, record.call, s.nextInput),
                 record.status.Reconciling? || record.status.Running?))
  }

  // ----- advance, second segment

  /** The most recent diagnostic that any attempt recorded. */
  function LastDiagnostic(attempts: seq<ModelAttempt>): Option<Digest> {
    if attempts == [] then None
    else if attempts[|attempts| - 1].diagnostic.Some? then attempts[|attempts| - 1].diagnostic
    else LastDiagnostic(attempts[..|attempts| - 1])
  }

  predicate RepeatsTheLastFailure(s: EpisodeState, diagnostic: Option<Digest>) {
    diagnostic.Some? && LastDiagnostic(s.attempts) == diagnostic
  }

  /** The documented rule: the attempt before this one recorded this very diagnostic. */
  predicate RepeatsThePreviousAttempt(s: EpisodeState, diagnostic: Option<Digest>) {
    diagnostic.Some? && |s.attempts| >= 2 && s.attempts[|s.attempts| - 2].diagnostic == diagnostic
  }

  /** The code and its documentation differ exactly when the attempt before this one recorded nothing
      and the newest diagnostic that was recorded earlier is this one. */
  lemma RepeatsAsDocumented(s: EpisodeState, diagnostic: Option<Digest>)
    requires s.attempts != [] && s.attempts[|s.attempts| - 1].diagnostic.None?
    ensures (RepeatsTheLastFailure(s, diagnostic) <==> RepeatsThePreviousAttempt(s, diagnostic)) <==>
              !(&& diagnostic.Some? && |s.attempts| >= 2
                && s.attempts[|s.attempts| - 2].diagnostic.None?
                && LastDiagnostic(s.attempts[..|s.attempts| - 2]) == diagnostic)
  {
    var n := |s.attempts|;
    assert LastDiagnostic(s.attempts) == LastDiagnostic(s.attempts[..n - 1]);
    if n >= 2 {
      assert s.attempts[..n - 1][..n - 2] == s.attempts[..n - 2];
    }
  }

  function FailedAttempts(attempts: seq<ModelAttempt>): nat {
    if attempts == [] then 0
    else FailedAttempts(attempts[..|attempts| - 1])
         + if attempts[|attempts| - 1].diagnostic.Some? then 1 else 0
  }

  const BACKOFF_BASE: nat := 250
  const BACKOFF_CEILING: nat := 30_000

  function Doubled(base: nat, times: nat): nat {
    if times == 0 then base else 2 * Doubled(base, times - 1)
  }

  function BackoffMillis(failures: nat): nat {
    var delay := Doubled(BACKOFF_BASE, if failures > 7 then 7 else failures);
    if delay > BACKOFF_CEILING then BACKOFF_CEILING else delay
  }

  /** The delay doubles with every failure up to the ceiling; capping the exponent loses nothing. */
  lemma BackoffDoubles(failures: nat)
    ensures BackoffMillis(failures)
            == if Doubled(BACKOFF_BASE, failures) > BACKOFF_CEILING then BACKOFF_CEILING
               else Doubled(BACKOFF_BASE, failures)
  {
    assert Doubled(BACKOFF_BASE, 7) == 128 * BACKOFF_BASE by {
      assert Doubled(BACKOFF_BASE, 3) == 8 * BACKOFF_BASE;
      assert Doubled(BACKOFF_BASE, 5) == 4 * Doubled(BACKOFF_BASE, 3);
      assert Doubled(BACKOFF_BASE, 7) == 4 * Doubled(BACKOFF_BASE, 5);
    }
    if failures > 7 {
      DoublingGrows(BACKOFF_BASE, 7, failures);
    }
  }

  lemma {:induction false} DoublingGrows(base: nat, low: nat, high: nat)
    requires low <= high
    ensures Doubled(base, low) <= Doubled(base, high)
    decreases high
  {
    if low < high {
      DoublingGrows(base, low, high - 1);
    }
  }

  /** What follows a dispatch that produced no usable turn. */
  function AfterFailedDispatch(s: EpisodeState, retry: RetryHint, repeated: bool): Fallible<Step> {
    if retry.Never? || repeated then TransitionOnly(s, EpisodeStatus.Failed)
    else
      var moved :- Transition(s, EpisodeStatus.ReadyForModel);
      Ok(Commit(moved, ProgressedAfter(
        EpisodeStatus.ReadyForModel,
        if retry.AfterMillis? then retry.millis else BackoffMillis(FailedAttempts(s.attempts)))))
  }

  /** Commits a model answer onto the dispatching state this runner saved. */
  function AfterModel(s: EpisodeState, outcome: ModelOutcome): Fallible<Step> {
    if s.attempts == [] then Err(MissingModelAttempt)
    else
      var last := s.attempts[|s.attempts| - 1];
      match outcome
      case TurnAnswer(continuation, exchange, narrative, calls) =>
        var responded :- RecordResponse(last, exchange);
        var decoded :- MarkDecoded(responded, continuation);
        if |calls| > U32_MAX then Err(CounterExhausted)
        else
          var turn := Turn(|s.turns| + 1, last.number, continuation, narrative, calls);
          TransitionOnly(WithLastAttempt(s, decoded).(turns := s.turns + [turn]), EpisodeStatus.TurnRecorded)
      case ConfirmedNotSent(diagnostic, retry) =>
        var finished :- FinishWithoutResponse(last, AttemptStatus.ConfirmedNotSent, diagnostic);
        AfterFailedDispatch(WithLastAttempt(s, finished), retry, RepeatsTheLastFailure(s, diagnostic))
      case Rejected(response, diagnostic, retry) =>
        var responded :- RecordResponse(last, response);
        var failed :- MarkResponseUnusable(responded, AttemptStatus.Failed, diagnostic);
        AfterFailedDispatch(WithLastAttempt(s, failed), retry, RepeatsTheLastFailure(s, diagnostic))
      case DecodeFailed(response, diagnostic) =>
        var responded :- RecordResponse(last, response);
        var failed :- MarkResponseUnusable(responded, AttemptStatus.DecodeFailed, diagnostic);
        TransitionOnly(WithLastAttempt(s, failed), EpisodeStatus.Failed)
      case AmbiguousAnswer(diagnostic) =>
        var finished :- FinishWithoutResponse(last, AttemptStatus.Ambiguous, diagnostic);
        if s.ambiguousAttempts + 1 > U32_MAX then Err(CounterExhausted)
        else
          var counted := WithLastAttempt(s, finished).(ambiguousAttempts := s.ambiguousAttempts + 1);
          TransitionOnly(counted, AfterAmbiguity(counted))
  }

  /** Commits a tool answer onto the dispatch record this runner saved. */
  function AfterTool(s: EpisodeState, index: nat, outcome: ToolOutcome): Fallible<Step>
    requires index < |s.operations|
  {
    var o := s.operations[index];
    match outcome
    case Completed(status, result, receipts, satisfies) =>
      if !status.IsTerminal() || status.RejectedAsInvalid? then Err(InvalidToolOutcome)
      else if satisfies && !o.authority.VerifiedReference? then Err(UntrustedCompletion)
      else
        var finished :- FinishOperation(o, status, result, receipts);
        Ok(Commit(s.(operations := s.operations[index := finished], satisfied := s.satisfied || satisfies),
                  Progressed(EpisodeStatus.ToolWorkPending)))
    case Pending(_) =>
      var running :- if o.status.Running? then Ok(o) else AdvanceOperation(o, ToolStatus.Running);
      Ok(Commit(s.(operations := s.operations[index := running]), Progressed(EpisodeStatus.ToolWorkPending)))
    case AmbiguousOutcome(_) =>
      var ambiguous :- if o.status.Reconciling? then Ok(o) else AdvanceOperation(o, ToolStatus.Ambiguous);
      SuspendStep(s.(operations := s.operations[index := ambiguous]))
  }

  // ----- Operator commands. `Rest` means that nothing is saved.

  function ResumeEpisode(s: EpisodeState, granted: Allowance): Fallible<Step> {
    if !s.policy.Valid() then Err(InvalidPolicy)
    else if |s.turns| > |s.attempts| then Err(InvalidDurableState)
    else if exists i :: 0 <= i < |s.turns| && !ValidTurn(s.turns[i].narrative, s.turns[i].calls)
    then Err(InvalidTurn)
    else if !s.status.IsTerminal() then Ok(Rest(Progressed(s.status)))
    else
      var reopened :- Reopen(s);
      var policy := s.policy.WithAllowance(granted);
      if !policy.Valid() then Err(InvalidPolicy)
      else
        Ok(Commit(
          reopened.(policy := policy,
                    grants := s.grants + [Grant(s.status, s.policy.allowance, granted)],
                    cancelRequested := false),
          Progressed(s.status)))
  }

  function FirstDispatching(ops: seq<Operation>, from: nat := 0): (index: nat)
    requires from <= |ops|
    ensures from <= index <= |ops|
    ensures forall j :: from <= j < index ==> !ops[j].status.Dispatching?
    ensures index < |ops| ==> ops[index].status.Dispatching?
    decreases |ops| - from
  {
    if from == |ops| || ops[from].status.Dispatching? then from else FirstDispatching(ops, from + 1)
  }

  predicate ModelInDoubt(s: EpisodeState) {
    s.attempts != [] && s.attempts[|s.attempts| - 1].status.Dispatching?
  }

  predicate ToolInDoubt(s: EpisodeState) {
    exists i :: 0 <= i < |s.operations| && s.operations[i].status.InFlight()
  }

  /** An attempt cancelled in mid-dispatch is closed without a diagnostic. */
  function SettleModel(s: EpisodeState): Fallible<EpisodeState> {
    if !ModelInDoubt(s) then Ok(s)
    else
      var finished :- FinishWithoutResponse(
        s.attempts[|s.attempts| - 1], AttemptStatus.CancelledAmbiguous, None);
      Ok(WithLastAttempt(s, finished))
  }

  /** A committed dispatch whose outcome is unknown is recorded as ambiguous. */
  function SettleTool(s: EpisodeState): Fallible<EpisodeState> {
    var index := FirstDispatching(s.operations);
    if index == |s.operations| then Ok(s)
    else
      var ambiguous :- AdvanceOperation(s.operations[index], ToolStatus.Ambiguous);
      Ok(s.(operations := s.operations[index := ambiguous]))
  }

  function CancelEpisode(s: EpisodeState): Fallible<Step> {
    if s.status.IsTerminal() then Ok(Rest(Terminal(s.status)))
    else
      var modelSettled :- SettleModel(s.(cancelRequested := true));
      var settled :- SettleTool(modelSettled);
      var moved :-
        if ModelInDoubt(s) || ToolInDoubt(s) then
          if s.status.Suspended? then Ok(settled) else Suspend(settled)
        else if s.status.CancellationPending? then Ok(settled)
        else Transition(settled, EpisodeStatus.CancellationPending);
      Ok(Commit(moved, Progressed(moved.status)))
  }

  function ResumeReconciliation(s: EpisodeState): Fallible<Step> {
    if !s.status.Suspended? then Err(InvalidDurableState)
    else
      var next :=
        if FirstUnfinished(s.operations) < |s.operations| then EpisodeStatus.ToolWorkPending
        else if s.cancelRequested then EpisodeStatus.CancellationPending
        else EpisodeStatus.ReadyForModel;
      TransitionOnly(s, next)
  }
}

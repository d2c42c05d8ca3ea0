/**
 Durable records of one agent episode: identities, the two lifecycle tables, the loop policy, and
 the aggregate that the reducer saves after each boundary.

 A record is a value. The repository hands out clones and stores what it is given, so no two
 holders ever share one.
 */
module EpisodeRecords {
  import opened Outcomes

  type EpisodeId = string

  const U32_MAX: nat := 0xFFFF_FFFF

  type U32 = n: int | 0 <= n <= 0xFFFF_FFFF

  /** Content identities. SHA-256 is taken to be injective, so every preimage that the runtime
      builds from fixed-width parts is a free constructor. */
  datatype Digest =
    | OfBytes(bytes: seq<nat>)
    | Issued(serial: nat)
    | ContinuationInput(continuation: Digest, results: seq<Digest>)
    | OperationIdentity(turn: nat, callIndex: nat, name: string, version: string,
                        arguments: Digest, input: Digest)

  // ----- Episode lifecycle

  datatype EpisodeStatus =
    | Created
    | ReadyForModel
    | ModelAttemptPending
    | TurnRecorded
    | ToolWorkPending
    | StopReview
    | SuspensionRequested
    | Suspended
    | CancellationPending
    | Succeeded
    | Incomplete
    | Cancelled
    | BudgetExhausted
    | Failed
  {
    predicate CanTransitionTo(next: EpisodeStatus) {
      match this
      case Created => next.ReadyForModel? || next.CancellationPending?
      case ReadyForModel =>
        next.ModelAttemptPending? || next.SuspensionRequested? || next.CancellationPending?
        || next.BudgetExhausted? || next.Failed?
      case ModelAttemptPending =>
        next.TurnRecorded? || next.ReadyForModel? || next.SuspensionRequested?
        || next.CancellationPending? || next.BudgetExhausted? || next.Failed?
      case TurnRecorded =>
        next.ToolWorkPending? || next.StopReview? || next.CancellationPending?
        || next.BudgetExhausted? || next.Failed?
      case ToolWorkPending =>
        next.ReadyForModel? || next.SuspensionRequested? || next.CancellationPending?
        || next.BudgetExhausted? || next.Failed?
      case StopReview =>
        next.ReadyForModel? || next.Succeeded? || next.Incomplete? || next.SuspensionRequested?
        || next.CancellationPending? || next.BudgetExhausted? || next.Failed?
      case SuspensionRequested =>
        next.Suspended? || next.CancellationPending? || next.Failed?
      case Suspended =>
        next.ReadyForModel? || next.ToolWorkPending? || next.CancellationPending? || next.Failed?
      case CancellationPending => next.Cancelled? || next.Suspended?
      case _ => false
    }

    predicate IsTerminal() {
      Succeeded? || Incomplete? || Cancelled? || BudgetExhausted? || Failed?
    }
  }

  // ----- Tool-operation lifecycle

  datatype ToolStatus =
    | Requested
    | AwaitingPermission
    | Authorized
    | Dispatching
    | Running
    | Ambiguous
    | Reconciling
    | RejectedAsInvalid
    | Denied
    | Succeeded
    | CandidateFailed
    | InfraFailed
    | TimedOut
    | Cancelled
  {
    predicate CanTransitionTo(next: ToolStatus) {
      match this
      case Requested => next.AwaitingPermission? || next.Authorized? || next.RejectedAsInvalid?
      case AwaitingPermission => next.Authorized? || next.Denied?
      case Authorized => next.Dispatching? || next.Cancelled?
      case Dispatching =>
        next.Running? || next.Ambiguous? || next.Succeeded? || next.CandidateFailed?
        || next.InfraFailed? || next.TimedOut? || next.Cancelled?
      case Running =>
        next.Ambiguous? || next.Succeeded? || next.CandidateFailed? || next.InfraFailed?
        || next.TimedOut? || next.Cancelled?
      case Ambiguous => next.Reconciling?
      case Reconciling =>
        next.Running? || next.Succeeded? || next.CandidateFailed? || next.InfraFailed?
        || next.TimedOut? || next.Cancelled?
      case _ => false
    }

    predicate IsTerminal() {
      RejectedAsInvalid? || Denied? || Succeeded? || CandidateFailed? || InfraFailed?
      || TimedOut? || Cancelled?
    }

    /** A dispatch has been committed and no result has. */
    predicate InFlight() {
      Dispatching? || Running? || Ambiguous? || Reconciling?
    }
  }

  datatype ToolAuthority = Narrative | Reported | Observed | VerifiedReference

  datatype ToolCall = ToolCall(nativeId: string, name: string, arguments: seq<nat>)

  datatype Operation = Operation(
    id: OperationId,
    turn: nat,
    call: ToolCall,
    authority: ToolAuthority,
    input: Digest,
    status: ToolStatus,
    result: Option<Digest>,
    receipts: seq<Digest>)

  /** `tool-<call number>-<digest>`. */
  datatype OperationId = OperationId(callNumber: nat, identity: Digest)

  // ----- Model attempts and turns

  datatype AttemptStatus =
    | Prepared
    | Dispatching
    | Responded
    | Decoded
    | DecodeFailed
    | ConfirmedNotSent
    | Failed
    | Ambiguous
    | CancelledAmbiguous
  {
    predicate IsTerminal() {
      Decoded? || DecodeFailed? || ConfirmedNotSent? || Failed? || Ambiguous? || CancelledAmbiguous?
    }
  }

  /** The attempt's identity is derived from its number, so the number stands for it. */
  datatype ModelAttempt = ModelAttempt(
    number: nat,
    request: Digest,
    predecessor: Option<nat>,
    predecessorContinuation: Option<Digest>,
    status: AttemptStatus,
    response: Option<Digest>,
    continuation: Option<Digest>,
    diagnostic: Option<Digest>)

  /** The turn's identity is derived from its number; `attempt` is the attempt that produced it. */
  datatype Turn = Turn(
    number: nat,
    attempt: nat,
    continuation: Digest,
    narrative: seq<string>,
    calls: seq<ToolCall>)

  // ----- Policy

  datatype Rules = Rules(maxCallsPerTurn: U32, maxAmbiguousAttempts: U32, maxStopFeedback: U32)

  datatype Allowance = Allowance(maxTurns: U32, maxAttempts: U32, maxOperations: U32)

  datatype Policy = Policy(rules: Rules, allowance: Allowance) {
    /** Positive hard limits, and at least as many attempts as turns. */
    predicate Valid() {
      && allowance.maxTurns != 0
      && allowance.maxAttempts != 0
      && rules.maxCallsPerTurn != 0
      && allowance.maxOperations != 0
      && allowance.maxAttempts >= allowance.maxTurns
    }

    function WithAllowance(granted: Allowance): Policy {
      Policy(rules, granted)
    }
  }

  datatype Grant = Grant(resumedFrom: EpisodeStatus, previous: Allowance, granted: Allowance)

  // ----- The aggregate

  datatype EpisodeState = EpisodeState(
    id: EpisodeId,
    status: EpisodeStatus,
    policy: Policy,
    initialInput: Digest,
    nextInput: Digest,
    attempts: seq<ModelAttempt>,
    turns: seq<Turn>,
    operations: seq<Operation>,
    ambiguousAttempts: U32,
    stopFeedback: U32,
    satisfied: bool,
    cancelRequested: bool,
    grants: seq<Grant>)

  datatype FaultPoint =
    | AfterModelDispatchCommit
    | AfterModelOutcomeBeforeCommit
    | AfterTurnCommit
    | AfterToolDispatchCommit
    | AfterToolOutcomeBeforeCommit
    | AfterToolResultCommit

  datatype RuntimeError =
    | InvalidPolicy
    | CounterExhausted
    | MissingModelAttempt
    | MissingTurn
    | InvalidDurableState
    | InvalidToolOutcome
    | UntrustedCompletion
    | InjectedCrash(point: FaultPoint)
    | EmptyField
    | InvalidEpisodeTransition(from: EpisodeStatus, to: EpisodeStatus)
    | InvalidToolTransition(toolFrom: ToolStatus, toolTo: ToolStatus)
    | TerminalResultRequired
    | InvalidAttemptTransition(attemptFrom: AttemptStatus)
    | InvalidTurn
    | AlreadyExists
    | NotFound
    | RevisionConflict(expected: nat, actual: nat)
    | RevisionExhausted
    | ModelGatewayFailed
    | ToolGatewayFailed

  // ----- Checked record updates

  function Transition(s: EpisodeState, next: EpisodeStatus): (r: Result<EpisodeState, RuntimeError>)
    ensures r.Ok? <==> s.status.CanTransitionTo(next)
    ensures r.Ok? ==> r.value == s.(status := next)
  {
    if s.status.CanTransitionTo(next) then Ok(s.(status := next))
    else Err(InvalidEpisodeTransition(s.status, next))
  }

  /** Reopens a finished episode. Deliberately not an edge of the transition table. */
  function Reopen(s: EpisodeState): Result<EpisodeState, RuntimeError> {
    if s.status.Failed? || s.status.Incomplete? || s.status.BudgetExhausted?
    then Ok(s.(status := EpisodeStatus.ReadyForModel))
    else Err(InvalidEpisodeTransition(s.status, EpisodeStatus.ReadyForModel))
  }

  function AdvanceOperation(o: Operation, next: ToolStatus): Result<Operation, RuntimeError> {
    if next.IsTerminal() then Err(TerminalResultRequired)
    else if !o.status.CanTransitionTo(next) then Err(InvalidToolTransition(o.status, next))
    else Ok(o.(status := next))
  }

  function FinishOperation(o: Operation, terminal: ToolStatus, result: Digest, receipts: seq<Digest>)
    : Result<Operation, RuntimeError>
  {
    if !terminal.IsTerminal() || !o.status.CanTransitionTo(terminal)
    then Err(InvalidToolTransition(o.status, terminal))
    else Ok(o.(status := terminal, result := Some(result), receipts := receipts))
  }

  function MarkDispatching(a: ModelAttempt): Result<ModelAttempt, RuntimeError> {
    if a.status.Prepared? then Ok(a.(status := AttemptStatus.Dispatching))
    else Err(InvalidAttemptTransition(a.status))
  }

  function RecordResponse(a: ModelAttempt, response: Digest): Result<ModelAttempt, RuntimeError> {
    if a.status.Dispatching? then Ok(a.(status := AttemptStatus.Responded, response := Some(response)))
    else Err(InvalidAttemptTransition(a.status))
  }

  function MarkDecoded(a: ModelAttempt, continuation: Digest): Result<ModelAttempt, RuntimeError> {
    if a.status.Responded?
    then Ok(a.(status := AttemptStatus.Decoded, continuation := Some(continuation)))
    else Err(InvalidAttemptTransition(a.status))
  }

  function MarkResponseUnusable(a: ModelAttempt, terminal: AttemptStatus, diagnostic: Option<Digest>)
    : Result<ModelAttempt, RuntimeError>
    requires terminal.DecodeFailed? || terminal.Failed?
  {
    if a.status.Responded? then Ok(a.(status := terminal, diagnostic := diagnostic))
    else Err(InvalidAttemptTransition(a.status))
  }

  function FinishWithoutResponse(a: ModelAttempt, terminal: AttemptStatus, diagnostic: Option<Digest>)
    : Result<ModelAttempt, RuntimeError>
  {
    if !a.status.Dispatching? then Err(InvalidAttemptTransition(a.status))
    else if !(terminal.ConfirmedNotSent? || terminal.Failed? || terminal.Ambiguous? || terminal.CancelledAmbiguous?)
    then Err(InvalidAttemptTransition(terminal))
    else Ok(a.(status := terminal, diagnostic := diagnostic))
  }
}

/**
 What every committed state satisfies. The invariant is the conjunction of seven groups; each segment
 of the reducer keeps all of them and only ever extends the recorded history.
 */
module EpisodeInvariant {
  import opened Outcomes
  import opened EpisodeRecords
  import opened EpisodeReducer

  // ----- Model attempts

  ghost predicate AttemptsOk(s: EpisodeState) {
    && (forall i :: 0 <= i < |s.attempts| ==> s.attempts[i].number == i + 1)
    && (forall i :: 0 <= i < |s.attempts| - 1 ==> s.attempts[i].status.IsTerminal())
    && (s.status.ModelAttemptPending? ==>
          && s.attempts != []
          && (LastAttempt(s).status.Prepared? || LastAttempt(s).status.Dispatching?)
          && LastAttempt(s).request == s.nextInput)
    && (s.attempts != [] && !s.status.ModelAttemptPending? && !LastAttempt(s).status.IsTerminal() ==>
          && LastAttempt(s).status.Prepared?
          && (s.status.CancellationPending? || s.status.Cancelled?))
  }

  function LastAttempt(s: EpisodeState): ModelAttempt
    requires s.attempts != []
  {
    s.attempts[|s.attempts| - 1]
  }

  // ----- Turns

  function LastTurn(s: EpisodeState): Turn
    requires s.turns != []
  {
    s.turns[|s.turns| - 1]
  }

  ghost predicate TurnsOk(s: EpisodeState) {
    && (forall k :: 0 <= k < |s.turns| ==>
          && s.turns[k].number == k + 1
          && k + 1 <= s.turns[k].attempt <= |s.attempts|
          && s.attempts[s.turns[k].attempt - 1].status.Decoded?
          && |s.turns[k].calls| <= U32_MAX)
    && (forall j, k :: 0 <= j < k < |s.turns| ==> s.turns[j].attempt < s.turns[k].attempt)
    && (s.status.TurnRecorded? || s.status.StopReview? ==>
          && s.turns != []
          && forall j :: 0 <= j < |s.operations| ==> s.operations[j].turn < |s.turns|)
  }

  // ----- Operations: which call each one answers

  function CallIndex(o: Operation): nat {
    if o.id.identity.OperationIdentity? then o.id.identity.callIndex else 0
  }

  predicate Before(o: Operation, p: Operation) {
    o.turn < p.turn || (o.turn == p.turn && CallIndex(o) < CallIndex(p))
  }

  /** `o` records call number `CallIndex(o)` of `turn`, and its identity says so. */
  predicate Answers(o: Operation, turn: Turn) {
    && o.turn == turn.number
    && o.id.identity.OperationIdentity?
    && o.id.identity.turn == turn.number
    && o.id.identity.input == o.input
    && o.id.callNumber == CallIndex(o) + 1
    && CallIndex(o) < |turn.calls|
    && o.call == turn.calls[CallIndex(o)]
  }

  /** Position `base` starts one operation for each call of `turn`, in call order. */
  ghost predicate Block(ops: seq<Operation>, base: int, turn: Turn) {
    && 0 <= base <= base + |turn.calls| <= |ops|
    && forall d :: base <= d < base + |turn.calls| ==>
         Answers(ops[d], turn) && CallIndex(ops[d]) == d - base
  }

  ghost predicate LayoutOk(s: EpisodeState) {
    && (forall j :: 0 <= j < |s.operations| ==>
          && 1 <= s.operations[j].turn <= |s.turns|
          && Block(s.operations, j - CallIndex(s.operations[j]), s.turns[s.operations[j].turn - 1])
          && Answers(s.operations[j], s.turns[s.operations[j].turn - 1]))
    && (forall j, k :: 0 <= j < k < |s.operations| ==> Before(s.operations[j], s.operations[k]))
  }

  // ----- Operations: one at a time

  predicate ToolPhase(status: EpisodeStatus) {
    status.ToolWorkPending? || status.Suspended? || status.CancellationPending? || status.Cancelled?
  }

  predicate OperationOk(s: EpisodeState, o: Operation) {
    && (o.status.IsTerminal() || o.status.Requested? || o.status.InFlight())
    && !o.status.Denied?
    && (o.status.IsTerminal() <==> o.result.Some?)
    && (!o.status.IsTerminal() ==>
          && o.turn == |s.turns|
          && o.input == s.nextInput
          && ToolPhase(s.status))
    && (o.status.InFlight() ==> s.status.ToolWorkPending? || s.status.Suspended?)
  }

  ghost predicate ToolsOk(s: EpisodeState) {
    && (forall j :: 0 <= j < |s.operations| ==> OperationOk(s, s.operations[j]))
    && (forall j, k :: 0 <= j < k < |s.operations| && !s.operations[j].status.IsTerminal() ==>
          s.operations[k].status.Requested? || s.operations[k].status.RejectedAsInvalid?)
    && (s.status.ToolWorkPending? ==>
          && s.operations != []
          && s.operations[|s.operations| - 1].turn == |s.turns|)
  }

  // ----- Flags

  ghost predicate HasUnfinished(s: EpisodeState) {
    exists j :: 0 <= j < |s.operations| && !s.operations[j].status.IsTerminal()
  }

  /** A gateway completed this operation, and its tool may speak for the verified reference. */
  predicate Trusted(o: Operation) {
    o.authority.VerifiedReference? && o.status.IsTerminal() && !o.status.RejectedAsInvalid?
  }

  ghost predicate FlagsOk(s: EpisodeState) {
    && !s.status.SuspensionRequested?
    && (s.status.Suspended? ==> s.cancelRequested || HasUnfinished(s))
    && (s.cancelRequested ==> s.status.ReadyForModel? || ToolPhase(s.status))
    && (s.status.CancellationPending? || s.status.Cancelled? ==> s.cancelRequested)
    && (s.status.Succeeded? ==> s.satisfied)
    && (s.satisfied ==> exists j :: 0 <= j < |s.operations| && Trusted(s.operations[j]))
  }

  // ----- Budgets

  /** Every allowance that was ever in force, oldest first. */
  function Allowances(s: EpisodeState): seq<Allowance> {
    seq(|s.grants|, i requires 0 <= i < |s.grants| => s.grants[i].previous) + [s.policy.allowance]
  }

  ghost predicate AttemptsAllowed(allowances: seq<Allowance>, count: nat) {
    exists i :: 0 <= i < |allowances| && count <= allowances[i].maxAttempts
  }

  ghost predicate TurnsAllowed(allowances: seq<Allowance>, count: nat) {
    exists i :: 0 <= i < |allowances| && count <= allowances[i].maxTurns
  }

  ghost predicate OperationsAllowed(allowances: seq<Allowance>, count: nat) {
    exists i :: 0 <= i < |allowances| && count <= allowances[i].maxOperations
  }

  /** Spending stays within the largest allowance ever in force, and the grants form one chain. */
  ghost predicate SpendingOk(s: EpisodeState) {
    && s.policy.Valid()
    && (forall i :: 0 <= i < |s.grants| ==> s.grants[i].granted == Allowances(s)[i + 1])
    && AttemptsAllowed(Allowances(s), |s.attempts|)
    && TurnsAllowed(Allowances(s), |s.turns|)
    && OperationsAllowed(Allowances(s), |s.operations|)
  }

  ghost predicate CountersOk(s: EpisodeState) {
    && (s.status.ModelAttemptPending? ==>
          && |s.turns| < s.policy.allowance.maxTurns
          && |s.attempts| <= s.policy.allowance.maxAttempts)
    && s.stopFeedback <= s.policy.rules.maxStopFeedback
    && s.ambiguousAttempts <=
         s.policy.rules.maxAmbiguousAttempts + |s.grants| + (if s.status.BudgetExhausted? then 1 else 0)
    && s.ambiguousAttempts + (if s.status.ModelAttemptPending? then 1 else 0) <= |s.attempts|
  }

  ghost predicate StateInv(s: EpisodeState) {
    AttemptsOk(s) && TurnsOk(s) && LayoutOk(s) && ToolsOk(s) && FlagsOk(s) && SpendingOk(s) && CountersOk(s)
  }

  // ----- History only grows

  predicate AttemptEvolves(a: ModelAttempt, b: ModelAttempt) {
    && b.number == a.number && b.request == a.request
    && b.predecessor == a.predecessor && b.predecessorContinuation == a.predecessorContinuation
    && (a.status.IsTerminal() ==> b == a)
    && (!a.status.Prepared? ==> !b.status.Prepared?)
  }

  /** A dispatch was committed for this operation. */
  predicate Dispatched(status: ToolStatus) {
    status.InFlight() || (status.IsTerminal() && !status.RejectedAsInvalid? && !status.Denied?)
  }

  /** The dispatch has also been followed by an answer or by a recorded doubt. */
  predicate Followed(status: ToolStatus) {
    Dispatched(status) && !status.Dispatching?
  }

  predicate OperationEvolves(o: Operation, p: Operation) {
    && p.id == o.id && p.turn == o.turn && p.call == o.call
    && p.authority == o.authority && p.input == o.input
    && (o.status.IsTerminal() ==> p == o)
    && (Dispatched(o.status) ==> Dispatched(p.status))
    && (Followed(o.status) ==> Followed(p.status))
  }

  ghost predicate Evolves(s: EpisodeState, t: EpisodeState) {
    && t.id == s.id && t.policy.rules == s.policy.rules && t.initialInput == s.initialInput
    && |s.attempts| <= |t.attempts|
    && (forall i :: 0 <= i < |s.attempts| ==> AttemptEvolves(s.attempts[i], t.attempts[i]))
    && s.turns <= t.turns
    && |s.operations| <= |t.operations|
    && (forall j :: 0 <= j < |s.operations| ==> OperationEvolves(s.operations[j], t.operations[j]))
    && s.grants <= t.grants
    && s.stopFeedback <= t.stopFeedback
    && s.ambiguousAttempts <= t.ambiguousAttempts
    && (s.satisfied ==> t.satisfied)
    && (s.cancelRequested ==> t.cancelRequested)
  }

  lemma EvolvesTransitive(s: EpisodeState, t: EpisodeState, u: EpisodeState)
    requires Evolves(s, t) && Evolves(t, u)
    ensures Evolves(s, u)
  {
  }

  // ----- Creation

  lemma InitialStateInv(id: EpisodeId, policy: Policy, input: Digest)
    requires InitialState(id, policy, input).Ok?
    ensures StateInv(InitialState(id, policy, input).value)
  {
    var s := InitialState(id, policy, input).value;
    assert Allowances(s)[0] == policy.allowance;
  }

  // ----- What a group needs in order to survive

  lemma NothingUnfinished(s: EpisodeState)
    requires ToolsOk(s) && !ToolPhase(s.status)
    ensures !HasUnfinished(s)
  {
  }

  lemma AttemptsSettled(s: EpisodeState, t: EpisodeState)
    requires AttemptsOk(s) && t.attempts == s.attempts && !t.status.ModelAttemptPending?
    requires s.attempts == [] || LastAttempt(s).status.IsTerminal()
             || (LastAttempt(s).status.Prepared? && (t.status.CancellationPending? || t.status.Cancelled?))
    ensures AttemptsOk(t)
  {
  }

  lemma AttemptReplaced(s: EpisodeState, t: EpisodeState, a: ModelAttempt)
    requires AttemptsOk(s) && s.status.ModelAttemptPending?
    requires t.attempts == s.attempts[|s.attempts| - 1 := a] && a.number == LastAttempt(s).number
    requires if t.status.ModelAttemptPending?
             then a.status.Dispatching? && a.request == t.nextInput
             else a.status.IsTerminal()
    ensures AttemptsOk(t)
  {
  }

  lemma AttemptAppended(s: EpisodeState, t: EpisodeState, a: ModelAttempt)
    requires AttemptsOk(s) && !s.status.ModelAttemptPending? && t.status.ModelAttemptPending?
    requires s.attempts == [] || LastAttempt(s).status.IsTerminal()
    requires t.attempts == s.attempts + [a]
    requires a.number == |s.attempts| + 1 && a.status.Prepared? && a.request == t.nextInput
    ensures AttemptsOk(t)
  {
  }

  /** A turn keeps its evidence as long as decoded attempts stay decoded. */
  lemma TurnsKept(s: EpisodeState, t: EpisodeState)
    requires TurnsOk(s) && t.turns == s.turns
    requires |s.attempts| <= |t.attempts|
    requires forall i :: 0 <= i < |s.attempts| && s.attempts[i].status.Decoded? ==> t.attempts[i].status.Decoded?
    requires t.status.TurnRecorded? || t.status.StopReview? ==>
               t.operations == s.operations && (s.status.TurnRecorded? || s.status.StopReview?)
    ensures TurnsOk(t)
  {
  }

  lemma TurnsPredateLastAttempt(s: EpisodeState, k: nat)
    requires TurnsOk(s) && s.attempts != [] && !LastAttempt(s).status.Decoded? && k < |s.turns|
    ensures s.turns[k].attempt < |s.attempts|
  {
  }

  lemma TurnsKeptByAttempt(s: EpisodeState, t: EpisodeState, a: ModelAttempt)
    requires TurnsOk(s) && s.attempts != [] && !LastAttempt(s).status.Decoded?
    requires t.turns == s.turns && t.attempts == s.attempts[|s.attempts| - 1 := a]
    requires !t.status.TurnRecorded? && !t.status.StopReview?
    ensures TurnsOk(t)
  {
  }

  lemma KeepsLayout(s: EpisodeState, t: EpisodeState)
    requires LayoutOk(s) && t.operations == s.operations && s.turns <= t.turns
    ensures LayoutOk(t)
  {
    forall j | 0 <= j < |t.operations|
      ensures && 1 <= t.operations[j].turn <= |t.turns|
              && Block(t.operations, j - CallIndex(t.operations[j]), t.turns[t.operations[j].turn - 1])
              && Answers(t.operations[j], t.turns[t.operations[j].turn - 1])
    {
      assert Block(s.operations, j - CallIndex(s.operations[j]), s.turns[s.operations[j].turn - 1]);
    }
  }

  lemma ToolsDone(s: EpisodeState, t: EpisodeState)
    requires ToolsOk(s) && !HasUnfinished(s)
    requires t.operations == s.operations && !t.status.ToolWorkPending?
    ensures ToolsOk(t)
  {
  }

  lemma AllowancesKept(s: EpisodeState, t: EpisodeState)
    requires t.grants == s.grants && t.policy == s.policy
    ensures Allowances(t) == Allowances(s)
    ensures Allowances(s)[|s.grants|] == s.policy.allowance
  {
  }

  lemma SpendingKept(s: EpisodeState, t: EpisodeState)
    requires SpendingOk(s) && t.grants == s.grants && t.policy == s.policy
    requires |t.attempts| == |s.attempts| || |t.attempts| <= s.policy.allowance.maxAttempts
    requires |t.turns| == |s.turns| || |t.turns| <= s.policy.allowance.maxTurns
    requires |t.operations| == |s.operations| || |t.operations| <= s.policy.allowance.maxOperations
    ensures SpendingOk(t)
  {
    AllowancesKept(s, t);
    forall i | 0 <= i < |t.grants| ensures t.grants[i].granted == Allowances(t)[i + 1] {
      assert s.grants[i].granted == Allowances(s)[i + 1];
    }
  }

  // ----- Segments that touch no operation

  /** The moves that change nothing but the status. */
  predicate PlainMove(s: EpisodeState, next: EpisodeStatus) {
    || (s.status.Created? && next.ReadyForModel?)
    || (s.status.ReadyForModel? && next.CancellationPending? && s.cancelRequested)
    || (s.status.ReadyForModel? && next.BudgetExhausted? && !s.cancelRequested)
    || (s.status.TurnRecorded? && (next.StopReview? || next.BudgetExhausted?))
    || (s.status.StopReview? && (next.Incomplete? || (next.Succeeded? && s.satisfied)))
  }

  lemma PlainMoveInv(s: EpisodeState, next: EpisodeStatus)
    requires StateInv(s) && PlainMove(s, next)
    ensures StateInv(s.(status := next))
  {
    var t := s.(status := next);
    AttemptsSettled(s, t);
    TurnsKept(s, t);
    KeepsLayout(s, t);
    NothingUnfinished(s);
    ToolsDone(s, t);
    SpendingKept(s, t);
  }

  lemma CancelledInv(s: EpisodeState)
    requires StateInv(s) && s.status.CancellationPending?
    ensures StateInv(s.(status := EpisodeStatus.Cancelled))
  {
    var t := s.(status := EpisodeStatus.Cancelled);
    AttemptsSettled(s, t);
    TurnsKept(s, t);
    KeepsLayout(s, t);
    SpendingKept(s, t);
  }

  lemma AttemptPreparedInv(s: EpisodeState)
    requires StateInv(s) && s.status.ReadyForModel? && !s.cancelRequested
    requires |s.turns| < s.policy.allowance.maxTurns && |s.attempts| < s.policy.allowance.maxAttempts
    ensures StateInv(s.(attempts := s.attempts + [NewAttempt(s)], status := EpisodeStatus.ModelAttemptPending))
  {
    var t := s.(attempts := s.attempts + [NewAttempt(s)], status := EpisodeStatus.ModelAttemptPending);
    AttemptAppended(s, t, NewAttempt(s));
    TurnsKept(s, t);
    KeepsLayout(s, t);
    NothingUnfinished(s);
    ToolsDone(s, t);
    SpendingKept(s, t);
  }

  lemma AttemptDispatchedInv(s: EpisodeState, a: ModelAttempt)
    requires StateInv(s) && s.status.ModelAttemptPending?
    requires a.number == LastAttempt(s).number && a.status.Dispatching? && a.request == s.nextInput
    ensures StateInv(WithLastAttempt(s, a))
  {
    var t := WithLastAttempt(s, a);
    AttemptReplaced(s, t, a);
    TurnsKeptByAttempt(s, t, a);
    KeepsLayout(s, t);
    NothingUnfinished(s);
    ToolsDone(s, t);
    SpendingKept(s, t);
  }

  /** The counter of unresolved attempts moves with the status it forces. */
  predicate Counted(s: EpisodeState, next: EpisodeStatus, ambiguous: U32) {
    || ambiguous == s.ambiguousAttempts
    || (ambiguous == s.ambiguousAttempts + 1
        && (next.BudgetExhausted? || ambiguous <= s.policy.rules.maxAmbiguousAttempts))
  }

  lemma AttemptClosedInv(s: EpisodeState, a: ModelAttempt, next: EpisodeStatus, ambiguous: U32)
    requires StateInv(s) && s.status.ModelAttemptPending?
    requires a.number == LastAttempt(s).number && a.status.IsTerminal()
    requires next.ReadyForModel? || next.Failed? || next.BudgetExhausted?
    requires Counted(s, next, ambiguous)
    ensures StateInv(WithLastAttempt(s, a).(status := next, ambiguousAttempts := ambiguous))
  {
    var t := WithLastAttempt(s, a).(status := next, ambiguousAttempts := ambiguous);
    AttemptReplaced(s, t, a);
    TurnsKeptByAttempt(s, t, a);
    KeepsLayout(s, t);
    NothingUnfinished(s);
    ToolsDone(s, t);
    SpendingKept(s, t);
  }

  lemma TurnAppended(s: EpisodeState, t: EpisodeState, a: ModelAttempt, turn: Turn)
    requires TurnsOk(s) && s.attempts != [] && !LastAttempt(s).status.Decoded? && a.status.Decoded?
    requires forall j :: 0 <= j < |s.operations| ==> s.operations[j].turn <= |s.turns|
    requires t.turns == s.turns + [turn] && t.operations == s.operations
    requires t.attempts == s.attempts[|s.attempts| - 1 := a]
    requires turn.number == |s.turns| + 1 && turn.attempt == |s.attempts| && |turn.calls| <= U32_MAX
    ensures TurnsOk(t)
  {
    var n := |s.turns|;
    forall k | 0 <= k < n ensures s.turns[k].attempt < |s.attempts| {
      TurnsPredateLastAttempt(s, k);
    }
    assert n + 1 <= |s.attempts| by {
      if n > 0 {
        assert n <= s.turns[n - 1].attempt;
      }
    }
    forall k | 0 <= k <= n
      ensures && t.turns[k].number == k + 1
              && k + 1 <= t.turns[k].attempt <= |t.attempts|
              && t.attempts[t.turns[k].attempt - 1].status.Decoded?
              && |t.turns[k].calls| <= U32_MAX
    {
      assert t.turns[k] == if k < n then s.turns[k] else turn;
    }
    forall j, k | 0 <= j < k <= n ensures t.turns[j].attempt < t.turns[k].attempt {
      assert t.turns[j] == s.turns[j];
      assert t.turns[k] == if k < n then s.turns[k] else turn;
    }
  }

  lemma TurnRecordedInv(s: EpisodeState, a: ModelAttempt, turn: Turn)
    requires StateInv(s) && s.status.ModelAttemptPending?
    requires a.number == LastAttempt(s).number && a.status.Decoded?
    requires turn.number == |s.turns| + 1 && turn.attempt == a.number && |turn.calls| <= U32_MAX
    ensures StateInv(WithLastAttempt(s, a).(turns := s.turns + [turn], status := EpisodeStatus.TurnRecorded))
  {
    var t := WithLastAttempt(s, a).(turns := s.turns + [turn], status := EpisodeStatus.TurnRecorded);
    AttemptReplaced(s, t, a);
    TurnAppended(s, t, a, turn);
    KeepsLayout(s, t);
    NothingUnfinished(s);
    ToolsDone(s, t);
    SpendingKept(s, t);
  }

  /** The next request is bound again once nothing of the last turn is unfinished. */
  lemma ReboundInv(s: EpisodeState, input: Digest, feedback: U32)
    requires StateInv(s) && (s.status.StopReview? || s.status.ToolWorkPending?) && !HasUnfinished(s)
    requires s.stopFeedback <= feedback <= s.policy.rules.maxStopFeedback
    ensures StateInv(s.(nextInput := input, stopFeedback := feedback, status := EpisodeStatus.ReadyForModel))
  {
    var t := s.(nextInput := input, stopFeedback := feedback, status := EpisodeStatus.ReadyForModel);
    AttemptsSettled(s, t);
    TurnsKept(s, t);
    KeepsLayout(s, t);
    ToolsDone(s, t);
    SpendingKept(s, t);
  }
}

/** The second segment of `advance` and the operator commands, each from a state that satisfies the
    invariant: exactly when it is legal, and what it keeps. */
module EpisodeAnswers {
  import opened Outcomes
  import opened EpisodeRecords
  import opened EpisodeReducer
  import opened EpisodeInvariant
  import opened EpisodeToolWork
  import opened EpisodeSegments

  // ----- Model answers

  /** The terminal record an answer without a turn leaves behind. */
  function Unusable(a: ModelAttempt, outcome: ModelOutcome): ModelAttempt
    requires !outcome.TurnAnswer?
  {
    match outcome
    case ConfirmedNotSent(diagnostic, _) =>
      a.(status := AttemptStatus.ConfirmedNotSent, diagnostic := diagnostic)
    case Rejected(response, diagnostic, _) =>
      a.(status := AttemptStatus.Failed, response := Some(response), diagnostic := diagnostic)
    case DecodeFailed(response, diagnostic) =>
      a.(status := AttemptStatus.DecodeFailed, response := Some(response), diagnostic := diagnostic)
    case AmbiguousAnswer(diagnostic) =>
      a.(status := AttemptStatus.Ambiguous, diagnostic := diagnostic)
  }

  /** An answer without a turn closes the attempt and leaves the episode ready, failed or spent. */
  lemma AfterUnusableAnswer(s: EpisodeState, outcome: ModelOutcome)
    requires s.attempts != [] && LastAttempt(s).status.Dispatching? && s.status.ModelAttemptPending?
    requires s.ambiguousAttempts < U32_MAX && !outcome.TurnAnswer?
    ensures AfterModel(s, outcome).Ok? && AfterModel(s, outcome).value.Commit?
    ensures var t := AfterModel(s, outcome).value.state;
            && t == WithLastAttempt(s, Unusable(LastAttempt(s), outcome)).(
                      status := t.status, ambiguousAttempts := t.ambiguousAttempts)
            && (t.status.ReadyForModel? || t.status.Failed? || t.status.BudgetExhausted?)
            && Counted(s, t.status, t.ambiguousAttempts)
  {
  }

  lemma AfterTurnAnswer(s: EpisodeState, outcome: ModelOutcome)
    requires s.attempts != [] && LastAttempt(s).status.Dispatching? && s.status.ModelAttemptPending?
    requires outcome.TurnAnswer?
    ensures |outcome.calls| > U32_MAX ==> AfterModel(s, outcome) == Err(CounterExhausted)
    ensures |outcome.calls| <= U32_MAX ==>
              var a := LastAttempt(s).(status := AttemptStatus.Decoded, response := Some(outcome.exchange),
                                       continuation := Some(outcome.continuation));
              var turn := Turn(|s.turns| + 1, a.number, outcome.continuation, outcome.narrative, outcome.calls);
              AfterModel(s, outcome) ==
                Ok(Commit(WithLastAttempt(s, a).(turns := s.turns + [turn], status := EpisodeStatus.TurnRecorded),
                          Progressed(EpisodeStatus.TurnRecorded)))
  {
  }

  lemma AfterModelKeeps(s: EpisodeState, request: ModelRequest, outcome: ModelOutcome)
    requires ModelHeld(s, request)
    ensures AfterModel(s, outcome).Err? <==> outcome.TurnAnswer? && |outcome.calls| > U32_MAX
    ensures AfterModel(s, outcome).Ok? ==>
              AfterModel(s, outcome).value.Commit? && StepKeeps(s, AfterModel(s, outcome).value)
  {
    hide StateInv, Evolves, AfterModel;
    PendingFacts(s);
    if outcome.TurnAnswer? {
      AfterTurnAnswer(s, outcome);
      if |outcome.calls| <= U32_MAX {
        var t := AfterModel(s, outcome).value.state;
        var a := LastAttempt(t);
        TurnRecordedInv(s, a, t.turns[|s.turns|]);
        EvolvesByAttempt(s, t, a);
      }
    } else {
      AfterUnusableAnswer(s, outcome);
      var t := AfterModel(s, outcome).value.state;
      var a := Unusable(LastAttempt(s), outcome);
      AttemptClosedInv(s, a, t.status, t.ambiguousAttempts);
      EvolvesByAttempt(s, t, a);
    }
  }

  // ----- Tool answers

  /** The answers a gateway may give: a completion by an honest terminal state, or no verdict yet. */
  predicate Acceptable(o: Operation, outcome: ToolOutcome) {
    outcome.Completed? ==>
      && outcome.status.IsTerminal() && !outcome.status.RejectedAsInvalid? && !outcome.status.Denied?
      && (outcome.satisfies ==> o.authority.VerifiedReference?)
  }

  lemma FinishedValue(o: Operation, status: ToolStatus, result: Digest, receipts: seq<Digest>)
    requires o.status.Dispatching? || o.status.Reconciling? || o.status.Running?
    requires status.IsTerminal() && !status.RejectedAsInvalid?
    ensures FinishOperation(o, status, result, receipts).Ok? <==> !status.Denied?
    ensures FinishOperation(o, status, result, receipts).Ok? ==>
              var f := FinishOperation(o, status, result, receipts).value;
              f == o.(status := status, result := Some(result), receipts := receipts) && OperationEvolves(o, f)
  {
  }

  lemma AfterToolValue(s: EpisodeState, index: nat, outcome: ToolOutcome)
    requires index < |s.operations| && s.status.ToolWorkPending?
    requires s.operations[index].status.Dispatching? || s.operations[index].status.Reconciling?
             || s.operations[index].status.Running?
    ensures AfterTool(s, index, outcome).Ok? <==> Acceptable(s.operations[index], outcome)
    ensures AfterTool(s, index, outcome).Ok? ==>
              && AfterTool(s, index, outcome).value.Commit?
              && var t := AfterTool(s, index, outcome).value.state;
                 && |t.operations| == |s.operations|
                 && var o := t.operations[index];
                    && SameIdentity(s.operations[index], o)
                    && OperationEvolves(s.operations[index], o)
                    && t.operations == s.operations[index := o]
                    && (match outcome
                        case Completed(status, result, receipts, satisfies) =>
                          && o == s.operations[index].(status := status, result := Some(result), receipts := receipts)
                          && t == s.(operations := t.operations, satisfied := s.satisfied || satisfies)
                        case Pending(_) =>
                          && o == s.operations[index].(status := ToolStatus.Running)
                          && t == s.(operations := t.operations, status := EpisodeStatus.ToolWorkPending)
                        case AmbiguousOutcome(_) =>
                          && (o.status.Ambiguous? || o.status.Reconciling?)
                          && o.result == s.operations[index].result
                          && t == s.(operations := t.operations, status := EpisodeStatus.Suspended))
  {
    hide FinishOperation;
    if outcome.Completed? && outcome.status.IsTerminal() && !outcome.status.RejectedAsInvalid? {
      FinishedValue(s.operations[index], outcome.status, outcome.result, outcome.receipts);
    }
  }

  lemma HeldFacts(s: EpisodeState, index: nat, invocation: ToolInvocation, reconciling: bool)
    requires ToolHeld(s, index, invocation, reconciling)
    ensures index == FirstUnfinished(s.operations) < |s.operations|
    ensures s.status.ToolWorkPending? && s.operations[index].result.None?
    ensures s.operations[index].status.Dispatching? || s.operations[index].status.Reconciling?
            || s.operations[index].status.Running?
  {
  }

  /** A tool answer is recorded exactly when it is acceptable. */
  lemma AfterToolKeeps(s: EpisodeState, index: nat, invocation: ToolInvocation, reconciling: bool,
                       outcome: ToolOutcome)
    requires ToolHeld(s, index, invocation, reconciling)
    requires index < |s.operations|
    ensures AfterTool(s, index, outcome).Ok? <==> Acceptable(s.operations[index], outcome)
    ensures AfterTool(s, index, outcome).Ok? ==>
              AfterTool(s, index, outcome).value.Commit? && StepKeeps(s, AfterTool(s, index, outcome).value)
  {
    hide StateInv, Evolves, AfterTool;
    HeldFacts(s, index, invocation, reconciling);
    AfterToolValue(s, index, outcome);
    if AfterTool(s, index, outcome).Ok? {
      var t := AfterTool(s, index, outcome).value.state;
      var o := t.operations[index];
      if outcome.Completed? {
        OperationFinishedInv(s, index, o, outcome.satisfies);
      } else {
        OperationMovedInv(s, index, o, t.status);
      }
      EvolvesByOperation(s, t, index, o);
    }
  }

  // ----- Operator commands

  lemma ResumeKeeps(s: EpisodeState, granted: Allowance)
    requires StateInv(s) && ResumeEpisode(s, granted).Ok?
    ensures StepKeeps(s, ResumeEpisode(s, granted).value)
    ensures ResumeEpisode(s, granted).value.Commit? ==>
              && (s.status.Failed? || s.status.Incomplete? || s.status.BudgetExhausted?)
              && !s.cancelRequested
              && s.policy.WithAllowance(granted).Valid()
              && ResumeEpisode(s, granted).value.state ==
                   s.(status := EpisodeStatus.ReadyForModel, policy := s.policy.WithAllowance(granted),
                      grants := s.grants + [Grant(s.status, s.policy.allowance, granted)])
  {
    hide StateInv, Evolves;
    if s.status.IsTerminal() {
      ResumableFacts(s);
      var t := s.(status := EpisodeStatus.ReadyForModel, policy := s.policy.WithAllowance(granted),
                  grants := s.grants + [Grant(s.status, s.policy.allowance, granted)]);
      ReopenedInv(s, granted);
      EvolvesQuietly(s, t);
    }
  }

  /** Only a cancelled episode still carries the request, and that one is never reopened. */
  lemma ResumableFacts(s: EpisodeState)
    requires StateInv(s) && (s.status.Failed? || s.status.Incomplete? || s.status.BudgetExhausted?)
    ensures !s.cancelRequested
  {
  }

  /** Recorded turns are well formed, and a finished episode can be reopened under this grant. */
  predicate ResumeIsDue(s: EpisodeState, granted: Allowance) {
    && (forall i :: 0 <= i < |s.turns| ==> ValidTurn(s.turns[i].narrative, s.turns[i].calls))
    && (s.status.IsTerminal() ==>
          && (s.status.Failed? || s.status.Incomplete? || s.status.BudgetExhausted?)
          && s.policy.WithAllowance(granted).Valid())
  }

  lemma ResumeAccepts(s: EpisodeState, granted: Allowance)
    requires StateInv(s)
    ensures ResumeEpisode(s, granted).Ok? <==> ResumeIsDue(s, granted)
  {
    hide StateInv;
    ReopenableFacts(s);
  }

  lemma ReopenableFacts(s: EpisodeState)
    requires StateInv(s)
    ensures s.policy.Valid() && |s.turns| <= |s.attempts|
    ensures s.status.StopReview? || s.status.TurnRecorded? ==> !s.cancelRequested
  {
    if s.turns != [] {
      assert |s.turns| <= s.turns[|s.turns| - 1].attempt;
    }
  }

  lemma ResumeCommitsOnly(s: EpisodeState, granted: Allowance)
    ensures ResumeEpisode(s, granted).Ok? ==>
              ResumeEpisode(s, granted).value.Rest? || ResumeEpisode(s, granted).value.Commit?
  {
  }

  lemma ReconciliationKeeps(s: EpisodeState)
    requires StateInv(s)
    ensures ResumeReconciliation(s).Ok? <==> s.status.Suspended?
    ensures ResumeReconciliation(s).Ok? ==>
              ResumeReconciliation(s).value.Commit? && StepKeeps(s, ResumeReconciliation(s).value)
  {
    hide StateInv, Evolves;
    if s.status.Suspended? {
      SuspendedFacts(s);
      var index := FirstUnfinished(s.operations);
      if index < |s.operations| {
        assert HasUnfinished(s);
        ReconciliationInv(s, EpisodeStatus.ToolWorkPending);
        EvolvesQuietly(s, s.(status := EpisodeStatus.ToolWorkPending));
      } else {
        ReconciliationInv(s, EpisodeStatus.CancellationPending);
        EvolvesQuietly(s, s.(status := EpisodeStatus.CancellationPending));
      }
    }
  }

  /** Suspension always has a reason. */
  lemma SuspendedFacts(s: EpisodeState)
    requires StateInv(s) && s.status.Suspended?
    ensures s.cancelRequested || HasUnfinished(s)
  {
  }

  // Cancellation: a model in doubt, a tool in doubt, or neither.

  lemma DoubtFacts(s: EpisodeState)
    requires StateInv(s)
    ensures ModelInDoubt(s) ==> s.status.ModelAttemptPending?
    ensures ToolInDoubt(s) ==> s.status.ToolWorkPending? || s.status.Suspended?
    ensures ToolInDoubt(s) ==>
              && FirstUnfinished(s.operations) < |s.operations|
              && s.operations[FirstUnfinished(s.operations)].status.InFlight()
              && s.operations[FirstUnfinished(s.operations)].result.None?
    ensures forall j :: 0 <= j < |s.operations| && s.operations[j].status.Dispatching? ==>
              j == FirstUnfinished(s.operations)
  {
    hide TurnsOk, LayoutOk, FlagsOk, SpendingOk, CountersOk;
    var index := FirstUnfinished(s.operations);
    forall j | 0 <= j < |s.operations| && s.operations[j].status.InFlight() ensures j == index {
      assert OperationOk(s, s.operations[j]);
    }
    if index < |s.operations| {
      assert OperationOk(s, s.operations[index]);
    }
  }

  lemma CancelModelKeeps(s: EpisodeState)
    requires StateInv(s) && ModelInDoubt(s) && !ToolInDoubt(s) && s.status.ModelAttemptPending?
    ensures CancelEpisode(s).Ok? && CancelEpisode(s).value.Commit?
    ensures StepKeeps(s, CancelEpisode(s).value)
  {
    hide StateInv, Evolves;
    var a := LastAttempt(s).(status := AttemptStatus.CancelledAmbiguous, diagnostic := None);
    var t := WithLastAttempt(s, a).(cancelRequested := true, status := EpisodeStatus.Suspended);
    assert FirstDispatching(s.operations) == |s.operations|;
    ModelCancelledInv(s, a);
    EvolvesByAttempt(s, t, a);
  }

  lemma CancelIdleKeeps(s: EpisodeState)
    requires StateInv(s) && !ModelInDoubt(s) && !ToolInDoubt(s) && !s.status.IsTerminal()
    requires !s.status.SuspensionRequested?
    ensures CancelEpisode(s).Ok? && CancelEpisode(s).value.Commit?
    ensures StepKeeps(s, CancelEpisode(s).value)
  {
    hide StateInv, Evolves;
    assert FirstDispatching(s.operations) == |s.operations|;
    IdleCancelledInv(s);
    EvolvesQuietly(s, s.(cancelRequested := true, status := EpisodeStatus.CancellationPending));
  }

  lemma CancelToolValue(s: EpisodeState, index: nat)
    requires ToolInDoubt(s) && !ModelInDoubt(s) && (s.status.ToolWorkPending? || s.status.Suspended?)
    requires index < |s.operations| && s.operations[index].status.InFlight()
    requires forall j :: 0 <= j < |s.operations| && s.operations[j].status.Dispatching? ==> j == index
    ensures var o := s.operations[index];
            var settled := if o.status.Dispatching? then o.(status := ToolStatus.Ambiguous) else o;
            CancelEpisode(s) ==
              Ok(Commit(s.(operations := s.operations[index := settled], cancelRequested := true,
                           status := EpisodeStatus.Suspended), Progressed(EpisodeStatus.Suspended)))
  {
    var o := s.operations[index];
    assert FirstDispatching(s.operations) == if o.status.Dispatching? then index else |s.operations|;
    assert s.operations[index := o] == s.operations;
  }

  lemma CancelToolKeeps(s: EpisodeState)
    requires StateInv(s) && ToolInDoubt(s) && !ModelInDoubt(s)
    ensures CancelEpisode(s).Ok? && CancelEpisode(s).value.Commit?
    ensures StepKeeps(s, CancelEpisode(s).value)
  {
    hide StateInv, Evolves, CancelEpisode;
    DoubtFacts(s);
    var index := FirstUnfinished(s.operations);
    CancelToolValue(s, index);
    var o := s.operations[index];
    var settled := if o.status.Dispatching? then o.(status := ToolStatus.Ambiguous) else o;
    var t := s.(operations := s.operations[index := settled], cancelRequested := true,
                status := EpisodeStatus.Suspended);
    ToolCancelledInv(s, index, settled);
    EvolvesByOperation(s, t, index, settled);
  }

  /** Cancellation is always legal, and an episode that is still running records the request. */
  lemma CancelKeeps(s: EpisodeState)
    requires StateInv(s)
    ensures CancelEpisode(s).Ok? && StepKeeps(s, CancelEpisode(s).value)
    ensures if s.status.IsTerminal() then CancelEpisode(s).value.Rest?
            else CancelEpisode(s).value.Commit? && CancelEpisode(s).value.state.cancelRequested
  {
    hide StateInv, Evolves;
    NeverSuspensionRequested(s);
    DoubtFacts(s);
    if !s.status.IsTerminal() {
      if ToolInDoubt(s) {
        CancelToolKeeps(s);
      } else if ModelInDoubt(s) {
        CancelModelKeeps(s);
      } else {
        CancelIdleKeeps(s);
      }
    }
  }

  lemma NeverSuspensionRequested(s: EpisodeState)
    requires StateInv(s)
    ensures !s.status.SuspensionRequested?
  {
  }

  /** Cancelling moves one attempt or one operation at most, and rewrites no request. */
  lemma SettledModel(s: EpisodeState)
    requires SettleModel(s).Ok?
    ensures var t := SettleModel(s).value;
            && t == s.(attempts := t.attempts)
            && |t.attempts| == |s.attempts|
            && (forall i :: 0 <= i < |s.attempts| ==> t.attempts[i].request == s.attempts[i].request)
            && (!ModelInDoubt(s) ==> t.attempts == s.attempts)
  {
  }

  lemma SettledTool(s: EpisodeState)
    requires SettleTool(s).Ok?
    ensures var t := SettleTool(s).value;
            && t == s.(operations := t.operations)
            && |t.operations| == |s.operations|
            && var index := FirstDispatching(s.operations);
               (if index == |s.operations| then t.operations == s.operations
                else t.operations == s.operations[index := s.operations[index].(status := ToolStatus.Ambiguous)])
  {
  }

  lemma CancelShape(s: EpisodeState)
    requires !s.status.SuspensionRequested? && CancelEpisode(s).Ok? && CancelEpisode(s).value.Commit?
    requires ModelInDoubt(s) ==> s.status.ModelAttemptPending?
    requires ToolInDoubt(s) ==> s.status.ToolWorkPending? || s.status.Suspended?
    ensures var t := CancelEpisode(s).value.state;
            && t.turns == s.turns && t.initialInput == s.initialInput && t.nextInput == s.nextInput
            && t.policy == s.policy && !s.status.IsTerminal()
            && (t.status.Suspended? || t.status.CancellationPending?)
            && (t.status.Suspended? ==>
                  s.status.ModelAttemptPending? || s.status.ToolWorkPending? || s.status.Suspended?)
            && |t.attempts| == |s.attempts|
            && (forall i :: 0 <= i < |s.attempts| ==> t.attempts[i].request == s.attempts[i].request)
            && (!ModelInDoubt(s) ==> t.attempts == s.attempts)
            && |t.operations| == |s.operations|
            && var index := FirstDispatching(s.operations);
               (if index == |s.operations| then t.operations == s.operations
                else t.operations == s.operations[index := s.operations[index].(status := ToolStatus.Ambiguous)])
  {
    hide SettleModel, SettleTool, FirstDispatching;
    var asked := s.(cancelRequested := true);
    SettledModel(asked);
    SettledTool(SettleModel(asked).value);
  }
}

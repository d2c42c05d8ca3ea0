/** The invariant across the segments that plan, dispatch, settle and reopen tool work. */
module EpisodeToolWork {
  import opened Outcomes
  import opened EpisodeRecords
  import opened EpisodeReducer
  import opened EpisodeInvariant

  // ----- Planning

  lemma BlockExtends(ops: seq<Operation>, more: seq<Operation>, base: int, turn: Turn)
    requires Block(ops, base, turn)
    ensures Block(ops + more, base, turn)
  {
  }

  lemma LayoutPlanned(s: EpisodeState, t: EpisodeState, turn: Turn, catalog: Catalog)
    requires LayoutOk(s) && s.turns != [] && turn == s.turns[|s.turns| - 1] && turn.number == |s.turns|
    requires forall j :: 0 <= j < |s.operations| ==> s.operations[j].turn < |s.turns|
    requires t.turns == s.turns
    requires t.operations == s.operations + PlannedOperations(turn, s.nextInput, catalog)
    ensures LayoutOk(t)
  {
    var n := |s.operations|;
    var planned := PlannedOperations(turn, s.nextInput, catalog);
    assert Block(t.operations, n, turn) by {
      forall d | n <= d < n + |turn.calls|
        ensures Answers(t.operations[d], turn) && CallIndex(t.operations[d]) == d - n
      {
        assert t.operations[d] == planned[d - n];
      }
    }
    forall j | 0 <= j < |t.operations|
      ensures && 1 <= t.operations[j].turn <= |t.turns|
              && Block(t.operations, j - CallIndex(t.operations[j]), t.turns[t.operations[j].turn - 1])
              && Answers(t.operations[j], t.turns[t.operations[j].turn - 1])
    {
      if j < n {
        assert t.operations[j] == s.operations[j];
        BlockExtends(s.operations, planned, j - CallIndex(s.operations[j]), s.turns[s.operations[j].turn - 1]);
      } else {
        assert t.operations[j] == planned[j - n];
      }
    }
    PlannedInOrder(s, t, turn, catalog);
  }

  lemma PlannedInOrder(s: EpisodeState, t: EpisodeState, turn: Turn, catalog: Catalog)
    requires LayoutOk(s) && turn.number == |s.turns|
    requires forall j :: 0 <= j < |s.operations| ==> s.operations[j].turn < |s.turns|
    requires t.operations == s.operations + PlannedOperations(turn, s.nextInput, catalog)
    ensures forall j, k :: 0 <= j < k < |t.operations| ==> Before(t.operations[j], t.operations[k])
  {
    var n := |s.operations|;
    var planned := PlannedOperations(turn, s.nextInput, catalog);
    forall j, k | 0 <= j < k < |t.operations| ensures Before(t.operations[j], t.operations[k]) {
      if k < n {
        assert Before(s.operations[j], s.operations[k]);
      } else {
        assert t.operations[k] == planned[k - n];
        assert t.operations[j] == if j < n then s.operations[j] else planned[j - n];
      }
    }
  }

  lemma ToolsPlanned(s: EpisodeState, t: EpisodeState, turn: Turn, catalog: Catalog)
    requires ToolsOk(s) && !HasUnfinished(s)
    requires turn.number == |s.turns| && turn.calls != []
    requires t.turns == s.turns && t.nextInput == s.nextInput && t.status.ToolWorkPending?
    requires t.operations == s.operations + PlannedOperations(turn, s.nextInput, catalog)
    ensures ToolsOk(t)
  {
    var n := |s.operations|;
    var planned := PlannedOperations(turn, s.nextInput, catalog);
    forall j | 0 <= j < |t.operations| ensures OperationOk(t, t.operations[j]) {
      if j < n {
        assert t.operations[j] == s.operations[j];
        assert OperationOk(s, s.operations[j]) && s.operations[j].status.IsTerminal();
      } else {
        assert t.operations[j] == planned[j - n];
      }
    }
    forall j, k | 0 <= j < k < |t.operations| && !t.operations[j].status.IsTerminal()
      ensures t.operations[k].status.Requested? || t.operations[k].status.RejectedAsInvalid?
    {
      assert t.operations[k] == planned[k - n];
    }
    assert t.operations[|t.operations| - 1] == planned[|planned| - 1];
  }

  lemma TrustKept(s: EpisodeState, t: EpisodeState)
    requires FlagsOk(s) && t.satisfied == s.satisfied && |s.operations| <= |t.operations|
    requires forall j :: 0 <= j < |s.operations| && s.operations[j].status.IsTerminal() ==>
               t.operations[j] == s.operations[j]
    ensures t.satisfied ==> exists j :: 0 <= j < |t.operations| && Trusted(t.operations[j])
  {
  }

  lemma ToolsPlannedInv(s: EpisodeState, turn: Turn, catalog: Catalog)
    requires StateInv(s) && s.status.TurnRecorded? && s.turns != []
    requires turn == s.turns[|s.turns| - 1] && turn.calls != []
    requires |s.operations| + |turn.calls| <= s.policy.allowance.maxOperations
    ensures StateInv(s.(operations := s.operations + PlannedOperations(turn, s.nextInput, catalog),
                        status := EpisodeStatus.ToolWorkPending))
  {
    hide AttemptsOk, TurnsOk, LayoutOk, ToolsOk, FlagsOk, SpendingOk, CountersOk;
    var t := s.(operations := s.operations + PlannedOperations(turn, s.nextInput, catalog),
                status := EpisodeStatus.ToolWorkPending);
    RecordedTurn(s);
    BooksPlanned(s, t);
    LayoutPlanned(s, t, turn, catalog);
    NothingUnfinished(s);
    ToolsPlanned(s, t, turn, catalog);
    FlagsPlanned(s, t);
  }

  lemma RecordedTurn(s: EpisodeState)
    requires TurnsOk(s) && s.status.TurnRecorded?
    ensures s.turns != [] && s.turns[|s.turns| - 1].number == |s.turns|
    ensures forall j :: 0 <= j < |s.operations| ==> s.operations[j].turn < |s.turns|
  {
  }

  lemma FlagsPlanned(s: EpisodeState, t: EpisodeState)
    requires FlagsOk(s) && s.status.TurnRecorded? && t.status.ToolWorkPending?
    requires s.operations <= t.operations && t.satisfied == s.satisfied && t.cancelRequested == s.cancelRequested
    ensures FlagsOk(t)
  {
  }

  lemma BooksPlanned(s: EpisodeState, t: EpisodeState)
    requires AttemptsOk(s) && TurnsOk(s) && SpendingOk(s) && CountersOk(s)
    requires s.status.TurnRecorded? && t == s.(operations := t.operations, status := EpisodeStatus.ToolWorkPending)
    requires |t.operations| <= s.policy.allowance.maxOperations
    ensures AttemptsOk(t) && TurnsOk(t) && SpendingOk(t) && CountersOk(t)
  {
    AttemptsSettled(s, t);
    TurnsKept(s, t);
    SpendingKept(s, t);
  }

  // ----- One operation moves

  predicate SameIdentity(o: Operation, p: Operation) {
    p.id == o.id && p.turn == o.turn && p.call == o.call && p.authority == o.authority && p.input == o.input
  }

  lemma LayoutUpdated(s: EpisodeState, t: EpisodeState, index: nat, o: Operation)
    requires LayoutOk(s) && index < |s.operations| && SameIdentity(s.operations[index], o)
    requires t.turns == s.turns && t.operations == s.operations[index := o]
    ensures LayoutOk(t)
  {
    forall j | 0 <= j < |t.operations|
      ensures && 1 <= t.operations[j].turn <= |t.turns|
              && Block(t.operations, j - CallIndex(t.operations[j]), t.turns[t.operations[j].turn - 1])
              && Answers(t.operations[j], t.turns[t.operations[j].turn - 1])
    {
      var base, turn := j - CallIndex(s.operations[j]), s.turns[s.operations[j].turn - 1];
      assert Block(s.operations, base, turn);
      forall d | base <= d < base + |turn.calls|
        ensures Answers(t.operations[d], turn) && CallIndex(t.operations[d]) == d - base
      {
        assert SameIdentity(s.operations[d], t.operations[d]);
      }
    }
    forall j, k | 0 <= j < k < |t.operations| ensures Before(t.operations[j], t.operations[k]) {
      assert Before(s.operations[j], s.operations[k]);
    }
  }

  lemma ToolsUpdated(s: EpisodeState, t: EpisodeState, index: nat, o: Operation)
    requires ToolsOk(s) && (s.status.ToolWorkPending? || s.status.Suspended?)
    requires index < |s.operations| && SameIdentity(s.operations[index], o)
    requires index == FirstUnfinished(s.operations)
    requires t.turns == s.turns && t.nextInput == s.nextInput
    requires t.operations == s.operations[index := o]
    requires t.status == s.status || t.status.Suspended?
    requires OperationOk(t, o)
    ensures ToolsOk(t)
  {
  }

  /** Groups that do not look at the status of an operation. */
  lemma BooksKept(s: EpisodeState, t: EpisodeState)
    requires AttemptsOk(s) && TurnsOk(s) && SpendingOk(s) && CountersOk(s)
    requires s.status.ToolWorkPending? || s.status.Suspended?
    requires t.status.ToolWorkPending? || t.status.Suspended?
    requires |t.operations| == |s.operations|
    requires t == s.(operations := t.operations, status := t.status, satisfied := t.satisfied,
                     cancelRequested := t.cancelRequested)
    ensures AttemptsOk(t) && TurnsOk(t) && SpendingOk(t) && CountersOk(t)
  {
    AttemptsSettled(s, t);
    TurnsKept(s, t);
    SpendingKept(s, t);
  }

  lemma EachOperationOk(s: EpisodeState, index: nat)
    requires ToolsOk(s) && index < |s.operations|
    ensures OperationOk(s, s.operations[index])
  {
  }

  lemma FlagsMoved(s: EpisodeState, t: EpisodeState, index: nat, o: Operation)
    requires FlagsOk(s) && index < |s.operations| && !s.operations[index].status.IsTerminal()
    requires t.operations == s.operations[index := o] && !o.status.IsTerminal()
    requires t.status.ToolWorkPending? || t.status.Suspended?
    requires t.satisfied == s.satisfied
    ensures FlagsOk(t)
  {
    TrustKept(s, t);
    assert !t.operations[index].status.IsTerminal();
  }

  lemma FlagsFinished(s: EpisodeState, t: EpisodeState, index: nat, o: Operation, satisfies: bool)
    requires FlagsOk(s) && index < |s.operations| && !s.operations[index].status.IsTerminal()
    requires t.operations == s.operations[index := o] && t.status.ToolWorkPending?
    requires t.satisfied == (s.satisfied || satisfies) && (satisfies ==> Trusted(o))
    ensures FlagsOk(t)
  {
    if satisfies {
      assert Trusted(t.operations[index]);
    } else {
      TrustKept(s, t);
    }
  }

  /** The first unfinished operation goes from one in-flight record to the next. */
  lemma OperationMovedInv(s: EpisodeState, index: nat, o: Operation, next: EpisodeStatus)
    requires StateInv(s) && s.status.ToolWorkPending?
    requires index == FirstUnfinished(s.operations) < |s.operations|
    requires SameIdentity(s.operations[index], o) && o.status.InFlight() && o.result.None?
    requires next.ToolWorkPending? || next.Suspended?
    ensures StateInv(s.(operations := s.operations[index := o], status := next))
  {
    hide AttemptsOk, TurnsOk, LayoutOk, ToolsOk, FlagsOk, SpendingOk, CountersOk;
    var t := s.(operations := s.operations[index := o], status := next);
    EachOperationOk(s, index);
    BooksKept(s, t);
    LayoutUpdated(s, t, index, o);
    ToolsUpdated(s, t, index, o);
    FlagsMoved(s, t, index, o);
  }

  /** The first unfinished operation receives the gateway's answer. */
  lemma OperationFinishedInv(s: EpisodeState, index: nat, o: Operation, satisfies: bool)
    requires StateInv(s) && s.status.ToolWorkPending?
    requires index == FirstUnfinished(s.operations) < |s.operations|
    requires SameIdentity(s.operations[index], o) && o.result.Some?
    requires o.status.IsTerminal() && !o.status.RejectedAsInvalid? && !o.status.Denied?
    requires satisfies ==> o.authority.VerifiedReference?
    ensures StateInv(s.(operations := s.operations[index := o], satisfied := s.satisfied || satisfies))
  {
    hide AttemptsOk, TurnsOk, LayoutOk, ToolsOk, FlagsOk, SpendingOk, CountersOk;
    var t := s.(operations := s.operations[index := o], satisfied := s.satisfied || satisfies);
    BooksKept(s, t);
    LayoutUpdated(s, t, index, o);
    ToolsUpdated(s, t, index, o);
    FlagsFinished(s, t, index, o, satisfies);
  }

  // ----- Operator commands

  lemma ReopenedInv(s: EpisodeState, granted: Allowance)
    requires StateInv(s) && (s.status.Failed? || s.status.Incomplete? || s.status.BudgetExhausted?)
    requires s.policy.WithAllowance(granted).Valid()
    ensures StateInv(s.(status := EpisodeStatus.ReadyForModel,
                        policy := s.policy.WithAllowance(granted),
                        grants := s.grants + [Grant(s.status, s.policy.allowance, granted)]))
  {
    var grant := Grant(s.status, s.policy.allowance, granted);
    var t := s.(status := EpisodeStatus.ReadyForModel, policy := s.policy.WithAllowance(granted),
                grants := s.grants + [grant]);
    AttemptsSettled(s, t);
    TurnsKept(s, t);
    KeepsLayout(s, t);
    NothingUnfinished(s);
    ToolsDone(s, t);
    SpendingReopened(s, t, granted);
  }

  lemma SpendingReopened(s: EpisodeState, t: EpisodeState, granted: Allowance)
    requires SpendingOk(s) && t.policy == s.policy.WithAllowance(granted) && t.policy.Valid()
    requires t.grants == s.grants + [Grant(s.status, s.policy.allowance, granted)]
    requires |t.attempts| == |s.attempts| && |t.turns| == |s.turns| && |t.operations| == |s.operations|
    ensures SpendingOk(t)
  {
    var before, after := Allowances(s), Allowances(t);
    assert after == before + [granted];
    var i :| 0 <= i < |before| && |s.attempts| <= before[i].maxAttempts;
    assert |t.attempts| <= after[i].maxAttempts;
    var j :| 0 <= j < |before| && |s.turns| <= before[j].maxTurns;
    assert |t.turns| <= after[j].maxTurns;
    var k :| 0 <= k < |before| && |s.operations| <= before[k].maxOperations;
    assert |t.operations| <= after[k].maxOperations;
  }

  /** Cancelling while a model dispatch is in doubt. */
  lemma ModelCancelledInv(s: EpisodeState, a: ModelAttempt)
    requires StateInv(s) && s.status.ModelAttemptPending?
    requires a.number == LastAttempt(s).number && a.status.CancelledAmbiguous?
    ensures StateInv(WithLastAttempt(s, a).(cancelRequested := true, status := EpisodeStatus.Suspended))
  {
    var t := WithLastAttempt(s, a).(cancelRequested := true, status := EpisodeStatus.Suspended);
    AttemptReplaced(s, t, a);
    TurnsKeptByAttempt(s, t, a);
    KeepsLayout(s, t);
    NothingUnfinished(s);
    ToolsDone(s, t);
    SpendingKept(s, t);
  }

  /** Cancelling while nothing external is in doubt. */
  lemma IdleCancelledInv(s: EpisodeState)
    requires StateInv(s) && !s.status.IsTerminal() && !ModelInDoubt(s) && !ToolInDoubt(s)
    ensures StateInv(s.(cancelRequested := true, status := EpisodeStatus.CancellationPending))
  {
    var t := s.(cancelRequested := true, status := EpisodeStatus.CancellationPending);
    AttemptsSettled(s, t);
    TurnsKept(s, t);
    KeepsLayout(s, t);
    ToolsParked(s, t);
    SpendingKept(s, t);
  }

  lemma ToolsParked(s: EpisodeState, t: EpisodeState)
    requires ToolsOk(s) && !ToolInDoubt(s)
    requires t.operations == s.operations && t.turns == s.turns && t.nextInput == s.nextInput
    requires t.status.CancellationPending?
    ensures ToolsOk(t)
  {
  }

  /** Cancelling while a tool is in doubt: it stays the first unfinished operation. */
  lemma ToolCancelledInv(s: EpisodeState, index: nat, o: Operation)
    requires StateInv(s) && (s.status.ToolWorkPending? || s.status.Suspended?)
    requires index == FirstUnfinished(s.operations) < |s.operations|
    requires SameIdentity(s.operations[index], o) && o.status.InFlight() && o.result.None?
    ensures StateInv(s.(operations := s.operations[index := o], cancelRequested := true,
                        status := EpisodeStatus.Suspended))
  {
    hide AttemptsOk, TurnsOk, LayoutOk, ToolsOk, FlagsOk, SpendingOk, CountersOk;
    var t := s.(operations := s.operations[index := o], cancelRequested := true,
                status := EpisodeStatus.Suspended);
    EachOperationOk(s, index);
    BooksKept(s, t);
    LayoutUpdated(s, t, index, o);
    ToolsUpdated(s, t, index, o);
    FlagsMoved(s, t, index, o);
  }

  lemma ReconciliationInv(s: EpisodeState, next: EpisodeStatus)
    requires StateInv(s) && s.status.Suspended?
    requires if HasUnfinished(s) then next.ToolWorkPending? else next.CancellationPending?
    ensures StateInv(s.(status := next))
  {
    var t := s.(status := next);
    AttemptsSettled(s, t);
    TurnsKept(s, t);
    KeepsLayout(s, t);
    ToolsReopened(s, t);
    SpendingKept(s, t);
  }

  lemma ToolsReopened(s: EpisodeState, t: EpisodeState)
    requires ToolsOk(s) && LayoutOk(s) && s.status.Suspended?
    requires t == s.(status := t.status)
    requires if HasUnfinished(s) then t.status.ToolWorkPending? else t.status.CancellationPending?
    ensures ToolsOk(t)
  {
    if HasUnfinished(s) {
      var j :| 0 <= j < |s.operations| && !s.operations[j].status.IsTerminal();
      var last := |s.operations| - 1;
      assert OperationOk(s, s.operations[j]);
      assert j == last || Before(s.operations[j], s.operations[last]);
    }
    forall j | 0 <= j < |t.operations| ensures OperationOk(t, t.operations[j]) {
      assert OperationOk(s, s.operations[j]);
    }
  }
}

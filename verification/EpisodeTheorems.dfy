/** Safety of every run: any actions, by any runners, with crashes and conflicts anywhere. */
module EpisodeTheorems {
  import opened Outcomes
  import opened EpisodeRecords
  import opened EpisodeReducer
  import opened EpisodeInvariant
  import opened EpisodeToolWork
  import opened EpisodeSegments
  import opened EpisodeAnswers
  import opened EpisodeWorld

  lemma StartInv(s: EpisodeState)
    requires StateInv(s)
    ensures WorldInv(Start(s))
  {
  }

  /** Every world that a new episode can reach. */
  lemma ReachableInv(id: EpisodeId, policy: Policy, input: Digest, actions: seq<Action>)
    requires InitialState(id, policy, input).Ok?
    ensures WorldInv(Run(Start(InitialState(id, policy, input).value), actions))
  {
    hide StateInv, Run;
    InitialStateInv(id, policy, input);
    StartInv(InitialState(id, policy, input).value);
    RunKeeps(Start(InitialState(id, policy, input).value), actions);
  }

  // ----- Effects happen at most once

  predicate SameEffect(c: Call, d: Call) {
    || (c.Invoke? && d.Invoke? && c.request.attempt == d.request.attempt)
    || (c.Execute? && d.Execute? && c.invocation.id == d.invocation.id)
  }

  predicate SameOperation(c: Call, d: Call) {
    !c.Invoke? && !d.Invoke? && c.invocation.id == d.invocation.id
  }

  /** No model attempt is invoked twice and no operation is executed twice, and all calls for one
      operation, executed or reconciled, carry the identical invocation. */
  lemma EffectsAtMostOnce(id: EpisodeId, policy: Policy, input: Digest, actions: seq<Action>)
    requires InitialState(id, policy, input).Ok?
    ensures var calls := Run(Start(InitialState(id, policy, input).value), actions).calls;
            && (forall i, j :: 0 <= i < j < |calls| ==> !SameEffect(calls[i], calls[j]))
            && (forall i, j :: 0 <= i < |calls| && 0 <= j < |calls| && SameOperation(calls[i], calls[j]) ==>
                  calls[i].invocation == calls[j].invocation)
  {
    hide StateInv, HoldersOk, PermitsOk, Run, CallOk;
    var w := Run(Start(InitialState(id, policy, input).value), actions);
    ReachableInv(id, policy, input, actions);
    forall i, j | 0 <= i < |w.calls| && 0 <= j < |w.calls| && SameOperation(w.calls[i], w.calls[j])
      ensures w.calls[i].invocation == w.calls[j].invocation
    {
      assert CallOk(w.current.state, w.calls[i]) && CallOk(w.current.state, w.calls[j]);
      InvocationsAgree(w.current.state, w.calls[i], w.calls[j]);
    }
    forall i, j | 0 <= i < j < |w.calls| ensures !SameEffect(w.calls[i], w.calls[j]) {
      assert EffectOf(w.calls[i]).Some? ==> EffectOf(w.calls[i]) != EffectOf(w.calls[j]);
    }
  }

  lemma InvocationsAgree(s: EpisodeState, c: Call, d: Call)
    requires StateInv(s) && CallOk(s, c) && CallOk(s, d) && !c.Invoke? && !d.Invoke?
    requires c.invocation.id == d.invocation.id
    ensures c.invocation == d.invocation
  {
    hide StateInv;
    var j :| 0 <= j < |s.operations| && InvocationOf(s.operations[j]) == c.invocation;
    var k :| 0 <= k < |s.operations| && InvocationOf(s.operations[k]) == d.invocation;
    OperationIdsDistinct(s, j, k);
  }

  /** A runner whose dispatch is still the newest revision executes before anyone has reconciled. */
  lemma FreshExecuteComesFirst(w: World, r: RunnerId)
    requires WorldInv(w) && PhaseOf(w, r).ToolReady? && !PhaseOf(w, r).reconciling
    requires PhaseOf(w, r).held.revision == w.current.revision
    ensures forall i :: 0 <= i < |w.calls| && !w.calls[i].Invoke? ==>
              w.calls[i].invocation.id != PhaseOf(w, r).invocation.id
  {
    hide StateInv, Evolves, PermitsOk, CallOk;
    var p := PhaseOf(w, r);
    assert PhaseOk(w.current, p);
    assert w.current.state.operations[p.index].status.Dispatching?;
    forall i | 0 <= i < |w.calls| && !w.calls[i].Invoke? && w.calls[i].invocation.id == p.invocation.id
      ensures false
    {
      assert CallOk(w.current.state, w.calls[i]);
      if w.calls[i].Reconcile? {
        ReconciledIsFollowed(w.current.state, w.calls[i], p.index);
      } else {
        ExecutedIsUsed(w, r, i);
      }
    }
  }

  lemma ReconciledIsFollowed(s: EpisodeState, c: Call, index: nat)
    requires StateInv(s) && CallOk(s, c) && c.Reconcile? && index < |s.operations|
    requires s.operations[index].id == c.invocation.id
    ensures Followed(s.operations[index].status)
  {
    hide StateInv;
    var j :| 0 <= j < |s.operations| && InvocationOf(s.operations[j]) == c.invocation
             && Followed(s.operations[j].status);
    OperationIdsDistinct(s, j, index);
  }

  lemma ExecutedIsUsed(w: World, r: RunnerId, i: nat)
    requires WorldInv(w) && r in w.runners && w.runners[r].ToolReady? && !w.runners[r].reconciling
    requires i < |w.calls| && w.calls[i].Execute?
    ensures w.calls[i].invocation.id != w.runners[r].invocation.id
  {
    hide StateInv, HoldersOk, LogOk, Spent;
    assert Unused(w.calls, Permit(w.runners[r]).value);
  }

  /** The order is lost exactly by stalling: whenever a runner pauses between its dispatch commit
      and its call, a second runner can reconcile the operation before it is executed. */
  lemma StalledExecuteFollowsReconcile(w: World, r: RunnerId, q: RunnerId, catalog: Catalog,
                                       answer: ToolOutcome, late: ToolOutcome)
    requires WorldInv(w) && r != q && PhaseOf(w, q).Idle?
    requires PhaseOf(w, r).ToolReady? && !PhaseOf(w, r).reconciling
    requires PhaseOf(w, r).held.revision == w.current.revision
    ensures Run(w, [Load(q), Advance(q, catalog), CallTool(q, answer), CallTool(r, late)]).calls
            == w.calls + [Reconcile(PhaseOf(w, r).invocation), Execute(PhaseOf(w, r).invocation)]
  {
    hide WorldInv, BeginAdvance;
    var p := PhaseOf(w, r);
    StalledAsks(w, r, catalog);
    var t := BeginAdvance(w.current.state, catalog).value.state;
    var held := Versioned(w.current.revision + 1, t);
    var w1 := Next(w, Load(q));
    var w2 := Next(w1, Advance(q, catalog));
    assert PhaseOf(w2, q) == ToolReady(held, p.index, p.invocation, true) && PhaseOf(w2, r) == p;
    var w3 := Next(w2, CallTool(q, answer));
    var w4 := Next(w3, CallTool(r, late));
    assert w4.calls == w.calls + [Reconcile(p.invocation), Execute(p.invocation)];
    RunFour(w, Load(q), Advance(q, catalog), CallTool(q, answer), CallTool(r, late));
  }

  /** Whoever advances while a dispatch is unanswered asks to reconcile that very operation. */
  lemma StalledAsks(w: World, r: RunnerId, catalog: Catalog)
    requires WorldInv(w) && PhaseOf(w, r).ToolReady? && !PhaseOf(w, r).reconciling
    requires PhaseOf(w, r).held.revision == w.current.revision
    ensures var p, step := PhaseOf(w, r), BeginAdvance(w.current.state, catalog);
            step.Ok? && step.value.AskTool? && step.value.index == p.index
            && step.value.invocation == p.invocation && step.value.reconciling
  {
    hide StateInv, Evolves, PermitsOk, LogOk;
    var p := PhaseOf(w, r);
    assert PhaseOk(w.current, p) && p.held == w.current;
    WorkFacts(w.current.state);
    assert OperationOk(w.current.state, w.current.state.operations[p.index]);
  }

  // ----- Nothing illegal is attempted

  /** In every reachable world, whatever a runner is about to do is legal, with exactly these exceptions:
      planning a turn that fits both budgets and lacks a label, a resume that is not due, a turn too
      wide for 32 bits, and a tool answer that is not acceptable. */
  lemma ReachableWorkIsLegal(id: EpisodeId, policy: Policy, input: Digest, actions: seq<Action>,
                             r: RunnerId, catalog: Catalog, granted: Allowance)
    requires InitialState(id, policy, input).Ok?
    ensures var p := PhaseOf(Run(Start(InitialState(id, policy, input).value), actions), r);
            match p
            case Loaded(held) =>
              && CancelEpisode(held.state).Ok?
              && (ResumeReconciliation(held.state).Ok? <==> held.state.status.Suspended?)
              && (ResumeEpisode(held.state, granted).Ok? <==> ResumeIsDue(held.state, granted))
              && (BeginAdvance(held.state, catalog).Err? <==>
                    held.state.status.TurnRecorded? && LacksLabel(held.state, catalog))
            case ModelAnswered(held, _, outcome) =>
              AfterModel(held.state, outcome).Err? <==> outcome.TurnAnswer? && |outcome.calls| > U32_MAX
            case ToolAnswered(held, index, _, _, outcome) =>
              && index < |held.state.operations|
              && (AfterTool(held.state, index, outcome).Ok? <==>
                    Acceptable(held.state.operations[index], outcome))
            case _ => true
  {
    hide StateInv, Evolves, PermitsOk, LogOk, BeginAdvance, CancelEpisode, ResumeReconciliation,
      AfterModel, AfterTool, StepKeeps, Run, ResumeEpisode, ResumeIsDue, LacksLabel;
    var w := Run(Start(InitialState(id, policy, input).value), actions);
    ReachableInv(id, policy, input, actions);
    var p := PhaseOf(w, r);
    assert PhaseOk(w.current, p);
    match p
    case Loaded(held) =>
      CancelKeeps(held.state);
      ReconciliationKeeps(held.state);
      ResumeAccepts(held.state, granted);
      BeginAdvanceKeeps(held.state, catalog);
    case ModelAnswered(held, request, outcome) =>
      AfterModelKeeps(held.state, request, outcome);
    case ToolAnswered(held, index, invocation, reconciling, outcome) =>
      HeldFacts(held.state, index, invocation, reconciling);
      AfterToolKeeps(held.state, index, invocation, reconciling, outcome);
    case _ =>
  }

  // ----- History

  lemma NextEvolves(w: World, a: Action)
    requires WorldInv(w)
    ensures Evolves(w.current.state, Next(w, a).current.state)
  {
    hide StateInv, Evolves, PermitsOk, LogOk, ModelHeld, ToolHeld,
      BeginAdvance, ResumeEpisode, CancelEpisode, ResumeReconciliation, AfterModel, AfterTool;
    EvolvesReflexive(w.current.state);
    var p := PhaseOf(w, a.runner);
    assert PhaseOk(w.current, p);
    match a
    case Advance(_, catalog) =>
      if p.Loaded? {
        BeginAdvanceKeeps(p.held.state, catalog);
      }
    case Resume(_, granted) =>
      if p.Loaded? && ResumeEpisode(p.held.state, granted).Ok? {
        ResumeKeeps(p.held.state, granted);
      }
    case Cancel(_) =>
      if p.Loaded? {
        CancelKeeps(p.held.state);
      }
    case ResumeSuspended(_) =>
      if p.Loaded? {
        ReconciliationKeeps(p.held.state);
      }
    case CommitModel(_) =>
      if p.ModelAnswered? {
        AfterModelKeeps(p.held.state, p.request, p.modelOutcome);
      }
    case CommitTool(_) =>
      if p.ToolAnswered? && p.index < |p.held.state.operations| {
        AfterToolKeeps(p.held.state, p.index, p.invocation, p.reconciling, p.toolOutcome);
      }
    case _ =>
  }

  lemma {:induction false} RunEvolves(w: World, actions: seq<Action>)
    requires WorldInv(w)
    ensures Evolves(w.current.state, Run(w, actions).current.state)
    decreases |actions|
  {
    hide WorldInv, Next, Evolves;
    if actions == [] {
      EvolvesReflexive(w.current.state);
    } else {
      NextEvolves(w, actions[0]);
      NextKeeps(w, actions[0]);
      RunEvolves(Next(w, actions[0]), actions[1..]);
      EvolvesTransitive(w.current.state, Next(w, actions[0]).current.state, Run(w, actions).current.state);
    }
  }

  // ----- Sequential tool work

  /** Unfinished work belongs to the last turn, at most one operation is in flight, it is the first
      unfinished one, and a result is recorded exactly for finished operations. */
  lemma ToolWorkIsSequential(s: EpisodeState, j: nat)
    requires StateInv(s) && j < |s.operations|
    ensures s.operations[j].status.IsTerminal() <==> s.operations[j].result.Some?
    ensures !s.operations[j].status.IsTerminal() ==> s.operations[j].turn == |s.turns| && ToolPhase(s.status)
    ensures s.operations[j].status.InFlight() ==> j == FirstUnfinished(s.operations)
    ensures (s.status.CancellationPending? || s.status.Cancelled?) && !s.operations[j].status.IsTerminal() ==>
              s.operations[j].status.Requested?
  {
    hide AttemptsOk, TurnsOk, LayoutOk, FlagsOk, SpendingOk, CountersOk;
    assert OperationOk(s, s.operations[j]);
    var first := FirstUnfinished(s.operations);
    if first < j {
      assert s.operations[j].status.Requested? || s.operations[j].status.RejectedAsInvalid?;
    }
  }

  lemma BlockOf(s: EpisodeState, j: nat)
    requires StateInv(s) && j < |s.operations|
    ensures LayoutOk(s) && 1 <= s.operations[j].turn <= |s.turns|
    ensures var turn := s.turns[s.operations[j].turn - 1];
            && turn.number == s.operations[j].turn
            && turn.calls != []
            && Block(s.operations, j - CallIndex(s.operations[j]), turn)
  {
    hide AttemptsOk, ToolsOk, FlagsOk, SpendingOk, CountersOk;
    assert Answers(s.operations[j], s.turns[s.operations[j].turn - 1]);
  }

  /** An admitted turn whose work is done feeds back one result for each call, in call order. */
  lemma FeedbackIsComplete(s: EpisodeState, j: nat)
    requires StateInv(s) && j < |s.operations| && 1 <= s.operations[j].turn <= |s.turns|
    requires forall k :: 0 <= k < |s.operations| && s.operations[k].turn == s.operations[j].turn ==>
               s.operations[k].status.IsTerminal()
    ensures var turn := s.turns[s.operations[j].turn - 1];
            var base := j - CallIndex(s.operations[j]);
            var results := ResultsOf(s.operations, turn.number);
            && |results| == |turn.calls|
            && 0 <= base <= base + |results| <= |s.operations|
            && forall k :: base <= k < base + |results| ==>
                 && s.operations[k].call == turn.calls[k - base]
                 && s.operations[k].result == Some(results[k - base])
  {
    hide StateInv, LayoutOk;
    BlockOf(s, j);
    var ops := s.operations;
    var turn := s.turns[ops[j].turn - 1];
    var base := j - CallIndex(ops[j]);
    var end := base + |turn.calls|;
    forall k | 0 <= k < |ops| && !(base <= k < end) ensures ops[k].turn != turn.number {
      OutsideBlock(s, turn, base, k);
    }
    forall k | base <= k < end ensures ops[k].turn == turn.number && ops[k].result.Some? {
      assert Answers(ops[k], turn);
      ToolWorkIsSequential(s, k);
    }
    ResultsOfBlock(ops, base, end, turn.number);
    var results := ResultsOf(ops, turn.number);
    forall k | base <= k < end
      ensures ops[k].call == turn.calls[k - base] && ops[k].result == Some(results[k - base])
    {
      assert Answers(ops[k], turn) && CallIndex(ops[k]) == k - base;
    }
  }

  lemma OutsideBlock(s: EpisodeState, turn: Turn, base: nat, k: nat)
    requires LayoutOk(s) && Block(s.operations, base, turn) && turn.calls != [] && k < |s.operations|
    requires !(base <= k < base + |turn.calls|)
    requires 1 <= turn.number <= |s.turns| && s.turns[turn.number - 1] == turn
    ensures s.operations[k].turn != turn.number
  {
    var last := base + |turn.calls| - 1;
    assert Answers(s.operations[k], s.turns[s.operations[k].turn - 1]);
    if k < base {
      assert Before(s.operations[k], s.operations[base]) && CallIndex(s.operations[base]) == 0;
    } else {
      assert Before(s.operations[last], s.operations[k]) && CallIndex(s.operations[last]) == |turn.calls| - 1;
    }
  }

  lemma {:induction false} ResultsOfBlock(ops: seq<Operation>, base: nat, end: nat, turn: nat)
    requires base <= end <= |ops|
    requires forall k :: 0 <= k < |ops| && !(base <= k < end) ==> ops[k].turn != turn
    requires forall k :: base <= k < end ==> ops[k].turn == turn && ops[k].result.Some?
    ensures |ResultsOf(ops, turn)| == end - base
    ensures forall k :: base <= k < end ==> ops[k].result == Some(ResultsOf(ops, turn)[k - base])
    decreases |ops|
  {
    if ops != [] {
      var n := |ops| - 1;
      var init := ops[..n];
      var to := if end <= n then end else n;
      var from := if base <= to then base else to;
      ResultsOfBlock(init, from, to, turn);
      forall k | base <= k < end ensures ops[k].result == Some(ResultsOf(ops, turn)[k - base]) {
        assert k < n ==> init[k] == ops[k];
      }
    }
  }
}

/**
 Budgets over whole runs. The allowances in force are the one that the episode was created with and,
 after it, exactly those that a committed resume granted; no other step touches them.
 */
module EpisodeBudgets {
  import opened Outcomes
  import opened EpisodeRecords
  import opened EpisodeReducer
  import opened EpisodeInvariant
  import opened EpisodeSegments
  import opened EpisodeAnswers
  import opened EpisodeWorld
  import opened EpisodeTheorems

  // ----- Only a resume touches the budget

  predicate SameBudget(s: EpisodeState, t: EpisodeState) {
    t.policy == s.policy && t.grants == s.grants
  }

  predicate KeepsBudget(s: EpisodeState, step: Fallible<Step>) {
    step.Ok? && !step.value.Rest? ==> SameBudget(s, step.value.state)
  }

  lemma BeginAdvanceKeepsBudget(s: EpisodeState, catalog: Catalog)
    ensures KeepsBudget(s, BeginAdvance(s, catalog))
  {
    hide DispatchRecord;
  }

  lemma AfterModelKeepsBudget(s: EpisodeState, outcome: ModelOutcome)
    ensures KeepsBudget(s, AfterModel(s, outcome))
  {
  }

  lemma AfterToolKeepsBudget(s: EpisodeState, index: nat, outcome: ToolOutcome)
    requires index < |s.operations|
    ensures KeepsBudget(s, AfterTool(s, index, outcome))
  {
  }

  lemma CommandsKeepBudget(s: EpisodeState)
    ensures KeepsBudget(s, CancelEpisode(s)) && KeepsBudget(s, ResumeReconciliation(s))
  {
  }

  /** A resume that is committed adds what it granted, and nothing else, to the allowances. */
  lemma ResumeExtends(s: EpisodeState, granted: Allowance)
    requires ResumeEpisode(s, granted).Ok? && ResumeEpisode(s, granted).value.Commit?
    ensures var t := ResumeEpisode(s, granted).value.state;
            Allowances(t) == Allowances(s) + [granted] && |t.grants| == |s.grants| + 1
  {
    var t := ResumeEpisode(s, granted).value.state;
    assert forall i :: 0 <= i < |s.grants| ==> t.grants[i] == s.grants[i];
  }

  // ----- Over runs

  /** What this action grants: something exactly when it commits a resume. */
  function Grants(w: World, a: Action): seq<Allowance> {
    var p := PhaseOf(w, a.runner);
    if a.Resume? && p.Loaded? && p.held.revision == w.current.revision
       && ResumeEpisode(p.held.state, a.granted).Ok? && ResumeEpisode(p.held.state, a.granted).value.Commit?
    then [a.granted] else []
  }

  /** What a run grants, oldest first. */
  function Granted(w: World, actions: seq<Action>): seq<Allowance>
    decreases |actions|
  {
    if actions == [] then [] else Grants(w, actions[0]) + Granted(Next(w, actions[0]), actions[1..])
  }

  /** What the operators of a run offer, whether or not it is accepted. */
  function Offered(actions: seq<Action>): seq<Allowance> {
    if actions == [] then []
    else (if actions[0].Resume? then [actions[0].granted] else []) + Offered(actions[1..])
  }

  ghost predicate Extended(s: EpisodeState, t: EpisodeState, granted: seq<Allowance>) {
    Allowances(t) == Allowances(s) + granted && |t.grants| == |s.grants| + |granted|
  }

  lemma SettleBudget(w: World, r: RunnerId, held: Versioned, step: Fallible<Step>)
    requires held.revision == w.current.revision ==> held == w.current
    requires KeepsBudget(held.state, step)
    ensures Extended(w.current.state, Settle(w, r, held, step).current.state, [])
  {
    hide Allowances;
    var s, t := w.current.state, Settle(w, r, held, step).current.state;
    assert SameBudget(s, t);
    AllowancesKept(s, t);
  }

  lemma NextBudget(w: World, a: Action)
    requires WorldInv(w)
    ensures Extended(w.current.state, Next(w, a).current.state, Grants(w, a))
  {
    hide StateInv, Evolves, PermitsOk, LogOk, ModelHeld, ToolHeld, KeepsBudget, Allowances,
      BeginAdvance, ResumeEpisode, CancelEpisode, ResumeReconciliation, AfterModel, AfterTool;
    var r, p := a.runner, PhaseOf(w, a.runner);
    assert PhaseOk(w.current, p);
    match a
    case Advance(_, catalog) =>
      if p.Loaded? {
        BeginAdvanceKeepsBudget(p.held.state, catalog);
        SettleBudget(w, r, p.held, BeginAdvance(p.held.state, catalog));
      }
    case Resume(_, granted) =>
      if p.Loaded? && ResumeEpisode(p.held.state, granted).Ok? {
        ResumeCommitsOnly(p.held.state, granted);
        if Grants(w, a) != [] {
          ResumeExtends(p.held.state, granted);
        }
      }
    case Cancel(_) =>
      if p.Loaded? {
        CommandsKeepBudget(p.held.state);
        SettleBudget(w, r, p.held, CancelEpisode(p.held.state));
      }
    case ResumeSuspended(_) =>
      if p.Loaded? {
        CommandsKeepBudget(p.held.state);
        SettleBudget(w, r, p.held, ResumeReconciliation(p.held.state));
      }
    case CommitModel(_) =>
      if p.ModelAnswered? {
        AfterModelKeepsBudget(p.held.state, p.modelOutcome);
        SettleBudget(w, r, p.held, AfterModel(p.held.state, p.modelOutcome));
      }
    case CommitTool(_) =>
      if p.ToolAnswered? && p.index < |p.held.state.operations| {
        AfterToolKeepsBudget(p.held.state, p.index, p.toolOutcome);
        SettleBudget(w, r, p.held, AfterTool(p.held.state, p.index, p.toolOutcome));
      }
    case _ =>
  }

  /** Over every run the allowances grow by exactly what was granted, in order. */
  lemma {:induction false} RunBudget(w: World, actions: seq<Action>)
    requires WorldInv(w)
    ensures Extended(w.current.state, Run(w, actions).current.state, Granted(w, actions))
    decreases |actions|
  {
    hide WorldInv, Next, Grants, Allowances;
    if actions != [] {
      NextBudget(w, actions[0]);
      NextKeeps(w, actions[0]);
      RunBudget(Next(w, actions[0]), actions[1..]);
    }
  }

  /** Every grant comes from a resume action of its own. */
  lemma {:induction false} GrantsAreOffered(w: World, actions: seq<Action>)
    ensures |Granted(w, actions)| <= |Offered(actions)|
    ensures forall g :: g in Granted(w, actions) ==> g in Offered(actions)
    decreases |actions|
  {
    hide Next;
    if actions != [] {
      GrantsAreOffered(Next(w, actions[0]), actions[1..]);
    }
  }

  lemma {:induction false} OfferedByResume(actions: seq<Action>, granted: Allowance)
    requires granted in Offered(actions)
    ensures exists k :: 0 <= k < |actions| && actions[k].Resume? && actions[k].granted == granted
    decreases |actions|
  {
    if actions[0].Resume? && actions[0].granted == granted {
      assert actions[0].Resume?;
    } else {
      OfferedByResume(actions[1..], granted);
      var k :| 0 <= k < |actions[1..]| && actions[1..][k].Resume? && actions[1..][k].granted == granted;
      assert actions[k + 1].Resume?;
    }
  }

  /** Spending over a whole run: within the allowance that the episode was created with, or within one
      that some resume of this run granted. */
  lemma BudgetsHold(id: EpisodeId, policy: Policy, input: Digest, actions: seq<Action>)
    requires InitialState(id, policy, input).Ok?
    ensures var w := Start(InitialState(id, policy, input).value);
            var s := Run(w, actions).current.state;
            var inForce := [policy.allowance] + Granted(w, actions);
            && Allowances(s) == inForce && s.policy == policy.WithAllowance(inForce[|inForce| - 1])
            && AttemptsAllowed(inForce, |s.attempts|)
            && TurnsAllowed(inForce, |s.turns|)
            && OperationsAllowed(inForce, |s.operations|)
            && |s.turns| <= |s.attempts|
            && s.stopFeedback <= policy.rules.maxStopFeedback
            && s.ambiguousAttempts <= policy.rules.maxAmbiguousAttempts + |inForce|
    ensures |Granted(Start(InitialState(id, policy, input).value), actions)| <= |Offered(actions)|
    ensures forall g :: g in Granted(Start(InitialState(id, policy, input).value), actions) ==>
              exists k :: 0 <= k < |actions| && actions[k].Resume? && actions[k].granted == g
  {
    hide StateInv, HoldersOk, PermitsOk, LogOk, Run, Granted, Offered;
    var w := Start(InitialState(id, policy, input).value);
    InitialStateInv(id, policy, input);
    StartInv(InitialState(id, policy, input).value);
    ReachableInv(id, policy, input, actions);
    RunEvolves(w, actions);
    RunBudget(w, actions);
    SpendingFacts(Run(w, actions).current.state);
    assert Allowances(w.current.state) == [policy.allowance];
    GrantsAreOffered(w, actions);
    forall g | g in Granted(w, actions)
      ensures exists k :: 0 <= k < |actions| && actions[k].Resume? && actions[k].granted == g
    {
      OfferedByResume(actions, g);
    }
  }

  lemma SpendingFacts(s: EpisodeState)
    requires StateInv(s)
    ensures AttemptsAllowed(Allowances(s), |s.attempts|)
    ensures TurnsAllowed(Allowances(s), |s.turns|)
    ensures OperationsAllowed(Allowances(s), |s.operations|)
    ensures |s.turns| <= |s.attempts|
    ensures s.stopFeedback <= s.policy.rules.maxStopFeedback
    ensures s.ambiguousAttempts <= s.policy.rules.maxAmbiguousAttempts + 1 + |s.grants|
  {
    if s.turns != [] {
      assert |s.turns| <= s.turns[|s.turns| - 1].attempt <= |s.attempts|;
    }
  }
}

/**
 What the stored record of a reachable episode says about its past: why it ended, how often the model
 was left in doubt, what each attempt follows, and that a satisfied episode is never sent back.
 */
module EpisodeHistory {
  import opened Outcomes
  import opened EpisodeRecords
  import opened EpisodeReducer
  import opened EpisodeInvariant
  import opened EpisodeSegments
  import opened EpisodeWorld
  import opened EpisodeTheorems
  import opened EpisodeLifecycle
  import opened EpisodeBinding

  // ----- Why an episode ended

  ghost predicate Ended(s: EpisodeState) {
    match s.status
    case Succeeded => s.satisfied
    case Incomplete => !s.satisfied && s.stopFeedback == s.policy.rules.maxStopFeedback
    case BudgetExhausted =>
      || OutOfTurns(s)
      || s.ambiguousAttempts > s.policy.rules.maxAmbiguousAttempts
      || (s.turns != [] && |s.operations| + |LastTurn(s).calls| > s.policy.allowance.maxOperations)
    case Failed =>
      && s.attempts != []
      && (LastAttempt(s).status.ConfirmedNotSent? || LastAttempt(s).status.Failed? || LastAttempt(s).status.DecodeFailed?)
    case Cancelled => s.cancelRequested && !InDoubt(s)
    case _ => true
  }

  lemma FeedbackWithin(s: EpisodeState)
    requires StateInv(s)
    ensures s.stopFeedback <= s.policy.rules.maxStopFeedback
    ensures s.status.CancellationPending? ==> s.cancelRequested && !InDoubt(s)
  {
    hide TurnsOk, LayoutOk, SpendingOk;
  }

  lemma AdvanceEnds(s: EpisodeState, catalog: Catalog, t: EpisodeState)
    requires StateInv(s) && Advances(s, catalog, t)
    ensures Ended(t)
  {
    hide StateInv, AdmittedAs, Chains, InDoubt;
    FeedbackWithin(s);
    if s.status.CancellationPending? {
      SameDoubt(s, t);
    } else if s.status.ModelAttemptPending? {
      PendingFacts(s);
    }
  }

  lemma ModelAnswerEnds(s: EpisodeState, outcome: ModelOutcome, t: EpisodeState)
    requires AnswersModel(s, outcome, t)
    ensures Ended(t)
  {
    hide NewestDiagnostic;
  }

  lemma OperatorsEnd(s: EpisodeState, granted: Allowance, t: EpisodeState)
    requires Reopens(s, granted, t) || Cancels(s, t) || Reconsiders(s, t)
    ensures Ended(t)
  {
    hide HasUnfinished;
  }

  lemma LawfulEnds(w: World, a: Action, t: EpisodeState)
    requires WorldInv(w) && Lawful(w, a, t)
    ensures Ended(t)
  {
    hide StateInv, PermitsOk, LogOk, Evolves, ModelHeld, Advances, AnswersModel, AnswersTool, Reopens, Cancels,
      Reconsiders, Ended;
    var s, p := w.current.state, PhaseOf(w, a.runner);
    assert PhaseOk(w.current, p);
    match a
    case Advance(_, catalog) => AdvanceEnds(s, catalog, t);
    case Resume(_, granted) => OperatorsEnd(s, granted, t);
    case Cancel(_) => OperatorsEnd(s, s.policy.allowance, t);
    case ResumeSuspended(_) => OperatorsEnd(s, s.policy.allowance, t);
    case CommitModel(_) => ModelAnswerEnds(s, p.modelOutcome, t);
    case CommitTool(_) => ToolAnswerEnds(s, p.index, p.toolOutcome, t);
  }

  lemma ToolAnswerEnds(s: EpisodeState, j: nat, outcome: ToolOutcome, t: EpisodeState)
    requires s.status.ToolWorkPending? && AnswersTool(s, j, outcome, t)
    ensures Ended(t)
  {
  }

  lemma SameDoubt(s: EpisodeState, t: EpisodeState)
    requires t.attempts == s.attempts && t.operations == s.operations
    ensures InDoubt(t) <==> InDoubt(s)
  {
  }

  // ----- How often the model was left in doubt

  function AmbiguousIn(attempts: seq<ModelAttempt>): nat {
    if attempts == [] then 0
    else AmbiguousIn(attempts[..|attempts| - 1]) + if attempts[|attempts| - 1].status.Ambiguous? then 1 else 0
  }

  lemma {:induction false} SameAmbiguity(before: seq<ModelAttempt>, after: seq<ModelAttempt>)
    requires |before| == |after|
    requires forall i :: 0 <= i < |before| ==> (before[i].status.Ambiguous? <==> after[i].status.Ambiguous?)
    ensures AmbiguousIn(after) == AmbiguousIn(before)
    decreases |before|
  {
    if before != [] {
      SameAmbiguity(before[..|before| - 1], after[..|after| - 1]);
    }
  }

  lemma LastAmbiguity(before: seq<ModelAttempt>, after: seq<ModelAttempt>)
    requires |before| == |after| > 0 && after == before[|before| - 1 := after[|after| - 1]]
    requires !before[|before| - 1].status.Ambiguous?
    ensures AmbiguousIn(after) == AmbiguousIn(before) + if after[|after| - 1].status.Ambiguous? then 1 else 0
  {
    SameAmbiguity(before[..|before| - 1], after[..|after| - 1]);
  }

  lemma AppendedAmbiguity(attempts: seq<ModelAttempt>, a: ModelAttempt)
    requires !a.status.Ambiguous?
    ensures AmbiguousIn(attempts + [a]) == AmbiguousIn(attempts)
  {
    assert (attempts + [a])[..|attempts|] == attempts;
  }

  ghost predicate AmbiguityOk(s: EpisodeState) {
    s.ambiguousAttempts == AmbiguousIn(s.attempts)
  }

  /** One attempt more, the last one moved, or none of them in a way that counts. */
  ghost predicate AttemptStep(s: EpisodeState, t: EpisodeState) {
    || (&& |t.attempts| == |s.attempts| + 1 && t.attempts == s.attempts + [LastAttempt(t)]
        && LastAttempt(t).status.Prepared? && t.ambiguousAttempts == s.ambiguousAttempts)
    || (&& |t.attempts| == |s.attempts| > 0 && t.attempts == s.attempts[|s.attempts| - 1 := LastAttempt(t)]
        && !LastAttempt(s).status.Ambiguous?
        && t.ambiguousAttempts == s.ambiguousAttempts + if LastAttempt(t).status.Ambiguous? then 1 else 0)
    || (&& |t.attempts| == |s.attempts| && t.ambiguousAttempts == s.ambiguousAttempts
        && forall i :: 0 <= i < |s.attempts| ==>
             (s.attempts[i].status.Ambiguous? <==> t.attempts[i].status.Ambiguous?))
  }

  lemma StepCounts(s: EpisodeState, t: EpisodeState)
    requires AttemptStep(s, t) && AmbiguityOk(s)
    ensures AmbiguityOk(t)
  {
    hide AmbiguousIn;
    if |t.attempts| == |s.attempts| + 1 {
      AppendedAmbiguity(s.attempts, LastAttempt(t));
    } else if |s.attempts| > 0 && t.attempts == s.attempts[|s.attempts| - 1 := LastAttempt(t)]
              && !LastAttempt(s).status.Ambiguous?
              && t.ambiguousAttempts == s.ambiguousAttempts + if LastAttempt(t).status.Ambiguous? then 1 else 0 {
      LastAmbiguity(s.attempts, t.attempts);
    } else {
      SameAmbiguity(s.attempts, t.attempts);
    }
  }

  lemma AdvanceCounts(s: EpisodeState, catalog: Catalog, t: EpisodeState)
    requires StateInv(s) && Advances(s, catalog, t)
    ensures AttemptStep(s, t)
  {
    hide StateInv, AdmittedAs, InDoubt;
    if s.status.ModelAttemptPending? {
      PendingFacts(s);
    }
  }

  lemma ModelAnswerCounts(s: EpisodeState, request: ModelRequest, outcome: ModelOutcome, t: EpisodeState)
    requires ModelHeld(s, request) && AnswersModel(s, outcome, t)
    ensures AttemptStep(s, t)
  {
    hide StateInv, NewestDiagnostic;
    PendingFacts(s);
  }

  lemma OthersCount(s: EpisodeState, granted: Allowance, j: nat, outcome: ToolOutcome, t: EpisodeState)
    requires Reopens(s, granted, t) || Cancels(s, t) || Reconsiders(s, t) || AnswersTool(s, j, outcome, t)
    ensures AttemptStep(s, t)
  {
    hide HasUnfinished, InDoubt;
  }

  lemma LawfulCounts(w: World, a: Action, t: EpisodeState)
    requires WorldInv(w) && Lawful(w, a, t)
    ensures AttemptStep(w.current.state, t)
  {
    hide StateInv, PermitsOk, LogOk, ModelHeld, ToolHeld, Evolves, Advances, AnswersModel, AnswersTool, Reopens, Cancels,
      Reconsiders, AttemptStep;
    var s, p := w.current.state, PhaseOf(w, a.runner);
    assert PhaseOk(w.current, p);
    match a
    case Advance(_, catalog) => AdvanceCounts(s, catalog, t);
    case Resume(_, granted) => OthersCount(s, granted, 0, Pending(Issued(0)), t);
    case Cancel(_) => OthersCount(s, s.policy.allowance, 0, Pending(Issued(0)), t);
    case ResumeSuspended(_) => OthersCount(s, s.policy.allowance, 0, Pending(Issued(0)), t);
    case CommitModel(_) => ModelAnswerCounts(s, p.request, p.modelOutcome, t);
    case CommitTool(_) => OthersCount(s, s.policy.allowance, p.index, p.toolOutcome, t);
  }

  // ----- What each attempt follows

  /** The continuation of the last turn that was recorded before attempt `n`. */
  function ContinuationBefore(turns: seq<Turn>, n: nat): Option<Digest> {
    var k := TurnsBefore(turns, n);
    if k == 0 then None else Some(turns[k - 1].continuation)
  }

  /** Each attempt names the one before it and the turn it continues, and each turn is the answer of
      the attempt it names. */
  ghost predicate ChainOk(s: EpisodeState) {
    && (forall i :: 0 <= i < |s.attempts| ==> LinkOk(s, i))
    && (forall k :: 0 <= k < |s.turns| ==> TurnOk(s, k))
  }

  ghost predicate LinkOk(s: EpisodeState, i: nat)
    requires i < |s.attempts|
  {
    && s.attempts[i].predecessor == (if i == 0 then None else Some(i))
    && s.attempts[i].predecessorContinuation == ContinuationBefore(s.turns, i + 1)
  }

  ghost predicate TurnOk(s: EpisodeState, k: nat)
    requires k < |s.turns|
  {
    && 1 <= s.turns[k].attempt <= |s.attempts|
    && s.attempts[s.turns[k].attempt - 1].continuation == Some(s.turns[k].continuation)
  }

  /** A new attempt chained to the past, a new turn from the last attempt, or neither. */
  ghost predicate ChainStep(s: EpisodeState, t: EpisodeState) {
    if |t.attempts| != |s.attempts| then
      && |t.attempts| == |s.attempts| + 1 && t.attempts == s.attempts + [LastAttempt(t)]
      && Chains(s, LastAttempt(t)) && t.turns == s.turns
    else if t.turns != s.turns then
      && |t.turns| == |s.turns| + 1 && t.turns == s.turns + [LastTurn(t)] && s.attempts != []
      && LastTurn(t).attempt == |t.attempts|
      && LastAttempt(t).continuation == Some(LastTurn(t).continuation)
    else true
  }

  lemma AdvanceChains(s: EpisodeState, catalog: Catalog, t: EpisodeState)
    requires Advances(s, catalog, t)
    ensures ChainStep(s, t)
  {
    hide AdmittedAs;
  }

  lemma ModelAnswerChains(s: EpisodeState, outcome: ModelOutcome, t: EpisodeState)
    requires AnswersModel(s, outcome, t)
    ensures ChainStep(s, t)
  {
    hide NewestDiagnostic;
  }

  lemma OthersChain(s: EpisodeState, granted: Allowance, j: nat, outcome: ToolOutcome, t: EpisodeState)
    requires Reopens(s, granted, t) || Cancels(s, t) || Reconsiders(s, t) || AnswersTool(s, j, outcome, t)
    ensures ChainStep(s, t)
  {
    hide HasUnfinished, InDoubt;
  }

  lemma LawfulChains(w: World, a: Action, t: EpisodeState)
    requires Lawful(w, a, t)
    ensures ChainStep(w.current.state, t)
  {
    hide Advances, AnswersModel, AnswersTool, Reopens, Cancels, Reconsiders, ChainStep;
    var s, p := w.current.state, PhaseOf(w, a.runner);
    match a
    case Advance(_, catalog) => AdvanceChains(s, catalog, t);
    case Resume(_, granted) => OthersChain(s, granted, 0, Pending(Issued(0)), t);
    case Cancel(_) => OthersChain(s, s.policy.allowance, 0, Pending(Issued(0)), t);
    case ResumeSuspended(_) => OthersChain(s, s.policy.allowance, 0, Pending(Issued(0)), t);
    case CommitModel(_) => ModelAnswerChains(s, p.modelOutcome, t);
    case CommitTool(_) => OthersChain(s, s.policy.allowance, p.index, p.toolOutcome, t);
  }

  lemma DecodedTurns(s: EpisodeState)
    requires StateInv(s)
    ensures forall k :: 0 <= k < |s.turns| ==>
              && 1 <= s.turns[k].attempt <= |s.attempts|
              && s.attempts[s.turns[k].attempt - 1].status.Decoded?
  {
    hide AttemptsOk, LayoutOk, ToolsOk, FlagsOk, SpendingOk, CountersOk;
  }

  lemma LinkKept(s: EpisodeState, t: EpisodeState, i: nat)
    requires Evolves(s, t) && ChainStep(s, t) && i < |t.attempts|
    requires i < |s.attempts| ==> LinkOk(s, i)
    requires forall k :: 0 <= k < |s.turns| ==> s.turns[k].attempt <= |s.attempts|
    ensures LinkOk(t, i)
  {
    hide TurnsBefore, Evolves;
    if i < |s.attempts| {
      AttemptKept(s, t, i);
      TurnsBeforeKept(s, t, i + 1);
    } else {
      AllTurnsBefore(s.turns, i + 1);
    }
  }

  lemma TurnKept(s: EpisodeState, t: EpisodeState, k: nat)
    requires Evolves(s, t) && ChainStep(s, t) && k < |t.turns|
    requires k < |s.turns| ==> TurnOk(s, k) && s.attempts[s.turns[k].attempt - 1].status.Decoded?
    ensures TurnOk(t, k)
  {
    hide Evolves;
    if k < |s.turns| {
      AttemptKept(s, t, s.turns[k].attempt - 1);
      assert t.turns[k] == s.turns[k];
    }
  }

  lemma ChainKept(s: EpisodeState, t: EpisodeState)
    requires StateInv(s) && Evolves(s, t) && ChainStep(s, t) && ChainOk(s)
    ensures ChainOk(t)
  {
    hide StateInv, Evolves, ChainStep, LinkOk, TurnOk;
    DecodedTurns(s);
    forall i | 0 <= i < |t.attempts| ensures LinkOk(t, i) {
      LinkKept(s, t, i);
    }
    forall k | 0 <= k < |t.turns| ensures TurnOk(t, k) {
      TurnKept(s, t, k);
    }
  }

  lemma TurnsBeforeKept(s: EpisodeState, t: EpisodeState, n: nat)
    requires ChainStep(s, t) && n <= |s.attempts|
    ensures ContinuationBefore(t.turns, n) == ContinuationBefore(s.turns, n)
  {
    if |t.attempts| == |s.attempts| && t.turns != s.turns {
      assert t.turns[..|s.turns|] == s.turns;
    }
  }

  // ----- Every reachable state

  ghost predicate HistoryOk(s: EpisodeState) {
    Ended(s) && AmbiguityOk(s) && ChainOk(s)
  }

  lemma NextHistory(w: World, a: Action)
    requires WorldInv(w) && HistoryOk(w.current.state)
    ensures HistoryOk(Next(w, a).current.state)
  {
    hide StateInv, HoldersOk, PermitsOk, LogOk, Evolves, Next, Lawful, Ended, AmbiguityOk, ChainOk;
    NextIsLawful(w, a);
    NextEvolves(w, a);
    var s, t := w.current.state, Next(w, a).current.state;
    if Lawful(w, a, t) {
      LawfulEnds(w, a, t);
      LawfulCounts(w, a, t);
      StepCounts(s, t);
      LawfulChains(w, a, t);
      ChainKept(s, t);
    }
  }

  lemma {:induction false} RunHistory(w: World, actions: seq<Action>)
    requires WorldInv(w) && HistoryOk(w.current.state)
    ensures HistoryOk(Run(w, actions).current.state)
    decreases |actions|
  {
    hide WorldInv, Next, HistoryOk;
    if actions != [] {
      NextHistory(w, actions[0]);
      NextKeeps(w, actions[0]);
      RunHistory(Next(w, actions[0]), actions[1..]);
    }
  }

  /** Over every run from creation: whatever ended the episode is on record, the counter of unresolved
      attempts is their number, and attempts and turns form one chain. */
  lemma HistoryIsTrue(id: EpisodeId, policy: Policy, input: Digest, actions: seq<Action>)
    requires InitialState(id, policy, input).Ok?
    ensures HistoryOk(Run(Start(InitialState(id, policy, input).value), actions).current.state)
  {
    hide StateInv, Run;
    InitialStateInv(id, policy, input);
    StartInv(InitialState(id, policy, input).value);
    RunHistory(Start(InitialState(id, policy, input).value), actions);
  }

  // ----- A satisfied episode

  lemma AdvanceSatisfied(s: EpisodeState, catalog: Catalog, t: EpisodeState)
    requires Advances(s, catalog, t) && s.satisfied
    ensures t.satisfied && t.stopFeedback == s.stopFeedback && !t.status.Incomplete?
    ensures s.status.StopReview? ==> t.status.Succeeded?
  {
    hide AdmittedAs, Chains;
  }

  lemma OthersSatisfied(s: EpisodeState, granted: Allowance, request: ModelOutcome, j: nat, outcome: ToolOutcome,
                        t: EpisodeState)
    requires s.satisfied && !s.status.Incomplete?
    requires || Reopens(s, granted, t) || Cancels(s, t) || Reconsiders(s, t)
             || AnswersModel(s, request, t) || AnswersTool(s, j, outcome, t)
    ensures t.satisfied && t.stopFeedback == s.stopFeedback && !t.status.Incomplete?
  {
    hide HasUnfinished, InDoubt, NewestDiagnostic;
  }

  lemma NextSatisfied(w: World, a: Action)
    requires WorldInv(w) && w.current.state.satisfied && !w.current.state.status.Incomplete?
    ensures var s, t := w.current.state, Next(w, a).current.state;
            t.satisfied && t.stopFeedback == s.stopFeedback && !t.status.Incomplete?
  {
    hide WorldInv, Next, Advances, AnswersModel, AnswersTool, Reopens, Cancels, Reconsiders;
    NextIsLawful(w, a);
    var s, t, p := w.current.state, Next(w, a).current.state, PhaseOf(w, a.runner);
    if Lawful(w, a, t) {
      match a
      case Advance(_, catalog) => AdvanceSatisfied(s, catalog, t);
      case Resume(_, granted) => OthersSatisfied(s, granted, AmbiguousAnswer(None), 0, Pending(Issued(0)), t);
      case Cancel(_) => OthersSatisfied(s, s.policy.allowance, AmbiguousAnswer(None), 0, Pending(Issued(0)), t);
      case ResumeSuspended(_) =>
        OthersSatisfied(s, s.policy.allowance, AmbiguousAnswer(None), 0, Pending(Issued(0)), t);
      case CommitModel(_) => OthersSatisfied(s, s.policy.allowance, p.modelOutcome, 0, Pending(Issued(0)), t);
      case CommitTool(_) => OthersSatisfied(s, s.policy.allowance, AmbiguousAnswer(None), p.index, p.toolOutcome, t);
    }
  }

  /** Once a gate is satisfied, over every continuation: no stop is answered with feedback again, and the
      episode never ends Incomplete. */
  lemma {:induction false} SatisfiedIsNotSentBack(w: World, actions: seq<Action>)
    requires WorldInv(w) && HistoryOk(w.current.state) && w.current.state.satisfied
    ensures var s, t := w.current.state, Run(w, actions).current.state;
            t.satisfied && t.stopFeedback == s.stopFeedback && !t.status.Incomplete?
    decreases |actions|
  {
    hide WorldInv, Next, AmbiguityOk, ChainOk;
    if actions != [] {
      NextSatisfied(w, actions[0]);
      NextHistory(w, actions[0]);
      NextKeeps(w, actions[0]);
      SatisfiedIsNotSentBack(Next(w, actions[0]), actions[1..]);
    }
  }

  /** In every reachable world, a runner that advances a stopped episode which nobody else has moved ends
      it with success if and only if a gate is satisfied; otherwise it spends one more chance, or ends it
      as Incomplete exactly when none is left. */
  lemma StopIsReviewed(id: EpisodeId, policy: Policy, input: Digest, actions: seq<Action>, r: RunnerId, catalog: Catalog)
    requires InitialState(id, policy, input).Ok?
    requires var w := Run(Start(InitialState(id, policy, input).value), actions);
             PhaseOf(w, r) == Loaded(w.current) && w.current.state.status.StopReview?
    ensures var w := Run(Start(InitialState(id, policy, input).value), actions);
            var s, t := w.current.state, Next(w, Advance(r, catalog)).current.state;
            && (t.status.Succeeded? <==> s.satisfied)
            && (t.status.Incomplete? <==> !s.satisfied && s.stopFeedback == policy.rules.maxStopFeedback)
            && (t.status.ReadyForModel? <==> !s.satisfied && s.stopFeedback < policy.rules.maxStopFeedback)
            && t.stopFeedback == s.stopFeedback + (if t.status.ReadyForModel? then 1 else 0)
  {
    hide StateInv, Evolves, PermitsOk, LogOk, Run, BeginAdvance;
    var start := Start(InitialState(id, policy, input).value);
    var w := Run(start, actions);
    ReachableInv(id, policy, input, actions);
    InitialStateInv(id, policy, input);
    StartInv(start.current.state);
    RunEvolves(start, actions);
    RulesKept(start.current.state, w.current.state);
    FeedbackWithin(w.current.state);
    BeginAdvanceKeeps(w.current.state, catalog);
    AdvanceLaw(w.current.state, catalog);
    StopMoves(w.current.state, catalog);
  }

  lemma RulesKept(s: EpisodeState, t: EpisodeState)
    requires Evolves(s, t)
    ensures t.policy.rules == s.policy.rules
  {
  }

  lemma StopMoves(s: EpisodeState, catalog: Catalog)
    requires StateInv(s) && s.status.StopReview? && BeginAdvance(s, catalog).Ok?
    ensures BeginAdvance(s, catalog).value.Commit?
  {
    hide StateInv;
  }
}

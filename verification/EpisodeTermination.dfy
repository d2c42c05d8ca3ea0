/**
 An episode makes a bounded number of definite steps: an explicit measure falls on every committed
 advance that carries a definite answer, and only a grant raises it, by no more than the grant is worth.
 */
module EpisodeTermination {
  import opened Outcomes
  import opened EpisodeRecords
  import opened EpisodeReducer
  import opened EpisodeInvariant
  import opened EpisodeSegments
  import opened EpisodeAnswers
  import opened EpisodeWorld
  import opened EpisodeBudgets

  // ----- The measure

  function Unfinished(ops: seq<Operation>): nat {
    if ops == [] then 0
    else Unfinished(ops[..|ops| - 1]) + if ops[|ops| - 1].status.IsTerminal() then 0 else 1
  }

  function Remaining(s: EpisodeState): nat {
    if |s.attempts| < s.policy.allowance.maxAttempts then s.policy.allowance.maxAttempts - |s.attempts| else 0
  }

  const RANKS: nat := 7

  function Rank(status: EpisodeStatus): (rank: nat)
    ensures rank < RANKS
  {
    match status
    case Created => 6
    case ModelAttemptPending => 5
    case TurnRecorded => 4
    case StopReview => 3
    case ToolWorkPending => 3
    case SuspensionRequested => 3
    case Suspended => 3
    case ReadyForModel => 2
    case CancellationPending => 1
    case _ => 0
  }

  /** Remaining attempts first, then the status. */
  function Level(s: EpisodeState): nat {
    RANKS * Remaining(s) + Rank(s.status)
  }

  function Measure(s: EpisodeState): nat {
    Level(s) * (s.policy.rules.maxCallsPerTurn + 1) + Unfinished(s.operations)
  }

  /** No turn was admitted with more calls than the rules allow. */
  predicate Narrow(s: EpisodeState) {
    Unfinished(s.operations) <= s.policy.rules.maxCallsPerTurn
  }

  // ----- Counting unfinished operations

  lemma {:induction false} UnfinishedUpdate(ops: seq<Operation>, index: nat, o: Operation)
    requires index < |ops| && !ops[index].status.IsTerminal()
    ensures Unfinished(ops) >= 1
    ensures Unfinished(ops[index := o]) == if o.status.IsTerminal() then Unfinished(ops) - 1 else Unfinished(ops)
    decreases |ops|
  {
    var n := |ops| - 1;
    if index == n {
      assert ops[index := o][..n] == ops[..n];
    } else {
      UnfinishedUpdate(ops[..n], index, o);
      assert ops[index := o][..n] == ops[..n][index := o];
    }
  }

  lemma {:induction false} UnfinishedAppend(ops: seq<Operation>, more: seq<Operation>)
    ensures Unfinished(ops + more) <= Unfinished(ops) + |more|
    decreases |more|
  {
    if more == [] {
      assert ops + more == ops;
    } else {
      assert (ops + more)[..|ops + more| - 1] == ops + more[..|more| - 1];
      UnfinishedAppend(ops, more[..|more| - 1]);
    }
  }

  lemma {:induction false} NoneUnfinished(ops: seq<Operation>)
    requires forall j :: 0 <= j < |ops| ==> ops[j].status.IsTerminal()
    ensures Unfinished(ops) == 0
  {
    if ops != [] {
      NoneUnfinished(ops[..|ops| - 1]);
    }
  }

  // ----- One step of the measure

  lemma Scaled(low: nat, high: nat, width: nat)
    requires low < high
    ensures low * width + width <= high * width
  {
    assert high * width == (low + 1) * width + (high - low - 1) * width;
  }

  lemma LevelFalls(s: EpisodeState, t: EpisodeState)
    requires Level(t) < Level(s) && t.policy.rules == s.policy.rules && Narrow(t)
    ensures Measure(t) < Measure(s)
  {
    hide Level, Unfinished;
    Scaled(Level(t), Level(s), s.policy.rules.maxCallsPerTurn + 1);
  }

  lemma LevelStays(s: EpisodeState, t: EpisodeState)
    requires Level(t) == Level(s) && t.policy.rules == s.policy.rules
    ensures Measure(t) - Unfinished(t.operations) == Measure(s) - Unfinished(s.operations)
  {
  }

  /** How the measure may move across one committed step. */
  ghost predicate Falls(s: EpisodeState, t: EpisodeState) {
    Narrow(t) && t.policy.rules == s.policy.rules && Measure(t) < Measure(s)
  }

  ghost predicate DoesNotRise(s: EpisodeState, t: EpisodeState) {
    Narrow(t) && t.policy.rules == s.policy.rules && Measure(t) <= Measure(s)
  }

  lemma PlanFalls(s: EpisodeState, catalog: Catalog)
    requires StateInv(s) && s.status.TurnRecorded? && PlanTools(s, catalog).Ok?
    ensures PlanTools(s, catalog).value.Commit? && Falls(s, PlanTools(s, catalog).value.state)
  {
    hide StateInv, Measure, PlanTools, Unfinished;
    PlanMoves(s, catalog);
    TurnFacts(s);
    NoneUnfinished(s.operations);
    var t := PlanTools(s, catalog).value.state;
    var more := t.operations[|s.operations|..];
    assert t.operations == s.operations + more;
    UnfinishedAppend(s.operations, more);
    LevelFalls(s, t);
  }

  lemma ToolFalls(s: EpisodeState)
    requires StateInv(s) && Narrow(s) && s.status.ToolWorkPending? && BeginTool(s).Ok?
    ensures match BeginTool(s).value
            case Commit(t, _) => Falls(s, t)
            case AskTool(t, _, _, _) => DoesNotRise(s, t)
            case _ => false
  {
    hide StateInv, DispatchRecord;
    WorkFacts(s);
    var index := FirstUnfinished(s.operations);
    if index == |s.operations| {
      LevelFalls(s, BeginTool(s).value.state);
    } else {
      var o := s.operations[index];
      assert OperationOk(s, o);
      DispatchRecordMoves(o);
      UnfinishedUpdate(s.operations, index, DispatchRecord(o).value);
      LevelStays(s, BeginTool(s).value.state);
    }
  }

  lemma ModelFalls(s: EpisodeState)
    requires StateInv(s) && Narrow(s) && s.status.ModelAttemptPending? && BeginModel(s).Ok?
    ensures match BeginModel(s).value
            case Commit(t, _) => Falls(s, t)
            case AskModel(t, _) => DoesNotRise(s, t)
            case _ => false
  {
    hide StateInv, Measure, RecoverDispatch;
    PendingFacts(s);
    if LastAttempt(s).status.Dispatching? {
      RecoverDispatchValue(s);
      LevelFalls(s, BeginModel(s).value.state);
    } else {
      LevelStays(s, BeginModel(s).value.state);
    }
  }

  lemma ReadyFalls(s: EpisodeState)
    requires Narrow(s) && s.status.ReadyForModel? && PrepareAttempt(s).Ok?
    ensures PrepareAttempt(s).value.Commit? && Falls(s, PrepareAttempt(s).value.state)
  {
    hide Measure;
    LevelFalls(s, PrepareAttempt(s).value.state);
  }

  lemma ReviewFalls(s: EpisodeState)
    requires Narrow(s) && s.status.StopReview? && ReviewStop(s).Ok?
    ensures ReviewStop(s).value.Commit? && Falls(s, ReviewStop(s).value.state)
  {
    hide Measure;
    LevelFalls(s, ReviewStop(s).value.state);
  }

  /** A first segment that commits at once makes progress; one that dispatches does not go back. */
  lemma BeginAdvanceFalls(s: EpisodeState, catalog: Catalog)
    requires StateInv(s) && Narrow(s) && BeginAdvance(s, catalog).Ok?
    ensures match BeginAdvance(s, catalog).value
            case Rest(_) => s.status.IsTerminal() || s.status.Suspended?
            case Commit(t, _) => Falls(s, t)
            case AskModel(t, _) => DoesNotRise(s, t)
            case AskTool(t, _, _, _) => DoesNotRise(s, t)
  {
    hide StateInv, Measure, PrepareAttempt, BeginModel, PlanTools, BeginTool, ReviewStop;
    NeverSuspensionRequested(s);
    match s.status
    case Created => LevelFalls(s, s.(status := EpisodeStatus.ReadyForModel));
    case ReadyForModel => ReadyFalls(s);
    case ModelAttemptPending => ModelFalls(s);
    case TurnRecorded => PlanFalls(s, catalog);
    case ToolWorkPending => ToolFalls(s);
    case StopReview => ReviewFalls(s);
    case CancellationPending => LevelFalls(s, s.(status := EpisodeStatus.Cancelled));
    case _ =>
  }

  lemma AfterModelFalls(s: EpisodeState, request: ModelRequest, outcome: ModelOutcome)
    requires ModelHeld(s, request) && Narrow(s) && AfterModel(s, outcome).Ok?
    ensures AfterModel(s, outcome).value.Commit? && Falls(s, AfterModel(s, outcome).value.state)
  {
    hide StateInv, Measure, AfterModel;
    PendingFacts(s);
    if outcome.TurnAnswer? {
      AfterTurnAnswer(s, outcome);
    } else {
      AfterUnusableAnswer(s, outcome);
    }
    LevelFalls(s, AfterModel(s, outcome).value.state);
  }

  lemma AfterToolFalls(s: EpisodeState, index: nat, invocation: ToolInvocation, reconciling: bool,
                       outcome: ToolOutcome)
    requires ToolHeld(s, index, invocation, reconciling) && Narrow(s)
    requires index < |s.operations| && AfterTool(s, index, outcome).Ok?
    ensures AfterTool(s, index, outcome).value.Commit?
    ensures var t := AfterTool(s, index, outcome).value.state;
            if outcome.Completed? then Falls(s, t) else DoesNotRise(s, t)
  {
    hide StateInv, AfterTool;
    HeldFacts(s, index, invocation, reconciling);
    AfterToolValue(s, index, outcome);
    var t := AfterTool(s, index, outcome).value.state;
    UnfinishedUpdate(s.operations, index, t.operations[index]);
    LevelStays(s, t);
  }

  lemma CancelDoesNotRise(s: EpisodeState)
    requires StateInv(s) && Narrow(s)
    ensures CancelEpisode(s).Ok? && CancelEpisode(s).value.Commit? ==>
              DoesNotRise(s, CancelEpisode(s).value.state)
  {
    hide StateInv, Measure, CancelEpisode, Unfinished;
    NeverSuspensionRequested(s);
    DoubtFacts(s);
    if CancelEpisode(s).Ok? && CancelEpisode(s).value.Commit? {
      CancelShape(s);
      var index := FirstDispatching(s.operations);
      if index < |s.operations| {
        UnfinishedUpdate(s.operations, index, s.operations[index].(status := ToolStatus.Ambiguous));
      }
      LevelOrder(s, CancelEpisode(s).value.state);
    }
  }

  lemma ReconciliationDoesNotRise(s: EpisodeState)
    requires StateInv(s) && Narrow(s)
    ensures ResumeReconciliation(s).Ok? && ResumeReconciliation(s).value.Commit? ==>
              DoesNotRise(s, ResumeReconciliation(s).value.state)
  {
    hide StateInv, Measure, Unfinished;
    if ResumeReconciliation(s).Ok? && ResumeReconciliation(s).value.Commit? {
      LevelOrder(s, ResumeReconciliation(s).value.state);
    }
  }

  lemma LevelOrder(s: EpisodeState, t: EpisodeState)
    requires Level(t) <= Level(s) && t.policy.rules == s.policy.rules && Narrow(t)
    requires Unfinished(t.operations) == Unfinished(s.operations)
    ensures Measure(t) <= Measure(s)
  {
    if Level(t) < Level(s) {
      LevelFalls(s, t);
    } else {
      LevelStays(s, t);
    }
  }

  // ----- Runs

  /** The action commits an advance whose gateway answer, if any, was definite. */
  predicate Definite(w: World, a: Action) {
    var p := PhaseOf(w, a.runner);
    && !p.Idle? && p.held.revision == w.current.revision
    && match a
       case Advance(_, catalog) =>
         p.Loaded? && BeginAdvance(p.held.state, catalog).Ok? && BeginAdvance(p.held.state, catalog).value.Commit?
       case CommitModel(_) => p.ModelAnswered? && AfterModel(p.held.state, p.modelOutcome).Ok?
       case CommitTool(_) =>
         && p.ToolAnswered? && p.toolOutcome.Completed? && p.index < |p.held.state.operations|
         && AfterTool(p.held.state, p.index, p.toolOutcome).Ok?
       case _ => false
  }

  lemma NextMeasure(w: World, a: Action)
    requires WorldInv(w) && Narrow(w.current.state) && !a.Resume?
    ensures var s, t := w.current.state, Next(w, a).current.state;
            if Definite(w, a) then Falls(s, t) else DoesNotRise(s, t)
  {
    hide StateInv, Evolves, PermitsOk, LogOk, StepKeeps, Narrow, Measure,
      BeginAdvance, ResumeEpisode, CancelEpisode, ResumeReconciliation, AfterModel, AfterTool;
    var p := PhaseOf(w, a.runner);
    assert PhaseOk(w.current, p);
    if !p.Idle? && p.held.revision == w.current.revision {
      var s := p.held.state;
      match a
      case Advance(_, catalog) =>
        if p.Loaded? && BeginAdvance(s, catalog).Ok? {
          BeginAdvanceFalls(s, catalog);
        }
      case Cancel(_) =>
        CancelDoesNotRise(s);
        CancelKeeps(s);
      case ResumeSuspended(_) =>
        ReconciliationDoesNotRise(s);
        ReconciliationKeeps(s);
      case CommitModel(_) =>
        if p.ModelAnswered? && AfterModel(s, p.modelOutcome).Ok? {
          AfterModelFalls(s, p.request, p.modelOutcome);
        }
      case CommitTool(_) =>
        if p.ToolAnswered? && p.index < |s.operations| && AfterTool(s, p.index, p.toolOutcome).Ok? {
          AfterToolFalls(s, p.index, p.invocation, p.reconciling, p.toolOutcome);
        }
      case _ =>
    }
  }

  function DefiniteSteps(w: World, actions: seq<Action>): nat
    decreases |actions|
  {
    if actions == [] then 0
    else (if Definite(w, actions[0]) then 1 else 0) + DefiniteSteps(Next(w, actions[0]), actions[1..])
  }

  // ----- Grants

  /** How many definite steps an allowance is worth. */
  function Worth(a: Allowance, rules: Rules): nat {
    (RANKS * a.maxAttempts + RANKS - 1) * (rules.maxCallsPerTurn + 1)
  }

  function TotalWorth(allowances: seq<Allowance>, rules: Rules): nat {
    if allowances == [] then 0 else Worth(allowances[0], rules) + TotalWorth(allowances[1..], rules)
  }

  lemma {:induction false} WorthAppends(first: seq<Allowance>, second: seq<Allowance>, rules: Rules)
    ensures TotalWorth(first + second, rules) == TotalWorth(first, rules) + TotalWorth(second, rules)
    decreases |first|
  {
    hide Worth;
    if first == [] {
      assert first + second == second;
    } else {
      WorthAppends(first[1..], second, rules);
      assert (first + second)[1..] == first[1..] + second;
    }
  }

  lemma NoWorth(rules: Rules)
    ensures TotalWorth([], rules) == 0
  {
  }

  /** An episode with nothing unfinished has no more steps left than its allowance is worth. */
  lemma MeasureWithinWorth(s: EpisodeState)
    requires Unfinished(s.operations) == 0
    ensures Measure(s) <= Worth(s.policy.allowance, s.policy.rules)
  {
    hide Unfinished;
    var width, most := s.policy.rules.maxCallsPerTurn + 1, RANKS * s.policy.allowance.maxAttempts + RANKS - 1;
    assert Level(s) <= most;
    if Level(s) < most {
      Scaled(Level(s), most, width);
    }
  }

  /** A resume starts over with nothing unfinished. */
  lemma ResumeStartsOver(s: EpisodeState, granted: Allowance)
    requires StateInv(s) && ResumeEpisode(s, granted).Ok? && ResumeEpisode(s, granted).value.Commit?
    ensures var t := ResumeEpisode(s, granted).value.state;
            && Narrow(t) && t.policy == s.policy.WithAllowance(granted)
            && Measure(t) <= Worth(granted, s.policy.rules)
  {
    hide AttemptsOk, TurnsOk, LayoutOk, FlagsOk, SpendingOk, CountersOk, Measure;
    NothingUnfinished(s);
    NoneUnfinished(s.operations);
    MeasureWithinWorth(ResumeEpisode(s, granted).value.state);
  }

  /** The measure pays for definite steps, and a grant pays for what it adds. */
  lemma NextSpends(w: World, a: Action)
    requires WorldInv(w) && Narrow(w.current.state)
    ensures var s, t := w.current.state, Next(w, a).current.state;
            && Narrow(t) && t.policy.rules == s.policy.rules
            && (if Definite(w, a) then 1 else 0) + Measure(t)
               <= Measure(s) + TotalWorth(Grants(w, a), s.policy.rules)
  {
    hide StateInv, Evolves, PermitsOk, LogOk, Narrow, Measure, Worth,
      BeginAdvance, ResumeEpisode, CancelEpisode, ResumeReconciliation, AfterModel, AfterTool;
    var p := PhaseOf(w, a.runner);
    assert PhaseOk(w.current, p);
    if a.Resume? {
      if p.Loaded? && ResumeEpisode(p.held.state, a.granted).Ok? {
        ResumeCommitsOnly(p.held.state, a.granted);
        if Grants(w, a) != [] {
          ResumeStartsOver(p.held.state, a.granted);
          assert Grants(w, a)[1..] == [];
        }
      }
    } else {
      NextMeasure(w, a);
    }
  }

  lemma {:induction false} RunMeasure(w: World, actions: seq<Action>)
    requires WorldInv(w) && Narrow(w.current.state)
    ensures DefiniteSteps(w, actions) + Measure(Run(w, actions).current.state)
            <= Measure(w.current.state) + TotalWorth(Granted(w, actions), w.current.state.policy.rules)
    decreases |actions|
  {
    hide WorldInv, Narrow, Measure, Next, Definite, Grants, TotalWorth;
    if actions == [] {
      NoWorth(w.current.state.policy.rules);
    } else {
      var v := Next(w, actions[0]);
      NextSpends(w, actions[0]);
      NextKeeps(w, actions[0]);
      RunMeasure(v, actions[1..]);
      WorthAppends(Grants(w, actions[0]), Granted(v, actions[1..]), w.current.state.policy.rules);
    }
  }

  /** The whole life of an episode takes at most as many definite steps as its first allowance and the
      allowances granted to it are worth, however its runners interleave, crash, are cancelled or resume. */
  lemma DefiniteStepsAreBounded(id: EpisodeId, policy: Policy, input: Digest, actions: seq<Action>)
    requires InitialState(id, policy, input).Ok?
    ensures var w := Start(InitialState(id, policy, input).value);
            DefiniteSteps(w, actions) <= TotalWorth([policy.allowance] + Granted(w, actions), policy.rules)
  {
    hide StateInv, DefiniteSteps, Run, Granted, Measure, Worth;
    var s := InitialState(id, policy, input).value;
    InitialStateInv(id, policy, input);
    assert WorldInv(Start(s));
    MeasureWithinWorth(s);
    RunMeasure(Start(s), actions);
    var granted := Granted(Start(s), actions);
    assert ([policy.allowance] + granted)[1..] == granted;
  }

  /** The bound is about real progress: a runner that is left alone in any state that is neither
      terminal nor suspended, and is not about to plan a turn in budget that lacks a label, makes a
      definite step as soon as its gateway answers definitely. */
  lemma ProgressIsPossible(s: EpisodeState, catalog: Catalog)
    requires StateInv(s) && !s.status.IsTerminal() && !s.status.Suspended?
    ensures BeginAdvance(s, catalog).Ok? <==> !(s.status.TurnRecorded? && LacksLabel(s, catalog))
    ensures BeginAdvance(s, catalog).Ok? ==>
            match BeginAdvance(s, catalog).value
            case Rest(_) => false
            case Commit(_, _) => true
            case AskModel(t, _) =>
              forall outcome: ModelOutcome :: (outcome.TurnAnswer? ==> |outcome.calls| <= U32_MAX) ==>
                AfterModel(t, outcome).Ok?
            case AskTool(t, index, _, _) =>
              && index < |t.operations|
              && forall outcome: ToolOutcome :: Acceptable(t.operations[index], outcome) ==>
                   AfterTool(t, index, outcome).Ok?
  {
    hide StateInv, Evolves, AfterModel, AfterTool, BeginAdvance, LacksLabel;
    BeginAdvanceKeeps(s, catalog);
    if BeginAdvance(s, catalog).Ok? {
      RestOnlyAtRest(s, catalog);
      AnswersAreTaken(BeginAdvance(s, catalog).value, s);
    }
  }

  /** Whatever was asked for, every answer of the right kind can be committed. */
  lemma AnswersAreTaken(step: Step, s: EpisodeState)
    requires StepKeeps(s, step)
    ensures match step
            case Rest(_) => true
            case Commit(_, _) => true
            case AskModel(t, _) =>
              forall outcome: ModelOutcome :: (outcome.TurnAnswer? ==> |outcome.calls| <= U32_MAX) ==>
                AfterModel(t, outcome).Ok?
            case AskTool(t, index, _, _) =>
              && index < |t.operations|
              && forall outcome: ToolOutcome :: Acceptable(t.operations[index], outcome) ==>
                   AfterTool(t, index, outcome).Ok?
  {
    hide StateInv, Evolves, AfterModel, AfterTool;
    match step
    case AskModel(t, request) =>
      forall outcome: ModelOutcome | outcome.TurnAnswer? ==> |outcome.calls| <= U32_MAX
        ensures AfterModel(t, outcome).Ok?
      {
        AfterModelKeeps(t, request, outcome);
      }
    case AskTool(t, index, invocation, reconciling) =>
      forall outcome: ToolOutcome | Acceptable(t.operations[index], outcome)
        ensures AfterTool(t, index, outcome).Ok?
      {
        AfterToolKeeps(t, index, invocation, reconciling, outcome);
      }
    case _ =>
  }

  lemma RestOnlyAtRest(s: EpisodeState, catalog: Catalog)
    requires StateInv(s) && BeginAdvance(s, catalog).Ok?
    ensures BeginAdvance(s, catalog).value.Rest? ==> s.status.IsTerminal() || s.status.Suspended?
  {
    hide StateInv;
    NeverSuspensionRequested(s);
  }
}

/**
 Any number of runners over one compare-and-swap repository. A runner loads a versioned clone, may
 commit a dispatch, makes one external call, and commits the answer; between any two of those it
 may crash, and every other runner or operator may act. Only the revision check orders them.
 */
module EpisodeWorld {
  import opened Outcomes
  import opened EpisodeRecords
  import opened EpisodeReducer
  import opened EpisodeInvariant
  import opened EpisodeSegments
  import opened EpisodeAnswers

  type RunnerId = nat

  datatype Versioned = Versioned(revision: nat, state: EpisodeState)

  /** What one runner has in its hands. */
  datatype Phase =
    | Idle
    | Loaded(held: Versioned)
    | ModelReady(held: Versioned, request: ModelRequest)
    | ModelAnswered(held: Versioned, request: ModelRequest, modelOutcome: ModelOutcome)
    | ToolReady(held: Versioned, index: nat, invocation: ToolInvocation, reconciling: bool)
    | ToolAnswered(held: Versioned, index: nat, invocation: ToolInvocation, reconciling: bool,
                   toolOutcome: ToolOutcome)

  /** The external calls that were really made, oldest first. */
  datatype Call =
    | Invoke(request: ModelRequest)
    | Execute(invocation: ToolInvocation)
    | Reconcile(invocation: ToolInvocation)

  datatype World = World(current: Versioned, runners: map<RunnerId, Phase>, calls: seq<Call>)

  datatype Action =
    | Load(runner: RunnerId)
    | Crash(runner: RunnerId)
    | Advance(runner: RunnerId, catalog: Catalog)
    | Resume(runner: RunnerId, granted: Allowance)
    | Cancel(runner: RunnerId)
    | ResumeSuspended(runner: RunnerId)
    | CallModel(runner: RunnerId, modelOutcome: ModelOutcome)
    | CommitModel(runner: RunnerId)
    | CallTool(runner: RunnerId, toolOutcome: ToolOutcome)
    | CommitTool(runner: RunnerId)

  // ----- Steps

  function PhaseOf(w: World, r: RunnerId): Phase {
    if r in w.runners then w.runners[r] else Idle
  }

  function WithPhase(w: World, r: RunnerId, p: Phase): World {
    w.(runners := w.runners[r := p])
  }

  /** Compare and swap. A conflict is an error: the runner drops what it holds. */
  function Save(w: World, r: RunnerId, held: Versioned, t: EpisodeState, after: Phase): World {
    if held.revision == w.current.revision
    then World(Versioned(held.revision + 1, t), w.runners[r := after], w.calls)
    else WithPhase(w, r, Idle)
  }

  function Settle(w: World, r: RunnerId, held: Versioned, step: Fallible<Step>): World {
    if step.Err? then WithPhase(w, r, Idle)
    else match step.value
      case Rest(_) => WithPhase(w, r, Idle)
      case Commit(t, _) => Save(w, r, held, t, Idle)
      case AskModel(t, request) =>
        Save(w, r, held, t, ModelReady(Versioned(held.revision + 1, t), request))
      case AskTool(t, index, invocation, reconciling) =>
        Save(w, r, held, t, ToolReady(Versioned(held.revision + 1, t), index, invocation, reconciling))
  }

  /** One action. An action that its runner cannot take changes nothing. */
  function Next(w: World, a: Action): World {
    var p := PhaseOf(w, a.runner);
    match a
    case Load(r) => if p.Idle? then WithPhase(w, r, Loaded(w.current)) else w
    case Crash(r) => WithPhase(w, r, Idle)
    case Advance(r, catalog) =>
      if p.Loaded? then Settle(w, r, p.held, BeginAdvance(p.held.state, catalog)) else w
    case Resume(r, granted) =>
      if p.Loaded? then Settle(w, r, p.held, ResumeEpisode(p.held.state, granted)) else w
    case Cancel(r) =>
      if p.Loaded? then Settle(w, r, p.held, CancelEpisode(p.held.state)) else w
    case ResumeSuspended(r) =>
      if p.Loaded? then Settle(w, r, p.held, ResumeReconciliation(p.held.state)) else w
    case CallModel(r, outcome) =>
      if p.ModelReady?
      then WithPhase(w, r, ModelAnswered(p.held, p.request, outcome)).(calls := w.calls + [Invoke(p.request)])
      else w
    case CommitModel(r) =>
      if p.ModelAnswered? then Settle(w, r, p.held, AfterModel(p.held.state, p.modelOutcome)) else w
    case CallTool(r, outcome) =>
      if p.ToolReady?
      then WithPhase(w, r, ToolAnswered(p.held, p.index, p.invocation, p.reconciling, outcome)).(
             calls := w.calls + [if p.reconciling then Reconcile(p.invocation) else Execute(p.invocation)])
      else w
    case CommitTool(r) =>
      if p.ToolAnswered? && p.index < |p.held.state.operations|
      then Settle(w, r, p.held, AfterTool(p.held.state, p.index, p.toolOutcome))
      else w
  }

  function Run(w: World, actions: seq<Action>): World
    decreases |actions|
  {
    if actions == [] then w else Run(Next(w, actions[0]), actions[1..])
  }

  lemma RunOne(w: World, a: Action)
    ensures Run(w, [a]) == Next(w, a)
  {
    hide Next;
    assert [a][1..] == [];
  }

  lemma RunTwo(w: World, a: Action, b: Action)
    ensures Run(w, [a, b]) == Next(Next(w, a), b)
  {
    hide Next;
    assert [a, b][1..] == [b];
    RunOne(Next(w, a), b);
  }

  lemma RunThree(w: World, a: Action, b: Action, c: Action)
    ensures Run(w, [a, b, c]) == Next(Next(Next(w, a), b), c)
  {
    hide Next;
    assert [a, b, c][1..] == [b, c];
    RunTwo(Next(w, a), b, c);
  }

  lemma RunFour(w: World, a: Action, b: Action, c: Action, d: Action)
    ensures Run(w, [a, b, c, d]) == Next(Next(Next(Next(w, a), b), c), d)
  {
    hide Next;
    assert [a, b, c, d][1..] == [b, c, d];
    RunThree(Next(w, a), b, c, d);
  }

  /** A freshly created episode that nobody has loaded. */
  function Start(s: EpisodeState): World {
    World(Versioned(0, s), map[], [])
  }

  // ----- Effects

  /** An effect the outside world must see at most once. */
  datatype Effect = ModelEffect(attempt: nat) | ToolEffect(id: OperationId)

  function EffectOf(c: Call): Option<Effect> {
    match c
    case Invoke(request) => Some(ModelEffect(request.attempt))
    case Execute(invocation) => Some(ToolEffect(invocation.id))
    case Reconcile(_) => None
  }

  /** The effect that a runner is entitled to cause next. */
  function Permit(p: Phase): Option<Effect> {
    match p
    case ModelReady(_, request) => Some(ModelEffect(request.attempt))
    case ToolReady(_, _, invocation, reconciling) => if reconciling then None else Some(ToolEffect(invocation.id))
    case _ => None
  }

  /** The repository already records a dispatch for this effect. */
  ghost predicate Spent(s: EpisodeState, e: Effect) {
    match e
    case ModelEffect(n) => 1 <= n <= |s.attempts| && !s.attempts[n - 1].status.Prepared?
    case ToolEffect(id) =>
      exists j :: 0 <= j < |s.operations| && s.operations[j].id == id && Dispatched(s.operations[j].status)
  }

  /** The call matches the record it was made for. */
  ghost predicate CallOk(s: EpisodeState, c: Call) {
    match c
    case Invoke(request) =>
      && 1 <= request.attempt <= |s.attempts|
      && request.input == s.attempts[request.attempt - 1].request
      && !s.attempts[request.attempt - 1].status.Prepared?
    case Execute(invocation) =>
      exists j :: 0 <= j < |s.operations| && InvocationOf(s.operations[j]) == invocation
                  && Dispatched(s.operations[j].status)
    case Reconcile(invocation) =>
      exists j :: 0 <= j < |s.operations| && InvocationOf(s.operations[j]) == invocation
                  && Followed(s.operations[j].status)
  }

  // ----- The invariant over all runners

  ghost predicate HeldOk(current: Versioned, held: Versioned) {
    && held.revision <= current.revision
    && (held.revision == current.revision ==> held.state == current.state)
    && StateInv(held.state)
    && Evolves(held.state, current.state)
  }

  ghost predicate PhaseOk(current: Versioned, p: Phase) {
    match p
    case Idle => true
    case Loaded(held) => HeldOk(current, held)
    case ModelReady(held, request) => HeldOk(current, held) && ModelHeld(held.state, request)
    case ModelAnswered(held, request, _) => HeldOk(current, held) && ModelHeld(held.state, request)
    case ToolReady(held, index, invocation, reconciling) =>
      HeldOk(current, held) && ToolHeld(held.state, index, invocation, reconciling)
    case ToolAnswered(held, index, invocation, reconciling, _) =>
      HeldOk(current, held) && ToolHeld(held.state, index, invocation, reconciling)
  }

  ghost predicate HoldersOk(w: World) {
    forall r :: r in w.runners ==> PhaseOk(w.current, w.runners[r])
  }

  ghost predicate Unused(calls: seq<Call>, e: Effect) {
    forall i :: 0 <= i < |calls| ==> EffectOf(calls[i]) != Some(e)
  }

  ghost predicate PermitsOk(w: World) {
    && (forall r :: r in w.runners && Permit(w.runners[r]).Some? ==>
          && Spent(w.current.state, Permit(w.runners[r]).value)
          && Unused(w.calls, Permit(w.runners[r]).value))
    && (forall r, q :: r in w.runners && q in w.runners && r != q && Permit(w.runners[r]).Some? ==>
          Permit(w.runners[r]) != Permit(w.runners[q]))
  }

  ghost predicate LogOk(w: World) {
    && (forall i :: 0 <= i < |w.calls| ==> CallOk(w.current.state, w.calls[i]))
    && (forall i, j :: 0 <= i < j < |w.calls| && EffectOf(w.calls[i]).Some? ==>
          EffectOf(w.calls[i]) != EffectOf(w.calls[j]))
  }

  ghost predicate WorldInv(w: World) {
    StateInv(w.current.state) && HoldersOk(w) && PermitsOk(w) && LogOk(w)
  }

  // ----- Evidence survives every commit

  lemma SpentSurvives(s: EpisodeState, t: EpisodeState, e: Effect)
    requires Evolves(s, t) && Spent(s, e)
    ensures Spent(t, e)
  {
  }

  lemma CallSurvives(s: EpisodeState, t: EpisodeState, c: Call)
    requires Evolves(s, t) && CallOk(s, c)
    ensures CallOk(t, c)
  {
  }

  lemma EvolvesReflexive(s: EpisodeState)
    ensures Evolves(s, s)
  {
  }

  lemma HolderSurvives(current: Versioned, t: EpisodeState, p: Phase)
    requires PhaseOk(current, p) && Evolves(current.state, t)
    ensures PhaseOk(Versioned(current.revision + 1, t), p)
  {
    hide StateInv, Evolves, ModelHeld, ToolHeld;
    if !p.Idle? {
      EvolvesTransitive(p.held.state, current.state, t);
    }
  }

  /** Two operations of one episode never share an identity. */
  lemma OperationIdsDistinct(s: EpisodeState, j: nat, k: nat)
    requires StateInv(s) && j < |s.operations| && k < |s.operations|
    ensures s.operations[j].id == s.operations[k].id ==> j == k
  {
  }

  // ----- Commits

  /** A successful commit keeps the invariant when the new holder's permit, if any, was unspent. */
  lemma SaveKeeps(w: World, r: RunnerId, t: EpisodeState, after: Phase)
    requires WorldInv(w) && StateInv(t) && Evolves(w.current.state, t)
    requires PhaseOk(Versioned(w.current.revision + 1, t), after)
    requires Permit(after).Some? ==>
               !Spent(w.current.state, Permit(after).value) && Spent(t, Permit(after).value)
    ensures WorldInv(Save(w, r, w.current, t, after))
  {
    hide StateInv, Evolves, PhaseOk, Spent, CallOk;
    var v := Save(w, r, w.current, t, after);
    forall q | q in v.runners ensures PhaseOk(v.current, v.runners[q]) {
      if q != r {
        HolderSurvives(w.current, t, w.runners[q]);
      }
    }
    PermitsSurvive(w, r, t, after);
    forall i | 0 <= i < |v.calls| ensures CallOk(v.current.state, v.calls[i]) {
      CallSurvives(w.current.state, t, w.calls[i]);
    }
  }

  lemma LoggedIsSpent(s: EpisodeState, c: Call)
    requires CallOk(s, c) && EffectOf(c).Some?
    ensures Spent(s, EffectOf(c).value)
  {
  }

  lemma PermitsSurvive(w: World, r: RunnerId, t: EpisodeState, after: Phase)
    requires PermitsOk(w) && LogOk(w) && Evolves(w.current.state, t)
    requires Permit(after).Some? ==>
               !Spent(w.current.state, Permit(after).value) && Spent(t, Permit(after).value)
    ensures PermitsOk(Save(w, r, w.current, t, after))
  {
    hide Evolves, Spent, CallOk;
    var v := Save(w, r, w.current, t, after);
    forall q | q in v.runners && Permit(v.runners[q]).Some?
      ensures Spent(t, Permit(v.runners[q]).value)
      ensures Unused(v.calls, Permit(v.runners[q]).value)
    {
      if q == r {
        forall i | 0 <= i < |w.calls| ensures EffectOf(w.calls[i]) != Some(Permit(after).value) {
          if EffectOf(w.calls[i]).Some? {
            LoggedIsSpent(w.current.state, w.calls[i]);
          }
        }
      } else {
        SpentSurvives(w.current.state, t, Permit(w.runners[q]).value);
      }
    }
    forall q, p | q in v.runners && p in v.runners && q != p && Permit(v.runners[q]).Some?
      ensures Permit(v.runners[q]) != Permit(v.runners[p])
    {
      if q == r && Permit(v.runners[p]).Some? {
        assert Spent(w.current.state, Permit(w.runners[p]).value);
      } else if p == r {
        assert Spent(w.current.state, Permit(w.runners[q]).value);
      }
    }
  }

  lemma OperationKept(s: EpisodeState, t: EpisodeState, index: nat)
    requires Evolves(s, t) && index < |s.operations|
    ensures index < |t.operations| && OperationEvolves(s.operations[index], t.operations[index])
  {
  }

  lemma ModelPermitIsNew(s: EpisodeState, t: EpisodeState, request: ModelRequest)
    requires StateInv(s) && StepKeeps(s, AskModel(t, request))
    ensures !Spent(s, ModelEffect(request.attempt)) && Spent(t, ModelEffect(request.attempt))
  {
    hide StateInv, Evolves;
    PendingFacts(s);
    PendingFacts(t);
  }

  lemma ToolPermitIsNew(s: EpisodeState, t: EpisodeState, index: nat, invocation: ToolInvocation)
    requires StateInv(s) && StepKeeps(s, AskTool(t, index, invocation, false))
    ensures !Spent(s, ToolEffect(invocation.id)) && Spent(t, ToolEffect(invocation.id))
  {
    hide StateInv, Evolves;
    OperationKept(s, t, index);
    forall j | 0 <= j < |s.operations| && s.operations[j].id == invocation.id
      ensures !Dispatched(s.operations[j].status)
    {
      OperationIdsDistinct(s, j, index);
    }
  }

  /** What a runner does with a segment's result keeps the invariant. */
  lemma SettleKeeps(w: World, r: RunnerId, step: Step)
    requires WorldInv(w) && StepKeeps(w.current.state, step)
    ensures WorldInv(Settle(w, r, w.current, Ok(step)))
  {
    hide StateInv, Evolves, HoldersOk, PermitsOk, LogOk, Spent;
    match step
    case Rest(_) => DropKeeps(w, r);
    case Commit(t, _) => SaveKeeps(w, r, t, Idle);
    case AskModel(t, request) =>
      ModelPermitIsNew(w.current.state, t, request);
      EvolvesReflexive(t);
      SaveKeeps(w, r, t, ModelReady(Versioned(w.current.revision + 1, t), request));
    case AskTool(t, index, invocation, reconciling) =>
      if !reconciling {
        ToolPermitIsNew(w.current.state, t, index, invocation);
      }
      EvolvesReflexive(t);
      SaveKeeps(w, r, t, ToolReady(Versioned(w.current.revision + 1, t), index, invocation, reconciling));
  }

  /** A runner that has no permit, or gives it up, cannot hurt anyone. */
  lemma PhaseKeeps(w: World, r: RunnerId, p: Phase)
    requires WorldInv(w) && PhaseOk(w.current, p) && Permit(p).None?
    ensures WorldInv(WithPhase(w, r, p))
  {
    hide StateInv, PhaseOk, Spent, CallOk;
  }

  lemma DropKeeps(w: World, r: RunnerId)
    requires WorldInv(w)
    ensures WorldInv(WithPhase(w, r, Idle))
  {
    hide StateInv, HoldersOk, PermitsOk, LogOk;
    PhaseKeeps(w, r, Idle);
  }

  // ----- Calls

  lemma CallKeeps(w: World, r: RunnerId, p: Phase, c: Call)
    requires WorldInv(w) && r in w.runners && PhaseOk(w.current, p) && Permit(p).None?
    requires CallOk(w.current.state, c) && EffectOf(c) == Permit(w.runners[r])
    ensures WorldInv(WithPhase(w, r, p).(calls := w.calls + [c]))
  {
    hide StateInv, PhaseOk, Spent, CallOk;
    var v := WithPhase(w, r, p).(calls := w.calls + [c]);
    forall q | q in v.runners && Permit(v.runners[q]).Some?
      ensures Unused(v.calls, Permit(v.runners[q]).value)
    {
      assert Permit(w.runners[q]) != Permit(w.runners[r]);
    }
    forall i, j | 0 <= i < j < |v.calls| && EffectOf(v.calls[i]).Some?
      ensures EffectOf(v.calls[i]) != EffectOf(v.calls[j])
    {
      if j == |w.calls| && EffectOf(c).Some? {
        assert Unused(w.calls, EffectOf(c).value);
      }
    }
  }

  lemma HeldCallOk(w: World, p: Phase, c: Call)
    requires PhaseOk(w.current, p)
    requires
      || (p.ModelReady? && c == Invoke(p.request))
      || (p.ToolReady? && p.reconciling && c == Reconcile(p.invocation))
      || (p.ToolReady? && !p.reconciling && c == Execute(p.invocation))
    ensures CallOk(w.current.state, c)
  {
    hide StateInv, Evolves;
    var s, t := p.held.state, w.current.state;
    if p.ModelReady? {
      PendingFacts(s);
      AttemptKept(s, t, |s.attempts| - 1);
    } else {
      HeldFacts(s, p.index, p.invocation, p.reconciling);
      OperationKept(s, t, p.index);
      assert InvocationOf(t.operations[p.index]) == p.invocation;
    }
  }

  lemma AttemptKept(s: EpisodeState, t: EpisodeState, index: nat)
    requires Evolves(s, t) && index < |s.attempts|
    ensures index < |t.attempts| && AttemptEvolves(s.attempts[index], t.attempts[index])
  {
  }

  // ----- Every action

  /** A segment computed from any holder, stale or current. */
  lemma SettleHeldKeeps(w: World, r: RunnerId, held: Versioned, step: Fallible<Step>)
    requires WorldInv(w) && HeldOk(w.current, held)
    requires step.Ok? ==> StepKeeps(held.state, step.value)
    ensures WorldInv(Settle(w, r, held, step))
  {
    hide StateInv, Evolves, HoldersOk, PermitsOk, LogOk, StepKeeps;
    if step.Ok? && held.revision == w.current.revision {
      assert held == w.current;
      SettleKeeps(w, r, step.value);
    } else {
      DropKeeps(w, r);
    }
  }

  lemma NextKeeps(w: World, a: Action)
    requires WorldInv(w)
    ensures WorldInv(Next(w, a))
  {
    hide StateInv, Evolves, PermitsOk, LogOk, ModelHeld, ToolHeld, CallOk,
      BeginAdvance, ResumeEpisode, CancelEpisode, ResumeReconciliation, AfterModel, AfterTool, Settle, StepKeeps;
    var r := a.runner;
    var p := PhaseOf(w, r);
    assert PhaseOk(w.current, p);
    match a
    case Load(_) =>
      EvolvesReflexive(w.current.state);
      PhaseKeeps(w, r, Loaded(w.current));
    case Crash(_) => DropKeeps(w, r);
    case Advance(_, catalog) =>
      if p.Loaded? {
        BeginAdvanceKeeps(p.held.state, catalog);
        SettleHeldKeeps(w, r, p.held, BeginAdvance(p.held.state, catalog));
      }
    case Resume(_, granted) =>
      if p.Loaded? {
        if ResumeEpisode(p.held.state, granted).Ok? {
          ResumeKeeps(p.held.state, granted);
        }
        SettleHeldKeeps(w, r, p.held, ResumeEpisode(p.held.state, granted));
      }
    case Cancel(_) =>
      if p.Loaded? {
        CancelKeeps(p.held.state);
        SettleHeldKeeps(w, r, p.held, CancelEpisode(p.held.state));
      }
    case ResumeSuspended(_) =>
      if p.Loaded? {
        ReconciliationKeeps(p.held.state);
        SettleHeldKeeps(w, r, p.held, ResumeReconciliation(p.held.state));
      }
    case CallModel(_, outcome) =>
      if p.ModelReady? {
        HeldCallOk(w, p, Invoke(p.request));
        CallKeeps(w, r, ModelAnswered(p.held, p.request, outcome), Invoke(p.request));
      }
    case CommitModel(_) =>
      if p.ModelAnswered? {
        AfterModelKeeps(p.held.state, p.request, p.modelOutcome);
        SettleHeldKeeps(w, r, p.held, AfterModel(p.held.state, p.modelOutcome));
      }
    case CallTool(_, outcome) =>
      if p.ToolReady? {
        var c := if p.reconciling then Reconcile(p.invocation) else Execute(p.invocation);
        HeldCallOk(w, p, c);
        CallKeeps(w, r, ToolAnswered(p.held, p.index, p.invocation, p.reconciling, outcome), c);
      }
    case CommitTool(_) =>
      if p.ToolAnswered? && p.index < |p.held.state.operations| {
        AfterToolKeeps(p.held.state, p.index, p.invocation, p.reconciling, p.toolOutcome);
        SettleHeldKeeps(w, r, p.held, AfterTool(p.held.state, p.index, p.toolOutcome));
      }
  }

  lemma {:induction false} RunKeeps(w: World, actions: seq<Action>)
    requires WorldInv(w)
    ensures WorldInv(Run(w, actions))
    decreases |actions|
  {
    hide WorldInv, Next;
    if actions != [] {
      NextKeeps(w, actions[0]);
      RunKeeps(Next(w, actions[0]), actions[1..]);
    }
  }
}

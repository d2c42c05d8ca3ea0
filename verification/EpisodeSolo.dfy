/**
 One runner at a time. Whatever a runner does between two moments at which it holds nothing is the
 same run in every world: it sees only the stored version, and it only appends to the calls.
 */
module EpisodeSolo {
  import opened Outcomes
  import opened EpisodeRecords
  import opened EpisodeReducer
  import opened EpisodeInvariant
  import opened EpisodeWorld
  import opened EpisodeTheorems

  const SOLO: RunnerId := 0

  /** A stored version that nobody has loaded. */
  function Solo(v: Versioned): World {
    World(v, map[], [])
  }

  predicate AllSolo(actions: seq<Action>) {
    forall i :: 0 <= i < |actions| ==> actions[i].runner == SOLO
  }

  // ----- The rest of the world does not matter

  /** `w` is `x` with other runners and with earlier calls. */
  ghost predicate Extends(w: World, x: World, earlier: seq<Call>, others: World) {
    && w.current == x.current && PhaseOf(w, SOLO) == PhaseOf(x, SOLO)
    && w.calls == earlier + x.calls
    && forall r :: r != SOLO ==> PhaseOf(w, r) == PhaseOf(others, r)
  }

  lemma SettleExtends(w: World, x: World, earlier: seq<Call>, others: World, held: Versioned, step: Fallible<Step>)
    requires Extends(w, x, earlier, others)
    ensures Extends(Settle(w, SOLO, held, step), Settle(x, SOLO, held, step), earlier, others)
  {
  }

  lemma NextExtends(w: World, x: World, earlier: seq<Call>, others: World, a: Action)
    requires Extends(w, x, earlier, others) && a.runner == SOLO
    ensures Extends(Next(w, a), Next(x, a), earlier, others)
  {
    hide BeginAdvance, ResumeEpisode, CancelEpisode, ResumeReconciliation, AfterModel, AfterTool, Settle;
    var p := PhaseOf(x, SOLO);
    match a
    case Advance(_, catalog) =>
      if p.Loaded? { SettleExtends(w, x, earlier, others, p.held, BeginAdvance(p.held.state, catalog)); }
    case Resume(_, granted) =>
      if p.Loaded? { SettleExtends(w, x, earlier, others, p.held, ResumeEpisode(p.held.state, granted)); }
    case Cancel(_) =>
      if p.Loaded? { SettleExtends(w, x, earlier, others, p.held, CancelEpisode(p.held.state)); }
    case ResumeSuspended(_) =>
      if p.Loaded? { SettleExtends(w, x, earlier, others, p.held, ResumeReconciliation(p.held.state)); }
    case CommitModel(_) =>
      if p.ModelAnswered? { SettleExtends(w, x, earlier, others, p.held, AfterModel(p.held.state, p.modelOutcome)); }
    case CommitTool(_) =>
      if p.ToolAnswered? && p.index < |p.held.state.operations| {
        SettleExtends(w, x, earlier, others, p.held, AfterTool(p.held.state, p.index, p.toolOutcome));
      }
    case _ =>
  }

  lemma {:induction false} RunExtends(w: World, x: World, earlier: seq<Call>, others: World, actions: seq<Action>)
    requires Extends(w, x, earlier, others) && AllSolo(actions)
    ensures Extends(Run(w, actions), Run(x, actions), earlier, others)
    decreases |actions|
  {
    hide Next, Extends;
    if actions != [] {
      NextExtends(w, x, earlier, others, actions[0]);
      RunExtends(Next(w, actions[0]), Next(x, actions[0]), earlier, others, actions[1..]);
    }
  }

  /** A run of one runner alone happens just so in every world in which that runner holds nothing. */
  lemma SoloEmbeds(w: World, actions: seq<Action>)
    requires PhaseOf(w, SOLO).Idle? && AllSolo(actions)
    ensures var alone, there := Run(Solo(w.current), actions), Run(w, actions);
            && there.current == alone.current && there.calls == w.calls + alone.calls
            && PhaseOf(there, SOLO) == PhaseOf(alone, SOLO)
            && forall r :: r != SOLO ==> PhaseOf(there, r) == PhaseOf(w, r)
  {
    hide Run;
    RunExtends(w, Solo(w.current), w.calls, w, actions);
  }

  lemma {:induction false} RunAppend(w: World, first: seq<Action>, second: seq<Action>)
    ensures Run(w, first + second) == Run(Run(w, first), second)
    decreases |first|
  {
    hide Next;
    if first == [] {
      assert first + second == second;
    } else {
      RunAppend(Next(w, first[0]), first[1..], second);
      assert (first + second)[1..] == first[1..] + second;
    }
  }

  // ----- One call of the runner

  /** The first half of a call, by what it asks for. */
  function StepOf(s: EpisodeState, a: Action): Option<Fallible<Step>> {
    match a
    case Advance(_, catalog) => Some(BeginAdvance(s, catalog))
    case Resume(_, granted) => Some(ResumeEpisode(s, granted))
    case Cancel(_) => Some(CancelEpisode(s))
    case ResumeSuspended(_) => Some(ResumeReconciliation(s))
    case _ => None
  }

  /** A call that makes no external call: it commits, or leaves everything as it was. */
  lemma CommandRun(v: Versioned, a: Action)
    requires a.runner == SOLO && StepOf(v.state, a).Some?
    requires var step := StepOf(v.state, a).value; step.Ok? ==> step.value.Rest? || step.value.Commit?
    ensures var w := Run(Solo(v), [Load(SOLO), a]);
            var step := StepOf(v.state, a).value;
            && PhaseOf(w, SOLO).Idle? && w.calls == []
            && w.current == if step.Ok? && step.value.Commit? then Versioned(v.revision + 1, step.value.state) else v
  {
    hide BeginAdvance, ResumeEpisode, CancelEpisode, ResumeReconciliation;
    RunTwo(Solo(v), Load(SOLO), a);
  }

  /** A dispatch that was committed, and then a crash before the call. */
  lemma DispatchRun(v: Versioned, catalog: Catalog)
    requires BeginAdvance(v.state, catalog).Ok?
    requires BeginAdvance(v.state, catalog).value.AskModel? || BeginAdvance(v.state, catalog).value.AskTool?
    ensures var w := Run(Solo(v), [Load(SOLO), Advance(SOLO, catalog), Crash(SOLO)]);
            && w.current == Versioned(v.revision + 1, BeginAdvance(v.state, catalog).value.state)
            && w.calls == [] && PhaseOf(w, SOLO).Idle?
  {
    hide BeginAdvance;
    RunThree(Solo(v), Load(SOLO), Advance(SOLO, catalog), Crash(SOLO));
  }

  /** A model call, followed by a crash or by the commit of its answer. */
  lemma ModelRun(v: Versioned, catalog: Catalog, outcome: ModelOutcome, last: Action)
    requires BeginAdvance(v.state, catalog).Ok? && BeginAdvance(v.state, catalog).value.AskModel?
    requires last == Crash(SOLO) || last == CommitModel(SOLO)
    requires last.CommitModel? && AfterModel(BeginAdvance(v.state, catalog).value.state, outcome).Ok? ==>
               AfterModel(BeginAdvance(v.state, catalog).value.state, outcome).value.Commit?
    ensures var w := Run(Solo(v), [Load(SOLO), Advance(SOLO, catalog), CallModel(SOLO, outcome), last]);
            var t := BeginAdvance(v.state, catalog).value.state;
            && w.calls == [Invoke(BeginAdvance(v.state, catalog).value.request)]
            && PhaseOf(w, SOLO).Idle?
            && w.current == (if last.CommitModel? && AfterModel(t, outcome).Ok?
                             then Versioned(v.revision + 2, AfterModel(t, outcome).value.state)
                             else Versioned(v.revision + 1, t))
  {
    hide BeginAdvance, AfterModel;
    RunFour(Solo(v), Load(SOLO), Advance(SOLO, catalog), CallModel(SOLO, outcome), last);
  }

  lemma ToolRun(v: Versioned, catalog: Catalog, outcome: ToolOutcome, last: Action)
    requires BeginAdvance(v.state, catalog).Ok? && BeginAdvance(v.state, catalog).value.AskTool?
    requires last == Crash(SOLO) || last == CommitTool(SOLO)
    requires var step := BeginAdvance(v.state, catalog).value;
             && step.index < |step.state.operations|
             && (last.CommitTool? && AfterTool(step.state, step.index, outcome).Ok? ==>
                   AfterTool(step.state, step.index, outcome).value.Commit?)
    ensures var w := Run(Solo(v), [Load(SOLO), Advance(SOLO, catalog), CallTool(SOLO, outcome), last]);
            var step := BeginAdvance(v.state, catalog).value;
            && w.calls == [if step.reconciling then Reconcile(step.invocation) else Execute(step.invocation)]
            && PhaseOf(w, SOLO).Idle?
            && w.current == (if last.CommitTool? && AfterTool(step.state, step.index, outcome).Ok?
                             then Versioned(v.revision + 2, AfterTool(step.state, step.index, outcome).value.state)
                             else Versioned(v.revision + 1, step.state))
  {
    hide BeginAdvance, AfterTool;
    RunFour(Solo(v), Load(SOLO), Advance(SOLO, catalog), CallTool(SOLO, outcome), last);
  }

  // ----- Calls one after the other

  /** One call: what the runner did, which external calls it made, and the version it left. */
  datatype Session = Session(actions: seq<Action>, calls: seq<Call>, after: Versioned)

  /** This call, started from `v`, is a run of one runner that ends holding nothing. */
  ghost predicate Happens(v: Versioned, s: Session) {
    && AllSolo(s.actions)
    && var w := Run(Solo(v), s.actions);
       w.current == s.after && w.calls == s.calls && PhaseOf(w, SOLO).Idle?
  }

  /** Each call starts from the version that the one before it left. */
  ghost predicate Chained(v: Versioned, sessions: seq<Session>)
    decreases |sessions|
  {
    sessions == [] || (Happens(v, sessions[0]) && Chained(sessions[0].after, sessions[1..]))
  }

  function AllActions(sessions: seq<Session>): seq<Action> {
    if sessions == [] then [] else sessions[0].actions + AllActions(sessions[1..])
  }

  function AllCalls(sessions: seq<Session>): seq<Call> {
    if sessions == [] then [] else sessions[0].calls + AllCalls(sessions[1..])
  }

  function Final(v: Versioned, sessions: seq<Session>): Versioned {
    if sessions == [] then v else sessions[|sessions| - 1].after
  }

  /** Calls one after the other are one run, in any world in which the runner holds nothing. */
  lemma {:induction false} SessionsCompose(w: World, sessions: seq<Session>)
    requires PhaseOf(w, SOLO).Idle? && Chained(w.current, sessions)
    ensures var there := Run(w, AllActions(sessions));
            && there.current == Final(w.current, sessions) && there.calls == w.calls + AllCalls(sessions)
            && PhaseOf(there, SOLO).Idle?
            && forall r :: r != SOLO ==> PhaseOf(there, r) == PhaseOf(w, r)
    decreases |sessions|
  {
    hide Run, PhaseOf, AllActions, AllCalls;
    if sessions == [] {
      NothingRuns(w);
      NothingCalled();
    } else {
      var first, rest := sessions[0], sessions[1..];
      SoloEmbeds(w, first.actions);
      var after := Run(w, first.actions);
      SessionsCompose(after, rest);
      RunAppend(w, first.actions, AllActions(rest));
      OneSession(sessions);
      assert (w.calls + first.calls) + AllCalls(rest) == w.calls + (first.calls + AllCalls(rest));
    }
  }

  lemma NothingCalled()
    ensures AllActions([]) == [] && AllCalls([]) == []
  {
  }

  lemma OneSession(sessions: seq<Session>)
    requires sessions != []
    ensures AllActions(sessions) == sessions[0].actions + AllActions(sessions[1..])
    ensures AllCalls(sessions) == sessions[0].calls + AllCalls(sessions[1..])
  {
  }

  lemma NothingRuns(w: World)
    ensures Run(w, []) == w
  {
  }

  /** However many calls of the runtime follow the creation of an episode, no model attempt is invoked
      twice, no operation is executed twice, and all calls for an operation are identical. */
  lemma CallsAtMostOnce(id: EpisodeId, policy: Policy, input: Digest, sessions: seq<Session>)
    requires InitialState(id, policy, input).Ok?
    requires Chained(Versioned(0, InitialState(id, policy, input).value), sessions)
    ensures var calls := AllCalls(sessions);
            && (forall i, j :: 0 <= i < j < |calls| ==> !SameEffect(calls[i], calls[j]))
            && (forall i, j :: 0 <= i < |calls| && 0 <= j < |calls| && SameOperation(calls[i], calls[j]) ==>
                  calls[i].invocation == calls[j].invocation)
  {
    hide Run, Chained;
    var w := Start(InitialState(id, policy, input).value);
    SessionsCompose(w, sessions);
    EffectsAtMostOnce(id, policy, input, AllActions(sessions));
    assert [] + AllCalls(sessions) == AllCalls(sessions);
  }
}

/** Cancellation is final for the model, and what it leaves to the tools. */
module EpisodeCancellation {
  import opened Outcomes
  import opened EpisodeRecords
  import opened EpisodeReducer
  import opened EpisodeInvariant
  import opened EpisodeSegments
  import opened EpisodeAnswers
  import opened EpisodeWorld
  import opened EpisodeTheorems
  import opened EpisodeSolo

  /** Nothing about the model moved, no operation was added, and the only way to end is `Cancelled`. */
  predicate WindsDown(s: EpisodeState, t: EpisodeState) {
    && t.attempts == s.attempts && t.turns == s.turns && t.cancelRequested
    && |t.operations| == |s.operations|
    && (t.status.IsTerminal() ==> t.status.Cancelled?)
  }

  lemma CancelledFacts(s: EpisodeState)
    requires StateInv(s) && s.cancelRequested
    ensures s.status.ReadyForModel? || ToolPhase(s.status)
    ensures forall i :: 0 <= i < |s.attempts| ==> !s.attempts[i].status.Dispatching?
    ensures WindsDown(s, s)
  {
    hide TurnsOk, LayoutOk, ToolsOk, SpendingOk, CountersOk;
  }

  lemma AdvanceWindsDown(s: EpisodeState, catalog: Catalog)
    requires StateInv(s) && s.cancelRequested && BeginAdvance(s, catalog).Ok?
    ensures match BeginAdvance(s, catalog).value
            case Rest(_) => true
            case Commit(t, _) => WindsDown(s, t)
            case AskModel(_, _) => false
            case AskTool(t, _, _, _) => WindsDown(s, t)
  {
    hide StateInv;
    CancelledFacts(s);
  }

  lemma ToolAnswerWindsDown(s: EpisodeState, index: nat, outcome: ToolOutcome)
    requires s.cancelRequested && s.status.ToolWorkPending? && index < |s.operations|
    requires AfterTool(s, index, outcome).Ok?
    ensures AfterTool(s, index, outcome).value.Commit?
    ensures WindsDown(s, AfterTool(s, index, outcome).value.state)
  {
  }

  lemma OperatorWindsDown(s: EpisodeState)
    requires StateInv(s) && s.cancelRequested
    ensures CancelEpisode(s).Ok? && CancelEpisode(s).value.Commit? ==>
              WindsDown(s, CancelEpisode(s).value.state)
    ensures ResumeReconciliation(s).Ok? && ResumeReconciliation(s).value.Commit? ==>
              WindsDown(s, ResumeReconciliation(s).value.state)
  {
    hide StateInv;
    CancelledFacts(s);
    assert !ModelInDoubt(s);
  }

  lemma NextWindsDown(w: World, a: Action)
    requires WorldInv(w) && w.current.state.cancelRequested
    ensures WindsDown(w.current.state, Next(w, a).current.state)
  {
    hide StateInv, Evolves, PermitsOk, LogOk, StepKeeps,
      BeginAdvance, ResumeEpisode, CancelEpisode, ResumeReconciliation, AfterModel, AfterTool, WindsDown;
    CancelledFacts(w.current.state);
    var p := PhaseOf(w, a.runner);
    assert PhaseOk(w.current, p);
    if !p.Idle? && p.held.revision == w.current.revision {
      var s := p.held.state;
      match a
      case Advance(_, catalog) =>
        if p.Loaded? && BeginAdvance(s, catalog).Ok? {
          AdvanceWindsDown(s, catalog);
        }
      case Resume(_, granted) =>
        if p.Loaded? && ResumeEpisode(s, granted).Ok? {
          ResumeKeeps(s, granted);
          ResumeCommitsOnly(s, granted);
        }
      case Cancel(_) =>
        OperatorWindsDown(s);
        CancelKeeps(s);
      case ResumeSuspended(_) =>
        OperatorWindsDown(s);
        ReconciliationKeeps(s);
      case CommitModel(_) =>
        if p.ModelAnswered? {
          PendingFacts(s);
        }
      case CommitTool(_) =>
        if p.ToolAnswered? && p.index < |s.operations| && AfterTool(s, p.index, p.toolOutcome).Ok? {
          ToolAnswerWindsDown(s, p.index, p.toolOutcome);
        }
      case _ =>
    }
  }

  /** Once cancellation is requested, over every continuation: no attempt is prepared or dispatched,
      no turn is recorded, the request is never withdrawn, and the only terminal state is Cancelled. */
  lemma {:induction false} CancellationIsFinal(w: World, actions: seq<Action>)
    requires WorldInv(w) && w.current.state.cancelRequested
    ensures var t := Run(w, actions).current.state;
            && WindsDown(w.current.state, t)
            && (forall i :: 0 <= i < |t.attempts| ==> !t.attempts[i].status.Dispatching?)
    decreases |actions|
  {
    hide StateInv, HoldersOk, PermitsOk, LogOk, Next;
    CancelledFacts(w.current.state);
    if actions != [] {
      NextWindsDown(w, actions[0]);
      NextKeeps(w, actions[0]);
      CancellationIsFinal(Next(w, actions[0]), actions[1..]);
    }
  }

  // ----- When the rest of the turn is withdrawn

  /** Cancelled without a tool in doubt, or with nothing left that was only requested. */
  ghost predicate Withdrawn(s: EpisodeState) {
    || s.status.CancellationPending? || s.status.Cancelled?
    || forall j :: 0 <= j < |s.operations| ==> !s.operations[j].status.Requested?
  }

  ghost predicate StillRequested(s: EpisodeState, t: EpisodeState) {
    forall j :: 0 <= j < |s.operations| && s.operations[j].status.Requested? ==>
      j < |t.operations| && t.operations[j].status.Requested?
  }

  /** A cancelled episode without a tool in doubt only moves to Cancelled. */
  ghost predicate Over(s: EpisodeState, step: Fallible<Step>) {
    step.Ok? && !step.value.Rest? ==>
      && step.value.Commit? && step.value.state.operations == s.operations
      && (step.value.state.status.CancellationPending? || step.value.state.status.Cancelled?)
  }

  lemma OverFacts(s: EpisodeState, catalog: Catalog, granted: Allowance)
    requires StateInv(s) && (s.status.CancellationPending? || s.status.Cancelled?)
    ensures Over(s, BeginAdvance(s, catalog)) && Over(s, ResumeEpisode(s, granted))
    ensures Over(s, CancelEpisode(s)) && Over(s, ResumeReconciliation(s))
  {
    hide StateInv;
    NeverSuspensionRequested(s);
    DoubtFacts(s);
    assert FirstDispatching(s.operations) == |s.operations|;
  }

  lemma NextOver(w: World, a: Action)
    requires WorldInv(w) && (w.current.state.status.CancellationPending? || w.current.state.status.Cancelled?)
    ensures var s, t := w.current.state, Next(w, a).current.state;
            && t.operations == s.operations
            && (t.status.CancellationPending? || t.status.Cancelled?)
  {
    hide StateInv, Evolves, PermitsOk, LogOk,
      BeginAdvance, ResumeEpisode, CancelEpisode, ResumeReconciliation, AfterModel, AfterTool;
    var p := PhaseOf(w, a.runner);
    assert PhaseOk(w.current, p);
    if !p.Idle? && p.held.revision == w.current.revision {
      var s := w.current.state;
      match a
      case Advance(_, catalog) => OverFacts(s, catalog, s.policy.allowance);
      case Resume(_, granted) => OverFacts(s, Catalog(map[], map[]), granted);
      case Cancel(_) => OverFacts(s, Catalog(map[], map[]), s.policy.allowance);
      case ResumeSuspended(_) => OverFacts(s, Catalog(map[], map[]), s.policy.allowance);
      case _ =>
    }
  }

  lemma NextWithdrawn(w: World, a: Action)
    requires WorldInv(w) && w.current.state.cancelRequested && Withdrawn(w.current.state)
    ensures Withdrawn(Next(w, a).current.state) && StillRequested(w.current.state, Next(w, a).current.state)
  {
    hide HoldersOk, PermitsOk, LogOk, Next;
    var s, t := w.current.state, Next(w, a).current.state;
    if s.status.CancellationPending? || s.status.Cancelled? {
      NextOver(w, a);
    } else {
      NextWindsDown(w, a);
      NextEvolves(w, a);
      StaysUnrequested(s, t);
    }
  }

  lemma StaysUnrequested(s: EpisodeState, t: EpisodeState)
    requires StateInv(s) && Evolves(s, t) && |t.operations| == |s.operations|
    requires forall j :: 0 <= j < |s.operations| ==> !s.operations[j].status.Requested?
    ensures forall j :: 0 <= j < |t.operations| ==> !t.operations[j].status.Requested?
  {
    hide AttemptsOk, TurnsOk, LayoutOk, FlagsOk, SpendingOk, CountersOk;
    forall j | 0 <= j < |t.operations| ensures !t.operations[j].status.Requested? {
      assert OperationOk(s, s.operations[j]) && OperationEvolves(s.operations[j], t.operations[j]);
    }
  }

  lemma {:induction false} RunWithdrawn(w: World, actions: seq<Action>)
    requires WorldInv(w) && w.current.state.cancelRequested && Withdrawn(w.current.state)
    ensures Withdrawn(Run(w, actions).current.state) && StillRequested(w.current.state, Run(w, actions).current.state)
    decreases |actions|
  {
    hide WorldInv, Next, Withdrawn, WindsDown;
    if actions != [] {
      var v := Next(w, actions[0]);
      NextWithdrawn(w, actions[0]);
      NextWindsDown(w, actions[0]);
      WindsDownRequests(w.current.state, v.current.state);
      NextKeeps(w, actions[0]);
      RunWithdrawn(v, actions[1..]);
    }
  }

  lemma WindsDownRequests(s: EpisodeState, t: EpisodeState)
    requires WindsDown(s, t)
    ensures t.cancelRequested
  {
  }

  // ----- What may still be called

  /** This call was dispatched when the episode looked like this, or it is for an operation that was
      requested and not withdrawn. */
  ghost predicate Foreseen(s: EpisodeState, c: Call) {
    if c.Invoke? then CallOk(s, c)
    else exists j :: 0 <= j < |s.operations| && InvocationOf(s.operations[j]) == c.invocation
           && (Dispatched(s.operations[j].status) || (s.operations[j].status.Requested? && !Withdrawn(s)))
  }

  lemma ToolCallIsForeseen(s: EpisodeState, t: EpisodeState, c: Call)
    requires StateInv(s) && Evolves(s, t) && |t.operations| == |s.operations|
    requires Withdrawn(s) ==> StillRequested(s, t)
    requires !c.Invoke? && CallOk(t, c)
    ensures Foreseen(s, c)
  {
    hide AttemptsOk, TurnsOk, LayoutOk, FlagsOk, SpendingOk, CountersOk, Withdrawn;
    var j :| 0 <= j < |t.operations| && InvocationOf(t.operations[j]) == c.invocation
             && Dispatched(t.operations[j].status);
    assert OperationOk(s, s.operations[j]) && OperationEvolves(s.operations[j], t.operations[j]);
    assert InvocationOf(s.operations[j]) == c.invocation;
  }

  /** Over every continuation of a cancelled episode, the log only ever holds calls that were foreseen:
      a model attempt that was dispatched before the cancellation, and operations that were dispatched
      before it or that it did not withdraw. */
  lemma CallsAreForeseen(w: World, actions: seq<Action>)
    requires WorldInv(w) && w.current.state.cancelRequested
    ensures var calls := Run(w, actions).calls;
            forall i :: 0 <= i < |calls| ==> Foreseen(w.current.state, calls[i])
  {
    hide StateInv, HoldersOk, PermitsOk, Evolves, Run, Withdrawn, StillRequested, Foreseen;
    var s, v := w.current.state, Run(w, actions);
    CancellationIsFinal(w, actions);
    RunKeeps(w, actions);
    RunEvolves(w, actions);
    if Withdrawn(s) {
      RunWithdrawn(w, actions);
    }
    forall i | 0 <= i < |v.calls| ensures Foreseen(s, v.calls[i]) {
      assert CallOk(v.current.state, v.calls[i]);
      if v.calls[i].Invoke? {
        InvokeIsForeseen(s, v.current.state, v.calls[i]);
      } else {
        ToolCallIsForeseen(s, v.current.state, v.calls[i]);
      }
    }
  }

  lemma InvokeIsForeseen(s: EpisodeState, t: EpisodeState, c: Call)
    requires t.attempts == s.attempts && c.Invoke? && CallOk(t, c)
    ensures Foreseen(s, c)
  {
  }

  // ----- When it is not withdrawn

  /** Some operation that was only requested has been dispatched. */
  ghost predicate DispatchedAfter(s: EpisodeState, t: EpisodeState) {
    exists j :: 0 <= j < |s.operations| && j < |t.operations|
      && s.operations[j].status.Requested? && Dispatched(t.operations[j].status)
  }

  const ANSWER: ToolOutcome := Completed(ToolStatus.Succeeded, Issued(0), [], false)

  /** A cancelled turn with something requested is being worked on, or suspended on its tool in flight. */
  lemma RequestedFacts(s: EpisodeState)
    requires StateInv(s) && !Withdrawn(s)
    ensures s.status.ToolWorkPending? || s.status.Suspended?
    ensures var first := FirstUnfinished(s.operations);
            && first < |s.operations|
            && (s.operations[first].status.Requested? || s.operations[first].status.InFlight())
            && (s.operations[first].status.InFlight() ==>
                  exists j :: first < j < |s.operations| && s.operations[j].status.Requested?)
  {
    hide AttemptsOk, TurnsOk, LayoutOk, SpendingOk, CountersOk;
    var j :| 0 <= j < |s.operations| && s.operations[j].status.Requested?;
    assert OperationOk(s, s.operations[j]);
    var first := FirstUnfinished(s.operations);
    assert OperationOk(s, s.operations[first]);
  }

  /** Nothing that was only requested has moved. */
  ghost predicate KeepsRequests(s: EpisodeState, t: EpisodeState) {
    && StateInv(t) && t.status.ToolWorkPending? && |t.operations| == |s.operations|
    && forall j :: 0 <= j < |s.operations| ==>
         (s.operations[j].status.Requested? <==> t.operations[j].status.Requested?)
  }

  lemma Reconsidered(v: Versioned) returns (session: Session)
    requires StateInv(v.state) && !Withdrawn(v.state)
    ensures Happens(v, session) && KeepsRequests(v.state, session.after.state)
  {
    hide StateInv, Withdrawn, Run, Evolves;
    RequestedFacts(v.state);
    if v.state.status.Suspended? {
      var t := v.state.(status := EpisodeStatus.ToolWorkPending);
      session := Session([Load(SOLO), ResumeSuspended(SOLO)], [], Versioned(v.revision + 1, t));
      ReconciliationKeeps(v.state);
      CommandRun(v, ResumeSuspended(SOLO));
    } else {
      session := Session([], [], v);
      NothingRuns(Solo(v));
    }
  }

  /** Settles the operation in flight, if there is one; then the first unfinished one is only requested. */
  lemma SettledFirst(v: Versioned, catalog: Catalog) returns (session: Session)
    requires StateInv(v.state) && v.state.status.ToolWorkPending? && !Withdrawn(v.state)
    ensures Happens(v, session) && KeepsRequests(v.state, session.after.state)
    ensures var t := session.after.state;
            var first := FirstUnfinished(t.operations);
            first < |t.operations| && t.operations[first].status.Requested?
  {
    hide StateInv, Withdrawn, Run, Evolves, BeginAdvance, AfterTool, BeginTool;
    var s := v.state;
    RequestedFacts(s);
    var first := FirstUnfinished(s.operations);
    if s.operations[first].status.Requested? {
      session := Session([], [], v);
      NothingRuns(Solo(v));
      KeptByItself(s);
    } else {
      var asked := AsksAbout(s, catalog);
      HeldFacts(asked.state, asked.index, asked.invocation, asked.reconciling);
      AfterToolKeeps(asked.state, asked.index, asked.invocation, asked.reconciling, ANSWER);
      AfterToolValue(asked.state, asked.index, ANSWER);
      ToolRun(v, catalog, ANSWER, CommitTool(SOLO));
      var t := AfterTool(asked.state, asked.index, ANSWER).value.state;
      session := Session([Load(SOLO), Advance(SOLO, catalog), CallTool(SOLO, ANSWER), CommitTool(SOLO)],
                         Run(Solo(v), [Load(SOLO), Advance(SOLO, catalog), CallTool(SOLO, ANSWER), CommitTool(SOLO)]).calls,
                         Versioned(v.revision + 2, t));
      NextIsRequested(s, t, first);
    }
  }

  lemma KeptByItself(s: EpisodeState)
    requires StateInv(s) && s.status.ToolWorkPending?
    ensures KeepsRequests(s, s)
  {
  }

  /** What the runner asks about the first unfinished operation. */
  lemma AsksAbout(s: EpisodeState, catalog: Catalog) returns (asked: Step)
    requires StateInv(s) && s.status.ToolWorkPending? && FirstUnfinished(s.operations) < |s.operations|
    ensures BeginAdvance(s, catalog) == Ok(asked) && asked.AskTool?
    ensures ToolHeld(asked.state, asked.index, asked.invocation, asked.reconciling)
    ensures asked.index == FirstUnfinished(s.operations) && asked.state.status == s.status
    ensures asked.index < |asked.state.operations|
    ensures asked.state.operations == s.operations[asked.index := asked.state.operations[asked.index]]
    ensures s.operations[asked.index].status.Requested? ==> asked.state.operations[asked.index].status.Dispatching?
  {
    hide StateInv, Evolves, DispatchRecord;
    BeginToolKeeps(s);
    WorkFacts(s);
    assert OperationOk(s, s.operations[FirstUnfinished(s.operations)]);
    DispatchRecordMoves(s.operations[FirstUnfinished(s.operations)]);
    asked := BeginTool(s).value;
  }

  lemma NextIsRequested(s: EpisodeState, t: EpisodeState, first: nat)
    requires StateInv(s) && StateInv(t) && t.status.ToolWorkPending? && first == FirstUnfinished(s.operations)
    requires first < |s.operations| == |t.operations| && !s.operations[first].status.Requested?
    requires t.operations[first].status.IsTerminal() && t.operations == s.operations[first := t.operations[first]]
    requires exists j :: first < j < |s.operations| && s.operations[j].status.Requested?
    ensures KeepsRequests(s, t)
    ensures var next := FirstUnfinished(t.operations);
            next < |t.operations| && t.operations[next].status.Requested?
  {
    hide AttemptsOk, TurnsOk, LayoutOk, FlagsOk, SpendingOk, CountersOk;
    var j :| first < j < |s.operations| && s.operations[j].status.Requested?;
    assert t.operations[j] == s.operations[j];
    var next := FirstUnfinished(t.operations);
    assert forall k :: 0 <= k < first ==> t.operations[k] == s.operations[k];
    assert first < next <= j;
    assert t.operations[next] == s.operations[next];
  }

  lemma RequestedIsDispatched(v: Versioned, catalog: Catalog) returns (session: Session)
    requires StateInv(v.state) && v.state.status.ToolWorkPending?
    requires FirstUnfinished(v.state.operations) < |v.state.operations|
    requires v.state.operations[FirstUnfinished(v.state.operations)].status.Requested?
    ensures Happens(v, session)
    ensures var first := FirstUnfinished(v.state.operations);
            first < |session.after.state.operations|
            && session.after.state.operations[first].status.Dispatching?
  {
    hide StateInv, Run, Evolves, BeginAdvance;
    var asked := AsksAbout(v.state, catalog);
    DispatchRun(v, catalog);
    session := Session([Load(SOLO), Advance(SOLO, catalog), Crash(SOLO)], [], Versioned(v.revision + 1, asked.state));
  }

  /** A runner that goes on after a cancellation dispatches something that was only requested. */
  lemma GoesOn(w: World, catalog: Catalog) returns (actions: seq<Action>)
    requires WorldInv(w) && w.current.state.cancelRequested && !Withdrawn(w.current.state)
    ensures DispatchedAfter(w.current.state, Run(w, actions).current.state)
  {
    hide StateInv, HoldersOk, PermitsOk, LogOk, Run, Withdrawn, Happens;
    var s := w.current.state;
    var reconsidered := Reconsidered(w.current);
    StillOpen(s, reconsidered.after.state);
    var settled := SettledFirst(reconsidered.after, catalog);
    var dispatched := RequestedIsDispatched(settled.after, catalog);
    var sessions := [reconsidered, settled, dispatched];
    assert sessions[1..] == [settled, dispatched] && sessions[1..][1..] == [dispatched];
    assert Chained(settled.after, [dispatched]);
    assert Chained(reconsidered.after, [settled, dispatched]);
    var idle := Next(w, Crash(SOLO));
    SessionsCompose(idle, sessions);
    actions := [Crash(SOLO)] + AllActions(sessions);
    RunOne(w, Crash(SOLO));
    RunAppend(w, [Crash(SOLO)], AllActions(sessions));
  }

  lemma StillOpen(s: EpisodeState, t: EpisodeState)
    requires !Withdrawn(s) && KeepsRequests(s, t)
    ensures !Withdrawn(t)
  {
    hide StateInv;
  }

  /** Once cancellation is requested, the rest of the turn is withdrawn exactly when no tool was in
      doubt or nothing was left that was only requested: otherwise some continuation dispatches it. */
  lemma RestOfTurnWithdrawnExactly(w: World)
    requires WorldInv(w) && w.current.state.cancelRequested
    ensures Withdrawn(w.current.state) <==>
              forall actions: seq<Action> :: !DispatchedAfter(w.current.state, Run(w, actions).current.state)
  {
    hide WorldInv, Withdrawn, Run;
    var s := w.current.state;
    if Withdrawn(s) {
      forall actions: seq<Action> ensures !DispatchedAfter(s, Run(w, actions).current.state) {
        RunWithdrawn(w, actions);
      }
    } else {
      var actions := GoesOn(w, Catalog(map[], map[]));
    }
  }
}

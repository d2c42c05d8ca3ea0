/** Runs of one small episode, from its creation, in which a promise is not kept. */
module EpisodeExamples {
  import opened Outcomes
  import opened Texts
  import opened EpisodeRecords
  import opened EpisodeReducer
  import opened EpisodeInvariant
  import opened EpisodeSegments
  import opened EpisodeAnswers
  import opened EpisodeWorld
  import opened EpisodeTheorems
  import opened EpisodeSolo
  import opened EpisodeBinding
  import opened EpisodeCancellation

  const INPUT: Digest := Issued(1)
  const CONTINUATION: Digest := Issued(2)
  const EXCHANGE: Digest := Issued(3)

  const FIRST: ToolCall := ToolCall("1", "t", [])
  const SECOND: ToolCall := ToolCall("2", "t", [])

  const TOOLS: Catalog := Catalog(map["t" := Descriptor("1", Observed)], map[])

  function Rules4(): Rules {
    Rules(4, 1, 0)
  }

  function Small(operations: U32): Policy
    requires operations > 0
  {
    Policy(Rules4(), Allowance(3, 3, operations))
  }

  function Fresh(operations: U32): EpisodeState
    requires operations > 0
  {
    EpisodeState("e", EpisodeStatus.Created, Small(operations), INPUT, INPUT, [], [], [], 0, 0, false, false, [])
  }

  function Attempt(number: nat, request: Digest, status: AttemptStatus): ModelAttempt {
    ModelAttempt(number, request, None, None, status, None, None, None)
  }

  const ANSWERED: ModelAttempt :=
    ModelAttempt(1, INPUT, None, None, AttemptStatus.Decoded, Some(EXCHANGE), Some(CONTINUATION), None)

  /** The first turn, with these calls. */
  function Asked(calls: seq<ToolCall>): Turn {
    Turn(1, 1, CONTINUATION, ["said"], calls)
  }

  function Recorded(operations: U32, calls: seq<ToolCall>): EpisodeState
    requires operations > 0
  {
    Fresh(operations).(status := EpisodeStatus.TurnRecorded, attempts := [ANSWERED], turns := [Asked(calls)])
  }

  function Answer(calls: seq<ToolCall>): ModelOutcome {
    TurnAnswer(CONTINUATION, EXCHANGE, ["said"], calls)
  }

  lemma FreshIsInitial(operations: U32)
    requires operations > 0
    ensures InitialState("e", Small(operations), INPUT) == Ok(Fresh(operations))
  {
  }

  /** One call that commits without asking anybody. */
  lemma Committed(v: Versioned, a: Action, t: EpisodeState, report: Report) returns (session: Session)
    requires a.runner == SOLO && StepOf(v.state, a) == Some(Ok(Commit(t, report)))
    ensures Happens(v, session) && session.after == Versioned(v.revision + 1, t)
    ensures session.actions == [Load(SOLO), a]
  {
    hide Run, StepOf;
    CommandRun(v, a);
    session := Session([Load(SOLO), a], [], Versioned(v.revision + 1, t));
  }

  /** One call that asks the model and commits its answer. */
  lemma Modelled(v: Versioned, t: EpisodeState, request: ModelRequest, outcome: ModelOutcome, u: EpisodeState,
                 report: Report) returns (session: Session)
    requires BeginAdvance(v.state, TOOLS) == Ok(AskModel(t, request)) && AfterModel(t, outcome) == Ok(Commit(u, report))
    ensures Happens(v, session) && session.after == Versioned(v.revision + 2, u)
    ensures session.actions == [Load(SOLO), Advance(SOLO, TOOLS), CallModel(SOLO, outcome), CommitModel(SOLO)]
  {
    hide Run, BeginAdvance, AfterModel;
    ModelRun(v, TOOLS, outcome, CommitModel(SOLO));
    session := Session([Load(SOLO), Advance(SOLO, TOOLS), CallModel(SOLO, outcome), CommitModel(SOLO)],
                       [Invoke(request)], Versioned(v.revision + 2, u));
  }

  /** Sessions, extended by one. */
  lemma {:induction false} ChainGrows(v: Versioned, sessions: seq<Session>, last: Session)
    requires Chained(v, sessions) && Happens(Final(v, sessions), last)
    ensures Chained(v, sessions + [last]) && Final(v, sessions + [last]) == last.after
    decreases |sessions|
  {
    hide Happens;
    if sessions == [] {
      assert [] + [last] == [last] && [last][1..] == [];
    } else {
      ChainGrows(sessions[0].after, sessions[1..], last);
      assert (sessions + [last])[1..] == sessions[1..] + [last];
    }
  }

  /** No tool is called. */
  predicate Quiet(sessions: seq<Session>) {
    forall i :: 0 <= i < |sessions| ==> QuietActions(sessions[i].actions)
  }

  predicate QuietActions(actions: seq<Action>) {
    forall i :: 0 <= i < |actions| ==> !actions[i].CallTool?
  }

  lemma {:induction false} QuietThroughout(sessions: seq<Session>)
    requires Quiet(sessions)
    ensures QuietActions(AllActions(sessions))
    decreases |sessions|
  {
    if sessions != [] {
      QuietThroughout(sessions[1..]);
      assert QuietActions(sessions[0].actions);
    }
  }

  function Ready(s: EpisodeState): EpisodeState {
    s.(status := EpisodeStatus.ReadyForModel)
  }

  function PendingFirst(s: EpisodeState, status: AttemptStatus): EpisodeState {
    s.(status := EpisodeStatus.ModelAttemptPending, attempts := [Attempt(1, INPUT, status)])
  }

  /** Every run below starts by recording the first turn. */
  lemma TurnIsRecorded(operations: U32, calls: seq<ToolCall>) returns (sessions: seq<Session>)
    requires operations > 0 && |calls| <= 2
    ensures Chained(Versioned(0, Fresh(operations)), sessions) && Quiet(sessions)
    ensures Final(Versioned(0, Fresh(operations)), sessions).state == Recorded(operations, calls)
  {
    hide Happens, Chained, Final;
    var s := Fresh(operations);
    var v := Versioned(0, s);
    FirstSteps(operations, calls);
    var a := Committed(v, Advance(SOLO, TOOLS), Ready(s), Progressed(EpisodeStatus.ReadyForModel));
    var b := Committed(a.after, Advance(SOLO, TOOLS), PendingFirst(s, AttemptStatus.Prepared),
                       Progressed(EpisodeStatus.ModelAttemptPending));
    var c := Modelled(b.after, PendingFirst(s, AttemptStatus.Dispatching), ModelRequest(1, 1, INPUT), Answer(calls),
                      Recorded(operations, calls), Progressed(EpisodeStatus.TurnRecorded));
    NoSessions(v);
    ChainGrows(v, [], a);
    ChainGrows(v, [] + [a], b);
    ChainGrows(v, [] + [a] + [b], c);
    sessions := [] + [a] + [b] + [c];
  }

  lemma NoSessions(v: Versioned)
    ensures Chained(v, []) && Final(v, []) == v
  {
  }

  lemma FirstSteps(operations: U32, calls: seq<ToolCall>)
    requires operations > 0 && |calls| <= 2
    ensures var s := Fresh(operations);
            && BeginAdvance(s, TOOLS) == Ok(Commit(Ready(s), Progressed(EpisodeStatus.ReadyForModel)))
            && BeginAdvance(Ready(s), TOOLS)
               == Ok(Commit(PendingFirst(s, AttemptStatus.Prepared), Progressed(EpisodeStatus.ModelAttemptPending)))
            && BeginAdvance(PendingFirst(s, AttemptStatus.Prepared), TOOLS)
               == Ok(AskModel(PendingFirst(s, AttemptStatus.Dispatching), ModelRequest(1, 1, INPUT)))
            && AfterModel(PendingFirst(s, AttemptStatus.Dispatching), Answer(calls))
               == Ok(Commit(Recorded(operations, calls), Progressed(EpisodeStatus.TurnRecorded)))
  {
    var s := Fresh(operations);
    assert [] + [NewAttempt(Ready(s))] == [Attempt(1, INPUT, AttemptStatus.Prepared)];
    assert s.turns + [Asked(calls)] == [Asked(calls)];
    var prepared, dispatching := PendingFirst(s, AttemptStatus.Prepared), PendingFirst(s, AttemptStatus.Dispatching);
    assert prepared.attempts[0 := dispatching.attempts[0]] == dispatching.attempts;
    assert dispatching.attempts[0 := ANSWERED] == [ANSWERED];
  }

  /** A chain of calls from the creation is a run of the world. */
  lemma ChainRuns(operations: U32, sessions: seq<Session>)
    requires operations > 0 && Chained(Versioned(0, Fresh(operations)), sessions)
    ensures var w := Run(Start(Fresh(operations)), AllActions(sessions));
            && w.current == Final(Versioned(0, Fresh(operations)), sessions)
            && PhaseOf(w, SOLO).Idle? && forall r :: r != SOLO ==> PhaseOf(w, r).Idle?
    ensures WorldInv(Run(Start(Fresh(operations)), AllActions(sessions)))
  {
    hide Run, Chained, WorldInv;
    FreshIsInitial(operations);
    SessionsCompose(Start(Fresh(operations)), sessions);
    ReachableInv("e", Small(operations), INPUT, AllActions(sessions));
  }

  // ----- A stale input

  const GRANT: Allowance := Allowance(3, 3, 4)

  /** The episode that stopped here, reopened, and about to ask again. */
  function AskedAgain(s: EpisodeState): EpisodeState {
    var reopened := Reopened(s, GRANT);
    reopened.(attempts := reopened.attempts + [NewAttempt(reopened)], status := EpisodeStatus.ModelAttemptPending)
  }

  lemma LabelsAreFilled()
    ensures !Blank("1") && !Blank("2") && !Blank("t")
  {
    assert "1"[0] == '1' && "2"[0] == '2' && "t"[0] == 't';
  }

  lemma CallsAreValid(calls: seq<ToolCall>)
    requires calls == [] || calls == [FIRST, SECOND]
    ensures ValidTurn(["said"], calls)
  {
    LabelsAreFilled();
  }

  lemma ReopensAndAsks(operations: U32, calls: seq<ToolCall>, stopped: EpisodeState)
    requires operations > 0 && (calls == [] || calls == [FIRST, SECOND])
    requires stopped == Recorded(operations, calls).(status := stopped.status)
    requires stopped.status.Incomplete? || stopped.status.BudgetExhausted?
    ensures ResumeEpisode(stopped, GRANT) == Ok(Commit(Reopened(stopped, GRANT), Progressed(stopped.status)))
    ensures BeginAdvance(Reopened(stopped, GRANT), TOOLS)
            == Ok(Commit(AskedAgain(stopped), Progressed(EpisodeStatus.ModelAttemptPending)))
    ensures AskedAgain(stopped).attempts[1].request == INPUT && !BoundHistory(AskedAgain(stopped))
  {
    CallsAreValid(calls);
    assert !(exists i :: 0 <= i < |stopped.turns| && !ValidTurn(stopped.turns[i].narrative, stopped.turns[i].calls));
    var t := AskedAgain(stopped);
    assert TurnsBefore(t.turns, 2) == 1;
    assert t.attempts[1].request != Binding(t, 1);
  }

  /** Reopening after either stop prepares the attempt again that had already been answered. */
  lemma AsksAgain(operations: U32, calls: seq<ToolCall>, sessions: seq<Session>, stopped: EpisodeState)
    returns (actions: seq<Action>)
    requires operations > 0 && (calls == [] || calls == [FIRST, SECOND])
    requires Chained(Versioned(0, Fresh(operations)), sessions)
    requires Final(Versioned(0, Fresh(operations)), sessions).state == stopped
    requires stopped == Recorded(operations, calls).(status := stopped.status)
    requires stopped.status.Incomplete? || stopped.status.BudgetExhausted?
    ensures Run(Start(Fresh(operations)), actions).current.state == AskedAgain(stopped)
    ensures AskedAgain(stopped).attempts[1].request == AskedAgain(stopped).attempts[0].request
    ensures !BoundHistory(AskedAgain(stopped))
  {
    hide Run, Happens, Chained, Final, AskedAgain, BoundHistory, ResumeEpisode, BeginAdvance;
    var v := Versioned(0, Fresh(operations));
    ReopensAndAsks(operations, calls, stopped);
    FirstRequest(stopped, operations, calls);
    var a := Committed(Final(v, sessions), Action.Resume(SOLO, GRANT), Reopened(stopped, GRANT), Progressed(stopped.status));
    ChainGrows(v, sessions, a);
    var b := Committed(a.after, Advance(SOLO, TOOLS), AskedAgain(stopped), Progressed(EpisodeStatus.ModelAttemptPending));
    ChainGrows(v, sessions + [a], b);
    ChainRuns(operations, sessions + [a] + [b]);
    actions := AllActions(sessions + [a] + [b]);
  }

  lemma FirstRequest(stopped: EpisodeState, operations: U32, calls: seq<ToolCall>)
    requires operations > 0 && stopped == Recorded(operations, calls).(status := stopped.status)
    ensures |AskedAgain(stopped).attempts| == 2 && AskedAgain(stopped).attempts[0].request == INPUT
  {
  }

  /** A turn without calls ends the episode as Incomplete; reopened, it asks the first question again. */
  lemma IncompleteAsksAgain() returns (actions: seq<Action>)
    ensures InitialState("e", Small(1), INPUT).Ok?
    ensures var s := Run(Start(InitialState("e", Small(1), INPUT).value), actions).current.state;
            && s.grants != [] && s.grants[0].resumedFrom.Incomplete?
            && |s.attempts| == 2 && s.attempts[1].request == s.attempts[0].request && !BoundHistory(s)
  {
    hide Run, Happens, Chained, Final, BoundHistory;
    FreshIsInitial(1);
    var v := Versioned(0, Fresh(1));
    var sessions := TurnIsRecorded(1, []);
    var s := Recorded(1, []);
    var a := Committed(Final(v, sessions), Advance(SOLO, TOOLS), s.(status := EpisodeStatus.StopReview),
                       Progressed(EpisodeStatus.StopReview));
    ChainGrows(v, sessions, a);
    var stopped := s.(status := EpisodeStatus.Incomplete);
    var b := Committed(a.after, Advance(SOLO, TOOLS), stopped, Terminal(EpisodeStatus.Incomplete));
    ChainGrows(v, sessions + [a], b);
    actions := AsksAgain(1, [], sessions + [a] + [b], stopped);
  }

  /** Two calls do not fit into one operation; reopened, the episode asks the first question again. */
  lemma RefusedTurnAsksAgain() returns (actions: seq<Action>)
    ensures InitialState("e", Small(1), INPUT).Ok?
    ensures var s := Run(Start(InitialState("e", Small(1), INPUT).value), actions).current.state;
            && s.grants != [] && s.grants[0].resumedFrom.BudgetExhausted?
            && |s.attempts| == 2 && s.attempts[1].request == s.attempts[0].request && !BoundHistory(s)
  {
    hide Run, Happens, Chained, Final, BoundHistory;
    FreshIsInitial(1);
    var v := Versioned(0, Fresh(1));
    var sessions := TurnIsRecorded(1, [FIRST, SECOND]);
    var stopped := Recorded(1, [FIRST, SECOND]).(status := EpisodeStatus.BudgetExhausted);
    var a := Committed(Final(v, sessions), Advance(SOLO, TOOLS), stopped, Terminal(EpisodeStatus.BudgetExhausted));
    ChainGrows(v, sessions, a);
    actions := AsksAgain(1, [FIRST, SECOND], sessions + [a], stopped);
  }

  // ----- A stalled runner, and a cancelled turn

  /** The calls of the first turn, admitted. */
  function Admitted(calls: seq<ToolCall>): EpisodeState {
    Recorded(4, calls).(status := EpisodeStatus.ToolWorkPending,
                        operations := PlannedOperations(Asked(calls), INPUT, TOOLS))
  }

  lemma CallsAreAdmitted(calls: seq<ToolCall>)
    requires calls == [FIRST] || calls == [FIRST, SECOND]
    ensures BeginAdvance(Recorded(4, calls), TOOLS)
            == Ok(Commit(Admitted(calls), Progressed(EpisodeStatus.ToolWorkPending)))
    ensures forall i :: 0 <= i < |calls| ==> Admitted(calls).operations[i].status.Requested?
  {
    LabelsAreFilled();
    assert [] + PlannedOperations(Asked(calls), INPUT, TOOLS) == PlannedOperations(Asked(calls), INPUT, TOOLS);
  }

  lemma WorkIsAdmitted(calls: seq<ToolCall>) returns (sessions: seq<Session>)
    requires calls == [FIRST] || calls == [FIRST, SECOND]
    ensures Chained(Versioned(0, Fresh(4)), sessions)
    ensures Final(Versioned(0, Fresh(4)), sessions).state == Admitted(calls)
  {
    hide Happens, Chained, Final, BeginAdvance;
    var v := Versioned(0, Fresh(4));
    var recorded := TurnIsRecorded(4, calls);
    CallsAreAdmitted(calls);
    var a := Committed(Final(v, recorded), Advance(SOLO, TOOLS), Admitted(calls), Progressed(EpisodeStatus.ToolWorkPending));
    ChainGrows(v, recorded, a);
    sessions := recorded + [a];
  }

  function Dispatched1(calls: seq<ToolCall>): EpisodeState
    requires calls != []
  {
    var s := Admitted(calls);
    s.(operations := s.operations[0 := s.operations[0].(status := ToolStatus.Dispatching)])
  }

  lemma FirstIsDispatched(calls: seq<ToolCall>)
    requires calls == [FIRST] || calls == [FIRST, SECOND]
    ensures var o := Admitted(calls).operations[0];
            BeginAdvance(Admitted(calls), TOOLS)
            == Ok(AskTool(Dispatched1(calls), 0, ToolInvocation(o.id, o.call, INPUT), false))
  {
    AdmittedFacts(calls);
    RequestedDispatches(Admitted(calls), TOOLS);
  }

  lemma AdmittedFacts(calls: seq<ToolCall>)
    requires calls == [FIRST] || calls == [FIRST, SECOND]
    ensures var s := Admitted(calls);
            && s.status.ToolWorkPending? && s.nextInput == INPUT && |s.operations| == |calls|
            && forall i :: 0 <= i < |calls| ==> s.operations[i].status.Requested?
  {
    CallsAreAdmitted(calls);
  }

  lemma RequestedDispatches(s: EpisodeState, catalog: Catalog)
    requires s.status.ToolWorkPending? && s.operations != [] && s.operations[0].status.Requested?
    ensures var o := s.operations[0];
            BeginAdvance(s, catalog)
            == Ok(AskTool(s.(operations := s.operations[0 := o.(status := ToolStatus.Dispatching)]), 0,
                          ToolInvocation(o.id, o.call, s.nextInput), false))
  {
    hide BeginAdvance, BeginTool;
    ToolAdvance(s, catalog);
    assert FirstUnfinished(s.operations) == 0;
  }

  /** Runner 0 dispatches and stalls; runner 1 reconciles; then runner 0 executes. */
  lemma ExecuteAfterReconcile() returns (actions: seq<Action>)
    ensures InitialState("e", Small(4), INPUT).Ok?
    ensures var calls := Run(Start(InitialState("e", Small(4), INPUT).value), actions).calls;
            exists i, j :: 0 <= i < j < |calls| && calls[i].Reconcile? && calls[j].Execute?
                           && calls[i].invocation == calls[j].invocation
  {
    hide Run, Happens, Chained, Final, BeginAdvance, WorldInv, Dispatched1;
    FreshIsInitial(4);
    var sessions := WorkIsAdmitted([FIRST]);
    ChainRuns(4, sessions);
    var start := Start(Fresh(4));
    var prefix := AllActions(sessions);
    var w := Run(start, prefix);
    FirstIsDispatched([FIRST]);
    StallsAfterDispatch(w);
    var stall := [Load(SOLO), Advance(SOLO, TOOLS)];
    RunAppend(start, prefix, stall);
    ReachableInv("e", Small(4), INPUT, prefix + stall);
    var stalled := Run(w, stall);
    var rest := [Load(1), Advance(1, TOOLS), CallTool(1, Pending(Issued(9))), CallTool(SOLO, Pending(Issued(9)))];
    StalledExecuteFollowsReconcile(stalled, SOLO, 1, TOOLS, Pending(Issued(9)), Pending(Issued(9)));
    RunAppend(start, prefix + stall, rest);
    actions := prefix + stall + rest;
    var n := |stalled.calls|;
    var calls := Run(start, actions).calls;
    assert calls[n].Reconcile? && calls[n + 1].Execute?;
  }

  lemma StallsAfterDispatch(w: World)
    requires w.current.state == Admitted([FIRST]) && PhaseOf(w, SOLO).Idle? && PhaseOf(w, 1).Idle?
    ensures var x := Run(w, [Load(SOLO), Advance(SOLO, TOOLS)]);
            && PhaseOf(x, SOLO).ToolReady? && !PhaseOf(x, SOLO).reconciling
            && PhaseOf(x, SOLO).held.revision == x.current.revision && PhaseOf(x, 1).Idle?
  {
    hide BeginAdvance, Admitted, Dispatched1;
    FirstIsDispatched([FIRST]);
    RunTwo(w, Load(SOLO), Advance(SOLO, TOOLS));
  }

  const DENIED: ToolOutcome := Completed(ToolStatus.Denied, Issued(9), [], false)

  /** A tool that answers `Denied`: the call was made, and its answer cannot be recorded. */
  lemma DeniedIsNotRecorded() returns (actions: seq<Action>)
    ensures InitialState("e", Small(4), INPUT).Ok?
    ensures var w := Run(Start(InitialState("e", Small(4), INPUT).value), actions);
            var p := PhaseOf(w, SOLO);
            && p.ToolAnswered? && p.toolOutcome == DENIED && p.held == w.current && Execute(p.invocation) in w.calls
            && p.index < |p.held.state.operations|
            && AfterTool(p.held.state, p.index, DENIED)
               == Err(InvalidToolTransition(ToolStatus.Dispatching, ToolStatus.Denied))
            && Next(w, CommitTool(SOLO)).current == w.current
  {
    hide Run, Happens, Chained, Final, BeginAdvance, WorldInv, Dispatched1, AfterTool;
    FreshIsInitial(4);
    var sessions := WorkIsAdmitted([FIRST]);
    ChainRuns(4, sessions);
    var start, prefix := Start(Fresh(4)), AllActions(sessions);
    var w := Run(start, prefix);
    FirstIsDispatched([FIRST]);
    DeniedIsRefused();
    var call := [Load(SOLO), Advance(SOLO, TOOLS), CallTool(SOLO, DENIED)];
    RunAppend(start, prefix, call);
    RunThree(w, Load(SOLO), Advance(SOLO, TOOLS), CallTool(SOLO, DENIED));
    actions := prefix + call;
    var answered := Run(w, call);
    assert answered.calls[|answered.calls| - 1] == Execute(PhaseOf(answered, SOLO).invocation);
  }

  lemma DeniedIsRefused()
    ensures |Dispatched1([FIRST]).operations| == 1
    ensures AfterTool(Dispatched1([FIRST]), 0, DENIED)
            == Err(InvalidToolTransition(ToolStatus.Dispatching, ToolStatus.Denied))
  {
    AdmittedFacts([FIRST]);
  }

  /** The first of two calls is in flight when the episode is cancelled; the second is still executed. */
  lemma CancelledTurnGoesOn() returns (cancelled: seq<Action>, more: seq<Action>)
    ensures InitialState("e", Small(4), INPUT).Ok?
    ensures var w := Run(Start(InitialState("e", Small(4), INPUT).value), cancelled);
            w.current.state.cancelRequested && DispatchedAfter(w.current.state, Run(w, more).current.state)
  {
    hide Run, Happens, Chained, Final, BeginAdvance, WorldInv, Dispatched1, CancelEpisode;
    FreshIsInitial(4);
    var v := Versioned(0, Fresh(4));
    var calls := [FIRST, SECOND];
    var sessions := WorkIsAdmitted(calls);
    FirstIsDispatched(calls);
    DispatchRun(Final(v, sessions), TOOLS);
    var dispatched := Versioned(Final(v, sessions).revision + 1, Dispatched1(calls));
    var a := Crashed(Final(v, sessions), dispatched);
    ChainGrows(v, sessions, a);
    var t := SecondStaysRequested();
    var b := Committed(a.after, Cancel(SOLO), t, Progressed(EpisodeStatus.Suspended));
    ChainGrows(v, sessions + [a], b);
    cancelled := AllActions(sessions + [a] + [b]);
    ChainRuns(4, sessions + [a] + [b]);
    more := GoesOn(Run(Start(Fresh(4)), cancelled), TOOLS);
  }

  lemma Crashed(v: Versioned, after: Versioned) returns (session: Session)
    requires var w := Run(Solo(v), [Load(SOLO), Advance(SOLO, TOOLS), Crash(SOLO)]);
             w.current == after && w.calls == [] && PhaseOf(w, SOLO).Idle?
    ensures Happens(v, session) && session.after == after
  {
    hide Run;
    session := Session([Load(SOLO), Advance(SOLO, TOOLS), Crash(SOLO)], [], after);
  }

  lemma SecondStaysRequested() returns (t: EpisodeState)
    ensures CancelEpisode(Dispatched1([FIRST, SECOND])) == Ok(Commit(t, Progressed(EpisodeStatus.Suspended)))
    ensures t.cancelRequested && !Withdrawn(t)
  {
    hide CancelEpisode, Admitted;
    var calls := [FIRST, SECOND];
    AdmittedFacts(calls);
    NothingInDoubt(calls);
    var s := Dispatched1(calls);
    assert s.operations[0].status.InFlight();
    CancelToolValue(s, 0);
    t := CancelEpisode(s).value.state;
    assert t.operations[1].status.Requested?;
  }

  lemma NothingInDoubt(calls: seq<ToolCall>)
    ensures !ModelInDoubt(Admitted(calls))
  {
  }

  // ----- A failure that the attempt before did not record

  const DIAGNOSTIC: Digest := Issued(4)

  function NotSent(diagnostic: Option<Digest>): ModelOutcome {
    ModelOutcome.ConfirmedNotSent(diagnostic, Immediate)
  }

  function Preparing(s: EpisodeState): EpisodeState {
    s.(attempts := s.attempts + [NewAttempt(s)], status := EpisodeStatus.ModelAttemptPending)
  }

  function Dispatching(s: EpisodeState): EpisodeState {
    s.(attempts := s.attempts + [NewAttempt(s).(status := AttemptStatus.Dispatching)],
       status := EpisodeStatus.ModelAttemptPending)
  }

  /** The next attempt closed without a response. */
  function Unsent(s: EpisodeState, diagnostic: Option<Digest>, status: EpisodeStatus): EpisodeState {
    var closed := NewAttempt(s).(status := AttemptStatus.ConfirmedNotSent, diagnostic := diagnostic);
    s.(attempts := s.attempts + [closed], status := status)
  }

  lemma UnsentSteps(s: EpisodeState, diagnostic: Option<Digest>)
    requires s.status.ReadyForModel? && !s.cancelRequested && s.turns == [] && |s.attempts| < 3
    requires s.policy == Small(1)
    ensures BeginAdvance(s, TOOLS) == Ok(Commit(Preparing(s), Progressed(EpisodeStatus.ModelAttemptPending)))
    ensures BeginAdvance(Preparing(s), TOOLS)
            == Ok(AskModel(Dispatching(s), ModelRequest(|s.attempts| + 1, 1, s.nextInput)))
    ensures AfterModel(Dispatching(s), NotSent(diagnostic)).Ok?
    ensures var repeated := RepeatsTheLastFailure(Dispatching(s), diagnostic);
            var status := if repeated then EpisodeStatus.Failed else EpisodeStatus.ReadyForModel;
            var step := AfterModel(Dispatching(s), NotSent(diagnostic)).value;
            step.Commit? && step.state == Unsent(s, diagnostic, status)
  {
    var prepared, dispatching := Preparing(s), Dispatching(s);
    var n := |s.attempts|;
    assert prepared.attempts[n := dispatching.attempts[n]] == dispatching.attempts;
    var closed := Unsent(s, diagnostic, s.status).attempts[n];
    assert dispatching.attempts[n := closed] == s.attempts + [closed];
  }

  /** Two calls: prepare an attempt, and learn that it was not sent. */
  lemma OneUnsent(sessions: seq<Session>, s: EpisodeState, diagnostic: Option<Digest>, status: EpisodeStatus)
    returns (more: seq<Session>)
    requires s.status.ReadyForModel? && !s.cancelRequested && s.turns == [] && |s.attempts| < 3
    requires s.policy == Small(1)
    requires status == if RepeatsTheLastFailure(Dispatching(s), diagnostic)
                       then EpisodeStatus.Failed else EpisodeStatus.ReadyForModel
    requires Chained(Versioned(0, Fresh(1)), sessions) && Final(Versioned(0, Fresh(1)), sessions).state == s
    ensures Chained(Versioned(0, Fresh(1)), more)
    ensures Final(Versioned(0, Fresh(1)), more).state == Unsent(s, diagnostic, status)
  {
    hide Happens, Chained, Final, BeginAdvance, AfterModel, Preparing, Dispatching, Unsent, RepeatsTheLastFailure;
    var v := Versioned(0, Fresh(1));
    UnsentSteps(s, diagnostic);
    var a := Committed(Final(v, sessions), Advance(SOLO, TOOLS), Preparing(s), Progressed(EpisodeStatus.ModelAttemptPending));
    ChainGrows(v, sessions, a);
    var b := Modelled(a.after, Dispatching(s), ModelRequest(|s.attempts| + 1, 1, s.nextInput), NotSent(diagnostic),
                      Unsent(s, diagnostic, status), AfterModel(Dispatching(s), NotSent(diagnostic)).value.committedReport);
    ChainGrows(v, sessions + [a], b);
    more := sessions + [a] + [b];
  }

  /** The first attempt records a diagnostic, the second records none, the third records the first's
      again. By the documentation the third repeats nothing; the episode fails. */
  lemma FailsWithoutARepeat() returns (actions: seq<Action>)
    ensures InitialState("e", Small(1), INPUT).Ok?
    ensures var s := Run(Start(InitialState("e", Small(1), INPUT).value), actions).current.state;
            && s.status.Failed? && |s.attempts| == 3
            && s.attempts[1].diagnostic.None? && s.attempts[2].diagnostic == Some(DIAGNOSTIC)
  {
    hide Run, Happens, Chained, Final, BeginAdvance, AfterModel;
    FreshIsInitial(1);
    var v := Versioned(0, Fresh(1));
    FirstSteps(1, []);
    var s0 := Ready(Fresh(1));
    var a := Committed(v, Advance(SOLO, TOOLS), s0, Progressed(EpisodeStatus.ReadyForModel));
    NoSessions(v);
    ChainGrows(v, [], a);
    var s1 := Unsent(s0, Some(DIAGNOSTIC), EpisodeStatus.ReadyForModel);
    var s2 := Unsent(s1, None, EpisodeStatus.ReadyForModel);
    Diagnostics(s0, s1, s2);
    var first := OneUnsent([] + [a], s0, Some(DIAGNOSTIC), EpisodeStatus.ReadyForModel);
    var second := OneUnsent(first, s1, None, EpisodeStatus.ReadyForModel);
    var third := OneUnsent(second, s2, Some(DIAGNOSTIC), EpisodeStatus.Failed);
    ChainRuns(1, third);
    actions := AllActions(third);
  }

  lemma Diagnostics(s0: EpisodeState, s1: EpisodeState, s2: EpisodeState)
    requires s0.attempts == [] && s1 == Unsent(s0, Some(DIAGNOSTIC), EpisodeStatus.ReadyForModel)
    requires s2 == Unsent(s1, None, EpisodeStatus.ReadyForModel)
    ensures !RepeatsTheLastFailure(Dispatching(s0), Some(DIAGNOSTIC))
    ensures RepeatsTheLastFailure(Dispatching(s2), Some(DIAGNOSTIC))
    ensures !RepeatsThePreviousAttempt(Dispatching(s2), Some(DIAGNOSTIC))
  {
    var d0, d2 := Dispatching(s0), Dispatching(s2);
    assert d0.attempts[..|d0.attempts| - 1] == [] && LastDiagnostic([]) == None;
    assert LastDiagnostic(s1.attempts) == Some(DIAGNOSTIC);
    assert s2.attempts[..|s2.attempts| - 1] == s1.attempts;
    assert LastDiagnostic(s2.attempts) == LastDiagnostic(s1.attempts);
    assert d2.attempts[..|d2.attempts| - 1] == s2.attempts;
    assert LastDiagnostic(d2.attempts) == LastDiagnostic(s2.attempts);
  }
}

/** The log explains the turn table: a turn stored as completed, failed, cancelled or waiting for
    input has an event saying so on its own URI, in every state of every run. Terminal statuses
    are not absorbing, so this is what still holds while finalize, cancel and mirroring race. */
module Evidence {
  import opened Types
  import opened Vocabulary
  import opened Wrappers
  import opened EventLog
  import opened StoreModel
  import opened BrokerModel
  import opened BrokerInvariants
  import opened BrokerSteps
  import opened BrokerRuns

  /** If the status is one a client is told of, an event on the turn's own URI tells it. */
  ghost predicate Evidenced(log: seq<Event>, tid: Id, status: Status) {
    Settled(status) ==> exists i :: 0 <= i < |log| && log[i].resource == TurnUri(tid) && Reports(log[i].eventType, status)
  }

  ghost predicate Justified(s: State) {
    forall t :: t in s.turns ==> Evidenced(s.log, t, s.turns[t].status)
  }

  ghost predicate OthersKept(s: State, s': State, tid: Id) {
    forall t :: t in s'.turns && t != tid ==> t in s.turns && s'.turns[t].status == s.turns[t].status
  }

  lemma EvidenceGrows(log: seq<Event>, log': seq<Event>, tid: Id, status: Status)
    requires Evidenced(log, tid, status) && log <= log'
    ensures Evidenced(log', tid, status)
  {
    if Settled(status) {
      var i :| 0 <= i < |log| && log[i].resource == TurnUri(tid) && Reports(log[i].eventType, status);
      assert log'[i] == log[i];
    }
  }

  lemma JustifiedFrame(s: State, s': State, tid: Id)
    requires Justified(s) && s.log <= s'.log && OthersKept(s, s', tid)
    requires tid in s'.turns ==> Evidenced(s'.log, tid, s'.turns[tid].status)
    ensures Justified(s')
  {
    forall t | t in s'.turns ensures Evidenced(s'.log, t, s'.turns[t].status) {
      if t != tid { EvidenceGrows(s.log, s'.log, t, s.turns[t].status); }
    }
  }

  lemma EvidenceAt(log: seq<Event>, i: nat, tid: Id, status: Status)
    requires i < |log| && Reports(log[i].eventType, status) && log[i].resource == TurnUri(tid)
    ensures Evidenced(log, tid, status)
  {}

  /** When no turn changes status, evidence carries over. */
  lemma JustifiedSame(s: State, s': State)
    requires Justified(s) && s.log <= s'.log
    requires forall t :: t in s'.turns ==> t in s.turns && s'.turns[t].status == s.turns[t].status
    ensures Justified(s')
  {
    forall t | t in s'.turns ensures Evidenced(s'.log, t, s'.turns[t].status) {
      EvidenceGrows(s.log, s'.log, t, s.turns[t].status);
    }
  }

  lemma UpdateTurnFrame(s: State, tid: Id, backendTurn: Option<Id>, status: Status, unread: bool)
    ensures var s' := UpdateTurn(s, tid, backendTurn, status, unread);
            && s' == s.(turns := s'.turns) && OthersKept(s, s', tid) && s'.turns.Keys == s.turns.Keys
            && (tid in s'.turns ==> s'.turns[tid].status == status)
  {}

  lemma UpdateSessionFrame(s: State, sid: Id, status: Status, cursor: Option<int>)
    ensures var s' := UpdateSession(s, sid, status, cursor); s' == s.(sessions := s'.sessions)
  {}

  // ---------------------------------------------------------------- operations

  /** What an ingested event leaves in the log. */
  predicate IngestedAs(e: Event, event: BackendEvent, tid: Id) {
    e.eventType == event.eventType && (event.eventType != RequestCreated ==> e.resource == TurnUri(tid))
  }

  lemma {:induction false} IngestAllEvents(s: State, sid: Id, backend: Id, tid: Id, events: seq<BackendEvent>)
    ensures var s' := IngestAll(s, sid, backend, tid, events);
            && |s'.log| == |s.log| + |events| && s.log <= s'.log
            && (forall i :: 0 <= i < |events| ==> IngestedAs(s'.log[|s.log| + i], events[i], tid))
  {
    if events != [] {
      var front := events[..|events| - 1];
      IngestAllEvents(s, sid, backend, tid, front);
      var s1 := IngestAll(s, sid, backend, tid, front);
      var s' := IngestAll(s, sid, backend, tid, events);
      forall i | 0 <= i < |events| ensures IngestedAs(s'.log[|s.log| + i], events[i], tid) {
        if i < |front| { assert s'.log[|s.log| + i] == s1.log[|s.log| + i] && front[i] == events[i]; }
      }
    }
  }

  lemma ReturnedEvidence(s: State, sid: Id, backend: Id, tid: Id, events: seq<BackendEvent>, i: nat, status: Status)
    requires i < |events| && Reports(events[i].eventType, status)
    ensures Evidenced(IngestAll(s, sid, backend, tid, events).log, tid, status)
  {
    var s1 := IngestAll(s, sid, backend, tid, events);
    IngestAllEvents(s, sid, backend, tid, events);
    assert IngestedAs(s1.log[|s.log| + i], events[i], tid);
    EvidenceAt(s1.log, |s.log| + i, tid, status);
  }

  lemma SettledIs(status: Status)
    ensures Settled(status) <==> TerminalType(status).Some?
    ensures Settled(status) ==> Reports(TerminalType(status).value, status)
  {}

  lemma FinishedEvidence(s: State, sid: Id, backend: Id, tid: Id, turn: BackendTurn)
    ensures Evidenced(Finished(s, sid, backend, tid, turn).log, tid, turn.status)
  {
    var s1, s' := IngestAll(s, sid, backend, tid, turn.events), Finished(s, sid, backend, tid, turn);
    SettledIs(turn.status);
    if Settled(turn.status) {
      var terminal := TerminalType(turn.status).value;
      if HasType(turn.events, terminal) {
        var i :| 0 <= i < |turn.events| && turn.events[i].eventType == terminal;
        ReturnedEvidence(s, sid, backend, tid, turn.events, i, turn.status);
      } else {
        EvidenceAt(s'.log, |s1.log|, tid, turn.status);
      }
    }
  }

  lemma FinishedFrame(s: State, sid: Id, backend: Id, tid: Id, turn: BackendTurn)
    ensures var s' := Finished(s, sid, backend, tid, turn);
            s'.turns == s.turns && s.log <= s'.log
  {
    IngestAllFrame(s, sid, backend, tid, turn.events);
  }

  lemma FinalizeJustified(s: State, sid: Id, backend: Id, tid: Id, turn: BackendTurn, latest: int)
    requires Justified(s)
    ensures Justified(Finalize(s, sid, backend, tid, turn, latest))
  {
    FinishedEvidence(s, sid, backend, tid, turn);
    FinishedFrame(s, sid, backend, tid, turn);
    JustifiedFrame(s, Finalize(s, sid, backend, tid, turn, latest), tid);
  }

  /** Logging a turn's end and storing its status touches no other turn. */
  lemma ClosingFrame(s: State, tid: Id, parent: Uri, eventType: EventType, origin: Origin, payload: Json,
                     backendTurn: Option<Id>, status: Status, sid: Id)
    ensures var s1 := Append(s, TurnUri(tid), Some(parent), eventType, origin, payload);
            var s' := UpdateSession(UpdateTurn(s1, tid, backendTurn, status, true), sid, Idle, Some(LastSeq(s1.log)));
            && s'.log == s1.log && OthersKept(s, s', tid) && (tid in s'.turns ==> s'.turns[tid].status == status)
  {
    var s1 := Append(s, TurnUri(tid), Some(parent), eventType, origin, payload);
    UpdateTurnFrame(s1, tid, backendTurn, status, true);
    UpdateSessionFrame(UpdateTurn(s1, tid, backendTurn, status, true), sid, Idle, Some(LastSeq(s1.log)));
  }

  lemma FailTurnJustified(s: State, sid: Id, backend: Id, tid: Id, summary: string)
    requires Justified(s)
    ensures Justified(FailTurn(s, sid, backend, tid, summary))
  {
    var s' := FailTurn(s, sid, backend, tid, summary);
    ClosingFrame(s, tid, SessionUri(sid), TurnFailed, FromBackend(backend), Note(summary), None, Failed, sid);
    EvidenceAt(s'.log, |s.log|, tid, Failed);
    JustifiedFrame(s, s', tid);
  }

  lemma InterruptJustified(s: State, tid: Id, summary: string, now: nat)
    requires Justified(s)
    ensures Justified(Interrupt(s, tid, summary, now))
  {
    if tid in s.turns {
      var s1 := WithdrawRequests(MarkInterrupted(s, tid), tid, summary, now);
      var s' := Interrupt(s, tid, summary, now);
      WithdrawFrame(MarkInterrupted(s, tid), tid, summary, now);
      if Active(s.turns[tid].status) {
        EvidenceAt(s'.log, |s1.log|, tid, Failed);
      } else {
        EvidenceGrows(s.log, s'.log, tid, s.turns[tid].status);
      }
      JustifiedFrame(s, s', tid);
    }
  }

  lemma CancelledFrame(s: State, sid: Id, tid: Id, backendTurn: Id, origin: Origin)
    ensures var s' := CloseCancelled(s, sid, tid, backendTurn, origin);
            && s.log <= s'.log && |s'.log| == |s.log| + 1
            && s'.log[|s.log|].resource == TurnUri(tid) && s'.log[|s.log|].eventType == TurnCancelled
            && OthersKept(s, s', tid) && (tid in s'.turns ==> s'.turns[tid].status == Status.Cancelled)
  {
    var s1 := UpdateTurn(s, tid, Some(backendTurn), Status.Cancelled, true);
    UpdateTurnFrame(s, tid, Some(backendTurn), Status.Cancelled, true);
    var s2 := Append(s1, TurnUri(tid), Some(SessionUri(sid)), TurnCancelled, origin, JObj(map[]));
    UpdateSessionFrame(s2, sid, Idle, Some(LastSeq(s2.log)));
  }

  lemma CloseCancelledJustified(s: State, sid: Id, tid: Id, backendTurn: Id, origin: Origin)
    requires Justified(s)
    ensures Justified(CloseCancelled(s, sid, tid, backendTurn, origin))
  {
    var s' := CloseCancelled(s, sid, tid, backendTurn, origin);
    CancelledFrame(s, sid, tid, backendTurn, origin);
    EvidenceAt(s'.log, |s.log|, tid, Status.Cancelled);
    JustifiedFrame(s, s', tid);
  }

  lemma WithdrawJustified(s: State, tid: Id, reason: string, now: nat)
    requires Justified(s)
    ensures Justified(WithdrawRequests(s, tid, reason, now))
  {
    WithdrawFrame(s, tid, reason, now);
    JustifiedSame(s, WithdrawRequests(s, tid, reason, now));
  }

  lemma CancelTurnJustified(s: State, sid: Id, tid: Id, op: Option<Id>, agreed: bool, now: nat)
    requires Justified(s)
    ensures Justified(CancelTurn(s, sid, tid, op, agreed, now).0)
  {
    if sid in s.sessions && tid in s.turns {
      if TurnUri(tid) in s.links {
        if SessionUri(sid) in s.links {
          var link := s.links[TurnUri(tid)];
          var (s0, key) := OperationKey(s, op);
          var s1 := s0.(ops := RecordPending(s0.ops, key, link.host, OpCancelTurn));
          assert Justified(s1);
          WithdrawJustified(s1, tid, CANCEL_REASON, now);
          CloseCancelledJustified(WithdrawRequests(s1, tid, CANCEL_REASON, now), sid, tid, link.remoteId, FromRemoteBroker);
        }
      } else if s.sessions[sid].backendSessionId.Some? {
        WithdrawJustified(s, tid, CANCEL_REASON, now);
        var backendTurn := if s.turns[tid].backendTurnId.Some? then s.turns[tid].backendTurnId.value else tid;
        CloseCancelledJustified(WithdrawRequests(s, tid, CANCEL_REASON, now), sid, tid, backendTurn, FromBroker);
      }
    }
  }

  lemma OpenTurnJustified(s: State, sid: Id, message: string, origin: Origin)
    requires Justified(s)
    ensures Justified(OpenTurn(s, sid, message, origin))
  {
    JustifiedFrame(s, OpenTurn(s, sid, message, origin), s.nextId);
  }

  lemma DegradeFrame(s: State, sid: Id, tid: Id)
    ensures var s' := DegradeTurn(s, sid, tid);
            && s.log <= s'.log && s'.turns == UpdateTurn(s, tid, None, Degraded, true).turns
            && s'.links == s.links && s'.ops == s.ops && s'.nextId == s.nextId && s'.requests == s.requests
  {
    var s1 := UpdateTurn(s, tid, None, Degraded, true);
    UpdateTurnFrame(s, tid, None, Degraded, true);
    UpdateSessionFrame(s1, sid, Degraded, Some(LastSeq(s.log)));
  }

  lemma DegradeJustified(s: State, sid: Id, tid: Id)
    requires Justified(s)
    ensures Justified(DegradeTurn(s, sid, tid))
  {
    UpdateTurnFrame(s, tid, None, Degraded, true);
    DegradeFrame(s, sid, tid);
    JustifiedFrame(s, DegradeTurn(s, sid, tid), tid);
  }

  lemma ForwardTurnJustified(s: State, sid: Id, host: Id, message: string, key: OpKey, answer: Result<RemoteTurn>)
    requires Justified(s)
    ensures Justified(ForwardTurn(s, sid, host, message, key, answer).0)
  {
    OpenTurnJustified(s, sid, message, FromRemoteBroker);
    DegradeJustified(OpenTurn(s, sid, message, FromRemoteBroker), sid, s.nextId);
  }

  lemma SendJustified(s: State, sid: Id, message: string, op: Option<Id>, answer: Result<RemoteTurn>)
    requires Justified(s)
    ensures Justified(SendMessage(s, sid, message, op, answer).0)
  {
    OpenTurnJustified(s, sid, message, FromBroker);
    if SessionUri(sid) in s.links && AppliedResult(s.ops, op).None? {
      var host := s.links[SessionUri(sid)].host;
      var (s0, key) := OperationKey(s, op);
      var s1 := s0.(ops := RecordPending(s0.ops, key, host, OpSendMessage));
      assert Justified(s1);
      ForwardTurnJustified(s1, sid, host, message, key, answer);
    }
  }

  lemma ApplyMirroredFrame(s: State, sid: Id, link: Link, eventType: EventType)
    requires link.kind == TurnLink && MirroredStatus(eventType).Some?
    ensures var s' := ApplyMirrored(s, sid, Some(link), eventType);
            var status := MirroredStatus(eventType).value.0;
            && s' == s.(turns := s'.turns, sessions := s'.sessions)
            && s'.turns == UpdateTurn(s, link.localId, Some(link.remoteId), status, true).turns
  {
    var (turnStatus, sessionStatus) := MirroredStatus(eventType).value;
    UpdateTurnFrame(s, link.localId, Some(link.remoteId), turnStatus, true);
    UpdateSessionFrame(UpdateTurn(s, link.localId, Some(link.remoteId), turnStatus, true), sid, sessionStatus, Some(LastSeq(s.log)));
  }

  lemma ApplyMirroredJustified(s: State, s1: State, sid: Id, link: Option<Link>, eventType: EventType)
    requires Justified(s) && s1 == s.(log := s1.log) && s.log <= s1.log && |s1.log| == |s.log| + 1
    requires s1.log[|s.log|].eventType == eventType
    requires link.Some? && link.value.kind == TurnLink ==> s1.log[|s.log|].resource == TurnUri(link.value.localId)
    ensures Justified(ApplyMirrored(s1, sid, link, eventType))
  {
    JustifiedSame(s, s1);
    if link.Some? && link.value.kind == TurnLink && MirroredStatus(eventType).Some? {
      var tid, status := link.value.localId, MirroredStatus(eventType).value.0;
      ApplyMirroredFrame(s1, sid, link.value, eventType);
      UpdateTurnFrame(s1, tid, Some(link.value.remoteId), status, true);
      EvidenceAt(s1.log, |s.log|, tid, status);
      JustifiedFrame(s1, ApplyMirrored(s1, sid, link, eventType), tid);
    }
  }

  lemma MirrorJustified(s: State, host: Id, sid: Id, e: Event)
    requires Justified(s) && LinksWellFormed(s)
    ensures Justified(Mirror(s, host, sid, e).0)
  {
    var resourceLink := ByRemote(s.links, host, e.resource);
    var parentLink := RemoteParent(s.links, host, e);
    if e.eventType == RequestCreated {
      if parentLink.Some? { JustifiedSame(s, AdoptRequest(s, host, sid, parentLink.value, e).0); }
    } else {
      ByRemoteRow(s.links, host, e.resource);
      var s1 := Append(s, UriOr(resourceLink, SessionUri(sid)), Some(UriOr(parentLink, SessionUri(sid))), e.eventType, FromRemote(host), e.payload);
      if resourceLink.Some? { assert LinkShape(s, s.links[resourceLink.value.localUri]); }
      ApplyMirroredJustified(s, s1, sid, resourceLink, e.eventType);
    }
  }

  // ---------------------------------------------------------------- runs

  predicate SetsTurnStatus(step: Step) {
    step.DoSend? || step.DoFinalize? || step.DoFail? || step.DoCancel? || step.DoInterrupt? || step.DoMirror?
  }

  lemma CreateRemoteTurns(s: State, host: Id, op: Option<Id>, answer: Result<RemoteSession>)
    ensures CreateRemote(s, host, op, answer).0.turns == s.turns
  {}

  lemma QuietTurns(y: Sys, step: Step)
    requires Enabled(y, step) && !SetsTurnStatus(step)
    ensures var s' := Take(y, step).store;
            forall t :: t in s'.turns ==> t in y.store.turns && s'.turns[t].status == y.store.turns[t].status
  {
    match step
    case DoCreateRemote(host, op, answer) => CreateRemoteTurns(y.store, host, op, answer);
    case DoResolve(rid, decision, response, reason, op, agreed, now) => ResolveFrame(y.store, rid, decision, response, reason, op, agreed, now);
    case _ =>
  }

  lemma QuietJustified(y: Sys, step: Step)
    requires SysInv(y) && Enabled(y, step) && !SetsTurnStatus(step) && Justified(y.store)
    ensures Justified(Take(y, step).store)
  {
    StepGood(y, step);
    QuietTurns(y, step);
    JustifiedSame(y.store, Take(y, step).store);
  }

  lemma StepJustified(y: Sys, step: Step)
    requires SysInv(y) && Enabled(y, step) && Justified(y.store)
    ensures Justified(Take(y, step).store)
  {
    var s := y.store;
    match step
    case DoSend(sid, message, op, answer) => SendJustified(s, sid, message, op, answer);
    case DoFinalize(tid, finished) => FinalizeJustified(s, y.tasks[tid].sessionId, y.tasks[tid].backend, tid, finished, y.tasks[tid].latest);
    case DoFail(tid, summary) => FailTurnJustified(s, y.tasks[tid].sessionId, y.tasks[tid].backend, tid, summary);
    case DoCancel(sid, tid, op, agreed, now) => CancelTurnJustified(s, sid, tid, op, agreed, now);
    case DoInterrupt(tid, summary, now) => InterruptJustified(s, tid, summary, now);
    case DoMirror(host, sid, e) => MirrorJustified(s, host, sid, e);
    case _ => QuietJustified(y, step);
  }

  lemma {:induction false} RunJustified(steps: seq<Step>)
    ensures Justified(Exec(INITIAL, steps).store)
  {
    if steps != [] {
      var front := steps[..|steps| - 1];
      RunJustified(front);
      InitialInv();
      ExecInv(INITIAL, front);
      if Enabled(Exec(INITIAL, front), steps[|steps| - 1]) {
        StepJustified(Exec(INITIAL, front), steps[|steps| - 1]);
      }
    }
  }

  /** In every reachable state: no turn is stored as completed, failed, cancelled or waiting for input
      without an event on its own URI that says so. */
  lemma StatusJustifiedByLog(y: Sys, tid: Id)
    requires Reachable(y) && tid in y.store.turns
    ensures Evidenced(y.store.log, tid, y.store.turns[tid].status)
  {
    var steps :| Reaches(INITIAL, steps, y);
    ReachesExec(INITIAL, steps, y);
    RunJustified(steps);
  }

  // ---------------------------------------------------------------- the synthesised event

  function CountOn(log: seq<Event>, resource: Uri, eventType: EventType): nat {
    if log == [] then 0
    else CountOn(log[..|log| - 1], resource, eventType) +
         if log[|log| - 1].resource == resource && log[|log| - 1].eventType == eventType then 1 else 0
  }

  function CountType(events: seq<BackendEvent>, eventType: EventType): nat {
    if events == [] then 0
    else CountType(events[..|events| - 1], eventType) + if events[|events| - 1].eventType == eventType then 1 else 0
  }

  lemma CountOnAppend(log: seq<Event>, e: Event, resource: Uri, eventType: EventType)
    ensures CountOn(log + [e], resource, eventType) ==
            CountOn(log, resource, eventType) + if e.resource == resource && e.eventType == eventType then 1 else 0
  {
    assert (log + [e])[..|log|] == log;
  }

  lemma {:induction false} IngestAllCount(s: State, sid: Id, backend: Id, tid: Id, events: seq<BackendEvent>, eventType: EventType)
    requires eventType != RequestCreated
    ensures CountOn(IngestAll(s, sid, backend, tid, events).log, TurnUri(tid), eventType) ==
            CountOn(s.log, TurnUri(tid), eventType) + CountType(events, eventType)
  {
    if events != [] {
      var front := events[..|events| - 1];
      IngestAllCount(s, sid, backend, tid, front, eventType);
      var s1 := IngestAll(s, sid, backend, tid, front);
      var s2 := IngestAll(s, sid, backend, tid, events);
      CountOnAppend(s1.log, s2.log[|s1.log|], TurnUri(tid), eventType);
    }
  }

  lemma {:induction false} CountTypeZero(events: seq<BackendEvent>, eventType: EventType)
    ensures CountType(events, eventType) == 0 <==> !HasType(events, eventType)
  {
    if events != [] {
      CountTypeZero(events[..|events| - 1], eventType);
      assert events[..|events| - 1] + [events[|events| - 1]] == events;
    }
  }

  lemma TerminalIs(terminal: EventType, status: Status)
    requires Reports(terminal, status)
    ensures TerminalType(status) == Some(terminal)
  {}

  lemma FinalizeLog(s: State, sid: Id, backend: Id, tid: Id, turn: BackendTurn, latest: int)
    ensures Finalize(s, sid, backend, tid, turn, latest).log == Finished(s, sid, backend, tid, turn).log
  {}

  lemma FinishedAdds(s: State, sid: Id, backend: Id, tid: Id, turn: BackendTurn, terminal: EventType)
    requires TerminalType(turn.status) == Some(terminal) && terminal != RequestCreated
    ensures var returned := CountType(turn.events, terminal);
            CountOn(Finished(s, sid, backend, tid, turn).log, TurnUri(tid), terminal) ==
            CountOn(s.log, TurnUri(tid), terminal) + if returned == 0 then 1 else returned
  {
    var s1 := IngestAll(s, sid, backend, tid, turn.events);
    var s2 := Finished(s, sid, backend, tid, turn);
    IngestAllCount(s, sid, backend, tid, turn.events, terminal);
    CountTypeZero(turn.events, terminal);
    if !HasType(turn.events, terminal) {
      CountOnAppend(s1.log, s2.log[|s1.log|], TurnUri(tid), terminal);
    }
  }

  /** Finalize adds one terminal event of its own exactly when the backend returned none that reports the
      turn's status, so the turn gains as many as the backend returned, and never fewer than one. */
  lemma FinalizeSynthesisesOne(s: State, sid: Id, backend: Id, tid: Id, turn: BackendTurn, latest: int, terminal: EventType)
    requires Reports(terminal, turn.status)
    ensures var returned := CountType(turn.events, terminal);
            CountOn(Finalize(s, sid, backend, tid, turn, latest).log, TurnUri(tid), terminal) ==
            CountOn(s.log, TurnUri(tid), terminal) + if returned == 0 then 1 else returned
  {
    TerminalIs(terminal, turn.status);
    FinalizeLog(s, sid, backend, tid, turn, latest);
    FinishedAdds(s, sid, backend, tid, turn, terminal);
  }
}

/** What the mirror relies on holds of a broker's own log: a request's events name one session, and its
    creation is its first event. If turns are cancelled through their own sessions only, a turn's
    events name one session too. */
module HostLog {
  import opened Types
  import opened Wrappers
  import opened EventLog
  import opened StoreModel
  import opened BrokerModel
  import opened BrokerInvariants
  import opened BrokerSteps
  import opened BrokerRuns
  import opened Federation

  /** The session an event names is that of its request and, if `own`, that of its turn. */
  ghost predicate HomedEvent(s: State, e: Event, own: bool) {
    && ShapeOk(e)
    && (e.resource.TurnUri? ==> e.resource.id in s.turns && (own ==> e.parent == Some(SessionUri(s.turns[e.resource.id].sessionId))))
    && (e.resource.RequestUri? && SessionParent(e) ==>
          e.resource.id in s.requests && e.parent == Some(SessionUri(s.requests[e.resource.id].sessionId)))
  }

  ghost predicate Homed(s: State, own: bool) {
    BornFirst(s.log) && forall i :: 0 <= i < |s.log| ==> HomedEvent(s, s.log[i], own)
  }

  lemma HomedLogOk(s: State, own: bool)
    requires StoreInv(s) && Homed(s, own)
    ensures RemoteLogOk(s.log)
  {
    forall i, j | 0 <= i < |s.log| && 0 <= j < |s.log| && SameRequest(s.log[i], s.log[j])
      ensures s.log[i].parent == s.log[j].parent
    {
      assert HomedEvent(s, s.log[i], own) && HomedEvent(s, s.log[j], own);
    }
    forall i | 0 <= i < |s.log| ensures ShapeOk(s.log[i]) {
      assert HomedEvent(s, s.log[i], own);
    }
  }

  /** New events, none of them a creation. */
  ghost predicate Extends(s: State, s': State, own: bool) {
    && s.log <= s'.log
    && (forall t :: t in s.turns ==> t in s'.turns && s'.turns[t].sessionId == s.turns[t].sessionId)
    && (forall r :: r in s.requests ==> r in s'.requests && s'.requests[r].sessionId == s.requests[r].sessionId)
    && (forall i :: |s.log| <= i < |s'.log| ==> HomedEvent(s', s'.log[i], own) && s'.log[i].eventType != RequestCreated)
  }

  lemma ExtendsHomed(s: State, s': State, own: bool)
    requires Homed(s, own) && Extends(s, s', own)
    ensures Homed(s', own)
  {
    forall i | 0 <= i < |s'.log| ensures HomedEvent(s', s'.log[i], own) {
      if i < |s.log| { assert HomedEvent(s, s.log[i], own); }
    }
  }

  lemma KeptEvent(s: State, s': State, e: Event, own: bool)
    requires HomedEvent(s, e, own)
    requires forall t :: t in s.turns ==> t in s'.turns && s'.turns[t].sessionId == s.turns[t].sessionId
    requires forall r :: r in s.requests ==> r in s'.requests && s'.requests[r].sessionId == s.requests[r].sessionId
    ensures HomedEvent(s', e, own)
  {}

  lemma ExtendsThen(a: State, b: State, c: State, own: bool)
    requires Extends(a, b, own) && Extends(b, c, own)
    ensures Extends(a, c, own)
  {
    forall i | |a.log| <= i < |c.log| ensures HomedEvent(c, c.log[i], own) && c.log[i].eventType != RequestCreated {
      if i < |b.log| { KeptEvent(b, c, b.log[i], own); }
    }
  }

  /** Only the log, the turns and the requests matter. */
  ghost predicate SameRows(s: State, s': State) {
    s'.log == s.log && s'.turns == s.turns && s'.requests == s.requests
  }

  lemma ExtendsSame(a: State, a': State, b: State, b': State, own: bool)
    requires Extends(a, b, own) && SameRows(a, a') && SameRows(b, b')
    ensures Extends(a', b', own)
  {}

  lemma ExtendsSelf(a: State, own: bool)
    ensures Extends(a, a, own)
  {}

  // ---------------------------------------------------------------- creations

  /** A request is logged under its own, still unused, URI. */
  lemma RaiseHomed(s: State, sid: Id, tid: Option<Id>, kind: RequestKind, parent: Uri, origin: Origin, payload: Json, own: bool)
    requires Homed(s, own) && Bounded(s) && (parent == SessionUri(sid) || parent.TurnUri?)
    ensures Homed(RaiseRequest(s, sid, tid, kind, parent, origin, payload), own)
  {
    var s' := RaiseRequest(s, sid, tid, kind, parent, origin, payload);
    forall i | 0 <= i < |s'.log| ensures HomedEvent(s', s'.log[i], own) {
      if i < |s.log| { KeptEvent(s, s', s.log[i], own); }
    }
    forall i | 0 <= i < |s.log| ensures s.log[i].resource != RequestUri(s.nextId) {
      assert EventBelow(s.log[i], s.nextId);
    }
  }

  lemma IngestHomed(s: State, sid: Id, backend: Id, tid: Id, e: BackendEvent, own: bool)
    requires Homed(s, own) && Bounded(s) && tid in s.turns && s.turns[tid].sessionId == sid
    ensures Homed(Ingest(s, sid, backend, tid, e), own)
  {
    if e.eventType == RequestCreated {
      RaiseHomed(s, sid, Some(tid), RequestKindOf(e.payload), TurnUri(tid), FromBackend(backend), e.payload, own);
    } else {
      ExtendsHomed(s, Ingest(s, sid, backend, tid, e), own);
    }
  }

  lemma {:induction false} IngestAllHomed(s: State, sid: Id, backend: Id, tid: Id, events: seq<BackendEvent>, own: bool)
    requires Homed(s, own) && StoreInv(s) && tid in s.turns && s.turns[tid].sessionId == sid
    ensures Homed(IngestAll(s, sid, backend, tid, events), own)
  {
    if events != [] {
      var front := events[..|events| - 1];
      IngestAllHomed(s, sid, backend, tid, front, own);
      IngestAllGood(s, sid, backend, tid, front);
      IngestAllFrame(s, sid, backend, tid, front);
      IngestHomed(IngestAll(s, sid, backend, tid, front), sid, backend, tid, events[|events| - 1], own);
    }
  }

  lemma TurnEventHomed(s: State, tid: Id, sid: Id, eventType: EventType, origin: Origin, payload: Json, own: bool)
    requires Homed(s, own) && tid in s.turns && s.turns[tid].sessionId == sid && eventType != RequestCreated
    ensures Homed(Append(s, TurnUri(tid), Some(SessionUri(sid)), eventType, origin, payload), own)
  {
    ExtendsHomed(s, Append(s, TurnUri(tid), Some(SessionUri(sid)), eventType, origin, payload), own);
  }

  lemma FinishedHomed(s: State, sid: Id, backend: Id, tid: Id, turn: BackendTurn, own: bool)
    requires Homed(s, own) && StoreInv(s) && tid in s.turns && s.turns[tid].sessionId == sid
    ensures Homed(Finished(s, sid, backend, tid, turn), own)
  {
    var s1 := IngestAll(s, sid, backend, tid, turn.events);
    IngestAllHomed(s, sid, backend, tid, turn.events, own);
    IngestAllFrame(s, sid, backend, tid, turn.events);
    var terminal := TerminalType(turn.status);
    if terminal.Some? && !HasType(turn.events, terminal.value) {
      TurnEventHomed(s1, tid, sid, terminal.value, FromBackend(backend), JObj(map[]), own);
    }
  }

  lemma UpdatesExtend(s: State, tid: Id, backendTurn: Option<Id>, status: Status, unread: bool, sid: Id, session: Status, cursor: int, own: bool)
    ensures Extends(s, UpdateSession(UpdateTurn(s, tid, backendTurn, status, unread), sid, session, Some(cursor)), own)
  {
    var s1 := UpdateTurn(s, tid, backendTurn, status, unread);
    assert Extends(s, s1, own);
    ExtendsSame(s, s, s1, UpdateSession(s1, sid, session, Some(cursor)), own);
  }

  lemma FinalizeHomed(s: State, sid: Id, backend: Id, tid: Id, turn: BackendTurn, latest: int, own: bool)
    requires Homed(s, own) && StoreInv(s) && tid in s.turns && s.turns[tid].sessionId == sid
    ensures Homed(Finalize(s, sid, backend, tid, turn, latest), own)
  {
    var s1 := Finished(s, sid, backend, tid, turn);
    FinishedHomed(s, sid, backend, tid, turn, own);
    var cursor := if |s1.log| == |s.log| then latest else LastSeq(s1.log);
    var session := if turn.status == Completed || turn.status == Status.Cancelled then Idle else turn.status;
    UpdatesExtend(s1, tid, Some(turn.backendTurnId), turn.status, TerminalType(turn.status).Some?, sid, session, cursor, own);
    ExtendsHomed(s1, Finalize(s, sid, backend, tid, turn, latest), own);
  }

  // ---------------------------------------------------------------- the other operations

  lemma WithdrawExtends(s: State, tid: Id, reason: string, now: nat, own: bool)
    ensures Extends(s, WithdrawRequests(s, tid, reason, now), own)
  {
    var ids := PendingIds(s.requests, tid, s.nextId);
    var s' := WithdrawRequests(s, tid, reason, now);
    LogWithdrawalsAre(CancelPending(s, tid, reason, now), ids, TurnUri(tid), reason);
    forall i | |s.log| <= i < |s'.log| ensures HomedEvent(s', s'.log[i], own) && s'.log[i].eventType != RequestCreated {
      assert IsWithdrawalOf(s'.log[|s.log| + (i - |s.log|)], ids[i - |s.log|], TurnUri(tid));
    }
  }

  lemma CloseCancelledExtends(s: State, sid: Id, tid: Id, backendTurn: Id, origin: Origin, own: bool)
    requires tid in s.turns && (own ==> s.turns[tid].sessionId == sid)
    ensures Extends(s, CloseCancelled(s, sid, tid, backendTurn, origin), own)
  {}

  lemma CloseWithdrawnExtends(s: State, sid: Id, tid: Id, backendTurn: Id, origin: Origin, now: nat, own: bool)
    requires tid in s.turns && (own ==> s.turns[tid].sessionId == sid)
    ensures Extends(s, WithdrawRequests(s, tid, CANCEL_REASON, now), own)
    ensures Extends(s, CloseCancelled(WithdrawRequests(s, tid, CANCEL_REASON, now), sid, tid, backendTurn, origin), own)
  {
    var s1 := WithdrawRequests(s, tid, CANCEL_REASON, now);
    WithdrawExtends(s, tid, CANCEL_REASON, now, own);
    CloseCancelledExtends(s1, sid, tid, backendTurn, origin, own);
    ExtendsThen(s, s1, CloseCancelled(s1, sid, tid, backendTurn, origin), own);
  }

  lemma CancelLinkedExtends(s: State, sid: Id, tid: Id, op: Option<Id>, now: nat, own: bool)
    requires sid in s.sessions && tid in s.turns && (own ==> s.turns[tid].sessionId == sid)
    requires TurnUri(tid) in s.links && SessionUri(sid) in s.links
    ensures Extends(s, CancelTurn(s, sid, tid, op, true, now).0, own)
  {
    var (s0, key) := OperationKey(s, op);
    var link := s.links[TurnUri(tid)];
    var s1 := s0.(ops := RecordPending(s0.ops, key, link.host, OpCancelTurn));
    var s2 := CloseCancelled(WithdrawRequests(s1, tid, CANCEL_REASON, now), sid, tid, link.remoteId, FromRemoteBroker);
    CloseWithdrawnExtends(s1, sid, tid, link.remoteId, FromRemoteBroker, now, own);
    var s3 := s2.(ops := RecordApplied(s2.ops, key, link.host, OpCancelTurn, TurnUri(tid), OtherResult));
    ExtendsSame(s1, s, s2, s3, own);
    assert CancelTurn(s, sid, tid, op, true, now).0 == s3;
  }

  lemma CancelLocalExtends(s: State, sid: Id, tid: Id, op: Option<Id>, agreed: bool, now: nat, own: bool)
    requires sid in s.sessions && tid in s.turns && (own ==> s.turns[tid].sessionId == sid) && TurnUri(tid) !in s.links
    ensures Extends(s, CancelTurn(s, sid, tid, op, agreed, now).0, own)
  {
    ExtendsSelf(s, own);
    var turn := if s.turns[tid].backendTurnId.Some? then s.turns[tid].backendTurnId.value else tid;
    CloseWithdrawnExtends(s, sid, tid, turn, FromBroker, now, own);
  }

  predicate Refused(s: State, sid: Id, tid: Id, agreed: bool) {
    sid !in s.sessions || tid !in s.turns || (TurnUri(tid) in s.links && (SessionUri(sid) !in s.links || !agreed))
  }

  lemma CancelRefusedSame(s: State, sid: Id, tid: Id, op: Option<Id>, agreed: bool, now: nat)
    requires Refused(s, sid, tid, agreed)
    ensures SameRows(s, CancelTurn(s, sid, tid, op, agreed, now).0)
  {}

  lemma CancelExtends(s: State, sid: Id, tid: Id, op: Option<Id>, agreed: bool, now: nat, own: bool)
    requires own && tid in s.turns ==> s.turns[tid].sessionId == sid
    ensures Extends(s, CancelTurn(s, sid, tid, op, agreed, now).0, own)
  {
    if Refused(s, sid, tid, agreed) {
      CancelRefusedSame(s, sid, tid, op, agreed, now);
      ExtendsSelf(s, own);
      ExtendsSame(s, s, s, CancelTurn(s, sid, tid, op, agreed, now).0, own);
    } else if TurnUri(tid) in s.links {
      CancelLinkedExtends(s, sid, tid, op, now, own);
    } else {
      CancelLocalExtends(s, sid, tid, op, agreed, now, own);
    }
  }

  lemma OpenTurnExtends(s: State, sid: Id, message: string, origin: Origin, own: bool)
    requires s.nextId !in s.turns
    ensures Extends(s, OpenTurn(s, sid, message, origin), own)
  {}

  lemma DegradeExtends(s: State, sid: Id, tid: Id, own: bool)
    requires tid in s.turns && s.turns[tid].sessionId == sid
    ensures Extends(s, DegradeTurn(s, sid, tid), own)
  {}

  lemma ForwardTurnRows(s: State, sid: Id, host: Id, message: string, key: OpKey, answer: Result<RemoteTurn>)
    ensures var s1 := OpenTurn(s, sid, message, FromRemoteBroker);
            SameRows(if answer.Ok? then s1 else DegradeTurn(s1, sid, s.nextId), ForwardTurn(s, sid, host, message, key, answer).0)
  {
    if answer.Ok? { LinkedSameRows(OpenTurn(s, sid, message, FromRemoteBroker), sid, host, key, answer.value, s.nextId); }
  }

  lemma LinkedSameRows(s: State, sid: Id, host: Id, key: OpKey, remote: RemoteTurn, tid: Id)
    ensures var link := Link(TurnUri(tid), TurnLink, tid, host, remote.uri, remote.id, 0);
            forall result: OpResult :: LinkResource(s, link, key, OpSendMessage, result).Ok? ==>
              SameRows(s, LinkResource(s, link, key, OpSendMessage, result).value)
  {}

  lemma ForwardTurnExtends(s: State, sid: Id, host: Id, message: string, key: OpKey, answer: Result<RemoteTurn>, own: bool)
    requires s.nextId !in s.turns
    ensures Extends(s, ForwardTurn(s, sid, host, message, key, answer).0, own)
  {
    var s1 := OpenTurn(s, sid, message, FromRemoteBroker);
    var s2 := DegradeTurn(s1, sid, s.nextId);
    OpenTurnExtends(s, sid, message, FromRemoteBroker, own);
    DegradeExtends(s1, sid, s.nextId, own);
    ExtendsThen(s, s1, s2, own);
    ForwardTurnRows(s, sid, host, message, key, answer);
    ExtendsSame(s, s, if answer.Ok? then s1 else s2, ForwardTurn(s, sid, host, message, key, answer).0, own);
  }

  lemma SendRemoteExtends(s: State, sid: Id, message: string, op: Option<Id>, answer: Result<RemoteTurn>, own: bool)
    requires Bounded(s) && SessionUri(sid) in s.links
    ensures Extends(s, SendRemote(s, sid, message, op, answer).0, own)
  {
    ExtendsSelf(s, own);
    if AppliedResult(s.ops, op).None? {
      var host := s.links[SessionUri(sid)].host;
      var (s0, key) := OperationKey(s, op);
      var s1 := s0.(ops := RecordPending(s0.ops, key, host, OpSendMessage));
      var s2 := ForwardTurn(s1, sid, host, message, key, answer).0;
      ForwardTurnExtends(s1, sid, host, message, key, answer, own);
      ExtendsSame(s1, s, s2, s2, own);
    }
  }

  lemma SendExtends(s: State, sid: Id, message: string, op: Option<Id>, answer: Result<RemoteTurn>, own: bool)
    requires Bounded(s)
    ensures Extends(s, SendMessage(s, sid, message, op, answer).0, own)
  {
    ExtendsSelf(s, own);
    OpenTurnExtends(s, sid, message, FromBroker, own);
    if SessionUri(sid) in s.links { SendRemoteExtends(s, sid, message, op, answer, own); }
  }

  lemma MarkExtends(s: State, tid: Id, own: bool)
    ensures Extends(s, MarkInterrupted(s, tid), own) && MarkInterrupted(s, tid).turns.Keys == s.turns.Keys
  {}

  /** A turn's closing event, and its session's row. */
  lemma ClosingExtends(s: State, tid: Id, sid: Id, eventType: EventType, origin: Origin, payload: Json, own: bool)
    requires tid in s.turns && s.turns[tid].sessionId == sid && eventType != RequestCreated
    ensures var s1 := Append(s, TurnUri(tid), Some(SessionUri(sid)), eventType, origin, payload);
            Extends(s, UpdateSession(s1, sid, Idle, Some(LastSeq(s1.log))), own)
  {
    var s1 := Append(s, TurnUri(tid), Some(SessionUri(sid)), eventType, origin, payload);
    assert Extends(s, s1, own);
    ExtendsSame(s, s, s1, UpdateSession(s1, sid, Idle, Some(LastSeq(s1.log))), own);
  }

  lemma InterruptExtends(s: State, tid: Id, summary: string, now: nat, own: bool)
    ensures Extends(s, Interrupt(s, tid, summary, now), own)
  {
    ExtendsSelf(s, own);
    if tid in s.turns {
      var s0 := MarkInterrupted(s, tid);
      var s1 := WithdrawRequests(s0, tid, summary, now);
      MarkExtends(s, tid, own);
      WithdrawExtends(s0, tid, summary, now, own);
      ExtendsThen(s, s0, s1, own);
      ClosingExtends(s1, tid, s.turns[tid].sessionId, TurnFailed, FromBroker, Note(summary), own);
      ExtendsThen(s, s1, Interrupt(s, tid, summary, now), own);
    }
  }

  lemma CreateExtends(s: State, backend: Id, answer: Result<Id>, own: bool)
    ensures Extends(s, CreateSession(s, backend, answer).0, own)
  {}

  lemma CreateRemoteExtends(s: State, host: Id, op: Option<Id>, answer: Result<RemoteSession>, own: bool)
    ensures Extends(s, CreateRemote(s, host, op, answer).0, own)
  {
    ExtendsSelf(s, own);
    if AppliedResult(s.ops, op).None? && answer.Ok? {
      var (s0, key) := OperationKey(s, op);
      var s1 := s0.(ops := RecordPending(s0.ops, key, host, OpCreateSession));
      AdoptExtends(s1, answer.value, own);
      ExtendsSame(s1, s, AdoptSession(s1, answer.value), CreateRemote(s, host, op, answer).0, own);
    } else {
      ExtendsSame(s, s, s, CreateRemote(s, host, op, answer).0, own);
    }
  }

  lemma AdoptExtends(s: State, remote: RemoteSession, own: bool)
    ensures Extends(s, AdoptSession(s, remote), own)
  {}

  lemma ResolveExtends(s: State, rid: Id, decision: Decision, response: Option<Json>, reason: Option<string>, op: Option<Id>, agreed: bool, now: nat, own: bool)
    ensures Extends(s, ResolveRequest(s, rid, decision, response, reason, op, agreed, now).0, own)
  {
    ResolveIntentFrame(s, rid, op);
    if Settles(s, rid, agreed) {
      ResolveSettles(s, rid, decision, response, reason, op, agreed, now);
      var s1 := ResolveIntent(s, rid, op).0;
      ExtendsThen(s, s1, Settle(s1, rid, decision, response, reason, now), own);
    } else {
      ResolveRefused(s, rid, decision, response, reason, op, agreed, now);
    }
  }

  // ---------------------------------------------------------------- runs

  /** A step of a broker that mirrors nobody and, if `own`, whose clients cancel a turn through its own session. */
  predicate OwnStep(s: State, step: Step, own: bool) {
    !step.DoMirror? && (own && step.DoCancel? && step.tid in s.turns ==> s.turns[step.tid].sessionId == step.sid)
  }

  lemma StepHomed(y: Sys, step: Step, own: bool)
    requires SysInv(y) && Enabled(y, step) && OwnStep(y.store, step, own) && Homed(y.store, own)
    ensures Homed(Take(y, step).store, own)
  {
    var s := y.store;
    if step.DoSink? {
      IngestHomed(s, y.tasks[step.tid].sessionId, y.tasks[step.tid].backend, step.tid, step.event, own);
    } else if step.DoFinalize? {
      FinalizeHomed(s, y.tasks[step.tid].sessionId, y.tasks[step.tid].backend, step.tid, step.finished, y.tasks[step.tid].latest, own);
    } else if step.DoRaise? {
      RaiseHomed(s, step.sid, step.turn, step.kind, if step.turn.Some? then TurnUri(step.turn.value) else SessionUri(step.sid),
                 FromBackend(step.backend), step.payload, own);
    } else {
      StepExtends(y, step, own);
      ExtendsHomed(s, Take(y, step).store, own);
    }
  }

  lemma StepExtends(y: Sys, step: Step, own: bool)
    requires SysInv(y) && Enabled(y, step) && OwnStep(y.store, step, own)
    requires !step.DoSink? && !step.DoFinalize? && !step.DoRaise?
    ensures Extends(y.store, Take(y, step).store, own)
  {
    var s := y.store;
    match step
    case DoCreate(backend, answer) => CreateExtends(s, backend, answer, own);
    case DoSend(sid, message, op, answer) => SendExtends(s, sid, message, op, answer, own);
    case DoFail(tid, summary) => FailExtends(s, y.tasks[tid].sessionId, y.tasks[tid].backend, tid, summary, own);
    case DoCancel(sid, tid, op, agreed, now) => CancelExtends(s, sid, tid, op, agreed, now, own);
    case DoResolve(rid, decision, response, reason, op, agreed, now) => ResolveExtends(s, rid, decision, response, reason, op, agreed, now, own);
    case DoInterrupt(tid, summary, now) => InterruptExtends(s, tid, summary, now, own);
    case DoCreateRemote(host, op, answer) => CreateRemoteExtends(s, host, op, answer, own);
    case _ => PlainExtends(y, step, own);
  }

  predicate PlainStep(step: Step) {
    || step.DoWait? || step.DoAcknowledge? || step.DoClose? || step.DoRestart? || step.DoReattached? || step.DoResumeFailed?
    || step.DoReattach? || step.DoSetCursor? || step.DoUnavailable?
  }

  lemma PlainExtends(y: Sys, step: Step, own: bool)
    requires Enabled(y, step) && PlainStep(step)
    ensures Extends(y.store, Take(y, step).store, own)
  {}

  lemma FailExtends(s: State, sid: Id, backend: Id, tid: Id, summary: string, own: bool)
    requires tid in s.turns && s.turns[tid].sessionId == sid
    ensures Extends(s, FailTurn(s, sid, backend, tid, summary), own)
  {}

  ghost predicate OwnRun(y: Sys, steps: seq<Step>, own: bool) {
    forall n :: 0 <= n < |steps| ==> OwnStep(Exec(y, steps[..n]).store, steps[n], own)
  }

  lemma {:induction false} RunHomed(y: Sys, steps: seq<Step>, own: bool)
    requires SysInv(y) && Homed(y.store, own) && OwnRun(y, steps, own)
    ensures SysInv(Exec(y, steps)) && Homed(Exec(y, steps).store, own)
  {
    if steps != [] {
      var front := steps[..|steps| - 1];
      forall n | 0 <= n < |front| ensures OwnStep(Exec(y, front[..n]).store, front[n], own) {
        assert front[..n] == steps[..n];
      }
      RunHomed(y, front, own);
      ExecInv(y, steps);
      if Enabled(Exec(y, front), steps[|steps| - 1]) { StepHomed(Exec(y, front), steps[|steps| - 1], own); }
    }
  }

  /** The log of a broker that mirrors nobody, at any point of any run, and everything it appends later,
      is fit to be mirrored: it is the premise under which the remote log grows in the two-broker
      machine. If turns were cancelled through their own sessions only, each turn's events name its session. */
  lemma OwnLogMirrorable(steps: seq<Step>, more: seq<Step>, own: bool) returns (early: State, late: State)
    requires OwnRun(INITIAL, steps + more, own)
    ensures early == Exec(INITIAL, steps).store && late == Exec(INITIAL, steps + more).store
    ensures early.log <= late.log && RemoteLogOk(early.log + Added(early.log, late.log))
    ensures own ==> forall i :: 0 <= i < |late.log| && late.log[i].resource.TurnUri? ==> NamesOwnSession(late, late.log[i])
  {
    early, late := RunSplits(steps, more);
    InitialInv();
    RunHomed(INITIAL, steps + more, own);
    HomedLogOk(late, own);
    assert early.log + Added(early.log, late.log) == late.log;
    forall i | own && 0 <= i < |late.log| && late.log[i].resource.TurnUri? ensures NamesOwnSession(late, late.log[i]) {
      assert HomedEvent(late, late.log[i], own);
    }
  }

  /** A turn's event names the session the turn belongs to. */
  predicate NamesOwnSession(s: State, e: Event) {
    e.resource.TurnUri? && e.resource.id in s.turns && e.parent == Some(SessionUri(s.turns[e.resource.id].sessionId))
  }

  lemma RunSplits(steps: seq<Step>, more: seq<Step>) returns (early: State, late: State)
    ensures early == Exec(INITIAL, steps).store && late == Exec(INITIAL, steps + more).store
    ensures early.log <= late.log
  {
    InitialInv();
    ExecInv(INITIAL, steps);
    ExecConcat(INITIAL, steps, more);
    var y := Exec(INITIAL, steps);
    ExecInv(y, more);
    early, late := y.store, Exec(y, more).store;
  }

  // ---------------------------------------------------------------- the answers of the remote broker

  lemma FreshUnused(s: State, u: Uri)
    requires Bounded(s) && !UriBelow(u, s.nextId)
    ensures Unused(s.log, u)
  {
    forall i | 0 <= i < |s.log| ensures s.log[i].resource != u && s.log[i].parent != Some(u) {
      assert EventBelow(s.log[i], s.nextId);
    }
  }

  /** A broker that answers a forwarded message does to its log what the two-broker machine says, and
      its reply names an unused turn and the end of the log. */
  lemma HostOpensTurn(s: State, sid: Id, message: string, op: Option<Id>, answer: Result<RemoteTurn>)
    requires Bounded(s) && SessionUri(sid) !in s.links && SendMessage(s, sid, message, op, answer).1.Ok?
    ensures var (s', reply) := SendMessage(s, sid, message, op, answer);
            && s'.log == s.log + RemoteOpening(s.log, sid, reply.value.turnId, message)
            && reply.value.eventCursor == LastSeq(s'.log) && Unused(s.log, TurnUri(reply.value.turnId))
  {
    FreshUnused(s, TurnUri(s.nextId));
  }

  /** The same for a forwarded creation. */
  lemma HostCreatesSession(s: State, backend: Id, backendSession: Id)
    requires Bounded(s)
    ensures var (s', reply) := CreateSession(s, backend, Ok(backendSession));
            && reply.Ok? && s'.log == s.log + RemoteCreation(s.log, reply.value.sessionId, backend)
            && reply.value.eventCursor == LastSeq(s'.log) && Unused(s.log, SessionUri(reply.value.sessionId))
  {
    FreshUnused(s, SessionUri(s.nextId));
  }

  lemma CloseAppends(s: State, sid: Id, tid: Id, backendTurn: Id, origin: Origin)
    ensures var log := CloseCancelled(s, sid, tid, backendTurn, origin).log;
            |log| == |s.log| + 1 && s.log <= log && Cancellation(log[|s.log|], sid, tid)
  {}

  /** A cancelled turn's log: withdrawals, then the cancellation. */
  lemma WithdrawAndClose(s: State, sid: Id, tid: Id, backendTurn: Id, origin: Origin, now: nat)
    ensures var log := CloseCancelled(WithdrawRequests(s, tid, CANCEL_REASON, now), sid, tid, backendTurn, origin).log;
            s.log <= log && CancelsTurn(Added(s.log, log), sid, tid)
  {
    var s1 := WithdrawRequests(s, tid, CANCEL_REASON, now);
    WithdrawalsSetNothing(s, tid, now);
    CloseAppends(s1, sid, tid, backendTurn, origin);
    LastCancels(s.log, s1.log, CloseCancelled(s1, sid, tid, backendTurn, origin).log, sid, tid);
  }

  lemma WithdrawalsSetNothing(s: State, tid: Id, now: nat)
    ensures var log := WithdrawRequests(s, tid, CANCEL_REASON, now).log;
            s.log <= log && forall i :: |s.log| <= i < |log| ==> !SetsStatus(log[i], TurnUri(tid))
  {
    var log := WithdrawRequests(s, tid, CANCEL_REASON, now).log;
    var ids := PendingIds(s.requests, tid, s.nextId);
    LogWithdrawalsAre(CancelPending(s, tid, CANCEL_REASON, now), ids, TurnUri(tid), CANCEL_REASON);
    forall i | |s.log| <= i < |log| ensures !SetsStatus(log[i], TurnUri(tid)) {
      assert IsWithdrawalOf(log[|s.log| + (i - |s.log|)], ids[i - |s.log|], TurnUri(tid));
    }
  }

  lemma LastCancels(log: seq<Event>, log1: seq<Event>, log2: seq<Event>, sid: Id, tid: Id)
    requires log <= log1 <= log2 && |log2| == |log1| + 1 && Cancellation(log2[|log1|], sid, tid)
    requires forall i :: |log| <= i < |log1| ==> !SetsStatus(log1[i], TurnUri(tid))
    ensures CancelsTurn(Added(log, log2), sid, tid)
  {
    var events := Added(log, log2);
    assert Cancellation(events[|events| - 1], sid, tid);
    forall i | 0 <= i < |events| - 1 ensures !SetsStatus(events[i], TurnUri(tid)) {
      assert events[i] == log1[|log| + i];
    }
  }

  lemma CancelLogs(s: State, sid: Id, tid: Id, op: Option<Id>, now: nat)
    requires CancelTurn(s, sid, tid, op, true, now).1.Ok?
    ensures var log := CancelTurn(s, sid, tid, op, true, now).0.log;
            s.log <= log && log == s.log + Added(s.log, log) && CancelsTurn(Added(s.log, log), sid, tid)
  {
    if TurnUri(tid) in s.links {
      var (s0, key) := OperationKey(s, op);
      var link := s.links[TurnUri(tid)];
      WithdrawAndClose(s0.(ops := RecordPending(s0.ops, key, link.host, OpCancelTurn)), sid, tid, link.remoteId, FromRemoteBroker, now);
    } else {
      var turn := if s.turns[tid].backendTurnId.Some? then s.turns[tid].backendTurnId.value else tid;
      WithdrawAndClose(s, sid, tid, turn, FromBroker, now);
    }
  }

  lemma CancelledLogOk(s: State, sid: Id, tid: Id, op: Option<Id>, now: nat)
    requires StoreInv(s) && Homed(s, false)
    ensures RemoteLogOk(CancelTurn(s, sid, tid, op, true, now).0.log)
  {
    var s' := CancelTurn(s, sid, tid, op, true, now).0;
    CancelTurnGood(s, sid, tid, op, true, now);
    CancelExtends(s, sid, tid, op, true, now, false);
    ExtendsHomed(s, s', false);
    HomedLogOk(s', false);
  }

  /** The same for a forwarded cancellation, through whatever session: the remote log stays fit for
      mirroring and gains the turn's cancellation under the session named, and nothing else that sets the
      turn's status. */
  lemma HostCancelsTurn(s: State, sid: Id, tid: Id, op: Option<Id>, now: nat, log: seq<Event>)
    requires StoreInv(s) && Homed(s, false) && CancelTurn(s, sid, tid, op, true, now).1.Ok?
    requires log == CancelTurn(s, sid, tid, op, true, now).0.log
    ensures log == s.log + Added(s.log, log) && RemoteLogOk(log) && CancelsTurn(Added(s.log, log), sid, tid)
  {
    CancelledLogOk(s, sid, tid, op, now);
    CancelLogs(s, sid, tid, op, now);
  }
}

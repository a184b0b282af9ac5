/** Every operation of the broker keeps the store invariant and only moves the store forward. */
module BrokerSteps {
  import opened Types
  import opened Wrappers
  import opened EventLog
  import opened StoreModel
  import opened BrokerModel
  import opened BrokerInvariants

  lemma GoodSelf(s: State)
    requires StoreInv(s)
    ensures Good(s, s)
  {}

  // ---------------------------------------------------------------- turns

  lemma OpenTurnGood(s: State, sid: Id, message: string, origin: Origin)
    requires StoreInv(s) && sid < s.nextId
    ensures Good(s, OpenTurn(s, sid, message, origin))
  {
    var tid := s.nextId;
    var payload := JObj(map["message" := JStr(message)]);
    var s1 := InsertTurn(s, Turn(sid, None, Running, false));
    var s2 := Append(s1, TurnUri(tid), Some(SessionUri(sid)), TurnQueued, origin, payload);
    var s3 := Append(s2, TurnUri(tid), Some(SessionUri(sid)), TurnStarted, origin, JObj(map[]));
    InsertTurnGood(s, Turn(sid, None, Running, false));
    AppendGood(s1, TurnUri(tid), Some(SessionUri(sid)), TurnQueued, origin, payload);
    GoodThen(s, s1, s2);
    AppendGood(s2, TurnUri(tid), Some(SessionUri(sid)), TurnStarted, origin, JObj(map[]));
    GoodThen(s, s2, s3);
    AdvanceSessionGood(s3, sid, Running);
    GoodThen(s, s3, OpenTurn(s, sid, message, origin));
  }

  lemma RaiseGood(s: State, sid: Id, tid: Option<Id>, kind: RequestKind, parent: Uri, origin: Origin, payload: Json)
    requires StoreInv(s) && sid < s.nextId && UriBelow(parent, s.nextId)
    ensures Good(s, RaiseRequest(s, sid, tid, kind, parent, origin, payload))
  {
    var s1 := InsertRequest(s, NewRequest(sid, tid, kind, payload));
    InsertRequestGood(s, NewRequest(sid, tid, kind, payload));
    AppendGood(s1, RequestUri(s.nextId), Some(parent), RequestCreated, origin, payload);
    GoodThen(s, s1, RaiseRequest(s, sid, tid, kind, parent, origin, payload));
  }

  lemma IngestGood(s: State, sid: Id, backend: Id, tid: Id, e: BackendEvent)
    requires StoreInv(s) && sid < s.nextId && tid < s.nextId
    ensures Good(s, Ingest(s, sid, backend, tid, e))
  {
    if e.eventType == RequestCreated {
      RaiseGood(s, sid, Some(tid), RequestKindOf(e.payload), TurnUri(tid), FromBackend(backend), e.payload);
    } else {
      AppendGood(s, TurnUri(tid), Some(SessionUri(sid)), e.eventType, FromBackend(backend), e.payload);
    }
  }

  lemma {:induction false} IngestAllGood(s: State, sid: Id, backend: Id, tid: Id, events: seq<BackendEvent>)
    requires StoreInv(s) && sid < s.nextId && tid < s.nextId
    ensures Good(s, IngestAll(s, sid, backend, tid, events))
  {
    if events == [] {
      GoodSelf(s);
    } else {
      var front := events[..|events| - 1];
      IngestAllGood(s, sid, backend, tid, front);
      var s1 := IngestAll(s, sid, backend, tid, front);
      IngestGood(s1, sid, backend, tid, events[|events| - 1]);
      GoodThen(s, s1, IngestAll(s, sid, backend, tid, events));
    }
  }

  lemma FinishedGood(s: State, sid: Id, backend: Id, tid: Id, turn: BackendTurn)
    requires StoreInv(s) && sid < s.nextId && tid < s.nextId
    ensures Good(s, Finished(s, sid, backend, tid, turn))
  {
    var s1 := IngestAll(s, sid, backend, tid, turn.events);
    IngestAllGood(s, sid, backend, tid, turn.events);
    var terminal := TerminalType(turn.status);
    if terminal.Some? && !HasType(turn.events, terminal.value) {
      AppendGood(s1, TurnUri(tid), Some(SessionUri(sid)), terminal.value, FromBackend(backend), JObj(map[]));
      GoodThen(s, s1, Finished(s, sid, backend, tid, turn));
    }
  }

  lemma FinalizeGood(s: State, sid: Id, backend: Id, tid: Id, turn: BackendTurn, latest: int)
    requires StoreInv(s) && sid < s.nextId && tid < s.nextId && KnownSeq(s.log, latest)
    ensures Good(s, Finalize(s, sid, backend, tid, turn, latest))
  {
    var s1 := Finished(s, sid, backend, tid, turn);
    FinishedGood(s, sid, backend, tid, turn);
    var unread := TerminalType(turn.status).Some?;
    var s2 := UpdateTurn(s1, tid, Some(turn.backendTurnId), turn.status, unread);
    UpdateTurnGood(s1, tid, Some(turn.backendTurnId), turn.status, unread);
    GoodThen(s, s1, s2);
    var cursor := if |s1.log| == |s.log| then latest else LastSeq(s1.log);
    KnownLast(s1.log);
    KnownGrows(s.log, s1.log, latest);
    var status := if turn.status == Completed || turn.status == Status.Cancelled then Idle else turn.status;
    UpdateSessionGood(s2, sid, status, Some(cursor));
    GoodThen(s, s2, Finalize(s, sid, backend, tid, turn, latest));
  }

  lemma FailTurnGood(s: State, sid: Id, backend: Id, tid: Id, summary: string)
    requires StoreInv(s) && sid < s.nextId && tid < s.nextId
    ensures Good(s, FailTurn(s, sid, backend, tid, summary))
  {
    var s1 := Append(s, TurnUri(tid), Some(SessionUri(sid)), TurnFailed, FromBackend(backend), Note(summary));
    AppendGood(s, TurnUri(tid), Some(SessionUri(sid)), TurnFailed, FromBackend(backend), Note(summary));
    var s2 := UpdateTurn(s1, tid, None, Failed, true);
    UpdateTurnGood(s1, tid, None, Failed, true);
    GoodThen(s, s1, s2);
    AdvanceSessionGood(s2, sid, Idle);
    GoodThen(s, s2, FailTurn(s, sid, backend, tid, summary));
  }

  lemma MarkInterruptedGood(s: State, tid: Id)
    requires StoreInv(s)
    ensures Good(s, MarkInterrupted(s, tid))
  {
    if tid in s.turns && Active(s.turns[tid].status) {
      assert MarkInterrupted(s, tid) == UpdateTurn(s, tid, None, Failed, true);
      UpdateTurnGood(s, tid, None, Failed, true);
    } else {
      GoodSelf(s);
    }
  }

  lemma InterruptGood(s: State, tid: Id, summary: string, now: nat)
    requires StoreInv(s)
    ensures Good(s, Interrupt(s, tid, summary, now))
  {
    if tid !in s.turns {
      GoodSelf(s);
    } else {
      var sid := s.turns[tid].sessionId;
      var s0 := MarkInterrupted(s, tid);
      MarkInterruptedGood(s, tid);
      var s1 := WithdrawRequests(s0, tid, summary, now);
      WithdrawGood(s0, tid, summary, now);
      GoodThen(s, s0, s1);
      var s2 := Append(s1, TurnUri(tid), Some(SessionUri(sid)), TurnFailed, FromBroker, Note(summary));
      AppendGood(s1, TurnUri(tid), Some(SessionUri(sid)), TurnFailed, FromBroker, Note(summary));
      GoodThen(s, s1, s2);
      AdvanceSessionGood(s2, sid, Idle);
      GoodThen(s, s2, Interrupt(s, tid, summary, now));
    }
  }

  lemma CloseCancelledGood(s: State, sid: Id, tid: Id, backendTurn: Id, origin: Origin)
    requires StoreInv(s) && sid < s.nextId && tid < s.nextId
    ensures Good(s, CloseCancelled(s, sid, tid, backendTurn, origin))
  {
    var s1 := UpdateTurn(s, tid, Some(backendTurn), Status.Cancelled, true);
    UpdateTurnGood(s, tid, Some(backendTurn), Status.Cancelled, true);
    var s2 := Append(s1, TurnUri(tid), Some(SessionUri(sid)), TurnCancelled, origin, JObj(map[]));
    AppendGood(s1, TurnUri(tid), Some(SessionUri(sid)), TurnCancelled, origin, JObj(map[]));
    GoodThen(s, s1, s2);
    AdvanceSessionGood(s2, sid, Idle);
    GoodThen(s, s2, CloseCancelled(s, sid, tid, backendTurn, origin));
  }

  lemma PendingOpGood(s: State, op: Option<Id>, host: Id, kind: OpKind)
    requires StoreInv(s)
    ensures var (s0, key) := OperationKey(s, op); Good(s, s0.(ops := RecordPending(s0.ops, key, host, kind)))
  {
    var (s0, key) := OperationKey(s, op);
    OpsGood(s, RecordPending(s0.ops, key, host, kind), s0.nextId);
  }

  lemma CancelLinkedGood(s: State, sid: Id, tid: Id, key: OpKey, link: Link, now: nat)
    requires StoreInv(s) && sid < s.nextId && tid < s.nextId
    ensures var s2 := CloseCancelled(WithdrawRequests(s, tid, CANCEL_REASON, now), sid, tid, link.remoteId, FromRemoteBroker);
            Good(s, s2.(ops := RecordApplied(s2.ops, key, link.host, OpCancelTurn, TurnUri(tid), OtherResult)))
  {
    var s1 := WithdrawRequests(s, tid, CANCEL_REASON, now);
    WithdrawGood(s, tid, CANCEL_REASON, now);
    var s2 := CloseCancelled(s1, sid, tid, link.remoteId, FromRemoteBroker);
    CloseCancelledGood(s1, sid, tid, link.remoteId, FromRemoteBroker);
    GoodThen(s, s1, s2);
    var ops := RecordApplied(s2.ops, key, link.host, OpCancelTurn, TurnUri(tid), OtherResult);
    OpsGood(s2, ops, s2.nextId);
    assert s2.(ops := ops) == s2.(ops := ops, nextId := s2.nextId);
    GoodThen(s, s2, s2.(ops := ops));
  }

  lemma CancelLocalGood(s: State, sid: Id, tid: Id, backendTurn: Id, now: nat)
    requires StoreInv(s) && sid < s.nextId && tid < s.nextId
    ensures Good(s, CloseCancelled(WithdrawRequests(s, tid, CANCEL_REASON, now), sid, tid, backendTurn, FromBroker))
  {
    var s1 := WithdrawRequests(s, tid, CANCEL_REASON, now);
    WithdrawGood(s, tid, CANCEL_REASON, now);
    CloseCancelledGood(s1, sid, tid, backendTurn, FromBroker);
    GoodThen(s, s1, CloseCancelled(s1, sid, tid, backendTurn, FromBroker));
  }

  lemma CancelTurnGood(s: State, sid: Id, tid: Id, op: Option<Id>, agreed: bool, now: nat)
    requires StoreInv(s)
    ensures Good(s, CancelTurn(s, sid, tid, op, agreed, now).0)
  {
    GoodSelf(s);
    if sid in s.sessions && tid in s.turns {
      if TurnUri(tid) in s.links {
        var link := s.links[TurnUri(tid)];
        PendingOpGood(s, op, link.host, OpCancelTurn);
        var (s0, key) := OperationKey(s, op);
        var s1 := s0.(ops := RecordPending(s0.ops, key, link.host, OpCancelTurn));
        if SessionUri(sid) in s.links && agreed {
          CancelLinkedGood(s1, sid, tid, key, link, now);
          GoodThen(s, s1, CancelTurn(s, sid, tid, op, agreed, now).0);
        }
      } else {
        var backendTurn := if s.turns[tid].backendTurnId.Some? then s.turns[tid].backendTurnId.value else tid;
        WithdrawGood(s, tid, CANCEL_REASON, now);
        CancelLocalGood(s, sid, tid, backendTurn, now);
      }
    }
  }

  // ---------------------------------------------------------------- requests

  lemma SettleGood(s: State, rid: Id, decision: Decision, response: Option<Json>, reason: Option<string>, now: nat)
    requires StoreInv(s) && rid in s.requests
    ensures Good(s, Settle(s, rid, decision, response, reason, now))
  {
    var s1 := Resolve(s, rid, decision, response, reason, now);
    ResolveGood(s, rid, decision, response, reason, now);
    var sid := s1.requests[rid].sessionId;
    AppendGood(s1, RequestUri(rid), Some(SessionUri(sid)), RequestResolved, FromBroker, JObj(map[]));
    GoodThen(s, s1, Settle(s, rid, decision, response, reason, now));
  }

  lemma ResolveIntentFrame(s: State, rid: Id, op: Option<Id>)
    ensures var s1 := ResolveIntent(s, rid, op).0; s1 == s.(ops := s1.ops, nextId := s1.nextId) && s.nextId <= s1.nextId
  {}

  predicate Settles(s: State, rid: Id, agreed: bool) {
    rid in s.requests && (RequestUri(rid) in s.links ==> agreed)
  }

  lemma ResolveSettles(s: State, rid: Id, decision: Decision, response: Option<Json>, reason: Option<string>, op: Option<Id>, agreed: bool, now: nat)
    requires Settles(s, rid, agreed)
    ensures var s' := ResolveRequest(s, rid, decision, response, reason, op, agreed, now).0;
            var s1 := ResolveIntent(s, rid, op).0;
            s1.requests == s.requests && s' == Settle(s1, rid, decision, response, reason, now).(ops := s'.ops)
  {}

  lemma ResolveRefused(s: State, rid: Id, decision: Decision, response: Option<Json>, reason: Option<string>, op: Option<Id>, agreed: bool, now: nat)
    requires !Settles(s, rid, agreed)
    ensures ResolveRequest(s, rid, decision, response, reason, op, agreed, now).0 == ResolveIntent(s, rid, op).0
  {}

  lemma SettleFrame(s: State, rid: Id, decision: Decision, response: Option<Json>, reason: Option<string>, now: nat)
    requires rid in s.requests
    ensures var s' := Settle(s, rid, decision, response, reason, now);
            && s' == s.(log := s'.log, requests := Decide(s.requests, rid, decision, response, reason, now))
            && s.log <= s'.log && |s'.log| == |s.log| + 1
  {}

  /** `resolve_request` touches only requests, operations, the counter and the log, which grows. */
  lemma ResolveFrame(s: State, rid: Id, decision: Decision, response: Option<Json>, reason: Option<string>, op: Option<Id>, agreed: bool, now: nat)
    ensures var s' := ResolveRequest(s, rid, decision, response, reason, op, agreed, now).0;
            && s' == s.(log := s'.log, requests := s'.requests, ops := s'.ops, nextId := s'.nextId) && s.log <= s'.log
  {
    ResolveIntentFrame(s, rid, op);
    if Settles(s, rid, agreed) {
      ResolveSettles(s, rid, decision, response, reason, op, agreed, now);
      SettleFrame(ResolveIntent(s, rid, op).0, rid, decision, response, reason, now);
    } else {
      ResolveRefused(s, rid, decision, response, reason, op, agreed, now);
    }
  }

  lemma ResolveRequestGood(s: State, rid: Id, decision: Decision, response: Option<Json>, reason: Option<string>, op: Option<Id>, agreed: bool, now: nat)
    requires StoreInv(s)
    ensures Good(s, ResolveRequest(s, rid, decision, response, reason, op, agreed, now).0)
  {
    var s1 := ResolveIntent(s, rid, op).0;
    ResolveIntentFrame(s, rid, op);
    OpsGood(s, s1.ops, s1.nextId);
    if Settles(s, rid, agreed) {
      ResolveSettles(s, rid, decision, response, reason, op, agreed, now);
      var s2 := Settle(s1, rid, decision, response, reason, now);
      SettleGood(s1, rid, decision, response, reason, now);
      GoodThen(s, s1, s2);
      var s3 := ResolveRequest(s, rid, decision, response, reason, op, agreed, now).0;
      OpsGood(s2, s3.ops, s2.nextId);
      GoodThen(s, s2, s3);
    } else {
      ResolveRefused(s, rid, decision, response, reason, op, agreed, now);
    }
  }

  lemma WaitGood(s: State, rid: Id, expired: bool, now: nat)
    requires StoreInv(s)
    ensures Good(s, WaitRound(s, rid, expired, now).0)
  {
    GoodSelf(s);
    ResolveGood(s, rid, Cancel, None, Some(WAIT_TIMEOUT_REASON), now);
  }

  lemma AcknowledgeGood(s: State, session: Option<Id>, selected: Option<Id>)
    requires StoreInv(s)
    ensures Good(s, AcknowledgeTurns(s, session, selected))
  {}

  // ---------------------------------------------------------------- sessions

  lemma UpdateSessionBackendEvolves(s: State, sid: Id, backendSession: Id, status: Status)
    ensures Evolves(s, UpdateSessionBackend(s, sid, backendSession, status))
  {}

  lemma UpdateSessionBackendGood(s: State, sid: Id, backendSession: Id, status: Status)
    requires StoreInv(s) && SessionUri(sid) !in s.links
    ensures Good(s, UpdateSessionBackend(s, sid, backendSession, status))
  {
    UpdateSessionBackendEvolves(s, sid, backendSession, status);
  }

  lemma CreateSessionGood(s: State, backend: Id, answer: Result<Id>)
    requires StoreInv(s)
    ensures Good(s, CreateSession(s, backend, answer).0)
  {
    var sid := s.nextId;
    var row := Session(backend, None, Status.Pending, 0);
    var s1 := InsertSession(s, row);
    InsertSessionGood(s, row);
    var s2 := Append(s1, SessionUri(sid), None, SessionCreated, FromBroker, JObj(map[]));
    AppendGood(s1, SessionUri(sid), None, SessionCreated, FromBroker, JObj(map[]));
    GoodThen(s, s1, s2);
    if answer.Ok? {
      var s3 := UpdateSessionBackend(s2, sid, answer.value, Idle);
      UpdateSessionBackendGood(s2, sid, answer.value, Idle);
      GoodThen(s, s2, s3);
      var s4 := Append(s3, SessionUri(sid), None, SessionStatusChanged, FromBackend(backend), JObj(map[]));
      AppendGood(s3, SessionUri(sid), None, SessionStatusChanged, FromBackend(backend), JObj(map[]));
      GoodThen(s, s3, s4);
      AdvanceSessionGood(s4, sid, Idle);
      GoodThen(s, s4, CreateSession(s, backend, answer).0);
    }
  }

  lemma CloseSessionGood(s: State, sid: Id, status: Status)
    requires StoreInv(s)
    ensures Good(s, CloseSession(s, sid, status))
  {
    if sid in s.sessions {
      var s1 := UpdateSession(s, sid, status, None);
      UpdateSessionGood(s, sid, status, None);
      AppendGood(s1, SessionUri(sid), None, SessionArchived, FromBroker, JObj(map[]));
      GoodThen(s, s1, CloseSession(s, sid, status));
    } else {
      GoodSelf(s);
    }
  }

  // ---------------------------------------------------------------- forwarding

  lemma AddLinkGood(s: State, link: Link, ops: map<OpKey, Operation>)
    requires StoreInv(s) && link.localUri !in s.links && LinkShape(s, link) && link.localId < s.nextId
    requires UpsertLink(s.links, link).Ok?
    ensures Good(s, s.(links := UpsertLink(s.links, link).value, ops := ops))
  {
    AddedLinksOk(s.links, link);
    AddedLinkShapes(s, link, ops);
  }

  lemma AddedLinksOk(links: map<Uri, Link>, link: Link)
    requires LinksOk(links) && UpsertLink(links, link).Ok?
    ensures LinksOk(UpsertLink(links, link).value)
  {}

  lemma AddedLinkShapes(s: State, link: Link, ops: map<OpKey, Operation>)
    requires LinkShape(s, link) && link.localUri !in s.links && forall u :: u in s.links ==> LinkShape(s, s.links[u])
    ensures var s' := s.(links := s.links[link.localUri := link], ops := ops); forall u :: u in s'.links ==> LinkShape(s', s'.links[u])
  {}

  lemma SetCursorGood(s: State, local: Uri, cursor: int)
    requires StoreInv(s)
    ensures Good(s, s.(links := SetLinkCursor(s.links, local, cursor)))
  {
    CursorLinksOk(s.links, local, cursor);
    CursorLinkShapes(s, local, cursor);
  }

  lemma CursorLinksOk(links: map<Uri, Link>, local: Uri, cursor: int)
    requires LinksOk(links)
    ensures LinksOk(SetLinkCursor(links, local, cursor))
  {}

  lemma CursorLinkShapes(s: State, local: Uri, cursor: int)
    requires forall u :: u in s.links ==> LinkShape(s, s.links[u])
    ensures var s' := s.(links := SetLinkCursor(s.links, local, cursor)); forall u :: u in s'.links ==> LinkShape(s', s'.links[u])
  {}

  lemma LinkResourceGood(s: State, link: Link, key: OpKey, kind: OpKind, result: OpResult)
    requires StoreInv(s) && link.localUri !in s.links && LinkShape(s, link) && link.localId < s.nextId
    ensures var r := LinkResource(s, link, key, kind, result); r.Ok? ==> Good(s, r.value)
  {
    if UpsertLink(s.links, link).Ok? {
      AddLinkGood(s, link, RecordApplied(s.ops, key, link.host, kind, link.localUri, result));
    }
  }

  lemma AdoptSessionGood(s: State, remote: RemoteSession)
    requires StoreInv(s)
    ensures Good(s, AdoptSession(s, remote))
  {
    var row := Session(remote.backend, None, remote.status, 0);
    var s1 := InsertSession(s, row);
    InsertSessionGood(s, row);
    var s2 := Append(s1, SessionUri(s.nextId), None, SessionCreated, FromRemoteBroker, JObj(map[]));
    AppendGood(s1, SessionUri(s.nextId), None, SessionCreated, FromRemoteBroker, JObj(map[]));
    GoodThen(s, s1, s2);
    AdvanceSessionGood(s2, s.nextId, remote.status);
    GoodThen(s, s2, AdoptSession(s, remote));
  }

  lemma FreshUnlinked(s: State)
    requires Bounded(s)
    ensures SessionUri(s.nextId) !in s.links && TurnUri(s.nextId) !in s.links && RequestUri(s.nextId) !in s.links
  {}

  lemma CreateRemoteGood(s: State, host: Id, op: Option<Id>, answer: Result<RemoteSession>)
    requires StoreInv(s)
    ensures Good(s, CreateRemote(s, host, op, answer).0)
  {
    GoodSelf(s);
    if AppliedResult(s.ops, op).None? {
      PendingOpGood(s, op, host, OpCreateSession);
      var (s0, key) := OperationKey(s, op);
      var s1 := s0.(ops := RecordPending(s0.ops, key, host, OpCreateSession));
      if answer.Ok? {
        var remote := answer.value;
        var sid := s1.nextId;
        FreshUnlinked(s1);
        var s2 := AdoptSession(s1, remote);
        AdoptSessionGood(s1, remote);
        GoodThen(s, s1, s2);
        var link := Link(SessionUri(sid), SessionLink, sid, host, remote.uri, remote.id, remote.cursor);
        var result := CreateResult(CreateReply(sid, remote.status, LastSeq(s2.log)));
        LinkResourceGood(s2, link, key, OpCreateSession, result);
        if LinkResource(s2, link, key, OpCreateSession, result).Ok? {
          GoodThen(s, s2, CreateRemote(s, host, op, answer).0);
        }
      }
    }
  }

  lemma DegradeGood(s: State, sid: Id, tid: Id)
    requires StoreInv(s) && sid < s.nextId && tid < s.nextId
    ensures Good(s, DegradeTurn(s, sid, tid))
  {
    var s1 := UpdateTurn(s, tid, None, Degraded, true);
    UpdateTurnGood(s, tid, None, Degraded, true);
    var s2 := UpdateSession(s1, sid, Degraded, Some(LastSeq(s.log)));
    AdvanceSessionGood(s1, sid, Degraded);
    GoodThen(s, s1, s2);
    AppendGood(s2, TurnUri(tid), Some(SessionUri(sid)), TurnDegraded, FromRemoteBroker, JObj(map[]));
    GoodThen(s, s2, DegradeTurn(s, sid, tid));
  }

  lemma ForwardTurnGood(s: State, sid: Id, host: Id, message: string, key: OpKey, answer: Result<RemoteTurn>)
    requires StoreInv(s) && SessionUri(sid) in s.links && sid in s.sessions
    ensures Good(s, ForwardTurn(s, sid, host, message, key, answer).0)
  {
    var tid := s.nextId;
    FreshUnlinked(s);
    var s1 := OpenTurn(s, sid, message, FromRemoteBroker);
    OpenTurnGood(s, sid, message, FromRemoteBroker);
    match answer
    case Err(_) =>
      DegradeGood(s1, sid, tid);
      GoodThen(s, s1, DegradeTurn(s1, sid, tid));
    case Ok(remote) =>
      var link := Link(TurnUri(tid), TurnLink, tid, host, remote.uri, remote.id, 0);
      var result := SendResult(SendReply(tid, Running, LastSeq(s1.log)));
      LinkResourceGood(s1, link, key, OpSendMessage, result);
      var linked := LinkResource(s1, link, key, OpSendMessage, result);
      if linked.Ok? {
        GoodThen(s, s1, linked.value);
        SetCursorGood(linked.value, SessionUri(sid), remote.cursor);
        GoodThen(s, linked.value, ForwardTurn(s, sid, host, message, key, answer).0);
      }
  }

  lemma SendRemoteGood(s: State, sid: Id, message: string, op: Option<Id>, answer: Result<RemoteTurn>)
    requires StoreInv(s) && SessionUri(sid) in s.links && sid in s.sessions
    ensures Good(s, SendRemote(s, sid, message, op, answer).0)
  {
    GoodSelf(s);
    if AppliedResult(s.ops, op).None? {
      var host := s.links[SessionUri(sid)].host;
      PendingOpGood(s, op, host, OpSendMessage);
      var (s0, key) := OperationKey(s, op);
      var s1 := s0.(ops := RecordPending(s0.ops, key, host, OpSendMessage));
      ForwardTurnGood(s1, sid, host, message, key, answer);
      GoodThen(s, s1, SendRemote(s, sid, message, op, answer).0);
    }
  }

  lemma SendMessageGood(s: State, sid: Id, message: string, op: Option<Id>, answer: Result<RemoteTurn>)
    requires StoreInv(s)
    ensures Good(s, SendMessage(s, sid, message, op, answer).0)
  {
    GoodSelf(s);
    if sid in s.sessions {
      if SessionUri(sid) in s.links {
        SendRemoteGood(s, sid, message, op, answer);
      } else if s.sessions[sid].backendSessionId.Some? {
        OpenTurnGood(s, sid, message, FromBroker);
      }
    }
  }

  // ---------------------------------------------------------------- mirroring

  lemma ByRemoteRow(links: map<Uri, Link>, host: Id, remote: Uri)
    requires LinksOk(links)
    ensures match ByRemote(links, host, remote)
            case Some(link) => link.localUri in links && links[link.localUri] == link && link.host == host && link.remoteUri == remote
            case None => forall u :: u in links ==> !(links[u].host == host && links[u].remoteUri == remote)
  {
    if ByRemote(links, host, remote).None? {
      forall u | u in links ensures !IsRemote(links, host, remote, u) {}
    }
  }

  lemma MirroredRowsGood(s: State, sid: Id, tid: Id, remoteTurn: Id, turnStatus: Status, sessionStatus: Status)
    requires StoreInv(s)
    ensures Good(s, UpdateSession(UpdateTurn(s, tid, Some(remoteTurn), turnStatus, true), sid, sessionStatus, Some(LastSeq(s.log))))
  {
    var s1 := UpdateTurn(s, tid, Some(remoteTurn), turnStatus, true);
    UpdateTurnGood(s, tid, Some(remoteTurn), turnStatus, true);
    AdvanceSessionGood(s1, sid, sessionStatus);
    GoodThen(s, s1, UpdateSession(s1, sid, sessionStatus, Some(LastSeq(s.log))));
  }

  lemma ApplyMirroredGood(s: State, sid: Id, link: Option<Link>, eventType: EventType)
    requires StoreInv(s)
    ensures Good(s, ApplyMirrored(s, sid, link, eventType))
  {
    if link.Some? && MirroredStatus(eventType).Some? && link.value.kind == TurnLink {
      var (turnStatus, sessionStatus) := MirroredStatus(eventType).value;
      MirroredRowsGood(s, sid, link.value.localId, link.value.remoteId, turnStatus, sessionStatus);
    } else {
      GoodSelf(s);
    }
  }

  lemma LinkedRequestGood(s: State, link: Link, parent: Uri, host: Id, payload: Json)
    requires StoreInv(s) && link.localUri == RequestUri(link.localId) && link.kind == RequestLink && link.localId in s.requests
    requires link.localUri !in s.links && UpsertLink(s.links, link).Ok? && UriBelow(parent, s.nextId)
    ensures Good(s, Append(s.(links := UpsertLink(s.links, link).value), link.localUri, Some(parent), RequestCreated, FromRemote(host), payload))
  {
    AddLinkGood(s, link, s.ops);
    var s1 := s.(links := UpsertLink(s.links, link).value);
    assert s1 == s1.(ops := s.ops);
    AppendGood(s1, link.localUri, Some(parent), RequestCreated, FromRemote(host), payload);
    GoodThen(s, s1, Append(s1, link.localUri, Some(parent), RequestCreated, FromRemote(host), payload));
  }

  lemma AdoptRequestGood(s: State, host: Id, sid: Id, parent: Link, e: Event)
    requires StoreInv(s) && sid < s.nextId && UriBelow(parent.localUri, s.nextId)
    ensures Good(s, AdoptRequest(s, host, sid, parent, e).0)
  {
    var rid := s.nextId;
    FreshUnlinked(s);
    var row := NewRequest(sid, Some(parent.localId), RequestKindOf(e.payload), e.payload);
    var s1 := InsertRequest(s, row);
    InsertRequestGood(s, row);
    var link := Link(RequestUri(rid), RequestLink, rid, host, e.resource, if e.resource.RootUri? then 0 else e.resource.id, 0);
    if UpsertLink(s1.links, link).Ok? {
      LinkedRequestGood(s1, link, parent.localUri, host, e.payload);
      GoodThen(s, s1, AdoptRequest(s, host, sid, parent, e).0);
    }
  }

  lemma MirrorGood(s: State, host: Id, sid: Id, e: Event)
    requires StoreInv(s) && sid in s.sessions
    ensures Good(s, Mirror(s, host, sid, e).0)
  {
    GoodSelf(s);
    ByRemoteRow(s.links, host, e.resource);
    if e.parent.Some? { ByRemoteRow(s.links, host, e.parent.value); }
    var resourceLink := ByRemote(s.links, host, e.resource);
    var parentLink := RemoteParent(s.links, host, e);
    if e.eventType == RequestCreated {
      if parentLink.Some? && resourceLink.None? {
        AdoptRequestGood(s, host, sid, parentLink.value, e);
      }
    } else {
      var resource, parent := UriOr(resourceLink, SessionUri(sid)), UriOr(parentLink, SessionUri(sid));
      var s1 := Append(s, resource, Some(parent), e.eventType, FromRemote(host), e.payload);
      AppendGood(s, resource, Some(parent), e.eventType, FromRemote(host), e.payload);
      ApplyMirroredGood(s1, sid, resourceLink, e.eventType);
      GoodThen(s, s1, Mirror(s, host, sid, e).0);
    }
  }
}

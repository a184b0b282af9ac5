/** The broker as the program has it: operations that change the store step by step. Each method is
    proved to do to the store what the functions of `BrokerModel` and `Federation` say. */
module BrokerService {
  import opened Types
  import opened Vocabulary
  import opened Wrappers
  import opened EventLog
  import opened StoreModel
  import opened BrokerModel
  import opened BrokerInvariants
  import opened BrokerSteps
  import opened BrokerRuns
  import opened Effects
  import opened Outcomes
  import opened Federation
  import L = LatestOutput
  import opened Recovery
  import opened SqlStore

  datatype Freshness = Fresh | StaleUnavailable | StaleReconcileFailed

  /** The reply of a remote `read_events`. */
  datatype RemoteRead = RemoteRead(events: seq<Event>, nextCursor: int)

  function LinkedUriOr(link: Option<Link>, default: Uri): Uri {
    match link
    case Some(row) => row.localUri
    case None => default
  }

  class Broker {
    const store: Store

    constructor (store: Store)
      ensures this.store == store
    {
      this.store := store;
    }

    // -------------------------------------------------------------- sessions

    method CreateSession(backend: Id, answer: Result<Id>) returns (reply: Result<CreateReply>)
      modifies store
      ensures (store.Contents(), reply) == BrokerModel.CreateSession(old(store.Contents()), backend, answer)
      ensures StoreInv(old(store.Contents())) ==>
                SessionOpened(old(store.Contents()), store.Contents(), backend, answer, reply) && Good(old(store.Contents()), store.Contents())
    {
      if StoreInv(store.Contents()) { CreateEffects(store.Contents(), backend, answer); }
      var sid := store.AddSession(Session(backend, None, Status.Pending, 0));
      var created := store.AppendEvent(SessionUri(sid), None, SessionCreated, FromBroker, JObj(map[]));
      match answer {
        case Err(error) => return Err(error);
        case Ok(backendSession) =>
          store.UpdateBackendSession(sid, backendSession, Idle);
          var changed := store.AppendEvent(SessionUri(sid), None, SessionStatusChanged, FromBackend(backend), JObj(map[]));
          store.UpdateSessionStatus(sid, Idle, Some(changed));
          return Ok(CreateReply(sid, Idle, if changed < created then created else changed));
      }
    }

    method CloseSession(sid: Id, status: Status) returns (result: Result<()>)
      modifies store
      ensures store.Contents() == BrokerModel.CloseSession(old(store.Contents()), sid, status)
      ensures result.Ok? <==> sid in old(store.sessions)
      ensures SessionClosed(old(store.Contents()), store.Contents(), sid, status)
    {
      CloseSessionEffects(store.Contents(), sid, status);
      if sid !in store.sessions { return Err(NotFound); }
      store.UpdateSessionStatus(sid, status, None);
      var _ := store.AppendEvent(SessionUri(sid), None, SessionArchived, FromBroker, JObj(map[]));
      result := Ok(());
    }

    // -------------------------------------------------------------- turns

    method OpenTurn(sid: Id, message: string, origin: Origin) returns (tid: Id, started: int)
      modifies store
      ensures store.Contents() == BrokerModel.OpenTurn(old(store.Contents()), sid, message, origin)
      ensures tid == old(store.nextId) && started == LastSeq(store.log)
    {
      tid := store.AddTurn(Turn(sid, None, Running, false));
      var queued := store.AppendEvent(TurnUri(tid), Some(SessionUri(sid)), TurnQueued, origin, JObj(map["message" := JStr(message)]));
      started := store.AppendEvent(TurnUri(tid), Some(SessionUri(sid)), TurnStarted, origin, JObj(map[]));
      store.UpdateSessionStatus(sid, Running, Some(started));
      started := if started < queued then queued else started;
    }

    method IngestBackendEvent(sid: Id, backend: Id, tid: Id, event: BackendEvent) returns (serverSeq: int)
      modifies store
      ensures store.Contents() == Ingest(old(store.Contents()), sid, backend, tid, event)
      ensures serverSeq == LastSeq(store.log) && |store.log| == |old(store.log)| + 1
      ensures Bounded(old(store.Contents())) ==> EventIngested(old(store.Contents()), store.Contents(), sid, backend, tid, event)
    {
      if Bounded(store.Contents()) { IngestEffects(store.Contents(), sid, backend, tid, event); }
      if event.eventType == RequestCreated {
        var rid := store.AddRequest(NewRequest(sid, Some(tid), RequestKindOf(event.payload), event.payload));
        serverSeq := store.AppendEvent(RequestUri(rid), Some(TurnUri(tid)), RequestCreated, FromBackend(backend), event.payload);
      } else {
        serverSeq := store.AppendEvent(TurnUri(tid), Some(SessionUri(sid)), event.eventType, FromBackend(backend), event.payload);
      }
    }

    /** The loop of `finalize_backend_turn`. */
    method IngestReturned(sid: Id, backend: Id, tid: Id, events: seq<BackendEvent>, terminal: Option<EventType>, latestSeq: int)
      returns (latest: int, sawTerminal: bool)
      modifies store
      ensures store.Contents() == IngestAll(old(store.Contents()), sid, backend, tid, events)
      ensures sawTerminal <==> terminal.Some? && HasType(events, terminal.value)
      ensures latest == (if events == [] then latestSeq else LastSeq(store.log)) && |store.log| == |old(store.log)| + |events|
    {
      ghost var s := store.Contents();
      latest, sawTerminal := latestSeq, false;
      var i := 0;
      while i < |events|
        invariant 0 <= i <= |events|
        invariant store.Contents() == IngestAll(s, sid, backend, tid, events[..i])
        invariant sawTerminal <==> terminal.Some? && HasType(events[..i], terminal.value)
        invariant latest == if i == 0 then latestSeq else LastSeq(store.log)
        invariant |store.log| == |s.log| + i
      {
        assert events[..i + 1][..i] == events[..i];
        assert events[..i + 1] == events[..i] + [events[i]];
        sawTerminal := sawTerminal || terminal == Some(events[i].eventType);
        latest := IngestBackendEvent(sid, backend, tid, events[i]);
        i := i + 1;
      }
      assert events[..|events|] == events;
    }

    method FinalizeBackendTurn(sid: Id, backend: Id, tid: Id, turn: BackendTurn, latestSeq: int)
      modifies store
      ensures store.Contents() == Finalize(old(store.Contents()), sid, backend, tid, turn, latestSeq)
    {
      var terminal := TerminalType(turn.status);
      var latest, sawTerminal := IngestReturned(sid, backend, tid, turn.events, terminal, latestSeq);
      if terminal.Some? && !sawTerminal {
        latest := store.AppendEvent(TurnUri(tid), Some(SessionUri(sid)), terminal.value, FromBackend(backend), JObj(map[]));
      }
      store.UpdateTurnStatus(tid, Some(turn.backendTurnId), turn.status, terminal.Some?);
      store.UpdateSessionStatus(sid, if turn.status == Completed || turn.status == Status.Cancelled then Idle else turn.status, Some(latest));
    }

    method FailBackendTurn(sid: Id, backend: Id, tid: Id, summary: string)
      modifies store
      ensures store.Contents() == FailTurn(old(store.Contents()), sid, backend, tid, summary)
      ensures FailureStored(old(store.Contents()), store.Contents(), sid, backend, tid, summary)
    {
      FailEffects(store.Contents(), sid, backend, tid, summary);
      var failed := store.AppendEvent(TurnUri(tid), Some(SessionUri(sid)), TurnFailed, FromBackend(backend), Note(summary));
      store.UpdateTurnStatus(tid, None, Failed, true);
      store.UpdateSessionStatus(sid, Idle, Some(failed));
    }

    method CancelPendingRequests(tid: Id, reason: string, now: nat)
      requires Bounded(store.Contents())
      modifies store
      ensures store.Contents() == WithdrawRequests(old(store.Contents()), tid, reason, now)
    {
      var withdrawn := store.CancelPendingRequests(tid, reason, now);
      ghost var s := store.Contents();
      var i := 0;
      while i < |withdrawn|
        invariant 0 <= i <= |withdrawn|
        invariant store.Contents() == LogWithdrawals(s, withdrawn[..i], TurnUri(tid), reason)
      {
        assert withdrawn[..i + 1][..i] == withdrawn[..i];
        var _ := store.AppendEvent(RequestUri(withdrawn[i]), Some(TurnUri(tid)), RequestCancelled, FromBroker, Reason(reason));
        i := i + 1;
      }
      assert withdrawn[..|withdrawn|] == withdrawn;
    }

    method MarkTurnInterrupted(tid: Id, summary: string, now: nat) returns (result: Result<()>)
      requires Bounded(store.Contents())
      modifies store
      ensures store.Contents() == Interrupt(old(store.Contents()), tid, summary, now)
      ensures result.Ok? <==> tid in old(store.turns)
    {
      var interrupted := store.MarkTurnInterrupted(tid);
      if interrupted.Err? { return Err(interrupted.error); }
      var sid := interrupted.value.sessionId;
      CancelPendingRequests(tid, summary, now);
      var failed := store.AppendEvent(TurnUri(tid), Some(SessionUri(sid)), TurnFailed, FromBroker, Note(summary));
      store.UpdateSessionStatus(sid, Idle, Some(failed));
      result := Ok(());
    }

    method CloseCancelledTurn(sid: Id, tid: Id, backendTurn: Id, origin: Origin)
      modifies store
      ensures store.Contents() == CloseCancelled(old(store.Contents()), sid, tid, backendTurn, origin)
    {
      store.UpdateTurnStatus(tid, Some(backendTurn), Status.Cancelled, true);
      var cancelled := store.AppendEvent(TurnUri(tid), Some(SessionUri(sid)), TurnCancelled, origin, JObj(map[]));
      store.UpdateSessionStatus(sid, Idle, Some(cancelled));
    }

    method OperationId(op: Option<Id>) returns (key: OpKey)
      modifies store
      ensures (store.Contents(), key) == OperationKey(old(store.Contents()), op)
    {
      if op.Some? { return Given(op.value); }
      key := store.MintOperationId();
    }

    method RecordOperationPending(key: OpKey, host: Id, kind: OpKind)
      modifies store
      ensures store.Contents() == old(store.Contents()).(ops := RecordPending(old(store.ops), key, host, kind))
    {
      store.UpsertForwardedOperation(key, Operation(host, kind, OpPending, None, None));
    }

    method RecordOperationApplied(key: OpKey, host: Id, kind: OpKind, local: Uri, result: OpResult)
      modifies store
      ensures store.Contents() == old(store.Contents()).(ops := RecordApplied(old(store.ops), key, host, kind, local, result))
    {
      var found := store.GetForwardedOperation(key);
      var op := if found.Some? then found.value else Operation(host, kind, OpPending, None, None);
      store.UpsertForwardedOperation(key, op.(status := OpApplied, localUri := Some(local), result := Some(result)));
    }

    /** Without a turn id, the session's newest active turn is cancelled. */
    method CancelTurn(sid: Id, selected: Option<Id>, op: Option<Id>, agreed: bool, now: nat) returns (result: Result<Id>)
      requires StoreInv(store.Contents())
      modifies store
      ensures selected.Some? ==> (store.Contents(), result) == BrokerModel.CancelTurn(old(store.Contents()), sid, selected.value, op, agreed, now)
      ensures selected.None? && (sid !in old(store.sessions) || !HasUnfinished(old(store.turns), sid)) ==>
                store.Contents() == old(store.Contents()) && result.Err?
      ensures selected.None? && sid in old(store.sessions) && HasUnfinished(old(store.turns), sid) ==>
                exists t :: NewestUnfinished(old(store.turns), sid, t) &&
                  (store.Contents(), result) == BrokerModel.CancelTurn(old(store.Contents()), sid, t, op, agreed, now)
    {
      if sid !in store.sessions { return Err(NotFound); }
      var active := selected;
      if selected.None? {
        active := store.ActiveTurnForSession(sid);
        if active.None? { return Err(InvalidState); }
      }
      result := CancelKnownTurn(sid, active.value, op, agreed, now);
    }

    method CancelKnownTurn(sid: Id, tid: Id, op: Option<Id>, agreed: bool, now: nat) returns (result: Result<Id>)
      requires StoreInv(store.Contents())
      modifies store
      ensures (store.Contents(), result) == BrokerModel.CancelTurn(old(store.Contents()), sid, tid, op, agreed, now)
    {
      if sid !in store.sessions || tid !in store.turns { return Err(NotFound); }
      var turnLink := store.LinkByLocal(TurnUri(tid));
      if turnLink.Some? {
        var sessionLink := store.LinkByLocal(SessionUri(sid));
        if sessionLink.None? { return Err(InvalidState); }
        var key := OperationId(op);
        RecordOperationPending(key, turnLink.value.host, OpCancelTurn);
        if !agreed { return Err(RemoteFailure); }
        CancelPendingRequests(tid, CANCEL_REASON, now);
        CloseCancelledTurn(sid, tid, turnLink.value.remoteId, FromRemoteBroker);
        RecordOperationApplied(key, turnLink.value.host, OpCancelTurn, TurnUri(tid), OtherResult);
        return Ok(tid);
      }
      if store.sessions[sid].backendSessionId.None? { return Err(InvalidState); }
      var backendTurn := if store.turns[tid].backendTurnId.Some? then store.turns[tid].backendTurnId.value else tid;
      CancelPendingRequests(tid, CANCEL_REASON, now);
      if !agreed { return Err(BackendFailure); }
      CloseCancelledTurn(sid, tid, backendTurn, FromBroker);
      result := Ok(tid);
    }

    // -------------------------------------------------------------- messages and forwarding

    /** `applied_operation_result`. */
    method AppliedOperationResult(op: Option<Id>) returns (result: Option<OpResult>)
      ensures result == AppliedResult(store.ops, op)
    {
      if op.None? { return None; }
      var operation := store.GetForwardedOperation(Given(op.value));
      if operation.None? || operation.value.status != OpApplied { return None; }
      result := operation.value.result;
    }

    method InsertRemoteLink(link: Link, key: OpKey, kind: OpKind, result: OpResult) returns (ok: bool)
      modifies store
      ensures ok == LinkResource(old(store.Contents()), link, key, kind, result).Ok?
      ensures store.Contents() == if ok then LinkResource(old(store.Contents()), link, key, kind, result).value else old(store.Contents())
    {
      ok := store.UpsertResourceLink(link);
      if ok { RecordOperationApplied(key, link.host, kind, link.localUri, result); }
    }

    method DegradeForwardedTurn(sid: Id, tid: Id, started: int)
      requires started == LastSeq(store.log)
      modifies store
      ensures store.Contents() == DegradeTurn(old(store.Contents()), sid, tid)
    {
      store.UpdateTurnStatus(tid, None, Degraded, true);
      store.UpdateSessionStatus(sid, Degraded, Some(started));
      var _ := store.AppendEvent(TurnUri(tid), Some(SessionUri(sid)), TurnDegraded, FromRemoteBroker, JObj(map[]));
    }

    method ForwardMessage(sid: Id, host: Id, message: string, key: OpKey, answer: Result<RemoteTurn>) returns (reply: Result<SendReply>)
      modifies store
      ensures (store.Contents(), reply) == ForwardTurn(old(store.Contents()), sid, host, message, key, answer)
    {
      var tid, started := OpenTurn(sid, message, FromRemoteBroker);
      match answer {
        case Err(error) =>
          DegradeForwardedTurn(sid, tid, started);
          return Err(error);
        case Ok(remote) =>
          var sent := SendReply(tid, Running, started);
          var ok := store.UpsertResourceLink(Link(TurnUri(tid), TurnLink, tid, host, remote.uri, remote.id, 0));
          if !ok { return Err(Conflict); }
          store.UpdateLinkCursor(SessionUri(sid), remote.cursor);
          RecordOperationApplied(key, host, OpSendMessage, TurnUri(tid), SendResult(sent));
          return Ok(sent);
      }
    }

    method SendRemoteMessage(sid: Id, message: string, op: Option<Id>, answer: Result<RemoteTurn>) returns (reply: Result<SendReply>)
      requires SessionUri(sid) in store.links
      modifies store
      ensures (store.Contents(), reply) == SendRemote(old(store.Contents()), sid, message, op, answer)
    {
      var earlier := AppliedOperationResult(op);
      if earlier.Some? {
        return if earlier.value.SendResult? then Ok(earlier.value.send) else Err(InvalidState);
      }
      var host := store.links[SessionUri(sid)].host;
      var key := OperationId(op);
      RecordOperationPending(key, host, OpSendMessage);
      reply := ForwardMessage(sid, host, message, key, answer);
    }

    method SendMessage(sid: Id, message: string, op: Option<Id>, answer: Result<RemoteTurn>) returns (reply: Result<SendReply>)
      modifies store
      ensures (store.Contents(), reply) == BrokerModel.SendMessage(old(store.Contents()), sid, message, op, answer)
    {
      if sid !in store.sessions { return Err(NotFound); }
      var link := store.LinkByLocal(SessionUri(sid));
      if link.Some? {
        reply := SendRemoteMessage(sid, message, op, answer);
        return;
      }
      if store.sessions[sid].backendSessionId.None? { return Err(InvalidState); }
      var tid, started := OpenTurn(sid, message, FromBroker);
      reply := Ok(SendReply(tid, Running, started));
    }

    method AdoptRemoteSession(remote: RemoteSession) returns (sid: Id, created: int)
      modifies store
      ensures store.Contents() == AdoptSession(old(store.Contents()), remote)
      ensures sid == old(store.nextId) && created == LastSeq(store.log)
    {
      sid := store.AddSession(Session(remote.backend, None, remote.status, 0));
      created := store.AppendEvent(SessionUri(sid), None, SessionCreated, FromRemoteBroker, JObj(map[]));
      store.UpdateSessionStatus(sid, remote.status, Some(created));
    }

    method CreateRemoteSession(host: Id, op: Option<Id>, answer: Result<RemoteSession>) returns (reply: Result<CreateReply>)
      modifies store
      ensures (store.Contents(), reply) == CreateRemote(old(store.Contents()), host, op, answer)
    {
      var earlier := AppliedOperationResult(op);
      if earlier.Some? {
        return if earlier.value.CreateResult? then Ok(earlier.value.create) else Err(InvalidState);
      }
      var key := OperationId(op);
      RecordOperationPending(key, host, OpCreateSession);
      if answer.Err? { return Err(answer.error); }
      var remote := answer.value;
      var sid, created := AdoptRemoteSession(remote);
      var adopted := CreateReply(sid, remote.status, created);
      var ok := InsertRemoteLink(Link(SessionUri(sid), SessionLink, sid, host, remote.uri, remote.id, remote.cursor), key, OpCreateSession, CreateResult(adopted));
      reply := if ok then Ok(adopted) else Err(Conflict);
    }

    // -------------------------------------------------------------- requests

    /** Records the operation before the decision is forwarded; a local request needs no record yet. */
    method PrepareResolution(rid: Id, op: Option<Id>) returns (host: Id, applied: Option<OpKey>, linked: bool)
      modifies store
      ensures (store.Contents(), applied) == ResolveIntent(old(store.Contents()), rid, op)
      ensures host == RequestHost(old(store.Contents()), rid) && linked == (RequestUri(rid) in old(store.links))
    {
      host, linked := LOCAL_HOST, false;
      applied := if op.Some? then Some(Given(op.value)) else None;
      var link := store.LinkByLocal(RequestUri(rid));
      if link.Some? {
        host, linked := link.value.host, true;
        var key := OperationId(op);
        applied := Some(key);
        RecordOperationPending(key, host, OpResolveRequest);
      }
    }

    method SettleRequest(rid: Id, decision: Decision, response: Option<Json>, reason: Option<string>, now: nat) returns (result: Result<Request>)
      modifies store
      ensures rid in old(store.requests) ==>
                && store.Contents() == Settle(old(store.Contents()), rid, decision, response, reason, now)
                && result == Ok(store.requests[rid])
      ensures rid !in old(store.requests) ==> store.Contents() == old(store.Contents()) && result == Err(NotFound)
    {
      result := store.ResolveRequest(rid, decision, response, reason, now);
      if result.Ok? {
        var _ := store.AppendEvent(RequestUri(rid), Some(SessionUri(result.value.sessionId)), RequestResolved, FromBroker, JObj(map[]));
      }
    }

    method ResolveRequest(rid: Id, decision: Decision, response: Option<Json>, reason: Option<string>, op: Option<Id>, agreed: bool, now: nat)
      returns (result: Result<Request>)
      modifies store
      ensures (store.Contents(), result) ==
              BrokerModel.ResolveRequest(old(store.Contents()), rid, decision, response, reason, op, agreed, now)
    {
      var host, applied, linked := PrepareResolution(rid, op);
      if linked && !agreed { return Err(RemoteFailure); }
      result := SettleRequest(rid, decision, response, reason, now);
      if result.Ok? && applied.Some? {
        RecordOperationApplied(applied.value, host, OpResolveRequest, RequestUri(rid), OtherResult);
      }
    }

    // -------------------------------------------------------------- reading

    /** One round of `read_events`: cursor and limit default to 0 and 100. */
    method ReadEvents(target: Option<Uri>, cursor: Option<int>, limit: Option<nat>, types: seq<EventType>)
      returns (events: seq<Event>, nextCursor: int)
      ensures var from := if cursor.Some? then cursor.value else 0;
              && events == Page(store.log, target, from, if limit.Some? then limit.value else 100, types)
              && nextCursor == NextCursor(events, from)
    {
      var from := if cursor.Some? then cursor.value else 0;
      events := store.ReadEvents(target, from, if limit.Some? then limit.value else 100, types);
      nextCursor := if events != [] then events[|events| - 1].serverSeq else from;
    }

    /** The latest output of a turn, from the last 500 events of its view. */
    method GetLatestOutput(sid: Id, tid: Id) returns (result: Result<L.Output>)
      requires LogOk(store.log)
      ensures result.Err? <==> sid !in store.sessions || tid !in store.turns || store.turns[tid].sessionId != sid
      ensures result == Err(InvalidInput) <==> sid in store.sessions && tid in store.turns && store.turns[tid].sessionId != sid
      ensures result.Ok? ==>
                var events := Recent(store.log, TurnUri(tid), 500);
                && result.value == L.OutputOf(store.sessions[sid].latestCursor, events)
                && L.RightOutput(events, store.sessions[sid].latestCursor, result.value)
                && (!result.value.needsInspection ==>
                      result.value.sourceEvent.value in store.log && About(result.value.sourceEvent.value, Some(TurnUri(tid))))
    {
      if sid !in store.sessions || tid !in store.turns { return Err(NotFound); }
      if store.turns[tid].sessionId != sid { return Err(InvalidInput); }
      var events := store.ReadRecentEvents(TurnUri(tid), 500);
      var output := L.OutputOf(store.sessions[sid].latestCursor, events);
      L.RecentAscending(store.log, TurnUri(tid), 500);
      L.LatestOutputIsRight(store.sessions[sid].latestCursor, events);
      if !output.needsInspection { L.RecentIsSuffix(store.log, TurnUri(tid), 500, output.sourceEvent.value); }
      result := Ok(output);
    }

    /** Clears the unread flags the most specific selector names. */
    method AckInbox(session: Option<Id>, selected: Option<Id>, all: bool) returns (result: Result<nat>)
      modifies store
      ensures result.Err? <==> session.None? && selected.None? && !all
      ensures result.Err? ==> store.Contents() == old(store.Contents())
      ensures result.Ok? ==>
                var acknowledged := AcknowledgeTurns(old(store.Contents()), session, selected);
                store.Contents() == Append(acknowledged, RootUri, None, InboxAcknowledged, FromBroker, JObj(map[]))
      ensures result.Ok? ==> result.value == |Cleared(old(store.turns), store.turns)|
      ensures store.turns.Keys == old(store.turns).Keys
      ensures result.Ok? ==> forall t :: t in store.turns ==>
                store.turns[t] == if Named(t, old(store.turns)[t], session, selected) then old(store.turns)[t].(unread := false) else old(store.turns)[t]
    {
      var acknowledged := store.AcknowledgeInboxTurns(session, selected, all);
      if acknowledged.Err? { return Err(acknowledged.error); }
      var _ := store.AppendEvent(RootUri, None, InboxAcknowledged, FromBroker, JObj(map[]));
      result := acknowledged;
    }

    // -------------------------------------------------------------- mirroring

    method MirrorRemoteEvent(host: Id, sid: Id, event: Event) returns (result: Result<()>)
      requires LinksOk(store.links)
      modifies store
      ensures (store.Contents(), result) == Mirror(old(store.Contents()), host, sid, event)
      ensures event.eventType != RequestCreated ==> result == Ok(()) && EventMirrored(old(store.Contents()), store.Contents(), host, sid, event)
      ensures event.eventType == RequestCreated && StoreInv(old(store.Contents())) ==>
                RequestMirrored(old(store.Contents()), store.Contents(), result, host, sid, event)
    {
      MirroredRight(store.Contents(), host, sid, event);
      var resourceLink := store.LinkByRemote(host, event.resource);
      var parentLink: Option<Link> := None;
      if event.parent.Some? { parentLink := store.LinkByRemote(host, event.parent.value); }
      if event.eventType == RequestCreated {
        if parentLink.None? { return Err(InvalidState); }
        if resourceLink.None? { result := MirrorRequest(host, sid, parentLink.value, event); } else { result := Ok(()); }
        return;
      }
      var resource := LinkedUriOr(resourceLink, SessionUri(sid));
      var parent := LinkedUriOr(parentLink, SessionUri(sid));
      var stored := store.AppendEvent(resource, Some(parent), event.eventType, FromRemote(host), event.payload);
      if resourceLink.Some? && resourceLink.value.kind == TurnLink {
        MirrorTurnEvent(sid, resourceLink.value, event.eventType, stored);
      }
      result := Ok(());
    }

    method MirrorTurnEvent(sid: Id, turn: Link, eventType: EventType, stored: int)
      requires turn.kind == TurnLink && stored == LastSeq(store.log)
      modifies store
      ensures store.Contents() == ApplyMirrored(old(store.Contents()), sid, Some(turn), eventType)
    {
      match eventType {
        case TurnCompleted => MirrorStatus(sid, turn, Completed, Idle, stored);
        case TurnFailed => MirrorStatus(sid, turn, Failed, Idle, stored);
        case TurnCancelled => MirrorStatus(sid, turn, Status.Cancelled, Idle, stored);
        case TurnNeedsInput => MirrorStatus(sid, turn, NeedsInput, NeedsInput, stored);
        case _ =>
      }
    }

    method MirrorStatus(sid: Id, turn: Link, turnStatus: Status, sessionStatus: Status, stored: int)
      modifies store
      ensures store.Contents() ==
              UpdateSession(UpdateTurn(old(store.Contents()), turn.localId, Some(turn.remoteId), turnStatus, true), sid, sessionStatus, Some(stored))
    {
      store.UpdateTurnStatus(turn.localId, Some(turn.remoteId), turnStatus, true);
      store.UpdateSessionStatus(sid, sessionStatus, Some(stored));
    }

    method MirrorRequest(host: Id, sid: Id, parent: Link, event: Event) returns (result: Result<()>)
      requires event.eventType == RequestCreated
      modifies store
      ensures (store.Contents(), result) == AdoptRequest(old(store.Contents()), host, sid, parent, event)
    {
      var rid := store.AddRequest(NewRequest(sid, Some(parent.localId), RequestKindOf(event.payload), event.payload));
      var remoteId := if event.resource.RootUri? then 0 else event.resource.id;
      var ok := store.UpsertResourceLink(Link(RequestUri(rid), RequestLink, rid, host, event.resource, remoteId, 0));
      if !ok { return Err(Conflict); }
      var _ := store.AppendEvent(RequestUri(rid), Some(parent.localUri), event.eventType, FromRemote(host), event.payload);
      result := Ok(());
    }

    /** Mirrors the events in order, stopping at the first that fails. */
    method MirrorEvents(host: Id, sid: Id, events: seq<Event>) returns (ok: bool)
      requires StoreInv(store.Contents()) && sid in store.sessions
      modifies store
      ensures (store.Contents(), ok) == MirrorAll(old(store.Contents()), host, sid, events)
      ensures StoreInv(store.Contents())
    {
      ghost var s := store.Contents();
      var i := 0;
      while i < |events|
        invariant 0 <= i <= |events|
        invariant StoreInv(store.Contents()) && sid in store.sessions
        invariant MirrorAll(s, host, sid, events[..i]) == (store.Contents(), true)
      {
        MirrorAllNext(s, store.Contents(), host, sid, events, i);
        var mirrored := MirrorRemoteEvent(host, sid, events[i]);
        i := i + 1;
        if mirrored.Err? {
          MirrorAllStops(s, host, sid, events, i);
          return false;
        }
      }
      assert events[..|events|] == events;
      ok := true;
    }

    /** Mirrors what the remote broker answered, or logs the `problem` if it did not. A failure midway leaves
        the cursor where it was. */
    method SyncRemoteSessionEvents(sid: Id, answer: Result<RemoteRead>, problem: string) returns (freshness: Option<Freshness>)
      requires StoreInv(store.Contents())
      modifies store
      ensures StoreInv(store.Contents())
      ensures sid in old(store.sessions) && SessionUri(sid) in old(store.links) && answer.Ok? ==>
                && store.Contents() == ApplyPage(old(store.Contents()), old(store.links)[SessionUri(sid)].host, sid, answer.value.events, answer.value.nextCursor)
                && (freshness == Some(Fresh) || freshness == Some(StaleReconcileFailed))
                && PageApplied(old(store.Contents()), store.Contents(), old(store.links)[SessionUri(sid)].host, sid,
                               answer.value.events, answer.value.nextCursor, freshness == Some(Fresh))
                && freshness == Some(if MirrorAll(old(store.Contents()), old(store.links)[SessionUri(sid)].host, sid, answer.value.events).1
                                     then Fresh else StaleReconcileFailed)
      ensures sid in old(store.sessions) && SessionUri(sid) in old(store.links) && answer.Err? ==>
                && store.Contents() == Append(old(store.Contents()), SessionUri(sid), None, SessionDegraded, FromRemoteBroker, Note(problem))
                && freshness == Some(StaleUnavailable)
      ensures !(sid in old(store.sessions) && SessionUri(sid) in old(store.links)) ==>
                store.Contents() == old(store.Contents()) && freshness.None?
    {
      if sid !in store.sessions { return None; }
      var link := store.LinkByLocal(SessionUri(sid));
      if link.None? { return None; }
      if answer.Err? {
        AppendGood(store.Contents(), SessionUri(sid), None, SessionDegraded, FromRemoteBroker, Note(problem));
        var _ := store.AppendEvent(SessionUri(sid), None, SessionDegraded, FromRemoteBroker, Note(problem));
        return Some(StaleUnavailable);
      }
      PageEffects(store.Contents(), link.value.host, sid, answer.value.events, answer.value.nextCursor);
      var ok := MirrorEvents(link.value.host, sid, answer.value.events);
      if !ok { return Some(StaleReconcileFailed); }
      SetCursorGood(store.Contents(), SessionUri(sid), answer.value.nextCursor);
      store.UpdateLinkCursor(SessionUri(sid), answer.value.nextCursor);
      freshness := Some(Fresh);
    }

    // -------------------------------------------------------------- restart recovery

    method ReattachActiveTurn(sid: Id, cursor: int, tid: Id, b: Recovery.Backend, now: nat) returns (result: Result<()>)
      requires StoreInv(store.Contents()) && tid in store.turns && sid < store.nextId && KnownSeq(store.log, cursor)
      modifies store
      ensures (store.Contents(), result.Ok?) == ReattachOne(old(store.Contents()), sid, cursor, tid, b, now)
    {
      var r := b.reattaches(tid);
      IngestAllGood(store.Contents(), sid, b.id, tid, r.delivered);
      IngestAllFrame(store.Contents(), sid, b.id, tid, r.delivered);
      var latest, _ := IngestReturned(sid, b.id, tid, r.delivered, None, cursor);
      match r.answer {
        case Err(error) => return Err(error);
        case Ok(Some(turn)) => FinalizeBackendTurn(sid, b.id, tid, turn, latest);
        case Ok(None) => var _ := MarkTurnInterrupted(tid, NOT_REATTACHED, now);
      }
      result := Ok(());
    }

    method InterruptTurns(turns: seq<Id>, summary: string, now: nat)
      requires StoreInv(store.Contents())
      modifies store
      ensures store.Contents() == InterruptAll(old(store.Contents()), turns, summary, now)
      ensures StoreInv(store.Contents())
    {
      ghost var s := store.Contents();
      var i := 0;
      while i < |turns|
        invariant 0 <= i <= |turns|
        invariant store.Contents() == InterruptAll(s, turns[..i], summary, now) && StoreInv(store.Contents())
      {
        assert turns[..i + 1][..i] == turns[..i];
        InterruptGood(store.Contents(), turns[i], summary, now);
        var _ := MarkTurnInterrupted(turns[i], summary, now);
        i := i + 1;
      }
      assert turns[..|turns|] == turns;
    }

    method ReattachTurns(sid: Id, cursor: int, turns: seq<Id>, b: Recovery.Backend, now: nat) returns (result: Result<()>)
      requires Reattachable(store.Contents(), sid, cursor, turns)
      modifies store
      ensures (store.Contents(), result.Ok?) == ReattachAll(old(store.Contents()), sid, cursor, turns, b, now)
    {
      ghost var s := store.Contents();
      var i := 0;
      while i < |turns|
        invariant 0 <= i <= |turns|
        invariant (store.Contents(), true) == ReattachAll(s, sid, cursor, turns[..i], b, now)
      {
        assert turns[..i + 1][..i] == turns[..i];
        ReattachAllKeeps(s, sid, cursor, turns, i, b, now);
        var reattached := ReattachActiveTurn(sid, cursor, turns[i], b, now);
        i := i + 1;
        if reattached.Err? {
          ReattachAllStops(s, sid, cursor, turns, i, b, now);
          return reattached;
        }
      }
      assert turns[..|turns|] == turns;
      result := Ok(());
    }

    /** One round of the loop over the sessions; `row` is the session as it was listed. */
    method ReconcileSession(sid: Id, row: Session, turns: seq<Id>, b: Recovery.Backend, now: nat) returns (result: Result<()>)
      requires Reattachable(store.Contents(), sid, row.latestCursor, turns)
      modifies store
      ensures (store.Contents(), result.Ok?) == RecoverSession(old(store.Contents()), sid, row, turns, b, now)
    {
      result := Ok(());
      if b.supportsResume {
        if b.refusal(sid).None? {
          AppendGood(store.Contents(), SessionUri(sid), None, SessionReattached, FromBackend(row.backend), JObj(map[]));
          var reattached := store.AppendEvent(SessionUri(sid), None, SessionReattached, FromBackend(row.backend), JObj(map[]));
          if turns == [] {
            AdvanceSessionGood(store.Contents(), sid, Idle);
            store.UpdateSessionStatus(sid, Idle, Some(reattached));
          }
          if b.supportsReattach {
            KnownGrows(old(store.log), store.log, row.latestCursor);
            result := ReattachTurns(sid, row.latestCursor, turns, b, now);
          } else {
            InterruptTurns(turns, NO_REATTACH, now);
          }
        } else {
          var error := b.refusal(sid).value;
          AppendGood(store.Contents(), SessionUri(sid), None, SessionDegraded, FromBroker, Note(error));
          var _ := store.AppendEvent(SessionUri(sid), None, SessionDegraded, FromBroker, Note(error));
          UpdateSessionGood(store.Contents(), sid, Degraded, None);
          store.UpdateSessionStatus(sid, Degraded, None);
          InterruptTurns(turns, RESUME_FAILED + error, now);
        }
      } else {
        InterruptTurns(turns, NO_RESUME, now);
      }
    }

    /** The listed active turns of one session. */
    method CollectTurns(active: seq<Id>, turns: map<Id, Turn>, sid: Id) returns (collected: seq<Id>)
      ensures collected == TurnsOf(active, turns, sid)
    {
      collected := [];
      for i := 0 to |active|
        invariant collected == TurnsOf(active[..i], turns, sid)
      {
        assert active[..i + 1][..i] == active[..i];
        if active[i] in turns && turns[active[i]].sessionId == sid { collected := collected + [active[i]]; }
      }
      assert active[..|active|] == active;
    }

    /** The loop over the sessions: rounds of the backend's own sessions, each recording its turns as processed. */
    method ReconcileSessions(open: seq<Id>, active: seq<Id>, rows: map<Id, Session>, owners: map<Id, Turn>, b: Recovery.Backend, now: nat)
      returns (result: Result<()>, processed: set<Id>)
      requires StoreInv(store.Contents()) && Listed(store.Contents(), open, active)
      requires rows == store.sessions && owners == store.turns
      modifies store
      ensures (store.Contents(), result.Ok?) == RecoverSessions(old(store.Contents()), open, active, b, now)
      ensures result.Ok? ==> processed == ProcessedBy(old(store.Contents()), open, active, b)
    {
      ghost var s0 := store.Contents();
      processed := {};
      var i := 0;
      assert ProcessedBy(s0, open[..0], active, b) == {};
      while i < |open|
        invariant 0 <= i <= |open|
        invariant (store.Contents(), true) == RecoverSessions(s0, open[..i], active, b, now)
        invariant processed == ProcessedBy(s0, open[..i], active, b)
      {
        var sid := open[i];
        RecoverSessionsNext(s0, store.Contents(), open, active, i, b, now);
        i := i + 1;
        if rows[sid].backend == b.id {
          var turns := CollectTurns(active, owners, sid);
          var reconciled := ReconcileSession(sid, rows[sid], turns, b, now);
          if reconciled.Err? {
            RecoverSessionsStop(s0, open, active, i, b, now);
            return reconciled, processed;
          }
          processed := processed + (set j | 0 <= j < |turns| :: turns[j]);
          assert processed == ProcessedBy(s0, open[..i - 1], active, b) + Elements(turns);
        }
      }
      assert open[..|open|] == open;
      result := Ok(());
    }

    method ReconcileBackendState(b: Recovery.Backend, now: nat) returns (result: Result<()>)
      requires StoreInv(store.Contents())
      modifies store
      ensures StoreInv(store.Contents()) && Evolves(old(store.Contents()), store.Contents())
      ensures result.Ok? ==> Recovered(b, old(store.Contents()), store.Contents())
    {
      ghost var s0 := store.Contents();
      var open := store.OpenBackendSessions();
      var active := store.ActiveTurnsForRecovery();
      RecoveryPartitionsTurns(b, s0, open, active, now);
      var processed;
      result, processed := ReconcileSessions(open, active, store.sessions, store.turns, b, now);
      if result.Err? { return; }
      assert open[..|open|] == open;
      SessionsProgress(b, s0, open, active, |open|, now);
      var rest := CollectUnprocessed(active, processed);
      InterruptTurns(rest, SESSION_UNAVAILABLE, now);
    }

    method CollectUnprocessed(active: seq<Id>, processed: set<Id>) returns (rest: seq<Id>)
      ensures rest == Unprocessed(active, processed)
    {
      rest := [];
      for i := 0 to |active|
        invariant rest == Unprocessed(active[..i], processed)
      {
        assert active[..i + 1][..i] == active[..i];
        if active[i] !in processed { rest := rest + [active[i]]; }
      }
      assert active[..|active|] == active;
    }

    /** A broker that starts without reconnecting. */
    method ReconcileInterruptedTurns(now: nat)
      requires StoreInv(store.Contents())
      modifies store
      ensures StoreInv(store.Contents())
      ensures forall t :: t in store.turns ==> store.turns[t].status != Running && store.turns[t].status != NeedsInput
      ensures forall t :: t in old(store.turns) ==>
                if old(store.turns)[t].status == Running || old(store.turns)[t].status == NeedsInput then Handled(old(store.Contents()), store.Contents(), t, Interrupted([], "turn interrupted by broker shutdown or restart"))
                else Leaves(old(store.Contents()), store.Contents(), t)
    {
      var active := store.ActiveTurnsForRecovery();
      RestartInterruptsAll(store.Contents(), active, now);
      InterruptTurns(active, RESTARTED, now);
    }
  }

  lemma MirrorAllNext(s: State, s1: State, host: Id, sid: Id, events: seq<Event>, n: nat)
    requires n < |events| && MirrorAll(s, host, sid, events[..n]) == (s1, true) && StoreInv(s1) && sid in s1.sessions
    ensures var (s2, result) := Mirror(s1, host, sid, events[n]);
            && MirrorAll(s, host, sid, events[..n + 1]) == (s2, result.Ok?)
            && StoreInv(s2) && sid in s2.sessions && LinksOk(s1.links)
  {
    assert events[..n + 1][..n] == events[..n];
    MirrorGood(s1, host, sid, events[n]);
  }

  /** Once an event of a page has failed, the rest of the page is not mirrored. */
  lemma {:induction false} MirrorAllStops(s: State, host: Id, sid: Id, events: seq<Event>, n: nat)
    requires n <= |events| && !MirrorAll(s, host, sid, events[..n]).1
    ensures MirrorAll(s, host, sid, events) == MirrorAll(s, host, sid, events[..n])
    decreases |events|
  {
    if n < |events| {
      var front := events[..|events| - 1];
      assert front[..n] == events[..n];
      MirrorAllStops(s, host, sid, front, n);
    } else {
      assert events[..n] == events;
    }
  }
}

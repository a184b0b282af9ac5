/** What a client can observe of each operation: which rows it changes, to what, and exactly what it logs. */
module Effects {
  import opened Types
  import opened Vocabulary
  import opened Wrappers
  import opened EventLog
  import opened StoreModel
  import opened BrokerModel
  import opened BrokerInvariants
  import opened BrokerSteps
  import opened BrokerRuns
  import opened Evidence

  /** An event of a turn, under its session. */
  predicate OnTurnOf(e: Event, tid: Id, sid: Id, eventType: EventType, origin: Origin) {
    e.resource == TurnUri(tid) && e.parent == Some(SessionUri(sid)) && e.eventType == eventType && e.origin == origin
  }

  /** An event of a session itself. */
  predicate OnSession(e: Event, sid: Id, eventType: EventType, origin: Origin) {
    e.resource == SessionUri(sid) && e.parent == None && e.eventType == eventType && e.origin == origin
  }

  /** An event of a request. */
  predicate OnRequest(e: Event, rid: Id, parent: Uri, eventType: EventType, origin: Origin) {
    e.resource == RequestUri(rid) && e.parent == Some(parent) && e.eventType == eventType && e.origin == origin
  }

  /** Only this session's row changed, and only its status and cursor. */
  ghost predicate SessionMoved(before: map<Id, Session>, after: map<Id, Session>, sid: Id, status: Status, cursor: int) {
    && after.Keys == before.Keys
    && forall k :: k in before ==> after[k] == if k == sid then before[k].(status := status, latestCursor := cursor) else before[k]
  }

  /** Only this turn's row changed. */
  ghost predicate TurnBecame(before: map<Id, Turn>, after: map<Id, Turn>, tid: Id, turn: Turn) {
    after.Keys == before.Keys && forall t :: t in before ==> after[t] == if t == tid then turn else before[t]
  }

  // ---------------------------------------------------------------- sending

  /** A turn was opened for the message: running, queued and then started, with the session running at
      the second of the two events, whose number the reply carries. */
  ghost predicate TurnOpened(s: State, s': State, sid: Id, message: string, reply: SendReply) {
    var t, n := reply.turnId, |s.log|;
    && t !in s.turns && s'.turns == s.turns[t := Turn(sid, None, Running, false)]
    && s.log <= s'.log && |s'.log| == n + 2
    && OnTurnOf(s'.log[n], t, sid, TurnQueued, FromBroker) && GetStr(s'.log[n].payload, "message") == Some(message)
    && OnTurnOf(s'.log[n + 1], t, sid, TurnStarted, FromBroker)
    && reply.eventCursor == s'.log[n + 1].serverSeq && s'.log[n].serverSeq < s'.log[n + 1].serverSeq
    && SessionMoved(s.sessions, s'.sessions, sid, Running, reply.eventCursor)
    && s'.requests == s.requests && s'.links == s.links && s'.ops == s.ops
  }

  /** A local message opens one turn if the session is known and has a backend session, and otherwise
      changes nothing. */
  lemma SendEffects(s: State, sid: Id, message: string, op: Option<Id>, answer: Result<RemoteTurn>)
    requires StoreInv(s) && SessionUri(sid) !in s.links
    ensures var (s', reply) := SendMessage(s, sid, message, op, answer);
            if sid in s.sessions && s.sessions[sid].backendSessionId.Some?
            then reply.Ok? && TurnOpened(s, s', sid, message, reply.value)
            else reply.Err? && s' == s
  {}

  // ---------------------------------------------------------------- cancelling

  predicate WithdrawalFor(e: Event, rid: Id, tid: Id, reason: string) {
    IsWithdrawal(e, rid) && e.parent == Some(TurnUri(tid)) && GetStr(e.payload, "reason") == Some(reason)
  }

  /** The log a withdrawal leaves: one `request.cancelled` for each pending request of the turn, oldest
      first, under the turn and with the reason. */
  ghost predicate LogsWithdrawals(log: seq<Event>, log': seq<Event>, ids: seq<Id>, tid: Id, reason: string) {
    && log <= log' && |log'| >= |log| + |ids|
    && forall i :: 0 <= i < |ids| ==> WithdrawalFor(log'[|log| + i], ids[i], tid, reason)
  }

  lemma {:induction false} WithdrawalsLogged(s: State, ids: seq<Id>, tid: Id, reason: string)
    ensures var log := LogWithdrawals(s, ids, TurnUri(tid), reason).log;
            LogsWithdrawals(s.log, log, ids, tid, reason) && |log| == |s.log| + |ids|
  {
    if ids != [] {
      var front, last := ids[..|ids| - 1], ids[|ids| - 1];
      WithdrawalsLogged(s, front, tid, reason);
      var before := LogWithdrawals(s, front, TurnUri(tid), reason).log;
      var log := LogWithdrawals(s, ids, TurnUri(tid), reason).log;
      ReasonText(reason);
      forall i | 0 <= i < |ids| ensures WithdrawalFor(log[|s.log| + i], ids[i], tid, reason) {
        if i < |front| { assert log[|s.log| + i] == before[|s.log| + i]; }
      }
    }
  }

  lemma ReasonText(text: string)
    ensures GetStr(Reason(text), "reason") == Some(text)
  {}

  lemma NoteText(text: string)
    ensures GetStr(Note(text), "summary") == Some(text)
  {}

  /** What happens to the turn's requests: the pending ones are withdrawn, the others untouched. */
  ghost predicate Withdraws(before: map<Id, Request>, after: map<Id, Request>, tid: Id, reason: string, now: nat) {
    && after.Keys == before.Keys
    && forall r :: r in before ==>
         if before[r].turnId == Some(tid) && before[r].status == RequestStatus.Pending
         then after[r] == before[r].(status := RequestStatus.Cancelled, resolution := Some(Resolution(Cancel, None)),
                                     reason := Some(reason), resolvedAt := Some(now))
         else after[r] == before[r]
  }

  lemma WithdrawEffects(s: State, tid: Id, reason: string, now: nat)
    ensures var s' := WithdrawRequests(s, tid, reason, now);
            var ids := PendingIds(s.requests, tid, s.nextId);
            && LogsWithdrawals(s.log, s'.log, ids, tid, reason) && |s'.log| == |s.log| + |ids|
            && ((forall r :: r in s.requests ==> r < s.nextId) ==> PendingInOrder(s.requests, tid, ids))
            && Withdraws(s.requests, s'.requests, tid, reason, now)
            && s'.turns == s.turns && s'.sessions == s.sessions && s'.links == s.links
  {
    WithdrawFrame(s, tid, reason, now);
    PendingIdsAre(s.requests, tid, s.nextId);
    WithdrawalsLogged(CancelPending(s, tid, reason, now), PendingIds(s.requests, tid, s.nextId), tid, reason);
  }

  lemma CloseEffects(s: State, sid: Id, tid: Id, backendTurn: Id, origin: Origin)
    requires tid in s.turns
    ensures var s' := CloseCancelled(s, sid, tid, backendTurn, origin);
            var n := |s.log|;
            && s.log <= s'.log && |s'.log| == n + 1 && OnTurnOf(s'.log[n], tid, sid, TurnCancelled, origin)
            && TurnBecame(s.turns, s'.turns, tid, s.turns[tid].(backendTurnId := Some(backendTurn), status := Status.Cancelled, unread := true))
            && SessionMoved(s.sessions, s'.sessions, sid, Idle, s'.log[n].serverSeq)
            && s'.requests == s.requests && s'.links == s.links && s'.ops == s.ops
  {}

  lemma LogsMore(log: seq<Event>, log1: seq<Event>, log2: seq<Event>, ids: seq<Id>, tid: Id, reason: string)
    requires LogsWithdrawals(log, log1, ids, tid, reason) && log1 <= log2
    ensures LogsWithdrawals(log, log2, ids, tid, reason)
  {}

  /** A turn was cancelled: its pending requests are withdrawn and those withdrawals logged, oldest first;
      then the cancellation is logged, the turn is cancelled and unread under the backend's id, and the
      session idle at that event. No other turn, session, request or link changed. */
  ghost predicate CancelDone(s: State, s': State, sid: Id, tid: Id, backendTurn: Id, origin: Origin, now: nat)
    requires tid in s.turns
  {
    var ids := PendingIds(s.requests, tid, s.nextId);
    var n := |s.log| + |ids|;
    && PendingInOrder(s.requests, tid, ids)
    && LogsWithdrawals(s.log, s'.log, ids, tid, "turn cancelled by foreground request") && |s'.log| == n + 1
    && OnTurnOf(s'.log[n], tid, sid, TurnCancelled, origin)
    && Withdraws(s.requests, s'.requests, tid, "turn cancelled by foreground request", now)
    && TurnBecame(s.turns, s'.turns, tid, s.turns[tid].(backendTurnId := Some(backendTurn), status := Status.Cancelled, unread := true))
    && SessionMoved(s.sessions, s'.sessions, sid, Idle, s'.log[n].serverSeq)
    && s'.links == s.links
  }

  ghost predicate RequestsBelow(s: State) {
    forall r :: r in s.requests ==> r < s.nextId
  }

  lemma CancelDoneEffects(s: State, sid: Id, tid: Id, backendTurn: Id, origin: Origin, now: nat)
    requires RequestsBelow(s) && tid in s.turns
    ensures var s' := CloseCancelled(WithdrawRequests(s, tid, CANCEL_REASON, now), sid, tid, backendTurn, origin);
            CancelDone(s, s', sid, tid, backendTurn, origin, now) && s'.ops == s.ops
  {
    var s1 := WithdrawRequests(s, tid, CANCEL_REASON, now);
    WithdrawFrame(s, tid, CANCEL_REASON, now);
    WithdrawEffects(s, tid, CANCEL_REASON, now);
    CloseEffects(s1, sid, tid, backendTurn, origin);
    LogsMore(s.log, s1.log, CloseCancelled(s1, sid, tid, backendTurn, origin).log, PendingIds(s.requests, tid, s.nextId), tid, CANCEL_REASON);
  }

  /** A local cancellation the backend agrees to. */
  lemma CancelEffects(s: State, sid: Id, tid: Id, op: Option<Id>, now: nat)
    requires RequestsBelow(s) && sid in s.sessions && tid in s.turns && TurnUri(tid) !in s.links && s.sessions[sid].backendSessionId.Some?
    ensures var (s', result) := CancelTurn(s, sid, tid, op, true, now);
            && result == Ok(tid) && s'.ops == s.ops
            && CancelDone(s, s', sid, tid, if s.turns[tid].backendTurnId.Some? then s.turns[tid].backendTurnId.value else tid, FromBroker, now)
  {
    CancelDoneEffects(s, sid, tid, if s.turns[tid].backendTurnId.Some? then s.turns[tid].backendTurnId.value else tid, FromBroker, now);
  }

  /** The operation's record is this one, under the id given or under a new one; no other record changed. */
  ghost predicate Recorded(s: State, s': State, op: Option<Id>, record: Operation) {
    s'.ops == s.ops[if op.Some? then Given(op.value) else Minted(s.nextId) := record]
  }

  /** Recording an operation, or storing a result with it, changes nothing a cancellation is about. */
  lemma CancelDoneRecorded(s: State, s1: State, z: State, z1: State, sid: Id, tid: Id, backendTurn: Id, origin: Origin, now: nat)
    requires RequestsBelow(s) && s1 == s.(ops := s1.ops, nextId := s1.nextId) && (s1.nextId == s.nextId || s1.nextId == s.nextId + 1)
    requires z1 == z.(ops := z1.ops) && tid in s.turns && CancelDone(s1, z, sid, tid, backendTurn, origin, now)
    ensures CancelDone(s, z1, sid, tid, backendTurn, origin, now)
  {
    assert PendingIds(s1.requests, tid, s1.nextId) == PendingIds(s.requests, tid, s.nextId);
  }

  lemma LinkedCancelIs(s: State, sid: Id, tid: Id, op: Option<Id>, now: nat) returns (s1: State, z: State)
    requires sid in s.sessions && tid in s.turns && TurnUri(tid) in s.links && SessionUri(sid) in s.links
    ensures s1 == s.(ops := s1.ops, nextId := s1.nextId) && (s1.nextId == s.nextId || s1.nextId == s.nextId + 1)
    ensures var link := s.links[TurnUri(tid)];
            && Recorded(s, s1, op, Operation(link.host, OpCancelTurn, OpPending, None, None))
            && z == CloseCancelled(WithdrawRequests(s1, tid, CANCEL_REASON, now), sid, tid, link.remoteId, FromRemoteBroker)
            && CancelTurn(s, sid, tid, op, true, now) ==
               (z.(ops := RecordApplied(z.ops, OperationKey(s, op).1, link.host, OpCancelTurn, TurnUri(tid), OtherResult)), Ok(tid))
  {
    var link := s.links[TurnUri(tid)];
    var (s0, key) := OperationKey(s, op);
    s1 := s0.(ops := RecordPending(s0.ops, key, link.host, OpCancelTurn));
    z := CloseCancelled(WithdrawRequests(s1, tid, CANCEL_REASON, now), sid, tid, link.remoteId, FromRemoteBroker);
  }

  /** Marking the record of an attempt as applied. */
  lemma AppliedRecord(s: State, s1: State, z: State, op: Option<Id>, host: Id, kind: OpKind, local: Uri, result: OpResult)
    requires Recorded(s, s1, op, Operation(host, kind, OpPending, None, None))
    requires z.ops == RecordApplied(s1.ops, if op.Some? then Given(op.value) else Minted(s.nextId), host, kind, local, result)
    ensures Recorded(s, z, op, Operation(host, kind, OpApplied, Some(local), Some(result)))
  {}

  /** A cancellation of a linked turn that the remote broker agrees to. */
  lemma LinkedCancelEffects(s: State, sid: Id, tid: Id, op: Option<Id>, now: nat)
    requires RequestsBelow(s) && sid in s.sessions && tid in s.turns && TurnUri(tid) in s.links && SessionUri(sid) in s.links
    ensures var (s', result) := CancelTurn(s, sid, tid, op, true, now);
            var link := s.links[TurnUri(tid)];
            && result == Ok(tid) && CancelDone(s, s', sid, tid, link.remoteId, FromRemoteBroker, now)
            && Recorded(s, s', op, Operation(link.host, OpCancelTurn, OpApplied, Some(TurnUri(tid)), Some(OtherResult)))
  {
    var link := s.links[TurnUri(tid)];
    var s1, z := LinkedCancelIs(s, sid, tid, op, now);
    var s' := CancelTurn(s, sid, tid, op, true, now).0;
    CancelDoneEffects(s1, sid, tid, link.remoteId, FromRemoteBroker, now);
    CancelDoneRecorded(s, s1, z, s', sid, tid, link.remoteId, FromRemoteBroker, now);
    AppliedRecord(s, s1, s', op, link.host, OpCancelTurn, TurnUri(tid), OtherResult);
  }

  /** Which cancellations are refused, and what a refusal leaves: nothing, or the record of the attempt,
      or the withdrawn requests of a turn whose backend then failed. */
  lemma CancelRefusedEffects(s: State, sid: Id, tid: Id, op: Option<Id>, agreed: bool, now: nat)
    ensures var (s', result) := CancelTurn(s, sid, tid, op, agreed, now);
            var linked := TurnUri(tid) in s.links;
            match result
            case Ok(_) => agreed
            case Err(NotFound) => (sid !in s.sessions || tid !in s.turns) && s' == s
            case Err(InvalidState) =>
              && sid in s.sessions && tid in s.turns && s' == s
              && (if linked then SessionUri(sid) !in s.links else s.sessions[sid].backendSessionId.None?)
            case Err(RemoteFailure) =>
              && linked && !agreed && s' == s.(ops := s'.ops, nextId := s'.nextId)
              && Recorded(s, s', op, Operation(s.links[TurnUri(tid)].host, OpCancelTurn, OpPending, None, None))
            case Err(BackendFailure) =>
              && !linked && !agreed && s' == s.(log := s'.log, requests := s'.requests)
              && |s'.log| == |s.log| + |PendingIds(s.requests, tid, s.nextId)|
              && LogsWithdrawals(s.log, s'.log, PendingIds(s.requests, tid, s.nextId), tid, "turn cancelled by foreground request")
              && Withdraws(s.requests, s'.requests, tid, "turn cancelled by foreground request", now)
            case Err(_) => false
  {
    if sid in s.sessions && tid in s.turns && TurnUri(tid) !in s.links {
      WithdrawFrame(s, tid, CANCEL_REASON, now);
      WithdrawEffects(s, tid, CANCEL_REASON, now);
    }
  }

  // ---------------------------------------------------------------- resolving

  /** The decision was stored if none was yet, and nothing else about the requests changed; exactly one
      `request.resolved` was logged either way. */
  ghost predicate RequestSettled(s: State, s': State, rid: Id, decision: Decision, response: Option<Json>, reason: Option<string>, now: nat)
    requires rid in s.requests
  {
    && s'.requests.Keys == s.requests.Keys
    && (forall r :: r in s.requests && r != rid ==> s'.requests[r] == s.requests[r])
    && (s.requests[rid].status != RequestStatus.Pending ==> s'.requests[rid] == s.requests[rid])
    && (s.requests[rid].status == RequestStatus.Pending ==>
          s'.requests[rid] == s.requests[rid].(status := if decision == Cancel then RequestStatus.Cancelled else Resolved,
                                               resolution := Some(Resolution(decision, response)), reason := reason, resolvedAt := Some(now)))
    && s.log <= s'.log && |s'.log| == |s.log| + 1
    && OnRequest(s'.log[|s.log|], rid, SessionUri(s.requests[rid].sessionId), RequestResolved, FromBroker)
    && s'.turns == s.turns && s'.sessions == s.sessions && s'.links == s.links
  }

  /** A local request: settled, and recorded if the caller named an operation. */
  lemma ResolveEffects(s: State, rid: Id, decision: Decision, response: Option<Json>, reason: Option<string>, op: Option<Id>, agreed: bool, now: nat)
    requires rid in s.requests && RequestUri(rid) !in s.links
    ensures var (s', result) := ResolveRequest(s, rid, decision, response, reason, op, agreed, now);
            && RequestSettled(s, s', rid, decision, response, reason, now) && result == Ok(s'.requests[rid])
            && (op.None? ==> s'.ops == s.ops)
            && (op.Some? ==>
                  && Given(op.value) in s'.ops && s'.ops == s.ops[Given(op.value) := s'.ops[Given(op.value)]]
                  && s'.ops[Given(op.value)].status == OpApplied && s'.ops[Given(op.value)].localUri == Some(RequestUri(rid)))
  {
    ResolveSettles(s, rid, decision, response, reason, op, agreed, now);
    SettleFrame(ResolveIntent(s, rid, op).0, rid, decision, response, reason, now);
    ResolveIntentFrame(s, rid, op);
  }

  /** A linked request: settled and recorded as applied once the remote broker agrees; if it does not,
      only the attempt is recorded. */
  lemma LinkedResolveEffects(s: State, rid: Id, decision: Decision, response: Option<Json>, reason: Option<string>, op: Option<Id>, agreed: bool, now: nat)
    requires rid in s.requests && RequestUri(rid) in s.links
    ensures var (s', result) := ResolveRequest(s, rid, decision, response, reason, op, agreed, now);
            var host := s.links[RequestUri(rid)].host;
            if agreed then
              && RequestSettled(s, s', rid, decision, response, reason, now) && result == Ok(s'.requests[rid])
              && Recorded(s, s', op, Operation(host, OpResolveRequest, OpApplied, Some(RequestUri(rid)), Some(OtherResult)))
            else
              && result == Err(RemoteFailure) && s' == s.(ops := s'.ops, nextId := s'.nextId)
              && Recorded(s, s', op, Operation(host, OpResolveRequest, OpPending, None, None))
  {
    var (s1, key) := ResolveIntent(s, rid, op);
    var host := s.links[RequestUri(rid)].host;
    assert Recorded(s, s1, op, Operation(host, OpResolveRequest, OpPending, None, None));
    if agreed {
      var s' := ResolveRequest(s, rid, decision, response, reason, op, agreed, now).0;
      ResolveSettles(s, rid, decision, response, reason, op, agreed, now);
      SettleFrame(s1, rid, decision, response, reason, now);
      AppliedRecord(s, s1, s', op, host, OpResolveRequest, RequestUri(rid), OtherResult);
    }
  }

  /** An unknown request is not found. */
  lemma ResolveUnknown(s: State, rid: Id, decision: Decision, response: Option<Json>, reason: Option<string>, op: Option<Id>, agreed: bool, now: nat)
    requires rid !in s.requests && RequestUri(rid) !in s.links
    ensures ResolveRequest(s, rid, decision, response, reason, op, agreed, now) == (s, Err(NotFound))
  {}

  // ---------------------------------------------------------------- finishing

  /** One of the returned events reports the status. */
  ghost predicate Reported(events: seq<BackendEvent>, status: Status) {
    exists i :: 0 <= i < |events| && Reports(events[i].eventType, status)
  }

  lemma ReportedIs(events: seq<BackendEvent>, status: Status)
    ensures Settled(status) <==> TerminalType(status).Some?
    ensures Settled(status) ==> Reports(TerminalType(status).value, status)
    ensures Settled(status) ==> (Reported(events, status) <==> HasType(events, TerminalType(status).value))
  {
    SettledIs(status);
    if Settled(status) && HasType(events, TerminalType(status).value) {
      var i :| 0 <= i < |events| && events[i].eventType == TerminalType(status).value;
      assert Reports(events[i].eventType, status);
    }
  }

  /** The returned events were logged in order, each in the turn's view, and after them, if the reported
      status is one to tell and none of them reports it, one event of the turn that does. */
  ghost predicate FinishLogged(log: seq<Event>, log': seq<Event>, sid: Id, backend: Id, tid: Id, turn: BackendTurn) {
    var added := Settled(turn.status) && !Reported(turn.events, turn.status);
    && log <= log' && |log'| == |log| + |turn.events| + (if added then 1 else 0)
    && (forall i :: 0 <= i < |turn.events| ==> IngestedAs(log'[|log| + i], turn.events[i], tid))
    && (added ==> OnTurnOf(log'[|log'| - 1], tid, sid, log'[|log'| - 1].eventType, FromBackend(backend)) && Reports(log'[|log'| - 1].eventType, turn.status))
  }

  lemma FinishedEffects(s: State, sid: Id, backend: Id, tid: Id, turn: BackendTurn)
    ensures var s' := Finished(s, sid, backend, tid, turn);
            && FinishLogged(s.log, s'.log, sid, backend, tid, turn)
            && s'.turns == s.turns && s'.sessions == s.sessions && s'.links == s.links && s'.ops == s.ops
  {
    ReportedIs(turn.events, turn.status);
    IngestAllEvents(s, sid, backend, tid, turn.events);
    IngestAllFrame(s, sid, backend, tid, turn.events);
  }

  lemma RowEffects(s: State, tid: Id, backendTurn: Id, status: Status, unread: bool, sid: Id, session: Status, cursor: int)
    requires tid in s.turns
    ensures var s' := UpdateSession(UpdateTurn(s, tid, Some(backendTurn), status, unread), sid, session, Some(cursor));
            && TurnBecame(s.turns, s'.turns, tid, s.turns[tid].(backendTurnId := Some(backendTurn), status := status, unread := unread))
            && SessionMoved(s.sessions, s'.sessions, sid, session, cursor)
            && s'.log == s.log && s'.links == s.links && s'.ops == s.ops && s'.requests == s.requests
  {}

  /** Finalizing logs the returned events in order and at most one more, stores the reported status, unread
      if it is one to tell, and moves the session: idle after completion or cancellation, the reported
      status otherwise, with the cursor at the last event logged, or where the sink left it if nothing was. */
  lemma FinalizeEffects(s: State, sid: Id, backend: Id, tid: Id, turn: BackendTurn, latest: int)
    requires tid in s.turns
    ensures var s' := Finalize(s, sid, backend, tid, turn, latest);
            && FinishLogged(s.log, s'.log, sid, backend, tid, turn)
            && TurnBecame(s.turns, s'.turns, tid,
                          s.turns[tid].(backendTurnId := Some(turn.backendTurnId), status := turn.status, unread := Settled(turn.status)))
            && SessionMoved(s.sessions, s'.sessions, sid,
                            if turn.status == Completed || turn.status == Status.Cancelled then Idle else turn.status,
                            if |s'.log| == |s.log| then latest else LastSeq(s'.log))
            && s'.links == s.links && s'.ops == s.ops
  {
    var s1 := Finished(s, sid, backend, tid, turn);
    FinishedEffects(s, sid, backend, tid, turn);
    ReportedIs(turn.events, turn.status);
    RowEffects(s1, tid, turn.backendTurnId, turn.status, TerminalType(turn.status).Some?, sid,
               if turn.status == Completed || turn.status == Status.Cancelled then Idle else turn.status,
               if |s1.log| == |s.log| then latest else LastSeq(s1.log));
  }

  // ---------------------------------------------------------------- creating

  /** A session was created: idle at its second event, whose number the reply carries; or, when the
      backend failed, left behind pending and without a backend session. */
  ghost predicate SessionOpened(s: State, s': State, backend: Id, answer: Result<Id>, reply: Result<CreateReply>) {
    var sid, n := s.nextId, |s.log|;
    && sid !in s.sessions && s'.sessions.Keys == s.sessions.Keys + {sid}
    && (forall k :: k in s.sessions ==> s'.sessions[k] == s.sessions[k])
    && s.log <= s'.log && |s'.log| > n && OnSession(s'.log[n], sid, SessionCreated, FromBroker)
    && (answer.Ok? ==>
          && |s'.log| == n + 2 && OnSession(s'.log[n + 1], sid, SessionStatusChanged, FromBackend(backend))
          && s'.sessions[sid] == Session(backend, Some(answer.value), Idle, s'.log[n + 1].serverSeq)
          && reply == Ok(CreateReply(sid, Idle, s'.log[n + 1].serverSeq)))
    && (answer.Err? ==> |s'.log| == n + 1 && s'.sessions[sid] == Session(backend, None, Status.Pending, 0) && reply.Err?)
    && s'.turns == s.turns && s'.requests == s.requests && s'.links == s.links && s'.ops == s.ops
  }

  lemma CreateEffects(s: State, backend: Id, answer: Result<Id>)
    requires StoreInv(s)
    ensures var (s', reply) := CreateSession(s, backend, answer);
            SessionOpened(s, s', backend, answer, reply) && Good(s, s')
  {
    CreateSessionGood(s, backend, answer);
  }

  // ---------------------------------------------------------------- closing, ingesting, failing

  /** A known session got the status, at the cursor it had, and was logged as archived; an unknown one
      changes nothing. */
  ghost predicate SessionClosed(s: State, s': State, sid: Id, status: Status) {
    if sid in s.sessions then
      && SessionMoved(s.sessions, s'.sessions, sid, status, s.sessions[sid].latestCursor)
      && s.log <= s'.log && |s'.log| == |s.log| + 1
      && OnSession(s'.log[|s.log|], sid, SessionArchived, FromBroker)
      && s'.turns == s.turns && s'.requests == s.requests && s'.links == s.links && s'.ops == s.ops
    else s' == s
  }

  /** A request is pending under a new id, as its payload asks, and one event under the parent says so;
      nothing else changed. */
  ghost predicate RequestRaised(s: State, s': State, rid: Id, sid: Id, turn: Option<Id>, parent: Uri, origin: Origin, payload: Json) {
    && rid !in s.requests && s'.requests.Keys == s.requests.Keys + {rid}
    && (forall r :: r in s.requests ==> s'.requests[r] == s.requests[r])
    && Raised(s'.requests[rid], sid, turn, payload)
    && s.log <= s'.log && |s'.log| == |s.log| + 1
    && OnRequest(s'.log[|s.log|], rid, parent, RequestCreated, origin) && s'.log[|s.log|].payload == payload
    && s'.turns == s.turns && s'.sessions == s.sessions && s'.ops == s.ops
  }

  lemma AskedAs(payload: Json)
    ensures AsksAs(payload, RequestKindOf(payload), PayloadSummary(payload))
  {}

  lemma RaiseEffects(s: State, sid: Id, turn: Option<Id>, kind: RequestKind, parent: Uri, origin: Origin, payload: Json)
    requires s.nextId !in s.requests
    ensures var s' := RaiseRequest(s, sid, turn, kind, parent, origin, payload);
            && RequestRaised(s, s', s.nextId, sid, turn, parent, origin, payload) && s'.links == s.links
            && s'.requests[s.nextId].kind == kind && s'.requests[s.nextId].summary == PayloadSummary(payload)
  {}

  lemma CloseSessionEffects(s: State, sid: Id, status: Status)
    ensures SessionClosed(s, CloseSession(s, sid, status), sid, status)
  {
    if sid in s.sessions {
      var s1 := UpdateSession(s, sid, status, None);
      assert SessionMoved(s.sessions, s1.sessions, sid, status, s.sessions[sid].latestCursor);
    }
  }

  /** Exactly the named turns are read. */
  lemma AcknowledgeEffects(s: State, session: Option<Id>, selected: Option<Id>)
    ensures var s' := AcknowledgeTurns(s, session, selected);
            && s' == s.(turns := s'.turns) && s'.turns.Keys == s.turns.Keys
            && forall t :: t in s.turns ==>
                 s'.turns[t] == if Named(t, s.turns[t], session, selected) then s.turns[t].(unread := false) else s.turns[t]
  {}

  /** Exactly one event of the turn's view was logged, with the backend's type and payload; a request
      became pending for the turn under a new id; no turn and no session changed. */
  ghost predicate EventIngested(s: State, s': State, sid: Id, backend: Id, tid: Id, event: BackendEvent) {
    && s.log <= s'.log && |s'.log| == |s.log| + 1
    && var e := s'.log[|s.log|];
       && About(e, Some(TurnUri(tid))) && e.eventType == event.eventType && e.payload == event.payload && e.origin == FromBackend(backend)
       && s'.turns == s.turns && s'.sessions == s.sessions && s'.links == s.links && s'.ops == s.ops
       && if event.eventType == RequestCreated then
            && e.resource.RequestUri?
            && RequestRaised(s, s', e.resource.id, sid, Some(tid), TurnUri(tid), FromBackend(backend), event.payload)
            && AsksAs(event.payload, s'.requests[e.resource.id].kind, s'.requests[e.resource.id].summary)
          else s'.requests == s.requests && OnTurnOf(e, tid, sid, event.eventType, FromBackend(backend))
  }

  lemma IngestEffects(s: State, sid: Id, backend: Id, tid: Id, event: BackendEvent)
    requires s.nextId !in s.requests
    ensures EventIngested(s, Ingest(s, sid, backend, tid, event), sid, backend, tid, event)
  {
    if event.eventType == RequestCreated {
      RaiseEffects(s, sid, Some(tid), RequestKindOf(event.payload), TurnUri(tid), FromBackend(backend), event.payload);
      AskedAs(event.payload);
    }
  }

  /** The failure was logged once, with its reason; the turn is failed and unread, its session idle at
      that event; no request and no other row changed. */
  ghost predicate FailureStored(s: State, s': State, sid: Id, backend: Id, tid: Id, summary: string) {
    && s.log <= s'.log && |s'.log| == |s.log| + 1
    && var e := s'.log[|s.log|];
       && OnTurnOf(e, tid, sid, TurnFailed, FromBackend(backend)) && GetStr(e.payload, "summary") == Some(summary)
       && (tid in s.turns ==> TurnBecame(s.turns, s'.turns, tid, s.turns[tid].(status := Failed, unread := true)))
       && (tid !in s.turns ==> s'.turns == s.turns)
       && SessionMoved(s.sessions, s'.sessions, sid, Idle, e.serverSeq)
       && s'.requests == s.requests && s'.links == s.links && s'.ops == s.ops
  }

  lemma FailEffects(s: State, sid: Id, backend: Id, tid: Id, summary: string)
    ensures FailureStored(s, FailTurn(s, sid, backend, tid, summary), sid, backend, tid, summary)
  {
    var s1 := Append(s, TurnUri(tid), Some(SessionUri(sid)), TurnFailed, FromBackend(backend), Note(summary));
    NoteText(summary);
    FailedRows(s1, sid, tid);
  }

  lemma FailedRows(s: State, sid: Id, tid: Id)
    ensures var s' := UpdateSession(UpdateTurn(s, tid, None, Failed, true), sid, Idle, Some(LastSeq(s.log)));
            && (tid in s.turns ==> TurnBecame(s.turns, s'.turns, tid, s.turns[tid].(status := Failed, unread := true)))
            && (tid !in s.turns ==> s'.turns == s.turns)
            && SessionMoved(s.sessions, s'.sessions, sid, Idle, LastSeq(s.log))
            && s'.log == s.log && s'.requests == s.requests && s'.links == s.links && s'.ops == s.ops
  {}
}

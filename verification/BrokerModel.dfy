/** The broker's operations as functions on the store's contents, and the machine whose
    steps are those operations in any order. */
module BrokerModel {
  import opened Types
  import opened Vocabulary
  import opened Wrappers
  import opened EventLog
  import opened StoreModel

  function Note(text: string): Json { JObj(map["summary" := JStr(text)]) }

  function Reason(text: string): Json { JObj(map["reason" := JStr(text)]) }

  const CANCEL_REASON := "turn cancelled by foreground request"
  const WAIT_TIMEOUT_REASON := "request timed out waiting for foreground resolution"

  // ---------------------------------------------------------------- sessions

  /** Local `create_session`; the backend answers with its session id or fails. */
  function CreateSession(s: State, backend: Id, answer: Result<Id>): (State, Result<CreateReply>) {
    var sid := s.nextId;
    var s1 := InsertSession(s, Session(backend, None, Status.Pending, 0));
    var s2 := Append(s1, SessionUri(sid), None, SessionCreated, FromBroker, JObj(map[]));
    match answer
    case Err(e) => (s2, Err(e))
    case Ok(backendSession) =>
      var s3 := UpdateSessionBackend(s2, sid, backendSession, Idle);
      var s4 := Append(s3, SessionUri(sid), None, SessionStatusChanged, FromBackend(backend), JObj(map[]));
      var s5 := UpdateSession(s4, sid, Idle, Some(LastSeq(s4.log)));
      (s5, Ok(CreateReply(sid, Idle, LastSeq(s4.log))))
  }

  function CloseSession(s: State, sid: Id, status: Status): State {
    if sid !in s.sessions then s
    else Append(UpdateSession(s, sid, status, None), SessionUri(sid), None, SessionArchived, FromBroker, JObj(map[]))
  }

  // ---------------------------------------------------------------- turns

  /** The part of `send_message` common to local and forwarded turns. */
  function OpenTurn(s: State, sid: Id, message: string, origin: Origin): State {
    var tid := s.nextId;
    var s1 := InsertTurn(s, Turn(sid, None, Running, false));
    var s2 := Append(s1, TurnUri(tid), Some(SessionUri(sid)), TurnQueued, origin, JObj(map["message" := JStr(message)]));
    var s3 := Append(s2, TurnUri(tid), Some(SessionUri(sid)), TurnStarted, origin, JObj(map[]));
    UpdateSession(s3, sid, Running, Some(LastSeq(s3.log)))
  }

  function RequestKindOf(payload: Json): RequestKind {
    match GetStr(payload, "request_kind")
    case Some(kind) => if kind == "input" then Input else if kind == "elicitation" then Elicitation else Permission
    case None => Permission
  }

  /** `backend_payload_summary`. */
  function PayloadSummary(payload: Json): string {
    if GetStr(payload, "summary").Some? then GetStr(payload, "summary").value
    else if GetStr(payload, "content").Some? then GetStr(payload, "content").value
    else "background event"
  }

  function NewRequest(sid: Id, tid: Option<Id>, kind: RequestKind, payload: Json): Request {
    Request(sid, tid, kind, RequestStatus.Pending, PayloadSummary(payload), payload, None, None, None)
  }

  /** Inserts a request and logs its creation under `parent`. */
  function RaiseRequest(s: State, sid: Id, tid: Option<Id>, kind: RequestKind, parent: Uri, origin: Origin, payload: Json): State {
    var rid := s.nextId;
    var s1 := InsertRequest(s, NewRequest(sid, tid, kind, payload));
    Append(s1, RequestUri(rid), Some(parent), RequestCreated, origin, payload)
  }

  /** `ingest_backend_event`. */
  function Ingest(s: State, sid: Id, backend: Id, tid: Id, e: BackendEvent): State {
    if e.eventType == RequestCreated
    then RaiseRequest(s, sid, Some(tid), RequestKindOf(e.payload), TurnUri(tid), FromBackend(backend), e.payload)
    else Append(s, TurnUri(tid), Some(SessionUri(sid)), e.eventType, FromBackend(backend), e.payload)
  }

  function IngestAll(s: State, sid: Id, backend: Id, tid: Id, events: seq<BackendEvent>): State {
    if events == [] then s
    else Ingest(IngestAll(s, sid, backend, tid, events[..|events| - 1]), sid, backend, tid, events[|events| - 1])
  }

  function TerminalType(status: Status): Option<EventType> {
    match status
    case Completed => Some(TurnCompleted)
    case Failed => Some(TurnFailed)
    case Cancelled => Some(TurnCancelled)
    case NeedsInput => Some(TurnNeedsInput)
    case _ => None
  }

  predicate HasType(events: seq<BackendEvent>, eventType: EventType) {
    exists i :: 0 <= i < |events| && events[i].eventType == eventType
  }

  /** The finished turn's events, closed by a terminal event of the reported status. */
  function Finished(s: State, sid: Id, backend: Id, tid: Id, turn: BackendTurn): State {
    var s1 := IngestAll(s, sid, backend, tid, turn.events);
    var terminal := TerminalType(turn.status);
    if terminal.Some? && !HasType(turn.events, terminal.value)
    then Append(s1, TurnUri(tid), Some(SessionUri(sid)), terminal.value, FromBackend(backend), JObj(map[]))
    else s1
  }

  /** `finalize_backend_turn`. */
  function Finalize(s: State, sid: Id, backend: Id, tid: Id, turn: BackendTurn, latest: int): State {
    var s1 := Finished(s, sid, backend, tid, turn);
    var cursor := if |s1.log| == |s.log| then latest else LastSeq(s1.log);
    var s2 := UpdateTurn(s1, tid, Some(turn.backendTurnId), turn.status, TerminalType(turn.status).Some?);
    UpdateSession(s2, sid, if turn.status == Completed || turn.status == Status.Cancelled then Idle else turn.status, Some(cursor))
  }

  /** `fail_backend_turn`. */
  function FailTurn(s: State, sid: Id, backend: Id, tid: Id, summary: string): State {
    var s1 := Append(s, TurnUri(tid), Some(SessionUri(sid)), TurnFailed, FromBackend(backend), Note(summary));
    UpdateSession(UpdateTurn(s1, tid, None, Failed, true), sid, Idle, Some(LastSeq(s1.log)))
  }

  function LogWithdrawals(s: State, ids: seq<Id>, parent: Uri, reason: string): State {
    if ids == [] then s
    else
      Append(LogWithdrawals(s, ids[..|ids| - 1], parent, reason),
             RequestUri(ids[|ids| - 1]), Some(parent), RequestCancelled, FromBroker, Reason(reason))
  }

  /** `cancel_pending_requests_for_turn` with its events. */
  function WithdrawRequests(s: State, tid: Id, reason: string, now: nat): State {
    LogWithdrawals(CancelPending(s, tid, reason, now), PendingIds(s.requests, tid, s.nextId), TurnUri(tid), reason)
  }

  /** `mark_turn_interrupted_with_events`. */
  function Interrupt(s: State, tid: Id, summary: string, now: nat): State {
    if tid !in s.turns then s
    else
      var sid := s.turns[tid].sessionId;
      var s1 := WithdrawRequests(MarkInterrupted(s, tid), tid, summary, now);
      var s2 := Append(s1, TurnUri(tid), Some(SessionUri(sid)), TurnFailed, FromBroker, Note(summary));
      UpdateSession(s2, sid, Idle, Some(LastSeq(s2.log)))
  }

  /** The closing part of `cancel_turn`, once the backend or the remote has agreed. */
  function CloseCancelled(s: State, sid: Id, tid: Id, backendTurn: Id, origin: Origin): State {
    var s1 := UpdateTurn(s, tid, Some(backendTurn), Status.Cancelled, true);
    var s2 := Append(s1, TurnUri(tid), Some(SessionUri(sid)), TurnCancelled, origin, JObj(map[]));
    UpdateSession(s2, sid, Idle, Some(LastSeq(s2.log)))
  }

  /** The key under which an operation is recorded; a missing id is minted. */
  function OperationKey(s: State, op: Option<Id>): (State, OpKey) {
    if op.Some? then (s, Given(op.value)) else (s.(nextId := s.nextId + 1), Minted(s.nextId))
  }

  /** `cancel_turn`; `agreed` is the answer of the backend or of the remote broker. */
  function CancelTurn(s: State, sid: Id, tid: Id, op: Option<Id>, agreed: bool, now: nat): (State, Result<Id>) {
    if sid !in s.sessions || tid !in s.turns then (s, Err(NotFound))
    else if TurnUri(tid) in s.links then
      var link := s.links[TurnUri(tid)];
      if SessionUri(sid) !in s.links then (s, Err(InvalidState))
      else
        var (s0, key) := OperationKey(s, op);
        var s1 := s0.(ops := RecordPending(s0.ops, key, link.host, OpCancelTurn));
        if !agreed then (s1, Err(RemoteFailure))
        else
          var s2 := CloseCancelled(WithdrawRequests(s1, tid, CANCEL_REASON, now), sid, tid, link.remoteId, FromRemoteBroker);
          (s2.(ops := RecordApplied(s2.ops, key, link.host, OpCancelTurn, TurnUri(tid), OtherResult)), Ok(tid))
    else if s.sessions[sid].backendSessionId.None? then (s, Err(InvalidState))
    else
      var s1 := WithdrawRequests(s, tid, CANCEL_REASON, now);
      if !agreed then (s1, Err(BackendFailure))
      else
        var backendTurn := if s.turns[tid].backendTurnId.Some? then s.turns[tid].backendTurnId.value else tid;
        (CloseCancelled(s1, sid, tid, backendTurn, FromBroker), Ok(tid))
  }

  // ---------------------------------------------------------------- requests

  const LOCAL_HOST: Id := 0

  /** Stores a decision, if none is stored yet, and logs the resolution either way. */
  function Settle(s: State, rid: Id, decision: Decision, response: Option<Json>, reason: Option<string>, now: nat): State
    requires rid in s.requests
  {
    var s1 := Resolve(s, rid, decision, response, reason, now);
    Append(s1, RequestUri(rid), Some(SessionUri(s1.requests[rid].sessionId)), RequestResolved, FromBroker, JObj(map[]))
  }

  function RequestHost(s: State, rid: Id): Id {
    if RequestUri(rid) in s.links then s.links[RequestUri(rid)].host else LOCAL_HOST
  }

  /** A linked request is forwarded under a recorded operation; a local one is recorded, once settled,
      only if the caller named an operation. */
  function ResolveIntent(s: State, rid: Id, op: Option<Id>): (State, Option<OpKey>) {
    if RequestUri(rid) in s.links then
      var (s0, key) := OperationKey(s, op);
      (s0.(ops := RecordPending(s0.ops, key, RequestHost(s, rid), OpResolveRequest)), Some(key))
    else (s, if op.Some? then Some(Given(op.value)) else None)
  }

  /** `resolve_request`; `agreed` is the remote broker's answer for a linked request. */
  function ResolveRequest(s: State, rid: Id, decision: Decision, response: Option<Json>, reason: Option<string>,
                          op: Option<Id>, agreed: bool, now: nat): (State, Result<Request>) {
    var (s1, key) := ResolveIntent(s, rid, op);
    if RequestUri(rid) in s.links && !agreed then (s1, Err(RemoteFailure))
    else if rid !in s1.requests then (s1, Err(NotFound))
    else
      var s2 := Settle(s1, rid, decision, response, reason, now);
      var ops := if key.Some? then RecordApplied(s2.ops, key.value, RequestHost(s, rid), OpResolveRequest, RequestUri(rid), OtherResult) else s2.ops;
      (s2.(ops := ops), Ok(s2.requests[rid]))
  }

  /** One round of `StoreRequestBroker::wait_for_resolution`: the waiter returns the request once it
      is decided; past the deadline it tries to cancel it and returns whatever is stored then. */
  function WaitRound(s: State, rid: Id, expired: bool, now: nat): (State, Option<Request>) {
    if rid !in s.requests then (s, None)
    else if s.requests[rid].status != RequestStatus.Pending then (s, Some(s.requests[rid]))
    else if expired then
      var s1 := Resolve(s, rid, Cancel, None, Some(WAIT_TIMEOUT_REASON), now);
      (s1, Some(s1.requests[rid]))
    else (s, None)
  }

  // ---------------------------------------------------------------- forwarding

  /** The local row of a session that lives on a remote host. */
  function AdoptSession(s: State, remote: RemoteSession): State {
    var s1 := InsertSession(s, Session(remote.backend, None, remote.status, 0));
    var s2 := Append(s1, SessionUri(s.nextId), None, SessionCreated, FromRemoteBroker, JObj(map[]));
    UpdateSession(s2, s.nextId, remote.status, Some(LastSeq(s2.log)))
  }

  /** Links a new local resource and records the operation; fails without effect on a clash. */
  function LinkResource(s: State, link: Link, key: OpKey, kind: OpKind, result: OpResult): Result<State> {
    match UpsertLink(s.links, link)
    case Err(e) => Err(e)
    case Ok(links) =>
      Ok(s.(links := links, ops := RecordApplied(s.ops, key, link.host, kind, link.localUri, result)))
  }

  /** `create_remote_session`; `answer` is what the remote broker replies. */
  function CreateRemote(s: State, host: Id, op: Option<Id>, answer: Result<RemoteSession>): (State, Result<CreateReply>) {
    match AppliedResult(s.ops, op)
    case Some(CreateResult(reply)) => (s, Ok(reply))
    case Some(_) => (s, Err(InvalidState))
    case None =>
      var (s0, key) := OperationKey(s, op);
      var s1 := s0.(ops := RecordPending(s0.ops, key, host, OpCreateSession));
      match answer
      case Err(e) => (s1, Err(e))
      case Ok(remote) =>
        var sid := s1.nextId;
        var s2 := AdoptSession(s1, remote);
        var reply := CreateReply(sid, remote.status, LastSeq(s2.log));
        var link := Link(SessionUri(sid), SessionLink, sid, host, remote.uri, remote.id, remote.cursor);
        match LinkResource(s2, link, key, OpCreateSession, CreateResult(reply))
        case Err(e) => (s2, Err(e))
        case Ok(s3) => (s3, Ok(reply))
  }

  /** What a failed remote call leaves of the turn opened for it. */
  function DegradeTurn(s: State, sid: Id, tid: Id): State {
    var s1 := UpdateSession(UpdateTurn(s, tid, None, Degraded, true), sid, Degraded, Some(LastSeq(s.log)));
    Append(s1, TurnUri(tid), Some(SessionUri(sid)), TurnDegraded, FromRemoteBroker, JObj(map[]))
  }

  /** `send_remote_message` for a linked session. */
  function SendRemote(s: State, sid: Id, message: string, op: Option<Id>, answer: Result<RemoteTurn>): (State, Result<SendReply>)
    requires SessionUri(sid) in s.links
  {
    match AppliedResult(s.ops, op)
    case Some(SendResult(reply)) => (s, Ok(reply))
    case Some(_) => (s, Err(InvalidState))
    case None =>
      var host := s.links[SessionUri(sid)].host;
      var (s0, key) := OperationKey(s, op);
      var s1 := s0.(ops := RecordPending(s0.ops, key, host, OpSendMessage));
      ForwardTurn(s1, sid, host, message, key, answer)
  }

  /** Opens a turn, forwards it and links it to the remote turn. */
  function ForwardTurn(s: State, sid: Id, host: Id, message: string, key: OpKey, answer: Result<RemoteTurn>): (State, Result<SendReply>) {
    var tid := s.nextId;
    var s1 := OpenTurn(s, sid, message, FromRemoteBroker);
    match answer
    case Err(e) => (DegradeTurn(s1, sid, tid), Err(e))
    case Ok(remote) =>
      var reply := SendReply(tid, Running, LastSeq(s1.log));
      var link := Link(TurnUri(tid), TurnLink, tid, host, remote.uri, remote.id, 0);
      match LinkResource(s1, link, key, OpSendMessage, SendResult(reply))
      case Err(e) => (s1, Err(e))
      case Ok(s2) => (s2.(links := SetLinkCursor(s2.links, SessionUri(sid), remote.cursor)), Ok(reply))
  }

  /** `send_message`; `answer` matters only for a linked session. */
  function SendMessage(s: State, sid: Id, message: string, op: Option<Id>, answer: Result<RemoteTurn>): (State, Result<SendReply>) {
    if sid !in s.sessions then (s, Err(NotFound))
    else if SessionUri(sid) in s.links then SendRemote(s, sid, message, op, answer)
    else if s.sessions[sid].backendSessionId.None? then (s, Err(InvalidState))
    else
      var s1 := OpenTurn(s, sid, message, FromBroker);
      (s1, Ok(SendReply(s.nextId, Running, LastSeq(s1.log))))
  }

  // ---------------------------------------------------------------- mirroring

  /** The statuses a mirrored event gives to its linked turn and to the session. */
  function MirroredStatus(eventType: EventType): Option<(Status, Status)> {
    match eventType
    case TurnCompleted => Some((Completed, Idle))
    case TurnFailed => Some((Failed, Idle))
    case TurnCancelled => Some((Status.Cancelled, Idle))
    case TurnNeedsInput => Some((NeedsInput, NeedsInput))
    case _ => None
  }

  function ApplyMirrored(s: State, sid: Id, link: Option<Link>, eventType: EventType): State {
    match (link, MirroredStatus(eventType))
    case (Some(turn), Some((turnStatus, sessionStatus))) =>
      if turn.kind != TurnLink then s
      else UpdateSession(UpdateTurn(s, turn.localId, Some(turn.remoteId), turnStatus, true), sid, sessionStatus, Some(LastSeq(s.log)))
    case _ => s
  }

  ghost function RemoteParent(links: map<Uri, Link>, host: Id, e: Event): Option<Link> {
    if e.parent.Some? then ByRemote(links, host, e.parent.value) else None
  }

  /** Creates and links the local request for a remote `request.created`. */
  function AdoptRequest(s: State, host: Id, sid: Id, parent: Link, e: Event): (State, Result<()>) {
    var rid := s.nextId;
    var s1 := InsertRequest(s, NewRequest(sid, Some(parent.localId), RequestKindOf(e.payload), e.payload));
    var link := Link(RequestUri(rid), RequestLink, rid, host, e.resource, if e.resource.RootUri? then 0 else e.resource.id, 0);
    match UpsertLink(s1.links, link)
    case Err(err) => (s1, Err(err))
    case Ok(links) =>
      (Append(s1.(links := links), RequestUri(rid), Some(parent.localUri), RequestCreated, FromRemote(host), e.payload), Ok(()))
  }

  function UriOr(link: Option<Link>, default: Uri): Uri {
    if link.Some? then link.value.localUri else default
  }

  /** `mirror_remote_event`. */
  ghost function Mirror(s: State, host: Id, sid: Id, e: Event): (State, Result<()>) {
    var resourceLink := ByRemote(s.links, host, e.resource);
    var parentLink := RemoteParent(s.links, host, e);
    if e.eventType == RequestCreated then
      if parentLink.None? then (s, Err(InvalidState))
      else if resourceLink.Some? then (s, Ok(()))
      else AdoptRequest(s, host, sid, parentLink.value, e)
    else
      var s1 := Append(s, UriOr(resourceLink, SessionUri(sid)), Some(UriOr(parentLink, SessionUri(sid))), e.eventType, FromRemote(host), e.payload);
      (ApplyMirrored(s1, sid, resourceLink, e.eventType), Ok(()))
  }

  // ---------------------------------------------------------------- the machine

  /** A background turn: the session and turn captured by its closures, its mutex-held latest
      sequence number, and the cursor its client was given. */
  datatype Task = Task(sessionId: Id, backend: Id, latest: int, replyCursor: int, open: bool)

  datatype Sys = Sys(store: State, tasks: map<Id, Task>)

  datatype Step =
    | DoCreate(backend: Id, backendAnswer: Result<Id>)
    | DoSend(sid: Id, message: string, op: Option<Id>, turnAnswer: Result<RemoteTurn>)
    | DoSink(tid: Id, event: BackendEvent)
    | DoFinalize(tid: Id, finished: BackendTurn)
    | DoFail(tid: Id, summary: string)
    | DoCancel(sid: Id, tid: Id, op: Option<Id>, agreed: bool, now: nat)
    | DoResolve(rid: Id, decision: Decision, response: Option<Json>, reason: Option<string>, op: Option<Id>, agreed: bool, now: nat)
    | DoRaise(sid: Id, turn: Option<Id>, kind: RequestKind, backend: Id, payload: Json)
    | DoWait(rid: Id, expired: bool, now: nat)
    | DoAcknowledge(session: Option<Id>, selected: Option<Id>)
    | DoClose(sid: Id, status: Status)
    | DoRestart
    | DoReattached(sid: Id, idle: bool)
    | DoResumeFailed(sid: Id, summary: string)
    | DoReattach(sid: Id, tid: Id, latest: int)
    | DoInterrupt(tid: Id, summary: string, now: nat)
    | DoCreateRemote(host: Id, op: Option<Id>, sessionAnswer: Result<RemoteSession>)
    | DoMirror(host: Id, sid: Id, remote: Event)
    | DoSetCursor(sid: Id, cursor: int)
    | DoUnavailable(sid: Id, summary: string)

  ghost predicate KnownSeq(log: seq<Event>, cursor: int) {
    cursor == 0 || exists i :: 0 <= i < |log| && log[i].serverSeq == cursor
  }

  function SpawnedTask(s: State, sid: Id, cursor: int): Task
    requires sid in s.sessions
  {
    Task(sid, s.sessions[sid].backend, cursor, cursor, true)
  }

  predicate ActiveIn(turn: Turn, sid: Id) {
    turn.sessionId == sid && Unfinished(turn.status)
  }

  /** When a step is possible at all: the rest is decided by the operations themselves. */
  ghost predicate Enabled(y: Sys, step: Step) {
    var s := y.store;
    match step
    case DoSink(tid, _) => tid in y.tasks
    case DoFinalize(tid, _) => tid in y.tasks && y.tasks[tid].open
    case DoFail(tid, _) => tid in y.tasks && y.tasks[tid].open
    case DoRaise(sid, turn, _, _, _) =>
      && sid in s.sessions
      && (turn.Some? ==> turn.value in s.turns && ActiveIn(s.turns[turn.value], sid))
      && (turn.None? ==> forall t :: t in s.turns ==> !ActiveIn(s.turns[t], sid))
    case DoClose(_, status) => status == Archived || status == Disposed || status == Deleted
    case DoReattached(sid, _) => sid in s.sessions
    case DoResumeFailed(sid, _) => sid in s.sessions
    case DoReattach(sid, tid, latest) =>
      && sid in s.sessions && s.sessions[sid].backendSessionId.Some?
      && tid in s.turns && s.turns[tid].sessionId == sid && tid !in y.tasks && KnownSeq(s.log, latest)
    case DoMirror(_, sid, _) => sid in s.sessions
    case DoSetCursor(sid, _) => sid in s.sessions
    case DoUnavailable(sid, _) => sid in s.sessions
    case _ => true
  }

  ghost function Take(y: Sys, step: Step): Sys
    requires Enabled(y, step)
  {
    var s := y.store;
    match step
    case DoCreate(backend, answer) => y.(store := CreateSession(s, backend, answer).0)
    case DoSend(sid, message, op, answer) =>
      var (s1, reply) := SendMessage(s, sid, message, op, answer);
      if reply.Ok? && SessionUri(sid) !in s.links
      then Sys(s1, y.tasks[reply.value.turnId := SpawnedTask(s, sid, reply.value.eventCursor)])
      else y.(store := s1)
    case DoSink(tid, event) =>
      var task := y.tasks[tid];
      var s1 := Ingest(s, task.sessionId, task.backend, tid, event);
      Sys(s1, y.tasks[tid := task.(latest := LastSeq(s1.log))])
    case DoFinalize(tid, finished) =>
      var task := y.tasks[tid];
      Sys(Finalize(s, task.sessionId, task.backend, tid, finished, task.latest), y.tasks[tid := task.(open := false)])
    case DoFail(tid, summary) =>
      var task := y.tasks[tid];
      Sys(FailTurn(s, task.sessionId, task.backend, tid, summary), y.tasks[tid := task.(open := false)])
    case DoCancel(sid, tid, op, agreed, now) => y.(store := CancelTurn(s, sid, tid, op, agreed, now).0)
    case DoResolve(rid, decision, response, reason, op, agreed, now) =>
      y.(store := ResolveRequest(s, rid, decision, response, reason, op, agreed, now).0)
    case DoRaise(sid, turn, kind, backend, payload) =>
      y.(store := RaiseRequest(s, sid, turn, kind, if turn.Some? then TurnUri(turn.value) else SessionUri(sid), FromBackend(backend), payload))
    case DoWait(rid, expired, now) => y.(store := WaitRound(s, rid, expired, now).0)
    case DoAcknowledge(session, selected) =>
      y.(store := Append(AcknowledgeTurns(s, session, selected), RootUri, None, InboxAcknowledged, FromBroker, JObj(map[])))
    case DoClose(sid, status) => y.(store := CloseSession(s, sid, status))
    case DoRestart => y.(tasks := map[])
    case DoReattached(sid, idle) =>
      var s1 := Append(s, SessionUri(sid), None, SessionReattached, FromBackend(s.sessions[sid].backend), JObj(map[]));
      y.(store := if idle then UpdateSession(s1, sid, Idle, Some(LastSeq(s1.log))) else s1)
    case DoResumeFailed(sid, summary) =>
      y.(store := UpdateSession(Append(s, SessionUri(sid), None, SessionDegraded, FromBroker, Note(summary)), sid, Degraded, None))
    case DoReattach(sid, tid, latest) => y.(tasks := y.tasks[tid := SpawnedTask(s, sid, latest)])
    case DoInterrupt(tid, summary, now) => y.(store := Interrupt(s, tid, summary, now))
    case DoCreateRemote(host, op, answer) => y.(store := CreateRemote(s, host, op, answer).0)
    case DoMirror(host, sid, e) => y.(store := Mirror(s, host, sid, e).0)
    case DoSetCursor(sid, cursor) => y.(store := s.(links := SetLinkCursor(s.links, SessionUri(sid), cursor)))
    case DoUnavailable(sid, summary) =>
      y.(store := Append(s, SessionUri(sid), None, SessionDegraded, FromRemoteBroker, Note(summary)))
  }

  /** A step that is not possible leaves the machine where it is. */
  ghost function Next(y: Sys, step: Step): Sys {
    if Enabled(y, step) then Take(y, step) else y
  }

  ghost function Exec(y: Sys, steps: seq<Step>): Sys {
    if steps == [] then y else Next(Exec(y, steps[..|steps| - 1]), steps[|steps| - 1])
  }

  /** Marks the step of a run a proof looks at. */
  ghost predicate Index(i: int) { true }

  /** A run and every state it passes through. */
  ghost predicate Trace(y: Sys, steps: seq<Step>, states: seq<Sys>) {
    && |states| == |steps| + 1 && states[0] == y
    && forall i {:trigger Index(i)} :: Index(i) && 0 <= i < |steps| ==> states[i + 1] == Next(states[i], steps[i])
  }

  ghost predicate Reaches(y: Sys, steps: seq<Step>, z: Sys) {
    exists states :: Trace(y, steps, states) && states[|steps|] == z
  }

  const INITIAL := Sys(EMPTY_STATE, map[])
}

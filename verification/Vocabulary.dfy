/** The words results are stated in: which statuses a turn still works in, what an event type says of a
    turn, what a payload asks for, which events a read is about. No operation uses them, so a result says
    what an operation does without calling what the operation calls. */
module Vocabulary {
  import opened Types
  import opened Wrappers

  /** The turn still works, or waits for input. */
  predicate Unfinished(status: Status) {
    status == Running || status == NeedsInput
  }

  /** The statuses a client is told of. */
  predicate Settled(status: Status) {
    status == Completed || status == Failed || status == Status.Cancelled || status == NeedsInput
  }

  /** The event types that tell a turn's status. */
  predicate Tells(eventType: EventType) {
    eventType == TurnCompleted || eventType == TurnFailed || eventType == TurnCancelled || eventType == TurnNeedsInput
  }

  /** The status told. */
  function Told(eventType: EventType): Status {
    if eventType == TurnCompleted then Completed
    else if eventType == TurnFailed then Failed
    else if eventType == TurnCancelled then Status.Cancelled
    else if eventType == TurnNeedsInput then NeedsInput
    else Running
  }

  /** The event type says that the turn has this status. */
  predicate Reports(eventType: EventType, status: Status) {
    Tells(eventType) && Told(eventType) == status
  }

  /** The session has a turn that still works or waits. */
  ghost predicate HasUnfinished(turns: map<Id, Turn>, sid: Id) {
    exists t :: t in turns && turns[t].sessionId == sid && Unfinished(turns[t].status)
  }

  /** The newest of them. */
  ghost predicate NewestUnfinished(turns: map<Id, Turn>, sid: Id, t: Id) {
    && t in turns && turns[t].sessionId == sid && Unfinished(turns[t].status)
    && forall u :: u in turns && turns[u].sessionId == sid && Unfinished(turns[u].status) ==> u <= t
  }

  // ---------------------------------------------------------------- payloads and requests

  /** The payload is an object with this text in this field. */
  predicate HasText(payload: Json, key: string, text: string) {
    payload.JObj? && key in payload.fields && payload.fields[key] == JStr(text)
  }

  predicate NoText(payload: Json, key: string) {
    !(payload.JObj? && key in payload.fields && payload.fields[key].JStr?)
  }

  /** A request's kind and summary, as its payload asks for them. */
  predicate AsksAs(payload: Json, kind: RequestKind, summary: string) {
    && (kind == Input <==> HasText(payload, "request_kind", "input"))
    && (kind == Elicitation <==> HasText(payload, "request_kind", "elicitation"))
    && (HasText(payload, "summary", summary)
        || (NoText(payload, "summary") && HasText(payload, "content", summary))
        || (NoText(payload, "summary") && NoText(payload, "content") && summary == "background event"))
  }

  /** A request nobody has decided yet. */
  predicate Raised(r: Request, sid: Id, turn: Option<Id>, payload: Json) {
    && r.sessionId == sid && r.turnId == turn && r.payload == payload
    && r.status == RequestStatus.Pending && r.resolution.None? && r.reason.None? && r.resolvedAt.None?
  }

  predicate PendingOn(r: Request, tid: Id) {
    r.turnId == Some(tid) && r.status == RequestStatus.Pending
  }

  /** The pending requests of a turn, each once, oldest first. */
  ghost predicate PendingInOrder(requests: map<Id, Request>, tid: Id, ids: seq<Id>) {
    && (forall r :: r in ids <==> r in requests && PendingOn(requests[r], tid))
    && forall i, j :: 0 <= i < j < |ids| ==> ids[i] < ids[j]
  }

  /** The request as it was, withdrawn for want of an answer. */
  predicate TimedOut(before: Request, after: Request, now: nat) {
    && before.status == RequestStatus.Pending && after.status == RequestStatus.Cancelled
    && after.resolution == Some(Resolution(Cancel, None))
    && after.reason == Some("request timed out waiting for foreground resolution") && after.resolvedAt == Some(now)
    && after.sessionId == before.sessionId && after.turnId == before.turnId && after.kind == before.kind
    && after.summary == before.summary && after.payload == before.payload
  }

  // ---------------------------------------------------------------- events, sessions and turns

  /** The event is of the resource, or of something directly under it; without a target, any event is. */
  predicate About(e: Event, target: Option<Uri>) {
    target.None? || e.resource == target.value || e.parent == target
  }

  predicate OfTypes(e: Event, types: seq<EventType>) {
    |types| == 0 || e.eventType in types
  }

  /** The session can be used and its backend knows it. */
  predicate Resumable(session: Session) {
    session.backendSessionId.Some? && !(session.status == Archived || session.status == Disposed || session.status == Deleted)
  }

  /** The turn is among those an acknowledgement names: a turn, else a session, else all. */
  predicate Named(tid: Id, turn: Turn, session: Option<Id>, selected: Option<Id>) {
    || (selected.Some? && selected.value == tid)
    || (selected.None? && session.Some? && session.value == turn.sessionId)
    || (selected.None? && session.None?)
  }

  // ---------------------------------------------------------------- links

  /** The local resource stands for the remote one. */
  predicate Represents(links: map<Uri, Link>, host: Id, remote: Uri, local: Uri) {
    local in links && links[local].host == host && links[local].remoteUri == remote
  }

  /** Something local stands for the remote resource. */
  ghost predicate IsKnown(links: map<Uri, Link>, host: Id, remote: Uri) {
    exists local :: Represents(links, host, remote, local)
  }

  /** The local name of a remote resource, if there is one; else the session's. */
  ghost predicate NamedHere(links: map<Uri, Link>, host: Id, sid: Id, remote: Option<Uri>, local: Uri) {
    if remote.Some? && IsKnown(links, host, remote.value) then Represents(links, host, remote.value, local)
    else local == SessionUri(sid)
  }
}

/** Values shared by the store, the broker and the federation layer.

    Identifiers produced by `new_id` are fresh UUIDs in the program; here they are
    naturals drawn from a counter, so that creation order and id order agree. */
module Types {
  import opened Wrappers

  datatype Error = NotFound | InvalidInput | InvalidState | Conflict | RemoteFailure | BackendFailure

  datatype Result<+T> = Ok(value: T) | Err(error: Error)

  type Id = nat

  /** `resource_uri(kind, id)`: one constructor per kind the broker core names. */
  datatype Uri = RootUri | SessionUri(id: Id) | TurnUri(id: Id) | RequestUri(id: Id)

  datatype Json =
    | JNull
    | JBool(flag: bool)
    | JNum(num: int)
    | JStr(text: string)
    | JArr(items: seq<Json>)
    | JObj(fields: map<string, Json>)

  /** `Value::get` with a string key: defined on objects only. */
  function Get(value: Json, key: string): Option<Json> {
    if value.JObj? && key in value.fields then Some(value.fields[key]) else None
  }

  /** `get(key).and_then(as_str)`. */
  function GetStr(value: Json, key: string): Option<string> {
    match Get(value, key)
    case Some(JStr(text)) => Some(text)
    case _ => None
  }

  datatype EventType =
    | SessionCreated | SessionStatusChanged | SessionReattached | SessionDegraded
    | SessionArchived | SessionError
    | TurnQueued | TurnStarted | TurnCompleted | TurnFailed | TurnCancelled
    | TurnNeedsInput | TurnDegraded
    | RequestCreated | RequestResolved | RequestCancelled
    | AssistantMessage | MessageCompleted | InboxAcknowledged
    | OtherType(name: string)

  /** `origin_kind` together with `origin_id`. */
  datatype Origin =
    | FromBroker
    | FromRemoteBroker
    | FromBackend(backend: Id)
    | FromRemote(host: Id)

  datatype Event = Event(
    serverSeq: int,
    resource: Uri,
    parent: Option<Uri>,
    eventType: EventType,
    origin: Origin,
    payload: Json)

  datatype Status =
    | Pending | Ready | Running | Idle | NeedsInput | Completed | Failed | Cancelled
    | Archived | Disposed | Deleted | Degraded | Unsupported | NotChecked | Checking
    | Unavailable | Incompatible | Backoff

  datatype Session = Session(
    backend: Id,
    backendSessionId: Option<Id>,
    status: Status,
    latestCursor: int)

  datatype Turn = Turn(
    sessionId: Id,
    backendTurnId: Option<Id>,
    status: Status,
    unread: bool)

  datatype RequestKind = Permission | Input | Elicitation

  datatype RequestStatus = Pending | Resolved | Cancelled

  datatype Decision = Approve | Deny | Respond | Cancel

  datatype Resolution = Resolution(decision: Decision, response: Option<Json>)

  datatype Request = Request(
    sessionId: Id,
    turnId: Option<Id>,
    kind: RequestKind,
    status: RequestStatus,
    summary: string,
    payload: Json,
    resolution: Option<Resolution>,
    reason: Option<string>,
    resolvedAt: Option<nat>)

  datatype LinkKind = SessionLink | TurnLink | RequestLink

  datatype Link = Link(
    localUri: Uri,
    kind: LinkKind,
    localId: Id,
    host: Id,
    remoteUri: Uri,
    remoteId: Id,
    cursor: int)

  datatype SendReply = SendReply(turnId: Id, status: Status, eventCursor: int)

  datatype CreateReply = CreateReply(sessionId: Id, status: Status, eventCursor: int)

  datatype OpKind = OpCreateSession | OpSendMessage | OpCancelTurn | OpResolveRequest

  datatype OpResult =
    | SendResult(send: SendReply)
    | CreateResult(create: CreateReply)
    | OtherResult

  datatype OpStatus = OpPending | OpApplied

  /** Operation ids are given by the caller or minted by the broker; the two never meet. */
  datatype OpKey = Given(id: Id) | Minted(id: Id)

  datatype Operation = Operation(
    host: Id,
    kind: OpKind,
    status: OpStatus,
    localUri: Option<Uri>,
    result: Option<OpResult>)

  /** One value per table of the store. */
  datatype State = State(
    log: seq<Event>,
    sessions: map<Id, Session>,
    turns: map<Id, Turn>,
    requests: map<Id, Request>,
    links: map<Uri, Link>,
    ops: map<OpKey, Operation>,
    nextId: Id)

  const EMPTY_STATE := State([], map[], map[], map[], map[], map[], 0)

  /** An event a backend hands to the sink or returns with a finished turn. */
  datatype BackendEvent = BackendEvent(eventType: EventType, payload: Json)

  /** What a remote broker answers to `send_message` and `create_session`. */
  datatype RemoteTurn = RemoteTurn(uri: Uri, id: Id, cursor: int)

  datatype RemoteSession = RemoteSession(uri: Uri, id: Id, cursor: int, backend: Id, status: Status)

  datatype BackendTurn = BackendTurn(backendTurnId: Id, status: Status, events: seq<BackendEvent>)
}

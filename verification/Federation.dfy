/** Two brokers: the local one links sessions, turns and requests to a remote host, forwards
    operations to it and mirrors the remote log, page by page, into its own. */
module Federation {
  import opened Types
  import opened Vocabulary
  import opened Wrappers
  import opened EventLog
  import opened StoreModel
  import opened BrokerModel
  import opened BrokerInvariants
  import opened BrokerSteps
  import opened BrokerRuns

  // ---------------------------------------------------------------- the remote log

  predicate SessionParent(e: Event) {
    e.parent.Some? && e.parent.value.SessionUri?
  }

  predicate SameRequest(a: Event, b: Event) {
    a.resource == b.resource && a.resource.RequestUri? && SessionParent(a) && SessionParent(b)
  }

  predicate ShapeOk(e: Event) {
    && (e.eventType == RequestCreated ==> e.resource.RequestUri?)
    && (e.parent.Some? ==> !e.parent.value.RequestUri?)
    && (e.resource.SessionUri? ==> e.parent.None?)
    && (e.resource.TurnUri? ==> SessionParent(e))
  }

  /** A request's creation is its first event. */
  ghost predicate BornFirst(log: seq<Event>) {
    forall i, j :: 0 <= i < j < |log| && log[j].eventType == RequestCreated ==> log[i].resource != log[j].resource
  }

  /** All session parents named for one request are the same session. For turns that need not hold: a
      cancellation through another session names that one. */
  ghost predicate OneHome(log: seq<Event>) {
    forall i, j :: 0 <= i < |log| && 0 <= j < |log| && SameRequest(log[i], log[j]) ==> log[i].parent == log[j].parent
  }

  /** What the mirror relies on; `HostLog` derives it for a broker's own log. */
  ghost predicate RemoteLogOk(log: seq<Event>) {
    && LogOk(log) && BornFirst(log) && OneHome(log)
    && (forall i :: 0 <= i < |log| ==> ShapeOk(log[i]))
  }

  // ---------------------------------------------------------------- synchronisation

  ghost predicate Linked(s: State, host: Id, sid: Id) {
    sid in s.sessions && SessionUri(sid) in s.links && s.links[SessionUri(sid)].host == host
  }

  /** Mirrors a page in order, stopping at the first failure. */
  ghost function MirrorAll(s: State, host: Id, sid: Id, page: seq<Event>): (State, bool) {
    if page == [] then (s, true)
    else
      var (s1, ok) := MirrorAll(s, host, sid, page[..|page| - 1]);
      if !ok then (s1, false)
      else
        var (s2, result) := Mirror(s1, host, sid, page[|page| - 1]);
        (s2, result.Ok?)
  }

  const SYNC_LIMIT: nat := 500

  function RemotePage(s: State, sid: Id, remote: seq<Event>): seq<Event>
    requires SessionUri(sid) in s.links
  {
    var link := s.links[SessionUri(sid)];
    Page(remote, Some(SessionUri(link.remoteId)), link.cursor, SYNC_LIMIT, [])
  }

  /** Mirrors a page and, unless an event failed, moves the session's cursor to `next`. */
  ghost function ApplyPage(s: State, host: Id, sid: Id, page: seq<Event>, next: int): State {
    var (s1, ok) := MirrorAll(s, host, sid, page);
    if ok then s1.(links := SetLinkCursor(s1.links, SessionUri(sid), next)) else s1
  }

  /** `sync_remote_session_events` when the remote read succeeds. */
  ghost function SyncStore(s: State, host: Id, sid: Id, remote: seq<Event>): State
    requires SessionUri(sid) in s.links
  {
    var page := RemotePage(s, sid, remote);
    ApplyPage(s, host, sid, page, NextCursor(page, s.links[SessionUri(sid)].cursor))
  }

  // ---------------------------------------------------------------- the two-broker machine

  /** `tracked` collects the linked turns whose remote events the session cursor has not jumped over. */
  datatype Fed = Fed(local: Sys, remote: seq<Event>, host: Id, tracked: set<Id>)

  datatype FedStep =
    | Local(step: Step)
    | RemoteGrows(events: seq<Event>)
    | Sync(sid: Id)
    | Pull(sid: Id)
    | ForwardSend(sid: Id, message: string, op: Option<Id>, remoteTurn: Id)
    | ForwardCancel(sid: Id, tid: Id, op: Option<Id>, now: nat, events: seq<Event>)
    | ForwardCreate(op: Option<Id>, remoteSession: Id, backend: Id, status: Status)

  /** Steps of the local broker that the remote one does not answer with success. */
  ghost predicate StaysLocal(s: State, step: Step) {
    match step
    case DoSend(sid, _, op, answer) => SessionUri(sid) in s.links ==> answer.Err?
    case DoCancel(_, tid, _, agreed, _) => TurnUri(tid) in s.links ==> !agreed
    case DoCreateRemote(_, _, answer) => answer.Err?
    case DoMirror(_, _, _) => false
    case DoSetCursor(_, _) => false
    case _ => true
  }

  /** The next remote event of the session's view, if the cursor has not reached the end. */
  function Ahead(s: State, sid: Id, remote: seq<Event>): seq<Event>
    requires SessionUri(sid) in s.links
  {
    var link := s.links[SessionUri(sid)];
    After(remote, Some(SessionUri(link.remoteId)), link.cursor)
  }

  ghost predicate Drained(f: Fed, sid: Id) {
    Linked(f.local.store, f.host, sid) && Ahead(f.local.store, sid, f.remote) == []
  }

  /** The two events with which the remote `send_message` opens a turn. */
  function RemoteOpening(remote: seq<Event>, session: Id, turn: Id, message: string): seq<Event> {
    [Event(LastSeq(remote) + 1, TurnUri(turn), Some(SessionUri(session)), TurnQueued, FromBroker, JObj(map["message" := JStr(message)])),
     Event(LastSeq(remote) + 2, TurnUri(turn), Some(SessionUri(session)), TurnStarted, FromBroker, JObj(map[]))]
  }

  /** The two events with which the remote `create_session` opens a session. */
  function RemoteCreation(remote: seq<Event>, session: Id, backend: Id): seq<Event> {
    [Event(LastSeq(remote) + 1, SessionUri(session), None, SessionCreated, FromBroker, JObj(map[])),
     Event(LastSeq(remote) + 2, SessionUri(session), None, SessionStatusChanged, FromBackend(backend), JObj(map[]))]
  }

  ghost predicate Unused(log: seq<Event>, u: Uri) {
    forall i :: 0 <= i < |log| ==> log[i].resource != u && log[i].parent != Some(u)
  }


  predicate SetsStatus(e: Event, turn: Uri) {
    e.resource == turn && Tells(e.eventType)
  }

  predicate Cancellation(e: Event, session: Id, turn: Id) {
    e.resource == TurnUri(turn) && e.eventType == TurnCancelled && e.parent == Some(SessionUri(session))
  }

  /** What a remote `cancel_turn` logs: the turn's cancellation, under the session that was named, and
      nothing else that sets the turn's status. */
  ghost predicate CancelsTurn(events: seq<Event>, session: Id, turn: Id) {
    && (exists i :: 0 <= i < |events| && Cancellation(events[i], session, turn))
    && (forall i :: 0 <= i < |events| && SetsStatus(events[i], TurnUri(turn)) ==> Cancellation(events[i], session, turn))
  }

  ghost predicate FedEnabled(f: Fed, step: FedStep) {
    var s := f.local.store;
    match step
    case Local(inner) => Enabled(f.local, inner) && StaysLocal(s, inner)
    case RemoteGrows(events) => RemoteLogOk(f.remote + events)
    case Sync(sid) => Linked(s, f.host, sid)
    case Pull(sid) => Linked(s, f.host, sid) && Ahead(s, sid, f.remote) != []
    case ForwardSend(sid, _, op, turn) => Linked(s, f.host, sid) && AppliedResult(s.ops, op).None? && Unused(f.remote, TurnUri(turn))
    case ForwardCancel(sid, tid, _, _, events) =>
      && Linked(s, f.host, sid) && tid in s.turns
      && TurnUri(tid) in s.links && s.links[TurnUri(tid)].host == f.host
      && RemoteLogOk(f.remote + events)
      && CancelsTurn(events, s.links[SessionUri(sid)].remoteId, s.links[TurnUri(tid)].remoteId)
    case ForwardCreate(op, session, _, _) => AppliedResult(s.ops, op).None? && Unused(f.remote, SessionUri(session))
  }

  ghost function WithStore(f: Fed, s: State): Fed {
    f.(local := f.local.(store := s))
  }

  /** One event of a synchronisation: mirror it and move the cursor onto it. */
  ghost function PullStore(s: State, host: Id, sid: Id, e: Event): State {
    var (s1, result) := Mirror(s, host, sid, e);
    if result.Ok? then s1.(links := SetLinkCursor(s1.links, SessionUri(sid), e.serverSeq)) else s1
  }

  function StillTracked(f: Fed, sid: Id): set<Id> {
    set t | t in f.tracked && t in f.local.store.turns && f.local.store.turns[t].sessionId != sid
  }

  /** A message on a session that is not drained makes its cursor jump over events of the earlier turns. */
  ghost function TrackedAfterSend(f: Fed, sid: Id, tid: Id): set<Id> {
    (if Drained(f, sid) then f.tracked else StillTracked(f, sid)) + {tid}
  }

  ghost function FedTake(f: Fed, step: FedStep): Fed
    requires FedEnabled(f, step)
  {
    var s := f.local.store;
    match step
    case Local(inner) => f.(local := Take(f.local, inner))
    case RemoteGrows(events) => f.(remote := f.remote + events)
    case Sync(sid) => WithStore(f, SyncStore(s, f.host, sid, f.remote))
    case Pull(sid) => WithStore(f, PullStore(s, f.host, sid, Ahead(s, sid, f.remote)[0]))
    case ForwardSend(sid, message, op, turn) =>
      var remote := f.remote + RemoteOpening(f.remote, s.links[SessionUri(sid)].remoteId, turn, message);
      var (s1, reply) := SendRemote(s, sid, message, op, Ok(RemoteTurn(TurnUri(turn), turn, LastSeq(remote))));
      f.(local := f.local.(store := s1), remote := remote, tracked := if reply.Ok? then TrackedAfterSend(f, sid, reply.value.turnId) else f.tracked)
    case ForwardCancel(sid, tid, op, now, events) =>
      WithStore(f, CancelTurn(s, sid, tid, op, true, now).0).(remote := f.remote + events)
    case ForwardCreate(op, session, backend, status) =>
      var remote := f.remote + RemoteCreation(f.remote, session, backend);
      WithStore(f, CreateRemote(s, f.host, op, Ok(RemoteSession(SessionUri(session), session, LastSeq(remote), backend, status))).0).(remote := remote)
  }

  ghost function FedNext(f: Fed, step: FedStep): Fed {
    if FedEnabled(f, step) then FedTake(f, step) else f
  }

  ghost function FedExec(f: Fed, steps: seq<FedStep>): Fed {
    if steps == [] then f else FedNext(FedExec(f, steps[..|steps| - 1]), steps[|steps| - 1])
  }

  /** A run of the two brokers and every state it passes through. */
  ghost predicate FedTrace(f: Fed, steps: seq<FedStep>, states: seq<Fed>) {
    && |states| == |steps| + 1 && states[0] == f
    && forall i {:trigger Index(i)} :: Index(i) && 0 <= i < |steps| ==> states[i + 1] == FedNext(states[i], steps[i])
  }

  ghost predicate FedReaches(f: Fed, steps: seq<FedStep>, g: Fed) {
    exists states :: FedTrace(f, steps, states) && states[|steps|] == g
  }

  /** Both brokers start with empty stores. */
  function FedInitial(host: Id): Fed {
    Fed(INITIAL, [], host, {})
  }

  // ---------------------------------------------------------------- the invariant

  ghost predicate HasEvent(log: seq<Event>, resource: Uri, parent: Uri) {
    exists i :: 0 <= i < |log| && log[i].resource == resource && log[i].parent == Some(parent)
  }

  ghost predicate Numbers(log: seq<Event>, cursor: int) {
    exists i :: 0 <= i < |log| && log[i].serverSeq == cursor
  }

  /** A mirrored request was born in the view of a linked session, at or before that session's cursor. */
  ghost predicate BornBehind(s: State, host: Id, remote: seq<Event>, request: Uri, i: int, sid: Id) {
    && 0 <= i < |remote| && remote[i].eventType == RequestCreated && remote[i].resource == request
    && Linked(s, host, sid) && remote[i].parent == Some(s.links[SessionUri(sid)].remoteUri)
    && remote[i].serverSeq <= s.links[SessionUri(sid)].cursor
  }

  ghost predicate RemoteLinkOk(s: State, host: Id, remote: seq<Event>, link: Link) {
    match link.kind
    case SessionLink => link.remoteUri == SessionUri(link.remoteId) && Numbers(remote, link.cursor)
    case TurnLink =>
      && link.remoteUri == TurnUri(link.remoteId) && link.localId in s.turns
      && Linked(s, host, s.turns[link.localId].sessionId)
      && HasEvent(remote, link.remoteUri, s.links[SessionUri(s.turns[link.localId].sessionId)].remoteUri)
    case RequestLink => link.remoteUri.RequestUri? && exists i, sid :: BornBehind(s, host, remote, link.remoteUri, i, sid)
  }

  ghost predicate RemoteLinksOk(s: State, host: Id, remote: seq<Event>) {
    forall u :: u in s.links && s.links[u].host == host ==> RemoteLinkOk(s, host, remote, s.links[u])
  }

  ghost predicate FedInv(f: Fed) {
    && SysInv(f.local) && RemoteLogOk(f.remote)
    && RemoteLinksOk(f.local.store, f.host, f.remote)
  }
}

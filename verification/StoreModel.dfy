/** What each store operation does to the tables, as functions on their contents. */
module StoreModel {
  import opened Types
  import opened Wrappers
  import opened EventLog

  function Append(s: State, resource: Uri, parent: Option<Uri>, eventType: EventType, origin: Origin, payload: Json): State {
    s.(log := s.log + [Event(LastSeq(s.log) + 1, resource, parent, eventType, origin, payload)])
  }

  function InsertSession(s: State, session: Session): State {
    s.(sessions := s.sessions[s.nextId := session], nextId := s.nextId + 1)
  }

  function InsertTurn(s: State, turn: Turn): State {
    s.(turns := s.turns[s.nextId := turn], nextId := s.nextId + 1)
  }

  function InsertRequest(s: State, request: Request): State {
    s.(requests := s.requests[s.nextId := request], nextId := s.nextId + 1)
  }

  // ---------------------------------------------------------------- sessions and turns

  function UpdateSession(s: State, sid: Id, status: Status, cursor: Option<int>): State {
    if sid !in s.sessions then s
    else
      var row := s.sessions[sid];
      s.(sessions := s.sessions[sid := row.(status := status,
                                            latestCursor := if cursor.Some? then cursor.value else row.latestCursor)])
  }

  function UpdateSessionBackend(s: State, sid: Id, backendSession: Id, status: Status): State {
    if sid !in s.sessions then s
    else s.(sessions := s.sessions[sid := s.sessions[sid].(backendSessionId := Some(backendSession), status := status)])
  }

  function UpdateTurn(s: State, tid: Id, backendTurn: Option<Id>, status: Status, unread: bool): State {
    if tid !in s.turns then s
    else
      var row := s.turns[tid];
      s.(turns := s.turns[tid := row.(backendTurnId := if backendTurn.Some? then backendTurn else row.backendTurnId,
                                      status := status, unread := unread)])
  }

  /** `status IN ('queued', 'running', 'needs_input')`; no turn status is ever stored as 'queued'. */
  predicate Active(status: Status) {
    status == Running || status == NeedsInput
  }

  function MarkInterrupted(s: State, tid: Id): State {
    if tid in s.turns && Active(s.turns[tid].status)
    then s.(turns := s.turns[tid := s.turns[tid].(status := Failed, unread := true)])
    else s
  }

  /** The turns `acknowledge_inbox_turns` clears: the most specific selector wins. */
  predicate Acknowledges(tid: Id, turn: Turn, session: Option<Id>, selected: Option<Id>) {
    if selected.Some? then tid == selected.value
    else session.Some? ==> turn.sessionId == session.value
  }

  function AcknowledgeTurns(s: State, session: Option<Id>, selected: Option<Id>): State {
    s.(turns := map t | t in s.turns ::
      if Acknowledges(t, s.turns[t], session, selected) then s.turns[t].(unread := false) else s.turns[t])
  }

  // ---------------------------------------------------------------- requests

  /** `UPDATE ... WHERE request_id = ? AND status = 'pending'`. */
  function Decide(requests: map<Id, Request>, rid: Id, decision: Decision, response: Option<Json>, reason: Option<string>, now: nat): map<Id, Request> {
    if rid in requests && requests[rid].status == RequestStatus.Pending
    then requests[rid := requests[rid].(
           status := if decision == Cancel then RequestStatus.Cancelled else Resolved,
           resolution := Some(Resolution(decision, response)), reason := reason, resolvedAt := Some(now))]
    else requests
  }

  function Resolve(s: State, rid: Id, decision: Decision, response: Option<Json>, reason: Option<string>, now: nat): State {
    s.(requests := Decide(s.requests, rid, decision, response, reason, now))
  }

  predicate PendingFor(r: Request, tid: Id) {
    r.turnId == Some(tid) && r.status == RequestStatus.Pending
  }

  /** The ids the SELECT delivers, oldest first. */
  function PendingIds(requests: map<Id, Request>, tid: Id, bound: Id): seq<Id> {
    if bound == 0 then []
    else
      var rest := PendingIds(requests, tid, bound - 1);
      if bound - 1 in requests && PendingFor(requests[bound - 1], tid) then rest + [bound - 1] else rest
  }

  function Withdrawn(r: Request, reason: string, now: nat): Request {
    r.(status := RequestStatus.Cancelled, resolution := Some(Resolution(Cancel, None)),
       reason := Some(reason), resolvedAt := Some(now))
  }

  function WithdrawAll(requests: map<Id, Request>, tid: Id, reason: string, now: nat): map<Id, Request> {
    map r | r in requests :: if PendingFor(requests[r], tid) then Withdrawn(requests[r], reason, now) else requests[r]
  }

  function CancelPending(s: State, tid: Id, reason: string, now: nat): State {
    s.(requests := WithdrawAll(s.requests, tid, reason, now))
  }

  // ---------------------------------------------------------------- links

  /** The table's keys: primary key on the local URI, unique (host, remote URI). */
  ghost predicate LinksOk(links: map<Uri, Link>) {
    && (forall u :: u in links ==> links[u].localUri == u)
    && (forall u, v :: u in links && v in links && links[u].host == links[v].host && links[u].remoteUri == links[v].remoteUri ==> u == v)
  }

  function ByLocal(links: map<Uri, Link>, local: Uri): Option<Link> {
    if local in links then Some(links[local]) else None
  }

  ghost predicate IsRemote(links: map<Uri, Link>, host: Id, remote: Uri, u: Uri) {
    u in links && links[u].host == host && links[u].remoteUri == remote
  }

  ghost function ByRemote(links: map<Uri, Link>, host: Id, remote: Uri): Option<Link> {
    if exists u :: IsRemote(links, host, remote, u)
    then var u :| IsRemote(links, host, remote, u); Some(links[u])
    else None
  }

  /** A row with the same (host, remote URI) but another local URI makes the upsert fail. */
  predicate Clashes(links: map<Uri, Link>, link: Link) {
    exists u :: u in links && u != link.localUri && links[u].host == link.host && links[u].remoteUri == link.remoteUri
  }

  function UpsertLink(links: map<Uri, Link>, link: Link): Result<map<Uri, Link>> {
    if Clashes(links, link) then Err(Conflict) else Ok(links[link.localUri := link])
  }

  function SetLinkCursor(links: map<Uri, Link>, local: Uri, cursor: int): map<Uri, Link> {
    if local in links then links[local := links[local].(cursor := cursor)] else links
  }

  lemma ByRemoteIs(links: map<Uri, Link>, host: Id, remote: Uri, u: Uri)
    requires LinksOk(links) && IsRemote(links, host, remote, u)
    ensures ByRemote(links, host, remote) == Some(links[u])
  {}

  /** The two lookups are mutually inverse. */
  lemma LookupsInverse(links: map<Uri, Link>, l: Link)
    requires LinksOk(links)
    ensures ByLocal(links, l.localUri) == Some(l) <==> ByRemote(links, l.host, l.remoteUri) == Some(l)
  {
    if ByLocal(links, l.localUri) == Some(l) {
      ByRemoteIs(links, l.host, l.remoteUri, l.localUri);
    }
  }

  datatype LinkStep = Upserted(link: Link) | CursorSet(local: Uri, cursor: int)

  function LinkNext(links: map<Uri, Link>, step: LinkStep): map<Uri, Link> {
    match step
    case Upserted(link) =>
      (match UpsertLink(links, link)
       case Ok(updated) => updated
       case Err(_) => links)
    case CursorSet(local, cursor) => SetLinkCursor(links, local, cursor)
  }

  function LinkRun(links: map<Uri, Link>, steps: seq<LinkStep>): map<Uri, Link> {
    if steps == [] then links else LinkNext(LinkRun(links, steps[..|steps| - 1]), steps[|steps| - 1])
  }

  /** Links stay a partial bijection through every sequence of upserts, accepted or rejected,
      and cursor updates; an upsert is rejected exactly when it would break it. */
  lemma {:induction false} LinksStayBijective(links: map<Uri, Link>, steps: seq<LinkStep>, l: Link)
    requires LinksOk(links)
    ensures var final := LinkRun(links, steps);
            && LinksOk(final)
            && (ByLocal(final, l.localUri) == Some(l) <==> ByRemote(final, l.host, l.remoteUri) == Some(l))
            && (UpsertLink(final, l).Err? <==> !LinksOk(final[l.localUri := l]))
  {
    if steps != [] {
      LinksStayBijective(links, steps[..|steps| - 1], l);
    }
    var final := LinkRun(links, steps);
    LookupsInverse(final, l);
    if UpsertLink(final, l).Err? {
      var u :| u in final && u != l.localUri && final[u].host == l.host && final[u].remoteUri == l.remoteUri;
      var after := final[l.localUri := l];
      assert u in after && l.localUri in after && after[u].host == after[l.localUri].host;
    }
  }

  // ---------------------------------------------------------------- forwarded operations

  function RecordPending(ops: map<OpKey, Operation>, key: OpKey, host: Id, kind: OpKind): map<OpKey, Operation> {
    ops[key := Operation(host, kind, OpPending, None, None)]
  }

  function RecordApplied(ops: map<OpKey, Operation>, key: OpKey, host: Id, kind: OpKind, local: Uri, result: OpResult): map<OpKey, Operation> {
    var op := if key in ops then ops[key] else Operation(host, kind, OpPending, None, None);
    ops[key := op.(status := OpApplied, localUri := Some(local), result := Some(result))]
  }

  /** The stored reply of an operation that already took effect. */
  function AppliedResult(ops: map<OpKey, Operation>, given: Option<Id>): Option<OpResult> {
    if given.Some? && Given(given.value) in ops && ops[Given(given.value)].status == OpApplied
    then ops[Given(given.value)].result
    else None
  }
}

/** The two-broker machine keeps its links and cursors anchored in the remote log. */
module FedInvariant {
  import opened Types
  import opened Vocabulary
  import opened Wrappers
  import opened EventLog
  import opened StoreModel
  import opened BrokerModel
  import opened BrokerInvariants
  import opened BrokerSteps
  import opened BrokerRuns
  import opened Federation

  // ---------------------------------------------------------------- the next event of a view

  ghost predicate IsNext(s: State, sid: Id, remote: seq<Event>, i: int)
    requires SessionUri(sid) in s.links
  {
    var link := s.links[SessionUri(sid)];
    var view := Some(SessionUri(link.remoteId));
    && 0 <= i < |remote| && remote[i].serverSeq > link.cursor && About(remote[i], view)
    && forall j :: 0 <= j < |remote| && About(remote[j], view) && remote[j].serverSeq > link.cursor ==> remote[i].serverSeq <= remote[j].serverSeq
  }

  /** The first event ahead of the cursor is the lowest-numbered one of the view above it. */
  lemma AheadFirst(s: State, sid: Id, remote: seq<Event>) returns (i: nat)
    requires SessionUri(sid) in s.links && LogOk(remote) && Ahead(s, sid, remote) != []
    ensures IsNext(s, sid, remote, i) && remote[i] == Ahead(s, sid, remote)[0]
  {
    var link := s.links[SessionUri(sid)];
    var view := Some(SessionUri(link.remoteId));
    var rows := Ahead(s, sid, remote);
    var hi := if LastSeq(remote) < link.cursor then link.cursor else LastSeq(remote);
    WindowAscending(remote, view, [], link.cursor, hi);
    assert rows[0] in rows;
    WindowMembers(remote, view, [], link.cursor, hi, rows[0]);
    i :| 0 <= i < |remote| && remote[i] == rows[0];
    forall j | 0 <= j < |remote| && About(remote[j], view) && remote[j].serverSeq > link.cursor
      ensures remote[i].serverSeq <= remote[j].serverSeq
    {
      WindowMembers(remote, view, [], link.cursor, hi, remote[j]);
      var k :| 0 <= k < |rows| && rows[k] == remote[j];
    }
  }

  lemma AheadEmpty(s: State, sid: Id, remote: seq<Event>, j: int)
    requires SessionUri(sid) in s.links && LogOk(remote) && Ahead(s, sid, remote) == []
    requires 0 <= j < |remote| && About(remote[j], Some(SessionUri(s.links[SessionUri(sid)].remoteId)))
    ensures remote[j].serverSeq <= s.links[SessionUri(sid)].cursor
  {
    var link := s.links[SessionUri(sid)];
    var hi := if LastSeq(remote) < link.cursor then link.cursor else LastSeq(remote);
    WindowMembers(remote, Some(SessionUri(link.remoteId)), [], link.cursor, hi, remote[j]);
  }

  // ---------------------------------------------------------------- mirroring never fails

  lemma SessionRemote(f: Fed, sid: Id)
    requires FedInv(f) && Linked(f.local.store, f.host, sid)
    ensures var link := f.local.store.links[SessionUri(sid)];
            && link.kind == SessionLink && link.remoteUri == SessionUri(link.remoteId) && Numbers(f.remote, link.cursor)
            && link.localUri == SessionUri(sid)
            && ByRemote(f.local.store.links, f.host, link.remoteUri) == Some(link)
  {
    var s := f.local.store;
    assert LinkShape(s, s.links[SessionUri(sid)]);
    ByRemoteIs(s.links, f.host, s.links[SessionUri(sid)].remoteUri, SessionUri(sid));
  }

  lemma BornElsewhere(f: Fed, sid: Id, i: int, request: Uri, j: int, home: Id)
    requires FedInv(f) && Linked(f.local.store, f.host, sid) && IsNext(f.local.store, sid, f.remote, i)
    requires f.remote[i].eventType == RequestCreated && BornBehind(f.local.store, f.host, f.remote, request, j, home)
    ensures f.remote[i].resource != request
  {
    SessionRemote(f, sid);
    assert ShapeOk(f.remote[i]);
  }

  lemma LinkedElsewhere(f: Fed, sid: Id, i: int, u: Uri)
    requires FedInv(f) && Linked(f.local.store, f.host, sid) && IsNext(f.local.store, sid, f.remote, i)
    requires f.remote[i].eventType == RequestCreated && u in f.local.store.links && f.local.store.links[u].host == f.host
    ensures f.remote[i].resource != f.local.store.links[u].remoteUri
  {
    var s := f.local.store;
    assert RemoteLinkOk(s, f.host, f.remote, s.links[u]) && ShapeOk(f.remote[i]);
    if s.links[u].kind == RequestLink {
      var j, home :| BornBehind(s, f.host, f.remote, s.links[u].remoteUri, j, home);
      BornElsewhere(f, sid, i, s.links[u].remoteUri, j, home);
    }
  }

  /** A request that is about to be mirrored is not linked yet. */
  lemma NextRequestUnlinked(f: Fed, sid: Id, i: int)
    requires FedInv(f) && Linked(f.local.store, f.host, sid) && IsNext(f.local.store, sid, f.remote, i)
    requires f.remote[i].eventType == RequestCreated
    ensures ByRemote(f.local.store.links, f.host, f.remote[i].resource).None?
  {
    var links := f.local.store.links;
    forall u | u in links && links[u].host == f.host ensures links[u].remoteUri != f.remote[i].resource {
      LinkedElsewhere(f, sid, i, u);
    }
    ByRemoteRow(links, f.host, f.remote[i].resource);
  }

  /** A request event in a session view has that session as its parent, so the unmapped-parent
      error of the mirror cannot occur, and the pull links the new request. */
  lemma PullAdopts(f: Fed, sid: Id, i: int)
    requires FedInv(f) && Linked(f.local.store, f.host, sid) && IsNext(f.local.store, sid, f.remote, i)
    requires f.remote[i].eventType == RequestCreated
    ensures var s, e := f.local.store, f.remote[i];
            var link := s.links[SessionUri(sid)];
            && RemoteParent(s.links, f.host, e) == Some(link)
            && AdoptRequest(s, f.host, sid, link, e).1.Ok?
            && Mirror(s, f.host, sid, e) == AdoptRequest(s, f.host, sid, link, e)
  {
    var s, e := f.local.store, f.remote[i];
    SessionRemote(f, sid);
    NextRequestUnlinked(f, sid, i);
    assert ShapeOk(e);
    ByRemoteRow(s.links, f.host, e.resource);
    assert e.parent == Some(s.links[SessionUri(sid)].remoteUri);
  }

  /** No event that a session-targeted read delivers fails to mirror. */
  lemma PullSucceeds(f: Fed, sid: Id, i: int)
    requires FedInv(f) && Linked(f.local.store, f.host, sid) && IsNext(f.local.store, sid, f.remote, i)
    ensures Mirror(f.local.store, f.host, sid, f.remote[i]).1.Ok?
  {
    if f.remote[i].eventType == RequestCreated { PullAdopts(f, sid, i); }
  }

  // ---------------------------------------------------------------- links stay anchored

  /** Links persist, cursors only advance and stay on remote events, and the remote log only grows. */
  ghost predicate Anchored(s: State, s': State, host: Id, remote: seq<Event>, remote': seq<Event>) {
    && Evolves(s, s') && remote <= remote'
    && (forall u :: u in s.links && s.links[u].host == host ==> s.links[u].cursor <= s'.links[u].cursor)
    && (forall u :: u in s.links && s.links[u].host == host && s.links[u].kind == SessionLink ==> Numbers(remote', s'.links[u].cursor))
  }

  lemma NumbersGrow(remote: seq<Event>, remote': seq<Event>, cursor: int)
    requires Numbers(remote, cursor) && remote <= remote'
    ensures Numbers(remote', cursor)
  {
    var i :| 0 <= i < |remote| && remote[i].serverSeq == cursor;
    assert remote'[i].serverSeq == cursor;
  }

  lemma HasEventGrows(remote: seq<Event>, remote': seq<Event>, resource: Uri, parent: Uri)
    requires HasEvent(remote, resource, parent) && remote <= remote'
    ensures HasEvent(remote', resource, parent)
  {
    var i :| 0 <= i < |remote| && remote[i].resource == resource && remote[i].parent == Some(parent);
    assert remote'[i].resource == resource;
  }

  lemma OldLinkOk(s: State, s': State, host: Id, remote: seq<Event>, remote': seq<Event>, u: Uri)
    requires RemoteLinksOk(s, host, remote) && Anchored(s, s', host, remote, remote')
    requires u in s.links && s.links[u].host == host
    ensures RemoteLinkOk(s', host, remote', s'.links[u])
  {
    var link := s.links[u];
    assert RemoteLinkOk(s, host, remote, link);
    assert s'.links[u].(cursor := 0) == link.(cursor := 0);
    match link.kind
    case SessionLink =>
    case TurnLink =>
      var sid := s.turns[link.localId].sessionId;
      assert s'.links[SessionUri(sid)].(cursor := 0) == s.links[SessionUri(sid)].(cursor := 0);
      HasEventGrows(remote, remote', link.remoteUri, s.links[SessionUri(sid)].remoteUri);
    case RequestLink =>
      var i, sid :| BornBehind(s, host, remote, link.remoteUri, i, sid);
      assert s'.links[SessionUri(sid)].(cursor := 0) == s.links[SessionUri(sid)].(cursor := 0);
      assert BornBehind(s', host, remote', link.remoteUri, i, sid);
  }

  lemma LinksKept(s: State, s': State, host: Id, remote: seq<Event>, remote': seq<Event>)
    requires RemoteLinksOk(s, host, remote) && Anchored(s, s', host, remote, remote')
    requires forall u :: u in s'.links && u !in s.links && s'.links[u].host == host ==> RemoteLinkOk(s', host, remote', s'.links[u])
    ensures RemoteLinksOk(s', host, remote')
  {
    forall u | u in s'.links && s'.links[u].host == host ensures RemoteLinkOk(s', host, remote', s'.links[u]) {
      if u in s.links {
        assert s'.links[u].(cursor := 0) == s.links[u].(cursor := 0);
        OldLinkOk(s, s', host, remote, remote', u);
      }
    }
  }

  lemma AnchoredSame(s: State, s': State, host: Id, remote: seq<Event>, remote': seq<Event>)
    requires RemoteLinksOk(s, host, remote) && Evolves(s, s') && s'.links == s.links && remote <= remote'
    ensures Anchored(s, s', host, remote, remote')
  {
    forall u | u in s.links && s.links[u].host == host && s.links[u].kind == SessionLink ensures Numbers(remote', s'.links[u].cursor) {
      assert RemoteLinkOk(s, host, remote, s.links[u]);
      NumbersGrow(remote, remote', s.links[u].cursor);
    }
  }

  /** Only the named session's cursor moves among the existing links. */
  ghost predicate Moved(links: map<Uri, Link>, links': map<Uri, Link>, u: Uri, cursor: int) {
    forall v :: v in links ==> v in links' && links'[v] == if v == u then links[v].(cursor := cursor) else links[v]
  }

  lemma AnchoredMove(s: State, s': State, host: Id, remote: seq<Event>, remote': seq<Event>, u: Uri, cursor: int)
    requires RemoteLinksOk(s, host, remote) && Evolves(s, s') && remote <= remote'
    requires Moved(s.links, s'.links, u, cursor) && Numbers(remote', cursor) && (u in s.links ==> s.links[u].cursor <= cursor)
    ensures Anchored(s, s', host, remote, remote')
  {
    forall v | v in s.links && s.links[v].host == host && s.links[v].kind == SessionLink ensures Numbers(remote', s'.links[v].cursor) {
      assert RemoteLinkOk(s, host, remote, s.links[v]);
      NumbersGrow(remote, remote', s.links[v].cursor);
    }
  }

  // ---------------------------------------------------------------- every step

  lemma LocalLinks(y: Sys, step: Step)
    requires Enabled(y, step) && StaysLocal(y.store, step)
    ensures Take(y, step).store.links == y.store.links
  {
    var s := y.store;
    match step
    case DoCreate(backend, answer) => CreateLinks(s, backend, answer);
    case DoCancel(sid, tid, op, agreed, now) => CancelLinks(s, sid, tid, op, agreed, now);
    case DoResolve(rid, decision, response, reason, op, agreed, now) => ResolveFrame(s, rid, decision, response, reason, op, agreed, now);
    case DoSend(sid, message, op, answer) => SendErrLinks(s, sid, message, op, answer);
    case DoSink(_, _) => TaskStepLinks(y, step);
    case DoFinalize(_, _) => TaskStepLinks(y, step);
    case DoFail(_, _) => TaskStepLinks(y, step);
    case DoInterrupt(_, _, _) => TaskStepLinks(y, step);
    case _ =>
  }

  lemma SendErrLinks(s: State, sid: Id, message: string, op: Option<Id>, answer: Result<RemoteTurn>)
    requires SessionUri(sid) in s.links ==> answer.Err?
    ensures SendMessage(s, sid, message, op, answer).0.links == s.links
  {}

  lemma LocalKeeps(f: Fed, step: Step)
    requires FedInv(f) && FedEnabled(f, Local(step))
    ensures FedInv(FedTake(f, Local(step)))
  {
    StepInv(f.local, step);
    LocalLinks(f.local, step);
    var s' := Take(f.local, step).store;
    AnchoredSame(f.local.store, s', f.host, f.remote, f.remote);
    LinksKept(f.local.store, s', f.host, f.remote, f.remote);
  }

  lemma GrowthKeeps(f: Fed, events: seq<Event>)
    requires FedInv(f) && RemoteLogOk(f.remote + events)
    ensures FedInv(f.(remote := f.remote + events))
  {
    AnchoredSame(f.local.store, f.local.store, f.host, f.remote, f.remote + events);
    LinksKept(f.local.store, f.local.store, f.host, f.remote, f.remote + events);
  }

  lemma PullSys(f: Fed, sid: Id, i: int)
    requires FedInv(f) && Linked(f.local.store, f.host, sid) && IsNext(f.local.store, sid, f.remote, i)
    ensures var s' := PullStore(f.local.store, f.host, sid, f.remote[i]);
            SysInv(f.local.(store := s')) && Evolves(f.local.store, s')
  {
    PullSucceeds(f, sid, i);
    var mirror := DoMirror(f.host, sid, f.remote[i]);
    StepInv(f.local, mirror);
    var y := Take(f.local, mirror);
    var advance := DoSetCursor(sid, f.remote[i].serverSeq);
    StepInv(y, advance);
    EvolvesTransitive(f.local.store, y.store, Take(y, advance).store);
  }

  /** A pull adds at most one link, for the request the event creates; the session cursor moves onto the event. */
  lemma PullLinks(f: Fed, sid: Id, i: int)
    requires FedInv(f) && Linked(f.local.store, f.host, sid) && IsNext(f.local.store, sid, f.remote, i)
    ensures var s, e := f.local.store, f.remote[i];
            var s' := PullStore(s, f.host, sid, e);
            var link := s.links[SessionUri(sid)];
            var moved := s.links[SessionUri(sid) := link.(cursor := e.serverSeq)];
            if e.eventType == RequestCreated
            then s'.links == moved[RequestUri(s.nextId) := Link(RequestUri(s.nextId), RequestLink, s.nextId, f.host, e.resource, e.resource.id, 0)]
                 && s.nextId !in s.requests && RequestUri(s.nextId) !in s.links && e.resource.RequestUri? && e.parent == Some(link.remoteUri)
            else s'.links == moved
  {
    var s, e := f.local.store, f.remote[i];
    PullSucceeds(f, sid, i);
    assert ShapeOk(e);
    if e.eventType == RequestCreated {
      PullAdopts(f, sid, i);
      SessionRemote(f, sid);
      FreshUnlinked(s);
      var row := Link(RequestUri(s.nextId), RequestLink, s.nextId, f.host, e.resource, e.resource.id, 0);
      assert s.links[RequestUri(s.nextId) := row][SessionUri(sid) := s.links[SessionUri(sid)].(cursor := e.serverSeq)]
          == s.links[SessionUri(sid) := s.links[SessionUri(sid)].(cursor := e.serverSeq)][RequestUri(s.nextId) := row];
    }
  }

  lemma PullMoved(f: Fed, sid: Id, i: int)
    requires FedInv(f) && Linked(f.local.store, f.host, sid) && IsNext(f.local.store, sid, f.remote, i)
    ensures Moved(f.local.store.links, PullStore(f.local.store, f.host, sid, f.remote[i]).links, SessionUri(sid), f.remote[i].serverSeq)
  {
    PullLinks(f, sid, i);
  }

  lemma PullAnchored(f: Fed, sid: Id, i: int)
    requires FedInv(f) && Linked(f.local.store, f.host, sid) && IsNext(f.local.store, sid, f.remote, i)
    ensures Anchored(f.local.store, PullStore(f.local.store, f.host, sid, f.remote[i]), f.host, f.remote, f.remote)
  {
    PullSys(f, sid, i);
    PullMoved(f, sid, i);
    AnchoredMove(f.local.store, PullStore(f.local.store, f.host, sid, f.remote[i]), f.host, f.remote, f.remote, SessionUri(sid), f.remote[i].serverSeq);
  }

  lemma PullNewLink(f: Fed, sid: Id, i: int, u: Uri)
    requires FedInv(f) && Linked(f.local.store, f.host, sid) && IsNext(f.local.store, sid, f.remote, i)
    requires var s' := PullStore(f.local.store, f.host, sid, f.remote[i]); u in s'.links && u !in f.local.store.links
    ensures var s' := PullStore(f.local.store, f.host, sid, f.remote[i]); RemoteLinkOk(s', f.host, f.remote, s'.links[u])
  {
    var s, e := f.local.store, f.remote[i];
    var s' := PullStore(s, f.host, sid, e);
    PullSys(f, sid, i);
    PullLinks(f, sid, i);
    assert BornBehind(s', f.host, f.remote, e.resource, i, sid);
  }

  lemma PullKeeps(f: Fed, sid: Id, i: int)
    requires FedInv(f) && Linked(f.local.store, f.host, sid) && IsNext(f.local.store, sid, f.remote, i)
    ensures FedInv(WithStore(f, PullStore(f.local.store, f.host, sid, f.remote[i])))
  {
    var s' := PullStore(f.local.store, f.host, sid, f.remote[i]);
    PullSys(f, sid, i);
    PullAnchored(f, sid, i);
    forall u | u in s'.links && u !in f.local.store.links && s'.links[u].host == f.host ensures RemoteLinkOk(s', f.host, f.remote, s'.links[u]) {
      PullNewLink(f, sid, i, u);
    }
    LinksKept(f.local.store, s', f.host, f.remote, f.remote);
  }

  // ---------------------------------------------------------------- forwarding steps

  /** Two more events at the end of a log. */
  lemma LogExtends(remote: seq<Event>, a: Event, b: Event)
    requires LogOk(remote) && a.serverSeq == LastSeq(remote) + 1 && b.serverSeq == LastSeq(remote) + 2
    ensures LogOk(remote + [a, b])
  {}

  lemma OpeningOk(remote: seq<Event>, session: Id, turn: Id, message: string)
    requires RemoteLogOk(remote) && Unused(remote, TurnUri(turn))
    ensures RemoteLogOk(remote + RemoteOpening(remote, session, turn, message))
  {
    var opening := RemoteOpening(remote, session, turn, message);
    LogExtends(remote, opening[0], opening[1]);
  }

  lemma CreationOk(remote: seq<Event>, session: Id, backend: Id)
    requires RemoteLogOk(remote)
    ensures RemoteLogOk(remote + RemoteCreation(remote, session, backend))
  {
    var creation := RemoteCreation(remote, session, backend);
    LogExtends(remote, creation[0], creation[1]);
  }

  lemma OpenTurnRows(s: State, sid: Id, message: string, origin: Origin)
    ensures var s' := OpenTurn(s, sid, message, origin);
            s'.turns == s.turns[s.nextId := Turn(sid, None, Running, false)] && s'.links == s.links && s'.ops == s.ops
  {}

  lemma ForwardOnStore(s: State, sid: Id, host: Id, message: string, key: OpKey, link: Link, cursor: int)
    requires link == Link(TurnUri(s.nextId), TurnLink, s.nextId, host, link.remoteUri, link.remoteId, 0)
    requires !Clashes(s.links, link) && SessionUri(sid) in s.links
    ensures var (s', reply) := ForwardTurn(s, sid, host, message, key, Ok(RemoteTurn(link.remoteUri, link.remoteId, cursor)));
            && reply.Ok? && reply.value.turnId == s.nextId
            && s'.turns == s.turns[s.nextId := Turn(sid, None, Running, false)]
            && s'.links == SetLinkCursor(s.links[link.localUri := link], SessionUri(sid), cursor)
  {
    OpenTurnRows(s, sid, message, FromRemoteBroker);
  }

  /** What forwarding a message does to the store if the remote turn is not linked yet: it links a new
      running turn to it and moves the session's cursor. */
  lemma SendOnStore(s: State, sid: Id, message: string, op: Option<Id>, turn: Id, cursor: int)
    requires Bounded(s) && SessionUri(sid) in s.links && AppliedResult(s.ops, op).None?
    requires forall u :: u in s.links && s.links[u].host == s.links[SessionUri(sid)].host ==> s.links[u].remoteUri != TurnUri(turn)
    ensures var (s', reply) := SendRemote(s, sid, message, op, Ok(RemoteTurn(TurnUri(turn), turn, cursor)));
            var tid := OperationKey(s, op).0.nextId;
            && reply.Ok? && reply.value.turnId == tid && TurnUri(tid) !in s.links && tid !in s.turns
            && s'.turns == s.turns[tid := Turn(sid, None, Running, false)]
            && s'.links == s.links[TurnUri(tid) := Link(TurnUri(tid), TurnLink, tid, s.links[SessionUri(sid)].host, TurnUri(turn), turn, 0)]
                                  [SessionUri(sid) := s.links[SessionUri(sid)].(cursor := cursor)]
  {
    var (s0, key) := OperationKey(s, op);
    var host := s.links[SessionUri(sid)].host;
    FreshUnlinked(s0);
    var link := Link(TurnUri(s0.nextId), TurnLink, s0.nextId, host, TurnUri(turn), turn, 0);
    assert !Clashes(s.links, link);
    ForwardOnStore(s0.(ops := RecordPending(s0.ops, key, host, OpSendMessage)), sid, host, message, key, link, cursor);
  }

  /** The same for the two brokers. */
  ghost predicate Sent(f: Fed, g: Fed, sid: Id, turn: Id, message: string, tid: Id) {
    var s, s' := f.local.store, g.local.store;
    && SessionUri(sid) in s.links && g.host == f.host
    && g.remote == f.remote + RemoteOpening(f.remote, s.links[SessionUri(sid)].remoteId, turn, message)
    && TurnUri(tid) !in s.links && tid !in s.turns
    && s'.turns == s.turns[tid := Turn(sid, None, Running, false)]
    && s'.links == s.links[TurnUri(tid) := Link(TurnUri(tid), TurnLink, tid, f.host, TurnUri(turn), turn, 0)]
                          [SessionUri(sid) := s.links[SessionUri(sid)].(cursor := LastSeq(g.remote))]
  }

  lemma TurnUnlinked(f: Fed, turn: Id, u: Uri)
    requires FedInv(f) && Unused(f.remote, TurnUri(turn)) && u in f.local.store.links && f.local.store.links[u].host == f.host
    ensures f.local.store.links[u].remoteUri != TurnUri(turn)
  {
    assert RemoteLinkOk(f.local.store, f.host, f.remote, f.local.store.links[u]);
  }

  /** The remote turn is new, so forwarding always links it. */
  lemma SendIs(f: Fed, sid: Id, message: string, op: Option<Id>, turn: Id) returns (g: Fed, tid: Id)
    requires FedInv(f) && FedEnabled(f, ForwardSend(sid, message, op, turn))
    ensures g == FedTake(f, ForwardSend(sid, message, op, turn)) && tid == OperationKey(f.local.store, op).0.nextId
    ensures Sent(f, g, sid, turn, message, tid)
    ensures g.tracked == TrackedAfterSend(f, sid, tid)
    ensures g.local == f.local.(store := SendRemote(f.local.store, sid, message, op, Ok(RemoteTurn(TurnUri(turn), turn, LastSeq(g.remote)))).0)
  {
    g := FedTake(f, ForwardSend(sid, message, op, turn));
    tid := OperationKey(f.local.store, op).0.nextId;
    forall u | u in f.local.store.links && f.local.store.links[u].host == f.host ensures f.local.store.links[u].remoteUri != TurnUri(turn) {
      TurnUnlinked(f, turn, u);
    }
    SendOnStore(f.local.store, sid, message, op, turn, LastSeq(g.remote));
  }

  lemma SentSys(f: Fed, g: Fed, sid: Id, message: string, op: Option<Id>, turn: Id, tid: Id)
    requires FedInv(f) && Linked(f.local.store, f.host, sid) && Unused(f.remote, TurnUri(turn)) && Sent(f, g, sid, turn, message, tid)
    requires g.local == f.local.(store := SendRemote(f.local.store, sid, message, op, Ok(RemoteTurn(TurnUri(turn), turn, LastSeq(g.remote)))).0)
    ensures SysInv(g.local) && RemoteLogOk(g.remote) && Evolves(f.local.store, g.local.store)
  {
    OpeningOk(f.remote, f.local.store.links[SessionUri(sid)].remoteId, turn, message);
    StepInv(f.local, DoSend(sid, message, op, Ok(RemoteTurn(TurnUri(turn), turn, LastSeq(g.remote)))));
  }

  lemma SentMoved(f: Fed, g: Fed, sid: Id, turn: Id, message: string, tid: Id)
    requires FedInv(f) && Linked(f.local.store, f.host, sid) && Sent(f, g, sid, turn, message, tid)
    ensures Moved(f.local.store.links, g.local.store.links, SessionUri(sid), LastSeq(g.remote))
    ensures f.local.store.links[SessionUri(sid)].cursor < LastSeq(g.remote) && Numbers(g.remote, LastSeq(g.remote))
  {
    SessionRemote(f, sid);
    assert g.remote[|g.remote| - 1].serverSeq == LastSeq(g.remote);
  }

  lemma SentNewLink(f: Fed, g: Fed, sid: Id, turn: Id, message: string, tid: Id, u: Uri)
    requires FedInv(f) && Linked(f.local.store, f.host, sid) && Sent(f, g, sid, turn, message, tid) && Evolves(f.local.store, g.local.store)
    requires u in g.local.store.links && u !in f.local.store.links
    ensures RemoteLinkOk(g.local.store, f.host, g.remote, g.local.store.links[u])
  {
    SessionRemote(f, sid);
    assert g.remote[|f.remote|].resource == TurnUri(turn);
  }

  lemma SentKeeps(f: Fed, g: Fed, sid: Id, turn: Id, message: string, tid: Id)
    requires FedInv(f) && Linked(f.local.store, f.host, sid) && Sent(f, g, sid, turn, message, tid)
    requires SysInv(g.local) && RemoteLogOk(g.remote) && Evolves(f.local.store, g.local.store)
    ensures FedInv(g)
  {
    var s, s' := f.local.store, g.local.store;
    SentMoved(f, g, sid, turn, message, tid);
    AnchoredMove(s, s', f.host, f.remote, g.remote, SessionUri(sid), LastSeq(g.remote));
    forall u | u in s'.links && u !in s.links && s'.links[u].host == f.host ensures RemoteLinkOk(s', f.host, g.remote, s'.links[u]) {
      SentNewLink(f, g, sid, turn, message, tid, u);
    }
    LinksKept(s, s', f.host, f.remote, g.remote);
  }

  lemma CancelKeeps(f: Fed, sid: Id, tid: Id, op: Option<Id>, now: nat, events: seq<Event>)
    requires FedInv(f) && FedEnabled(f, ForwardCancel(sid, tid, op, now, events))
    ensures FedInv(FedTake(f, ForwardCancel(sid, tid, op, now, events)))
  {
    var s := f.local.store;
    var s' := CancelTurn(s, sid, tid, op, true, now).0;
    StepInv(f.local, DoCancel(sid, tid, op, true, now));
    CancelLinks(s, sid, tid, op, true, now);
    AnchoredSame(s, s', f.host, f.remote, f.remote + events);
    LinksKept(s, s', f.host, f.remote, f.remote + events);
  }

  /** What forwarding a session creation does. */
  ghost predicate Created(f: Fed, g: Fed, session: Id, backend: Id) {
    var s, s' := f.local.store, g.local.store;
    && g.host == f.host && g.remote == f.remote + RemoteCreation(f.remote, session, backend) && g.tracked == f.tracked
    && s'.turns == s.turns
    && (forall u :: u in s.links ==> u in s'.links && s'.links[u] == s.links[u])
    && (forall u :: u in s'.links && u !in s.links ==>
          u.SessionUri? && s'.links[u] == Link(u, SessionLink, u.id, f.host, SessionUri(session), session, LastSeq(g.remote)))
  }

  lemma CreateIs(f: Fed, op: Option<Id>, session: Id, backend: Id, status: Status) returns (g: Fed)
    requires FedInv(f) && FedEnabled(f, ForwardCreate(op, session, backend, status))
    ensures g == FedTake(f, ForwardCreate(op, session, backend, status)) && Created(f, g, session, backend)
    ensures SysInv(g.local) && RemoteLogOk(g.remote) && Evolves(f.local.store, g.local.store)
  {
    g := FedTake(f, ForwardCreate(op, session, backend, status));
    var s := f.local.store;
    var remote := RemoteSession(SessionUri(session), session, LastSeq(g.remote), backend, status);
    CreationOk(f.remote, session, backend);
    StepInv(f.local, DoCreateRemote(f.host, op, Ok(remote)));
    CreatedLinks(s, f.host, op, remote);
  }

  lemma AdoptedRows(s: State, remote: RemoteSession)
    ensures var s' := AdoptSession(s, remote); s'.turns == s.turns && s'.links == s.links
  {}

  lemma LinkedRows(s: State, link: Link, key: OpKey, kind: OpKind, result: OpResult)
    ensures var r := LinkResource(s, link, key, kind, result);
            r.Ok? ==> r.value.turns == s.turns && r.value.links == s.links[link.localUri := link]
  {}

  lemma CreatedLinks(s: State, host: Id, op: Option<Id>, remote: RemoteSession)
    requires Bounded(s) && AppliedResult(s.ops, op).None?
    ensures var s' := CreateRemote(s, host, op, Ok(remote)).0;
            && s'.turns == s.turns
            && (forall u :: u in s.links ==> u in s'.links && s'.links[u] == s.links[u])
            && (forall u :: u in s'.links && u !in s.links ==>
                  u.SessionUri? && s'.links[u] == Link(u, SessionLink, u.id, host, remote.uri, remote.id, remote.cursor))
  {
    var (s0, key) := OperationKey(s, op);
    FreshUnlinked(s0);
    var s1 := s0.(ops := RecordPending(s0.ops, key, host, OpCreateSession));
    AdoptedRows(s1, remote);
    var s2 := AdoptSession(s1, remote);
    LinkedRows(s2, Link(SessionUri(s1.nextId), SessionLink, s1.nextId, host, remote.uri, remote.id, remote.cursor), key, OpCreateSession,
               CreateResult(CreateReply(s1.nextId, remote.status, LastSeq(s2.log))));
  }

  lemma CreatedKeeps(f: Fed, g: Fed, session: Id, backend: Id)
    requires FedInv(f) && Created(f, g, session, backend)
    requires SysInv(g.local) && RemoteLogOk(g.remote) && Evolves(f.local.store, g.local.store)
    ensures FedInv(g)
  {
    var s, s' := f.local.store, g.local.store;
    assert g.remote[|g.remote| - 1].serverSeq == LastSeq(g.remote);
    forall u | u in s.links && s.links[u].host == f.host && s.links[u].kind == SessionLink ensures Numbers(g.remote, s'.links[u].cursor) {
      assert RemoteLinkOk(s, f.host, f.remote, s.links[u]);
      NumbersGrow(f.remote, g.remote, s.links[u].cursor);
    }
    LinksKept(s, s', f.host, f.remote, g.remote);
  }
}

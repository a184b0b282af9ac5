/** A synchronisation is a sequence of single-event pulls: mirroring a page and then storing its
    last number has the effect of moving the cursor along event by event. */
module SyncSteps {
  import opened Types
  import opened Wrappers
  import opened EventLog
  import opened StoreModel
  import opened BrokerModel
  import opened BrokerInvariants
  import opened BrokerSteps
  import opened BrokerRuns
  import opened Federation
  import opened FedInvariant

  function Pulls(sid: Id, n: nat): seq<FedStep> {
    if n == 0 then [] else Pulls(sid, n - 1) + [Pull(sid)]
  }

  ghost function PullTimes(f: Fed, sid: Id, n: nat): Fed {
    if n == 0 then f else FedNext(PullTimes(f, sid, n - 1), Pull(sid))
  }

  /** The machine after n pulls for one session. */
  ghost function Pulled(f: Fed, sid: Id, n: nat): Fed {
    PullTimes(f, sid, n)
  }

  lemma {:induction false} PullTimesRun(f: Fed, sid: Id, n: nat)
    ensures FedExec(f, Pulls(sid, n)) == Pulled(f, sid, n)
  {
    if n > 0 {
      PullTimesRun(f, sid, n - 1);
      assert Pulls(sid, n)[..|Pulls(sid, n)| - 1] == Pulls(sid, n - 1);
    }
  }

  function WithCursor(s: State, u: Uri, cursor: int): State {
    s.(links := SetLinkCursor(s.links, u, cursor))
  }

  function CursorAfter(s: State, sid: Id, rows: seq<Event>, k: nat): int
    requires SessionUri(sid) in s.links && k <= |rows|
  {
    if k == 0 then s.links[SessionUri(sid)].cursor else rows[k - 1].serverSeq
  }

  // ---------------------------------------------------------------- the mirror ignores cursors

  lemma ByRemoteCursor(links: map<Uri, Link>, u: Uri, cursor: int, host: Id, remote: Uri)
    requires LinksOk(links)
    ensures var links' := SetLinkCursor(links, u, cursor);
            match (ByRemote(links, host, remote), ByRemote(links', host, remote))
            case (Some(a), Some(b)) => a.(cursor := 0) == b.(cursor := 0)
            case (None, None) => true
            case _ => false
  {
    var links' := SetLinkCursor(links, u, cursor);
    assert LinksOk(links');
    ByRemoteRow(links, host, remote);
    ByRemoteRow(links', host, remote);
    if ByRemote(links, host, remote).Some? {
      ByRemoteIs(links', host, remote, ByRemote(links, host, remote).value.localUri);
    } else if ByRemote(links', host, remote).Some? {
      ByRemoteIs(links, host, remote, ByRemote(links', host, remote).value.localUri);
    }
  }

  lemma ClashCursor(links: map<Uri, Link>, u: Uri, cursor: int, link: Link)
    ensures Clashes(SetLinkCursor(links, u, cursor), link) <==> Clashes(links, link)
  {
    var links' := SetLinkCursor(links, u, cursor);
    if Clashes(links, link) {
      var v :| v in links && v != link.localUri && links[v].host == link.host && links[v].remoteUri == link.remoteUri;
      assert v in links' && links'[v].host == link.host;
    }
    if Clashes(links', link) {
      var v :| v in links' && v != link.localUri && links'[v].host == link.host && links'[v].remoteUri == link.remoteUri;
      assert v in links && links[v].host == link.host;
    }
  }

  lemma AdoptCursor(s: State, host: Id, sid: Id, parent: Link, parent': Link, e: Event, u: Uri, cursor: int)
    requires parent.(cursor := 0) == parent'.(cursor := 0) && RequestUri(s.nextId) !in s.links && u != RequestUri(s.nextId)
    ensures AdoptRequest(WithCursor(s, u, cursor), host, sid, parent', e).1 == AdoptRequest(s, host, sid, parent, e).1
    ensures AdoptRequest(WithCursor(s, u, cursor), host, sid, parent', e).0 == WithCursor(AdoptRequest(s, host, sid, parent, e).0, u, cursor)
  {
    var row := Link(RequestUri(s.nextId), RequestLink, s.nextId, host, e.resource, if e.resource.RootUri? then 0 else e.resource.id, 0);
    ClashCursor(s.links, u, cursor, row);
    assert SetLinkCursor(s.links, u, cursor)[row.localUri := row] == SetLinkCursor(s.links[row.localUri := row], u, cursor);
    assert parent'.localUri == parent.(cursor := 0).localUri && parent'.localId == parent.(cursor := 0).localId;
  }

  lemma TurnCursor(s: State, tid: Id, remoteTurn: Id, status: Status, u: Uri, cursor: int)
    ensures UpdateTurn(WithCursor(s, u, cursor), tid, Some(remoteTurn), status, true) == WithCursor(UpdateTurn(s, tid, Some(remoteTurn), status, true), u, cursor)
  {}

  lemma SessionCursor(s: State, sid: Id, session: Status, last: int, u: Uri, cursor: int)
    ensures UpdateSession(WithCursor(s, u, cursor), sid, session, Some(last)) == WithCursor(UpdateSession(s, sid, session, Some(last)), u, cursor)
  {}

  lemma RowsCursor(s: State, sid: Id, tid: Id, remoteTurn: Id, status: Status, session: Status, last: int, u: Uri, cursor: int)
    ensures UpdateSession(UpdateTurn(WithCursor(s, u, cursor), tid, Some(remoteTurn), status, true), sid, session, Some(last)) ==
            WithCursor(UpdateSession(UpdateTurn(s, tid, Some(remoteTurn), status, true), sid, session, Some(last)), u, cursor)
  {
    TurnCursor(s, tid, remoteTurn, status, u, cursor);
    SessionCursor(UpdateTurn(s, tid, Some(remoteTurn), status, true), sid, session, last, u, cursor);
  }

  lemma ApplyCursor(s: State, sid: Id, link: Option<Link>, link': Option<Link>, eventType: EventType, u: Uri, cursor: int)
    requires link.Some? <==> link'.Some?
    requires link.Some? ==> link.value.(cursor := 0) == link'.value.(cursor := 0)
    ensures ApplyMirrored(WithCursor(s, u, cursor), sid, link', eventType) == WithCursor(ApplyMirrored(s, sid, link, eventType), u, cursor)
  {
    if link.Some? {
      var l := link.value;
      assert link'.value.kind == l.(cursor := 0).kind;
      assert link'.value.localId == l.(cursor := 0).localId;
      assert link'.value.remoteId == l.(cursor := 0).remoteId;
      if l.kind == TurnLink && MirroredStatus(eventType).Some? {
        var (status, session) := MirroredStatus(eventType).value;
        RowsCursor(s, sid, l.localId, l.remoteId, status, session, LastSeq(s.log), u, cursor);
      }
    }
  }

  lemma MirrorIgnoresCursor(s: State, host: Id, sid: Id, e: Event, u: Uri, cursor: int)
    requires LinksOk(s.links) && RequestUri(s.nextId) !in s.links && u != RequestUri(s.nextId)
    ensures Mirror(WithCursor(s, u, cursor), host, sid, e).1 == Mirror(s, host, sid, e).1
    ensures Mirror(WithCursor(s, u, cursor), host, sid, e).0 == WithCursor(Mirror(s, host, sid, e).0, u, cursor)
  {
    var s' := WithCursor(s, u, cursor);
    ByRemoteCursor(s.links, u, cursor, host, e.resource);
    if e.parent.Some? { ByRemoteCursor(s.links, u, cursor, host, e.parent.value); }
    var r, r' := ByRemote(s.links, host, e.resource), ByRemote(s'.links, host, e.resource);
    var p, p' := RemoteParent(s.links, host, e), RemoteParent(s'.links, host, e);
    if e.eventType == RequestCreated {
      if p.Some? { AdoptCursor(s, host, sid, p.value, p'.value, e, u, cursor); }
    } else {
      UriOrCursor(r, r', SessionUri(sid));
      UriOrCursor(p, p', SessionUri(sid));
      var s1 := Append(s, UriOr(r, SessionUri(sid)), Some(UriOr(p, SessionUri(sid))), e.eventType, FromRemote(host), e.payload);
      ApplyCursor(s1, sid, r, r', e.eventType, u, cursor);
    }
  }

  lemma UriOrCursor(link: Option<Link>, link': Option<Link>, default: Uri)
    requires link.Some? <==> link'.Some?
    requires link.Some? ==> link.value.(cursor := 0) == link'.value.(cursor := 0)
    ensures UriOr(link, default) == UriOr(link', default)
  {
    if link.Some? { assert link'.value.localUri == link.value.(cursor := 0).localUri; }
  }

  // ---------------------------------------------------------------- pulling a prefix

  lemma AheadAfterPull(s: State, s': State, sid: Id, remote: seq<Event>)
    requires SessionUri(sid) in s.links && SessionUri(sid) in s'.links && LogOk(remote) && Ahead(s, sid, remote) != []
    requires s'.links[SessionUri(sid)] == s.links[SessionUri(sid)].(cursor := Ahead(s, sid, remote)[0].serverSeq)
    ensures Ahead(s', sid, remote) == Ahead(s, sid, remote)[1..]
  {
    var link := s.links[SessionUri(sid)];
    var view := Some(SessionUri(link.remoteId));
    var hi := if LastSeq(remote) < link.cursor then link.cursor else LastSeq(remote);
    WindowPrefix(remote, view, link.cursor, hi, 0);
    var i := AheadFirst(s, sid, remote);
  }

  /** Nothing but the store has changed. */
  ghost predicate OnlyStore(f: Fed, g: Fed) {
    g.host == f.host && g.remote == f.remote && g.tracked == f.tracked && g.local.tasks == f.local.tasks
  }

  lemma PullKeepsLinked(f: Fed, g: Fed, sid: Id, i: int)
    requires FedInv(f) && Linked(f.local.store, f.host, sid) && IsNext(f.local.store, sid, f.remote, i)
    requires g == WithStore(f, PullStore(f.local.store, f.host, sid, f.remote[i]))
    ensures Linked(g.local.store, f.host, sid)
    ensures g.local.store.links[SessionUri(sid)] == f.local.store.links[SessionUri(sid)].(cursor := f.remote[i].serverSeq)
  {
    PullMoved(f, sid, i);
    PullSys(f, sid, i);
  }

  lemma OnePull(f: Fed, sid: Id) returns (g: Fed)
    requires FedInv(f) && Linked(f.local.store, f.host, sid) && Ahead(f.local.store, sid, f.remote) != []
    ensures g == FedNext(f, Pull(sid)) && FedInv(g) && Linked(g.local.store, g.host, sid) && OnlyStore(f, g)
    ensures Ahead(g.local.store, sid, g.remote) == Ahead(f.local.store, sid, f.remote)[1..]
    ensures g.local.store.links[SessionUri(sid)] ==
            f.local.store.links[SessionUri(sid)].(cursor := Ahead(f.local.store, sid, f.remote)[0].serverSeq)
  {
    var i := AheadFirst(f.local.store, sid, f.remote);
    PullKeeps(f, sid, i);
    g := WithStore(f, PullStore(f.local.store, f.host, sid, f.remote[i]));
    PullKeepsLinked(f, g, sid, i);
    AheadAfterPull(f.local.store, g.local.store, sid, f.remote);
  }

  /** One pull on a store that differs from the mirrored one only in the session cursor. */
  lemma PullOnCursor(g: State, m: State, host: Id, sid: Id, e: Event, cursor: int)
    requires StoreInv(g) && g == WithCursor(m, SessionUri(sid), cursor) && m.nextId == g.nextId
    requires Mirror(g, host, sid, e).1.Ok?
    ensures Mirror(m, host, sid, e).1.Ok?
    ensures PullStore(g, host, sid, e) == WithCursor(Mirror(m, host, sid, e).0, SessionUri(sid), e.serverSeq)
    ensures PullStore(g, host, sid, e).nextId == Mirror(m, host, sid, e).0.nextId
  {
    BackToMirror(g, m, sid, cursor);
    MirrorIgnoresCursor(m, host, sid, e, SessionUri(sid), cursor);
    CursorTwice(Mirror(m, host, sid, e).0, SessionUri(sid), cursor, e.serverSeq);
  }

  /** The pulled store is the mirrored one with the session cursor moved. */
  ghost predicate PulledTo(g: State, mirrored: (State, bool), u: Uri, cursor: int) {
    mirrored.1 && g == WithCursor(mirrored.0, u, cursor) && mirrored.0.nextId == g.nextId
  }

  lemma MirrorAllLast(s: State, host: Id, sid: Id, rows: seq<Event>, k: nat)
    requires 0 < k <= |rows| && MirrorAll(s, host, sid, rows[..k - 1]).1
    ensures var m := MirrorAll(s, host, sid, rows[..k - 1]).0;
            MirrorAll(s, host, sid, rows[..k]) == (Mirror(m, host, sid, rows[k - 1]).0, Mirror(m, host, sid, rows[k - 1]).1.Ok?)
  {
    assert rows[..k][..k - 1] == rows[..k - 1];
  }

  lemma PulledStep(f: Fed, sid: Id, mirrored: (State, bool), cursor: int, e: Event)
    requires FedInv(f) && Linked(f.local.store, f.host, sid) && Ahead(f.local.store, sid, f.remote) != []
    requires e == Ahead(f.local.store, sid, f.remote)[0]
    requires PulledTo(f.local.store, mirrored, SessionUri(sid), cursor)
    ensures var (m, result) := Mirror(mirrored.0, f.host, sid, e);
            PulledTo(FedNext(f, Pull(sid)).local.store, (m, result.Ok?), SessionUri(sid), e.serverSeq)
  {
    var i := AheadFirst(f.local.store, sid, f.remote);
    PullSucceeds(f, sid, i);
    PullOnCursor(f.local.store, mirrored.0, f.host, sid, e, cursor);
  }

  ghost predicate PullsAre(s: State, host: Id, sid: Id, rows: seq<Event>, k: nat, s': State)
    requires SessionUri(sid) in s.links && k <= |rows|
  {
    PulledTo(s', MirrorAll(s, host, sid, rows[..k]), SessionUri(sid), CursorAfter(s, sid, rows, k))
  }

  lemma NoPulls(s: State, host: Id, sid: Id, rows: seq<Event>)
    requires SessionUri(sid) in s.links
    ensures PullsAre(s, host, sid, rows, 0, s)
  {
    assert s == WithCursor(s, SessionUri(sid), s.links[SessionUri(sid)].cursor);
  }

  lemma OneMorePull(s: State, rows: seq<Event>, sid: Id, k: nat, g: Fed)
    requires FedInv(g) && Linked(g.local.store, g.host, sid) && SessionUri(sid) in s.links && 0 < k <= |rows|
    requires PullsAre(s, g.host, sid, rows, k - 1, g.local.store)
    requires Ahead(g.local.store, sid, g.remote) == rows[k - 1..]
    ensures PullsAre(s, g.host, sid, rows, k, FedNext(g, Pull(sid)).local.store)
  {
    PulledStep(g, sid, MirrorAll(s, g.host, sid, rows[..k - 1]), CursorAfter(s, sid, rows, k - 1), rows[k - 1]);
    MirrorAllLast(s, g.host, sid, rows, k);
  }

  /** k pulls mirror the first k events ahead, leave the rest ahead, and have the effect of mirroring
      those events as one page and storing the last number once. */
  lemma {:induction false} PullsRun(f: Fed, sid: Id, k: nat) returns (g: Fed)
    requires FedInv(f) && Linked(f.local.store, f.host, sid) && k <= |Ahead(f.local.store, sid, f.remote)|
    ensures g == Pulled(f, sid, k) && FedInv(g) && Linked(g.local.store, g.host, sid) && OnlyStore(f, g)
    ensures Ahead(g.local.store, sid, g.remote) == Ahead(f.local.store, sid, f.remote)[k..]
    ensures PullsAre(f.local.store, f.host, sid, Ahead(f.local.store, sid, f.remote), k, g.local.store)
  {
    if k == 0 {
      g := f;
      NoPulls(f.local.store, f.host, sid, Ahead(f.local.store, sid, f.remote));
    } else {
      var m := PullsRun(f, sid, k - 1);
      g := NextPull(f, sid, k, m);
    }
  }

  lemma NextPull(f: Fed, sid: Id, k: nat, m: Fed) returns (g: Fed)
    requires Linked(f.local.store, f.host, sid) && 0 < k <= |Ahead(f.local.store, sid, f.remote)|
    requires m == Pulled(f, sid, k - 1) && FedInv(m) && Linked(m.local.store, m.host, sid) && OnlyStore(f, m)
    requires Ahead(m.local.store, sid, m.remote) == Ahead(f.local.store, sid, f.remote)[k - 1..]
    requires PullsAre(f.local.store, f.host, sid, Ahead(f.local.store, sid, f.remote), k - 1, m.local.store)
    ensures g == Pulled(f, sid, k) && FedInv(g) && Linked(g.local.store, g.host, sid) && OnlyStore(f, g)
    ensures Ahead(g.local.store, sid, g.remote) == Ahead(f.local.store, sid, f.remote)[k..]
    ensures PullsAre(f.local.store, f.host, sid, Ahead(f.local.store, sid, f.remote), k, g.local.store)
  {
    OneMorePull(f.local.store, Ahead(f.local.store, sid, f.remote), sid, k, m);
    g := OnePull(m, sid);
  }

  lemma CursorTwice(s: State, u: Uri, c: int, d: int)
    ensures WithCursor(WithCursor(s, u, c), u, d) == WithCursor(s, u, d)
  {}

  lemma BackToMirror(g: State, m: State, sid: Id, cursor: int)
    requires StoreInv(g) && g == WithCursor(m, SessionUri(sid), cursor) && m.nextId == g.nextId
    ensures LinksOk(m.links) && RequestUri(m.nextId) !in m.links
  {
    FreshUnlinked(g);
    assert m.links.Keys == g.links.Keys;
    forall u | u in m.links ensures m.links[u].localUri == u {
      assert g.links[u].localUri == m.links[u].localUri;
    }
    forall u, v | u in m.links && v in m.links && m.links[u].host == m.links[v].host && m.links[u].remoteUri == m.links[v].remoteUri
      ensures u == v
    {
      assert g.links[u].host == m.links[u].host && g.links[v].host == m.links[v].host;
    }
  }

  lemma SyncPage(s: State, host: Id, sid: Id, remote: seq<Event>) returns (n: nat)
    requires SessionUri(sid) in s.links && LogOk(remote)
    ensures n == |RemotePage(s, sid, remote)| == Min(|Ahead(s, sid, remote)|, 500)
    ensures RemotePage(s, sid, remote) == Ahead(s, sid, remote)[..n]
    ensures Ahead(s, sid, remote) != [] ==> n > 0
  {
    var link := s.links[SessionUri(sid)];
    UnfilteredPoll(remote, Some(SessionUri(link.remoteId)), link.cursor, SYNC_LIMIT);
    n := |RemotePage(s, sid, remote)|;
  }

  lemma SyncOnStore(s: State, host: Id, sid: Id, remote: seq<Event>, n: nat, s': State)
    requires SessionUri(sid) in s.links && n <= |Ahead(s, sid, remote)| && RemotePage(s, sid, remote) == Ahead(s, sid, remote)[..n]
    requires PullsAre(s, host, sid, Ahead(s, sid, remote), n, s')
    ensures SyncStore(s, host, sid, remote) == s' && MirrorAll(s, host, sid, RemotePage(s, sid, remote)).1
  {}

  /** A failure-free synchronisation never fails midway and is a run of pulls. */
  lemma SyncIsPulls(f: Fed, sid: Id) returns (n: nat, g: Fed)
    requires FedInv(f) && Linked(f.local.store, f.host, sid)
    ensures n == |RemotePage(f.local.store, sid, f.remote)| == Min(|Ahead(f.local.store, sid, f.remote)|, 500)
    ensures MirrorAll(f.local.store, f.host, sid, RemotePage(f.local.store, sid, f.remote)).1
    ensures g == FedExec(f, Pulls(sid, n)) && FedInv(g) && Linked(g.local.store, g.host, sid) && OnlyStore(f, g)
    ensures SyncStore(f.local.store, f.host, sid, f.remote) == g.local.store
  {
    n := SyncPage(f.local.store, f.host, sid, f.remote);
    g := PullsRun(f, sid, n);
    SyncOnStore(f.local.store, f.host, sid, f.remote, n, g.local.store);
    PullTimesRun(f, sid, n);
  }
}

/** Mirroring refines the remote log: what the local log shows of a linked session is the translated
    image of the remote session's view between the first and the current cursor. */
module Mirroring {
  import opened Types
  import opened Vocabulary
  import opened Wrappers
  import opened EventLog
  import opened StoreModel
  import opened BrokerModel
  import opened BrokerInvariants
  import opened BrokerSteps
  import opened BrokerRuns
  import opened Federation
  import opened FedInvariant
  import opened SyncSteps
  import opened FedRuns

  // ---------------------------------------------------------------- the two views

  predicate IsMirrored(e: Event, host: Id, sid: Id) {
    e.origin == FromRemote(host) && About(e, Some(SessionUri(sid)))
  }

  /** The events of the local session view that came from the host, without their local numbers. */
  function Mirrored(log: seq<Event>, host: Id, sid: Id): seq<Event> {
    if log == [] then []
    else
      var e := log[|log| - 1];
      Mirrored(log[..|log| - 1], host, sid) + if IsMirrored(e, host, sid) then [e.(serverSeq := 0)] else []
  }

  /** A remote event with its URIs translated; what is not linked is shown on the session. */
  ghost function Image(links: map<Uri, Link>, host: Id, sid: Id, e: Event): Event {
    Event(0, UriOr(ByRemote(links, host, e.resource), SessionUri(sid)), Some(UriOr(RemoteParent(links, host, e), SessionUri(sid))),
          e.eventType, FromRemote(host), e.payload)
  }

  ghost function Images(links: map<Uri, Link>, host: Id, sid: Id, events: seq<Event>): seq<Event> {
    if events == [] then []
    else Images(links, host, sid, events[..|events| - 1]) + [Image(links, host, sid, events[|events| - 1])]
  }

  function CursorOf(s: State, sid: Id): int
    requires SessionUri(sid) in s.links
  {
    s.links[SessionUri(sid)].cursor
  }

  /** The remote session's view between two cursors. */
  function RemoteView(s: State, sid: Id, remote: seq<Event>, lo: int, hi: int): seq<Event>
    requires SessionUri(sid) in s.links
  {
    Window(remote, Some(SessionUri(s.links[SessionUri(sid)].remoteId)), [], lo, hi)
  }

  // ---------------------------------------------------------------- views and appends

  lemma MirroredAppend(log: seq<Event>, e: Event, host: Id, sid: Id)
    ensures Mirrored(log + [e], host, sid) == Mirrored(log, host, sid) + if IsMirrored(e, host, sid) then [e.(serverSeq := 0)] else []
  {
    assert (log + [e])[..|log|] == log;
  }

  predicate RemoteOrigin(e: Event) { e.origin.FromRemote? }

  /** A stretch of the log without mirrored events. */
  ghost predicate Quiet(log: seq<Event>, log': seq<Event>) {
    log <= log' && forall i :: |log| <= i < |log'| ==> !RemoteOrigin(log'[i])
  }

  lemma {:induction false} QuietMirrored(log: seq<Event>, log': seq<Event>, host: Id, sid: Id)
    requires Quiet(log, log')
    ensures Mirrored(log', host, sid) == Mirrored(log, host, sid)
    decreases |log'|
  {
    if |log'| > |log| {
      var front, e := log'[..|log'| - 1], log'[|log'| - 1];
      QuietMirrored(log, front, host, sid);
      assert !RemoteOrigin(e);
    } else {
      assert log' == log;
    }
  }

  lemma {:induction false} ImagesConcat(links: map<Uri, Link>, host: Id, sid: Id, a: seq<Event>, b: seq<Event>)
    ensures Images(links, host, sid, a + b) == Images(links, host, sid, a) + Images(links, host, sid, b)
  {
    if b == [] {
      assert a + b == a;
    } else {
      ImagesConcat(links, host, sid, a, b[..|b| - 1]);
      assert (a + b)[..|a + b| - 1] == a + b[..|b| - 1];
    }
  }

  // ---------------------------------------------------------------- translations are stable

  ghost predicate Untouched(links: map<Uri, Link>, links': map<Uri, Link>, host: Id, x: Uri) {
    forall u :: u in links' && u !in links && links'[u].host == host ==> links'[u].remoteUri != x
  }

  ghost predicate EventUntouched(links: map<Uri, Link>, links': map<Uri, Link>, host: Id, e: Event) {
    Untouched(links, links', host, e.resource) && (e.parent.Some? ==> Untouched(links, links', host, e.parent.value))
  }

  lemma UriStable(links: map<Uri, Link>, links': map<Uri, Link>, host: Id, x: Uri, default: Uri)
    requires LinksOk(links) && LinksOk(links') && LinksAdvance(links, links', host) && Untouched(links, links', host, x)
    ensures UriOr(ByRemote(links, host, x), default) == UriOr(ByRemote(links', host, x), default)
  {
    ByRemoteRow(links, host, x);
    ByRemoteRow(links', host, x);
    if ByRemote(links, host, x).Some? {
      var u := ByRemote(links, host, x).value.localUri;
      assert links'[u].(cursor := 0) == links[u].(cursor := 0);
      ByRemoteIs(links', host, x, u);
    }
  }

  lemma ImageStable(links: map<Uri, Link>, links': map<Uri, Link>, host: Id, sid: Id, e: Event)
    requires LinksOk(links) && LinksOk(links') && LinksAdvance(links, links', host) && EventUntouched(links, links', host, e)
    ensures Image(links, host, sid, e) == Image(links', host, sid, e)
  {
    UriStable(links, links', host, e.resource, SessionUri(sid));
    if e.parent.Some? { UriStable(links, links', host, e.parent.value, SessionUri(sid)); }
  }

  lemma {:induction false} ImagesStable(links: map<Uri, Link>, links': map<Uri, Link>, host: Id, sid: Id, events: seq<Event>)
    requires LinksOk(links) && LinksOk(links') && LinksAdvance(links, links', host)
    requires forall i :: 0 <= i < |events| ==> EventUntouched(links, links', host, events[i])
    ensures Images(links, host, sid, events) == Images(links', host, sid, events)
  {
    if events != [] {
      ImagesStable(links, links', host, sid, events[..|events| - 1]);
      ImageStable(links, links', host, sid, events[|events| - 1]);
    }
  }

  // ---------------------------------------------------------------- only the mirror writes remote events

  lemma IngestAllQuiet(s: State, sid: Id, backend: Id, tid: Id, events: seq<BackendEvent>)
    ensures Quiet(s.log, IngestAll(s, sid, backend, tid, events).log)
  {
    if events != [] { IngestAllQuiet(s, sid, backend, tid, events[..|events| - 1]); }
  }

  lemma WithdrawQuiet(s: State, tid: Id, reason: string, now: nat)
    ensures Quiet(s.log, WithdrawRequests(s, tid, reason, now).log)
  {
    var s1 := CancelPending(s, tid, reason, now);
    var ids := PendingIds(s.requests, tid, s.nextId);
    var log := WithdrawRequests(s, tid, reason, now).log;
    LogWithdrawalsAre(s1, ids, TurnUri(tid), reason);
    forall i | |s.log| <= i < |log| ensures !RemoteOrigin(log[i]) {
      assert IsWithdrawalOf(log[|s.log| + (i - |s.log|)], ids[i - |s.log|], TurnUri(tid));
    }
  }

  lemma QuietThen(a: seq<Event>, b: seq<Event>, c: seq<Event>)
    requires Quiet(a, b) && Quiet(b, c)
    ensures Quiet(a, c)
  {}

  lemma CloseCancelledQuiet(s: State, sid: Id, tid: Id, backendTurn: Id, origin: Origin)
    requires !origin.FromRemote?
    ensures Quiet(s.log, CloseCancelled(s, sid, tid, backendTurn, origin).log)
  {}

  lemma CancelQuiet(s: State, sid: Id, tid: Id, op: Option<Id>, agreed: bool, now: nat)
    ensures Quiet(s.log, CancelTurn(s, sid, tid, op, agreed, now).0.log)
  {
    if TurnUri(tid) in s.links {
      var (s0, key) := OperationKey(s, op);
      var host, turn := s.links[TurnUri(tid)].host, s.links[TurnUri(tid)].remoteId;
      var s1 := s0.(ops := RecordPending(s0.ops, key, host, OpCancelTurn));
      WithdrawThenCloseQuiet(s1, sid, tid, turn, FromRemoteBroker, now);
    } else if sid in s.sessions && tid in s.turns {
      var turn := if s.turns[tid].backendTurnId.Some? then s.turns[tid].backendTurnId.value else tid;
      WithdrawThenCloseQuiet(s, sid, tid, turn, FromBroker, now);
    }
  }

  lemma WithdrawThenCloseQuiet(s: State, sid: Id, tid: Id, backendTurn: Id, origin: Origin, now: nat)
    requires !origin.FromRemote?
    ensures Quiet(s.log, WithdrawRequests(s, tid, CANCEL_REASON, now).log)
    ensures Quiet(s.log, CloseCancelled(WithdrawRequests(s, tid, CANCEL_REASON, now), sid, tid, backendTurn, origin).log)
  {
    var s1 := WithdrawRequests(s, tid, CANCEL_REASON, now);
    WithdrawQuiet(s, tid, CANCEL_REASON, now);
    CloseCancelledQuiet(s1, sid, tid, backendTurn, origin);
    QuietThen(s.log, s1.log, CloseCancelled(s1, sid, tid, backendTurn, origin).log);
  }

  lemma OpenTurnQuiet(s: State, sid: Id, message: string, origin: Origin)
    requires !origin.FromRemote?
    ensures Quiet(s.log, OpenTurn(s, sid, message, origin).log)
  {}

  lemma DegradeQuiet(s: State, sid: Id, tid: Id)
    ensures Quiet(s.log, DegradeTurn(s, sid, tid).log)
  {}

  lemma ForwardTurnQuiet(s: State, sid: Id, host: Id, message: string, key: OpKey, answer: Result<RemoteTurn>)
    ensures Quiet(s.log, ForwardTurn(s, sid, host, message, key, answer).0.log)
  {
    var s1 := OpenTurn(s, sid, message, FromRemoteBroker);
    OpenTurnQuiet(s, sid, message, FromRemoteBroker);
    DegradeQuiet(s1, sid, s.nextId);
    QuietThen(s.log, s1.log, DegradeTurn(s1, sid, s.nextId).log);
  }

  lemma SendQuiet(s: State, sid: Id, message: string, op: Option<Id>, answer: Result<RemoteTurn>)
    ensures Quiet(s.log, SendMessage(s, sid, message, op, answer).0.log)
  {
    OpenTurnQuiet(s, sid, message, FromBroker);
    if SessionUri(sid) in s.links {
      var host := s.links[SessionUri(sid)].host;
      var (s0, key) := OperationKey(s, op);
      ForwardTurnQuiet(s0.(ops := RecordPending(s0.ops, key, host, OpSendMessage)), sid, host, message, key, answer);
    }
  }

  lemma CreateRemoteQuiet(s: State, host: Id, op: Option<Id>, answer: Result<RemoteSession>)
    ensures Quiet(s.log, CreateRemote(s, host, op, answer).0.log)
  {}

  lemma CreateQuiet(s: State, backend: Id, answer: Result<Id>)
    ensures Quiet(s.log, CreateSession(s, backend, answer).0.log)
  {}

  lemma ResolveQuiet(s: State, rid: Id, decision: Decision, response: Option<Json>, reason: Option<string>, op: Option<Id>, agreed: bool, now: nat)
    ensures Quiet(s.log, ResolveRequest(s, rid, decision, response, reason, op, agreed, now).0.log)
  {
    ResolveIntentFrame(s, rid, op);
    if Settles(s, rid, agreed) {
      ResolveSettles(s, rid, decision, response, reason, op, agreed, now);
    } else {
      ResolveRefused(s, rid, decision, response, reason, op, agreed, now);
    }
  }

  lemma InterruptQuiet(s: State, tid: Id, summary: string, now: nat)
    ensures Quiet(s.log, Interrupt(s, tid, summary, now).log)
  {
    WithdrawQuiet(MarkInterrupted(s, tid), tid, summary, now);
  }

  lemma StepQuiet(y: Sys, step: Step)
    requires Enabled(y, step) && !step.DoMirror?
    ensures Quiet(y.store.log, Take(y, step).store.log)
  {
    var s := y.store;
    match step
    case DoCreate(backend, answer) => CreateQuiet(s, backend, answer);
    case DoSend(sid, message, op, answer) => SendQuiet(s, sid, message, op, answer);
    case DoFinalize(tid, finished) => IngestAllQuiet(s, y.tasks[tid].sessionId, y.tasks[tid].backend, tid, finished.events);
    case DoCancel(sid, tid, op, agreed, now) => CancelQuiet(s, sid, tid, op, agreed, now);
    case DoResolve(rid, decision, response, reason, op, agreed, now) => ResolveQuiet(s, rid, decision, response, reason, op, agreed, now);
    case DoInterrupt(tid, summary, now) => InterruptQuiet(s, tid, summary, now);
    case DoCreateRemote(host, op, answer) => CreateRemoteQuiet(s, host, op, answer);
    case _ =>
  }

  // ---------------------------------------------------------------- one step

  /** What a step does for the session: the local view gains exactly the images of what its cursor
      moves over, and the resources of what lies behind the old cursor keep their translation. */
  ghost predicate Mirrors(f: Fed, g: Fed, sid: Id)
    requires SessionUri(sid) in f.local.store.links && SessionUri(sid) in g.local.store.links
  {
    var s, s' := f.local.store, g.local.store;
    var lo, hi := CursorOf(s, sid), CursorOf(s', sid);
    && Mirrored(s'.log, f.host, sid) ==
       Mirrored(s.log, f.host, sid) + Images(s'.links, f.host, sid, RemoteView(s, sid, g.remote, lo, hi))
    && forall i :: 0 <= i < |f.remote| && Behind(s, sid, f.remote[i]) ==> EventUntouched(s.links, s'.links, f.host, f.remote[i])
  }

  predicate Behind(s: State, sid: Id, e: Event)
    requires SessionUri(sid) in s.links
  {
    About(e, Some(SessionUri(s.links[SessionUri(sid)].remoteId))) && e.serverSeq <= CursorOf(s, sid)
  }

  lemma NothingNew(links: map<Uri, Link>, host: Id, sid: Id, s: State, remote: seq<Event>, cursor: int)
    requires SessionUri(sid) in s.links
    ensures Images(links, host, sid, RemoteView(s, sid, remote, cursor, cursor)) == []
  {
    WindowEmpty(remote, Some(SessionUri(s.links[SessionUri(sid)].remoteId)), [], cursor, cursor);
  }

  /** Steps that mirror nothing and add no link to anything the remote log already names. */
  lemma QuietMirrors(f: Fed, g: Fed, sid: Id)
    requires SessionUri(sid) in f.local.store.links && SessionUri(sid) in g.local.store.links
    requires Quiet(f.local.store.log, g.local.store.log)
    requires CursorOf(g.local.store, sid) == CursorOf(f.local.store, sid)
    requires forall i :: 0 <= i < |f.remote| ==> EventUntouched(f.local.store.links, g.local.store.links, f.host, f.remote[i])
    ensures Mirrors(f, g, sid)
  {
    QuietMirrored(f.local.store.log, g.local.store.log, f.host, sid);
    NothingNew(g.local.store.links, f.host, sid, f.local.store, g.remote, CursorOf(f.local.store, sid));
  }

  lemma LocalMirrors(f: Fed, step: Step, sid: Id)
    requires FedEnabled(f, Local(step)) && SessionUri(sid) in f.local.store.links
    ensures SessionUri(sid) in FedTake(f, Local(step)).local.store.links && Mirrors(f, FedTake(f, Local(step)), sid)
  {
    LocalLinks(f.local, step);
    StepQuiet(f.local, step);
    QuietMirrors(f, FedTake(f, Local(step)), sid);
  }

  lemma SendMirrors(f: Fed, g: Fed, other: Id, turn: Id, message: string, tid: Id, sid: Id)
    requires Sent(f, g, other, turn, message, tid) && other != sid && SessionUri(sid) in f.local.store.links && Unused(f.remote, TurnUri(turn))
    requires Quiet(f.local.store.log, g.local.store.log)
    ensures SessionUri(sid) in g.local.store.links && Mirrors(f, g, sid)
  {
    QuietMirrors(f, g, sid);
  }

  lemma CancelMirrors(f: Fed, other: Id, tid: Id, op: Option<Id>, now: nat, events: seq<Event>, sid: Id)
    requires FedEnabled(f, ForwardCancel(other, tid, op, now, events)) && SessionUri(sid) in f.local.store.links
    ensures var g := FedTake(f, ForwardCancel(other, tid, op, now, events));
            SessionUri(sid) in g.local.store.links && Mirrors(f, g, sid)
  {
    CancelLinks(f.local.store, other, tid, op, true, now);
    CancelQuiet(f.local.store, other, tid, op, true, now);
    QuietMirrors(f, FedTake(f, ForwardCancel(other, tid, op, now, events)), sid);
  }

  lemma CreateMirrors(f: Fed, g: Fed, session: Id, backend: Id, sid: Id)
    requires Created(f, g, session, backend) && SessionUri(sid) in f.local.store.links && Unused(f.remote, SessionUri(session))
    requires Quiet(f.local.store.log, g.local.store.log)
    ensures SessionUri(sid) in g.local.store.links && Mirrors(f, g, sid)
  {
    QuietMirrors(f, g, sid);
  }

  // ---------------------------------------------------------------- one pull

  /** The image of an event of a session's view concerns the local session, and no other one. */
  lemma ImageTargets(f: Fed, sid: Id, e: Event, other: Id)
    requires FedInv(f) && Linked(f.local.store, f.host, sid) && ShapeOk(e)
    requires About(e, Some(SessionUri(f.local.store.links[SessionUri(sid)].remoteId)))
    ensures About(Image(f.local.store.links, f.host, sid, e), Some(SessionUri(other))) <==> other == sid
  {
    var s := f.local.store;
    SessionRemote(f, sid);
    ByRemoteRow(s.links, f.host, e.resource);
    if !e.resource.SessionUri? && ByRemote(s.links, f.host, e.resource).Some? {
      var link := ByRemote(s.links, f.host, e.resource).value;
      assert RemoteLinkOk(s, f.host, f.remote, link) && LinkShape(s, link);
    }
  }

  function Logged(log: seq<Event>, e: Event): seq<Event> {
    log + [e.(serverSeq := LastSeq(log) + 1)]
  }

  lemma AdoptedImage(f: Fed, sid: Id, i: int)
    requires FedInv(f) && Linked(f.local.store, f.host, sid) && IsNext(f.local.store, sid, f.remote, i)
    requires f.remote[i].eventType == RequestCreated
    ensures var s, s' := f.local.store, PullStore(f.local.store, f.host, sid, f.remote[i]);
            Image(s'.links, f.host, sid, f.remote[i]) ==
            Event(0, RequestUri(s.nextId), Some(SessionUri(sid)), RequestCreated, FromRemote(f.host), f.remote[i].payload)
  {
    var s := f.local.store;
    var s' := PullStore(s, f.host, sid, f.remote[i]);
    PullSys(f, sid, i);
    SessionRemote(f, sid);
    PullLinks(f, sid, i);
    assert s'.links[SessionUri(sid)].localUri == SessionUri(sid);
    ByRemoteIs(s'.links, f.host, f.remote[i].resource, RequestUri(s.nextId));
    ByRemoteIs(s'.links, f.host, f.remote[i].parent.value, SessionUri(sid));
  }

  lemma PlainImage(f: Fed, sid: Id, i: int)
    requires FedInv(f) && Linked(f.local.store, f.host, sid) && IsNext(f.local.store, sid, f.remote, i)
    requires f.remote[i].eventType != RequestCreated
    ensures var s, s' := f.local.store, PullStore(f.local.store, f.host, sid, f.remote[i]);
            Image(s'.links, f.host, sid, f.remote[i]) == Image(s.links, f.host, sid, f.remote[i])
  {
    var s := f.local.store;
    var s' := PullStore(s, f.host, sid, f.remote[i]);
    PullSys(f, sid, i);
    PullAnchored(f, sid, i);
    AdvanceFromAnchored(s, s', f.host, f.remote, f.remote);
    PullLinks(f, sid, i);
    ImageStable(s.links, s'.links, f.host, sid, f.remote[i]);
  }

  lemma PlainLog(s: State, host: Id, sid: Id, e: Event)
    requires e.eventType != RequestCreated
    ensures PullStore(s, host, sid, e).log == Logged(s.log, Image(s.links, host, sid, e))
  {}

  lemma AdoptLog(s: State, host: Id, sid: Id, parent: Link, e: Event)
    requires AdoptRequest(s, host, sid, parent, e).1.Ok?
    ensures AdoptRequest(s, host, sid, parent, e).0.log ==
            Logged(s.log, Event(0, RequestUri(s.nextId), Some(parent.localUri), RequestCreated, FromRemote(host), e.payload))
  {}

  lemma AdoptedLog(f: Fed, sid: Id, i: int)
    requires FedInv(f) && Linked(f.local.store, f.host, sid) && IsNext(f.local.store, sid, f.remote, i)
    requires f.remote[i].eventType == RequestCreated
    ensures var s, s' := f.local.store, PullStore(f.local.store, f.host, sid, f.remote[i]);
            s'.log == Logged(s.log, Event(0, RequestUri(s.nextId), Some(SessionUri(sid)), RequestCreated, FromRemote(f.host), f.remote[i].payload))
  {
    PullAdopts(f, sid, i);
    SessionRemote(f, sid);
    AdoptLog(f.local.store, f.host, sid, f.local.store.links[SessionUri(sid)], f.remote[i]);
  }

  /** A pull logs one event, the image of the remote one under the links it leaves behind. */
  lemma PullLogs(f: Fed, sid: Id, i: int)
    requires FedInv(f) && Linked(f.local.store, f.host, sid) && IsNext(f.local.store, sid, f.remote, i)
    ensures var s, s' := f.local.store, PullStore(f.local.store, f.host, sid, f.remote[i]);
            s'.log == Logged(s.log, Image(s'.links, f.host, sid, f.remote[i]))
  {
    if f.remote[i].eventType == RequestCreated {
      AdoptedLog(f, sid, i);
      AdoptedImage(f, sid, i);
    } else {
      PlainLog(f.local.store, f.host, sid, f.remote[i]);
      PlainImage(f, sid, i);
    }
  }

  lemma PullUntouched(f: Fed, pulled: Id, i: int, sid: Id, j: int)
    requires FedInv(f) && Linked(f.local.store, f.host, pulled) && IsNext(f.local.store, pulled, f.remote, i)
    requires Linked(f.local.store, f.host, sid) && 0 <= j < |f.remote| && Behind(f.local.store, sid, f.remote[j])
    ensures EventUntouched(f.local.store.links, PullStore(f.local.store, f.host, pulled, f.remote[i]).links, f.host, f.remote[j])
  {
    PullLinks(f, pulled, i);
    var e, x := f.remote[i], f.remote[j];
    if e.eventType == RequestCreated {
      SessionRemote(f, sid);
      SessionRemote(f, pulled);
      assert ShapeOk(x) && ShapeOk(e);
      assert x.resource == e.resource ==> SameRequest(x, e);
    }
  }

  lemma SameNumber(log: seq<Event>, i: int, j: int)
    requires Ascending(log) && 0 <= i < |log| && 0 <= j < |log| && log[i].serverSeq == log[j].serverSeq
    ensures i == j
  {}

  lemma NextWindow(s: State, sid: Id, remote: seq<Event>, i: int)
    requires SessionUri(sid) in s.links && LogOk(remote) && IsNext(s, sid, remote, i)
    ensures RemoteView(s, sid, remote, CursorOf(s, sid), remote[i].serverSeq) == [remote[i]]
  {
    var view := Some(SessionUri(s.links[SessionUri(sid)].remoteId));
    var cursor, last := CursorOf(s, sid), LastSeq(remote);
    var hi := if last < cursor then cursor else last;
    WindowMembers(remote, view, [], cursor, hi, remote[i]);
    var first := AheadFirst(s, sid, remote);
    SameNumber(remote, first, i);
    WindowPrefix(remote, view, cursor, hi, 0);
  }

  /** What the pull adds to the view is the image of what its cursor moved over. */
  lemma PulledImages(f: Fed, g: Fed, pulled: Id, i: int, sid: Id)
    requires LogOk(f.remote) && SessionUri(pulled) in f.local.store.links && IsNext(f.local.store, pulled, f.remote, i)
    requires SessionUri(sid) in f.local.store.links && SessionUri(sid) in g.local.store.links
    requires CursorOf(g.local.store, sid) == if sid == pulled then f.remote[i].serverSeq else CursorOf(f.local.store, sid)
    ensures Images(g.local.store.links, f.host, sid,
                   RemoteView(f.local.store, sid, f.remote, CursorOf(f.local.store, sid), CursorOf(g.local.store, sid))) ==
            if sid == pulled then [Image(g.local.store.links, f.host, pulled, f.remote[i])] else []
  {
    if pulled == sid {
      NextWindow(f.local.store, sid, f.remote, i);
      OneImage(g.local.store.links, f.host, sid, f.remote[i]);
    } else {
      NothingNew(g.local.store.links, f.host, sid, f.local.store, f.remote, CursorOf(f.local.store, sid));
    }
  }

  lemma PulledView(f: Fed, g: Fed, pulled: Id, i: int, sid: Id)
    requires FedInv(f) && Linked(f.local.store, f.host, pulled) && IsNext(f.local.store, pulled, f.remote, i)
    requires g == WithStore(f, PullStore(f.local.store, f.host, pulled, f.remote[i])) && FedInv(g)
    requires SessionUri(sid) in f.local.store.links && SessionUri(sid) in g.local.store.links
    requires CursorOf(g.local.store, sid) == if sid == pulled then f.remote[i].serverSeq else CursorOf(f.local.store, sid)
    ensures Mirrored(g.local.store.log, f.host, sid) ==
            Mirrored(f.local.store.log, f.host, sid) +
            Images(g.local.store.links, f.host, sid,
                   RemoteView(f.local.store, sid, g.remote, CursorOf(f.local.store, sid), CursorOf(g.local.store, sid)))
  {
    var s := f.local.store;
    var image := Image(g.local.store.links, f.host, pulled, f.remote[i]);
    PullLogs(f, pulled, i);
    MirroredAppend(s.log, image.(serverSeq := LastSeq(s.log) + 1), f.host, sid);
    PulledTargets(f, g, pulled, i, sid);
    PulledImages(f, g, pulled, i, sid);
  }

  lemma OneImage(links: map<Uri, Link>, host: Id, sid: Id, e: Event)
    ensures Images(links, host, sid, [e]) == [Image(links, host, sid, e)]
  {
    assert [e][..0] == [];
    assert Images(links, host, sid, []) == [];
  }

  lemma PullMirrors(f: Fed, pulled: Id, sid: Id) returns (g: Fed)
    requires FedInv(f) && FedEnabled(f, Pull(pulled)) && Linked(f.local.store, f.host, sid)
    ensures g == FedTake(f, Pull(pulled)) && FedInv(g)
    ensures Linked(g.local.store, f.host, sid) && Mirrors(f, g, sid)
  {
    var s := f.local.store;
    var i := AheadFirst(s, pulled, f.remote);
    g := WithStore(f, PullStore(s, f.host, pulled, f.remote[i]));
    PullMoved(f, pulled, i);
    PullSys(f, pulled, i);
    PullKeeps(f, pulled, i);
    forall j | 0 <= j < |f.remote| && Behind(s, sid, f.remote[j])
      ensures EventUntouched(s.links, g.local.store.links, f.host, f.remote[j])
    {
      PullUntouched(f, pulled, i, sid, j);
    }
    PulledView(f, g, pulled, i, sid);
  }

  lemma PulledTargets(f: Fed, g: Fed, pulled: Id, i: int, sid: Id)
    requires FedInv(f) && Linked(f.local.store, f.host, pulled) && IsNext(f.local.store, pulled, f.remote, i)
    requires g == WithStore(f, PullStore(f.local.store, f.host, pulled, f.remote[i])) && FedInv(g)
    ensures IsMirrored(Image(g.local.store.links, f.host, pulled, f.remote[i]), f.host, sid) <==> sid == pulled
  {
    PullMoved(f, pulled, i);
    PullSys(f, pulled, i);
    ImageTargets(g, pulled, f.remote[i], sid);
  }

  // ---------------------------------------------------------------- runs

  /** Any step but a new message on the session itself, whose cursor would jump. */
  predicate KeepsPlace(step: FedStep, sid: Id) {
    !(step.ForwardSend? && step.sid == sid)
  }

  lemma StepMirrors(f: Fed, step: FedStep, sid: Id) returns (g: Fed)
    requires FedInv(f) && FedEnabled(f, step) && !step.Sync? && KeepsPlace(step, sid) && Linked(f.local.store, f.host, sid)
    ensures g == FedTake(f, step) && FedInv(g) && g.host == f.host && f.remote <= g.remote
    ensures LinksAdvance(f.local.store.links, g.local.store.links, f.host)
    ensures Linked(g.local.store, g.host, sid) && Mirrors(f, g, sid)
  {
    StepAdvances(f, step);
    g := FedStepInv(f, step);
    StaysLinked(f, g, sid);
    match step
    case Local(inner) => LocalMirrors(f, inner, sid);
    case RemoteGrows(events) => QuietMirrors(f, g, sid);
    case Pull(pulled) => g := PullMirrors(f, pulled, sid);
    case ForwardSend(other, message, op, turn) =>
      var h, tid := SendIs(f, other, message, op, turn);
      SendQuiet(f.local.store, other, message, op, Ok(RemoteTurn(TurnUri(turn), turn, LastSeq(h.remote))));
      SendMirrors(f, h, other, turn, message, tid, sid);
    case ForwardCancel(other, tid, op, now, events) => CancelMirrors(f, other, tid, op, now, events, sid);
    case ForwardCreate(op, session, backend, status) =>
      var h := CreateIs(f, op, session, backend, status);
      CreateRemoteQuiet(f.local.store, f.host, op, Ok(RemoteSession(SessionUri(session), session, LastSeq(h.remote), backend, status)));
      CreateMirrors(f, h, session, backend, sid);
  }

  lemma StaysLinked(f: Fed, g: Fed, sid: Id)
    requires FedInv(g) && Linked(f.local.store, f.host, sid) && LinksAdvance(f.local.store.links, g.local.store.links, f.host)
    ensures Linked(g.local.store, f.host, sid)
    ensures g.local.store.links[SessionUri(sid)].remoteId == f.local.store.links[SessionUri(sid)].remoteId
  {
    assert g.local.store.links[SessionUri(sid)].(cursor := 0) == f.local.store.links[SessionUri(sid)].(cursor := 0);
    assert LinkShape(g.local.store, g.local.store.links[SessionUri(sid)]);
  }

  /** The local view shows `base` and then the image of the remote view from `start` to the cursor. */
  ghost predicate Shows(f: Fed, sid: Id, base: seq<Event>, start: int)
    requires SessionUri(sid) in f.local.store.links
  {
    var s := f.local.store;
    Mirrored(s.log, f.host, sid) == base + Images(s.links, f.host, sid, RemoteView(s, sid, f.remote, start, CursorOf(s, sid)))
  }

  lemma ViewGrows(s: State, sid: Id, remote: seq<Event>, remote': seq<Event>, start: int)
    requires SessionUri(sid) in s.links && LogOk(remote') && remote <= remote' && Numbers(remote, CursorOf(s, sid))
    ensures RemoteView(s, sid, remote', start, CursorOf(s, sid)) == RemoteView(s, sid, remote, start, CursorOf(s, sid))
  {
    var view := Some(SessionUri(s.links[SessionUri(sid)].remoteId));
    var more := remote'[|remote|..];
    assert remote' == remote + more;
    WindowConcat(remote, more, view, [], start, CursorOf(s, sid));
    var i :| 0 <= i < |remote| && remote[i].serverSeq == CursorOf(s, sid);
    forall j | 0 <= j < |more| ensures CursorOf(s, sid) < more[j].serverSeq {
      assert more[j] == remote'[|remote| + j] && remote'[i] == remote[i];
    }
    WindowEmpty(more, view, [], start, CursorOf(s, sid));
  }

  lemma ViewUntouched(f: Fed, g: Fed, sid: Id, start: int)
    requires FedInv(f) && FedInv(g) && Linked(f.local.store, f.host, sid) && SessionUri(sid) in g.local.store.links
    requires LinksAdvance(f.local.store.links, g.local.store.links, f.host) && Mirrors(f, g, sid)
    ensures var view := RemoteView(f.local.store, sid, f.remote, start, CursorOf(f.local.store, sid));
            Images(f.local.store.links, f.host, sid, view) == Images(g.local.store.links, f.host, sid, view)
  {
    var s := f.local.store;
    var target := Some(SessionUri(s.links[SessionUri(sid)].remoteId));
    var view := RemoteView(s, sid, f.remote, start, CursorOf(s, sid));
    forall k | 0 <= k < |view| ensures EventUntouched(s.links, g.local.store.links, f.host, view[k]) {
      WindowMembers(f.remote, target, [], start, CursorOf(s, sid), view[k]);
      var j :| 0 <= j < |f.remote| && f.remote[j] == view[k];
      assert Behind(s, sid, f.remote[j]);
    }
    ImagesStable(s.links, g.local.store.links, f.host, sid, view);
  }

  lemma ViewSplits(s: State, s': State, host: Id, sid: Id, remote: seq<Event>, start: int)
    requires SessionUri(sid) in s.links && SessionUri(sid) in s'.links && LogOk(remote)
    requires s'.links[SessionUri(sid)].remoteId == s.links[SessionUri(sid)].remoteId && start <= CursorOf(s, sid) <= CursorOf(s', sid)
    ensures Images(s'.links, host, sid, RemoteView(s', sid, remote, start, CursorOf(s', sid))) ==
            Images(s'.links, host, sid, RemoteView(s, sid, remote, start, CursorOf(s, sid))) +
            Images(s'.links, host, sid, RemoteView(s, sid, remote, CursorOf(s, sid), CursorOf(s', sid)))
  {
    var view := Some(SessionUri(s.links[SessionUri(sid)].remoteId));
    WindowSplit(remote, view, [], start, CursorOf(s, sid), CursorOf(s', sid));
    ImagesConcat(s'.links, host, sid, RemoteView(s, sid, remote, start, CursorOf(s, sid)),
                 RemoteView(s, sid, remote, CursorOf(s, sid), CursorOf(s', sid)));
  }

  lemma ShownOnce(base: seq<Event>, a: seq<Event>, b: seq<Event>, ab: seq<Event>)
    requires ab == a + b
    ensures base + a + b == base + ab
  {}

  lemma ShowsMore(f: Fed, g: Fed, sid: Id, base: seq<Event>, start: int)
    requires FedInv(f) && FedInv(g) && g.host == f.host && f.remote <= g.remote
    requires Linked(f.local.store, f.host, sid) && Linked(g.local.store, g.host, sid)
    requires LinksAdvance(f.local.store.links, g.local.store.links, f.host) && Mirrors(f, g, sid)
    requires Shows(f, sid, base, start) && start <= CursorOf(f.local.store, sid)
    ensures Shows(g, sid, base, start)
  {
    var s, s' := f.local.store, g.local.store;
    StaysLinked(f, g, sid);
    SessionRemote(f, sid);
    ViewUntouched(f, g, sid, start);
    ViewGrows(s, sid, f.remote, g.remote, start);
    ViewSplits(s, s', f.host, sid, g.remote, start);
    ShownOnce(base, Images(s.links, f.host, sid, RemoteView(s, sid, f.remote, start, CursorOf(s, sid))),
              Images(s'.links, f.host, sid, RemoteView(s, sid, g.remote, CursorOf(s, sid), CursorOf(s', sid))),
              Images(s'.links, f.host, sid, RemoteView(s', sid, g.remote, start, CursorOf(s', sid))));
  }

  lemma {:induction false} RunShows(f: Fed, steps: seq<FedStep>, sid: Id) returns (g: Fed)
    requires FedInv(f) && Linked(f.local.store, f.host, sid) && SyncFree(steps)
    requires forall i :: 0 <= i < |steps| ==> KeepsPlace(steps[i], sid)
    ensures g == FedExec(f, steps) && FedInv(g) && g.host == f.host && Linked(g.local.store, g.host, sid)
    ensures Shows(g, sid, Mirrored(f.local.store.log, f.host, sid), CursorOf(f.local.store, sid))
    ensures CursorOf(f.local.store, sid) <= CursorOf(g.local.store, sid)
  {
    var base, start := Mirrored(f.local.store.log, f.host, sid), CursorOf(f.local.store, sid);
    if steps == [] {
      g := f;
      NothingNew(f.local.store.links, f.host, sid, f.local.store, f.remote, start);
    } else {
      var m := RunShows(f, steps[..|steps| - 1], sid);
      var last := steps[|steps| - 1];
      g := m;
      if FedEnabled(m, last) {
        g := StepMirrors(m, last, sid);
        ShowsMore(m, g, sid, base, start);
      }
    }
  }

  /** Mirror refinement. After any run of the two brokers, and any further run of syncs, remote and
      local activity without a new message on the session, the events of the local session view that
      came from the host are those that were there plus, in order and exactly once, the translated
      image of the remote session's view between the old cursor and the new one. */
  lemma MirrorRefinesRemoteView(host: Id, before: seq<FedStep>, f: Fed, steps: seq<FedStep>, g: Fed, sid: Id)
    requires FedReaches(FedInitial(host), before, f) && FedReaches(f, steps, g)
    requires Linked(f.local.store, host, sid)
    requires forall i :: 0 <= i < |steps| ==> KeepsPlace(steps[i], sid)
    ensures Linked(g.local.store, host, sid) && CursorOf(f.local.store, sid) <= CursorOf(g.local.store, sid)
    ensures Mirrored(g.local.store.log, host, sid) ==
            Mirrored(f.local.store.log, host, sid) +
            Images(g.local.store.links, host, sid,
                   RemoteView(g.local.store, sid, g.remote, CursorOf(f.local.store, sid), CursorOf(g.local.store, sid)))
  {
    ReachedInv(host, before, f);
    FedReachesExec(f, steps, g);
    var g0, expanded := RunsArePulls(f, steps);
    forall i | 0 <= i < |expanded| ensures KeepsPlace(expanded[i], sid) {
      assert From(expanded[i], steps);
    }
    var g1 := RunShows(f, expanded, sid);
  }
}

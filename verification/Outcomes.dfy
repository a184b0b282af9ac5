/** What mirroring, forwarding, interruption and recovery do, told in event types, statuses and rows. */
module Outcomes {
  import opened Types
  import opened Vocabulary
  import opened Wrappers
  import opened EventLog
  import opened StoreModel
  import opened BrokerModel
  import opened BrokerInvariants
  import opened BrokerSteps
  import opened Effects
  import opened Recovery
  import opened Federation

  // ---------------------------------------------------------------- mirroring an event

  /** Exactly one event was logged: the remote one's type and payload, under the local names of its
      resource and parent, marked as coming from the host. */
  ghost predicate LoggedHere(s: State, s': State, host: Id, sid: Id, e: Event) {
    && s.log <= s'.log && |s'.log| == |s.log| + 1
    && var e' := s'.log[|s.log|];
       && e'.eventType == e.eventType && e'.payload == e.payload && e'.origin == FromRemote(host)
       && e'.serverSeq == LastSeq(s.log) + 1
       && NamedHere(s.links, host, sid, Some(e.resource), e'.resource)
       && e'.parent.Some? && NamedHere(s.links, host, sid, e.parent, e'.parent.value)
  }

  /** The linked turn has the status, is unread and knows its remote id; the session has its status at
      the event just logged. No other turn and no other session changed. */
  ghost predicate TurnFollows(s: State, s': State, sid: Id, link: Link, status: Status, session: Status)
    requires |s'.log| == |s.log| + 1
  {
    && (link.localId in s.turns ==>
          TurnBecame(s.turns, s'.turns, link.localId,
                     s.turns[link.localId].(backendTurnId := Some(link.remoteId), status := status, unread := true)))
    && (link.localId !in s.turns ==> s'.turns == s.turns)
    && SessionMoved(s.sessions, s'.sessions, sid, session, s'.log[|s.log|].serverSeq)
  }

  /** What an event about a remote resource means for the turn it is linked to. */
  ghost predicate StatusFollows(s: State, s': State, host: Id, sid: Id, e: Event)
    requires |s'.log| == |s.log| + 1
  {
    && (forall u :: Represents(s.links, host, e.resource, u) && s.links[u].kind == TurnLink ==>
          match e.eventType
          case TurnCompleted => TurnFollows(s, s', sid, s.links[u], Completed, Idle)
          case TurnFailed => TurnFollows(s, s', sid, s.links[u], Failed, Idle)
          case TurnCancelled => TurnFollows(s, s', sid, s.links[u], Status.Cancelled, Idle)
          case TurnNeedsInput => TurnFollows(s, s', sid, s.links[u], NeedsInput, NeedsInput)
          case _ => s'.turns == s.turns && s'.sessions == s.sessions)
    && ((forall u :: Represents(s.links, host, e.resource, u) ==> s.links[u].kind != TurnLink) ==>
          s'.turns == s.turns && s'.sessions == s.sessions)
  }

  /** What mirroring a remote event does, unless it announces a request. */
  ghost predicate EventMirrored(s: State, s': State, host: Id, sid: Id, e: Event) {
    && LoggedHere(s, s', host, sid, e) && StatusFollows(s, s', host, sid, e)
    && s'.requests == s.requests && s'.links == s.links && s'.ops == s.ops && s'.nextId == s.nextId
  }

  lemma LookupIs(links: map<Uri, Link>, host: Id, remote: Uri)
    requires LinksOk(links)
    ensures ByRemote(links, host, remote).Some? <==> IsKnown(links, host, remote)
    ensures forall u :: Represents(links, host, remote, u) ==> ByRemote(links, host, remote) == Some(links[u]) && links[u].localUri == u
  {
    forall u | Represents(links, host, remote, u) ensures ByRemote(links, host, remote) == Some(links[u]) {
      ByRemoteIs(links, host, remote, u);
    }
    if ByRemote(links, host, remote).Some? {
      var u :| IsRemote(links, host, remote, u);
      assert Represents(links, host, remote, u);
    }
  }

  lemma TurnRow(s: State, tid: Id, backendTurn: Id, status: Status, unread: bool)
    ensures var s' := UpdateTurn(s, tid, Some(backendTurn), status, unread);
            && s' == s.(turns := s'.turns)
            && (tid in s.turns ==>
                  TurnBecame(s.turns, s'.turns, tid, s.turns[tid].(backendTurnId := Some(backendTurn), status := status, unread := unread)))
            && (tid !in s.turns ==> s' == s)
  {}

  lemma SessionRow(s: State, sid: Id, status: Status, cursor: int)
    ensures var s' := UpdateSession(s, sid, status, Some(cursor));
            s' == s.(sessions := s'.sessions) && SessionMoved(s.sessions, s'.sessions, sid, status, cursor)
  {}

  lemma RowsFollow(s: State, s1: State, sid: Id, link: Link, status: Status, session: Status)
    requires s1 == s.(log := s1.log) && |s1.log| == |s.log| + 1
    ensures var s' := UpdateSession(UpdateTurn(s1, link.localId, Some(link.remoteId), status, true), sid, session, Some(LastSeq(s1.log)));
            s' == s1.(turns := s'.turns, sessions := s'.sessions) && TurnFollows(s, s', sid, link, status, session)
  {
    var s2 := UpdateTurn(s1, link.localId, Some(link.remoteId), status, true);
    TurnRow(s1, link.localId, link.remoteId, status, true);
    SessionRow(s2, sid, session, LastSeq(s1.log));
  }

  lemma ApplyEffects(s: State, s1: State, sid: Id, link: Link, eventType: EventType)
    requires s1 == s.(log := s1.log) && |s1.log| == |s.log| + 1
    ensures var s' := ApplyMirrored(s1, sid, Some(link), eventType);
            && s' == s1.(turns := s'.turns, sessions := s'.sessions)
            && (link.kind != TurnLink ==> s' == s1)
            && (link.kind == TurnLink ==>
                  match eventType
                  case TurnCompleted => TurnFollows(s, s', sid, link, Completed, Idle)
                  case TurnFailed => TurnFollows(s, s', sid, link, Failed, Idle)
                  case TurnCancelled => TurnFollows(s, s', sid, link, Status.Cancelled, Idle)
                  case TurnNeedsInput => TurnFollows(s, s', sid, link, NeedsInput, NeedsInput)
                  case _ => s' == s1)
  {
    match eventType
    case TurnCompleted => RowsFollow(s, s1, sid, link, Completed, Idle);
    case TurnFailed => RowsFollow(s, s1, sid, link, Failed, Idle);
    case TurnCancelled => RowsFollow(s, s1, sid, link, Status.Cancelled, Idle);
    case TurnNeedsInput => RowsFollow(s, s1, sid, link, NeedsInput, NeedsInput);
    case _ =>
  }

  lemma NameIs(links: map<Uri, Link>, host: Id, sid: Id, remote: Option<Uri>)
    requires LinksOk(links)
    ensures var link := if remote.Some? then ByRemote(links, host, remote.value) else None;
            NamedHere(links, host, sid, remote, UriOr(link, SessionUri(sid)))
  {
    if remote.Some? { LookupIs(links, host, remote.value); }
  }

  lemma MirrorLogs(s: State, host: Id, sid: Id, e: Event) returns (s1: State)
    requires LinksOk(s.links) && e.eventType != RequestCreated
    ensures s1 == s.(log := s1.log) && LoggedHere(s, s1, host, sid, e)
    ensures Mirror(s, host, sid, e) == (ApplyMirrored(s1, sid, ByRemote(s.links, host, e.resource), e.eventType), Ok(()))
  {
    var link, parent := ByRemote(s.links, host, e.resource), RemoteParent(s.links, host, e);
    NameIs(s.links, host, sid, Some(e.resource));
    NameIs(s.links, host, sid, e.parent);
    s1 := Append(s, UriOr(link, SessionUri(sid)), Some(UriOr(parent, SessionUri(sid))), e.eventType, FromRemote(host), e.payload);
  }

  lemma LinkFollows(s: State, s1: State, host: Id, sid: Id, e: Event)
    requires LinksOk(s.links) && s1 == s.(log := s1.log) && |s1.log| == |s.log| + 1
    ensures var s' := ApplyMirrored(s1, sid, ByRemote(s.links, host, e.resource), e.eventType);
            s' == s1.(turns := s'.turns, sessions := s'.sessions) && StatusFollows(s, s', host, sid, e)
  {
    var link := ByRemote(s.links, host, e.resource);
    LookupIs(s.links, host, e.resource);
    if link.Some? { ApplyEffects(s, s1, sid, link.value, e.eventType); }
  }

  /** Mirroring never fails but for a request, logs the event exactly once under its local names, and moves
      the linked turn and the session as the event's type says. */
  lemma MirrorEffects(s: State, host: Id, sid: Id, e: Event)
    requires LinksOk(s.links) && e.eventType != RequestCreated
    ensures var (s', result) := Mirror(s, host, sid, e); result == Ok(()) && EventMirrored(s, s', host, sid, e)
  {
    var s1 := MirrorLogs(s, host, sid, e);
    LinkFollows(s, s1, host, sid, e);
  }

  /** What mirroring a remote request does: without a local parent it fails; a known one changes nothing;
      a new one is raised under its local parent, pending and as its payload asks, and linked. */
  ghost predicate RequestMirrored(s: State, s': State, result: Result<()>, host: Id, sid: Id, e: Event) {
    if e.parent.None? || !IsKnown(s.links, host, e.parent.value) then s' == s && result == Err(InvalidState)
    else if IsKnown(s.links, host, e.resource) then s' == s && result == Ok(())
    else
      && result == Ok(())
      && var rid := s.nextId;
         && (forall u :: Represents(s.links, host, e.parent.value, u) ==>
               RequestRaised(s, s', rid, sid, Some(s.links[u].localId), u, FromRemote(host), e.payload))
         && rid in s'.requests && AsksAs(e.payload, s'.requests[rid].kind, s'.requests[rid].summary)
         && (forall u :: u in s'.links <==> u in s.links || u == RequestUri(rid))
         && (forall u :: u in s.links ==> s'.links[u] == s.links[u])
         && Represents(s'.links, host, e.resource, RequestUri(rid))
         && s'.links[RequestUri(rid)].kind == RequestLink && s'.links[RequestUri(rid)].localId == rid
  }

  lemma AdoptEffects(s: State, host: Id, sid: Id, u: Uri, e: Event)
    requires LinksOk(s.links) && s.nextId !in s.requests && RequestUri(s.nextId) !in s.links
    requires e.eventType == RequestCreated && u in s.links && !IsKnown(s.links, host, e.resource)
    ensures var (s', result) := AdoptRequest(s, host, sid, s.links[u], e);
            var rid := s.nextId;
            && result == Ok(()) && RequestRaised(s, s', rid, sid, Some(s.links[u].localId), u, FromRemote(host), e.payload)
            && AsksAs(e.payload, s'.requests[rid].kind, s'.requests[rid].summary)
            && s'.links == s.links[RequestUri(rid) := s'.links[RequestUri(rid)]] && Represents(s'.links, host, e.resource, RequestUri(rid))
            && s'.links[RequestUri(rid)].kind == RequestLink && s'.links[RequestUri(rid)].localId == rid
  {
    AskedAs(e.payload);
    forall v | v in s.links ensures !(s.links[v].host == host && s.links[v].remoteUri == e.resource) {
      assert !Represents(s.links, host, e.resource, v);
    }
  }

  lemma MirrorRequestEffects(s: State, host: Id, sid: Id, e: Event)
    requires LinksOk(s.links) && s.nextId !in s.requests && RequestUri(s.nextId) !in s.links && e.eventType == RequestCreated
    ensures var (s', result) := Mirror(s, host, sid, e); RequestMirrored(s, s', result, host, sid, e)
  {
    LookupIs(s.links, host, e.resource);
    if e.parent.Some? {
      LookupIs(s.links, host, e.parent.value);
      if IsKnown(s.links, host, e.parent.value) && !IsKnown(s.links, host, e.resource) {
        var u :| Represents(s.links, host, e.parent.value, u);
        AdoptEffects(s, host, sid, u, e);
      }
    }
  }

  lemma MirroredRight(s: State, host: Id, sid: Id, e: Event)
    requires LinksOk(s.links)
    ensures var (s', result) := Mirror(s, host, sid, e);
            && (e.eventType != RequestCreated ==> result == Ok(()) && EventMirrored(s, s', host, sid, e))
            && (e.eventType == RequestCreated && StoreInv(s) ==> RequestMirrored(s, s', result, host, sid, e))
  {
    if e.eventType != RequestCreated {
      MirrorEffects(s, host, sid, e);
    } else if StoreInv(s) {
      assert !UriBelow(RequestUri(s.nextId), s.nextId);
      MirrorRequestEffects(s, host, sid, e);
    }
  }

  // ---------------------------------------------------------------- mirroring a page

  /** What mirroring an event that does not fail does. */
  ghost predicate Follows(s: State, s': State, host: Id, sid: Id, e: Event) {
    if e.eventType == RequestCreated then RequestMirrored(s, s', Ok(()), host, sid, e) else EventMirrored(s, s', host, sid, e)
  }

  /** The states passed through while the events are mirrored one after the other, up to the first that fails. */
  ghost predicate PassedThrough(states: seq<State>, host: Id, sid: Id, events: seq<Event>) {
    && 1 <= |states| <= |events| + 1
    && forall i {:trigger events[i]} :: 0 <= i < |states| - 1 ==> Follows(states[i], states[i + 1], host, sid, events[i])
  }

  /** The event announces a request whose parent is not known here. */
  ghost predicate Orphan(s: State, host: Id, e: Event) {
    e.eventType == RequestCreated && (e.parent.None? || !IsKnown(s.links, host, e.parent.value))
  }

  lemma MirrorNext(s: State, host: Id, sid: Id, e: Event) returns (s': State, ok: bool)
    requires StoreInv(s) && sid in s.sessions
    ensures s' == Mirror(s, host, sid, e).0 && ok == Mirror(s, host, sid, e).1.Ok? && StoreInv(s') && sid in s'.sessions
    ensures if ok then Follows(s, s', host, sid, e) else s' == s && Orphan(s, host, e)
  {
    s', ok := Mirror(s, host, sid, e).0, Mirror(s, host, sid, e).1.Ok?;
    MirrorGood(s, host, sid, e);
    MirroredRight(s, host, sid, e);
  }

  lemma PassedMore(states: seq<State>, s': State, host: Id, sid: Id, events: seq<Event>)
    requires events != [] && PassedThrough(states, host, sid, events[..|events| - 1]) && |states| == |events|
    requires Follows(states[|states| - 1], s', host, sid, events[|events| - 1])
    ensures PassedThrough(states + [s'], host, sid, events)
  {
    var more := states + [s'];
    forall i | 0 <= i < |more| - 1 ensures Follows(more[i], more[i + 1], host, sid, events[i]) {
      if i < |states| - 1 { assert events[..|events| - 1][i] == events[i]; }
    }
  }

  lemma PassedShort(states: seq<State>, host: Id, sid: Id, events: seq<Event>)
    requires events != [] && PassedThrough(states, host, sid, events[..|events| - 1])
    ensures PassedThrough(states, host, sid, events)
  {
    forall i | 0 <= i < |states| - 1 ensures Follows(states[i], states[i + 1], host, sid, events[i]) {
      assert events[..|events| - 1][i] == events[i];
    }
  }

  /** The events were mirrored one after the other, up to the first that failed. */
  ghost predicate Mirrors(states: seq<State>, s: State, s': State, ok: bool, host: Id, sid: Id, events: seq<Event>) {
    && PassedThrough(states, host, sid, events) && states[0] == s && s' == states[|states| - 1]
    && (ok <==> |states| == |events| + 1)
    && (!ok ==> Orphan(s', host, events[|states| - 1]))
  }

  lemma MirrorsStill(states: seq<State>, s: State, s': State, host: Id, sid: Id, events: seq<Event>)
    requires events != [] && Mirrors(states, s, s', false, host, sid, events[..|events| - 1])
    ensures Mirrors(states, s, s', false, host, sid, events)
  {
    PassedShort(states, host, sid, events);
    assert events[..|events| - 1][|states| - 1] == events[|states| - 1];
  }

  lemma MirrorsNext(before: seq<State>, s: State, m: State, host: Id, sid: Id, events: seq<Event>) returns (states: seq<State>, s': State, ok: bool)
    requires events != [] && Mirrors(before, s, m, true, host, sid, events[..|events| - 1]) && StoreInv(m) && sid in m.sessions
    ensures s' == Mirror(m, host, sid, events[|events| - 1]).0 && ok == Mirror(m, host, sid, events[|events| - 1]).1.Ok?
    ensures Mirrors(states, s, s', ok, host, sid, events) && StoreInv(s') && sid in s'.sessions
  {
    s', ok := MirrorNext(m, host, sid, events[|events| - 1]);
    if ok {
      PassedMore(before, s', host, sid, events);
      states := before + [s'];
    } else {
      PassedShort(before, host, sid, events);
      states := before;
    }
  }

  lemma {:induction false} MirrorAllEffects(s: State, host: Id, sid: Id, events: seq<Event>) returns (states: seq<State>, s': State, ok: bool)
    requires StoreInv(s) && sid in s.sessions
    ensures (s', ok) == MirrorAll(s, host, sid, events) && StoreInv(s') && sid in s'.sessions
    ensures Mirrors(states, s, s', ok, host, sid, events)
  {
    if events == [] {
      states, s', ok := [s], s, true;
    } else {
      states, s', ok := MirrorAllEffects(s, host, sid, events[..|events| - 1]);
      if ok { states, s', ok := MirrorsNext(states, s, s', host, sid, events); } else { MirrorsStill(states, s, s', host, sid, events); }
    }
  }

  /** What a page does: its events are mirrored in order; if none fails, the session's link then has the
      new cursor and no other link changes; otherwise everything stays as the failing event found it. */
  ghost predicate PageApplied(s: State, s': State, host: Id, sid: Id, events: seq<Event>, next: int, complete: bool) {
    exists states :: PageSteps(states, s, s', host, sid, events, next, complete)
  }

  ghost predicate PageSteps(states: seq<State>, s: State, s': State, host: Id, sid: Id, events: seq<Event>, next: int, complete: bool) {
    && PassedThrough(states, host, sid, events) && states[0] == s
    && if complete then |states| == |events| + 1 && CursorMoved(states[|states| - 1], s', SessionUri(sid), next)
       else |states| <= |events| && s' == states[|states| - 1] && Orphan(s', host, events[|states| - 1])
  }

  ghost predicate CursorMoved(s: State, s': State, local: Uri, cursor: int) {
    && s' == s.(links := s'.links) && s'.links.Keys == s.links.Keys
    && forall u :: u in s.links ==> s'.links[u] == if u == local then s.links[u].(cursor := cursor) else s.links[u]
  }

  lemma PageEffects(s: State, host: Id, sid: Id, events: seq<Event>, next: int)
    requires StoreInv(s) && sid in s.sessions
    ensures PageApplied(s, ApplyPage(s, host, sid, events, next), host, sid, events, next, MirrorAll(s, host, sid, events).1)
  {
    var states, m, ok := MirrorAllEffects(s, host, sid, events);
    if ok { CursorMoves(m, SessionUri(sid), next); }
    assert PageSteps(states, s, ApplyPage(s, host, sid, events, next), host, sid, events, next, ok);
  }

  lemma CursorMoves(s: State, local: Uri, cursor: int)
    ensures CursorMoved(s, s.(links := SetLinkCursor(s.links, local, cursor)), local, cursor)
  {}

  // ---------------------------------------------------------------- interrupting a turn

  /** A turn was interrupted: its pending requests are withdrawn and that logged, oldest first; then its
      failure, with the reason; it is failed and unread if it still worked, and its session idle there. */
  ghost predicate TurnInterrupted(s: State, s': State, tid: Id, reason: string, now: nat)
    requires tid in s.turns
  {
    var ids := PendingIds(s.requests, tid, s.nextId);
    var n := |s.log| + |ids|;
    var turn := s.turns[tid];
    && PendingInOrder(s.requests, tid, ids)
    && LogsWithdrawals(s.log, s'.log, ids, tid, reason) && |s'.log| == n + 1
    && OnTurnOf(s'.log[n], tid, turn.sessionId, TurnFailed, FromBroker) && HasText(s'.log[n].payload, "summary", reason)
    && Withdraws(s.requests, s'.requests, tid, reason, now)
    && TurnBecame(s.turns, s'.turns, tid,
                  if turn.status == Running || turn.status == NeedsInput then turn.(status := Failed, unread := true) else turn)
    && SessionMoved(s.sessions, s'.sessions, turn.sessionId, Idle, s'.log[n].serverSeq)
    && s'.links == s.links
  }

  lemma FailureLogged(s: State, tid: Id, sid: Id, reason: string)
    ensures var s1 := Append(s, TurnUri(tid), Some(SessionUri(sid)), TurnFailed, FromBroker, Note(reason));
            var s' := UpdateSession(s1, sid, Idle, Some(LastSeq(s1.log)));
            && s.log <= s'.log && |s'.log| == |s.log| + 1
            && OnTurnOf(s'.log[|s.log|], tid, sid, TurnFailed, FromBroker) && HasText(s'.log[|s.log|].payload, "summary", reason)
            && SessionMoved(s.sessions, s'.sessions, sid, Idle, s'.log[|s.log|].serverSeq)
            && s' == s.(log := s'.log, sessions := s'.sessions)
  {}

  lemma MarkEffects(s: State, tid: Id)
    requires tid in s.turns
    ensures var s' := MarkInterrupted(s, tid);
            var turn := s.turns[tid];
            && s' == s.(turns := s'.turns)
            && TurnBecame(s.turns, s'.turns, tid,
                          if turn.status == Running || turn.status == NeedsInput then turn.(status := Failed, unread := true) else turn)
  {}

  lemma InterruptIs(s: State, tid: Id, reason: string, now: nat) returns (s0: State, s1: State, s2: State)
    requires tid in s.turns
    ensures s0 == MarkInterrupted(s, tid) && s1 == WithdrawRequests(s0, tid, reason, now)
    ensures s2 == Append(s1, TurnUri(tid), Some(SessionUri(s.turns[tid].sessionId)), TurnFailed, FromBroker, Note(reason))
    ensures Interrupt(s, tid, reason, now) == UpdateSession(s2, s.turns[tid].sessionId, Idle, Some(LastSeq(s2.log)))
  {
    s0 := MarkInterrupted(s, tid);
    s1 := WithdrawRequests(s0, tid, reason, now);
    s2 := Append(s1, TurnUri(tid), Some(SessionUri(s.turns[tid].sessionId)), TurnFailed, FromBroker, Note(reason));
  }

  lemma InterruptEffects(s: State, tid: Id, reason: string, now: nat)
    requires RequestsBelow(s) && tid in s.turns
    ensures TurnInterrupted(s, Interrupt(s, tid, reason, now), tid, reason, now)
  {
    var s' := Interrupt(s, tid, reason, now);
    var s0, s1, s2 := InterruptIs(s, tid, reason, now);
    MarkEffects(s, tid);
    WithdrawFrame(s0, tid, reason, now);
    WithdrawEffects(s0, tid, reason, now);
    FailureLogged(s1, tid, s.turns[tid].sessionId, reason);
    LogsMore(s.log, s1.log, s'.log, PendingIds(s.requests, tid, s.nextId), tid, reason);
  }

  // ---------------------------------------------------------------- recovering a session

  /** What the backend's answer means for a session, before its turns are handled: a resumed one is logged
      as reattached and, if none of its turns was at work, idle at that event; a refused one is logged as
      degraded, and is, at the cursor it had; without resuming nothing happens. */
  ghost predicate SessionReconciled(s: State, s': State, sid: Id, backend: Id, b: Backend, quiet: bool)
    requires sid in s.sessions
  {
    var n := |s.log|;
    && s.log <= s'.log
    && (b.supportsResume ==> |s'.log| > n)
    && (b.supportsResume && b.refusal(sid).None? ==> OnSession(s'.log[n], sid, SessionReattached, FromBackend(backend)))
    && (b.supportsResume && b.refusal(sid).Some? ==>
          OnSession(s'.log[n], sid, SessionDegraded, FromBroker) && HasText(s'.log[n].payload, "summary", b.refusal(sid).value))
    && (quiet ==>
          && |s'.log| == n + (if b.supportsResume then 1 else 0)
          && (b.supportsResume && b.refusal(sid).None? ==> SessionMoved(s.sessions, s'.sessions, sid, Idle, s'.log[n].serverSeq))
          && (b.supportsResume && b.refusal(sid).Some? ==> SessionMoved(s.sessions, s'.sessions, sid, Degraded, s.sessions[sid].latestCursor))
          && (!b.supportsResume ==> s'.sessions == s.sessions)
          && s'.turns == s.turns && s'.requests == s.requests && s'.links == s.links && s'.ops == s.ops)
  }

  lemma ResumedEffects(s: State, sid: Id, backend: Id, idle: bool)
    ensures var s' := Resumed(s, sid, backend, idle);
            && s.log <= s'.log && |s'.log| == |s.log| + 1 && OnSession(s'.log[|s.log|], sid, SessionReattached, FromBackend(backend))
            && (if idle then SessionMoved(s.sessions, s'.sessions, sid, Idle, s'.log[|s.log|].serverSeq) else s'.sessions == s.sessions)
            && s' == s.(log := s'.log, sessions := s'.sessions)
  {}

  lemma RefusedEffects(s: State, sid: Id, error: string)
    requires sid in s.sessions
    ensures var s' := ResumeRefused(s, sid, error);
            && s.log <= s'.log && |s'.log| == |s.log| + 1 && OnSession(s'.log[|s.log|], sid, SessionDegraded, FromBroker)
            && HasText(s'.log[|s.log|].payload, "summary", error)
            && SessionMoved(s.sessions, s'.sessions, sid, Degraded, s.sessions[sid].latestCursor)
            && s' == s.(log := s'.log, sessions := s'.sessions)
  {}

  lemma ResumedRound(s: State, sid: Id, row: Session, turns: seq<Id>, b: Backend, now: nat)
    requires Reattachable(s, sid, row.latestCursor, turns) && sid in s.sessions && b.supportsResume && b.refusal(sid).None?
    ensures SessionReconciled(s, RecoverSession(s, sid, row, turns, b, now).0, sid, row.backend, b, turns == [])
  {
    var s1 := Resumed(s, sid, row.backend, turns == []);
    ResumedEffects(s, sid, row.backend, turns == []);
    ResumedGood(s, sid, row.backend, turns == []);
    ReattachableLater(s, s1, sid, row.latestCursor, turns);
    assert turns[..|turns|] == turns;
    ReattachAllKeeps(s1, sid, row.latestCursor, turns, |turns|, b, now);
    InterruptAllGood(s1, turns, NO_REATTACH, now);
  }

  lemma RecoverSessionEffects(s: State, sid: Id, row: Session, turns: seq<Id>, b: Backend, now: nat)
    requires Reattachable(s, sid, row.latestCursor, turns) && sid in s.sessions
    ensures SessionReconciled(s, RecoverSession(s, sid, row, turns, b, now).0, sid, row.backend, b, turns == [])
  {
    if !b.supportsResume {
      InterruptAllGood(s, turns, NO_RESUME, now);
    } else if b.refusal(sid).None? {
      ResumedRound(s, sid, row, turns, b, now);
    } else {
      var error := b.refusal(sid).value;
      RefusedEffects(s, sid, error);
      ResumeRefusedGood(s, sid, error);
      InterruptAllGood(ResumeRefused(s, sid, error), turns, RESUME_FAILED + error, now);
    }
  }

  // ---------------------------------------------------------------- forwarding a message

  /** A turn was opened for a forwarded message: queued and then started, for the remote broker. */
  ghost predicate ForwardLogged(log: seq<Event>, log': seq<Event>, tid: Id, sid: Id, message: string) {
    var n := |log|;
    && log <= log' && |log'| >= n + 2
    && OnTurnOf(log'[n], tid, sid, TurnQueued, FromRemoteBroker) && HasText(log'[n].payload, "message", message)
    && OnTurnOf(log'[n + 1], tid, sid, TurnStarted, FromRemoteBroker)
  }

  /** The remote broker took the message: the new turn runs, linked to the remote one, the session runs at
      its start, whose number is the reply's cursor, and the session's link follows the remote cursor. */
  ghost predicate MessageForwarded(s: State, s': State, sid: Id, host: Id, message: string, remote: RemoteTurn, reply: SendReply)
    requires SessionUri(sid) in s.links
  {
    var t, n := reply.turnId, |s.log|;
    && t !in s.turns && s'.turns == s.turns[t := Turn(sid, None, Running, false)]
    && ForwardLogged(s.log, s'.log, t, sid, message) && |s'.log| == n + 2
    && reply == SendReply(t, Running, s'.log[n + 1].serverSeq)
    && SessionMoved(s.sessions, s'.sessions, sid, Running, reply.eventCursor)
    && s'.links == s.links[TurnUri(t) := Link(TurnUri(t), TurnLink, t, host, remote.uri, remote.id, 0)]
                          [SessionUri(sid) := s.links[SessionUri(sid)].(cursor := remote.cursor)]
    && s'.requests == s.requests
  }

  /** The remote broker failed: the new turn is degraded, unread and not linked, the session degraded at
      the turn's start, and the degradation logged last. */
  ghost predicate MessageFailed(s: State, s': State, t: Id, sid: Id, message: string) {
    var n := |s.log|;
    && t !in s.turns && s'.turns == s.turns[t := Turn(sid, None, Degraded, true)]
    && ForwardLogged(s.log, s'.log, t, sid, message) && |s'.log| == n + 3
    && OnTurnOf(s'.log[n + 2], t, sid, TurnDegraded, FromRemoteBroker)
    && SessionMoved(s.sessions, s'.sessions, sid, Degraded, s'.log[n + 1].serverSeq)
    && s'.links == s.links && s'.requests == s.requests
  }

  lemma OpenedEffects(s: State, sid: Id, message: string, origin: Origin)
    requires s.nextId !in s.turns
    ensures var s' := OpenTurn(s, sid, message, origin);
            var t, n := s.nextId, |s.log|;
            && s'.turns == s.turns[t := Turn(sid, None, Running, false)]
            && s.log <= s'.log && |s'.log| == n + 2
            && OnTurnOf(s'.log[n], t, sid, TurnQueued, origin) && HasText(s'.log[n].payload, "message", message)
            && OnTurnOf(s'.log[n + 1], t, sid, TurnStarted, origin)
            && SessionMoved(s.sessions, s'.sessions, sid, Running, s'.log[n + 1].serverSeq)
            && s' == s.(turns := s'.turns, sessions := s'.sessions, log := s'.log, nextId := s.nextId + 1)
  {
    var t := s.nextId;
    var s1 := InsertTurn(s, Turn(sid, None, Running, false));
    var s2 := Append(s1, TurnUri(t), Some(SessionUri(sid)), TurnQueued, origin, JObj(map["message" := JStr(message)]));
    var s3 := Append(s2, TurnUri(t), Some(SessionUri(sid)), TurnStarted, origin, JObj(map[]));
    SessionRow(s3, sid, Running, LastSeq(s3.log));
  }

  lemma DegradedEffects(s: State, sid: Id, tid: Id)
    requires tid in s.turns
    ensures var s' := DegradeTurn(s, sid, tid);
            && TurnBecame(s.turns, s'.turns, tid, s.turns[tid].(status := Degraded, unread := true))
            && s.log <= s'.log && |s'.log| == |s.log| + 1 && OnTurnOf(s'.log[|s.log|], tid, sid, TurnDegraded, FromRemoteBroker)
            && SessionMoved(s.sessions, s'.sessions, sid, Degraded, LastSeq(s.log))
            && s' == s.(turns := s'.turns, sessions := s'.sessions, log := s'.log)
  {
    var s1 := UpdateTurn(s, tid, None, Degraded, true);
    SessionRow(s1, sid, Degraded, LastSeq(s.log));
  }

  lemma ForwardFailsBoth(s: State, s1: State, s': State, sid: Id, message: string)
    requires s.nextId !in s.turns && s1 == OpenTurn(s, sid, message, FromRemoteBroker) && s' == DegradeTurn(s1, sid, s.nextId)
    ensures MessageFailed(s, s', s.nextId, sid, message) && s'.ops == s.ops && s'.nextId == s.nextId + 1
  {
    OpenedEffects(s, sid, message, FromRemoteBroker);
    DegradedEffects(s1, sid, s.nextId);
  }

  lemma ForwardFails(s: State, sid: Id, host: Id, message: string, key: OpKey, error: Error)
    requires s.nextId !in s.turns
    ensures var (s', result) := ForwardTurn(s, sid, host, message, key, Err(error));
            result == Err(error) && MessageFailed(s, s', s.nextId, sid, message) && s'.ops == s.ops && s'.nextId == s.nextId + 1
  {
    var s1 := OpenTurn(s, sid, message, FromRemoteBroker);
    ForwardFailsBoth(s, s1, DegradeTurn(s1, sid, s.nextId), sid, message);
  }

  lemma ForwardSucceeds(s: State, sid: Id, host: Id, message: string, key: OpKey, remote: RemoteTurn)
    requires s.nextId !in s.turns && TurnUri(s.nextId) !in s.links && SessionUri(sid) in s.links && !IsKnown(s.links, host, remote.uri)
    ensures var (s', result) := ForwardTurn(s, sid, host, message, key, Ok(remote));
            && result.Ok? && MessageForwarded(s, s', sid, host, message, remote, result.value)
            && s'.ops == RecordApplied(s.ops, key, host, OpSendMessage, TurnUri(s.nextId), SendResult(result.value))
  {
    OpenedEffects(s, sid, message, FromRemoteBroker);
    assert !Clashes(s.links, Link(TurnUri(s.nextId), TurnLink, s.nextId, host, remote.uri, remote.id, 0)) by {
      forall u | u in s.links ensures !(s.links[u].host == host && s.links[u].remoteUri == remote.uri) {
        assert !Represents(s.links, host, remote.uri, u);
      }
    }
  }

  /** The record of the attempt, made before the remote broker is asked. */
  function Attempted(s: State, op: Option<Id>, host: Id, kind: OpKind): State {
    s.(ops := s.ops[if op.Some? then Given(op.value) else Minted(s.nextId) := Operation(host, kind, OpPending, None, None)],
       nextId := if op.Some? then s.nextId else s.nextId + 1)
  }

  /** The operation id is new, or none of its attempts has taken effect yet. */
  predicate NotApplied(s: State, op: Option<Id>) {
    op.None? || Given(op.value) !in s.ops || s.ops[Given(op.value)].status == OpPending
  }

  lemma SendIs(s: State, sid: Id, message: string, op: Option<Id>, answer: Result<RemoteTurn>) returns (key: OpKey)
    requires sid in s.sessions && SessionUri(sid) in s.links && NotApplied(s, op)
    ensures key == if op.Some? then Given(op.value) else Minted(s.nextId)
    ensures var host := s.links[SessionUri(sid)].host;
            SendMessage(s, sid, message, op, answer) == ForwardTurn(Attempted(s, op, host, OpSendMessage), sid, host, message, key, answer)
  {
    var (s0, k) := OperationKey(s, op);
    key := k;
    var host := s.links[SessionUri(sid)].host;
    assert s0.(ops := RecordPending(s0.ops, key, host, OpSendMessage)) == Attempted(s, op, host, OpSendMessage);
  }

  /** A message for a linked session whose remote broker takes it, unless the operation already took
      effect: recorded as applied, with the reply. */
  lemma ForwardEffects(s: State, sid: Id, message: string, op: Option<Id>, remote: RemoteTurn)
    requires StoreInv(s) && sid in s.sessions && SessionUri(sid) in s.links && NotApplied(s, op)
    requires !IsKnown(s.links, s.links[SessionUri(sid)].host, remote.uri)
    ensures var (s', result) := SendMessage(s, sid, message, op, Ok(remote));
            var host := s.links[SessionUri(sid)].host;
            && result.Ok? && MessageForwarded(s, s', sid, host, message, remote, result.value)
            && Recorded(s, s', op, Operation(host, OpSendMessage, OpApplied, Some(TurnUri(result.value.turnId)), Some(SendResult(result.value))))
  {
    var host := s.links[SessionUri(sid)].host;
    var key := SendIs(s, sid, message, op, Ok(remote));
    var s1 := Attempted(s, op, host, OpSendMessage);
    FreshNames(s);
    ForwardSucceeds(s1, sid, host, message, key, remote);
    var (s', result) := SendMessage(s, sid, message, op, Ok(remote));
    AppliedRecord(s, s1, s', op, host, OpSendMessage, TurnUri(result.value.turnId), SendResult(result.value));
  }

  lemma FreshNames(s: State)
    requires StoreInv(s)
    ensures FreshName(s, s.nextId) && FreshName(s, s.nextId + 1)
  {
    assert !UriBelow(TurnUri(s.nextId), s.nextId) && !UriBelow(TurnUri(s.nextId + 1), s.nextId);
  }

  predicate FreshName(s: State, id: Id) {
    id !in s.turns && id !in s.sessions && TurnUri(id) !in s.links
  }

  lemma AttemptFails(s: State, op: Option<Id>, host: Id, s': State, t: Id, sid: Id, message: string)
    requires var s1 := Attempted(s, op, host, OpSendMessage); MessageFailed(s1, s', t, sid, message) && s'.ops == s1.ops
    ensures MessageFailed(s, s', t, sid, message) && Recorded(s, s', op, Operation(host, OpSendMessage, OpPending, None, None))
  {}

  lemma FreshAttempt(s: State, op: Option<Id>, host: Id)
    requires StoreInv(s)
    ensures Attempted(s, op, host, OpSendMessage).nextId !in s.turns
  {}

  lemma AttemptForwarded(s: State, sid: Id, host: Id, message: string, op: Option<Id>, key: OpKey, error: Error) returns (s': State, t: Id)
    requires StoreInv(s)
    ensures ForwardTurn(Attempted(s, op, host, OpSendMessage), sid, host, message, key, Err(error)) == (s', Err(error))
    ensures MessageFailed(s, s', t, sid, message)
    ensures Recorded(s, s', op, Operation(host, OpSendMessage, OpPending, None, None))
  {
    var s1 := Attempted(s, op, host, OpSendMessage);
    FreshAttempt(s, op, host);
    ForwardFails(s1, sid, host, message, key, error);
    s', t := ForwardTurn(s1, sid, host, message, key, Err(error)).0, s1.nextId;
    AttemptFails(s, op, host, s', t, sid, message);
  }

  /** One whose remote broker fails: the attempt stays recorded as pending. */
  lemma ForwardFailedEffects(s: State, sid: Id, message: string, op: Option<Id>, error: Error) returns (s': State, t: Id)
    requires StoreInv(s) && sid in s.sessions && SessionUri(sid) in s.links && NotApplied(s, op)
    ensures SendMessage(s, sid, message, op, Err(error)) == (s', Err(error))
    ensures MessageFailed(s, s', t, sid, message)
    ensures Recorded(s, s', op, Operation(s.links[SessionUri(sid)].host, OpSendMessage, OpPending, None, None))
  {
    var host := s.links[SessionUri(sid)].host;
    var key := SendIs(s, sid, message, op, Err(error));
    s', t := AttemptForwarded(s, sid, host, message, op, key, error);
  }

  // ---------------------------------------------------------------- creating a remote session

  /** The remote session was adopted: a new local row with its backend and status, one event, whose number
      is the session's cursor and the reply's, and a link at the remote cursor. */
  ghost predicate SessionAdopted(s: State, s': State, host: Id, remote: RemoteSession, reply: CreateReply) {
    var sid, n := reply.sessionId, |s.log|;
    && sid !in s.sessions && s.log <= s'.log && |s'.log| == n + 1 && OnSession(s'.log[n], sid, SessionCreated, FromRemoteBroker)
    && s'.sessions == s.sessions[sid := Session(remote.backend, None, remote.status, s'.log[n].serverSeq)]
    && reply == CreateReply(sid, remote.status, s'.log[n].serverSeq)
    && s'.links == s.links[SessionUri(sid) := Link(SessionUri(sid), SessionLink, sid, host, remote.uri, remote.id, remote.cursor)]
    && s'.turns == s.turns && s'.requests == s.requests
  }

  lemma AdoptedEffects(s: State, remote: RemoteSession)
    requires s.nextId !in s.sessions
    ensures var s' := AdoptSession(s, remote);
            var sid, n := s.nextId, |s.log|;
            && s.log <= s'.log && |s'.log| == n + 1 && OnSession(s'.log[n], sid, SessionCreated, FromRemoteBroker)
            && s'.sessions == s.sessions[sid := Session(remote.backend, None, remote.status, s'.log[n].serverSeq)]
            && s' == s.(sessions := s'.sessions, log := s'.log, nextId := s.nextId + 1)
  {}

  lemma CreateIs(s: State, host: Id, op: Option<Id>, remote: RemoteSession) returns (key: OpKey)
    requires NotApplied(s, op) && !IsKnown(s.links, host, remote.uri)
    ensures key == if op.Some? then Given(op.value) else Minted(s.nextId)
    ensures var s1 := Attempted(s, op, host, OpCreateSession);
            var s2 := AdoptSession(s1, remote);
            var reply := CreateReply(s1.nextId, remote.status, LastSeq(s2.log));
            var link := Link(SessionUri(s1.nextId), SessionLink, s1.nextId, host, remote.uri, remote.id, remote.cursor);
            CreateRemote(s, host, op, Ok(remote)) ==
            (s2.(links := s2.links[link.localUri := link],
                 ops := RecordApplied(s2.ops, key, host, OpCreateSession, link.localUri, CreateResult(reply))), Ok(reply))
  {
    var (s0, k) := OperationKey(s, op);
    key := k;
    assert s0.(ops := RecordPending(s0.ops, key, host, OpCreateSession)) == Attempted(s, op, host, OpCreateSession);
    assert forall u :: u in s.links ==> !Represents(s.links, host, remote.uri, u);
  }

  /** A remote creation the remote broker agrees to, unless the operation already took effect. */
  lemma CreateRemoteEffects(s: State, host: Id, op: Option<Id>, remote: RemoteSession)
    requires StoreInv(s) && NotApplied(s, op) && !IsKnown(s.links, host, remote.uri)
    ensures var (s', result) := CreateRemote(s, host, op, Ok(remote));
            && result.Ok? && SessionAdopted(s, s', host, remote, result.value)
            && Recorded(s, s', op, Operation(host, OpCreateSession, OpApplied, Some(SessionUri(result.value.sessionId)), Some(CreateResult(result.value))))
  {
    var s1 := Attempted(s, op, host, OpCreateSession);
    var key := CreateIs(s, host, op, remote);
    FreshNames(s);
    AdoptedEffects(s1, remote);
    var (s', result) := CreateRemote(s, host, op, Ok(remote));
    AppliedRecord(s, s1, s', op, host, OpCreateSession, SessionUri(result.value.sessionId), CreateResult(result.value));
  }

  /** One it does not agree to leaves only the record of the attempt. */
  lemma CreateFailedEffects(s: State, host: Id, op: Option<Id>, error: Error)
    requires NotApplied(s, op)
    ensures CreateRemote(s, host, op, Err(error)) == (Attempted(s, op, host, OpCreateSession), Err(error))
  {}
}

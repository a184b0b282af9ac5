/** The store as the program has it: tables updated in place behind one connection. Each method is
    proved to do what `StoreModel` and `EventLog` say about the tables' contents. */
module SqlStore {
  import opened Types
  import opened Vocabulary
  import opened Wrappers
  import opened EventLog
  import opened StoreModel
  import opened BrokerInvariants
  import opened BrokerSteps

  // ---------------------------------------------------------------- reversing

  function Reversed(events: seq<Event>): (r: seq<Event>)
    ensures |r| == |events|
    ensures forall i :: 0 <= i < |events| ==> r[i] == events[|events| - 1 - i]
  {
    if events == [] then [] else [events[|events| - 1]] + Reversed(events[..|events| - 1])
  }

  method ReverseInPlace(a: array<Event>)
    modifies a
    ensures a[..] == Reversed(old(a[..]))
  {
    var n, i := a.Length, 0;
    while i < n / 2
      invariant 0 <= i <= n / 2
      invariant forall k :: 0 <= k < i ==> a[k] == old(a[n - 1 - k]) && a[n - 1 - k] == old(a[k])
      invariant forall k :: i <= k < n - i ==> a[k] == old(a[k])
    {
      a[i], a[n - 1 - i] := a[n - 1 - i], a[i];
      i := i + 1;
    }
  }

  lemma BackToFront(view: seq<Event>, descending: seq<Event>, back: seq<Event>, k: nat)
    requires |descending| == |view| && k <= |view| && |back| == k
    requires forall i :: 0 <= i < |view| ==> descending[i] == view[|view| - 1 - i]
    requires forall i :: 0 <= i < k ==> back[i] == descending[k - 1 - i]
    ensures back == view[|view| - k..]
  {}

  /** Reversing the first k rows in descending order gives the last k in ascending order. */
  lemma ReversedTail(view: seq<Event>, k: nat)
    requires k <= |view|
    ensures Reversed(Reversed(view)[..k]) == view[|view| - k..]
  {
    BackToFront(view, Reversed(view), Reversed(Reversed(view)[..k]), k);
  }

  /** The requests among `ids` are withdrawn. */
  function WithdrawListed(requests: map<Id, Request>, ids: seq<Id>, reason: string, now: nat): map<Id, Request> {
    map r | r in requests :: if r in ids then Withdrawn(requests[r], reason, now) else requests[r]
  }

  /** The turns that were unread and are not any more. */
  ghost function Cleared(before: map<Id, Turn>, after: map<Id, Turn>): set<Id> {
    set t | t in before && t in after && before[t].unread && !after[t].unread
  }

  /** Clearing the flags that were set comes to the same as clearing all of them. */
  lemma AcknowledgedRows(before: map<Id, Turn>, after: map<Id, Turn>, session: Option<Id>, selected: Option<Id>)
    requires after.Keys == before.Keys
    requires forall t :: t in before ==>
               after[t] == if before[t].unread && Acknowledges(t, before[t], session, selected) then before[t].(unread := false) else before[t]
    ensures after == AcknowledgeTurns(EMPTY_STATE.(turns := before), session, selected).turns
  {}

  // ---------------------------------------------------------------- the store

  class Store {
    var log: seq<Event>
    var sessions: map<Id, Session>
    var turns: map<Id, Turn>
    var requests: map<Id, Request>
    var links: map<Uri, Link>
    var ops: map<OpKey, Operation>
    var nextId: Id

    ghost function Contents(): State
      reads this
    {
      State(log, sessions, turns, requests, links, ops, nextId)
    }

    constructor ()
      ensures Contents() == EMPTY_STATE
    {
      log, sessions, turns, requests, links, ops, nextId := [], map[], map[], map[], map[], map[], 0;
    }

    // -------------------------------------------------------------- events

    method AppendEvent(resource: Uri, parent: Option<Uri>, eventType: EventType, origin: Origin, payload: Json) returns (serverSeq: int)
      modifies this`log
      ensures Contents() == Append(old(Contents()), resource, parent, eventType, origin, payload)
      ensures serverSeq == LastSeq(log) && |log| == |old(log)| + 1 && old(log) <= log
      ensures log == old(log) + [Event(serverSeq, resource, parent, eventType, origin, payload)]
      ensures LogOk(old(log)) ==> LogOk(log) && forall e :: e in old(log) ==> e.serverSeq < serverSeq
      ensures LogOk(old(log)) ==>
                forall target: Option<Uri>, limit: nat :: limit > 0 && About(log[|log| - 1], target) ==>
                  Page(log, target, LastSeq(old(log)), limit, []) == [log[|log| - 1]]
    {
      serverSeq := LastSeq(log) + 1;
      var event := Event(serverSeq, resource, parent, eventType, origin, payload);
      forall target: Option<Uri>, limit: nat | LogOk(log) && limit > 0 && About(event, target)
        ensures Page(log + [event], target, LastSeq(log), limit, []) == [event]
      {
        AppendedIsNext(log, event, target, limit);
      }
      log := log + [event];
    }

    method ReadEvents(target: Option<Uri>, cursor: int, limit: nat, types: seq<EventType>) returns (events: seq<Event>)
      ensures events == Page(log, target, cursor, limit, types)
    {
      var view := After(log, target, cursor);
      var rows := view[..Min(Min(limit, PAGE_CAP), |view|)];
      events := [];
      var i := 0;
      while i < |rows|
        invariant 0 <= i <= |rows|
        invariant events == OfType(rows[..i], types)
      {
        var event := rows[i];
        assert rows[..i + 1][..i] == rows[..i];
        if types == [] || event.eventType in types {
          events := events + [event];
        }
        i := i + 1;
      }
      assert rows[..|rows|] == rows;
    }

    method ReadRecentEvents(target: Uri, limit: nat) returns (events: seq<Event>)
      ensures events == Recent(log, target, limit)
    {
      var view := Window(log, Some(target), [], -1, LastSeq(log));
      var k := Min(Min(limit, PAGE_CAP), |view|);
      var rows := Reversed(view)[..k];
      var pushed: seq<Event> := [];
      var i := 0;
      while i < |rows|
        invariant 0 <= i <= |rows|
        invariant pushed == rows[..i]
      {
        pushed := pushed + [rows[i]];
        i := i + 1;
      }
      var buffer := new Event[|pushed|](j requires 0 <= j < |pushed| => pushed[j]);
      assert buffer[..] == rows;
      ReverseInPlace(buffer);
      events := buffer[..];
      ReversedTail(view, k);
    }

    // -------------------------------------------------------------- sessions and turns

    method AddSession(session: Session) returns (sid: Id)
      modifies this`sessions, this`nextId
      ensures Contents() == InsertSession(old(Contents()), session) && sid == old(nextId)
    {
      sid := nextId;
      sessions, nextId := sessions[sid := session], nextId + 1;
    }

    method AddTurn(turn: Turn) returns (tid: Id)
      modifies this`turns, this`nextId
      ensures Contents() == InsertTurn(old(Contents()), turn) && tid == old(nextId)
    {
      tid := nextId;
      turns, nextId := turns[tid := turn], nextId + 1;
    }

    method UpdateSessionStatus(sid: Id, status: Status, cursor: Option<int>)
      modifies this`sessions
      ensures Contents() == UpdateSession(old(Contents()), sid, status, cursor)
      ensures sessions.Keys == old(sessions).Keys && forall k :: k in sessions && k != sid ==> sessions[k] == old(sessions)[k]
      ensures sid in sessions ==>
                && sessions[sid].status == status && sessions[sid].latestCursor == (if cursor.Some? then cursor.value else old(sessions)[sid].latestCursor)
                && sessions[sid].backend == old(sessions)[sid].backend && sessions[sid].backendSessionId == old(sessions)[sid].backendSessionId
    {
      if sid in sessions {
        var row := sessions[sid].(status := status);
        if cursor.Some? { row := row.(latestCursor := cursor.value); }
        sessions := sessions[sid := row];
      }
    }

    method UpdateBackendSession(sid: Id, backendSession: Id, status: Status)
      modifies this`sessions
      ensures Contents() == UpdateSessionBackend(old(Contents()), sid, backendSession, status)
    {
      if sid in sessions {
        sessions := sessions[sid := sessions[sid].(backendSessionId := Some(backendSession), status := status)];
      }
    }

    method UpdateTurnStatus(tid: Id, backendTurn: Option<Id>, status: Status, unread: bool)
      modifies this`turns
      ensures Contents() == UpdateTurn(old(Contents()), tid, backendTurn, status, unread)
      ensures turns.Keys == old(turns).Keys && forall t :: t in turns && t != tid ==> turns[t] == old(turns)[t]
      ensures tid in turns ==>
                && turns[tid].status == status && turns[tid].unread == unread && turns[tid].sessionId == old(turns)[tid].sessionId
                && turns[tid].backendTurnId == (if backendTurn.Some? then backendTurn else old(turns)[tid].backendTurnId)
    {
      if tid in turns {
        var row := turns[tid].(status := status, unread := unread);
        if backendTurn.Some? { row := row.(backendTurnId := backendTurn); }
        turns := turns[tid := row];
      }
    }

    method MarkTurnInterrupted(tid: Id) returns (turn: Result<Turn>)
      modifies this`turns
      ensures Contents() == MarkInterrupted(old(Contents()), tid)
      ensures turn == if tid in turns then Ok(turns[tid]) else Err(NotFound)
      ensures turns.Keys == old(turns).Keys && forall t :: t in turns && (t != tid || !Unfinished(old(turns)[t].status)) ==> turns[t] == old(turns)[t]
      ensures tid in turns ==> !Unfinished(turns[tid].status) && turns[tid].sessionId == old(turns)[tid].sessionId
      ensures tid in turns && Unfinished(old(turns)[tid].status) ==> turns[tid].status == Failed && turns[tid].unread
    {
      if tid in turns && Active(turns[tid].status) {
        turns := turns[tid := turns[tid].(status := Failed, unread := true)];
      }
      turn := if tid in turns then Ok(turns[tid]) else Err(NotFound);
    }

    /** Every active turn, once, oldest first. */
    method ActiveTurnsForRecovery() returns (active: seq<Id>)
      requires forall t :: t in turns ==> t < nextId
      ensures forall t :: t in active <==> t in turns && (turns[t].status == Running || turns[t].status == NeedsInput)
      ensures forall i, j :: 0 <= i < j < |active| ==> active[i] < active[j]
    {
      active := [];
      var t := 0;
      while t < nextId
        invariant 0 <= t <= nextId
        invariant forall x :: x in active <==> x < t && x in turns && Active(turns[x].status)
        invariant forall i, j :: 0 <= i < j < |active| ==> active[i] < active[j]
      {
        assert forall i :: 0 <= i < |active| ==> active[i] in active;
        if t in turns && Active(turns[t].status) { active := active + [t]; }
        t := t + 1;
      }
    }

    /** The newest active turn of a session. */
    method ActiveTurnForSession(sid: Id) returns (tid: Option<Id>)
      requires forall t :: t in turns ==> t < nextId
      ensures tid.None? <==> !HasUnfinished(turns, sid)
      ensures tid.Some? ==> NewestUnfinished(turns, sid, tid.value)
    {
      var t := nextId;
      while t > 0
        invariant 0 <= t <= nextId
        invariant forall x :: x in turns && x >= t ==> !(turns[x].sessionId == sid && Active(turns[x].status))
      {
        t := t - 1;
        if t in turns && turns[t].sessionId == sid && Active(turns[t].status) { return Some(t); }
      }
      tid := None;
    }

    /** The open sessions that have a backend session, each once; their order depends on update times. */
    method OpenBackendSessions() returns (open: seq<Id>)
      ensures forall k :: k in open <==> k in sessions && Resumable(sessions[k])
      ensures forall i, j :: 0 <= i < j < |open| ==> open[i] != open[j]
    {
      open := [];
      var todo := sessions.Keys;
      while todo != {}
        invariant todo <= sessions.Keys
        invariant forall k :: k in open <==> k in sessions && k !in todo && OpenWithBackend(sessions[k])
        invariant forall i, j :: 0 <= i < j < |open| ==> open[i] != open[j]
        decreases |todo|
      {
        assert forall i :: 0 <= i < |open| ==> open[i] in open;
        var k :| k in todo;
        todo := todo - {k};
        if OpenWithBackend(sessions[k]) { open := open + [k]; }
      }
    }

    /** One of three updates, the most specific selector deciding which; counts the rows it changed. */
    method AcknowledgeInboxTurns(session: Option<Id>, selected: Option<Id>, all: bool) returns (acknowledged: Result<nat>)
      modifies this`turns
      ensures acknowledged.Err? <==> session.None? && selected.None? && !all
      ensures acknowledged.Err? ==> turns == old(turns)
      ensures acknowledged.Ok? ==> Contents() == AcknowledgeTurns(old(Contents()), session, selected)
      ensures acknowledged.Ok? ==> acknowledged.value == |Cleared(old(turns), turns)|
      ensures acknowledged.Ok? ==> forall t :: t in Cleared(old(turns), turns) <==>
                t in old(turns) && old(turns)[t].unread && Named(t, old(turns)[t], session, selected)
      ensures turns.Keys == old(turns).Keys
      ensures acknowledged.Ok? ==> forall t :: t in turns ==>
                turns[t] == if Named(t, old(turns)[t], session, selected) then old(turns)[t].(unread := false) else old(turns)[t]
    {
      if session.None? && selected.None? && !all { return Err(InvalidInput); }
      ghost var before, cleared: set<Id> := turns, {};
      var count := 0;
      var todo := turns.Keys;
      while todo != {}
        invariant todo <= before.Keys && turns.Keys == before.Keys && count == |cleared|
        invariant forall t :: t in before ==> turns[t] == if t in cleared then before[t].(unread := false) else before[t]
        invariant forall t :: t in cleared <==> t in before && t !in todo && before[t].unread && Acknowledges(t, before[t], session, selected)
        decreases |todo|
      {
        var t :| t in todo;
        todo := todo - {t};
        if turns[t].unread && (if selected.Some? then t == selected.value else session.Some? ==> turns[t].sessionId == session.value) {
          turns := turns[t := turns[t].(unread := false)];
          count, cleared := count + 1, cleared + {t};
        }
      }
      assert cleared == Cleared(before, turns);
      AcknowledgedRows(before, turns, session, selected);
      acknowledged := Ok(count);
    }

    // -------------------------------------------------------------- requests

    method AddRequest(request: Request) returns (rid: Id)
      modifies this`requests, this`nextId
      ensures Contents() == InsertRequest(old(Contents()), request) && rid == old(nextId)
    {
      rid := nextId;
      requests, nextId := requests[rid := request], nextId + 1;
    }

    method GetRequest(rid: Id) returns (request: Result<Request>)
      ensures request == if rid in requests then Ok(requests[rid]) else Err(NotFound)
    {
      request := if rid in requests then Ok(requests[rid]) else Err(NotFound);
    }

    method ResolveRequest(rid: Id, decision: Decision, response: Option<Json>, reason: Option<string>, now: nat) returns (request: Result<Request>)
      modifies this`requests
      ensures Contents() == Resolve(old(Contents()), rid, decision, response, reason, now)
      ensures request == if rid in requests then Ok(requests[rid]) else Err(NotFound)
      ensures requests.Keys == old(requests).Keys && forall r :: r in requests && r != rid ==> requests[r] == old(requests)[r]
      ensures rid in requests ==> requests[rid].status != RequestStatus.Pending && RequestEvolves(old(requests)[rid], requests[rid])
      ensures rid in requests && old(requests)[rid].status == RequestStatus.Pending ==>
                && requests[rid].resolution == Some(Resolution(decision, response)) && requests[rid].reason == reason
                && requests[rid].resolvedAt == Some(now) && (requests[rid].status == RequestStatus.Cancelled <==> decision == Cancel)
    {
      var status: RequestStatus := if decision == Cancel then RequestStatus.Cancelled else Resolved;
      if rid in requests && requests[rid].status == RequestStatus.Pending {
        requests := requests[rid := requests[rid].(status := status, resolution := Some(Resolution(decision, response)),
                                                   reason := reason, resolvedAt := Some(now))];
      }
      request := GetRequest(rid);
    }

    /** Selects the pending requests of a turn, oldest first, then withdraws them one by one. */
    method CancelPendingRequests(tid: Id, reason: string, now: nat) returns (withdrawn: seq<Id>)
      requires forall r :: r in requests ==> r < nextId
      modifies this`requests
      ensures withdrawn == PendingIds(old(requests), tid, nextId) && PendingInOrder(old(requests), tid, withdrawn)
      ensures Contents() == CancelPending(old(Contents()), tid, reason, now)
    {
      withdrawn := [];
      var r := 0;
      while r < nextId
        invariant 0 <= r <= nextId
        invariant withdrawn == PendingIds(requests, tid, r)
      {
        if r in requests && PendingFor(requests[r], tid) { withdrawn := withdrawn + [r]; }
        r := r + 1;
      }
      PendingIdsAre(requests, tid, nextId);
      ghost var before := requests;
      var i := 0;
      while i < |withdrawn|
        invariant 0 <= i <= |withdrawn|
        invariant requests == WithdrawListed(before, withdrawn[..i], reason, now)
      {
        var rid := withdrawn[i];
        assert rid in withdrawn;
        if rid in requests && requests[rid].status == RequestStatus.Pending {
          requests := requests[rid := Withdrawn(requests[rid], reason, now)];
        }
        assert withdrawn[..i + 1] == withdrawn[..i] + [rid];
        i := i + 1;
      }
      assert withdrawn[..|withdrawn|] == withdrawn;
      assert requests == WithdrawAll(before, tid, reason, now);
    }

    // -------------------------------------------------------------- links and operations

    method UpsertResourceLink(link: Link) returns (ok: bool)
      modifies this`links
      ensures ok == UpsertLink(old(links), link).Ok?
      ensures links == if ok then UpsertLink(old(links), link).value else old(links)
    {
      ok := true;
      var todo := links.Keys;
      while todo != {}
        invariant todo <= links.Keys
        invariant ok <==> !exists u :: u in links && u !in todo && u != link.localUri && links[u].host == link.host && links[u].remoteUri == link.remoteUri
        decreases |todo|
      {
        var u :| u in todo;
        todo := todo - {u};
        if u != link.localUri && links[u].host == link.host && links[u].remoteUri == link.remoteUri { ok := false; }
      }
      if ok { links := links[link.localUri := link]; }
    }

    method LinkByLocal(local: Uri) returns (link: Option<Link>)
      ensures link == ByLocal(links, local)
    {
      link := if local in links then Some(links[local]) else None;
    }

    method LinkByRemote(host: Id, remote: Uri) returns (link: Option<Link>)
      requires LinksOk(links)
      ensures link == ByRemote(links, host, remote)
    {
      var todo := links.Keys;
      while todo != {}
        invariant todo <= links.Keys
        invariant forall u :: u in links && u !in todo ==> !IsRemote(links, host, remote, u)
        decreases |todo|
      {
        var u :| u in todo;
        todo := todo - {u};
        if links[u].host == host && links[u].remoteUri == remote {
          ByRemoteIs(links, host, remote, u);
          return Some(links[u]);
        }
      }
      link := None;
    }

    method UpdateLinkCursor(local: Uri, cursor: int)
      modifies this`links
      ensures links == SetLinkCursor(old(links), local, cursor)
      ensures links.Keys == old(links).Keys && forall u :: u in links && u != local ==> links[u] == old(links)[u]
      ensures local in links ==> links[local].cursor == cursor
      ensures LinksOk(old(links)) ==> LinksOk(links)
      ensures LinksOk(old(links)) && local in links ==>
                ByRemote(links, old(links)[local].host, old(links)[local].remoteUri) == Some(old(links)[local].(cursor := cursor))
    {
      if LinksOk(links) && local in links {
        ByRemoteIs(SetLinkCursor(links, local, cursor), links[local].host, links[local].remoteUri, local);
      }
      if local in links { links := links[local := links[local].(cursor := cursor)]; }
    }

    method GetForwardedOperation(key: OpKey) returns (op: Option<Operation>)
      ensures op == if key in ops then Some(ops[key]) else None
    {
      op := if key in ops then Some(ops[key]) else None;
    }

    method UpsertForwardedOperation(key: OpKey, op: Operation)
      modifies this`ops
      ensures ops == old(ops)[key := op]
    {
      ops := ops[key := op];
    }

    /** `new_id` for an operation. */
    method MintOperationId() returns (key: OpKey)
      modifies this`nextId
      ensures key == Minted(old(nextId)) && nextId == old(nextId) + 1
    {
      key, nextId := Minted(nextId), nextId + 1;
    }
  }

  /** `backend_session_id IS NOT NULL AND status NOT IN ('archived', 'disposed', 'deleted')`. */
  predicate OpenWithBackend(session: Session) {
    session.backendSessionId.Some? && session.status != Archived && session.status != Disposed && session.status != Deleted
  }
}

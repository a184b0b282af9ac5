/** What every step of the broker keeps, in any interleaving. */
module BrokerInvariants {
  import opened Types
  import opened Wrappers
  import opened EventLog
  import opened StoreModel
  import opened BrokerModel

  // ---------------------------------------------------------------- the invariant

  predicate UriBelow(u: Uri, bound: Id) {
    u.RootUri? || u.id < bound
  }

  predicate EventBelow(e: Event, bound: Id) {
    UriBelow(e.resource, bound) && (e.parent.Some? ==> UriBelow(e.parent.value, bound))
  }

  ghost predicate LogBelow(log: seq<Event>, bound: Id) {
    forall i :: 0 <= i < |log| ==> EventBelow(log[i], bound)
  }

  /** Every identifier in use came from the counter, so the next one is fresh. */
  ghost predicate Bounded(s: State) {
    && (forall k :: k in s.sessions ==> k < s.nextId)
    && (forall t :: t in s.turns ==> t < s.nextId && s.turns[t].sessionId < s.nextId)
    && (forall r :: r in s.requests ==> r < s.nextId && s.requests[r].sessionId < s.nextId)
    && (forall u :: u in s.links ==> UriBelow(u, s.nextId) && s.links[u].localId < s.nextId)
    && LogBelow(s.log, s.nextId)
  }

  ghost predicate LogOk(log: seq<Event>) {
    Ascending(log) && forall i :: 0 <= i < |log| ==> log[i].serverSeq >= 1
  }

  /** Links name existing resources of their kind; a linked session has no local backend session,
      and a linked turn belongs to a linked session. */
  ghost predicate LinkShape(s: State, link: Link) {
    match link.kind
    case SessionLink => link.localUri == SessionUri(link.localId) && link.localId in s.sessions && s.sessions[link.localId].backendSessionId.None?
    case TurnLink => link.localUri == TurnUri(link.localId) && link.localId in s.turns && SessionUri(s.turns[link.localId].sessionId) in s.links
    case RequestLink => link.localUri == RequestUri(link.localId) && link.localId in s.requests
  }

  ghost predicate LinksWellFormed(s: State) {
    LinksOk(s.links) && forall u :: u in s.links ==> LinkShape(s, s.links[u])
  }

  /** Every stored session cursor is 0 or the number of a logged event. */
  ghost predicate CursorsKnown(log: seq<Event>, sessions: map<Id, Session>) {
    forall k :: k in sessions ==> KnownSeq(log, sessions[k].latestCursor)
  }

  predicate IsWithdrawal(e: Event, rid: Id) {
    e.resource == RequestUri(rid) && e.eventType == RequestCancelled && e.origin == FromBroker
  }

  function Withdrawals(log: seq<Event>, rid: Id): nat {
    if log == [] then 0
    else Withdrawals(log[..|log| - 1], rid) + if IsWithdrawal(log[|log| - 1], rid) then 1 else 0
  }

  predicate Decided(requests: map<Id, Request>, rid: Id) {
    rid in requests && requests[rid].status != RequestStatus.Pending
  }

  /** The broker logs at most one `request.cancelled` per request, and only for a decided one. */
  ghost predicate WithdrawnOnce(log: seq<Event>, requests: map<Id, Request>) {
    forall r: Id :: Withdrawals(log, r) <= 1 && (Withdrawals(log, r) == 1 ==> Decided(requests, r))
  }

  ghost predicate StoreInv(s: State) {
    && Bounded(s) && LogOk(s.log) && LinksWellFormed(s)
    && CursorsKnown(s.log, s.sessions) && WithdrawnOnce(s.log, s.requests)
  }

  // ---------------------------------------------------------------- what never changes

  /** A decided request is final; an undecided one keeps everything but its decision. */
  predicate RequestEvolves(a: Request, b: Request) {
    && (a.status != RequestStatus.Pending ==> b == a)
    && (b.status == RequestStatus.Pending ==> b == a)
    && b.sessionId == a.sessionId && b.turnId == a.turnId && b.payload == a.payload
  }

  ghost predicate Evolves(s: State, s': State) {
    && s.log <= s'.log
    && s.nextId <= s'.nextId
    && (forall k :: k in s.sessions ==> k in s'.sessions && s'.sessions[k].backend == s.sessions[k].backend)
    && (forall t :: t in s.turns ==> t in s'.turns && s'.turns[t].sessionId == s.turns[t].sessionId)
    && (forall r :: r in s.requests ==> r in s'.requests && RequestEvolves(s.requests[r], s'.requests[r]))
    && (forall u :: u in s.links ==> u in s'.links && s'.links[u].(cursor := 0) == s.links[u].(cursor := 0))
  }

  lemma EvolvesTransitive(a: State, b: State, c: State)
    requires Evolves(a, b) && Evolves(b, c)
    ensures Evolves(a, c)
  {}

  ghost predicate Good(s: State, s': State) {
    StoreInv(s') && Evolves(s, s')
  }

  // ---------------------------------------------------------------- primitives

  lemma KnownLast(log: seq<Event>)
    ensures KnownSeq(log, LastSeq(log))
  {
    if log != [] { assert log[|log| - 1].serverSeq == LastSeq(log); }
  }

  lemma KnownGrows(log: seq<Event>, log': seq<Event>, cursor: int)
    requires KnownSeq(log, cursor) && log <= log'
    ensures KnownSeq(log', cursor)
  {
    if i :| 0 <= i < |log| && log[i].serverSeq == cursor {
      assert log'[i].serverSeq == cursor;
    }
  }

  lemma WithdrawalsAppend(log: seq<Event>, e: Event, r: Id)
    ensures Withdrawals(log + [e], r) == Withdrawals(log, r) + if IsWithdrawal(e, r) then 1 else 0
  {
    assert (log + [e])[..|log|] == log;
  }

  lemma {:induction false} WithdrawalsBelow(log: seq<Event>, bound: Id, r: Id)
    requires r >= bound && forall i :: 0 <= i < |log| ==> EventBelow(log[i], bound)
    ensures Withdrawals(log, r) == 0
  {
    if log != [] { WithdrawalsBelow(log[..|log| - 1], bound, r); }
  }

  lemma CursorsGrow(log: seq<Event>, log': seq<Event>, sessions: map<Id, Session>)
    requires CursorsKnown(log, sessions) && log <= log'
    ensures CursorsKnown(log', sessions)
  {
    forall k | k in sessions ensures KnownSeq(log', sessions[k].latestCursor) {
      KnownGrows(log, log', sessions[k].latestCursor);
    }
  }

  lemma WithdrawnAppend(log: seq<Event>, e: Event, requests: map<Id, Request>)
    requires WithdrawnOnce(log, requests)
    requires !(e.resource.RequestUri? && e.eventType == RequestCancelled && e.origin == FromBroker)
    ensures WithdrawnOnce(log + [e], requests)
  {
    forall r: Id ensures Withdrawals(log + [e], r) == Withdrawals(log, r) {
      WithdrawalsAppend(log, e, r);
    }
  }

  lemma AppendGood(s: State, resource: Uri, parent: Option<Uri>, eventType: EventType, origin: Origin, payload: Json)
    requires StoreInv(s)
    requires UriBelow(resource, s.nextId) && (parent.Some? ==> UriBelow(parent.value, s.nextId))
    requires !(resource.RequestUri? && eventType == RequestCancelled && origin == FromBroker)
    ensures Good(s, Append(s, resource, parent, eventType, origin, payload))
  {
    var s' := Append(s, resource, parent, eventType, origin, payload);
    var e := s'.log[|s.log|];
    CursorsGrow(s.log, s'.log, s.sessions);
    WithdrawnAppend(s.log, e, s.requests);
  }

  lemma UpdateTurnEvolves(s: State, tid: Id, backendTurn: Option<Id>, status: Status, unread: bool)
    ensures Evolves(s, UpdateTurn(s, tid, backendTurn, status, unread))
  {}

  lemma UpdateTurnKeeps(s: State, tid: Id, backendTurn: Option<Id>, status: Status, unread: bool)
    requires StoreInv(s)
    ensures StoreInv(UpdateTurn(s, tid, backendTurn, status, unread))
  {}

  lemma UpdateTurnGood(s: State, tid: Id, backendTurn: Option<Id>, status: Status, unread: bool)
    requires StoreInv(s)
    ensures Good(s, UpdateTurn(s, tid, backendTurn, status, unread))
  {
    UpdateTurnKeeps(s, tid, backendTurn, status, unread);
    UpdateTurnEvolves(s, tid, backendTurn, status, unread);
  }

  lemma UpdateSessionEvolves(s: State, sid: Id, status: Status, cursor: Option<int>)
    ensures Evolves(s, UpdateSession(s, sid, status, cursor))
  {}

  lemma UpdateSessionKeeps(s: State, sid: Id, status: Status, cursor: Option<int>)
    requires StoreInv(s) && (cursor.Some? ==> KnownSeq(s.log, cursor.value))
    ensures StoreInv(UpdateSession(s, sid, status, cursor))
  {}

  lemma UpdateSessionGood(s: State, sid: Id, status: Status, cursor: Option<int>)
    requires StoreInv(s) && (cursor.Some? ==> KnownSeq(s.log, cursor.value))
    ensures Good(s, UpdateSession(s, sid, status, cursor))
  {
    UpdateSessionKeeps(s, sid, status, cursor);
    UpdateSessionEvolves(s, sid, status, cursor);
  }

  lemma AdvanceSessionGood(s: State, sid: Id, status: Status)
    requires StoreInv(s)
    ensures Good(s, UpdateSession(s, sid, status, Some(LastSeq(s.log))))
  {
    KnownLast(s.log);
    UpdateSessionGood(s, sid, status, Some(LastSeq(s.log)));
  }

  lemma OpsGood(s: State, ops: map<OpKey, Operation>, nextId: Id)
    requires StoreInv(s) && s.nextId <= nextId
    ensures Good(s, s.(ops := ops, nextId := nextId))
  {}

  lemma InsertSessionGood(s: State, session: Session)
    requires StoreInv(s) && session.latestCursor == 0
    ensures Good(s, InsertSession(s, session))
  {
    InsertSessionEvolves(s, session);
  }

  lemma InsertSessionEvolves(s: State, session: Session)
    requires s.nextId !in s.sessions
    ensures Evolves(s, InsertSession(s, session))
  {}

  lemma InsertTurnGood(s: State, turn: Turn)
    requires StoreInv(s) && turn.sessionId < s.nextId
    ensures Good(s, InsertTurn(s, turn))
  {
    InsertTurnEvolves(s, turn);
  }

  lemma InsertTurnEvolves(s: State, turn: Turn)
    requires s.nextId !in s.turns
    ensures Evolves(s, InsertTurn(s, turn))
  {}

  lemma InsertRequestGood(s: State, request: Request)
    requires StoreInv(s) && request.sessionId < s.nextId && request.status == RequestStatus.Pending
    ensures Good(s, InsertRequest(s, request))
  {
    WithdrawalsBelow(s.log, s.nextId, s.nextId);
  }

  lemma ResolveEvolves(s: State, rid: Id, decision: Decision, response: Option<Json>, reason: Option<string>, now: nat)
    ensures Evolves(s, Resolve(s, rid, decision, response, reason, now))
  {}

  lemma ResolveKeeps(s: State, rid: Id, decision: Decision, response: Option<Json>, reason: Option<string>, now: nat)
    requires StoreInv(s)
    ensures StoreInv(Resolve(s, rid, decision, response, reason, now))
  {}

  lemma ResolveGood(s: State, rid: Id, decision: Decision, response: Option<Json>, reason: Option<string>, now: nat)
    requires StoreInv(s)
    ensures Good(s, Resolve(s, rid, decision, response, reason, now))
  {
    ResolveKeeps(s, rid, decision, response, reason, now);
    ResolveEvolves(s, rid, decision, response, reason, now);
  }

  lemma GoodThen(a: State, b: State, c: State)
    requires Good(a, b) && Good(b, c)
    ensures Good(a, c)
  {
    EvolvesTransitive(a, b, c);
  }

  // ---------------------------------------------------------------- withdrawing requests

  lemma {:induction false} PendingIdsAre(requests: map<Id, Request>, tid: Id, bound: Id)
    ensures var ids := PendingIds(requests, tid, bound);
            && (forall r :: r in ids <==> r < bound && r in requests && PendingFor(requests[r], tid))
            && (forall i, j :: 0 <= i < j < |ids| ==> ids[i] < ids[j])
  {
    if bound > 0 {
      PendingIdsAre(requests, tid, bound - 1);
      var rest := PendingIds(requests, tid, bound - 1);
      assert forall i :: 0 <= i < |rest| ==> rest[i] in rest;
    }
  }

  ghost predicate IsWithdrawalOf(e: Event, rid: Id, parent: Uri) {
    IsWithdrawal(e, rid) && e.parent == Some(parent)
  }

  /** Logging withdrawals only appends, one event per listed request. */
  lemma {:induction false} LogWithdrawalsAre(s: State, ids: seq<Id>, parent: Uri, reason: string)
    ensures var s' := LogWithdrawals(s, ids, parent, reason);
            && s' == s.(log := s'.log)
            && s.log <= s'.log && |s'.log| == |s.log| + |ids|
            && (forall i :: 0 <= i < |ids| ==> IsWithdrawalOf(s'.log[|s.log| + i], ids[i], parent))
            && (LogOk(s.log) ==> LogOk(s'.log))
  {
    if ids != [] {
      LogWithdrawalsAre(s, ids[..|ids| - 1], parent, reason);
    }
  }

  lemma {:induction false} LogWithdrawalsCount(s: State, ids: seq<Id>, parent: Uri, reason: string, r: Id)
    requires forall i, j :: 0 <= i < j < |ids| ==> ids[i] < ids[j]
    ensures Withdrawals(LogWithdrawals(s, ids, parent, reason).log, r) == Withdrawals(s.log, r) + if r in ids then 1 else 0
  {
    if ids != [] {
      var front, last := ids[..|ids| - 1], ids[|ids| - 1];
      LogWithdrawalsCount(s, front, parent, reason, r);
      var s1 := LogWithdrawals(s, front, parent, reason);
      var s' := LogWithdrawals(s, ids, parent, reason);
      WithdrawalsAppend(s1.log, s'.log[|s1.log|], r);
      assert ids == front + [last];
    }
  }

  lemma WithdrawLog(s: State, tid: Id, reason: string, now: nat)
    requires WithdrawnOnce(s.log, s.requests) && forall r :: r in s.requests ==> r < s.nextId
    ensures var s' := WithdrawRequests(s, tid, reason, now); WithdrawnOnce(s'.log, s'.requests)
  {
    var ids := PendingIds(s.requests, tid, s.nextId);
    var s1 := CancelPending(s, tid, reason, now);
    var s' := WithdrawRequests(s, tid, reason, now);
    PendingIdsAre(s.requests, tid, s.nextId);
    LogWithdrawalsAre(s1, ids, TurnUri(tid), reason);
    forall r: Id ensures Withdrawals(s'.log, r) <= 1 && (Withdrawals(s'.log, r) == 1 ==> Decided(s'.requests, r)) {
      LogWithdrawalsCount(s1, ids, TurnUri(tid), reason, r);
      assert Withdrawals(s.log, r) <= 1 && (Withdrawals(s.log, r) == 1 ==> Decided(s.requests, r));
    }
  }

  /** Withdrawing touches only the log, which grows, and the requests. */
  lemma WithdrawFrame(s: State, tid: Id, reason: string, now: nat)
    ensures var s' := WithdrawRequests(s, tid, reason, now);
            && s.log <= s'.log && (LogOk(s.log) ==> LogOk(s'.log))
            && s' == s.(log := s'.log, requests := WithdrawAll(s.requests, tid, reason, now))
  {
    LogWithdrawalsAre(CancelPending(s, tid, reason, now), PendingIds(s.requests, tid, s.nextId), TurnUri(tid), reason);
  }

  lemma WithdrawBelow(s: State, tid: Id, reason: string, now: nat)
    requires LogBelow(s.log, s.nextId) && tid < s.nextId
    ensures LogBelow(WithdrawRequests(s, tid, reason, now).log, s.nextId)
  {
    var ids := PendingIds(s.requests, tid, s.nextId);
    var s1 := CancelPending(s, tid, reason, now);
    var log := WithdrawRequests(s, tid, reason, now).log;
    PendingIdsAre(s.requests, tid, s.nextId);
    LogWithdrawalsAre(s1, ids, TurnUri(tid), reason);
    forall i | |s.log| <= i < |log| ensures EventBelow(log[i], s.nextId) {
      assert IsWithdrawalOf(log[|s.log| + (i - |s.log|)], ids[i - |s.log|], TurnUri(tid));
      assert ids[i - |s.log|] in ids;
    }
  }

  lemma WithdrawKeeps(s: State, tid: Id, reason: string, now: nat)
    requires StoreInv(s) && tid < s.nextId
    ensures StoreInv(WithdrawRequests(s, tid, reason, now))
  {
    var s' := WithdrawRequests(s, tid, reason, now);
    WithdrawFrame(s, tid, reason, now);
    WithdrawBelow(s, tid, reason, now);
    CursorsGrow(s.log, s'.log, s.sessions);
    WithdrawLog(s, tid, reason, now);
  }

  /** Withdrawing touches only the log and the requests, and leaves the turn none pending. */
  lemma WithdrawGood(s: State, tid: Id, reason: string, now: nat)
    requires StoreInv(s) && tid < s.nextId
    ensures var s' := WithdrawRequests(s, tid, reason, now);
            && Good(s, s') && s' == s.(log := s'.log, requests := s'.requests)
            && (forall r :: r in s'.requests ==> !PendingFor(s'.requests[r], tid))
  {
    WithdrawKeeps(s, tid, reason, now);
    WithdrawFrame(s, tid, reason, now);
  }
}

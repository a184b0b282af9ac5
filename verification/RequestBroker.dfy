/** The backend's side of requests: raising one for the foreground and waiting for its decision. */
module RequestBroker {
  import opened Types
  import opened Vocabulary
  import opened Wrappers
  import opened EventLog
  import opened StoreModel
  import opened BrokerModel
  import opened BrokerInvariants
  import opened BrokerSteps
  import opened BrokerRuns
  import opened Effects
  import opened SqlStore

  const COPILOT: Id := 1

  // ---------------------------------------------------------------- the payload

  function WithField(payload: Json, key: string, value: Json): Json
    requires payload.JObj?
  {
    JObj(payload.fields[key := value])
  }

  /** What `create_request` stores: the payload as an object with the request's identifiers and summary. */
  function RequestPayload(payload: Json, backendRequest: Option<string>, backendSession: Id, summary: string): Json {
    var base := if payload.JObj? then payload else JObj(map["raw" := payload]);
    var named := if backendRequest.Some? then WithField(base, "backend_request_id", JStr(backendRequest.value)) else base;
    WithField(WithField(named, "backend_session_id", JNum(backendSession)), "summary", JStr(summary))
  }

  predicate Reserved(key: string) {
    key == "backend_request_id" || key == "backend_session_id" || key == "summary"
  }

  /** The stored request shows exactly the summary it was raised with, whatever the payload says, and
      nothing else of the payload is lost. */
  lemma PayloadKeepsContent(payload: Json, backendRequest: Option<string>, backendSession: Id, summary: string, key: string)
    ensures var stored := RequestPayload(payload, backendRequest, backendSession, summary);
            && PayloadSummary(stored) == summary
            && Get(stored, "backend_session_id") == Some(JNum(backendSession))
            && (backendRequest.Some? ==> Get(stored, "backend_request_id") == Some(JStr(backendRequest.value)))
            && (payload.JObj? && !Reserved(key) ==> Get(stored, key) == Get(payload, key))
            && (!payload.JObj? ==> Get(stored, "raw") == Some(payload))
            && (payload.JObj? && backendRequest.None? ==> Get(stored, "backend_request_id") == Get(payload, "backend_request_id"))
  {}

  // ---------------------------------------------------------------- waiting, in any company

  /** `wait_for_resolution` among arbitrary other steps: `sleeps[k]` is what everyone else does during
      the k-th sleep, and the deadline passes after the last one. */
  ghost function WaitFor(y: Sys, rid: Id, sleeps: seq<seq<Step>>, now: nat): (Sys, Option<Request>)
    decreases |sleeps|
  {
    var (s, returned) := WaitRound(y.store, rid, sleeps == [], now);
    if returned.Some? || rid !in y.store.requests || sleeps == [] then (y.(store := s), returned)
    else WaitFor(Exec(y, sleeps[0]), rid, sleeps[1..], now)
  }

  /** What everyone else does by the deadline. */
  ghost function Deadline(y: Sys, sleeps: seq<seq<Step>>): Sys
    decreases |sleeps|
  {
    if sleeps == [] then y else Deadline(Exec(y, sleeps[0]), sleeps[1..])
  }

  lemma {:induction false} DeadlineInv(y: Sys, sleeps: seq<seq<Step>>)
    requires SysInv(y)
    ensures SysInv(Deadline(y, sleeps)) && Evolves(y.store, Deadline(y, sleeps).store)
    decreases |sleeps|
  {
    if sleeps == [] {
      GoodSelf(y.store);
    } else {
      ExecInv(y, sleeps[0]);
      DeadlineInv(Exec(y, sleeps[0]), sleeps[1..]);
      EvolvesTransitive(y.store, Exec(y, sleeps[0]).store, Deadline(y, sleeps).store);
    }
  }

  /** What a round does: an undecided request is left alone before the deadline and withdrawn at it; a
      decided one is returned. No other request is touched. */
  lemma RoundOutcome(s: State, rid: Id, expired: bool, now: nat)
    requires rid in s.requests
    ensures var (s', returned) := WaitRound(s, rid, expired, now);
            && s' == s.(requests := s'.requests) && s'.requests.Keys == s.requests.Keys
            && (forall r :: r in s.requests && r != rid ==> s'.requests[r] == s.requests[r])
            && (s.requests[rid].status != RequestStatus.Pending ==> returned == Some(s.requests[rid]) && s' == s)
            && (s.requests[rid].status == RequestStatus.Pending && !expired ==> returned.None? && s' == s)
            && (s.requests[rid].status == RequestStatus.Pending && expired ==>
                  returned == Some(s'.requests[rid]) && TimedOut(s.requests[rid], s'.requests[rid], now))
  {}

  /** A waiter on an existing request returns the decision that the others have stored by the deadline,
      and withdraws the request itself exactly if they have stored none; what it returns is what is
      stored. In particular, a waiter never approves. */
  lemma {:induction false} WaiterReturnsDecision(y: Sys, rid: Id, sleeps: seq<seq<Step>>, now: nat)
    requires SysInv(y) && rid in y.store.requests
    ensures var (z, returned) := WaitFor(y, rid, sleeps, now);
            var others := Deadline(y, sleeps).store.requests;
            && SysInv(z) && Evolves(y.store, z.store)
            && returned.Some? && rid in z.store.requests && z.store.requests[rid] == returned.value
            && RequestEvolves(y.store.requests[rid], returned.value)
            && rid in others
            && (if others[rid].status == RequestStatus.Pending then TimedOut(others[rid], returned.value, now) else returned.value == others[rid])
    decreases |sleeps|
  {
    var wait := DoWait(rid, sleeps == [], now);
    StepInv(y, wait);
    DeadlineInv(y, sleeps);
    RoundOutcome(y.store, rid, sleeps == [], now);
    if WaitRound(y.store, rid, sleeps == [], now).1.None? {
      ExecInv(y, sleeps[0]);
      var m := Exec(y, sleeps[0]);
      WaiterReturnsDecision(m, rid, sleeps[1..], now);
      EvolvesTransitive(y.store, m.store, WaitFor(m, rid, sleeps[1..], now).0.store);
    }
  }

  // ---------------------------------------------------------------- the program


  /** What other clients may do to a request while its waiter sleeps. */
  datatype Interference =
    | Resolves(rid: Id, decision: Decision, response: Option<Json>, reason: Option<string>, at: nat)
    | Withdraws(tid: Id, cause: string, at: nat)

  /** Its effect on the requests. */
  function Interfered(requests: map<Id, Request>, other: Interference): map<Id, Request> {
    match other
    case Resolves(rid, decision, response, reason, at) => Decide(requests, rid, decision, response, reason, at)
    case Withdraws(tid, cause, at) => WithdrawAll(requests, tid, cause, at)
  }

  function InterferedAll(requests: map<Id, Request>, others: seq<Interference>): map<Id, Request> {
    if others == [] then requests else Interfered(InterferedAll(requests, others[..|others| - 1]), others[|others| - 1])
  }

  /** The requests when all the sleeps are over. */
  function SleptThrough(requests: map<Id, Request>, sleeps: seq<seq<Interference>>): map<Id, Request> {
    if sleeps == [] then requests else InterferedAll(SleptThrough(requests, sleeps[..|sleeps| - 1]), sleeps[|sleeps| - 1])
  }

  lemma {:induction false} DecidedStays(requests: map<Id, Request>, others: seq<Interference>, rid: Id)
    requires rid in requests
    ensures rid in InterferedAll(requests, others)
    ensures requests[rid].status != RequestStatus.Pending ==> InterferedAll(requests, others)[rid] == requests[rid]
  {
    if others != [] { DecidedStays(requests, others[..|others| - 1], rid); }
  }

  lemma {:induction false} DecidedThrough(requests: map<Id, Request>, sleeps: seq<seq<Interference>>, k: nat, rid: Id)
    requires rid in requests && k <= |sleeps|
    ensures rid in SleptThrough(requests, sleeps[..k]) && rid in SleptThrough(requests, sleeps)
    ensures SleptThrough(requests, sleeps[..k])[rid].status != RequestStatus.Pending ==>
              SleptThrough(requests, sleeps)[rid] == SleptThrough(requests, sleeps[..k])[rid]
    decreases |sleeps|
  {
    if k == |sleeps| {
      assert sleeps[..k] == sleeps;
      if sleeps != [] {
        DecidedThrough(requests, sleeps[..|sleeps| - 1], |sleeps| - 1, rid);
        DecidedStays(SleptThrough(requests, sleeps[..|sleeps| - 1]), sleeps[|sleeps| - 1], rid);
      }
    } else {
      var front := sleeps[..|sleeps| - 1];
      assert front[..k] == sleeps[..k];
      DecidedThrough(requests, front, k, rid);
      DecidedStays(SleptThrough(requests, front), sleeps[|sleeps| - 1], rid);
    }
  }

  class StoreRequestBroker {
    const store: Store

    constructor (store: Store)
      ensures this.store == store
    {
      this.store := store;
    }

    method SessionOfBackend(backendSession: Id) returns (sid: Option<Id>)
      ensures sid.Some? ==> sid.value in store.sessions && store.sessions[sid.value].backendSessionId == Some(backendSession)
      ensures sid.None? ==> forall k :: k in store.sessions ==> store.sessions[k].backendSessionId != Some(backendSession)
    {
      var todo := store.sessions.Keys;
      while todo != {}
        invariant todo <= store.sessions.Keys
        invariant forall k :: k in store.sessions && k !in todo ==> store.sessions[k].backendSessionId != Some(backendSession)
        decreases |todo|
      {
        var k :| k in todo;
        todo := todo - {k};
        if store.sessions[k].backendSessionId == Some(backendSession) { return Some(k); }
      }
      sid := None;
    }

    /** Raises the request under the session's newest active turn, or under the session if none is active. */
    method CreateRequest(backendSession: Id, backendRequest: Option<string>, kind: RequestKind, summary: string, payload: Json)
      returns (result: Result<Id>, ghost sid: Id, ghost turn: Option<Id>)
      requires StoreInv(store.Contents())
      modifies store
      ensures result.Err? ==> store.Contents() == old(store.Contents())
      ensures result.Err? <==> forall k :: k in old(store.sessions) ==> old(store.sessions)[k].backendSessionId != Some(backendSession)
      ensures result.Ok? ==>
                && sid in old(store.sessions) && old(store.sessions)[sid].backendSessionId == Some(backendSession)
                && (turn.Some? ==> NewestUnfinished(old(store.turns), sid, turn.value))
                && (turn.None? ==> !HasUnfinished(old(store.turns), sid))
                && store.Contents() == RaiseRequest(old(store.Contents()), sid, turn, kind,
                                                    if turn.Some? then TurnUri(turn.value) else SessionUri(sid), FromBackend(COPILOT),
                                                    RequestPayload(payload, backendRequest, backendSession, summary))
                && RequestRaised(old(store.Contents()), store.Contents(), result.value, sid, turn,
                                 if turn.Some? then TurnUri(turn.value) else SessionUri(sid), FromBackend(COPILOT),
                                 RequestPayload(payload, backendRequest, backendSession, summary))
                && store.requests[result.value].kind == kind && store.requests[result.value].summary == summary
    {
      sid, turn := 0, None;
      var session := SessionOfBackend(backendSession);
      if session.None? { return Err(NotFound), sid, turn; }
      var edited := payload;
      if !edited.JObj? { edited := JObj(map["raw" := payload]); }
      if backendRequest.Some? { edited := WithField(edited, "backend_request_id", JStr(backendRequest.value)); }
      edited := WithField(edited, "backend_session_id", JNum(backendSession));
      edited := WithField(edited, "summary", JStr(summary));
      PayloadKeepsContent(payload, backendRequest, backendSession, summary, "");
      var active := store.ActiveTurnForSession(session.value);
      var rid := store.AddRequest(NewRequest(session.value, active, kind, edited));
      var parent := if active.Some? then TurnUri(active.value) else SessionUri(session.value);
      var _ := store.AppendEvent(RequestUri(rid), Some(parent), RequestCreated, FromBackend(COPILOT), edited);
      sid, turn := session.value, active;
      result := Ok(rid);
    }

    method Interfere(others: seq<Interference>)
      requires StoreInv(store.Contents())
      modifies store`requests
      ensures StoreInv(store.Contents()) && Evolves(old(store.Contents()), store.Contents())
      ensures store.requests == InterferedAll(old(store.requests), others)
    {
      var i := 0;
      while i < |others|
        invariant 0 <= i <= |others|
        invariant store.requests == InterferedAll(old(store.requests), others[..i])
        invariant StoreInv(store.Contents()) && Evolves(old(store.Contents()), store.Contents())
      {
        ghost var s := store.Contents();
        assert others[..i + 1][..i] == others[..i];
        match others[i] {
          case Resolves(rid, decision, response, reason, at) =>
            ResolveGood(s, rid, decision, response, reason, at);
            var _ := store.ResolveRequest(rid, decision, response, reason, at);
          case Withdraws(tid, cause, at) =>
            CancelPendingGood(s, tid, cause, at);
            var _ := store.CancelPendingRequests(tid, cause, at);
        }
        EvolvesTransitive(old(store.Contents()), s, store.Contents());
        i := i + 1;
      }
      assert others[..|others|] == others;
    }

    /** Polls until the request is decided; past the deadline it cancels the request itself. */
    method WaitForResolution(rid: Id, sleeps: seq<seq<Interference>>, now: nat) returns (request: Option<Request>)
      requires StoreInv(store.Contents())
      modifies store`requests
      ensures request.Some? <==> rid in old(store.requests)
      ensures request.Some? ==>
                && request.value.status != RequestStatus.Pending
                && rid in store.requests && store.requests[rid] == request.value
                && RequestEvolves(old(store.requests)[rid], request.value)
      ensures request.Some? ==>
                var others := SleptThrough(old(store.requests), sleeps);
                && rid in others
                && if others[rid].status == RequestStatus.Pending then TimedOut(others[rid], request.value, now) else request.value == others[rid]
    {
      var k := 0;
      while true
        invariant 0 <= k <= |sleeps|
        invariant store.requests == SleptThrough(old(store.requests), sleeps[..k])
        invariant StoreInv(store.Contents()) && Evolves(old(store.Contents()), store.Contents())
        invariant rid in store.requests <==> rid in old(store.requests)
        decreases |sleeps| - k
      {
        var found := store.GetRequest(rid);
        if found.Err? { return None; }
        DecidedThrough(old(store.requests), sleeps, k, rid);
        if found.value.status != RequestStatus.Pending { return Some(found.value); }
        if k == |sleeps| {
          assert sleeps[..k] == sleeps;
          var _ := store.ResolveRequest(rid, Cancel, None, Some(WAIT_TIMEOUT_REASON), now);
          return Some(store.requests[rid]);
        }
        ghost var s := store.Contents();
        assert sleeps[..k + 1][..k] == sleeps[..k];
        Interfere(sleeps[k]);
        EvolvesTransitive(old(store.Contents()), s, store.Contents());
        k := k + 1;
      }
      request := None;
    }
  }

  lemma CancelPendingGood(s: State, tid: Id, reason: string, now: nat)
    requires StoreInv(s)
    ensures Good(s, CancelPending(s, tid, reason, now))
  {}
}

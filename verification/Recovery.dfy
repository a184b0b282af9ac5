/** Restart recovery: what becomes of the turns that were active when the broker went down. */
module Recovery {
  import opened Types
  import opened Vocabulary
  import opened Wrappers
  import opened EventLog
  import opened StoreModel
  import opened BrokerModel
  import opened BrokerInvariants
  import opened BrokerSteps
  import opened BrokerRuns
  import opened Evidence
  import opened SqlStore

  // ---------------------------------------------------------------- the environment and the verdict

  /** What the backend does when asked to reattach a turn: the events it delivers to the sink and its answer. */
  datatype Reattachment = Reattachment(delivered: seq<BackendEvent>, answer: Result<Option<BackendTurn>>)

  /** The backend's capabilities and answers; `refusal` is the error with which resuming a session fails. */
  datatype Backend = Backend(id: Id, supportsResume: bool, supportsReattach: bool, refusal: Id -> Option<string>, reattaches: Id -> Reattachment)

  datatype Fate =
    | Finalized(delivered: seq<BackendEvent>, turn: BackendTurn)
    | Interrupted(delivered: seq<BackendEvent>, reason: string)

  /** The session's turns are offered to the backend for reattaching. */
  predicate Offered(b: Backend, sessions: map<Id, Session>, sid: Id) {
    && sid in sessions && Resumable(sessions[sid]) && sessions[sid].backend == b.id
    && b.supportsResume && b.refusal(sid).None? && b.supportsReattach
  }

  /** Why a session's turns are not offered. */
  function NotOffered(b: Backend, sessions: map<Id, Session>, sid: Id): string {
    if !(sid in sessions && Resumable(sessions[sid]) && sessions[sid].backend == b.id) then "backend session was unavailable during broker startup"
    else if !b.supportsResume then "backend does not support session resume"
    else if b.refusal(sid).Some? then "backend resume failed: " + b.refusal(sid).value
    else "backend resumed the session but does not support active turn reattach"
  }

  /** A turn is finalized exactly when its session is offered and the backend returns the turn. */
  function FateOf(b: Backend, s: State, tid: Id): Fate
    requires tid in s.turns
  {
    var sid := s.turns[tid].sessionId;
    if Offered(b, s.sessions, sid) then
      var r := b.reattaches(tid);
      if r.answer.Ok? && r.answer.value.Some? then Finalized(r.delivered, r.answer.value.value)
      else Interrupted(r.delivered, "backend did not reattach the active turn")
    else Interrupted([], NotOffered(b, s.sessions, sid))
  }

  function Fates(b: Backend, s: State): map<Id, Fate> {
    map t | t in s.turns :: FateOf(b, s, t)
  }

  function Failures(log: seq<Event>, tid: Id): nat {
    CountOn(log, TurnUri(tid), TurnFailed)
  }

  ghost predicate NonePending(s: State, tid: Id) {
    forall r :: r in s.requests ==> !PendingOn(s.requests[r], tid)
  }

  function Returned(turn: BackendTurn): nat {
    CountType(turn.events, TurnFailed) + if turn.status == Failed && !HasType(turn.events, TurnFailed) then 1 else 0
  }

  /** The broker's own `turn.failed` of the turn, with the reason, is among the events added. */
  ghost predicate FailedFor(log: seq<Event>, log': seq<Event>, tid: Id, reason: string) {
    exists i :: |log| <= i < |log'| && FailureOf(log'[i], tid, reason)
  }

  predicate FailureOf(e: Event, tid: Id, reason: string) {
    e.resource == TurnUri(tid) && e.eventType == TurnFailed && e.origin == FromBroker && HasText(e.payload, "summary", reason)
  }

  /** What handling a turn exactly once leaves: the broker's own `turn.failed` is logged once for an
      interrupted turn and never for a finalized one; all others come from the backend. */
  ghost predicate Handled(s0: State, s: State, tid: Id, fate: Fate) {
    && tid in s.turns
    && match fate
       case Interrupted(delivered, reason) =>
         && FailedFor(s0.log, s.log, tid, reason)
         && s.turns[tid].status == Failed && s.turns[tid].unread && NonePending(s, tid)
         && Failures(s.log, tid) == Failures(s0.log, tid) + CountType(delivered, TurnFailed) + 1
       case Finalized(delivered, turn) =>
         && s.turns[tid].status == turn.status && (s.turns[tid].unread <==> Settled(turn.status))
         && s.turns[tid].backendTurnId == Some(turn.backendTurnId)
         && Failures(s.log, tid) == Failures(s0.log, tid) + CountType(delivered, TurnFailed) + Returned(turn)
  }

  /** A step that does not concern the turn. */
  ghost predicate Leaves(s: State, s': State, tid: Id) {
    && s.log <= s'.log
    && (tid in s.turns ==> tid in s'.turns && s'.turns[tid] == s.turns[tid])
    && Failures(s'.log, tid) == Failures(s.log, tid)
    && (forall r :: r in s'.requests && PendingOn(s'.requests[r], tid) ==> r in s.requests && PendingOn(s.requests[r], tid))
  }

  lemma LeavesThen(a: State, b: State, c: State, tid: Id)
    requires Leaves(a, b, tid) && Leaves(b, c, tid)
    ensures Leaves(a, c, tid)
  {}

  lemma HandledLeaves(s0: State, s: State, s': State, tid: Id, fate: Fate)
    requires Handled(s0, s, tid, fate) && Leaves(s, s', tid)
    ensures Handled(s0, s', tid, fate)
  {
    if fate.Interrupted? {
      var i :| |s0.log| <= i < |s.log| && FailureOf(s.log[i], tid, fate.reason);
      assert FailureOf(s'.log[i], tid, fate.reason);
    }
  }

  // ---------------------------------------------------------------- what each step leaves alone

  lemma AppendLeaves(s: State, resource: Uri, parent: Option<Uri>, eventType: EventType, origin: Origin, payload: Json, tid: Id)
    requires resource != TurnUri(tid)
    ensures Leaves(s, Append(s, resource, parent, eventType, origin, payload), tid)
  {
    var s' := Append(s, resource, parent, eventType, origin, payload);
    CountOnAppend(s.log, s'.log[|s.log|], TurnUri(tid), TurnFailed);
  }

  lemma IngestLeaves(s: State, sid: Id, backend: Id, other: Id, e: BackendEvent, tid: Id)
    requires tid != other
    ensures Leaves(s, Ingest(s, sid, backend, other, e), tid)
  {
    if e.eventType == RequestCreated {
      var s1 := InsertRequest(s, NewRequest(sid, Some(other), RequestKindOf(e.payload), e.payload));
      AppendLeaves(s1, RequestUri(s.nextId), Some(TurnUri(other)), RequestCreated, FromBackend(backend), e.payload, tid);
    } else {
      AppendLeaves(s, TurnUri(other), Some(SessionUri(sid)), e.eventType, FromBackend(backend), e.payload, tid);
    }
  }

  lemma {:induction false} IngestAllLeaves(s: State, sid: Id, backend: Id, other: Id, events: seq<BackendEvent>, tid: Id)
    requires tid != other
    ensures Leaves(s, IngestAll(s, sid, backend, other, events), tid)
  {
    if events != [] {
      IngestAllLeaves(s, sid, backend, other, events[..|events| - 1], tid);
      IngestLeaves(IngestAll(s, sid, backend, other, events[..|events| - 1]), sid, backend, other, events[|events| - 1], tid);
    }
  }

  lemma FinishedLeaves(s: State, sid: Id, backend: Id, other: Id, turn: BackendTurn, tid: Id)
    requires tid != other
    ensures Leaves(s, Finished(s, sid, backend, other, turn), tid)
  {
    var s1 := IngestAll(s, sid, backend, other, turn.events);
    IngestAllLeaves(s, sid, backend, other, turn.events, tid);
    if TerminalType(turn.status).Some? {
      AppendLeaves(s1, TurnUri(other), Some(SessionUri(sid)), TerminalType(turn.status).value, FromBackend(backend), JObj(map[]), tid);
      LeavesThen(s, s1, Append(s1, TurnUri(other), Some(SessionUri(sid)), TerminalType(turn.status).value, FromBackend(backend), JObj(map[])), tid);
    }
  }

  lemma RowsLeave(s: State, other: Id, backendTurn: Option<Id>, status: Status, unread: bool, sid: Id, session: Status, cursor: int, tid: Id)
    requires tid != other
    ensures Leaves(s, UpdateSession(UpdateTurn(s, other, backendTurn, status, unread), sid, session, Some(cursor)), tid)
  {
    UpdateSessionFrame(UpdateTurn(s, other, backendTurn, status, unread), sid, session, Some(cursor));
  }

  lemma FinalizeLeaves(s: State, sid: Id, backend: Id, other: Id, turn: BackendTurn, latest: int, tid: Id)
    requires tid != other
    ensures Leaves(s, Finalize(s, sid, backend, other, turn, latest), tid)
  {
    var s1 := Finished(s, sid, backend, other, turn);
    FinishedLeaves(s, sid, backend, other, turn, tid);
    RowsLeave(s1, other, Some(turn.backendTurnId), turn.status, TerminalType(turn.status).Some?, sid,
              if turn.status == Completed || turn.status == Status.Cancelled then Idle else turn.status,
              if |s1.log| == |s.log| then latest else LastSeq(s1.log), tid);
    LeavesThen(s, s1, Finalize(s, sid, backend, other, turn, latest), tid);
  }

  lemma {:induction false} LogWithdrawalsCountOn(s: State, ids: seq<Id>, parent: Uri, reason: string, tid: Id)
    ensures Failures(LogWithdrawals(s, ids, parent, reason).log, tid) == Failures(s.log, tid)
  {
    if ids != [] {
      LogWithdrawalsCountOn(s, ids[..|ids| - 1], parent, reason, tid);
      var s1 := LogWithdrawals(s, ids[..|ids| - 1], parent, reason);
      var s' := LogWithdrawals(s, ids, parent, reason);
      CountOnAppend(s1.log, s'.log[|s1.log|], TurnUri(tid), TurnFailed);
    }
  }

  lemma WithdrawLeaves(s: State, other: Id, reason: string, now: nat, tid: Id)
    ensures Leaves(s, WithdrawRequests(s, other, reason, now), tid)
  {
    WithdrawFrame(s, other, reason, now);
    LogWithdrawalsCountOn(CancelPending(s, other, reason, now), PendingIds(s.requests, other, s.nextId), TurnUri(other), reason, tid);
  }

  lemma InterruptLeaves(s: State, other: Id, summary: string, now: nat, tid: Id)
    requires tid != other
    ensures Leaves(s, Interrupt(s, other, summary, now), tid)
  {
    if other in s.turns {
      var s0 := MarkInterrupted(s, other);
      var s1 := WithdrawRequests(s0, other, summary, now);
      WithdrawLeaves(s0, other, summary, now, tid);
      LeavesThen(s, s0, s1, tid);
      var sid := s.turns[other].sessionId;
      var s2 := Append(s1, TurnUri(other), Some(SessionUri(sid)), TurnFailed, FromBroker, Note(summary));
      AppendLeaves(s1, TurnUri(other), Some(SessionUri(sid)), TurnFailed, FromBroker, Note(summary), tid);
      LeavesThen(s, s1, s2, tid);
      UpdateSessionFrame(s2, sid, Idle, Some(LastSeq(s2.log)));
    }
  }

  // ---------------------------------------------------------------- what happens to the turn itself

  lemma SinkCount(s: State, sid: Id, backend: Id, tid: Id, events: seq<BackendEvent>)
    ensures var s' := IngestAll(s, sid, backend, tid, events);
            Failures(s'.log, tid) == Failures(s.log, tid) + CountType(events, TurnFailed) && s'.turns == s.turns && s.log <= s'.log
  {
    IngestAllCount(s, sid, backend, tid, events, TurnFailed);
    IngestAllFrame(s, sid, backend, tid, events);
  }

  lemma InterruptHandles(s: State, tid: Id, summary: string, now: nat)
    requires tid in s.turns && Unfinished(s.turns[tid].status)
    ensures var s' := Interrupt(s, tid, summary, now);
            && tid in s'.turns && s'.turns[tid].status == Failed && s'.turns[tid].unread && NonePending(s', tid)
            && s.log <= s'.log && FailedFor(s.log, s'.log, tid, summary) && Failures(s'.log, tid) == Failures(s.log, tid) + 1
  {
    var s0 := MarkInterrupted(s, tid);
    var s1 := WithdrawRequests(s0, tid, summary, now);
    WithdrawFrame(s0, tid, summary, now);
    WithdrawLeaves(s0, tid, summary, now, tid);
    var sid := s.turns[tid].sessionId;
    var s2 := Append(s1, TurnUri(tid), Some(SessionUri(sid)), TurnFailed, FromBroker, Note(summary));
    CountOnAppend(s1.log, s2.log[|s1.log|], TurnUri(tid), TurnFailed);
    assert FailureOf(s2.log[|s1.log|], tid, summary);
    UpdateSessionFrame(s2, sid, Idle, Some(LastSeq(s2.log)));
  }

  lemma FinishedCount(s: State, sid: Id, backend: Id, tid: Id, turn: BackendTurn)
    ensures var s' := Finished(s, sid, backend, tid, turn);
            s'.turns == s.turns && Failures(s'.log, tid) == Failures(s.log, tid) + Returned(turn)
  {
    var s1 := IngestAll(s, sid, backend, tid, turn.events);
    SinkCount(s, sid, backend, tid, turn.events);
    var terminal := TerminalType(turn.status);
    if terminal.Some? && !HasType(turn.events, terminal.value) {
      var s2 := Append(s1, TurnUri(tid), Some(SessionUri(sid)), terminal.value, FromBackend(backend), JObj(map[]));
      CountOnAppend(s1.log, s2.log[|s1.log|], TurnUri(tid), TurnFailed);
    }
  }

  lemma FinalizeHandles(s: State, sid: Id, backend: Id, tid: Id, turn: BackendTurn, latest: int)
    requires tid in s.turns
    ensures var s' := Finalize(s, sid, backend, tid, turn, latest);
            && tid in s'.turns && s'.turns[tid].status == turn.status && (s'.turns[tid].unread <==> Settled(turn.status))
            && s'.turns[tid].backendTurnId == Some(turn.backendTurnId)
            && Failures(s'.log, tid) == Failures(s.log, tid) + Returned(turn)
  {
    var s1 := Finished(s, sid, backend, tid, turn);
    FinishedCount(s, sid, backend, tid, turn);
    var s2 := UpdateTurn(s1, tid, Some(turn.backendTurnId), turn.status, TerminalType(turn.status).Some?);
    UpdateSessionFrame(s2, sid, if turn.status == Completed || turn.status == Status.Cancelled then Idle else turn.status,
                       Some(if |s1.log| == |s.log| then latest else LastSeq(s1.log)));
  }

  // ---------------------------------------------------------------- progress

  /** The turns in `done` have met their fate once; nothing has touched the others. */
  ghost predicate Progress(fates: map<Id, Fate>, s0: State, s: State, done: set<Id>) {
    && fates.Keys == s0.turns.Keys && s.turns.Keys == s0.turns.Keys
    && forall t :: t in s0.turns ==> if t in done then Handled(s0, s, t, fates[t]) else Leaves(s0, s, t)
  }

  lemma ProgressStart(fates: map<Id, Fate>, s0: State)
    requires fates.Keys == s0.turns.Keys
    ensures Progress(fates, s0, s0, {})
  {}

  lemma ProgressQuiet(fates: map<Id, Fate>, s0: State, s: State, s': State, done: set<Id>)
    requires Progress(fates, s0, s, done) && s'.turns.Keys == s.turns.Keys && forall t :: t in s0.turns ==> Leaves(s, s', t)
    ensures Progress(fates, s0, s', done)
  {
    forall t | t in s0.turns ensures if t in done then Handled(s0, s', t, fates[t]) else Leaves(s0, s', t) {
      if t in done { HandledLeaves(s0, s, s', t, fates[t]); } else { LeavesThen(s0, s, s', t); }
    }
  }

  lemma ProgressOne(fates: map<Id, Fate>, s0: State, s: State, s': State, done: set<Id>, tid: Id)
    requires Progress(fates, s0, s, done) && s'.turns.Keys == s.turns.Keys && tid in s0.turns && tid !in done
    requires forall t :: t in s0.turns && t != tid ==> Leaves(s, s', t)
    requires fates.Keys == s0.turns.Keys && Handled(s0, s', tid, fates[tid])
    ensures Progress(fates, s0, s', done + {tid})
  {
    forall t | t in s0.turns ensures if t in done + {tid} then Handled(s0, s', t, fates[t]) else Leaves(s0, s', t) {
      if t != tid {
        if t in done { HandledLeaves(s0, s, s', t, fates[t]); } else { LeavesThen(s0, s, s', t); }
      }
    }
  }

  lemma SessionEventQuiet(fates: map<Id, Fate>, s0: State, s: State, done: set<Id>, sid: Id, eventType: EventType, origin: Origin, payload: Json)
    requires Progress(fates, s0, s, done)
    ensures Progress(fates, s0, Append(s, SessionUri(sid), None, eventType, origin, payload), done)
  {
    forall t | t in s0.turns ensures Leaves(s, Append(s, SessionUri(sid), None, eventType, origin, payload), t) {
      AppendLeaves(s, SessionUri(sid), None, eventType, origin, payload, t);
    }
    ProgressQuiet(fates, s0, s, Append(s, SessionUri(sid), None, eventType, origin, payload), done);
  }

  lemma SessionStatusQuiet(fates: map<Id, Fate>, s0: State, s: State, done: set<Id>, sid: Id, status: Status, cursor: Option<int>)
    requires Progress(fates, s0, s, done)
    ensures Progress(fates, s0, UpdateSession(s, sid, status, cursor), done)
  {
    ProgressQuiet(fates, s0, s, UpdateSession(s, sid, status, cursor), done);
  }

  lemma InterruptKeys(s: State, tid: Id, summary: string, now: nat)
    ensures Interrupt(s, tid, summary, now).turns.Keys == s.turns.Keys
  {
    if tid in s.turns { WithdrawFrame(MarkInterrupted(s, tid), tid, summary, now); }
  }

  /** Interrupting a turn whose fate that is. */
  lemma InterruptProgress(fates: map<Id, Fate>, s0: State, s: State, done: set<Id>, tid: Id, summary: string, now: nat)
    requires Progress(fates, s0, s, done) && tid in s0.turns && tid !in done && Unfinished(s0.turns[tid].status)
    requires fates[tid] == Interrupted([], summary)
    ensures Progress(fates, s0, Interrupt(s, tid, summary, now), done + {tid})
  {
    forall t | t in s0.turns && t != tid ensures Leaves(s, Interrupt(s, tid, summary, now), t) {
      InterruptLeaves(s, tid, summary, now, t);
    }
    InterruptHandles(s, tid, summary, now);
    InterruptKeys(s, tid, summary, now);
    ProgressOne(fates, s0, s, Interrupt(s, tid, summary, now), done, tid);
  }

  const NOT_REATTACHED := "backend did not reattach the active turn"

  /** `reattach_active_turn`, if the backend does not fail. */
  function Reattached(s: State, sid: Id, backend: Id, tid: Id, cursor: int, r: Reattachment, now: nat): State
    requires r.answer.Ok?
  {
    var s1 := IngestAll(s, sid, backend, tid, r.delivered);
    match r.answer.value
    case Some(turn) => Finalize(s1, sid, backend, tid, turn, if r.delivered == [] then cursor else LastSeq(s1.log))
    case None => Interrupt(s1, tid, NOT_REATTACHED, now)
  }

  lemma ReattachedLeaves(s: State, sid: Id, backend: Id, tid: Id, cursor: int, r: Reattachment, now: nat, t: Id)
    requires r.answer.Ok? && t != tid
    ensures Leaves(s, Reattached(s, sid, backend, tid, cursor, r, now), t)
  {
    var s1 := IngestAll(s, sid, backend, tid, r.delivered);
    IngestAllLeaves(s, sid, backend, tid, r.delivered, t);
    match r.answer.value
    case Some(turn) => FinalizeLeaves(s1, sid, backend, tid, turn, if r.delivered == [] then cursor else LastSeq(s1.log), t);
    case None => InterruptLeaves(s1, tid, NOT_REATTACHED, now, t);
  }

  lemma FailedSince(log0: seq<Event>, log1: seq<Event>, log2: seq<Event>, tid: Id, reason: string)
    requires log0 <= log1 && FailedFor(log1, log2, tid, reason)
    ensures FailedFor(log0, log2, tid, reason)
  {
    var i :| |log1| <= i < |log2| && FailureOf(log2[i], tid, reason);
  }

  lemma NotReturnedHandles(s0: State, s: State, tid: Id, delivered: seq<BackendEvent>, now: nat)
    requires tid in s.turns && Unfinished(s.turns[tid].status) && s0.log <= s.log
    requires Failures(s.log, tid) == Failures(s0.log, tid) + CountType(delivered, TurnFailed)
    ensures Handled(s0, Interrupt(s, tid, NOT_REATTACHED, now), tid, Interrupted(delivered, "backend did not reattach the active turn"))
  {
    InterruptHandles(s, tid, NOT_REATTACHED, now);
    FailedSince(s0.log, s.log, Interrupt(s, tid, NOT_REATTACHED, now).log, tid, NOT_REATTACHED);
  }

  lemma ReattachedHandles(s0: State, s: State, sid: Id, backend: Id, tid: Id, cursor: int, r: Reattachment, now: nat)
    requires r.answer.Ok? && tid in s0.turns && Unfinished(s0.turns[tid].status) && Leaves(s0, s, tid)
    ensures Handled(s0, Reattached(s, sid, backend, tid, cursor, r, now), tid,
                    if r.answer.value.Some? then Finalized(r.delivered, r.answer.value.value)
                    else Interrupted(r.delivered, "backend did not reattach the active turn"))
  {
    var s1 := IngestAll(s, sid, backend, tid, r.delivered);
    SinkCount(s, sid, backend, tid, r.delivered);
    match r.answer.value
    case Some(turn) => FinalizeHandles(s1, sid, backend, tid, turn, if r.delivered == [] then cursor else LastSeq(s1.log));
    case None => NotReturnedHandles(s0, s1, tid, r.delivered, now);
  }

  lemma ReattachedKeys(s: State, sid: Id, backend: Id, tid: Id, cursor: int, r: Reattachment, now: nat)
    requires r.answer.Ok?
    ensures Reattached(s, sid, backend, tid, cursor, r, now).turns.Keys == s.turns.Keys
  {
    var s1 := IngestAll(s, sid, backend, tid, r.delivered);
    IngestAllFrame(s, sid, backend, tid, r.delivered);
    match r.answer.value
    case Some(turn) => FinishedCount(s1, sid, backend, tid, turn);
    case None => InterruptKeys(s1, tid, NOT_REATTACHED, now);
  }

  lemma ReattachProgress(b: Backend, s0: State, s: State, done: set<Id>, sid: Id, tid: Id, cursor: int, now: nat)
    requires Progress(Fates(b, s0), s0, s, done) && tid in s0.turns && tid !in done && Unfinished(s0.turns[tid].status)
    requires sid == s0.turns[tid].sessionId && Offered(b, s0.sessions, sid) && b.reattaches(tid).answer.Ok?
    ensures Progress(Fates(b, s0), s0, Reattached(s, sid, b.id, tid, cursor, b.reattaches(tid), now), done + {tid})
  {
    var s' := Reattached(s, sid, b.id, tid, cursor, b.reattaches(tid), now);
    forall t | t in s0.turns && t != tid ensures Leaves(s, s', t) {
      ReattachedLeaves(s, sid, b.id, tid, cursor, b.reattaches(tid), now, t);
    }
    ReattachedHandles(s0, s, sid, b.id, tid, cursor, b.reattaches(tid), now);
    ReattachedKeys(s, sid, b.id, tid, cursor, b.reattaches(tid), now);
    ProgressOne(Fates(b, s0), s0, s, s', done, tid);
  }

  lemma ReattachedGood(s: State, sid: Id, backend: Id, tid: Id, cursor: int, r: Reattachment, now: nat)
    requires StoreInv(s) && tid in s.turns && sid < s.nextId && KnownSeq(s.log, cursor) && r.answer.Ok?
    ensures Good(s, Reattached(s, sid, backend, tid, cursor, r, now))
  {
    var s1 := IngestAll(s, sid, backend, tid, r.delivered);
    IngestAllGood(s, sid, backend, tid, r.delivered);
    KnownLast(s1.log);
    KnownGrows(s.log, s1.log, cursor);
    match r.answer.value
    case Some(turn) =>
      var latest := if r.delivered == [] then cursor else LastSeq(s1.log);
      FinalizeGood(s1, sid, backend, tid, turn, latest);
      GoodThen(s, s1, Finalize(s1, sid, backend, tid, turn, latest));
    case None =>
      InterruptGood(s1, tid, NOT_REATTACHED, now);
      GoodThen(s, s1, Interrupt(s1, tid, NOT_REATTACHED, now));
  }

  /** Recovery is complete when every turn that was running or waiting for input has met its fate, no
      other was touched, and there are no more turns than before. */
  ghost predicate Recovered(b: Backend, s0: State, s: State) {
    s.turns.Keys == s0.turns.Keys && forall t :: t in s0.turns ==> MetFate(b, s0, s, t)
  }

  ghost predicate MetFate(b: Backend, s0: State, s: State, t: Id)
    requires t in s0.turns
  {
    if s0.turns[t].status == Running || s0.turns[t].status == NeedsInput then Handled(s0, s, t, FateOf(b, s0, t)) else Leaves(s0, s, t)
  }

  /** After recovery no turn is running or waiting for input unless the backend returned it so. */
  lemma NoneLeftUnfinished(b: Backend, s0: State, s: State, t: Id)
    requires Recovered(b, s0, s) && t in s.turns && (s.turns[t].status == Running || s.turns[t].status == NeedsInput)
    ensures s0.turns[t].status == Running || s0.turns[t].status == NeedsInput
    ensures Offered(b, s0.sessions, s0.turns[t].sessionId)
    ensures b.reattaches(t).answer.Ok? && b.reattaches(t).answer.value.Some? && b.reattaches(t).answer.value.value.status == s.turns[t].status
  {
    assert MetFate(b, s0, s, t);
  }

  lemma ProgressDone(b: Backend, s0: State, s: State, done: set<Id>)
    requires Progress(Fates(b, s0), s0, s, done) && forall t :: t in s0.turns ==> (t in done <==> Unfinished(s0.turns[t].status))
    ensures Recovered(b, s0, s)
  {}

  // ---------------------------------------------------------------- the whole of recovery

  const NO_REATTACH := "backend resumed the session but does not support active turn reattach"
  const RESUME_FAILED := "backend resume failed: "
  const NO_RESUME := "backend does not support session resume"
  const SESSION_UNAVAILABLE := "backend session was unavailable during broker startup"

  function InterruptAll(s: State, turns: seq<Id>, summary: string, now: nat): State {
    if turns == [] then s else Interrupt(InterruptAll(s, turns[..|turns| - 1], summary, now), turns[|turns| - 1], summary, now)
  }

  /** One reattachment; a failing backend stops recovery. */
  function ReattachOne(s: State, sid: Id, cursor: int, tid: Id, b: Backend, now: nat): (State, bool) {
    var r := b.reattaches(tid);
    if r.answer.Ok? then (Reattached(s, sid, b.id, tid, cursor, r, now), true)
    else (IngestAll(s, sid, b.id, tid, r.delivered), false)
  }

  function ReattachAll(s: State, sid: Id, cursor: int, turns: seq<Id>, b: Backend, now: nat): (State, bool) {
    if turns == [] then (s, true)
    else
      var (s1, ok) := ReattachAll(s, sid, cursor, turns[..|turns| - 1], b, now);
      if ok then ReattachOne(s1, sid, cursor, turns[|turns| - 1], b, now) else (s1, false)
  }

  /** What a round of reattachments relies on. */
  ghost predicate Reattachable(s: State, sid: Id, cursor: int, turns: seq<Id>) {
    && StoreInv(s) && sid < s.nextId && KnownSeq(s.log, cursor)
    && forall i :: 0 <= i < |turns| ==> turns[i] in s.turns
  }

  lemma ReattachableLater(s: State, s': State, sid: Id, cursor: int, turns: seq<Id>)
    requires Reattachable(s, sid, cursor, turns) && Good(s, s')
    ensures Reattachable(s', sid, cursor, turns)
  {
    KnownGrows(s.log, s'.log, cursor);
  }

  lemma ReattachOneGood(s: State, sid: Id, cursor: int, tid: Id, b: Backend, now: nat)
    requires StoreInv(s) && tid in s.turns && sid < s.nextId && KnownSeq(s.log, cursor)
    ensures Good(s, ReattachOne(s, sid, cursor, tid, b, now).0)
  {
    if b.reattaches(tid).answer.Ok? {
      ReattachedGood(s, sid, b.id, tid, cursor, b.reattaches(tid), now);
    } else {
      IngestAllGood(s, sid, b.id, tid, b.reattaches(tid).delivered);
    }
  }

  lemma {:induction false} ReattachAllKeeps(s: State, sid: Id, cursor: int, turns: seq<Id>, n: nat, b: Backend, now: nat)
    requires Reattachable(s, sid, cursor, turns) && n <= |turns|
    ensures Good(s, ReattachAll(s, sid, cursor, turns[..n], b, now).0)
    ensures Reattachable(ReattachAll(s, sid, cursor, turns[..n], b, now).0, sid, cursor, turns)
  {
    if n == 0 {
      GoodSelf(s);
    } else {
      assert turns[..n][..n - 1] == turns[..n - 1];
      ReattachAllKeeps(s, sid, cursor, turns, n - 1, b, now);
      var m := ReattachAll(s, sid, cursor, turns[..n - 1], b, now).0;
      if ReattachAll(s, sid, cursor, turns[..n - 1], b, now).1 {
        var s' := ReattachOne(m, sid, cursor, turns[n - 1], b, now).0;
        ReattachOneGood(m, sid, cursor, turns[n - 1], b, now);
        GoodThen(s, m, s');
        ReattachableLater(m, s', sid, cursor, turns);
      }
    }
  }

  lemma {:induction false} ReattachAllStops(s: State, sid: Id, cursor: int, turns: seq<Id>, n: nat, b: Backend, now: nat)
    requires n <= |turns| && !ReattachAll(s, sid, cursor, turns[..n], b, now).1
    ensures ReattachAll(s, sid, cursor, turns, b, now) == ReattachAll(s, sid, cursor, turns[..n], b, now)
    decreases |turns|
  {
    if n < |turns| {
      var front := turns[..|turns| - 1];
      assert front[..n] == turns[..n];
      ReattachAllStops(s, sid, cursor, front, n, b, now);
    } else {
      assert turns[..n] == turns;
    }
  }

  function Resumed(s: State, sid: Id, backend: Id, idle: bool): State {
    var s1 := Append(s, SessionUri(sid), None, SessionReattached, FromBackend(backend), JObj(map[]));
    if idle then UpdateSession(s1, sid, Idle, Some(LastSeq(s1.log))) else s1
  }

  function ResumeRefused(s: State, sid: Id, error: string): State {
    UpdateSession(Append(s, SessionUri(sid), None, SessionDegraded, FromBroker, Note(error)), sid, Degraded, None)
  }

  function RecoverSession(s: State, sid: Id, row: Session, turns: seq<Id>, b: Backend, now: nat): (State, bool) {
    if b.supportsResume then
      if b.refusal(sid).None? then
        var s1 := Resumed(s, sid, row.backend, turns == []);
        if b.supportsReattach then ReattachAll(s1, sid, row.latestCursor, turns, b, now)
        else (InterruptAll(s1, turns, NO_REATTACH, now), true)
      else (InterruptAll(ResumeRefused(s, sid, b.refusal(sid).value), turns, RESUME_FAILED + b.refusal(sid).value, now), true)
    else (InterruptAll(s, turns, NO_RESUME, now), true)
  }

  /** The listed active turns of one session. */
  function TurnsOf(active: seq<Id>, turns: map<Id, Turn>, sid: Id): seq<Id> {
    if active == [] then []
    else
      var t := active[|active| - 1];
      var rest := TurnsOf(active[..|active| - 1], turns, sid);
      if t in turns && turns[t].sessionId == sid then rest + [t] else rest
  }

  /** The loop over the open sessions of the backend, in the order they are listed; `s0` is what was listed. */
  function RecoverSessions(s0: State, open: seq<Id>, active: seq<Id>, b: Backend, now: nat): (State, bool)
    requires forall i :: 0 <= i < |open| ==> open[i] in s0.sessions
  {
    if open == [] then (s0, true)
    else
      var (s, ok) := RecoverSessions(s0, open[..|open| - 1], active, b, now);
      var sid := open[|open| - 1];
      if !ok || s0.sessions[sid].backend != b.id then (s, ok)
      else RecoverSession(s, sid, s0.sessions[sid], TurnsOf(active, s0.turns, sid), b, now)
  }

  /** The turns no session's round has processed. */
  function Unprocessed(active: seq<Id>, processed: set<Id>): seq<Id> {
    if active == [] then []
    else
      var t := active[|active| - 1];
      var rest := Unprocessed(active[..|active| - 1], processed);
      if t in processed then rest else rest + [t]
  }

  function ProcessedBy(s0: State, open: seq<Id>, active: seq<Id>, b: Backend): set<Id>
    requires forall i :: 0 <= i < |open| ==> open[i] in s0.sessions
  {
    set t | t in active && t in s0.turns && s0.turns[t].sessionId in open && s0.sessions[s0.turns[t].sessionId].backend == b.id
  }

  /** `reconcile_backend_state`. */
  function Reconcile(s0: State, open: seq<Id>, active: seq<Id>, b: Backend, now: nat): (State, bool)
    requires forall i :: 0 <= i < |open| ==> open[i] in s0.sessions
  {
    var (s, ok) := RecoverSessions(s0, open, active, b, now);
    if ok then (InterruptAll(s, Unprocessed(active, ProcessedBy(s0, open, active, b)), SESSION_UNAVAILABLE, now), true) else (s, false)
  }

  // ---------------------------------------------------------------- recovery keeps the invariant

  lemma {:induction false} InterruptAllGood(s: State, turns: seq<Id>, summary: string, now: nat)
    requires StoreInv(s)
    ensures Good(s, InterruptAll(s, turns, summary, now))
  {
    if turns == [] {
      GoodSelf(s);
    } else {
      InterruptAllGood(s, turns[..|turns| - 1], summary, now);
      var m := InterruptAll(s, turns[..|turns| - 1], summary, now);
      InterruptGood(m, turns[|turns| - 1], summary, now);
      GoodThen(s, m, InterruptAll(s, turns, summary, now));
    }
  }

  lemma ResumedGood(s: State, sid: Id, backend: Id, idle: bool)
    requires StoreInv(s) && sid < s.nextId
    ensures Good(s, Resumed(s, sid, backend, idle))
  {
    var s1 := Append(s, SessionUri(sid), None, SessionReattached, FromBackend(backend), JObj(map[]));
    AppendGood(s, SessionUri(sid), None, SessionReattached, FromBackend(backend), JObj(map[]));
    AdvanceSessionGood(s1, sid, Idle);
    GoodThen(s, s1, UpdateSession(s1, sid, Idle, Some(LastSeq(s1.log))));
  }

  lemma ResumeRefusedGood(s: State, sid: Id, error: string)
    requires StoreInv(s) && sid < s.nextId
    ensures Good(s, ResumeRefused(s, sid, error))
  {
    var s1 := Append(s, SessionUri(sid), None, SessionDegraded, FromBroker, Note(error));
    AppendGood(s, SessionUri(sid), None, SessionDegraded, FromBroker, Note(error));
    UpdateSessionGood(s1, sid, Degraded, None);
    GoodThen(s, s1, ResumeRefused(s, sid, error));
  }

  lemma RecoverSessionGood(s: State, sid: Id, row: Session, turns: seq<Id>, b: Backend, now: nat)
    requires Reattachable(s, sid, row.latestCursor, turns)
    ensures Good(s, RecoverSession(s, sid, row, turns, b, now).0)
  {
    if !b.supportsResume {
      InterruptAllGood(s, turns, NO_RESUME, now);
    } else if b.refusal(sid).None? {
      var s1 := Resumed(s, sid, row.backend, turns == []);
      ResumedGood(s, sid, row.backend, turns == []);
      ReattachableLater(s, s1, sid, row.latestCursor, turns);
      assert turns[..|turns|] == turns;
      ReattachAllKeeps(s1, sid, row.latestCursor, turns, |turns|, b, now);
      InterruptAllGood(s1, turns, NO_REATTACH, now);
      GoodThen(s, s1, RecoverSession(s, sid, row, turns, b, now).0);
    } else {
      var error := b.refusal(sid).value;
      var s1 := ResumeRefused(s, sid, error);
      ResumeRefusedGood(s, sid, error);
      InterruptAllGood(s1, turns, RESUME_FAILED + error, now);
      GoodThen(s, s1, InterruptAll(s1, turns, RESUME_FAILED + error, now));
    }
  }

  // ---------------------------------------------------------------- every turn exactly once

  ghost function Elements(ids: seq<Id>): set<Id> {
    set i | 0 <= i < |ids| :: ids[i]
  }

  lemma ElementsLast(ids: seq<Id>)
    requires ids != []
    ensures Elements(ids) == Elements(ids[..|ids| - 1]) + {ids[|ids| - 1]}
  {
    assert ids == ids[..|ids| - 1] + [ids[|ids| - 1]];
  }

  lemma DoneLast(done: set<Id>, ids: seq<Id>)
    requires ids != []
    ensures done + Elements(ids[..|ids| - 1]) + {ids[|ids| - 1]} == done + Elements(ids)
  {
    ElementsLast(ids);
  }

  ghost predicate Distinct(ids: seq<Id>) {
    forall i, j :: 0 <= i < j < |ids| ==> ids[i] != ids[j]
  }

  /** Listed turns that were active, are untouched so far, and belong where `owner` says. */
  ghost predicate ToHandle(s0: State, done: set<Id>, turns: seq<Id>) {
    Distinct(turns) && forall t :: t in Elements(turns) ==> t in s0.turns && Unfinished(s0.turns[t].status) && t !in done
  }

  lemma ToHandleLast(s0: State, done: set<Id>, turns: seq<Id>)
    requires ToHandle(s0, done, turns) && turns != []
    ensures ToHandle(s0, done, turns[..|turns| - 1])
    ensures turns[|turns| - 1] in s0.turns && Unfinished(s0.turns[turns[|turns| - 1]].status)
    ensures turns[|turns| - 1] !in done + Elements(turns[..|turns| - 1])
  {
    ElementsLast(turns);
    assert turns[|turns| - 1] in Elements(turns);
  }

  /** All of them are to be interrupted, for this reason. */
  ghost predicate ToInterrupt(fates: map<Id, Fate>, turns: seq<Id>, reason: string) {
    forall t :: t in Elements(turns) ==> t in fates && fates[t] == Interrupted([], reason)
  }

  lemma ToInterruptLast(fates: map<Id, Fate>, turns: seq<Id>, reason: string)
    requires ToInterrupt(fates, turns, reason) && turns != []
    ensures ToInterrupt(fates, turns[..|turns| - 1], reason)
    ensures turns[|turns| - 1] in fates && fates[turns[|turns| - 1]] == Interrupted([], reason)
  {
    ElementsLast(turns);
    assert turns[|turns| - 1] in Elements(turns);
  }

  lemma {:induction false} InterruptAllProgress(fates: map<Id, Fate>, s0: State, s: State, done: set<Id>, turns: seq<Id>, summary: string, now: nat)
    requires Progress(fates, s0, s, done) && ToHandle(s0, done, turns) && ToInterrupt(fates, turns, summary)
    ensures Progress(fates, s0, InterruptAll(s, turns, summary, now), done + Elements(turns))
  {
    if turns == [] {
      assert done + Elements(turns) == done;
    } else {
      ToHandleLast(s0, done, turns);
      ToInterruptLast(fates, turns, summary);
      var front, last := turns[..|turns| - 1], turns[|turns| - 1];
      var m := InterruptAll(s, front, summary, now);
      InterruptAllProgress(fates, s0, s, done, front, summary, now);
      InterruptProgress(fates, s0, m, done + Elements(front), last, summary, now);
      DoneLast(done, turns);
    }
  }

  lemma {:induction false} ReattachAllProgress(b: Backend, s0: State, s: State, done: set<Id>, sid: Id, cursor: int, turns: seq<Id>, now: nat)
    requires Progress(Fates(b, s0), s0, s, done) && ToHandle(s0, done, turns) && Offered(b, s0.sessions, sid)
    requires forall t :: t in Elements(turns) ==> t in s0.turns && s0.turns[t].sessionId == sid
    requires ReattachAll(s, sid, cursor, turns, b, now).1
    ensures Progress(Fates(b, s0), s0, ReattachAll(s, sid, cursor, turns, b, now).0, done + Elements(turns))
  {
    if turns == [] {
      assert done + Elements(turns) == done;
    } else {
      var front, last := turns[..|turns| - 1], turns[|turns| - 1];
      ToHandleLast(s0, done, turns);
      ElementsLast(turns);
      ReattachAllProgress(b, s0, s, done, sid, cursor, front, now);
      ReattachProgress(b, s0, ReattachAll(s, sid, cursor, front, b, now).0, done + Elements(front), sid, last, cursor, now);
      DoneLast(done, turns);
    }
  }

  lemma ResumedProgress(fates: map<Id, Fate>, s0: State, s: State, done: set<Id>, sid: Id, backend: Id, idle: bool)
    requires Progress(fates, s0, s, done)
    ensures Progress(fates, s0, Resumed(s, sid, backend, idle), done)
  {
    var s1 := Append(s, SessionUri(sid), None, SessionReattached, FromBackend(backend), JObj(map[]));
    SessionEventQuiet(fates, s0, s, done, sid, SessionReattached, FromBackend(backend), JObj(map[]));
    SessionStatusQuiet(fates, s0, s1, done, sid, Idle, Some(LastSeq(s1.log)));
  }

  lemma ResumeRefusedProgress(fates: map<Id, Fate>, s0: State, s: State, done: set<Id>, sid: Id, error: string)
    requires Progress(fates, s0, s, done)
    ensures Progress(fates, s0, ResumeRefused(s, sid, error), done)
  {
    SessionEventQuiet(fates, s0, s, done, sid, SessionDegraded, FromBroker, Note(error));
    SessionStatusQuiet(fates, s0, Append(s, SessionUri(sid), None, SessionDegraded, FromBroker, Note(error)), done, sid, Degraded, None);
  }

  lemma RecoverSessionProgress(b: Backend, s0: State, s: State, done: set<Id>, sid: Id, turns: seq<Id>, now: nat)
    requires Progress(Fates(b, s0), s0, s, done) && ToHandle(s0, done, turns)
    requires sid in s0.sessions && Resumable(s0.sessions[sid]) && s0.sessions[sid].backend == b.id
    requires forall t :: t in Elements(turns) ==> t in s0.turns && s0.turns[t].sessionId == sid
    requires RecoverSession(s, sid, s0.sessions[sid], turns, b, now).1
    ensures Progress(Fates(b, s0), s0, RecoverSession(s, sid, s0.sessions[sid], turns, b, now).0, done + Elements(turns))
  {
    var row := s0.sessions[sid];
    if !b.supportsResume {
      InterruptAllProgress(Fates(b, s0), s0, s, done, turns, NO_RESUME, now);
    } else if b.refusal(sid).None? {
      var s1 := Resumed(s, sid, row.backend, turns == []);
      ResumedProgress(Fates(b, s0), s0, s, done, sid, row.backend, turns == []);
      if b.supportsReattach {
        ReattachAllProgress(b, s0, s1, done, sid, row.latestCursor, turns, now);
      } else {
        InterruptAllProgress(Fates(b, s0), s0, s1, done, turns, NO_REATTACH, now);
      }
    } else {
      var error := b.refusal(sid).value;
      ResumeRefusedProgress(Fates(b, s0), s0, s, done, sid, error);
      InterruptAllProgress(Fates(b, s0), s0, ResumeRefused(s, sid, error), done, turns, RESUME_FAILED + error, now);
    }
  }

  lemma {:induction false} TurnsOfAre(active: seq<Id>, turns: map<Id, Turn>, sid: Id)
    ensures forall t :: t in TurnsOf(active, turns, sid) <==> t in active && t in turns && turns[t].sessionId == sid
    ensures Distinct(active) ==> Distinct(TurnsOf(active, turns, sid))
  {
    if active != [] {
      var front, last := active[..|active| - 1], active[|active| - 1];
      TurnsOfAre(front, turns, sid);
      assert active == front + [last];
      var rest := TurnsOf(front, turns, sid);
      assert forall i :: 0 <= i < |rest| ==> rest[i] in rest;
    }
  }

  lemma {:induction false} UnprocessedAre(active: seq<Id>, processed: set<Id>)
    ensures forall t :: t in Unprocessed(active, processed) <==> t in active && t !in processed
    ensures Distinct(active) ==> Distinct(Unprocessed(active, processed))
  {
    if active != [] {
      var front, last := active[..|active| - 1], active[|active| - 1];
      UnprocessedAre(front, processed);
      assert active == front + [last];
      var rest := Unprocessed(front, processed);
      assert forall i :: 0 <= i < |rest| ==> rest[i] in rest;
    }
  }

  lemma ElementsIn(ids: seq<Id>)
    ensures forall t :: t in Elements(ids) <==> t in ids
  {}

  /** What the two queries deliver: the open sessions with a backend session, and the active turns, each once. */
  ghost predicate Listed(s0: State, open: seq<Id>, active: seq<Id>) {
    && Distinct(open) && (forall k :: k in open <==> k in s0.sessions && Resumable(s0.sessions[k]))
    && ActiveListed(s0, active)
  }

  ghost predicate ActiveListed(s0: State, active: seq<Id>) {
    Distinct(active) && forall t :: t in active <==> t in s0.turns && Unfinished(s0.turns[t].status)
  }

  /** The loop over the sessions, up to any of them. */
  lemma {:induction false} SessionsProgress(b: Backend, s0: State, open: seq<Id>, active: seq<Id>, n: nat, now: nat)
    requires StoreInv(s0) && Listed(s0, open, active) && n <= |open|
    ensures var (s, ok) := RecoverSessions(s0, open[..n], active, b, now);
            Good(s0, s) && (ok ==> Progress(Fates(b, s0), s0, s, ProcessedBy(s0, open[..n], active, b)))
  {
    if n == 0 {
      GoodSelf(s0);
      assert ProcessedBy(s0, open[..0], active, b) == {};
      ProgressStart(Fates(b, s0), s0);
    } else {
      SessionsProgress(b, s0, open, active, n - 1, now);
      assert open[..n][..n - 1] == open[..n - 1];
      var (s, ok) := RecoverSessions(s0, open[..n - 1], active, b, now);
      var sid := open[n - 1];
      assert sid in open;
      ProcessedLast(s0, open, active, b, n);
      if ok && s0.sessions[sid].backend == b.id {
        SessionRound(b, s0, s, open, active, n, now);
      }
    }
  }

  lemma {:induction false} RecoverSessionsStop(s0: State, open: seq<Id>, active: seq<Id>, n: nat, b: Backend, now: nat)
    requires forall i :: 0 <= i < |open| ==> open[i] in s0.sessions
    requires n <= |open| && !RecoverSessions(s0, open[..n], active, b, now).1
    ensures RecoverSessions(s0, open, active, b, now) == RecoverSessions(s0, open[..n], active, b, now)
    decreases |open|
  {
    if n < |open| {
      var front := open[..|open| - 1];
      assert front[..n] == open[..n];
      RecoverSessionsStop(s0, front, active, n, b, now);
    } else {
      assert open[..n] == open;
    }
  }

  lemma ProcessedLast(s0: State, open: seq<Id>, active: seq<Id>, b: Backend, n: nat)
    requires Listed(s0, open, active) && 0 < n <= |open|
    ensures var turns := TurnsOf(active, s0.turns, open[n - 1]);
            var before := ProcessedBy(s0, open[..n - 1], active, b);
            && ProcessedBy(s0, open[..n], active, b) ==
               (if s0.sessions[open[n - 1]].backend == b.id then before + Elements(turns) else before)
            && ToHandle(s0, before, turns)
            && forall t :: t in Elements(turns) ==> t in s0.turns && s0.turns[t].sessionId == open[n - 1]
  {
    TurnsOfAre(active, s0.turns, open[n - 1]);
    ElementsIn(TurnsOf(active, s0.turns, open[n - 1]));
    assert open[..n] == open[..n - 1] + [open[n - 1]];
  }

  lemma SessionRound(b: Backend, s0: State, s: State, open: seq<Id>, active: seq<Id>, n: nat, now: nat)
    requires StoreInv(s0) && Listed(s0, open, active) && 0 < n <= |open| && Good(s0, s)
    requires Progress(Fates(b, s0), s0, s, ProcessedBy(s0, open[..n - 1], active, b)) && s0.sessions[open[n - 1]].backend == b.id
    ensures var sid := open[n - 1];
            var (s', ok) := RecoverSession(s, sid, s0.sessions[sid], TurnsOf(active, s0.turns, sid), b, now);
            Good(s0, s') && (ok ==> Progress(Fates(b, s0), s0, s', ProcessedBy(s0, open[..n], active, b)))
  {
    var sid := open[n - 1];
    var row, turns := s0.sessions[sid], TurnsOf(active, s0.turns, sid);
    assert sid in open;
    TurnsOfAre(active, s0.turns, sid);
    RoundReattachable(s0, s, sid, turns);
    RecoverSessionGood(s, sid, row, turns, b, now);
    GoodThen(s0, s, RecoverSession(s, sid, row, turns, b, now).0);
    ProcessedLast(s0, open, active, b, n);
    if RecoverSession(s, sid, row, turns, b, now).1 {
      RecoverSessionProgress(b, s0, s, ProcessedBy(s0, open[..n - 1], active, b), sid, turns, now);
    }
  }

  /** The next round of the loop over the sessions. */
  lemma RecoverSessionsNext(s0: State, s: State, open: seq<Id>, active: seq<Id>, n: nat, b: Backend, now: nat)
    requires StoreInv(s0) && Listed(s0, open, active) && n < |open| && (s, true) == RecoverSessions(s0, open[..n], active, b, now)
    ensures var sid := open[n];
            var turns := TurnsOf(active, s0.turns, sid);
            && open[n] in s0.sessions
            && (s0.sessions[sid].backend == b.id ==>
                  && Reattachable(s, sid, s0.sessions[sid].latestCursor, turns)
                  && RecoverSessions(s0, open[..n + 1], active, b, now) == RecoverSession(s, sid, s0.sessions[sid], turns, b, now)
                  && ProcessedBy(s0, open[..n + 1], active, b) == ProcessedBy(s0, open[..n], active, b) + Elements(turns))
            && (s0.sessions[sid].backend != b.id ==>
                  && RecoverSessions(s0, open[..n + 1], active, b, now) == (s, true)
                  && ProcessedBy(s0, open[..n + 1], active, b) == ProcessedBy(s0, open[..n], active, b))
  {
    assert open[..n + 1][..n] == open[..n];
    assert open[n] in open;
    ProcessedLast(s0, open, active, b, n + 1);
    if s0.sessions[open[n]].backend == b.id {
      SessionsProgress(b, s0, open, active, n, now);
      TurnsOfAre(active, s0.turns, open[n]);
      RoundReattachable(s0, s, open[n], TurnsOf(active, s0.turns, open[n]));
    }
  }

  lemma RoundReattachable(s0: State, s: State, sid: Id, turns: seq<Id>)
    requires StoreInv(s0) && Good(s0, s) && sid in s0.sessions && forall t :: t in turns ==> t in s0.turns
    ensures Reattachable(s, sid, s0.sessions[sid].latestCursor, turns)
  {
    KnownGrows(s0.log, s.log, s0.sessions[sid].latestCursor);
  }

  /** Recovery partition. When recovery succeeds, every turn that was active has been handled exactly
      once: finalized if its session was offered and the backend returned it, interrupted otherwise; an
      interrupted turn is failed and unread, gained exactly one `turn.failed` of the broker's and has no
      pending request; and no other turn was touched. */
  lemma RecoveryPartitionsTurns(b: Backend, s0: State, open: seq<Id>, active: seq<Id>, now: nat)
    requires StoreInv(s0) && Listed(s0, open, active)
    ensures var (s, ok) := Reconcile(s0, open, active, b, now);
            Good(s0, s) && (ok ==> Recovered(b, s0, s))
  {
    var (s, ok) := RecoverSessions(s0, open, active, b, now);
    assert open[..|open|] == open;
    SessionsProgress(b, s0, open, active, |open|, now);
    var done := ProcessedBy(s0, open, active, b);
    var rest := Unprocessed(active, done);
    UnprocessedAre(active, done);
    ElementsIn(rest);
    if ok {
      forall t | t in Elements(rest) ensures FateOf(b, s0, t) == Interrupted([], "backend session was unavailable during broker startup") {}
      InterruptAllProgress(Fates(b, s0), s0, s, done, rest, SESSION_UNAVAILABLE, now);
      InterruptAllGood(s, rest, SESSION_UNAVAILABLE, now);
      GoodThen(s0, s, InterruptAll(s, rest, SESSION_UNAVAILABLE, now));
      ProgressDone(b, s0, InterruptAll(s, rest, SESSION_UNAVAILABLE, now), done + Elements(rest));
    }
  }

  const RESTARTED := "turn interrupted by broker shutdown or restart"

  /** A broker that starts without reconnecting interrupts every active turn, each once. */
  lemma RestartInterruptsAll(s0: State, active: seq<Id>, now: nat)
    requires ActiveListed(s0, active)
    ensures var s := InterruptAll(s0, active, RESTARTED, now);
            && s.turns.Keys == s0.turns.Keys
            && (forall t :: t in s0.turns ==>
                  if s0.turns[t].status == Running || s0.turns[t].status == NeedsInput
                  then Handled(s0, s, t, Interrupted([], "turn interrupted by broker shutdown or restart")) else Leaves(s0, s, t))
            && forall t :: t in s.turns ==> s.turns[t].status != Running && s.turns[t].status != NeedsInput
  {
    var fates := map t | t in s0.turns :: Interrupted([], RESTARTED);
    ProgressStart(fates, s0);
    ElementsIn(active);
    InterruptAllProgress(fates, s0, s0, {}, active, RESTARTED, now);
    assert {} + Elements(active) == Elements(active);
  }
}

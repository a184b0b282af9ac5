/** Safety of the broker over whole runs: any steps, in any order, with any answers. */
module BrokerRuns {
  import opened Types
  import opened Vocabulary
  import opened Wrappers
  import opened EventLog
  import opened StoreModel
  import opened BrokerModel
  import opened BrokerInvariants
  import opened BrokerSteps

  // ---------------------------------------------------------------- the machine's invariant

  /** A background task works on an existing, unlinked turn of its own session. */
  ghost predicate TaskOk(s: State, tid: Id, task: Task) {
    && tid in s.turns && task.sessionId == s.turns[tid].sessionId && task.sessionId in s.sessions
    && TurnUri(tid) !in s.links
    && KnownSeq(s.log, task.latest) && KnownSeq(s.log, task.replyCursor)
  }

  ghost predicate TasksOk(y: Sys) {
    forall t :: t in y.tasks ==> TaskOk(y.store, t, y.tasks[t])
  }

  ghost predicate SysInv(y: Sys) {
    StoreInv(y.store) && TasksOk(y)
  }

  lemma InitialInv()
    ensures SysInv(INITIAL)
  {
    assert WithdrawnOnce(INITIAL.store.log, INITIAL.store.requests);
  }

  lemma AcknowledgeLoggedGood(s: State, session: Option<Id>, selected: Option<Id>)
    requires StoreInv(s)
    ensures Good(s, Append(AcknowledgeTurns(s, session, selected), RootUri, None, InboxAcknowledged, FromBroker, JObj(map[])))
  {
    var s1 := AcknowledgeTurns(s, session, selected);
    AcknowledgeGood(s, session, selected);
    AppendGood(s1, RootUri, None, InboxAcknowledged, FromBroker, JObj(map[]));
    GoodThen(s, s1, Append(s1, RootUri, None, InboxAcknowledged, FromBroker, JObj(map[])));
  }

  lemma ReattachedSessionGood(s: State, sid: Id, idle: bool)
    requires StoreInv(s) && sid in s.sessions
    ensures var s1 := Append(s, SessionUri(sid), None, SessionReattached, FromBackend(s.sessions[sid].backend), JObj(map[]));
            Good(s, s1) && Good(s, UpdateSession(s1, sid, Idle, Some(LastSeq(s1.log))))
  {
    var s1 := Append(s, SessionUri(sid), None, SessionReattached, FromBackend(s.sessions[sid].backend), JObj(map[]));
    AppendGood(s, SessionUri(sid), None, SessionReattached, FromBackend(s.sessions[sid].backend), JObj(map[]));
    AdvanceSessionGood(s1, sid, Idle);
    GoodThen(s, s1, UpdateSession(s1, sid, Idle, Some(LastSeq(s1.log))));
  }

  lemma ResumeFailedGood(s: State, sid: Id, summary: string)
    requires StoreInv(s) && sid in s.sessions
    ensures Good(s, UpdateSession(Append(s, SessionUri(sid), None, SessionDegraded, FromBroker, Note(summary)), sid, Degraded, None))
  {
    var s1 := Append(s, SessionUri(sid), None, SessionDegraded, FromBroker, Note(summary));
    AppendGood(s, SessionUri(sid), None, SessionDegraded, FromBroker, Note(summary));
    UpdateSessionGood(s1, sid, Degraded, None);
    GoodThen(s, s1, UpdateSession(s1, sid, Degraded, None));
  }

  lemma StepGood(y: Sys, step: Step)
    requires SysInv(y) && Enabled(y, step)
    ensures Good(y.store, Take(y, step).store)
  {
    var s := y.store;
    GoodSelf(s);
    match step
    case DoCreate(backend, answer) => CreateSessionGood(s, backend, answer);
    case DoSend(sid, message, op, answer) => SendMessageGood(s, sid, message, op, answer);
    case DoSink(tid, event) => IngestGood(s, y.tasks[tid].sessionId, y.tasks[tid].backend, tid, event);
    case DoFinalize(tid, finished) => FinalizeGood(s, y.tasks[tid].sessionId, y.tasks[tid].backend, tid, finished, y.tasks[tid].latest);
    case DoFail(tid, summary) => FailTurnGood(s, y.tasks[tid].sessionId, y.tasks[tid].backend, tid, summary);
    case DoCancel(sid, tid, op, agreed, now) => CancelTurnGood(s, sid, tid, op, agreed, now);
    case DoResolve(rid, decision, response, reason, op, agreed, now) => ResolveRequestGood(s, rid, decision, response, reason, op, agreed, now);
    case DoRaise(sid, turn, kind, backend, payload) =>
      RaiseGood(s, sid, turn, kind, if turn.Some? then TurnUri(turn.value) else SessionUri(sid), FromBackend(backend), payload);
    case DoWait(rid, expired, now) => WaitGood(s, rid, expired, now);
    case DoAcknowledge(session, selected) => AcknowledgeLoggedGood(s, session, selected);
    case DoClose(sid, status) => CloseSessionGood(s, sid, status);
    case DoReattached(sid, idle) => ReattachedSessionGood(s, sid, idle);
    case DoResumeFailed(sid, summary) => ResumeFailedGood(s, sid, summary);
    case DoInterrupt(tid, summary, now) => InterruptGood(s, tid, summary, now);
    case DoCreateRemote(host, op, answer) => CreateRemoteGood(s, host, op, answer);
    case DoMirror(host, sid, e) => MirrorGood(s, host, sid, e);
    case DoSetCursor(sid, cursor) => SetCursorGood(s, SessionUri(sid), cursor);
    case DoUnavailable(sid, summary) => AppendGood(s, SessionUri(sid), None, SessionDegraded, FromRemoteBroker, Note(summary));
    case DoRestart =>
    case DoReattach(_, _, _) =>
  }

  /** The only links a step adds are to resources it creates. */
  ghost predicate NewLinksFresh(s: State, s': State) {
    forall u :: u in s'.links && u !in s.links ==> !UriBelow(u, s.nextId)
  }

  lemma {:induction false} IngestAllFrame(s: State, sid: Id, backend: Id, tid: Id, events: seq<BackendEvent>)
    ensures var s' := IngestAll(s, sid, backend, tid, events);
            && s' == s.(log := s'.log, requests := s'.requests, nextId := s'.nextId)
            && s.log <= s'.log && |s'.log| == |s.log| + |events|
  {
    if events != [] {
      IngestAllFrame(s, sid, backend, tid, events[..|events| - 1]);
    }
  }

  lemma SendLinks(s: State, sid: Id, message: string, op: Option<Id>, answer: Result<RemoteTurn>)
    ensures NewLinksFresh(s, SendMessage(s, sid, message, op, answer).0)
  {}

  lemma CreateLinks(s: State, backend: Id, answer: Result<Id>)
    ensures CreateSession(s, backend, answer).0.links == s.links
  {}

  lemma CreateRemoteLinks(s: State, host: Id, op: Option<Id>, answer: Result<RemoteSession>)
    ensures NewLinksFresh(s, CreateRemote(s, host, op, answer).0)
  {}

  lemma MirrorLinks(s: State, host: Id, sid: Id, e: Event)
    ensures NewLinksFresh(s, Mirror(s, host, sid, e).0)
  {}

  lemma TaskStepLinks(y: Sys, step: Step)
    requires Enabled(y, step) && (step.DoSink? || step.DoFinalize? || step.DoFail? || step.DoInterrupt?)
    ensures Take(y, step).store.links == y.store.links
  {
    match step
    case DoFinalize(tid, finished) => IngestAllFrame(y.store, y.tasks[tid].sessionId, y.tasks[tid].backend, tid, finished.events);
    case DoInterrupt(tid, summary, now) => WithdrawFrame(MarkInterrupted(y.store, tid), tid, summary, now);
    case _ =>
  }

  lemma StepLinks(y: Sys, step: Step)
    requires Enabled(y, step)
    ensures NewLinksFresh(y.store, Take(y, step).store)
  {
    var s := y.store;
    match step
    case DoCreate(backend, answer) => CreateLinks(s, backend, answer);
    case DoSend(sid, message, op, answer) => SendLinks(s, sid, message, op, answer);
    case DoCancel(sid, tid, op, agreed, now) => CancelLinks(s, sid, tid, op, agreed, now);
    case DoResolve(rid, decision, response, reason, op, agreed, now) => ResolveFrame(s, rid, decision, response, reason, op, agreed, now);
    case DoCreateRemote(host, op, answer) => CreateRemoteLinks(s, host, op, answer);
    case DoMirror(host, sid, e) => MirrorLinks(s, host, sid, e);
    case DoSink(_, _) => TaskStepLinks(y, step);
    case DoFinalize(_, _) => TaskStepLinks(y, step);
    case DoFail(_, _) => TaskStepLinks(y, step);
    case DoInterrupt(_, _, _) => TaskStepLinks(y, step);
    case _ =>
  }

  lemma CancelLinks(s: State, sid: Id, tid: Id, op: Option<Id>, agreed: bool, now: nat)
    ensures CancelTurn(s, sid, tid, op, agreed, now).0.links == s.links
  {
    WithdrawFrame(s, tid, CANCEL_REASON, now);
    if TurnUri(tid) in s.links {
      var (s0, key) := OperationKey(s, op);
      WithdrawFrame(s0.(ops := RecordPending(s0.ops, key, s.links[TurnUri(tid)].host, OpCancelTurn)), tid, CANCEL_REASON, now);
    }
  }

  lemma TaskKept(s: State, s': State, tid: Id, task: Task)
    requires TaskOk(s, tid, task) && Evolves(s, s') && NewLinksFresh(s, s') && tid < s.nextId
    ensures TaskOk(s', tid, task)
  {
    KnownGrows(s.log, s'.log, task.latest);
    KnownGrows(s.log, s'.log, task.replyCursor);
  }

  lemma StepInv(y: Sys, step: Step)
    requires SysInv(y) && Enabled(y, step)
    ensures SysInv(Take(y, step)) && Evolves(y.store, Take(y, step).store)
  {
    var z := Take(y, step);
    StepGood(y, step);
    StepLinks(y, step);
    KnownLast(z.store.log);
    forall t | t in z.tasks ensures TaskOk(z.store, t, z.tasks[t]) {
      if t in y.tasks { TaskKept(y.store, z.store, t, y.tasks[t]); }
      if step.DoReattach? && t == step.tid { ReattachTaskOk(y, step); }
      if step.DoSend? && t !in y.tasks { SendTaskOk(y, step, t); }
    }
  }

  lemma ReattachTaskOk(y: Sys, step: Step)
    requires SysInv(y) && Enabled(y, step) && step.DoReattach?
    ensures TaskOk(y.store, step.tid, SpawnedTask(y.store, step.sid, step.latest))
  {}

  lemma SendTaskOk(y: Sys, step: Step, t: Id)
    requires SysInv(y) && Enabled(y, step) && step.DoSend?
    requires t in Take(y, step).tasks && t !in y.tasks
    ensures TaskOk(Take(y, step).store, t, Take(y, step).tasks[t])
  {
    var z := Take(y, step);
    FreshUnlinked(y.store);
    KnownLast(z.store.log);
  }

  lemma {:induction false} ExecInv(y: Sys, steps: seq<Step>)
    requires SysInv(y)
    ensures SysInv(Exec(y, steps)) && Evolves(y.store, Exec(y, steps).store)
  {
    if steps == [] {
      GoodSelf(y.store);
    } else {
      var front := steps[..|steps| - 1];
      ExecInv(y, front);
      var m := Exec(y, front);
      if Enabled(m, steps[|steps| - 1]) {
        StepInv(m, steps[|steps| - 1]);
        EvolvesTransitive(y.store, m.store, Exec(y, steps).store);
      }
    }
  }

  lemma {:induction false} ExecConcat(y: Sys, a: seq<Step>, b: seq<Step>)
    ensures Exec(y, a + b) == Exec(Exec(y, a), b)
  {
    if b == [] {
      assert a + b == a;
    } else {
      var front := b[..|b| - 1];
      ExecConcat(y, a, front);
      assert (a + b)[..|a + b| - 1] == a + front;
    }
  }

  lemma {:induction false} TraceExec(y: Sys, steps: seq<Step>, states: seq<Sys>, n: nat)
    requires Trace(y, steps, states) && n <= |steps|
    ensures states[n] == Exec(y, steps[..n])
  {
    if n > 0 {
      TraceExec(y, steps, states, n - 1);
      assert steps[..n][..n - 1] == steps[..n - 1];
      assert Index(n - 1) && states[n] == Next(states[n - 1], steps[n - 1]);
    }
  }

  /** Runs as sequences of states and as repeated steps are the same. */
  lemma ReachesExec(y: Sys, steps: seq<Step>, z: Sys)
    requires Reaches(y, steps, z)
    ensures z == Exec(y, steps)
  {
    var states :| Trace(y, steps, states) && states[|steps|] == z;
    TraceExec(y, steps, states, |steps|);
    assert steps[..|steps|] == steps;
  }

  lemma {:induction false} ExecReaches(y: Sys, steps: seq<Step>) returns (states: seq<Sys>)
    ensures Trace(y, steps, states) && states[|steps|] == Exec(y, steps)
    ensures Reaches(y, steps, Exec(y, steps))
  {
    if steps == [] {
      states := [y];
    } else {
      var front, last := steps[..|steps| - 1], steps[|steps| - 1];
      var before := ExecReaches(y, front);
      states := before + [Next(Exec(y, front), last)];
      forall i | Index(i) && 0 <= i < |steps| ensures states[i + 1] == Next(states[i], steps[i]) {
        if i < |front| { assert front[i] == steps[i] && before[i + 1] == Next(before[i], front[i]); }
      }
      assert Trace(y, steps, states);
    }
  }

  ghost predicate Reachable(y: Sys) {
    exists steps :: Reaches(INITIAL, steps, y)
  }

  lemma ReachableInv(y: Sys)
    requires Reachable(y)
    ensures SysInv(y)
  {
    var steps :| Reaches(INITIAL, steps, y);
    ReachesExec(INITIAL, steps, y);
    InitialInv();
    ExecInv(INITIAL, steps);
  }

  /** In every reachable state each session's stored cursor is 0 or the number of a logged event,
      links form a bijection between local and remote resources, and the log is numbered in order. */
  lemma StoredCursorsKnown(y: Sys)
    requires Reachable(y)
    ensures forall k :: k in y.store.sessions ==> KnownSeq(y.store.log, y.store.sessions[k].latestCursor)
    ensures LinksOk(y.store.links) && Ascending(y.store.log)
  {
    ReachableInv(y);
  }

  // ---------------------------------------------------------------- requests are decided once

  /** The first decision on a request is final, whatever happens afterwards. */
  lemma DecidedOnce(y: Sys, after: seq<Step>, z: Sys, rid: Id)
    requires Reachable(y) && Reaches(y, after, z) && Decided(y.store.requests, rid)
    ensures rid in z.store.requests && z.store.requests[rid] == y.store.requests[rid]
  {
    ReachableInv(y);
    ReachesExec(y, after, z);
    ExecInv(y, after);
  }

  /** A waiter that returns a request returns what stands forever: the decision that was already stored,
      or else the request withdrawn for want of one. */
  lemma WaiterReturnsWinner(y: Sys, rid: Id, expired: bool, now: nat, after: seq<Step>, z: Sys)
    requires Reachable(y) && WaitRound(y.store, rid, expired, now).1.Some?
    requires Reaches(Next(y, DoWait(rid, expired, now)), after, z)
    ensures var returned := WaitRound(y.store, rid, expired, now).1.value;
            && rid in y.store.requests
            && (if y.store.requests[rid].status == RequestStatus.Pending then TimedOut(y.store.requests[rid], returned, now)
                else returned == y.store.requests[rid])
            && rid in z.store.requests && z.store.requests[rid] == returned
  {
    ReachableInv(y);
    StepInv(y, DoWait(rid, expired, now));
    ReachesExec(Next(y, DoWait(rid, expired, now)), after, z);
    ExecInv(Next(y, DoWait(rid, expired, now)), after);
  }

  /** The broker logs `request.cancelled` at most once per request. */
  lemma WithdrawalLoggedOnce(y: Sys, rid: Id)
    requires Reachable(y)
    ensures Withdrawals(y.store.log, rid) <= 1
    ensures Withdrawals(y.store.log, rid) == 1 ==> Decided(y.store.requests, rid)
  {
    ReachableInv(y);
    assert WithdrawnOnce(y.store.log, y.store.requests);
  }
}

/** Forwarded operations carry an idempotency key: retrying one never takes effect twice. */
module Forwarding {
  import opened Types
  import opened Wrappers
  import opened EventLog
  import opened StoreModel
  import opened BrokerModel
  import opened BrokerInvariants
  import opened BrokerSteps
  import opened BrokerRuns
  import opened Evidence

  // ---------------------------------------------------------------- attempts

  function KindOf(step: Step): Option<OpKind> {
    match step
    case DoSend(_, _, _, _) => Some(OpSendMessage)
    case DoCancel(_, _, _, _, _) => Some(OpCancelTurn)
    case DoResolve(_, _, _, _, _, _, _) => Some(OpResolveRequest)
    case DoCreateRemote(_, _, _) => Some(OpCreateSession)
    case _ => None
  }

  predicate Uses(step: Step, o: Id) {
    KindOf(step).Some? && step.op == Some(o)
  }

  /** An attempt to forward a message or a session creation under the operation id. */
  predicate Attempt(s: State, step: Step, o: Id) {
    && Uses(step, o)
    && (step.DoCreateRemote? || (step.DoSend? && step.sid in s.sessions && SessionUri(step.sid) in s.links))
  }

  /** The reply of an attempt that succeeded. */
  function Reply(s: State, step: Step): Option<OpResult> {
    match step
    case DoSend(sid, message, op, answer) =>
      (match SendMessage(s, sid, message, op, answer).1
       case Ok(reply) => Some(SendResult(reply))
       case Err(_) => None)
    case DoCreateRemote(host, op, answer) =>
      (match CreateRemote(s, host, op, answer).1
       case Ok(reply) => Some(CreateResult(reply))
       case Err(_) => None)
    case _ => None
  }

  /** The attempt calls the remote broker; otherwise it replies from its record. */
  predicate CallsRemote(s: State, o: Id) {
    AppliedResult(s.ops, Some(o)).None?
  }

  /** The operation id is not reused for another kind of operation. */
  ghost predicate OneKind(steps: seq<Step>, o: Id, kind: OpKind) {
    forall i :: 0 <= i < |steps| && Uses(steps[i], o) ==> KindOf(steps[i]) == Some(kind)
  }

  predicate Retryable(kind: OpKind) {
    kind == OpSendMessage || kind == OpCreateSession
  }

  // ---------------------------------------------------------------- one step

  predicate SameRecord(ops: map<OpKey, Operation>, ops': map<OpKey, Operation>, o: Id) {
    (Given(o) in ops <==> Given(o) in ops') && (Given(o) in ops ==> ops'[Given(o)] == ops[Given(o)])
  }

  lemma ForwardTurnOps(s: State, sid: Id, host: Id, message: string, key: OpKey, answer: Result<RemoteTurn>, o: Id)
    requires key != Given(o)
    ensures SameRecord(s.ops, ForwardTurn(s, sid, host, message, key, answer).0.ops, o)
  {
    var s1 := OpenTurn(s, sid, message, FromRemoteBroker);
    OpenTurnOps(s, sid, message);
    if answer.Err? { DegradeFrame(s1, sid, s.nextId); }
  }

  lemma OpenTurnOps(s: State, sid: Id, message: string)
    ensures OpenTurn(s, sid, message, FromRemoteBroker).ops == s.ops
  {}

  lemma SendOps(s: State, sid: Id, message: string, op: Option<Id>, answer: Result<RemoteTurn>, o: Id)
    requires op != Some(o) || SessionUri(sid) !in s.links
    ensures SameRecord(s.ops, SendMessage(s, sid, message, op, answer).0.ops, o)
  {
    if SessionUri(sid) in s.links {
      var host := s.links[SessionUri(sid)].host;
      var (s0, key) := OperationKey(s, op);
      ForwardTurnOps(s0.(ops := RecordPending(s0.ops, key, host, OpSendMessage)), sid, host, message, key, answer, o);
    }
  }

  lemma CancelOps(s: State, sid: Id, tid: Id, op: Option<Id>, agreed: bool, now: nat, o: Id)
    requires op != Some(o)
    ensures SameRecord(s.ops, CancelTurn(s, sid, tid, op, agreed, now).0.ops, o)
  {
    WithdrawFrame(s, tid, CANCEL_REASON, now);
    if TurnUri(tid) in s.links {
      var (s0, key) := OperationKey(s, op);
      WithdrawFrame(s0.(ops := RecordPending(s0.ops, key, s.links[TurnUri(tid)].host, OpCancelTurn)), tid, CANCEL_REASON, now);
    }
  }

  lemma ResolveOps(s: State, rid: Id, decision: Decision, response: Option<Json>, reason: Option<string>, op: Option<Id>, agreed: bool, now: nat, o: Id)
    requires op != Some(o)
    ensures SameRecord(s.ops, ResolveRequest(s, rid, decision, response, reason, op, agreed, now).0.ops, o)
  {
    IntentOps(s, rid, op, o);
    if Settles(s, rid, agreed) {
      SettledOps(s, rid, decision, response, reason, op, agreed, now);
    } else {
      ResolveRefused(s, rid, decision, response, reason, op, agreed, now);
    }
  }

  lemma IntentOps(s: State, rid: Id, op: Option<Id>, o: Id)
    requires op != Some(o)
    ensures var (s1, key) := ResolveIntent(s, rid, op); SameRecord(s.ops, s1.ops, o) && key != Some(Given(o))
  {}

  lemma SettledOps(s: State, rid: Id, decision: Decision, response: Option<Json>, reason: Option<string>, op: Option<Id>, agreed: bool, now: nat)
    requires Settles(s, rid, agreed)
    ensures var (s1, key) := ResolveIntent(s, rid, op);
            ResolveRequest(s, rid, decision, response, reason, op, agreed, now).0.ops ==
            if key.Some? then RecordApplied(s1.ops, key.value, RequestHost(s, rid), OpResolveRequest, RequestUri(rid), OtherResult) else s1.ops
  {
    ResolveSettles(s, rid, decision, response, reason, op, agreed, now);
    SettleFrame(ResolveIntent(s, rid, op).0, rid, decision, response, reason, now);
  }

  lemma CreateRemoteOps(s: State, host: Id, op: Option<Id>, answer: Result<RemoteSession>, o: Id)
    requires op != Some(o)
    ensures SameRecord(s.ops, CreateRemote(s, host, op, answer).0.ops, o)
  {}

  lemma CreateOps(s: State, backend: Id, answer: Result<Id>)
    ensures CreateSession(s, backend, answer).0.ops == s.ops
  {}

  lemma TaskOps(y: Sys, step: Step)
    requires Enabled(y, step) && (step.DoSink? || step.DoFinalize? || step.DoFail? || step.DoInterrupt? || step.DoMirror?)
    ensures Take(y, step).store.ops == y.store.ops
  {
    match step
    case DoFinalize(tid, finished) => IngestAllFrame(y.store, y.tasks[tid].sessionId, y.tasks[tid].backend, tid, finished.events);
    case DoInterrupt(tid, summary, now) => WithdrawFrame(MarkInterrupted(y.store, tid), tid, summary, now);
    case DoMirror(host, sid, e) => MirrorOps(y.store, host, sid, e);
    case _ =>
  }

  lemma MirrorOps(s: State, host: Id, sid: Id, e: Event)
    ensures Mirror(s, host, sid, e).0.ops == s.ops
  {
    var link := ByRemote(s.links, host, e.resource);
    if e.eventType != RequestCreated && link.Some? {
      var s1 := Append(s, UriOr(link, SessionUri(sid)), Some(UriOr(RemoteParent(s.links, host, e), SessionUri(sid))), e.eventType, FromRemote(host), e.payload);
      ApplyOps(s1, sid, link.value, e.eventType);
    }
  }

  lemma ApplyOps(s: State, sid: Id, link: Link, eventType: EventType)
    ensures ApplyMirrored(s, sid, Some(link), eventType).ops == s.ops
  {
    if link.kind == TurnLink && MirroredStatus(eventType).Some? { ApplyMirroredFrame(s, sid, link, eventType); }
  }

  /** Only a step that uses the id touches its record. */
  lemma RecordKept(y: Sys, step: Step, o: Id)
    requires Enabled(y, step) && !Uses(step, o)
    ensures SameRecord(y.store.ops, Take(y, step).store.ops, o)
  {
    var s := y.store;
    match step
    case DoCreate(backend, answer) => CreateOps(s, backend, answer);
    case DoSend(sid, message, op, answer) => SendOps(s, sid, message, op, answer, o);
    case DoCancel(sid, tid, op, agreed, now) => CancelOps(s, sid, tid, op, agreed, now, o);
    case DoResolve(rid, decision, response, reason, op, agreed, now) => ResolveOps(s, rid, decision, response, reason, op, agreed, now, o);
    case DoCreateRemote(host, op, answer) => CreateRemoteOps(s, host, op, answer, o);
    case DoSink(_, _) => TaskOps(y, step);
    case DoFinalize(_, _) => TaskOps(y, step);
    case DoFail(_, _) => TaskOps(y, step);
    case DoInterrupt(_, _, _) => TaskOps(y, step);
    case DoMirror(_, _, _) => TaskOps(y, step);
    case _ =>
  }

  /** A send on a session that is not linked ignores its operation id. */
  lemma IdleKept(y: Sys, step: Step, o: Id)
    requires Uses(step, o) && step.DoSend? && !Attempt(y.store, step, o)
    ensures SameRecord(y.store.ops, Next(y, step).store.ops, o)
  {
    if SessionUri(step.sid) !in y.store.links {
      SendOps(y.store, step.sid, step.message, step.op, step.turnAnswer, o);
    }
  }

  /** A recorded success is replayed: same reply, no remote call, nothing changes. */
  lemma Replayed(y: Sys, step: Step, o: Id, kind: OpKind, result: OpResult)
    requires Attempt(y.store, step, o) && KindOf(step) == Some(kind) && AppliedResult(y.store.ops, Some(o)) == Some(result)
    requires if kind == OpSendMessage then result.SendResult? else result.CreateResult?
    ensures Next(y, step) == y && Reply(y.store, step) == Some(result)
  {}

  /** A success is recorded. */
  lemma SuccessRecorded(y: Sys, step: Step, o: Id)
    requires Attempt(y.store, step, o) && Reply(y.store, step).Some?
    ensures AppliedResult(Next(y, step).store.ops, Some(o)) == Reply(y.store, step)
  {}

  predicate Fits(result: OpResult, kind: OpKind) {
    if kind == OpSendMessage then result.SendResult? else result.CreateResult?
  }

  /** A recorded success stays recorded. */
  lemma {:induction false} SuccessStands(y: Sys, steps: seq<Step>, o: Id, kind: OpKind, result: OpResult) returns (z: Sys)
    requires Retryable(kind) && Fits(result, kind) && OneKind(steps, o, kind) && AppliedResult(y.store.ops, Some(o)) == Some(result)
    ensures z == Exec(y, steps) && AppliedResult(z.store.ops, Some(o)) == Some(result)
  {
    z := y;
    if steps != [] {
      var m := SuccessStands(y, steps[..|steps| - 1], o, kind, result);
      z := StandsOneStep(m, steps[|steps| - 1], o, kind, result);
    }
  }

  lemma StandsOneStep(y: Sys, step: Step, o: Id, kind: OpKind, result: OpResult) returns (z: Sys)
    requires Retryable(kind) && Fits(result, kind) && AppliedResult(y.store.ops, Some(o)) == Some(result)
    requires Uses(step, o) ==> KindOf(step) == Some(kind)
    ensures z == Next(y, step) && AppliedResult(z.store.ops, Some(o)) == Some(result)
  {
    z := Next(y, step);
    if Attempt(y.store, step, o) {
      Replayed(y, step, o, kind, result);
    } else if Uses(step, o) {
      IdleKept(y, step, o);
    } else if Enabled(y, step) {
      RecordKept(y, step, o);
    }
  }

  // ---------------------------------------------------------------- runs of attempts

  /** After the first success, whatever happens in between, every later attempt gets the same reply,
      makes no remote call and changes nothing. */
  lemma RetriesReplayFirstSuccess(y: Sys, first: Step, between: seq<Step>, retry: Step, o: Id, kind: OpKind) returns (z: Sys)
    requires Retryable(kind) && OneKind([first] + between + [retry], o, kind)
    requires Attempt(y.store, first, o) && Reply(y.store, first).Some?
    ensures z == Exec(Next(y, first), between)
    ensures !CallsRemote(z.store, o)
    ensures Attempt(z.store, retry, o) ==> Reply(z.store, retry) == Reply(y.store, first) && Next(z, retry) == z
  {
    var all := [first] + between + [retry];
    assert all[0] == first && all[|all| - 1] == retry;
    SuccessRecorded(y, first, o);
    assert OneKind(between, o, kind) by {
      forall i | 0 <= i < |between| && Uses(between[i], o) ensures KindOf(between[i]) == Some(kind) {
        assert all[i + 1] == between[i];
      }
    }
    z := SuccessStands(Next(y, first), between, o, kind, Reply(y.store, first).value);
    if Attempt(z.store, retry, o) { Replayed(z, retry, o, kind, Reply(y.store, first).value); }
  }

  /** Attempts of a run that linked a local resource. */
  ghost function Linkings(y: Sys, steps: seq<Step>, o: Id): nat {
    if steps == [] then 0
    else
      var m := Exec(y, steps[..|steps| - 1]);
      var last := steps[|steps| - 1];
      Linkings(y, steps[..|steps| - 1], o) + if Attempt(m.store, last, o) && Next(m, last).store.links.Keys != m.store.links.Keys then 1 else 0
  }

  /** An attempt that does not succeed links nothing. */
  lemma FailureLinksNothing(y: Sys, step: Step, o: Id)
    requires Attempt(y.store, step, o) && Reply(y.store, step).None?
    ensures Next(y, step).store.links == y.store.links
  {}

  /** Over any run, however often an operation is attempted and whatever the remote broker answers, at
      most one local turn (or session) is ever linked for it. */
  lemma {:induction false} AtMostOneLinked(y: Sys, steps: seq<Step>, o: Id, kind: OpKind) returns (z: Sys)
    requires Retryable(kind) && OneKind(steps, o, kind)
    ensures z == Exec(y, steps) && Linkings(y, steps, o) <= 1
    ensures Linkings(y, steps, o) == 1 ==>
              AppliedResult(z.store.ops, Some(o)).Some? && Fits(AppliedResult(z.store.ops, Some(o)).value, kind)
  {
    z := y;
    if steps != [] {
      var front, last := steps[..|steps| - 1], steps[|steps| - 1];
      var m := AtMostOneLinked(y, front, o, kind);
      z := Next(m, last);
      if AppliedResult(m.store.ops, Some(o)).Some? && Fits(AppliedResult(m.store.ops, Some(o)).value, kind) {
        var _ := StandsOneStep(m, last, o, kind, AppliedResult(m.store.ops, Some(o)).value);
        if Attempt(m.store, last, o) { Replayed(m, last, o, kind, AppliedResult(m.store.ops, Some(o)).value); }
      } else if Attempt(m.store, last, o) {
        if Reply(m.store, last).Some? { SuccessRecorded(m, last, o); } else { FailureLinksNothing(m, last, o); }
      }
    }
  }

  // ---------------------------------------------------------------- failed attempts

  /** An attempt whose remote call failed leaves a degraded, unread turn that is never linked, and the
      operation may be tried again. */
  lemma FailedSendLeavesDegradedTurn(y: Sys, sid: Id, message: string, o: Id, answer: Result<RemoteTurn>, y': Sys, later: seq<Step>, z: Sys)
    requires SysInv(y) && sid in y.store.sessions && SessionUri(sid) in y.store.links && CallsRemote(y.store, o) && answer.Err?
    requires y' == y.(store := SendMessage(y.store, sid, message, Some(o), answer).0) && Reaches(y', later, z)
    ensures y' == Next(y, DoSend(sid, message, Some(o), answer)) && CallsRemote(y'.store, o)
    ensures y.store.nextId !in y.store.turns && y.store.nextId in y'.store.turns
    ensures y'.store.turns[y.store.nextId] == Turn(sid, None, Degraded, true)
    ensures TurnUri(y.store.nextId) !in z.store.links
  {
    FailedSendTurn(y.store, sid, message, o, answer);
    StepInv(y, DoSend(sid, message, Some(o), answer));
    FreshUnlinked(y.store);
    ReachesExec(y', later, z);
    NeverLinked(y', later, TurnUri(y.store.nextId));
  }

  lemma FailedSendTurn(s: State, sid: Id, message: string, o: Id, answer: Result<RemoteTurn>)
    requires StoreInv(s) && sid in s.sessions && SessionUri(sid) in s.links && CallsRemote(s, o) && answer.Err?
    ensures var (s', reply) := SendMessage(s, sid, message, Some(o), answer);
            && reply.Err? && CallsRemote(s', o) && s'.links == s.links && s'.nextId == s.nextId + 1
            && s'.turns == s.turns[s.nextId := Turn(sid, None, Degraded, true)]
  {
    var s1 := s.(ops := RecordPending(s.ops, Given(o), s.links[SessionUri(sid)].host, OpSendMessage));
    DegradeFrame(OpenTurn(s1, sid, message, FromRemoteBroker), sid, s.nextId);
  }

  /** Once its identifier is in use, a resource that is not linked never will be. */
  lemma {:induction false} NeverLinked(y: Sys, steps: seq<Step>, u: Uri)
    requires SysInv(y) && UriBelow(u, y.store.nextId) && u !in y.store.links
    ensures u !in Exec(y, steps).store.links
  {
    if steps != [] {
      var front, last := steps[..|steps| - 1], steps[|steps| - 1];
      NeverLinked(y, front, u);
      ExecInv(y, front);
      var m := Exec(y, front);
      if Enabled(m, last) { StepLinks(m, last); }
    }
  }

  /** Attempts to create a session under the operation id, each answered with an error. */
  ghost predicate FailingCreates(steps: seq<Step>, o: Id) {
    forall i :: 0 <= i < |steps| ==> steps[i].DoCreateRemote? && steps[i].op == Some(o) && steps[i].sessionAnswer.Err?
  }

  /** However often a session creation has failed, on whatever hosts and with whatever errors: nothing is
      left but the operation's record, the operation may be tried again, and an attempt then has exactly
      the effect and the reply it would have had as the first one. */
  lemma {:induction false} FailedCreatesLeaveNoTrace(y: Sys, steps: seq<Step>, o: Id, host: Id, answer: Result<RemoteSession>) returns (z: Sys)
    requires CallsRemote(y.store, o) && FailingCreates(steps, o)
    ensures z == Exec(y, steps) && CallsRemote(z.store, o)
    ensures z == y.(store := y.store.(ops := z.store.ops)) && forall key :: key != Given(o) ==> SameKey(y.store.ops, z.store.ops, key)
    ensures CreateRemote(z.store, host, Some(o), answer) == CreateRemote(y.store, host, Some(o), answer)
  {
    z := y;
    if steps != [] {
      var m := FailedCreatesLeaveNoTrace(y, steps[..|steps| - 1], o, host, answer);
      var last := steps[|steps| - 1];
      z := Next(m, last);
      RecordOverwritten(m.store.ops, Given(o), last.host, host);
      assert z.store == m.store.(ops := RecordPending(m.store.ops, Given(o), last.host, OpCreateSession));
      forall key | key != Given(o) ensures SameKey(y.store.ops, z.store.ops, key) {
        assert SameKey(y.store.ops, m.store.ops, key);
      }
    }
  }

  predicate SameKey(ops: map<OpKey, Operation>, ops': map<OpKey, Operation>, key: OpKey) {
    (key in ops <==> key in ops') && (key in ops ==> ops'[key] == ops[key])
  }

  lemma RecordOverwritten(ops: map<OpKey, Operation>, key: OpKey, first: Id, second: Id)
    ensures RecordPending(RecordPending(ops, key, first, OpCreateSession), key, second, OpCreateSession) ==
            RecordPending(ops, key, second, OpCreateSession)
  {}
}

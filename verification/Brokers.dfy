/** Two whole brokers, each with its own store: the remote log is the far broker's own, and forwarded
    operations are answered by the far broker's operations. Every run of theirs is a run of the
    two-broker machine, so what is proved of that machine holds of them without any premise on the log. */
module Brokers {
  import opened Types
  import opened Wrappers
  import opened EventLog
  import opened StoreModel
  import opened BrokerModel
  import opened BrokerInvariants
  import opened BrokerSteps
  import opened BrokerRuns
  import opened Federation
  import opened FedInvariant
  import opened SyncSteps
  import opened FedRuns
  import opened Mirroring
  import opened Convergence
  import opened HostLog

  // ---------------------------------------------------------------- the machine

  datatype Pair = Pair(near: Sys, far: Sys, host: Id, tracked: set<Id>)

  /** `agreed` and `answer` are what the far broker's backend says. */
  datatype PairStep =
    | Near(step: Step)
    | Far(step: Step)
    | Synchronise(sid: Id)
    | SendAcross(sid: Id, message: string, op: Option<Id>)
    | CancelAcross(sid: Id, tid: Id, op: Option<Id>, agreed: bool, now: nat)
    | CreateAcross(op: Option<Id>, backend: Id, answer: Result<Id>)

  /** The far broker as the near one sees it. */
  function View(p: Pair): Fed {
    Fed(p.near, p.far.store.log, p.host, p.tracked)
  }

  ghost predicate PairEnabled(p: Pair, step: PairStep) {
    var s := p.near.store;
    match step
    case Near(inner) => Enabled(p.near, inner) && StaysLocal(s, inner)
    case Far(inner) => Enabled(p.far, inner) && StaysLocal(p.far.store, inner)
    case Synchronise(sid) => Linked(s, p.host, sid)
    case SendAcross(sid, _, _) => Linked(s, p.host, sid)
    case CancelAcross(sid, tid, _, _, _) =>
      Linked(s, p.host, sid) && tid in s.turns && TurnUri(tid) in s.links && s.links[TurnUri(tid)].host == p.host
    case CreateAcross(_, _, _) => true
  }

  const UNREACHABLE: Result<RemoteTurn> := Err(RemoteFailure)

  /** The far broker takes the message, unless the near one replays an earlier reply. */
  ghost function FarSend(p: Pair, session: Id, message: string): (Sys, Result<RemoteTurn>) {
    var step := DoSend(session, message, None, UNREACHABLE);
    match SendMessage(p.far.store, session, message, None, UNREACHABLE).1
    case Ok(reply) => (Take(p.far, step), Ok(RemoteTurn(TurnUri(reply.turnId), reply.turnId, reply.eventCursor)))
    case Err(_) => (Take(p.far, step), UNREACHABLE)
  }

  /** The near broker records the far one's answer. */
  ghost function Answered(p: Pair, sid: Id, message: string, op: Option<Id>, far: Sys, answer: RemoteTurn): Pair {
    var (s1, reply) := SendMessage(p.near.store, sid, message, op, Ok(answer));
    Pair(p.near.(store := s1), far, p.host, if reply.Ok? then TrackedAfterSend(View(p), sid, reply.value.turnId) else p.tracked)
  }

  /** The near broker adopts the session the far one created. */
  ghost function Adopted(p: Pair, op: Option<Id>, backend: Id, far: Sys, reply: CreateReply): Pair {
    var remote := RemoteSession(SessionUri(reply.sessionId), reply.sessionId, reply.eventCursor, backend, reply.status);
    p.(near := p.near.(store := CreateRemote(p.near.store, p.host, op, Ok(remote)).0), far := far)
  }

  ghost function PairTake(p: Pair, step: PairStep): Pair
    requires PairEnabled(p, step)
  {
    var s := p.near.store;
    match step
    case Near(inner) => p.(near := Take(p.near, inner))
    case Far(inner) => p.(far := Take(p.far, inner))
    case Synchronise(sid) => p.(near := p.near.(store := SyncStore(s, p.host, sid, p.far.store.log)))
    case SendAcross(sid, message, op) =>
      if AppliedResult(s.ops, op).Some? then p.(near := p.near.(store := SendMessage(s, sid, message, op, UNREACHABLE).0))
      else
        var (far, answer) := FarSend(p, s.links[SessionUri(sid)].remoteId, message);
        if answer.Ok? then Answered(p, sid, message, op, far, answer.value)
        else p.(near := p.near.(store := SendMessage(s, sid, message, op, UNREACHABLE).0), far := far)
    case CancelAcross(sid, tid, op, agreed, now) =>
      var (far, result) := CancelTurn(p.far.store, s.links[SessionUri(sid)].remoteId, s.links[TurnUri(tid)].remoteId, op, agreed, now);
      p.(near := p.near.(store := CancelTurn(s, sid, tid, op, result.Ok?, now).0), far := p.far.(store := far))
    case CreateAcross(op, backend, answer) =>
      if AppliedResult(s.ops, op).Some? then p.(near := p.near.(store := CreateRemote(s, p.host, op, Err(RemoteFailure)).0))
      else
        var (far, reply) := CreateSession(p.far.store, backend, answer);
        if reply.Ok? then Adopted(p, op, backend, p.far.(store := far), reply.value)
        else p.(near := p.near.(store := CreateRemote(s, p.host, op, Err(RemoteFailure)).0), far := p.far.(store := far))
  }

  ghost function PairNext(p: Pair, step: PairStep): Pair {
    if PairEnabled(p, step) then PairTake(p, step) else p
  }

  ghost function PairExec(p: Pair, steps: seq<PairStep>): Pair {
    if steps == [] then p else PairNext(PairExec(p, steps[..|steps| - 1]), steps[|steps| - 1])
  }

  function PairInitial(host: Id): Pair {
    Pair(INITIAL, INITIAL, host, {})
  }

  /** If `own`: whoever cancels a turn, at either broker, names the session it belongs to. */
  predicate OwnPairStep(p: Pair, step: PairStep, own: bool) {
    own ==>
      match step
      case Far(inner) => OwnStep(p.far.store, inner, true)
      case CancelAcross(sid, tid, _, _, _) => tid in p.near.store.turns ==> p.near.store.turns[tid].sessionId == sid
      case _ => true
  }

  ghost predicate OwnPairRun(p: Pair, steps: seq<PairStep>, own: bool) {
    forall n :: 0 <= n < |steps| ==> OwnPairStep(PairExec(p, steps[..n]), steps[n], own)
  }

  // ---------------------------------------------------------------- the invariant

  ghost predicate FarInv(y: Sys, own: bool) {
    SysInv(y) && Homed(y.store, own) && y.store.links == map[]
  }

  ghost predicate PairInv(p: Pair, own: bool) {
    FarInv(p.far, own) && FedInv(View(p))
  }

  lemma PairInitialInv(host: Id, own: bool)
    ensures PairInv(PairInitial(host), own)
  {
    InitialInv();
    FedInitialInv(host);
  }

  /** A step of the far broker leaves its log fit, and longer. */
  lemma FarStep(y: Sys, step: Step, own: bool) returns (z: Sys)
    requires FarInv(y, own) && Enabled(y, step) && StaysLocal(y.store, step) && OwnStep(y.store, step, own)
    ensures z == Take(y, step) && FarInv(z, own)
    ensures y.store.log <= z.store.log && z.store.log == y.store.log + Added(y.store.log, z.store.log) && RemoteLogOk(z.store.log)
  {
    z := Take(y, step);
    StepInv(y, step);
    LocalLinks(y, step);
    StepHomed(y, step, own);
    HomedLogOk(z.store, own);
    StepGood(y, step);
  }

  lemma GrowthStep(p: Pair, far: Sys) returns (steps: seq<FedStep>)
    requires FedInv(View(p)) && far.store.log == p.far.store.log + Added(p.far.store.log, far.store.log) && RemoteLogOk(far.store.log)
    ensures FedExec(View(p), steps) == View(p.(far := far)) && FedInv(View(p.(far := far))) && Unrestarted(steps)
    ensures |steps| == 1 && steps[0].RemoteGrows?
  {
    var step := RemoteGrows(Added(p.far.store.log, far.store.log));
    GrowthKeeps(View(p), step.events);
    steps := FedExecOne(View(p), step, FedNext(View(p), step));
  }

  // ---------------------------------------------------------------- each step is a step of the two-broker machine

  /** What a step of the pair amounts to for the near broker's view. */
  ghost predicate Amounts(p: Pair, q: Pair, steps: seq<FedStep>, own: bool) {
    PairInv(q, own) && q.host == p.host && FedExec(View(p), steps) == View(q)
  }

  /** Neither restarts nor messages. */
  predicate Answers(steps: seq<FedStep>) {
    forall i :: 0 <= i < |steps| ==> !steps[i].ForwardSend? && NoRestart(steps[i])
  }

  predicate SendsOnly(steps: seq<FedStep>, sid: Id) {
    |steps| == 1 && NoRestart(steps[0]) && (steps[0].ForwardSend? ==> steps[0].sid == sid)
  }

  lemma NoLinksNoMirror(y: Sys, step: Step, own: bool)
    requires StaysLocal(y.store, step) && (own ==> OwnStep(y.store, step, true))
    ensures OwnStep(y.store, step, own)
  {}

  lemma OneFedStep(p: Pair, q: Pair, step: FedStep, own: bool) returns (steps: seq<FedStep>)
    requires PairInv(p, own) && FarInv(q.far, own) && q.host == p.host
    requires FedEnabled(View(p), step) && !step.Sync? && View(q) == FedTake(View(p), step)
    ensures steps == [step] && Amounts(p, q, steps, own)
  {
    var g := FedStepInv(View(p), step);
    steps := FedExecOne(View(p), step, g);
  }

  lemma SyncAmounts(p: Pair, sid: Id, own: bool) returns (q: Pair, steps: seq<FedStep>)
    requires PairInv(p, own) && PairEnabled(p, Synchronise(sid))
    ensures q == PairTake(p, Synchronise(sid)) && steps == [Sync(sid)] && Amounts(p, q, steps, own)
  {
    q := PairTake(p, Synchronise(sid));
    var g, _ := SyncAsPulls(View(p), sid);
    steps := FedExecOne(View(p), Sync(sid), g);
  }

  lemma FarAmounts(p: Pair, step: Step, own: bool) returns (q: Pair, steps: seq<FedStep>)
    requires PairInv(p, own) && PairEnabled(p, Far(step)) && OwnPairStep(p, Far(step), own)
    ensures q == PairTake(p, Far(step)) && Amounts(p, q, steps, own) && Answers(steps)
  {
    NoLinksNoMirror(p.far, step, own);
    var z := FarStep(p.far, step, own);
    q := p.(far := z);
    steps := GrowthStep(p, z);
  }

  // ---------------------------------------------------------------- messages

  lemma FarSendOk(p: Pair, session: Id, message: string, own: bool) returns (far: Sys, answer: Result<RemoteTurn>)
    requires FarInv(p.far, own)
    ensures (far, answer) == FarSend(p, session, message) && FarInv(far, own)
    ensures answer.Err? ==> answer == UNREACHABLE && far == p.far
    ensures answer.Ok? ==>
              && answer.value.uri == TurnUri(answer.value.id) && Unused(p.far.store.log, answer.value.uri)
              && far.store.log == p.far.store.log + RemoteOpening(p.far.store.log, session, answer.value.id, message)
              && answer.value.cursor == LastSeq(far.store.log)
  {
    far, answer := FarSend(p, session, message).0, FarSend(p, session, message).1;
    var z := FarStep(p.far, DoSend(session, message, None, UNREACHABLE), own);
    if answer.Ok? {
      HostOpensTurn(p.far.store, session, message, None, UNREACHABLE);
    }
  }

  lemma SendTaken(p: Pair, sid: Id, message: string, op: Option<Id>, far: Sys, answer: RemoteTurn, own: bool)
    returns (q: Pair, steps: seq<FedStep>)
    requires PairInv(p, own) && FedEnabled(View(p), ForwardSend(sid, message, op, answer.id)) && FarInv(far, own)
    requires answer.uri == TurnUri(answer.id) && answer.cursor == LastSeq(far.store.log)
    requires far.store.log == p.far.store.log + RemoteOpening(p.far.store.log, p.near.store.links[SessionUri(sid)].remoteId, answer.id, message)
    ensures q == Answered(p, sid, message, op, far, answer) && Amounts(p, q, steps, own) && SendsOnly(steps, sid)
  {
    q := Answered(p, sid, message, op, far, answer);
    SendView(p, q, sid, message, op, far, answer);
    steps := OneFedStep(p, q, ForwardSend(sid, message, op, answer.id), own);
  }

  lemma SendView(p: Pair, q: Pair, sid: Id, message: string, op: Option<Id>, far: Sys, answer: RemoteTurn)
    requires FedEnabled(View(p), ForwardSend(sid, message, op, answer.id)) && answer.uri == TurnUri(answer.id)
    requires far.store.log == p.far.store.log + RemoteOpening(p.far.store.log, p.near.store.links[SessionUri(sid)].remoteId, answer.id, message)
    requires answer.cursor == LastSeq(far.store.log) && q == Answered(p, sid, message, op, far, answer)
    ensures View(q) == FedTake(View(p), ForwardSend(sid, message, op, answer.id))
  {}

  lemma NearAmounts(p: Pair, step: Step, own: bool) returns (q: Pair, steps: seq<FedStep>)
    requires PairInv(p, own) && Enabled(p.near, step) && StaysLocal(p.near.store, step)
    ensures q == p.(near := Take(p.near, step)) && Amounts(p, q, steps, own) && steps == [Local(step)]
  {
    q := p.(near := Take(p.near, step));
    steps := OneFedStep(p, q, Local(step), own);
  }

  /** A message that is replayed, or that the far broker refuses. */
  lemma SendNotTaken(p: Pair, sid: Id, message: string, op: Option<Id>, own: bool) returns (q: Pair, steps: seq<FedStep>)
    requires PairInv(p, own) && PairEnabled(p, SendAcross(sid, message, op))
    requires AppliedResult(p.near.store.ops, op).Some? || FarSend(p, p.near.store.links[SessionUri(sid)].remoteId, message).1.Err?
    ensures q == PairTake(p, SendAcross(sid, message, op)) && Amounts(p, q, steps, own)
    ensures SendsOnly(steps, sid)
  {
    if AppliedResult(p.near.store.ops, op).None? {
      var far, answer := FarSendOk(p, p.near.store.links[SessionUri(sid)].remoteId, message, own);
    }
    q, steps := NearAmounts(p, DoSend(sid, message, op, UNREACHABLE), own);
    assert q == PairTake(p, SendAcross(sid, message, op));
  }

  // ---------------------------------------------------------------- cancellations

  lemma CancelView(p: Pair, q: Pair, sid: Id, tid: Id, op: Option<Id>, now: nat, far: State, events: seq<Event>)
    requires FedEnabled(View(p), ForwardCancel(sid, tid, op, now, events)) && far.log == p.far.store.log + events
    requires q == p.(near := p.near.(store := CancelTurn(p.near.store, sid, tid, op, true, now).0), far := p.far.(store := far))
    ensures View(q) == FedTake(View(p), ForwardCancel(sid, tid, op, now, events))
  {}

  lemma CancelAgreed(p: Pair, sid: Id, tid: Id, op: Option<Id>, now: nat, far: State, own: bool) returns (q: Pair, steps: seq<FedStep>)
    requires PairInv(p, own) && FedEnabled(View(p), ForwardCancel(sid, tid, op, now, Added(p.far.store.log, far.log)))
    requires FarInv(p.far.(store := far), own) && far.log == p.far.store.log + Added(p.far.store.log, far.log)
    ensures q == p.(near := p.near.(store := CancelTurn(p.near.store, sid, tid, op, true, now).0), far := p.far.(store := far))
    ensures Amounts(p, q, steps, own) && Answers(steps)
  {
    var events := Added(p.far.store.log, far.log);
    q := p.(near := p.near.(store := CancelTurn(p.near.store, sid, tid, op, true, now).0), far := p.far.(store := far));
    CancelView(p, q, sid, tid, op, now, far, events);
    steps := OneFedStep(p, q, ForwardCancel(sid, tid, op, now, events), own);
  }

  /** The far broker logs something but answers with an error. */
  lemma GrowThenNear(p: Pair, far: Sys, step: Step, own: bool) returns (q: Pair, steps: seq<FedStep>)
    requires PairInv(p, own) && FarInv(far, own) && Enabled(p.near, step) && StaysLocal(p.near.store, step) && !step.DoInterrupt?
    requires far.store.log == p.far.store.log + Added(p.far.store.log, far.store.log) && RemoteLogOk(far.store.log)
    ensures q == Pair(Take(p.near, step), far, p.host, p.tracked) && Amounts(p, q, steps, own) && Answers(steps)
  {
    var grown := GrowthStep(p, far);
    var more: seq<FedStep>;
    q, more := NearAmounts(p.(far := far), step, own);
    FedExecConcat(View(p), grown, more);
    steps := grown + more;
  }

  lemma CancelAmounts(p: Pair, sid: Id, tid: Id, op: Option<Id>, agreed: bool, now: nat, own: bool) returns (q: Pair, steps: seq<FedStep>)
    requires PairInv(p, own) && PairEnabled(p, CancelAcross(sid, tid, op, agreed, now))
    requires OwnPairStep(p, CancelAcross(sid, tid, op, agreed, now), own)
    ensures q == PairTake(p, CancelAcross(sid, tid, op, agreed, now)) && Amounts(p, q, steps, own) && Answers(steps)
  {
    var session, turn := p.near.store.links[SessionUri(sid)].remoteId, p.near.store.links[TurnUri(tid)].remoteId;
    OwnAtFar(p, sid, tid, own);
    var far := FarStep(p.far, DoCancel(session, turn, op, agreed, now), own);
    if CancelTurn(p.far.store, session, turn, op, agreed, now).1.Ok? {
      AgreedCancel(p.far.store, session, turn, op, agreed, now);
      CancelLogs(p.far.store, session, turn, op, now);
      q, steps := CancelAgreed(p, sid, tid, op, now, far.store, own);
    } else {
      q, steps := GrowThenNear(p, far, DoCancel(sid, tid, op, false, now), own);
    }
  }

  lemma AgreedCancel(s: State, sid: Id, tid: Id, op: Option<Id>, agreed: bool, now: nat)
    requires CancelTurn(s, sid, tid, op, agreed, now).1.Ok?
    ensures agreed
  {}

  /** A turn's own session at the near broker is its own session at the far one. */
  lemma OwnAtFar(p: Pair, sid: Id, tid: Id, own: bool)
    requires PairInv(p, own) && Linked(p.near.store, p.host, sid) && Wired(p.near.store, p.host, tid)
    ensures own && p.near.store.turns[tid].sessionId == sid ==>
              var turn := p.near.store.links[TurnUri(tid)].remoteId;
              turn in p.far.store.turns ==> p.far.store.turns[turn].sessionId == p.near.store.links[SessionUri(sid)].remoteId
  {
    if own && p.near.store.turns[tid].sessionId == sid {
      var s, log := p.near.store, p.far.store.log;
      TurnLinked(View(p), tid);
      SessionRemote(View(p), sid);
      assert RemoteLinkOk(s, p.host, log, s.links[TurnUri(tid)]);
      var i :| 0 <= i < |log| && log[i].resource == s.links[TurnUri(tid)].remoteUri && log[i].parent == Some(s.links[SessionUri(sid)].remoteUri);
      assert HomedEvent(p.far.store, log[i], own);
    }
  }

  // ---------------------------------------------------------------- creations

  lemma CreateView(p: Pair, q: Pair, op: Option<Id>, backend: Id, far: Sys, reply: CreateReply)
    requires FedEnabled(View(p), ForwardCreate(op, reply.sessionId, backend, reply.status))
    requires far.store.log == p.far.store.log + RemoteCreation(p.far.store.log, reply.sessionId, backend) && reply.eventCursor == LastSeq(far.store.log)
    requires q == Adopted(p, op, backend, far, reply)
    ensures View(q) == FedTake(View(p), ForwardCreate(op, reply.sessionId, backend, reply.status))
  {}

  lemma CreateTaken(p: Pair, op: Option<Id>, backend: Id, reply: CreateReply, far: Sys, own: bool) returns (q: Pair, steps: seq<FedStep>)
    requires PairInv(p, own) && FedEnabled(View(p), ForwardCreate(op, reply.sessionId, backend, reply.status)) && FarInv(far, own)
    requires far.store.log == p.far.store.log + RemoteCreation(p.far.store.log, reply.sessionId, backend) && reply.eventCursor == LastSeq(far.store.log)
    ensures q == Adopted(p, op, backend, far, reply) && Amounts(p, q, steps, own) && Answers(steps)
  {
    q := Adopted(p, op, backend, far, reply);
    CreateView(p, q, op, backend, far, reply);
    steps := OneFedStep(p, q, ForwardCreate(op, reply.sessionId, backend, reply.status), own);
  }

  lemma CreateAmounts(p: Pair, op: Option<Id>, backend: Id, answer: Result<Id>, own: bool) returns (q: Pair, steps: seq<FedStep>)
    requires PairInv(p, own)
    ensures q == PairTake(p, CreateAcross(op, backend, answer)) && Amounts(p, q, steps, own) && Answers(steps)
  {
    q := PairTake(p, CreateAcross(op, backend, answer));
    if AppliedResult(p.near.store.ops, op).Some? {
      q, steps := NearAmounts(p, DoCreateRemote(p.host, op, Err(RemoteFailure)), own);
    } else {
      var far := FarStep(p.far, DoCreate(backend, answer), own);
      if answer.Ok? {
        HostCreatesSession(p.far.store, backend, answer.value);
        q, steps := CreateTaken(p, op, backend, CreateSession(p.far.store, backend, answer).1.value, far, own);
      } else {
        q, steps := GrowThenNear(p, far, DoCreateRemote(p.host, op, Err(RemoteFailure)), own);
      }
    }
  }

  // ---------------------------------------------------------------- runs

  /** The near broker is not restarted, and sends no new message on the session. */
  predicate NearStays(step: PairStep) {
    !(step.Near? && step.step.DoInterrupt?)
  }

  predicate NoMessage(step: PairStep, sid: Id) {
    !(step.SendAcross? && step.sid == sid)
  }

  predicate NoMessages(steps: seq<PairStep>, sid: Id) {
    forall i :: 0 <= i < |steps| ==> NoMessage(steps[i], sid)
  }

  predicate NearStaysUp(steps: seq<PairStep>) {
    forall i :: 0 <= i < |steps| ==> NearStays(steps[i])
  }

  predicate AllKeepPlace(steps: seq<FedStep>, sid: Id) {
    forall i :: 0 <= i < |steps| ==> KeepsPlace(steps[i], sid)
  }

  /** The steps of the two-broker machine restart or send only if the pair's step does. */
  ghost predicate Matches(step: PairStep, steps: seq<FedStep>) {
    && (NearStays(step) ==> Unrestarted(steps))
    && (forall sid: Id :: NoMessage(step, sid) ==> AllKeepPlace(steps, sid))
  }

  lemma AnswersMatch(step: PairStep, steps: seq<FedStep>)
    requires Answers(steps)
    ensures Matches(step, steps)
  {}

  lemma SendMatches(sid: Id, message: string, op: Option<Id>, steps: seq<FedStep>)
    requires SendsOnly(steps, sid)
    ensures Matches(SendAcross(sid, message, op), steps)
  {}

  lemma SendAmounts(p: Pair, sid: Id, message: string, op: Option<Id>, own: bool) returns (q: Pair, steps: seq<FedStep>)
    requires PairInv(p, own) && PairEnabled(p, SendAcross(sid, message, op))
    ensures q == PairTake(p, SendAcross(sid, message, op)) && Amounts(p, q, steps, own) && SendsOnly(steps, sid)
  {
    var far, answer := FarSendOk(p, p.near.store.links[SessionUri(sid)].remoteId, message, own);
    if AppliedResult(p.near.store.ops, op).Some? || answer.Err? {
      q, steps := SendNotTaken(p, sid, message, op, own);
    } else {
      q, steps := SendTaken(p, sid, message, op, far, answer.value, own);
    }
  }

  lemma StepAmounts(p: Pair, step: PairStep, own: bool) returns (q: Pair, steps: seq<FedStep>)
    requires PairInv(p, own) && PairEnabled(p, step) && OwnPairStep(p, step, own)
    ensures q == PairTake(p, step) && Amounts(p, q, steps, own) && Matches(step, steps)
  {
    match step
    case Near(inner) => q, steps := NearAmounts(p, inner, own);
    case Far(inner) =>
      q, steps := FarAmounts(p, inner, own);
      AnswersMatch(step, steps);
    case Synchronise(sid) => q, steps := SyncAmounts(p, sid, own);
    case SendAcross(sid, message, op) =>
      q, steps := SendAmounts(p, sid, message, op, own);
      SendMatches(sid, message, op, steps);
    case CancelAcross(sid, tid, op, agreed, now) =>
      q, steps := CancelAmounts(p, sid, tid, op, agreed, now, own);
      AnswersMatch(step, steps);
    case CreateAcross(op, backend, answer) =>
      q, steps := CreateAmounts(p, op, backend, answer, own);
      AnswersMatch(step, steps);
  }

  ghost predicate AllMatch(steps: seq<PairStep>, fed: seq<FedStep>) {
    && (NearStaysUp(steps) ==> Unrestarted(fed))
    && (forall sid: Id :: NoMessages(steps, sid) ==> AllKeepPlace(fed, sid))
  }

  lemma MatchMore(steps: seq<PairStep>, last: PairStep, fed: seq<FedStep>, more: seq<FedStep>)
    requires AllMatch(steps, fed) && Matches(last, more)
    ensures AllMatch(steps + [last], fed + more)
  {
    var all := steps + [last];
    assert all[|steps|] == last && all[..|steps|] == steps;
    if NearStaysUp(all) {
      assert NearStaysUp(all[..|steps|]);
    }
    forall sid: Id | NoMessages(all, sid) ensures AllKeepPlace(fed + more, sid) {
      assert NoMessages(all[..|steps|], sid) && NoMessage(all[|steps|], sid);
    }
  }

  /** Refinement. Every run of two brokers is a run of the two-broker machine: the far broker's log is
      the remote log, and whatever it does to it is what that machine lets the remote log do. */
  lemma {:induction false} RunsAreFederated(p: Pair, steps: seq<PairStep>, own: bool) returns (q: Pair, fed: seq<FedStep>)
    requires PairInv(p, own) && OwnPairRun(p, steps, own)
    ensures q == PairExec(p, steps) && PairInv(q, own) && q.host == p.host
    ensures FedReaches(View(p), fed, View(q)) && AllMatch(steps, fed)
  {
    q, fed := p, [];
    if steps != [] {
      var front, last := steps[..|steps| - 1], steps[|steps| - 1];
      FrontOwn(p, steps, own);
      var m, before := RunsAreFederated(p, front, own);
      q, fed := OneMoreFederated(p, front, last, m, before, own);
      assert front + [last] == steps;
    } else {
      FedExecReaches(View(p), fed, View(q));
    }
  }

  lemma OneMoreFederated(p: Pair, front: seq<PairStep>, last: PairStep, m: Pair, before: seq<FedStep>, own: bool) returns (q: Pair, fed: seq<FedStep>)
    requires PairInv(m, own) && OwnPairStep(m, last, own)
    requires FedReaches(View(p), before, View(m)) && AllMatch(front, before)
    ensures q == PairNext(m, last) && PairInv(q, own) && q.host == m.host
    ensures FedReaches(View(p), fed, View(q)) && AllMatch(front + [last], fed)
  {
    var more: seq<FedStep>;
    q, more := NextAmounts(m, last, own);
    fed := before + more;
    FedReachesExec(View(p), before, View(m));
    FedExecConcat(View(p), before, more);
    FedExecReaches(View(p), fed, View(q));
    MatchMore(front, last, before, more);
  }

  lemma NextAmounts(m: Pair, last: PairStep, own: bool) returns (q: Pair, more: seq<FedStep>)
    requires PairInv(m, own) && OwnPairStep(m, last, own)
    ensures q == PairNext(m, last) && Amounts(m, q, more, own) && Matches(last, more)
  {
    q, more := m, [];
    if PairEnabled(m, last) { q, more := StepAmounts(m, last, own); }
  }

  lemma FrontOwn(p: Pair, steps: seq<PairStep>, own: bool)
    requires steps != [] && OwnPairRun(p, steps, own)
    ensures OwnPairRun(p, steps[..|steps| - 1], own)
    ensures OwnPairStep(PairExec(p, steps[..|steps| - 1]), steps[|steps| - 1], own)
  {
    var front := steps[..|steps| - 1];
    forall n | 0 <= n < |front| ensures OwnPairStep(PairExec(p, front[..n]), front[n], own) {
      assert front[..n] == steps[..n];
    }
  }

  // ---------------------------------------------------------------- what that means

  /** If every cancellation named the turn's own session, the far log speaks of each linked turn at home. */
  lemma OwnMeansHome(q: Pair, t: Id)
    requires PairInv(q, true) && Wired(q.near.store, q.host, t)
    ensures AtHome(q.near.store, q.host, q.far.store.log, t)
  {
    var s, log := q.near.store, q.far.store.log;
    var sid := s.turns[t].sessionId;
    TurnLinked(View(q), t);
    SessionRemote(View(q), sid);
    assert RemoteLinkOk(s, q.host, log, s.links[TurnUri(t)]);
    var k :| 0 <= k < |log| && log[k].resource == s.links[TurnUri(t)].remoteUri && log[k].parent == Some(s.links[SessionUri(sid)].remoteUri);
    forall i | 0 <= i < |log| && SetsStatus(log[i], s.links[TurnUri(t)].remoteUri)
      ensures log[i].parent == Some(s.links[SessionUri(sid)].remoteUri)
    {
      assert HomedEvent(q.far.store, log[i], true) && HomedEvent(q.far.store, log[k], true);
    }
  }

  /** Convergence of two brokers. From empty stores, without a restart of the near broker, and with every
      cancellation, at either broker, through the turn's own session: a drained session's tracked turns
      have the status of the last status event about them in the far broker's log. */
  lemma BrokersConverge(host: Id, steps: seq<PairStep>, q: Pair, sid: Id, t: Id)
    requires q == PairExec(PairInitial(host), steps) && OwnPairRun(PairInitial(host), steps, true)
    requires NearStaysUp(steps)
    requires Drained(View(q), sid) && t in q.tracked && t in q.near.store.turns && q.near.store.turns[t].sessionId == sid
    ensures TurnUri(t) in q.near.store.links
    ensures q.near.store.turns[t].status ==
            StatusAt(q.far.store.log, q.near.store.links[TurnUri(t)].remoteUri, LastSeq(q.far.store.log))
  {
    PairInitialInv(host, true);
    var r, fed := RunsAreFederated(PairInitial(host), steps, true);
    DrainedTurnsConverge(host, fed, View(q), sid, t);
    OwnMeansHome(q, t);
  }

  lemma TwoStretches(host: Id, before: seq<PairStep>, p: Pair, steps: seq<PairStep>, q: Pair) returns (early: seq<FedStep>, late: seq<FedStep>)
    requires p == PairExec(PairInitial(host), before) && q == PairExec(p, steps)
    ensures FedReaches(FedInitial(host), early, View(p)) && FedReaches(View(p), late, View(q)) && AllMatch(steps, late)
  {
    PairInitialInv(host, false);
    var p0, q0;
    p0, early := RunsAreFederated(PairInitial(host), before, false);
    q0, late := RunsAreFederated(p, steps, false);
  }

  /** Mirroring between two brokers. Whatever either does, and however turns are cancelled: what the near
      log shows of a linked session grows by exactly the translated image of what the session's cursor
      moves over in the far broker's own log, in order and once. */
  lemma BrokersMirror(host: Id, before: seq<PairStep>, p: Pair, steps: seq<PairStep>, q: Pair, sid: Id)
    requires p == PairExec(PairInitial(host), before) && q == PairExec(p, steps)
    requires Linked(p.near.store, host, sid) && NoMessages(steps, sid)
    ensures Linked(q.near.store, host, sid) && CursorOf(p.near.store, sid) <= CursorOf(q.near.store, sid)
    ensures Mirrored(q.near.store.log, host, sid) ==
            Mirrored(p.near.store.log, host, sid) +
            Images(q.near.store.links, host, sid,
                   RemoteView(q.near.store, sid, q.far.store.log, CursorOf(p.near.store, sid), CursorOf(q.near.store, sid)))
  {
    var early, late := TwoStretches(host, before, p, steps, q);
    MirrorRefinesRemoteView(host, early, View(p), late, View(q), sid);
  }
}

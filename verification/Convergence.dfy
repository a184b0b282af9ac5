/** Once a synchronisation has drained the remote log, linked local turns agree with it. */
module Convergence {
  import opened Types
  import opened Vocabulary
  import opened Wrappers
  import opened EventLog
  import opened StoreModel
  import opened BrokerModel
  import opened BrokerInvariants
  import opened BrokerSteps
  import opened BrokerRuns
  import opened Evidence
  import opened Federation
  import opened FedInvariant
  import opened SyncSteps
  import opened FedRuns

  // ---------------------------------------------------------------- what the remote log says

  /** The status of the last completed, failed, cancelled or needs_input event on a turn with a
      number up to `hi`, or Running if there is none. */
  function StatusAt(log: seq<Event>, turn: Uri, hi: int): Status {
    if log == [] then Running
    else
      var e := log[|log| - 1];
      if SetsStatus(e, turn) && e.serverSeq <= hi then Told(e.eventType)
      else StatusAt(log[..|log| - 1], turn, hi)
  }

  ghost predicate Beyond(log: seq<Event>, turn: Uri, cursor: int, i: int) {
    0 <= i < |log| && SetsStatus(log[i], turn) && log[i].serverSeq > cursor
  }

  /** Events that do not set the turn's status in the range between the bounds do not matter. */
  lemma {:induction false} StatusSame(log: seq<Event>, turn: Uri, lo: int, hi: int)
    requires lo <= hi
    requires forall i :: 0 <= i < |log| && SetsStatus(log[i], turn) ==> log[i].serverSeq <= lo || hi < log[i].serverSeq
    ensures StatusAt(log, turn, lo) == StatusAt(log, turn, hi)
  {
    if log != [] { StatusSame(log[..|log| - 1], turn, lo, hi); }
  }

  lemma {:induction false} StatusGrows(log: seq<Event>, more: seq<Event>, turn: Uri, hi: int)
    requires forall i :: 0 <= i < |more| && SetsStatus(more[i], turn) ==> hi < more[i].serverSeq
    ensures StatusAt(log + more, turn, hi) == StatusAt(log, turn, hi)
  {
    if more == [] {
      assert log + more == log;
    } else {
      StatusGrows(log, more[..|more| - 1], turn, hi);
      assert (log + more)[..|log + more| - 1] == log + more[..|more| - 1];
    }
  }

  /** The last status event of the range decides. */
  lemma {:induction false} StatusLast(log: seq<Event>, turn: Uri, i: int)
    requires Ascending(log) && 0 <= i < |log| && SetsStatus(log[i], turn)
    ensures StatusAt(log, turn, log[i].serverSeq) == Told(log[i].eventType)
  {
    if i < |log| - 1 { StatusLast(log[..|log| - 1], turn, i); }
  }

  lemma {:induction false} StatusNone(log: seq<Event>, turn: Uri, hi: int)
    requires forall i :: 0 <= i < |log| ==> !SetsStatus(log[i], turn)
    ensures StatusAt(log, turn, hi) == Running
  {
    if log != [] { StatusNone(log[..|log| - 1], turn, hi); }
  }

  // ---------------------------------------------------------------- the invariant

  /** The turn is linked, and so is its session. */
  predicate Wired(s: State, host: Id, t: Id) {
    && t in s.turns && TurnUri(t) in s.links && s.links[TurnUri(t)].host == host && SessionUri(s.turns[t].sessionId) in s.links
  }

  /** Whatever sets the turn's status in the remote log names the turn's own session. */
  ghost predicate AtHome(s: State, host: Id, remote: seq<Event>, t: Id) {
    && Wired(s, host, t)
    && forall i :: 0 <= i < |remote| && SetsStatus(remote[i], s.links[TurnUri(t)].remoteUri) ==>
         remote[i].parent == Some(s.links[SessionUri(s.turns[t].sessionId)].remoteUri)
  }

  /** A linked turn shows what the remote log says up to its session's cursor, unless there is news
      about it beyond the cursor. */
  ghost predicate Agrees(s: State, host: Id, remote: seq<Event>, t: Id) {
    && Wired(s, host, t)
    && var cursor := s.links[SessionUri(s.turns[t].sessionId)].cursor;
       var turn := s.links[TurnUri(t)].remoteUri;
       s.turns[t].status == StatusAt(remote, turn, cursor) || exists i :: Beyond(remote, turn, cursor, i)
  }

  ghost predicate TurnTracked(f: Fed, t: Id) {
    && Wired(f.local.store, f.host, t)
    && (AtHome(f.local.store, f.host, f.remote, t) ==> Agrees(f.local.store, f.host, f.remote, t))
  }

  ghost predicate Tracked(f: Fed) {
    forall t :: t in f.tracked ==> TurnTracked(f, t)
  }

  /** Wiring never changes. */
  lemma WiredKept(s: State, s': State, host: Id, t: Id)
    requires Wired(s, host, t) && Evolves(s, s')
    ensures Wired(s', host, t) && s'.turns[t].sessionId == s.turns[t].sessionId
    ensures s'.links[TurnUri(t)].remoteUri == s.links[TurnUri(t)].remoteUri
    ensures s'.links[SessionUri(s.turns[t].sessionId)].remoteUri == s.links[SessionUri(s.turns[t].sessionId)].remoteUri
  {
    assert s'.links[TurnUri(t)].(cursor := 0) == s.links[TurnUri(t)].(cursor := 0);
    assert s'.links[SessionUri(s.turns[t].sessionId)].(cursor := 0) == s.links[SessionUri(s.turns[t].sessionId)].(cursor := 0);
  }

  /** A turn at home now was at home before. */
  lemma HomeBefore(f: Fed, g: Fed, t: Id)
    requires Wired(f.local.store, f.host, t) && Evolves(f.local.store, g.local.store) && f.remote <= g.remote && g.host == f.host
    requires AtHome(g.local.store, g.host, g.remote, t)
    ensures AtHome(f.local.store, f.host, f.remote, t)
  {
    WiredKept(f.local.store, g.local.store, f.host, t);
    forall i | 0 <= i < |f.remote| && SetsStatus(f.remote[i], f.local.store.links[TurnUri(t)].remoteUri)
      ensures f.remote[i].parent == Some(f.local.store.links[SessionUri(f.local.store.turns[t].sessionId)].remoteUri)
    {
      assert g.remote[i] == f.remote[i];
    }
  }

  /** Nothing the turn's agreement depends on has moved, except that the remote log may have grown. */
  ghost predicate SameTurn(s: State, s': State, t: Id) {
    && t in s.turns && t in s'.turns && s'.turns[t].status == s.turns[t].status && s'.turns[t].sessionId == s.turns[t].sessionId
    && TurnUri(t) in s.links && TurnUri(t) in s'.links && s'.links[TurnUri(t)].(cursor := 0) == s.links[TurnUri(t)].(cursor := 0)
    && SessionUri(s.turns[t].sessionId) in s.links && SessionUri(s.turns[t].sessionId) in s'.links
    && s'.links[SessionUri(s.turns[t].sessionId)].cursor == s.links[SessionUri(s.turns[t].sessionId)].cursor
  }

  lemma BeyondGrows(remote: seq<Event>, remote': seq<Event>, turn: Uri, cursor: int, i: int)
    requires remote <= remote' && Beyond(remote, turn, cursor, i)
    ensures Beyond(remote', turn, cursor, i)
  {}

  lemma AboveKnown(remote: seq<Event>, remote': seq<Event>, cursor: int, j: int)
    requires LogOk(remote') && remote <= remote' && Numbers(remote, cursor) && |remote| <= j < |remote'|
    ensures cursor < remote'[j].serverSeq
  {
    var i :| 0 <= i < |remote| && remote[i].serverSeq == cursor;
    assert remote'[i] == remote[i];
  }

  lemma AgreesSame(s: State, s': State, host: Id, remote: seq<Event>, remote': seq<Event>, t: Id)
    requires Agrees(s, host, remote, t) && SameTurn(s, s', t) && LogOk(remote') && remote <= remote'
    requires Numbers(remote, s.links[SessionUri(s.turns[t].sessionId)].cursor)
    ensures Agrees(s', host, remote', t)
  {
    var cursor := s.links[SessionUri(s.turns[t].sessionId)].cursor;
    var turn := s.links[TurnUri(t)].remoteUri;
    var more := remote'[|remote|..];
    assert remote' == remote + more;
    assert s'.links[TurnUri(t)].(cursor := 0).remoteUri == turn && s'.links[TurnUri(t)].(cursor := 0).host == host;
    forall j | 0 <= j < |more| ensures cursor < more[j].serverSeq {
      AboveKnown(remote, remote', cursor, |remote| + j);
    }
    StatusGrows(remote, more, turn, cursor);
    if i :| Beyond(remote, turn, cursor, i) { BeyondGrows(remote, remote', turn, cursor, i); }
  }

  /** A status event of a turn at home lies in the view of the session the turn belongs to. */
  lemma TurnInView(f: Fed, t: Id, j: int)
    requires FedInv(f) && AtHome(f.local.store, f.host, f.remote, t)
    requires 0 <= j < |f.remote| && SetsStatus(f.remote[j], f.local.store.links[TurnUri(t)].remoteUri)
    ensures var s := f.local.store;
            var sid := s.turns[t].sessionId;
            && Linked(s, f.host, sid) && s.links[SessionUri(sid)].remoteUri == SessionUri(s.links[SessionUri(sid)].remoteId)
            && f.remote[j].parent == Some(s.links[SessionUri(sid)].remoteUri)
  {
    TurnLinked(f, t);
    SessionRemote(f, f.local.store.turns[t].sessionId);
  }

  lemma TurnLinked(f: Fed, t: Id)
    requires FedInv(f) && t in f.local.store.turns && TurnUri(t) in f.local.store.links && f.local.store.links[TurnUri(t)].host == f.host
    ensures var s := f.local.store;
            var link := s.links[TurnUri(t)];
            && link.kind == TurnLink && link.localId == t && link.remoteUri == TurnUri(link.remoteId)
            && Linked(s, f.host, s.turns[t].sessionId) && Numbers(f.remote, s.links[SessionUri(s.turns[t].sessionId)].cursor)
  {
    var link := f.local.store.links[TurnUri(t)];
    assert RemoteLinkOk(f.local.store, f.host, f.remote, link) && LinkShape(f.local.store, link);
    SessionRemote(f, f.local.store.turns[t].sessionId);
  }

  // ---------------------------------------------------------------- local steps

  lemma FinalizeOthers(s: State, sid: Id, backend: Id, tid: Id, turn: BackendTurn, latest: int, t: Id)
    requires t != tid && t in s.turns
    ensures var s' := Finalize(s, sid, backend, tid, turn, latest); t in s'.turns && s'.turns[t] == s.turns[t]
  {
    FinishedFrame(s, sid, backend, tid, turn);
  }

  lemma CancelOthers(s: State, sid: Id, tid: Id, op: Option<Id>, agreed: bool, now: nat, t: Id)
    requires t in s.turns && (t != tid || (TurnUri(tid) in s.links && !agreed))
    ensures var s' := CancelTurn(s, sid, tid, op, agreed, now).0; t in s'.turns && s'.turns[t] == s.turns[t]
  {
    WithdrawFrame(s, tid, CANCEL_REASON, now);
    if TurnUri(tid) in s.links {
      var (s0, key) := OperationKey(s, op);
      WithdrawFrame(s0.(ops := RecordPending(s0.ops, key, s.links[TurnUri(tid)].host, OpCancelTurn)), tid, CANCEL_REASON, now);
    }
  }

  lemma OpenTurnOthers(s: State, sid: Id, message: string, origin: Origin, t: Id)
    requires t in s.turns && t < s.nextId
    ensures var s' := OpenTurn(s, sid, message, origin); t in s'.turns && s'.turns[t] == s.turns[t]
  {}

  lemma ForwardOthers(s: State, sid: Id, host: Id, message: string, key: OpKey, answer: Result<RemoteTurn>, t: Id)
    requires t in s.turns && t < s.nextId
    ensures var s' := ForwardTurn(s, sid, host, message, key, answer).0; t in s'.turns && s'.turns[t] == s.turns[t]
  {
    var s1 := OpenTurn(s, sid, message, FromRemoteBroker);
    OpenTurnOthers(s, sid, message, FromRemoteBroker, t);
    DegradeFrame(s1, sid, s.nextId);
    UpdateTurnFrame(s1, s.nextId, None, Degraded, true);
  }

  lemma SendOthers(s: State, sid: Id, message: string, op: Option<Id>, answer: Result<RemoteTurn>, t: Id)
    requires t in s.turns && t < s.nextId
    ensures var s' := SendMessage(s, sid, message, op, answer).0; t in s'.turns && s'.turns[t] == s.turns[t]
  {
    OpenTurnOthers(s, sid, message, FromBroker, t);
    if SessionUri(sid) in s.links {
      var host := s.links[SessionUri(sid)].host;
      var (s0, key) := OperationKey(s, op);
      ForwardOthers(s0.(ops := RecordPending(s0.ops, key, host, OpSendMessage)), sid, host, message, key, answer, t);
    }
  }

  lemma FailOthers(s: State, sid: Id, backend: Id, tid: Id, summary: string, t: Id)
    requires t != tid && t in s.turns
    ensures var s' := FailTurn(s, sid, backend, tid, summary); t in s'.turns && s'.turns[t] == s.turns[t]
  {}

  lemma TaskUnlinked(y: Sys, tid: Id, t: Id)
    requires SysInv(y) && tid in y.tasks && TurnUri(t) in y.store.links
    ensures t != tid
  {}

  lemma TaskStatusKept(y: Sys, step: Step, t: Id)
    requires Enabled(y, step) && (step.DoFinalize? || step.DoFail?) && t in y.store.turns && t != step.tid
    ensures var s' := Take(y, step).store; t in s'.turns && s'.turns[t].status == y.store.turns[t].status
  {
    var s := y.store;
    match step
    case DoFinalize(tid, finished) => FinalizeOthers(s, y.tasks[tid].sessionId, y.tasks[tid].backend, tid, finished, y.tasks[tid].latest, t);
    case DoFail(tid, summary) => FailOthers(s, y.tasks[tid].sessionId, y.tasks[tid].backend, tid, summary, t);
  }

  lemma QuietStatusKept(y: Sys, step: Step, t: Id)
    requires SysInv(y) && Enabled(y, step) && !SetsTurnStatus(step) && t in y.store.turns
    ensures var s' := Take(y, step).store; t in s'.turns && s'.turns[t].status == y.store.turns[t].status
  {
    StepGood(y, step);
    QuietTurns(y, step);
  }

  lemma OperationStatusKept(y: Sys, step: Step, t: Id)
    requires StoreInv(y.store) && Enabled(y, step) && StaysLocal(y.store, step) && (step.DoSend? || step.DoCancel?)
    requires t in y.store.turns && TurnUri(t) in y.store.links
    ensures var s' := Take(y, step).store; t in s'.turns && s'.turns[t].status == y.store.turns[t].status
  {
    var s := y.store;
    match step
    case DoSend(sid, message, op, answer) => SendOthers(s, sid, message, op, answer, t);
    case DoCancel(sid, tid, op, agreed, now) => CancelOthers(s, sid, tid, op, agreed, now, t);
  }

  /** What the local broker does on its own never changes the status of a linked turn. */
  lemma LinkedStatusKept(y: Sys, step: Step, t: Id)
    requires SysInv(y) && Enabled(y, step) && StaysLocal(y.store, step) && !step.DoInterrupt?
    requires t in y.store.turns && TurnUri(t) in y.store.links
    ensures var s' := Take(y, step).store; t in s'.turns && s'.turns[t].status == y.store.turns[t].status
  {
    if step.DoSend? || step.DoCancel? {
      OperationStatusKept(y, step, t);
    } else if step.DoFinalize? || step.DoFail? {
      TaskUnlinked(y, step.tid, t);
      TaskStatusKept(y, step, t);
    } else {
      QuietStatusKept(y, step, t);
    }
  }

  ghost predicate StillAgrees(f: Fed, g: Fed, t: Id) {
    g.tracked == f.tracked && Agrees(g.local.store, g.host, g.remote, t)
  }

  lemma LocalAgrees(f: Fed, step: Step, t: Id)
    requires FedInv(f) && FedEnabled(f, Local(step)) && !step.DoInterrupt? && Agrees(f.local.store, f.host, f.remote, t)
    ensures StillAgrees(f, FedTake(f, Local(step)), t)
  {
    LinkedStatusKept(f.local, step, t);
    LocalLinks(f.local, step);
    StepGood(f.local, step);
    TurnLinked(f, t);
    AgreesSame(f.local.store, Take(f.local, step).store, f.host, f.remote, f.remote, t);
  }

  // ---------------------------------------------------------------- pulls

  predicate Concerns(link: Option<Link>, t: Id) {
    link.Some? && link.value.kind == TurnLink && link.value.localId == t
  }

  /** Mirroring changes the status only of the turn the event is about. */
  lemma MirrorStatus(s: State, host: Id, sid: Id, e: Event, cursor: int, t: Id)
    requires t in s.turns && t < s.nextId && Mirror(s, host, sid, e).1.Ok?
    ensures var s' := PullStore(s, host, sid, e);
            && t in s'.turns && s'.turns[t].sessionId == s.turns[t].sessionId
            && s'.turns[t].status ==
               if Concerns(ByRemote(s.links, host, e.resource), t) && Tells(e.eventType) then Told(e.eventType) else s.turns[t].status
  {
    if e.eventType != RequestCreated {
      var r := ByRemote(s.links, host, e.resource);
      var p := RemoteParent(s.links, host, e);
      var s1 := Append(s, UriOr(r, SessionUri(sid)), Some(UriOr(p, SessionUri(sid))), e.eventType, FromRemote(host), e.payload);
      if r.Some? && r.value.kind == TurnLink && MirroredStatus(e.eventType).Some? {
        ApplyMirroredFrame(s1, sid, r.value, e.eventType);
        UpdateTurnFrame(s1, r.value.localId, Some(r.value.remoteId), MirroredStatus(e.eventType).value.0, true);
      }
    }
  }

  lemma ConcernsIs(f: Fed, e: Event, t: Id)
    requires FedInv(f) && t in f.local.store.turns && TurnUri(t) in f.local.store.links && f.local.store.links[TurnUri(t)].host == f.host
    ensures Concerns(ByRemote(f.local.store.links, f.host, e.resource), t) <==> e.resource == f.local.store.links[TurnUri(t)].remoteUri
  {
    var s := f.local.store;
    TurnLinked(f, t);
    ByRemoteRow(s.links, f.host, e.resource);
    if e.resource == s.links[TurnUri(t)].remoteUri {
      ByRemoteIs(s.links, f.host, e.resource, TurnUri(t));
    } else if ByRemote(s.links, f.host, e.resource).Some? {
      assert LinkShape(s, ByRemote(s.links, f.host, e.resource).value);
    }
  }

  /** A pull for the turn's own session. */
  lemma OwnPullAgrees(f: Fed, t: Id, i: int)
    requires FedInv(f) && Agrees(f.local.store, f.host, f.remote, t) && AtHome(f.local.store, f.host, f.remote, t)
    requires Linked(f.local.store, f.host, f.local.store.turns[t].sessionId) && IsNext(f.local.store, f.local.store.turns[t].sessionId, f.remote, i)
    ensures Agrees(PullStore(f.local.store, f.host, f.local.store.turns[t].sessionId, f.remote[i]), f.host, f.remote, t)
  {
    var s, e := f.local.store, f.remote[i];
    var sid := s.turns[t].sessionId;
    var s' := PullStore(s, f.host, sid, e);
    var cursor, turn := s.links[SessionUri(sid)].cursor, s.links[TurnUri(t)].remoteUri;
    PullSucceeds(f, sid, i);
    PullMoved(f, sid, i);
    MirrorStatus(s, f.host, sid, e, cursor, t);
    ConcernsIs(f, e, t);
    SessionRemote(f, sid);
    forall j | 0 <= j < |f.remote| && SetsStatus(f.remote[j], turn) ensures f.remote[j].serverSeq <= cursor || e.serverSeq <= f.remote[j].serverSeq {
      TurnInView(f, t, j);
    }
    if SetsStatus(e, turn) {
      StatusLast(f.remote, turn, i);
    } else {
      SkippedOver(f.remote, turn, cursor, i);
    }
  }

  /** Passing an event that does not set the turn's status changes neither the status nor the news. */
  lemma SkippedOver(remote: seq<Event>, turn: Uri, cursor: int, i: int)
    requires Ascending(remote) && 0 <= i < |remote| && cursor < remote[i].serverSeq && !SetsStatus(remote[i], turn)
    requires forall j :: 0 <= j < |remote| && SetsStatus(remote[j], turn) ==> remote[j].serverSeq <= cursor || remote[i].serverSeq <= remote[j].serverSeq
    ensures StatusAt(remote, turn, remote[i].serverSeq) == StatusAt(remote, turn, cursor)
    ensures forall k :: Beyond(remote, turn, cursor, k) ==> Beyond(remote, turn, remote[i].serverSeq, k)
  {
    forall j | 0 <= j < |remote| && SetsStatus(remote[j], turn) ensures remote[j].serverSeq <= cursor || remote[i].serverSeq < remote[j].serverSeq {
      assert j != i;
      if j < i { assert remote[j].serverSeq < remote[i].serverSeq; } else { assert remote[i].serverSeq < remote[j].serverSeq; }
    }
    StatusSame(remote, turn, cursor, remote[i].serverSeq);
  }

  /** A pull for another session. */
  lemma OtherPullAgrees(f: Fed, pulled: Id, t: Id, i: int)
    requires FedInv(f) && Agrees(f.local.store, f.host, f.remote, t) && AtHome(f.local.store, f.host, f.remote, t)
    requires pulled != f.local.store.turns[t].sessionId
    requires Linked(f.local.store, f.host, pulled) && IsNext(f.local.store, pulled, f.remote, i)
    ensures Agrees(PullStore(f.local.store, f.host, pulled, f.remote[i]), f.host, f.remote, t)
  {
    var s, e := f.local.store, f.remote[i];
    PullSucceeds(f, pulled, i);
    PullMoved(f, pulled, i);
    MirrorStatus(s, f.host, pulled, e, 0, t);
    ConcernsIs(f, e, t);
    TurnLinked(f, t);
    NotOfOther(f, pulled, t, i);
    AgreesSame(s, PullStore(s, f.host, pulled, e), f.host, f.remote, f.remote, t);
  }

  lemma NotOfOther(f: Fed, pulled: Id, t: Id, i: int)
    requires FedInv(f) && Agrees(f.local.store, f.host, f.remote, t) && AtHome(f.local.store, f.host, f.remote, t)
    requires pulled != f.local.store.turns[t].sessionId
    requires Linked(f.local.store, f.host, pulled) && IsNext(f.local.store, pulled, f.remote, i)
    ensures !SetsStatus(f.remote[i], f.local.store.links[TurnUri(t)].remoteUri)
  {
    SessionRemote(f, pulled);
    TurnLinked(f, t);
    if SetsStatus(f.remote[i], f.local.store.links[TurnUri(t)].remoteUri) {
      TurnInView(f, t, i);
    }
  }

  // ---------------------------------------------------------------- forwarding

  /** The new turn is running and the remote log has nothing on it but its opening. */
  lemma NewTurnAgrees(f: Fed, g: Fed, sid: Id, turn: Id, message: string, tid: Id)
    requires Sent(f, g, sid, turn, message, tid) && Unused(f.remote, TurnUri(turn))
    ensures Agrees(g.local.store, g.host, g.remote, tid)
  {
    StatusNone(g.remote, TurnUri(turn), LastSeq(g.remote));
  }

  /** A turn of another session. */
  lemma OtherSendAgrees(f: Fed, g: Fed, sid: Id, turn: Id, message: string, tid: Id, t: Id)
    requires FedInv(f) && Sent(f, g, sid, turn, message, tid) && LogOk(g.remote)
    requires Agrees(f.local.store, f.host, f.remote, t) && f.local.store.turns[t].sessionId != sid
    ensures Agrees(g.local.store, g.host, g.remote, t)
  {
    TurnLinked(f, t);
    AgreesSame(f.local.store, g.local.store, f.host, f.remote, g.remote, t);
  }

  /** An older turn of the session, when the session was drained: the cursor jumps over nothing that concerns it. */
  lemma DrainedJumpAgrees(f: Fed, sid: Id, opening: seq<Event>, t: Id, s': State)
    requires FedInv(f) && Drained(f, sid) && Agrees(f.local.store, f.host, f.remote, t) && AtHome(f.local.store, f.host, f.remote, t)
    requires f.local.store.turns[t].sessionId == sid
    requires t in s'.turns && s'.turns[t] == f.local.store.turns[t]
    requires Moved(f.local.store.links, s'.links, SessionUri(sid), LastSeq(f.remote + opening))
    requires CursorIn(f.local.store, sid) <= LastSeq(f.remote + opening)
    requires forall i :: 0 <= i < |opening| ==> !SetsStatus(opening[i], f.local.store.links[TurnUri(t)].remoteUri)
    ensures Agrees(s', f.host, f.remote + opening, t)
  {
    var s := f.local.store;
    DrainedNoNews(f, sid, t);
    JumpedStatus(f.remote, opening, s.links[TurnUri(t)].remoteUri, CursorIn(s, sid), LastSeq(f.remote + opening));
    assert s'.links[TurnUri(t)] == s.links[TurnUri(t)];
  }

  function CursorIn(s: State, sid: Id): int
    requires SessionUri(sid) in s.links
  {
    s.links[SessionUri(sid)].cursor
  }

  lemma DrainedSendAgrees(f: Fed, g: Fed, sid: Id, turn: Id, message: string, tid: Id, t: Id)
    requires FedInv(f) && Sent(f, g, sid, turn, message, tid) && Drained(f, sid)
    requires Agrees(f.local.store, f.host, f.remote, t) && AtHome(f.local.store, f.host, f.remote, t) && f.local.store.turns[t].sessionId == sid
    ensures Agrees(g.local.store, g.host, g.remote, t)
  {
    SentMoved(f, g, sid, turn, message, tid);
    DrainedJumpAgrees(f, sid, RemoteOpening(f.remote, f.local.store.links[SessionUri(sid)].remoteId, turn, message), t, g.local.store);
  }

  lemma JumpedStatus(remote: seq<Event>, opening: seq<Event>, uri: Uri, cursor: int, target: int)
    requires cursor <= target && forall i :: 0 <= i < |opening| ==> !SetsStatus(opening[i], uri)
    requires forall j :: 0 <= j < |remote| && SetsStatus(remote[j], uri) ==> remote[j].serverSeq <= cursor
    ensures StatusAt(remote + opening, uri, target) == StatusAt(remote, uri, cursor)
  {
    StatusGrows(remote, opening, uri, target);
    StatusSame(remote, uri, cursor, target);
  }

  lemma DrainedNoNews(f: Fed, sid: Id, t: Id)
    requires FedInv(f) && Drained(f, sid) && Agrees(f.local.store, f.host, f.remote, t) && AtHome(f.local.store, f.host, f.remote, t)
    requires f.local.store.turns[t].sessionId == sid
    ensures var s := f.local.store;
            var cursor, uri := s.links[SessionUri(sid)].cursor, s.links[TurnUri(t)].remoteUri;
            && (forall j :: 0 <= j < |f.remote| && SetsStatus(f.remote[j], uri) ==> f.remote[j].serverSeq <= cursor)
            && s.turns[t].status == StatusAt(f.remote, uri, cursor)
  {
    var s := f.local.store;
    var cursor, uri := s.links[SessionUri(sid)].cursor, s.links[TurnUri(t)].remoteUri;
    forall j | 0 <= j < |f.remote| && SetsStatus(f.remote[j], uri) ensures f.remote[j].serverSeq <= cursor {
      TurnInView(f, t, j);
      AheadEmpty(s, sid, f.remote, j);
    }
  }

  /** An older turn, after a message on any session: if it stays tracked it still agrees. */
  lemma OldTurnAgrees(f: Fed, g: Fed, sid: Id, turn: Id, message: string, tid: Id, t: Id)
    requires FedInv(f) && Sent(f, g, sid, turn, message, tid) && LogOk(g.remote) && Agrees(f.local.store, f.host, f.remote, t)
    requires AtHome(f.local.store, f.host, f.remote, t) && (f.local.store.turns[t].sessionId == sid ==> Drained(f, sid))
    ensures Agrees(g.local.store, g.host, g.remote, t)
  {
    if f.local.store.turns[t].sessionId == sid {
      DrainedSendAgrees(f, g, sid, turn, message, tid, t);
    } else {
      OtherSendAgrees(f, g, sid, turn, message, tid, t);
    }
  }

  lemma SendAgrees(f: Fed, g: Fed, sid: Id, turn: Id, message: string, tid: Id)
    requires FedInv(f) && Sent(f, g, sid, turn, message, tid) && Unused(f.remote, TurnUri(turn)) && LogOk(g.remote) && Tracked(f)
    requires Evolves(f.local.store, g.local.store)
    requires g.tracked == TrackedAfterSend(f, sid, tid)
    ensures Tracked(g)
  {
    NewTurnAgrees(f, g, sid, turn, message, tid);
    forall t | t in g.tracked ensures TurnTracked(g, t) {
      if t != tid {
        assert TurnTracked(f, t);
        WiredKept(f.local.store, g.local.store, f.host, t);
        if AtHome(g.local.store, g.host, g.remote, t) {
          HomeBefore(f, g, t);
          OldTurnAgrees(f, g, sid, turn, message, tid, t);
        }
      }
    }
  }

  /** The cancelled turn itself: the remote broker has logged the cancellation beyond the cursor. */
  lemma CancelledAgrees(f: Fed, tid: Id, session: Id, events: seq<Event>, s': State)
    requires FedInv(f) && Agrees(f.local.store, f.host, f.remote, tid) && LogOk(f.remote + events)
    requires CancelsTurn(events, session, f.local.store.links[TurnUri(tid)].remoteId)
    requires Evolves(f.local.store, s') && s'.links == f.local.store.links
    ensures Agrees(s', f.host, f.remote + events, tid)
  {
    var s := f.local.store;
    TurnLinked(f, tid);
    var i :| 0 <= i < |events| && Cancellation(events[i], session, s.links[TurnUri(tid)].remoteId);
    var remote' := f.remote + events;
    assert remote'[|f.remote| + i] == events[i];
    AboveKnown(f.remote, remote', s.links[SessionUri(s.turns[tid].sessionId)].cursor, |f.remote| + i);
    NewsAgrees(s, s', f.host, f.remote, remote', tid, |f.remote| + i);
  }

  lemma NewsAgrees(s: State, s': State, host: Id, remote: seq<Event>, remote': seq<Event>, t: Id, i: int)
    requires Agrees(s, host, remote, t) && Evolves(s, s') && s'.links == s.links
    requires Beyond(remote', s.links[TurnUri(t)].remoteUri, s.links[SessionUri(s.turns[t].sessionId)].cursor, i)
    ensures Agrees(s', host, remote', t)
  {}

  lemma CancelAgrees(f: Fed, sid: Id, tid: Id, op: Option<Id>, now: nat, events: seq<Event>, t: Id)
    requires FedInv(f) && FedEnabled(f, ForwardCancel(sid, tid, op, now, events)) && Agrees(f.local.store, f.host, f.remote, t)
    ensures StillAgrees(f, FedTake(f, ForwardCancel(sid, tid, op, now, events)), t)
  {
    var s' := CancelTurn(f.local.store, sid, tid, op, true, now).0;
    if t == tid { OwnCancelAgrees(f, sid, tid, op, now, events); } else { OtherCancelAgrees(f, sid, tid, op, now, events, t); }
    CancelTaken(f, sid, tid, op, now, events, s');
  }

  lemma CancelTaken(f: Fed, sid: Id, tid: Id, op: Option<Id>, now: nat, events: seq<Event>, s': State)
    requires FedEnabled(f, ForwardCancel(sid, tid, op, now, events)) && s' == CancelTurn(f.local.store, sid, tid, op, true, now).0
    ensures var g := FedTake(f, ForwardCancel(sid, tid, op, now, events));
            g.local.store == s' && g.host == f.host && g.remote == f.remote + events && g.tracked == f.tracked
  {}

  lemma OwnCancelAgrees(f: Fed, sid: Id, tid: Id, op: Option<Id>, now: nat, events: seq<Event>)
    requires FedInv(f) && FedEnabled(f, ForwardCancel(sid, tid, op, now, events)) && Agrees(f.local.store, f.host, f.remote, tid)
    ensures Agrees(CancelTurn(f.local.store, sid, tid, op, true, now).0, f.host, f.remote + events, tid)
  {
    CancelLinks(f.local.store, sid, tid, op, true, now);
    CancelEvolves(f.local.store, sid, tid, op, now);
    CancelledAgrees(f, tid, f.local.store.links[SessionUri(sid)].remoteId, events, CancelTurn(f.local.store, sid, tid, op, true, now).0);
  }

  lemma CancelEvolves(s: State, sid: Id, tid: Id, op: Option<Id>, now: nat)
    requires StoreInv(s)
    ensures Evolves(s, CancelTurn(s, sid, tid, op, true, now).0)
  {
    CancelTurnGood(s, sid, tid, op, true, now);
  }

  lemma OtherCancelAgrees(f: Fed, sid: Id, tid: Id, op: Option<Id>, now: nat, events: seq<Event>, t: Id)
    requires FedInv(f) && FedEnabled(f, ForwardCancel(sid, tid, op, now, events)) && Agrees(f.local.store, f.host, f.remote, t) && t != tid
    ensures Agrees(CancelTurn(f.local.store, sid, tid, op, true, now).0, f.host, f.remote + events, t)
  {
    var s := f.local.store;
    CancelLinks(s, sid, tid, op, true, now);
    CancelOthers(s, sid, tid, op, true, now, t);
    TurnLinked(f, t);
    AgreesSame(s, CancelTurn(s, sid, tid, op, true, now).0, f.host, f.remote, f.remote + events, t);
  }

  lemma CreateAgrees(f: Fed, g: Fed, session: Id, backend: Id, t: Id)
    requires FedInv(f) && Created(f, g, session, backend) && LogOk(g.remote) && Agrees(f.local.store, f.host, f.remote, t)
    ensures Agrees(g.local.store, g.host, g.remote, t)
  {
    TurnLinked(f, t);
    AgreesSame(f.local.store, g.local.store, f.host, f.remote, g.remote, t);
  }

  // ---------------------------------------------------------------- runs

  /** No restart of the local broker: recovery fails running turns, linked ones included. */
  predicate NoRestart(step: FedStep) {
    !(step.Local? && step.step.DoInterrupt?)
  }

  lemma SameTracked(f: Fed, step: FedStep)
    requires FedEnabled(f, step) && !step.ForwardSend?
    ensures FedTake(f, step).tracked == f.tracked
  {}

  lemma StepTracks(f: Fed, step: FedStep)
    requires FedInv(f) && FedEnabled(f, step) && !step.Sync? && NoRestart(step) && Tracked(f)
    ensures Tracked(FedTake(f, step))
  {
    var g := FedTake(f, step);
    if step.ForwardSend? {
      var h, tid := SendIs(f, step.sid, step.message, step.op, step.remoteTurn);
      SentSys(f, h, step.sid, step.message, step.op, step.remoteTurn, tid);
      SendAgrees(f, h, step.sid, step.remoteTurn, step.message, tid);
    } else {
      StepAdvances(f, step);
      StepEvolves(f, step);
      SameTracked(f, step);
      forall t | t in g.tracked ensures TurnTracked(g, t) {
        assert TurnTracked(f, t);
        WiredKept(f.local.store, g.local.store, f.host, t);
        if AtHome(g.local.store, g.host, g.remote, t) {
          HomeBefore(f, g, t);
          OtherStepAgrees(f, step, t);
        }
      }
    }
  }

  lemma PullAgrees(f: Fed, sid: Id, t: Id)
    requires FedInv(f) && FedEnabled(f, Pull(sid)) && Agrees(f.local.store, f.host, f.remote, t) && AtHome(f.local.store, f.host, f.remote, t)
    ensures StillAgrees(f, FedTake(f, Pull(sid)), t)
  {
    var i := AheadFirst(f.local.store, sid, f.remote);
    if sid == f.local.store.turns[t].sessionId { OwnPullAgrees(f, t, i); } else { OtherPullAgrees(f, sid, t, i); }
  }

  lemma GrowthAgrees(f: Fed, events: seq<Event>, t: Id)
    requires FedInv(f) && RemoteLogOk(f.remote + events) && Agrees(f.local.store, f.host, f.remote, t)
    ensures StillAgrees(f, FedTake(f, RemoteGrows(events)), t)
  {
    TurnLinked(f, t);
    AgreesSame(f.local.store, f.local.store, f.host, f.remote, f.remote + events, t);
  }

  lemma OtherStepAgrees(f: Fed, step: FedStep, t: Id)
    requires FedInv(f) && FedEnabled(f, step) && !step.Sync? && !step.ForwardSend? && NoRestart(step)
    requires Agrees(f.local.store, f.host, f.remote, t) && AtHome(f.local.store, f.host, f.remote, t)
    ensures StillAgrees(f, FedTake(f, step), t)
  {
    match step
    case Local(inner) => LocalAgrees(f, inner, t);
    case RemoteGrows(events) => GrowthAgrees(f, events, t);
    case Pull(sid) => PullAgrees(f, sid, t);
    case ForwardCancel(sid, tid, op, now, events) => CancelAgrees(f, sid, tid, op, now, events, t);
    case ForwardCreate(op, session, backend, status) => CreationAgrees(f, op, session, backend, status, t);
  }

  lemma CreationAgrees(f: Fed, op: Option<Id>, session: Id, backend: Id, status: Status, t: Id)
    requires FedInv(f) && FedEnabled(f, ForwardCreate(op, session, backend, status)) && Agrees(f.local.store, f.host, f.remote, t)
    ensures StillAgrees(f, FedTake(f, ForwardCreate(op, session, backend, status)), t)
  {
    var g := CreateIs(f, op, session, backend, status);
    CreateAgrees(f, g, session, backend, t);
  }

  lemma {:induction false} RunTracks(f: Fed, steps: seq<FedStep>) returns (g: Fed)
    requires FedInv(f) && Tracked(f) && SyncFree(steps) && forall i :: 0 <= i < |steps| ==> NoRestart(steps[i])
    ensures g == FedExec(f, steps) && FedInv(g) && Tracked(g)
  {
    g := f;
    if steps != [] {
      var m := RunTracks(f, steps[..|steps| - 1]);
      var last := steps[|steps| - 1];
      g := m;
      if FedEnabled(m, last) {
        StepTracks(m, last);
        g := FedStepInv(m, last);
      }
    }
  }

  predicate Unrestarted(steps: seq<FedStep>) {
    forall i :: 0 <= i < |steps| ==> NoRestart(steps[i])
  }

  lemma RunKeepsTracked(f: Fed, steps: seq<FedStep>) returns (g: Fed)
    requires FedInv(f) && Tracked(f) && Unrestarted(steps)
    ensures g == FedExec(f, steps) && FedInv(g) && Tracked(g)
  {
    var g0, expanded := RunsArePulls(f, steps);
    forall i | 0 <= i < |expanded| ensures NoRestart(expanded[i]) {
      assert From(expanded[i], steps);
    }
    g := RunTracks(f, expanded);
  }

  lemma ReachedTracked(host: Id, steps: seq<FedStep>, g: Fed)
    requires FedReaches(FedInitial(host), steps, g) && Unrestarted(steps)
    ensures FedInv(g) && g.host == host && Tracked(g)
  {
    ReachedInv(host, steps, g);
    FedInitialInv(host);
    FedReachesExec(FedInitial(host), steps, g);
    var g0 := RunKeepsTracked(FedInitial(host), steps);
  }

  /** The turn has the status of the last status event about it in the whole remote log. */
  predicate Converged(g: Fed, t: Id)
    requires Wired(g.local.store, g.host, t)
  {
    g.local.store.turns[t].status == StatusAt(g.remote, g.local.store.links[TurnUri(t)].remoteUri, LastSeq(g.remote))
  }

  /** Convergence. In every run of the two brokers without a local restart, whenever a session is
      drained, each tracked turn of it that the remote log speaks of under its own session has the
      status of the last completed, failed, cancelled or needs_input event about it in the whole remote
      log, or Running if there is none, whatever mix of remote progress, syncs and local cancellations
      led there. */
  lemma DrainedTurnsConverge(host: Id, steps: seq<FedStep>, g: Fed, sid: Id, t: Id)
    requires FedReaches(FedInitial(host), steps, g) && Unrestarted(steps)
    requires Drained(g, sid) && t in g.tracked && t in g.local.store.turns && g.local.store.turns[t].sessionId == sid
    ensures Wired(g.local.store, host, t)
    ensures AtHome(g.local.store, host, g.remote, t) ==>
              g.local.store.turns[t].status == StatusAt(g.remote, g.local.store.links[TurnUri(t)].remoteUri, LastSeq(g.remote))
  {
    ReachedTracked(host, steps, g);
    assert TurnTracked(g, t);
    if AtHome(g.local.store, host, g.remote, t) { DrainedStatus(g, sid, t); }
  }

  lemma DrainedStatus(g: Fed, sid: Id, t: Id)
    requires FedInv(g) && Drained(g, sid) && Agrees(g.local.store, g.host, g.remote, t) && AtHome(g.local.store, g.host, g.remote, t)
    requires g.local.store.turns[t].sessionId == sid
    ensures g.local.store.turns[t].status == StatusAt(g.remote, g.local.store.links[TurnUri(t)].remoteUri, LastSeq(g.remote))
  {
    var s := g.local.store;
    DrainedNoNews(g, sid, t);
    SessionRemote(g, sid);
    NumbersLast(g.remote, s.links[SessionUri(sid)].cursor);
    StatusSame(g.remote, s.links[TurnUri(t)].remoteUri, s.links[SessionUri(sid)].cursor, LastSeq(g.remote));
  }

  lemma NumbersLast(log: seq<Event>, cursor: int)
    requires LogOk(log) && Numbers(log, cursor)
    ensures cursor <= LastSeq(log)
  {}

  /** Which turns those are: a forwarded turn is tracked from its send on, and only a later send on
      its own session, made while that session is not drained, stops it being tracked. */
  lemma TrackedSince(host: Id, before: seq<FedStep>, f: Fed, step: FedStep, t: Id)
    requires FedReaches(FedInitial(host), before, f) && FedEnabled(f, step)
    ensures step.ForwardSend? ==> OperationKey(f.local.store, step.op).0.nextId in FedNext(f, step).tracked
    ensures t in f.tracked && t in f.local.store.turns && t !in FedNext(f, step).tracked ==>
              step.ForwardSend? && f.local.store.turns[t].sessionId == step.sid && !Drained(f, step.sid)
  {
    ReachedInv(host, before, f);
    if step.ForwardSend? { var g, tid := SendIs(f, step.sid, step.message, step.op, step.remoteTurn); }
  }
}

/** Restart recovery as a run: what recovery does to the store, from any reachable state, is what steps
    of the broker's machine do, so everything proved of reachable states holds after recovery too. */
module RecoveryRuns {
  import opened Types
  import opened Wrappers
  import opened EventLog
  import opened StoreModel
  import opened BrokerModel
  import opened BrokerInvariants
  import opened BrokerSteps
  import opened BrokerRuns
  import opened SqlStore
  import opened Recovery

  // ---------------------------------------------------------------- runs of recovery steps

  predicate Recovering(step: Step) {
    step.DoReattached? || step.DoResumeFailed? || step.DoReattach? || step.DoSink? || step.DoFinalize? || step.DoInterrupt?
  }

  ghost predicate Ran(y: Sys, steps: seq<Step>, z: Sys) {
    z == Exec(y, steps) && forall i :: 0 <= i < |steps| ==> Recovering(steps[i])
  }

  lemma RanThen(y: Sys, a: seq<Step>, m: Sys, b: seq<Step>, z: Sys)
    requires Ran(y, a, m) && Ran(m, b, z)
    ensures Ran(y, a + b, z)
  {
    ExecConcat(y, a, b);
  }

  lemma RanNothing(y: Sys)
    ensures Ran(y, [], y)
  {}

  lemma RanMore(y: Sys, steps: seq<Step>, m: Sys, step: Step) returns (more: seq<Step>, z: Sys)
    requires Ran(y, steps, m) && Enabled(m, step) && Recovering(step)
    ensures z == Take(m, step) && Ran(y, more, z)
  {
    more, z := steps + [step], Take(m, step);
    assert more[..|more| - 1] == steps;
  }

  /** Sessions keep their backends, and those that had a backend session still have one. */
  ghost predicate SameBackends(s: State, s': State) {
    forall k :: k in s.sessions ==>
      k in s'.sessions && s'.sessions[k].backend == s.sessions[k].backend && s'.sessions[k].backendSessionId == s.sessions[k].backendSessionId
  }

  lemma StepSame(y: Sys, step: Step)
    requires Enabled(y, step) && Recovering(step)
    ensures SameBackends(y.store, Take(y, step).store)
  {
    var s := y.store;
    match step
    case DoFinalize(tid, finished) => FinalizeSame(s, y.tasks[tid].sessionId, y.tasks[tid].backend, tid, finished, y.tasks[tid].latest);
    case DoInterrupt(tid, summary, now) => InterruptSame(s, tid, summary, now);
    case _ =>
  }

  lemma UpdateSame(s: State, sid: Id, status: Status, cursor: Option<int>)
    ensures SameBackends(s, UpdateSession(s, sid, status, cursor))
  {}

  lemma FinalizeSame(s: State, sid: Id, backend: Id, tid: Id, turn: BackendTurn, latest: int)
    ensures SameBackends(s, Finalize(s, sid, backend, tid, turn, latest))
  {
    FinishedSame(s, sid, backend, tid, turn);
    var s1 := Finished(s, sid, backend, tid, turn);
    var s2 := UpdateTurn(s1, tid, Some(turn.backendTurnId), turn.status, TerminalType(turn.status).Some?);
    UpdateSame(s2, sid, if turn.status == Completed || turn.status == Status.Cancelled then Idle else turn.status,
               Some(if |s1.log| == |s.log| then latest else LastSeq(s1.log)));
  }

  lemma InterruptSame(s: State, tid: Id, summary: string, now: nat)
    ensures SameBackends(s, Interrupt(s, tid, summary, now))
  {
    if tid in s.turns {
      var sid := s.turns[tid].sessionId;
      var s1 := WithdrawRequests(MarkInterrupted(s, tid), tid, summary, now);
      WithdrawFrame(MarkInterrupted(s, tid), tid, summary, now);
      var s2 := Append(s1, TurnUri(tid), Some(SessionUri(sid)), TurnFailed, FromBroker, Note(summary));
      UpdateSame(s2, sid, Idle, Some(LastSeq(s2.log)));
    }
  }

  lemma FinishedSame(s: State, sid: Id, backend: Id, tid: Id, turn: BackendTurn)
    ensures Finished(s, sid, backend, tid, turn).sessions == s.sessions
  {
    IngestAllFrame(s, sid, backend, tid, turn.events);
  }

  lemma {:induction false} RunSame(y: Sys, steps: seq<Step>, z: Sys)
    requires SysInv(y) && Ran(y, steps, z)
    ensures SameBackends(y.store, z.store) && SysInv(z) && Evolves(y.store, z.store)
  {
    ExecInv(y, steps);
    if steps != [] {
      var front, last := steps[..|steps| - 1], steps[|steps| - 1];
      var m := Exec(y, front);
      RunSame(y, front, m);
      if Enabled(m, last) { StepSame(m, last); }
    }
  }

  // ---------------------------------------------------------------- interrupting

  lemma {:induction false} InterruptAllRan(y: Sys, turns: seq<Id>, summary: string, now: nat) returns (steps: seq<Step>, z: Sys)
    ensures Ran(y, steps, z) && z == y.(store := InterruptAll(y.store, turns, summary, now))
  {
    if turns == [] {
      steps, z := [], y;
    } else {
      var before, m := InterruptAllRan(y, turns[..|turns| - 1], summary, now);
      steps, z := RanMore(y, before, m, DoInterrupt(turns[|turns| - 1], summary, now));
    }
  }

  // ---------------------------------------------------------------- reattaching

  function Sunk(task: Task, events: seq<BackendEvent>, log: seq<Event>): Task {
    if events == [] then task else task.(latest := LastSeq(log))
  }

  lemma {:induction false} SinkRan(y: Sys, tid: Id, events: seq<BackendEvent>) returns (steps: seq<Step>, z: Sys)
    requires tid in y.tasks
    ensures Ran(y, steps, z) && z.store == IngestAll(y.store, y.tasks[tid].sessionId, y.tasks[tid].backend, tid, events)
    ensures z.tasks == y.tasks[tid := Sunk(y.tasks[tid], events, z.store.log)]
  {
    if events == [] {
      steps, z := [], y;
    } else {
      var before, m := SinkRan(y, tid, events[..|events| - 1]);
      steps, z := RanMore(y, before, m, DoSink(tid, events[|events| - 1]));
    }
  }

  lemma ReattachRan(y: Sys, sid: Id, cursor: int, tid: Id, b: Backend, now: nat) returns (steps: seq<Step>, z: Sys)
    requires Enabled(y, DoReattach(sid, tid, cursor)) && y.store.sessions[sid].backend == b.id
    ensures Ran(y, steps, z) && z.store == ReattachOne(y.store, sid, cursor, tid, b, now).0
    ensures z.tasks.Keys == y.tasks.Keys + {tid}
  {
    var r := b.reattaches(tid);
    RanNothing(y);
    var m;
    steps, m := RanMore(y, [], y, DoReattach(sid, tid, cursor));
    var sunk, n := SinkRan(m, tid, r.delivered);
    RanThen(y, steps, m, sunk, n);
    steps, z := steps + sunk, n;
    if r.answer.Ok? {
      match r.answer.value
      case Some(turn) => steps, z := RanMore(y, steps, n, DoFinalize(tid, turn));
      case None => steps, z := RanMore(y, steps, n, DoInterrupt(tid, NOT_REATTACHED, now));
    }
  }

  /** The turns may be reattached: they belong to the session, none of them has a task, and the session has a backend session. */
  ghost predicate Offerable(y: Sys, sid: Id, cursor: int, turns: seq<Id>, b: Backend) {
    && SysInv(y) && sid in y.store.sessions && y.store.sessions[sid].backend == b.id && y.store.sessions[sid].backendSessionId.Some?
    && KnownSeq(y.store.log, cursor) && Distinct(turns)
    && forall i :: 0 <= i < |turns| ==> turns[i] in y.store.turns && y.store.turns[turns[i]].sessionId == sid && turns[i] !in y.tasks
  }

  lemma StillOfferable(y: Sys, steps: seq<Step>, z: Sys, sid: Id, cursor: int, turns: seq<Id>, n: nat, b: Backend)
    requires Offerable(y, sid, cursor, turns, b) && Ran(y, steps, z) && n < |turns| && z.tasks.Keys == y.tasks.Keys + Elements(turns[..n])
    ensures Enabled(z, DoReattach(sid, turns[n], cursor)) && z.store.sessions[sid].backend == b.id
  {
    RunSame(y, steps, z);
    KnownGrows(y.store.log, z.store.log, cursor);
  }

  lemma {:induction false} ReattachAllRan(y: Sys, sid: Id, cursor: int, turns: seq<Id>, n: nat, b: Backend, now: nat) returns (steps: seq<Step>, z: Sys)
    requires Offerable(y, sid, cursor, turns, b) && n <= |turns|
    ensures Ran(y, steps, z) && z.store == ReattachAll(y.store, sid, cursor, turns[..n], b, now).0
    ensures z.tasks.Keys <= y.tasks.Keys + Elements(turns[..n])
    ensures ReattachAll(y.store, sid, cursor, turns[..n], b, now).1 ==> z.tasks.Keys == y.tasks.Keys + Elements(turns[..n])
  {
    if n == 0 {
      steps, z := [], y;
      assert Elements(turns[..0]) == {};
    } else {
      steps, z := ReattachAllRan(y, sid, cursor, turns, n - 1, b, now);
      assert turns[..n][..n - 1] == turns[..n - 1];
      ElementsLast(turns[..n]);
      if ReattachAll(y.store, sid, cursor, turns[..n - 1], b, now).1 {
        StillOfferable(y, steps, z, sid, cursor, turns, n - 1, b);
        var more, last := ReattachRan(z, sid, cursor, turns[n - 1], b, now);
        RanThen(y, steps, z, more, last);
        steps, z := steps + more, last;
      }
    }
  }

  // ---------------------------------------------------------------- sessions

  lemma OfferableLater(y: Sys, steps: seq<Step>, z: Sys, sid: Id, cursor: int, turns: seq<Id>, b: Backend)
    requires Offerable(y, sid, cursor, turns, b) && Ran(y, steps, z) && z.tasks == y.tasks
    ensures Offerable(z, sid, cursor, turns, b)
  {
    RunSame(y, steps, z);
    KnownGrows(y.store.log, z.store.log, cursor);
  }

  lemma RecoverSessionRan(y: Sys, sid: Id, row: Session, turns: seq<Id>, b: Backend, now: nat) returns (steps: seq<Step>, z: Sys)
    requires Offerable(y, sid, row.latestCursor, turns, b) && row.backend == b.id
    ensures Ran(y, steps, z) && z.store == RecoverSession(y.store, sid, row, turns, b, now).0
    ensures z.tasks.Keys <= y.tasks.Keys + Elements(turns)
  {
    RanNothing(y);
    steps, z := [], y;
    var more: seq<Step>, m: Sys;
    if !b.supportsResume {
      steps, z := InterruptAllRan(y, turns, NO_RESUME, now);
    } else if b.refusal(sid).None? {
      steps, m := RanMore(y, [], y, DoReattached(sid, turns == []));
      if b.supportsReattach {
        OfferableLater(y, steps, m, sid, row.latestCursor, turns, b);
        more, z := ReattachAllRan(m, sid, row.latestCursor, turns, |turns|, b, now);
        assert turns[..|turns|] == turns;
      } else {
        more, z := InterruptAllRan(m, turns, NO_REATTACH, now);
      }
      RanThen(y, steps, m, more, z);
      steps := steps + more;
    } else {
      steps, m := RanMore(y, [], y, DoResumeFailed(sid, b.refusal(sid).value));
      more, z := InterruptAllRan(m, turns, RESUME_FAILED + b.refusal(sid).value, now);
      RanThen(y, steps, m, more, z);
      steps := steps + more;
    }
  }

  /** Only turns of the sessions already gone through have tasks. */
  ghost predicate TasksBehind(s0: State, open: seq<Id>, tasks: map<Id, Task>) {
    forall t :: t in tasks ==> t in s0.turns && s0.turns[t].sessionId in open
  }

  lemma RoundOfferable(y: Sys, steps: seq<Step>, z: Sys, open: seq<Id>, active: seq<Id>, n: nat, b: Backend)
    requires SysInv(y) && Listed(y.store, open, active) && 0 < n <= |open| && y.store.sessions[open[n - 1]].backend == b.id
    requires Ran(y, steps, z) && TasksBehind(y.store, open[..n - 1], z.tasks)
    ensures Offerable(z, open[n - 1], y.store.sessions[open[n - 1]].latestCursor, TurnsOf(active, y.store.turns, open[n - 1]), b)
  {
    var sid := open[n - 1];
    var turns := TurnsOf(active, y.store.turns, sid);
    assert sid in open;
    RunSame(y, steps, z);
    KnownGrows(y.store.log, z.store.log, y.store.sessions[sid].latestCursor);
    TurnsOfAre(active, y.store.turns, sid);
    forall i | 0 <= i < |turns| ensures turns[i] in z.store.turns && z.store.turns[turns[i]].sessionId == sid && turns[i] !in z.tasks {
      assert turns[i] in turns;
    }
  }

  lemma RoundBehind(y: Sys, open: seq<Id>, active: seq<Id>, n: nat, before: map<Id, Task>, after: map<Id, Task>)
    requires 0 < n <= |open| && TasksBehind(y.store, open[..n - 1], before)
    requires after.Keys <= before.Keys + Elements(TurnsOf(active, y.store.turns, open[n - 1]))
    ensures TasksBehind(y.store, open[..n], after)
  {
    TurnsOfAre(active, y.store.turns, open[n - 1]);
    ElementsIn(TurnsOf(active, y.store.turns, open[n - 1]));
    assert open[..n] == open[..n - 1] + [open[n - 1]];
  }

  lemma {:induction false} RecoverSessionsRan(y: Sys, open: seq<Id>, active: seq<Id>, n: nat, b: Backend, now: nat) returns (steps: seq<Step>, z: Sys)
    requires SysInv(y) && y.tasks == map[] && Listed(y.store, open, active) && n <= |open|
    ensures Ran(y, steps, z) && z.store == RecoverSessions(y.store, open[..n], active, b, now).0
    ensures TasksBehind(y.store, open[..n], z.tasks)
  {
    if n == 0 {
      steps, z := [], y;
    } else {
      steps, z := RecoverSessionsRan(y, open, active, n - 1, b, now);
      assert open[..n][..n - 1] == open[..n - 1];
      var sid := open[n - 1];
      assert sid in open;
      if RecoverSessions(y.store, open[..n - 1], active, b, now).1 && y.store.sessions[sid].backend == b.id {
        RoundOfferable(y, steps, z, open, active, n, b);
        var more, last := RecoverSessionRan(z, sid, y.store.sessions[sid], TurnsOf(active, y.store.turns, sid), b, now);
        RoundBehind(y, open, active, n, z.tasks, last.tasks);
        RanThen(y, steps, z, more, last);
        steps, z := steps + more, last;
      } else {
        RoundBehind(y, open, active, n, z.tasks, z.tasks);
      }
    }
  }

  // ---------------------------------------------------------------- recovery

  lemma ReconcileRan(y: Sys, open: seq<Id>, active: seq<Id>, b: Backend, now: nat) returns (steps: seq<Step>, z: Sys)
    requires SysInv(y) && y.tasks == map[] && Listed(y.store, open, active)
    ensures Ran(y, steps, z) && z.store == Reconcile(y.store, open, active, b, now).0
  {
    steps, z := RecoverSessionsRan(y, open, active, |open|, b, now);
    assert open[..|open|] == open;
    if RecoverSessions(y.store, open, active, b, now).1 {
      var more, last := InterruptAllRan(z, Unprocessed(active, ProcessedBy(y.store, open, active, b)), SESSION_UNAVAILABLE, now);
      RanThen(y, steps, z, more, last);
      steps, z := steps + more, last;
    }
  }

  lemma Restarted(y: Sys) returns (z: Sys)
    requires Reachable(y)
    ensures z == Next(y, DoRestart) && z == Sys(y.store, map[]) && Reachable(z) && SysInv(z)
  {
    z := Next(y, DoRestart);
    var before :| Reaches(INITIAL, before, y);
    RanOn(y, [DoRestart], z);
    ReachableInv(z);
  }

  lemma RanOn(y: Sys, steps: seq<Step>, z: Sys)
    requires Reachable(y) && z == Exec(y, steps)
    ensures Reachable(z)
  {
    var before :| Reaches(INITIAL, before, y);
    ReachesExec(INITIAL, before, y);
    ExecConcat(INITIAL, before, steps);
    var states := ExecReaches(INITIAL, before + steps);
  }

  /** Recovery is a run. In whatever reachable state the broker stopped, and whatever the backend
      supports and answers, failing included: recovery takes the restarted broker, by steps of its
      machine, to a reachable state whose store is what recovery leaves. */
  lemma RecoveryIsRun(y: Sys, open: seq<Id>, active: seq<Id>, b: Backend, now: nat) returns (steps: seq<Step>, z: Sys)
    requires Reachable(y) && Listed(y.store, open, active)
    ensures Reaches(Next(y, DoRestart), steps, z) && Reachable(z) && z.store == Reconcile(y.store, open, active, b, now).0
  {
    var y1 := Restarted(y);
    steps, z := ReconcileRan(y1, open, active, b, now);
    var states := ExecReaches(y1, steps);
    RanOn(y1, steps, z);
  }

  /** So is a start without reconnecting. */
  lemma RestartIsRun(y: Sys, active: seq<Id>, now: nat) returns (steps: seq<Step>, z: Sys)
    requires Reachable(y)
    ensures Reaches(Next(y, DoRestart), steps, z) && Reachable(z) && z.store == InterruptAll(y.store, active, RESTARTED, now)
  {
    var y1 := Restarted(y);
    steps, z := InterruptAllRan(y1, active, RESTARTED, now);
    var states := ExecReaches(y1, steps);
    RanOn(y1, steps, z);
  }
}

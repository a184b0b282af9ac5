/** Whole runs of the two brokers. */
module FedRuns {
  import opened Types
  import opened Wrappers
  import opened EventLog
  import opened StoreModel
  import opened BrokerModel
  import opened BrokerInvariants
  import opened BrokerSteps
  import opened BrokerRuns
  import opened Federation
  import opened FedInvariant
  import opened SyncSteps

  // ---------------------------------------------------------------- runs as sequences of pulls

  ghost predicate SyncFree(steps: seq<FedStep>) {
    forall i :: 0 <= i < |steps| ==> !steps[i].Sync?
  }

  lemma FedExecLast(f: Fed, steps: seq<FedStep>, step: FedStep)
    ensures FedExec(f, steps + [step]) == FedNext(FedExec(f, steps), step)
  {
    assert (steps + [step])[..|steps|] == steps;
  }

  lemma {:induction false} FedExecConcat(f: Fed, a: seq<FedStep>, b: seq<FedStep>)
    ensures FedExec(f, a + b) == FedExec(FedExec(f, a), b)
  {
    if b == [] {
      assert a + b == a;
    } else {
      var front, last := b[..|b| - 1], b[|b| - 1];
      FedExecConcat(f, a, front);
      FedExecLast(f, a + front, last);
      FedExecLast(FedExec(f, a), front, last);
      assert front + [last] == b && (a + front) + [last] == a + b;
    }
  }

  lemma {:induction false} PullsShape(sid: Id, n: nat)
    ensures forall i :: 0 <= i < |Pulls(sid, n)| ==> Pulls(sid, n)[i] == Pull(sid)
  {
    if n > 0 { PullsShape(sid, n - 1); }
  }

  lemma {:induction false} FedTraceExec(f: Fed, steps: seq<FedStep>, states: seq<Fed>, n: nat)
    requires FedTrace(f, steps, states) && n <= |steps|
    ensures states[n] == FedExec(f, steps[..n])
  {
    if n > 0 {
      FedTraceExec(f, steps, states, n - 1);
      assert steps[..n][..n - 1] == steps[..n - 1];
      assert Index(n - 1) && states[n] == FedNext(states[n - 1], steps[n - 1]);
    }
  }

  lemma FedReachesExec(f: Fed, steps: seq<FedStep>, g: Fed)
    requires FedReaches(f, steps, g)
    ensures g == FedExec(f, steps)
  {
    var states :| FedTrace(f, steps, states) && states[|steps|] == g;
    FedTraceExec(f, steps, states, |steps|);
    assert steps[..|steps|] == steps;
  }

  lemma FedExecReaches(f: Fed, steps: seq<FedStep>, g: Fed)
    requires g == FedExec(f, steps)
    ensures FedReaches(f, steps, g)
  {
    var states := seq(|steps| + 1, n requires 0 <= n <= |steps| => FedExec(f, steps[..n]));
    forall i | Index(i) && 0 <= i < |steps| ensures states[i + 1] == FedNext(states[i], steps[i]) {
      assert steps[..i + 1][..i] == steps[..i];
    }
    assert steps[..|steps|] == steps;
    assert FedTrace(f, steps, states);
  }

  // ---------------------------------------------------------------- the invariant in every state

  lemma FedInitialInv(host: Id)
    ensures FedInv(FedInitial(host))
  {
    InitialInv();
  }

  /** Every step other than a whole synchronisation keeps the invariant. */
  lemma FedStepInv(f: Fed, step: FedStep) returns (g: Fed)
    requires FedInv(f) && FedEnabled(f, step) && !step.Sync?
    ensures g == FedTake(f, step) && FedInv(g)
  {
    g := FedTake(f, step);
    match step
    case Local(inner) => LocalKeeps(f, inner);
    case RemoteGrows(events) => GrowthKeeps(f, events);
    case Pull(sid) =>
      var i := AheadFirst(f.local.store, sid, f.remote);
      PullKeeps(f, sid, i);
    case ForwardSend(sid, message, op, turn) =>
      var h, tid := SendIs(f, sid, message, op, turn);
      SentSys(f, h, sid, message, op, turn, tid);
      SentKeeps(f, h, sid, turn, message, tid);
      g := h;
    case ForwardCancel(sid, tid, op, now, events) => CancelKeeps(f, sid, tid, op, now, events);
    case ForwardCreate(op, session, backend, status) =>
      var h := CreateIs(f, op, session, backend, status);
      CreatedKeeps(f, h, session, backend);
      g := h;
  }

  lemma SyncAsPulls(f: Fed, sid: Id) returns (g: Fed, steps: seq<FedStep>)
    requires FedInv(f) && Linked(f.local.store, f.host, sid)
    ensures g == FedTake(f, Sync(sid)) && FedInv(g)
    ensures SyncFree(steps) && g == FedExec(f, steps)
    ensures forall i :: 0 <= i < |steps| ==> steps[i] == Pull(sid)
  {
    var n, h := SyncIsPulls(f, sid);
    g, steps := h, Pulls(sid, n);
    PullsShape(sid, n);
  }

  lemma StepEvolves(f: Fed, step: FedStep)
    requires FedInv(f) && FedEnabled(f, step) && !step.Sync?
    ensures Evolves(f.local.store, FedTake(f, step).local.store)
  {
    match step
    case Local(inner) => StepGood(f.local, inner);
    case RemoteGrows(events) =>
    case Pull(sid) =>
      var i := AheadFirst(f.local.store, sid, f.remote);
      PullSys(f, sid, i);
    case ForwardSend(sid, message, op, turn) =>
      var g, tid := SendIs(f, sid, message, op, turn);
      SentSys(f, g, sid, message, op, turn, tid);
    case ForwardCancel(sid, tid, op, now, events) => StepGood(f.local, DoCancel(sid, tid, op, true, now));
    case ForwardCreate(op, session, backend, status) => var g := CreateIs(f, op, session, backend, status);
  }

  /** A step that mirrors, or one that was in the run already. */
  ghost predicate From(step: FedStep, steps: seq<FedStep>) {
    step in steps || (step.Pull? && Sync(step.sid) in steps)
  }

  ghost predicate AllFrom(expanded: seq<FedStep>, steps: seq<FedStep>) {
    forall i :: 0 <= i < |expanded| ==> From(expanded[i], steps)
  }

  lemma AllFromConcat(a: seq<FedStep>, b: seq<FedStep>, front: seq<FedStep>, last: FedStep)
    requires AllFrom(a, front) && forall i :: 0 <= i < |b| ==> b[i] == last || (last.Sync? && b[i] == Pull(last.sid))
    ensures AllFrom(a + b, front + [last])
  {
    forall i | 0 <= i < |a + b| ensures From((a + b)[i], front + [last]) {
      if i < |a| { assert From(a[i], front); } else { assert (a + b)[i] == b[i - |a|]; }
    }
  }

  lemma FedExecOne(f: Fed, step: FedStep, g: Fed) returns (steps: seq<FedStep>)
    requires g == FedNext(f, step)
    ensures steps == [step] && FedExec(f, steps) == g
  {
    steps := [] + [step];
    FedExecLast(f, [], step);
  }

  lemma OneStepAsPulls(f: Fed, step: FedStep) returns (g: Fed, steps: seq<FedStep>)
    requires FedInv(f)
    ensures g == FedNext(f, step) && FedInv(g) && g == FedExec(f, steps) && SyncFree(steps)
    ensures forall i :: 0 <= i < |steps| ==> steps[i] == step || (step.Sync? && steps[i] == Pull(step.sid))
  {
    if !FedEnabled(f, step) {
      g, steps := f, [];
    } else if step.Sync? {
      g, steps := SyncAsPulls(f, step.sid);
    } else {
      g := FedStepInv(f, step);
      steps := FedExecOne(f, step, g);
    }
  }

  /** The invariant holds after every run, and every run has the effect of one in which each
      synchronisation is a sequence of single-event pulls. */
  lemma {:induction false} RunsArePulls(f: Fed, steps: seq<FedStep>) returns (g: Fed, expanded: seq<FedStep>)
    requires FedInv(f)
    ensures g == FedExec(f, steps) && FedInv(g)
    ensures g == FedExec(f, expanded) && SyncFree(expanded) && AllFrom(expanded, steps)
  {
    if steps == [] {
      g, expanded := f, [];
    } else {
      var front, last := steps[..|steps| - 1], steps[|steps| - 1];
      var m, before := RunsArePulls(f, front);
      g, expanded := OneStepOn(f, front, last, m, before);
      assert front + [last] == steps;
    }
  }

  lemma OneStepOn(f: Fed, front: seq<FedStep>, last: FedStep, m: Fed, before: seq<FedStep>) returns (g: Fed, expanded: seq<FedStep>)
    requires FedInv(m) && m == FedExec(f, before) && SyncFree(before) && AllFrom(before, front)
    ensures g == FedNext(m, last) && FedInv(g) && g == FedExec(f, expanded) && SyncFree(expanded) && AllFrom(expanded, front + [last])
  {
    var more: seq<FedStep>;
    g, more := OneStepAsPulls(m, last);
    expanded := before + more;
    FedExecConcat(f, before, more);
    AllFromConcat(before, more, front, last);
  }

  // ---------------------------------------------------------------- link cursors

  /** Links stay, and their cursors never decrease. */
  ghost predicate LinksAdvance(links: map<Uri, Link>, links': map<Uri, Link>, host: Id) {
    forall u :: u in links ==>
      && u in links' && links'[u].(cursor := 0) == links[u].(cursor := 0)
      && (links[u].host == host ==> links[u].cursor <= links'[u].cursor)
  }

  lemma AdvanceFromAnchored(s: State, s': State, host: Id, remote: seq<Event>, remote': seq<Event>)
    requires Anchored(s, s', host, remote, remote')
    ensures LinksAdvance(s.links, s'.links, host)
  {}

  lemma AdvanceFromMoved(links: map<Uri, Link>, links': map<Uri, Link>, host: Id, u: Uri, cursor: int)
    requires Moved(links, links', u, cursor) && (u in links ==> links[u].cursor <= cursor)
    ensures LinksAdvance(links, links', host)
  {}

  lemma StepAdvances(f: Fed, step: FedStep)
    requires FedInv(f) && FedEnabled(f, step) && !step.Sync?
    ensures LinksAdvance(f.local.store.links, FedTake(f, step).local.store.links, f.host)
    ensures FedTake(f, step).host == f.host && f.remote <= FedTake(f, step).remote
  {
    match step
    case Local(inner) => LocalLinks(f.local, inner);
    case RemoteGrows(events) =>
    case Pull(sid) =>
      var i := AheadFirst(f.local.store, sid, f.remote);
      PullAnchored(f, sid, i);
      AdvanceFromAnchored(f.local.store, PullStore(f.local.store, f.host, sid, f.remote[i]), f.host, f.remote, f.remote);
    case ForwardSend(sid, message, op, turn) =>
      var g, tid := SendIs(f, sid, message, op, turn);
      SentMoved(f, g, sid, turn, message, tid);
      AdvanceFromMoved(f.local.store.links, g.local.store.links, f.host, SessionUri(sid), LastSeq(g.remote));
    case ForwardCancel(sid, tid, op, now, events) => CancelLinks(f.local.store, sid, tid, op, true, now);
    case ForwardCreate(op, session, backend, status) => var g := CreateIs(f, op, session, backend, status);
  }

  lemma AdvanceTransitive(a: map<Uri, Link>, b: map<Uri, Link>, c: map<Uri, Link>, host: Id)
    requires LinksAdvance(a, b, host) && LinksAdvance(b, c, host)
    ensures LinksAdvance(a, c, host)
  {
    forall u | u in a
      ensures u in c && c[u].(cursor := 0) == a[u].(cursor := 0) && (a[u].host == host ==> a[u].cursor <= c[u].cursor)
    {
      assert b[u].(cursor := 0) == a[u].(cursor := 0);
    }
  }

  lemma {:induction false} PullFreeAdvance(f: Fed, steps: seq<FedStep>) returns (g: Fed)
    requires FedInv(f) && SyncFree(steps)
    ensures g == FedExec(f, steps) && FedInv(g) && g.host == f.host && f.remote <= g.remote
    ensures LinksAdvance(f.local.store.links, g.local.store.links, f.host) && Evolves(f.local.store, g.local.store)
  {
    g := f;
    if steps != [] {
      var m := PullFreeAdvance(f, steps[..|steps| - 1]);
      var last := steps[|steps| - 1];
      g := m;
      if FedEnabled(m, last) {
        StepAdvances(m, last);
        StepEvolves(m, last);
        g := FedStepInv(m, last);
        AdvanceTransitive(f.local.store.links, m.local.store.links, g.local.store.links, f.host);
        EvolvesTransitive(f.local.store, m.local.store, g.local.store);
      }
    }
  }

  /** In every state of every run of the two brokers, each session link's remote cursor is the number
      of an event in the remote log, and it never decreases afterwards. */
  lemma RemoteCursorsKnown(host: Id, before: seq<FedStep>, f: Fed, after: seq<FedStep>, g: Fed, sid: Id)
    requires FedReaches(FedInitial(host), before, f) && FedReaches(f, after, g)
    requires SessionUri(sid) in f.local.store.links && f.local.store.links[SessionUri(sid)].host == host
    ensures SessionUri(sid) in g.local.store.links
    ensures Numbers(f.remote, f.local.store.links[SessionUri(sid)].cursor) && Numbers(g.remote, g.local.store.links[SessionUri(sid)].cursor)
    ensures f.local.store.links[SessionUri(sid)].cursor <= g.local.store.links[SessionUri(sid)].cursor
  {
    ReachedInv(host, before, f);
    FedReachesExec(f, after, g);
    var g0, expanded := RunsArePulls(f, after);
    var g1 := PullFreeAdvance(f, expanded);
    SessionCursorKnown(f, sid);
    assert g.local.store.links[SessionUri(sid)].(cursor := 0) == f.local.store.links[SessionUri(sid)].(cursor := 0);
    SessionCursorKnown(g, sid);
  }

  lemma ReachedInv(host: Id, steps: seq<FedStep>, f: Fed)
    requires FedReaches(FedInitial(host), steps, f)
    ensures FedInv(f) && f.host == host
  {
    FedInitialInv(host);
    FedReachesExec(FedInitial(host), steps, f);
    HostKept(FedInitial(host), steps);
    var f0, _ := RunsArePulls(FedInitial(host), steps);
  }

  lemma SessionCursorKnown(f: Fed, sid: Id)
    requires FedInv(f) && SessionUri(sid) in f.local.store.links && f.local.store.links[SessionUri(sid)].host == f.host
    ensures Numbers(f.remote, f.local.store.links[SessionUri(sid)].cursor)
  {
    var link := f.local.store.links[SessionUri(sid)];
    assert LinkShape(f.local.store, link);
    assert RemoteLinkOk(f.local.store, f.host, f.remote, link);
  }

  lemma {:induction false} HostKept(f: Fed, steps: seq<FedStep>)
    ensures FedExec(f, steps).host == f.host
  {
    if steps != [] { HostKept(f, steps[..|steps| - 1]); }
  }
}

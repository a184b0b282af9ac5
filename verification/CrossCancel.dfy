/** Where convergence ends: a turn cancelled through another linked session. */
module CrossCancel {
  import opened Types
  import opened Vocabulary
  import opened Wrappers
  import opened EventLog
  import opened StoreModel
  import opened BrokerModel
  import opened BrokerInvariants
  import opened BrokerSteps
  import opened BrokerRuns
  import opened Federation
  import opened FedInvariant
  import opened SyncSteps
  import opened FedRuns
  import opened Convergence

  // ---------------------------------------------------------------- the claim

  function TurnOf(f: Fed, t: Id): Uri
    requires Wired(f.local.store, f.host, t)
  {
    f.local.store.links[TurnUri(t)].remoteUri
  }

  function Home(f: Fed, t: Id): Id
    requires Wired(f.local.store, f.host, t)
  {
    f.local.store.turns[t].sessionId
  }

  function HomeUri(f: Fed, t: Id): Uri
    requires Wired(f.local.store, f.host, t)
  {
    f.local.store.links[SessionUri(Home(f, t))].remoteUri
  }

  /** What the remote log goes on to say of the turn, it says under the turn's own session. */
  ghost predicate SaidAtHome(log: seq<Event>, log': seq<Event>, turn: Uri, home: Uri) {
    forall i :: |log| <= i < |log'| && SetsStatus(log'[i], turn) ==> log'[i].parent == Some(home)
  }

  /** The run goes on without a restart, the remote log speaking of the turn at home only, until both
      the turn's session and the other one are drained. */
  ghost predicate DrainsBoth(f: Fed, steps: seq<FedStep>, g: Fed, t: Id, other: Id)
    requires Wired(f.local.store, f.host, t)
  {
    && FedReaches(f, steps, g) && Unrestarted(steps) && SaidAtHome(f.remote, g.remote, TurnOf(f, t), HomeUri(f, t))
    && Drained(g, Home(f, t)) && Drained(g, other) && t in g.tracked
  }

  ghost predicate AlwaysConverges(f: Fed, t: Id, other: Id) {
    && Wired(f.local.store, f.host, t)
    && forall steps, g :: DrainsBoth(f, steps, g, t, other) ==> Wired(g.local.store, g.host, t) && Converged(g, t)
  }

  // ---------------------------------------------------------------- through the turn's own session

  /** A cancellation through the turn's own session leaves the turn at home. */
  lemma CancelledAtHome(f: Fed, sid: Id, tid: Id, op: Option<Id>, now: nat, events: seq<Event>)
    requires FedInv(f) && FedEnabled(f, ForwardCancel(sid, tid, op, now, events)) && AtHome(f.local.store, f.host, f.remote, tid)
    requires f.local.store.turns[tid].sessionId == sid
    ensures var g := FedTake(f, ForwardCancel(sid, tid, op, now, events)); AtHome(g.local.store, g.host, g.remote, tid)
  {
    var step := ForwardCancel(sid, tid, op, now, events);
    StepEvolves(f, step);
    TurnLinked(f, tid);
    SessionRemote(f, sid);
    SaidUnderHome(f, sid, tid, events);
    StaysAtHome(f, FedTake(f, step), tid);
  }

  lemma SaidUnderHome(f: Fed, sid: Id, t: Id, events: seq<Event>)
    requires Wired(f.local.store, f.host, t) && Home(f, t) == sid && TurnOf(f, t) == TurnUri(f.local.store.links[TurnUri(t)].remoteId)
    requires HomeUri(f, t) == SessionUri(f.local.store.links[SessionUri(sid)].remoteId)
    requires CancelsTurn(events, f.local.store.links[SessionUri(sid)].remoteId, f.local.store.links[TurnUri(t)].remoteId)
    ensures SaidAtHome(f.remote, f.remote + events, TurnOf(f, t), HomeUri(f, t))
  {
    var log := f.remote + events;
    forall i | |f.remote| <= i < |log| && SetsStatus(log[i], TurnOf(f, t)) ensures log[i].parent == Some(HomeUri(f, t)) {
      assert log[i] == events[i - |f.remote|];
    }
  }

  lemma StaysAtHome(f: Fed, g: Fed, t: Id)
    requires AtHome(f.local.store, f.host, f.remote, t) && Evolves(f.local.store, g.local.store)
    requires f.remote <= g.remote && g.host == f.host && SaidAtHome(f.remote, g.remote, TurnOf(f, t), HomeUri(f, t))
    ensures AtHome(g.local.store, g.host, g.remote, t) && Home(g, t) == Home(f, t)
  {
    WiredKept(f.local.store, g.local.store, f.host, t);
    forall i | 0 <= i < |g.remote| && SetsStatus(g.remote[i], TurnOf(f, t)) ensures g.remote[i].parent == Some(HomeUri(f, t)) {
      if i < |f.remote| { assert g.remote[i] == f.remote[i]; }
    }
  }

  lemma AtHomeConverges(f: Fed, t: Id, other: Id)
    requires FedInv(f) && Tracked(f) && AtHome(f.local.store, f.host, f.remote, t)
    ensures AlwaysConverges(f, t, other)
  {
    forall steps, g | DrainsBoth(f, steps, g, t, other) ensures Wired(g.local.store, g.host, t) && Converged(g, t) {
      FedReachesExec(f, steps, g);
      var g0, expanded := RunsArePulls(f, steps);
      var g1 := PullFreeAdvance(f, expanded);
      var g2 := RunKeepsTracked(f, steps);
      StaysAtHome(f, g, t);
      assert TurnTracked(g, t);
      DrainedStatus(g, Home(f, t), t);
    }
  }

  // ---------------------------------------------------------------- draining one session

  /** The events set the turn's status at least once, or it is cancelled already, and all they say is that it was. */
  ghost predicate SaysCancelled(events: seq<Event>, turn: Uri, status: Status) {
    && (forall i :: 0 <= i < |events| && SetsStatus(events[i], turn) ==> events[i].eventType == TurnCancelled)
    && (status == Status.Cancelled || exists i :: 0 <= i < |events| && SetsStatus(events[i], turn))
  }

  ghost predicate OthersKept(links: map<Uri, Link>, links': map<Uri, Link>, u: Uri) {
    forall v :: v in links && v != u ==> v in links' && links'[v] == links[v]
  }

  /** Nothing but the store has changed, which moved on, and of the links only one cursor. */
  ghost predicate Drains(f: Fed, g: Fed, sid: Id) {
    FedInv(g) && OnlyStore(f, g) && Evolves(f.local.store, g.local.store) && OthersKept(f.local.store.links, g.local.store.links, SessionUri(sid))
  }

  lemma DrainsThen(f: Fed, m: Fed, g: Fed, sid: Id)
    requires Drains(f, m, sid) && Drains(m, g, sid)
    ensures Drains(f, g, sid)
  {
    EvolvesTransitive(f.local.store, m.local.store, g.local.store);
  }

  lemma PullDrains(f: Fed, sid: Id) returns (g: Fed)
    requires FedInv(f) && Linked(f.local.store, f.host, sid) && Ahead(f.local.store, sid, f.remote) != []
    ensures g == FedNext(f, Pull(sid)) && Drains(f, g, sid) && Linked(g.local.store, g.host, sid)
    ensures Ahead(g.local.store, sid, g.remote) == Ahead(f.local.store, sid, f.remote)[1..]
  {
    g := OnePull(f, sid);
    PullDrained(f, sid, g);
  }

  lemma PullDrained(f: Fed, sid: Id, g: Fed)
    requires FedInv(f) && Linked(f.local.store, f.host, sid) && Ahead(f.local.store, sid, f.remote) != []
    requires g == FedNext(f, Pull(sid))
    ensures Evolves(f.local.store, g.local.store) && OthersKept(f.local.store.links, g.local.store.links, SessionUri(sid))
  {
    var i := AheadFirst(f.local.store, sid, f.remote);
    PullEvolves(f, sid, i);
    PullMoved(f, sid, i);
    MovedKeeps(f.local.store.links, g.local.store.links, SessionUri(sid), f.remote[i].serverSeq);
  }

  lemma PullEvolves(f: Fed, sid: Id, i: int)
    requires FedInv(f) && Linked(f.local.store, f.host, sid) && IsNext(f.local.store, sid, f.remote, i)
    ensures Evolves(f.local.store, PullStore(f.local.store, f.host, sid, f.remote[i]))
  {
    PullSys(f, sid, i);
  }

  lemma MovedKeeps(links: map<Uri, Link>, links': map<Uri, Link>, u: Uri, cursor: int)
    requires Moved(links, links', u, cursor)
    ensures OthersKept(links, links', u)
  {}

  lemma PulledStatus(f: Fed, sid: Id, t: Id, g: Fed)
    requires FedInv(f) && Linked(f.local.store, f.host, sid) && Ahead(f.local.store, sid, f.remote) != [] && Wired(f.local.store, f.host, t)
    requires g == FedNext(f, Pull(sid))
    ensures var e := Ahead(f.local.store, sid, f.remote)[0];
            t in g.local.store.turns &&
            g.local.store.turns[t].status == if SetsStatus(e, TurnOf(f, t)) then Told(e.eventType) else f.local.store.turns[t].status
  {
    var i := AheadFirst(f.local.store, sid, f.remote);
    PullSucceeds(f, sid, i);
    TurnLinked(f, t);
    MirrorStatus(f.local.store, f.host, sid, f.remote[i], 0, t);
    ConcernsIs(f, f.remote[i], t);
  }

  lemma SaysLess(events: seq<Event>, turn: Uri, before: Status, after: Status)
    requires events != [] && SaysCancelled(events, turn, before)
    requires after == if SetsStatus(events[0], turn) then Told(events[0].eventType) else before
    ensures SaysCancelled(events[1..], turn, after)
  {
    forall i | 0 <= i < |events[1..]| && SetsStatus(events[1..][i], turn) ensures events[1..][i].eventType == TurnCancelled {
      assert events[1..][i] == events[i + 1];
    }
    if after != Status.Cancelled {
      var i :| 0 <= i < |events| && SetsStatus(events[i], turn);
      assert events[1..][i - 1] == events[i];
    }
  }

  ghost predicate AheadCancels(f: Fed, sid: Id, turn: Uri, t: Id) {
    && Linked(f.local.store, f.host, sid) && t in f.local.store.turns
    && SaysCancelled(Ahead(f.local.store, sid, f.remote), turn, f.local.store.turns[t].status)
  }

  lemma PullSays(f: Fed, sid: Id, t: Id, m: Fed)
    requires FedInv(f) && Linked(f.local.store, f.host, sid) && Ahead(f.local.store, sid, f.remote) != [] && Wired(f.local.store, f.host, t)
    requires m == FedNext(f, Pull(sid)) && Drains(f, m, sid) && Linked(m.local.store, m.host, sid)
    requires Ahead(m.local.store, sid, m.remote) == Ahead(f.local.store, sid, f.remote)[1..]
    ensures Wired(m.local.store, m.host, t) && TurnOf(m, t) == TurnOf(f, t)
    ensures AheadCancels(f, sid, TurnOf(f, t), t) ==> AheadCancels(m, sid, TurnOf(f, t), t)
  {
    WiredKept(f.local.store, m.local.store, f.host, t);
    PulledStatus(f, sid, t, m);
    if SaysCancelled(Ahead(f.local.store, sid, f.remote), TurnOf(f, t), f.local.store.turns[t].status) {
      SaysLess(Ahead(f.local.store, sid, f.remote), TurnOf(f, t), f.local.store.turns[t].status, m.local.store.turns[t].status);
    }
  }

  predicate IsCancelled(f: Fed, t: Id) {
    t in f.local.store.turns && f.local.store.turns[t].status == Status.Cancelled
  }

  /** After k pulls for the session. */
  ghost predicate AfterPulls(f: Fed, sid: Id, t: Id, turn: Uri, k: nat, g: Fed) {
    && Drains(f, g, sid) && Linked(g.local.store, g.host, sid) && SessionUri(sid) in f.local.store.links
    && k <= |Ahead(f.local.store, sid, f.remote)| && Ahead(g.local.store, sid, g.remote) == Ahead(f.local.store, sid, f.remote)[k..]
    && Wired(g.local.store, g.host, t) && TurnOf(g, t) == turn
    && (AheadCancels(f, sid, turn, t) ==> AheadCancels(g, sid, turn, t))
  }

  lemma OneMorePulled(f: Fed, sid: Id, t: Id, turn: Uri, k: nat, m: Fed) returns (g: Fed)
    requires m == Pulled(f, sid, k) && AfterPulls(f, sid, t, turn, k, m) && k < |Ahead(f.local.store, sid, f.remote)|
    ensures g == Pulled(f, sid, k + 1) && AfterPulls(f, sid, t, turn, k + 1, g)
  {
    g := PullDrains(m, sid);
    PullSays(m, sid, t, g);
    DrainsThen(f, m, g, sid);
  }

  lemma NothingPulled(f: Fed, sid: Id, t: Id, turn: Uri)
    requires FedInv(f) && Linked(f.local.store, f.host, sid) && Wired(f.local.store, f.host, t) && turn == TurnOf(f, t)
    ensures AfterPulls(f, sid, t, turn, 0, f)
  {}

  lemma {:induction false} DrainSome(f: Fed, sid: Id, t: Id, turn: Uri, k: nat) returns (g: Fed)
    requires FedInv(f) && Linked(f.local.store, f.host, sid) && Wired(f.local.store, f.host, t) && turn == TurnOf(f, t)
    requires k <= |Ahead(f.local.store, sid, f.remote)|
    ensures g == Pulled(f, sid, k) && AfterPulls(f, sid, t, turn, k, g)
  {
    if k == 0 {
      g := f;
      NothingPulled(f, sid, t, turn);
    } else {
      var m := DrainSome(f, sid, t, turn, k - 1);
      g := OneMorePulled(f, sid, t, turn, k - 1, m);
    }
  }

  /** Pulling until a session is drained; if all that is ahead says of the turn is that it was cancelled,
      it is cancelled then. */
  lemma DrainSession(f: Fed, sid: Id, t: Id) returns (g: Fed, steps: seq<FedStep>)
    requires FedInv(f) && Linked(f.local.store, f.host, sid) && Wired(f.local.store, f.host, t)
    ensures g == FedExec(f, steps) && Drains(f, g, sid) && Drained(g, sid)
    ensures forall i :: 0 <= i < |steps| ==> steps[i] == Pull(sid)
    ensures AheadCancels(f, sid, TurnOf(f, t), t) ==> IsCancelled(g, t)
  {
    var n := |Ahead(f.local.store, sid, f.remote)|;
    g := DrainSome(f, sid, t, TurnOf(f, t), n);
    steps := Pulls(sid, n);
    PullTimesRun(f, sid, n);
    PullsShape(sid, n);
  }

  // ---------------------------------------------------------------- through another session

  /** The remote turn goes on and completes. */
  function Completion(f: Fed, t: Id): Event
    requires Wired(f.local.store, f.host, t)
  {
    Event(LastSeq(f.remote) + 1, TurnOf(f, t), Some(HomeUri(f, t)), TurnCompleted, FromBroker, JObj(map[]))
  }

  lemma CompletionFits(f: Fed, t: Id)
    requires FedInv(f) && Wired(f.local.store, f.host, t)
    ensures RemoteLogOk(f.remote + [Completion(f, t)])
  {
    TurnLinked(f, t);
    SessionRemote(f, Home(f, t));
  }

  lemma OtherRemote(f: Fed, a: Id, b: Id)
    requires FedInv(f) && Linked(f.local.store, f.host, a) && Linked(f.local.store, f.host, b) && a != b
    ensures f.local.store.links[SessionUri(a)].remoteUri != f.local.store.links[SessionUri(b)].remoteUri
  {}

  /** The remote log after the cancellation and the completion, seen from a session that has not moved. */
  ghost predicate Later(f: Fed, g: Fed, sid: Id, t: Id, events: seq<Event>)
    requires Wired(f.local.store, f.host, t)
  {
    && SessionUri(sid) in f.local.store.links && SessionUri(sid) in g.local.store.links
    && g.local.store.links[SessionUri(sid)] == f.local.store.links[SessionUri(sid)]
    && g.remote == f.remote + events + [Completion(f, t).(serverSeq := LastSeq(f.remote + events) + 1)]
    && LogOk(g.remote)
  }

  lemma AheadHas(s: State, sid: Id, remote: seq<Event>, e: Event)
    requires SessionUri(sid) in s.links && LogOk(remote)
    ensures e in Ahead(s, sid, remote) <==>
              e in remote && About(e, Some(SessionUri(s.links[SessionUri(sid)].remoteId))) && e.serverSeq > s.links[SessionUri(sid)].cursor
  {
    var link := s.links[SessionUri(sid)];
    var hi := if LastSeq(remote) < link.cursor then link.cursor else LastSeq(remote);
    WindowMembers(remote, Some(SessionUri(link.remoteId)), [], link.cursor, hi, e);
  }

  /** The view of another session shows nothing that sets the status of a turn at home. */
  lemma HomeElsewhere(f: Fed, sid: Id, t: Id, e: Event)
    requires FedInv(f) && Wired(f.local.store, f.host, t) && Linked(f.local.store, f.host, sid) && Home(f, t) != sid
    requires e.resource == TurnOf(f, t) && e.parent == Some(HomeUri(f, t))
    ensures !About(e, Some(SessionUri(f.local.store.links[SessionUri(sid)].remoteId)))
  {
    TurnLinked(f, t);
    SessionRemote(f, sid);
    OtherRemote(f, sid, Home(f, t));
  }

  lemma StrayEvent(f: Fed, g: Fed, sid: Id, t: Id, events: seq<Event>, e: Event)
    requires FedInv(f) && AtHome(f.local.store, f.host, f.remote, t) && Linked(f.local.store, f.host, sid) && Home(f, t) != sid
    requires CancelsTurn(events, f.local.store.links[SessionUri(sid)].remoteId, f.local.store.links[TurnUri(t)].remoteId)
    requires Later(f, g, sid, t, events)
    requires e in Ahead(g.local.store, sid, g.remote) && SetsStatus(e, TurnOf(f, t))
    ensures e.eventType == TurnCancelled
  {
    TurnLinked(f, t);
    AheadHas(g.local.store, sid, g.remote, e);
    if e !in events { HomeElsewhere(f, sid, t, e); }
  }

  lemma CancellationAhead(f: Fed, g: Fed, sid: Id, t: Id, events: seq<Event>) returns (i: nat)
    requires FedInv(f) && Wired(f.local.store, f.host, t) && Linked(f.local.store, f.host, sid)
    requires CancelsTurn(events, f.local.store.links[SessionUri(sid)].remoteId, f.local.store.links[TurnUri(t)].remoteId)
    requires Later(f, g, sid, t, events)
    ensures i < |Ahead(g.local.store, sid, g.remote)| && SetsStatus(Ahead(g.local.store, sid, g.remote)[i], TurnOf(f, t))
  {
    TurnLinked(f, t);
    SessionRemote(f, sid);
    var link := f.local.store.links[SessionUri(sid)];
    var k :| 0 <= k < |events| && Cancellation(events[k], link.remoteId, f.local.store.links[TurnUri(t)].remoteId);
    i := AddedIsAhead(f, g, sid, t, events, k);
  }

  lemma AddedIsAhead(f: Fed, g: Fed, sid: Id, t: Id, events: seq<Event>, k: int) returns (i: nat)
    requires Wired(f.local.store, f.host, t) && Later(f, g, sid, t, events) && Numbers(f.remote, f.local.store.links[SessionUri(sid)].cursor)
    requires 0 <= k < |events| && About(events[k], Some(SessionUri(f.local.store.links[SessionUri(sid)].remoteId)))
    ensures i < |Ahead(g.local.store, sid, g.remote)| && Ahead(g.local.store, sid, g.remote)[i] == events[k]
  {
    assert g.remote[|f.remote| + k] == events[k];
    AboveKnown(f.remote, g.remote, f.local.store.links[SessionUri(sid)].cursor, |f.remote| + k);
    AheadHas(g.local.store, sid, g.remote, events[k]);
    i :| 0 <= i < |Ahead(g.local.store, sid, g.remote)| && Ahead(g.local.store, sid, g.remote)[i] == events[k];
  }

  /** What lies ahead of the other session says of the turn that it was cancelled, and nothing else. */
  lemma StrayAhead(f: Fed, g: Fed, sid: Id, t: Id, events: seq<Event>, status: Status)
    requires FedInv(f) && AtHome(f.local.store, f.host, f.remote, t) && Linked(f.local.store, f.host, sid) && Home(f, t) != sid
    requires CancelsTurn(events, f.local.store.links[SessionUri(sid)].remoteId, f.local.store.links[TurnUri(t)].remoteId)
    requires Later(f, g, sid, t, events)
    ensures SaysCancelled(Ahead(g.local.store, sid, g.remote), TurnOf(f, t), status)
  {
    var ahead := Ahead(g.local.store, sid, g.remote);
    forall i | 0 <= i < |ahead| && SetsStatus(ahead[i], TurnOf(f, t)) ensures ahead[i].eventType == TurnCancelled {
      StrayEvent(f, g, sid, t, events, ahead[i]);
    }
    var k := CancellationAhead(f, g, sid, t, events);
  }

  // ---------------------------------------------------------------- the run that goes wrong

  lemma CancelledThrough(f: Fed, sid: Id, tid: Id, op: Option<Id>, now: nat, events: seq<Event>) returns (g: Fed)
    requires FedInv(f) && FedEnabled(f, ForwardCancel(sid, tid, op, now, events)) && Wired(f.local.store, f.host, tid)
    ensures g == FedTake(f, ForwardCancel(sid, tid, op, now, events)) && FedInv(g)
    ensures g.remote == f.remote + events && g.host == f.host && g.tracked == f.tracked
    ensures g.local.store.links == f.local.store.links && Evolves(f.local.store, g.local.store)
    ensures Wired(g.local.store, g.host, tid) && Home(g, tid) == Home(f, tid) && Linked(g.local.store, g.host, sid)
  {
    var step := ForwardCancel(sid, tid, op, now, events);
    g := FedStepInv(f, step);
    StepEvolves(f, step);
    CancelLinks(f.local.store, sid, tid, op, true, now);
    WiredKept(f.local.store, g.local.store, f.host, tid);
  }

  lemma Completes(f: Fed, t: Id) returns (g: Fed, steps: seq<FedStep>)
    requires FedInv(f) && Wired(f.local.store, f.host, t)
    ensures g == f.(remote := f.remote + [Completion(f, t)]) && g == FedExec(f, steps) && FedInv(g) && Unrestarted(steps)
  {
    var step := RemoteGrows([Completion(f, t)]);
    CompletionFits(f, t);
    GrowthKeeps(f, [Completion(f, t)]);
    g := FedNext(f, step);
    steps := FedExecOne(f, step, g);
  }

  /** Nothing but the store has changed, and that has moved on. */
  ghost predicate Onward(f: Fed, g: Fed) {
    FedInv(g) && OnlyStore(f, g) && Evolves(f.local.store, g.local.store)
  }

  lemma OnwardThen(f: Fed, m: Fed, g: Fed)
    requires Onward(f, m) && Onward(m, g)
    ensures Onward(f, g)
  {
    EvolvesTransitive(f.local.store, m.local.store, g.local.store);
  }

  lemma StaysDrained(f: Fed, g: Fed, sid: Id, home: Id)
    requires Drained(f, home) && Drains(f, g, sid) && home != sid
    ensures Drained(g, home)
  {}

  lemma OnlyPulls(steps: seq<FedStep>, sid: Id)
    requires forall i :: 0 <= i < |steps| ==> steps[i] == Pull(sid)
    ensures Unrestarted(steps)
  {}

  lemma DrainHome(f: Fed, t: Id, other: Id) returns (m: Fed, steps: seq<FedStep>)
    requires FedInv(f) && Wired(f.local.store, f.host, t) && Home(f, t) != other && Linked(f.local.store, f.host, other)
    ensures m == FedExec(f, steps) && Unrestarted(steps) && Onward(f, m) && Drained(m, Home(f, t))
    ensures Linked(m.local.store, m.host, other) && m.local.store.links[SessionUri(other)] == f.local.store.links[SessionUri(other)]
    ensures Wired(m.local.store, m.host, t) && TurnOf(m, t) == TurnOf(f, t)
  {
    TurnLinked(f, t);
    m, steps := DrainSession(f, Home(f, t), t);
    OnlyPulls(steps, Home(f, t));
    WiredKept(f.local.store, m.local.store, f.host, t);
  }

  lemma DrainOther(m: Fed, t: Id, other: Id, home: Id) returns (g: Fed, steps: seq<FedStep>)
    requires FedInv(m) && Wired(m.local.store, m.host, t) && Linked(m.local.store, m.host, other) && Drained(m, home) && home != other
    ensures g == FedExec(m, steps) && Unrestarted(steps) && Onward(m, g) && Drained(g, home) && Drained(g, other)
    ensures AheadCancels(m, other, TurnOf(m, t), t) ==> IsCancelled(g, t)
  {
    g, steps := DrainSession(m, other, t);
    OnlyPulls(steps, other);
    StaysDrained(m, g, other, home);
  }

  /** Three stretches of a run: the remote turn completes, one session is drained, then the other. */
  lemma ThreeStretches(f: Fed, f1: Fed, a: seq<FedStep>, m: Fed, b: seq<FedStep>, g: Fed, c: seq<FedStep>) returns (steps: seq<FedStep>)
    requires f1 == FedExec(f, a) && m == FedExec(f1, b) && g == FedExec(m, c) && Unrestarted(a) && Unrestarted(b) && Unrestarted(c)
    ensures FedReaches(f, steps, g) && Unrestarted(steps)
  {
    FedExecConcat(f, a, b);
    FedExecConcat(f, a + b, c);
    steps := a + b + c;
    FedExecReaches(f, steps, g);
  }

  /** Drains the turn's session first and the other one second, where a cancellation is waiting. */
  lemma DrainBoth(f: Fed, t: Id, other: Id) returns (b: seq<FedStep>, m: Fed, c: seq<FedStep>, g: Fed)
    requires FedInv(f) && Wired(f.local.store, f.host, t) && Home(f, t) != other && Linked(f.local.store, f.host, other)
    requires forall status: Status :: SaysCancelled(Ahead(f.local.store, other, f.remote), TurnOf(f, t), status)
    ensures m == FedExec(f, b) && g == FedExec(m, c) && Unrestarted(b) && Unrestarted(c)
    ensures Onward(f, g) && Drained(g, Home(f, t)) && Drained(g, other) && IsCancelled(g, t)
  {
    m, b := DrainHome(f, t, other);
    StillAhead(f, m, t, other);
    g, c := DrainOther(m, t, other, Home(f, t));
    OnwardThen(f, m, g);
  }

  lemma StillAhead(f: Fed, m: Fed, t: Id, other: Id)
    requires Wired(f.local.store, f.host, t) && SessionUri(other) in f.local.store.links
    requires forall status: Status :: SaysCancelled(Ahead(f.local.store, other, f.remote), TurnOf(f, t), status)
    requires m.remote == f.remote && Linked(m.local.store, m.host, other) && t in m.local.store.turns
    requires m.local.store.links[SessionUri(other)] == f.local.store.links[SessionUri(other)]
    ensures AheadCancels(m, other, TurnOf(f, t), t)
  {
    assert SaysCancelled(Ahead(f.local.store, other, f.remote), TurnOf(f, t), m.local.store.turns[t].status);
  }

  /** The cancellation waits, under the session it named, in the log that goes on to say the turn completed. */
  lemma CancellationWaits(f: Fed, sid: Id, tid: Id, f1: Fed, f2: Fed, events: seq<Event>)
    requires FedInv(f) && AtHome(f.local.store, f.host, f.remote, tid) && Linked(f.local.store, f.host, sid) && Home(f, tid) != sid
    requires CancelsTurn(events, f.local.store.links[SessionUri(sid)].remoteId, f.local.store.links[TurnUri(tid)].remoteId)
    requires f1.remote == f.remote + events && f1.host == f.host && f1.local.store.links == f.local.store.links
    requires Wired(f1.local.store, f1.host, tid) && Home(f1, tid) == Home(f, tid)
    requires f2 == f1.(remote := f1.remote + [Completion(f1, tid)]) && LogOk(f2.remote)
    ensures forall status: Status :: SaysCancelled(Ahead(f2.local.store, sid, f2.remote), TurnOf(f2, tid), status)
  {
    forall status: Status ensures SaysCancelled(Ahead(f2.local.store, sid, f2.remote), TurnOf(f2, tid), status) {
      StrayAhead(f, f2, sid, tid, events, status);
    }
  }

  /** After such a cancellation: the remote turn completes nevertheless, the turn's session is drained
      and then the other one. */
  lemma StrayRun(f1: Fed, sid: Id, tid: Id, f2: Fed, a: seq<FedStep>) returns (steps: seq<FedStep>, g: Fed)
    requires f2 == FedExec(f1, a) && Unrestarted(a) && FedInv(f2)
    requires Wired(f2.local.store, f2.host, tid) && Home(f2, tid) != sid && Linked(f2.local.store, f2.host, sid)
    requires forall status: Status :: SaysCancelled(Ahead(f2.local.store, sid, f2.remote), TurnOf(f2, tid), status)
    ensures FedReaches(f1, steps, g) && Unrestarted(steps) && Onward(f2, g)
    ensures Drained(g, Home(f2, tid)) && Drained(g, sid) && IsCancelled(g, tid)
  {
    var b, m, c;
    b, m, c, g := DrainBoth(f2, tid, sid);
    steps := ThreeStretches(f1, f2, a, m, b, g, c);
  }

  lemma StrayStart(f: Fed, sid: Id, tid: Id, op: Option<Id>, now: nat, events: seq<Event>)
    returns (f1: Fed, f2: Fed, a: seq<FedStep>)
    requires FedInv(f) && FedEnabled(f, ForwardCancel(sid, tid, op, now, events))
    requires AtHome(f.local.store, f.host, f.remote, tid) && Home(f, tid) != sid
    ensures f1 == FedTake(f, ForwardCancel(sid, tid, op, now, events)) && f1.tracked == f.tracked
    ensures f2 == FedExec(f1, a) && Unrestarted(a) && FedInv(f2)
    ensures Wired(f1.local.store, f1.host, tid) && f2 == f1.(remote := f1.remote + [Completion(f1, tid)])
    ensures Home(f1, tid) != sid && Linked(f2.local.store, f2.host, sid)
    ensures forall status: Status :: SaysCancelled(Ahead(f2.local.store, sid, f2.remote), TurnOf(f2, tid), status)
  {
    f1 := CancelledThrough(f, sid, tid, op, now, events);
    f2, a := Completes(f1, tid);
    CancellationWaits(f, sid, tid, f1, f2, events);
  }

  /** The turn is left cancelled, though the last the remote log says of it is that it completed. */
  ghost predicate Diverges(f: Fed, steps: seq<FedStep>, g: Fed, t: Id, other: Id)
    requires Wired(f.local.store, f.host, t)
  {
    && DrainsBoth(f, steps, g, t, other) && IsCancelled(g, t)
    && Wired(g.local.store, g.host, t) && StatusAt(g.remote, TurnOf(g, t), LastSeq(g.remote)) == Completed
  }

  lemma RunDiverges(f1: Fed, f2: Fed, steps: seq<FedStep>, g: Fed, tid: Id, sid: Id)
    requires Wired(f1.local.store, f1.host, tid) && f2 == f1.(remote := f1.remote + [Completion(f1, tid)]) && LogOk(f2.remote)
    requires FedReaches(f1, steps, g) && Unrestarted(steps) && tid in f1.tracked
    requires g.host == f1.host && g.remote == f2.remote && g.tracked == f1.tracked && Evolves(f2.local.store, g.local.store)
    requires Drained(g, Home(f2, tid)) && Drained(g, sid) && IsCancelled(g, tid)
    ensures Diverges(f1, steps, g, tid, sid)
  {
    StatusLast(g.remote, TurnOf(f1, tid), |f1.remote|);
    WiredKept(f1.local.store, g.local.store, f1.host, tid);
  }

  lemma StrayCancelDiverges(f: Fed, sid: Id, tid: Id, op: Option<Id>, now: nat, events: seq<Event>)
    returns (f1: Fed, steps: seq<FedStep>, g: Fed)
    requires FedInv(f) && FedEnabled(f, ForwardCancel(sid, tid, op, now, events)) && tid in f.tracked
    requires AtHome(f.local.store, f.host, f.remote, tid) && Home(f, tid) != sid
    ensures f1 == FedTake(f, ForwardCancel(sid, tid, op, now, events))
    ensures Wired(f1.local.store, f1.host, tid) && Diverges(f1, steps, g, tid, sid)
  {
    var f2, a;
    f1, f2, a := StrayStart(f, sid, tid, op, now, events);
    steps, g := StrayRun(f1, sid, tid, f2, a);
    RunDiverges(f1, f2, steps, g, tid, sid);
  }

  /** Exactly which cancellations convergence survives. In a run without a local restart, let the remote
      log speak of a tracked turn at home only, and let the turn be cancelled through a linked session.
      Every continuation that speaks of it at home and drains both sessions leaves it with the last status
      in the remote log if and only if the session named was the turn's own. */
  lemma ConvergesIffOwnSession(host: Id, before: seq<FedStep>, f: Fed, sid: Id, tid: Id, op: Option<Id>, now: nat, events: seq<Event>)
    requires FedReaches(FedInitial(host), before, f) && Unrestarted(before)
    requires FedEnabled(f, ForwardCancel(sid, tid, op, now, events)) && tid in f.tracked
    requires AtHome(f.local.store, host, f.remote, tid)
    ensures AlwaysConverges(FedTake(f, ForwardCancel(sid, tid, op, now, events)), tid, sid) <==> f.local.store.turns[tid].sessionId == sid
  {
    ReachedTracked(host, before, f);
    if Home(f, tid) == sid {
      var g := CancelledThrough(f, sid, tid, op, now, events);
      StepTracks(f, ForwardCancel(sid, tid, op, now, events));
      CancelledAtHome(f, sid, tid, op, now, events);
      AtHomeConverges(g, tid, sid);
    } else {
      var f1, steps, g := StrayCancelDiverges(f, sid, tid, op, now, events);
    }
  }

  // ---------------------------------------------------------------- such a cancellation does occur

  /** A session is created on the remote broker under a new id, and linked. */
  lemma CreateOnStore(s: State, host: Id, remote: RemoteSession)
    requires Bounded(s) && forall u :: u in s.links && s.links[u].host == host ==> s.links[u].remoteUri != remote.uri
    ensures var s' := CreateRemote(s, host, None, Ok(remote)).0;
            var sid := s.nextId + 1;
            && sid in s'.sessions && s'.links == s.links[SessionUri(sid) := Link(SessionUri(sid), SessionLink, sid, host, remote.uri, remote.id, remote.cursor)]
  {
    var (s0, key) := OperationKey(s, None);
    var s1 := s0.(ops := RecordPending(s0.ops, key, host, OpCreateSession));
    AdoptedRows(s1, remote);
    var s2 := AdoptSession(s1, remote);
    var link := Link(SessionUri(s1.nextId), SessionLink, s1.nextId, host, remote.uri, remote.id, remote.cursor);
    assert !Clashes(s2.links, link);
    assert s1.nextId in s2.sessions;
  }

  lemma NewSession(f: Fed, session: Id) returns (g: Fed, sid: Id)
    requires FedInv(f) && Unused(f.remote, SessionUri(session))
    requires Unlinked(f.local.store.links, SessionUri(session))
    ensures FedEnabled(f, ForwardCreate(None, session, 0, Idle)) && g == FedTake(f, ForwardCreate(None, session, 0, Idle)) && FedInv(g)
    ensures Created(f, g, session, 0) && Evolves(f.local.store, g.local.store)
    ensures Linked(g.local.store, g.host, sid) && SessionUri(sid) !in f.local.store.links
    ensures g.local.store.links == f.local.store.links[SessionUri(sid) := g.local.store.links[SessionUri(sid)]]
    ensures g.local.store.links[SessionUri(sid)].remoteId == session && g.local.store.links[SessionUri(sid)].remoteUri == SessionUri(session)
  {
    g := CreateIs(f, None, session, 0, Idle);
    CreatedKeeps(f, g, session, 0);
    sid := NewLink(f, session, g);
  }

  lemma NewLink(f: Fed, session: Id, g: Fed) returns (sid: Id)
    requires Bounded(f.local.store) && Unlinked(f.local.store.links, SessionUri(session))
    requires FedEnabled(f, ForwardCreate(None, session, 0, Idle)) && g == FedTake(f, ForwardCreate(None, session, 0, Idle))
    ensures sid in g.local.store.sessions && SessionUri(sid) !in f.local.store.links && SessionUri(sid) in g.local.store.links
    ensures g.local.store.links == f.local.store.links[SessionUri(sid) := g.local.store.links[SessionUri(sid)]]
    ensures var link := g.local.store.links[SessionUri(sid)]; link.remoteId == session && link.remoteUri == SessionUri(session) && link.host == f.host
  {
    sid := f.local.store.nextId + 1;
    CreateOnStore(f.local.store, f.host, RemoteSession(SessionUri(session), session, LastSeq(g.remote), 0, Idle));
    FreshUnlinked(f.local.store);
  }

  lemma CreatedUnused(f: Fed, g: Fed, session: Id, u: Uri)
    requires Created(f, g, session, 0) && Unused(f.remote, u) && u != SessionUri(session)
    ensures Unused(g.remote, u)
  {}

  lemma FirstSession(f: Fed) returns (g: Fed, b: Id)
    requires FedInv(f) && f.remote == [] && f.local.store.links == map[]
    ensures g == FedNext(f, ForwardCreate(None, 0, 0, Idle)) && FedInv(g) && g.host == f.host && Linked(g.local.store, g.host, b)
    ensures Unused(g.remote, SessionUri(1)) && Unused(g.remote, TurnUri(2)) && Unlinked(g.local.store.links, SessionUri(1))
  {
    g, b := NewSession(f, 0);
    CreatedUnused(f, g, 0, SessionUri(1));
    CreatedUnused(f, g, 0, TurnUri(2));
  }

  predicate Unlinked(links: map<Uri, Link>, remote: Uri) {
    forall u :: u in links ==> links[u].remoteUri != remote
  }

  lemma SecondSession(f: Fed, b: Id) returns (g: Fed, a: Id)
    requires FedInv(f) && Linked(f.local.store, f.host, b) && Unused(f.remote, SessionUri(1)) && Unused(f.remote, TurnUri(2))
    requires Unlinked(f.local.store.links, SessionUri(1))
    ensures g == FedNext(f, ForwardCreate(None, 1, 0, Idle)) && FedInv(g) && g.host == f.host
    ensures Linked(g.local.store, g.host, a) && a != b && Unused(g.remote, TurnUri(2)) && Evolves(f.local.store, g.local.store)
  {
    g, a := NewSession(f, 1);
    CreatedUnused(f, g, 1, TurnUri(2));
  }

  /** Two linked sessions. */
  lemma TwoSessions(host: Id) returns (first: FedStep, f1: Fed, second: FedStep, f2: Fed, a: Id, b: Id)
    ensures f1 == FedNext(FedInitial(host), first) && f2 == FedNext(f1, second) && NoRestart(first) && NoRestart(second)
    ensures FedInv(f2) && f2.host == host && Linked(f2.local.store, host, a) && Linked(f2.local.store, host, b)
    ensures a != b && Unused(f2.remote, TurnUri(2))
  {
    first, second := ForwardCreate(None, 0, 0, Idle), ForwardCreate(None, 1, 0, Idle);
    FedInitialInv(host);
    f1, b := FirstSession(FedInitial(host));
    f2, a := SecondSession(f1, b);
    StillLinked(f1, f2, b);
  }

  lemma SentSend(f: Fed, b: Id) returns (g: Fed, tid: Id)
    requires FedInv(f) && Linked(f.local.store, f.host, b) && Unused(f.remote, TurnUri(2))
    ensures FedEnabled(f, ForwardSend(b, "", None, 2)) && g == FedTake(f, ForwardSend(b, "", None, 2)) && FedInv(g)
    ensures Sent(f, g, b, 2, "", tid) && tid in g.tracked && Evolves(f.local.store, g.local.store)
  {
    var h, t := SendIs(f, b, "", None, 2);
    SentSys(f, h, b, "", None, 2, t);
    SentKeeps(f, h, b, 2, "", t);
    g, tid := h, t;
  }

  lemma SentWired(f: Fed, g: Fed, b: Id, tid: Id)
    requires Linked(f.local.store, f.host, b) && Sent(f, g, b, 2, "", tid) && Unused(f.remote, TurnUri(2))
    ensures AtHome(g.local.store, g.host, g.remote, tid) && Home(g, tid) == b
  {}

  /** A message to one of them. */
  lemma OneMessage(f: Fed, b: Id) returns (send: FedStep, g: Fed, tid: Id)
    requires FedInv(f) && Linked(f.local.store, f.host, b) && Unused(f.remote, TurnUri(2))
    ensures g == FedNext(f, send) && NoRestart(send) && FedInv(g) && g.host == f.host && Evolves(f.local.store, g.local.store)
    ensures AtHome(g.local.store, g.host, g.remote, tid) && Home(g, tid) == b && tid in g.tracked
  {
    send := ForwardSend(b, "", None, 2);
    g, tid := SentSend(f, b);
    SentWired(f, g, b, tid);
  }

  lemma StillLinked(f: Fed, g: Fed, a: Id)
    requires Linked(f.local.store, f.host, a) && Evolves(f.local.store, g.local.store) && g.host == f.host
    ensures Linked(g.local.store, g.host, a)
  {
    assert g.local.store.links[SessionUri(a)].(cursor := 0) == f.local.store.links[SessionUri(a)].(cursor := 0);
  }

  lemma CancelOffered(f: Fed, a: Id, tid: Id) returns (events: seq<Event>)
    requires FedInv(f) && Linked(f.local.store, f.host, a) && Wired(f.local.store, f.host, tid)
    ensures FedEnabled(f, ForwardCancel(a, tid, None, 0, events))
  {
    var session, turn := f.local.store.links[SessionUri(a)].remoteId, f.local.store.links[TurnUri(tid)].remoteId;
    var e := Event(LastSeq(f.remote) + 1, TurnUri(turn), Some(SessionUri(session)), TurnCancelled, FromBroker, JObj(map[]));
    events := [e];
    assert RemoteLogOk(f.remote + events);
    assert Cancellation(events[0], session, turn);
  }

  lemma HomeStays(f: Fed, steps: seq<FedStep>, g: Fed, t: Id)
    requires FedInv(f) && Wired(f.local.store, f.host, t) && FedReaches(f, steps, g)
    ensures g.host == f.host && Wired(g.local.store, g.host, t) && Home(g, t) == Home(f, t)
  {
    FedReachesExec(f, steps, g);
    var g0, expanded := RunsArePulls(f, steps);
    var g1 := PullFreeAdvance(f, expanded);
    WiredKept(f.local.store, g.local.store, f.host, t);
  }

  lemma FourSteps(f: Fed, s1: FedStep, f1: Fed, s2: FedStep, f2: Fed, s3: FedStep, f3: Fed, s4: FedStep, f4: Fed, rest: seq<FedStep>, g: Fed)
    returns (steps: seq<FedStep>)
    requires f1 == FedNext(f, s1) && f2 == FedNext(f1, s2) && f3 == FedNext(f2, s3) && f4 == FedNext(f3, s4) && FedReaches(f4, rest, g)
    requires NoRestart(s1) && NoRestart(s2) && NoRestart(s3) && NoRestart(s4) && Unrestarted(rest)
    ensures FedReaches(f, steps, g) && Unrestarted(steps)
  {
    FedReachesExec(f4, rest, g);
    FedExecLast(f, [], s1);
    FedExecLast(f, [] + [s1], s2);
    FedExecLast(f, [] + [s1] + [s2], s3);
    FedExecLast(f, [] + [s1] + [s2] + [s3], s4);
    FedExecConcat(f, [] + [s1] + [s2] + [s3] + [s4], rest);
    steps := [] + [s1] + [s2] + [s3] + [s4] + rest;
    FedExecReaches(f, steps, g);
  }

  /** A turn of one session is about to be cancelled through another. */
  lemma BeforeCancel(host: Id) returns (s1: FedStep, f1: Fed, s2: FedStep, f2: Fed, s3: FedStep, f3: Fed, a: Id, t: Id, events: seq<Event>)
    ensures f1 == FedNext(FedInitial(host), s1) && f2 == FedNext(f1, s2) && f3 == FedNext(f2, s3)
    ensures NoRestart(s1) && NoRestart(s2) && NoRestart(s3)
    ensures FedInv(f3) && f3.host == host && t in f3.tracked && AtHome(f3.local.store, f3.host, f3.remote, t) && Home(f3, t) != a
    ensures FedEnabled(f3, ForwardCancel(a, t, None, 0, events))
  {
    var b;
    s1, f1, s2, f2, a, b := TwoSessions(host);
    s3, f3, t := OneMessage(f2, b);
    StillLinked(f2, f3, a);
    events := CancelOffered(f3, a, t);
  }

  /** A turn of one linked session, cancelled through another, in a run from empty stores: both
      sessions are drained in the end and the turn has not converged. */
  lemma CrossCancelOccurs(host: Id) returns (steps: seq<FedStep>, g: Fed, a: Id, t: Id)
    ensures FedReaches(FedInitial(host), steps, g) && Unrestarted(steps) && g.host == host && Wired(g.local.store, g.host, t) && t in g.tracked
    ensures Drained(g, a) && Drained(g, Home(g, t)) && Home(g, t) != a && !Converged(g, t)
  {
    var s1, f1, s2, f2, s3, f3, events;
    s1, f1, s2, f2, s3, f3, a, t, events := BeforeCancel(host);
    var cancel := ForwardCancel(a, t, None, 0, events);
    var f4, rest;
    f4, rest, g := StrayCancelDiverges(f3, a, t, None, 0, events);
    var f5 := CancelledThrough(f3, a, t, None, 0, events);
    HomeStays(f4, rest, g, t);
    steps := FourSteps(FedInitial(host), s1, f1, s2, f2, s3, f3, cancel, f4, rest, g);
  }
}

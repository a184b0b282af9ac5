/** The cursor a client gets from `send_message` misses nothing the background turn does later. */
module Delivery {
  import opened Types
  import opened Vocabulary
  import opened Wrappers
  import opened EventLog
  import opened StoreModel
  import opened BrokerModel
  import opened BrokerInvariants
  import opened BrokerSteps
  import opened BrokerRuns

  ghost predicate NewTarget(log: seq<Event>, log': seq<Event>, target: Uri) {
    log <= log' && forall i :: |log| <= i < |log'| ==> About(log'[i], Some(target))
  }

  lemma {:induction false} IngestAllTargets(s: State, sid: Id, backend: Id, tid: Id, events: seq<BackendEvent>)
    ensures NewTarget(s.log, IngestAll(s, sid, backend, tid, events).log, TurnUri(tid))
  {
    if events != [] { IngestAllTargets(s, sid, backend, tid, events[..|events| - 1]); }
  }

  predicate TaskStep(step: Step, tid: Id) {
    || (step.DoSink? && step.tid == tid)
    || (step.DoFinalize? && step.tid == tid)
    || (step.DoFail? && step.tid == tid)
  }

  /** Everything the background task logs, requests included, concerns the turn's URI. */
  lemma TaskStepTargets(y: Sys, step: Step, tid: Id)
    requires Enabled(y, step) && TaskStep(step, tid)
    ensures NewTarget(y.store.log, Take(y, step).store.log, TurnUri(tid))
  {
    if step.DoFinalize? {
      IngestAllTargets(y.store, y.tasks[tid].sessionId, y.tasks[tid].backend, tid, step.finished.events);
    }
  }

  lemma LocalSendReply(s: State, sid: Id, message: string, op: Option<Id>, answer: Result<RemoteTurn>)
    requires SendMessage(s, sid, message, op, answer).1.Ok? && SessionUri(sid) !in s.links
    ensures var (s', reply) := SendMessage(s, sid, message, op, answer);
            reply.value == SendReply(s.nextId, Running, LastSeq(s'.log)) && s' == OpenTurn(s, sid, message, FromBroker)
  {}

  /** For every run before the send, every run after it and every step the turn's background task
      takes in that run: each event the step logs lies above the reply's cursor and is in the unfiltered
      view of the turn's URI from that cursor, so polling from it delivers all of them. */
  lemma ReplyCursorMissesNothing(y: Sys, send: Step, reply: SendReply, steps: seq<Step>, states: seq<Sys>, n: nat, e: Event)
    requires Reachable(y) && send.DoSend? && SessionUri(send.sid) !in y.store.links
    requires SendMessage(y.store, send.sid, send.message, send.op, send.turnAnswer).1 == Ok(reply)
    requires Trace(Next(y, send), steps, states) && n < |steps| && TaskStep(steps[n], reply.turnId)
    requires e in Added(states[n].store.log, states[n + 1].store.log)
    ensures e.serverSeq > reply.eventCursor
    ensures e in Window(states[n + 1].store.log, Some(TurnUri(reply.turnId)), [], reply.eventCursor, LastSeq(states[n + 1].store.log))
  {
    var y1, z := Next(y, send), states[n];
    ReachableInv(y);
    LocalSendReply(y.store, send.sid, send.message, send.op, send.turnAnswer);
    StepInv(y, send);
    TraceExec(y1, steps, states, n);
    ExecInv(y1, steps[..n]);
    assert Index(n);
    if Enabled(z, steps[n]) { TaskLogsAbove(y1, z, steps[n], reply, e); }
  }

  lemma TaskLogsAbove(y1: Sys, z: Sys, step: Step, reply: SendReply, e: Event)
    requires SysInv(z) && y1.store.log <= z.store.log && y1.store.log != [] && reply.eventCursor == LastSeq(y1.store.log)
    requires Enabled(z, step) && TaskStep(step, reply.turnId) && e in Added(z.store.log, Take(z, step).store.log)
    ensures e.serverSeq > reply.eventCursor
    ensures var log := Take(z, step).store.log;
            e in Window(log, Some(TurnUri(reply.turnId)), [], reply.eventCursor, LastSeq(log))
  {
    StepInv(z, step);
    var log := Take(z, step).store.log;
    AboveReply(y1.store.log, z.store.log, log, reply.eventCursor, e);
    TaskStepTargets(z, step, reply.turnId);
    WindowMembers(log, Some(TurnUri(reply.turnId)), [], reply.eventCursor, LastSeq(log), e);
  }

  lemma AboveReply(log0: seq<Event>, log1: seq<Event>, log2: seq<Event>, cursor: int, e: Event)
    requires LogOk(log2) && log0 <= log1 <= log2 && log0 != [] && cursor == LastSeq(log0)
    requires e in Added(log1, log2)
    ensures cursor < e.serverSeq <= LastSeq(log2)
  {
    assert log2[|log0| - 1] == log0[|log0| - 1];
  }

  /** Requests the adapter raises on the session's behalf, which attach to an active turn of the session
      or to the session itself, lie above the reply's cursor too; they are in the turn's view from it
      exactly when they attach to this turn. */
  lemma RaisedRequestsAboveReply(y: Sys, send: Step, reply: SendReply, steps: seq<Step>, states: seq<Sys>, n: nat, e: Event)
    requires Reachable(y) && send.DoSend? && SessionUri(send.sid) !in y.store.links
    requires SendMessage(y.store, send.sid, send.message, send.op, send.turnAnswer).1 == Ok(reply)
    requires Trace(Next(y, send), steps, states) && n < |steps| && steps[n].DoRaise?
    requires e in Added(states[n].store.log, states[n + 1].store.log)
    ensures e.serverSeq > reply.eventCursor
    ensures e in Window(states[n + 1].store.log, Some(TurnUri(reply.turnId)), [], reply.eventCursor, LastSeq(states[n + 1].store.log)) <==>
            steps[n].turn == Some(reply.turnId)
  {
    var y1, z := Next(y, send), states[n];
    ReachableInv(y);
    LocalSendReply(y.store, send.sid, send.message, send.op, send.turnAnswer);
    StepInv(y, send);
    TraceExec(y1, steps, states, n);
    ExecInv(y1, steps[..n]);
    assert Index(n);
    if Enabled(z, steps[n]) { RaiseLogsAbove(y1, z, steps[n], reply, e); }
  }

  lemma RaiseLogsAbove(y1: Sys, z: Sys, step: Step, reply: SendReply, e: Event)
    requires SysInv(z) && y1.store.log <= z.store.log && y1.store.log != [] && reply.eventCursor == LastSeq(y1.store.log)
    requires Enabled(z, step) && step.DoRaise? && e in Added(z.store.log, Take(z, step).store.log)
    ensures e.serverSeq > reply.eventCursor
    ensures var log := Take(z, step).store.log;
            e in Window(log, Some(TurnUri(reply.turnId)), [], reply.eventCursor, LastSeq(log)) <==> step.turn == Some(reply.turnId)
  {
    StepInv(z, step);
    var log := Take(z, step).store.log;
    AboveReply(y1.store.log, z.store.log, log, reply.eventCursor, e);
    RaisedTargets(z.store, step.sid, step.turn, step.kind, step.backend, step.payload, reply.turnId, e);
    WindowMembers(log, Some(TurnUri(reply.turnId)), [], reply.eventCursor, LastSeq(log), e);
  }

  lemma RaisedTargets(s: State, sid: Id, turn: Option<Id>, kind: RequestKind, backend: Id, payload: Json, tid: Id, e: Event)
    requires e in Added(s.log, RaiseRequest(s, sid, turn, kind, if turn.Some? then TurnUri(turn.value) else SessionUri(sid), FromBackend(backend), payload).log)
    ensures About(e, Some(TurnUri(tid))) <==> turn == Some(tid)
  {}

  /** A client that then polls the turn's URI, however its polls interleave with further appends,
      has received the event as soon as its cursor has passed it. */
  lemma PollingDelivers(log: seq<Event>, tid: Id, cursor: int, steps: seq<ReaderStep>, e: Event)
    requires Ascending(log) && e in Window(log, Some(TurnUri(tid)), [], cursor, LastSeq(log))
    ensures var r := ReaderRun(Reader(log, cursor, []), steps, Some(TurnUri(tid)), []);
            e in r.seen <==> e.serverSeq <= r.cursor
  {
    WindowMembers(log, Some(TurnUri(tid)), [], cursor, LastSeq(log), e);
    ReaderDelivers(log, cursor, steps, Some(TurnUri(tid)), [], e);
    ReaderExactlyOnce(log, cursor, steps, Some(TurnUri(tid)), []);
  }

  // ---------------------------------------------------------------- clients of a running broker

  /** A client's poll: at which state of the run, and with which limit. */
  datatype Poll = Poll(at: nat, limit: nat)

  datatype Client = Client(cursor: int, seen: seq<Event>)

  /** Polls are made in the order of the run. */
  ghost predicate InOrder(polls: seq<Poll>, length: nat) {
    && (forall i :: 0 <= i < |polls| ==> polls[i].at < length)
    && (forall i, j :: 0 <= i < j < |polls| ==> polls[i].at <= polls[j].at)
  }

  ghost function Collected(states: seq<Sys>, polls: seq<Poll>, start: int, target: Option<Uri>, types: seq<EventType>): Client
    requires InOrder(polls, |states|)
  {
    if polls == [] then Client(start, [])
    else
      var c := Collected(states, polls[..|polls| - 1], start, target, types);
      var last := polls[|polls| - 1];
      var page := Page(states[last.at].store.log, target, c.cursor, last.limit, types);
      Client(NextCursor(page, c.cursor), c.seen + page)
  }

  /** The log between two states of a run only grows. */
  lemma {:induction false} LogGrows(y: Sys, steps: seq<Step>, states: seq<Sys>, i: nat, j: nat)
    requires SysInv(y) && Trace(y, steps, states) && i <= j <= |steps|
    ensures SysInv(states[j]) && states[i].store.log <= states[j].store.log
  {
    if i == j {
      TraceExec(y, steps, states, i);
      ExecInv(y, steps[..i]);
    } else {
      LogGrows(y, steps, states, i, j - 1);
      assert Index(j - 1) && states[j] == Next(states[j - 1], steps[j - 1]);
      if Enabled(states[j - 1], steps[j - 1]) { StepInv(states[j - 1], steps[j - 1]); }
    }
  }

  /** Growth beyond a cursor that lies in the log, or at the start, leaves what is behind it. */
  lemma AppendedBeyond(log: seq<Event>, log': seq<Event>, k: nat)
    requires LogOk(log') && log <= log' && |log| <= k < |log'|
    ensures LastSeq(log) < log'[k].serverSeq
  {
    if log != [] { assert log'[|log| - 1].serverSeq < log'[k].serverSeq; }
  }

  lemma WindowStays(log: seq<Event>, log': seq<Event>, target: Option<Uri>, types: seq<EventType>, start: int, cursor: int)
    requires LogOk(log') && log <= log' && (cursor == start || cursor <= LastSeq(log))
    ensures Window(log', target, types, start, cursor) == Window(log, target, types, start, cursor)
  {
    var more := log'[|log|..];
    assert log' == log + more;
    forall k | 0 <= k < |more| ensures more[k].serverSeq <= start || cursor < more[k].serverSeq {
      AppendedBeyond(log, log', |log| + k);
    }
    WindowEmpty(more, target, types, start, cursor);
    WindowConcat(log, more, target, types, start, cursor);
  }

  lemma {:induction false} CollectedIs(y: Sys, steps: seq<Step>, states: seq<Sys>, polls: seq<Poll>, start: int, target: Option<Uri>, types: seq<EventType>, n: nat)
    requires SysInv(y) && LogOk(y.store.log) && Trace(y, steps, states) && n <= |steps|
    requires InOrder(polls, |states|) && forall i :: 0 <= i < |polls| ==> polls[i].at <= n
    ensures var c := Collected(states, polls, start, target, types);
            && start <= c.cursor && (c.cursor == start || c.cursor <= LastSeq(states[n].store.log))
            && c.seen == Window(states[n].store.log, target, types, start, c.cursor)
  {
    LogGrows(y, steps, states, n, n);
    if polls == [] {
      WindowEmpty(states[n].store.log, target, types, start, start);
    } else {
      var front, last := polls[..|polls| - 1], polls[|polls| - 1];
      var c := Collected(states, front, start, target, types);
      CollectedIs(y, steps, states, front, start, target, types, last.at);
      LogGrows(y, steps, states, last.at, n);
      LogGrows(y, steps, states, last.at, last.at);
      PolledOnce(states[last.at].store.log, states[n].store.log, c, last.limit, start, target, types);
    }
  }

  lemma PolledOnce(log: seq<Event>, log': seq<Event>, c: Client, limit: nat, start: int, target: Option<Uri>, types: seq<EventType>)
    requires LogOk(log) && LogOk(log') && log <= log'
    requires start <= c.cursor && (c.cursor == start || c.cursor <= LastSeq(log)) && c.seen == Window(log, target, types, start, c.cursor)
    ensures var page := Page(log, target, c.cursor, limit, types);
            var next := NextCursor(page, c.cursor);
            && start <= next && (next == start || next <= LastSeq(log'))
            && c.seen + page == Window(log', target, types, start, next)
  {
    var page := Page(log, target, c.cursor, limit, types);
    var next := NextCursor(page, c.cursor);
    PollIsWindow(log, target, c.cursor, limit, types);
    WindowSplit(log, target, types, start, c.cursor, next);
    WindowStays(log, log', target, types, start, next);
    LastGrows(log, log');
  }

  lemma LastGrows(log: seq<Event>, log': seq<Event>)
    requires LogOk(log') && log <= log'
    ensures LastSeq(log) <= LastSeq(log')
  {
    if log != [] { assert log'[|log| - 1] == log[|log| - 1]; }
  }

  /** Exactly once, for a client of the running broker: whatever steps the broker takes between its
      polls, the pages a client collects with a fixed target and type filter are, in order, all matching
      events the log ever holds between its first and its current cursor. */
  lemma ClientSeesExactlyOnce(y: Sys, steps: seq<Step>, states: seq<Sys>, polls: seq<Poll>, start: int, target: Option<Uri>, types: seq<EventType>, e: Event)
    requires Reachable(y) && Trace(y, steps, states) && InOrder(polls, |states|)
    ensures var c := Collected(states, polls, start, target, types);
            var log := states[|steps|].store.log;
            && c.seen == Window(log, target, types, start, c.cursor) && Ascending(c.seen)
            && (e in c.seen <==> e in log && start < e.serverSeq <= c.cursor && About(e, target) && OfTypes(e, types))
  {
    ReachableInv(y);
    CollectedIs(y, steps, states, polls, start, target, types, |steps|);
    LogGrows(y, steps, states, |steps|, |steps|);
    var c := Collected(states, polls, start, target, types);
    WindowAscending(states[|steps|].store.log, target, types, start, c.cursor);
    WindowMembers(states[|steps|].store.log, target, types, start, c.cursor, e);
  }
}

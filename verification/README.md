# Session broker: model and proofs

This project models the durable session broker and proves what its operations keep, over every
interleaving. The broker runs coding-agent sessions in the background: an append-only event log and
a few tables hold sessions, turns, requests, links to remote brokers and forwarded operations;
background tasks, clients, recovery and remote synchronisation all change them. Two smaller cores
sit beside it: daemon startup and shell rendering in the command line, and configuration layering.

How it is built:

- `Types`, `Wrappers`, `Text`: values. Identifiers from `new_id` are naturals from a counter; URIs,
  event types and origins are datatypes; payloads are JSON values.
- `EventLog`: the log and its reads, against a reference window (`Window`), and readers that feed
  `next_cursor` back while writers append.
- `StoreModel`, `BrokerModel`: what each store and broker operation does to the tables, and the
  machine `Step`/`Take` whose steps are those operations in any order, with any answers from
  backends and remote brokers. A run is a `Trace`; `Reaches` says where it leads.
- `SqlStore.Store`, `BrokerService.Broker`, `RequestBroker.StoreRequestBroker`: the program's own
  form, classes whose methods update tables step by step and loop over rows, events and sessions;
  each method is proved to do what the functions above say.
- `BrokerInvariants`, `BrokerSteps`, `BrokerRuns`, `Effects`, `Outcomes`, `Evidence`, `Delivery`,
  `Recovery`, `RecoveryRuns`, `Forwarding`, `LatestOutput`: the properties of one broker. `Vocabulary` has
  the words they are stated in, which no operation uses.
- `Federation`, `FedInvariant`, `SyncSteps`, `FedRuns`, `Mirroring`, `Convergence`, `CrossCancel`: a
  broker linked to a remote log that grows under a premise (`RemoteLogOk`).
- `HostLog`, `Brokers`: a broker's own log meets that premise, and a broker answers forwarded operations
  as that machine says; so two whole brokers, each with its own store, refine it, and its theorems hold
  of them without the premise.
- `Daemon`: starters and daemons sharing a lock, a probe, an unlink and a bind.
- `Shell`: the printer, and a reader for token recognition and quote removal of POSIX.1-2017 XCU.
- `Config`, `ConfigProofs`, `ConfigService`: merging, resolving and overriding.

Assumptions. Each helper of the broker is one atomic step and the store does not fail; a
synchronisation is atomic and its remote read is answered from the remote log as it stands. The
remote broker mirrors and links nothing itself. The daemon's probe is exact and nobody stops the daemon
concurrently.

Three promises that the code keeps only under a condition, with the exact condition:

- `CrossCancel.ConvergesIffOwnSession`: `cancel_turn` does not check that the turn belongs to the session.
  After a cancellation through a linked session, every continuation in which the remote log speaks of the
  turn under its own session ends with the turn's status in agreement, once drained, if and only if the
  session named was the turn's own. `CrossCancelOccurs` is a run from empty stores that ends in
  disagreement. Mirroring does not depend on it.
- `ConfigProofs.EarlyPathsEqualLateOnes`: choosing path overrides early differs from applying them
  last exactly when there is no home directory and an override replaces a path that needs one, or
  moves the database that the default state directory follows (`EarlyPathsMatter` gives an input).
- `Daemon.ExclusionIffCareful`: exclusion survives a step if and only if no starter abandons a daemon
  that has yet to bind, and no daemon that merely inherited its ancestor's lock variable goes past its
  probe. `StarterGivesUp` and `InheritorProbes` are runs in which each of the two happens. The ten-second
  deadline allows the first, and nothing removes the variable from a daemon's environment to rule out the
  second.

## Model

| member | source | states |
|---|---|---|
| EventLog.PollIsWindow | crates/singleton-store/src/lib.rs:895-947 | one poll, with its limit applied before its type filter, delivers exactly the wanted events between the old cursor and `next_cursor` |
| EventLog.ReaderExactlyOnce | crates/singleton-broker/src/lib.rs:321-343 | for any interleaving of appends and polls that feed `next_cursor` back, the accumulated pages are ascending and equal the reference window between the first and the current cursor |
| EventLog.ReaderDelivers | crates/singleton-store/src/lib.rs:850-947 | an event is among the accumulated pages iff it is logged, wanted and at or below the cursor, and then at one position only |
| EventLog.UnfilteredPoll | crates/singleton-store/src/lib.rs:902-946 | an unfiltered poll consumes exactly min(limit, 500) of what is left |
| EventLog.DrainCount | crates/singleton-store/src/lib.rs:902-946 | draining n events of a quiescent log takes ceil(n / min(limit, 500)) non-empty polls |
| EventLog.StallCondition | crates/singleton-store/src/lib.rs:940-944 | a filtered poll advances iff one of the first min(limit, 500) target events has a requested type |
| EventLog.AppendedIsNext | crates/singleton-store/src/lib.rs:850-947 | a reader at the end of the log is delivered the next appended event that concerns it, and it alone |
| StoreModel.LookupsInverse | crates/singleton-store/src/lib.rs:1112-1153 | lookup by local URI and lookup by (host, remote URI) are mutually inverse |
| StoreModel.LinksStayBijective | crates/singleton-store/src/lib.rs:1079-1193 | through any sequence of upserts and cursor updates links stay a partial bijection, and an upsert is rejected iff it would break that |
| SqlStore.ReverseInPlace | crates/singleton-store/src/lib.rs:973-978 | reverses the fetched rows in place |
| SqlStore.Store.AppendEvent | crates/singleton-store/src/lib.rs:850-893 | the number returned is above every earlier one, the log stays ascending, and any unfiltered read of a target the event concerns, from the old end of the log, delivers exactly that event |
| SqlStore.Store.ReadEvents | crates/singleton-store/src/lib.rs:895-947 | the row loop delivers the page: target and cursor, LIMIT, then the type filter |
| SqlStore.Store.ReadRecentEvents | crates/singleton-store/src/lib.rs:949-979 | descending rows, reversed in place, are the last min(limit, 500) events of the target's view |
| SqlStore.Store.UpdateSessionStatus | crates/singleton-store/src/lib.rs:413-438 | the row shows the status whatever it was before, its cursor moves only if one is given, backend and backend session stay, and no other row or table changes |
| SqlStore.Store.UpdateTurnStatus | crates/singleton-store/src/lib.rs:487-515 | the row shows the status and flag whatever they were before, a backend turn id is lost only to a given one, the turn stays in its session, and no other row or table changes |
| SqlStore.Store.MarkTurnInterrupted | crates/singleton-store/src/lib.rs:834-848 | a turn stored as running or waiting for input becomes failed and unread; any other, and every other row, is untouched; the turn is reported as it then is |
| SqlStore.Store.ActiveTurnsForRecovery | crates/singleton-store/src/lib.rs:814-832 | lists every turn stored as running or waiting for input exactly once, oldest first |
| SqlStore.Store.ActiveTurnForSession | crates/singleton-store/src/lib.rs:517-536 | finds the session's newest turn that runs or waits for input, or that there is none |
| SqlStore.Store.OpenBackendSessions | crates/singleton-store/src/lib.rs:366-386 | lists every open session with a backend session exactly once |
| SqlStore.Store.AcknowledgeInboxTurns | crates/singleton-store/src/lib.rs:579-630 | rejects an empty selection without effect; otherwise the row loop clears the flags of exactly the turns named by a turn, else a session, else all, and returns how many were set |
| SqlStore.Store.ResolveRequest | crates/singleton-store/src/lib.rs:683-719 | afterwards the request is decided: by this decision if it was pending, unchanged if it was not; no other request changes; the stored request is returned |
| SqlStore.Store.CancelPendingRequests | crates/singleton-store/src/lib.rs:721-767 | withdraws exactly the turn's pending requests and lists them oldest first |
| SqlStore.Store.UpsertResourceLink | crates/singleton-store/src/lib.rs:1079-1110 | inserts or replaces the row unless another local URI holds the same (host, remote URI); then nothing changes |
| SqlStore.Store.LinkByRemote | crates/singleton-store/src/lib.rs:1133-1153 | finds the one row with that host and remote URI |
| SqlStore.Store.UpdateLinkCursor | crates/singleton-store/src/lib.rs:1176-1193 | the row has the cursor and is still the one found by its host and remote URI; links stay a bijection and no other link changes |
| BrokerInvariants.WithdrawGood | crates/singleton-broker/src/lib.rs:1769-1791 | withdrawing a turn's requests leaves it none pending, touches only requests and log, and keeps the store invariant |
| BrokerRuns.StepInv | crates/singleton-broker/src/lib.rs:178-683 | every step, in any state, keeps the invariant and only moves the store forward: the log grows, decided requests stay, links persist |
| BrokerRuns.StoredCursorsKnown | crates/singleton-broker/src/lib.rs:225-254 | in every reachable state each session cursor is 0 or the number of a logged event |
| BrokerRuns.DecidedOnce | crates/singleton-store/src/lib.rs:683-767 | the first decision fixes status, resolution, reason and time forever, over any later run |
| BrokerRuns.WaiterReturnsWinner | crates/singleton-copilot/src/lib.rs:167-185 | a waiter returns the stored decision, or else the request withdrawn at the deadline: cancelled, with the timeout reason and time; that stands over any later run |
| BrokerRuns.WithdrawalLoggedOnce | crates/singleton-broker/src/lib.rs:1769-1791 | the broker logs at most one `request.cancelled` per request, and only for a decided one |
| RequestBroker.WaiterReturnsDecision | crates/singleton-copilot/src/lib.rs:167-185 | among arbitrary other steps during its sleeps a waiter returns the decision others have stored by the deadline, and withdraws the request for want of one exactly if there is none; so it never approves |
| RequestBroker.PayloadKeepsContent | crates/singleton-copilot/src/lib.rs:135-142 | the stored payload shows the given summary and identifiers and loses no other field |
| RequestBroker.StoreRequestBroker.CreateRequest | crates/singleton-copilot/src/lib.rs:124-165 | raises the request, pending, with the kind, summary and payload given, under the session's newest turn that runs or waits, else under the session; fails without effect for an unknown backend session |
| RequestBroker.StoreRequestBroker.WaitForResolution | crates/singleton-copilot/src/lib.rs:167-185 | the polling loop returns what the others have decided when the sleeps are over, or the request cancelled with the timeout reason and time, or nothing for an unknown one |
| Evidence.StatusJustifiedByLog | crates/singleton-broker/src/lib.rs:1892-1967 | in every reachable state a completed, failed, cancelled or needs_input turn has an event of that type on its own URI |
| Evidence.FinalizeSynthesisesOne | crates/singleton-broker/src/lib.rs:1892-1944 | finalize adds a terminal event of its own exactly when the backend returned none |
| Delivery.ReplyCursorMissesNothing | crates/singleton-broker/src/lib.rs:256-303 | every event the background task's sink, finalization or failure logs later lies above the reply's cursor and in the turn's unfiltered view from it |
| Delivery.RaisedRequestsAboveReply | crates/singleton-copilot/src/lib.rs:124-165 | a request the adapter raises later lies above the reply's cursor too, and is in the turn's view from it iff it attaches to that turn |
| Delivery.PollingDelivers | crates/singleton-broker/src/lib.rs:305-344 | polling the turn from that cursor has delivered such an event as soon as the cursor has passed it |
| Delivery.ClientSeesExactlyOnce | crates/singleton-broker/src/lib.rs:321-343 | whatever steps the running broker takes between a client's polls, the pages collected are in order and exactly once all matching events between its first and current cursor |
| Effects.SendEffects | crates/singleton-broker/src/lib.rs:256-302 | a local send succeeds iff the session is known with a backend session: then one running turn, `turn.queued` before `turn.started`, the session running at the second, whose number is the reply's cursor, and nothing else; otherwise nothing changes |
| Effects.CancelEffects | crates/singleton-broker/src/lib.rs:614-644 | a local turn of a session with a backend session: pending requests withdrawn and logged oldest first, with the reason, then `turn.cancelled`; the turn cancelled and unread under its backend id, the session idle at that event, nothing else |
| Effects.LinkedCancelEffects | crates/singleton-broker/src/lib.rs:561-609 | the same for a linked turn once the remote broker agrees, under the remote id and as the remote broker's event, and the operation recorded as applied |
| Effects.CancelRefusedEffects | crates/singleton-broker/src/lib.rs:538-626 | which cancellations are refused with which error, and what each refusal leaves: nothing, or the record of the attempt, or the withdrawn requests of a turn whose backend then failed |
| Effects.ResolveEffects | crates/singleton-broker/src/lib.rs:509-535 | a local request: the decision is stored iff none was; one `request.resolved` either way; the stored request is returned; the operation is recorded iff one was named |
| Effects.LinkedResolveEffects | crates/singleton-broker/src/lib.rs:479-536 | a linked request: the same and the operation recorded as applied once the remote broker agrees; otherwise only the attempt is recorded |
| Effects.FinalizeEffects | crates/singleton-broker/src/lib.rs:1892-1944 | returned events logged in order; one more, of the type that reports the status, iff the status is one of four and none of them reports it; the turn has the reported status, unread iff one of the four; the session's status and cursor |
| Effects.IngestEffects | crates/singleton-broker/src/lib.rs:1844-1890 | one event in the turn's view; a request event raises a pending request of the kind and summary its payload asks for |
| Effects.CreateEffects | crates/singleton-broker/src/lib.rs:199-254 | an idle session at its second event, or a pending one left behind when the backend fails |
| Outcomes.MirrorEffects | crates/singleton-broker/src/lib.rs:1511-1586 | mirroring logs exactly one event, of the remote type and payload, under the local names of its resource and parent; a linked turn becomes completed, failed, cancelled or needing input exactly as the event type says, unread, and its session idle, or needing input, at that event; any other event changes no row |
| Outcomes.MirrorRequestEffects | crates/singleton-broker/src/lib.rs:1452-1509 | a remote request without a local parent fails; a known one changes nothing; a new one is raised for the parent's turn, as its payload asks, logged once under the parent and linked |
| Outcomes.PageEffects | crates/singleton-broker/src/lib.rs:1415-1437 | a page is mirrored event by event; it stops at, and only at, a request whose parent is not known here, leaving the cursor; otherwise the cursor moves once, last |
| Outcomes.InterruptEffects | crates/singleton-broker/src/lib.rs:1742-1791 | interrupting withdraws the turn's pending requests, oldest first, logs `turn.failed` with the reason, fails the turn if it ran or waited, idles the session there, and changes nothing else |
| Outcomes.RecoverSessionEffects | crates/singleton-broker/src/lib.rs:1606-1682 | a resumed session is logged as reattached and, without active turns, idle at that event; a refused one is logged with the error and degraded at its old cursor; without resuming nothing happens |
| Outcomes.ForwardEffects | crates/singleton-broker/src/lib.rs:1110-1221 | a forwarded message the remote broker takes: a running turn, queued and started, linked to the remote turn, the session running and its link at the remote cursor, the operation recorded as applied with the reply |
| Outcomes.ForwardFailedEffects | crates/singleton-broker/src/lib.rs:1157-1194 | one it does not take: a degraded, unread, unlinked turn, the session degraded at its start, `turn.degraded` logged last, the attempt recorded as pending |
| Outcomes.CreateRemoteEffects | crates/singleton-broker/src/lib.rs:1040-1107 | a remote creation: a new row with the remote backend and status at its one event, whose number the reply carries, a link at the remote cursor, and the operation recorded as applied |
| BrokerService.Broker.CreateSession | crates/singleton-broker/src/lib.rs:199-254 | a session under a new id, idle at its second event, whose number is the reply's cursor, or left pending when the backend fails; no other row changes and the store invariant is kept |
| BrokerService.Broker.CloseSession | crates/singleton-broker/src/lib.rs:667-683 | a known session shows the status at its old cursor and is logged as archived; an unknown one is an error and changes nothing |
| BrokerService.Broker.SendMessage | crates/singleton-broker/src/lib.rs:256-303 | opens a running turn, or forwards it for a linked session; the reply's cursor is the last number logged |
| BrokerService.Broker.SendRemoteMessage | crates/singleton-broker/src/lib.rs:1110-1221 | replay, pending record, turn, then degrade on failure or link, cursor and applied record |
| BrokerService.Broker.CreateRemoteSession | crates/singleton-broker/src/lib.rs:1007-1108 | replay, pending record, then session, link and applied record on success |
| BrokerService.Broker.IngestBackendEvent | crates/singleton-broker/src/lib.rs:1844-1890 | exactly one event is logged, in the turn's view, with the backend's type and payload; a request becomes pending for the turn under a new id; no turn or session changes |
| BrokerService.Broker.FinalizeBackendTurn | crates/singleton-broker/src/lib.rs:1892-1944 | the loop over returned events, the synthesised terminal event and both row updates |
| BrokerService.Broker.FailBackendTurn | crates/singleton-broker/src/lib.rs:1946-1967 | the failure is logged once with its reason; the turn is failed and unread, its session idle at that event, and no request or other row changes |
| BrokerService.Broker.CancelTurn | crates/singleton-broker/src/lib.rs:538-645 | cancels the named turn, or exactly the session's newest active one, or nothing if there is none; local and linked branches and their errors |
| BrokerService.Broker.ResolveRequest | crates/singleton-broker/src/lib.rs:479-536 | forwards for a linked request, settles, logs the resolution and records the operation |
| BrokerService.Broker.ReadEvents | crates/singleton-broker/src/lib.rs:324-339 | page and `next_cursor`, with cursor 0 and limit 100 by default |
| BrokerService.Broker.GetLatestOutput | crates/singleton-broker/src/lib.rs:346-377 | rejects a turn of another session; otherwise shows what the newest of the turn's last 500 events tells, from the payload fields of the first class that tells anything, and asks for inspection iff none does |
| BrokerService.Broker.AckInbox | crates/singleton-broker/src/lib.rs:457-477 | rejects an empty selection, otherwise acknowledges, logs and replies with the number of flags cleared |
| BrokerService.Broker.MirrorRemoteEvent | crates/singleton-broker/src/lib.rs:1446-1586 | mirrors one event through the two link lookups: what MirrorEffects and MirrorRequestEffects say, the unmapped-parent and already-linked branches included |
| BrokerService.Broker.SyncRemoteSessionEvents | crates/singleton-broker/src/lib.rs:1360-1444 | mirrors the answer in order, each event as PageEffects says; the session's link then has the answer's cursor exactly if none failed, and no other link moves; an unavailable remote is logged |
| BrokerService.Broker.ReattachActiveTurn | crates/singleton-broker/src/lib.rs:1704-1740 | sink events, then finalize or interrupt |
| BrokerService.Broker.MarkTurnInterrupted | crates/singleton-broker/src/lib.rs:1742-1767 | fails the turn, withdraws its requests, logs one `turn.failed`, idles the session |
| BrokerService.Broker.ReconcileBackendState | crates/singleton-broker/src/lib.rs:1588-1690 | when it succeeds, every turn that ran or waited at the start has met its fate exactly once and no other turn was touched |
| BrokerService.Broker.ReconcileInterruptedTurns | crates/singleton-broker/src/lib.rs:1692-1702 | a start without reconnecting interrupts every turn that runs or waits, once and for that reason, touches no other, and leaves none running or waiting |
| Recovery.RecoveryPartitionsTurns | crates/singleton-broker/src/lib.rs:1588-1690 | every turn that ran or waited is finalized iff its session was offered and the backend returned the turn, else interrupted: failed, unread, one `turn.failed` of the broker's with the reason of its case, nothing pending; any other turn is untouched; for any sessions, answers and capability flags |
| Recovery.NoneLeftUnfinished | crates/singleton-broker/src/lib.rs:1588-1690 | afterwards a turn runs or waits only if the backend returned it so |
| Recovery.RestartInterruptsAll | crates/singleton-broker/src/lib.rs:1692-1702 | the same for a start without reconnecting |
| Recovery.InterruptHandles | crates/singleton-broker/src/lib.rs:1742-1767 | interrupting a turn that runs or waits leaves it failed and unread with exactly one more `turn.failed`, which carries the reason, and no pending request |
| Recovery.InterruptLeaves | crates/singleton-broker/src/lib.rs:1742-1767 | and touches no other turn |
| RecoveryRuns.RecoveryIsRun | crates/singleton-broker/src/lib.rs:1588-1767 | from any reachable state, recovery leaves what steps of the machine lead to, failing reattachments included, so the state after it is reachable |
| RecoveryRuns.RestartIsRun | crates/singleton-broker/src/lib.rs:1692-1702 | the same for a start without reconnecting |
| Forwarding.RetriesReplayFirstSuccess | crates/singleton-broker/src/lib.rs:834-856 | after the first success of an operation id every later attempt gets the same reply, makes no remote call and changes nothing |
| Forwarding.AtMostOneLinked | crates/singleton-broker/src/lib.rs:1007-1221 | over any run of attempts with one id and any remote answers at most one local turn, or session, is ever linked |
| Forwarding.FailedSendLeavesDegradedTurn | crates/singleton-broker/src/lib.rs:1157-1194 | an attempt whose remote call failed leaves a degraded, unread turn that is never linked, and may be retried |
| Forwarding.FailedCreatesLeaveNoTrace | crates/singleton-broker/src/lib.rs:1040-1107 | after any number of failed creations under one id nothing is left but its record, and a further attempt has exactly the effect and reply of a first one |
| LatestOutput.FirstTextIs | crates/singleton-broker/src/lib.rs:2101-2126 | the text of an event is the first one along its class's paths that is a non-blank string |
| LatestOutput.ShownIsTold | crates/singleton-broker/src/lib.rs:2054-2126 | which payload field each event type tells: assistant messages `data.content`, else `content`; ended turns and completed messages `summary`, else `content`; session errors `data.message`, else `message`, else `summary`; no other type anything |
| LatestOutput.LatestOutputIsRight | crates/singleton-broker/src/lib.rs:2001-2099 | the text shown is what the highest-numbered event of the first class that tells anything tells: assistant messages, then summaries, then errors; inspection is asked for iff no event tells anything |
| LatestOutput.AssistantContentIsShown | crates/singleton-broker/src/lib.rs:2101-2105 | the newest assistant message with text in `data.content` is what is shown |
| LatestOutput.RecentIsSuffix | crates/singleton-store/src/lib.rs:949-979 | the window is the exact ascending suffix of the turn's view |
| FedInvariant.NextRequestUnlinked | crates/singleton-broker/src/lib.rs:1458-1509 | a request about to be mirrored is not linked yet, so the already-linked branch is not taken |
| FedInvariant.PullSucceeds | crates/singleton-broker/src/lib.rs:1458-1466 | no event that a session-targeted read delivers fails to mirror; the unmapped-parent error is unreachable |
| SyncSteps.SyncIsPulls | crates/singleton-broker/src/lib.rs:1382-1437 | a synchronisation takes the first min(n, 500) of the n events ahead, never fails midway and equals mirroring event by event with the cursor on each |
| FedRuns.RunsArePulls | crates/singleton-broker/src/lib.rs:1360-1444 | the two-broker invariant holds after every run, and every run equals one of single-event pulls |
| FedRuns.RemoteCursorsKnown | crates/singleton-broker/src/lib.rs:1084-1092 | each session link's cursor is the number of a remote event and never decreases |
| Mirroring.MirrorRefinesRemoteView | crates/singleton-broker/src/lib.rs:1360-1586 | the remote-origin events of the local session view are, in order and exactly once, the URI-translated image of the remote view between the cursors |
| Mirroring.ImageTargets | crates/singleton-broker/src/lib.rs:1511-1518 | the translation of a session's event concerns that local session and no other |
| Convergence.DrainedTurnsConverge | crates/singleton-broker/src/lib.rs:1110-1221 | once drained, a tracked linked turn that the remote log speaks of under its own session has the status told by the last event in the remote log that tells one (completed, failed, cancelled or needs_input), or Running, for any mix of remote progress and local cancels |
| Convergence.TrackedSince | crates/singleton-broker/src/lib.rs:1204-1206 | a turn is tracked from its send until a later send on its own session that is made before that session is drained |
| Convergence.LinkedStatusKept | crates/singleton-broker/src/lib.rs:1892-1967 | nothing the local broker does on its own changes a linked turn's status |
| CrossCancel.ConvergesIffOwnSession | crates/singleton-broker/src/lib.rs:538-609 | a cancellation through a linked session leaves convergence certain iff the session is the turn's own |
| CrossCancel.CrossCancelOccurs | crates/singleton-broker/src/lib.rs:538-609 | a run from empty stores, through another session, that ends drained and in disagreement |
| HostLog.OwnLogMirrorable | crates/singleton-broker/src/lib.rs:1844-1890 | a broker's own log, at every point of a run, names one session per request and opens each request with its creation; if turns are cancelled through their own sessions, each turn's events name its session |
| HostLog.HostOpensTurn | crates/singleton-broker/src/lib.rs:265-302 | a broker answering a forwarded message logs exactly the opening the two-broker machine appends and replies with an unused turn and the end of its log |
| HostLog.HostCreatesSession | crates/singleton-broker/src/lib.rs:199-254 | the same for a forwarded creation |
| HostLog.HostCancelsTurn | crates/singleton-broker/src/lib.rs:538-645 | a forwarded cancellation, through whatever session, leaves the log fit for mirroring and adds the turn's `turn.cancelled` under that session, and nothing else that sets the turn's status |
| Brokers.RunsAreFederated | crates/singleton-broker/src/lib.rs:1007-1221 | every run of two brokers with stores of their own is a run of the two-broker machine, the far broker's log being the remote log |
| Brokers.BrokersConverge | crates/singleton-broker/src/lib.rs:538-609 | two brokers whose clients cancel turns through their own sessions converge, without a premise on the log |
| Brokers.BrokersMirror | crates/singleton-broker/src/lib.rs:1360-1586 | between two brokers, however turns are cancelled, the local view of a session is the image of the far broker's own log between the cursors |
| Daemon.StepInv | crates/singleton-cli/src/main.rs:906-1054 | every careful step of any starter or daemon keeps the startup invariant |
| Daemon.AtMostOneListener | crates/singleton-cli/src/main.rs:177-213 | in a careful run of any starters, daemons and inheritors of the lock variable at most one live process has a listening socket, and the socket file is its |
| Daemon.LiveSocketNeverUnlinked | crates/singleton-cli/src/main.rs:932-955 | in such a run, whoever is about to unlink the socket file, nobody is listening |
| Daemon.StarterReturns | crates/singleton-cli/src/main.rs:982-1040 | a starter goes away by itself only with a daemon listening, which goes on listening, or after its own daemon has exited; either way it no longer holds the lock |
| Daemon.StarterServed | crates/singleton-cli/src/main.rs:177-213 | startup never gets stuck: at any point of a careful run every starter whose own daemon has not exited can still return with a daemon listening, nobody dying |
| Daemon.ExclusionIffCareful | crates/singleton-cli/src/main.rs:906-1054 | at any point of a careful run, a step leaves every careful continuation with at most one listener iff no starter abandons a pending daemon by it and no mere inheritor of the variable passes its probe |
| Daemon.StarterGivesUp | crates/singleton-cli/src/main.rs:1018-1040 | a run in which a starter times out on its unbound daemon, after which two daemons may listen |
| Daemon.InheritorProbes | crates/singleton-cli/src/main.rs:1051-1054 | a run with a patient starter in which a daemon with the inherited variable probes before the spawned one binds, after which two may listen |
| Shell.RenderRoundTrip | crates/singleton-cli/src/main.rs:698-706 | reading a rendered command yields exactly its program and arguments, whatever they contain |
| Shell.RenderInjective | crates/singleton-cli/src/main.rs:781-803 | different commands are rendered differently |
| Shell.QuotedIfNeeded | crates/singleton-cli/src/main.rs:781-803 | a word is printed as it is iff it is not empty and of letters, digits and `/._-:=+`; any other is printed between single quotes |
| Shell.CleanupRoundTrip | crates/singleton-cli/src/main.rs:1105-1110 | the printed cleanup advice reads as the command it means |
| ConfigProofs.FieldsAreFirstSet | crates/singleton-config/src/lib.rs:278-315 | every effective field is the first one set among command line, environment, project, user and built-in profile |
| ConfigProofs.ProfileIsFirstNamed | crates/singleton-config/src/lib.rs:977-982 | the profile is the first one named by option, environment, project or user, else the default |
| ConfigProofs.PathsAreFirstSet | crates/singleton-config/src/lib.rs:1066-1099 | paths are what the first one set stands for: itself, the home, or a place below the home; the default state directory falls back to the database's directory |
| ConfigProofs.ExpandIs | crates/singleton-config/src/lib.rs:1031-1048 | expansion fails exactly for home paths without a home; "~" is the home, "~/" and a relative rest is the home, one separator and the rest, any other path is itself |
| ConfigProofs.NothingConfigured | crates/singleton-config/src/lib.rs:946-996 | with a home and nothing configured the whole effective configuration, literally, both paths under that home |
| ConfigProofs.LoadsExactlyWhen | crates/singleton-config/src/lib.rs:946-996 | exactly which inputs load |
| ConfigProofs.HostsAreFirstSet | crates/singleton-config/src/lib.rs:601-704 | hosts are layered field by field; an SSH host needs a target and has the default connect command unless one is set |
| ConfigProofs.MergeAssociates | crates/singleton-config/src/lib.rs:494-525 | merging patches is associative and merging nothing changes nothing |
| ConfigProofs.EarlyPathsEqualLateOnes | crates/singleton-config/src/lib.rs:158-171 | early path overrides equal late ones iff `OrderMatters` does not hold |
| ConfigProofs.EarlyPathsMatter | crates/singleton-config/src/lib.rs:1081-1099 | an input on which they differ |
| ConfigProofs.ProjectHostRule | crates/singleton-config/src/lib.rs:601-704 | hosts the project names resolve to the local one or to SSH with default command and no arguments; all others as without the project document |
| ConfigProofs.OtherHostsAreUntouched | crates/singleton-config/src/lib.rs:793-812 | and equal those of the configuration loaded without it |
| ConfigService.MergeProfileFrom | crates/singleton-config/src/lib.rs:494-525 | merging the result into any base equals merging both patches into it one after the other, and an empty patch changes nothing |
| ConfigService.MergedConfig.MergeProfilesFrom | crates/singleton-config/src/lib.rs:798-800 | the entry loop merges every named profile |
| ConfigService.MergedConfig.MergeHostsFrom | crates/singleton-config/src/lib.rs:801-807 | the entry loop merges every named host and rejects an untrusted merged host of a project |
| ConfigService.MergedConfig.MergeDocument | crates/singleton-config/src/lib.rs:793-812 | validation, default profile, profiles and hosts |
| ConfigService.EffectiveConfig.ApplyOverrides | crates/singleton-config/src/lib.rs:278-325 | each override that is set replaces its field, if valid, and the default host must exist |
| ConfigService.LoadEffectiveConfig | crates/singleton-config/src/lib.rs:946-996 | the whole pipeline computes the specified configuration |

## Left out

- Mirroring.MirrorRefinesRemoteView: synchronisations are failure-free, and runs with a new message on the mirrored session itself are excluded, because its cursor then jumps over events that were not synchronised.
- Convergence.DrainedTurnsConverge: speaks of turns whose session was drained before the next message on it, since an older turn that the cursor jumped over may keep a stale status, and of turns the remote log speaks of under their own session; ConvergesIffOwnSession says which cancellations leave it so.
- Daemon.AtMostOneListener: needs exact probes, no concurrent stop and careful steps; ExclusionIffCareful says exactly which steps those are.
- Daemon.LiveSocketNeverUnlinked: the same.
- Shell.RenderRoundTrip: token recognition and quote removal only; a program name that contains `=` or is a reserved word is still special to a shell at the start of a command.
- RequestBroker.StoreRequestBroker.WaitForResolution: other clients only decide or withdraw requests during its sleeps; WaiterReturnsDecision has arbitrary steps there.
- BrokerService.Broker.ReadEvents: one round of the wait loop, without the synchronisation before it, which is SyncRemoteSessionEvents.
- BrokerService.Broker.GetLatestOutput: the turn is given, since which terminal turn is latest depends on clock times; without the synchronisation before it, which is SyncRemoteSessionEvents.
- Brokers.RunsAreFederated: the far broker forwards nothing further, and a synchronisation's read is answered from its log as it stands.
- Recovery.RecoveryPartitionsTurns: promises nothing when a reattachment fails, as recovery then stops.
- Crashes inside a step, and a synchronisation and a send on the same session at the same time.
- Workspaces, repositories in the configuration, cleanup guards and closing a remote resource: single-branch checks with nothing kept afterwards.
- Clock times and everything ordered by them, such as session lists and the latest terminal turn; deadlines are a choice of the environment, and newest means highest identifier.
- The queued status of turns, which no operation stores.
- Event, session and request fields that no operation inspects: titles, labels, messages, identifiers inside payloads.
- Transports, JSON-RPC framing, process spawning, git and the SDK adapter: a remote call is an answer given to the operation.
- Resource states, unused tables and host health, which are written but not read.
- TOML parsing, document versions, environment parsing, secret patterns, unknown keys, redaction, and the search for configuration files.
- Stopping a daemon, the pid file's text, and the proxying of standard input and output.
- The remote broker's own handling of operation ids, which it does not use to suppress duplicates.

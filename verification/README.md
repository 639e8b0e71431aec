# muxr: a verified model of the relay daemon and its control panel

The daemon (`muxrd`) lets mobile clients attach to terminal multiplexer sessions; the control panel (`muxrctl`) manages
the daemon. This project models the parts of both that keep state and shows what they guarantee. `dafny verify
dfyconfig.toml` checks the whole project.

## The modules

**The attach relay.** A relay is two parties over shared state: an inbound task that takes frames and commands, and a
reader thread that alone receives from the session. They share a query channel, a one-place slot, a stop flag and reply
channels whose receivers may go away at any time. `RelayQuery` is the step system of all of it (inbound task, reader,
server, timeouts, and the client at the other end of the bounded outbound channel); what the reader does is a function
of its program point, the slot and the message. Each `Log` of the model carries the wire action it answers; no function
of the code's behaviour looks at that tag, only properties do. `RelayInvariants`, `RelayHistory`, `RelayRuns` and
`RelayLogs` prove what every run keeps; `RelayReplies` says what a query is sent, `RelayFrames` reads the client's frames
back, and `RelayAttribution` says exactly when a query is answered from its own Logs. `RelayReader` is the reader in place: a class over the shared fields whose
methods follow `render_loop` and its helpers while the other parties move between any two of its operations. Its
`Valid()` says that what has happened so far is a run of the step system, so the theorems about runs hold of it.
`RelayInbound` is the inbound task in place: the command arms, the read-only gate, the view state and the teardown.

**Registries and routing.** `SessionIds` (opaque session ids), `ClientCount` (shared counters and their guards as
objects), `ControlRouting` (which relay a command is sent to), `Daemon` (any number of relays that attach, handle
commands, are routed to and tear down, in the order of the code's micro-steps), and `SpaceClose` (closing a space, and
many such calls at once).

**Layouts.** `ZellijLayout` groups panes under tabs through a map that is emptied as it is read; `LayoutReply` filters
plugin panes and lays the caller's own view state over the result. Both are tied to one filter over the raw lists, and
`GetLayout` follows a request from the choice of a relay, through the two Logs, to the reply, in every reachable state
of the relay and of the daemon.

**The control panel.** `CtlState` and `CtlUpdate` give the effect of each message as a function; `CtlApp` has the
handlers that assign the state object in place; `CtlRunner` composes the update cycle with the pending tasks and the
message channel, and `CtlLoop` is the runner's loop over the state object, whose `Valid()` is that its state is
reachable there. `CtlLoading` and `CtlDrain` prove that no loading flag stays up, `CtlGuard` when one is a guard,
`CtlOverlay` that the pairing overlay shows and reports only what is its own, and `CtlForms` what keys can and cannot do. `CtlLaws` tells the update the other way round: for each action when it is
asked for, and for each part of the state what changes it and to what. `CtlPairing` says what a pairing task writes into
its code.

**Codecs and drains.** `PairingUri`, `Framing` (control socket), `AckDrain` (the two-terminator drain of an action).

## Where the code and its own documentation differ

The model follows the code. Each of these is a lemma.

- `muxrd/src/relay/reader.rs:46-48` says that a timed-out or replaced query can never cause misattribution;
  `muxrd/src/relay/reader.rs:263-271` admits a window. `RelayAttribution.AttributionIffQuiet` gives the exact condition
  on a live relay: nothing is owed to an earlier query at the hand-off. `LatePanesLogCanBeMisattributed` is the window,
  reached from the start.
- `muxrd/src/grpc/space_ops.rs:296-299` says that the last space is never closed. The guard is list-then-close, so
  two calls can close the last two spaces (`SpaceClose.TwoCallsLoseTheLastSpace`); `LastSpaceLostIffAllNamed` says
  exactly which calls in flight can, and `OneAtATimeKeepsASpace` that calls that do not overlap cannot.
- `muxrd/src/relay/mod.rs:33-51` says that no path leaks a thread and that the join ends once the receiver is woken. The
  outbound channel is bounded, and a send into it waits. With the stop flag up the reader ends by itself if and only if
  it is neither without a message to receive nor about to send to a full channel whose client is there and does not read
  (`RelayRuns.JoinReturnsIff`); the second does happen (`JoinCanWaitForClient`).
- `muxrctl/src/app/update.rs:241-246` calls the server's loading flag an in-flight guard for status reads. It stops being
  one exactly when a status, a failure or a success is delivered while another read is out (`CtlGuard.GuardBreaksIff`),
  and a second read is started exactly by entering the Dashboard or the Server screen while one is out
  (`SecondReadIffEntry`). Until one of a failure, a success and such an entry comes while a read is out, there is at most
  one read (`UndisturbedIsSingleFlight`); both ways out do happen (`FailureDropsGuard`, `EntryDropsGuard`).
- A herdr session reached by its bare legacy id is not classified as collapsed, so commands for it may fall back to
  another relay (`ControlRouting.BareHerdrIsNotIsolated`, `SessionIds.HerdrIdCollapsedIff`). The layout query keeps its
  fallback for every session: it leaves the connection it names exactly when that one is not attached to the session and
  another relay is (`GetLayout.QueryLeavesNamedIff`, `ControlRouting.QueryReachesSibling`).
- Grouping panes by removing each tab's entry from the map is right unless a tab id that occurs twice owns a pane
  (`ZellijLayout.EveryTabHasItsPanesIff`).
- The pairing URI writes the host and the fingerprint as they are. It gives all parameters back exactly when neither
  has an `&` (`PairingUri.UriRoundTripIff`, and `HostWithSeparatorIsCut` for an instance).
- `muxrctl/src/app/update.rs:471-474` asks for a port in 1..=65535. Exactly the ports that parse as 16 bits are saved
  (`CtlForms.SavesIff`), 0 among them (`SavedPortInRangeIff`, `PortZeroIsSaved`). The port is trimmed for the check alone,
  so the pairing code advertises the port that was checked if and only if there was nothing to trim or it is the default
  (`AdvertisesCheckedPortIff`, read back from the code; `SpacedPortIsNotAdvertised` is an instance, reached by loading such a port).
- `muxrd/src/control.rs:45-52` bounds a message to 64 KiB on reading only; a longer one can be written and is then
  rejected by its reader (`Framing.ParseFrame`).

## Model

| member | source | states |
|---|---|---|
| RelayRuns.ExactlyOnceDisposal | muxrd/src/relay/inbound.rs:491-508 | Over every run: handed off = queued + in the slot + disposed; each query is in exactly one of these places; once the reader is gone each has ended exactly once (fulfilled, replaced, retired, dropped at exit, returned). |
| RelayRuns.DisposalsGrow | muxrd/src/relay/reader.rs:222-332 | The end of a reply channel is final: later steps only add to the endings. |
| RelayInvariants.StepConserves | muxrd/src/relay/reader.rs:222-252 | Every step of every party keeps the number of owners of each reply channel, but for the hand-off that creates it. |
| RelayInvariants.MatchedQueryIsArmed | muxrd/src/relay/inbound.rs:487-514 | In a state that meets the two invariants, the query of a Log being matched has left the channel and is in the slot or already disposed of. |
| RelayRuns.ArmedWhenMatched | muxrd/src/relay/reader.rs:69-90 | Arm before fire over every run: no Log of a query is matched while that query is still in the channel. |
| RelayQuery.DrainAbsorbsHandOff | muxrd/src/relay/reader.rs:237-251 | A hand-off that lands during the drain has the effect of one that landed before it, so the drain may be one step. |
| RelayQuery.ArmedAllKeepsLast | muxrd/src/relay/reader.rs:218-221 | Of several queued queries the last one is armed, with nothing captured. |
| RelayRuns.EveryReplyPairsConsecutiveLogs | muxrd/src/relay/reader.rs:272-332 | Every fulfilled reply of every run uses two consecutive Logs, tabs half first, both matched while its query held the slot. |
| RelayRuns.RepliesUseLogsInOrder | muxrd/src/relay/reader.rs:272-332 | Of two replies the later one uses two later Logs. |
| RelayLogs.EveryLogHasOneFate | muxrd/src/relay/reader.rs:222-332 | Each matched Log has exactly one of three fates: it serves one reply and no other, it is the tabs half now held, or it is dropped, nobody having held the slot or its holder having ended unanswered. |
| RelayReplies.AnswerIsLayout | muxrd/src/relay/reader.rs:311-328 | The first Log read as tabs and the second as panes give the layout that has each pane under the tab of its id, in every field. |
| RelayReplies.AnswerErrorsIff | muxrd/src/relay/reader.rs:315-328 | Which error each empty or undecodable half gives, and that there is a layout exactly if both decode. |
| RelayReplies.SentIffFulfilled | muxrd/src/relay/reader.rs:305-331 | Over every run a query was sent an answer if and only if it ended as fulfilled, and the answer is the one made from the two consecutive Logs it ended with. |
| RelayReplies.SentSnapshotIsLayout | muxrd/src/relay/reader.rs:305-331 | Over every run a snapshot sent to a query groups the panes of its second Log under the tabs of its first. |
| RelayReplies.TimedOutIsNeverAnswered | muxrd/src/relay/reader.rs:282-293 | A query whose receiver is gone is never sent an answer afterwards, in any run. |
| RelayReplies.DrainRetires | muxrd/src/relay/reader.rs:227-235 | A drain ends a held query whose receiver is gone, and leaves only open or just handed-off queries armed. |
| RelayRuns.FramesAreImage | muxrd/src/relay/reader.rs:92-203 | Frames are exactly the image of the messages matched, in the order served, an Exit last if at all; the last one alone may be missing, and only with the client gone; the loop leaves for one of four reasons only; the count is the number of render frames sent. |
| RelayFrames.ClientIsToldWhatWasMatched | muxrd/src/relay/reader.rs:92-203 | Over every run the frames, read back by kind and payload, are in order the renders with their contents and the events with their names and reasons that were matched: all of them while the client is there; the count is the number of renders. |
| RelayFrames.FrameReadsBack | muxrd/src/relay/reader.rs:93-186 | A message is for the client exactly if it makes a frame, and the frame reads back as that message. |
| RelayRuns.QueriesDoNotInterfere | muxrd/src/relay/reader.rs:40-50 | Two runs with the same visible messages send the same frames as far as both go, whatever queries, Logs and timeouts they interleave. |
| RelayRuns.StopIsPrompt | muxrd/src/relay/reader.rs:63-85 | After stop is set the reader takes at most four more steps and sends at most the one frame it was about to match. |
| RelayRuns.JoinReturnsIff | muxrd/src/relay/reader.rs:352-387 | With stop set the reader ends by its own steps, within four, if and only if it neither lacks a message to receive nor is about to send into a full channel of a client that stays and does not read. |
| RelayRuns.ClientUnblocksJoin | muxrd/src/relay/types.rs:249-255 | One frame read by the client, or its going away, is then enough. |
| RelayRuns.JoinCanWaitForClient | muxrd/src/relay/reader.rs:97-105 | A reachable state in which the join waits for the client though stop is set and the receiver was woken. |
| RelayAttribution.QuietHandOffIsAnsweredFromOwnLogs | muxrd/src/relay/reader.rs:222-332 | From any earlier history: a query handed off while nothing is owed to an earlier one, none being handed off before it ends, is only ever answered from its own tabs Log and its own panes Log. |
| RelayAttribution.OwedHandOffCanMisattribute | muxrd/src/relay/reader.rs:263-271 | On a live relay, if something is owed at the hand-off there is a run that answers the query from the first owed Log, which is not its own. |
| RelayAttribution.QuietHandOffCanBeAnswered | muxrd/src/relay/reader.rs:305-331 | On a live relay a query handed off while nothing is owed has a run that answers it, from its own Logs. |
| RelayAttribution.AttributionIffQuiet | muxrd/src/relay/reader.rs:42-50 | Attribution is safe in every continuation if and only if nothing is owed at the hand-off. |
| RelayAttribution.LatePanesLogCanBeMisattributed | muxrd/src/relay/reader.rs:263-271 | The documented window, reached from the initial state: a late panes Log of query 0 becomes the tabs half of query 1. |
| RelayReader.Reader.DrainQueries | muxrd/src/relay/reader.rs:222-252 | Retires a held query whose receiver is gone, then arms the queued ones in order, replacing; the channel is empty afterwards. |
| RelayReader.Reader.CaptureQueryLog | muxrd/src/relay/reader.rs:272-332 | What a Log does to the slot, the endings and the reply: dropped, retired, kept as tabs half, or parsed with the tabs half and sent. |
| RelayReader.Reader.CheckStop | muxrd/src/relay/reader.rs:64-85 | One step of the reader at a stop check; leaving drops the held query. |
| RelayReader.Reader.Recv | muxrd/src/relay/reader.rs:73-77 | Takes the next message, or leaves at the end of the stream. |
| RelayReader.Reader.Forward | muxrd/src/relay/reader.rs:93-105 | Sends one frame once there is room or nobody to take it; goes on only if it was sent and is not an Exit. |
| RelayReader.Reader.Match | muxrd/src/relay/reader.rs:92-200 | The match arm as one step of the system, and whether the loop goes on. |
| RelayReader.Reader.RenderLoop | muxrd/src/relay/reader.rs:51-204 | Whatever the other parties do between its operations: everything done is a run of the system, every query ends exactly once, frames are those of the messages matched, the count is that of the render frames, and it leaves for one of four reasons; where it does not end it stands at `recv` with nothing to receive, or at a send into a full channel of a client that does not read. |
| RelayInbound.Inbound.HandleSwitchSpace | muxrd/src/relay/inbound.rs:142-183 | Refused when read-only; else the sender is called, the view state changes only on success, and one reply is sent. |
| RelayInbound.Inbound.HandleToggle | muxrd/src/relay/inbound.rs:184-266 | Resolves a missing hint by the live query, calls the sender, and tracks focus: unknown on the hide path, the pane otherwise. |
| RelayInbound.Inbound.HandleCommand | muxrd/src/relay/inbound.rs:102-298 | Calls, replies and view state after one command. |
| RelayInbound.Inbound.HandleFrame | muxrd/src/relay/inbound.rs:301-344 | Input and resize reach the sender only on a writable relay, input only up to 1 MiB. |
| RelayInbound.Inbound.InboundLoop | muxrd/src/relay/inbound.rs:37-382 | The whole task over any sequence of events: trace, replies, view state, and after it both registry entries are gone. |
| RelayInbound.ReadOnlyRun | muxrd/src/relay/inbound.rs:102-335 | For every sequence of events a read-only relay only queries layouts, never changes its view state, refuses each SwitchSpace, and ends with client-exited. |
| RelayInbound.WritableRun | muxrd/src/relay/reader.rs:372-376 | A writable relay never sends client-exited, its nudge repeats the attach size, and each SwitchSpace is answered, in order, by what the sender said. |
| RelayInbound.CallsCarryTheirEvent | muxrd/src/relay/inbound.rs:102-335 | An event makes at most one sender call, exactly when it should, and the call carries the tab, pane, hint, space, text, bytes or clamped size of that event. |
| RelayInbound.ViewIsLastCommands | muxrd/src/relay/inbound.rs:103-266 | Tab, focused pane and space are those the latest successful commands left, whatever came between. |
| RelayInbound.AttachSizeIs | muxrd/src/relay/mod.rs:195-262 | The size of a writable attach is the client's rows and columns within 16 bits, of a read-only one the session's or 50 by 200. |
| RelayInbound.AttachSizeIgnoresClientIff | muxrd/src/relay/mod.rs:219-262 | The client's dimensions do not matter exactly for read-only attaches. |
| RelayInbound.CurrentSpaceIsLastSwitched | muxrd/src/relay/inbound.rs:142-183 | The current space is that of the latest successful SwitchSpace. |
| RelayInbound.FocusUnknownUntilLearned | muxrd/src/relay/inbound.rs:103-266 | After SwitchTab, SwitchSpace or the hide path the focused pane is unknown until a later focus, fill or tiled toggle. |
| SessionIds.ResolveInvertsMakeId | muxrd/src/multiplexer/routing.rs:83-171 | Resolving gives (k, b) if and only if b is valid and the id is the minted id of a running backend, or b itself without a colon on a one-backend server. |
| SessionIds.ResolveMintedId | muxrd/src/multiplexer/routing.rs:125-171 | What a minted id resolves to, errors included. |
| SessionIds.NotFoundIsMinted | muxrd/src/multiplexer/routing.rs:125-171 | Only the minted id of a backend that is not running is answered with not found. |
| SessionIds.MakeIdInjective | muxrd/src/multiplexer/routing.rs:83-85 | Different backends or names give different ids. |
| SessionIds.CollapsedIffHerdr | muxrd/src/multiplexer/routing.rs:69-71 | A minted id is collapsed exactly for herdr. |
| SessionIds.HerdrIdCollapsedIff | muxrd/src/multiplexer/routing.rs:69-71 | Of the ids that resolve to herdr, those with a prefix are collapsed and the bare one is not. |
| SessionIds.CountKeysAgreeIff | muxrd/src/relay/mod.rs:209-217 | Two ids share a count bucket exactly when they resolve to the same session. |
| SessionIds.ResolvedNameIsSafe | muxrd/src/multiplexer/routing.rs:50-56 | A name that reaches a backend is not empty and holds only letters, digits, `_` and `-`: no separator, dot, backslash or colon. |
| SessionIds.SafeNameResolves | muxrd/src/multiplexer/routing.rs:125-171 | Every such name resolves under its minted id. |
| SessionIds.IdForm | muxrd/src/multiplexer/routing.rs:83-85 | The written form of an id. |
| ClientCount.SessionClients.Attach | muxrd/src/client_count.rs:37-45 | One more live guard for the session; every counter stays the number of its live guards, as its 64 bits show it. |
| ClientCount.SessionClients.DropGuard | muxrd/src/client_count.rs:75-79 | One live guard fewer; the decrement through the shared counter keeps every count right. |
| ClientCount.SessionClients.Count | muxrd/src/client_count.rs:48-53 | The number of live guards of the session, exactly below 2^32 and cut to 32 bits beyond. |
| ClientCount.SessionClients.TotalCount | muxrd/src/client_count.rs:59-64 | The sum over the counters is the number of all live guards, exactly below 2^64. |
| ControlRouting.Router.TryRouteControl | muxrd/src/grpc/helpers.rs:53-124 | `ok` exactly when one queue, that of the steering target, grew by the command, and how it was routed; a collapsed session fails closed with its error, any other falls back to `None`. |
| ControlRouting.Router.RouteSwitchSpace | muxrd/src/grpc/space_ops.rs:430-442 | Sent only to the exact connection of the session, else no queue changes. |
| ControlRouting.Router.RouteQuery | muxrd/src/grpc/layout.rs:58-96 | The query goes to the exact connection or the first relay of the session, and that relay is reported as the server of the reply. |
| ControlRouting.SteerTargetIsolated | muxrd/src/grpc/helpers.rs:59-112 | A steering command goes to a relay of the session; to another than the named one only if that one is writable and the session not collapsed; nowhere only if there is none. |
| ControlRouting.QueryTargetIsolated | muxrd/src/grpc/layout.rs:60-79 | A query stays in the session and finds a relay if there is one. |
| ControlRouting.NamedOnlyIffCollapsed | muxrd/src/grpc/helpers.rs:73-91 | Commands reach at most the connection they name, in every registry, exactly for collapsed sessions. |
| ControlRouting.BareHerdrIsNotIsolated | muxrd/src/multiplexer/routing.rs:69-71 | The bare legacy id resolves to herdr and is not isolated. |
| ControlRouting.QueryReachesSibling | muxrd/src/grpc/layout.rs:74-79 | For any session, a query that names no connection reaches a sibling's relay. |
| Daemon.RegistriesAndCounts | muxrd/src/relay/mod.rs:424-448 | Over every interleaving: control entries have view-state entries of the same session, each count is its live guards and covers the control entries, and all is empty and zero when every relay has ended. |
| Daemon.CountsNeverUnderflow | muxrd/src/client_count.rs:75-79 | A guard about to be dropped finds its count above zero. |
| Daemon.RoutingIsolated | muxrd/src/grpc/helpers.rs:53-124 | Over every run, whatever lies in a relay's queue has its session; on a collapsed id it named that relay; in another relay than the named one only if that one is writable. |
| Daemon.OneQueuePerRequest | muxrd/src/grpc/helpers.rs:53-124 | Over every run all queues together have accepted no more commands than there were requests. |
| Daemon.HandlesOwnQueue | muxrd/src/relay/inbound.rs:102-298 | Over every run a relay handles exactly the commands its own queue accepted, in order, as far as it has got. |
| Daemon.CollapsedViewIsOwn | muxrd/src/grpc/helpers.rs:73-91 | On a collapsed session a view state is the outcome of the steering commands its relay handled, each of which a request naming this very connection asked for. |
| Daemon.ViewsDoNotInterfere | muxrd/src/relay/inbound.rs:103-266 | Whatever the other relays do, a view state is its initial state followed by its own relay's events. |
| Daemon.CurrentSpaceOverRuns | muxrd/src/relay/inbound.rs:142-183 | From attach on, in any interleaving, the current space is that of the connection's own latest successful SwitchSpace, and unknown when read-only. |
| Daemon.ViewOverRuns | muxrd/src/relay/inbound.rs:103-266 | The same of the whole view state: tab, pane and space are what the connection's own latest commands left. |
| Daemon.RouteGoesWhere | muxrd/src/grpc/helpers.rs:59-112 | The target of each kind of request: the exact connection, else nothing, some relay, or a writable relay of a session that is not collapsed. |
| Daemon.RouteDelivers | muxrd/src/grpc/helpers.rs:114-123 | A request is accepted exactly if it has a target that still receives, at the end of that one queue. |
| SpaceClose.ViewedSpaceIsLastSwitched | muxrd/src/grpc/space_ops.rs:408-420 | Over runs of the daemon, the space a connection counts as viewing is that of its own latest successful switch, for its own session only. |
| SpaceClose.SpaceOps.CloseSpace | muxrd/src/grpc/space_ops.rs:314-396 | When the close goes out, what is answered, and which queue grows: only the caller's, only if it was viewing the closed space. |
| SpaceClose.SpaceOps.Repoint | muxrd/src/grpc/space_ops.rs:456-521 | At most one SwitchSpace, to a space the daemon lists, in the caller's own queue. |
| SpaceClose.RepointsToListedSpace | muxrd/src/grpc/space_ops.rs:471-489 | The new space is the first active one listed, else the first listed; none only if the list is empty. |
| SpaceClose.LastSpaceLostIffAllNamed | muxrd/src/grpc/space_ops.rs:329-370 | Calls past the guard can close the last space if and only if between them they name every space. |
| SpaceClose.TwoCallsLoseTheLastSpace | muxrd/src/grpc/space_ops.rs:329-370 | Two calls for two spaces leave the daemon with none. |
| SpaceClose.OneAtATimeKeepsASpace | muxrd/src/grpc/space_ops.rs:295-299 | Calls that do not overlap never close the last space, whatever is created meanwhile. |
| ZellijLayout.GroupPanes | muxrd/src/multiplexer/zellij.rs:91-110 | Each bucket holds exactly the panes of its tab id in arrival order. |
| ZellijLayout.ParseZellijLayout | muxrd/src/multiplexer/zellij.rs:82-129 | The errors, and tabs in order, each with its id's panes if it is the first of that id. |
| ZellijLayout.EveryTabHasItsPanesIff | muxrd/src/multiplexer/zellij.rs:112-126 | Every tab gets exactly its panes if and only if no repeated id owns a pane. |
| LayoutReply.LayoutRefinesFilter | muxrd/src/grpc/layout.rs:214-303 | The whole reply, field by field: tabs in ListTabs order, each with exactly the non-plugin panes of its id in ListPanes order, seen through the view state; without one, the raw filter. |
| LayoutReply.ViewedFocus | muxrd/src/grpc/layout.rs:223-271 | Seen through a view state the tab looked at alone is active, in it the tracked pane alone is focused, and other tabs keep their flags. |
| LayoutReply.RawPanesAreTerminals | muxrd/src/grpc/layout.rs:239-244 | The raw filter lists terminals of that tab only, and all of them. |
| GetLayout.LayoutOps.GetLayout | muxrd/src/grpc/layout.rs:58-156 | Which queue takes the query, and the reply: from the relay asked, or by a query of its own after a failed, cancelled, late or refused one. |
| GetLayout.ReplyInEveryRun | muxrd/src/grpc/layout.rs:58-303 | From the two Logs to the client, over every run of relay and daemon: a relay's answer comes from two Logs of that query; the reply is the raw filter of their two lists, seen through the caller's own view state if it was the caller's own relay, and as reported if it was a sibling's. |
| GetLayout.ViewInEveryRun | muxrd/src/grpc/layout.rs:163-191 | Of any snapshot, another backend's included: seen through the caller's own view state exactly if its own relay answered, and that view state is of the session asked for. |
| GetLayout.OwnQueryInEveryRun | muxrd/src/grpc/layout.rs:109-156 | Without a relay's answer: the raw filter of the lists queried by the handler. |
| GetLayout.OwnReplyShowsLastSwitch | muxrd/src/grpc/layout.rs:218-271 | Over runs: in the caller's own reply a tab is active if and only if it is the one last switched to, and in it the pane last focused alone is focused, if known. |
| GetLayout.QueryLeavesNamedIff | muxrd/src/grpc/layout.rs:60-79 | A query leaves the connection it names exactly when that is not attached to the session and some relay of the session is. |
| CtlApp.AppState.Update | muxrctl/src/app/update.rs:17-173 | In place: new state and actions for every message are those of which `CtlLaws` and the results over runs below speak. |
| CtlLaws.AsksIffWanted | muxrctl/src/app/update.rs:17-704 | For each of the thirteen actions, with its arguments: asked for by a message if and only if its own situation is given (start by `s`, stop by `x`, create with the form's own name and rights, and so on). |
| CtlLaws.ScreenAndQuit | muxrctl/src/app/update.rs:178-182 | The screen is the one entered, else the same; the panel quits exactly if it was to or a quit is asked for. |
| CtlLaws.ScreensGoRound | muxrctl/src/app/state.rs:113-122 | The order of the screens, both ways round. |
| CtlLaws.OverlayClosesIff | muxrctl/src/app/update.rs:301-312 | An open overlay is closed by Esc or `q` and nothing else. |
| CtlLaws.FlagIff | muxrctl/src/app/update.rs:17-173 | A loading flag is up after a message if and only if the message does not take it down and it was up or a task for it starts. |
| CtlLaws.ServerStores | muxrctl/src/app/update.rs:24-45 | The status shown is the last one loaded; stopped is what it says, until a start. |
| CtlLaws.CertStores | muxrctl/src/app/update.rs:60-76 | Fingerprint and SANs are the last ones loaded; the trust changes by `t` only, in its order. |
| CtlLaws.LoadedConfigIs | muxrctl/src/app/update.rs:46-59 | A loaded configuration fills the form, the address taken apart at its last colon. |
| CtlLaws.ConfigFormIs | muxrctl/src/app/update.rs:370-458 | What else changes each field, the focus and the picker row of the form, and to what. |
| CtlLaws.TokensStore | muxrctl/src/app/update.rs:106-136 | The list is the last one loaded; the secret is that of the last token created, until it is dropped. |
| CtlLaws.TokenCursorIs | muxrctl/src/app/update.rs:586-600 | Where the token cursor goes. |
| CtlLaws.FormIs | muxrctl/src/app/update.rs:600-704 | What opens, fills and closes the create form. |
| CtlLaws.ScreenTicksAre | muxrctl/src/app/update.rs:247-262 | When the screen poll counts. |
| CtlLaws.OverlayTicksAre | muxrctl/src/app/update.rs:264-276 | When the overlay poll counts. |
| CtlLoop.Runner.TakeOne | muxrctl/src/tui/runner.rs:56-59 | One message through the handlers and the task starter, in place: the state stays reachable, no flag is wedged, the overlay is sound and the latest, both cursors are in range. |
| CtlLoop.Runner.DrainMessages | muxrctl/src/tui/runner.rs:55-59 | The inner loop ends, with tasks ending meanwhile, takes every message, and keeps the same. |
| CtlLoop.Runner.EventLoop | muxrctl/src/tui/runner.rs:54-76 | The loop is a run in which the terminal posts exactly the inputs taken, in order, up to a quit or to their end; every message is delivered before the next input, and after a quit none is left; the state keeps the same invariants, and with nothing pending no loading flag is up. |
| CtlLoading.UpdateRaises | muxrctl/src/app/update.rs:17-173 | A flag is up after a message only if it was up and the message does not take it down, or an action returned with it will. |
| CtlLoading.NoWedgedFlag | muxrctl/src/tui/runner.rs:83-215 | In every reachable state each flag that is up has a task or message that takes it down; with none pending all are down. |
| CtlDrain.NoScreenStaysLocked | muxrctl/src/app/update.rs:185-239 | Without input any run from a reachable state is finite, with a bound, and where it cannot go on every flag is down. |
| CtlDrain.TickIsLight | muxrctl/src/app/update.rs:241-277 | One tick asks for at most one status read, both pollers together. |
| CtlGuard.GuardBreaksIff | muxrctl/src/app/update.rs:24-103 | From a state in which the flag covers the reads that are out, a step breaks this if and only if it delivers a status, a failure or a success while another read is out. |
| CtlGuard.SecondReadIffEntry | muxrctl/src/app/update.rs:185-239 | From such a state a second read is started if and only if a screen that shows the status is entered while a read is out. |
| CtlGuard.SingleFlightBreaksIff | muxrctl/src/app/update.rs:241-277 | At most one read, under the flag, stays so under a step if and only if no failure, success or such entry is delivered while it is out. |
| CtlGuard.UndisturbedIsSingleFlight | muxrctl/src/app/update.rs:241-277 | Hence over every run from the start in which neither happens. |
| CtlGuard.FailureDropsGuard | muxrctl/src/app/update.rs:77-91 | Witness: a failed task of another kind takes the flag down while a read is out. |
| CtlGuard.EntryDropsGuard | muxrctl/src/app/update.rs:192-197 | Witness without a failure: entering a screen starts a second read, and the first one back takes the flag down. |
| CtlOverlay.SerialIsLatest | muxrctl/src/app/update.rs:628-658 | An open overlay carries the latest sequence number, wrap-around included. |
| CtlOverlay.KeyIsCalmOrOpens | muxrctl/src/app/update.rs:628-658 | Exactly one key in one situation opens an overlay, for the token then held. |
| CtlOverlay.RequestIsWhatWasHeld | muxrctl/src/app/update.rs:633-653 | The request recorded for an overlay is the token, rights and trust in force when the key was taken. |
| CtlPairing.CodeIsFound | muxrctl/src/tui/runner.rs:288-463 | A code carries the token and rights asked for, the advertised host, the port of the bind address, the trust that fits what was asked and found, the fingerprint on disk, and the client count as baseline. |
| CtlPairing.CodeIff | muxrctl/src/tui/runner.rs:296-399 | There is a code if and only if the server runs, its configuration reads, and a pin that is called for is on disk. |
| CtlPairing.BindPortIsNamed | muxrctl/src/tui/runner.rs:316-327 | The port is the one after the last colon of the address, the default where there is none or it is no port. |
| CtlOverlay.ShownCodeIsOwn | muxrctl/src/tui/runner.rs:288-463 | Over runs, a code on show is built from the request of this very overlay and from what a task for it found, and scanning it gives all of that back. |
| CtlOverlay.GeneratingIffAwaited | muxrctl/src/app/update.rs:138-170 | An overlay is generating if and only if exactly one result for it is outstanding, and otherwise none is. |
| CtlOverlay.PhaseOnlyMovesOn | muxrctl/src/app/update.rs:138-170 | Phases only move from generating to showing or failed, and from showing to connected. |
| CtlOverlay.ConnectedIffCountRose | muxrctl/src/app/update.rs:284-291 | Connected if and only if a client count reported since the code came up is above its baseline. |
| CtlForms.TypedCharacterIsText | muxrctl/src/app/state.rs:410-427 | While a text field has the keyboard a plain character, shortcut letters included, is typed and does nothing else; a port takes digits only. |
| CtlForms.BackspaceUndoesTyping | muxrctl/src/app/update.rs:370-414 | Backspace undoes a character that was taken, in every text field. |
| CtlForms.BindAddrRoundTripIff | muxrctl/src/app/state.rs:163-176 | Taking `host:port` apart gives host and port back if and only if the port has no colon. |
| CtlForms.SavedAddressReadsBack | muxrctl/src/app/update.rs:462-479 | Every address the form saves reads back into the form it was saved from. |
| CtlForms.SavesIff | muxrctl/src/app/update.rs:462-479 | A save is asked for if and only if the form is idle, its host is not blank and its trimmed port parses as 16 bits. |
| CtlForms.SavedPortInRangeIff | muxrctl/src/app/update.rs:471-474 | A saved port is in 1..=65535 if and only if it is not 0. |
| CtlForms.AdvertisesCheckedPortIff | muxrctl/src/tui/runner.rs:316-425 | If the pairing task finds the address the form saved, the code it shows, read back, names the port that was checked if and only if there was nothing to trim, or it is the default port. |
| CtlForms.PortZeroIsSaved | muxrctl/src/app/update.rs:471-474 | Witness: port 0 is saved. |
| CtlForms.SpacedPortIsNotAdvertised | muxrctl/src/tui/runner.rs:316-327 | Witness: a port loaded as ` 80` is checked as 80, saved with its space, and advertised as 50051. |
| CtlForms.RevokesIff | muxrctl/src/app/update.rs:608-618 | A revoke is asked for if and only if `d` or `x` is pressed on an idle token list with no overlay up, and then for the token under the cursor. |
| CtlForms.CursorsStayWithin | muxrctl/src/app/update.rs:46-60 | In every reachable state both list cursors point into their lists, or are 0. |
| AckDrain.Drain | muxrd/src/actions.rs:130-188 | At the second terminator: all Log lines, all LogError lines before it, joined in order, `ok` exactly without error lines; each way to stop earlier and its error; with nothing decided, exceeded after 500 turns and closed where the stream is shorter; an ack in no other case. |
| AckDrain.AckIffTwoTerminators | muxrd/src/actions.rs:130-188 | There is an ack if and only if the first 500 turns hold two terminators and nothing stops the drain before the second. |
| AckDrain.DecidedOnce | muxrd/src/actions.rs:137-183 | The drain is decided at one turn only. |
| AckDrain.JoinedLinesIff | muxrd/src/actions.rs:147-158 | Cutting the joined text at newlines gives the lines back if and only if none of them holds one. |
| AckDrain.LinesOfMessage | muxrd/src/actions.rs:168-175 | Which lines a message adds: Log lines to the information, LogError lines to the errors. |
| AckDrain.LinesInOrder | muxrd/src/actions.rs:168-175 | Lines are kept in arrival order. |
| AckDrain.StopErrors | muxrd/src/actions.rs:138-180 | The error of the deadline, of the end of the stream and of an Exit. |
| Framing.Stream.WriteMsg | muxrd/src/control.rs:103-111 | Appends the frame, or nothing from 2^32 bytes on. |
| Framing.Stream.ReadMsg | muxrd/src/control.rs:113-126 | Result and bytes taken, as parsing the bytes ahead gives them. |
| Framing.FrameForm | muxrd/src/control.rs:103-111 | Four bytes of length, the lowest first, then the body. |
| Framing.ParseFrame | muxrd/src/control.rs:113-126 | A frame is read back if its body is within 65536 bytes; a longer one is rejected after exactly four bytes. |
| Framing.FramesRoundTrip | muxrd/src/control.rs:103-126 | Any list of bodies within the bound comes back, with every byte used. |
| Framing.CutFrameIsTruncated | muxrd/src/control.rs:113-126 | A strict prefix of a frame is an error that uses all of it. |
| Framing.ReadsOnlyFrames | muxrd/src/control.rs:113-126 | A body is read exactly when the stream starts with its frame and it is within the bound. |
| PairingUri.PercentEncode | muxrctl/src/pairing/payload.rs:118-129 | The loop writes each byte's encoding in order. |
| PairingUri.PctRoundTrip | muxrctl/src/pairing/payload.rs:118-129 | Undoing percent-encoding (sections 2.1 and 2.3 of RFC 3986) gives the bytes back. |
| PairingUri.B64RoundTrip | muxrctl/src/pairing/payload.rs:91-91 | Undoing unpadded base64url (section 5 of RFC 4648) gives the bytes back. |
| PairingUri.B64Alphabet | muxrctl/src/pairing/payload.rs:91-91 | The digits are those of the URL-safe alphabet. |
| PairingUri.PctByteIs | muxrctl/src/pairing/payload.rs:118-129 | Which bytes stand for themselves, and the two capital hex digits of the others. |
| PairingUri.UriRoundTripIff | muxrctl/src/pairing/payload.rs:90-110 | Reading the URI gives every parameter back if and only if host and fingerprint have no `&`. |
| PairingUri.HostWithSeparatorIsCut | muxrctl/src/pairing/payload.rs:100-109 | Witness: a host with an `&` does not come back. |
| PairingUri.UriInjective | muxrctl/src/pairing/payload.rs:90-110 | Different such parameters have different URIs. |
| PairingUri.FingerprintIffPinned | muxrctl/src/pairing/payload.rs:95-98 | The fingerprint field is there exactly with `tm=pin`, and holds the fingerprint. |

## Left out

- JSON decoding: texts come with what they decode to, or that they do not; the framing carries plain bytes.
- tonic, tokio, DashMap, sockets, TLS, certificate generation and the token database: decoded values, atomic map steps and given answers stand for them.
- Time: each timeout and deadline is a step or a turn that may come at any point; the status polls count ticks.
- The backends: whether a sender call succeeds, what a live query answers and what herdr lists are given; focus and geometry rules of zellij and herdr are not part of this model.
- The server answers each wire action at most once and in order, or never; a server that answers out of order is not part of this model.
- The herdr synchronous layout query: `RelayInbound` has it as a call of the sender; its blocking task and reply do not touch the reader and are not in `RelayQuery`.
- Query sequence numbers, which the code only logs: the model names queries by hand-off order instead.
- A panic of a task or thread, and a control panel task that never ends.
- The bound of 256 on the control panel's message channel: a task blocked on a full channel is a task not yet ended; input dropped on a full channel is input not posted.
- Daemon.RegistriesAndCounts: its counters are numbers without a width; `ClientCount` has the 64-bit ones.
- A sum of counters beyond 64 bits wraps in the model; a build with overflow checks stops there.
- SpaceClose.LastSpaceLostIffAllNamed: takes for granted that herdr closes any space it is asked to close and does not itself keep the last one; herdr is not part of this model. `TwoCallsLoseTheLastSpace` rests on the same.
- ClientCount.SessionClients.TotalCount: reads the counters at one moment, where the code may see attaches and detaches in between.
- RelayReader.Reader.RenderLoop: where it waits and the schedule of the other parties is used up it returns as parked, which is where the thread stays blocked.
- CtlLoop.Runner.EventLoop: ends when its input is used up, where the program goes on polling.
- CtlOverlay.ShownCodeIsOwn: holds for fewer than 2^64 overlays opened in one process, as do the other overlay results but `SerialIsLatest`; after that a number could come round.
- The status lines of all screens, which are display only, and the choice of the advertised host, which the pairing task is given.
- The SAN list of a certificate request (`build_sans_from_config`): it needs IP address parsing and no other part depends on it.
- The persistence of the trust setting: saving is done on the spot and its errors are ignored.
- Space labels and ids: their validation is a character filter in front of the calls modelled here.
- Daemonizing, pid file, configuration files and environment, command line, rendering, and the mobile client.

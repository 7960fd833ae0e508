# Verified models of the pmux agent

pmux lets a phone attach to tmux panes on a host. The agent on the host keeps one
output stream per attached phone, tears streams and peers down while others come
up, authenticates each peer, pairs with one phone at a time, and keeps a signaling
connection alive. These Dafny modules model the agent's five stateful parts and
prove what they promise.

Concurrent parts are state machines. One step is one region that runs under a
lock, one channel operation, one message sent, or one call into tmux, WebRTC or
the network; every interleaving of the goroutines' steps is a run, and each
theorem is about all states of all runs. The objects whose fields those regions
update are classes; their methods are proved to compute the same functions that
the steps of the state machine are made of. Algorithms with loops are methods
with loop invariants.

| files | part |
|---|---|
| `TitleFilter.dfy`, `TitleOutput.dfy` | the filter that cuts tmux title sequences out of a chunked stream, and when its output opens a title again |
| `ShellQuote.dfy` | quoting a path for the shell, and reading it back |
| `HandlerEntries.dfy`, `HandlerSteps.dfy` | the message handler's maps, and its dispatcher, streams, watchers and teardowns |
| `HandlerInvariant.dfy`, `HandlerSafety.dfy`, `HandlerSilence.dfy`, `HandlerTheorems.dfy` | what every step keeps, the order of sent messages, which stream_resets are still sent |
| `HandlerEndings.dfy`, `HandlerResets.dfy` | how streams end: detached, and with a stream_reset where one is owed |
| `HandlerPaths.dfy` | what attaches, detaches, listings, streams, watchers and teardowns do when their calls work |
| `HandlerProgress.dfy`, `HandlerStops.dfy`, `HandlerDisconnect.dfy` | why no detach and no stopDispatch hangs, what a disconnect leaves behind |
| `HandlerRuns.dfy` | runs that show where those promises end |
| `StreamPayload.dfy`, `StreamTurns.dfy` | the bytes that one attachment sends, compressed or not, and how they fit the handler's stream thread |
| `PipeOwnership.dfy`, `PipeTheorems.dfy`, `PipeReleases.dfy` | which bridge owns a pane's one tmux pipe, and that a close turns its own off |
| `PeerBooks.dfy`, `PeerSteps.dfy`, `PeerInvariant.dfy`, `PeerTheorems.dfy` | peers, their cleanups, reloads and shutdown |
| `PeerConnects.dfy`, `PeerCleanups.dfy` | which connect requests succeed and which are refused, what cleanups and reloads come to |
| `PeerProgress.dfy` | why neither a reload nor a shutdown waits forever for peers to close |
| `PeerAuth.dfy`, `AuthTheorems.dfy`, `AuthExchange.dfy` | the connect-time proof of key possession, what its MACs prove, and what each message leads to |
| `Backpressure.dfy` | the bound on a DataChannel's send buffer, and when its gate holds back |
| `PairingStore.dfy`, `PairSession.dfy`, `PairReading.dfy`, `RunPair.dfy` | the stored pairing, the pairing session, and one run of `pmux pair` |
| `Signaling.dfy`, `SignalingTheorems.dfy`, `SignalingAttempts.dfy` | backoff, dormancy and suspend/resume, and what each attempt to connect comes to |

## What is assumed

- Calls into libraries and tmux return; how they come out (success, error, panic
  where the code guards against one) is an arbitrary choice of the run. Reading
  from a bridge and sending output are not such calls: for progress they count as
  returning only once something releases them (`HandlerSteps.Unblocked`).
- The handler handles one message of a device at a time. The code arranges this
  with one dispatcher per peer and by stopping the old peer's dispatch before a
  replacement is inserted; the bound on that wait (internal/webrtc/peer.go:832-838)
  can break it when tmux hangs.
- One signaling reader, one reload goroutine and one shutdown use a peer manager;
  it has a disconnect handler; its wait groups' counters are integers that are
  proved never to become negative.
- A tmux command that fails changes nothing, and nobody else changes the pipe of
  a pane while the agent uses it.
- deflate is any pair of functions in which inflating every payload in order
  gives back the data in order, and HMAC is any function; where a theorem needs it
  to be injective, it says so (`AuthExchange.FramedIsInjective`). Certificate
  fingerprints have 32 bytes, since internal/webrtc/peer.go:1819-1857 gives no others.
- A server that confirms pairings reports a commit only if it committed. A legacy
  server has committed a pairing by the time it delivers pair_complete.
- DataChannel messages have a largest size, there is one output sender and a
  largest number of control senders, and the low-water callback runs with the
  drain that crosses its threshold.

## Where the model follows the code against its wording

- internal/tmux/titlefilter.go:52-56 speaks of stripping title sequences; the
  output can still contain ESC k (`TitleOutputs.CuttingCanOpen`). It does exactly
  if a title too long was flushed, or titles were cut out between an ESC and a k
  (`TitleOutputs.OutputOpensTitle`).
- internal/agent/handler.go:784-786 says that marking a stream superseded stops it
  from also sending stream_reset. A stream that has passed its check of the mark
  still sends it (`HandlerRuns.ResetCanComeDuringWait`,
  `HandlerTheorems.PastItsCheckResets`); any other does not, in any run
  (`HandlerTheorems.AwaitedStreamSendsNoReset`).
- internal/agent/handler.go:45 records that the exit of an attachment was
  announced, but the session listing (internal/agent/handler.go:194-202) announces
  a missing pane without that record. So a peer can be told twice
  (`HandlerRuns.ExitCanBeToldTwice`), and never more often
  (`HandlerTheorems.ToldClosedAtMostTwice`).
- internal/agent/handler.go:563-565 says that a stream whose send or compression failed
  sends stream_reset. One that is overtaken by the shutdown of the agent does not
  (`HandlerRuns.ShutdownCutsFailureShort`); `HandlerResets.FailedStreamsReset` says
  that only that, or a detach that waits for it, lets it off.
- internal/agent/handler.go:318-329 announces an attachment in front of its output,
  but ignores the error from sending `attached`: when that send fails, the output
  still goes out, to a peer that was told of no attachment
  (`HandlerRuns.OutputCanComeUnannounced`).
- internal/webrtc/peer.go:499-501 says that `CloseAll` waits for every peer's close and all
  background cleanup. When it overlaps a reload, handlers of the reload's own
  snapshot may not even have started: `PeerTheorems.CloseAllWaitsForHandlers`
  states the exact exception and `PeerTheorems.ShutdownCanOutrunReload` shows it happens.
- internal/agent/pair.go:205-206 says that with a confirming server every early
  return leaves nothing committed. An Accept whose confirmation is lost returns
  early too, and the server may have committed: `RunPairs.ConfirmationCanGetLost`
  is such a run, and `RunPairs.ConfirmedOutcome`, which `RunPairs.RunPair`
  guarantees, says exactly when the server commits.
- internal/agent/pair.go:219-224 undoes a legacy server's pairing. That holds from
  the authenticated session on. A pair_complete that arrives in front of a failed
  auth reply is forgotten: `RunPairs.DialCanForget` is such a run, and
  `RunPairs.RunPair` says exactly what the server's record becomes without a session.

## Model

| member | source | states |
|---|---|---|
| `TitleFilters.TitleFilter.Filter` | internal/tmux/titlefilter.go:56-128 | one call moves the state and returns bytes exactly as running the byte automaton over the chunk does, bulk copy included |
| `TitleFilters.TitleFilter.Consume` | internal/tmux/titlefilter.go:80-121 | one byte outside passthrough moves the object as one automaton step, and keeps the buffer within its limits |
| `TitleFilters.TitleFilter.BufferTitle` | internal/tmux/titlefilter.go:40-50 | buffering a title byte, or flushing the 513-byte buffer and returning to passthrough |
| `TitleFilters.TitleFilter.Reset` | internal/tmux/titlefilter.go:33-38 | back to the start state; buffered title bytes are forgotten and output is left alone |
| `TitleFilters.IndexEsc` | internal/tmux/titlefilter.go:67-78 | the first ESC at or behind an index, or the end when there is none |
| `TitleFilters.RunPlain` | internal/tmux/titlefilter.go:66-72 | in passthrough, bytes without ESC go out unchanged, as the bulk copy does it |
| `TitleFilters.RunKeepsValid` | internal/tmux/titlefilter.go:43-50 | the title buffer never holds more than 512 bytes between steps |
| `TitleFilters.RunAppend` | internal/tmux/titlefilter.go:64-122 | running over two stretches is running over one after the other |
| `TitleFilters.RunIsWholeStream` | internal/tmux/titlefilter.go:64-122 | the automaton's output and held bytes are those of a left-to-right description of the whole stream |
| `TitleFilters.WholeStreamAccounts` | internal/tmux/titlefilter.go:52-122 | copied, dropped and held bytes together are the input in order; only whole titles of at most 513 bytes are dropped; only an undecided tail is held |
| `TitleFilters.ChunksDoNotMatter` | internal/tmux/titlefilter.go:20-26 | for every split into chunks, output and final state are those of one call on the whole |
| `TitleFilters.FilteredChunksAreWholeStream` | internal/tmux/titlefilter.go:20-128 | a fresh filter fed any chunks outputs what the whole-stream description copies and holds what it holds |
| `TitleFilters.OutputOnlyGrows` | internal/tmux/titlefilter.go:52-56 | more input only extends the output |
| `TitleOutputs.OutputOpensTitle` | internal/tmux/titlefilter.go:43-122 | a fresh filter's output contains ESC k exactly if a 513-byte title was flushed, or titles were cut out between a lone ESC and a lone k |
| `TitleOutputs.OpeningsAreSeams` | internal/tmux/titlefilter.go:80-111 | without a flush, ESC k comes out exactly where cut-out titles bring an ESC and a k together |
| `TitleOutputs.CuttingCanOpen` | internal/tmux/titlefilter.go:87-111 | the input ESC ESC k t ESC \ k comes out as ESC k |
| `ShellQuoting.EscapedTextStaysQuoted` | internal/tmux/pty.go:17-23 | while inside quotes, escaped text adds its own characters to the word and nothing else |
| `ShellQuoting.QuotedTextIsLiteral` | internal/tmux/pty.go:17-23 | in front of any rest of a command line, quoted text adds exactly its original characters to the current word |
| `ShellQuoting.QuotedRoundTrip` | internal/tmux/pty.go:17-23 | for every string, reading the quoted form gives one word, the string itself |
| `ShellQuoting.QuotedWordsRoundTrip` | internal/tmux/pty.go:17-23 | a list of quoted arguments reads back as that list |
| `ShellQuoting.PipeCommandNamesThePath` | internal/tmux/pty.go:117-128 | the pipe-pane command reads as five words whatever the path is, and the path is all of the last |
| `HandlerEntries.Handler.constructor` | internal/agent/handler.go:49-66 | a new handler holds no entry for any peer |
| `HandlerEntries.Handler.TakeAttachment` | internal/agent/handler.go:780-798 | a detach takes one peer's attachment out of all maps and, to wait, marks its stream superseded; other peers are untouched |
| `HandlerEntries.Handler.Install` | internal/agent/handler.go:310-316 | an attach enters bridge, cancel, done and pane for one peer |
| `HandlerEntries.Handler.ForgetStream` | internal/agent/handler.go:683-690 | an ended stream drops its done entry only if it is its own, and its superseded mark |
| `HandlerEntries.Handler.TryClaimExit` | internal/agent/handler.go:697-705 | the first caller for an attached peer is told the pane, later ones are not |
| `HandlerEntries.Handler.IsSuperseded` | internal/agent/handler.go:668-670 | whether a detach waits for this stream |
| `HandlerEntries.Handler.RecordPing` | internal/agent/handler.go:489-500 | a ping leaves a ping entry for its peer |
| `HandlerEntries.Handler.ForgetPing` | internal/agent/handler.go:120-123 | a disconnect drops the peer's ping entry |
| `HandlerInvariant.NextKeepsInv` | internal/agent/handler.go:145-823 | every step of dispatcher, stream, watcher, teardown and environment keeps the handler's invariant |
| `HandlerInvariant.TakeKeepsInv` | internal/agent/handler.go:779-798 | taking an attachment out hands its bridge to exactly one detach |
| `HandlerInvariant.InstallKeepsInv` | internal/agent/handler.go:279-317 | installing a fresh attachment keeps every record of bridges, streams and waits consistent |
| `HandlerInvariant.StartKeepsInv` | internal/agent/handler.go:414-420 | handing the done channel from the attach to its stream leaves it exactly one owner |
| `HandlerInvariant.CloseDoneKeepsInv` | internal/agent/handler.go:683-691 | closing a done channel ends its ownership, once |
| `HandlerSafety.StepKeepsSent` | internal/agent/handler.go:210-421 | every step keeps the order of the messages sent so far and what may still be sent |
| `HandlerSafety.RunKeepsSent` | internal/agent/handler.go:210-421 | in every run the sent messages are in order |
| `HandlerTheorems.OneStreamAtMost` | internal/agent/handler.go:567-657 | at most one thread streams, and it streams the peer's latest attachment |
| `HandlerTheorems.NothingFollowsDetach` | internal/agent/handler.go:767-815 | no output and no stream_reset of an attachment is sent behind the detached or later attached event that follows its detach; no attached event comes behind an output of its attachment, and no output or second reset behind its reset; handlePaneExit announces an attachment's exit at most once, and a listing finds its pane missing at most once |
| `HandlerTheorems.ToldClosedAtMostTwice` | internal/agent/handler.go:194-202 | of each attachment the peer is told pane_closed at most twice, and twice exactly if both the listing and the claimant of its exit have sent it |
| `HandlerRuns.OutputCanComeUnannounced` | internal/agent/handler.go:318-332 | a run in which the attached event is lost and the attachment's output is sent all the same |
| `HandlerTheorems.SecondNoticeNeedsClaim` | internal/agent/handler.go:697-713 | once an attachment is out of the maps with its exit unclaimed, handlePaneExit never announces it in any continuation nor has before, and the peer is told at most once, by the listing |
| `HandlerRuns.ExitCanBeToldTwice` | internal/agent/handler.go:697-713 | a run in which the listing announces a missing pane and the watcher claims and announces the exit before the listing's detach |
| `HandlerTheorems.AwaitedStreamSendsNoReset` | internal/agent/handler.go:659-678 | from the moment a detach waits for a stream, that stream sends no stream_reset in any continuation, unless it had passed its check by then |
| `HandlerTheorems.PastItsCheckResets` | internal/agent/handler.go:668-677 | a stream that has passed its check goes on to send the reset, whoever waits for it |
| `HandlerRuns.ResetCanComeDuringWait` | internal/agent/handler.go:668-677 | a run in which a detach waits for a stream that has passed its check |
| `HandlerTheorems.NothingLeaks` | internal/agent/handler.go:290-316 | every bridge is current, held by one detach or closed, and closed once; every done channel is open with an owner or closed once; superseded names only the live stream; an exit is claimed at most once |
| `HandlerEndings.EndedStreamsAreDetached` | internal/agent/handler.go:567-691 | a stream that is over and that nobody cancelled has left its attachment out of the maps, or its exit has been claimed and the claimant is on its way to take it out |
| `HandlerEndings.BreakingOffIsTold` | internal/agent/handler.go:599-678 | a stream that breaks off uncancelled, by a failed send or compression or displaced, stays on its way to its reset until it has tried to send it, or a detach that waits for it has let it off |
| `HandlerResets.FailedStreamsReset` | internal/agent/handler.go:333-360 | a thread that stood at a failed send, before or in its stream, closes its done channel only behind its own attempt at stream_reset, unless a detach marked it superseded or the agent was shut down in the meantime |
| `HandlerRuns.ShutdownCutsFailureShort` | internal/agent/handler.go:647-654 | a run in which a stream fails uncancelled, the agent shuts down, and the stream ends without its reset |
| `HandlerPaths.StreamSendsOutput` | internal/agent/handler.go:582-655 | a stream that is not cancelled sends what it reads and is back at the top of its loop, with nothing else changed |
| `HandlerPaths.PaneExitEndsStream` | internal/agent/handler.go:604-608 | when the pane of a stream exits, the peer is told pane_closed with a listing behind it, and the attachment is gone from every map, its bridge and done channel closed |
| `HandlerPaths.FailedStreamIsReset` | internal/agent/handler.go:659-691 | a stream whose send failed takes its attachment out, sends stream_reset and ends, leaving nothing in the maps |
| `HandlerPaths.FailedAttachIsReset` | internal/agent/handler.go:283-356 | an attach that panics or whose send fails in front of its stream takes its attachment out, sends stream_reset and ends it |
| `HandlerPaths.PanickedStreamEnds` | internal/agent/handler.go:573-579 | a stream that panics takes its attachment out and ends, telling the peer nothing |
| `HandlerPaths.WatcherTellsExit` | internal/agent/handler.go:697-735 | a watcher that sees its pane gone tells the peer, takes the attachment out and waits for its stream |
| `HandlerPaths.WatcherEnds` | internal/agent/handler.go:739-763 | a watcher whose attachment was cancelled ends |
| `HandlerPaths.ListingTellsMissing` | internal/agent/handler.go:190-203 | a listing that misses the attached pane tells the peer, takes the attachment out and comes to its wait |
| `HandlerPaths.DetachRequestTells` | internal/agent/handler.go:424-434 | behind its wait a detach request sends the detached event, and the dispatcher is idle again |
| `HandlerPaths.AttachRequestTakesOut` | internal/agent/handler.go:210-240 | an attach request takes out what is attached, and marks and awaits its stream |
| `HandlerPaths.AttachStreams` | internal/agent/handler.go:279-420 | from opening its bridge on, an attach whose calls work sends attached and output, registers its pane and leaves its stream and watcher running |
| `HandlerPaths.TeardownCleansUp` | internal/agent/handler.go:119-126 | a teardown that finds the dispatcher idle stops the peer's dispatch, forgets its ping and takes out what is attached |
| `HandlerPaths.DisconnectCleansUp` | internal/agent/handler.go:119-126 | a disconnect forgets the peer's ping and takes out what is attached |
| `HandlerTheorems.InstallsOverNothing` | internal/agent/handler.go:233-317 | where a bridge is installed there is no bridge, stream, mark or claim to overwrite |
| `HandlerProgress.OwnMovesAreBounded` | internal/agent/handler.go:567-691 | every operation of a handler call, a teardown or a cancelled stream brings its end nearer, at most 17 remain, and those that can block are sure to return once the bridge was closed |
| `HandlerProgress.DetachReturns` | internal/agent/handler.go:800-815 | whatever a detach waits for closes its done channel after at most 19 operations of threads whose next operation is sure to return |
| `HandlerProgress.HelperCanMove` | internal/agent/handler.go:800-815 | the thread that must close the awaited channel is never itself waiting, so waits form no circle, and the cancel and close before the wait have released its read or send |
| `HandlerRuns.ReadsCanBlock` | internal/agent/handler.go:592-593 | before a detach a stream can be parked in a read of its open bridge |
| `HandlerProgress.HelperHelps` | internal/agent/handler.go:666-691 | each operation of that thread brings the end of the wait nearer |
| `HandlerProgress.OthersDoNotHinder` | internal/agent/handler.go:779-823 | no other step sets a wait back |
| `HandlerProgress.EveryWaitEnds` | internal/agent/handler.go:567-823 | behind a detach the done channel closes after at most 19 operations of threads whose next operation is sure to return, whatever else happens |
| `HandlerStops.StopDispatchReturns` | internal/webrtc/peer.go:1619-1640 | while a teardown waits in stopDispatch, the handler call it waits for goes on, its output sends released, and has returned after at most 359 operations of its own and of the threads it waits for |
| `HandlerStops.WorkFalls` | internal/webrtc/peer.go:1572-1640 | every such operation brings the end of the handler call nearer and no other step sets it back |
| `HandlerDisconnect.StepKeepsTornDown` | internal/webrtc/peer.go:573-581 | what a disconnect has cleaned up behind stopped dispatch stays clean through every step |
| `HandlerDisconnect.TornDownPeerIsGone` | internal/agent/handler.go:120-126 | once dispatch is stopped and the disconnect handler has returned, no map holds an entry of the peer until its next connection |
| `StreamPayloads.DecodeEncode` | internal/protocol/compress.go:26-40 | inflating a gap-free sequence of payloads gives back the chunks |
| `StreamPayloads.FlippingIsLawful` | internal/protocol/compress.go:10-18 | a history-dependent codec meets the assumption made about deflate |
| `StreamPayloads.GapsAreNotRecovered` | internal/agent/handler.go:331-337 | the codec assumption alone does not allow gaps: with a made-up lawful codec, a lost payload loses what follows |
| `StreamPayloads.RawBytesAreNotRecovered` | internal/agent/handler.go:628-630 | nor does it allow mixing: with a made-up lawful codec, raw bytes behind a payload are not read back |
| `StreamPayloads.OutputCompressor.Compress` | internal/protocol/compress.go:26-40 | a chunk's payload depends on all chunks before it; a failure leaves nothing known about the writer |
| `StreamPayloads.SendText` | internal/agent/handler.go:344-360 | compress, then send: a success extends the payloads by exactly the next one, a failure sends nothing |
| `StreamPayloads.StreamTurn` | internal/agent/handler.go:585-656 | one turn of the stream's loop sends at most the filtered text of what it read and ends for the reason its outcomes name |
| `StreamPayloads.StreamOutput` | internal/agent/handler.go:567-657 | payloads extend without a gap until the first turn that ends the stream, and every turn goes on, or ends as displaced, exited, failed or cancelled, exactly as its reads, sends and context decide |
| `StreamPayloads.GapFreePrefixIsReadable` | internal/agent/handler.go:583-656 | what is sent inflates to the pre-stream bytes and the filtered form of a prefix of the pane's bytes |
| `StreamPayloads.RunAttachment` | internal/agent/handler.go:321-417 | for one attachment, with or without compression, the receiver reads the pre-stream data and then the filtered form of a prefix of what was read from the pane, all of it while the stream runs |
| `StreamPayloads.TextIsNewOutput` | internal/agent/handler.go:620-627 | what a turn has to send is exactly what its bytes add to the filtered output of the whole stream, so a chunk that is all title needs no send |
| `StreamTurns.TurnsAgree` | internal/agent/handler.go:582-655 | the ending of a turn of bytes, each characterised by what its calls and its context said, is where the handler's stream thread goes on, whatever other threads do in between |
| `PipeOwnership.PaneBridge.MarkDisplaced` | internal/tmux/pty.go:276-285 | a bridge that is not closed becomes displaced, once, and its relay closes |
| `PipeOwnership.PaneBridge.MarkClosed` | internal/tmux/pty.go:320-327 | the first caller closes, later ones do nothing |
| `PipeOwnership.PaneBridge.OnRelayEnd` | internal/tmux/pty.go:259-268 | a read that ends reports displacement exactly while displaced and not closed |
| `PipeOwnership.Client.LockFor` | internal/tmux/pty.go:379-390 | every pane has one lock of its own and keeps it |
| `PipeOwnership.Client.RecordOwner` | internal/tmux/pty.go:136-142 | the new bridge is recorded and the one it replaces is returned |
| `PipeOwnership.Client.ForgetOwner` | internal/tmux/pty.go:363-371 | the record goes only if it names this bridge |
| `PipeTheorems.StepKeepsInv` | internal/tmux/pty.go:122-146 | every step of concurrent attaches and closes keeps the ownership invariant |
| `PipeTheorems.RecordAgreesWithTmux` | internal/tmux/pty.go:122-125 | while a pane's lock is free, the recorded bridge has the pipe, and a bridge that has the pipe is recorded or closed |
| `PipeTheorems.OnlyItsOwnCloseTurnsAPipeOff` | internal/tmux/pty.go:355-373 | a bridge's pipe ends only through its own close or a newer attach that takes it over |
| `PipeReleases.ClosedPipesStayOff` | internal/tmux/pty.go:316-374 | when the pipe-pane command of a close works, no pane's pipe feeds its bridge in any later state, and no other pane's pipe changes |
| `PipeReleases.KeptOnlyByFailure` | internal/tmux/pty.go:316-374 | a closed bridge whose close is not under way has a pipe only if the pipe-pane command of its close has failed |
| `PipeReleases.CloseFreesPipe` | internal/tmux/pty.go:316-374 | from every state in which nobody holds its pane's lock, a first close whose command works takes its bridge off the record and its pipe off tmux, or touches no pipe if the bridge is not on record |
| `PipeReleases.AttachTakesPipe` | internal/tmux/pty.go:127-151 | from every state in which nobody holds the pane's lock, an attach whose commands work has the pipe and the record, the bridge it replaced is told, and no other bridge changes |
| `PipeTheorems.NoBridgeIsForgotten` | internal/tmux/pty.go:122-146 | an installed bridge is owner, closed or closing, displaced, or held by exactly one attach about to tell it |
| `PipeTheorems.OwnersAreNotDisplaced` | internal/tmux/pty.go:272-285 | the owner of a pane's pipe was never told that it is displaced |
| `PipeTheorems.HeldBridgesAreTold` | internal/tmux/pty.go:140-146 | the attach that replaced a bridge never waits and tells it within two moves |
| `PipeTheorems.LockHoldersMove` | internal/tmux/pty.go:375-392 | one thread at a time is behind a pane's lock, and it can move |
| `PipeTheorems.LocksAreReleased` | internal/tmux/pty.go:126-143 | a pane's lock is released after at most three moves of its holder, each of which it can make, and no other step sets that back |
| `PeerBooks.PeerManager.SetAllowedDeviceID` | internal/webrtc/peer.go:252-260 | only the allowed device changes |
| `PeerBooks.PeerManager.TrackCleanup` | internal/webrtc/peer.go:403-409 | a background close is counted exactly while the manager is open |
| `PeerBooks.PeerManager.ScheduleCleanup` | internal/webrtc/peer.go:617-622 | a teardown is counted in both groups, and started only while the manager is open |
| `PeerBooks.PeerManager.TakeOldPeer` | internal/webrtc/peer.go:804-826 | a reconnect removes the old peer and counts its teardown in one region |
| `PeerBooks.PeerManager.InsertPeer` | internal/webrtc/peer.go:919-944 | a peer is inserted exactly if the manager is open, the device is allowed and there is room |
| `PeerBooks.PeerManager.ClosePeer` | internal/webrtc/peer.go:441-450 | whatever is tracked under the device is removed and returned |
| `PeerBooks.PeerManager.ClosePeerIfCurrent` | internal/webrtc/peer.go:472-483 | a peer is removed only if it is the one tracked |
| `PeerBooks.PeerManager.TakeAllPeers` | internal/webrtc/peer.go:543-559 | the manager closes and its peers become the snapshot |
| `PeerBooks.PeerManager.ShutDown` | internal/webrtc/peer.go:502-507 | shutdown is recorded before anything is closed |
| `PeerBooks.PeerManager.ReopenUnlessShutDown` | internal/webrtc/peer.go:528-535 | a reload reopens unless a shutdown has begun |
| `PeerInvariant.CountsAfter` | internal/webrtc/peer.go:403-439 | starting or advancing one cleanup changes each wait group by that cleanup alone |
| `PeerInvariant.UnitKeepsInv` | internal/webrtc/peer.go:617-655 | every step of a background cleanup keeps the manager's invariant |
| `PeerInvariant.TakeOldKeepsInv` | internal/webrtc/peer.go:804-826 | removing the old peer together with counting its teardown keeps it |
| `PeerInvariant.ReloadSnapshotKeepsInv` | internal/webrtc/peer.go:543-583 | a reload's snapshot keeps it, with a handler call started for each peer taken |
| `PeerInvariant.NextKeepsInv` | internal/webrtc/peer.go:403-655 | every step of connector, reload, shutdown and cleanups keeps the invariant |
| `PeerTheorems.WaitGroupsAreUsedSafely` | internal/webrtc/peer.go:519-526 | a closed manager tracks no peer, counters never go negative, teardownWg never exceeds cleanupWg, and nothing is added to either while a Wait is pending |
| `PeerTheorems.CloseAllWaitsForHandlers` | internal/webrtc/peer.go:537-587 | when a closeAll is done waiting, the handler has returned for its own snapshot and for every failed or replaced peer's teardown |
| `PeerTheorems.ShutdownCanOutrunReload` | internal/webrtc/peer.go:499-507 | a shutdown overlapping a reload can return before a handler of the reload's snapshot has started |
| `PeerTheorems.CloseAllWaitsForCloses` | internal/webrtc/peer.go:589-593 | when CloseAll returns, its snapshot and everything counted in cleanupWg is closed |
| `PeerTheorems.ShutdownWins` | internal/webrtc/peer.go:525-535 | once a shutdown took its snapshot, the manager stays closed and empty |
| `PeerTheorems.OnlyTheAllowedDeviceIsTracked` | internal/webrtc/peer.go:919-942 | outside the window between changing the allowed device and closing the peers, every tracked peer is for the allowed device, and there are at most MaxPeers |
| `PeerTheorems.InsertOverwritesNothing` | internal/webrtc/peer.go:919-944 | an insert never replaces a tracked peer and happens exactly when admission holds |
| `PeerTheorems.PeersLeaveForAReason` | internal/webrtc/peer.go:441-483 | a tracked peer leaves the map only by its own cleanup, a reconnect of its device, the failure of the connect that made it, or a closeAll; the reconnect and the closeAll start its teardown in the same step |
| `PeerTheorems.ReconnectComesBehindTeardown` | internal/webrtc/peer.go:795-838 | a reconnect's insert comes behind the disconnect handler of the peer it replaced, unless the bounded wait ran out |
| `PeerConnects.WelcomeRequestsConnect` | internal/webrtc/peer.go:716-1000 | from every state with an open manager that allows the device and has room for it or a peer of its, a request whose calls work tracks the new peer in place of any old one, whether the old one's teardown was in time or not |
| `PeerConnects.RefusedForAReason` | internal/webrtc/peer.go:716-1000 | a request is given up only because the manager is closed, allows another device or is filled by others, or because its secret, connection or set-up failed |
| `PeerConnects.FoundOutIsRefused` | internal/webrtc/peer.go:746-997 | each of these, where it is looked for, does end the request, with no peer of its making left |
| `PeerCleanups.UnitsHaveDone` | internal/webrtc/peer.go:617-655 | no cleanup skips its part: the disconnect handler was called unless the failed peer was found replaced, the removal comes before the close, and the close before the end |
| `PeerCleanups.ClosedPeersAreUntracked` | internal/webrtc/peer.go:466-483 | a peer that is being closed, or was replaced or taken into a snapshot, is tracked under no device, then or ever after |
| `PeerCleanups.FailedPeersAreCleanedUp` | internal/webrtc/peer.go:605-655 | the cleanup of a failed peer that is tracked goes through its handler, removes it and ends, and leaves the counters as they were |
| `PeerCleanups.ReloadsOpenForTheirDevice` | internal/webrtc/peer.go:509-535 | a reload ends with its own device allowed, no peer tracked, and the manager open unless a shutdown has begun |
| `PeerProgress.EveryCloseEnds` | internal/webrtc/peer.go:561-593 | while a reload or shutdown is blocked in a wait, some unit it waits for can move, the moves left of those units are at most seven for each unit there is and only go down, and nothing is added to them because the manager is closed |
| `PeerAuth.Peer.ArmChallenge` | internal/webrtc/peer.go:1670-1677 | the nonce is stored and the timeout armed |
| `PeerAuth.Peer.FailAuth` | internal/webrtc/peer.go:1868-1882 | the first resolution fails the peer, later ones do nothing |
| `PeerAuth.Peer.CommitAuth` | internal/webrtc/peer.go:1753-1769 | a verified response commits unless authentication was already resolved |
| `PeerAuth.Peer.ConfirmAuth` | internal/webrtc/peer.go:1790-1792 | the confirm is recorded |
| `PeerAuth.Peer.RevokeAuth` | internal/webrtc/peer.go:1779-1788 | an unsent confirm takes authentication back |
| `PeerAuth.Peer.AdmitSend` | internal/webrtc/peer.go:2046-2061 | before the confirm only handshake messages pass, on a closed peer none |
| `AuthTheorems.NextKeepsInv` | internal/webrtc/peer.go:1572-1793 | every step of dispatcher, challenge, timeout, senders and teardown keeps the authentication invariant |
| `AuthTheorems.ResolvesOnce` | internal/webrtc/peer.go:1753-1769 | authentication resolves at most once, as success or failure, for good |
| `AuthTheorems.IdleMeansConfirmed` | internal/webrtc/peer.go:1774-1793 | whenever dispatch is idle, authenticated, authConfirmed and an auth_confirm on the wire are the same thing |
| `AuthTheorems.NothingBeforeProof` | internal/webrtc/peer.go:1593-1616 | every handler call and every message other than the handshake comes behind an auth_confirm sent, itself behind a verified MAC over the issued nonce and over the same transcript |
| `AuthExchange.ConfirmAnswersProof` | internal/webrtc/peer.go:1745-1778 | every auth_confirm is the MAC under the host's label over the nonces and fingerprints of a response before it, whose own MAC was the one under the mobile's label |
| `AuthExchange.ConfirmsAreNoProofs` | internal/webrtc/peer.go:1799-1808 | under an injective MAC no auth_confirm of any connection equals the MAC of a response that any connection accepted |
| `AuthExchange.EqualConfirmsAnswerTheSame` | internal/webrtc/peer.go:1799-1808 | under an injective MAC equal auth_confirms answer equal nonces under equal secrets and fingerprints, although nothing separates the parts that are hashed |
| `AuthExchange.FirstAnswerDecides` | internal/webrtc/peer.go:1593-1793 | a peer that was asked is let in and confirmed exactly by the MAC over its nonce; with any other first message it has failed for good |
| `AuthExchange.RequestsAreServed` | internal/webrtc/peer.go:1593-1616 | once confirmed, each request reaches the handler once, and no other message does anything |
| `AuthExchange.NoFingerprintsNoEntry` | internal/webrtc/peer.go:1738-1743 | without the connection's fingerprints the response fails, whatever it is |
| `AuthExchange.ClosedPeersFallSilent` | internal/webrtc/peer.go:2046-2061 | behind its close a peer is sent nothing but what had passed the gate by then |
| `AuthExchange.NobodyLingers` | internal/webrtc/peer.go:1657-1687 | an open peer that is undecided has been sent its challenge, and unless it is closed its timeout is armed and fails it |
| `AuthTheorems.TurnedAwayForGood` | internal/webrtc/peer.go:1860-1887 | a peer that failed, or whose confirm was not sent, never reaches the handler and is sent nothing else |
| `AuthTheorems.StoppedMeansSilent` | internal/webrtc/peer.go:1619-1640 | behind stopDispatch no request reaches the handler |
| `Backpressure.NextKeepsInv` | internal/webrtc/peer.go:1976-2001 | every step keeps what is buffered, and what control senders past their check may add, below the bound |
| `Backpressure.BufferStaysBounded` | internal/webrtc/peer.go:49-61 | the buffer never exceeds maxControlBufferedAmount and one message per control sender and for the output sender |
| `Backpressure.BoundIsReached` | internal/webrtc/peer.go:2046-2077 | with a control sender, some run reaches that bound exactly |
| `Backpressure.DrainWakesOutput` | internal/webrtc/peer.go:1535-1540 | in every run, an output send that waits while the buffer has drained to the low-water mark has its wakeup token |
| `Backpressure.WakeupsComeFromDrains` | internal/webrtc/peer.go:1535-1540 | a wakeup token is there only if the buffer was drained across the low-water mark since the last one was taken |
| `Backpressure.GateHasItsReason` | internal/webrtc/peer.go:1976-1990 | in every run output waits only behind a check that found more than 512 KiB buffered, and goes out only behind a check that found no more or behind a wakeup |
| `Backpressure.OutputGoesOut` | internal/webrtc/peer.go:1976-2001 | output that starts on at most 512 KiB goes out without waiting, and on more it waits |
| `Backpressure.ControlGoesOut` | internal/webrtc/peer.go:2068-2077 | a control message goes out on at most 1 MiB, and is refused on more |
| `PairingStore.HostStore.LoadPairedDevices` | internal/auth/pairing.go:268-299 | loading fails exactly on a read or secret-store error, and otherwise gives every device with its secret, if it has one |
| `PairingStore.HostStore.LoadPairedDevice` | internal/auth/pairing.go:361-371 | the first device, or none |
| `PairingStore.HostStore.SavePairedDevices` | internal/auth/pairing.go:301-336 | the list is replaced as a whole or not at all |
| `PairingStore.HostStore.RemovePairedDevice` | internal/auth/pairing.go:338-359 | load, delete the secret, write the list without the device: the state after each failure |
| `PairingStore.HostStore.AddPairedDevice` | internal/auth/pairing.go:397-416 | store the secret if the device has one, then replace the list: the state after an undecodable secret and after each failure |
| `PairingStore.PairedIsLastPaired` | internal/auth/pairing.go:338-416 | behind any history of adds, removals and failures at most one device is paired, and it is the one exactly if some call paired it and no later success replaced or removed it |
| `PairingStore.AddThenRemove` | internal/auth/pairing.go:338-416 | adding and then removing a device, however either fails: no other secret is touched, a removal that succeeds leaves no trace, and if both succeed nothing is paired |
| `PairSessions.FirstCompletionIsFirst` | internal/auth/pair_session.go:290-296 | the pair_complete that is kept is the first one |
| `PairSessions.PairSession.Authenticate` | internal/auth/pair_session.go:254-299 | success exactly if the auth reply comes before any error, keeping the first pair_complete in front of it |
| `PairSessions.PairSession.ReadPairComplete` | internal/auth/pair_session.go:345-360 | the reader's loop returns the first pair_complete among the frames |
| `PairSessions.PairSession.WaitForPairComplete` | internal/auth/pair_session.go:301-323 | a received pair_complete is returned with every error, and only one wait is allowed |
| `PairSessions.PairSession.Accept` | internal/auth/pair_session.go:406-444 | success exactly if the answer was sent and the first verdict about this mobile is a commit |
| `PairSessions.PairSession.Reject` | internal/auth/pair_session.go:398-404 | a reject is attempted exactly if there is something to answer |
| `PairSessions.PairSession.Close` | internal/auth/pair_session.go:457-471 | what was received and not answered is rejected |
| `PairReading.NothingIsLost` | internal/auth/pair_session.go:325-375 | whichever of message and deadline wins, the first pair_complete read is the one received, reader and keepalive have both stopped, and the wait fails exactly if nothing was received or its context ended first |
| `PairReading.NobodyGivesUpEarly` | internal/auth/pair_session.go:345-396 | the reader ends without a message only if the connection failed or its deadline passed, and the keepalive ends only when told to or when its write failed |
| `PairReading.WaitEnds` | internal/auth/pair_session.go:362-396 | once its context has ended the wait cannot get stuck, the reader being unblocked by the deadline the caller sets; each goroutine's move brings its return nearer, and each frame still read behind the deadline uses up one that was already buffered |
| `RunPairs.CleanUpLegacy` | internal/agent/pair.go:219-250 | a legacy pairing that was not stored is removed on the server, and the old device here |
| `RunPairs.Decide` | internal/agent/pair.go:252-291 | pair_accept is sent exactly to a confirming server and if the pair_complete came in time and its device id, its MAC, the key exchange and the directories are in order, and the run goes on exactly if besides that such a server confirmed |
| `RunPairs.StoreDevice` | internal/agent/pair.go:293-316 | the new device replaces any other with its secret, and a failure keeps the list |
| `RunPairs.PairOverSession` | internal/agent/pair.go:201-332 | from the authenticated session on, a stored device is one the server committed, and the outcome of either mode holds at every exit |
| `RunPairs.DialServer` | internal/agent/pair.go:74-204 | there is a session exactly if the record loads, the user agrees, everything is set up and the server authenticates; what a legacy server has committed by then |
| `RunPairs.RunPair` | internal/agent/pair.go:74-332 | a device is stored exactly if there is a session, the mobile's MAC and every other check hold, a confirming server confirmed, and storing worked; a confirming server is answered once, pair_accept exactly if all checks hold, pair_reject with nothing changed otherwise; the sides differ only after an accept; a legacy server is never answered, and after working cleanups both sides name the same device or none; without a session, exactly what the server's record becomes |
| `RunPairs.ConfirmationCanGetLost` | internal/agent/pair.go:287-291 | a run in which the server commits, the confirmation is lost and the host stores nothing |
| `RunPairs.DialCanForget` | internal/agent/pair.go:201-204 | a run in which a legacy server pairs the mobile, authentication then fails, and the host knows nothing of it |
| `Signaling.Jitter` | internal/webrtc/signaling.go:70-76 | a wait is between 1 and 1.5 times its backoff |
| `Signaling.SignalingClient.Suspend` | internal/webrtc/signaling.go:361-378 | a client that is not shut down becomes suspended and its open connection is closed |
| `Signaling.SignalingClient.Resume` | internal/webrtc/signaling.go:384-389 | suspension ends and a wake is left in the channel |
| `Signaling.SignalingClient.SignalActivity` | internal/webrtc/signaling.go:172-181 | a wake is in the channel, whether or not there was one |
| `Signaling.SignalingClient.PublishConn` | internal/webrtc/signaling.go:474-483 | a connection is shown exactly if the host is not suspended |
| `Signaling.SignalingClient.TakeWake` | internal/webrtc/signaling.go:297-308 | a consumed wake ends dormancy and starts a fresh retry window |
| `Signaling.SignalingClient.NoteEnd` | internal/webrtc/signaling.go:265-286 | a stable connection clears the failures, another end counts and brings dormancy after five minutes |
| `SignalingTheorems.StreakStartIsRight` | internal/webrtc/signaling.go:133-136 | the recorded failure start is the first failure behind the last stable connection or wake |
| `SignalingTheorems.NextKeepsInv` | internal/webrtc/signaling.go:189-319 | every step of the run loop and of its callers keeps the client's invariant |
| `SignalingTheorems.SuspendedMeansOffline` | internal/webrtc/signaling.go:352-378 | while suspended no open connection is published |
| `SignalingTheorems.ResumeIsNotLost` | internal/webrtc/signaling.go:216-242 | with nothing suspending it and no Resume under way, the loop is not blocked in the suspend wait |
| `SignalingTheorems.DormancyIsEarned` | internal/webrtc/signaling.go:271-286 | a failed attempt brings dormancy exactly if its unbroken streak of failures is five minutes old |
| `SignalingTheorems.DormantBehindFailures` | internal/webrtc/signaling.go:183-188 | dormancy comes from nothing else, and the streak is unbroken as long as it lasts |
| `SignalingAttempts.StableMeansThirtySeconds` | internal/webrtc/signaling.go:265-286 | an attempt counts as stable exactly if its connection was published and served for thirty seconds, and as a failure exactly if it was served for less or never made; one given up for a suspend counts as neither |
| `SignalingAttempts.OnlyAttemptsCount` | internal/webrtc/signaling.go:244-308 | the streak of failures changes at the end of an attempt or by a wake, and at nothing else |
| `SignalingAttempts.AwakeLoopConnects` | internal/webrtc/signaling.go:196-251 | with the host awake and the client not dormant, a loop whose calls work is connected and shows it after four steps |
| `SignalingAttempts.DialsOnlyAwake` | internal/webrtc/signaling.go:224-251 | a dial is begun only behind a check that found the host awake |
| `SignalingAttempts.OnlyRejectionStops` | internal/webrtc/signaling.go:251-263 | the loop ends only when it is cancelled or the server has rejected its credentials |
| `SignalingAttempts.RejectionStops` | internal/webrtc/signaling.go:258-263 | a rejection, of a dial or of a connection, ends the loop, counting nothing |
| `SignalingAttempts.EveryEndIsRetried` | internal/webrtc/signaling.go:265-318 | behind an end that brings no dormancy the loop waits out its backoff and tries again, with twice the backoff, or from the start behind a stable connection |
| `SignalingAttempts.JitterCoversItsRange` | internal/webrtc/signaling.go:70-76 | exactly the waits from the backoff to one and a half times as long can be drawn |
| `SignalingAttempts.SuspendedMidwayWaits` | internal/webrtc/signaling.go:252-256 | a connection given up midway is not shown, and the loop goes to its suspend wait without counting anything |
| `SignalingTheorems.BackoffIsBounded` | internal/webrtc/signaling.go:290-318 | backoff stays at most the larger of its start and 30 seconds, and the wait drawn for it within 1 to 1.5 times it |
| `SignalingTheorems.WaitsLastTheirBackoff` | internal/webrtc/signaling.go:290-318 | a wait that no wake cuts short lasts what was drawn, at least its backoff, and the backoff then doubles up to its bound |
| `SignalingTheorems.WakesReachEveryWait` | internal/webrtc/signaling.go:204-249 | a wake is not lost in any wait: it stays until the loop moves, and gets it out with a fresh backoff and retry window |

## Left out

- PipeCommandNamesThePath: tmux expands formats and time codes in a pipe-pane command before the shell reads it; the paths of temporary files hold none of those.
- Window sizes: the pane size tracker and `lastDims` of the handler; concurrent resizes and releases keep no simple promise.
- A pane watcher is not tied to the attachment that started it: it announces the exit of whatever pane is current, as in the code.
- Device-keyed timers: disconnect grace, ICE restart and answer watchdogs; they only add cleanups, which the model allows for any peer at any time.
- The stale-peer check of `teardownIfCurrent` and the disconnect call behind it are separate steps, so nothing is claimed about a handler call that a replacement overtakes there.
- ICE, SDP, TURN, statistics, logging, message encoding, keep-alive of the data connection, sleep hooks, updates and configuration: library behaviour or simple branches.
- Session listing, input, resize, kill and create requests: one step that answers with a notice and touches no modelled state.
- Cryptography: X25519, HKDF, Ed25519, HMAC and deflate are abstract functions or outcomes of a call.
- The FIFO relay goroutine, `waitReadable` and file cleanup of a bridge: operating-system calls; a bridge's reads are arbitrary here.
- The 3, 5, 10 and 20 second timeouts fire at any time; only the signaling loop's clock is modelled, because its promises name times.
- `FormatManualCode`, `BuildQRPayload`, `SanitizeDisplayString` and what `pmux pair` prints: display only.
- A legacy server that commits without ever delivering pair_complete: the host cannot know of it.
- The pane_closed that answers an attach to a pane that is gone is about no attachment; it is one of the notices.
- The contents of the data sent before a stream (terminal modes, captured screen): any bytes here.

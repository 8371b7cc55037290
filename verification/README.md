# Verified model of the ff-vpn core

This project models the parts of the VPN client in which order, ownership or
parsing matter, and proves what they promise. Paths are relative to the
repository root. `dafny verify dfyconfig.toml` checks everything.

## What is modelled

**The SOCKS5 server in front of Tor** (`Util`, `Utf8`, `Socks5`, `Socks5Messages`,
`Socks5Refusals`, `Socks5Server`, `Relay`, `Endpoint`). `Socks5` is the negotiation as a function of
the client's byte stream, once on a closed stream (`Parse`) and once on bytes as
they arrive (`Feed`). `Socks5Messages` is the client's side, written from sections
3 to 6 of RFC 1928 and section 2 of RFC 1929. `Socks5Server` is the program's own
form: a socket class, reads into buffers, replies in between, early returns; every
method is proved against `Parse`. `Socks5Refusals` writes out what every refused client
is told. `Relay` is one whole connection as a transition
system with the two copy tasks, cancellation, failures and arbitrary arrivals.
`Endpoint` is the generated login. A failing write is modelled by `room`, the number
of bytes a client takes before writes to it fail.

**Bring-up, teardown and cancellation** (`Cancellation`, `Tasks`, `Slot`, `Startup`).
`Cancellation` takes the watch channel as a value with a version and interleaves
`cancelled()` with `cancel()` at every step. `Tasks` interleaves one engine's five
tasks, their helper tasks, the bring-up, its failures and the teardown. `Slot`
interleaves any number of threads inside `start`, `stop` and `status` around the
mutex. `Startup` is the code as one thread runs it: guards, early returns with the
drops they imply, the entry points of the core, the shim and the Android service.

**Descriptor ownership** (`Descriptors`, `Ownership`, `EarlyClose`). Start attempts on any number
of threads against a descriptor table that reuses closed numbers at once, next to
unrelated code that opens and closes descriptors. Each hand-over is a step. Assumed:
Leaf closes the descriptor only after the start that launched it returned success
(Leaf #2 is spawned before two more steps that can fail), and unrelated code closes
only what it opened. A failure anywhere on the way, the text conversion of the merged
configuration included, is a step like any other. `EarlyClose` drops the assumption
about Leaf and says exactly which close then goes astray.

**The IPC sessions** (`Ipc`). The command loop over lines, proved equal to a
three-state automaton; and a process in which any number of sessions of any number of
engines interleave with status changes, token rotations and cancels.

**The configuration pipeline** (`Json`, `RustConfig`, `DartConfig`, `Pipeline`). JSON
as a tree; both parsers of the upstream file; the app's printer and reader of the
flat form; the country merge of the Android service; the core's flat decoder. The
parser of IP addresses is a parameter about which nothing is assumed.

**The DNS proxy** (`Dns`). One receive buffer that is refilled while any number of
queries are in flight, as a class proved against a machine over events. The DNS
codec is a parameter.

## Where the code and its documentation disagree

The model follows the code. A statement that names a member is proved there.

- `README.md:39` says that cancelling aborts every background task and tears down every
  socket at once. Of the five tasks whose handles the engine or its transport holds, an
  Arti that is still bootstrapping does not look at the token; a failed bring-up cancels
  the token but drops Arti's handle without aborting it, and Arti goes on
  (`Tasks.FailedBringUpStrandsArti`). Of these five it is the only one that can be left:
  each of the others has a way to its end in every state from the cancel on
  (`Tasks.FromTheCancelOn`). `Engine::stop`, which aborts the five handles, leaves none
  of the five (`Tasks.StopEndsEverything`). Tasks whose handle nobody keeps are further
  exceptions that neither the cancel nor the stop reaches: an IPC client that was
  accepted and sends nothing (`ipc.rs:102`, `152-155`), a DoH exchange (`dns.rs:71`), and
  a SOCKS connection that is still negotiating or dialling (`arti_runtime.rs:110`). And
  the DNS loop's `select!` has no order, so a cancelled loop may go on receiving until it
  happens to take its exit (`Dns.CancelAloneStopsNothing`).
- `status().running` says that the slot is occupied, not that the engine works: after
  the IPC stop request it stays true and `start` keeps refusing until `stop` is
  called (`Slot.CancelledEngineStillOccupies`).
- The comment at `FfVpnService.kt:76-79` says that a failure before the native call
  closes the descriptor. The flag is set at line 94, before line 95 builds the call's
  arguments, and the handler at lines 102 to 105 catches every `Throwable`. So an error
  raised at line 95 before native code is entered (out of memory in `parsed.toString()`,
  or an unresolved native method) leaves the descriptor to nobody
  (`Ownership.MarshalFailureLeaks` gives the run). A run loses a descriptor if and only
  if some attempt with a real one fails there (`Ownership.NothingLostIff`), and exactly
  these failed attempts do not close theirs (`Ownership.FailureClosesIff`).
- A start that is refused because an engine is running makes the Android service stop
  that engine (`Startup.FfVpnService.StartTunnel`).
- `README.md:46-48` and `config.rs:4-7` say that everything but the named fields is
  ignored. That holds behind the decoder (`RustConfig.OtherOutboundsAreIgnored`), but
  the core's decoder insists that every outbound has the full shape of a proxy entry.
  An entry of another protocol is ignored if and only if it decodes, and otherwise the
  file is refused (`Pipeline.ForeignOutbound`); a plain `freedom` entry is an example
  (`Pipeline.DirectOutboundIsRefused`). The app ignores such entries, so the two
  parsers, meant to mirror each other (`config_service.dart:10-12`), differ there.
- A blank `doh_server_ip` is "absent" for the core's parser, but the app keeps the
  blank text, and the flat decoder at start refuses it (`Pipeline.FileReachesEngine`).

## Model

| member | source | states |
|---|---|---|
| Util.CtEq | rust/core/src/util.rs:34-43 | the OR-of-XOR loop answers true exactly for equal byte strings, and its iteration count depends on the lengths only |
| Utf8.ValidIffEncoding | rust/core/src/engine/arti_runtime.rs:274-275 | the host check accepts exactly the encodings of sequences of Unicode scalar values |
| Socks5.FeedSplit | rust/core/src/engine/arti_runtime.rs:210-294 | cutting the stream at any point of any read leaves session, consumption and replies the same |
| Socks5.FeedIsParse | rust/core/src/engine/arti_runtime.rs:210-294 | reading bytes as they arrive agrees with whole reads on the closed stream |
| Socks5.ChunkingIndependence | rust/core/src/engine/arti_runtime.rs:210-294 | any split into chunks gives the target or error, the consumed count and the transcript of the one-shot parser |
| Socks5.Truncation | rust/core/src/engine/arti_runtime.rs:210-294 | a stream cut before its last consumed byte ends in an I/O failure with a prefix of the transcript; cut later nothing changes |
| Socks5.Extension | rust/core/src/engine/arti_runtime.rs:171-187 | bytes behind a decided negotiation are not looked at |
| Socks5.DialExactlyFrom | rust/core/src/engine/arti_runtime.rs:177-184 | the prefixes of an accepted stream that reach the dial are exactly those that hold every consumed byte |
| Socks5.UsedWithinBudget | rust/core/src/engine/arti_runtime.rs:210-294 | from every phase on, what can still be read is bounded by that phase's budget |
| Socks5.ReadBound | rust/core/src/engine/arti_runtime.rs:210-294 | at most 1032 bytes are consumed before the dial or the failure |
| Socks5.Transcript | rust/core/src/engine/arti_runtime.rs:210-302 | from every phase on, the replies are fixed by how the negotiation ends and cut short only by an I/O failure |
| Socks5.OutputTranscript | rust/core/src/engine/arti_runtime.rs:210-248 | the client sees a prefix of one of three transcripts; the outcome says which and that it is complete |
| Socks5Messages.RoundTrip | rust/core/src/engine/arti_runtime.rs:210-294 | every well-formed message with any suffix is understood: the right login dials its target and leaves exactly the suffix, any other login is refused |
| Socks5Messages.AcceptedMessage | rust/core/src/engine/arti_runtime.rs:210-294 | every accepted stream starts with the encoding of a message that carries the server's own login and the dialled target |
| Socks5Messages.DialIffMessage | rust/core/src/engine/arti_runtime.rs:171-184 | the dial is reached if and only if the stream starts with such a message and both replies are taken |
| Socks5Messages.PrefixFree | rust/core/src/engine/arti_runtime.rs:210-294 | no accepted message is a proper prefix of another; message and rest are determined by the stream |
| Socks5Refusals.OtherVersion | rust/core/src/engine/arti_runtime.rs:211-215 | any version but 5 is dropped after two bytes without a reply |
| Socks5Refusals.MethodsAnswered | rust/core/src/engine/arti_runtime.rs:216-225 | 05 02 exactly if 0x02 is offered, else 05 FF and the end; and what is sent if the client takes less than two bytes |
| Socks5Refusals.OtherAuthVersion | rust/core/src/engine/arti_runtime.rs:227-231 | any subnegotiation version but 1 is dropped after one more byte, with 05 02 sent |
| Socks5Refusals.LoginAnswered | rust/core/src/engine/arti_runtime.rs:232-247 | the right login is granted and the request comes next; any other gets 01 01 at once, whatever follows |
| Socks5Refusals.OtherCommand | rust/core/src/engine/arti_runtime.rs:252-257 | another version or command is dropped after the four bytes of the head, without a reply |
| Socks5Refusals.OtherAddressType | rust/core/src/engine/arti_runtime.rs:258-288 | an address type other than 1, 3 and 4 likewise |
| Socks5Refusals.OtherName | rust/core/src/engine/arti_runtime.rs:267-278 | a name that is not UTF-8 is dropped after its length, bytes and port |
| Socks5Refusals.FourOctets | rust/core/src/engine/arti_runtime.rs:259-266 | type 1, four octets and a port in network order |
| Socks5Refusals.CountedName | rust/core/src/engine/arti_runtime.rs:267-278 | type 3, a counted name and a port |
| Socks5Refusals.SixteenOctets | rust/core/src/engine/arti_runtime.rs:279-287 | type 4, sixteen octets and a port |
| Socks5Server.ClientSocket.ReadExact | rust/core/src/engine/arti_runtime.rs:211-212 | fills the buffer with the next bytes and moves the cursor behind them, or drains the stream and fails |
| Socks5Server.ClientSocket.WriteAll | rust/core/src/engine/arti_runtime.rs:241-243 | appends all bytes, or the part that still fits and fails |
| Socks5Server.SelectMethod | rust/core/src/engine/arti_runtime.rs:211-225 | method selection does what the specification does, for every input and failure |
| Socks5Server.ReadCounted | rust/core/src/engine/arti_runtime.rs:232-237 | a length octet and its field are read as the specification reads them |
| Socks5Server.Verdict | rust/core/src/engine/arti_runtime.rs:239-247 | succeeds exactly for the right user and password told to a client that takes the answer |
| Socks5Server.Subnegotiate | rust/core/src/engine/arti_runtime.rs:227-247 | the login half does what the specification does |
| Socks5Server.Handshake | rust/core/src/engine/arti_runtime.rs:210-248 | the whole handshake does what the specification does |
| Socks5Server.ReadRequest | rust/core/src/engine/arti_runtime.rs:251-294 | the request reader gives the specification's target or error and consumption, and sends nothing |
| Socks5Server.ReadIPv4 | rust/core/src/engine/arti_runtime.rs:259-266 | four octets and a big-endian port |
| Socks5Server.ReadName | rust/core/src/engine/arti_runtime.rs:267-278 | a counted UTF-8 name and a port; text that is not UTF-8 is refused |
| Socks5Server.ReadIPv6 | rust/core/src/engine/arti_runtime.rs:279-287 | sixteen octets and a port |
| Socks5Server.Serve | rust/core/src/engine/arti_runtime.rs:171-187 | pumping starts exactly after an accepted negotiation, a successful dial and a success reply the client took; exactly the consumed bytes are gone from the stream, and what was sent is given in every case |
| Relay.StepKeepsInv | rust/core/src/engine/arti_runtime.rs:171-207 | every event of a connection keeps the accounting of all bytes in both directions |
| Relay.RunKeepsInv | rust/core/src/engine/arti_runtime.rs:171-207 | so does every run |
| Relay.ByteConservation | rust/core/src/engine/arti_runtime.rs:187-207 | in every run, every byte behind the accepted message is in Tor, in the copier or on the socket, in order; the client has the three replies followed by a prefix of Tor's bytes |
| Relay.FinishedMeansDelivered | rust/core/src/engine/arti_runtime.rs:187-206 | a copy that ended at end of file has delivered everything its source ever sent |
| Relay.NothingBeforeTheDial | rust/core/src/engine/arti_runtime.rs:177-186 | before pumping nothing reaches Tor and the client sees a fixed transcript; more than the negotiation replies needs an accepted message |
| Relay.UpCanFinish | rust/core/src/engine/arti_runtime.rs:190-196 | once the client has closed, a running upward copy can always go on to deliver everything and finish |
| Relay.DownCanFinish | rust/core/src/engine/arti_runtime.rs:197-203 | likewise downwards, once Tor has closed |
| Relay.QuietMeansDelivered | rust/core/src/engine/arti_runtime.rs:187-206 | with both sides closed, no failure and no cancel, when neither copy can move any more both have finished and everything was delivered |
| Relay.ReplyDecides | rust/core/src/engine/arti_runtime.rs:186-206 | in every reachable state with a successful dial the reply starts both copies exactly if the client takes all of it; the 14 bytes are written out; else the connection is dropped with what fits |
| Relay.AcceptedMessagePumps | rust/core/src/engine/arti_runtime.rs:171-207 | for every well-formed message with the right login and any suffix some run pumps, with exactly the message taken |
| Relay.RefusedIsDropped | rust/core/src/engine/arti_runtime.rs:177-178 | every stream that the negotiation refuses can be read to the refusal, answered as its outcome says and dropped, with nothing sent to Tor |
| Relay.ClientIsHeard | rust/core/src/engine/arti_runtime.rs:171-207 | what has arrived from the client is what the history says it sent, in order |
| Relay.TorIsHeard | rust/core/src/engine/arti_runtime.rs:171-207 | likewise from Tor |
| Relay.RunRecordsFlags | rust/core/src/engine/arti_runtime.rs:171-207 | closings and the cancel are recorded exactly if they happened |
| Relay.RunEnds | rust/core/src/engine/arti_runtime.rs:187-206 | a copy is finished, broken or stopped exactly if the history ended it so |
| Relay.NoSuccessWithoutTheDial | rust/core/src/engine/arti_runtime.rs:181-186 | the success reply and the pump need a dial that succeeded in the run |
| Relay.EverythingDelivered | rust/core/src/engine/arti_runtime.rs:187-206 | by the history alone: both sides closed, nothing broken or stopped and nothing able to move, so all was delivered both ways |
| Relay.CopiesStopIff | rust/core/src/engine/arti_runtime.rs:189-203 | a running copy can be stopped exactly after the cancel, and can break at any time |
| Relay.WhoMaySpeak | rust/core/src/engine/arti_runtime.rs:171-207 | each side may send until it has closed, Tor from the dial on |
| Endpoint.AlphabetIsAlphanumeric | rust/core/src/util.rs:18 | the character set is every ASCII letter and digit, each once |
| Endpoint.NoDrawIsLost | rust/core/src/util.rs:17-27 | different draws give different passwords |
| Endpoint.GeneratedLoginWorks | rust/core/src/runtime.rs:17-26 | a generated login has 12 and 32 letters, always fits the wire format and opens its own server with any acceptable methods and target; any other login gets the refusal and nothing more |
| Endpoint.EndpointsAreSeparate | rust/core/src/engine/arti_runtime.rs:239-246 | a stream accepted with one generated login is accepted with another if and only if all draws agree |
| Cancellation.Watch.Send | rust/core/src/runtime.rs:42-44 | stores the value and counts one version up |
| Cancellation.Token.IsCancelled | rust/core/src/runtime.rs:46-48 | tells whether any clone has cancelled |
| Cancellation.Token.Cancelled | rust/core/src/runtime.rs:51-59 | completes or parks as two polls of the waiter machine do |
| Cancellation.RunKeepsInv | rust/core/src/runtime.rs:30-60 | in every interleaving the flag and the version agree, no receiver marks a version seen, and the flag never returns to false |
| Cancellation.NoLostWakeUp | rust/core/src/runtime.rs:42-59 | once any clone has cancelled, each waiter wherever it stands completes with its next step, now and ever after |
| Cancellation.OnlyCancelWakes | rust/core/src/runtime.rs:51-59 | a wait completes only if the flag is set, and a parked waiter is ready exactly then |
| Cancellation.FlagIsTheHistory | rust/core/src/runtime.rs:42-44 | the flag is set exactly if some clone was told to cancel, and the version counts the cancels |
| Cancellation.ParksAndWakes | rust/core/src/runtime.rs:51-59 | a waiter parks and sleeps while nobody has cancelled, and is woken by the cancel of a clone made later |
| Cancellation.WaitersByHistory | rust/core/src/runtime.rs:51-59 | a task is waiting exactly if entering is the last thing it did |
| Tasks.StepKeepsInv | rust/core/src/engine.rs:74-168 | every step of the owner or of a task keeps the invariant that ties task states, aborts and owner to the token |
| Tasks.FailTogether | rust/core/src/engine/leaf_config.rs:160-183 | in every reachable state, if some task has terminated or was aborted, the token is cancelled |
| Tasks.BringUpAllOrNothing | rust/core/src/engine.rs:74-137 | a failed bring-up leaves every spawned task with a cancelled token; a successful one has spawned all five |
| Tasks.EachCanMove | rust/core/src/engine/leaf_config.rs:160-183 | once cancelled, each task not through, its helper and blocking tasks included, has a step of its own towards its end, except exactly an Arti that is bootstrapping and not aborted |
| Tasks.FromTheCancelOn | rust/core/src/engine/arti_runtime.rs:41-110 | so it is in every state that can follow a cancel, and the token stays cancelled |
| Tasks.QuietMeansOver | rust/core/src/engine/arti_runtime.rs:41-110 | hence with no task able to move, everything brought up is through, the blocking threads of both Leafs included, except exactly that Arti |
| Tasks.StopEndsEverything | rust/core/src/engine.rs:149-168 | after a complete stop, quiet means that all five tasks are through, the blocking threads of both Leafs included |
| Tasks.FailedBringUpStrandsArti | rust/core/src/engine/arti_runtime.rs:65-73 | a run in which the bring-up fails, nothing can move any more, and Arti still bootstraps |
| Tasks.WorkShrinks | rust/core/src/engine.rs:74-168 | every move but a repeated outside cancel uses up a bounded amount of work |
| Tasks.EveryRunSettles | rust/core/src/engine.rs:74-168 | any run of one engine, whatever happens, has at most 33 moves |
| Tasks.ComesUp | rust/core/src/engine.rs:74-137 | five spawns and a bootstrap give an engine with everything running, nothing cancelled or aborted |
| Tasks.CancelledIff | rust/core/src/engine.rs:74-168 | the token is cancelled exactly if the history has one of its reasons |
| Tasks.CanStop | rust/core/src/engine.rs:149-168 | from every state of an engine that is up, some run stops it to the end |
| Tasks.StopCompletes | rust/core/src/engine.rs:149-168 | after a stop, when neither it nor any task can move, all handles are aborted and everything is through |
| Tasks.StopWaitsForTransport | rust/core/src/pt/leaf.rs:52-63 | the teardown goes on to the other handles only when the transport handle is over |
| Tasks.LeafDeathSpreads | rust/core/src/engine/leaf_config.rs:166-177 | a Leaf that dies cancels the token in two steps |
| Tasks.ArtiFailureSpreads | rust/core/src/engine/arti_runtime.rs:41-46 | so does an Arti that cannot bootstrap |
| Tasks.AbortIsEnough | rust/core/src/engine.rs:161-164 | an aborted task can end in one step, cancelled or not |
| Slot.StepKeepsLockInv | rust/core/src/lib.rs:81-118 | the mutex excludes, the slot is empty while an engine is brought up, and a taken engine is not in the slot |
| Slot.StepKeepsLogInv | rust/core/src/lib.rs:81-118 | every step of every thread keeps the history explained by the sequential machine |
| Slot.Linearizable | rust/core/src/lib.rs:81-118 | each call takes effect once between call and return with the result it returns, and the effects in order are a run of the one-slot machine that ends in the present slot |
| Slot.StoppedAtMostOnce | rust/core/src/lib.rs:100-110 | every engine launched is in the slot or has been taken out by exactly one stop |
| Slot.UndisturbedCall | rust/core/src/lib.rs:81-118 | in every reachable state a thread that is left alone gets through with the result and effect of the sequential object; a start on an empty slot launches |
| Slot.RunningIff | rust/core/src/engine.rs:149-168 | an engine runs exactly from its launch to the return of the stop that took it, and is then cancelled |
| Slot.MutexIsExclusiveAndLive | rust/core/src/lib.rs:86-95 | one thread at a time is inside, and it can always go on |
| Slot.CancelledEngineStillOccupies | rust/core/src/lib.rs:112-118 | from any state with an engine in the slot, after its token is cancelled `status` still says running and `start` still refuses |
| Ownership.StepKeepsOwnInv | rust/core/src/util.rs:54-81 | every step of every thread keeps one owner for each open descriptor |
| Ownership.StepKeepsFates | rust/core/src/lib.rs:81-96 | every step keeps each closer to what was its to close, and no open file is forgotten |
| Ownership.RunKeepsInv | rust/core/src/lib.rs:81-96 | so does every run |
| Ownership.ExactlyOneOwner | rust/core/src/util.rs:54-81 | at every moment of every run a descriptor is open if and only if some party owns it, and then exactly one does |
| Ownership.FateOfHandedIn | flutter_app/android/app/src/main/kotlin/com/incss/ff/vpn/FfVpnService.kt:80-107 | a handed-in descriptor is carried by one thread until its attempt is judged; after success only Leaf may close it, once; after failure it was closed exactly once by Kotlin or a guard, or is lost |
| Ownership.NothingLostIff | flutter_app/android/app/src/main/kotlin/com/incss/ff/vpn/FfVpnService.kt:94-105 | a run loses no descriptor if and only if no attempt with a real one fails between the flag and the native call |
| Ownership.FailureClosesIff | flutter_app/android/app/src/main/kotlin/com/incss/ff/vpn/FfVpnService.kt:80-107 | a failed attempt has closed its descriptor exactly once if and only if it was not let go by such a failure; else it is open and nobody's |
| Ownership.FateByHistory | flutter_app/android/app/src/main/kotlin/com/incss/ff/vpn/FfVpnService.kt:80-107 | by the step that ended the attempt: a launch leaves it to Leaf, closed by no guard; each failure has closed it once, by the very party that held it; a marshalling failure leaves it open |
| Ownership.SuccessfulStart | rust/core/src/lib.rs:81-96 | a start that goes through, for any number: the descriptor is Leaf's and open, nothing was closed |
| Ownership.FailedStart | rust/core/src/lib.rs:81-96 | a start that fails in the core, for any number: closed once by its guard, or nothing if negative |
| Ownership.ClosableIff | rust/core/src/util.rs:54-81 | in every reachable state an open descriptor can still come to be closed exactly if it is not lost; a lost one stays open for ever |
| Ownership.MarshalFailureLeaks | flutter_app/android/app/src/main/kotlin/com/incss/ff/vpn/FfVpnService.kt:94-105 | a run of two steps, for any thread and number, that ends with the descriptor open, owned by nobody and never closed |
| Ownership.NegativeRunsCloseNothing | rust/core/src/util.rs:58-64 | in a run whose attempts all pass negative numbers, no guard and no engine ever closes anything, however the attempts end |
| EarlyClose.GuardStraysIff | rust/core/src/engine.rs:107-137 | were Leaf allowed to close from its spawn on, a failing bring-up would close the descriptor it was given if and only if Leaf had not closed it first; else the close hits nothing, or the file of unrelated code that got the number |
| EarlyClose.LeafStraysIff | rust/core/src/engine.rs:107-137 | likewise Leaf's close is right if and only if the bring-up had not failed before it |
| EarlyClose.NewcomerIsHit | rust/core/src/engine.rs:107-137 | a run in which the guard closes a newcomer's file |
| EarlyClose.NewcomerIsGone | rust/core/src/engine.rs:107-137 | if the newcomer has closed its file by then, the guard hits nothing |
| Startup.FdGuard.constructor | rust/core/src/util.rs:58-64 | armed exactly for numbers that are not negative |
| Startup.FdGuard.Disarm | rust/core/src/util.rs:65-67 | a disarmed guard holds nothing |
| Startup.FdGuard.Drop | rust/core/src/util.rs:71-81 | closes what it holds, once, and then holds nothing |
| Startup.LeafPt.Release | rust/core/src/pt/leaf.rs:52-73 | cancels the shared token, gives up the handle and aborts its task |
| Startup.Engine.Stop | rust/core/src/engine.rs:149-168 | cancels, takes and shuts down the transport, aborts every handle, and ends not running with nothing held |
| Startup.StartEngine | rust/core/src/engine.rs:74-137 | whichever step fails, the tasks spawned are the first ones of the order and all hold a cancelled token; on success the engine holds the transport and four handles, none cancelled or aborted |
| Startup.OrderIsSpawnOrder | rust/core/src/engine.rs:84-127 | the tasks come up in the order in which the interleaved model spawns them |
| Startup.ReachedIff | rust/core/src/engine.rs:74-137 | which step each kind of failure stops the bring-up at |
| Startup.StartTun | rust/core/src/engine.rs:107-137 | the same from the third step on |
| Startup.StartListeners | rust/core/src/engine.rs:114-136 | the same for the last two steps |
| Startup.Core.Start | rust/core/src/lib.rs:81-96 | refuses exactly when occupied; a failed bring-up leaves the slot as it was, closes the descriptor once, and every task it spawned holds a cancelled token; a success fills the slot with a live engine and closes nothing |
| Startup.Core.Stop | rust/core/src/lib.rs:100-110 | empties the slot; the engine taken is cancelled, not running and has all its tasks aborted |
| Startup.Core.Status | rust/core/src/lib.rs:112-118 | running exactly when the slot is occupied |
| Startup.ShimStart | rust/jni/src/lib.rs:51-84 | returns zero exactly when arguments parse, the slot is free and the bring-up succeeds; otherwise one guard, and which one, has closed the descriptor and the spawned tasks are cancelled |
| Startup.FfVpnService.StopTunnel | flutter_app/android/app/src/main/kotlin/com/incss/ff/vpn/FfVpnService.kt:132-143 | empties the slot, stops its engine and reports not running |
| Startup.FfVpnService.StartTunnel | flutter_app/android/app/src/main/kotlin/com/incss/ff/vpn/FfVpnService.kt:80-107 | who closes the descriptor for each place where the start throws, after the native call included, and that every failure ends with the slot empty, a formerly running engine stopped and all spawned tasks cancelled |
| Startup.FfVpnService.Recover | flutter_app/android/app/src/main/kotlin/com/incss/ff/vpn/FfVpnService.kt:102-107 | the handler reports the failure, closes the descriptor exactly if the flag was not set, and stops the engine |
| Ipc.HandleClient | rust/core/src/ipc.rs:139-239 | the loop's replies, cancelling, end and number of lines read are the automaton's |
| Ipc.Gate | rust/core/src/ipc.rs:173-202 | unless the first request is the right token, a session sends errors only, never cancels, and handles one request only |
| Ipc.OneReplyEach | rust/core/src/ipc.rs:153-238 | while sends succeed, each line taken gets one reply, in order, with the status of its moment |
| Ipc.GuestIsAnswered | rust/core/src/ipc.rs:173-202 | the first request gets Ok for the right token and one of the two errors and the end otherwise; a failed read or send ends the session without a reply |
| Ipc.MemberIsAnswered | rust/core/src/ipc.rs:204-238 | every later request gets its own reply, a status query the status of that moment, and the session goes on or ends as the request says |
| Ipc.MalformedLinesAreInert | rust/core/src/ipc.rs:158-171 | removing the malformed lines removes their errors and changes nothing else |
| Ipc.CancelsIffStopRequested | rust/core/src/ipc.rs:173-238 | a session cancels the engine if and only if, among the lines that can still be answered, the requests start with the right token and reach a stop through authentications and status queries only |
| Ipc.EverySessionIsTalk | rust/core/src/ipc.rs:55-239 | in every interleaving of sessions, status changes, rotations, cancels and new engines, each session's transcript is the automaton's on its own lines, with its engine's status of each moment, against the token the process had when it began |
| Ipc.EngineCancelledIff | rust/core/src/ipc.rs:100-238 | an engine is cancelled if and only if something else cancelled it or one of its own sessions met the stop condition |
| Ipc.AuthToken.Current | rust/core/src/ipc.rs:55-60 | gives the token in force |
| Ipc.AuthToken.Rotate | rust/core/src/ipc.rs:62-67 | replaces the token and returns the new one |
| Json.CaseAgrees | rust/core/src/config.rs:140 | comparing without case and comparing the lower-cased text agree for a lower-case word |
| Json.SpellingIsWhatMatters | flutter_app/lib/services/config_service.dart:69 | both comparisons accept exactly the spellings of a word, letter by letter by their place in the alphabet |
| Json.BlankIff | rust/core/src/config.rs:182 | blank means that trimming leaves nothing, with the six codes that count as white space |
| RustConfig.FindFirst | rust/core/src/config.rs:137-141 | the outbound found is the first with protocol vless, and none is found only if there is none |
| RustConfig.OtherOutboundsAreIgnored | rust/core/src/config.rs:135-210 | decoded outbounds of other protocols may come and go anywhere, and what follows a vless outbound may change, without changing result or error |
| RustConfig.AcceptedIff | rust/core/src/config.rs:135-210 | exactly which decoded files are accepted |
| RustConfig.OutboundDecodesIff | rust/core/src/config.rs:76-131 | exactly which entries decode, whatever their protocol |
| RustConfig.RootDecodesIff | rust/core/src/config.rs:66-131 | exactly which files decode: required, optional and nullable fields, types, ranges, every element of every list |
| RustConfig.FlatDecodesIff | rust/core/src/config.rs:15-62 | exactly which objects the engine can be started with |
| RustConfig.PrefsRead | rust/core/src/config.rs:28-42 | preferences come back as they were written, and left out there are none |
| RustConfig.FirstComplaint | rust/core/src/config.rs:143-181 | the first check that fails names the error |
| RustConfig.ErrorsInOrder | rust/core/src/config.rs:135-189 | the shape comes first, then the search, then the outbound, and the address last |
| DartConfig.OutboundRoundTrip | flutter_app/lib/services/config_service.dart:125-154 | an outbound survives printing and reading |
| DartConfig.RoundTrip | flutter_app/lib/services/config_service.dart:28-63 | reading what was printed gives the configuration back |
| DartConfig.FindsIff | flutter_app/lib/services/config_service.dart:67-71 | the first entry that spells the protocol is found, provided that all before it are objects that name one |
| DartConfig.NullIsAbsent | flutter_app/lib/services/config_service.dart:72-101 | null reads as absent |
| Pipeline.Inject | flutter_app/android/app/src/main/kotlin/com/incss/ff/vpn/FfVpnService.kt:90-93 | the in-place merge computes the merge function |
| Pipeline.MergeFrame | flutter_app/android/app/src/main/kotlin/com/incss/ff/vpn/FfVpnService.kt:90-93 | the merge keeps every other key and user subkey, present or absent, sets the country exactly when it is not blank, and is idempotent |
| Pipeline.CountryIsSetIff | flutter_app/android/app/src/main/kotlin/com/incss/ff/vpn/FfVpnService.kt:90-93 | a country left out or blank, by its codes, changes nothing; any other is written |
| Pipeline.MergeThenDecode | flutter_app/android/app/src/main/kotlin/com/incss/ff/vpn/FfVpnService.kt:84-95 | decoding the merged object is decoding the original with the country set |
| Pipeline.OutboundAgrees | rust/core/src/config.rs:44-62 | the core decodes the app's printed outbound to itself if the port fits 16 bits, and refuses it otherwise |
| Pipeline.FlatAgrees | rust/core/src/config.rs:15-62 | the core decodes the app's printed configuration field by field, or refuses it, and when |
| Pipeline.ConfigurationArrives | rust/jni/src/lib.rs:65 | through print, merge and decode every field arrives and the country is added, if and only if address and port are acceptable |
| Pipeline.SameSelection | flutter_app/lib/services/config_service.dart:67-71 | on decodable lists both parsers select the same outbound |
| Pipeline.StreamAgrees | flutter_app/lib/services/config_service.dart:72-80 | both parsers accept the same stream settings and read the same service name and keys |
| Pipeline.SameExtraction | flutter_app/lib/services/config_service.dart:72-101 | both parsers extract the same from the selected outbound, or both refuse it; only the default tag differs |
| Pipeline.ParsersAgree | rust/core/src/config.rs:135-210 | on every file the core can decode, the two parsers accept alike and agree on every field, up to the address check and the default tag |
| Pipeline.CoreAcceptsIff | flutter_app/lib/services/config_service.dart:65-103 | the core accepts a file if and only if the app does, the core's decoder does, and the address is blank, absent or valid |
| Pipeline.FileReachesEngine | flutter_app/android/app/src/main/kotlin/com/incss/ff/vpn/FfVpnService.kt:84-95 | a file the core accepts reaches the engine through the app as the core itself would read it; with a blank address it is refused exactly when the blank text is no address |
| Pipeline.ForeignOutbound | rust/core/src/config.rs:66-131 | an entry of another protocol put anywhere into an accepted file is ignored by the core if and only if it decodes, else the file is refused; the app's result never changes |
| Pipeline.DirectOutboundIsRefused | rust/core/src/config.rs:76-84 | a freedom entry without settings makes the core refuse any accepted file while the app's result stays |
| Pipeline.EntryRead | rust/core/src/config.rs:76-181 | the entry written for an outbound decodes exactly when the port fits and the further users and servers decode, is found exactly when its protocol spells vless, and is read back exactly when security and network are spelled right |
| Pipeline.AppReadsEntry | flutter_app/lib/services/config_service.dart:72-101 | the app reads the written entry back exactly when the port has 64 bits and security and network are spelled right |
| Pipeline.FileRoundTrip | rust/core/src/config.rs:135-210 | an upstream file written for any configuration, in any case of letters, with further fields and entries at every level, is read back by both parsers under their exact conditions; under another protocol the entry counts for neither |
| Dns.BuildServFail | rust/core/src/dns.rs:131-143 | the loop builds the failure response of the query, or none if the query does not parse |
| Dns.FailureIsForItsQuery | rust/core/src/dns.rs:131-143 | whoever decodes the failure reads the query's id, operation and questions in order, a response code of SERVFAIL and no records |
| Dns.RunInv | rust/core/src/dns.rs:55-89 | in every run each query is in flight, answered or silently finished, and never two of them |
| Dns.OneReplyEach | rust/core/src/dns.rs:55-89 | in every interleaving queries in flight keep their bytes, each datagram gets at most one reply, to its own sender and about its own bytes, and the counts add up |
| Dns.AnswerGoesHome | rust/core/src/dns.rs:71-85 | a query in flight that finishes with an answer is answered to its sender, also after the cancel and after the loop has returned |
| Dns.ExitOpensWithTheCancel | rust/core/src/dns.rs:57-61 | in every run the loop can return exactly from the cancel on and until it has returned |
| Dns.NothingAfterLeaving | rust/core/src/dns.rs:57-61 | once it has returned nothing is received any more, whatever happens |
| Dns.CancelAloneStopsNothing | rust/core/src/dns.rs:57-67 | between cancel and return any number of datagrams may still be taken, with the exit open all the while |
| Dns.ReceivingIsInert | rust/core/src/dns.rs:62-71 | refilling the buffer commutes with finishing any earlier query |
| Dns.OrderIsImmaterial | rust/core/src/dns.rs:71-85 | two queries may finish in either order: the same replies go out |
| Dns.QueryIsTheDatagram | rust/core/src/dns.rs:27 | a query is the datagram up to 4096 bytes |
| Dns.AnswerIsPassedOn | rust/core/src/dns.rs:73-77 | an exchange that succeeded sends exactly its answer to the sender, and nothing if sending fails |
| Dns.FailureIsSentIff | rust/core/src/dns.rs:78-83 | a failed exchange is answered exactly if the query parses and the failure can be printed |
| Dns.LoopGoesOn | rust/core/src/dns.rs:56-66 | until it returns the loop receives, and a failing receive changes nothing |
| Dns.Proxy.RecvFrom | rust/core/src/dns.rs:62-66 | the front of the buffer holds the datagram cut to 4096 bytes and the rest is as before |
| Dns.Proxy.Receive | rust/core/src/dns.rs:62-85 | one received datagram is one step of the machine |
| Dns.Proxy.Finish | rust/core/src/dns.rs:71-85 | one finished forward is one step of the machine |
| Dns.Drive | rust/core/src/dns.rs:49-89 | a whole run of the proxy sends exactly what the machine sends |

## Left out

- Leaf, Arti, the HTTP client, the DNS codec and the JSON text parser: libraries. The dial, the DoH exchange and Leaf's start and exit are nondeterministic steps; the DNS codec and the IP address parser are parameters.
- JSON text: duplicate keys, number syntax and the positional-array form that the core's decoder also accepts for records are not represented by the tree.
- Letters and blanks outside ASCII: case folding and blankness are ASCII only (within ASCII, the service's notion of blank and the core's are kept apart). The three words compared are ASCII, but a non-ASCII letter whose lower case is ASCII, and non-ASCII white space, behave differently in the app and in the core.
- RustConfig.ErrorsInOrder: the address parser's own message, which the source appends to `doh_server_ip`, and the JSON library's messages are not modelled.
- Host text: the target keeps octets or UTF-8 bytes; formatting addresses and the validation in `TorAddr::from` are folded into whether the dial succeeds.
- Socks5Server.ClientSocket.ReadExact: how many socket reads a read takes is left to the arrival model of `Relay`.
- Dns.FailureIsForItsQuery: assumes that the codec reads back what it wrote; header flags other than the response bit are not modelled.
- Dns.Proxy.RecvFrom: an over-long datagram is cut, as on Linux and Android.
- Ipc.HandleClient: a reply is sent as a whole or not at all, and the peer's wait after a log subscription ends the modelled session.
- Ipc.AuthToken.Rotate: the random token is a parameter, so that two tokens differ is not claimed.
- Endpoint.GeneratedLoginWorks: the draws are parameters; nothing is said about their distribution.
- Startup.Core.Start: the mutex is not represented there; concurrent callers are the subject of `Slot`.
- Startup.FfVpnService.StartTunnel: begins at the detached descriptor; building the interface and the per-app lists is Android's API.
- Tasks.QuietMeansOver: abort is taken to end a task at its next suspension point; timeouts of two seconds during the teardown are not modelled, only the order of the aborts.
- Accepted IPC clients, DoH forwards in flight and SOCKS connections still negotiating are detached tasks that do not select on the token; nothing is claimed about their end.
- Panics and out-of-memory: excluded in the core. The exclusion does not cover `FfVpnService.kt:95`, where any `Throwable` is a step of the model.
- Tasks.FailTogether: describes the unix build; elsewhere the IPC task ends at once without cancelling (rust/core/src/ipc.rs:116-124).
- Dns.ExitOpensWithTheCancel: that the loop does take its open exit is up to the fairness of `select!`, which is not modelled.
- `leaf::shutdown` racing `leaf::start`, and collisions of Leaf runtime ids: they depend on the library and on randomness.
- `build_arti_config`, `main_engine_config`, `pt_socks_inbound_config`: fixed-shape builders with nothing to relate.
- Fetching, saving and loading configurations, socket permissions, stale sockets, logging, preferences: input and output.
- Flutter screens, channels, the Swift provider, build scripts: user interface and platform plumbing.

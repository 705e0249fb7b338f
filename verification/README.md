# StealthPipe relay: a verified model

StealthPipe's relay lets a host open a room under a six-digit code and pairs every client
that joins it with a data connection of its own from the host. The server is one Go
process: each connection runs in its own handler, all handlers share the room table and the
maps inside each Room object, and three map mutexes, a table lock and a per-room host lock
guard them piece by piece. Codes are bound to new Room objects while handlers of the old ones
still run, and request names are random and can collide. This project models that system in
Dafny 4.11 and proves what it guarantees under every interleaving.

`dafny verify dfyconfig.toml` checks everything.

## How it is organised

| file | contents |
|---|---|
| `Store.dfy` | the shared state (rooms, table, issued codes) and what each critical section does to it |
| `Relay.dfy` | `Room` and `ServerData` as classes; the handlers' sections as methods with their loops, each proved against the function in `Store.dfy` |
| `Protocol.dfy` | the transition system: any number of handler threads with captured locals and program counters, one atomic step per critical section or unlocked access, built from the same functions |
| `Invariant.dfy` | the invariant of the pairing protocol, its preservation by every step, and runs |
| `Pairing.dfy`, `Waiting.dfy`, `Teardown.dfy`, `Rooms.dfy`, `Cleaners.dfy`, `Clocks.dfy`, `Refusals.dfy`, `Routing.dfy`, `HostMutex.dfy`, `Parting.dfy`, `Generations.dfy`, `Accounting.dfy` | what holds in every reachable state and along every run |
| `Scenarios.dfy`, `PairScenarios.dfy` | continuations that are possible from any reachable state, action by action, and the runs that show what does not hold |
| `Locks.dfy`, `LockPaths.dfy`, `LockTraces.dfy` | Go's read-write mutexes, deadlock freedom of disciplined threads, the lock operations of every handler path, and that the handlers of the transition system go along those paths |
| `ProofOfWork.dfy`, `Replay.dfy` | the work check, the solver, the replay table and its runs |
| `Forwarding.dfy` | the forwarding loops, and what the partner's connection makes of them |
| `Traffic.dfy` | the difficulty controller |
| `Decimal.dfy`, `Options.dfy` | decimal text, room codes, request names; the optional value |

A connection is an identity with a role; I/O outcomes, random draws and clock readings are
inputs of a step, so a theorem about all runs is a theorem about all of them. A run is a
sequence of actions, `Reached(run)` the state it leads to from a relay that just started,
and the type of `Reached` itself carries the invariant. Reuse tokens that an earlier process
signed with the same key can be presented at any time, so a relay that has been restarted is
among them (`RestartsAreRuns`).

## Results that differ from what one might expect

- A message that a forwarding loop breaks off is finalised after all: the writer stays open,
  and the library closes it when a close frame asks for the next one. If the loop stopped
  inside a message, the partner gets what was copied as a complete message exactly when
  anybody closes it after that (`StoppedLoopsFinaliseTheirLastMessage`): the handler's own
  cleanup, which names it if and only if the code is still bound to the room
  (`CleanupNamesPartnerExactly`), or any other handler (`PartnersAreClosedExactly`, and
  `TornDownPairGetsTruncatedMessage` for a run in which the host's cleanup does). A message
  beyond the maximum gets through exactly after a stop for size
  (`OversizeIsFinalisedExactly`, `OversizeMessageArrives`), a truncated one exactly when a
  part was in the writer (`PartPassesForMessageExactly`, `TruncatedMessageArrives`).
- Replay exclusion is not unconditional: it holds for all runs exactly when every request
  reaches the replay table at most one second after its token verified
  (`ReplayExcludedWithinASecond`, with a concrete run for any longer delay).
- A write to a host under `HostMu` can unwind, and the unlock is not deferred: a forwarded
  client packet dereferences a nil connection when its room has no host, and the WebSocket
  library panics on a concurrent writer (a closing writes to the same connection without
  `HostMu`). The first is reachable: a reuse token can re-bind the code of a serving client's
  signal connection to a room without a host (`ServingClientsCanMeetNoHost`, `NoHostIsMet`).
  The handler keeps that `HostMu` for good (`PathsKeepWhatTheyLose`). For any number of
  handlers, every one of them can be taken to its end from every state of every schedule if
  and only if none needs a `HostMu` that another one loses (`RelayNeverStuckExactly`);
  otherwise some schedule leaves it waiting for ever (`UnwindingStrands`). In the transition
  system, whoever needs the lost lock stays where it is, and no client's packet reaches a host
  of that Room object in any continuation (`LostHostMuBlocksForEver`,
  `UnwindingSilencesTheRoom`).
- The ghost-room cleaner looks again before it deletes; the idle cleaner does not. With both
  at work it deletes a hosted room that a client has entered since the scan
  (`IdleCleanerDeletesEnteredRoom`), and the room of a next host that it never listed, whose
  connection then stays open (`IdleCleanerDeletesNextRoom`, `CleanupLeavesHostOpen`). Its
  verdict on a code is still right at the deletion unless somebody joined, entered or filled
  the room, or the code was re-bound, in between; then it is wrong until the idle delay has
  passed again (`IdleDeletionIsRightUnlessHit`).
- A host that departs tears its room down exactly if, by the time its cleanup begins, no
  holder of a reuse token has re-bound the code and the idle cleaner has not deleted it
  (`DeparturesTearDownExactly`); the pairs of a room whose code was re-bound first go on
  forwarding (`EvictionSparesPair`).
- Signalling crosses from one room of a code to the next: a host's packet goes to the room of
  its handler's latest lookup, which is the host's own if and only if the code was bound to
  that one at the lookup (`HostPacketsStayHomeExactly`, `PacketCrossesGenerations`).
- A waiting client can be forgotten: its request is overwritten by an equal draw, or swept,
  or taken by a connection that gives up. It can still be linked if and only if a taker is
  about to link it, or its request is on file where a data connection can find it
  (`WaitingClientsCanBeLinkedExactly`, `EqualDrawsForget`).
- An accepted proof of work stands for work exactly when the token's difficulty is positive:
  reuse tokens are signed with the same key and read as difficulty 0, so they are accepted
  with every nonce while the empty salt is unused (`AcceptanceTakesWorkExactly`,
  `ReuseTokensRedeemExactly`).
- A client's wait has no bound while its entry is nil (`ForgottenClientsPollForEver`).
- A handler's cleanup closes its own connection only while its code is bound; afterwards the
  connection is closed exactly if something else names it (`OwnConnectionsAreClosed`).
- The connection counter is exact if and only if no signal handler returned before it
  registered its decrement (`CounterCountsHandlers`); a client's signal connection to a room
  without a host makes it drift (`HostlessRoomsMakeTheCounterDrift`, `CounterDrifts`).

Where code and documentation disagree the model follows the code: request names are
`REQUESTCONNECTION_<n><code>` without a separator (src/core/ConnectionsClientToRelay.go:142;
TECHNICAL.MD gives another form), a reuse token evicts the host that holds the code
(src/core/RoomCreation.go:106-115; TECHNICAL.MD says that it works only while nobody else has
taken the code), nothing is ever removed from the two link maps although a
comment says so (src/core/ConnectionsCleanup.go:49), a client whose entry is nil polls on
without looking at the clock (src/core/ConnectionsClientToRelay.go:73-77), and
`handleCleanup` receives the reason as it was when the deferred call was registered
(src/core/ConnectionsClientToRelay.go:98-102).

## Model

| member | source | states |
|---|---|---|
| Pairing.TunnelsAreExclusive | src/core/ConnectionsCreate.go:121-159 | in every run, of two loops that run at the same moment or at any two moments and share an end, both join the same client and data connection; both ends joined the same Room object |
| Pairing.MapsAreInverse | src/core/ConnectionsCreate.go:136-159 | the two link maps are inverse; a link lacks its mirror exactly while its thread is between the two writes; no data connection is linked twice |
| Pairing.WaitingClientsAreUnlinked | src/core/ConnectionsCreate.go:121-134 | a client whose request is on file is linked in no room and taken by no data connection |
| Pairing.LinkOverwritesNil | src/core/ConnectionsCreate.go:138-151 | the value overwritten by the link is always nil: no link is displaced |
| Waiting.WaitingClientsCanBeLinkedExactly | src/core/ConnectionsCreate.go:121-151 | a client with a nil entry can be linked in some continuation if and only if a taker is about to link it, or its request is on file in a room that is bound or being asked for it |
| Waiting.EqualDrawsForget | src/core/ConnectionsClientToRelay.go:142-148 | an equal draw in the same room overwrites the earlier client's request and forgets that client |
| Waiting.WaitEndsExactly | src/core/ConnectionsClientToRelay.go:48-91 | when a client's wait ends; with a nil entry the clock is not looked at |
| Waiting.ForgottenClientsPollForEver | src/core/ConnectionsClientToRelay.go:64-82 | a forgotten client polls for ever while its code is bound to its room whenever it looks |
| Waiting.SweptClientsAreOffFile | src/core/ConnectionsClientToRelay.go:19-40 | a client that swept its own room at the end of its wait is on file nowhere, for good |
| Pairing.TakenClientsNeverReturn | src/core/ConnectionsCreate.go:123-132 | after any continuation of any run, a taken client is on no request map and has the same single taker |
| Pairing.LinksAreForLife | src/core/ConnectionsCreate.go:151-157 | links, mirrors and loop partners hold in every continuation |
| Pairing.RunGrows | src/core/Types.go:27-44 | along a run, registered clients, links, mirrors, hosts, captured locals and closed sockets only accumulate |
| Invariant.ActionKeepsInv | src/core/ConnectionsCreate.go:74-198 | every step of every handler, cleaner and creator keeps the protocol invariant |
| Invariant.Reached | src/core/Types.go:312-348 | every run from the freshly made server ends in a state that satisfies the invariant, whatever reuse tokens earlier processes signed |
| Invariant.RestartsAreRuns | src/core/ReuseTokens.go:11-39 | every run of a restarted relay, from any set of six-digit codes issued before, is a run |
| Teardown.HostTeardownIsExact | src/core/ConnectionsCleanup.go:27-47 | a host's cleanup lists the host, every registered client and every linked data connection, each once with its role's reason, and nobody else; all mirror keys are among them |
| Teardown.HostCleanupCallsAreExact | src/core/ConnectionsCleanup.go:84-107 | in any map order, the closing calls are exactly that list and close no connection twice |
| Teardown.PairTeardownClosesBoth | src/core/ConnectionsCleanup.go:48-77 | the cleanup of either end of a link in the bound room lists both ends and nobody else and unbinds nothing, between the two link writes too |
| Teardown.PairCleanupCallsAreExact | src/core/ConnectionsCleanup.go:55-107 | the closing calls of any other connection's cleanup are its partner and itself, and close no connection twice |
| Teardown.CleanupClosesItsList | src/core/ConnectionsCleanup.go:84-107 | in every continuation a cleanup works on the list of its first step, and when it is through everything on that list is closed, its own connection included |
| Teardown.HostTeardownCompletes | src/core/ConnectionsCleanup.go:27-47 | when a host's cleanup is through, the host, every client and every linked data connection are closed |
| Teardown.PairTeardownCompletes | src/core/ConnectionsCleanup.go:48-77 | when the cleanup of one end of a link is through, both ends are closed |
| Teardown.OwnConnectionsAreClosed | src/core/ConnectionsCleanup.go:16-20 | a handler's own connection is closed by the end of its cleanup if its code was bound; if not, it is closed in a continuation if and only if it was before, or another list or an eviction names it |
| Refusals.ClosedExactly | src/core/ConnectionsCreate.go:74-198 | in every run a connection is closed if and only if its handler refused it, or a cleanup's list, an eviction or the idle cleaner named it |
| Refusals.RefusalsClose | src/core/ConnectionsCreate.go:87-196 | when each refusal happens, by table and room, that it closes the connection, and where the handler goes |
| Refusals.TurnedAwayMeansClosed | src/core/ConnectionsClientToRelay.go:106-119 | a connection handler that is done without a cleanup has been refused, and whoever was refused is closed |
| Parting.StoppedLoopsFinaliseTheirLastMessage | src/core/ConnectionClose.go:5-13 | on every script, in every run in which a loop stops while its partner is open, and every continuation: the partner sees the binary messages before the stop and, exactly if the loop stopped inside a message, some handler closes the partner and the close frame is taken, what was copied of that message |
| Parting.PartnersAreClosedExactly | src/core/ConnectionsCleanup.go:48-107 | after a stop the partner is closed if and only if some handler closes it; the loop's own only after a cleanup that began with the code bound to the room it joined, and such a cleanup in any case by its end |
| Parting.CleanupNamesPartnerExactly | src/core/ConnectionsCleanup.go:52-77 | the cleanup of a forwarding handler names its partner if and only if its code is still bound to the room it joined |
| PairScenarios.TornDownPairGetsTruncatedMessage | src/core/ConnectionsCleanup.go:16-47 | a run in which the room goes in mid-message: the handler's own cleanup names nobody, the host's closes the partner, and a truncated message gets through |
| Generations.DeparturesTearDownExactly | src/core/RoomCreation.go:106-119 | a departing host's cleanup lists its whole room if no reuse token re-bound the code and the idle cleaner did not delete it before, and otherwise nobody but the host |
| Generations.EvictionSparesPair | src/core/RoomCreation.go:106-119 | a run in which an evicted host cleans up after the re-binding and the old room's pair goes on forwarding |
| Rooms.HostsAreForLife | src/core/ConnectionsCreate.go:174-194 | a Room object gets at most one host, for good; HasHost agrees with Host; a connection hosts at most one Room object |
| Rooms.CodesKeepTheirRooms | src/core/ConnectionsCleanup.go:27-47 | a code loses its Room object only by its own host's cleanup, a pruning that finds no host, the idle cleaner's list, or the reuse of its token |
| Rooms.NewBindingsAreFresh | src/core/RoomCreation.go:101-143 | a new binding is made by creation only, to an empty hostless Room object; a random code was free and six-digit, a reused one was issued; no other code changes |
| Rooms.ReuseEndsWithFreshRoom | src/core/RoomCreation.go:101-143 | the reuse path, with or without its lock gap, ends with its code alone bound to a fresh hostless room and all other codes as they were |
| Rooms.RoomsHaveOneCodeEach | src/core/RoomCreation.go:125-143 | in every run no Room object is bound to two codes |
| Rooms.StaleCleanupTouchesNothing | src/core/ConnectionsCleanup.go:16-77 | the cleanup of a handler that did not join the room now bound to its code, signal connections of clients included, lists only its own connection and changes nothing shared |
| Cleaners.GhostPruningSparesHosts | src/core/CleanTasks.go:29-36 | a pruning removes a code if and only if it was listed and its room has no host at that moment |
| Clocks.TimestampsAreClocks | src/core/Types.go:27-44 | in every run a room's timestamps are the clocks read when it was made and last joined or filled, and its client map is empty exactly if nobody entered |
| Clocks.GhostScanListsExactly | src/core/CleanTasks.go:18-25 | the ghost scan lists a code exactly if it is bound to a hostless room made more than 60,000 milliseconds before, by the run's clocks |
| Clocks.IdleScanListsExactly | src/core/CleanTasks.go:49-58 | the idle scan lists a code exactly if it is bound to a room nobody entered and that was last made, joined or filled more than 900,000 milliseconds before, and exactly their hosts |
| Clocks.PrunedRoomsAreOldUnlessRebound | src/core/CleanTasks.go:17-38 | over every run, a pruning unbinds only a hostless room, which is the old one of the scan unless the code was re-bound in between |
| Cleaners.IdleDeletionIsRightUnlessHit | src/core/CleanTasks.go:49-65 | for every run from a scan to the deletion: a listed code that is still bound is idle, in the room of the scan and with its host on the closing list, unless a join, entry, filling or re-binding hit it; if one did, it is not idle until the idle delay has passed again |
| Cleaners.IdleCleanerDeletesEnteredRoom | src/core/CleanTasks.go:49-65 | a run with rising clocks in which the ghost cleaner has come by, and the idle cleaner deletes a hosted room that a client has entered |
| Cleaners.IdleCleanerDeletesNextRoom | src/core/CleanTasks.go:49-65 | a run in which the ghost cleaner has come by, and the idle cleaner deletes the room of the next host under a re-bound code, without that host on its list |
| Cleaners.CleanupLeavesHostOpen | src/core/ConnectionsCleanup.go:16-20 | the same run, continued: that host's cleanup finds no room and its connection stays open |
| Rooms.NamesAreUnambiguous | src/core/ConnectionsClientToRelay.go:142-147 | in every run bound and issued codes are six digits, and every name on file is the one its client made of a drawn number and its code, which no other number and code make |
| Routing.RoutesAreLastRegistrants | src/core/ConnectionsSignalFromClient.go:62-67 | in every run each Room object's routing map holds, for each id, the most recent registrant |
| Routing.HostPacketsGoToLastRegistrant | src/core/ConnectionsSignalFromHost.go:30-63 | a host's packet with id k goes to the last registrant of k in the room found, to nobody if there is none, and pings and pongs to no client |
| Routing.RouteHoldersForwarded | src/core/ConnectionsSignalFromClient.go:53-67 | in every run, whoever holds the route of an id has forwarded a packet that carries it to that room's host, and the packet was handed to the host's connection |
| Generations.HostPacketsStayHomeExactly | src/core/ConnectionsSignalFromHost.go:22-62 | a host's packet with an id goes to the last registrant in the Room object of its latest lookup, which is one the host is seated in if and only if the code was bound to its own room then |
| Generations.ClientPacketsGoToFoundRoom | src/core/ConnectionsSignalFromClient.go:22-67 | a client's packet goes to the host of the Room object of its latest lookup, and registers the client there |
| Generations.PacketCrossesGenerations | src/core/ConnectionsSignalFromHost.go:22-62 | a run in which an evicted host's packet is written to a client of the next room |
| Routing.ClientPacketsAreForwarded | src/core/ConnectionsSignalFromClient.go:31-69 | which client packets are forwarded and lead to a registration; the handler unwinds exactly when a packet to forward finds no host |
| Routing.PingsAreAnswered | src/core/SignalMessagingTypes.go:5-14 | a packet of type 1 is answered with the packet [2], on either side, unless HostMu is lost |
| Scenarios.ServingClientsCanMeetNoHost | src/core/ConnectionsSignalFromClient.go:53-58 | from any reachable state in which a client's signal handler serves under a code with a reuse token, a continuation in which its next packet finds no host |
| Scenarios.NoHostIsMet | src/core/RoomCreation.go:101-143 | a run from the start in which that happens |
| HostMutex.LostHostMuBlocksForEver | src/core/ConnectionsClientToRelay.go:154-156 | whoever needs a lost HostMu, to ask a host, to forward or to answer a ping, is where it is in every continuation |
| HostMutex.UnwindingSilencesTheRoom | src/core/ConnectionsSignalFromClient.go:53-58 | after an unwinding no packet of that Room object's clients is handed to a host in any continuation, also when one joins later |
| Accounting.CounterCountsHandlers | src/core/ConnectionsSignalFromClient.go:81-98 | the counter equals running counted handlers plus signal handlers that bailed out; it is never below the live count, and exact if and only if none bailed out |
| Accounting.HostlessRoomsMakeTheCounterDrift | src/core/ConnectionsSignalFromClient.go:87-91 | from any reachable state with a room without a host, a continuation that raises the counter by one above the live count |
| Accounting.CounterDrifts | src/core/ConnectionsSignalFromClient.go:87-91 | a run from the start after which the counter is above the live count |
| Locks.NeverStuckExactly | src/Main.go:14-15 | any number of threads on disciplined paths can be taken to their ends from every state of every schedule, if and only if no thread uses a lock that another one keeps |
| Locks.DisciplineMeans | src/Main.go:14-15 | operation by operation: no socket is closed under RoomsMu, no held lock is asked for, and nothing but RoomsMu is held while another lock is asked for |
| Locks.NeverDeadlocked | src/Main.go:14-15 | under any schedule of such threads, one with work left can step, or an engaged thread can |
| LockPaths.PathsKeepWhatTheyLose | src/core/ConnectionsCleanup.go:13-82 | every path through every handler and loop takes locks in order and closes no socket under RoomsMu; in the end it holds nothing, except the HostMu under which it unwound |
| LockPaths.RoomLocksAreTakenExactly | src/core/ConnectionsClientToRelay.go:145-156 | a path takes a Room object's map locks and its HostMu, in the right mode, exactly for the map accesses and the writes to a host that happen on it |
| LockPaths.LocksHostExactly | src/core/ConnectionsClientToRelay.go:154-156 | a path takes a room's HostMu if and only if it gets as far as asking that room's host, or a packet up to and including its first unwinding one is written under it |
| LockPaths.GlobalLocksAreTakenExactly | src/core/ProofOfWork.go:28-54 | a path takes the locks of the used salts and of the recently deleted rooms exactly when it checks, purges, records, looks up or cleans them |
| LockPaths.PathsCloseOutsideRooms | src/core/ConnectionsCleanup.go:79-107 | no operation of any path closes a socket while RoomsMu is held |
| LockTraces.HandlersFollowPaths | src/core/ConnectionsCreate.go:74-218 | in every run the lock operations of a handler of the transition system are the beginning of one of the paths, and all of one when the handler is through |
| LockTraces.MapWritesAreLocked | src/core/ConnectionsCreate.go:121-159 | no step of any handler changes a request or link map but in a section of that map's lock |
| LockTraces.TableWritesAreLocked | src/core/ConnectionsCleanup.go:14-40 | no step changes the table but in a section of RoomsMu for writing |
| LockPaths.RelayNeverStuckExactly | src/core/RoomCreation.go:54-118 | the handlers on any paths can all be taken to their ends from every state of every schedule, if and only if none needs a HostMu that another one loses |
| LockPaths.RelayNeverDeadlocks | src/core/RoomCreation.go:54-118 | under that condition, a handler with work left can go on, or waits for one that is inside a critical section or queued and can |
| LockPaths.UnwindingStrands | src/core/ConnectionsSignalFromClient.go:53-58 | whenever a handler unwinds under a HostMu that another one needs, some schedule leaves the other waiting for ever |
| Relay.ServerData.HandleCleanup | src/core/ConnectionsCleanup.go:9-108 | the table after a cleanup, the recently-deleted entry, and the closing calls in the order of the map traversal with nil entries skipped |
| Relay.ServerData.TearDown | src/core/ConnectionsCleanup.go:27-47 | the host's branch: the code is unbound and every pair is closed in traversal order, the host last |
| Relay.ServerData.JoinAsData | src/core/ConnectionsCreate.go:107-163 | the whole handshake: both maps linked and the request gone; or the connection closed with the reason of the step that failed, with only the request gone if it was the link |
| Relay.ServerData.JoinAsHost | src/core/ConnectionsCreate.go:169-198 | the host is seated if and only if the room exists and has none; otherwise it is closed with the reason and nothing changes |
| Relay.ServerData.CreateFresh | src/core/RoomCreation.go:57-86 | the lucky code if drawn and free, else the first free draw; it fails, with nothing changed, only after ten thousand taken draws |
| Relay.ServerData.BeginReuse | src/core/RoomCreation.go:88-118 | which tokens are rejected, when a host is evicted, and the re-binding when there is none |
| Relay.ServerData.FinishReuse | src/core/RoomCreation.go:113-143 | whatever holds the code is replaced by a new Room object and no other code changes |
| Relay.ServerData.ScanGhosts | src/core/CleanTasks.go:18-25 | the listed codes are exactly the old rooms without a host |
| Relay.ServerData.PruneGhosts | src/core/CleanTasks.go:29-36 | exactly the listed codes whose rooms still have no host are unbound |
| Relay.ServerData.ScanIdle | src/core/CleanTasks.go:49-58 | the listed codes are exactly the idle empty rooms, the listed connections exactly their hosts |
| Relay.ServerData.DeleteIdle | src/core/CleanTasks.go:61-71 | all listed codes are unbound, then all listed hosts closed |
| Relay.ServerData.HandleSignalPacketFromClient | src/core/ConnectionsSignalFromClient.go:13-71 | what is written to whom, the registration, and when the call unwinds |
| Relay.ServerData.HandleSignalPacket | src/core/ConnectionsSignalFromHost.go:13-65 | what is written to whom |
| Replay.ReplayExcludedWithinASecond | src/core/ProofOfWork.go:28-56 | no token passes the replay gate twice in any run, with purges interleaved, if and only if requests reach the gate within one second of verifying |
| Replay.SlowRunPassesTwice | src/core/ProofOfWork.go:46-50 | for any longer delay, a run in which one token passes twice |
| ProofOfWork.PrefixMeansZeroNibbles | src/core/ProofOfWork.go:98-103 | for every digest and difficulty, the hexadecimal prefix test is the test for leading zero half-bytes |
| ProofOfWork.CheckProofOfWork | benchmark/src/sec/ProofOfWork.go:8-24 | the byte loop and the odd half-byte test accept exactly the leading zero half-bytes |
| ProofOfWork.AcceptanceTakesWorkExactly | src/core/ReuseTokens.go:11-24 | the check can turn down a nonce if and only if the difficulty that the token reads as is positive; for reuse tokens it is 0 |
| ProofOfWork.ReuseTokensRedeemExactly | src/core/ProofOfWork.go:81-111 | a reuse token is accepted as a proof of work, with every nonce, if and only if it verifies and the empty salt is not on the table |
| ProofOfWork.SolveProofOfWork | benchmark/src/sec/ProofOfWork.go:26-39 | whenever a non-negative int64 solves the puzzle, it ends with the least one |
| ProofOfWork.UsedSalts.Purge | src/core/ProofOfWork.go:45-53 | exactly the entries whose expiry the clock has passed are gone |
| ProofOfWork.UsedSalts.IsProofOfWorkValid | src/core/ProofOfWork.go:81-111 | accepted if and only if the token verified, its salt is new and the nonce solves it; the salt is spent either way |
| ProofOfWork.UsedSalts.SolveAndRedeem | src/tests/ProofOfWork_test.go:11-42 | a solved challenge, printed and parsed again, is accepted once and refused the second time |
| Decimal.ParseFormat | src/core/RoomCreation.go:37-42 | every int64 that is printed in decimal is parsed back to itself |
| Decimal.ParseIntAcceptsExactly | src/core/RoomCreation.go:37-42 | the nonce parser accepts exactly the 64-bit numbers, each written with its sign, leading zeros and its printed digits |
| Decimal.CodesAreExactlySixDigits | src/core/Utils.go:9-18 | the printed codes are exactly the six-digit strings, one for each number |
| Decimal.RequestNamesCollideOnlyOnEqualDraws | src/core/ConnectionsClientToRelay.go:134-142 | two names are equal if and only if number and code are |
| Decimal.RequestNamesNeedFixedWidth | src/core/ConnectionsClientToRelay.go:142 | two requests with codes of given lengths can make the same name if and only if the lengths differ |
| Traffic.LevelIsExplained | src/core/TrafficMonitoring.go:8-37 | on every trace, the level is the last raise's target while its cooldown lasts, then the latest tick's target, and 5 before any raise |
| Traffic.LevelCoversDemand | src/core/TrafficMonitoring.go:13-36 | the level is 5, 6 or 7, never below the tick's target, nor below any target since the last raise within its cooldown |
| Traffic.HandshakesDecideLevel | src/core/TrafficMonitoring.go:13-36 | on every trace, more than 20 handshakes since the last tick give at least 6 and more than 100 give 7; the level rises above 5, and to 7, only at such a tick |
| Traffic.TrafficMonitor.MonitorTick | src/core/TrafficMonitoring.go:10-37 | one tick's effect on counter, difficulty and raise time |
| Forwarding.Forward | src/core/ConnectionsClientToRelay.go:177-250 | the loop ends at the first fault or message beyond the limits; it has finalised the binary messages before that, byte for byte up to the first flush that failed, and leaves the writer open on the rest |
| Forwarding.LoopPassesNoFault | src/core/ConnectionsHostToRelay.go:58-94 | no turn before the loop's end is a read error, and every binary one had a writer, no read or write fault within the limit, and a size within both limits |
| Forwarding.StopsForTheFirstCause | src/core/ConnectionsClientToRelay.go:183-226 | the loop's reason, case by case, in terms of the faults themselves |
| Forwarding.PartnerFaultsFinaliseNothing | src/core/ConnectionsClientToRelay.go:201-205 | of a message that the partner failed to take nothing is finalised, closed or not |
| Forwarding.ShippedLimits | src/core/Types.go:153-157 | with the shipped limits a faultless binary message stops the loop exactly above 2,200,000 bytes |
| Forwarding.PartnerSees | src/core/ConnectionsHostToRelay.go:52-134 | the messages the partner gets: those, and what the writer held exactly if it was open and the connection is closed and takes the close frame |
| Forwarding.OversizeIsFinalisedExactly | src/core/ConnectionsClientToRelay.go:200-210 | a message beyond the maximum is finalised exactly when the loop stopped for size and the partner is closed; it is one byte longer than the maximum and begins the sender's message |
| Forwarding.PartPassesForMessageExactly | src/core/ConnectionsHostToRelay.go:78-98 | the partner gets a beginning of the sender's messages, each whole, unless a part was left in the writer and the partner is closed |
| Forwarding.OversizeMessageArrives | src/core/ConnectionClose.go:5-13 | a message of one byte too many stops the loop and reaches the partner |
| Forwarding.TruncatedMessageArrives | src/core/ConnectionClose.go:5-13 | what was read of a message before a read fault reaches the partner as a message |

## Left out

- WebSocket, HTTP and TCP I/O, deadlines and the upgrade: a connection is an identity, and whether a read or write succeeds is an input of the step.
- Liveness of waiting clients: the poll loop has no bound while the entry is nil, and nothing is claimed about how long a wait takes.
- Signing and hashing: a token is the claims its signature vouches for (a reuse token can name only issued codes, and when it expires is not modelled), and SHA-256 is any function to 32 bytes.
- The rate limiter's timing: waiting is a finite delay; only its refusal of oversized requests is modelled.
- Forwarding.Forward: another handler that closes the partner while a copy is still going on is not part of it; the library may panic then, or the rest of the message is lost.
- Panics of the WebSocket library under `HostMu` lose that lock like a missing host does; they are paths in the lock system, not steps of the transition system.
- Panics of the WebSocket library outside `HostMu`: in a handler they only cut its path short; in the idle cleaner, or between the unlock and the relock of an eviction, they end the process, which no path shows.
- Data races: accesses that the code makes under no lock, or under another map's lock, are one atomic step each.
- ProofOfWork.CheckProofOfWork: difficulties below 0 and above 64 are outside its domain; the solver would index outside the digest, and the relay issues 5 to 7.
- Protocol.CreateStep: the random path may fail at any time here; when exactly it fails is stated by Relay.ServerData.CreateFresh.
- Protocol.ExitStep: the set of connections still to be closed is unordered here; the order and the index alignment are stated by Relay.ServerData.HandleCleanup. The second cleanup after a recovered panic in the data handler appears in the lock paths only.
- Recently deleted rooms: the entry is written by Relay.ServerData.HandleCleanup, but the cleaner of that map and the close reason chosen from it are not modelled.
- Counters have no width: the wrap-around of the handshake counter at 2^64 and of the connection counter at 2^63 is not modelled.
- The size of a signal packet as read: the bytes handed to the packet handlers are inputs, since one read may deliver only a part of a message.
- The cooldown's unit: the configured number is used as nanoseconds in the code; here it is a parameter.
- Version checks, metrics, logging, the health watchdog's verdict, the statistics endpoints, the benchmark's connection loops and the retired design in old.go.txt.

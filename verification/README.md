# Ground control: a verified model

Dafny 4.11 proofs about a ground-control server, which keeps one session for each aircraft that
connects over TCP, and about the aircraft clients that connect to it. `dafny verify dfyconfig.toml`
checks everything.

## What is modelled

The server thread is modelled twice. `session_table.dfy` says what each step does, as functions on
values: one session's turn, the two operator requests, the timeout sweep, `accept`, the batch of ready
sockets, and one pass through the loop (`Round`, `Iterate`, `Run`). `ground_server.dfy` does the same
work on mutable objects, as the source does it: a session map, sockets, a dashboard and a logger. Each
of its methods is proved to compute the function of the same step, so what is proved of `Run` holds of
`GroundServers.ServerThread`.

What comes from outside is a parameter, and the theorems hold for all its values: which bytes arrive,
how `send` and `recv` cut them, how many bytes the peer will still take, what is on disk, the clock,
which descriptor `accept` gives, which sockets `select` reports, when `running` is cleared, and what the
operator does. The theorems on runs are stated over every interleaving of single steps, each with its
own reading of the clock (`Step`, `Execute`); every run of the loop is one of these
(`ServerSteps.RunIsSteps`).

| file | content |
|---|---|
| basics.dfy | machine words, bytes, the key order of a `std::map` |
| packet.dfy | header layout, streams of packets, identifiers in their field, checksum |
| socket_utils.dfy | `sendAll`, `recvAll` over an oracle for `send` and `recv` |
| state_machine.dfy, client_session.dfy | session states, timers, counters, with their history |
| dashboard.dfy | dashboard entries, selection, recent log |
| session_table.dfy | the server's steps as functions |
| table_invariants.dfy, table_runs.dfy | the invariant, one turn at a time and over every run |
| table_theorems.dfy | what the invariant means to operator, black box and peers |
| turn_outcomes.dfy | exactly which bytes keep, dismiss or fault a session |
| server_steps.dfy | the loop cut into steps that may interleave freely |
| session_lives.dfy, time_outs.dfy | what a session keeps from step to step; the clock; what becomes of silence |
| conforming_client.dfy, conforming_runs.dfy | a client that keeps to the protocol is heard and never faulted |
| ground_server.dfy | the server on mutable state, refining session_table.dfy |
| client_utils.dfy | automatic identifiers and the retry stride |
| connecting.dfy | the client's handshake retry against the server's answers |
| aircraft_client.dfy | the client on mutable state; a map from disk to disk |
| weather_map.dfy | the seed of the weather map |

A session's value carries history that the program does not keep: the states it went through, the
transitions it was refused, and the packets sent to it and read from it whole. The world keeps the
sessions that left, in order, because descriptors are used again.

## Where the code does not do what is said of it

A test is named for the alert coming before the time-out (tests/client_session_tests.cpp:80). A session
that falls silent is alerted at some instant exactly if it is in TELEMETRY, has had telemetry, and its
last two telemetry packets were less than 1500 ms apart (`ClientSessions.AlertPrecedesTimeout`).
Otherwise the time-out comes unannounced: `ClientSessions.AlertMissed` is an input with packets too far
apart, `ClientSessions.AlertLostToMap` one with regular packets and then a weather map, after which the
session is in CONNECTED.

## Limits that no caller reaches

- The comment on the retry stride promises unique candidates (client/client_utils.cpp:45). That holds
  exactly where the 32-bit product does not wrap (`ClientUtils.StrideIsFullCycle`);
  `ClientUtils.FirstCollision` is where it first fails. The client passes salts 0 to 7.
- The chunk loop's 32-bit offset (server/ground_server.cpp:231) never reaches a size above 2^32 - 4096
  (`GroundServers.ChunkLoopEnds`, `GroundServers.EndlessLoop`). The generated map has
  54 + 3 * 1024 * 1024 bytes.

## Model

| member | source | states |
|---|---|---|
| TableTheorems.TableAlwaysSound | server/ground_server.cpp:398-538 | At every step of every interleaving, so at every loop head of every run: each session is pending, connected or in telemetry; it has an identifier exactly when it is verified, and then a valid one; its key is its socket; no two sessions share an identifier |
| TableTheorems.DashboardAlwaysAgrees | server/ground_server.cpp:103-113 | At every step the dashboard shows each named live session with its own state, telemetry and validity as connected; shows everybody else with the telemetry of the last session they had, as DISCONNECTED and not connected; files each entry under its own name; and forgets nobody |
| TableTheorems.TransitionsAlwaysLegal | server/ground_server.cpp:163-194 | At every step no session, live or gone, was ever refused a transition; each step of its path is one of the thirteen edges of the diagram or stays; FAULT is followed at once by DISCONNECTED and nothing else; the two causes that report an illegal transition never reach the black box |
| TableTheorems.SessionsAreConserved | server/ground_server.cpp:383-538 | At every step accepted = live + rejected + disconnected + faulted, the black box has one line per faulted session, and whoever was rejected never had an identity and got at most one HANDSHAKE_FAIL |
| TableTheorems.CommandsFollowVerification | server/ground_server.cpp:197-304 | At every step the bytes sent to a live peer are one ACK echoing its own sequence number and then weather maps numbered 1, 2, 3, ... modulo 2^32 with right size, checksum and identifier; nothing is sent before the ACK |
| TableTheorems.LastWordsFollowVerification | server/ground_server.cpp:282-304 | What a session that has ended was sent whole: nothing, or one HANDSHAKE_FAIL to a peer without a name, or one ACK and then weather maps and at the very end perhaps a DISCONNECT, numbered 1, 2, 3, ... without gap or repeat; and on the wire nothing more than a proper beginning of the packet due next |
| TableTheorems.FramingIsKept | server/ground_server.cpp:253-338 | At every step: if what arrived is the beginning of any sequence of whole packets, the server has read exactly the first of them and its next byte is the first byte of the next, the payload-less handshake path included |
| TableTheorems.OthersUntouched | server/ground_server.cpp:519-531 | Serving one socket changes no other connection |
| TableTheorems.SweepIsExact | server/ground_server.cpp:444-459 | The sweep removes exactly the sessions timed out at `now`, in ascending order, with one fault line each that names where they were, and leaves the rest as they were |
| TableTheorems.RequestsActOnce | server/ground_server.cpp:115-127 | A consumed operator request does nothing when looked for again |
| TableTheorems.OperatorIsHeard | server/ground_server.cpp:115-127 | What the operator asks for is what the server will look for, and nothing else is touched |
| TableTheorems.SweepSelects | server/server_dashboard_sync.cpp:27-29 | After a sweep somebody is selected if there was anybody to select, and a selection is not moved |
| TableTheorems.WeatherRequestIsAddressed | server/ground_server.cpp:401-414 | A weather request sends one map with the next number to the one live session that has the identifier, or faults that one; if nobody has it only the request goes |
| TableTheorems.DisconnectRequestIsAddressed | server/ground_server.cpp:416-442 | A disconnect request removes the one live session that has the identifier, after a DISCONNECT with its next number or through a fault; if nobody has it only the request goes |
| TableTheorems.SendOutcome | server/ground_server.cpp:187-251 | A weather map is either sent whole, with the next number, from a session that ends in CONNECTED, or the session is faulted |
| TableTheorems.TransferOutcome | server/ground_server.cpp:218-251 | The send half of the above, from LARGE_FILE_TRANSFER |
| TableTheorems.DismissOutcome | server/ground_server.cpp:425-438 | A dismissed session gets exactly one DISCONNECT and no fault line, or exactly one fault line and no whole DISCONNECT |
| TableTheorems.ExpireAllExact | server/ground_server.cpp:452-459 | Removing the collected keys one by one removes each exactly once and nothing else |
| TableTheorems.LateKeysDistinct | server/ground_server.cpp:444-451 | The collected keys are in ascending order, so none is collected twice |
| TableTheorems.BoxCounts | server/ground_server.cpp:163-177 | The number of black-box lines is the number of faulted sessions |
| TableTheorems.ExitsPartition | server/ground_server.cpp:383-391 | Every session that left did so in exactly one of three ways |
| TableTheorems.ReadIsPrefix | server/ground_server.cpp:314-338 | A reader that stands on a packet boundary has read a prefix of whatever was written |
| TableInvariants.ProcessEffect | server/ground_server.cpp:307-381 | Whatever bytes come, one turn keeps the session invariant or ends it properly, and its many dashboard updates amount to one of the final session |
| TableInvariants.HandshakeEffect | server/ground_server.cpp:270-305 | The same for a handshake: an identifier is taken only if no one else has it |
| TableInvariants.ReceivePacketEffect | server/ground_server.cpp:332-343 | The same for a packet of a verified session, from right after its header |
| TableInvariants.DispatchEffect | server/ground_server.cpp:345-380 | The same for each packet type |
| TableInvariants.SendWeatherMapEffect | server/ground_server.cpp:187-251 | The same for a weather map, also when the send fails half-way |
| TableInvariants.DismissEffect | server/ground_server.cpp:425-439 | The same for an operator's disconnect |
| TableInvariants.FaultEffect | server/ground_server.cpp:163-177 | A fault is legal from every state a handler can be in, is recorded once with the state it struck and the last client sequence, and leaves the dashboard showing the session as gone |
| TableRuns.SettleInv | server/ground_server.cpp:383-391 | Storing or removing one session after its turn keeps the invariant of the whole table |
| TableRuns.SettleUnique | server/server_session_logic.cpp:21-34 | After a turn identifiers are still unique, because the check looks at every other session |
| TableRuns.SettleBoard | server/server_dashboard_sync.cpp:10-30 | After a turn the dashboard is still exactly the function of live sessions and archive that it is meant to be |
| TableRuns.RefreshKeeps | server/ground_server.cpp:446-447 | The periodic refresh finds nothing to change on the dashboard, except to select someone if nobody is selected |
| TableRuns.OwnerIsVerified | server/ground_server.cpp:405-408 | Whoever an operator request names is verified, so no request is ever ignored for that reason |
| TableRuns.IterateInv | server/ground_server.cpp:400-532 | One pass through the loop keeps the invariant |
| TableRuns.EveryRun | server/ground_server.cpp:393-538 | Every state reachable at the loop head satisfies the invariant |
| ServerSteps.IterateIsSteps | server/ground_server.cpp:400-532 | A pass through the loop is a sequence of single steps, and the round settles which: the weather request; unless that cost a session, the disconnect request; unless that did, exactly one sweep; unless the server was stopped by then, one accept and one serving for each polled ready socket, in ascending order, up to the one at which the batch was broken off |
| ServerSteps.RunIsSteps | server/ground_server.cpp:393-538 | Every run is one of the interleavings of single steps |
| ServerSteps.EveryStep | server/ground_server.cpp:400-532 | The invariant of table, dashboard and black box holds at every step boundary of every interleaving, each step with its own reading of the clock |
| SessionLives.ExecuteExtends | server/ground_server.cpp:383-391 | A session that left never changes again |
| SessionLives.StepContinues | server/ground_server.cpp:290-291 | From step to step a live session keeps its identifier once it has one, and what was sent to it and read from it only grows |
| SessionLives.ProcessContinues | server/client_session.cpp:97-104 | A turn that keeps its session sets its packet clock to the time of the turn and rewrites nothing it has sent or read |
| SessionLives.NeverDegradedAndTimedOut | server/client_session.cpp:59-114 | Under a clock that never runs backwards, in every interleaving, no live session is ever degraded and timed out at once |
| SessionLives.TimersAlwaysInOrder | server/client_session.cpp:49-57 | In every interleaving the telemetry clock of a live session is never ahead of its packet clock, nor that ahead of the time |
| TimeOuts.PassExpires | server/ground_server.cpp:444-459 | A pass that no request cuts short takes every session whose time is up out of the table, whatever its batch serves and whoever it accepts |
| TimeOuts.SilentIsSwept | server/ground_server.cpp:444-459 | A connection that is never served is swept away exactly by a sweep that comes 5 s or more after it was accepted, with a line that blames the time-out |
| TimeOuts.SilentIsLeftAlone | server/ground_server.cpp:400-532 | Until then nothing that happens to others changes anything about it |
| TurnOutcomes.VerifiedFate | server/ground_server.cpp:332-380 | Exactly which bytes keep a verified session (an intact telemetry packet of 20 bytes, or an intact empty map request that can be answered), which let it leave in peace (an intact DISCONNECT of any size), and that all others fault it |
| TurnOutcomes.PendingFate | server/ground_server.cpp:270-305 | Exactly which bytes admit a pending session (type 1, no payload, a field that reads AC-, three digits, NUL, and an identifier not in use), which turn it away and which fault it; with an ACK or a FAIL that carries the field and number of the request |
| TurnOutcomes.ValidIdsAre | server/server_utils.cpp:7-10 | The valid identifiers are AC-000 to AC-999 and no others |
| TurnOutcomes.ValidFieldsAre | server/server_session_logic.cpp:36-39 | Which sixteen bytes name a valid aircraft |
| TurnOutcomes.VerifiedBlame | server/ground_server.cpp:314-380 | Which cause, state and sequence number the black box gets for each way a verified session can fail |
| TurnOutcomes.SendingBlame | server/ground_server.cpp:187-238 | The same for the weather map: missing, unreadable, header lost, chunk lost |
| TurnOutcomes.PendingBlame | server/ground_server.cpp:294-323 | The same for a pending session |
| TurnOutcomes.DismissalBlame | server/ground_server.cpp:436-438 | The same for a disconnect that cannot be sent |
| TurnOutcomes.TelemetryIsTaken | server/ground_server.cpp:346-362 | Telemetry that is taken is kept as it came, and its interval runs from the telemetry before it |
| TurnOutcomes.MapKeptExactly | server/ground_server.cpp:187-251 | A map request is survived exactly when the file is there and all of header and file fit the peer's window |
| TurnOutcomes.DispatchExactly | server/ground_server.cpp:345-380 | Which intact packets keep a session, and that DISCONNECT alone ends it without a fault |
| TurnOutcomes.HeadOf | server/ground_server.cpp:314-318 | A whole packet heads a stream exactly when the 29 bytes and the payload they announce are there |
| ConformingRuns.ConformingIsNeverFaulted | server/ground_server.cpp:307-381 | Under every interleaving of steps, network, operator and other clients: as long as the session of a client that sends one handshake, then telemetry, map requests and a DISCONNECT, lives, it has read exactly one packet of the stream for each time it was served and is in the state due to the last packet or map. If it no longer lives it left without a fault: sent away if the operator dismissed it, and otherwise with everything up to its DISCONNECT read. Assumed are its stream on its connection, no time-out, readable maps, room to send, and a free identifier at its handshake |
| ConformingRuns.ConformingIsHeard | server/ground_server.cpp:307-381 | Served as often as it has packets to be heard, such a client has had all of them read in order, and after a goodbye it is gone; unless the operator dismissed it |
| ConformingRuns.SoloRun | server/ground_server.cpp:307-381 | For every such stream that has arrived there is a run that meets the assumptions and serves all there is to be heard |
| ConformingRuns.BenignStep | server/ground_server.cpp:400-532 | One step: the session reads one more packet if it was served and none if not, and changes state as due; or it ends unharmed, by being sent away if the step dismisses it, else by being served its goodbye |
| ConformingRuns.HealthyMeans | server/ground_server.cpp:290-303 | While alive the session is unfaulted, has read a prefix of the stream, and once it read the handshake carries the client's own identifier and has sent its ACK |
| ConformingRuns.AcceptedIsHealthy | server/ground_server.cpp:497-507 | A connection just accepted is in that position, whatever its client is going to write |
| ConformingRuns.StillWaiting | server/ground_server.cpp:512-531 | Until it is first served, a connection that is not timed out waits on, pending, whatever else happens |
| ConformingRuns.RequestWaits | server/ground_server.cpp:464-531 | From accepting to serving, however many steps lie between, as long as none times the newcomer out: the request, once it is in, is at the head of a pending session |
| ConformingClients.PacketIsServed | server/ground_server.cpp:307-381 | Each packet of such a client is read whole from the head of its stream, adds nothing to the black box and leaves the expected state; a DISCONNECT lets the session go |
| ConformingClients.ProcessIsDispatch | server/ground_server.cpp:332-345 | A verified session that finds a sound packet at the head of its stream acts on exactly that packet, whatever follows it |
| ConformingClients.DispatchConforming | server/ground_server.cpp:345-376 | What each kind of packet does to the state of a verified session |
| ConformingClients.MapGoesOut | server/ground_server.cpp:187-251 | A map that is there and fits is sent without fault, and the session ends in CONNECTED |
| ConformingClients.ConformingIsWellFormed | client/aircraft_client.cpp:198 | Every packet the client builds announces exactly the payload that follows it |
| Connecting.HandshakeIsAnswered | server/ground_server.cpp:270-305 | Whenever the server comes to serve a valid request, it admits it exactly when no live session has the identifier at that moment; either way it answers by one packet and nothing else, disturbs nobody and faults nobody |
| Connecting.WireKinds | common/packet.h:8-15 | The type byte, length, sizes, checksum and numbers of each packet a client builds |
| Connecting.AttemptDecides | client/aircraft_client.cpp:183-239 | What each attempt makes of the client, by its socket, its route, its room and the bytes that come back |
| Connecting.FirstClaimWins | server/server_session_logic.cpp:21-39 | Of two pending sessions that claim one identifier in the same batch the first served gets it and the second is turned away at its turn, whoever else is served in between; neither is faulted |
| Connecting.RequestIsServed | server/ground_server.cpp:270-305 | What a pending session does with a request at the head of its stream |
| Connecting.AutoConnect | client/aircraft_client.cpp:183-239 | With an automatic identifier the client is admitted exactly when, at one of its eight attempts, the identifier tried is free when the server serves it, and then at the first such attempt, both ends agreeing on it |
| Connecting.ExplicitConnect | client/aircraft_client.cpp:180-239 | An explicit identifier is tried once and works exactly when nobody live has it when the server serves it |
| Connecting.FirstConnectSucceeds | client/aircraft_client.cpp:179-245 | A first connection while at most seven identifiers are held always succeeds within eight attempts, whatever else happens at the server before, between and during them, and the server's session carries the client's final identifier |
| Connecting.ReconnectSucceeds | client/aircraft_client.cpp:224-232 | A later connection starts from the last identifier used and can count on seven fresh candidates only: it always succeeds while at most six are held |
| Connecting.AnswerDecides | client/aircraft_client.cpp:206-218 | The 29 bytes that come back decode to ACK if the identifier is free and to FAIL if it is not |
| Connecting.StillTrying | client/aircraft_client.cpp:224-232 | Refused attempts lead to the next one and to nothing else |
| Connecting.NeverJoins | client/aircraft_client.cpp:234-244 | If all eight are refused the client gives up, disconnected, with its socket closed and its last identifier |
| AircraftClients.EveryMapArrives | client/aircraft_client.cpp:331-384 | At every step of every interleaving, for a session that is live or has ended: a client that has read the first packets the server sent it, the next being a weather map, receives the map that was on the server's disk, with the right number and a checksum that passes |
| AircraftClients.WeatherMapArrives | server/ground_server.cpp:218-238 | The bytes written for a map, decoded and received at the other end, give back the file and stop at the next packet |
| AircraftClients.ArrivesExactly | client/aircraft_client.cpp:344-384 | Something is saved exactly if all announced bytes come and sum up to the checksum of the header |
| AircraftClients.DamagedMapIsRefused | client/aircraft_client.cpp:377-384 | A map of which one byte was changed on the way, or that was cut short, is not saved |
| AircraftClients.AircraftClient.ReceiveLargeFile | client/aircraft_client.cpp:331-402 | The chunk loop, for any way the network cuts the bytes: the file is kept exactly if it came whole with the right checksum, else FAULT; it reads its own packet and no more; and if another thread clears `running` at any point it stops and keeps nothing |
| AircraftClients.AircraftClient.ConnectSession | client/aircraft_client.cpp:179-245 | The retry loop, on real sockets: identifier, state, socket and sequence number as the recursive account of the attempts says; exactly one handshake for each attempt that got a connection, under the identifiers tried, in order, the last under the one it keeps; afterwards the handshake is all that is on the wire, or every socket it opened is closed |
| AircraftClients.AircraftClient.Converse | client/aircraft_client.cpp:247-328 | What the client puts on the wire in a session, by telemetry turns and map requests in any order, a goodbye, and perhaps a sample that slips out after it, is a conforming stream, numbered 1, 2, 3, ... as one thread at a time draws the numbers, followed by at most the beginning of one packet more of it |
| AircraftClients.SendKeepsSound | client/aircraft_client.cpp:168-177 | Every packet of the protocol keeps the wire so, however much of it goes out |
| AircraftClients.WireIsConforming | client/aircraft_client.cpp:168-177 | Such a wire is the beginning of a conforming stream, as the results on the server ask |
| AircraftClients.AircraftClient.SendPacketLocked | client/aircraft_client.cpp:168-177 | Header and payload go out contiguously as one packet, or a prefix of it does and the call fails |
| AircraftClients.AircraftClient.RequestWeatherMap | client/aircraft_client.cpp:277-287 | One empty LARGE_FILE packet with the next number; FAULT if it could not be sent |
| AircraftClients.AircraftClient.SendTelemetry | client/aircraft_client.cpp:289-328 | One telemetry packet with the next number and the checksum of its 20 bytes; FAULT if it could not be sent |
| AircraftClients.AircraftClient.DisconnectSession | client/aircraft_client.cpp:247-268 | The first call says goodbye and keeps the socket, the second closes it |
| AircraftClients.MapOnRecord | server/ground_server.cpp:218-224 | Every weather map ever sent whole carries the number of its place in the stream, and what was sent whole is how the bytes on the wire begin |
| ClientUtils.StrideIsFullCycle | client/client_utils.cpp:44-50 | 999 consecutive salts give every identifier exactly once if and only if the 32-bit product does not wrap between them |
| ClientUtils.SmallSaltsNeverWrap | client/client_utils.cpp:44-50 | Which is so up to salt 7279603 for every base |
| ClientUtils.CollisionAcrossEpochs | client/client_utils.cpp:45-46 | Where it wraps, salts 89 apart give the same identifier |
| ClientUtils.FirstCollision | client/client_utils.cpp:45-46 | A concrete input: base 998, salts 7279515 and 7279604 |
| ClientUtils.SameNumber | client/client_utils.cpp:45-46 | Without a wrap two salts agree exactly when they differ by a multiple of 999 |
| ClientUtils.StrideInverse | client/client_utils.cpp:45 | The stride is coprime with 999 |
| ClientUtils.AutoIdsAreValid | client/client_utils.cpp:16-19 | Every automatic identifier passes the validators and survives the header field |
| ClientUtils.IdsInOrder | client/client_utils.cpp:47-49 | Identifiers stand in the order of their numbers, from AC-001 to AC-999 |
| ClientUtils.CandidateSteps | client/client_utils.cpp:44-46 | Salt 0 gives the base plus one, and each salt steps on by 590 around 999 |
| ClientUtils.IdsDiffer | client/client_utils.cpp:47-49 | Different numbers give different identifiers |
| ClientUtils.SomeCandidateIsFree | client/client_utils.cpp:44-50 | n attempts cannot all hit fewer than n held identifiers |
| ClientUtils.FirstIdsDistinct | client/client_utils.cpp:44-50 | The first attempts try as many different identifiers as there are attempts |
| Packets.HeaderRoundTrip | common/packet.h:17-25 | Decoding inverts encoding of the 29 bytes |
| Packets.HeaderLayout | common/packet.h:17-25 | Where each field lies in the 29 bytes, low byte first |
| Packets.HeaderBytesRoundTrip | common/packet.h:17-25 | Encoding inverts decoding: any 29 bytes are one header |
| Packets.LittleEndianRoundTrip | common/packet.h:21-23 | The four-byte fields, both ways |
| Packets.BoundariesAgree | common/packet.h:17-25 | Two parses of one stream that start on a boundary agree on every packet |
| Packets.StreamDeterminesPackets | client/aircraft_client.cpp:168-177 | A stream determines the packets in it and their order, whatever the order the lock was taken in |
| Packets.SameFirstPacket | common/packet.h:17-25 | No packet is a proper prefix of another |
| Packets.EncodeAllFront | common/packet.h:17-25 | A stream can be taken apart from its front as it was put together at its end |
| Packets.IdRoundTrip | common/packet.h:93-115 | An identifier survives the field exactly when it has at most 15 characters and no NUL |
| Packets.IdFieldBytes | common/packet.h:109-110 | Every byte of the field: the first 15 characters at most, and zero from there on |
| Packets.ExtractAircraftId | common/packet.h:93-99 | The scan returns the characters before the first NUL, or all 16 |
| Packets.BuildHeader | common/packet.h:101-115 | The zero-filled, truncated copy into the field |
| Packets.ComputeChecksum | common/packet.h:67-73 | The loop computes the byte sum modulo 2^32 |
| Packets.ChecksumAppend | common/packet.h:67-73 | The checksum is additive over concatenation |
| Packets.ChecksumExact | common/packet.h:67-73 | It is each value times how often it occurs, added up, while 255 * size < 2^32 |
| Packets.ChecksumCounts | common/packet.h:67-73 | It is that modulo 2^32 for any size; nothing gives 0 and one byte its own value |
| Packets.SumIsTally | common/packet.h:67-73 | Adding from front to back is adding up by value |
| Packets.ChecksumDetectsByte | common/packet.h:67-73 | Any change of one byte, at any length, changes it |
| SocketUtils.Sockets.SendAll | common/socket_utils.h:85-100 | However `send` cuts the data, all of it goes out in order or the peer stopped taking bytes |
| SocketUtils.Sockets.RecvAll | common/socket_utils.h:102-117 | However `recv` cuts the data, exactly the next `size` bytes are read in order, or the peer has sent fewer |
| SocketUtils.Sockets.Recv | common/socket_utils.h:110 | The oracle: any positive part of what will come, 0 or -1 after it |
| SocketUtils.Sockets.Send | common/socket_utils.h:93 | The oracle: any positive part while the peer takes bytes, 0 or -1 after it |
| SocketUtils.WriteAppend | common/socket_utils.h:85-100 | Sending in pieces is sending the whole |
| SocketUtils.WriteLaws | common/socket_utils.h:85-100 | Writing puts out a prefix of the data after what was there, all of it exactly if there is room, and touches nothing else |
| SocketUtils.ReadLaws | common/socket_utils.h:102-117 | Reading takes the next bytes and touches nothing else |
| StateMachines.StateMachine.Move | server/state_machine.cpp:9-17 | An allowed transition is taken, any other is refused and leaves the state |
| StateMachines.AllowedAreEdges | server/state_machine.cpp:37-58 | The thirteen edges of the diagram, and staying, are all that is allowed |
| StateMachines.TransitionFollowsEdges | server/state_machine.cpp:9-17 | A transition along an edge is taken, any other leaves the state |
| ClientSessions.AlertPrecedesTimeout | server/client_session.cpp:59-70 | For every session: there is an instant of alert if and only if it is in TELEMETRY, has had telemetry, and its last interval was under 1500 ms; and an alert always comes before the time-out |
| ClientSessions.AlertMissed | server/client_session.cpp:59-70 | A concrete input: two telemetry packets 1.6 s apart, then silence; no instant is degraded and the session times out |
| ClientSessions.AlertLostToMap | server/client_session.cpp:59-70 | Another: telemetry 1 s apart, a weather map, then silence; no instant is degraded and the session times out |
| ClientSessions.TelemetryPhases | server/client_session.cpp:59-114 | While telemetry was the last thing heard, the three phases follow at bounds exact to the nanosecond despite the two truncations |
| ClientSessions.TimesOutExactly | server/client_session.cpp:106-114 | In every state: 3 s of silence in TELEMETRY, 5 s in any other that is not over, to the nanosecond |
| ClientSessions.DegradesExactly | server/client_session.cpp:59-70 | From 1.5 s or twice the last interval, whichever is later, to 3 s |
| ClientSessions.IntervalIsGap | server/client_session.cpp:49-57 | The interval is the time between the last two telemetry packets, whatever was heard between them |
| ClientSessions.DegradedIsNotTimedOut | server/client_session.cpp:59-114 | A degraded session is never timed out |
| ClientSessions.PacketClockLeads | server/client_session.cpp:49-57 | After any series of packets the telemetry clock is not ahead of the packet clock |
| ClientSessions.ClientSession.UpdateTelemetry | server/client_session.cpp:49-57 | The new value of the session after a telemetry packet |
| ClientSessions.ClientSession.ConsumeServerSequence | server/client_session.cpp:89-91 | Returns the number and wraps at 2^32 |
| ClientSessions.ClientSession.MarkPacketReceived | server/client_session.cpp:97-100 | The new value of the session after a header |
| ClientSessions.ClientSession.IsTimedOut | server/client_session.cpp:106-114 | Never in DISCONNECTED or FAULT; else three or five truncated seconds |
| Dashboards.DashboardState.SyncAircraft | server/server_dashboard_sync.cpp:10-30 | The entry of a named session is overwritten whole; the selection is set if there was none |
| Dashboards.SelectionIsFilled | server/server_dashboard_sync.cpp:27-29 | An empty selection is filled, and no other is moved |
| Dashboards.DashboardState.AppendLogEntry | server/server_dashboard_sync.cpp:3-8 | Pushes at the front and keeps twenty |
| Dashboards.LogShowsLatest | server/server_dashboard_sync.cpp:3-8 | After any entries the log is the latest twenty, newest first |
| Dashboards.DashboardState.SelectedAircraft | server/dashboard_state.cpp:5-23 | Finds an entry exactly when there is one, and leaves its key selected |
| Dashboards.RepairIsStable | server/dashboard_state.cpp:5-23 | A selection that names an aircraft is not moved, any other becomes the first aircraft, and a repaired one needs no more repair |
| Dashboards.MoveSelection | server/dashboard_state.cpp:49-74 | The iterator moves reach the neighbour around the circle, or the first aircraft if nothing valid was selected |
| Dashboards.DashboardState.SelectRelative | server/dashboard_state.cpp:49-74 | The same on the dashboard, in map order |
| Dashboards.CyclingIsInvertible | server/dashboard_state.cpp:61-71 | Next and previous undo each other |
| Dashboards.DirectionsAreTwo | server/dashboard_state.cpp:49-71 | Any positive direction is next, any other previous, and without a valid selection both give the first |
| Dashboards.CyclingVisitsAll | server/dashboard_state.cpp:61-71 | n steps visit each of n aircraft exactly once and return |
| GroundServers.ServerThread | server/ground_server.cpp:393-538 | The loop, on real objects, computes exactly the runs that the theorems are about, and then every socket is closed |
| GroundServers.RunLoop | server/ground_server.cpp:398-532 | The loop alone |
| GroundServers.GroundServer.CloseAll | server/ground_server.cpp:534-537 | No socket stays open after the loop |
| GroundServers.GroundServer.Iterate | server/ground_server.cpp:400-532 | One pass on the session map, sockets, dashboard and logger computes one pass of the specification |
| GroundServers.GroundServer.ProcessReadableSession | server/ground_server.cpp:307-381 | Refines the turn of one readable session |
| GroundServers.GroundServer.ProcessHandshake | server/ground_server.cpp:270-305 | Refines the handshake |
| GroundServers.GroundServer.ReceivePayload | server/ground_server.cpp:253-343 | Refines payload and checksum |
| GroundServers.GroundServer.DispatchPacket | server/ground_server.cpp:345-380 | Refines the switch over packet types |
| GroundServers.GroundServer.HandleFault | server/ground_server.cpp:163-177 | Refines the fault: black box, two transitions, two dashboard updates |
| GroundServers.GroundServer.SendPacket | server/ground_server.cpp:129-137 | All of header and payload, or failure |
| GroundServers.GroundServer.SendChunks | server/ground_server.cpp:231-238 | The chunk loop with its 32-bit offset ends and sends exactly the file, for every size up to 2^32 - 4096 |
| GroundServers.ChunkLoopEnds | server/ground_server.cpp:231 | The offset ever reaches the size if and only if the size is at most 2^32 - 4096 |
| GroundServers.EndlessLoop | server/ground_server.cpp:231 | A concrete input: for a size of 2^32 - 1 the offset goes round for ever below it |
| GroundServers.GroundServer.SendFile | server/ground_server.cpp:226-238 | Header then chunks are one packet on the wire, and which of the two failed |
| GroundServers.GroundServer.LoadMap | server/ground_server.cpp:197-224 | The header announces the loaded bytes and takes the next sequence number |
| GroundServers.GroundServer.SendWeatherMap | server/ground_server.cpp:187-251 | Refines the weather-map send |
| GroundServers.GroundServer.Transfer | server/ground_server.cpp:210-251 | Refines its second half |
| GroundServers.GroundServer.AircraftIdInUse | server/server_session_logic.cpp:21-34 | True exactly if another session that is not DISCONNECTED has the identifier |
| GroundServers.GroundServer.RemoveSession | server/ground_server.cpp:383-391 | Closes the socket, forgets the session and leaves every other as it was |
| GroundServers.GroundServer.ServeSession | server/ground_server.cpp:519-531 | A turn and, if the handler says so, the removal |
| GroundServers.GroundServer.FindSessionByAircraftId | server/ground_server.cpp:261-268 | The first session in key order with the identifier, or none |
| GroundServers.GroundServer.HandleWeatherRequest | server/ground_server.cpp:401-414 | Refines the weather stage and its `continue`s |
| GroundServers.GroundServer.HandleDisconnectRequest | server/ground_server.cpp:416-442 | Refines the disconnect stage and its `continue`s |
| GroundServers.GroundServer.CollectTimedOut | server/ground_server.cpp:444-451 | Refreshes every entry and collects exactly the sessions timed out |
| GroundServers.GroundServer.ExpireSessions | server/ground_server.cpp:452-459 | Faults and removes each of them |
| GroundServers.GroundServer.AcceptConnection | server/ground_server.cpp:497-510 | Adds one pending session under a fresh descriptor, or nothing |
| GroundServers.GroundServer.ServeReady | server/ground_server.cpp:512-531 | Serves each ready key once, skipping those that are gone, and breaks off where `running` was cleared |
| WeatherMaps.AircraftSeed | server/weather_map.cpp:51-58 | The loop computes the recursive seed |
| WeatherMaps.KnownSeeds | server/weather_map.cpp:51-58 | The published FNV-1a values of the empty string and of "a" |
| WeatherMaps.StirUndone | server/weather_map.cpp:54-55 | XOR first and multiplication after it: undone in reverse they give the seed back |
| WeatherMaps.XorBits | server/weather_map.cpp:54 | The XOR of numbers has a bit set exactly where they differ |
| WeatherMaps.MixUndone | server/weather_map.cpp:90 | Taking the aircraft's seed out of the mix leaves the multiplied number |
| WeatherMaps.OneCharacterSeparates | server/weather_map.cpp:51-58 | Identifiers of equal length that differ in one character have different seeds |
| WeatherMaps.SeedFromInjective | server/weather_map.cpp:51-58 | A common suffix neither merges nor splits seeds |
| WeatherMaps.TransfersSeparate | server/weather_map.cpp:90 | For one aircraft the mixed seed is injective in the transfer number |
| WeatherMaps.AircraftSeparate | server/weather_map.cpp:90 | For one transfer number the mix keeps different seeds different |
| WeatherMaps.PrimeIsInvertible | server/weather_map.cpp:55 | Multiplying by the prime modulo 2^32 can be undone |
| WeatherMaps.MultiplierIsInvertible | server/weather_map.cpp:90 | So can multiplying by the sequence multiplier |

## Left out

- Connecting.FirstConnectSucceeds: each attempt that is made is assumed to reach the server and to be served, and its answer to arrive; between accepting and serving, anything may happen that does not time the newcomer out (`ConformingRuns.RequestWaits`).
- ConformingRuns.ConformingIsNeverFaulted: asks that the next packet arrives whole when its session is served; a `recv` that waits for bytes that never come is a session without a next step.
- AircraftClients.AircraftClient.ConnectSession: which descriptors, routes and answers the attempts meet is a parameter.
- SocketUtils.Sockets.Recv: a connection on which no more will come gives 0 or -1; waiting for more is not told apart from having it.
- One time per turn: the several `touch` calls of one turn see the same instant, of which only the last is kept anyway. Different turns have different instants.
- `select` that fails or times out is a pass without visits.
- The interleaving of the client's telemetry, receiver and console threads within one call: its state has no guard and its counter no lock (client/aircraft_client.cpp:278-279, 300-307), so wire order need not follow sequence order; a conforming client may use any numbers, and may send after its goodbye.
- Telemetry is 20 opaque bytes; floating point and the flight simulation are not part of this model.
- The pixels of the weather map: floating point and an addition that may overflow (server/weather_map.cpp:136); the file is whatever comes back from disk, at most 2^32 - 4096 bytes.
- A file that cannot be held in memory counts as unreadable, and the allocation for an announced payload always succeeds.
- Alert texts, log lines, timestamps and file names; which lines the server appends to the dashboard log (the log itself is modelled), and packet lines in the log files.
- A packet that was cut off when its session ended is not in the session's history; what there is of it is bounded by `TableTheorems.LastWordsFollowVerification`.
- The host is little-endian, as the programs assume when they send structures as they are.
- The client shutting a socket down without closing it (client/aircraft_client.cpp:261, 311, 362, 382).
- Option parsing, string labels, windows, signal handling, `bind`, `listen`, name resolution.
- `receiverLoop` (client/aircraft_client.cpp:404-445): its branches only choose between what is modelled above.

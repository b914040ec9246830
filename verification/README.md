# udp2raw-ng: a verified model

udp2raw-ng tunnels UDP datagrams through one encrypted session that looks like TCP on the wire. A client
engine accepts datagrams from local peers, gives each peer a conversation, and seals payloads into numbered
records; a server engine opens them and hands each conversation its own upstream socket. A handshake with a
pre-shared key, an optional cookie and a rate limit sets sessions up; a client that has heard nothing for too long
reconnects, and resumption credentials let it take its conversations along to the new session.

The project models both engines, the replay window, the record layer, the codecs and transcripts, the FakeTCP
path and the server's route table, and proves what they promise, for all inputs and all runs.

## How it is laid out

| files | what they hold |
|---|---|
| `Base`, `Protocol`, `Config`, `Messages`, `Sessions` | constants, configuration, messages, sealing, opening and conversation handles |
| `ClientSpec`, `ServerSpec` | one event of each engine as a function of state, event and platform draws |
| `ClientEngine`, `ServerEngine`, `ConversationHandles` | the engines and the handle table as objects with fields, methods and loops, equal to those functions |
| `ClientInvariants`, `ClientSending`, `ClientSteps`, `ClientAck`, `ClientTheorems` | what every client event keeps and sends |
| `ClientConservation`, `ClientTimers`, `ClientWindows`, `ClientHandshakes` | datagrams first in, first out; handshake deadlines; the client's window; where its hello and session come from |
| `ServerInvariants`, `ServerSteps`, `ServerEffects`, `ServerWindows`, `ServerResumption`, `ServerHandshakes` | what every server event keeps, sends and delivers; hand-over of conversations; when a refresh panics; where sessions and credentials come from |
| `Tunnel`, `TunnelInvariant`, `TunnelLogs`, `TunnelClient`, `TunnelServer`, `TunnelTheorems` | both engines over a hostile network, and the theorems about whole runs |
| `TunnelDelivery`, `TunnelOrder`, `TunnelGuarantees`, `TunnelHandshake`, `TunnelPanics` | at-most-once, order, both directions of agreement, and survival of the server over whole runs |
| `TunnelExample`, `TunnelLoss` | a run that handshakes, with a retry where a cookie is required, delivers a datagram, resumes, and ends in the server's panic |
| `RateLimit`, `RateLimitTheorems`, `RateLimitRuns` | the token bucket, its eviction, and the bound in runs of the server |
| `ReplaySpec`, `ReplayWindow` | the window as a set of numbers and as packed 64-bit words |
| `Bytes`, `Wire`, `HandshakeCodec`, `Transcripts`, `Cookies`, `RecordLayer` | byte layouts, signed texts, cookies and credentials, sealing and opening of bytes |
| `FakeTcpSpec`, `FakeTcpOrder`, `FakeTcpTheorems`, `FakeTcpWrap`, `FakeTcpLoss`, `FakeTcpPeers`, `FakeTcpTransport` | the FakeTCP path: specification, runs, ordered delivery and its exact limit, frames that block a line, hosts with many peers, the transport object |
| `Routes`, `RouteTheorems`, `RouteTasks`, `RouteExample`, `RouteTable` | the route table: specification, agreement with the engine, how long a receiving task lives, a run in which a reply ends one, the object |

Engines are specified as functions because the theorems quantify over states and runs; each engine object is proved
equal to its function, method by method, so that the theorems hold of the object.

## What is assumed

- Time is a natural number of nanoseconds. Only the rate-limit theorems assume that it does not go back from one event
  to the next, and that no two readings are as far apart as the largest duration.
- The configuration passes `EngineConfig::validate`, and the client's `max_conversations` is below 2^32 - 1.
- Random session identifiers, conversation identifiers and client nonces never repeat in a run. The generator may
  fail at any call that draws an identifier, a nonce or a conversation.
- A hash table is visited in an arbitrary order, each entry once. The order is an input of the event.
- In the engine model HMAC, HKDF and the ciphers are ideal: tags, keys and record bodies are terms, which verify exactly
  when they were made from the same key and text. The network holds every term ever sent, may deliver any frame
  composed of those and of forged terms under keys of its own, any number of times and in any order, to either side.
  The byte-level modules prove the layouts that stand behind this: codecs are bijections, transcripts are injective and
  never collide across purposes, nonces differ, and what opens is byte for byte what was sealed.
- A panic ends the server: no later server step happens in a run.
- The main loop of the service ends when the engine refuses a frame or a socket cannot be bound or written. A
  receiving task ends, alone, when receiving fails or the engine refuses its reply.

## Where the code does not do what one would expect

- **Credential refresh can panic.** A resumed session starts with the old conversations and no handles. If a
  re-announcement record is lost and data arrives when a refresh is due, the lookup that is promised to succeed fails.
  `ServerResumption.PanicsExactly` says exactly when, `TunnelLoss.LossCrashesServer` gives a run.
- **The rate limit depends on the width of the burst.** Retention is the refill interval times the burst, cut off at
  `u32::MAX` and at the largest duration. `RateLimitTheorems.RateBoundExact` and `EvictionUnobservable` hold exactly
  when the burst is at most `u32::MAX` or the clock never gets that far; the second cut never matters.
- **A refused reply silences its route.** A receiving task returns when the engine refuses what it received, and nothing
  starts it again before the next resumption. `RouteTasks.TaskRunsExactly` says exactly when a task still runs,
  `RouteTasks.ReplyTakenExactly` exactly which replies are refused, and `RouteExample.ReplyEndsTask` gives a run.
- **Some sealed records can never be opened.** Under the four ciphers `seal` lets through plaintexts of 1151 to 1166
  bytes, which `open` refuses (`RecordLayer.OpenSeal`). The engines stay below, since `max_frame_payload` is bounded.
- **FakeTCP order ends at 2^32 bytes** (`FakeTcpWrap.OrderedExactly`). An empty frame never comes out
  (`FakeTcpTheorems.OrderedDelivery`).
- **Some FakeTCP frames block their line.** Frames of 65496 to 65515 bytes pass the first size check and then fail on the
  wire, after their sequence numbers are taken or after `send` has reported success
  (`FakeTcpLoss.FailedSendNumbered`, `SendSucceeds`); nothing behind them is ever delivered
  (`FakeTcpLoss.OversizedBlocks`, `FailedSendStalls`, `QueuedSendStalls`).

## Model

| member | source | states |
|---|---|---|
| TunnelTheorems.NoCrossStreaming | crates/udp2raw-ng-core/src/engine.rs:1275-1299 | In every run, whatever the network loses, repeats, reorders or forges, and across any number of resumptions: a payload delivered upstream on a conversation is that of a client datagram of the one client conversation and local peer that opened it, and a reply delivered to a local peer was sealed for a conversation this peer opened |
| TunnelTheorems.RepliesReturn | crates/udp2raw-ng-core/src/engine.rs:534-551 | In every run, a reply on a conversation reaches exactly the local peer whose payloads that conversation received |
| TunnelTheorems.HandshakeAgreement | crates/udp2raw-ng-core/src/engine.rs:440-474 | In every run, a ready client is in a session whose finish the server has accepted under the same hello, server hello, identifier and suite; whatever the client reports of a session (suite, resumed flag) the server has reported too |
| TunnelTheorems.NoncesUnique | crates/udp2raw-ng-core/src/engine.rs:604-660 | In every run, two records sent under one direction key and one packet number are the same record, across retransmitted hellos and finishes and across resumptions |
| TunnelTheorems.RunInv | crates/udp2raw-ng-core/src/engine.rs:218-1488 | Every state reachable by client and server over the network satisfies the system invariant: both engines sound, every known record made by its sealer, handles on both sides naming the same conversation, both ends of a session linked by one key |
| TunnelGuarantees.AtMostOnce | crates/udp2raw-ng-core/src/engine.rs:1357-1361 | In every run no client datagram is delivered upstream twice and no reply record is delivered to a local peer twice |
| TunnelGuarantees.DatagramsInOrder | crates/udp2raw-ng-core/src/engine.rs:792-836 | In every run the accepted datagrams are, in order of arrival, those whose fate is decided followed by those still queued, and under one session key earlier datagrams have lower packet numbers |
| TunnelGuarantees.KeysAgree | crates/udp2raw-ng-core/src/engine.rs:629-660 | In every run, when the client is ready in a session the server still has, each side authenticates what the other seals, and both agree on whether it was resumed |
| TunnelGuarantees.RunDelivery | crates/udp2raw-ng-core/src/engine.rs:409-552 | Every reachable state satisfies the delivery invariant: what was delivered is spent in the receiving windows, session identifiers are accepted once, and the queue is the tail of the arrivals |
| TunnelClient.ClientHistorySound | crates/udp2raw-ng-core/src/engine.rs:339-552 | A client event keeps the history sound: everything sent was made by its sealer, once per number, for the conversation its handle names |
| TunnelClient.ClientLogs | crates/udp2raw-ng-core/src/engine.rs:534-551 | A client event adds only deliveries to the peer that opened the conversation the reply was sealed for |
| TunnelServer.ServerHistorySound | crates/udp2raw-ng-core/src/engine.rs:1231-1398 | A server event keeps the history sound: acknowledgements, credentials and replies are new records under unused numbers, and conversations are opened by a client record |
| TunnelServer.ServerLogs | crates/udp2raw-ng-core/src/engine.rs:1275-1361 | A server event adds only deliveries of payloads from the client conversation that opened the server conversation |
| TunnelDelivery.UpsOnceKept | crates/udp2raw-ng-core/src/engine.rs:1246-1361 | A server event delivers no record that was delivered before: everything delivered stays refused by the window of its session |
| TunnelDelivery.DownsOnceKept | crates/udp2raw-ng-core/src/engine.rs:430-552 | The same for records delivered by the client |
| TunnelDelivery.SidsUniqueKept | crates/udp2raw-ng-core/src/engine.rs:1108-1135 | No session identifier is ever accepted under two different keys |
| TunnelOrder.OrderKept | crates/udp2raw-ng-core/src/engine.rs:339-407 | A client event extends the line of arrivals and its fates in order, each datagram in at most one record |
| TunnelOrder.SerialsApart | crates/udp2raw-ng-core/src/engine.rs:397-406 | No datagram goes into two records |
| TunnelLoss.DatagramArrives | crates/udp2raw-ng-core/src/engine.rs:1275-1365 | For every configuration with equal suites and room for two handshakes and two conversations, with or without the cookie requirement, there is a run of both engines that handshakes, through the retry where a cookie is required, and delivers a datagram upstream: the run-level statements are not vacuous |
| TunnelLoss.LossCrashesServer | crates/udp2raw-ng-core/src/engine.rs:1319-1331 | For the same configurations there is a run in which a record that re-announces a resumed conversation is sent and never handed to the server, and whose last step, a data record that meets the exact condition for a panic, crashes the server while that conversation has no handle; hash tables are visited completely, each entry once |
| TunnelPanics.CrashesExactly | crates/udp2raw-ng-core/src/engine.rs:1300-1338 | In every run, a server step crashes the server if and only if a panic is due on it |
| TunnelPanics.NeverResumedNeverCrashes | crates/udp2raw-ng-core/src/engine.rs:1279-1299 | A run in which no accepted handshake resumed an earlier session never loses its server |
| TunnelHandshake.AcceptedWereBegun | crates/udp2raw-ng-core/src/engine.rs:1102-1205 | In every run, every session the server has accepted is one this client has derived under the same key, hello, server hello and identifier; every session the client has derived rests on a server hello the server made for that very hello; conversations pass only to such a session, and only if its hello presents a credential the server has sealed in the session it names |
| TunnelHandshake.RunHandshake | crates/udp2raw-ng-core/src/handshake.rs:338-362 | In every reachable state every tag the network knows under a secret of the two ends is a finish of a derived session, a server hello the server made, or a credential it sealed, and so are the tags the client holds |
| ClientHandshakes.ClientStepEvolves | crates/udp2raw-ng-core/src/engine.rs:298-337 | A client event keeps the pending hello, adds the cookie of a retry that verifies, or starts one without a cookie whose credential the client holds; a session arises only from a server hello that verifies under the pending hello |
| ServerHandshakes.ServerStepBegins | crates/udp2raw-ng-core/src/engine.rs:1102-1142 | A session begins only with a finish that verifies for its pending handshake; a new pending handshake answers the event's hello and resumes only what a credential of this server in that hello names |
| ServerHandshakes.ServerStepMade | crates/udp2raw-ng-core/src/engine.rs:1308-1356 | Every credential the server seals is its own and names the very session that seals it; every retry it sends is one of its own |
| ClientTheorems.ClientStepKeeps | crates/udp2raw-ng-core/src/engine.rs:257-282 | Every client event, successful or refused, keeps the client invariant (a handshake exists exactly while handshaking; then a session exists exactly when awaiting the acknowledgement, with an empty handle table; ready has a session, idle and closed have none; the queue is empty outside handshaking and within its capacity; by_peer and by_id are inverses within max_conversations; handles allocate-only and naming live conversations) and says what the event sends: records in ascending unused numbers, each labelled with its own conversation |
| ClientTheorems.NewClientInv | crates/udp2raw-ng-core/src/engine.rs:231-247 | A new client satisfies the invariant |
| ClientTheorems.HandleRecordKeeps | crates/udp2raw-ng-core/src/engine.rs:425-552 | Acknowledgements, credentials and replies keep the client invariant; a reply goes to the peer of the conversation its handle names; a credential is stored with that conversation and its session |
| ClientTheorems.ExpireKeeps | crates/udp2raw-ng-core/src/engine.rs:676-746 | A tick keeps the client invariant: it only forgets conversations, drops queued datagrams, resends the current handshake frame or closes |
| ClientTheorems.CloseKeeps | crates/udp2raw-ng-core/src/engine.rs:855-865 | Closing a conversation removes it from both tables and the handle table and keeps the invariant |
| ClientSteps.StartKeeps | crates/udp2raw-ng-core/src/engine.rs:284-289 | Starting keeps the client invariant, and refuses outside idle without a change |
| ClientSteps.BeginReconnectKeeps | crates/udp2raw-ng-core/src/engine.rs:776-790 | A reconnect drops session and handshake, keeps every conversation, starts a handshake with an unused nonce or closes, and sends no record |
| ClientSteps.HandleRetryKeeps | crates/udp2raw-ng-core/src/engine.rs:554-585 | A retry changes only the cookie and the send times of the pending hello |
| ClientSteps.HandleServerHelloKeeps | crates/udp2raw-ng-core/src/engine.rs:587-674 | A server hello derives one session with an empty handle table, and a repeated one resends the finish without touching it |
| ClientSteps.HandleLocalKeeps | crates/udp2raw-ng-core/src/engine.rs:339-407 | A local datagram is refused, queued, dropped, or sealed for the conversation of its own peer, and keeps the invariant |
| ClientSending.SendDataGrows | crates/udp2raw-ng-core/src/engine.rs:371-406 | One datagram yields at most one record, numbered next, under the handle of its own peer's conversation; tables only grow |
| ClientSending.RebindGrows | crates/udp2raw-ng-core/src/engine.rs:475-498 | Every re-announcement after a resumption names a live conversation and presents that conversation's own credential, in ascending numbers |
| ClientSending.FlushGrows | crates/udp2raw-ng-core/src/engine.rs:792-814 | Draining the queue extends the session by records labelled with their own conversations, in ascending numbers |
| ClientAck.RebindSucceeds | crates/udp2raw-ng-core/src/engine.rs:486-497 | With room in both counters the re-announcements cannot fail half-way |
| ClientAck.AcceptAckKeeps | crates/udp2raw-ng-core/src/engine.rs:440-501 | Accepting the acknowledgement succeeds, makes the client ready with an empty queue, reports the session and keeps the invariant |
| ClientSpec.FlushHead | crates/udp2raw-ng-core/src/engine.rs:794-812 | Sending the front of the queue leaves the session ready and fresh and the queue shorter by one: nothing is re-enqueued |
| ClientSpec.Flush | crates/udp2raw-ng-core/src/engine.rs:792-814 | Flushing terminates with an empty queue and a ready session |
| ClientSpec.RebindKeeps | crates/udp2raw-ng-core/src/engine.rs:486-497 | Re-announcing changes only the sealing counter and the handle table of the session, and sends nothing but re-announcements |
| ClientConservation.ClientStepConserves | crates/udp2raw-ng-core/src/engine.rs:257-282 | Every event keeps first in, first out: decided datagrams followed by the queue are the old queue followed by the arrival (or the arrival found the queue full), and every fate shows exactly once in the reply, as one data record or one drop report |
| ClientConservation.HandleLocalConserves | crates/udp2raw-ng-core/src/engine.rs:339-407 | The same for a local datagram, including one that finds the session stale |
| ClientConservation.FlushSettles | crates/udp2raw-ng-core/src/engine.rs:792-814 | Flushing decides the whole queue front to back, each datagram as a data record or a drop report |
| ClientConservation.AcceptAckConserves | crates/udp2raw-ng-core/src/engine.rs:440-501 | The acknowledgement decides the queue without losing or inventing a datagram, even where re-announcing fails |
| ClientConservation.ExpireSettles | crates/udp2raw-ng-core/src/engine.rs:816-846 | A tick decides a prefix of the queue, or all of it when the handshake ends |
| ClientTimers.HandshakeBounded | crates/udp2raw-ng-core/src/engine.rs:676-720 | In every run the timer resends at most handshake_max_attempts - 1 frames of one handshake, and any tick at or after its start plus the timeout ends it together with its session and queue |
| ClientTimers.RunTimed | crates/udp2raw-ng-core/src/engine.rs:676-720 | In every run a pending handshake keeps its start time and has counted at least its timer retransmissions |
| ClientWindows.ClientStepWindow | crates/udp2raw-ng-core/src/engine.rs:430-443 | An event moves the client's replay window only by the frame it opens, and delivers at most that frame |
| ClientEngine.Engine.constructor | crates/udp2raw-ng-core/src/engine.rs:231-247 | A new engine is the idle client of the specification |
| ClientEngine.Engine.Offer | crates/udp2raw-ng-core/src/engine.rs:303-319 | The search yields the credential of the specification: the first held one, only if every conversation holds one from the same session |
| ClientEngine.Engine.BeginHandshake | crates/udp2raw-ng-core/src/engine.rs:298-337 | New state and frames as specified; a failing generator changes nothing |
| ClientEngine.Engine.BeginReconnect | crates/udp2raw-ng-core/src/engine.rs:776-790 | New state and actions as specified, including the close when no hello can be drawn |
| ClientEngine.Engine.HandleRetry | crates/udp2raw-ng-core/src/engine.rs:554-585 | New state and reply as specified, all refusals included |
| ClientEngine.Engine.SourceOf | crates/udp2raw-ng-core/src/engine.rs:652-659 | The search yields the session that issued the credential being resumed |
| ClientEngine.Engine.HandleServerHello | crates/udp2raw-ng-core/src/engine.rs:587-674 | New state and reply as specified: new session, resent finish, or refusal |
| ClientEngine.Engine.Enqueue | crates/udp2raw-ng-core/src/engine.rs:754-774 | New queue, reply and fate as specified, full queue included |
| ClientEngine.Engine.SendData | crates/udp2raw-ng-core/src/engine.rs:371-406 | New state, reply and fate as specified for a ready session |
| ClientEngine.Engine.HandleLocal | crates/udp2raw-ng-core/src/engine.rs:339-407 | New state, reply and fate as specified in every mode |
| ClientEngine.Engine.FlushHead | crates/udp2raw-ng-core/src/engine.rs:794-812 | One round of the flush as specified |
| ClientEngine.Engine.Flush | crates/udp2raw-ng-core/src/engine.rs:792-814 | The draining loop terminates and computes the specified state, actions and fates |
| ClientEngine.Engine.ExpireQueue | crates/udp2raw-ng-core/src/engine.rs:816-836 | The expiry loop drops exactly the expired prefix and reschedules for the rest |
| ClientEngine.Engine.ClearQueue | crates/udp2raw-ng-core/src/engine.rs:838-846 | Every queued datagram is reported dropped, in order |
| ClientEngine.Engine.CloseAll | crates/udp2raw-ng-core/src/engine.rs:453-467 | Every conversation is reported closed and both tables are emptied |
| ClientEngine.Engine.RebindAll | crates/udp2raw-ng-core/src/engine.rs:475-498 | The re-announcement loop computes the specified session, actions and error |
| ClientEngine.Engine.AcceptAck | crates/udp2raw-ng-core/src/engine.rs:444-501 | New state, reply and fates as specified |
| ClientEngine.Engine.PeerOfRecord | crates/udp2raw-ng-core/src/engine.rs:534-544 | A record's handle leads to a local peer only through the session's handle table and by_id |
| ClientEngine.Engine.StoreTicket | crates/udp2raw-ng-core/src/engine.rs:507-530 | New state and reply as specified |
| ClientEngine.Engine.DeliverReply | crates/udp2raw-ng-core/src/engine.rs:534-551 | New state and reply as specified |
| ClientEngine.Engine.HandleRecord | crates/udp2raw-ng-core/src/engine.rs:425-552 | New state, reply and fates as specified, including a record consumed by the window and then refused |
| ClientEngine.Engine.HandleTunnel | crates/udp2raw-ng-core/src/engine.rs:409-552 | Dispatch as specified |
| ClientEngine.Engine.ExpireHandshake | crates/udp2raw-ng-core/src/engine.rs:676-720 | Timeout, last attempt and retransmission as specified |
| ClientEngine.Engine.Forget | crates/udp2raw-ng-core/src/engine.rs:734-740 | A conversation is forgotten in both tables and in the session |
| ClientEngine.Engine.ExpireConversations | crates/udp2raw-ng-core/src/engine.rs:725-745 | The loop forgets and reports exactly the idle conversations |
| ClientEngine.Engine.Expire | crates/udp2raw-ng-core/src/engine.rs:676-746 | A tick as specified |
| ClientEngine.Engine.Close | crates/udp2raw-ng-core/src/engine.rs:855-865 | New state and action as specified |
| ClientEngine.Engine.Handle | crates/udp2raw-ng-core/src/engine.rs:257-282 | One event of the engine object is exactly one step of the client that the theorems speak of |
| ConversationHandles.Handles.constructor | crates/udp2raw-ng-core/src/engine.rs:162-168 | A new table is empty and allocate-only |
| ConversationHandles.Handles.HandleForOrAllocate | crates/udp2raw-ng-core/src/engine.rs:170-188 | Old bindings stay, an allocate-only table never hands out a handle twice, and exhaustion changes nothing |
| ConversationHandles.Handles.BindHandle | crates/udp2raw-ng-core/src/engine.rs:194-205 | A conflict on either side is refused without a change; otherwise the maps stay mutual inverses |
| ConversationHandles.Handles.IdFor | crates/udp2raw-ng-core/src/engine.rs:190-192 | The lookup is inverse to the other map |
| ConversationHandles.Handles.HandleFor | crates/udp2raw-ng-core/src/engine.rs:207-209 | The lookup is inverse to the other map |
| ConversationHandles.Handles.Forget | crates/udp2raw-ng-core/src/engine.rs:211-215 | The conversation is gone on both sides, the counter does not move back, and the maps stay mutual inverses |
| Sessions.Allocate | crates/udp2raw-ng-core/src/engine.rs:170-188 | Fails exactly on exhaustion; keeps allocate-only; the new handle is above all handed out before |
| Sessions.Bind | crates/udp2raw-ng-core/src/engine.rs:194-205 | Refuses exactly the conflicts; keeps the maps mutual inverses |
| Sessions.Remove | crates/udp2raw-ng-core/src/engine.rs:211-215 | Keeps inverse and allocate-only; only forgets |
| Sessions.RemoveAll | crates/udp2raw-ng-core/src/engine.rs:1436-1438 | Removing several conversations keeps the maps mutual inverses and only forgets |
| Sessions.Seal | crates/udp2raw-ng-core/src/record.rs:52-127 | Succeeds exactly for protected types with a fitting handle and size below the counter's end; the counter moves exactly when a frame comes out |
| Sessions.Open | crates/udp2raw-ng-core/src/record.rs:182-259 | What opens is authentic for this very header, protected, within the payload limit and new to the window |
| ServerSteps.ServerStepKeeps | crates/udp2raw-ng-core/src/engine.rs:943-967 | Every server event, successful, refused or panicking, keeps the server invariant: pending, active and resumable identifiers disjoint; pending attempts distinct in peer and hello, with distinct claims, within the global and per-peer limits; sessions within their limit even when a resumption replaces one at capacity; conversations within their limit and held in at most one place; expires_at equal to last_activity plus the idle timeout; handle maps mutual inverses over held conversations, all of them in a never-resumed session; buckets within their limit |
| ServerSteps.NewServerInv | crates/udp2raw-ng-core/src/engine.rs:913-931 | A new server satisfies the invariant |
| ServerSteps.HandOver | crates/udp2raw-ng-core/src/engine.rs:1162-1205 | After a completed handshake the old session's conversations are held by the new session and by no other; every other session holds what it held |
| ServerSteps.AdmitHelloKeeps | crates/udp2raw-ng-core/src/engine.rs:1029-1099 | An admitted hello keeps the server invariant: limits, distinct attempts, one claim per old session |
| ServerSteps.HandleClientHelloKeeps | crates/udp2raw-ng-core/src/engine.rs:988-1100 | The same for every hello, with rate limit and cookie in front |
| ServerSteps.HandleClientFinishKeeps | crates/udp2raw-ng-core/src/engine.rs:1102-1229 | A finish keeps the server invariant, also when it replaces an active session at capacity |
| ServerSteps.HandleRecordKeeps | crates/udp2raw-ng-core/src/engine.rs:1231-1366 | A record keeps the server invariant, whatever it carries and even when the engine panics |
| ServerSteps.HandleUpstreamKeeps | crates/udp2raw-ng-core/src/engine.rs:1368-1398 | An upstream datagram keeps the server invariant |
| ServerSteps.HandleCloseKeeps | crates/udp2raw-ng-core/src/engine.rs:1400-1417 | Closing a conversation keeps the server invariant |
| ServerSteps.ExpireKeeps | crates/udp2raw-ng-core/src/engine.rs:1419-1488 | A tick keeps the server invariant |
| ServerSteps.ExpireHeld | crates/udp2raw-ng-core/src/engine.rs:1445-1480 | A tick moves conversations only into the recovery entry of the same identifier, and otherwise only forgets |
| ServerEffects.ServerStepEffect | crates/udp2raw-ng-core/src/engine.rs:943-967 | What every event does to sessions and the wire: counters only rise, records are sealed under unused numbers for handles of their session, a delivery is the payload of the record just opened on the conversation its handle names, and a session begins only with a reported acknowledgement |
| ServerEffects.HeldAfter | crates/udp2raw-ng-core/src/engine.rs:943-967 | A conversation held after an event was held before, or was drawn in this event by a data record that opens it |
| ServerEffects.PendingDrawn | crates/udp2raw-ng-core/src/engine.rs:1050-1095 | A new pending handshake carries an identifier drawn in this event |
| ServerSpec.FirstFresh | crates/udp2raw-ng-core/src/engine.rs:1050-1059 | The drawn identifier is non-zero and in none of the three tables |
| ServerSpec.FindAttempt | crates/udp2raw-ng-core/src/engine.rs:1029-1037 | A found attempt has this peer and this hello; none is missed |
| ServerSpec.SealAck | crates/udp2raw-ng-core/src/engine.rs:1153-1159 | Sealing the acknowledgement of a new session always succeeds |
| ServerWindows.ServerStepWindow | crates/udp2raw-ng-core/src/engine.rs:1231-1366 | An event moves a session's replay window only by the frame it opens, and delivers at most that frame |
| ServerResumption.FinishConserves | crates/udp2raw-ng-core/src/engine.rs:1102-1229 | A finish that fails or repeats an accepted one changes nothing; one that succeeds gives the old session's conversations, unchanged or empty if they have gone, to exactly one new session, and no other pending handshake claims the old one |
| ServerResumption.RefreshOutcome | crates/udp2raw-ng-core/src/engine.rs:1319-1338 | The refresh loop panics exactly if it reaches a conversation without a handle before the packet counter runs out, and succeeds exactly if every conversation has one and the counter lasts |
| ServerResumption.PanicsExactly | crates/udp2raw-ng-core/src/engine.rs:1300-1338 | The engine panics on an event if and only if it is a data record from the session's peer that opens and routes, a refresh is due, some conversation of the session has no handle, and the packet counter lasts until the refresh comes to it |
| ServerEngine.Engine.constructor | crates/udp2raw-ng-core/src/engine.rs:913-931 | A new engine is the empty server of the specification |
| ServerEngine.Engine.ReadClock | crates/udp2raw-ng-core/src/engine.rs:1521-1525 | The origin is fixed at the first reading and the result is the saturated count of milliseconds since |
| ServerEngine.Engine.AllowHandshakeAttempt | crates/udp2raw-ng-core/src/engine.rs:1490-1519 | New buckets and verdict as specified |
| ServerEngine.Engine.Find | crates/udp2raw-ng-core/src/engine.rs:1029-1037 | The search over pending handshakes yields the attempt of the specification |
| ServerEngine.Engine.DrawSession | crates/udp2raw-ng-core/src/engine.rs:1050-1059 | The drawing loop yields the first unused identifier |
| ServerEngine.Engine.AdmitHello | crates/udp2raw-ng-core/src/engine.rs:1029-1099 | New state and reply as specified |
| ServerEngine.Engine.HandleClientHello | crates/udp2raw-ng-core/src/engine.rs:988-1100 | New state and reply as specified |
| ServerEngine.Engine.HandleClientFinish | crates/udp2raw-ng-core/src/engine.rs:1102-1229 | New state and reply as specified |
| ServerEngine.Refresh | crates/udp2raw-ng-core/src/engine.rs:1319-1338 | The refresh loop computes the specified session, frames, error or panic |
| ServerEngine.AcceptResume | crates/udp2raw-ng-core/src/engine.rs:1249-1271 | The session and reply of the specification, all refusals included |
| ServerEngine.AcceptData | crates/udp2raw-ng-core/src/engine.rs:1275-1365 | The session and reply of the specification, all refusals and the panic included |
| ServerEngine.Engine.HandleRecord | crates/udp2raw-ng-core/src/engine.rs:1231-1366 | New state and reply as specified |
| ServerEngine.Engine.HandleTunnel | crates/udp2raw-ng-core/src/engine.rs:969-986 | Dispatch as specified |
| ServerEngine.Engine.HandleUpstream | crates/udp2raw-ng-core/src/engine.rs:1368-1398 | New state and reply as specified; a failing seal still counts as activity |
| ServerEngine.Engine.Close | crates/udp2raw-ng-core/src/engine.rs:1400-1417 | New state and reply as specified |
| ServerEngine.Prune | crates/udp2raw-ng-core/src/engine.rs:1428-1443 | Removing idle conversations one by one removes exactly the idle ones from both tables and reports each once |
| ServerEngine.Engine.PruneAll | crates/udp2raw-ng-core/src/engine.rs:1427-1444 | The loop over sessions prunes each exactly once |
| ServerEngine.Engine.CloseOver | crates/udp2raw-ng-core/src/engine.rs:1445-1471 | Sessions that are over leave, and those with conversations leave recovery state behind |
| ServerEngine.Engine.ExpireRecoveries | crates/udp2raw-ng-core/src/engine.rs:1472-1480 | Exactly the expired recovery entries are dropped and reported |
| ServerEngine.RecoveriesAgree | crates/udp2raw-ng-core/src/engine.rs:1427-1466 | Pruning first and retiring afterwards yields the recovery table of the one-step specification |
| ServerEngine.Engine.Expire | crates/udp2raw-ng-core/src/engine.rs:1419-1488 | The successive loops compute the one-step specification of a tick, whatever the visiting order |
| ServerEngine.Engine.Handle | crates/udp2raw-ng-core/src/engine.rs:943-967 | One event of the engine object is exactly one step of the server that the theorems speak of |
| RateLimitTheorems.RateBound | crates/udp2raw-ng-core/src/engine.rs:1490-1519 | With a clock that stays below the largest duration, and a burst up to u32::MAX or a clock that never reaches u32::MAX refill intervals: over any sequence of attempts of all peers and ticks, a peer is allowed at most burst + floor(T / refill_interval) attempts in any interval of length T, evictions and discarded remainders included |
| RateLimitRuns.HellosBounded | crates/udp2raw-ng-core/src/engine.rs:988-1002 | In every run of the server, whatever its events, the hellos of one peer that pass the limiter in an interval of length T number at most burst + floor(T / refill_interval) |
| RateLimitRuns.PassedIsAllowed | crates/udp2raw-ng-core/src/engine.rs:1000-1002 | The hellos of a run that are not turned away by the limiter are exactly the attempts that the limiter alone allows, every other event and the engine's own ticks included |
| RateLimitTheorems.RateBoundExact | crates/udp2raw-ng-core/src/engine.rs:1481-1486 | For every clock range below the largest duration, the bound holds for all runs if and only if the burst is at most u32::MAX or the clock never reaches u32::MAX refill intervals; the cut at the largest duration is harmless |
| RateLimitTheorems.EvictionUnobservable | crates/udp2raw-ng-core/src/engine.rs:1481-1486 | While the table has room, every answer equals that of a limiter that never evicts, under the same if and only if |
| RateLimitTheorems.SaturatedFails | crates/udp2raw-ng-core/src/engine.rs:1481-1486 | Otherwise, within the clock's range, two bursts pass where one and the refill should, and eviction shows |
| ReplaySpec.Accept | crates/udp2raw-ng-core/src/replay.rs:31-55 | Accepted exactly if never accepted before and not width or more below the highest; too old exactly below the horizon; everything else is a duplicate |
| ReplaySpec.NeverTwice | crates/udp2raw-ng-core/src/replay.rs:31-55 | Over any sequence of calls no number is accepted twice |
| ReplayWindow.ReplayFilter.constructor | crates/udp2raw-ng-core/src/replay.rs:12-19 | A new filter is the empty window, with no bit set |
| ReplayWindow.ReplayFilter.Get | crates/udp2raw-ng-core/src/replay.rs:57-59 | Reads the bit of the packed words |
| ReplayWindow.ReplayFilter.Set | crates/udp2raw-ng-core/src/replay.rs:61-63 | Sets one bit and no other |
| ReplayWindow.ReplayFilter.ShiftLeft | crates/udp2raw-ng-core/src/replay.rs:65-83 | In place, bit i moves to i + amount, low bits become zero, nothing survives beyond the width |
| ReplayWindow.ReplayFilter.ClearUnusedTail | crates/udp2raw-ng-core/src/replay.rs:85-93 | Bits beyond the width are zero in the last word and the others stay |
| ReplayWindow.ReplayFilter.Accept | crates/udp2raw-ng-core/src/replay.rs:31-55 | The packed filter refines the plain set of accepted numbers: same verdict, same set, and a refusal leaves every word as it was |
| Wire.DecodeEncode | crates/udp2raw-ng-core/src/protocol.rs:82-124 | Decoding an encoded frame gives the frame back |
| Wire.EncodeDecode | crates/udp2raw-ng-core/src/protocol.rs:94-124 | Whatever decodes is byte for byte the encoding of what it decodes to |
| Wire.Decodable | crates/udp2raw-ng-core/src/protocol.rs:94-124 | A byte string decodes if and only if it is some frame's encoding |
| Wire.HeaderInjective | crates/udp2raw-ng-core/src/protocol.rs:126-142 | The header determines every field but the payload |
| Wire.WriteHeader | crates/udp2raw-ng-core/src/protocol.rs:126-142 | Filling the zeroed buffer field by field gives the specified header, exactly for epochs that fit a byte |
| HandshakeCodec.HelloRoundTrip | crates/udp2raw-ng-core/src/handshake.rs:94-178 | A valid hello, in all four lengths, decodes to itself |
| HandshakeCodec.HelloExact | crates/udp2raw-ng-core/src/handshake.rs:121-167 | A hello that decodes is byte for byte the encoding of its fields |
| HandshakeCodec.HelloInjective | crates/udp2raw-ng-core/src/handshake.rs:94-119 | Equal payloads, equal hellos, despite the variable length |
| HandshakeCodec.RetryRoundTrip | crates/udp2raw-ng-core/src/handshake.rs:210-293 | A valid retry decodes to itself |
| HandshakeCodec.RetryExact | crates/udp2raw-ng-core/src/handshake.rs:210-239 | A retry that decodes is byte for byte the encoding of its fields |
| HandshakeCodec.ServerHelloRoundTrip | crates/udp2raw-ng-core/src/handshake.rs:364-418 | A valid server hello decodes to itself |
| HandshakeCodec.ServerHelloExact | crates/udp2raw-ng-core/src/handshake.rs:381-406 | A server hello that decodes is byte for byte the encoding of its fields |
| HandshakeCodec.FinishRoundTrip | crates/udp2raw-ng-core/src/handshake.rs:461-489 | A valid finish decodes to itself |
| HandshakeCodec.FinishExact | crates/udp2raw-ng-core/src/handshake.rs:461-474 | A finish that decodes is byte for byte the encoding of its fields |
| HandshakeCodec.CredentialRoundTrip | crates/udp2raw-ng-core/src/handshake.rs:581-620 | The unsigned part of a credential reads back as its fields |
| HandshakeCodec.CredentialExact | crates/udp2raw-ng-core/src/handshake.rs:599-620 | Every 60-byte string is the encoding of the fields it reads as |
| Transcripts.ServerAuthInjective | crates/udp2raw-ng-core/src/handshake.rs:508-520 | The text under the server's tag determines the client hello, the identifier and every unsigned field of the server hello |
| Transcripts.FullInjective | crates/udp2raw-ng-core/src/handshake.rs:522-533 | The full transcript determines both hellos and the identifier |
| Transcripts.RetryAuthInjective | crates/udp2raw-ng-core/src/handshake.rs:535-540 | The text under a retry's tag determines every unsigned field |
| Transcripts.CookieTextInjective | crates/udp2raw-ng-core/src/handshake.rs:554-569 | The text under a cookie determines the peer, the time and every hello field but the cookie |
| Transcripts.CredentialTextInjective | crates/udp2raw-ng-core/src/handshake.rs:622-627 | The text under a credential determines its fields |
| Transcripts.DomainsApart | crates/udp2raw-ng-core/src/handshake.rs:508-569 | No text of one purpose equals a text of another under the same key |
| Cookies.CookieRoundTrip | crates/udp2raw-ng-core/src/engine.rs:1003-1028 | The whole exchange through both engines: the client takes the retry to its hello and sends the hello again, and whatever the server has gone through in between, it admits that hello if and only if the sender has a token, is the peer that was asked, and the time is from the issue through the issue plus the lifetime; otherwise it asks again |
| Cookies.RetryIssued | crates/udp2raw-ng-core/src/engine.rs:1003-1027 | A server asks only for want of a cookie, with the retry for this hello, this peer and this time |
| Cookies.OriginStays | crates/udp2raw-ng-core/src/engine.rs:1521-1525 | Once started, the clock keeps its origin through any events |
| Cookies.CookieBinds | crates/udp2raw-ng-core/src/handshake.rs:295-309 | A cookie that verifies was issued for this very hello and peer |
| Cookies.CredentialRoundTrip | crates/udp2raw-ng-core/src/engine.rs:1060-1095 | An admitted hello that presents a credential resumes the session it names if and only if this server issued it, the time is within its validity, the conversation it names is still held there, and no other pending handshake claims that session |
| RecordLayer.SealSucceeds | crates/udp2raw-ng-core/src/record.rs:52-127 | Exactly which calls succeed, by type, counter, key sizes, handle and length |
| RecordLayer.OpenSeal | crates/udp2raw-ng-core/src/record.rs:182-259 | For all five suites, what is sealed opens to itself on its first arrival inside the window exactly if it is no longer than MAX_FRAME_PAYLOAD; otherwise it is refused as too large |
| RecordLayer.OversizedSealed | crates/udp2raw-ng-core/src/record.rs:52-127 | A plaintext one byte over the payload limit is sealed under a cipher and can never be opened |
| RecordLayer.OpenedWasSealed | crates/udp2raw-ng-core/src/record.rs:182-259 | Whatever opens is byte for byte what this channel seals under that number, type, handle and plaintext |
| RecordLayer.OpensOnce | crates/udp2raw-ng-core/src/record.rs:182-259 | Over any sequence of arrivals no byte string and no packet number opens twice |
| RecordLayer.NoncesApart | crates/udp2raw-ng-core/src/record.rs:262-280 | Distinct packet numbers give distinct nonces |
| RecordLayer.AssociatedInjective | crates/udp2raw-ng-core/src/record.rs:136-142 | The associated data determines the direction, the suite and every header field |
| RecordLayer.Sealer.SealRecord | crates/udp2raw-ng-core/src/record.rs:52-127 | The frame of the specification; the counter moves exactly when a frame comes out |
| RecordLayer.Opener.OpenRecord | crates/udp2raw-ng-core/src/record.rs:182-259 | The result of the specification over the packed window; a failure leaves the window, word for word, as it was |
| FakeTcpTheorems.OrderedDelivery | crates/udp2raw-ng-net/src/linux.rs:337-464 | In every run of two hosts over a network that loses, repeats and reorders packets, while fewer than 2^32 bytes have been sent each way: what comes out at either end is a prefix of the non-empty frames that went in at the other, and no empty frame comes out |
| FakeTcpTheorems.RunInv | crates/udp2raw-ng-net/src/linux.rs:337-464 | Every reachable state places every packet in flight at its offset in the sender's line, and expects exactly the next |
| FakeTcpWrap.OrderedExactly | crates/udp2raw-ng-net/src/linux.rs:416-428 | A bound on the bytes each way makes delivery ordered in every run if and only if it is below 2^32 |
| FakeTcpWrap.WrapsAround | crates/udp2raw-ng-net/src/linux.rs:416-428 | After exactly 2^32 bytes a repeated first packet is taken again |
| FakeTcpLoss.FailedSendNumbered | crates/udp2raw-ng-net/src/linux.rs:253-288 | A send that fails has taken sequence numbers if and only if the flush went through, the path is established, and the frame is above the wire's limit and not above the first check's |
| FakeTcpLoss.SendSucceeds | crates/udp2raw-ng-net/src/linux.rs:253-288 | Exactly which sends succeed; before the handshake that includes frames above the wire's limit |
| FakeTcpLoss.FlushDrops | crates/udp2raw-ng-net/src/linux.rs:235-248 | A flush sends exactly what is ahead of the first packet that does not fit, and drops that one and all behind it |
| FakeTcpLoss.UnsentBlocks | crates/udp2raw-ng-net/src/linux.rs:416-438 | In every run below 2^32 bytes, while the packet for a place of a line has not gone on the wire, the other end has got no more frames than come before that place |
| FakeTcpLoss.OversizedBlocks | crates/udp2raw-ng-net/src/linux.rs:253-288 | In every run below 2^32 bytes, a frame above the wire's limit that has a place in a line blocks the line from that place on |
| FakeTcpLoss.FailedSendStalls | crates/udp2raw-ng-net/src/linux.rs:258-288 | At an input: on an established path the send of any frame in the gap fails, and in every continuation nothing comes out at the other end |
| FakeTcpLoss.QueuedSendStalls | crates/udp2raw-ng-net/src/linux.rs:269-275 | Before the handshake the same send succeeds, with the same consequence |
| FakeTcpLoss.RunWire | crates/udp2raw-ng-net/src/linux.rs:416-438 | In every run below 2^32 bytes everything that came out had a packet on the wire, and every packet on the wire fits |
| FakeTcpPeers.RunPairs | crates/udp2raw-ng-net/src/linux.rs:344-444 | At a host with any number of peers, over every sequence of sends, polls, arbitrary packets (resets and forgeries included) and installed paths whose address and identifier belong to no other pair, peers and paths stay mutual inverses |
| FakeTcpPeers.FirstPacketOpens | crates/udp2raw-ng-net/src/linux.rs:344-379 | After any run of a server a first packet from an address without a path opens one: no other address, port included, is in its way |
| FakeTcpSpec.IncomingPairs | crates/udp2raw-ng-net/src/linux.rs:337-444 | Whatever arrives, peers and paths stay mutual inverses, and no path but the sender's is touched |
| FakeTcpSpec.SendPairs | crates/udp2raw-ng-net/src/linux.rs:253-288 | Sending keeps peers and paths mutual inverses and touches no other path |
| FakeTcpSpec.InstallPairs | crates/udp2raw-ng-net/src/linux.rs:200-233 | Installing a path keeps peers and paths mutual inverses if and only if neither its address nor its identifier belongs to another pair |
| FakeTcpSpec.PeerIdInjective | crates/udp2raw-ng-net/src/linux.rs:559-563 | A peer identifier determines address and port |
| FakeTcpSpec.WrapIsRemainder | crates/udp2raw-ng-net/src/linux.rs:446-464 | Stepwise wrapping addition is the remainder modulo 2^32 |
| FakeTcpTransport.Transport.InstallClientPath | crates/udp2raw-ng-net/src/linux.rs:200-233 | New state as specified |
| FakeTcpTransport.Transport.QueuePendingFrames | crates/udp2raw-ng-net/src/linux.rs:446-464 | The drain loop sends the waiting frames front to back under consecutive numbers |
| FakeTcpTransport.Transport.HandleIncoming | crates/udp2raw-ng-net/src/linux.rs:337-444 | New state as specified for every packet, flag and phase |
| FakeTcpTransport.Transport.FlushPending | crates/udp2raw-ng-net/src/linux.rs:235-248 | The outbox is emptied onto the wire up to the first packet that does not fit |
| FakeTcpTransport.Transport.SendFrame | crates/udp2raw-ng-net/src/linux.rs:253-288 | New state, result and wire as specified |
| FakeTcpTransport.Transport.PollReceive | crates/udp2raw-ng-net/src/linux.rs:290-305 | New state, packet and wire as specified |
| RouteTheorems.RoutesAgree | crates/udp2raw-ng/src/lib.rs:258-316 | After any run of events with their actions and of replies from upstream, every route key is a live conversation of an active or resumable session with a task entry for its own socket, and no two conversations share one |
| RouteTasks.TaskRunsExactly | crates/udp2raw-ng/src/lib.rs:549-588 | After any run the receiving task of a route still runs if and only if, since it was last started or moved, receiving has not failed and no reply of it has been refused |
| RouteTasks.ReplyTakenExactly | crates/udp2raw-ng-core/src/engine.rs:1368-1398 | The engine takes a reply if and only if it fits the configured payload, its session is active, its conversation has a handle there, and the packet counter is not exhausted |
| RouteExample.ReplyEndsTask | crates/udp2raw-ng/src/lib.rs:569-583 | A run in which a reply right after a resumption, before the conversation has a handle again, ends the receiver of a live route while the service goes on |
| RouteTheorems.ReplyAgrees | crates/udp2raw-ng/src/lib.rs:549-588 | A reply, taken, refused, oversized or not received, leaves conversations and routes alone |
| RouteTheorems.ServiceStepAgrees | crates/udp2raw-ng/src/lib.rs:427-513 | After one event or reply every route is live, and a conversation routed before and after, be it under another session, keeps its socket |
| RouteTheorems.ResumedAgrees | crates/udp2raw-ng/src/lib.rs:590-632 | A resumption re-keys every route of the old session to the new one with the same socket and a task started anew, and every one of them is live there |
| RouteTheorems.TickAgrees | crates/udp2raw-ng/src/lib.rs:634-660 | The closing actions of a tick remove exactly the routes that are no longer live |
| RouteTheorems.CloseAgrees | crates/udp2raw-ng/src/lib.rs:651-660 | Closing a conversation removes its route |
| Routes.MoveAllMoves | crates/udp2raw-ng/src/lib.rs:590-632 | Moving routes one by one moves exactly those, each with its socket and a task started anew, and leaves every other task as it was |
| Routes.ExecuteRemovals | crates/udp2raw-ng/src/lib.rs:634-660 | Removing actions remove exactly the named routes with their tasks and leave every other task as it was |
| RouteTable.RouteMap.constructor | crates/udp2raw-ng/src/lib.rs:258-316 | A new table is empty |
| RouteTable.RouteMap.EnsureRoute | crates/udp2raw-ng/src/lib.rs:515-547 | A missing route is added with the bound socket; an existing one stays |
| RouteTable.RouteMap.Remove | crates/udp2raw-ng/src/lib.rs:651-660 | The route and its task are gone, the others stay |
| RouteTable.RouteMap.RemoveAllOf | crates/udp2raw-ng/src/lib.rs:634-649 | The loop removes exactly the routes of the session |
| RouteTable.RouteMap.Migrate | crates/udp2raw-ng/src/lib.rs:590-632 | The two passes, re-keying and restarting, amount to moving each route of the old session once |
| RouteTable.RouteMap.Perform | crates/udp2raw-ng/src/lib.rs:427-513 | The table effect of one action as specified |
| RouteTable.RouteMap.Run | crates/udp2raw-ng/src/lib.rs:427-513 | The loop over actions computes the specified table and stops at the first failure to bind or to send |
| RouteTable.RouteMap.Receive | crates/udp2raw-ng/src/lib.rs:560-585 | One turn of a receiving task against the engine object: the engine, the table and whether it goes on are as specified |
| RouteTable.RouteMap.Collect | crates/udp2raw-ng/src/lib.rs:601-608 | The routes of the session, each once, with their sockets |

## Left out

- Cipher, HMAC, HKDF and generator internals; they are ideal functions and inputs here.
- Secret handling, zeroization and redaction, which a functional model cannot show.
- Raw sockets, IPv4 and TCP header building, checksums and packet parsing: FakeTCP packets are values.
- Tasks, channels, back-pressure and metrics of the managed service, and the client side's socket handling.
- The in-memory transport, the command line, environment checks and error texts: they would only add easy members.
- Progress: nothing says that a datagram arrives, only that what arrives is right; FakeTCP never retransmits.
- Encoding errors that the types of the model rule out, such as a handshake frame that does not encode.
- The engine model identifies a frame with its decoded value; `Wire` and `HandshakeCodec` prove that bytes and values correspond one to one. Sizes of sealed plaintexts are kept as numbers.
- Packet numbers and handles are unbounded numbers in the model, with the checks at 2^64 - 1 and 2^32 - 1 written out; the sum of time and a lifetime does not overflow.
- ServerEngine.Engine.Handle: a tick requires that the visiting orders list every session, conversation and recovery entry once, as iterating a hash table does.
- ServerEngine.Engine.AdmitHello: the per-peer count of pending handshakes is the size of a set rather than a counting loop.
- ServerEngine.Engine.DrawSession: draws come from a finite list, and running out of it counts as a generator failure, where the program would draw on.
- ServerEngine.Engine.HandleClientHello: failures of the primitives themselves (an HMAC key that cannot be set up) are not modelled.
- ClientEngine.Engine.ExpireConversations: idle conversations are forgotten while visiting, where the program collects them first; with each peer visited once the outcome is the same.
- RouteTheorems.RoutesAgree: an event and its actions are one step, and a turn of a receiving task is another; in the program a task may also run between an event and its actions.
- RouteTable.RouteMap.Run: of the network effects of the actions only failures to bind and to send are modelled.
- FakeTcpTransport.Transport.HandleIncoming: wakers and the lock are not modelled, calls are atomic, and a host has one local address, where the program remembers the destination address of each first packet.
- Memory layout: the packed replay words are an array changed in place; maps, queues and sessions are immutable values held in fields that methods reassign.

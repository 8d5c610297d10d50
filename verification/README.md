# knit, verified

knit runs a command on another machine and makes it look local. This project models
the machinery that makes that claim hold and proves what it keeps:

- **Frames on a shared, failing link** (`Frames`, `FrameIO`, `SharedLink`, `FrameMerge`):
  the frame codec, the frame writer as an object with its one-write and two-write
  paths, and several lock-holding writers on a connection that may die at any byte.
- **One accepted run on the agent** (`AgentRun` and its results `Delivery`, `ClientSees`,
  `Status124`, `KillOnce`, `History`, `MirrorRun`, `ReapRank`, `ReapSteps`, `Reaping`,
  `Orphan`): a state machine whose events
  are the atomic actions of the two output pumps, the client-frame reader, `kill` and
  its timer, the waiter, the process and the connection. Results hold in every
  reachable state, and for reaping over every fair infinite run.
- **The client** (`ClientLoop`, `ClientSend`, `AgentReceive`, `Upload`, `Given`): its read loop, and
  the directory, stdin and signal senders that share a writer, against the agent's readers,
  down to what the process is given.
- **The control exchange** (`Control`, `Transport`, `AgentConn`, `Lockstep`, `Serves`,
  `RunOnce`, `Asked`): line-based requests and replies on the connection that later carries
  frames; session reuse and the fallback dial.
- **The handshake** (`Proofs`, `Handshake`): symbolic HMAC, any number of clients and
  agents at once, key rotation, and an adversary that answers every read.
- **Choosing and owning** (`Peers`, `Discovery`, `Scheduler`, `PickLeast`, `PickTie`,
  `RunFlow`): how
  peers are parsed, browsed and merged, the placement loop, and who closes which session
  on every path through `knit run`.
- **Directories** (`Paths`, `TreeSync`, `SyncRun`): path containment, pack and unpack,
  the content-hash delta, and `--sync` from upload to mirror-back.
- **`knit each`** (`Lines`, `Each`, `EachCodes`) and the **roadmap tool** (`Kahn`, `Roadmap`, `PlanCheck`).

Code that changes things step by step is written as classes and methods with loops,
each proved against a function or a first-order statement; concurrent code is a step
relation; what the source promises is then proved of those.

## Where the code and its documentation part

The model follows the code. Each of these is a theorem with the exact condition.

1. *"A dropped link never leaves an orphan"* (internal/agent/exec.go:162-166,
   docs/03-protocol.md:107-111) is false: the frame reader may be blocked writing to a
   process that does not read its stdin and then never sees the loss.
   `Orphan.OrphanReachable` gives the run; `Orphan.ReachableReapsIff` says that once the
   client is gone, every fair run reaps if and only if the state is `BoundToReap`: `kill`
   was entered, or the stdin still to be handed over fits in the pipe (or the process
   closed its stdin), or a pump holds output it can only fail to send, or the process is
   gone and its output closed.
2. *knit's own codes are disjoint from a command's 0-125* (internal/client/client.go:18-19,
   docs/04-cli.md:70-82): the codes 1, 2, 124, 126 and 127 do not say whose they are, and
   no others, over everything `Run` can report (`RunFlow.ConfusableIff`). For 124,
   `Status124.Status124IsAmbiguous` gives a run whose exit frame carries it, and
   `ClientSees.OwnStatus` says when it means a lost link.
3. *`Pick` returns the lowest-scoring candidate, scores within a tie counting as equal*
   (internal/scheduler/scheduler.go:29-32, docs/02-architecture.md:126): the winner is meant to
   be within 0.01 of the lowest, but ties chain. For every choice of links it is so if and
   only if no machine within a tie of the lowest is followed by one that ties with it, lies
   beyond that tie, and has nothing clearly freer after it (`PickTie.WithinTieIff`, and
   `PickTie.WithinTieIffLocalFirst` for the list `Run` builds). `Scheduler.PickBound` is the
   bound that always holds, `Scheduler.PickDrifts` reaches it, and `PickLeast.PicksLeastIff`
   says when the winner is a lowest one outright.
4. *`knit each` exits 0 only if every machine did* (internal/client/each.go:21-24): the
   maximum starts at 0. Between knit's own two halves no code is negative and the
   statement holds (`EachCodes.ZeroIffAllZero`). It fails only for a peer that is not this
   agent and sends a negative code in its exit frame: `Each.FalseSuccessIff` says when.
5. A failed reuse of the probe session falls back to a second dial
   (internal/client/run.go:78-88). At the moment Run falls back a second start is still
   possible if and only if the client got no reply to a runnable request without `--dir`
   that the first agent granted, has in hand or can still read, and the dialled agent
   holds the key (`RunOnce.SecondStartIff`). `RunOnce.StartedTwiceReachable` gives such a
   run in which the link fails before the first start, not between start and reply.
6. `kill` checks `finished` and then signals (internal/agent/exec.go:173-178): a caller
   between the two can signal after `finished` closed. `KillOnce.LateSignalIff` says exactly when.
7. `safeJoin` under root "/" refuses every entry but the root itself
   (internal/treesync/treesync.go:109-114): `Paths.SafeJoinContains`.

The session map's key is empty for a peer without an address
(internal/scheduler/scheduler.go:98-103). No such peer is ever probed: `ParsePeer` refuses an
empty host and `Browse` an entry without an address, and `gatherPeers` drops duplicates. That
is what makes `RunFlow.Run` close every session exactly once, for all sources.

## Model

| member | source | states |
|---|---|---|
| `Frames.ReadPrefix` | internal/proto/frame.go:62-76 | cutting a frame stream at any byte, repeated reading yields exactly the wholly contained frames and then a short read |
| `Frames.ReadIsEncoding` | internal/proto/frame.go:62-76 | whatever is accepted as a frame is the encoding of what is returned, followed by the rest |
| `Frames.WholeIff` | internal/proto/frame.go:62-76 | all frames are read exactly when no byte is missing |
| `Frames.ExitCodeRoundTrip` | internal/proto/frame.go:54-84 | an exit frame gives back its code if and only if the code fits in 32 signed bits |
| `Frames.WireFormat` | internal/proto/frame.go:32-51 | an encoded frame is its type byte, its length as four bytes from the most significant down, and its payload |
| `FrameIO.FrameWriter.Write` | internal/proto/frame.go:32-51 | on either write path the connection gains the frame's encoding cut where the connection died, the result tells whether all of it went, and an oversize payload writes nothing |
| `FrameIO.FrameWriter.WriteExit` | internal/proto/frame.go:54-58 | the exit frame of the code, by the same writer |
| `FrameIO.Source.ReadFrame` | internal/proto/frame.go:62-76 | reads the frame at the head of the bytes, or fails as the byte-sequence specification does |
| `SharedLink.FarEnd` | internal/proto/frame.go:32-51 | whatever prefix of the wire arrives decodes to a prefix of the frames begun under the lock |
| `FrameMerge.MergedStream` | internal/proto/frame.go:20-51 | several lock-holding writers, any interleaving, any cut: every frame read belongs to one writer, and each writer's are a prefix of its frames in order |
| `FrameMerge.NothingInvented` | internal/proto/frame.go:20-51 | every frame of such a merge is one its writer had to send |
| `FrameMerge.CompleteMerge` | internal/proto/frame.go:20-51 | with every writer done and no failure, every frame read belongs to a writer, and each writer's are all its sendable frames in order |
| `AgentRun.ExitStatus` | internal/proto/exit.go:9-21 | a process's own status, 128 plus the signal that ended it, or 127; never negative |
| `Delivery.StepInv` | internal/agent/exec.go:167-218 | every step of every goroutine, the process and the link keeps the accounting of output and the stream grammar |
| `Delivery.ScanSound` | internal/agent/exec.go:110-116 | a stream the automaton accepts splits into stdio, tree and exit parts as the grammar says |
| `ClientSees.PrefixDelivery` | internal/agent/exec.go:191-217 | in every reachable state and at every cut the stream is a prefix of the session grammar, and each side of the terminal shows a prefix of what was written to that side |
| `ClientSees.ExitIsUnambiguous` | internal/client/run.go:234-265 | the client has an exit code exactly when the whole stream arrived; then the code is the one sent, the output is complete and the mirrored tree applied; otherwise it returns 124 |
| `ClientSees.OwnStatus` | internal/agent/exec.go:215-217 | for a process that ran the code is its own status; 124 means a lost link unless the process itself exited with 124 |
| `History.RunDelivers` | internal/agent/exec.go:110-116 | from the events of a run alone: at every cut each side of the terminal shows a prefix of what the process wrote; with an exit code all of it, the status the process ended with, and exactly the tree the waiter finished with, if it has content |
| `Status124.EveryStatusDelivered` | internal/client/run.go:262-263 | for every way a process can end there is a run in which the client returns its status from the exit frame |
| `MirrorRun.EveryTreeDelivered` | internal/agent/exec.go:110-116 | for every tree in chunks and every way the process can end there is a run whose waiter finishes with that tree and whose client applies it and returns the status |
| `Status124.Status124IsAmbiguous` | internal/client/client.go:18-25 | a command heard to exit with 124 and a connection that delivers nothing give the same code |
| `ClientLoop.StreamOver` | internal/client/run.go:232-266 | the read loop with its sync writer returns exactly what the frame-by-frame specification says of the bytes it gets |
| `KillOnce.AtMostOneOfEach` | internal/agent/exec.go:170-187 | over all callers at most one SIGINT and one SIGKILL, SIGKILL only after SIGINT |
| `History.SignalsAreSteps` | internal/agent/exec.go:170-187 | on every run at most one SIGINT step and no more SIGKILL than SIGINT steps |
| `KillOnce.CleanRunSignalsNothing` | internal/agent/exec.go:170-176 | if `finished` closes before kill was entered, nothing is ever signalled afterwards |
| `KillOnce.LateSignalIff` | internal/agent/exec.go:173-178 | a SIGINT can follow the close of `finished` exactly when a caller has passed the check and not yet sent |
| `KillOnce.LateSignalReachable` | internal/agent/exec.go:173-178 | a concrete run into that window |
| `ReapSteps.StepProgress` | internal/agent/exec.go:167-241 | with the client gone, every step reaps, brings a well-founded measure down, or leaves measure and helper as they were |
| `Reaping.HelperCanRun` | internal/agent/exec.go:167-241 | the goroutine whose turn the measure waits for always has a step |
| `Reaping.FairRunsReap` | internal/agent/exec.go:171-187 | from a state bound to reap every fair run closes `finished` or sends SIGKILL |
| `Orphan.ComesToRest` | internal/agent/exec.go:223-241 | from any other state the goroutines can run to a standstill with the group alive |
| `Orphan.ReapsIff` | internal/agent/exec.go:162-218 | every fair run reaps if and only if the state is bound to reap |
| `Orphan.ReachableReapsIff` | internal/agent/exec.go:162-218 | the same for every reachable state of a started run whose client is gone |
| `Orphan.OrphanReachable` | internal/agent/exec.go:231-232 | for every pipe size, one byte more of stdin in frames the client sends and a lost link leave an orphan |
| `AgentReceive.RecvTree` | internal/agent/exec.go:245-267 | returns the concatenated tree chunks up to the end mark and leaves the reader just past it, or fails with what came |
| `AgentReceive.ReadClientFrames` | internal/agent/exec.go:223-241 | what stdin, EOF and signals are offered for any byte stream |
| `AgentReceive.StdinIsPayloads` | internal/agent/exec.go:230-234 | over any frames the stdin offered is every stdin payload up to the first end-of-stdin frame |
| `AgentReceive.SignalsAreFirstBytes` | internal/agent/exec.go:235-239 | the signals are the first bytes of the signal frames that have one, in order |
| `Upload.StepInv` | internal/client/run.go:181-230 | every step of the three senders and the link keeps upload order, stdin and signal accounting |
| `Upload.Remembered` | internal/client/run.go:203-230 | in every reachable state what the senders remember is read off the events: all the stdin data in order, and 15 for each SIGTERM caught and 2 for each SIGINT, in order |
| `Upload.NoFrameIsLost` | internal/client/run.go:181-230 | in every interleaving and at every cut recvTree gets the whole tree and leaves only frames its successor acts on, which carry prefixes of the stdin read and the signals caught, as the events tell, and an end of stdin only after all of it; or it fails with a prefix of the tree |
| `Upload.PlainRunDelivers` | internal/client/run.go:202-230 | the same without a directory |
| `Upload.CompleteStdin` | internal/client/run.go:203-217 | with a directory: once stdin has ended and the link held, the tree, all the stdin read, its EOF and, when no signal is held, every signal caught are on the wire |
| `Upload.CompleteStdinPlain` | internal/client/run.go:203-217 | without one: all the stdin read, its EOF, and every signal caught |
| `Given.StdinFaithful` | internal/agent/exec.go:223-241 | in every reachable state of a started run the process was given a prefix of the stdin and sent a prefix of the signals that arrived, all of them once the reader has caught up, and sees the end of stdin only after all of it |
| `Given.TypedReachesProcess` | internal/client/run.go:202-230 | between knit's two ends, from the client's events: the process is given a prefix of the stdin data read and sent a prefix of the signals caught, SIGINT as 2 and SIGTERM as 15, and all of the data by the time it sees the end of its stdin |
| `Control.ReadLineSplits` | internal/transport/transport.go:48-51 | reading a line takes exactly up to the first newline and nothing of what follows |
| `Control.ReadString` | internal/transport/transport.go:107-111 | the line read leaves every later byte for the next reader |
| `Control.GreetingParses` | internal/transport/transport.go:164-170 | a greeting yields its nonce; no line yields an empty nonce or one with white space |
| `Control.GreetingShape` | internal/transport/transport.go:164-170 | a line accepted as a greeting is the word KNIT1 and the nonce with white space between and around them |
| `Transport.Session.Do` | internal/transport/transport.go:42-61 | one line out and one line in; the stored reply changes only when the new one is ok |
| `Transport.AnswerIs` | internal/transport/transport.go:42-61 | a reply written as a line is the one found, and what follows it is left |
| `Transport.Open` | internal/transport/transport.go:105-149 | a session exactly when the greeting parses, the request goes out and the reply is ok and proven; the reader then stands just past the reply; on every failure the connection is closed |
| `Transport.OpensIff` | internal/transport/transport.go:107-149 | on a greeting and a reply: a session exactly when the reply is ok and carries the server's proof, Unauthorized for a wrong proof, and otherwise the reply's own code |
| `AgentConn.HandleConn` | internal/agent/agent.go:161-213 | for any client bytes, the replies written (cut where the link died) and how the connection is left, as the recursive specification says |
| `AgentConn.ReadFollowup` | internal/agent/agent.go:219-231 | one decoded line or nothing more to serve |
| `Serves.ReplyMeaning` | internal/agent/exec.go:31-59 | on the request's fields: a run is granted exactly when it has a command, a version of at least 3 and its set-up works; EmptyCmd, Version and the set-up's own code are given each in its case; dial needs a host; info always succeeds with this machine's report; other operations get Internal |
| `Serves.ServeMeaning` | internal/agent/agent.go:188-213 | the requests served are those on the lines read, each with its own reply, all but the last of them info; the connection is left to a run exactly when the last is a granted run, to a tunnel exactly when it is a granted dial, with the bytes after its line, and otherwise it is shut |
| `Serves.AttendMeaning` | internal/agent/agent.go:173-186 | without the proof in the first request the one reply is Unauthorized and the connection is shut; with it the connection is served from that request on |
| `Serves.MachineServes` | internal/agent/agent.go:161-213 | in every run of client and agent the agent's replies begin those of HandleConn on the bytes the client sends, and when it is done they are all of them and it leaves the connection the same way |
| `Lockstep.StepInv` | internal/agent/agent.go:188-213 | every step of client and agent keeps the pairing of their positions with the unread bytes of both directions |
| `Lockstep.OneReplyEach` | internal/agent/agent.go:188-231 | both ends have seen the same exchanges but for at most one reply on its way, which answers the request being waited on |
| `Lockstep.NeverBothWait` | internal/transport/transport.go:107-131 | of a waiting client and a live agent exactly one can go on |
| `Lockstep.FramesDecodeExactly` | internal/agent/agent.go:202-204 | after the run reply both readers hold exactly the frames sent and not yet read, whatever bytes payloads contain |
| `Lockstep.ReusedAsFresh` | internal/client/run.go:166-170 | the bytes in flight of a streaming session depend on its frames alone, not on whether it was reused |
| `Lockstep.OnlyTheAgentRefuses` | internal/transport/transport.go:136-144 | an exchange ends early only by the agent's refusal, and an agent with another key grants nothing |
| `Asked.RequestsFollowEvents` | internal/transport/transport.go:42-61 | on every run of a connection the requests asked are, in order, those the client opened with or did, with version 3 and on the first its proof over the agent's nonce; those answered are the first of them; processes are started as often as the agent's start events say |
| `Asked.FramesFollowEvents` | internal/agent/agent.go:202-204 | what each end of a streaming session has read and has still to read are the frames of the other end's send events |
| `RunOnce.RefusedNeverStarts` | internal/agent/exec.go:31-59 | a refused request starts no process, before or after |
| `RunOnce.OldAgentStartsOnce` | internal/client/run.go:78-80 | when the first agent closes while waiting for a request, every continuation starts the command at most once |
| `RunOnce.AtMostTwice` | internal/client/run.go:81-88 | at most two starts, at most one with a directory; after the fallback the first agent has started the command exactly when it granted a request whose reply was not read |
| `RunOnce.NotGained` | internal/client/run.go:81-88 | once the first agent can no longer start the command, no step of anyone makes it able to |
| `RunOnce.SecondStartIff` | internal/client/run.go:81-88 | at the moment of falling back, some continuation starts the command twice if and only if no reply came to a runnable request without a directory that the first agent granted, has in hand or can still read, and the dialled agent holds the key |
| `RunOnce.RefusalThenOnce` | internal/client/run.go:83-88 | after a refusal no continuation starts the command more than once |
| `RunOnce.StartedTwiceReachable` | internal/client/run.go:81-88 | two starts do happen |
| `Asked.StartsAreSpawns` | internal/client/run.go:81-88 | the starts counted over both connections of a run are its start moves |
| `Proofs.Prove` | internal/keys/keys.go:112-120 | feeding the hash part by part gives the MAC of label, nonce and binding separated by zeros |
| `Proofs.MessageInjective` | internal/keys/keys.go:112-120 | proof texts agree exactly when label, nonce and binding do, for every nonce, the binding being 32 bytes |
| `Proofs.ProofLabels` | internal/keys/keys.go:102-110 | the client's proof text starts with "knit client" and the server's with "knit server", each under the given key |
| `Handshake.StepInv` | internal/agent/agent.go:161-186 | every step of every party, rotation and leak keeps that each proof on a connection has its one kind of sender |
| `Handshake.AgentAuthenticates` | internal/agent/agent.go:177-186 | an agent that accepts under an unleaked key has, on this connection, exactly one client with that key and nonce |
| `Handshake.ClientAuthenticates` | internal/transport/transport.go:140-149 | a session opened under an unleaked key has exactly one agent that accepted it with the same key and nonce |
| `Handshake.BothEndsAgree` | internal/agent/agent.go:161-186 | two completed ends of one connection agree on key and nonce however keys rotate |
| `Handshake.UndisturbedExchange` | internal/transport/transport.go:107-149 | left alone the exchange completes exactly when both loaded the same key |
| `Peers.JoinHostPortInjective` | internal/discovery/discovery.go:28-30 | dial targets are equal exactly when address and port are |
| `Peers.GatherPeers` | internal/client/client.go:65-97 | the result is the first of each target among the others' advertisements and the named peers |
| `Peers.OthersAre` | internal/client/client.go:84-89 | of the discovered peers exactly those not named like this machine stay, in order |
| `Peers.EachTargetOnce` | internal/client/client.go:69-76 | every listed address and port is in the result exactly once, and nothing else |
| `Peers.FirstIsKept` | internal/client/client.go:69-76 | of several peers with one target the first listed is kept |
| `RunFlow.DiscoveredComeFirst` | internal/client/client.go:65-97 | a gathered peer is a discovered one not named like this machine or a named one; of a target in both lists the discovered one is kept; every named target is listed |
| `Discovery.ParsePeer` | internal/discovery/peers.go:23-40 | a parsed peer has a host and a port from 1 to 65535 |
| `Discovery.AcceptedShape` | internal/discovery/peers.go:31-38 | a text with a colon that names a peer is host:port with no colon in the host, or [host]:port, without other brackets |
| `Discovery.BareHost` | internal/discovery/peers.go:24-30 | a text without a colon names the host it is but for white space around it, on port 5648, unless it is blank |
| `Discovery.TrimIs` | internal/discovery/peers.go:24 | only white space comes off a text, and none is left at its ends |
| `Discovery.TargetParsesBack` | internal/discovery/peers.go:23-40 | every address and port written as host:port, bracketed or not, parses back to itself |
| `Discovery.SplitCommaJoins` | internal/discovery/peers.go:44-46 | the pieces hold no comma, and joined by commas they are the text again |
| `Discovery.ParsePeerList` | internal/discovery/peers.go:50-62 | the loop computes the list the next row describes |
| `Discovery.ParsedAre` | internal/discovery/peers.go:50-62 | that list is what each item parses to, in order, where it parses |
| `Discovery.Browse` | internal/discovery/discovery.go:54-74 | the loop computes the list that the next two rows describe |
| `Discovery.BrowsedIsFirst` | internal/discovery/discovery.go:58-70 | every browsed peer is the first addressed entry of its instance |
| `Discovery.FirstIsBrowsed` | internal/discovery/discovery.go:58-70 | every instance with an addressed entry is listed at the address and port of its first one |
| `Discovery.FastestIsFirstBest` | internal/discovery/discovery.go:86-95 | the first of the addresses on the fastest link |
| `Discovery.PickAddrPrefersIPv4` | internal/discovery/discovery.go:77-95 | an IPv4 address whenever one has a link, only otherwise an IPv6 one, or none |
| `Discovery.BrowsedAddressed` | internal/discovery/discovery.go:62-70 | every browsed peer has an address, every name is there once |
| `Scheduler.Pick` | internal/scheduler/scheduler.go:33-49 | the loop computes the left-to-right pick |
| `Scheduler.ScoreIsLoadPerCore` | internal/proto/proto.go:110-117 | the score times the cores is the load, and a machine without cores sorts after every other loaded below a thousand million a core |
| `Scheduler.PickBound` | internal/scheduler/scheduler.go:33-49 | the pick is within (n-1) ties of every score |
| `Scheduler.PickDrifts` | internal/scheduler/scheduler.go:39-47 | for every n some list reaches that bound |
| `Scheduler.TiedGoToFastest` | internal/scheduler/scheduler.go:39-47 | among machines that all tie one on the fastest link is picked |
| `PickLeast.PicksLeastIff` | internal/scheduler/scheduler.go:29-49 | the pick has a lowest score for all links if and only if no score lies above the lowest by at most a tie |
| `PickLeast.PicksLeastIffLocalFirst` | internal/scheduler/scheduler.go:29-56 | with the local machine first: if and only if neither it nor a machine listed at or after the first clearly freer one is that near |
| `PickTie.WithinTieIff` | internal/scheduler/scheduler.go:29-49 | the pick is within a tie of the lowest score for all links if and only if no chain of two ties leads away from it |
| `PickTie.WithinTieIffLocalFirst` | internal/scheduler/scheduler.go:29-56 | with the local machine first: if and only if no such chain starts at or after the first machine clearly freer than it |
| `Scheduler.LocalWinsIffNoneClearlyFreer` | internal/scheduler/scheduler.go:29-56 | the local machine, listed first, wins exactly when no score is below its own minus a tie |
| `Scheduler.Filter` | internal/scheduler/scheduler.go:61-84 | keeps what the next row describes and says truly why nothing is left: that no machine has the architecture, or that the most memory among those that do is less than demanded |
| `Scheduler.KeptIsSubsequence` | internal/scheduler/scheduler.go:61-75 | the kept list is the in-order subsequence of exactly the machines of the demanded architecture with at least the demanded memory free |
| `Scheduler.WinnerMeetsConstraints` | internal/client/run.go:57-74 | the winner has the demanded architecture and at least the demanded memory free, and is near the least loaded that do |
| `Scheduler.ByName` | internal/scheduler/scheduler.go:87-94 | the first of that name, or none exists |
| `RunFlow.ProbeForRun` | internal/client/run.go:94-126 | one distinct session per answering peer; the map has a session under every candidate's key |
| `RunFlow.FoundPositions` | internal/client/run.go:94-126 | the candidates are exactly the peers that answered, in the order of the answers, each with its own address and port and the name, report and link speed of its answer |
| `RunFlow.CloseAll` | internal/client/run.go:52-56 | everything left in the map is closed once more |
| `RunFlow.RunOn` | internal/client/run.go:81-88 | the chosen machine's session leaves the map and is closed once, by streaming or on refusal; only then is it dialled |
| `RunFlow.Run` | internal/client/run.go:35-89 | for every set of sources and order of answers, which outcome each path reports and with what code: the session is reused exactly when the agent takes the run on it, dialled only otherwise; every probe session and every dialled one is closed exactly once; a reused session is the chosen candidate's |
| `RunFlow.CodesAre` | internal/client/run.go:271-284 | the code of every outcome in figures: 2, 1, 126, 127 and 124 for the failures, and otherwise the status of the command |
| `RunFlow.ForgottenIff` | internal/client/run.go:119-124 | closing what the map holds closes every session exactly when no two share a key |
| `RunFlow.CollideIff` | internal/scheduler/scheduler.go:98-103 | over a list without duplicates two sessions share a key exactly when two peers without an address both answer |
| `RunFlow.GatheredNeverCollide` | internal/client/client.go:65-97 | whatever the sources list and in whatever order probes report, no two sessions share a key |
| `RunFlow.OtherCodesAreTheCommands` | internal/client/client.go:18-25 | any code but 1, 2, 124, 126 and 127 is the command's own |
| `RunFlow.ConfusableIff` | internal/client/client.go:18-25 | over everything Run can report, a code is returned both for knit's own failure and for a command's end exactly for those five |
| `Paths.SafeJoinContains` | internal/treesync/treesync.go:107-116 | for every clean root and every name: fails exactly for root "/" and a name that is not the root; otherwise the root's components followed by the cleaned name's, no ".." among them |
| `Paths.PartsLaws` | internal/treesync/treesync.go:109-110 | cleaning component by component: an empty one and "." change nothing, ".." goes up and stops at the root, a proper name goes down |
| `Paths.WriterNamesLand` | internal/treesync/treesync.go:24-48 | the writer's names land on root/name, distinct ones on distinct destinations |
| `TreeSync.WriteTar` | internal/treesync/treesync.go:24-62 | packs a walk entry by entry, skipping the root |
| `TreeSync.Disk.ReadTar` | internal/treesync/treesync.go:66-105 | succeeds exactly when every entry can be placed, and leaves the tree so unpacked; a failure leaves what the entries before the failing one made |
| `TreeSync.UnpackKeepsOk` | internal/treesync/treesync.go:82-103 | whatever is unpacked, a directory tree stays one |
| `TreeSync.UnpackPacked` | internal/treesync/treesync.go:66-105 | unpacking packed paths fails exactly on a file/directory clash and otherwise overlays files and their directories |
| `TreeSync.TarRoundTrip` | internal/treesync/treesync.go:20-105 | pack then unpack into an empty directory is the identity, in any walk order |
| `TreeSync.Snapshot` | internal/treesync/treesync.go:119-143 | the hash of every regular file |
| `TreeSync.ChangedSince` | internal/treesync/treesync.go:145-169 | exactly the files that are not in the snapshot or hash differently there, sorted by name |
| `TreeSync.WriteTarFiles` | internal/treesync/treesync.go:186-210 | packs the list the next row describes |
| `TreeSync.RegularAre` | internal/treesync/treesync.go:190-200 | of the named files exactly those that are still regular files, as often as they are named |
| `TreeSync.SyncMirrorsBack` | internal/treesync/treesync.go:119-210 | applying the delta fails exactly on a clash; the files then equal the original overridden by the remote ones if and only if no changed file collides under the hash |
| `SyncRun.UploadArrives` | internal/agent/exec.go:82-90 | whatever the interleaving and cut, the agent has the client's exact directory or knows the upload failed |
| `SyncRun.SyncEndToEnd` | internal/client/run.go:245-263 | in every run whose waiter finishes with the delta a client that has an exit code has applied it before: that fails exactly on a clash, and otherwise gives the uploaded files overridden by the remote ones if and only if no changed file collides under the hash |
| `SyncRun.SyncRunExists` | internal/agent/exec.go:110-116 | for every delta in chunks there is such a run, heard to its end |
| `Lines.SplitIsCut` | internal/client/each.go:146-160 | cutting a text at newlines gives lines and a tail that make up the text |
| `Lines.CutIsUnique` | internal/client/each.go:146-160 | there is only one such cut |
| `Each.Prefixer.Write` | internal/client/each.go:146-160 | one chunk prints the lines it completes and holds back the rest |
| `Each.Prefixer.Flush` | internal/client/each.go:163-170 | the held tail is printed with a newline |
| `Each.Prefixer.Stream` | internal/client/each.go:134-170 | for every chunking followed by flush, the output is the prefixed lines of the whole text |
| `Each.DisplayShowsText` | internal/client/each.go:146-170 | every line shown starts with the prefix, and without the prefixes the display is the text, given a final newline exactly when it has an unfinished last line |
| `Each.EachMachineInStep` | internal/client/each.go:51-68 | with many prefixers on one mutex each machine's part is its own whole-text display |
| `Each.OnlyWholeLines` | internal/client/each.go:134-136 | the shared output is whole prefixed lines |
| `Each.Worst` | internal/client/each.go:70-79 | the highest code, counting from 0 |
| `Each.FalseSuccessIff` | internal/client/each.go:70-79 | for any codes at all, 0 is returned despite a failure exactly when no code is positive and one is negative |
| `EachCodes.EachOne` | internal/client/each.go:113-131 | for any bytes a peer sends, the code of the frame-by-frame view, and both of its texts shown line by line with the prefix |
| `EachCodes.RemoteCode` | internal/client/each.go:118-131 | a peer's code is the status its process ended with, or 124 |
| `EachCodes.ZeroIffAllZero` | internal/client/each.go:21-24 | with knit at both ends the fan-out returns 0 if and only if every machine's code is 0, and otherwise a highest code |
| `Kahn.OrderRespects` | roadmaps/tools/roadmap.py:124-134 | the order lists distinct items, each after its dependencies |
| `Kahn.LexLeast` | roadmaps/tools/roadmap.py:124-134 | it is the least of all such orders of its items |
| `Kahn.LeftoverIsLargest` | roadmaps/tools/roadmap.py:135-136 | every set whose members each depend on a member is left over |
| `Kahn.LeftoverIffCyclic` | roadmaps/tools/roadmap.py:107-111 | something is left over exactly when there is a cycle |
| `Roadmap.BuildTables` | roadmaps/tools/roadmap.py:117-123 | in-degrees count unmet known dependencies with repetition, rows list dependents as often |
| `Roadmap.Release` | roadmaps/tools/roadmap.py:130-134 | the decrements of one turn restore the loop's invariant with the item emitted |
| `Roadmap.Toposort` | roadmaps/tools/roadmap.py:116-136 | the loop over in-degrees and a sorted ready list computes that order and its leftover, and terminates |
| `Roadmap.OrderIsLeastValid` | roadmaps/tools/roadmap.py:116-136 | valid, at least as large as any valid order, and least among its permutations |
| `Roadmap.LeftoverMeaning` | roadmaps/tools/roadmap.py:107-136 | the leftover is the largest self-supporting set, empty exactly when acyclic |
| `PlanCheck.ValidateDeps` | roadmaps/tools/roadmap.py:92-111 | reports exactly the self-dependencies, unknown dependencies and, if none is unknown, the cycle |
| `PlanCheck.CleanReport` | roadmaps/tools/roadmap.py:92-111 | no error exactly when the plan is sound |

## Left out

- AgentRun.ExitStatus: c.Wait's outcomes are three cases; the stop and core-dump flags of a wait status are not told apart.
- Orphan.ReachableReapsIff: a SIGKILL sent to the group counts as reaped; children that left the group, and forwarded signals racing the reaping of the process, are outside the model.
- ClientSees.ExitIsUnambiguous: reads from the output pipes fail only at end of file, and writes to the client's own terminal succeed.
- Upload.NoFrameIsLost: an upload whose unpacking fails part-way is not modelled; the read end of that pipe stays open and the writer's progress is not guaranteed. Several signals pending while one is forwarded are delivered to the handler one by one.
- AgentConn.HandleConn: dial is granted or refused, and what is spliced afterwards is left out; timeouts appear in `Lockstep` as either end giving up at any moment.
- Handshake.ClientAuthenticates: HMAC is a free symbolic function, so equal proofs come from equal keys and texts; key loading errors and the file write behind the atomic rename are left out.
- Discovery.Browse: what the resolver receives before its deadline is an input, and reading the peer cache gives back what an earlier browse wrote there.
- Scheduler.PickBound: scores and memory are real numbers, so rounding is left out.
- RunFlow.Run: the effect of the terminal messages and the text of errors is left out; probes are answered by a function of the peer, in any order.
- TreeSync.Disk.ReadTar: permissions, symlinks, special files and clashes with them, and failures of the disk itself, are left out.
- TreeSync.Snapshot: files that change or vanish during a walk, and read errors, are left out.
- SyncRun.SyncEndToEnd: the tar format is a pair of inverse functions, and the local directory is unchanged during the run.
- Roadmap.Toposort: item ids are natural numbers in the order Python sorts the strings; the source's test that no message contains "depends on unknown" is the fact that no dependency is unknown, so ids that contain that phrase are left out.
- TLS, certificates, random generation and JSON text: symbolic functions and opaque values.
- The rank environment of `knit each`, local execution, the proxy and SOCKS5, services, sysinfo, argument parsing: plumbing that would add easy members.

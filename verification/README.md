# A verified model of net-stream

net-stream connects a server to its clients over TCP and UDP at once. The server is a broker: one task that
loops over everything that comes in, owns the table of peers, and has a read actor and a write actor for each
TCP connection and for the UDP socket. A client has the same four IO actors and one loop. A client is welcomed
over TCP with a UUID, says Hello over UDP with that UUID, and is acknowledged over TCP.

This project models the broker, the IO actors, the client, the queues between them and the network as one
system of steps, and proves what holds of every run of it, under every interleaving. It also models the example
chat server, which follows the broker's event log with a table of its own.

## How it is built

| file | what it is |
|---|---|
| `Messages.dfy`, `Wrappers.dfy` | what travels, and small shared types |
| `WriteActor.dfy`, `ReadActor.dfy` | the IO actors: their steps, their laws, and their loops as classes |
| `PeerTable.dfy` | the peer table, its three indexes, and what the event log says about it |
| `Server.dfy` | the broker's variables and its steps |
| `ServerActors.dfy`, `ServerSound.dfy`, `ServerEffects.dfy`, `ServerLog.dfy`, `ServerInvariant.dfy` | the broker's invariant, part by part |
| `BrokerCourse.dfy` | what each step logs, and when and why the broker stops, listed by cases of the state before |
| `Broker.dfy` | the broker as a class updated in place; every method is proved to do what `Server` says |
| `Announcements.dfy` | announcements in whatever order the peer map is iterated |
| `Client.dfy` | the client's steps, its invariants, and its loop as a class |
| `ClientEvents.dfy` | what a client's user gets to hear, and what comes of what the user asks for |
| `System.dfy` | the whole system: actions, what each requires, runs |
| `SystemInvariant.dfy` | the invariant of the whole system, kept by every action |
| `Projection.dfy`, `UdpPost.dfy` | what the server tells each peer over TCP, and posts over UDP, during a run |
| `Theorems.dfy`, `Dropped.dfy`, `Attribution.dfy`, `Greetings.dfy`, `Tellings.dfy`, `ChatRuns.dfy` | what holds of every run |
| `Fates.dfy`, `Endings.dfy` | when the broker stops, and what becomes of the peers it condemns |
| `ClientSpeech.dfy`, `Lateness.dfy`, `Speaking.dfy` | when exactly a peer that was dropped can still be heard |
| `LooseRuns.dfy` | what is left of the broker's assertions when anybody presents any UUID |
| `Chat.dfy` | the example chat server |
| `Handshake.dfy` | a concrete run in which a client completes its handshake |
| `Witnesses.dfy`, `WitnessRuns.dfy` | concrete histories and runs in which things go wrong |

Each actor is a datatype with step functions, so that runs can be reasoned about, and a class whose methods and
loops are proved to compute exactly those functions, or to be runs of those steps. An announcement of the broker
tells one peer per step, so that IO actors may run in between.

## What is relied on

- `System.FreshConnection`: a connection is accepted with a UUID never seen before, from a TCP address that is
  not that of a peer still in the table, and before 2^64 - 1 connections were accepted.
- `System.SentBy`: a client's datagrams carry the local address of its TCP stream, to which it binds its UDP
  socket (`src/client.rs:52-56`): no address translation changes it.
- `System.Unguessed`: a UUID that was drawn for a connection is presented only from the TCP address of that
  connection. Other software may so greet like a client of this library; any other datagram may arrive at any
  time, with any source address. `LooseRuns` does without this.
- TCP delivers a prefix of what was written, undamaged and in order, between the library's own ends, after which
  the stream ends, or fails with an I/O error first; software of another make may send anything. UDP loses,
  repeats and reorders at will.
- A bounded channel holds its buffer and one more item per sender, and there is one sender: 33 messages for a
  write actor, 9 for a read actor's control queue, 65 and 257 items between a read actor and the broker.
- A failed assertion, a place marked unreachable or unimplemented, and an explicit panic halt the task; nothing
  is said about what the broker does after that.

## Where the code does less than it says

- The size checks of the broker (`src/server/actor.rs:328-338`) hold only while nobody presents one UUID from two
  addresses. The broker never uses a UUID up, and does not take an older UDP address out of its index
  (`src/server/actor.rs:546-547`). `PeerTable.HelloExact` and `PeerTable.HelloSizes` say when one Hello does no
  harm. Whatever Hellos come from where, the broker halts at the head of its loop if and only if more entries of
  its UDP index are stale than peers are without one, and no other assertion of it ever fails
  (`LooseRuns.HaltsExactly`, `LooseRuns.OnlySizesFail`). `WitnessRuns.TwoHellosHaltBroker` is a run in which it
  halts, and `Witnesses.TwoHellosRaiseTheDead` shows what happens in a build without these checks.
- A comment in `src/server/actor.rs:207-210` has the control queue of a read actor possibly full when a peer is
  dropped. It never is (`Theorems.ControlQueueAlmostEmpty`).
- A TCP message of a peer can follow its PeerDisconnect: its read actor and the items queued behind it are not
  cut off. The chat server then fails at an `unwrap` (`examples/tcp-chat/main.rs:153`). This is decided not by why
  the peer was dropped but by its reader: it can happen if and only if the broker has not halted and a decodable
  item is still queued for it, or the reader goes on and has one, or the stream is open and the far end may yet
  send one (`Speaking.LateExactly`, `Lateness.CanStillSpeak`). It never does when the peer was dropped for the end
  of its stream (`Speaking.HeardOutIsMute`, `Theorems.NothingFromTheDead`). `WitnessRuns` has runs for each other
  cause, and one of a peer dropped for a writer's error that cannot be heard any more; `Witnesses.LateTcpHappens`
  has the chat server fail.
- An announcement over UDP goes to the TCP address of each peer, greeted or not
  (`src/server/actor.rs:515-517`). It amounts to a message to everybody if and only if every handshake is
  complete (`Announcements.AnnouncementIsEveryone`).

## Model

| member | source | states |
|---|---|---|
| WriteActor.StepInv | src/actors/write_actor.rs:131-166 | every step of a write actor keeps the conservation of items: wire and buffer are what the messages taken so far ask for, or a prefix of it after a sink error, and each reason of ending means what it says |
| WriteActor.Conservation | src/actors/write_actor.rs:131-166 | at every moment the wire is a prefix of what was accepted before Shutdown; while the loop runs, wire, buffer and queue are exactly that; between messages nothing is left in the buffer after a Send or Flush; after a clean end the wire is all of it |
| WriteActor.LoopEnds | src/actors/write_actor.rs:131-161 | the loop ends as signalled exactly by taking a Shutdown, for a sink error exactly when a sink operation fails, for want of handles exactly when it finds none, and otherwise goes on |
| WriteActor.CloseEnds | src/actors/write_actor.rs:163-169 | closing the sink, or failing to, keeps the reason for which the loop ended |
| WriteActor.FeedMayStay | src/actors/write_actor.rs:140-145 | after a Feed the task can go on to the next message with the item still in the buffer |
| WriteActor.WrittenAsked | src/actors/write_actor.rs:134-145 | nothing is written that nobody asked to send or feed |
| WriteActor.StepDescends | src/actors/write_actor.rs:131-166 | each step of a write actor without a handle brings it strictly nearer to its end |
| WriteActor.NeverStuck | src/actors/write_actor.rs:131-166 | until it has ended, it has a step to take |
| WriteActor.DrainsAndStops | src/actors/write_actor.rs:131-166 | a run of it is bounded by its rank, takes no more messages than were queued, cannot be continued exactly when the task has ended, and without a sink error leaves everything accepted on the wire |
| WriteActor.MovesInv | src/actors/write_actor.rs:105-166 | whatever the task and the owner of its handle do, in any order: the conservation of items holds, no accepted message is forgotten, and only offered ones are accepted |
| WriteActor.WriteActor.SendActorMessage | src/actors/write_actor.rs:105-115 | a message is queued behind the others, or refused as closed exactly if the task is gone, or as full exactly if 33 are queued, and then nothing changes |
| WriteActor.WriteActor.SendItem | src/actors/write_actor.rs:72-74 | what is owed to the sink grows by the item if and only if the offer is accepted |
| WriteActor.WriteActor.FeedItem | src/actors/write_actor.rs:77-79 | the same for an item that need not be flushed |
| WriteActor.WriteActor.FlushSink | src/actors/write_actor.rs:82-84 | a request to flush adds nothing to what is owed |
| WriteActor.WriteActor.SignalShutdown | src/actors/write_actor.rs:87-89 | nor does a request to stop |
| WriteActor.WriteActor.AwaitSink | src/actors/write_actor.rs:135-151 | awaiting a sink operation, while the owner goes on making offers, leads back to the queue or to closing for a sink error |
| WriteActor.WriteActor.OnMessage | src/actors/write_actor.rs:133-155 | one message is taken off the queue and done; Shutdown, and only that, ends the loop as signalled; after a Send or Flush that succeeds the sink's buffer is empty |
| WriteActor.WriteActor.CloseSink | src/actors/write_actor.rs:163-169 | closing the sink, while the owner goes on, ends the task with the loop's reason whether it succeeds or not |
| WriteActor.WriteActor.Actor | src/actors/write_actor.rs:126-170 | the loop and the closing, from any queue and with any offers made at any moment until the owner leaves, are a run of the task's steps and the owner's; without a sink error the wire ends as all that was ever accepted before Shutdown |
| ReadActor.StepInv | src/actors/read_actor.rs:140-162 | every step of a read actor keeps: what was forwarded is a prefix of the stream, nothing is lost while it runs, and EndOfStream means all was forwarded |
| ReadActor.ReaderLaw | src/actors/read_actor.rs:127-166 | what the receiver got is a prefix of what was forwarded and that of the stream; at an EndOfStream marker it is the whole stream |
| ReadActor.TaskEnds | src/actors/read_actor.rs:140-162 | each of the four reasons ends the task exactly by its own step |
| ReadActor.RunInv | src/actors/read_actor.rs:140-162 | the law holds whatever the task, the receiver, the stream and the owner do, and the stream is what the others brought until it ended |
| ReadActor.ReadActor.SendShutdown | src/actors/read_actor.rs:91-119 | a Shutdown is queued, or refused as closed exactly if the task is gone, or as full exactly if 9 are queued, without any change |
| ReadActor.ReadActor.Forward | src/actors/read_actor.rs:147-151 | an item waits for room and is forwarded, unless the receiver goes away, which ends the task; meanwhile the others go on |
| ReadActor.ReadActor.Actor | src/actors/read_actor.rs:127-166 | the loop, selecting freely among what is ready while items, signals, departures and the end of the stream come at any moment, forwards a prefix of what came, and all of it when it ends with EndOfStream |
| PeerTable.InsertExact | src/server/actor.rs:351-395 | from exact indexes, a new peer keeps them exact if and only if neither its TCP address nor its UUID is in use |
| PeerTable.HelloExact | src/server/actor.rs:536-547 | from exact indexes, a Hello keeps them exact if and only if the peer has no other UDP address on record and nobody else has this one |
| PeerTable.RemoveExact | src/server/actor.rs:407-418 | taking a peer out keeps the indexes exact |
| PeerTable.InjectiveSize | src/server/actor.rs:328-338 | an injective map into a finite set is no larger than it, and as large if and only if onto |
| PeerTable.ExactSizes | src/server/actor.rs:328-338 | exact indexes imply all four size assertions, two of them as equalities, and the UDP index is as large as the table if and only if every peer was greeted |
| PeerTable.HelloSizes | src/server/actor.rs:328-338 | from exact indexes, a Hello makes a size assertion fail if and only if every peer was greeted already and its address is not on record |
| PeerTable.SizesCounted | src/server/actor.rs:328-338 | while the TCP and UUID indexes are exact, and whatever is in the UDP index, the size assertions hold if and only if no more of its entries are stale than peers are without one |
| PeerTable.InsertLogged | src/server/actor.rs:345-405 | accepting a peer below capacity keeps: the log replays to the connected uids, its joins are the uid counter, joins less leaves are the table's size, at most the maximum |
| PeerTable.RemoveLogged | src/server/actor.rs:407-454 | dropping a peer, connected or not, keeps the same |
| PeerTable.GoneForGood | src/server/actor.rs:351-352 | on an orderly log a uid that has left does not come back |
| PeerTable.OnceEach | src/server/actor.rs:399-404 | on an orderly log every uid joins at most once, leaves at most once, does not come back, and says nothing before it joined |
| PeerTable.Joined | src/server/actor.rs:399-404 | on an orderly log every uid issued has joined |
| PeerTable.JoinedBefore | src/server/actor.rs:447-453 | on an orderly log whoever leaves or speaks has joined before |
| ServerActors.DroppedActorsOk | src/server/actor.rs:420-445 | dropping a connected peer turns its two actors into what the actors of a dropped peer are; a running reader has exactly one Shutdown queued, and never refuses it as full; a writer with room has one queued last |
| ServerActors.StepActors | src/server/actor.rs:147-268 | every step of the broker keeps what is known of all IO actors: a connected peer's have handles, no Shutdown, and none of the endings the broker takes for granted |
| ServerSound.StepAgenda | src/server/actor.rs:137-145 | every step keeps: at most one drop is pending, none while awaiting an item, and announcements have only connected peers left to tell |
| ServerSound.StepClean | src/server/actor.rs:143-239 | every step keeps: a connected peer with an actor known to have ended on its own terms is the one about to be dropped |
| ServerSound.HeadAssertions | src/server/actor.rs:138-145 | the head of the loop halts exactly when a size assertion fails |
| ServerSound.StepAssertions | src/server/actor.rs:202-259 | from exact indexes and actors left alone, no step fails an assertion or reaches a place marked unreachable |
| ServerLog.StepExact | src/server/actor.rs:341-418 | every step keeps the indexes exact and each UDP address the peer's TCP address, as long as connections and Hellos are what the surroundings promise |
| ServerLog.StepTranscribed | src/server/actor.rs:571-583 | after every step the log has, for each uid, exactly the decodable items taken from its reader, in order |
| ServerLog.StepHeardOut | src/server/actor.rs:364-368 | every step keeps: a peer dropped for its reader's end had every item of that reader received before |
| ServerLog.StepLateExplained | src/server/actor.rs:159-172 | every step keeps: a TCP message logged after its peer left is of a peer dropped for another cause than its reader's end |
| ServerLog.StepLateTcp | src/server/actor.rs:159-172 | a step makes a log late for a uid if and only if it takes a decodable item of that uid's reader while the uid is not connected |
| ServerLog.StepLateUdp | src/server/actor.rs:555-567 | from exact indexes, no step logs a UDP message of a peer who is gone |
| ServerLog.NoneAfterLeaving | src/server/actor.rs:447-453 | by position: a message after its peer's PeerDisconnect is a late one |
| ServerEffects.StepEffect | src/server/actor.rs:147-268 | what each step does to the table, the readers, the writers, the causes and the pending drops, each apart from the others |
| BrokerCourse.StepHalts | src/server/actor.rs:138-268 | for every step and state: the broker stops if and only if the sizes are wrong at the head, an end it takes for granted is of a connected peer, the UDP socket's actors end, a connection has no address, or commands or listener are gone, and for which of these |
| BrokerCourse.StepGoesOn | src/server/actor.rs:138-268 | otherwise it goes to the head of its loop, from there to await an item, or to tell the peers what is announced |
| BrokerCourse.StepLogs | src/server/actor.rs:399-453 | for every step and state, the events that it logs: a disconnect with the reason of the drop, a new peer while there is room, a decoded message as one of its peer |
| BrokerCourse.DropAllLogs | src/server/actor.rs:143-145 | however many drops are pending, each connected peer among them is dropped once, in order, for its first reason |
| ServerInvariant.BrokerInv | src/server/actor.rs:138-269 | every step of the broker keeps its whole invariant |
| Broker.Broker.HandleNewTcpConnection | src/server/actor.rs:342-405 | accepts below capacity with a new uid, both indexes, two actors, a Welcome and a NewPeer; at capacity changes and logs nothing |
| Broker.Broker.DropPeer | src/server/actor.rs:407-454 | takes a connected peer out of table and indexes, signals its actors and drops their handles, logs exactly its PeerDisconnect with the given reason; for anybody else changes and logs nothing |
| Broker.Broker.Drain | src/server/actor.rs:143-145 | drops all pending peers in order, logs the disconnect of each that is connected, and leaves none pending |
| Broker.Broker.AssertInvariants | src/server/actor.rs:328-338 | while the TCP and UUID indexes are exact the answer is whether no more entries of the UDP index are stale than peers are without one; it is yes if that index is exact too |
| Broker.Broker.AnnounceTcp | src/server/actor.rs:500-511 | in any order of the peers, every connected peer's writer is offered the message once, and no other |
| Broker.Broker.AnnounceUdp | src/server/actor.rs:513-530 | feeds one copy per connected peer in some order that visits each once, and then a flush |
| Broker.Broker.HandleActorMessage | src/server/actor.rs:456-498 | a message for one peer reaches its writer, or over UDP its address on record if any; the count answers the table's size; an announcement is the telling of every peer once, in some order |
| Broker.Broker.HandleHello | src/server/actor.rs:536-553 | records the address of a recognised Hello, acknowledges over TCP, welcomes over UDP; otherwise changes nothing |
| Broker.Broker.HandleUdpReaderStreamItem | src/server/actor.rs:532-569 | a Hello is handled; a message is attributed to the peer indexed by its address, or ignored |
| Broker.Broker.OnTcpItem | src/server/actor.rs:159-174 | a decoded message is logged, undecodable data condemns its peer |
| Broker.Broker.OnUdpItem | src/server/actor.rs:175-190 | a decoded datagram is handled, undecodable data condemns the peer indexed by its address if any |
| Broker.Broker.OnReaderEnd | src/server/actor.rs:197-219 | an EndOfStream condemns its peer and the broker goes on; it stops only at a controlled end of an actor of a peer still connected |
| Broker.Broker.OnWriterEnd | src/server/actor.rs:220-239 | the same for a TCP writer and its sink error |
| Broker.Broker.OnAnnounceTcp | src/server/actor.rs:500-511 | telling all peers at once is the broker's steps in every order of the peers |
| Broker.Broker.OnAnnounceUdp | src/server/actor.rs:513-530 | feeding all copies is the broker's steps in the order visited |
| Broker.Broker.Turn | src/server/actor.rs:138-269 | a whole turn of the loop is the broker's step at the head, the step of its item and the telling of the peers if that announces something; it halts before dropping anybody when an assertion fails |
| Announcements.TellSteps | src/server/actor.rs:500-511 | telling some peers over TCP one by one, in any order, is telling them all at once |
| Announcements.FeedAllQueues | src/server/actor.rs:515-523 | feeding n copies while the writer does not run queues exactly the first min(n, room) of them |
| Announcements.CopiesDistinct | src/server/actor.rs:515-523 | with an exact TCP index the copies go to pairwise distinct addresses, which are exactly those of the connected peers |
| Announcements.ToEachSends | src/server/actor.rs:471-483 | messages to single peers put into the UDP queue one letter per peer with an address on record, in order |
| Announcements.AnnouncementIsEveryone | src/server/actor.rs:513-530 | an announcement and a message to each peer are the same multiset of letters, for any two orders, if and only if every handshake is complete |
| Client.StepReady | src/client/actor.rs:114-202 | every step of a client keeps: readiness to receive over UDP is announced once and before every UDP message |
| Client.AnnouncedFirst | src/client/actor.rs:178-203 | the same by position in the list of events |
| Client.StepHelloEarned | src/client/actor.rs:152-156 | a client says Hello only with a UUID it was welcomed with |
| Client.StepAcksEarned | src/client/actor.rs:157-161 | a client announces that it can send over UDP at most once per acknowledgement received |
| Client.StepCarried | src/client/actor.rs:123-130 | what a client's handle accepted for TCP is what was passed to the write actor and what is still queued, in order; after the client stops, what was passed on is a prefix |
| Client.SubmitAnswers | src/client/actor_handle.rs:42-86 | a request is refused as unreachable exactly if the actor is gone, and as full exactly if 33 are queued; otherwise it is queued last and its message is accepted |
| ClientEvents.StepDoes | src/client/actor.rs:117-215 | for every step: the events it emits, whether it stops the client, and what it hands to the two write actors |
| ClientEvents.StepHeard | src/client/actor.rs:147-210 | every step keeps: the texts the user heard over TCP and UDP are exactly those of the messages taken while the client runs, and the beginning of them afterwards; one leave to send per acknowledgement while someone listens; the first arrival and the heartbeats are noted |
| ClientEvents.StepUdpCarried | src/client/actor.rs:131-138 | what a client's handle accepted for UDP is what was handed to the write actor and what is still queued, in order; after the client stops, what was handed on is the beginning |
| ClientEvents.StepTidy | src/client/actor.rs:211-241 | a client that runs holds its four actors' handles and receives from its readers; one that has stopped has let go of all of them |
| Client.ClientActor.Request | src/client/actor_handle.rs:42-54 | a request is queued last, or refused as full exactly if 33 are queued, or unreachable exactly if the actor is gone, without any change |
| Client.ClientActor.OnTcp | src/client/actor.rs:147-177 | Welcome becomes Hello, the acknowledgement and messages become events, undecodable data ends the actor |
| Client.ClientActor.OnUdp | src/client/actor.rs:178-210 | the first arrival on UDP is announced whatever it is; heartbeats are noted, messages become events |
| Client.ClientActor.Actor | src/client/actor.rs:114-240 | the loop over any sequence of incoming things, and that readiness is announced once and first |
| SystemInvariant.ClientHelloOwn | src/client/actor.rs:152-156 | a Hello that a client wrote carries the UUID drawn for its own connection |
| SystemInvariant.ArrivedHelloRecognised | src/server/actor.rs:536-547 | a Hello with the UUID of a connected peer comes from that peer's TCP address |
| SystemInvariant.SurroundingsHold | src/client.rs:52-58 | what the broker relies on its surroundings for holds at every step of the whole system |
| SystemInvariant.NextInv | src/server/actor.rs:138-269 | every action of every party, including other software that greets and streams that fail, keeps the invariant of the whole system |
| SystemInvariant.RunInv | src/server/actor.rs:138-269 | every state of every run satisfies it |
| Theorems.NoAssertionFails | src/server/actor.rs:202-259 | in no run does a broker assertion fail or is a place marked unreachable reached, and the size assertions hold in every state |
| Theorems.EndsOfTheDropped | src/server/actor.rs:202-235 | in every run an actor that ended as signalled, for want of handles or of a receiver is of a peer already dropped, and the UDP socket's never ended so |
| Theorems.ControlQueueAlmostEmpty | src/server/actor.rs:420-427 | in every run a reader is sent at most one Shutdown ever, none while its peer is connected, so that dropping never finds its control queue full |
| Theorems.OneDropPending | src/server/actor.rs:137-145 | in every state of every run at most one drop is pending, and only at the head of the loop |
| Theorems.NoZombiePeers | src/server/actor.rs:143-239 | in every run a connected peer with an actor known to have ended is the one about to be dropped |
| Theorems.IndexesExact | src/server/actor.rs:378-418 | in every run each index is exactly the inverse of its field, and every UDP address on record is its peer's TCP address |
| Theorems.LogDeterminesTable | src/server/actor.rs:395-412 | in every run the log replays to exactly the connected uids, joins less leaves are their number, at most the maximum |
| Theorems.AnswersExact | src/server/actor.rs:494-496 | in every run the reported number of peers is joins less leaves at that moment, and nothing else is answered |
| Theorems.JoinAndLeaveOnce | src/server/actor.rs:407-412 | in every log of every run every uid joins at most once, leaves at most once and does not come back, however the causes of its drop race |
| Theorems.EverybodyJoins | src/server/actor.rs:399-412 | in every log of every run every uid issued has joined, and whoever leaves or speaks has joined before |
| Theorems.NothingFromTheDead | src/server/actor.rs:364-368 | in every run no UDP message follows its peer's PeerDisconnect, and no TCP message when the peer was dropped for its reader's EndOfStream |
| Lateness.MuteForGood | src/server/actor.rs:407-454 | once a dropped peer cannot speak any more, in no continuation of the run is a message of it logged again |
| Lateness.LateSinceGone | src/server/actor.rs:571-583 | from its drop on, a peer's messages only grow, and its log is late if and only if they have |
| Speaking.SpeaksAgain | src/server/actor.rs:364-368 | whoever was dropped and can still speak has a continuation of the run in which it does |
| Speaking.LateExactly | src/server/actor.rs:364-368 | a run at whose end a peer is dropped goes on to one with a late message of it if and only if the broker has not halted and a message is queued, or the reader goes on and has one or may yet get one |
| Speaking.NotLateWhenDropped | src/server/actor.rs:407-412 | at the moment of its drop no peer has spoken late |
| Speaking.HeardOutIsMute | src/server/actor.rs:198-201 | in every run a peer dropped for the end of its stream cannot be heard any more |
| ClientSpeech.StepStaysMute | src/client/actor.rs:117-240 | a client whose TCP writer has nothing to write and will get nothing never writes to TCP again, whatever its loop does |
| ClientSpeech.FindsWay | src/client/actor.rs:123-138 | a client whose TCP writer has something, or whose loop gets past the UDP requests before a TCP request, has steps after which it has written |
| Theorems.EndToEnd | src/server/actor.rs:571-583 | in every run the TCP messages logged for a client are a prefix of those its handle accepted, and until something on the way stops the rest is in the stages between, in order, also when the stream failed |
| Theorems.CanSendMeansOnRecord | src/server/actor.rs:536-550 | in every run, if a client announced that it can send over UDP and is connected, its address is on record |
| Theorems.CanSendAtMostPerHello | src/client/actor.rs:157-161 | in every run a client announces that at most as often as the broker received a Hello with its UUID |
| Theorems.ReadinessAnnounced | src/client/actor.rs:178-203 | in every run a client announces at most once that it can receive over UDP, and before every UDP message |
| Theorems.ToldInOrder | src/server/actor.rs:460-470 | in every run what a client has taken off its TCP stream is the beginning of what the run told it, except that an I/O error may come last |
| Theorems.UserHears | src/client/actor.rs:162-202 | in every run what a client's user hears over TCP is, in order, the beginning of what the server's application told that client, and while the client runs it is all that the client has taken; the same of what is taken over UDP |
| Theorems.UserIsServed | src/client/actor.rs:131-161 | in every run what the user asks for over UDP is handed on in order, and with someone listening there is one leave to send per acknowledgement taken |
| Projection.StepTold | src/server/actor.rs:390-393 | in every run what a peer's writer accepted grows with each action by exactly what that action tells the peer |
| Projection.ProjectionOfRun | src/server/actor.rs:500-511 | over every run it is the Welcome with the peer's own UUID and then the non-refused messages, announcements and acknowledgements for that peer, in order |
| Projection.RunAcksBounded | src/server/actor.rs:548-550 | in every run a peer is told at most as many acknowledgements as Hellos with its UUID were received |
| UdpPost.StepPosts | src/server/actor.rs:471-553 | what each step of the broker hands to the UDP writer |
| UdpPost.OnlyToPeers | src/server/actor.rs:513-553 | in every run every datagram written was asked for and went to the TCP address of an accepted connection |
| Dropped.DroppedWriterDrains | src/server/actor.rs:433-445 | in every run, once a peer was dropped, its writer takes at most a bounded number of steps, can always take one until it has ended, and without a sink error has written everything accepted before the drop |
| Dropped.EndOnce | src/server/actor.rs:194-267 | in every run the end of each IO actor is consumed at most once |
| Fates.StopsExactly | src/server/actor.rs:138-268 | in every run the broker stops exactly in the cases listed by BrokerCourse.HaltAfter, and otherwise goes on where BrokerCourse.PhaseAfter says |
| Fates.LogsExactly | src/server/actor.rs:399-453 | in every run the log grows with each action by exactly the events listed by BrokerCourse.EventsOf |
| Fates.CondemnedIsDropped | src/server/actor.rs:143-239 | in every run a step that condemns a peer does not stop the broker, whose next step drops that peer if it is connected and logs its disconnect with the reason for which it was condemned |
| Fates.ClosingPeerIsDropped | src/server/actor.rs:198-201 | in every run, when the broker takes the EndOfStream of a connected peer it goes on, and its next step logs PeerDisconnect for a closed connection |
| Fates.DisconnectsJustified | src/server/actor.rs:447-450 | in every log of every run, a peer is reported to have closed the connection only if its stream ended or its writer failed, and to have sent unintelligible data only if something undecodable was taken of it; and the reason is that of the cause of its drop |
| Endings.CanBeDropped | src/server/actor.rs:143-201 | from every state of every run in which the broker has not stopped and a connected peer's stream and reader have ended, the run goes on to one in which that peer was dropped |
| Greetings.GreetedExactly | src/server/actor.rs:536-547 | in every run a connected peer has an address on record if and only if the broker has received a Hello with the UUID drawn for it, and then it is its TCP address |
| Attribution.ReceivedIsLogged | src/server/actor.rs:555-567 | in every run a UDP message is logged for a uid if and only if it was received from the TCP address of that uid while the uid was connected and greeted there |
| Attribution.EveryUdpMessageReceived | src/server/actor.rs:555-567 | in every run every UDP message in the log was received so, when the log was as it is before the message |
| Tellings.EveryoneToldOnce | src/server/actor.rs:500-530 | in every run, between the beginning of an announcement and its end nobody joins or leaves, every connected peer is told exactly once and nobody else, and over TCP gets exactly its copy unless its writer refuses that |
| LooseRuns.OnlySizesFail | src/server/actor.rs:202-259 | in every run, whoever presents whose UUID from where, no place marked unreachable is reached, and an assertion failed only where stale entries outnumber the peers without one |
| LooseRuns.HaltsExactly | src/server/actor.rs:138-141 | in every such run the broker halts at the head of its loop if and only if they do |
| Chat.DecimalReads | examples/tcp-chat/main.rs:132-133 | a counter prints as decimal digits without a leading zero that read back as that number |
| Chat.UsernameReads | examples/tcp-chat/main.rs:133 | the n-th user is called "User " and n |
| Chat.FoldAgrees | examples/tcp-chat/main.rs:128-183 | on every orderly log the chat server crashed if and only if somebody spoke after leaving, and otherwise has exactly the replayed users by their names, and of the k messages posted the last min(10, k) |
| Chat.NamesDistinct | examples/tcp-chat/main.rs:130-138 | no two users connected at once share a name |
| Chat.ChatServer.Remember | examples/tcp-chat/main.rs:165-170 | a message is appended, and of all k messages the last min(10, k) are kept |
| Chat.ChatServer.Handle | examples/tcp-chat/main.rs:129-182 | one event changes the state as the specification says; the first `unwrap` fails exactly for a speaker, and the second exactly for a leaver, who is not known |
| Chat.ChatServer.Serve | examples/tcp-chat/main.rs:128-183 | the loop computes the fold of the log; on an orderly log it fails if and only if somebody spoke after leaving, never at removing a user, and otherwise has the replayed users and the last min(10, k) messages |
| ChatRuns.ChatAgrees | examples/tcp-chat/main.rs:128-183 | after any prefix of the log of any run the chat server has failed if and only if that has a late message, and otherwise has exactly the users it leaves connected, under distinct names, and the last min(10, k) of the k messages posted |
| ChatRuns.ChatCrashes | examples/tcp-chat/main.rs:151-153 | it fails at a message of a peer dropped for another cause than the end of its stream |
| ChatRuns.ChatHasTheTable | examples/tcp-chat/main.rs:128-183 | in every state of every run a chat server that followed the whole log has the broker's peers, and if all drops were for the end of a stream it is running |
| Witnesses.TwoHellosFailAssertions | src/server/actor.rs:546-547 | one UUID presented from two addresses makes the size assertions, which held, fail |
| WitnessRuns.TwoHellosHaltBroker | src/server/actor.rs:138-141 | a run in which a client joins, is welcomed and greeted, then a Hello with its UUID comes from another address, and the broker halts |
| Witnesses.TwoHellosRaiseTheDead | src/server/actor.rs:556-563 | without the checks, a datagram is then attributed to a peer who is gone |
| Witnesses.LateTcpHappens | src/server/actor.rs:225-228 | a run, within all that is relied on, that logs a TCP message after its peer's PeerDisconnect, at which the chat server fails |
| WitnessRuns.LateAfterBadTcp | src/server/actor.rs:168-171 | a run that drops a peer for undecodable data on TCP and goes on to a late message of it |
| WitnessRuns.LateAfterBadUdp | src/server/actor.rs:182-187 | the same for undecodable data on UDP, from the address of other software that was greeted |
| WitnessRuns.LateAfterWriterError | src/server/actor.rs:225-228 | the same for a failed writer |
| WitnessRuns.SilentAfterWriterError | src/server/actor.rs:225-228 | a run that drops a peer for a failed writer of which no continuation has a late message |
| Handshake.HandshakeCompletes | src/client/actor.rs:152-161 | a run in which a client joins, says Hello, is acknowledged, announces that it can send over UDP, and is on record |

## Left out

- Codecs, sockets, name resolution, connecting, spawning and time: a frame is a decoded message or undecodable data, heartbeats may come at any moment, and a UUID or a time is a parameter.
- Payloads: application messages are strings, which the library passes through.
- The insides of channels, `select` and `SelectAll`: a queue with a capacity, and a free choice among whatever is ready. Fairness is not modelled, so nothing is said to happen eventually; what ends does so within a bound on its own steps.
- Cloned client handles: each clone enlarges the request queue by one; the model has one sender.
- Erratic ends (a cancelled or panicking IO task) happen in the model, but of a peer whose actor ended so the broker only logs it, and it is not claimed to be dropped.
- What follows a halt: the unimplemented places (no server handle left, listener gone, a client's refused request or undecodable data) and the `expect` of a new connection's peer address (src/server/actor.rs:343) stop their task.
- The receiver of the server's events going away, at which the next event would halt the broker.
- Data still in the kernel when a connection is reset counts as never having arrived.
- Whether a request of a client's handle for its status is answered, and the ends of a client's IO actors, which its loop only logs.
- Broker.Broker.Turn: assumes that no IO actor runs during the turn; in the step model they do, also in the middle of an announcement.
- Client.ClientActor.Actor: takes what comes out of its merged streams as a sequence; waiting for room in the event channel is not modelled, so the announcement of readiness and the message that caused it are emitted without anything in between.
- Theorems.NothingFromTheDead: says when no TCP message follows; when one can is said by Speaking.LateExactly.
- How a client's wire is cut into frames: what a stream has yielded when it fails is a prefix of what was written.
- A server handle's and the broker's own command channel: a command may come at any moment.
- Messages that the chat server sends, and the chat client.
- Logging, formatting, error types and the command line.

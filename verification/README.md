# Geminio: the protocols and data paths, modelled and proved

Geminio carries many logical streams over one connection, in three layers. A connection
handshakes, exchanges packets and closes. A multiplexer opens dialogues on it, each with an id
both sides agree on, and routes packets by that id. A stream on a dialogue offers raw bytes,
messages and remote calls. This project models the state machines of those layers and the
queues they guard, and proves what holds over every run.

`dafny verify dfyconfig.toml` checks the whole project.

| file | what it holds |
|---|---|
| `Handshake.dfy` | the close handshake as four facts a side, and the close rows of the FSM tables |
| `CloseTables.dfy` | the dialogue's, the client's and the server's transition tables |
| `CloseProtocol.dfy` | two endpoints closing, with all queues and spawned goroutines, as a transition system |
| `CloseSafety.dfy`, `CloseProgress.dfy` | safety, refinement of the handshake, completion |
| `CloseData.dfy`, `CloseExact.dfy` | data before goodbye, and exactly when it fails |
| `CloseGuarantee.dfy` | exactly how many items survive once the close packet is queued |
| `ConnData.dfy` | data over open and closing connections; delivery while nobody closes |
| `Mux.dfy`, `MuxProgress.dfy` | any number of dialogues on one shared wire: non-interference, completion |
| `DialogueObject.dfy`, `ConnObject.dfy` | the handlers and goroutines as methods that update fields |
| `DialoguePair.dfy`, `ConnPair.dfy` | two such objects facing each other |
| `Opening.dfy`, `Routing.dfy`, `DialogueRegistry.dfy` | opening, id agreement, the registry, who is found under an id and for how long |
| `Exchange.dfy`, `Outcomes.dfy`, `RpcObject.dfy` | calls, cancellations, publishes and their acks; what the user is told |
| `WriteLock.dfy`, `RawStream.dfy` | the lock around `writeInCh`; the read cache |
| `EndToEnd.dfy` | bytes from one user's Write to the other's Read, through all of the above |
| `Wire.dfy`, `Codec.dfy`, `Encoders.dfy`, `Framing.dfy` | bytes, packets, the encoders, framing |
| `Ids.dfy`, `OnceDo.dfy`, `Options.dfy` | id counters; the non-blocking once; a value that may be missing |

## How the model is built

Concurrent code is a transition system: an act is what one goroutine does between two
operations that others can see, and a run is any sequence of enabled acts. A theorem about
`Run(s, ls)` is about every scheduling. Code that updates fields is a class as well, and each
of its methods is proved to be the step the transition system takes, through the class's
`View`. Ghost fields and the `facts`, `log` and `taken` components are history: they record
what happened and decide nothing.

The dialogue and the connection share one transition system. They differ where the code does:
a dialogue in DISMISS_HALF answers a dismiss from inside the handler, a connection writes its
last acknowledgement straight to the wire, drops data once it leaves CONNED, and loses what is
still in `writeOutCh` when it ends.

Calls the model cannot see into are parameters or arbitrary: what a handler returns, when a
timeout fires, how much a writer takes, the random seed, the clock, and JSON, which is a pair
of functions assumed to be inverse only on the document at hand (`Codec.Faithful`).

## Where the code does less than its comments suggest

- A write that returned before `Close` can be lost when the peer closes at the same time: the
  peer's dismiss starts `dg.Close` while the stream's own queue is not yet drained.
  `CloseExact.PeerClosesFirst` is such a run. `CloseExact.SurvivesIffDrained` says exactly when
  nothing is lost while the dismiss is not yet queued, `CloseGuarantee.SurvivesIffGuaranteed`
  from then on.
- `open` succeeds although the acceptor answered with an error, because the error in the ack is
  never read. `Opening.RefusedOpenSucceeds` is such a run. The acceptor is there if and only if
  its manager had not ended when `DialogueOnline` ran (`Opening.OpenFindsAcceptorIff`), and the
  error in the ack would have told (`Opening.AckTellsIff`).
- A connection heartbeat of 320 comes back as 80 and a quality of service keeps four bits;
  `Codec.BodyRoundTrip` is an if-and-only-if.
- `Write` admits eight bytes more than the peer's decoder, and the same check in `Publish` and
  `Call` never fires, because it reads a length that is set only when the packet is encoded
  (`Framing.AdmittedButRefusedIff`).
- In-memory `Decode` has no inner packet to decode requests and responses into
  (`Framing.DecodersAgree`).
- The failed remote-method check of `Call` returns with the read lock held. No send after the
  close follows from it, but `fini` then waits for ever (`WriteLock.LeakBlocksFini`); so it does
  behind a `Publish` or `Call` on a full channel (`WriteLock.FullChannelBlocksFini`).
  `WriteLock.FiniProceedsIff` and `WriteLock.FiniAlwaysProceedsIff` say exactly when some, and
  when every, scheduling gives it the lock, wherever the stream's handler is.
- A reader can be told that the stream has ended before it has seen bytes that were written
  before a clean close and have arrived: when the dialogue is done and the stream's own handler
  cannot write one more packet, it runs `fini`, which closes `streamCh` under the read loop
  (`EndToEnd.EofBeforeData`). `EndToEnd.EofIsCompleteIff` says exactly when nothing can be missed.
  Even when the read loop ends by itself, packets that find `streamCh` full once the dialogue is
  done are discarded; `EndToEnd.NothingDiscardedIff` says exactly when none is.
- `handleInStreamPacket` after `fini` sends on a closed channel (`RawStream`, `Panics`).
- The callback of `CallAsync` reports completion and never stores the response, so the model's
  result for it is `Completed`, without data.
- The comments on `Once` say that a call returns after the function has ended and that a
  re-entrant call deadlocks. With TryLock neither holds (`OnceDo.ReturnsWhileRunning`);
  `OnceDo.ReturnsEarlyIff` says exactly when a call comes back early.
- Even and Odd counters are not disjoint: the seed keeps its lowest bit (`Ids.ParitiesMeet`).

## Model

| member | source | states |
|---|---|---|
| Handshake.ChainCausal | multiplexer/dialogue.go:529-710 | in the abstract handshake every step makes one of eight facts true and stays causal, so a run has at most eight steps |
| Handshake.DoneLeavesOneAck | multiplexer/dialogue.go:542-576 | a side that is done leaves its peer waiting for at most the last ack, already sent |
| Handshake.StuckOnlyWhenDone | multiplexer/dialogue.go:529-710 | the handshake stops nowhere but where both sides are done |
| Handshake.TableFollowsFacts | multiplexer/dialogue.go:295-309 | the close rows refuse no event the facts allow; HALF is reached exactly when one of the two acks has happened, the closed state when both have |
| Handshake.RefusesExactly | multiplexer/dialogue.go:295-309 | the close rows refuse exactly: everything once closed, an ack before either close packet, a second close packet the same way before an ack; HALF and closed are entered by the listed events and no others |
| DialogueFsm.TableIsClose | multiplexer/dialogue.go:274-320 | from SESSIONED on the dialogue's table makes the moves of the close rows and no others |
| DialogueFsm.OpeningRows | multiplexer/dialogue.go:286-293 | SESSIONED is entered by one event from the asking and the answering state, and no other way; INIT by none |
| DialogueFsm.EarlyCloseRows | multiplexer/dialogue.go:295-320 | before SESSIONED only the answering side can start to close and only the asking side be told to; every state but FINI can be finished |
| ConnFsm.TablesAreClose | conn/conn_server.go:166-212 | from CONNED on the client's and the server's tables make the moves of the same close rows and no others |
| ConnFsm.OpeningRows | conn/conn_server.go:166-212 | CONNED is entered by the conn ack alone, after the conn packet was sent on the client and received on the server |
| ConnFsm.EarlyCloseRows | conn/conn_client.go:177-209 | before CONNED the client can close and be closed once it has asked, the server close once it was asked |
| CloseSafety.ActKeeps | multiplexer/dialogue.go:385-445 | every act of every goroutine keeps the two-party invariant: one close packet and one ack per side, spawned, queued, in flight or received |
| CloseSafety.NeverEof | conn/conn_base.go:242-281 | a connection that still waits never sees the transport end |
| CloseSafety.CloseIsSafe | multiplexer/dialogue.go:529-595 | in every run, with Close called anywhere and any traffic, no close event is refused, and an endpoint has ended if and only if it sent, received, acked and was acked |
| CloseSafety.StepRefines | multiplexer/dialogue.go:671-710 | one act is no step of the abstract handshake, or one, or, if and only if it is a dialogue's last ack sent from inside the handler, two |
| CloseSafety.RunRefines | conn/conn_base.go:283-356 | every run of two dialogues and every run of a client and a server connection is a run of the one abstract handshake |
| CloseProgress.StepWorks | multiplexer/dialogue.go:344-359 | every act that is not a user's lowers a measure over all queues and pending goroutines |
| CloseProgress.StuckMeansFinished | multiplexer/dialogue.go:721-748 | once closing has begun, a state in which no goroutine can move is one where both endpoints have ended |
| CloseProgress.RunIsBounded | multiplexer/dialogue.go:385-445 | without users, a run is no longer than the work at hand |
| CloseProgress.CloseCompletes | multiplexer/dialogue.go:721-748 | from every such state all schedulings stop within that bound, with both endpoints ended; no timer takes part |
| CloseData.ActFlows | multiplexer/dialogue.go:712-719 | every act keeps, in both directions: received items then items in flight are the items handed over, and the close packet overtakes none |
| CloseData.ActSource | application/stream.go:173-231 | every act keeps: items forwarded by the stream then its queue are the writes, and a closing drain leaves nothing behind |
| CloseData.DataBeforeGoodbye | application/stream.go:195-227 | in every run the peer holds a prefix of what was written; once it has ended, all that was handed over before the close packet, and, where the drain closed the dialogue, every write that returned before Close |
| CloseExact.FinishAlone | multiplexer/dialogue.go:796-827 | once closing a dialogue has begun its own goroutines can end both sides, the streams taking no part |
| CloseExact.EarlyWritesArrive | application/stream.go:629-646 | what was handed to the dialogue before its close packet is queued is received in every run that ends the peer |
| CloseExact.LateWritesCanBeLost | multiplexer/dialogue.go:529-541 | with writes left in the stream's queue when the dialogue is closed, some run ends both sides and loses one |
| CloseExact.SurvivesIffDrained | application/stream.go:195-227 | when a dialogue is closed, every continuation delivers all writes if and only if the stream's queue is empty |
| CloseExact.PeerClosesFirst | application/stream.go:629-646 | a run in which the user writes and closes and the peer's dismiss finds the write still queued |
| CloseGuarantee.StepGuarantees | multiplexer/dialogue.go:529-576 | once the dismiss is queued, no act lowers the number of items guaranteed to arrive |
| CloseGuarantee.GuaranteedArrive | multiplexer/dialogue.go:597-615 | every run that ends the peer delivers the guaranteed items |
| CloseGuarantee.NextStubborn | multiplexer/dialogue.go:542-576 | while the peer has not ended, some goroutine can move without raising the guarantee, the bypass in DISMISS_HALF included |
| CloseGuarantee.GuaranteeIsExact | multiplexer/dialogue.go:542-576 | from every state with the dismiss queued the guarantee is the exact minimum: all ending runs deliver these items, and one delivers no others |
| CloseGuarantee.SurvivesIffGuaranteed | application/stream.go:195-227 | with the dismiss queued, every ending run delivers all writes if and only if the stream's queue is empty and no forwarded write lies beyond the guarantee |
| ConnData.ActConn | conn/conn_base.go:140-281 | every act of two connections keeps: each side holds a prefix of what the other was given, and while it is CONNED that and the packets in flight are all of it |
| ConnData.ConnDataInOrder | conn/conn_client.go:360-376 | in every run of a client and a server connection each side holds a prefix of what the other was given, all of it but the packets in flight while it is CONNED, and all that preceded the close packet when that packet is at its head |
| ConnData.OpenConnsDeliver | conn/conn_base.go:358-392 | two connections that nobody closes come to rest within the work at hand, whatever the scheduling, and each then has everything the other was given |
| ConnData.OpenDialoguesDeliver | multiplexer/dialogue.go:344-445 | so do two dialogues and the streams above them, with every write of either user |
| ConnData.FirstPacketArrives | multiplexer/dialogue.go:597-615 | on either layer, a run from the start that brings the first packet to the other side |
| Mux.OfPush | multiplexer/dialogue.go:361-383 | a packet stamped for one dialogue changes no other dialogue's traffic on the shared wire |
| Mux.HubKeeps | multiplexer/dialogue_mgr.go:352-368 | every act keeps all packets on the wire addressed to registered dialogues |
| Mux.ActAlone | multiplexer/dialogue_mgr.go:370-451 | one act of the hub is, for each dialogue, one act of it alone or nothing |
| Mux.HubRunAlone | multiplexer/dialogue_mgr.go:370-451 | delete all other dialogues' traffic from any run and what is left is a run of this dialogue with the wire to itself |
| Mux.HubDialogueIsSafe | multiplexer/dialogue_mgr.go:370-451 | every dialogue of a hub closes safely and delivers its data in order, whatever the others do |
| MuxProgress.OwnerSteps | multiplexer/dialogue_mgr.go:370-451 | every act of the hub is one step of the dialogue it belongs to and nothing to any other |
| MuxProgress.QuietMeansFinished | multiplexer/dialogue_mgr.go:352-368 | a hub in which nothing can move has ended every dialogue whose closing has begun |
| MuxProgress.HubStepWorks | multiplexer/dialogue_mgr.go:352-368 | every act of a goroutine of any dialogue lowers the work of all dialogues together |
| MuxProgress.HubCloseCompletes | multiplexer/dialogue_mgr.go:352-451 | from every reachable state of a hub all schedulings stop within that work, and then every dialogue whose closing had begun has ended on both sides |
| MuxProgress.HubPlays | multiplexer/dialogue_mgr.go:370-451 | every run of two dialogues with the wire to themselves is what a shared wire makes of them in some run |
| DialogueObject.Dialogue.constructor | multiplexer/dialogue_mgr.go:165-178 | the default dialogue, created SESSIONED, starts as the protocol's open endpoint |
| DialogueObject.Dialogue.Emit | multiplexer/dialogue.go:295-309 | emitting a close event moves the FSM by the close rows, or leaves it and fails |
| DialogueObject.Dialogue.Close | multiplexer/dialogue.go:721-748 | the first call spawns the send of the dismiss, later calls change nothing |
| DialogueObject.Dialogue.HandleInDismissPacket | multiplexer/dialogue.go:529-576 | the protocol's step, the bypass in DISMISS_HALF included; ends exactly on an error or the final ack |
| DialogueObject.Dialogue.HandleInDismissAckPacket | multiplexer/dialogue.go:578-595 | the protocol's step; ends exactly when this is the second ack, or on an error |
| DialogueObject.Dialogue.HandleInDataPacket | multiplexer/dialogue.go:597-615 | data is taken in every open or closing state and discarded in the closed one |
| DialogueObject.Dialogue.HandleOutDismissPacket | multiplexer/dialogue.go:671-684 | the protocol's step for an outgoing dismiss |
| DialogueObject.Dialogue.HandleOutDismissAckPacket | multiplexer/dialogue.go:686-710 | the protocol's step for an outgoing ack; ends exactly when this is the second one, or on an error |
| DialogueObject.Dialogue.HandleOutDataPacket | multiplexer/dialogue.go:712-719 | data goes to writeOutCh whatever the state |
| DialogueObject.Dialogue.HandleIn | multiplexer/dialogue.go:447-460 | taking and dispatching the head of readInCh is one step of the protocol; facing a peer in step it stays in step, never fails, and ends exactly when its handshake is done |
| DialogueObject.Dialogue.HandleOut | multiplexer/dialogue.go:462-476 | the same for the head of writeInCh |
| DialoguePair.InStepMeans | multiplexer/dialogue.go:385-445 | two objects in step have not failed, each has ended exactly when its handshake is done, and each holds what the other was given, in order |
| DialoguePair.Perform | multiplexer/dialogue.go:385-445 | any act of either of two objects, users and goroutines alike, is the protocol's step and leaves them in step |
| DialoguePair.Play | multiplexer/dialogue.go:344-445 | so does every run, which therefore ends without an error and with the data delivered |
| DialoguePair.CloseBoth | multiplexer/dialogue.go:721-748 | once either object is being closed, running its goroutines ends both, without an error and with everything given before the close packets delivered |
| ConnObject.BaseConn.constructor | conn/conn_client.go:99-175 | a connection past its handshake is the protocol's open endpoint |
| ConnObject.BaseConn.Emit | conn/conn_client.go:177-209 | on either side, emitting a close event moves the FSM by the close rows, or leaves it and fails |
| ConnObject.BaseConn.Close | conn/conn_client.go:442-464 | the first call spawns the send of the disconn, later calls change nothing |
| ConnObject.BaseConn.HandleInDisConnPacket | conn/conn_base.go:283-300 | two steps of the protocol: the packet is handled and Close runs at once |
| ConnObject.BaseConn.HandleInDisConnAckPacket | conn/conn_base.go:302-316 | the protocol's step for an incoming ack |
| ConnObject.BaseConn.HandleOutDisConnPacket | conn/conn_base.go:319-336 | the protocol's step for an outgoing disconn |
| ConnObject.BaseConn.HandleOutDisConnAckPacket | conn/conn_base.go:338-356 | the protocol's step for an outgoing ack, which goes to the wire ahead of writeOutCh |
| ConnObject.BaseConn.HandleInDataPacket | conn/conn_client.go:360-376 | data is appended to readOutCh in CONNED and discarded in every other state |
| ConnObject.BaseConn.HandleIn | conn/conn_client.go:289-302 | one turn on the head of readInCh, which reaches readOutCh exactly if it is data and the state CONNED; facing a peer in step it stays in step, never fails, and ends exactly when its handshake is done |
| ConnObject.BaseConn.HandleOut | conn/conn_client.go:304-318 | the same for the head of writeInCh |
| ConnPair.ConnStepIsRun | conn/conn_base.go:283-300 | an act of a connection object is one step of the protocol, or two where the handler calls Close itself |
| ConnPair.InStepMeans | conn/conn_base.go:140-281 | two connection objects in step have not failed, each has ended exactly when its handshake is done, and each holds a prefix of what the other was given, all but what is in flight while CONNED |
| ConnPair.Perform | conn/conn_base.go:283-356 | any act of a client or a server object is that, leaves the two in step and never fails |
| ConnPair.CloseBoth | conn/conn_client.go:442-464 | once either object is being closed, running its goroutines ends both, without an error and with each holding a prefix of what the other was given |
| Opening.ActKeeps | multiplexer/dialogue_mgr.go:191-302 | every act of either manager keeps both registries, and what each session packet and ack in flight says about its sender |
| Opening.RunKeeps | multiplexer/dialogue_mgr.go:191-302 | so does every run, with any number of opens from both sides and any order of delivery |
| Opening.IdIsServers | multiplexer/dialogue_mgr.go:264-267 | every agreed id is the one the recipient side minted for its half, whichever side opened |
| Opening.IdsDistinct | multiplexer/dialogue_mgr.go:264-267 | two dialogues of one side, the default one included, never share an id |
| Opening.OpenAgrees | multiplexer/dialogue.go:322-341 | in every run, after a successful open exactly one object of the peer answers, under the same id, minted by the recipient side |
| Opening.AcceptorThereIff | multiplexer/dialogue.go:633-669 | on either side, the acceptor reaches SESSIONED, and is there until one side closes it, if and only if its manager had not ended when DialogueOnline ran; otherwise it never was and closes at once |
| Opening.AckTellsIff | multiplexer/dialogue.go:505-527 | the ack that opens an opener is its acceptor's, which reached SESSIONED, and is there until one side closes it, if and only if the ack carries no error |
| Opening.OpenFindsAcceptorIff | multiplexer/dialogue.go:322-341 | from the start, for opens of either side: whatever follows the answer, closing included, the acceptor was there if and only if its manager had not ended at that moment, and an open that succeeds is with this acceptor and under its id |
| Opening.OpensThoughRefused | multiplexer/dialogue.go:505-527 | on either side, whenever the acceptor's manager has ended, its error answer still lets the opener reach SESSIONED, with an acceptor that never did and is closing |
| Opening.RefusedOpenSucceeds | multiplexer/dialogue.go:633-669 | a run from the start in which that happens |
| Opening.RoutesToOwner | multiplexer/dialogue_mgr.go:427-437 | a packet reaches the dialogue whose id it carries or nobody, except before registration on the initiator side, and then only if that side's own counter minted the same number; the Routing rows say when it is not nobody |
| Routing.OnlineRoutes | multiplexer/dialogue_mgr.go:191-220 | DialogueOnline makes the accepted dialogue the one found under its id and changes no other lookup, but that the number it negotiated under no longer leads to it |
| Routing.OpenDoneRoutes | multiplexer/dialogue_mgr.go:288-302 | so does the end of a successful OpenDialogue |
| Routing.NegotiatingFound | multiplexer/dialogue_mgr.go:264-279 | a dialogue being negotiated is found under its own number unless another is registered there; no other lookup changes |
| Routing.FailedForgotten | multiplexer/dialogue_mgr.go:280-297 | after a failed open, or one that returns to a manager that has ended, its number leads to nobody |
| Routing.OfflineForgotten | multiplexer/dialogue_mgr.go:222-253 | a dialogue that has ended is no longer found and every other is found as before |
| Routing.NobodyAfterShutdown | multiplexer/dialogue_mgr.go:484-502 | a manager that has ended finds nobody |
| Routing.FoundUntilOffline | multiplexer/dialogue_mgr.go:427-437 | in every run a registered dialogue is found under its id for as long as its manager has not ended and no dialogue of that id has gone offline |
| Routing.ClosingStaysFound | multiplexer/dialogue.go:721-748 | a registered dialogue can begin to close at any time on either side and is still found |
| Routing.OpenGoesThrough | multiplexer/dialogue.go:322-341 | whenever an accepted session waits for its answer and both managers run, answering it and delivering the answer opens both halves under one id, each found by the packets the other stamps with it |
| Routing.OpenSucceeds | multiplexer/dialogue_mgr.go:256-302 | a run from two new managers, whichever side opens, in which that happens |
| Routing.StatesFollowTable | multiplexer/dialogue.go:478-527 | every state change of a dialogue that opens is a row of its transition table, for the event its handler emits |
| Routing.MailConserved | multiplexer/dialogue_mgr.go:370-451 | a session packet or ack that is taken is gone, one that is sent is one more, and nothing else touches the mail |
| DialogueRegistry.DialogueMgr.constructor | multiplexer/dialogue_mgr.go:131-189 | a manager starts running, with the default dialogue ready under id 1 and nothing else |
| DialogueRegistry.DialogueMgr.AcceptSession | multiplexer/dialogue_mgr.go:372-398 | an incoming session packet makes one negotiating object, found under its number unless another is registered there; the registry invariant is kept |
| DialogueRegistry.DialogueMgr.DialogueOnline | multiplexer/dialogue_mgr.go:191-220 | moves an object from negotiating to ready, after which it is the one found under its id, or refuses once the manager has ended; the registry invariant is kept |
| DialogueRegistry.DialogueMgr.OpenDialogueDone | multiplexer/dialogue_mgr.go:288-302 | registers what open returned, after which it is the one found under its id, or refuses; the registry invariant is kept |
| DialogueRegistry.DialogueMgr.DialogueOffline | multiplexer/dialogue_mgr.go:222-253 | removes the entry of the dialogue's id and no other, and keeps all objects |
| DialogueRegistry.DialogueMgr.Find | multiplexer/dialogue_mgr.go:427-437 | the entry of the ready map, else the one of the negotiating map, else nobody |
| DialogueRegistry.DialogueMgr.Fini | multiplexer/dialogue_mgr.go:484-502 | closes every object of both maps and leaves both empty |
| DialogueRegistry.CloseAll | multiplexer/dialogue_mgr.go:490-502 | the loop visits and deletes every entry |
| DialogueRegistry.AcceptThenFind | multiplexer/dialogue_mgr.go:372-437 | a session packet, its answer and a packet stamped with the id of the answer: the packet reaches the new object; once that has gone offline the id leads to nobody, or to whoever negotiates under that number |
| Exchange.ActKeeps | application/stream.go:336-454 | every act of caller, callee and transport keeps the pairing of ids with jobs, replies and waiters |
| Exchange.CallReturnsItsReply | application/rpc.go:69-157 | in every run a Call that returned data returned what the peer's handler produced for that id, and the handler had been given that very call; the Outcomes rows say that it does return it |
| Exchange.AsyncCompletesItsCall | application/rpc.go:159-219 | in every run a CallAsync that completed without error is that very call, whose handler was given it and left no error |
| Exchange.PublishIsConfirmed | application/message.go:51-113 | in every run a Publish that returned without error was received as sent and acknowledged by the application without an error text |
| Exchange.InFlightAccounting | application/stream.go:374-432 | in every reachable state rpcCancels is exactly the requests whose cancel function has not run; it has run exactly once for every request past its handler and never twice; a request over has tried to respond exactly once, any other never; the map is empty as soon as no handler is running |
| Exchange.ResultsAreFinal | application/stream.go:434-454 | no late response, ack or expiry changes a result the user has |
| Outcomes.ResponseReachesUser | application/stream.go:434-454 | a response that arrives for a waiting call tells its user exactly what the handler left: the data for Call, completion for CallAsync, the error text as the error of either |
| Outcomes.AckReachesUser | application/stream.go:320-334 | an acknowledgement that arrives for a waiting Publish confirms it, or fails it with the error text |
| Outcomes.ExpiryReachesUser | application/message.go:93-107 | a timeout reaches the user as its error |
| Outcomes.AnswerTouchesOne | application/stream.go:434-454 | an answer taken is gone from the wire, and changes the caller if and only if its id has a waiter without one, and then that waiter only |
| Outcomes.GivenUp | application/rpc.go:128-146 | a Call given up fails at once and nobody waits for it; the peer is told unless a deadline passed |
| Outcomes.CancelTouchesOne | application/stream.go:423-432 | a cancellation taken is gone from the wire, ends the entry of its own request, once, and no other |
| Outcomes.CallRuns | application/rpc.go:69-157 | from every reachable state, for every new call and whatever its handler leaves, a run after which the user has been told exactly that, or that there is no such method |
| Outcomes.PublishRuns | application/message.go:51-113 | the same for a Publish and whatever the application answers |
| Outcomes.FirstCallRuns | application/rpc.go:69-157 | from the start: any call, any reply, and a Call returns the data, a CallAsync completes, an error text is the error |
| Outcomes.ActAnswers | application/stream.go:585-627 | every act keeps: a response in flight is the only one for its request, which is over |
| Outcomes.AnsweredOnce | application/stream.go:374-454 | in every run a request has at most one response in flight, and once that was taken there is none for ever |
| Outcomes.ProducedIsTrue | application/stream.go:585-627 | a reply is on record as produced exactly when the handler left it |
| Outcomes.ReceivedIsTrue | application/stream.go:310-421 | a job is on record as received exactly when its packet was taken |
| Outcomes.DonesAreTrue | application/message.go:37-49 | a message is on record as done exactly when the application acknowledged it without an error |
| RpcObject.StreamRpc.constructor | application/stream.go:100-142 | the callee starts empty |
| RpcObject.StreamRpc.CancelEntry | application/stream.go:423-432 | an entry is deleted and its function run, once; without one nothing changes |
| RpcObject.StreamRpc.HandleInRequestPacket | application/stream.go:336-421 | the protocol's step for any id: a registered method is served, so is any method when the hijacker has no pattern, one with a pattern as the pattern says, and every other call is answered that there is none; only this id's entry changes, and it exists exactly if the call is served; for an id not seen before the books are kept |
| RpcObject.StreamRpc.HandleInRequestCancelPacket | application/stream.go:423-432 | a known request's cancel function runs and its entry goes, an unknown one changes nothing; the books are kept |
| RpcObject.StreamRpc.FinishRPC | application/stream.go:585-627 | release then one response carrying what the handler left; afterwards the cancel function has run once and one response was tried |
| RpcObject.StreamRpc.Serve | application/stream.go:336-432 | from arrival to response, cancelled on the way or not: one answer, the handler's or the error that there is none, and no entry left; for an id not seen before also one cancel, one attempt, and the requests in flight as before |
| RpcObject.ObjectAccounted | application/stream.go:374-432 | whenever the mutex is free the object's map and counts are the accounting above |
| WriteLock.NeverSendsAfterClose | application/stream.go:649-676 | in every run, for any capacity, senders and interleaving with fini, leaked locks included, no send happens on the closed channel, nothing is left in it, and nobody is inside while fini holds the lock |
| WriteLock.SendOnClosedPanics | application/stream.go:661-665 | without that, a sender inside once the channel is closed would panic |
| WriteLock.BlockedWriteEscapes | application/raw.go:120-139 | once monitorStop is closed, a Write blocked on a full channel can step out and unlock |
| WriteLock.DeadlineEscapes | application/raw.go:120-128 | a Write can leave by its deadline at any time, and then no packet of it was sent |
| WriteLock.OpenToSenders | application/raw.go:84-125 | while the stream is up and the channel has room, a run in which any new sender but one that leaks its lock gets its packet in and leaves, or leaves without if it is too large |
| WriteLock.ClosedToSenders | application/stream.go:649-676 | once fini holds the lock, a run in which it lets go and any later sender gets in, sends nothing and leaves |
| WriteLock.HandlerGoesOn | application/stream.go:173-231 | the handler can leave exactly while it writes a packet, which may fail, or once the channel is closed; in its select it takes a packet exactly when there is one |
| WriteLock.BlockedForever | application/rpc.go:87-96 | while a leaked lock is held, wherever the stream's handler is, or while the handler is away and senders outnumber the slots left, no run gives fini its lock |
| WriteLock.FiniProceedsIff | application/stream.go:649-676 | from every state in which fini waits, some scheduling gives it the lock if and only if no lock has leaked and, with the handler away, all senders without a teardown arm find a slot |
| WriteLock.FiniAlwaysProceedsIff | application/stream.go:173-231 | from every state in which fini waits, no scheduling gets stuck before it has the lock, if and only if no lock has leaked and the senders that need a slot are sure of one after every writer took its own, counting the one that a handler in its select frees before it can leave |
| WriteLock.WaitIsBounded | application/stream.go:649-676 | while fini waits, a run is no longer than the steps that readers and handler have left |
| WriteLock.LeakBlocksFini | application/rpc.go:87-96 | a run from a new stream of any capacity in which one failed remote-method check makes fini wait for ever, the handler still in its select |
| WriteLock.FullChannelBlocksFini | application/stream.go:186-194 | a run from a new stream of any capacity in which the handler fails to write a packet and leaves one sender on the full channel, and fini waits for ever |
| RawStream.Stream.constructor | application/stream.go:100-142 | an empty stream of the given capacity |
| RawStream.PushConserves | application/stream.go:493-512 | a packet sent into a channel with room keeps the conservation of bytes |
| RawStream.ServeConserves | application/raw.go:30-82 | so does one Read, with a buffer of any size |
| RawStream.Stream.HandleInStreamPacket | application/stream.go:493-512 | a packet joins the channel, waits when it is full, is discarded only when it is full and the dialogue is done, and panics after fini |
| RawStream.Stream.TakePacket | application/raw.go:60-81 | what does not fit the buffer goes to the cache; returned, cache and channel stay the bytes that came in |
| RawStream.Stream.Read | application/raw.go:30-82 | any buffer gets as many of the next bytes as fit, in order, as one step of the reader's value; end of stream only with cache and channel empty and the stream closed |
| RawStream.Stream.ReadToEnd | application/raw.go:30-82 | reading a closed stream to its end returns exactly what was left, whatever the buffer size |
| EndToEnd.ActKeeps | application/stream.go:233-249 | every act of users, dialogues, read loop, handler and reader keeps: what came into the channel are the stream packets taken so far but for those discarded, and a channel closed before all was taken was closed early |
| EndToEnd.ReadsWhatWasWritten | application/stream.go:195-249 | in every run, unless a packet was discarded, the bytes read are a prefix of the bytes written at the other end; at the end of the stream, unless it was closed early, all that was handed over before the close packet, and after a clean close all that was written before Close |
| EndToEnd.EofIsCompleteIff | application/stream.go:184-194 | with the dialogue ended, every way to the end of the stream returns all that arrived, if and only if the read loop has already taken every byte of it |
| EndToEnd.NothingDiscardedIff | application/stream.go:493-512 | with the dialogue ended and the read loop ending by itself, every way to the end of the stream returns all that arrived, if and only if the channel has room for the packets not taken yet, but for those that carry nothing |
| EndToEnd.EarlyIsNotTheLoop | application/stream.go:233-249 | a read loop that ends by itself never closes the channel early |
| EndToEnd.FailedAnswerCloses | application/stream.go:233-249 | a message or request that cannot be answered once the dialogue is done ends the read loop and closes the channel early |
| EndToEnd.TakeAfterFiniPanics | application/stream.go:493-512 | a read loop with a stream packet to hand over after fini has closed the channel panics |
| EndToEnd.ReadsAllThenEof | application/stream.go:195-249 | a run from the start, for any capacity above zero: bytes written before a close are all read before the reader is told that the stream has ended |
| EndToEnd.EofBeforeData | application/stream.go:184-229 | a run from the start, for any capacity: bytes written before a clean close arrive, and the reader is told that the stream has ended before it has seen one |
| Wire.HeaderRoundTrip | packet/packet.go:162-197 | a header reads back as written, whatever follows it |
| Wire.HeaderLayout | packet/packet.go:162-169 | the fourteen bytes are version, type, eight bytes of id and four of length, most significant first |
| Wire.Put | packet/packet.go:162-169 | stores a big-endian integer and touches nothing else |
| Wire.FillHeader | packet/packet.go:162-169 | the filled buffer is the specified 14 bytes |
| Wire.WriteAll | packet/decode.go:292-310 | under every pattern of short writes: all of the data is written if and only if some leading writes, none of them failed, took as many bytes as there are; otherwise exactly what all the writes before the first failure took |
| Codec.KindOf | packet/packet.go:97-116 | a type byte names a kind only if that kind is encoded as that byte |
| Codec.TypeNumbers | packet/packet.go:97-116 | the eighteen type bytes: exchanges start at 0x01, 0x11 and so on, and what answers a packet comes right after it |
| Codec.HeartbeatBits | packet/packet_conn.go:57-151 | the two heartbeat bits are a fourth root rounded down, and read back as five times a power of four |
| Codec.PayloadLayout | packet/packet_data.go:47-317 | where every fixed field and flag bit of every type lies in its payload |
| Codec.TalkDocs | packet/packet_sess.go:215-363 | which structure the JSON text behind a session id holds, type by type |
| Codec.ConnComesBack | packet/packet_conn.go:57-151 | a conn body reads back, except that heartbeat 320 becomes 80 |
| Codec.SessionComesBack | packet/packet_sess.go:65-129 | a session body reads back with its quality of service modulo 16 |
| Codec.AcksComeBack | packet/packet_conn.go:166-227 | conn, disconn and session acks read back |
| Codec.TalkComesBack | packet/packet_data.go:118-250 | the bodies made of a session id and JSON read back |
| Codec.BlobComesBack | packet/packet_data.go:274-317 | stream and register bodies read back |
| Codec.CancelComesBack | packet/packet_data.go:47-88 | a request-cancel body reads back, negative types included |
| Codec.BodyRoundTrip | packet/decode.go:152-286 | of all eighteen types, a body reads back unchanged if and only if its heartbeat is not 320 and its quality of service fits four bits |
| Encoders.PutData | packet/packet_data.go:274-289 | copies data behind the fixed fields and touches nothing before them |
| Encoders.FillConn | packet/packet_conn.go:57-92 | the in-place encoder produces the specified bytes |
| Encoders.FillSession | packet/packet_sess.go:65-89 | the in-place encoder produces the specified bytes |
| Encoders.FillSessionAck | packet/packet_sess.go:158-177 | the in-place encoder produces the specified bytes |
| Encoders.FillConnAck | packet/packet_conn.go:166-187 | the in-place encoder produces the specified bytes |
| Encoders.FillDisConnAck | packet/packet_conn.go:251-271 | the in-place encoder produces the specified bytes |
| Encoders.FillWithID | packet/packet_data.go:274-289 | the in-place encoder produces the specified bytes |
| Encoders.FillCancel | packet/packet_data.go:47-61 | the in-place encoder produces the specified bytes |
| Encoders.EncodePacket | packet/decode.go:288-290 | of every type, header filled and patched in place, the bytes are the specified encoding, or nothing when JSON fails |
| Framing.EncodedHeader | packet/packet.go:171-197 | an encoded packet starts with its header and payload, exactly delimited |
| Framing.DecodeEncode | packet/decode.go:152-286 | DecodeFromReader returns the packet and leaves exactly what followed it |
| Framing.FramesRoundTrip | packet/decode.go:152-310 | any list of packets written back to back is read back as that list, every byte consumed |
| Framing.CutShort | packet/decode.go:152-163 | every proper prefix of an encoded packet makes the reader run out of bytes |
| Framing.FramesThen | packet/decode.go:152-286 | after whole packets the reader has exactly those and goes on with whatever follows |
| Framing.ReadPackets | conn/conn_base.go:242-281 | the reader's loop returns the packets of the stream up to its end or the first error |
| Framing.SendPacket | packet/decode.go:292-310 | succeeds exactly when the packet can be encoded and the writer takes all of it; otherwise out is the prefix that the writes before the failure took, together |
| Framing.SendAndReceive | packet/decode.go:292-310 | encoders, short and failing writes, framing and decoder together: the receiver gets exactly the packets before the first whose writes fail before they add up to its length, and all of them if and only if there is none |
| Framing.DecodersAgree | packet/decode.go:24-150 | on every input the reader decodes, Decode gives the same packet if and only if it is no request or response and the buffer holds the declared length |
| Framing.ReaderRefusesHeader | packet/decode.go:152-180 | whatever is shorter than a header, above the size limit or of an unknown type is refused as exactly that |
| Framing.ReaderRefusesShort | packet/decode.go:180-286 | a payload too short for its session id is refused as illegal above the session layer, and a conn packet too short for its fixed fields makes the reader ask for more than there is |
| Framing.ReaderRefuses | packet/decode.go:152-286 | a packet with a payload is decoded only if the declared length covers the fixed fields and is all there; if it covers them and is not all there the reader runs out of bytes, and if it is all there only the JSON text can be refused |
| Framing.DecodeCancel | packet/packet_data.go:63-73 | in-memory Decode takes a request cancel off the ten bytes behind the header whatever length is declared, and runs past the end if they are not there |
| Framing.SizeLimit | packet/decode.go:165-167 | for packets of every type, what is encoded is decoded if and only if its payload fits 10 MiB, and refused as too large otherwise |
| Framing.WriteLimitIsEightTooHigh | application/raw.go:102-105 | of the packets Write lets through, exactly those with eight bytes to spare are decoded; the rest are too large |
| Framing.AdmittedButRefusedIff | application/message.go:81-85 | a packet passes the senders' check and is refused by the receiver if and only if it is a stream packet within eight bytes of the limit, or any other packet above it |
| Ids.IdsRepeatIff | pkg/id/id.go:53-80 | two calls of an Even or Odd counter return the same id if and only if they fall in the same second, modulo 2^32, and a multiple of 2^31 calls apart |
| Ids.IncRepeatsIff | pkg/id/id.go:64-66 | two calls of an Inc counter: the same with 2^32 calls |
| Ids.IdsDistinct | pkg/id/id.go:53-80 | with a clock that never goes back and at most 2^31 calls a second, ids never repeat |
| Ids.ParitiesApart | pkg/id/id.go:99-107 | Even and Odd counters never share an id if their seeds have the same parity |
| Ids.ParitiesMeet | pkg/id/id.go:99-107 | otherwise they do, in every second, for some call of each |
| Ids.LeastAfterTake | pkg/id/id.go:67-80 | taking an id moves the next free one up if it was that one, and not otherwise |
| Ids.LeastAfterReturn | pkg/id/id.go:86-93 | giving an id back makes it the next one if it lies below the next free one, and changes nothing otherwise |
| Ids.IDCounter.constructor | pkg/id/id.go:34-45 | an Even, Odd or Inc counter starts at the random number, and every counter holds no id |
| Ids.IDCounter.ReserveID | pkg/id/id.go:47-51 | a reserved id is never handed out next, and the next id stays what it was if it is another |
| Ids.IDCounter.DelID | pkg/id/id.go:86-93 | in Unique mode an id given back is the next one handed out unless a smaller one is free; in the other modes nothing changes |
| Ids.IDCounter.GetStamped | pkg/id/id.go:53-66 | call n returns the second in the upper half and in the lower the random seed plus 2n (Even), plus 1 + 2n (Odd) or plus n (Inc), 32-bit wrap-around included |
| Ids.IDCounter.GetUnique | pkg/id/id.go:67-80 | the least positive id neither held nor reserved, at most one more than the number held, after which only larger ones are free; 0 only if all are held |
| OnceDo.RunKeeps | pkg/sync/once.go:49-80 | every interleaving keeps: until the flag is set only a call that still holds the lock has entered the function |
| OnceDo.RunsAtMostOnce | pkg/sync/once.go:49-80 | the function is entered at most once, and every call that did not lose TryLock came back after it ended |
| OnceDo.ReturnsWhileRunning | pkg/sync/once.go:70-80 | a call made while the function runs, re-entrant or not, comes back at once having run nothing |
| OnceDo.ReturnsEarlyIff | pkg/sync/once.go:70-80 | a call that found the flag unset comes back before the function has ended if and only if it tries the lock while the holder is in the function or about to enter it |
| OnceDo.OnlyLostTryReturnsEarly | pkg/sync/once.go:49-80 | no other step of any call brings it back before the function has ended |
| OnceDo.NeverBlocks | pkg/sync/once.go:49-80 | every call has a step of its own until it comes back |
| OnceDo.FirstCallRunsIt | pkg/sync/once.go:49-80 | a call made while nobody holds the lock and the function has not run comes back having run it to its end |
| OnceDo.LaterCallLoads | pkg/sync/once.go:49-68 | once it has run, a call is back after one load |

## Left out

- Bounded channels between the goroutines of an endpoint: the close and opening protocols take unbounded queues, so a handler blocked on a full queue is not modelled there; `WriteLock` and `RawStream` do model capacity.
- Transport failure, the 30 second close-wait, deadlines and their wake-ups, heartbeats and every other timer: a timeout is an act that may happen at any moment, or is absent.
- Connections before both sides are CONNED, and heartbeat acks that arrive during a close: connection runs start CONNED with none in flight.
- ConnData.ConnDataInOrder: how much a connection that has left CONNED drops is not counted; it drops by design.
- ConnObject.BaseConn.constructor: starts CONNED, past the handshake that the cited constructor goes through, because connection runs start there.
- Dialogues that start closing before they are SESSIONED: the opening model and the closing model meet at SESSIONED.
- Opening.OpensThoughRefused: the dismiss that a refused acceptor sends after its error answer is begun but not delivered here; closing dialogues are modelled from SESSIONED on.
- Opening.OpenAgrees: says nothing about an open that never returns, since session packets and acks may stay in flight for ever.
- Opening.RunKeeps: ids are taken as fresh each time; `Ids` says when that holds.
- Mux.HubRunAlone: a dialogue enters when both ends have registered it; packets that arrive earlier are dropped by the code and not modelled.
- Exchange.CallReturnsItsReply: request ids are distinct, as `Ids` gives them; message options, cancellation causes and handler contexts are not modelled beyond cancelled or not.
- Exchange.ActKeeps: handlers, and the application that receives messages, may answer at any time and need not answer at all.
- WriteLock.NeverSendsAfterClose: is about `writeInCh`; `messageCh` and `streamCh` are closed under other rules.
- RpcObject.StreamRpc.HandleInRequestPacket: an id seen before is stored over the earlier entry as in the code; which of the two cancel functions is lost is not modelled.
- EndToEnd.ReadsWhatWasWritten: messages are taken as finding room in `messageCh`, and `fini` as getting its lock, which `WriteLock` is about.
- RawStream.Stream.Read: one reader; concurrent readers share the cache without a lock.
- Codec.BodyRoundTrip: over the four heartbeats the package declares, with the fourth root taken exactly; `Cnss` is not on the wire and not in the model.
- Decoders are functions on the bytes they are given, not assignments to fields of a packet object; the encoders are in place.
- Register and its ack; a hijacker's regular expression is any predicate on the method.
- `client/end_retry.go`, `multiplexer/dialogue_hub.go`, options, delegates, monitors and logging: plumbing around what is modelled. The round-robin scheduler of `docs/MULTIPLEXING.md` is not in the code.

# Sasayaki: a verified model of the messaging protocol

Sasayaki clients exchange end-to-end encrypted messages through a hub. Two
clients become contacts by a Noise IK handshake carried by the hub; each then
holds two thread states, one per direction. A thread state is ratcheted for
every conversation opened in its direction, and every conversation has two
session states, one per direction, which advance with every message. Nothing is
ever acknowledged: both ends advance their own copies, and they agree only as
long as the hub hands over, in order, exactly what it accepted.

The project models

- a client: its database (`Storage`, `Database`), its encryption service
  (`Crypto`, `Encryption`) and its protocol steps (`Peer`, `Sasayaki`);
- the hub: its queues (`Queues`), its framed sessions (`Framing`, `Server`) and
  the size of what travels (`Proto`);
- any number of clients and the hub together, with the two halves of every
  operation as separate steps (`Network`);

and proves, about every run,

- that two clients which stay within the limits are synchronised: delivering
  what is on its way would leave them with crossed states, equal titles and
  equal histories (`Pair`, `Sync`, `Reduction`, `Runs`, `Delivery`,
  `Guarantees`);
- that a completed handshake is completed, with the same thread states, at the
  other end as well, and made of the keys both have drawn for it, with no
  condition at all (`Agreement`), and that no data arrives before it is
  (`Readiness`);
- what the limits are, exactly, and what exceeding each of them destroys
  (`Limits`, `Refusals`, `Threads`, `Misaddressed`) and leaves as it was
  (`Confinement`, `Aftermath`);
- that no two encryptions start from the same state, whatever the hub does
  (`Uniqueness`), nor any two ciphertexts it accepts (`Ciphertexts`);
- what can always still be completed, and what never can (`Progress`, `Liveness`).

`Sasayaki.SasayakiState`, `Database.StorageState`, `Server.Memory`,
`Server.HubState` and the classes of `Encryption` are written as the source is:
objects whose methods read and overwrite their fields. Their contracts say that
they compute the functions of `Peer`, `Crypto` and `Queues`, and the network
model is made of those functions; `Simulation` takes every step of the network
with a client object, its connection and the hub's session, in frames.

## How the proof is organised

`Pair.Deliver` receives a list of messages. The invariant (`Sync.Linked`) says
that delivering everything on its way, in both directions, is accepted
throughout and ends in `Pair.InStep`. Receiving keeps it by definition; sending
keeps it because sending and receiving on one side commute
(`Pair.DeliverCommutes`) and because a message sent between crossed sides is
accepted and leaves them crossed (`Pair.SendReceiveInStep`). `Reduction` shows
that each step of the whole network, seen from any two clients, is one move of
one of the two or nothing (`Reduction.StepIsTurn`), so everything proved of a
pair holds in the network.

`Confinement` compares two clients with the pair they would be had a sender
stopped in a conversation just before a message the hub refuses. Every move of
theirs is a move of that pair, or nothing, so that pair stays synchronised, and
it differs from theirs in that direction of that conversation only.

## Where the source is unfinished

The source does not compile and stops in `panic("todo")` or
`panic("no hub support")` where a request should go to the hub
(sasayaki.go:189, 208, 325, 356); the model sends the request there. Elsewhere
it follows the code, except where the code contradicts its own description; each
such place has a lemma about the text as it stands:

- sasayaki.go:105-120 stores a received conversation's states uncrossed and
  drops the state after the title, against crypto.go:7-12. `Peer.ReceiveTitle`
  follows the description. `AsWritten` shows that with the text as it stands
  nothing after a title is ever read and a reply repeats the title's state.
- storage.go:111 looks for tag 1 where "done" is tag 2 (storage.go:38).
  `Storage.AsWrittenReadyIff`: no completed contact would ever be ready.
- `header[0] << 8` is a shift within a byte (hub.go:104, hub.go:154,
  server/client.go:69). `Framing.Rule` has both readings;
  `Framing.AsWrittenReadsBackIffShort` says when they agree.
- `getNextMessage` calls its two handshake handlers by names that do not exist
  and while it holds the mutex they take (sasayaki.go:72-78). They are called
  here, inside the same operation.
- `ConvoExist` does not look at the peer (storage.go:232-242). The model keeps
  it so; `Network.KnownUnderOnePeer` shows that with ids drawn afresh it makes
  no difference.

Findings about limits are part of the results.

- The sender writes its advanced state before the hub answers, so a refused
  message is fatal to its direction of its conversation
  (`Refusals.RefusalIsFinal`), and to nothing else (`Guarantees.EndToEnd`).
- The front end admits plaintexts of up to 10000 bytes and the hub ciphertexts of
  up to 10000, so the longest sixteen break the conversation they are sent in, or
  the thread they open (`Limits.WebLimitIsTooHigh`).
- A title too long to encrypt has by then used up a ratchet of its thread; the
  next message of the row it leaves is taken for the title
  (`Threads.MessageBecomesTitle`). After a title the hub refuses, the next message
  is rejected, and brings the thread back in step
  (`Threads.MessageAfterRefusedTitle`).
- An address typed with capital letters reaches its owner, but the answer finds no
  contact (`Guarantees.MistypedAddressNeverConnects`). A connected client that
  asks again in capitals has its request taken for a conversation, which ratchets
  the receiver's thread: none of the threads it opens afterwards is read
  (`Misaddressed.NoLaterThreadIsRead`), as long as no lost title moves the
  sender's end on as well.

## Reading the statements

STROBE and Noise are symbolic: a state is the term of everything done to it, a
ciphertext names the state, the associated data and the plaintext it was made
from, and decrypting succeeds exactly on a match. Random conversation ids are
parameters of the steps that draw them, required to be new (`Network.NewId`);
ephemeral keys are parameters without any condition. `Network.Damage` records
every call by which a client exceeds a limit towards another and writes something:
a mistyped request, a lost title, a lost message. Statements about two clients
name what must not have happened between them: `Clean` (none of these),
`Titled` (no mistyped request and no lost title), `Intact` (nor a lost message of
one conversation in one direction), `WellAddressed` (no mistyped request).
`Guarantees.Breach` is the call that ends `Clean`, recognisable before it is made.

## Model

| member | source | states |
|---|---|---|
| Guarantees.EndToEnd | sasayaki.go:90-219 | In every reachable state, for every intact conversation: the sender's messages are the receiver's stored ones followed by those on their way, in order, none lost or doubled; titles agree, or the title is the first message on its way. Refused messages of other conversations, or of the other direction, make no difference |
| Guarantees.NeverAnythingElse | sasayaki.go:126-148 | In a conversation that is not intact, what the receiver has stored is still a beginning of what was sent |
| Guarantees.PoppedDataIsAccepted | sasayaki.go:72-148 | Every message of an intact conversation that the hub hands over finds the contact added and is decrypted to the plaintext that was encrypted |
| Guarantees.DataIsNeverDiscarded | sasayaki.go:72-87 | Between clients that have not mistyped each other's address, every data message handed over finds the contact added, whatever sizes are sent, so the discarding branch never discards data |
| Readiness.MoveKeepsPhase | sasayaki.go:56-359 | Every move but a mistyped request, refusals included, keeps two clients in one of the phases of a handshake, with no data ahead of the message that completes it |
| Guarantees.RatchetsInStep | sasayaki.go:126-148 | In every reachable state, following the messages on their way from the receiver's thread state, and from its session state of an intact conversation, gives exactly the sender's |
| Guarantees.QuiescentClientsAgree | sasayaki.go:56-88 | With nothing on its way, connected clients hold crossed thread and session states, equal titles and equal histories |
| Guarantees.PollingCatchesUp | sasayaki.go:56-88 | From every reachable state, finishing what is under way and boundedly many polls, and nothing else, leave the receiver with exactly what had been sent, in every conversation, under the sender's titles |
| Guarantees.AskerConnectedOnlyToReady | sasayaki.go:225-359 | In every run, whatever is refused or mistyped: if the client that asked is connected, so is the one it asked, and the thread states of the two are those of one handshake, crossed |
| Agreement.AskerKeepsAgreed | sasayaki.go:225-359 | Every move of the client that asks keeps that: an answer on its way was made by the present contact of the other, and a completed contact is crossed with it |
| Agreement.AskedKeepsAgreed | sasayaki.go:225-359 | So does every move of the client that is asked |
| Guarantees.HandshakeIsTheOneTaken | sasayaki.go:225-359 | In every run, the session a connected asker holds is that of a request it made and of an answer its peer made, with the ephemeral keys both drew in those calls; its peer holds the other end of it |
| Guarantees.AnsweredWasAsked | sasayaki.go:277-328 | In every run, a client that has accepted holds the session of a request its peer made, under some spelling of its address, and of its own answer |
| Agreement.AskerKeepsDrawn | sasayaki.go:225-359 | Every move of the client that asks keeps requests on their way, stored or pending, and completed sessions, made of keys that were drawn for them |
| Agreement.AskedKeepsDrawn | sasayaki.go:277-328 | So does every move of the client that is asked |
| Guarantees.UnansweredRequestCanComplete | sasayaki.go:225-359 | From every reachable state with one unanswered request, one acceptance, uploads and boundedly many polls connect both ends, whatever else is queued |
| Liveness.CanConnectUnlessCrossed | sasayaki.go:225-359 | From every reachable state two clean clients, unless each waits for the other, are connected by a request, an answer and boundedly many polls, and stay clean |
| Liveness.MessageArrives | sasayaki.go:56-219 | From every reachable state, sending a message that fits and then only polling, processing and uploading, boundedly often, leaves the other end with everything sent before followed by that message, or with the thread it opens |
| Guarantees.CrossedRequestsNeverComplete | sasayaki.go:232-236 | Two clients that have asked each other wait in every continuation, without any condition on the run |
| Guarantees.StatusOnlyAdvances | storage.go:244-341 | Every step of every client moves a contact's status only along the two handshake paths, and a completed contact's states only by one ratchet of one direction |
| Guarantees.MistypedAddressNeverConnects | sasayaki.go:225-273 | Under an address not typed in lower case no contact is ever completed, in any run |
| Guarantees.CleanIffNoBreach | server/client.go:151-157 | A run leaves a pair clean if and only if neither client exceeds a limit towards the other in it, by a call that writes |
| Guarantees.HubLosesNothing | server/client.go:160-189 | In every run of the network, accepted messages are popped ones followed by pending ones, for every recipient |
| Uniqueness.EveryEncryptionIsFresh | crypto.go:128-146 | In every run of the network, whatever is refused or mistyped, two encryptions by any clients in any conversations that start from the same state are the same encryption |
| Uniqueness.FreshUnderAnyHub | crypto.go:128-146 | The same for clients whose hub refuses, loses, repeats, reorders or forges messages as it likes |
| Ciphertexts.NoTwoCiphertextsShareAState | crypto.go:128-146 | In every run, no two ciphertexts the hub ever accepts, from whomever and for whomever, start from one state, and each is on its sender's record |
| Uniqueness.BasesDiffer | crypto.go:128-168 | One client's send sessions in two conversations, with one peer or two, opened or answered, never derive from the same thread state and role |
| Uniqueness.ReceiveKeepsKeys | sasayaki.go:97-111 | Whatever a client receives, its session states stay derived from distinct earlier thread states |
| Refusals.RefusalIsFinal | sasayaki.go:201-212 | Once the hub refuses a message, no continuation has the recipient accept a message of that conversation encrypted with it or later |
| Limits.SynchronisedIffWithinLimits | sasayaki.go:153-219 | In every phase, a send and the hub's answer to it keep two clients synchronised if and only if the content fits the hub's limit or the send fails before it writes |
| Limits.WebLimitIsTooHigh | webserver.go:209 | Of the contents the front end admits, as messages or as titles, exactly those of at most 9984 bytes keep the two ends in step |
| Threads.MistypedIff | sasayaki.go:225-273 | A request under a mistyped address keeps two clients synchronised if and only if each waits for the other |
| Threads.MistypedTaken | sasayaki.go:72-124 | What its recipient makes of it, in each status: a request, a refusal that changes nothing, or a rejection after a ratchet of the receive thread |
| Threads.ThreadOpensIff | crypto.go:128-168 | A title is read if and only if the sender's and the receiver's thread states agree; either way each ratchets once |
| Threads.SenderStaysOvertaken | sasayaki.go:97-124 | Once the receiver's thread is ahead, no move of the sender that loses nothing lets a thread it opens be read |
| Threads.ReceiverStaysOvertaken | sasayaki.go:97-124 | Nor does any such move of the receiver |
| Misaddressed.NoLaterThreadIsRead | sasayaki.go:225-273 | After a connected client has asked its peer again under another spelling, in every continuation in which nothing is lost, no message of a thread it opens is accepted |
| Threads.MessageBecomesTitle | sasayaki.go:165-181 | After a title too long to encrypt, the next message in its row is taken for the title, and all states are crossed again |
| Threads.MessageAfterRefusedTitle | sasayaki.go:165-206 | After a title the hub refuses, the next message in its row is rejected, the thread states are crossed again and the session states are not |
| Confinement.MoveKeepsConfined | sasayaki.go:126-214 | Every move, over-long messages and their refusal included, keeps two clients synchronised but for the direction of the conversation an over-long message was sent in |
| Confinement.UncutDelivery | sasayaki.go:126-148 | In every other conversation and direction the prefix property holds, with titles |
| Confinement.UncutSession | sasayaki.go:126-148 | There the receive state follows what is on its way to the send state |
| Confinement.CutThreads | crypto.go:127-168 | Refused messages leave the thread states in step |
| Confinement.CutDelivery | sasayaki.go:126-148 | In the direction that is cut, what had been stored before the loss arrives, and nothing else |
| Limits.MoveKeepsNumbered | crypto.go:53-125 | Every move keeps the messages of a conversation on their way numbered upwards, from what the receiver has decrypted to what the sender has encrypted |
| Limits.RefusalIsStuck | server/client.go:151-153 | The refused message's number is gone from what is on its way, and the receiver has not passed it |
| Limits.StuckRejects | crypto.go:110-115 | A receiver that waits for a lost message accepts nothing encrypted with it or later |
| Runs.Reachable | sasayaki.go:56-359 | Every state reached from nobody knowing anybody keeps every clean pair synchronised |
| Reduction.ActorMoves | sasayaki.go:56-359 | Every step of the network is, for the acting client and any other, exactly the move between the two that it is meant to be |
| Reduction.OthersSeeNothing | server/client.go:160-189 | A step changes nothing between two clients that do not take it, in their sides and in what is on its way |
| Reduction.StepIsTurn | sasayaki.go:56-359 | Seen from any two clients, every step of anybody is one move of one of them, or nothing |
| Network.NextKeepsGood | storage.go:232-242 | Every step keeps every conversation id with the two clients it was drawn for, in rows, requests and queues |
| Network.KnownUnderOnePeer | storage.go:232-242 | The existence test that ignores the peer agrees with the one that does not, for every message received |
| Sync.MoveKeeps | sasayaki.go:56-359 | Whatever either of two synchronised clients does within the limits, adding, accepting, sending, receiving, they stay synchronised, both opening threads at once included |
| Pair.SendReceiveInStep | sasayaki.go:90-219 | From crossed sides, what one sends the other accepts as that title or message, and they are crossed again |
| Pair.StartThreadCommutes | storage.go:178-197 | Opening a thread and receiving any message give the same rows and the same request in either order |
| Pair.SendInConvoCommutes | storage.go:144-163 | Sending in a conversation and receiving any message, of that conversation or another, give the same rows and the same request in either order |
| Pair.DeliverCommutes | storage.go:144-197 | The same for any list of messages received |
| Pair.DecryptEncrypt | crypto.go:53-125 | The recipient holding the sender's state recovers the plaintext and the sender's next state |
| Delivery.PrefixDelivery | sasayaki.go:126-148 | The prefix property of one linked pair, with titles |
| Delivery.SessionsInStep | sasayaki.go:126-148 | Folding the receive step over what is on its way takes the receive state to the sender's send state |
| Delivery.ThreadsInStep | crypto.go:127-168 | The send thread is the receive thread ratcheted once per thread opened and not yet seen |
| Progress.Drain | sasayaki.go:56-88 | Polling once per pending message empties the queue and changes no other client and no other queue |
| Progress.RequestCanComplete | sasayaki.go:294-359 | The run that completes a request, built from any safe state: one acceptance, uploads and polls |
| Progress.MoveKeepsBothWaiting | sasayaki.go:334-344 | No move of either client ends a wait on both sides |
| Queues.RunConserves | server/client.go:160-189 | For every history of requests, accepted is popped followed by pending, per recipient |
| Queues.NoLossNoReordering | server/client.go:160-189 | However sessions interleave, a recipient's popped and pending messages contain each sender's accepted ones, once, in the order sent |
| Queues.OnlyOneQueueChanges | server/client.go:172-189 | A request leaves every queue but the one it names untouched |
| Queues.AnyCasingReachesTheOwner | server/client.go:151-165 | A message sent under any letter casing joins the queue of the key's lower-case encoding, and no other |
| Hex.SameKeyIffSameLowerCase | server/client.go:154-157 | Two texts name the same key if and only if they agree in lower case |
| Hex.DecodeAt | crypto.go:64-72 | A byte is two digits, high one first, as in base 16 |
| Hex.Alphabet | crypto.go:64-72 | The digits' values, in either case, and the lower-case digit of each value |
| Crypto.ToAuthenticate | crypto.go:63-75 | The buffer filled by three copies; for ids of the right length it is conversation id, sender key, recipient key, side by side |
| Crypto.AuthDataAgreesIff | crypto.go:63-107 | The two parties' 80 bytes agree if and only if conversation, sender and recipient do, in any letter case |
| Crypto.EncryptsIff | crypto.go:53-72 | Encryption fails exactly on more than 64535 bytes or an id that is not hexadecimal |
| Crypto.EncryptAuthenticates | crypto.go:63-87 | A ciphertext authenticates the conversation's 16 bytes, then the sender's key, then the recipient's |
| Crypto.DecryptsIff | crypto.go:90-125 | A ciphertext is decrypted if and only if the holder's state is the one it was made from and conversation, sender and recipient are those it was made for, in any letter case |
| Crypto.SessionsOfAThread | crypto.go:128-168 | The two sessions come from the thread state as it was, labelled with the roles; the four states differ |
| Crypto.HandshakeCompletes | crypto.go:184-241 | With the ephemeral keys drawn, both ends are left with the states of one session, crossed |
| Crypto.AcceptsIff | crypto.go:205-225 | An acceptance succeeds exactly on a request from that peer to us |
| Crypto.FinishesIff | crypto.go:228-241 | An asker finishes exactly on an answer of its peer to its own request |
| Crypto.HandshakesDiffer | crypto.go:205-225 | Two acceptances that share a state or an answer are the same: same clients, same request, same key drawn |
| Crypto.OtherAnswersAreRefused | crypto.go:228-241 | An answer to another request, or of another client, is refused |
| Encryption.EncryptionState.EncryptMessage | crypto.go:53-87 | Mutating a recovered state computes `Crypto.Encrypt`, errors included |
| Encryption.EncryptionState.DecryptMessage | crypto.go:90-125 | Mutating a recovered state computes `Crypto.Decrypt`, errors included |
| Encryption.EncryptionState.CreateConvo | crypto.go:128-168 | Cloning, labelling and ratcheting give the next thread state and the two roles' session states |
| Encryption.EncryptionState.AddContact | crypto.go:184-200 | The first handshake message and the initiator's state |
| Encryption.EncryptionState.AcceptContact | crypto.go:205-225 | Exactly a first message from that peer to us is accepted, with the two states exchanged |
| Encryption.EncryptionState.FinishAddContact | crypto.go:228-241 | Exactly the answer to our first message is accepted |
| Storage.RowRoundTrip | storage.go:266-283 | Contact rows and contact states correspond one to one |
| Storage.ThreadStatesIffAdded | storage.go:91-116 | The thread states are found exactly when the contact is added |
| Storage.TagTellsStatus | storage.go:35-38 | Tag 0 for a request sent, 1 for one received, 2 when done, with an empty blob and both thread states exactly then |
| Storage.LogHolds | storage.go:212-230 | A message is in a conversation's log, on one side, exactly if a row says so |
| Storage.AsWrittenReadyIff | storage.go:110-113 | With the tag test as written, the one stored contact that is ready is a request without content, which has no thread states |
| Storage.WriteContact | storage.go:178-197 | Writing one contact row changes one peer's contact and nothing else |
| Storage.WriteConvo | storage.go:144-175 | Writing one conversation row changes that conversation of that peer and nothing else, and a new one starts with no messages |
| Storage.WriteMessage | storage.go:212-230 | A stored message extends one side of the log of the one conversation its id names |
| Storage.KnownIffWithSomePeer | storage.go:232-242 | The existence query answers for the conversations of all peers |
| Database.StorageState.GetStateContact | storage.go:255-284 | The status and blob of a peer's row |
| Database.StorageState.GetThreadRatchetStates | storage.go:91-116 | The thread states, exactly when the contact is added |
| Database.StorageState.ConvoExist | storage.go:232-242 | Whether some peer has the conversation |
| Database.StorageState.GetSessionKeys | storage.go:121-140 | The session states, exactly when the peer has the conversation |
| Database.StorageState.FinalizeContact | storage.go:322-341 | Completes an existing contact and reports a missing one, all other peers untouched |
| Database.StorageState.UpdateThreadRatchetStates | storage.go:178-197 | Writes exactly one direction of one peer's thread states |
| Database.StorageState.CreateConvo | storage.go:165-175 | Adds one conversation of one peer |
| Database.StorageState.UpdateSessionKeys | storage.go:144-163 | Writes exactly one direction of one conversation, and nothing if there is no such row |
| Database.StorageState.StoreMessage | storage.go:212-230 | Appends one message to one direction of one conversation |
| Sasayaki.SasayakiState.AliceAddContact | sasayaki.go:225-273 | The asking step, its errors leaving the database as it was |
| Sasayaki.SasayakiState.BobReceiveContactRequest | sasayaki.go:277-288 | Stores a request exactly when the peer is unknown |
| Sasayaki.SasayakiState.BobAcceptContact | sasayaki.go:294-328 | The accepting step, its errors leaving the database as it was |
| Sasayaki.SasayakiState.AliceAckAcceptContact | sasayaki.go:334-359 | Completes exactly on the answer to our request |
| Sasayaki.SasayakiState.SendMessage | sasayaki.go:153-219 | The sending step up to the hub, with what a failed title leaves behind |
| Sasayaki.SasayakiState.MessageAccepted | sasayaki.go:209-214 | The plaintext is stored after the hub's acceptance |
| Sasayaki.SasayakiState.HandleNewMessage | sasayaki.go:90-148 | A message from a completed contact: a new conversation with its title, or data, with each failure |
| Sasayaki.SasayakiState.ProcessMail | sasayaki.go:66-88 | The receiving step after the hub's answer, for every status and every failure |
| Peer.AsksIff | sasayaki.go:225-273 | A client asks exactly a stranger with a key for an address; the row and the request it leaves |
| Peer.AnswersIff | sasayaki.go:294-328 | It answers exactly a stored request of that client to it; the states and the answer it leaves |
| Peer.SendFailsCleanly | sasayaki.go:153-199 | A send that fails before it writes leaves everything as it was |
| Peer.ReceivesByStatus | sasayaki.go:66-148 | What a message is taken for by the status of its sender, and which messages are refused without a write |
| Simulation.Ask | sasayaki.go:225-273 | A client object that stands for a client of the network takes its asking step |
| Simulation.Accept | sasayaki.go:294-328 | ... its accepting step |
| Simulation.Send | sasayaki.go:153-206 | ... the first half of its sending step |
| Simulation.Exchange | hub.go:75-172 | A request through the client's connection and the hub's session, in frames, gives the handler's answer and its effect on the queues |
| Simulation.Upload | sasayaki.go:201-214 | ... through its connection and the hub's session, the second half, whatever the hub answers |
| Simulation.Poll | sasayaki.go:56-70 | ... through its connection and the hub's session, the first half of its receiving step; an empty address is no message |
| Simulation.Process | sasayaki.go:66-88 | ... the second half |
| Framing.ParseFrames | server/client.go:61-74 | The frames of any list of payloads under 65536 bytes parse back to the list |
| Framing.FrameHeader | hub.go:92 | The header is the length, high byte first, followed by the data |
| Framing.ReadsBigEndian | hub.go:98-112 | A stream that starts with a length, high byte first, and that many bytes is read as those bytes and the rest |
| Framing.ReadsCutShort | hub.go:98-112 | What a stream that ends within a frame is read as |
| Framing.ParsesOneByOne | server/client.go:61-74 | A stream's frames are its first and those of the rest |
| Framing.AsWrittenReadsLowByte | hub.go:104 | With the shift as written the high byte is not looked at |
| Framing.AsWrittenReadsBackIffShort | server/client.go:69 | With the shift as written a frame is read back if and only if it is shorter than 256 bytes |
| Server.FramedRequestsAreServed | server/client.go:58-127 | A session on framed requests does what serving the requests in order does, up to the first that ends it |
| Server.RequestIsOneOperation | server/client.go:138-197 | A get is one pop and a send one checked append, in the session's own name; any other bytes are no operation |
| Server.SendIsQueuedIff | server/client.go:140-169 | A send puts exactly its message, in the session's name, at the end of the lower-cased recipient's queue if it is well-formed, and changes nothing otherwise |
| Server.SuccessIff | server/client.go:151-169 | It is answered with success exactly if it is well-formed, and otherwise with what is wrong |
| Server.AcceptedMeansQueued | hub.go:113-124 | What the client reads as success is that the message was queued |
| Server.GetTakesHead | server/client.go:172-189 | A get takes the head of the session's own queue and touches no other |
| Server.GetAnswersHead | server/client.go:174-196 | The address read in its answer is empty exactly when the queue was; otherwise the answer is the head |
| Server.OthersEndTheSession | server/client.go:79-110 | Any other request, or none, changes nothing and is not answered |
| Server.ServesInOrder | server/client.go:58-127 | A session leaves the queues as after all its answered requests, and its output is their answers in order |
| Server.ServeConserves | server/client.go:138-197 | Whatever bytes arrive, a session conserves messages |
| Server.RequestResponse | hub.go:75-172 | A request through both ends comes back as exactly the handler's answer |
| Server.Memory.HandleSendMessage | server/client.go:140-170 | Every check, the lower-casing and the append, with each answer |
| Server.Memory.HandleGetNextMessage | server/client.go:172-197 | Pops the head of the session's own queue, or answers empty |
| Server.Memory.HandleClient | server/client.go:58-127 | The session loop on any byte stream |
| Server.HubState.Write | hub.go:91-97 | Writes the length, high byte first, and the data |
| Server.HubState.Read | hub.go:98-112 | Reads one answer, and drops the connection exactly if there is none |
| Proto.RequestFitsIff | hub.go:92 | An encoded request fits the two-byte header if and only if its ciphertext has at most 65425 bytes |
| Proto.AdmittedContentFits | crypto.go:54-57 | Every content the encryption admits gives a request that fits, so the prefix never truncates |
| Proto.AnswerFits | server/client.go:179-193 | The hub's answer to a get fits the header, with the largest content it accepts |
| Proto.MessageReads | serialization/messages.proto:16-20 | A reader of the encoding finds address, conversation and content, in fields 1, 2 and 3 |
| Proto.RequestReads | serialization/messages.proto:5-24 | It finds the type of a send request in field 1 and its message in field 2 |
| AsWritten.TitleIsRead | sasayaki.go:97-124 | With the uncrossed rows of the text the title is still read |
| AsWritten.NothingAfterTheTitleIsRead | sasayaki.go:105-120 | With them, whatever the opener encrypts after the title is rejected and changes nothing |
| AsWritten.ReplyRepeatsTheTitleState | sasayaki.go:105-120 | With them, a reply starts from the state the title was encrypted from |

## Left out

- The cryptography inside STROBE, Disco and Noise, and secrecy: the libraries are replaced by symbolic terms.
- The protobuf library: a parameter of the session (`Server.Codec`); only the encoding of a send request is written out. What a client needs of it is `Server.Reads`.
- Dialling, reconnecting, lost answers and reads cut short by the transport: every request to the hub completes, and a body is cut short only by the end of the stream.
- A client adding itself: the network allows it and the statements without `Clean` cover it, but two clients of a pair are different.
- `deleteContact` (sasayaki.go:362-370): it stops with "not implemented".
- Dates, row numbers, contact names and the verifications table: the protocol does not read them.
- The web front end, the notification service, the configuration and key files: only the front end's content limit is used.
- Two rows for one key: the tables are maps, and the model shows that no step inserts a row that exists.
- The drawing of ids and keys: the steps take them as parameters, ids required to be new.
- Database.StorageState.CreateConvo: requires an id that no row has, where the table would take a second row; both callers establish it.
- Database.StorageState.UpdateThreadRatchetStates: requires a completed contact, where the statement would write any row; both callers have read its states just before.
- Database.StorageState.StoreMessage: requires the conversation to exist, where the table would take any id; both callers have its row.
- Storage.RowRoundTrip: the serialised handshake state and the stored request are one abstract cell, as the libraries' encodings are not modelled.
- Encryption.EncryptionState.DecryptMessage: does not distinguish absent content, which the hub never delivers, from content that fails to decrypt.
- Server.RequestResponse: requires the answer to fit a frame, which depends on the library's encoding of it; the hub's answers carry at most 10000 bytes of content.
- Simulation.Upload: requires the request and its answer to fit a frame, like `Simulation.Poll`; `Proto.AdmittedContentFits` and `Proto.AnswerFits` say that they do in the encoding of Protocol Buffers.

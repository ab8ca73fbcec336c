# Verification of mygosh

A Dafny model of the parts of mygosh whose correctness is hardest to see by reading: the channel
multiplexer that runs after authentication, the command protocol on top of it, the binary codec and
private-key parser, the signed authentication exchange, the completion of a server process, and the
authorization of a launch. `dafny verify dfyconfig.toml` checks everything.

## What is modelled

**The multiplexer (`lib/session`).** Two endpoints and two FIFO links form one transition system
(`Endpoint`, `Network`). A step is one critical section of the code, with the queueing of its envelope: a
call of the application, a worker, the dispatcher, the writer, or the receiver handling one envelope with
`routeEnvelope` and its handlers. `Send` takes two steps. Whether a limit has room is left open in every step, so what is shown for every run holds for
every answer. Results that say that some run exists are about runs in which each answer is the one the
configured limits give: `Budget` counts frames and bytes as the code does (`Protobuf` and `Envelope`
give the encoded sizes), lets calls fail on a full budget, and accepts a refusal only from a receiver that
met its limit. Characters of strings stand for bytes there.
`Flight` and `Direction` give each direction of each channel pair a view (data, EOF, credit, requests
and replies under way) and an invariant; `Links` and `Mates` tie the two channel tables together;
`Traffic`, `Control`, `Removal`, `Writer`, `Opening`, `Receiving`, `Parting`, `Greeting` and `Incoming`
show, one kind of step at a time, that the invariant survives. The main results are in

- `MuxSafety`: the invariant holds in every state of every run;
- `MuxErrors`: an envelope of an honest peer is a protocol error only if an application closed a channel
  of that pair or abandoned its open or a request, or abandoned the global request it answers; runs
  without those have no protocol error at all;
- `LateSend` and `LateWithin`: why `MuxSafety` and `MuxErrors` ask applications not to queue a frame after
  the EOF of its channel: exactly the turns that do so open the way to a protocol error;
- `MuxFlow`: credit is conserved, no 32-bit addition wraps, and a drained sender has its window back;
- `Delivery`: what `Recv` returns is, in order, what `Send` put on the one mate of the channel, across
  closes, cancelled sends and abandoned calls;
- `Handshake`: phases never go back, at most one close per end, and a close once begun is complete at both
  ends as soon as nothing of it is under way;
- `Texts`, `Witness`, `Refusals` and `Flood`: exactly which valid configurations are free of protocol
  errors and which can get stuck, with a run within the limits for every one that is not safe.

`SessionObjects` is the `Session` object itself, with its queues, budgets, table and counters updated
in place. Each critical section is a method of its own; its invariant counts what goroutines hold between
two of them, so the methods may follow each other in any order. `WriteRace` is the race of a caller, the
session's end and the writer for queued writes.

**The command protocol (`lib/command`, `app/client/command`).** `Chunking` is the binary-search chunker
over concrete protobuf bytes, `StartCodec` the start request, `CommandProtocol` the server's copiers and
serving loop, the client object, and every interleaving of the two.

**Codec and keys (`lib/bincoder`, `lib/keys`).** `Bincoder` has the encoder and decoder objects and the
stream helpers; `OpensshKey` the parser and the serializer whose image it accepts. The number and string
items are those of section 5 of RFC 4251, the public blob that of section 4 of RFC 8709.

**Authentication (`lib/auth`).** `AuthExchange` runs any number of clients and servers against an
adversary who owns the network. Payloads are concrete protobuf bytes, proved to be injective and
different for the two roles; signatures of honest keys cannot be forged; the hash has no collision
among the values hashed in the run.

**Server processes (`app/server`).** `ProcessRace` is the completion race of `runner.go`; `Launch` the
pipeline from policy, key constraints and start request to argument list and environment; `KeyOptions`
the options of an authorized key (`lib/trust`) that become those constraints.

## Where the code does less than one might expect

Each of these is stated exactly in the model.

- A configuration that passes `Validate` may have code or message limits that are too small for the
  session's own reject texts; then a refusal is a protocol error, unless the byte budget is so small that
  the text never gets out (`Flood.SafeExactly`).
- `Validate` admits windows with which a legal frame can wait for ever, if the byte budget lets a channel
  open (`Witness.StuckExactly`).
- `CloseWrite` between the two halves of `Send` puts EOF before data, which is fatal
  (`Witness.RaceExactly`, `LateWithin.DisciplineWithin`); the other results ask applications not to do
  that (`Network.Disciplined`).
- An exit status outside 32 bits, a failure text over 1024 or a signal name over 64 characters, or an exit
  frame over the channel's maximum does not reach the client (`CommandProtocol.ExitRoundTrip`).
- `ReadBytes` cuts its limit to 32 bits (`Bincoder.ReadWritten`).

## Model

| member | source | states |
|---|---|---|
| `MuxSafety.StepKeeps` | lib/session/session.go:464-911 | every move of either endpoint (calls, workers, dispatcher, writer, receiver, for every answer of the limits) keeps the joint invariant of both channel tables, all queues and both links |
| `MuxSafety.RunKeeps` | lib/session/session.go:339-462 | the invariant holds in every state of every finite run |
| `MuxErrors.RouteSafe` | lib/session/session.go:464-772 | the next envelope is a protocol error only if an application closed one end of its pair, abandoned its open or a request, or abandoned the global request it answers; otherwise, with room in the queues, it is handled |
| `MuxErrors.NoProtocolError` | lib/session/channel.go:205-454 | in runs without local close and abandoned calls neither endpoint ever reports a protocol error, on receipt or at admission |
| `MuxErrors.TrafficMeets` | lib/session/session.go:659-716 | data, adjusts, EOFs, requests and replies of an honest pair find their channel in the table, open, and knowing its mate |
| `MuxErrors.AnswerSafe` | lib/session/session.go:592-657 | the result of an open that was not abandoned finds the opener waiting, and its peer id is new |
| `MuxErrors.OpenSafe` | lib/session/session.go:493-522 | an incoming open never repeats a peer id; with room it is admitted |
| `MuxErrors.GlobalSafe` | lib/session/session.go:774-898 | global requests are never duplicates, and a global result meets its waiter unless the request was abandoned |
| `MuxFlow.CreditConserved` | lib/session/channel.go:234-307 | in every state of every run, both directions of every open pair: sender window, reservations, data and adjusts in flight, held-back credit and unread bytes add up to the initial window, and no 32-bit addition wraps |
| `MuxFlow.ConservedNeverWraps` | lib/session/session.go:659-716 | conservation alone rules out wrapping in Recv, in window adjusts and in refunds, and makes every frame in flight fit the receiver's window |
| `MuxFlow.DrainedWindow` | lib/session/channel.go:284-307 | once a direction is drained the sender lacks less than the adjust threshold |
| `MuxFlow.NeverStuck` | lib/session/config.go:200-243 | with packet size plus threshold at most window plus one, no run leaves a legal frame without window when nothing is left to wait for |
| `LateSend.DisciplineExact` | lib/session/channel.go:234-246 | after any run without closes and abandoned calls, the next turn opens the way to a protocol error, for some answers of the limits, if and only if it queues a frame after the EOF of its channel |
| `LateSend.LateSendFails` | lib/session/channel.go:417-444 | from every such state, whatever else is queued or on the wire |
| `LateWithin.DisciplineWithin` | lib/session/session.go:1013-1025 | the same where every answer is the one the configured limits give: only such a turn lets the run come to a protocol error, and it does if the peer has room for what is on the way to it |
| `Witness.StuckExactly` | lib/session/config.go:200-243 | some run within the limits gets stuck if and only if that margin is missing and the byte budget carries the smallest open |
| `Texts.SafeWithin` | lib/session/session.go:1220-1264 | no run within the limits has a protocol error if every reject text that the budget can carry fits the limits on codes and messages |
| `Flood.SafeExactly` | lib/session/config.go:108-178 | if and only if: for each text that does not fit there is a run within the limits, down to a queue really filled, in which it is fatal |
| `Flood.DefaultsAreFine` | lib/session/config.go:65-106 | the defaults are valid, safe and never stuck |
| `Flood.ValidationIsNotEnough` | lib/session/config.go:200-243 | validation implies neither |
| `Witness.RaceExactly` | lib/session/channel.go:234-246 | with CloseWrite allowed between the halves of Send, some run within the limits comes to a protocol error if and only if the byte budget carries the smallest open |
| `Direction.KeepReserve` | lib/session/channel.go:234-237 | reserving window keeps flow and order of a direction |
| `Direction.KeepQueue` | lib/session/channel.go:239-246 | queueing the reserved frame keeps them |
| `Direction.KeepCancel` | lib/session/channel.go:247-254 | refunding a frame cancelled in the queue keeps them, without saturating |
| `Direction.KeepArrive` | lib/session/session.go:672-693 | a frame of an honest sender passes every check and taking it in keeps the invariant |
| `Direction.KeepTake` | lib/session/channel.go:278-308 | Recv with its adjust keeps the invariant, and its additions do not wrap |
| `Direction.KeepAdjust` | lib/session/session.go:704-715 | an adjust is accepted, without overflow |
| `Direction.KeepEofSent` | lib/session/channel.go:417-444 | EOF goes after all data |
| `Direction.KeepEofArrives` | lib/session/channel.go:596-611 | EOF is accepted once, after all data |
| `Direction.KeepRequestArrives` | lib/session/channel.go:528-563 | an awaited request is no duplicate, and is in exactly one place whether queued or refused |
| `Direction.KeepReplyArrives` | lib/session/session.go:727-738 | a reply meets its waiter, which goes once |
| `Delivery.DeliveredInOrder` | lib/session/channel.go:273-318 | in every run: delivered frames are in order what the unique mate sent, less sends taken back (a prefix if there were none); an empty queue of a channel not closed here means everything that arrived was delivered |
| `Delivery.EofIsComplete` | lib/session/channel.go:310-318 | at an orderly EOF the reader has had every frame that was not taken back |
| `Delivery.RunHistory` | lib/session/session.go:659-693 | the history invariant behind both holds in every state, closes and abandoned calls included |
| `Handshake.NeverReopens` | lib/session/channel.go:456-513 | closing, closed and failed channels never open again in any run |
| `Handshake.ClosesOnce` | lib/session/channel.go:456-495 | no endpoint emits two closes for one channel, timeouts included |
| `Handshake.CloseCompletes` | lib/session/channel.go:626-675 | without timeouts, once no close is in flight both ends are open, or both are closed and gone from both tables |
| `Handshake.CloseEnds` | lib/session/channel.go:456-495 | a close once begun is complete at both ends in every later state with no close in flight |
| `Handshake.CloseWelcome` | lib/session/channel.go:626-649 | without timeouts a close finds its channel open or closing, unless the open was abandoned |
| `SessionObjects.SessionObject.ReserveQueueBudget` | lib/session/session.go:1013-1025 | succeeds exactly within both limits, adds exactly that much, and the caller has it in hand |
| `SessionObjects.SessionObject.ReleaseQueueBudget` | lib/session/session.go:1027-1040 | what a goroutine has in hand is always counted, so the subtraction never stops at zero |
| `SessionObjects.SessionObject.PushWrite` | lib/session/session.go:977-998 | with its share in hand a write goes in unless the queues are closed; the queue-exhausted branch is unreachable whatever other goroutines have in hand |
| `SessionObjects.SessionObject.EnqueueWrite` | lib/session/session.go:969-998 | full exactly when the budget is; otherwise queued or shut, with nothing left in hand |
| `SessionObjects.SessionObject.PushTask` | lib/session/session.go:1004-1010 | the dispatch queue never overflows either |
| `SessionObjects.SessionObject.EnqueueDispatch` | lib/session/session.go:1000-1011 | full exactly when the budget is; otherwise queued |
| `SessionObjects.SessionObject.PopWrite` | lib/session/session.go:408-427 | the oldest entry of either queue comes out, and its share is in the writer's hand until released |
| `SessionObjects.SessionObject.PopTask` | lib/session/session.go:374-380 | the same for the oldest dispatch task |
| `SessionObjects.SessionObject.ReserveQueued` | lib/session/channel.go:846-859 | succeeds exactly within the channel's and the session's limits |
| `SessionObjects.SessionObject.HandleData` | lib/session/session.go:659-693 | a violation exactly if one of the four checks fails, no room exactly if a limit of the channel or the session would be passed, otherwise the frame is stored and all books are exact |
| `SessionObjects.SessionObject.StoreFrame` | lib/session/session.go:685-692 | the share in hand becomes the channel's |
| `SessionObjects.SessionObject.TakeFrame` | lib/session/channel.go:278-300 | first frame out, window and credit as the transition system has them, its share in hand |
| `SessionObjects.SessionObject.Recv` | lib/session/channel.go:278-308 | the same with exactly that share released |
| `SessionObjects.SessionObject.PushEvent` | lib/session/channel.go:540-586 | no room exactly if a limit would be passed; otherwise the event is queued |
| `SessionObjects.SessionObject.StoreEvent` | lib/session/channel.go:562-586 | the event buffer never overflows |
| `SessionObjects.SessionObject.TakeEvent` | lib/session/channel.go:713-715 | the oldest event goes to the worker and stays counted |
| `SessionObjects.SessionObject.ReturnEvent` | lib/session/channel.go:716-718 | gives back exactly the event's share, or nothing once the queues are discarded |
| `SessionObjects.SessionObject.NewChannel` | lib/session/session.go:1073-1082 | ids are never reused |
| `SessionObjects.SessionObject.AddPendingChannel` | lib/session/session.go:1084-1101 | full, duplicate or added, exactly; counters stay exact and within limits |
| `SessionObjects.SessionObject.JoinPeer` | lib/session/session.go:1103-1111 | a peer id is taken exactly if it is new |
| `SessionObjects.SessionObject.ActivateChannel` | lib/session/session.go:1113-1126 | moves one pending channel to active; before shutdown the underflow check never fires |
| `SessionObjects.SessionObject.ForgetPeers` | lib/session/session.go:1152-1156 | the loop removes exactly the ids that lead to the channel |
| `SessionObjects.SessionObject.RemoveChannel` | lib/session/session.go:1144-1168 | exactly that channel and its ids go; both counters stay exact |
| `SessionObjects.SessionObject.ReservePendingChannelRequest` | lib/session/session.go:1193-1201 | succeeds exactly below the session's limit, and the waiter is in hand |
| `SessionObjects.SessionObject.ReleasePendingChannelRequest` | lib/session/session.go:1203-1209 | before shutdown a waiter in hand is always counted |
| `SessionObjects.SessionObject.RegisterRequest` | lib/session/channel.go:361-381 | ids are new, and spent even when a limit is reached; a waiter is added exactly if a reply is wanted and both limits have room |
| `SessionObjects.SessionObject.TakeWaiter` | lib/session/channel.go:811-817 | a waiter leaves the map once, and is in hand until its count is released |
| `SessionObjects.SessionObject.FinishRequest` | lib/session/channel.go:810-821 | a waiter goes once, with exactly one count |
| `SessionObjects.SessionObject.ReleaseRequests` | lib/session/channel.go:884-897 | the loop counts down once for each waiter |
| `SessionObjects.SessionObject.GiveUp` | lib/session/channel.go:875-893 | discarding queues and waiters puts exactly their share in hand |
| `SessionObjects.SessionObject.EmptyDesk` | lib/session/channel.go:875-897 | and then gives it back |
| `SessionObjects.SessionObject.Close` | lib/session/channel.go:456-481 | a channel still opening fails and leaves the table, an open one is emptied and sends a close, any other stays; the books stay exact |
| `SessionObjects.SessionObject.Shutdown` | lib/session/session.go:1315-1380 | every channel in the table fails and is emptied, no other changes, and the budget stays exact |
| `SessionObjects.SessionObject.NothingLeaks` | lib/session/session.go:1013-1040 | empty queues and empty hands mean a zero budget |
| `SessionObjects.SessionObject.PeersInjective` | lib/session/session.go:1084-1111 | no two peer ids lead to one channel |
| `SessionObjects.StepsMirror` | lib/session/channel.go:273-308 | the object's data, Recv, close and failure steps are those of the transition system |
| `SessionObjects.EventsMirror` | lib/session/channel.go:562-586 | so are its event steps |
| `SessionObjects.CountersMirror` | lib/session/channel.go:846-873 | its counters are what the limits of the transition system count |
| `WriteRace.WrittenOnceOrNever` | lib/session/session.go:917-951 | in every race: nothing is written twice; success means written; failure means cancelled and never written, or that the writer failed and writes nothing more; so while anything is still written, failure means not written |
| `WriteRace.FailureEnds` | lib/session/session.go:450-460 | a writer whose send failed has ended the session, or ends it with its next step |
| `WriteRace.RunKeeps` | lib/session/session.go:391-462 | the invariant that ties each write's mark to queue, writer and wire |
| `Chunking.ChunkedFrames` | lib/command/codec.go:231-265 | fails exactly if the data is not empty and one byte does not fit; otherwise the frames carry chunks that make up the data, each fits, and all but the last are as long as possible |
| `Chunking.LongestFit` | lib/command/codec.go:244-258 | the binary search finds the longest prefix that fits |
| `Chunking.SizeGrows` | lib/command/codec.go:13-31 | the nested length-delimited size is strictly monotone |
| `Chunking.EncodeLength` | lib/command/codec.go:13-31 | the size formula is the length of the concrete frame |
| `Chunking.GreedyIsFewest` | lib/command/codec.go:231-265 | no other legal way to cut the data has fewer frames |
| `Chunking.FramesRoundTrip` | lib/command/codec.go:166-175 | decoding the frames gives the chunks back |
| `Chunking.FirstByteFits` | lib/command/codec.go:260-262 | a maximum carries data exactly from five bytes on |
| `StartCodec.EncodeStart` | lib/command/codec.go:50-87 | succeeds exactly for blank shell and non-blank exec commands, and lists the environment in name order |
| `StartCodec.EncodingUnique` | lib/command/codec.go:72-82 | the encoding does not depend on the map's iteration order |
| `StartCodec.DecodeStart` | lib/command/codec.go:191-229 | computes the specified decoding, errors included |
| `StartCodec.RoundTrip` | lib/command/codec.go:191-229 | decoding an encoded request gives it back, a blank shell command empty, exactly if its environment is legal; the duplicate check never fires |
| `CommandProtocol.EndToEnd` | lib/command/server.go:87-176 | for every interleaving: the sinks hold prefixes of the process's streams, all of them once the client has finished; it has exited exactly if the exit frame could be sent, with the process's result exactly if that survives the way, and otherwise reports a lost connection |
| `CommandProtocol.WorkShrinks` | lib/command/server.go:230-277 | every turn brings the end nearer |
| `CommandProtocol.NeverStuck` | lib/command/server.go:116-160 | until the client has finished some turn is possible, so every run ends there |
| `CommandProtocol.ExitRoundTrip` | lib/command/codec.go:13-31 | the client learns how the process ended if and only if the texts have legal length, a bare status fits 32 bits, and the frame fits the maximum |
| `CommandProtocol.ClientObject.HandleServerEvent` | app/client/command/client.go:201-266 | the new state, or the error that finishes the client, for every event in every state and every behaviour of the sinks |
| `CommandProtocol.ClientObject.ReceiveLoop` | app/client/command/client.go:179-199 | the loop folds the events and ends with the connection |
| `CommandProtocol.ClientObject.Finish` | app/client/command/client.go:274-293 | only the first call counts |
| `CommandProtocol.ClientObject.Start` | app/client/command/client.go:66-74 | starts once |
| `Bincoder.RoundTrip` | lib/bincoder/encoder.go:34-84 | matching decoder calls on the encoder's output give the items back and reach the end |
| `Bincoder.ItemStands` | lib/bincoder/decoder.go:56-127 | an item is read exactly where its encoding stands, and is legal |
| `Bincoder.CursorSafe` | lib/bincoder/decoder.go:56-137 | for any buffer and calls the offset moves only forward, inside, and not after an error |
| `Bincoder.Encoder.BytesField` | lib/bincoder/encoder.go:69-80 | too long a string fails for good and writes nothing |
| `Bincoder.Decoder.Take` | lib/bincoder/decoder.go:56-70 | the specified read, with the sticky error |
| `Bincoder.Decoder.Bool` | lib/bincoder/decoder.go:80-95 | the same for booleans; other bytes fail |
| `Bincoder.Decoder.BytesField` | lib/bincoder/decoder.go:105-115 | the same for byte strings within the limit |
| `Bincoder.Decoder.Text` | lib/bincoder/decoder.go:117-127 | the same for UTF-8 strings |
| `Bincoder.Decoder.Expect` | lib/bincoder/decoder.go:129-137 | fails exactly on other bytes |
| `Bincoder.WriteFull` | lib/bincoder/rw.go:93-105 | through any short writes: everything is out, or a prefix and an error |
| `Bincoder.WriteBytes` | lib/bincoder/rw.go:82-91 | emits the encoder's bytes, or a prefix and an error |
| `Bincoder.ReadWritten` | lib/bincoder/rw.go:69-80 | reading undoes writing, exactly within the limit as 32 bits see it |
| `OpensshKey.ParserExact` | lib/keys/openssh_key.go:39-157 | a byte string parses to a keypair if and only if it is the serialization of that keypair with some check number and padding |
| `OpensshKey.ParseOpensshPrivateKeyV1` | lib/keys/openssh_key.go:39-82 | the parser as it runs on cursors computes the specified parse |
| `OpensshKey.ParsePublicBlob` | lib/keys/openssh_key.go:84-98 | the same for the public part |
| `OpensshKey.ParsePrivateBlob` | lib/keys/openssh_key.go:100-148 | the same for the private part |
| `OpensshKey.ValidPadding` | lib/keys/openssh_key.go:150-157 | accepts exactly 1, 2, 3, ... as bytes count |
| `AuthExchange.ClientAgreement` | lib/auth/server_auth.go:108-231 | whenever a server accepts an honest key, a client session signed with it and agrees on channel binding, opening message, host key, nonce, user and algorithm |
| `AuthExchange.AgreementInjective` | lib/auth/server_auth.go:139-143 | no client session stands behind two accepted server sessions |
| `AuthExchange.ServerAgreement` | lib/auth/client_auth.go:56-88 | whenever a client signs after checking an honest host key, that server answered this very opening |
| `AuthExchange.RolesApart` | lib/auth/payloads.go:24-85 | a payload of one role is never a payload of the other |
| `AuthExchange.MessageInjective` | lib/auth/transcript.go:32-40 | different field values give different deterministic encodings |
| `ProcessRace.CompletesRight` | app/server/process/runner.go:245-355 | in every interleaving done closes at most once and only after the leader's result is stored, every Wait returns it, and once the leader is reaped somebody is on the way to closing done |
| `ProcessRace.NeverStuck` | app/server/process/runner.go:289-317 | before done is closed some move is possible |
| `ProcessRace.WorkShrinks` | app/server/process/runner.go:319-355 | every move but the return of a Wait brings the end nearer |
| `Launch.PermissionsBounded` | app/server/authz/key_constraints.go:44-58 | permissions never exceed the policy and respect the key |
| `Launch.NewConnectionPermissions` | app/server/authz/permissions.go:61-105 | succeeds exactly for consistent decisions; names trimmed, sorted, listed once |
| `Launch.AllowedNames` | app/server/authz/permissions.go:79-95 | exactly the valid trimmed names, ascending |
| `Launch.AuthorizeEnvironment` | app/server/authz/launch.go:233-265 | grants the requested environment exactly if every entry is allowed |
| `Launch.TrimExact` | app/server/authz/permissions.go:62 | trimming a forced command takes all blanks off both ends and nothing else |
| `Launch.BaseExact` | app/server/command/service.go:163 | the base name is what follows the last slash, trailing slashes aside |
| `Launch.ArgvConfined` | app/server/command/service.go:160-201 | the forced command runs if there is one, otherwise what was asked for and allowed, as the account |
| `Launch.ForcedIndependent` | app/server/authz/launch.go:215-231 | with a forced command the request makes no difference to what runs |
| `KeyOptions.CutExact` | lib/trust/authorized_keys_ssh.go:156-175 | an option is its name and its value, cut at the first equals sign |
| `KeyOptions.ParseConstraints` | lib/trust/authorized_keys_ssh.go:98-142 | accepts exactly known options, each once, with a value where one is due and a legal command, and collects them |
| `KeyOptions.CommandExact` | lib/trust/authorized_keys_ssh.go:107-125 | an accepted key has a command that is not blank exactly if it has the option, and it is that option's |
| `Launch.ForcedExactly` | app/server/authz/permissions.go:61-68 | a command is forced exactly if the key was accepted with a command option or the configured one is not blank, and the key's comes first |
| `Launch.KeyCommandRuns` | app/server/authz/key_constraints.go:44-58 | such a key runs its command and nothing else, whatever policy and request say |
| `Launch.PtyConfined` | app/server/authz/launch.go:184-199 | a PTY exists only if policy and key allow it |
| `Launch.EnvironmentConfined` | app/server/process/spec.go:74-86 | the five account variables are the server's; every other name is on the policy's list and was asked for |
| `Launch.Environment` | app/server/process/spec.go:108-123 | sorted, one entry for each name |
| `Launch.CheckGroups` | app/server/process/spec.go:87-96 | accepts exactly distinct groups other than the primary |
| `Launch.Start` | app/server/command/service.go:110-129 | succeeds exactly if every stage can pass, and then the launch has passed them all, so all of the above holds of it |

## Left out

- Session shutdown in the two-endpoint system: runs end at a fatal error; `SessionObjects` follows the books past it.
- The gap in `OpenChannel`, `SendRequest`, `SendGlobalRequest`, `CloseWrite` and `Recv` between the change under the lock and the queueing of the envelope: each is one step, so envelopes of concurrent calls are queued in the order of their ids. `Send` has both steps.
- The rollback of `CloseWrite` when its EOF is refused by the byte budget; such a `CloseWrite` is no step.
- LateSend.DisciplineExact: its continuation may need answers of the limits that a full peer would not give, and asks for unused channel ids; LateWithin.DisciplineWithin has the honest answers.
- LateWithin.DisciplineWithin: for a late send whose peer has no room for what is on its way, it does not say whether the peer can make room first.
- Flood.SafeExactly, Witness.StuckExactly, Witness.RaceExactly: they count one byte for each character of a string.
- `Disconnect` frames an endpoint sends on its way out.
- Channel objects as separate heap objects in `SessionObjects`: their fields are values in the session's list, so aliasing of channels is not captured.
- SessionObjects.SessionObject.Shutdown: goes through the channels in the order of their ids, where Go's map gives any order; the result is the same for all.
- Contexts, timers, goroutine scheduling and logging: cancellation and timeouts are steps that may happen at any time.
- Validation rules attached to the protobuf messages, except the data length the chunker meets and the text lengths of an exit.
- Standard input, window changes and start rejection in `CommandProtocol`, and failures of input, output and the drain timeout in its system of both ends.
- CommandProtocol.EndToEnd: chunks are any non-empty pieces of what was read, which covers those of the chunker.
- Noise, Ed25519, SHA-256: a derivation function, unforgeable signatures and a collision-free hash stand for them.
- AuthExchange.ClientAgreement: assumes no hash collision among the values hashed in the run, and fresh nonces.
- The accept or reject decision after verification, and the state names of the authentication machine.
- PEM decoding and trimming before the key parser.
- Signals, process groups, pipes and PTYs in `ProcessRace`; a process is taken to have been started.
- The unquoting of a key's command (a parameter of `KeyOptions`) and the splitting of an authorized-keys line into options.
- Credential identity checks, account lookup, key matching and file permissions around `Launch`.

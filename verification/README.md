# mbus, modelled and proved

mbus is a message bus: a broker to which clients connect, publish events, and call commands of each
other, with messages in JSON over length-prefixed frames. This project models its C code and proves
what it promises.

How it is laid out, from the bottom up:

- `TailQueue`, `Buffer`, `Framing`, `Clock`, `Compress`: the counted tail queue as a doubly linked list
  on the heap, the growing byte buffer, frames on a byte stream, and the comparison of wrapped times.
- `Bits`, `JsonStrings`, `JsonText`, `JsonPath`: the bit operations of the parser, and printing and parsing
  as functions on text, with their round trips; `JsonSpelling`: all the texts a tree may have.
  `JsonStringCode` and `JsonTextCode` are the loops of the C code, proved against them.
- Methods: requests, results and notices.
- `BrokerState` gives the state of the broker and one function per step of its turn. `Broker` and
  `BrokerPeer` are the same steps as objects with loops and updates in place; each method is proved to
  leave the state that the function gives, so what is proved of the functions holds of the objects.
- `BrokerEvents`, `BrokerCommands`, `BrokerAnswers` and `BrokerCalls` say what single steps do, command by
  command and without the functions of the model; `BrokerCalm`, `BrokerInvariant`,
  `BrokerRun`, `BrokerReap` carry an invariant through all of them, and `BrokerTheorems` draws the
  conclusions for whole runs. `BrokerSteps` takes a turn apart into steps and `BrokerFrame` follows a
  client through them, for what `BrokerPing`, `BrokerWaits`, `BrokerNews` and `BrokerTurns` say of whole
  turns and runs; `BrokerBreak` is a run that fails.
- `ClientState` and `Client` are the client in the same two forms; `ClientInvariant` and `ClientRun`
  prove what holds over its whole life, `ClientBreak` and `ClientLives` when it fails. `ClientAnswers`,
  `ClientReads`, `ClientRequests` and `ClientConnecting` say what each message, request and connection comes to, and
  `ClientSignals` what the application is told.
- `CodecCalls` follows whole exchanges of broker and clients through the text of their messages.
- `BrokerLink`, `CodecText`, `CodecLink`, `CodecAgreement`, `CodecMoves` put broker and client together
  on one connection and follow the negotiation of the compression through the text of its messages;
  `CodecTurns` carries this over to the turns of the broker. `CodecOwn` and `CodecFree` are about an
  application that takes part in it.

`dafny verify dfyconfig.toml` checks everything.

Three promises do not hold of the code as it is; they are stated with the exact condition:

- Unregistering a command that was never registered follows a NULL pointer (`BrokerCalls.FailsExactly`).
- A client goes on with a freed request if its create request is not the last of its queue when the client
  is reset, or when a sweep finds that request past its deadline (`ClientLives.RunBreaks`). Only an
  application that issues `command.create` itself, while the client is connecting, brings this about.
- For the same reason broker and client can disagree about the compression. With such an application they
  agree in all that can happen exactly if the broker has no zlib, or neither the client nor the
  application offers it (`CodecFree.OwnCreatesAgree`). It does not matter whether the command is written
  before the broker makes its choice or after: either the broker decodes an uncompressed request with zlib,
  or it answers the command, which it refuses, uncompressed to a client that uses zlib by then.

Where nothing is said, the create command is left to the client.

The theorems about the client also ask that `connect` is not called between `disconnect` and the next
run, since the old connection and its queues would be kept (src/client/client.c:2084-2092).

## Model

| member | source | states |
|---|---|---|
| CodecTurns.BrokerAgrees | src/server/server.c:2068-2527 | The broker in any reachable state and a client it just accepted: whatever turns the broker then runs, with whatever other clients come, go and send, and whatever the client does short of issuing a create command of its own, each frame is decoded with the compression it was encoded with, by the broker and by the client |
| CodecFree.OwnCreatesAgree | src/client/client.c:3043-3053 | If the application may issue create commands of its own, at any time: the ends agree in every interleaving exactly if the broker has no zlib, or neither the client nor these commands offer it |
| CodecTurns.TurnMoves | src/server/server.c:2068-2527 | A turn of the broker, as one of its clients sees it, is a list of the moves of the connection; it ends in what the broker then knows of the client, or with the client off the list |
| CodecTurns.StepMoves | src/server/server.c:2068-2527 | Each step of a turn is at most one such move, for every client |
| CodecAgreement.CodecsAgree | src/server/server.c:2401-2420 | In every interleaving of broker and client on one connection, with an application that leaves the create command to the client, each frame is decoded with the compression it was encoded with, in both directions |
| CodecAgreement.FirstFrames | src/server/server.c:2129-2180 | In every state such a run reaches: the first frame to the broker is the create request and the first to the client is the response to it, both uncompressed; the response names the compression of the broker, and all later frames of either side carry it |
| CodecAgreement.MoveAgrees | src/client/client.c:3505-3600 | One move: if the connection is in order, whatever is decoded now is decoded with the right compression, and the connection stays in order |
| CodecText.RequestArrives | src/server/method.c:189-242 | A request the client prints is read back by the broker with the same type, destination, identifier, sequence number and payload |
| CodecText.NegotiatedKnown | src/server/server.c:1420-1445 | From the offers of a create request the broker picks zlib exactly when both ends have it |
| CodecText.ResponseAnswers | src/server/server.c:1453-1467 | Admitted or refused, a create request adds one result, and its text tells the client the compression that the broker uses from then on, one the client can read |
| CodecLink.ResponseHandled | src/client/client.c:898-975 | Reading the response, the client either switches to the compression of the broker or resets |
| CodecLink.TunedReceiveAll | src/client/client.c:3505-3600 | Once switched, the decode loop reads every frame of that compression with it, whatever the messages are |
| CodecMoves.ConnectingRun | src/client/client.c:1082-1253 | However a client comes by its connection, at the end of that run it has written nothing or only its create request |
| CodecMoves.MethodMoves | src/server/server.c:1955-2026 | Handling a method changes for its sender only what its kind allows, and leaves name, compression, subscriptions and output of everybody else alone; a client that is unnamed and unsubscribed is sent nothing |
| CodecMoves.PassiveMoves | src/server/server.c:2102-2128 | Ping checks, accepting, closing and announcing leave name, compression and output of every client alone, and send nothing to one that is unnamed and unsubscribed |
| CodecMoves.ReapMoves | src/server/server.c:2490-2524 | So does reaping another client |
| CodecMoves.EmitMoves | src/server/server.c:2130-2180 | What the broker writes to a client in one turn is what the model of the connection writes |
| CodecMoves.ArrivalMoves | src/server/server.c:2040-2066 | What the arrival of a message does to its client and to the method queue is what the model of the connection does |
| CodecFree.ZlibDisagrees | src/client/client.c:3043-3053 | If both ends have zlib, a run from the start of the connection in which they disagree: two create commands are written uncompressed, and the broker handles the first before it decodes the second |
| CodecFree.RefusalMisread | src/client/client.c:3505-3600 | If both ends have zlib, another such run: the broker handles both before the client reads, and the client reads the uncompressed refusal of the second with zlib |
| CodecFree.OfferDisagrees | src/client/client.c:977-1080 | If only the broker has it, one in which the application offers it before the client knows that it is connected |
| CodecFree.RunFlat | src/server/server.c:2401-2420 | If zlib cannot come in, every frame of every run is decoded as it was encoded, whatever create commands the application issues |
| CodecFree.CreatedTame | src/server/server.c:1420-1467 | Whatever a broker without zlib makes of a create command, its result does not speak of zlib |
| CodecOwn.ReceiveAllLevel | src/client/client.c:3505-3600 | A client that is not told to use zlib reads and writes uncompressed |
| BrokerLink.CreateStepped | src/server/server.c:1332-1470 | A create request either gives its sender a name, ping settings and the negotiated compression and answers 0 with them, or leaves the compression and answers -1; nobody else changes |
| BrokerLink.OthersLeft | src/server/server.c:1955-2026 | Whatever method is handled, the clients that did not send it keep name, compression, subscriptions and output, get results only for calls they wait for, and nothing at all if they are unnamed and unsubscribed |
| CodecCalls.CallRoundTrip | src/server/server.c:1849-1953 | A call, all the way through the text of its four messages: the broker queues it at the client that registered the command; that one replies with what its routine returned; in whatever state the broker is then, if the caller still waits for this call, the reply is handed back; and the caller completes the very request it made, once, with the status and payload of the reply |
| CodecCalls.HandshakeAgrees | src/server/server.c:1332-1470 | The create request and its response, as text: a client that asks for a free name, or for none, and knows the password gets the name; its ping settings are made to fit; and once it has read the response, name, compression and ping settings of the two ends are the same |
| CodecCalls.PingRoundTrip | src/client/client.c:1279-1331 | A ping of the client to the broker is noted with its time and answered by exactly one pong, and when the client reads that it waits for no pong and has missed none |
| CodecCalls.SubscriptionArrives | src/client/client.c:2201-2286 | A named client that subscribes to an event, from a source or from any, gets every event of that name and source exactly once from then on |
| CodecCalls.RegistrationArrives | src/client/client.c:2691-2787 | A command that a named client registers is among those it can be called with, beside the ones before |
| CodecCalls.EventArrives | src/server/server.c:2016-2023 | An event as the client wrote it goes to the destination the client named, under the name of the client |
| CodecCalls.CarriedEventArrives | src/server/server.c:1602-1631 | So does an event in a command, which is answered with 0 |
| CodecCalls.NoticeArrives | src/server/method.c:244-296 | What the broker prints of an event or a call is read back with the same type, source, identifier, sequence number and payload |
| CodecCalls.ResultArrives | src/server/method.c:117-138 | What it prints of an answer is read back with the sequence number of the request, the status and the payload |
| CodecCalls.EmitWrites | src/server/server.c:2130-2180 | One message at most is written: the oldest result, else the oldest call, else the oldest event, and it is read back as what it was; it leaves its queue |
| CodecCalls.RequestQueued | src/server/server.c:2040-2066 | The message of a client, as text, joins the end of the method queue as the request it was |
| BrokerTheorems.ResponsesConserved | src/server/server.c:1955-2026 | In every reachable state each command accepted from a present client is in exactly one of the method queue, its waits, its results or what was serialised for it; the first two carry no status, the last two exactly one, and all keep the sequence number |
| BrokerTheorems.QueueEmpties | src/server/server.c:1955-2026 | From every reachable state, draining the method queue leaves it empty, so no method outlives its source |
| BrokerTheorems.NoOrphanCalls | src/server/server.c:1849-1953 | At the end of every turn that does not fail, each call that waits names exactly one present client; that one has its connection and was announced |
| BrokerTheorems.LifecycleAlternates | src/server/server.c:2459-2524 | Over every run the announcements of each identifier are connected, disconnected, connected, and so on, also when it is reused; the last was connected exactly if a present client of that name is flagged so |
| BrokerTheorems.NamesDistinct | src/server/server.c:1347-1383 | In every reachable state no two present clients, closed ones included, have the same identifier |
| BrokerTheorems.EventsNumbered | src/server/server.c:887-900 | In every reachable state the queued events of a client have consecutive numbers in 1..9998 that end just before its next one, and any 9998 successive events ever queued for it have distinct numbers |
| BrokerTheorems.TurnSettles | src/server/server.c:2455-2524 | After a turn that does not fail every client on the list has a connection, and those with a name were announced |
| BrokerTheorems.RunKeeps | src/server/server.c:2068-2527 | The invariant behind these theorems holds after any sequence of turns, failed ones included |
| BrokerTheorems.AlternatingUps | src/server/server.c:2459-2524 | A history in which a name is announced as up only when it is down, and down only when it is up, alternates name by name |
| BrokerInvariant.HandleKeeps | src/server/server.c:1955-2026 | Handling any method keeps distinct names, the conservation of commands, a home for every wait and the numbering of events |
| BrokerInvariant.CompleteWaitOk | src/server/server.c:1933-1948 | Completing a wait moves it to the results with one status and its sequence number, and loses nothing |
| BrokerInvariant.CreateGentle | src/server/server.c:1332-1470 | Whatever a create request asks for, names stay distinct and nothing that is queued or answered changes |
| BrokerInvariant.HandlersGentle | src/server/server.c:1970-2006 | Every server command but the one that returns results leaves waits, results, accepted commands and connected flags of all clients alone |
| BrokerRun.HandleFaces | src/server/server.c:1955-2026 | Identifiers are write-once: handling a method never changes one that is set, nor a connected flag |
| BrokerRun.DrainAlive | src/server/server.c:1955-2026 | Draining the queue keeps the invariant and the alternation of announcements |
| BrokerRun.ReceiveKeeps | src/server/server.c:2040-2066 | A message that arrives keeps the invariant, valid or not |
| BrokerRun.EmitOneCalm | src/server/server.c:2130-2180 | Serialising a message loses and reorders nothing: answers and events move from queued to delivered in order |
| BrokerReap.WelcomeKeeps | src/server/server.c:2459-2489 | Announcing a client keeps the invariant and the alternation: its name was not live |
| BrokerReap.WaitsDivided | src/server/server.c:2502-2512 | When a client leaves, the waits of another are divided into those answered with -1 and those that stay, and none is lost |
| BrokerReap.ReapOneKeeps | src/server/server.c:2490-2524 | Taking a closed client off the list keeps the invariant and the alternation of announcements |
| BrokerCalls.CallDelivered | src/server/server.c:1849-1892 | A call that can be delivered adds one request, with name and sequence number of the caller, at the client that registered the command, and one wait at the caller; nothing else happens |
| BrokerCalls.CallRefused | src/server/server.c:1849-1892 | A call that cannot be delivered is answered with -1 at once; nothing else happens |
| BrokerCalls.WaitsMoveByMethods | src/server/server.c:1894-1953 | Handling a method ends a wait only if it is a result sent by the client that was called, with the sequence number and the command of the call, and then the first such wait only |
| BrokerCalls.WaitsEndByReaping | src/server/server.c:2502-2512 | Reaping a client ends exactly the waits that name it, each with status -1, behind the results already there |
| BrokerCalls.FailsExactly | src/server/server.c:1571-1600 | Handling a method follows a NULL pointer exactly if it unregisters a command that its sender has not registered |
| BrokerBreak.FirstMessageFails | src/server/server.c:519-542 | It takes one turn: a new connection whose first message, as text, unregisters any command |
| BrokerSteps.TurnSteps | src/server/server.c:2068-2527 | A turn is a list of steps: the methods handled, one check if the broker is running, one emission, the connections accepted and lost, the messages up to the first invalid one of each client, and the clients announced and taken off the list |
| BrokerSteps.StepKeeps | src/server/server.c:2068-2527 | Every step keeps the invariant |
| BrokerFrame.HandleTended | src/server/server.c:1955-2026 | Handling a method changes handle, name, closing and ping record of nobody, but for a close command, for the ping time of a sender of pings and for the settings of a create request |
| BrokerFrame.StepLocates | src/server/server.c:2490-2524 | A step leaves a client in its place on the list, or takes it off for good |
| BrokerWaits.WaitsEndInTurns | src/server/server.c:1894-1953 | In any turn from any reachable state: a call that waited and does not wait any more was ended at one step of the turn by a fitting result from the client that was called, or with -1 as that client was taken off the list |
| BrokerAnswers.ResultHandled | src/server/server.c:1894-1953 | A result that a named client sends: the first call of the named caller it fits, by callee, command and sequence number, is answered with its status and payload and waits no longer, and the sender gets its own answer 0; if there is none only the latter; a malformed one is refused |
| BrokerWaits.RunUnanswered | src/server/method.c:189-242 | In every reachable state the methods in the queue and the calls that wait carry the empty result they were received with |
| BrokerAnswers.SubscribedHears | src/server/server.c:905-931 | A client that subscribes gets one event for each event its subscription covers, with or without the names for any source and any event, and none for the others |
| BrokerAnswers.EventHandled | src/server/server.c:2016-2023 | An event message reaches its recipients under the name of its sender and changes nothing else; a ping is noted and answered |
| BrokerAnswers.PublishHandled | src/server/server.c:1602-1631 | So does an event command, which is answered with 0, or with -1 and nothing done if a field is missing |
| BrokerCommands.CreateHandled | src/server/server.c:1332-1470 | A create request is admitted exactly if its sender has no name, the name is free and the password right; then name, compression and the ping settings, made to fit, are as asked and the answer says so; with a wrong password the name stays given |
| BrokerCommands.SubscribeHandled | src/server/server.c:1472-1504 | A subscription is added unless it is there; a named client has it announced, once, to whoever subscribed to that, and is answered 0; an unnamed one is answered -1 |
| BrokerCommands.UnsubscribeHandled | src/server/server.c:1506-1538 | The first such subscription goes, likewise; one that is not there is refused |
| BrokerCommands.RegisterHandled | src/server/server.c:1540-1569 | A command is added unless it is there, likewise |
| BrokerCommands.UnregisterHandled | src/server/server.c:1571-1600 | The first such command goes, likewise; if it is not there the broker fails |
| BrokerCommands.StatusHandled | src/server/server.c:1633-1700 | The answer to a status query lists name, subscriptions and commands of every client in order |
| BrokerCommands.ClientHandled | src/server/server.c:1702-1772 | A client query lists those of the client it names and is refused if there is none |
| BrokerCommands.ClientsHandled | src/server/server.c:1774-1808 | A clients query lists the names of the clients that have one, in order |
| BrokerCommands.CloseHandled | src/server/server.c:1810-1847 | A close command closes the client it names or stops the broker, and is refused for other names |
| BrokerCommands.UnknownDenied | src/server/server.c:1990-2012 | Any other command to the broker is refused and changes nothing |
| BrokerNews.AnnouncementsTold | src/server/server.c:2459-2524 | In every turn of a run, each announcement was made at one step of the turn, in order, and at that step every client that had subscribed to it was sent one event with the name, and the reason of a departure, and nobody else any |
| BrokerNews.StepTells | src/server/server.c:2459-2524 | A step announces a client exactly if it is a named, accepted, open one that was not announced, or an announced one that is taken off the list |
| BrokerTurns.TurnWrites | src/server/server.c:2068-2180 | In every turn of a running broker that does not fail, a client whose pings are in time is written exactly the first thing it is owed after the methods were handled, if anything, behind what was written before |
| BrokerTurns.LostLeave | src/server/server.c:2335-2366 | A client whose connection is lost in a turn that does not fail is off the list at its end |
| BrokerTurns.SenselessLeave | src/server/server.c:2387-2524 | So is a client that sent something that is no command and no event or lacks a field |
| BrokerTurns.ClosedLeave | src/server/server.c:2490-2524 | So is whoever was closed at any step of the turn |
| BrokerTurns.StepCloses | src/server/server.c:328-354 | A client is closed by a lost connection, a senseless message of its own, too many missed pings or a close command, always by these, never by anything else, and never opened again |
| BrokerEvents.EventFansOut | src/server/server.c:839-962 | An event adds exactly one event, with its own number, to every recipient and changes nothing else: all named clients but the source, those with a matching subscription however many match, or the one named |
| BrokerEvents.PingAnswered | src/server/server.c:867-876 | A ping to the server notes its time and sends exactly one pong where the name of its source says: to the source, unless that is named like one of the destinations; nothing else changes |
| BrokerEvents.NothingSent | src/server/server.c:842-878 | Without a source, or to the server and no ping, an event changes nothing |
| BrokerEvents.SendEventOnly | src/server/server.c:839-962 | For any names at all an event changes only event queues, their counters and ping times |
| BrokerCalm.PushEventNumbered | src/server/server.c:887-900 | Queueing an event continues the cyclic numbering |
| BrokerPing.SilentClosedOnlyLate | src/server/server.c:2102-2128 | From any reachable state, over any run of turns and whatever else happens in them: a client that sends no ping, last heard at r with m misses, is closed for its pings only by a turn whose clock exceeds r + (threshold + 1 - m) * interval + timeout |
| BrokerPing.SilentClosedCertainly | src/server/server.c:2102-2128 | After threshold + 1 - m turns of a running broker past that time the client is closed or gone |
| BrokerPing.PunctualStays | src/server/server.c:2102-2128 | Over any run, a client whose pings come within interval and timeout of each check is not closed for its pings in any turn, and not a miss is counted |
| BrokerPing.MissesNeverFall | src/server/server.c:867-872 | Over any run and whatever is sent, the misses of a client never fall |
| BrokerPing.RunFollows | src/server/server.c:2102-2128 | Over any run, the ping record of a client that stays is what the pings it sent and the checks of the turns, in their order, make of it |
| BrokerPing.WatchedNamed | src/server/server.c:1397-1419 | In every reachable state only clients with an identifier are checked |
| BrokerPing.ChecksCloseOnlyLate | src/server/server.c:2102-2128 | One client and a list of checks: the bound on the time at which it is closed |
| BrokerPing.ChecksCloseCertainly | src/server/server.c:2102-2128 | One client and a list of checks: that many late ones close it |
| BrokerPing.PingsPrivate | src/server/server.c:839-872 | Handling a message counts and forgets no miss and touches no ping record but that of its sender |
| Broker.Server.constructor | src/server/server.c:2792-2993 | A new broker shows the start state of the model |
| Broker.Server.FindByIdentifier | src/server/server.c:779-795 | The loop finds the first client of that name, or none |
| Broker.Server.SendEventTo | src/server/server.c:839-962 | The loops over clients and subscriptions leave the state that BrokerEvents describes |
| Broker.Server.PickCompression | src/server/server.c:1421-1445 | The nested loops find the first compression of the broker among the offers, or none |
| Broker.Server.HandleCreate | src/server/server.c:1332-1470 | Return code, result and new state are those of the model of create |
| Broker.Server.HandleSubscribe | src/server/server.c:1472-1504 | Return code and new state are those of the model of subscribe |
| Broker.Server.HandleUnsubscribe | src/server/server.c:1506-1538 | Return code and new state are those of the model of unsubscribe |
| Broker.Server.HandleRegister | src/server/server.c:1540-1569 | Return code and new state are those of the model of register |
| Broker.Server.HandleUnregister | src/server/server.c:1571-1600 | Return code and new state are those of the model of unregister, the NULL pointer included |
| Broker.Server.HandleEvent | src/server/server.c:1602-1631 | Return code and new state are those of the model of the event command |
| Broker.Server.HandleQuery | src/server/server.c:1633-1808 | Return code and result are those of the model of status, client and clients; nothing changes |
| Broker.Server.HandleClose | src/server/server.c:1810-1847 | Return code and new state are those of the model of close |
| Broker.Server.HandleCall | src/server/server.c:1849-1892 | Return code and new state are those of the model of a call |
| Broker.Server.HandleResult | src/server/server.c:1894-1953 | Return code and new state are those of the model of a result |
| Broker.Server.HandleServerCommand | src/server/server.c:1964-1998 | The dispatch by name reaches the handler the model reaches |
| Broker.Server.File | src/server/server.c:2007-2015 | A handled command joins the results or the waits of its source as in the model |
| Broker.Server.Handle | src/server/server.c:1962-2023 | One turn of the loop leaves the state of the model |
| Broker.Server.HandleMethods | src/server/server.c:1955-2026 | The loop leaves the state of the model of draining the whole queue |
| Broker.Server.CheckPings | src/server/server.c:2102-2128 | The loop checks each client once, as in the model |
| Broker.Server.Emit | src/server/server.c:2130-2180 | The loop serialises at most one message per client, results before requests before events, as in the model |
| Broker.Server.Establish | src/server/server.c:1186-1213 | A new client joins the end of the list |
| Broker.Server.Disconnect | src/server/server.c:2336-2366 | The client that lost its connection is closed and nobody else |
| Broker.Server.ReceiveMessage | src/server/server.c:2040-2066 | A valid message joins the queue, an invalid one closes its client, as in the model |
| Broker.Server.ReceiveMessages | src/server/server.c:2391-2452 | The decode loop of a client stops at its first invalid message, as in the model |
| Broker.Server.MarkAccepted | src/server/server.c:2459-2468 | The loop marks the clients that have a connection as accepted |
| Broker.Server.AnnounceConnected | src/server/server.c:2469-2489 | The loop announces each named, accepted client once, in order, as in the model |
| Broker.Server.DropMethodsOf | src/server/server.c:2495-2505 | The loop drops the commands of a client that leaves and keeps the rest in order |
| Broker.Server.AnswerAll | src/server/server.c:2506-2515 | The nested loops answer the calls to a client that leaves with -1, client by client as in the model |
| Broker.Server.Reap | src/server/server.c:2490-2524 | The loop takes all closed clients off the list while it walks it, as in the model |
| Broker.Server.RunTimeout | src/server/server.c:2068-2527 | A turn of the broker leaves the state of the model of a turn, failing turns included |
| Broker.Server.Serve | src/server/server.c:2529-2549 | Turn after turn the object shows the state of which BrokerTheorems speaks |
| BrokerPeer.Peer.constructor | src/server/server.c:735-777 | A new client has no name, no queues and the first event number |
| BrokerPeer.Peer.Deliver | src/server/server.c:887-900 | An event is queued with the number of the client, which moves on and wraps |
| BrokerPeer.Peer.DeliverIfSubscribed | src/server/server.c:905-934 | One event at most, however many subscriptions match |
| BrokerPeer.Peer.AddSubscription | src/server/server.c:456-488 | A subscription is added unless it is there |
| BrokerPeer.Peer.DeleteSubscription | src/server/server.c:425-454 | The first equal subscription is removed, and the return code says whether there was one |
| BrokerPeer.Peer.AddCommand | src/server/server.c:490-517 | A command is added unless it is there |
| BrokerPeer.Peer.DeleteCommand | src/server/server.c:519-542 | The command is removed if it is there; otherwise the result says that a NULL pointer is followed |
| BrokerPeer.Peer.Admit | src/server/server.c:1374-1445 | The client is named first; with a wrong password it keeps the name and nothing else changes |
| BrokerPeer.Peer.ConfigurePing | src/server/server.c:1397-1419 | Interval, timeout and threshold are clamped, and the misses are kept |
| BrokerPeer.Peer.CheckPing | src/server/server.c:2102-2128 | One check, as in the model that BrokerPing speaks of |
| BrokerPeer.Peer.Emit | src/server/server.c:2130-2180 | One message at most leaves the first non-empty queue; only the answer to create is always uncompressed |
| BrokerPeer.Peer.CompleteFirst | src/server/server.c:1931-1949 | The loop completes the first wait that fits, or none |
| BrokerPeer.Peer.AnswerOrphans | src/server/server.c:2506-2515 | The loop that removes while it walks answers all calls to the name with -1 and keeps the others in order |
| BrokerPeer.Peer.PopResult | src/server/server.c:623-637 | The oldest result leaves the queue |
| BrokerPeer.Peer.PopRequest | src/server/server.c:568-582 | The oldest request leaves the queue |
| BrokerPeer.Peer.PopEvent | src/server/server.c:663-677 | The oldest event leaves the queue |
| BrokerPeer.Peer.List | src/server/server.c:1667-1690 | What a query lists of a client: its name if it has one, its subscriptions and its commands |
| Methods.NewRequestUnanswered | src/server/method.c:189-242 | A request that was created carries no status and its own sequence number in its result |
| Methods.SettersAnswer | src/server/method.c:117-138 | Setting the payload keeps statuses and sequence number; setting the code adds exactly one status |
| Methods.CyclicDistinct | src/method/method.h:33-34 | Of any 9998 successive sequence numbers no two are the same |
| ClientAnswers.ResultReceived | src/client/client.c:1255-1277 | A connected client that reads a result completes the first pending request of its sequence number with it, with one callback that tells the status, and keeps the others in order; if there is none, nothing happens |
| ClientReads.AnswerCompletes | src/client/client.c:3505-3743 | A run of a connected client in which the answer to a pending request arrives completes that request with it, with one callback, before whatever else the run does |
| ClientReads.RunReads | src/client/client.c:3505-3600 | A run of a connected client reads every message that arrived, in order, and then does what is due at the end of a run; it stops and fails at the first message that makes no sense |
| ClientAnswers.ResponseReceived | src/client/client.c:898-975 | A client that reads the response to its create request is connected under the name and with the settings it gives, and says so, or is reset, says so, and tries again or rests |
| ClientAnswers.EventReceived | src/client/client.c:1279-1331 | A pong of the broker ends the wait for it and clears the misses; other events leave the client alone; one without source or identifier fails |
| ClientAnswers.CallReceived | src/client/client.c:1333-1440 | For a call the reply of the routine goes back in a result command that names caller, command and sequence number of the call and carries status and payload of the reply |
| ClientAnswers.NonsenseReceived | src/client/client.c:3555-3580 | A message that is no result, no event and no command ends the run |
| ClientRequests.CommandQueued | src/client/client.c:3023-3070 | A command is queued, once and with the next number, exactly if the client is in the state for it, with the timeout given or that of the settings |
| ClientRequests.PublishQueued | src/client/client.c:2521-2635 | An event is queued as it is or, to arrive at least once, in a command that carries its destination, name and payload; without a destination it goes to the subscribers |
| ClientRequests.FlushWrites | src/client/client.c:3715-3732 | All requests are written in order, with the compression of the client; the commands among them are pending then, in order, and the events are done |
| ClientRequests.ChannelsAgree | src/client/client.c:693-736 | A command that ends without an answer is reported on the channel of its answer exactly if it does not borrow the name of one of the wrappers around commands |
| ClientRequests.EventsReported | src/client/client.c:3676-3712 | The end of an event is reported to the publish callback with the right status, unless it is for the broker or called a ping |
| ClientRequests.PingDue | src/client/client.c:3619-3660 | A ping goes out exactly when none is awaited and the last is more than an interval ago, and a pong that is overdue is one more miss |
| ClientSignals.SignalsTell | src/client/client.c:634-650 | Over the whole life of a client: it is connected exactly if it said so and did not say since that the connection ended, a disconnect under way aside, and between two connections it reports there is always the end of one |
| ClientConnecting.AttemptMade | src/client/client.c:1082-1253 | A connecting client tries exactly when its interval is over; each outcome leaves the state and the signals of the source, and a connection leaves the create request as the one request |
| ClientConnecting.AttemptTimesOut | src/client/client.c:3602-3617 | An attempt under way is given up exactly once it takes longer than its timeout |
| ClientConnecting.ConnectionEnds | src/client/client.c:3220-3224 | After a disconnect, or when the broker hangs up, nothing is left of the connection, the client is disconnected and says why |
| ClientRun.ExactlyOnce | src/client/client.c:693-736 | Whatever the application and the network do, every accepted request is queued, pending or completed, in exactly one of these places and exactly once; it is completed as an event that was written, by a response with its sequence number, by a sweep past its deadline, or by a reset |
| ClientRun.OneCallback | src/client/client.c:3676-3712 | Each completion has exactly one callback, with the serial number of its request and in order, but none for events addressed to the server or named ping |
| ClientRun.NothingOverdue | src/client/client.c:3662-3713 | After a run that succeeds nothing is queued, and whatever is pending has not reached its deadline |
| ClientRun.RepliesMatch | src/client/client.c:1255-1277 | While all queued and pending requests lie within the last 9998 draws, shared by events and commands, their sequence numbers are pairwise distinct |
| ClientRun.SameNumber | src/client/client.c:2556-2565 | Otherwise two requests share a number exactly if their draws differ by a multiple of 9998 |
| ClientRun.OnePingAtATime | src/client/client.c:3619-3660 | In every state at most one ping is waited for; pings are more than the interval apart, and each was given up only after the timeout |
| ClientRun.TimeoutJustified | src/client/client.c:3619-3660 | A ping timeout is reported exactly when the missed pings exceed the threshold: since the last pong or the connection more than threshold pings went unanswered beyond the timeout, and the report comes more than threshold * interval + timeout after the first |
| ClientRun.LifeSound | src/client/client.c:3182-3743 | The invariant behind these theorems holds after any operations of the application and any runs |
| ClientRun.RunSound | src/client/client.c:3182-3743 | A run keeps it, whatever poll reports and whatever messages arrive |
| ClientRun.FinishSound | src/client/client.c:3601-3732 | The sections at the end of a run keep it, and if they succeed nothing is queued or overdue |
| ClientInvariant.ResetResets | src/client/client.c:661-766 | A reset, also one within a reset, accounts for every request it cancels; it leaves nothing of the connection, and does not fail if the create request is alone |
| ClientInvariant.EnqueueSound | src/client/client.c:462-565 | Accepting a request keeps numbers, order and accounting |
| ClientInvariant.PendingLeaves | src/client/client.c:1255-1277 | A request that leaves the pending ones for a completion keeps numbers, order and accounting |
| ClientBreak.ResetBreaks | src/client/client.c:661-736 | A reset goes on with a freed request exactly if the create request of the client is not the last of its queue |
| ClientBreak.SweepRequestsBreaks | src/client/client.c:3662-3713 | A sweep of the requests goes on with a freed one exactly if the create request of the client is past its deadline and not the last |
| ClientBreak.SweepPendingsBreaks | src/client/client.c:3662-3713 | The same for the pending requests |
| ClientLives.FinishBreaks | src/client/client.c:3601-3732 | The end of a run does so exactly if the create request is past its deadline and not the last of its queue |
| ClientLives.RunBreaks | src/client/client.c:3182-3743 | A run does so in exactly three ways: a disconnect or a broker that hangs up while the create request is not the last of its queue, or such a sweep |
| ClientLives.LifeBreaks | src/client/client.c:3043-3053 | Whatever commands the application issues, a whole life of the client comes to this exactly if one of its runs does |
| ClientLives.OwnCreateBreaks | src/client/client.c:3043-3053 | From the start of any client six operations bring it about: connect, run, a create command of the application, run, disconnect, run |
| Client.Client.constructor | src/client/client.c:1653-1700 | A new client shows the start state of the model |
| Client.Client.Reset | src/client/client.c:661-766 | The loops over both queues, with the resets inside them, leave the state of the model |
| Client.Client.CancelRequests | src/client/client.c:693-736 | The loop stops where it would go on with a freed request, as in the model |
| Client.Client.HandleResult | src/client/client.c:1255-1277 | The loop completes the first pending request of that number, or none |
| Client.Client.ReceiveAll | src/client/client.c:3505-3600 | The loop stops at the first message that fails, and when a reset has emptied its buffer |
| Client.Client.SweepRequests | src/client/client.c:3662-3713 | The loop that removes while it walks completes the expired requests, as in the model |
| Client.Client.SweepPendings | src/client/client.c:3662-3713 | The same for the pending ones |
| Client.Client.Flush | src/client/client.c:3715-3732 | The loop writes all requests in order; commands become pending, events are completed |
| JsonText.TreeRoundTrip | src/json/cJSON/cJSON.c:902-1026 | Parsing the printed text of any tree of null, booleans, 32-bit integers, NUL-free strings, arrays and named objects, formatted or not and nested to any depth, returns that tree |
| JsonText.ValueRoundTrip | src/json/cJSON/cJSON.c:902-1026 | The same in any context and at any depth of indentation, and the parser stops exactly behind the value |
| JsonText.ParsePrintParse | src/json/cJSON/cJSON.c:820-857 | Parse, print, parse equals parse on every accepted text |
| JsonText.ParsedExact | src/json/cJSON/cJSON.c:902-947 | Every tree that is parsed holds only NUL-free strings and 32-bit integers |
| JsonTextCode.PrintValue | src/json/cJSON/cJSON.c:950-1026 | The recursive printer writes the text of the model |
| JsonTextCode.PrintArray | src/json/cJSON/cJSON.c:1195-1268 | The array is composed in a buffer of the precomputed length, which is never exceeded |
| JsonTextCode.ComposeArray | src/json/cJSON/cJSON.c:1246-1268 | The second pass fits into what the first pass counted |
| JsonTextCode.PrintObject | src/json/cJSON/cJSON.c:1538-1655 | The object is composed in a buffer of the precomputed length, which is never exceeded |
| JsonTextCode.ComposeObject | src/json/cJSON/cJSON.c:1605-1655 | The second pass fits into what the first pass counted |
| JsonTextCode.ComposeEmptyObject | src/json/cJSON/cJSON.c:1405-1432 | The empty object is printed as in the model |
| JsonTextCode.ParseValueAt | src/json/cJSON/cJSON.c:902-947 | The recursive parser returns value and position of the model, or rejects where it does |
| JsonTextCode.ParseNumberAt | src/json/cJSON/cJSON.c:144-211 | A decimal integer of 32 bits is read to its end; anything else a number may be is set aside |
| JsonTextCode.ParseArrayAt | src/json/cJSON/cJSON.c:1029-1103 | The loop over the elements, trailing comma included, returns what the model returns |
| JsonTextCode.ParseObjectAt | src/json/cJSON/cJSON.c:1275-1378 | The loop over the members, trailing comma included, returns what the model returns |
| JsonTextCode.ParseText | src/json/cJSON/cJSON.c:820-857 | The whole text is accepted exactly when the model accepts it |
| JsonTextCode.SkipAt | src/json/cJSON/cJSON.c:809-817 | Blanks and control characters are skipped, and nothing else |
| JsonTextCode.PrintThenParse | src/json/cJSON/cJSON.c:820-857 | Printing and parsing, as code, returns the tree |
| JsonSpelling.SpellingParses | src/json/cJSON/cJSON.c:902-1192 | However a tree is written, with blanks between all tokens, trailing commas, numbers with a sign or a leading zero and strings spelled piece by piece, the parser returns the tree |
| JsonSpelling.LiteralDecodes | src/json/cJSON/cJSON.c:469-646 | A literal of characters, of the eight short escapes and of escapes with digits of either case decodes to what these mean, and the parser stops behind it |
| JsonSpelling.OtherEscapesRejected | src/json/cJSON/cJSON.c:631-635 | A backslash before any other character is rejected |
| JsonStrings.Hex4Reads | src/json/cJSON/cJSON.c:371-454 | Four characters are read as a non-zero number exactly if they are its four hexadecimal digits, each in either case; everything else is read as 0 |
| JsonStrings.Utf8Decodes | src/json/cJSON/cJSON.c:588-630 | The bytes of a code point, taken apart as section 3 of RFC 3629 says, give the code point back |
| JsonStrings.StringRoundTrip | src/json/cJSON/cJSON.c:469-646 | parse_string of the printed form of any NUL-free string returns it and stops behind the closing quote |
| JsonStrings.UnicodeLiteralDecodes | src/json/cJSON/cJSON.c:544-631 | Every scalar from U+0001 to U+10FFFF, written as one escape or as a surrogate pair with digits of either case, is decoded to its UTF-8 bytes (section 3 of RFC 3629) |
| JsonStrings.PairDecodes | src/json/cJSON/cJSON.c:561-586 | Every surrogate pair is decoded to the code point of section 2.2 of RFC 2781 |
| JsonStrings.UnicodeEscapeAccepts | src/json/cJSON/cJSON.c:544-586 | An escape is accepted exactly if it starts with a spelling, in digits of either case, of a non-zero scalar value, as one escape or as a surrogate pair; otherwise the literal is rejected |
| JsonStrings.UnescapeNulFree | src/json/cJSON/cJSON.c:469-646 | A literal without NUL never decodes to a string with one |
| Bits.SurrogateBits | src/json/cJSON/cJSON.c:584-585 | The masks and the shift of the parser compute the code point of a pair |
| Bits.ContinuationBits | src/json/cJSON/cJSON.c:609-624 | The masks and the shift of the parser take six bits off and mark them |
| Bits.LeadingBits | src/json/cJSON/cJSON.c:625-629 | The mark for the length is added to what is left |
| JsonStringCode.EncodedIsUtf8 | src/json/cJSON/cJSON.c:588-630 | The bytes written in shifts and masks are those of the UTF-8 encoding of every scalar value |
| JsonStringCode.ParseHex4 | src/json/cJSON/cJSON.c:371-454 | The result is u if the four digits of u are there, each in either case, and 0 if no number is spelled there |
| JsonStringCode.CountLiteral | src/json/cJSON/cJSON.c:486-498 | The first loop finds the end of the literal and counts its units |
| JsonStringCode.UnicodeUnits | src/json/cJSON/cJSON.c:544-631 | The UTF-8 form of an escape never needs more bytes than were counted for it |
| JsonStringCode.FillLiteral | src/json/cJSON/cJSON.c:509-638 | The second loop stays within the counted length and decodes the literal, or rejects it |
| JsonStringCode.WriteUtf8 | src/json/cJSON/cJSON.c:588-630 | The fall-through switch, with its shifts and masks, writes the UTF-8 bytes back to front |
| JsonStringCode.ParseStringAt | src/json/cJSON/cJSON.c:469-646 | Value and end position are those of the model, for every accepted literal |
| JsonStringCode.CountEscaped | src/json/cJSON/cJSON.c:713-727 | The first loop counts exactly the length of the escaped text |
| JsonStringCode.PrintStringPtr | src/json/cJSON/cJSON.c:649-792 | The printer writes exactly the quoted, escaped text, within the length it counted |
| JsonPath.LookUpComposes | src/json/json.c:455-502 | Looking up p/q is looking up q in what looking up p finds, NULL included |
| JsonPath.SlashesIgnored | src/json/json.c:455-502 | Leading and trailing slashes change nothing |
| JsonPath.GetObject | src/json/json.c:455-502 | The loop that cuts the copied path in place finds what walking the non-empty components finds |
| TailQueue.Queue.constructor | src/queue/tailq.h:52-56 | An empty queue is a well-formed list |
| TailQueue.Queue.InsertHead | src/queue/tailq.h:59-69 | The list stays well-formed and the element becomes the first |
| TailQueue.Queue.InsertTail | src/queue/tailq.h:72-78 | The list stays well-formed and the element becomes the last |
| TailQueue.Queue.InsertAfter | src/queue/tailq.h:81-91 | The list stays well-formed and the element follows the given one |
| TailQueue.Queue.Remove | src/queue/tailq.h:101-109 | The list stays well-formed without the element; the others keep order and values |
| TailQueue.Queue.RemoveWhere | src/queue/tailq.h:116-119 | The safe loop visits every original element exactly once in order, even if its body removes the current one |
| Buffers.Buffer.constructor | src/buffer/buffer.c:47-61 | An empty buffer |
| Buffers.Buffer.Reset | src/buffer/buffer.c:74-81 | The contents become empty |
| Buffers.Buffer.SetLength | src/buffer/buffer.c:93-100 | The length changes exactly if it fits the capacity |
| Buffers.Buffer.Reserve | src/buffer/buffer.c:107-128 | The contents stay, and the capacity grows to the next multiple of 4096 |
| Buffers.GrowthEnds | src/buffer/buffer.c:113-115 | With a 32-bit size, the growth loop reaches what is asked for if that is at most 0xFFFFF000, and otherwise stays below it for ever |
| Buffers.Buffer.Push | src/buffer/buffer.c:130-141 | The bytes are appended |
| Buffers.Buffer.PushString | src/buffer/buffer.c:143-195 | Exactly the frame of the message is appended, or nothing and an error if it cannot be framed |
| Buffers.Buffer.Shift | src/buffer/buffer.c:197-209 | The first bytes are dropped, exactly if there are that many |
| Buffers.DecodeLoop | src/server/server.c:2387-2452 | The loop over the buffer takes the messages of the model and leaves its rest |
| Framing.MessagesArrive | src/server/server.c:2387-2452 | Messages framed one after the other and delivered in arbitrary pieces are decoded as exactly these messages in order, and an incomplete frame stays in the buffer |
| Framing.ChunkingIrrelevant | src/client/client.c:3505-3587 | For any bytes at all the pieces they arrive in do not matter |
| Framing.FrameDecodes | src/buffer/buffer.c:143-195 | A frame is decoded as its message, whatever follows it |
| Framing.PartialFrameWaits | src/server/server.c:2391-2402 | Of an incomplete frame nothing is taken |
| Clock.AfterIsLater | src/clock/clock.h:31-35 | Of two times less than 2^64 apart the wrapped comparison is right exactly if they are less than 2^63 apart, or 2^63 apart with the first one later |
| Clock.TimesCompare | src/clock/clock.h:31-35 | For times less than 2^63 apart, after and before agree with the order of the unwrapped times |

## Left out

- Sockets, poll, TLS, web sockets and listeners: what they bring (connections, failures, pieces of the
  byte stream) is an input of a turn or of a run.
- zlib: any pair of functions that are inverse on non-empty strings (`Framing.Inverse`).
- Numbers that are not decimal integers of 32 bits: the parser sets them aside (`NotAnInteger`), and a
  text that holds one is not accepted by the model. A number that the C code would convert from a
  fraction is not modelled.
- The printer of the buffered kind (`printbuffer`), `mbus_cJSON_Minify`, and the error pointer of the parser.
- A NULL string given to `print_string_ptr`; all strings are non-NULL and NUL-free.
- Allocation failure, locking, logging, options and their parsing, usage texts.
- Addresses and ports in the payloads of connected events and of the status queries.
- Random identifiers: the one drawn is an input (`draw`); the loop that draws again until it is free is
  not modelled, a drawn name that is taken counts as refused.
- The source of a method is a handle that names a client, not a pointer; a method whose source is not on
  the list counts as a crash, and runs never reach one.
- The clock is read once per turn of the broker for its checks, once per method that is handled, and
  once per run of the client.
- Integer overflow of lengths and of timeouts; frames of 2^31 bytes or more end the decode loop.
- Buffers.Buffer.Reserve: lengths beyond 0xFFFFF000 are excluded; the loop that grows the buffer would never
  end (`Buffers.GrowthEnds`).
- Buffers.Buffer.PushString: messages of 2^31 bytes or more, or with a NUL inside, are excluded.
- `TAILQ_INSERT_BEFORE`, which refers to a name that is not among its parameters (src/queue/tailq.h:92-98).
- The choice of the callback for an event among the subscriptions, and of the routine for a call, whose
  reply is an input; the lists of subscriptions and routines that responses add to and a reset empties.
- ClientRun.OneCallback: a callback that the application did not install counts as invoked; callbacks
  do not call back into the client.
- The functions around commands (subscribe, register and their opposites) are commands with a handler and
  a payload; that they refuse what their lists already hold is not modelled. Nor is the timeout given to poll.
- Client.Client.Flush: writing to the output buffer does not fail.
- CodecAgreement.CodecsAgree: payloads are C strings and 32-bit integers, as everywhere.
- CodecFree.OwnCreatesAgree: so are the events and calls that others send to the client. A command of that
  name that is addressed to another client instead of the broker is not among the create commands.
- The password check is a comparison of strings. Event payloads are trees, not text, inside the broker.
- The applications and the clients in other languages.

/** The client of src/client/client.c as a state and the functions of its operations. */
module ClientState {
  import opened Options
  import opened Compress
  import opened JsonText
  import opened JsonPath
  import opened Methods

  datatype State = Disconnected | Connecting | Connected | Disconnecting

  /** Who is told about the end of a request: the client itself for its create request, one of the
      wrappers around commands, or the application. */
  datatype Handler =
    | CreateHandler | EventHandler | SubscribeHandler | UnsubscribeHandler | RegisterHandler | UnregisterHandler | UserHandler

  /** struct request. The serial number counts all requests ever accepted and draw those since the
      last reset; both are history. */
  datatype Item = Item(
    kind: string, destination: string, identifier: string, sequence: int, payload: Json,
    handler: Handler, created: int, timeout: int, serial: nat, draw: nat)

  /** How a request leaves the queues. */
  datatype How = Sent | Answered(response: Json) | TimedOut(at: int) | Canceled

  datatype Completion = Completion(item: Item, how: How)

  datatype Channel = ToPublish | ToSubscribe | ToUnsubscribe | ToRegister | ToUnregister | ToResult | ToConnect

  datatype Status = Success | InternalError | Timeout | Cancel

  /** One invocation of a completion callback. */
  datatype Callback = Callback(channel: Channel, serial: nat, status: Status)

  datatype ConnectStatus =
    | ConnectSuccess | ConnectInternalError | InvalidProtocol | ConnectionRefused | ServerUnavailable
    | ConnectTimeout | ConnectCanceled | ServerError

  datatype DisconnectStatus = Requested | DisconnectInternalError | ConnectionClosed | DisconnectCanceled | PingTimeout

  datatype Signal = OnConnect(connect: ConnectStatus) | OnDisconnect(disconnect: DisconnectStatus)

  /** The ping fields. The last two are history: the times of the pings queued since the last pong
      (or since the connection was made), and the times at which they were given up. */
  datatype Ping = Ping(interval: int, timeout: int, threshold: int, sent: int, received: int, waiting: bool, missed: int,
                       pings: seq<int>, misses: seq<int>)

  const NO_PING: Ping := Ping(0, 0, 0, 0, 0, false, 0, [], [])

  datatype Settings = Settings(
    identifier: Option<string>, password: Option<string>, connectTimeout: int, connectInterval: int,
    commandTimeout: int, publishTimeout: int, pingInterval: int, pingTimeout: int, pingThreshold: int, zlib: bool)

  datatype History = History(accepted: seq<Item>, completed: seq<Completion>, callbacks: seq<Callback>, signals: seq<Signal>)

  /** struct mbus_client. broken is set when a loop would go on with a request that was freed. */
  datatype Engine = Engine(
    settings: Settings,
    state: State,
    socket: bool,
    socketConnected: bool,
    connectAt: int,
    requests: seq<Item>,
    pendings: seq<Item>,
    identifier: Option<string>,
    ping: Ping,
    compression: Compression,
    sequence: int,
    draws: nat,
    outgoing: seq<Frame>,
    history: History,
    broken: bool)

  function Start(settings: Settings): Engine {
    Engine(settings, Disconnected, false, false, 0, [], [], None, NO_PING, Uncompressed, START, 0, [], History([], [], [], []), false)
  }

  // ----- requests -----

  function RequestJson(r: Item): Json {
    Object([
      Member(TAG_TYPE, String(r.kind)), Member(TAG_DESTINATION, String(r.destination)),
      Member(TAG_IDENTIFIER, String(r.identifier)), Member(TAG_SEQUENCE, Number(r.sequence))]
      + (if r.kind == TYPE_COMMAND then [Member(TAG_TIMEOUT, Number(r.timeout))] else [])
      + [Member(TAG_PAYLOAD, r.payload)])
  }

  function RequestText(r: Item): string {
    Print(RequestJson(r), 0, false)
  }

  /** request_create with the client's next sequence number, and its place at the end of the queue. */
  function Enqueue(e: Engine, kind: string, destination: string, identifier: string, payload: Option<Json>,
                   handler: Handler, timeout: int, now: int): (Engine, bool)
  {
    if e.sequence < START || e.sequence >= END || timeout < 0 then (e, false)
    else
      var data := if payload.None? then Object([]) else payload.value;
      var r := Item(kind, destination, identifier, e.sequence, data, handler, now, timeout, |e.history.accepted|, e.draws);
      (e.(requests := e.requests + [r], sequence := NextSequence(e.sequence), draws := e.draws + 1,
          history := e.history.(accepted := e.history.accepted + [r])), true)
  }

  /** mbus_client_command_with_options_unlocked: a create command needs a client that is connecting,
      every other one a client that is connected. */
  function Command(e: Engine, handler: Handler, destination: string, command: string, payload: Option<Json>,
                   timeout: int, now: int): (Engine, bool)
  {
    if (if command == "command.create" then !e.state.Connecting? else !e.state.Connected?) then (e, false)
    else Enqueue(e, TYPE_COMMAND, destination, command, payload, handler,
                 if timeout <= 0 then e.settings.commandTimeout else timeout, now)
  }

  datatype Qos = AtMostOnce | AtLeastOnce

  function EventPayload(destination: string, event: string, payload: Option<Json>): Json {
    Object([Member(TAG_DESTINATION, String(destination)), Member(TAG_IDENTIFIER, String(event)),
            Member(TAG_PAYLOAD, if payload.None? then Object([]) else payload.value)])
  }

  /** mbus_client_publish_with_options_unlocked. At least once, the event travels in a command, and
      success is returned even if that command could not be queued. */
  function Publish(e: Engine, destination: Option<string>, event: string, payload: Option<Json>, qos: Qos,
                   timeout: int, now: int): (Engine, bool)
  {
    if !e.state.Connected? then (e, false)
    else
      var to := if destination.None? then SUBSCRIBERS else destination.value;
      var t := if timeout <= 0 then e.settings.publishTimeout else timeout;
      match qos
      case AtMostOnce => Enqueue(e, TYPE_EVENT, to, event, payload, UserHandler, t, now)
      case AtLeastOnce =>
        (Command(e, EventHandler, SERVER, "command.event", Some(EventPayload(to, event, payload)), t, now).0, true)
  }

  function CreateData(s: Settings): Json {
    Object(
      (if s.identifier.Some? then [Member("identifier", String(s.identifier.value))] else [])
      + (if s.password.Some? then [Member("password", String(s.password.value))] else [])
      + (if s.pingInterval > 0 then [Member("ping", Object([
           Member("interval", Number(s.pingInterval)), Member("timeout", Number(s.pingTimeout)),
           Member("threshold", Number(s.pingThreshold))]))] else [])
      + [Member("compressions", Array([String("none")] + if s.zlib then [String("zlib")] else []))])
  }

  /** mbus_client_command_create_request */
  function RequestCreate(e: Engine, now: int): (Engine, bool) {
    Command(e, CreateHandler, SERVER, "command.create", Some(CreateData(e.settings)), 0, now)
  }

  /** The payload of a subscribe or unsubscribe command: without a source, that of any. */
  function SubscribeData(source: Option<string>, event: string): Json {
    Object([Member("source", String(if source.None? then ANY_SOURCE else source.value)), Member("event", String(event))])
  }

  /** The payload of a register or unregister command. */
  function RegisterData(command: string): Json {
    Object([Member("command", String(command))])
  }

  // ----- completion -----

  /** An event nobody asked to hear about again. */
  predicate Quiet(r: Item) {
    r.destination == SERVER || r.identifier == PING
  }

  function HandlerChannel(h: Handler): Channel {
    match h
    case CreateHandler => ToConnect
    case EventHandler => ToPublish
    case SubscribeHandler => ToSubscribe
    case UnsubscribeHandler => ToUnsubscribe
    case RegisterHandler => ToRegister
    case UnregisterHandler => ToUnregister
    case UserHandler => ToResult
  }

  /** Where the end of an unanswered request is reported. */
  function UnansweredChannel(r: Item): Option<Channel> {
    if r.kind == TYPE_EVENT then (if Quiet(r) then None else Some(ToPublish))
    else if r.kind == TYPE_COMMAND then
      if r.identifier == "command.event" then Some(ToPublish)
      else if r.identifier == "command.subscribe" then Some(ToSubscribe)
      else if r.identifier == "command.unsubscribe" then Some(ToUnsubscribe)
      else if r.identifier == "command.register" then Some(ToRegister)
      else if r.identifier == "command.unregister" then Some(ToUnregister)
      else Some(HandlerChannel(r.handler))
    else None
  }

  /** What a handler is told or makes of a response: the wrappers look at its status, to the others
      every response is a success. */
  function ResponseStatus(h: Handler, response: Json): Status {
    if h.UserHandler? || h.CreateHandler? || IntAt(Some(response), TAG_STATUS, -1) == 0 then Success else InternalError
  }

  function CallbackOf(c: Completion): Option<Callback> {
    var r := c.item;
    match c.how
    case Sent => if Quiet(r) then None else Some(Callback(ToPublish, r.serial, Success))
    case Answered(response) => Some(Callback(HandlerChannel(r.handler), r.serial, ResponseStatus(r.handler, response)))
    case TimedOut(at) => if UnansweredChannel(r).None? then None else Some(Callback(UnansweredChannel(r).value, r.serial, Timeout))
    case Canceled => if UnansweredChannel(r).None? then None else Some(Callback(UnansweredChannel(r).value, r.serial, Cancel))
  }

  /** The request is gone and its callback was invoked. */
  function Completed(e: Engine, r: Item, how: How): Engine {
    var c := Completion(r, how);
    var called := if CallbackOf(c).Some? then [CallbackOf(c).value] else [];
    e.(history := e.history.(completed := e.history.completed + [c], callbacks := e.history.callbacks + called))
  }

  function Signaled(e: Engine, s: Signal): Engine {
    e.(history := e.history.(signals := e.history.signals + [s]))
  }

  // ----- reset and the create response -----

  function Load(e: Engine): nat {
    |e.requests| + |e.pendings|
  }

  /** The part of mbus_client_reset before its loops. */
  function Unplugged(e: Engine): Engine {
    e.(socket := false, outgoing := [])
  }

  /** The part of mbus_client_reset behind its loops. */
  function Cleared(e: Engine): Engine {
    e.(identifier := None, ping := NO_PING, sequence := START, draws := 0, compression := Uncompressed, socketConnected := false)
  }

  /** mbus_client_reset */
  function Reset(e: Engine): Engine
    decreases Load(e), 3
  {
    var a := CancelRequests(Unplugged(e));
    if Load(a) <= Load(e) && !a.broken then
      var b := CancelPendings(a);
      if b.broken then b else Cleared(b)
    else a
  }

  /** The loop over requests. Canceling the create request resets the client within the loop, which
      frees what is left of the queue: if there was a next request, the loop would go on with it. */
  function CancelRequests(e: Engine): Engine
    decreases Load(e), 1
  {
    if e.requests == [] then e
    else
      var r, rest := e.requests[0], e.requests[1..];
      var d := Completed(e.(requests := rest), r, Canceled);
      if r.handler.CreateHandler? then
        var f := CreateFailed(d, ConnectCanceled);
        if rest != [] then f.(broken := true) else f
      else CancelRequests(d)
  }

  /** The loop over pendings. */
  function CancelPendings(e: Engine): Engine
    decreases Load(e), 2
  {
    if e.pendings == [] then e
    else
      var r, rest := e.pendings[0], e.pendings[1..];
      var d := Completed(e.(pendings := rest), r, Canceled);
      if r.handler.CreateHandler? then
        var f := CreateFailed(d, ConnectCanceled);
        if rest != [] then f.(broken := true) else f
      else CancelPendings(d)
  }

  /** Where a client goes that lost or never had its connection. */
  function Retrying(s: Settings): State {
    if s.connectInterval > 0 then Connecting else Disconnected
  }

  /** The end of mbus_client_command_create_response after a failure. */
  function CreateFailed(e: Engine, status: ConnectStatus): Engine
    decreases Load(e), 4
  {
    Reset(Signaled(e, OnConnect(status))).(state := Retrying(e.settings))
  }

  /** mbus_client_command_create_response for a response that came. */
  function CreateAnswered(e: Engine, response: Json): Engine {
    var status, payload := IntAt(Some(response), TAG_STATUS, -1), LookUp(Some(response), TAG_PAYLOAD);
    if status != 0 || payload.None? then CreateFailed(e, ServerError)
    else
      var identifier, compression := StringAt(payload, "identifier"), StringAt(payload, "compression");
      if identifier.None? then CreateFailed(e, ServerError)
      else
        Signaled(e.(
          identifier := identifier,
          compression := CompressionNamed(if compression.None? then "none" else compression.value, e.settings.zlib),
          ping := e.ping.(interval := IntAt(payload, "ping/interval", -1), timeout := IntAt(payload, "ping/timeout", -1),
                          threshold := IntAt(payload, "ping/threshold", -1)),
          state := Connected), OnConnect(ConnectSuccess))
  }

  // ----- connecting -----

  /** What the attempt to connect meets. */
  datatype Attempt = Established | InProgress | Refused | Unavailable | Failed | BadProtocol

  /** A connection attempt failed in a regular way. */
  function GiveUp(e: Engine, status: ConnectStatus, after: DisconnectStatus): Engine {
    var d := Reset(Signaled(e, OnConnect(status)));
    if e.settings.connectInterval > 0 then d.(state := Connecting)
    else Signaled(d.(state := Disconnected), OnDisconnect(after))
  }

  /** mbus_client_run_connect */
  function RunConnect(e: Engine, attempt: Attempt, now: int): (Engine, bool) {
    var d := Reset(e);
    match attempt
    case BadProtocol => (Reset(Signaled(d, OnConnect(InvalidProtocol))), false)
    case Failed => (Reset(Signaled(d, OnConnect(ConnectInternalError))), false)
    case InProgress => (d.(socket := true), true)
    case Refused => (GiveUp(d.(socket := true), ConnectionRefused, DisconnectCanceled), true)
    case Unavailable => (GiveUp(d.(socket := true), ServerUnavailable, DisconnectCanceled), true)
    case Established =>
      var (f, ok) := RequestCreate(d.(socket := true, socketConnected := true), now);
      if ok then (f, true) else (Reset(Signaled(f, OnConnect(ConnectInternalError))), false)
  }

  // ----- messages -----

  /** The first pending request with that sequence number. */
  function FindPending(items: seq<Item>, sequence: int): (r: Option<nat>)
    ensures r.Some? ==> r.value < |items| && items[r.value].sequence == sequence
    ensures r.Some? ==> forall i | 0 <= i < r.value :: items[i].sequence != sequence
    ensures r.None? ==> forall i | 0 <= i < |items| :: items[i].sequence != sequence
  {
    if items == [] then None
    else if items[0].sequence == sequence then Some(0)
    else
      var r := FindPending(items[1..], sequence);
      assert forall i | 0 < i < |items| :: items[i] == items[1..][i - 1];
      if r.None? then None else Some(r.value + 1)
  }

  /** mbus_client_handle_result */
  function HandleResult(e: Engine, json: Json): Engine {
    var k := FindPending(e.pendings, IntAt(Some(json), TAG_SEQUENCE, -1));
    if k.None? then e
    else
      var r := e.pendings[k.value];
      var d := Completed(e.(pendings := e.pendings[..k.value] + e.pendings[k.value + 1..]), r, Answered(json));
      if r.handler.CreateHandler? then CreateAnswered(d, json) else d
  }

  predicate IsPong(source: string, identifier: string) {
    source == SERVER && identifier == PONG
  }

  function Ponged(e: Engine, now: int): Engine {
    e.(ping := e.ping.(waiting := false, received := now, missed := 0, pings := [], misses := []))
  }

  /** mbus_client_handle_event, but for the application's callback. */
  function HandleEvent(e: Engine, json: Json, now: int): (Engine, bool) {
    var source, identifier := StringAt(Some(json), TAG_SOURCE), StringAt(Some(json), TAG_IDENTIFIER);
    if source.None? || identifier.None? then (e, false)
    else if IsPong(source.value, identifier.value) then (Ponged(e, now), true)
    else (e, true)
  }

  /** What the application's routine returns for a call. */
  datatype Reply = Reply(status: int, payload: Option<Json>)

  function ReplyPayload(source: string, identifier: string, json: Json, reply: Reply): Json {
    Object([Member(TAG_DESTINATION, String(source)), Member(TAG_IDENTIFIER, String(identifier)),
            Member(TAG_SEQUENCE, Number(IntAt(Some(json), TAG_SEQUENCE, -1))), Member(TAG_STATUS, Number(reply.status))]
           + if reply.payload.None? then [] else [Member(TAG_PAYLOAD, reply.payload.value)])
  }

  /** mbus_client_handle_command: the routine's reply goes back in a result command. */
  function HandleCommand(e: Engine, json: Json, reply: Option<Reply>, now: int): (Engine, bool) {
    var source, identifier := StringAt(Some(json), TAG_SOURCE), StringAt(Some(json), TAG_IDENTIFIER);
    if source.None? || identifier.None? then (e, false)
    else if IsPong(source.value, identifier.value) then (Ponged(e, now), true)
    else if reply.None? then (e, true)
    else
      Command(e, UserHandler, SERVER, "command.result",
              Some(ReplyPayload(source.value, identifier.value, json, reply.value)), 0, now)
  }

  /** A message that arrived, and what the application's routine replies if it is a call. */
  datatype Incoming = Incoming(text: string, reply: Option<Reply>)

  /** One turn of the decode loop; false ends the run. */
  function Receive(e: Engine, m: Incoming, now: int): (Engine, bool) {
    var json := Parse(m.text);
    var kind := StringAt(json, TAG_TYPE);
    if json.None? || kind.None? then (e, false)
    else if kind.value == TYPE_RESULT then (HandleResult(e, json.value), true)
    else if kind.value == TYPE_EVENT then HandleEvent(e, json.value, now)
    else if kind.value == TYPE_COMMAND then HandleCommand(e, json.value, m.reply, now)
    else (e, false)
  }

  /** The decode loop. A reset empties the buffer it reads from. */
  function ReceiveAll(e: Engine, messages: seq<Incoming>, now: int): (Engine, bool)
    decreases |messages|
  {
    if messages == [] || !e.socket then (e, true)
    else
      var (d, ok) := Receive(e, messages[0], now);
      if ok then ReceiveAll(d, messages[1..], now) else (d, false)
  }

  // ----- the sections at the end of a run -----

  function CheckConnecting(e: Engine, now: int): Engine {
    if e.state.Connecting? && e.socket && !e.socketConnected && now > e.connectAt + e.settings.connectTimeout then
      GiveUp(e, ConnectTimeout, DisconnectInternalError)
    else e
  }

  function SendPing(e: Engine, now: int): (Engine, bool) {
    Publish(e.(ping := e.ping.(sent := now, received := 0, waiting := true, pings := e.ping.pings + [now])),
            Some(SERVER), PING, None, AtMostOnce, 0, now)
  }

  function MissPong(p: Ping, now: int): Ping {
    if p.waiting && p.sent != 0 && p.received == 0 && now > p.sent + p.timeout then
      p.(waiting := false, missed := p.missed + 1, misses := p.misses + [now])
    else p
  }

  /** The ping section; false ends the run. */
  function CheckPing(e: Engine, now: int): (Engine, bool) {
    if !e.state.Connected? || e.ping.interval <= 0 then (e, true)
    else
      var (d, ok) := if !e.ping.waiting && now > e.ping.sent + e.ping.interval then SendPing(e, now) else (e, true);
      if !ok then (d, false)
      else
        var f := d.(ping := MissPong(d.ping, now));
        if f.ping.missed > f.ping.threshold then
          (Reset(Signaled(f, OnDisconnect(PingTimeout))).(state := Retrying(f.settings)), true)
        else (f, true)
  }

  predicate Expired(r: Item, now: int) {
    r.timeout >= 0 && now >= r.created + r.timeout
  }

  /** A request that timed out is completed; for the create request this resets the client. */
  function TimeOut(e: Engine, r: Item, now: int): Engine {
    var d := Completed(e, r, TimedOut(now));
    if r.handler.CreateHandler? then CreateFailed(d, ConnectTimeout) else d
  }

  /** The sweep of the requests behind position k. */
  function SweepRequests(e: Engine, k: nat, now: int): Engine
    decreases |e.requests| - k
  {
    if k >= |e.requests| then e
    else if !Expired(e.requests[k], now) then SweepRequests(e, k + 1, now)
    else
      var r, rest := e.requests[k], e.requests[..k] + e.requests[k + 1..];
      var d := TimeOut(e.(requests := rest), r, now);
      if r.handler.CreateHandler? then (if k < |rest| then d.(broken := true) else d)
      else SweepRequests(d, k, now)
  }

  function SweepPendings(e: Engine, k: nat, now: int): Engine
    decreases |e.pendings| - k
  {
    if k >= |e.pendings| then e
    else if !Expired(e.pendings[k], now) then SweepPendings(e, k + 1, now)
    else
      var r, rest := e.pendings[k], e.pendings[..k] + e.pendings[k + 1..];
      var d := TimeOut(e.(pendings := rest), r, now);
      if r.handler.CreateHandler? then (if k < |rest| then d.(broken := true) else d)
      else SweepPendings(d, k, now)
  }

  /** One request is written to the output buffer; an event is done with that, a command is pending. */
  function FlushOne(e: Engine): Engine
    requires e.requests != []
  {
    var r := e.requests[0];
    var d := e.(requests := e.requests[1..], outgoing := e.outgoing + [Frame(e.compression, RequestText(r))]);
    if r.kind == TYPE_EVENT then Completed(d, r, Sent) else d.(pendings := d.pendings + [r])
  }

  function Flush(e: Engine): Engine
    decreases |e.requests|
  {
    if e.requests == [] then e else Flush(FlushOne(e))
  }

  /** Everything behind the label out. */
  function Finish(e: Engine, now: int): (Engine, bool) {
    var (d, ok) := CheckPing(CheckConnecting(e, now), now);
    if !ok || d.broken then (d, false)
    else
      var f := SweepRequests(d, 0, now);
      if f.broken then (f, false)
      else
        var g := SweepPendings(f, 0, now);
        if g.broken then (g, false) else (Flush(g), true)
  }

  // ----- a run -----

  /** What a run meets after poll: a closed connection; the end of a connection attempt, if one was
      under way; a write error; or messages. */
  datatype Poll =
    | Idle
    | PollError
    | Ready(closed: bool, attempt: Option<Attempt>, writeError: bool, messages: seq<Incoming>)

  datatype Input = Input(now: int, attempt: Attempt, poll: Poll)

  /** The start of a run by state: the new state, whether the run goes on to poll, and whether it fails. */
  datatype Head = Polls | Skips | Fails

  function Begin(e: Engine, attempt: Attempt, now: int): (Engine, Head) {
    match e.state
    case Connecting =>
      if !e.socket && (e.settings.connectInterval <= 0 || now >= e.connectAt + e.settings.connectInterval) then
        var (d, ok) := RunConnect(e.(connectAt := now), attempt, now);
        (d, if ok then Polls else Fails)
      else (e, Polls)
    case Connected => (e, Polls)
    case Disconnecting => (Signaled(Reset(e).(state := Disconnected), OnDisconnect(Requested)), Skips)
    case Disconnected =>
      if e.settings.connectInterval > 0 then (e.(state := Connecting), Skips) else (e, Polls)
  }

  /** The socket can be written for the first time: the attempt to connect is over. */
  function FinishConnecting(e: Engine, attempt: Attempt, now: int): (Engine, Head) {
    match attempt
    case Established =>
      var (d, ok) := RequestCreate(e.(socketConnected := true), now);
      (d, if ok then Polls else Fails)
    case Refused => (GiveUp(e, ConnectionRefused, DisconnectCanceled), Skips)
    case _ => (Signaled(e, OnConnect(ConnectInternalError)), Fails)
  }

  /** What poll reports, up to the decode loop. */
  function BeforeDecode(e: Engine, p: Poll, now: int): (Engine, Head) {
    match p
    case Idle => (e, Skips)
    case PollError => (e, Fails)
    case Ready(closed, attempt, writeError, messages) =>
      if !e.socket then (e, Polls)
      else if closed then (Signaled(Reset(e).(state := Disconnected), OnDisconnect(ConnectionClosed)), Skips)
      else if e.state.Connecting? && !e.socketConnected then
        if attempt.Some? then FinishConnecting(e, attempt.value, now) else (e, Polls)
      else (e, if writeError && e.outgoing != [] then Fails else Polls)
  }

  function Messages(p: Poll): seq<Incoming> {
    if p.Ready? then p.messages else []
  }

  /** What poll reports, and the decode loop. */
  function Serve(e: Engine, p: Poll, now: int): (Engine, Head) {
    var (d, h) := BeforeDecode(e, p, now);
    if !h.Polls? then (d, h)
    else
      var (f, ok) := ReceiveAll(d, Messages(p), now);
      (f, if ok then Polls else Fails)
  }

  /** mbus_client_run; the flag is its return code. */
  function Run(e: Engine, input: Input): (Engine, bool) {
    var (a, h) := Begin(e, input.attempt, input.now);
    if a.broken || h == Fails then (a, false)
    else
      var (b, i) := if h == Skips then (a, Skips) else Serve(a, input.poll, input.now);
      if b.broken || i == Fails then (b, false) else Finish(b, input.now)
  }

  // ----- everything an application can do -----

  datatype Operation =
    | Connect
    | Disconnect
    | Issue(handler: Handler, destination: string, command: string, payload: Option<Json>, timeout: int, now: int)
    | Emit(to: Option<string>, event: string, data: Option<Json>, qos: Qos, limit: int, at: int)
    | Turn(input: Input)

  function Apply(e: Engine, o: Operation): Engine {
    if e.broken then e
    else
      match o
      case Connect => if !e.state.Connected? && !e.state.Connecting? then e.(state := Connecting) else e
      case Disconnect => if !e.state.Disconnected? then e.(state := Disconnecting) else e
      case Issue(handler, destination, command, payload, timeout, now) =>
        Command(e, handler, destination, command, payload, timeout, now).0
      case Emit(to, event, data, qos, limit, at) => Publish(e, to, event, data, qos, limit, at).0
      case Turn(input) => Run(e, input).0
  }

  function ApplyAll(e: Engine, operations: seq<Operation>): Engine {
    if operations == [] then e
    else Apply(ApplyAll(e, operations[..|operations| - 1]), operations[|operations| - 1])
  }
}

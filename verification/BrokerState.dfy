/** The broker of src/server/server.c as a state and the functions of its turn. */
module BrokerState {
  import opened Options
  import opened Compress
  import opened JsonText
  import opened JsonPath
  import opened Methods

  datatype CloseCode = Unknown | CloseCommand | PingThreshold | ConnectionClosed | InternalError

  datatype Subscription = Subscription(source: string, event: string)

  datatype Ping = Ping(enabled: bool, interval: int, timeout: int, threshold: int, received: int, missed: int)

  /** struct client. The last three fields are history: the commands accepted from the client, the
      results that were serialised for it and the events that were. */
  datatype Client = Client(
    handle: nat,
    identifier: Option<string>,
    accepted: bool,
    connected: bool,
    open: bool,
    closeCode: CloseCode,
    compression: Compression,
    ping: Ping,
    subscriptions: seq<Subscription>,
    commands: seq<string>,
    requests: seq<Notice>,
    results: seq<Request>,
    events: seq<Notice>,
    waits: seq<Request>,
    esequence: int,
    out: seq<Frame>,
    log: seq<Request>,
    sent: seq<Request>,
    delivered: seq<Notice>)

  /** A connected or disconnected announcement. */
  datatype Announcement = Announcement(name: string, up: bool)

  /** struct mbus_server. Clients are referred to by handle, as the C code does by pointer; a
      dangling or NULL pointer that would be followed sets crashed. */
  datatype Server = Server(
    clients: seq<Client>,
    methods: seq<Request>,
    running: bool,
    crashed: bool,
    password: Option<string>,
    zlib: bool,
    nextHandle: nat,
    announcements: seq<Announcement>)

  const NO_PING: Ping := Ping(false, 0, 0, 0, 0, 0)

  function Start(password: Option<string>, zlib: bool): Server {
    Server([], [], true, false, password, zlib, 0, [])
  }

  // ----- clients -----

  /** client_create */
  function NewClient(handle: nat): Client {
    Client(handle, None, false, false, true, Unknown, Uncompressed, NO_PING, [], [], [], [], [], [], START, [], [], [], [])
  }

  /** server_find_client_by_identifier, as an index. */
  function Find(clients: seq<Client>, name: string): (r: Option<nat>)
    ensures r.Some? ==> r.value < |clients| && clients[r.value].identifier == Some(name)
    ensures r.Some? ==> forall i | 0 <= i < r.value :: clients[i].identifier != Some(name)
    ensures r.None? ==> forall i | 0 <= i < |clients| :: clients[i].identifier != Some(name)
  {
    if clients == [] then None
    else if clients[0].identifier == Some(name) then Some(0)
    else
      var r := Find(clients[1..], name);
      assert forall i | 0 < i < |clients| :: clients[i] == clients[1..][i - 1];
      if r.None? then None else Some(r.value + 1)
  }

  /** The client a pointer refers to. */
  function Locate(clients: seq<Client>, handle: nat): (r: Option<nat>)
    ensures r.Some? ==> r.value < |clients| && clients[r.value].handle == handle
    ensures r.None? ==> forall i | 0 <= i < |clients| :: clients[i].handle != handle
  {
    if clients == [] then None
    else if clients[0].handle == handle then Some(0)
    else
      var r := Locate(clients[1..], handle);
      assert forall i | 0 < i < |clients| :: clients[i] == clients[1..][i - 1];
      if r.None? then None else Some(r.value + 1)
  }

  /** client_set_connection(client, NULL, code) */
  function Closed(c: Client, code: CloseCode): Client {
    c.(open := false, closeCode := code)
  }

  /** client_push_event with the client's next event sequence number. */
  function PushEvent(c: Client, source: string, identifier: string, payload: Json): Client {
    c.(events := c.events + [Notice(TYPE_EVENT, source, identifier, c.esequence, payload)],
       esequence := NextSequence(c.esequence))
  }

  function PushResult(c: Client, m: Request): Client {
    c.(results := c.results + [m])
  }

  function PushWait(c: Client, m: Request): Client {
    c.(waits := c.waits + [m])
  }

  function PushRequest(c: Client, n: Notice): Client {
    c.(requests := c.requests + [n])
  }

  /** client_add_subscription: at most once. */
  function AddSubscription(c: Client, s: Subscription): Client {
    if s in c.subscriptions then c else c.(subscriptions := c.subscriptions + [s])
  }

  function AddCommand(c: Client, name: string): Client {
    if name in c.commands then c else c.(commands := c.commands + [name])
  }

  function Without<T(==)>(xs: seq<T>, x: T): seq<T> {
    if xs == [] then [] else if xs[0] == x then xs[1..] else [xs[0]] + Without(xs[1..], x)
  }

  // ----- events -----

  predicate MatchesEvent(s: Subscription, source: string, identifier: string) {
    (s.source == ANY_SOURCE || s.source == source) && (s.event == ANY_EVENT || s.event == identifier)
  }

  /** One matching subscription is enough; the loop breaks at the first. */
  predicate Subscribed(c: Client, source: string, identifier: string) {
    exists i | 0 <= i < |c.subscriptions| :: MatchesEvent(c.subscriptions[i], source, identifier)
  }

  function ToEveryone(clients: seq<Client>, source: string, identifier: string, payload: Json): seq<Client> {
    seq(|clients|, i requires 0 <= i < |clients| =>
      var c := clients[i];
      if c.identifier.Some? && c.identifier.value != source then PushEvent(c, source, identifier, payload) else c)
  }

  function ToSubscribers(clients: seq<Client>, source: string, identifier: string, payload: Json): seq<Client> {
    seq(|clients|, i requires 0 <= i < |clients| =>
      var c := clients[i];
      if Subscribed(c, source, identifier) then PushEvent(c, source, identifier, payload) else c)
  }

  function ToOne(clients: seq<Client>, source: string, destination: string, identifier: string, payload: Json): seq<Client> {
    var i := Find(clients, destination);
    if i.None? then clients
    else clients[i.value := PushEvent(clients[i.value], source, identifier, payload)]
  }

  function PingReceived(clients: seq<Client>, source: string, now: int): seq<Client> {
    var i := Find(clients, source);
    if i.None? then clients
    else clients[i.value := clients[i.value].(ping := clients[i.value].ping.(received := now))]
  }

  /** server_send_event_to: nothing without a source; a ping to the server is answered by a pong. */
  function SendEvent(clients: seq<Client>, source: Option<string>, destination: string, identifier: string,
                     payload: Option<Json>, now: int): seq<Client>
    decreases identifier == PING
  {
    var data := if payload.None? then Object([]) else payload.value;
    if source.None? then clients
    else if destination == SERVER then
      if identifier == PING then
        NamesDiffer();
        SendEvent(PingReceived(clients, source.value, now), Some(SERVER), source.value, PONG, None, now)
      else clients
    else if destination == EVERYONE then ToEveryone(clients, source.value, identifier, data)
    else if destination == SUBSCRIBERS then ToSubscribers(clients, source.value, identifier, data)
    else ToOne(clients, source.value, destination, identifier, data)
  }

  /** The broker's own events, sent to the subscribers. */
  function Tell(clients: seq<Client>, event: string, payload: Json, now: int): seq<Client> {
    SendEvent(clients, Some(SERVER), SUBSCRIBERS, Mbus("server.event." + event), Some(payload), now)
  }

  // ----- commands addressed to the server -----

  /** What a handler leaves: the state, its return code and the request, whose result it may have set. */
  datatype Outcome = Outcome(server: Server, rc: int, request: Request)

  function WithClient(s: Server, i: nat, c: Client): Server
    requires i < |s.clients|
  {
    s.(clients := s.clients[i := c])
  }

  function Offers(compressions: Option<Json>, name: string): bool {
    compressions.Some? && compressions.value.Array? && String(name) in compressions.value.items
  }

  /** The first of the broker's compression methods that the client offers; zlib comes first. */
  function Negotiate(zlib: bool, compressions: Option<Json>): Compression {
    if zlib && Offers(compressions, "zlib") then Zlib else Uncompressed
  }

  function PingSettings(before: Ping, request: Option<Json>, now: int): Ping {
    var interval := IntAt(request, "interval", -1);
    var timeout := IntAt(request, "timeout", -1);
    var threshold := IntAt(request, "threshold", -1);
    if interval <= 0 then Ping(false, 0, 0, 0, 0, before.missed)
    else
      Ping(true, interval, if timeout > interval then interval else timeout,
           if threshold <= 0 then 0 else threshold, now - interval, before.missed)
  }

  function CreatePayload(identifier: string, compression: Compression, ping: Ping): Json {
    Object([
      Member("identifier", String(identifier)),
      Member("compression", String(CompressionName(compression))),
      Member("ping", Object([
        Member("interval", Number(ping.interval)), Member("timeout", Number(ping.timeout)),
        Member("threshold", Number(ping.threshold))]))])
  }

  /** server_handle_command_create: only once per client, only for a name nobody has. The name is
      kept even when the password is refused afterwards. */
  function Create(s: Server, i: nat, m: Request): Outcome
    requires i < |s.clients|
  {
    var c := s.clients[i];
    var payload := Some(m.payload);
    var asked := StringAt(payload, "identifier");
    var name := if asked.None? || asked.value == "" then m.draw else asked.value;
    if c.identifier.Some? || Find(s.clients, name).Some? then Outcome(s, -1, m)
    else
      var named := c.(identifier := Some(name));
      if s.password.Some? && StringAt(payload, "password") != s.password then Outcome(WithClient(s, i, named), -1, m)
      else
        var d := named.(
          ping := PingSettings(c.ping, LookUp(payload, "ping"), m.now),
          compression := Negotiate(s.zlib, LookUp(payload, "compressions")));
        Outcome(WithClient(s, i, d), 0, SetResultPayload(m, Some(CreatePayload(name, d.compression, d.ping))))
  }

  function SubscriptionPayload(source: string, subscription: Subscription): Json {
    Object([Member("source", String(source)), Member("destination", String(subscription.source)),
            Member("identifier", String(subscription.event))])
  }

  function CommandPayload(source: string, command: string): Json {
    Object([Member("source", String(source)), Member("identifier", String(command))])
  }

  /** Only clients that have an identifier get their changes announced; the others are refused,
      after the change was made. */
  function Announced(s: Server, i: nat, c: Client, event: string, payload: string -> Json, m: Request): Outcome
    requires i < |s.clients|
  {
    var t := WithClient(s, i, c);
    if c.identifier.None? then Outcome(t, -1, m)
    else Outcome(t.(clients := Tell(t.clients, event, payload(c.identifier.value), m.now)), 0, m)
  }

  function Subscribe(s: Server, i: nat, m: Request): Outcome
    requires i < |s.clients|
  {
    var source, event := StringAt(Some(m.payload), "source"), StringAt(Some(m.payload), "event");
    if source.None? || event.None? then Outcome(s, -1, m)
    else
      var subscription := Subscription(source.value, event.value);
      Announced(s, i, AddSubscription(s.clients[i], subscription), "subscribed",
                name => SubscriptionPayload(name, subscription), m)
  }

  function Unsubscribe(s: Server, i: nat, m: Request): Outcome
    requires i < |s.clients|
  {
    var source, event := StringAt(Some(m.payload), "source"), StringAt(Some(m.payload), "event");
    if source.None? || event.None? then Outcome(s, -1, m)
    else
      var c, subscription := s.clients[i], Subscription(source.value, event.value);
      if subscription !in c.subscriptions then Outcome(s, -1, m)
      else
        Announced(s, i, c.(subscriptions := Without(c.subscriptions, subscription)), "unsubscribed",
                  name => SubscriptionPayload(name, subscription), m)
  }

  function Register(s: Server, i: nat, m: Request): Outcome
    requires i < |s.clients|
  {
    var command := StringAt(Some(m.payload), "command");
    if command.None? then Outcome(s, -1, m)
    else
      Announced(s, i, AddCommand(s.clients[i], command.value), "registered",
                name => CommandPayload(name, command.value), m)
  }

  /** client_del_command does not check that the command was found before it removes it. */
  function Unregister(s: Server, i: nat, m: Request): Outcome
    requires i < |s.clients|
  {
    var command := StringAt(Some(m.payload), "command");
    if command.None? then Outcome(s, -1, m)
    else
      var c := s.clients[i];
      if command.value !in c.commands then Outcome(s.(crashed := true), -1, m)
      else
        Announced(s, i, c.(commands := Without(c.commands, command.value)), "unregistered",
                  name => CommandPayload(name, command.value), m)
  }

  /** server_handle_command_event */
  function PublishEvent(s: Server, i: nat, m: Request): Outcome
    requires i < |s.clients|
  {
    var p := Some(m.payload);
    var destination, identifier, payload := StringAt(p, TAG_DESTINATION), StringAt(p, TAG_IDENTIFIER), LookUp(p, TAG_PAYLOAD);
    if destination.None? || identifier.None? || payload.None? then Outcome(s, -1, m)
    else
      Outcome(s.(clients := SendEvent(s.clients, s.clients[i].identifier, destination.value, identifier.value, payload, m.now)),
              0, m)
  }

  function SubscriptionJson(subscription: Subscription): Json {
    Object([Member("source", String(subscription.source)), Member("identifier", String(subscription.event))])
  }

  function CommandJson(command: string): Json {
    Object([Member("identifier", String(command))])
  }

  function SubscriptionList(subscriptions: seq<Subscription>): seq<Json> {
    seq(|subscriptions|, i requires 0 <= i < |subscriptions| => SubscriptionJson(subscriptions[i]))
  }

  function CommandList(commands: seq<string>): seq<Json> {
    seq(|commands|, i requires 0 <= i < |commands| => CommandJson(commands[i]))
  }

  function Listed(c: Client): seq<Member> {
    (if c.identifier.Some? then [Member("source", String(c.identifier.value))] else [])
    + [Member("subscriptions", Array(SubscriptionList(c.subscriptions))), Member("commands", Array(CommandList(c.commands)))]
  }

  function StatusList(clients: seq<Client>): seq<Json> {
    seq(|clients|, i requires 0 <= i < |clients| => Object(Listed(clients[i])))
  }

  function Names(clients: seq<Client>): seq<Json> {
    if clients == [] then []
    else (if clients[0].identifier.Some? then [String(clients[0].identifier.value)] else []) + Names(clients[1..])
  }

  /** The status, client and clients queries. */
  function Query(s: Server, m: Request): Outcome {
    if m.identifier == "command.status" then
      Outcome(s, 0, SetResultPayload(m, Some(Array(StatusList(s.clients)))))
    else if m.identifier == "command.clients" then
      Outcome(s, 0, SetResultPayload(m, Some(Array(Names(s.clients)))))
    else
      var name := StringAt(Some(m.payload), "source");
      if name.None? || Find(s.clients, name.value).None? then Outcome(s, -1, m)
      else Outcome(s, 0, SetResultPayload(m, Some(Object(Listed(s.clients[Find(s.clients, name.value).value])))))
  }

  /** server_handle_command_close */
  function Close(s: Server, m: Request): Outcome {
    var name := StringAt(Some(m.payload), "source");
    if name.None? then Outcome(s, -1, m)
    else if name.value == SERVER then Outcome(s.(running := false), 0, m)
    else
      var i := Find(s.clients, name.value);
      if i.None? then Outcome(s, -1, m)
      else Outcome(WithClient(s, i.value, Closed(s.clients[i.value], CloseCommand)), 0, m)
  }

  // ----- calls and their results -----

  /** server_handle_command_call: the call is queued at the client that registered the command. */
  function Call(s: Server, i: nat, m: Request): Outcome
    requires i < |s.clients|
  {
    var j := Find(s.clients, m.destination);
    if j.None? || m.identifier !in s.clients[j.value].commands then Outcome(s, -1, m)
    else
      var n := CreateResponse(TYPE_COMMAND, s.clients[i].identifier, m.identifier, m.sequence, Some(m.payload));
      if n.None? then Outcome(s, -1, m)
      else Outcome(WithClient(s, j.value, PushRequest(s.clients[j.value], n.value)), 0, m)
  }

  /** The wait a result answers: the call with that sequence number, to the client that sends the
      result, of that command. */
  predicate AnsweredBy(w: Request, source: string, identifier: string, sequence: int) {
    w.sequence == sequence && w.destination == source && w.identifier == identifier
  }

  function FindWait(waits: seq<Request>, source: string, identifier: string, sequence: int): (r: Option<nat>)
    ensures r.Some? ==> r.value < |waits| && AnsweredBy(waits[r.value], source, identifier, sequence)
    ensures r.Some? ==> forall i | 0 <= i < r.value :: !AnsweredBy(waits[i], source, identifier, sequence)
    ensures r.None? ==> forall i | 0 <= i < |waits| :: !AnsweredBy(waits[i], source, identifier, sequence)
  {
    if waits == [] then None
    else if AnsweredBy(waits[0], source, identifier, sequence) then Some(0)
    else
      var r := FindWait(waits[1..], source, identifier, sequence);
      assert forall i | 0 < i < |waits| :: waits[i] == waits[1..][i - 1];
      if r.None? then None else Some(r.value + 1)
  }

  function CompleteWait(c: Client, k: nat, code: int, payload: Option<Json>): Client
    requires k < |c.waits|
  {
    PushResult(c.(waits := c.waits[..k] + c.waits[k + 1..]), SetResultPayload(SetResultCode(c.waits[k], code), payload))
  }

  /** server_handle_command_result */
  function Return(s: Server, i: nat, m: Request): Outcome
    requires i < |s.clients|
  {
    var p, source := Some(m.payload), s.clients[i].identifier;
    var destination, identifier := StringAt(p, TAG_DESTINATION), StringAt(p, TAG_IDENTIFIER);
    var sequence, code := IntAt(p, TAG_SEQUENCE, -1), IntAt(p, TAG_STATUS, -1);
    if source.None? || destination.None? || identifier.None? || sequence < START || sequence >= END then Outcome(s, -1, m)
    else
      var j := Find(s.clients, destination.value);
      if j.None? then Outcome(s, 0, m)
      else
        var c := s.clients[j.value];
        var k := FindWait(c.waits, source.value, identifier.value, sequence);
        if k.None? then Outcome(s, 0, m)
        else Outcome(WithClient(s, j.value, CompleteWait(c, k.value, code, LookUp(p, TAG_PAYLOAD))), 0, m)
  }

  // ----- draining the queue of methods -----

  function ServerCommand(s: Server, i: nat, m: Request): Outcome
    requires i < |s.clients|
  {
    if m.identifier == "command.create" then Create(s, i, m)
    else if m.identifier == "command.subscribe" then Subscribe(s, i, m)
    else if m.identifier == "command.unsubscribe" then Unsubscribe(s, i, m)
    else if m.identifier == "command.register" then Register(s, i, m)
    else if m.identifier == "command.unregister" then Unregister(s, i, m)
    else if m.identifier == "command.result" then Return(s, i, m)
    else if m.identifier == "command.event" then PublishEvent(s, i, m)
    else if m.identifier in {"command.status", "command.client", "command.clients"} then Query(s, m)
    else if m.identifier == "command.close" then Close(s, m)
    else Outcome(s, -1, m)
  }

  /** One turn of the loop of server_handle_methods, for a method already off the queue. */
  function HandleMethod(s: Server, m: Request): Server {
    var i := Locate(s.clients, m.source);
    if i.None? then s.(crashed := true)
    else if m.kind == TYPE_COMMAND then
      var o := if m.destination == SERVER then ServerCommand(s, i.value, m) else Call(s, i.value, m);
      Filed(o, m)
    else if m.kind == TYPE_EVENT then
      s.(clients := SendEvent(s.clients, s.clients[i.value].identifier, m.destination, m.identifier, Some(m.payload), m.now))
    else s
  }

  /** A command that was answered goes to the results of its source, a call under way to its waits. */
  function Filed(o: Outcome, m: Request): Server {
    var t, i := o.server, Locate(o.server.clients, m.source);
    if t.crashed || i.None? then t.(crashed := true)
    else if m.destination == SERVER || o.rc != 0 then
      WithClient(t, i.value, PushResult(t.clients[i.value], SetResultCode(o.request, o.rc)))
    else WithClient(t, i.value, PushWait(t.clients[i.value], o.request))
  }

  /** server_handle_methods */
  function HandleMethods(s: Server): Server
    decreases |s.methods|
  {
    if s.methods == [] || s.crashed then s
    else
      var t := HandleMethod(s.(methods := s.methods[1..]), s.methods[0]);
      if |t.methods| < |s.methods| then HandleMethods(t) else t
  }

  // ----- the other steps of a turn -----

  /** The ping check of one client at one turn. */
  function PingCheck(c: Client, now: int): Client {
    if !c.open || c.ping.interval <= 0 || !c.ping.enabled then c
    else
      var p := c.ping;
      var q := if now > p.received + p.interval + p.timeout
               then p.(missed := p.missed + 1, received := p.received + p.interval) else p;
      var d := c.(ping := q);
      if q.missed > q.threshold then Closed(d, PingThreshold) else d
  }

  function CheckPings(s: Server, now: int): Server {
    s.(clients := seq(|s.clients|, i requires 0 <= i < |s.clients| => PingCheck(s.clients[i], now)))
  }

  function ResultCompression(c: Client, m: Request): Compression {
    if m.destination == SERVER && m.identifier == "command.create" then Uncompressed else c.compression
  }

  /** At most one message per client and turn: results first, then requests, then events. */
  function EmitOne(c: Client): Client {
    if !c.open then c
    else if c.results != [] then
      var m := c.results[0];
      c.(results := c.results[1..], sent := c.sent + [m],
         out := c.out + [Frame(ResultCompression(c, m), Print(ResultJson(m), 0, false))])
    else if c.requests != [] then
      c.(requests := c.requests[1..], out := c.out + [Frame(c.compression, Print(NoticeJson(c.requests[0]), 0, false))])
    else if c.events != [] then
      c.(events := c.events[1..], delivered := c.delivered + [c.events[0]],
         out := c.out + [Frame(c.compression, Print(NoticeJson(c.events[0]), 0, false))])
    else c
  }

  function Emit(s: Server): Server {
    s.(clients := seq(|s.clients|, i requires 0 <= i < |s.clients| => EmitOne(s.clients[i])))
  }

  /** server_client_connection_establish */
  function Accept(s: Server): Server {
    s.(clients := s.clients + [NewClient(s.nextHandle)], nextHandle := s.nextHandle + 1)
  }

  /** A read or write that failed. */
  function Lose(s: Server, handle: nat): Server {
    var i := Locate(s.clients, handle);
    if i.None? then s else WithClient(s, i.value, Closed(s.clients[i.value], ConnectionClosed))
  }

  /** A decoded message: its text and what is read from outside when it is handled. */
  datatype Arrival = Arrival(text: string, now: int, draw: string)

  /** server_handle_method: a valid method is queued, an invalid one closes the connection. */
  function Receive(s: Server, i: nat, a: Arrival): (Server, bool)
    requires i < |s.clients|
  {
    var c := s.clients[i];
    var m := CreateRequest(c.handle, a.text, a.now, a.draw);
    if m.None? || m.value.kind !in {TYPE_COMMAND, TYPE_EVENT} then (WithClient(s, i, Closed(c, InternalError)), false)
    else
      var d := if m.value.kind == TYPE_COMMAND then c.(log := c.log + [m.value]) else c;
      (WithClient(s, i, d).(methods := s.methods + [m.value]), true)
  }

  /** The decode loop of one client stops at the first invalid method. */
  function ReceiveAll(s: Server, i: nat, arrivals: seq<Arrival>): Server
    requires i < |s.clients|
    decreases |arrivals|
  {
    if arrivals == [] then s
    else
      var (t, ok) := Receive(s, i, arrivals[0]);
      if ok && i < |t.clients| then ReceiveAll(t, i, arrivals[1..]) else t
  }

  /** The announcement of one client: the connected flag, then the event to the subscribers. */
  function Welcome(s: Server, i: nat, now: int): Server
    requires i < |s.clients|
  {
    var c := s.clients[i];
    if !c.open || c.identifier.None? || !c.accepted || c.connected then s
    else
      var t := WithClient(s, i, c.(connected := true));
      t.(clients := Tell(t.clients, "connected", Object([Member("source", String(c.identifier.value))]), now),
         announcements := s.announcements + [Announcement(c.identifier.value, true)])
  }

  function WelcomeFrom(s: Server, i: nat, now: int): Server
    decreases |s.clients| - i
  {
    if i >= |s.clients| then s
    else
      var t := Welcome(s, i, now);
      if |t.clients| == |s.clients| then WelcomeFrom(t, i + 1, now) else t
  }

  function AcceptAll(s: Server): Server {
    s.(clients := seq(|s.clients|, i requires 0 <= i < |s.clients| =>
      if s.clients[i].open then s.clients[i].(accepted := true) else s.clients[i]))
  }

  /** The calls to a client that is gone are answered with -1. */
  function Orphans(waits: seq<Request>, name: string): seq<Request> {
    if waits == [] then []
    else (if waits[0].destination == name then [SetResultCode(waits[0], -1)] else []) + Orphans(waits[1..], name)
  }

  function OtherWaits(waits: seq<Request>, name: string): seq<Request> {
    if waits == [] then []
    else (if waits[0].destination == name then [] else [waits[0]]) + OtherWaits(waits[1..], name)
  }

  function Bereave(c: Client, name: Option<string>): Client {
    if name.None? then c
    else c.(waits := OtherWaits(c.waits, name.value), results := c.results + Orphans(c.waits, name.value))
  }

  function BereaveAll(clients: seq<Client>, name: Option<string>): seq<Client> {
    seq(|clients|, k requires 0 <= k < |clients| => Bereave(clients[k], name))
  }

  function DropCommands(methods: seq<Request>, handle: nat): seq<Request> {
    if methods == [] then []
    else
      (if methods[0].source == handle && methods[0].kind != TYPE_EVENT then [] else [methods[0]])
      + DropCommands(methods[1..], handle)
  }

  function CloseReason(code: CloseCode): string {
    match code
    case Unknown => "unknown"
    case CloseCommand => "close_command"
    case PingThreshold => "ping_threshold"
    case ConnectionClosed => "connection_closed"
    case InternalError => "internal_error"
  }

  /** One closed client is taken off the list, its calls are answered and it is announced. */
  function ReapOne(s: Server, i: nat, now: int): Server
    requires i < |s.clients|
  {
    var c := s.clients[i];
    var rest := s.clients[..i] + s.clients[i + 1..];
    var t := s.(clients := BereaveAll(rest, c.identifier), methods := DropCommands(s.methods, c.handle));
    if !c.connected || c.identifier.None? then t
    else
      var payload := Object([Member("source", String(c.identifier.value)), Member("reason", String(CloseReason(c.closeCode)))]);
      t.(clients := Tell(t.clients, "disconnected", payload, now),
         announcements := s.announcements + [Announcement(c.identifier.value, false)])
  }

  function ReapFrom(s: Server, i: nat, now: int): Server
    decreases |s.clients| - i
  {
    if i >= |s.clients| then s
    else if s.clients[i].open then ReapFrom(s, i + 1, now)
    else
      var t := ReapOne(s, i, now);
      if |t.clients| < |s.clients| then ReapFrom(t, i, now) else t
  }

  // ----- a turn -----

  /** What one turn meets: the clock, connections accepted and lost, the messages decoded for each
      client, and whether a decode error makes the turn return early. */
  datatype Input = Input(now: int, accepts: nat, lost: seq<nat>, batches: seq<Batch>, failed: bool)

  datatype Batch = Batch(handle: nat, arrivals: seq<Arrival>)

  function AcceptMany(s: Server, n: nat): Server
    decreases n
  {
    if n == 0 then s else AcceptMany(Accept(s), n - 1)
  }

  function LoseMany(s: Server, lost: seq<nat>): Server
    decreases |lost|
  {
    if lost == [] then s else LoseMany(Lose(s, lost[0]), lost[1..])
  }

  function DecodeMany(s: Server, batches: seq<Batch>): Server
    decreases |batches|
  {
    if batches == [] then s
    else
      var i := Locate(s.clients, batches[0].handle);
      DecodeMany(if i.None? then s else ReceiveAll(s, i.value, batches[0].arrivals), batches[1..])
  }

  /** The part of mbus_server_run_timeout before poll. */
  function Prepare(s: Server, now: int): Server {
    var t := HandleMethods(s);
    if t.crashed then t else Emit(CheckPings(t, now))
  }

  /** The part behind the decode loops. */
  function Finish(s: Server, now: int): Server {
    var t := HandleMethods(s);
    if t.crashed then t else ReapFrom(WelcomeFrom(AcceptAll(t), 0, now), 0, now)
  }

  /** mbus_server_run_timeout. A broker told to stop skips the first part. */
  function Turn(s: Server, input: Input): Server {
    var a := if s.running then Prepare(s, input.now) else s;
    if a.crashed then a
    else
      var b := if s.running then LoseMany(AcceptMany(a, input.accepts), input.lost) else a;
      var c := DecodeMany(b, input.batches);
      if input.failed then c else Finish(c, input.now)
  }

  function Run(s: Server, inputs: seq<Input>): Server {
    if inputs == [] then s else Turn(Run(s, inputs[..|inputs| - 1]), inputs[|inputs| - 1])
  }
}

/** What the steps of the broker mean for one of its clients: which of them are its own doing, and what
    the others can do to it. */
module BrokerLink {
  import opened Options
  import opened JsonText
  import opened JsonPath
  import opened Methods
  import opened BrokerState
  import opened BrokerCalm
  import opened BrokerEvents
  import opened BrokerInvariant
  import opened BrokerReap
  import opened BrokerCalls

  ghost predicate FromWaits(waits: seq<Request>, r: Request) {
    exists k | 0 <= k < |waits| :: Core(waits[k]) == Core(r)
  }

  /** New results answer waits, and no wait is new. */
  ghost predicate Drains(c: Client, d: Client) {
    && |d.results| >= |c.results| && d.results[..|c.results|] == c.results
    && (forall k | |c.results| <= k < |d.results| :: FromWaits(c.waits, d.results[k]))
    && (forall k | 0 <= k < |d.waits| :: FromWaits(c.waits, d.waits[k]))
  }

  /** A client without a name and without subscriptions is sent nothing. */
  ghost predicate Aloof(c: Client) {
    c.identifier.None? && c.subscriptions == []
  }

  /** What a step leaves alone in a client; a step of somebody else leaves more. */
  ghost predicate Still(c: Client, d: Client, own: bool) {
    && d.handle == c.handle && d.identifier == c.identifier && d.compression == c.compression
    && d.out == c.out && d.sent == c.sent && Drains(c, d)
    && (own || (d.subscriptions == c.subscriptions && (Aloof(c) ==> d.events == c.events && d.requests == c.requests)))
  }

  lemma SelfStill(c: Client)
    ensures Still(c, c, false) && Still(c, c, true)
  {
    forall k | 0 <= k < |c.waits| ensures FromWaits(c.waits, c.waits[k]) {}
  }

  /** Queues of calls as they were. */
  lemma SameCallsStill(c: Client, d: Client, own: bool)
    requires d.handle == c.handle && d.identifier == c.identifier && d.compression == c.compression
    requires d.out == c.out && d.sent == c.sent && d.results == c.results && d.waits == c.waits
    requires own || (d.subscriptions == c.subscriptions && (Aloof(c) ==> d.events == c.events && d.requests == c.requests))
    ensures Still(c, d, own)
  {
    forall k | 0 <= k < |c.waits| ensures FromWaits(c.waits, c.waits[k]) {}
  }

  lemma DrainsTwice(c: Client, d: Client, e: Client)
    requires Drains(c, d) && Drains(d, e)
    ensures Drains(c, e)
  {
    assert e.results[..|c.results|] == d.results[..|c.results|];
    forall k | |c.results| <= k < |e.results| ensures FromWaits(c.waits, e.results[k]) {
      if k < |d.results| {
        assert e.results[k] == d.results[k];
      } else {
        WaitsThrough(c.waits, d.waits, e.results[k]);
      }
    }
    forall k | 0 <= k < |e.waits| ensures FromWaits(c.waits, e.waits[k]) {
      WaitsThrough(c.waits, d.waits, e.waits[k]);
    }
  }

  lemma WaitsThrough(a: seq<Request>, b: seq<Request>, r: Request)
    requires FromWaits(b, r) && forall k | 0 <= k < |b| :: FromWaits(a, b[k])
    ensures FromWaits(a, r)
  {
    var k :| 0 <= k < |b| && Core(b[k]) == Core(r);
    assert FromWaits(a, b[k]);
  }

  lemma StillTwice(c: Client, d: Client, e: Client, own: bool)
    requires Still(c, d, own) && Still(d, e, false)
    ensures Still(c, e, own)
  {
    hide Drains;
    DrainsTwice(c, d, e);
  }

  /** All clients after a step of the i-th. */
  ghost predicate AllStill(cs: seq<Client>, ds: seq<Client>, i: nat) {
    |ds| == |cs| && forall k | 0 <= k < |cs| :: Still(cs[k], ds[k], k == i)
  }

  lemma NobodyMoves(cs: seq<Client>, i: nat)
    ensures AllStill(cs, cs, i)
  {
    hide Still;
    forall c ensures Still(c, c, false) && Still(c, c, true) { SelfStill(c); }
  }

  lemma OneMoves(cs: seq<Client>, j: nat, d: Client, i: nat)
    requires j < |cs| && Still(cs[j], d, j == i)
    ensures AllStill(cs, cs[j := d], i)
  {
    hide Still;
    forall c ensures Still(c, c, false) && Still(c, c, true) { SelfStill(c); }
  }

  // ----- events -----

  lemma EventsStill(c: Client, d: Client)
    requires d == c.(events := d.events, esequence := d.esequence, ping := d.ping)
    requires Aloof(c) ==> d.events == c.events
    ensures Still(c, d, false)
  {
    SameCallsStill(c, d, false);
  }

  lemma SendEventAloof(cs: seq<Client>, source: Option<string>, destination: string, identifier: string,
                       payload: Option<Json>, now: int)
    ensures var ds := SendEvent(cs, source, destination, identifier, payload, now);
      |ds| == |cs| && forall k | 0 <= k < |cs| && Aloof(cs[k]) :: ds[k].events == cs[k].events
    decreases identifier == PING
  {
    hide Mbus, Find;
    if source.Some? && destination == SERVER && identifier == PING {
      NamesDiffer();
      var ds := PingReceived(cs, source.value, now);
      forall k | 0 <= k < |cs| ensures ds[k].identifier == cs[k].identifier && ds[k].subscriptions == cs[k].subscriptions
                                       && ds[k].events == cs[k].events {}
      SendEventAloof(ds, Some(SERVER), source.value, PONG, None, now);
      PingUnfolds(cs, source.value, payload, now);
      hide SendEvent;
    }
  }

  lemma SendEventStill(cs: seq<Client>, source: Option<string>, destination: string, identifier: string,
                       payload: Option<Json>, now: int)
    ensures var ds := SendEvent(cs, source, destination, identifier, payload, now);
      |ds| == |cs| && forall k | 0 <= k < |cs| :: Still(cs[k], ds[k], false)
  {
    hide SendEvent, Still, Mbus, Aloof;
    SendEventOnly(cs, source, destination, identifier, payload, now);
    SendEventAloof(cs, source, destination, identifier, payload, now);
    var ds := SendEvent(cs, source, destination, identifier, payload, now);
    forall k | 0 <= k < |cs| ensures Still(cs[k], ds[k], false) {
      EventsStill(cs[k], ds[k]);
    }
  }

  lemma ThenEvents(cs: seq<Client>, ds: seq<Client>, es: seq<Client>, i: nat)
    requires AllStill(cs, ds, i) && |es| == |ds| && forall k | 0 <= k < |ds| :: Still(ds[k], es[k], false)
    ensures AllStill(cs, es, i)
  {
    hide Still;
    forall k | 0 <= k < |cs| ensures Still(cs[k], es[k], k == i) { StillTwice(cs[k], ds[k], es[k], k == i); }
  }

  // ----- handlers -----

  lemma AnnouncedStill(s: Server, i: nat, c: Client, event: string, payload: string -> Json, m: Request)
    requires i < |s.clients| && Still(s.clients[i], c, true)
    ensures AllStill(s.clients, Announced(s, i, c, event, payload, m).server.clients, i)
  {
    hide Still, SendEvent, Mbus, AllStill;
    OneMoves(s.clients, i, c, i);
    var cs := s.clients[i := c];
    if c.identifier.Some? {
      SendEventStill(cs, Some(SERVER), SUBSCRIBERS, Mbus("server.event." + event), Some(payload(c.identifier.value)), m.now);
      ThenEvents(s.clients, cs, Announced(s, i, c, event, payload, m).server.clients, i);
    }
  }

  lemma ChangesStill(s: Server, i: nat, m: Request)
    requires i < |s.clients|
    ensures AllStill(s.clients, Subscribe(s, i, m).server.clients, i)
    ensures AllStill(s.clients, Unsubscribe(s, i, m).server.clients, i)
  {
    hide Announced, StringAt, AllStill, Still;
    NobodyMoves(s.clients, i);
    var c, source, event := s.clients[i], StringAt(Some(m.payload), "source"), StringAt(Some(m.payload), "event");
    if source.Some? && event.Some? {
      var sub := Subscription(source.value, event.value);
      SameCallsStill(c, AddSubscription(c, sub), true);
      SameCallsStill(c, c.(subscriptions := Without(c.subscriptions, sub)), true);
      AnnouncedStill(s, i, AddSubscription(c, sub), "subscribed", name => SubscriptionPayload(name, sub), m);
      AnnouncedStill(s, i, c.(subscriptions := Without(c.subscriptions, sub)), "unsubscribed",
                     name => SubscriptionPayload(name, sub), m);
    }
  }

  lemma CommandsStill(s: Server, i: nat, m: Request)
    requires i < |s.clients|
    ensures AllStill(s.clients, Register(s, i, m).server.clients, i)
    ensures AllStill(s.clients, Unregister(s, i, m).server.clients, i)
  {
    hide Announced, StringAt, AllStill, Still;
    NobodyMoves(s.clients, i);
    var c, command := s.clients[i], StringAt(Some(m.payload), "command");
    if command.Some? {
      SameCallsStill(c, AddCommand(c, command.value), true);
      SameCallsStill(c, c.(commands := Without(c.commands, command.value)), true);
      AnnouncedStill(s, i, AddCommand(c, command.value), "registered", name => CommandPayload(name, command.value), m);
      AnnouncedStill(s, i, c.(commands := Without(c.commands, command.value)), "unregistered",
                     name => CommandPayload(name, command.value), m);
    }
  }

  lemma QueriesStill(s: Server, i: nat, m: Request)
    requires i < |s.clients|
    ensures AllStill(s.clients, Query(s, m).server.clients, i)
    ensures AllStill(s.clients, Close(s, m).server.clients, i)
  {
    hide StringAt, Find, SetResultPayload, Listed, Names, Mbus, AllStill, Still;
    NobodyMoves(s.clients, i);
    forall j | 0 <= j < |s.clients| ensures AllStill(s.clients, s.clients[j := Closed(s.clients[j], CloseCommand)], i) {
      SameCallsStill(s.clients[j], Closed(s.clients[j], CloseCommand), j == i);
      OneMoves(s.clients, j, Closed(s.clients[j], CloseCommand), i);
    }
  }

  lemma PublishStill(s: Server, i: nat, m: Request)
    requires i < |s.clients|
    ensures AllStill(s.clients, PublishEvent(s, i, m).server.clients, i)
  {
    hide StringAt, LookUp, SendEvent, Mbus, Still, AllStill;
    NobodyMoves(s.clients, i);
    var p := Some(m.payload);
    var destination, identifier, payload := StringAt(p, TAG_DESTINATION), StringAt(p, TAG_IDENTIFIER), LookUp(p, TAG_PAYLOAD);
    if destination.Some? && identifier.Some? {
      SendEventStill(s.clients, s.clients[i].identifier, destination.value, identifier.value, payload, m.now);
      ThenEvents(s.clients, s.clients, SendEvent(s.clients, s.clients[i].identifier, destination.value, identifier.value, payload, m.now), i);
    }
  }

  lemma CallStill(s: Server, i: nat, m: Request)
    requires i < |s.clients|
    ensures AllStill(s.clients, Call(s, i, m).server.clients, i)
  {
    hide Find, CreateResponse, AllStill, Still;
    NobodyMoves(s.clients, i);
    var j := Find(s.clients, m.destination);
    if Call(s, i, m).rc == 0 {
      var n := CreateResponse(TYPE_COMMAND, s.clients[i].identifier, m.identifier, m.sequence, Some(m.payload));
      var d := PushRequest(s.clients[j.value], n.value);
      SameCallsStill(s.clients[j.value], d, j.value == i);
      OneMoves(s.clients, j.value, d, i);
    }
  }

  lemma CompletedStill(c: Client, k: nat, code: int, payload: Option<Json>, own: bool)
    requires k < |c.waits|
    ensures Still(c, CompleteWait(c, k, code, payload), own)
  {
    hide SetResultPayload, SetResultCode;
    var d := CompleteWait(c, k, code, payload);
    CompletedCoreOnly(c.waits[k], code, payload);
    forall n | |c.results| <= n < |d.results| ensures FromWaits(c.waits, d.results[n]) {
      assert Core(c.waits[k]) == Core(d.results[n]);
    }
    forall n | 0 <= n < |d.waits| ensures FromWaits(c.waits, d.waits[n]) {
      assert d.waits[n] == c.waits[if n < k then n else n + 1];
    }
  }

  lemma CompletedCoreOnly(w: Request, code: int, payload: Option<Json>)
    ensures Core(SetResultPayload(SetResultCode(w, code), payload)) == Core(w)
  {
  }

  lemma ReturnStill(s: Server, i: nat, m: Request)
    requires i < |s.clients|
    ensures AllStill(s.clients, Return(s, i, m).server.clients, i)
  {
    hide Return, AllStill, Still, CompleteWait;
    NobodyMoves(s.clients, i);
    var hit, j, k, code, payload := ReturnShape(s, i, m);
    if hit {
      CompletedStill(s.clients[j], k, code, payload, j == i);
      OneMoves(s.clients, j, CompleteWait(s.clients[j], k, code, payload), i);
    }
  }

  /** Every handler but that of create. */
  lemma HandlersStill(s: Server, i: nat, m: Request)
    requires i < |s.clients| && m.identifier != "command.create"
    ensures AllStill(s.clients, ServerCommand(s, i, m).server.clients, i)
  {
    hide Create, Subscribe, Unsubscribe, Register, Unregister, Return, PublishEvent, Query, Close, AllStill;
    ChangesStill(s, i, m);
    CommandsStill(s, i, m);
    QueriesStill(s, i, m);
    PublishStill(s, i, m);
    ReturnStill(s, i, m);
    NobodyMoves(s.clients, i);
  }

  // ----- one method -----

  /** A client after a method of its own that is no create request. */
  ghost predicate Served(c: Client, d: Client, m: Request) {
    && d.handle == c.handle && d.identifier == c.identifier && d.compression == c.compression
    && d.out == c.out && d.sent == c.sent
    && |d.results| >= |c.results| && d.results[..|c.results|] == c.results
    && (forall k | |c.results| <= k < |d.results| :: FromWaits(c.waits + [m], d.results[k]))
    && (forall k | 0 <= k < |d.waits| :: FromWaits(c.waits + [m], d.waits[k]))
  }

  lemma ServedStill(c: Client, d: Client, m: Request)
    requires Still(c, d, true)
    ensures Served(c, d, m)
  {
    forall k | |c.results| <= k < |d.results| ensures FromWaits(c.waits + [m], d.results[k]) { MoreWaits(c.waits, m, d.results[k]); }
    forall k | 0 <= k < |d.waits| ensures FromWaits(c.waits + [m], d.waits[k]) { MoreWaits(c.waits, m, d.waits[k]); }
  }

  lemma MoreWaits(waits: seq<Request>, m: Request, r: Request)
    requires FromWaits(waits, r) || Core(r) == Core(m)
    ensures FromWaits(waits + [m], r)
  {
    if FromWaits(waits, r) {
      var k :| 0 <= k < |waits| && Core(waits[k]) == Core(r);
      assert (waits + [m])[k] == waits[k];
    } else {
      assert (waits + [m])[|waits|] == m;
    }
  }

  lemma ServedResult(c: Client, d: Client, m: Request, r: Request)
    requires Still(c, d, true) && Core(r) == Core(m)
    ensures Served(c, PushResult(d, r), m) && Served(c, PushWait(d, r), m)
  {
    ServedStill(c, d, m);
    MoreWaits(c.waits, m, r);
    var e, f := PushResult(d, r), PushWait(d, r);
    assert e.results[..|c.results|] == d.results[..|c.results|];
    forall k | |c.results| <= k < |e.results| ensures FromWaits(c.waits + [m], e.results[k]) {
      assert k < |d.results| ==> e.results[k] == d.results[k];
    }
    forall k | 0 <= k < |f.waits| ensures FromWaits(c.waits + [m], f.waits[k]) {
      assert k < |d.waits| ==> f.waits[k] == d.waits[k];
    }
  }

  predicate IsCreate(m: Request) {
    m.destination == SERVER && m.identifier == "command.create"
  }

  /** One method off the queue, for everybody: its sender is served, the others are left in peace. */
  ghost predicate Stepped(cs: seq<Client>, ds: seq<Client>, i: nat, m: Request) {
    |ds| == |cs| && i < |cs| && Served(cs[i], ds[i], m) && forall k | 0 <= k < |cs| && k != i :: Still(cs[k], ds[k], false)
  }

  lemma FiledStepped(cs: seq<Client>, o: Outcome, m: Request, i: nat)
    requires AllStill(cs, o.server.clients, i) && i < |cs| && Core(o.request) == Core(m)
    requires Locate(o.server.clients, m.source) == Some(i) && !o.server.crashed
    ensures Stepped(cs, Filed(o, m).clients, i, m)
  {
    hide Still, Served, SetResultCode, Mbus, Locate;
    CodedCore(o.request, o.rc);
    ServedResult(cs[i], o.server.clients[i], m, SetResultCode(o.request, o.rc));
    ServedResult(cs[i], o.server.clients[i], m, o.request);
  }

  lemma HandlesStill(cs: seq<Client>, ds: seq<Client>, i: nat, handle: nat)
    requires AllStill(cs, ds, i)
    ensures Locate(ds, handle) == Locate(cs, handle)
  {
    hide Drains, Locate;
    forall k | 0 <= k < |cs| ensures ds[k].handle == cs[k].handle { assert Still(cs[k], ds[k], k == i); }
    LocateSame(cs, ds, handle);
  }

  /** The request a handler leaves is the one it was given, but for the result. */
  lemma SameCore(s: Server, i: nat, m: Request)
    requires i < |s.clients| && !s.crashed && m.identifier != "command.create"
    ensures !ServerCommand(s, i, m).server.crashed ==> Core(ServerCommand(s, i, m).request) == Core(m)
    ensures Core(Call(s, i, m).request) == Core(m)
  {
    hide ServerCommand, Call, CalmAll, DistinctNames, Answers, Return;
    CallGentle(s, i, m);
    if m.identifier == "command.result" {
      ResultDispatch(s, i, m);
      var hit, j, k, code, payload := ReturnShape(s, i, m);
    } else {
      HandlersGentle(s, i, m);
    }
  }

  /** A command that is no create request. */
  lemma CommandStepped(s: Server, m: Request, i: nat)
    requires !s.crashed && Locate(s.clients, m.source) == Some(i) && i < |s.clients|
    requires m.kind == TYPE_COMMAND && !IsCreate(m) && !HandleMethod(s, m).crashed
    ensures Stepped(s.clients, HandleMethod(s, m).clients, i, m)
  {
    hide ServerCommand, Call, SendEvent, Filed, Locate, Mbus, Stepped, AllStill, Still;
    var o := if m.destination == SERVER then ServerCommand(s, i, m) else Call(s, i, m);
    if o.server.crashed {
      CrashFiled(o, m);
    }
    if m.destination == SERVER {
      HandlersStill(s, i, m);
      SameCore(s, i, m);
    } else {
      CallStill(s, i, m);
      CallCore(s, i, m);
    }
    HandlesStill(s.clients, o.server.clients, i, m.source);
    FiledStepped(s.clients, o, m, i);
  }

  lemma CallCore(s: Server, i: nat, m: Request)
    requires i < |s.clients|
    ensures Call(s, i, m).request == m
  {
  }

  lemma EventStepped(s: Server, m: Request, i: nat)
    requires Locate(s.clients, m.source) == Some(i) && i < |s.clients| && m.kind != TYPE_COMMAND
    ensures AllStill(s.clients, HandleMethod(s, m).clients, i)
  {
    hide SendEvent, Locate, Mbus, AllStill, Still;
    NobodyMoves(s.clients, i);
    if m.kind == TYPE_EVENT {
      var ds := SendEvent(s.clients, s.clients[i].identifier, m.destination, m.identifier, Some(m.payload), m.now);
      SendEventStill(s.clients, s.clients[i].identifier, m.destination, m.identifier, Some(m.payload), m.now);
      ThenEvents(s.clients, s.clients, ds, i);
    }
  }

  /** A create request, of a client that has no name yet: the client is admitted with the compression
      negotiated for it, or refused and left uncompressed as it was; the one result says so. */
  ghost predicate Created(c: Client, d: Client, m: Request, zlib: bool) {
    exists name: string, ping: Ping, admitted: bool :: CreatedAs(c, d, m, zlib, name, ping, admitted)
  }

  /** Name and ping settings come from the request, or were drawn or set to zero. */
  ghost predicate Asked(m: Request, name: string, ping: Ping) {
    var payload := Some(m.payload);
    && (name == m.draw || Some(name) == StringAt(payload, "identifier"))
    && ping.interval in {0, IntAt(LookUp(payload, "ping"), "interval", -1)}
    && ping.timeout in {0, IntAt(LookUp(payload, "ping"), "timeout", -1), IntAt(LookUp(payload, "ping"), "interval", -1)}
    && ping.threshold in {0, IntAt(LookUp(payload, "ping"), "threshold", -1)}
  }

  ghost predicate CreatedAs(c: Client, d: Client, m: Request, zlib: bool, name: string, ping: Ping, admitted: bool) {
    var payload := Some(m.payload);
    var codec := Negotiate(zlib, LookUp(payload, "compressions"));
    && Asked(m, name, ping)
    && if admitted then
         d == c.(identifier := Some(name), ping := ping, compression := codec,
                 results := c.results + [SetResultCode(SetResultPayload(m, Some(CreatePayload(name, codec, ping))), 0)])
       else d == c.(identifier := d.identifier, results := c.results + [SetResultCode(m, -1)])
  }

  lemma SettingsOrigin(before: Ping, request: Option<Json>, now: int)
    ensures
      var p := PingSettings(before, request, now);
      && p.interval in {0, IntAt(request, "interval", -1)}
      && p.timeout in {0, IntAt(request, "timeout", -1), IntAt(request, "interval", -1)}
      && p.threshold in {0, IntAt(request, "threshold", -1)}
  {
    hide IntAt;
  }

  lemma CreateOutcome(s: Server, i: nat, m: Request)
    requires i < |s.clients|
    ensures
      var o, c, payload := Create(s, i, m), s.clients[i], Some(m.payload);
      var asked := StringAt(payload, "identifier");
      var name := if asked.None? || asked.value == "" then m.draw else asked.value;
      var ping, codec := PingSettings(c.ping, LookUp(payload, "ping"), m.now), Negotiate(s.zlib, LookUp(payload, "compressions"));
      || o == Outcome(WithClient(s, i, c.(identifier := o.server.clients[i].identifier)), -1, m)
      || o == Outcome(WithClient(s, i, c.(identifier := Some(name), ping := ping, compression := codec)), 0,
                      SetResultPayload(m, Some(CreatePayload(name, codec, ping))))
  {
    hide StringAt, LookUp, Find, SetResultPayload, CreatePayload, PingSettings, Negotiate;
    var c := s.clients[i];
    assert s.clients[i := c.(identifier := c.identifier)] == s.clients;
  }

  lemma CreateStepped(s: Server, m: Request, i: nat)
    requires !s.crashed && Locate(s.clients, m.source) == Some(i) && i < |s.clients| && m.kind == TYPE_COMMAND && IsCreate(m)
    ensures
      var ds := HandleMethod(s, m).clients;
      && |ds| == |s.clients| && Created(s.clients[i], ds[i], m, s.zlib)
      && forall k | 0 <= k < |ds| && k != i :: ds[k] == s.clients[k]
  {
    hide Create, StringAt, LookUp, IntAt, SetResultPayload, SetResultCode, CreatePayload, PingSettings, Negotiate, Mbus, Filed, Locate,
         CreatedAs;
    var o, c := Create(s, i, m), s.clients[i];
    CreateOutcome(s, i, m);
    SettingsOrigin(c.ping, LookUp(Some(m.payload), "ping"), m.now);
    LocateSame(s.clients, o.server.clients, m.source);
    FiledServer(o, m, i);
    assert HandleMethod(s, m) == Filed(o, m) by { CreateDispatch(s, i, m); }
    CreateShape(s, m, i, o);
  }

  lemma CreateDispatch(s: Server, i: nat, m: Request)
    requires Locate(s.clients, m.source) == Some(i) && i < |s.clients| && m.kind == TYPE_COMMAND && IsCreate(m)
    ensures HandleMethod(s, m) == Filed(Create(s, i, m), m)
  {
    hide Create, Filed, Locate, Mbus;
  }

  lemma CreateShape(s: Server, m: Request, i: nat, o: Outcome)
    requires i < |s.clients| && o == Create(s, i, m)
    ensures
      var d := PushResult(o.server.clients[i], SetResultCode(o.request, o.rc));
      |o.server.clients| == |s.clients| && Created(s.clients[i], d, m, s.zlib)
      && forall k | 0 <= k < |s.clients| && k != i :: o.server.clients[k] == s.clients[k]
  {
    hide Create, StringAt, LookUp, IntAt, SetResultPayload, SetResultCode, CreatePayload, PingSettings, Negotiate, Created, Asked;
    CreateOutcome(s, i, m);
    var c, payload := s.clients[i], Some(m.payload);
    var asked := StringAt(payload, "identifier");
    var name := if asked.None? || asked.value == "" then m.draw else asked.value;
    var ping := PingSettings(c.ping, LookUp(payload, "ping"), m.now);
    assert Asked(m, name, ping) by { SettingsAsked(m, name, c.ping); }
    var d := PushResult(o.server.clients[i], SetResultCode(o.request, o.rc));
    CreatedIf(c, d, m, s.zlib, name, ping);
  }

  lemma SettingsAsked(m: Request, name: string, before: Ping)
    requires name == m.draw || Some(name) == StringAt(Some(m.payload), "identifier")
    ensures Asked(m, name, PingSettings(before, LookUp(Some(m.payload), "ping"), m.now))
  {
    hide StringAt, LookUp, IntAt, PingSettings;
    SettingsOrigin(before, LookUp(Some(m.payload), "ping"), m.now);
  }

  lemma CreatedIf(c: Client, d: Client, m: Request, zlib: bool, name: string, ping: Ping)
    requires Asked(m, name, ping)
    requires
      var codec := Negotiate(zlib, LookUp(Some(m.payload), "compressions"));
      || d == c.(identifier := d.identifier, results := c.results + [SetResultCode(m, -1)])
      || d == c.(identifier := Some(name), ping := ping, compression := codec,
                 results := c.results + [SetResultCode(SetResultPayload(m, Some(CreatePayload(name, codec, ping))), 0)])
    ensures Created(c, d, m, zlib)
  {
    hide LookUp, SetResultPayload, SetResultCode, CreatePayload, Negotiate, Asked;
    assert CreatedAs(c, d, m, zlib, name, ping, false) || CreatedAs(c, d, m, zlib, name, ping, true);
  }

  /** Whatever method is handled, its sender is served and nobody else is disturbed. */
  lemma OthersLeft(s: Server, m: Request, i: nat, k: nat)
    requires !s.crashed && Locate(s.clients, m.source) == Some(i) && i < |s.clients| && k < |s.clients| && k != i
    requires !HandleMethod(s, m).crashed
    ensures |HandleMethod(s, m).clients| == |s.clients| && Still(s.clients[k], HandleMethod(s, m).clients[k], false)
  {
    hide HandleMethod, Still, Served, Mbus, Locate, Created;
    if m.kind != TYPE_COMMAND {
      EventStepped(s, m, i);
    } else if IsCreate(m) {
      CreateStepped(s, m, i);
      SelfStill(s.clients[k]);
    } else {
      CommandStepped(s, m, i);
    }
  }
}

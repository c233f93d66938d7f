/** What each command to the broker comes to: the state and the answer it leaves, and who hears of it. */
module BrokerCommands {
  import opened Options
  import opened Compress
  import opened JsonText
  import opened JsonPath
  import opened Methods
  import opened BrokerState
  import opened BrokerCalm
  import opened BrokerEvents
  import opened BrokerInvariant
  import opened BrokerCalls

  /** The i-th client sends the broker this command. */
  ghost predicate Asks(s: Server, m: Request, i: nat, command: string) {
    && !s.crashed && i < |s.clients| && Locate(s.clients, m.source) == Some(i)
    && m.kind == TYPE_COMMAND && m.destination == SERVER && m.identifier == command
    && m.result == InitialResult(m.sequence)
  }

  function WithResult(c: Client, r: Request): Client {
    c.(results := c.results + [r])
  }

  /** The i-th client is c now and has the answer -1; nothing else happens. */
  ghost predicate Denied(s: Server, t: Server, i: nat, c: Client, m: Request)
    requires i < |s.clients|
  {
    t == s.(clients := s.clients[i := WithResult(c, Replied(m, -1, Object([])))])
  }

  // ----- who hears of a change -----

  /** One of the subscriptions is for this event of the broker. */
  ghost predicate Hears(c: Client, event: string) {
    exists k | 0 <= k < |c.subscriptions| ::
      && (c.subscriptions[k].source == SERVER || c.subscriptions[k].source == ANY_SOURCE)
      && (c.subscriptions[k].event == Mbus("server.event." + event) || c.subscriptions[k].event == ANY_EVENT)
  }

  /** The client with the event, if it hears it. */
  ghost function Notified(c: Client, event: string, payload: Json): Client {
    if Hears(c, event) then WithEvent(c, Notice(TYPE_EVENT, SERVER, Mbus("server.event." + event), c.esequence, payload)) else c
  }

  ghost predicate AllNotified(cs: seq<Client>, ds: seq<Client>, event: string, payload: Json) {
    |ds| == |cs| && forall k | 0 <= k < |cs| :: ds[k] == Notified(cs[k], event, payload)
  }

  lemma TellNotifies(cs: seq<Client>, event: string, payload: Json, now: int)
    ensures AllNotified(cs, Tell(cs, event, payload, now), event, payload)
  {
    hide Mbus;
    NamesDiffer();
    var ds, name := Tell(cs, event, payload, now), Mbus("server.event." + event);
    assert ds == ToSubscribers(cs, SERVER, name, payload);
    forall k | 0 <= k < |cs| ensures ds[k] == Notified(cs[k], event, payload) {
      assert Subscribed(cs[k], SERVER, name) <==> Hears(cs[k], event);
    }
  }

  /** The i-th client is c now. If it has a name, all who subscribed to that hear of it, each once, and the
      answer is 0; if it has none, the answer is -1. */
  ghost predicate Changed(s: Server, t: Server, i: nat, c: Client, event: string, details: seq<Member>, m: Request)
    requires i < |s.clients|
  {
    if c.identifier.None? then Denied(s, t, i, c, m)
    else
      var payload := Object([Member("source", String(c.identifier.value))] + details);
      && t == s.(clients := t.clients) && |t.clients| == |s.clients|
      && forall k | 0 <= k < |s.clients| ::
           t.clients[k] == if k == i then WithResult(Notified(c, event, payload), Replied(m, 0, Object([])))
                           else Notified(s.clients[k], event, payload)
  }

  lemma AnnouncedChanges(s: Server, i: nat, c: Client, event: string, details: seq<Member>, payload: string -> Json, m: Request)
    requires Asks(s, m, i, m.identifier) && c.handle == s.clients[i].handle
    requires forall name :: payload(name) == Object([Member("source", String(name))] + details)
    ensures Changed(s, Filed(Announced(s, i, c, event, payload, m), m), i, c, event, details, m)
  {
    hide Mbus, Tell, Locate, SetResultCode, Notified, InitialResult;
    var o, cs := Announced(s, i, c, event, payload, m), s.clients[i := c];
    RepliedIs(m, o.rc, Object([]));
    if c.identifier.Some? {
      TellNotifies(cs, event, payload(c.identifier.value), m.now);
      NotifiedHandles(cs, o.server.clients, event, payload(c.identifier.value));
    }
    LocateSame(s.clients, o.server.clients, m.source);
    FiledServer(o, m, i);
  }

  lemma NotifiedHandles(cs: seq<Client>, ds: seq<Client>, event: string, payload: Json)
    requires AllNotified(cs, ds, event, payload)
    ensures |ds| == |cs| && forall k | 0 <= k < |cs| :: ds[k].handle == cs[k].handle
  {
    hide Hears, Mbus;
  }

  /** The place of the first x. */
  ghost predicate FirstAt<T>(xs: seq<T>, x: T, n: nat) {
    n < |xs| && xs[n] == x && forall k | 0 <= k < n :: xs[k] != x
  }

  lemma {:induction false} WithoutFirst<T>(xs: seq<T>, x: T, n: nat)
    requires FirstAt(xs, x, n)
    ensures Without(xs, x) == xs[..n] + xs[n + 1..]
  {
    if n > 0 {
      assert forall k | 0 <= k < n - 1 :: xs[1..][k] == xs[k + 1];
      WithoutFirst(xs[1..], x, n - 1);
      assert xs[..n] + xs[n + 1..] == [xs[0]] + (xs[1..][..n - 1] + xs[1..][n..]);
    }
  }

  lemma FirstInside<T>(xs: seq<T>, x: T, n: nat)
    requires FirstAt(xs, x, n)
    ensures n < |xs|
  {
  }

  lemma FirstExists<T>(xs: seq<T>, x: T) returns (n: nat)
    requires x in xs
    ensures FirstAt(xs, x, n)
  {
    n := 0;
    while xs[n] != x
      invariant n < |xs| && forall k | 0 <= k < n :: xs[k] != x
      decreases |xs| - n
    {
      assert exists k | n < k < |xs| :: xs[k] == x;
      n := n + 1;
    }
  }

  // ----- subscriptions and commands -----

  lemma Dispatch(s: Server, m: Request, i: nat)
    requires Asks(s, m, i, m.identifier)
    ensures HandleMethod(s, m) == Filed(ServerCommand(s, i, m), m)
  {
    hide ServerCommand, Filed, Locate, Mbus, InitialResult;
  }

  lemma RefusalDenies(s: Server, i: nat, c: Client, m: Request)
    requires Asks(s, m, i, m.identifier) && c.handle == s.clients[i].handle
    ensures Denied(s, Filed(Outcome(s.(clients := s.clients[i := c]), -1, m), m), i, c, m)
    ensures Denied(s, Filed(Outcome(s, -1, m), m), i, s.clients[i], m)
  {
    hide Mbus, Locate, SetResultCode, InitialResult;
    RepliedIs(m, -1, Object([]));
    LocateSame(s.clients, s.clients[i := c], m.source);
    FiledServer(Outcome(s.(clients := s.clients[i := c]), -1, m), m, i);
    FiledServer(Outcome(s, -1, m), m, i);
  }

  /** A subscription is added unless it is there. */
  lemma SubscribeHandled(s: Server, m: Request, i: nat)
    requires Asks(s, m, i, "command.subscribe")
    ensures
      var source, event := StringAt(Some(m.payload), "source"), StringAt(Some(m.payload), "event");
      var c, t := s.clients[i], HandleMethod(s, m);
      if source.None? || event.None? then Denied(s, t, i, c, m)
      else
        var x := Subscription(source.value, event.value);
        Changed(s, t, i, c.(subscriptions := if x in c.subscriptions then c.subscriptions else c.subscriptions + [x]), "subscribed",
                [Member("destination", String(x.source)), Member("identifier", String(x.event))], m)
  {
    hide StringAt, Announced, Filed, Changed, Denied, Asks;
    var source, event := StringAt(Some(m.payload), "source"), StringAt(Some(m.payload), "event");
    AsksIs(s, m, i, "command.subscribe");
    Dispatch(s, m, i);
    if source.None? || event.None? {
      RefusalDenies(s, i, s.clients[i], m);
    } else {
      var x := Subscription(source.value, event.value);
      AnnouncedChanges(s, i, AddSubscription(s.clients[i], x), "subscribed",
                       [Member("destination", String(x.source)), Member("identifier", String(x.event))],
                       name => SubscriptionPayload(name, x), m);
    }
  }

  lemma AsksIs(s: Server, m: Request, i: nat, command: string)
    requires Asks(s, m, i, command)
    ensures Asks(s, m, i, m.identifier) && m.identifier == command && i < |s.clients|
  {
  }

  /** The first such subscription goes; asking for one that is not there is refused. */
  lemma UnsubscribeHandled(s: Server, m: Request, i: nat)
    requires Asks(s, m, i, "command.unsubscribe")
    ensures
      var source, event := StringAt(Some(m.payload), "source"), StringAt(Some(m.payload), "event");
      var c, t := s.clients[i], HandleMethod(s, m);
      if source.None? || event.None? || Subscription(source.value, event.value) !in c.subscriptions then Denied(s, t, i, c, m)
      else
        var x := Subscription(source.value, event.value);
        exists n: nat :: FirstAt(c.subscriptions, x, n) &&
          Changed(s, t, i, c.(subscriptions := c.subscriptions[..n] + c.subscriptions[n + 1..]), "unsubscribed",
                  [Member("destination", String(x.source)), Member("identifier", String(x.event))], m)
  {
    hide StringAt, Announced, Filed, Changed, Denied, Asks, FirstAt;
    var source, event := StringAt(Some(m.payload), "source"), StringAt(Some(m.payload), "event");
    AsksIs(s, m, i, "command.unsubscribe");
    Dispatch(s, m, i);
    if source.None? || event.None? || Subscription(source.value, event.value) !in s.clients[i].subscriptions {
      RefusalDenies(s, i, s.clients[i], m);
    } else {
      var x, c := Subscription(source.value, event.value), s.clients[i];
      AnnouncedChanges(s, i, c.(subscriptions := Without(c.subscriptions, x)), "unsubscribed",
                       [Member("destination", String(x.source)), Member("identifier", String(x.event))],
                       name => SubscriptionPayload(name, x), m);
      var n := FirstExists(c.subscriptions, x);
      WithoutFirst(c.subscriptions, x, n);
      FirstInside(c.subscriptions, x, n);
    }
  }

  /** A command is added unless it is there. */
  lemma RegisterHandled(s: Server, m: Request, i: nat)
    requires Asks(s, m, i, "command.register")
    ensures
      var command, c, t := StringAt(Some(m.payload), "command"), s.clients[i], HandleMethod(s, m);
      if command.None? then Denied(s, t, i, c, m)
      else
        Changed(s, t, i, c.(commands := if command.value in c.commands then c.commands else c.commands + [command.value]), "registered",
                [Member("identifier", String(command.value))], m)
  {
    hide StringAt, Announced, Filed, Changed, Denied, Asks;
    var command := StringAt(Some(m.payload), "command");
    AsksIs(s, m, i, "command.register");
    Dispatch(s, m, i);
    if command.None? {
      RefusalDenies(s, i, s.clients[i], m);
    } else {
      AnnouncedChanges(s, i, AddCommand(s.clients[i], command.value), "registered", [Member("identifier", String(command.value))],
                       name => CommandPayload(name, command.value), m);
    }
  }

  /** The first such command goes; if it is not there, the broker fails. */
  lemma UnregisterHandled(s: Server, m: Request, i: nat)
    requires Asks(s, m, i, "command.unregister")
    ensures
      var command, c, t := StringAt(Some(m.payload), "command"), s.clients[i], HandleMethod(s, m);
      if command.None? then Denied(s, t, i, c, m)
      else if command.value !in c.commands then t.crashed
      else
        exists n: nat :: FirstAt(c.commands, command.value, n) &&
          Changed(s, t, i, c.(commands := c.commands[..n] + c.commands[n + 1..]), "unregistered",
                  [Member("identifier", String(command.value))], m)
  {
    hide StringAt, Announced, Filed, Changed, Denied, Asks, FirstAt;
    AsksIs(s, m, i, "command.unregister");
    var command, c := StringAt(Some(m.payload), "command"), s.clients[i];
    Dispatch(s, m, i);
    if command.None? {
      RefusalDenies(s, i, c, m);
    } else if command.value !in c.commands {
      CrashFiled(ServerCommand(s, i, m), m);
    } else {
      AnnouncedChanges(s, i, c.(commands := Without(c.commands, command.value)), "unregistered",
                       [Member("identifier", String(command.value))], name => CommandPayload(name, command.value), m);
      var n := FirstExists(c.commands, command.value);
      WithoutFirst(c.commands, command.value, n);
      FirstInside(c.commands, command.value, n);
    }
  }

  // ----- create -----

  /** What a client asks to be pinged with, made to fit: no pings without an interval, no timeout beyond
      it, no negative threshold. The misses of the client stay. */
  ghost predicate Clamped(p: Ping, interval: int, timeout: int, threshold: int, now: int, missed: int) {
    && p.missed == missed && p.enabled == (interval > 0)
    && p.interval == (if interval > 0 then interval else 0)
    && p.timeout == (if interval <= 0 then 0 else if timeout < interval then timeout else interval)
    && p.threshold == (if interval > 0 && threshold > 0 then threshold else 0)
    && p.received == (if interval > 0 then now - interval else 0)
  }

  /** What the answer to a create request tells the client. */
  function Welcoming(name: string, codec: Compression, ping: Ping): Json {
    Object([
      Member("identifier", String(name)), Member("compression", String(if codec == Zlib then "zlib" else "none")),
      Member("ping", Object([
        Member("interval", Number(ping.interval)), Member("timeout", Number(ping.timeout)), Member("threshold", Number(ping.threshold))]))])
  }

  /** The name a create request is about: the one it asks for, or else the one drawn for it. */
  function NameFor(m: Request): string {
    var asked := StringAt(Some(m.payload), "identifier");
    if asked.None? || asked.value == "" then m.draw else asked.value
  }

  ghost predicate Taken(s: Server, name: string) {
    exists k | 0 <= k < |s.clients| :: s.clients[k].identifier == Some(name)
  }

  /** The client is c but for its name, ping settings and compression, which are as it asked. */
  ghost predicate Admitted(s: Server, c: Client, d: Client, m: Request) {
    var p := Some(m.payload);
    && d == c.(identifier := Some(NameFor(m)), ping := d.ping, compression := d.compression)
    && Clamped(d.ping, IntAt(p, "ping/interval", -1), IntAt(p, "ping/timeout", -1), IntAt(p, "ping/threshold", -1), m.now, c.ping.missed)
    && (d.compression == Zlib <==>
          s.zlib && LookUp(p, "compressions").Some? && LookUp(p, "compressions").value.Array?
          && String("zlib") in LookUp(p, "compressions").value.items)
  }

  /** A client that has no name and asks for one that nobody has gets it. With the right password, if one
      is set, it is admitted; otherwise it is refused. */
  lemma CreateHandled(s: Server, m: Request, i: nat)
    requires Asks(s, m, i, "command.create")
    ensures
      var c, t := s.clients[i], HandleMethod(s, m);
      if c.identifier.Some? || Taken(s, NameFor(m)) then Denied(s, t, i, c, m)
      else if s.password.Some? && StringAt(Some(m.payload), "password") != s.password then
        Denied(s, t, i, c.(identifier := Some(NameFor(m))), m)
      else
        exists d: Client :: Admitted(s, c, d, m)
          && t == s.(clients := s.clients[i := WithResult(d, Replied(m, 0, Welcoming(NameFor(m), d.compression, d.ping)))])
  {
    hide StringAt, LookUp, PingSettings, Filed, Denied, Asks, Admitted, CreatePayload, Negotiate;
    AsksIs(s, m, i, "command.create");
    Dispatch(s, m, i);
    assert ServerCommand(s, i, m) == Create(s, i, m);
    var c, name, p := s.clients[i], NameFor(m), Some(m.payload);
    assert Find(s.clients, name).Some? <==> Taken(s, name);
    var named := c.(identifier := Some(name));
    assert s.clients[i := c] == s.clients;
    if c.identifier.Some? || Taken(s, name) {
      RefusalDenies(s, i, c, m);
    } else if s.password.Some? && StringAt(p, "password") != s.password {
      RefusalDenies(s, i, named, m);
    } else {
      var d := named.(ping := PingSettings(c.ping, LookUp(p, "ping"), m.now), compression := Negotiate(s.zlib, LookUp(p, "compressions")));
      AdmittedAs(s, c, d, m);
      AnswerFiled(s, i, d, CreatePayload(name, d.compression, d.ping), m);
      WelcomingIs(name, d.compression, d.ping);
    }
  }

  lemma WelcomingIs(name: string, codec: Compression, ping: Ping)
    ensures CreatePayload(name, codec, ping) == Welcoming(name, codec, ping)
  {
  }

  lemma AdmittedAs(s: Server, c: Client, d: Client, m: Request)
    requires
      var p := Some(m.payload);
      d == c.(identifier := Some(NameFor(m)), ping := PingSettings(c.ping, LookUp(p, "ping"), m.now),
              compression := Negotiate(s.zlib, LookUp(p, "compressions")))
    ensures Admitted(s, c, d, m)
  {
    hide StringAt, LookUp;
    var p := Some(m.payload);
    LookUpComposes(p, "ping", "interval");
    LookUpComposes(p, "ping", "timeout");
    LookUpComposes(p, "ping", "threshold");
    assert "ping" + "/" + "interval" == "ping/interval" && "ping" + "/" + "timeout" == "ping/timeout"
           && "ping" + "/" + "threshold" == "ping/threshold";
  }

  /** The i-th client is c now and has the answer 0 with that payload. */
  ghost predicate Granted(s: Server, t: Server, i: nat, c: Client, payload: Json, m: Request)
    requires i < |s.clients|
  {
    t == s.(clients := s.clients[i := WithResult(c, Replied(m, 0, payload))])
  }

  lemma AnswerFiled(s: Server, i: nat, c: Client, payload: Json, m: Request)
    requires Asks(s, m, i, m.identifier) && c.handle == s.clients[i].handle
    ensures Granted(s, Filed(Outcome(WithClient(s, i, c), 0, SetResultPayload(m, Some(payload))), m), i, c, payload, m)
    ensures Granted(s, Filed(Outcome(WithClient(s, i, c), 0, m), m), i, c, Object([]), m)
  {
    hide Mbus, Locate, SetResultCode, SetResultPayload, InitialResult;
    RepliedIs(m, 0, payload);
    LocateSame(s.clients, s.clients[i := c], m.source);
    FiledServer(Outcome(WithClient(s, i, c), 0, SetResultPayload(m, Some(payload))), m, i);
    FiledServer(Outcome(WithClient(s, i, c), 0, m), m, i);
  }

  // ----- queries -----

  /** The object lists the name of the client, if it has one, its subscriptions and its commands. */
  ghost predicate Lists(v: Json, c: Client) {
    && LookUp(Some(v), "source") == (if c.identifier.Some? then Some(String(c.identifier.value)) else None)
    && ListsSubscriptions(LookUp(Some(v), "subscriptions"), c.subscriptions)
    && ListsCommands(LookUp(Some(v), "commands"), c.commands)
  }

  ghost predicate ListsSubscriptions(v: Option<Json>, xs: seq<Subscription>) {
    && v.Some? && v.value.Array? && |v.value.items| == |xs|
    && forall k | 0 <= k < |xs| ::
         StringAt(Some(v.value.items[k]), "source") == Some(xs[k].source) && StringAt(Some(v.value.items[k]), "identifier") == Some(xs[k].event)
  }

  ghost predicate ListsCommands(v: Option<Json>, xs: seq<string>) {
    && v.Some? && v.value.Array? && |v.value.items| == |xs|
    && forall k | 0 <= k < |xs| :: StringAt(Some(v.value.items[k]), "identifier") == Some(xs[k])
  }

  lemma NamesPlain()
    ensures Plain("source") && Plain("identifier") && Plain("subscriptions") && Plain("commands")
  {
  }

  lemma Members(a: Member, b: Member, name: string)
    requires Plain(name)
    ensures LookUp(Some(Object([a])), name) == if a.name == name then Some(a.value) else None
    ensures LookUp(Some(Object([a, b])), name)
         == if a.name == name then Some(a.value) else if b.name == name then Some(b.value) else None
  {
    hide LookUp, FindMember;
    Field([a], name);
    Field([a, b], name);
    FindOne(a, name);
    FindOne(b, name);
    FindJoined([a], [b], name);
    assert [a] + [b] == [a, b];
  }

  lemma ThreeMembers(a: Member, b: Member, c: Member, name: string)
    requires Plain(name)
    ensures LookUp(Some(Object([a, b, c])), name)
         == if a.name == name then Some(a.value) else if b.name == name then Some(b.value) else if c.name == name then Some(c.value) else None
  {
    hide LookUp, FindMember;
    Field([a, b, c], name);
    FindOne(a, name);
    FindOne(b, name);
    FindOne(c, name);
    FindJoined([a], [b], name);
    FindJoined([a] + [b], [c], name);
    assert [a] + [b] + [c] == [a, b, c];
  }

  lemma ListedLists(c: Client)
    ensures Lists(Object(Listed(c)), c)
  {
    hide LookUp;
    NamesPlain();
    assert |"source"| == 6 && |"subscriptions"| == 13 && |"commands"| == 8 && |"identifier"| == 10;
    var xs, ys := SubscriptionList(c.subscriptions), CommandList(c.commands);
    var a, b := Member("subscriptions", Array(xs)), Member("commands", Array(ys));
    Members(a, b, "source");
    Members(a, b, "subscriptions");
    Members(a, b, "commands");
    if c.identifier.Some? {
      var n := Member("source", String(c.identifier.value));
      assert Listed(c) == [n, a, b];
      ThreeMembers(n, a, b, "source");
      ThreeMembers(n, a, b, "subscriptions");
      ThreeMembers(n, a, b, "commands");
    } else {
      assert Listed(c) == [a, b];
    }
    forall k | 0 <= k < |xs|
      ensures StringAt(Some(xs[k]), "source") == Some(c.subscriptions[k].source)
      ensures StringAt(Some(xs[k]), "identifier") == Some(c.subscriptions[k].event)
    {
      var s, e := Member("source", String(c.subscriptions[k].source)), Member("identifier", String(c.subscriptions[k].event));
      Members(s, e, "source");
      Members(s, e, "identifier");
    }
    forall k | 0 <= k < |ys| ensures StringAt(Some(ys[k]), "identifier") == Some(c.commands[k]) {
      Members(Member("identifier", String(c.commands[k])), a, "identifier");
    }
  }

  /** How many of the first k clients have a name. */
  function NamedBefore(cs: seq<Client>, k: nat): nat
    requires k <= |cs|
  {
    if k == 0 then 0 else NamedBefore(cs, k - 1) + if cs[k - 1].identifier.Some? then 1 else 0
  }

  lemma {:induction false} NamedFirst(cs: seq<Client>, k: nat)
    requires 0 < k <= |cs|
    ensures NamedBefore(cs, k) == (if cs[0].identifier.Some? then 1 else 0) + NamedBefore(cs[1..], k - 1)
  {
    if k > 1 {
      NamedFirst(cs, k - 1);
    }
  }

  lemma {:induction false} NamesInOrder(cs: seq<Client>)
    ensures |Names(cs)| == NamedBefore(cs, |cs|)
    ensures forall k | 0 <= k < |cs| && cs[k].identifier.Some? ::
      NamedBefore(cs, k) < |Names(cs)| && Names(cs)[NamedBefore(cs, k)] == String(cs[k].identifier.value)
    decreases |cs|
  {
    if cs != [] {
      var rest := cs[1..];
      NamesInOrder(rest);
      NamedFirst(cs, |cs|);
      forall k | 0 <= k < |cs| && cs[k].identifier.Some?
        ensures NamedBefore(cs, k) < |Names(cs)| && Names(cs)[NamedBefore(cs, k)] == String(cs[k].identifier.value)
      {
        if k > 0 {
          NamedFirst(cs, k);
          assert rest[k - 1] == cs[k];
        }
      }
    }
  }

  lemma QueryDispatch(s: Server, m: Request, i: nat)
    requires Asks(s, m, i, m.identifier) && m.identifier in {"command.status", "command.clients", "command.client"}
    ensures HandleMethod(s, m) == Filed(Query(s, m), m) && WithClient(s, i, s.clients[i]) == s
  {
    hide Query, Filed, Locate, Mbus, InitialResult;
    assert s.clients[i := s.clients[i]] == s.clients;
    assert "command.status"[8] == 's' && "command.clients"[8] == 'c' && "command.client"[8] == 'c' && "command.create"[8] == 'c';
    assert "command.status"[9] == 't' && "command.clients"[9] == 'l' && "command.client"[9] == 'l' && "command.create"[9] == 'r';
    assert "command.subscribe"[9] == 'u' && "command.unsubscribe"[8] == 'u' && "command.register"[8] == 'r';
    assert "command.unregister"[8] == 'u' && "command.result"[8] == 'r' && "command.event"[8] == 'e';
    Dispatch(s, m, i);
  }

  /** The status is a list of all clients. */
  lemma StatusHandled(s: Server, m: Request, i: nat)
    requires Asks(s, m, i, "command.status")
    ensures
      exists items: seq<Json> :: |items| == |s.clients| && (forall k | 0 <= k < |items| :: Lists(items[k], s.clients[k]))
        && Granted(s, HandleMethod(s, m), i, s.clients[i], Array(items), m)
  {
    hide Filed, Granted, Asks, Listed, Lists;
    AsksIs(s, m, i, "command.status");
    QueryDispatch(s, m, i);
    var items := StatusList(s.clients);
    AnswerFiled(s, i, s.clients[i], Array(items), m);
    forall k | 0 <= k < |items| ensures Lists(items[k], s.clients[k]) {
      ListedLists(s.clients[k]);
    }
  }

  /** The names of all clients that have one, in the order of the list. */
  lemma ClientsHandled(s: Server, m: Request, i: nat)
    requires Asks(s, m, i, "command.clients")
    ensures
      exists items: seq<Json> :: |items| == NamedBefore(s.clients, |s.clients|)
        && (forall k | 0 <= k < |s.clients| && s.clients[k].identifier.Some? ::
              NamedBefore(s.clients, k) < |items| && items[NamedBefore(s.clients, k)] == String(s.clients[k].identifier.value))
        && Granted(s, HandleMethod(s, m), i, s.clients[i], Array(items), m)
  {
    hide Filed, Granted, Asks, Names, NamedBefore, Query, HandleMethod;
    AsksIs(s, m, i, "command.clients");
    QueryDispatch(s, m, i);
    ClientsQuery(s, m);
    NamesInOrder(s.clients);
    AnswerFiled(s, i, s.clients[i], Array(Names(s.clients)), m);
  }

  lemma ClientsQuery(s: Server, m: Request)
    requires m.identifier == "command.clients"
    ensures Query(s, m) == Outcome(s, 0, SetResultPayload(m, Some(Array(Names(s.clients)))))
  {
    hide Names, SetResultPayload;
    assert "command.clients"[8] != "command.status"[8];
  }

  /** The client of a name, or a refusal if there is none. */
  lemma ClientHandled(s: Server, m: Request, i: nat)
    requires Asks(s, m, i, "command.client") && DistinctNames(s.clients)
    ensures
      var name, c, t := StringAt(Some(m.payload), "source"), s.clients[i], HandleMethod(s, m);
      && (name.None? || !Taken(s, name.value) ==> Denied(s, t, i, c, m))
      && (forall k: nat | k < |s.clients| && name.Some? && s.clients[k].identifier == name ::
            exists v: Json :: Lists(v, s.clients[k]) && Granted(s, t, i, c, v, m))
  {
    hide Filed, Granted, Denied, Asks, Listed, Lists, StringAt;
    AsksIs(s, m, i, "command.client");
    QueryDispatch(s, m, i);
    assert "command.client"[8] != "command.status"[8] && |"command.client"| != |"command.clients"|;
    var name, c := StringAt(Some(m.payload), "source"), s.clients[i];
    RefusalDenies(s, i, c, m);
    if name.Some? && Find(s.clients, name.value).Some? {
      var k := Find(s.clients, name.value).value;
      ListedLists(s.clients[k]);
      AnswerFiled(s, i, c, Object(Listed(s.clients[k])), m);
    }
  }

  // ----- close and everything else -----

  /** The client of that name is closed, or the broker stops; other names are refused. */
  lemma CloseHandled(s: Server, m: Request, i: nat)
    requires Asks(s, m, i, "command.close") && DistinctNames(s.clients)
    ensures
      var name, c, t := StringAt(Some(m.payload), "source"), s.clients[i], HandleMethod(s, m);
      && (name == Some(SERVER) ==> Granted(s.(running := false), t, i, c, Object([]), m))
      && (name.None? || (name.value != SERVER && !Taken(s, name.value)) ==> Denied(s, t, i, c, m))
      && (forall k: nat | k < |s.clients| && name.Some? && name.value != SERVER && s.clients[k].identifier == name ::
            var closed := s.clients[k := s.clients[k].(open := false, closeCode := CloseCommand)];
            t == s.(clients := closed[i := WithResult(closed[i], Replied(m, 0, Object([])))]))
  {
    hide Filed, Granted, Denied, Asks, StringAt, Mbus, InitialResult;
    AsksIs(s, m, i, "command.close");
    Dispatch(s, m, i);
    CloseDispatch(s, m, i);
    var name, c := StringAt(Some(m.payload), "source"), s.clients[i];
    RefusalDenies(s, i, c, m);
    StoppedFiled(s, i, m);
    if name.Some? && name.value != SERVER && Find(s.clients, name.value).Some? {
      var k := Find(s.clients, name.value).value;
      ClosedFiled(s, i, k, m);
    }
  }

  lemma CloseDispatch(s: Server, m: Request, i: nat)
    requires i < |s.clients| && m.identifier == "command.close"
    ensures ServerCommand(s, i, m) == Close(s, m)
  {
    hide Close;
    assert "command.close"[9] == 'l' && "command.create"[9] == 'r' && "command.client"[10] == 'i' && "command.close"[10] == 'o';
    assert "command.clients"[10] == 'i' && "command.status"[8] == 's' && "command.close"[8] == 'c';
    assert "command.subscribe"[8] == 's' && "command.unsubscribe"[8] == 'u' && "command.register"[8] == 'r';
    assert "command.unregister"[8] == 'u' && "command.result"[8] == 'r' && "command.event"[8] == 'e';
  }

  lemma StoppedFiled(s: Server, i: nat, m: Request)
    requires Asks(s, m, i, m.identifier)
    ensures Granted(s.(running := false), Filed(Outcome(s.(running := false), 0, m), m), i, s.clients[i], Object([]), m)
  {
    hide Mbus, Locate, SetResultCode, SetResultPayload, InitialResult;
    RepliedIs(m, 0, Object([]));
    FiledServer(Outcome(s.(running := false), 0, m), m, i);
  }

  lemma ClosedFiled(s: Server, i: nat, k: nat, m: Request)
    requires Asks(s, m, i, m.identifier) && k < |s.clients|
    ensures
      var closed := s.clients[k := s.clients[k].(open := false, closeCode := CloseCommand)];
      Filed(Outcome(WithClient(s, k, Closed(s.clients[k], CloseCommand)), 0, m), m)
      == s.(clients := closed[i := WithResult(closed[i], Replied(m, 0, Object([])))])
  {
    hide Mbus, Locate, SetResultCode, SetResultPayload, InitialResult;
    var o := Outcome(WithClient(s, k, Closed(s.clients[k], CloseCommand)), 0, m);
    RepliedIs(m, 0, Object([]));
    LocateSame(s.clients, o.server.clients, m.source);
    FiledServer(o, m, i);
  }

  /** The commands of the broker. */
  const COMMANDS: set<string> := {
    "command.create", "command.subscribe", "command.unsubscribe", "command.register", "command.unregister", "command.result",
    "command.event", "command.status", "command.client", "command.clients", "command.close"}

  /** Any other command is refused. */
  lemma UnknownDenied(s: Server, m: Request, i: nat)
    requires Asks(s, m, i, m.identifier) && m.identifier !in COMMANDS
    ensures Denied(s, HandleMethod(s, m), i, s.clients[i], m)
  {
    hide Filed, Denied, Asks;
    AsksIs(s, m, i, m.identifier);
    Dispatch(s, m, i);
    RefusalDenies(s, i, s.clients[i], m);
  }
}

/** The invariant of the broker between the steps of its turn: names are distinct, every command
    accepted from a present client is where it belongs, every wait has a home. */
module BrokerInvariant {
  import opened Options
  import opened JsonText
  import opened JsonPath
  import opened Methods
  import opened BrokerState
  import opened BrokerCalm

  // ----- conservation -----

  /** A request without its result: what identifies it on its way through the queues. */
  function Core(m: Request): Request {
    m.(result := [])
  }

  function Cores(ms: seq<Request>): seq<Request> {
    seq(|ms|, i requires 0 <= i < |ms| => Core(ms[i]))
  }

  function CommandsOf(methods: seq<Request>, handle: nat): seq<Request> {
    if methods == [] then []
    else
      (if methods[0].source == handle && methods[0].kind == TYPE_COMMAND then [methods[0]] else [])
      + CommandsOf(methods[1..], handle)
  }

  /** Every command accepted from the client is queued, waiting or answered, as often as it was sent. */
  ghost predicate Conserved(c: Client, methods: seq<Request>) {
    multiset(Cores(c.log))
    == multiset(Cores(CommandsOf(methods, c.handle))) + multiset(Cores(c.waits)) + multiset(Cores(Answered(c)))
  }

  lemma CoresAppend(a: seq<Request>, b: seq<Request>)
    ensures multiset(Cores(a + b)) == multiset(Cores(a)) + multiset(Cores(b))
  {
    assert Cores(a + b) == Cores(a) + Cores(b);
  }

  lemma CommandsStep(methods: seq<Request>, handle: nat)
    ensures methods == [] ==> CommandsOf(methods, handle) == []
    ensures methods != [] ==>
      CommandsOf(methods, handle)
      == (if methods[0].source == handle && methods[0].kind == TYPE_COMMAND then [methods[0]] else []) + CommandsOf(methods[1..], handle)
  {
    hide Mbus;
  }

  lemma {:induction false} CommandsOfAppend(a: seq<Request>, b: seq<Request>, handle: nat)
    ensures CommandsOf(a + b, handle) == CommandsOf(a, handle) + CommandsOf(b, handle)
  {
    hide Mbus, CommandsOf;
    CommandsStep(a, handle);
    if a == [] {
      assert a + b == b && [] + CommandsOf(b, handle) == CommandsOf(b, handle);
    } else {
      CommandsOfAppend(a[1..], b, handle);
      CommandsStep(a + b, handle);
      assert (a + b)[0] == a[0] && (a + b)[1..] == a[1..] + b;
      Reassembled(if a[0].source == handle && a[0].kind == TYPE_COMMAND then [a[0]] else [], CommandsOf(a[1..], handle), CommandsOf(b, handle));
    }
  }

  lemma Reassembled(x: seq<Request>, y: seq<Request>, z: seq<Request>)
    ensures x + (y + z) == (x + y) + z
  {
  }

  lemma CommandsOfOne(m: Request, handle: nat)
    ensures CommandsOf([m], handle) == if m.source == handle && m.kind == TYPE_COMMAND then [m] else []
  {
    hide Mbus;
    assert [m][1..] == [];
  }

  // ----- the invariant -----

  ghost predicate HandlesOk(clients: seq<Client>, next: nat) {
    && (forall i | 0 <= i < |clients| :: clients[i].handle < next)
    && (forall i, j | 0 <= i < j < |clients| :: clients[i].handle != clients[j].handle)
  }

  ghost predicate Queued(m: Request, clients: seq<Client>) {
    Locate(clients, m.source).Some? && m.kind in {TYPE_COMMAND, TYPE_EVENT} && Answers(m, [])
  }

  ghost predicate MethodsOk(methods: seq<Request>, clients: seq<Client>) {
    forall k | 0 <= k < |methods| :: Queued(methods[k], clients)
  }

  /** A command that waits for its result carries no status and names a present client. */
  ghost predicate Waiting(w: Request, handle: nat, clients: seq<Client>) {
    w.source == handle && w.kind == TYPE_COMMAND && Answers(w, []) && Find(clients, w.destination).Some?
  }

  /** A result carries exactly one status and the sequence number of its request. */
  ghost predicate Complete(r: Request, handle: nat) {
    r.source == handle && r.kind == TYPE_COMMAND && exists code: int :: Answers(r, [Number(code)])
  }

  ghost predicate QueuesOk(c: Client, clients: seq<Client>) {
    && (forall k | 0 <= k < |c.waits| :: Waiting(c.waits[k], c.handle, clients))
    && (forall k | 0 <= k < |Answered(c)| :: Complete(Answered(c)[k], c.handle))
  }

  ghost predicate ClientOk(c: Client, methods: seq<Request>, clients: seq<Client>) {
    Conserved(c, methods) && QueuesOk(c, clients) && Numbered(c)
  }

  ghost predicate ClientsOk(clients: seq<Client>, methods: seq<Request>) {
    forall i | 0 <= i < |clients| :: ClientOk(clients[i], methods, clients)
  }

  ghost predicate Inv(s: Server) {
    s.crashed ||
    (HandlesOk(s.clients, s.nextHandle) && DistinctNames(s.clients) && MethodsOk(s.methods, s.clients)
     && ClientsOk(s.clients, s.methods))
  }

  // ----- calm steps keep it -----

  lemma CalmClientOk(c: Client, d: Client, methods: seq<Request>, cs: seq<Client>, ds: seq<Client>)
    requires Calm(c, d) && ClientOk(c, methods, cs) && CalmAll(cs, ds)
    ensures ClientOk(d, methods, ds)
  {
    hide Numbered, Conserved, CalmAll, Find, Answers, Locate;
    assert Conserved(d, methods) by {
      ConservedSame(c, d, methods);
    }
    forall k | 0 <= k < |d.waits|
      ensures Waiting(d.waits[k], d.handle, ds)
    {
      assert Waiting(c.waits[k], c.handle, cs);
      CalmFinds(cs, ds, c.waits[k].destination);
    }
  }

  lemma ConservedSame(c: Client, d: Client, methods: seq<Request>)
    requires d.handle == c.handle && d.log == c.log && d.waits == c.waits && Answered(d) == Answered(c)
    ensures Conserved(d, methods) == Conserved(c, methods)
  {
  }

  /** A step that is calm for every client and leaves the method queue alone keeps the invariant,
      as long as names stay distinct. */
  lemma CalmKeeps(s: Server, t: Server)
    requires Inv(s) && !s.crashed && t.methods == s.methods && t.nextHandle == s.nextHandle
    requires CalmAll(s.clients, t.clients) && (SameFaces(s.clients, t.clients) || DistinctNames(t.clients))
    ensures Inv(t)
  {
    hide ClientOk, Queued, Locate, Find;
    var cs, ds := s.clients, t.clients;
    assert HandlesOk(ds, t.nextHandle) by {
      hide Numbered;
      forall i | 0 <= i < |ds| ensures ds[i].handle == cs[i].handle { assert Calm(cs[i], ds[i]); }
    }
    forall i | 0 <= i < |ds|
      ensures ClientOk(ds[i], t.methods, ds)
    {
      assert Calm(cs[i], ds[i]) && ClientOk(cs[i], s.methods, cs);
      CalmClientOk(cs[i], ds[i], s.methods, cs, ds);
    }
    forall k | 0 <= k < |t.methods|
      ensures Queued(t.methods[k], ds)
    {
      assert Queued(s.methods[k], cs);
      QueuedSame(s.methods[k], cs, ds);
    }
  }

  lemma QueuedSame(m: Request, cs: seq<Client>, ds: seq<Client>)
    requires CalmAll(cs, ds) && Queued(m, cs)
    ensures Queued(m, ds)
  {
    hide Calm, Answers, Locate;
    CalmLocates(cs, ds, m.source);
  }

  // ----- every handler but that of results is calm -----

  /** What a handler may do: calm for the clients, distinct names, nothing else touched but the
      running flag and the request's result payload. */
  ghost predicate Gentle(s: Server, o: Outcome, m: Request) {
    var t := o.server;
    && t.methods == s.methods && t.nextHandle == s.nextHandle && t.announcements == s.announcements
    && CalmAll(s.clients, t.clients)
    && (DistinctNames(s.clients) ==> DistinctNames(t.clients))
    && (forall i | 0 <= i < |s.clients| :: t.clients[i].connected == s.clients[i].connected)
    && Core(o.request) == Core(m) && (Answers(m, []) ==> Answers(o.request, []))
  }

  lemma SameFacesNames(cs: seq<Client>, ds: seq<Client>)
    requires SameFaces(cs, ds) && DistinctNames(cs)
    ensures DistinctNames(ds)
  {
  }

  lemma GentleIfSameFaces(s: Server, o: Outcome, m: Request)
    requires o.server.methods == s.methods && o.server.nextHandle == s.nextHandle
    requires o.server.announcements == s.announcements
    requires CalmAll(s.clients, o.server.clients) && SameFaces(s.clients, o.server.clients)
    requires Core(o.request) == Core(m) && (Answers(m, []) ==> Answers(o.request, []))
    ensures Gentle(s, o, m)
  {
    hide Calm, Answers;
    if DistinctNames(s.clients) {
      SameFacesNames(s.clients, o.server.clients);
    }
  }

  lemma AnnouncedGentle(s: Server, i: nat, c: Client, event: string, payload: string -> Json, m: Request)
    requires i < |s.clients| && Calm(s.clients[i], c)
    requires c.identifier == s.clients[i].identifier && c.connected == s.clients[i].connected
    ensures Gentle(s, Announced(s, i, c, event, payload, m), m)
  {
    hide Calm, Answers, SendEvent, Gentle, Mbus;
    var o := Announced(s, i, c, event, payload, m);
    var cs := s.clients[i := c];
    CalmUpdate(s.clients, i, c);
    if c.identifier.Some? {
      var data := Some(payload(c.identifier.value));
      SendEventCalm(cs, Some(SERVER), SUBSCRIBERS, Mbus("server.event." + event), data, m.now);
      CalmTwice(s.clients, cs, o.server.clients);
    }
    GentleIfSameFaces(s, o, m);
  }

  lemma Untouched(s: Server, rc: int, m: Request)
    ensures Gentle(s, Outcome(s, rc, m), m)
  {
    hide Calm, Answers, Gentle;
    CalmSelf(s.clients);
    GentleIfSameFaces(s, Outcome(s, rc, m), m);
  }

  lemma SubscriptionsGentle(s: Server, i: nat, m: Request)
    requires i < |s.clients|
    ensures Gentle(s, Subscribe(s, i, m), m) && Gentle(s, Unsubscribe(s, i, m), m)
  {
    hide Gentle, Announced, StringAt, Numbered;
    Untouched(s, -1, m);
    var c := s.clients[i];
    var source, event := StringAt(Some(m.payload), "source"), StringAt(Some(m.payload), "event");
    if source.Some? && event.Some? {
      var sub := Subscription(source.value, event.value);
      NumberedSame(c, AddSubscription(c, sub));
      NumberedSame(c, c.(subscriptions := Without(c.subscriptions, sub)));
      AnnouncedGentle(s, i, AddSubscription(c, sub), "subscribed", name => SubscriptionPayload(name, sub), m);
      AnnouncedGentle(s, i, c.(subscriptions := Without(c.subscriptions, sub)), "unsubscribed",
                      name => SubscriptionPayload(name, sub), m);
    }
  }

  lemma NumberedSame(c: Client, d: Client)
    requires d.delivered == c.delivered && d.events == c.events && d.esequence == c.esequence
    ensures Numbered(c) == Numbered(d)
  {
  }

  lemma CommandsGentle(s: Server, i: nat, m: Request)
    requires i < |s.clients|
    ensures Gentle(s, Register(s, i, m), m)
    ensures !Unregister(s, i, m).server.crashed ==> s.crashed || Gentle(s, Unregister(s, i, m), m)
  {
    hide Gentle, Announced, StringAt, Numbered;
    Untouched(s, -1, m);
    var c, command := s.clients[i], StringAt(Some(m.payload), "command");
    if command.Some? {
      var d, e := AddCommand(c, command.value), c.(commands := Without(c.commands, command.value));
      NumberedSame(c, d);
      NumberedSame(c, e);
      AnnouncedGentle(s, i, d, "registered", name => CommandPayload(name, command.value), m);
      AnnouncedGentle(s, i, e, "unregistered", name => CommandPayload(name, command.value), m);
    }
  }

  lemma ResultPayloadSet(m: Request, payload: Option<Json>)
    ensures Core(SetResultPayload(m, payload)) == Core(m)
    ensures Answers(m, []) ==> Answers(SetResultPayload(m, payload), [])
  {
    if Answers(m, []) {
      SettersAnswer(m, [], payload, 0);
    }
  }

  lemma QueryGentle(s: Server, m: Request)
    ensures Gentle(s, Query(s, m), m)
  {
    hide Gentle, Calm, Answers, SetResultPayload, Listed, Names, StringAt;
    CalmSelf(s.clients);
    var o := Query(s, m);
    assert o.server == s;
    if o.request != m {
      var payload := QueryPayload(s, m);
      ResultPayloadSet(m, payload);
    }
    GentleIfSameFaces(s, o, m);
  }

  /** What a query that succeeds puts into its result. */
  lemma QueryPayload(s: Server, m: Request) returns (payload: Option<Json>)
    requires Query(s, m).request != m
    ensures Query(s, m).request == SetResultPayload(m, payload)
  {
    hide SetResultPayload, Listed, Names, StringAt;
    if m.identifier == "command.status" {
      payload := Some(Array(StatusList(s.clients)));
    } else if m.identifier == "command.clients" {
      payload := Some(Array(Names(s.clients)));
    } else {
      var name := StringAt(Some(m.payload), "source");
      payload := Some(Object(Listed(s.clients[Find(s.clients, name.value).value])));
    }
  }

  lemma CloseGentle(s: Server, m: Request)
    ensures Gentle(s, Close(s, m), m)
  {
    hide Gentle, Calm, Answers, StringAt, Mbus;
    CalmSelf(s.clients);
    var o := Close(s, m);
    var name := StringAt(Some(m.payload), "source");
    if name.Some? && name.value != SERVER && Find(s.clients, name.value).Some? {
      var i := Find(s.clients, name.value).value;
      ClosedCalm(s.clients[i], CloseCommand);
      CalmUpdate(s.clients, i, Closed(s.clients[i], CloseCommand));
    }
    GentleIfSameFaces(s, o, m);
  }

  lemma ClosedCalm(c: Client, code: CloseCode)
    ensures Calm(c, Closed(c, code))
  {
  }

  lemma PublishGentle(s: Server, i: nat, m: Request)
    requires i < |s.clients|
    ensures Gentle(s, PublishEvent(s, i, m), m)
  {
    hide Gentle, Calm, Answers, StringAt, LookUp, SendEvent, Mbus;
    CalmSelf(s.clients);
    var p := Some(m.payload);
    var destination, identifier, payload := StringAt(p, TAG_DESTINATION), StringAt(p, TAG_IDENTIFIER), LookUp(p, TAG_PAYLOAD);
    if destination.Some? && identifier.Some? {
      SendEventCalm(s.clients, s.clients[i].identifier, destination.value, identifier.value, payload, m.now);
    }
    GentleIfSameFaces(s, PublishEvent(s, i, m), m);
  }

  lemma CallGentle(s: Server, i: nat, m: Request)
    requires i < |s.clients|
    ensures Gentle(s, Call(s, i, m), m)
    ensures Call(s, i, m).rc == 0 ==> Find(Call(s, i, m).server.clients, m.destination).Some?
  {
    hide Gentle, Calm, Answers, CreateResponse, Find;
    CalmSelf(s.clients);
    var o, j := Call(s, i, m), Find(s.clients, m.destination);
    if o.rc == 0 {
      var n := CreateResponse(TYPE_COMMAND, s.clients[i].identifier, m.identifier, m.sequence, Some(m.payload));
      PushRequestCalm(s.clients[j.value], n.value);
      CalmUpdate(s.clients, j.value, PushRequest(s.clients[j.value], n.value));
      CalmFinds(s.clients, o.server.clients, m.destination);
    }
    GentleIfSameFaces(s, o, m);
  }

  lemma PushRequestCalm(c: Client, n: Notice)
    ensures Calm(c, PushRequest(c, n))
    ensures PushRequest(c, n).identifier == c.identifier && PushRequest(c, n).connected == c.connected
  {
  }

  // ----- naming a client -----

  lemma NamingKeepsNames(cs: seq<Client>, i: nat, d: Client)
    requires DistinctNames(cs) && i < |cs| && d.identifier.Some? && Find(cs, d.identifier.value).None?
    ensures DistinctNames(cs[i := d])
  {
    hide Find;
  }

  lemma NamedGentle(s: Server, i: nat, d: Client, rc: int, m: Request, r: Request)
    requires i < |s.clients| && Calm(s.clients[i], d) && d.connected == s.clients[i].connected
    requires s.clients[i].identifier.None? && d.identifier.Some? && Find(s.clients, d.identifier.value).None?
    requires Core(r) == Core(m) && (Answers(m, []) ==> Answers(r, []))
    ensures Gentle(s, Outcome(WithClient(s, i, d), rc, r), m)
  {
    hide Calm, Answers, Find;
    CalmUpdate(s.clients, i, d);
    if DistinctNames(s.clients) {
      NamingKeepsNames(s.clients, i, d);
    }
  }

  lemma CreateGentle(s: Server, i: nat, m: Request)
    requires i < |s.clients|
    ensures Gentle(s, Create(s, i, m), m)
  {
    hide Gentle, StringAt, LookUp, SetResultPayload, Find, Numbered, PingSettings, Negotiate, CreatePayload, Answers;
    Untouched(s, -1, m);
    var c, payload := s.clients[i], Some(m.payload);
    var asked := StringAt(payload, "identifier");
    var name := if asked.None? || asked.value == "" then m.draw else asked.value;
    if c.identifier.None? && Find(s.clients, name).None? {
      var named := c.(identifier := Some(name));
      NumberedSame(c, named);
      NamedGentle(s, i, named, -1, m, m);
      var d := named.(
        ping := PingSettings(c.ping, LookUp(payload, "ping"), m.now),
        compression := Negotiate(s.zlib, LookUp(payload, "compressions")));
      NumberedSame(c, d);
      ResultPayloadSet(m, Some(CreatePayload(name, d.compression, d.ping)));
      NamedGentle(s, i, d, 0, m, SetResultPayload(m, Some(CreatePayload(name, d.compression, d.ping))));
    }
  }

  /** Every handler but that of results. */
  lemma HandlersGentle(s: Server, i: nat, m: Request)
    requires i < |s.clients| && !s.crashed && m.identifier != "command.result"
    ensures var o := ServerCommand(s, i, m); !o.server.crashed ==> Gentle(s, o, m)
  {
    hide Gentle, Create, Subscribe, Unsubscribe, Register, Unregister, Return, PublishEvent, Query, Close;
    CreateGentle(s, i, m);
    SubscriptionsGentle(s, i, m);
    CommandsGentle(s, i, m);
    PublishGentle(s, i, m);
    QueryGentle(s, m);
    CloseGentle(s, m);
    Untouched(s, -1, m);
  }

  // ----- results of calls -----

  lemma MoveCore(waits: seq<Request>, k: nat, done: seq<Request>, r: Request)
    requires k < |waits| && Core(r) == Core(waits[k])
    ensures multiset(Cores(waits[..k] + waits[k + 1..])) + multiset(Cores(done + [r]))
         == multiset(Cores(waits)) + multiset(Cores(done))
  {
    var a, b := waits[..k], waits[k + 1..];
    assert waits == a + [waits[k]] + b;
    CoresAppend(a + [waits[k]], b);
    CoresAppend(a, [waits[k]]);
    CoresAppend(a, b);
    CoresAppend(done, [r]);
    assert Cores([r]) == [Core(r)] == Cores([waits[k]]);
  }

  lemma Reassociate(a: multiset<Request>, b: multiset<Request>, c: multiset<Request>,
                    b': multiset<Request>, c': multiset<Request>)
    requires b' + c' == b + c
    ensures a + b' + c' == a + b + c
  {
    assert a + b' + c' == a + (b' + c') && a + b + c == a + (b + c);
  }

  lemma CompleteWaitOk(c: Client, k: nat, code: int, payload: Option<Json>, methods: seq<Request>, clients: seq<Client>)
    requires k < |c.waits| && ClientOk(c, methods, clients)
    ensures ClientOk(CompleteWait(c, k, code, payload), methods, clients)
  {
    hide Answers, Find, SetResultCode, SetResultPayload;
    var d := CompleteWait(c, k, code, payload);
    var r := SetResultPayload(SetResultCode(c.waits[k], code), payload);
    assert Waiting(c.waits[k], c.handle, clients);
    CompletedCore(c.waits[k], code, payload);
    assert Answered(d) == Answered(c) + [r];
    assert Conserved(d, methods) by {
      MoveCore(c.waits, k, Answered(c), r);
      Reassociate(multiset(Cores(CommandsOf(methods, c.handle))), multiset(Cores(c.waits)), multiset(Cores(Answered(c))),
                  multiset(Cores(d.waits)), multiset(Cores(Answered(d))));
    }
    NumberedSame(c, d);
    assert QueuesOk(d, clients) by {
      hide Numbered, Conserved;
      forall j | 0 <= j < |d.waits| ensures Waiting(d.waits[j], d.handle, clients) {
        assert d.waits[j] == c.waits[if j < k then j else j + 1];
      }
      forall j | 0 <= j < |Answered(d)| ensures Complete(Answered(d)[j], d.handle) {
        assert j < |Answered(c)| ==> Complete(Answered(c)[j], c.handle);
      }
    }
  }

  lemma CompletedCore(w: Request, code: int, payload: Option<Json>)
    requires Answers(w, []) && w.kind == TYPE_COMMAND
    ensures
      var r := SetResultPayload(SetResultCode(w, code), payload);
      Core(r) == Core(w) && Complete(r, w.source) && Complete(SetResultCode(w, code), w.source)
  {
    hide Answers;
    SettersAnswer(w, [], payload, code);
    assert [] + [Number(code)] == [Number(code)];
    CodeAnswers(w, code);
    SettersAnswer(SetResultCode(w, code), [Number(code)], payload, code);
  }

  lemma CodeAnswers(w: Request, code: int)
    requires Answers(w, [])
    ensures Answers(SetResultCode(w, code), [Number(code)])
  {
    hide Answers;
    SettersAnswer(w, [], None, code);
    assert [] + [Number(code)] == [Number(code)];
  }

  /** One client changes, keeping its handle and name: the others are not affected. */
  lemma UpdateKeeps(s: Server, j: nat, d: Client)
    requires Inv(s) && !s.crashed && j < |s.clients|
    requires d.handle == s.clients[j].handle && d.identifier == s.clients[j].identifier
    requires ClientOk(d, s.methods, s.clients)
    ensures Inv(WithClient(s, j, d))
  {
    hide Answers, Find, Locate, Numbered, Conserved;
    var cs, ds := s.clients, s.clients[j := d];
    forall h ensures Locate(cs, h) == Locate(ds, h) { LocateSame(cs, ds, h); }
    forall name | Find(cs, name).Some? ensures Find(ds, name).Some? { FindSame(cs, ds, name); }
    forall i | 0 <= i < |ds|
      ensures ClientOk(ds[i], s.methods, ds)
    {
      assert ClientOk(ds[i], s.methods, cs);
    }
    forall k | 0 <= k < |s.methods| ensures Queued(s.methods[k], ds) { assert Queued(s.methods[k], cs); }
  }

  lemma FindSame(cs: seq<Client>, ds: seq<Client>, name: string)
    requires |cs| == |ds| && forall i | 0 <= i < |cs| :: ds[i].identifier == cs[i].identifier
    ensures Find(cs, name) == Find(ds, name)
  {
    hide Find;
    var i, j := Find(cs, name), Find(ds, name);
  }

  /** What a result message does: nothing, or the first wait it answers becomes a result. */
  lemma ReturnShape(s: Server, i: nat, m: Request)
    returns (hit: bool, j: nat, k: nat, code: int, payload: Option<Json>)
    requires i < |s.clients|
    ensures var o := Return(s, i, m);
      && o.request == m
      && (!hit ==> o.server == s)
      && (hit ==> j < |s.clients| && k < |s.clients[j].waits|
                  && s.clients[i].identifier == Some(s.clients[j].waits[k].destination)
                  && o.server == WithClient(s, j, CompleteWait(s.clients[j], k, code, payload)))
  {
    hide StringAt, IntAt, LookUp, Find, FindWait, CompleteWait;
    var p, source := Some(m.payload), s.clients[i].identifier;
    var destination, identifier := StringAt(p, TAG_DESTINATION), StringAt(p, TAG_IDENTIFIER);
    var sequence := IntAt(p, TAG_SEQUENCE, -1);
    code, payload, hit, j, k := IntAt(p, TAG_STATUS, -1), LookUp(p, TAG_PAYLOAD), false, 0, 0;
    if source.Some? && destination.Some? && identifier.Some? && START <= sequence < END && Find(s.clients, destination.value).Some? {
      j := Find(s.clients, destination.value).value;
      var found := FindWait(s.clients[j].waits, source.value, identifier.value, sequence);
      if found.Some? {
        k, hit := found.value, true;
      }
    }
  }

  lemma InvClient(s: Server, j: nat)
    requires Inv(s) && !s.crashed && j < |s.clients|
    ensures ClientOk(s.clients[j], s.methods, s.clients)
  {
  }

  lemma CompleteWaitFace(c: Client, k: nat, code: int, payload: Option<Json>)
    requires k < |c.waits|
    ensures
      var d := CompleteWait(c, k, code, payload);
      d.handle == c.handle && d.identifier == c.identifier && d.connected == c.connected && d.open == c.open
  {
  }

  // ----- one method off the queue -----

  lemma HeadCounts(m: Request, rest: seq<Request>, handle: nat)
    ensures CommandsOf([m] + rest, handle)
         == (if m.source == handle && m.kind == TYPE_COMMAND then [m] else []) + CommandsOf(rest, handle)
  {
    CommandsOfAppend([m], rest, handle);
    CommandsOfOne(m, handle);
  }

  /** Whoever did not send the command does not notice that it leaves the queue. */
  lemma OthersUnmoved(c: Client, m: Request, rest: seq<Request>, clients: seq<Client>)
    requires ClientOk(c, [m] + rest, clients) && (m.source != c.handle || m.kind != TYPE_COMMAND)
    ensures ClientOk(c, rest, clients)
  {
    hide Numbered, QueuesOk, Mbus;
    HeadCounts(m, rest, c.handle);
    assert [] + CommandsOf(rest, c.handle) == CommandsOf(rest, c.handle);
  }

  lemma CommandAnswered(c: Client, m: Request, rest: seq<Request>, r: Request, clients: seq<Client>)
    requires ClientOk(c, [m] + rest, clients) && m.source == c.handle && m.kind == TYPE_COMMAND
    requires Core(r) == Core(m) && Complete(r, c.handle)
    ensures ClientOk(PushResult(c, r), rest, clients)
  {
    hide Answers, Find, Mbus;
    var d := PushResult(c, r);
    NumberedSame(c, d);
    hide Numbered;
    assert Answered(d) == Answered(c) + [r];
    assert Conserved(d, rest) by {
      HeadCounts(m, rest, c.handle);
      CoresAppend([m], CommandsOf(rest, c.handle));
      CoresAppend(Answered(c), [r]);
      assert Cores([r]) == [Core(r)] == Cores([m]);
    }
    hide Conserved;
    assert QueuesOk(d, clients) by {
      forall j | 0 <= j < |Answered(d)| ensures Complete(Answered(d)[j], d.handle) {
        assert j < |Answered(c)| ==> Complete(Answered(c)[j], c.handle);
      }
    }
  }

  lemma WaitConserved(c: Client, m: Request, rest: seq<Request>, r: Request)
    requires Conserved(c, [m] + rest) && m.source == c.handle && m.kind == TYPE_COMMAND && Core(r) == Core(m)
    ensures Conserved(PushWait(c, r), rest)
  {
    hide Cores, CommandsOf, Core, Mbus;
    HeadCounts(m, rest, c.handle);
    CoresAppend([m], CommandsOf(rest, c.handle));
    CoresAppend(c.waits, [r]);
    OneCore(m, r);
    assert Answered(PushWait(c, r)) == Answered(c);
    Moved(multiset(Cores([m])), multiset(Cores(CommandsOf(rest, c.handle))), multiset(Cores(c.waits)), multiset(Cores(Answered(c))));
  }

  lemma OneCore(m: Request, r: Request)
    requires Core(r) == Core(m)
    ensures Cores([r]) == Cores([m])
  {
    assert Cores([r]) == [Core(r)] == Cores([m]);
  }

  lemma Moved(m: multiset<Request>, queued: multiset<Request>, waits: multiset<Request>, done: multiset<Request>)
    ensures m + queued + waits + done == queued + (waits + m) + done
  {
  }

  lemma CommandWaits(c: Client, m: Request, rest: seq<Request>, r: Request, clients: seq<Client>)
    requires ClientOk(c, [m] + rest, clients) && m.source == c.handle && m.kind == TYPE_COMMAND
    requires Core(r) == Core(m) && Waiting(r, c.handle, clients)
    ensures ClientOk(PushWait(c, r), rest, clients)
  {
    hide Answers, Find, Mbus;
    var d := PushWait(c, r);
    NumberedSame(c, d);
    hide Numbered;
    assert Answered(d) == Answered(c);
    WaitConserved(c, m, rest, r);
    hide Conserved;
    assert QueuesOk(d, clients) by {
      forall j | 0 <= j < |d.waits| ensures Waiting(d.waits[j], d.handle, clients) {
        assert j < |c.waits| ==> d.waits[j] == c.waits[j];
      }
    }
  }

  /** The head of the queue leaves it, and its source (if it was a command) takes it over. */
  lemma HeadLeaves(t: Server, m: Request, rest: seq<Request>, i: nat, d: Client)
    requires Inv(t) && !t.crashed && t.methods == [m] + rest
    requires Locate(t.clients, m.source) == Some(i)
    requires d.handle == t.clients[i].handle && d.identifier == t.clients[i].identifier
    requires ClientOk(d, rest, t.clients)
    ensures Inv(WithClient(t, i, d).(methods := rest))
  {
    hide ClientOk, Queued, Find, Locate;
    var cs := t.clients;
    var u := t.(methods := rest, clients := cs[i := d]);
    forall k | 0 <= k < |cs| && k != i
      ensures ClientOk(cs[k], rest, cs)
    {
      assert ClientOk(cs[k], [m] + rest, cs) && cs[k].handle != m.source;
      OthersUnmoved(cs[k], m, rest, cs);
    }
    forall k | 0 <= k < |rest| ensures Queued(rest[k], cs) { assert rest[k] == t.methods[k + 1]; }
    SwapKeeps(cs, i, d, rest);
  }

  /** All clients are in order with one of them replaced by one of the same handle and name. */
  lemma SwapKeeps(cs: seq<Client>, i: nat, d: Client, methods: seq<Request>)
    requires i < |cs| && d.handle == cs[i].handle && d.identifier == cs[i].identifier
    requires ClientOk(d, methods, cs) && forall k | 0 <= k < |cs| && k != i :: ClientOk(cs[k], methods, cs)
    requires MethodsOk(methods, cs)
    ensures ClientsOk(cs[i := d], methods) && MethodsOk(methods, cs[i := d])
  {
    hide Answers, Find, Locate, Numbered, Conserved;
    var ds := cs[i := d];
    forall h ensures Locate(cs, h) == Locate(ds, h) { LocateSame(cs, ds, h); }
    forall name ensures Find(cs, name) == Find(ds, name) { FindSame(cs, ds, name); }
    forall k | 0 <= k < |ds|
      ensures ClientOk(ds[k], methods, ds)
    {
      assert ClientOk(ds[k], methods, cs);
    }
    forall k | 0 <= k < |methods| ensures Queued(methods[k], ds) { assert Queued(methods[k], cs); }
  }

  /** The outcome of a handler is filed: as a result with the return code, or as a wait. */
  lemma FiledKeeps(o: Outcome, m: Request, rest: seq<Request>)
    requires !o.server.crashed && o.server.methods == rest && Inv(o.server.(methods := [m] + rest))
    requires m.kind == TYPE_COMMAND && Core(o.request) == Core(m) && Answers(o.request, [])
    requires m.destination != SERVER && o.rc == 0 ==> Find(o.server.clients, m.destination).Some?
    ensures Inv(Filed(o, m)) && !Filed(o, m).crashed && Filed(o, m).methods == rest
  {
    hide Inv, ClientOk, Answers, Find, Locate, Mbus, SetResultCode;
    var t := o.server.(methods := [m] + rest);
    QueuedHead(t);
    var i := Locate(t.clients, m.source).value;
    LocateIs(t.clients, m.source);
    InvClient(t, i);
    var c, r := t.clients[i], o.request;
    if m.destination == SERVER || o.rc != 0 {
      CompletedByCode(r, o.rc);
      CommandAnswered(c, m, rest, SetResultCode(r, o.rc), t.clients);
      HeadLeaves(t, m, rest, i, PushResult(c, SetResultCode(r, o.rc)));
    } else {
      assert Waiting(r, c.handle, t.clients);
      CommandWaits(c, m, rest, r, t.clients);
      HeadLeaves(t, m, rest, i, PushWait(c, r));
    }
  }

  lemma CompletedByCode(r: Request, code: int)
    requires Answers(r, []) && r.kind == TYPE_COMMAND
    ensures Complete(SetResultCode(r, code), r.source) && Core(SetResultCode(r, code)) == Core(r)
  {
    hide Answers;
    CodeAnswers(r, code);
  }

  lemma QueuedHead(t: Server)
    requires Inv(t) && !t.crashed && t.methods != []
    ensures Queued(t.methods[0], t.clients)
  {
  }

  lemma LocateIs(clients: seq<Client>, handle: nat)
    requires Locate(clients, handle).Some?
    ensures Locate(clients, handle).value < |clients| && clients[Locate(clients, handle).value].handle == handle
  {
  }

  /** Handling the head of the queue keeps the invariant. */
  lemma HandleKeeps(s: Server, m: Request, rest: seq<Request>)
    requires Inv(s) && !s.crashed && s.methods == [m] + rest
    ensures var t := HandleMethod(s.(methods := rest), m); t.crashed || (Inv(t) && t.methods == rest)
  {
    hide Inv, ServerCommand, Call, SendEvent, Gentle, Filed, Answers, Locate, Mbus;
    var u := s.(methods := rest);
    QueuedHead(s);
    assert s.methods[0] == m;
    var i := Locate(u.clients, m.source).value;
    LocateIs(u.clients, m.source);
    if m.kind == TYPE_COMMAND {
      if m.destination != SERVER {
        var o := Call(u, i, m);
        CallGentle(u, i, m);
        CallAlive(u, i, m);
        GentleTransfers(s, u, o, m, rest);
        FiledKeeps(o, m, rest);
      } else if m.identifier != "command.result" {
        var o := ServerCommand(u, i, m);
        if o.server.crashed {
          CrashFiled(o, m);
        } else {
          HandlersGentle(u, i, m);
          GentleTransfers(s, u, o, m, rest);
          FiledKeeps(o, m, rest);
        }
      } else {
        ResultDispatch(u, i, m);
        ReturnKeeps(s, u, i, m, rest);
      }
    } else {
      var cs := SendEvent(u.clients, u.clients[i].identifier, m.destination, m.identifier, Some(m.payload), m.now);
      SendEventCalm(u.clients, u.clients[i].identifier, m.destination, m.identifier, Some(m.payload), m.now);
      EventLeaves(s, m, rest, cs, i);
      NamesDiffer();
    }
  }

  lemma ResultDispatch(s: Server, i: nat, m: Request)
    requires i < |s.clients| && m.identifier == "command.result"
    ensures ServerCommand(s, i, m) == Return(s, i, m)
  {
    hide Return, Create, Subscribe, Unsubscribe, Register, Unregister;
    assert m.identifier[8] == 'r' && |m.identifier| == 14 && m.identifier[10] == 's';
  }

  lemma CrashFiled(o: Outcome, m: Request)
    requires o.server.crashed
    ensures Filed(o, m).crashed
  {
  }

  lemma CallAlive(s: Server, i: nat, m: Request)
    requires i < |s.clients|
    ensures Call(s, i, m).server.crashed == s.crashed
  {
  }

  lemma GentleTransfers(s: Server, u: Server, o: Outcome, m: Request, rest: seq<Request>)
    requires Inv(s) && !s.crashed && s.methods == [m] + rest && u == s.(methods := rest)
    requires Gentle(u, o, m) && !o.server.crashed
    ensures Inv(o.server.(methods := [m] + rest)) && o.server.methods == rest
    ensures Core(o.request) == Core(m) && Answers(o.request, [])
  {
    hide ClientOk, CalmAll, HandlesOk, Answers, Locate;
    assert Queued(s.methods[0], s.clients);
    CalmKeeps(s, o.server.(methods := [m] + rest));
  }

  lemma ReturnKeeps(s: Server, u: Server, i: nat, m: Request, rest: seq<Request>)
    requires Inv(s) && !s.crashed && s.methods == [m] + rest && u == s.(methods := rest)
    requires m.kind == TYPE_COMMAND && m.destination == SERVER && i < |u.clients| && Answers(m, [])
    ensures var t := Filed(Return(u, i, m), m); Inv(t) && t.methods == rest
  {
    hide Inv, Return, Filed, Answers, Mbus, CompleteWait, ClientOk;
    var hit, j, k, code, payload := ReturnShape(u, i, m);
    if hit {
      InvClient(s, j);
      CompleteWaitOk(s.clients[j], k, code, payload, s.methods, s.clients);
      CompleteWaitFace(s.clients[j], k, code, payload);
      UpdateKeeps(s, j, CompleteWait(s.clients[j], k, code, payload));
    }
    assert Return(u, i, m).server.(methods := [m] + rest) == if hit then WithClient(s, j, CompleteWait(s.clients[j], k, code, payload)) else s;
    FiledKeeps(Return(u, i, m), m, rest);
  }

  /** An event is destroyed once it was sent. */
  lemma EventLeaves(s: Server, m: Request, rest: seq<Request>, cs: seq<Client>, i: nat)
    requires Inv(s) && !s.crashed && s.methods == [m] + rest && m.kind != TYPE_COMMAND
    requires CalmAll(s.clients, cs) && SameFaces(s.clients, cs) && Locate(s.clients, m.source) == Some(i)
    ensures Inv(s.(methods := rest, clients := cs))
  {
    hide Inv, ClientOk, CalmAll, Locate;
    var t := s.(clients := cs);
    CalmKeeps(s, t);
    CalmLocates(s.clients, cs, m.source);
    LocateIs(cs, m.source);
    InvClient(t, i);
    OthersUnmoved(cs[i], m, rest, cs);
    HeadLeaves(t, m, rest, i, cs[i]);
    assert cs[i := cs[i]] == cs;
  }

  lemma CrashedInv(t: Server)
    requires t.crashed
    ensures Inv(t) && HandleMethods(t) == t
  {
  }
}

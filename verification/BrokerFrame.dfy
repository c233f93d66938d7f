/** What a step of the broker leaves of every client's record, and where on the list the client is
    afterwards. */
module BrokerFrame {
  import opened Options
  import opened JsonText
  import opened JsonPath
  import opened Methods
  import opened BrokerState
  import opened BrokerCalm
  import opened BrokerEvents
  import opened BrokerInvariant
  import opened BrokerRun
  import opened BrokerReap
  import opened BrokerTheorems
  import opened BrokerSteps

  // ----- handling a method -----

  /** A client after a method, one of its own or of somebody else: it keeps handle and name, nobody closes
      it but by command, its misses stay, and its ping time is that of the ping it sent, if it sent one.
      Only a create request, of a client without a name, sets the rest of the ping record. */
  ghost predicate Tended(c: Client, d: Client, own: bool, heard: seq<Beat>) {
    && d.handle == c.handle
    && (c.identifier.Some? ==> d.identifier == c.identifier)
    && ((d.open == c.open && d.closeCode == c.closeCode) || (!d.open && d.closeCode == CloseCommand))
    && d.ping.missed == c.ping.missed
    && (d.ping == c.ping || d.identifier.Some?)
    && (!own || c.identifier.Some? ==>
          d.ping == if own && heard != [] then c.ping.(received := heard[0].now) else c.ping)
  }

  ghost predicate AllTended(s: Server, t: Server, i: nat, heard: seq<Beat>) {
    && t.nextHandle == s.nextHandle && t.zlib == s.zlib && |t.clients| == |s.clients|
    && forall k | 0 <= k < |s.clients| :: Tended(s.clients[k], t.clients[k], k == i, heard)
  }

  lemma OneTended(s: Server, j: nat, d: Client, i: nat)
    requires j < |s.clients| && Tended(s.clients[j], d, j == i, [])
    ensures AllTended(s, WithClient(s, j, d), i, []) && AllTended(s, s, i, [])
  {
  }

  /** A client whose queues, subscriptions and commands changed. */
  lemma SameTended(c: Client, d: Client, own: bool)
    requires d.handle == c.handle && d.identifier == c.identifier && d.ping == c.ping && d.open == c.open && d.closeCode == c.closeCode
    ensures Tended(c, d, own, [])
  {
  }

  lemma SamePings(cs: seq<Client>, source: string, destination: string, identifier: string, payload: Option<Json>, now: int)
    requires !(destination == SERVER && identifier == PING)
    ensures
      var ds := SendEvent(cs, Some(source), destination, identifier, payload, now);
      |ds| == |cs| && forall k | 0 <= k < |cs| :: ds[k].ping == cs[k].ping
  {
    hide Mbus, Find, Subscribed;
  }

  lemma SendEventTended(s: Server, i: nat, destination: string, identifier: string, payload: Option<Json>, now: int)
    requires i < |s.clients| && DistinctNames(s.clients)
    ensures AllTended(s, s.(clients := SendEvent(s.clients, s.clients[i].identifier, destination, identifier, payload, now)), i,
                      if destination == SERVER && identifier == PING then [Heard(now)] else [])
  {
    hide Mbus, Find, SendEvent, OnlyEvents;
    var cs, source := s.clients, s.clients[i].identifier;
    var ds := SendEvent(cs, source, destination, identifier, payload, now);
    SendEventOnly(cs, source, destination, identifier, payload, now);
    OnlyEventsKept(cs, ds);
    if source.None? {
      NothingSent(cs, source, destination, identifier, payload, now);
    } else if destination == SERVER && identifier == PING {
      NamesDiffer();
      PingUnfolds(cs, source.value, payload, now);
      SamePings(PingReceived(cs, source.value, now), SERVER, source.value, PONG, None, now);
    } else {
      SamePings(cs, source.value, destination, identifier, payload, now);
    }
  }

  lemma OnlyEventsKept(cs: seq<Client>, ds: seq<Client>)
    requires OnlyEvents(cs, ds)
    ensures |ds| == |cs| && forall k | 0 <= k < |cs| ::
      ds[k].handle == cs[k].handle && ds[k].identifier == cs[k].identifier && ds[k].open == cs[k].open
      && ds[k].closeCode == cs[k].closeCode && ds[k].waits == cs[k].waits && ds[k].results == cs[k].results
  {
    forall k | 0 <= k < |cs|
      ensures ds[k].handle == cs[k].handle && ds[k].identifier == cs[k].identifier && ds[k].open == cs[k].open
              && ds[k].closeCode == cs[k].closeCode && ds[k].waits == cs[k].waits && ds[k].results == cs[k].results
    {
      assert ds[k] == cs[k].(events := ds[k].events, esequence := ds[k].esequence, ping := ds[k].ping);
    }
  }

  /** The broker's own announcements. */
  lemma TellKept(cs: seq<Client>, event: string, payload: Json, now: int)
    ensures
      var ds := Tell(cs, event, payload, now);
      |ds| == |cs| && forall k | 0 <= k < |cs| ::
        ds[k].handle == cs[k].handle && ds[k].identifier == cs[k].identifier && ds[k].open == cs[k].open && ds[k].ping == cs[k].ping
        && ds[k].closeCode == cs[k].closeCode && ds[k].waits == cs[k].waits && ds[k].results == cs[k].results
  {
    hide Mbus, SendEvent, OnlyEvents;
    NamesDiffer();
    SendEventOnly(cs, Some(SERVER), SUBSCRIBERS, Mbus("server.event." + event), Some(payload), now);
    OnlyEventsKept(cs, Tell(cs, event, payload, now));
    SamePings(cs, SERVER, SUBSCRIBERS, Mbus("server.event." + event), Some(payload), now);
  }

  lemma AnnouncedTended(s: Server, i: nat, c: Client, event: string, payload: string -> Json, m: Request)
    requires i < |s.clients|
    requires var b := s.clients[i];
      c.handle == b.handle && c.identifier == b.identifier && c.ping == b.ping && c.open == b.open && c.closeCode == b.closeCode
    ensures AllTended(s, Announced(s, i, c, event, payload, m).server, i, [])
  {
    hide Tell;
    if c.identifier.Some? {
      TellKept(s.clients[i := c], event, payload(c.identifier.value), m.now);
    }
  }

  lemma ChangesTended(s: Server, i: nat, m: Request)
    requires i < |s.clients|
    ensures AllTended(s, Subscribe(s, i, m).server, i, []) && AllTended(s, Unsubscribe(s, i, m).server, i, [])
  {
    hide Announced, StringAt, AllTended;
    var c, source, event := s.clients[i], StringAt(Some(m.payload), "source"), StringAt(Some(m.payload), "event");
    SameTended(c, c, true);
    OneTended(s, i, c, i);
    if source.Some? && event.Some? {
      var sub := Subscription(source.value, event.value);
      AnnouncedTended(s, i, AddSubscription(c, sub), "subscribed", name => SubscriptionPayload(name, sub), m);
      AnnouncedTended(s, i, c.(subscriptions := Without(c.subscriptions, sub)), "unsubscribed",
                      name => SubscriptionPayload(name, sub), m);
    }
  }

  lemma CommandsTended(s: Server, i: nat, m: Request)
    requires i < |s.clients|
    ensures AllTended(s, Register(s, i, m).server, i, []) && AllTended(s, Unregister(s, i, m).server, i, [])
  {
    hide Announced, StringAt;
    var c, command := s.clients[i], StringAt(Some(m.payload), "command");
    SameTended(c, c, true);
    OneTended(s, i, c, i);
    if command.Some? {
      AnnouncedTended(s, i, AddCommand(c, command.value), "registered", name => CommandPayload(name, command.value), m);
      AnnouncedTended(s, i, c.(commands := Without(c.commands, command.value)), "unregistered",
                      name => CommandPayload(name, command.value), m);
    }
  }

  lemma SettingsKeepMisses(before: Ping, request: Option<Json>, now: int)
    ensures PingSettings(before, request, now).missed == before.missed
  {
    hide IntAt;
  }

  lemma CreateTended(s: Server, i: nat, m: Request)
    requires i < |s.clients|
    ensures AllTended(s, Create(s, i, m).server, i, [])
  {
    hide StringAt, LookUp, IntAt, Find, SetResultPayload, Mbus, Negotiate, CreatePayload, PingSettings;
    SettingsKeepMisses(s.clients[i].ping, LookUp(Some(m.payload), "ping"), m.now);
  }

  lemma QueryTended(s: Server, i: nat, m: Request)
    requires i < |s.clients|
    ensures AllTended(s, Query(s, m).server, i, []) && AllTended(s, Close(s, m).server, i, [])
  {
    hide StringAt, Find, SetResultPayload, Listed, Names, Mbus, AllTended;
    SameTended(s.clients[i], s.clients[i], true);
    OneTended(s, i, s.clients[i], i);
    QueryServer(s, m);
    ClosedTended(s, i, m);
  }

  lemma QueryServer(s: Server, m: Request)
    ensures Query(s, m).server == s
  {
    hide StringAt, Find, SetResultPayload, Listed, Names;
  }

  lemma ClosedTended(s: Server, i: nat, m: Request)
    requires i < |s.clients|
    ensures AllTended(s, Close(s, m).server, i, [])
  {
    hide StringAt, Find, Mbus, AllTended, Tended;
    var name := StringAt(Some(m.payload), "source");
    forall j | 0 <= j < |s.clients|
      ensures Tended(s.clients[j], Closed(s.clients[j], CloseCommand), j == i, [])
      ensures Tended(s.clients[j], s.clients[j], j == i, [])
    {
      ClosedIsTended(s.clients[j], j == i);
    }
    OneTended(s, i, s.clients[i], i);
    if name.Some? && Find(s.clients, name.value).Some? {
      OneTended(s, Find(s.clients, name.value).value, Closed(s.clients[Find(s.clients, name.value).value], CloseCommand), i);
    }
    StoppedTended(s, i);
  }

  lemma ClosedIsTended(c: Client, own: bool)
    ensures Tended(c, Closed(c, CloseCommand), own, []) && Tended(c, c, own, [])
  {
  }

  lemma StoppedTended(s: Server, i: nat)
    requires AllTended(s, s, i, [])
    ensures AllTended(s, s.(running := false), i, [])
  {
  }

  /** An event command is heard as a ping if that is what it asks for. */
  lemma PublishTended(s: Server, i: nat, m: Request)
    requires i < |s.clients| && DistinctNames(s.clients)
    requires m.kind == TYPE_COMMAND && m.destination == SERVER && m.identifier == "command.event"
    ensures AllTended(s, PublishEvent(s, i, m).server, i, if IsPing(m) then [Heard(m.now)] else [])
  {
    hide StringAt, LookUp, SendEvent, Mbus, DistinctNames, AllTended;
    var p := Some(m.payload);
    var destination, identifier, payload := StringAt(p, TAG_DESTINATION), StringAt(p, TAG_IDENTIFIER), LookUp(p, TAG_PAYLOAD);
    SameTended(s.clients[i], s.clients[i], true);
    OneTended(s, i, s.clients[i], i);
    if destination.Some? && identifier.Some? {
      SendEventTended(s, i, destination.value, identifier.value, payload, m.now);
    }
  }

  lemma ReturnTended(s: Server, i: nat, m: Request)
    requires i < |s.clients|
    ensures AllTended(s, Return(s, i, m).server, i, [])
  {
    hide Return, SetResultCode, SetResultPayload, AllTended;
    var hit, j, k, code, payload := ReturnShape(s, i, m);
    SameTended(s.clients[i], s.clients[i], true);
    OneTended(s, i, s.clients[i], i);
    if hit {
      SameTended(s.clients[j], CompleteWait(s.clients[j], k, code, payload), j == i);
      OneTended(s, j, CompleteWait(s.clients[j], k, code, payload), i);
    }
  }

  lemma CallTended(s: Server, i: nat, m: Request)
    requires i < |s.clients|
    ensures AllTended(s, Call(s, i, m).server, i, [])
  {
    hide Find, CreateResponse, AllTended;
    var j := Find(s.clients, m.destination);
    SameTended(s.clients[i], s.clients[i], true);
    OneTended(s, i, s.clients[i], i);
    if Call(s, i, m).rc == 0 {
      var n := CreateResponse(TYPE_COMMAND, s.clients[i].identifier, m.identifier, m.sequence, Some(m.payload));
      SameTended(s.clients[j.value], PushRequest(s.clients[j.value], n.value), j.value == i);
      OneTended(s, j.value, PushRequest(s.clients[j.value], n.value), i);
    }
  }

  lemma FiledTended(s: Server, o: Outcome, m: Request, i: nat, heard: seq<Beat>)
    requires AllTended(s, o.server, i, heard)
    ensures AllTended(s, Filed(o, m), i, heard)
  {
    hide SetResultCode, Mbus, Locate;
  }

  /** Commands to the broker but that for events. */
  lemma ServerCommandTended(s: Server, i: nat, m: Request)
    requires i < |s.clients| && m.identifier != "command.event"
    ensures AllTended(s, ServerCommand(s, i, m).server, i, [])
  {
    hide Create, Subscribe, Unsubscribe, Register, Unregister, Return, PublishEvent, Query, Close, AllTended;
    CreateTended(s, i, m);
    ChangesTended(s, i, m);
    CommandsTended(s, i, m);
    ReturnTended(s, i, m);
    QueryTended(s, i, m);
    SameTended(s.clients[i], s.clients[i], true);
    OneTended(s, i, s.clients[i], i);
  }

  lemma EventDispatch(s: Server, i: nat, m: Request)
    requires i < |s.clients| && m.identifier == "command.event"
    ensures ServerCommand(s, i, m) == PublishEvent(s, i, m)
  {
    hide Return, Create, Subscribe, Unsubscribe, Register, Unregister, PublishEvent;
    assert |m.identifier| == 13 && m.identifier[8] == 'e';
    assert |"command.create"| == 14;
  }

  lemma HandleTended(s: Server, m: Request, i: nat)
    requires DistinctNames(s.clients) && Locate(s.clients, m.source) == Some(i) && i < |s.clients|
    ensures AllTended(s, HandleMethod(s, m), i, HeardFrom(m, s.clients[i].handle))
  {
    hide ServerCommand, PublishEvent, Call, SendEvent, Filed, Locate, Mbus, DistinctNames, AllTended, StringAt, LookUp;
    LocateIs(s.clients, m.source);
    NamesDiffer();
    if m.kind == TYPE_COMMAND {
      var o := if m.destination == SERVER then ServerCommand(s, i, m) else Call(s, i, m);
      if m.destination != SERVER {
        CallTended(s, i, m);
      } else if m.identifier == "command.event" {
        EventDispatch(s, i, m);
        PublishTended(s, i, m);
      } else {
        ServerCommandTended(s, i, m);
      }
      FiledTended(s, o, m, i, HeardFrom(m, s.clients[i].handle));
    } else if m.kind == TYPE_EVENT {
      SendEventTended(s, i, m.destination, m.identifier, Some(m.payload), m.now);
    } else {
      SameTended(s.clients[i], s.clients[i], true);
      OneTended(s, i, s.clients[i], i);
    }
  }

  // ----- where a client is after a step -----

  /** The step does not take the i-th client off the list. */
  predicate Stays(x: Step, i: nat) {
    !(x.Bury? && x.place == i)
  }

  function PlaceAfter(x: Step, i: nat): nat {
    if x.Bury? && x.place < i then i - 1 else i
  }

  lemma ListAfterHandle(s: Server)
    requires Sound(s) && !s.crashed && s.methods != []
    ensures
      var m, u := s.methods[0], s.(methods := s.methods[1..]);
      var i := Locate(s.clients, m.source);
      i.Some? && i.value < |s.clients| && AllTended(u, Do(s, Handle), i.value, HeardFrom(m, s.clients[i.value].handle))
  {
    hide Alive, ClientOk, HandleMethod, AllTended, Locate, DistinctNames;
    QueuedHead(s);
    InvNames(s);
    LocateIs(s.clients, s.methods[0].source);
    HandleTended(s.(methods := s.methods[1..]), s.methods[0], Locate(s.clients, s.methods[0].source).value);
  }

  lemma ListAfterBury(s: Server, i: nat, now: int)
    requires i < |s.clients| && s.methods == []
    ensures
      var t := ReapOne(s, i, now);
      && t.nextHandle == s.nextHandle && t.zlib == s.zlib && |t.clients| == |s.clients| - 1
      && forall k | 0 <= k < |t.clients| ::
           var c, d := s.clients[if k < i then k else k + 1], t.clients[k];
           d.handle == c.handle && d.identifier == c.identifier && d.open == c.open && d.closeCode == c.closeCode && d.ping == c.ping
  {
    hide Left, Tell, ReapOne;
    ReapUnfolds(s, i, now);
    LeftFaces(s.clients, i);
    var c := s.clients[i];
    if c.connected && c.identifier.Some? {
      TellKept(Left(s.clients, i), "disconnected", Object([Member("source", String(c.identifier.value)),
               Member("reason", String(CloseReason(c.closeCode)))]), now);
    }
  }

  lemma ListAfterGreet(s: Server, i: nat, now: int)
    requires i < |s.clients|
    ensures
      var t := Welcome(s, i, now);
      && t.nextHandle == s.nextHandle && t.zlib == s.zlib && |t.clients| == |s.clients|
      && forall k | 0 <= k < |t.clients| ::
           var c, d := s.clients[k], t.clients[k];
           d.handle == c.handle && d.identifier == c.identifier && d.open == c.open && d.closeCode == c.closeCode && d.ping == c.ping
           && d.waits == c.waits && d.results == c.results
  {
    hide Tell;
    var c := s.clients[i];
    TellKept(s.clients[i := c.(connected := true)], "connected",
             Object([Member("source", String(if c.identifier.Some? then c.identifier.value else ""))]), now);
  }

  /** Everybody is where he was. */
  ghost predicate InPlace(s: Server, t: Server) {
    && t.nextHandle == s.nextHandle && t.zlib == s.zlib && |t.clients| == |s.clients|
    && forall k | 0 <= k < |s.clients| :: t.clients[k].handle == s.clients[k].handle
  }

  lemma InPlaceAfter(s: Server, x: Step)
    requires Sound(s) && Possible(s, x) && !x.Join? && !x.Bury?
    ensures InPlace(s, Do(s, x))
  {
    hide Inv, Alive, HandleMethod, PingCheck, EmitOne, Receive, Locate, Welcome, Tended, Mbus, CreateRequest;
    match x {
      case Handle =>
        ListAfterHandle(s);
        TendedHandles(s.(methods := s.methods[1..]), Do(s, Handle), Locate(s.clients, s.methods[0].source).value,
                      HeardFrom(s.methods[0], s.clients[Locate(s.clients, s.methods[0].source).value].handle));
      case CheckAll(now) =>
        forall c: Client ensures PingCheck(c, now).handle == c.handle { PingCheckCalm(c, now); }
      case EmitAll =>
        forall c: Client ensures EmitOne(c).handle == c.handle { EmitOneCalm(c); }
      case Greet(place, at) => ListAfterGreet(s, place, at);
      case Arrive(handle, arrival) => ReceiveHandles(s, Locate(s.clients, handle).value, arrival);
      case Drop(lost) =>
      case Mark =>
    }
  }

  lemma ReceiveHandles(s: Server, i: nat, a: Arrival)
    requires i < |s.clients|
    ensures InPlace(s, Receive(s, i, a).0)
  {
    hide CreateRequest, Mbus;
  }

  lemma TendedHandles(s: Server, t: Server, i: nat, heard: seq<Beat>)
    requires AllTended(s, t, i, heard)
    ensures InPlace(s, t)
  {
    forall k | 0 <= k < |s.clients| ensures t.clients[k].handle == s.clients[k].handle {
      assert Tended(s.clients[k], t.clients[k], k == i, heard);
    }
  }

  /** The client with the handle is on the list and stays there. */
  ghost predicate Remains(s: Server, x: Step, handle: nat) {
    exists i: nat :: i < |s.clients| && Stays(x, i) && s.clients[i].handle == handle
  }

  /** The step leaves a client, found in its new place, with the same handle; handles are not reused. */
  lemma StepPlaces(s: Server, x: Step)
    requires Sound(s) && Possible(s, x)
    ensures
      var t := Do(s, x);
      && t.nextHandle >= s.nextHandle && t.zlib == s.zlib
      && (forall i: nat | i < |s.clients| && Stays(x, i) ::
            PlaceAfter(x, i) < |t.clients| && t.clients[PlaceAfter(x, i)].handle == s.clients[i].handle)
      && (forall k: nat | k < |t.clients| :: t.clients[k].handle == s.nextHandle || Remains(s, x, t.clients[k].handle))
  {
    hide Sound, Do, Stays, Remains, ReapOne;
    var t := Do(s, x);
    if x.Bury? {
      BuryPlaces(s, x.place, x.at);
    } else if x.Join? {
      JoinPlaces(s);
    } else {
      InPlaceAfter(s, x);
      forall k: nat | k < |t.clients| ensures Stays(x, k) && Remains(s, x, t.clients[k].handle) {
        StaysRemains(s, x, k);
      }
    }
  }

  lemma StaysRemains(s: Server, x: Step, i: nat)
    requires i < |s.clients| && (x.Bury? ==> x.place != i)
    ensures Stays(x, i) && Remains(s, x, s.clients[i].handle)
  {
  }

  lemma BuryPlaces(s: Server, place: nat, at: int)
    requires place < |s.clients| && s.methods == []
    ensures
      var x := Bury(place, at);
      var t := Do(s, x);
      && t.nextHandle == s.nextHandle && t.zlib == s.zlib && |t.clients| == |s.clients| - 1
      && (forall i: nat | i < |s.clients| && Stays(x, i) ::
            PlaceAfter(x, i) < |t.clients| && t.clients[PlaceAfter(x, i)].handle == s.clients[i].handle)
      && (forall k: nat | k < |t.clients| :: Remains(s, x, t.clients[k].handle))
  {
    hide ReapOne, Remains;
    var x, t := Bury(place, at), ReapOne(s, place, at);
    BuriedHandles(s, place, at);
    forall i: nat | i < |s.clients| && Stays(x, i)
      ensures PlaceAfter(x, i) < |t.clients| && t.clients[PlaceAfter(x, i)].handle == s.clients[i].handle
    {
      var k := if i < place then i else i - 1;
      assert t.clients[k].handle == s.clients[if k < place then k else k + 1].handle;
    }
    forall k: nat | k < |s.clients| - 1 ensures Remains(s, x, t.clients[k].handle) {
      StaysRemains(s, x, if k < place then k else k + 1);
    }
  }

  lemma BuriedHandles(s: Server, place: nat, at: int)
    requires place < |s.clients| && s.methods == []
    ensures
      var t := ReapOne(s, place, at);
      && t.nextHandle == s.nextHandle && t.zlib == s.zlib && |t.clients| == |s.clients| - 1
      && forall k | 0 <= k < |t.clients| :: t.clients[k].handle == s.clients[if k < place then k else k + 1].handle
  {
    hide ReapOne;
    ListAfterBury(s, place, at);
  }

  lemma JoinPlaces(s: Server)
    ensures
      var t := Do(s, Join);
      && t.nextHandle >= s.nextHandle && t.zlib == s.zlib && |t.clients| == |s.clients| + 1
      && (forall i: nat | i < |s.clients| :: t.clients[i].handle == s.clients[i].handle && Stays(Join, i))
      && (forall k: nat | k < |t.clients| :: t.clients[k].handle == s.nextHandle || Remains(s, Join, t.clients[k].handle))
  {
    hide Remains;
    forall k: nat | k < |s.clients| ensures Remains(s, Join, s.clients[k].handle) { StaysRemains(s, Join, k); }
  }

  lemma LocateUnique(s: Server, k: nat)
    requires Inv(s) && !s.crashed && k < |s.clients|
    ensures Locate(s.clients, s.clients[k].handle) == Some(k)
  {
    hide ClientsOk, MethodsOk, Locate;
  }

  /** A client that is present stays so, or is taken off the list for good. */
  lemma StepLocates(s: Server, x: Step, h: nat, i: nat)
    requires Sound(s) && Possible(s, x) && Locate(s.clients, h) == Some(i) && !Do(s, x).crashed
    ensures i < |s.clients| && s.clients[i].handle == h && h < s.nextHandle
    ensures Locate(Do(s, x).clients, h) == if Stays(x, i) then Some(PlaceAfter(x, i)) else None
    ensures Stays(x, i) ==> PlaceAfter(x, i) < |Do(s, x).clients|
  {
    hide Inv, Alive, Do, Locate;
    StepKeeps(s, x);
    StepPlaces(s, x);
    LocateIs(s.clients, h);
    InvNames(s);
    SoundInv(Do(s, x));
    if Stays(x, i) {
      LocateUnique(Do(s, x), PlaceAfter(x, i));
    } else {
      NobodyElse(s, x, h, i);
    }
  }

  /** The one client with that handle goes. */
  lemma NobodyElse(s: Server, x: Step, h: nat, i: nat)
    requires Inv(s) && !s.crashed && Locate(s.clients, h) == Some(i) && !Stays(x, i)
    ensures !Remains(s, x, h)
  {
    hide Inv, Locate, Stays;
    if Remains(s, x, h) {
      var n: nat :| n < |s.clients| && Stays(x, n) && s.clients[n].handle == h;
      LocateUnique(s, n);
    }
  }

  lemma SoundInv(s: Server)
    requires Sound(s)
    ensures Inv(s)
  {
  }

  lemma StepGone(s: Server, x: Step, h: nat)
    requires Sound(s) && Possible(s, x) && Locate(s.clients, h).None? && h < s.nextHandle
    ensures Locate(Do(s, x).clients, h).None? && h < Do(s, x).nextHandle
  {
    hide Sound, Do, Locate, Possible;
    StepPlaces(s, x);
    assert forall n: nat | n < |s.clients| :: s.clients[n].handle != h;
    assert !Remains(s, x, h);
  }

  lemma {:induction false} PathGone(s: Server, steps: seq<Step>, h: nat)
    requires Sound(s) && Path(s, steps) && Locate(s.clients, h).None? && h < s.nextHandle
    ensures Locate(DoAll(s, steps).clients, h).None?
    decreases |steps|
  {
    hide Sound, Do, Locate, Possible;
    if steps != [] {
      StepKeeps(s, steps[0]);
      StepGone(s, steps[0], h);
      PathGone(Do(s, steps[0]), steps[1..], h);
    }
  }

  /** The client with that handle, if it is on the list. */
  function Present(s: Server, h: nat): Option<Client> {
    var i := Locate(s.clients, h);
    if i.None? then None else Some(s.clients[i.value])
  }

  lemma PresentAt(s: Server, h: nat)
    ensures Present(s, h).Some? <==> Locate(s.clients, h).Some?
    ensures Locate(s.clients, h).Some? ==>
      Locate(s.clients, h).value < |s.clients| && Present(s, h) == Some(s.clients[Locate(s.clients, h).value])
  {
    hide Locate;
  }
}

/** The broker of src/server/server.c as an object: lists of clients and methods that its functions
    change in place. Every method is proved against the function of the same step in BrokerState, so
    what is proved about those functions holds of this code. */
module Broker {
  import opened Options
  import opened Compress
  import opened JsonText
  import opened JsonPath
  import opened Methods
  import opened BrokerState
  import BC = BrokerCommands
  import opened BrokerCalm
  import opened BrokerPeer

  lemma FirstNamed(clients: seq<Client>, name: string, k: nat)
    requires k <= |clients| && (forall j | 0 <= j < k :: clients[j].identifier != Some(name))
    requires k < |clients| ==> clients[k].identifier == Some(name)
    ensures Find(clients, name) == if k == |clients| then None else Some(k)
  {
    hide Find;
    var r := Find(clients, name);
  }

  lemma FirstLocated(clients: seq<Client>, handle: nat, k: nat)
    requires k <= |clients| && (forall j | 0 <= j < k :: clients[j].handle != handle)
    requires k < |clients| ==> clients[k].handle == handle
    ensures Locate(clients, handle) == if k == |clients| then None else Some(k)
    decreases k
  {
    if k > 0 {
      FirstLocated(clients[1..], handle, k - 1);
    }
  }

  class Server {
    var clients: seq<Peer>
    var methods: seq<Request>
    var running: bool
    var crashed: bool
    var nextHandle: nat
    const password: Option<string>
    const zlib: bool
    /** The abstract state, kept up to date by every method. */
    ghost var state: BrokerState.Server

    ghost predicate Shows(views: seq<Client>)
      reads this, clients
    {
      |views| == |clients| && forall i | 0 <= i < |clients| :: clients[i].View() == views[i]
    }

    ghost predicate Apart()
      reads this
    {
      forall i, j | 0 <= i < j < |clients| :: clients[i] != clients[j]
    }

    ghost predicate Valid()
      reads this, clients
    {
      Apart() && Shows(state.clients)
      && state == BrokerState.Server(state.clients, methods, running, crashed, password, zlib, nextHandle, state.announcements)
    }

    constructor (password: Option<string>, zlib: bool)
      ensures Valid() && state == BrokerState.Start(password, zlib) && clients == []
    {
      this.password, this.zlib := password, zlib;
      clients, methods, running, crashed, nextHandle := [], [], true, false, 0;
      state := BrokerState.Start(password, zlib);
    }

    // ----- finding clients -----

    method FindByIdentifier(name: string) returns (k: nat)
      requires Valid()
      ensures k <= |clients|
      ensures Find(state.clients, name) == if k == |clients| then None else Some(k)
    {
      hide Find;
      k := 0;
      while k < |clients| && clients[k].identifier != Some(name)
        invariant 0 <= k <= |clients|
        invariant forall j | 0 <= j < k :: state.clients[j].identifier != Some(name)
      {
        assert clients[k].View() == state.clients[k];
        k := k + 1;
      }
      assert k < |clients| ==> clients[k].View() == state.clients[k];
      FirstNamed(state.clients, name, k);
    }

    /** The client a method came from. */
    method SourceOf(m: Request) returns (k: nat)
      requires Valid()
      ensures k <= |clients|
      ensures Locate(state.clients, m.source) == if k == |clients| then None else Some(k)
    {
      k := PositionOf(m.source);
    }

    method PositionOf(handle: nat) returns (k: nat)
      requires Valid()
      ensures k <= |clients|
      ensures Locate(state.clients, handle) == if k == |clients| then None else Some(k)
    {
      hide Locate;
      k := 0;
      while k < |clients| && clients[k].handle != handle
        invariant 0 <= k <= |clients|
        invariant forall j | 0 <= j < k :: state.clients[j].handle != handle
      {
        assert clients[k].View() == state.clients[k];
        k := k + 1;
      }
      assert k < |clients| ==> clients[k].View() == state.clients[k];
      FirstLocated(state.clients, handle, k);
    }

    // ----- server_send_event_to -----

    method SendToEveryone(source: string, identifier: string, payload: Json)
      requires Valid()
      modifies `state, clients
      ensures Valid() && state == old(state).(clients := ToEveryone(old(state).clients, source, identifier, payload))
    {
      hide PushEvent, Peer.View;
      ghost var before := state;
      ghost var views := ToEveryone(state.clients, source, identifier, payload);
      for k := 0 to |clients|
        invariant state == before && |before.clients| == |clients| == |views|
        invariant forall j | 0 <= j < |clients| :: clients[j].View() == if j < k then views[j] else before.clients[j]
      {
        var client := clients[k];
        client.Fields();
        if client.identifier.Some? && client.identifier.value != source {
          client.Deliver(source, identifier, payload);
        }
      }
      state := state.(clients := views);
    }

    method SendToSubscribers(source: string, identifier: string, payload: Json)
      requires Valid()
      modifies `state, clients
      ensures Valid() && state == old(state).(clients := ToSubscribers(old(state).clients, source, identifier, payload))
    {
      hide PushEvent, Subscribed, Peer.View;
      ghost var before := state;
      ghost var views := ToSubscribers(state.clients, source, identifier, payload);
      for k := 0 to |clients|
        invariant state == before && |before.clients| == |clients| == |views|
        invariant forall j | 0 <= j < |clients| :: clients[j].View() == if j < k then views[j] else before.clients[j]
      {
        assert clients[k].View() == before.clients[k];
        clients[k].DeliverIfSubscribed(source, identifier, payload);
      }
      state := state.(clients := views);
    }

    method SendToOne(source: string, destination: string, identifier: string, payload: Json)
      requires Valid()
      modifies `state, clients
      ensures Valid() && state == old(state).(clients := ToOne(old(state).clients, source, destination, identifier, payload))
    {
      hide PushEvent, Find;
      var k := FindByIdentifier(destination);
      if k < |clients| {
        assert clients[k].View() == state.clients[k];
        clients[k].Deliver(source, identifier, payload);
        state := state.(clients := state.clients[k := clients[k].View()]);
      }
    }

    method SendEventTo(source: Option<string>, destination: string, identifier: string, payload: Option<Json>, now: int)
      requires Valid()
      modifies `state, clients
      ensures Valid()
      ensures state == old(state).(clients := SendEvent(old(state).clients, source, destination, identifier, payload, now))
      decreases identifier == PING
    {
      hide Mbus, Find, ToEveryone, ToSubscribers, ToOne, Peer.View, Shows, Apart;
      NamesDiffer();
      if source.None? {
        return;
      }
      var data := if payload.None? then Object([]) else payload.value;
      if destination == SERVER {
        if identifier == PING {
          var k := FindByIdentifier(source.value);
          if k < |clients| {
            NotePing(k, now);
          }
          SendEventTo(Some(SERVER), source.value, PONG, None, now);
        }
      } else if destination == EVERYONE {
        SendToEveryone(source.value, identifier, data);
      } else if destination == SUBSCRIBERS {
        SendToSubscribers(source.value, identifier, data);
      } else {
        SendToOne(source.value, destination, identifier, data);
      }
    }

    method NotePing(k: nat, now: int)
      requires Valid() && k < |clients|
      modifies `state, clients
      ensures Valid() && state == WithClient(old(state), k, old(state).clients[k].(ping := old(state).clients[k].ping.(received := now)))
    {
      var client := clients[k];
      assert client.View() == state.clients[k];
      client.ping := client.ping.(received := now);
      state := WithClient(state, k, client.View());
    }

    // ----- commands addressed to the server -----

    /** The client at position k was changed by one of its own methods. */
    ghost method Record(k: nat)
      requires k < |clients| && Apart() && |state.clients| == |clients|
      requires forall i | 0 <= i < |clients| && i != k :: clients[i].View() == state.clients[i]
      requires state == BrokerState.Server(state.clients, methods, running, crashed, password, zlib, nextHandle, state.announcements)
      modifies `state
      ensures Valid() && state == WithClient(old(state), k, clients[k].View())
    {
      state := WithClient(state, k, clients[k].View());
    }

    /** The loops over the broker's compression methods and the client's offers. */
    method PickCompression(compressions: Option<Json>) returns (c: Compression)
      ensures c == Negotiate(zlib, compressions)
    {
      var known := if zlib then [Zlib, Uncompressed] else [Uncompressed];
      var offers := if compressions.Some? && compressions.value.Array? then compressions.value.items else [];
      var i := 0;
      while i < |known|
        invariant 0 <= i <= |known| && forall k | 0 <= k < i :: String(CompressionName(known[k])) !in offers
      {
        var j := 0;
        while j < |offers| && offers[j] != String(CompressionName(known[i]))
          invariant 0 <= j <= |offers| && String(CompressionName(known[i])) !in offers[..j]
        {
          j := j + 1;
        }
        if j < |offers| {
          assert known[i] == Zlib ==> zlib && offers[j] == String("zlib");
          assert i == 1 ==> String(CompressionName(known[0])) !in offers;
          return known[i];
        }
        i := i + 1;
      }
      assert zlib ==> String(CompressionName(known[0])) !in offers;
      return Uncompressed;
    }

    method HandleCreate(k: nat, m: Request) returns (rc: int, r: Request)
      requires Valid() && k < |clients|
      modifies `state, clients
      ensures Valid() && Outcome(state, rc, r) == Create(old(state), k, m)
    {
      hide Create, Find, StringAt, LookUp, SetResultPayload, Mbus, PingSettings, Negotiate, CreatePayload;
      var client, payload := clients[k], Some(m.payload);
      CreateCases(state, k, m);
      assert client.View() == state.clients[k];
      if client.identifier.Some? {
        return -1, m;
      }
      var name := StringAt(payload, "identifier");
      if name.None? || name.value == "" {
        name := Some(m.draw);
      }
      var other := FindByIdentifier(name.value);
      if other < |clients| {
        return -1, m;
      }
      rc, r := AdmitClient(k, name.value, m);
    }

    method AdmitClient(k: nat, name: string, m: Request) returns (rc: int, r: Request)
      requires Valid() && k < |clients| && clients[k].identifier.None?
      requires Find(state.clients, name).None? && name == BC.NameFor(m)
      modifies `state, clients
      ensures Valid() && Outcome(state, rc, r) == Create(old(state), k, m)
    {
      hide Create, Find, StringAt, LookUp, SetResultPayload, Mbus, PingSettings, Negotiate, CreatePayload, BC.NameFor, Peer.View;
      var client, payload := clients[k], Some(m.payload);
      CreateCases(state, k, m);
      client.Fields();
      var codec := PickCompression(LookUp(payload, "compressions"));
      var admitted := client.Admit(name, payload, password, codec, m.now);
      client.Fields();
      Record(k);
      rc, r := -1, m;
      if admitted {
        rc, r := 0, SetResultPayload(m, Some(CreatePayload(name, client.compression, client.ping)));
      }
    }

    /** An event of the broker's own, to the subscribers. */
    method TellSubscribers(event: string, payload: Json, now: int)
      requires Valid()
      modifies `state, clients
      ensures Valid() && state == old(state).(clients := Tell(old(state).clients, event, payload, now))
    {
      hide SendEvent, Mbus;
      SendEventTo(Some(SERVER), SUBSCRIBERS, Mbus("server.event." + event), Some(payload), now);
    }

    method HandleSubscribe(k: nat, m: Request) returns (rc: int)
      requires Valid() && k < |clients|
      modifies `state, clients
      ensures Valid() && Outcome(state, rc, m) == Subscribe(old(state), k, m)
    {
      hide StringAt, Tell, Peer.View, BrokerState.AddSubscription, SubscriptionPayload;
      var source, event := StringAt(Some(m.payload), "source"), StringAt(Some(m.payload), "event");
      if source.None? || event.None? {
        return -1;
      }
      clients[k].AddSubscription(Subscription(source.value, event.value));
      Record(k);
      rc := AnnounceSubscription(k, "subscribed", Subscription(source.value, event.value), m.now);
    }

    method HandleUnsubscribe(k: nat, m: Request) returns (rc: int)
      requires Valid() && k < |clients|
      modifies `state, clients
      ensures Valid() && Outcome(state, rc, m) == Unsubscribe(old(state), k, m)
    {
      hide StringAt, Tell, Peer.View, Without, SubscriptionPayload;
      var source, event := StringAt(Some(m.payload), "source"), StringAt(Some(m.payload), "event");
      if source.None? || event.None? {
        return -1;
      }
      clients[k].Fields();
      rc := clients[k].DeleteSubscription(Subscription(source.value, event.value));
      if rc != 0 {
        return -1;
      }
      Record(k);
      rc := AnnounceSubscription(k, "unsubscribed", Subscription(source.value, event.value), m.now);
    }

    /** server_send_event_subscribed and server_send_event_unsubscribed */
    method AnnounceSubscription(k: nat, event: string, subscription: Subscription, now: int) returns (rc: int)
      requires Valid() && k < |clients|
      modifies `state, clients
      ensures Valid()
      ensures
        var name := old(state).clients[k].identifier;
        if name.None? then rc == -1 && state == old(state)
        else rc == 0 && state == old(state).(
          clients := Tell(old(state).clients, event, SubscriptionPayload(name.value, subscription), now))
    {
      hide Tell, Peer.View;
      clients[k].Fields();
      var name := clients[k].identifier;
      if name.None? {
        return -1;
      }
      TellSubscribers(event, SubscriptionPayload(name.value, subscription), now);
      return 0;
    }

    method HandleRegister(k: nat, m: Request) returns (rc: int)
      requires Valid() && k < |clients|
      modifies `state, clients
      ensures Valid() && Outcome(state, rc, m) == Register(old(state), k, m)
    {
      hide StringAt, Tell, Peer.View, BrokerState.AddCommand, CommandPayload;
      var command := StringAt(Some(m.payload), "command");
      if command.None? {
        return -1;
      }
      clients[k].AddCommand(command.value);
      Record(k);
      rc := AnnounceCommand(k, "registered", command.value, m.now);
    }

    method HandleUnregister(k: nat, m: Request) returns (rc: int)
      requires Valid() && k < |clients|
      modifies `state, `crashed, clients
      ensures Valid() && Outcome(state, rc, m) == Unregister(old(state), k, m)
    {
      hide StringAt, Tell, Peer.View, Without, CommandPayload;
      var command := StringAt(Some(m.payload), "command");
      if command.None? {
        return -1;
      }
      clients[k].Fields();
      var found := clients[k].DeleteCommand(command.value);
      if !found {
        crashed := true;
        state := state.(crashed := true);
        return -1;
      }
      Record(k);
      rc := AnnounceCommand(k, "unregistered", command.value, m.now);
    }

    /** server_send_event_registered and server_send_event_unregistered */
    method AnnounceCommand(k: nat, event: string, command: string, now: int) returns (rc: int)
      requires Valid() && k < |clients|
      modifies `state, clients
      ensures Valid()
      ensures
        var name := old(state).clients[k].identifier;
        if name.None? then rc == -1 && state == old(state)
        else rc == 0 && state == old(state).(
          clients := Tell(old(state).clients, event, CommandPayload(name.value, command), now))
    {
      hide Tell, Peer.View;
      clients[k].Fields();
      var name := clients[k].identifier;
      if name.None? {
        return -1;
      }
      TellSubscribers(event, CommandPayload(name.value, command), now);
      return 0;
    }

    method HandleEvent(k: nat, m: Request) returns (rc: int)
      requires Valid() && k < |clients|
      modifies `state, clients
      ensures Valid() && Outcome(state, rc, m) == PublishEvent(old(state), k, m)
    {
      hide StringAt, LookUp, SendEvent, Mbus, Peer.View;
      var p := Some(m.payload);
      var destination, identifier, payload := StringAt(p, TAG_DESTINATION), StringAt(p, TAG_IDENTIFIER), LookUp(p, TAG_PAYLOAD);
      if destination.None? || identifier.None? || payload.None? {
        return -1;
      }
      clients[k].Fields();
      SendEventTo(clients[k].identifier, destination.value, identifier.value, payload, m.now);
      return 0;
    }

    method HandleClose(m: Request) returns (rc: int)
      requires Valid()
      modifies `state, `running, clients
      ensures Valid() && Outcome(state, rc, m) == Close(old(state), m)
    {
      hide StringAt, Find, Mbus, Closed, Peer.View;
      var name := StringAt(Some(m.payload), "source");
      if name.None? {
        return -1;
      }
      if name.value == SERVER {
        running := false;
        state := state.(running := false);
        return 0;
      }
      var k := FindByIdentifier(name.value);
      if k == |clients| {
        return -1;
      }
      clients[k].CloseConnection(CloseCommand);
      Record(k);
      return 0;
    }

    /** The status, client and clients queries. */
    method HandleQuery(m: Request) returns (rc: int, r: Request)
      requires Valid()
      ensures Outcome(state, rc, r) == Query(state, m)
    {
      hide StringAt, Find, Listed, Names, SetResultPayload, Peer.View;
      var listed := [];
      if m.identifier == "command.status" {
        for k := 0 to |clients|
          invariant |listed| == k && forall j | 0 <= j < k :: listed[j] == Object(Listed(state.clients[j]))
        {
          var members := clients[k].List();
          listed := listed + [Object(members)];
        }
        assert listed == StatusList(state.clients);
        return 0, SetResultPayload(m, Some(Array(listed)));
      }
      if m.identifier == "command.clients" {
        listed := ListNames();
        return 0, SetResultPayload(m, Some(Array(listed)));
      }
      var name := StringAt(Some(m.payload), "source");
      if name.None? {
        return -1, m;
      }
      var k := FindByIdentifier(name.value);
      if k == |clients| {
        return -1, m;
      }
      var members := clients[k].List();
      return 0, SetResultPayload(m, Some(Object(members)));
    }

    method ListNames() returns (listed: seq<Json>)
      requires Valid()
      ensures listed == Names(state.clients)
    {
      hide Peer.View, Names;
      listed := [];
      NoNames();
      assert state.clients[..0] == [];
      for k := 0 to |clients|
        invariant listed == Names(state.clients[..k])
      {
        clients[k].Fields();
        NamesGrow(state.clients, k);
        if clients[k].identifier.None? {
          continue;
        }
        listed := listed + [String(clients[k].identifier.value)];
      }
      assert state.clients[..|clients|] == state.clients;
    }

    // ----- calls and results -----

    method HandleCall(k: nat, m: Request) returns (rc: int)
      requires Valid() && k < |clients|
      modifies `state, clients
      ensures Valid() && Outcome(state, rc, m) == Call(old(state), k, m)
    {
      hide Find, CreateResponse, BrokerState.PushRequest, Peer.View;
      var j := FindByIdentifier(m.destination);
      if j == |clients| {
        return -1;
      }
      var n := 0;
      while n < |clients[j].commands| && clients[j].commands[n] != m.identifier
        invariant 0 <= n <= |clients[j].commands| && m.identifier !in clients[j].commands[..n]
      {
        n := n + 1;
      }
      clients[j].Fields();
      if n == |clients[j].commands| {
        return -1;
      }
      clients[k].Fields();
      var request := CreateResponse(TYPE_COMMAND, clients[k].identifier, m.identifier, m.sequence, Some(m.payload));
      if request.None? {
        return -1;
      }
      clients[j].PushRequest(request.value);
      Record(j);
      return 0;
    }

    method HandleResult(k: nat, m: Request) returns (rc: int)
      requires Valid() && k < |clients|
      modifies `state, clients
      ensures Valid() && Outcome(state, rc, m) == Return(old(state), k, m)
    {
      hide StringAt, IntAt, LookUp, Find, FindWait, CompleteWait, Mbus, Peer.View;
      var p := Some(m.payload);
      clients[k].Fields();
      var source := clients[k].identifier;
      if source.None? {
        return -1;
      }
      var destination, identifier := StringAt(p, TAG_DESTINATION), StringAt(p, TAG_IDENTIFIER);
      if destination.None? || identifier.None? {
        return -1;
      }
      var sequence := IntAt(p, TAG_SEQUENCE, -1);
      if sequence < START || sequence >= END {
        return -1;
      }
      CompleteAt(source.value, destination.value, identifier.value, sequence, IntAt(p, TAG_STATUS, -1), LookUp(p, TAG_PAYLOAD));
      return 0;
    }

    method CompleteAt(source: string, destination: string, identifier: string, sequence: int, code: int, payload: Option<Json>)
      requires Valid()
      modifies `state, clients
      ensures Valid()
      ensures
        var s, j := old(state), Find(old(state).clients, destination);
        if j.None? || FindWait(s.clients[j.value].waits, source, identifier, sequence).None? then state == s
        else state == WithClient(s, j.value, CompleteWait(s.clients[j.value],
                        FindWait(s.clients[j.value].waits, source, identifier, sequence).value, code, payload))
    {
      hide Find, FindWait, CompleteWait, Peer.View;
      var j := FindByIdentifier(destination);
      if j < |clients| {
        clients[j].Fields();
        clients[j].CompleteFirst(source, identifier, sequence, code, payload);
        Record(j);
        assert old(state).clients[j := old(state).clients[j]] == old(state).clients;
      }
    }

    // ----- server_handle_methods -----

    method HandleServerCommand(k: nat, m: Request) returns (rc: int, r: Request)
      requires Valid() && k < |clients|
      modifies `state, `running, `crashed, clients
      ensures Valid() && Outcome(state, rc, r) == ServerCommand(old(state), k, m)
    {
      hide Create, Subscribe, Unsubscribe, Register, Unregister, Return, PublishEvent, Query, Close, Shows, Apart;
      rc, r := -1, m;
      if m.identifier == "command.create" {
        rc, r := HandleCreate(k, m);
      } else if m.identifier == "command.subscribe" {
        rc := HandleSubscribe(k, m);
      } else if m.identifier == "command.unsubscribe" {
        rc := HandleUnsubscribe(k, m);
      } else if m.identifier == "command.register" {
        rc := HandleRegister(k, m);
      } else if m.identifier == "command.unregister" {
        rc := HandleUnregister(k, m);
      } else if m.identifier == "command.result" {
        rc := HandleResult(k, m);
      } else if m.identifier == "command.event" {
        rc := HandleEvent(k, m);
      } else if m.identifier == "command.status" || m.identifier == "command.client" || m.identifier == "command.clients" {
        rc, r := HandleQuery(m);
      } else if m.identifier == "command.close" {
        rc := HandleClose(m);
      }
    }

    /** A handled command is pushed to the results or to the waits of its source. */
    method File(k: nat, m: Request, rc: int, r: Request)
      requires Valid() && k < |clients| && Locate(state.clients, m.source) == Some(k) && !crashed
      modifies `state, clients
      ensures Valid() && state == Filed(Outcome(old(state), rc, r), m)
    {
      hide SetResultCode, Locate, Mbus, Peer.View, BrokerState.PushResult, BrokerState.PushWait;
      clients[k].Fields();
      if m.destination == SERVER || rc != 0 {
        clients[k].PushResult(SetResultCode(r, rc));
      } else {
        clients[k].PushWait(r);
      }
      Record(k);
    }

    /** One turn of the loop of server_handle_methods. */
    method Handle(m: Request)
      requires Valid()
      modifies `state, `running, `crashed, clients
      ensures Valid() && state == HandleMethod(old(state), m)
    {
      hide ServerCommand, Call, SendEvent, Locate, Filed, Mbus, Peer.View;
      var k := SourceOf(m);
      if k == |clients| {
        crashed := true;
        state := state.(crashed := true);
        return;
      }
      if m.kind == TYPE_COMMAND {
        HandleCommand(k, m);
      } else if m.kind == TYPE_EVENT {
        clients[k].Fields();
        SendEventTo(clients[k].identifier, m.destination, m.identifier, Some(m.payload), m.now);
      }
    }

    method HandleCommand(k: nat, m: Request)
      requires Valid() && k < |clients| && Locate(state.clients, m.source) == Some(k)
      modifies `state, `running, `crashed, clients
      ensures Valid()
      ensures state == Filed(if m.destination == SERVER then ServerCommand(old(state), k, m) else Call(old(state), k, m), m)
    {
      hide ServerCommand, Call, Locate, Filed, Mbus, Peer.View;
      Handles();
      var rc, r := -1, m;
      if m.destination == SERVER {
        rc, r := HandleServerCommand(k, m);
      } else {
        rc := HandleCall(k, m);
      }
      if crashed {
        CrashedFiled(Outcome(state, rc, r), m);
        return;
      }
      Handles();
      LocateSame(old(state).clients, state.clients, m.source);
      File(k, m, rc, r);
    }

    /** The handles of the list, which nobody changes. */
    lemma Handles()
      requires Valid()
      ensures forall i | 0 <= i < |clients| :: state.clients[i].handle == clients[i].handle
    {
      forall i | 0 <= i < |clients| ensures clients[i].handle == state.clients[i].handle { clients[i].Fields(); }
    }

    method HandleMethods()
      requires Valid()
      modifies `state, `running, `crashed, `methods, clients
      ensures Valid() && state == BrokerState.HandleMethods(old(state))
    {
      hide HandleMethod, Peer.View;
      while methods != [] && !crashed
        invariant Valid() && BrokerState.HandleMethods(state) == BrokerState.HandleMethods(old(state))
        decreases |methods|
      {
        ghost var before := state;
        var m := methods[0];
        methods := methods[1..];
        state := state.(methods := methods);
        Handle(m);
        HandleUnfolds(before, m);
      }
    }

    // ----- the steps of a turn -----

    method CheckPings(now: int)
      requires Valid()
      modifies `state, clients
      ensures Valid() && state == BrokerState.CheckPings(old(state), now)
    {
      hide PingCheck, Peer.View;
      ghost var before := state;
      ghost var views := BrokerState.CheckPings(state, now).clients;
      for k := 0 to |clients|
        invariant state == before && |before.clients| == |clients| == |views|
        invariant forall j | 0 <= j < |clients| :: clients[j].View() == if j < k then views[j] else before.clients[j]
      {
        clients[k].CheckPing(now);
      }
      state := state.(clients := views);
    }

    /** At most one message per client is put into its output buffer. */
    method Emit()
      requires Valid()
      modifies `state, clients
      ensures Valid() && state == BrokerState.Emit(old(state))
    {
      hide EmitOne, Peer.View;
      ghost var before := state;
      ghost var views := BrokerState.Emit(state).clients;
      for k := 0 to |clients|
        invariant state == before && |before.clients| == |clients| == |views|
        invariant forall j | 0 <= j < |clients| :: clients[j].View() == if j < k then views[j] else before.clients[j]
      {
        clients[k].Emit();
      }
      state := state.(clients := views);
    }

    /** server_client_connection_establish */
    method Establish()
      requires Valid()
      modifies `state, `clients, `nextHandle
      ensures Valid() && state == Accept(old(state)) && |clients| == |old(clients)| + 1
      ensures clients[..|old(clients)|] == old(clients) && fresh(clients[|old(clients)|])
    {
      hide Peer.View, NewClient;
      var client := new Peer(nextHandle);
      clients := clients + [client];
      nextHandle := nextHandle + 1;
      state := Accept(state);
    }

    /** A read or write on the connection of a client failed. */
    method Disconnect(handle: nat)
      requires Valid()
      modifies `state, clients
      ensures Valid() && state == Lose(old(state), handle)
    {
      hide Locate, Closed, Peer.View;
      var k := PositionOf(handle);
      if k < |clients| {
        clients[k].CloseConnection(ConnectionClosed);
        Record(k);
      }
    }

    /** server_handle_method: false stops the decode loop of the client. */
    method ReceiveMessage(k: nat, a: Arrival) returns (ok: bool)
      requires Valid() && k < |clients|
      modifies `state, `methods, clients
      ensures Valid() && (state, ok) == Receive(old(state), k, a)
    {
      hide CreateRequest, Closed, Peer.View, Mbus;
      clients[k].Fields();
      var m := CreateRequest(clients[k].handle, a.text, a.now, a.draw);
      ok := m.Some? && m.value.kind in {TYPE_COMMAND, TYPE_EVENT};
      if !ok {
        clients[k].CloseConnection(InternalError);
        Record(k);
        return;
      }
      Enqueue(k, m.value);
    }

    /** server_handle_method_command and server_handle_method_event */
    method Enqueue(k: nat, m: Request)
      requires Valid() && k < |clients|
      modifies `state, `methods, clients
      ensures Valid()
      ensures
        var s, c := old(state), old(state).clients[k];
        state == WithClient(s, k, if m.kind == TYPE_COMMAND then c.(log := c.log + [m]) else c).(methods := s.methods + [m])
    {
      hide Peer.View, Mbus;
      clients[k].Fields();
      if m.kind == TYPE_COMMAND {
        clients[k].Log(m);
        Record(k);
      } else {
        assert state.clients[k := state.clients[k]] == state.clients;
      }
      methods := methods + [m];
      state := state.(methods := methods);
    }

    method ReceiveMessages(k: nat, arrivals: seq<Arrival>)
      requires Valid() && k < |clients|
      modifies `state, `methods, clients
      ensures Valid() && state == ReceiveAll(old(state), k, arrivals)
    {
      hide Receive, Peer.View;
      var n := 0;
      while n < |arrivals|
        invariant 0 <= n <= |arrivals| && Valid()
        invariant ReceiveAll(state, k, arrivals[n..]) == ReceiveAll(old(state), k, arrivals)
      {
        ReceiveUnfolds(state, k, arrivals[n..], arrivals[n + 1..]);
        var ok := ReceiveMessage(k, arrivals[n]);
        n := n + 1;
        if !ok {
          break;
        }
      }
      assert arrivals[|arrivals|..] == [];
    }

    method MarkAccepted()
      requires Valid()
      modifies `state, clients
      ensures Valid() && state == AcceptAll(old(state))
    {
      hide Peer.View;
      ghost var before := state;
      ghost var views := AcceptAll(state).clients;
      for k := 0 to |clients|
        invariant state == before && |before.clients| == |clients| == |views|
        invariant forall j | 0 <= j < |clients| :: clients[j].View() == if j < k then views[j] else before.clients[j]
      {
        clients[k].Fields();
        clients[k].SetAccepted();
      }
      state := state.(clients := views);
    }

    method AnnounceOne(k: nat, now: int)
      requires Valid() && k < |clients|
      modifies `state, clients
      ensures Valid() && state == Welcome(old(state), k, now)
    {
      hide Tell, Peer.View;
      var client := clients[k];
      client.Fields();
      if !client.open || client.identifier.None? || !client.accepted || client.connected {
        return;
      }
      var name := client.identifier.value;
      client.SetConnected();
      Record(k);
      TellSubscribers("connected", Object([Member("source", String(name))]), now);
      Announce(name, true);
    }

    /** The history of announcements. */
    ghost method Announce(name: string, up: bool)
      requires Valid()
      modifies `state
      ensures Valid() && state == old(state).(announcements := old(state).announcements + [Announcement(name, up)])
    {
      hide Peer.View;
      state := state.(announcements := state.announcements + [Announcement(name, up)]);
    }

    method AnnounceConnected(now: int)
      requires Valid()
      modifies `state, clients
      ensures Valid() && state == WelcomeFrom(old(state), 0, now)
    {
      hide Welcome, Peer.View, Shows, Apart;
      Length();
      for k := 0 to |clients|
        invariant Valid() && |state.clients| == |clients|
        invariant WelcomeFrom(state, k, now) == WelcomeFrom(old(state), 0, now)
      {
        ghost var before := state;
        AnnounceOne(k, now);
        Length();
        WelcomeUnfolds(before, k, now);
      }
    }

    lemma Length()
      requires Valid()
      ensures |state.clients| == |clients|
    {
    }

    // ----- reaping -----

    method AnswerAll(name: Option<string>)
      requires Valid()
      modifies `state, clients
      ensures Valid() && state == old(state).(clients := BereaveAll(old(state).clients, name))
    {
      hide Bereave, Peer.View;
      ghost var before := state;
      ghost var views := BereaveAll(state.clients, name);
      for k := 0 to |clients|
        invariant state == before && |before.clients| == |clients| == |views|
        invariant forall j | 0 <= j < |clients| :: clients[j].View() == if j < k then views[j] else before.clients[j]
      {
        clients[k].AnswerOrphans(name);
      }
      state := state.(clients := views);
    }

    /** The methods of a client that leaves are dropped, but for events. */
    method DropMethodsOf(handle: nat)
      requires Valid()
      modifies `state, `methods
      ensures Valid() && state == old(state).(methods := DropCommands(old(state).methods, handle))
    {
      hide DropCommands, Mbus;
      NothingDropped(handle);
      var k := 0;
      ghost var kept := [];
      while k < |methods|
        invariant 0 <= k <= |methods| && kept == methods[..k]
        invariant DropCommands(old(methods), handle) == kept + DropCommands(methods[k..], handle)
        modifies `methods
        decreases |methods| - k
      {
        var rest := methods[k + 1..];
        DropStep(methods[k..], handle, rest);
        if methods[k].source != handle || methods[k].kind == TYPE_EVENT {
          kept := kept + [methods[k]];
          k := k + 1;
        } else {
          methods := methods[..k] + rest;
          assert methods[k..] == rest;
        }
      }
      assert methods[k..] == [];
      state := state.(methods := methods);
    }

    /** The client is taken off the list. */
    method Remove(k: nat)
      requires Valid() && k < |clients|
      modifies `state, `clients
      ensures Valid() && clients == old(clients[..k] + clients[k + 1..])
      ensures state == old(state).(clients := old(state.clients[..k] + state.clients[k + 1..]))
    {
      hide Peer.View;
      clients := clients[..k] + clients[k + 1..];
      state := state.(clients := state.clients[..k] + state.clients[k + 1..]);
    }

    method ReapAt(k: nat, now: int)
      requires Valid() && k < |clients|
      modifies `state, `clients, `methods, clients
      ensures Valid() && clients == old(clients[..k] + clients[k + 1..])
      ensures state == ReapOne(old(state), k, now)
    {
      hide Peer.View, Tell, BereaveAll, DropCommands, CloseReason, Shows, Apart;
      var client := clients[k];
      Seen(k);
      var name, code, connected := client.identifier, client.closeCode, client.connected;
      var handle := client.handle;
      Remove(k);
      DropMethodsOf(handle);
      AnswerAll(name);
      if connected && name.Some? {
        TellSubscribers("disconnected",
          Object([Member("source", String(name.value)), Member("reason", String(CloseReason(code)))]), now);
        Announce(name.value, false);
      }
    }

    lemma Seen(k: nat)
      requires Valid() && k < |clients|
      ensures |state.clients| == |clients|
      ensures
        var c := state.clients[k];
        && c.identifier == clients[k].identifier && c.closeCode == clients[k].closeCode
        && c.connected == clients[k].connected && c.handle == clients[k].handle && c.open == clients[k].open
    {
      clients[k].Fields();
    }

    method Reap(now: int)
      requires Valid()
      modifies `state, `clients, `methods, clients
      ensures Valid() && state == ReapFrom(old(state), 0, now)
      ensures forall i | 0 <= i < |clients| :: clients[i] in old(clients)
    {
      hide ReapOne, Peer.View, Shows, Apart;
      var k := 0;
      Length();
      while k < |clients|
        invariant 0 <= k <= |clients| == |state.clients| && Valid()
        invariant forall i | 0 <= i < |clients| :: clients[i] in old(clients)
        invariant ReapFrom(state, k, now) == ReapFrom(old(state), 0, now)
        decreases |clients| - k
      {
        Seen(k);
        if clients[k].open {
          k := k + 1;
        } else {
          ReapAt(k, now);
          Length();
        }
      }
    }

    // ----- mbus_server_run_timeout -----

    method AcceptConnections(n: nat)
      requires Valid()
      modifies `state, `clients, `nextHandle
      ensures Valid() && state == AcceptMany(old(state), n)
      ensures forall i | 0 <= i < |clients| :: clients[i] in old(clients) || fresh(clients[i])
    {
      hide Accept, Peer.View, Shows, Apart;
      for k := n downto 0
        invariant Valid() && AcceptMany(state, k) == AcceptMany(old(state), n)
        invariant forall i | 0 <= i < |clients| :: clients[i] in old(clients) || fresh(clients[i])
      {
        Establish();
      }
    }

    method LoseConnections(lost: seq<nat>)
      requires Valid()
      modifies `state, clients
      ensures Valid() && state == LoseMany(old(state), lost)
    {
      hide Lose, Peer.View, Shows, Apart;
      for k := 0 to |lost|
        invariant Valid() && LoseMany(state, lost[k..]) == LoseMany(old(state), lost)
      {
        assert lost[k..][1..] == lost[k + 1..];
        Disconnect(lost[k]);
      }
    }

    /** The decode loops: each client's messages in turn. */
    method Decode(batches: seq<Batch>)
      requires Valid()
      modifies `state, `methods, clients
      ensures Valid() && state == DecodeMany(old(state), batches)
    {
      hide ReceiveAll, Locate, Peer.View, Shows, Apart;
      for n := 0 to |batches|
        invariant Valid() && DecodeMany(state, batches[n..]) == DecodeMany(old(state), batches)
      {
        assert batches[n..][1..] == batches[n + 1..];
        var k := PositionOf(batches[n].handle);
        if k < |clients| {
          ReceiveMessages(k, batches[n].arrivals);
        }
      }
    }

    method PrepareTurn(now: int)
      requires Valid()
      modifies `state, `running, `crashed, `methods, clients
      ensures Valid() && state == Prepare(old(state), now)
    {
      hide Peer.View, Shows, Apart, BrokerState.HandleMethods, BrokerState.CheckPings, BrokerState.Emit;
      HandleMethods();
      if !crashed {
        CheckPings(now);
        Emit();
      }
    }

    method FinishTurn(now: int)
      requires Valid()
      modifies `state, `running, `crashed, `methods, `clients, clients
      ensures Valid() && state == Finish(old(state), now)
      ensures forall i | 0 <= i < |clients| :: clients[i] in old(clients)
    {
      hide Peer.View, Shows, Apart, BrokerState.HandleMethods, AcceptAll, WelcomeFrom, ReapFrom;
      HandleMethods();
      if !crashed {
        MarkAccepted();
        AnnounceConnected(now);
        Reap(now);
      }
    }

    method RunTimeout(input: Input)
      requires Valid()
      modifies this, clients
      ensures Valid() && state == Turn(old(state), input)
      ensures forall i | 0 <= i < |clients| :: clients[i] in old(clients) || fresh(clients[i])
    {
      hide Peer.View, Shows, Apart, Prepare, Finish, AcceptMany, LoseMany, DecodeMany;
      var live := running;
      if live {
        PrepareTurn(input.now);
      }
      if crashed {
        return;
      }
      if live {
        AcceptConnections(input.accepts);
        LoseConnections(input.lost);
      }
      Decode(input.batches);
      if !input.failed {
        FinishTurn(input.now);
      }
    }

    /** mbus_server_run, for as long as there is input: turn after turn. What BrokerTheorems proves of
        Run holds of the state it leaves. */
    method Serve(inputs: seq<Input>)
      requires Valid()
      modifies this, clients
      ensures Valid() && state == Run(old(state), inputs)
      ensures forall i | 0 <= i < |clients| :: clients[i] in old(clients) || fresh(clients[i])
    {
      hide Peer.View, Shows, Apart, Turn;
      assert inputs[..0] == [];
      for n := 0 to |inputs|
        invariant Valid() && state == Run(old(state), inputs[..n])
        invariant forall i | 0 <= i < |clients| :: clients[i] in old(clients) || fresh(clients[i])
      {
        assert inputs[..n + 1][..n] == inputs[..n];
        RunTimeout(inputs[n]);
      }
      assert inputs[..|inputs|] == inputs;
    }
  }

  lemma WelcomeUnfolds(s: BrokerState.Server, k: nat, now: int)
    requires k < |s.clients| && |Welcome(s, k, now).clients| == |s.clients|
    ensures WelcomeFrom(s, k, now) == WelcomeFrom(Welcome(s, k, now), k + 1, now)
  {
    hide Welcome;
  }

  lemma NothingDropped(handle: nat)
    ensures DropCommands([], handle) == []
  {
  }

  lemma DropStep(methods: seq<Request>, handle: nat, rest: seq<Request>)
    requires methods != [] && methods[1..] == rest
    ensures DropCommands(methods, handle)
         == (if methods[0].source == handle && methods[0].kind != TYPE_EVENT then [] else [methods[0]]) + DropCommands(rest, handle)
  {
    hide Mbus;
  }

  lemma ReceiveUnfolds(s: BrokerState.Server, k: nat, arrivals: seq<Arrival>, rest: seq<Arrival>)
    requires k < |s.clients| && arrivals != [] && rest == arrivals[1..]
    ensures |Receive(s, k, arrivals[0]).0.clients| == |s.clients|
    ensures var (t, ok) := Receive(s, k, arrivals[0]); ReceiveAll(s, k, arrivals) == if ok then ReceiveAll(t, k, rest) else t
  {
    hide CreateRequest, Mbus;
  }

  lemma CrashedFiled(o: Outcome, m: Request)
    requires o.server.crashed
    ensures Filed(o, m) == o.server
  {
  }

  lemma HandleUnfolds(s: BrokerState.Server, m: Request)
    requires s.methods != [] && !s.crashed && m == s.methods[0]
    requires var t := HandleMethod(s.(methods := s.methods[1..]), m); t.methods == s.methods[1..]
    ensures BrokerState.HandleMethods(s) == BrokerState.HandleMethods(HandleMethod(s.(methods := s.methods[1..]), m))
  {
    hide HandleMethod;
  }

  lemma NoNames()
    ensures Names([]) == []
  {
  }

  lemma {:induction false} NamesGrow(views: seq<Client>, k: nat)
    requires k < |views|
    ensures Names(views[..k + 1])
         == Names(views[..k]) + if views[k].identifier.Some? then [String(views[k].identifier.value)] else []
  {
    if k == 0 {
      assert views[..1][1..] == [] && views[..0] == [];
    } else {
      NamesGrow(views[1..], k - 1);
      assert views[1..][..k] == views[..k + 1][1..] && views[1..][..k - 1] == views[..k][1..];
    }
  }

  lemma CreateCases(s: BrokerState.Server, k: nat, m: Request)
    requires k < |s.clients|
    ensures
      var c, p, name := s.clients[k], Some(m.payload), BC.NameFor(m);
      var named := c.(identifier := Some(name));
      var d := named.(ping := PingSettings(c.ping, LookUp(p, "ping"), m.now),
                      compression := Negotiate(s.zlib, LookUp(p, "compressions")));
      Create(s, k, m) ==
        if c.identifier.Some? || Find(s.clients, name).Some? then Outcome(s, -1, m)
        else if s.password.Some? && StringAt(p, "password") != s.password then Outcome(WithClient(s, k, named), -1, m)
        else Outcome(WithClient(s, k, d), 0, SetResultPayload(m, Some(CreatePayload(name, d.compression, d.ping))))
  {
    hide StringAt, LookUp, Find, SetResultPayload, CreatePayload, PingSettings, Negotiate;
  }
}

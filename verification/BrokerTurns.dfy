/** What a turn of the broker is sure to do: it writes to every client that is owed something, and clients
    whose connection is lost or whose messages make no sense are gone at its end. */
module BrokerTurns {
  import opened Options
  import opened JsonText
  import opened JsonPath
  import opened Methods
  import opened BrokerState
  import opened BrokerCalm
  import opened BrokerInvariant
  import opened BrokerRun
  import opened BrokerReap
  import opened BrokerTheorems
  import BrokerEvents
  import BrokerCommands
  import opened BrokerLink
  import opened BrokerSteps
  import opened BrokerFrame
  import CM = CodecMoves

  // ----- why a client is closed -----

  /** A message that is no command and no event, or lacks one of its parts. */
  ghost predicate Senseless(text: string) {
    var j := Parse(text);
    || j.None?
    || (StringAt(j, TAG_TYPE) != Some(TYPE_COMMAND) && StringAt(j, TAG_TYPE) != Some(TYPE_EVENT))
    || StringAt(j, TAG_DESTINATION).None? || StringAt(j, TAG_IDENTIFIER).None?
    || IntAt(j, TAG_SEQUENCE, -1) == -1 || LookUp(j, TAG_PAYLOAD).None?
  }

  /** The step closes the client h, and why. */
  ghost predicate Closes(s: Server, x: Step, h: nat, code: CloseCode) {
    match x
    case Drop(lost) => lost == h && code == ConnectionClosed
    case Arrive(handle, arrival) => handle == h && Senseless(arrival.text) && code == CloseCode.InternalError
    case CheckAll(now) =>
      && code == PingThreshold && Present(s, h).Some?
      && var p := Present(s, h).value.ping;
         p.enabled && p.interval > 0 && p.missed + (if now > p.received + p.interval + p.timeout then 1 else 0) > p.threshold
    case Handle =>
      && code == CloseCommand && s.methods != [] && Present(s, h).Some? && Present(s, h).value.identifier.Some?
      && s.methods[0].kind == TYPE_COMMAND && s.methods[0].destination == SERVER && s.methods[0].identifier == "command.close"
      && StringAt(Some(s.methods[0].payload), "source") == Present(s, h).value.identifier != Some(SERVER)
    case _ => false
  }

  /** How the step leaves the client open or closed. */
  ghost predicate Rests(c: Client, d: Client) {
    d.open == c.open && d.closeCode == c.closeCode
  }

  lemma ReceivedCloses(s: Server, i: nat, a: Arrival, k: nat)
    requires i < |s.clients| && k < |s.clients|
    ensures
      var d := Receive(s, i, a).0.clients;
      |d| == |s.clients|
      && if k == i && Senseless(a.text) then d[k] == s.clients[k].(open := false, closeCode := CloseCode.InternalError)
         else Rests(s.clients[k], d[k])
  {
    hide Parse, LookUp, InitialResult, Mbus;
  }

  ghost predicate AllRest(cs: seq<Client>, ds: seq<Client>) {
    |ds| == |cs| && forall k | 0 <= k < |cs| :: Rests(cs[k], ds[k])
  }

  lemma OneRests(cs: seq<Client>, i: nat, c: Client)
    requires i < |cs| && Rests(cs[i], c)
    ensures AllRest(cs, cs[i := c]) && AllRest(cs, cs)
  {
  }

  lemma RestTwice(cs: seq<Client>, ds: seq<Client>, es: seq<Client>)
    requires AllRest(cs, ds) && AllRest(ds, es)
    ensures AllRest(cs, es)
  {
  }

  lemma EventsRest(cs: seq<Client>, source: Option<string>, destination: string, identifier: string, payload: Option<Json>, now: int)
    ensures AllRest(cs, SendEvent(cs, source, destination, identifier, payload, now))
  {
    hide SendEvent, Mbus;
    BrokerEvents.SendEventOnly(cs, source, destination, identifier, payload, now);
    var ds := SendEvent(cs, source, destination, identifier, payload, now);
    forall k | 0 <= k < |cs| ensures Rests(cs[k], ds[k]) {
      assert ds[k] == cs[k].(events := ds[k].events, esequence := ds[k].esequence, ping := ds[k].ping);
    }
  }

  lemma AnnouncedRests(s: Server, i: nat, c: Client, event: string, payload: string -> Json, m: Request)
    requires i < |s.clients| && Rests(s.clients[i], c)
    ensures AllRest(s.clients, Announced(s, i, c, event, payload, m).server.clients)
  {
    hide SendEvent, AllRest, Mbus;
    var cs := s.clients[i := c];
    OneRests(s.clients, i, c);
    if c.identifier.Some? {
      EventsRest(cs, Some(SERVER), SUBSCRIBERS, Mbus("server.event." + event), Some(payload(c.identifier.value)), m.now);
      RestTwice(s.clients, cs, Tell(cs, event, payload(c.identifier.value), m.now));
    }
  }

  lemma ChangesRest(s: Server, i: nat, m: Request)
    requires i < |s.clients|
    ensures AllRest(s.clients, Subscribe(s, i, m).server.clients) && AllRest(s.clients, Unsubscribe(s, i, m).server.clients)
  {
    hide Announced, StringAt, AllRest;
    var c, source, event := s.clients[i], StringAt(Some(m.payload), "source"), StringAt(Some(m.payload), "event");
    OneRests(s.clients, i, c);
    if source.Some? && event.Some? {
      var sub := Subscription(source.value, event.value);
      AnnouncedRests(s, i, AddSubscription(c, sub), "subscribed", name => SubscriptionPayload(name, sub), m);
      AnnouncedRests(s, i, c.(subscriptions := Without(c.subscriptions, sub)), "unsubscribed", name => SubscriptionPayload(name, sub), m);
    }
  }

  lemma CommandsRest(s: Server, i: nat, m: Request)
    requires i < |s.clients|
    ensures AllRest(s.clients, Register(s, i, m).server.clients) && AllRest(s.clients, Unregister(s, i, m).server.clients)
  {
    hide Announced, StringAt, AllRest;
    var c, command := s.clients[i], StringAt(Some(m.payload), "command");
    OneRests(s.clients, i, c);
    if command.Some? {
      AnnouncedRests(s, i, AddCommand(c, command.value), "registered", name => CommandPayload(name, command.value), m);
      AnnouncedRests(s, i, c.(commands := Without(c.commands, command.value)), "unregistered",
                     name => CommandPayload(name, command.value), m);
    }
  }

  lemma AnswersRest(s: Server, i: nat, m: Request)
    requires i < |s.clients|
    ensures AllRest(s.clients, Query(s, m).server.clients) && AllRest(s.clients, Call(s, i, m).server.clients)
  {
    hide StringAt, SetResultPayload, Find, Listed, Names, Mbus, CreateResponse;
  }

  lemma CreateRests(s: Server, i: nat, m: Request)
    requires i < |s.clients|
    ensures AllRest(s.clients, Create(s, i, m).server.clients)
  {
    hide StringAt, LookUp, SetResultPayload, Find, CreatePayload, PingSettings, Negotiate, AllRest;
    var d := Create(s, i, m).server.clients;
    OneRests(s.clients, i, s.clients[i]);
    if d != s.clients {
      OneRests(s.clients, i, d[i]);
    }
  }

  lemma ReturnRests(s: Server, i: nat, m: Request)
    requires i < |s.clients|
    ensures AllRest(s.clients, Return(s, i, m).server.clients)
  {
    hide Return, SetResultPayload, SetResultCode;
    var hit, j, k, code, payload := ReturnShape(s, i, m);
  }

  lemma PublishRests(s: Server, i: nat, m: Request)
    requires i < |s.clients|
    ensures AllRest(s.clients, PublishEvent(s, i, m).server.clients)
  {
    hide StringAt, LookUp, SendEvent, AllRest, Mbus;
    OneRests(s.clients, i, s.clients[i]);
    var p := Some(m.payload);
    var destination, identifier, payload := StringAt(p, TAG_DESTINATION), StringAt(p, TAG_IDENTIFIER), LookUp(p, TAG_PAYLOAD);
    if destination.Some? && identifier.Some? {
      EventsRest(s.clients, s.clients[i].identifier, destination.value, identifier.value, payload, m.now);
    }
  }

  lemma HandlersRest(s: Server, i: nat, m: Request)
    requires i < |s.clients| && m.identifier != "command.close"
    ensures AllRest(s.clients, ServerCommand(s, i, m).server.clients)
  {
    hide Create, Subscribe, Unsubscribe, Register, Unregister, Return, PublishEvent, Query, Close, AllRest;
    ChangesRest(s, i, m);
    CommandsRest(s, i, m);
    AnswersRest(s, i, m);
    CreateRests(s, i, m);
    ReturnRests(s, i, m);
    PublishRests(s, i, m);
    OneRests(s.clients, i, s.clients[i]);
  }

  lemma FiledRests(cs: seq<Client>, o: Outcome, m: Request)
    requires AllRest(cs, o.server.clients)
    ensures AllRest(cs, Filed(o, m).clients)
  {
    hide SetResultCode, Mbus, Locate;
  }

  /** A method that is no close command closes nobody. */
  lemma MethodRests(s: Server, m: Request, i: nat)
    requires Locate(s.clients, m.source) == Some(i) && i < |s.clients|
    requires !(m.kind == TYPE_COMMAND && m.destination == SERVER && m.identifier == "command.close")
    ensures AllRest(s.clients, HandleMethod(s, m).clients)
  {
    hide ServerCommand, Call, SendEvent, Filed, Locate, Mbus, AllRest;
    OneRests(s.clients, i, s.clients[i]);
    if m.kind == TYPE_COMMAND {
      var o := if m.destination == SERVER then ServerCommand(s, i, m) else Call(s, i, m);
      if m.destination == SERVER {
        HandlersRest(s, i, m);
      } else {
        AnswersRest(s, i, m);
      }
      FiledRests(s.clients, o, m);
    } else if m.kind == TYPE_EVENT {
      EventsRest(s.clients, s.clients[i].identifier, m.destination, m.identifier, Some(m.payload), m.now);
    }
  }

  /** A close command closes the client it names, if there is one, and nobody else. */
  lemma CloseRests(s: Server, m: Request, i: nat, k: nat)
    requires DistinctNames(s.clients) && Locate(s.clients, m.source) == Some(i) && i < |s.clients| && k < |s.clients|
    requires m.kind == TYPE_COMMAND && m.destination == SERVER && m.identifier == "command.close"
    ensures
      var ds, name := HandleMethod(s, m).clients, StringAt(Some(m.payload), "source");
      |ds| == |s.clients|
      && if name.Some? && name != Some(SERVER) && s.clients[k].identifier == name then !ds[k].open && ds[k].closeCode == CloseCommand
         else Rests(s.clients[k], ds[k])
  {
    hide StringAt, Mbus, Locate, SetResultCode, Find, DistinctNames, AllRest, Filed;
    var name, o := StringAt(Some(m.payload), "source"), Close(s, m);
    BrokerCommands.CloseDispatch(s, m, i);
    assert HandleMethod(s, m) == Filed(o, m) by { CommandFiled(s, m, i, o); }
    if name.Some? && name.value != SERVER {
      FoundIs(s.clients, name.value, k);
    }
    SelfRests(o.server.clients);
    FiledRests(o.server.clients, o, m);
    RestsAt(o.server.clients, Filed(o, m).clients, k);
  }

  lemma CommandFiled(s: Server, m: Request, i: nat, o: Outcome)
    requires Locate(s.clients, m.source) == Some(i) && i < |s.clients| && m.kind == TYPE_COMMAND && m.destination == SERVER
    requires o == ServerCommand(s, i, m)
    ensures HandleMethod(s, m) == Filed(o, m)
  {
    hide ServerCommand, Filed, Locate, Mbus;
  }

  lemma FoundIs(cs: seq<Client>, name: string, k: nat)
    requires DistinctNames(cs) && k < |cs|
    ensures cs[k].identifier == Some(name) <==> Find(cs, name) == Some(k)
  {
    hide Find;
    var f := Find(cs, name);
  }

  lemma SelfRests(cs: seq<Client>)
    ensures AllRest(cs, cs)
  {
  }

  lemma RestsAt(cs: seq<Client>, ds: seq<Client>, k: nat)
    requires AllRest(cs, ds) && k < |cs|
    ensures |ds| == |cs| && Rests(cs[k], ds[k])
  {
  }

  lemma PingCloses(c: Client, now: int)
    ensures
      var d, p := PingCheck(c, now), c.ping;
      if c.open && p.enabled && p.interval > 0 && p.missed + (if now > p.received + p.interval + p.timeout then 1 else 0) > p.threshold then
        !d.open && d.closeCode == PingThreshold
      else Rests(c, d)
  {
  }

  lemma HandleCloses(s: Server, h: nat, i: nat)
    requires Sound(s) && Possible(s, Handle) && !Do(s, Handle).crashed && Locate(s.clients, h) == Some(i) && i < |s.clients|
    ensures
      var ds := Do(s, Handle).clients;
      i < |ds| && if Closes(s, Handle, h, CloseCommand) then !ds[i].open && ds[i].closeCode == CloseCommand else Rests(s.clients[i], ds[i])
  {
    hide Inv, Alive, HandleMethod, Locate, StringAt, Mbus, AllTended, HeardFrom, DistinctNames;
    ListAfterHandle(s);
    SoundInv(s);
    InvNames(s);
    PresentAt(s, h);
    var m := s.methods[0];
    var u, j := s.(methods := s.methods[1..]), Locate(s.clients, m.source).value;
    if m.kind == TYPE_COMMAND && m.destination == SERVER && m.identifier == "command.close" {
      CloseRests(u, m, j, i);
    } else {
      MethodRests(u, m, j);
    }
  }

  /** A client is closed by four things: its connection was lost, a message of its own made no sense, it
      missed too many pings, or a command says so. Each of them closes it, nothing else does, and nothing
      opens it again. */
  lemma StepCloses(s: Server, x: Step, h: nat, i: nat)
    requires Sound(s) && Possible(s, x) && !Do(s, x).crashed && Locate(s.clients, h) == Some(i) && Stays(x, i)
    ensures i < |s.clients| && PlaceAfter(x, i) < |Do(s, x).clients|
    ensures
      var c, d := s.clients[i], Do(s, x).clients[PlaceAfter(x, i)];
      && (!c.open ==> !d.open)
      && (c.open && d.open ==> forall code :: !Closes(s, x, h, code))
      && (c.open && !d.open ==> Closes(s, x, h, d.closeCode))
  {
    hide Inv, Alive, HandleMethod, PingCheck, EmitOne, Receive, Locate, Welcome, ReapOne, Senseless, Mbus, LookUp;
    PresentAt(s, h);
    LocateIs(s.clients, h);
    match x {
      case Handle => HandleCloses(s, h, i);
      case CheckAll(now) => PingCloses(s.clients[i], now);
      case EmitAll => EmitRests(s.clients[i]);
      case Join =>
      case Drop(lost) =>
        if Locate(s.clients, lost).Some? { LocateIs(s.clients, lost); }
      case Arrive(handle, arrival) =>
        LocateIs(s.clients, handle);
        ReceivedCloses(s, Locate(s.clients, handle).value, arrival, i);
      case Mark =>
      case Greet(place, at) => ListAfterGreet(s, place, at);
      case Bury(place, at) => ListAfterBury(s, place, at);
    }
  }

  lemma EmitRests(c: Client)
    ensures Rests(c, EmitOne(c))
  {
  }

  // ----- closed clients leave -----

  /** The client is closed, or off the list. */
  ghost predicate Leaving(s: Server, h: nat) {
    h < s.nextHandle && (Present(s, h).Some? ==> !Present(s, h).value.open)
  }

  lemma StepLeaves(s: Server, x: Step, h: nat)
    requires Sound(s) && Possible(s, x) && !Do(s, x).crashed && Leaving(s, h)
    ensures Leaving(Do(s, x), h)
  {
    hide Sound, Do, Locate, Closes, Possible;
    PresentAt(s, h);
    PresentAt(Do(s, x), h);
    var i := Locate(s.clients, h);
    if i.None? {
      StepGone(s, x, h);
    } else {
      StepLocates(s, x, h, i.value);
      assert h < Do(s, x).nextHandle by { StepPlaces(s, x); }
      if Stays(x, i.value) {
        StepCloses(s, x, h, i.value);
      }
    }
  }

  lemma {:induction false} PathLeaves(s: Server, steps: seq<Step>, h: nat)
    requires Sound(s) && Path(s, steps) && !DoAll(s, steps).crashed && Leaving(s, h)
    ensures Leaving(DoAll(s, steps), h)
    decreases |steps|
  {
    hide Sound, Do, Leaving;
    if steps != [] {
      StepKeeps(s, steps[0]);
      StillAlive(Do(s, steps[0]), steps[1..]);
      StepLeaves(s, steps[0], h);
      PathLeaves(Do(s, steps[0]), steps[1..], h);
    }
  }

  lemma SettledOpen(s: Server, h: nat)
    requires (forall k | 0 <= k < |s.clients| :: Settled(s.clients[k])) && Leaving(s, h)
    ensures Present(s, h).None?
  {
    hide Locate, Settled;
    PresentAt(s, h);
    if Present(s, h).Some? {
      SettledIsOpen(s.clients[Locate(s.clients, h).value]);
    }
  }

  lemma SettledIsOpen(c: Client)
    requires Settled(c)
    ensures c.open
  {
  }

  lemma {:induction false} Cut(s: Server, steps: seq<Step>, n: nat)
    requires n <= |steps| && Path(s, steps)
    ensures Path(s, steps[..n]) && Path(DoAll(s, steps[..n]), steps[n..]) && DoAll(DoAll(s, steps[..n]), steps[n..]) == DoAll(s, steps)
    decreases n
  {
    hide Do, Possible;
    if n == 0 {
      assert steps[..0] == [] && steps[0..] == steps;
    } else {
      Cut(Do(s, steps[0]), steps[1..], n - 1);
      assert steps[..n][0] == steps[0] && steps[..n][1..] == steps[1..][..n - 1] && steps[1..][n - 1..] == steps[n..];
    }
  }

  lemma {:induction false} PathSound(s: Server, steps: seq<Step>)
    requires Sound(s) && Path(s, steps)
    ensures Sound(DoAll(s, steps))
    decreases |steps|
  {
    hide Sound, Do, Possible;
    if steps != [] {
      StepKeeps(s, steps[0]);
      PathSound(Do(s, steps[0]), steps[1..]);
    }
  }

  /** In every turn that does not fail: whoever was closed at one of its steps is off the list at its end. */
  lemma ClosedLeave(password: Option<string>, zlib: bool, past: seq<Input>, input: Input) returns (steps: seq<Step>)
    requires
      var s := Run(BrokerState.Start(password, zlib), past);
      !s.crashed && !input.failed && !Turn(s, input).crashed
    ensures
      var s := Run(BrokerState.Start(password, zlib), past);
      && Leads(s, steps, Turn(s, input))
      && forall n, h | 0 <= n <= |steps| && Leaving(DoAll(s, steps[..n]), h) :: Present(Turn(s, input), h).None?
  {
    hide Run, Turn, Sound, Do, Beats, ArrivalsOf, Leaving, Present, Settled;
    RunKeeps(password, zlib, past);
    var s := Run(BrokerState.Start(password, zlib), past);
    var t := Turn(s, input);
    steps := TurnSteps(s, input);
    LeadsIs(s, steps, t);
    TurnSettles(s, input);
    forall n, h | 0 <= n <= |steps| && Leaving(DoAll(s, steps[..n]), h) ensures Present(t, h).None? {
      Cut(s, steps, n);
      PathSound(s, steps[..n]);
      PathLeaves(DoAll(s, steps[..n]), steps[n..], h);
      SettledOpen(t, h);
    }
  }

  /** The steps behind the polling of a turn. */
  lemma RestSteps(s: Server, input: Input) returns (steps: seq<Step>)
    requires Sound(s) && !s.crashed && !input.failed && !Turn(s, input).crashed && (s.running ==> !Prepare(s, input.now).crashed)
    ensures Sound(Polled(s, input)) && !Polled(s, input).crashed
    ensures Leads(Polled(s, input), steps, Turn(s, input)) && NoWrites(steps)
  {
    hide Sound, Prepare, DecodeMany, HandleMethods, AcceptAll, WelcomeFrom, ReapFrom, Leads, Polled, Turn;
    var first := PolledSteps(s, input);
    TurnReaps(s, input);
    var b, c := Polled(s, input), Gathered(s, input);
    var decodes := DecodeSteps(b, input.batches);
    DecodesSound(b, input.batches);
    var settled := SettleSteps(c, input.now);
    var u := Upkeep(s, input);
    var buried := BurySteps(u, 0, input.now);
    Onward(b, decodes, c, settled, u);
    Onward(b, decodes + settled, u, buried, Turn(s, input));
    steps := decodes + settled + buried;
  }

  lemma DecodesSound(s: Server, batches: seq<Batch>)
    requires Sound(s) && !s.crashed
    ensures Sound(DecodeMany(s, batches)) && !DecodeMany(s, batches).crashed
  {
    hide Inv, Alive, DecodeMany;
    DecodeManyKeeps(s, batches);
  }

  lemma DropLeaves(s: Server, h: nat)
    requires h < s.nextHandle
    ensures Leaving(Lose(s, h), h)
  {
    hide Locate;
    var i := Locate(s.clients, h);
    if i.Some? {
      LocateIs(s.clients, h);
      LocateSame(s.clients, Lose(s, h).clients, h);
    }
  }

  lemma {:induction false} LostLeaving(s: Server, lost: seq<nat>, h: nat)
    requires Sound(s) && !s.crashed && h < s.nextHandle && (h in lost || Leaving(s, h))
    ensures Leaving(LoseMany(s, lost), h)
    decreases |lost|
  {
    hide Sound, Lose, Leaving;
    if lost != [] {
      StepKeeps(s, Drop(lost[0]));
      var t := Lose(s, lost[0]);
      if lost[0] == h {
        DropLeaves(s, h);
      } else if Leaving(s, h) {
        StepLeaves(s, Drop(lost[0]), h);
      }
      assert t.nextHandle == s.nextHandle by { LoseHandle(s, lost[0]); }
      LostLeaving(t, lost[1..], h);
    }
  }

  lemma LoseHandle(s: Server, lost: nat)
    ensures Lose(s, lost).nextHandle == s.nextHandle
  {
  }

  lemma {:induction false} AcceptHandles(s: Server, n: nat)
    ensures AcceptMany(s, n).nextHandle == s.nextHandle + n
    decreases n
  {
    hide NewClient;
    if n > 0 { AcceptHandles(Accept(s), n - 1); }
  }

  lemma PrepareHandles(s: Server, now: int)
    requires Sound(s) && !s.crashed && !Prepare(s, now).crashed
    ensures Prepare(s, now).nextHandle >= s.nextHandle
  {
    hide Sound, Prepare, Do;
    var steps := PrepareSteps(s, now);
    LeadsIs(s, steps, Prepare(s, now));
    HandlesGrow(s, steps);
  }

  lemma {:induction false} HandlesGrow(s: Server, steps: seq<Step>)
    requires Sound(s) && Path(s, steps)
    ensures DoAll(s, steps).nextHandle >= s.nextHandle
    decreases |steps|
  {
    hide Sound, Do, Possible;
    if steps != [] {
      StepKeeps(s, steps[0]);
      assert Do(s, steps[0]).nextHandle >= s.nextHandle by { StepPlaces(s, steps[0]); }
      HandlesGrow(Do(s, steps[0]), steps[1..]);
    }
  }

  /** A client whose connection is found lost in a turn is off the list at its end. */
  lemma LostLeave(password: Option<string>, zlib: bool, past: seq<Input>, input: Input, h: nat)
    requires
      var s := Run(BrokerState.Start(password, zlib), past);
      !s.crashed && s.running && !input.failed && !Turn(s, input).crashed && h < s.nextHandle && h in input.lost
    ensures Present(Turn(Run(BrokerState.Start(password, zlib), past), input), h).None?
  {
    hide Run, Turn, Sound, Do, Leaving, Present, Settled, Prepare, AcceptMany, LoseMany;
    RunKeeps(password, zlib, past);
    var s := Run(BrokerState.Start(password, zlib), past);
    PreparedAlive(s, input);
    var a := Prepare(s, input.now);
    PrepareHandles(s, input.now);
    PreparedSound(s, input.now);
    AcceptedSound(a, input.accepts);
    AcceptHandles(a, input.accepts);
    LostLeaving(AcceptMany(a, input.accepts), input.lost, h);
    var steps := RestSteps(s, input);
    LeadsIs(Polled(s, input), steps, Turn(s, input));
    PathLeaves(Polled(s, input), steps, h);
    TurnSettles(s, input);
    SettledOpen(Turn(s, input), h);
  }

  lemma PreparedSound(s: Server, now: int)
    requires Sound(s)
    ensures Sound(Prepare(s, now))
  {
    hide Sound, Prepare;
    PrepareKeeps(s, now);
  }

  lemma AcceptedSound(s: Server, n: nat)
    requires Sound(s) && !s.crashed
    ensures Sound(AcceptMany(s, n)) && !AcceptMany(s, n).crashed
  {
    hide Inv, Alive, AcceptMany;
    AcceptManyKeeps(s, n);
  }

  lemma PreparedAlive(s: Server, input: Input)
    requires !Turn(s, input).crashed
    ensures s.running ==> !Prepare(s, input.now).crashed
  {
    hide Prepare;
  }

  lemma {:induction false} ArrivesAt(steps: seq<Step>, h: nat, a: Arrival) returns (n: nat)
    requires a in ArrivalsOf(steps, h)
    ensures n < |steps| && steps[n] == Arrive(h, a)
  {
    if steps[0] == Arrive(h, a) {
      n := 0;
    } else {
      n := ArrivesAt(steps[1..], h, a);
      n := n + 1;
    }
  }

  lemma SenselessLeaving(s: Server, h: nat, a: Arrival)
    requires Sound(s) && Possible(s, Arrive(h, a)) && Senseless(a.text)
    ensures Leaving(Do(s, Arrive(h, a)), h)
  {
    hide Sound, Do, Locate, Senseless;
    var x := Arrive(h, a);
    StepKeeps(s, x);
    PresentAt(s, h);
    PresentAt(Do(s, x), h);
    var i := Locate(s.clients, h).value;
    StepLocates(s, x, h, i);
    assert h < Do(s, x).nextHandle by { StepPlaces(s, x); }
    assert Closes(s, x, h, CloseCode.InternalError);
    StepCloses(s, x, h, i);
  }

  /** So is a client that sent something senseless, if the decode loop came so far. */
  lemma SenselessLeave(password: Option<string>, zlib: bool, past: seq<Input>, input: Input, h: nat, k: nat)
    requires
      var s := Run(BrokerState.Start(password, zlib), past);
      && !s.crashed && !input.failed && !Turn(s, input).crashed && Single(input.batches, h) && Locate(Polled(s, input).clients, h).Some?
      && k < ReadCount(h, Fed(input.batches, h)) && Senseless(Fed(input.batches, h)[k].text)
    ensures Present(Turn(Run(BrokerState.Start(password, zlib), past), input), h).None?
  {
    hide Run, Turn, Sound, Do, Leaving, Present, Settled, Senseless, Polled, Locate, Beats, ArrivalsOf, Fed, Single, ReadCount;
    RunKeeps(password, zlib, past);
    var s := Run(BrokerState.Start(password, zlib), past);
    var t, a := Turn(s, input), Fed(input.batches, h)[k];
    var steps := TurnSteps(s, input);
    LeadsIs(s, steps, t);
    assert a in ArrivalsOf(steps, h) by { assert ArrivalsOf(steps, h)[k] == a; }
    var n := ArrivesAt(steps, h, a);
    Cut(s, steps, n);
    var u, rest := DoAll(s, steps[..n]), steps[n..];
    PathSound(s, steps[..n]);
    assert rest[0] == Arrive(h, a);
    SenselessLeaving(u, h, a);
    StepKeeps(u, rest[0]);
    PathLeaves(Do(u, rest[0]), rest[1..], h);
    TurnSettles(s, input);
    SettledOpen(t, h);
  }

  // ----- what is written -----

  /** A step that does not write leaves the output of a client that stays alone. */
  lemma StepOut(s: Server, x: Step, h: nat, i: nat)
    requires Sound(s) && Possible(s, x) && !Do(s, x).crashed && Locate(s.clients, h) == Some(i) && Stays(x, i) && !x.EmitAll?
    ensures i < |s.clients| && PlaceAfter(x, i) < |Do(s, x).clients| && Do(s, x).clients[PlaceAfter(x, i)].out == s.clients[i].out
  {
    hide Inv, Alive, HandleMethod, PingCheck, Receive, Locate, Welcome, ReapOne, Drains;
    LocateIs(s.clients, h);
    match x {
      case Handle => HandleOut(s, i);
      case CheckAll(now) => CM.PassiveMoves(s, i, i, now);
      case Join =>
      case Drop(lost) =>
      case Arrive(handle, arrival) =>
        LocateIs(s.clients, handle);
        ReceiveOut(s, Locate(s.clients, handle).value, arrival, i);
      case Mark => CM.PassiveMoves(s, i, i, 0);
      case Greet(place, at) => CM.PassiveMoves(s, i, place, at);
      case Bury(place, at) => CM.ReapMoves(s, place, if place < i then i - 1 else i, at);
    }
  }

  lemma ReceiveOut(s: Server, k: nat, a: Arrival, i: nat)
    requires k < |s.clients| && i < |s.clients|
    ensures i < |Receive(s, k, a).0.clients| && Receive(s, k, a).0.clients[i].out == s.clients[i].out
  {
    hide CreateRequest, Mbus;
  }

  lemma HandleOut(s: Server, i: nat)
    requires Sound(s) && !s.crashed && s.methods != [] && !Do(s, Handle).crashed && i < |s.clients|
    ensures i < |Do(s, Handle).clients| && Do(s, Handle).clients[i].out == s.clients[i].out
  {
    hide Inv, Alive, HandleMethod, Locate, AllTended, HeardFrom, Drains, FromWaits, IsCreate, CreatedAs;
    ListAfterHandle(s);
    var m, u := s.methods[0], s.(methods := s.methods[1..]);
    var j := Locate(s.clients, m.source).value;
    if i != j {
      OthersLeft(u, m, j, i);
    } else if m.kind != TYPE_COMMAND {
      EventStepped(u, m, j);
    } else if IsCreate(m) {
      CreateStepped(u, m, j);
      CreatedOut(s.clients[i], Do(s, Handle).clients[i], m, s.zlib);
    } else {
      CommandStepped(u, m, j);
    }
  }

  lemma CreatedOut(c: Client, d: Client, m: Request, zlib: bool)
    requires Created(c, d, m, zlib)
    ensures d.out == c.out
  {
    hide Asked, CreatePayload, SetResultPayload, SetResultCode, Negotiate, LookUp;
    var name: string, ping: Ping, admitted: bool :| CreatedAs(c, d, m, zlib, name, ping, admitted);
  }

  lemma {:induction false} PathOut(s: Server, steps: seq<Step>, h: nat)
    requires Sound(s) && Path(s, steps) && !DoAll(s, steps).crashed && NoWrites(steps)
    requires Present(s, h).Some? && Present(DoAll(s, steps), h).Some?
    ensures Present(DoAll(s, steps), h).value.out == Present(s, h).value.out
    decreases |steps|
  {
    hide Sound, Do, Locate, Possible;
    PresentAt(s, h);
    if steps != [] {
      var x, t, i := steps[0], Do(s, steps[0]), Locate(s.clients, h).value;
      StepKeeps(s, x);
      StillAlive(t, steps[1..]);
      StepLocates(s, x, h, i);
      PresentAt(t, h);
      if Stays(x, i) {
        StepOut(s, x, h, i);
      } else {
        assert h < t.nextHandle by { StepPlaces(s, x); }
        PathGone(t, steps[1..], h);
        PresentAt(DoAll(s, steps), h);
      }
      PathOut(t, steps[1..], h);
    }
  }

  /** What a client is owed next: the oldest result, or else the oldest call, or else the oldest event. */
  function Owed(c: Client): Option<string> {
    if c.results != [] then Some(Print(Object(c.results[0].result), 0, false))
    else if c.requests != [] then Some(Print(NoticeJson(c.requests[0]), 0, false))
    else if c.events != [] then Some(Print(NoticeJson(c.events[0]), 0, false))
    else None
  }

  /** No ping of the client is overdue. */
  ghost predicate Punctual(p: Ping, now: int) {
    !p.enabled || p.interval <= 0 || (now <= p.received + p.interval + p.timeout && p.missed <= p.threshold)
  }

  lemma EmitOwed(c: Client, now: int)
    requires c.open && Punctual(c.ping, now)
    ensures
      var d := EmitOne(PingCheck(c, now));
      && (Owed(c).None? ==> d.out == c.out)
      && (Owed(c).Some? ==> |d.out| == |c.out| + 1 && d.out[..|c.out|] == c.out && d.out[|c.out|].text == Owed(c).value)
      && d.handle == c.handle
  {
    hide Print, NoticeJson, Mbus;
    PingCloses(c, now);
    CM.PingCheckFace(c, now);
  }

  lemma PreparedAt(s: Server, now: int, h: nat)
    requires !HandleMethods(s).crashed && Present(HandleMethods(s), h).Some?
    ensures Present(Prepare(s, now), h) == Some(EmitOne(PingCheck(Present(HandleMethods(s), h).value, now)))
  {
    hide HandleMethods, PingCheck, EmitOne, Locate;
    var u := HandleMethods(s);
    var v := Emit(CheckPings(u, now));
    PresentAt(u, h);
    PresentAt(v, h);
    forall k | 0 <= k < |u.clients| ensures v.clients[k].handle == u.clients[k].handle {
      CM.PingCheckFace(u.clients[k], now);
      EmitHandle(PingCheck(u.clients[k], now));
    }
    LocateSame(u.clients, v.clients, h);
  }

  lemma EmitHandle(c: Client)
    ensures EmitOne(c).handle == c.handle
  {
    hide Print, Mbus;
  }

  lemma AfterPrepare(s: Server, input: Input) returns (steps: seq<Step>)
    requires Sound(s) && !s.crashed && s.running && !input.failed && !Turn(s, input).crashed && !Prepare(s, input.now).crashed
    ensures Leads(Prepare(s, input.now), steps, Turn(s, input)) && NoWrites(steps)
  {
    hide Sound, Prepare, AcceptMany, LoseMany, Leads, Turn;
    PreparedSound(s, input.now);
    var a := Prepare(s, input.now);
    AcceptedSound(a, input.accepts);
    var b := AcceptMany(a, input.accepts);
    var joins := JoinSteps(a, input.accepts);
    var drops := DropSteps(b, input.lost);
    var rest := RestSteps(s, input);
    Onward(a, joins, b, drops, LoseMany(b, input.lost));
    Onward(a, joins + drops, Polled(s, input), rest, Turn(s, input));
    steps := joins + drops + rest;
  }

  /** In a turn of a running broker that does not fail, a client whose pings are in time and that is still on
      the list at the end has been written the first thing it was owed once the methods were handled, and
      nothing else; all that is written before stays. */
  lemma TurnWrites(password: Option<string>, zlib: bool, past: seq<Input>, input: Input, h: nat)
    requires
      var s := Run(BrokerState.Start(password, zlib), past);
      && !s.crashed && s.running && !input.failed && !Turn(s, input).crashed
      && Present(HandleMethods(s), h).Some? && Present(Turn(s, input), h).Some?
      && Present(HandleMethods(s), h).value.open && Punctual(Present(HandleMethods(s), h).value.ping, input.now)
    ensures
      var s := Run(BrokerState.Start(password, zlib), past);
      var c, d := Present(HandleMethods(s), h).value, Present(Turn(s, input), h).value;
      && (Owed(c).None? ==> d.out == c.out)
      && (Owed(c).Some? ==> |d.out| == |c.out| + 1 && d.out[..|c.out|] == c.out && d.out[|c.out|].text == Owed(c).value)
  {
    hide Run, Turn, Sound, Do, Present, Prepare, Owed, HandleMethods, Punctual, PingCheck, EmitOne;
    RunKeeps(password, zlib, past);
    var s := Run(BrokerState.Start(password, zlib), past);
    PreparedAlive(s, input);
    PrepareDrained(s, input.now);
    PreparedAt(s, input.now, h);
    EmitOwed(Present(HandleMethods(s), h).value, input.now);
    PreparedSound(s, input.now);
    var steps := AfterPrepare(s, input);
    LeadsIs(Prepare(s, input.now), steps, Turn(s, input));
    PathOut(Prepare(s, input.now), steps, h);
  }

  lemma PrepareDrained(s: Server, now: int)
    ensures HandleMethods(s).crashed == Prepare(s, now).crashed
  {
    hide HandleMethods;
  }
}

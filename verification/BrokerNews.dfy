/** The announcements of the broker are events: what is announced of a client in a turn, everybody who
    subscribed to it is sent, and nothing else is announced. */
module BrokerNews {
  import opened Options
  import opened JsonText
  import opened Methods
  import opened BrokerState
  import opened BrokerRun
  import opened BrokerReap
  import opened BrokerTheorems
  import opened BrokerSteps
  import N = BrokerCommands

  /** Why a client is gone. */
  ghost predicate Because(reason: string, code: CloseCode) {
    (reason == "unknown" && code.Unknown?) || (reason == "close_command" && code.CloseCommand?)
    || (reason == "ping_threshold" && code.PingThreshold?) || (reason == "connection_closed" && code.ConnectionClosed?)
    || (reason == "internal_error" && code.InternalError?)
  }

  /** The client gets this event of the broker if it subscribed to it, and no other. */
  ghost predicate Informed(c: Client, d: Client, event: string, payload: Json) {
    d.events == c.events
                + if N.Hears(c, event) then [Notice(TYPE_EVENT, SERVER, Mbus("server.event." + event), c.esequence, payload)] else []
  }

  /** The client at that place is new to the others, and they are told. */
  ghost predicate Welcomed(s: Server, t: Server, place: nat, name: string) {
    && place < |s.clients| && |t.clients| == |s.clients|
    && s.clients[place].identifier == Some(name) && s.clients[place].open && s.clients[place].accepted && !s.clients[place].connected
    && forall k | 0 <= k < |s.clients| ::
         Informed(s.clients[k], t.clients[k], "connected", Object([Member("source", String(name))]))
  }

  /** The client at that place is off the list, and the others are told why. */
  ghost predicate Mourned(s: Server, t: Server, place: nat, name: string) {
    && place < |s.clients| && |t.clients| == |s.clients| - 1
    && s.clients[place].identifier == Some(name) && !s.clients[place].open && s.clients[place].connected
    && exists reason: string :: Because(reason, s.clients[place].closeCode)
         && forall k | 0 <= k < |t.clients| ::
              Informed(s.clients[if k < place then k else k + 1], t.clients[k], "disconnected",
                       Object([Member("source", String(name)), Member("reason", String(reason))]))
  }

  /** A step announces a at most once, and then everybody is told. */
  ghost predicate Told(s: Server, x: Step, a: Announcement) {
    if a.up then x.Greet? && Welcomed(s, Do(s, x), x.place, a.name) else x.Bury? && Mourned(s, Do(s, x), x.place, a.name)
  }

  /** Who is announced by a step. */
  ghost predicate News(s: Server, x: Step, name: string, up: bool) {
    match x
    case Greet(place, _) =>
      up && place < |s.clients| && s.clients[place].identifier == Some(name)
      && s.clients[place].open && s.clients[place].accepted && !s.clients[place].connected
    case Bury(place, _) => !up && place < |s.clients| && s.clients[place].identifier == Some(name) && s.clients[place].connected
    case _ => false
  }

  lemma NotifiedInformed(c: Client, d: Client, event: string, payload: Json)
    requires d == N.Notified(c, event, payload)
    ensures Informed(c, d, event, payload)
  {
    hide N.Hears, Mbus;
    assert c.events + [] == c.events;
  }

  lemma HearsAlike(c: Client, d: Client, e: Client, event: string, payload: Json)
    requires d.subscriptions == c.subscriptions && d.events == c.events && d.esequence == c.esequence
    requires Informed(d, e, event, payload)
    ensures Informed(c, e, event, payload)
  {
  }

  lemma GreetTells(s: Server, place: nat, at: int)
    requires place < |s.clients|
    ensures
      var t, c := Welcome(s, place, at), s.clients[place];
      if c.open && c.accepted && !c.connected && c.identifier.Some? then
        t.announcements == s.announcements + [Announcement(c.identifier.value, true)] && Welcomed(s, t, place, c.identifier.value)
      else t == s
  {
    hide Tell, Informed, Mbus;
    var c, t := s.clients[place], Welcome(s, place, at);
    if c.open && c.accepted && !c.connected && c.identifier.Some? {
      var d, payload := c.(connected := true), Object([Member("source", String(c.identifier.value))]);
      var cs := s.clients[place := d];
      N.TellNotifies(cs, "connected", payload, at);
      forall k | 0 <= k < |s.clients| ensures Informed(s.clients[k], t.clients[k], "connected", payload) {
        NotifiedInformed(cs[k], t.clients[k], "connected", payload);
        HearsAlike(s.clients[k], cs[k], t.clients[k], "connected", payload);
      }
    }
  }

  lemma BuryTells(s: Server, place: nat, at: int)
    requires place < |s.clients| && s.methods == [] && !s.clients[place].open
    ensures
      var t, c := ReapOne(s, place, at), s.clients[place];
      if c.connected && c.identifier.Some? then
        t.announcements == s.announcements + [Announcement(c.identifier.value, false)] && Mourned(s, t, place, c.identifier.value)
      else t.announcements == s.announcements
  {
    hide Tell, Informed, Mbus, ReapOne, Left;
    ReapUnfolds(s, place, at);
    var c, t := s.clients[place], ReapOne(s, place, at);
    if c.connected && c.identifier.Some? {
      var reason, cs := CloseReason(c.closeCode), Left(s.clients, place);
      var payload := Object([Member("source", String(c.identifier.value)), Member("reason", String(reason))]);
      assert Because(reason, c.closeCode);
      N.TellNotifies(cs, "disconnected", payload, at);
      LeftLength(s.clients, place);
      forall k | 0 <= k < |t.clients|
        ensures Informed(s.clients[if k < place then k else k + 1], t.clients[k], "disconnected", payload)
      {
        LeftAt(s.clients, place, k);
        NotifiedInformed(cs[k], t.clients[k], "disconnected", payload);
        HearsAlike(s.clients[if k < place then k else k + 1], cs[k], t.clients[k], "disconnected", payload);
      }
    }
  }

  /** What a step adds to the announcements, everybody is told; and it adds what is news. */
  lemma StepTells(s: Server, x: Step)
    requires Sound(s) && Possible(s, x) && !Do(s, x).crashed
    ensures var before, after := s.announcements, Do(s, x).announcements;
      || (after == before && forall name, up :: !News(s, x, name, up))
      || (exists a: Announcement :: after == before + [a] && News(s, x, a.name, a.up) && Told(s, x, a))
  {
    hide Sound, HandleMethod, CheckPings, Emit, Receive, Locate, Welcome, ReapOne, Welcomed, Mourned, AcceptAll;
    match x {
      case Handle =>
        HandleFaces(s.(methods := s.methods[1..]), s.methods[0]);
      case Arrive(handle, arrival) => ReceiveQuiet(s, Locate(s.clients, handle).value, arrival);
      case Greet(place, at) => GreetTells(s, place, at);
      case Bury(place, at) => BuryTells(s, place, at);
      case CheckAll(now) => assert CheckPings(s, now).announcements == s.announcements by { ChecksQuiet(s, now); }
      case EmitAll => ChecksQuiet(s, 0);
      case Mark => ChecksQuiet(s, 0);
      case Join =>
      case Drop(lost) =>
    }
  }

  lemma ReceiveQuiet(s: Server, i: nat, a: Arrival)
    requires i < |s.clients|
    ensures Receive(s, i, a).0.announcements == s.announcements
  {
    hide CreateRequest, Mbus;
  }

  lemma ChecksQuiet(s: Server, now: int)
    ensures CheckPings(s, now).announcements == s.announcements
    ensures Emit(s).announcements == s.announcements && AcceptAll(s).announcements == s.announcements
  {
  }

  /** The step of that number makes announcement number j of those that lead to t. */
  ghost predicate ToldAt(s: Server, steps: seq<Step>, n: nat, t: Server, j: nat) {
    && n < |steps| && j < |t.announcements|
    && DoAll(s, steps[..n]).announcements == t.announcements[..j]
    && Told(DoAll(s, steps[..n]), steps[n], t.announcements[j])
  }

  ghost predicate ToldOnce(s: Server, steps: seq<Step>, t: Server, j: nat) {
    exists n: nat :: ToldAt(s, steps, n, t, j)
  }

  lemma {:induction false} PathTells(s: Server, steps: seq<Step>)
    requires Sound(s) && Path(s, steps) && !DoAll(s, steps).crashed
    ensures var before, t := s.announcements, DoAll(s, steps);
      && |t.announcements| >= |before| && t.announcements[..|before|] == before
      && forall j: nat | |before| <= j < |t.announcements| :: ToldOnce(s, steps, t, j)
    decreases |steps|
  {
    hide Sound, Do, Told, Possible, News;
    var t, before := DoAll(s, steps), s.announcements;
    if steps != [] {
      var u, rest := Do(s, steps[0]), steps[1..];
      StepKeeps(s, steps[0]);
      StillAlive(u, rest);
      StepTells(s, steps[0]);
      PathTells(u, rest);
      assert t.announcements[..|before|] == t.announcements[..|u.announcements|][..|before|];
      forall j: nat | |before| <= j < |t.announcements| ensures ToldOnce(s, steps, t, j) {
        if j < |u.announcements| {
          assert steps[..0] == [] && DoAll(s, steps[..0]) == s;
          assert t.announcements[j] == t.announcements[..|u.announcements|][j];
          assert t.announcements[..j] == before;
          assert ToldAt(s, steps, 0, t, j);
        } else {
          assert ToldOnce(u, rest, t, j);
          var k: nat :| ToldAt(u, rest, k, t, j);
          assert steps[..k + 1][0] == steps[0] && steps[..k + 1][1..] == rest[..k];
          assert ToldAt(s, steps, k + 1, t, j);
        }
      }
    }
  }

  /** In every turn of a run: what is announced anew was announced at one step of the turn, in this order,
      and at that step everybody who had subscribed to it was sent the event, once. */
  lemma AnnouncementsTold(password: Option<string>, zlib: bool, past: seq<Input>, input: Input) returns (steps: seq<Step>)
    requires
      var s := Run(BrokerState.Start(password, zlib), past);
      !s.crashed && !Turn(s, input).crashed
    ensures
      var s := Run(BrokerState.Start(password, zlib), past);
      var before, t := s.announcements, Turn(s, input);
      && Leads(s, steps, t) && |t.announcements| >= |before| && t.announcements[..|before|] == before
      && forall j: nat | |before| <= j < |t.announcements| :: ToldOnce(s, steps, t, j)
  {
    hide Run, Turn, Sound, Do, Beats, ArrivalsOf, ToldAt;
    RunKeeps(password, zlib, past);
    var s := Run(BrokerState.Start(password, zlib), past);
    steps := TurnSteps(s, input);
    LeadsIs(s, steps, Turn(s, input));
    PathTells(s, steps);
  }
}

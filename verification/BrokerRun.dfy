/** Whole runs of the broker: the steps of a turn keep the invariant, announcements alternate, and
    what the protocol promises holds in every state a run can reach. */
module BrokerRun {
  import opened Options
  import opened Compress
  import opened JsonText
  import opened Methods
  import opened BrokerState
  import opened BrokerCalm
  import opened BrokerInvariant

  // ----- announcements -----

  /** The names announced as connected and not yet as disconnected. */
  function Live(a: seq<Announcement>): set<string> {
    if a == [] then {}
    else
      var last, before := a[|a| - 1], Live(a[..|a| - 1]);
      if last.up then before + {last.name} else before - {last.name}
  }

  /** A name is announced as connected only when it is not live, and as disconnected only when it is. */
  ghost predicate Alternating(a: seq<Announcement>) {
    a == [] ||
    (Alternating(a[..|a| - 1]) && (a[|a| - 1].up <==> a[|a| - 1].name !in Live(a[..|a| - 1])))
  }

  ghost predicate ConnectedAs(clients: seq<Client>, name: string) {
    exists i | 0 <= i < |clients| :: clients[i].connected && clients[i].identifier == Some(name)
  }

  ghost predicate ConnectedNamed(clients: seq<Client>) {
    forall i | 0 <= i < |clients| :: clients[i].connected ==> clients[i].identifier.Some?
  }

  /** Announcements alternate, and the live names are those of the connected clients. */
  ghost predicate Alive(s: Server) {
    s.crashed ||
    (Alternating(s.announcements) && ConnectedNamed(s.clients)
     && forall name :: name in Live(s.announcements) <==> ConnectedAs(s.clients, name))
  }

  /** Names once given stay, and nobody's connected flag changes. */
  ghost predicate Faces(cs: seq<Client>, ds: seq<Client>) {
    |cs| == |ds| && forall i | 0 <= i < |cs| ::
      ds[i].connected == cs[i].connected && (cs[i].identifier.Some? ==> ds[i].identifier == cs[i].identifier)
  }

  lemma FacesKeep(s: Server, t: Server)
    requires Alive(s) && !s.crashed && Faces(s.clients, t.clients) && t.announcements == s.announcements
    ensures Alive(t)
  {
    forall name
      ensures ConnectedAs(s.clients, name) <==> ConnectedAs(t.clients, name)
    {
      if ConnectedAs(s.clients, name) {
        var i :| 0 <= i < |s.clients| && s.clients[i].connected && s.clients[i].identifier == Some(name);
        assert t.clients[i].connected && t.clients[i].identifier == Some(name);
      }
      if ConnectedAs(t.clients, name) {
        var i :| 0 <= i < |t.clients| && t.clients[i].connected && t.clients[i].identifier == Some(name);
        assert s.clients[i].connected && s.clients[i].identifier == Some(name);
      }
    }
  }

  lemma CalmFaces(cs: seq<Client>, ds: seq<Client>)
    requires CalmAll(cs, ds) && forall i | 0 <= i < |cs| :: ds[i].connected == cs[i].connected
    ensures Faces(cs, ds)
  {
    hide Numbered;
    forall i | 0 <= i < |cs| ensures cs[i].identifier.Some? ==> ds[i].identifier == cs[i].identifier { assert Calm(cs[i], ds[i]); }
  }

  // ----- draining keeps faces -----

  lemma FiledFaces(cs: seq<Client>, o: Outcome, m: Request)
    requires Faces(cs, o.server.clients) && !Filed(o, m).crashed
    ensures Faces(cs, Filed(o, m).clients) && Filed(o, m).announcements == o.server.announcements
  {
    hide Locate, SetResultCode, Mbus;
  }

  lemma HandleFaces(s: Server, m: Request)
    requires !s.crashed && !HandleMethod(s, m).crashed
    ensures Faces(s.clients, HandleMethod(s, m).clients)
    ensures HandleMethod(s, m).announcements == s.announcements
  {
    hide ServerCommand, Call, SendEvent, Gentle, Filed, Locate, Mbus, Faces;
    var i := Locate(s.clients, m.source).value;
    LocateIs(s.clients, m.source);
    if m.kind == TYPE_COMMAND {
      var o := if m.destination == SERVER then ServerCommand(s, i, m) else Call(s, i, m);
      if o.server.crashed {
        CrashFiled(o, m);
      }
      if m.destination == SERVER && m.identifier == "command.result" {
        ResultDispatch(s, i, m);
        ReturnFaces(s, i, m);
      } else {
        if m.destination == SERVER { HandlersGentle(s, i, m); } else { CallGentle(s, i, m); }
        GentleFaces(s, o, m);
      }
      FiledFaces(s.clients, o, m);
    } else {
      SendEventCalm(s.clients, s.clients[i].identifier, m.destination, m.identifier, Some(m.payload), m.now);
      SameFacesFaces(s.clients, SendEvent(s.clients, s.clients[i].identifier, m.destination, m.identifier, Some(m.payload), m.now));
      SelfFaces(s.clients);
    }
  }

  lemma SelfFaces(cs: seq<Client>)
    ensures Faces(cs, cs)
  {
  }

  lemma SameFacesFaces(cs: seq<Client>, ds: seq<Client>)
    requires SameFaces(cs, ds)
    ensures Faces(cs, ds)
  {
  }

  lemma GentleFaces(s: Server, o: Outcome, m: Request)
    requires Gentle(s, o, m)
    ensures Faces(s.clients, o.server.clients) && o.server.announcements == s.announcements
  {
    hide CalmAll, Faces, DistinctNames, Answers;
    CalmFaces(s.clients, o.server.clients);
  }

  lemma ReturnFaces(s: Server, i: nat, m: Request)
    requires i < |s.clients|
    ensures Faces(s.clients, Return(s, i, m).server.clients)
    ensures Return(s, i, m).server.announcements == s.announcements
  {
    hide Return, CompleteWait;
    var hit, j, k, code, payload := ReturnShape(s, i, m);
    if hit {
      CompleteWaitFace(s.clients[j], k, code, payload);
    }
  }

  lemma {:induction false} DrainAlive(s: Server)
    requires Inv(s) && Alive(s)
    ensures Inv(HandleMethods(s)) && Alive(HandleMethods(s))
    ensures HandleMethods(s).crashed || HandleMethods(s).methods == []
    decreases |s.methods|
  {
    hide Inv, HandleMethod, Alive, Faces;
    if s.methods != [] && !s.crashed {
      var m, rest := s.methods[0], s.methods[1..];
      assert s.methods == [m] + rest;
      HandleKeeps(s, m, rest);
      var t := HandleMethod(s.(methods := rest), m);
      if t.crashed {
        CrashedInv(t);
        CrashedAlive(t);
      } else {
        HandleFaces(s.(methods := rest), m);
        FacesKeep(s, t);
        DrainAlive(t);
      }
    }
  }

  lemma CrashedAlive(t: Server)
    requires t.crashed
    ensures Alive(t)
  {
  }

  // ----- the steps that treat every client alone -----

  lemma PingCheckCalm(c: Client, now: int)
    ensures Calm(c, PingCheck(c, now))
    ensures PingCheck(c, now).identifier == c.identifier && PingCheck(c, now).connected == c.connected
  {
  }

  lemma ResultEmittedCalm(c: Client, f: Frame)
    requires c.results != []
    ensures Calm(c, c.(results := c.results[1..], sent := c.sent + [c.results[0]], out := c.out + [f]))
  {
    var d := c.(results := c.results[1..], sent := c.sent + [c.results[0]], out := c.out + [f]);
    NumberedSame(c, d);
    hide Numbered;
    assert c.results == [c.results[0]] + c.results[1..];
    assert Answered(d) == Answered(c);
  }

  lemma EventEmittedCalm(c: Client, f: Frame)
    requires c.events != []
    ensures Calm(c, c.(events := c.events[1..], delivered := c.delivered + [c.events[0]], out := c.out + [f]))
  {
    hide Cyclic;
    var d := c.(events := c.events[1..], delivered := c.delivered + [c.events[0]], out := c.out + [f]);
    assert c.events == [c.events[0]] + c.events[1..];
    assert EventLog(d) == EventLog(c);
  }

  lemma EmitOneCalm(c: Client)
    ensures Calm(c, EmitOne(c))
    ensures EmitOne(c).identifier == c.identifier && EmitOne(c).connected == c.connected
  {
    hide Calm, Print, Mbus, ResultCompression, ResultJson, NoticeJson;
    CalmClient(c);
    if c.results != [] {
      ResultEmittedCalm(c, Frame(ResultCompression(c, c.results[0]), Print(ResultJson(c.results[0]), 0, false)));
    } else if c.requests != [] {
      var d := c.(requests := c.requests[1..], out := c.out + [Frame(c.compression, Print(NoticeJson(c.requests[0]), 0, false))]);
      RequestsCalm(c, d);
    } else if c.events != [] {
      EventEmittedCalm(c, Frame(c.compression, Print(NoticeJson(c.events[0]), 0, false)));
    }
  }

  lemma CalmClient(c: Client)
    ensures Calm(c, c)
  {
  }

  lemma RequestsCalm(c: Client, d: Client)
    requires d == c.(requests := d.requests, out := d.out)
    ensures Calm(c, d)
  {
  }

  /** A step that maps each client calmly keeps everything. */
  lemma MapKeeps(s: Server, t: Server)
    requires Inv(s) && Alive(s) && !s.crashed && t == s.(clients := t.clients)
    requires CalmAll(s.clients, t.clients) && SameFaces(s.clients, t.clients)
    ensures Inv(t) && Alive(t)
  {
    hide Inv, Alive, CalmAll, SameFaces, Faces;
    CalmKeeps(s, t);
    SameFacesFaces(s.clients, t.clients);
    FacesKeep(s, t);
  }

  lemma CheckPingsKeeps(s: Server, now: int)
    requires Inv(s) && Alive(s) && !s.crashed
    ensures Inv(CheckPings(s, now)) && Alive(CheckPings(s, now))
  {
    hide Inv, Alive, Calm, PingCheck;
    forall c ensures Calm(c, PingCheck(c, now)) { PingCheckCalm(c, now); }
    forall c: Client ensures PingCheck(c, now).identifier == c.identifier && PingCheck(c, now).connected == c.connected {
      PingCheckCalm(c, now);
    }
    MapKeeps(s, CheckPings(s, now));
  }

  lemma EmitKeeps(s: Server)
    requires Inv(s) && Alive(s) && !s.crashed
    ensures Inv(Emit(s)) && Alive(Emit(s))
  {
    hide Inv, Alive, Calm, EmitOne;
    forall c ensures Calm(c, EmitOne(c)) { EmitOneCalm(c); }
    forall c: Client ensures EmitOne(c).identifier == c.identifier && EmitOne(c).connected == c.connected { EmitOneCalm(c); }
    MapKeeps(s, Emit(s));
  }

  lemma AcceptAllKeeps(s: Server)
    requires Inv(s) && Alive(s) && !s.crashed
    ensures Inv(AcceptAll(s)) && Alive(AcceptAll(s))
  {
    hide Inv, Alive, Numbered;
    forall c: Client ensures Numbered(c.(accepted := true)) == Numbered(c) { NumberedSame(c, c.(accepted := true)); }
    MapKeeps(s, AcceptAll(s));
  }

  lemma CloseOneKeeps(s: Server, i: nat, code: CloseCode)
    requires Inv(s) && Alive(s) && !s.crashed && i < |s.clients|
    ensures Inv(WithClient(s, i, Closed(s.clients[i], code))) && Alive(WithClient(s, i, Closed(s.clients[i], code)))
  {
    hide Inv, Alive, Calm;
    ClosedCalm(s.clients[i], code);
    CalmUpdate(s.clients, i, Closed(s.clients[i], code));
    MapKeeps(s, WithClient(s, i, Closed(s.clients[i], code)));
  }

  lemma {:induction false} LoseManyKeeps(s: Server, lost: seq<nat>)
    requires Inv(s) && Alive(s) && !s.crashed
    ensures Inv(LoseMany(s, lost)) && Alive(LoseMany(s, lost)) && !LoseMany(s, lost).crashed
    decreases |lost|
  {
    hide Inv, Alive, Locate;
    if lost != [] {
      var i := Locate(s.clients, lost[0]);
      if i.Some? {
        LocateIs(s.clients, lost[0]);
        CloseOneKeeps(s, i.value, ConnectionClosed);
      }
      LoseManyKeeps(Lose(s, lost[0]), lost[1..]);
    }
  }

  // ----- a new connection -----

  lemma {:induction false} NoCommands(methods: seq<Request>, handle: nat)
    requires forall k | 0 <= k < |methods| :: methods[k].source != handle
    ensures CommandsOf(methods, handle) == []
  {
    hide Mbus;
    if methods != [] {
      NoCommands(methods[1..], handle);
    }
  }

  lemma NewClientOk(handle: nat, methods: seq<Request>, clients: seq<Client>)
    requires forall k | 0 <= k < |methods| :: methods[k].source != handle
    ensures ClientOk(NewClient(handle), methods, clients)
  {
    hide Find, Answers;
    NoCommands(methods, handle);
  }

  lemma AcceptKeeps(s: Server)
    requires Inv(s) && Alive(s) && !s.crashed
    ensures Inv(Accept(s)) && Alive(Accept(s)) && !Accept(s).crashed
  {
    hide ClientOk, Find, Locate, Answers;
    var cs, d := s.clients, NewClient(s.nextHandle);
    var ds := cs + [d];
    forall k | 0 <= k < |s.methods|
      ensures s.methods[k].source != s.nextHandle && Queued(s.methods[k], ds)
    {
      assert Queued(s.methods[k], cs);
      LocateIs(cs, s.methods[k].source);
      LocateMore(cs, d, s.methods[k].source);
    }
    NewClientOk(s.nextHandle, s.methods, ds);
    forall i | 0 <= i < |ds|
      ensures ClientOk(ds[i], s.methods, ds)
    {
      if i < |cs| {
        assert ClientOk(cs[i], s.methods, cs);
        HomeMore(cs[i], s.methods, cs, ds);
      }
    }
    forall name
      ensures ConnectedAs(cs, name) <==> ConnectedAs(ds, name)
    {
      if ConnectedAs(cs, name) {
        var i :| 0 <= i < |cs| && cs[i].connected && cs[i].identifier == Some(name);
        assert ds[i] == cs[i];
      }
    }
  }

  lemma LocateMore(cs: seq<Client>, d: Client, handle: nat)
    requires Locate(cs, handle).Some?
    ensures Locate(cs + [d], handle).Some?
  {
    hide Locate;
    var i := Locate(cs, handle).value;
    assert (cs + [d])[i] == cs[i];
  }

  /** More clients, or the same ones changed in other respects: nobody loses the home of a wait. */
  lemma HomeMore(c: Client, methods: seq<Request>, cs: seq<Client>, ds: seq<Client>)
    requires ClientOk(c, methods, cs) && |cs| <= |ds| && ds[..|cs|] == cs
    ensures ClientOk(c, methods, ds)
  {
    hide Answers, Numbered, Conserved, Find;
    forall k | 0 <= k < |c.waits| ensures Waiting(c.waits[k], c.handle, ds) {
      assert Waiting(c.waits[k], c.handle, cs);
      var i := Find(cs, c.waits[k].destination).value;
      assert ds[i] == ds[..|cs|][i];
    }
  }

  lemma {:induction false} AcceptManyKeeps(s: Server, n: nat)
    requires Inv(s) && Alive(s) && !s.crashed
    ensures Inv(AcceptMany(s, n)) && Alive(AcceptMany(s, n)) && !AcceptMany(s, n).crashed
    decreases n
  {
    hide Inv, Alive, Accept;
    if n > 0 {
      AcceptKeeps(s);
      AcceptManyKeeps(Accept(s), n - 1);
    }
  }

  // ----- a message arrives -----

  lemma ArrivedOk(c: Client, d: Client, m: Request, methods: seq<Request>, clients: seq<Client>)
    requires ClientOk(c, methods, clients)
    requires d == if m.kind == TYPE_COMMAND && m.source == c.handle then c.(log := c.log + [m]) else c
    ensures ClientOk(d, methods + [m], clients)
  {
    hide Find, Answers, Mbus;
    NumberedSame(c, d);
    hide Numbered;
    assert Conserved(d, methods + [m]) by {
      CommandsOfAppend(methods, [m], c.handle);
      CommandsOfOne(m, c.handle);
      CoresAppend(CommandsOf(methods, c.handle), CommandsOf([m], c.handle));
      CoresAppend(c.log, [m]);
    }
    hide Conserved;
    assert QueuesOk(d, clients) by {
      assert d.waits == c.waits && Answered(d) == Answered(c);
    }
  }

  lemma ReceiveKeeps(s: Server, i: nat, a: Arrival)
    requires Inv(s) && Alive(s) && !s.crashed && i < |s.clients|
    ensures var t := Receive(s, i, a).0; Inv(t) && Alive(t) && !t.crashed && |t.clients| == |s.clients|
  {
    hide Inv, Alive, ClientOk, CreateRequest, Answers, Mbus, Faces;
    var c := s.clients[i];
    var m := CreateRequest(c.handle, a.text, a.now, a.draw);
    CloseOneKeeps(s, i, InternalError);
    NewRequestUnanswered(c.handle, a.text, a.now, a.draw);
    if m.Some? && m.value.kind in {TYPE_COMMAND, TYPE_EVENT} {
      var d := if m.value.kind == TYPE_COMMAND then c.(log := c.log + [m.value]) else c;
      QueueKeeps(s, i, m.value, d);
      assert Faces(s.clients, s.clients[i := d]) by { UpdatedFaces(s.clients, i, d); }
      FacesKeep(s, WithClient(s, i, d).(methods := s.methods + [m.value]));
    }
  }

  lemma UpdatedFaces(cs: seq<Client>, i: nat, d: Client)
    requires i < |cs| && d.connected == cs[i].connected && d.identifier == cs[i].identifier
    ensures Faces(cs, cs[i := d])
  {
  }

  lemma QueueKeeps(s: Server, i: nat, m: Request, d: Client)
    requires Inv(s) && !s.crashed && i < |s.clients| && m.source == s.clients[i].handle
    requires m.kind in {TYPE_COMMAND, TYPE_EVENT} && Answers(m, [])
    requires d == if m.kind == TYPE_COMMAND then s.clients[i].(log := s.clients[i].log + [m]) else s.clients[i]
    ensures Inv(WithClient(s, i, d).(methods := s.methods + [m]))
  {
    hide ClientOk, Find, Locate, Answers, Mbus;
    var cs, methods := s.clients, s.methods + [m];
    assert d.handle == cs[i].handle && d.identifier == cs[i].identifier;
    forall k | 0 <= k < |cs| && k != i
      ensures ClientOk(cs[k], methods, cs)
    {
      assert ClientOk(cs[k], s.methods, cs) && cs[k].handle != cs[i].handle;
      ArrivedOk(cs[k], cs[k], m, s.methods, cs);
    }
    assert ClientOk(cs[i], s.methods, cs);
    ArrivedOk(cs[i], d, m, s.methods, cs);
    forall k | 0 <= k < |methods|
      ensures Queued(methods[k], cs)
    {
      assert k < |s.methods| ==> Queued(s.methods[k], cs);
    }
    SwapKeeps(cs, i, d, methods);
  }

  lemma {:induction false} ReceiveAllKeeps(s: Server, i: nat, arrivals: seq<Arrival>)
    requires Inv(s) && Alive(s) && !s.crashed && i < |s.clients|
    ensures var t := ReceiveAll(s, i, arrivals); Inv(t) && Alive(t) && !t.crashed
    decreases |arrivals|
  {
    hide Inv, Alive, Receive;
    if arrivals != [] {
      ReceiveKeeps(s, i, arrivals[0]);
      var (t, ok) := Receive(s, i, arrivals[0]);
      if ok {
        ReceiveAllKeeps(t, i, arrivals[1..]);
      }
    }
  }

  lemma {:induction false} DecodeManyKeeps(s: Server, batches: seq<Batch>)
    requires Inv(s) && Alive(s) && !s.crashed
    ensures var t := DecodeMany(s, batches); Inv(t) && Alive(t) && !t.crashed
    decreases |batches|
  {
    hide Inv, Alive, ReceiveAll, Locate;
    if batches != [] {
      var i := Locate(s.clients, batches[0].handle);
      if i.Some? {
        LocateIs(s.clients, batches[0].handle);
        ReceiveAllKeeps(s, i.value, batches[0].arrivals);
      }
      DecodeManyKeeps(if i.None? then s else ReceiveAll(s, i.value, batches[0].arrivals), batches[1..]);
    }
  }
}

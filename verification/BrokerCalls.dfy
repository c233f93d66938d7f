/** Calls between clients: where a call goes, what ends a wait, and the one way the broker fails. */
module BrokerCalls {
  import opened Options
  import opened JsonText
  import opened JsonPath
  import opened Methods
  import opened BrokerState
  import opened BrokerCalm
  import opened BrokerEvents
  import opened BrokerInvariant
  import opened BrokerReap

  // ----- the way of a call -----

  /** A call can be delivered to client j: that is the client of the called name, it registered the
      command, and the caller is named. */
  ghost predicate Deliverable(cs: seq<Client>, i: nat, j: nat, m: Request)
    requires i < |cs|
  {
    && j < |cs| && cs[j].identifier == Some(m.destination) && m.identifier in cs[j].commands
    && cs[i].identifier.Some? && m.sequence >= 0
  }

  /** A call that can be delivered is queued at its destination under the caller's name and sequence
      number, and waits at the caller; nothing else happens. */
  lemma CallDelivered(s: Server, m: Request, i: nat, j: nat)
    requires DistinctNames(s.clients) && !s.crashed && m.kind == TYPE_COMMAND && m.destination != SERVER
    requires Locate(s.clients, m.source) == Some(i) && i < |s.clients| && Deliverable(s.clients, i, j, m)
    ensures
      var t, cs := HandleMethod(s, m), s.clients;
      && t == s.(clients := t.clients) && |t.clients| == |cs|
      && forall k | 0 <= k < |cs| ::
           t.clients[k] == cs[k].(
             requests := cs[k].requests
                         + if k == j then [Notice(TYPE_COMMAND, cs[i].identifier.value, m.identifier, m.sequence, m.payload)] else [],
             waits := cs[k].waits + if k == i then [m] else [])
  {
    hide Mbus, Find, Locate;
    var cs := s.clients;
    assert Find(cs, m.destination) == Some(j);
    var n := Notice(TYPE_COMMAND, cs[i].identifier.value, m.identifier, m.sequence, m.payload);
    var ds := cs[j := PushRequest(cs[j], n)];
    assert Call(s, i, m) == Outcome(s.(clients := ds), 0, m);
    LocateSame(cs, ds, m.source);
    forall xs: seq<Request> ensures xs + [] == xs {}
    forall xs: seq<Notice> ensures xs + [] == xs {}
  }

  /** A call that cannot is answered with -1 at once; nothing else happens. */
  lemma CallRefused(s: Server, m: Request, i: nat)
    requires DistinctNames(s.clients) && !s.crashed && m.kind == TYPE_COMMAND && m.destination != SERVER
    requires Locate(s.clients, m.source) == Some(i) && i < |s.clients|
    requires forall j: nat :: !Deliverable(s.clients, i, j, m)
    ensures HandleMethod(s, m)
         == s.(clients := s.clients[i := s.clients[i].(results := s.clients[i].results + [SetResultCode(m, -1)])])
  {
    hide Mbus, Find, Locate, SetResultCode;
    var j := Find(s.clients, m.destination);
    if j.Some? {
      assert !Deliverable(s.clients, i, j.value, m);
    }
    assert Call(s, i, m) == Outcome(s, -1, m);
  }

  // ----- what ends a wait -----

  /** The method is a result sent to the broker by the named client. */
  ghost predicate ResultFrom(m: Request, name: Option<string>) {
    m.kind == TYPE_COMMAND && m.destination == SERVER && m.identifier == "command.result" && name.Some?
  }

  /** The first wait of c that a result of the named client fits became an answer: same sequence
      number, same command, and the client that was called is the one that answers. */
  ghost predicate EndsWait(c: Client, d: Client, n: nat, m: Request, name: string) {
    var p := Some(m.payload);
    var command, sequence := StringAt(p, TAG_IDENTIFIER), IntAt(p, TAG_SEQUENCE, -1);
    && n < |c.waits| && command.Some?
    && c.identifier.Some? && c.identifier == StringAt(p, TAG_DESTINATION)
    && AnsweredBy(c.waits[n], name, command.value, sequence)
    && (forall k | 0 <= k < n :: !AnsweredBy(c.waits[k], name, command.value, sequence))
    && d.waits == c.waits[..n] + c.waits[n + 1..]
    && |d.results| > |c.results| && d.results[..|c.results|] == c.results
    && d.results[|c.results|]
       == SetResultPayload(SetResultCode(c.waits[n], IntAt(p, TAG_STATUS, -1)), LookUp(p, TAG_PAYLOAD))
  }

  /** Handling a method leaves the waits of a client alone, or adds the call just handled, or ends
      one wait by a fitting result. */
  ghost predicate WaitsMove(c: Client, d: Client, m: Request, name: Option<string>) {
    || d.waits == c.waits
    || (d.waits == c.waits + [m] && m.source == c.handle && m.destination != SERVER)
    || (ResultFrom(m, name) && exists n: nat :: EndsWait(c, d, n, m, name.value))
  }

  lemma CompletedEndsWait(c: Client, n: nat, m: Request, name: string, own: seq<Request>)
    requires n < |c.waits| && c.identifier.Some? && c.identifier == StringAt(Some(m.payload), TAG_DESTINATION)
    requires var command := StringAt(Some(m.payload), TAG_IDENTIFIER);
      command.Some? && FindWait(c.waits, name, command.value, IntAt(Some(m.payload), TAG_SEQUENCE, -1)) == Some(n)
    ensures
      var p := Some(m.payload);
      var d := CompleteWait(c, n, IntAt(p, TAG_STATUS, -1), LookUp(p, TAG_PAYLOAD));
      EndsWait(c, d.(results := d.results + own), n, m, name)
  {
    hide StringAt, IntAt, LookUp, FindWait, SetResultCode, SetResultPayload, Mbus;
    var p := Some(m.payload);
    var d := CompleteWait(c, n, IntAt(p, TAG_STATUS, -1), LookUp(p, TAG_PAYLOAD));
    assert (d.results + own)[..|c.results|] == c.results;
  }

  /** What the result handler leaves: the state as it was, or one wait ended. */
  lemma ReturnEnds(s: Server, i: nat, m: Request) returns (hit: bool, j: nat, n: nat)
    requires i < |s.clients|
    ensures Return(s, i, m).request == m && (!hit ==> Return(s, i, m).server == s)
    ensures hit ==>
      var p := Some(m.payload);
      && s.clients[i].identifier.Some? && StringAt(p, TAG_IDENTIFIER).Some?
      && j < |s.clients| && n < |s.clients[j].waits|
      && s.clients[j].identifier.Some? && s.clients[j].identifier == StringAt(p, TAG_DESTINATION)
      && FindWait(s.clients[j].waits, s.clients[i].identifier.value, StringAt(p, TAG_IDENTIFIER).value,
                  IntAt(p, TAG_SEQUENCE, -1)) == Some(n)
      && Return(s, i, m).server
         == WithClient(s, j, CompleteWait(s.clients[j], n, IntAt(p, TAG_STATUS, -1), LookUp(p, TAG_PAYLOAD)))
  {
    hide StringAt, IntAt, LookUp, Find, FindWait, CompleteWait, Mbus;
    var p, source := Some(m.payload), s.clients[i].identifier;
    var destination, identifier := StringAt(p, TAG_DESTINATION), StringAt(p, TAG_IDENTIFIER);
    var sequence := IntAt(p, TAG_SEQUENCE, -1);
    hit, j, n := false, 0, 0;
    if source.Some? && destination.Some? && identifier.Some? && START <= sequence < END && Find(s.clients, destination.value).Some? {
      j := Find(s.clients, destination.value).value;
      var found := FindWait(s.clients[j].waits, source.value, identifier.value, sequence);
      if found.Some? {
        n, hit := found.value, true;
      }
    }
  }

  lemma FiledServer(o: Outcome, m: Request, i: nat)
    requires !o.server.crashed && Locate(o.server.clients, m.source) == Some(i) && m.destination == SERVER
    ensures Filed(o, m) == WithClient(o.server, i, PushResult(o.server.clients[i], SetResultCode(o.request, o.rc)))
  {
    hide Locate, SetResultCode, Mbus;
  }

  lemma ReturnWaits(s: Server, i: nat, m: Request)
    requires !s.crashed && Locate(s.clients, m.source) == Some(i) && i < |s.clients|
    requires m.kind == TYPE_COMMAND && m.destination == SERVER && m.identifier == "command.result"
    ensures
      var t := Filed(Return(s, i, m), m);
      |t.clients| == |s.clients|
      && forall k | 0 <= k < |s.clients| :: WaitsMove(s.clients[k], t.clients[k], m, s.clients[i].identifier)
  {
    hide Return, Filed, EndsWait, StringAt, IntAt, LookUp, FindWait, SetResultCode, Mbus, Locate, CompleteWait;
    var hit, j, n := ReturnEnds(s, i, m);
    var u, p, own := Return(s, i, m).server, Some(m.payload), SetResultCode(m, Return(s, i, m).rc);
    if hit {
      CompleteWaitFace(s.clients[j], n, IntAt(p, TAG_STATUS, -1), LookUp(p, TAG_PAYLOAD));
      CompletedEndsWait(s.clients[j], n, m, s.clients[i].identifier.value, []);
      CompletedEndsWait(s.clients[j], n, m, s.clients[i].identifier.value, [own]);
      NothingAdded(CompleteWait(s.clients[j], n, IntAt(p, TAG_STATUS, -1), LookUp(p, TAG_PAYLOAD)));
    }
    LocateSame(s.clients, u.clients, m.source);
    FiledServer(Return(s, i, m), m, i);
  }

  lemma NothingAdded(d: Client)
    ensures d.(results := d.results + []) == d
  {
    assert d.results + [] == d.results;
  }

  lemma GentleWaits(s: Server, o: Outcome, m: Request, i: nat)
    requires Gentle(s, o, m) && !o.server.crashed && Locate(s.clients, m.source) == Some(i) && i < |s.clients|
    requires m.destination == SERVER
    ensures
      var t := Filed(o, m);
      |t.clients| == |s.clients| && forall k | 0 <= k < |s.clients| :: t.clients[k].waits == s.clients[k].waits
  {
    hide Filed, Locate, SetResultCode, Mbus, Numbered, Answers, DistinctNames;
    CalmLocates(s.clients, o.server.clients, m.source);
    FiledServer(o, m, i);
    forall k | 0 <= k < |s.clients| ensures o.server.clients[k].waits == s.clients[k].waits {
      assert Calm(s.clients[k], o.server.clients[k]);
    }
  }

  lemma CallWaits(s: Server, m: Request, i: nat)
    requires DistinctNames(s.clients) && !s.crashed && m.kind == TYPE_COMMAND && m.destination != SERVER
    requires Locate(s.clients, m.source) == Some(i) && i < |s.clients|
    ensures
      var t := HandleMethod(s, m);
      |t.clients| == |s.clients|
      && forall k | 0 <= k < |s.clients| :: WaitsMove(s.clients[k], t.clients[k], m, s.clients[i].identifier)
  {
    hide HandleMethod, DistinctNames, Locate, EndsWait, ResultFrom, Mbus, SetResultCode;
    LocateIs(s.clients, m.source);
    if j: nat :| Deliverable(s.clients, i, j, m) {
      CallDelivered(s, m, i, j);
      forall xs: seq<Request> ensures xs + [] == xs {}
    } else {
      CallRefused(s, m, i);
    }
  }

  /** One method off the queue: the waits of every client stay, except that a call joins its
      caller's, and that a result ends the first wait of the named caller which names its sender, its
      command and its sequence number. */
  lemma WaitsMoveByMethods(s: Server, m: Request, i: nat)
    requires DistinctNames(s.clients) && !s.crashed && Locate(s.clients, m.source) == Some(i) && i < |s.clients|
    ensures
      var t := HandleMethod(s, m);
      t.crashed || (|t.clients| == |s.clients|
        && forall k | 0 <= k < |s.clients| :: WaitsMove(s.clients[k], t.clients[k], m, s.clients[i].identifier))
  {
    hide ServerCommand, Call, SendEvent, Gentle, Filed, Locate, Mbus, EndsWait, ResultFrom, DistinctNames, Return;
    if m.kind == TYPE_COMMAND {
      if m.destination != SERVER {
        CallWaits(s, m, i);
      } else if m.identifier == "command.result" {
        ResultDispatch(s, i, m);
        ReturnWaits(s, i, m);
      } else {
        var o := ServerCommand(s, i, m);
        if o.server.crashed {
          CrashFiled(o, m);
        } else {
          HandlersGentle(s, i, m);
          GentleWaits(s, o, m, i);
        }
      }
    } else if m.kind == TYPE_EVENT {
      EventWaits(s.clients, s.clients[i].identifier, m.destination, m.identifier, Some(m.payload), m.now);
    }
  }

  lemma EventWaits(cs: seq<Client>, source: Option<string>, destination: string, identifier: string, payload: Option<Json>, now: int)
    ensures
      var ds := SendEvent(cs, source, destination, identifier, payload, now);
      |ds| == |cs| && forall k | 0 <= k < |cs| :: ds[k].waits == cs[k].waits
  {
    hide SendEvent, Mbus;
    SendEventOnly(cs, source, destination, identifier, payload, now);
    var ds := SendEvent(cs, source, destination, identifier, payload, now);
    forall k | 0 <= k < |cs| ensures ds[k].waits == cs[k].waits {
      assert ds[k] == cs[k].(events := ds[k].events, esequence := ds[k].esequence, ping := ds[k].ping);
    }
  }

  /** When a client is reaped, of everybody else's waits exactly those that name it end, each with the
      status -1 and otherwise as it was; the results already there stay in front. */
  lemma WaitsEndByReaping(s: Server, i: nat, now: int, k: nat)
    requires i < |s.clients| && s.methods == [] && k < |s.clients| - 1
    ensures
      var ds := ReapOne(s, i, now).clients;
      var c := s.clients[if k < i then k else k + 1];
      && |ds| == |s.clients| - 1 && ds[k].handle == c.handle
      && (s.clients[i].identifier.None? ==> ds[k].waits == c.waits && ds[k].results == c.results)
      && (s.clients[i].identifier.Some? ==>
            var name := s.clients[i].identifier.value;
            && (forall w :: w in ds[k].waits <==> w in c.waits && w.destination != name)
            && |ds[k].results| >= |c.results| && ds[k].results[..|c.results|] == c.results
            && (forall r :: r in ds[k].results[|c.results|..] <==>
                  exists w :: w in c.waits && w.destination == name && r == SetResultCode(w, -1))
            && |ds[k].waits| + |ds[k].results| == |c.waits| + |c.results|)
  {
    hide Left, ReapOne, Tell, OnlyEvents, OtherWaits, Orphans, SetResultCode, Mbus;
    var c, leaver, ds := s.clients[if k < i then k else k + 1], s.clients[i], ReapOne(s, i, now).clients;
    ReapUnfolds(s, i, now);
    LeftAt(s.clients, i, k);
    var e := Left(s.clients, i)[k];
    if leaver.connected && leaver.identifier.Some? {
      TellCalm(Left(s.clients, i), "disconnected", Object([Member("source", String(leaver.identifier.value)),
               Member("reason", String(CloseReason(leaver.closeCode)))]), now);
      OnlyEventsAt(Left(s.clients, i), ds, k);
    }
    assert ds[k].waits == e.waits && ds[k].results == e.results && ds[k].handle == e.handle;
    if leaver.identifier.Some? {
      OtherWaitsAre(c.waits, leaver.identifier.value);
      OrphansAre(c.waits, leaver.identifier.value);
      WaitsCounted(c.waits, leaver.identifier.value);
      assert e.results[|c.results|..] == Orphans(c.waits, leaver.identifier.value);
    }
  }

  lemma OnlyEventsAt(cs: seq<Client>, ds: seq<Client>, k: nat)
    requires OnlyEvents(cs, ds) && k < |cs|
    ensures |ds| == |cs| && ds[k].waits == cs[k].waits && ds[k].results == cs[k].results && ds[k].handle == cs[k].handle
  {
    assert ds[k] == cs[k].(events := ds[k].events, esequence := ds[k].esequence, ping := ds[k].ping);
  }

  lemma {:induction false} WaitsCounted(waits: seq<Request>, name: string)
    ensures |OtherWaits(waits, name)| + |Orphans(waits, name)| == |waits|
  {
    hide SetResultCode;
    if waits != [] {
      WaitsCounted(waits[1..], name);
    }
  }

  // ----- the one way to fail -----

  /** The request asks to unregister a command that its sender never registered. */
  ghost predicate UnknownUnregistered(cs: seq<Client>, i: nat, m: Request)
    requires i < |cs|
  {
    var command := StringAt(Some(m.payload), "command");
    m.kind == TYPE_COMMAND && m.destination == SERVER && m.identifier == "command.unregister"
    && command.Some? && command.value !in cs[i].commands
  }

  lemma AnnouncedAlive(s: Server, i: nat, c: Client, event: string, payload: string -> Json, m: Request)
    requires i < |s.clients|
    ensures Announced(s, i, c, event, payload, m).server.crashed == s.crashed
  {
    hide Tell;
  }

  lemma UnregisterCrashes(s: Server, i: nat, m: Request)
    requires i < |s.clients| && !s.crashed
    ensures
      var command := StringAt(Some(m.payload), "command");
      Unregister(s, i, m).server.crashed <==> command.Some? && command.value !in s.clients[i].commands
  {
    hide StringAt, Announced;
    var c, command := s.clients[i], StringAt(Some(m.payload), "command");
    if command.Some? {
      AnnouncedAlive(s, i, c.(commands := Without(c.commands, command.value)), "unregistered",
                     name => CommandPayload(name, command.value), m);
    }
  }

  lemma ChangesAlive(s: Server, i: nat, m: Request)
    requires i < |s.clients|
    ensures Subscribe(s, i, m).server.crashed == s.crashed
    ensures Unsubscribe(s, i, m).server.crashed == s.crashed && Register(s, i, m).server.crashed == s.crashed
  {
    hide Announced, StringAt;
    var c, source, event := s.clients[i], StringAt(Some(m.payload), "source"), StringAt(Some(m.payload), "event");
    var command := StringAt(Some(m.payload), "command");
    if source.Some? && event.Some? {
      var sub := Subscription(source.value, event.value);
      AnnouncedAlive(s, i, AddSubscription(c, sub), "subscribed", name => SubscriptionPayload(name, sub), m);
      AnnouncedAlive(s, i, c.(subscriptions := Without(c.subscriptions, sub)), "unsubscribed",
                     name => SubscriptionPayload(name, sub), m);
    }
    if command.Some? {
      AnnouncedAlive(s, i, AddCommand(c, command.value), "registered", name => CommandPayload(name, command.value), m);
    }
  }

  lemma OthersAlive(s: Server, i: nat, m: Request)
    requires i < |s.clients|
    ensures Create(s, i, m).server.crashed == s.crashed && PublishEvent(s, i, m).server.crashed == s.crashed
    ensures Query(s, m).server.crashed == s.crashed && Close(s, m).server.crashed == s.crashed
  {
    hide SendEvent, StringAt, LookUp, Find, SetResultPayload, Listed, Names, Mbus, PingSettings, Negotiate, CreatePayload;
  }

  lemma ReturnAlive(s: Server, i: nat, m: Request)
    requires i < |s.clients|
    ensures Return(s, i, m).server.crashed == s.crashed
  {
    hide Return, CompleteWait;
    var hit, j, k, code, payload := ReturnShape(s, i, m);
  }

  lemma FiledAlive(o: Outcome, m: Request)
    requires Locate(o.server.clients, m.source).Some?
    ensures Filed(o, m).crashed == o.server.crashed
  {
    hide SetResultCode, Mbus, Locate;
  }

  lemma CommandCrashes(s: Server, i: nat, m: Request)
    requires i < |s.clients| && !s.crashed && m.kind == TYPE_COMMAND && m.destination == SERVER
    ensures ServerCommand(s, i, m).server.crashed <==> UnknownUnregistered(s.clients, i, m)
  {
    hide Create, Subscribe, Unsubscribe, Register, Unregister, Return, PublishEvent, Query, Close, StringAt, Mbus;
    OthersAlive(s, i, m);
    ChangesAlive(s, i, m);
    ReturnAlive(s, i, m);
    UnregisterCrashes(s, i, m);
    assert "command.unregister"[8] == 'u' && "command.unregister"[10] == 'r' && "command.unsubscribe"[10] == 's';
    assert "command.create"[8] == 'c' && "command.subscribe"[8] == 's' && "command.register"[8] == 'r' && "command.result"[8] == 'r';
  }

  /** Handling a method whose source is present fails exactly when it unregisters a command that was
      never registered. */
  lemma FailsExactly(s: Server, m: Request, i: nat)
    requires !s.crashed && Locate(s.clients, m.source) == Some(i) && i < |s.clients|
    ensures HandleMethod(s, m).crashed <==> UnknownUnregistered(s.clients, i, m)
  {
    hide ServerCommand, Call, SendEvent, Gentle, Filed, Locate, Mbus, StringAt;
    if m.kind == TYPE_COMMAND {
      var o := if m.destination == SERVER then ServerCommand(s, i, m) else Call(s, i, m);
      if m.destination == SERVER {
        CommandCrashes(s, i, m);
        if m.identifier == "command.result" {
          ResultDispatch(s, i, m);
          ReturnLocates(s, i, m);
        } else if !o.server.crashed {
          HandlersGentle(s, i, m);
          GentleLocates(s, o, m);
        }
      } else {
        CallAlive(s, i, m);
        CallGentle(s, i, m);
        GentleLocates(s, o, m);
      }
      if o.server.crashed { CrashFiled(o, m); } else { FiledAlive(o, m); }
    }
  }

  lemma GentleLocates(s: Server, o: Outcome, m: Request)
    requires Gentle(s, o, m)
    ensures Locate(o.server.clients, m.source) == Locate(s.clients, m.source)
  {
    hide CalmAll, Locate, Answers, DistinctNames;
    CalmLocates(s.clients, o.server.clients, m.source);
  }

  lemma ReturnLocates(s: Server, i: nat, m: Request)
    requires i < |s.clients|
    ensures Locate(Return(s, i, m).server.clients, m.source) == Locate(s.clients, m.source)
  {
    hide Return, CompleteWait, Locate;
    var hit, j, k, code, payload := ReturnShape(s, i, m);
    if hit {
      CompleteWaitFace(s.clients[j], k, code, payload);
    }
    LocateSame(s.clients, Return(s, i, m).server.clients, m.source);
  }
}

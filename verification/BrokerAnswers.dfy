/** What events and the results of calls come to, when the broker handles them. */
module BrokerAnswers {
  import opened Options
  import opened JsonText
  import opened JsonPath
  import opened Methods
  import opened BrokerState
  import opened BrokerCalm
  import opened BrokerEvents
  import opened BrokerCalls
  import opened BrokerCommands

  // ----- events -----

  /** The clients once the ping of a client was noted. */
  function Noted(cs: seq<Client>, source: string, now: int): seq<Client> {
    seq(|cs|, i requires 0 <= i < |cs| => if cs[i].identifier == Some(source) then cs[i].(ping := cs[i].ping.(received := now)) else cs[i])
  }

  /** What an event does: nothing without a source; a ping to the broker is noted and answered by a pong
      to its source; everything else goes to its recipients. */
  ghost predicate Spread(cs: seq<Client>, ds: seq<Client>, source: Option<string>, destination: string, identifier: string,
                         data: Json, now: int)
  {
    if source.None? then ds == cs
    else if destination == SERVER && identifier == PING then
      FannedOut(Noted(cs, source.value, now), ds, SERVER, source.value, PONG, Object([]))
    else FannedOut(cs, ds, source.value, destination, identifier, data)
  }

  lemma SendEventSpreads(cs: seq<Client>, source: Option<string>, destination: string, identifier: string, payload: Json, now: int)
    requires DistinctNames(cs)
    ensures Spread(cs, SendEvent(cs, source, destination, identifier, Some(payload), now), source, destination, identifier, payload, now)
  {
    hide Mbus, SendEvent, FannedOut, DistinctNames;
    if source.None? {
      NothingSent(cs, source, destination, identifier, Some(payload), now);
    } else if destination == SERVER && identifier == PING {
      PingAnswered(cs, source.value, Some(payload), now);
      assert PingReceived(cs, source.value, now) == Noted(cs, source.value, now);
    } else {
      EventFansOut(cs, source.value, destination, identifier, Some(payload), now);
    }
  }

  /** An event message: its recipients get it under the name of its sender, and nothing else happens. */
  lemma EventHandled(s: Server, m: Request, i: nat)
    requires DistinctNames(s.clients) && Locate(s.clients, m.source) == Some(i) && i < |s.clients| && m.kind == TYPE_EVENT
    ensures
      var t := HandleMethod(s, m);
      t == s.(clients := t.clients)
      && Spread(s.clients, t.clients, s.clients[i].identifier, m.destination, m.identifier, m.payload, m.now)
  {
    hide Mbus, Locate, SendEvent, Spread, DistinctNames;
    NamesDiffer();
    SendEventSpreads(s.clients, s.clients[i].identifier, m.destination, m.identifier, m.payload, m.now);
  }

  lemma SpreadHandles(cs: seq<Client>, ds: seq<Client>, source: Option<string>, destination: string, identifier: string,
                      data: Json, now: int)
    requires Spread(cs, ds, source, destination, identifier, data, now)
    ensures |ds| == |cs| && forall k | 0 <= k < |cs| :: ds[k].handle == cs[k].handle
  {
    hide Mbus, Recipient;
  }

  /** An event that travels in a command: the same, and the command is answered with 0. */
  lemma PublishHandled(s: Server, m: Request, i: nat)
    requires Asks(s, m, i, "command.event") && DistinctNames(s.clients)
    ensures
      var p, t := Some(m.payload), HandleMethod(s, m);
      var destination, identifier, payload := StringAt(p, TAG_DESTINATION), StringAt(p, TAG_IDENTIFIER), LookUp(p, TAG_PAYLOAD);
      if destination.None? || identifier.None? || payload.None? then Denied(s, t, i, s.clients[i], m)
      else
        exists ds: seq<Client> :: i < |ds|
          && Spread(s.clients, ds, s.clients[i].identifier, destination.value, identifier.value, payload.value, m.now)
          && t == s.(clients := ds[i := WithResult(ds[i], Replied(m, 0, Object([])))])
  {
    hide StringAt, LookUp, SendEvent, Spread, Denied, Asks, Filed, Mbus, DistinctNames;
    AsksIs(s, m, i, "command.event");
    Dispatch(s, m, i);
    assert ServerCommand(s, i, m) == PublishEvent(s, i, m) by { PublishDispatch(s, m, i); }
    var p := Some(m.payload);
    var destination, identifier, payload := StringAt(p, TAG_DESTINATION), StringAt(p, TAG_IDENTIFIER), LookUp(p, TAG_PAYLOAD);
    if destination.None? || identifier.None? || payload.None? {
      RefusalDenies(s, i, s.clients[i], m);
    } else {
      var ds := SendEvent(s.clients, s.clients[i].identifier, destination.value, identifier.value, payload, m.now);
      SendEventSpreads(s.clients, s.clients[i].identifier, destination.value, identifier.value, payload.value, m.now);
      SpreadHandles(s.clients, ds, s.clients[i].identifier, destination.value, identifier.value, payload.value, m.now);
      SpreadFiled(s, m, i, ds);
    }
  }

  lemma PublishDispatch(s: Server, m: Request, i: nat)
    requires i < |s.clients| && m.identifier == "command.event"
    ensures ServerCommand(s, i, m) == PublishEvent(s, i, m)
  {
    hide PublishEvent;
    assert "command.event"[8] == 'e' && "command.create"[8] == 'c' && "command.subscribe"[8] == 's' && "command.unsubscribe"[8] == 'u';
    assert "command.register"[8] == 'r' && "command.unregister"[8] == 'u' && "command.result"[8] == 'r';
  }

  lemma SpreadFiled(s: Server, m: Request, i: nat, ds: seq<Client>)
    requires Asks(s, m, i, m.identifier) && |ds| == |s.clients| && forall k | 0 <= k < |ds| :: ds[k].handle == s.clients[k].handle
    ensures Filed(Outcome(s.(clients := ds), 0, m), m) == s.(clients := ds[i := WithResult(ds[i], Replied(m, 0, Object([])))])
  {
    hide Mbus, Locate, SetResultCode, InitialResult;
    RepliedIs(m, 0, Object([]));
    LocateSame(s.clients, ds, m.source);
    FiledServer(Outcome(s.(clients := ds), 0, m), m, i);
  }

  // ----- subscribing and hearing -----

  /** A subscription to a source, or to any, and to an event, or to any, is for this event. */
  ghost predicate Covers(x: Subscription, source: string, identifier: string) {
    (x.source == source || x.source == ANY_SOURCE) && (x.event == identifier || x.event == ANY_EVENT)
  }

  ghost predicate Deaf(c: Client, source: string, identifier: string) {
    forall k | 0 <= k < |c.subscriptions| :: !Covers(c.subscriptions[k], source, identifier)
  }

  /** A client that has subscribed gets each event its subscription covers exactly once, from that method on,
      and a client whose subscriptions do not cover it gets nothing. */
  lemma SubscribedHears(s: Server, m: Request, i: nat, source: string, identifier: string, payload: Json, now: int)
    requires Asks(s, m, i, "command.subscribe") && s.clients[i].identifier.Some?
    requires StringAt(Some(m.payload), "source").Some? && StringAt(Some(m.payload), "event").Some?
    ensures
      var x := Subscription(StringAt(Some(m.payload), "source").value, StringAt(Some(m.payload), "event").value);
      var cs := HandleMethod(s, m).clients;
      var ds := SendEvent(cs, Some(source), SUBSCRIBERS, identifier, Some(payload), now);
      && |cs| == |ds| == |s.clients|
      && (Covers(x, source, identifier) ==>
            ds[i].events == cs[i].events + [Notice(TYPE_EVENT, source, identifier, cs[i].esequence, payload)])
      && (!Covers(x, source, identifier) && Deaf(s.clients[i], source, identifier) ==> ds[i].events == cs[i].events)
  {
    hide Mbus, StringAt, SendEvent, HandleMethod, Asks, Hears;
    NamesDiffer();
    AsksIs(s, m, i, "command.subscribe");
    SubscribeHandled(s, m, i);
    var x := Subscription(StringAt(Some(m.payload), "source").value, StringAt(Some(m.payload), "event").value);
    var cs, c := HandleMethod(s, m).clients, s.clients[i];
    var ds := SendEvent(cs, Some(source), SUBSCRIBERS, identifier, Some(payload), now);
    EventToSubscribers(cs, source, identifier, payload, now);
    var subs := if x in c.subscriptions then c.subscriptions else c.subscriptions + [x];
    assert cs[i].subscriptions == subs;
    if Covers(x, source, identifier) {
      var k :| 0 <= k < |subs| && subs[k] == x;
      assert Recipient(cs, i, source, SUBSCRIBERS, identifier);
    } else if Deaf(c, source, identifier) {
      forall k | 0 <= k < |subs| ensures !Covers(subs[k], source, identifier) {}
      assert !Recipient(cs, i, source, SUBSCRIBERS, identifier);
    }
  }

  lemma EventToSubscribers(cs: seq<Client>, source: string, identifier: string, payload: Json, now: int)
    ensures FannedOut(cs, SendEvent(cs, Some(source), SUBSCRIBERS, identifier, Some(payload), now), source, SUBSCRIBERS, identifier, payload)
  {
    hide Mbus;
    NamesDiffer();
  }

  // ----- results of calls -----

  /** The first call of client a that waits for this result: of that sequence number and command, to the
      client of that name. */
  ghost predicate Awaited(s: Server, a: nat, n: nat, destination: string, source: string, identifier: string, sequence: int) {
    && a < |s.clients| && n < |s.clients[a].waits| && s.clients[a].identifier == Some(destination)
    && Fits(s.clients[a].waits[n], source, identifier, sequence)
    && forall k | 0 <= k < n :: !Fits(s.clients[a].waits[k], source, identifier, sequence)
  }

  ghost predicate Fits(w: Request, source: string, identifier: string, sequence: int) {
    w.destination == source && w.identifier == identifier && w.sequence == sequence
  }

  /** The caller has its answer, and waits for the other calls as before. */
  function Answered(c: Client, n: nat, status: int, payload: Option<Json>): Client
    requires n < |c.waits|
  {
    c.(waits := c.waits[..n] + c.waits[n + 1..], results := c.results + [Returned(c.waits[n], status, payload)])
  }

  ghost predicate WaitsUnanswered(s: Server) {
    forall a, n | 0 <= a < |s.clients| && 0 <= n < |s.clients[a].waits| ::
      s.clients[a].waits[n].result == InitialResult(s.clients[a].waits[n].sequence)
  }

  /** The i-th client gets its own answer 0, and nothing else happens. */
  ghost predicate Settled(cs: seq<Client>, s: Server, t: Server, i: nat, m: Request) {
    i < |cs| && t == s.(clients := cs[i := WithResult(cs[i], Replied(m, 0, Object([])))])
  }

  /** The result of a call, sent by the client that was called: the first call it fits is answered with its
      status and payload and waits no longer; if there is none, only the result itself is answered. A
      result without its fields, or of a client that has no name, is refused. */
  lemma ResultHandled(s: Server, m: Request, i: nat)
    requires Asks(s, m, i, "command.result") && DistinctNames(s.clients) && WaitsUnanswered(s)
    ensures
      var p, t := Some(m.payload), HandleMethod(s, m);
      var source, destination, identifier := s.clients[i].identifier, StringAt(p, TAG_DESTINATION), StringAt(p, TAG_IDENTIFIER);
      var sequence, status := IntAt(p, TAG_SEQUENCE, -1), IntAt(p, TAG_STATUS, -1);
      if source.None? || destination.None? || identifier.None? || !(1 <= sequence <= 9998) then Denied(s, t, i, s.clients[i], m)
      else
        && (forall a: nat, n: nat | Awaited(s, a, n, destination.value, source.value, identifier.value, sequence) ::
              Settled(s.clients[a := Answered(s.clients[a], n, status, LookUp(p, TAG_PAYLOAD))], s, t, i, m))
        && ((forall a: nat, n: nat :: !Awaited(s, a, n, destination.value, source.value, identifier.value, sequence)) ==>
              Settled(s.clients, s, t, i, m))
  {
    hide StringAt, IntAt, LookUp, Denied, Asks, Settled, Awaited, Filed, HandleMethod, WaitsUnanswered, Answered;
    AsksIs(s, m, i, "command.result");
    Dispatch(s, m, i);
    assert ServerCommand(s, i, m) == Return(s, i, m) by { ReturnDispatch(s, m, i); }
    var p := Some(m.payload);
    var source, destination, identifier := s.clients[i].identifier, StringAt(p, TAG_DESTINATION), StringAt(p, TAG_IDENTIFIER);
    var sequence, status := IntAt(p, TAG_SEQUENCE, -1), IntAt(p, TAG_STATUS, -1);
    if source.None? || destination.None? || identifier.None? || !(1 <= sequence <= 9998) {
      RefusalDenies(s, i, s.clients[i], m);
    } else {
      ReturnAnswers(s, i, m, source.value, destination.value, identifier.value, sequence);
      var o := Return(s, i, m);
      forall a: nat, n: nat | Awaited(s, a, n, destination.value, source.value, identifier.value, sequence)
        ensures a < |s.clients| && n < |s.clients[a].waits|
      {
        AwaitedInside(s, a, n, destination.value, source.value, identifier.value, sequence);
      }
      forall a: nat, n: nat | Awaited(s, a, n, destination.value, source.value, identifier.value, sequence)
        ensures Settled(s.clients[a := Answered(s.clients[a], n, status, LookUp(p, TAG_PAYLOAD))], s, Filed(o, m), i, m)
      {
        SpreadSettled(s, m, i, o);
      }
      if forall a: nat, n: nat :: !Awaited(s, a, n, destination.value, source.value, identifier.value, sequence) {
        SpreadSettled(s, m, i, o);
      }
    }
  }

  lemma AwaitedInside(s: Server, a: nat, n: nat, destination: string, source: string, identifier: string, sequence: int)
    requires Awaited(s, a, n, destination, source, identifier, sequence)
    ensures a < |s.clients| && n < |s.clients[a].waits|
  {
  }

  lemma SpreadSettled(s: Server, m: Request, i: nat, o: Outcome)
    requires Asks(s, m, i, m.identifier) && o == Outcome(s.(clients := o.server.clients), 0, m)
    requires |o.server.clients| == |s.clients| && forall k | 0 <= k < |s.clients| :: o.server.clients[k].handle == s.clients[k].handle
    ensures Settled(o.server.clients, s, Filed(o, m), i, m)
  {
    hide Filed;
    SpreadFiled(s, m, i, o.server.clients);
  }

  lemma ReturnDispatch(s: Server, m: Request, i: nat)
    requires i < |s.clients| && m.identifier == "command.result"
    ensures ServerCommand(s, i, m) == Return(s, i, m)
  {
    hide Return;
    assert "command.result"[8] == 'r' && "command.create"[8] == 'c' && "command.subscribe"[8] == 's' && "command.unsubscribe"[8] == 'u';
    assert |"command.register"| != |"command.result"| && "command.unregister"[8] == 'u';
  }

  lemma ReturnAnswers(s: Server, i: nat, m: Request, source: string, destination: string, identifier: string, sequence: int)
    requires i < |s.clients| && DistinctNames(s.clients) && WaitsUnanswered(s) && 1 <= sequence <= 9998
    requires
      var p := Some(m.payload);
      s.clients[i].identifier == Some(source) && StringAt(p, TAG_DESTINATION) == Some(destination)
      && StringAt(p, TAG_IDENTIFIER) == Some(identifier) && IntAt(p, TAG_SEQUENCE, -1) == sequence
    ensures
      var o, p := Return(s, i, m), Some(m.payload);
      && o == Outcome(s.(clients := o.server.clients), 0, m)
      && |o.server.clients| == |s.clients| && (forall k | 0 <= k < |s.clients| :: o.server.clients[k].handle == s.clients[k].handle)
      && (forall a: nat, n: nat | Awaited(s, a, n, destination, source, identifier, sequence) ::
            o.server.clients == s.clients[a := Answered(s.clients[a], n, IntAt(p, TAG_STATUS, -1), LookUp(p, TAG_PAYLOAD))])
      && ((forall a: nat, n: nat :: !Awaited(s, a, n, destination, source, identifier, sequence)) ==> o.server == s)
  {
    hide StringAt, IntAt, LookUp, FindWait, Find, Mbus, SetResultCode, SetResultPayload, InitialResult;
    var p, j := Some(m.payload), Find(s.clients, destination);
    forall a: nat, n: nat | Awaited(s, a, n, destination, source, identifier, sequence)
      ensures j == Some(a) && FindWait(s.clients[a].waits, source, identifier, sequence) == Some(n)
    {
      FoundFirst(s, a, n, destination, source, identifier, sequence);
    }
    if j.Some? {
      var k := FindWait(s.clients[j.value].waits, source, identifier, sequence);
      if k.Some? {
        assert Awaited(s, j.value, k.value, destination, source, identifier, sequence);
        ReturnedIs(s.clients[j.value].waits[k.value], IntAt(p, TAG_STATUS, -1), LookUp(p, TAG_PAYLOAD));
      }
    }
  }

  lemma FoundFirst(s: Server, a: nat, n: nat, destination: string, source: string, identifier: string, sequence: int)
    requires DistinctNames(s.clients) && Awaited(s, a, n, destination, source, identifier, sequence)
    ensures Find(s.clients, destination) == Some(a) && FindWait(s.clients[a].waits, source, identifier, sequence) == Some(n)
  {
    hide Find, FindWait;
    var f := FindWait(s.clients[a].waits, source, identifier, sequence);
    assert f.Some?;
    assert AnsweredBy(s.clients[a].waits[f.value], source, identifier, sequence);
    assert AnsweredBy(s.clients[a].waits[n], source, identifier, sequence);
  }
}

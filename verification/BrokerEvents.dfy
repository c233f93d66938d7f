/** Who receives an event: the exact effect of one call of server_send_event_to. */
module BrokerEvents {
  import opened Options
  import opened JsonText
  import opened Methods
  import opened BrokerState
  import opened BrokerCalm

  /** Whom an event is for, by its destination. The server itself receives nothing. */
  ghost predicate Recipient(clients: seq<Client>, i: nat, source: string, destination: string, identifier: string)
    requires i < |clients|
  {
    var c := clients[i];
    if destination == SERVER then false
    else if destination == EVERYONE then c.identifier.Some? && c.identifier.value != source
    else if destination == SUBSCRIBERS then
      exists k | 0 <= k < |c.subscriptions| ::
        && (c.subscriptions[k].source == source || c.subscriptions[k].source == ANY_SOURCE)
        && (c.subscriptions[k].event == identifier || c.subscriptions[k].event == ANY_EVENT)
    else c.identifier == Some(destination)
  }

  /** The client with one more event, numbered with its own counter. */
  function WithEvent(c: Client, n: Notice): Client {
    c.(events := c.events + [n], esequence := NextSequence(c.esequence))
  }

  /** Exactly one event for every recipient, and no other change to anybody. */
  ghost predicate FannedOut(cs: seq<Client>, ds: seq<Client>, source: string, destination: string, identifier: string, data: Json)
  {
    |ds| == |cs| && forall i | 0 <= i < |cs| ::
      ds[i] == if Recipient(cs, i, source, destination, identifier)
               then WithEvent(cs[i], Notice(TYPE_EVENT, source, identifier, cs[i].esequence, data)) else cs[i]
  }

  /** An event that is not a ping to the server: each recipient gets it once, however many of its
      subscriptions match. */
  lemma EventFansOut(cs: seq<Client>, source: string, destination: string, identifier: string, payload: Option<Json>, now: int)
    requires DistinctNames(cs) && !(destination == SERVER && identifier == PING)
    ensures FannedOut(cs, SendEvent(cs, Some(source), destination, identifier, payload, now), source, destination, identifier,
                      if payload.None? then Object([]) else payload.value)
  {
    hide Mbus, Find;
    NamesDiffer();
    var data := if payload.None? then Object([]) else payload.value;
    var ds := SendEvent(cs, Some(source), destination, identifier, payload, now);
    if destination !in {SERVER, EVERYONE, SUBSCRIBERS} {
      var f := Find(cs, destination);
      assert ds == ToOne(cs, source, destination, identifier, data);
      forall i | 0 <= i < |cs| && cs[i].identifier == Some(destination)
        ensures f == Some(i)
      {
      }
    }
  }

  /** A ping to the server: its time is noted, and one pong goes back to the source, and nothing else
      happens. Were the source named like one of the destinations, the pong would go where these go. */
  lemma PingAnswered(cs: seq<Client>, source: string, payload: Option<Json>, now: int)
    requires DistinctNames(cs)
    ensures
      var pinged, ds := PingReceived(cs, source, now), SendEvent(cs, Some(source), SERVER, PING, payload, now);
      && |pinged| == |cs| == |ds|
      && (forall i | 0 <= i < |cs| ::
            pinged[i] == if cs[i].identifier == Some(source) then cs[i].(ping := cs[i].ping.(received := now)) else cs[i])
      && FannedOut(pinged, ds, SERVER, source, PONG, Object([]))
      && (source !in {SERVER, EVERYONE, SUBSCRIBERS} ==>
            forall i | 0 <= i < |cs| ::
              ds[i] == if cs[i].identifier == Some(source)
                       then WithEvent(cs[i].(ping := cs[i].ping.(received := now)),
                                      Notice(TYPE_EVENT, SERVER, PONG, cs[i].esequence, Object([])))
                       else cs[i])
  {
    hide Mbus, Find, SendEvent, FannedOut;
    NamesDiffer();
    var pinged := PingReceived(cs, source, now);
    var f := Find(cs, source);
    forall i | 0 <= i < |cs|
      ensures pinged[i] == if cs[i].identifier == Some(source) then cs[i].(ping := cs[i].ping.(received := now)) else cs[i]
    {
    }
    PingUnfolds(cs, source, payload, now);
    EventFansOut(pinged, SERVER, source, PONG, None, now);
    var ds := SendEvent(pinged, Some(SERVER), source, PONG, None, now);
    FannedLength(pinged, ds, SERVER, source, PONG, Object([]));
    if source !in {SERVER, EVERYONE, SUBSCRIBERS} {
      FannedToOne(pinged, ds, SERVER, source, PONG, Object([]));
    }
  }

  lemma FannedLength(cs: seq<Client>, ds: seq<Client>, source: string, destination: string, identifier: string, data: Json)
    requires FannedOut(cs, ds, source, destination, identifier, data)
    ensures |ds| == |cs|
  {
  }

  lemma PingUnfolds(cs: seq<Client>, source: string, payload: Option<Json>, now: int)
    ensures SendEvent(cs, Some(source), SERVER, PING, payload, now)
         == SendEvent(PingReceived(cs, source, now), Some(SERVER), source, PONG, None, now)
  {
    hide Mbus, PingReceived;
  }

  lemma FannedToOne(cs: seq<Client>, ds: seq<Client>, source: string, name: string, identifier: string, data: Json)
    requires name !in {SERVER, EVERYONE, SUBSCRIBERS} && FannedOut(cs, ds, source, name, identifier, data)
    ensures |ds| == |cs| && forall i | 0 <= i < |cs| ::
      ds[i] == if cs[i].identifier == Some(name)
               then WithEvent(cs[i], Notice(TYPE_EVENT, source, identifier, cs[i].esequence, data)) else cs[i]
  {
    hide Mbus;
  }

  /** Without a source nothing is sent; to the server, everything but a ping is ignored. */
  lemma NothingSent(cs: seq<Client>, source: Option<string>, destination: string, identifier: string, payload: Option<Json>, now: int)
    requires source.None? || (destination == SERVER && identifier != PING)
    ensures SendEvent(cs, source, destination, identifier, payload, now) == cs
  {
    hide Mbus;
  }

  // ----- for any names at all -----

  /** Whatever the names: only event queues, their counters and ping times change. */
  ghost predicate OnlyEvents(cs: seq<Client>, ds: seq<Client>) {
    |ds| == |cs| && forall i | 0 <= i < |cs| ::
      ds[i] == cs[i].(events := ds[i].events, esequence := ds[i].esequence, ping := ds[i].ping)
  }

  lemma SendEventOnly(cs: seq<Client>, source: Option<string>, destination: string, identifier: string,
                      payload: Option<Json>, now: int)
    ensures OnlyEvents(cs, SendEvent(cs, source, destination, identifier, payload, now))
    decreases identifier == PING
  {
    hide Mbus, Find, Subscribed;
    if source.Some? && destination == SERVER && identifier == PING {
      NamesDiffer();
      var ds := PingReceived(cs, source.value, now);
      SendEventOnly(ds, Some(SERVER), source.value, PONG, None, now);
      PingUnfolds(cs, source.value, payload, now);
      hide SendEvent;
    }
  }
}

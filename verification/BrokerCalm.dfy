/** What most steps of the broker leave alone: who the clients are, what they asked for, and what
    has been answered. Event queues grow, but with consecutive sequence numbers. */
module BrokerCalm {
  import opened Options
  import opened JsonText
  import opened Methods
  import opened BrokerState

  // ----- event numbering -----

  function EventLog(c: Client): seq<Notice> {
    c.delivered + c.events
  }

  /** All events ever queued for a client, delivered or not, are numbered in order, and the next
      number is the one that follows. */
  ghost predicate Numbered(c: Client) {
    && (forall k | 0 <= k < |EventLog(c)| :: EventLog(c)[k].sequence == Cyclic(k))
    && c.esequence == Cyclic(|EventLog(c)|)
  }

  lemma PushEventNumbered(c: Client, source: string, identifier: string, payload: Json)
    requires Numbered(c)
    ensures Numbered(PushEvent(c, source, identifier, payload))
  {
    hide Cyclic;
    var d := PushEvent(c, source, identifier, payload);
    var n := Notice(TYPE_EVENT, source, identifier, c.esequence, payload);
    CyclicNext(|EventLog(c)|);
    assert EventLog(d) == EventLog(c) + [n];
  }

  // ----- calm steps -----

  /** What has been answered, serialised or not, in order of completion. */
  function Answered(c: Client): seq<Request> {
    c.sent + c.results
  }

  ghost predicate Calm(c: Client, d: Client) {
    && d.handle == c.handle && d.log == c.log && d.waits == c.waits
    && Answered(d) == Answered(c)
    && (c.identifier.Some? ==> d.identifier == c.identifier)
    && (Numbered(c) ==> Numbered(d))
  }

  ghost predicate CalmAll(cs: seq<Client>, ds: seq<Client>) {
    |cs| == |ds| && forall i | 0 <= i < |cs| :: Calm(cs[i], ds[i])
  }

  /** Nobody is named and no connected flag is set. */
  ghost predicate SameFaces(cs: seq<Client>, ds: seq<Client>) {
    |cs| == |ds| && forall i | 0 <= i < |cs| :: ds[i].identifier == cs[i].identifier && ds[i].connected == cs[i].connected
  }

  ghost predicate DistinctNames(cs: seq<Client>) {
    forall i, j | 0 <= i < j < |cs| :: cs[i].identifier.Some? ==> cs[i].identifier != cs[j].identifier
  }

  lemma CalmTwice(cs: seq<Client>, ds: seq<Client>, es: seq<Client>)
    requires CalmAll(cs, ds) && CalmAll(ds, es)
    ensures CalmAll(cs, es)
    ensures SameFaces(cs, ds) && SameFaces(ds, es) ==> SameFaces(cs, es)
  {
    hide Numbered;
  }

  lemma CalmUpdate(cs: seq<Client>, i: nat, d: Client)
    requires i < |cs| && Calm(cs[i], d)
    ensures CalmAll(cs, cs[i := d])
    ensures d.identifier == cs[i].identifier && d.connected == cs[i].connected ==> SameFaces(cs, cs[i := d])
  {
    hide Numbered;
  }

  // ----- every event is a calm step -----

  lemma PushEventCalm(c: Client, source: string, identifier: string, payload: Json)
    ensures Calm(c, PushEvent(c, source, identifier, payload))
  {
    hide Numbered;
    if Numbered(c) {
      PushEventNumbered(c, source, identifier, payload);
    }
  }

  lemma ToManyCalm(cs: seq<Client>, source: string, identifier: string, payload: Json)
    ensures CalmAll(cs, ToEveryone(cs, source, identifier, payload))
    ensures SameFaces(cs, ToEveryone(cs, source, identifier, payload))
    ensures CalmAll(cs, ToSubscribers(cs, source, identifier, payload))
    ensures SameFaces(cs, ToSubscribers(cs, source, identifier, payload))
  {
    hide Numbered, Subscribed, PushEvent;
    forall i | 0 <= i < |cs|
      ensures Calm(cs[i], PushEvent(cs[i], source, identifier, payload))
    {
      PushEventCalm(cs[i], source, identifier, payload);
      PushEventFace(cs[i], source, identifier, payload);
    }
    forall i | 0 <= i < |cs|
      ensures PushEvent(cs[i], source, identifier, payload).identifier == cs[i].identifier
      ensures PushEvent(cs[i], source, identifier, payload).connected == cs[i].connected
    {
      PushEventFace(cs[i], source, identifier, payload);
    }
  }

  lemma PushEventFace(c: Client, source: string, identifier: string, payload: Json)
    ensures PushEvent(c, source, identifier, payload).identifier == c.identifier
    ensures PushEvent(c, source, identifier, payload).connected == c.connected
  {
  }

  lemma ToOneCalm(cs: seq<Client>, source: string, destination: string, identifier: string, payload: Json)
    ensures CalmAll(cs, ToOne(cs, source, destination, identifier, payload))
    ensures SameFaces(cs, ToOne(cs, source, destination, identifier, payload))
  {
    hide Numbered, PushEvent;
    var i := Find(cs, destination);
    if i.Some? {
      PushEventCalm(cs[i.value], source, identifier, payload);
      PushEventFace(cs[i.value], source, identifier, payload);
      CalmUpdate(cs, i.value, PushEvent(cs[i.value], source, identifier, payload));
    }
  }

  lemma PingReceivedCalm(cs: seq<Client>, source: string, now: int)
    ensures CalmAll(cs, PingReceived(cs, source, now)) && SameFaces(cs, PingReceived(cs, source, now))
  {
    var i := Find(cs, source);
    if i.Some? {
      CalmUpdate(cs, i.value, cs[i.value].(ping := cs[i.value].ping.(received := now)));
    }
  }

  lemma SendEventCalm(cs: seq<Client>, source: Option<string>, destination: string, identifier: string,
                      payload: Option<Json>, now: int)
    ensures CalmAll(cs, SendEvent(cs, source, destination, identifier, payload, now))
    ensures SameFaces(cs, SendEvent(cs, source, destination, identifier, payload, now))
    decreases identifier == PING
  {
    hide Numbered, Mbus, ToEveryone, ToSubscribers, ToOne, PingReceived, Calm;
    CalmSelf(cs);
    if source.Some? {
      if destination == SERVER && identifier == PING {
        NamesDiffer();
        var ds := PingReceived(cs, source.value, now);
        PingReceivedCalm(cs, source.value, now);
        SendEventCalm(ds, Some(SERVER), source.value, PONG, None, now);
        CalmTwice(cs, ds, SendEvent(ds, Some(SERVER), source.value, PONG, None, now));
      } else {
        var data := if payload.None? then Object([]) else payload.value;
        ToManyCalm(cs, source.value, identifier, data);
        ToOneCalm(cs, source.value, destination, identifier, data);
      }
    }
  }

  lemma CalmSelf(cs: seq<Client>)
    ensures CalmAll(cs, cs) && SameFaces(cs, cs)
  {
  }

  // ----- who is found -----

  lemma {:induction false} LocateSame(cs: seq<Client>, ds: seq<Client>, handle: nat)
    requires |cs| == |ds| && forall i | 0 <= i < |cs| :: ds[i].handle == cs[i].handle
    ensures Locate(cs, handle) == Locate(ds, handle)
    decreases |cs|
  {
    if cs != [] && cs[0].handle != handle {
      LocateSame(cs[1..], ds[1..], handle);
    }
  }

  lemma CalmLocates(cs: seq<Client>, ds: seq<Client>, handle: nat)
    requires CalmAll(cs, ds)
    ensures Locate(cs, handle) == Locate(ds, handle)
  {
    hide Numbered;
    forall i | 0 <= i < |cs|
      ensures ds[i].handle == cs[i].handle
    {
      assert Calm(cs[i], ds[i]);
    }
    LocateSame(cs, ds, handle);
  }

  lemma CalmFinds(cs: seq<Client>, ds: seq<Client>, name: string)
    requires CalmAll(cs, ds) && Find(cs, name).Some?
    ensures Find(ds, name).Some?
  {
    hide Numbered, Find;
    var i := Find(cs, name).value;
    assert Calm(cs[i], ds[i]);
  }
}

/** What the requests of the application come to: what is queued, what is written, and who is told of
    their end. */
module ClientRequests {
  import opened Options
  import opened Compress
  import opened JsonText
  import opened JsonPath
  import opened Methods
  import opened ClientState
  import opened ClientInvariant
  import opened ClientAnswers

  // ----- what is queued -----

  /** A command is queued, once, exactly if the client is in the state for it and the timeout is none that
      a request refuses; the timeout that is not given is that of the settings. */
  lemma CommandQueued(e: Engine, handler: Handler, destination: string, command: string, payload: Option<Json>, timeout: int, now: int)
    requires 1 <= e.sequence <= 9998
    ensures
      var (d, ok) := Command(e, handler, destination, command, payload, timeout, now);
      var limit := if timeout > 0 then timeout else e.settings.commandTimeout;
      && ok == (limit >= 0 && if command == "command.create" then e.state.Connecting? else e.state.Connected?)
      && (!ok ==> d == e)
      && (ok ==> Joins(e, d, TYPE_COMMAND, destination, command, if payload.None? then Object([]) else payload.value, handler, limit, now))
  {
    hide Joins, Enqueue, Mbus;
    EnqueueJoins(e, TYPE_COMMAND, destination, command, payload, handler, if timeout > 0 then timeout else e.settings.commandTimeout, now);
  }

  /** The payload of a command that carries an event. */
  ghost predicate Carries(payload: Json, destination: string, event: string, data: Json) {
    var p := Some(payload);
    StringAt(p, TAG_DESTINATION) == Some(destination) && StringAt(p, TAG_IDENTIFIER) == Some(event) && LookUp(p, TAG_PAYLOAD) == Some(data)
  }

  lemma EventPayloadCarries(destination: string, event: string, payload: Option<Json>)
    ensures Carries(EventPayload(destination, event, payload), destination, event, if payload.None? then Object([]) else payload.value)
  {
    hide Mbus, LookUp, FindMember;
    AnswerTagsDiffer();
    TagsPlain();
    var a, b := Member(TAG_DESTINATION, String(destination)), Member(TAG_IDENTIFIER, String(event));
    var c := Member(TAG_PAYLOAD, if payload.None? then Object([]) else payload.value);
    forall tag | tag in {TAG_DESTINATION, TAG_IDENTIFIER, TAG_PAYLOAD}
      ensures LookUp(Some(Object([a, b, c])), tag)
           == Some(if tag == TAG_DESTINATION then a.value else if tag == TAG_IDENTIFIER then b.value else c.value)
    {
      Field([a, b, c], tag);
      FindOne(a, tag);
      FindOne(b, tag);
      FindOne(c, tag);
      FindJoined([a], [b], tag);
      FindJoined([a] + [b], [c], tag);
      assert [a] + [b] + [c] == [a, b, c];
    }
  }

  /** An event of a connected client is queued as it is, or in a command to the broker if it has to arrive at
      least once; without a destination it goes to the subscribers. */
  lemma PublishQueued(e: Engine, destination: Option<string>, event: string, payload: Option<Json>, qos: Qos, timeout: int, now: int)
    requires 1 <= e.sequence <= 9998 && e.state.Connected?
    requires e.settings.publishTimeout >= 0
    ensures
      var (d, ok) := Publish(e, destination, event, payload, qos, timeout, now);
      var to := if destination.None? then "org.mbus.method.event.destination.subscribers" else destination.value;
      var data := if payload.None? then Object([]) else payload.value;
      var limit := if timeout > 0 then timeout else e.settings.publishTimeout;
      && ok
      && match qos
         case AtMostOnce => Joins(e, d, TYPE_EVENT, to, event, data, UserHandler, limit, now)
         case AtLeastOnce =>
           exists carried: Json :: Carries(carried, to, event, data)
             && (limit > 0 ==> Joins(e, d, TYPE_COMMAND, "org.mbus.server", "command.event", carried, EventHandler, limit, now))
  {
    hide Joins, Enqueue, Mbus, EventPayload, Carries;
    NamesSpelled();
    SubscribersSpelled();
    var to := if destination.None? then SUBSCRIBERS else destination.value;
    var limit := if timeout > 0 then timeout else e.settings.publishTimeout;
    EventPayloadCarries(to, event, payload);
    EnqueueJoins(e, TYPE_EVENT, to, event, payload, UserHandler, limit, now);
    CommandQueued(e, EventHandler, SERVER, "command.event", Some(EventPayload(to, event, payload)), limit, now);
    assert "command.event" != "command.create" by { assert "command.event"[8] == 'e'; }
  }

  lemma SubscribersSpelled()
    ensures SUBSCRIBERS == "org.mbus.method.event.destination.subscribers"
  {
  }

  // ----- what is written -----

  function Texts(items: seq<Item>, codec: Compression): seq<Frame> {
    seq(|items|, k requires 0 <= k < |items| => Frame(codec, RequestText(items[k])))
  }

  function Commands(items: seq<Item>): seq<Item> {
    if items == [] then [] else (if items[0].kind == TYPE_EVENT then [] else [items[0]]) + Commands(items[1..])
  }

  function SentEvents(items: seq<Item>): seq<Completion> {
    if items == [] then [] else (if items[0].kind == TYPE_EVENT then [Completion(items[0], Sent)] else []) + SentEvents(items[1..])
  }

  lemma Joined<T>(a: seq<T>, b: seq<T>, c: seq<T>)
    ensures (a + b) + c == a + (b + c) && a + [] == a
  {
  }

  lemma FlushStep(e: Engine)
    requires e.requests != []
    ensures
      var r, d := e.requests[0], FlushOne(e);
      && d.requests == e.requests[1..] && d.outgoing == e.outgoing + [Frame(e.compression, RequestText(r))] && d.compression == e.compression
      && d.pendings == e.pendings + (if r.kind == TYPE_EVENT then [] else [r])
      && d.history.completed == e.history.completed + (if r.kind == TYPE_EVENT then [Completion(r, Sent)] else [])
      && d == e.(requests := d.requests, outgoing := d.outgoing, pendings := d.pendings, history := d.history)
      && d.history == e.history.(completed := d.history.completed, callbacks := d.history.callbacks)
  {
    hide RequestText, Mbus, CallbackOf;
  }

  /** All requests are written, in order and with the compression of the client; the commands among them
      are pending then, behind those that were, and the events are done. */
  lemma {:induction false} FlushWrites(e: Engine)
    ensures
      var d := Flush(e);
      && d.outgoing == e.outgoing + Texts(e.requests, e.compression) && d.requests == []
      && d.pendings == e.pendings + Commands(e.requests)
      && d.history.completed == e.history.completed + SentEvents(e.requests)
      && d == e.(requests := [], outgoing := d.outgoing, pendings := d.pendings, history := d.history)
      && d.history == e.history.(completed := d.history.completed, callbacks := d.history.callbacks)
    decreases |e.requests|
  {
    hide FlushOne, RequestText, Mbus;
    if e.requests == [] {
      Joined(e.outgoing, [], []);
      Joined(e.pendings, [], []);
      Joined(e.history.completed, [], []);
      assert Texts([], e.compression) == [];
    } else {
      var r, d := e.requests[0], FlushOne(e);
      FlushStep(e);
      FlushWrites(d);
      assert Texts(e.requests, e.compression) == [Frame(e.compression, RequestText(r))] + Texts(e.requests[1..], e.compression);
      Joined(e.outgoing, [Frame(e.compression, RequestText(r))], Texts(e.requests[1..], e.compression));
      Joined(e.pendings, if r.kind == TYPE_EVENT then [] else [r], Commands(e.requests[1..]));
      Joined(e.history.completed, if r.kind == TYPE_EVENT then [Completion(r, Sent)] else [], SentEvents(e.requests[1..]));
    }
  }

  // ----- who is told of the end -----

  /** The wrapper that issues commands of that name. */
  function WrapperOf(identifier: string): Option<Handler> {
    if identifier == "command.event" then Some(EventHandler)
    else if identifier == "command.subscribe" then Some(SubscribeHandler)
    else if identifier == "command.unsubscribe" then Some(UnsubscribeHandler)
    else if identifier == "command.register" then Some(RegisterHandler)
    else if identifier == "command.unregister" then Some(UnregisterHandler)
    else None
  }

  /** A command that ends without an answer is reported where its answer would have been, exactly if it does
      not borrow the name of a wrapper: under such a name it goes to the callback of the wrapper. */
  lemma ChannelsAgree(r: Item, answer: Json, at: int)
    requires r.kind == TYPE_COMMAND
    ensures
      var answered, late, gone := CallbackOf(Completion(r, Answered(answer))), CallbackOf(Completion(r, TimedOut(at))),
                                  CallbackOf(Completion(r, Canceled));
      && answered.Some? && late.Some? && gone.Some?
      && late.value.serial == gone.value.serial == answered.value.serial == r.serial
      && late.value.status == Timeout && gone.value.status == Cancel && late.value.channel == gone.value.channel
      && (late.value.channel == answered.value.channel <==> WrapperOf(r.identifier).None? || WrapperOf(r.identifier) == Some(r.handler))
  {
    hide IntAt, Mbus;
    KindsDiffer();
  }

  /** The end of an event is reported to the publish callback, whatever it is, unless the event is for the
      broker or called a ping: then nobody is told. */
  lemma EventsReported(r: Item, how: How)
    requires r.kind == TYPE_EVENT && !how.Answered?
    ensures
      CallbackOf(Completion(r, how))
      == if r.destination == "org.mbus.server" || r.identifier == "org.mbus.server.event.ping" then None
         else Some(Callback(ToPublish, r.serial, if how.Sent? then Success else if how.TimedOut? then Timeout else Cancel))
  {
    NamesSpelled();
  }

  // ----- pings -----

  /** A ping goes out when none is awaited and the last is more than an interval ago, and only then. After
      the check no pong is overdue; each that was is one more miss. */
  lemma PingDue(e: Engine, now: int)
    requires Sound(e) && e.state.Connected? && e.ping.interval > 0 && e.settings.publishTimeout >= 0
    ensures
      var (d, ok) := CheckPing(e, now);
      var due := !e.ping.waiting && now > e.ping.sent + e.ping.interval;
      var sent := if due then now else e.ping.sent;
      var overdue := (due || (e.ping.waiting && e.ping.received == 0)) && sent != 0 && now > sent + e.ping.timeout;
      && ok
      && (d.state.Connected? ==>
            && d.ping.missed == e.ping.missed + (if overdue then 1 else 0) && d.ping.missed <= d.ping.threshold
            && d.ping.waiting == ((due || e.ping.waiting) && !overdue) && d.ping.sent == sent
            && (if due then
                  exists c: Engine :: c == e.(ping := d.ping)
                    && Joins(c, d, TYPE_EVENT, "org.mbus.server", "org.mbus.server.event.ping", Object([]), UserHandler, e.settings.publishTimeout, now)
                else d == e.(ping := d.ping)))
  {
    hide Sound, Mbus, Joins, Enqueue, Reset;
    NamesSpelled();
    SequenceOk(e);
    var c := e.(ping := e.ping.(sent := now, received := 0, waiting := true, pings := e.ping.pings + [now]));
    PublishQueued(c, Some(SERVER), PING, None, AtMostOnce, 0, now);
    if !e.ping.waiting && now > e.ping.sent + e.ping.interval {
      var d := SendPing(e, now).0;
      PingJoined(c, d, now);
      assert c.(ping := MissPong(d.ping, now)) == e.(ping := MissPong(d.ping, now));
    } else {
      assert e.(ping := e.ping) == e;
    }
  }

  lemma PingJoined(c: Engine, d: Engine, now: int)
    requires Joins(c, d, TYPE_EVENT, "org.mbus.server", "org.mbus.server.event.ping", Object([]), UserHandler, c.settings.publishTimeout, now)
    ensures d.ping == c.ping && d.state == c.state
    ensures forall p: Ping :: Joins(c.(ping := p), d.(ping := p), TYPE_EVENT, "org.mbus.server", "org.mbus.server.event.ping", Object([]),
                                    UserHandler, c.settings.publishTimeout, now)
  {
  }
}

/** Messages on their way, as text: what one end writes is what the other reads, for events, for pings, for
    calls and their results, and for the settings the two ends agree on. */
module CodecCalls {
  import opened Options
  import opened Compress
  import opened JsonStrings
  import opened JsonText
  import opened JsonPath
  import opened Methods
  import B = BrokerState
  import opened BrokerCalm
  import opened BrokerEvents
  import opened BrokerCalls
  import opened BrokerCommands
  import A = BrokerAnswers
  import opened ClientState
  import opened ClientInvariant
  import opened ClientAnswers
  import opened ClientRequests
  import opened CodecText
  import opened CodecLink

  // ----- notices -----

  ghost predicate ExactNotice(n: Notice) {
    NulFree(n.kind) && NulFree(n.source) && NulFree(n.identifier) && IsInt32(n.sequence) && Exact(n.payload)
  }

  /** The text of the notice. */
  function NoticeText(n: Notice): string {
    Print(NoticeJson(n), 0, false)
  }

  /** The tree has the five parts of the notice under their names. */
  ghost predicate Conveys(json: Json, n: Notice) {
    var j := Some(json);
    && StringAt(j, TAG_TYPE) == Some(n.kind) && StringAt(j, TAG_SOURCE) == Some(n.source)
    && StringAt(j, TAG_IDENTIFIER) == Some(n.identifier) && LookUp(j, TAG_SEQUENCE) == Some(Number(n.sequence))
    && LookUp(j, TAG_PAYLOAD) == Some(n.payload)
  }

  lemma SourceDiffers()
    ensures TAG_SOURCE !in {TAG_TYPE, TAG_IDENTIFIER, TAG_SEQUENCE, TAG_PAYLOAD, TAG_DESTINATION, TAG_STATUS} && NulFree(TAG_SOURCE)
  {
    assert TAG_SOURCE[20..] == "source" && TAG_TYPE[20..] == "type" && TAG_IDENTIFIER[20..] == "identifier";
    assert TAG_SEQUENCE[20..] == "sequence" && TAG_PAYLOAD[20..] == "payload" && TAG_DESTINATION[20..] == "destination";
    assert TAG_STATUS[20..] == "status" && TAG_STATUS[21] == 't' && TAG_SOURCE[21] == 'o';
  }

  lemma NoticeConveys(n: Notice)
    ensures Conveys(NoticeJson(n), n)
  {
    hide Mbus, LookUp, FindMember;
    TagsDiffer();
    AnswerTagsDiffer();
    RequestTagsDiffer();
    SourceDiffers();
    TagsPlain();
    var a, b := Member(TAG_TYPE, String(n.kind)), Member(TAG_SOURCE, String(n.source));
    var c, d := Member(TAG_IDENTIFIER, String(n.identifier)), Member(TAG_SEQUENCE, Number(n.sequence));
    var p := Member(TAG_PAYLOAD, n.payload);
    forall tag | tag in {TAG_TYPE, TAG_SOURCE, TAG_IDENTIFIER, TAG_SEQUENCE, TAG_PAYLOAD}
      ensures LookUp(Some(NoticeJson(n)), tag)
           == Some(if tag == TAG_TYPE then a.value else if tag == TAG_SOURCE then b.value else if tag == TAG_IDENTIFIER then c.value
                   else if tag == TAG_SEQUENCE then d.value else p.value)
    {
      assert NoticeJson(n) == Object([a, b, c, d] + [p]);
      Field([a, b, c, d] + [p], tag);
      FindFour(a, b, c, d, tag);
      FindOne(p, tag);
      FindJoined([a, b, c, d], [p], tag);
    }
  }

  /** A notice of the broker is read as it was meant, whatever it is about. */
  lemma NoticeArrives(n: Notice)
    requires ExactNotice(n)
    ensures Parse(NoticeText(n)) == Some(NoticeJson(n)) && Conveys(NoticeJson(n), n)
  {
    hide Mbus, Exact, NulFree, Conveys, Print, Parse;
    NoticeConveys(n);
    NoticeExact(n);
    TreeRoundTrip(NoticeJson(n), false);
  }

  // ----- results -----

  function ResultText(r: Request): string {
    Print(ResultJson(r), 0, false)
  }

  /** The tree is a result for that sequence number, with that status and payload. */
  ghost predicate Concludes(json: Json, sequence: int, status: int, payload: Option<Json>) {
    var j := Some(json);
    && StringAt(j, TAG_TYPE) == Some(TYPE_RESULT) && IntAt(j, TAG_SEQUENCE, -1) == sequence
    && LookUp(j, TAG_STATUS) == Some(Number(status)) && LookUp(j, TAG_PAYLOAD) == payload
  }

  lemma ResultConcludes(m: Request, status: int, payload: Option<Json>)
    ensures Concludes(ResultJson(Returned(m, status, payload)), m.sequence, status, payload)
    ensures payload.Some? ==> Concludes(ResultJson(Replied(m, status, payload.value)), m.sequence, status, payload)
  {
    hide Mbus, LookUp, FindMember;
    TagsDiffer();
    TagsPlain();
    var a, b := Member(TAG_TYPE, String(TYPE_RESULT)), Member(TAG_SEQUENCE, Number(m.sequence));
    var d, p := Member(TAG_STATUS, Number(status)), if payload.None? then [] else [Member(TAG_PAYLOAD, payload.value)];
    forall tag | tag in {TAG_TYPE, TAG_SEQUENCE, TAG_STATUS, TAG_PAYLOAD}
      ensures LookUp(Some(ResultJson(Returned(m, status, payload))), tag)
           == if tag == TAG_TYPE then Some(a.value) else if tag == TAG_SEQUENCE then Some(b.value)
              else if tag == TAG_STATUS then Some(d.value) else payload
      ensures payload.Some? ==>
        LookUp(Some(ResultJson(Replied(m, status, payload.value))), tag)
        == if tag == TAG_TYPE then Some(a.value) else if tag == TAG_SEQUENCE then Some(b.value)
           else if tag == TAG_STATUS then Some(d.value) else payload
    {
      assert ResultJson(Returned(m, status, payload)) == Object([a, b, d] + p);
      Field([a, b, d] + p, tag);
      FindOne(a, tag);
      FindOne(b, tag);
      FindOne(d, tag);
      FindJoined([a], [b], tag);
      FindJoined([a] + [b], [d], tag);
      assert [a] + [b] + [d] == [a, b, d];
      FindJoined([a, b, d], p, tag);
      if payload.Some? {
        var q := Member(TAG_PAYLOAD, payload.value);
        FindOne(q, tag);
        Field([a, b, q, d], tag);
        FindFour(a, b, q, d, tag);
      }
    }
  }

  /** An answer of the broker, or of the client that was called, is read as it was meant. */
  lemma ResultArrives(m: Request, status: int, payload: Option<Json>)
    requires IsInt32(m.sequence) && IsInt32(status) && (payload.Some? ==> Exact(payload.value))
    ensures
      var r := Returned(m, status, payload);
      Parse(ResultText(r)) == Some(ResultJson(r)) && Concludes(ResultJson(r), m.sequence, status, payload)
    ensures payload.Some? ==>
      var r := Replied(m, status, payload.value);
      Parse(ResultText(r)) == Some(ResultJson(r)) && Concludes(ResultJson(r), m.sequence, status, payload)
  {
    hide Mbus, Exact, NulFree, Concludes, Print, Parse;
    ResultConcludes(m, status, payload);
    TagsNulFree();
    NumbersExact(m.sequence, status);
    StringsExact(TYPE_RESULT, TYPE_RESULT);
    ExactObject(Returned(m, status, payload).result);
    TreeRoundTrip(ResultJson(Returned(m, status, payload)), false);
    if payload.Some? {
      ExactObject(Replied(m, status, payload.value).result);
      TreeRoundTrip(ResultJson(Replied(m, status, payload.value)), false);
    }
  }

  /** In a turn an open client is written the oldest of its results, or else of its calls, or else of its
      events, and it leaves its queue. */
  lemma EmitWrites(c: B.Client)
    requires c.open
    ensures
      var d, n := B.EmitOne(c), |c.out|;
      && (c.results != [] ==>
            d.results == c.results[1..] && d.requests == c.requests && d.events == c.events && |d.out| == n + 1 && d.out[..n] == c.out
            && (Exact(ResultJson(c.results[0])) ==> Parse(d.out[n].text) == Some(ResultJson(c.results[0]))))
      && (c.results == [] && c.requests != [] ==>
            d.results == [] && d.requests == c.requests[1..] && d.events == c.events && |d.out| == n + 1 && d.out[..n] == c.out
            && (ExactNotice(c.requests[0]) ==> Parse(d.out[n].text).Some? && Conveys(Parse(d.out[n].text).value, c.requests[0])))
      && (c.results == [] && c.requests == [] && c.events != [] ==>
            d.results == [] && d.requests == [] && d.events == c.events[1..] && |d.out| == n + 1 && d.out[..n] == c.out
            && (ExactNotice(c.events[0]) ==> Parse(d.out[n].text).Some? && Conveys(Parse(d.out[n].text).value, c.events[0])))
      && (c.results == [] && c.requests == [] && c.events == [] ==> d == c)
  {
    hide Mbus, Exact, ExactNotice, Conveys, Print, Parse, ResultJson, NoticeJson;
    if c.results != [] {
      if Exact(ResultJson(c.results[0])) { TreeRoundTrip(ResultJson(c.results[0]), false); }
    } else if c.requests != [] {
      if ExactNotice(c.requests[0]) { NoticeArrives(c.requests[0]); }
    } else if c.events != [] {
      if ExactNotice(c.events[0]) { NoticeArrives(c.events[0]); }
    }
  }

  // ----- arriving -----

  /** The message of a client joins the end of the queue of methods, and a command the list of those that are
      owed an answer; nothing else happens. */
  lemma RequestQueued(s: B.Server, i: nat, r: Item, at: int, draw: string)
    requires i < |s.clients| && ExactItem(r) && r.kind in {TYPE_COMMAND, TYPE_EVENT}
    ensures
      var c, m := s.clients[i], MethodOf(r, s.clients[i].handle, at, draw);
      B.Receive(s, i, B.Arrival(RequestText(r), at, draw))
      == (s.(clients := s.clients[i := c.(log := c.log + if r.kind == TYPE_COMMAND then [m] else [])], methods := s.methods + [m]), true)
  {
    hide Mbus, RequestText, ExactItem, InitialResult, CreateRequest;
    var c := s.clients[i];
    RequestArrives(r, c.handle, at, draw);
    assert c.log + [] == c.log;
  }

  // ----- pings -----

  /** What the broker makes of a request that arrives from the client of that handle. */
  function MethodOf(r: Item, handle: nat, at: int, draw: string): Request {
    Request(r.kind, r.destination, r.identifier, r.sequence, r.payload, handle, at, draw, InitialResult(r.sequence))
  }

  /** A client that pings the broker: the broker notes when, and sends it one pong more; and when the client
      reads it, it waits for no pong and has missed none. */
  lemma PingRoundTrip(s: B.Server, i: nat, r: Item, at: int, draw: string, e: Engine, reply: Option<Reply>, now: int)
    requires DistinctNames(s.clients) && i < |s.clients| && B.Locate(s.clients, s.clients[i].handle) == Some(i)
    requires s.clients[i].identifier.Some? && s.clients[i].identifier.value !in {SERVER, EVERYONE, SUBSCRIBERS}
    requires IsInt32(s.clients[i].esequence)
    requires ExactItem(r) && r.kind == TYPE_EVENT && r.destination == SERVER && r.identifier == PING
    ensures
      var m := CreateRequest(s.clients[i].handle, RequestText(r), at, draw);
      && m.Some?
      && var c, t := s.clients[i], B.HandleMethod(s, m.value);
         var n := Notice(TYPE_EVENT, SERVER, PONG, c.esequence, Object([]));
         && |t.clients| == |s.clients|
         && t.clients[i] == WithEvent(c.(ping := c.ping.(received := at)), n)
         && Receive(e, Incoming(NoticeText(n), reply), now)
            == (e.(ping := Ping(e.ping.interval, e.ping.timeout, e.ping.threshold, e.ping.sent, now, false, 0, [], [])), true)
  {
    hide Mbus, Parse, Print, ExactItem, B.HandleMethod, B.Locate, Exact, NulFree, RequestText, Receive, DistinctNames;
    NamesSpelled();
    var c := s.clients[i];
    RequestArrives(r, c.handle, at, draw);
    A.EventHandled(s, MethodOf(r, c.handle, at, draw), i);
    PongSent(s, i, B.HandleMethod(s, MethodOf(r, c.handle, at, draw)).clients, r.payload, at);
    var n := Notice(TYPE_EVENT, SERVER, PONG, c.esequence, Object([]));
    PongExact(c.esequence);
    NoticeArrives(n);
    EventReceived(e, Incoming(NoticeText(n), reply), NoticeJson(n), now);
  }

  lemma PongSent(s: B.Server, i: nat, ds: seq<B.Client>, data: Json, at: int)
    requires i < |s.clients| && s.clients[i].identifier.Some? && s.clients[i].identifier.value !in {SERVER, EVERYONE, SUBSCRIBERS}
    requires A.Spread(s.clients, ds, s.clients[i].identifier, SERVER, PING, data, at)
    ensures
      var c := s.clients[i];
      |ds| == |s.clients|
      && ds[i] == WithEvent(c.(ping := c.ping.(received := at)), Notice(TYPE_EVENT, SERVER, PONG, c.esequence, Object([])))
  {
    hide Mbus;
    var cs := A.Noted(s.clients, s.clients[i].identifier.value, at);
    assert cs[i].identifier == s.clients[i].identifier;
  }

  lemma PongExact(sequence: int)
    requires IsInt32(sequence)
    ensures ExactNotice(Notice(TYPE_EVENT, SERVER, PONG, sequence, Object([])))
  {
    hide Mbus;
    NamesNulFree();
    assert NulFree("server.event.pong");
    MbusNulFree("server.event.pong");
  }

  // ----- events -----

  /** An event arrives at the broker as it left the client, and goes where the client wanted it to go, under
      the name of the client. */
  lemma EventArrives(s: B.Server, i: nat, r: Item, at: int, draw: string)
    requires DistinctNames(s.clients) && i < |s.clients| && B.Locate(s.clients, s.clients[i].handle) == Some(i)
    requires ExactItem(r) && r.kind == TYPE_EVENT
    ensures
      var m := CreateRequest(s.clients[i].handle, RequestText(r), at, draw);
      && m.Some?
      && var t := B.HandleMethod(s, m.value);
         t == s.(clients := t.clients)
         && A.Spread(s.clients, t.clients, s.clients[i].identifier, r.destination, r.identifier, r.payload, at)
  {
    hide Mbus, ExactItem, B.HandleMethod, B.Locate, RequestText, A.Spread, DistinctNames;
    RequestArrives(r, s.clients[i].handle, at, draw);
    A.EventHandled(s, MethodOf(r, s.clients[i].handle, at, draw), i);
  }

  /** So does an event that travels in a command, and the command is answered with 0. */
  lemma CarriedEventArrives(s: B.Server, i: nat, r: Item, destination: string, event: string, data: Json, at: int, draw: string)
    requires !s.crashed && DistinctNames(s.clients) && i < |s.clients| && B.Locate(s.clients, s.clients[i].handle) == Some(i)
    requires ExactItem(r) && r.kind == TYPE_COMMAND && r.destination == SERVER && r.identifier == "command.event"
    requires Carries(r.payload, destination, event, data)
    ensures
      var m := CreateRequest(s.clients[i].handle, RequestText(r), at, draw);
      && m.Some?
      && var t := B.HandleMethod(s, m.value);
         exists ds: seq<B.Client> :: i < |ds| && A.Spread(s.clients, ds, s.clients[i].identifier, destination, event, data, at)
           && t == s.(clients := ds[i := WithResult(ds[i], Replied(m.value, 0, Object([])))])
  {
    hide Mbus, ExactItem, B.HandleMethod, B.Locate, RequestText, A.Spread, StringAt, LookUp, InitialResult, DistinctNames;
    RequestArrives(r, s.clients[i].handle, at, draw);
    A.PublishHandled(s, MethodOf(r, s.clients[i].handle, at, draw), i);
  }

  // ----- calls -----

  /** The call is queued at the client that registered the command, and waits at the caller. */
  lemma CallArrives(s: B.Server, a: nat, b: nat, r: Item, at: int, draw: string)
    requires !s.crashed && DistinctNames(s.clients) && a < |s.clients| && B.Locate(s.clients, s.clients[a].handle) == Some(a)
    requires ExactItem(r) && r.kind == TYPE_COMMAND && r.destination != SERVER
    requires Deliverable(s.clients, a, b, MethodOf(r, s.clients[a].handle, at, draw))
    ensures
      var m := MethodOf(r, s.clients[a].handle, at, draw);
      && CreateRequest(s.clients[a].handle, RequestText(r), at, draw) == Some(m)
      && var t := B.HandleMethod(s, m);
         && |t.clients| == |s.clients| && b < |s.clients|
         && t.clients[b].requests == s.clients[b].requests
                                     + [Notice(TYPE_COMMAND, s.clients[a].identifier.value, r.identifier, r.sequence, r.payload)]
         && t.clients[a].waits == s.clients[a].waits + [m]
  {
    hide Mbus, ExactItem, B.HandleMethod, B.Locate, RequestText, InitialResult;
    RequestArrives(r, s.clients[a].handle, at, draw);
    CallDelivered(s, MethodOf(r, s.clients[a].handle, at, draw), a, b);
  }

  /** The command that brings the reply of the called client back. */
  function ResultItem(f: Engine, json: Json, n: Notice, reply: Reply, now: int): Item {
    Item(TYPE_COMMAND, SERVER, "command.result", f.sequence, ReplyPayload(n.source, n.identifier, json, reply), UserHandler, now,
         f.settings.commandTimeout, |f.history.accepted|, f.draws)
  }

  /** The client that is called queues the reply of its application behind its other requests. */
  lemma CalleeReplies(f: Engine, n: Notice, reply: Reply, now: int) returns (q: Item)
    requires Sound(f) && f.state.Connected? && ExactSettings(f.settings) && f.settings.commandTimeout >= 0
    requires ExactNotice(n) && n.kind == TYPE_COMMAND && n.source != SERVER && ExactReply(Some(reply))
    ensures
      var (g, ok) := Receive(f, Incoming(NoticeText(n), Some(reply)), now);
      ok && g.requests == f.requests + [q]
    ensures ExactItem(q) && q.kind == TYPE_COMMAND && q.destination == SERVER && q.identifier == "command.result"
    ensures AnswersCall(q.payload, n.source, n.identifier, n.sequence, reply)
  {
    hide Mbus, Parse, Print, Sound, Exact, NulFree, Receive, AnswersCall, NoticeJson, Conveys, ReplyPayload, ExactSettings;
    NamesSpelled();
    NoticeArrives(n);
    var json := NoticeJson(n);
    SequenceOf(json, n);
    CallReceived(f, Incoming(NoticeText(n), Some(reply)), json, now, n.source, n.identifier);
    q := ResultItem(f, json, n, reply, now);
    NoticeExact(n);
    ReplyExact(n.source, n.identifier, json, reply);
    SequenceOk(f);
    NamesNulFree();
    TimeoutExact(f);
    assert NulFree("command.result") by { ResultNulFree(); }
  }

  lemma TimeoutExact(f: Engine)
    requires ExactSettings(f.settings)
    ensures IsInt32(f.settings.commandTimeout)
  {
  }

  lemma ResultNulFree()
    ensures NulFree("command.result")
  {
  }

  lemma NoticeExact(n: Notice)
    requires ExactNotice(n)
    ensures Exact(NoticeJson(n)) && NulFree(n.source) && NulFree(n.identifier)
  {
    hide Mbus, Exact, NulFree;
    TagsNulFree();
    SourceDiffers();
    StringsExact(n.kind, n.source);
    StringsExact(n.identifier, n.source);
    NumbersExact(n.sequence, n.sequence);
    ExactObject(NoticeJson(n).members);
  }

  lemma SequenceOf(json: Json, n: Notice)
    requires Conveys(json, n)
    ensures IntAt(Some(json), TAG_SEQUENCE, -1) == n.sequence && StringAt(Some(json), TAG_TYPE) == Some(n.kind)
    ensures StringAt(Some(json), TAG_SOURCE) == Some(n.source) && StringAt(Some(json), TAG_IDENTIFIER) == Some(n.identifier)
  {
    hide Mbus, LookUp;
  }

  /** The result command ends the wait of the caller: the call is among its results, with the status and
      payload of the reply. */
  lemma ReturnArrives(s: B.Server, a: nat, b: nat, k: nat, q: Item, source: string, identifier: string, sequence: int, reply: Reply,
                      at: int, draw: string)
    requires !s.crashed && DistinctNames(s.clients) && A.WaitsUnanswered(s) && START <= sequence < END
    requires b < |s.clients| && B.Locate(s.clients, s.clients[b].handle) == Some(b) && s.clients[b].identifier.Some?
    requires A.Awaited(s, a, k, source, s.clients[b].identifier.value, identifier, sequence)
    requires ExactItem(q) && q.kind == TYPE_COMMAND && q.destination == SERVER && q.identifier == "command.result"
    requires AnswersCall(q.payload, source, identifier, sequence, reply)
    ensures
      var m := MethodOf(q, s.clients[b].handle, at, draw);
      && CreateRequest(s.clients[b].handle, RequestText(q), at, draw) == Some(m)
      && a < |s.clients| && k < |s.clients[a].waits|
      && var c, t := s.clients[a], B.HandleMethod(s, m);
         && |t.clients| == |s.clients| && |t.clients[a].results| > |c.results| && t.clients[a].results[..|c.results|] == c.results
         && t.clients[a].waits == c.waits[..k] + c.waits[k + 1..]
         && t.clients[a].results[|c.results|] == Returned(c.waits[k], reply.status, reply.payload)
  {
    hide Mbus, ExactItem, B.HandleMethod, B.Locate, RequestText, InitialResult, StringAt, IntAt, LookUp, A.WaitsUnanswered, DistinctNames,
         Returned, Replied;
    var m := MethodOf(q, s.clients[b].handle, at, draw);
    RequestArrives(q, s.clients[b].handle, at, draw);
    A.AwaitedInside(s, a, k, source, s.clients[b].identifier.value, identifier, sequence);
    A.ResultHandled(s, m, b);
    var t := B.HandleMethod(s, m);
    assert A.Settled(s.clients[a := A.Answered(s.clients[a], k, reply.status, reply.payload)], s, t, b, m);
    var c := s.clients[a];
    assert (c.results + [Returned(c.waits[k], reply.status, reply.payload)])[..|c.results|] == c.results;
  }

  /** A call, all the way. The client a calls a command of the client b; the broker hands the call on; b reads
      it and replies; in whatever state the broker is when the reply comes, if a still waits for this call,
      the broker hands the reply back; and a reads the result of the very request it made, with the status
      and the payload b replied with. */
  lemma CallRoundTrip(s: B.Server, a: nat, b: nat, r: Item, at: int, draw: string,
                      f: Engine, reply: Reply, heard: int,
                      u: B.Server, a': nat, b': nat, k: nat, at': int, draw': string,
                      e: Engine, p: nat, none: Option<Reply>, now: int) returns (q: Item, x: Request)
    requires !s.crashed && DistinctNames(s.clients) && a < |s.clients| && B.Locate(s.clients, s.clients[a].handle) == Some(a)
    requires ExactItem(r) && r.kind == TYPE_COMMAND && r.destination != SERVER
    requires Deliverable(s.clients, a, b, MethodOf(r, s.clients[a].handle, at, draw))
    requires NulFree(s.clients[a].identifier.value) && s.clients[a].identifier.value != SERVER
    requires Sound(f) && f.state.Connected? && ExactSettings(f.settings) && f.settings.commandTimeout >= 0 && ExactReply(Some(reply))
    requires !u.crashed && DistinctNames(u.clients) && A.WaitsUnanswered(u)
    requires b' < |u.clients| && B.Locate(u.clients, u.clients[b'].handle) == Some(b') && u.clients[b'].identifier == Some(r.destination)
    requires A.Awaited(u, a', k, s.clients[a].identifier.value, r.destination, r.identifier, r.sequence)
    requires u.clients[a'].waits[k] == MethodOf(r, s.clients[a].handle, at, draw)
    requires Sound(e) && e.state.Connected? && FirstOf(e.pendings, p, r.sequence) && e.pendings[p] == r
    ensures
      var m := MethodOf(r, s.clients[a].handle, at, draw);
      var n := Notice(TYPE_COMMAND, s.clients[a].identifier.value, r.identifier, r.sequence, r.payload);
      && CreateRequest(s.clients[a].handle, RequestText(r), at, draw) == Some(m)
      && |B.HandleMethod(s, m).clients| == |s.clients| && B.HandleMethod(s, m).clients[b].requests == s.clients[b].requests + [n]
      && Receive(f, Incoming(NoticeText(n), Some(reply)), heard).0.requests == f.requests + [q]
    ensures
      var m := CreateRequest(u.clients[b'].handle, RequestText(q), at', draw');
      && m.Some?
      && var t, c := B.HandleMethod(u, m.value), u.clients[a'];
         && |t.clients| == |u.clients| && t.clients[a'].waits == c.waits[..k] + c.waits[k + 1..]
         && |t.clients[a'].results| > |c.results| && t.clients[a'].results[|c.results|] == x
    ensures
      var (d, ok) := Receive(e, Incoming(ResultText(x), none), now);
      && ok && Parse(ResultText(x)).Some? && AnsweredAt(e, d, p, Parse(ResultText(x)).value)
      && Concludes(Parse(ResultText(x)).value, r.sequence, reply.status, reply.payload)
  {
    hide Mbus, B.HandleMethod, B.Locate, RequestText, InitialResult, A.WaitsUnanswered, DistinctNames, Sound, NulFree, Exact, Receive,
         Parse, AnswersCall, AnsweredAt, Concludes, Conveys, NoticeText, ResultText, Returned, StringAt, IntAt, LookUp;
    var m := MethodOf(r, s.clients[a].handle, at, draw);
    var n := Notice(TYPE_COMMAND, s.clients[a].identifier.value, r.identifier, r.sequence, r.payload);
    CallArrives(s, a, b, r, at, draw);
    NamesNulFree();
    q := CalleeReplies(f, n, reply, heard);
    ReturnArrives(u, a', b', k, q, s.clients[a].identifier.value, r.identifier, r.sequence, reply, at', draw');
    x := Returned(m, reply.status, reply.payload);
    ResultArrives(m, reply.status, reply.payload);
    ReadResult(e, Incoming(ResultText(x), none), ResultJson(x), r.sequence, reply.status, reply.payload, p, now);
  }

  lemma ReadResult(e: Engine, m: Incoming, json: Json, sequence: int, status: int, payload: Option<Json>, p: nat, now: int)
    requires Parse(m.text) == Some(json) && Concludes(json, sequence, status, payload)
    requires Sound(e) && e.state.Connected? && FirstOf(e.pendings, p, sequence)
    ensures Receive(e, m, now).1 && AnsweredAt(e, Receive(e, m, now).0, p, json)
  {
    hide Mbus, Sound, Receive, Parse, AnsweredAt, FirstOf;
    ResultReceived(e, m, json, now);
  }

  // ----- subscriptions and commands -----

  lemma SubscribeDataNames(source: Option<string>, event: string)
    ensures
      var p := Some(SubscribeData(source, event));
      StringAt(p, "source") == Some(if source.None? then "org.mbus.method.event.source.all" else source.value)
      && StringAt(p, "event") == Some(event)
  {
    hide LookUp, Mbus;
    AnySpelled();
    var a, b := Member("source", String(if source.None? then ANY_SOURCE else source.value)), Member("event", String(event));
    EventNames();
    Members(a, b, "source");
    Members(a, b, "event");
  }

  lemma EventNames()
    ensures Plain("source") && Plain("event") && "source" != "event"
  {
    assert |"source"| != |"event"|;
  }

  /** A named client that subscribes to an event, from a source or from any, gets from then on each event of that
      name and source exactly once. */
  lemma SubscriptionArrives(s: B.Server, i: nat, r: Item, source: Option<string>, event: string, at: int, draw: string,
                            from: string, payload: Json, now: int)
    requires !s.crashed && i < |s.clients| && B.Locate(s.clients, s.clients[i].handle) == Some(i) && s.clients[i].identifier.Some?
    requires ExactItem(r) && r.kind == TYPE_COMMAND && r.destination == SERVER && r.identifier == "command.subscribe"
    requires r.payload == SubscribeData(source, event)
    requires source.None? || source == Some(from)
    ensures
      var m := CreateRequest(s.clients[i].handle, RequestText(r), at, draw);
      && m.Some?
      && var cs := B.HandleMethod(s, m.value).clients;
         var ds := B.SendEvent(cs, Some(from), SUBSCRIBERS, event, Some(payload), now);
         && |cs| == |ds| == |s.clients|
         && ds[i].events == cs[i].events + [Notice(TYPE_EVENT, from, event, cs[i].esequence, payload)]
  {
    hide Mbus, ExactItem, B.HandleMethod, B.Locate, B.SendEvent, RequestText, StringAt, InitialResult, SubscribeData;
    assert ANY_SOURCE == "org.mbus.method.event.source.all" by { AnySpelled(); }
    RequestArrives(r, s.clients[i].handle, at, draw);
    SubscribeDataNames(source, event);
    A.SubscribedHears(s, MethodOf(r, s.clients[i].handle, at, draw), i, from, event, payload, now);
  }

  lemma AnySpelled()
    ensures ANY_SOURCE == "org.mbus.method.event.source.all"
  {
  }

  /** A named client that registers a command can be called with it from then on. */
  lemma RegistrationArrives(s: B.Server, i: nat, r: Item, command: string, at: int, draw: string)
    requires !s.crashed && i < |s.clients| && B.Locate(s.clients, s.clients[i].handle) == Some(i) && s.clients[i].identifier.Some?
    requires ExactItem(r) && r.kind == TYPE_COMMAND && r.destination == SERVER && r.identifier == "command.register"
    requires r.payload == RegisterData(command)
    ensures
      var m := CreateRequest(s.clients[i].handle, RequestText(r), at, draw);
      && m.Some?
      && var cs := B.HandleMethod(s, m.value).clients;
         |cs| == |s.clients| && cs[i].identifier == s.clients[i].identifier && command in cs[i].commands
         && forall name | name in s.clients[i].commands :: name in cs[i].commands
  {
    hide Mbus, ExactItem, B.HandleMethod, B.Locate, RequestText, StringAt, InitialResult, RegisterData, Hears;
    RequestArrives(r, s.clients[i].handle, at, draw);
    RegisterDataNames(command);
    RegisterHandled(s, MethodOf(r, s.clients[i].handle, at, draw), i);
  }

  lemma RegisterDataNames(command: string)
    ensures StringAt(Some(RegisterData(command)), "command") == Some(command)
  {
    hide LookUp;
    assert Plain("command");
    var a := Member("command", String(command));
    Members(a, a, "command");
  }

  // ----- settings -----

  /** What the settings of a client say in its create request. */
  ghost predicate Requests(payload: Json, s: Settings) {
    var p := Some(payload);
    && StringAt(p, "identifier") == s.identifier && StringAt(p, "password") == s.password
    && (s.pingInterval > 0 ==>
          IntAt(p, "ping/interval", -1) == s.pingInterval && IntAt(p, "ping/timeout", -1) == s.pingTimeout
          && IntAt(p, "ping/threshold", -1) == s.pingThreshold)
    && (s.pingInterval <= 0 ==> LookUp(p, "ping").None?)
  }

  /** The ping settings as an object. */
  function Pings(interval: int, timeout: int, threshold: int): Json {
    Object([Member("interval", Number(interval)), Member("timeout", Number(timeout)), Member("threshold", Number(threshold))])
  }

  lemma PingsAre(interval: int, timeout: int, threshold: int)
    ensures
      var p := Some(Pings(interval, timeout, threshold));
      IntAt(p, "interval", -1) == interval && IntAt(p, "timeout", -1) == timeout && IntAt(p, "threshold", -1) == threshold
  {
    hide LookUp;
    var a, b, c := Member("interval", Number(interval)), Member("timeout", Number(timeout)), Member("threshold", Number(threshold));
    SettingNames();
    ThreeMembers(a, b, c, "interval");
    ThreeMembers(a, b, c, "timeout");
    ThreeMembers(a, b, c, "threshold");
  }

  lemma SettingNames()
    ensures Plain("interval") && Plain("timeout") && Plain("threshold") && Plain("identifier") && Plain("password") && Plain("ping")
    ensures Plain("compression") && Plain("compressions")
    ensures "interval" != "timeout" && "interval" != "threshold" && "timeout" != "threshold" && "identifier" != "compression"
  {
    assert |"interval"| == 8 && |"timeout"| == 7 && |"threshold"| == 9 && |"identifier"| == 10 && |"compression"| == 11;
  }

  lemma BelowPing(v: Option<Json>)
    ensures LookUp(v, "ping/interval") == LookUp(LookUp(v, "ping"), "interval")
    ensures LookUp(v, "ping/timeout") == LookUp(LookUp(v, "ping"), "timeout")
    ensures LookUp(v, "ping/threshold") == LookUp(LookUp(v, "ping"), "threshold")
  {
    hide LookUp;
    LookUpComposes(v, "ping", "interval");
    LookUpComposes(v, "ping", "timeout");
    LookUpComposes(v, "ping", "threshold");
    assert "ping" + "/" + "interval" == "ping/interval" && "ping" + "/" + "timeout" == "ping/timeout"
           && "ping" + "/" + "threshold" == "ping/threshold";
  }

  lemma CreateDataRequests(s: Settings)
    ensures Requests(CreateData(s), s)
  {
    hide LookUp, FindMember;
    var a := if s.identifier.Some? then [Member("identifier", String(s.identifier.value))] else [];
    var b := if s.password.Some? then [Member("password", String(s.password.value))] else [];
    var ping := Pings(s.pingInterval, s.pingTimeout, s.pingThreshold);
    var c := if s.pingInterval > 0 then [Member("ping", ping)] else [];
    var d := Member("compressions", OfferList(s));
    assert CreateData(s) == Object(a + b + c + [d]);
    SettingNames();
    forall name | name in {"identifier", "password", "ping"}
      ensures LookUp(Some(CreateData(s)), name)
           == if name == "identifier" then (if s.identifier.Some? then Some(String(s.identifier.value)) else None)
              else if name == "password" then (if s.password.Some? then Some(String(s.password.value)) else None)
              else if s.pingInterval > 0 then Some(ping) else None
    {
      Field(a + b + c + [d], name);
      AtMostOne(a, "identifier", name);
      AtMostOne(b, "password", name);
      AtMostOne(c, "ping", name);
      FindOne(d, name);
      FindJoined(a, b, name);
      FindJoined(a + b, c, name);
      FindJoined(a + b + c, [d], name);
    }
    BelowPing(Some(CreateData(s)));
    PingsAre(s.pingInterval, s.pingTimeout, s.pingThreshold);
  }

  lemma AtMostOne(m: seq<Member>, has: string, name: string)
    requires |m| <= 1 && (m != [] ==> m[0].name == has)
    ensures FindMember(m, name) == if m != [] && name == has then Some(m[0].value) else None
  {
    if m != [] {
      FindOne(m[0], name);
      assert m == [m[0]];
    }
  }

  lemma WelcomingTells(name: string, codec: Compression, ping: B.Ping)
    ensures
      var p := Some(Welcoming(name, codec, ping));
      && StringAt(p, "identifier") == Some(name) && StringAt(p, "compression") == Some(if codec == Zlib then "zlib" else "none")
      && IntAt(p, "ping/interval", -1) == ping.interval && IntAt(p, "ping/timeout", -1) == ping.timeout
      && IntAt(p, "ping/threshold", -1) == ping.threshold
  {
    hide LookUp;
    var a, b := Member("identifier", String(name)), Member("compression", String(if codec == Zlib then "zlib" else "none"));
    var c := Member("ping", Pings(ping.interval, ping.timeout, ping.threshold));
    assert Welcoming(name, codec, ping) == Object([a, b, c]);
    SettingNames();
    assert |"ping"| == 4 && |"identifier"| == 10 && |"compression"| == 11;
    ThreeMembers(a, b, c, "identifier");
    ThreeMembers(a, b, c, "compression");
    ThreeMembers(a, b, c, "ping");
    BelowPing(Some(Welcoming(name, codec, ping)));
    PingsAre(ping.interval, ping.timeout, ping.threshold);
  }

  /** The two ends have settled on the same: name, compression and ping settings. */
  ghost predicate SameSettings(d: B.Client, f: Engine) {
    && d.identifier.Some? && f.identifier == d.identifier && f.compression == d.compression
    && f.ping.interval == d.ping.interval && f.ping.timeout == d.ping.timeout && f.ping.threshold == d.ping.threshold
  }

  /** The response to a create request, read by the client that made it. */
  lemma WelcomeRead(c: Engine, f: Engine, json: Json, sequence: int, name: string, d: B.Client)
    requires Concludes(json, sequence, 0, Some(Welcoming(name, d.compression, d.ping))) && d.identifier == Some(name)
    requires d.compression == Zlib ==> c.settings.zlib
    ensures Welcomes(json) && (Enters(c, f, json) ==> f.state.Connected? && SameSettings(d, f))
  {
    hide LookUp, Mbus;
    var payload := Welcoming(name, d.compression, d.ping);
    WelcomingTells(name, d.compression, d.ping);
    PayloadPaths(json);
    assert "zlib" != "none" by { assert "zlib"[0] != "none"[0]; }
  }

  /** Client and broker shake hands: a client that asks for a free name, or for none, and knows the password is
      admitted. What it asked to be pinged with is made to fit, and once it has read the response it has
      the name, the compression and the ping settings that the broker has for it. */
  lemma HandshakeAgrees(s: B.Server, i: nat, q: Item, at: int, draw: string, e: Engine, reply: Option<Reply>, now: int)
    returns (d: B.Client, x: Request)
    requires !s.crashed && i < |s.clients| && B.Locate(s.clients, s.clients[i].handle) == Some(i)
    requires OwnCreate(q, e.settings) && ExactSettings(e.settings) && NulFree(draw)
    requires s.clients[i].identifier.None?
    requires var name := if e.settings.identifier.None? || e.settings.identifier.value == "" then draw else e.settings.identifier.value;
      !Taken(s, name)
    requires s.password.Some? ==> e.settings.password == s.password
    requires Sound(e) && e.state.Connecting? && e.pendings != [] && e.pendings[0] == q
    ensures
      var m := CreateRequest(s.clients[i].handle, RequestText(q), at, draw);
      && m.Some?
      && B.HandleMethod(s, m.value) == s.(clients := s.clients[i := WithResult(d, x)])
      && d == s.clients[i].(identifier := d.identifier, compression := d.compression, ping := d.ping)
    ensures d.identifier == Some(if e.settings.identifier.None? || e.settings.identifier.value == "" then draw else e.settings.identifier.value)
    ensures d.compression == if s.zlib && e.settings.zlib then Zlib else Uncompressed
    ensures e.settings.pingInterval > 0 ==>
      Clamped(d.ping, e.settings.pingInterval, e.settings.pingTimeout, e.settings.pingThreshold, at, s.clients[i].ping.missed)
    ensures e.settings.pingInterval <= 0 ==> !d.ping.enabled && d.ping.interval == 0
    ensures
      var (f, ok) := Receive(e, Incoming(ResultText(x), reply), now);
      ok && f.state.Connected? && SameSettings(d, f)
  {
    hide Mbus, B.HandleMethod, B.Locate, RequestText, InitialResult, Sound, NulFree, Exact, Receive, ExactItem, ExactSettings,
         Parse, AnsweredAt, Concludes, ResultText, Replied, StringAt, IntAt, LookUp, Welcoming, Clamped, CreateData, Enters, Welcomes, Fallow;
    var m := MethodOf(q, s.clients[i].handle, at, draw);
    RequestArrives(q, s.clients[i].handle, at, draw);
    CreateHandled(s, m, i);
    CreateDataRequests(e.settings);
    d :| Admitted(s, s.clients[i], d, m) &&
      B.HandleMethod(s, m) == s.(clients := s.clients[i := WithResult(d, Replied(m, 0, Welcoming(NameFor(m), d.compression, d.ping)))]);
    x := Replied(m, 0, Welcoming(NameFor(m), d.compression, d.ping));
    OffersFound(e.settings);
    OffersAre(e.settings);
    NoPingsAsked(e.settings, d, m, s.clients[i]);
    SettingsExact(e.settings, d, m, draw, s.clients[i]);
    SequenceExact(q);
    ResultArrives(m, 0, Some(Welcoming(NameFor(m), d.compression, d.ping)));
    var json := ResultJson(x);
    ConcludesParts(json, q.sequence, 0, Some(Welcoming(NameFor(m), d.compression, d.ping)));
    ResponseReceived(e, Incoming(ResultText(x), reply), json, now);
    var f := Receive(e, Incoming(ResultText(x), reply), now).0;
    var c: Engine :| AnsweredAt(e, c, 0, json) && (Welcomes(json) ==> Enters(c, f, json));
    AnsweredSettings(e, c, json);
    WelcomeRead(c, f, json, q.sequence, NameFor(m), d);
  }

  lemma SequenceExact(r: Item)
    requires ExactItem(r)
    ensures IsInt32(r.sequence)
  {
  }

  lemma OffersAre(s: Settings)
    ensures OfferList(s).Array? && (String("zlib") in OfferList(s).items <==> s.zlib)
  {
    assert String("zlib") != String("none");
    assert s.zlib ==> OfferList(s).items[1] == String("zlib");
  }

  lemma ConcludesParts(json: Json, sequence: int, status: int, payload: Option<Json>)
    requires Concludes(json, sequence, status, payload)
    ensures IntAt(Some(json), TAG_SEQUENCE, -1) == sequence && StringAt(Some(json), TAG_TYPE) == Some(TYPE_RESULT)
  {
    hide Mbus, LookUp;
  }

  lemma AnsweredSettings(e: Engine, c: Engine, json: Json)
    requires AnsweredAt(e, c, 0, json)
    ensures c.settings == e.settings
  {
    hide Reports;
  }

  lemma NoPingsAsked(s: Settings, d: B.Client, m: Request, c: B.Client)
    requires Requests(m.payload, s)
    requires
      var p := Some(m.payload);
      Clamped(d.ping, IntAt(p, "ping/interval", -1), IntAt(p, "ping/timeout", -1), IntAt(p, "ping/threshold", -1), m.now, c.ping.missed)
    ensures s.pingInterval <= 0 ==> !d.ping.enabled && d.ping.interval == 0
  {
    hide Mbus, StringAt, LookUp;
    BelowPing(Some(m.payload));
    NothingBelow("interval");
  }

  lemma NothingBelow(path: string)
    ensures LookUp(None, path) == None
  {
  }

  lemma SettingsExact(s: Settings, d: B.Client, m: Request, draw: string, c: B.Client)
    requires Requests(m.payload, s) && ExactSettings(s) && NulFree(draw) && m.draw == draw
    requires
      var p := Some(m.payload);
      Clamped(d.ping, IntAt(p, "ping/interval", -1), IntAt(p, "ping/timeout", -1), IntAt(p, "ping/threshold", -1), m.now, c.ping.missed)
    ensures Exact(Welcoming(NameFor(m), d.compression, d.ping))
  {
    hide Mbus, LookUp, Exact, NulFree;
    BelowPing(Some(m.payload));
    NothingBelow("interval");
    NothingBelow("timeout");
    NothingBelow("threshold");
    WelcomingIs(NameFor(m), d.compression, d.ping);
    ExactPayload(NameFor(m), d.compression, d.ping);
  }
}

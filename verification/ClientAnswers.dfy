/** What each message to the client comes to, and each request of its application: the queues, the
    callbacks and the frames they leave. */
module ClientAnswers {
  import opened Options
  import opened Compress
  import opened JsonText
  import opened JsonPath
  import opened Methods
  import opened ClientState
  import opened ClientInvariant
  import opened ClientRun

  /** The message is this JSON tree, of that type. */
  ghost predicate Says(m: Incoming, json: Json, kind: string) {
    Parse(m.text) == Some(json) && StringAt(Some(json), TAG_TYPE) == Some(kind)
  }

  lemma KindsDiffer()
    ensures TYPE_RESULT != TYPE_EVENT && TYPE_RESULT != TYPE_COMMAND && TYPE_EVENT != TYPE_COMMAND
  {
    assert TYPE_RESULT[21] == 'r' && TYPE_EVENT[21] == 'e' && TYPE_COMMAND[21] == 'c';
  }

  // ----- results -----

  /** The callback for a request that was answered. The wrappers around commands report an error if the
      status is not 0; to the application and for the create request every answer is a success. */
  ghost predicate Reports(b: Callback, r: Item, response: Json) {
    && b.serial == r.serial
    && match r.handler
       case UserHandler => b.channel == ToResult && b.status == Success
       case CreateHandler => b.channel == ToConnect && b.status == Success
       case EventHandler => b.channel == ToPublish && (b.status == if Accepts(response) then Success else InternalError)
       case SubscribeHandler => b.channel == ToSubscribe && (b.status == if Accepts(response) then Success else InternalError)
       case UnsubscribeHandler => b.channel == ToUnsubscribe && (b.status == if Accepts(response) then Success else InternalError)
       case RegisterHandler => b.channel == ToRegister && (b.status == if Accepts(response) then Success else InternalError)
       case UnregisterHandler => b.channel == ToUnregister && (b.status == if Accepts(response) then Success else InternalError)
  }

  ghost predicate Accepts(response: Json) {
    LookUp(Some(response), TAG_STATUS) == Some(Number(0))
  }

  /** The client without its k-th pending request, which was answered, with the one callback for it. */
  ghost predicate AnsweredAt(e: Engine, d: Engine, k: nat, response: Json) {
    && k < |e.pendings|
    && exists b: Callback :: Reports(b, e.pendings[k], response)
         && d == e.(pendings := e.pendings[..k] + e.pendings[k + 1..],
                    history := e.history.(completed := e.history.completed + [Completion(e.pendings[k], Answered(response))],
                                          callbacks := e.history.callbacks + [b]))
  }

  /** The first pending request of that sequence number. */
  ghost predicate FirstOf(items: seq<Item>, k: nat, sequence: int) {
    k < |items| && items[k].sequence == sequence && forall n | 0 <= n < k :: items[n].sequence != sequence
  }

  lemma FirstFound(items: seq<Item>, k: nat, sequence: int)
    ensures FirstOf(items, k, sequence) ==> FindPending(items, sequence) == Some(k)
  {
    hide FindPending;
    var f := FindPending(items, sequence);
  }

  lemma AnswerReports(e: Engine, k: nat, json: Json)
    requires k < |e.pendings|
    ensures AnsweredAt(e, Completed(e.(pendings := e.pendings[..k] + e.pendings[k + 1..]), e.pendings[k], Answered(json)), k, json)
  {
    hide LookUp, Mbus;
    var r := e.pendings[k];
    var b := Callback(HandlerChannel(r.handler), r.serial, ResponseStatus(r.handler, json));
    assert CallbackOf(Completion(r, Answered(json))) == Some(b);
    assert Reports(b, r, json);
  }

  /** A connected client that receives a result: the first pending request of its sequence number is
      completed with it, once, and the others stay in order; if there is none, nothing happens. */
  lemma ResultReceived(e: Engine, m: Incoming, json: Json, now: int)
    requires Sound(e) && e.state.Connected? && Says(m, json, TYPE_RESULT)
    ensures
      var (d, ok) := Receive(e, m, now);
      var sequence := IntAt(Some(json), TAG_SEQUENCE, -1);
      && ok
      && (forall k: nat | FirstOf(e.pendings, k, sequence) :: AnsweredAt(e, d, k, json))
      && ((forall k | 0 <= k < |e.pendings| :: e.pendings[k].sequence != sequence) ==> d == e)
  {
    hide Sound, Parse, IntAt, StringAt, Mbus, FindPending, Completed, CreateAnswered, AnsweredAt;
    var sequence := IntAt(Some(json), TAG_SEQUENCE, -1);
    ResultHandled(e, m, json, now);
    forall k: nat | FirstOf(e.pendings, k, sequence) ensures AnsweredAt(e, Receive(e, m, now).0, k, json) {
      FirstFound(e.pendings, k, sequence);
      ConnectedPlain(e, k);
      AnswerReports(e, k, json);
    }
  }

  lemma ConnectedPlain(e: Engine, k: nat)
    requires Sound(e) && e.state.Connected? && k < |e.pendings|
    ensures !e.pendings[k].handler.CreateHandler?
  {
    if e.pendings[k].handler.CreateHandler? {
      CreateWhileConnecting(e, k);
    }
  }

  lemma ResultHandled(e: Engine, m: Incoming, json: Json, now: int)
    requires Says(m, json, TYPE_RESULT)
    ensures Receive(e, m, now) == (HandleResult(e, json), true)
  {
    hide Parse, StringAt, Mbus, HandleResult, HandleEvent, HandleCommand;
  }

  // ----- the response to the create request -----

  /** The client is connected, under the name and with the settings the response gives it. */
  ghost predicate Enters(d: Engine, f: Engine, json: Json) {
    var name, codec := StringAt(Some(json), TAG_PAYLOAD + "/identifier"), StringAt(Some(json), TAG_PAYLOAD + "/compression");
    && f == d.(state := Connected, identifier := name, compression := f.compression, ping := f.ping,
               history := d.history.(signals := d.history.signals + [OnConnect(ConnectSuccess)]))
    && f.compression == (if codec == Some("zlib") && d.settings.zlib then Zlib else Uncompressed)
    && f.ping == d.ping.(interval := IntAt(Some(json), TAG_PAYLOAD + "/ping/interval", -1),
                         timeout := IntAt(Some(json), TAG_PAYLOAD + "/ping/timeout", -1),
                         threshold := IntAt(Some(json), TAG_PAYLOAD + "/ping/threshold", -1))
  }

  ghost predicate Welcomes(json: Json) {
    Accepts(json) && StringAt(Some(json), TAG_PAYLOAD + "/identifier").Some?
  }

  lemma BelowPayload(json: Json, path: string, slashed: string)
    requires slashed == TAG_PAYLOAD + ("/" + path)
    ensures LookUp(Some(json), slashed) == LookUp(LookUp(Some(json), TAG_PAYLOAD), path)
  {
    hide LookUp, Mbus;
    LookUpComposes(Some(json), TAG_PAYLOAD, path);
    assert TAG_PAYLOAD + "/" + path == slashed;
  }

  /** The parts of the payload, by their paths in the whole message. */
  lemma PayloadPaths(json: Json)
    ensures LookUp(Some(json), TAG_PAYLOAD + "/identifier") == LookUp(LookUp(Some(json), TAG_PAYLOAD), "identifier")
    ensures LookUp(Some(json), TAG_PAYLOAD + "/compression") == LookUp(LookUp(Some(json), TAG_PAYLOAD), "compression")
    ensures LookUp(Some(json), TAG_PAYLOAD + "/ping/interval") == LookUp(LookUp(Some(json), TAG_PAYLOAD), "ping/interval")
    ensures LookUp(Some(json), TAG_PAYLOAD + "/ping/timeout") == LookUp(LookUp(Some(json), TAG_PAYLOAD), "ping/timeout")
    ensures LookUp(Some(json), TAG_PAYLOAD + "/ping/threshold") == LookUp(LookUp(Some(json), TAG_PAYLOAD), "ping/threshold")
  {
    hide LookUp, Mbus;
    assert "/" + "identifier" == "/identifier" && "/" + "compression" == "/compression" && "/" + "ping/interval" == "/ping/interval";
    assert "/" + "ping/timeout" == "/ping/timeout" && "/" + "ping/threshold" == "/ping/threshold";
    BelowPayload(json, "identifier", TAG_PAYLOAD + "/identifier");
    BelowPayload(json, "compression", TAG_PAYLOAD + "/compression");
    BelowPayload(json, "ping/interval", TAG_PAYLOAD + "/ping/interval");
    BelowPayload(json, "ping/timeout", TAG_PAYLOAD + "/ping/timeout");
    BelowPayload(json, "ping/threshold", TAG_PAYLOAD + "/ping/threshold");
  }

  lemma CreateAnsweredEnters(d: Engine, json: Json)
    ensures Welcomes(json) ==> Enters(d, CreateAnswered(d, json), json)
    ensures !Welcomes(json) ==> CreateAnswered(d, json) == CreateFailed(d, ServerError)
  {
    hide LookUp, Mbus, CreateFailed;
    PayloadPaths(json);
    NoPayload(json);
  }

  lemma NoPayload(json: Json)
    ensures LookUp(Some(json), TAG_PAYLOAD).None? ==> LookUp(LookUp(Some(json), TAG_PAYLOAD), "identifier").None?
  {
    hide Mbus, Components;
  }

  /** A client that waits for the response to its create request is connected by it, or starts over. */
  lemma ResponseReceived(e: Engine, m: Incoming, json: Json, now: int)
    requires Sound(e) && e.state.Connecting? && Says(m, json, TYPE_RESULT)
    requires FirstOf(e.pendings, 0, IntAt(Some(json), TAG_SEQUENCE, -1)) && e.pendings[0].handler.CreateHandler?
    ensures
      var (d, ok) := Receive(e, m, now);
      && ok && |e.pendings| == 1 && e.requests == []
      && exists c: Engine :: AnsweredAt(e, c, 0, json)
           && (Welcomes(json) ==> Enters(c, d, json))
           && (!Welcomes(json) ==>
                 d.state == Retrying(e.settings) && Fallow(d) && d.history == c.history.(signals := c.history.signals + [OnConnect(ServerError)]))
  {
    hide Sound, Parse, IntAt, StringAt, Mbus, FindPending, Completed, CreateAnswered, AnsweredAt, Enters, Welcomes, Fallow, CreateFailed;
    ResultHandled(e, m, json, now);
    FirstFound(e.pendings, 0, IntAt(Some(json), TAG_SEQUENCE, -1));
    OnlyCreate(e);
    var c := Completed(e.(pendings := e.pendings[..0] + e.pendings[1..]), e.pendings[0], Answered(json));
    AnswerReports(e, 0, json);
    CreateAnsweredEnters(c, json);
    ResponseFits(e, 0, json);
    PendingLeaves(e, 0, Answered(json));
    assert Cut(e.pendings, 0) == e.pendings[..0] + e.pendings[1..];
    if !Welcomes(json) {
      CreateFailedSound(c, ServerError);
      AnsweredAlone(e, c, json);
      FailedQuietly(c, ServerError);
    }
    var d := Receive(e, m, now).0;
    assert d == CreateAnswered(c, json);
    assert AnsweredAt(e, c, 0, json);
  }

  lemma OnlyCreate(e: Engine)
    requires Sound(e) && e.pendings != [] && e.pendings[0].handler.CreateHandler?
    ensures |e.pendings| == 1 && e.requests == []
  {
    hide Accounted, Rising, PingsOk;
    CreateIsLoad(e);
  }

  lemma AnsweredAlone(e: Engine, c: Engine, json: Json)
    requires AnsweredAt(e, c, 0, json) && |e.pendings| == 1 && e.requests == []
    ensures Load(c) == 0 && c.settings == e.settings
  {
    hide Reports;
  }

  lemma FailedQuietly(c: Engine, status: ConnectStatus)
    requires Load(c) == 0
    ensures CreateFailed(c, status).history == c.history.(signals := c.history.signals + [OnConnect(status)])
    ensures CreateFailed(c, status).state == Retrying(c.settings)
  {
    var u := Unplugged(Signaled(c, OnConnect(status)));
    assert CancelRequests(u) == u && CancelPendings(u) == u;
  }

  // ----- events and calls -----

  lemma NamesSpelled()
    ensures SERVER == "org.mbus.server" && PING == "org.mbus.server.event.ping" && PONG == "org.mbus.server.event.pong"
  {
  }

  /** A pong ends the wait for it and clears the misses; other events do not touch the client. */
  lemma EventReceived(e: Engine, m: Incoming, json: Json, now: int)
    requires Says(m, json, TYPE_EVENT)
    ensures
      var source, identifier := StringAt(Some(json), TAG_SOURCE), StringAt(Some(json), TAG_IDENTIFIER);
      Receive(e, m, now)
      == if source.None? || identifier.None? then (e, false)
         else if source == Some("org.mbus.server") && identifier == Some("org.mbus.server.event.pong") then
           (e.(ping := Ping(e.ping.interval, e.ping.timeout, e.ping.threshold, e.ping.sent, now, false, 0, [], [])), true)
         else (e, true)
  {
    hide Parse, LookUp, HandleResult, HandleCommand, Mbus;
    KindsDiffer();
    NamesSpelled();
  }

  /** The result command for a call: it names the caller, the command and the sequence number of the call,
      and carries what the routine of the application returned. */
  ghost predicate AnswersCall(payload: Json, source: string, identifier: string, sequence: int, reply: Reply) {
    var p := Some(payload);
    && StringAt(p, TAG_DESTINATION) == Some(source) && StringAt(p, TAG_IDENTIFIER) == Some(identifier)
    && IntAt(p, TAG_SEQUENCE, -1) == sequence && IntAt(p, TAG_STATUS, -1) == reply.status && LookUp(p, TAG_PAYLOAD) == reply.payload
  }

  lemma AnswerTagsDiffer()
    ensures |{TAG_DESTINATION, TAG_IDENTIFIER, TAG_SEQUENCE, TAG_STATUS, TAG_PAYLOAD}| == 5
    ensures TAG_DESTINATION != TAG_IDENTIFIER && TAG_DESTINATION != TAG_SEQUENCE && TAG_DESTINATION != TAG_STATUS
    ensures TAG_DESTINATION != TAG_PAYLOAD && TAG_IDENTIFIER != TAG_SEQUENCE && TAG_IDENTIFIER != TAG_STATUS
    ensures TAG_IDENTIFIER != TAG_PAYLOAD
  {
    TagsDiffer();
    RequestTagsDiffer();
    assert TAG_DESTINATION[20..] == "destination" && TAG_IDENTIFIER[20..] == "identifier" && TAG_STATUS[20..] == "status";
  }

  lemma ReplyAnswers(source: string, identifier: string, json: Json, reply: Reply)
    ensures AnswersCall(ReplyPayload(source, identifier, json, reply), source, identifier, IntAt(Some(json), TAG_SEQUENCE, -1), reply)
  {
    hide Mbus, LookUp, FindMember;
    TagsDiffer();
    AnswerTagsDiffer();
    TagsPlain();
    var a, b := Member(TAG_DESTINATION, String(source)), Member(TAG_IDENTIFIER, String(identifier));
    var c, d := Member(TAG_SEQUENCE, Number(IntAt(Some(json), TAG_SEQUENCE, -1))), Member(TAG_STATUS, Number(reply.status));
    var rest := if reply.payload.None? then [] else [Member(TAG_PAYLOAD, reply.payload.value)];
    forall tag | tag in {TAG_DESTINATION, TAG_IDENTIFIER, TAG_SEQUENCE, TAG_STATUS, TAG_PAYLOAD}
      ensures LookUp(Some(ReplyPayload(source, identifier, json, reply)), tag)
           == if tag == TAG_DESTINATION then Some(a.value) else if tag == TAG_IDENTIFIER then Some(b.value)
              else if tag == TAG_SEQUENCE then Some(c.value) else if tag == TAG_STATUS then Some(d.value) else reply.payload
    {
      assert ReplyPayload(source, identifier, json, reply) == Object([a, b, c, d] + rest);
      Field([a, b, c, d] + rest, tag);
      FindFour(a, b, c, d, tag);
      FindJoined([a, b, c, d], rest, tag);
      if reply.payload.Some? {
        FindOne(Member(TAG_PAYLOAD, reply.payload.value), tag);
      } else {
        FindOne(a, tag);
      }
    }
  }

  /** A request with the next sequence number is behind all others. */
  ghost predicate Joins(e: Engine, d: Engine, kind: string, destination: string, identifier: string, payload: Json, handler: Handler,
                        timeout: int, now: int)
  {
    var r := Item(kind, destination, identifier, e.sequence, payload, handler, now, timeout, |e.history.accepted|, e.draws);
    d == e.(requests := e.requests + [r], sequence := if e.sequence == 9998 then 1 else e.sequence + 1, draws := e.draws + 1,
            history := e.history.(accepted := e.history.accepted + [r]))
  }

  lemma SequenceOk(e: Engine)
    requires Sound(e)
    ensures 1 <= e.sequence <= 9998
  {
    hide Accounted, Lonely, Beating, Rising;
    CyclicNext(e.draws);
  }

  lemma EnqueueJoins(e: Engine, kind: string, destination: string, identifier: string, payload: Option<Json>, handler: Handler,
                     timeout: int, now: int)
    requires 1 <= e.sequence <= 9998
    ensures
      var (d, ok) := Enqueue(e, kind, destination, identifier, payload, handler, timeout, now);
      && ok == (timeout >= 0) && (!ok ==> d == e)
      && (ok ==> Joins(e, d, kind, destination, identifier, if payload.None? then Object([]) else payload.value, handler, timeout, now))
  {
  }

  /** A call: if the application has a routine for it, the reply goes back in a result command. */
  lemma CallReceived(e: Engine, m: Incoming, json: Json, now: int, source: string, identifier: string)
    requires Sound(e) && e.state.Connected? && Says(m, json, TYPE_COMMAND) && e.settings.commandTimeout >= 0
    requires StringAt(Some(json), TAG_SOURCE) == Some(source) && StringAt(Some(json), TAG_IDENTIFIER) == Some(identifier)
    requires !(source == "org.mbus.server" && identifier == "org.mbus.server.event.pong")
    ensures
      var (d, ok) := Receive(e, m, now);
      && ok && (m.reply.None? ==> d == e)
      && (m.reply.Some? ==>
            var payload := ReplyPayload(source, identifier, json, m.reply.value);
            && AnswersCall(payload, source, identifier, IntAt(Some(json), TAG_SEQUENCE, -1), m.reply.value)
            && Joins(e, d, TYPE_COMMAND, "org.mbus.server", "command.result", payload, UserHandler, e.settings.commandTimeout, now))
  {
    hide Sound, Parse, IntAt, LookUp, HandleResult, HandleEvent, AnswersCall, Joins, ReplyPayload, Enqueue, Mbus;
    KindsDiffer();
    NamesSpelled();
    SequenceOk(e);
    if m.reply.Some? {
      var payload := ReplyPayload(source, identifier, json, m.reply.value);
      ReplyAnswers(source, identifier, json, m.reply.value);
      EnqueueJoins(e, TYPE_COMMAND, SERVER, "command.result", Some(payload), UserHandler, e.settings.commandTimeout, now);
      assert "command.result" != "command.create";
    }
  }

  /** A message that is no result, no event and no command ends the run; so does one that is no JSON. */
  lemma NonsenseReceived(e: Engine, m: Incoming, now: int)
    requires
      var kind := StringAt(Parse(m.text), TAG_TYPE);
      kind != Some(TYPE_RESULT) && kind != Some(TYPE_EVENT) && kind != Some(TYPE_COMMAND)
    ensures Receive(e, m, now) == (e, false)
  {
    hide Parse, LookUp, HandleResult, HandleEvent, HandleCommand, Mbus;
  }
}

/** The compression when the application issues create commands of its own: exactly when both ends still
    agree whatever happens. This half is about the client: unless it is told so, it stays uncompressed. */
module CodecOwn {
  import opened Options
  import opened Compress
  import opened JsonStrings
  import opened JsonText
  import opened JsonPath
  import opened Methods
  import B = BrokerState
  import opened BrokerLink
  import opened ClientState
  import opened ClientInvariant
  import opened ClientRun
  import opened ClientBreak
  import opened ClientLives
  import opened CodecText
  import opened CodecLink

  // ----- requests and their texts -----

  /** The payload of a create command offers zlib. */
  predicate Offering(payload: Json) {
    B.Offers(LookUp(Some(payload), "compressions"), "zlib")
  }

  /** A request that survives being written as text; a create command goes to the broker, and may offer zlib
      only if that is let. */
  ghost predicate FairItem(r: Item, lets: bool) {
    ExactItem(r) && (r.kind == TYPE_COMMAND && r.identifier == "command.create" ==> r.destination == SERVER && (Offering(r.payload) ==> lets))
  }

  predicate CreateItem(r: Item) {
    r.kind == TYPE_COMMAND && r.identifier == "command.create" && r.destination == SERVER
  }

  /** The broker's method of a create command. */
  ghost predicate CreateMade(m: Request) {
    && m.kind == TYPE_COMMAND && IsCreate(m) && Exact(m.payload) && NulFree(m.draw) && IsInt32(m.sequence)
    && m.result == InitialResult(m.sequence)
  }

  ghost predicate FairMethod(m: Request, lets: bool) {
    m.kind == TYPE_COMMAND && IsCreate(m) ==> (Offering(m.payload) ==> lets)
  }

  /** Whatever the broker makes of the text. */
  ghost predicate FairText(text: string, lets: bool) {
    forall source: nat, now: int, draw: string ::
      var m := CreateRequest(source, text, now, draw); m.Some? ==> FairMethod(m.value, lets)
  }

  ghost predicate CreateText(text: string) {
    forall source: nat, now: int, draw: string ::
      NulFree(draw) ==> var m := CreateRequest(source, text, now, draw); m.Some? && CreateMade(m.value)
  }

  lemma FairItemText(r: Item, lets: bool)
    requires FairItem(r, lets)
    ensures FairText(RequestText(r), lets) && (CreateItem(r) ==> CreateText(RequestText(r)))
  {
    hide RequestText, InitialResult, Mbus, CreateRequest, Offering, NulFree, Exact;
    ItemPayload(r);
    forall source: nat, now: int, draw: string
      ensures var m := CreateRequest(source, RequestText(r), now, draw);
        m.Some? && FairMethod(m.value, lets) && (CreateItem(r) && NulFree(draw) ==> CreateMade(m.value))
    {
      RequestArrives(r, source, now, draw);
    }
  }

  lemma ItemPayload(r: Item)
    requires ExactItem(r)
    ensures Exact(r.payload) && IsInt32(r.sequence)
  {
  }

  // ----- results -----

  /** If this is a result, it does not speak of zlib. */
  ghost predicate Tame(text: string) {
    var j := Parse(text);
    j.Some? && StringAt(j, TAG_TYPE) == Some(TYPE_RESULT) ==> StringAt(LookUp(j, TAG_PAYLOAD), "compression") != Some("zlib")
  }

  ghost predicate AllTame(messages: seq<Incoming>) {
    forall i | 0 <= i < |messages| :: Tame(messages[i].text)
  }

  // ----- the client -----

  ghost predicate Written(f: Frame, lets: bool, creating: bool) {
    f.compression == Uncompressed && FairText(f.text, lets) && (creating ==> CreateText(f.text))
  }

  /** As long as it has a connection, the client is uncompressed and so is all it wrote; while it connects,
      it has written and queued nothing but create commands to the broker. */
  ghost predicate Level(e: Engine, s: Settings, lets: bool) {
    && e.settings == s
    && (e.socket ==>
          && e.compression == Uncompressed
          && (forall i | 0 <= i < |e.requests| :: FairItem(e.requests[i], lets) && (e.state.Connecting? ==> CreateItem(e.requests[i])))
          && (forall i | 0 <= i < |e.outgoing| :: Written(e.outgoing[i], lets, e.state.Connecting?)))
  }

  lemma LevelDark(e: Engine, s: Settings, lets: bool)
    requires e.settings == s && !e.socket
    ensures Level(e, s, lets)
  {
  }

  /** Neither queues nor connection changed; the state may become one that asks less. */
  lemma LevelSame(e: Engine, d: Engine, s: Settings, lets: bool)
    requires Level(e, s, lets) && d.settings == e.settings && d.socket == e.socket && d.compression == e.compression
    requires d.requests == e.requests && d.outgoing == e.outgoing && (d.state.Connecting? ==> e.state.Connecting?)
    ensures Level(d, s, lets)
  {
    hide FairItem, FairText, CreateText;
  }

  lemma LevelFewer(e: Engine, d: Engine, s: Settings, lets: bool)
    requires Level(e, s, lets) && d == e.(requests := d.requests, pendings := d.pendings, history := d.history)
    requires forall r :: r in d.requests ==> r in e.requests
    ensures Level(d, s, lets)
  {
    hide FairItem, FairText, CreateText, CreateItem;
    forall i | 0 <= i < |d.requests|
      ensures e.socket ==> FairItem(d.requests[i], lets) && (e.state.Connecting? ==> CreateItem(d.requests[i]))
    {
      assert d.requests[i] in e.requests;
    }
  }

  lemma ResetLevel(e: Engine, d: Engine, s: Settings, lets: bool)
    requires !e.broken && e.settings == s && d == Reset(e).(state := d.state, history := d.history, broken := d.broken)
    ensures Level(d, s, lets) && !d.socket
  {
    hide Reset, Trailed, Fallow, NoCreates;
    LooseReset(e);
    LevelDark(d, s, lets);
  }

  lemma FlushedLevel(e: Engine, s: Settings, lets: bool)
    requires Level(e, s, lets) && e.requests != []
    ensures Level(FlushOne(e), s, lets) && FlushOne(e).socket == e.socket && FlushOne(e).state == e.state
  {
    hide FairItem, FairText, CreateText, CreateItem, Completed, RequestText, Mbus;
    var r, d := e.requests[0], FlushOne(e);
    QueuesOf(e.(requests := e.requests[1..], outgoing := e.outgoing + [Frame(e.compression, RequestText(r))]), r, Sent);
    if e.socket {
      FairItemText(r, lets);
    }
  }

  lemma {:induction false} FlushLevel(e: Engine, s: Settings, lets: bool)
    requires Level(e, s, lets)
    ensures Level(Flush(e), s, lets) && Flush(e).socket == e.socket && Flush(e).state == e.state
    decreases |e.requests|
  {
    hide Level, FlushOne;
    if e.requests != [] {
      FlushedLevel(e, s, lets);
      FlushOneShorter(e);
      FlushLevel(FlushOne(e), s, lets);
    }
  }

  lemma FlushOneShorter(e: Engine)
    requires e.requests != []
    ensures |FlushOne(e).requests| == |e.requests| - 1
  {
    hide Completed, RequestText;
    QueuesOf(e.(requests := e.requests[1..], outgoing := e.outgoing + [Frame(e.compression, RequestText(e.requests[0]))]), e.requests[0], Sent);
  }

  // ----- queueing -----

  lemma EnqueueLevel(e: Engine, s: Settings, lets: bool, kind: string, destination: string, identifier: string,
                     payload: Option<Json>, handler: Handler, timeout: int, now: int)
    requires Level(e, s, lets) && NulFree(kind) && NulFree(destination) && NulFree(identifier) && IsInt32(timeout)
    requires payload.Some? ==> Exact(payload.value)
    requires kind == TYPE_COMMAND && identifier == "command.create" ==>
      destination == SERVER && (payload.Some? && Offering(payload.value) ==> lets)
    requires e.state.Connecting? ==> kind == TYPE_COMMAND && identifier == "command.create"
    ensures
      var d := Enqueue(e, kind, destination, identifier, payload, handler, timeout, now).0;
      Level(d, s, lets) && d.socket == e.socket && d.state == e.state && d.outgoing == e.outgoing
  {
    hide NulFree, Mbus, FairText, CreateText, Offering;
    NothingOffered();
    var (d, ok) := Enqueue(e, kind, destination, identifier, payload, handler, timeout, now);
    if ok {
      assert ExactItem(d.requests[|e.requests|]);
    }
  }

  lemma NothingOffered()
    ensures !Offering(Object([]))
  {
    hide LookUp, FindMember;
    SettingsPlain();
    Field([], "compressions");
    FindOne(Member("", Null), "compressions");
  }

  lemma SettingsPlain()
    ensures Plain("compressions") && Plain("compression")
  {
  }

  lemma CommandLevel(e: Engine, s: Settings, lets: bool, handler: Handler, destination: string, command: string,
                     payload: Option<Json>, timeout: int, now: int)
    requires Level(e, s, lets) && ExactSettings(s) && NulFree(destination) && NulFree(command) && IsInt32(timeout)
    requires payload.Some? ==> Exact(payload.value)
    requires command == "command.create" ==> destination == SERVER && (payload.Some? && Offering(payload.value) ==> lets)
    ensures
      var d := Command(e, handler, destination, command, payload, timeout, now).0;
      Level(d, s, lets) && d.socket == e.socket && d.state == e.state && d.outgoing == e.outgoing
  {
    hide NulFree, Exact, Mbus, Enqueue, Offering, FairItem, FairText, CreateText, CreateItem, Written;
    NamesNulFree();
    if (if command == "command.create" then e.state.Connecting? else e.state.Connected?) {
      EnqueueLevel(e, s, lets, TYPE_COMMAND, destination, command, payload, handler,
                   if timeout <= 0 then s.commandTimeout else timeout, now);
    }
  }

  lemma PublishLevel(e: Engine, s: Settings, lets: bool, destination: Option<string>, event: string, payload: Option<Json>,
                     qos: Qos, timeout: int, now: int)
    requires Level(e, s, lets) && ExactSettings(s) && (destination.Some? ==> NulFree(destination.value)) && NulFree(event)
    requires IsInt32(timeout) && (payload.Some? ==> Exact(payload.value))
    ensures
      var d := Publish(e, destination, event, payload, qos, timeout, now).0;
      Level(d, s, lets) && d.socket == e.socket && d.state == e.state && d.outgoing == e.outgoing
  {
    hide Level, NulFree, Exact, Mbus, Enqueue, Command, Offering, EventPayload;
    if e.state.Connected? {
      NamesNulFree();
      NamesDiffer();
      CreateNulFree();
      LevelSettings(e, s, lets);
      var to := if destination.None? then SUBSCRIBERS else destination.value;
      var t := if timeout <= 0 then s.publishTimeout else timeout;
      EnqueueLevel(e, s, lets, TYPE_EVENT, to, event, payload, UserHandler, t, now);
      EventPayloadExact(to, event, payload);
      CommandLevel(e, s, lets, EventHandler, SERVER, "command.event", Some(EventPayload(to, event, payload)), t, now);
    }
  }

  lemma LevelSettings(e: Engine, s: Settings, lets: bool)
    requires Level(e, s, lets)
    ensures e.settings == s && (e.socket ==> e.compression == Uncompressed)
  {
  }

  /** The client's own create request offers zlib only if it has it. */
  lemma OwnOffers(s: Settings)
    ensures Offering(CreateData(s)) ==> s.zlib
  {
    hide LookUp, CreateData;
    NegotiatedKnown(s, true);
  }

  lemma RequestCreateLevel(e: Engine, s: Settings, lets: bool, now: int)
    requires Level(e, s, lets) && ExactSettings(s) && (s.zlib ==> lets)
    ensures var d := RequestCreate(e, now).0; Level(d, s, lets) && d.socket == e.socket && d.state == e.state && d.outgoing == e.outgoing
  {
    hide Level, ExactSettings, NulFree, Mbus, Command, CreateData, Offering;
    LevelSettings(e, s, lets);
    NamesNulFree();
    CreateNulFree();
    ExactCreateData(s);
    OwnOffers(s);
    CommandLevel(e, s, lets, CreateHandler, SERVER, "command.create", Some(CreateData(s)), 0, now);
  }

  // ----- messages -----

  /** A response to the client's create request: the client stays uncompressed if it does not speak of zlib,
      or if the client has no zlib. */
  lemma CreateAnsweredLevel(e: Engine, s: Settings, lets: bool, json: Json)
    requires Level(e, s, lets) && !e.broken
    requires s.zlib ==> StringAt(LookUp(Some(json), TAG_PAYLOAD), "compression") != Some("zlib")
    ensures var d := CreateAnswered(e, json); Level(d, s, lets) && (d.socket ==> d.state.Connected?)
  {
    hide StringAt, IntAt, LookUp, Mbus, CreateFailed, FairItem, FairText, CreateText;
    CreateFailedLevel(e, s, lets, ServerError);
    assert "none" != "zlib" by { assert "none"[0] != "zlib"[0]; }
  }

  lemma CreateFailedLevel(e: Engine, s: Settings, lets: bool, status: ConnectStatus)
    requires !e.broken && e.settings == s
    ensures Level(CreateFailed(e, status), s, lets) && !CreateFailed(e, status).socket
  {
    hide Reset, Level;
    ResetLevel(Signaled(e, OnConnect(status)), CreateFailed(e, status), s, lets);
  }

  lemma HandleResultLevel(e: Engine, s: Settings, lets: bool, json: Json)
    requires Level(e, s, lets) && Loose(e) && !e.state.Disconnecting?
    requires s.zlib && e.state.Connecting? ==> StringAt(LookUp(Some(json), TAG_PAYLOAD), "compression") != Some("zlib")
    ensures var d := HandleResult(e, json); Level(d, s, lets) && (d.socket ==> e.socket && (d.state == e.state || d.state.Connected?))
  {
    hide Level, StringAt, LookUp, IntAt, FindPending, Completed, CreateAnswered, Mbus, Lone;
    var k := FindPending(e.pendings, IntAt(Some(json), TAG_SEQUENCE, -1));
    if k.Some? {
      var c := e.(pendings := Cut(e.pendings, k.value));
      var d := Completed(c, e.pendings[k.value], Answered(json));
      QueuesOf(c, e.pendings[k.value], Answered(json));
      LevelSame(e, d, s, lets);
      if e.pendings[k.value].handler.CreateHandler? {
        assert e.state.Connecting?;
        CreateAnsweredLevel(d, s, lets, json);
        CreateAnsweredSocket(d, json);
      }
    }
  }

  lemma CreateAnsweredSocket(e: Engine, json: Json)
    requires !e.broken
    ensures CreateAnswered(e, json).socket ==> e.socket
  {
    hide StringAt, IntAt, LookUp, Mbus, CreateFailed;
    CreateFailedDark(e, ServerError);
  }

  lemma CreateFailedDark(e: Engine, status: ConnectStatus)
    ensures !CreateFailed(e, status).socket
  {
    hide Reset;
    ResetDark(Signaled(e, OnConnect(status)));
  }

  lemma HandleCommandLevel(e: Engine, s: Settings, lets: bool, json: Json, reply: Option<Reply>, now: int)
    requires Level(e, s, lets) && ExactSettings(s) && Exact(json) && ExactReply(reply)
    ensures var d := HandleCommand(e, json, reply, now).0; Level(d, s, lets) && d.socket == e.socket && d.state == e.state
  {
    hide Level, StringAt, Mbus, ReplyPayload, Exact, NulFree, Command, ExactReply, Offering, ExactSettings, Ponged;
    PongedLevel(e, s, lets, now);
    LookUpExact(Some(json), TAG_SOURCE);
    LookUpExact(Some(json), TAG_IDENTIFIER);
    var source, identifier := StringAt(Some(json), TAG_SOURCE), StringAt(Some(json), TAG_IDENTIFIER);
    if source.Some? && identifier.Some? && reply.Some? {
      ReplyExact(source.value, identifier.value, json, reply.value);
      NamesNulFree();
      CreateNulFree();
      ResultIsNoCreate();
      CommandLevel(e, s, lets, UserHandler, SERVER, "command.result",
                   Some(ReplyPayload(source.value, identifier.value, json, reply.value)), 0, now);
    }
  }

  lemma ResultIsNoCreate()
    ensures "command.result" != "command.create" && "command.event" != "command.create"
  {
    assert "command.result"[8] == 'r' && "command.create"[8] == 'c' && "command.event"[8] == 'e';
  }

  lemma PongedLevel(e: Engine, s: Settings, lets: bool, now: int)
    requires Level(e, s, lets)
    ensures Level(Ponged(e, now), s, lets) && Ponged(e, now).socket == e.socket && Ponged(e, now).state == e.state
  {
    hide Level;
    LevelSame(e, Ponged(e, now), s, lets);
  }

  lemma ReceiveLevel(e: Engine, s: Settings, lets: bool, m: Incoming, now: int)
    requires Level(e, s, lets) && Loose(e) && !e.state.Disconnecting? && ExactSettings(s) && ExactIncoming(m)
    requires s.zlib && e.state.Connecting? ==> Tame(m.text)
    ensures var d := Receive(e, m, now).0; Level(d, s, lets) && (d.socket ==> e.socket && (d.state == e.state || d.state.Connected?))
  {
    hide Level, Loose, StringAt, LookUp, Mbus, Parse, Exact, NulFree, ExactReply, HandleResult, HandleCommand, ExactSettings, Ponged;
    ParsedTextExact(m.text);
    var json := Parse(m.text);
    if json.Some? && StringAt(json, TAG_TYPE).Some? {
      if StringAt(json, TAG_TYPE).value == TYPE_RESULT {
        HandleResultLevel(e, s, lets, json.value);
      } else {
        PongedLevel(e, s, lets, now);
        HandleCommandLevel(e, s, lets, json.value, m.reply, now);
      }
    }
  }

  lemma {:induction false} ReceiveAllLevel(e: Engine, s: Settings, lets: bool, frames: seq<Frame>, messages: seq<Incoming>, now: int)
    requires Level(e, s, lets) && Loose(e) && !e.state.Disconnecting? && ExactSettings(s) && ExactMessages(messages)
    requires s.zlib && e.state.Connecting? ==> AllTame(messages)
    requires |messages| <= |frames| && AllWith(frames, Uncompressed)
    ensures ReadsWell(e, frames, messages, now)
    ensures
      var d := ReceiveAll(e, messages, now).0;
      Level(d, s, lets) && (d.socket ==> e.socket && (d.state == e.state || d.state.Connected?))
    decreases |messages|
  {
    hide Level, Loose, ExactSettings, ExactIncoming, Receive, Tame;
    if messages != [] && e.socket {
      LevelSettings(e, s, lets);
      ReceiveLevel(e, s, lets, messages[0], now);
      ReceiveLoose(e, messages[0], now);
      var (d, ok) := Receive(e, messages[0], now);
      if ok && d.socket {
        assert forall i | 0 <= i < |messages| - 1 :: messages[1..][i] == messages[i + 1];
        ReceiveAllLevel(d, s, lets, frames[1..], messages[1..], now);
      }
    }
  }

  // ----- the parts of a run -----

  lemma BeforeDecodeLevel(e: Engine, s: Settings, lets: bool, p: Poll, now: int)
    requires Level(e, s, lets) && Loose(e) && !e.state.Disconnecting? && ExactSettings(s) && (s.zlib ==> lets)
    ensures
      var d := BeforeDecode(e, p, now).0;
      Level(d, s, lets) && (d.socket ==> e.socket && d.state == e.state)
  {
    hide Level, Loose, Reset, ExactSettings, FinishConnecting;
    LooseNotBroken(e);
    LevelSettings(e, s, lets);
    match p
    case Idle =>
    case PollError =>
    case Ready(closed, attempt, writeError, messages) =>
      ResetLevel(e, Signaled(Reset(e).(state := Disconnected), OnDisconnect(ConnectionClosed)), s, lets);
      if attempt.Some? {
        FinishConnectingLevel(e, s, lets, attempt.value, now);
      }
  }

  lemma FinishConnectingLevel(e: Engine, s: Settings, lets: bool, attempt: Attempt, now: int)
    requires Level(e, s, lets) && !e.broken && ExactSettings(s) && (s.zlib ==> lets)
    ensures
      var d := FinishConnecting(e, attempt, now).0;
      Level(d, s, lets) && (d.socket ==> e.socket && d.state == e.state)
  {
    hide Level, ExactSettings, RequestCreate, GiveUp;
    LevelSettings(e, s, lets);
    var ready := e.(socketConnected := true);
    LevelSame(e, ready, s, lets);
    RequestCreateLevel(ready, s, lets, now);
    GiveUpLevel(e, s, lets, ConnectionRefused, DisconnectCanceled);
    LevelSame(e, Signaled(e, OnConnect(ConnectInternalError)), s, lets);
  }

  lemma GiveUpLevel(e: Engine, s: Settings, lets: bool, status: ConnectStatus, after: DisconnectStatus)
    requires !e.broken && e.settings == s
    ensures Level(GiveUp(e, status, after), s, lets) && !GiveUp(e, status, after).socket
  {
    hide Level, Reset;
    ResetLevel(Signaled(e, OnConnect(status)), GiveUp(e, status, after), s, lets);
  }

  lemma CheckPingLevel(e: Engine, s: Settings, lets: bool, now: int)
    requires Level(e, s, lets) && !e.broken && ExactSettings(s)
    ensures var d := CheckPing(e, now).0; Level(d, s, lets) && (d.socket ==> e.socket && d.state == e.state)
  {
    hide Level, ExactSettings, MissPong, Reset, SendPing;
    LevelSettings(e, s, lets);
    if e.state.Connected? && e.ping.interval > 0 {
      var send := !e.ping.waiting && now > e.ping.sent + e.ping.interval;
      SendPingLevel(e, s, lets, now);
      var (d, ok) := if send then SendPing(e, now) else (e, true);
      LevelSettings(d, s, lets);
      if ok {
        var f := d.(ping := MissPong(d.ping, now));
        LevelSame(d, f, s, lets);
        ResetLevel(Signaled(f, OnDisconnect(PingTimeout)), Reset(Signaled(f, OnDisconnect(PingTimeout))).(state := Retrying(f.settings)), s, lets);
      }
    }
  }

  lemma SendPingLevel(e: Engine, s: Settings, lets: bool, now: int)
    requires Level(e, s, lets) && ExactSettings(s) && !e.broken
    ensures
      var d := SendPing(e, now).0;
      Level(d, s, lets) && d.socket == e.socket && d.state == e.state && !d.broken
  {
    hide Level, ExactSettings, Publish, NulFree, Mbus;
    var d := e.(ping := Pinged(e.ping, now));
    LevelSame(e, d, s, lets);
    NamesNulFree();
    PublishLevel(d, s, lets, Some(SERVER), PING, None, AtMostOnce, 0, now);
    PublishWhole(d, Some(SERVER), PING, None, AtMostOnce, 0, now);
  }

  lemma PublishWhole(e: Engine, destination: Option<string>, event: string, payload: Option<Json>, qos: Qos, timeout: int, now: int)
    ensures Publish(e, destination, event, payload, qos, timeout, now).0.broken == e.broken
  {
    hide Mbus;
  }

  lemma SweptLevel(e: Engine, d: Engine, s: Settings, lets: bool)
    requires Level(e, s, lets) && Swept(e, d)
    ensures Level(d, s, lets) && (d.socket ==> e.socket && d.state == e.state)
  {
    hide Level, Fallow;
    LevelSettings(e, s, lets);
    if Fallow(d) {
      FallowLone(d);
      LevelDark(d, s, lets);
    } else {
      LevelFewer(e, d, s, lets);
    }
  }

  lemma FinishLevel(e: Engine, s: Settings, lets: bool, now: int)
    requires Level(e, s, lets) && Loose(e) && ExactSettings(s)
    ensures var d := Finish(e, now).0; Level(d, s, lets) || d.broken
    ensures var d := Finish(e, now).0; d.socket ==> e.socket && d.state == e.state
  {
    hide Level, Loose, ExactSettings, CheckPing, CheckConnecting, SweepRequests, SweepPendings, Flush, Overtaken, NoCreates, Lone, Swept;
    LooseNotBroken(e);
    LevelSettings(e, s, lets);
    CheckConnectingLoose(e, now);
    GiveUpLevel(e, s, lets, ConnectTimeout, DisconnectInternalError);
    var b := CheckConnecting(e, now);
    CheckConnectingIs(e, now);
    LooseNotBroken(b);
    CheckPingLoose(b, now);
    CheckPingLevel(b, s, lets, now);
    var (d, ok) := CheckPing(b, now);
    LooseNotBroken(d);
    LooseLone(d);
    if ok {
      SweepRequestsBreaks(d, 0, now);
      var f := SweepRequests(d, 0, now);
      if !f.broken {
        SweptLevel(d, f, s, lets);
        SweepPendingsBreaks(f, 0, now);
        var g := SweepPendings(f, 0, now);
        if !g.broken {
          SweptLevel(f, g, s, lets);
          FlushLevel(g, s, lets);
        }
      }
    }
  }

  lemma CheckConnectingIs(e: Engine, now: int)
    ensures CheckConnecting(e, now) in {e, GiveUp(e, ConnectTimeout, DisconnectInternalError)}
  {
    hide GiveUp;
  }
}

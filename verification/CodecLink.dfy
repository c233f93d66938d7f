/** The client's half of the negotiation: what it has sent, and which compression it reads and writes
    with, as long as its connection lives. */
module CodecLink {
  import opened Options
  import opened Compress
  import opened JsonStrings
  import opened JsonText
  import opened JsonPath
  import opened Methods
  import opened BrokerLink
  import opened ClientState
  import opened ClientInvariant
  import opened ClientRun
  import opened CodecText

  // ----- the stages of a connection -----

  /** No broker takes this message for a create command. */
  ghost predicate Harmless(text: string) {
    forall source: nat, now: int, draw: string ::
      var m := CreateRequest(source, text, now, draw);
      m.Some? && m.value.kind == TYPE_COMMAND ==> !IsCreate(m.value)
  }

  ghost predicate PlainItem(r: Item) {
    ExactItem(r) && !r.handler.CreateHandler? && (r.kind == TYPE_COMMAND ==> r.identifier != "command.create")
  }

  ghost predicate AllPlain(items: seq<Item>) {
    forall i | 0 <= i < |items| :: PlainItem(items[i])
  }

  ghost predicate Waiting(e: Engine, s: Settings) {
    e.settings == s && Sound(e) && e.socket && e.compression == Uncompressed && (e.state.Connecting? || e.state.Disconnecting?)
  }

  /** Nothing is written yet; the create request may be queued. */
  ghost predicate Unsent(e: Engine, s: Settings) {
    && Waiting(e, s) && e.pendings == [] && e.outgoing == []
    && (e.requests == [] || (|e.requests| == 1 && OwnCreate(e.requests[0], s)))
  }

  function FirstFrame(q: Item): Frame {
    Frame(Uncompressed, RequestText(q))
  }

  /** The create request q is written, and nothing else. */
  ghost predicate Asking(e: Engine, s: Settings, q: Item) {
    Waiting(e, s) && e.requests == [] && e.pendings == [q] && OwnCreate(q, s) && e.outgoing == [FirstFrame(q)]
  }

  /** Behind the create request, every frame is written with the codec, and none is a create request. */
  ghost predicate Written(frames: seq<Frame>, codec: Compression, q: Item) {
    && frames != [] && frames[0] == FirstFrame(q)
    && forall k | 1 <= k < |frames| :: frames[k].compression == codec && Harmless(frames[k].text)
  }

  /** The response has come. */
  ghost predicate Tuned(e: Engine, s: Settings, codec: Compression, q: Item) {
    && e.settings == s && Sound(e) && e.socket && e.compression == codec && (e.state.Connected? || e.state.Disconnecting?)
    && AllPlain(e.requests) && AllPlain(e.pendings) && Written(e.outgoing, codec, q)
  }

  /** The client was reset. */
  ghost predicate Gone(e: Engine) {
    Sound(e) && Fallow(e) && (e.state.Connecting? || e.state.Disconnected?)
  }

  // ----- frames -----

  lemma PlainHarmless(r: Item)
    requires PlainItem(r)
    ensures Harmless(RequestText(r))
  {
    hide RequestText, InitialResult, ExactItem, Mbus, CreateRequest;
    forall source: nat, now: int, draw: string
      ensures var m := CreateRequest(source, RequestText(r), now, draw);
        m.Some? && m.value.kind == TYPE_COMMAND ==> !IsCreate(m.value)
    {
      RequestArrives(r, source, now, draw);
    }
  }

  lemma WrittenMore(frames: seq<Frame>, codec: Compression, q: Item, r: Item)
    requires Written(frames, codec, q) && PlainItem(r)
    ensures Written(frames + [Frame(codec, RequestText(r))], codec, q)
  {
    hide Harmless, RequestText, PlainItem;
    PlainHarmless(r);
  }

  // ----- going away -----

  lemma HungUp(e: Engine, x: Signal)
    requires Sound(e)
    ensures Gone(Signaled(Reset(e).(state := Disconnected), x))
  {
    hide Sound, Reset, Fallow;
    ResetSound(e, Signaled(Reset(e).(state := Disconnected), x));
  }

  lemma GaveUp(e: Engine, status: ConnectStatus, after: DisconnectStatus)
    requires Sound(e)
    ensures Gone(GiveUp(e, status, after))
  {
    hide Sound, Fallow, GiveUp;
    GiveUpSound(e, status, after);
    GiveUpGoesOn(e, status, after);
  }

  lemma CreateGone(e: Engine, status: ConnectStatus)
    requires Sound(e)
    ensures Gone(CreateFailed(e, status))
  {
    hide Sound, Fallow, CreateFailed;
    CreateFailedSound(e, status);
  }

  /** The sections at the end of a run leave a client alone that was reset. */
  lemma GoneRests(e: Engine, now: int)
    requires Gone(e)
    ensures CheckConnecting(e, now) == e && CheckPing(e, now) == (e, true)
    ensures SweepRequests(e, 0, now) == e && SweepPendings(e, 0, now) == e && Flush(e) == e && !e.broken
  {
    hide Accounted, PingsOk, Rising;
  }

  lemma CheckConnectingGone(e: Engine, now: int)
    requires Sound(e)
    ensures CheckConnecting(e, now) == e || Gone(CheckConnecting(e, now))
  {
    hide Sound, GiveUp, Gone;
    GaveUp(e, ConnectTimeout, DisconnectInternalError);
  }

  // ----- the start of a run -----

  lemma BeginAlive(e: Engine, attempt: Attempt, now: int)
    requires Sound(e) && e.socket && !e.state.Disconnected?
    ensures
      var (d, h) := Begin(e, attempt, now);
      if e.state.Disconnecting? then Gone(d) && h == Skips else d == e && h == Polls
  {
    hide Sound, Reset;
    if e.state.Disconnecting? {
      HungUp(e, OnDisconnect(Requested));
    }
  }

  // ----- a client that has not written yet -----

  lemma OwnCreateQueued(e: Engine, s: Settings, now: int)
    requires Unsent(e, s) && e.state.Connecting? && e.socketConnected && e.requests == [] && ExactSettings(s)
    ensures Unsent(RequestCreate(e, now).0, s)
  {
    hide Accounted, PingsOk, Rising, CreateData, Mbus, NulFree, Exact, Cyclic;
    RequestCreateSound(e, now);
    CyclicNext(e.draws);
    ExactCreateData(s);
    NamesNulFree();
    CreateNulFree();
    NamesDiffer();
  }

  lemma CreateNulFree()
    ensures NulFree("command.create") && NulFree("command.result") && NulFree("command.event")
  {
  }

  lemma UnsentBeforeDecode(e: Engine, s: Settings, p: Poll, now: int)
    requires Unsent(e, s) && e.state.Connecting? && ExactSettings(s)
    ensures
      var (d, h) := BeforeDecode(e, p, now);
      (Gone(d) && !h.Polls?) || (Unsent(d, s) && d.state.Connecting?)
  {
    hide Sound, Reset, GiveUp, RequestCreate, OwnCreate, Fallow, ExactSettings;
    match p
    case Idle =>
    case PollError =>
    case Ready(closed, attempt, writeError, messages) =>
      if closed {
        HungUp(e, OnDisconnect(ConnectionClosed));
      } else if !e.socketConnected && attempt.Some? {
        IdleWithoutSocket(e);
        if attempt.value.Established? {
          SocketSound(e, e.(socketConnected := true));
          OwnCreateQueued(e.(socketConnected := true), s, now);
          RequestCreateGoesOn(e.(socketConnected := true), now);
        } else if attempt.value.Refused? {
          GaveUp(e, ConnectionRefused, DisconnectCanceled);
        } else {
          SignaledSound(e, OnConnect(ConnectInternalError));
        }
      }
  }

  /** The sweep of a queue that holds nothing but the create request. */
  lemma SweepLoneRequest(e: Engine, now: int)
    requires Sound(e) && |e.requests| <= 1 && (e.requests != [] ==> e.requests[0].handler.CreateHandler?)
    ensures SweepRequests(e, 0, now) == e || Gone(SweepRequests(e, 0, now))
  {
    hide Sound, TimeOut, Gone, Fallow;
    if e.requests != [] && Expired(e.requests[0], now) {
      RequestLeaves(e, 0, TimedOut(now));
      assert Cut(e.requests, 0) == [] == e.requests[..0] + e.requests[1..];
      TimedOutGone(Completed(e.(requests := []), e.requests[0], TimedOut(now)), e.(requests := []), e.requests[0], now);
    }
  }

  lemma SweepLonePending(e: Engine, now: int)
    requires Sound(e) && |e.pendings| <= 1 && (e.pendings != [] ==> e.pendings[0].handler.CreateHandler?)
    ensures SweepPendings(e, 0, now) == e || Gone(SweepPendings(e, 0, now))
  {
    hide Sound, TimeOut, Gone, Fallow;
    if e.pendings != [] && Expired(e.pendings[0], now) {
      PendingLeaves(e, 0, TimedOut(now));
      assert Cut(e.pendings, 0) == [] == e.pendings[..0] + e.pendings[1..];
      TimedOutGone(Completed(e.(pendings := []), e.pendings[0], TimedOut(now)), e.(pendings := []), e.pendings[0], now);
    }
  }

  lemma TimedOutGone(d: Engine, before: Engine, r: Item, now: int)
    requires d == Completed(before, r, TimedOut(now)) && Sound(d) && r.handler.CreateHandler?
    ensures Gone(TimeOut(before, r, now))
  {
    hide Sound, Gone, Completed, CreateFailed;
    CreateGone(d, ConnectTimeout);
  }

  lemma CreateFlushed(e: Engine, s: Settings)
    requires Unsent(e, s)
    ensures if e.requests == [] then Flush(e) == e else Asking(Flush(e), s, e.requests[0])
  {
    hide Sound, OwnCreate, RequestText;
    if e.requests != [] {
      var q := e.requests[0];
      OwnCreateIs(q, s);
      FlushOneSound(e);
      assert e.requests[1..] == [];
      assert Flush(e) == FlushOne(e);
    }
  }

  lemma OwnCreateIs(q: Item, s: Settings)
    requires OwnCreate(q, s)
    ensures q.handler.CreateHandler? && q.kind == TYPE_COMMAND && q.kind != TYPE_EVENT
  {
    hide ExactItem, CreateData, Mbus;
    NamesDiffer();
  }

  lemma UnsentFinish(e: Engine, s: Settings, now: int)
    requires Unsent(e, s) && e.state.Connecting?
    ensures
      var d := Finish(e, now).0;
      Gone(d) || Unsent(d, s) || (e.requests != [] && Asking(d, s, e.requests[0]))
  {
    hide Sound, OwnCreate, Gone, CheckConnecting, CheckPing, SweepRequests, SweepPendings, Flush, Asking;
    CheckConnectingGone(e, now);
    var a := CheckConnecting(e, now);
    if Gone(a) {
      GoneRests(a, now);
    } else {
      SoundAccount(e);
      QuietPing(e, now);
      if e.requests != [] { OwnCreateIs(e.requests[0], s); }
      SweepLoneRequest(e, now);
      var f := SweepRequests(e, 0, now);
      if Gone(f) {
        GoneRests(f, now);
      } else {
        SweepLonePending(e, now);
        CreateFlushed(e, s);
        NoPendings(e, now);
      }
    }
  }

  lemma QuietPing(e: Engine, now: int)
    requires !e.state.Connected?
    ensures CheckPing(e, now) == (e, true)
  {
  }

  lemma NoPendings(e: Engine, now: int)
    requires e.pendings == []
    ensures SweepPendings(e, 0, now) == e
  {
  }

  lemma NoRequests(e: Engine, now: int)
    requires e.requests == []
    ensures SweepRequests(e, 0, now) == e && Flush(e) == e
  {
  }

  // ----- a client that waits for the response -----

  lemma AskingBeforeDecode(e: Engine, s: Settings, q: Item, p: Poll, now: int)
    requires Asking(e, s, q) && e.state.Connecting?
    ensures
      var (d, h) := BeforeDecode(e, p, now);
      (Gone(d) && !h.Polls?) || d == e
  {
    hide Sound, Reset, FinishConnecting, OwnCreate, Gone;
    OwnCreateIs(q, s);
    Plugged(e);
    match p
    case Idle =>
    case PollError =>
    case Ready(closed, attempt, writeError, messages) =>
      if closed {
        HungUp(e, OnDisconnect(ConnectionClosed));
      }
  }

  lemma Plugged(e: Engine)
    requires Sound(e) && e.state.Connecting? && Load(e) > 0
    ensures e.socketConnected
  {
  }

  lemma AskingFinish(e: Engine, s: Settings, q: Item, now: int)
    requires Asking(e, s, q) && e.state.Connecting?
    ensures var d := Finish(e, now).0; Gone(d) || d == e
  {
    hide Sound, OwnCreate, Gone, CheckConnecting, CheckPing, SweepRequests, SweepPendings, Flush;
    CheckConnectingGone(e, now);
    var a := CheckConnecting(e, now);
    if Gone(a) {
      GoneRests(a, now);
    } else {
      SoundAccount(e);
      QuietPing(e, now);
      OwnCreateIs(q, s);
      NoRequests(e, now);
      SweepLonePending(e, now);
      var g := SweepPendings(e, 0, now);
      if Gone(g) {
        GoneRests(g, now);
      }
    }
  }

  /** The response to the create request: the client is tuned to the broker's compression, or gone. */
  lemma ResponseHandled(e: Engine, s: Settings, q: Item, m: Incoming, codec: Compression, now: int)
    requires Asking(e, s, q) && e.state.Connecting? && Tells(m.text, q, codec) && (codec == Zlib ==> s.zlib)
    ensures
      var (d, ok) := Receive(e, m, now);
      ok && (Gone(d) || (Tuned(d, s, codec, q) && d.state.Connected?))
  {
    hide Sound, OwnCreate, Gone, Tells, Parse, StringAt, IntAt, LookUp, Mbus, CreateAnswered, CallbackOf, RequestText, ResultOf, Completed;
    var payload, status := Told(m.text, q, codec);
    var json := ResultOf(q.sequence, payload, status);
    ResultFields(q.sequence, payload, status);
    OwnCreateIs(q, s);
    ResponseFits(e, 0, json);
    PendingLeaves(e, 0, Answered(json));
    assert Cut(e.pendings, 0) == [] == e.pendings[..0] + e.pendings[1..];
    assert FindPending(e.pendings, q.sequence) == Some(0);
    var d := Completed(e.(pendings := []), q, Answered(json));
    CompletedKeeps(e.(pendings := []), q, Answered(json));
    assert Receive(e, m, now) == (CreateAnswered(d, json), true);
    CreateAnsweredTuned(d, s, q, json, codec, payload, status);
  }

  lemma Told(text: string, q: Item, codec: Compression) returns (payload: Json, status: int)
    requires Tells(text, q, codec)
    ensures Parse(text) == Some(ResultOf(q.sequence, payload, status))
    ensures status == 0 ==> StringAt(Some(payload), "identifier").Some?
                            && StringAt(Some(payload), "compression") == Some(CompressionName(codec))
  {
    hide Parse, StringAt, ResultOf;
    payload, status :| TellsWith(text, q, codec, payload, status);
  }

  lemma CompletedKeeps(e: Engine, r: Item, how: How)
    ensures Completed(e, r, how) == e.(history := Completed(e, r, how).history)
  {
  }

  lemma CreateAnsweredTuned(d: Engine, s: Settings, q: Item, json: Json, codec: Compression, payload: Json, status: int)
    requires Waiting(d, s) && d.state.Connecting? && Load(d) == 0 && d.outgoing == [FirstFrame(q)]
    requires LookUp(Some(json), TAG_PAYLOAD) == Some(payload) && IntAt(Some(json), TAG_STATUS, -1) == status
    requires status == 0 ==> StringAt(Some(payload), "identifier").Some?
                             && StringAt(Some(payload), "compression") == Some(CompressionName(codec))
    requires codec == Zlib ==> s.zlib
    ensures var f := CreateAnswered(d, json); Gone(f) || (Tuned(f, s, codec, q) && f.state.Connected?)
  {
    hide Sound, Gone, StringAt, IntAt, LookUp, Mbus, CreateFailed, RequestText, Harmless;
    CreateGone(d, ServerError);
    CreateAnsweredSound(d, json);
    NamesRead(codec, s.zlib);
  }

  lemma NamesRead(codec: Compression, zlib: bool)
    requires codec == Zlib ==> zlib
    ensures CompressionNamed(CompressionName(codec), zlib) == codec
  {
    assert "zlib"[0] != "none"[0];
  }

  // ----- a client that is tuned -----

  lemma TunedBeforeDecode(e: Engine, s: Settings, codec: Compression, q: Item, p: Poll, now: int)
    requires Tuned(e, s, codec, q) && e.state.Connected?
    ensures
      var (d, h) := BeforeDecode(e, p, now);
      (Gone(d) && !h.Polls?) || d == e
  {
    hide Sound, Reset, FinishConnecting, Gone, Harmless, PlainItem;
    match p
    case Idle =>
    case PollError =>
    case Ready(closed, attempt, writeError, messages) =>
      if closed {
        HungUp(e, OnDisconnect(ConnectionClosed));
      }
  }

  lemma PlainCut(items: seq<Item>, k: nat)
    requires AllPlain(items) && k < |items|
    ensures AllPlain(Cut(items, k)) && !items[k].handler.CreateHandler?
  {
    hide PlainItem;
    CutCounts(items, k);
    assert PlainItem(items[k]);
    PlainIs(items[k]);
  }

  lemma PlainIs(r: Item)
    requires PlainItem(r)
    ensures !r.handler.CreateHandler?
  {
    hide ExactItem;
  }

  lemma TunedEnqueue(e: Engine, s: Settings, codec: Compression, q: Item, kind: string, destination: string, identifier: string,
                     payload: Option<Json>, handler: Handler, timeout: int, now: int)
    requires Tuned(e, s, codec, q) && kind in {TYPE_EVENT, TYPE_COMMAND} && e.state.Connected?
    requires NulFree(kind) && NulFree(destination) && NulFree(identifier) && IsInt32(timeout)
    requires payload.Some? ==> Exact(payload.value)
    requires !handler.CreateHandler? && (kind == TYPE_COMMAND ==> identifier != "command.create")
    ensures Tuned(Enqueue(e, kind, destination, identifier, payload, handler, timeout, now).0, s, codec, q)
  {
    hide Sound, Harmless, NulFree, Mbus;
    EnqueueSound(e, kind, destination, identifier, payload, handler, timeout, now);
  }

  // ----- messages for a tuned client -----

  /** What an application returns for a call survives being written as text. */
  ghost predicate ExactReply(reply: Option<Reply>) {
    reply.Some? ==> IsInt32(reply.value.status) && (reply.value.payload.Some? ==> Exact(reply.value.payload.value))
  }

  ghost predicate ExactIncoming(m: Incoming) {
    NulFree(m.text) && ExactReply(m.reply)
  }

  lemma ParsedTextExact(text: string)
    requires NulFree(text)
    ensures Parse(text).Some? ==> Exact(Parse(text).value)
  {
    hide NulFree, Exact;
    SkipNulFree(text);
    ParsedExact(Skip(text));
  }

  lemma ReplyExact(source: string, identifier: string, json: Json, reply: Reply)
    requires NulFree(source) && NulFree(identifier) && Exact(json) && ExactReply(Some(reply))
    ensures Exact(ReplyPayload(source, identifier, json, reply))
  {
    hide NulFree, Exact, Mbus, IntAt;
    TagsNulFree();
    LookUpExact(Some(json), TAG_SEQUENCE);
    StringsExact(source, identifier);
    NumbersExact(IntAt(Some(json), TAG_SEQUENCE, -1), reply.status);
    ExactObject(ReplyPayload(source, identifier, json, reply).members);
  }

  lemma EventPayloadExact(destination: string, event: string, payload: Option<Json>)
    requires NulFree(destination) && NulFree(event) && (payload.Some? ==> Exact(payload.value))
    ensures Exact(EventPayload(destination, event, payload))
  {
    hide NulFree, Exact, Mbus;
    TagsNulFree();
    StringsExact(destination, event);
    assert Exact(Object([])) by { ExactObject([]); }
    ExactObject(EventPayload(destination, event, payload).members);
  }

  lemma StringsExact(a: string, b: string)
    requires NulFree(a) && NulFree(b)
    ensures Exact(String(a)) && Exact(String(b))
  {
  }

  lemma NumbersExact(i: int, j: int)
    requires IsInt32(i) && IsInt32(j)
    ensures Exact(Number(i)) && Exact(Number(j))
  {
  }

  lemma TunedResult(e: Engine, s: Settings, codec: Compression, q: Item, json: Json)
    requires Tuned(e, s, codec, q) && e.state.Connected?
    ensures Tuned(HandleResult(e, json), s, codec, q) && HandleResult(e, json).state.Connected?
  {
    hide Sound, IntAt, FindPending, CallbackOf, CreateAnswered, Mbus, PlainItem, Completed, Harmless;
    var k := FindPending(e.pendings, IntAt(Some(json), TAG_SEQUENCE, -1));
    if k.Some? {
      ResponseFits(e, k.value, json);
      PendingLeaves(e, k.value, Answered(json));
      PlainCut(e.pendings, k.value);
      CompletedKeeps(e.(pendings := Cut(e.pendings, k.value)), e.pendings[k.value], Answered(json));
    }
  }

  lemma TunedPong(e: Engine, s: Settings, codec: Compression, q: Item, now: int)
    requires Tuned(e, s, codec, q)
    ensures Tuned(Ponged(e, now), s, codec, q)
  {
    hide Sound, PlainItem, Harmless;
    PongedSound(e, now);
  }

  lemma TunedCommand(e: Engine, s: Settings, codec: Compression, q: Item, json: Json, reply: Option<Reply>, now: int)
    requires Tuned(e, s, codec, q) && e.state.Connected? && Exact(json) && ExactReply(reply) && ExactSettings(s)
    ensures var d := HandleCommand(e, json, reply, now).0; Tuned(d, s, codec, q) && d.state.Connected?
  {
    hide Tuned, StringAt, Mbus, ReplyPayload, Exact, NulFree, Ponged, ExactReply, Enqueue;
    TunedPong(e, s, codec, q, now);
    PongedGoesOn(e, now);
    LookUpExact(Some(json), TAG_SOURCE);
    LookUpExact(Some(json), TAG_IDENTIFIER);
    var source, identifier := StringAt(Some(json), TAG_SOURCE), StringAt(Some(json), TAG_IDENTIFIER);
    if source.Some? && identifier.Some? && reply.Some? {
      ReplyExact(source.value, identifier.value, json, reply.value);
      NamesNulFree();
      CreateNulFree();
      TunedSettings(e, s, codec, q);
      var p := Some(ReplyPayload(source.value, identifier.value, json, reply.value));
      TunedEnqueue(e, s, codec, q, TYPE_COMMAND, SERVER, "command.result", p, UserHandler, s.commandTimeout, now);
      CommandGoesOn(e, UserHandler, SERVER, "command.result", p, 0, now);
    }
  }

  lemma TunedSettings(e: Engine, s: Settings, codec: Compression, q: Item)
    requires Tuned(e, s, codec, q)
    ensures e.settings == s && e.socket && e.compression == codec && Sound(e)
  {
    hide Sound, PlainItem, Harmless;
  }

  lemma TunedReceive(e: Engine, s: Settings, codec: Compression, q: Item, m: Incoming, now: int)
    requires Tuned(e, s, codec, q) && e.state.Connected? && ExactIncoming(m) && ExactSettings(s)
    ensures var d := Receive(e, m, now).0; Tuned(d, s, codec, q) && d.state.Connected?
  {
    hide Tuned, StringAt, Mbus, Parse, Exact, NulFree, Ponged, ExactReply, HandleResult, HandleCommand, ExactSettings;
    ParsedTextExact(m.text);
    var json := Parse(m.text);
    if json.Some? {
      TunedResult(e, s, codec, q, json.value);
      TunedPong(e, s, codec, q, now);
      PongedGoesOn(e, now);
      TunedCommand(e, s, codec, q, json.value, m.reply, now);
    }
  }

  /** Each message the decode loop takes is decoded with the compression its frame was written with. */
  ghost predicate ReadsWell(e: Engine, frames: seq<Frame>, messages: seq<Incoming>, now: int)
    requires |messages| <= |frames|
    decreases |messages|
  {
    messages == [] || !e.socket ||
    (frames[0].compression == e.compression
     && var (d, ok) := Receive(e, messages[0], now); ok ==> ReadsWell(d, frames[1..], messages[1..], now))
  }

  ghost predicate ExactMessages(messages: seq<Incoming>) {
    forall i | 0 <= i < |messages| :: ExactIncoming(messages[i])
  }

  ghost predicate AllWith(frames: seq<Frame>, codec: Compression) {
    forall k | 0 <= k < |frames| :: frames[k].compression == codec
  }

  lemma {:induction false} TunedReceiveAll(e: Engine, s: Settings, codec: Compression, q: Item, frames: seq<Frame>,
                                           messages: seq<Incoming>, now: int)
    requires Tuned(e, s, codec, q) && e.state.Connected? && ExactMessages(messages) && ExactSettings(s)
    requires |messages| <= |frames| && AllWith(frames, codec)
    ensures ReadsWell(e, frames, messages, now)
    ensures var d := ReceiveAll(e, messages, now).0; Tuned(d, s, codec, q) && d.state.Connected?
    decreases |messages|
  {
    hide Tuned, ExactIncoming, Receive, ExactSettings;
    TunedSettings(e, s, codec, q);
    if messages != [] {
      TunedReceive(e, s, codec, q, messages[0], now);
      var (d, ok) := Receive(e, messages[0], now);
      if ok {
        TunedReceiveAll(d, s, codec, q, frames[1..], messages[1..], now);
      }
    }
  }

  // ----- the end of a run for a tuned client -----

  lemma PingedSound(e: Engine, now: int)
    requires Sound(e) && e.state.Connected? && !e.ping.waiting && now > e.ping.sent + e.ping.interval
    ensures Sound(e.(ping := Pinged(e.ping, now)))
  {
    hide Accounted, Rising;
    SameAccount(e, e.(ping := Pinged(e.ping, now)));
  }

  lemma TunedSendPing(e: Engine, s: Settings, codec: Compression, q: Item, now: int)
    requires Tuned(e, s, codec, q) && e.state.Connected? && ExactSettings(s)
    requires !e.ping.waiting && now > e.ping.sent + e.ping.interval
    ensures Tuned(SendPing(e, now).0, s, codec, q)
  {
    hide Sound, PlainItem, Harmless, Mbus, Enqueue, NulFree, Exact;
    PingedSound(e, now);
    var d := e.(ping := Pinged(e.ping, now));
    NamesNulFree();
    NamesDiffer();
    TunedEnqueue(d, s, codec, q, TYPE_EVENT, SERVER, PING, None, UserHandler, s.publishTimeout, now);
  }

  lemma TunedPing(e: Engine, s: Settings, codec: Compression, q: Item, now: int)
    requires Tuned(e, s, codec, q) && e.state.Connected? && ExactSettings(s)
    ensures var d := CheckPing(e, now).0; Gone(d) || Tuned(d, s, codec, q)
  {
    hide Tuned, SendPing, MissPong, Reset, Sound, ExactSettings, Fallow;
    TunedSettings(e, s, codec, q);
    CheckPingSound(e, now);
    if e.ping.interval > 0 {
      var send := !e.ping.waiting && now > e.ping.sent + e.ping.interval;
      if send {
        TunedSendPing(e, s, codec, q, now);
      }
      var (d, ok) := if send then SendPing(e, now) else (e, true);
      if ok {
        TunedSettings(d, s, codec, q);
        var f := d.(ping := MissPong(d.ping, now));
        if f.ping.missed > f.ping.threshold {
          ReportSound(d, f, now);
        } else {
          TunedRenewed(d, f, s, codec, q);
        }
      }
    }
  }

  lemma TunedRenewed(d: Engine, f: Engine, s: Settings, codec: Compression, q: Item)
    requires Tuned(d, s, codec, q) && Sound(f) && f == d.(ping := f.ping)
    ensures Tuned(f, s, codec, q)
  {
    hide Sound, PlainItem, Harmless;
  }

  lemma TunedTimeOut(e: Engine, s: Settings, codec: Compression, q: Item, k: nat, now: int)
    requires Tuned(e, s, codec, q)
    ensures k < |e.requests| && Expired(e.requests[k], now) ==>
      !e.requests[k].handler.CreateHandler? && Tuned(TimeOut(e.(requests := Cut(e.requests, k)), e.requests[k], now), s, codec, q)
    ensures k < |e.pendings| && Expired(e.pendings[k], now) ==>
      !e.pendings[k].handler.CreateHandler? && Tuned(TimeOut(e.(pendings := Cut(e.pendings, k)), e.pendings[k], now), s, codec, q)
  {
    hide Sound, PlainItem, Harmless, Completed, CallbackOf, Cut;
    if k < |e.requests| && Expired(e.requests[k], now) {
      RequestLeaves(e, k, TimedOut(now));
      PlainCut(e.requests, k);
      CompletedKeeps(e.(requests := Cut(e.requests, k)), e.requests[k], TimedOut(now));
    }
    if k < |e.pendings| && Expired(e.pendings[k], now) {
      PendingLeaves(e, k, TimedOut(now));
      PlainCut(e.pendings, k);
      CompletedKeeps(e.(pendings := Cut(e.pendings, k)), e.pendings[k], TimedOut(now));
    }
  }

  lemma {:induction false} TunedSweepRequests(e: Engine, s: Settings, codec: Compression, q: Item, k: nat, now: int)
    requires Tuned(e, s, codec, q)
    ensures Tuned(SweepRequests(e, k, now), s, codec, q)
    decreases |e.requests| - k
  {
    hide Tuned, TimeOut, Expired, Completed;
    if k < |e.requests| {
      if !Expired(e.requests[k], now) {
        TunedSweepRequests(e, s, codec, q, k + 1, now);
      } else {
        TunedTimeOut(e, s, codec, q, k, now);
        var d := TimeOut(e.(requests := Cut(e.requests, k)), e.requests[k], now);
        TimedOutQueues(e.(requests := Cut(e.requests, k)), e.requests[k], now);
        TunedSweepRequests(d, s, codec, q, k, now);
      }
    }
  }

  lemma TimedOutQueues(e: Engine, r: Item, now: int)
    requires !r.handler.CreateHandler?
    ensures TimeOut(e, r, now).requests == e.requests && TimeOut(e, r, now).pendings == e.pendings
  {
    hide CallbackOf;
  }

  lemma {:induction false} TunedSweepPendings(e: Engine, s: Settings, codec: Compression, q: Item, k: nat, now: int)
    requires Tuned(e, s, codec, q)
    ensures Tuned(SweepPendings(e, k, now), s, codec, q)
    decreases |e.pendings| - k
  {
    hide Tuned, TimeOut, Expired, Completed;
    if k < |e.pendings| {
      if !Expired(e.pendings[k], now) {
        TunedSweepPendings(e, s, codec, q, k + 1, now);
      } else {
        TunedTimeOut(e, s, codec, q, k, now);
        var d := TimeOut(e.(pendings := Cut(e.pendings, k)), e.pendings[k], now);
        TimedOutQueues(e.(pendings := Cut(e.pendings, k)), e.pendings[k], now);
        TunedSweepPendings(d, s, codec, q, k, now);
      }
    }
  }

  lemma TunedFlushOne(e: Engine, s: Settings, codec: Compression, q: Item)
    requires Tuned(e, s, codec, q) && e.requests != []
    ensures Tuned(FlushOne(e), s, codec, q) && |FlushOne(e).requests| == |e.requests| - 1
  {
    hide Sound, PlainItem, Harmless, CallbackOf, RequestText, Mbus;
    FlushOneSound(e);
    assert PlainItem(e.requests[0]);
    WrittenMore(e.outgoing, codec, q, e.requests[0]);
  }

  lemma {:induction false} TunedFlush(e: Engine, s: Settings, codec: Compression, q: Item)
    requires Tuned(e, s, codec, q)
    ensures Tuned(Flush(e), s, codec, q)
    decreases |e.requests|
  {
    hide Tuned, FlushOne;
    if e.requests != [] {
      TunedFlushOne(e, s, codec, q);
      TunedFlush(FlushOne(e), s, codec, q);
    }
  }

  lemma TunedFinish(e: Engine, s: Settings, codec: Compression, q: Item, now: int)
    requires Tuned(e, s, codec, q) && e.state.Connected? && ExactSettings(s)
    ensures var d := Finish(e, now).0; Gone(d) || Tuned(d, s, codec, q)
  {
    hide Tuned, Gone, CheckPing, SweepRequests, SweepPendings, Flush, ExactSettings;
    assert CheckConnecting(e, now) == e;
    TunedPing(e, s, codec, q, now);
    var (d, ok) := CheckPing(e, now);
    if Gone(d) {
      GoneRests(d, now);
    } else {
      TunedSweepRequests(d, s, codec, q, 0, now);
      var f := SweepRequests(d, 0, now);
      TunedSweepPendings(f, s, codec, q, 0, now);
      TunedFlush(SweepPendings(f, 0, now), s, codec, q);
    }
  }
}

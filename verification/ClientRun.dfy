/** Whole lives of a client: every operation keeps the invariant, and what it promises. */
module ClientRun {
  import opened Options
  import opened JsonText
  import opened JsonPath
  import opened Methods
  import opened ClientState
  import opened ClientInvariant

  // ----- messages -----

  lemma CreateAnsweredSound(e: Engine, json: Json)
    requires Sound(e) && Load(e) == 0 && e.state.Connecting?
    ensures Sound(CreateAnswered(e, json))
  {
    hide Sound, StringAt, IntAt, LookUp, Mbus, CreateFailed, Fallow;
    CreateFailedSound(e, ServerError);
    var d := CreateAnswered(e, json);
    if d != CreateFailed(e, ServerError) {
      AnsweredSound(e, d);
    }
  }

  /** The client is connected: only what the broker told it is new. */
  lemma AnsweredSound(e: Engine, d: Engine)
    requires Sound(e) && Load(e) == 0 && e.state.Connecting? && d.state.Connected?
    requires d == e.(identifier := d.identifier, compression := d.compression, ping := d.ping, state := d.state, history := d.history)
    requires d.history == e.history.(signals := d.history.signals)
    requires d.ping == e.ping.(interval := d.ping.interval, timeout := d.ping.timeout, threshold := d.ping.threshold)
    ensures Sound(d)
  {
    hide Accounted;
    SameAccount(e, d);
  }

  lemma HandleResultSound(e: Engine, json: Json)
    requires Sound(e) && !e.state.Disconnecting?
    ensures Sound(HandleResult(e, json))
  {
    hide Sound, IntAt, FindPending, CallbackOf, CreateAnswered, Mbus;
    var k := FindPending(e.pendings, IntAt(Some(json), TAG_SEQUENCE, -1));
    if k.Some? {
      ResponseFits(e, k.value, json);
      PendingLeaves(e, k.value, Answered(json));
      if e.pendings[k.value].handler.CreateHandler? {
        CreateWhileConnecting(e, k.value);
        CreateAnsweredSound(Completed(e.(pendings := Cut(e.pendings, k.value)), e.pendings[k.value], Answered(json)), json);
      }
    }
  }

  lemma CreateWhileConnecting(e: Engine, k: nat)
    requires Sound(e) && !e.state.Disconnecting? && k < |e.pendings| && e.pendings[k].handler.CreateHandler?
    ensures e.state.Connecting?
  {
  }

  lemma PongedSound(e: Engine, now: int)
    requires Sound(e)
    ensures Sound(Ponged(e, now))
  {
    hide Accounted, Rising;
    SameAccount(e, Ponged(e, now));
  }

  lemma ReceiveSound(e: Engine, m: Incoming, now: int)
    requires Sound(e) && !e.state.Disconnecting?
    ensures Sound(Receive(e, m, now).0) && !Receive(e, m, now).0.state.Disconnecting?
  {
    hide Sound, Parse, StringAt, Mbus, HandleResult, Ponged, Command, ReplyPayload;
    var json := Parse(m.text);
    var kind := StringAt(json, TAG_TYPE);
    if json.Some? && kind.Some? {
      HandleResultSound(e, json.value);
      HandleResultGoesOn(e, json.value);
      PongedSound(e, now);
      PongedGoesOn(e, now);
      var source, identifier := StringAt(Some(json.value), TAG_SOURCE), StringAt(Some(json.value), TAG_IDENTIFIER);
      if m.reply.Some? && source.Some? && identifier.Some? {
        var p := Some(ReplyPayload(source.value, identifier.value, json.value, m.reply.value));
        CommandSound(e, UserHandler, SERVER, "command.result", p, 0, now);
        CommandGoesOn(e, UserHandler, SERVER, "command.result", p, 0, now);
      }
    }
  }

  lemma PongedGoesOn(e: Engine, now: int)
    ensures Ponged(e, now).state == e.state
  {
  }

  lemma CommandGoesOn(e: Engine, handler: Handler, destination: string, command: string, payload: Option<Json>,
                      timeout: int, now: int)
    ensures Command(e, handler, destination, command, payload, timeout, now).0.state == e.state
  {
    hide Mbus;
  }

  lemma HandleResultGoesOn(e: Engine, json: Json)
    requires !e.state.Disconnecting?
    ensures !HandleResult(e, json).state.Disconnecting?
  {
    hide IntAt, FindPending, CallbackOf, Mbus, StringAt, LookUp, Reset;
  }

  lemma {:induction false} ReceiveAllSound(e: Engine, messages: seq<Incoming>, now: int)
    requires Sound(e) && !e.state.Disconnecting?
    ensures Sound(ReceiveAll(e, messages, now).0)
    decreases |messages|
  {
    hide Sound, Receive;
    if messages != [] && e.socket {
      ReceiveSound(e, messages[0], now);
      ReceiveAllSound(Receive(e, messages[0], now).0, messages[1..], now);
    }
  }

  // ----- the end of a run -----

  lemma GiveUpSound(e: Engine, status: ConnectStatus, after: DisconnectStatus)
    requires Sound(e)
    ensures Sound(GiveUp(e, status, after)) && Fallow(GiveUp(e, status, after))
  {
    hide Sound, Fallow, Reset;
    SignaledSound(e, OnConnect(status));
    ResetSound(Signaled(e, OnConnect(status)), GiveUp(e, status, after));
  }

  /** The record of a ping that was just sent. */
  function Pinged(p: Ping, now: int): Ping {
    p.(sent := now, received := 0, waiting := true, pings := p.pings + [now])
  }

  lemma SendPingSound(e: Engine, now: int)
    requires Sound(e) && e.state.Connected? && !e.ping.waiting && now > e.ping.sent + e.ping.interval
    ensures Sound(SendPing(e, now).0) && SendPing(e, now).0.ping == Pinged(e.ping, now)
    ensures SendPing(e, now).0.state == e.state && SendPing(e, now).0.settings == e.settings
  {
    hide Accounted, Rising, Publish, Mbus;
    var d := e.(ping := Pinged(e.ping, now));
    SameAccount(e, d);
    PublishSound(d, Some(SERVER), PING, None, AtMostOnce, 0, now);
    PublishGoesOn(d, Some(SERVER), PING, None, AtMostOnce, 0, now);
  }

  lemma PublishGoesOn(e: Engine, destination: Option<string>, event: string, payload: Option<Json>, qos: Qos,
                      timeout: int, now: int)
    ensures var d := Publish(e, destination, event, payload, qos, timeout, now).0;
      d.state == e.state && d.ping == e.ping && d.settings == e.settings
  {
    hide Mbus;
  }

  lemma MissPongOk(p: Ping, now: int)
    requires PingsOk(p)
    ensures PingsOk(MissPong(p, now)) && MissPong(p, now).pings == p.pings
    ensures MissPong(p, now).missed <= p.missed + 1
    ensures MissPong(p, now).threshold == p.threshold && MissPong(p, now).interval == p.interval
  {
  }

  /** The ping record in the ping section, before it is compared with the threshold. */
  function CheckedPing(e: Engine, now: int): Ping {
    MissPong(if !e.ping.waiting && now > e.ping.sent + e.ping.interval then Pinged(e.ping, now) else e.ping, now)
  }

  lemma CheckPingSound(e: Engine, now: int)
    requires Sound(e)
    ensures Sound(CheckPing(e, now).0)
  {
    hide Sound, SendPing, MissPong, Reset;
    if e.state.Connected? && e.ping.interval > 0 {
      var send := !e.ping.waiting && now > e.ping.sent + e.ping.interval;
      if send {
        SendPingSound(e, now);
      }
      var (d, ok) := if send then SendPing(e, now) else (e, true);
      if ok {
        var f := d.(ping := MissPong(d.ping, now));
        SoundPings(d);
        MissPongOk(d.ping, now);
        if f.ping.missed > f.ping.threshold {
          MissedOnce(d, now);
          ReportSound(d, f, now);
        } else {
          PingChangedSound(d, f);
        }
      }
    }
  }

  lemma SoundPings(e: Engine)
    requires Sound(e)
    ensures PingsOk(e.ping)
  {
  }

  lemma PingChangedSound(d: Engine, f: Engine)
    requires Sound(d) && d.state.Connected? && f == d.(ping := f.ping) && PingsOk(f.ping)
    requires f.ping.missed <= f.ping.threshold || f.ping.missed == 0
    ensures Sound(f)
  {
    hide Accounted, Rising, PingsOk;
    SameAccount(d, f);
  }

  lemma MissedOnce(d: Engine, now: int)
    requires Sound(d) && d.state.Connected? && d.ping.interval > 0
    requires MissPong(d.ping, now).missed > MissPong(d.ping, now).threshold
    ensures MissPong(d.ping, now).missed == d.ping.missed + 1 || MissPong(d.ping, now).missed == 0
  {
  }

  /** The client gives up on a broker that answers no pings. */
  lemma ReportSound(d: Engine, f: Engine, now: int)
    requires Sound(d) && f == d.(ping := f.ping)
    ensures
      var r := Reset(Signaled(f, OnDisconnect(PingTimeout))).(state := Retrying(f.settings));
      Sound(r) && Fallow(r)
  {
    hide Accounted, Rising, PingsOk, Reset;
    var s := Signaled(f, OnDisconnect(PingTimeout));
    SameAccount(d, s);
    ResetResets(s);
    var r := Reset(s).(state := Retrying(f.settings));
    SameAccount(Reset(s), r);
    FallowSound(r);
  }

  lemma TimedOutRequest(e: Engine, k: nat, now: int)
    requires Sound(e) && k < |e.requests| && Expired(e.requests[k], now)
    ensures
      var r, rest := e.requests[k], Cut(e.requests, k);
      var d := TimeOut(e.(requests := rest), r, now);
      && Sound(d) && (r.handler.CreateHandler? ==> |rest| == 0 && Fallow(d))
      && (!r.handler.CreateHandler? ==> d.requests == rest && d.pendings == e.pendings && d.state == e.state)
  {
    hide Sound, CallbackOf, CreateFailed, Fallow;
    RequestLeaves(e, k, TimedOut(now));
    CutLength(e.requests, k);
    var d := Completed(e.(requests := Cut(e.requests, k)), e.requests[k], TimedOut(now));
    CreateFailedSound(d, ConnectTimeout);
  }

  lemma TimedOutPending(e: Engine, k: nat, now: int)
    requires Sound(e) && k < |e.pendings| && Expired(e.pendings[k], now)
    ensures
      var r, rest := e.pendings[k], Cut(e.pendings, k);
      var d := TimeOut(e.(pendings := rest), r, now);
      && Sound(d) && (r.handler.CreateHandler? ==> |rest| == 0 && Fallow(d))
      && (!r.handler.CreateHandler? ==> d.pendings == rest && d.requests == e.requests && d.state == e.state)
  {
    hide Sound, CallbackOf, CreateFailed, Fallow;
    PendingLeaves(e, k, TimedOut(now));
    CutLength(e.pendings, k);
    var d := Completed(e.(pendings := Cut(e.pendings, k)), e.pendings[k], TimedOut(now));
    CreateFailedSound(d, ConnectTimeout);
  }

  /** No request up to position k is past its deadline. */
  ghost predicate Fresh(items: seq<Item>, k: nat, now: int) {
    forall i | 0 <= i < |items| && i < k :: !Expired(items[i], now)
  }

  lemma {:induction false} SweepRequestsSound(e: Engine, k: nat, now: int)
    requires Sound(e) && Fresh(e.requests, k, now)
    ensures
      var d := SweepRequests(e, k, now);
      Sound(d) && Fresh(d.requests, |d.requests|, now) && (d.pendings == e.pendings || Fallow(d))
    decreases |e.requests| - k
  {
    hide Sound, TimeOut, Fallow, Expired;
    if k < |e.requests| {
      if !Expired(e.requests[k], now) {
        SweepRequestsSound(e, k + 1, now);
      } else {
        TimedOutRequest(e, k, now);
        var d := TimeOut(e.(requests := Cut(e.requests, k)), e.requests[k], now);
        if e.requests[k].handler.CreateHandler? {
          FallowQueues(d);
        } else {
          SweepRequestsSound(d, k, now);
        }
      }
    }
  }

  lemma FallowQueues(e: Engine)
    requires Fallow(e)
    ensures e.requests == [] && e.pendings == []
  {
  }

  lemma {:induction false} SweepPendingsSound(e: Engine, k: nat, now: int)
    requires Sound(e) && Fresh(e.pendings, k, now)
    ensures
      var d := SweepPendings(e, k, now);
      Sound(d) && Fresh(d.pendings, |d.pendings|, now) && (d.requests == e.requests || d.requests == [])
    decreases |e.pendings| - k
  {
    hide Sound, TimeOut, Fallow, Expired;
    if k < |e.pendings| {
      if !Expired(e.pendings[k], now) {
        SweepPendingsSound(e, k + 1, now);
      } else {
        TimedOutPending(e, k, now);
        var d := TimeOut(e.(pendings := Cut(e.pendings, k)), e.pendings[k], now);
        if e.pendings[k].handler.CreateHandler? {
          FallowQueues(d);
        } else {
          SweepPendingsSound(d, k, now);
        }
      }
    }
  }

  lemma FlushOneSound(e: Engine)
    requires Sound(e) && e.requests != []
    ensures Sound(FlushOne(e))
    ensures FlushOne(e).requests == e.requests[1..]
    ensures FlushOne(e).pendings == e.pendings || FlushOne(e).pendings == e.pendings + [e.requests[0]]
  {
    hide Sound, CallbackOf, RequestText, Mbus;
    var r, d := e.requests[0], FlushOne(e);
    CutHead(e.requests);
    if r.kind == TYPE_EVENT {
      RequestLeaves(e, 0, Sent);
      var c := Completed(e.(requests := Cut(e.requests, 0)), r, Sent);
      OutgoingSound(c, d);
    } else {
      MovedSound(e, d);
    }
  }

  lemma OutgoingSound(e: Engine, d: Engine)
    requires Sound(e) && d == e.(outgoing := d.outgoing)
    ensures Sound(d)
  {
    hide Accounted, Rising, PingsOk;
    SameAccount(e, d);
  }

  lemma MovedSound(e: Engine, d: Engine)
    requires Sound(e) && e.requests != [] && e.requests[0].kind != TYPE_EVENT
    requires d == e.(requests := e.requests[1..], pendings := e.pendings + [e.requests[0]], outgoing := d.outgoing)
    ensures Sound(d)
  {
    hide Rising, PingsOk, HistoryOk, ItemsOf, Mbus;
    var r := e.requests[0];
    assert e.requests == [r] + e.requests[1..];
    assert d.pendings + d.requests == e.pendings + e.requests;
    CreatesJoined(e);
    CreatesJoined(d);
    assert Accounted(d) by {
      MovedCounts(multiset(d.requests), multiset(e.pendings), multiset(ItemsOf(e.history.completed)), r);
      assert WellFormed(e.requests[0]);
    }
  }

  lemma MovedCounts(a: multiset<Item>, b: multiset<Item>, c: multiset<Item>, r: Item)
    ensures multiset{r} + a + b + c == a + (b + multiset{r}) + c
  {
  }

  lemma {:induction false} FlushSound(e: Engine, now: int)
    requires Sound(e)
    ensures Sound(Flush(e)) && Flush(e).requests == []
    ensures Fresh(e.requests, |e.requests|, now) && Fresh(e.pendings, |e.pendings|, now) ==>
      Fresh(Flush(e).pendings, |Flush(e).pendings|, now)
    decreases |e.requests|
  {
    hide Sound, FlushOne, Expired;
    if e.requests != [] {
      FlushOneSound(e);
      FlushSound(FlushOne(e), now);
    }
  }

  lemma CheckConnectingSound(e: Engine, now: int)
    requires Sound(e)
    ensures Sound(CheckConnecting(e, now))
  {
    hide Sound, GiveUp;
    GiveUpSound(e, ConnectTimeout, DisconnectInternalError);
  }

  /** The end of a run keeps the invariant; if it succeeds, everything was written, and nothing that is
      pending is past its deadline. */
  lemma FinishSound(e: Engine, now: int)
    requires Sound(e)
    ensures
      var (d, ok) := Finish(e, now);
      Sound(d) && (ok ==> d.requests == [] && Fresh(d.pendings, |d.pendings|, now))
  {
    hide Sound, CheckPing, CheckConnecting, SweepRequests, SweepPendings, Flush, Expired, Fallow;
    CheckConnectingSound(e, now);
    CheckPingSound(CheckConnecting(e, now), now);
    var (d, ok) := CheckPing(CheckConnecting(e, now), now);
    if ok {
      SoundAccount(d);
      SweepRequestsSound(d, 0, now);
      var f := SweepRequests(d, 0, now);
      SoundAccount(f);
      SweepPendingsSound(f, 0, now);
      var g := SweepPendings(f, 0, now);
      SoundAccount(g);
      FlushSound(g, now);
    }
  }

  // ----- connecting -----

  lemma SocketSound(e: Engine, d: Engine)
    requires Sound(e) && Load(e) == 0 && d == e.(socket := d.socket, socketConnected := d.socketConnected, connectAt := d.connectAt)
    ensures Sound(d) && Load(d) == 0
  {
    hide Accounted, Rising, PingsOk;
    SameAccount(e, d);
  }

  lemma ResetKeepsState(e: Engine)
    requires Sound(e) && Load(e) == 0
    ensures Sound(Reset(e)) && Load(Reset(e)) == 0 && Reset(e).state == e.state
  {
    hide Accounted, Reset;
    ResetResets(e);
    FallowSound(Reset(e));
  }

  lemma IdleWithoutSocket(e: Engine)
    requires Sound(e) && e.state.Connecting? && !(e.socket && e.socketConnected)
    ensures Load(e) == 0
  {
  }

  lemma RunConnectSound(e: Engine, attempt: Attempt, now: int)
    requires Sound(e) && e.state.Connecting? && Load(e) == 0
    ensures Sound(RunConnect(e, attempt, now).0) && !RunConnect(e, attempt, now).0.state.Disconnecting?
  {
    hide Sound, Reset, RequestCreate, GiveUp, Load;
    var d := Reset(e);
    ResetKeepsState(e);
    SignalReset(d, OnConnect(InvalidProtocol));
    SignalReset(d, OnConnect(ConnectInternalError));
    var plugged := d.(socket := true);
    SocketSound(d, plugged);
    GiveUpSound(plugged, ConnectionRefused, DisconnectCanceled);
    GiveUpSound(plugged, ServerUnavailable, DisconnectCanceled);
    GiveUpGoesOn(plugged, ConnectionRefused, DisconnectCanceled);
    GiveUpGoesOn(plugged, ServerUnavailable, DisconnectCanceled);
    var ready := d.(socket := true, socketConnected := true);
    SocketSound(d, ready);
    RequestCreateSound(ready, now);
    RequestCreateGoesOn(ready, now);
    if !RequestCreate(ready, now).1 {
      SignalReset(ready, OnConnect(ConnectInternalError));
    }
  }

  lemma SignalReset(e: Engine, x: Signal)
    requires Sound(e) && Load(e) == 0
    ensures Sound(Reset(Signaled(e, x))) && Reset(Signaled(e, x)).state == e.state
  {
    hide Sound, Reset;
    SignaledSound(e, x);
    ResetKeepsState(Signaled(e, x));
  }

  lemma GiveUpGoesOn(e: Engine, status: ConnectStatus, after: DisconnectStatus)
    ensures GiveUp(e, status, after).state in {Connecting, Disconnected}
  {
    hide Reset;
  }

  lemma RequestCreateGoesOn(e: Engine, now: int)
    ensures RequestCreate(e, now).0.state == e.state
  {
    hide CreateData, Mbus;
  }

  lemma BeginSound(e: Engine, attempt: Attempt, now: int)
    requires Sound(e)
    ensures var (d, h) := Begin(e, attempt, now); Sound(d) && (h.Polls? ==> !d.state.Disconnecting?)
  {
    hide Sound, Reset, RunConnect, Load;
    match e.state
    case Connecting =>
      if !e.socket {
        IdleWithoutSocket(e);
        SocketSound(e, e.(connectAt := now));
        RunConnectSound(e.(connectAt := now), attempt, now);
      }
    case Connected =>
    case Disconnecting => ResetSound(e, Signaled(Reset(e).(state := Disconnected), OnDisconnect(Requested)));
    case Disconnected => RetrySound(e);
  }

  lemma RetrySound(e: Engine)
    requires Sound(e) && e.state.Disconnected?
    ensures Sound(e.(state := Connecting))
  {
    hide Accounted, Rising, PingsOk;
    SameAccount(e, e.(state := Connecting));
  }

  lemma FinishConnectingSound(e: Engine, attempt: Attempt, now: int)
    requires Sound(e) && e.state.Connecting? && e.socket && !e.socketConnected
    ensures Sound(FinishConnecting(e, attempt, now).0) && !FinishConnecting(e, attempt, now).0.state.Disconnecting?
  {
    hide Sound, RequestCreate, GiveUp, Load;
    IdleWithoutSocket(e);
    var ready := e.(socketConnected := true);
    SocketSound(e, ready);
    RequestCreateSound(ready, now);
    RequestCreateGoesOn(ready, now);
    GiveUpSound(e, ConnectionRefused, DisconnectCanceled);
    GiveUpGoesOn(e, ConnectionRefused, DisconnectCanceled);
    SignaledSound(e, OnConnect(ConnectInternalError));
  }

  lemma BeforeDecodeSound(e: Engine, p: Poll, now: int)
    requires Sound(e) && !e.state.Disconnecting?
    ensures var (d, h) := BeforeDecode(e, p, now); Sound(d) && !d.state.Disconnecting?
  {
    hide Sound, Reset, FinishConnecting;
    match p
    case Idle =>
    case PollError =>
    case Ready(closed, attempt, writeError, messages) =>
      ResetSound(e, Signaled(Reset(e).(state := Disconnected), OnDisconnect(ConnectionClosed)));
      if e.socket && !closed && e.state.Connecting? && !e.socketConnected && attempt.Some? {
        FinishConnectingSound(e, attempt.value, now);
      }
  }

  lemma ServeSound(e: Engine, p: Poll, now: int)
    requires Sound(e) && !e.state.Disconnecting?
    ensures Sound(Serve(e, p, now).0)
  {
    hide Sound, BeforeDecode, ReceiveAll;
    BeforeDecodeSound(e, p, now);
    ReceiveAllSound(BeforeDecode(e, p, now).0, Messages(p), now);
  }

  lemma RunSound(e: Engine, input: Input)
    requires Sound(e)
    ensures
      var (d, ok) := Run(e, input);
      Sound(d) && (ok ==> d.requests == [] && Fresh(d.pendings, |d.pendings|, input.now))
  {
    hide Sound, Begin, Serve, Finish, Expired;
    BeginSound(e, input.attempt, input.now);
    var (a, h) := Begin(e, input.attempt, input.now);
    SoundAccount(a);
    if !h.Fails? {
      if h.Polls? {
        ServeSound(a, input.poll, input.now);
      }
      var (b, i) := if h == Skips then (a, Skips) else Serve(a, input.poll, input.now);
      SoundAccount(b);
      if !i.Fails? {
        FinishSound(b, input.now);
      }
    }
  }

  // ----- lives -----

  /** What is asked of the application: not to connect between disconnect and the next run, and to
      leave the create command to the client. */
  ghost predicate Allowed(e: Engine, o: Operation) {
    match o
    case Connect => !e.state.Disconnecting?
    case Issue(handler, destination, command, payload, timeout, now) => !handler.CreateHandler? && command != "command.create"
    case _ => true
  }

  ghost predicate AllAllowed(e: Engine, operations: seq<Operation>) {
    operations == [] ||
    (AllAllowed(e, operations[..|operations| - 1])
     && Allowed(ApplyAll(e, operations[..|operations| - 1]), operations[|operations| - 1]))
  }

  lemma StateSound(e: Engine, d: Engine)
    requires Sound(e) && d == e.(state := d.state)
    requires (e.state.Disconnected? && d.state.Connecting?) || d.state.Disconnecting?
    ensures Sound(d)
  {
    hide Accounted, Rising, PingsOk;
    SameAccount(e, d);
  }

  lemma ApplySound(e: Engine, o: Operation)
    requires Sound(e) && Allowed(e, o)
    ensures Sound(Apply(e, o))
  {
    hide Sound, Command, Publish, Run;
    match o
    case Connect =>
      if e.state.Disconnected? { StateSound(e, e.(state := Connecting)); }
    case Disconnect =>
      if !e.state.Disconnected? { StateSound(e, e.(state := Disconnecting)); }
    case Issue(handler, destination, command, payload, timeout, now) =>
      CommandSound(e, handler, destination, command, payload, timeout, now);
    case Emit(to, event, data, qos, limit, at) =>
      PublishSound(e, to, event, data, qos, limit, at);
    case Turn(input) =>
      RunSound(e, input);
  }

  lemma {:induction false} LifeSound(settings: Settings, operations: seq<Operation>)
    requires AllAllowed(ClientState.Start(settings), operations)
    ensures Sound(ApplyAll(ClientState.Start(settings), operations))
    decreases |operations|
  {
    hide Sound, Apply, Allowed;
    if operations == [] {
      StartSound(settings);
    } else {
      LifeSound(settings, operations[..|operations| - 1]);
      ApplySound(ApplyAll(ClientState.Start(settings), operations[..|operations| - 1]), operations[|operations| - 1]);
    }
  }

  // ----- exactly one completion -----

  lemma {:induction false} SerialsApart(accepted: seq<Item>, n: nat)
    requires n <= |accepted| && forall i | 0 <= i < |accepted| :: accepted[i].serial == i
    ensures forall r :: multiset(accepted[..n])[r] == if r.serial < n && accepted[r.serial] == r then 1 else 0
  {
    if n > 0 {
      SerialsApart(accepted, n - 1);
      assert accepted[..n] == accepted[..n - 1] + [accepted[n - 1]];
    }
  }

  /** However the application and the network behave: every request the client accepted is queued,
      pending or completed, in exactly one of these places and exactly once. It is completed as an event
      that was written, by a response with its sequence number, by a sweep past its deadline, or by a
      reset. */
  lemma ExactlyOnce(settings: Settings, operations: seq<Operation>, r: Item)
    requires AllAllowed(ClientState.Start(settings), operations)
    ensures
      var e := ApplyAll(ClientState.Start(settings), operations);
      && !e.broken
      && multiset(e.requests)[r] + multiset(e.pendings)[r] + multiset(ItemsOf(e.history.completed))[r]
         == (if r in e.history.accepted then 1 else 0)
      && forall i | 0 <= i < |e.history.completed| :: Fits(e.history.completed[i].item, e.history.completed[i].how)
  {
    hide ApplyAll, AllAllowed, Drawn, Lonely, Beating, ItemsOf, CallbacksOf, Fits, WellFormed;
    LifeSound(settings, operations);
    var e := ApplyAll(ClientState.Start(settings), operations);
    var accepted := e.history.accepted;
    SerialsApart(accepted, |accepted|);
    assert accepted[..|accepted|] == accepted;
    assert multiset(accepted)[r] == multiset(e.requests)[r] + multiset(e.pendings)[r] + multiset(ItemsOf(e.history.completed))[r];
    assert r in accepted <==> r in multiset(accepted);
    forall i | 0 <= i < |e.history.completed| ensures Fits(e.history.completed[i].item, e.history.completed[i].how) {
      assert WellCompleted(e.history.completed[i]);
    }
  }

  /** Every completion invokes one callback, in order, save for events that are addressed to the broker
      or named ping, which invoke none. */
  lemma OneCallback(settings: Settings, operations: seq<Operation>, i: nat)
    requires AllAllowed(ClientState.Start(settings), operations)
    requires i < |ApplyAll(ClientState.Start(settings), operations).history.completed|
    ensures
      var h := ApplyAll(ClientState.Start(settings), operations).history;
      var c := h.completed[i];
      && h.callbacks == CallbacksOf(h.completed)
      && (CallbackOf(c).None? <==> c.item.kind == TYPE_EVENT && (c.item.destination == SERVER || c.item.identifier == PING))
      && (CallbackOf(c).Some? ==> CallbackOf(c).value.serial == c.item.serial)
  {
    hide ApplyAll, AllAllowed, Drawn, Lonely, Beating, ItemsOf, CallbacksOf, Mbus, ResponseStatus;
    LifeSound(settings, operations);
    NamesDiffer();
    var e := ApplyAll(ClientState.Start(settings), operations);
    assert WellCompleted(e.history.completed[i]);
  }

  /** After a run that succeeds, nothing is queued, and whatever is pending has not reached its deadline. */
  lemma NothingOverdue(settings: Settings, operations: seq<Operation>, input: Input)
    requires AllAllowed(ClientState.Start(settings), operations)
    ensures
      var (e, ok) := Run(ApplyAll(ClientState.Start(settings), operations), input);
      ok ==> e.requests == [] && forall i | 0 <= i < |e.pendings| :: input.now < e.pendings[i].created + e.pendings[i].timeout
  {
    hide ApplyAll, AllAllowed, Run, Drawn, Lonely, Beating, HistoryOk, ItemsOf, Mbus;
    LifeSound(settings, operations);
    var d := ApplyAll(ClientState.Start(settings), operations);
    RunSound(d, input);
    var (e, ok) := Run(d, input);
    if ok {
      forall i | 0 <= i < |e.pendings| ensures input.now < e.pendings[i].created + e.pendings[i].timeout {
        assert WellFormed(e.pendings[i]) && !Expired(e.pendings[i], input.now);
      }
    }
  }

  // ----- matching replies -----

  /** Two requests have the same number exactly when the draws between them are a multiple of 9998. */
  lemma SameNumber(j: nat, k: nat)
    ensures Cyclic(j) == Cyclic(k) <==> (j - k) % 9998 == 0
  {
  }

  /** As long as all that is queued or pending was drawn among the last 9998 sequence numbers, no two
      of these requests have the same number, so a result can only be for the request it removes. */
  lemma RepliesMatch(settings: Settings, operations: seq<Operation>, i: nat, j: nat)
    requires AllAllowed(ClientState.Start(settings), operations)
    requires
      var e := ApplyAll(ClientState.Start(settings), operations);
      i < j < Load(e) && forall k | 0 <= k < Load(e) :: e.draws - (e.pendings + e.requests)[k].draw <= 9998
    ensures
      var q := ApplyAll(ClientState.Start(settings), operations);
      (q.pendings + q.requests)[i].sequence != (q.pendings + q.requests)[j].sequence
  {
    hide ApplyAll, AllAllowed, Lonely, Beating, Accounted, Cyclic;
    LifeSound(settings, operations);
    var e := ApplyAll(ClientState.Start(settings), operations);
    var q := e.pendings + e.requests;
    assert |q| == Load(e);
    CyclicDistinct(q[i].draw, q[j].draw);
  }

  // ----- the ping detector -----

  /** At any time at most one ping is waited for; each ping was sent more than an interval after the
      one before, and was given up only after its timeout. */
  lemma OnePingAtATime(settings: Settings, operations: seq<Operation>)
    requires AllAllowed(ClientState.Start(settings), operations)
    ensures
      var p := ApplyAll(ClientState.Start(settings), operations).ping;
      && |p.misses| <= |p.pings| <= |p.misses| + 1 && p.missed == |p.misses|
      && (forall k | 0 <= k < |p.misses| :: p.misses[k] > p.pings[k] + p.timeout)
      && (forall k | 0 < k < |p.pings| :: p.pings[k] > p.pings[k - 1] + p.interval)
  {
    hide ApplyAll, AllAllowed, Drawn, Lonely, Accounted;
    LifeSound(settings, operations);
  }

  lemma {:induction false} PingsSpread(p: Ping, k: nat)
    requires PingsOk(p) && k < |p.pings|
    ensures p.pings[k] >= p.pings[0] + k * p.interval
  {
    if k > 0 {
      PingsSpread(p, k - 1);
      assert k * p.interval == (k - 1) * p.interval + p.interval;
    }
  }

  /** In its ping section the client reports a ping timeout exactly when the missed pings exceed the
      threshold. Then, since the last pong or since the connection was made, it has sent more than
      threshold pings and given up each of them only after the timeout; and the report comes more than
      threshold * interval + timeout after the first of them. */
  lemma TimeoutJustified(e: Engine, now: int)
    requires Sound(e) && e.state.Connected? && e.ping.interval > 0 && CheckPing(e, now).1
    ensures
      var p := CheckedPing(e, now);
      && CheckPing(e, now).0.history.signals
         == e.history.signals + (if p.missed > p.threshold then [OnDisconnect(PingTimeout)] else [])
      && (p.missed > p.threshold && p.threshold >= 0 ==>
            && p.threshold + 1 <= |p.misses| <= |p.pings|
            && (forall k | 0 <= k < |p.misses| :: p.misses[k] > p.pings[k] + p.timeout)
            && now > p.pings[0] + p.threshold * p.interval + p.timeout)
  {
    hide Sound, SendPing, MissPong, Reset, PingsOk;
    var send := !e.ping.waiting && now > e.ping.sent + e.ping.interval;
    if send {
      SendPingSound(e, now);
      SendPingSilent(e, now);
    }
    var d := if send then SendPing(e, now).0 else e;
    var p := CheckedPing(e, now);
    assert p == MissPong(d.ping, now);
    SoundPings(d);
    MissPongOk(d.ping, now);
    if p.missed > p.threshold {
      var f := d.(ping := p);
      ResetSilent(d, f);
      assert d.history.signals == e.history.signals;
      if p.threshold >= 0 {
        MissedOnce(d, now);
        LastMiss(d.ping, now);
        PingsBound(p);
      }
    } else {
      assert e.history.signals + [] == e.history.signals;
    }
  }

  lemma SendPingSilent(e: Engine, now: int)
    ensures SendPing(e, now).0.history.signals == e.history.signals
  {
    hide Mbus;
  }

  lemma ResetSilent(d: Engine, f: Engine)
    requires Sound(d) && d.state.Connected? && f == d.(ping := f.ping)
    ensures Reset(Signaled(f, OnDisconnect(PingTimeout))).history.signals == d.history.signals + [OnDisconnect(PingTimeout)]
  {
    hide Accounted, Rising, PingsOk, Reset;
    ResetResets(Signaled(f, OnDisconnect(PingTimeout)));
  }

  lemma LastMiss(before: Ping, now: int)
    requires PingsOk(before) && MissPong(before, now).missed == before.missed + 1
    ensures var p := MissPong(before, now);
      p.misses != [] && |p.pings| == |p.misses| && now > p.pings[|p.pings| - 1] + p.timeout
  {
  }

  lemma PingsBound(p: Ping)
    requires PingsOk(p) && p.missed > p.threshold >= 0 && p.interval > 0
    ensures
      && p.threshold + 1 <= |p.misses| <= |p.pings|
      && (forall k | 0 <= k < |p.misses| :: p.misses[k] > p.pings[k] + p.timeout)
      && p.pings[|p.pings| - 1] >= p.pings[0] + p.threshold * p.interval
  {
    PingsSpread(p, |p.pings| - 1);
    MoreIntervals(|p.pings| - 1, p.threshold, p.interval);
  }

  lemma MoreIntervals(n: int, k: int, w: int)
    requires n >= k && w > 0
    ensures n * w >= k * w
  {
    assert n * w == k * w + (n - k) * w;
    assert (n - k) * w >= 0;
  }
}

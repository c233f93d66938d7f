/** Lives of a client whose application may issue create commands of its own: when they end with a freed
    request, and one that does. */
module ClientLives {
  import opened Options
  import opened Compress
  import opened JsonText
  import opened JsonPath
  import opened Methods
  import opened ClientState
  import opened ClientInvariant
  import opened ClientRun
  import opened ClientBreak

  // ----- the invariant -----

  /** There is at most one create request of the client's own, and only while it is connecting and has a
      connection, or was then told to disconnect. */
  ghost predicate Loose(e: Engine) {
    && !e.broken && Lone(e)
    && (!NoCreates(e) ==> e.state.Disconnecting? || (e.state.Connecting? && e.socket && e.socketConnected))
  }

  /** The client's create request is not the last of its queue. */
  ghost predicate Trailed(e: Engine) {
    Followed(e.requests) || Followed(e.pendings)
  }

  /** All that is asked of the application: not to connect between disconnect and the next run. The handler
      of the create request is the client's own. */
  ghost predicate Free(e: Engine, o: Operation) {
    match o
    case Connect => !e.state.Disconnecting?
    case Issue(handler, destination, command, payload, timeout, now) => !handler.CreateHandler?
    case _ => true
  }

  lemma LooseSame(e: Engine, d: Engine)
    requires Loose(e) && d.pendings == e.pendings && d.requests == e.requests && d.state == e.state && d.broken == e.broken
    requires d.socket == e.socket && d.socketConnected == e.socketConnected
    ensures Loose(d)
  {
    hide Lone, NoCreates;
    LoneHistory(e, d);
  }

  lemma LooseIdle(e: Engine)
    requires !e.broken && Load(e) == 0
    ensures Loose(e) && !Trailed(e)
  {
  }

  lemma NobodyTrails(e: Engine)
    requires NoCreates(e)
    ensures !Trailed(e)
  {
  }

  /** A request more, that is not the client's own create request. */
  lemma LooseMore(e: Engine, d: Engine, r: Item)
    requires Loose(e) && !r.handler.CreateHandler? && d.requests == e.requests + [r] && d.pendings == e.pendings
    requires d.state == e.state && d.broken == e.broken && d.socket == e.socket && d.socketConnected == e.socketConnected
    ensures Loose(d)
  {
    var q := e.pendings + e.requests;
    assert d.pendings + d.requests == q + [r];
    CreatesJoined(e);
    CreatesJoined(d);
  }

  lemma LooseCreate(e: Engine, d: Engine, r: Item)
    requires NoCreates(e) && !e.broken && d.requests == e.requests + [r] && d.pendings == e.pendings && !d.broken
    requires d.state.Connecting? && d.socket && d.socketConnected
    ensures Loose(d)
  {
    CreatesJoined(e);
    assert d.pendings + d.requests == (e.pendings + e.requests) + [r];
  }

  lemma LooseFallow(e: Engine)
    requires Fallow(e) && !e.broken
    ensures Loose(e) && NoCreates(e) && !Trailed(e) && !e.socket
  {
    FallowLone(e);
    LooseIdle(e);
  }

  // ----- resets -----

  /** A reset gives up the connection, whether it fails or not. */
  lemma {:induction false} ResetDark(e: Engine)
    ensures !Reset(e).socket
    decreases Load(e), 3
  {
    hide CancelRequests, CancelPendings;
    CancelRequestsDark(Unplugged(e));
    var a := CancelRequests(Unplugged(e));
    if Load(a) <= Load(e) && !a.broken {
      CancelPendingsDark(a);
    }
  }

  lemma {:induction false} CancelRequestsDark(e: Engine)
    requires !e.socket
    ensures !CancelRequests(e).socket
    decreases Load(e), 1
  {
    hide Reset, Completed;
    if e.requests != [] {
      QueuesOf(e.(requests := e.requests[1..]), e.requests[0], Canceled);
      var d := HeadCanceled(e);
      if e.requests[0].handler.CreateHandler? {
        ResetDark(Signaled(d, OnConnect(ConnectCanceled)));
      } else {
        CancelRequestsDark(d);
      }
    }
  }

  lemma {:induction false} CancelPendingsDark(e: Engine)
    requires !e.socket
    ensures !CancelPendings(e).socket
    decreases Load(e), 2
  {
    hide Reset, Completed;
    if e.pendings != [] {
      QueuesOf(e.(pendings := e.pendings[1..]), e.pendings[0], Canceled);
      var d := PendingCanceled(e);
      if e.pendings[0].handler.CreateHandler? {
        ResetDark(Signaled(d, OnConnect(ConnectCanceled)));
      } else {
        CancelPendingsDark(d);
      }
    }
  }

  /** A reset, from whatever it starts. */
  lemma LooseReset(e: Engine)
    requires !e.broken
    ensures !Reset(e).socket && (Reset(e).broken <==> Trailed(e)) && (!Reset(e).broken ==> Fallow(Reset(e)))
    ensures NoCreates(e) ==> !Reset(e).broken && Reset(e).state == e.state
    ensures Reset(e).settings == e.settings
  {
    hide Reset, Accounted, Followed, Fallow, NoCreates, Load;
    ResetDark(e);
    ResetBreaks(e);
    ResetResets(e);
    if NoCreates(e) { NobodyTrails(e); }
  }

  /** A reset of a client that has no create request, put in some state. */
  lemma LooseRested(e: Engine, d: Engine)
    requires !e.broken && NoCreates(e) && d == Reset(e).(state := d.state, history := d.history)
    ensures Loose(d) && NoCreates(d) && !d.socket && d.settings == e.settings
  {
    hide Reset, Fallow, NoCreates, Loose, Trailed;
    LooseReset(e);
    FallowAlso(Reset(e), d);
    LooseFallow(d);
  }

  lemma FallowAlso(e: Engine, d: Engine)
    requires Fallow(e) && d == e.(state := d.state, history := d.history)
    ensures Fallow(d)
  {
  }

  lemma LooseGaveUp(e: Engine, status: ConnectStatus, after: DisconnectStatus)
    requires !e.broken && NoCreates(e)
    ensures var d := GiveUp(e, status, after);
      Loose(d) && NoCreates(d) && !d.socket && d.settings == e.settings && d.state in {Connecting, Disconnected}
  {
    hide Reset, Loose;
    LoneHistory(e, Signaled(e, OnConnect(status)));
    LooseRested(Signaled(e, OnConnect(status)), GiveUp(e, status, after));
  }

  // ----- queueing -----

  lemma EnqueueLoose(e: Engine, kind: string, destination: string, identifier: string, payload: Option<Json>,
                     handler: Handler, timeout: int, now: int)
    requires Loose(e) && !handler.CreateHandler?
    ensures Loose(Enqueue(e, kind, destination, identifier, payload, handler, timeout, now).0)
  {
    hide Loose;
    var (d, ok) := Enqueue(e, kind, destination, identifier, payload, handler, timeout, now);
    if ok {
      LooseMore(e, d, d.requests[|e.requests|]);
    }
  }

  lemma CommandLoose(e: Engine, handler: Handler, destination: string, command: string, payload: Option<Json>,
                     timeout: int, now: int)
    requires Loose(e) && !handler.CreateHandler?
    ensures Loose(Command(e, handler, destination, command, payload, timeout, now).0)
  {
    hide Loose, Enqueue, Mbus;
    EnqueueLoose(e, TYPE_COMMAND, destination, command, payload, handler,
                 if timeout <= 0 then e.settings.commandTimeout else timeout, now);
  }

  lemma PublishLoose(e: Engine, destination: Option<string>, event: string, payload: Option<Json>, qos: Qos,
                     timeout: int, now: int)
    requires Loose(e)
    ensures Loose(Publish(e, destination, event, payload, qos, timeout, now).0)
  {
    hide Loose, Enqueue, Command, Mbus;
    var to := if destination.None? then SUBSCRIBERS else destination.value;
    var t := if timeout <= 0 then e.settings.publishTimeout else timeout;
    EnqueueLoose(e, TYPE_EVENT, to, event, payload, UserHandler, t, now);
    CommandLoose(e, EventHandler, SERVER, "command.event", Some(EventPayload(to, event, payload)), t, now);
  }

  lemma RequestCreateLoose(e: Engine, now: int)
    requires Loose(e) && NoCreates(e) && e.state.Connecting? && e.socket && e.socketConnected
    ensures var (d, ok) := RequestCreate(e, now); Loose(d) && d.state == e.state && (!ok ==> d == e)
  {
    hide Loose, NoCreates, CreateData, Mbus;
    var (d, ok) := RequestCreate(e, now);
    LooseNotBroken(e);
    if ok {
      LooseCreate(e, d, d.requests[|e.requests|]);
    }
  }

  lemma LooseNotBroken(e: Engine)
    requires Loose(e)
    ensures !e.broken && (e.state.Connected? || e.state.Disconnected? ==> NoCreates(e))
    ensures !e.state.Disconnecting? && (!e.socket || !e.socketConnected) ==> NoCreates(e)
  {
    hide Lone, NoCreates;
  }

  // ----- messages -----

  lemma LooseCompleted(e: Engine, k: nat, how: How)
    requires Loose(e) && k < |e.pendings|
    ensures var d := Completed(e.(pendings := Cut(e.pendings, k)), e.pendings[k], how);
      Loose(d) && d.state == e.state && (e.pendings[k].handler.CreateHandler? ==> NoCreates(d))
  {
    hide Lone, Completed;
    PendingLess(e, k);
    var c := e.(pendings := Cut(e.pendings, k));
    QueuesOf(c, e.pendings[k], how);
    LoneHistory(c, Completed(c, e.pendings[k], how));
    CutCounts(e.pendings, k);
  }

  lemma CreateAnsweredLoose(e: Engine, json: Json)
    requires Loose(e) && NoCreates(e)
    ensures Loose(CreateAnswered(e, json)) && !CreateAnswered(e, json).state.Disconnecting?
  {
    hide StringAt, IntAt, LookUp, Mbus, CreateFailed, Lone, Fallow;
    CreateFails(e, ServerError);
    if !CreateFailed(e, ServerError).broken {
      LooseFallow(CreateFailed(e, ServerError));
    }
    var payload := LookUp(Some(json), TAG_PAYLOAD);
    if IntAt(Some(json), TAG_STATUS, -1) == 0 && payload.Some? && StringAt(payload, "identifier").Some? {
      LoneHistory(e, CreateAnswered(e, json));
    }
  }

  lemma HandleResultLoose(e: Engine, json: Json)
    requires Loose(e) && !e.state.Disconnecting?
    ensures Loose(HandleResult(e, json)) && !HandleResult(e, json).state.Disconnecting?
  {
    hide Loose, IntAt, FindPending, CallbackOf, CreateAnswered, Completed, Mbus, NoCreates;
    var k := FindPending(e.pendings, IntAt(Some(json), TAG_SEQUENCE, -1));
    if k.Some? {
      LooseCompleted(e, k.value, Answered(json));
      if e.pendings[k.value].handler.CreateHandler? {
        CreateAnsweredLoose(Completed(e.(pendings := Cut(e.pendings, k.value)), e.pendings[k.value], Answered(json)), json);
      }
    }
  }

  lemma ReceiveLoose(e: Engine, m: Incoming, now: int)
    requires Loose(e) && !e.state.Disconnecting?
    ensures Loose(Receive(e, m, now).0) && !Receive(e, m, now).0.state.Disconnecting?
  {
    hide Loose, Parse, StringAt, Mbus, HandleResult, Ponged, Command, ReplyPayload;
    var json := Parse(m.text);
    var kind := StringAt(json, TAG_TYPE);
    if json.Some? && kind.Some? {
      HandleResultLoose(e, json.value);
      PongedLoose(e, now);
      var source, identifier := StringAt(Some(json.value), TAG_SOURCE), StringAt(Some(json.value), TAG_IDENTIFIER);
      if m.reply.Some? && source.Some? && identifier.Some? {
        var p := Some(ReplyPayload(source.value, identifier.value, json.value, m.reply.value));
        CommandLoose(e, UserHandler, SERVER, "command.result", p, 0, now);
        CommandGoesOn(e, UserHandler, SERVER, "command.result", p, 0, now);
      }
    }
  }

  lemma PongedLoose(e: Engine, now: int)
    requires Loose(e)
    ensures Loose(Ponged(e, now)) && Ponged(e, now).state == e.state
  {
    hide Loose;
    LooseSame(e, Ponged(e, now));
  }

  lemma {:induction false} ReceiveAllLoose(e: Engine, messages: seq<Incoming>, now: int)
    requires Loose(e) && !e.state.Disconnecting?
    ensures Loose(ReceiveAll(e, messages, now).0) && !ReceiveAll(e, messages, now).0.state.Disconnecting?
    decreases |messages|
  {
    hide Loose, Receive;
    if messages != [] && e.socket {
      ReceiveLoose(e, messages[0], now);
      ReceiveAllLoose(Receive(e, messages[0], now).0, messages[1..], now);
    }
  }

  // ----- the parts of a run -----

  lemma BeginLoose(e: Engine, attempt: Attempt, now: int)
    requires Loose(e)
    ensures
      var (d, h) := Begin(e, attempt, now);
      && (e.state.Disconnecting? ==> (d.broken <==> Trailed(e)) && h.Skips? && !d.socket)
      && (!e.state.Disconnecting? ==> !d.broken)
      && (!d.broken ==> Loose(d) && !d.state.Disconnecting?)
  {
    hide Loose, Reset, RunConnect, NoCreates, Trailed, Fallow;
    LooseNotBroken(e);
    match e.state
    case Connecting =>
      if !e.socket {
        LooseSame(e, e.(connectAt := now));
        LoneHistory(e, e.(connectAt := now));
        RunConnectLoose(e.(connectAt := now), attempt, now);
        LooseNotBroken(RunConnect(e.(connectAt := now), attempt, now).0);
      }
    case Connected =>
    case Disconnecting =>
      LooseReset(e);
      var d := Signaled(Reset(e).(state := Disconnected), OnDisconnect(Requested));
      if !d.broken {
        FallowAlso(Reset(e), d);
        LooseFallow(d);
      }
    case Disconnected =>
      LooseWaits(e);
  }

  lemma LooseWaits(e: Engine)
    requires Loose(e) && e.state.Disconnected?
    ensures Loose(e.(state := Connecting))
  {
    hide Lone;
    LoneHistory(e, e.(state := Connecting));
  }

  lemma LooseSocket(e: Engine, d: Engine)
    requires Loose(e) && NoCreates(e) && d == e.(socket := d.socket, socketConnected := d.socketConnected)
    ensures Loose(d) && NoCreates(d)
  {
    hide Lone;
    LoneHistory(e, d);
  }

  lemma RunConnectLoose(e: Engine, attempt: Attempt, now: int)
    requires Loose(e) && NoCreates(e) && e.state.Connecting?
    ensures var d := RunConnect(e, attempt, now).0; Loose(d) && !d.state.Disconnecting?
  {
    hide Loose, Reset, RequestCreate, GiveUp, NoCreates;
    LooseNotBroken(e);
    LooseReset(e);
    LooseRested(e, Reset(e));
    var d := Reset(e);
    LooseNotBroken(d);
    LooseSignaled(d, OnConnect(InvalidProtocol));
    LooseSignaled(d, OnConnect(ConnectInternalError));
    LooseSocket(d, d.(socket := true));
    LooseGaveUp(d.(socket := true), ConnectionRefused, DisconnectCanceled);
    LooseGaveUp(d.(socket := true), ServerUnavailable, DisconnectCanceled);
    var ready := d.(socket := true, socketConnected := true);
    LooseSocket(d, ready);
    RequestCreateLoose(ready, now);
    if !RequestCreate(ready, now).1 {
      LooseSignaled(ready, OnConnect(ConnectInternalError));
    }
  }

  lemma LooseSignaled(e: Engine, x: Signal)
    requires !e.broken && NoCreates(e)
    ensures Loose(Reset(Signaled(e, x))) && Reset(Signaled(e, x)).state == e.state
  {
    hide Loose, Reset, NoCreates;
    LoneHistory(e, Signaled(e, x));
    LooseReset(Signaled(e, x));
    LooseRested(Signaled(e, x), Reset(Signaled(e, x)));
  }

  /** What poll reports; the connection was closed by the other side if hungUp. */
  ghost predicate HungUp(e: Engine, p: Poll) {
    p.Ready? && p.closed && e.socket
  }

  lemma BeforeDecodeLoose(e: Engine, p: Poll, now: int)
    requires Loose(e) && !e.state.Disconnecting?
    ensures
      var (d, h) := BeforeDecode(e, p, now);
      && (HungUp(e, p) ==> (d.broken <==> Trailed(e)) && !h.Polls? && !d.socket)
      && (!HungUp(e, p) ==> !d.broken)
      && (!d.broken ==> Loose(d) && !d.state.Disconnecting?)
  {
    hide Loose, Reset, FinishConnecting, Trailed, Fallow;
    LooseNotBroken(e);
    match p
    case Idle =>
    case PollError =>
    case Ready(closed, attempt, writeError, messages) =>
      LooseReset(e);
      var d := Signaled(Reset(e).(state := Disconnected), OnDisconnect(ConnectionClosed));
      if !d.broken {
        FallowAlso(Reset(e), d);
        LooseFallow(d);
      }
      if e.socket && !closed && e.state.Connecting? && !e.socketConnected && attempt.Some? {
        FinishConnectingLoose(e, attempt.value, now);
        LooseNotBroken(FinishConnecting(e, attempt.value, now).0);
      }
  }

  lemma FinishConnectingLoose(e: Engine, attempt: Attempt, now: int)
    requires Loose(e) && e.state.Connecting? && e.socket && !e.socketConnected
    ensures var d := FinishConnecting(e, attempt, now).0; Loose(d) && !d.state.Disconnecting?
  {
    hide Loose, RequestCreate, GiveUp, NoCreates;
    LooseNotBroken(e);
    LooseSocket(e, e.(socketConnected := true));
    RequestCreateLoose(e.(socketConnected := true), now);
    LooseGaveUp(e, ConnectionRefused, DisconnectCanceled);
    LooseSame(e, Signaled(e, OnConnect(ConnectInternalError)));
  }

  lemma CheckConnectingLoose(e: Engine, now: int)
    requires Loose(e)
    ensures
      var d := CheckConnecting(e, now);
      Loose(d) && (d == e || (!d.socket && NoCreates(d) && NoCreates(e)))
  {
    hide Loose, GiveUp, NoCreates;
    LooseNotBroken(e);
    if NoCreates(e) {
      LooseGaveUp(e, ConnectTimeout, DisconnectInternalError);
    }
  }

  lemma SendPingLoose(e: Engine, now: int)
    requires Loose(e)
    ensures Loose(SendPing(e, now).0) && SendPing(e, now).0.state == e.state
  {
    hide Loose, Publish, Mbus;
    var d := e.(ping := Pinged(e.ping, now));
    LooseSame(e, d);
    PublishLoose(d, Some(SERVER), PING, None, AtMostOnce, 0, now);
    PublishGoesOn(d, Some(SERVER), PING, None, AtMostOnce, 0, now);
  }

  lemma CheckPingLoose(e: Engine, now: int)
    requires Loose(e)
    ensures
      var d := CheckPing(e, now).0;
      Loose(d) && (d == e || (NoCreates(d) && NoCreates(e)))
  {
    hide Loose, SendPing, MissPong, Reset, NoCreates;
    LooseNotBroken(e);
    if e.state.Connected? && e.ping.interval > 0 {
      var send := !e.ping.waiting && now > e.ping.sent + e.ping.interval;
      SendPingLoose(e, now);
      var (d, ok) := if send then SendPing(e, now) else (e, true);
      LooseNotBroken(d);
      if ok {
        var f := d.(ping := MissPong(d.ping, now));
        LooseSame(d, f);
        LooseNotBroken(f);
        LoneHistory(f, Signaled(f, OnDisconnect(PingTimeout)));
        LooseRested(Signaled(f, OnDisconnect(PingTimeout)), Reset(Signaled(f, OnDisconnect(PingTimeout))).(state := Retrying(f.settings)));
      }
    }
  }

  lemma SweptLoose(e: Engine, d: Engine)
    requires Loose(e) && Swept(e, d) && !d.broken && Lone(d)
    ensures Loose(d)
  {
    hide Lone, Fallow;
    if Fallow(d) {
      FallowLone(d);
    } else if NoCreates(e) {
      forall i | 0 <= i < |d.requests| ensures !d.requests[i].handler.CreateHandler? { assert d.requests[i] in e.requests; }
      forall i | 0 <= i < |d.pendings| ensures !d.pendings[i].handler.CreateHandler? { assert d.pendings[i] in e.pendings; }
    }
  }

  lemma NobodyOvertaken(e: Engine, now: int)
    requires NoCreates(e)
    ensures !Overtaken(e.requests, 0, now) && !Overtaken(e.pendings, 0, now)
  {
    hide Expired;
  }

  lemma {:induction false} FlushLoose(e: Engine)
    requires Loose(e)
    ensures Loose(Flush(e))
    decreases |e.requests|
  {
    hide Loose, FlushOne;
    if e.requests != [] {
      FlushOneLoose(e);
      FlushLoose(FlushOne(e));
    }
  }

  lemma FlushOneLoose(e: Engine)
    requires Loose(e) && e.requests != []
    ensures Loose(FlushOne(e)) && |FlushOne(e).requests| == |e.requests| - 1
  {
    hide Loose, Lone, NoCreates, RequestText, Completed, Mbus;
    var r, d := e.requests[0], FlushOne(e);
    var c := e.(requests := e.requests[1..], outgoing := e.outgoing + [Frame(e.compression, RequestText(r))]);
    QueuesOf(c, r, Sent);
    if r.kind == TYPE_EVENT {
      HeadLoose(e, d);
    } else {
      MovedLoose(e, d);
    }
  }

  lemma HeadLoose(e: Engine, d: Engine)
    requires Loose(e) && e.requests != [] && d == e.(requests := e.requests[1..], outgoing := d.outgoing, history := d.history)
    ensures Loose(d)
  {
    hide Lone;
    CutHead(e.requests);
    RequestLess(e, 0);
    LoneHistory(e.(requests := e.requests[1..]), d);
  }

  lemma MovedLoose(e: Engine, d: Engine)
    requires Loose(e) && e.requests != []
    requires d == e.(requests := e.requests[1..], pendings := e.pendings + [e.requests[0]], outgoing := d.outgoing)
    ensures Loose(d)
  {
    hide Lone, NoCreates;
    assert e.requests == [e.requests[0]] + e.requests[1..];
    assert d.pendings + d.requests == e.pendings + e.requests;
    MovedLone(e, d);
  }

  lemma MovedLone(e: Engine, d: Engine)
    requires d.pendings + d.requests == e.pendings + e.requests
    ensures Lone(d) == Lone(e) && NoCreates(d) == NoCreates(e)
  {
    CreatesJoined(e);
    CreatesJoined(d);
    assert Load(e) == |e.pendings + e.requests| == |d.pendings + d.requests| == Load(d);
  }

  /** The end of a run fails exactly when the create request is past its deadline and not the last of its
      queue. */
  lemma FinishBreaks(e: Engine, now: int)
    requires Loose(e)
    ensures
      var d := Finish(e, now).0;
      && (d.broken <==> Overtaken(e.requests, 0, now) || Overtaken(e.pendings, 0, now))
      && (d.broken ==> !d.socket) && (!d.broken ==> Loose(d))
  {
    hide Loose, CheckPing, CheckConnecting, SweepRequests, SweepPendings, Flush, Overtaken, NoCreates, Fallow, Lone, Swept;
    CheckConnectingLoose(e, now);
    var b := CheckConnecting(e, now);
    CheckPingLoose(b, now);
    var (d, ok) := CheckPing(b, now);
    LooseNotBroken(d);
    LooseLone(d);
    if NoCreates(e) { NobodyOvertaken(e, now); }
    if NoCreates(b) { NobodyOvertaken(b, now); }
    if NoCreates(d) { NobodyOvertaken(d, now); }
    if ok {
      SweepRequestsBreaks(d, 0, now);
      var f := SweepRequests(d, 0, now);
      if !f.broken {
        SweptLoose(d, f);
        SweepPendingsBreaks(f, 0, now);
        CreateElsewhere(d, f, now);
        var g := SweepPendings(f, 0, now);
        if !g.broken {
          SweptLoose(f, g);
          FlushLoose(g);
          LooseNotBroken(Flush(g));
        }
      }
    } else {
      PingNeedsNoCreate(b, now);
    }
  }

  lemma LooseLone(e: Engine)
    requires Loose(e)
    ensures Lone(e)
  {
  }

  lemma PingNeedsNoCreate(e: Engine, now: int)
    requires Loose(e) && !CheckPing(e, now).1
    ensures NoCreates(e)
  {
    hide SendPing, MissPong, Reset;
  }

  /** If the sweep of the requests reset the client, no pending request was overtaken. */
  lemma CreateElsewhere(d: Engine, f: Engine, now: int)
    requires Lone(d) && (f.pendings == d.pendings || (f.pendings == [] && HasCreate(d.requests)))
    ensures Overtaken(f.pendings, 0, now) <==> Overtaken(d.pendings, 0, now)
  {
    hide Lone, Expired;
    LoneIs(d);
  }

  // ----- runs and lives -----

  /** The three ways a run fails: a client that was told to disconnect, or whose broker hung up, is reset
      while its create request is not the last of its queue; or at the end that request is past its
      deadline and not the last. */
  ghost predicate Breaks(e: Engine, input: Input) {
    var (a, h) := Begin(e, input.attempt, input.now);
    if e.state.Disconnecting? then Trailed(e)
    else if h.Polls? && HungUp(a, input.poll) then Trailed(a)
    else
      var (b, i) := if h.Polls? then Serve(a, input.poll, input.now) else (a, h);
      !i.Fails? && (Overtaken(b.requests, 0, input.now) || Overtaken(b.pendings, 0, input.now))
  }

  lemma ServeLoose(e: Engine, p: Poll, now: int)
    requires Loose(e) && !e.state.Disconnecting?
    ensures
      var (d, h) := Serve(e, p, now);
      && (HungUp(e, p) ==> (d.broken <==> Trailed(e)) && h.Skips? && !d.socket)
      && (!HungUp(e, p) ==> !d.broken)
      && (!d.broken ==> Loose(d) && !d.state.Disconnecting?)
  {
    hide Loose, BeforeDecode, ReceiveAll, Trailed;
    BeforeDecodeLoose(e, p, now);
    var (d, h) := BeforeDecode(e, p, now);
    HungUpSkips(e, p, now);
    if h.Polls? {
      ReceiveAllLoose(d, Messages(p), now);
      LooseNotBroken(ReceiveAll(d, Messages(p), now).0);
    }
  }

  lemma HungUpSkips(e: Engine, p: Poll, now: int)
    ensures HungUp(e, p) ==> BeforeDecode(e, p, now).1.Skips?
  {
    hide Reset;
  }

  /** A run fails exactly then; otherwise the same can be said of the client afterwards. */
  lemma RunBreaks(e: Engine, input: Input)
    requires Loose(e)
    ensures
      var d := Run(e, input).0;
      (d.broken <==> Breaks(e, input)) && (d.broken ==> !d.socket) && (!d.broken ==> Loose(d))
  {
    hide Loose, Begin, Serve, Finish, Trailed, Overtaken;
    LooseNotBroken(e);
    BeginLoose(e, input.attempt, input.now);
    var (a, h) := Begin(e, input.attempt, input.now);
    if !a.broken && !h.Fails? {
      if h.Polls? {
        ServeLoose(a, input.poll, input.now);
      }
      var (b, i) := if h.Polls? then Serve(a, input.poll, input.now) else (a, h);
      if !b.broken && !i.Fails? {
        FinishBreaks(b, input.now);
        if e.state.Disconnecting? || (h.Polls? && HungUp(a, input.poll)) {
          DarkOvertaken(b, input.now);
        }
      }
    }
  }

  lemma DarkOvertaken(e: Engine, now: int)
    requires Loose(e) && !e.socket && !e.state.Disconnecting?
    ensures !Overtaken(e.requests, 0, now) && !Overtaken(e.pendings, 0, now)
  {
    hide Overtaken;
    NobodyOvertaken(e, now);
  }

  ghost predicate AllFree(e: Engine, operations: seq<Operation>) {
    operations == [] ||
    (AllFree(e, operations[..|operations| - 1])
     && Free(ApplyAll(e, operations[..|operations| - 1]), operations[|operations| - 1]))
  }

  lemma ApplyLoose(e: Engine, o: Operation)
    requires Loose(e) && Free(e, o)
    ensures Apply(e, o).broken <==> o.Turn? && Breaks(e, o.input)
    ensures !Apply(e, o).broken ==> Loose(Apply(e, o))
  {
    hide Loose, Command, Publish, Run, Breaks;
    LooseNotBroken(e);
    match o
    case Connect => LooseState(e, e.(state := Connecting));
    case Disconnect => LooseState(e, e.(state := Disconnecting));
    case Issue(handler, destination, command, payload, timeout, now) =>
      CommandLoose(e, handler, destination, command, payload, timeout, now);
      LooseNotBroken(Command(e, handler, destination, command, payload, timeout, now).0);
    case Emit(to, event, data, qos, limit, at) =>
      PublishLoose(e, to, event, data, qos, limit, at);
      LooseNotBroken(Publish(e, to, event, data, qos, limit, at).0);
    case Turn(input) => RunBreaks(e, input);
  }

  lemma LooseState(e: Engine, d: Engine)
    requires Loose(e) && d == e.(state := d.state)
    ensures (e.state.Disconnected? && d.state.Connecting?) || d.state.Disconnecting? ==> Loose(d)
  {
    hide Lone;
    LoneHistory(e, d);
  }

  /** In the life of the application's making, the n-th operation is a run that fails. */
  ghost predicate BreaksAt(e: Engine, operations: seq<Operation>, n: nat) {
    && n < |operations| && operations[n].Turn? && !ApplyAll(e, operations[..n]).broken
    && Breaks(ApplyAll(e, operations[..n]), operations[n].input)
  }

  lemma BrokenStays(e: Engine, operations: seq<Operation>, n: nat)
    requires n <= |operations| && ApplyAll(e, operations[..n]).broken
    ensures ApplyAll(e, operations).broken
    decreases |operations|
  {
    hide Run, Command, Publish;
    if n < |operations| {
      assert operations[..|operations| - 1][..n] == operations[..n];
      BrokenStays(e, operations[..|operations| - 1], n);
    } else {
      assert operations[..n] == operations;
    }
  }

  /** Whatever commands the application issues, whatever the network does: the life of a client comes to
      grief exactly if one of its runs does, in one of the three ways. */
  lemma {:induction false} LifeBreaks(settings: Settings, operations: seq<Operation>)
    requires AllFree(ClientState.Start(settings), operations)
    ensures var e := ApplyAll(ClientState.Start(settings), operations);
      (e.broken <==> exists n: nat :: BreaksAt(ClientState.Start(settings), operations, n)) && (!e.broken ==> Loose(e))
    decreases |operations|
  {
    hide Loose, Apply, Free, Breaks, BreaksAt;
    var start := ClientState.Start(settings);
    if operations == [] {
      LooseIdle(start);
      NoneBreaks(start);
    } else {
      var before, last := operations[..|operations| - 1], |operations| - 1;
      LifeBreaks(settings, before);
      var d := ApplyAll(start, before);
      forall n: nat
        ensures BreaksAt(start, operations, n)
                <==> (BreaksAt(start, before, n)
                      || (n == last && !d.broken && operations[last].Turn? && Breaks(d, operations[last].input)))
      {
        BreaksEarlier(start, operations, n);
      }
      if d.broken {
        BrokenStays(start, operations, last);
      } else {
        ApplyLoose(d, operations[last]);
        assert Apply(d, operations[last]).broken ==> BreaksAt(start, operations, last);
      }
    }
  }

  lemma NoneBreaks(e: Engine)
    ensures forall n: nat :: !BreaksAt(e, [], n)
  {
  }

  lemma BreaksEarlier(e: Engine, operations: seq<Operation>, n: nat)
    requires operations != []
    ensures
      var last := |operations| - 1;
      var d := ApplyAll(e, operations[..last]);
      BreaksAt(e, operations, n)
      <==> (BreaksAt(e, operations[..last], n)
            || (n == last && !d.broken && operations[last].Turn? && Breaks(d, operations[last].input)))
  {
    hide Breaks, ApplyAll;
    var last := |operations| - 1;
    if n < last {
      assert operations[..last][..n] == operations[..n];
    }
  }

  // ----- a life that comes to grief -----

  /** A time at which the client tries to connect. */
  function FirstTime(s: Settings): int {
    if s.connectInterval > 0 then s.connectInterval else 0
  }

  /** The client's create request. */
  function OwnRequest(s: Settings): Item {
    Item(TYPE_COMMAND, SERVER, "command.create", START, CreateData(s), CreateHandler, FirstTime(s), s.commandTimeout, 0, 0)
  }

  /** The client after its first run: its create request is written, and it waits for the response. */
  function Begun(s: Settings): Engine {
    var q := OwnRequest(s);
    Engine(s, Connecting, true, true, FirstTime(s), [], [q], None, NO_PING, Uncompressed, START + 1, 1,
           [Frame(Uncompressed, RequestText(q))], History([q], [], [], []), false)
  }

  /** Nothing comes in during the run, and the connection can be made. */
  function QuietInput(now: int): Input {
    Input(now, Established, Idle)
  }

  /** A run of a client that waits for the response, in which nothing comes in and nothing is overdue,
      writes what is queued. */
  lemma QuietRuns(e: Engine, now: int)
    requires !e.broken && e.state.Connecting? && e.socket && e.socketConnected
    requires (forall i | 0 <= i < |e.requests| :: !Expired(e.requests[i], now))
    requires (forall i | 0 <= i < |e.pendings| :: !Expired(e.pendings[i], now)) && !Flush(e).broken
    ensures Run(e, QuietInput(now)) == (Flush(e), true)
  {
    hide Expired, Flush;
    NothingSwept(e, 0, now);
    assert CheckConnecting(e, now) == e && CheckPing(e, now) == (e, true);
  }

  lemma {:induction false} NothingSwept(e: Engine, k: nat, now: int)
    requires (forall i | 0 <= i < |e.requests| :: !Expired(e.requests[i], now))
    requires (forall i | 0 <= i < |e.pendings| :: !Expired(e.pendings[i], now))
    ensures SweepRequests(e, k, now) == e && SweepPendings(e, k, now) == e
    decreases |e.requests| + |e.pendings| - k
  {
    hide Expired, TimeOut;
    if k < |e.requests| || k < |e.pendings| {
      NothingSwept(e, k + 1, now);
    }
  }

  lemma OneFlushed(e: Engine)
    requires |e.requests| == 1 && e.requests[0].kind != TYPE_EVENT
    ensures Flush(e) == e.(requests := [], pendings := e.pendings + e.requests,
                           outgoing := e.outgoing + [Frame(e.compression, RequestText(e.requests[0]))])
  {
    hide RequestText, Mbus;
    assert e.requests[1..] == [] && e.requests == [e.requests[0]];
    assert Flush(FlushOne(e)) == FlushOne(e);
  }

  lemma NothingToReset(e: Engine)
    requires e.requests == [] && e.pendings == [] && !e.broken
    ensures Reset(e) == Cleared(Unplugged(e))
  {
  }

  lemma FirstRun(s: Settings)
    requires s.commandTimeout > 0
    ensures Apply(Apply(ClientState.Start(s), Connect), Turn(QuietInput(FirstTime(s)))) == Begun(s)
  {
    hide Reset, Finish, RequestText, CreateData, Mbus;
    var e := Apply(ClientState.Start(s), Connect);
    var now, q := FirstTime(s), OwnRequest(s);
    var f := e.(connectAt := now);
    NothingToReset(f);
    var d := Reset(f).(socket := true, socketConnected := true);
    var a := RequestCreate(d, now).0;
    assert [] + [q] == [q];
    assert a == d.(requests := [q], sequence := START + 1, draws := 1, history := History([q], [], [], []));
    assert RunConnect(f, Established, now) == (a, true);
    assert Begin(e, Established, now) == (a, Polls);
    NamesDiffer();
    OneFlushed(a);
    AskedFinish(a, now);
    assert Run(e, QuietInput(now)) == Finish(a, now);
  }

  lemma AskedFinish(a: Engine, now: int)
    requires a.state.Connecting? && a.socketConnected && !a.broken && |a.requests| == 1 && a.pendings == [] && !Flush(a).broken
    requires a.requests[0].created == now && a.requests[0].timeout > 0
    ensures Finish(a, now) == (Flush(a), true)
  {
    hide Flush;
    NothingSwept(a, 0, now);
    assert CheckConnecting(a, now) == a && CheckPing(a, now) == (a, true);
  }

  /** A create command of the application's own, for any name and with any offers. */
  function CreateIssue(payload: Option<Json>, now: int): Operation {
    Issue(UserHandler, SERVER, "command.create", payload, 0, now)
  }

  /** The request that command is. */
  function IssuedRequest(e: Engine, payload: Option<Json>, now: int): Item {
    Item(TYPE_COMMAND, SERVER, "command.create", e.sequence, if payload.None? then Object([]) else payload.value, UserHandler, now,
         e.settings.commandTimeout, |e.history.accepted|, e.draws)
  }

  /** While the client waits for the response, the command is accepted, and written by the next run. */
  lemma CreateIssued(e: Engine, payload: Option<Json>, now: int)
    requires !e.broken && e.state.Connecting? && START <= e.sequence < END && e.settings.commandTimeout > 0
    ensures
      var r := IssuedRequest(e, payload, now);
      Apply(e, CreateIssue(payload, now))
      == e.(requests := e.requests + [r], sequence := NextSequence(e.sequence), draws := e.draws + 1,
            history := e.history.(accepted := e.history.accepted + [r]))
  {
    hide Mbus;
  }

  /** From the start of a client: it connects, the application issues a create command before the response
      has come, and disconnects. The next run goes on with a freed request. */
  function GriefStricken(s: Settings): seq<Operation> {
    var now := FirstTime(s);
    [Connect, Turn(QuietInput(now)), CreateIssue(None, now), Turn(QuietInput(now)), Disconnect, Turn(QuietInput(now))]
  }

  lemma AppliedMore(e: Engine, operations: seq<Operation>, o: Operation)
    ensures ApplyAll(e, operations + [o]) == Apply(ApplyAll(e, operations), o)
  {
    hide Apply;
    assert (operations + [o])[..|operations|] == operations;
  }

  lemma SixApplied(e: Engine, a: Operation, b: Operation, c: Operation, d: Operation, f: Operation, g: Operation)
    ensures ApplyAll(e, [a, b, c, d, f, g]) == Apply(Apply(Apply(Apply(Apply(Apply(e, a), b), c), d), f), g)
  {
    hide Apply, ApplyAll;
    NoneApplied(e);
    AppliedMore(e, [], a);
    AppliedMore(e, [a], b);
    AppliedMore(e, [a, b], c);
    AppliedMore(e, [a, b, c], d);
    AppliedMore(e, [a, b, c, d], f);
    AppliedMore(e, [a, b, c, d, f], g);
    assert [] + [a] == [a] && [a] + [b] == [a, b] && [a, b] + [c] == [a, b, c] && [a, b, c] + [d] == [a, b, c, d];
    assert [a, b, c, d] + [f] == [a, b, c, d, f] && [a, b, c, d, f] + [g] == [a, b, c, d, f, g];
  }

  lemma NoneApplied(e: Engine)
    ensures ApplyAll(e, []) == e
  {
  }

  lemma OwnCreateBreaks(s: Settings)
    requires s.commandTimeout > 0
    ensures ApplyAll(ClientState.Start(s), GriefStricken(s)).broken
  {
    hide Apply, QuietInput;
    var now := FirstTime(s);
    FirstRun(s);
    WrittenTwice(s);
    var f := WithCreate(s);
    DisconnectBreaks(f, OwnRequest(s), IssuedRequest(Begun(s), None, now), now);
    SixApplied(ClientState.Start(s), Connect, Turn(QuietInput(now)), CreateIssue(None, now), Turn(QuietInput(now)), Disconnect, Turn(QuietInput(now)));
  }

  /** Both create requests are written. */
  function WithCreate(s: Settings): Engine {
    Apply(Apply(Begun(s), CreateIssue(None, FirstTime(s))), Turn(QuietInput(FirstTime(s))))
  }

  lemma WrittenTwice(s: Settings)
    requires s.commandTimeout > 0
    ensures
      var r := IssuedRequest(Begun(s), None, FirstTime(s));
      WithCreate(s) == Begun(s).(pendings := [OwnRequest(s), r], sequence := START + 2, draws := 2,
                                 history := History([OwnRequest(s), r], [], [], []),
                                 outgoing := Begun(s).outgoing + [Frame(Uncompressed, RequestText(r))])
  {
    hide RequestText, CreateData, Mbus, Run;
    NamesDiffer();
    var now := FirstTime(s);
    var r := IssuedRequest(Begun(s), None, now);
    CreateIssued(Begun(s), None, now);
    var e := Apply(Begun(s), CreateIssue(None, now));
    assert e.requests == [r] && [OwnRequest(s)] + [r] == [OwnRequest(s), r];
    OneFlushed(e);
    QuietRuns(e, now);
  }

  lemma DisconnectBreaks(e: Engine, q: Item, r: Item, now: int)
    requires !e.broken && e.state.Connecting? && e.pendings == [q, r] && q.handler.CreateHandler?
    ensures Apply(Apply(e, Disconnect), Turn(QuietInput(now))).broken
  {
    hide Reset, Followed;
    var d := e.(state := Disconnecting);
    OneFollows(q, r);
    ResetBreaks(d);
  }

  lemma OneFollows(q: Item, r: Item)
    requires q.handler.CreateHandler?
    ensures Followed([q, r])
  {
    assert [q, r][0] == q;
  }
}

/** What the application is told about its connection: it is told of every connection once, never of two
    without the end of the first between them, and what it was told last is how things stand. */
module ClientSignals {
  import opened Options
  import opened JsonText
  import opened JsonPath
  import opened Methods
  import opened ClientState
  import opened ClientInvariant
  import opened ClientRun

  /** The last that was told is that the client is connected, attempts that failed aside. */
  predicate Up(signals: seq<Signal>) {
    if signals == [] then false
    else
      match signals[|signals| - 1]
      case OnConnect(status) => status.ConnectSuccess? || Up(signals[..|signals| - 1])
      case OnDisconnect(_) => false
  }

  /** A connection is told of only when there is none. */
  ghost predicate Steady(signals: seq<Signal>) {
    forall i | 0 <= i < |signals| :: signals[i] == OnConnect(ConnectSuccess) ==> !Up(signals[..i])
  }

  ghost predicate Tracked(e: Engine) {
    Steady(e.history.signals) && (!e.state.Disconnecting? ==> (e.state.Connected? <==> Up(e.history.signals)))
  }

  predicate Failure(x: Signal) {
    x.OnConnect? && !x.connect.ConnectSuccess?
  }

  lemma OneMore(signals: seq<Signal>, x: Signal)
    requires Steady(signals) && (x == OnConnect(ConnectSuccess) ==> !Up(signals))
    ensures Steady(signals + [x])
    ensures Up(signals + [x]) == (x == OnConnect(ConnectSuccess) || (Failure(x) && Up(signals)))
  {
    var more := signals + [x];
    assert more[..|more| - 1] == signals;
    forall i | 0 <= i < |more| && more[i] == OnConnect(ConnectSuccess) ensures !Up(more[..i]) {
      assert more[..i] == signals[..i];
    }
  }

  /** Only attempts that failed were told of. */
  ghost predicate Fails(a: seq<Signal>, b: seq<Signal>) {
    |b| >= |a| && b[..|a|] == a && forall i | |a| <= i < |b| :: Failure(b[i])
  }

  lemma {:induction false} FailsKeep(a: seq<Signal>, b: seq<Signal>)
    requires Fails(a, b) && Steady(a)
    ensures Steady(b) && Up(b) == Up(a)
    decreases |b|
  {
    if |b| == |a| {
      assert b == a;
    } else {
      var c := b[..|b| - 1];
      assert c[..|a|] == a;
      FailsKeep(a, c);
      OneMore(c, b[|b| - 1]);
      assert c + [b[|b| - 1]] == b;
    }
  }

  lemma FailsTwice(a: seq<Signal>, b: seq<Signal>, c: seq<Signal>)
    requires Fails(a, b) && Fails(b, c)
    ensures Fails(a, c)
  {
    assert c[..|a|] == c[..|b|][..|a|];
    forall i | |a| <= i < |c| ensures Failure(c[i]) {
      if i < |b| { assert c[i] == c[..|b|][i]; }
    }
  }

  lemma FailsOnce(a: seq<Signal>, x: Signal)
    requires Failure(x)
    ensures Fails(a, a + [x]) && Fails(a, a)
  {
  }

  // ----- resets -----

  lemma CompletedQuiet(e: Engine, r: Item, how: How)
    ensures Completed(e, r, how).history.signals == e.history.signals && Completed(e, r, how).state == e.state
  {
  }

  lemma {:induction false} ResetFails(e: Engine)
    ensures Fails(e.history.signals, Reset(e).history.signals) && (NoCreates(e) ==> Reset(e).state == e.state)
    decreases Load(e), 3
  {
    hide CancelRequests, CancelPendings, Fails;
    var u := Unplugged(e);
    var a := CancelRequests(u);
    RequestsFail(u);
    if Load(a) <= Load(e) && !a.broken {
      PendingsFail(a);
      FailsTwice(e.history.signals, a.history.signals, CancelPendings(a).history.signals);
    }
  }

  lemma {:induction false} RequestsFail(e: Engine)
    ensures var d := CancelRequests(e);
      Fails(e.history.signals, d.history.signals) && (NoCreates(e) ==> d.state == e.state && NoCreates(d))
    decreases Load(e), 1
  {
    hide Reset, Completed, Fails;
    FailsOnce(e.history.signals, OnConnect(ConnectCanceled));
    if e.requests != [] {
      var r, rest := e.requests[0], e.requests[1..];
      var d := Completed(e.(requests := rest), r, Canceled);
      CompletedQuiet(e.(requests := rest), r, Canceled);
      HeadResets(e);
      if r.handler.CreateHandler? {
        CreateFailedFails(d, ConnectCanceled);
      } else {
        RequestsFail(d);
      }
    }
  }

  lemma {:induction false} PendingsFail(e: Engine)
    ensures var d := CancelPendings(e);
      Fails(e.history.signals, d.history.signals) && (NoCreates(e) ==> d.state == e.state && NoCreates(d))
    decreases Load(e), 2
  {
    hide Reset, Completed, Fails;
    FailsOnce(e.history.signals, OnConnect(ConnectCanceled));
    if e.pendings != [] {
      var r, rest := e.pendings[0], e.pendings[1..];
      var d := Completed(e.(pendings := rest), r, Canceled);
      CompletedQuiet(e.(pendings := rest), r, Canceled);
      PendingResets(e);
      if r.handler.CreateHandler? {
        CreateFailedFails(d, ConnectCanceled);
      } else {
        PendingsFail(d);
      }
    }
  }

  lemma {:induction false} CreateFailedFails(e: Engine, status: ConnectStatus)
    requires !status.ConnectSuccess?
    ensures Fails(e.history.signals, CreateFailed(e, status).history.signals) && CreateFailed(e, status).state == Retrying(e.settings)
    decreases Load(e), 4
  {
    hide Reset, Fails;
    var s := Signaled(e, OnConnect(status));
    FailsOnce(e.history.signals, OnConnect(status));
    ResetFails(s);
    FailsTwice(e.history.signals, s.history.signals, Reset(s).history.signals);
  }

  // ----- what the parts of a run tell -----

  lemma SameTold(e: Engine, d: Engine)
    requires Tracked(e) && d.history.signals == e.history.signals && d.state == e.state
    ensures Tracked(d)
  {
  }

  /** A failure of a client that is not connected. */
  lemma FailureTold(e: Engine, d: Engine)
    requires Tracked(e) && e.state in {Connecting, Disconnected} && d.state in {Connecting, Disconnected}
    requires Fails(e.history.signals, d.history.signals)
    ensures Tracked(d)
  {
    FailsKeep(e.history.signals, d.history.signals);
  }

  /** The end of a connection, whatever else failed before or after it is told. */
  lemma EndTold(e: Engine, d: Engine, a: seq<Signal>, x: Signal)
    requires Steady(e.history.signals) && d.state in {Connecting, Disconnected} && x.OnDisconnect?
    requires Fails(e.history.signals, a) && Fails(a + [x], d.history.signals)
    ensures Tracked(d)
  {
    FailsKeep(e.history.signals, a);
    OneMore(a, x);
    FailsKeep(a + [x], d.history.signals);
  }

  lemma CreateAnsweredTold(e: Engine, json: Json)
    requires Tracked(e) && e.state.Connecting?
    ensures Tracked(CreateAnswered(e, json))
  {
    hide Up, Steady, LookUp, Mbus, CreateFailed, Fails;
    CreateFailedFails(e, ServerError);
    FailureTold(e, CreateFailed(e, ServerError));
    OneMore(e.history.signals, OnConnect(ConnectSuccess));
  }

  lemma CommandTold(e: Engine, handler: Handler, destination: string, command: string, payload: Option<Json>, timeout: int, now: int)
    requires Tracked(e)
    ensures Tracked(Command(e, handler, destination, command, payload, timeout, now).0)
    ensures Command(e, handler, destination, command, payload, timeout, now).0.history.signals == e.history.signals
  {
    SameTold(e, Command(e, handler, destination, command, payload, timeout, now).0);
  }

  lemma PublishTold(e: Engine, destination: Option<string>, event: string, payload: Option<Json>, qos: Qos, timeout: int, now: int)
    requires Tracked(e)
    ensures Tracked(Publish(e, destination, event, payload, qos, timeout, now).0)
  {
    hide EventPayload, Mbus;
    SameTold(e, Publish(e, destination, event, payload, qos, timeout, now).0);
  }

  lemma ReceiveTold(e: Engine, m: Incoming, now: int)
    requires Sound(e) && !e.state.Disconnecting? && Tracked(e)
    ensures Tracked(Receive(e, m, now).0)
  {
    hide Sound, Parse, LookUp, Mbus, Tracked, Command, ReplyPayload, HandleResult;
    SameTold(e, Ponged(e, now));
    var json := Parse(m.text);
    if json.Some? {
      ResultTold(e, json.value);
      var source, identifier := StringAt(json, TAG_SOURCE), StringAt(json, TAG_IDENTIFIER);
      if source.Some? && identifier.Some? && m.reply.Some? {
        CommandTold(e, UserHandler, SERVER, "command.result",
                    Some(ReplyPayload(source.value, identifier.value, json.value, m.reply.value)), 0, now);
      }
    }
  }

  lemma ResultTold(e: Engine, json: Json)
    requires Sound(e) && !e.state.Disconnecting? && Tracked(e)
    ensures Tracked(HandleResult(e, json))
  {
    hide Sound, LookUp, Mbus, Tracked, CreateAnswered, Completed, FindPending;
    var k := FindPending(e.pendings, IntAt(Some(json), TAG_SEQUENCE, -1));
    if k.Some? {
      var c, r := e.(pendings := e.pendings[..k.value] + e.pendings[k.value + 1..]), e.pendings[k.value];
      CompletedQuiet(c, r, Answered(json));
      SameTold(e, Completed(c, r, Answered(json)));
      if r.handler.CreateHandler? {
        CreateWhileConnecting(e, k.value);
        CreateAnsweredTold(Completed(c, r, Answered(json)), json);
      }
    }
  }

  lemma {:induction false} ReceiveAllTold(e: Engine, messages: seq<Incoming>, now: int)
    requires Sound(e) && !e.state.Disconnecting? && Tracked(e)
    ensures Tracked(ReceiveAll(e, messages, now).0)
    decreases |messages|
  {
    hide Sound, Tracked, Receive;
    if messages != [] && e.socket {
      ReceiveSound(e, messages[0], now);
      ReceiveTold(e, messages[0], now);
      var (d, ok) := Receive(e, messages[0], now);
      if ok { ReceiveAllTold(d, messages[1..], now); }
    }
  }

  lemma GiveUpTold(e: Engine, status: ConnectStatus, after: DisconnectStatus)
    requires Tracked(e) && e.state in {Connecting, Disconnected} && !status.ConnectSuccess?
    ensures Tracked(GiveUp(e, status, after))
  {
    hide Reset, Up, Steady, Fails;
    var s := Signaled(e, OnConnect(status));
    FailsOnce(e.history.signals, OnConnect(status));
    ResetFails(s);
    FailsTwice(e.history.signals, s.history.signals, Reset(s).history.signals);
    var d := Reset(s);
    if e.settings.connectInterval > 0 {
      FailureTold(e, d.(state := Connecting));
    }
    FailsOnce(d.history.signals + [OnDisconnect(after)], OnConnect(status));
    EndTold(e, Signaled(d.(state := Disconnected), OnDisconnect(after)), d.history.signals, OnDisconnect(after));
  }

  lemma CheckConnectingTold(e: Engine, now: int)
    requires Tracked(e) && !e.state.Disconnecting?
    ensures Tracked(CheckConnecting(e, now)) && !CheckConnecting(e, now).state.Disconnecting?
  {
    hide GiveUp, Tracked;
    GiveUpGoesOn(e, ConnectTimeout, DisconnectInternalError);
    if e.state.Connecting? {
      GiveUpTold(e, ConnectTimeout, DisconnectInternalError);
    }
  }

  lemma CheckPingTold(e: Engine, now: int)
    requires Tracked(e) && !e.state.Disconnecting?
    ensures Tracked(CheckPing(e, now).0) && !CheckPing(e, now).0.state.Disconnecting?
  {
    hide Reset, Publish, Steady, Up, Fails, Mbus;
    if e.state.Connected? && e.ping.interval > 0 {
      var c := e.(ping := e.ping.(sent := now, received := 0, waiting := true, pings := e.ping.pings + [now]));
      SameTold(e, c);
      PublishTold(c, Some(SERVER), PING, None, AtMostOnce, 0, now);
      PublishGoesOn(c, Some(SERVER), PING, None, AtMostOnce, 0, now);
      var (d, ok) := if !e.ping.waiting && now > e.ping.sent + e.ping.interval then SendPing(e, now) else (e, true);
      var f := d.(ping := MissPong(d.ping, now));
      SameTold(d, f);
      var s := Signaled(f, OnDisconnect(PingTimeout));
      ResetFails(s);
      FailsOnce(f.history.signals, OnConnect(ConnectTimeout));
      EndTold(f, Reset(s).(state := Retrying(f.settings)), f.history.signals, OnDisconnect(PingTimeout));
    }
  }

  lemma TimeOutTold(e: Engine, r: Item, now: int)
    requires Tracked(e) && !e.state.Disconnecting? && (r.handler.CreateHandler? ==> e.state.Connecting?)
    ensures Tracked(TimeOut(e, r, now)) && !TimeOut(e, r, now).state.Disconnecting?
  {
    hide Up, Steady, CreateFailed, Completed, Fails;
    CompletedQuiet(e, r, TimedOut(now));
    var d := Completed(e, r, TimedOut(now));
    if r.handler.CreateHandler? {
      CreateFailedFails(d, ConnectTimeout);
      FailsKeep(d.history.signals, CreateFailed(d, ConnectTimeout).history.signals);
    }
  }

  lemma CreatesConnecting(e: Engine, k: nat)
    requires Sound(e) && !e.state.Disconnecting?
    ensures k < |e.requests| && e.requests[k].handler.CreateHandler? ==> e.state.Connecting?
    ensures k < |e.pendings| && e.pendings[k].handler.CreateHandler? ==> e.state.Connecting?
  {
    hide Accounted, Rising, PingsOk;
  }

  lemma {:induction false} SweepRequestsTold(e: Engine, k: nat, now: int)
    requires Sound(e) && Fresh(e.requests, k, now) && Tracked(e) && !e.state.Disconnecting?
    ensures Tracked(SweepRequests(e, k, now)) && !SweepRequests(e, k, now).state.Disconnecting?
    decreases |e.requests| - k
  {
    hide Sound, TimeOut, Fallow, Expired, Tracked;
    if k < |e.requests| {
      if !Expired(e.requests[k], now) {
        SweepRequestsTold(e, k + 1, now);
      } else {
        var c := e.(requests := Cut(e.requests, k));
        SameTold(e, c);
        CreatesConnecting(e, k);
        TimeOutTold(c, e.requests[k], now);
        TimedOutRequest(e, k, now);
        var d := TimeOut(c, e.requests[k], now);
        if !e.requests[k].handler.CreateHandler? {
          SweepRequestsTold(d, k, now);
        } else {
          SameTold(d, d.(broken := true));
        }
      }
    }
  }

  lemma {:induction false} SweepPendingsTold(e: Engine, k: nat, now: int)
    requires Sound(e) && Fresh(e.pendings, k, now) && Tracked(e) && !e.state.Disconnecting?
    ensures Tracked(SweepPendings(e, k, now)) && !SweepPendings(e, k, now).state.Disconnecting?
    decreases |e.pendings| - k
  {
    hide Sound, TimeOut, Fallow, Expired, Tracked;
    if k < |e.pendings| {
      if !Expired(e.pendings[k], now) {
        SweepPendingsTold(e, k + 1, now);
      } else {
        var c := e.(pendings := Cut(e.pendings, k));
        SameTold(e, c);
        CreatesConnecting(e, k);
        TimeOutTold(c, e.pendings[k], now);
        TimedOutPending(e, k, now);
        var d := TimeOut(c, e.pendings[k], now);
        if !e.pendings[k].handler.CreateHandler? {
          SweepPendingsTold(d, k, now);
        } else {
          SameTold(d, d.(broken := true));
        }
      }
    }
  }

  lemma {:induction false} FlushTold(e: Engine)
    requires Tracked(e) && !e.state.Disconnecting?
    ensures Tracked(Flush(e)) && !Flush(e).state.Disconnecting?
    decreases |e.requests|
  {
    hide Tracked, RequestText, CallbackOf, Mbus;
    if e.requests != [] {
      var d := FlushOne(e);
      SameTold(e, d);
      FlushTold(d);
    }
  }

  lemma FinishTold(e: Engine, now: int)
    requires Sound(e) && Tracked(e) && !e.state.Disconnecting?
    ensures Tracked(Finish(e, now).0) && !Finish(e, now).0.state.Disconnecting?
  {
    hide Sound, CheckPing, CheckConnecting, SweepRequests, SweepPendings, Flush, Expired, Fallow, Tracked;
    CheckConnectingSound(e, now);
    CheckConnectingTold(e, now);
    CheckPingSound(CheckConnecting(e, now), now);
    CheckPingTold(CheckConnecting(e, now), now);
    var (d, ok) := CheckPing(CheckConnecting(e, now), now);
    if ok && !d.broken {
      SweepRequestsSound(d, 0, now);
      SweepRequestsTold(d, 0, now);
      var f := SweepRequests(d, 0, now);
      if !f.broken {
        SweepPendingsSound(f, 0, now);
        SweepPendingsTold(f, 0, now);
        FlushTold(SweepPendings(f, 0, now));
      }
    }
  }

  /** A client without a connection is reset: nothing changes but that more attempts have failed. */
  lemma IdleResetTold(e: Engine)
    requires Sound(e) && Tracked(e) && Load(e) == 0 && e.state.Connecting?
    ensures Tracked(Reset(e)) && Reset(e).state == Connecting
  {
    hide Sound, Reset, Up, Steady, Fails;
    ResetKeepsState(e);
    ResetFails(e);
    FailureTold(e, Reset(e));
  }

  lemma FailedResetTold(e: Engine, status: ConnectStatus)
    requires Tracked(e) && Load(e) == 0 && e.state.Connecting? && !status.ConnectSuccess?
    ensures Tracked(Reset(Signaled(e, OnConnect(status)))) && Reset(Signaled(e, OnConnect(status))).state == Connecting
  {
    hide Reset, Up, Steady, Fails;
    var s := Signaled(e, OnConnect(status));
    FailsOnce(e.history.signals, OnConnect(status));
    ResetFails(s);
    FailsTwice(e.history.signals, s.history.signals, Reset(s).history.signals);
    FailureTold(e, Reset(s));
  }

  lemma RequestCreateTold(e: Engine, now: int)
    requires Tracked(e) && 1 <= e.sequence <= 9998
    ensures Tracked(RequestCreate(e, now).0) && RequestCreate(e, now).0.state == e.state
    ensures !RequestCreate(e, now).1 ==> RequestCreate(e, now).0 == e
  {
    hide Tracked, CreateData, Command;
    CommandTold(e, CreateHandler, SERVER, "command.create", Some(CreateData(e.settings)), 0, now);
    CommandGoesOn(e, CreateHandler, SERVER, "command.create", Some(CreateData(e.settings)), 0, now);
    RefusedCommand(e, CreateHandler, SERVER, "command.create", Some(CreateData(e.settings)), 0, now);
  }

  lemma RefusedCommand(e: Engine, handler: Handler, destination: string, command: string, payload: Option<Json>, timeout: int, now: int)
    ensures var (d, ok) := Command(e, handler, destination, command, payload, timeout, now); !ok ==> d == e
  {
  }

  lemma RunConnectTold(e: Engine, attempt: Attempt, now: int)
    requires Sound(e) && Tracked(e) && e.state.Connecting? && Load(e) == 0
    ensures Tracked(RunConnect(e, attempt, now).0) && !RunConnect(e, attempt, now).0.state.Disconnecting?
  {
    hide Sound, Reset, RequestCreate, GiveUp, Tracked;
    var d := Reset(e);
    IdleResetTold(e);
    ResetKeepsState(e);
    FailedResetTold(d, InvalidProtocol);
    FailedResetTold(d, ConnectInternalError);
    var plugged := d.(socket := true);
    SameTold(d, plugged);
    GiveUpTold(plugged, ConnectionRefused, DisconnectCanceled);
    GiveUpTold(plugged, ServerUnavailable, DisconnectCanceled);
    GiveUpGoesOn(plugged, ConnectionRefused, DisconnectCanceled);
    GiveUpGoesOn(plugged, ServerUnavailable, DisconnectCanceled);
    var ready := d.(socket := true, socketConnected := true);
    SameTold(d, ready);
    SequenceStarts(e);
    RequestCreateTold(ready, now);
    FailedResetTold(ready, ConnectInternalError);
  }

  lemma SequenceStarts(e: Engine)
    requires Sound(e) && Load(e) == 0
    ensures 1 <= Reset(e).sequence <= 9998 && 1 <= e.sequence <= 9998
  {
    hide Accounted, Reset;
    ResetResets(e);
    CyclicNext(e.draws);
  }

  lemma BeginTold(e: Engine, attempt: Attempt, now: int)
    requires Sound(e) && Tracked(e)
    ensures Tracked(Begin(e, attempt, now).0) && !Begin(e, attempt, now).0.state.Disconnecting?
  {
    hide Sound, Reset, RunConnect, Tracked;
    match e.state
    case Connecting =>
      if !e.socket {
        IdleWithoutSocket(e);
        SocketSound(e, e.(connectAt := now));
        SameTold(e, e.(connectAt := now));
        RunConnectTold(e.(connectAt := now), attempt, now);
      }
    case Connected =>
    case Disconnecting => ClosedTold(e, Requested);
    case Disconnected => RetryTold(e);
  }

  lemma RetryTold(e: Engine)
    requires Tracked(e) && e.state.Disconnected?
    ensures Tracked(e.(state := Connecting))
  {
  }

  lemma ClosedTold(e: Engine, status: DisconnectStatus)
    requires Tracked(e)
    ensures Tracked(Signaled(Reset(e).(state := Disconnected), OnDisconnect(status)))
  {
    hide Reset, Up, Steady, Fails;
    ResetFails(e);
    var d := Signaled(Reset(e).(state := Disconnected), OnDisconnect(status));
    FailsOnce(d.history.signals, OnConnect(ConnectTimeout));
    EndTold(e, d, Reset(e).history.signals, OnDisconnect(status));
  }

  lemma FinishConnectingTold(e: Engine, attempt: Attempt, now: int)
    requires Sound(e) && Tracked(e) && e.state.Connecting? && e.socket && !e.socketConnected
    ensures Tracked(FinishConnecting(e, attempt, now).0) && !FinishConnecting(e, attempt, now).0.state.Disconnecting?
  {
    hide Sound, RequestCreate, GiveUp, Tracked, Fails;
    IdleWithoutSocket(e);
    var ready := e.(socketConnected := true);
    SameTold(e, ready);
    SequenceStarts(e);
    RequestCreateTold(ready, now);
    GiveUpTold(e, ConnectionRefused, DisconnectCanceled);
    GiveUpGoesOn(e, ConnectionRefused, DisconnectCanceled);
    FailsOnce(e.history.signals, OnConnect(ConnectInternalError));
    FailureTold(e, Signaled(e, OnConnect(ConnectInternalError)));
  }

  lemma BeforeDecodeTold(e: Engine, p: Poll, now: int)
    requires Sound(e) && Tracked(e) && !e.state.Disconnecting?
    ensures Tracked(BeforeDecode(e, p, now).0) && !BeforeDecode(e, p, now).0.state.Disconnecting?
  {
    hide Sound, Reset, FinishConnecting, Tracked;
    match p
    case Idle =>
    case PollError =>
    case Ready(closed, attempt, writeError, messages) =>
      ClosedTold(e, ConnectionClosed);
      if e.socket && !closed && e.state.Connecting? && !e.socketConnected && attempt.Some? {
        FinishConnectingTold(e, attempt.value, now);
      }
  }

  lemma ServeTold(e: Engine, p: Poll, now: int)
    requires Sound(e) && Tracked(e) && !e.state.Disconnecting?
    ensures Tracked(Serve(e, p, now).0) && !Serve(e, p, now).0.state.Disconnecting?
  {
    hide Sound, BeforeDecode, ReceiveAll, Tracked;
    BeforeDecodeSound(e, p, now);
    BeforeDecodeTold(e, p, now);
    ReceiveAllTold(BeforeDecode(e, p, now).0, Messages(p), now);
    ReceiveAllGoesOn(BeforeDecode(e, p, now).0, Messages(p), now);
  }

  lemma {:induction false} ReceiveAllGoesOn(e: Engine, messages: seq<Incoming>, now: int)
    requires Sound(e) && !e.state.Disconnecting?
    ensures !ReceiveAll(e, messages, now).0.state.Disconnecting?
    decreases |messages|
  {
    hide Sound, Receive;
    if messages != [] && e.socket {
      ReceiveSound(e, messages[0], now);
      if Receive(e, messages[0], now).1 { ReceiveAllGoesOn(Receive(e, messages[0], now).0, messages[1..], now); }
    }
  }

  lemma RunTold(e: Engine, input: Input)
    requires Sound(e) && Tracked(e)
    ensures Tracked(Run(e, input).0)
  {
    hide Sound, Begin, Serve, Finish, Tracked;
    BeginSound(e, input.attempt, input.now);
    BeginTold(e, input.attempt, input.now);
    var (a, h) := Begin(e, input.attempt, input.now);
    if !a.broken && !h.Fails? {
      if h.Polls? {
        ServeSound(a, input.poll, input.now);
        ServeTold(a, input.poll, input.now);
      }
      var (b, i) := if h == Skips then (a, Skips) else Serve(a, input.poll, input.now);
      if !b.broken && !i.Fails? {
        FinishTold(b, input.now);
      }
    }
  }

  lemma ApplyTold(e: Engine, o: Operation)
    requires Sound(e) && Tracked(e) && Allowed(e, o)
    ensures Tracked(Apply(e, o))
  {
    hide Sound, Command, Publish, Run, Up, Steady;
    match o
    case Connect =>
    case Disconnect =>
    case Issue(handler, destination, command, payload, timeout, now) =>
      CommandTold(e, handler, destination, command, payload, timeout, now);
    case Emit(to, event, data, qos, limit, at) => PublishTold(e, to, event, data, qos, limit, at);
    case Turn(input) => RunTold(e, input);
  }

  lemma {:induction false} LifeTold(settings: Settings, operations: seq<Operation>)
    requires AllAllowed(ClientState.Start(settings), operations)
    ensures Tracked(ApplyAll(ClientState.Start(settings), operations))
    decreases |operations|
  {
    hide Sound, Apply, Allowed;
    if operations != [] {
      hide Tracked;
      var past := operations[..|operations| - 1];
      LifeSound(settings, past);
      LifeTold(settings, past);
      ApplyTold(ApplyAll(ClientState.Start(settings), past), operations[|operations| - 1]);
    }
  }

  lemma {:induction false} UpSince(signals: seq<Signal>)
    ensures Up(signals) <==>
      exists i :: 0 <= i < |signals| && signals[i] == OnConnect(ConnectSuccess)
        && forall k | i < k < |signals| :: !signals[k].OnDisconnect?
    decreases |signals|
  {
    if signals != [] {
      var before, n := signals[..|signals| - 1], |signals| - 1;
      UpSince(before);
      if Up(signals) && !signals[n].OnDisconnect? && signals[n] != OnConnect(ConnectSuccess) {
        var i :| 0 <= i < n && before[i] == OnConnect(ConnectSuccess) && forall k | i < k < n :: !before[k].OnDisconnect?;
        assert forall k | i < k < |signals| :: k < n ==> signals[k] == before[k];
      }
    }
  }

  /** The whole life of a client: it is connected exactly if it told so and has not told of the end since, a
      disconnect under way aside; and between any two connections it told of it told of an end. */
  lemma SignalsTell(settings: Settings, operations: seq<Operation>)
    requires AllAllowed(ClientState.Start(settings), operations)
    ensures
      var e := ApplyAll(ClientState.Start(settings), operations);
      var told := e.history.signals;
      && (!e.state.Disconnecting? ==>
            (e.state.Connected? <==>
               exists i :: 0 <= i < |told| && told[i] == OnConnect(ConnectSuccess) && forall k | i < k < |told| :: !told[k].OnDisconnect?))
      && (forall i, j | 0 <= i < j < |told| && told[i] == OnConnect(ConnectSuccess) && told[j] == OnConnect(ConnectSuccess) ::
            exists k :: i < k < j && told[k].OnDisconnect?)
  {
    hide Up, ApplyAll, AllAllowed;
    LifeTold(settings, operations);
    var told := ApplyAll(ClientState.Start(settings), operations).history.signals;
    UpSince(told);
    forall i, j | 0 <= i < j < |told| && told[i] == OnConnect(ConnectSuccess) && told[j] == OnConnect(ConnectSuccess)
      ensures exists k :: i < k < j && told[k].OnDisconnect?
    {
      var before := told[..j];
      UpSince(before);
      assert !Up(before);
      assert before[i] == OnConnect(ConnectSuccess);
      var k :| i < k < |before| && before[k].OnDisconnect?;
      assert told[k].OnDisconnect?;
    }
  }
}

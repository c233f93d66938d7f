/** The client of src/client/client.c as an object: its functions change the queues and counters in
    place. Every method is proved against the function of the same operation in ClientState. */
module Client {
  import opened Options
  import opened Compress
  import opened JsonText
  import opened JsonPath
  import opened Methods
  import CS = ClientState
  import opened ClientState

  lemma FirstPending(items: seq<Item>, sequence: int, k: nat)
    requires k <= |items| && (forall j | 0 <= j < k :: items[j].sequence != sequence)
    requires k < |items| ==> items[k].sequence == sequence
    ensures FindPending(items, sequence) == if k == |items| then None else Some(k)
  {
    hide FindPending;
    var r := FindPending(items, sequence);
  }

  lemma ResetUnfolds(e: Engine)
    ensures |Unplugged(e).requests| + |Unplugged(e).pendings| == Load(e)
    ensures
      var a := CS.CancelRequests(Unplugged(e));
      a.broken || Load(a) <= Load(e) ==>
        CS.Reset(e) == if a.broken then a else if CS.CancelPendings(a).broken then CS.CancelPendings(a) else Cleared(CS.CancelPendings(a))
  {
    hide CS.CancelRequests, CS.CancelPendings;
  }

  class Client {
    const settings: Settings
    var state: State
    var socket: bool
    var socketConnected: bool
    var connectAt: int
    var requests: seq<Item>
    var pendings: seq<Item>
    var identifier: Option<string>
    var ping: Ping
    var compression: Compression
    var sequence: int
    var outgoing: seq<Frame>
    var broken: bool
    /** Counters that tell requests apart; the original has no need of them. */
    var serials: nat
    var draws: nat
    ghost var history: History

    ghost predicate Valid()
      reads this
    {
      serials == |history.accepted|
    }

    ghost function View(): Engine
      reads this
    {
      Engine(settings, state, socket, socketConnected, connectAt, requests, pendings, identifier, ping, compression,
             sequence, draws, outgoing, history, broken)
    }

    constructor (settings: Settings)
      ensures Valid() && View() == CS.Start(settings)
    {
      this.settings := settings;
      state, socket, socketConnected, connectAt := Disconnected, false, false, 0;
      requests, pendings, identifier := [], [], None;
      ping, compression, sequence, outgoing, broken, serials, draws := NO_PING, Uncompressed, START, [], false, 0, 0;
      history := History([], [], [], []);
    }

    // ----- accepting requests -----

    method Enqueue(kind: string, destination: string, identifier: string, payload: Option<Json>, handler: Handler,
                   timeout: int, now: int) returns (ok: bool)
      requires Valid()
      modifies this
      ensures Valid()
      ensures (View(), ok) == CS.Enqueue(old(View()), kind, destination, identifier, payload, handler, timeout, now)
    {
      if sequence < START || sequence >= END || timeout < 0 {
        return false;
      }
      var data := if payload.None? then Object([]) else payload.value;
      var r := Item(kind, destination, identifier, sequence, data, handler, now, timeout, serials, draws);
      NextNumber();
      requests := requests + [r];
      Accept(r);
      return true;
    }

    method NextNumber()
      modifies `sequence, `draws
      ensures sequence == NextSequence(old(sequence)) && draws == old(draws) + 1
    {
      sequence := sequence + 1;
      if sequence >= END {
        sequence := START;
      }
      draws := draws + 1;
    }

    method Accept(r: Item)
      modifies `serials, `history
      ensures serials == old(serials) + 1 && history == old(history).(accepted := old(history).accepted + [r])
    {
      serials := serials + 1;
      history := history.(accepted := history.accepted + [r]);
    }

    method Command(handler: Handler, destination: string, command: string, payload: Option<Json>, timeout: int, now: int)
      returns (ok: bool)
      requires Valid()
      modifies this
      ensures Valid() && (View(), ok) == CS.Command(old(View()), handler, destination, command, payload, timeout, now)
    {
      hide CS.Enqueue;
      if command == "command.create" {
        if state != Connecting {
          return false;
        }
      } else if state != Connected {
        return false;
      }
      var t := timeout;
      if t <= 0 {
        t := settings.commandTimeout;
      }
      ok := Enqueue(TYPE_COMMAND, destination, command, payload, handler, t, now);
    }

    method Publish(destination: Option<string>, event: string, payload: Option<Json>, qos: Qos, timeout: int, now: int)
      returns (ok: bool)
      requires Valid()
      modifies this
      ensures Valid() && (View(), ok) == CS.Publish(old(View()), destination, event, payload, qos, timeout, now)
    {
      hide CS.Enqueue, CS.Command;
      if state != Connected {
        return false;
      }
      var to := if destination.None? then SUBSCRIBERS else destination.value;
      var t := timeout;
      if t <= 0 {
        t := settings.publishTimeout;
      }
      match qos
      case AtMostOnce =>
        ok := Enqueue(TYPE_EVENT, to, event, payload, UserHandler, t, now);
      case AtLeastOnce =>
        var queued := Command(EventHandler, SERVER, "command.event", Some(EventPayload(to, event, payload)), t, now);
        ok := true;
    }

    method RequestCreate(now: int) returns (ok: bool)
      requires Valid()
      modifies this
      ensures Valid() && (View(), ok) == CS.RequestCreate(old(View()), now)
    {
      hide CS.Command;
      ok := Command(CreateHandler, SERVER, "command.create", Some(CreateData(settings)), 0, now);
    }

    // ----- callbacks -----

    /** One callback is invoked. */
    ghost method Call(channel: Channel, serial: nat, status: Status)
      modifies `history
      ensures history == old(history).(callbacks := old(history).callbacks + [Callback(channel, serial, status)])
    {
      history := history.(callbacks := history.callbacks + [Callback(channel, serial, status)]);
    }

    ghost method Retire(r: Item, how: How)
      modifies `history
      ensures history == old(history).(completed := old(history).completed + [Completion(r, how)])
    {
      history := history.(completed := history.completed + [Completion(r, how)]);
    }

    ghost method Signal(x: Signal)
      requires Valid()
      modifies `history
      ensures Valid() && View() == Signaled(old(View()), x)
    {
      history := history.(signals := history.signals + [x]);
    }

    /** The cases of mbus_client_reset and of the sweep by kind and identifier of a request that is over
        without a response. */
    method NotifyUnanswered(r: Item, how: How, status: Status)
      requires Valid() && ((how.TimedOut? && status == Timeout) || (how == Canceled && status == Cancel))
      modifies `history
      ensures Valid() && View() == Completed(old(View()), r, how)
    {
      hide Mbus;
      Retire(r, how);
      if r.kind == TYPE_EVENT {
        if r.destination != SERVER && r.identifier != PING {
          Call(ToPublish, r.serial, status);
        }
      } else if r.kind == TYPE_COMMAND {
        if r.identifier == "command.event" {
          Call(ToPublish, r.serial, status);
        } else if r.identifier == "command.subscribe" {
          Call(ToSubscribe, r.serial, status);
        } else if r.identifier == "command.unsubscribe" {
          Call(ToUnsubscribe, r.serial, status);
        } else if r.identifier == "command.register" {
          Call(ToRegister, r.serial, status);
        } else if r.identifier == "command.unregister" {
          Call(ToUnregister, r.serial, status);
        } else {
          Call(HandlerChannel(r.handler), r.serial, status);
        }
      }
      assert old(history).callbacks + [] == old(history).callbacks;
    }

    // ----- reset -----

    method Unplug()
      modifies `socket, `outgoing
      ensures Valid() == old(Valid()) && View() == Unplugged(old(View()))
    {
      socket := false;
      outgoing := [];
    }

    method Clear()
      modifies `identifier, `ping, `sequence, `draws, `compression, `socketConnected
      ensures Valid() == old(Valid()) && View() == Cleared(old(View()))
    {
      identifier := None;
      ping := NO_PING;
      sequence, draws := START, 0;
      compression := Uncompressed;
      socketConnected := false;
    }

    method Reset()
      requires Valid()
      modifies this
      ensures Valid() && View() == CS.Reset(old(View()))
      ensures !broken ==> |requests| + |pendings| <= old(|requests| + |pendings|)
      decreases |requests| + |pendings|, 3
    {
      hide CS.CancelRequests, CS.CancelPendings, CS.Reset, Cleared, Unplugged;
      ResetUnfolds(View());
      Unplug();
      CancelRequests();
      if broken {
        return;
      }
      CancelPendings();
      if broken {
        return;
      }
      Clear();
    }

    method CancelRequests()
      requires Valid()
      modifies this
      ensures Valid() && View() == CS.CancelRequests(old(View()))
      ensures !broken ==> |requests| + |pendings| <= old(|requests| + |pendings|)
      decreases |requests| + |pendings|, 1
    {
      hide CS.CancelRequests, CS.CreateFailed, Completed;
      while requests != []
        invariant Valid() && CS.CancelRequests(View()) == CS.CancelRequests(old(View()))
        invariant |requests| + |pendings| <= old(|requests| + |pendings|)
        decreases |requests|
      {
        RequestCanceled(View());
        var r := requests[0];
        requests := requests[1..];
        NotifyUnanswered(r, Canceled, Cancel);
        if r.handler.CreateHandler? {
          var next := requests != [];
          CreateFailed(ConnectCanceled);
          if next {
            broken := true;
          }
          return;
        }
      }
      NothingCanceled(View());
    }

    method CancelPendings()
      requires Valid()
      modifies this
      ensures Valid() && View() == CS.CancelPendings(old(View()))
      ensures !broken ==> |requests| + |pendings| <= old(|requests| + |pendings|)
      decreases |requests| + |pendings|, 2
    {
      hide CS.CancelPendings, CS.CreateFailed, Completed;
      while pendings != []
        invariant Valid() && CS.CancelPendings(View()) == CS.CancelPendings(old(View()))
        invariant |requests| + |pendings| <= old(|requests| + |pendings|)
        decreases |pendings|
      {
        PendingCanceled(View());
        var r := pendings[0];
        pendings := pendings[1..];
        NotifyUnanswered(r, Canceled, Cancel);
        if r.handler.CreateHandler? {
          var next := pendings != [];
          CreateFailed(ConnectCanceled);
          if next {
            broken := true;
          }
          return;
        }
      }
      NoneCanceled(View());
    }

    method CreateFailed(status: ConnectStatus)
      requires Valid()
      modifies this
      ensures Valid() && View() == CS.CreateFailed(old(View()), status)
      ensures !broken ==> |requests| + |pendings| <= old(|requests| + |pendings|)
      decreases |requests| + |pendings|, 4
    {
      hide CS.Reset, Signaled;
      ghost var before := View();
      Signal(OnConnect(status));
      SameLoad(before, OnConnect(status));
      Reset();
      Retry();
    }

    method Retry()
      modifies `state
      ensures state == Retrying(settings)
    {
      if settings.connectInterval > 0 {
        state := Connecting;
      } else {
        state := Disconnected;
      }
    }

    // ----- the create response -----

    method CreateAnswered(response: Json)
      requires Valid()
      modifies this
      ensures Valid() && View() == CS.CreateAnswered(old(View()), response)
    {
      hide CS.CreateFailed, StringAt, IntAt, LookUp, Mbus, Signaled;
      if IntAt(Some(response), TAG_STATUS, -1) != 0 {
        CreateFailed(ServerError);
        return;
      }
      var payload := LookUp(Some(response), TAG_PAYLOAD);
      if payload.None? {
        CreateFailed(ServerError);
        return;
      }
      var name := StringAt(payload, "identifier");
      if name.None? {
        CreateFailed(ServerError);
        return;
      }
      Configure(name, payload);
      Signal(OnConnect(ConnectSuccess));
    }

    /** What a successful create response brings. */
    method Configure(name: Option<string>, payload: Option<Json>)
      requires Valid()
      modifies `identifier, `compression, `ping, `state
      ensures
        var codec, e := StringAt(payload, "compression"), old(View());
        View() == e.(
          identifier := name, compression := CompressionNamed(if codec.None? then "none" else codec.value, e.settings.zlib),
          ping := e.ping.(interval := IntAt(payload, "ping/interval", -1), timeout := IntAt(payload, "ping/timeout", -1),
                          threshold := IntAt(payload, "ping/threshold", -1)),
          state := Connected)
    {
      hide StringAt, IntAt;
      identifier := name;
      var codec := StringAt(payload, "compression");
      compression := CompressionNamed(if codec.None? then "none" else codec.value, settings.zlib);
      ping := ping.(interval := IntAt(payload, "ping/interval", -1), timeout := IntAt(payload, "ping/timeout", -1),
                    threshold := IntAt(payload, "ping/threshold", -1));
      state := Connected;
    }

    // ----- connecting -----

    /** A failed attempt to connect is reported and the client reset. */
    method FailConnect(status: ConnectStatus)
      requires Valid()
      modifies this
      ensures Valid() && View() == CS.Reset(Signaled(old(View()), OnConnect(status)))
    {
      hide CS.Reset, Signaled;
      Signal(OnConnect(status));
      Reset();
    }

    method GiveUp(status: ConnectStatus, after: DisconnectStatus)
      requires Valid()
      modifies this
      ensures Valid() && View() == CS.GiveUp(old(View()), status, after)
    {
      hide CS.Reset, Signaled;
      FailConnect(status);
      Retry();
      if settings.connectInterval <= 0 {
        Signal(OnDisconnect(after));
      }
    }

    method Plug(connected: bool)
      modifies `socket, `socketConnected
      ensures socket && socketConnected == (connected || old(socketConnected))
    {
      socket := true;
      if connected {
        socketConnected := true;
      }
    }

    method RunConnect(attempt: Attempt, now: int) returns (ok: bool)
      requires Valid()
      modifies this
      ensures Valid() && (View(), ok) == CS.RunConnect(old(View()), attempt, now)
    {
      hide CS.Reset, CS.GiveUp, CS.RequestCreate, Signaled;
      Reset();
      ok := true;
      match attempt
      case BadProtocol =>
        FailConnect(InvalidProtocol);
        ok := false;
      case Failed =>
        FailConnect(ConnectInternalError);
        ok := false;
      case InProgress =>
        Plug(false);
      case Refused =>
        Plug(false);
        GiveUp(ConnectionRefused, DisconnectCanceled);
      case Unavailable =>
        Plug(false);
        GiveUp(ServerUnavailable, DisconnectCanceled);
      case Established =>
        Plug(true);
        ok := RequestCreate(now);
        if !ok {
          FailConnect(ConnectInternalError);
        }
    }

    // ----- messages -----

    method HandleResult(json: Json)
      requires Valid()
      modifies this
      ensures Valid() && View() == CS.HandleResult(old(View()), json)
    {
      hide IntAt, FindPending, Mbus, CS.CreateAnswered, Completed;
      var number := IntAt(Some(json), TAG_SEQUENCE, -1);
      var k := 0;
      while k < |pendings| && pendings[k].sequence != number
        invariant 0 <= k <= |pendings| && forall j | 0 <= j < k :: pendings[j].sequence != number
      {
        k := k + 1;
      }
      FirstPending(pendings, number, k);
      if k == |pendings| {
        return;
      }
      var r := pendings[k];
      pendings := pendings[..k] + pendings[k + 1..];
      NotifyAnswered(r, json);
      if r.handler.CreateHandler? {
        CreateAnswered(json);
      }
    }

    /** mbus_client_notify_command with a response: the request's handler is called. */
    method NotifyAnswered(r: Item, json: Json)
      requires Valid()
      modifies `history
      ensures Valid() && View() == Completed(old(View()), r, Answered(json))
    {
      hide IntAt, Mbus;
      Retire(r, Answered(json));
      Call(HandlerChannel(r.handler), r.serial, ResponseStatus(r.handler, json));
    }

    method NotePong(now: int)
      requires Valid()
      modifies `ping
      ensures View() == Ponged(old(View()), now)
    {
      ping := ping.(waiting := false);
      ping := ping.(received := now);
      ping := ping.(missed := 0, pings := [], misses := []);
    }

    method HandleEvent(json: Json, now: int) returns (ok: bool)
      requires Valid()
      modifies `ping
      ensures Valid() && (View(), ok) == CS.HandleEvent(old(View()), json, now)
    {
      hide StringAt, Mbus, Ponged;
      var source, name := StringAt(Some(json), TAG_SOURCE), StringAt(Some(json), TAG_IDENTIFIER);
      if source.None? || name.None? {
        return false;
      }
      if source.value == SERVER && name.value == PONG {
        NotePong(now);
      }
      return true;
    }

    method HandleCommand(json: Json, reply: Option<Reply>, now: int) returns (ok: bool)
      requires Valid()
      modifies this
      ensures Valid() && (View(), ok) == CS.HandleCommand(old(View()), json, reply, now)
    {
      hide StringAt, Mbus, Ponged, CS.Command, ReplyPayload;
      var source, name := StringAt(Some(json), TAG_SOURCE), StringAt(Some(json), TAG_IDENTIFIER);
      if source.None? || name.None? {
        return false;
      }
      if source.value == SERVER && name.value == PONG {
        NotePong(now);
        return true;
      }
      if reply.None? {
        return true;
      }
      ok := Command(UserHandler, SERVER, "command.result",
                    Some(ReplyPayload(source.value, name.value, json, reply.value)), 0, now);
    }

    method Receive(m: Incoming, now: int) returns (ok: bool)
      requires Valid()
      modifies this
      ensures Valid() && (View(), ok) == CS.Receive(old(View()), m, now)
    {
      hide Parse, StringAt, Mbus, CS.HandleResult, CS.HandleEvent, CS.HandleCommand;
      var json := Parse(m.text);
      if json.None? {
        NoJson();
        return false;
      }
      var kind := StringAt(json, TAG_TYPE);
      if kind.None? {
        return false;
      }
      if kind.value == TYPE_RESULT {
        HandleResult(json.value);
        ok := true;
      } else if kind.value == TYPE_EVENT {
        ok := HandleEvent(json.value, now);
      } else if kind.value == TYPE_COMMAND {
        ok := HandleCommand(json.value, m.reply, now);
      } else {
        ok := false;
      }
    }

    method ReceiveAll(messages: seq<Incoming>, now: int) returns (ok: bool)
      requires Valid()
      modifies this
      ensures Valid() && (View(), ok) == CS.ReceiveAll(old(View()), messages, now)
    {
      hide CS.Receive;
      var n := 0;
      while n < |messages| && socket
        invariant 0 <= n <= |messages| && Valid()
        invariant CS.ReceiveAll(View(), messages[n..], now) == CS.ReceiveAll(old(View()), messages, now)
      {
        assert messages[n..][1..] == messages[n + 1..];
        ok := Receive(messages[n], now);
        if !ok {
          return;
        }
        n := n + 1;
      }
      ok := true;
    }

    // ----- the sections at the end of a run -----

    method CheckConnecting(now: int)
      requires Valid()
      modifies this
      ensures Valid() && View() == CS.CheckConnecting(old(View()), now)
    {
      hide CS.GiveUp;
      if state == Connecting && socket && !socketConnected {
        if now > connectAt + settings.connectTimeout {
          GiveUp(ConnectTimeout, DisconnectInternalError);
        }
      }
    }

    method SendPing(now: int) returns (ok: bool)
      requires Valid()
      modifies this
      ensures Valid() && (View(), ok) == CS.SendPing(old(View()), now)
    {
      hide CS.Publish, Mbus;
      ping := ping.(sent := now, received := 0, waiting := true, pings := ping.pings + [now]);
      ok := Publish(Some(SERVER), PING, None, AtMostOnce, 0, now);
    }

    method NoteMissedPong(now: int)
      modifies `ping
      ensures ping == MissPong(old(ping), now)
    {
      if ping.waiting && ping.sent != 0 && ping.received == 0 && now > ping.sent + ping.timeout {
        ping := ping.(waiting := false, missed := ping.missed + 1, misses := ping.misses + [now]);
      }
    }

    method ReportPingTimeout()
      requires Valid()
      modifies this
      ensures Valid()
      ensures View() == CS.Reset(Signaled(old(View()), OnDisconnect(PingTimeout))).(state := Retrying(settings))
    {
      hide CS.Reset, Signaled;
      Signal(OnDisconnect(PingTimeout));
      Reset();
      Retry();
    }

    method CheckPing(now: int) returns (ok: bool)
      requires Valid()
      modifies this
      ensures Valid() && (View(), ok) == CS.CheckPing(old(View()), now)
    {
      hide CS.SendPing, MissPong, CS.Reset, Signaled;
      if state != Connected || ping.interval <= 0 {
        return true;
      }
      if !ping.waiting && now > ping.sent + ping.interval {
        ok := SendPing(now);
        if !ok {
          return;
        }
      }
      NoteMissedPong(now);
      if ping.missed > ping.threshold {
        ReportPingTimeout();
      }
      ok := true;
    }

    method TimeOut(r: Item, now: int)
      requires Valid()
      modifies this
      ensures Valid() && View() == CS.TimeOut(old(View()), r, now)
    {
      hide CS.CreateFailed, Completed;
      NotifyUnanswered(r, TimedOut(now), Timeout);
      if r.handler.CreateHandler? {
        CreateFailed(ConnectTimeout);
      }
    }

    method SweepRequests(now: int)
      requires Valid()
      modifies this
      ensures Valid() && View() == CS.SweepRequests(old(View()), 0, now)
    {
      hide CS.TimeOut, CS.SweepRequests, Expired;
      var k := 0;
      while k < |requests|
        invariant 0 <= k <= |requests| && Valid()
        invariant CS.SweepRequests(View(), k, now) == CS.SweepRequests(old(View()), 0, now)
        decreases |requests| - k
      {
        SweptRequest(View(), k, now);
        if !Late(requests[k], now) {
          k := k + 1;
          continue;
        }
        var r := requests[k];
        requests := requests[..k] + requests[k + 1..];
        var next := k < |requests|;
        TimeOut(r, now);
        if r.handler.CreateHandler? {
          if next {
            broken := true;
          }
          return;
        }
      }
      AllSwept(View(), k, now);
    }

    method SweepPendings(now: int)
      requires Valid()
      modifies this
      ensures Valid() && View() == CS.SweepPendings(old(View()), 0, now)
    {
      hide CS.TimeOut, CS.SweepPendings, Expired;
      var k := 0;
      while k < |pendings|
        invariant 0 <= k <= |pendings| && Valid()
        invariant CS.SweepPendings(View(), k, now) == CS.SweepPendings(old(View()), 0, now)
        decreases |pendings| - k
      {
        SweptPending(View(), k, now);
        if !Late(pendings[k], now) {
          k := k + 1;
          continue;
        }
        var r := pendings[k];
        pendings := pendings[..k] + pendings[k + 1..];
        var next := k < |pendings|;
        TimeOut(r, now);
        if r.handler.CreateHandler? {
          if next {
            broken := true;
          }
          return;
        }
      }
      AllPendingSwept(View(), k, now);
    }

    /** The loop that writes the requests. */
    method Flush()
      requires Valid()
      modifies this
      ensures Valid() && View() == CS.Flush(old(View()))
    {
      hide CS.Flush, FlushOne;
      while requests != []
        invariant Valid() && CS.Flush(View()) == CS.Flush(old(View()))
        decreases |requests|
      {
        Flushed(View());
        Write();
      }
      NothingFlushed(View());
    }

    method Write()
      requires Valid() && requests != []
      modifies `requests, `pendings, `outgoing, `history
      ensures Valid() && View() == FlushOne(old(View())) && |requests| == |old(requests)| - 1
    {
      hide RequestText, Mbus;
      var r := requests[0];
      outgoing := outgoing + [Frame(compression, RequestText(r))];
      requests := requests[1..];
      if r.kind == TYPE_EVENT {
        NotifySent(r);
      } else {
        pendings := pendings + [r];
      }
    }

    method NotifySent(r: Item)
      requires Valid()
      modifies `history
      ensures Valid() && View() == Completed(old(View()), r, Sent)
    {
      hide Mbus;
      Retire(r, Sent);
      if r.destination != SERVER && r.identifier != PING {
        Call(ToPublish, r.serial, Success);
      }
      assert old(history).callbacks + [] == old(history).callbacks;
    }

    method Finish(now: int) returns (ok: bool)
      requires Valid()
      modifies this
      ensures Valid() && (View(), ok) == CS.Finish(old(View()), now)
    {
      hide CS.CheckPing, CS.CheckConnecting, CS.SweepRequests, CS.SweepPendings, CS.Flush;
      CheckConnecting(now);
      ok := CheckPing(now);
      if !ok || broken {
        return false;
      }
      SweepRequests(now);
      if broken {
        return false;
      }
      SweepPendings(now);
      if broken {
        return false;
      }
      Flush();
    }

    // ----- mbus_client_run -----

    method Begin(attempt: Attempt, now: int) returns (h: Head)
      requires Valid()
      modifies this
      ensures Valid() && (View(), h) == CS.Begin(old(View()), attempt, now)
    {
      hide CS.Reset, CS.RunConnect, Signaled;
      h := Polls;
      match state
      case Connecting =>
        if !socket && (settings.connectInterval <= 0 || now >= connectAt + settings.connectInterval) {
          connectAt := now;
          var ok := RunConnect(attempt, now);
          h := if ok then Polls else Fails;
        }
      case Connected =>
      case Disconnecting =>
        HangUp(Requested);
        h := Skips;
      case Disconnected =>
        if settings.connectInterval > 0 {
          state := Connecting;
          h := Skips;
        }
    }

    method HangUp(status: DisconnectStatus)
      requires Valid()
      modifies this
      ensures Valid()
      ensures View() == Signaled(CS.Reset(old(View())).(state := Disconnected), OnDisconnect(status))
    {
      hide CS.Reset, Signaled;
      Reset();
      state := Disconnected;
      Signal(OnDisconnect(status));
    }

    method FinishConnecting(attempt: Attempt, now: int) returns (h: Head)
      requires Valid()
      modifies this
      ensures Valid() && (View(), h) == CS.FinishConnecting(old(View()), attempt, now)
    {
      hide CS.RequestCreate, CS.GiveUp, Signaled;
      if attempt == Established {
        socketConnected := true;
        var ok := RequestCreate(now);
        h := if ok then Polls else Fails;
      } else if attempt == Refused {
        GiveUp(ConnectionRefused, DisconnectCanceled);
        h := Skips;
      } else {
        Signal(OnConnect(ConnectInternalError));
        h := Fails;
      }
    }

    method BeforeDecode(p: Poll, now: int) returns (h: Head)
      requires Valid()
      modifies this
      ensures Valid() && (View(), h) == CS.BeforeDecode(old(View()), p, now)
    {
      hide CS.Reset, CS.FinishConnecting, Signaled;
      match p
      case Idle => h := Skips;
      case PollError => h := Fails;
      case Ready(closed, attempt, writeError, messages) =>
        h := Polls;
        if !socket {
          return;
        }
        if closed {
          HangUp(ConnectionClosed);
          return Skips;
        }
        if state == Connecting && !socketConnected {
          if attempt.Some? {
            h := FinishConnecting(attempt.value, now);
          }
        } else if writeError && outgoing != [] {
          h := Fails;
        }
    }

    method Serve(p: Poll, now: int) returns (h: Head)
      requires Valid()
      modifies this
      ensures Valid() && (View(), h) == CS.Serve(old(View()), p, now)
    {
      hide CS.BeforeDecode, CS.ReceiveAll;
      h := BeforeDecode(p, now);
      if h == Polls {
        var ok := ReceiveAll(Messages(p), now);
        h := if ok then Polls else Fails;
      }
    }

    method Run(input: Input) returns (ok: bool)
      requires Valid()
      modifies this
      ensures Valid() && (View(), ok) == CS.Run(old(View()), input)
    {
      hide CS.Begin, CS.Serve, CS.Finish;
      var h := Begin(input.attempt, input.now);
      if broken || h == Fails {
        return false;
      }
      if h == Polls {
        h := Serve(input.poll, input.now);
      }
      if broken || h == Fails {
        return false;
      }
      ok := Finish(input.now);
    }

    method Connect()
      requires Valid() && !broken
      modifies this
      ensures Valid() && View() == Apply(old(View()), Operation.Connect)
    {
      if state != Connected && state != Connecting {
        state := Connecting;
      }
    }

    method Disconnect()
      requires Valid() && !broken
      modifies this
      ensures Valid() && View() == Apply(old(View()), Operation.Disconnect)
    {
      if state != Disconnected {
        state := Disconnecting;
      }
    }
  }

  predicate Late(r: Item, now: int)
    ensures Late(r, now) == Expired(r, now)
  {
    !(r.timeout < 0 || now < r.created + r.timeout)
  }

  lemma SweptRequest(e: Engine, k: nat, now: int)
    requires k < |e.requests|
    ensures
      var r, rest := e.requests[k], e.requests[..k] + e.requests[k + 1..];
      var d := CS.TimeOut(e.(requests := rest), r, now);
      CS.SweepRequests(e, k, now) ==
        if !Expired(r, now) then CS.SweepRequests(e, k + 1, now)
        else if !r.handler.CreateHandler? then CS.SweepRequests(d, k, now)
        else if k < |rest| then d.(broken := true)
        else d
    ensures !e.requests[k].handler.CreateHandler? ==>
      CS.TimeOut(e.(requests := e.requests[..k] + e.requests[k + 1..]), e.requests[k], now).requests
      == e.requests[..k] + e.requests[k + 1..]
  {
    hide Expired, CS.CreateFailed, CallbackOf;
  }

  lemma AllSwept(e: Engine, k: nat, now: int)
    requires k >= |e.requests|
    ensures CS.SweepRequests(e, k, now) == e
  {
  }

  lemma SweptPending(e: Engine, k: nat, now: int)
    requires k < |e.pendings|
    ensures
      var r, rest := e.pendings[k], e.pendings[..k] + e.pendings[k + 1..];
      var d := CS.TimeOut(e.(pendings := rest), r, now);
      CS.SweepPendings(e, k, now) ==
        if !Expired(r, now) then CS.SweepPendings(e, k + 1, now)
        else if !r.handler.CreateHandler? then CS.SweepPendings(d, k, now)
        else if k < |rest| then d.(broken := true)
        else d
    ensures !e.pendings[k].handler.CreateHandler? ==>
      CS.TimeOut(e.(pendings := e.pendings[..k] + e.pendings[k + 1..]), e.pendings[k], now).pendings
      == e.pendings[..k] + e.pendings[k + 1..]
  {
    hide Expired, CS.CreateFailed, CallbackOf;
  }

  lemma AllPendingSwept(e: Engine, k: nat, now: int)
    requires k >= |e.pendings|
    ensures CS.SweepPendings(e, k, now) == e
  {
  }

  lemma Flushed(e: Engine)
    requires e.requests != []
    ensures CS.Flush(e) == CS.Flush(FlushOne(e))
  {
    hide FlushOne;
  }

  lemma NothingFlushed(e: Engine)
    requires e.requests == []
    ensures CS.Flush(e) == e
  {
  }

  lemma SameLoad(e: Engine, x: Signal)
    ensures Load(Signaled(e, x)) == Load(e)
  {
  }

  lemma NoJson()
    ensures StringAt(None, TAG_TYPE) == None
  {
    hide Mbus;
  }

  lemma RequestCanceled(e: Engine)
    requires e.requests != []
    ensures
      var r, rest := e.requests[0], e.requests[1..];
      var d := Completed(e.(requests := rest), r, Canceled);
      CS.CancelRequests(e) ==
        if !r.handler.CreateHandler? then CS.CancelRequests(d)
        else if rest != [] then CS.CreateFailed(d, ConnectCanceled).(broken := true)
        else CS.CreateFailed(d, ConnectCanceled)
  {
    hide CS.Reset, CallbackOf;
  }

  lemma NothingCanceled(e: Engine)
    requires e.requests == []
    ensures CS.CancelRequests(e) == e
  {
  }

  lemma PendingCanceled(e: Engine)
    requires e.pendings != []
    ensures
      var r, rest := e.pendings[0], e.pendings[1..];
      var d := Completed(e.(pendings := rest), r, Canceled);
      CS.CancelPendings(e) ==
        if !r.handler.CreateHandler? then CS.CancelPendings(d)
        else if rest != [] then CS.CreateFailed(d, ConnectCanceled).(broken := true)
        else CS.CreateFailed(d, ConnectCanceled)
  {
    hide CS.Reset, CallbackOf;
  }

  lemma NoneCanceled(e: Engine)
    requires e.pendings == []
    ensures CS.CancelPendings(e) == e
  {
  }
}

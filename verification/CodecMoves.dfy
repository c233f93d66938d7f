/** What the moves of a connection stand for: how it starts, and which steps of the broker they are. */
module CodecMoves {
  import opened Options
  import opened Compress
  import opened JsonText
  import opened Methods
  import B = BrokerState
  import opened BrokerInvariant
  import opened BrokerReap
  import opened BrokerLink
  import opened ClientState
  import opened ClientInvariant
  import opened ClientRun
  import opened CodecText
  import opened CodecLink
  import opened CodecAgreement

  // ----- how a connection starts -----

  lemma OfflineRests(e: Engine, p: Poll, now: int)
    requires !e.broken && Load(e) == 0 && !e.socket && !e.state.Connected?
    ensures Finish(e, now) == (e, true)
    ensures var (d, h) := Serve(e, p, now); d == e
  {
    hide FinishConnecting, Receive, Reset;
  }

  lemma ConnectedFresh(e: Engine, s: Settings, attempt: Attempt, now: int)
    requires Sound(e) && e.state.Connecting? && !e.socket && e.settings == s && ExactSettings(s)
    ensures
      var (d, ok) := RunConnect(e, attempt, now);
      && Sound(d) && (!d.socket ==> Load(d) == 0 && !d.state.Connected?)
      && (d.socket ==> Unsent(d, s) && d.state.Connecting?)
  {
    hide Sound, Reset, RequestCreate, GiveUp, Fallow, ExactSettings, OwnCreate;
    IdleWithoutSocket(e);
    NothingToCreate(e);
    RunConnectSound(e, attempt, now);
    ResetSound(e, Reset(e).(state := e.state));
    ResetKeepsState(e);
    var d := Reset(e);
    FallowIs(Reset(e).(state := e.state));
    SocketSound(d, d.(socket := true));
    GaveUp(d.(socket := true), ConnectionRefused, DisconnectCanceled);
    GaveUp(d.(socket := true), ServerUnavailable, DisconnectCanceled);
    GoneIs(GiveUp(d.(socket := true), ConnectionRefused, DisconnectCanceled));
    GoneIs(GiveUp(d.(socket := true), ServerUnavailable, DisconnectCanceled));
    ResetsIdle(d, OnConnect(InvalidProtocol));
    ResetsIdle(d, OnConnect(ConnectInternalError));
    var ready := d.(socket := true, socketConnected := true);
    SocketSound(d, ready);
    OwnCreateQueued(ready, s, now);
    RequestCreateGoesOn(ready, now);
    RequestCreateSound(ready, now);
    if !RequestCreate(ready, now).1 {
      ResetsIdle(ready, OnConnect(ConnectInternalError));
    }
  }

  lemma NothingToCreate(e: Engine)
    requires Load(e) == 0
    ensures e.requests == [] && e.pendings == []
  {
  }

  lemma FallowIs(e: Engine)
    requires Fallow(e)
    ensures e.requests == [] && e.pendings == [] && e.outgoing == [] && e.compression == Uncompressed && !e.socket
  {
  }

  lemma GoneIs(e: Engine)
    requires Gone(e)
    ensures !e.socket && Load(e) == 0 && !e.state.Connected?
  {
    hide Sound;
  }

  lemma ResetsIdle(e: Engine, x: Signal)
    requires Sound(e) && Load(e) == 0 && e.state.Connecting?
    ensures var d := Reset(Signaled(e, x)); !d.socket && Load(d) == 0 && !d.state.Connected?
  {
    hide Sound, Reset;
    SignalReset(e, x);
    SignaledSound(e, x);
    ResetSound(Signaled(e, x), Reset(Signaled(e, x)).(state := e.state));
  }

  /** However a client comes by a connection: at the end of that run nothing is written, or just its
      create request. */
  lemma ConnectingRun(e: Engine, s: Settings, input: Input)
    requires Sound(e) && e.state.Connecting? && !e.socket && e.settings == s && ExactSettings(s) && Messages(input.poll) == []
    ensures
      var d := Run(e, input).0;
      d.socket ==> Unsent(d, s) || exists q :: Asking(d, s, q)
  {
    hide Sound, Unsent, Asking, RunConnect, Serve, Finish, ExactSettings, Gone, BeforeDecode;
    IdleWithoutSocket(e);
    SoundAccount(e);
    OfflineRests(e, input.poll, input.now);
    var f := e.(connectAt := input.now);
    SocketSound(e, f);
    ConnectedFresh(f, s, input.attempt, input.now);
    var (a, ok) := RunConnect(f, input.attempt, input.now);
    SoundAccount(a);
    if !a.socket {
      OfflineRests(a, input.poll, input.now);
    } else {
      FreshServes(a, s, input.poll, input.now);
      var (b, i) := Serve(a, input.poll, input.now);
      if !Unsent(b, s) {
        GoneFinish(b, input.now);
        GoneDark(b);
      } else {
        if Gone(b) { GoneDark(b); }
        UnsentSound(b, s);
        UnsentFinish(b, s, input.now);
        if Gone(Finish(b, input.now).0) { GoneDark(Finish(b, input.now).0); }
        UnsentFinish(a, s, input.now);
        if Gone(Finish(a, input.now).0) { GoneDark(Finish(a, input.now).0); }
      }
    }
  }

  lemma FreshServes(e: Engine, s: Settings, p: Poll, now: int)
    requires Unsent(e, s) && e.state.Connecting? && ExactSettings(s) && Messages(p) == []
    ensures var (d, h) := Serve(e, p, now);
      (Gone(d) && !h.Polls?) || (Unsent(d, s) && d.state.Connecting?)
  {
    hide Sound, Unsent, ExactSettings, Gone, BeforeDecode;
    UnsentBeforeDecode(e, s, p, now);
    NoMessages(BeforeDecode(e, p, now).0, [], now);
  }

  // ----- which steps of the broker the moves are -----

  /** Handling a method: for its sender a BrokerHandles, for everybody else a BrokerOther. */
  lemma MethodMoves(s: B.Server, m: Request, i: nat, k: nat)
    requires !s.crashed && B.Locate(s.clients, m.source) == Some(i) && i < |s.clients| && k < |s.clients|
    requires !B.HandleMethod(s, m).crashed
    ensures
      var ds := B.HandleMethod(s, m).clients;
      && |ds| == |s.clients|
      && (k == i ==> HandledAs(s.clients[k], ds[k], m, s.zlib))
      && (k != i ==> Still(s.clients[k], ds[k], false))
  {
    hide B.HandleMethod, Still, Served, Created, Mbus, B.Locate, IsCreate;
    if k != i {
      OthersLeft(s, m, i, k);
    } else if m.kind != TYPE_COMMAND {
      EventStepped(s, m, i);
    } else if IsCreate(m) {
      CreateStepped(s, m, i);
    } else {
      CommandStepped(s, m, i);
    }
  }

  /** The other steps of a turn are BrokerOther for every client. */
  lemma PassiveMoves(s: B.Server, k: nat, j: nat, now: int)
    requires k < |s.clients| && j < |s.clients|
    ensures Still(s.clients[k], B.CheckPings(s, now).clients[k], false)
    ensures Still(s.clients[k], B.AcceptAll(s).clients[k], false)
    ensures Still(s.clients[k], B.Accept(s).clients[k], false)
    ensures forall code :: Still(s.clients[k], s.clients[j := B.Closed(s.clients[j], code)][k], false)
    ensures |B.Welcome(s, j, now).clients| == |s.clients| && Still(s.clients[k], B.Welcome(s, j, now).clients[k], false)
  {
    hide Still, B.Tell, B.PingCheck;
    var c := s.clients[k];
    SelfStill(c);
    PingCheckFace(c, now);
    SameCallsStill(c, B.PingCheck(c, now), false);
    SameCallsStill(c, c.(accepted := true), false);
    forall code ensures Still(s.clients[k], s.clients[j := B.Closed(s.clients[j], code)][k], false) {
      SameCallsStill(c, B.Closed(c, code), false);
    }
    WelcomeStill(s, k, j, now);
  }

  lemma PingCheckFace(c: B.Client, now: int)
    ensures B.PingCheck(c, now) == c.(ping := B.PingCheck(c, now).ping, open := B.PingCheck(c, now).open, closeCode := B.PingCheck(c, now).closeCode)
  {
  }

  lemma TellStill(cs: seq<B.Client>, event: string, payload: Json, now: int)
    ensures var ds := B.Tell(cs, event, payload, now); |ds| == |cs| && forall k | 0 <= k < |cs| :: Still(cs[k], ds[k], false)
  {
    hide Still, B.SendEvent, Mbus;
    SendEventStill(cs, Some(SERVER), SUBSCRIBERS, Mbus("server.event." + event), Some(payload), now);
  }

  lemma WelcomeStill(s: B.Server, k: nat, j: nat, now: int)
    requires k < |s.clients| && j < |s.clients|
    ensures |B.Welcome(s, j, now).clients| == |s.clients| && Still(s.clients[k], B.Welcome(s, j, now).clients[k], false)
  {
    hide Still, B.Tell;
    var c := s.clients[j];
    SelfStill(s.clients[k]);
    SameCallsStill(c, c.(connected := true), false);
    if B.Welcome(s, j, now) != s {
      var cs := s.clients[j := c.(connected := true)];
      TellStill(cs, "connected", Object([Member("source", String(c.identifier.value))]), now);
      StillTwice(s.clients[k], cs[k], B.Welcome(s, j, now).clients[k], false);
    }
  }

  /** Reaping another client is a BrokerOther for those that stay. */
  lemma ReapMoves(s: B.Server, i: nat, k: nat, now: int)
    requires i < |s.clients| && s.methods == [] && k < |s.clients| - 1
    ensures
      var ds := B.ReapOne(s, i, now).clients;
      |ds| == |s.clients| - 1 && Still(s.clients[if k < i then k else k + 1], ds[k], false)
  {
    hide Still, B.Tell, Left, B.ReapOne, B.Bereave;
    var leaver, c := s.clients[i], s.clients[if k < i then k else k + 1];
    ReapUnfolds(s, i, now);
    LeftAt(s.clients, i, k);
    BereavedStill(c, leaver.identifier);
    if leaver.connected && leaver.identifier.Some? {
      TellStill(Left(s.clients, i), "disconnected", Object([Member("source", String(leaver.identifier.value)),
                Member("reason", String(B.CloseReason(leaver.closeCode)))]), now);
      StillTwice(c, Left(s.clients, i)[k], B.ReapOne(s, i, now).clients[k], false);
    }
  }

  lemma InWaits(waits: seq<Request>, w: Request, r: Request)
    requires w in waits && Core(w) == Core(r)
    ensures FromWaits(waits, r)
  {
    var n :| 0 <= n < |waits| && waits[n] == w;
  }

  lemma BereavedStill(c: B.Client, name: Option<string>)
    ensures Still(c, B.Bereave(c, name), false)
  {
    hide B.OtherWaits, B.Orphans, SetResultCode, FromWaits, Core;
    var d := B.Bereave(c, name);
    SelfStill(c);
    if name.Some? {
      OtherWaitsAre(c.waits, name.value);
      OrphansAre(c.waits, name.value);
      forall k | |c.results| <= k < |d.results| ensures FromWaits(c.waits, d.results[k]) {
        assert d.results[k] in B.Orphans(c.waits, name.value);
        var w :| w in c.waits && d.results[k] == SetResultCode(w, -1);
        CodedCore(w, -1);
        InWaits(c.waits, w, d.results[k]);
      }
      forall k | 0 <= k < |d.waits| ensures FromWaits(c.waits, d.waits[k]) {
        InWaits(c.waits, d.waits[k], d.waits[k]);
      }
    }
  }

  /** Emission is the move of that name. */
  lemma EmitMoves(s: B.Server, k: nat, l: Link)
    requires k < |s.clients| && l.peer == s.clients[k]
    ensures B.Emit(s).clients[k] == Next(l, BrokerEmits).peer
  {
    hide B.EmitOne;
  }

  /** So is the arrival of a message. */
  lemma ArrivalMoves(s: B.Server, k: nat, l: Link, now: int, draw: string)
    requires k < |s.clients| && l.peer == s.clients[k] && l.taken < |l.up|
    ensures
      var t := B.Receive(s, k, B.Arrival(l.up[l.taken].text, now, draw)).0;
      var n := Next(l, BrokerDecodes(now, draw));
      && |t.clients| == |s.clients| && t.clients[k] == n.peer
      && |n.ms| >= |l.ms| && n.ms[..|l.ms|] == l.ms && t.methods == s.methods + n.ms[|l.ms|..]
  {
    hide CreateRequest, Mbus, B.Receive, B.Closed;
    var m := CreateRequest(l.peer.handle, l.up[l.taken].text, now, draw);
    Arrives(s, k, B.Arrival(l.up[l.taken].text, now, draw), m);
    if m.None? || m.value.kind !in {TYPE_COMMAND, TYPE_EVENT} {
      assert s.methods + [] == s.methods;
    } else {
      assert (l.ms + [m.value])[|l.ms|..] == [m.value];
    }
  }

  lemma Arrives(s: B.Server, k: nat, a: B.Arrival, m: Option<Request>)
    requires k < |s.clients| && m == CreateRequest(s.clients[k].handle, a.text, a.now, a.draw)
    ensures
      var t, c := B.Receive(s, k, a).0, s.clients[k];
      |t.clients| == |s.clients|
      && if m.None? || m.value.kind !in {TYPE_COMMAND, TYPE_EVENT} then
           t.clients[k] == B.Closed(c, B.InternalError) && t.methods == s.methods
         else
           t.clients[k] == (if m.value.kind == TYPE_COMMAND then c.(log := c.log + [m.value]) else c)
           && t.methods == s.methods + [m.value]
  {
    hide CreateRequest, Mbus, B.Closed;
  }
}

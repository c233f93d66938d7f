/** How a client comes by a connection and how it loses one: when it tries, what it makes of each outcome, and
    what it tells its application. */
module ClientConnecting {
  import opened Options
  import opened JsonText
  import opened Methods
  import opened ClientState
  import opened ClientInvariant
  import opened ClientRun
  import opened ClientAnswers
  import opened ClientRequests

  /** Nothing is left of a connection, the state is the given one, and these are the signals more. */
  ghost predicate Ends(e: Engine, d: Engine, state: State, told: seq<Signal>) {
    && Fallow(d) && !d.broken && d.settings == e.settings && d.state == state
    && d.history.accepted == e.history.accepted && d.history.signals == e.history.signals + told
  }

  /** An attempt that failed: with an interval the client tries again, without it rests and says so. */
  ghost predicate Missed(e: Engine, d: Engine, status: ConnectStatus, after: DisconnectStatus) {
    if e.settings.connectInterval > 0 then Ends(e, d, Connecting, [OnConnect(status)])
    else Ends(e, d, Disconnected, [OnConnect(status), OnDisconnect(after)])
  }

  lemma ResetEnds(e: Engine)
    requires Sound(e) && NoCreates(e)
    ensures Ends(e, Reset(e), e.state, [])
  {
    hide Accounted, Reset, Rising, PingsOk;
    ResetResets(e);
    assert e.history.signals + [] == e.history.signals;
  }

  lemma SignalsJoin(a: seq<Signal>, x: Signal, y: Signal)
    ensures (a + [x]) + [y] == a + [x, y] && a + [] == a
  {
  }

  lemma GiveUpMisses(e: Engine, status: ConnectStatus, after: DisconnectStatus)
    requires Sound(e) && NoCreates(e)
    ensures Missed(e, GiveUp(e, status, after), status, after)
  {
    hide Sound, Reset, NoCreates, Fallow;
    var s := Signaled(e, OnConnect(status));
    SignaledSound(e, OnConnect(status));
    SignaledPlain(e, OnConnect(status));
    ResetEnds(s);
    SignalsJoin(e.history.signals, OnConnect(status), OnDisconnect(after));
    assert s.history.signals + [] == s.history.signals;
    StateFallow(Reset(s), Connecting);
    StateFallow(Reset(s), Disconnected);
    SignalFallow(Reset(s).(state := Disconnected), OnDisconnect(after));
  }

  lemma SignaledPlain(e: Engine, x: Signal)
    requires NoCreates(e)
    ensures NoCreates(Signaled(e, x))
  {
  }

  lemma StateFallow(e: Engine, state: State)
    requires Fallow(e)
    ensures Fallow(e.(state := state))
  {
  }

  lemma SignalFallow(e: Engine, x: Signal)
    requires Fallow(e)
    ensures Fallow(Signaled(e, x))
  {
  }

  lemma IdlePlain(e: Engine)
    requires Sound(e) && e.state.Connecting? && !(e.socket && e.socketConnected)
    ensures NoCreates(e) && Load(e) == 0
  {
    IdleWithoutSocket(e);
  }

  /** The client is connecting over a new socket and its create request, with what its settings ask for, is
      the one request there is. */
  ghost predicate Asks(e: Engine, d: Engine, now: int) {
    exists c: Engine ::
      && Fallow(c) && c.state == Connecting && c.settings == e.settings && c.history.signals == e.history.signals
      && c.history.accepted == e.history.accepted
      && Joins(c.(socket := true, socketConnected := true), d, TYPE_COMMAND, "org.mbus.server", "command.create", CreateData(e.settings),
               CreateHandler, e.settings.commandTimeout, now)
  }

  /** A connecting client without a socket tries when its interval is over, or at once if it has none, and
      notes the time; before that nothing happens. What becomes of the attempt: */
  lemma AttemptMade(e: Engine, attempt: Attempt, now: int)
    requires Sound(e) && e.state.Connecting? && !e.socket && e.settings.commandTimeout >= 0
    ensures
      var (d, h) := Begin(e, attempt, now);
      if !(e.settings.connectInterval <= 0 || now >= e.connectAt + e.settings.connectInterval) then d == e && h == Polls
      else
        && d.connectAt == now
        && match attempt
           case BadProtocol => h == Fails && Ends(e, d, Connecting, [OnConnect(InvalidProtocol)])
           case Failed => h == Fails && Ends(e, d, Connecting, [OnConnect(ConnectInternalError)])
           case InProgress => h == Polls && d.socket && !d.socketConnected && Ends(e, d.(socket := false), Connecting, [])
           case Refused => h == Polls && Missed(e, d, ConnectionRefused, DisconnectCanceled)
           case Unavailable => h == Polls && Missed(e, d, ServerUnavailable, DisconnectCanceled)
           case Established => h == Polls && Asks(e, d, now)
  {
    hide Sound, Reset, GiveUp, RequestCreate, Fallow, NoCreates, Mbus, Joins;
    IdlePlain(e);
    var f := e.(connectAt := now);
    SocketSound(e, f);
    IdlePlain(f);
    ResetEnds(f);
    var d := Reset(f);
    ResetKeepsState(f);
    SoundAccount(f);
    ResetTime(f);
    FailedEnds(d, InvalidProtocol);
    FailedEnds(d, ConnectInternalError);
    var plugged := d.(socket := true);
    SocketSound(d, plugged);
    FallowPlain(d);
    GiveUpMisses(plugged, ConnectionRefused, DisconnectCanceled);
    GiveUpMisses(plugged, ServerUnavailable, DisconnectCanceled);
    GiveUpTime(plugged, ConnectionRefused, DisconnectCanceled);
    GiveUpTime(plugged, ServerUnavailable, DisconnectCanceled);
    assert e.history.signals + [] == e.history.signals;
    assert d.(socket := true).(socket := false) == d;
    CreateAsked(d, now);
  }

  lemma ResetTime(e: Engine)
    requires !e.broken
    ensures Reset(e).connectAt == e.connectAt && Reset(e).settings == e.settings
  {
    hide Accounted, Reset;
    ResetResets(e);
  }

  lemma GiveUpTime(e: Engine, status: ConnectStatus, after: DisconnectStatus)
    requires !e.broken
    ensures GiveUp(e, status, after).connectAt == e.connectAt
  {
    hide Reset;
    ResetTime(Signaled(e, OnConnect(status)));
  }

  lemma FallowPlain(e: Engine)
    requires Fallow(e)
    ensures NoCreates(e) && NoCreates(e.(socket := true)) && Load(e) == 0 && !e.socket && !e.socketConnected && e.sequence == 1
  {
  }

  lemma FailedEnds(e: Engine, status: ConnectStatus)
    requires Sound(e) && Fallow(e) && !e.broken
    ensures Ends(e, Reset(Signaled(e, OnConnect(status))), e.state, [OnConnect(status)])
    ensures Reset(Signaled(e, OnConnect(status))).connectAt == e.connectAt
  {
    hide Sound, Reset, Fallow, NoCreates;
    FallowPlain(e);
    var s := Signaled(e, OnConnect(status));
    SignaledSound(e, OnConnect(status));
    SignaledPlain(e, OnConnect(status));
    ResetEnds(s);
    ResetTime(s);
    assert s.history.signals + [] == s.history.signals;
  }

  lemma CreateAsked(d: Engine, now: int)
    requires Fallow(d) && d.state.Connecting? && d.settings.commandTimeout >= 0
    ensures
      var f := d.(socket := true, socketConnected := true);
      var (g, ok) := RequestCreate(f, now);
      ok && g.connectAt == d.connectAt
      && Joins(f, g, TYPE_COMMAND, "org.mbus.server", "command.create", CreateData(d.settings), CreateHandler, d.settings.commandTimeout, now)
  {
    hide Command, CreateData, Mbus, Joins;
    NamesSpelled();
    FallowPlain(d);
    var f := d.(socket := true, socketConnected := true);
    CommandQueued(f, CreateHandler, SERVER, "command.create", Some(CreateData(d.settings)), 0, now);
    JoinsTime(f, RequestCreate(f, now).0, CreateData(d.settings), d.settings.commandTimeout, now);
  }

  lemma JoinsTime(f: Engine, g: Engine, data: Json, timeout: int, now: int)
    ensures Joins(f, g, TYPE_COMMAND, "org.mbus.server", "command.create", data, CreateHandler, timeout, now) ==> g.connectAt == f.connectAt
  {
  }

  /** An attempt under way is given up once it takes longer than its timeout. */
  lemma AttemptTimesOut(e: Engine, now: int)
    requires Sound(e)
    ensures
      var d := CheckConnecting(e, now);
      if e.state.Connecting? && e.socket && !e.socketConnected && now > e.connectAt + e.settings.connectTimeout then
        Missed(e, d, ConnectTimeout, DisconnectInternalError)
      else d == e
  {
    hide Sound, GiveUp, NoCreates, Missed;
    if e.state.Connecting? && e.socket && !e.socketConnected {
      IdlePlain(e);
      GiveUpMisses(e, ConnectTimeout, DisconnectInternalError);
    }
  }

  /** The end of an attempt that was under way: the socket is connected and the create request queued, or the
      broker refused. */
  lemma AttemptEnds(e: Engine, now: int)
    requires Sound(e) && e.state.Connecting? && e.socket && !e.socketConnected && e.settings.commandTimeout >= 0
    ensures
      var (d, h) := FinishConnecting(e, Established, now);
      h == Polls
      && Joins(e.(socketConnected := true), d, TYPE_COMMAND, "org.mbus.server", "command.create", CreateData(e.settings), CreateHandler,
               e.settings.commandTimeout, now)
    ensures var (d, h) := FinishConnecting(e, Refused, now); h == Skips && Missed(e, d, ConnectionRefused, DisconnectCanceled)
  {
    hide Sound, GiveUp, NoCreates, Missed, Command, CreateData, Mbus, Joins;
    NamesSpelled();
    IdlePlain(e);
    SequenceOk(e);
    GiveUpMisses(e, ConnectionRefused, DisconnectCanceled);
    CommandQueued(e.(socketConnected := true), CreateHandler, SERVER, "command.create", Some(CreateData(e.settings)), 0, now);
  }

  /** A connected client that was told to disconnect, or whose broker hangs up, is disconnected, has nothing
      left of the connection, and says why. */
  lemma ConnectionEnds(e: Engine, attempt: Attempt, messages: seq<Incoming>, connecting: Option<Attempt>, writeError: bool, now: int)
    requires Sound(e) && NoCreates(e)
    ensures e.state.Disconnecting? ==>
      var (d, h) := Begin(e, attempt, now); h == Skips && Ends(e, d, Disconnected, [OnDisconnect(Requested)])
    ensures !e.state.Disconnecting? && e.socket ==>
      var (d, h) := BeforeDecode(e, Ready(true, connecting, writeError, messages), now);
      h == Skips && Ends(e, d, Disconnected, [OnDisconnect(ConnectionClosed)])
  {
    hide Sound, Reset, NoCreates, Fallow;
    ResetEnds(e);
    StateFallow(Reset(e), Disconnected);
    SignalFallow(Reset(e).(state := Disconnected), OnDisconnect(Requested));
    SignalFallow(Reset(e).(state := Disconnected), OnDisconnect(ConnectionClosed));
    assert e.history.signals + [] == e.history.signals;
  }
}

/** What it takes to bring the broker down, from its start and as bytes on a connection. */
module BrokerBreak {
  import opened Options
  import opened JsonStrings
  import opened JsonText
  import opened JsonPath
  import opened Methods
  import opened BrokerState
  import opened BrokerCalls
  import opened CodecText
  import C = ClientState

  /** A command to unregister a command of that name, as a client writes it. */
  function UnregisterItem(name: string): C.Item {
    C.Item(TYPE_COMMAND, SERVER, "command.unregister", START, Object([Member("command", String(name))]), C.UserHandler, 0, 0, 0, 0)
  }

  function UnregisterRequest(name: string, now: int): Request {
    Request(TYPE_COMMAND, SERVER, "command.unregister", START, Object([Member("command", String(name))]), 0, now, "", InitialResult(START))
  }

  /** The first turn of a broker, with one new connection that sends one message. */
  function FirstTurn(name: string, now: int): Input {
    Input(now, 1, [], [Batch(0, [Arrival(C.RequestText(UnregisterItem(name)), now, "")])], false)
  }

  lemma UnregisterArrives(name: string, now: int)
    requires NulFree(name)
    ensures CreateRequest(0, C.RequestText(UnregisterItem(name)), now, "") == Some(UnregisterRequest(name, now))
  {
    hide Mbus, CreateRequest, C.RequestText, InitialResult, NulFree;
    NamesNulFree();
    LiteralNulFree();
    CommandExact(name);
    RequestArrives(UnregisterItem(name), 0, now, "");
  }

  lemma LiteralNulFree()
    ensures NulFree("command.unregister") && NulFree("command")
  {
  }

  lemma CommandExact(name: string)
    requires NulFree(name)
    ensures Exact(Object([Member("command", String(name))]))
  {
    LiteralNulFree();
    ExactObject([Member("command", String(name))]);
  }

  lemma FirstPrepared(password: Option<string>, zlib: bool, now: int)
    ensures var s := BrokerState.Start(password, zlib); s.running && Prepare(s, now) == s
  {
    hide PingCheck, EmitOne;
  }

  /** The broker with its first client and nothing else. */
  function Joined(password: Option<string>, zlib: bool): Server {
    Accept(BrokerState.Start(password, zlib))
  }

  lemma FirstJoined(password: Option<string>, zlib: bool)
    ensures var s := BrokerState.Start(password, zlib); LoseMany(AcceptMany(s, 1), []) == Joined(password, zlib)
    ensures Joined(password, zlib).clients == [NewClient(0)] && Locate(Joined(password, zlib).clients, 0) == Some(0)
  {
    var s := BrokerState.Start(password, zlib);
    assert AcceptMany(s, 1) == AcceptMany(Accept(s), 0) == Accept(s);
    assert s.clients + [NewClient(0)] == [NewClient(0)];
  }

  lemma FirstReceived(s: Server, a: Arrival, m: Request)
    requires s.clients == [NewClient(0)] && s.methods == [] && CreateRequest(0, a.text, a.now, a.draw) == Some(m) && m.kind == TYPE_COMMAND
    ensures
      var t := s.(clients := [NewClient(0).(log := [m])], methods := [m]);
      DecodeMany(s, [Batch(0, [a])]) == t
  {
    hide CreateRequest, Mbus;
    var t := s.(clients := [NewClient(0).(log := [m])], methods := [m]);
    var c := s.clients[0];
    assert c.log + [m] == [m] && s.clients[0 := c.(log := [m])] == t.clients && s.methods + [m] == [m];
    assert Receive(s, 0, a) == (t, true);
    assert [a][1..] == [];
    assert ReceiveAll(t, 0, []) == t;
    assert ReceiveAll(s, 0, [a]) == t;
    assert [Batch(0, [a])][1..] == [];
    assert DecodeMany(t, []) == t;
  }

  /** It takes no more than a new connection and one message: the first turn of the broker follows a NULL
      pointer. */
  lemma FirstMessageFails(password: Option<string>, zlib: bool, name: string, now: int)
    requires NulFree(name)
    ensures Turn(BrokerState.Start(password, zlib), FirstTurn(name, now)).crashed
  {
    hide Prepare, AcceptMany, LoseMany, DecodeMany, Finish, NulFree, C.RequestText, UnregisterItem, Joined, UnregisterRequest;
    FirstPrepared(password, zlib, now);
    FirstJoined(password, zlib);
    UnregisterArrives(name, now);
    var s := Joined(password, zlib);
    var a := Arrival(C.RequestText(UnregisterItem(name)), now, "");
    UnregisterIs(password, zlib, name, now);
    FirstReceived(s, a, UnregisterRequest(name, now));
    FinishFails(DecodeMany(s, [Batch(0, [a])]), name, now);
  }

  lemma UnregisterIs(password: Option<string>, zlib: bool, name: string, now: int)
    ensures UnregisterRequest(name, now).kind == TYPE_COMMAND
    ensures Joined(password, zlib).methods == [] && !Joined(password, zlib).crashed
  {
    hide Mbus, InitialResult;
  }

  lemma FinishFails(s: Server, name: string, now: int)
    requires !s.crashed && s.methods == [UnregisterRequest(name, now)]
    requires s.clients == [NewClient(0).(log := [UnregisterRequest(name, now)])]
    ensures Finish(s, now).crashed
  {
    hide HandleMethod, Mbus, InitialResult, LookUp, FindMember, AcceptAll, WelcomeFrom, ReapFrom;
    var v, m := Object([Member("command", String(name))]), UnregisterRequest(name, now);
    var u := s.(methods := []);
    assert s.methods[1..] == [];
    LastStep(v, "command");
    OneMember(Member("command", String(name)));
    FailsExactly(u, m, 0);
    Stops(s, HandleMethod(u, m));
  }

  lemma Stops(s: Server, t: Server)
    requires !s.crashed && s.methods != [] && t == HandleMethod(s.(methods := s.methods[1..]), s.methods[0]) && t.crashed
    ensures HandleMethods(s) == t
  {
    hide HandleMethod;
    assert HandleMethods(t) == t;
  }

  lemma OneMember(m: Member)
    ensures FindMember([m], m.name) == Some(m.value)
  {
  }
}

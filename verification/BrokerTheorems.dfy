/** What the broker promises, in every state that a run can reach: whatever connections come and go,
    whatever messages arrive in whatever order, and however often a turn fails half way. */
module BrokerTheorems {
  import opened Options
  import opened JsonText
  import opened JsonPath
  import opened Methods
  import opened BrokerState
  import opened BrokerCalm
  import opened BrokerEvents
  import opened BrokerInvariant
  import opened BrokerRun
  import opened BrokerReap

  // ----- turns keep the invariant -----

  ghost predicate Sound(s: Server) {
    Inv(s) && Alive(s)
  }

  lemma PrepareKeeps(s: Server, now: int)
    requires Sound(s)
    ensures Sound(Prepare(s, now))
  {
    hide Inv, Alive, HandleMethods, CheckPings, Emit;
    DrainAlive(s);
    var t := HandleMethods(s);
    if !t.crashed {
      CheckPingsKeeps(t, now);
      ChecksSteady(t, now);
      EmitKeeps(CheckPings(t, now));
    }
  }

  lemma ChecksSteady(s: Server, now: int)
    ensures CheckPings(s, now).crashed == s.crashed && CheckPings(s, now).methods == s.methods
    ensures AcceptAll(s).crashed == s.crashed && AcceptAll(s).methods == s.methods
  {
  }

  lemma FinishKeeps(s: Server, now: int)
    requires Sound(s)
    ensures Sound(Finish(s, now))
    ensures Finish(s, now).crashed || Finish(s, now).methods == []
  {
    hide Inv, Alive, HandleMethods, AcceptAll, WelcomeFrom, ReapFrom;
    DrainAlive(s);
    var t := HandleMethods(s);
    if !t.crashed {
      AcceptAllKeeps(t);
      ChecksSteady(t, now);
      WelcomeFromKeeps(AcceptAll(t), 0, now);
      ReapFromKeeps(WelcomeFrom(AcceptAll(t), 0, now), 0, now);
    }
  }

  lemma TurnKeeps(s: Server, input: Input)
    requires Sound(s)
    ensures Sound(Turn(s, input))
  {
    hide Inv, Alive, Prepare, LoseMany, AcceptMany, DecodeMany, Finish;
    PrepareKeeps(s, input.now);
    var a := if s.running then Prepare(s, input.now) else s;
    if !a.crashed {
      AcceptManyKeeps(a, input.accepts);
      LoseManyKeeps(AcceptMany(a, input.accepts), input.lost);
      var b := if s.running then LoseMany(AcceptMany(a, input.accepts), input.lost) else a;
      DecodeManyKeeps(b, input.batches);
      FinishKeeps(DecodeMany(b, input.batches), input.now);
    }
  }

  lemma {:induction false} RunKeeps(password: Option<string>, zlib: bool, inputs: seq<Input>)
    ensures Sound(Run(BrokerState.Start(password, zlib), inputs))
    decreases |inputs|
  {
    hide Sound, Turn;
    if inputs == [] {
      StartSound(password, zlib);
    } else {
      RunKeeps(password, zlib, inputs[..|inputs| - 1]);
      TurnKeeps(Run(BrokerState.Start(password, zlib), inputs[..|inputs| - 1]), inputs[|inputs| - 1]);
    }
  }

  lemma StartSound(password: Option<string>, zlib: bool)
    ensures Sound(BrokerState.Start(password, zlib))
  {
  }

  // ----- conservation of responses -----

  /** The number the result object of a method carries as its sequence, and the statuses in it. */
  ghost predicate CarriesStatuses(m: Request, n: nat) {
    |Statuses(m.result)| == n && FindMember(m.result, TAG_SEQUENCE) == Some(Number(m.sequence))
  }

  /** Every command accepted from a present client is in exactly one place: the method queue, the
      client's waits, its results, or already serialised. Only the last two carry a status, and that
      exactly once; every answer keeps the sequence number of its request. */
  lemma ResponsesConserved(password: Option<string>, zlib: bool, inputs: seq<Input>, i: nat)
    requires var s := Run(BrokerState.Start(password, zlib), inputs); !s.crashed && i < |s.clients|
    ensures
      var s := Run(BrokerState.Start(password, zlib), inputs);
      var c := s.clients[i];
      && multiset(Cores(c.log)) == multiset(Cores(CommandsOf(s.methods, c.handle))) + multiset(Cores(c.waits))
                                   + multiset(Cores(c.sent + c.results))
      && (forall k | 0 <= k < |s.methods| :: CarriesStatuses(s.methods[k], 0))
      && (forall k | 0 <= k < |c.waits| :: CarriesStatuses(c.waits[k], 0))
      && (forall k | 0 <= k < |c.sent + c.results| :: CarriesStatuses((c.sent + c.results)[k], 1))
  {
    hide Run, Locate, Find, Numbered, Cores, CommandsOf, Alive;
    RunKeeps(password, zlib, inputs);
    var s := Run(BrokerState.Start(password, zlib), inputs);
    var c := s.clients[i];
    InvClient(s, i);
    forall k | 0 <= k < |s.methods| ensures CarriesStatuses(s.methods[k], 0) { assert Queued(s.methods[k], s.clients); }
    forall k | 0 <= k < |c.waits| ensures CarriesStatuses(c.waits[k], 0) { assert Waiting(c.waits[k], c.handle, s.clients); }
    forall k | 0 <= k < |c.sent + c.results| ensures CarriesStatuses((c.sent + c.results)[k], 1) {
      assert Complete(Answered(c)[k], c.handle);
    }
  }

  /** server_handle_methods always empties its queue, so no method outlives its source. */
  lemma QueueEmpties(password: Option<string>, zlib: bool, inputs: seq<Input>)
    ensures var s := Run(BrokerState.Start(password, zlib), inputs);
      HandleMethods(s).crashed || HandleMethods(s).methods == []
  {
    hide Run, HandleMethods, Inv, Alive;
    RunKeeps(password, zlib, inputs);
    DrainAlive(Run(BrokerState.Start(password, zlib), inputs));
  }

  // ----- numbering of events -----

  /** All events ever queued for a client are numbered 1, 2, ..., 9998, 1, ...: of any 9998
      successive ones no two have the same number. The queued ones are consecutive and end just
      before the client's next number. */
  lemma EventsNumbered(password: Option<string>, zlib: bool, inputs: seq<Input>, i: nat)
    requires var s := Run(BrokerState.Start(password, zlib), inputs); !s.crashed && i < |s.clients|
    ensures
      var c := Run(BrokerState.Start(password, zlib), inputs).clients[i];
      var all := c.delivered + c.events;
      && (forall j, k | 0 <= j < k < |all| && k < j + 9998 :: all[j].sequence != all[k].sequence)
      && (forall k | 0 <= k < |all| :: 1 <= all[k].sequence <= 9998)
      && (forall k | 0 < k < |c.events| :: c.events[k].sequence == NextSequence(c.events[k - 1].sequence))
      && (c.events != [] ==> c.esequence == NextSequence(c.events[|c.events| - 1].sequence))
  {
    hide Run, Locate, Find, Conserved, QueuesOk, Alive;
    RunKeeps(password, zlib, inputs);
    var s := Run(BrokerState.Start(password, zlib), inputs);
    InvClient(s, i);
    NumberedMeans(s.clients[i]);
  }

  lemma NumberedMeans(c: Client)
    requires Numbered(c)
    ensures
      var all := c.delivered + c.events;
      && (forall j, k | 0 <= j < k < |all| && k < j + 9998 :: all[j].sequence != all[k].sequence)
      && (forall k | 0 <= k < |all| :: 1 <= all[k].sequence <= 9998)
      && (forall k | 0 < k < |c.events| :: c.events[k].sequence == NextSequence(c.events[k - 1].sequence))
      && (c.events != [] ==> c.esequence == NextSequence(c.events[|c.events| - 1].sequence))
  {
    hide Cyclic, NextSequence;
    var all, n := EventLog(c), |c.delivered|;
    forall j, k | 0 <= j < k < |all| && k < j + 9998 ensures all[j].sequence != all[k].sequence { CyclicDistinct(j, k); }
    forall k | 0 <= k < |all| ensures 1 <= all[k].sequence <= 9998 { CyclicNext(k); }
    forall k | 0 < k < |c.events| ensures c.events[k].sequence == NextSequence(c.events[k - 1].sequence) {
      CyclicNext(n + k - 1);
      assert c.events[k] == all[n + k] && c.events[k - 1] == all[n + k - 1];
    }
    if c.events != [] {
      CyclicNext(|all| - 1);
      assert c.events[|c.events| - 1] == all[|all| - 1];
    }
  }

  // ----- alternation of announcements -----

  /** The announcements of one name, true for connected. */
  function Ups(a: seq<Announcement>, name: string): seq<bool> {
    if a == [] then []
    else Ups(a[..|a| - 1], name) + if a[|a| - 1].name == name then [a[|a| - 1].up] else []
  }

  lemma {:induction false} AlternatingUps(a: seq<Announcement>, name: string)
    requires Alternating(a)
    ensures forall i | 0 <= i < |Ups(a, name)| :: Ups(a, name)[i] == (i % 2 == 0)
    ensures name in Live(a) <==> |Ups(a, name)| % 2 == 1
    decreases |a|
  {
    if a != [] {
      AlternatingUps(a[..|a| - 1], name);
    }
  }

  /** Whatever happens, the announcements of every name are connected, disconnected, connected, ...,
      and the names whose last announcement was connected are exactly those of the clients that are
      present and flagged as connected. */
  lemma LifecycleAlternates(password: Option<string>, zlib: bool, inputs: seq<Input>, name: string)
    requires !Run(BrokerState.Start(password, zlib), inputs).crashed
    ensures
      var s := Run(BrokerState.Start(password, zlib), inputs);
      var ups := Ups(s.announcements, name);
      && (forall i | 0 <= i < |ups| :: ups[i] == (i % 2 == 0))
      && (|ups| % 2 == 1 <==> exists i | 0 <= i < |s.clients| :: s.clients[i].connected && s.clients[i].identifier == Some(name))
  {
    hide Run, Inv, Alternating, Live, Ups;
    RunKeeps(password, zlib, inputs);
    AlternatingUps(Run(BrokerState.Start(password, zlib), inputs).announcements, name);
  }

  /** Present clients, those about to be reaped included, never share a name. */
  lemma NamesDistinct(password: Option<string>, zlib: bool, inputs: seq<Input>)
    requires !Run(BrokerState.Start(password, zlib), inputs).crashed
    ensures DistinctNames(Run(BrokerState.Start(password, zlib), inputs).clients)
  {
    hide Run, Alive;
    RunKeeps(password, zlib, inputs);
    InvNames(Run(BrokerState.Start(password, zlib), inputs));
  }

  // ----- no orphan calls -----

  /** After a turn: the connection is there, and whoever has a name was announced. */
  ghost predicate Settled(c: Client) {
    c.open && (c.identifier.Some? ==> c.connected)
  }

  /** Before the announcements: an open connection is accepted. */
  ghost predicate Ready(c: Client) {
    c.open ==> c.accepted
  }

  ghost predicate Greeted(c: Client) {
    c.open && c.identifier.Some? ==> c.connected
  }

  lemma OnlyEventsKeeps(cs: seq<Client>, ds: seq<Client>)
    requires OnlyEvents(cs, ds)
    ensures |ds| == |cs| && forall i | 0 <= i < |cs| ::
      (Ready(cs[i]) ==> Ready(ds[i])) && (Greeted(cs[i]) ==> Greeted(ds[i])) && ds[i].open == cs[i].open
  {
    forall i | 0 <= i < |cs|
      ensures (Ready(cs[i]) ==> Ready(ds[i])) && (Greeted(cs[i]) ==> Greeted(ds[i])) && ds[i].open == cs[i].open
    {
      assert ds[i] == cs[i].(events := ds[i].events, esequence := ds[i].esequence, ping := ds[i].ping);
    }
  }

  lemma WelcomeGreets(s: Server, i: nat, now: int)
    requires i < |s.clients| && (forall k | 0 <= k < |s.clients| :: Ready(s.clients[k]))
    requires forall k | 0 <= k < i :: Greeted(s.clients[k])
    ensures var ds := Welcome(s, i, now).clients;
      && |ds| == |s.clients|
      && (forall k | 0 <= k < |ds| :: Ready(ds[k])) && (forall k | 0 <= k <= i :: Greeted(ds[k]))
  {
    hide Tell, OnlyEvents;
    var c := s.clients[i];
    if Welcome(s, i, now) != s {
      var cs := s.clients[i := c.(connected := true)];
      TellCalm(cs, "connected", Object([Member("source", String(c.identifier.value))]), now);
      OnlyEventsKeeps(cs, Welcome(s, i, now).clients);
      assert Greeted(cs[i]) && Ready(cs[i]);
    }
  }

  lemma {:induction false} WelcomeFromGreets(s: Server, i: nat, now: int)
    requires i <= |s.clients| && (forall k | 0 <= k < |s.clients| :: Ready(s.clients[k]))
    requires forall k | 0 <= k < i :: Greeted(s.clients[k])
    ensures var ds := WelcomeFrom(s, i, now).clients; forall k | 0 <= k < |ds| :: Greeted(ds[k])
    decreases |s.clients| - i
  {
    hide Welcome, Ready, Greeted, WelcomeFrom;
    WelcomeStep(s, i, now);
    if i < |s.clients| {
      WelcomeGreets(s, i, now);
      WelcomeFromGreets(Welcome(s, i, now), i + 1, now);
    }
  }

  lemma WelcomeStep(s: Server, i: nat, now: int)
    ensures i >= |s.clients| ==> WelcomeFrom(s, i, now) == s
    ensures i < |s.clients| && |Welcome(s, i, now).clients| == |s.clients| ==>
      WelcomeFrom(s, i, now) == WelcomeFrom(Welcome(s, i, now), i + 1, now)
  {
    hide Welcome;
  }

  lemma ReapOneSettles(s: Server, i: nat, now: int)
    requires i < |s.clients| && s.methods == [] && (forall k | 0 <= k < |s.clients| :: Greeted(s.clients[k]))
    requires forall k | 0 <= k < i :: s.clients[k].open
    ensures var t := ReapOne(s, i, now);
      && t.methods == [] && |t.clients| == |s.clients| - 1
      && (forall k | 0 <= k < |t.clients| :: Greeted(t.clients[k])) && (forall k | 0 <= k < i :: t.clients[k].open)
  {
    hide Left, Tell, OnlyEvents, ReapOne;
    ReapUnfolds(s, i, now);
    LeftFaces(s.clients, i);
    var c, ds := s.clients[i], Left(s.clients, i);
    forall k | 0 <= k < |ds| ensures Greeted(ds[k]) { assert Greeted(s.clients[if k < i then k else k + 1]); }
    if c.connected && c.identifier.Some? {
      TellCalm(ds, "disconnected", Object([Member("source", String(c.identifier.value)),
               Member("reason", String(CloseReason(c.closeCode)))]), now);
      OnlyEventsKeeps(ds, ReapOne(s, i, now).clients);
    }
  }

  lemma ReapStep(s: Server, i: nat, now: int)
    ensures i >= |s.clients| ==> ReapFrom(s, i, now) == s
    ensures i < |s.clients| && s.clients[i].open ==> ReapFrom(s, i, now) == ReapFrom(s, i + 1, now)
    ensures i < |s.clients| && !s.clients[i].open && |ReapOne(s, i, now).clients| < |s.clients| ==>
      ReapFrom(s, i, now) == ReapFrom(ReapOne(s, i, now), i, now)
  {
    hide ReapOne;
  }

  lemma {:induction false} ReapFromSettles(s: Server, i: nat, now: int)
    requires i <= |s.clients| && s.methods == [] && (forall k | 0 <= k < |s.clients| :: Greeted(s.clients[k]))
    requires forall k | 0 <= k < i :: s.clients[k].open
    ensures var ds := ReapFrom(s, i, now).clients; forall k | 0 <= k < |ds| :: Settled(ds[k])
    decreases |s.clients| - i
  {
    hide ReapOne, ReapFrom;
    ReapStep(s, i, now);
    if i < |s.clients| {
      if s.clients[i].open {
        ReapFromSettles(s, i + 1, now);
      } else {
        ReapOneSettles(s, i, now);
        ReapFromSettles(ReapOne(s, i, now), i, now);
      }
    }
  }

  lemma FinishSettles(s: Server, now: int)
    requires Sound(s) && !Finish(s, now).crashed
    ensures forall k | 0 <= k < |Finish(s, now).clients| :: Settled(Finish(s, now).clients[k])
  {
    hide Inv, Alive, HandleMethods, WelcomeFrom, ReapFrom, Settled, Greeted;
    DrainAlive(s);
    var t := HandleMethods(s);
    AcceptAllKeeps(t);
    WelcomeFromKeeps(AcceptAll(t), 0, now);
    WelcomeFromGreets(AcceptAll(t), 0, now);
    ReapFromSettles(WelcomeFrom(AcceptAll(t), 0, now), 0, now);
    assert Finish(s, now) == ReapFrom(WelcomeFrom(AcceptAll(t), 0, now), 0, now);
  }

  /** The name belongs to exactly one present client, and that client is connected. */
  ghost predicate HasHome(clients: seq<Client>, name: string) {
    exists j | 0 <= j < |clients| ::
      && clients[j].identifier == Some(name) && clients[j].open && clients[j].connected
      && forall n | 0 <= n < |clients| && n != j :: clients[n].identifier != Some(name)
  }

  lemma TurnSettles(s: Server, input: Input)
    requires Sound(s) && !input.failed && !Turn(s, input).crashed
    ensures var t := Turn(s, input); t.methods == [] && forall k | 0 <= k < |t.clients| :: Settled(t.clients[k])
  {
    hide Inv, Alive, Prepare, LoseMany, AcceptMany, DecodeMany, Finish, Settled;
    PrepareKeeps(s, input.now);
    var a := if s.running then Prepare(s, input.now) else s;
    AcceptManyKeeps(a, input.accepts);
    LoseManyKeeps(AcceptMany(a, input.accepts), input.lost);
    var b := if s.running then LoseMany(AcceptMany(a, input.accepts), input.lost) else a;
    DecodeManyKeeps(b, input.batches);
    FinishKeeps(DecodeMany(b, input.batches), input.now);
    FinishSettles(DecodeMany(b, input.batches), input.now);
  }

  lemma WaitHome(t: Server, i: nat, k: nat)
    requires Inv(t) && !t.crashed && i < |t.clients| && k < |t.clients[i].waits|
    requires forall n | 0 <= n < |t.clients| :: Settled(t.clients[n])
    ensures HasHome(t.clients, t.clients[i].waits[k].destination)
  {
    hide Find, Locate, Numbered, Conserved, Answers;
    InvClient(t, i);
    assert Waiting(t.clients[i].waits[k], t.clients[i].handle, t.clients);
    var j := Find(t.clients, t.clients[i].waits[k].destination).value;
    assert Settled(t.clients[j]);
  }

  /** At the end of every turn that does not fail, each call that waits names exactly one present
      client, and that client is connected. No method is left in the queue. */
  lemma NoOrphanCalls(password: Option<string>, zlib: bool, inputs: seq<Input>, input: Input)
    requires !input.failed && !Turn(Run(BrokerState.Start(password, zlib), inputs), input).crashed
    ensures
      var t := Turn(Run(BrokerState.Start(password, zlib), inputs), input);
      && t.methods == []
      && forall i, k | 0 <= i < |t.clients| && 0 <= k < |t.clients[i].waits| ::
           HasHome(t.clients, t.clients[i].waits[k].destination)
  {
    hide Run, Turn, Inv, Alive, Settled, HasHome;
    RunKeeps(password, zlib, inputs);
    var s := Run(BrokerState.Start(password, zlib), inputs);
    var t := Turn(s, input);
    TurnKeeps(s, input);
    TurnSettles(s, input);
    forall i, k | 0 <= i < |t.clients| && 0 <= k < |t.clients[i].waits|
      ensures HasHome(t.clients, t.clients[i].waits[k].destination)
    {
      WaitHome(t, i, k);
    }
  }
}

/** The end of a turn: new clients are announced, closed ones are taken off the list, their callers
    are answered, and their departure is announced. */
module BrokerReap {
  import opened Options
  import opened JsonText
  import opened Methods
  import opened BrokerState
  import opened BrokerCalm
  import opened BrokerEvents
  import opened BrokerInvariant
  import opened BrokerRun

  // ----- announcements and the list of clients -----

  lemma SameFacesConnected(cs: seq<Client>, ds: seq<Client>, name: string)
    requires SameFaces(cs, ds)
    ensures ConnectedAs(cs, name) <==> ConnectedAs(ds, name)
  {
    if ConnectedAs(cs, name) {
      var i :| 0 <= i < |cs| && cs[i].connected && cs[i].identifier == Some(name);
      assert ds[i].connected && ds[i].identifier == Some(name);
    }
    if ConnectedAs(ds, name) {
      var i :| 0 <= i < |ds| && ds[i].connected && ds[i].identifier == Some(name);
      assert cs[i].connected && cs[i].identifier == Some(name);
    }
  }

  lemma LiveGrows(a: seq<Announcement>, x: Announcement)
    ensures Live(a + [x]) == if x.up then Live(a) + {x.name} else Live(a) - {x.name}
    ensures Alternating(a + [x]) <==> Alternating(a) && (x.up <==> x.name !in Live(a))
  {
    assert (a + [x])[..|a|] == a;
  }

  /** One announcement more, for the one name that came or went. */
  lemma AnnouncedAlive(s: Server, t: Server, x: Announcement)
    requires Alive(s) && !s.crashed && !t.crashed && t.announcements == s.announcements + [x]
    requires ConnectedNamed(t.clients) && (x.up <==> !ConnectedAs(s.clients, x.name))
    requires forall name :: ConnectedAs(t.clients, name) <==> (if name == x.name then x.up else ConnectedAs(s.clients, name))
    ensures Alive(t)
  {
    hide ConnectedAs, ConnectedNamed;
    LiveGrows(s.announcements, x);
  }

  // ----- a new client is announced -----

  lemma WelcomedConnected(cs: seq<Client>, i: nat, name: string)
    requires i < |cs| && DistinctNames(cs) && !cs[i].connected && cs[i].identifier.Some?
    ensures !ConnectedAs(cs, cs[i].identifier.value)
    ensures ConnectedAs(cs[i := cs[i].(connected := true)], name)
            <==> name == cs[i].identifier.value || ConnectedAs(cs, name)
  {
    var ds := cs[i := cs[i].(connected := true)];
    if name == cs[i].identifier.value {
      assert ds[i].connected && ds[i].identifier == Some(name);
    } else if ConnectedAs(cs, name) {
      var k :| 0 <= k < |cs| && cs[k].connected && cs[k].identifier == Some(name);
      assert ds[k].connected && ds[k].identifier == Some(name);
    }
  }

  lemma WelcomedCalm(s: Server, i: nat)
    requires i < |s.clients|
    ensures Calm(s.clients[i], s.clients[i].(connected := true))
    ensures CalmAll(s.clients, s.clients[i := s.clients[i].(connected := true)])
    ensures DistinctNames(s.clients) ==> DistinctNames(s.clients[i := s.clients[i].(connected := true)])
  {
    var d := s.clients[i].(connected := true);
    NumberedSame(s.clients[i], d);
    hide Numbered;
    CalmUpdate(s.clients, i, d);
  }

  lemma SameFacesNamed(cs: seq<Client>, ds: seq<Client>)
    requires SameFaces(cs, ds) && ConnectedNamed(cs)
    ensures ConnectedNamed(ds)
  {
  }

  lemma InvNames(s: Server)
    requires Inv(s) && !s.crashed
    ensures DistinctNames(s.clients) && HandlesOk(s.clients, s.nextHandle)
  {
  }

  lemma AliveNamed(s: Server)
    requires Alive(s) && !s.crashed
    ensures ConnectedNamed(s.clients)
  {
  }

  lemma TellCalm(cs: seq<Client>, event: string, payload: Json, now: int)
    ensures CalmAll(cs, Tell(cs, event, payload, now)) && SameFaces(cs, Tell(cs, event, payload, now))
    ensures OnlyEvents(cs, Tell(cs, event, payload, now))
  {
    hide Calm, SendEvent, OnlyEvents;
    SendEventCalm(cs, Some(SERVER), SUBSCRIBERS, Mbus("server.event." + event), Some(payload), now);
    SendEventOnly(cs, Some(SERVER), SUBSCRIBERS, Mbus("server.event." + event), Some(payload), now);
  }

  lemma WelcomeKeeps(s: Server, i: nat, now: int)
    requires Inv(s) && Alive(s) && !s.crashed && i < |s.clients|
    ensures var t := Welcome(s, i, now);
      Inv(t) && Alive(t) && !t.crashed && |t.clients| == |s.clients| && t.methods == s.methods
  {
    hide Inv, Alive, Tell, CalmAll, SameFaces, DistinctNames, ConnectedAs, ConnectedNamed, HandlesOk;
    var c, t := s.clients[i], Welcome(s, i, now);
    if t != s {
      var cs := s.clients[i := c.(connected := true)];
      InvNames(s);
      WelcomedCalm(s, i);
      TellCalm(cs, "connected", Object([Member("source", String(c.identifier.value))]), now);
      CalmTwice(s.clients, cs, t.clients);
      SameFacesNames(cs, t.clients);
      CalmKeeps(s, t);
      CalmLength(s.clients, t.clients);
      forall name
        ensures ConnectedAs(t.clients, name) <==> (name == c.identifier.value || ConnectedAs(s.clients, name))
        ensures !ConnectedAs(s.clients, c.identifier.value)
      {
        WelcomedConnected(s.clients, i, name);
        SameFacesConnected(cs, t.clients, name);
      }
      AliveNamed(s);
      WelcomedNamed(s.clients, i);
      SameFacesNamed(cs, t.clients);
      AnnouncedAlive(s, t, Announcement(c.identifier.value, true));
    }
  }

  lemma WelcomedNamed(cs: seq<Client>, i: nat)
    requires i < |cs| && ConnectedNamed(cs) && cs[i].identifier.Some?
    ensures ConnectedNamed(cs[i := cs[i].(connected := true)])
  {
  }

  lemma CalmLength(cs: seq<Client>, ds: seq<Client>)
    requires CalmAll(cs, ds)
    ensures |cs| == |ds|
  {
  }

  lemma {:induction false} WelcomeFromKeeps(s: Server, i: nat, now: int)
    requires Inv(s) && Alive(s) && !s.crashed
    ensures var t := WelcomeFrom(s, i, now);
      Inv(t) && Alive(t) && !t.crashed && |t.clients| == |s.clients| && t.methods == s.methods
    decreases |s.clients| - i
  {
    hide Inv, Alive, Welcome;
    if i < |s.clients| {
      WelcomeKeeps(s, i, now);
      WelcomeFromKeeps(Welcome(s, i, now), i + 1, now);
    }
  }

  // ----- a closed client is taken off the list -----

  /** The calls to the client that left are answered, the others keep waiting; none is lost. */
  lemma {:induction false} WaitsDivided(waits: seq<Request>, name: string)
    ensures multiset(Cores(OtherWaits(waits, name))) + multiset(Cores(Orphans(waits, name))) == multiset(Cores(waits))
  {
    hide SetResultCode, Cores;
    if waits == [] {
      CoresAppend([], []);
      assert [] + waits == waits;
    } else {
      var w, rest := waits[0], waits[1..];
      WaitsDivided(rest, name);
      assert waits == [w] + rest;
      CoresAppend([w], rest);
      CoresAppend([w], OtherWaits(rest, name));
      CoresAppend([SetResultCode(w, -1)], Orphans(rest, name));
      CodedCore(w, -1);
      CoresOfOne(w, SetResultCode(w, -1));
      assert [] + OtherWaits(rest, name) == OtherWaits(rest, name) && [] + Orphans(rest, name) == Orphans(rest, name);
    }
  }

  lemma CodedCore(w: Request, code: int)
    ensures Core(SetResultCode(w, code)) == Core(w)
  {
  }

  lemma {:induction false} OtherWaitsAre(waits: seq<Request>, name: string)
    ensures forall w :: w in OtherWaits(waits, name) <==> w in waits && w.destination != name
  {
    if waits != [] {
      OtherWaitsAre(waits[1..], name);
      assert waits == [waits[0]] + waits[1..];
    }
  }

  /** The answers are the calls to the client that left, each with the status -1. */
  lemma {:induction false} OrphansAre(waits: seq<Request>, name: string)
    ensures forall r :: r in Orphans(waits, name) <==> exists w :: w in waits && w.destination == name && r == SetResultCode(w, -1)
  {
    hide SetResultCode;
    if waits != [] {
      OrphansAre(waits[1..], name);
      assert waits == [waits[0]] + waits[1..];
    }
  }

  lemma CoresOfOne(w: Request, r: Request)
    requires Core(r) == Core(w)
    ensures Cores([r]) == Cores([w])
  {
    assert Cores([r]) == [Core(r)] == Cores([w]);
  }

  lemma WaitOrphaned(w: Request, handle: nat, clients: seq<Client>)
    requires Waiting(w, handle, clients)
    ensures Core(SetResultCode(w, -1)) == Core(w) && Complete(SetResultCode(w, -1), handle)
  {
    hide Answers, Find;
    CompletedByCode(w, -1);
  }

  /** Without the client that left, everybody else's waits still have a home. */
  lemma HomeStays(cs: seq<Client>, i: nat, ds: seq<Client>, destination: string)
    requires i < |cs| && |ds| == |cs| - 1 && cs[i].identifier != Some(destination)
    requires forall k | 0 <= k < |ds| :: ds[k].identifier == cs[if k < i then k else k + 1].identifier
    requires Find(cs, destination).Some?
    ensures Find(ds, destination).Some?
  {
    hide Find;
    var k := Find(cs, destination).value;
    assert ds[if k < i then k else k - 1].identifier == cs[k].identifier;
  }

  lemma WaitStays(w: Request, handle: nat, cs: seq<Client>, i: nat, ds: seq<Client>)
    requires i < |cs| && |ds| == |cs| - 1
    requires forall k | 0 <= k < |ds| :: ds[k].identifier == cs[if k < i then k else k + 1].identifier
    requires Waiting(w, handle, cs) && cs[i].identifier != Some(w.destination)
    ensures Waiting(w, handle, ds)
  {
    hide Find, Answers;
    HomeStays(cs, i, ds, w.destination);
  }

  lemma BereavedConserved(c: Client, name: Option<string>)
    requires Conserved(c, [])
    ensures Conserved(Bereave(c, name), [])
  {
    hide Orphans, OtherWaits, Cores, CommandsOf;
    var d := Bereave(c, name);
    if name.Some? {
      WaitsDivided(c.waits, name.value);
      assert Answered(d) == Answered(c) + Orphans(c.waits, name.value);
      CoresAppend(Answered(c), Orphans(c.waits, name.value));
      Rejoin(multiset(Cores(CommandsOf([], c.handle))), multiset(Cores(c.waits)), multiset(Cores(Answered(c))),
             multiset(Cores(d.waits)), multiset(Cores(Orphans(c.waits, name.value))));
    }
  }

  lemma Rejoin(a: multiset<Request>, waits: multiset<Request>, done: multiset<Request>,
               others: multiset<Request>, orphans: multiset<Request>)
    requires others + orphans == waits
    ensures a + others + (done + orphans) == a + waits + done
  {
  }

  lemma BereavedQueues(c: Client, cs: seq<Client>, i: nat, ds: seq<Client>)
    requires i < |cs| && |ds| == |cs| - 1 && QueuesOk(c, cs)
    requires forall k | 0 <= k < |ds| :: ds[k].identifier == cs[if k < i then k else k + 1].identifier
    ensures QueuesOk(Bereave(c, cs[i].identifier), ds)
  {
    hide Waiting, Complete, Orphans, OtherWaits, SetResultCode;
    var d, name := Bereave(c, cs[i].identifier), cs[i].identifier;
    if name.Some? {
      OtherWaitsAre(c.waits, name.value);
      OrphansAre(c.waits, name.value);
      assert Answered(d) == Answered(c) + Orphans(c.waits, name.value);
    }
    forall k | 0 <= k < |d.waits| ensures Waiting(d.waits[k], d.handle, ds) {
      assert d.waits[k] in c.waits;
      NamedElsewhere(d.waits[k], d.handle, cs, name);
      WaitStays(d.waits[k], d.handle, cs, i, ds);
    }
    forall k | 0 <= k < |Answered(d)| ensures Complete(Answered(d)[k], d.handle) {
      if k >= |Answered(c)| {
        assert Answered(d)[k] in Orphans(c.waits, name.value);
        var w :| w in c.waits && Answered(d)[k] == SetResultCode(w, -1);
        WaitOrphaned(w, c.handle, cs);
      } else {
        assert Answered(d)[k] == Answered(c)[k];
      }
    }
  }

  lemma BereavedOk(c: Client, cs: seq<Client>, i: nat, ds: seq<Client>)
    requires i < |cs| && |ds| == |cs| - 1 && ClientOk(c, [], cs)
    requires forall k | 0 <= k < |ds| :: ds[k].identifier == cs[if k < i then k else k + 1].identifier
    ensures ClientOk(Bereave(c, cs[i].identifier), [], ds)
  {
    hide Conserved, QueuesOk, Orphans, OtherWaits;
    NumberedSame(c, Bereave(c, cs[i].identifier));
    BereavedConserved(c, cs[i].identifier);
    BereavedQueues(c, cs, i, ds);
  }

  lemma NamedElsewhere(w: Request, handle: nat, cs: seq<Client>, name: Option<string>)
    requires Waiting(w, handle, cs) && (name.Some? ==> w.destination != name.value)
    ensures name != Some(w.destination)
  {
  }

  /** The list without its closed i-th client. */
  function Left(cs: seq<Client>, i: nat): seq<Client>
    requires i < |cs|
  {
    BereaveAll(cs[..i] + cs[i + 1..], cs[i].identifier)
  }

  lemma LeftAt(cs: seq<Client>, i: nat, k: nat)
    requires i < |cs| && k < |cs| - 1
    ensures |Left(cs, i)| == |cs| - 1
    ensures Left(cs, i)[k] == Bereave(cs[if k < i then k else k + 1], cs[i].identifier)
  {
    hide Bereave;
  }

  /** Being bereaved changes queues of calls only. */
  lemma BereavedFace(c: Client, name: Option<string>)
    ensures var d := Bereave(c, name); d == c.(waits := d.waits, results := d.results)
  {
  }

  lemma LeftFaces(cs: seq<Client>, i: nat)
    requires i < |cs|
    ensures
      var ds := Left(cs, i);
      && |ds| == |cs| - 1
      && forall k | 0 <= k < |ds| ::
           var c := cs[if k < i then k else k + 1];
           ds[k] == c.(waits := ds[k].waits, results := ds[k].results)
  {
    hide Bereave, Left;
    var ds := Left(cs, i);
    LeftLength(cs, i);
    forall k | 0 <= k < |ds|
      ensures var c := cs[if k < i then k else k + 1]; ds[k] == c.(waits := ds[k].waits, results := ds[k].results)
    {
      LeftAt(cs, i, k);
      BereavedFace(cs[if k < i then k else k + 1], cs[i].identifier);
    }
  }

  lemma LeftLength(cs: seq<Client>, i: nat)
    requires i < |cs|
    ensures |Left(cs, i)| == |cs| - 1
  {
  }

  /** The broker without its i-th client, before the departure is announced. */
  function Taken(s: Server, i: nat): Server
    requires i < |s.clients|
  {
    s.(clients := Left(s.clients, i))
  }

  lemma TakenKeeps(s: Server, i: nat)
    requires Inv(s) && !s.crashed && s.methods == [] && i < |s.clients|
    ensures Inv(Taken(s, i))
  {
    hide ClientOk, Left, Bereave;
    var cs, ds := s.clients, Left(s.clients, i);
    LeftFaces(cs, i);
    forall k | 0 <= k < |ds|
      ensures ClientOk(ds[k], [], ds)
    {
      assert ClientOk(cs[if k < i then k else k + 1], s.methods, cs);
      LeftAt(cs, i, k);
      BereavedOk(cs[if k < i then k else k + 1], cs, i, ds);
    }
  }

  lemma TakenConnected(s: Server, i: nat, name: string)
    requires i < |s.clients| && DistinctNames(s.clients)
    ensures ConnectedAs(Taken(s, i).clients, name)
            <==> ConnectedAs(s.clients, name) && !(s.clients[i].connected && s.clients[i].identifier == Some(name))
  {
    hide Left;
    LeftFaces(s.clients, i);
    RemovedConnected(s.clients, i, Left(s.clients, i), name);
  }

  lemma RemovedConnected(cs: seq<Client>, i: nat, ds: seq<Client>, name: string)
    requires i < |cs| && DistinctNames(cs) && |ds| == |cs| - 1
    requires forall k | 0 <= k < |ds| ::
      var c := cs[if k < i then k else k + 1]; ds[k].identifier == c.identifier && ds[k].connected == c.connected
    ensures ConnectedAs(ds, name) <==> ConnectedAs(cs, name) && !(cs[i].connected && cs[i].identifier == Some(name))
  {
    if ConnectedAs(ds, name) {
      var k :| 0 <= k < |ds| && ds[k].connected && ds[k].identifier == Some(name);
      var j := if k < i then k else k + 1;
      assert cs[j].connected && cs[j].identifier == Some(name);
    }
    if ConnectedAs(cs, name) && !(cs[i].connected && cs[i].identifier == Some(name)) {
      var k :| 0 <= k < |cs| && cs[k].connected && cs[k].identifier == Some(name);
      var j := if k < i then k else k - 1;
      assert ds[j].connected && ds[j].identifier == Some(name);
    }
  }

  lemma TakenNamed(s: Server, i: nat)
    requires i < |s.clients| && ConnectedNamed(s.clients)
    ensures ConnectedNamed(Taken(s, i).clients)
  {
    hide Left;
    LeftFaces(s.clients, i);
  }

  lemma ReapUnfolds(s: Server, i: nat, now: int)
    requires i < |s.clients| && s.methods == []
    ensures var c, t := s.clients[i], Taken(s, i);
      ReapOne(s, i, now) ==
        if !c.connected || c.identifier.None? then t
        else t.(clients := Tell(t.clients, "disconnected", Object([Member("source", String(c.identifier.value)),
                                  Member("reason", String(CloseReason(c.closeCode)))]), now),
                announcements := s.announcements + [Announcement(c.identifier.value, false)])
  {
    hide Tell, Bereave, CloseReason;
  }

  lemma ConnectedHere(cs: seq<Client>, i: nat, name: string)
    requires i < |cs| && cs[i].connected && cs[i].identifier == Some(name)
    ensures ConnectedAs(cs, name)
  {
  }

  lemma NobodyLeft(s: Server, i: nat)
    requires i < |s.clients| && Alive(s) && !s.crashed && DistinctNames(s.clients) && !s.clients[i].connected
    ensures Alive(Taken(s, i))
  {
    hide Left, DistinctNames, ConnectedAs, ConnectedNamed, Alternating, Live;
    TakenNamed(s, i);
    forall name ensures ConnectedAs(Taken(s, i).clients, name) <==> ConnectedAs(s.clients, name) { TakenConnected(s, i, name); }
  }

  lemma ReapOneKeeps(s: Server, i: nat, now: int)
    requires Inv(s) && Alive(s) && !s.crashed && s.methods == [] && i < |s.clients|
    ensures var t := ReapOne(s, i, now);
      Inv(t) && Alive(t) && !t.crashed && t.methods == [] && |t.clients| == |s.clients| - 1
  {
    hide Inv, Alive, Tell, CalmAll, SameFaces, DistinctNames, ConnectedAs, ConnectedNamed, HandlesOk, Left, ReapOne;
    var c, u, t := s.clients[i], Taken(s, i), ReapOne(s, i, now);
    InvNames(s);
    AliveNamed(s);
    ReapUnfolds(s, i, now);
    TakenKeeps(s, i);
    LeftLength(s.clients, i);
    if !c.connected {
      NobodyLeft(s, i);
    } else {
      ConnectedName(s.clients, i);
      var x := Announcement(c.identifier.value, false);
      TellCalm(u.clients, "disconnected", Object([Member("source", String(c.identifier.value)),
               Member("reason", String(CloseReason(c.closeCode)))]), now);
      CalmKeeps(u, t);
      CalmLength(u.clients, t.clients);
      TakenNamed(s, i);
      SameFacesNamed(u.clients, t.clients);
      ConnectedHere(s.clients, i, x.name);
      forall name
        ensures ConnectedAs(t.clients, name) <==> (if name == x.name then false else ConnectedAs(s.clients, name))
      {
        TakenConnected(s, i, name);
        SameFacesConnected(u.clients, t.clients, name);
      }
      AnnouncedAlive(s, t, x);
    }
  }

  lemma ConnectedName(cs: seq<Client>, i: nat)
    requires ConnectedNamed(cs) && i < |cs| && cs[i].connected
    ensures cs[i].identifier.Some?
  {
  }

  lemma {:induction false} ReapFromKeeps(s: Server, i: nat, now: int)
    requires Inv(s) && Alive(s) && !s.crashed && s.methods == []
    ensures var t := ReapFrom(s, i, now); Inv(t) && Alive(t) && !t.crashed && t.methods == []
    decreases |s.clients| - i
  {
    hide Inv, Alive, ReapOne;
    if i < |s.clients| {
      if s.clients[i].open {
        ReapFromKeeps(s, i + 1, now);
      } else {
        ReapOneKeeps(s, i, now);
        ReapFromKeeps(ReapOne(s, i, now), i, now);
      }
    }
  }
}

/** The moves of a connection are the turns of the broker as one of its clients sees them, so that the
    agreement on the compression holds of the broker itself, turn after turn. */
module CodecTurns {
  import opened Options
  import opened Compress
  import opened JsonStrings
  import opened JsonText
  import opened JsonPath
  import opened Methods
  import B = BrokerState
  import opened BrokerInvariant
  import opened BrokerRun
  import opened BrokerReap
  import BT = BrokerTheorems
  import opened BrokerLink
  import opened BrokerSteps
  import opened BrokerFrame
  import opened ClientState
  import opened CodecText
  import opened CodecLink
  import opened CodecAgreement
  import opened CodecMoves

  // ----- the broker as one client sees it -----

  function MethodsOf(methods: seq<Request>, h: nat): seq<Request> {
    if methods == [] then [] else (if methods[0].source == h then [methods[0]] else []) + MethodsOf(methods[1..], h)
  }

  /** The link is what the broker knows of its client h. */
  ghost predicate Shows(s: B.Server, l: Link, h: nat) {
    l.present && Present(s, h) == Some(l.peer) && l.ms == MethodsOf(s.methods, h)
  }

  /** The client is off the list of the broker, for good. */
  ghost predicate HasLeft(s: B.Server, l: Link, h: nat) {
    !l.present && B.Locate(s.clients, h).None? && h < s.nextHandle
  }

  /** Only the broker's end of the link changed. */
  ghost predicate SameEnd(l: Link, k: Link) {
    k.up == l.up && k.alive == l.alive && k.e == l.e && k.read == l.read
  }

  lemma {:induction false} MethodsJoined(a: seq<Request>, b: seq<Request>, h: nat)
    ensures MethodsOf(a + b, h) == MethodsOf(a, h) + MethodsOf(b, h)
  {
    hide MethodsOf;
    MethodsStep(a, h);
    if a == [] {
      assert a + b == b;
      Reassembled([], [], MethodsOf(b, h));
    } else {
      MethodsJoined(a[1..], b, h);
      MethodsStep(a + b, h);
      assert (a + b)[0] == a[0] && (a + b)[1..] == a[1..] + b;
      Reassembled(if a[0].source == h then [a[0]] else [], MethodsOf(a[1..], h), MethodsOf(b, h));
    }
  }

  lemma MethodsStep(methods: seq<Request>, h: nat)
    ensures methods == [] ==> MethodsOf(methods, h) == []
    ensures methods != [] ==>
      MethodsOf(methods, h) == (if methods[0].source == h then [methods[0]] else []) + MethodsOf(methods[1..], h)
  {
  }

  lemma OneMethod(m: Request, h: nat)
    ensures MethodsOf([m], h) == if m.source == h then [m] else []
  {
    assert [m][1..] == [];
  }

  // ----- lists of moves -----

  /** The moves are possible one after the other and end in k. */
  ghost predicate Takes(l: Link, moves: seq<Move>, zlib: bool, k: Link) {
    Runs(l, moves, zlib) && After(l, moves, zlib) == k
  }

  lemma NoMove(l: Link, zlib: bool)
    ensures Takes(l, [], zlib, l)
  {
  }

  lemma OneMove(l: Link, move: Move, zlib: bool)
    requires May(l, move, zlib)
    ensures (move.BrokerHandles? ==> l.ms != []) && (move.BrokerDecodes? ==> l.taken < |l.up|)
    ensures Takes(l, [move], zlib, Next(l, move))
  {
    hide May, Next;
    MayFits(l, move, zlib);
    assert [move][1..] == [];
    assert Runs(Next(l, move), [], zlib) && After(Next(l, move), [], zlib) == Next(l, move);
    assert Runs(l, [move], zlib) && After(l, [move], zlib) == After(Next(l, move), [move][1..], zlib);
  }

  lemma {:induction false} MovesJoined(l: Link, a: seq<Move>, zlib: bool, k: Link, b: seq<Move>, n: Link)
    requires Takes(l, a, zlib, k) && Takes(k, b, zlib, n)
    ensures Takes(l, a + b, zlib, n)
    decreases |a|
  {
    hide May, Next;
    if a == [] {
      assert a + b == b;
    } else {
      MayFits(l, a[0], zlib);
      MovesJoined(Next(l, a[0]), a[1..], zlib, k, b, n);
      assert (a + b)[0] == a[0] && (a + b)[1..] == a[1..] + b;
    }
  }

  // ----- one step is at most one move -----

  /** What a step leaves a client with is one of the moves of others. */
  lemma OtherMove(l: Link, d: B.Client, zlib: bool) returns (moves: seq<Move>)
    requires l.present && Still(l.peer, d, false)
    ensures Takes(l, moves, zlib, l.(peer := d))
  {
    hide Still;
    moves := [BrokerOther(d)];
    OneMove(l, BrokerOther(d), zlib);
  }

  lemma HandleMove(s: B.Server, l: Link, h: nat, i: nat) returns (moves: seq<Move>)
    requires BT.Sound(s) && Possible(s, Handle) && !Do(s, Handle).crashed
    requires Shows(s, l, h) && B.Locate(s.clients, h) == Some(i) && i < |s.clients|
    ensures s.methods != []
    ensures i < |Do(s, Handle).clients| && Do(s, Handle).methods == s.methods[1..]
    ensures Takes(l, moves, s.zlib, l.(peer := Do(s, Handle).clients[i], ms := MethodsOf(s.methods[1..], h)))
  {
    hide BT.Sound, B.HandleMethod, AllTended, HeardFrom, B.Locate, HandledAs, Still, Takes, IsCreate, Mbus;
    ListAfterHandle(s);
    HandleStep(s);
    InPlaceAfter(s, Handle);
    var m, rest := s.methods[0], s.methods[1..];
    var k, d := B.Locate(s.clients, m.source).value, Do(s, Handle).clients[i];
    MethodMoves(s.(methods := rest), m, k, i);
    if k == i {
      SameHandle(s, m.source, h, i);
      assert l.ms[1..] == MethodsOf(rest, h);
      moves := [BrokerHandles(d)];
      OneMove(l, BrokerHandles(d), s.zlib);
    } else {
      OtherHandle(s, m.source, h, k, i);
      moves := OtherMove(l, d, s.zlib);
      assert [] + MethodsOf(rest, h) == MethodsOf(rest, h);
      assert l.(peer := d) == l.(peer := d, ms := MethodsOf(rest, h));
    }
  }

  lemma SameHandle(s: B.Server, source: nat, h: nat, i: nat)
    requires i < |s.clients| && B.Locate(s.clients, source) == Some(i) && B.Locate(s.clients, h) == Some(i)
    ensures source == h
  {
    LocateIs(s.clients, source);
    LocateIs(s.clients, h);
  }

  lemma OtherHandle(s: B.Server, source: nat, h: nat, k: nat, i: nat)
    requires B.Locate(s.clients, source) == Some(k) && B.Locate(s.clients, h) == Some(i) && k != i
    ensures source != h
  {
  }

  lemma ArriveMove(s: B.Server, l: Link, h: nat, i: nat, a: B.Arrival) returns (moves: seq<Move>)
    requires Shows(s, l, h) && B.Locate(s.clients, h) == Some(i) && i < |s.clients|
    requires l.taken < |l.up| && a.text == l.up[l.taken].text && NulFree(a.draw)
    ensures
      var t := B.Receive(s, i, a).0;
      i < |t.clients| && Takes(l, moves, s.zlib, l.(peer := t.clients[i], ms := MethodsOf(t.methods, h), taken := l.taken + 1))
  {
    hide B.Receive, B.Locate, Takes, NulFree, CreateRequest;
    PresentAt(s, h);
    LocateIs(s.clients, h);
    var move := BrokerDecodes(a.now, a.draw);
    assert a == B.Arrival(l.up[l.taken].text, a.now, a.draw);
    ArrivalMoves(s, i, l, a.now, a.draw);
    moves := [move];
    OneMove(l, move, s.zlib);
    var t, n := B.Receive(s, i, a).0, Next(l, move);
    var more := n.ms[|l.ms|..];
    assert n.ms == l.ms + more;
    MethodsJoined(s.methods, more, h);
    ArrivedSource(l, a.now, a.draw);
  }

  lemma ArrivedSource(l: Link, now: int, draw: string)
    requires l.taken < |l.up|
    ensures
      var n := Next(l, BrokerDecodes(now, draw));
      && n == l.(peer := n.peer, ms := n.ms, taken := l.taken + 1) && |n.ms| >= |l.ms|
      && MethodsOf(n.ms[|l.ms|..], l.peer.handle) == n.ms[|l.ms|..]
  {
    hide CreateRequest, Next;
    var more := DecodedShape(l, now, draw);
    assert (l.ms + more)[|l.ms|..] == more;
    if more != [] {
      RequestSource(l.peer.handle, l.up[l.taken].text, now, draw);
      OneMethod(more[0], l.peer.handle);
      assert more == [more[0]];
    }
  }

  lemma RequestSource(source: nat, text: string, now: int, draw: string)
    ensures var m := CreateRequest(source, text, now, draw); m.Some? ==> m.value.source == source
  {
    hide Mbus, Parse, LookUp, InitialResult;
  }

  lemma OtherArrives(s: B.Server, k: nat, a: B.Arrival, h: nat, i: nat)
    requires k < |s.clients| && i < |s.clients| && k != i && s.clients[k].handle != h
    ensures
      var t := B.Receive(s, k, a).0;
      i < |t.clients| && t.clients[i] == s.clients[i] && MethodsOf(t.methods, h) == MethodsOf(s.methods, h)
  {
    hide Mbus, Parse, MethodsOf;
    var m := CreateRequest(s.clients[k].handle, a.text, a.now, a.draw);
    hide CreateRequest;
    if m.Some? {
      OneMethod(m.value, h);
      MethodsJoined(s.methods, [m.value], h);
      assert MethodsOf(s.methods, h) + [] == MethodsOf(s.methods, h);
    }
  }

  /** How many of its messages arrive by the step. */
  function TakenBy(x: Step, h: nat): nat {
    if x.Arrive? && x.handle == h then 1 else 0
  }

  lemma DropMove(s: B.Server, lost: nat, l: Link, h: nat, i: nat) returns (moves: seq<Move>)
    requires Shows(s, l, h) && B.Locate(s.clients, h) == Some(i) && i < |s.clients|
    ensures i < |B.Lose(s, lost).clients| && Takes(l, moves, s.zlib, l.(peer := B.Lose(s, lost).clients[i]))
  {
    hide B.Locate, Still, Takes, B.Closed;
    PresentAt(s, h);
    var j := B.Locate(s.clients, lost);
    if j.Some? {
      LocateIs(s.clients, lost);
      PassiveMoves(s, i, j.value, 0);
      moves := OtherMove(l, B.Lose(s, lost).clients[i], s.zlib);
    } else {
      moves := [];
      NoMove(l, s.zlib);
      assert l.(peer := B.Lose(s, lost).clients[i]) == l;
    }
  }

  lemma EmitMove(s: B.Server, l: Link, h: nat, i: nat) returns (moves: seq<Move>)
    requires Shows(s, l, h) && B.Locate(s.clients, h) == Some(i) && i < |s.clients|
    ensures i < |B.Emit(s).clients| && Takes(l, moves, s.zlib, l.(peer := B.Emit(s).clients[i]))
  {
    hide B.Locate, Takes, B.EmitOne;
    PresentAt(s, h);
    EmitMoves(s, i, l);
    OneMove(l, BrokerEmits, s.zlib);
    moves := [BrokerEmits];
  }

  /** A step that does not concern the queue of methods. */
  lemma PassiveMove(s: B.Server, x: Step, l: Link, h: nat, i: nat) returns (moves: seq<Move>)
    requires BT.Sound(s) && Possible(s, x) && Shows(s, l, h) && B.Locate(s.clients, h) == Some(i) && i < |s.clients|
    requires x.CheckAll? || x.EmitAll? || x.Join? || x.Drop? || x.Mark? || x.Greet?
    ensures i < |Do(s, x).clients| && Do(s, x).methods == s.methods
    ensures Takes(l, moves, s.zlib, l.(peer := Do(s, x).clients[i]))
  {
    hide BT.Sound, B.CheckPings, B.Emit, B.AcceptAll, B.Lose, B.Welcome, B.Locate, Still, Takes;
    PresentAt(s, h);
    if x.EmitAll? {
      EmitSteady(s);
      moves := EmitMove(s, l, h, i);
    } else if x.Drop? {
      LoseKeeps(s, x.lost);
      moves := DropMove(s, x.lost, l, h, i);
    } else if x.Join? {
      moves := [];
      NoMove(l, s.zlib);
      assert l.(peer := Do(s, x).clients[i]) == l;
    } else {
      PassiveStill(s, x, i);
      moves := OtherMove(l, Do(s, x).clients[i], s.zlib);
    }
  }

  lemma PassiveStill(s: B.Server, x: Step, i: nat)
    requires BT.Sound(s) && Possible(s, x) && i < |s.clients| && (x.CheckAll? || x.Mark? || x.Greet?)
    ensures i < |Do(s, x).clients| && Do(s, x).methods == s.methods && Still(s.clients[i], Do(s, x).clients[i], false)
  {
    hide Inv, Alive, B.CheckPings, B.AcceptAll, B.Welcome, Still;
    InPlaceAfter(s, x);
    match x {
      case CheckAll(now) =>
        PassiveMoves(s, i, i, now);
        BT.ChecksSteady(s, now);
      case Mark =>
        PassiveMoves(s, i, i, 0);
        BT.ChecksSteady(s, 0);
      case Greet(place, at) =>
        PassiveMoves(s, i, place, at);
        WelcomeKeeps(s, place, at);
    }
  }

  lemma ArrivalSeen(s: B.Server, x: Step, l: Link, h: nat, i: nat) returns (moves: seq<Move>, k: Link)
    requires x.Arrive? && Possible(s, x) && Shows(s, l, h) && B.Locate(s.clients, h) == Some(i) && i < |s.clients|
    requires x.handle == h ==> l.taken < |l.up| && x.arrival.text == l.up[l.taken].text && NulFree(x.arrival.draw)
    ensures
      var t := Do(s, x);
      i < |t.clients| && k == l.(peer := t.clients[i], ms := MethodsOf(t.methods, h), taken := l.taken + TakenBy(x, h))
    ensures Takes(l, moves, s.zlib, k)
  {
    hide B.Locate, Takes, NulFree, B.Receive, MethodsOf;
    PresentAt(s, h);
    LocateIs(s.clients, x.handle);
    if x.handle == h {
      moves := ArriveMove(s, l, h, i, x.arrival);
      k := l.(peer := Do(s, x).clients[i], ms := MethodsOf(Do(s, x).methods, h), taken := l.taken + 1);
    } else {
      OtherArrives(s, B.Locate(s.clients, x.handle).value, x.arrival, h, i);
      moves, k := [], l;
      NoMove(l, s.zlib);
    }
  }

  /** One step of the broker, as its client h sees it. */
  lemma StepMoves(s: B.Server, x: Step, l: Link, h: nat) returns (moves: seq<Move>, k: Link)
    requires BT.Sound(s) && Possible(s, x) && !Do(s, x).crashed && Shows(s, l, h)
    requires x.Arrive? && x.handle == h ==> l.taken < |l.up| && x.arrival.text == l.up[l.taken].text && NulFree(x.arrival.draw)
    ensures Takes(l, moves, s.zlib, k) && SameEnd(l, k) && k.taken == l.taken + TakenBy(x, h)
    ensures if x.Bury? && Stays(x, B.Locate(s.clients, h).value) == false then HasLeft(Do(s, x), k, h) else Shows(Do(s, x), k, h)
  {
    hide BT.Sound, B.Locate, Takes, NulFree, MethodsOf, Do, Possible;
    PresentAt(s, h);
    var i, t := B.Locate(s.clients, h).value, Do(s, x);
    StepLocates(s, x, h, i);
    assert t.nextHandle >= s.nextHandle by { StepPlaces(s, x); }
    PresentAt(t, h);
    match x {
      case Handle =>
        moves := HandleMove(s, l, h, i);
        k := l.(peer := t.clients[i], ms := MethodsOf(s.methods[1..], h));
      case Arrive(_, _) =>
        moves, k := ArrivalSeen(s, x, l, h, i);
      case Bury(place, at) =>
        if place == i {
          moves, k := [BrokerReaps], l.(present := false);
          OneMove(l, BrokerReaps, s.zlib);
        } else {
          moves, k := BuryMove(s, place, at, l, h, i);
        }
      case _ =>
        moves := PassiveMove(s, x, l, h, i);
        k := l.(peer := t.clients[i]);
    }
  }

  lemma BuryMove(s: B.Server, place: nat, at: int, l: Link, h: nat, i: nat) returns (moves: seq<Move>, k: Link)
    requires BT.Sound(s) && Possible(s, Bury(place, at)) && Shows(s, l, h)
    requires B.Locate(s.clients, h) == Some(i) && i < |s.clients| && place != i
    ensures
      var t, j := Do(s, Bury(place, at)), PlaceAfter(Bury(place, at), i);
      j < |t.clients| && k == l.(peer := t.clients[j]) && MethodsOf(t.methods, h) == l.ms
    ensures Takes(l, moves, s.zlib, k)
  {
    hide Inv, Alive, B.Locate, Takes, Still, B.ReapOne;
    PresentAt(s, h);
    var j := PlaceAfter(Bury(place, at), i);
    ReapMoves(s, place, j, at);
    ReapOneKeeps(s, place, at);
    moves := OtherMove(l, B.ReapOne(s, place, at).clients[j], s.zlib);
    k := l.(peer := B.ReapOne(s, place, at).clients[j]);
  }

  // ----- lists of steps -----

  /** The messages that arrive are the next frames the client wrote. */
  ghost predicate Feeds(arrivals: seq<B.Arrival>, frames: seq<Frame>) {
    && |arrivals| <= |frames|
    && forall k | 0 <= k < |arrivals| :: arrivals[k].text == frames[k].text && NulFree(arrivals[k].draw)
  }

  lemma {:induction false} PathMoves(s: B.Server, steps: seq<Step>, l: Link, h: nat) returns (moves: seq<Move>, k: Link)
    requires BT.Sound(s) && Path(s, steps) && !DoAll(s, steps).crashed && Shows(s, l, h)
    requires l.taken <= |l.up| && Feeds(ArrivalsOf(steps, h), l.up[l.taken..])
    ensures Takes(l, moves, s.zlib, k) && SameEnd(l, k)
    ensures HasLeft(DoAll(s, steps), k, h) || (Shows(DoAll(s, steps), k, h) && k.taken == l.taken + |ArrivalsOf(steps, h)|)
    ensures NoBuries(steps) ==> Shows(DoAll(s, steps), k, h) && k.taken == l.taken + |ArrivalsOf(steps, h)|
    decreases |steps|
  {
    hide BT.Sound, Do, Takes, NulFree, B.Locate, Shows;
    moves, k := [], l;
    NoMove(l, s.zlib);
    if steps != [] {
      var x, t := steps[0], Do(s, steps[0]);
      StepKeeps(s, x);
      StillAlive(t, steps[1..]);
      FirstFed(steps, h, l.up[l.taken..]);
      var first, n := StepMoves(s, x, l, h);
      if Shows(t, n, h) {
        assert l.up[n.taken..] == l.up[l.taken..][TakenBy(x, h)..];
        ZlibStays(s, x);
        var rest;
        rest, k := PathMoves(t, steps[1..], n, h);
        assert NoBuries(steps) ==> NoBuries(steps[1..]);
        MovesJoined(l, first, s.zlib, n, rest, k);
        moves := first + rest;
      } else {
        moves, k := first, n;
        PathLeft(t, steps[1..], n, h);
      }
    }
  }

  lemma ZlibStays(s: B.Server, x: Step)
    requires BT.Sound(s) && Possible(s, x)
    ensures Do(s, x).zlib == s.zlib
  {
    hide BT.Sound, Do, Possible;
    StepPlaces(s, x);
  }

  lemma FirstFed(steps: seq<Step>, h: nat, frames: seq<Frame>)
    requires steps != [] && Feeds(ArrivalsOf(steps, h), frames)
    ensures |ArrivalsOf(steps, h)| == TakenBy(steps[0], h) + |ArrivalsOf(steps[1..], h)|
    ensures TakenBy(steps[0], h) == 1 ==>
      |frames| > 0 && steps[0].arrival.text == frames[0].text && NulFree(steps[0].arrival.draw)
    ensures TakenBy(steps[0], h) <= |frames| && Feeds(ArrivalsOf(steps[1..], h), frames[TakenBy(steps[0], h)..])
  {
    hide NulFree, ArrivalsOf, Feeds;
    FirstArrival(steps, h);
    FedBehind(ArrivalsOf(steps, h), frames, TakenBy(steps[0], h));
  }

  lemma FirstArrival(steps: seq<Step>, h: nat)
    requires steps != []
    ensures
      var a, n := ArrivalsOf(steps, h), TakenBy(steps[0], h);
      |a| >= n && ArrivalsOf(steps[1..], h) == a[n..] && (n == 1 ==> a[0] == steps[0].arrival)
  {
  }

  lemma FedBehind(a: seq<B.Arrival>, frames: seq<Frame>, n: nat)
    requires Feeds(a, frames) && n <= |a|
    ensures n <= |frames| && Feeds(a[n..], frames[n..])
    ensures n == 1 ==> |frames| > 0 && a[0].text == frames[0].text && NulFree(a[0].draw)
  {
    hide NulFree;
    forall k | 0 <= k < |a| - n ensures a[n..][k].text == frames[n..][k].text && NulFree(a[n..][k].draw) {
      assert a[n..][k] == a[n + k] && frames[n..][k] == frames[n + k];
    }
  }

  lemma {:induction false} PathLeft(s: B.Server, steps: seq<Step>, l: Link, h: nat)
    requires BT.Sound(s) && Path(s, steps) && HasLeft(s, l, h)
    ensures HasLeft(DoAll(s, steps), l, h)
    decreases |steps|
  {
    hide BT.Sound, Do, Possible, B.Locate;
    if steps != [] {
      StepKeeps(s, steps[0]);
      StepGone(s, steps[0], h);
      PathLeft(Do(s, steps[0]), steps[1..], l, h);
    }
  }

  lemma {:induction false} PathZlib(s: B.Server, steps: seq<Step>)
    requires BT.Sound(s) && Path(s, steps)
    ensures DoAll(s, steps).zlib == s.zlib
    decreases |steps|
  {
    hide BT.Sound, Do, Possible;
    if steps != [] {
      StepKeeps(s, steps[0]);
      ZlibStays(s, steps[0]);
      PathZlib(Do(s, steps[0]), steps[1..]);
    }
  }

  lemma {:induction false} RunZlib(s: B.Server, inputs: seq<B.Input>)
    requires BT.Sound(s) && !B.Run(s, inputs).crashed
    ensures B.Run(s, inputs).zlib == s.zlib && BT.Sound(B.Run(s, inputs))
    decreases |inputs|
  {
    hide BT.Sound, B.Turn, Leads;
    if inputs != [] {
      var before, input := inputs[..|inputs| - 1], inputs[|inputs| - 1];
      var t := B.Run(s, before);
      if t.crashed { CrashedTurn(t, input); }
      RunZlib(s, before);
      var steps := TurnSteps(t, input);
      LeadsIs(t, steps, B.Turn(t, input));
      PathZlib(t, steps);
      BT.TurnKeeps(t, input);
    }
  }

  // ----- a turn -----

  /** The link after a turn of the broker: what the broker knows then, or knew last, and how many more
      frames it has decoded. */
  function AfterTurn(s: B.Server, l: Link, h: nat, input: B.Input): Link {
    var t, u, n := B.Turn(s, input), Upkeep(s, input), ReadCount(h, Fed(input.batches, h));
    if !l.present then l
    else if Present(t, h).Some? then
      l.(peer := Present(t, h).value, ms := MethodsOf(t.methods, h), taken := l.taken + n)
    else
      l.(present := false, peer := if Present(u, h).Some? then Present(u, h).value else l.peer, ms := [], taken := l.taken + n)
  }

  /** The turn finds, for this client, the next frames it wrote, in one decode loop. */
  ghost predicate Receives(l: Link, h: nat, input: B.Input) {
    l.taken <= |l.up| && Single(input.batches, h) && Feeds(Fed(input.batches, h), l.up[l.taken..])
  }

  lemma FeedsSome(arrivals: seq<B.Arrival>, frames: seq<Frame>, n: nat)
    requires Feeds(arrivals, frames) && n <= |arrivals|
    ensures Feeds(arrivals[..n], frames) && n <= |frames|
  {
    hide NulFree;
  }

  /** The state in which a turn starts to decode, as the client sees it. */
  lemma PolledMoves(s: B.Server, input: B.Input, l: Link, h: nat) returns (moves: seq<Move>, k: Link)
    requires BT.Sound(s) && !s.crashed && !B.Turn(s, input).crashed && Shows(s, l, h) && l.taken <= |l.up|
    ensures Takes(l, moves, s.zlib, k) && SameEnd(l, k) && k.taken == l.taken && Shows(Polled(s, input), k, h)
  {
    hide BT.Sound, B.Turn, Polled, Beats, ArrivalsOf, Takes, Shows, B.Prepare, Upkeep;
    RunningPrepared(s, input);
    var steps := PolledSteps(s, input);
    LeadsIs(s, steps, Polled(s, input));
    moves, k := PathMoves(s, steps, l, h);
  }

  lemma RunningPrepared(s: B.Server, input: B.Input)
    requires !B.Turn(s, input).crashed
    ensures s.running ==> !B.Prepare(s, input.now).crashed
    ensures !Upkeep(s, input).crashed
  {
    hide B.Prepare, B.Turn, B.DecodeMany, B.HandleMethods, B.WelcomeFrom, B.ReapFrom, Gathered;
    TurnReaps(s, input);
  }

  /** The state of a turn before closed clients are taken off the list. */
  lemma UpkeepMoves(s: B.Server, input: B.Input, l: Link, h: nat) returns (moves: seq<Move>, k: Link)
    requires BT.Sound(s) && !s.crashed && !B.Turn(s, input).crashed && Shows(s, l, h) && Receives(l, h, input)
    ensures
      var u := Upkeep(s, input);
      && Takes(l, moves, s.zlib, k) && SameEnd(l, k) && Shows(u, k, h) && BT.Sound(u) && !u.crashed && u.zlib == s.zlib
      && k.taken == l.taken + ReadCount(h, Fed(input.batches, h)) && k.taken <= |k.up|
      && (input.failed || u.methods == [])
  {
    hide BT.Sound, B.Turn, Polled, Beats, ArrivalsOf, Takes, Upkeep, Feeds, Fed, Single, ReadCount, Present, B.Locate;
    RunningPrepared(s, input);
    var u, fed := Upkeep(s, input), Fed(input.batches, h);
    var before, polled := PolledMoves(s, input, l, h);
    PresentAt(Polled(s, input), h);
    var steps := UpkeepSteps(s, input);
    LeadsIs(s, steps, u);
    FeedsSome(fed, l.up[l.taken..], ReadCount(h, fed));
    moves, k := PathMoves(s, steps, l, h);
    PathZlib(s, steps);
  }

  /** A turn of the broker is a list of moves, and it leaves the link described by the model. */
  lemma TurnMoves(s: B.Server, input: B.Input, l: Link, h: nat) returns (moves: seq<Move>)
    requires BT.Sound(s) && !s.crashed && !B.Turn(s, input).crashed && Shows(s, l, h) && Receives(l, h, input)
    ensures Takes(l, moves, s.zlib, AfterTurn(s, l, h, input))
    ensures Shows(B.Turn(s, input), AfterTurn(s, l, h, input), h) || HasLeft(B.Turn(s, input), AfterTurn(s, l, h, input), h)
  {
    hide BT.Sound, B.Turn, Beats, ArrivalsOf, Takes, Upkeep, Receives, Fed, ReadCount, Present, B.ReapFrom, B.Locate, MethodsOf;
    var u, t := Upkeep(s, input), B.Turn(s, input);
    var k;
    moves, k := UpkeepMoves(s, input, l, h);
    LeftAbsent(s, l, h);
    TurnReaps(s, input);
    PresentAt(t, h);
    if !input.failed {
      var buried := BurySteps(u, 0, input.now);
      LeadsIs(u, buried, t);
      var more, n := BuriedMoves(u, buried, k, h);
      if Present(t, h).Some? {
        MovesJoined(l, moves, s.zlib, k, more, n);
        moves := moves + more;
      } else {
        OneMove(k, BrokerReaps, s.zlib);
        MovesJoined(l, moves, s.zlib, k, [BrokerReaps], k.(present := false));
        moves := moves + [BrokerReaps];
        NoMethods(h);
      }
    }
  }

  /** Closed clients are taken off the list, this one perhaps among them. */
  lemma BuriedMoves(u: B.Server, buried: seq<Step>, k: Link, h: nat) returns (moves: seq<Move>, n: Link)
    requires BT.Sound(u) && Path(u, buried) && !DoAll(u, buried).crashed && Shows(u, k, h) && k.taken <= |k.up| && Silent(u, buried)
    ensures Takes(k, moves, u.zlib, n) && SameEnd(k, n)
    ensures var t := DoAll(u, buried);
      if Present(t, h).Some? then Shows(t, n, h) && n.taken == k.taken else HasLeft(t, n, h)
  {
    hide BT.Sound, Takes, Beats, ArrivalsOf, B.Locate, Shows, Present;
    NothingFeeds(ArrivalsOf(buried, h), k.up[k.taken..]);
    moves, n := PathMoves(u, buried, k, h);
    PresentAt(DoAll(u, buried), h);
    ShownPresent(DoAll(u, buried), n, h);
  }

  lemma ShownPresent(s: B.Server, l: Link, h: nat)
    ensures Shows(s, l, h) ==> Present(s, h).Some?
  {
  }

  lemma NoMethods(h: nat)
    ensures MethodsOf([], h) == []
  {
  }

  lemma NothingFeeds(arrivals: seq<B.Arrival>, frames: seq<Frame>)
    requires arrivals == []
    ensures Feeds(arrivals, frames)
  {
  }

  // ----- broker and client -----

  /** What happens in a world of one broker and one of its clients: a turn of the broker, with everything it
      meets, or something the client does. */
  datatype Deed = BrokerTurns(input: B.Input) | ClientActs(operation: Operation)

  ghost predicate Plays(s: B.Server, l: Link, h: nat, deeds: seq<Deed>)
    decreases |deeds|
  {
    deeds == [] ||
    match deeds[0]
    case BrokerTurns(input) =>
      !B.Turn(s, input).crashed && (l.present ==> Receives(l, h, input))
      && Plays(B.Turn(s, input), AfterTurn(s, l, h, input), h, deeds[1..])
    case ClientActs(o) => May(l, ClientOperates(o), s.zlib) && Plays(s, Next(l, ClientOperates(o)), h, deeds[1..])
  }

  /** Each frame the broker decodes in the turn has the compression it keeps for the client when it starts
      to decode. */
  ghost predicate TurnReads(s: B.Server, l: Link, h: nat, input: B.Input) {
    l.present ==>
      && Present(Polled(s, input), h).Some?
      && l.taken + ReadCount(h, Fed(input.batches, h)) <= |l.up|
      && forall k | l.taken <= k < l.taken + ReadCount(h, Fed(input.batches, h)) ::
           l.up[k].compression == Present(Polled(s, input), h).value.compression
  }

  ghost predicate AllRead(s: B.Server, l: Link, h: nat, deeds: seq<Deed>)
    decreases |deeds|
  {
    deeds == [] ||
    match deeds[0]
    case BrokerTurns(input) => TurnReads(s, l, h, input) && AllRead(B.Turn(s, input), AfterTurn(s, l, h, input), h, deeds[1..])
    case ClientActs(o) => Agrees(l, ClientOperates(o)) && AllRead(s, Next(l, ClientOperates(o)), h, deeds[1..])
  }

  /** In a connection in order, whatever is not decoded yet has the compression of the broker. */
  lemma UndecodedFrames(l: Link, s: Settings, k: nat)
    requires LinkOk(l, s) && l.taken <= k < |l.up|
    ensures l.up[k].compression == l.peer.compression
  {
    hide LinkAt;
    var q: Item, stage: nat :| LinkAt(l, s, q, stage);
    UndecodedAt(l, s, q, stage, k);
  }

  lemma UndecodedAt(l: Link, s: Settings, q: Item, stage: nat, k: nat)
    requires LinkAt(l, s, q, stage) && l.taken <= k < |l.up|
    ensures l.up[k].compression == l.peer.compression
  {
    hide ClientSide, Opened, Answering, CreateMethod, NoCreate, OwnCreate, ExactSettings, Harmless, RequestText;
  }

  lemma TakesOk(l: Link, moves: seq<Move>, zlib: bool, k: Link, settings: Settings)
    requires LinkOk(l, settings) && Takes(l, moves, zlib, k)
    ensures LinkOk(k, settings)
  {
    hide LinkOk;
    RunOk(l, moves, zlib, settings);
  }

  lemma TurnAgrees(s: B.Server, input: B.Input, l: Link, h: nat, settings: Settings)
    requires BT.Sound(s) && !s.crashed && !B.Turn(s, input).crashed && Shows(s, l, h) && Receives(l, h, input)
    requires LinkOk(l, settings)
    ensures TurnReads(s, l, h, input) && LinkOk(AfterTurn(s, l, h, input), settings)
    ensures Shows(B.Turn(s, input), AfterTurn(s, l, h, input), h) || HasLeft(B.Turn(s, input), AfterTurn(s, l, h, input), h)
  {
    hide BT.Sound, B.Turn, Polled, Takes, LinkOk, ReadCount, Fed, Single, Present, AfterTurn, HasLeft;
    var before, k := PolledMoves(s, input, l, h);
    TakesOk(l, before, s.zlib, k, settings);
    forall j | l.taken <= j < l.taken + ReadCount(h, Fed(input.batches, h)) ensures l.up[j].compression == k.peer.compression {
      UndecodedFrames(k, settings, j);
    }
    var moves := TurnMoves(s, input, l, h);
    TakesOk(l, moves, s.zlib, AfterTurn(s, l, h, input), settings);
  }

  lemma TurnLeft(s: B.Server, input: B.Input, l: Link, h: nat)
    requires BT.Sound(s) && !s.crashed && HasLeft(s, l, h)
    ensures TurnReads(s, l, h, input) && AfterTurn(s, l, h, input) == l && HasLeft(B.Turn(s, input), l, h)
  {
    hide BT.Sound, B.Turn, Beats, ArrivalsOf, B.Locate;
    var steps := TurnSteps(s, input);
    LeadsIs(s, steps, B.Turn(s, input));
    PathLeft(s, steps, l, h);
  }

  lemma ClientActsShows(s: B.Server, l: Link, h: nat, o: Operation)
    ensures var k := Next(l, ClientOperates(o)); (Shows(s, l, h) ==> Shows(s, k, h)) && (HasLeft(s, l, h) ==> HasLeft(s, k, h))
  {
    hide Present, MethodsOf, B.Locate, Apply, CodecAgreement.Decoded;
  }

  lemma {:induction false} PlaysAgree(s: B.Server, l: Link, h: nat, deeds: seq<Deed>, settings: Settings)
    requires BT.Sound(s) && !s.crashed && (Shows(s, l, h) || HasLeft(s, l, h)) && LinkOk(l, settings) && Plays(s, l, h, deeds)
    ensures AllRead(s, l, h, deeds)
    decreases |deeds|
  {
    hide BT.Sound, B.Turn, Shows, LinkOk, May, Agrees, TurnReads, AfterTurn, Receives, Next;
    if deeds != [] {
      match deeds[0]
      case BrokerTurns(input) =>
        LeftAbsent(s, l, h);
        if Shows(s, l, h) {
          TurnAgrees(s, input, l, h, settings);
        } else {
          TurnLeft(s, input, l, h);
        }
        BT.TurnKeeps(s, input);
        PlaysAgree(B.Turn(s, input), AfterTurn(s, l, h, input), h, deeds[1..], settings);
      case ClientActs(o) =>
        MoveAgrees(l, ClientOperates(o), s.zlib, settings);
        ClientActsShows(s, l, h, o);
        PlaysAgree(s, Next(l, ClientOperates(o)), h, deeds[1..], settings);
    }
  }

  lemma LeftAbsent(s: B.Server, l: Link, h: nat)
    ensures (Shows(s, l, h) ==> l.present) && (HasLeft(s, l, h) ==> !l.present)
  {
  }

  /** The broker in any state it can reach, and a client that was just accepted. From then on let the broker
      run its turns, with whatever other clients come, go and send, and let the client do what its
      application tells it to: each frame is decoded with the compression it was encoded with, by the broker
      and by the client. */
  lemma BrokerAgrees(password: Option<string>, zlib: bool, past: seq<B.Input>, l: Link, h: nat, deeds: seq<Deed>, settings: Settings)
    requires
      var s := B.Run(B.Start(password, zlib), past);
      !s.crashed && Shows(s, l, h) && LinkStart(l, settings) && Plays(s, l, h, deeds)
    ensures AllRead(B.Run(B.Start(password, zlib), past), l, h, deeds)
  {
    hide B.Run, BT.Sound, Shows, Plays, AllRead, LinkStart, LinkOk, B.Start;
    BT.RunKeeps(password, zlib, past);
    StartOk(l, settings);
    PlaysAgree(B.Run(B.Start(password, zlib), past), l, h, deeds, settings);
  }

  /** A client that was just accepted is one the broker knows nothing of. */
  lemma AcceptedUntouched(h: nat)
    ensures CodecAgreement.Untouched(B.NewClient(h)) && CodecAgreement.Untouched(B.NewClient(h).(accepted := true))
  {
  }
}

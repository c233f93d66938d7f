/** How a call that waits comes to its end in the course of a whole turn. */
module BrokerWaits {
  import opened Options
  import opened JsonPath
  import opened Methods
  import opened BrokerState
  import opened BrokerCalm
  import opened BrokerInvariant
  import opened BrokerRun
  import opened BrokerReap
  import opened BrokerTheorems
  import opened BrokerCalls
  import A = BrokerAnswers
  import opened BrokerSteps
  import opened BrokerFrame

  /** The method at the head of the queue is a result from the client that was called, and it answered w:
      the first wait with that command, sequence number and callee. */
  ghost predicate EndedByResult(s: Server, c: Client, d: Client, w: Request) {
    && s.methods != [] && ResultFrom(s.methods[0], Some(w.destination))
    && Present(s, s.methods[0].source).Some? && Present(s, s.methods[0].source).value.identifier == Some(w.destination)
    && exists n: nat :: n < |c.waits| && c.waits[n] == w && EndsWait(c, d, n, s.methods[0], w.destination)
  }

  /** The client that was called is taken off the list, and the call is answered with -1. */
  ghost predicate EndedByReaping(s: Server, place: nat, d: Client, w: Request) {
    place < |s.clients| && s.clients[place].identifier == Some(w.destination) && SetResultCode(w, -1) in d.results
  }

  ghost predicate Ended(s: Server, x: Step, c: Client, d: Client, w: Request) {
    (x.Handle? && EndedByResult(s, c, d, w)) || (x.Bury? && EndedByReaping(s, x.place, d, w))
  }

  lemma HandleWaits(s: Server, i: nat, w: Request)
    requires Sound(s) && !s.crashed && s.methods != [] && !Do(s, Handle).crashed && i < |s.clients|
    ensures i < |Do(s, Handle).clients|
    ensures w in s.clients[i].waits && w !in Do(s, Handle).clients[i].waits ==>
      EndedByResult(s, s.clients[i], Do(s, Handle).clients[i], w)
  {
    hide Inv, Alive, HandleMethod, Locate, DistinctNames, HandlesOk, AllTended, HeardFrom, Present, WaitsMove, EndedByResult;
    ListAfterHandle(s);
    SoundInv(s);
    InvNames(s);
    var m := s.methods[0];
    var k := Locate(s.clients, m.source).value;
    WaitsMoveByMethods(s.(methods := s.methods[1..]), m, k);
    if w in s.clients[i].waits && w !in Do(s, Handle).clients[i].waits {
      MovedWait(s.clients[i], Do(s, Handle).clients[i], m, s.clients[k].identifier, w);
      PresentAt(s, m.source);
      ItEnded(s, s.clients[i], Do(s, Handle).clients[i], w);
    }
  }

  lemma ItEnded(s: Server, c: Client, d: Client, w: Request)
    requires s.methods != [] && ResultFrom(s.methods[0], Some(w.destination))
    requires Present(s, s.methods[0].source).Some? && Present(s, s.methods[0].source).value.identifier == Some(w.destination)
    requires exists n: nat :: n < |c.waits| && c.waits[n] == w && EndsWait(c, d, n, s.methods[0], w.destination)
    ensures EndedByResult(s, c, d, w)
  {
    hide Present, ResultFrom, EndsWait;
  }

  lemma MovedWait(c: Client, d: Client, m: Request, name: Option<string>, w: Request)
    requires WaitsMove(c, d, m, name) && w in c.waits && w !in d.waits
    ensures name == Some(w.destination) && ResultFrom(m, name)
    ensures exists n: nat :: n < |c.waits| && c.waits[n] == w && EndsWait(c, d, n, m, w.destination)
  {
    hide StringAt, IntAt, LookUp, SetResultCode, SetResultPayload, Mbus, ResultFrom;
    ResultNamed(m, name);
    var n: nat :| EndsWait(c, d, n, m, name.value);
    OneCut(c.waits, n, w);
  }

  lemma OneCut(waits: seq<Request>, n: nat, w: Request)
    requires n < |waits| && w in waits && w !in waits[..n] + waits[n + 1..]
    ensures waits[n] == w
  {
    assert waits == waits[..n] + [waits[n]] + waits[n + 1..];
  }

  lemma ResultNamed(m: Request, name: Option<string>)
    ensures ResultFrom(m, name) ==> name.Some?
  {
  }

  /** One step, for a client that stays: a wait that is gone afterwards came to one of the two ends. */
  lemma StepWaits(s: Server, x: Step, i: nat, w: Request)
    requires Sound(s) && Possible(s, x) && !Do(s, x).crashed && i < |s.clients| && Stays(x, i)
    requires w in s.clients[i].waits
    ensures PlaceAfter(x, i) < |Do(s, x).clients|
    ensures var d := Do(s, x).clients[PlaceAfter(x, i)]; w in d.waits || Ended(s, x, s.clients[i], d, w)
  {
    hide Inv, Alive, HandleMethod, PingCheck, EmitOne, Receive, Locate, Welcome, ReapOne, EndedByResult, SetResultCode;
    match x {
      case Handle => HandleWaits(s, i, w);
      case CheckAll(now) => PingCheckCalm(s.clients[i], now);
      case EmitAll => EmitOneCalm(s.clients[i]);
      case Join =>
      case Drop(lost) =>
      case Arrive(handle, arrival) =>
        LocateIs(s.clients, handle);
        ReceiveWaits(s, Locate(s.clients, handle).value, arrival, i);
      case Mark =>
      case Greet(place, at) => ListAfterGreet(s, place, at);
      case Bury(place, at) => BuryWaits(s, place, at, i, w);
    }
  }

  lemma ReceiveWaits(s: Server, k: nat, a: Arrival, i: nat)
    requires k < |s.clients| && i < |s.clients|
    ensures i < |Receive(s, k, a).0.clients| && Receive(s, k, a).0.clients[i].waits == s.clients[i].waits
  {
    hide CreateRequest, Mbus;
  }

  lemma BuryWaits(s: Server, place: nat, at: int, i: nat, w: Request)
    requires place < |s.clients| && s.methods == [] && i < |s.clients| && i != place && w in s.clients[i].waits
    ensures
      var j := if place < i then i - 1 else i;
      var t := ReapOne(s, place, at);
      j < |t.clients| && (w in t.clients[j].waits || EndedByReaping(s, place, t.clients[j], w))
  {
    hide ReapOne, SetResultCode;
    var j: nat := if place < i then i - 1 else i;
    WaitsEndByReaping(s, place, at, j);
    var d, c := ReapOne(s, place, at).clients[j], s.clients[i];
    if w !in d.waits {
      assert SetResultCode(w, -1) in d.results[|c.results|..];
    }
  }

  /** At this step of the client's life the wait came to its end. */
  ghost predicate EndedAt(s: Server, x: Step, h: nat, w: Request) {
    && Present(s, h).Some? && w in Present(s, h).value.waits
    && Present(Do(s, x), h).Some? && w !in Present(Do(s, x), h).value.waits
    && Ended(s, x, Present(s, h).value, Present(Do(s, x), h).value, w)
  }

  lemma {:induction false} PathWaits(s: Server, steps: seq<Step>, h: nat, w: Request) returns (n: nat)
    requires Sound(s) && Path(s, steps) && !DoAll(s, steps).crashed
    requires Present(s, h).Some? && w in Present(s, h).value.waits
    requires Present(DoAll(s, steps), h).Some? && w !in Present(DoAll(s, steps), h).value.waits
    ensures n < |steps| && EndedAt(DoAll(s, steps[..n]), steps[n], h, w)
    decreases |steps|
  {
    hide Sound, Do, Locate, Present, Ended;
    PresentAt(s, h);
    PresentAt(DoAll(s, steps), h);
    var x, t, i := steps[0], Do(s, steps[0]), Locate(s.clients, h).value;
    StepKeeps(s, x);
    StillAlive(t, steps[1..]);
    StepLocates(s, x, h, i);
    PresentAt(t, h);
    if Stays(x, i) {
      StepWaits(s, x, i, w);
      if w in Present(t, h).value.waits {
        var k := PathWaits(t, steps[1..], h, w);
        n := k + 1;
        assert steps[..n][0] == x && steps[..n][1..] == steps[1..][..k];
      } else {
        n := 0;
      }
    } else {
      n := 0;
      StepPlaces(s, x);
      PathGone(t, steps[1..], h);
    }
  }

  /** In every turn: a call that waited before and does not wait afterwards was ended, at one step of the
      turn, by a fitting result from the very client that was called, or by that client being taken off
      the list; in the first case the answer carries what that client sent, in the second -1. */
  lemma WaitsEndInTurns(password: Option<string>, zlib: bool, past: seq<Input>, input: Input, h: nat, w: Request)
    returns (steps: seq<Step>, n: nat)
    requires
      var s := Run(BrokerState.Start(password, zlib), past);
      && !s.crashed && Present(s, h).Some? && w in Present(s, h).value.waits
      && !Turn(s, input).crashed && Present(Turn(s, input), h).Some? && w !in Present(Turn(s, input), h).value.waits
    ensures
      var s := Run(BrokerState.Start(password, zlib), past);
      Leads(s, steps, Turn(s, input)) && n < |steps| && EndedAt(DoAll(s, steps[..n]), steps[n], h, w)
  {
    hide Run, Turn, Sound, Present, Do, Ended, Beats, ArrivalsOf;
    RunKeeps(password, zlib, past);
    var s := Run(BrokerState.Start(password, zlib), past);
    steps := TurnSteps(s, input);
    LeadsIs(s, steps, Turn(s, input));
    n := PathWaits(s, steps, h, w);
  }

  // ----- nobody answers ahead of time -----

  ghost predicate AsReceived(ms: seq<Request>) {
    forall n | 0 <= n < |ms| :: ms[n].result == InitialResult(ms[n].sequence)
  }

  /** What is queued or waits carries the empty result it was received with. */
  ghost predicate Unanswered(s: Server) {
    AsReceived(s.methods) && forall k | 0 <= k < |s.clients| :: AsReceived(s.clients[k].waits)
  }

  lemma HandledUnanswered(s: Server)
    requires Sound(s) && !s.crashed && s.methods != [] && !Do(s, Handle).crashed && Unanswered(s)
    ensures Unanswered(Do(s, Handle))
  {
    hide Inv, Alive, HandleMethod, Locate, DistinctNames, HandlesOk, AllTended, HeardFrom, EndsWait, ResultFrom, InitialResult;
    ListAfterHandle(s);
    SoundInv(s);
    InvNames(s);
    HandleStep(s);
    var m, t := s.methods[0], Do(s, Handle);
    var i := Locate(s.clients, m.source).value;
    WaitsMoveByMethods(s.(methods := s.methods[1..]), m, i);
    forall k | 0 <= k < |t.clients| ensures AsReceived(t.clients[k].waits) {
      assert WaitsMove(s.clients[k], t.clients[k], m, s.clients[i].identifier);
      assert AsReceived(s.clients[k].waits);
      MovedAsReceived(s.clients[k], t.clients[k], m, s.clients[i].identifier);
    }
  }

  lemma MovedAsReceived(c: Client, d: Client, m: Request, name: Option<string>)
    requires WaitsMove(c, d, m, name) && AsReceived(c.waits) && m.result == InitialResult(m.sequence)
    ensures AsReceived(d.waits)
  {
    hide InitialResult, StringAt, IntAt, LookUp, SetResultCode, SetResultPayload, Mbus;
    if d.waits != c.waits && d.waits != c.waits + [m] {
      var n: nat :| EndsWait(c, d, n, m, name.value);
      assert d.waits == c.waits[..n] + c.waits[n + 1..];
    }
  }

  lemma MethodsAfter(s: Server, place: nat, at: int)
    requires place < |s.clients|
    ensures Welcome(s, place, at).methods == s.methods && (s.methods == [] ==> ReapOne(s, place, at).methods == [])
  {
    hide Tell, BereaveAll;
  }

  lemma BuriedUnanswered(s: Server, place: nat, at: int)
    requires place < |s.clients| && s.methods == [] && Unanswered(s)
    ensures Unanswered(ReapOne(s, place, at))
  {
    hide ReapOne, InitialResult, SetResultCode;
    var t := ReapOne(s, place, at);
    ListAfterBury(s, place, at);
    MethodsAfter(s, place, at);
    forall k: nat | k < |t.clients| ensures AsReceived(t.clients[k].waits) {
      WaitsEndByReaping(s, place, at, k);
      var c, d := s.clients[if k < place then k else k + 1], t.clients[k];
      assert AsReceived(c.waits);
      forall n | 0 <= n < |d.waits| ensures d.waits[n].result == InitialResult(d.waits[n].sequence) {
        assert d.waits[n] in d.waits && d.waits[n] in c.waits;
      }
    }
  }

  lemma ReceivedUnanswered(s: Server, i: nat, a: Arrival)
    requires i < |s.clients| && Unanswered(s)
    ensures Unanswered(Receive(s, i, a).0)
  {
    hide InitialResult, Mbus, StringAt, IntAt, LookUp;
    var m := CreateRequest(s.clients[i].handle, a.text, a.now, a.draw);
  }

  lemma StepUnanswered(s: Server, x: Step)
    requires Sound(s) && Possible(s, x) && !Do(s, x).crashed && Unanswered(s)
    ensures Unanswered(Do(s, x))
  {
    hide Inv, Alive, HandleMethod, PingCheck, EmitOne, Receive, Locate, Welcome, ReapOne, AsReceived;
    match x {
      case Handle => HandledUnanswered(s);
      case CheckAll(now) =>
        forall k | 0 <= k < |s.clients| ensures PingCheck(s.clients[k], now).waits == s.clients[k].waits {
          PingCheckCalm(s.clients[k], now);
        }
      case EmitAll =>
        forall k | 0 <= k < |s.clients| ensures EmitOne(s.clients[k]).waits == s.clients[k].waits {
          EmitOneCalm(s.clients[k]);
        }
      case Join => NothingReceived();
      case Drop(lost) =>
      case Arrive(handle, arrival) =>
        LocateIs(s.clients, handle);
        ReceivedUnanswered(s, Locate(s.clients, handle).value, arrival);
      case Mark =>
      case Greet(place, at) =>
        ListAfterGreet(s, place, at);
        MethodsAfter(s, place, at);
      case Bury(place, at) => BuriedUnanswered(s, place, at);
    }
  }

  lemma NothingReceived()
    ensures AsReceived([])
  {
  }

  lemma {:induction false} PathUnanswered(s: Server, steps: seq<Step>)
    requires Sound(s) && Path(s, steps) && !DoAll(s, steps).crashed && Unanswered(s)
    ensures Unanswered(DoAll(s, steps))
    decreases |steps|
  {
    hide Sound, Do, Unanswered;
    if steps != [] {
      StepKeeps(s, steps[0]);
      StillAlive(Do(s, steps[0]), steps[1..]);
      StepUnanswered(s, steps[0]);
      PathUnanswered(Do(s, steps[0]), steps[1..]);
    }
  }

  lemma CrashStays(s: Server, input: Input)
    requires s.crashed
    ensures Turn(s, input).crashed
  {
  }

  /** In every reachable state no method that is queued and no call that waits carries an answer. */
  lemma {:induction false} RunUnanswered(password: Option<string>, zlib: bool, inputs: seq<Input>)
    requires !Run(BrokerState.Start(password, zlib), inputs).crashed
    ensures Unanswered(Run(BrokerState.Start(password, zlib), inputs))
    decreases |inputs|
  {
    hide Sound, Turn, Do, Beats, ArrivalsOf;
    if inputs == [] {
      NothingReceived();
    } else {
      var past, input := inputs[..|inputs| - 1], inputs[|inputs| - 1];
      var s := Run(BrokerState.Start(password, zlib), past);
      hide Run, Unanswered;
      RunKeeps(password, zlib, past);
      if s.crashed {
        CrashStays(s, input);
      } else {
        RunUnanswered(password, zlib, past);
        var steps := TurnSteps(s, input);
        LeadsIs(s, steps, Turn(s, input));
        PathUnanswered(s, steps);
      }
    }
  }

  /** The state a result meets in a run. */
  lemma RunAwaits(password: Option<string>, zlib: bool, inputs: seq<Input>)
    requires !Run(BrokerState.Start(password, zlib), inputs).crashed
    ensures A.WaitsUnanswered(Run(BrokerState.Start(password, zlib), inputs))
  {
    hide Run, InitialResult;
    RunUnanswered(password, zlib, inputs);
    var s := Run(BrokerState.Start(password, zlib), inputs);
    forall a, n | 0 <= a < |s.clients| && 0 <= n < |s.clients[a].waits|
      ensures s.clients[a].waits[n].result == InitialResult(s.clients[a].waits[n].sequence)
    {
      assert AsReceived(s.clients[a].waits);
    }
  }
}

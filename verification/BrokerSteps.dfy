/** A turn of the broker as a list of small steps: what every step keeps, turns and runs keep. Along the
    way, what the ping record of a client meets, and which messages of a client arrive. */
module BrokerSteps {
  import opened Options
  import opened JsonPath
  import opened Methods
  import opened BrokerState
  import opened BrokerCalm
  import opened BrokerInvariant
  import opened BrokerRun
  import opened BrokerReap
  import opened BrokerTheorems

  // ----- steps -----

  datatype Step =
    | Handle
    | CheckAll(now: int)
    | EmitAll
    | Join
    | Drop(lost: nat)
    | Arrive(handle: nat, arrival: Arrival)
    | Mark
    | Greet(place: nat, at: int)
    | Bury(place: nat, at: int)

  function Do(s: Server, x: Step): Server {
    match x
    case Handle => if s.methods == [] then s else HandleMethod(s.(methods := s.methods[1..]), s.methods[0])
    case CheckAll(now) => CheckPings(s, now)
    case EmitAll => Emit(s)
    case Join => Accept(s)
    case Drop(lost) => Lose(s, lost)
    case Arrive(handle, arrival) =>
      var i := Locate(s.clients, handle);
      if i.None? then s else Receive(s, i.value, arrival).0
    case Mark => AcceptAll(s)
    case Greet(place, at) => if place < |s.clients| then Welcome(s, place, at) else s
    case Bury(place, at) => if place < |s.clients| then ReapOne(s, place, at) else s
  }

  /** When a turn makes the step. */
  ghost predicate Possible(s: Server, x: Step) {
    && !s.crashed
    && match x
       case Handle => s.methods != []
       case Arrive(handle, arrival) => Locate(s.clients, handle).Some?
       case Greet(place, at) => place < |s.clients|
       case Bury(place, at) => place < |s.clients| && !s.clients[place].open && s.methods == []
       case _ => true
  }

  ghost predicate Path(s: Server, steps: seq<Step>)
    decreases |steps|
  {
    steps == [] || (Possible(s, steps[0]) && Path(Do(s, steps[0]), steps[1..]))
  }

  function DoAll(s: Server, steps: seq<Step>): Server
    decreases |steps|
  {
    if steps == [] then s else DoAll(Do(s, steps[0]), steps[1..])
  }

  ghost predicate Leads(s: Server, steps: seq<Step>, t: Server) {
    Path(s, steps) && DoAll(s, steps) == t
  }

  // ----- what the ping record of a client meets -----

  /** The check of a turn, or a ping that is handled. */
  datatype Beat = Check(now: int) | Heard(now: int)

  /** A ping to the broker, as an event of its own or in an event command. */
  predicate IsPing(m: Request) {
    && m.destination == SERVER
    && if m.kind == TYPE_COMMAND then
         m.identifier == "command.event" && StringAt(Some(m.payload), TAG_DESTINATION) == Some(SERVER)
         && StringAt(Some(m.payload), TAG_IDENTIFIER) == Some(PING) && LookUp(Some(m.payload), TAG_PAYLOAD).Some?
       else m.kind == TYPE_EVENT && m.identifier == PING
  }

  function HeardFrom(m: Request, h: nat): seq<Beat> {
    if m.source == h && IsPing(m) then [Heard(m.now)] else []
  }

  function Heards(methods: seq<Request>, h: nat): seq<Beat> {
    if methods == [] then [] else HeardFrom(methods[0], h) + Heards(methods[1..], h)
  }

  function BeatsOf(s: Server, x: Step, h: nat): seq<Beat> {
    match x
    case Handle => if s.methods == [] then [] else HeardFrom(s.methods[0], h)
    case CheckAll(now) => [Check(now)]
    case _ => []
  }

  function Beats(s: Server, steps: seq<Step>, h: nat): seq<Beat>
    decreases |steps|
  {
    if steps == [] then [] else BeatsOf(s, steps[0], h) + Beats(Do(s, steps[0]), steps[1..], h)
  }

  // ----- which messages of a client arrive -----

  function ArrivalsOf(steps: seq<Step>, h: nat): seq<Arrival> {
    if steps == [] then []
    else (if steps[0].Arrive? && steps[0].handle == h then [steps[0].arrival] else []) + ArrivalsOf(steps[1..], h)
  }

  function Fed(batches: seq<Batch>, h: nat): seq<Arrival> {
    if batches == [] then [] else (if batches[0].handle == h then batches[0].arrivals else []) + Fed(batches[1..], h)
  }

  /** How many of its messages the decode loop of a client takes: it stops behind the first invalid one. */
  function ReadCount(h: nat, arrivals: seq<Arrival>): (n: nat)
    ensures n <= |arrivals|
  {
    if arrivals == [] then 0
    else
      var m := CreateRequest(h, arrivals[0].text, arrivals[0].now, arrivals[0].draw);
      if m.None? || m.value.kind !in {TYPE_COMMAND, TYPE_EVENT} then 1 else 1 + ReadCount(h, arrivals[1..])
  }

  /** A turn runs at most one decode loop for a client. */
  ghost predicate Single(batches: seq<Batch>, h: nat) {
    forall i, j | 0 <= i < j < |batches| :: batches[i].handle != h || batches[j].handle != h
  }

  // ----- lists of steps -----

  lemma {:induction false} Onward(s: Server, a: seq<Step>, t: Server, b: seq<Step>, u: Server)
    requires Leads(s, a, t) && Leads(t, b, u)
    ensures Leads(s, a + b, u)
    ensures forall h :: Beats(s, a + b, h) == Beats(s, a, h) + Beats(t, b, h)
    ensures forall h :: ArrivalsOf(a + b, h) == ArrivalsOf(a, h) + ArrivalsOf(b, h)
    decreases |a|
  {
    hide Do, Possible, BeatsOf;
    if a == [] {
      assert a + b == b;
    } else {
      Onward(Do(s, a[0]), a[1..], t, b, u);
      assert (a + b)[0] == a[0] && (a + b)[1..] == a[1..] + b;
    }
  }

  lemma NoSteps(s: Server)
    ensures Leads(s, [], s)
    ensures forall h :: Beats(s, [], h) == [] && ArrivalsOf([], h) == []
  {
  }

  lemma OneStep(s: Server, x: Step)
    requires Possible(s, x)
    ensures Leads(s, [x], Do(s, x))
    ensures forall h :: Beats(s, [x], h) == BeatsOf(s, x, h)
    ensures forall h :: ArrivalsOf([x], h) == if x.Arrive? && x.handle == h then [x.arrival] else []
  {
    hide Do, Possible, BeatsOf;
    assert [x][1..] == [];
    NoSteps(Do(s, x));
    forall h ensures Beats(s, [x], h) == BeatsOf(s, x, h) {
      assert Beats(s, [x], h) == BeatsOf(s, x, h) + Beats(Do(s, x), [x][1..], h);
    }
  }

  /** One step more in front. */
  lemma StepThen(s: Server, x: Step, t: Server, b: seq<Step>, u: Server)
    requires Possible(s, x) && Do(s, x) == t && Leads(t, b, u)
    ensures Leads(s, [x] + b, u)
    ensures forall h :: Beats(s, [x] + b, h) == BeatsOf(s, x, h) + Beats(t, b, h)
    ensures forall h :: ArrivalsOf([x] + b, h) == (if x.Arrive? && x.handle == h then [x.arrival] else []) + ArrivalsOf(b, h)
  {
    hide Do, Possible, BeatsOf, Leads, Beats, ArrivalsOf;
    OneStep(s, x);
    Onward(s, [x], t, b, u);
  }

  /** No method is handled, no ping checked, no message arrives. */
  ghost predicate Silent(s: Server, steps: seq<Step>) {
    forall h :: Beats(s, steps, h) == [] && ArrivalsOf(steps, h) == []
  }


  // ----- every step keeps the invariant -----

  lemma HandleStep(s: Server)
    requires Sound(s) && !s.crashed && s.methods != []
    ensures var t := Do(s, Handle); Sound(t) && (t.crashed || t.methods == s.methods[1..])
  {
    hide Inv, Alive, HandleMethod, Faces;
    var m, rest := s.methods[0], s.methods[1..];
    assert s.methods == [m] + rest;
    HandleKeeps(s, m, rest);
    var t := HandleMethod(s.(methods := rest), m);
    if t.crashed {
      CrashedInv(t);
      CrashedAlive(t);
    } else {
      HandleFaces(s.(methods := rest), m);
      FacesKeep(s, t);
    }
  }

  lemma StepKeeps(s: Server, x: Step)
    requires Sound(s) && Possible(s, x)
    ensures Sound(Do(s, x))
    ensures !x.Handle? ==> !Do(s, x).crashed
  {
    hide Inv, Alive, HandleMethod, CheckPings, Emit, Accept, Receive, AcceptAll, Welcome, ReapOne, Lose;
    match x
    case Handle => HandleStep(s);
    case CheckAll(now) =>
      CheckPingsKeeps(s, now);
      ChecksSteady(s, now);
    case EmitAll =>
      EmitKeeps(s);
      EmitSteady(s);
    case Join => AcceptKeeps(s);
    case Drop(lost) => LoseKeeps(s, lost);
    case Arrive(handle, arrival) =>
      LocateIs(s.clients, handle);
      ReceiveKeeps(s, Locate(s.clients, handle).value, arrival);
    case Mark =>
      AcceptAllKeeps(s);
      ChecksSteady(s, 0);
    case Greet(place, at) => WelcomeKeeps(s, place, at);
    case Bury(place, at) => ReapOneKeeps(s, place, at);
  }

  lemma EmitSteady(s: Server)
    ensures Emit(s).crashed == s.crashed && Emit(s).methods == s.methods
  {
  }

  lemma LoseKeeps(s: Server, lost: nat)
    requires Sound(s) && !s.crashed
    ensures Sound(Lose(s, lost)) && !Lose(s, lost).crashed && Lose(s, lost).methods == s.methods
  {
    hide Inv, Alive, Locate;
    var i := Locate(s.clients, lost);
    if i.Some? {
      LocateIs(s.clients, lost);
      CloseOneKeeps(s, i.value, ConnectionClosed);
    }
  }

  // ----- the parts of a turn -----

  lemma {:induction false} DrainSteps(s: Server) returns (steps: seq<Step>)
    requires Sound(s) && !s.crashed
    ensures Leads(s, steps, HandleMethods(s)) && NoBuries(steps) && NoWrites(steps)
    ensures forall h :: ArrivalsOf(steps, h) == []
    ensures !HandleMethods(s).crashed ==> forall h :: Beats(s, steps, h) == Heards(s.methods, h)
    decreases |s.methods|
  {
    hide Sound, HandleMethod, HeardFrom, Leads, Beats, ArrivalsOf;
    steps := [];
    NoSteps(s);
    if s.methods != [] {
      HandleStep(s);
      var t := Do(s, Handle);
      if t.crashed {
        CrashedInv(t);
        OneStep(s, Handle);
        steps := [Handle];
      } else {
        var rest := DrainSteps(t);
        StepThen(s, Handle, t, rest, HandleMethods(t));
        steps := [Handle] + rest;
      }
    }
  }

  lemma {:induction false} JoinSteps(s: Server, n: nat) returns (steps: seq<Step>)
    requires Sound(s) && !s.crashed
    ensures Leads(s, steps, AcceptMany(s, n)) && Silent(s, steps) && NoBuries(steps) && NoWrites(steps)
    decreases n
  {
    hide Sound, Accept, Leads, Beats, ArrivalsOf;
    steps := [];
    NoSteps(s);
    if n > 0 {
      StepKeeps(s, Join);
      var rest := JoinSteps(Accept(s), n - 1);
      StepThen(s, Join, Accept(s), rest, AcceptMany(s, n));
      steps := [Join] + rest;
    }
  }

  lemma {:induction false} DropSteps(s: Server, lost: seq<nat>) returns (steps: seq<Step>)
    requires Sound(s) && !s.crashed
    ensures Leads(s, steps, LoseMany(s, lost)) && Silent(s, steps) && NoBuries(steps) && NoWrites(steps)
    decreases |lost|
  {
    hide Sound, Lose, Leads, Beats, ArrivalsOf;
    steps := [];
    NoSteps(s);
    if lost != [] {
      StepKeeps(s, Drop(lost[0]));
      var rest := DropSteps(Lose(s, lost[0]), lost[1..]);
      StepThen(s, Drop(lost[0]), Lose(s, lost[0]), rest, LoseMany(s, lost));
      steps := [Drop(lost[0])] + rest;
    }
  }

  lemma ReceiveLocates(s: Server, i: nat, a: Arrival, handle: nat)
    requires i < |s.clients|
    ensures Locate(Receive(s, i, a).0.clients, handle) == Locate(s.clients, handle)
  {
    hide CreateRequest, Mbus, Locate;
    LocateSame(s.clients, Receive(s, i, a).0.clients, handle);
  }

  lemma {:induction false} ReceiveSteps(s: Server, i: nat, handle: nat, arrivals: seq<Arrival>) returns (steps: seq<Step>)
    requires Sound(s) && !s.crashed && i < |s.clients| && Locate(s.clients, handle) == Some(i)
    ensures Leads(s, steps, ReceiveAll(s, i, arrivals)) && Sound(ReceiveAll(s, i, arrivals)) && !ReceiveAll(s, i, arrivals).crashed
    ensures forall h :: Beats(s, steps, h) == []
    ensures forall h :: ArrivalsOf(steps, h) == if h == handle then arrivals[..ReadCount(handle, arrivals)] else []
    ensures forall h :: Locate(ReceiveAll(s, i, arrivals).clients, h) == Locate(s.clients, h)
    ensures NoBuries(steps) && NoWrites(steps)
    decreases |arrivals|
  {
    hide Sound, Receive, Leads, Beats, ArrivalsOf, Locate, ReadCount;
    steps := [];
    NoSteps(s);
    ReadCountStep(s, i, handle, arrivals);
    if arrivals != [] {
      var x := Arrive(handle, arrivals[0]);
      var (t, ok) := Receive(s, i, arrivals[0]);
      ReceiveStep(s, i, handle, arrivals[0]);
      forall h ensures Locate(t.clients, h) == Locate(s.clients, h) { ReceiveLocates(s, i, arrivals[0], h); }
      if ok {
        var rest := ReceiveSteps(t, i, handle, arrivals[1..]);
        StepThen(s, x, t, rest, ReceiveAll(t, i, arrivals[1..]));
        steps := [x] + rest;
        var n := ReadCount(handle, arrivals[1..]);
        assert [arrivals[0]] + arrivals[1..][..n] == arrivals[..n + 1];
      } else {
        OneStep(s, x);
        steps := [x];
        assert [arrivals[0]] == arrivals[..1];
      }
    }
  }

  lemma ReadCountStep(s: Server, i: nat, handle: nat, arrivals: seq<Arrival>)
    requires i < |s.clients| && Locate(s.clients, handle) == Some(i)
    ensures ReadCount(handle, arrivals) ==
      if arrivals == [] then 0 else if Receive(s, i, arrivals[0]).1 then 1 + ReadCount(handle, arrivals[1..]) else 1
  {
    hide CreateRequest, Mbus, Locate;
    LocateIs(s.clients, handle);
  }

  /** Nobody is taken off the list. */
  ghost predicate NoWrites(steps: seq<Step>) {
    forall k | 0 <= k < |steps| :: !steps[k].EmitAll?
  }

  ghost predicate NoBuries(steps: seq<Step>) {
    forall n | 0 <= n < |steps| :: !steps[n].Bury?
  }

  lemma ReceiveStep(s: Server, i: nat, handle: nat, a: Arrival)
    requires Sound(s) && !s.crashed && i < |s.clients| && Locate(s.clients, handle) == Some(i)
    ensures
      var t := Receive(s, i, a).0;
      && Possible(s, Arrive(handle, a)) && Do(s, Arrive(handle, a)) == t && Sound(t) && !t.crashed && |t.clients| == |s.clients|
      && Locate(t.clients, handle) == Some(i)
  {
    hide Inv, Alive, Receive, Locate;
    ReceiveKeeps(s, i, a);
    ReceiveLocates(s, i, a, handle);
  }

  lemma {:induction false} DecodeSteps(s: Server, batches: seq<Batch>) returns (steps: seq<Step>)
    requires Sound(s) && !s.crashed
    ensures Leads(s, steps, DecodeMany(s, batches)) && NoBuries(steps) && NoWrites(steps)
    ensures forall h :: Beats(s, steps, h) == []
    ensures forall h, a :: a in ArrivalsOf(steps, h) ==> a in Fed(batches, h)
    ensures forall h :: Single(batches, h) && Locate(s.clients, h).Some? ==>
      ArrivalsOf(steps, h) == Fed(batches, h)[..ReadCount(h, Fed(batches, h))]
    decreases |batches|
  {
    hide Sound, Leads, Beats, ArrivalsOf, Locate, ReceiveAll, ReadCount;
    steps := [];
    NoSteps(s);
    NothingRead();
    if batches != [] {
      var b, i := batches[0], Locate(s.clients, batches[0].handle);
      if i.None? {
        steps := DecodeSteps(s, batches[1..]);
        forall h | Single(batches, h) && Locate(s.clients, h).Some?
          ensures ArrivalsOf(steps, h) == Fed(batches, h)[..ReadCount(h, Fed(batches, h))]
        {
          SingleRest(batches, h);
          assert [] + Fed(batches[1..], h) == Fed(batches[1..], h);
        }
      } else {
        LocateIs(s.clients, b.handle);
        var first := ReceiveSteps(s, i.value, b.handle, b.arrivals);
        var t := ReceiveAll(s, i.value, b.arrivals);
        var rest := DecodeSteps(t, batches[1..]);
        Onward(s, first, t, rest, DecodeMany(s, batches));
        steps := first + rest;
        forall h | Single(batches, h) && Locate(s.clients, h).Some?
          ensures ArrivalsOf(steps, h) == Fed(batches, h)[..ReadCount(h, Fed(batches, h))]
        {
          SingleRest(batches, h);
          FedFirst(batches, h);
          if b.handle == h {
            assert ArrivalsOf(rest, h) == [];
            assert ArrivalsOf(first, h) + [] == ArrivalsOf(first, h);
          } else {
            assert [] + ArrivalsOf(rest, h) == ArrivalsOf(rest, h);
          }
        }
      }
    }
  }

  lemma NothingRead()
    ensures forall h :: ReadCount(h, []) == 0
  {
  }

  /** With a single batch for the client, that is all it is fed. */
  lemma FedFirst(batches: seq<Batch>, h: nat)
    requires batches != [] && (batches[0].handle == h ==> Fed(batches[1..], h) == [])
    ensures Fed(batches, h) == if batches[0].handle == h then batches[0].arrivals else Fed(batches[1..], h)
  {
    assert batches[0].arrivals + [] == batches[0].arrivals && [] + Fed(batches[1..], h) == Fed(batches[1..], h);
  }

  lemma SingleRest(batches: seq<Batch>, h: nat)
    requires batches != [] && Single(batches, h)
    ensures Single(batches[1..], h) && (batches[0].handle == h ==> Fed(batches[1..], h) == [])
  {
    var rest := batches[1..];
    assert forall i | 0 <= i < |rest| :: rest[i] == batches[i + 1];
    if batches[0].handle == h {
      NothingFed(rest, h);
    }
  }

  lemma {:induction false} NothingFed(batches: seq<Batch>, h: nat)
    requires forall i | 0 <= i < |batches| :: batches[i].handle != h
    ensures Fed(batches, h) == []
  {
    if batches != [] {
      NothingFed(batches[1..], h);
    }
  }

  lemma {:induction false} GreetSteps(s: Server, i: nat, now: int) returns (steps: seq<Step>)
    requires Sound(s) && !s.crashed
    ensures Leads(s, steps, WelcomeFrom(s, i, now)) && Silent(s, steps) && NoBuries(steps) && NoWrites(steps)
    decreases |s.clients| - i
  {
    hide Inv, Alive, Leads, Beats, ArrivalsOf, Welcome;
    steps := [];
    NoSteps(s);
    if i < |s.clients| {
      WelcomeKeeps(s, i, now);
      var rest := GreetSteps(Welcome(s, i, now), i + 1, now);
      StepThen(s, Greet(i, now), Welcome(s, i, now), rest, WelcomeFrom(s, i, now));
      steps := [Greet(i, now)] + rest;
    }
  }

  lemma {:induction false} BurySteps(s: Server, i: nat, now: int) returns (steps: seq<Step>)
    requires Sound(s) && !s.crashed && s.methods == []
    ensures Leads(s, steps, ReapFrom(s, i, now)) && Silent(s, steps) && NoWrites(steps)
    decreases |s.clients| - i
  {
    hide Inv, Alive, Leads, Beats, ArrivalsOf, ReapOne, ReapFrom;
    steps := [];
    NoSteps(s);
    ReapStep(s, i, now);
    if i < |s.clients| {
      if s.clients[i].open {
        steps := BurySteps(s, i + 1, now);
      } else {
        ReapOneKeeps(s, i, now);
        var rest := BurySteps(ReapOne(s, i, now), i, now);
        StepThen(s, Bury(i, now), ReapOne(s, i, now), rest, ReapFrom(s, i, now));
        steps := [Bury(i, now)] + rest;
      }
    }
  }

  // ----- a turn -----

  /** The state of a turn before its decode loops, and behind them. */
  function Polled(s: Server, input: Input): Server {
    if s.running then LoseMany(AcceptMany(Prepare(s, input.now), input.accepts), input.lost) else s
  }

  function Gathered(s: Server, input: Input): Server {
    DecodeMany(Polled(s, input), input.batches)
  }

  /** The state of a turn before closed clients are taken off the list. */
  function Upkeep(s: Server, input: Input): Server {
    var a := if s.running then Prepare(s, input.now) else s;
    if a.crashed then a
    else if input.failed then Gathered(s, input)
    else
      var t := HandleMethods(Gathered(s, input));
      if t.crashed then t else WelcomeFrom(AcceptAll(t), 0, input.now)
  }

  lemma TurnReaps(s: Server, input: Input)
    ensures Turn(s, input)
         == if input.failed || Upkeep(s, input).crashed then Upkeep(s, input) else ReapFrom(Upkeep(s, input), 0, input.now)
  {
    hide Prepare, LoseMany, AcceptMany, DecodeMany, HandleMethods, ReapFrom;
    var a := if s.running then Prepare(s, input.now) else s;
    if !a.crashed && !input.failed {
      var t := HandleMethods(Gathered(s, input));
      if !t.crashed {
        ChecksSteady(t, 0);
        WelcomeSteady(AcceptAll(t), 0, input.now);
      }
    }
  }

  lemma {:induction false} WelcomeSteady(s: Server, i: nat, now: int)
    ensures WelcomeFrom(s, i, now).crashed == s.crashed
    decreases |s.clients| - i
  {
    hide Tell;
    if i < |s.clients| && |Welcome(s, i, now).clients| == |s.clients| {
      WelcomeSteady(Welcome(s, i, now), i + 1, now);
    }
  }

  /** What the ping record of a client meets in a turn: the pings left in the queue and the check, if the
      broker is running, then the pings that arrived. */
  function TurnBeats(s: Server, input: Input, h: nat): seq<Beat> {
    (if s.running then Heards(s.methods, h) + [Check(input.now)] else [])
    + (if input.failed then [] else Heards(Gathered(s, input).methods, h))
  }

  lemma PrepareSteps(s: Server, now: int) returns (steps: seq<Step>)
    requires Sound(s) && !s.crashed
    ensures Leads(s, steps, Prepare(s, now)) && Sound(Prepare(s, now)) && NoBuries(steps)
    ensures forall h :: ArrivalsOf(steps, h) == []
    ensures !Prepare(s, now).crashed ==> forall h :: Beats(s, steps, h) == Heards(s.methods, h) + [Check(now)]
  {
    hide Inv, Alive, HandleMethods, CheckPings, Emit, Leads, Beats, ArrivalsOf, Heards;
    PrepareKeeps(s, now);
    var drain := DrainSteps(s);
    DrainAlive(s);
    var t := HandleMethods(s);
    steps := drain;
    if !t.crashed {
      StepKeeps(t, CheckAll(now));
      var u := CheckPings(t, now);
      OneStep(u, EmitAll);
      StepThen(t, CheckAll(now), u, [EmitAll], Emit(u));
      EmitSteady(u);
      Onward(s, drain, t, [CheckAll(now)] + [EmitAll], Emit(u));
      steps := drain + ([CheckAll(now)] + [EmitAll]);
    }
  }

  lemma PolledSteps(s: Server, input: Input) returns (steps: seq<Step>)
    requires Sound(s) && !s.crashed && (s.running ==> !Prepare(s, input.now).crashed)
    ensures Leads(s, steps, Polled(s, input)) && NoBuries(steps) && Sound(Polled(s, input)) && !Polled(s, input).crashed
    ensures forall h :: ArrivalsOf(steps, h) == []
    ensures forall h :: Beats(s, steps, h) == if s.running then Heards(s.methods, h) + [Check(input.now)] else []
  {
    hide Inv, Alive, Prepare, AcceptMany, LoseMany, Leads, Beats, ArrivalsOf, Heards;
    steps := [];
    NoSteps(s);
    if s.running {
      steps := PrepareSteps(s, input.now);
      var a := Prepare(s, input.now);
      AcceptManyKeeps(a, input.accepts);
      var b := AcceptMany(a, input.accepts);
      LoseManyKeeps(b, input.lost);
      var joins := JoinSteps(a, input.accepts);
      var drops := DropSteps(b, input.lost);
      Onward(s, steps, a, joins, b);
      Onward(s, steps + joins, b, drops, LoseMany(b, input.lost));
      steps := steps + joins + drops;
      assert forall xs: seq<Beat> :: xs + [] == xs;
    }
  }

  lemma SettleSteps(s: Server, now: int) returns (steps: seq<Step>)
    requires Sound(s) && !s.crashed
    ensures
      var t := HandleMethods(s);
      var u := if t.crashed then t else WelcomeFrom(AcceptAll(t), 0, now);
      Leads(s, steps, u) && Sound(u) && (t.crashed || (u.methods == [] && !u.crashed)) && NoBuries(steps) && NoWrites(steps)
    ensures forall h :: ArrivalsOf(steps, h) == []
    ensures !HandleMethods(s).crashed ==> forall h :: Beats(s, steps, h) == Heards(s.methods, h)
  {
    hide Inv, Alive, HandleMethods, AcceptAll, WelcomeFrom, Leads, Beats, ArrivalsOf, Heards;
    DrainAlive(s);
    var drain := DrainSteps(s);
    var t := HandleMethods(s);
    steps := drain;
    if !t.crashed {
      AcceptAllKeeps(t);
      ChecksSteady(t, now);
      WelcomeFromKeeps(AcceptAll(t), 0, now);
      var greets := GreetSteps(AcceptAll(t), 0, now);
      var u := WelcomeFrom(AcceptAll(t), 0, now);
      StepThen(t, Mark, AcceptAll(t), greets, u);
      Onward(s, drain, t, [Mark] + greets, u);
      steps := drain + ([Mark] + greets);
    }
  }

  lemma UpkeepSteps(s: Server, input: Input) returns (steps: seq<Step>)
    requires Sound(s) && !s.crashed
    ensures Leads(s, steps, Upkeep(s, input)) && Sound(Upkeep(s, input)) && NoBuries(steps)
    ensures input.failed || Upkeep(s, input).crashed || Upkeep(s, input).methods == []
    ensures !Upkeep(s, input).crashed ==> forall h :: Beats(s, steps, h) == TurnBeats(s, input, h)
    ensures forall h, a :: a in ArrivalsOf(steps, h) ==> a in Fed(input.batches, h)
    ensures !Upkeep(s, input).crashed ==> forall h :: Single(input.batches, h) && Locate(Polled(s, input).clients, h).Some? ==>
      ArrivalsOf(steps, h) == Fed(input.batches, h)[..ReadCount(h, Fed(input.batches, h))]
  {
    hide Inv, Alive, Prepare, Polled, DecodeMany, HandleMethods, AcceptAll, WelcomeFrom, Leads, Beats, ArrivalsOf, Heards, Fed, Single,
         Locate, ReadCount;
    PrepareKeeps(s, input.now);
    if s.running && Prepare(s, input.now).crashed {
      steps := PrepareSteps(s, input.now);
    } else {
      var b := Polled(s, input);
      steps := PolledSteps(s, input);
      DecodeManyKeeps(b, input.batches);
      var c := Gathered(s, input);
      var decodes := DecodeSteps(b, input.batches);
      Onward(s, steps, b, decodes, c);
      steps := steps + decodes;
      assert forall xs: seq<Beat> :: xs + [] == xs;
      assert forall xs: seq<Arrival> :: [] + xs == xs && xs + [] == xs;
      if !input.failed {
        var settled := SettleSteps(c, input.now);
        Onward(s, steps, c, settled, Upkeep(s, input));
        steps := steps + settled;
      }
    }
  }

  lemma TurnSteps(s: Server, input: Input) returns (steps: seq<Step>)
    requires Sound(s) && !s.crashed
    ensures Leads(s, steps, Turn(s, input))
    ensures !Turn(s, input).crashed ==> forall h :: Beats(s, steps, h) == TurnBeats(s, input, h)
    ensures forall h, a :: a in ArrivalsOf(steps, h) ==> a in Fed(input.batches, h)
    ensures !Turn(s, input).crashed ==> forall h :: Single(input.batches, h) && Locate(Polled(s, input).clients, h).Some? ==>
      ArrivalsOf(steps, h) == Fed(input.batches, h)[..ReadCount(h, Fed(input.batches, h))]
  {
    hide Sound, Turn, Upkeep, ReapFrom, Leads, Beats, ArrivalsOf, TurnBeats, Single, Fed, Locate, ReadCount, Polled;
    steps := UpkeepSteps(s, input);
    TurnReaps(s, input);
    var u := Upkeep(s, input);
    if !input.failed && !u.crashed {
      var buried := BurySteps(u, 0, input.now);
      Onward(s, steps, u, buried, Turn(s, input));
      steps := steps + buried;
      assert forall xs: seq<Beat> :: xs + [] == xs;
      assert forall xs: seq<Arrival> :: xs + [] == xs;
    }
  }

  lemma CrashedTurn(s: Server, input: Input)
    requires s.crashed
    ensures Turn(s, input) == s
  {
    hide LoseMany, AcceptMany, DecodeMany, Finish;
    assert HandleMethods(s) == s;
  }

  lemma StillAlive(s: Server, steps: seq<Step>)
    requires Path(s, steps) && !DoAll(s, steps).crashed
    ensures !s.crashed
  {
  }

  lemma LeadsIs(s: Server, steps: seq<Step>, t: Server)
    requires Leads(s, steps, t)
    ensures Path(s, steps) && DoAll(s, steps) == t
  {
  }
}

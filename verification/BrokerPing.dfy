/** The broker's ping check: when a client that went silent is closed, and when one is not, over any run
    of turns. */
module BrokerPing {
  import opened Options
  import opened JsonText
  import opened JsonPath
  import opened Methods
  import opened BrokerState
  import opened BrokerCalm
  import opened BrokerInvariant
  import opened BrokerRun
  import opened BrokerReap
  import opened BrokerTheorems
  import opened BrokerSteps
  import opened BrokerFrame

  // ----- one client -----

  function OnBeat(c: Client, b: Beat): Client {
    match b
    case Check(now) => PingCheck(c, now)
    case Heard(now) => c.(ping := c.ping.(received := now))
  }

  function AfterBeats(c: Client, beats: seq<Beat>): Client {
    if beats == [] then c else OnBeat(AfterBeats(c, beats[..|beats| - 1]), beats[|beats| - 1])
  }

  function Checks(nows: seq<int>): seq<Beat> {
    seq(|nows|, i requires 0 <= i < |nows| => Check(nows[i]))
  }

  /** The client takes part in the check and is not yet over its threshold. */
  ghost predicate Watched(c: Client) {
    c.open && c.ping.enabled && c.ping.interval > 0 && c.ping.missed <= c.ping.threshold
  }

  /** The misses that are still missing until the client is closed. */
  function Patience(c: Client): int {
    c.ping.threshold + 1 - c.ping.missed
  }

  /** The time that silence may last: the clock must pass it before the client is closed. */
  function Deadline(c: Client): int {
    c.ping.received + Patience(c) * c.ping.interval + c.ping.timeout
  }

  function Late(nows: seq<int>, deadline: int): nat {
    if nows == [] then 0 else Late(nows[..|nows| - 1], deadline) + if nows[|nows| - 1] > deadline then 1 else 0
  }

  lemma LastCheck(c: Client, nows: seq<int>)
    requires nows != []
    ensures AfterBeats(c, Checks(nows)) == PingCheck(AfterBeats(c, Checks(nows[..|nows| - 1])), nows[|nows| - 1])
  {
    hide PingCheck;
    assert Checks(nows)[..|nows| - 1] == Checks(nows[..|nows| - 1]);
  }

  /** One check of a client that is still watched: the record moves to the next miss exactly when the
      clock has passed the next due time, and the last miss closes. */
  lemma CheckStep(c: Client, now: int)
    requires Watched(c)
    ensures
      var d, miss := PingCheck(c, now), now > c.ping.received + c.ping.interval + c.ping.timeout;
      && d.ping == (if miss then c.ping.(missed := c.ping.missed + 1, received := c.ping.received + c.ping.interval) else c.ping)
      && d.open == !(miss && c.ping.missed == c.ping.threshold)
      && (!d.open ==> d.closeCode == PingThreshold)
  {
  }

  lemma NextDue(c: Client, d: Client)
    requires d.ping == c.ping.(missed := d.ping.missed, received := d.ping.received)
    requires d.ping.received == c.ping.received + (d.ping.missed - c.ping.missed) * c.ping.interval
    ensures d.ping.received + Patience(d) * d.ping.interval == c.ping.received + Patience(c) * c.ping.interval
    ensures Deadline(d) == Deadline(c)
  {
    var j, n, w := d.ping.missed - c.ping.missed, Patience(c), c.ping.interval;
    assert Patience(d) == n - j;
    assert j * w + (n - j) * w == n * w;
  }

  /** The state of a silent client after any number of checks. */
  ghost predicate SilentAfter(c: Client, d: Client, late: nat) {
    && d.ping == c.ping.(missed := d.ping.missed, received := d.ping.received)
    && c.ping.missed + late <= d.ping.missed
    && d.ping.received == c.ping.received + (d.ping.missed - c.ping.missed) * c.ping.interval
    && (d.open <==> d.ping.missed <= d.ping.threshold)
    && d.ping.missed <= c.ping.threshold + 1
  }

  lemma DueAhead(d: Client)
    requires d.ping.interval > 0 && d.ping.missed <= d.ping.threshold
    ensures d.ping.received + d.ping.interval <= d.ping.received + Patience(d) * d.ping.interval
  {
    var n, w := Patience(d), d.ping.interval;
    assert (n - 1) * w >= 0;
    assert n * w == (n - 1) * w + w;
  }

  lemma OneMore(x: int, j: int, w: int)
    ensures x + j * w + w == x + (j + 1) * w
  {
  }

  lemma {:induction false} SilentChecks(c: Client, nows: seq<int>)
    requires Watched(c)
    ensures var d := AfterBeats(c, Checks(nows));
      d.open ==> SilentAfter(c, d, Late(nows, Deadline(c)))
    decreases |nows|
  {
    hide PingCheck;
    if nows != [] {
      var rest, now := nows[..|nows| - 1], nows[|nows| - 1];
      SilentChecks(c, rest);
      LastCheck(c, nows);
      var d := AfterBeats(c, Checks(rest));
      if d.open {
        NextDue(c, d);
        DueAhead(d);
        CheckStep(d, now);
        OneMore(c.ping.received, d.ping.missed - c.ping.missed, c.ping.interval);
      } else {
        ClosedStays(d, now);
      }
    }
  }

  lemma ClosedStays(d: Client, now: int)
    requires !d.open
    ensures PingCheck(d, now) == d
  {
  }

  /** One client and nothing but checks: it is closed only by one whose clock exceeds
      r + (threshold + 1 - m) * interval + timeout. */
  lemma ChecksCloseOnlyLate(c: Client, nows: seq<int>, now: int)
    requires Watched(c)
    requires AfterBeats(c, Checks(nows)).open && !AfterBeats(c, Checks(nows + [now])).open
    ensures now > c.ping.received + (c.ping.threshold + 1 - c.ping.missed) * c.ping.interval + c.ping.timeout
    ensures AfterBeats(c, Checks(nows + [now])).closeCode == PingThreshold
  {
    hide PingCheck, AfterBeats;
    SilentChecks(c, nows);
    LastCheck(c, nows + [now]);
    assert (nows + [now])[..|nows|] == nows;
    var d := AfterBeats(c, Checks(nows));
    NextDue(c, d);
    CheckStep(d, now);
  }

  /** It is certainly closed once threshold + 1 - m checks have passed that time. */
  lemma ChecksCloseCertainly(c: Client, nows: seq<int>)
    requires Watched(c)
    requires Late(nows, c.ping.received + (c.ping.threshold + 1 - c.ping.missed) * c.ping.interval + c.ping.timeout)
             >= c.ping.threshold + 1 - c.ping.missed
    ensures !AfterBeats(c, Checks(nows)).open
  {
    hide AfterBeats;
    SilentChecks(c, nows);
  }

  /** Every check comes within interval and timeout of the ping before it. */
  ghost predicate Punctual(received: int, interval: int, timeout: int, beats: seq<Beat>)
    decreases |beats|
  {
    beats == [] ||
    (match beats[0]
     case Check(now) => now <= received + interval + timeout && Punctual(received, interval, timeout, beats[1..])
     case Heard(now) => Punctual(now, interval, timeout, beats[1..]))
  }

  lemma {:induction false} FirstBeat(c: Client, beats: seq<Beat>)
    requires beats != []
    ensures AfterBeats(c, beats) == AfterBeats(OnBeat(c, beats[0]), beats[1..])
    decreases |beats|
  {
    hide OnBeat;
    if |beats| == 1 {
      assert beats[..0] == [] && beats[1..] == [];
    } else {
      FirstBeat(c, beats[..|beats| - 1]);
      assert beats[..|beats| - 1][1..] == beats[1..][..|beats| - 2];
    }
  }

  /** A client that pings in time is never closed by the check, and not a miss is counted. */
  lemma {:induction false} PunctualBeats(c: Client, beats: seq<Beat>)
    requires Watched(c) && Punctual(c.ping.received, c.ping.interval, c.ping.timeout, beats)
    ensures AfterBeats(c, beats).open && AfterBeats(c, beats).ping.missed == c.ping.missed
    decreases |beats|
  {
    hide AfterBeats;
    if beats == [] {
      NoBeats(c);
    } else {
      FirstBeat(c, beats);
      PunctualBeats(OnBeat(c, beats[0]), beats[1..]);
    }
  }

  lemma NoBeats(c: Client)
    ensures AfterBeats(c, []) == c
  {
  }

  /** Pings do not make up for misses: the count never falls. */
  lemma {:induction false} BeatsNeverFall(c: Client, beats: seq<Beat>)
    ensures AfterBeats(c, beats).ping.missed >= c.ping.missed
  {
    if beats != [] {
      BeatsNeverFall(c, beats[..|beats| - 1]);
    }
  }

  // ----- whose ping record a message changes -----

  /** Only the sender's record may change, and not its misses. */
  ghost predicate PrivatePings(cs: seq<Client>, ds: seq<Client>, i: nat) {
    |ds| == |cs| && forall k | 0 <= k < |cs| ::
      (k != i ==> ds[k].ping == cs[k].ping) && ds[k].ping.missed == cs[k].ping.missed
  }

  /** Handling a message never counts or forgets a miss, and touches no ping record but its sender's:
      nobody can keep another client alive. */
  lemma PingsPrivate(s: Server, m: Request, i: nat)
    requires DistinctNames(s.clients) && Locate(s.clients, m.source) == Some(i) && i < |s.clients|
    ensures PrivatePings(s.clients, HandleMethod(s, m).clients, i)
  {
    hide HandleMethod, HeardFrom, Locate, DistinctNames, Tended;
    HandleTended(s, m, i);
    var ds := HandleMethod(s, m).clients;
    forall k | 0 <= k < |ds| ensures (k != i ==> ds[k].ping == s.clients[k].ping) && ds[k].ping.missed == s.clients[k].ping.missed {
      TendedPing(s.clients[k], ds[k], k == i, HeardFrom(m, s.clients[i].handle));
    }
  }

  lemma TendedPing(c: Client, d: Client, own: bool, heard: seq<Beat>)
    requires Tended(c, d, own, heard)
    ensures (!own ==> d.ping == c.ping) && d.ping.missed == c.ping.missed
  {
  }

  // ----- steps, turns and runs -----

  /** Only a client with a name is checked. */
  ghost predicate Enabled(c: Client) {
    c.ping.enabled ==> c.identifier.Some?
  }

  /** The same client later on: what became of its ping record is what the beats in between make of it,
      as long as it is open; and the check is what closed it if that is the reason given. */
  ghost predicate Follows(c: Client, d: Client, beats: seq<Beat>) {
    && (c.identifier.Some? ==> d.identifier == c.identifier)
    && (Enabled(c) ==> Enabled(d))
    && d.ping.missed >= c.ping.missed
    && (d.open ==> c.open)
    && (!d.open && d.closeCode == PingThreshold && !c.open ==> c.closeCode == PingThreshold)
    && (c.identifier.Some? && d.open ==> AfterBeats(c, beats).open && d.ping == AfterBeats(c, beats).ping)
    && (c.identifier.Some? && c.open && !d.open && d.closeCode == PingThreshold ==> !AfterBeats(c, beats).open)
  }

  lemma OneBeat(c: Client, b: Beat)
    ensures AfterBeats(c, [b]) == OnBeat(c, b)
  {
    hide OnBeat;
    assert [b][..0] == [];
    NoBeats(c);
  }

  lemma {:induction false} BeatsJoined(c: Client, a: seq<Beat>, b: seq<Beat>)
    ensures AfterBeats(c, a + b) == AfterBeats(AfterBeats(c, a), b)
    decreases |b|
  {
    hide OnBeat;
    if b == [] {
      assert a + b == a;
    } else {
      var n := |b| - 1;
      BeatsJoined(c, a, b[..n]);
      assert (a + b)[..|a| + n] == a + b[..n];
    }
  }

  /** Only the record and whether the client is open matter. */
  lemma {:induction false} SameBeats(c: Client, d: Client, beats: seq<Beat>)
    requires c.open == d.open && c.ping == d.ping
    ensures AfterBeats(c, beats).open == AfterBeats(d, beats).open && AfterBeats(c, beats).ping == AfterBeats(d, beats).ping
    decreases |beats|
  {
    hide OnBeat;
    if beats != [] {
      var rest, b := beats[..|beats| - 1], beats[|beats| - 1];
      SameBeats(c, d, rest);
      SameBeat(AfterBeats(c, rest), AfterBeats(d, rest), b);
    }
  }

  lemma SameBeat(c: Client, d: Client, b: Beat)
    requires c.open == d.open && c.ping == d.ping
    ensures OnBeat(c, b).open == OnBeat(d, b).open && OnBeat(c, b).ping == OnBeat(d, b).ping
  {
  }

  lemma {:induction false} ClosedBeats(c: Client, beats: seq<Beat>)
    requires !c.open
    ensures !AfterBeats(c, beats).open
    decreases |beats|
  {
    if beats != [] {
      ClosedBeats(c, beats[..|beats| - 1]);
    }
  }

  lemma FollowsTwice(c: Client, d: Client, e: Client, a: seq<Beat>, b: seq<Beat>)
    requires Follows(c, d, a) && Follows(d, e, b)
    ensures Follows(c, e, a + b)
  {
    hide AfterBeats;
    BeatsJoined(c, a, b);
    if c.identifier.Some? && d.open {
      SameBeats(d, AfterBeats(c, a), b);
    }
    if !AfterBeats(c, a).open {
      ClosedBeats(AfterBeats(c, a), b);
    }
  }

  /** A step that leaves the record alone. */
  lemma FollowsNothing(c: Client, d: Client)
    requires d.ping == c.ping && (c.identifier.Some? ==> d.identifier == c.identifier)
    requires (d.open == c.open && d.closeCode == c.closeCode) || (!d.open && d.closeCode != PingThreshold)
    ensures Follows(c, d, [])
  {
    NoBeats(c);
  }

  lemma TendedFollows(c: Client, d: Client, own: bool, m: Request, h: nat)
    requires Tended(c, d, own, HeardFrom(m, h)) && (own <==> m.source == c.handle) && (own ==> h == c.handle)
    ensures Follows(c, d, HeardFrom(m, c.handle))
  {
    hide IsPing, AfterBeats;
    NoBeats(c);
    OneBeat(c, Heard(m.now));
  }

  lemma HandleFollows(s: Server, i: nat)
    requires Sound(s) && !s.crashed && s.methods != [] && i < |s.clients|
    ensures i < |Do(s, Handle).clients| && Follows(s.clients[i], Do(s, Handle).clients[i], BeatsOf(s, Handle, s.clients[i].handle))
  {
    hide Inv, Alive, HandleMethod, Tended, HeardFrom, Locate, Follows;
    ListAfterHandle(s);
    var m := s.methods[0];
    var k := Locate(s.clients, m.source).value;
    LocateIs(s.clients, m.source);
    SoundInv(s);
    LocateUnique(s, i);
    TendedFollows(s.clients[i], Do(s, Handle).clients[i], i == k, m, s.clients[k].handle);
  }

  lemma CheckFollows(c: Client, now: int)
    ensures Follows(c, PingCheck(c, now), [Check(now)])
  {
    hide AfterBeats;
    OneBeat(c, Check(now));
  }

  lemma EmitOneKeeps(c: Client)
    ensures var d := EmitOne(c); d.ping == c.ping && d.identifier == c.identifier && d.open == c.open && d.closeCode == c.closeCode
  {
    hide Print;
  }

  lemma ReceiveFollows(s: Server, k: nat, a: Arrival, i: nat)
    requires k < |s.clients| && i < |s.clients|
    ensures var t := Receive(s, k, a).0; i < |t.clients| && Follows(s.clients[i], t.clients[i], [])
  {
    hide CreateRequest, Mbus, Follows;
    var c := s.clients[i];
    FollowsNothing(c, c);
    FollowsNothing(c, Closed(c, InternalError));
    FollowsNothing(c, Receive(s, k, a).0.clients[i]);
  }

  /** One step, for a client that stays on the list. */
  lemma StepFollows(s: Server, x: Step, i: nat)
    requires Sound(s) && Possible(s, x) && i < |s.clients| && Stays(x, i)
    ensures PlaceAfter(x, i) < |Do(s, x).clients|
    ensures Follows(s.clients[i], Do(s, x).clients[PlaceAfter(x, i)], BeatsOf(s, x, s.clients[i].handle))
  {
    hide Inv, Alive, HandleMethod, PingCheck, EmitOne, Receive, Locate, Welcome, ReapOne, Follows;
    var c := s.clients[i];
    match x {
      case Handle => HandleFollows(s, i);
      case CheckAll(now) => CheckFollows(c, now);
      case EmitAll =>
        EmitOneKeeps(c);
        FollowsNothing(c, EmitOne(c));
      case Join => FollowsNothing(c, c);
      case Drop(lost) =>
        FollowsNothing(c, c);
        FollowsNothing(c, Closed(c, ConnectionClosed));
      case Arrive(handle, arrival) =>
        LocateIs(s.clients, handle);
        ReceiveFollows(s, Locate(s.clients, handle).value, arrival, i);
      case Mark =>
        FollowsNothing(c, c);
        FollowsNothing(c, c.(accepted := true));
      case Greet(place, at) =>
        ListAfterGreet(s, place, at);
        FollowsNothing(c, Do(s, x).clients[i]);
      case Bury(place, at) =>
        ListAfterBury(s, place, at);
        FollowsNothing(c, Do(s, x).clients[PlaceAfter(x, i)]);
    }
  }

  /** Any list of steps, for a client that is on the list before and after it. */
  lemma {:induction false} PathFollows(s: Server, steps: seq<Step>, h: nat, i: nat, j: nat)
    requires Sound(s) && Path(s, steps) && !DoAll(s, steps).crashed
    requires Locate(s.clients, h) == Some(i) && Locate(DoAll(s, steps).clients, h) == Some(j)
    ensures i < |s.clients| && j < |DoAll(s, steps).clients|
    ensures Follows(s.clients[i], DoAll(s, steps).clients[j], Beats(s, steps, h))
    decreases |steps|
  {
    hide Sound, Do, Locate, Follows, BeatsOf;
    LocateIs(s.clients, h);
    LocateIs(DoAll(s, steps).clients, h);
    if steps == [] {
      FollowsNothing(s.clients[i], s.clients[i]);
    } else {
      var x, t := steps[0], Do(s, steps[0]);
      StepKeeps(s, x);
      StillAlive(t, steps[1..]);
      StepLocates(s, x, h, i);
      if Stays(x, i) {
        StepFollows(s, x, i);
        PathFollows(t, steps[1..], h, PlaceAfter(x, i), j);
        FollowsTwice(s.clients[i], t.clients[PlaceAfter(x, i)], DoAll(s, steps).clients[j], BeatsOf(s, x, h), Beats(t, steps[1..], h));
      } else {
        StepPlaces(s, x);
        PathGone(t, steps[1..], h);
      }
    }
  }

  // ----- runs -----

  /** What the ping record of a client meets in a run. */
  function RunBeats(s: Server, inputs: seq<Input>, h: nat): seq<Beat>
    decreases |inputs|
  {
    if inputs == [] then []
    else
      var n := |inputs| - 1;
      RunBeats(s, inputs[..n], h) + TurnBeats(Run(s, inputs[..n]), inputs[n], h)
  }

  lemma {:induction false} RunSteps(s: Server, inputs: seq<Input>) returns (steps: seq<Step>)
    requires Sound(s) && !Run(s, inputs).crashed
    ensures Leads(s, steps, Run(s, inputs)) && Sound(Run(s, inputs)) && !s.crashed
    ensures forall h :: Beats(s, steps, h) == RunBeats(s, inputs, h)
    decreases |inputs|
  {
    hide Sound, Turn, Leads, Beats, TurnBeats, ArrivalsOf;
    if inputs == [] {
      steps := [];
      NoSteps(s);
    } else {
      var before, input := inputs[..|inputs| - 1], inputs[|inputs| - 1];
      var t := Run(s, before);
      if t.crashed { CrashedTurn(t, input); }
      steps := RunSteps(s, before);
      var more := TurnSteps(t, input);
      TurnKeeps(t, input);
      Onward(s, steps, t, more, Turn(t, input));
      steps := steps + more;
    }
  }

  /** Over any run, the ping record of a client is what the pings it sent and the checks made of it, and
      nothing else; misses never fall. */
  lemma RunFollows(s: Server, inputs: seq<Input>, h: nat)
    requires Sound(s) && !Run(s, inputs).crashed && Present(s, h).Some? && Present(Run(s, inputs), h).Some?
    ensures Follows(Present(s, h).value, Present(Run(s, inputs), h).value, RunBeats(s, inputs, h))
  {
    hide Sound, Run, Locate, Present, Follows, Beats, RunBeats;
    PresentAt(s, h);
    PresentAt(Run(s, inputs), h);
    var steps := RunSteps(s, inputs);
    PathFollows(s, steps, h, Locate(s.clients, h).value, Locate(Run(s, inputs).clients, h).value);
  }

  /** The same, up to the point of the last turn where closed clients are about to be taken off the list. */
  lemma UpkeepFollows(s: Server, inputs: seq<Input>, input: Input, h: nat)
    requires Sound(s) && !Upkeep(Run(s, inputs), input).crashed
    requires Present(s, h).Some? && Present(Upkeep(Run(s, inputs), input), h).Some?
    ensures Follows(Present(s, h).value, Present(Upkeep(Run(s, inputs), input), h).value,
                    RunBeats(s, inputs, h) + TurnBeats(Run(s, inputs), input, h))
  {
    hide Sound, Run, Locate, Present, Follows, Beats, RunBeats, TurnBeats, Upkeep, Leads, ArrivalsOf;
    var t := Run(s, inputs);
    var u := Upkeep(t, input);
    PresentAt(s, h);
    PresentAt(u, h);
    if t.crashed { CrashedUpkeep(t, input); }
    var steps := RunSteps(s, inputs);
    var more := UpkeepSteps(t, input);
    Onward(s, steps, t, more, u);
    LeadsIs(s, steps + more, u);
    PathFollows(s, steps + more, h, Locate(s.clients, h).value, Locate(u.clients, h).value);
  }

  lemma CrashedUpkeep(s: Server, input: Input)
    requires s.crashed
    ensures Upkeep(s, input) == s
  {
    hide LoseMany, AcceptMany, DecodeMany, HandleMethods, Emit, CheckPings;
    CrashedInv(s);
  }

  ghost predicate AllEnabled(s: Server) {
    forall k | 0 <= k < |s.clients| :: Enabled(s.clients[k])
  }

  lemma StepEnabled(s: Server, x: Step)
    requires Sound(s) && Possible(s, x) && AllEnabled(s)
    ensures AllEnabled(Do(s, x))
  {
    hide Sound, Do, Enabled, Possible, BeatsOf;
    var t := Do(s, x);
    forall k | 0 <= k < |t.clients| ensures Enabled(t.clients[k]) {
      if x.Join? && k >= |s.clients| {
        JoinEnabled(s, k);
      } else {
        var i := if x.Bury? && k >= x.place then k + 1 else k;
        StepLength(s, x);
        StepFollows(s, x, i);
        FollowsEnabled(s.clients[i], t.clients[k], BeatsOf(s, x, s.clients[i].handle));
      }
    }
  }

  lemma StepLength(s: Server, x: Step)
    requires Sound(s) && Possible(s, x)
    ensures |Do(s, x).clients| == if x.Bury? then |s.clients| - 1 else if x.Join? then |s.clients| + 1 else |s.clients|
  {
    hide Sound, HandleMethod, CheckPings, Emit, Receive, Locate, AcceptAll, Lose, Welcome, ReapOne;
    if x.Bury? {
      ListAfterBury(s, x.place, x.at);
    } else if !x.Join? {
      InPlaceAfter(s, x);
    }
  }

  lemma JoinEnabled(s: Server, k: nat)
    requires |s.clients| <= k < |Do(s, Join).clients|
    ensures Enabled(Do(s, Join).clients[k])
  {
  }

  lemma FollowsEnabled(c: Client, d: Client, beats: seq<Beat>)
    requires Follows(c, d, beats) && Enabled(c)
    ensures Enabled(d)
  {
    hide AfterBeats;
  }

  lemma {:induction false} PathEnabled(s: Server, steps: seq<Step>)
    requires Sound(s) && Path(s, steps) && AllEnabled(s)
    ensures AllEnabled(DoAll(s, steps))
    decreases |steps|
  {
    hide Sound, Do, AllEnabled, Possible;
    if steps != [] {
      StepKeeps(s, steps[0]);
      StepEnabled(s, steps[0]);
      PathEnabled(Do(s, steps[0]), steps[1..]);
    }
  }

  /** In every state a run can reach, a client that is checked has a name. */
  lemma WatchedNamed(password: Option<string>, zlib: bool, past: seq<Input>, h: nat)
    requires var s := Run(BrokerState.Start(password, zlib), past);
      Present(s, h).Some? && Watched(Present(s, h).value)
    ensures var s := Run(BrokerState.Start(password, zlib), past); !s.crashed ==> Present(s, h).value.identifier.Some?
  {
    hide Run, Sound, Locate, Leads;
    var start := BrokerState.Start(password, zlib);
    var s := Run(start, past);
    if !s.crashed {
      StartSound(password, zlib);
      var steps := RunSteps(start, past);
      LeadsIs(start, steps, s);
      PathEnabled(start, steps);
      PresentAt(s, h);
    }
  }

  // ----- silence -----

  ghost predicate QuietQueue(methods: seq<Request>, h: nat) {
    forall k | 0 <= k < |methods| :: methods[k].source == h ==> !IsPing(methods[k])
  }

  /** A message of the client that is no ping to the broker. */
  predicate QuietArrival(a: Arrival, h: nat) {
    var m := CreateRequest(h, a.text, a.now, a.draw);
    m.Some? ==> !IsPing(m.value)
  }

  ghost predicate QuietArrivals(arrivals: seq<Arrival>, h: nat) {
    forall a | a in arrivals :: QuietArrival(a, h)
  }

  /** The client sends no ping to the broker. */
  ghost predicate Silence(inputs: seq<Input>, h: nat) {
    forall n | 0 <= n < |inputs| :: QuietArrivals(Fed(inputs[n].batches, h), h)
  }

  lemma {:induction false} QuietHeards(methods: seq<Request>, h: nat)
    requires QuietQueue(methods, h)
    ensures Heards(methods, h) == []
  {
    hide IsPing;
    if methods != [] {
      assert forall k | 0 <= k < |methods| - 1 :: methods[1..][k] == methods[k + 1];
      QuietHeards(methods[1..], h);
    }
  }

  lemma StepQuiet(s: Server, x: Step, h: nat)
    requires Sound(s) && Possible(s, x) && QuietQueue(s.methods, h) && !Do(s, x).crashed
    requires x.Arrive? && x.handle == h ==> QuietArrival(x.arrival, h)
    ensures QuietQueue(Do(s, x).methods, h)
  {
    hide Sound, HandleMethod, Locate, CheckPings, Emit, Accept, Lose, AcceptAll, Receive, Welcome, ReapOne, IsPing;
    match x {
      case Handle =>
        HandleStep(s);
        assert forall k | 0 <= k < |s.methods| - 1 :: s.methods[1..][k] == s.methods[k + 1];
      case CheckAll(now) => ChecksSteady(s, now);
      case EmitAll => EmitSteady(s);
      case Join => AcceptSteady(s);
      case Drop(lost) => LoseKeeps(s, lost);
      case Arrive(handle, arrival) =>
        LocateIs(s.clients, handle);
        ReceiveQuiet(s, Locate(s.clients, handle).value, arrival, h);
      case Mark => ChecksSteady(s, 0);
      case Greet(place, at) => SoundParts(s); WelcomeKeeps(s, place, at);
      case Bury(place, at) => SoundParts(s); ReapOneKeeps(s, place, at);
    }
  }

  lemma SoundParts(s: Server)
    requires Sound(s)
    ensures Inv(s) && Alive(s)
  {
  }

  lemma AcceptSteady(s: Server)
    ensures Accept(s).methods == s.methods
  {
  }

  lemma ReceiveQuiet(s: Server, i: nat, a: Arrival, h: nat)
    requires i < |s.clients| && QuietQueue(s.methods, h) && (s.clients[i].handle == h ==> QuietArrival(a, h))
    ensures QuietQueue(Receive(s, i, a).0.methods, h)
  {
    hide IsPing, Mbus, Parse, LookUp, InitialResult;
  }

  lemma {:induction false} PathQuiet(s: Server, steps: seq<Step>, h: nat)
    requires Sound(s) && Path(s, steps) && QuietQueue(s.methods, h) && !DoAll(s, steps).crashed
    requires QuietArrivals(ArrivalsOf(steps, h), h)
    ensures QuietQueue(DoAll(s, steps).methods, h)
    decreases |steps|
  {
    hide Sound, Do, QuietQueue, QuietArrival;
    if steps != [] {
      var x, t := steps[0], Do(s, steps[0]);
      if x.Arrive? && x.handle == h {
        assert ArrivalsOf(steps, h)[0] == x.arrival;
      }
      assert forall a | a in ArrivalsOf(steps[1..], h) :: a in ArrivalsOf(steps, h);
      StepKeeps(s, x);
      StillAlive(t, steps[1..]);
      StepQuiet(s, x, h);
      PathQuiet(t, steps[1..], h);
    }
  }

  lemma NothingArrives(arrivals: seq<Arrival>, h: nat)
    requires arrivals == []
    ensures QuietArrivals(arrivals, h)
  {
  }

  /** A turn of a silent client: the record meets the check, if the broker is running, and nothing else. */
  lemma QuietTurn(s: Server, input: Input, h: nat)
    requires Sound(s) && !s.crashed && QuietQueue(s.methods, h) && QuietArrivals(Fed(input.batches, h), h)
    requires !Upkeep(s, input).crashed
    ensures TurnBeats(s, input, h) == if s.running then [Check(input.now)] else []
    ensures !Turn(s, input).crashed ==> QuietQueue(Turn(s, input).methods, h)
  {
    hide Sound, Prepare, AcceptMany, LoseMany, DecodeMany, HandleMethods, Leads, Beats, ArrivalsOf, QuietQueue, QuietArrivals,
         Fed, Turn, Heards;
    QuietHeards(s.methods, h);
    assert forall xs: seq<Beat> :: [] + xs == xs && xs + [] == xs;
    NothingCrashed(s, input);
    var polled := PolledSteps(s, input);
    LeadsIs(s, polled, Polled(s, input));
    NothingArrives(ArrivalsOf(polled, h), h);
    PathQuiet(s, polled, h);
    var decodes := DecodeSteps(Polled(s, input), input.batches);
    LeadsIs(Polled(s, input), decodes, Gathered(s, input));
    FedQuiet(decodes, input.batches, h);
    DecodedAlive(Polled(s, input), input.batches);
    PathQuiet(Polled(s, input), decodes, h);
    QuietHeards(Gathered(s, input).methods, h);
    if !Turn(s, input).crashed {
      var steps := TurnSteps(s, input);
      LeadsIs(s, steps, Turn(s, input));
      FedQuiet(steps, input.batches, h);
      PathQuiet(s, steps, h);
    }
  }

  lemma NothingCrashed(s: Server, input: Input)
    requires !Upkeep(s, input).crashed
    ensures s.running ==> !Prepare(s, input.now).crashed
  {
    hide Prepare, DecodeMany, HandleMethods, WelcomeFrom;
  }

  lemma DecodedAlive(s: Server, batches: seq<Batch>)
    requires Sound(s) && !s.crashed
    ensures !DecodeMany(s, batches).crashed
  {
    hide Inv, Alive, DecodeMany;
    DecodeManyKeeps(s, batches);
  }

  lemma FedQuiet(steps: seq<Step>, batches: seq<Batch>, h: nat)
    requires QuietArrivals(Fed(batches, h), h) && forall a :: a in ArrivalsOf(steps, h) ==> a in Fed(batches, h)
    ensures QuietArrivals(ArrivalsOf(steps, h), h)
  {
    hide QuietArrival, ArrivalsOf, Fed;
  }

  /** The times of the turns of a run in which pings are checked. */
  function CheckTimes(s: Server, inputs: seq<Input>): seq<int>
    decreases |inputs|
  {
    if inputs == [] then []
    else
      var n := |inputs| - 1;
      CheckTimes(s, inputs[..n]) + if Run(s, inputs[..n]).running then [inputs[n].now] else []
  }

  lemma ChecksJoined(a: seq<int>, b: seq<int>)
    ensures Checks(a + b) == Checks(a) + Checks(b)
  {
  }

  lemma {:induction false} QuietRun(s: Server, inputs: seq<Input>, h: nat)
    requires Sound(s) && QuietQueue(s.methods, h) && Silence(inputs, h) && !Run(s, inputs).crashed
    ensures RunBeats(s, inputs, h) == Checks(CheckTimes(s, inputs)) && QuietQueue(Run(s, inputs).methods, h)
    ensures Sound(Run(s, inputs)) && !s.crashed
    decreases |inputs|
  {
    hide Sound, Turn, QuietQueue, TurnBeats, QuietArrivals, Checks;
    if inputs == [] {
      ChecksJoined([], []);
      NoChecks();
    } else {
      var before, input := inputs[..|inputs| - 1], inputs[|inputs| - 1];
      var t := Run(s, before);
      if t.crashed { CrashedTurn(t, input); }
      assert forall n | 0 <= n < |before| :: before[n] == inputs[n];
      QuietRun(s, before, h);
      TurnReaps(t, input);
      TurnKeeps(t, input);
      QuietTurn(t, input, h);
      ChecksJoined(CheckTimes(s, before), if t.running then [input.now] else []);
      NoChecks();
      OneCheck(input.now);
    }
  }

  lemma NoChecks()
    ensures Checks([]) == []
  {
  }

  lemma OneCheck(now: int)
    ensures Checks([now]) == [Check(now)]
  {
  }

  // ----- what the broker promises -----

  /** After any run, let a client that is watched fall silent. Whatever everybody else does, and whatever
      happens to the connections, it is closed for its pings only by a turn whose clock exceeds
      r + (threshold + 1 - m) * interval + timeout, r being the time of its last ping and m its misses. */
  lemma SilentClosedOnlyLate(password: Option<string>, zlib: bool, past: seq<Input>, inputs: seq<Input>, input: Input, h: nat)
    requires
      var s := Run(BrokerState.Start(password, zlib), past);
      && !s.crashed && Present(s, h).Some? && Watched(Present(s, h).value) && QuietQueue(s.methods, h) && Silence(inputs, h)
      && QuietArrivals(Fed(input.batches, h), h)
    requires
      var t := Run(Run(BrokerState.Start(password, zlib), past), inputs);
      var u := Upkeep(t, input);
      && !u.crashed && Present(t, h).Some? && Present(t, h).value.open
      && Present(u, h).Some? && !Present(u, h).value.open && Present(u, h).value.closeCode == PingThreshold
    ensures
      var c := Present(Run(BrokerState.Start(password, zlib), past), h).value;
      input.now > c.ping.received + (c.ping.threshold + 1 - c.ping.missed) * c.ping.interval + c.ping.timeout
  {
    hide Run, Present, Sound, QuietQueue, Silence, QuietArrivals, Fed, Upkeep, Checks, AfterBeats, TurnBeats, RunBeats, CheckTimes;
    var s := Run(BrokerState.Start(password, zlib), past);
    WatchedNamed(password, zlib, past, h);
    RunKeeps(password, zlib, past);
    var c, t := Present(s, h).value, Run(s, inputs);
    if t.crashed { CrashedUpkeep(t, input); }
    QuietRun(s, inputs, h);
    QuietTurn(t, input, h);
    RunFollows(s, inputs, h);
    UpkeepFollows(s, inputs, input, h);
    var nows := CheckTimes(s, inputs);
    var beats := RunBeats(s, inputs, h) + TurnBeats(t, input, h);
    FollowsMeans(c, Present(t, h).value, Checks(nows));
    FollowsMeans(c, Present(Upkeep(t, input), h).value, beats);
    assert forall xs: seq<Beat> :: xs + [] == xs;
    if t.running {
      ChecksJoined(nows, [input.now]);
      OneCheck(input.now);
      ChecksCloseOnlyLate(c, nows, input.now);
    }
  }

  lemma FollowsMeans(c: Client, d: Client, beats: seq<Beat>)
    requires Follows(c, d, beats) && c.identifier.Some? && c.open
    ensures d.open ==> AfterBeats(c, beats).open && d.ping == AfterBeats(c, beats).ping
    ensures !d.open && d.closeCode == PingThreshold ==> !AfterBeats(c, beats).open
  {
  }

  /** And it is certainly closed once threshold + 1 - m turns of a running broker have passed that time,
      however the turns were scheduled before, between and after. */
  lemma SilentClosedCertainly(password: Option<string>, zlib: bool, past: seq<Input>, inputs: seq<Input>, h: nat)
    requires
      var s := Run(BrokerState.Start(password, zlib), past);
      && !s.crashed && Present(s, h).Some? && Watched(Present(s, h).value) && QuietQueue(s.methods, h) && Silence(inputs, h)
      && !Run(s, inputs).crashed
    requires
      var s := Run(BrokerState.Start(password, zlib), past);
      var p := Present(s, h).value.ping;
      Late(CheckTimes(s, inputs), p.received + (p.threshold + 1 - p.missed) * p.interval + p.timeout) >= p.threshold + 1 - p.missed
    ensures
      var t := Run(Run(BrokerState.Start(password, zlib), past), inputs);
      Present(t, h).None? || !Present(t, h).value.open
  {
    hide Run, Present, Sound, QuietQueue, Silence, Checks, AfterBeats, RunBeats, CheckTimes, Late;
    var s := Run(BrokerState.Start(password, zlib), past);
    WatchedNamed(password, zlib, past, h);
    RunKeeps(password, zlib, past);
    var c, t := Present(s, h).value, Run(s, inputs);
    if Present(t, h).Some? {
      QuietRun(s, inputs, h);
      RunFollows(s, inputs, h);
      FollowsMeans(c, Present(t, h).value, Checks(CheckTimes(s, inputs)));
      ChecksCloseCertainly(c, CheckTimes(s, inputs));
    }
  }

  /** A client that pings in time is never closed for its pings, and no miss is counted. */
  lemma PunctualStays(password: Option<string>, zlib: bool, past: seq<Input>, inputs: seq<Input>, input: Input, h: nat)
    requires
      var s := Run(BrokerState.Start(password, zlib), past);
      && !s.crashed && Present(s, h).Some? && Watched(Present(s, h).value)
      && var p := Present(s, h).value.ping;
         Punctual(p.received, p.interval, p.timeout, RunBeats(s, inputs, h) + TurnBeats(Run(s, inputs), input, h))
    requires
      var u := Upkeep(Run(Run(BrokerState.Start(password, zlib), past), inputs), input);
      !u.crashed && Present(u, h).Some?
    ensures
      var c := Present(Run(BrokerState.Start(password, zlib), past), h).value;
      var d := Present(Upkeep(Run(Run(BrokerState.Start(password, zlib), past), inputs), input), h).value;
      (d.open ==> d.ping.missed == c.ping.missed) && (!d.open ==> d.closeCode != PingThreshold)
  {
    hide Run, Present, Sound, Upkeep, AfterBeats, TurnBeats, RunBeats, Punctual;
    var s := Run(BrokerState.Start(password, zlib), past);
    WatchedNamed(password, zlib, past, h);
    RunKeeps(password, zlib, past);
    var c, t := Present(s, h).value, Run(s, inputs);
    UpkeepFollows(s, inputs, input, h);
    var beats := RunBeats(s, inputs, h) + TurnBeats(t, input, h);
    FollowsMeans(c, Present(Upkeep(t, input), h).value, beats);
    PunctualBeats(c, beats);
  }

  /** Pings do not make up for misses: whatever happens, the count of a client never falls. */
  lemma MissesNeverFall(password: Option<string>, zlib: bool, past: seq<Input>, inputs: seq<Input>, h: nat)
    requires
      var s := Run(BrokerState.Start(password, zlib), past);
      !Run(s, inputs).crashed && Present(s, h).Some? && Present(Run(s, inputs), h).Some?
    ensures
      var s := Run(BrokerState.Start(password, zlib), past);
      Present(Run(s, inputs), h).value.ping.missed >= Present(s, h).value.ping.missed
  {
    hide Run, Present, Sound, RunBeats, AfterBeats;
    RunKeeps(password, zlib, past);
    RunFollows(Run(BrokerState.Start(password, zlib), past), inputs, h);
  }
}

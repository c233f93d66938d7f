/** One connection between the broker and a client, with all that may happen on either side in any
    order: every frame is decoded with the compression it was encoded with. */
module CodecAgreement {
  import opened Options
  import opened Compress
  import opened JsonStrings
  import opened JsonText
  import opened Methods
  import B = BrokerState
  import opened BrokerInvariant
  import opened BrokerLink
  import opened ClientState
  import opened ClientInvariant
  import opened ClientRun
  import opened CodecText
  import opened CodecLink

  // ----- the machine -----

  /** Both ends. The broker knows the client as peer, has ms of its methods in the queue and has decoded
      taken of the frames the client wrote (up); the client has decoded read of those the broker wrote
      (peer.out). A client that was reset has left the connection. */
  datatype Link = Link(
    present: bool, peer: B.Client, ms: seq<Request>, taken: nat, up: seq<Frame>, alive: bool, e: Engine, read: nat)

  datatype Move =
    | BrokerOther(after: B.Client)
    | BrokerHandles(served: B.Client)
    | BrokerEmits
    | BrokerDecodes(now: int, draw: string)
    | BrokerReaps
    | ClientOperates(operation: Operation)

  /** The client when its decode loop starts, if the run gets there. */
  function DecodeStart(e: Engine, input: Input): Option<Engine> {
    var (a, h) := Begin(e, input.attempt, input.now);
    if a.broken || !h.Polls? then None
    else
      var (b, i) := BeforeDecode(a, input.poll, input.now);
      if i.Polls? then Some(b) else None
  }

  /** How many messages the decode loop takes. */
  function Count(e: Engine, messages: seq<Incoming>, now: int): (n: nat)
    ensures n <= |messages|
    decreases |messages|
  {
    if messages == [] || !e.socket then 0
    else
      var (d, ok) := Receive(e, messages[0], now);
      if ok then 1 + Count(d, messages[1..], now) else 1
  }

  function Decoded(e: Engine, o: Operation): nat {
    if o.Turn? && DecodeStart(e, o.input).Some? then Count(DecodeStart(e, o.input).value, Messages(o.input.poll), o.input.now)
    else 0
  }

  function Next(l: Link, move: Move): Link
    requires move.BrokerHandles? ==> l.ms != []
    requires move.BrokerDecodes? ==> l.taken < |l.up|
  {
    match move
    case BrokerOther(after) => l.(peer := after)
    case BrokerHandles(served) => l.(peer := served, ms := l.ms[1..])
    case BrokerEmits => l.(peer := B.EmitOne(l.peer))
    case BrokerReaps => l.(present := false)
    case BrokerDecodes(now, draw) =>
      var m := CreateRequest(l.peer.handle, l.up[l.taken].text, now, draw);
      if m.None? || m.value.kind !in {TYPE_COMMAND, TYPE_EVENT} then
        l.(peer := B.Closed(l.peer, B.InternalError), taken := l.taken + 1)
      else
        l.(peer := if m.value.kind == TYPE_COMMAND then l.peer.(log := l.peer.log + [m.value]) else l.peer,
           ms := l.ms + [m.value], taken := l.taken + 1)
    case ClientOperates(o) =>
      var d := Apply(l.e, o);
      l.(e := d, alive := d.socket, up := if d.socket then d.outgoing else l.up, read := l.read + Decoded(l.e, o))
  }

  /** Strings without NUL and 32-bit numbers, as they are in C. */
  ghost predicate ExactOperation(o: Operation) {
    match o
    case Issue(handler, destination, command, payload, timeout, now) =>
      NulFree(destination) && NulFree(command) && IsInt32(timeout) && (payload.Some? ==> Exact(payload.value))
    case Emit(to, event, data, qos, limit, at) =>
      (to.Some? ==> NulFree(to.value)) && NulFree(event) && IsInt32(limit) && (data.Some? ==> Exact(data.value))
    case Turn(input) => ExactMessages(Messages(input.poll))
    case _ => true
  }

  /** The messages a run finds are the next ones the broker wrote. */
  ghost predicate Follows(messages: seq<Incoming>, frames: seq<Frame>) {
    |messages| <= |frames| && forall k | 0 <= k < |messages| :: messages[k].text == frames[k].text
  }

  ghost predicate HandledAs(peer: B.Client, served: B.Client, m: Request, zlib: bool) {
    if m.kind != TYPE_COMMAND then Still(peer, served, true)
    else if IsCreate(m) then Created(peer, served, m, zlib)
    else Served(peer, served, m)
  }

  /** What can happen next. */
  ghost predicate May(l: Link, move: Move, zlib: bool) {
    match move
    case BrokerOther(after) => l.present && Still(l.peer, after, false)
    case BrokerHandles(served) => l.present && l.ms != [] && HandledAs(l.peer, served, l.ms[0], zlib)
    case BrokerEmits => l.present
    case BrokerReaps => l.present
    case BrokerDecodes(now, draw) => l.present && l.taken < |l.up| && NulFree(draw)
    case ClientOperates(o) =>
      && l.alive && Allowed(l.e, o) && ExactOperation(o) && l.read <= |l.peer.out|
      && (o.Turn? ==> Follows(Messages(o.input.poll), l.peer.out[l.read..]))
  }

  /** Whatever this move decodes, it decodes with the compression it was encoded with. */
  ghost predicate Agrees(l: Link, move: Move) {
    match move
    case BrokerDecodes(now, draw) => l.taken < |l.up| ==> l.up[l.taken].compression == l.peer.compression
    case ClientOperates(o) =>
      o.Turn? && DecodeStart(l.e, o.input).Some? ==>
        && l.read <= |l.peer.out| && |Messages(o.input.poll)| <= |l.peer.out[l.read..]|
        && ReadsWell(DecodeStart(l.e, o.input).value, l.peer.out[l.read..], Messages(o.input.poll), o.input.now)
    case _ => true
  }

  // ----- the invariant -----

  /** Nothing has come from or been meant for the client. */
  ghost predicate Untouched(c: B.Client) {
    && c.identifier.None? && c.subscriptions == [] && c.compression == Uncompressed && c.waits == [] && c.results == []
    && c.requests == [] && c.events == [] && c.out == []
  }

  /** The response to the create request is the one result. */
  ghost predicate Answering(c: B.Client, s: Settings, q: Item) {
    && |c.results| == 1 && IsCreate(c.results[0]) && Tells(Print(ResultJson(c.results[0]), 0, false), q, c.compression)
    && c.waits == [] && c.out == [] && (c.compression == Zlib ==> s.zlib)
  }

  ghost predicate NoCreate(ms: seq<Request>) {
    forall k | 0 <= k < |ms| :: !(IsCreate(ms[k]) && ms[k].kind == TYPE_COMMAND)
  }

  ghost predicate NoCreateResult(ms: seq<Request>) {
    forall k | 0 <= k < |ms| :: !IsCreate(ms[k])
  }

  /** The response is written, uncompressed and first; everything behind it has the client's compression. */
  ghost predicate Opened(c: B.Client, s: Settings, q: Item) {
    && c.out != [] && c.out[0].compression == Uncompressed && Tells(c.out[0].text, q, c.compression)
    && AllWith(c.out[1..], c.compression) && NoCreateResult(c.results) && NoCreateResult(c.waits)
    && (c.compression == Zlib ==> s.zlib)
  }

  ghost predicate BrokerSide(l: Link, s: Settings, q: Item, stage: nat) {
    match stage
    case 0 => l.up == [] && l.taken == 0 && l.ms == [] && Untouched(l.peer)
    case 1 => l.up == [FirstFrame(q)] && l.taken == 0 && l.ms == [] && Untouched(l.peer)
    case 2 => l.up == [FirstFrame(q)] && l.taken == 1 && |l.ms| == 1 && CreateMethod(l.ms[0], q, s) && Untouched(l.peer)
    case 3 => l.up == [FirstFrame(q)] && l.taken == 1 && l.ms == [] && Answering(l.peer, s, q)
    case 4 => l.taken >= 1 && NoCreate(l.ms) && Opened(l.peer, s, q) && Written(l.up, l.peer.compression, q)
    case _ => false
  }

  ghost predicate ClientSide(l: Link, s: Settings, q: Item, stage: nat) {
    l.alive ==>
      && l.up == l.e.outgoing
      && if stage == 0 then Unsent(l.e, s) && l.read == 0
         else if l.read == 0 then Asking(l.e, s, q)
         else stage == 4 && l.read <= |l.peer.out| && Tuned(l.e, s, l.peer.compression, q)
  }

  ghost predicate LinkAt(l: Link, s: Settings, q: Item, stage: nat) {
    ExactSettings(s) && (stage > 0 ==> OwnCreate(q, s)) && BrokerSide(l, s, q, stage) && ClientSide(l, s, q, stage)
  }

  ghost predicate LinkOk(l: Link, s: Settings) {
    exists q: Item, stage: nat :: LinkAt(l, s, q, stage)
  }

  /** A connection that was just made: the broker has a client it knows nothing of, and the client has
      written nothing or only its create request. */
  ghost predicate LinkStart(l: Link, s: Settings) {
    && ExactSettings(s) && l.present && l.alive && l.ms == [] && l.taken == 0 && l.read == 0
    && Untouched(l.peer) && l.up == l.e.outgoing && (Unsent(l.e, s) || exists q :: Asking(l.e, s, q))
  }

  lemma StartOk(l: Link, s: Settings)
    requires LinkStart(l, s)
    ensures LinkOk(l, s)
  {
    hide Untouched, Unsent, Asking, ExactSettings, OwnCreate, FirstFrame;
    if Unsent(l.e, s) {
      UnsentSilent(l.e, s);
      var q: Item :| true;
      assert LinkAt(l, s, q, 0);
    } else {
      var q :| Asking(l.e, s, q);
      AskingCreates(l.e, s, q);
      assert LinkAt(l, s, q, 1);
    }
  }

  // ----- moves of the broker -----

  lemma SomeWait(waits: seq<Request>, r: Request)
    requires FromWaits(waits, r)
    ensures waits != []
  {
  }

  /** Without waits, no results come from them. */
  lemma DrainsNothing(c: B.Client, d: B.Client)
    requires Drains(c, d) && c.waits == []
    ensures d.results == c.results && d.waits == []
  {
    hide FromWaits;
    if |d.results| > |c.results| {
      SomeWait(c.waits, d.results[|c.results|]);
    }
    if |d.waits| > 0 {
      SomeWait(c.waits, d.waits[0]);
    }
  }

  lemma StillUntouched(c: B.Client, d: B.Client)
    requires Untouched(c) && Still(c, d, false)
    ensures Untouched(d)
  {
    hide Drains;
    DrainsNothing(c, d);
  }

  lemma StillAnswering(c: B.Client, d: B.Client, s: Settings, q: Item)
    requires Answering(c, s, q) && Still(c, d, false)
    ensures Answering(d, s, q)
  {
    hide Tells, Drains;
    DrainsNothing(c, d);
  }

  lemma NotFromWaits(waits: seq<Request>, r: Request)
    requires NoCreateResult(waits) && FromWaits(waits, r)
    ensures !IsCreate(r)
  {
    var k :| 0 <= k < |waits| && Core(waits[k]) == Core(r);
    assert !IsCreate(waits[k]);
  }

  /** New results and waits come from waits that are no create requests. */
  lemma ServedOpened(c: B.Client, d: B.Client, s: Settings, q: Item, from: seq<Request>)
    requires Opened(c, s, q) && NoCreateResult(from)
    requires d.out == c.out && d.compression == c.compression
    requires |d.results| >= |c.results| && d.results[..|c.results|] == c.results
    requires forall k | |c.results| <= k < |d.results| :: FromWaits(from, d.results[k])
    requires forall k | 0 <= k < |d.waits| :: FromWaits(from, d.waits[k])
    ensures Opened(d, s, q)
  {
    hide Tells, FromWaits, IsCreate;
    forall k | 0 <= k < |d.results| ensures !IsCreate(d.results[k]) {
      if k < |c.results| {
        assert d.results[k] == d.results[..|c.results|][k] == c.results[k];
      } else {
        NotFromWaits(from, d.results[k]);
      }
    }
    forall k | 0 <= k < |d.waits| ensures !IsCreate(d.waits[k]) { NotFromWaits(from, d.waits[k]); }
  }

  lemma OtherKeeps(l: Link, d: B.Client, s: Settings, q: Item, stage: nat)
    requires LinkAt(l, s, q, stage) && Still(l.peer, d, false)
    ensures LinkAt(l.(peer := d), s, q, stage)
  {
    hide Untouched, Answering, Unsent, Asking, Tuned, OwnCreate, ExactSettings, Written, CreateMethod, FirstFrame, NoCreate;
    if stage <= 2 {
      StillUntouched(l.peer, d);
    } else if stage == 3 {
      StillAnswering(l.peer, d, s, q);
    } else {
      OpenedWaits(l.peer, s, q);
      ServedOpened(l.peer, d, s, q, l.peer.waits);
    }
  }

  lemma OpenedWaits(c: B.Client, s: Settings, q: Item)
    requires Opened(c, s, q)
    ensures NoCreateResult(c.waits)
  {
  }

  lemma EmitKeeps(l: Link, s: Settings, q: Item, stage: nat)
    requires LinkAt(l, s, q, stage)
    ensures LinkOk(l.(peer := B.EmitOne(l.peer)), s)
  {
    hide Unsent, Asking, Tuned, OwnCreate, ExactSettings, Written, CreateMethod, FirstFrame, NoCreate, Tells, B.EmitOne;
    var d := l.(peer := B.EmitOne(l.peer));
    if stage <= 2 {
      UntouchedEmits(l.peer);
      assert LinkAt(d, s, q, stage);
    } else if stage == 3 {
      AnsweringEmits(l.peer, s, q);
      assert Answering(d.peer, s, q) ==> LinkAt(d, s, q, 3);
      FirstWritten(q, d.peer.compression);
      assert Opened(d.peer, s, q) ==> LinkAt(d, s, q, 4);
    } else {
      OpenedEmits(l.peer, s, q);
      assert LinkAt(d, s, q, 4);
    }
  }

  lemma FirstWritten(q: Item, codec: Compression)
    ensures Written([FirstFrame(q)], codec, q) && NoCreate([])
  {
    hide Harmless;
  }

  lemma UntouchedEmits(c: B.Client)
    requires Untouched(c)
    ensures B.EmitOne(c) == c
  {
  }

  lemma AnsweringEmits(c: B.Client, s: Settings, q: Item)
    requires Answering(c, s, q)
    ensures B.EmitOne(c).compression == c.compression
    ensures B.EmitOne(c) == c || Opened(B.EmitOne(c), s, q)
  {
    hide Tells, Print, Mbus, ResultJson, NoticeJson;
    assert c.results[1..] == [];
    assert forall f: Frame :: [] + [f] == [f] && [f][1..] == [];
  }

  lemma OpenedEmits(c: B.Client, s: Settings, q: Item)
    requires Opened(c, s, q)
    ensures Opened(B.EmitOne(c), s, q) && B.EmitOne(c).compression == c.compression
    ensures |B.EmitOne(c).out| >= |c.out|
  {
    hide Tells, Print, Mbus, ResultJson, NoticeJson, IsCreate;
    var d := B.EmitOne(c);
    if c.results != [] { NotCreateEmits(c); }
    if d.out != c.out {
      assert d.out[1..] == c.out[1..] + [d.out[|c.out|]];
    }
  }

  lemma NotCreateEmits(c: B.Client)
    requires c.results != [] && !IsCreate(c.results[0])
    ensures B.ResultCompression(c, c.results[0]) == c.compression
  {
  }

  lemma DecodeKeeps(l: Link, now: int, draw: string, s: Settings, q: Item, stage: nat)
    requires LinkAt(l, s, q, stage) && l.taken < |l.up| && NulFree(draw)
    ensures Agrees(l, BrokerDecodes(now, draw)) && LinkOk(Next(l, BrokerDecodes(now, draw)), s)
  {
    hide Unsent, Asking, Tuned, ExactSettings, Tells, CreateRequest, NulFree, Written, Opened, OwnCreate, Untouched, Answering, FirstFrame,
         CreateMethod, NoCreate;
    var d := Next(l, BrokerDecodes(now, draw));
    if stage == 1 {
      FirstArrives(l, now, draw, s, q);
      assert LinkAt(d, s, q, 2);
    } else {
      LaterArrives(l, now, draw, s, q);
      assert LinkAt(d, s, q, 4);
    }
  }

  /** What arrives is queued if it is a method, and closes the connection if it is not. */
  lemma DecodedShape(l: Link, now: int, draw: string) returns (more: seq<Request>)
    requires l.taken < |l.up|
    ensures
      var m, d := CreateRequest(l.peer.handle, l.up[l.taken].text, now, draw), Next(l, BrokerDecodes(now, draw));
      && d == l.(peer := d.peer, ms := l.ms + more, taken := l.taken + 1)
      && d.peer == l.peer.(log := d.peer.log, open := d.peer.open, closeCode := d.peer.closeCode)
      && |more| <= 1 && (more != [] ==> m == Some(more[0]))
      && (m.Some? && m.value.kind == TYPE_COMMAND ==> more == [m.value])
  {
    hide CreateRequest, Mbus;
    var m := CreateRequest(l.peer.handle, l.up[l.taken].text, now, draw);
    if m.None? || m.value.kind !in {TYPE_COMMAND, TYPE_EVENT} {
      more := [];
      assert l.ms + [] == l.ms;
    } else {
      more := [m.value];
    }
  }

  lemma FirstArrives(l: Link, now: int, draw: string, s: Settings, q: Item)
    requires l.up == [FirstFrame(q)] && l.taken == 0 && l.ms == [] && Untouched(l.peer) && OwnCreate(q, s) && NulFree(draw)
    ensures l.up[0].compression == l.peer.compression
    ensures var d := Next(l, BrokerDecodes(now, draw));
      d == l.(peer := d.peer, ms := d.ms, taken := 1) && |d.ms| == 1 && CreateMethod(d.ms[0], q, s) && Untouched(d.peer)
  {
    hide CreateRequest, NulFree, OwnCreate, CreateMethod, RequestText;
    OwnCreateArrives(q, s, l.peer.handle, now, draw);
  }

  lemma LaterArrives(l: Link, now: int, draw: string, s: Settings, q: Item)
    requires 1 <= l.taken < |l.up| && NoCreate(l.ms) && Opened(l.peer, s, q) && Written(l.up, l.peer.compression, q)
    ensures l.up[l.taken].compression == l.peer.compression
    ensures var d := Next(l, BrokerDecodes(now, draw));
      d == l.(peer := d.peer, ms := d.ms, taken := l.taken + 1) && NoCreate(d.ms) && Opened(d.peer, s, q)
      && d.peer.compression == l.peer.compression && d.peer.out == l.peer.out
  {
    hide CreateRequest, Tells, IsCreate, Harmless, FirstFrame;
    assert Harmless(l.up[l.taken].text);
    HarmlessArrives(l.up[l.taken].text, l.peer.handle, now, draw);
  }

  lemma HarmlessArrives(text: string, source: nat, now: int, draw: string)
    requires Harmless(text)
    ensures
      var m := CreateRequest(source, text, now, draw);
      m.Some? ==> !(IsCreate(m.value) && m.value.kind == TYPE_COMMAND)
  {
    hide CreateRequest, IsCreate;
  }

  lemma OwnCreateArrives(q: Item, s: Settings, source: nat, now: int, draw: string)
    requires OwnCreate(q, s) && NulFree(draw)
    ensures
      var m := CreateRequest(source, RequestText(q), now, draw);
      m.Some? && m.value.kind == TYPE_COMMAND && CreateMethod(m.value, q, s)
  {
    hide RequestText, InitialResult, CreateData, ExactItem, NulFree, Mbus, CreateRequest;
    RequestArrives(q, source, now, draw);
  }

  lemma HandleKeeps(l: Link, served: B.Client, zlib: bool, s: Settings, q: Item, stage: nat)
    requires LinkAt(l, s, q, stage) && l.ms != [] && HandledAs(l.peer, served, l.ms[0], zlib)
    ensures LinkOk(Next(l, BrokerHandles(served)), s)
  {
    hide Unsent, Asking, Tuned, ExactSettings, Tells, Written, Created, Still, Served, Opened, Answering, Untouched, OwnCreate, FirstFrame;
    var d := Next(l, BrokerHandles(served));
    if stage == 2 {
      CreateMethodIs(l.ms[0], q, s);
      CreateHandled(l.peer, served, l.ms[0], zlib, q, s);
      assert LinkAt(d, s, q, 3);
    } else {
      assert stage == 4;
      assert l.ms == [l.ms[0]] + d.ms;
      HandledOpened(l.peer, served, l.ms[0], zlib, s, q);
      assert LinkAt(d, s, q, 4);
    }
  }

  lemma CreateMethodIs(m: Request, q: Item, s: Settings)
    requires CreateMethod(m, q, s)
    ensures m.kind == TYPE_COMMAND && IsCreate(m)
  {
    hide NulFree, InitialResult, CreateData;
  }

  lemma CreateHandled(c: B.Client, d: B.Client, m: Request, zlib: bool, q: Item, s: Settings)
    requires Untouched(c) && Created(c, d, m, zlib) && CreateMethod(m, q, s) && OwnCreate(q, s) && ExactSettings(s)
    ensures Answering(d, s, q)
  {
    hide Tells, Created, CreateMethod, OwnCreate, ExactSettings, Print, Mbus, ResultJson;
    ResponseAnswers(c, d, m, zlib, q, s);
  }

  lemma HandledOpened(c: B.Client, d: B.Client, m: Request, zlib: bool, s: Settings, q: Item)
    requires Opened(c, s, q) && HandledAs(c, d, m, zlib) && !(IsCreate(m) && m.kind == TYPE_COMMAND)
    ensures Opened(d, s, q) && d.compression == c.compression && d.out == c.out
  {
    hide Tells, Created, IsCreate, Opened, FromWaits;
    OpenedWaits(c, s, q);
    if m.kind != TYPE_COMMAND {
      ServedOpened(c, d, s, q, c.waits);
    } else {
      assert NoCreateResult(c.waits + [m]);
      ServedOpened(c, d, s, q, c.waits + [m]);
    }
  }

  // ----- runs of the client -----

  lemma UnfoldRun(e: Engine, input: Input)
    requires Sound(e) && e.socket && !e.state.Disconnected?
    ensures e.state.Disconnecting? ==> Gone(Run(e, input).0) && DecodeStart(e, input).None?
    ensures !e.state.Disconnecting? ==>
      var (b, i) := BeforeDecode(e, input.poll, input.now);
      var (f, ok) := ReceiveAll(b, Messages(input.poll), input.now);
      && DecodeStart(e, input) == (if i.Polls? then Some(b) else None)
      && Run(e, input).0 ==
           if i.Fails? then b
           else if i.Skips? then (if b.broken then b else Finish(b, input.now).0)
           else if f.broken || !ok then f
           else Finish(f, input.now).0
  {
    hide Sound, Reset, Finish, BeforeDecode, ReceiveAll, Gone;
    BeginAlive(e, input.attempt, input.now);
    SoundAccount(e);
    if e.state.Disconnecting? {
      GoneRests(Begin(e, input.attempt, input.now).0, input.now);
      GoneFinish(Begin(e, input.attempt, input.now).0, input.now);
    }
  }

  lemma GoneFinish(e: Engine, now: int)
    requires Gone(e)
    ensures Finish(e, now) == (e, true)
  {
    hide Gone, CheckConnecting, CheckPing, SweepRequests, SweepPendings, Flush;
    GoneRests(e, now);
  }

  lemma GoneDark(e: Engine)
    requires Gone(e)
    ensures !e.socket && !e.broken
  {
    hide Accounted, Rising, PingsOk;
  }

  lemma UnsentRun(e: Engine, s: Settings, input: Input)
    requires Unsent(e, s) && ExactSettings(s) && Messages(input.poll) == []
    ensures
      var d := Run(e, input).0;
      Gone(d) || Unsent(d, s) || exists q :: Asking(d, s, q)
  {
    hide Sound, Unsent, Asking, Run, BeforeDecode, Finish, Gone, ExactSettings, DecodeStart, ReceiveAll;
    UnsentSound(e, s);
    UnfoldRun(e, input);
    if !e.state.Disconnecting? {
      UnsentBeforeDecode(e, s, input.poll, input.now);
      var (b, i) := BeforeDecode(e, input.poll, input.now);
      NoMessages(b, [], input.now);
      if !Unsent(b, s) {
        GoneFinish(b, input.now);
      } else {
        UnsentSound(b, s);
        if Gone(b) { GoneDark(b); }
        SoundAccount(b);
        UnsentFinish(b, s, input.now);
      }
    }
  }

  lemma UnsentSound(e: Engine, s: Settings)
    requires Unsent(e, s)
    ensures Sound(e) && e.socket && !e.state.Disconnected? && !e.state.Connected? && e.compression == Uncompressed
  {
    hide Sound, OwnCreate;
  }

  lemma AskingSound(e: Engine, s: Settings, q: Item)
    requires Asking(e, s, q)
    ensures Sound(e) && e.socket && !e.state.Disconnected? && !e.state.Connected? && e.compression == Uncompressed
  {
    hide Sound, OwnCreate, RequestText;
  }

  lemma NoMessages(e: Engine, frames: seq<Frame>, now: int)
    ensures ReceiveAll(e, [], now) == (e, true) && ReadsWell(e, frames, [], now) && Count(e, [], now) == 0
  {
  }

  lemma GoneReads(e: Engine, frames: seq<Frame>, messages: seq<Incoming>, now: int)
    requires Gone(e) && |messages| <= |frames|
    ensures ReceiveAll(e, messages, now) == (e, true) && ReadsWell(e, frames, messages, now)
  {
    hide Sound;
  }

  /** The decode loop of a client that waits for the response finds it first. */
  lemma AskingReads(e: Engine, s: Settings, q: Item, codec: Compression, frames: seq<Frame>, messages: seq<Incoming>, now: int)
    requires Asking(e, s, q) && e.state.Connecting? && ExactSettings(s) && ExactMessages(messages) && (codec == Zlib ==> s.zlib)
    requires Follows(messages, frames)
    requires frames != [] ==> frames[0].compression == Uncompressed && Tells(frames[0].text, q, codec) && AllWith(frames[1..], codec)
    ensures ReadsWell(e, frames, messages, now)
    ensures
      var (d, ok) := ReceiveAll(e, messages, now);
      if messages == [] then d == e && ok && Count(e, messages, now) == 0
      else Count(e, messages, now) >= 1 && (Gone(d) || (Tuned(d, s, codec, q) && d.state.Connected?))
  {
    hide Asking, Tuned, Gone, Tells, Receive, ExactSettings, ExactIncoming, ReceiveAll, ReadsWell;
    AskingSound(e, s, q);
    if messages == [] {
      NoMessages(e, frames, now);
    } else {
      var rest, later := messages[1..], frames[1..];
      assert messages[0].text == frames[0].text;
      ResponseHandled(e, s, q, messages[0], codec, now);
      var (d, ok) := Receive(e, messages[0], now);
      ReadsFirst(e, frames, messages, now);
      if Gone(d) {
        GoneReads(d, later, rest, now);
      } else {
        TunedReceiveAll(d, s, codec, q, later, rest, now);
      }
    }
  }

  lemma ReadsFirst(e: Engine, frames: seq<Frame>, messages: seq<Incoming>, now: int)
    requires messages != [] && e.socket && |messages| <= |frames| && Receive(e, messages[0], now).1
    ensures var d := Receive(e, messages[0], now).0;
      && ReceiveAll(e, messages, now) == ReceiveAll(d, messages[1..], now)
      && (frames[0].compression == e.compression && ReadsWell(d, frames[1..], messages[1..], now) ==> ReadsWell(e, frames, messages, now))
    ensures Count(e, messages, now) >= 1
  {
    hide Receive;
  }

  lemma AskingRun(e: Engine, s: Settings, q: Item, codec: Compression, frames: seq<Frame>, input: Input)
    requires Asking(e, s, q) && ExactSettings(s) && ExactMessages(Messages(input.poll)) && (codec == Zlib ==> s.zlib)
    requires Follows(Messages(input.poll), frames)
    requires frames != [] ==> frames[0].compression == Uncompressed && Tells(frames[0].text, q, codec) && AllWith(frames[1..], codec)
    ensures
      var d := Run(e, input).0;
      var n := Decoded(e, Turn(input));
      || Gone(d)
      || (n == 0 && Asking(d, s, q))
      || (n >= 1 && frames != [] && Tuned(d, s, codec, q))
    ensures DecodeStart(e, input).Some? ==>
      ReadsWell(DecodeStart(e, input).value, frames, Messages(input.poll), input.now)
  {
    hide Sound, Asking, Tuned, Run, BeforeDecode, Finish, Gone, ExactSettings, DecodeStart, ReceiveAll, ReadsWell, Tells, ExactMessages;
    AskingSound(e, s, q);
    UnfoldRun(e, input);
    if !e.state.Disconnecting? {
      AskingBeforeDecode(e, s, q, input.poll, input.now);
      var (b, i) := BeforeDecode(e, input.poll, input.now);
      if b != e {
        GoneFinish(b, input.now);
      } else {
        SoundAccount(e);
        AskingFinish(e, s, q, input.now);
        AskingReads(e, s, q, codec, frames, Messages(input.poll), input.now);
        var (f, ok) := ReceiveAll(b, Messages(input.poll), input.now);
        if Gone(f) {
          GoneFinish(f, input.now);
        } else if Messages(input.poll) != [] {
          TunedFinish(f, s, codec, q, input.now);
        }
      }
    }
  }

  lemma TunedRun(e: Engine, s: Settings, q: Item, codec: Compression, frames: seq<Frame>, input: Input)
    requires Tuned(e, s, codec, q) && ExactSettings(s) && ExactMessages(Messages(input.poll))
    requires Follows(Messages(input.poll), frames) && AllWith(frames, codec)
    ensures Gone(Run(e, input).0) || Tuned(Run(e, input).0, s, codec, q)
    ensures DecodeStart(e, input).Some? ==>
      ReadsWell(DecodeStart(e, input).value, frames, Messages(input.poll), input.now)
  {
    hide Sound, Tuned, Run, BeforeDecode, Finish, Gone, ExactSettings, DecodeStart, ReceiveAll, ReadsWell, ExactMessages;
    TunedSettings(e, s, codec, q);
    TunedState(e, s, codec, q);
    UnfoldRun(e, input);
    if !e.state.Disconnecting? {
      TunedBeforeDecode(e, s, codec, q, input.poll, input.now);
      var (b, i) := BeforeDecode(e, input.poll, input.now);
      if b != e {
        GoneFinish(b, input.now);
      } else {
        SoundAccount(e);
        TunedFinish(e, s, codec, q, input.now);
        TunedReceiveAll(e, s, codec, q, frames, Messages(input.poll), input.now);
        var (f, ok) := ReceiveAll(b, Messages(input.poll), input.now);
        TunedFinish(f, s, codec, q, input.now);
      }
    }
  }

  lemma TunedState(e: Engine, s: Settings, codec: Compression, q: Item)
    requires Tuned(e, s, codec, q)
    ensures e.state.Connected? || e.state.Disconnecting?
  {
    hide Sound, PlainItem, Harmless;
  }

  // ----- operations of the client -----

  lemma DisconnectModes(e: Engine, s: Settings, q: Item, codec: Compression)
    requires Sound(e) && !e.state.Disconnected?
    ensures var d := e.(state := Disconnecting);
      && (Unsent(e, s) ==> Unsent(d, s)) && (Asking(e, s, q) ==> Asking(d, s, q)) && (Tuned(e, s, codec, q) ==> Tuned(d, s, codec, q))
  {
    hide Sound, PlainItem, Harmless, OwnCreate, RequestText;
    StateSound(e, e.(state := Disconnecting));
  }

  lemma RefusedWhileConnecting(e: Engine, o: Operation)
    requires !e.state.Connected? && !e.broken && Allowed(e, o) && (o.Issue? || o.Emit?)
    ensures Apply(e, o) == e
  {
    hide Mbus;
  }

  lemma TunedIssue(e: Engine, s: Settings, codec: Compression, q: Item, o: Operation)
    requires Tuned(e, s, codec, q) && Allowed(e, o) && ExactOperation(o) && ExactSettings(s) && o.Issue?
    ensures Tuned(Apply(e, o), s, codec, q)
  {
    hide Tuned, Mbus, NulFree, Exact, Enqueue;
    TunedSettings(e, s, codec, q);
    if e.state.Connected? {
      NamesNulFree();
      TunedEnqueue(e, s, codec, q, TYPE_COMMAND, o.destination, o.command, o.payload, o.handler,
                   if o.timeout <= 0 then s.commandTimeout else o.timeout, o.now);
    }
  }

  lemma TunedEmit(e: Engine, s: Settings, codec: Compression, q: Item, o: Operation)
    requires Tuned(e, s, codec, q) && ExactOperation(o) && ExactSettings(s) && o.Emit?
    ensures Tuned(Apply(e, o), s, codec, q)
  {
    hide Tuned, Mbus, NulFree, Exact, Enqueue, EventPayload;
    TunedSettings(e, s, codec, q);
    if e.state.Connected? {
      NamesNulFree();
      NamesDiffer();
      CreateNulFree();
      var to := if o.to.None? then SUBSCRIBERS else o.to.value;
      var t := if o.limit <= 0 then s.publishTimeout else o.limit;
      TunedEnqueue(e, s, codec, q, TYPE_EVENT, to, o.event, o.data, UserHandler, t, o.at);
      EventPayloadExact(to, o.event, o.data);
      TunedEnqueue(e, s, codec, q, TYPE_COMMAND, SERVER, "command.event", Some(EventPayload(to, o.event, o.data)), EventHandler,
                   if t <= 0 then s.commandTimeout else t, o.at);
    }
  }

  lemma TunedApplies(e: Engine, s: Settings, codec: Compression, q: Item, frames: seq<Frame>, o: Operation)
    requires Tuned(e, s, codec, q) && Allowed(e, o) && ExactOperation(o) && ExactSettings(s)
    requires o.Turn? ==> Follows(Messages(o.input.poll), frames) && AllWith(frames, codec)
    ensures Gone(Apply(e, o)) || Tuned(Apply(e, o), s, codec, q)
    ensures o.Turn? && DecodeStart(e, o.input).Some? ==>
      ReadsWell(DecodeStart(e, o.input).value, frames, Messages(o.input.poll), o.input.now)
  {
    hide Tuned, Gone, Sound, Run, ExactMessages, Command, Publish, DecodeStart, ReadsWell, ExactSettings, NulFree, Exact;
    TunedSettings(e, s, codec, q);
    TunedState(e, s, codec, q);
    match o
    case Connect =>
    case Disconnect => DisconnectModes(e, s, q, codec);
    case Issue(handler, destination, command, payload, timeout, now) => TunedIssue(e, s, codec, q, o);
    case Emit(to, event, data, qos, limit, at) => TunedEmit(e, s, codec, q, o);
    case Turn(input) =>
      TunedRun(e, s, q, codec, frames, input);
      SoundAccount(e);
  }

  lemma AskingApplies(e: Engine, s: Settings, q: Item, codec: Compression, frames: seq<Frame>, o: Operation)
    requires Asking(e, s, q) && Allowed(e, o) && ExactOperation(o) && ExactSettings(s) && (codec == Zlib ==> s.zlib)
    requires o.Turn? ==> Follows(Messages(o.input.poll), frames)
    requires frames != [] ==> frames[0].compression == Uncompressed && Tells(frames[0].text, q, codec) && AllWith(frames[1..], codec)
    ensures
      var d, n := Apply(e, o), Decoded(e, o);
      || Gone(d)
      || (n == 0 && Asking(d, s, q))
      || (n >= 1 && frames != [] && Tuned(d, s, codec, q))
    ensures o.Turn? && DecodeStart(e, o.input).Some? ==>
      ReadsWell(DecodeStart(e, o.input).value, frames, Messages(o.input.poll), o.input.now)
  {
    hide Asking, Tuned, Gone, Sound, Run, ExactMessages, Command, Publish, DecodeStart, ReadsWell, ExactSettings, NulFree, Exact, Tells;
    AskingSound(e, s, q);
    SoundAccount(e);
    match o
    case Connect =>
    case Disconnect => DisconnectModes(e, s, q, codec);
    case Issue(handler, destination, command, payload, timeout, now) => RefusedWhileConnecting(e, o);
    case Emit(to, event, data, qos, limit, at) => RefusedWhileConnecting(e, o);
    case Turn(input) => AskingRun(e, s, q, codec, frames, input);
  }

  lemma UnsentApplies(e: Engine, s: Settings, o: Operation)
    requires Unsent(e, s) && Allowed(e, o) && ExactSettings(s) && (o.Turn? ==> Messages(o.input.poll) == [])
    ensures
      var d := Apply(e, o);
      Gone(d) || Unsent(d, s) || exists q :: Asking(d, s, q)
    ensures Decoded(e, o) == 0
    ensures o.Turn? && DecodeStart(e, o.input).Some? ==>
      ReadsWell(DecodeStart(e, o.input).value, [], Messages(o.input.poll), o.input.now)
  {
    hide Unsent, Asking, Gone, Sound, Run, Command, Publish, DecodeStart, ExactSettings;
    UnsentSound(e, s);
    SoundAccount(e);
    match o
    case Connect =>
    case Disconnect => var q: Item :| true; DisconnectModes(e, s, q, Uncompressed);
    case Issue(handler, destination, command, payload, timeout, now) => RefusedWhileConnecting(e, o);
    case Emit(to, event, data, qos, limit, at) => RefusedWhileConnecting(e, o);
    case Turn(input) => UnsentRun(e, s, input);
  }

  lemma GoneLeaves(l: Link, d: Link, s: Settings, q: Item, stage: nat)
    requires LinkAt(l, s, q, stage) && !d.alive && d == l.(alive := false, e := d.e, read := d.read)
    ensures LinkOk(d, s)
  {
    hide Untouched, Answering, Opened, Unsent, Asking, Tuned, OwnCreate, ExactSettings, Written, CreateMethod, FirstFrame, NoCreate;
    assert LinkAt(d, s, q, stage);
  }

  lemma OperateUnsent(l: Link, o: Operation, s: Settings, q: Item)
    requires LinkAt(l, s, q, 0) && May(l, ClientOperates(o), false)
    ensures Agrees(l, ClientOperates(o)) && LinkOk(Next(l, ClientOperates(o)), s)
  {
    hide Unsent, Asking, Tuned, OwnCreate, ExactSettings, Gone, Apply, Decoded, DecodeStart, ReadsWell, Allowed, ExactOperation, FirstFrame;
    var d := Next(l, ClientOperates(o));
    assert l.peer.out[l.read..] == [];
    UnsentApplies(l.e, s, o);
    if Gone(d.e) {
      GoneDark(d.e);
      GoneLeaves(l, d, s, q, 0);
    } else if Unsent(d.e, s) {
      UnsentSound(d.e, s);
      UnsentSilent(d.e, s);
      assert LinkAt(d, s, q, 0);
    } else {
      var c :| Asking(d.e, s, c);
      AskingSound(d.e, s, c);
      AskingCreates(d.e, s, c);
      assert LinkAt(d, s, c, 1);
    }
  }

  lemma UnsentSilent(e: Engine, s: Settings)
    requires Unsent(e, s)
    ensures e.outgoing == []
  {
    hide Sound, OwnCreate;
  }

  lemma AskingCreates(e: Engine, s: Settings, q: Item)
    requires Asking(e, s, q)
    ensures OwnCreate(q, s) && e.outgoing == [FirstFrame(q)]
  {
    hide Sound, OwnCreate, RequestText;
  }

  lemma TunedWrites(e: Engine, s: Settings, codec: Compression, q: Item)
    requires Tuned(e, s, codec, q)
    ensures Written(e.outgoing, codec, q)
  {
    hide Sound, PlainItem, Harmless;
  }

  /** Before the response is written the client can read nothing; it is the first thing it reads. */
  lemma ResponseFirst(l: Link, s: Settings, q: Item, stage: nat)
    requires BrokerSide(l, s, q, stage) && stage >= 1
    ensures
      var out := l.peer.out;
      && (out != [] ==> stage == 4 && out[0].compression == Uncompressed && Tells(out[0].text, q, l.peer.compression)
                        && AllWith(out[1..], l.peer.compression))
      && (stage == 4 ==> out != [])
      && (l.peer.compression == Zlib ==> s.zlib)
  {
    hide Tells, CreateMethod, FirstFrame, Written, NoCreate, IsCreate, NoCreateResult;
  }

  lemma OperateAsking(l: Link, o: Operation, s: Settings, q: Item, stage: nat)
    requires LinkAt(l, s, q, stage) && stage >= 1 && l.read == 0 && May(l, ClientOperates(o), false)
    ensures Agrees(l, ClientOperates(o)) && LinkOk(Next(l, ClientOperates(o)), s)
  {
    hide Unsent, Asking, Tuned, OwnCreate, ExactSettings, Gone, Apply, Decoded, DecodeStart, ReadsWell, Allowed, ExactOperation, FirstFrame,
         BrokerSide, Tells;
    var d := Next(l, ClientOperates(o));
    assert l.peer.out[l.read..] == l.peer.out;
    ResponseFirst(l, s, q, stage);
    AskingApplies(l.e, s, q, l.peer.compression, l.peer.out, o);
    if Gone(d.e) {
      GoneDark(d.e);
      GoneLeaves(l, d, s, q, stage);
    } else if Asking(d.e, s, q) && Decoded(l.e, o) == 0 {
      AskingSound(d.e, s, q);
      AskingCreates(l.e, s, q);
      AskingCreates(d.e, s, q);
      SameSide(l, d, s, q, stage);
      assert LinkAt(d, s, q, stage);
    } else {
      TunedSettings(d.e, s, l.peer.compression, q);
      TunedWrites(d.e, s, l.peer.compression, q);
      DecodedBound(l.e, o);
      WrittenSide(l, d, s, q);
      assert LinkAt(d, s, q, 4);
    }
  }

  lemma DecodedBound(e: Engine, o: Operation)
    ensures Decoded(e, o) <= if o.Turn? then |Messages(o.input.poll)| else 0
  {
    hide DecodeStart, Count;
  }

  lemma SameSide(l: Link, d: Link, s: Settings, q: Item, stage: nat)
    requires BrokerSide(l, s, q, stage) && d.up == l.up && d.peer == l.peer && d.ms == l.ms && d.taken == l.taken
    ensures BrokerSide(d, s, q, stage)
  {
    hide Untouched, Answering, Opened, Written, CreateMethod, FirstFrame, NoCreate;
  }

  lemma WrittenSide(l: Link, d: Link, s: Settings, q: Item)
    requires BrokerSide(l, s, q, 4) && d.peer == l.peer && d.ms == l.ms && d.taken == l.taken && Written(d.up, l.peer.compression, q)
    ensures BrokerSide(d, s, q, 4)
  {
    hide Opened, Written, FirstFrame, NoCreate;
  }

  lemma OperateTuned(l: Link, o: Operation, s: Settings, q: Item, stage: nat)
    requires LinkAt(l, s, q, stage) && stage >= 1 && l.read > 0 && May(l, ClientOperates(o), false)
    ensures Agrees(l, ClientOperates(o)) && LinkOk(Next(l, ClientOperates(o)), s)
  {
    hide Unsent, Asking, Tuned, OwnCreate, ExactSettings, Gone, Apply, Decoded, DecodeStart, ReadsWell, Allowed, ExactOperation, FirstFrame,
         BrokerSide, Tells;
    var d := Next(l, ClientOperates(o));
    ResponseFirst(l, s, q, stage);
    var frames := l.peer.out[l.read..];
    assert AllWith(frames, l.peer.compression) by { LaterFrames(l.peer.out, l.read, l.peer.compression); }
    TunedApplies(l.e, s, l.peer.compression, q, frames, o);
    if Gone(d.e) {
      GoneDark(d.e);
      GoneLeaves(l, d, s, q, stage);
    } else {
      TunedSettings(d.e, s, l.peer.compression, q);
      TunedWrites(d.e, s, l.peer.compression, q);
      DecodedBound(l.e, o);
      WrittenSide(l, d, s, q);
      assert LinkAt(d, s, q, 4);
    }
  }

  lemma LaterFrames(out: seq<Frame>, read: nat, codec: Compression)
    requires 1 <= read <= |out| && AllWith(out[1..], codec)
    ensures AllWith(out[read..], codec)
  {
    forall k | 0 <= k < |out| - read ensures out[read..][k].compression == codec {
      assert out[read..][k] == out[1..][read - 1 + k];
    }
  }

  // ----- agreement -----

  /** Every possible move decodes what it decodes with the right compression, and leaves a connection of
      which the same can be said. */
  lemma MoveAgrees(l: Link, move: Move, zlib: bool, s: Settings)
    requires LinkOk(l, s) && May(l, move, zlib)
    ensures Agrees(l, move) && LinkOk(Next(l, move), s)
  {
    hide LinkAt, Still, HandledAs, Allowed, ExactOperation, Follows, ReadsWell, DecodeStart, Count, Decoded, B.EmitOne, Apply;
    var q: Item, stage: nat :| LinkAt(l, s, q, stage);
    match move
    case BrokerOther(after) =>
      OtherKeeps(l, after, s, q, stage);
    case BrokerHandles(served) =>
      HandleKeeps(l, served, zlib, s, q, stage);
    case BrokerEmits =>
      EmitKeeps(l, s, q, stage);
    case BrokerDecodes(now, draw) =>
      DecodeKeeps(l, now, draw, s, q, stage);
    case BrokerReaps =>
      ReapKeeps(l, s, q, stage);
    case ClientOperates(o) =>
      ClientStages(l, s, q, stage);
      if stage == 0 {
        OperateUnsent(l, o, s, q);
      } else if l.read == 0 {
        OperateAsking(l, o, s, q, stage);
      } else {
        OperateTuned(l, o, s, q, stage);
      }
  }

  lemma ReapKeeps(l: Link, s: Settings, q: Item, stage: nat)
    requires LinkAt(l, s, q, stage)
    ensures LinkAt(l.(present := false), s, q, stage)
  {
    hide Untouched, Answering, Opened, Unsent, Asking, Tuned, OwnCreate, ExactSettings, Written, CreateMethod, FirstFrame, NoCreate;
  }

  lemma ClientStages(l: Link, s: Settings, q: Item, stage: nat)
    requires LinkAt(l, s, q, stage)
    ensures stage <= 4
  {
    hide Untouched, Answering, Opened, Unsent, Asking, Tuned, OwnCreate, ExactSettings, Written, CreateMethod, FirstFrame, NoCreate;
  }

  /** A run of the connection: each move is possible when it is made. */
  ghost predicate Runs(l: Link, moves: seq<Move>, zlib: bool)
    decreases |moves|
  {
    moves == [] || (May(l, moves[0], zlib) && Runs(Next(l, moves[0]), moves[1..], zlib))
  }

  ghost predicate AllAgree(l: Link, moves: seq<Move>, zlib: bool)
    requires Runs(l, moves, zlib)
    decreases |moves|
  {
    moves == [] || (Agrees(l, moves[0]) && AllAgree(Next(l, moves[0]), moves[1..], zlib))
  }

  function After(l: Link, moves: seq<Move>, zlib: bool): Link
    requires Runs(l, moves, zlib)
    decreases |moves|
  {
    if moves == [] then l else After(Next(l, moves[0]), moves[1..], zlib)
  }

  lemma MayFits(l: Link, move: Move, zlib: bool)
    requires May(l, move, zlib)
    ensures (move.BrokerHandles? ==> l.ms != []) && (move.BrokerDecodes? ==> l.taken < |l.up|)
  {
    hide Allowed, ExactOperation, Still, HandledAs;
  }

  lemma {:induction false} RunOk(l: Link, moves: seq<Move>, zlib: bool, s: Settings)
    requires LinkOk(l, s) && Runs(l, moves, zlib)
    ensures AllAgree(l, moves, zlib) && LinkOk(After(l, moves, zlib), s)
    decreases |moves|
  {
    hide LinkOk, May, Agrees;
    if moves != [] {
      MayFits(l, moves[0], zlib);
      MoveAgrees(l, moves[0], zlib, s);
      RunOk(Next(l, moves[0]), moves[1..], zlib, s);
    }
  }

  /** In every interleaving of broker and client on one connection, every frame is decoded with the
      compression it was encoded with, in both directions. */
  lemma CodecsAgree(l: Link, moves: seq<Move>, zlib: bool, s: Settings)
    requires LinkStart(l, s) && Runs(l, moves, zlib)
    ensures AllAgree(l, moves, zlib)
  {
    hide LinkStart, LinkOk, Runs, AllAgree;
    StartOk(l, s);
    RunOk(l, moves, zlib, s);
  }

  /** The create request is the first frame to the broker and the response to it the first to the
      client; both travel uncompressed, and all later frames with the compression the broker chose. */
  lemma FirstFrames(l: Link, moves: seq<Move>, zlib: bool, s: Settings)
    requires LinkStart(l, s) && Runs(l, moves, zlib)
    ensures
      var d := After(l, moves, zlib);
      && (d.up != [] ==> exists q :: OwnCreate(q, s) && d.up[0] == Frame(Uncompressed, RequestText(q)))
      && (|d.up| > 1 ==> AllWith(d.up[1..], d.peer.compression))
      && (d.peer.out != [] ==>
            && d.peer.out[0].compression == Uncompressed
            && d.up != []
            && (exists q :: OwnCreate(q, s) && d.up[0] == Frame(Uncompressed, RequestText(q))
                            && Tells(d.peer.out[0].text, q, d.peer.compression))
            && AllWith(d.peer.out[1..], d.peer.compression))
  {
    hide LinkStart, Runs, AllAgree, LinkAt;
    StartOk(l, s);
    RunOk(l, moves, zlib, s);
    var d := After(l, moves, zlib);
    var q: Item, stage: nat :| LinkAt(d, s, q, stage);
    FramesAt(d, s, q, stage);
  }

  lemma FramesAt(d: Link, s: Settings, q: Item, stage: nat)
    requires LinkAt(d, s, q, stage)
    ensures d.up != [] ==> OwnCreate(q, s) && d.up[0] == Frame(Uncompressed, RequestText(q))
    ensures |d.up| > 1 ==> AllWith(d.up[1..], d.peer.compression)
    ensures d.peer.out != [] ==>
      d.up != [] && d.peer.out[0].compression == Uncompressed && Tells(d.peer.out[0].text, q, d.peer.compression)
      && AllWith(d.peer.out[1..], d.peer.compression)
  {
    hide Unsent, Asking, Tuned, OwnCreate, ExactSettings, CreateMethod, NoCreate, Tells, RequestText, Harmless, IsCreate;
  }
}

/** One connection whose application may issue create commands of its own: broker and client agree on the
    compression in all that can happen exactly if the broker has no zlib, or neither the client nor any of
    these commands offers it. */
module CodecFree {
  import opened Options
  import opened Compress
  import opened JsonStrings
  import opened JsonText
  import opened JsonPath
  import opened Methods
  import B = BrokerState
  import opened BrokerLink
  import opened ClientState
  import opened ClientInvariant
  import opened ClientRun
  import opened ClientLives
  import opened CodecText
  import opened CodecLink
  import opened CodecAgreement
  import opened CodecMoves
  import CodecOwn

  // ----- the machine, less restricted -----

  /** Besides what was allowed before, the application may issue create commands to the broker; they offer
      zlib only if offers says so. */
  ghost predicate FreeOperation(e: Engine, o: Operation, offers: bool) {
    && Free(e, o) && ExactOperation(o)
    && (o.Issue? && o.command == "command.create" ==>
          o.destination == SERVER && (o.payload.Some? && CodecOwn.Offering(o.payload.value) ==> offers))
  }

  /** Events and calls on their way to a client hold strings without NUL and 32-bit numbers. */
  ghost predicate ExactNotices(c: B.Client) {
    && (forall k | 0 <= k < |c.events| :: PlainNotice(c.events[k]))
    && (forall k | 0 <= k < |c.requests| :: PlainNotice(c.requests[k]))
  }

  ghost predicate PlainNotice(n: Notice) {
    n.kind in {TYPE_EVENT, TYPE_COMMAND} && Exact(NoticeJson(n))
  }

  ghost predicate FreeMay(l: Link, move: Move, zlib: bool, offers: bool) {
    match move
    case BrokerOther(after) => l.present && Still(l.peer, after, false) && ExactNotices(after)
    case BrokerHandles(served) => l.present && l.ms != [] && HandledAs(l.peer, served, l.ms[0], zlib) && ExactNotices(served)
    case BrokerEmits => l.present
    case BrokerReaps => l.present
    case BrokerDecodes(now, draw) => l.present && l.taken < |l.up| && NulFree(draw)
    case ClientOperates(o) =>
      && l.alive && FreeOperation(l.e, o, offers) && l.read <= |l.peer.out|
      && (o.Turn? ==> Follows(Messages(o.input.poll), l.peer.out[l.read..]))
  }

  ghost predicate FreeRuns(l: Link, moves: seq<Move>, zlib: bool, offers: bool)
    decreases |moves|
  {
    moves == [] || (FreeMay(l, moves[0], zlib, offers) && FreeRuns(Next(l, moves[0]), moves[1..], zlib, offers))
  }

  ghost predicate FreeAgree(l: Link, moves: seq<Move>, zlib: bool, offers: bool)
    requires FreeRuns(l, moves, zlib, offers)
    decreases |moves|
  {
    moves == [] || (Agrees(l, moves[0]) && FreeAgree(Next(l, moves[0]), moves[1..], zlib, offers))
  }

  // ----- the invariant -----

  /** The text of a message for the client does not make it use zlib. */
  ghost predicate TameFrame(f: Frame) {
    f.compression == Uncompressed && CodecOwn.Tame(f.text)
  }

  /** As long as the client waits for the response to its create request, all it has sent are create
      commands, so all it is sent are their results, and events and calls. */
  ghost predicate Fresh(l: Link) {
    && l.peer.waits == [] && ExactNotices(l.peer)
    && (forall k | 0 <= k < |l.ms| :: CodecOwn.CreateMade(l.ms[k]))
    && (forall k | 0 <= k < |l.peer.results| :: CodecOwn.Tame(Print(ResultJson(l.peer.results[k]), 0, false)))
    && (forall k | 0 <= k < |l.peer.out| :: CodecOwn.Tame(l.peer.out[k].text))
  }

  /** Nobody uses zlib. */
  ghost predicate PlainLink(l: Link, s: Settings, lets: bool) {
    && l.peer.compression == Uncompressed && AllWith(l.peer.out, Uncompressed) && AllWith(l.up, Uncompressed)
    && (forall k | 0 <= k < |l.ms| :: CodecOwn.FairMethod(l.ms[k], lets))
    && (forall k | 0 <= k < |l.up| :: CodecOwn.FairText(l.up[k].text, lets))
  }

  ghost predicate Uses(l: Link, s: Settings, lets: bool) {
    l.alive ==>
      && l.up == l.e.outgoing && l.e.socket && !l.e.state.Disconnected? && Loose(l.e) && CodecOwn.Level(l.e, s, lets)
      && (s.zlib && l.e.state.Connecting? ==> Fresh(l))
  }

  ghost predicate FlatLink(l: Link, s: Settings, lets: bool) {
    ExactSettings(s) && (s.zlib ==> lets) && PlainLink(l, s, lets) && Uses(l, s, lets)
  }

  // ----- how it starts -----

  lemma SoundLoose(e: Engine)
    requires Sound(e)
    ensures Loose(e)
  {
    hide Accounted, Rising, PingsOk;
    var q := e.pendings + e.requests;
    CreatesJoined(e);
    forall i, j | 0 <= i < j < |q| ensures !(q[i].handler.CreateHandler? && q[j].handler.CreateHandler?) {
      assert |q| == Load(e);
    }
  }

  lemma OwnCreateFair(q: Item, s: Settings, lets: bool)
    requires OwnCreate(q, s) && (s.zlib ==> lets)
    ensures CodecOwn.FairItem(q, lets) && CodecOwn.CreateItem(q)
  {
    hide ExactItem, CreateData, CodecOwn.Offering;
    CodecOwn.OwnOffers(s);
  }

  lemma UnsentLevel(e: Engine, s: Settings, lets: bool)
    requires Unsent(e, s) && (s.zlib ==> lets)
    ensures CodecOwn.Level(e, s, lets) && e.socket && !e.state.Disconnected?
  {
    hide Sound, OwnCreate, CodecOwn.FairItem, CodecOwn.CreateItem, CodecOwn.Written;
    if e.requests != [] {
      OwnCreateFair(e.requests[0], s, lets);
    }
  }

  lemma AskingLevel(e: Engine, s: Settings, q: Item, lets: bool)
    requires Asking(e, s, q) && (s.zlib ==> lets)
    ensures CodecOwn.Level(e, s, lets) && e.socket && !e.state.Disconnected?
  {
    hide Sound, OwnCreate, CodecOwn.FairItem, CodecOwn.CreateItem, CodecOwn.FairText, CodecOwn.CreateText, RequestText;
    OwnCreateFair(q, s, lets);
    CodecOwn.FairItemText(q, lets);
  }

  lemma StartFlat(l: Link, s: Settings, lets: bool)
    requires LinkStart(l, s) && (s.zlib ==> lets)
    ensures FlatLink(l, s, lets)
  {
    hide Unsent, Asking, ExactSettings, Sound, CodecOwn.Level, CodecOwn.FairText, CodecOwn.FairMethod, CodecOwn.Tame, Loose, CodecOwn.CreateMade;
    if Unsent(l.e, s) {
      UnsentLevel(l.e, s, lets);
      UnsentSound(l.e, s);
    } else {
      var q :| Asking(l.e, s, q);
      AskingLevel(l.e, s, q, lets);
      AskingSound(l.e, s, q);
    }
    SoundLoose(l.e);
    LevelFrames(l.e, s, lets);
  }

  lemma LevelFrames(e: Engine, s: Settings, lets: bool)
    requires CodecOwn.Level(e, s, lets) && e.socket
    ensures AllWith(e.outgoing, Uncompressed) && forall k | 0 <= k < |e.outgoing| :: CodecOwn.FairText(e.outgoing[k].text, lets)
  {
    hide CodecOwn.FairText, CodecOwn.FairItem, CodecOwn.CreateText;
    forall k | 0 <= k < |e.outgoing|
      ensures e.outgoing[k].compression == Uncompressed && CodecOwn.FairText(e.outgoing[k].text, lets)
    {
      assert CodecOwn.Written(e.outgoing[k], lets, e.state.Connecting?);
    }
  }

  // ----- moves of the broker -----

  /** The peer changed, but for what the client was sent and what it may be sent. */
  lemma PeerFlat(l: Link, d: B.Client, s: Settings, lets: bool)
    requires FlatLink(l, s, lets) && d.compression == Uncompressed && d.out == l.peer.out
    requires ExactNotices(d) && (l.peer.waits == [] ==> d.waits == [] && d.results == l.peer.results)
    ensures FlatLink(l.(peer := d), s, lets)
  {
    hide CodecOwn.Level, CodecOwn.FairText, CodecOwn.FairMethod, CodecOwn.Tame, Loose, CodecOwn.CreateMade, ExactSettings, PlainNotice;
  }

  lemma OtherFlat(l: Link, d: B.Client, s: Settings, lets: bool)
    requires FlatLink(l, s, lets) && Still(l.peer, d, false) && ExactNotices(d)
    ensures FlatLink(l.(peer := d), s, lets)
  {
    hide FlatLink, ExactNotices, Drains;
    if l.peer.waits == [] { DrainsNothing(l.peer, d); }
    FlatPeer(l, s, lets);
    PeerFlat(l, d, s, lets);
  }

  lemma FlatPeer(l: Link, s: Settings, lets: bool)
    requires FlatLink(l, s, lets)
    ensures l.peer.compression == Uncompressed && ExactSettings(s) && AllWith(l.peer.out, Uncompressed) && AllWith(l.up, Uncompressed)
  {
    hide ExactSettings, CodecOwn.Level, Loose, Fresh;
  }

  /** The head of the queue leaves it. */
  lemma HeadFlat(l: Link, s: Settings, lets: bool)
    requires FlatLink(l, s, lets) && l.ms != []
    ensures FlatLink(l.(ms := l.ms[1..]), s, lets) && CodecOwn.FairMethod(l.ms[0], lets)
    ensures l.alive && s.zlib && l.e.state.Connecting? ==> CodecOwn.CreateMade(l.ms[0])
  {
    hide CodecOwn.Level, CodecOwn.FairText, CodecOwn.FairMethod, CodecOwn.Tame, Loose, CodecOwn.CreateMade, ExactSettings, ExactNotices;
    var d := l.(ms := l.ms[1..]);
    assert forall k | 0 <= k < |d.ms| :: d.ms[k] == l.ms[k + 1];
  }

  lemma HandlesFlat(l: Link, served: B.Client, zlib: bool, s: Settings, lets: bool)
    requires FlatLink(l, s, lets) && l.ms != [] && HandledAs(l.peer, served, l.ms[0], zlib) && ExactNotices(served) && !(zlib && lets)
    ensures FlatLink(l.(peer := served, ms := l.ms[1..]), s, lets)
  {
    hide FlatLink, ExactNotices, Still, Created, Served, CodecOwn.FairMethod, CodecOwn.CreateMade, IsCreate, Mbus;
    var m := l.ms[0];
    HeadFlat(l, s, lets);
    FlatPeer(l, s, lets);
    var k := l.(ms := l.ms[1..]);
    if m.kind != TYPE_COMMAND {
      StillPeer(l.peer, served);
      PeerFlat(k, served, s, lets);
    } else if IsCreate(m) {
      CreatedPlain(l.peer, served, m, zlib, lets);
      CreatedFlat(k, served, m, zlib, s, lets);
    } else {
      ServedPeer(l.peer, served, m);
      NotCreateMade(m);
      LaterPeerFlat(k, served, s, lets);
    }
  }

  lemma StillPeer(c: B.Client, d: B.Client)
    requires Still(c, d, true)
    ensures d.compression == c.compression && d.out == c.out && (c.waits == [] ==> d.waits == [] && d.results == c.results)
  {
    hide Drains;
    if c.waits == [] { DrainsNothing(c, d); }
  }

  lemma ServedPeer(c: B.Client, d: B.Client, m: Request)
    requires Served(c, d, m)
    ensures d.compression == c.compression && d.out == c.out
  {
    hide FromWaits;
  }

  lemma NotCreateMade(m: Request)
    requires !IsCreate(m)
    ensures !CodecOwn.CreateMade(m)
  {
  }

  /** A client that waits for no response any more. */
  lemma LaterPeerFlat(l: Link, d: B.Client, s: Settings, lets: bool)
    requires FlatLink(l, s, lets) && d.compression == Uncompressed && d.out == l.peer.out
    requires !(l.alive && s.zlib && l.e.state.Connecting?)
    ensures FlatLink(l.(peer := d), s, lets)
  {
    hide CodecOwn.Level, CodecOwn.FairText, CodecOwn.FairMethod, Loose, ExactSettings, Fresh;
  }

  /** Whatever becomes of a create command that may not bring in zlib. */
  lemma CreatedPlain(c: B.Client, d: B.Client, m: Request, zlib: bool, lets: bool)
    requires Created(c, d, m, zlib) && m.kind == TYPE_COMMAND && IsCreate(m) && CodecOwn.FairMethod(m, lets) && !(zlib && lets)
    requires c.compression == Uncompressed
    ensures d.compression == Uncompressed && d.out == c.out && d.waits == c.waits
  {
    hide Asked, StringAt, LookUp, SetResultPayload, SetResultCode, B.CreatePayload;
    var name: string, ping: B.Ping, admitted: bool :| CreatedAs(c, d, m, zlib, name, ping, admitted);
  }

  /** Its result is tame. */
  lemma CreatedTame(c: B.Client, d: B.Client, m: Request, zlib: bool)
    requires Created(c, d, m, zlib) && CodecOwn.CreateMade(m) && c.compression == Uncompressed && d.compression == Uncompressed
    ensures |d.results| == |c.results| + 1 && d.results[..|c.results|] == c.results
    ensures CodecOwn.Tame(Print(ResultJson(d.results[|c.results|]), 0, false))
  {
    hide Asked, StringAt, LookUp, B.CreatePayload, SetResultPayload, SetResultCode, Print, Parse, Exact, NulFree, InitialResult, Mbus, B.Negotiate;
    var name: string, ping: B.Ping, admitted: bool :| CreatedAs(c, d, m, zlib, name, ping, admitted);
    if admitted {
      AskedExact(m, name, ping);
      ExactPayload(name, Uncompressed, ping);
      AdmittedResult(m, B.CreatePayload(name, Uncompressed, ping));
      PayloadFields(name, Uncompressed, ping);
      assert "none" != "zlib" by { assert "none"[0] != "zlib"[0]; }
      ResultTame(m.sequence, B.CreatePayload(name, Uncompressed, ping), 0);
    } else {
      RefusedResult(m);
      NoCompression();
      assert Exact(Object([])) by { ExactObject([]); }
      ResultTame(m.sequence, Object([]), -1);
    }
  }

  lemma NoCompression()
    ensures StringAt(Some(Object([])), "compression") == None
  {
    hide LookUp, FindMember;
    CodecOwn.SettingsPlain();
    Field([], "compression");
    FindOne(Member("", Null), "compression");
  }

  lemma ResultTame(sequence: int, payload: Json, status: int)
    requires IsInt32(sequence) && IsInt32(status) && Exact(payload) && StringAt(Some(payload), "compression") != Some("zlib")
    ensures CodecOwn.Tame(Print(ResultOf(sequence, payload, status), 0, false))
  {
    hide StringAt, LookUp, Print, Parse, Exact, ResultOf, Mbus;
    ExactResultOf(sequence, payload, status);
    TreeRoundTrip(ResultOf(sequence, payload, status), false);
    ResultFields(sequence, payload, status);
  }

  lemma CreatedFlat(l: Link, d: B.Client, m: Request, zlib: bool, s: Settings, lets: bool)
    requires FlatLink(l, s, lets) && Created(l.peer, d, m, zlib) && d.compression == Uncompressed && ExactNotices(d)
    requires l.peer.compression == Uncompressed && d.out == l.peer.out && d.waits == l.peer.waits
    requires l.alive && s.zlib && l.e.state.Connecting? ==> CodecOwn.CreateMade(m)
    ensures FlatLink(l.(peer := d), s, lets)
  {
    hide CodecOwn.Level, CodecOwn.FairText, CodecOwn.FairMethod, CodecOwn.Tame, Loose, CodecOwn.CreateMade, ExactSettings, ExactNotices, Created;
    if l.alive && s.zlib && l.e.state.Connecting? {
      CreatedTame(l.peer, d, m, zlib);
      forall k | 0 <= k < |d.results| ensures CodecOwn.Tame(Print(ResultJson(d.results[k]), 0, false)) {
        assert k < |l.peer.results| ==> d.results[k] == d.results[..|l.peer.results|][k];
      }
    }
  }

  lemma NoticeTame(n: Notice)
    requires PlainNotice(n)
    ensures CodecOwn.Tame(Print(NoticeJson(n), 0, false))
  {
    hide Print, Parse, Exact, LookUp, Mbus;
    TreeRoundTrip(NoticeJson(n), false);
    NoticeType(n);
    TypesDiffer();
  }

  lemma NoticeType(n: Notice)
    ensures StringAt(Some(NoticeJson(n)), TAG_TYPE) == Some(n.kind)
  {
    hide LookUp, Mbus;
    TagsPlain();
    Field(NoticeJson(n).members, TAG_TYPE);
  }

  lemma TypesDiffer()
    ensures TYPE_RESULT !in {TYPE_EVENT, TYPE_COMMAND}
  {
    assert TYPE_RESULT[21] == 'r' && TYPE_EVENT[21] == 'e' && TYPE_COMMAND[21] == 'c';
  }

  lemma EmitsFlat(l: Link, s: Settings, lets: bool)
    requires FlatLink(l, s, lets)
    ensures FlatLink(l.(peer := B.EmitOne(l.peer)), s, lets)
  {
    hide FlatLink, Fresh, B.EmitOne, Uses;
    FlatPeer(l, s, lets);
    EmitPlain(l.peer);
    var d := l.(peer := B.EmitOne(l.peer));
    UsesWhat(l, s, lets);
    if l.alive && s.zlib && l.e.state.Connecting? {
      EmitFresh(l);
      PeerUses(l, B.EmitOne(l.peer), s, lets);
    } else {
      PeerUses(l, B.EmitOne(l.peer), s, lets);
    }
    PeerPlain(l, B.EmitOne(l.peer), s, lets);
  }

  lemma UsesWhat(l: Link, s: Settings, lets: bool)
    requires FlatLink(l, s, lets)
    ensures l.alive && s.zlib && l.e.state.Connecting? ==> Fresh(l)
  {
    hide Fresh, CodecOwn.Level, Loose, ExactSettings;
  }

  lemma PeerUses(l: Link, d: B.Client, s: Settings, lets: bool)
    requires FlatLink(l, s, lets) && (l.alive && s.zlib && l.e.state.Connecting? ==> Fresh(l.(peer := d)))
    ensures Uses(l.(peer := d), s, lets)
  {
    hide Fresh, CodecOwn.Level, Loose, ExactSettings;
  }

  lemma PeerPlain(l: Link, d: B.Client, s: Settings, lets: bool)
    requires FlatLink(l, s, lets) && d.compression == Uncompressed && AllWith(d.out, Uncompressed) && Uses(l.(peer := d), s, lets)
    ensures FlatLink(l.(peer := d), s, lets)
  {
    hide Uses, CodecOwn.FairText, CodecOwn.FairMethod, ExactSettings;
  }

  lemma EmitPlain(c: B.Client)
    requires c.compression == Uncompressed && AllWith(c.out, Uncompressed)
    ensures B.EmitOne(c).compression == Uncompressed && AllWith(B.EmitOne(c).out, Uncompressed)
  {
    hide Print, Mbus, ResultJson, NoticeJson;
  }

  lemma EmitFresh(l: Link)
    requires Fresh(l)
    ensures Fresh(l.(peer := B.EmitOne(l.peer)))
  {
    hide CodecOwn.Tame, CodecOwn.CreateMade, Print, Mbus, ResultJson, NoticeJson, B.ResultCompression, PlainNotice;
    var c := l.peer;
    if c.results == [] && c.requests != [] { NoticeTame(c.requests[0]); }
    if c.results == [] && c.requests == [] && c.events != [] { NoticeTame(c.events[0]); }
  }

  lemma DecodesFlat(l: Link, now: int, draw: string, s: Settings, lets: bool)
    requires FlatLink(l, s, lets) && l.taken < |l.up| && NulFree(draw)
    ensures Agrees(l, BrokerDecodes(now, draw)) && FlatLink(Next(l, BrokerDecodes(now, draw)), s, lets)
  {
    hide PlainLink, Uses, ExactSettings, CreateRequest, NulFree, CodecOwn.FairMethod, Fresh;
    var d := Next(l, BrokerDecodes(now, draw));
    var more := DecodedShape(l, now, draw);
    UpFair(l, s, lets);
    FairDecoded(l.up[l.taken].text, lets, l.peer.handle, now, draw);
    FlatPeer(l, s, lets);
    UsesWhat(l, s, lets);
    if l.alive && s.zlib && l.e.state.Connecting? {
      UpCreates(l, s, lets);
      CreateTextMade(l.up[l.taken].text, l.peer.handle, now, draw);
      FreshDecodes(l, more[0], d);
    }
    PlainDecodes(l, s, lets, d, more);
    UsesDecodes(l, s, lets, d);
  }

  lemma UpFair(l: Link, s: Settings, lets: bool)
    requires FlatLink(l, s, lets) && l.taken < |l.up|
    ensures CodecOwn.FairText(l.up[l.taken].text, lets)
  {
    hide Uses, ExactSettings, CodecOwn.FairText;
  }

  lemma UpCreates(l: Link, s: Settings, lets: bool)
    requires FlatLink(l, s, lets) && l.taken < |l.up| && l.alive && l.e.state.Connecting?
    ensures CodecOwn.CreateText(l.up[l.taken].text)
  {
    hide PlainLink, ExactSettings, Fresh, Loose, CodecOwn.Level, CodecOwn.CreateText;
    WrittenCreates(l.e, s, lets, l.taken);
  }

  lemma PlainDecodes(l: Link, s: Settings, lets: bool, d: Link, more: seq<Request>)
    requires FlatLink(l, s, lets) && d == l.(peer := d.peer, ms := l.ms + more, taken := d.taken)
    requires d.peer.compression == l.peer.compression && d.peer.out == l.peer.out && |more| <= 1
    requires more != [] ==> CodecOwn.FairMethod(more[0], lets)
    ensures PlainLink(d, s, lets)
  {
    hide Uses, ExactSettings, CodecOwn.FairText, CodecOwn.FairMethod;
  }

  lemma UsesDecodes(l: Link, s: Settings, lets: bool, d: Link)
    requires FlatLink(l, s, lets) && d == l.(peer := d.peer, ms := d.ms, taken := d.taken)
    requires l.alive && s.zlib && l.e.state.Connecting? ==> Fresh(d)
    ensures Uses(d, s, lets) && ExactSettings(s) && (s.zlib ==> lets)
  {
    hide PlainLink, ExactSettings, Fresh, Loose, CodecOwn.Level;
  }

  lemma FairDecoded(text: string, lets: bool, source: nat, now: int, draw: string)
    requires CodecOwn.FairText(text, lets)
    ensures var m := CreateRequest(source, text, now, draw); m.Some? ==> CodecOwn.FairMethod(m.value, lets)
  {
    hide CreateRequest, CodecOwn.FairMethod;
  }

  lemma FreshDecodes(l: Link, m: Request, d: Link)
    requires Fresh(l) && CodecOwn.CreateMade(m) && d.ms == l.ms + [m]
    requires d.peer == l.peer.(log := d.peer.log, open := d.peer.open, closeCode := d.peer.closeCode)
    ensures Fresh(d)
  {
    hide CodecOwn.Tame, CodecOwn.CreateMade, ExactNotices, Print;
    SameNotices(l.peer, d.peer);
  }

  lemma SameNotices(c: B.Client, d: B.Client)
    requires d.events == c.events && d.requests == c.requests
    ensures ExactNotices(d) == ExactNotices(c)
  {
  }

  lemma WrittenCreates(e: Engine, s: Settings, lets: bool, k: nat)
    requires CodecOwn.Level(e, s, lets) && e.socket && e.state.Connecting? && k < |e.outgoing|
    ensures CodecOwn.CreateText(e.outgoing[k].text)
  {
    hide CodecOwn.FairText, CodecOwn.FairItem, CodecOwn.CreateText;
    assert CodecOwn.Written(e.outgoing[k], lets, e.state.Connecting?);
  }

  lemma CreateTextMade(text: string, source: nat, now: int, draw: string)
    requires CodecOwn.CreateText(text) && NulFree(draw)
    ensures var m := CreateRequest(source, text, now, draw); m.Some? && CodecOwn.CreateMade(m.value) && m.value.kind == TYPE_COMMAND
  {
    hide CreateRequest, NulFree, Exact, InitialResult, Mbus;
  }

  // ----- operations of the client -----

  /** The client lost its connection, or all is as before. */
  ghost predicate Goes(e: Engine, d: Engine, s: Settings, lets: bool) {
    d.socket ==>
      && Loose(d) && CodecOwn.Level(d, s, lets) && !d.state.Disconnected? && (d.state.Connecting? ==> e.state.Connecting?)
  }

  lemma FramesTame(l: Link, frames: seq<Frame>, messages: seq<Incoming>)
    requires Fresh(l) && l.read <= |l.peer.out| && frames == l.peer.out[l.read..] && Follows(messages, frames)
    ensures CodecOwn.AllTame(messages)
  {
    hide CodecOwn.Tame, CodecOwn.CreateMade, ExactNotices;
    forall i | 0 <= i < |messages| ensures CodecOwn.Tame(messages[i].text) {
      assert messages[i].text == l.peer.out[l.read + i].text;
    }
  }

  lemma BeginConnected(e: Engine, attempt: Attempt, now: int)
    requires e.socket && !e.state.Disconnected? && !e.state.Disconnecting?
    ensures Begin(e, attempt, now) == (e, Polls)
  {
    hide RunConnect;
  }

  lemma RunGoes(e: Engine, s: Settings, lets: bool, frames: seq<Frame>, input: Input)
    requires Loose(e) && CodecOwn.Level(e, s, lets) && e.socket && !e.state.Disconnected? && ExactSettings(s) && (s.zlib ==> lets)
    requires ExactMessages(Messages(input.poll)) && Follows(Messages(input.poll), frames) && AllWith(frames, Uncompressed)
    requires s.zlib && e.state.Connecting? ==> CodecOwn.AllTame(Messages(input.poll))
    ensures Goes(e, Run(e, input).0, s, lets)
    ensures DecodeStart(e, input).Some? ==> ReadsWell(DecodeStart(e, input).value, frames, Messages(input.poll), input.now)
  {
    hide Loose, CodecOwn.Level, ExactSettings, ExactMessages, BeforeDecode, ReceiveAll, Finish, Breaks, CodecOwn.AllTame, Begin, ReadsWell;
    LooseNotBroken(e);
    RunBreaks(e, input);
    BeginLoose(e, input.attempt, input.now);
    var (a, h) := Begin(e, input.attempt, input.now);
    CodecOwn.LevelSettings(e, s, lets);
    if e.state.Disconnecting? {
      if !a.broken {
        DisconnectedSettings(e, input.attempt, input.now);
        CodecOwn.LevelDark(a, s, lets);
        CodecOwn.FinishLevel(a, s, lets, input.now);
      }
    } else {
      BeginConnected(e, input.attempt, input.now);
      ServeGoes(e, s, lets, frames, input);
    }
  }

  lemma DisconnectedSettings(e: Engine, attempt: Attempt, now: int)
    requires !e.broken && e.state.Disconnecting?
    ensures Begin(e, attempt, now).0.settings == e.settings
  {
    hide Reset, Trailed, NoCreates, Fallow;
    LooseReset(e);
  }

  lemma ServeGoes(e: Engine, s: Settings, lets: bool, frames: seq<Frame>, input: Input)
    requires Loose(e) && CodecOwn.Level(e, s, lets) && e.socket && !e.state.Disconnected? && !e.state.Disconnecting? && ExactSettings(s)
    requires (s.zlib ==> lets) && Begin(e, input.attempt, input.now) == (e, Polls)
    requires ExactMessages(Messages(input.poll)) && Follows(Messages(input.poll), frames) && AllWith(frames, Uncompressed)
    requires s.zlib && e.state.Connecting? ==> CodecOwn.AllTame(Messages(input.poll))
    requires !Run(e, input).0.broken ==> Loose(Run(e, input).0)
    requires Run(e, input).0.broken ==> !Run(e, input).0.socket
    ensures Goes(e, Run(e, input).0, s, lets)
    ensures DecodeStart(e, input).Some? ==> ReadsWell(DecodeStart(e, input).value, frames, Messages(input.poll), input.now)
  {
    hide Loose, CodecOwn.Level, ExactSettings, ExactMessages, BeforeDecode, ReceiveAll, Finish, CodecOwn.AllTame, Begin, ReadsWell, Trailed;
    LooseNotBroken(e);
    BeforeDecodeLoose(e, input.poll, input.now);
    CodecOwn.BeforeDecodeLevel(e, s, lets, input.poll, input.now);
    var (b, i) := BeforeDecode(e, input.poll, input.now);
    if !b.broken && i.Polls? {
      if b.socket {
        CodecOwn.ReceiveAllLevel(b, s, lets, frames, Messages(input.poll), input.now);
      } else {
        DarkReads(b, frames, Messages(input.poll), input.now);
      }
      ReceiveAllLoose(b, Messages(input.poll), input.now);
      var (f, ok) := ReceiveAll(b, Messages(input.poll), input.now);
      LooseNotBroken(f);
      CodecOwn.FinishLevel(f, s, lets, input.now);
    } else if !b.broken {
      CodecOwn.FinishLevel(b, s, lets, input.now);
    }
  }

  lemma DarkReads(e: Engine, frames: seq<Frame>, messages: seq<Incoming>, now: int)
    requires !e.socket && |messages| <= |frames|
    ensures ReceiveAll(e, messages, now) == (e, true) && ReadsWell(e, frames, messages, now)
  {
  }

  lemma ApplyGoes(e: Engine, s: Settings, offers: bool, frames: seq<Frame>, o: Operation)
    requires Loose(e) && CodecOwn.Level(e, s, s.zlib || offers) && e.socket && !e.state.Disconnected? && ExactSettings(s)
    requires FreeOperation(e, o, offers)
    requires o.Turn? ==> Follows(Messages(o.input.poll), frames) && AllWith(frames, Uncompressed)
    requires o.Turn? && s.zlib && e.state.Connecting? ==> CodecOwn.AllTame(Messages(o.input.poll))
    ensures Goes(e, Apply(e, o), s, s.zlib || offers)
    ensures o.Turn? && DecodeStart(e, o.input).Some? ==>
      ReadsWell(DecodeStart(e, o.input).value, frames, Messages(o.input.poll), o.input.now)
  {
    hide Loose, CodecOwn.Level, ExactSettings, ExactMessages, Run, Command, Publish, DecodeStart, ReadsWell, CodecOwn.AllTame, NulFree, Exact,
         CodecOwn.Offering, Breaks;
    var lets := s.zlib || offers;
    ApplyLoose(e, o);
    LooseNotBroken(e);
    match o
    case Connect =>
    case Disconnect => CodecOwn.LevelSame(e, e.(state := Disconnecting), s, lets);
    case Issue(handler, destination, command, payload, timeout, now) =>
      CodecOwn.CommandLevel(e, s, lets, handler, destination, command, payload, timeout, now);
    case Emit(to, event, data, qos, limit, at) =>
      CodecOwn.PublishLevel(e, s, lets, to, event, data, qos, limit, at);
    case Turn(input) => RunGoes(e, s, lets, frames, input);
  }

  lemma OperatesFlat(l: Link, o: Operation, s: Settings, offers: bool)
    requires FlatLink(l, s, s.zlib || offers) && FreeMay(l, ClientOperates(o), false, offers)
    ensures Agrees(l, ClientOperates(o)) && FlatLink(Next(l, ClientOperates(o)), s, s.zlib || offers)
  {
    hide CodecOwn.Level, Loose, ExactSettings, Fresh, Apply, Decoded, DecodeStart, ReadsWell, FreeOperation, CodecOwn.FairText, CodecOwn.FairMethod,
         CodecOwn.AllTame;
    var frames := l.peer.out[l.read..];
    assert AllWith(frames, Uncompressed);
    if o.Turn? && s.zlib && l.e.state.Connecting? {
      FramesTame(l, frames, Messages(o.input.poll));
    }
    ApplyGoes(l.e, s, offers, frames, o);
    var d := Apply(l.e, o);
    if d.socket {
      LevelFrames(d, s, s.zlib || offers);
      if d.state.Connecting? && s.zlib {
        SameFresh(l, Next(l, ClientOperates(o)));
      }
    }
  }

  lemma SameFresh(l: Link, k: Link)
    requires Fresh(l) && k.peer == l.peer && k.ms == l.ms
    ensures Fresh(k)
  {
    hide CodecOwn.Tame, CodecOwn.CreateMade, ExactNotices;
  }

  // ----- agreement -----

  lemma MoveFlat(l: Link, move: Move, zlib: bool, offers: bool, s: Settings)
    requires FlatLink(l, s, s.zlib || offers) && FreeMay(l, move, zlib, offers) && !(zlib && (s.zlib || offers))
    ensures Agrees(l, move) && FlatLink(Next(l, move), s, s.zlib || offers)
  {
    hide FlatLink, Still, HandledAs, FreeOperation, Follows, ReadsWell, DecodeStart, B.EmitOne, Apply, Decoded, ExactNotices, NulFree;
    var lets := s.zlib || offers;
    match move
    case BrokerOther(after) => OtherFlat(l, after, s, lets);
    case BrokerHandles(served) => HandlesFlat(l, served, zlib, s, lets);
    case BrokerEmits => EmitsFlat(l, s, lets);
    case BrokerDecodes(now, draw) => DecodesFlat(l, now, draw, s, lets);
    case BrokerReaps => GoneFlat(l, s, lets);
    case ClientOperates(o) => OperatesFlat(l, o, s, offers);
  }

  lemma GoneFlat(l: Link, s: Settings, lets: bool)
    requires FlatLink(l, s, lets)
    ensures FlatLink(l.(present := false), s, lets)
  {
    hide CodecOwn.Level, CodecOwn.FairText, CodecOwn.FairMethod, CodecOwn.Tame, Loose, CodecOwn.CreateMade, ExactSettings, ExactNotices;
  }

  lemma FreeFits(l: Link, move: Move, zlib: bool, offers: bool)
    requires FreeMay(l, move, zlib, offers)
    ensures (move.BrokerHandles? ==> l.ms != []) && (move.BrokerDecodes? ==> l.taken < |l.up|)
  {
    hide FreeOperation, Still, HandledAs;
  }

  lemma {:induction false} RunFlat(l: Link, moves: seq<Move>, zlib: bool, offers: bool, s: Settings)
    requires FlatLink(l, s, s.zlib || offers) && FreeRuns(l, moves, zlib, offers) && !(zlib && (s.zlib || offers))
    ensures FreeAgree(l, moves, zlib, offers)
    decreases |moves|
  {
    hide FlatLink, FreeMay, Agrees;
    if moves != [] {
      FreeFits(l, moves[0], zlib, offers);
      MoveFlat(l, moves[0], zlib, offers, s);
      RunFlat(Next(l, moves[0]), moves[1..], zlib, offers, s);
    }
  }

  // ----- runs that go wrong -----

  ghost predicate CanDisagree(l: Link, zlib: bool, offers: bool) {
    exists moves: seq<Move> :: FreeRuns(l, moves, zlib, offers) && !FreeAgree(l, moves, zlib, offers)
  }

  lemma Disagrees(l: Link, move: Move, zlib: bool, offers: bool)
    requires FreeMay(l, move, zlib, offers) && !Agrees(l, move)
    ensures CanDisagree(l, zlib, offers)
  {
    hide FreeMay, Agrees, Next;
    FreeFits(l, move, zlib, offers);
    assert [move][1..] == [];
    assert FreeRuns(Next(l, move), [], zlib, offers);
    assert FreeRuns(l, [move], zlib, offers) && !FreeAgree(l, [move], zlib, offers);
  }

  lemma Backwards(l: Link, move: Move, k: Link, zlib: bool, offers: bool)
    requires FreeMay(l, move, zlib, offers)
    requires (move.BrokerHandles? ==> l.ms != []) && (move.BrokerDecodes? ==> l.taken < |l.up|) && Next(l, move) == k
    requires CanDisagree(k, zlib, offers)
    ensures CanDisagree(l, zlib, offers)
  {
    hide FreeMay, Agrees, Next;
    var moves :| FreeRuns(k, moves, zlib, offers) && !FreeAgree(k, moves, zlib, offers);
    var more := [move] + moves;
    assert more[0] == move && more[1..] == moves;
    assert FreeRuns(l, more, zlib, offers) && !FreeAgree(l, more, zlib, offers);
  }

  /** A broker that has zlib, with this client and no other. */
  function Solo(c: B.Client): B.Server {
    B.Server([c], [], true, false, None, true, 1, [])
  }

  /** A create command that offers zlib, of a client without a name, brings it in. */
  lemma CreateAdmitted(c: B.Client, m: Request)
    requires c.handle == 0 && c.identifier.None? && m.source == 0
    requires m.kind == TYPE_COMMAND && IsCreate(m) && CodecOwn.Offering(m.payload)
    ensures
      var ds := B.HandleMethod(Solo(c), m).clients;
      && |ds| == 1 && ds[0].compression == Zlib && ds[0].events == c.events && ds[0].requests == c.requests
      && ds[0].handle == 0 && ds[0].identifier.Some? && ds[0].open == c.open && ds[0].out == c.out && |ds[0].results| == |c.results| + 1
      && HandledAs(c, ds[0], m, true)
  {
    hide B.Create, StringAt, LookUp, SetResultPayload, B.CreatePayload, B.PingSettings, Mbus, B.HandleMethod, B.Filed, HandledAs, IsCreate,
         CodecOwn.Offering, SetResultCode;
    var s := Solo(c);
    AloneLocates(c);
    CreateDispatch(s, 0, m);
    AdmittedOutcome(c, m);
    var o := B.Create(s, 0, m);
    FiledAlone(o, m, c);
    MethodMoves(s, m, 0, 0);
  }

  lemma AloneLocates(c: B.Client)
    requires c.handle == 0
    ensures B.Locate(Solo(c).clients, 0) == Some(0)
  {
  }

  lemma AdmittedOutcome(c: B.Client, m: Request)
    requires c.identifier.None? && CodecOwn.Offering(m.payload)
    ensures
      var o := B.Create(Solo(c), 0, m);
      && o.rc == 0 && !o.server.crashed && |o.server.clients| == 1
      && var d := o.server.clients[0];
         d.handle == c.handle && d.compression == Zlib && d.events == c.events && d.requests == c.requests
         && d.identifier.Some? && d.open == c.open && d.out == c.out && d.results == c.results
  {
    hide StringAt, LookUp, SetResultPayload, B.CreatePayload, B.PingSettings, Mbus, B.Offers;
  }

  lemma FiledAlone(o: B.Outcome, m: Request, c: B.Client)
    requires !o.server.crashed && |o.server.clients| == 1 && o.server.clients[0].handle == 0 && m.source == 0 && IsCreate(m)
    ensures
      var t := B.Filed(o, m);
      && !t.crashed && |t.clients| == 1 && t.clients[0].compression == o.server.clients[0].compression
      && t.clients[0] == o.server.clients[0].(results := o.server.clients[0].results + [SetResultCode(o.request, o.rc)])
  {
    hide SetResultCode, Mbus;
    assert B.Locate(o.server.clients, m.source) == Some(0);
  }

  /** Two frames are written uncompressed, and the first is a create command that offers zlib. The broker
      decodes and handles it, and then decodes the second with zlib. */
  lemma TwoCreatesDisagree(l: Link, q: Item, offers: bool)
    requires l.present && l.peer == B.NewClient(0) && l.ms == [] && l.taken == 0
    requires |l.up| == 2 && l.up[0].text == RequestText(q) && l.up[1].compression == Uncompressed
    requires ExactItem(q) && CodecOwn.CreateItem(q) && CodecOwn.Offering(q.payload)
    ensures CanDisagree(l, true, offers)
  {
    hide CanDisagree, RequestText, ExactItem, CodecOwn.Offering, Mbus, HandledAs, InitialResult, B.HandleMethod, CreateRequest;
    RequestArrives(q, 0, 0, "");
    var m := CreateRequest(0, RequestText(q), 0, "").value;
    var c := l.peer.(log := l.peer.log + [m]);
    var decoded := Next(l, BrokerDecodes(0, ""));
    assert decoded == l.(peer := c, ms := [m], taken := 1);
    CreateAdmitted(c, m);
    var served := B.HandleMethod(Solo(c), m).clients[0];
    var handled := Next(decoded, BrokerHandles(served));
    assert handled.peer == served && handled.taken == 1;
    Disagrees(handled, BrokerDecodes(0, ""), true, offers);
    Backwards(decoded, BrokerHandles(served), handled, true, offers);
    Backwards(l, BrokerDecodes(0, ""), decoded, true, offers);
  }

  // ----- when the client has zlib -----

  /** The connection after the first run of the client. */
  function FirstLink(s: Settings): Link {
    Link(true, B.NewClient(0), [], 0, Begun(s).outgoing, true, Begun(s), 0)
  }

  lemma OwnRequestIs(s: Settings)
    requires ExactSettings(s) && s.commandTimeout > 0
    ensures OwnCreate(OwnRequest(s), s)
  {
    hide NulFree, Exact, CreateData, Mbus;
    ExactCreateData(s);
    NamesNulFree();
    CreateNulFree();
  }

  lemma FirstSound(s: Settings)
    requires s.commandTimeout > 0
    ensures Sound(Begun(s))
  {
    hide Sound, Apply, Begun;
    StartSound(s);
    ApplySound(ClientState.Start(s), Connect);
    ApplySound(Apply(ClientState.Start(s), Connect), Turn(QuietInput(FirstTime(s))));
    FirstRun(s);
  }

  lemma FirstStarts(s: Settings)
    requires ExactSettings(s) && s.commandTimeout > 0
    ensures LinkStart(FirstLink(s), s)
  {
    hide Sound, ExactSettings, OwnCreate, RequestText, OwnRequest;
    FirstSound(s);
    OwnRequestIs(s);
    assert Asking(Begun(s), s, OwnRequest(s));
  }

  lemma NothingDecoded(e: Engine, o: Operation)
    requires o.Turn? ==> Messages(o.input.poll) == []
    ensures Decoded(e, o) == 0
  {
    hide DecodeStart;
  }

  /** A client's move in which nothing is read. */
  lemma ClientMove(l: Link, o: Operation, e: Engine, zlib: bool, offers: bool)
    requires l.alive && l.read == 0 && FreeOperation(l.e, o, offers) && Apply(l.e, o) == e && e.socket
    requires o.Turn? ==> Messages(o.input.poll) == []
    requires CanDisagree(l.(e := e, up := e.outgoing), zlib, offers)
    ensures CanDisagree(l, zlib, offers)
  {
    hide CanDisagree, FreeOperation, Apply, Decoded;
    NothingDecoded(l.e, o);
    Backwards(l, ClientOperates(o), l.(e := e, up := e.outgoing), zlib, offers);
  }

  lemma CreateIssueFree(e: Engine, payload: Option<Json>, now: int, offers: bool)
    requires payload.Some? ==> Exact(payload.value) && (CodecOwn.Offering(payload.value) ==> offers)
    ensures FreeOperation(e, CreateIssue(payload, now), offers)
  {
    hide NulFree, Exact, CodecOwn.Offering, Mbus;
    NamesNulFree();
    CreateNulFree();
  }

  lemma TurnFree(e: Engine, input: Input, offers: bool)
    requires Messages(input.poll) == []
    ensures FreeOperation(e, Turn(input), offers)
  {
  }

  lemma ZlibDisagrees(s: Settings, offers: bool)
    requires ExactSettings(s) && s.commandTimeout > 0 && s.zlib
    ensures CanDisagree(FirstLink(s), true, offers)
  {
    hide CanDisagree, FreeOperation, Apply, RequestText, ExactItem, CreateData, CodecOwn.Offering, ExactSettings, Mbus;
    var l, now := FirstLink(s), FirstTime(s);
    var d := Apply(Begun(s), CreateIssue(None, now));
    var e := WithCreate(s);
    OwnRequestIs(s);
    WrittenTwice(s);
    CreateIssued(Begun(s), None, now);
    OffersZlib(s);
    TwoCreatesDisagree(l.(e := e, up := e.outgoing), OwnRequest(s), offers);
    TurnFree(d, QuietInput(now), offers);
    ClientMove(l.(e := d, up := d.outgoing), Turn(QuietInput(now)), e, true, offers);
    CreateIssueFree(Begun(s), None, now, offers);
    ClientMove(l, CreateIssue(None, now), d, true, offers);
  }

  lemma OffersZlib(s: Settings)
    requires s.zlib
    ensures CodecOwn.Offering(CreateData(s))
  {
    hide LookUp, CreateData;
    NegotiatedKnown(s, true);
  }

  // ----- the same, seen by the client -----

  function FreeAfter(l: Link, moves: seq<Move>, zlib: bool, offers: bool): Link
    requires FreeRuns(l, moves, zlib, offers)
    decreases |moves|
  {
    if moves == [] then l else FreeAfter(Next(l, moves[0]), moves[1..], zlib, offers)
  }

  /** A run after which the client can decode a frame with another compression than it has. */
  ghost predicate CanMisread(l: Link, zlib: bool, offers: bool) {
    exists moves: seq<Move>, input: Input ::
      FreeRuns(l, moves, zlib, offers) && MisreadAt(FreeAfter(l, moves, zlib, offers), input, zlib, offers)
  }

  ghost predicate MisreadAt(l: Link, input: Input, zlib: bool, offers: bool) {
    FreeMay(l, ClientOperates(Turn(input)), zlib, offers) && !Agrees(l, ClientOperates(Turn(input)))
  }

  lemma MisreadBackwards(l: Link, move: Move, k: Link, zlib: bool, offers: bool)
    requires FreeMay(l, move, zlib, offers)
    requires (move.BrokerHandles? ==> l.ms != []) && (move.BrokerDecodes? ==> l.taken < |l.up|) && Next(l, move) == k
    requires CanMisread(k, zlib, offers)
    ensures CanMisread(l, zlib, offers)
  {
    hide FreeMay, MisreadAt, Next;
    var moves: seq<Move>, input: Input :|
      FreeRuns(k, moves, zlib, offers) && MisreadAt(FreeAfter(k, moves, zlib, offers), input, zlib, offers);
    var more := [move] + moves;
    assert more[0] == move && more[1..] == moves;
    assert FreeRuns(l, more, zlib, offers) && FreeAfter(l, more, zlib, offers) == FreeAfter(k, moves, zlib, offers);
  }

  lemma ClientMisreads(l: Link, o: Operation, e: Engine, zlib: bool, offers: bool)
    requires l.alive && l.read == 0 && FreeOperation(l.e, o, offers) && Apply(l.e, o) == e && e.socket
    requires o.Turn? ==> Messages(o.input.poll) == []
    requires CanMisread(l.(e := e, up := e.outgoing), zlib, offers)
    ensures CanMisread(l, zlib, offers)
  {
    hide CanMisread, FreeOperation, Apply, Decoded;
    NothingDecoded(l.e, o);
    MisreadBackwards(l, ClientOperates(o), l.(e := e, up := e.outgoing), zlib, offers);
  }

  /** A client with a name is refused, and its compression stays. */
  lemma CreateRefused(c: B.Client, m: Request)
    requires c.handle == 0 && c.identifier.Some? && m.source == 0 && m.kind == TYPE_COMMAND && IsCreate(m)
    ensures
      var ds := B.HandleMethod(Solo(c), m).clients;
      |ds| == 1 && ds[0] == c.(results := c.results + [SetResultCode(m, -1)]) && HandledAs(c, ds[0], m, true)
  {
    hide StringAt, LookUp, SetResultPayload, Mbus, B.HandleMethod, B.Filed, HandledAs, IsCreate, SetResultCode;
    var s := Solo(c);
    AloneLocates(c);
    CreateDispatch(s, 0, m);
    assert B.Create(s, 0, m) == B.Outcome(s, -1, m);
    FiledAlone(B.Create(s, 0, m), m, c);
    MethodMoves(s, m, 0, 0);
  }

  /** The text in which the broker admits a client with zlib. */
  ghost predicate Admits(text: string, q: Item) {
    exists name: string, ping: B.Ping :: Parse(text) == Some(ResultOf(q.sequence, B.CreatePayload(name, Zlib, ping), 0))
  }

  lemma AdmittedText(c: B.Client, d: B.Client, m: Request, q: Item, s: Settings)
    requires Created(c, d, m, true) && CreateMethod(m, q, s) && OwnCreate(q, s) && ExactSettings(s)
    requires c.compression == Uncompressed && d.compression == Zlib
    ensures |d.results| == |c.results| + 1
    ensures IsCreate(d.results[|c.results|]) && Admits(Print(ResultJson(d.results[|c.results|]), 0, false), q)
    ensures NulFree(Print(ResultJson(d.results[|c.results|]), 0, false))
  {
    hide StringAt, LookUp, Exact, NulFree, Print, Parse, B.Negotiate, B.CreatePayload, CreateData, InitialResult, ExactSettings, Mbus,
         BrokerLink.Asked, SetResultPayload;
    var name: string, ping: B.Ping, admitted: bool :| CreatedAs(c, d, m, true, name, ping, admitted);
    ExactCreateData(s);
    AskedExact(m, name, ping);
    ExactPayload(name, Zlib, ping);
    var payload := B.CreatePayload(name, Zlib, ping);
    AdmittedResult(m, payload);
    ExactResultOf(q.sequence, payload, 0);
    TreeRoundTrip(ResultOf(q.sequence, payload, 0), false);
    PrintNulFree(ResultOf(q.sequence, payload, 0), 0, false);
    KeptByPayload(m, payload);
  }

  lemma RefusedNulFree(m: Request)
    requires IsInt32(m.sequence) && m.result == InitialResult(m.sequence)
    ensures NulFree(Print(ResultJson(SetResultCode(m, -1)), 0, false))
  {
    hide NulFree, Print, Exact, InitialResult, Mbus;
    RefusedResult(m);
    assert Exact(Object([])) by { ExactObject([]); }
    ExactResultOf(m.sequence, Object([]), -1);
    PrintNulFree(ResultOf(m.sequence, Object([]), -1), 0, false);
  }

  /** Reading it, the client switches to zlib, whatever else it waits for. */
  lemma AdmissionRead(e: Engine, s: Settings, q: Item, m: Incoming, now: int)
    requires e.settings == s && s.zlib && e.socket && e.pendings != [] && e.pendings[0] == q && OwnCreate(q, s) && Admits(m.text, q)
    ensures var (d, ok) := Receive(e, m, now); ok && d.socket && d.compression == Zlib
  {
    hide OwnCreate, Parse, StringAt, IntAt, LookUp, Mbus, CreateAnswered, CallbackOf, ResultOf, Completed, B.CreatePayload;
    var name: string, ping: B.Ping :| Parse(m.text) == Some(ResultOf(q.sequence, B.CreatePayload(name, Zlib, ping), 0));
    var payload := B.CreatePayload(name, Zlib, ping);
    var json := ResultOf(q.sequence, payload, 0);
    ResultFields(q.sequence, payload, 0);
    PayloadFields(name, Zlib, ping);
    OwnCreateIs(q, s);
    assert FindPending(e.pendings, q.sequence) == Some(0);
    var c := e.(pendings := e.pendings[..0] + e.pendings[1..]);
    CompletedKeeps(c, q, Answered(json));
    assert Receive(e, m, now) == (CreateAnswered(Completed(c, q, Answered(json)), json), true);
    AnsweredZlib(Completed(c, q, Answered(json)), json, payload);
  }

  lemma AnsweredZlib(e: Engine, json: Json, payload: Json)
    requires e.settings.zlib && e.socket && LookUp(Some(json), TAG_PAYLOAD) == Some(payload) && IntAt(Some(json), TAG_STATUS, -1) == 0
    requires StringAt(Some(payload), "identifier").Some? && StringAt(Some(payload), "compression") == Some(CompressionName(Zlib))
    ensures CreateAnswered(e, json).socket && CreateAnswered(e, json).compression == Zlib
  {
    hide StringAt, IntAt, LookUp, Mbus, CreateFailed;
    NamesRead(Zlib, true);
  }

  /** Two results of create commands are written one after the other, both uncompressed. */
  lemma TwoEmitted(c: B.Client)
    requires c.open && c.out == [] && |c.results| == 2 && IsCreate(c.results[0]) && IsCreate(c.results[1])
    ensures B.EmitOne(B.EmitOne(c)).out
         == [Frame(Uncompressed, Print(ResultJson(c.results[0]), 0, false)), Frame(Uncompressed, Print(ResultJson(c.results[1]), 0, false))]
  {
    hide Print, ResultJson, Mbus;
    assert c.results[1..] == [c.results[1]];
  }

  /** The broker has answered both create requests before the client reads anything. */
  lemma ReadsTwo(l: Link, s: Settings, q: Item, offers: bool, now: int)
    requires l.alive && l.read == 0 && l.e.state.Connecting? && l.e.socketConnected && !l.e.broken
    requires l.e.settings == s && s.zlib && l.e.socket && l.e.compression == Uncompressed
    requires l.e.pendings != [] && l.e.pendings[0] == q && OwnCreate(q, s)
    requires |l.peer.out| == 2 && l.peer.out[0].compression == Uncompressed && l.peer.out[1].compression == Uncompressed
    requires Admits(l.peer.out[0].text, q) && NulFree(l.peer.out[0].text) && NulFree(l.peer.out[1].text)
    ensures CanMisread(l, true, offers)
  {
    hide Receive, OwnCreate, Admits, NulFree, Agrees, FreeMay, MisreadAt;
    var none: seq<Move> := [];
    var messages := [Incoming(l.peer.out[0].text, None), Incoming(l.peer.out[1].text, None)];
    var input := Input(now, Established, Ready(false, None, false, messages));
    AdmissionRead(l.e, s, q, messages[0], now);
    MisreadsHere(l, input, offers);
    assert FreeRuns(l, none, true, offers) && FreeAfter(l, none, true, offers) == l;
  }

  lemma MisreadsHere(l: Link, input: Input, offers: bool)
    requires l.alive && l.read == 0 && l.e.state.Connecting? && l.e.socketConnected && !l.e.broken && l.e.socket
    requires l.e.compression == Uncompressed && |l.peer.out| == 2 && l.peer.out[1].compression == Uncompressed
    requires NulFree(l.peer.out[0].text) && NulFree(l.peer.out[1].text)
    requires input.poll == Ready(false, None, false, [Incoming(l.peer.out[0].text, None), Incoming(l.peer.out[1].text, None)])
    requires var (d, ok) := Receive(l.e, input.poll.messages[0], input.now); ok && d.socket && d.compression == Zlib
    ensures MisreadAt(l, input, true, offers)
  {
    hide Receive, NulFree;
    var messages := input.poll.messages;
    assert l.peer.out[l.read..] == l.peer.out;
    assert DecodeStart(l.e, input) == Some(l.e);
    assert !ReadsWell(Receive(l.e, messages[0], input.now).0, l.peer.out[1..], messages[1..], input.now);
  }

  /** The method the broker makes of a create command. */
  function MethodFor(r: Item): Request {
    Request(r.kind, r.destination, r.identifier, r.sequence, r.payload, 0, 0, "", InitialResult(r.sequence))
  }

  /** The broker decodes both create requests and handles both; the second is refused. */
  lemma BothHandled(c: B.Client, q: Item, r: Item, s: Settings) returns (d: B.Client)
    requires c == B.NewClient(0).(log := c.log) && OwnCreate(q, s) && ExactSettings(s) && s.zlib
    requires ExactItem(r) && CodecOwn.CreateItem(r)
    ensures
      var mid := B.HandleMethod(Solo(c), MethodFor(q)).clients;
      && |mid| == 1 && HandledAs(c, mid[0], MethodFor(q), true) && HandledAs(mid[0], d, MethodFor(r), true)
      && mid[0].events == [] && mid[0].requests == [] && d.events == [] && d.requests == []
      && d.open && d.out == [] && |d.results| == 2 && IsCreate(d.results[0]) && IsCreate(d.results[1])
      && Admits(Print(ResultJson(d.results[0]), 0, false), q)
      && NulFree(Print(ResultJson(d.results[0]), 0, false)) && NulFree(Print(ResultJson(d.results[1]), 0, false))
  {
    hide Print, ResultJson, Admits, NulFree, HandledAs, B.HandleMethod, OwnCreate, ExactSettings, ExactItem, InitialResult, Mbus,
         CodecOwn.Offering, CreateData, CreateMethod, Created, SetResultCode;
    MethodsMade(q, s);
    OffersZlib(s);
    CreateAdmitted(c, MethodFor(q));
    var mid := B.HandleMethod(Solo(c), MethodFor(q)).clients[0];
    HandledCreate(c, mid, MethodFor(q));
    AdmittedText(c, mid, MethodFor(q), q, s);
    CreateRefused(mid, MethodFor(r));
    d := B.HandleMethod(Solo(mid), MethodFor(r)).clients[0];
    SequenceInRange(r);
    RefusedNulFree(MethodFor(r));
    CodedCreate(MethodFor(r));
  }

  lemma MethodsMade(q: Item, s: Settings)
    requires OwnCreate(q, s)
    ensures CreateMethod(MethodFor(q), q, s) && IsCreate(MethodFor(q)) && MethodFor(q).kind == TYPE_COMMAND && q.payload == CreateData(s)
  {
    hide ExactItem, CreateData, InitialResult, Mbus;
  }

  lemma HandledCreate(c: B.Client, d: B.Client, m: Request)
    requires HandledAs(c, d, m, true) && m.kind == TYPE_COMMAND && IsCreate(m)
    ensures Created(c, d, m, true)
  {
    hide Created, Still, Served;
  }

  lemma SequenceInRange(r: Item)
    requires ExactItem(r)
    ensures IsInt32(r.sequence)
  {
  }

  lemma CodedCreate(m: Request)
    ensures IsCreate(SetResultCode(m, -1)) == IsCreate(m)
  {
  }

  lemma ItemArrives(l: Link, r: Item, k: nat)
    requires l.taken == k < |l.up| && l.up[k].text == RequestText(r) && l.peer.handle == 0
    requires ExactItem(r) && CodecOwn.CreateItem(r)
    ensures Next(l, BrokerDecodes(0, "")) == l.(peer := l.peer.(log := l.peer.log + [MethodFor(r)]), ms := l.ms + [MethodFor(r)], taken := k + 1)
  {
    hide RequestText, ExactItem, CreateRequest, InitialResult, Mbus;
    RequestArrives(r, 0, 0, "");
  }

  /** Both requests are written; the broker answers both before the client reads. */
  lemma TwoAnswered(l: Link, s: Settings, q: Item, r: Item, offers: bool)
    requires l.present && l.peer == B.NewClient(0) && l.ms == [] && l.taken == 0 && |l.up| == 2
    requires l.up[0].text == RequestText(q) && l.up[1].text == RequestText(r) && ExactItem(r) && CodecOwn.CreateItem(r)
    requires OwnCreate(q, s) && ExactSettings(s) && s.zlib
    requires l.alive && l.read == 0 && l.e.state.Connecting? && l.e.socketConnected && !l.e.broken && l.e.socket
    requires l.e.settings == s && l.e.compression == Uncompressed && l.e.pendings != [] && l.e.pendings[0] == q
    ensures CanMisread(l, true, offers)
  {
    hide CanMisread, RequestText, ExactItem, Mbus, HandledAs, InitialResult, B.HandleMethod, MethodFor, OwnCreate, ExactSettings, Admits,
         NulFree, Print, ResultJson, B.EmitOne, IsCreate, CodecOwn.CreateItem;
    CreateItemOf(q, s);
    ItemArrives(l, q, 0);
    var first := Next(l, BrokerDecodes(0, ""));
    ItemArrives(first, r, 1);
    var both := Next(first, BrokerDecodes(0, ""));
    var d := BothHandled(both.peer, q, r, s);
    var mid := B.HandleMethod(Solo(both.peer), MethodFor(q)).clients[0];
    assert both.ms == [MethodFor(q), MethodFor(r)] && both.ms[1..] == [MethodFor(r)] && [MethodFor(r)][1..] == [];
    var handled := Next(both, BrokerHandles(mid));
    var answered := Next(handled, BrokerHandles(d));
    TwoEmitted(d);
    var emitted := Next(answered, BrokerEmits);
    var sent := Next(emitted, BrokerEmits);
    ReadsTwo(sent, s, q, offers, 0);
    MisreadBackwards(emitted, BrokerEmits, sent, true, offers);
    MisreadBackwards(answered, BrokerEmits, emitted, true, offers);
    MisreadBackwards(handled, BrokerHandles(d), answered, true, offers);
    MisreadBackwards(both, BrokerHandles(mid), handled, true, offers);
    EmptyNulFree();
    MisreadBackwards(first, BrokerDecodes(0, ""), both, true, offers);
    MisreadBackwards(l, BrokerDecodes(0, ""), first, true, offers);
  }

  lemma EmptyNulFree()
    ensures NulFree("")
  {
  }

  lemma CreateItemOf(q: Item, s: Settings)
    requires OwnCreate(q, s)
    ensures ExactItem(q) && CodecOwn.CreateItem(q)
  {
    hide ExactItem, CreateData, Mbus;
  }

  /** If both ends have zlib, the client can come to decode an uncompressed frame with it: the refusal of
      a create command that the application issued. */
  lemma RefusalMisread(s: Settings, offers: bool)
    requires ExactSettings(s) && s.commandTimeout > 0 && s.zlib
    ensures CanMisread(FirstLink(s), true, offers)
  {
    hide CanMisread, FreeOperation, Apply, RequestText, ExactItem, CreateData, ExactSettings, Mbus, OwnCreate;
    var l, now := FirstLink(s), FirstTime(s);
    var d := Apply(Begun(s), CreateIssue(None, now));
    var e := WithCreate(s);
    var r := IssuedRequest(Begun(s), None, now);
    OwnRequestIs(s);
    IssuedExact(s);
    WrittenTwice(s);
    CreateIssued(Begun(s), None, now);
    TwoAnswered(l.(e := e, up := e.outgoing), s, OwnRequest(s), r, offers);
    TurnFree(d, QuietInput(now), offers);
    ClientMisreads(l.(e := d, up := d.outgoing), Turn(QuietInput(now)), e, true, offers);
    CreateIssueFree(Begun(s), None, now, offers);
    ClientMisreads(l, CreateIssue(None, now), d, true, offers);
  }

  lemma IssuedExact(s: Settings)
    requires ExactSettings(s) && s.commandTimeout > 0
    ensures var r := IssuedRequest(Begun(s), None, FirstTime(s)); ExactItem(r) && CodecOwn.CreateItem(r)
  {
    hide NulFree, Mbus;
    assert Exact(Object([])) by { ExactObject([]); }
    NamesNulFree();
    CreateNulFree();
  }

  // ----- when own create commands offer zlib -----

  const OFFER: Json := Object([Member("compressions", Array([String("zlib")]))])

  lemma OfferOffers()
    ensures CodecOwn.Offering(OFFER) && Exact(OFFER)
  {
    hide LookUp, FindMember;
    var m := Member("compressions", Array([String("zlib")]));
    CodecOwn.SettingsPlain();
    Field([m], "compressions");
    FindOne(m, "compressions");
    SettingsNulFree();
    assert String("zlib") in [String("zlib")];
    OfferExact();
  }

  lemma OfferExact()
    ensures Exact(OFFER)
  {
    SettingsNulFree();
    assert NulFree("zlib") && Exact(String("zlib"));
    assert Exact(Array([String("zlib")]));
    ExactObject(OFFER.members);
  }

  /** The client has tried to connect and does not know yet whether it worked. */
  function Trying(s: Settings): Engine {
    Engine(s, Connecting, true, false, FirstTime(s), [], [], None, NO_PING, Uncompressed, START, 0, [], History([], [], [], []), false)
  }

  function TryInput(s: Settings): Input {
    Input(FirstTime(s), InProgress, Idle)
  }

  lemma TryingRuns(s: Settings)
    requires s.connectTimeout >= 0
    ensures Apply(Apply(ClientState.Start(s), Connect), Turn(TryInput(s))) == Trying(s)
  {
    hide Reset;
    var e := Apply(ClientState.Start(s), Connect);
    var f := e.(connectAt := FirstTime(s));
    NothingToReset(f);
    assert Reset(f).(socket := true) == Trying(s);
    NothingSwept(Trying(s), 0, FirstTime(s));
    NothingFlushed(Trying(s));
    assert Begin(e, InProgress, FirstTime(s)) == (Trying(s), Polls);
    assert CheckConnecting(Trying(s), FirstTime(s)) == Trying(s);
    assert CheckPing(Trying(s), FirstTime(s)) == (Trying(s), true);
  }

  lemma NothingFlushed(e: Engine)
    requires e.requests == []
    ensures Flush(e) == e
  {
  }

  function TryingLink(s: Settings): Link {
    Link(true, B.NewClient(0), [], 0, [], true, Trying(s), 0)
  }

  lemma TryingStarts(s: Settings)
    requires ExactSettings(s) && s.connectTimeout >= 0
    ensures LinkStart(TryingLink(s), s)
  {
    hide Sound, ExactSettings, Apply;
    StartSound(s);
    ApplySound(ClientState.Start(s), Connect);
    ApplySound(Apply(ClientState.Start(s), Connect), Turn(TryInput(s)));
    TryingRuns(s);
    assert Unsent(Trying(s), s);
  }

  /** The create command of the application, the first request of all. */
  function OfferItem(s: Settings): Item {
    Item(TYPE_COMMAND, SERVER, "command.create", START, OFFER, UserHandler, FirstTime(s), s.commandTimeout, 0, 0)
  }

  /** It is written, and the client does not know yet whether it is connected. */
  function Offered(s: Settings): Engine {
    var r := OfferItem(s);
    Trying(s).(pendings := [r], sequence := START + 1, draws := 1, outgoing := [Frame(Uncompressed, RequestText(r))],
               history := History([r], [], [], []))
  }

  lemma OfferWritten(s: Settings)
    requires s.commandTimeout > 0 && s.connectTimeout >= 0
    ensures
      var now := FirstTime(s);
      var d := Apply(Trying(s), CreateIssue(Some(OFFER), now));
      d.socket && d.outgoing == [] && Apply(d, Turn(QuietInput(now))) == Offered(s)
  {
    hide RequestText, Mbus, Run;
    NamesDiffer();
    var now := FirstTime(s);
    CreateIssued(Trying(s), Some(OFFER), now);
    var d := Apply(Trying(s), CreateIssue(Some(OFFER), now));
    assert d.requests == [OfferItem(s)] && [] + [OfferItem(s)] == [OfferItem(s)];
    OneFlushed(d);
    assert [] + [Frame(Uncompressed, RequestText(OfferItem(s)))] == [Frame(Uncompressed, RequestText(OfferItem(s)))];
    TryingWrites(d, now);
  }

  lemma TryingWrites(e: Engine, now: int)
    requires !e.broken && e.state.Connecting? && e.socket && now <= e.connectAt + e.settings.connectTimeout && !Flush(e).broken
    requires (forall i | 0 <= i < |e.requests| :: !Expired(e.requests[i], now))
    requires (forall i | 0 <= i < |e.pendings| :: !Expired(e.pendings[i], now))
    ensures Run(e, QuietInput(now)) == (Flush(e), true) && Finish(e, now) == (Flush(e), true)
  {
    hide Expired, Flush;
    NothingSwept(e, 0, now);
    assert CheckConnecting(e, now) == e && CheckPing(e, now) == (e, true);
  }

  /** The connection is made, and the client's own create request follows. */
  function PluggedInput(s: Settings): Input {
    Input(FirstTime(s), Established, Ready(false, Some(Established), false, []))
  }

  lemma ThenPlugged(s: Settings)
    requires s.commandTimeout > 0 && s.connectTimeout >= 0
    ensures
      var e := Apply(Offered(s), Turn(PluggedInput(s)));
      e.socket && |e.outgoing| == 2 && e.outgoing[0] == Offered(s).outgoing[0] && e.outgoing[1].compression == Uncompressed
  {
    hide RequestText, CreateData, Finish, Mbus;
    NamesDiffer();
    var now, e := FirstTime(s), Offered(s);
    var a := RequestCreate(e.(socketConnected := true), now).0;
    assert |a.requests| == 1 && a.requests[0].kind == TYPE_COMMAND && a.pendings == e.pendings && a.outgoing == e.outgoing;
    assert BeforeDecode(e, PluggedInput(s).poll, now) == (a, Polls);
    assert ReceiveAll(a, [], now) == (a, true);
    assert Serve(e, PluggedInput(s).poll, now) == (a, Polls);
    OneFlushed(a);
    TryingWrites(a, now);
    assert Run(e, PluggedInput(s)) == Finish(a, now);
  }

  lemma OfferDisagrees(s: Settings)
    requires ExactSettings(s) && s.commandTimeout > 0 && s.connectTimeout >= 0
    ensures CanDisagree(TryingLink(s), true, true)
  {
    hide CanDisagree, FreeOperation, Apply, RequestText, ExactItem, CodecOwn.Offering, ExactSettings, Mbus, Exact;
    var l, now := TryingLink(s), FirstTime(s);
    var d := Apply(Trying(s), CreateIssue(Some(OFFER), now));
    var e := Apply(Offered(s), Turn(PluggedInput(s)));
    OfferOffers();
    OfferWritten(s);
    ThenPlugged(s);
    OfferItemExact(s);
    TwoCreatesDisagree(l.(e := e, up := e.outgoing), OfferItem(s), true);
    TurnFree(Offered(s), PluggedInput(s), true);
    ClientMove(l.(e := Offered(s), up := Offered(s).outgoing), Turn(PluggedInput(s)), e, true, true);
    TurnFree(d, QuietInput(now), true);
    ClientMove(l.(e := d, up := d.outgoing), Turn(QuietInput(now)), Offered(s), true, true);
    CreateIssueFree(Trying(s), Some(OFFER), now, true);
    ClientMove(l, CreateIssue(Some(OFFER), now), d, true, true);
  }

  lemma OfferItemExact(s: Settings)
    requires ExactSettings(s) && s.commandTimeout > 0
    ensures ExactItem(OfferItem(s)) && CodecOwn.CreateItem(OfferItem(s))
  {
    hide NulFree, Exact, Mbus;
    OfferExact();
    NamesNulFree();
    CreateNulFree();
  }

  // ----- exactly when -----

  /** Broker and client agree on the compression, whatever happens. */
  ghost predicate AlwaysAgree(s: Settings, zlib: bool, offers: bool) {
    forall l: Link, moves: seq<Move> :: LinkStart(l, s) && FreeRuns(l, moves, zlib, offers) ==> FreeAgree(l, moves, zlib, offers)
  }

  /** With an application that may issue create commands of its own, at any time: in every interleaving every
      frame is decoded with the compression it was encoded with if, and only if, the broker has no zlib, or
      neither the client nor these commands offer it. */
  lemma OwnCreatesAgree(s: Settings, zlib: bool, offers: bool)
    requires ExactSettings(s) && s.commandTimeout > 0 && s.connectTimeout >= 0
    ensures AlwaysAgree(s, zlib, offers) <==> !(zlib && (s.zlib || offers))
  {
    hide FreeRuns, FreeAgree, LinkStart, ExactSettings, FlatLink;
    if zlib && s.zlib {
      ZlibDisagrees(s, offers);
      FirstStarts(s);
    } else if zlib && offers {
      OfferDisagrees(s);
      TryingStarts(s);
    } else {
      forall l: Link, moves: seq<Move> | LinkStart(l, s) && FreeRuns(l, moves, zlib, offers)
        ensures FreeAgree(l, moves, zlib, offers)
      {
        StartFlat(l, s, s.zlib || offers);
        RunFlat(l, moves, zlib, offers, s);
      }
    }
  }
}

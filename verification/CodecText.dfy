/** The two messages that negotiate the compression, as text: what the broker reads in a create request
    is what the client wrote, and the other way round for the response. */
module CodecText {
  import opened Options
  import opened Compress
  import opened JsonStrings
  import opened JsonText
  import opened JsonPath
  import opened Methods
  import B = BrokerState
  import opened BrokerLink
  import opened ClientState

  // ----- exact requests -----

  /** A request that survives being written as text. */
  ghost predicate ExactItem(r: Item) {
    && NulFree(r.kind) && NulFree(r.destination) && NulFree(r.identifier) && Exact(r.payload)
    && IsInt32(r.timeout) && START <= r.sequence < END
  }

  lemma MbusNulFree(name: string)
    requires NulFree(name)
    ensures NulFree(Mbus(name))
  {
    assert NulFree("org.mbus.");
  }

  lemma TagsNulFree()
    ensures NulFree(TAG_TYPE) && NulFree(TAG_DESTINATION) && NulFree(TAG_IDENTIFIER) && NulFree(TAG_SEQUENCE)
    ensures NulFree(TAG_TIMEOUT) && NulFree(TAG_PAYLOAD) && NulFree(TAG_STATUS) && NulFree(TYPE_RESULT)
  {
    hide Mbus, NulFree;
    MbusNulFree("method.tag.type");
    MbusNulFree("method.tag.destination");
    MbusNulFree("method.tag.identifier");
    MbusNulFree("method.tag.sequence");
    MbusNulFree("method.tag.timeout");
    MbusNulFree("method.tag.payload");
    MbusNulFree("method.tag.status");
    MbusNulFree("method.type.result");
    LiteralsNulFree();
  }

  lemma LiteralsNulFree()
    ensures NulFree("method.tag.type") && NulFree("method.tag.destination") && NulFree("method.tag.identifier")
    ensures NulFree("method.tag.sequence") && NulFree("method.tag.timeout") && NulFree("method.tag.payload")
    ensures NulFree("method.tag.status") && NulFree("method.type.result")
  {
  }

  lemma NamesNulFree()
    ensures NulFree(TYPE_COMMAND) && NulFree(TYPE_EVENT) && NulFree(SERVER) && NulFree(SUBSCRIBERS) && NulFree(PING)
  {
    hide Mbus;
    MbusNulFree("method.type.command");
    MbusNulFree("method.type.event");
    MbusNulFree("server");
    MbusNulFree("method.event.destination.subscribers");
    MbusNulFree("server.event.ping");
  }

  lemma ExactRequest(r: Item)
    requires ExactItem(r)
    ensures Exact(RequestJson(r))
  {
    hide Mbus;
    TagsNulFree();
    var m := RequestJson(r).members;
    forall i | 0 <= i < |m| ensures NulFree(m[i].name) && Exact(m[i].value) {}
  }

  /** What the broker finds in the object of a request. */
  lemma RequestFields(r: Item)
    ensures
      var j := Some(RequestJson(r));
      && StringAt(j, TAG_TYPE) == Some(r.kind) && StringAt(j, TAG_DESTINATION) == Some(r.destination)
      && StringAt(j, TAG_IDENTIFIER) == Some(r.identifier) && IntAt(j, TAG_SEQUENCE, -1) == r.sequence
      && LookUp(j, TAG_PAYLOAD) == Some(r.payload)
      && LookUp(j, TAG_TIMEOUT) == (if r.kind == TYPE_COMMAND then Some(Number(r.timeout)) else None)
  {
    hide Mbus, LookUp, FindMember;
    TagsDiffer();
    RequestTagsDiffer();
    TagsPlain();
    var a, b := Member(TAG_TYPE, String(r.kind)), Member(TAG_DESTINATION, String(r.destination));
    var c, d := Member(TAG_IDENTIFIER, String(r.identifier)), Member(TAG_SEQUENCE, Number(r.sequence));
    var t, p := Member(TAG_TIMEOUT, Number(r.timeout)), Member(TAG_PAYLOAD, r.payload);
    var four, more := [a, b, c, d], if r.kind == TYPE_COMMAND then [t] else [];
    forall tag | tag in {TAG_TYPE, TAG_DESTINATION, TAG_IDENTIFIER, TAG_SEQUENCE, TAG_TIMEOUT, TAG_PAYLOAD}
      ensures LookUp(Some(RequestJson(r)), tag)
           == if tag == TAG_TYPE then Some(a.value) else if tag == TAG_DESTINATION then Some(b.value)
              else if tag == TAG_IDENTIFIER then Some(c.value) else if tag == TAG_SEQUENCE then Some(d.value)
              else if tag == TAG_TIMEOUT then (if more == [] then None else Some(t.value)) else Some(p.value)
    {
      Field(four + more + [p], tag);
      FindFour(a, b, c, d, tag);
      FindOne(t, tag);
      FindOne(p, tag);
      FindJoined(four, more, tag);
      FindJoined(four + more, [p], tag);
    }
  }

  /** A request arrives at the broker as it left the client. */
  lemma RequestArrives(r: Item, source: nat, now: int, draw: string)
    requires ExactItem(r)
    ensures CreateRequest(source, RequestText(r), now, draw)
         == Some(Request(r.kind, r.destination, r.identifier, r.sequence, r.payload, source, now, draw, InitialResult(r.sequence)))
  {
    hide Mbus, StringAt, IntAt, LookUp, Parse, Print, RequestJson, InitialResult, Exact;
    ExactRequest(r);
    TreeRoundTrip(RequestJson(r), false);
    RequestFields(r);
  }

  // ----- the create request -----

  ghost predicate ExactSettings(s: Settings) {
    && (s.identifier.Some? ==> NulFree(s.identifier.value)) && (s.password.Some? ==> NulFree(s.password.value))
    && IsInt32(s.pingInterval) && IsInt32(s.pingTimeout) && IsInt32(s.pingThreshold) && IsInt32(s.commandTimeout)
    && IsInt32(s.publishTimeout)
  }

  lemma ExactObject(m: seq<Member>)
    requires ExactMembers(m)
    ensures Exact(Object(m))
  {
  }

  lemma ExactTriple(a: string, i: int, b: string, j: int, c: string, k: int)
    requires NulFree(a) && NulFree(b) && NulFree(c) && IsInt32(i) && IsInt32(j) && IsInt32(k)
    ensures Exact(Object([Member(a, Number(i)), Member(b, Number(j)), Member(c, Number(k))]))
  {
    hide NulFree;
    ExactObject([Member(a, Number(i)), Member(b, Number(j)), Member(c, Number(k))]);
  }

  ghost predicate ExactMembers(members: seq<Member>) {
    forall i | 0 <= i < |members| :: NulFree(members[i].name) && Exact(members[i].value)
  }

  lemma ExactOffers(s: Settings)
    ensures Exact(OfferList(s))
  {
    var items := OfferList(s).items;
    assert NulFree("none") && NulFree("zlib");
    forall i | 0 <= i < |items| ensures Exact(items[i]) {}
  }

  lemma ExactCreateData(s: Settings)
    requires ExactSettings(s)
    ensures Exact(CreateData(s))
  {
    hide NulFree, Exact;
    assert NulFree("identifier") && NulFree("password") && NulFree("ping") && NulFree("compressions") && NulFree("interval")
           && NulFree("timeout") && NulFree("threshold") by { SettingsNulFree(); }
    ExactTriple("interval", s.pingInterval, "timeout", s.pingTimeout, "threshold", s.pingThreshold);
    ExactOffers(s);
    ExactStrings(s);
    ExactObject(CreateData(s).members);
  }

  lemma ExactStrings(s: Settings)
    requires ExactSettings(s)
    ensures s.identifier.Some? ==> Exact(String(s.identifier.value))
    ensures s.password.Some? ==> Exact(String(s.password.value))
  {
  }

  lemma SettingsNulFree()
    ensures NulFree("identifier") && NulFree("password") && NulFree("ping") && NulFree("compressions") && NulFree("interval")
    ensures NulFree("timeout") && NulFree("threshold") && NulFree("compression")
  {
  }

  function OfferList(s: Settings): Json {
    Array([String("none")] + if s.zlib then [String("zlib")] else [])
  }

  /** The compressions a create request offers: none, and zlib where it was built in. */
  lemma OffersFound(s: Settings)
    ensures LookUp(Some(CreateData(s)), "compressions") == Some(OfferList(s))
  {
    hide LookUp, FindMember;
    var a := if s.identifier.Some? then [Member("identifier", String(s.identifier.value))] else [];
    var b := if s.password.Some? then [Member("password", String(s.password.value))] else [];
    var ping := Object([Member("interval", Number(s.pingInterval)), Member("timeout", Number(s.pingTimeout)),
                        Member("threshold", Number(s.pingThreshold))]);
    var c := if s.pingInterval > 0 then [Member("ping", ping)] else [];
    var d := Member("compressions", OfferList(s));
    var name := "compressions";
    assert CreateData(s) == Object(a + b + c + [d]);
    Field(a + b + c + [d], name);
    NotThere(a, "identifier", name);
    NotThere(b, "password", name);
    NotThere(c, "ping", name);
    FindOne(d, name);
    FindJoined(a, b, name);
    FindJoined(a + b, c, name);
    FindJoined(a + b + c, [d], name);
  }

  lemma NotThere(m: seq<Member>, has: string, name: string)
    requires |m| <= 1 && (m != [] ==> m[0].name == has) && |has| != |name|
    ensures FindMember(m, name) == None
  {
    if m != [] {
      FindOne(m[0], name);
      assert m == [m[0]];
    }
  }

  /** The broker picks zlib only for a client that can read it. */
  lemma NegotiatedKnown(s: Settings, brokerZlib: bool)
    ensures B.Negotiate(brokerZlib, LookUp(Some(CreateData(s)), "compressions"))
         == if brokerZlib && s.zlib then Zlib else Uncompressed
  {
    hide LookUp;
    OffersFound(s);
    assert String("zlib") != String("none");
    assert s.zlib ==> OfferList(s).items[1] == String("zlib");
  }

  // ----- the create response -----

  lemma ExactPayload(name: string, codec: Compression, ping: B.Ping)
    requires NulFree(name) && IsInt32(ping.interval) && IsInt32(ping.timeout) && IsInt32(ping.threshold)
    ensures Exact(B.CreatePayload(name, codec, ping))
  {
    hide NulFree, Exact;
    SettingsNulFree();
    ExactTriple("interval", ping.interval, "timeout", ping.timeout, "threshold", ping.threshold);
    CodecNulFree(codec, name);
    ExactObject(B.CreatePayload(name, codec, ping).members);
  }

  lemma CodecNulFree(codec: Compression, name: string)
    requires NulFree(name)
    ensures Exact(String(CompressionName(codec))) && Exact(String(name))
  {
  }

  lemma PayloadFields(name: string, codec: Compression, ping: B.Ping)
    ensures
      var p := Some(B.CreatePayload(name, codec, ping));
      StringAt(p, "identifier") == Some(name) && StringAt(p, "compression") == Some(CompressionName(codec))
  {
    hide LookUp, FindMember;
    var inner := Object([Member("interval", Number(ping.interval)), Member("timeout", Number(ping.timeout)),
                         Member("threshold", Number(ping.threshold))]);
    var a, b, c := Member("identifier", String(name)), Member("compression", String(CompressionName(codec))), Member("ping", inner);
    var m := [a, b, c];
    assert B.CreatePayload(name, codec, ping) == Object(m);
    forall tag | tag in {"identifier", "compression"}
      ensures LookUp(Some(Object(m)), tag) == Some(if tag == "identifier" then a.value else b.value)
    {
      Field(m, tag);
      FindOne(a, tag);
      FindOne(b, tag);
      FindOne(c, tag);
      FindJoined([a], [b], tag);
      FindJoined([a] + [b], [c], tag);
      assert [a] + [b] + [c] == m;
      assert |"identifier"| != |"compression"|;
    }
  }

  /** The result object of a create request that was admitted. */
  lemma AdmittedResult(m: Request, payload: Json)
    requires m.result == InitialResult(m.sequence)
    ensures SetResultCode(SetResultPayload(m, Some(payload)), 0).result
         == [Member(TAG_TYPE, String(TYPE_RESULT)), Member(TAG_SEQUENCE, Number(m.sequence)), Member(TAG_PAYLOAD, payload),
             Member(TAG_STATUS, Number(0))]
  {
    hide Mbus;
    TagsDiffer();
    var a, b := Member(TAG_TYPE, String(TYPE_RESULT)), Member(TAG_SEQUENCE, Number(m.sequence));
    var c := Member(TAG_PAYLOAD, Object([]));
    assert m.result == [a, b, c];
    assert [a, b, c][1..] == [b, c] && [b, c][1..] == [c] && [c][1..] == [];
    assert DeleteMember([c], TAG_PAYLOAD) == [];
    assert DeleteMember([b, c], TAG_PAYLOAD) == [b] + [];
    assert DeleteMember([a, b, c], TAG_PAYLOAD) == [a] + ([b] + []);
    assert [a] + ([b] + []) == [a, b];
  }

  lemma RefusedResult(m: Request)
    requires m.result == InitialResult(m.sequence)
    ensures SetResultCode(m, -1).result
         == [Member(TAG_TYPE, String(TYPE_RESULT)), Member(TAG_SEQUENCE, Number(m.sequence)), Member(TAG_PAYLOAD, Object([])),
             Member(TAG_STATUS, Number(-1))]
  {
    hide Mbus;
  }

  /** The object of a result: its type, sequence number, payload and status. */
  function ResultOf(sequence: int, payload: Json, status: int): Json {
    Object([Member(TAG_TYPE, String(TYPE_RESULT)), Member(TAG_SEQUENCE, Number(sequence)), Member(TAG_PAYLOAD, payload),
            Member(TAG_STATUS, Number(status))])
  }

  lemma ResultFields(sequence: int, payload: Json, status: int)
    ensures
      var j := Some(ResultOf(sequence, payload, status));
      && StringAt(j, TAG_TYPE) == Some(TYPE_RESULT) && IntAt(j, TAG_SEQUENCE, -1) == sequence
      && LookUp(j, TAG_PAYLOAD) == Some(payload) && IntAt(j, TAG_STATUS, -1) == status
  {
    hide Mbus, LookUp, FindMember;
    TagsDiffer();
    TagsPlain();
    var a, b := Member(TAG_TYPE, String(TYPE_RESULT)), Member(TAG_SEQUENCE, Number(sequence));
    var c, d := Member(TAG_PAYLOAD, payload), Member(TAG_STATUS, Number(status));
    forall tag | tag in {TAG_TYPE, TAG_SEQUENCE, TAG_PAYLOAD, TAG_STATUS}
      ensures LookUp(Some(ResultOf(sequence, payload, status)), tag)
           == if tag == TAG_TYPE then Some(a.value) else if tag == TAG_SEQUENCE then Some(b.value)
              else if tag == TAG_PAYLOAD then Some(c.value) else Some(d.value)
    {
      Field([a, b, c, d], tag);
      FindFour(a, b, c, d, tag);
    }
  }

  lemma ExactResultOf(sequence: int, payload: Json, status: int)
    requires IsInt32(sequence) && IsInt32(status) && Exact(payload)
    ensures Exact(ResultOf(sequence, payload, status))
  {
    hide Mbus;
    TagsNulFree();
    var m := ResultOf(sequence, payload, status).members;
    forall i | 0 <= i < |m| ensures NulFree(m[i].name) && Exact(m[i].value) {}
  }

  // ----- looking up exact values -----

  lemma {:induction false} FoundExact(members: seq<Member>, name: string)
    requires ExactMembers(members)
    ensures FindMember(members, name).Some? ==> Exact(FindMember(members, name).value)
  {
    hide NulFree, Exact;
    if members != [] && members[0].name != name {
      FoundExact(members[1..], name);
    }
  }

  lemma {:induction false} WalkExact(root: Option<Json>, names: seq<string>)
    requires root.Some? ==> Exact(root.value)
    ensures Walk(root, names).Some? ==> Exact(Walk(root, names).value)
    decreases |names|
  {
    hide NulFree;
    if root.Some? && names != [] {
      if root.value.Object? {
        FoundExact(root.value.members, names[0]);
      }
      WalkExact(GetItem(root.value, names[0]), names[1..]);
    }
  }

  lemma LookUpExact(root: Option<Json>, path: string)
    requires root.Some? ==> Exact(root.value)
    ensures LookUp(root, path).Some? ==> Exact(LookUp(root, path).value)
    ensures StringAt(root, path).Some? ==> NulFree(StringAt(root, path).value)
    ensures IsInt32(IntAt(root, path, -1))
  {
    WalkExact(root, Components(path));
  }

  lemma AskedExact(m: Request, name: string, ping: B.Ping)
    requires Asked(m, name, ping) && Exact(m.payload) && NulFree(m.draw)
    ensures NulFree(name) && IsInt32(ping.interval) && IsInt32(ping.timeout) && IsInt32(ping.threshold)
  {
    hide StringAt, IntAt, LookUp, Exact, NulFree;
    var payload := Some(m.payload);
    LookUpExact(payload, "identifier");
    LookUpExact(payload, "ping");
    LookUpExact(LookUp(payload, "ping"), "interval");
    LookUpExact(LookUp(payload, "ping"), "timeout");
    LookUpExact(LookUp(payload, "ping"), "threshold");
  }

  // ----- the response as text -----

  /** What the client reads in the response to its create request q: that it was refused, or that it
      was admitted with the compression the broker uses. */
  ghost predicate Tells(text: string, q: Item, codec: Compression) {
    exists payload: Json, status: int :: TellsWith(text, q, codec, payload, status)
  }

  ghost predicate TellsWith(text: string, q: Item, codec: Compression, payload: Json, status: int) {
    && Parse(text) == Some(ResultOf(q.sequence, payload, status))
    && (status == 0 ==> StringAt(Some(payload), "identifier").Some?
                        && StringAt(Some(payload), "compression") == Some(CompressionName(codec)))
  }

  /** The create request q of a client with these settings. */
  ghost predicate OwnCreate(q: Item, s: Settings) {
    && q.kind == TYPE_COMMAND && q.destination == SERVER && q.identifier == "command.create" && q.payload == CreateData(s)
    && q.handler.CreateHandler? && ExactItem(q)
  }

  /** The broker's method for it. */
  ghost predicate CreateMethod(m: Request, q: Item, s: Settings) {
    && m.kind == TYPE_COMMAND && m.destination == SERVER && m.identifier == "command.create"
    && m.sequence == q.sequence && m.payload == CreateData(s) && m.result == InitialResult(q.sequence) && NulFree(m.draw)
  }

  /** Whatever the broker makes of the create request, the one result it adds is a response that tells
      the client the compression the broker uses from then on, one the client knows. */
  lemma ResponseAnswers(c: B.Client, d: B.Client, m: Request, brokerZlib: bool, q: Item, s: Settings)
    requires Created(c, d, m, brokerZlib) && CreateMethod(m, q, s) && OwnCreate(q, s) && ExactSettings(s)
    requires c.compression == Uncompressed
    ensures |d.results| == |c.results| + 1 && d.results[..|c.results|] == c.results
    ensures
      var r := d.results[|c.results|];
      && r.destination == SERVER && r.identifier == "command.create" && Tells(Print(ResultJson(r), 0, false), q, d.compression)
    ensures d.compression == Zlib ==> s.zlib
    ensures d == c.(identifier := d.identifier, ping := d.ping, compression := d.compression, results := d.results)
  {
    hide CreatedAs, Asked, Tells, CreateMethod, OwnCreate, ExactSettings, Mbus;
    var name: string, ping: B.Ping, admitted: bool :| CreatedAs(c, d, m, brokerZlib, name, ping, admitted);
    if admitted {
      AdmittedAnswers(c, d, m, brokerZlib, q, s, name, ping);
    } else {
      RefusedAnswers(c, d, m, brokerZlib, q, s, name, ping);
    }
  }

  lemma AdmittedAnswers(c: B.Client, d: B.Client, m: Request, brokerZlib: bool, q: Item, s: Settings, name: string, ping: B.Ping)
    requires CreatedAs(c, d, m, brokerZlib, name, ping, true) && CreateMethod(m, q, s) && OwnCreate(q, s) && ExactSettings(s)
    ensures |d.results| == |c.results| + 1 && d.results[..|c.results|] == c.results
    ensures
      var r := d.results[|c.results|];
      && r.destination == SERVER && r.identifier == "command.create" && Tells(Print(ResultJson(r), 0, false), q, d.compression)
    ensures d.compression == Zlib ==> s.zlib
    ensures d == c.(identifier := d.identifier, ping := d.ping, compression := d.compression, results := d.results)
  {
    hide StringAt, LookUp, Exact, NulFree, Print, Parse, B.Negotiate, B.CreatePayload, CreateData, InitialResult, ExactSettings, Mbus, Asked,
         SetResultPayload;
    NegotiatedKnown(s, brokerZlib);
    ExactCreateData(s);
    AskedExact(m, name, ping);
    ExactPayload(name, d.compression, ping);
    var payload := B.CreatePayload(name, d.compression, ping);
    AdmittedResult(m, payload);
    ExactResultOf(q.sequence, payload, 0);
    TreeRoundTrip(ResultOf(q.sequence, payload, 0), false);
    PayloadFields(name, d.compression, ping);
    KeptByPayload(m, payload);
    assert TellsWith(Print(ResultOf(q.sequence, payload, 0), 0, false), q, d.compression, payload, 0);
  }

  lemma KeptByPayload(m: Request, payload: Json)
    ensures SetResultPayload(m, Some(payload)).destination == m.destination
    ensures SetResultPayload(m, Some(payload)).identifier == m.identifier
  {
  }

  lemma RefusedAnswers(c: B.Client, d: B.Client, m: Request, brokerZlib: bool, q: Item, s: Settings, name: string, ping: B.Ping)
    requires CreatedAs(c, d, m, brokerZlib, name, ping, false) && CreateMethod(m, q, s) && OwnCreate(q, s)
    requires c.compression == Uncompressed
    ensures |d.results| == |c.results| + 1 && d.results[..|c.results|] == c.results
    ensures
      var r := d.results[|c.results|];
      && r.destination == SERVER && r.identifier == "command.create" && Tells(Print(ResultJson(r), 0, false), q, d.compression)
    ensures d.compression == Uncompressed
    ensures d == c.(identifier := d.identifier, ping := d.ping, compression := d.compression, results := d.results)
  {
    hide StringAt, LookUp, NulFree, Print, Parse, B.Negotiate, B.CreatePayload, CreateData, Mbus, Asked;
    RefusedResult(m);
    ExactResultOf(q.sequence, Object([]), -1);
    TreeRoundTrip(ResultOf(q.sequence, Object([]), -1), false);
    assert TellsWith(Print(ResultOf(q.sequence, Object([]), -1), 0, false), q, d.compression, Object([]), -1);
  }
}

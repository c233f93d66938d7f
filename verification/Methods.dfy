/** The messages of the broker (src/server/method.c): requests that came in from a client together
    with the result object that will answer them, and notices that go out to clients. */
module Methods {
  import opened Options
  import opened JsonText
  import opened JsonPath

  // ----- names of the protocol (src/method/method.h, src/server/server.h) -----

  function Mbus(name: string): string { "org.mbus." + name }

  const TYPE_COMMAND: string := Mbus("method.type.command")
  const TYPE_EVENT: string := Mbus("method.type.event")
  const TYPE_RESULT: string := Mbus("method.type.result")

  const TAG_TYPE: string := Mbus("method.tag.type")
  const TAG_SOURCE: string := Mbus("method.tag.source")
  const TAG_DESTINATION: string := Mbus("method.tag.destination")
  const TAG_IDENTIFIER: string := Mbus("method.tag.identifier")
  const TAG_SEQUENCE: string := Mbus("method.tag.sequence")
  const TAG_TIMEOUT: string := Mbus("method.tag.timeout")
  const TAG_PAYLOAD: string := Mbus("method.tag.payload")
  const TAG_STATUS: string := Mbus("method.tag.status")

  const SERVER: string := Mbus("server")
  const EVERYONE: string := Mbus("method.event.destination.all")
  const SUBSCRIBERS: string := Mbus("method.event.destination.subscribers")
  const ANY_SOURCE: string := Mbus("method.event.source.all")
  const ANY_EVENT: string := Mbus("method.event.identifier.all")
  const PING: string := Mbus("server.event.ping")
  const PONG: string := Mbus("server.event.pong")

  /** Sequence numbers run from START up to, but not including, END and then start again. */
  const START: int := 1
  const END: int := 9999

  function NextSequence(n: int): int {
    if n + 1 >= END then START else n + 1
  }

  /** The sequence number of the k-th message, counted from 0. */
  function Cyclic(k: nat): int {
    START + k % (END - START)
  }

  lemma CyclicNext(k: nat)
    ensures NextSequence(Cyclic(k)) == Cyclic(k + 1)
    ensures START <= Cyclic(k) < END
  {
  }

  /** Of any 9998 successive numbers no two are the same. */
  lemma CyclicDistinct(j: nat, k: nat)
    requires j < k < j + (END - START)
    ensures Cyclic(j) != Cyclic(k)
  {
  }

  lemma TagsDiffer()
    ensures TAG_STATUS != TAG_SEQUENCE && TAG_STATUS != TAG_PAYLOAD && TAG_STATUS != TAG_TYPE
    ensures TAG_SEQUENCE != TAG_PAYLOAD && TAG_SEQUENCE != TAG_TYPE && TAG_PAYLOAD != TAG_TYPE
  {
    assert TAG_STATUS[20..] == "status" && TAG_SEQUENCE[20..] == "sequence";
    assert TAG_PAYLOAD[20..] == "payload" && TAG_TYPE[20..] == "type";
  }

  lemma RequestTagsDiffer()
    ensures TAG_DESTINATION !in {TAG_TYPE, TAG_IDENTIFIER, TAG_SEQUENCE, TAG_TIMEOUT, TAG_PAYLOAD}
    ensures TAG_IDENTIFIER !in {TAG_TYPE, TAG_SEQUENCE, TAG_TIMEOUT, TAG_PAYLOAD}
    ensures TAG_TIMEOUT !in {TAG_TYPE, TAG_SEQUENCE, TAG_PAYLOAD}
  {
    assert TAG_DESTINATION[20..] == "destination" && TAG_IDENTIFIER[20..] == "identifier" && TAG_TIMEOUT[20..] == "timeout";
    assert TAG_SEQUENCE[20..] == "sequence" && TAG_PAYLOAD[20..] == "payload" && TAG_TYPE[20..] == "type";
  }

  /** One component of a path. */
  predicate Plain(name: string) {
    name != "" && '/' !in name
  }

  lemma TagsPlain()
    ensures Plain(TAG_TYPE) && Plain(TAG_SOURCE) && Plain(TAG_DESTINATION) && Plain(TAG_IDENTIFIER)
    ensures Plain(TAG_SEQUENCE) && Plain(TAG_TIMEOUT) && Plain(TAG_PAYLOAD) && Plain(TAG_STATUS)
  {
    hide Mbus;
    MbusPlain("method.tag.type");
    MbusPlain("method.tag.source");
    MbusPlain("method.tag.destination");
    MbusPlain("method.tag.identifier");
    MbusPlain("method.tag.sequence");
    MbusPlain("method.tag.timeout");
    MbusPlain("method.tag.payload");
    MbusPlain("method.tag.status");
  }

  lemma MbusPlain(name: string)
    requires '/' !in name
    ensures Plain(Mbus(name))
  {
    assert '/' !in "org.mbus.";
  }

  lemma NamesDiffer()
    ensures TYPE_COMMAND != TYPE_EVENT && PING != PONG
    ensures SERVER != EVERYONE && SERVER != SUBSCRIBERS && EVERYONE != SUBSCRIBERS
  {
    assert TYPE_COMMAND[21] == 'c' && TYPE_EVENT[21] == 'e';
    assert PING[23] == 'i' && PONG[23] == 'o';
    assert EVERYONE[34] == 'a' && SUBSCRIBERS[34] == 's';
  }

  /** A request with its result object. Two fields stand for what handling it reads from outside:
      the clock, and the identifier drawn at random should a create request ask for one. */
  datatype Request = Request(
    kind: string, destination: string, identifier: string, sequence: int, payload: Json,
    source: nat, now: int, draw: string,
    result: seq<Member>)

  /** An event, or a call on its way to the client that registered the command. */
  datatype Notice = Notice(kind: string, source: string, identifier: string, sequence: int, payload: Json)

  /** mbus_server_method_create_request: None when a field is missing or of the wrong type. */
  function CreateRequest(source: nat, text: string, now: int, draw: string): Option<Request> {
    var json := Parse(text);
    var kind := StringAt(json, TAG_TYPE);
    var destination := StringAt(json, TAG_DESTINATION);
    var identifier := StringAt(json, TAG_IDENTIFIER);
    var sequence := IntAt(json, TAG_SEQUENCE, -1);
    var payload := LookUp(json, TAG_PAYLOAD);
    if json.None? || kind.None? || destination.None? || identifier.None? || sequence == -1 || payload.None? then None
    else
      Some(Request(kind.value, destination.value, identifier.value, sequence, payload.value, source, now, draw,
                   InitialResult(sequence)))
  }

  function InitialResult(sequence: int): seq<Member> {
    [Member(TAG_TYPE, String(TYPE_RESULT)), Member(TAG_SEQUENCE, Number(sequence)), Member(TAG_PAYLOAD, Object([]))]
  }

  /** mbus_server_method_create_response: None for a source that has no identifier yet or for a
      negative sequence number; an absent payload becomes an empty object. */
  function CreateResponse(kind: string, source: Option<string>, identifier: string, sequence: int, payload: Option<Json>)
    : Option<Notice>
  {
    if source.None? || sequence < 0 then None
    else Some(Notice(kind, source.value, identifier, sequence, if payload.None? then Object([]) else payload.value))
  }

  /** mbus_server_method_set_result_code appends a status. */
  function SetResultCode(m: Request, code: int): Request {
    m.(result := m.result + [Member(TAG_STATUS, Number(code))])
  }

  function DeleteMember(members: seq<Member>, name: string): seq<Member> {
    if members == [] then []
    else if members[0].name == name then members[1..]
    else [members[0]] + DeleteMember(members[1..], name)
  }

  /** mbus_server_method_set_result_payload replaces the payload; NULL only removes it. */
  function SetResultPayload(m: Request, payload: Option<Json>): Request {
    var rest := DeleteMember(m.result, TAG_PAYLOAD);
    m.(result := if payload.None? then rest else rest + [Member(TAG_PAYLOAD, payload.value)])
  }

  function ResultJson(m: Request): Json {
    Object(m.result)
  }

  function NoticeJson(n: Notice): Json {
    Object([
      Member(TAG_TYPE, String(n.kind)), Member(TAG_SOURCE, String(n.source)),
      Member(TAG_IDENTIFIER, String(n.identifier)), Member(TAG_SEQUENCE, Number(n.sequence)),
      Member(TAG_PAYLOAD, n.payload)])
  }

  // ----- status and sequence of a result -----

  function Statuses(members: seq<Member>): seq<Json> {
    if members == [] then []
    else (if members[0].name == TAG_STATUS then [members[0].value] else []) + Statuses(members[1..])
  }

  /** The result object carries these statuses and the sequence number of its request. */
  ghost predicate Answers(m: Request, statuses: seq<Json>) {
    Statuses(m.result) == statuses && FindMember(m.result, TAG_SEQUENCE) == Some(Number(m.sequence))
  }

  lemma {:induction false} StatusesAppend(members: seq<Member>, x: Member)
    ensures Statuses(members + [x]) == Statuses(members) + if x.name == TAG_STATUS then [x.value] else []
    ensures FindMember(members, TAG_SEQUENCE).Some? ==>
      FindMember(members + [x], TAG_SEQUENCE) == FindMember(members, TAG_SEQUENCE)
  {
    hide Mbus, Statuses, FindMember;
    StatusesStep(members);
    StatusesStep(members + [x]);
    StatusesStep([]);
    if members == [] {
      assert members + [x] == [x] && [x][1..] == [];
    } else {
      StatusesAppend(members[1..], x);
      assert (members + [x])[0] == members[0] && (members + [x])[1..] == members[1..] + [x];
      Reassociated(if members[0].name == TAG_STATUS then [members[0].value] else [], Statuses(members[1..]),
                   if x.name == TAG_STATUS then [x.value] else []);
    }
  }

  lemma StatusesStep(members: seq<Member>)
    ensures members == [] ==> Statuses(members) == [] && FindMember(members, TAG_SEQUENCE) == None
    ensures members != [] ==>
      Statuses(members) == (if members[0].name == TAG_STATUS then [members[0].value] else []) + Statuses(members[1..])
      && FindMember(members, TAG_SEQUENCE)
         == if members[0].name == TAG_SEQUENCE then Some(members[0].value) else FindMember(members[1..], TAG_SEQUENCE)
  {
    hide Mbus;
  }

  lemma Reassociated(a: seq<Json>, b: seq<Json>, c: seq<Json>)
    ensures a + (b + c) == (a + b) + c && c + [] == c && [] + c == c
  {
  }

  lemma {:induction false} DeletePayload(members: seq<Member>)
    ensures Statuses(DeleteMember(members, TAG_PAYLOAD)) == Statuses(members)
    ensures FindMember(DeleteMember(members, TAG_PAYLOAD), TAG_SEQUENCE) == FindMember(members, TAG_SEQUENCE)
  {
    TagsDiffer();
    hide Mbus;
    if members != [] && members[0].name != TAG_PAYLOAD {
      DeletePayload(members[1..]);
      var rest := DeleteMember(members[1..], TAG_PAYLOAD);
      assert ([members[0]] + rest)[1..] == rest;
    }
  }

  lemma InitialResultAnswers(sequence: int)
    ensures Statuses(InitialResult(sequence)) == []
    ensures FindMember(InitialResult(sequence), TAG_SEQUENCE) == Some(Number(sequence))
  {
    TagsDiffer();
    hide Mbus;
    var a, b := Member(TAG_TYPE, String(TYPE_RESULT)), Member(TAG_SEQUENCE, Number(sequence));
    var c := Member(TAG_PAYLOAD, Object([]));
    StatusesAppend([], a);
    StatusesAppend([a], b);
    StatusesAppend([a, b], c);
    assert [] + [a] == [a] && [a] + [b] == [a, b] && [a, b] + [c] == InitialResult(sequence);
    assert [a, b][1..] == [b];
    assert FindMember([a, b], TAG_SEQUENCE) == FindMember([b], TAG_SEQUENCE) == Some(Number(sequence));
  }

  /** A new request has no status yet and answers with its own sequence number. */
  lemma NewRequestUnanswered(source: nat, text: string, now: int, draw: string)
    ensures var m := CreateRequest(source, text, now, draw); m.Some? ==> Answers(m.value, []) && m.value.source == source
  {
    hide Mbus, Statuses, FindMember, InitialResult, Parse, LookUp;
    var m := CreateRequest(source, text, now, draw);
    if m.Some? {
      InitialResultAnswers(m.value.sequence);
    }
  }

  /** Setting the payload keeps statuses and sequence; setting the code adds one status. */
  lemma SettersAnswer(m: Request, statuses: seq<Json>, payload: Option<Json>, code: int)
    requires Answers(m, statuses)
    ensures Answers(SetResultPayload(m, payload), statuses)
    ensures Answers(SetResultCode(m, code), statuses + [Number(code)])
  {
    TagsDiffer();
    hide Mbus;
    DeletePayload(m.result);
    StatusesAppend(m.result, Member(TAG_STATUS, Number(code)));
    if payload.Some? {
      StatusesAppend(DeleteMember(m.result, TAG_PAYLOAD), Member(TAG_PAYLOAD, payload.value));
    }
  }

  // ----- what answers come to -----

  /** The request answered by the broker itself: its sequence number, a payload and a status. */
  function Replied(m: Request, status: int, payload: Json): Request {
    m.(result := [Member(TAG_TYPE, String(TYPE_RESULT)), Member(TAG_SEQUENCE, Number(m.sequence)), Member(TAG_PAYLOAD, payload),
                  Member(TAG_STATUS, Number(status))])
  }

  /** The request answered by the client that was called, with the payload of that client, if any. */
  function Returned(m: Request, status: int, payload: Option<Json>): Request {
    m.(result := [Member(TAG_TYPE, String(TYPE_RESULT)), Member(TAG_SEQUENCE, Number(m.sequence)), Member(TAG_STATUS, Number(status))]
                 + if payload.None? then [] else [Member(TAG_PAYLOAD, payload.value)])
  }

  lemma PayloadDeleted(sequence: int)
    ensures DeleteMember(InitialResult(sequence), TAG_PAYLOAD)
         == [Member(TAG_TYPE, String(TYPE_RESULT)), Member(TAG_SEQUENCE, Number(sequence))]
  {
    TagsDiffer();
    hide Mbus;
    var a, b, c := Member(TAG_TYPE, String(TYPE_RESULT)), Member(TAG_SEQUENCE, Number(sequence)), Member(TAG_PAYLOAD, Object([]));
    assert [a, b, c][1..] == [b, c] && [b, c][1..] == [c] && [c][1..] == [];
    assert DeleteMember([b, c], TAG_PAYLOAD) == [b] + DeleteMember([c], TAG_PAYLOAD) == [b];
    assert [a] + [b] == [a, b];
  }

  /** A code, or a payload and then a code, on a request that was not answered. */
  lemma RepliedIs(m: Request, code: int, payload: Json)
    requires m.result == InitialResult(m.sequence)
    ensures SetResultCode(m, code) == Replied(m, code, Object([]))
    ensures SetResultCode(SetResultPayload(m, Some(payload)), code) == Replied(m, code, payload)
  {
    hide Mbus, DeleteMember;
    PayloadDeleted(m.sequence);
  }

  /** A code and then a payload, as for a call that came back. */
  lemma ReturnedIs(m: Request, code: int, payload: Option<Json>)
    requires m.result == InitialResult(m.sequence)
    ensures SetResultPayload(SetResultCode(m, code), payload) == Returned(m, code, payload)
  {
    TagsDiffer();
    hide Mbus;
    var a, b := Member(TAG_TYPE, String(TYPE_RESULT)), Member(TAG_SEQUENCE, Number(m.sequence));
    var c, d := Member(TAG_PAYLOAD, Object([])), Member(TAG_STATUS, Number(code));
    assert m.result + [d] == [a, b, c, d];
    assert [a, b, c, d][1..] == [b, c, d] && [b, c, d][1..] == [c, d] && [c, d][1..] == [d];
    assert DeleteMember([c, d], TAG_PAYLOAD) == [d];
    assert DeleteMember([b, c, d], TAG_PAYLOAD) == [b] + [d];
    assert DeleteMember([a, b, c, d], TAG_PAYLOAD) == [a] + ([b] + [d]);
    assert [a] + ([b] + [d]) == [a, b, d] && [a, b, d] + [] == [a, b, d];
  }

  // ----- members of an object -----

  lemma Field(members: seq<Member>, name: string)
    requires Plain(name)
    ensures LookUp(Some(Object(members)), name) == FindMember(members, name)
  {
    hide LookUp, FindMember;
    LastStep(Object(members), name);
  }

  lemma {:induction false} FindJoined(a: seq<Member>, b: seq<Member>, name: string)
    ensures FindMember(a + b, name) == if FindMember(a, name).Some? then FindMember(a, name) else FindMember(b, name)
  {
    if a == [] {
      assert a + b == b;
    } else {
      FindJoined(a[1..], b, name);
      assert (a + b)[1..] == a[1..] + b;
    }
  }

  lemma FindOne(m: Member, name: string)
    ensures FindMember([m], name) == if m.name == name then Some(m.value) else None
    ensures FindMember([], name) == None
  {
    assert [m][1..] == [];
  }

  lemma FindFour(a: Member, b: Member, c: Member, d: Member, name: string)
    ensures FindMember([a, b, c, d], name)
         == if a.name == name then Some(a.value) else if b.name == name then Some(b.value)
            else if c.name == name then Some(c.value) else if d.name == name then Some(d.value) else None
  {
    hide FindMember;
    FindOne(a, name);
    FindOne(b, name);
    FindOne(c, name);
    FindOne(d, name);
    FindJoined([a], [b], name);
    FindJoined([a] + [b], [c], name);
    FindJoined([a] + [b] + [c], [d], name);
    assert [a] + [b] + [c] + [d] == [a, b, c, d];
  }
}

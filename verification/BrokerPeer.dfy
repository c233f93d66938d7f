/** struct client of src/server/server.c as an object whose fields its functions update. */
module BrokerPeer {
  import opened Options
  import opened Compress
  import opened JsonText
  import opened JsonPath
  import opened Methods
  import opened BrokerState

  type SequenceNumber = n: int | 1 <= n < 9999 witness 1

  class Peer {
    const handle: nat
    var identifier: Option<string>
    var accepted: bool
    var connected: bool
    var open: bool
    var closeCode: CloseCode
    var compression: Compression
    var ping: Ping
    var subscriptions: seq<Subscription>
    var commands: seq<string>
    var requests: seq<Notice>
    var results: seq<Request>
    var events: seq<Notice>
    var waits: seq<Request>
    var esequence: SequenceNumber
    var out: seq<Frame>
    ghost var log: seq<Request>
    ghost var sent: seq<Request>
    ghost var delivered: seq<Notice>

    ghost function View(): Client
      reads this
    {
      Client(handle, identifier, accepted, connected, open, closeCode, compression, ping, subscriptions, commands,
             requests, results, events, waits, esequence, out, log, sent, delivered)
    }

    lemma Fields()
      ensures View().handle == handle && View().identifier == identifier && View().open == open
      ensures View().compression == compression && View().ping == ping
      ensures View().commands == commands && View().subscriptions == subscriptions && View().waits == waits
      ensures View().accepted == accepted && View().connected == connected && View().closeCode == closeCode
      ensures View().log == log
    {
    }

    constructor (handle: nat)
      ensures View() == NewClient(handle)
    {
      this.handle := handle;
      identifier, accepted, connected, open, closeCode := None, false, false, true, Unknown;
      compression, ping, subscriptions, commands := Uncompressed, NO_PING, [], [];
      requests, results, events, waits, esequence := [], [], [], [], 1;
      out, log, sent, delivered := [], [], [], [];
    }

    method CloseConnection(code: CloseCode)
      modifies this
      ensures View() == Closed(old(View()), code)
    {
      open := false;
      closeCode := code;
    }

    method PushResult(m: Request)
      modifies this
      ensures View() == BrokerState.PushResult(old(View()), m)
    {
      results := results + [m];
    }

    method PushWait(m: Request)
      modifies this
      ensures View() == BrokerState.PushWait(old(View()), m)
    {
      waits := waits + [m];
    }

    method PushRequest(n: Notice)
      modifies this
      ensures View() == BrokerState.PushRequest(old(View()), n)
    {
      requests := requests + [n];
    }

    method PopResult() returns (m: Request)
      requires results != []
      modifies this
      ensures m == old(results)[0]
      ensures View() == old(View()).(results := old(results)[1..], sent := old(sent) + [m])
    {
      m := results[0];
      results := results[1..];
      sent := sent + [m];
    }

    method PopRequest() returns (n: Notice)
      requires requests != []
      modifies this
      ensures n == old(requests)[0]
      ensures View() == old(View()).(requests := old(requests)[1..])
    {
      n := requests[0];
      requests := requests[1..];
    }

    method PopEvent() returns (n: Notice)
      requires events != []
      modifies this
      ensures n == old(events)[0]
      ensures View() == old(View()).(events := old(events)[1..], delivered := old(delivered) + [n])
    {
      n := events[0];
      events := events[1..];
      delivered := delivered + [n];
    }

    /** The part of server_send_event_to that numbers an event and queues it. */
    method Deliver(source: string, identifier: string, payload: Json)
      modifies this
      ensures View() == PushEvent(old(View()), source, identifier, payload)
    {
      var method_ := CreateResponse(TYPE_EVENT, Some(source), identifier, esequence, Some(payload));
      if esequence + 1 >= END {
        esequence := START;
      } else {
        esequence := esequence + 1;
      }
      events := events + [method_.value];
    }

    /** The loop over the subscriptions, which stops at the first that matches. */
    method DeliverIfSubscribed(source: string, identifier: string, payload: Json)
      modifies this
      ensures View() == if Subscribed(old(View()), source, identifier) then PushEvent(old(View()), source, identifier, payload)
                        else old(View())
    {
      hide Mbus;
      var k := 0;
      while k < |subscriptions|
        invariant 0 <= k <= |subscriptions| && View() == old(View())
        invariant forall j | 0 <= j < k :: !MatchesEvent(subscriptions[j], source, identifier)
      {
        var s := subscriptions[k];
        if (s.source != ANY_SOURCE && s.source != source) || (s.event != ANY_EVENT && s.event != identifier) {
          k := k + 1;
          continue;
        }
        assert MatchesEvent(old(View()).subscriptions[k], source, identifier);
        Deliver(source, identifier, payload);
        return;
      }
    }

    method AddSubscription(s: Subscription)
      modifies this
      ensures View() == BrokerState.AddSubscription(old(View()), s)
    {
      var k := 0;
      while k < |subscriptions|
        invariant 0 <= k <= |subscriptions| && s !in subscriptions[..k]
      {
        if subscriptions[k] == s {
          return;
        }
        k := k + 1;
      }
      subscriptions := subscriptions + [s];
    }

    method DeleteSubscription(s: Subscription) returns (rc: int)
      modifies this
      ensures rc == if s in old(subscriptions) then 0 else -1
      ensures View() == old(View()).(subscriptions := Without(old(subscriptions), s))
      ensures rc != 0 ==> View() == old(View())
    {
      var k := 0;
      while k < |subscriptions| && subscriptions[k] != s
        invariant 0 <= k <= |subscriptions| && s !in subscriptions[..k]
      {
        k := k + 1;
      }
      WithoutAt(subscriptions, s, k);
      if k == |subscriptions| {
        return -1;
      }
      subscriptions := subscriptions[..k] + subscriptions[k + 1..];
      return 0;
    }

    method AddCommand(name: string)
      modifies this
      ensures View() == BrokerState.AddCommand(old(View()), name)
    {
      var k := 0;
      while k < |commands|
        invariant 0 <= k <= |commands| && name !in commands[..k]
      {
        if commands[k] == name {
          return;
        }
        k := k + 1;
      }
      commands := commands + [name];
    }

    /** client_del_command: the command is removed without a check that the loop found it; found tells
        whether the pointer that is followed was one. */
    method DeleteCommand(name: string) returns (found: bool)
      modifies this
      ensures found == (name in old(commands))
      ensures View() == old(View()).(commands := Without(old(commands), name))
      ensures !found ==> View() == old(View())
    {
      var k := 0;
      while k < |commands| && commands[k] != name
        invariant 0 <= k <= |commands| && name !in commands[..k]
      {
        k := k + 1;
      }
      WithoutAt(commands, name, k);
      if k == |commands| {
        return false;
      }
      commands := commands[..k] + commands[k + 1..];
      return true;
    }

    /** The ping settings a create request asks for. */
    method ConfigurePing(request: Option<Json>, now: int)
      modifies this
      ensures View() == old(View()).(ping := PingSettings(old(ping), request, now))
    {
      hide IntAt;
      var p := ping;
      p := p.(interval := IntAt(request, "interval", -1));
      p := p.(timeout := IntAt(request, "timeout", -1));
      p := p.(threshold := IntAt(request, "threshold", -1));
      if p.interval <= 0 {
        p := p.(interval := 0, timeout := 0, threshold := 0, enabled := false, received := 0);
      } else {
        if p.timeout > p.interval {
          p := p.(timeout := p.interval);
        }
        if p.threshold <= 0 {
          p := p.(threshold := 0);
        }
        p := p.(received := now - p.interval, enabled := true);
      }
      ping := p;
    }

    /** The part of the create handler behind the choice of a name: the client keeps the name even if
        the password is wrong. */
    method Admit(name: string, payload: Option<Json>, password: Option<string>, codec: Compression, now: int)
      returns (ok: bool)
      modifies this
      ensures ok == !(password.Some? && StringAt(payload, "password") != password)
      ensures View() ==
        if ok then old(View()).(identifier := Some(name), ping := PingSettings(old(ping), LookUp(payload, "ping"), now),
                                compression := codec)
        else old(View()).(identifier := Some(name))
    {
      hide StringAt, LookUp, PingSettings;
      identifier := Some(name);
      var given := StringAt(payload, "password");
      if password.Some? && given != password {
        return false;
      }
      ConfigurePing(LookUp(payload, "ping"), now);
      compression := codec;
      return true;
    }

    /** What the status queries list of the client. */
    method List() returns (members: seq<Member>)
      ensures members == Listed(View())
    {
      hide SubscriptionJson, CommandJson;
      members := if identifier.Some? then [Member("source", String(identifier.value))] else [];
      var subscribed, registered := [], [];
      for k := 0 to |subscriptions|
        invariant |subscribed| == k && forall j | 0 <= j < k :: subscribed[j] == SubscriptionJson(subscriptions[j])
      {
        subscribed := subscribed + [SubscriptionJson(subscriptions[k])];
      }
      for k := 0 to |commands|
        invariant |registered| == k && forall j | 0 <= j < k :: registered[j] == CommandJson(commands[j])
      {
        registered := registered + [CommandJson(commands[k])];
      }
      assert subscribed == SubscriptionList(subscriptions) && registered == CommandList(commands);
      members := members + [Member("subscriptions", Array(subscribed)), Member("commands", Array(registered))];
    }

    /** The history of the commands that were accepted from the client. */
    ghost method Log(m: Request)
      modifies this
      ensures View() == old(View()).(log := old(log) + [m])
    {
      log := log + [m];
    }

    method SetAccepted()
      modifies this
      ensures View() == if old(open) then old(View()).(accepted := true) else old(View())
    {
      if !open || accepted {
        return;
      }
      accepted := true;
    }

    method SetConnected()
      modifies this
      ensures View() == old(View()).(connected := true)
    {
      connected := true;
    }

    /** The check of one client in the ping loop. */
    method CheckPing(now: int)
      modifies this
      ensures View() == PingCheck(old(View()), now)
    {
      if !open || ping.interval <= 0 || !ping.enabled {
        return;
      }
      if now > ping.received + ping.interval + ping.timeout {
        ping := ping.(missed := ping.missed + 1);
        ping := ping.(received := ping.received + ping.interval);
      }
      if ping.missed > ping.threshold {
        CloseConnection(PingThreshold);
      }
    }

    /** The body of the loop that prepares the output buffers. */
    method Emit()
      modifies this
      ensures View() == EmitOne(old(View()))
    {
      hide Print, ResultJson, NoticeJson, Mbus;
      if !open {
        return;
      }
      var codec, text := compression, "";
      if |results| > 0 {
        var m := PopResult();
        if m.destination == SERVER && m.identifier == "command.create" {
          codec := Uncompressed;
        }
        text := Print(ResultJson(m), 0, false);
      } else if |requests| > 0 {
        var n := PopRequest();
        text := Print(NoticeJson(n), 0, false);
      } else if |events| > 0 {
        var n := PopEvent();
        text := Print(NoticeJson(n), 0, false);
      } else {
        return;
      }
      out := out + [Frame(codec, text)];
    }

    /** The first wait that a result fits is completed. */
    method CompleteFirst(source: string, identifier: string, sequence: int, code: int, payload: Option<Json>)
      modifies this
      ensures var k := FindWait(old(waits), source, identifier, sequence);
        View() == if k.None? then old(View()) else CompleteWait(old(View()), k.value, code, payload)
    {
      hide FindWait, SetResultCode, SetResultPayload;
      var k := 0;
      while k < |waits|
        invariant 0 <= k <= |waits| && View() == old(View())
        invariant forall j | 0 <= j < k :: !AnsweredBy(waits[j], source, identifier, sequence)
      {
        var wait := waits[k];
        if sequence != wait.sequence || wait.destination != source || wait.identifier != identifier {
          k := k + 1;
          continue;
        }
        FoundWait(waits, source, identifier, sequence, k);
        waits := waits[..k] + waits[k + 1..];
        wait := SetResultCode(wait, code);
        wait := SetResultPayload(wait, payload);
        PushResult(wait);
        return;
      }
    }

    /** The calls to the named client are answered with -1. */
    method AnswerOrphans(name: Option<string>)
      modifies this
      ensures View() == Bereave(old(View()), name)
    {
      hide SetResultCode, OtherWaits, Orphans;
      if name.None? {
        return;
      }
      NoneWait(name.value);
      var k := 0;
      ghost var before, answers, kept := waits, [], [];
      while k < |waits|
        invariant 0 <= k <= |waits| && kept == waits[..k]
        invariant OtherWaits(before, name.value) == kept + OtherWaits(waits[k..], name.value)
        invariant Orphans(before, name.value) == answers + Orphans(waits[k..], name.value)
        invariant results == old(results) + answers
        modifies `waits, `results
        decreases |waits| - k
      {
        var wait, rest := waits[k], waits[k + 1..];
        WaitsStep(waits[k..], name.value, rest);
        if wait.destination == name.value {
          waits := waits[..k] + rest;
          results := results + [SetResultCode(wait, -1)];
          answers := answers + [SetResultCode(wait, -1)];
          assert waits[k..] == rest;
        } else {
          kept := kept + [wait];
          k := k + 1;
        }
      }
      assert waits[k..] == [];
    }
  }

  lemma NoneWait(name: string)
    ensures OtherWaits([], name) == [] && Orphans([], name) == []
  {
  }

  lemma WaitsStep(waits: seq<Request>, name: string, rest: seq<Request>)
    requires waits != [] && waits[1..] == rest
    ensures OtherWaits(waits, name) == (if waits[0].destination == name then [] else [waits[0]]) + OtherWaits(rest, name)
    ensures Orphans(waits, name)
         == (if waits[0].destination == name then [SetResultCode(waits[0], -1)] else []) + Orphans(rest, name)
  {
  }

  lemma {:induction false} WithoutAt<T>(xs: seq<T>, x: T, k: nat)
    requires k <= |xs| && x !in xs[..k] && (k < |xs| ==> xs[k] == x)
    ensures Without(xs, x) == if k == |xs| then xs else xs[..k] + xs[k + 1..]
    ensures x in xs <==> k < |xs|
  {
    if k > 0 {
      assert xs[..k][0] == xs[0] && xs[1..][..k - 1] == xs[..k][1..];
      WithoutAt(xs[1..], x, k - 1);
      assert xs == [xs[0]] + xs[1..];
    }
  }

  lemma FoundWait(waits: seq<Request>, source: string, identifier: string, sequence: int, k: nat)
    requires k < |waits| && AnsweredBy(waits[k], source, identifier, sequence)
    requires forall j | 0 <= j < k :: !AnsweredBy(waits[j], source, identifier, sequence)
    ensures FindWait(waits, source, identifier, sequence) == Some(k)
  {
    hide FindWait;
    var r := FindWait(waits, source, identifier, sequence);
  }
}

/** What a run of a connected client does with the messages that arrived: it reads them all, in order, up to
    one that makes no sense; and what they completed stays completed whatever the rest of the run does. */
module ClientReads {
  import opened Options
  import opened Compress
  import opened JsonText
  import opened JsonPath
  import opened Methods
  import opened ClientState
  import opened ClientInvariant
  import opened ClientRun
  import opened ClientAnswers

  /** The client before the first message and behind each of them; all of them made sense. */
  ghost predicate Reads(es: seq<Engine>, messages: seq<Incoming>, now: int) {
    |es| == |messages| + 1 && forall k | 0 <= k < |messages| :: Receive(es[k], messages[k], now) == (es[k + 1], true)
  }

  lemma ReceiveKeepsSocket(e: Engine, m: Incoming, now: int)
    requires Sound(e) && e.state.Connected?
    ensures var d := Receive(e, m, now).0; d.socket == e.socket && d.state.Connected? && !d.broken
  {
    hide Sound, Parse, LookUp, Mbus, HandleResult, ReplyPayload, Enqueue;
    SoundAccount(e);
    var json := Parse(m.text);
    if json.Some? {
      ResultKeepsSocket(e, json.value);
    }
    forall destination, payload: Option<Json> ensures SameConnection(e, Enqueue(e, TYPE_COMMAND, destination, "command.result", payload,
      UserHandler, e.settings.commandTimeout, now).0)
    {
      EnqueueKeepsSocket(e, TYPE_COMMAND, destination, "command.result", payload, UserHandler, e.settings.commandTimeout, now);
    }
  }

  ghost predicate SameConnection(e: Engine, d: Engine) {
    d.socket == e.socket && d.state == e.state && d.broken == e.broken
  }

  lemma EnqueueKeepsSocket(e: Engine, kind: string, destination: string, identifier: string, payload: Option<Json>, handler: Handler,
                           timeout: int, now: int)
    ensures SameConnection(e, Enqueue(e, kind, destination, identifier, payload, handler, timeout, now).0)
  {
  }

  lemma ResultKeepsSocket(e: Engine, json: Json)
    requires Sound(e) && e.state.Connected?
    ensures SameConnection(e, HandleResult(e, json))
  {
    hide Sound, LookUp, Mbus, CallbackOf, FindPending, CreateAnswered;
    var k := FindPending(e.pendings, IntAt(Some(json), TAG_SEQUENCE, -1));
    if k.Some? {
      ConnectedPlain(e, k.value);
    }
  }

  lemma {:induction false} AllRead(es: seq<Engine>, messages: seq<Incoming>, now: int)
    requires es != [] && Sound(es[0]) && es[0].state.Connected? && es[0].socket && Reads(es, messages, now)
    ensures ReceiveAll(es[0], messages, now) == (es[|messages|], true)
    ensures Sound(es[|messages|]) && es[|messages|].state.Connected? && es[|messages|].socket
    decreases |messages|
  {
    hide Sound, Receive;
    if messages != [] {
      ReceiveKeepsSocket(es[0], messages[0], now);
      ReceiveSound(es[0], messages[0], now);
      assert Receive(es[0], messages[0], now) == (es[1], true);
      assert Reads(es[1..], messages[1..], now);
      AllRead(es[1..], messages[1..], now);
    }
  }

  lemma {:induction false} ReadUpTo(es: seq<Engine>, messages: seq<Incoming>, n: nat, now: int)
    requires n < |messages| && es != [] && Sound(es[0]) && es[0].state.Connected? && es[0].socket && Reads(es, messages[..n], now)
    requires !Receive(es[n], messages[n], now).1
    ensures ReceiveAll(es[0], messages, now) == (Receive(es[n], messages[n], now).0, false)
    decreases n
  {
    hide Sound, Receive;
    if n > 0 {
      ReceiveKeepsSocket(es[0], messages[0], now);
      ReceiveSound(es[0], messages[0], now);
      assert messages[..n][0] == messages[0] && messages[..n][1..] == messages[1..][..n - 1];
      assert Receive(es[0], messages[..n][0], now) == (es[1], true);
      assert Reads(es[1..], messages[1..][..n - 1], now);
      ReadUpTo(es[1..], messages[1..], n - 1, now);
    }
  }

  /** A run of a connected client to which messages arrived. If they all make sense, it reads them one by one
      and then does what is due at the end of a run; otherwise it stops at the first that does not. */
  lemma RunReads(e: Engine, input: Input, es: seq<Engine>, n: nat)
    requires Sound(e) && e.state.Connected? && e.socket && es != [] && es[0] == e
    requires input.poll.Ready? && !input.poll.closed && !(input.poll.writeError && e.outgoing != [])
    requires n <= |input.poll.messages| && Reads(es, input.poll.messages[..n], input.now)
    ensures n == |input.poll.messages| ==> Run(e, input) == Finish(es[n], input.now)
    ensures n < |input.poll.messages| && !Receive(es[n], input.poll.messages[n], input.now).1 ==>
      Run(e, input) == (Receive(es[n], input.poll.messages[n], input.now).0, false)
  {
    hide Sound, Receive, ReceiveAll, Finish;
    SoundAccount(e);
    var messages := input.poll.messages;
    if n == |messages| {
      assert messages[..n] == messages;
      AllRead(es, messages, input.now);
      SoundAccount(es[n]);
    } else if !Receive(es[n], messages[n], input.now).1 {
      ReadUpTo(es, messages, n, input.now);
    }
  }

  /** A run to which nothing happens goes on to its end; one whose poll fails, or that cannot write, fails. */
  lemma RunWithout(e: Engine, input: Input)
    requires Sound(e) && e.state.Connected? && e.socket
    ensures input.poll.Idle? ==> Run(e, input) == Finish(e, input.now)
    ensures input.poll.PollError? ==> Run(e, input) == (e, false)
    ensures input.poll.Ready? && !input.poll.closed && input.poll.writeError && e.outgoing != [] ==> Run(e, input) == (e, false)
  {
    hide Sound, ReceiveAll, Finish;
    SoundAccount(e);
  }

  /** A client at rest begins to connect in its next run if it has an interval, and stays at rest if not. */
  lemma RestsOrConnects(e: Engine, attempt: Attempt, now: int)
    requires e.state.Disconnected?
    ensures Begin(e, attempt, now) == if e.settings.connectInterval > 0 then (e.(state := Connecting), Skips) else (e, Polls)
  {
  }

  // ----- what is completed stays -----

  /** Completions and callbacks are only added to. */
  ghost predicate Grown(e: Engine, d: Engine) {
    && |d.history.completed| >= |e.history.completed| && d.history.completed[..|e.history.completed|] == e.history.completed
    && |d.history.callbacks| >= |e.history.callbacks| && d.history.callbacks[..|e.history.callbacks|] == e.history.callbacks
  }

  lemma SameGrown(e: Engine, d: Engine)
    requires d.history.completed == e.history.completed && d.history.callbacks == e.history.callbacks
    ensures Grown(e, d)
  {
  }

  lemma GrownTwice(e: Engine, d: Engine, f: Engine)
    requires Grown(e, d) && Grown(d, f)
    ensures Grown(e, f)
  {
    assert f.history.completed[..|e.history.completed|] == f.history.completed[..|d.history.completed|][..|e.history.completed|];
    assert f.history.callbacks[..|e.history.callbacks|] == f.history.callbacks[..|d.history.callbacks|][..|e.history.callbacks|];
  }

  lemma CompletedGrown(e: Engine, c: Engine, r: Item, how: How)
    requires c.history == e.history
    ensures Grown(e, Completed(c, r, how))
  {
    hide CallbackOf;
  }

  lemma {:induction false} ResetGrown(e: Engine)
    ensures Grown(e, Reset(e))
    decreases Load(e), 3
  {
    hide CancelRequests, CancelPendings, Grown;
    var u := Unplugged(e);
    var a := CancelRequests(u);
    SameGrown(e, u);
    RequestsGrown(u);
    GrownTwice(e, u, a);
    if Load(a) <= Load(e) && !a.broken {
      var b := CancelPendings(a);
      PendingsGrown(a);
      GrownTwice(e, a, b);
      SameGrown(b, Cleared(b));
      GrownTwice(e, b, Cleared(b));
    }
  }

  lemma {:induction false} RequestsGrown(e: Engine)
    ensures Grown(e, CancelRequests(e))
    decreases Load(e), 1
  {
    hide Reset, Completed, Grown;
    SameGrown(e, e);
    if e.requests != [] {
      var r, c := e.requests[0], e.(requests := e.requests[1..]);
      var d := Completed(c, r, Canceled);
      CompletedGrown(e, c, r, Canceled);
      HeadResets(e);
      if r.handler.CreateHandler? {
        var f := CreateFailed(d, ConnectCanceled);
        CreateFailedGrown(d, ConnectCanceled);
        GrownTwice(e, d, f);
        SameGrown(f, f.(broken := true));
        GrownTwice(e, f, f.(broken := true));
      } else {
        RequestsGrown(d);
        GrownTwice(e, d, CancelRequests(d));
      }
    }
  }

  lemma {:induction false} PendingsGrown(e: Engine)
    ensures Grown(e, CancelPendings(e))
    decreases Load(e), 2
  {
    hide Reset, Completed, Grown;
    SameGrown(e, e);
    if e.pendings != [] {
      var r, c := e.pendings[0], e.(pendings := e.pendings[1..]);
      var d := Completed(c, r, Canceled);
      CompletedGrown(e, c, r, Canceled);
      PendingResets(e);
      if r.handler.CreateHandler? {
        var f := CreateFailed(d, ConnectCanceled);
        CreateFailedGrown(d, ConnectCanceled);
        GrownTwice(e, d, f);
        SameGrown(f, f.(broken := true));
        GrownTwice(e, f, f.(broken := true));
      } else {
        PendingsGrown(d);
        GrownTwice(e, d, CancelPendings(d));
      }
    }
  }

  lemma {:induction false} CreateFailedGrown(e: Engine, status: ConnectStatus)
    ensures Grown(e, CreateFailed(e, status))
    decreases Load(e), 4
  {
    hide Reset, Grown;
    var s := Signaled(e, OnConnect(status));
    SameGrown(e, s);
    ResetGrown(s);
    GrownTwice(e, s, Reset(s));
    SameGrown(Reset(s), CreateFailed(e, status));
    GrownTwice(e, Reset(s), CreateFailed(e, status));
  }

  lemma TimeOutGrown(e: Engine, c: Engine, r: Item, now: int)
    requires c.history == e.history
    ensures Grown(e, TimeOut(c, r, now))
  {
    hide CreateFailed, Completed, Grown;
    var d := Completed(c, r, TimedOut(now));
    CompletedGrown(e, c, r, TimedOut(now));
    CreateFailedGrown(d, ConnectTimeout);
    GrownTwice(e, d, CreateFailed(d, ConnectTimeout));
  }

  lemma {:induction false} SweepRequestsGrown(e: Engine, k: nat, now: int)
    requires Sound(e) && Fresh(e.requests, k, now)
    ensures Grown(e, SweepRequests(e, k, now))
    decreases |e.requests| - k
  {
    hide Sound, TimeOut, Fallow, Expired, Grown;
    SameGrown(e, e);
    if k < |e.requests| {
      if !Expired(e.requests[k], now) {
        SweepRequestsGrown(e, k + 1, now);
      } else {
        var c := e.(requests := Cut(e.requests, k));
        var d := TimeOut(c, e.requests[k], now);
        TimeOutGrown(e, c, e.requests[k], now);
        TimedOutRequest(e, k, now);
        if !e.requests[k].handler.CreateHandler? {
          SweepRequestsGrown(d, k, now);
          GrownTwice(e, d, SweepRequests(d, k, now));
        } else {
          SameGrown(d, d.(broken := true));
          GrownTwice(e, d, d.(broken := true));
        }
      }
    }
  }

  lemma {:induction false} SweepPendingsGrown(e: Engine, k: nat, now: int)
    requires Sound(e) && Fresh(e.pendings, k, now)
    ensures Grown(e, SweepPendings(e, k, now))
    decreases |e.pendings| - k
  {
    hide Sound, TimeOut, Fallow, Expired, Grown;
    SameGrown(e, e);
    if k < |e.pendings| {
      if !Expired(e.pendings[k], now) {
        SweepPendingsGrown(e, k + 1, now);
      } else {
        var c := e.(pendings := Cut(e.pendings, k));
        var d := TimeOut(c, e.pendings[k], now);
        TimeOutGrown(e, c, e.pendings[k], now);
        TimedOutPending(e, k, now);
        if !e.pendings[k].handler.CreateHandler? {
          SweepPendingsGrown(d, k, now);
          GrownTwice(e, d, SweepPendings(d, k, now));
        } else {
          SameGrown(d, d.(broken := true));
          GrownTwice(e, d, d.(broken := true));
        }
      }
    }
  }

  lemma {:induction false} FlushGrown(e: Engine)
    ensures Grown(e, Flush(e))
    decreases |e.requests|
  {
    hide RequestText, CallbackOf, Mbus, Grown;
    SameGrown(e, e);
    if e.requests != [] {
      var r, d := e.requests[0], FlushOne(e);
      var c := e.(requests := e.requests[1..], outgoing := e.outgoing + [Frame(e.compression, RequestText(r))]);
      CompletedGrown(e, c, r, Sent);
      SameGrown(e, c.(pendings := c.pendings + [r]));
      FlushGrown(d);
      GrownTwice(e, d, Flush(d));
    }
  }

  lemma SendPingGrown(e: Engine, now: int)
    ensures Grown(e, SendPing(e, now).0)
  {
    hide Mbus;
  }

  lemma CheckPingGrown(e: Engine, now: int)
    ensures Grown(e, CheckPing(e, now).0)
  {
    hide Reset, Grown, SendPing, MissPong;
    SameGrown(e, e);
    if e.state.Connected? && e.ping.interval > 0 {
      SendPingGrown(e, now);
      var (d, ok) := if !e.ping.waiting && now > e.ping.sent + e.ping.interval then SendPing(e, now) else (e, true);
      var f := d.(ping := MissPong(d.ping, now));
      var s := Signaled(f, OnDisconnect(PingTimeout));
      SameGrown(d, f);
      GrownTwice(e, d, f);
      SameGrown(f, s);
      GrownTwice(e, f, s);
      ResetGrown(s);
      GrownTwice(e, s, Reset(s));
      SameGrown(Reset(s), Reset(s).(state := Retrying(f.settings)));
      GrownTwice(e, Reset(s), Reset(s).(state := Retrying(f.settings)));
    }
  }

  /** The end of a run of a connected client. */
  lemma FinishGrown(e: Engine, now: int)
    requires Sound(e) && e.state.Connected?
    ensures Grown(e, Finish(e, now).0)
  {
    hide Sound, CheckPing, SweepRequests, SweepPendings, Flush, Grown, Expired;
    CheckPingGrown(e, now);
    CheckPingSound(e, now);
    var (d, ok) := CheckPing(e, now);
    if ok && !d.broken {
      SweepRequestsGrown(d, 0, now);
      SweepRequestsSound(d, 0, now);
      var f := SweepRequests(d, 0, now);
      GrownTwice(e, d, f);
      if !f.broken {
        SweepPendingsGrown(f, 0, now);
        var g := SweepPendings(f, 0, now);
        GrownTwice(e, f, g);
        FlushGrown(g);
        GrownTwice(e, g, Flush(g));
      }
    }
  }

  /** A run in which the answer to a pending request arrives completes that request with it first of all, and
      calls back for it; whatever else the run does comes behind that. */
  lemma AnswerCompletes(e: Engine, input: Input, m: Incoming, json: Json, k: nat)
    requires Sound(e) && e.state.Connected? && e.socket
    requires input.poll.Ready? && !input.poll.closed && !input.poll.writeError && input.poll.messages == [m]
    requires Says(m, json, TYPE_RESULT) && FirstOf(e.pendings, k, IntAt(Some(json), TAG_SEQUENCE, -1))
    ensures
      var d := Run(e, input).0;
      exists b: Callback :: Reports(b, e.pendings[k], json)
        && |d.history.completed| > |e.history.completed|
        && d.history.completed[..|e.history.completed| + 1] == e.history.completed + [Completion(e.pendings[k], Answered(json))]
        && |d.history.callbacks| > |e.history.callbacks|
        && d.history.callbacks[..|e.history.callbacks| + 1] == e.history.callbacks + [b]
  {
    hide Sound, Receive, Finish, Run, Says, FirstOf, LookUp, Mbus, Reports;
    ResultReceived(e, m, json, input.now);
    var f := Receive(e, m, input.now).0;
    assert AnsweredAt(e, f, k, json);
    ReceiveKeepsSocket(e, m, input.now);
    ReceiveSound(e, m, input.now);
    var es := [e, f];
    assert input.poll.messages[..1] == [m];
    RunReads(e, input, es, 1);
    FinishGrown(f, input.now);
  }
}

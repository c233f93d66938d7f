/** The invariant of the client: every request it accepted is queued, pending or completed once; while
    it is connecting nothing but its own create request is under way; sequence numbers are drawn in
    turn; the ping record tells the truth. */
module ClientInvariant {
  import opened Options
  import opened Compress
  import opened JsonText
  import opened JsonPath
  import opened Methods
  import opened ClientState

  // ----- accounting -----

  function ItemsOf(completed: seq<Completion>): seq<Item> {
    seq(|completed|, i requires 0 <= i < |completed| => completed[i].item)
  }

  function CallbacksOf(completed: seq<Completion>): seq<Callback> {
    if completed == [] then []
    else
      var c := CallbackOf(completed[|completed| - 1]);
      CallbacksOf(completed[..|completed| - 1]) + if c.Some? then [c.value] else []
  }

  ghost predicate WellFormed(r: Item) {
    && r.kind in {TYPE_EVENT, TYPE_COMMAND} && r.timeout >= 0
    && (r.handler.CreateHandler? ==> r.kind == TYPE_COMMAND && r.identifier == "command.create")
  }

  /** Only events end by being sent; a command is answered only by a response that carries its sequence
      number; and nothing times out before its deadline. */
  ghost predicate Fits(r: Item, how: How) {
    match how
    case Sent => r.kind == TYPE_EVENT
    case Answered(response) => r.kind == TYPE_COMMAND && IntAt(Some(response), TAG_SEQUENCE, -1) == r.sequence
    case TimedOut(at) => at >= r.created + r.timeout
    case Canceled => true
  }

  ghost predicate WellCompleted(c: Completion) {
    WellFormed(c.item) && Fits(c.item, c.how)
  }

  ghost predicate HistoryOk(h: History) {
    && (forall i | 0 <= i < |h.accepted| :: h.accepted[i].serial == i)
    && (forall i | 0 <= i < |h.completed| :: WellCompleted(h.completed[i]))
    && h.callbacks == CallbacksOf(h.completed)
  }

  /** Every accepted request is in one place, and every completion called back as it should. */
  ghost predicate Accounted(e: Engine) {
    && multiset(e.history.accepted) == multiset(e.requests) + multiset(e.pendings) + multiset(ItemsOf(e.history.completed))
    && HistoryOk(e.history)
    && (forall i | 0 <= i < |e.requests| :: WellFormed(e.requests[i]))
    && (forall i | 0 <= i < |e.pendings| :: WellFormed(e.pendings[i]) && e.pendings[i].kind == TYPE_COMMAND)
  }

  lemma CompletedHistory(e: Engine, r: Item, how: How)
    requires HistoryOk(e.history) && WellCompleted(Completion(r, how))
    ensures
      var d := Completed(e, r, how);
      && HistoryOk(d.history) && d.history.accepted == e.history.accepted
      && multiset(ItemsOf(d.history.completed)) == multiset(ItemsOf(e.history.completed)) + multiset{r}
      && d == e.(history := d.history)
  {
    hide CallbackOf, WellCompleted;
    var d := Completed(e, r, how);
    var c := Completion(r, how);
    assert d.history.completed == e.history.completed + [c];
    assert d.history.completed[..|d.history.completed| - 1] == e.history.completed;
    assert ItemsOf(d.history.completed) == ItemsOf(e.history.completed) + [r];
    assert forall xs: seq<Callback> :: xs + [] == xs;
  }

  /** The k-th of a sequence taken out. */
  function Cut<T>(xs: seq<T>, k: nat): seq<T>
    requires k < |xs|
  {
    xs[..k] + xs[k + 1..]
  }

  lemma CutCounts<T>(xs: seq<T>, k: nat)
    requires k < |xs|
    ensures multiset(xs) == multiset(Cut(xs, k)) + multiset{xs[k]}
    ensures forall i | 0 <= i < |xs| - 1 :: Cut(xs, k)[i] == xs[if i < k then i else i + 1]
  {
    assert xs == xs[..k] + [xs[k]] + xs[k + 1..];
  }

  /** A request that leaves the queue of requests, completed. */
  lemma RequestCompleted(e: Engine, k: nat, how: How)
    requires Accounted(e) && k < |e.requests| && Fits(e.requests[k], how)
    ensures Accounted(Completed(e.(requests := Cut(e.requests, k)), e.requests[k], how))
  {
    hide CallbackOf, HistoryOk, Completed, Cut, ItemsOf;
    var d := e.(requests := Cut(e.requests, k));
    assert WellFormed(e.requests[k]);
    CutCounts(e.requests, k);
    CompletedHistory(d, e.requests[k], how);
    CutLength(e.requests, k);
    Traded(multiset(e.requests), multiset(d.requests), multiset(e.pendings), multiset(ItemsOf(e.history.completed)), e.requests[k]);
  }

  lemma CutLength<T>(xs: seq<T>, k: nat)
    requires k < |xs|
    ensures |Cut(xs, k)| == |xs| - 1
  {
  }

  lemma Traded(a: multiset<Item>, a': multiset<Item>, b: multiset<Item>, c: multiset<Item>, r: Item)
    requires a == a' + multiset{r}
    ensures a + b + c == a' + b + (c + multiset{r})
  {
  }

  lemma PendingCompleted(e: Engine, k: nat, how: How)
    requires Accounted(e) && k < |e.pendings| && Fits(e.pendings[k], how)
    ensures Accounted(Completed(e.(pendings := Cut(e.pendings, k)), e.pendings[k], how))
  {
    hide CallbackOf, HistoryOk, Completed, Cut, ItemsOf;
    var d := e.(pendings := Cut(e.pendings, k));
    assert WellFormed(e.pendings[k]);
    CutCounts(e.pendings, k);
    CompletedHistory(d, e.pendings[k], how);
    CutLength(e.pendings, k);
    TradedToo(multiset(e.requests), multiset(e.pendings), multiset(d.pendings), multiset(ItemsOf(e.history.completed)), e.pendings[k]);
  }

  lemma TradedToo(a: multiset<Item>, b: multiset<Item>, b': multiset<Item>, c: multiset<Item>, r: Item)
    requires b == b' + multiset{r}
    ensures a + b + c == a + b' + (c + multiset{r})
  {
  }

  // ----- reset -----

  ghost predicate NoCreates(e: Engine) {
    && (forall i | 0 <= i < |e.requests| :: !e.requests[i].handler.CreateHandler?)
    && (forall i | 0 <= i < |e.pendings| :: !e.pendings[i].handler.CreateHandler?)
  }

  /** The create request, if there is one, is alone. */
  ghost predicate Alone(e: Engine) {
    NoCreates(e) || Load(e) == 1
  }

  /** What a reset leaves of the connection: nothing. */
  ghost predicate Fallow(e: Engine) {
    && e.requests == [] && e.pendings == [] && !e.socket && !e.socketConnected && e.outgoing == []
    && e.sequence == START && e.draws == 0 && e.ping == NO_PING && e.compression == Uncompressed && e.identifier.None?
  }

  /** What a reset and its loops may do to the rest. */
  ghost predicate Resets(e: Engine, d: Engine) {
    && d.settings == e.settings && d.connectAt == e.connectAt && d.history.accepted == e.history.accepted
    && (Accounted(e) ==> Accounted(d))
    && (NoCreates(e) ==> d.state == e.state && d.history.signals == e.history.signals)
    && Load(d) <= Load(e)
  }

  lemma SameAccount(e: Engine, d: Engine)
    requires d.requests == e.requests && d.pendings == e.pendings && d.history.accepted == e.history.accepted
    requires d.history.completed == e.history.completed && d.history.callbacks == e.history.callbacks
    ensures Accounted(d) == Accounted(e)
  {
    hide ItemsOf, CallbacksOf;
  }

  /** The head of the queue of requests is canceled. */
  function HeadCanceled(e: Engine): Engine
    requires e.requests != []
  {
    Completed(e.(requests := e.requests[1..]), e.requests[0], Canceled)
  }

  function PendingCanceled(e: Engine): Engine
    requires e.pendings != []
  {
    Completed(e.(pendings := e.pendings[1..]), e.pendings[0], Canceled)
  }

  lemma HeadResets(e: Engine)
    requires e.requests != []
    ensures Resets(e, HeadCanceled(e)) && Load(HeadCanceled(e)) == Load(e) - 1
    ensures NoCreates(e) ==> NoCreates(HeadCanceled(e))
    ensures HeadCanceled(e) == e.(requests := e.requests[1..], history := HeadCanceled(e).history)
  {
    hide Accounted, CallbackOf, Cut;
    CutHead(e.requests);
    if Accounted(e) {
      RequestCompleted(e, 0, Canceled);
    }
  }

  lemma CutHead<T>(xs: seq<T>)
    requires xs != []
    ensures Cut(xs, 0) == xs[1..]
  {
  }

  lemma PendingResets(e: Engine)
    requires e.pendings != []
    ensures Resets(e, PendingCanceled(e)) && Load(PendingCanceled(e)) == Load(e) - 1
    ensures NoCreates(e) ==> NoCreates(PendingCanceled(e))
    ensures PendingCanceled(e) == e.(pendings := e.pendings[1..], history := PendingCanceled(e).history)
  {
    hide Accounted, CallbackOf, Cut;
    CutHead(e.pendings);
    if Accounted(e) {
      PendingCompleted(e, 0, Canceled);
    }
  }

  lemma ResetsTwice(e: Engine, d: Engine, f: Engine)
    requires Resets(e, d) && Resets(d, f) && (NoCreates(e) ==> NoCreates(d))
    ensures Resets(e, f)
  {
    hide Accounted, NoCreates, Load;
  }

  lemma CreateIsLoad(e: Engine)
    ensures Alone(e) && e.requests != [] && e.requests[0].handler.CreateHandler? ==> Load(e) == 1
    ensures Alone(e) && e.pendings != [] && e.pendings[0].handler.CreateHandler? ==> Load(e) == 1
    ensures e.requests != [] && e.requests[0].handler.CreateHandler? ==> !NoCreates(e)
    ensures e.pendings != [] && e.pendings[0].handler.CreateHandler? ==> !NoCreates(e)
  {
  }

  /** The connection is gone already. */
  ghost predicate Dark(e: Engine) {
    !e.socket && e.outgoing == []
  }

  lemma {:induction false} ResetResets(e: Engine)
    requires !e.broken
    ensures Resets(e, Reset(e)) && (Alone(e) ==> !Reset(e).broken) && (!Reset(e).broken ==> Fallow(Reset(e)))
    decreases Load(e), 3
  {
    hide Accounted, CancelRequests, CancelPendings;
    var u := Unplugged(e);
    SameAccount(e, u);
    RequestsCanceled(u);
    var a := CancelRequests(u);
    ResetsTwice(e, u, a);
    if !a.broken {
      PendingsCanceled(a);
      var b := CancelPendings(a);
      if !b.broken {
        SameAccount(b, Cleared(b));
      }
    }
  }

  lemma {:induction false} RequestsCanceled(e: Engine)
    requires !e.broken && Dark(e)
    ensures
      var d := CancelRequests(e);
      && Resets(e, d) && (Alone(e) ==> !d.broken && Alone(d)) && (NoCreates(e) ==> NoCreates(d))
      && (!d.broken ==> d.requests == [] && Dark(d))
    decreases Load(e), 1
  {
    hide Accounted, Completed, Reset;
    if e.requests != [] {
      var d := HeadCanceled(e);
      HeadResets(e);
      CreateIsLoad(e);
      if e.requests[0].handler.CreateHandler? {
        CreateFails(d, ConnectCanceled);
        SameAccount(CreateFailed(d, ConnectCanceled), CancelRequests(e));
      } else {
        RequestsCanceled(d);
        ResetsTwice(e, d, CancelRequests(d));
      }
    }
  }

  lemma {:induction false} PendingsCanceled(e: Engine)
    requires !e.broken && Dark(e) && e.requests == []
    ensures
      var d := CancelPendings(e);
      && Resets(e, d) && (Alone(e) ==> !d.broken) && (!d.broken ==> d.requests == [] == d.pendings && Dark(d))
    decreases Load(e), 2
  {
    hide Accounted, Completed, Reset;
    if e.pendings != [] {
      var d := PendingCanceled(e);
      PendingResets(e);
      CreateIsLoad(e);
      if e.pendings[0].handler.CreateHandler? {
        CreateFails(d, ConnectCanceled);
        SameAccount(CreateFailed(d, ConnectCanceled), CancelPendings(e));
      } else {
        PendingsCanceled(d);
        ResetsTwice(e, d, CancelPendings(d));
      }
    }
  }

  /** The create response handler after a failure: the client is reset and retries or rests. */
  lemma {:induction false} CreateFails(e: Engine, status: ConnectStatus)
    requires !e.broken
    ensures
      var d := CreateFailed(e, status);
      && d.settings == e.settings && d.connectAt == e.connectAt && d.history.accepted == e.history.accepted
      && (Accounted(e) ==> Accounted(d)) && Load(d) <= Load(e)
      && (Alone(e) ==> !d.broken) && (!d.broken ==> Fallow(d)) && d.state == Retrying(e.settings)
    decreases Load(e), 4
  {
    hide Accounted, Reset;
    var s := Signaled(e, OnConnect(status));
    SameAccount(e, s);
    ResetResets(s);
    SameAccount(Reset(s), CreateFailed(e, status));
  }

  // ----- the invariant -----

  /** Sequence numbers are drawn in turn, and the queues hold requests in the order of their draws. */
  ghost predicate Rising(q: seq<Item>, bound: nat) {
    && (forall i | 0 <= i < |q| :: q[i].draw < bound && q[i].sequence == Cyclic(q[i].draw))
    && (forall i, j | 0 <= i < j < |q| :: q[i].draw < q[j].draw)
  }

  ghost predicate Drawn(e: Engine) {
    Rising(e.pendings + e.requests, e.draws) && e.sequence == Cyclic(e.draws)
  }

  /** While the client is connecting its create request is all there is, and only once it has a
      connection; connected, there is none; disconnected, there is nothing. */
  ghost predicate Lonely(e: Engine) {
    && Alone(e)
    && (e.state.Connected? ==> NoCreates(e))
    && (e.state.Connecting? ==> Load(e) == 0 || (!NoCreates(e) && e.socket && e.socketConnected))
    && (e.state.Disconnected? ==> Load(e) == 0)
  }

  /** The ping record: pings are more than an interval apart, all but the last were missed for more than
      the timeout, and the last is either missed too or still waited for. */
  ghost predicate PingsOk(p: Ping) {
    && p.missed == |p.misses| && |p.pings| == |p.misses| + (if p.waiting then 1 else 0)
    && (p.pings != [] ==> p.sent == p.pings[|p.pings| - 1])
    && (forall k | 0 <= k < |p.misses| :: p.misses[k] > p.pings[k] + p.timeout)
    && (forall k | 0 < k < |p.pings| :: p.pings[k] > p.pings[k - 1] + p.interval)
  }

  ghost predicate Beating(e: Engine) {
    && PingsOk(e.ping)
    && (e.state.Connecting? || e.state.Disconnected? ==> e.ping.pings == [])
    && (e.state.Connected? && e.ping.interval > 0 ==> e.ping.missed <= e.ping.threshold || e.ping.missed == 0)
  }

  ghost predicate Sound(e: Engine) {
    !e.broken && Accounted(e) && Drawn(e) && Lonely(e) && Beating(e)
  }

  lemma StartSound(settings: Settings)
    ensures Sound(ClientState.Start(settings))
  {
    FallowSound(ClientState.Start(settings));
  }

  lemma FallowSound(e: Engine)
    requires Fallow(e) && Accounted(e) && !e.broken
    ensures Sound(e)
  {
    hide Accounted;
    assert e.pendings + e.requests == [];
  }

  /** A client that was reset, whatever state it is put in afterwards. */
  lemma ResetSound(e: Engine, d: Engine)
    requires Sound(e) && d == Reset(e).(state := d.state, history := d.history)
    requires d.history == Reset(e).history.(signals := d.history.signals)
    ensures Sound(d) && Fallow(d) && d.settings == e.settings
  {
    hide Accounted, Reset;
    ResetResets(e);
    SameAccount(Reset(e), d);
    FallowSound(d);
  }

  lemma SignaledSound(e: Engine, x: Signal)
    requires Sound(e)
    ensures Sound(Signaled(e, x))
  {
    hide Accounted, Rising, PingsOk;
    SameAccount(e, Signaled(e, x));
  }

  // ----- accepting requests -----

  lemma RisingAppend(q: seq<Item>, bound: nat, r: Item)
    requires Rising(q, bound) && r.draw == bound && r.sequence == Cyclic(bound)
    ensures Rising(q + [r], bound + 1)
  {
    hide Cyclic;
  }

  lemma EnqueuedAccounted(e: Engine, r: Item, d: Engine)
    requires Accounted(e) && WellFormed(r) && r.serial == |e.history.accepted|
    requires d.requests == e.requests + [r] && d.pendings == e.pendings
    requires d.history == e.history.(accepted := e.history.accepted + [r])
    ensures Accounted(d)
  {
    hide ItemsOf, CallbacksOf, WellCompleted;
    var a, b, c := multiset(e.requests), multiset(e.pendings), multiset(ItemsOf(e.history.completed));
    assert multiset(d.requests) == a + multiset{r};
    assert multiset(d.history.accepted) == a + b + c + multiset{r};
    assert a + b + c + multiset{r} == a + multiset{r} + b + c;
  }

  /** Who may queue what: the client its create request once it has a connection, everybody else
      anything else while it is connected. */
  ghost predicate MayQueue(e: Engine, handler: Handler) {
    if handler.CreateHandler? then e.state.Connecting? && Load(e) == 0 && e.socket && e.socketConnected
    else e.state.Connected?
  }

  lemma EnqueueSound(e: Engine, kind: string, destination: string, identifier: string, payload: Option<Json>,
                     handler: Handler, timeout: int, now: int)
    requires Sound(e) && kind in {TYPE_EVENT, TYPE_COMMAND} && MayQueue(e, handler)
    requires handler.CreateHandler? ==> kind == TYPE_COMMAND && identifier == "command.create"
    ensures Sound(Enqueue(e, kind, destination, identifier, payload, handler, timeout, now).0)
  {
    hide Accounted, Mbus, PingsOk, Rising, Cyclic, NextSequence;
    var (d, ok) := Enqueue(e, kind, destination, identifier, payload, handler, timeout, now);
    if ok {
      var r := d.requests[|e.requests|];
      EnqueuedAccounted(e, r, d);
      RisingAppend(e.pendings + e.requests, e.draws, r);
      assert d.pendings + d.requests == (e.pendings + e.requests) + [r];
      CyclicNext(e.draws);
    }
  }

  lemma CommandSound(e: Engine, handler: Handler, destination: string, command: string, payload: Option<Json>,
                     timeout: int, now: int)
    requires Sound(e) && !handler.CreateHandler? && command != "command.create"
    ensures Sound(Command(e, handler, destination, command, payload, timeout, now).0)
  {
    hide Sound, Mbus, Enqueue;
    if e.state.Connected? {
      EnqueueSound(e, TYPE_COMMAND, destination, command, payload, handler,
                   if timeout <= 0 then e.settings.commandTimeout else timeout, now);
    }
  }

  lemma PublishSound(e: Engine, destination: Option<string>, event: string, payload: Option<Json>, qos: Qos,
                     timeout: int, now: int)
    requires Sound(e)
    ensures Sound(Publish(e, destination, event, payload, qos, timeout, now).0)
  {
    hide Sound, Mbus, Enqueue, Command;
    if e.state.Connected? {
      var to := if destination.None? then SUBSCRIBERS else destination.value;
      var t := if timeout <= 0 then e.settings.publishTimeout else timeout;
      EnqueueSound(e, TYPE_EVENT, to, event, payload, UserHandler, t, now);
      CommandSound(e, EventHandler, SERVER, "command.event", Some(EventPayload(to, event, payload)), t, now);
    }
  }

  lemma RequestCreateSound(e: Engine, now: int)
    requires Sound(e) && MayQueue(e, CreateHandler)
    ensures var (d, ok) := RequestCreate(e, now); Sound(d) && (!ok ==> d == e)
  {
    hide Sound, Mbus, CreateData;
    EnqueueSound(e, TYPE_COMMAND, SERVER, "command.create", Some(CreateData(e.settings)), CreateHandler, e.settings.commandTimeout, now);
  }

  // ----- requests that leave their queue -----

  lemma RisingCut(q: seq<Item>, bound: nat, k: nat)
    requires Rising(q, bound) && k < |q|
    ensures Rising(Cut(q, k), bound)
  {
    hide Cyclic;
    CutCounts(q, k);
  }

  /** The queues after one request left them, by whatever way. */
  lemma LeavesSound(e: Engine, d: Engine, k: nat)
    requires Sound(e) && k < Load(e)
    requires d == e.(requests := d.requests, pendings := d.pendings, history := d.history, outgoing := d.outgoing)
    requires d.pendings + d.requests == Cut(e.pendings + e.requests, k) && Load(d) == Load(e) - 1
    requires Accounted(d)
    ensures Sound(d)
    ensures (e.pendings + e.requests)[k].handler.CreateHandler? ==> Load(d) == 0
  {
    hide Accounted, PingsOk, Cut;
    RisingCut(e.pendings + e.requests, e.draws, k);
    CreatesJoined(e);
    CreatesJoined(d);
    CutCounts(e.pendings + e.requests, k);
  }

  lemma CreatesJoined(e: Engine)
    ensures NoCreates(e) <==> forall i | 0 <= i < Load(e) :: !(e.pendings + e.requests)[i].handler.CreateHandler?
  {
    var q := e.pendings + e.requests;
    assert forall i | 0 <= i < |e.requests| :: e.requests[i] == q[|e.pendings| + i];
    assert forall i | 0 <= i < |e.pendings| :: e.pendings[i] == q[i];
    assert forall i | 0 <= i < |q| :: q[i] == if i < |e.pendings| then e.pendings[i] else e.requests[i - |e.pendings|];
  }

  lemma CutJoined<T>(a: seq<T>, b: seq<T>, k: nat)
    ensures k < |a| ==> Cut(a, k) + b == Cut(a + b, k) && (a + b)[k] == a[k]
    ensures k < |b| ==> a + Cut(b, k) == Cut(a + b, |a| + k) && (a + b)[|a| + k] == b[k]
  {
  }

  lemma RequestLeaves(e: Engine, k: nat, how: How)
    requires Sound(e) && k < |e.requests| && Fits(e.requests[k], how)
    ensures
      var d := Completed(e.(requests := Cut(e.requests, k)), e.requests[k], how);
      Sound(d) && (e.requests[k].handler.CreateHandler? ==> Load(d) == 0)
      && (e.requests[k].handler.CreateHandler? ==> Load(e) == 1)
  {
    hide Accounted, Sound, CallbackOf, Fits, Cut;
    SoundAccount(e);
    RequestCompleted(e, k, how);
    var d := Completed(e.(requests := Cut(e.requests, k)), e.requests[k], how);
    CutJoined(e.pendings, e.requests, k);
    CutLength(e.requests, k);
    LeavesSound(e, d, |e.pendings| + k);
  }

  lemma SoundAccount(e: Engine)
    requires Sound(e)
    ensures Accounted(e) && !e.broken && Alone(e)
  {
  }

  /** A response with the number of a pending request is one it can be completed with. */
  lemma ResponseFits(e: Engine, k: nat, response: Json)
    requires Sound(e) && k < |e.pendings| && IntAt(Some(response), TAG_SEQUENCE, -1) == e.pendings[k].sequence
    ensures Fits(e.pendings[k], Answered(response))
  {
    hide HistoryOk, ItemsOf, Rising, PingsOk, IntAt, Mbus;
  }

  lemma PendingLeaves(e: Engine, k: nat, how: How)
    requires Sound(e) && k < |e.pendings| && Fits(e.pendings[k], how)
    ensures
      var d := Completed(e.(pendings := Cut(e.pendings, k)), e.pendings[k], how);
      Sound(d) && (e.pendings[k].handler.CreateHandler? ==> Load(d) == 0)
      && (e.pendings[k].handler.CreateHandler? ==> Load(e) == 1)
  {
    hide Accounted, Sound, CallbackOf, Fits, Cut;
    SoundAccount(e);
    PendingCompleted(e, k, how);
    var d := Completed(e.(pendings := Cut(e.pendings, k)), e.pendings[k], how);
    CutJoined(e.pendings, e.requests, k);
    CutLength(e.pendings, k);
    LeavesSound(e, d, k);
  }

  lemma CreateFailedSound(e: Engine, status: ConnectStatus)
    requires Sound(e)
    ensures var d := CreateFailed(e, status); Sound(d) && Fallow(d) && d.settings == e.settings && d.state == Retrying(e.settings)
  {
    hide Sound, Reset;
    SignaledSound(e, OnConnect(status));
    ResetSound(Signaled(e, OnConnect(status)), CreateFailed(e, status));
  }
}

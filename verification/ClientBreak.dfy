/** The one way the client fails: a loop over its requests, of a reset or of a sweep, goes on with one that
    a reset inside the loop has freed. Exactly when that happens in a life of the client, whatever commands
    the application issues, and a life in which it does. */
module ClientBreak {
  import opened ClientState
  import opened ClientInvariant

  // ----- reset -----

  /** Behind the client's own create request there is another one in the queue. */
  ghost predicate Followed(items: seq<Item>) {
    exists i | 0 <= i < |items| - 1 :: items[i].handler.CreateHandler?
  }

  ghost predicate HasCreate(items: seq<Item>) {
    exists i | 0 <= i < |items| :: items[i].handler.CreateHandler?
  }

  lemma HeadFollowed(items: seq<Item>)
    requires items != []
    ensures Followed(items) <==> (items[0].handler.CreateHandler? && |items| > 1) || Followed(items[1..])
    ensures HasCreate(items) <==> items[0].handler.CreateHandler? || HasCreate(items[1..])
  {
    var rest := items[1..];
    if Followed(items) {
      var i :| 0 <= i < |items| - 1 && items[i].handler.CreateHandler?;
      assert i > 0 ==> rest[i - 1].handler.CreateHandler?;
    }
    if Followed(rest) {
      var i :| 0 <= i < |rest| - 1 && rest[i].handler.CreateHandler?;
      assert items[i + 1].handler.CreateHandler?;
    }
    if HasCreate(items) {
      var i :| 0 <= i < |items| && items[i].handler.CreateHandler?;
      assert i > 0 ==> rest[i - 1].handler.CreateHandler?;
    }
    if HasCreate(rest) {
      var i :| 0 <= i < |rest| && rest[i].handler.CreateHandler?;
      assert items[i + 1].handler.CreateHandler?;
    }
  }

  /** A reset fails exactly when the client's create request is not the last of its queue. */
  lemma {:induction false} ResetBreaks(e: Engine)
    requires !e.broken
    ensures Reset(e).broken <==> Followed(e.requests) || Followed(e.pendings)
    decreases Load(e), 3
  {
    hide CancelRequests, CancelPendings, Followed, HasCreate, Accounted;
    var u := Unplugged(e);
    RequestsBreak(u);
    RequestsCanceled(u);
    var a := CancelRequests(u);
    if !a.broken {
      PendingsBreak(a);
      NothingFollowed();
    }
  }

  lemma NothingFollowed()
    ensures !Followed([]) && !HasCreate([])
  {
  }

  lemma {:induction false} RequestsBreak(e: Engine)
    requires !e.broken && Dark(e)
    ensures
      var d := CancelRequests(e);
      && (d.broken <==> Followed(e.requests) || (HasCreate(e.requests) && Followed(e.pendings)))
      && (!d.broken ==> d.pendings == if HasCreate(e.requests) then [] else e.pendings)
    decreases Load(e), 1
  {
    hide Followed, HasCreate, Completed, Reset, Accounted;
    NothingFollowed();
    if e.requests != [] {
      var d := HeadCanceled(e);
      HeadResets(e);
      HeadFollowed(e.requests);
      if e.requests[0].handler.CreateHandler? {
        ResetBreaks(Signaled(d, OnConnect(ConnectCanceled)));
        CreateFails(d, ConnectCanceled);
      } else {
        RequestsBreak(d);
      }
    }
  }

  lemma {:induction false} PendingsBreak(e: Engine)
    requires !e.broken && Dark(e) && e.requests == []
    ensures CancelPendings(e).broken <==> Followed(e.pendings)
    decreases Load(e), 2
  {
    hide Followed, HasCreate, Completed, Reset, Accounted;
    NothingFollowed();
    if e.pendings != [] {
      var d := PendingCanceled(e);
      PendingResets(e);
      HeadFollowed(e.pendings);
      if e.pendings[0].handler.CreateHandler? {
        ResetBreaks(Signaled(d, OnConnect(ConnectCanceled)));
        CreateFails(d, ConnectCanceled);
      } else {
        PendingsBreak(d);
      }
    }
  }

  // ----- sweeps -----

  /** The deadline of the request is over. */
  ghost predicate DueAt(r: Item, now: int) {
    r.timeout >= 0 && now >= r.created + r.timeout
  }

  /** The client's create request is past its deadline and not the last of its queue. */
  ghost predicate Overtaken(items: seq<Item>, k: nat, now: int) {
    exists i | k <= i < |items| - 1 :: items[i].handler.CreateHandler? && DueAt(items[i], now)
  }

  /** There is at most one create request of the client's own. */
  ghost predicate Lone(e: Engine) {
    var q := e.pendings + e.requests;
    forall i, j | 0 <= i < j < |q| :: !(q[i].handler.CreateHandler? && q[j].handler.CreateHandler?)
  }

  lemma LoneIs(e: Engine)
    requires Lone(e)
    ensures forall i, j | 0 <= i < j < |e.requests| :: !(e.requests[i].handler.CreateHandler? && e.requests[j].handler.CreateHandler?)
    ensures forall i, j | 0 <= i < j < |e.pendings| :: !(e.pendings[i].handler.CreateHandler? && e.pendings[j].handler.CreateHandler?)
    ensures forall i, j | 0 <= i < |e.pendings| && 0 <= j < |e.requests| ::
      !(e.pendings[i].handler.CreateHandler? && e.requests[j].handler.CreateHandler?)
  {
    var q, n := e.pendings + e.requests, |e.pendings|;
    forall j | 0 <= j < |e.requests| ensures q[n + j] == e.requests[j] {}
    forall i | 0 <= i < n ensures q[i] == e.pendings[i] {}
    forall i, j | 0 <= i < j < |e.requests| ensures !(e.requests[i].handler.CreateHandler? && e.requests[j].handler.CreateHandler?) {
      assert !(q[n + i].handler.CreateHandler? && q[n + j].handler.CreateHandler?);
    }
    forall i, j | 0 <= i < n && 0 <= j < |e.requests| ensures !(e.pendings[i].handler.CreateHandler? && e.requests[j].handler.CreateHandler?) {
      assert !(q[i].handler.CreateHandler? && q[n + j].handler.CreateHandler?);
    }
  }

  lemma LoneCut(q: seq<Item>, k: nat)
    requires k < |q| && forall i, j | 0 <= i < j < |q| :: !(q[i].handler.CreateHandler? && q[j].handler.CreateHandler?)
    ensures forall i, j | 0 <= i < j < |q| - 1 :: !(Cut(q, k)[i].handler.CreateHandler? && Cut(q, k)[j].handler.CreateHandler?)
    ensures q[k].handler.CreateHandler? ==> forall i | 0 <= i < |q| - 1 :: !Cut(q, k)[i].handler.CreateHandler?
  {
    hide Cut;
    CutCounts(q, k);
  }

  /** One request less. */
  lemma LoneLess(e: Engine, d: Engine, k: nat)
    requires Lone(e) && k < Load(e) && d.pendings + d.requests == Cut(e.pendings + e.requests, k)
    ensures Lone(d) && ((e.pendings + e.requests)[k].handler.CreateHandler? ==> NoCreates(d))
  {
    hide Cut, NoCreates;
    CutLength(e.pendings + e.requests, k);
    LoneCut(e.pendings + e.requests, k);
    CreatesJoined(d);
  }

  lemma RequestLess(e: Engine, k: nat)
    requires Lone(e) && k < |e.requests|
    ensures var d := e.(requests := Cut(e.requests, k)); Lone(d) && (e.requests[k].handler.CreateHandler? ==> NoCreates(d))
  {
    hide Lone, NoCreates;
    var d := e.(requests := Cut(e.requests, k));
    assert d.pendings + d.requests == Cut(e.pendings + e.requests, |e.pendings| + k);
    LoneLess(e, d, |e.pendings| + k);
  }

  lemma PendingLess(e: Engine, k: nat)
    requires Lone(e) && k < |e.pendings|
    ensures var d := e.(pendings := Cut(e.pendings, k)); Lone(d) && (e.pendings[k].handler.CreateHandler? ==> NoCreates(d))
  {
    hide Lone, NoCreates;
    var d := e.(pendings := Cut(e.pendings, k));
    assert d.pendings + d.requests == Cut(e.pendings + e.requests, k);
    LoneLess(e, d, k);
  }

  lemma CutOvertaken(items: seq<Item>, k: nat, now: int)
    requires k < |items| && !items[k].handler.CreateHandler?
    ensures Overtaken(Cut(items, k), k, now) <==> Overtaken(items, k, now)
  {
    hide Cut, DueAt;
    CutCounts(items, k);
    CutLength(items, k);
    if Overtaken(items, k, now) {
      var i :| k <= i < |items| - 1 && items[i].handler.CreateHandler? && DueAt(items[i], now);
      assert Cut(items, k)[i - 1] == items[i];
    }
    if Overtaken(Cut(items, k), k, now) {
      var i :| k <= i < |items| - 2 && Cut(items, k)[i].handler.CreateHandler? && DueAt(Cut(items, k)[i], now);
      assert items[i + 1] == Cut(items, k)[i];
    }
  }

  lemma NextOvertaken(items: seq<Item>, k: nat, now: int)
    requires k < |items| && !DueAt(items[k], now)
    ensures Overtaken(items, k + 1, now) <==> Overtaken(items, k, now)
  {
    hide DueAt;
    if Overtaken(items, k, now) {
      var i :| k <= i < |items| - 1 && items[i].handler.CreateHandler? && DueAt(items[i], now);
      assert i != k;
    }
  }

  /** The k-th is the one create request, and it is past its deadline. */
  lemma LoneOvertaken(items: seq<Item>, k: nat, now: int)
    requires k < |items| && items[k].handler.CreateHandler? && DueAt(items[k], now)
    requires forall i, j | 0 <= i < j < |items| :: !(items[i].handler.CreateHandler? && items[j].handler.CreateHandler?)
    ensures Overtaken(items, k, now) <==> k < |items| - 1
  {
    hide DueAt;
    if Overtaken(items, k, now) {
      var i :| k <= i < |items| - 1 && items[i].handler.CreateHandler? && DueAt(items[i], now);
      assert i == k;
    }
  }

  lemma QueuesOf(e: Engine, r: Item, how: How)
    ensures Completed(e, r, how) == e.(history := Completed(e, r, how).history)
  {
  }

  /** The end of a request that timed out and was not the create request, or was the only one. */
  lemma TimeOutLone(e: Engine, r: Item, now: int)
    requires !e.broken && (r.handler.CreateHandler? ==> NoCreates(e))
    ensures var d := TimeOut(e, r, now);
      && !d.broken && (!r.handler.CreateHandler? ==> d == e.(history := d.history))
      && (r.handler.CreateHandler? ==> Fallow(d) && d.settings == e.settings && d.state == Retrying(e.settings))
  {
    hide CreateFailed, Completed, Fallow;
    QueuesOf(e, r, TimedOut(now));
    CreateFails(Completed(e, r, TimedOut(now)), ConnectTimeout);
  }

  lemma LoneHistory(e: Engine, d: Engine)
    requires d.pendings == e.pendings && d.requests == e.requests
    ensures Lone(d) == Lone(e) && NoCreates(d) == NoCreates(e)
  {
  }

  /** What a sweep leaves if it does not fail. */
  ghost predicate Swept(e: Engine, d: Engine) {
    || (Fallow(d) && d.settings == e.settings && d.state == Retrying(e.settings))
    || (d == e.(requests := d.requests, pendings := d.pendings, history := d.history)
        && (forall r :: r in d.requests ==> r in e.requests) && (forall r :: r in d.pendings ==> r in e.pendings))
  }

  /** A sweep of the requests fails exactly when the create request among them is past its deadline and not
      the last. */
  lemma {:induction false} SweepRequestsBreaks(e: Engine, k: nat, now: int)
    requires !e.broken && Lone(e)
    ensures var d := SweepRequests(e, k, now);
      && (d.broken <==> Overtaken(e.requests, k, now))
      && (d.broken ==> !d.socket)
      && (!d.broken ==> Swept(e, d) && Lone(d) && (d.pendings == e.pendings || (d.pendings == [] && HasCreate(e.requests))))
    decreases |e.requests| - k
  {
    hide Lone, TimeOut, Fallow, NoCreates;
    if k < |e.requests| {
      LoneIs(e);
      if !Expired(e.requests[k], now) {
        NextOvertaken(e.requests, k, now);
        SweepRequestsBreaks(e, k + 1, now);
      } else {
        var r, rest := e.requests[k], Cut(e.requests, k);
        RequestLess(e, k);
        CutCounts(e.requests, k);
        TimeOutLone(e.(requests := rest), r, now);
        var d := TimeOut(e.(requests := rest), r, now);
        if r.handler.CreateHandler? {
          LoneOvertaken(e.requests, k, now);
          FallowLone(d);
        } else {
          CutOvertaken(e.requests, k, now);
          LoneHistory(e.(requests := rest), d);
          SweepRequestsBreaks(d, k, now);
          CutSubset(e.requests, k);
          CreateIn(e.requests, rest);
        }
      }
    }
  }

  lemma CutSubset(items: seq<Item>, k: nat)
    requires k < |items|
    ensures forall r :: r in Cut(items, k) ==> r in items
  {
  }

  lemma CreateIn(items: seq<Item>, rest: seq<Item>)
    requires forall r :: r in rest ==> r in items
    ensures HasCreate(rest) ==> HasCreate(items)
  {
    if HasCreate(rest) {
      var i :| 0 <= i < |rest| && rest[i].handler.CreateHandler?;
      assert rest[i] in items;
    }
  }

  lemma FallowLone(e: Engine)
    requires Fallow(e)
    ensures Lone(e) && NoCreates(e) && !e.socket && e.requests == [] && e.pendings == []
  {
  }

  /** So does a sweep of the pending ones. */
  lemma {:induction false} SweepPendingsBreaks(e: Engine, k: nat, now: int)
    requires !e.broken && Lone(e)
    ensures var d := SweepPendings(e, k, now);
      && (d.broken <==> Overtaken(e.pendings, k, now))
      && (d.broken ==> !d.socket)
      && (!d.broken ==> Swept(e, d) && Lone(d))
    decreases |e.pendings| - k
  {
    hide Lone, TimeOut, Fallow, NoCreates;
    if k < |e.pendings| {
      LoneIs(e);
      if !Expired(e.pendings[k], now) {
        NextOvertaken(e.pendings, k, now);
        SweepPendingsBreaks(e, k + 1, now);
      } else {
        var r, rest := e.pendings[k], Cut(e.pendings, k);
        PendingLess(e, k);
        CutCounts(e.pendings, k);
        TimeOutLone(e.(pendings := rest), r, now);
        var d := TimeOut(e.(pendings := rest), r, now);
        if r.handler.CreateHandler? {
          LoneOvertaken(e.pendings, k, now);
          FallowLone(d);
        } else {
          CutOvertaken(e.pendings, k, now);
          LoneHistory(e.(pendings := rest), d);
          SweepPendingsBreaks(d, k, now);
          CutSubset(e.pendings, k);
        }
      }
    }
  }
}

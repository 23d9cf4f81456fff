/**
 * The NATS filters together with the client they share: each filter relays one
 * request, replies when it is called back, and cancels when it is destroyed with
 * its handle still in place.  A reply may destroy the filter before it returns.
 */
module NatsSystem {
  import opened Common
  import opened NatsModel
  import R = NatsRuns

  /** `relayed` is the request the filter made; `handle` is its in_flight_request_; `replies` are HTTP status codes. */
  datatype Filter = Filter(relayed: Option<string>, handle: Option<string>, replies: seq<nat>, alive: bool)

  datatype System = System(w: R.World, filters: seq<Filter>)

  datatype Event =
    | Open
    | Relay(i: nat, subject: string, payload: string, clusterId: string, discoverPrefix: string)
    | Server(text: string, order: seq<string>, destroys: bool)
    | Expire(inbox: string, dies: bool)
    | Destroy(j: nat)

  /** onDestroy; the second part is the request it cancels, if any. */
  function OnDestroy(f: Filter): (Filter, Option<string>) {
    (f.(handle := None, alive := false), f.handle)
  }

  /** onResponse, onFailure and onTimeout reply with OK, InternalServerError and RequestTimeout. */
  function StatusOf(kind: Kind): nat {
    match kind case Response => 200 case Failed => 500 case TimedOut => 408
  }

  /** onCompletion: the handle goes first, then the reply, which may destroy the filter. */
  function OnCompletion(f: Filter, status: nat, destroys: bool): (Filter, Option<string>) {
    var f1 := f.(handle := None);
    var f2 := f1.(replies := f1.replies + [status]);
    if destroys then OnDestroy(f2) else (f2, None)
  }

  /** A callback never re-enters the client: the destruction it may cause has no handle left to cancel. */
  lemma CompletionCancelsNothing(f: Filter, status: nat, destroys: bool)
    ensures OnCompletion(f, status, destroys).1 == None
    ensures OnCompletion(f, status, destroys).0.replies == f.replies + [status]
  {
  }

  /**
   * A callback may also destroy other filters, whose cancels then reach the client before
   * it erases the request called back.  That is as if they were destroyed right after.
   */
  lemma CancelInCallback(c: Client, x: string, kind: Kind, y: string)
    requires x in c.inFlight && y != x && c.phase.Connected?
    ensures var called := NatsModel.Notify(c, x, kind);
            Erase(Cancel(called, y), x) == Cancel(Erase(called, x), y)
  {
    var m := c.inFlight;
    assert m - {y} - {x} == m - {x} - {y};
  }

  predicate Called(w: R.World, x: string) {
    x in R.CalledInboxes(w.c.called)
  }

  /** The statuses of the callbacks for x, in their order. */
  function StatusesFor(called: seq<Callback>, x: string): seq<nat> {
    if called == [] then []
    else
      var last := called[|called| - 1];
      StatusesFor(called[..|called| - 1], x) + if last.inbox == x then [StatusOf(last.kind)] else []
  }

  lemma StatusesAppend(called: seq<Callback>, cb: Callback, x: string)
    ensures StatusesFor(called + [cb], x) == StatusesFor(called, x) + if cb.inbox == x then [StatusOf(cb.kind)] else []
  {
    assert (called + [cb])[..|called|] == called;
  }

  /** A request that is called back once at most has one status at most. */
  lemma {:induction false} StatusesOnce(called: seq<Callback>, x: string)
    requires forall i, j :: 0 <= i < j < |called| ==> called[i].inbox != called[j].inbox
    ensures |StatusesFor(called, x)| == R.Count(x in R.CalledInboxes(called))
    decreases |called|
  {
    if called != [] {
      var front, last := called[..|called| - 1], called[|called| - 1];
      StatusesOnce(front, x);
      assert called == front + [last];
      R.CalledAppend(front, last);
      forall cb | cb in front
        ensures cb.inbox != last.inbox
      {
        var i :| 0 <= i < |front| && front[i] == cb;
        assert called[i] == cb;
      }
    }
  }

  lemma {:induction false} UncalledHasNone(called: seq<Callback>, x: string)
    requires x !in R.CalledInboxes(called)
    ensures StatusesFor(called, x) == []
    decreases |called|
  {
    if called != [] {
      var front, last := called[..|called| - 1], called[|called| - 1];
      assert called == front + [last];
      R.CalledAppend(front, last);
      UncalledHasNone(front, x);
    }
  }

  predicate Settled(w: R.World, x: string) {
    Called(w, x) || x in w.withdrawn || x in w.aborted || x in w.dropped
  }

  ghost predicate FilterOk(s: System, i: nat)
    requires i < |s.filters|
  {
    var f := s.filters[i];
    match f.relayed
    case None => f.handle == None && f.replies == []
    case Some(x) =>
      && x in s.w.requests && s.w.requests[x].p.callbacks == i
      && f.handle == (if f.alive && !Called(s.w, x) then Some(x) else None)
      && f.replies == StatusesFor(s.w.c.called, x)
      && (!f.alive ==> Settled(s.w, x))
  }

  ghost predicate Inv(env: Env, s: System) {
    && R.Inv(env, s.w)
    && (forall x :: x in s.w.requests ==>
          s.w.requests[x].p.callbacks < |s.filters| && s.filters[s.w.requests[x].p.callbacks].relayed == Some(x))
    && forall i :: 0 <= i < |s.filters| ==> FilterOk(s, i)
  }

  ghost predicate Enabled(env: Env, s: System, e: Event) {
    match e
    case Open => true
    case Relay(i, subject, payload, clusterId, discoverPrefix) =>
      && i < |s.filters| && s.filters[i].alive && s.filters[i].relayed.None?
      && R.Enabled(env, s.w, R.Publish(Pending(subject, payload, i), clusterId, discoverPrefix))
    case Server(text, order, _) => R.Enabled(env, s.w, R.Line(text, order))
    case Expire(inbox, _) => inbox in s.w.c.timers
    case Destroy(j) => j < |s.filters| && s.filters[j].alive
  }

  /** The client moves; a callback it makes reaches the filter it is for. */
  function Notify(s: System, w: R.World, destroys: bool): System {
    var n := |s.w.c.called|;
    if |w.c.called| > n && w.c.called[n].callbacks < |s.filters| then
      var i := w.c.called[n].callbacks;
      System(w, s.filters[i := OnCompletion(s.filters[i], StatusOf(w.c.called[n].kind), destroys).0])
    else s.(w := w)
  }

  function Step(env: Env, s: System, e: Event): System
    requires Inv(env, s) && Enabled(env, s, e)
  {
    match e
    case Open => s.(filters := s.filters + [Filter(None, None, [], true)])
    case Relay(i, subject, payload, clusterId, discoverPrefix) =>
      var inbox := PubAckInbox(env, s.w.c.drawn);
      s.(w := R.Step(env, s.w, R.Publish(Pending(subject, payload, i), clusterId, discoverPrefix)),
         filters := s.filters[i := s.filters[i].(relayed := Some(inbox), handle := Some(inbox))])
    case Server(text, order, destroys) => Notify(s, R.Step(env, s.w, R.Line(text, order)), destroys)
    case Expire(inbox, dies) => Notify(s, R.Step(env, s.w, R.Timeout(inbox)), dies)
    case Destroy(j) =>
      var (f, cancels) := OnDestroy(s.filters[j]);
      s.(w := match cancels case Some(x) => R.Step(env, s.w, R.CancelRequest(x)) case None => s.w,
         filters := s.filters[j := f])
  }

  // ---------- What a client step can do to the story ----------

  /** One step calls back at most once, and then a request that was in flight. */
  ghost predicate CallsAtMostOne(w: R.World, r: R.World) {
    && r.requests == w.requests && r.withdrawn == w.withdrawn && r.aborted == w.aborted && w.dropped <= r.dropped
    && (r.c.called == w.c.called
        || exists x, kind :: x in w.c.inFlight && r.c.called == w.c.called + [Callback(x, w.c.inFlight[x], kind)])
  }

  lemma {:induction false} FlushCallsNobody(env: Env, c: Client, pending: map<string, Pending>, order: seq<string>)
    requires c.pubPrefix.Some? && forall x :: x in order ==> x in pending
    ensures Flush(env, c, pending, order).called == c.called
    decreases |order|
  {
    if order != [] {
      FlushCallsNobody(env, PubPubMsg(env, c, pending[order[0]], order[0]), pending, order[1..]);
    }
  }

  lemma OperationCallsNobody(env: Env, c: Client, line: string)
    requires Tokens(line) != []
    ensures OnOperation(env, c, line).0.called == c.called
  {
  }

  lemma AckCallsAtMostOne(env: Env, c: Client, inbox: string, replyTo: Option<string>, payload: string)
    ensures var r := OnPubAck(env, c, inbox, replyTo, payload);
            || r.called == c.called
            || (inbox in c.inFlight
                && r.called == c.called + [Callback(inbox, c.inFlight[inbox], AckKind(env, payload))])
  {
  }

  lemma LineCallsAtMostOne(env: Env, w: R.World, text: string, order: seq<string>)
    requires R.Inv(env, w) && R.Enabled(env, w, R.Line(text, order))
    ensures CallsAtMostOne(w, R.Step(env, w, R.Line(text, order)))
  {
    if w.c.waiting.None? {
      OperationCallsNobody(env, w.c, text);
    } else if w.c.waiting.value.subject != HeartbeatInbox(env) {
      var frame := w.c.waiting.value;
      if frame.subject != ConnectInbox(env) {
        AckCallsAtMostOne(env, w.c, frame.subject, frame.replyTo, text);
      } else if frame.replyTo.None? && text != "" {
        FlushCallsNobody(env, w.c.(phase := Connected, pubPrefix := Some(env.prefixOf(text))), w.c.pending, order);
      }
    }
  }

  lemma QuietKeepsInv(env: Env, s: System, w: R.World, destroys: bool)
    requires Inv(env, s) && R.Inv(env, w) && CallsAtMostOne(s.w, w) && w.c.called == s.w.c.called
    ensures Inv(env, Notify(s, w, destroys))
  {
    forall i | 0 <= i < |s.filters|
      ensures FilterOk(Notify(s, w, destroys), i)
    {
      assert FilterOk(s, i);
    }
  }

  /** The filter whose request is called back was alive and waiting; the others are not concerned. */
  lemma CalledFilter(env: Env, s: System, w: R.World, destroys: bool, x: string, kind: Kind, i: nat)
    requires Inv(env, s) && CallsAtMostOne(s.w, w) && x in s.w.c.inFlight && i < |s.filters|
    requires w.c.called == s.w.c.called + [Callback(x, s.w.c.inFlight[x], kind)]
    ensures |Notify(s, w, destroys).filters| == |s.filters| && FilterOk(Notify(s, w, destroys), i)
    ensures Notify(s, w, destroys).filters[i].relayed == s.filters[i].relayed
  {
    R.CalledAppend(s.w.c.called, Callback(x, s.w.c.inFlight[x], kind));
    if s.filters[i].relayed.Some? {
      StatusesAppend(s.w.c.called, Callback(x, s.w.c.inFlight[x], kind), s.filters[i].relayed.value);
    }
    assert R.Fates(s.w, x) == 1;
    assert FilterOk(s, s.w.requests[x].p.callbacks);
    assert FilterOk(s, i);
  }

  lemma CallKeepsInv(env: Env, s: System, w: R.World, destroys: bool, x: string, kind: Kind)
    requires Inv(env, s) && R.Inv(env, w) && CallsAtMostOne(s.w, w) && x in s.w.c.inFlight
    requires w.c.called == s.w.c.called + [Callback(x, s.w.c.inFlight[x], kind)]
    ensures Inv(env, Notify(s, w, destroys))
  {
    forall i | 0 <= i < |s.filters|
      ensures FilterOk(Notify(s, w, destroys), i)
      ensures Notify(s, w, destroys).filters[i].relayed == s.filters[i].relayed
    {
      CalledFilter(env, s, w, destroys, x, kind, i);
    }
  }

  lemma NotifyKeepsInv(env: Env, s: System, w: R.World, destroys: bool)
    requires Inv(env, s) && R.Inv(env, w) && CallsAtMostOne(s.w, w)
    ensures Inv(env, Notify(s, w, destroys))
  {
    if w.c.called == s.w.c.called {
      QuietKeepsInv(env, s, w, destroys);
    } else {
      var x, kind :| x in s.w.c.inFlight && w.c.called == s.w.c.called + [Callback(x, s.w.c.inFlight[x], kind)];
      CallKeepsInv(env, s, w, destroys, x, kind);
    }
  }

  lemma RelayKeepsInv(env: Env, s: System, e: Event)
    requires Inv(env, s) && Enabled(env, s, e) && e.Relay?
    ensures Inv(env, Step(env, s, e))
  {
    var r := Step(env, s, e);
    var inbox := PubAckInbox(env, s.w.c.drawn);
    R.StepKeepsInv(env, s.w, R.Publish(Pending(e.subject, e.payload, e.i), e.clusterId, e.discoverPrefix));
    assert R.Fates(s.w, inbox) == 0;
    assert r.w.c.called == s.w.c.called;
    UncalledHasNone(s.w.c.called, inbox);
    forall i | 0 <= i < |r.filters|
      ensures FilterOk(r, i)
    {
      assert FilterOk(s, i);
      if i != e.i {
        UntouchedFilter(s, r, i);
      }
    }
  }

  /** What destroying a filter does to the client: nothing, or one cancel of a live request. */
  lemma DestroyedWorld(env: Env, s: System, j: nat)
    requires Inv(env, s) && Enabled(env, s, Destroy(j))
    ensures var r := Step(env, s, Destroy(j)).w;
            && R.Inv(env, r) && r.c.called == s.w.c.called && r.requests == s.w.requests
            && s.w.withdrawn <= r.withdrawn && s.w.aborted <= r.aborted && s.w.dropped <= r.dropped
            && match s.filters[j].handle
               case Some(x) => x in r.withdrawn || x in r.aborted || x in r.dropped
               case None => true
  {
    assert FilterOk(s, j);
    match s.filters[j].handle {
      case None =>
      case Some(x) =>
        R.StepKeepsInv(env, s.w, R.CancelRequest(x));
        R.CancelSettles(env, s.w, x);
    }
  }

  /** A filter's story depends on the client only through the calls and the settled requests. */
  lemma UntouchedFilter(s: System, r: System, i: nat)
    requires i < |s.filters| == |r.filters| && r.filters[i] == s.filters[i] && FilterOk(s, i)
    requires r.w.c.called == s.w.c.called
    requires forall x :: x in s.w.requests ==> x in r.w.requests && r.w.requests[x] == s.w.requests[x]
    requires s.w.withdrawn <= r.w.withdrawn && s.w.aborted <= r.w.aborted && s.w.dropped <= r.w.dropped
    ensures FilterOk(r, i)
  {
  }

  lemma DestroyKeepsInv(env: Env, s: System, j: nat)
    requires Inv(env, s) && Enabled(env, s, Destroy(j))
    ensures Inv(env, Step(env, s, Destroy(j)))
  {
    var r := Step(env, s, Destroy(j));
    DestroyedWorld(env, s, j);
    assert FilterOk(s, j);
    forall i | 0 <= i < |r.filters|
      ensures FilterOk(r, i)
    {
      if i != j {
        UntouchedFilter(s, r, i);
      }
    }
  }

  lemma StepKeepsInv(env: Env, s: System, e: Event)
    requires Inv(env, s) && Enabled(env, s, e)
    ensures Inv(env, Step(env, s, e))
  {
    match e
    case Open =>
      var r := Step(env, s, e);
      forall i | 0 <= i < |r.filters|
        ensures FilterOk(r, i)
      {
        if i < |s.filters| {
          assert FilterOk(s, i);
        }
      }
    case Relay(_, _, _, _, _) => RelayKeepsInv(env, s, e);
    case Server(text, order, destroys) =>
      R.StepKeepsInv(env, s.w, R.Line(text, order));
      LineCallsAtMostOne(env, s.w, text, order);
      NotifyKeepsInv(env, s, R.Step(env, s.w, R.Line(text, order)), destroys);
    case Expire(inbox, dies) =>
      R.StepKeepsInv(env, s.w, R.Timeout(inbox));
      assert R.Step(env, s.w, R.Timeout(inbox)).c.called
          == s.w.c.called + [Callback(inbox, s.w.c.inFlight[inbox], TimedOut)];
      NotifyKeepsInv(env, s, R.Step(env, s.w, R.Timeout(inbox)), dies);
    case Destroy(j) => DestroyKeepsInv(env, s, j);
  }

  ghost predicate Legal(env: Env, s: System, events: seq<Event>)
    requires Inv(env, s)
    decreases |events|
  {
    events != [] ==>
      && Enabled(env, s, events[0])
      && (StepKeepsInv(env, s, events[0]); Legal(env, Step(env, s, events[0]), events[1..]))
  }

  ghost function Run(env: Env, s: System, events: seq<Event>): System
    requires Inv(env, s) && Legal(env, s, events)
    decreases |events|
  {
    if events == [] then s
    else StepKeepsInv(env, s, events[0]); Run(env, Step(env, s, events[0]), events[1..])
  }

  lemma {:induction false} RunKeepsInv(env: Env, s: System, events: seq<Event>)
    requires Inv(env, s) && Legal(env, s, events)
    ensures Inv(env, Run(env, s, events))
    decreases |events|
  {
    if events != [] {
      StepKeepsInv(env, s, events[0]);
      RunKeepsInv(env, Step(env, s, events[0]), events[1..]);
    }
  }

  lemma StartInv(env: Env)
    ensures Inv(env, System(R.START, []))
  {
    R.StartInv(env);
  }

  /**
   * In every run a filter replies at most once, and exactly when its own request has
   * been called back; it holds a handle exactly while it is alive and has not been,
   * so a cancel never names a request that has been called back.  A filter whose
   * request was ended by a malformed ack keeps its handle and has no reply coming.
   */
  lemma FiltersReplyOnce(env: Env, events: seq<Event>, i: nat)
    requires Inv(env, System(R.START, [])) && Legal(env, System(R.START, []), events)
    requires i < |Run(env, System(R.START, []), events).filters|
    ensures var r := Run(env, System(R.START, []), events);
            var f := r.filters[i];
            && |f.replies| <= 1
            && (|f.replies| == 1 <==> f.relayed.Some? && Called(r.w, f.relayed.value))
            && (f.handle.Some? ==> f.alive && f.handle == f.relayed && !Called(r.w, f.handle.value))
            && (f.alive && f.relayed.Some? && f.relayed.value in r.w.dropped ==>
                  f.handle == f.relayed && f.replies == [])
  {
    RunKeepsInv(env, System(R.START, []), events);
    var r := Run(env, System(R.START, []), events);
    assert FilterOk(r, i);
    if r.filters[i].relayed.Some? {
      assert R.Fates(r.w, r.filters[i].relayed.value) == 1;
      StatusesOnce(r.w.c.called, r.filters[i].relayed.value);
    }
  }
}

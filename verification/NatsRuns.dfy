/**
 * Whole runs of the NATS client: any interleaving of publish requests, lines from
 * the server, timeouts and cancellations.  Every accepted request has exactly one
 * fate, and its message and callback follow from it.
 */
module NatsRuns {
  import opened Common
  import opened NatsModel

  /** A request as it was accepted; `k` is the draw that named its inbox. */
  datatype Request = Request(k: nat, p: Pending)

  /**
   * The client and the story so far: the accepted requests by inbox, those
   * cancelled before and after publication, and those that a malformed ack ended.
   */
  datatype World = World(
    c: Client, requests: map<string, Request>, withdrawn: set<string>, aborted: set<string>, dropped: set<string>)

  datatype Event =
    | Publish(p: Pending, clusterId: string, discoverPrefix: string)
    | Line(text: string, order: seq<string>)
    | Timeout(inbox: string)
    | CancelRequest(inbox: string)

  const START := World(NEW_CLIENT, map[], {}, {}, {})

  ghost predicate Enumerates(order: seq<string>, pending: map<string, Pending>) {
    NoDup(order) && forall x :: x in order <==> x in pending
  }

  /**
   * The token drawn for a request names no earlier one; operation lines are not blank;
   * the map iterates over its keys; timers fire while armed.
   */
  ghost predicate Enabled(env: Env, w: World, e: Event) {
    match e
    case Publish(_, _, _) => PubAckInbox(env, w.c.drawn) !in w.requests
    case Line(text, order) => (w.c.waiting.None? ==> Tokens(text) != []) && Enumerates(order, w.c.pending)
    case Timeout(inbox) => inbox in w.c.timers
    case CancelRequest(_) => true
  }

  /** The line is the payload of a malformed ack for a request in flight. */
  predicate DropsRequest(env: Env, c: Client, payload: string) {
    && c.waiting.Some?
    && c.waiting.value.subject != HeartbeatInbox(env) && c.waiting.value.subject != ConnectInbox(env)
    && c.waiting.value.subject in c.inFlight && MalformedAck(c.waiting.value.replyTo, payload)
  }

  function Step(env: Env, w: World, e: Event): World
    requires PhaseInv(w.c) && Enabled(env, w, e)
  {
    match e
    case Publish(p, clusterId, discoverPrefix) =>
      var (c, inbox) := MakeRequest(env, w.c, p, clusterId, discoverPrefix);
      w.(c := c, requests := w.requests[inbox := Request(w.c.drawn, p)])
    case Line(text, order) =>
      w.(c := OnResponse(env, w.c, text, order).0,
         dropped := if DropsRequest(env, w.c, text) then w.dropped + {w.c.waiting.value.subject} else w.dropped)
    case Timeout(inbox) => w.(c := OnTimeout(w.c, inbox))
    case CancelRequest(inbox) =>
      w.(c := Cancel(w.c, inbox),
         withdrawn := if inbox in w.c.pending then w.withdrawn + {inbox} else w.withdrawn,
         aborted := if inbox in w.c.inFlight then w.aborted + {inbox} else w.aborted)
  }

  // ---------- Phases ----------

  /** Requests wait only while connecting and fly only when connected; timers are those of the flights. */
  ghost predicate PhaseInv(c: Client) {
    && (c.pending != map[] ==> c.phase.Connecting?)
    && (c.inFlight != map[] ==> c.phase.Connected?)
    && c.timers == c.inFlight.Keys
    && (c.phase.Connected? ==> c.pubPrefix.Some?)
    && (c.phase.Connecting? ==> c.clusterId.Some? && c.discoverPrefix.Some?)
  }

  /** The ids of the SUB messages sent so far. */
  function Sids(sent: seq<Wire>): seq<nat> {
    if sent == [] then []
    else
      var last := sent[|sent| - 1];
      Sids(sent[..|sent| - 1]) + if last.Sub? then [last.sid] else []
  }

  /** SUB ids are 1, 2, 3, ... in the order they are sent. */
  ghost predicate SidInv(c: Client) {
    && c.sid >= 1
    && |Sids(c.sent)| == c.sid - 1
    && forall i :: 0 <= i < |Sids(c.sent)| ==> Sids(c.sent)[i] == i + 1
  }

  lemma SidsAppend(sent: seq<Wire>, m: Wire)
    ensures Sids(sent + [m]) == Sids(sent) + if m.Sub? then [m.sid] else []
  {
    assert (sent + [m])[..|sent|] == sent;
  }

  // ---------- The connect flush ----------

  function Inboxes(order: seq<string>): set<string> {
    set x | x in order
  }

  /** The inboxes of the published requests, in order of publication. */
  function Published(sent: seq<Wire>): seq<string> {
    if sent == [] then []
    else
      var last := sent[|sent| - 1];
      Published(sent[..|sent| - 1]) + if IsPublication(last) then [last.replyTo] else []
  }

  predicate IsPublication(m: Wire) {
    m.Pub? && m.body.PubMsg?
  }

  lemma PublishedAppend(sent: seq<Wire>, m: Wire)
    ensures Published(sent + [m]) == Published(sent) + if IsPublication(m) then [m.replyTo] else []
  {
    assert (sent + [m])[..|sent|] == sent;
  }

  lemma TailIsFresh(order: seq<string>)
    requires NoDup(order) && order != []
    ensures NoDup(order[1..]) && order[0] !in order[1..] && order == [order[0]] + order[1..]
    ensures Inboxes(order) == {order[0]} + Inboxes(order[1..])
  {
    assert order == [order[0]] + order[1..];
  }

  /** The flush puts every pending request in flight ... */
  lemma {:induction false} FlushForm(env: Env, c: Client, pending: map<string, Pending>, order: seq<string>)
    requires c.pubPrefix.Some? && (forall x :: x in order ==> x in pending && x !in c.inFlight) && NoDup(order)
    ensures var r := Flush(env, c, pending, order);
            && r == c.(inFlight := r.inFlight, timers := r.timers, drawn := r.drawn, sent := r.sent)
            && r.drawn >= c.drawn
            && r.timers == c.timers + Inboxes(order)
            && r.inFlight.Keys == c.inFlight.Keys + Inboxes(order)
            && (forall x :: x in c.inFlight ==> r.inFlight[x] == c.inFlight[x])
            && (forall x :: x in order ==> r.inFlight[x] == pending[x].callbacks)
    decreases |order|
  {
    if order != [] {
      TailIsFresh(order);
      FlushForm(env, PubPubMsg(env, c, pending[order[0]], order[0]), pending, order[1..]);
    }
  }

  /** ... and publishes each once, in order. */
  lemma {:induction false} FlushPublishes(env: Env, c: Client, pending: map<string, Pending>, order: seq<string>)
    requires c.pubPrefix.Some? && (forall x :: x in order ==> x in pending)
    ensures var r := Flush(env, c, pending, order);
            Published(r.sent) == Published(c.sent) + order && Sids(r.sent) == Sids(c.sent)
    decreases |order|
  {
    if order == [] {
      assert Published(c.sent) + order == Published(c.sent);
    } else {
      var c1 := PubPubMsg(env, c, pending[order[0]], order[0]);
      FlushPublishes(env, c1, pending, order[1..]);
      PublishedAppend(c.sent, c1.sent[|c.sent|]);
      SidsAppend(c.sent, c1.sent[|c.sent|]);
      assert Published(c.sent) + [order[0]] + order[1..] == Published(c.sent) + order;
    }
  }

  /** Everything published for an inbox carries that request's subject and payload. */
  ghost predicate Faithful(requests: map<string, Request>, sent: seq<Wire>) {
    forall i :: 0 <= i < |sent| && IsPublication(sent[i]) ==>
      && sent[i].replyTo in requests
      && sent[i].body.subject == requests[sent[i].replyTo].p.subject
      && sent[i].body.data == requests[sent[i].replyTo].p.payload
  }

  lemma {:induction false} FlushFaithful(
    env: Env, c: Client, pending: map<string, Pending>, order: seq<string>, requests: map<string, Request>)
    requires c.pubPrefix.Some? && (forall x :: x in order ==> x in pending)
    requires Faithful(requests, c.sent)
    requires forall x :: x in pending ==> x in requests && requests[x].p == pending[x]
    ensures Faithful(requests, Flush(env, c, pending, order).sent)
    decreases |order|
  {
    if order != [] {
      FlushFaithful(env, PubPubMsg(env, c, pending[order[0]], order[0]), pending, order[1..], requests);
    }
  }

  // ---------- One fate ----------

  function CalledInboxes(called: seq<Callback>): set<string> {
    set cb | cb in called :: cb.inbox
  }

  function Count(b: bool): nat {
    if b then 1 else 0
  }

  /** How many of the six fates x has met. */
  ghost function Fates(w: World, x: string): nat {
    Count(x in w.c.pending) + Count(x in w.c.inFlight) + Count(x in CalledInboxes(w.c.called))
    + Count(x in w.withdrawn) + Count(x in w.aborted) + Count(x in w.dropped)
  }

  /** x has gone out: it flies, or has been called back, aborted or dropped. */
  predicate Out(w: World, x: string) {
    x in w.c.inFlight || x in CalledInboxes(w.c.called) || x in w.aborted || x in w.dropped
  }

  ghost predicate CalledOnce(w: World) {
    && (forall i :: 0 <= i < |w.c.called| ==>
          && w.c.called[i].inbox in w.requests
          && w.c.called[i].callbacks == w.requests[w.c.called[i].inbox].p.callbacks)
    && forall i, j :: 0 <= i < j < |w.c.called| ==> w.c.called[i].inbox != w.c.called[j].inbox
  }

  ghost predicate Ledger(env: Env, w: World) {
    && (forall x :: x in w.requests ==> w.requests[x].k < w.c.drawn && x == PubAckInbox(env, w.requests[x].k))
    && (forall x :: x in w.c.pending ==> x in w.requests && w.requests[x].p == w.c.pending[x])
    && (forall x :: x in w.c.inFlight ==> x in w.requests && w.requests[x].p.callbacks == w.c.inFlight[x])
    && CalledOnce(w)
    && (forall x :: Fates(w, x) == Count(x in w.requests))
    && NoDup(Published(w.c.sent))
    && (forall x :: x in Published(w.c.sent) <==> Out(w, x))
    && Faithful(w.requests, w.c.sent)
  }

  ghost predicate Inv(env: Env, w: World) {
    PhaseInv(w.c) && SidInv(w.c) && Ledger(env, w)
  }

  // ---------- Steps that finish, add or move nothing ----------

  /** Nothing changes but the drawn tokens, the note about a payload, and what is sent besides publications. */
  ghost predicate Idle(c: Client, r: Client) {
    && r.pending == c.pending && r.inFlight == c.inFlight && r.timers == c.timers && r.called == c.called
    && r.phase == c.phase && r.clusterId == c.clusterId && r.discoverPrefix == c.discoverPrefix
    && r.pubPrefix == c.pubPrefix && r.drawn >= c.drawn
    && Published(r.sent) == Published(c.sent)
  }

  lemma IdleKeepsLedger(env: Env, w: World, r: World)
    requires Ledger(env, w) && Idle(w.c, r.c) && r == w.(c := r.c) && Faithful(w.requests, r.c.sent)
    ensures Ledger(env, r)
  {
    forall x
      ensures Fates(r, x) == Count(x in r.requests)
    {
      assert Fates(r, x) == Fates(w, x);
    }
    forall x
      ensures x in Published(r.c.sent) <==> Out(r, x)
    {
      assert Out(r, x) == Out(w, x);
    }
  }

  /** Sending one message that publishes nothing. */
  lemma SendKeepsInv(env: Env, w: World, m: Wire)
    requires Inv(env, w) && !IsPublication(m) && (m.Sub? ==> m.sid == w.c.sid)
    ensures var c := w.c.(sent := w.c.sent + [m], sid := if m.Sub? then w.c.sid + 1 else w.c.sid);
            Inv(env, w.(c := c))
  {
    var c := w.c.(sent := w.c.sent + [m], sid := if m.Sub? then w.c.sid + 1 else w.c.sid);
    PublishedAppend(w.c.sent, m);
    SidsAppend(w.c.sent, m);
    IdleKeepsLedger(env, w, w.(c := c));
  }

  lemma WaitingKeepsInv(env: Env, w: World, waiting: Option<Frame>)
    requires Inv(env, w)
    ensures Inv(env, w.(c := w.c.(waiting := waiting)))
  {
    IdleKeepsLedger(env, w, w.(c := w.c.(waiting := waiting)));
  }

  // ---------- Finishing a request ----------

  lemma CalledAppend(called: seq<Callback>, cb: Callback)
    ensures CalledInboxes(called + [cb]) == CalledInboxes(called) + {cb.inbox}
  {
    assert forall x :: x in called + [cb] <==> x in called || x == cb;
    forall x | x in CalledInboxes(called) + {cb.inbox}
      ensures x in CalledInboxes(called + [cb])
    {
      if x == cb.inbox {
        assert cb in called + [cb];
      } else {
        var y :| y in called && y.inbox == x;
        assert y in called + [cb];
      }
    }
  }

  /** From w to r the flight of inbox ends, in exactly one of three ways. */
  ghost predicate EndsFlight(w: World, r: World, inbox: string, back: bool, aborted: bool) {
    && inbox in w.c.inFlight
    && r.c == w.c.(inFlight := w.c.inFlight - {inbox}, timers := w.c.timers - {inbox}, called := r.c.called)
    && r.requests == w.requests && r.withdrawn == w.withdrawn
    && CalledInboxes(r.c.called) == CalledInboxes(w.c.called) + (if back then {inbox} else {})
    && r.aborted == w.aborted + (if !back && aborted then {inbox} else {})
    && r.dropped == w.dropped + (if !back && !aborted then {inbox} else {})
  }

  lemma EndsFlightKeepsInv(env: Env, w: World, r: World, inbox: string, back: bool, aborted: bool)
    requires Inv(env, w) && EndsFlight(w, r, inbox, back, aborted) && CalledOnce(r)
    ensures Inv(env, r)
  {
    assert Fates(w, inbox) == 1;
    forall x
      ensures Fates(r, x) == Count(x in r.requests)
    {
      assert Fates(w, x) == Count(x in w.requests);
    }
    forall x
      ensures x in Published(r.c.sent) <==> Out(r, x)
    {
      assert Out(r, x) == Out(w, x);
    }
  }

  lemma NotifyKeepsCalledOnce(env: Env, w: World, inbox: string, kind: Kind)
    requires Inv(env, w) && inbox in w.c.inFlight
    ensures var called := w.c.called + [Callback(inbox, w.c.inFlight[inbox], kind)];
            && CalledOnce(w.(c := Erase(w.c.(called := called), inbox)))
            && CalledInboxes(called) == CalledInboxes(w.c.called) + {inbox}
  {
    CalledAppend(w.c.called, Callback(inbox, w.c.inFlight[inbox], kind));
    assert Fates(w, inbox) == 1;
    forall i | 0 <= i < |w.c.called|
      ensures w.c.called[i].inbox != inbox
    {
      assert w.c.called[i] in w.c.called;
      assert w.c.called[i].inbox in CalledInboxes(w.c.called);
    }
  }

  /** A flight ends, by a callback, an abort or a drop. */
  lemma EraseKeepsLedger(env: Env, w: World, inbox: string, kind: Option<Kind>, aborted: bool)
    requires Inv(env, w) && inbox in w.c.inFlight
    ensures var c := Erase(if kind.Some? then Notify(w.c, inbox, kind.value) else w.c, inbox);
            Inv(env, w.(c := c, aborted := if kind.None? && aborted then w.aborted + {inbox} else w.aborted,
                                dropped := if kind.None? && !aborted then w.dropped + {inbox} else w.dropped))
  {
    var c := Erase(if kind.Some? then Notify(w.c, inbox, kind.value) else w.c, inbox);
    var r := w.(c := c, aborted := if kind.None? && aborted then w.aborted + {inbox} else w.aborted,
                        dropped := if kind.None? && !aborted then w.dropped + {inbox} else w.dropped);
    if kind.Some? {
      NotifyKeepsCalledOnce(env, w, inbox, kind.value);
    }
    EndsFlightKeepsInv(env, w, r, inbox, kind.Some?, aborted);
  }

  lemma TimeoutKeepsInv(env: Env, w: World, inbox: string)
    requires Inv(env, w) && inbox in w.c.timers
    ensures Inv(env, w.(c := OnTimeout(w.c, inbox)))
  {
    EraseKeepsLedger(env, w, inbox, Some(TimedOut), false);
  }

  lemma CancelKeepsInv(env: Env, w: World, inbox: string)
    requires Inv(env, w)
    ensures Inv(env, Step(env, w, CancelRequest(inbox)))
  {
    var r := Step(env, w, CancelRequest(inbox));
    if inbox in w.c.inFlight {
      assert w.c.pending == map[];
      EraseKeepsLedger(env, w, inbox, None, true);
    } else if inbox in w.c.pending {
      assert Fates(w, inbox) == 1;
      forall x
        ensures Fates(r, x) == Count(x in r.requests)
      {
        assert Fates(r, x) == Fates(w, x);
      }
      forall x
        ensures x in Published(r.c.sent) <==> Out(r, x)
      {
        assert Out(r, x) == Out(w, x);
      }
    } else {
      assert r.c.pending == w.c.pending;
      IdleKeepsLedger(env, w, r);
    }
  }

  /** A request that is not called back is settled by its cancel, which does nothing else. */
  lemma CancelSettles(env: Env, w: World, x: string)
    requires Inv(env, w) && x in w.requests && x !in CalledInboxes(w.c.called)
    ensures var r := Step(env, w, CancelRequest(x));
            && r.c.called == w.c.called && r.requests == w.requests
            && w.withdrawn <= r.withdrawn && w.aborted <= r.aborted && w.dropped <= r.dropped
            && (x in r.withdrawn || x in r.aborted || x in r.dropped)
  {
    assert Fates(w, x) == 1;
  }

  // ---------- A new request ----------

  lemma JoinInjective(a: string, x: string, y: string)
    requires Join(a, x) == Join(a, y)
    ensures x == y
  {
    assert x == Join(a, x)[|a| + 1..];
    assert y == Join(a, y)[|a| + 1..];
  }

  /** From w to r one new request is accepted, and waits or flies. */
  ghost predicate Accepts(env: Env, w: World, r: World, p: Pending, flies: bool) {
    var inbox := PubAckInbox(env, w.c.drawn);
    && r == w.(c := r.c, requests := w.requests[inbox := Request(w.c.drawn, p)])
    && inbox !in w.requests
    && r.c.pending == (if flies then w.c.pending else w.c.pending[inbox := p])
    && r.c.inFlight == (if flies then w.c.inFlight[inbox := p.callbacks] else w.c.inFlight)
    && r.c.called == w.c.called && r.c.drawn > w.c.drawn
    && Published(r.c.sent) == Published(w.c.sent) + (if flies then [inbox] else [])
    && Faithful(r.requests, r.c.sent)
  }

  lemma AcceptsKeepsFates(env: Env, w: World, r: World, p: Pending, flies: bool)
    requires Inv(env, w) && Accepts(env, w, r, p, flies)
    ensures forall x :: Fates(r, x) == Count(x in r.requests)
    ensures forall x :: x in Published(r.c.sent) <==> Out(r, x)
    ensures NoDup(Published(r.c.sent))
  {
    var inbox := PubAckInbox(env, w.c.drawn);
    assert Fates(w, inbox) == 0;
    forall x
      ensures Fates(r, x) == Count(x in r.requests)
    {
      assert Fates(w, x) == Count(x in w.requests);
    }
    assert !Out(w, inbox);
    forall x
      ensures x in Published(r.c.sent) <==> Out(r, x)
    {
      assert Out(r, x) == (Out(w, x) || (flies && x == inbox));
    }
  }

  lemma AcceptsKeepsLedger(env: Env, w: World, r: World, p: Pending, flies: bool)
    requires Inv(env, w) && Accepts(env, w, r, p, flies)
    ensures Ledger(env, r)
  {
    AcceptsKeepsFates(env, w, r, p, flies);
    AcceptsKeepsMaps(env, w, r, p, flies);
  }

  lemma AcceptsKeepsMaps(env: Env, w: World, r: World, p: Pending, flies: bool)
    requires Inv(env, w) && Accepts(env, w, r, p, flies)
    ensures forall x :: x in r.requests ==> r.requests[x].k < r.c.drawn && x == PubAckInbox(env, r.requests[x].k)
    ensures forall x :: x in r.c.pending ==> x in r.requests && r.requests[x].p == r.c.pending[x]
    ensures forall x :: x in r.c.inFlight ==> x in r.requests && r.requests[x].p.callbacks == r.c.inFlight[x]
    ensures CalledOnce(r)
  {
  }

  lemma OneMoreFaithful(requests: map<string, Request>, sent: seq<Wire>, inbox: string, request: Request, m: Wire)
    requires Faithful(requests, sent) && inbox !in requests
    requires IsPublication(m) ==>
               m.replyTo == inbox && m.body.subject == request.p.subject && m.body.data == request.p.payload
    ensures Faithful(requests[inbox := request], sent + [m])
  {
  }

  lemma NewRequestFaithful(requests: map<string, Request>, sent: seq<Wire>, inbox: string, request: Request)
    requires Faithful(requests, sent) && inbox !in requests
    ensures Faithful(requests[inbox := request], sent)
  {
  }

  lemma EnqueueAccepts(env: Env, w: World, p: Pending, clusterId: string, discoverPrefix: string)
    requires Inv(env, w) && Enabled(env, w, Publish(p, clusterId, discoverPrefix)) && !w.c.phase.Connected?
    ensures Accepts(env, w, Step(env, w, Publish(p, clusterId, discoverPrefix)), p, false)
  {
    assert Fates(w, PubAckInbox(env, w.c.drawn)) == 0;
    PublishedAppend(w.c.sent, ConnectMsg);
    OneMoreFaithful(w.requests, w.c.sent, PubAckInbox(env, w.c.drawn), Request(w.c.drawn, p), ConnectMsg);
    NewRequestFaithful(w.requests, w.c.sent, PubAckInbox(env, w.c.drawn), Request(w.c.drawn, p));
  }

  lemma EnqueueKeepsPhases(env: Env, w: World, p: Pending, clusterId: string, discoverPrefix: string)
    requires PhaseInv(w.c) && SidInv(w.c) && !w.c.phase.Connected?
    requires Enabled(env, w, Publish(p, clusterId, discoverPrefix))
    ensures var r := Step(env, w, Publish(p, clusterId, discoverPrefix)); PhaseInv(r.c) && SidInv(r.c)
  {
    SidsAppend(w.c.sent, ConnectMsg);
  }

  lemma EnqueueKeepsInv(env: Env, w: World, p: Pending, clusterId: string, discoverPrefix: string)
    requires Inv(env, w) && Enabled(env, w, Publish(p, clusterId, discoverPrefix)) && !w.c.phase.Connected?
    ensures Inv(env, Step(env, w, Publish(p, clusterId, discoverPrefix)))
  {
    EnqueueKeepsPhases(env, w, p, clusterId, discoverPrefix);
    EnqueueAccepts(env, w, p, clusterId, discoverPrefix);
    AcceptsKeepsLedger(env, w, Step(env, w, Publish(p, clusterId, discoverPrefix)), p, false);
  }

  lemma FlyAccepts(env: Env, w: World, p: Pending, clusterId: string, discoverPrefix: string)
    requires Inv(env, w) && Enabled(env, w, Publish(p, clusterId, discoverPrefix)) && w.c.phase.Connected?
    ensures Accepts(env, w, Step(env, w, Publish(p, clusterId, discoverPrefix)), p, true)
  {
    var r := Step(env, w, Publish(p, clusterId, discoverPrefix));
    assert Fates(w, PubAckInbox(env, w.c.drawn)) == 0;
    PublishedAppend(w.c.sent, r.c.sent[|w.c.sent|]);
    OneMoreFaithful(w.requests, w.c.sent, PubAckInbox(env, w.c.drawn), Request(w.c.drawn, p), r.c.sent[|w.c.sent|]);
  }

  lemma FlyKeepsPhases(env: Env, w: World, p: Pending, clusterId: string, discoverPrefix: string)
    requires PhaseInv(w.c) && SidInv(w.c) && w.c.phase.Connected?
    requires Enabled(env, w, Publish(p, clusterId, discoverPrefix))
    ensures var r := Step(env, w, Publish(p, clusterId, discoverPrefix)); PhaseInv(r.c) && SidInv(r.c)
  {
    var r := Step(env, w, Publish(p, clusterId, discoverPrefix));
    SidsAppend(w.c.sent, r.c.sent[|w.c.sent|]);
  }

  lemma FlyKeepsInv(env: Env, w: World, p: Pending, clusterId: string, discoverPrefix: string)
    requires Inv(env, w) && Enabled(env, w, Publish(p, clusterId, discoverPrefix)) && w.c.phase.Connected?
    ensures Inv(env, Step(env, w, Publish(p, clusterId, discoverPrefix)))
  {
    FlyKeepsPhases(env, w, p, clusterId, discoverPrefix);
    FlyAccepts(env, w, p, clusterId, discoverPrefix);
    AcceptsKeepsLedger(env, w, Step(env, w, Publish(p, clusterId, discoverPrefix)), p, true);
  }

  lemma PublishKeepsInv(env: Env, w: World, p: Pending, clusterId: string, discoverPrefix: string)
    requires Inv(env, w) && Enabled(env, w, Publish(p, clusterId, discoverPrefix))
    ensures Inv(env, Step(env, w, Publish(p, clusterId, discoverPrefix)))
  {
    if w.c.phase.Connected? {
      FlyKeepsInv(env, w, p, clusterId, discoverPrefix);
    } else {
      EnqueueKeepsInv(env, w, p, clusterId, discoverPrefix);
    }
  }

  // ---------- Lines ----------

  /** From w to r the pending requests, enumerated by order, fly. */
  ghost predicate Flushes(w: World, r: World, order: seq<string>) {
    && r == w.(c := r.c) && r.c.phase.Connected? && r.c.pubPrefix.Some?
    && r.c.pending == map[] && r.c.called == w.c.called && r.c.drawn >= w.c.drawn && r.c.sid == w.c.sid
    && r.c.inFlight.Keys == w.c.inFlight.Keys + w.c.pending.Keys && r.c.timers == w.c.timers + w.c.pending.Keys
    && (forall x :: x in w.c.inFlight ==> r.c.inFlight[x] == w.c.inFlight[x])
    && (forall x :: x in w.c.pending ==> r.c.inFlight[x] == w.c.pending[x].callbacks)
    && Published(r.c.sent) == Published(w.c.sent) + order && Sids(r.c.sent) == Sids(w.c.sent)
    && Faithful(w.requests, r.c.sent)
  }

  lemma ConnectedFlushes(env: Env, w: World, prefix: string, order: seq<string>)
    requires Inv(env, w) && Enumerates(order, w.c.pending)
    ensures Flushes(w, w.(c := OnConnected(env, w.c, prefix, order)), order)
  {
    var c0 := w.c.(phase := Connected, pubPrefix := Some(prefix));
    forall x | x in order
      ensures x in w.c.pending && x !in c0.inFlight
    {
      assert w.c.pending != map[];
    }
    FlushForm(env, c0, w.c.pending, order);
    FlushPublishes(env, c0, w.c.pending, order);
    FlushFaithful(env, c0, w.c.pending, order, w.requests);
    assert Inboxes(order) == w.c.pending.Keys;
  }

  lemma FlushKeepsFates(env: Env, w: World, r: World, order: seq<string>)
    requires Inv(env, w) && Enumerates(order, w.c.pending) && Flushes(w, r, order)
    ensures forall x :: Fates(r, x) == Count(x in r.requests)
  {
    forall x
      ensures Fates(r, x) == Count(x in r.requests)
    {
      assert Fates(w, x) == Count(x in w.requests);
      assert x in r.c.inFlight <==> x in w.c.inFlight || x in w.c.pending;
    }
  }

  lemma FlushKeepsMaps(env: Env, w: World, r: World, order: seq<string>)
    requires Inv(env, w) && Enumerates(order, w.c.pending) && Flushes(w, r, order)
    ensures forall x :: x in r.requests ==> r.requests[x].k < r.c.drawn && x == PubAckInbox(env, r.requests[x].k)
    ensures forall x :: x in r.c.inFlight ==> x in r.requests && r.requests[x].p.callbacks == r.c.inFlight[x]
    ensures CalledOnce(r) && PhaseInv(r.c) && SidInv(r.c)
  {
  }

  lemma ConnectedKeepsInv(env: Env, w: World, prefix: string, order: seq<string>)
    requires Inv(env, w) && Enumerates(order, w.c.pending)
    ensures Inv(env, w.(c := OnConnected(env, w.c, prefix, order)))
  {
    var r := w.(c := OnConnected(env, w.c, prefix, order));
    ConnectedFlushes(env, w, prefix, order);
    FlushKeepsFates(env, w, r, order);
    FlushKeepsMaps(env, w, r, order);
    ConnectedPublishes(env, w, r, order);
  }

  lemma ConnectedPublishes(env: Env, w: World, r: World, order: seq<string>)
    requires Inv(env, w) && Enumerates(order, w.c.pending) && Flushes(w, r, order)
    ensures NoDup(Published(r.c.sent)) && forall x :: x in Published(r.c.sent) <==> Out(r, x)
  {
    forall x | x in order
      ensures x !in Published(w.c.sent)
    {
      assert Fates(w, x) == Count(x in w.requests);
      assert !Out(w, x);
    }
    var a, b := Published(w.c.sent), order;
    forall i, j | 0 <= i < j < |a + b|
      ensures (a + b)[i] != (a + b)[j]
    {
      if i < |a| <= j {
        assert (a + b)[j] == b[j - |a|] && b[j - |a|] in order;
        assert a[i] in a;
      }
    }
    forall x
      ensures x in Published(r.c.sent) <==> Out(r, x)
    {
      assert x in a + b <==> x in a || x in b;
      assert Out(r, x) == (Out(w, x) || x in w.c.pending);
    }
  }

  lemma SubKeepsInv(env: Env, w: World, subject: string)
    requires Inv(env, w)
    ensures Inv(env, w.(c := SubInbox(w.c, subject)))
  {
    SendKeepsInv(env, w, Sub(subject, w.c.sid));
  }

  lemma InfoKeepsInv(env: Env, w: World)
    requires Inv(env, w)
    ensures Inv(env, w.(c := OnInfo(env, w.c).0))
  {
    SubKeepsInv(env, w, HeartbeatInbox(env));
    var w1 := w.(c := SubInbox(w.c, HeartbeatInbox(env)));
    SubKeepsInv(env, w1, Join(RootInbox(env), "*"));
    var w2 := w1.(c := SubInbox(w1.c, Join(RootInbox(env), "*")));
    SubKeepsInv(env, w2, Join(RootPubAckInbox(env), "*"));
    var w3 := w2.(c := SubInbox(w2.c, Join(RootPubAckInbox(env), "*")));
    if w.c.discoverPrefix.Some? && w.c.clusterId.Some? {
      SendKeepsInv(env, w3, Pub(Join(w.c.discoverPrefix.value, w.c.clusterId.value), ConnectInbox(env),
                                ConnectRequest(ClientId(env), HeartbeatInbox(env))));
    }
  }

  lemma FrameKeepsInv(env: Env, w: World, frame: Frame, payload: string, order: seq<string>)
    requires Inv(env, w) && Enumerates(order, w.c.pending) && w.c.waiting == Some(frame)
    ensures Inv(env, w.(c := OnFrame(env, w.c, frame, payload, order),
                        dropped := if DropsRequest(env, w.c, payload) then w.dropped + {frame.subject} else w.dropped))
  {
    if frame.subject == HeartbeatInbox(env) {
      if frame.replyTo.Some? && payload == "" {
        SendKeepsInv(env, w, PubEmpty(frame.replyTo.value));
      }
    } else if frame.subject == ConnectInbox(env) {
      if frame.replyTo.None? && payload != "" {
        ConnectedKeepsInv(env, w, env.prefixOf(payload), order);
      }
    } else if frame.subject in w.c.inFlight {
      EraseKeepsLedger(env, w, frame.subject,
                       if MalformedAck(frame.replyTo, payload) then None else Some(AckKind(env, payload)), false);
    }
  }

  lemma LineKeepsInv(env: Env, w: World, text: string, order: seq<string>)
    requires Inv(env, w) && Enabled(env, w, Line(text, order))
    ensures Inv(env, Step(env, w, Line(text, order)))
  {
    if w.c.waiting.Some? {
      var frame := w.c.waiting.value;
      FrameKeepsInv(env, w, frame, text, order);
      var dropped := if DropsRequest(env, w.c, text) then w.dropped + {frame.subject} else w.dropped;
      WaitingKeepsInv(env, w.(c := OnFrame(env, w.c, frame, text, order), dropped := dropped), None);
    } else {
      match ParseOperation(text)
      case Info => InfoKeepsInv(env, w);
      case Msg(frame) => WaitingKeepsInv(env, w, Some(frame));
      case Ping => SendKeepsInv(env, w, Pong);
      case Okay =>
      case Bad =>
    }
  }

  lemma StepKeepsInv(env: Env, w: World, e: Event)
    requires Inv(env, w) && Enabled(env, w, e)
    ensures Inv(env, Step(env, w, e))
  {
    match e
    case Publish(p, clusterId, discoverPrefix) => PublishKeepsInv(env, w, p, clusterId, discoverPrefix);
    case Line(text, order) => LineKeepsInv(env, w, text, order);
    case Timeout(inbox) => TimeoutKeepsInv(env, w, inbox);
    case CancelRequest(inbox) => CancelKeepsInv(env, w, inbox);
  }

  // ---------- Whole runs ----------

  ghost predicate Legal(env: Env, w: World, events: seq<Event>)
    requires Inv(env, w)
    decreases |events|
  {
    events != [] ==>
      && Enabled(env, w, events[0])
      && (StepKeepsInv(env, w, events[0]); Legal(env, Step(env, w, events[0]), events[1..]))
  }

  ghost function Run(env: Env, w: World, events: seq<Event>): World
    requires Inv(env, w) && Legal(env, w, events)
    decreases |events|
  {
    if events == [] then w
    else StepKeepsInv(env, w, events[0]); Run(env, Step(env, w, events[0]), events[1..])
  }

  lemma {:induction false} RunKeepsInv(env: Env, w: World, events: seq<Event>)
    requires Inv(env, w) && Legal(env, w, events)
    ensures Inv(env, Run(env, w, events))
    decreases |events|
  {
    if events != [] {
      StepKeepsInv(env, w, events[0]);
      RunKeepsInv(env, Step(env, w, events[0]), events[1..]);
    }
  }

  lemma StartInv(env: Env)
    ensures Inv(env, START)
  {
  }

  /**
   * Every accepted request is always in exactly one place: pending, in flight, called
   * back, cancelled before or after publication, or ended by a malformed ack.  It is
   * called back at most once, with its own callbacks, and never after a cancel.
   */
  lemma OneFateEach(env: Env, events: seq<Event>, x: string)
    requires Inv(env, START) && Legal(env, START, events)
    requires x in Run(env, START, events).requests
    ensures var r := Run(env, START, events);
            && Fates(r, x) == 1
            && (forall i, j :: 0 <= i < j < |r.c.called| ==> !(r.c.called[i].inbox == r.c.called[j].inbox == x))
            && (forall i :: 0 <= i < |r.c.called| && r.c.called[i].inbox == x ==>
                  r.c.called[i].callbacks == r.requests[x].p.callbacks)
            && (x in r.withdrawn || x in r.aborted ==> forall i :: 0 <= i < |r.c.called| ==> r.c.called[i].inbox != x)
  {
    RunKeepsInv(env, START, events);
    var r := Run(env, START, events);
    if x in r.withdrawn || x in r.aborted {
      forall i | 0 <= i < |r.c.called|
        ensures r.c.called[i].inbox != x
      {
        assert r.c.called[i] in r.c.called;
        assert r.c.called[i].inbox in CalledInboxes(r.c.called);
      }
    }
  }

  /**
   * A request is published at most once, with its own subject and payload; once the
   * client is connected it has been published unless it was cancelled before; and a
   * request cancelled while pending never is.
   */
  lemma PublishedOnceUnlessWithdrawn(env: Env, events: seq<Event>, x: string)
    requires Inv(env, START) && Legal(env, START, events)
    requires x in Run(env, START, events).requests
    ensures var r := Run(env, START, events);
            && NoDup(Published(r.c.sent)) && Faithful(r.requests, r.c.sent)
            && (x in Published(r.c.sent) <==> x !in r.c.pending && x !in r.withdrawn)
            && (r.c.phase.Connected? ==> (x in Published(r.c.sent) <==> x !in r.withdrawn))
  {
    RunKeepsInv(env, START, events);
    var r := Run(env, START, events);
    assert Fates(r, x) == 1;
    assert x in Published(r.c.sent) <==> Out(r, x);
  }
}

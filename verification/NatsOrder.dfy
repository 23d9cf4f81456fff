/**
 * The pending map iterates by inbox, and inboxes are named after tokens: while the
 * generator keeps its prefix, requests are published in the order they were accepted.
 */
module NatsOrder {
  import opened Common
  import opened NatsModel
  import opened NatsRuns
  import T = NatsTokens
  import U = Nuid

  /** The order of strings. */
  ghost predicate Less(a: string, b: string) {
    exists i :: 0 <= i <= |a| && LessAt(a, b, i)
  }

  /** The strings agree before i, and there a ends or has the smaller character. */
  ghost predicate LessAt(a: string, b: string, i: nat)
    requires i <= |a|
  {
    i < |b| && a[..i] == b[..i] && (i < |a| ==> a[i] < b[i])
  }

  lemma AgreeBefore(a: string, b: string, n: nat, i: nat)
    requires i < |a| && i < |b|
    ensures i < n <= |a| && n <= |b| && a[..n] == b[..n] ==> a[i] == b[i]
  {
    if i < n <= |a| && n <= |b| && a[..n] == b[..n] {
      assert a[..n][i] == b[..n][i];
    }
  }

  lemma LessOneWayAt(a: string, b: string, i: nat, j: nat)
    requires i <= |a| && LessAt(a, b, i) && j <= |b|
    ensures !LessAt(b, a, j)
  {
    if i < |a| {
      AgreeBefore(a, b, j, i);
    }
    if j < |a| && j < |b| {
      AgreeBefore(a, b, i, j);
    }
  }

  lemma LessOneWay(a: string, b: string)
    requires Less(a, b)
    ensures !Less(b, a)
  {
    var i :| 0 <= i <= |a| && LessAt(a, b, i);
    forall j | 0 <= j <= |b|
      ensures !LessAt(b, a, j)
    {
      LessOneWayAt(a, b, i, j);
    }
  }

  /** The keys as an ordered map iterates over them. */
  ghost predicate Ascending(order: seq<string>) {
    forall i, j :: 0 <= i < j < |order| ==> Less(order[i], order[j])
  }

  lemma JoinsAscend(prefix: string, a: string, b: string)
    requires U.Before(a, b)
    ensures Less(Join(prefix, a), Join(prefix, b))
  {
    var i :| 0 <= i < |a| && a[..i] == b[..i] && a[i] < b[i];
    var n := |prefix| + 1 + i;
    assert Join(prefix, a)[..n] == prefix + "." + a[..i];
    assert Join(prefix, b)[..n] == prefix + "." + b[..i];
    assert LessAt(Join(prefix, a), Join(prefix, b), n);
  }

  lemma InboxesAscend(env: Env, g: U.Generator, draws: seq<U.Draws>, i: nat, j: nat)
    requires U.Valid(g) && U.NoReset(g, draws) && T.TokensFrom(env, g, draws) && i < j < |draws|
    ensures Less(PubAckInbox(env, i), PubAckInbox(env, j))
  {
    U.TokensAscend(g, draws, i, j);
    assert env.token(i) == U.TokenAt(g, draws, i) && env.token(j) == U.TokenAt(g, draws, j);
    JoinsAscend(RootPubAckInbox(env), env.token(i), env.token(j));
  }

  lemma LessIsEarlier(env: Env, g: U.Generator, draws: seq<U.Draws>, i: nat, j: nat)
    requires U.Valid(g) && U.NoReset(g, draws) && T.TokensFrom(env, g, draws)
    requires i < |draws| && j < |draws| && Less(PubAckInbox(env, i), PubAckInbox(env, j))
    ensures i < j
  {
    var x, y := PubAckInbox(env, i), PubAckInbox(env, j);
    if j < i {
      InboxesAscend(env, g, draws, j, i);
      LessOneWay(y, x);
    } else if i == j {
      LessOneWay(x, x);
    }
  }

  // ---------- Publications ----------

  /** The inboxes come in the order in which their requests were accepted: `k` counts the draws. */
  ghost predicate InAcceptanceOrder(requests: map<string, Request>, inboxes: seq<string>) {
    && (forall i :: 0 <= i < |inboxes| ==> inboxes[i] in requests)
    && forall i, j :: 0 <= i < j < |inboxes| ==> requests[inboxes[i]].k < requests[inboxes[j]].k
  }

  /** A connect response flushes the pending requests in the order in which they were accepted. */
  lemma FlushInAcceptanceOrder(env: Env, g: U.Generator, draws: seq<U.Draws>, w: World, order: seq<string>)
    requires U.Valid(g) && U.NoReset(g, draws) && T.TokensFrom(env, g, draws)
    requires Ledger(env, w) && w.c.drawn <= |draws| && Enumerates(order, w.c.pending) && Ascending(order)
    ensures InAcceptanceOrder(w.requests, order)
  {
    forall i | 0 <= i < |order|
      ensures order[i] in w.requests
    {
      assert order[i] in order;
    }
    forall i, j | 0 <= i < j < |order|
      ensures w.requests[order[i]].k < w.requests[order[j]].k
    {
      LessIsEarlier(env, g, draws, w.requests[order[i]].k, w.requests[order[j]].k);
    }
  }

  /** What has been published so far, and nothing before the client is connected. */
  ghost predicate Orderly(w: World) {
    && InAcceptanceOrder(w.requests, Published(w.c.sent))
    && (!w.c.phase.Connected? ==> Published(w.c.sent) == [])
  }

  ghost predicate PublishesNothing(c: Client, r: Client) {
    Published(r.sent) == Published(c.sent) && r.phase == c.phase && r.drawn == c.drawn
  }

  lemma SubPublishesNothing(c: Client, subject: string)
    ensures PublishesNothing(c, SubInbox(c, subject))
  {
    PublishedAppend(c.sent, Sub(subject, c.sid));
  }

  lemma InfoPublishesNothing(env: Env, c: Client)
    ensures PublishesNothing(c, OnInfo(env, c).0)
  {
    var c1 := SubInbox(c, HeartbeatInbox(env));
    var c2 := SubInbox(c1, Join(RootInbox(env), "*"));
    var c3 := SubInbox(c2, Join(RootPubAckInbox(env), "*"));
    SubPublishesNothing(c, HeartbeatInbox(env));
    SubPublishesNothing(c1, Join(RootInbox(env), "*"));
    SubPublishesNothing(c2, Join(RootPubAckInbox(env), "*"));
    if c.discoverPrefix.Some? && c.clusterId.Some? {
      PublishedAppend(c3.sent, Pub(Join(c.discoverPrefix.value, c.clusterId.value), ConnectInbox(env),
                                   ConnectRequest(ClientId(env), HeartbeatInbox(env))));
    }
  }

  lemma OperationPublishesNothing(env: Env, c: Client, line: string)
    requires Tokens(line) != []
    ensures PublishesNothing(c, OnOperation(env, c, line).0)
  {
    match ParseOperation(line)
    case Info => InfoPublishesNothing(env, c);
    case Ping => PublishedAppend(c.sent, Pong);
    case _ =>
  }

  /** Nothing is published and the phase stays, or everything that waits is published. */
  ghost predicate Publishes(w: World, r: World, order: seq<string>) {
    && r.requests == w.requests && r.c.drawn >= w.c.drawn
    && (|| (Published(r.c.sent) == Published(w.c.sent) && r.c.phase == w.c.phase)
        || (Published(r.c.sent) == Published(w.c.sent) + order && r.c.phase.Connected?))
  }

  lemma FramePublishes(env: Env, w: World, frame: Frame, payload: string, order: seq<string>)
    requires Inv(env, w) && Enumerates(order, w.c.pending)
    ensures Publishes(w, w.(c := OnFrame(env, w.c, frame, payload, order)), order)
  {
    if frame.subject == HeartbeatInbox(env) {
      if frame.replyTo.Some? {
        PublishedAppend(w.c.sent, PubEmpty(frame.replyTo.value));
      }
    } else if frame.subject == ConnectInbox(env) && frame.replyTo.None? && payload != "" {
      ConnectedFlushes(env, w, env.prefixOf(payload), order);
    }
  }

  lemma LinePublishes(env: Env, w: World, text: string, order: seq<string>)
    requires Inv(env, w) && Enabled(env, w, Line(text, order))
    ensures Publishes(w, Step(env, w, Line(text, order)), order)
  {
    if w.c.waiting.None? {
      OperationPublishesNothing(env, w.c, text);
    } else {
      FramePublishes(env, w, w.c.waiting.value, text, order);
    }
  }

  /** An accepted request is published last, or not yet. */
  lemma PublishPublishes(env: Env, w: World, p: Pending, clusterId: string, discoverPrefix: string)
    requires Inv(env, w) && Enabled(env, w, Publish(p, clusterId, discoverPrefix))
    ensures var r := Step(env, w, Publish(p, clusterId, discoverPrefix));
            && Accepts(env, w, r, p, w.c.phase.Connected?) && (r.c.phase.Connected? <==> w.c.phase.Connected?)
  {
    if w.c.phase.Connected? {
      FlyAccepts(env, w, p, clusterId, discoverPrefix);
    } else {
      EnqueueAccepts(env, w, p, clusterId, discoverPrefix);
    }
  }

  lemma OneMoreInOrder(env: Env, w: World, r: World, p: Pending, flies: bool)
    requires Ledger(env, w) && Accepts(env, w, r, p, flies) && InAcceptanceOrder(w.requests, Published(w.c.sent))
    ensures InAcceptanceOrder(r.requests, Published(r.c.sent))
  {
  }

  lemma FlushKeepsOrderly(w: World, r: World, order: seq<string>)
    requires PhaseInv(w.c) && Orderly(w) && Publishes(w, r, order) && Enumerates(order, w.c.pending)
    requires InAcceptanceOrder(w.requests, order)
    ensures Orderly(r)
  {
    if order == [] {
      assert Published(w.c.sent) + order == Published(w.c.sent);
    } else {
      assert order[0] in order;
      assert [] + order == order;
    }
  }

  lemma StepKeepsOrderly(env: Env, g: U.Generator, draws: seq<U.Draws>, w: World, e: Event)
    requires U.Valid(g) && U.NoReset(g, draws) && T.TokensFrom(env, g, draws)
    requires Inv(env, w) && Enabled(env, w, e) && w.c.drawn <= |draws| && Orderly(w)
    requires e.Line? ==> Ascending(e.order)
    ensures Orderly(Step(env, w, e))
  {
    match e
    case Publish(p, clusterId, discoverPrefix) =>
      PublishPublishes(env, w, p, clusterId, discoverPrefix);
      OneMoreInOrder(env, w, Step(env, w, e), p, w.c.phase.Connected?);
    case Line(text, order) =>
      LinePublishes(env, w, text, order);
      FlushInAcceptanceOrder(env, g, draws, w, order);
      FlushKeepsOrderly(w, Step(env, w, e), order);
    case Timeout(_) =>
    case CancelRequest(_) =>
  }

  lemma StepDraws(env: Env, w: World, e: Event)
    requires Inv(env, w) && Enabled(env, w, e)
    ensures Step(env, w, e).c.drawn >= w.c.drawn
  {
    match e
    case Publish(p, clusterId, discoverPrefix) => PublishPublishes(env, w, p, clusterId, discoverPrefix);
    case Line(text, order) => LinePublishes(env, w, text, order);
    case Timeout(_) =>
    case CancelRequest(_) =>
  }

  lemma {:induction false} RunDraws(env: Env, w: World, events: seq<Event>)
    requires Inv(env, w) && Legal(env, w, events)
    ensures Run(env, w, events).c.drawn >= w.c.drawn
    decreases |events|
  {
    if events != [] {
      StepKeepsInv(env, w, events[0]);
      StepDraws(env, w, events[0]);
      RunDraws(env, Step(env, w, events[0]), events[1..]);
    }
  }

  /** Every line finds the pending map in the order of its keys. */
  ghost predicate MapsAscend(events: seq<Event>) {
    forall i :: 0 <= i < |events| && events[i].Line? ==> Ascending(events[i].order)
  }

  lemma {:induction false} RunKeepsOrderly(env: Env, g: U.Generator, draws: seq<U.Draws>, w: World, events: seq<Event>)
    requires U.Valid(g) && U.NoReset(g, draws) && T.TokensFrom(env, g, draws)
    requires Inv(env, w) && Legal(env, w, events) && Orderly(w) && MapsAscend(events)
    requires Run(env, w, events).c.drawn <= |draws|
    ensures Orderly(Run(env, w, events))
    decreases |events|
  {
    if events != [] {
      RunDraws(env, w, events);
      StepKeepsInv(env, w, events[0]);
      StepKeepsOrderly(env, g, draws, w, events[0]);
      RunKeepsOrderly(env, g, draws, Step(env, w, events[0]), events[1..]);
    }
  }

  /**
   * In every run that draws its tokens from a generator within one prefix, and whose
   * pending map iterates in the order of its keys, requests are published in the order
   * in which they were accepted, those of the connect flush and those after it.
   */
  lemma PublishedInAcceptanceOrder(env: Env, g: U.Generator, draws: seq<U.Draws>, events: seq<Event>)
    requires U.Valid(g) && U.NoReset(g, draws) && T.TokensFrom(env, g, draws)
    requires Inv(env, START) && Legal(env, START, events) && MapsAscend(events)
    requires Run(env, START, events).c.drawn <= |draws|
    ensures var r := Run(env, START, events); InAcceptanceOrder(r.requests, Published(r.c.sent))
  {
    RunKeepsOrderly(env, g, draws, START, events);
  }
}

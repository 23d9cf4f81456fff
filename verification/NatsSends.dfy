/**
 * What the client sends, told from the events alone: which frame is due, which publish
 * prefix is in force and which cluster was asked for follow from the lines received and
 * the requests made, and with them every message and its place.
 */
module NatsSends {
  import opened Common
  import opened NatsModel
  import opened NatsRuns
  import O = NatsOrder
  import T = NatsTokens

  // ---------- Prefixes of a run ----------

  ghost predicate IsRun(env: Env, events: seq<Event>) {
    Inv(env, START) && Legal(env, START, events)
  }

  lemma {:induction false} RunUpTo(env: Env, w: World, events: seq<Event>, n: nat)
    requires Inv(env, w) && Legal(env, w, events) && n <= |events|
    ensures Legal(env, w, events[..n])
    decreases n
  {
    if n > 0 {
      StepKeepsInv(env, w, events[0]);
      RunUpTo(env, Step(env, w, events[0]), events[1..], n - 1);
      assert events[..n][1..] == events[1..][..n - 1];
    }
  }

  ghost function From(env: Env, w: World, events: seq<Event>, n: nat): World
    requires Inv(env, w) && Legal(env, w, events) && n <= |events|
  {
    RunUpTo(env, w, events, n);
    Run(env, w, events[..n])
  }

  lemma {:induction false} FromShifted(env: Env, w: World, events: seq<Event>, n: nat)
    requires Inv(env, w) && Legal(env, w, events) && 0 < n <= |events|
    ensures Inv(env, Step(env, w, events[0])) && Legal(env, Step(env, w, events[0]), events[1..])
    ensures From(env, w, events, n) == From(env, Step(env, w, events[0]), events[1..], n - 1)
  {
    StepKeepsInv(env, w, events[0]);
    RunUpTo(env, w, events, n);
    assert events[..n][1..] == events[1..][..n - 1];
  }

  lemma {:induction false} FromStart(env: Env, w: World, events: seq<Event>)
    requires Inv(env, w) && Legal(env, w, events)
    ensures From(env, w, events, 0) == w
  {
    assert events[..0] == [];
  }

  lemma {:induction false} FromNext(env: Env, w: World, events: seq<Event>, n: nat)
    requires Inv(env, w) && Legal(env, w, events) && n < |events|
    ensures Inv(env, From(env, w, events, n)) && Enabled(env, From(env, w, events, n), events[n])
    ensures From(env, w, events, n + 1) == Step(env, From(env, w, events, n), events[n])
    decreases n
  {
    FromShifted(env, w, events, n + 1);
    if n == 0 {
      FromStart(env, w, events);
      FromStart(env, Step(env, w, events[0]), events[1..]);
    } else {
      FromShifted(env, w, events, n);
      FromNext(env, Step(env, w, events[0]), events[1..], n - 1);
    }
  }

  /** Where the run stands before its n-th event. */
  ghost function Before(env: Env, events: seq<Event>, n: nat): World
    requires IsRun(env, events) && n <= |events|
  {
    From(env, START, events, n)
  }

  lemma {:induction false} BeforeNext(env: Env, events: seq<Event>, n: nat)
    requires IsRun(env, events) && n < |events|
    ensures Inv(env, Before(env, events, n)) && Enabled(env, Before(env, events, n), events[n])
    ensures Before(env, events, n + 1) == Step(env, Before(env, events, n), events[n])
  {
    FromNext(env, START, events, n);
  }

  lemma {:induction false} BeforeEnds(env: Env, events: seq<Event>)
    requires IsRun(env, events)
    ensures Before(env, events, 0) == START
    ensures Before(env, events, |events|) == Run(env, START, events)
  {
    assert events[..0] == [] && events[..|events|] == events;
  }

  lemma {:induction false} BeforeKeepsInv(env: Env, events: seq<Event>, n: nat)
    requires IsRun(env, events) && n <= |events|
    ensures Inv(env, Before(env, events, n))
  {
    RunUpTo(env, START, events, n);
    RunKeepsInv(env, START, events[..n]);
  }

  // ---------- What the events say ----------

  function FirstWord(line: string): string {
    if Tokens(line) == [] then "" else Tokens(line)[0]
  }

  /** The frame that a MSG line announces. */
  function Announced(line: string): Option<Frame> {
    var tokens := Tokens(line);
    if EqualsIgnoreCase(FirstWord(line), "MSG") then
      if |tokens| == 4 then Some(Frame(tokens[1], None))
      else if |tokens| == 5 then Some(Frame(tokens[1], Some(tokens[3])))
      else None
    else None
  }

  /** The frame whose payload the next line is: a MSG line's, unless it was itself a payload. */
  function Due(events: seq<Event>, n: nat): Option<Frame>
    requires n <= |events|
  {
    if n == 0 then None
    else if events[n - 1].Line? then
      if Due(events, n - 1).None? then Announced(events[n - 1].text) else None
    else Due(events, n - 1)
  }

  /** The text, coming as this frame's payload, is a connect response. */
  predicate IsResponse(env: Env, frame: Frame, text: string) {
    && frame == Frame("_INBOX." + env.token(1) + "." + env.token(3), None) && text != ""
    && env.token(1) + "." + env.token(3) != env.token(0)
  }

  /** The event is the payload of a connect response. */
  predicate Connects(env: Env, events: seq<Event>, n: nat)
    requires n < |events|
  {
    && events[n].Line? && Due(events, n).Some? && IsResponse(env, Due(events, n).value, events[n].text)
  }

  /** The publish prefix that the last connect response gave. */
  function PrefixInForce(env: Env, events: seq<Event>, n: nat): Option<string>
    requires n <= |events|
  {
    if n == 0 then None
    else if Connects(env, events, n - 1) then Some(env.prefixOf(events[n - 1].text))
    else PrefixInForce(env, events, n - 1)
  }

  datatype Target = Target(clusterId: string, discoverPrefix: string)

  /** What the first request asked to connect to. */
  function FirstTarget(env: Env, events: seq<Event>, n: nat): Option<Target>
    requires n <= |events|
  {
    if n == 0 then None
    else if FirstTarget(env, events, n - 1).Some? then FirstTarget(env, events, n - 1)
    else if events[n - 1].Publish? && PrefixInForce(env, events, n - 1).None? then
      Some(Target(events[n - 1].clusterId, events[n - 1].discoverPrefix))
    else None
  }

  function Requests(events: seq<Event>, n: nat): nat
    requires n <= |events|
  {
    if n == 0 then 0 else Requests(events, n - 1) + if events[n - 1].Publish? then 1 else 0
  }

  /** How many tokens have been drawn: five names, one inbox a request, one guid a publication. */
  ghost function Draws(env: Env, events: seq<Event>, n: nat): nat
    requires IsRun(env, events) && n <= |events|
  {
    5 + Requests(events, n) + |Published(Before(env, events, n).c.sent)|
  }

  /** The client's fields are what has been received and asked for. */
  ghost predicate AgreesWith(
    c: Client, due: Option<Frame>, prefix: Option<string>, first: Option<Target>, requests: nat)
  {
    && c.waiting == due && c.pubPrefix == prefix
    && (c.phase.Connected? <==> prefix.Some?)
    && (c.phase.NotConnected? <==> prefix.None? && first.None?)
    && c.clusterId == (if first.Some? then Some(first.value.clusterId) else None)
    && c.discoverPrefix == (if first.Some? then Some(first.value.discoverPrefix) else None)
    && c.drawn == 5 + requests + |Published(c.sent)|
  }

  ghost predicate Agrees(env: Env, events: seq<Event>, n: nat)
    requires IsRun(env, events) && n <= |events|
  {
    AgreesWith(Before(env, events, n).c, Due(events, n), PrefixInForce(env, events, n), FirstTarget(env, events, n),
               Requests(events, n))
  }

  // ---------- What an event makes the client send ----------

  /** The publication of a request: its outer subject is its own under the prefix. */
  function Publication(env: Env, prefix: string, inbox: string, guid: nat, p: Pending): Wire {
    Pub(prefix + "." + p.subject, inbox, PubMsg(env.token(4), env.token(guid), p.subject, p.payload))
  }

  /** Every pending request in the map's order, each with a guid of its own. */
  ghost function Flushed(env: Env, w: World, prefix: string, drawn: nat, order: seq<string>): seq<Wire>
    requires forall x :: x in order ==> x in w.requests
    decreases |order|
  {
    if order == [] then []
    else [Publication(env, prefix, order[0], drawn, w.requests[order[0]].p)]
         + Flushed(env, w, prefix, drawn + 1, order[1..])
  }

  /** The subscriptions to the three inboxes, and the request to connect. */
  function Greeting(env: Env, sid: nat, target: Option<Target>): seq<Wire> {
    [Sub("_INBOX." + env.token(0), sid),
     Sub("_INBOX." + env.token(1) + ".*", sid + 1),
     Sub("_STAN.acks." + env.token(2) + ".*", sid + 2)]
    + match target
      case None => []
      case Some(t) =>
        [Pub(t.discoverPrefix + "." + t.clusterId, "_INBOX." + env.token(1) + "." + env.token(3),
             ConnectRequest(env.token(4), "_INBOX." + env.token(0)))]
  }

  /** What a request makes the client send: the publication, or CONNECT for the first one, or nothing yet. */
  function Requested(env: Env, prefix: Option<string>, first: Option<Target>, drawn: nat, p: Pending): seq<Wire> {
    match prefix
    case Some(x) => [Publication(env, x, InboxName(env, drawn), drawn + 1, p)]
    case None => if first.None? then [ConnectMsg] else []
  }

  function TargetAfter(prefix: Option<string>, first: Option<Target>, clusterId: string, discoverPrefix: string)
    : Option<Target>
  {
    if first.None? && prefix.None? then Some(Target(clusterId, discoverPrefix)) else first
  }

  /** What an operation line is answered with; SUB ids count from one. */
  function Answer(env: Env, line: string, c: Client, target: Option<Target>): seq<Wire> {
    if EqualsIgnoreCase(FirstWord(line), "INFO") then Greeting(env, |Sids(c.sent)| + 1, target)
    else if EqualsIgnoreCase(FirstWord(line), "PING") then [Pong]
    else []
  }

  /** What a whole frame is answered with. */
  ghost function Answered(env: Env, w: World, frame: Frame, text: string, order: seq<string>, drawn: nat): seq<Wire>
    requires forall x :: x in order ==> x in w.requests
  {
    if frame.subject == "_INBOX." + env.token(0) then
      if frame.replyTo.Some? && text == "" then [PubEmpty(frame.replyTo.value)] else []
    else if IsResponse(env, frame, text) then Flushed(env, w, env.prefixOf(text), drawn, order)
    else []
  }

  function InboxName(env: Env, k: nat): string {
    "_STAN.acks." + env.token(2) + "." + env.token(k)
  }

  /** What event n makes the client send. */
  ghost function Sends(env: Env, events: seq<Event>, n: nat): seq<Wire>
    requires IsRun(env, events) && n < |events|
    requires events[n].Line? ==> forall x :: x in events[n].order ==> x in Before(env, events, n).requests
  {
    var w := Before(env, events, n);
    var drawn := Draws(env, events, n);
    match events[n]
    case Publish(p, _, _) =>
      Requested(env, PrefixInForce(env, events, n), FirstTarget(env, events, n), drawn, p)
    case Line(text, order) =>
      (match Due(events, n)
       case Some(frame) => Answered(env, w, frame, text, order, drawn)
       case None => Answer(env, text, w.c, FirstTarget(env, events, n)))
    case _ => []
  }

  // ---------- Each event does ----------

  lemma {:induction false} Names(env: Env)
    ensures HeartbeatInbox(env) == "_INBOX." + env.token(0)
    ensures Join(RootInbox(env), "*") == "_INBOX." + env.token(1) + ".*"
    ensures Join(RootPubAckInbox(env), "*") == "_STAN.acks." + env.token(2) + ".*"
    ensures ConnectInbox(env) == "_INBOX." + env.token(1) + "." + env.token(3)
    ensures forall k :: PubAckInbox(env, k) == InboxName(env, k)
  {
  }

  lemma {:induction false} PublishedConcat(a: seq<Wire>, b: seq<Wire>)
    ensures Published(a + b) == Published(a) + Published(b)
    decreases |b|
  {
    if b == [] {
      assert a + b == a;
    } else {
      var last := b[|b| - 1];
      assert a + b == a + b[..|b| - 1] + [last] && b == b[..|b| - 1] + [last];
      PublishedAppend(a + b[..|b| - 1], last);
      PublishedAppend(b[..|b| - 1], last);
      PublishedConcat(a, b[..|b| - 1]);
    }
  }

  /** The flush sends the pending requests, each with the guid drawn for it. */
  lemma {:induction false} FlushSends(
    env: Env, w: World, c: Client, pending: map<string, Pending>, prefix: string, order: seq<string>)
    requires c.pubPrefix == Some(prefix)
    requires forall x :: x in order ==> x in pending && x in w.requests && w.requests[x].p == pending[x]
    ensures var r := Flush(env, c, pending, order);
            && r.sent == c.sent + Flushed(env, w, prefix, c.drawn, order) && r.drawn == c.drawn + |order|
            && r == c.(inFlight := r.inFlight, timers := r.timers, drawn := r.drawn, sent := r.sent)
    decreases |order|
  {
    if order != [] {
      var p := pending[order[0]];
      assert order[0] in order;
      FlushSends(env, w, PubPubMsg(env, c, p, order[0]), pending, prefix, order[1..]);
      assert Join(prefix, p.subject) == prefix + "." + p.subject;
    }
  }

  lemma {:induction false} FlushedAt(env: Env, w: World, prefix: string, drawn: nat, order: seq<string>)
    requires forall x :: x in order ==> x in w.requests
    ensures |Flushed(env, w, prefix, drawn, order)| == |order|
    ensures forall i :: 0 <= i < |order| ==>
              Flushed(env, w, prefix, drawn, order)[i]
              == Publication(env, prefix, order[i], drawn + i, w.requests[order[i]].p)
    decreases |order|
  {
    if order != [] {
      FlushedAt(env, w, prefix, drawn + 1, order[1..]);
      forall i | 0 < i < |order|
        ensures Flushed(env, w, prefix, drawn, order)[i]
             == Publication(env, prefix, order[i], drawn + i, w.requests[order[i]].p)
      {
        assert order[i] == order[1..][i - 1];
      }
    }
  }

  /** From c to r the client sends what the request asks for now. */
  ghost predicate SendsRequest(env: Env, c: Client, r: Client, p: Pending, clusterId: string, discoverPrefix: string)
    requires c.phase.Connected? ==> c.pubPrefix.Some?
  {
    && r.sent == c.sent + (if c.phase.Connected? then
                             [Publication(env, c.pubPrefix.value, InboxName(env, c.drawn), c.drawn + 1, p)]
                           else if c.phase.NotConnected? then [ConnectMsg] else [])
    && r.drawn == c.drawn + 1 + (if c.phase.Connected? then 1 else 0)
    && r.waiting == c.waiting && r.pubPrefix == c.pubPrefix
    && (r.phase.Connected? <==> c.phase.Connected?) && !r.phase.NotConnected?
    && (r.clusterId, r.discoverPrefix) == (if c.phase.NotConnected? then (Some(clusterId), Some(discoverPrefix))
                                           else (c.clusterId, c.discoverPrefix))
  }

  lemma {:induction false} PublishSends(env: Env, c: Client, p: Pending, clusterId: string, discoverPrefix: string)
    requires c.phase.Connected? ==> c.pubPrefix.Some?
    ensures SendsRequest(env, c, MakeRequest(env, c, p, clusterId, discoverPrefix).0, p, clusterId, discoverPrefix)
  {
    Names(env);
    if c.phase.Connected? {
      assert Join(c.pubPrefix.value, p.subject) == c.pubPrefix.value + "." + p.subject;
    }
  }

  lemma {:induction false} InfoSends(env: Env, c: Client)
    requires c.discoverPrefix.Some? <==> c.clusterId.Some?
    ensures var t := if c.clusterId.Some? then Some(Target(c.clusterId.value, c.discoverPrefix.value)) else None;
            var r := OnInfo(env, c).0;
            r.sent == c.sent + Greeting(env, c.sid, t) && r == c.(sent := r.sent, sid := r.sid)
  {
    Names(env);
    if c.clusterId.Some? {
      assert Join(c.discoverPrefix.value, c.clusterId.value) == c.discoverPrefix.value + "." + c.clusterId.value;
    }
  }

  lemma {:induction false} OperationSends(env: Env, c: Client, line: string)
    requires Tokens(line) != [] && c.waiting.None? && (c.discoverPrefix.Some? <==> c.clusterId.Some?)
    ensures var t := if c.clusterId.Some? then Some(Target(c.clusterId.value, c.discoverPrefix.value)) else None;
            var r := OnOperation(env, c, line).0;
            && r.sent == c.sent + (if EqualsIgnoreCase(FirstWord(line), "INFO") then Greeting(env, c.sid, t)
                                   else if EqualsIgnoreCase(FirstWord(line), "PING") then [Pong] else [])
            && r == c.(sent := r.sent, sid := r.sid, waiting := Announced(line))
  {
    WordsDiffer();
    InfoSends(env, c);
    match ParseOperation(line)
    case Info => assert Announced(line) == None;
    case Msg(frame) => assert Announced(line) == Some(frame);
    case Ping => assert Announced(line) == None;
    case Okay => PlusOkIsNoMsg(line);
    case Bad =>
  }

  lemma {:induction false} PlusOkIsNoMsg(line: string)
    requires EqualsIgnoreCase(FirstWord(line), "+OK")
    ensures !EqualsIgnoreCase(FirstWord(line), "MSG")
  {
    LowerAt("+OK");
    LowerAt("MSG");
  }

  lemma {:induction false} WordsDiffer()
    ensures !(exists s :: EqualsIgnoreCase(s, "INFO") && EqualsIgnoreCase(s, "MSG"))
    ensures !(exists s :: EqualsIgnoreCase(s, "PING") && EqualsIgnoreCase(s, "MSG"))
  {
    LowerAt("INFO");
    LowerAt("MSG");
    LowerAt("PING");
  }

  function LowerCase(c: char): char {
    if 'A' <= c <= 'Z' then (c as int + 32) as char else c
  }

  lemma {:induction false} LowerAt(s: string)
    ensures |Lower(s)| == |s| && forall i :: 0 <= i < |s| ==> Lower(s)[i] == LowerCase(s[i])
  {
    if s != "" {
      LowerAt(s[1..]);
    }
  }

  /** Two strings are equal up to the case of ASCII letters. */
  lemma {:induction false} EqualsIgnoreCaseExactly(a: string, b: string)
    ensures EqualsIgnoreCase(a, b) <==> |a| == |b| && forall i :: 0 <= i < |a| ==> LowerCase(a[i]) == LowerCase(b[i])
  {
    LowerAt(a);
    LowerAt(b);
    if |a| == |b| && forall i :: 0 <= i < |a| ==> LowerCase(a[i]) == LowerCase(b[i]) {
      assert Lower(a) == Lower(b);
    }
  }

  // ---------- Whole runs ----------

  lemma {:induction false} LineOrderIsRequested(env: Env, events: seq<Event>, n: nat)
    requires IsRun(env, events) && n < |events|
    ensures events[n].Line? ==> forall x :: x in events[n].order ==> x in Before(env, events, n).requests
  {
    BeforeNext(env, events, n);
  }

  /** After n events the client agrees with them, and event n makes it send what it should. */
  ghost predicate SentRight(env: Env, events: seq<Event>, n: nat)
    requires IsRun(env, events) && n < |events|
  {
    LineOrderIsRequested(env, events, n);
    Before(env, events, n + 1).c.sent == Before(env, events, n).c.sent + Sends(env, events, n)
  }

  /** The same of one step; what is sent, and what the client then agrees with. */
  lemma {:induction false} PublishStep(
    env: Env, w: World, e: Event, due: Option<Frame>, prefix: Option<string>, first: Option<Target>, n: nat)
    requires Inv(env, w) && Enabled(env, w, e) && e.Publish? && AgreesWith(w.c, due, prefix, first, n)
    ensures var r := Step(env, w, e).c;
            && r.sent == w.c.sent + Requested(env, prefix, first, w.c.drawn, e.p)
            && AgreesWith(r, due, prefix, TargetAfter(prefix, first, e.clusterId, e.discoverPrefix), n + 1)
  {
    PublishSends(env, w.c, e.p, e.clusterId, e.discoverPrefix);
    PublishPublished(env, w, e);
    PublishAgrees(env, w.c, Step(env, w, e).c, e, due, prefix, first, n);
  }

  lemma {:induction false} PublishAgrees(
    env: Env, c: Client, r: Client, e: Event, due: Option<Frame>, prefix: Option<string>, first: Option<Target>,
    n: nat)
    requires e.Publish? && AgreesWith(c, due, prefix, first, n)
    requires SendsRequest(env, c, r, e.p, e.clusterId, e.discoverPrefix)
    requires |Published(r.sent)| == |Published(c.sent)| + if c.phase.Connected? then 1 else 0
    ensures r.sent == c.sent + Requested(env, prefix, first, c.drawn, e.p)
    ensures AgreesWith(r, due, prefix, TargetAfter(prefix, first, e.clusterId, e.discoverPrefix), n + 1)
  {
  }

  lemma {:induction false} OperationStep(
    env: Env, c: Client, text: string, prefix: Option<string>, first: Option<Target>, n: nat)
    requires Tokens(text) != [] && AgreesWith(c, None, prefix, first, n) && c.sid == |Sids(c.sent)| + 1
    ensures var r := OnOperation(env, c, text).0;
            && r.sent == c.sent + Answer(env, text, c, first)
            && AgreesWith(r, Announced(text), prefix, first, n)
  {
    OperationSends(env, c, text);
    O.OperationPublishesNothing(env, c, text);
    var r := OnOperation(env, c, text).0;
    assert r == c.(sent := r.sent, sid := r.sid, waiting := Announced(text));
  }

  lemma {:induction false} FlushStep(
    env: Env, w: World, text: string, order: seq<string>, prefix: Option<string>, first: Option<Target>, n: nat)
    requires Inv(env, w) && Enumerates(order, w.c.pending) && AgreesWith(w.c, w.c.waiting, prefix, first, n)
    ensures forall x :: x in order ==> x in w.requests
    ensures var p := env.prefixOf(text);
            var r := OnConnected(env, w.c, p, order);
            && r.sent == w.c.sent + Flushed(env, w, p, w.c.drawn, order)
            && AgreesWith(r, w.c.waiting, Some(p), first, n)
  {
    var p := env.prefixOf(text);
    var c := w.c.(phase := Connected, pubPrefix := Some(p));
    FlushSends(env, w, c, w.c.pending, p, order);
    FlushPublishes(env, c, w.c.pending, order);
  }

  lemma {:induction false} FrameStep(
    env: Env, w: World, text: string, order: seq<string>, frame: Frame, prefix: Option<string>, first: Option<Target>,
    n: nat)
    requires Inv(env, w) && Enumerates(order, w.c.pending) && AgreesWith(w.c, Some(frame), prefix, first, n)
    ensures forall x :: x in order ==> x in w.requests
    ensures var r := OnFrame(env, w.c, frame, text, order);
            && r.sent == w.c.sent + Answered(env, w, frame, text, order, w.c.drawn)
            && AgreesWith(r, Some(frame), PrefixAfter(env, frame, text, prefix), first, n)
  {
    Names(env);
    SubjectsDiffer(env);
    if frame.subject == HeartbeatInbox(env) {
      if frame.replyTo.Some? && text == "" {
        PublishedAppend(w.c.sent, PubEmpty(frame.replyTo.value));
      }
    } else if IsResponse(env, frame, text) {
      FlushStep(env, w, text, order, prefix, first, n);
    } else {
      AckSends(env, w.c, frame.subject, frame.replyTo, text);
    }
  }

  function PrefixAfter(env: Env, frame: Frame, text: string, prefix: Option<string>): Option<string> {
    if IsResponse(env, frame, text) then Some(env.prefixOf(text)) else prefix
  }

  lemma {:induction false} AckSends(env: Env, c: Client, inbox: string, replyTo: Option<string>, text: string)
    ensures var r := OnPubAck(env, c, inbox, replyTo, text);
            r == c.(inFlight := r.inFlight, timers := r.timers, called := r.called)
  {
  }

  lemma {:induction false} SubjectsDiffer(env: Env)
    ensures HeartbeatInbox(env) == ConnectInbox(env) <==> env.token(1) + "." + env.token(3) == env.token(0)
  {
    var child := env.token(1) + "." + env.token(3);
    assert ConnectInbox(env) == Join("_INBOX", child);
    if HeartbeatInbox(env) == ConnectInbox(env) {
      JoinInjective("_INBOX", child, env.token(0));
    }
  }

  lemma {:induction false} PublishPublished(env: Env, w: World, e: Event)
    requires Inv(env, w) && Enabled(env, w, e) && e.Publish?
    ensures |Published(Step(env, w, e).c.sent)| == |Published(w.c.sent)| + if w.c.phase.Connected? then 1 else 0
  {
    if w.c.phase.Connected? {
      FlyAccepts(env, w, e.p, e.clusterId, e.discoverPrefix);
    } else {
      EnqueueAccepts(env, w, e.p, e.clusterId, e.discoverPrefix);
    }
  }

  /** A line handled by a client that agrees with what came before. */
  lemma {:induction false} LineStep(
    env: Env, w: World, e: Event, due: Option<Frame>, prefix: Option<string>, first: Option<Target>, n: nat)
    requires Inv(env, w) && Enabled(env, w, e) && e.Line? && AgreesWith(w.c, due, prefix, first, n)
    ensures forall x :: x in e.order ==> x in w.requests
    ensures var r := Step(env, w, e).c;
            match due
            case None =>
              && r.sent == w.c.sent + Answer(env, e.text, w.c, first)
              && AgreesWith(r, Announced(e.text), prefix, first, n)
            case Some(frame) =>
              && r.sent == w.c.sent + Answered(env, w, frame, e.text, e.order, w.c.drawn)
              && AgreesWith(r, None, PrefixAfter(env, frame, e.text, prefix), first, n)
  {
    match due {
      case None => OperationStep(env, w.c, e.text, prefix, first, n);
      case Some(frame) => FrameStep(env, w, e.text, e.order, frame, prefix, first, n);
    }
  }

  lemma {:induction false} AfterLine(env: Env, events: seq<Event>, n: nat)
    requires n < |events| && events[n].Line?
    ensures Requests(events, n + 1) == Requests(events, n)
    ensures FirstTarget(env, events, n + 1) == FirstTarget(env, events, n)
    ensures match Due(events, n)
            case None =>
              && Due(events, n + 1) == Announced(events[n].text)
              && PrefixInForce(env, events, n + 1) == PrefixInForce(env, events, n)
            case Some(frame) =>
              && Due(events, n + 1) == None
              && PrefixInForce(env, events, n + 1)
                 == PrefixAfter(env, frame, events[n].text, PrefixInForce(env, events, n))
  {
  }

  lemma {:induction false} LineIsRight(env: Env, events: seq<Event>, n: nat)
    requires IsRun(env, events) && n < |events| && Agrees(env, events, n) && events[n].Line?
    ensures SentRight(env, events, n) && Agrees(env, events, n + 1)
  {
    BeforeNext(env, events, n);
    AfterLine(env, events, n);
    var w := Before(env, events, n);
    LineStep(env, w, events[n], Due(events, n), PrefixInForce(env, events, n), FirstTarget(env, events, n),
             Requests(events, n));
    LineSends(env, events, n);
  }

  lemma {:induction false} LineSends(env: Env, events: seq<Event>, n: nat)
    requires IsRun(env, events) && n < |events| && Agrees(env, events, n) && events[n].Line?
    ensures forall x :: x in events[n].order ==> x in Before(env, events, n).requests
    ensures var w := Before(env, events, n);
            Sends(env, events, n)
            == match Due(events, n)
               case None => Answer(env, events[n].text, w.c, FirstTarget(env, events, n))
               case Some(frame) => Answered(env, w, frame, events[n].text, events[n].order, w.c.drawn)
  {
    LineOrderIsRequested(env, events, n);
    assert Draws(env, events, n) == Before(env, events, n).c.drawn;
  }

  lemma {:induction false} AfterPublish(env: Env, events: seq<Event>, n: nat)
    requires n < |events| && events[n].Publish?
    ensures Due(events, n + 1) == Due(events, n) && Requests(events, n + 1) == Requests(events, n) + 1
    ensures PrefixInForce(env, events, n + 1) == PrefixInForce(env, events, n)
    ensures FirstTarget(env, events, n + 1)
         == TargetAfter(PrefixInForce(env, events, n), FirstTarget(env, events, n),
                        events[n].clusterId, events[n].discoverPrefix)
  {
  }

  lemma {:induction false} PublishSendsRight(env: Env, events: seq<Event>, n: nat)
    requires IsRun(env, events) && n < |events| && events[n].Publish? && Agrees(env, events, n)
    ensures var drawn := Before(env, events, n).c.drawn;
            Sends(env, events, n)
            == Requested(env, PrefixInForce(env, events, n), FirstTarget(env, events, n), drawn, events[n].p)
  {
    assert Draws(env, events, n) == Before(env, events, n).c.drawn;
  }

  lemma {:induction false} PublishMoves(env: Env, events: seq<Event>, n: nat)
    requires IsRun(env, events) && n < |events| && Agrees(env, events, n) && events[n].Publish?
    ensures var c, r := Before(env, events, n).c, Before(env, events, n + 1).c;
            var prefix, first := PrefixInForce(env, events, n), FirstTarget(env, events, n);
            && r.sent == c.sent + Requested(env, prefix, first, c.drawn, events[n].p)
            && AgreesWith(r, Due(events, n), prefix,
                          TargetAfter(prefix, first, events[n].clusterId, events[n].discoverPrefix),
                          Requests(events, n) + 1)
  {
    BeforeNext(env, events, n);
    PublishStep(env, Before(env, events, n), events[n], Due(events, n), PrefixInForce(env, events, n),
                FirstTarget(env, events, n), Requests(events, n));
  }

  lemma {:induction false} PublishIsRight(env: Env, events: seq<Event>, n: nat)
    requires IsRun(env, events) && n < |events| && Agrees(env, events, n) && events[n].Publish?
    ensures SentRight(env, events, n) && Agrees(env, events, n + 1)
  {
    PublishMoves(env, events, n);
    AfterPublish(env, events, n);
    PublishSendsRight(env, events, n);
  }

  lemma {:induction false} StepIsRight(env: Env, events: seq<Event>, n: nat)
    requires IsRun(env, events) && n < |events| && Agrees(env, events, n)
    ensures SentRight(env, events, n) && Agrees(env, events, n + 1)
  {
    match events[n]
    case Publish(_, _, _) => PublishIsRight(env, events, n);
    case Line(_, _) => LineIsRight(env, events, n);
    case Timeout(_) => BeforeNext(env, events, n);
    case CancelRequest(_) => BeforeNext(env, events, n);
  }

  /**
   * In every run, before and after each event, the client's fields are what the events
   * say, and each event makes it send exactly the messages that follow from them.
   */
  lemma {:induction false} EverythingSent(env: Env, events: seq<Event>, n: nat)
    requires IsRun(env, events) && n <= |events|
    ensures Agrees(env, events, n)
    ensures n < |events| ==> SentRight(env, events, n)
    decreases n
  {
    BeforeEnds(env, events);
    if n > 0 {
      EverythingSent(env, events, n - 1);
      StepIsRight(env, events, n - 1);
    }
    if n < |events| {
      StepIsRight(env, events, n);
    }
  }

  /**
   * A line makes the client throw exactly if no payload is due and it is a MSG without
   * three or four arguments, an INFO before anything was asked for, or unknown.
   */
  lemma {:induction false} ThrowsExactly(env: Env, events: seq<Event>, n: nat)
    requires IsRun(env, events) && n < |events| && events[n].Line?
    ensures Enabled(env, Before(env, events, n), events[n])
    ensures var text := events[n].text;
            OnResponse(env, Before(env, events, n).c, text, events[n].order).1 <==>
              && Due(events, n).None?
              && if EqualsIgnoreCase(FirstWord(text), "INFO") then FirstTarget(env, events, n).None?
                 else if EqualsIgnoreCase(FirstWord(text), "MSG") then |Tokens(text)| != 4 && |Tokens(text)| != 5
                 else !EqualsIgnoreCase(FirstWord(text), "PING") && !EqualsIgnoreCase(FirstWord(text), "+OK")
  {
    BeforeNext(env, events, n);
    EverythingSent(env, events, n);
    if Due(events, n).None? {
      OperationThrows(env, Before(env, events, n).c, events[n].text);
    }
  }

  lemma {:induction false} OperationThrows(env: Env, c: Client, line: string)
    requires Tokens(line) != []
    ensures OnOperation(env, c, line).1 <==>
              if EqualsIgnoreCase(FirstWord(line), "INFO") then c.discoverPrefix.None? || c.clusterId.None?
              else if EqualsIgnoreCase(FirstWord(line), "MSG") then |Tokens(line)| != 4 && |Tokens(line)| != 5
              else !EqualsIgnoreCase(FirstWord(line), "PING") && !EqualsIgnoreCase(FirstWord(line), "+OK")
  {
  }

  // ---------- Every publication ----------

  /** Event n makes the client send its i-th message. */
  ghost predicate SentAt(env: Env, events: seq<Event>, i: nat, n: nat)
    requires IsRun(env, events)
  {
    n < |events| && |Before(env, events, n).c.sent| <= i < |Before(env, events, n + 1).c.sent|
  }

  lemma {:induction false} StepKeepsRequests(env: Env, w: World, e: Event)
    requires Inv(env, w) && Enabled(env, w, e)
    ensures Extends(w.requests, Step(env, w, e).requests)
  {
  }

  lemma {:induction false} StaysOneMore(env: Env, events: seq<Event>, n: nat)
    requires IsRun(env, events) && n < |events|
    ensures Before(env, events, n).c.sent <= Before(env, events, n + 1).c.sent
    ensures Extends(Before(env, events, n).requests, Before(env, events, n + 1).requests)
  {
    EverythingSent(env, events, n);
    BeforeNext(env, events, n);
    StepKeepsRequests(env, Before(env, events, n), events[n]);
  }

  ghost predicate Extends(v: map<string, Request>, w: map<string, Request>) {
    forall x :: x in v ==> x in w && w[x] == v[x]
  }

  /** What has been sent stays sent, and the requests stay requested. */
  lemma {:induction false} Stays(env: Env, events: seq<Event>, l: nat, m: nat)
    requires IsRun(env, events) && l <= m <= |events|
    ensures Before(env, events, l).c.sent <= Before(env, events, m).c.sent
    ensures Requests(events, l) <= Requests(events, m)
    ensures Extends(Before(env, events, l).requests, Before(env, events, m).requests)
    decreases m
  {
    if l < m {
      Stays(env, events, l, m - 1);
      StaysOneMore(env, events, m - 1);
    }
  }

  lemma {:induction false} SentBySomeEvent(env: Env, events: seq<Event>, l: nat, i: nat) returns (n: nat)
    requires IsRun(env, events) && l <= |events| && i < |Before(env, events, l).c.sent|
    ensures n < l && SentAt(env, events, i, n)
    decreases l
  {
    BeforeEnds(env, events);
    if l == 0 {
      assert false;
    } else if i < |Before(env, events, l - 1).c.sent| {
      n := SentBySomeEvent(env, events, l - 1, i);
    } else {
      n := l - 1;
    }
  }

  /** The draw that gives a publication its guid. */
  ghost function GuidDraw(events: seq<Event>, sent: seq<Wire>, i: nat, n: nat): nat
    requires n < |events| && i <= |sent|
  {
    5 + Requests(events, n + 1) + |Published(sent[..i])|
  }

  /** The i-th message publishes a request made so far under the prefix in force when event n is done. */
  ghost predicate PublishesUnder(
    env: Env, events: seq<Event>, sent: seq<Wire>, requests: map<string, Request>, i: nat, n: nat)
    requires n < |events| && i < |sent|
  {
    var m := sent[i];
    && m.Pub? && m.replyTo in requests && PrefixInForce(env, events, n + 1).Some?
    && m == Publication(env, PrefixInForce(env, events, n + 1).value, m.replyTo, GuidDraw(events, sent, i, n),
                        requests[m.replyTo].p)
  }

  lemma {:induction false} PublishedCount(s: seq<Wire>)
    requires forall i :: 0 <= i < |s| ==> IsPublication(s[i])
    ensures |Published(s)| == |s|
    decreases |s|
  {
    if s != [] {
      PublishedCount(s[..|s| - 1]);
    }
  }

  /** A request published at once. */
  lemma {:induction false} PublishedAtOnce(env: Env, events: seq<Event>, i: nat, n: nat)
    requires IsRun(env, events) && SentAt(env, events, i, n) && events[n].Publish?
    requires IsPublication(Before(env, events, n + 1).c.sent[i])
    ensures var r := Before(env, events, n + 1); PublishesUnder(env, events, r.c.sent, r.requests, i, n)
  {
    EverythingSent(env, events, n);
    RequestMade(env, events, n);
    var w, r := Before(env, events, n), Before(env, events, n + 1);
    assert r.c.sent[..i] == w.c.sent;
  }

  lemma {:induction false} PublishRequests(env: Env, w: World, e: Event)
    requires Inv(env, w) && Enabled(env, w, e) && e.Publish?
    ensures Step(env, w, e).requests == w.requests[PubAckInbox(env, w.c.drawn) := Request(w.c.drawn, e.p)]
  {
  }

  lemma {:induction false} RequestMade(env: Env, events: seq<Event>, n: nat)
    requires IsRun(env, events) && n < |events| && events[n].Publish?
    ensures var w, drawn := Before(env, events, n), Draws(env, events, n);
            Before(env, events, n + 1).requests
            == w.requests[InboxName(env, drawn) := Request(drawn, events[n].p)]
  {
    EverythingSent(env, events, n);
    BeforeNext(env, events, n);
    PublishRequests(env, Before(env, events, n), events[n]);
    Names(env);
    assert Draws(env, events, n) == Before(env, events, n).c.drawn;
  }

  lemma {:induction false} FlushSent(env: Env, events: seq<Event>, n: nat)
    requires IsRun(env, events) && n < |events| && Connects(env, events, n)
    ensures var w, e := Before(env, events, n), events[n];
            && (forall x :: x in e.order ==> x in w.requests)
            && Before(env, events, n + 1).c.sent
               == w.c.sent + Flushed(env, w, env.prefixOf(e.text), Draws(env, events, n), e.order)
  {
    EverythingSent(env, events, n);
    LineSends(env, events, n);
    SubjectsDiffer(env);
    Names(env);
    assert Draws(env, events, n) == Before(env, events, n).c.drawn;
  }

  /** A pending request published by a connect response. */
  lemma {:induction false} PublishedByFlush(env: Env, events: seq<Event>, i: nat, n: nat)
    requires IsRun(env, events) && SentAt(env, events, i, n) && Connects(env, events, n)
    ensures var r := Before(env, events, n + 1); PublishesUnder(env, events, r.c.sent, r.requests, i, n)
  {
    FlushSent(env, events, n);
    StaysOneMore(env, events, n);
    var w, order := Before(env, events, n), events[n].order;
    FlushedUnder(env, w, env.prefixOf(events[n].text), Draws(env, events, n), order, i - |w.c.sent|);
    FlushDraws(env, events, n);
  }

  lemma {:induction false} FlushDraws(env: Env, events: seq<Event>, n: nat)
    requires IsRun(env, events) && n < |events| && Connects(env, events, n)
    ensures PrefixInForce(env, events, n + 1) == Some(env.prefixOf(events[n].text))
    ensures Draws(env, events, n) == 5 + Requests(events, n + 1) + |Published(Before(env, events, n).c.sent)|
  {
  }

  /** A message of a flush, after what had been sent before. */
  lemma {:induction false} FlushedUnder(env: Env, w: World, prefix: string, drawn: nat, order: seq<string>, j: nat)
    requires (forall x :: x in order ==> x in w.requests) && j < |Flushed(env, w, prefix, drawn, order)|
    ensures var sent := w.c.sent + Flushed(env, w, prefix, drawn, order);
            var m := sent[|w.c.sent| + j];
            && m.Pub? && m.replyTo in w.requests
            && m == Publication(env, prefix, m.replyTo, drawn + j, w.requests[m.replyTo].p)
            && |Published(sent[..|w.c.sent| + j])| == |Published(w.c.sent)| + j
  {
    FlushedOne(env, w, prefix, drawn, order, j);
    FlushedCount(w.c.sent, Flushed(env, w, prefix, drawn, order), j);
  }

  lemma {:induction false} FlushedOne(env: Env, w: World, prefix: string, drawn: nat, order: seq<string>, j: nat)
    requires (forall x :: x in order ==> x in w.requests) && j < |Flushed(env, w, prefix, drawn, order)|
    ensures var f := Flushed(env, w, prefix, drawn, order);
            && f[j].Pub? && f[j].replyTo in w.requests
            && f[j] == Publication(env, prefix, f[j].replyTo, drawn + j, w.requests[f[j].replyTo].p)
            && forall i :: 0 <= i < |f| ==> IsPublication(f[i])
  {
    FlushedAt(env, w, prefix, drawn, order);
    assert order[j] in order;
  }

  lemma {:induction false} FlushedCount(sent: seq<Wire>, f: seq<Wire>, j: nat)
    requires j <= |f| && forall i :: 0 <= i < |f| ==> IsPublication(f[i])
    ensures |Published((sent + f)[..|sent| + j])| == |Published(sent)| + j
  {
    PublishedCount(f[..j]);
    PublishedConcat(sent, f[..j]);
    assert (sent + f)[..|sent| + j] == sent + f[..j];
  }

  lemma {:induction false} AnswersAreNoPublications(env: Env, line: string, c: Client, target: Option<Target>, j: nat)
    requires j < |Answer(env, line, c, target)|
    ensures !IsPublication(Answer(env, line, c, target)[j])
  {
  }

  lemma {:induction false} OthersPublishNothing(env: Env, events: seq<Event>, i: nat, n: nat)
    requires IsRun(env, events) && SentAt(env, events, i, n) && !events[n].Publish?
    requires !Connects(env, events, n)
    ensures !IsPublication(Before(env, events, n + 1).c.sent[i])
  {
    EverythingSent(env, events, n);
    var w, r := Before(env, events, n), Before(env, events, n + 1);
    if events[n].Line? {
      LineSends(env, events, n);
      if Due(events, n).None? {
        AnswersAreNoPublications(env, events[n].text, w.c, FirstTarget(env, events, n), i - |w.c.sent|);
      }
    }
  }

  /**
   * In every run each publication was sent by a request's own event or by a connect
   * response: its outer subject is the prefix then in force, a dot and the request's own
   * subject, and inside are the client's id, a guid of its own, and what was asked for.
   */
  lemma {:induction false} PublishedUnderPrefix(env: Env, events: seq<Event>, i: nat) returns (n: nat)
    requires IsRun(env, events) && i < |Run(env, START, events).c.sent|
    requires IsPublication(Run(env, START, events).c.sent[i])
    ensures var r := Run(env, START, events);
            && SentAt(env, events, i, n) && (events[n].Publish? || Connects(env, events, n))
            && PublishesUnder(env, events, r.c.sent, r.requests, i, n)
  {
    BeforeEnds(env, events);
    n := SentBySomeEvent(env, events, |events|, i);
    Stays(env, events, n + 1, |events|);
    var m, r := Before(env, events, n + 1), Run(env, START, events);
    assert m.c.sent[i] == r.c.sent[i];
    PublishedThen(env, events, i, n);
    PublishesLater(env, events, m.c.sent, m.requests, r.c.sent, r.requests, i, n);
  }

  lemma {:induction false} PublishesLater(
    env: Env, events: seq<Event>, sent: seq<Wire>, requests: map<string, Request>,
    later: seq<Wire>, more: map<string, Request>, i: nat, n: nat)
    requires n < |events| && i < |sent| && sent <= later && Extends(requests, more)
    requires PublishesUnder(env, events, sent, requests, i, n)
    ensures PublishesUnder(env, events, later, more, i, n)
  {
    assert later[i] == sent[i] && later[..i] == sent[..i];
  }

  lemma {:induction false} PublishedThen(env: Env, events: seq<Event>, i: nat, n: nat)
    requires IsRun(env, events) && SentAt(env, events, i, n)
    requires IsPublication(Before(env, events, n + 1).c.sent[i])
    ensures events[n].Publish? || Connects(env, events, n)
    ensures var r := Before(env, events, n + 1); PublishesUnder(env, events, r.c.sent, r.requests, i, n)
  {
    if events[n].Publish? {
      PublishedAtOnce(env, events, i, n);
    } else if Connects(env, events, n) {
      PublishedByFlush(env, events, i, n);
    } else {
      OthersPublishNothing(env, events, i, n);
    }
  }

  /** Every request was made by an event, with what it carries, and its inbox is named by a token drawn then. */
  lemma {:induction false} RequestMadeBy(env: Env, events: seq<Event>, l: nat, x: string) returns (m: nat)
    requires IsRun(env, events) && l <= |events| && x in Before(env, events, l).requests
    ensures m < l && events[m].Publish? && events[m].p == Before(env, events, l).requests[x].p
    ensures Before(env, events, l).requests[x].k == Draws(env, events, m) && x == InboxName(env, Draws(env, events, m))
    decreases l
  {
    BeforeEnds(env, events);
    if l == 0 {
      assert false;
    } else {
      var w := Before(env, events, l - 1);
      StaysOneMore(env, events, l - 1);
      if events[l - 1].Publish? {
        RequestMade(env, events, l - 1);
      } else {
        NoRequestMade(env, events, l - 1);
      }
      if x in w.requests {
        m := RequestMadeBy(env, events, l - 1, x);
      } else {
        m := l - 1;
      }
    }
  }

  lemma {:induction false} NoRequestMade(env: Env, events: seq<Event>, n: nat)
    requires IsRun(env, events) && n < |events| && !events[n].Publish?
    ensures Before(env, events, n + 1).requests == Before(env, events, n).requests
  {
    BeforeNext(env, events, n);
  }

  // ---------- Guids ----------

  lemma {:induction false} PublishedGrows(sent: seq<Wire>, i: nat, j: nat)
    requires i < j <= |sent| && IsPublication(sent[i])
    ensures |Published(sent[..i])| < |Published(sent[..j])|
  {
    OneMore(sent, i);
    PublishedAppend(sent[..i], sent[i]);
    assert sent[..j] == sent[..i + 1] + sent[i + 1..j];
    PublishedConcat(sent[..i + 1], sent[i + 1..j]);
  }

  lemma {:induction false} SentInTurn(env: Env, events: seq<Event>, i: nat, n: nat, j: nat, m: nat)
    requires IsRun(env, events) && i < j && SentAt(env, events, i, n) && SentAt(env, events, j, m)
    ensures n <= m
  {
    if m < n {
      Stays(env, events, m + 1, n);
    }
  }

  /** Guids are drawn one after the other: no two publications of a run share a draw. */
  lemma {:induction false} GuidsIncrease(env: Env, events: seq<Event>, i: nat, n: nat, j: nat, m: nat)
    requires IsRun(env, events) && i < j && SentAt(env, events, i, n) && SentAt(env, events, j, m)
    requires j < |Run(env, START, events).c.sent| && IsPublication(Run(env, START, events).c.sent[i])
    ensures var sent := Run(env, START, events).c.sent;
            GuidDraw(events, sent, i, n) < GuidDraw(events, sent, j, m)
  {
    SentInTurn(env, events, i, n, j, m);
    Stays(env, events, n + 1, m + 1);
    PublishedGrows(Run(env, START, events).c.sent, i, j);
  }

  /** Nor does a publication share its draw with the inbox of a request. */
  lemma {:induction false} GuidsAreNoInboxes(env: Env, events: seq<Event>, i: nat, n: nat, m: nat)
    requires IsRun(env, events) && SentAt(env, events, i, n) && m < |events| && events[m].Publish?
    requires i < |Run(env, START, events).c.sent| && IsPublication(Run(env, START, events).c.sent[i])
    ensures GuidDraw(events, Run(env, START, events).c.sent, i, n) != Draws(env, events, m)
  {
    var sent := Run(env, START, events).c.sent;
    var s := Before(env, events, m).c.sent;
    BeforeEnds(env, events);
    Stays(env, events, m, |events|);
    assert sent[..|s|] == s;
    if n < m {
      Stays(env, events, n + 1, m);
      PublishedGrows(sent, i, |s|);
    } else {
      Stays(env, events, m, n);
      Stays(env, events, m + 1, n + 1);
      assert sent[..i] == s + sent[|s|..i];
      PublishedConcat(s, sent[|s|..i]);
    }
  }

  lemma {:induction false} GuidsAreDrawn(env: Env, events: seq<Event>, i: nat, n: nat)
    requires IsRun(env, events) && SentAt(env, events, i, n) && i < |Run(env, START, events).c.sent|
    requires IsPublication(Run(env, START, events).c.sent[i])
    ensures GuidDraw(events, Run(env, START, events).c.sent, i, n) < Run(env, START, events).c.drawn
  {
    var sent := Run(env, START, events).c.sent;
    BeforeEnds(env, events);
    EverythingSent(env, events, |events|);
    Stays(env, events, n + 1, |events|);
    PublishedGrows(sent, i, |sent|);
    assert sent[..|sent|] == sent;
  }

  /** As long as no token comes twice, the guids of a run are all different. */
  lemma {:induction false} GuidsDiffer(env: Env, events: seq<Event>, i: nat, j: nat)
    requires IsRun(env, events) && T.FreshWithin(env, Run(env, START, events).c.drawn)
    requires i < j < |Run(env, START, events).c.sent|
    requires IsPublication(Run(env, START, events).c.sent[i]) && IsPublication(Run(env, START, events).c.sent[j])
    ensures Run(env, START, events).c.sent[i].body.guid != Run(env, START, events).c.sent[j].body.guid
  {
    var n := PublishedUnderPrefix(env, events, i);
    var m := PublishedUnderPrefix(env, events, j);
    GuidsIncrease(env, events, i, n, j, m);
    GuidsAreDrawn(env, events, j, m);
  }
}

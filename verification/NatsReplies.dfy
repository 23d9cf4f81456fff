/**
 * What the filters on one client relay and reply, told from the events: their requests
 * are those of their Relay events, and each status they send names the event behind it.
 */
module NatsReplies {
  import opened Common
  import opened NatsModel
  import opened NatsSystem
  import S = NatsSystem
  import R = NatsRuns
  import N = NatsSends
  import C = NatsCalls

  /** What the client sees of an event. */
  function ClientEvent(s: System, e: Event): seq<R.Event> {
    match e
    case Open => []
    case Relay(i, subject, payload, clusterId, discoverPrefix) =>
      [R.Publish(Pending(subject, payload, i), clusterId, discoverPrefix)]
    case Server(text, order, _) => [R.Line(text, order)]
    case Expire(inbox, _) => [R.Timeout(inbox)]
    case Destroy(j) =>
      if j < |s.filters| && s.filters[j].handle.Some? then [R.CancelRequest(s.filters[j].handle.value)] else []
  }

  ghost function ClientEvents(env: Env, s: System, events: seq<Event>): seq<R.Event>
    requires Inv(env, s) && Legal(env, s, events)
    decreases |events|
  {
    if events == [] then []
    else
      StepKeepsInv(env, s, events[0]);
      ClientEvent(s, events[0]) + ClientEvents(env, Step(env, s, events[0]), events[1..])
  }

  lemma {:induction false} NotifyMovesTheClient(s: System, w: R.World, destroys: bool)
    ensures S.Notify(s, w, destroys).w == w
  {
  }

  lemma {:induction false} StepMovesTheClient(env: Env, s: System, e: Event)
    requires Inv(env, s) && Enabled(env, s, e)
    ensures var c := ClientEvent(s, e);
            if c == [] then Step(env, s, e).w == s.w
            else |c| == 1 && R.Enabled(env, s.w, c[0]) && Step(env, s, e).w == R.Step(env, s.w, c[0])
  {
    match e
    case Open =>
    case Relay(_, _, _, _, _) =>
    case Server(text, order, destroys) => NotifyMovesTheClient(s, R.Step(env, s.w, R.Line(text, order)), destroys);
    case Expire(inbox, dies) => NotifyMovesTheClient(s, R.Step(env, s.w, R.Timeout(inbox)), dies);
    case Destroy(j) =>
  }

  lemma {:induction false} OneMoreEvent(env: Env, w: R.World, c: seq<R.Event>, rest: seq<R.Event>, r: R.World)
    requires R.Inv(env, w) && R.Inv(env, r) && R.Legal(env, r, rest)
    requires if c == [] then r == w else |c| == 1 && R.Enabled(env, w, c[0]) && r == R.Step(env, w, c[0])
    ensures R.Legal(env, w, c + rest) && R.Run(env, w, c + rest) == R.Run(env, r, rest)
  {
    if c == [] {
      assert c + rest == rest;
    } else {
      R.StepKeepsInv(env, w, c[0]);
      assert (c + rest)[0] == c[0] && (c + rest)[1..] == rest;
    }
  }

  /** The client of the filters runs through what it sees of their events. */
  lemma {:induction false} ClientRuns(env: Env, s: System, events: seq<Event>)
    requires Inv(env, s) && Legal(env, s, events)
    ensures R.Legal(env, s.w, ClientEvents(env, s, events))
    ensures R.Run(env, s.w, ClientEvents(env, s, events)) == Run(env, s, events).w
    decreases |events|
  {
    if events != [] {
      var e, rest := events[0], events[1..];
      StepKeepsInv(env, s, e);
      StepMovesTheClient(env, s, e);
      var r := Step(env, s, e);
      ClientRuns(env, r, rest);
      OneMoreEvent(env, s.w, ClientEvent(s, e), ClientEvents(env, r, rest), r.w);
    }
  }

  /** The client is asked to publish exactly what filters relay. */
  lemma {:induction false} PublishesAreRelays(
    env: Env, s: System, events: seq<Event>, p: Pending, clusterId: string, discoverPrefix: string)
    requires Inv(env, s) && Legal(env, s, events)
    ensures R.Publish(p, clusterId, discoverPrefix) in ClientEvents(env, s, events)
       <==> Relay(p.callbacks, p.subject, p.payload, clusterId, discoverPrefix) in events
    decreases |events|
  {
    if events != [] {
      var c := ClientEvent(s, events[0]);
      StepKeepsInv(env, s, events[0]);
      var rest := ClientEvents(env, Step(env, s, events[0]), events[1..]);
      PublishesAreRelays(env, Step(env, s, events[0]), events[1..], p, clusterId, discoverPrefix);
      var x := R.Publish(p, clusterId, discoverPrefix);
      assert x in c + rest <==> x in c || x in rest;
      var y := Relay(p.callbacks, p.subject, p.payload, clusterId, discoverPrefix);
      assert events == [events[0]] + events[1..];
      assert y in events <==> y == events[0] || y in events[1..];
    }
  }

  ghost predicate IsRun(env: Env, events: seq<Event>) {
    Inv(env, System(R.START, [])) && Legal(env, System(R.START, []), events)
  }

  ghost function Seen(env: Env, events: seq<Event>): seq<R.Event>
    requires IsRun(env, events)
  {
    ClientEvents(env, System(R.START, []), events)
  }

  /** A filter's request carries the subject and the payload it relayed. */
  lemma {:induction false} RelayedAsAsked(env: Env, events: seq<Event>, i: nat)
    returns (clusterId: string, discoverPrefix: string)
    requires IsRun(env, events) && i < |Run(env, System(R.START, []), events).filters|
    requires Run(env, System(R.START, []), events).filters[i].relayed.Some?
    ensures var r := Run(env, System(R.START, []), events);
            var x := r.filters[i].relayed.value;
            && x in r.w.requests && r.w.requests[x].p.callbacks == i
            && Relay(i, r.w.requests[x].p.subject, r.w.requests[x].p.payload, clusterId, discoverPrefix) in events
  {
    var s0 := System(R.START, []);
    var r, seen := Run(env, s0, events), Seen(env, events);
    RunKeepsInv(env, s0, events);
    ClientRuns(env, s0, events);
    assert FilterOk(r, i);
    N.BeforeEnds(env, seen);
    var m := N.RequestMadeBy(env, seen, |seen|, r.filters[i].relayed.value);
    clusterId, discoverPrefix := seen[m].clusterId, seen[m].discoverPrefix;
    assert seen[m] in seen;
    PublishesAreRelays(env, s0, events, seen[m].p, clusterId, discoverPrefix);
  }

  /** A status that was sent is that of one of the callbacks. */
  lemma {:induction false} StatusOfACall(called: seq<Callback>, x: string) returns (k: nat)
    requires |StatusesFor(called, x)| == 1
    ensures k < |called| && called[k].inbox == x && StatusesFor(called, x) == [StatusOf(called[k].kind)]
    decreases |called|
  {
    var front, last := called[..|called| - 1], called[|called| - 1];
    if last.inbox == x && StatusesFor(front, x) == [] {
      k := |called| - 1;
    } else {
      k := StatusOfACall(front, x);
    }
  }

  /** Why the filter replies: what event n of those the client sees is for its request. */
  ghost predicate Because(env: Env, seen: seq<R.Event>, n: nat, x: string, status: nat) {
    && n < |seen|
    && (status == 200 <==> C.Acks(seen, n, x) && env.ackError(seen[n].text) == Some(""))
    && (status == 500 <==> C.Acks(seen, n, x) && env.ackError(seen[n].text) != Some(""))
    && (status == 408 <==> seen[n] == R.Timeout(x))
    && status in {200, 500, 408}
  }

  /**
   * In every run a filter that has replied did so once: with 200 exactly if its request's
   * payload line parsed with an empty error, with 500 exactly if another well-formed ack
   * came for it, and with 408 exactly if its timer fired.
   */
  lemma {:induction false} StatusSaysWhy(env: Env, events: seq<Event>, i: nat) returns (n: nat)
    requires IsRun(env, events) && i < |Run(env, System(R.START, []), events).filters|
    requires Run(env, System(R.START, []), events).filters[i].replies != []
    ensures var f := Run(env, System(R.START, []), events).filters[i];
            f.relayed.Some? && |f.replies| == 1 && Because(env, Seen(env, events), n, f.relayed.value, f.replies[0])
  {
    var s0 := System(R.START, []);
    var r, seen := Run(env, s0, events), Seen(env, events);
    FiltersReplyOnce(env, events, i);
    RunKeepsInv(env, s0, events);
    ClientRuns(env, s0, events);
    assert FilterOk(r, i);
    var k := StatusOfACall(r.w.c.called, r.filters[i].relayed.value);
    n := C.KindsAreCauses(env, seen, k);
  }
}

/**
 * The client object driven through a whole run, event by event: it ends in the state the
 * run ends in, so what NatsRuns and NatsOrder prove of runs holds of the object.
 */
module NatsDriver {
  import opened Common
  import opened NatsModel
  import opened NatsClient
  import R = NatsRuns

  /** One event reaches the client. */
  method Handle(client: ClientImpl, e: R.Event, ghost w: R.World)
    requires client.View() == w.c && R.Inv(client.env, w) && R.Enabled(client.env, w, e)
    modifies client, client.out
    ensures client.View() == R.Step(client.env, w, e).c
  {
    match e {
      case Publish(p, clusterId, discoverPrefix) =>
        var inbox := client.MakeRequest(p.subject, clusterId, discoverPrefix, p.payload, p.callbacks);
      case Line(text, order) =>
        var ok := client.OnResponse(text, order);
      case Timeout(inbox) => client.OnTimeout(inbox);
      case CancelRequest(inbox) => client.CancelRequest(inbox);
    }
  }

  /** From w on, the run has the events from n on to go, and ends in `last`. */
  ghost predicate ToGo(env: Env, w: R.World, events: seq<R.Event>, n: nat, last: R.World) {
    n <= |events| && R.Inv(env, w) && R.Legal(env, w, events[n..]) && R.Run(env, w, events[n..]) == last
  }

  lemma {:induction false} OneLessToGo(env: Env, w: R.World, events: seq<R.Event>, n: nat, last: R.World)
    requires n < |events| && ToGo(env, w, events, n, last)
    ensures R.Enabled(env, w, events[n]) && ToGo(env, R.Step(env, w, events[n]), events, n + 1, last)
  {
    R.StepKeepsInv(env, w, events[n]);
    assert events[n..][0] == events[n] && events[n..][1..] == events[n + 1..];
  }

  /** A new client through any legal run. */
  method Drive(env: Env, events: seq<R.Event>) returns (client: ClientImpl)
    requires R.Inv(env, R.START) && R.Legal(env, R.START, events)
    ensures client.env == env && client.View() == R.Run(env, R.START, events).c
  {
    var out := new Surroundings();
    client := new ClientImpl(env, out);
    ghost var w := R.START;
    ghost var last := R.Run(env, R.START, events);
    assert events[0..] == events;
    for n := 0 to |events|
      invariant fresh(client) && fresh(client.out) && client.env == env && client.View() == w.c
      invariant ToGo(env, w, events, n, last)
    {
      OneLessToGo(env, w, events, n, last);
      Handle(client, events[n], w);
      w := R.Step(env, w, events[n]);
    }
  }
}

/**
 * The objects driven through a whole run, event by event: they end in the state the run
 * ends in, so what StsRuns and StsProvenance prove of runs holds of the objects.
 */
module StsDriver {
  import opened Common
  import opened StsModel
  import opened StsLedger
  import opened StsFlight
  import opened StsProvider
  import opened StsRuns

  /** The provider stands where the run stands. */
  ghost predicate At(provider: StsCredentialsProvider, w: World)
    reads provider, provider.callers, provider.pools.Values
  {
    && provider.Valid() && provider.model == w.p
    && Inv(w.p) && Ledger(w.p, w.asks, w.cancelled)
  }

  /** One event reaches the object it is for; `asks` are the calls made so far. */
  method Handle(provider: StsCredentialsProvider, e: Event, asks: seq<Ask>, ghost w: World) returns (made: seq<Ask>)
    requires At(provider, w) && asks == w.asks && Enabled(w, e)
    modifies provider.Footprint()
    ensures provider.Grown() && At(provider, Step(w, e)) && made == Step(w, e).asks
  {
    InvIsOrderly(w.p);
    StepKeepsInv(w, e);
    made := asks;
    match e {
      case Call(roleArg, disable, now, inline) =>
        made := asks + [Ask(match roleArg case Some(r) => r case None => provider.defaultRole, disable)];
        var context := provider.Find(roleArg, disable, |asks|, now, inline);
      case Response(k, body, now, inline) =>
        provider.pools[k].FetchSucceeded(body, now, inline);
      case Failure(k, status) =>
        provider.pools[k].FetchFailed(status);
      case CancelCall(n) =>
        var pool := provider.pools[KeyOf(asks[n])];
        pool.Cancel(FirstIndex(pool.connectionList, n));
      case NewToken(token) =>
        provider.SetWebToken(token);
    }
  }

  /** From w on, the run has the events from n on to go, and ends in `last`. */
  ghost predicate ToGo(w: World, events: seq<Event>, n: nat, last: World) {
    n <= |events| && Legal(w, events[n..]) && Run(w, events[n..]) == last
  }

  lemma {:induction false} OneLessToGo(w: World, events: seq<Event>, n: nat, last: World)
    requires n < |events| && ToGo(w, events, n, last)
    ensures Enabled(w, events[n]) && ToGo(Step(w, events[n]), events, n + 1, last)
  {
    assert events[n..][0] == events[n] && events[n..][1..] == events[n + 1..];
  }

  method Make(defaultRole: string, token: string) returns (provider: StsCredentialsProvider)
    ensures fresh(provider.Footprint()) && At(provider, Initial(defaultRole, token))
  {
    var callers := new Callers();
    provider := new StsCredentialsProvider(token, defaultRole, callers);
  }

  /** A provider and its pools, from the constructor through any legal run. */
  method Drive(defaultRole: string, token: string, events: seq<Event>) returns (provider: StsCredentialsProvider)
    requires Legal(Initial(defaultRole, token), events)
    ensures provider.Valid() && provider.model == Run(Initial(defaultRole, token), events).p
  {
    provider := Make(defaultRole, token);
    var asks: seq<Ask> := [];
    ghost var w := Initial(defaultRole, token);
    ghost var last := Run(w, events);
    assert events[0..] == events;
    for n := 0 to |events|
      invariant fresh(provider.Footprint()) && At(provider, w) && asks == w.asks
      invariant ToGo(w, events, n, last)
    {
      OneLessToGo(w, events, n, last);
      asks := Handle(provider, events[n], asks, w);
      w := Step(w, events[n]);
    }
  }
}

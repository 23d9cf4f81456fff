/**
 * The generator supplies the freshness the client relies on: as long as it keeps its
 * prefix, no token it draws comes twice, so a run that draws no more than that is legal.
 */
module NatsTokens {
  import opened Common
  import opened NatsModel
  import opened NatsRuns
  import S = NatsSystem
  import U = Nuid

  /** No two of the first n tokens are equal. */
  ghost predicate FreshWithin(env: Env, n: nat) {
    forall i: nat, j: nat :: i < j < n ==> env.token(i) != env.token(j)
  }

  /** The tokens of the environment are those of the generator. */
  ghost predicate TokensFrom(env: Env, g: U.Generator, draws: seq<U.Draws>)
    requires U.Valid(g)
  {
    forall i: nat :: i < |draws| ==> env.token(i) == U.TokenAt(g, draws, i)
  }

  /** There is such an environment for every generator. */
  ghost function EnvFrom(g: U.Generator, draws: seq<U.Draws>,
                         ackError: string -> Option<string>, prefixOf: string -> string): (env: Env)
    requires U.Valid(g)
    ensures TokensFrom(env, g, draws)
  {
    Env((i: nat) => if i < |draws| then U.TokenAt(g, draws, i) else "", ackError, prefixOf)
  }

  /** While the generator keeps its prefix all its tokens differ. */
  lemma GeneratedTokensAreFresh(env: Env, g: U.Generator, draws: seq<U.Draws>)
    requires U.Valid(g) && U.NoReset(g, draws) && TokensFrom(env, g, draws)
    ensures FreshWithin(env, |draws|)
  {
    forall i: nat, j: nat | i < j < |draws|
      ensures env.token(i) != env.token(j)
    {
      assert env.token(i) == U.TokenAt(g, draws, i) && env.token(j) == U.TokenAt(g, draws, j);
      U.TokensDiffer(g, draws, i, j);
    }
  }

  // ---------- Runs ----------

  lemma InboxIsNew(env: Env, w: World, n: nat)
    requires FreshWithin(env, n) && w.c.drawn < n && Ledger(env, w)
    ensures PubAckInbox(env, w.c.drawn) !in w.requests
  {
    var inbox := PubAckInbox(env, w.c.drawn);
    if inbox in w.requests {
      JoinInjective(RootPubAckInbox(env), env.token(w.c.drawn), env.token(w.requests[inbox].k));
    }
  }

  /** As Enabled, but instead of asking for a new name it asks that one of the first n tokens is drawn. */
  ghost predicate EnabledWithin(env: Env, w: World, e: Event, n: nat) {
    match e
    case Publish(_, _, _) => w.c.drawn < n
    case _ => Enabled(env, w, e)
  }

  ghost predicate LegalWithin(env: Env, w: World, events: seq<Event>, n: nat)
    requires Inv(env, w) && FreshWithin(env, n)
    decreases |events|
  {
    events != [] ==>
      && EnabledWithin(env, w, events[0], n)
      && (WithinIsEnabled(env, w, events[0], n);
          StepKeepsInv(env, w, events[0]);
          LegalWithin(env, Step(env, w, events[0]), events[1..], n))
  }

  lemma WithinIsEnabled(env: Env, w: World, e: Event, n: nat)
    requires Inv(env, w) && FreshWithin(env, n) && EnabledWithin(env, w, e, n)
    ensures Enabled(env, w, e)
  {
    if e.Publish? {
      InboxIsNew(env, w, n);
    }
  }

  lemma {:induction false} WithinIsLegal(env: Env, w: World, events: seq<Event>, n: nat)
    requires Inv(env, w) && FreshWithin(env, n) && LegalWithin(env, w, events, n)
    ensures Legal(env, w, events)
    decreases |events|
  {
    if events != [] {
      WithinIsEnabled(env, w, events[0], n);
      StepKeepsInv(env, w, events[0]);
      WithinIsLegal(env, Step(env, w, events[0]), events[1..], n);
    }
  }

  /**
   * With tokens from the generator, and no change of its prefix, a run is legal as soon
   * as its lines, timers and cancels are and it draws its inboxes from those tokens.
   */
  lemma GeneratedRunsAreLegal(env: Env, g: U.Generator, draws: seq<U.Draws>, events: seq<Event>)
    requires U.Valid(g) && U.NoReset(g, draws) && TokensFrom(env, g, draws)
    requires FreshWithin(env, |draws|) ==> Inv(env, START) && LegalWithin(env, START, events, |draws|)
    ensures Inv(env, START) && Legal(env, START, events)
  {
    GeneratedTokensAreFresh(env, g, draws);
    WithinIsLegal(env, START, events, |draws|);
  }

  // ---------- Runs of the filters ----------

  ghost predicate RelayWithin(env: Env, s: S.System, e: S.Event, n: nat) {
    match e
    case Relay(i, _, _, _, _) =>
      i < |s.filters| && s.filters[i].alive && s.filters[i].relayed.None? && s.w.c.drawn < n
    case _ => S.Enabled(env, s, e)
  }

  lemma RelayIsEnabled(env: Env, s: S.System, e: S.Event, n: nat)
    requires S.Inv(env, s) && FreshWithin(env, n) && RelayWithin(env, s, e, n)
    ensures S.Enabled(env, s, e)
  {
    if e.Relay? {
      InboxIsNew(env, s.w, n);
    }
  }

  ghost predicate FiltersWithin(env: Env, s: S.System, events: seq<S.Event>, n: nat)
    requires S.Inv(env, s) && FreshWithin(env, n)
    decreases |events|
  {
    events != [] ==>
      && RelayWithin(env, s, events[0], n)
      && (RelayIsEnabled(env, s, events[0], n);
          S.StepKeepsInv(env, s, events[0]);
          FiltersWithin(env, S.Step(env, s, events[0]), events[1..], n))
  }

  lemma {:induction false} FiltersWithinIsLegal(env: Env, s: S.System, events: seq<S.Event>, n: nat)
    requires S.Inv(env, s) && FreshWithin(env, n) && FiltersWithin(env, s, events, n)
    ensures S.Legal(env, s, events)
    decreases |events|
  {
    if events != [] {
      RelayIsEnabled(env, s, events[0], n);
      S.StepKeepsInv(env, s, events[0]);
      FiltersWithinIsLegal(env, S.Step(env, s, events[0]), events[1..], n);
    }
  }

  /** The same of the filters that share the client. */
  lemma GeneratedFilterRunsAreLegal(env: Env, g: U.Generator, draws: seq<U.Draws>, events: seq<S.Event>)
    requires U.Valid(g) && U.NoReset(g, draws) && TokensFrom(env, g, draws)
    requires var s := S.System(START, []);
             FreshWithin(env, |draws|) ==> S.Inv(env, s) && FiltersWithin(env, s, events, |draws|)
    ensures S.Inv(env, S.System(START, [])) && S.Legal(env, S.System(START, []), events)
  {
    GeneratedTokensAreFresh(env, g, draws);
    FiltersWithinIsLegal(env, S.System(START, []), events, |draws|);
  }
}

/**
 * What each fetch is authenticated with, told from the events alone: the web token in
 * force when the fetch was started, or the default role's latest credentials then. And
 * what each completed fetch records of the response it got.
 */
module StsTokens {
  import opened Common
  import opened StsModel
  import opened StsFlight
  import opened StsDrains
  import opened StsLedger
  import opened StsRuns

  // ---------- Prefixes of a run ----------

  lemma {:induction false} RunUpTo(w: World, events: seq<Event>, n: nat)
    requires Legal(w, events) && n <= |events|
    ensures Legal(w, events[..n])
    decreases n
  {
    if n > 0 {
      RunUpTo(Step(w, events[0]), events[1..], n - 1);
      assert events[..n][1..] == events[1..][..n - 1];
    }
  }

  /** Where the run stands before its n-th event. */
  ghost function Before(w: World, events: seq<Event>, n: nat): World
    requires Legal(w, events) && n <= |events|
  {
    RunUpTo(w, events, n);
    Run(w, events[..n])
  }

  lemma {:induction false} BeforeNext(w: World, events: seq<Event>, n: nat)
    requires Legal(w, events) && n < |events|
    ensures Enabled(Before(w, events, n), events[n])
    ensures Before(w, events, n + 1) == Step(Before(w, events, n), events[n])
    decreases n
  {
    RunUpTo(w, events, n);
    RunUpTo(w, events, n + 1);
    if n == 0 {
      assert events[..0] == [] && events[..1] == [events[0]] && [events[0]][1..] == [];
      assert Run(w, [events[0]]) == Run(Step(w, events[0]), []);
    } else {
      BeforeNext(Step(w, events[0]), events[1..], n - 1);
      BeforeShifted(w, events, n);
      BeforeShifted(w, events, n + 1);
    }
  }

  lemma {:induction false} BeforeShifted(w: World, events: seq<Event>, n: nat)
    requires Legal(w, events) && 0 < n <= |events|
    ensures Before(w, events, n) == Before(Step(w, events[0]), events[1..], n - 1)
  {
    RunUpTo(w, events, n);
    RunUpTo(Step(w, events[0]), events[1..], n - 1);
    assert events[..n][1..] == events[1..][..n - 1];
  }

  lemma BeforeStart(w: World, events: seq<Event>)
    requires Legal(w, events)
    ensures Before(w, events, 0) == w
  {
    assert events[..0] == [];
  }

  lemma BeforeEnd(w: World, events: seq<Event>)
    requires Legal(w, events)
    ensures Before(w, events, |events|) == Run(w, events)
  {
    assert events[..|events|] == events;
  }

  lemma {:induction false} BeforeKeepsInv(defaultRole: string, token: string, events: seq<Event>, n: nat)
    requires Legal(Initial(defaultRole, token), events) && n <= |events|
    ensures var w := Before(Initial(defaultRole, token), events, n);
            Inv(w.p) && Ledger(w.p, w.asks, w.cancelled) && Agreement(w)
  {
    RunUpTo(Initial(defaultRole, token), events, n);
    RunKeepsInv(Initial(defaultRole, token), events[..n]);
    RunKeepsAgreement(Initial(defaultRole, token), events[..n]);
  }

  // ---------- The web token ----------

  /** The last token given by the first n events, or else the one the provider was made with. */
  function TokenInForce(token: string, events: seq<Event>, n: nat): string
    requires n <= |events|
  {
    if n == 0 then token
    else if events[n - 1].NewToken? then events[n - 1].token
    else TokenInForce(token, events, n - 1)
  }

  lemma {:induction false} StepToken(w: World, e: Event)
    requires Inv(w.p) && Enabled(w, e)
    ensures Step(w, e).p.webToken == if e.NewToken? then e.token else w.p.webToken
    ensures Step(w, e).p.defaultRole == w.p.defaultRole
  {
    match e
    case Call(roleArg, disable, now, inline) => FindFrame(w.p, roleArg, disable, |w.asks|, now, inline);
    case Response(k, body, now, inline) =>
      match ParseBody(body, now) {
        case None => FailForm(w.p, k, InvalidSts);
        case Some(c) => SucceedForm(w.p, k, c, inline);
      }
    case Failure(k, status) => FailForm(w.p, k, status);
    case CancelCall(_) =>
    case NewToken(_) =>
  }

  lemma {:induction false} TokenIsInForce(defaultRole: string, token: string, events: seq<Event>, n: nat)
    requires Legal(Initial(defaultRole, token), events) && n <= |events|
    ensures Before(Initial(defaultRole, token), events, n).p.webToken == TokenInForce(token, events, n)
    ensures Before(Initial(defaultRole, token), events, n).p.defaultRole == defaultRole
    decreases n
  {
    if n > 0 {
      TokenIsInForce(defaultRole, token, events, n - 1);
      BeforeKeepsInv(defaultRole, token, events, n - 1);
      BeforeNext(Initial(defaultRole, token), events, n - 1);
      StepToken(Before(Initial(defaultRole, token), events, n - 1), events[n - 1]);
    } else {
      BeforeStart(Initial(defaultRole, token), events);
    }
  }

  // ---------- What a call starts ----------

  /** The fetch outstanding for k, if any. */
  function FetchOf(s: Provider, k: string): Option<Auth> {
    if k in s.pools then s.pools[k].fetch else None
  }

  /** The authentication of the fetch that a call starts: for its own pool, or for the default role's. */
  function CallAuth(w: World, token: string, role: string, disable: bool, k: string): Auth
    requires Latest(w.done, w.p.defaultRole).Some? || role == w.p.defaultRole || disable || k == w.p.defaultRole
  {
    if role == w.p.defaultRole || disable || k == w.p.defaultRole then WebIdentity(token)
    else AssumeFrom(Latest(w.done, w.p.defaultRole).value)
  }

  lemma {:induction false} InitFetch(s: Provider, t: string, auth: Auth, inline: Inline, k: string)
    requires Inv(s) && t in s.pools && !s.pools[t].inFlight
    ensures FetchOf(InitPool(s, t, auth, inline), k)
         == if k == t then (if t in inline then None else Some(auth)) else FetchOf(s, k)
  {
    InitKeepsInv(s, t, auth, inline);
  }

  lemma {:induction false} StartFetches(w: World, s: Provider, a: Ask, now: int, inline: Inline, k: string)
    requires Inv(s) && KeyOf(a) in s.pools && Misses(s, KeyOf(a), now) && Agreement(w)
    requires s.defaultRole == w.p.defaultRole && s.cache == w.p.cache && s.webToken == w.p.webToken
    requires Started(s, a.role, a.disableChaining, now) == Started(w.p, a.role, a.disableChaining, now)
    ensures var t := Started(s, a.role, a.disableChaining, now);
            && (t.Some? ==> (Latest(w.done, w.p.defaultRole).Some? || a.role == w.p.defaultRole || a.disableChaining
                             || t.value == w.p.defaultRole))
            && FetchOf(StartFetch(s, KeyOf(a), a.role, a.disableChaining, now, inline), k)
               == if t == Some(k) then
                    (if k in inline then None
                     else Some(CallAuth(w, w.p.webToken, a.role, a.disableChaining, k)))
                  else FetchOf(s, k)
  {
    var b := s.defaultRole;
    if a.role == b || a.disableChaining {
      InitFetch(s, KeyOf(a), WebIdentity(s.webToken), inline, k);
    } else if Fresh(s, b, now) {
      InitFetch(s, KeyOf(a), AssumeFrom(s.cache[b]), inline, k);
    } else {
      BaseFetches(s, KeyOf(a), inline, k);
    }
  }

  lemma {:induction false} BaseFetches(s: Provider, key: string, inline: Inline, k: string)
    requires Inv(s) && key in s.pools && !s.pools[key].inFlight && key != s.defaultRole
    ensures var b := s.defaultRole;
            var starts := !(b in s.pools && s.pools[b].inFlight);
            FetchOf(WaitForBase(s, key, key, inline), k)
            == if starts && k == b then (if b in inline then None else Some(WebIdentity(s.webToken)))
               else FetchOf(s, k)
  {
    var b := s.defaultRole;
    var s' := EnsurePool(s, b, b);
    EnsureKeepsInv(s, b, b);
    StartBaseKeepsInv(s, key, inline);
    assert FetchOf(s', k) == FetchOf(s, k);
    if !s'.pools[b].inFlight {
      InitFetch(s', b, WebIdentity(s.webToken), inline, k);
    }
    var m := StartBase(s, inline);
    assert FetchOf(SetInFlight(AddChained(m, b, key), key), k) == FetchOf(m, k);
  }

  /**
   * A call starts a fetch for one pool at most, its own or the default role's: with the
   * web token for the default role and with chaining off, and otherwise with what the
   * default role's last completed fetch came back with. Other fetches go on.
   */
  lemma {:induction false} CallFetches(w: World, e: Event, k: string)
    requires Inv(w.p) && Agreement(w) && e.Call?
    ensures var role := RoleOf(w.p, e.roleArg);
            var t := Started(w.p, role, e.disableChaining, e.now);
            && (t.Some? ==> (Latest(w.done, w.p.defaultRole).Some? || role == w.p.defaultRole || e.disableChaining
                             || t.value == w.p.defaultRole))
            && FetchOf(Step(w, e).p, k)
               == if t == Some(k) then
                    (if k in e.inline then None else Some(CallAuth(w, w.p.webToken, role, e.disableChaining, k)))
                  else FetchOf(w.p, k)
  {
    var a := Ask(RoleOf(w.p, e.roleArg), e.disableChaining);
    var key := KeyOf(a);
    if Misses(w.p, key, e.now) {
      var s := EnsurePool(w.p, key, a.role);
      EnsureKeepsInv(w.p, key, a.role);
      assert Started(s, a.role, a.disableChaining, e.now) == Started(w.p, a.role, a.disableChaining, e.now);
      StartFetches(w, s, a, e.now, e.inline, k);
      assert FetchOf(s, k) == FetchOf(w.p, k);
      var m := StartFetch(s, key, a.role, a.disableChaining, e.now, e.inline);
      assert FetchOf(AddWaiter(m, key, |w.asks|), k) == FetchOf(m, k);
    }
  }

  /** Every other event ends fetches, or, completing the default role's, starts chained ones from its result. */
  lemma {:induction false} OtherFetches(w: World, e: Event, k: string)
    requires Inv(w.p) && Enabled(w, e) && !e.Call? && FetchOf(Step(w, e).p, k).Some?
    ensures FetchOf(Step(w, e).p, k) == FetchOf(w.p, k)
         || (e.Response? && e.key == w.p.defaultRole && ParseBody(e.body, e.time).Some?
             && FetchOf(Step(w, e).p, k) == Some(AssumeFrom(ParseBody(e.body, e.time).value)))
    ensures (e.Response? ==> k != e.key) && (e.Failure? ==> k != e.failed)
  {
    match e
    case Response(j, body, now, inline) =>
      assert PoolOk(w.p, j);
      match ParseBody(body, now) {
        case None => FailForm(w.p, j, InvalidSts);
        case Some(c) => SucceedForm(w.p, j, c, inline);
      }
    case Failure(j, status) => FailForm(w.p, j, status);
    case CancelCall(_) =>
    case NewToken(_) =>
  }

  // ---------- Every fetch of a run ----------

  /** What the call that starts a fetch for k must look like. */
  predicate CallFits(defaultRole: string, e: Event, k: string, web: bool)
    requires e.Call?
  {
    var role := match e.roleArg case Some(r) => r case None => defaultRole;
    && (k == Key(role, e.disableChaining) || k == defaultRole)
    && (web <==> role == defaultRole || e.disableChaining || k == defaultRole)
  }

  /** Event n starts a fetch with this authentication: the token in force, or the latest default-role credentials. */
  ghost predicate Starts(defaultRole: string, token: string, events: seq<Event>, n: nat, k: string, auth: Auth)
    requires Legal(Initial(defaultRole, token), events) && n < |events|
  {
    var e := events[n];
    match auth
    case WebIdentity(t) =>
      e.Call? && CallFits(defaultRole, e, k, true) && t == TokenInForce(token, events, n)
    case AssumeFrom(c) =>
      && (e.Call? ==> CallFits(defaultRole, e, k, false)) && (!e.Call? ==> e.Response? && e.key == defaultRole)
      && Latest(Before(Initial(defaultRole, token), events, n + 1).done, defaultRole) == Some(c)
  }

  /** The fetch outstanding for k before event m was started by event n, and has been going on since. */
  ghost predicate StartedAt(
    defaultRole: string, token: string, events: seq<Event>, m: nat, k: string, n: nat, auth: Auth)
    requires Legal(Initial(defaultRole, token), events) && m <= |events|
  {
    var w := Initial(defaultRole, token);
    && n < m && Starts(defaultRole, token, events, n, k, auth)
    && FetchOf(Before(w, events, n).p, k) == None
    && forall i :: n < i <= m ==> FetchOf(Before(w, events, i).p, k) == Some(auth)
  }

  lemma {:induction false} LatestNow(w: World, e: Event)
    requires Inv(w.p) && Enabled(w, e) && e.Response? && ParseBody(e.body, e.time).Some?
    ensures Latest(Step(w, e).done, e.key) == Some(ParseBody(e.body, e.time).value)
  {
    LatestAfter(w.done, Done(e.key, w.p.pools[e.key].role, w.p.pools[e.key].fetch.value,
                             ParseBody(e.body, e.time).value), e.key);
  }

  lemma {:induction false} StepStarts(defaultRole: string, token: string, events: seq<Event>, n: nat, k: string)
    requires Legal(Initial(defaultRole, token), events) && n < |events|
    ensures var w := Initial(defaultRole, token);
            var (a, b) := (FetchOf(Before(w, events, n).p, k), FetchOf(Before(w, events, n + 1).p, k));
            b.Some? && a != b ==> a == None && Starts(defaultRole, token, events, n, k, b.value)
  {
    var w0 := Initial(defaultRole, token);
    var w := Before(w0, events, n);
    var e := events[n];
    BeforeKeepsInv(defaultRole, token, events, n);
    BeforeNext(w0, events, n);
    TokenIsInForce(defaultRole, token, events, n);
    if FetchOf(Step(w, e).p, k).Some? && FetchOf(Step(w, e).p, k) != FetchOf(w.p, k) {
      if e.Call? {
        CallFetches(w, e, k);
        StartedIdle(w.p, RoleOf(w.p, e.roleArg), e.disableChaining, e.now);
      } else {
        OtherFetches(w, e, k);
        KickedIdle(w.p, e, k);
        LatestNow(w, e);
      }
    }
  }

  /** A fetch is started only where none is outstanding. */
  lemma {:induction false} StartedIdle(s: Provider, role: string, disable: bool, now: int)
    requires Inv(s)
    ensures var t := Started(s, role, disable, now);
            t.Some? ==> FetchOf(s, t.value) == None && (t.value == Key(role, disable) || t.value == s.defaultRole)
  {
    var t := Started(s, role, disable, now);
    if t.Some? && t.value in s.pools {
      assert PoolOk(s, t.value);
    }
  }

  lemma {:induction false} KickedIdle(s: Provider, e: Event, k: string)
    requires Inv(s) && e.Response? && e.key in s.pools && ParseBody(e.body, e.time).Some? && Outstanding(s, e.key)
    requires FetchOf(FetchOk(s, e.key, e.body, e.time, e.inline), k) != FetchOf(s, k) && k != e.key
    ensures FetchOf(s, k) == None
  {
    SucceedForm(s, e.key, ParseBody(e.body, e.time).value, e.inline);
    assert PoolOk(s, e.key);
    if k in s.pools {
      assert PoolOk(s, k);
    }
  }

  lemma {:induction false} FetchesTracedUpTo(
    defaultRole: string, token: string, events: seq<Event>, m: nat, k: string) returns (n: nat)
    requires Legal(Initial(defaultRole, token), events) && m <= |events|
    requires FetchOf(Before(Initial(defaultRole, token), events, m).p, k).Some?
    ensures StartedAt(defaultRole, token, events, m, k, n,
                      FetchOf(Before(Initial(defaultRole, token), events, m).p, k).value)
    decreases m
  {
    var w := Initial(defaultRole, token);
    BeforeStart(w, events);
    if m == 0 {
      assert false;
    } else {
      StepStarts(defaultRole, token, events, m - 1, k);
      if FetchOf(Before(w, events, m - 1).p, k) == FetchOf(Before(w, events, m).p, k) {
        n := FetchesTracedUpTo(defaultRole, token, events, m - 1, k);
      } else {
        n := m - 1;
      }
    }
  }

  /**
   * Every fetch that is outstanding after a run was started by one of its events: with a
   * web token by a call, and then with the token in force at that call; with credentials
   * by a call or by the default role's response, and then with the latest ones.
   */
  lemma FetchesTraced(defaultRole: string, token: string, events: seq<Event>, k: string) returns (n: nat)
    requires Legal(Initial(defaultRole, token), events)
    requires FetchOf(Run(Initial(defaultRole, token), events).p, k).Some?
    ensures StartedAt(defaultRole, token, events, |events|, k, n,
                      FetchOf(Run(Initial(defaultRole, token), events).p, k).value)
  {
    BeforeEnd(Initial(defaultRole, token), events);
    n := FetchesTracedUpTo(defaultRole, token, events, |events|, k);
  }

  // ---------- Every completed fetch of a run ----------

  /** The credentials are the response's fields, each under its name. */
  predicate ReadFrom(c: Creds, body: Body, time: int) {
    && body.accessKey == Some(c.accessKey) && body.secretKey == Some(c.secretKey)
    && body.sessionToken == Some(c.sessionToken)
    && match body.expiration
       case None => false
       case Some(None) => c.expiration == time + 600_000
       case Some(Some(t)) => c.expiration == t
  }

  /** A response completes a fetch exactly if all four fields are found. */
  lemma ParsedExactly(body: Body, time: int)
    ensures ParseBody(body, time).Some? <==>
              body.accessKey.Some? && body.secretKey.Some? && body.sessionToken.Some? && body.expiration.Some?
    ensures ParseBody(body, time).Some? ==> ReadFrom(ParseBody(body, time).value, body, time)
  {
  }

  /** The i-th completed fetch ended with event m, a response to the fetch that event n started. */
  ghost predicate CompletedAt(
    defaultRole: string, token: string, events: seq<Event>, i: nat, d: Done, m: nat, n: nat)
    requires Legal(Initial(defaultRole, token), events)
  {
    && m < |events| && |Before(Initial(defaultRole, token), events, m).done| == i
    && events[m].Response? && events[m].key == d.key && ReadFrom(d.creds, events[m].body, events[m].time)
    && StartedAt(defaultRole, token, events, m, d.key, n, d.auth)
  }

  lemma {:induction false} StepDone(w: World, e: Event)
    requires Inv(w.p) && Enabled(w, e)
    ensures var r := Step(w, e);
            r.done == w.done
            || (&& e.Response? && |r.done| == |w.done| + 1 && r.done[..|w.done|] == w.done
                && var d := r.done[|w.done|];
                   && d.key == e.key && ReadFrom(d.creds, e.body, e.time) && FetchOf(w.p, e.key) == Some(d.auth))
  {
    if e.Response? {
      ParsedExactly(e.body, e.time);
    }
  }

  lemma {:induction false} DoneGrows(defaultRole: string, token: string, events: seq<Event>, l: nat)
    requires Legal(Initial(defaultRole, token), events) && l < |events|
    ensures var w := Initial(defaultRole, token);
            var (s, r) := (Before(w, events, l), Before(w, events, l + 1));
            r.done == s.done
            || (&& events[l].Response? && |r.done| == |s.done| + 1 && r.done[..|s.done|] == s.done
                && var d := r.done[|s.done|];
                   && d.key == events[l].key && ReadFrom(d.creds, events[l].body, events[l].time)
                   && FetchOf(s.p, events[l].key) == Some(d.auth))
  {
    BeforeKeepsInv(defaultRole, token, events, l);
    BeforeNext(Initial(defaultRole, token), events, l);
    StepDone(Before(Initial(defaultRole, token), events, l), events[l]);
  }

  lemma {:induction false} JustDone(defaultRole: string, token: string, events: seq<Event>, l: nat, i: nat)
    returns (n: nat)
    requires Legal(Initial(defaultRole, token), events) && l < |events|
    requires i == |Before(Initial(defaultRole, token), events, l).done|
    requires i < |Before(Initial(defaultRole, token), events, l + 1).done|
    ensures CompletedAt(defaultRole, token, events, i,
                        Before(Initial(defaultRole, token), events, l + 1).done[i], l, n)
  {
    DoneGrows(defaultRole, token, events, l);
    n := FetchesTracedUpTo(defaultRole, token, events, l, events[l].key);
  }

  lemma {:induction false} DoneTracedUpTo(
    defaultRole: string, token: string, events: seq<Event>, l: nat, i: nat) returns (m: nat, n: nat)
    requires Legal(Initial(defaultRole, token), events) && l <= |events|
    requires i < |Before(Initial(defaultRole, token), events, l).done|
    ensures CompletedAt(defaultRole, token, events, i, Before(Initial(defaultRole, token), events, l).done[i], m, n)
    decreases l
  {
    var w := Initial(defaultRole, token);
    BeforeStart(w, events);
    if l == 0 {
      assert false;
    } else {
      DoneGrows(defaultRole, token, events, l - 1);
      if i < |Before(w, events, l - 1).done| {
        m, n := DoneTracedUpTo(defaultRole, token, events, l - 1, i);
        assert Before(w, events, l).done[i] == Before(w, events, l - 1).done[i];
      } else {
        m := l - 1;
        n := JustDone(defaultRole, token, events, l - 1, i);
      }
    }
  }

  /**
   * Every completed fetch of a run ended with a response whose fields are its credentials,
   * and records what it was started with: the web token in force at the call that started
   * it, or the default role's latest credentials at that time.
   */
  lemma DoneTraced(defaultRole: string, token: string, events: seq<Event>, i: nat) returns (m: nat, n: nat)
    requires Legal(Initial(defaultRole, token), events)
    requires i < |Run(Initial(defaultRole, token), events).done|
    ensures CompletedAt(defaultRole, token, events, i, Run(Initial(defaultRole, token), events).done[i], m, n)
  {
    BeforeEnd(Initial(defaultRole, token), events);
    m, n := DoneTracedUpTo(defaultRole, token, events, |events|, i);
  }
}

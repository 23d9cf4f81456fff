/**
 * Where credentials come from.  Requests are told apart by their cache keys alone, so
 * everything hangs on whether two different requests of a run can share a key.
 */
module StsProvenance {
  import opened Common
  import opened StsModel
  import opened StsLedger
  import opened StsFlight
  import opened StsRuns

  // ---------- Keys ----------

  lemma PrefixCancels(a: string, b: string)
    requires NO_CHAIN + a == NO_CHAIN + b
    ensures a == b
  {
    assert a == (NO_CHAIN + a)[|NO_CHAIN|..];
    assert b == (NO_CHAIN + b)[|NO_CHAIN|..];
  }

  /** Two requests share a key exactly when they are the same, or one role is the other's with the prefix. */
  lemma KeyCollisions(a: Ask, b: Ask)
    ensures KeyOf(a) == KeyOf(b) <==>
            || a == b
            || (a.disableChaining && !b.disableChaining && b.role == "no-chain-" + a.role)
            || (b.disableChaining && !a.disableChaining && a.role == "no-chain-" + b.role)
  {
    if KeyOf(a) == KeyOf(b) && a.disableChaining && b.disableChaining {
      PrefixCancels(a.role, b.role);
    }
  }

  /** No two different requests share a key. */
  ghost predicate KeysApart(asks: iset<Ask>) {
    forall a, b :: a in asks && b in asks && KeyOf(a) == KeyOf(b) ==> a == b
  }

  /** The requests of a run, and the one for the default role that chained requests imply. */
  ghost predicate AsksIn(w: World, asks: iset<Ask>) {
    Ask(w.p.defaultRole, false) in asks && forall n :: 0 <= n < |w.asks| ==> w.asks[n] in asks
  }

  ghost function Asked(w: World): iset<Ask> {
    iset a: Ask | a in w.asks || a == Ask(w.p.defaultRole, false)
  }

  // ---------- A fetch of one's own ----------

  /** The credentials of a completed fetch of the default role, made with a web token. */
  ghost predicate FromBase(done: seq<Done>, defaultRole: string, c: Creds) {
    exists j :: 0 <= j < |done| && done[j].key == defaultRole && done[j].role == defaultRole
             && done[j].auth.WebIdentity? && done[j].creds == c
  }

  /** How a fetch for this request authenticates: web token, or earlier default-role credentials. */
  ghost predicate AuthFor(defaultRole: string, done: seq<Done>, a: Ask, auth: Auth) {
    if a.role == defaultRole || a.disableChaining then auth.WebIdentity?
    else auth.AssumeFrom? && FromBase(done, defaultRole, auth.base)
  }

  /** The i-th completed fetch is one for this role in this mode. */
  ghost predicate FetchedFor(done: seq<Done>, i: nat, defaultRole: string, a: Ask)
    requires i < |done|
  {
    done[i].role == a.role && AuthFor(defaultRole, done[..i], a, done[i].auth)
  }

  /** Whatever was granted came from a completed fetch of the caller's own role in its own mode. */
  ghost predicate OwnCredentials(w: World) {
    forall n :: 0 <= n < |w.p.answers| && w.p.answers[n].outcome.Granted? ==> Owned(w, w.p.answers[n])
  }

  ghost predicate Owned(w: World, a: Answer)
    requires a.outcome.Granted?
  {
    && a.id < |w.asks|
    && exists i :: 0 <= i < |w.done| && w.done[i].creds == a.outcome.creds
               && FetchedFor(w.done, i, w.p.defaultRole, w.asks[a.id])
  }

  // ---------- The invariant ----------

  /** The pool under key k serves the request with that key. */
  ghost predicate PoolFor(asks: iset<Ask>, defaultRole: string, done: seq<Done>, k: string, p: Pool) {
    forall a :: a in asks && KeyOf(a) == k ==>
      p.role == a.role && (p.fetch.Some? ==> AuthFor(defaultRole, done, a, p.fetch.value))
  }

  ghost predicate ChainFor(asks: iset<Ask>, defaultRole: string, c: string) {
    forall a :: a in asks && KeyOf(a) == c ==> !a.disableChaining && a.role != defaultRole
  }

  ghost predicate Serving(asks: iset<Ask>, p: Provider, done: seq<Done>) {
    && (forall k :: k in p.pools ==> PoolFor(asks, p.defaultRole, done, k, p.pools[k]))
    && (forall c :: c in Queue(p) ==> ChainFor(asks, p.defaultRole, c))
  }

  ghost predicate DoneFor(asks: iset<Ask>, defaultRole: string, done: seq<Done>, i: nat)
    requires i < |done|
  {
    forall a :: a in asks && KeyOf(a) == done[i].key ==> FetchedFor(done, i, defaultRole, a)
  }

  ghost predicate Provenance(asks: iset<Ask>, w: World) {
    && Serving(asks, w.p, w.done)
    && forall i :: 0 <= i < |w.done| ==> DoneFor(asks, w.p.defaultRole, w.done, i)
  }

  // ---------- Completions ----------

  lemma BaseGrows(done: seq<Done>, d: Done, defaultRole: string, c: Creds)
    requires FromBase(done, defaultRole, c)
    ensures FromBase(done + [d], defaultRole, c)
  {
    var j :| 0 <= j < |done| && done[j].key == defaultRole && done[j].role == defaultRole
          && done[j].auth.WebIdentity? && done[j].creds == c;
    assert (done + [d])[j] == done[j];
  }

  lemma PoolForGrows(asks: iset<Ask>, defaultRole: string, done: seq<Done>, d: Done, k: string, p: Pool)
    requires PoolFor(asks, defaultRole, done, k, p)
    ensures PoolFor(asks, defaultRole, done + [d], k, p)
  {
    forall a | a in asks && KeyOf(a) == k && p.fetch.Some?
      ensures AuthFor(defaultRole, done + [d], a, p.fetch.value)
    {
      if !(a.role == defaultRole || a.disableChaining) {
        BaseGrows(done, d, defaultRole, p.fetch.value.base);
      }
    }
  }

  /** A chained pool that is started with the credentials just fetched for the default role. */
  lemma KickedPoolFor(asks: iset<Ask>, w: World, d: Done, c: string, p: Pool, fails: bool)
    requires Ask(w.p.defaultRole, false) in asks && Provenance(asks, w)
    requires d.key == w.p.defaultRole && d.role == w.p.defaultRole && d.auth.WebIdentity?
    requires ChainFor(asks, w.p.defaultRole, c) && PoolFor(asks, w.p.defaultRole, w.done, c, p)
    ensures PoolFor(asks, w.p.defaultRole, w.done + [d], c, Kicked(p, d.creds, fails))
  {
    assert (w.done + [d])[|w.done|] == d;
    assert FromBase(w.done + [d], w.p.defaultRole, d.creds);
  }

  lemma ResponseServes(asks: iset<Ask>, w: World, k: string, creds: Creds, inline: Inline)
    requires Inv(w.p) && Ask(w.p.defaultRole, false) in asks && Provenance(asks, w) && Outstanding(w.p, k)
    ensures var d := Done(k, w.p.pools[k].role, w.p.pools[k].fetch.value, creds);
            Serving(asks, EndFetch(Succeed(w.p, k, creds, inline), k), w.done + [d])
  {
    var p := EndFetch(Succeed(w.p, k, creds, inline), k);
    var d := Done(k, w.p.pools[k].role, w.p.pools[k].fetch.value, creds);
    SucceedForm(w.p, k, creds, inline);
    assert PoolOk(w.p, k);
    forall j | j in p.pools
      ensures PoolFor(asks, p.defaultRole, w.done + [d], j, p.pools[j])
    {
      assert PoolFor(asks, w.p.defaultRole, w.done, j, w.p.pools[j]);
      if j != k && j in w.p.pools[k].chained {
        assert k == w.p.defaultRole && j in Queue(w.p);
        assert PoolFor(asks, w.p.defaultRole, w.done, k, w.p.pools[k]);
        assert KeyOf(Ask(k, false)) == k;
        KickedPoolFor(asks, w, d, j, w.p.pools[j], j in inline);
      } else {
        PoolForGrows(asks, w.p.defaultRole, w.done, d, j, w.p.pools[j]);
      }
    }
    forall c | c in Queue(p)
      ensures ChainFor(asks, p.defaultRole, c)
    {
      assert c in Queue(w.p);
    }
  }

  lemma DoneForGrows(asks: iset<Ask>, w: World, d: Done, i: nat)
    requires Provenance(asks, w) && i <= |w.done|
    requires forall a :: a in asks && KeyOf(a) == d.key ==>
               d.role == a.role && AuthFor(w.p.defaultRole, w.done, a, d.auth)
    ensures DoneFor(asks, w.p.defaultRole, w.done + [d], i)
  {
    if i < |w.done| {
      assert DoneFor(asks, w.p.defaultRole, w.done, i);
      assert (w.done + [d])[..i] == w.done[..i] && (w.done + [d])[i] == w.done[i];
    } else {
      assert (w.done + [d])[..i] == w.done;
    }
  }

  lemma ResponseKeepsProvenance(asks: iset<Ask>, w: World, k: string, body: Body, now: int, inline: Inline)
    requires Inv(w.p) && Ask(w.p.defaultRole, false) in asks && Provenance(asks, w)
    requires Outstanding(w.p, k) && ParseBody(body, now).Some?
    ensures Provenance(asks, Step(w, Response(k, body, now, inline)))
  {
    var creds := ParseBody(body, now).value;
    var r := Step(w, Response(k, body, now, inline));
    var d := Done(k, w.p.pools[k].role, w.p.pools[k].fetch.value, creds);
    ResponseServes(asks, w, k, creds, inline);
    SucceedForm(w.p, k, creds, inline);
    assert PoolFor(asks, w.p.defaultRole, w.done, k, w.p.pools[k]);
    forall i | 0 <= i < |r.done|
      ensures DoneFor(asks, r.p.defaultRole, r.done, i)
    {
      DoneForGrows(asks, w, d, i);
    }
  }

  lemma FailureKeepsProvenance(asks: iset<Ask>, w: World, k: string, status: FailureStatus)
    requires Inv(w.p) && Provenance(asks, w) && Outstanding(w.p, k)
    ensures Provenance(asks, w.(p := FailPool(w.p, k, status)))
  {
    var r := w.(p := FailPool(w.p, k, status));
    FailForm(w.p, k, status);
    assert PoolOk(w.p, k);
    forall j | j in r.p.pools
      ensures PoolFor(asks, r.p.defaultRole, r.done, j, r.p.pools[j])
    {
      assert PoolFor(asks, w.p.defaultRole, w.done, j, w.p.pools[j]);
    }
    forall c | c in Queue(r.p)
      ensures ChainFor(asks, r.p.defaultRole, c)
    {
      assert c in Queue(w.p);
    }
  }

  // ---------- Calls ----------

  lemma InitServes(asks: iset<Ask>, s: Provider, done: seq<Done>, k: string, auth: Auth, inline: Inline)
    requires Inv(s) && Serving(asks, s, done) && k in s.pools && !s.pools[k].inFlight
    requires forall a :: a in asks && KeyOf(a) == k ==> AuthFor(s.defaultRole, done, a, auth)
    ensures Serving(asks, InitPool(s, k, auth, inline), done)
  {
    var r := InitPool(s, k, auth, inline);
    InitKeepsInv(s, k, auth, inline);
    assert Queue(r) == if k in inline && k == s.defaultRole then [] else Queue(s);
    forall j | j in r.pools
      ensures PoolFor(asks, r.defaultRole, done, j, r.pools[j])
    {
      assert PoolFor(asks, s.defaultRole, done, j, s.pools[j]);
    }
  }

  lemma EnsureServes(asks: iset<Ask>, s: Provider, done: seq<Done>, k: string, role: string)
    requires Serving(asks, s, done) && forall a :: a in asks && KeyOf(a) == k ==> a.role == role
    ensures Serving(asks, EnsurePool(s, k, role), done)
  {
    assert Queue(EnsurePool(s, k, role)) == Queue(s);
  }

  lemma AddWaiterServes(asks: iset<Ask>, s: Provider, done: seq<Done>, k: string, id: nat)
    requires Serving(asks, s, done) && k in s.pools
    ensures Serving(asks, AddWaiter(s, k, id), done)
  {
    var r := AddWaiter(s, k, id);
    assert Queue(r) == Queue(s);
    forall j | j in r.pools
      ensures PoolFor(asks, r.defaultRole, done, j, r.pools[j])
    {
      assert PoolFor(asks, s.defaultRole, done, j, s.pools[j]);
    }
  }

  /** Queueing a role and marking its pool in flight. */
  lemma EnqueueServes(asks: iset<Ask>, s: Provider, done: seq<Done>, role: string)
    requires Serving(asks, s, done) && role in s.pools && s.defaultRole in s.pools
    requires ChainFor(asks, s.defaultRole, role)
    ensures Serving(asks, SetInFlight(AddChained(s, s.defaultRole, role), role), done)
  {
    var r := SetInFlight(AddChained(s, s.defaultRole, role), role);
    assert Queue(r) == Queue(s) + [role];
    forall j | j in r.pools
      ensures PoolFor(asks, r.defaultRole, done, j, r.pools[j])
    {
      assert PoolFor(asks, s.defaultRole, done, j, s.pools[j]);
    }
  }

  lemma WaitServes(asks: iset<Ask>, s: Provider, done: seq<Done>, role: string, inline: Inline)
    requires Inv(s) && role in s.pools && !s.pools[role].inFlight
    requires KeysApart(asks) && Ask(s.defaultRole, false) in asks && Ask(role, false) in asks && role != s.defaultRole
    requires Serving(asks, s, done)
    ensures Serving(asks, WaitForBase(s, role, role, inline), done)
  {
    var base := Ask(s.defaultRole, false);
    assert KeyOf(base) == s.defaultRole && KeyOf(Ask(role, false)) == role;
    EnsureServes(asks, s, done, s.defaultRole, s.defaultRole);
    var s' := EnsurePool(s, s.defaultRole, s.defaultRole);
    EnsureKeepsInv(s, s.defaultRole, s.defaultRole);
    StartBaseKeepsInv(s, role, inline);
    if !s'.pools[s.defaultRole].inFlight {
      InitServes(asks, s', done, s.defaultRole, WebIdentity(s.webToken), inline);
    }
    EnqueueServes(asks, StartBase(s, inline), done, role);
  }

  /** Cached default-role credentials come from a fetch of the default role with a web token. */
  lemma CachedBase(asks: iset<Ask>, w: World)
    requires Ask(w.p.defaultRole, false) in asks && Provenance(asks, w) && Agreement(w)
    requires w.p.defaultRole in w.p.cache
    ensures FromBase(w.done, w.p.defaultRole, w.p.cache[w.p.defaultRole])
  {
    var k := w.p.defaultRole;
    assert Latest(w.done, k).Some?;
    LatestIsDone(w.done, k);
    var i :| 0 <= i < |w.done| && w.done[i].key == k && w.done[i].creds == w.p.cache[k];
    assert DoneFor(asks, k, w.done, i);
    assert KeyOf(Ask(k, false)) == k;
  }

  lemma StartFetchServes(asks: iset<Ask>, w: World, s: Provider, a: Ask, now: int, inline: Inline)
    requires Inv(s) && KeyOf(a) in s.pools && !s.pools[KeyOf(a)].inFlight
    requires KeysApart(asks) && Ask(w.p.defaultRole, false) in asks && a in asks
    requires Provenance(asks, w) && Agreement(w)
    requires Serving(asks, s, w.done) && s.defaultRole == w.p.defaultRole && s.cache == w.p.cache
    ensures Serving(asks, StartFetch(s, KeyOf(a), a.role, a.disableChaining, now, inline), w.done)
  {
    if a.role == s.defaultRole || a.disableChaining {
      InitServes(asks, s, w.done, KeyOf(a), WebIdentity(s.webToken), inline);
    } else if Fresh(s, s.defaultRole, now) {
      CachedBase(asks, w);
      InitServes(asks, s, w.done, KeyOf(a), AssumeFrom(s.cache[s.defaultRole]), inline);
    } else {
      WaitServes(asks, s, w.done, a.role, inline);
    }
  }

  lemma MissServes(asks: iset<Ask>, w: World, a: Ask, now: int, inline: Inline)
    requires KeysApart(asks) && Ask(w.p.defaultRole, false) in asks && a in asks
    requires Inv(w.p) && Provenance(asks, w) && Agreement(w) && Misses(w.p, KeyOf(a), now)
    ensures Serving(asks, FindMiss(w.p, a.role, a.disableChaining, |w.asks|, now, inline), w.done)
  {
    var key := KeyOf(a);
    EnsureKeepsInv(w.p, key, a.role);
    EnsureServes(asks, w.p, w.done, key, a.role);
    var s := EnsurePool(w.p, key, a.role);
    StartFetchServes(asks, w, s, a, now, inline);
    AddWaiterServes(asks, StartFetch(s, key, a.role, a.disableChaining, now, inline), w.done, key, |w.asks|);
  }

  /** Pools and queue are all that provenance looks at besides the completed fetches. */
  lemma ServingMeans(asks: iset<Ask>, w: World, r: World)
    requires Provenance(asks, w) && r.done == w.done && r.p.defaultRole == w.p.defaultRole && Serving(asks, r.p, w.done)
    ensures Provenance(asks, r)
  {
    forall i | 0 <= i < |r.done|
      ensures DoneFor(asks, r.p.defaultRole, r.done, i)
    {
      assert DoneFor(asks, w.p.defaultRole, w.done, i);
    }
  }

  lemma CallKeepsProvenance(asks: iset<Ask>, w: World, roleArg: Option<string>, disable: bool, now: int, inline: Inline)
    requires KeysApart(asks) && Ask(w.p.defaultRole, false) in asks && Ask(RoleOf(w.p, roleArg), disable) in asks
    requires Inv(w.p) && Provenance(asks, w) && Agreement(w)
    ensures Provenance(asks, Step(w, Call(roleArg, disable, now, inline)))
  {
    var a := Ask(RoleOf(w.p, roleArg), disable);
    var key := KeyOf(a);
    var r := Step(w, Call(roleArg, disable, now, inline));
    FindFrame(w.p, roleArg, disable, |w.asks|, now, inline);
    if Fresh(w.p, key, now) {
      assert Queue(r.p) == Queue(w.p);
    } else if !Misses(w.p, key, now) {
      AddWaiterServes(asks, w.p, w.done, key, |w.asks|);
    } else {
      MissServes(asks, w, a, now, inline);
    }
    ServingMeans(asks, w, r);
  }

  // ---------- Every run ----------

  lemma StepKeepsProvenance(asks: iset<Ask>, w: World, e: Event)
    requires Inv(w.p) && Ledger(w.p, w.asks, w.cancelled) && Agreement(w) && Provenance(asks, w)
    requires KeysApart(asks) && Enabled(w, e) && AsksIn(Step(w, e), asks)
    ensures Provenance(asks, Step(w, e))
  {
    DefaultStays(w, e);
    match e
    case Call(roleArg, disable, now, inline) =>
      assert Step(w, e).asks[|w.asks|] == Ask(RoleOf(w.p, roleArg), disable);
      CallKeepsProvenance(asks, w, roleArg, disable, now, inline);
    case Response(k, body, now, inline) =>
      if ParseBody(body, now).Some? {
        ResponseKeepsProvenance(asks, w, k, body, now, inline);
      } else {
        FailureKeepsProvenance(asks, w, k, InvalidSts);
      }
    case Failure(k, status) => FailureKeepsProvenance(asks, w, k, status);
    case CancelCall(n) =>
      assert Queue(Step(w, e).p) == Queue(w.p);
      forall j | j in w.p.pools
        ensures PoolFor(asks, w.p.defaultRole, w.done, j, Step(w, e).p.pools[j])
      {
        assert PoolFor(asks, w.p.defaultRole, w.done, j, w.p.pools[j]);
      }
    case NewToken(token) =>
      assert Queue(Step(w, e).p) == Queue(w.p);
  }

  lemma DefaultStays(w: World, e: Event)
    requires Inv(w.p) && Enabled(w, e)
    ensures Step(w, e).p.defaultRole == w.p.defaultRole && w.asks <= Step(w, e).asks
  {
    match e
    case Call(roleArg, disable, now, inline) => FindFrame(w.p, roleArg, disable, |w.asks|, now, inline);
    case Response(k, body, now, inline) =>
      if ParseBody(body, now).Some? {
        SucceedForm(w.p, k, ParseBody(body, now).value, inline);
      } else {
        FailForm(w.p, k, InvalidSts);
      }
    case Failure(k, status) => FailForm(w.p, k, status);
    case CancelCall(_) =>
    case NewToken(_) =>
  }

  lemma {:induction false} RunExtends(w: World, events: seq<Event>)
    requires Inv(w.p) && Ledger(w.p, w.asks, w.cancelled) && Legal(w, events)
    ensures Run(w, events).p.defaultRole == w.p.defaultRole && w.asks <= Run(w, events).asks
    decreases |events|
  {
    if events != [] {
      StepKeepsInv(w, events[0]);
      DefaultStays(w, events[0]);
      RunExtends(Step(w, events[0]), events[1..]);
    }
  }

  lemma {:induction false} RunKeepsProvenance(asks: iset<Ask>, w: World, events: seq<Event>)
    requires Inv(w.p) && Ledger(w.p, w.asks, w.cancelled) && Agreement(w) && Provenance(asks, w) && KeysApart(asks)
    requires Legal(w, events) && AsksIn(Run(w, events), asks)
    ensures Provenance(asks, Run(w, events)) && Agreement(Run(w, events))
    decreases |events|
  {
    if events != [] {
      var w1 := Step(w, events[0]);
      StepKeepsInv(w, events[0]);
      StepKeepsAgreement(w, events[0]);
      RunExtends(w1, events[1..]);
      StepKeepsProvenance(asks, w, events[0]);
      RunKeepsProvenance(asks, w1, events[1..]);
    }
  }

  lemma AnswerIsOwned(asks: iset<Ask>, w: World, a: Answer)
    requires Provenance(asks, w) && AsksIn(w, asks) && AnswerOk(w, a) && a.outcome.Granted?
    ensures Owned(w, a)
  {
    var ask := w.asks[a.id];
    var i :| 0 <= i < |w.done| && w.done[i].key == KeyOf(ask) && w.done[i].creds == a.outcome.creds;
    assert DoneFor(asks, w.p.defaultRole, w.done, i);
    assert FetchedFor(w.done, i, w.p.defaultRole, ask);
  }

  lemma RunOwns(asks: iset<Ask>, defaultRole: string, token: string, events: seq<Event>)
    requires Legal(Initial(defaultRole, token), events) && KeysApart(asks)
    requires AsksIn(Run(Initial(defaultRole, token), events), asks)
    ensures OwnCredentials(Run(Initial(defaultRole, token), events))
  {
    var w := Initial(defaultRole, token);
    var r := Run(w, events);
    RunKeepsProvenance(asks, w, events);
    forall n | 0 <= n < |r.p.answers| && r.p.answers[n].outcome.Granted?
      ensures Owned(r, r.p.answers[n])
    {
      assert AnswerOk(r, r.p.answers[n]);
      AnswerIsOwned(asks, r, r.p.answers[n]);
    }
  }

  /**
   * In every run none of whose requests, the default role's included, share a key,
   * whatever is granted comes from a completed fetch of the caller's own role in its
   * own mode; chained fetches use credentials of an earlier default-role fetch.
   */
  lemma CredentialsComeFromOwnRole(defaultRole: string, token: string, events: seq<Event>)
    requires Legal(Initial(defaultRole, token), events)
    requires KeysApart(Asked(Run(Initial(defaultRole, token), events)))
    ensures OwnCredentials(Run(Initial(defaultRole, token), events))
  {
    RunOwns(Asked(Run(Initial(defaultRole, token), events)), defaultRole, token, events);
  }

  // ---------- Requests that share a key ----------

  /** A response whose credentials stay fresh. */
  predicate Lasting(body: Body, now: int) {
    ParseBody(body, now).Some? && ParseBody(body, now).value.expiration - now > REFRESH_GRACE_PERIOD
  }

  lemma PrefixIsLonger(role: string)
    ensures NO_CHAIN + role != role
  {
    assert |NO_CHAIN + role| == |NO_CHAIN| + |role|;
  }

  function UnchainedFirst(role: string, body: Body, now: int): seq<Event> {
    [Call(Some(role), true, now, map[]), Response(NO_CHAIN + role, body, now, map[]),
     Call(Some(NO_CHAIN + role), false, now, map[])]
  }

  lemma RunOfThree(w: World, e0: Event, e1: Event, e2: Event)
    requires Enabled(w, e0) && Enabled(Step(w, e0), e1) && Enabled(Step(Step(w, e0), e1), e2)
    ensures Legal(w, [e0, e1, e2]) && Run(w, [e0, e1, e2]) == Step(Step(Step(w, e0), e1), e2)
  {
    var w3 := Step(Step(Step(w, e0), e1), e2);
    assert [e0, e1, e2][1..] == [e1, e2] && [e1, e2][1..] == [e2] && [e2][1..] == [];
    assert Legal(w3, []) && Run(w3, []) == w3;
    assert Legal(Step(Step(w, e0), e1), [e2]) && Run(Step(Step(w, e0), e1), [e2]) == w3;
    assert Legal(Step(w, e0), [e1, e2]) && Run(Step(w, e0), [e1, e2]) == w3;
  }

  /** Asking first with chaining off: the prefixed role is then served the other role's credentials. */
  lemma PrefixedRoleGetsForeignCredentials(defaultRole: string, token: string, role: string, body: Body, now: int)
    requires Lasting(body, now)
    ensures var w := Initial(defaultRole, token);
            && Legal(w, UnchainedFirst(role, body, now))
            && var r := Run(w, UnchainedFirst(role, body, now));
               r.asks == [Ask(role, true), Ask(NO_CHAIN + role, false)] && r.p.defaultRole == defaultRole
               && !OwnCredentials(r)
  {
    var key := NO_CHAIN + role;
    PrefixIsLonger(role);
    var w0 := Initial(defaultRole, token);
    var e0, e1, e2 := Call(Some(role), true, now, map[]), Response(key, body, now, map[]),
                      Call(Some(key), false, now, map[]);
    var creds := ParseBody(body, now).value;
    var w1 := Step(w0, e0);
    var none: seq<nat> := [];
    assert [0] + none == [0];
    assert w1.p.pools == map[key := Pool(role, true, Some(WebIdentity(token)), [0], [])];
    var w2 := Step(w1, e1);
    assert w2.p.cache == map[key := creds] && w2.p.answers == [Answer(0, Granted(creds))];
    var r := Step(w2, e2);
    RunOfThree(w0, e0, e1, e2);
    assert r.done == [Done(key, role, WebIdentity(token), creds)];
    assert r.p.answers == [Answer(0, Granted(creds)), Answer(1, Granted(creds))];
    assert !Owned(r, r.p.answers[1]);
  }

  /** The other order; unless the prefixed role is the default one, its fetch is chained. */
  function PrefixedFirst(defaultRole: string, role: string, base: Body, body: Body, now: int): seq<Event> {
    var key := NO_CHAIN + role;
    [Call(Some(key), false, now, map[])]
    + (if key == defaultRole then [] else [Response(defaultRole, base, now, map[])])
    + [Response(key, body, now, map[]), Call(Some(role), true, now, map[])]
  }

  lemma RunOfFour(w: World, e0: Event, e1: Event, e2: Event, e3: Event)
    requires Enabled(w, e0) && Enabled(Step(w, e0), e1) && Enabled(Step(Step(w, e0), e1), e2)
    requires Enabled(Step(Step(Step(w, e0), e1), e2), e3)
    ensures Legal(w, [e0, e1, e2, e3]) && Run(w, [e0, e1, e2, e3]) == Step(Step(Step(Step(w, e0), e1), e2), e3)
  {
    RunOfThree(Step(w, e0), e1, e2, e3);
    assert [e0, e1, e2, e3][1..] == [e1, e2, e3];
  }

  lemma DefaultPrefixedFirst(role: string, token: string, base: Body, body: Body, now: int)
    requires Lasting(body, now)
    ensures var key := NO_CHAIN + role;
            var w := Initial(key, token);
            && Legal(w, PrefixedFirst(key, role, base, body, now))
            && var r := Run(w, PrefixedFirst(key, role, base, body, now));
               r.asks == [Ask(key, false), Ask(role, true)] && r.p.defaultRole == key && !OwnCredentials(r)
  {
    var key := NO_CHAIN + role;
    PrefixIsLonger(role);
    var w0 := Initial(key, token);
    var e0, e1 := Call(Some(key), false, now, map[]), Response(key, body, now, map[]);
    var e2 := Call(Some(role), true, now, map[]);
    var creds := ParseBody(body, now).value;
    var w1 := Step(w0, e0);
    var none: seq<nat> := [];
    assert [0] + none == [0];
    assert w1.p.pools == map[key := Pool(key, true, Some(WebIdentity(token)), [0], [])];
    var w2 := Step(w1, e1);
    assert w2.p.cache == map[key := creds] && w2.p.answers == [Answer(0, Granted(creds))];
    var r := Step(w2, e2);
    RunOfThree(w0, e0, e1, e2);
    assert PrefixedFirst(key, role, base, body, now) == [e0, e1, e2];
    assert r.done == [Done(key, key, WebIdentity(token), creds)];
    assert r.p.answers == [Answer(0, Granted(creds)), Answer(1, Granted(creds))];
    assert !Owned(r, r.p.answers[1]);
  }

  /** A chained role asked for first: its pool waits behind the default role's fetch. */
  lemma FirstChainedCall(defaultRole: string, token: string, key: string, now: int)
    requires key != defaultRole
    ensures var e := Call(Some(key), false, now, map[]);
            && Enabled(Initial(defaultRole, token), e)
            && var w := Step(Initial(defaultRole, token), e);
               && w.asks == [Ask(key, false)] && w.done == [] && w.p.cache == map[] && w.p.answers == []
               && w.p.defaultRole == defaultRole
               && w.p.pools == map[key := Pool(key, true, None, [0], []),
                                   defaultRole := Pool(defaultRole, true, Some(WebIdentity(token)), [], [key])]
  {
    var none: seq<nat> := [];
    assert [0] + none == [0];
    var nobody: seq<string> := [];
    assert nobody + [key] == [key];
  }

  /** The default role's response starts the chained fetch. */
  lemma ThenBaseAnswers(w: World, token: string, key: string, base: Body, now: int)
    requires key != w.p.defaultRole && ParseBody(base, now).Some?
    requires w.p.pools == map[key := Pool(key, true, None, [0], []),
                              w.p.defaultRole := Pool(w.p.defaultRole, true, Some(WebIdentity(token)), [], [key])]
    requires w.p.answers == [] && w.done == [] && w.p.cache == map[]
    ensures var k := w.p.defaultRole;
            && Enabled(w, Response(k, base, now, map[]))
            && var r := Step(w, Response(k, base, now, map[]));
               var c := ParseBody(base, now).value;
               && r.asks == w.asks && r.done == [Done(k, k, WebIdentity(token), c)] && r.p.answers == []
               && r.p.defaultRole == k && r.p.cache == map[k := c]
               && r.p.pools == map[key := Pool(key, true, Some(AssumeFrom(c)), [0], []),
                                   k := Pool(k, false, None, [], [])]
  {
    var k, c := w.p.defaultRole, ParseBody(base, now).value;
    var s := ClearChained(w.p.(cache := w.p.cache[k := c]), k);
    assert KickRoles(s, [key], c, map[]) == KickOne(s, key, c, map[]) by {
      assert [key][..0] == [];
    }
  }

  lemma ThenRoleAnswers(w: World, key: string, d: Done, c: Creds, body: Body, now: int)
    requires key != w.p.defaultRole && ParseBody(body, now).Some?
    requires w.p.pools == map[key := Pool(key, true, Some(AssumeFrom(c)), [0], []),
                              w.p.defaultRole := Pool(w.p.defaultRole, false, None, [], [])]
    requires w.p.answers == [] && w.done == [d] && w.p.cache == map[w.p.defaultRole := c]
    ensures && Enabled(w, Response(key, body, now, map[]))
            && var r := Step(w, Response(key, body, now, map[]));
               var creds := ParseBody(body, now).value;
               && r.asks == w.asks && r.done == [d, Done(key, key, AssumeFrom(c), creds)]
               && r.p.defaultRole == w.p.defaultRole
               && r.p.cache == map[w.p.defaultRole := c, key := creds] && r.p.answers == [Answer(0, Granted(creds))]
  {
  }

  lemma ThenHit(w: World, role: string, now: int, creds: Creds)
    requires NO_CHAIN + role in w.p.cache && w.p.cache[NO_CHAIN + role] == creds
    requires creds.expiration - now > REFRESH_GRACE_PERIOD
    ensures && Enabled(w, Call(Some(role), true, now, map[]))
            && var r := Step(w, Call(Some(role), true, now, map[]));
               && r.asks == w.asks + [Ask(role, true)] && r.done == w.done && r.p.defaultRole == w.p.defaultRole
               && r.p.answers == w.p.answers + [Answer(|w.asks|, Granted(creds))]
  {
  }

  /** The second answer is for a role that no completed fetch with these credentials was for. */
  lemma ForeignAnswer(r: World, role: string, d: Done, e: Done)
    requires r.done == [d, e] && d.creds != e.creds && e.role != role
    requires |r.asks| == 2 && r.asks[1] == Ask(role, true)
    requires |r.p.answers| == 2 && r.p.answers[1] == Answer(1, Granted(e.creds))
    ensures !OwnCredentials(r)
  {
    assert !Owned(r, r.p.answers[1]);
  }

  lemma ChainedSteps(defaultRole: string, token: string, role: string, base: Body, body: Body, now: int)
    returns (w1: World, w2: World, w3: World, r: World)
    requires NO_CHAIN + role != defaultRole && ParseBody(base, now).Some? && Lasting(body, now)
    ensures var key := NO_CHAIN + role;
            var (w, e0) := (Initial(defaultRole, token), Call(Some(key), false, now, map[]));
            var (e1, e2) := (Response(defaultRole, base, now, map[]), Response(key, body, now, map[]));
            var e3 := Call(Some(role), true, now, map[]);
            && Enabled(w, e0) && w1 == Step(w, e0) && Enabled(w1, e1) && w2 == Step(w1, e1)
            && Enabled(w2, e2) && w3 == Step(w2, e2) && Enabled(w3, e3) && r == Step(w3, e3)
    ensures var (key, c, creds) := (NO_CHAIN + role, ParseBody(base, now).value, ParseBody(body, now).value);
            && r.asks == [Ask(key, false), Ask(role, true)] && r.p.defaultRole == defaultRole
            && r.done == [Done(defaultRole, defaultRole, WebIdentity(token), c), Done(key, key, AssumeFrom(c), creds)]
            && r.p.answers == [Answer(0, Granted(creds)), Answer(1, Granted(creds))]
  {
    var key := NO_CHAIN + role;
    var c, creds := ParseBody(base, now).value, ParseBody(body, now).value;
    FirstChainedCall(defaultRole, token, key, now);
    w1 := Step(Initial(defaultRole, token), Call(Some(key), false, now, map[]));
    ThenBaseAnswers(w1, token, key, base, now);
    w2 := Step(w1, Response(defaultRole, base, now, map[]));
    ThenRoleAnswers(w2, key, Done(defaultRole, defaultRole, WebIdentity(token), c), c, body, now);
    w3 := Step(w2, Response(key, body, now, map[]));
    ThenHit(w3, role, now, creds);
    r := Step(w3, Call(Some(role), true, now, map[]));
  }

  lemma ChainedPrefixedFirst(defaultRole: string, token: string, role: string, base: Body, body: Body, now: int)
    requires NO_CHAIN + role != defaultRole && ParseBody(base, now).Some? && Lasting(body, now)
    requires ParseBody(base, now).value != ParseBody(body, now).value
    ensures var w := Initial(defaultRole, token);
            && Legal(w, PrefixedFirst(defaultRole, role, base, body, now))
            && var r := Run(w, PrefixedFirst(defaultRole, role, base, body, now));
               r.asks == [Ask(NO_CHAIN + role, false), Ask(role, true)] && r.p.defaultRole == defaultRole
               && !OwnCredentials(r)
  {
    var key := NO_CHAIN + role;
    PrefixIsLonger(role);
    var w1, w2, w3, r := ChainedSteps(defaultRole, token, role, base, body, now);
    RunOfFour(Initial(defaultRole, token), Call(Some(key), false, now, map[]), Response(defaultRole, base, now, map[]),
              Response(key, body, now, map[]), Call(Some(role), true, now, map[]));
    assert PrefixedFirst(defaultRole, role, base, body, now)
        == [Call(Some(key), false, now, map[]), Response(defaultRole, base, now, map[]),
            Response(key, body, now, map[]), Call(Some(role), true, now, map[])];
    ForeignAnswer(r, role, r.done[0], r.done[1]);
  }

  // ---------- Exactly when ----------

  /** Every run with these requests grants nothing but a caller's own credentials. */
  ghost predicate AlwaysOwn(defaultRole: string, asks: iset<Ask>) {
    forall token: string, events: seq<Event> :: Legal(Initial(defaultRole, token), events) ==>
      AsksIn(Run(Initial(defaultRole, token), events), asks) ==>
        OwnCredentials(Run(Initial(defaultRole, token), events))
  }

  function LongLived(): Body {
    Body(Some(""), Some(""), Some(""), Some(Some(REFRESH_GRACE_PERIOD + 1)))
  }

  /** Requests that share a key have a run in which one of them is granted the other's credentials. */
  lemma SharedKeyLeaks(defaultRole: string, asks: iset<Ask>, a: Ask, b: Ask)
    requires Ask(defaultRole, false) in asks && a in asks && b in asks
    requires a.disableChaining && !b.disableChaining && b.role == NO_CHAIN + a.role
    ensures !AlwaysOwn(defaultRole, asks)
  {
    var events := UnchainedFirst(a.role, LongLived(), 0);
    PrefixedRoleGetsForeignCredentials(defaultRole, "", a.role, LongLived(), 0);
    var r := Run(Initial(defaultRole, ""), events);
    assert a == Ask(a.role, true) && b == Ask(NO_CHAIN + a.role, false);
    assert AsksIn(r, asks);
  }

  /** Credentials always are the caller's own if and only if no two different requests share a key. */
  lemma OwnCredentialsExactly(defaultRole: string, asks: iset<Ask>)
    requires Ask(defaultRole, false) in asks
    ensures AlwaysOwn(defaultRole, asks) <==> KeysApart(asks)
  {
    if KeysApart(asks) {
      forall token: string, events: seq<Event> | Legal(Initial(defaultRole, token), events)
        ensures AsksIn(Run(Initial(defaultRole, token), events), asks) ==>
                  OwnCredentials(Run(Initial(defaultRole, token), events))
      {
        if AsksIn(Run(Initial(defaultRole, token), events), asks) {
          RunOwns(asks, defaultRole, token, events);
        }
      }
    } else {
      var a, b :| a in asks && b in asks && KeyOf(a) == KeyOf(b) && a != b;
      KeyCollisions(a, b);
      if a.disableChaining {
        SharedKeyLeaks(defaultRole, asks, a, b);
      } else {
        SharedKeyLeaks(defaultRole, asks, b, a);
      }
    }
  }
}

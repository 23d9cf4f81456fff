/**
 * The STS credential provider and its connection pools as values: one function
 * per operation of sts_credentials_provider.cc and sts_connection_pool.cc, in
 * the order the source performs its writes.
 *
 * Callers are numbered.  The callbacks a pool or the provider makes to its
 * callers are recorded, in order, in `answers`.  Time is in milliseconds.
 */
module StsModel {
  import opened Common

  const REFRESH_GRACE_PERIOD: int := 5 * 60 * 1000
  const REFRESH_STS_CREDS: int := 10 * 60 * 1000
  const NO_CHAIN := "no-chain-"

  datatype Creds = Creds(accessKey: string, secretKey: string, sessionToken: string, expiration: int)

  /** How a fetch authenticates: with the web token, or with credentials fetched before. */
  datatype Auth = WebIdentity(token: string) | AssumeFrom(base: Creds)

  datatype FailureStatus =
    | Network | InvalidSts | ExpiredToken | ClusterNotFound | ContextCancelled | CredentialScopeMismatch

  /**
   * The pools whose fetch, should it be started now, fails before the call that starts
   * it returns, and how: all of them when the STS cluster is not configured.
   */
  type Inline = map<string, FailureStatus>

  datatype Outcome = Granted(creds: Creds) | Denied(status: FailureStatus)

  datatype Answer = Answer(id: nat, outcome: Outcome)

  /**
   * `waiters` lists the callers from the front of connection_list_ to its back;
   * `fetch` is the fetcher's outstanding request.
   */
  datatype Pool = Pool(
    role: string, inFlight: bool, fetch: Option<Auth>, waiters: seq<nat>, chained: seq<string>)

  datatype Provider = Provider(
    defaultRole: string, webToken: string,
    cache: map<string, Creds>, pools: map<string, Pool>, answers: seq<Answer>)

  /**
   * What the regular expressions find in a response: each field may be absent,
   * and an expiration that is present may still fail to parse as a time.
   */
  datatype Body = Body(
    accessKey: Option<string>, secretKey: Option<string>, sessionToken: Option<string>,
    expiration: Option<Option<int>>)

  function ParseBody(body: Body, now: int): Option<Creds> {
    if body.accessKey.None? || body.secretKey.None? || body.sessionToken.None? || body.expiration.None? then None
    else
      Some(Creds(body.accessKey.value, body.secretKey.value, body.sessionToken.value,
                 match body.expiration.value
                 case Some(t) => t
                 case None => now + REFRESH_STS_CREDS))
  }

  /** The cache and pool key for a role. */
  function Key(role: string, disableChaining: bool): string {
    if disableChaining then NO_CHAIN + role else role
  }

  /** Cached credentials under key k have more than the grace period left. */
  predicate Fresh(s: Provider, k: string, now: int) {
    k in s.cache && s.cache[k].expiration - now > REFRESH_GRACE_PERIOD
  }

  function EmptyPool(role: string): Pool {
    Pool(role, false, None, [], [])
  }

  // ---------- Single-pool writes ----------

  function SetPool(s: Provider, k: string, p: Pool): Provider {
    s.(pools := s.pools[k := p])
  }

  function EnsurePool(s: Provider, k: string, role: string): Provider {
    if k in s.pools then s else SetPool(s, k, EmptyPool(role))
  }

  function SetInFlight(s: Provider, k: string): Provider
    requires k in s.pools
  {
    SetPool(s, k, s.pools[k].(inFlight := true))
  }

  function AddWaiter(s: Provider, k: string, id: nat): Provider
    requires k in s.pools
  {
    SetPool(s, k, s.pools[k].(waiters := [id] + s.pools[k].waiters))
  }

  function AddChained(s: Provider, k: string, role: string): Provider
    requires k in s.pools
  {
    SetPool(s, k, s.pools[k].(chained := s.pools[k].chained + [role]))
  }

  function ClearChained(s: Provider, k: string): Provider
    requires k in s.pools
  {
    SetPool(s, k, s.pools[k].(chained := []))
  }

  /** The callbacks made while a waiter list is drained from its back. */
  function Replies(waiters: seq<nat>, o: Outcome): (r: seq<Answer>)
    ensures |r| == |waiters|
    ensures forall i :: 0 <= i < |r| ==> r[i] == Answer(waiters[|waiters| - 1 - i], o)
  {
    if waiters == [] then []
    else [Answer(waiters[|waiters| - 1], o)] + Replies(waiters[..|waiters| - 1], o)
  }

  /** Clear the in-flight flag and answer every waiter of the pool. */
  function Settle(s: Provider, k: string, o: Outcome): Provider
    requires k in s.pools
  {
    SetPool(s, k, s.pools[k].(inFlight := false, waiters := []))
      .(answers := s.answers + Replies(s.pools[k].waiters, o))
  }

  // ---------- Failure ----------

  /** One turn of the loop below. */
  function FailOne(s: Provider, c: string, status: FailureStatus): Provider {
    if c in s.pools then Settle(s, c, Denied(status)) else s
  }

  /** The provider's onFailure: fail the chained roles, last one first. */
  function FailRoles(s: Provider, roles: seq<string>, status: FailureStatus): Provider
    decreases |roles|
  {
    if roles == [] then s
    else
      var c := roles[|roles| - 1];
      FailRoles(FailOne(s, c, status), roles[..|roles| - 1], status)
  }

  lemma {:induction false} FailRolesKeepsKeys(s: Provider, roles: seq<string>, status: FailureStatus)
    ensures FailRoles(s, roles, status).pools.Keys == s.pools.Keys
    decreases |roles|
  {
    if roles != [] {
      var c := roles[|roles| - 1];
      FailRolesKeepsKeys(FailOne(s, c, status), roles[..|roles| - 1], status);
    }
  }

  lemma {:induction false} FailRolesElsewhere(s: Provider, roles: seq<string>, status: FailureStatus, j: string)
    requires j in s.pools && j !in roles
    ensures var r := FailRoles(s, roles, status); j in r.pools && r.pools[j] == s.pools[j]
    decreases |roles|
  {
    if roles != [] {
      var c := roles[|roles| - 1];
      FailRolesElsewhere(FailOne(s, c, status), roles[..|roles| - 1], status, j);
    }
  }

  /** A pool's onFailure: the flag is cleared first, and the chained roles fail before the waiters. */
  function Fail(s: Provider, k: string, status: FailureStatus): (r: Provider)
    requires k in s.pools
    ensures r.pools.Keys == s.pools.Keys
  {
    var s' := ClearChained(SetPool(s, k, s.pools[k].(inFlight := false)), k);
    FailRolesKeepsKeys(s', s.pools[k].chained, status);
    Settle(FailRoles(s', s.pools[k].chained, status), k, Denied(status))
  }

  lemma FailWithoutChain(s: Provider, k: string, status: FailureStatus)
    requires k in s.pools && s.pools[k].chained == []
    ensures Fail(s, k, status) == Settle(s, k, Denied(status))
  {
  }

  /** Clearing the chained list forgets what it was. */
  lemma ClearForgets(s: Provider, k: string, p: Pool)
    requires k in s.pools && p.(chained := []) == s.pools[k].(chained := [])
    ensures ClearChained(SetPool(s, k, p), k) == ClearChained(s, k)
  {
    assert ClearChained(SetPool(s, k, p), k).pools == ClearChained(s, k).pools;
  }

  lemma ClearNothing(s: Provider, k: string)
    requires k in s.pools && s.pools[k].chained == []
    ensures ClearChained(s, k) == s
  {
    assert ClearChained(s, k).pools == s.pools;
  }

  /** Settling a pool does not depend on its in-flight flag. */
  lemma SettleForgets(s: Provider, k: string, o: Outcome)
    requires k in s.pools
    ensures Settle(SetPool(s, k, s.pools[k].(inFlight := false)), k, o) == Settle(s, k, o)
  {
    assert Settle(SetPool(s, k, s.pools[k].(inFlight := false)), k, o).pools == Settle(s, k, o).pools;
  }

  /** Failing a chained role commutes with forgetting the list it came from. */
  lemma FailOneThenClear(s: Provider, k: string, c: string, status: FailureStatus)
    requires k in s.pools && c != k && (c in s.pools ==> s.pools[c].chained == [])
    ensures var r := FailOne(s, c, status);
            && r.pools.Keys == s.pools.Keys && r.pools[k] == s.pools[k]
            && ClearChained(r, k) == FailOne(ClearChained(s, k), c, status)
            && (c in s.pools ==> r == Fail(s, c, status))
  {
    if c in s.pools {
      assert ClearChained(Settle(s, c, Denied(status)), k).pools == Settle(ClearChained(s, k), c, Denied(status)).pools;
      FailWithoutChain(s, c, status);
    }
  }

  /** A fetch that failed: the fetcher forgets its request once onFailure has returned. */
  function FailPool(s: Provider, k: string, status: FailureStatus): Provider
    requires k in s.pools
  {
    EndFetch(Fail(s, k, status), k)
  }

  function EndFetch(s: Provider, k: string): Provider
    requires k in s.pools
  {
    SetPool(s, k, s.pools[k].(fetch := None))
  }

  // ---------- Starting a fetch ----------

  /** A pool's init; the fetch may fail before it returns. */
  function InitPool(s: Provider, k: string, auth: Auth, inline: Inline): Provider
    requires k in s.pools
  {
    var s' := SetPool(s, k, s.pools[k].(inFlight := true, fetch := Some(auth)));
    if k in inline then FailPool(s', k, inline[k]) else s'
  }

  lemma InitPoolKeepsKeys(s: Provider, k: string, auth: Auth, inline: Inline)
    requires k in s.pools
    ensures InitPool(s, k, auth, inline).pools.Keys == s.pools.Keys
  {
    var s' := SetPool(s, k, s.pools[k].(inFlight := true, fetch := Some(auth)));
    if k in inline {
      FailRolesKeepsKeys(ClearChained(s', k), s'.pools[k].chained, inline[k]);
    }
  }

  // ---------- Success ----------

  /** One turn of the loop below. */
  function KickOne(s: Provider, c: string, base: Creds, inline: Inline): Provider {
    if c in s.pools then InitPool(s, c, AssumeFrom(base), inline) else s
  }

  /** The loop of the provider's onResult: start the chained fetches, last one first. */
  function KickRoles(s: Provider, roles: seq<string>, base: Creds, inline: Inline): Provider
    decreases |roles|
  {
    if roles == [] then s
    else
      var c := roles[|roles| - 1];
      KickRoles(KickOne(s, c, base, inline), roles[..|roles| - 1], base, inline)
  }

  lemma {:induction false} KickRolesKeepsKeys(s: Provider, roles: seq<string>, base: Creds, inline: Inline)
    ensures KickRoles(s, roles, base, inline).pools.Keys == s.pools.Keys
    decreases |roles|
  {
    if roles != [] {
      var c := roles[|roles| - 1];
      if c in s.pools {
        InitPoolKeepsKeys(s, c, AssumeFrom(base), inline);
      }
      KickRolesKeepsKeys(KickOne(s, c, base, inline), roles[..|roles| - 1], base, inline);
    }
  }

  /** What starting a fetch comes to for a pool with no chained roles. */
  function InitAlone(s: Provider, k: string, auth: Auth, inline: Inline): Provider
    requires k in s.pools
  {
    var p := s.pools[k];
    if k in inline then
      SetPool(s, k, p.(inFlight := false, fetch := None, waiters := []))
        .(answers := s.answers + Replies(p.waiters, Denied(inline[k])))
    else SetPool(s, k, p.(inFlight := true, fetch := Some(auth)))
  }

  lemma InitPoolAlone(s: Provider, k: string, auth: Auth, inline: Inline)
    requires k in s.pools && s.pools[k].chained == []
    ensures InitPool(s, k, auth, inline) == InitAlone(s, k, auth, inline)
  {
    if k in inline {
      var s' := SetPool(s, k, s.pools[k].(inFlight := true, fetch := Some(auth)));
      FailWithoutChain(s', k, inline[k]);
      assert InitPool(s, k, auth, inline).pools == InitAlone(s, k, auth, inline).pools;
    }
  }

  /** None of the roles has a fetch outstanding, and each occurs once. */
  predicate Idle(s: Provider, roles: seq<string>) {
    && NoDup(roles)
    && forall c :: c in roles && c in s.pools ==> s.pools[c].fetch.None?
  }

  lemma InitAloneThenClear(s: Provider, k: string, c: string, auth: Auth, inline: Inline)
    requires k in s.pools && c in s.pools && c != k
    ensures ClearChained(InitAlone(s, c, auth, inline), k) == InitAlone(ClearChained(s, k), c, auth, inline)
  {
    assert ClearChained(InitAlone(s, c, auth, inline), k).pools
        == InitAlone(ClearChained(s, k), c, auth, inline).pools;
  }

  /** Starting a chained fetch commutes with forgetting the list it came from. */
  lemma KickOneThenClear(s: Provider, k: string, c: string, base: Creds, inline: Inline)
    requires k in s.pools && c != k && (c in s.pools ==> s.pools[c].chained == [])
    ensures var r := KickOne(s, c, base, inline);
            && r.pools.Keys == s.pools.Keys
            && (forall j :: j in s.pools && j != c ==> r.pools[j] == s.pools[j])
            && ClearChained(r, k) == KickOne(ClearChained(s, k), c, base, inline)
  {
    if c in s.pools {
      InitPoolAlone(s, c, AssumeFrom(base), inline);
      InitPoolAlone(ClearChained(s, k), c, AssumeFrom(base), inline);
      InitAloneThenClear(s, k, c, AssumeFrom(base), inline);
    }
  }

  /** Only the last role was started, and it occurs once. */
  lemma KickedStayIdle(s: Provider, r: Provider, roles: seq<string>)
    requires Idle(s, roles) && roles != [] && r.pools.Keys == s.pools.Keys
    requires forall j :: j in s.pools && j != roles[|roles| - 1] ==> r.pools[j] == s.pools[j]
    ensures Idle(r, roles[..|roles| - 1])
  {
    var front := roles[..|roles| - 1];
    forall c | c in front
      ensures c in roles && c != roles[|roles| - 1]
    {
      var i :| 0 <= i < |front| && front[i] == c;
      assert roles[i] == c;
    }
  }

  /** The last chained role is started: the others stay idle, and the pool they came from is as it was. */
  lemma {:induction false} KickLast(s: Provider, k: string, roles: seq<string>, base: Creds, inline: Inline)
    requires k in s.pools && roles != [] && roles[|roles| - 1] != k && Idle(s, roles)
    requires roles[|roles| - 1] in s.pools ==> s.pools[roles[|roles| - 1]].chained == []
    ensures var r := KickOne(s, roles[|roles| - 1], base, inline);
            && k in r.pools && r.pools[k] == s.pools[k] && Idle(r, roles[..|roles| - 1])
            && ClearChained(r, k) == KickOne(ClearChained(s, k), roles[|roles| - 1], base, inline)
  {
    KickOneThenClear(s, k, roles[|roles| - 1], base, inline);
    KickedStayIdle(s, KickOne(s, roles[|roles| - 1], base, inline), roles);
  }

  /** A pool's list of chained roles plays no part in that. */
  lemma {:induction false} SameFetchStaysIdle(s: Provider, k: string, p: Pool, roles: seq<string>)
    requires k in s.pools && p.fetch == s.pools[k].fetch && Idle(s, roles)
    ensures Idle(SetPool(s, k, p), roles)
  {
  }

  /** The provider's onResult. */
  function StoreResult(s: Provider, k: string, creds: Creds, inline: Inline): Provider
    requires k in s.pools
  {
    var s' := s.(cache := s.cache[k := creds]);
    KickRoles(ClearChained(s', k), s.pools[k].chained, creds, inline)
  }

  /** A pool's onSuccess once the credentials are read from the body. */
  function Succeed(s: Provider, k: string, creds: Creds, inline: Inline): (r: Provider)
    requires k in s.pools
    ensures r.pools.Keys == s.pools.Keys
  {
    var s' := s.(cache := s.cache[k := creds]);
    KickRolesKeepsKeys(ClearChained(s', k), s.pools[k].chained, creds, inline);
    Settle(StoreResult(s, k, creds, inline), k, Granted(creds))
  }

  /** A pool's onSuccess, called with a response body. */
  function Receive(s: Provider, k: string, body: Body, now: int, inline: Inline): (r: Provider)
    requires k in s.pools
    ensures r.pools.Keys == s.pools.Keys
  {
    match ParseBody(body, now)
    case None => Fail(s, k, InvalidSts)
    case Some(creds) => Succeed(s, k, creds, inline)
  }

  /** A fetch that got a response: the fetcher forgets its request once onSuccess has returned. */
  function FetchOk(s: Provider, k: string, body: Body, now: int, inline: Inline): Provider
    requires k in s.pools
  {
    EndFetch(Receive(s, k, body, now, inline), k)
  }

  // ---------- The provider's find ----------

  function RoleOf(s: Provider, roleArg: Option<string>): string {
    match roleArg case Some(r) => r case None => s.defaultRole
  }

  /** A call to find that is not answered from the cache and joins no request in flight. */
  predicate Misses(s: Provider, k: string, now: int) {
    !Fresh(s, k, now) && !(k in s.pools && s.pools[k].inFlight)
  }

  /** Make sure that the default role's fetch is under way. */
  function StartBase(s: Provider, inline: Inline): Provider {
    var s' := EnsurePool(s, s.defaultRole, s.defaultRole);
    if s'.pools[s.defaultRole].inFlight then s'
    else InitPool(s', s.defaultRole, WebIdentity(s.webToken), inline)
  }

  lemma StartBaseKeepsKeys(s: Provider, inline: Inline)
    ensures StartBase(s, inline).pools.Keys == s.pools.Keys + {s.defaultRole}
  {
    var s' := EnsurePool(s, s.defaultRole, s.defaultRole);
    InitPoolKeepsKeys(s', s.defaultRole, WebIdentity(s.webToken), inline);
  }

  /** Queue a role behind the default role's fetch. */
  function WaitForBase(s: Provider, key: string, role: string, inline: Inline): (r: Provider)
    requires key in s.pools
    ensures r.pools.Keys == s.pools.Keys + {s.defaultRole}
  {
    StartBaseKeepsKeys(s, inline);
    SetInFlight(AddChained(StartBase(s, inline), s.defaultRole, role), key)
  }

  /** Fetch for the pool `key`, at once or after the default role's fetch. */
  function StartFetch(s: Provider, key: string, role: string, disableChaining: bool, now: int, inline: Inline)
    : (r: Provider)
    requires key in s.pools
    ensures key in r.pools
  {
    if role == s.defaultRole || disableChaining then
      InitPoolKeepsKeys(s, key, WebIdentity(s.webToken), inline);
      InitPool(s, key, WebIdentity(s.webToken), inline)
    else if Fresh(s, s.defaultRole, now) then
      InitPoolKeepsKeys(s, key, AssumeFrom(s.cache[s.defaultRole]), inline);
      InitPool(s, key, AssumeFrom(s.cache[s.defaultRole]), inline)
    else
      WaitForBase(s, key, role, inline)
  }

  function FindMiss(s: Provider, role: string, disableChaining: bool, id: nat, now: int, inline: Inline): Provider {
    var key := Key(role, disableChaining);
    AddWaiter(StartFetch(EnsurePool(s, key, role), key, role, disableChaining, now, inline), key, id)
  }

  /** The result's second part: whether the caller got a context to cancel with. */
  function Find(s: Provider, roleArg: Option<string>, disableChaining: bool, id: nat, now: int, inline: Inline)
    : (Provider, bool)
  {
    var role := RoleOf(s, roleArg);
    var key := Key(role, disableChaining);
    if Fresh(s, key, now) then
      (s.(answers := s.answers + [Answer(id, Granted(s.cache[key]))]), false)
    else if !Misses(s, key, now) then
      (AddWaiter(s, key, id), true)
    else
      (FindMiss(s, role, disableChaining, id, now, inline), true)
  }

  /** A context's cancel: it leaves the list it is in. */
  function CancelWaiter(s: Provider, k: string, i: nat): Provider
    requires k in s.pools && i < |s.pools[k].waiters|
  {
    var w := s.pools[k].waiters;
    SetPool(s, k, s.pools[k].(waiters := w[..i] + w[i + 1..]))
  }

  /**
   * The bookkeeping the pools rely on: a fetch is outstanding only in flight, and
   * a chained role is queued once, in flight, and has no fetch of its own.
   */
  ghost predicate Orderly(s: Provider) {
    && (forall k :: k in s.pools ==>
          && (s.pools[k].fetch.Some? ==> s.pools[k].inFlight)
          && (s.pools[k].chained != [] ==> k == s.defaultRole && k !in s.pools[k].chained))
    && (s.defaultRole in s.pools ==>
          && NoDup(s.pools[s.defaultRole].chained)
          && forall c :: c in s.pools[s.defaultRole].chained ==>
               c in s.pools && s.pools[c].inFlight && s.pools[c].fetch.None?)
  }

  lemma EnsureKeepsOrderly(s: Provider, k: string, role: string)
    requires Orderly(s)
    ensures Orderly(EnsurePool(s, k, role))
  {
  }
}

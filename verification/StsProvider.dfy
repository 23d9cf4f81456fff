/**
 * The provider and its pools as the objects of the source, updated in place.
 * The ghost field `model` of the provider is the objects' value; every method is
 * proved to move it as the function of StsModel with the same role does, and the
 * mutual recursion of the failure path (provider, pool, provider, ...) ends.
 */
module StsProvider {
  import opened Common
  import opened StsModel

  /** Everything that waits for credentials: it receives the callbacks. */
  class Callers {
    var answers: seq<Answer>

    constructor ()
      ensures answers == []
    {
      answers := [];
    }

    method Receive(id: nat, o: Outcome)
      modifies this
      ensures answers == old(answers) + [Answer(id, o)]
    {
      answers := answers + [Answer(id, o)];
    }
  }

  class StsConnectionPool {
    const cacheKeyArn: string
    const roleArn: string
    const provider: StsCredentialsProvider
    const callers: Callers
    var requestInFlight: bool
    var connectionList: seq<nat>
    var chainedRequests: seq<string>
    var fetch: Option<Auth>

    constructor (cacheKeyArn: string, roleArn: string, provider: StsCredentialsProvider, callers: Callers)
      ensures this.cacheKeyArn == cacheKeyArn && this.provider == provider && this.callers == callers
      ensures View() == EmptyPool(roleArn)
    {
      this.cacheKeyArn, this.roleArn, this.provider, this.callers := cacheKeyArn, roleArn, provider, callers;
      requestInFlight, connectionList, chainedRequests, fetch := false, [], [], None;
    }

    ghost function View(): Pool
      reads this
    {
      Pool(roleArn, requestInFlight, fetch, connectionList, chainedRequests)
    }

    ghost predicate Registered()
      reads this, provider, provider.callers, provider.pools.Values
    {
      provider.Valid() && cacheKeyArn in provider.pools && provider.pools[cacheKeyArn] == this
    }

    /** How deep a failure of this pool can reach. */
    ghost function Rank(): nat {
      if cacheKeyArn == provider.defaultRole then 1 else 0
    }

    /** Bring the model up to date with the fields of this pool. */
    ghost method Sync()
      requires provider.ValidBut(this)
      requires cacheKeyArn in provider.pools && provider.pools[cacheKeyArn] == this
      modifies provider`model
      ensures Registered() && provider.model == SetPool(old(provider.model), cacheKeyArn, View())
    {
      provider.model := SetPool(provider.model, cacheKeyArn, View());
    }

    method Init(auth: Auth, inline: Inline)
      requires Registered()
      requires fetch.None?  // at most one outstanding request
      modifies provider.Footprint()
      ensures Registered() && provider.pools == old(provider.pools)
      ensures provider.model == InitPool(old(provider.model), cacheKeyArn, auth, inline)
    {
      Launch(auth);
      if cacheKeyArn in inline {
        FetchFailed(inline[cacheKeyArn]);
      }
    }

    method Launch(auth: Auth)
      requires Registered()
      modifies this`requestInFlight, this`fetch, provider`model
      ensures Registered() && provider.model == InitPool(old(provider.model), cacheKeyArn, auth, map[])
    {
      requestInFlight := true;
      fetch := Some(auth);
      Sync();
    }

    method SetInFlight()
      requires Registered()
      modifies this`requestInFlight, provider`model
      ensures Registered() && provider.model == StsModel.SetInFlight(old(provider.model), cacheKeyArn)
    {
      requestInFlight := true;
      Sync();
    }

    /** A new context goes to the front of the list. */
    method Add(id: nat)
      requires Registered()
      modifies this`connectionList, provider`model
      ensures Registered() && provider.model == AddWaiter(old(provider.model), cacheKeyArn, id)
      ensures connectionList == [id] + old(connectionList)
    {
      connectionList := [id] + connectionList;
      Sync();
    }

    method AddChained(role: string)
      requires Registered() && cacheKeyArn == provider.defaultRole && role != cacheKeyArn
      modifies this`chainedRequests, provider`model
      ensures Registered()
      ensures provider.model == StsModel.AddChained(old(provider.model), cacheKeyArn, role)
    {
      chainedRequests := chainedRequests + [role];
      Sync();
    }

    /** chained_requests.pop_back() */
    method DropLastChained()
      requires Registered() && chainedRequests != []
      modifies this`chainedRequests, provider`model
      ensures Registered() && chainedRequests == old(chainedRequests[..|chainedRequests| - 1])
      ensures provider.model == SetPool(old(provider.model), cacheKeyArn, View())
      ensures ClearChained(provider.model, cacheKeyArn) == ClearChained(old(provider.model), cacheKeyArn)
    {
      chainedRequests := chainedRequests[..|chainedRequests| - 1];
      Sync();
      ClearForgets(old(provider.model), cacheKeyArn, View());
    }

    /** A context's cancel; `entry` is its place in the list. */
    method Cancel(entry: nat)
      requires Registered() && entry < |connectionList|
      modifies this`connectionList, provider`model
      ensures Registered() && provider.model == CancelWaiter(old(provider.model), cacheKeyArn, entry)
    {
      connectionList := connectionList[..entry] + connectionList[entry + 1..];
      Sync();
    }

    /** The fetcher forgets its request. */
    method Reset()
      requires Registered()
      modifies this`fetch, provider`model
      ensures Registered() && provider.model == EndFetch(old(provider.model), cacheKeyArn)
    {
      fetch := None;
      Sync();
    }

    /** The fetcher's failure callback, after which the fetcher forgets its request. */
    method FetchFailed(status: FailureStatus)
      requires Registered()
      modifies provider.Footprint()
      ensures Registered() && provider.pools == old(provider.pools)
      ensures provider.model == FailPool(old(provider.model), cacheKeyArn, status)
    {
      OnFailure(status);
      Reset();
    }

    method OnFailure(status: FailureStatus)
      requires Registered()
      modifies provider.Footprint()
      ensures Registered() && provider.pools == old(provider.pools)
      ensures provider.model == Fail(old(provider.model), cacheKeyArn, status)
      decreases Rank(), 2
    {
      requestInFlight := false;
      Sync();
      provider.OnFailure(status, this);
      DrainWaiters(Denied(status));
    }

    /** The fetcher's success callback, after which the fetcher forgets its request. */
    method FetchSucceeded(body: Body, now: int, inline: Inline)
      requires Registered() && Orderly(provider.model)
      modifies provider.Footprint()
      ensures Registered() && provider.pools == old(provider.pools)
      ensures provider.model == FetchOk(old(provider.model), cacheKeyArn, body, now, inline)
    {
      OnSuccess(body, now, inline);
      Reset();
    }

    method OnSuccess(body: Body, now: int, inline: Inline)
      requires Registered() && Orderly(provider.model)
      modifies provider.Footprint()
      ensures Registered() && provider.pools == old(provider.pools)
      ensures provider.model == Receive(old(provider.model), cacheKeyArn, body, now, inline)
    {
      var result := ParseBody(body, now);
      if result.None? {
        OnFailure(InvalidSts);
      } else {
        Grant(result.value, inline);
      }
    }

    /** The rest of onSuccess, with the credentials in hand. */
    method Grant(result: Creds, inline: Inline)
      requires Registered() && Idle(provider.model, chainedRequests)
      modifies provider.Footprint()
      ensures Registered() && provider.pools == old(provider.pools)
      ensures provider.model == Succeed(old(provider.model), cacheKeyArn, result, inline)
    {
      provider.OnResult(result, cacheKeyArn, this, inline);
      Land(Granted(result));
    }

    /** The flag is cleared, and then the waiters are answered. */
    method Land(o: Outcome)
      requires Registered()
      modifies this`requestInFlight, this`connectionList, callers, provider`model
      ensures Registered() && provider.model == Settle(old(provider.model), cacheKeyArn, o)
    {
      SettleForgets(provider.model, cacheKeyArn, o);
      requestInFlight := false;
      Sync();
      DrainWaiters(o);
    }

    /** Answer the waiters from the back of the list, with the in-flight flag already clear. */
    method DrainWaiters(o: Outcome)
      requires Registered() && !requestInFlight
      modifies this`connectionList, callers, provider`model
      ensures Registered() && provider.model == Settle(old(provider.model), cacheKeyArn, o)
    {
      AnswerAll(o);
      provider.model := provider.model.(answers := callers.answers);
      Sync();
    }

    /** The loop over the list, from its back. */
    method AnswerAll(o: Outcome)
      modifies this`connectionList, callers
      ensures connectionList == [] && callers.answers == old(callers.answers) + Replies(old(connectionList), o)
    {
      while connectionList != []
        invariant callers.answers + Replies(connectionList, o)
               == old(callers.answers) + Replies(old(connectionList), o)
        decreases |connectionList|
      {
        callers.Receive(connectionList[|connectionList| - 1], o);
        connectionList := connectionList[..|connectionList| - 1];
      }
    }
  }

  class StsCredentialsProvider {
    const defaultRole: string
    const callers: Callers
    var webToken: string
    var cache: map<string, Creds>
    var pools: map<string, StsConnectionPool>
    ghost var model: Provider

    constructor (webToken: string, roleArn: string, callers: Callers)
      ensures Valid() && this.callers == callers && pools == map[]
      ensures model == Provider(roleArn, webToken, map[], map[], callers.answers)
    {
      this.defaultRole, this.callers, this.webToken := roleArn, callers, webToken;
      cache, pools := map[], map[];
      model := Provider(roleArn, webToken, map[], map[], callers.answers);
    }

    ghost function Footprint(): set<object>
      reads this
    {
      {this, callers} + pools.Values
    }

    ghost predicate Linked(k: string, pool: StsConnectionPool) {
      pool.cacheKeyArn == k && pool.provider == this && pool.callers == callers
    }

    /**
     * The fields agree with the model.  Only the default role's pool has chained
     * roles, and never itself.
     */
    ghost predicate Valid()
      reads this, callers, pools.Values
    {
      && model.defaultRole == defaultRole && model.webToken == webToken && model.cache == cache
      && model.answers == callers.answers
      && (forall k :: k in model.pools <==> k in pools)
      && forall k :: k in pools ==>
           && Linked(k, pools[k])
           && pools[k].View() == model.pools[k]
           && (pools[k].chainedRequests != [] ==> k == defaultRole && k !in pools[k].chainedRequests)
    }

    /** Valid, but for the fields of one pool. */
    ghost predicate ValidBut(pool: StsConnectionPool)
      reads this, callers, pools.Values
    {
      && model.defaultRole == defaultRole && model.webToken == webToken && model.cache == cache
      && model.answers == callers.answers
      && (forall k :: k in model.pools <==> k in pools)
      && forall k :: k in pools ==>
           && Linked(k, pools[k])
           && (pools[k] != pool ==> pools[k].View() == model.pools[k])
           && (pools[k].chainedRequests != [] ==> k == defaultRole && k !in pools[k].chainedRequests)
    }

    /** One turn of the failure loop: the last chained role fails and leaves the list. */
    method FailLastChained(status: FailureStatus, pool: StsConnectionPool)
      requires pool.provider == this && pool.Registered() && pool.chainedRequests != []
      modifies Footprint()
      ensures pool.Registered() && pools == old(pools)
      ensures pool.chainedRequests == old(pool.chainedRequests[..|pool.chainedRequests| - 1])
      ensures var c := old(pool.chainedRequests[|pool.chainedRequests| - 1]);
              ClearChained(model, pool.cacheKeyArn) == FailOne(ClearChained(old(model), pool.cacheKeyArn), c, status)
      decreases pool.Rank(), 0
    {
      var k := pool.cacheKeyArn;
      var chainedRole := pool.chainedRequests[|pool.chainedRequests| - 1];
      assert chainedRole != k;
      FailOneThenClear(model, k, chainedRole, status);
      if chainedRole in pools {
        pools[chainedRole].OnFailure(status);  // markFailed
      }
      pool.DropLastChained();
    }

    method OnFailure(status: FailureStatus, pool: StsConnectionPool)
      requires pool.provider == this && pool.Registered()
      modifies Footprint()
      ensures pool.Registered() && pools == old(pools) && pool.requestInFlight == old(pool.requestInFlight)
      ensures model == FailRoles(ClearChained(old(model), pool.cacheKeyArn), old(pool.chainedRequests), status)
      decreases pool.Rank(), 1
    {
      var k := pool.cacheKeyArn;
      FailRolesElsewhere(ClearChained(model, k), pool.chainedRequests, status, k);
      while pool.chainedRequests != []
        invariant pool.Registered() && pools == old(pools)
        invariant FailRoles(ClearChained(model, k), pool.chainedRequests, status)
               == FailRoles(ClearChained(old(model), k), old(pool.chainedRequests), status)
        decreases |pool.chainedRequests|
      {
        FailLastChained(status, pool);
      }
      ClearNothing(model, k);
    }

    /** A chained role starts its fetch, unless its pool is gone. */
    method Kick(chainedRole: string, result: Creds, inline: Inline)
      requires Valid() && (chainedRole in pools ==> pools[chainedRole].fetch.None?)
      modifies Footprint()
      ensures Valid() && pools == old(pools)
      ensures model == KickOne(old(model), chainedRole, result, inline)
    {
      if chainedRole in pools {
        pools[chainedRole].Init(AssumeFrom(result), inline);
      }
    }

    /** One turn of the success loop: the last chained role starts its fetch and leaves the list. */
    method KickLastChained(result: Creds, pool: StsConnectionPool, inline: Inline)
      requires pool.provider == this && pool.Registered() && pool.chainedRequests != []
      requires Idle(model, pool.chainedRequests)
      modifies Footprint()
      ensures pool.Registered() && pools == old(pools)
      ensures pool.chainedRequests == old(pool.chainedRequests[..|pool.chainedRequests| - 1])
      ensures Idle(model, pool.chainedRequests)
      ensures var c := old(pool.chainedRequests[|pool.chainedRequests| - 1]);
              ClearChained(model, pool.cacheKeyArn)
                == KickOne(ClearChained(old(model), pool.cacheKeyArn), c, result, inline)
    {
      var k := pool.cacheKeyArn;
      var chainedRole := pool.chainedRequests[|pool.chainedRequests| - 1];
      assert chainedRole != k;
      KickFor(chainedRole, result, pool, inline);
      ghost var s := model;
      pool.DropLastChained();
      SameFetchStaysIdle(s, k, pool.View(), pool.chainedRequests);
    }

    method KickFor(chainedRole: string, result: Creds, pool: StsConnectionPool, inline: Inline)
      requires pool.provider == this && pool.Registered() && pool.chainedRequests != []
      requires chainedRole == pool.chainedRequests[|pool.chainedRequests| - 1] && chainedRole != pool.cacheKeyArn
      requires Idle(model, pool.chainedRequests)
      modifies Footprint()
      ensures pool.Registered() && pools == old(pools) && pool.chainedRequests == old(pool.chainedRequests)
      ensures Idle(model, pool.chainedRequests[..|pool.chainedRequests| - 1])
      ensures ClearChained(model, pool.cacheKeyArn)
           == KickOne(ClearChained(old(model), pool.cacheKeyArn), chainedRole, result, inline)
    {
      KickLast(model, pool.cacheKeyArn, pool.chainedRequests, result, inline);
      Kick(chainedRole, result, inline);
      assert pool.View() == model.pools[pool.cacheKeyArn];
    }

    method OnResult(result: Creds, roleArn: string, pool: StsConnectionPool, inline: Inline)
      requires pool.provider == this && pool.Registered() && pool.cacheKeyArn == roleArn
      requires Idle(model, pool.chainedRequests)
      modifies Footprint()
      ensures pool.Registered() && pools == old(pools)
      ensures model == StoreResult(old(model), roleArn, result, inline)
    {
      cache := cache[roleArn := result];
      model := model.(cache := cache);
      var k := roleArn;
      ghost var s := model;
      while pool.chainedRequests != []
        invariant pool.Registered() && pools == old(pools) && Idle(model, pool.chainedRequests)
        invariant KickRoles(ClearChained(model, k), pool.chainedRequests, result, inline)
               == KickRoles(ClearChained(s, k), old(pool.chainedRequests), result, inline)
        decreases |pool.chainedRequests|
      {
        KickLastChained(result, pool, inline);
      }
      ClearNothing(model, k);
    }
  
    /** Pools are only ever added, and those added are new objects. */
    twostate predicate Grown()
      reads this
    {
      && (forall k :: k in old(pools) ==> k in pools && pools[k] == old(pools[k]))
      && forall k :: k in pools && k !in old(pools) ==> fresh(pools[k])
    }

    method SetWebToken(token: string)
      requires Valid()
      modifies this
      ensures Valid() && pools == old(pools) && model == old(model).(webToken := token)
    {
      webToken := token;
      model := model.(webToken := token);
    }

    /** The pool for a key, made if there is none yet. */
    method EnsurePool(key: string, roleArn: string) returns (pool: StsConnectionPool)
      requires Valid()
      modifies this`pools, this`model
      ensures Valid() && key in pools && pools[key] == pool && pool.Registered()
      ensures Grown()
      ensures model == StsModel.EnsurePool(old(model), key, roleArn)
    {
      if key !in pools {
        var built := new StsConnectionPool(key, roleArn, this, callers);
        pools := pools[key := built];
        model := SetPool(model, key, EmptyPool(roleArn));
      }
      pool := pools[key];
    }

    static ghost predicate BaseOrderly(s: Provider) {
      s.defaultRole in s.pools && s.pools[s.defaultRole].fetch.Some? ==> s.pools[s.defaultRole].inFlight
    }

    /** Make sure that the default role's fetch is under way. */
    method StartBase(inline: Inline) returns (base: StsConnectionPool)
      requires Valid() && BaseOrderly(model)
      modifies Footprint()
      ensures Valid() && Grown()
      ensures defaultRole in pools && pools[defaultRole] == base
      ensures model == StsModel.StartBase(old(model), inline)
    {
      base := EnsurePool(defaultRole, defaultRole);
      if !base.requestInFlight {
        base.Init(WebIdentity(webToken), inline);
      }
    }

    /** Queue a role behind the default role's fetch. */
    method WaitForBase(context: StsConnectionPool, role: string, inline: Inline)
      requires context.provider == this && context.Registered() && BaseOrderly(model) && role != defaultRole
      modifies Footprint()
      ensures context.Registered() && Grown()
      ensures model == StsModel.WaitForBase(old(model), context.cacheKeyArn, role, inline)
    {
      var base := StartBase(inline);
      base.AddChained(role);
      context.SetInFlight();
    }

    /** Fetch for a pool, at once or after the default role's fetch. */
    method StartFetch(context: StsConnectionPool, role: string, disableRoleChaining: bool, now: int, inline: Inline)
      requires context.provider == this && context.Registered() && BaseOrderly(model) && context.fetch.None?
      modifies Footprint()
      ensures context.Registered() && Grown()
      ensures model == StsModel.StartFetch(old(model), context.cacheKeyArn, role, disableRoleChaining, now, inline)
    {
      if role == defaultRole || disableRoleChaining {
        context.Init(WebIdentity(webToken), inline);
      } else if defaultRole in cache && cache[defaultRole].expiration - now > REFRESH_GRACE_PERIOD {
        context.Init(AssumeFrom(cache[defaultRole]), inline);
      } else {
        WaitForBase(context, role, inline);
      }
    }

    /** Every branch that starts a fetch, or waits for one, ends by adding the caller. */
    method StartAndAdd(
      context: StsConnectionPool, role: string, disableRoleChaining: bool, id: nat, now: int, inline: Inline)
      requires context.provider == this && context.Registered() && BaseOrderly(model) && context.fetch.None?
      modifies Footprint()
      ensures context.Registered() && Grown()
      ensures var started :=
                StsModel.StartFetch(old(model), context.cacheKeyArn, role, disableRoleChaining, now, inline);
              model == AddWaiter(started, context.cacheKeyArn, id)
      ensures context.connectionList != [] && context.connectionList[0] == id
    {
      StartFetch(context, role, disableRoleChaining, now, inline);
      context.Add(id);
    }

    /** The part of find that has to start, or wait for, a fetch. */
    method FindMiss(lookup: string, role: string, disableRoleChaining: bool, id: nat, now: int, inline: Inline)
      returns (context: StsConnectionPool)
      requires Valid() && Orderly(model)
      requires lookup == Key(role, disableRoleChaining) && Misses(model, lookup, now)
      modifies Footprint()
      ensures Valid() && Grown()
      ensures model == StsModel.FindMiss(old(model), role, disableRoleChaining, id, now, inline)
      ensures context.provider == this && context.Registered()
      ensures context.connectionList != [] && context.connectionList[0] == id
    {
      EnsureKeepsOrderly(model, lookup, role);
      context := EnsurePool(lookup, role);
      StartAndAdd(context, role, disableRoleChaining, id, now, inline);
    }

    /**
     * A null context stands for "answered at once"; otherwise the caller waits in
     * the list of the pool it gets back.
     */
    method AnswerAtOnce(id: nat, creds: Creds)
      requires Valid()
      modifies callers, this`model
      ensures Valid() && model == old(model).(answers := old(model).answers + [Answer(id, Granted(creds))])
    {
      callers.Receive(id, Granted(creds));
      model := model.(answers := callers.answers);
    }

    method Find(roleArn: Option<string>, disableRoleChaining: bool, id: nat, now: int, inline: Inline)
      returns (context: StsConnectionPool?)
      requires Valid() && Orderly(model)
      modifies Footprint()
      ensures Valid() && Grown()
      ensures (model, context != null) == StsModel.Find(old(model), roleArn, disableRoleChaining, id, now, inline)
      ensures context != null ==>
                context.Registered() && context.connectionList != [] && context.connectionList[0] == id
    {
      var role := match roleArn case Some(r) => r case None => defaultRole;
      var lookup := if disableRoleChaining then NO_CHAIN + role else role;
      if lookup in cache && cache[lookup].expiration - now > REFRESH_GRACE_PERIOD {
        AnswerAtOnce(id, cache[lookup]);
        return null;
      }
      if lookup in pools && pools[lookup].requestInFlight {
        pools[lookup].Add(id);
        return pools[lookup];
      }
      context := FindMiss(lookup, role, disableRoleChaining, id, now, inline);
    }
  }
}

/**
 * What "in flight" means in every state: a pool is in flight exactly when it has
 * one fetch outstanding or is queued once behind the default role's fetch. And when
 * every waiting caller is attended: when a fetch is outstanding that will answer it.
 */
module StsFlight {
  import opened Common
  import opened StsModel

  /** The roles queued behind the default role's fetch. */
  function Queue(s: Provider): seq<string> {
    if s.defaultRole in s.pools then s.pools[s.defaultRole].chained else []
  }

  ghost predicate PoolOk(s: Provider, k: string)
    requires k in s.pools
  {
    var p := s.pools[k];
    && (p.inFlight <==> p.fetch.Some? || k in Queue(s))
    && !(p.fetch.Some? && k in Queue(s))
    && (k != s.defaultRole ==> p.chained == [])
  }

  ghost predicate Inv(s: Provider) {
    && (forall k :: k in s.pools ==> PoolOk(s, k))
    && NoDup(Queue(s))
    && (forall c :: c in Queue(s) ==> c in s.pools && c != s.defaultRole)
  }

  /** Callers wait only in flight, and roles queue only behind an outstanding fetch. */
  ghost predicate Attended(s: Provider) {
    && (forall k :: k in s.pools && !s.pools[k].inFlight ==> s.pools[k].waiters == [])
    && (Queue(s) != [] ==> s.pools[s.defaultRole].fetch.Some?)
  }

  lemma InvIsOrderly(s: Provider)
    requires Inv(s)
    ensures Orderly(s)
  {
    forall k | k in s.pools
      ensures s.pools[k].fetch.Some? ==> s.pools[k].inFlight
      ensures s.pools[k].chained != [] ==> k == s.defaultRole && k !in s.pools[k].chained
    {
      assert PoolOk(s, k);
    }
    forall c | c in Queue(s)
      ensures s.pools[c].inFlight && s.pools[c].fetch.None?
    {
      assert PoolOk(s, c);
    }
  }

  /** Nobody waits in vain: behind every waiting caller there is an outstanding fetch. */
  lemma WaitersHaveAFetch(s: Provider, k: string)
    requires Inv(s) && Attended(s) && k in s.pools && s.pools[k].waiters != []
    ensures s.pools[k].fetch.Some?
         || (k in Queue(s) && s.defaultRole in s.pools && s.pools[s.defaultRole].fetch.Some?)
  {
    assert PoolOk(s, k);
  }

  // ---------- The loops, pool by pool ----------

  ghost predicate SameElsewhere(s: Provider, r: Provider) {
    && r.defaultRole == s.defaultRole && r.webToken == s.webToken && r.cache == s.cache
    && r.pools.Keys == s.pools.Keys
  }

  lemma {:induction false} FailRolesForm(s: Provider, roles: seq<string>, status: FailureStatus)
    ensures var r := FailRoles(s, roles, status);
            && SameElsewhere(s, r)
            && forall j :: j in s.pools ==>
                 r.pools[j] == if j in roles then s.pools[j].(inFlight := false, waiters := []) else s.pools[j]
    decreases |roles|
  {
    if roles != [] {
      var c, rest := roles[|roles| - 1], roles[..|roles| - 1];
      assert roles == rest + [c];
      FailRolesForm(FailOne(s, c, status), rest, status);
    }
  }

  function Kicked(p: Pool, base: Creds, fails: bool): Pool {
    if fails then p.(inFlight := false, fetch := None, waiters := [])
    else p.(inFlight := true, fetch := Some(AssumeFrom(base)))
  }

  lemma {:induction false} KickOneForm(s: Provider, c: string, base: Creds, inline: Inline)
    requires c in s.pools ==> s.pools[c].chained == []
    ensures var r := KickOne(s, c, base, inline);
            && SameElsewhere(s, r)
            && forall j :: j in s.pools ==>
                 r.pools[j] == if j == c then Kicked(s.pools[j], base, j in inline) else s.pools[j]
  {
    if c in s.pools {
      InitPoolAlone(s, c, AssumeFrom(base), inline);
    }
  }

  lemma {:induction false} KickRolesForm(s: Provider, roles: seq<string>, base: Creds, inline: Inline)
    requires NoDup(roles) && forall c :: c in roles && c in s.pools ==> s.pools[c].chained == []
    ensures var r := KickRoles(s, roles, base, inline);
            && SameElsewhere(s, r)
            && forall j :: j in s.pools ==>
                 r.pools[j] == if j in roles then Kicked(s.pools[j], base, j in inline) else s.pools[j]
    decreases |roles|
  {
    if roles != [] {
      var c, rest := roles[|roles| - 1], roles[..|roles| - 1];
      assert roles == rest + [c];
      KickOneForm(s, c, base, inline);
      KickRolesForm(KickOne(s, c, base, inline), rest, base, inline);
    }
  }

  // ---------- Completions keep the invariant ----------

  lemma FailForm(s: Provider, k: string, status: FailureStatus)
    requires Inv(s) && k in s.pools && s.pools[k].fetch.Some?
    ensures var r := FailPool(s, k, status);
            && SameElsewhere(s, r)
            && r.pools[k] == s.pools[k].(inFlight := false, fetch := None, waiters := [], chained := [])
            && forall j :: j in s.pools && j != k ==>
                 r.pools[j]
                   == if j in s.pools[k].chained then s.pools[j].(inFlight := false, waiters := []) else s.pools[j]
  {
    var s' := ClearChained(SetPool(s, k, s.pools[k].(inFlight := false)), k);
    FailRolesForm(s', s.pools[k].chained, status);
    assert PoolOk(s, k);
    assert k !in s.pools[k].chained;
  }

  lemma FailKeepsInv(s: Provider, k: string, status: FailureStatus)
    requires Inv(s) && k in s.pools && s.pools[k].fetch.Some?
    ensures Inv(FailPool(s, k, status))
  {
    var r := FailPool(s, k, status);
    FailForm(s, k, status);
    assert PoolOk(s, k);
    forall j | j in s.pools
      ensures PoolOk(r, j)
    {
      assert PoolOk(s, j);
    }
  }

  lemma ChainedAreQueued(s: Provider, k: string)
    requires Inv(s) && k in s.pools
    ensures NoDup(s.pools[k].chained) && k !in s.pools[k].chained
    ensures forall c :: c in s.pools[k].chained ==> c in s.pools && s.pools[c].chained == []
  {
    assert PoolOk(s, k);
    forall c | c in s.pools[k].chained
      ensures c in s.pools && s.pools[c].chained == []
    {
      assert k == s.defaultRole && c in Queue(s);
      assert PoolOk(s, c);
    }
  }

  lemma {:induction false} SucceedForm(s: Provider, k: string, creds: Creds, inline: Inline)
    requires Inv(s) && k in s.pools && s.pools[k].fetch.Some?
    ensures var r := EndFetch(Succeed(s, k, creds, inline), k);
            && r.defaultRole == s.defaultRole && r.webToken == s.webToken && r.cache == s.cache[k := creds]
            && r.pools.Keys == s.pools.Keys
            && r.pools[k] == s.pools[k].(inFlight := false, fetch := None, waiters := [], chained := [])
            && forall j :: j in s.pools && j != k ==>
                 r.pools[j] == if j in s.pools[k].chained then Kicked(s.pools[j], creds, j in inline) else s.pools[j]
  {
    var s' := ClearChained(s.(cache := s.cache[k := creds]), k);
    ChainedAreQueued(s, k);
    KickRolesForm(s', s.pools[k].chained, creds, inline);
  }

  lemma FetchOkKeepsInv(s: Provider, k: string, body: Body, now: int, inline: Inline)
    requires Inv(s) && k in s.pools && s.pools[k].fetch.Some?
    ensures Inv(FetchOk(s, k, body, now, inline))
  {
    match ParseBody(body, now)
    case None => FailKeepsInv(s, k, InvalidSts);
    case Some(creds) =>
      var r := FetchOk(s, k, body, now, inline);
      SucceedForm(s, k, creds, inline);
      assert PoolOk(s, k);
      forall j | j in s.pools
        ensures PoolOk(r, j)
      {
        assert PoolOk(s, j);
      }
  }

  lemma FailKeepsAttended(s: Provider, k: string, status: FailureStatus)
    requires Inv(s) && Attended(s) && k in s.pools && s.pools[k].fetch.Some?
    ensures Attended(FailPool(s, k, status))
  {
    FailForm(s, k, status);
    assert PoolOk(s, k);
  }

  lemma FetchOkKeepsAttended(s: Provider, k: string, body: Body, now: int, inline: Inline)
    requires Inv(s) && Attended(s) && k in s.pools && s.pools[k].fetch.Some?
    ensures Attended(FetchOk(s, k, body, now, inline))
  {
    match ParseBody(body, now)
    case None => FailKeepsAttended(s, k, InvalidSts);
    case Some(creds) =>
      SucceedForm(s, k, creds, inline);
      assert PoolOk(s, k);
  }

  lemma CancelKeepsInv(s: Provider, k: string, i: nat)
    requires Inv(s) && k in s.pools && i < |s.pools[k].waiters|
    ensures Inv(CancelWaiter(s, k, i))
  {
    var r := CancelWaiter(s, k, i);
    forall j | j in s.pools
      ensures PoolOk(r, j)
    {
      assert PoolOk(s, j);
      assert Queue(r) == Queue(s);
    }
  }

  // ---------- find ----------

  /** The pool whose fetch the call itself starts: its own, or the default role's. */
  function Started(s: Provider, role: string, disableChaining: bool, now: int): Option<string> {
    if !Misses(s, Key(role, disableChaining), now) then None
    else if role == s.defaultRole || disableChaining || Fresh(s, s.defaultRole, now) then
      Some(Key(role, disableChaining))
    else if s.defaultRole in s.pools && s.pools[s.defaultRole].inFlight then None
    else Some(s.defaultRole)
  }

  /** The call starts a fetch that fails before the caller has been added. */
  predicate FailsInline(s: Provider, role: string, disableChaining: bool, now: int, inline: Inline) {
    match Started(s, role, disableChaining, now) case Some(k) => k in inline case None => false
  }

  lemma EnsureKeepsInv(s: Provider, k: string, role: string)
    requires Inv(s)
    ensures Inv(EnsurePool(s, k, role))
  {
    var r := EnsurePool(s, k, role);
    assert Queue(r) == Queue(s);
    forall j | j in r.pools
      ensures PoolOk(r, j)
    {
      if j in s.pools {
        assert PoolOk(s, j);
      }
    }
  }

  /** Starting a fetch that does not fail inline, for an idle pool. */
  lemma LaunchKeepsInv(s: Provider, k: string, auth: Auth)
    requires Inv(s) && k in s.pools && !s.pools[k].inFlight
    ensures Inv(InitPool(s, k, auth, map[]))
    ensures Attended(s) ==> Attended(InitPool(s, k, auth, map[]))
  {
    var r := InitPool(s, k, auth, map[]);
    assert Queue(r) == Queue(s);
    forall j | j in r.pools
      ensures PoolOk(r, j)
    {
      assert PoolOk(s, j);
    }
  }

  /** Starting any fetch for an idle pool; if it fails inline, the pool is idle again and its lists are empty. */
  lemma InitKeepsInv(s: Provider, k: string, auth: Auth, inline: Inline)
    requires Inv(s) && k in s.pools && !s.pools[k].inFlight
    ensures var r := InitPool(s, k, auth, inline);
            && Inv(r) && SameElsewhere(s, r)
            && (k in inline ==>
                  r.pools[k] == s.pools[k].(inFlight := false, fetch := None, waiters := [], chained := []))
            && (forall j :: j in s.pools && j != k ==>
                  r.pools[j] == if k in inline && j in s.pools[k].chained
                                then s.pools[j].(inFlight := false, waiters := []) else s.pools[j])
  {
    LaunchKeepsInv(s, k, auth);
    if k in inline {
      var s' := InitPool(s, k, auth, map[]);
      FailForm(s', k, inline[k]);
      FailKeepsInv(s', k, inline[k]);
    }
  }

  lemma AddWaiterKeepsInv(s: Provider, k: string, id: nat)
    requires Inv(s) && k in s.pools
    ensures Inv(AddWaiter(s, k, id))
    ensures Attended(s) && s.pools[k].inFlight ==> Attended(AddWaiter(s, k, id))
  {
    var r := AddWaiter(s, k, id);
    assert Queue(r) == Queue(s);
    forall j | j in r.pools
      ensures PoolOk(r, j)
    {
      assert PoolOk(s, j);
    }
  }

  /** Queueing an idle role behind the default role. */
  lemma EnqueueKeepsInv(s: Provider, k: string)
    requires Inv(s) && k in s.pools && !s.pools[k].inFlight && k != s.defaultRole && s.defaultRole in s.pools
    ensures Inv(SetInFlight(AddChained(s, s.defaultRole, k), k))
    ensures Attended(s) && s.pools[s.defaultRole].fetch.Some? ==>
              Attended(SetInFlight(AddChained(s, s.defaultRole, k), k))
  {
    var r := SetInFlight(AddChained(s, s.defaultRole, k), k);
    assert PoolOk(s, k);
    assert Queue(r) == Queue(s) + [k];
    forall j | j in r.pools
      ensures PoolOk(r, j)
    {
      assert PoolOk(s, j);
    }
  }

  /** An idle pool is still idle once the default role's fetch has been seen to. */
  lemma StartBaseKeepsInv(s: Provider, k: string, inline: Inline)
    requires Inv(s) && k in s.pools && k != s.defaultRole && !s.pools[k].inFlight
    ensures var r := StartBase(s, inline);
            && Inv(r) && r.defaultRole == s.defaultRole && s.defaultRole in r.pools
            && k in r.pools && r.pools[k] == s.pools[k]
  {
    var s' := EnsurePool(s, s.defaultRole, s.defaultRole);
    EnsureKeepsInv(s, s.defaultRole, s.defaultRole);
    if !s'.pools[s.defaultRole].inFlight {
      InitKeepsInv(s', s.defaultRole, WebIdentity(s.webToken), inline);
      assert PoolOk(s, k);
    }
  }

  lemma StartBaseKeepsAttended(s: Provider)
    requires Inv(s) && Attended(s)
    ensures var r := StartBase(s, map[]); Attended(r) && r.pools[s.defaultRole].fetch.Some?
  {
    var s' := EnsurePool(s, s.defaultRole, s.defaultRole);
    EnsureKeepsInv(s, s.defaultRole, s.defaultRole);
    assert PoolOk(s', s.defaultRole);
    assert Queue(s') == Queue(s);
    if !s'.pools[s.defaultRole].inFlight {
      LaunchKeepsInv(s', s.defaultRole, WebIdentity(s.webToken));
    }
  }

  lemma StartFetchKeepsInv(s: Provider, key: string, role: string, disableChaining: bool, now: int, inline: Inline)
    requires Inv(s) && key == Key(role, disableChaining)
    requires key in s.pools && !s.pools[key].inFlight
    ensures Inv(StartFetch(s, key, role, disableChaining, now, inline))
  {
    if role == s.defaultRole || disableChaining {
      InitKeepsInv(s, key, WebIdentity(s.webToken), inline);
    } else if Fresh(s, s.defaultRole, now) {
      InitKeepsInv(s, key, AssumeFrom(s.cache[s.defaultRole]), inline);
    } else {
      StartBaseKeepsInv(s, key, inline);
      EnqueueKeepsInv(StartBase(s, inline), key);
    }
  }

  lemma StartFetchKeepsAttended(s: Provider, key: string, role: string, disableChaining: bool, now: int)
    requires Inv(s) && Attended(s) && key == Key(role, disableChaining)
    requires key in s.pools && !s.pools[key].inFlight
    ensures var r := StartFetch(s, key, role, disableChaining, now, map[]); Attended(r) && r.pools[key].inFlight
  {
    if role == s.defaultRole || disableChaining {
      LaunchKeepsInv(s, key, WebIdentity(s.webToken));
    } else if Fresh(s, s.defaultRole, now) {
      LaunchKeepsInv(s, key, AssumeFrom(s.cache[s.defaultRole]));
    } else {
      StartBaseKeepsInv(s, key, map[]);
      StartBaseKeepsAttended(s);
      EnqueueKeepsInv(StartBase(s, map[]), key);
    }
  }

  /** What other fetches would do plays no part. */
  lemma {:induction false} OthersIrrelevant(
    s: Provider, role: string, disableChaining: bool, id: nat, now: int, inline: Inline)
    requires Misses(s, Key(role, disableChaining), now) && !FailsInline(s, role, disableChaining, now, inline)
    ensures FindMiss(s, role, disableChaining, id, now, inline) == FindMiss(s, role, disableChaining, id, now, map[])
  {
  }

  lemma FindKeepsInv(s: Provider, roleArg: Option<string>, disableChaining: bool, id: nat, now: int, inline: Inline)
    requires Inv(s)
    ensures Inv(Find(s, roleArg, disableChaining, id, now, inline).0)
  {
    var role := RoleOf(s, roleArg);
    var key := Key(role, disableChaining);
    if Fresh(s, key, now) {
      HitKeepsInv(s, Answer(id, Granted(s.cache[key])));
    } else if !Misses(s, key, now) {
      AddWaiterKeepsInv(s, key, id);
    } else {
      var s' := EnsurePool(s, key, role);
      EnsureKeepsInv(s, key, role);
      StartFetchKeepsInv(s', key, role, disableChaining, now, inline);
      AddWaiterKeepsInv(StartFetch(s', key, role, disableChaining, now, inline), key, id);
    }
  }

  lemma HitKeepsInv(s: Provider, a: Answer)
    requires Inv(s)
    ensures Inv(s.(answers := s.answers + [a])) && Queue(s.(answers := s.answers + [a])) == Queue(s)
  {
    var r := s.(answers := s.answers + [a]);
    forall j | j in r.pools
      ensures PoolOk(r, j)
    {
      assert PoolOk(s, j);
    }
  }

  lemma {:induction false} MissKeepsAttended(
    s: Provider, role: string, disableChaining: bool, id: nat, now: int, inline: Inline)
    requires Inv(s) && Attended(s) && Misses(s, Key(role, disableChaining), now)
    requires !FailsInline(s, role, disableChaining, now, inline)
    ensures Attended(FindMiss(s, role, disableChaining, id, now, inline))
  {
    var key := Key(role, disableChaining);
    var s' := EnsurePool(s, key, role);
    EnsureKeepsInv(s, key, role);
    assert Queue(s') == Queue(s);
    StartFetchKeepsInv(s', key, role, disableChaining, now, map[]);
    StartFetchKeepsAttended(s', key, role, disableChaining, now);
    AddWaiterKeepsInv(StartFetch(s', key, role, disableChaining, now, map[]), key, id);
    OthersIrrelevant(s, role, disableChaining, id, now, inline);
  }

  lemma {:induction false} FindKeepsAttended(
    s: Provider, roleArg: Option<string>, disableChaining: bool, id: nat, now: int, inline: Inline)
    requires Inv(s) && Attended(s)
    requires !FailsInline(s, RoleOf(s, roleArg), disableChaining, now, inline)
    ensures Attended(Find(s, roleArg, disableChaining, id, now, inline).0)
  {
    var role := RoleOf(s, roleArg);
    var key := Key(role, disableChaining);
    if Fresh(s, key, now) {
      HitKeepsInv(s, Answer(id, Granted(s.cache[key])));
    } else if !Misses(s, key, now) {
      AddWaiterKeepsInv(s, key, id);
    } else {
      MissKeepsAttended(s, role, disableChaining, id, now, inline);
    }
  }

  /** The pool whose fetch would answer the callers that wait under key k. */
  function Source(s: Provider, k: string): string {
    if k in Queue(s) then s.defaultRole else k
  }

  predicate Outstanding(s: Provider, k: string) {
    k in s.pools && s.pools[k].fetch.Some?
  }

  /** The caller waits, and no fetch is outstanding that would answer it. */
  ghost predicate Stranded(s: Provider, k: string, id: nat) {
    k in s.pools && id in s.pools[k].waiters && !Outstanding(s, Source(s, k))
  }

  lemma StrandedIsUnattended(s: Provider, k: string, id: nat)
    requires Inv(s) && Stranded(s, k, id)
    ensures !Attended(s)
  {
    assert PoolOk(s, k);
    if Attended(s) {
      WaitersHaveAFetch(s, k);
    }
  }

  lemma StrandedAtOwnFetch(s: Provider, k: string, auth: Auth, id: nat, inline: Inline)
    requires Inv(s) && k in s.pools && !s.pools[k].inFlight && k in inline
    ensures Stranded(AddWaiter(InitPool(s, k, auth, inline), k, id), k, id)
  {
    InitKeepsInv(s, k, auth, inline);
    var r := AddWaiter(InitPool(s, k, auth, inline), k, id);
    AddWaiterKeepsInv(InitPool(s, k, auth, inline), k, id);
    assert PoolOk(r, k);
  }

  lemma StrandedBehindBase(s: Provider, k: string, id: nat, inline: Inline)
    requires Inv(s) && k in s.pools && !s.pools[k].inFlight && k != s.defaultRole && s.defaultRole in inline
    requires s.defaultRole in s.pools ==> !s.pools[s.defaultRole].inFlight
    ensures Stranded(AddWaiter(WaitForBase(s, k, k, inline), k, id), k, id)
  {
    EnsureKeepsInv(s, s.defaultRole, s.defaultRole);
    var s' := EnsurePool(s, s.defaultRole, s.defaultRole);
    InitKeepsInv(s', s.defaultRole, WebIdentity(s.webToken), inline);
  }

  lemma {:induction false} StartStrands(
    s: Provider, role: string, disableChaining: bool, id: nat, now: int, inline: Inline)
    requires Inv(s) && FailsInline(s, role, disableChaining, now, inline)
    ensures Stranded(FindMiss(s, role, disableChaining, id, now, inline), Key(role, disableChaining), id)
  {
    var key := Key(role, disableChaining);
    var s1 := EnsurePool(s, key, role);
    EnsureKeepsInv(s, key, role);
    if role == s.defaultRole || disableChaining {
      StrandedAtOwnFetch(s1, key, WebIdentity(s.webToken), id, inline);
    } else if Fresh(s, s.defaultRole, now) {
      StrandedAtOwnFetch(s1, key, AssumeFrom(s.cache[s.defaultRole]), id, inline);
    } else {
      StrandedBehindBase(s1, key, id, inline);
    }
  }

  /** A fetch that fails before find has added its caller leaves the caller without one. */
  lemma {:induction false} InlineFailureStrands(
    s: Provider, roleArg: Option<string>, disableChaining: bool, id: nat, now: int, inline: Inline)
    requires Inv(s) && FailsInline(s, RoleOf(s, roleArg), disableChaining, now, inline)
    ensures var r := Find(s, roleArg, disableChaining, id, now, inline).0;
            Stranded(r, Key(RoleOf(s, roleArg), disableChaining), id) && !Attended(r)
  {
    var role := RoleOf(s, roleArg);
    StartStrands(s, role, disableChaining, id, now, inline);
    FindKeepsInv(s, roleArg, disableChaining, id, now, inline);
    StrandedIsUnattended(Find(s, roleArg, disableChaining, id, now, inline).0, Key(role, disableChaining), id);
  }

  /** find keeps everybody attended exactly when it starts no fetch that fails before it returns. */
  lemma FindKeepsAttendedExactly(
    s: Provider, roleArg: Option<string>, disableChaining: bool, id: nat, now: int, inline: Inline)
    requires Inv(s) && Attended(s)
    ensures Attended(Find(s, roleArg, disableChaining, id, now, inline).0)
       <==> !FailsInline(s, RoleOf(s, roleArg), disableChaining, now, inline)
  {
    if FailsInline(s, RoleOf(s, roleArg), disableChaining, now, inline) {
      InlineFailureStrands(s, roleArg, disableChaining, id, now, inline);
    } else {
      FindKeepsAttended(s, roleArg, disableChaining, id, now, inline);
    }
  }

  lemma StartAnswersNobody(s: Provider, key: string, role: string, disableChaining: bool, now: int)
    requires key in s.pools
    ensures var r := StartFetch(s, key, role, disableChaining, now, map[]);
            r.answers == s.answers && r.pools[key].inFlight
  {
  }

  /** A miss whose fetch does not fail inline answers nobody; its pool is in flight afterwards. */
  lemma MissAnswersNobody(s: Provider, role: string, disableChaining: bool, id: nat, now: int, inline: Inline)
    requires Misses(s, Key(role, disableChaining), now) && !FailsInline(s, role, disableChaining, now, inline)
    ensures var r := FindMiss(s, role, disableChaining, id, now, inline);
            && r.answers == s.answers
            && Key(role, disableChaining) in r.pools && r.pools[Key(role, disableChaining)].inFlight
  {
    OthersIrrelevant(s, role, disableChaining, id, now, inline);
    var key := Key(role, disableChaining);
    StartAnswersNobody(EnsurePool(s, key, role), key, role, disableChaining, now);
  }

  /** A caller is answered at once exactly when its key is cached with more than five minutes left. */
  lemma SynchronousHit(s: Provider, roleArg: Option<string>, disableChaining: bool, id: nat, now: int, inline: Inline)
    ensures var key := Key(RoleOf(s, roleArg), disableChaining);
            var r := Find(s, roleArg, disableChaining, id, now, inline);
            && (!r.1 <==> key in s.cache && s.cache[key].expiration - now > 5 * 60 * 1000)
            && (!r.1 ==> r.0 == s.(answers := s.answers + [Answer(id, Granted(s.cache[key]))]))
            && (r.1 && !FailsInline(s, RoleOf(s, roleArg), disableChaining, now, inline) ==>
                  r.0.answers == s.answers && r.0.pools[key].inFlight)
  {
    var role := RoleOf(s, roleArg);
    if Misses(s, Key(role, disableChaining), now) && !FailsInline(s, role, disableChaining, now, inline) {
      MissAnswersNobody(s, role, disableChaining, id, now, inline);
    }
  }

  lemma StartFetchFrame(s: Provider, key: string, role: string, disableChaining: bool, now: int, inline: Inline)
    requires Inv(s) && key == Key(role, disableChaining) && key in s.pools && !s.pools[key].inFlight
    ensures var r := StartFetch(s, key, role, disableChaining, now, inline);
            r.cache == s.cache && r.defaultRole == s.defaultRole && r.webToken == s.webToken
  {
    if role == s.defaultRole || disableChaining {
      InitKeepsInv(s, key, WebIdentity(s.webToken), inline);
    } else if Fresh(s, s.defaultRole, now) {
      InitKeepsInv(s, key, AssumeFrom(s.cache[s.defaultRole]), inline);
    } else {
      var s' := EnsurePool(s, s.defaultRole, s.defaultRole);
      EnsureKeepsInv(s, s.defaultRole, s.defaultRole);
      if !s'.pools[s.defaultRole].inFlight {
        InitKeepsInv(s', s.defaultRole, WebIdentity(s.webToken), inline);
      }
    }
  }

  /** A call leaves the cache alone. */
  lemma FindFrame(s: Provider, roleArg: Option<string>, disableChaining: bool, id: nat, now: int, inline: Inline)
    requires Inv(s)
    ensures var r := Find(s, roleArg, disableChaining, id, now, inline).0;
            r.cache == s.cache && r.defaultRole == s.defaultRole && r.webToken == s.webToken
  {
    var role := RoleOf(s, roleArg);
    var key := Key(role, disableChaining);
    if Misses(s, key, now) {
      EnsureKeepsInv(s, key, role);
      StartFetchFrame(EnsurePool(s, key, role), key, role, disableChaining, now, inline);
    }
  }
}

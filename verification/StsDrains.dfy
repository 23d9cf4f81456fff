/**
 * Whom each operation answers: the waiter lists that it drains, in order, and with what
 * outcome. An operation is, for its callers, no more than its list of drains.
 */
module StsDrains {
  import opened Common
  import opened StsModel
  import opened StsFlight

  /** The callers waiting under a key, newest first. */
  function Waiting(s: Provider, k: string): seq<nat> {
    if k in s.pools then s.pools[k].waiters else []
  }

  /** The list under the key is emptied from its back, everybody in it getting the outcome. */
  datatype Drain = Drain(key: string, outcome: Outcome)

  function AnswersOf(s: Provider, ds: seq<Drain>): seq<Answer> {
    if ds == [] then [] else Replies(Waiting(s, ds[0].key), ds[0].outcome) + AnswersOf(s, ds[1..])
  }

  predicate Drained(ds: seq<Drain>, k: string) {
    exists i :: 0 <= i < |ds| && ds[i].key == k
  }

  ghost predicate OnceEach(ds: seq<Drain>) {
    forall i, j :: 0 <= i < j < |ds| ==> ds[i].key != ds[j].key
  }

  /** From s to r exactly these lists are drained, in this order. */
  ghost predicate Drains(s: Provider, ds: seq<Drain>, r: Provider) {
    && OnceEach(ds)
    && r.answers == s.answers + AnswersOf(s, ds)
    && forall k :: Waiting(r, k) == if Drained(ds, k) then [] else Waiting(s, k)
  }

  lemma {:induction false} SameAnswers(s: Provider, r: Provider, ds: seq<Drain>)
    requires forall i :: 0 <= i < |ds| ==> Waiting(r, ds[i].key) == Waiting(s, ds[i].key)
    ensures AnswersOf(r, ds) == AnswersOf(s, ds)
    decreases |ds|
  {
    if ds != [] {
      SameAnswers(s, r, ds[1..]);
    }
  }

  lemma {:induction false} AnswersOfSum(s: Provider, a: seq<Drain>, b: seq<Drain>)
    ensures AnswersOf(s, a + b) == AnswersOf(s, a) + AnswersOf(s, b)
    decreases |a|
  {
    if a == [] {
      assert a + b == b;
    } else {
      assert (a + b)[1..] == a[1..] + b;
      AnswersOfSum(s, a[1..], b);
      Associates(Replies(Waiting(s, a[0].key), a[0].outcome), AnswersOf(s, a[1..]), AnswersOf(s, b));
    }
  }

  lemma AnswersOfOne(s: Provider, d: Drain)
    ensures AnswersOf(s, [d]) == Replies(Waiting(s, d.key), d.outcome)
  {
    assert [d][1..] == [];
  }

  // ---------- The chained roles ----------

  /** The chained roles fail, last one first. */
  function FailDrains(roles: seq<string>, status: FailureStatus): (ds: seq<Drain>)
    ensures |ds| == |roles|
    ensures forall i :: 0 <= i < |ds| ==> ds[i] == Drain(roles[|roles| - 1 - i], Denied(status))
  {
    if roles == [] then []
    else [Drain(roles[|roles| - 1], Denied(status))] + FailDrains(roles[..|roles| - 1], status)
  }

  /** The chained fetches start, last one first; those that fail inline deny their callers. */
  function KickDrains(roles: seq<string>, inline: Inline): seq<Drain> {
    if roles == [] then []
    else
      var c := roles[|roles| - 1];
      (if c in inline then [Drain(c, Denied(inline[c]))] else []) + KickDrains(roles[..|roles| - 1], inline)
  }

  lemma {:induction false} KickedAreRoles(roles: seq<string>, inline: Inline)
    requires NoDup(roles)
    ensures OnceEach(KickDrains(roles, inline))
    ensures forall k :: Drained(KickDrains(roles, inline), k) <==> k in roles && k in inline
    decreases |roles|
  {
    if roles != [] {
      var c, rest := roles[|roles| - 1], roles[..|roles| - 1];
      assert roles == rest + [c];
      KickedAreRoles(rest, inline);
      var ds := KickDrains(rest, inline);
      if c in inline {
        forall k
          ensures Drained([Drain(c, Denied(inline[c]))] + ds, k) <==> k == c || Drained(ds, k)
        {
          DrainedCons(Drain(c, Denied(inline[c])), ds, k);
        }
        OnceEachCons(Drain(c, Denied(inline[c])), ds);
      } else {
        assert [] + ds == ds;
      }
    }
  }

  lemma DrainedCons(d: Drain, ds: seq<Drain>, k: string)
    ensures Drained([d] + ds, k) <==> k == d.key || Drained(ds, k)
  {
    if k == d.key {
      assert ([d] + ds)[0].key == k;
    }
    if Drained(ds, k) {
      var i :| 0 <= i < |ds| && ds[i].key == k;
      assert ([d] + ds)[i + 1].key == k;
    }
  }

  lemma OnceEachCons(d: Drain, ds: seq<Drain>)
    requires OnceEach(ds) && !Drained(ds, d.key)
    ensures OnceEach([d] + ds)
  {
  }

  lemma DrainedSnoc(ds: seq<Drain>, d: Drain, k: string)
    ensures Drained(ds + [d], k) <==> Drained(ds, k) || k == d.key
  {
    if k == d.key {
      assert (ds + [d])[|ds|].key == k;
    }
    if Drained(ds, k) {
      var i :| 0 <= i < |ds| && ds[i].key == k;
      assert (ds + [d])[i].key == k;
    }
  }

  lemma OnceEachSnoc(ds: seq<Drain>, d: Drain)
    requires OnceEach(ds) && !Drained(ds, d.key)
    ensures OnceEach(ds + [d])
  {
  }

  lemma {:induction false} FailRolesAnswers(s: Provider, roles: seq<string>, status: FailureStatus)
    requires NoDup(roles) && forall c :: c in roles ==> c in s.pools
    ensures FailRoles(s, roles, status).answers == s.answers + AnswersOf(s, FailDrains(roles, status))
    decreases |roles|
  {
    if roles != [] {
      var c, rest := roles[|roles| - 1], roles[..|roles| - 1];
      assert roles == rest + [c];
      var s' := FailOne(s, c, status);
      FailRolesAnswers(s', rest, status);
      SameAnswers(s, s', FailDrains(rest, status));
      assert FailDrains(roles, status)[1..] == FailDrains(rest, status);
      Associates(s.answers, Replies(Waiting(s, c), Denied(status)), AnswersOf(s, FailDrains(rest, status)));
    }
  }

  lemma KickOneAnswers(s: Provider, c: string, base: Creds, inline: Inline)
    requires c in s.pools && s.pools[c].chained == []
    ensures var r := KickOne(s, c, base, inline);
            && r.answers == s.answers + (if c in inline then Replies(Waiting(s, c), Denied(inline[c])) else [])
            && r.pools.Keys == s.pools.Keys && forall j :: j in s.pools && j != c ==> r.pools[j] == s.pools[j]
  {
    InitPoolAlone(s, c, AssumeFrom(base), inline);
    assert s.answers + [] == s.answers;
  }

  lemma {:induction false} KickRolesAnswers(s: Provider, roles: seq<string>, base: Creds, inline: Inline)
    requires NoDup(roles) && forall c :: c in roles ==> c in s.pools && s.pools[c].chained == []
    ensures KickRoles(s, roles, base, inline).answers == s.answers + AnswersOf(s, KickDrains(roles, inline))
    decreases |roles|
  {
    if roles == [] {
      assert s.answers + [] == s.answers;
    } else {
      var c, rest := roles[|roles| - 1], roles[..|roles| - 1];
      assert roles == rest + [c];
      var s' := KickOne(s, c, base, inline);
      KickOneAnswers(s, c, base, inline);
      KickRolesAnswers(s', rest, base, inline);
      KickedAreRoles(rest, inline);
      var ds := KickDrains(rest, inline);
      forall i | 0 <= i < |ds|
        ensures Waiting(s', ds[i].key) == Waiting(s, ds[i].key)
      {
        assert Drained(ds, ds[i].key);
      }
      SameAnswers(s, s', ds);
      if c in inline {
        var d := Drain(c, Denied(inline[c]));
        AnswersOfSum(s, [d], ds);
        AnswersOfOne(s, d);
        Associates(s.answers, AnswersOf(s, [d]), AnswersOf(s, ds));
      } else {
        assert [] + ds == ds && s.answers + [] == s.answers;
      }
    }
  }

  // ---------- Completed fetches ----------

  function PoolFailDrains(s: Provider, k: string, status: FailureStatus): seq<Drain>
    requires k in s.pools
  {
    FailDrains(s.pools[k].chained, status) + [Drain(k, Denied(status))]
  }

  function OkDrains(s: Provider, k: string, body: Body, now: int, inline: Inline): seq<Drain>
    requires k in s.pools
  {
    match ParseBody(body, now)
    case None => PoolFailDrains(s, k, InvalidSts)
    case Some(c) => KickDrains(s.pools[k].chained, inline) + [Drain(k, Granted(c))]
  }

  lemma FailedAreRoles(roles: seq<string>, status: FailureStatus)
    requires NoDup(roles)
    ensures OnceEach(FailDrains(roles, status))
    ensures forall k :: Drained(FailDrains(roles, status), k) <==> k in roles
  {
    var ds := FailDrains(roles, status);
    forall k | k in roles
      ensures Drained(ds, k)
    {
      var i :| 0 <= i < |roles| && roles[i] == k;
      assert ds[|roles| - 1 - i].key == k;
    }
  }

  /** Draining some lists and then that of k itself. */
  lemma ThenOwn(s: Provider, m: Provider, ds: seq<Drain>, d: Drain, r: Provider)
    requires OnceEach(ds) && !Drained(ds, d.key) && m.answers == s.answers + AnswersOf(s, ds)
    requires r.answers == m.answers + Replies(Waiting(s, d.key), d.outcome)
    requires forall k :: Waiting(r, k) == if k == d.key || Drained(ds, k) then [] else Waiting(s, k)
    ensures Drains(s, ds + [d], r)
  {
    OnceEachSnoc(ds, d);
    AnswersOfSum(s, ds, [d]);
    AnswersOfOne(s, d);
    Associates(s.answers, AnswersOf(s, ds), AnswersOf(s, [d]));
    forall k
      ensures Waiting(r, k) == if Drained(ds + [d], k) then [] else Waiting(s, k)
    {
      DrainedSnoc(ds, d, k);
    }
  }

  /** A failed fetch refuses the callers of the chained roles and then the pool's own. */
  lemma FailPoolDrains(s: Provider, k: string, status: FailureStatus)
    requires Inv(s) && Outstanding(s, k)
    ensures Drains(s, PoolFailDrains(s, k, status), FailPool(s, k, status))
  {
    var roles := s.pools[k].chained;
    var s' := ClearChained(SetPool(s, k, s.pools[k].(inFlight := false)), k);
    var m := FailRoles(s', roles, status);
    ChainedAreQueued(s, k);
    FailRolesAnswers(s', roles, status);
    FailRolesForm(s', roles, status);
    FailedAreRoles(roles, status);
    SameAnswers(s, s', FailDrains(roles, status));
    FailForm(s, k, status);
    ThenOwn(s, m, FailDrains(roles, status), Drain(k, Denied(status)), FailPool(s, k, status));
  }

  lemma SucceedDrains(s: Provider, k: string, creds: Creds, inline: Inline)
    requires Inv(s) && Outstanding(s, k)
    ensures Drains(s, KickDrains(s.pools[k].chained, inline) + [Drain(k, Granted(creds))],
                   EndFetch(Succeed(s, k, creds, inline), k))
  {
    var roles := s.pools[k].chained;
    var s' := ClearChained(s.(cache := s.cache[k := creds]), k);
    var m := KickRoles(s', roles, creds, inline);
    ChainedAreQueued(s, k);
    KickRolesAnswers(s', roles, creds, inline);
    KickRolesForm(s', roles, creds, inline);
    KickedAreRoles(roles, inline);
    SameAnswers(s, s', KickDrains(roles, inline));
    SucceedForm(s, k, creds, inline);
    ThenOwn(s, m, KickDrains(roles, inline), Drain(k, Granted(creds)), EndFetch(Succeed(s, k, creds, inline), k));
  }

  /** A fetch that got a response: chained fetches that fail inline first, then the pool's own callers. */
  lemma FetchOkDrains(s: Provider, k: string, body: Body, now: int, inline: Inline)
    requires Inv(s) && Outstanding(s, k)
    ensures Drains(s, OkDrains(s, k, body, now, inline), FetchOk(s, k, body, now, inline))
  {
    match ParseBody(body, now)
    case None => FailPoolDrains(s, k, InvalidSts);
    case Some(c) => SucceedDrains(s, k, c, inline);
  }

  // ---------- Calls ----------

  /** Whom a call answers besides its own caller: nobody, unless the fetch that it starts fails inline. */
  function CallDrains(s: Provider, role: string, disableChaining: bool, now: int, inline: Inline): seq<Drain> {
    match Started(s, role, disableChaining, now) case None => [] case Some(t) => StartDrains(s, t, inline)
  }

  /** Whom the start of a fetch for t answers: nobody, unless it fails inline. */
  function StartDrains(s: Provider, t: string, inline: Inline): seq<Drain> {
    if t !in inline then []
    else if t in s.pools then PoolFailDrains(s, t, inline[t])
    else [Drain(t, Denied(inline[t]))]
  }

  lemma NothingDrains(s: Provider, r: Provider)
    requires r.answers == s.answers && forall k :: Waiting(r, k) == Waiting(s, k)
    ensures Drains(s, [], r)
  {
    assert s.answers + [] == s.answers;
  }

  /** Steps around the drains that neither answer nor move anybody. */
  lemma {:induction false} DrainsBetween(s: Provider, s': Provider, ds: seq<Drain>, r': Provider, r: Provider)
    requires Drains(s', ds, r') && s'.answers == s.answers && r.answers == r'.answers
    requires forall k :: Waiting(s', k) == Waiting(s, k) && Waiting(r, k) == Waiting(r', k)
    ensures Drains(s, ds, r)
  {
    SameAnswers(s, s', ds);
  }

  lemma {:induction false} InitDrains(s: Provider, k: string, auth: Auth, inline: Inline)
    requires Inv(s) && k in s.pools && !s.pools[k].inFlight
    ensures Drains(s, StartDrains(s, k, inline), InitPool(s, k, auth, inline))
  {
    var s' := InitPool(s, k, auth, map[]);
    if k in inline {
      LaunchKeepsInv(s, k, auth);
      FailPoolDrains(s', k, inline[k]);
      DrainsBetween(s, s', PoolFailDrains(s, k, inline[k]), FailPool(s', k, inline[k]), FailPool(s', k, inline[k]));
    } else {
      NothingDrains(s, s');
    }
  }

  /** The pool started may have been made just now. */
  lemma {:induction false} EnsuredDrains(s: Provider, t: string, k: string, role: string, inline: Inline)
    ensures StartDrains(EnsurePool(s, k, role), t, inline) == StartDrains(s, t, inline)
  {
    if t == k && t !in s.pools && t in inline {
      assert FailDrains([], inline[t]) + [Drain(t, Denied(inline[t]))] == [Drain(t, Denied(inline[t]))];
    }
  }

  lemma {:induction false} BaseDrains(s: Provider, key: string, inline: Inline)
    requires Inv(s) && key in s.pools && key != s.defaultRole && !s.pools[key].inFlight
    requires s.defaultRole in s.pools ==> !s.pools[s.defaultRole].inFlight
    ensures Drains(s, StartDrains(s, s.defaultRole, inline), WaitForBase(s, key, key, inline))
  {
    var b := s.defaultRole;
    var s' := EnsurePool(s, b, b);
    EnsureKeepsInv(s, b, b);
    InitDrains(s', b, WebIdentity(s.webToken), inline);
    EnsuredDrains(s, b, b, b, inline);
    StartBaseKeepsInv(s, key, inline);
    EnqueueIsQuiet(StartBase(s, inline), key);
    DrainsBetween(s, s', StartDrains(s, b, inline), StartBase(s, inline), WaitForBase(s, key, key, inline));
  }

  lemma EnqueueIsQuiet(s: Provider, key: string)
    requires key in s.pools && s.defaultRole in s.pools
    ensures var r := SetInFlight(AddChained(s, s.defaultRole, key), key);
            r.answers == s.answers && forall k :: Waiting(r, k) == Waiting(s, k)
  {
  }

  lemma {:induction false} StartFetchDrains(s: Provider, role: string, disableChaining: bool, now: int, inline: Inline)
    requires Inv(s) && Key(role, disableChaining) in s.pools && Misses(s, Key(role, disableChaining), now)
    ensures Drains(s, CallDrains(s, role, disableChaining, now, inline),
                   StartFetch(s, Key(role, disableChaining), role, disableChaining, now, inline))
  {
    var key := Key(role, disableChaining);
    if role == s.defaultRole || disableChaining {
      InitDrains(s, key, WebIdentity(s.webToken), inline);
    } else if Fresh(s, s.defaultRole, now) {
      InitDrains(s, key, AssumeFrom(s.cache[s.defaultRole]), inline);
    } else if s.defaultRole in s.pools && s.pools[s.defaultRole].inFlight {
      EnqueueIsQuiet(s, key);
      NothingDrains(s, WaitForBase(s, key, role, inline));
    } else {
      BaseDrains(s, key, inline);
    }
  }

  lemma {:induction false} CallDrainsEnsured(
    s: Provider, role: string, disableChaining: bool, now: int, inline: Inline)
    requires Misses(s, Key(role, disableChaining), now)
    ensures var s' := EnsurePool(s, Key(role, disableChaining), role);
            && Misses(s', Key(role, disableChaining), now)
            && CallDrains(s', role, disableChaining, now, inline) == CallDrains(s, role, disableChaining, now, inline)
  {
    var key := Key(role, disableChaining);
    var t := Started(s, role, disableChaining, now);
    assert Started(EnsurePool(s, key, role), role, disableChaining, now) == t;
    if t.Some? {
      EnsuredDrains(s, t.value, key, role, inline);
    }
  }

  lemma EnsureIsQuiet(s: Provider, k: string, role: string)
    ensures var r := EnsurePool(s, k, role); r.answers == s.answers && forall j :: Waiting(r, j) == Waiting(s, j)
  {
  }

  /** A call that is not answered at once, up to the moment when its caller is added. */
  lemma {:induction false} MissDrains(s: Provider, role: string, disableChaining: bool, now: int, inline: Inline)
    requires Inv(s) && Misses(s, Key(role, disableChaining), now)
    ensures var key := Key(role, disableChaining);
            Drains(s, CallDrains(s, role, disableChaining, now, inline),
                   StartFetch(EnsurePool(s, key, role), key, role, disableChaining, now, inline))
  {
    var key := Key(role, disableChaining);
    var s' := EnsurePool(s, key, role);
    EnsureKeepsInv(s, key, role);
    CallDrainsEnsured(s, role, disableChaining, now, inline);
    StartFetchDrains(s', role, disableChaining, now, inline);
    var r := StartFetch(s', key, role, disableChaining, now, inline);
    EnsureIsQuiet(s, key, role);
    DrainsBetween(s, s', CallDrains(s, role, disableChaining, now, inline), r, r);
  }

  // ---------- What the answers are ----------

  /** Each answer is to somebody in a drained list, with the outcome of that drain. */
  lemma {:induction false} AnswerIsFrom(s: Provider, ds: seq<Drain>, i: nat) returns (d: nat)
    requires i < |AnswersOf(s, ds)|
    ensures d < |ds| && AnswersOf(s, ds)[i].id in Waiting(s, ds[d].key)
    ensures AnswersOf(s, ds)[i].outcome == ds[d].outcome
    decreases |ds|
  {
    var n := |Replies(Waiting(s, ds[0].key), ds[0].outcome)|;
    if i < n {
      d := 0;
    } else {
      var e := AnswerIsFrom(s, ds[1..], i - n);
      d := e + 1;
    }
  }

  /** Everybody in a drained list is answered with its outcome. */
  lemma {:induction false} DrainAnswers(s: Provider, ds: seq<Drain>, d: nat, id: nat)
    requires d < |ds| && id in Waiting(s, ds[d].key)
    ensures Answer(id, ds[d].outcome) in AnswersOf(s, ds)
    decreases |ds|
  {
    if d == 0 {
      var w := Waiting(s, ds[0].key);
      var i :| 0 <= i < |w| && w[i] == id;
      assert Replies(w, ds[0].outcome)[|w| - 1 - i] == Answer(id, ds[0].outcome);
    } else {
      DrainAnswers(s, ds[1..], d - 1, id);
    }
  }
}

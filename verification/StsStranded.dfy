/**
 * Callers whose fetch failed before they were added. They wait without a fetch behind
 * them, but not necessarily for ever: this says which events put an end to it.
 */
module StsStranded {
  import opened Common
  import opened StsModel
  import opened StsFlight
  import opened StsDrains
  import opened StsLedger
  import opened StsRuns

  /**
   * The call starts the fetch that the callers under k depend on; or it is for k itself,
   * whose pool is idle, and queues it behind a fetch of the default role.
   */
  predicate Revives(s: Provider, e: Event, k: string) {
    && e.Call?
    && var role := RoleOf(s, e.roleArg);
       || Started(s, role, e.disableChaining, e.now) == Some(Source(s, k))
       || (&& Key(role, e.disableChaining) == k && k in s.pools && !s.pools[k].inFlight
           && Misses(s, k, e.now) && !FailsInline(s, role, e.disableChaining, e.now, e.inline))
  }

  /** A fetch is outstanding that will answer the caller, or start the fetch that does. */
  ghost predicate Backed(s: Provider, k: string, id: nat) {
    k in s.pools && id in s.pools[k].waiters && Outstanding(s, Source(s, k))
  }

  // ---------- Events that are not calls ----------

  lemma FailPassesBy(s: Provider, j: string, status: FailureStatus, k: string, id: nat)
    requires Inv(s) && Outstanding(s, j) && Stranded(s, k, id)
    ensures Stranded(FailPool(s, j, status), k, id)
  {
    FailForm(s, j, status);
    assert PoolOk(s, k) && PoolOk(s, j);
  }

  lemma SuccessPassesBy(s: Provider, j: string, creds: Creds, inline: Inline, k: string, id: nat)
    requires Inv(s) && Outstanding(s, j) && Stranded(s, k, id)
    ensures Stranded(EndFetch(Succeed(s, j, creds, inline), j), k, id)
  {
    SucceedForm(s, j, creds, inline);
    assert PoolOk(s, k) && PoolOk(s, j);
  }

  lemma CancelPassesBy(s: Provider, asks: seq<Ask>, n: nat, k: string, id: nat)
    requires (forall j :: InOrder(Waiting(s, j), asks, j)) && n < |asks| && Waits(s, asks, n)
    requires Stranded(s, k, id)
    ensures Stranded(Cancel(s, asks, n), k, id) <==> n != id
  {
    CancelDrops(s, asks, n, k);
    var r := Cancel(s, asks, n);
    assert Queue(r) == Queue(s);
    assert InOrder(Waiting(s, k), asks, k);
    assert id in Waiting(s, k);
  }

  // ---------- Calls ----------

  /** Whether the caller still waits, and whether its fetch is outstanding. */
  ghost predicate SameFor(s: Provider, r: Provider, k: string, id: nat) {
    (Stranded(r, k, id) <==> Stranded(s, k, id)) && (Backed(r, k, id) <==> Backed(s, k, id))
  }

  lemma AddPassesBy(s: Provider, j: string, n: nat, k: string, id: nat)
    requires j in s.pools && k in s.pools && id in s.pools[k].waiters
    ensures SameFor(s, AddWaiter(s, j, n), k, id)
  {
    assert Queue(AddWaiter(s, j, n)) == Queue(s);
  }

  lemma EnsurePassesBy(s: Provider, j: string, role: string, k: string, id: nat)
    requires k in s.pools && id in s.pools[k].waiters
    ensures SameFor(s, EnsurePool(s, j, role), k, id) && Queue(EnsurePool(s, j, role)) == Queue(s)
  {
  }

  /** Starting a fetch for an idle pool j: what becomes of a stranded caller under k. */
  lemma InitStranded(s: Provider, j: string, auth: Auth, inline: Inline, k: string, id: nat)
    requires Inv(s) && Stranded(s, k, id) && j in s.pools && !s.pools[j].inFlight
    ensures var r := InitPool(s, j, auth, inline);
            if j != Source(s, k) then Stranded(r, k, id) && Source(r, k) == Source(s, k)
            else if j in inline then !Stranded(r, k, id) && !r.pools[k].inFlight && Waiting(r, k) == []
            else Backed(r, k, id)
  {
    var r := InitPool(s, j, auth, inline);
    InitKeepsInv(s, j, auth, inline);
    assert PoolOk(s, k) && PoolOk(s, j);
    assert Queue(r) == if j in inline && j == s.defaultRole then [] else Queue(s);
  }

  /** Queueing the idle pool j behind the default role. */
  lemma EnqueueStranded(s: Provider, j: string, k: string, id: nat)
    requires Inv(s) && k in s.pools && id in s.pools[k].waiters
    requires j in s.pools && !s.pools[j].inFlight && j != s.defaultRole && s.defaultRole in s.pools
    ensures var r := SetInFlight(AddChained(s, s.defaultRole, j), j);
            if j == k then Stranded(r, k, id) <==> s.pools[s.defaultRole].fetch.None?
            else SameFor(s, r, k, id)
    ensures var r := SetInFlight(AddChained(s, s.defaultRole, j), j);
            j == k ==> (Backed(r, k, id) <==> s.pools[s.defaultRole].fetch.Some?)
  {
    var r := SetInFlight(AddChained(s, s.defaultRole, j), j);
    assert Queue(r) == Queue(s) + [j];
    assert PoolOk(s, j) && PoolOk(s, k);
  }

  /** What the outcome of the call should be for the caller. */
  ghost predicate Told(s: Provider, r: Provider, k: string, id: nat, revives: bool, refused: bool) {
    && (Stranded(r, k, id) <==> !revives)
    && (revives && !refused ==> Backed(r, k, id))
    && (refused ==> id !in Waiting(r, k))
  }

  lemma BaseStranded(s: Provider, j: string, inline: Inline, k: string, id: nat)
    requires Inv(s) && Stranded(s, k, id)
    requires j in s.pools && !s.pools[j].inFlight && j != s.defaultRole
    ensures var r := WaitForBase(s, j, j, inline);
            var starts := !(s.defaultRole in s.pools && s.pools[s.defaultRole].inFlight);
            var refused := starts && Source(s, k) == s.defaultRole && s.defaultRole in inline;
            var revives :=
              (starts && Source(s, k) == s.defaultRole) || (j == k && !(starts && s.defaultRole in inline));
            Told(s, r, k, id, revives, refused)
  {
    var b := s.defaultRole;
    var s' := EnsurePool(s, b, b);
    EnsureKeepsInv(s, b, b);
    EnsurePassesBy(s, b, b, k, id);
    StartBaseKeepsInv(s, j, inline);
    assert PoolOk(s, k) && PoolOk(s, j) && PoolOk(s', b);
    var m := StartBase(s, inline);
    if !s'.pools[b].inFlight {
      InitStranded(s', b, WebIdentity(s.webToken), inline, k, id);
      InitKeepsInv(s', b, WebIdentity(s.webToken), inline);
    }
    if id in Waiting(m, k) {
      EnqueueStranded(m, j, k, id);
    }
  }

  lemma StartStranded(s: Provider, role: string, disable: bool, now: int, inline: Inline, k: string, id: nat)
    requires Inv(s) && Stranded(s, k, id) && Key(role, disable) in s.pools && Misses(s, Key(role, disable), now)
    ensures var e := Call(Some(role), disable, now, inline);
            Told(s, StartFetch(s, Key(role, disable), role, disable, now, inline), k, id, Revives(s, e, k),
                 Started(s, role, disable, now) == Some(Source(s, k)) && Source(s, k) in inline)
  {
    var key := Key(role, disable);
    assert PoolOk(s, k);
    if role == s.defaultRole || disable {
      InitStranded(s, key, WebIdentity(s.webToken), inline, k, id);
    } else if Fresh(s, s.defaultRole, now) {
      InitStranded(s, key, AssumeFrom(s.cache[s.defaultRole]), inline, k, id);
    } else {
      BaseStranded(s, key, inline, k, id);
    }
  }

  lemma FindStranded(s: Provider, e: Event, n: nat, k: string, id: nat)
    requires Inv(s) && Stranded(s, k, id) && e.Call? && n != id
    ensures Told(s, Find(s, e.roleArg, e.disableChaining, n, e.now, e.inline).0, k, id, Revives(s, e, k),
                 Started(s, RoleOf(s, e.roleArg), e.disableChaining, e.now) == Some(Source(s, k))
                 && Source(s, k) in e.inline)
  {
    var role := RoleOf(s, e.roleArg);
    var key := Key(role, e.disableChaining);
    assert PoolOk(s, k);
    if Fresh(s, key, e.now) {
      HitKeepsInv(s, Answer(n, Granted(s.cache[key])));
    } else if !Misses(s, key, e.now) {
      AddPassesBy(s, key, n, k, id);
    } else {
      MissStranded(s, role, e, n, k, id);
    }
  }

  lemma MissStranded(s: Provider, role: string, e: Event, n: nat, k: string, id: nat)
    requires Inv(s) && Stranded(s, k, id) && e.Call? && n != id && role == RoleOf(s, e.roleArg)
    requires Misses(s, Key(role, e.disableChaining), e.now)
    ensures Told(s, FindMiss(s, role, e.disableChaining, n, e.now, e.inline), k, id, Revives(s, e, k),
                 Started(s, role, e.disableChaining, e.now) == Some(Source(s, k)) && Source(s, k) in e.inline)
  {
    var key := Key(role, e.disableChaining);
    var s' := EnsurePool(s, key, role);
    EnsureKeepsInv(s, key, role);
    EnsurePassesBy(s, key, role, k, id);
    assert Started(s', role, e.disableChaining, e.now) == Started(s, role, e.disableChaining, e.now);
    assert Revives(s', Call(Some(role), e.disableChaining, e.now, e.inline), k) == Revives(s, e, k);
    StartStranded(s', role, e.disableChaining, e.now, e.inline, k, id);
    var m := StartFetch(s', key, role, e.disableChaining, e.now, e.inline);
    if id in Waiting(m, k) {
      AddPassesBy(m, key, n, k, id);
    }
  }

  // ---------- What ends the wait ----------

  /** The caller under k is one that asked for k. */
  lemma StrandedAsked(w: World, k: string, id: nat)
    requires Ledger(w.p, w.asks, w.cancelled) && Stranded(w.p, k, id)
    ensures id < |w.asks| && KeyOf(w.asks[id]) == k
  {
    assert InOrder(Waiting(w.p, k), w.asks, k);
  }

  /** A stranded caller stays so exactly until a call revives its pool or its context is cancelled. */
  lemma StrandedEndsExactly(w: World, e: Event, k: string, id: nat)
    requires Inv(w.p) && Ledger(w.p, w.asks, w.cancelled) && Enabled(w, e) && Stranded(w.p, k, id)
    ensures Stranded(Step(w, e).p, k, id) <==> !Revives(w.p, e, k) && e != CancelCall(id)
  {
    StrandedAsked(w, k, id);
    match e
    case Call(_, _, _, _) => FindStranded(w.p, e, |w.asks|, k, id);
    case Response(j, body, now, inline) =>
      match ParseBody(body, now) {
        case None => FailPassesBy(w.p, j, InvalidSts, k, id);
        case Some(c) => SuccessPassesBy(w.p, j, c, inline, k, id);
      }
    case Failure(j, status) => FailPassesBy(w.p, j, status, k, id);
    case CancelCall(n) => CancelPassesBy(w.p, w.asks, n, k, id);
    case NewToken(_) =>
  }

  /** The failing fetch drains the list under k: that of its own pool or of a chained one. */
  lemma RefusedIsDrained(s: Provider, t: string, status: FailureStatus, k: string) returns (d: nat)
    requires t in s.pools && (k == t || k in s.pools[t].chained)
    ensures d < |PoolFailDrains(s, t, status)| && PoolFailDrains(s, t, status)[d] == Drain(k, Denied(status))
  {
    var roles := s.pools[t].chained;
    if k == t {
      d := |roles|;
    } else {
      var i :| 0 <= i < |roles| && roles[i] == k;
      d := |roles| - 1 - i;
      assert FailDrains(roles, status)[d] == Drain(k, Denied(status));
    }
  }

  /**
   * The reviving call: if the fetch that it starts fails inline too, the caller is refused
   * then and there; otherwise a fetch is outstanding for it from then on.
   */
  lemma RevivedExactly(w: World, e: Event, k: string, id: nat)
    requires Inv(w.p) && Ledger(w.p, w.asks, w.cancelled) && Stranded(w.p, k, id) && Revives(w.p, e, k)
    ensures var r := Step(w, e).p;
            if Started(w.p, RoleOf(w.p, e.roleArg), e.disableChaining, e.now) == Some(Source(w.p, k))
               && Source(w.p, k) in e.inline
            then Answer(id, Denied(e.inline[Source(w.p, k)])) in r.answers
            else Backed(r, k, id)
  {
    StrandedAsked(w, k, id);
    var role := RoleOf(w.p, e.roleArg);
    var t := Source(w.p, k);
    FindStranded(w.p, e, |w.asks|, k, id);
    if Started(w.p, role, e.disableChaining, e.now) == Some(t) && t in e.inline {
      FindKeepsLedger(w.p, e.roleArg, e.disableChaining, e.now, e.inline, w.asks, w.cancelled);
      var d := RefusedIsDrained(w.p, t, e.inline[t], k);
      DrainAnswers(w.p, PoolFailDrains(w.p, t, e.inline[t]), d, id);
    }
  }

  /** The fetch that backs the caller completes: it is answered, or its own fetch starts. */
  lemma BackedCompletes(w: World, e: Event, k: string, id: nat)
    requires Inv(w.p) && Ledger(w.p, w.asks, w.cancelled) && Enabled(w, e) && Backed(w.p, k, id)
    requires (e.Response? && e.key == Source(w.p, k)) || (e.Failure? && e.failed == Source(w.p, k))
    ensures var r := Step(w, e).p;
            match e
            case Failure(_, status) => Answer(id, Denied(status)) in r.answers
            case Response(_, body, now, inline) =>
              match ParseBody(body, now) {
                case None => Answer(id, Denied(InvalidSts)) in r.answers
                case Some(c) =>
                  if Source(w.p, k) == k then Answer(id, Granted(c)) in r.answers
                  else if k in inline then Answer(id, Denied(inline[k])) in r.answers
                  else Backed(r, k, id) && Source(r, k) == k
              }
            case _ => true
  {
    var t := Source(w.p, k);
    match e {
      case Failure(_, status) =>
        FailKeepsLedger(w.p, t, status, w.asks, w.cancelled);
        var d := RefusedIsDrained(w.p, t, status, k);
        DrainAnswers(w.p, PoolFailDrains(w.p, t, status), d, id);
      case Response(_, body, now, inline) =>
        FetchOkKeepsLedger(w.p, t, body, now, inline, w.asks, w.cancelled);
        match ParseBody(body, now) {
          case None =>
            var d := RefusedIsDrained(w.p, t, InvalidSts, k);
            DrainAnswers(w.p, PoolFailDrains(w.p, t, InvalidSts), d, id);
          case Some(c) =>
            if t != k {
              QueuedCompletes(w.p, k, id, body, now, inline);
            }
        }
      case _ =>
    }
  }

  lemma QueuedCompletes(s: Provider, k: string, id: nat, body: Body, now: int, inline: Inline)
    requires Inv(s) && Backed(s, k, id) && k in Queue(s) && ParseBody(body, now).Some?
    ensures var r := FetchOk(s, s.defaultRole, body, now, inline);
            if k in inline then Answer(id, Denied(inline[k])) in r.answers
            else Backed(r, k, id) && Source(r, k) == k
  {
    var t := s.defaultRole;
    var ds := OkDrains(s, t, body, now, inline);
    var kicks := KickDrains(s.pools[t].chained, inline);
    SucceedForm(s, t, ParseBody(body, now).value, inline);
    FetchOkDrains(s, t, body, now, inline);
    if k in inline {
      var d := KickedIsDrained(s.pools[t].chained, inline, k);
      assert ds[d] == kicks[d];
      DrainAnswers(s, ds, d, id);
    }
  }

  lemma {:induction false} KickedIsDrained(roles: seq<string>, inline: Inline, k: string) returns (d: nat)
    requires k in roles && k in inline
    ensures d < |KickDrains(roles, inline)| && KickDrains(roles, inline)[d] == Drain(k, Denied(inline[k]))
    decreases |roles|
  {
    var c, rest := roles[|roles| - 1], roles[..|roles| - 1];
    assert roles == rest + [c];
    if k == c {
      d := 0;
    } else {
      var m := KickedIsDrained(rest, inline, k);
      d := if c in inline then m + 1 else m;
    }
  }

  // ---------- Whole runs ----------

  /** No event of the run revives the pool or cancels the call. */
  ghost predicate NeverRevived(w: World, events: seq<Event>, k: string, id: nat)
    requires Legal(w, events)
    decreases |events|
  {
    events != [] ==>
      && !Revives(w.p, events[0], k) && events[0] != CancelCall(id)
      && NeverRevived(Step(w, events[0]), events[1..], k, id)
  }

  ghost predicate AlwaysStranded(w: World, events: seq<Event>, k: string, id: nat)
    requires Legal(w, events)
    decreases |events|
  {
    Stranded(w.p, k, id) && (events != [] ==> AlwaysStranded(Step(w, events[0]), events[1..], k, id))
  }

  /** A stranded caller stays so throughout a run exactly if nothing in it revives or cancels it. */
  lemma {:induction false} StrandedThroughoutExactly(w: World, events: seq<Event>, k: string, id: nat)
    requires Inv(w.p) && Ledger(w.p, w.asks, w.cancelled) && Legal(w, events) && Stranded(w.p, k, id)
    ensures AlwaysStranded(w, events, k, id) <==> NeverRevived(w, events, k, id)
    decreases |events|
  {
    if events != [] {
      StrandedEndsExactly(w, events[0], k, id);
      StepKeepsInv(w, events[0]);
      if Stranded(Step(w, events[0]).p, k, id) {
        StrandedThroughoutExactly(Step(w, events[0]), events[1..], k, id);
      }
    }
  }

  /**
   * After the fetch of a role's own pool has failed inline, and the role needs no other,
   * the next call for the same key that misses revives the caller.
   */
  lemma NextMissRevives(s: Provider, e: Event, k: string, id: nat)
    requires Inv(s) && Stranded(s, k, id) && !s.pools[k].inFlight && e.Call?
    requires Key(RoleOf(s, e.roleArg), e.disableChaining) == k && Misses(s, k, e.now)
    requires RoleOf(s, e.roleArg) == s.defaultRole || e.disableChaining
    ensures Revives(s, e, k)
  {
    assert PoolOk(s, k);
  }

  /** The events are calls for one key. */
  predicate CallsFor(defaultRole: string, events: seq<Event>, k: string) {
    forall i :: 0 <= i < |events| ==>
      && events[i].Call?
      && Key(match events[i].roleArg case Some(r) => r case None => defaultRole, events[i].disableChaining) == k
  }

  /**
   * After the default role's fetch has failed inline for a role that queued behind it,
   * calls for that role alone start nothing: its callers wait for a call that starts the
   * default role's fetch.
   */
  lemma {:induction false} QueuedRoleAloneWaits(w: World, events: seq<Event>, k: string, id: nat)
    requires Inv(w.p) && Ledger(w.p, w.asks, w.cancelled) && Legal(w, events)
    requires Stranded(w.p, k, id) && k in Queue(w.p) && CallsFor(w.p.defaultRole, events, k)
    ensures AlwaysStranded(w, events, k, id)
    ensures forall j :: Outstanding(Run(w, events).p, j) <==> Outstanding(w.p, j)
    decreases |events|
  {
    if events != [] {
      var e := events[0];
      StrandedEndsExactly(w, e, k, id);
      StepKeepsInv(w, e);
      assert PoolOk(w.p, k);
      FindFrame(w.p, e.roleArg, e.disableChaining, |w.asks|, e.now, e.inline);
      var r := Step(w, e).p;
      assert Queue(r) == Queue(w.p) && forall j :: Outstanding(r, j) <==> Outstanding(w.p, j);
      QueuedRoleAloneWaits(Step(w, e), events[1..], k, id);
    }
  }
}

/**
 * With a clock that does not go back, the callers of one key are answered in the order
 * in which they called, over whole runs.
 */
module StsOrder {
  import opened Common
  import opened StsModel
  import opened StsFlight
  import opened StsDrains
  import opened StsLedger
  import opened StsRuns

  /** Calls under one key are answered in order, and before those that still wait. */
  ghost predicate InTurn(s: Provider, asks: seq<Ask>)
    requires AnsweredOnce(s.answers, asks)
  {
    && (forall i, j :: 0 <= i < j < |s.answers| && KeyOf(asks[s.answers[i].id]) == KeyOf(asks[s.answers[j].id]) ==>
          s.answers[i].id < s.answers[j].id)
    && (forall i, k, n :: 0 <= i < |s.answers| && KeyOf(asks[s.answers[i].id]) == k && n in Waiting(s, k) ==>
          s.answers[i].id < n)
  }

  /** Nobody waits under a key that is fresh at time t. */
  ghost predicate NoneWaitFresh(s: Provider, t: int) {
    forall k :: Fresh(s, k, t) ==> Waiting(s, k) == []
  }

  // ---------- Drains ----------

  lemma {:induction false} DrainOneInTurn(s: Provider, d: Drain, r: Provider, asks: seq<Ask>, cancelled: set<nat>)
    requires Ledger(s, asks, cancelled) && InTurn(s, asks) && AnsweredOnce(r.answers, asks)
    requires r.answers == s.answers + Replies(Waiting(s, d.key), d.outcome)
    requires forall k :: Waiting(r, k) == if k == d.key then [] else Waiting(s, k)
    ensures InTurn(r, asks)
  {
    var w := Waiting(s, d.key);
    var news := Replies(w, d.outcome);
    assert InOrder(w, asks, d.key);
    forall i | |s.answers| <= i < |r.answers|
      ensures r.answers[i].id in w && KeyOf(asks[r.answers[i].id]) == d.key
    {
      assert r.answers[i] == news[i - |s.answers|];
    }
  }

  lemma {:induction false} DrainsInTurn(s: Provider, ds: seq<Drain>, r: Provider, asks: seq<Ask>, cancelled: set<nat>)
    requires Ledger(s, asks, cancelled) && InTurn(s, asks) && Drains(s, ds, r) && AnsweredOnce(r.answers, asks)
    ensures InTurn(r, asks)
    decreases |ds|
  {
    if ds == [] {
      assert r.answers == s.answers;
    } else {
      var m := DrainOneKeepsLedger(s, ds[0], asks, cancelled);
      DrainOneInTurn(s, ds[0], m, asks, cancelled);
      RestDrains(s, ds, m, r);
      DrainsInTurn(m, ds[1..], r, asks, cancelled);
    }
  }

  lemma FailInTurn(s: Provider, k: string, status: FailureStatus, asks: seq<Ask>, cancelled: set<nat>)
    requires Inv(s) && Ledger(s, asks, cancelled) && InTurn(s, asks) && Outstanding(s, k)
    ensures AnsweredOnce(FailPool(s, k, status).answers, asks) && InTurn(FailPool(s, k, status), asks)
  {
    FailKeepsLedger(s, k, status, asks, cancelled);
    FailPoolDrains(s, k, status);
    DrainsInTurn(s, PoolFailDrains(s, k, status), FailPool(s, k, status), asks, cancelled);
  }

  lemma FetchOkInTurn(s: Provider, k: string, body: Body, now: int, inline: Inline, asks: seq<Ask>, cancelled: set<nat>)
    requires Inv(s) && Ledger(s, asks, cancelled) && InTurn(s, asks) && Outstanding(s, k)
    ensures AnsweredOnce(FetchOk(s, k, body, now, inline).answers, asks)
    ensures InTurn(FetchOk(s, k, body, now, inline), asks)
  {
    FetchOkKeepsLedger(s, k, body, now, inline, asks, cancelled);
    FetchOkDrains(s, k, body, now, inline);
    DrainsInTurn(s, OkDrains(s, k, body, now, inline), FetchOk(s, k, body, now, inline), asks, cancelled);
  }

  // ---------- Calls ----------

  /** A new call is the last of its key, whether it waits ... */
  lemma {:induction false} JoinInTurn(s: Provider, a: Ask, asks: seq<Ask>)
    requires AnsweredOnce(s.answers, asks) && InTurn(s, asks) && KeyOf(a) in s.pools
    ensures AnsweredOnce(s.answers, asks + [a]) && InTurn(AddWaiter(s, KeyOf(a), |asks|), asks + [a])
  {
    forall k, n | n in Waiting(AddWaiter(s, KeyOf(a), |asks|), k)
      ensures n in Waiting(s, k) || n == |asks|
    {
    }
  }

  /** ... or hits, as long as nobody waits under its key. */
  lemma {:induction false} HitInTurn(s: Provider, a: Ask, o: Outcome, asks: seq<Ask>)
    requires AnsweredOnce(s.answers, asks) && InTurn(s, asks) && Waiting(s, KeyOf(a)) == []
    ensures var r := s.(answers := s.answers + [Answer(|asks|, o)]);
            AnsweredOnce(r.answers, asks + [a]) && InTurn(r, asks + [a])
  {
    var r := s.(answers := s.answers + [Answer(|asks|, o)]);
    forall k
      ensures Waiting(r, k) == Waiting(s, k)
    {
    }
  }

  lemma CallInTurn(w: World, e: Event)
    requires Inv(w.p) && Ledger(w.p, w.asks, w.cancelled) && InTurn(w.p, w.asks) && e.Call?
    requires NoneWaitFresh(w.p, e.now)
    ensures AnsweredOnce(Step(w, e).p.answers, Step(w, e).asks) && InTurn(Step(w, e).p, Step(w, e).asks)
  {
    var a := Ask(RoleOf(w.p, e.roleArg), e.disableChaining);
    var k := KeyOf(a);
    if Fresh(w.p, k, e.now) {
      HitInTurn(w.p, a, Granted(w.p.cache[k]), w.asks);
    } else if !Misses(w.p, k, e.now) {
      JoinInTurn(w.p, a, w.asks);
    } else {
      var ds := CallDrains(w.p, a.role, a.disableChaining, e.now, e.inline);
      var m := StartFetch(EnsurePool(w.p, k, a.role), k, a.role, a.disableChaining, e.now, e.inline);
      MissDrains(w.p, a.role, a.disableChaining, e.now, e.inline);
      DrainsKeepLedger(w.p, ds, m, w.asks, w.cancelled);
      DrainsInTurn(w.p, ds, m, w.asks, w.cancelled);
      JoinInTurn(m, a, w.asks);
    }
  }

  lemma CancelInTurn(w: World, n: nat)
    requires Ledger(w.p, w.asks, w.cancelled) && InTurn(w.p, w.asks) && Enabled(w, CancelCall(n))
    ensures InTurn(Cancel(w.p, w.asks, n), w.asks)
  {
    var r := Cancel(w.p, w.asks, n);
    forall k, m | m in Waiting(r, k)
      ensures m in Waiting(w.p, k)
    {
      assert InOrder(Waiting(w.p, k), w.asks, k);
      CancelDrops(w.p, w.asks, n, k);
    }
  }

  lemma StepInTurn(w: World, e: Event)
    requires Inv(w.p) && Ledger(w.p, w.asks, w.cancelled) && InTurn(w.p, w.asks) && Enabled(w, e)
    requires e.Call? ==> NoneWaitFresh(w.p, e.now)
    ensures AnsweredOnce(Step(w, e).p.answers, Step(w, e).asks) && InTurn(Step(w, e).p, Step(w, e).asks)
  {
    match e
    case Call(_, _, _, _) => CallInTurn(w, e);
    case Response(k, body, now, inline) => FetchOkInTurn(w.p, k, body, now, inline, w.asks, w.cancelled);
    case Failure(k, status) => FailInTurn(w.p, k, status, w.asks, w.cancelled);
    case CancelCall(n) => CancelInTurn(w, n);
    case NewToken(_) =>
      assert forall k :: Waiting(Step(w, e).p, k) == Waiting(w.p, k);
  }

  // ---------- The clock ----------

  /** Lists that only shrink, or grow under a key that is not fresh; caches that change only where nobody waits. */
  lemma StepNoneWaitFresh(w: World, e: Event, t: int)
    requires Inv(w.p) && Ledger(w.p, w.asks, w.cancelled) && NoneWaitFresh(w.p, t) && Enabled(w, e)
    requires e.Call? ==> t <= e.now
    ensures NoneWaitFresh(Step(w, e).p, if e.Call? then e.now else t)
  {
    match e
    case Call(_, _, _, _) => CallNoneWaitFresh(w, e, t);
    case Response(k, body, now, inline) =>
      FetchOkDrains(w.p, k, body, now, inline);
      match ParseBody(body, now) {
        case None => FailForm(w.p, k, InvalidSts);
        case Some(c) =>
          SucceedForm(w.p, k, c, inline);
          FetchOkKeepsLedger(w.p, k, body, now, inline, w.asks, w.cancelled);
      }
    case Failure(k, status) =>
      FailPoolDrains(w.p, k, status);
      FailForm(w.p, k, status);
    case CancelCall(n) => CancelNoneWaitFresh(w, n, t);
    case NewToken(_) =>
      forall k | Fresh(Step(w, e).p, k, t)
        ensures Waiting(Step(w, e).p, k) == []
      {
        assert Fresh(w.p, k, t);
      }
  }

  lemma CancelNoneWaitFresh(w: World, n: nat, t: int)
    requires Ledger(w.p, w.asks, w.cancelled) && NoneWaitFresh(w.p, t) && Enabled(w, CancelCall(n))
    ensures NoneWaitFresh(Cancel(w.p, w.asks, n), t)
  {
    forall k | Fresh(Cancel(w.p, w.asks, n), k, t)
      ensures Waiting(Cancel(w.p, w.asks, n), k) == []
    {
      assert Fresh(w.p, k, t);
    }
  }

  lemma CallNoneWaitFresh(w: World, e: Event, t: int)
    requires Inv(w.p) && NoneWaitFresh(w.p, t) && e.Call? && t <= e.now
    ensures NoneWaitFresh(Step(w, e).p, e.now)
  {
    var role := RoleOf(w.p, e.roleArg);
    var key := Key(role, e.disableChaining);
    FindFrame(w.p, e.roleArg, e.disableChaining, |w.asks|, e.now, e.inline);
    if Misses(w.p, key, e.now) {
      MissDrains(w.p, role, e.disableChaining, e.now, e.inline);
    }
    forall k | Fresh(Step(w, e).p, k, e.now)
      ensures Waiting(Step(w, e).p, k) == []
    {
      assert Fresh(w.p, k, t) && Fresh(w.p, k, e.now);
      assert Waiting(w.p, k) == [];
    }
  }

  /** The calls' times do not go back, and start at t or later. */
  predicate Timely(events: seq<Event>, t: int)
    decreases |events|
  {
    events != [] ==>
      (if events[0].Call? then t <= events[0].now && Timely(events[1..], events[0].now) else Timely(events[1..], t))
  }

  lemma FreshEarlier(s: Provider, t: int, now: int)
    requires NoneWaitFresh(s, t) && t <= now
    ensures NoneWaitFresh(s, now)
  {
    forall k | Fresh(s, k, now)
      ensures Waiting(s, k) == []
    {
      assert Fresh(s, k, t);
    }
  }

  lemma {:induction false} RunInTurn(w: World, events: seq<Event>, t: int)
    requires Inv(w.p) && Ledger(w.p, w.asks, w.cancelled) && InTurn(w.p, w.asks) && NoneWaitFresh(w.p, t)
    requires Legal(w, events) && Timely(events, t)
    ensures var r := Run(w, events); AnsweredOnce(r.p.answers, r.asks) && InTurn(r.p, r.asks)
    decreases |events|
  {
    if events != [] {
      var e := events[0];
      if e.Call? {
        FreshEarlier(w.p, t, e.now);
      }
      StepKeepsInv(w, e);
      StepInTurn(w, e);
      StepNoneWaitFresh(w, e, t);
      RunInTurn(Step(w, e), events[1..], if e.Call? then e.now else t);
    }
  }

  /**
   * In every run whose calls' times do not go back, two callers of the same key are
   * answered, granted or refused, in the order in which they called; and nobody overtakes
   * a caller that still waits.
   */
  lemma AnsweredInTurn(defaultRole: string, token: string, events: seq<Event>, t: int)
    requires Legal(Initial(defaultRole, token), events) && Timely(events, t)
    ensures var r := Run(Initial(defaultRole, token), events);
            AnsweredOnce(r.p.answers, r.asks) && InTurn(r.p, r.asks)
  {
    RunInTurn(Initial(defaultRole, token), events, t);
  }
}

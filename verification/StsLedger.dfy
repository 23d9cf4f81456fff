/**
 * Who has been answered: every call to find is answered once, or cancelled once,
 * or still waits in one list.  Stated on the lists and the callbacks alone.
 */
module StsLedger {
  import opened Common
  import opened StsModel
  import opened StsFlight
  import opened StsDrains

  datatype Ask = Ask(role: string, disableChaining: bool)

  function KeyOf(a: Ask): string {
    Key(a.role, a.disableChaining)
  }

  function Ids(answers: seq<Answer>): set<nat> {
    set a | a in answers :: a.id
  }

  /** Call n waits under the key it asked for. */
  predicate Waits(s: Provider, asks: seq<Ask>, n: nat)
    requires n < |asks|
  {
    n in Waiting(s, KeyOf(asks[n]))
  }

  /** Under key k wait calls that asked for k, in the order they called (oldest last). */
  ghost predicate InOrder(waiting: seq<nat>, asks: seq<Ask>, k: string) {
    && (forall i :: 0 <= i < |waiting| ==> waiting[i] < |asks| && KeyOf(asks[waiting[i]]) == k)
    && (forall i, j :: 0 <= i < j < |waiting| ==> waiting[i] > waiting[j])
  }

  ghost predicate AnsweredOnce(answers: seq<Answer>, asks: seq<Ask>) {
    && (forall i :: 0 <= i < |answers| ==> answers[i].id < |asks|)
    && (forall i, j :: 0 <= i < j < |answers| ==> answers[i].id != answers[j].id)
  }

  /** Exactly one of: answered, cancelled, waiting. */
  ghost predicate OneFate(s: Provider, asks: seq<Ask>, cancelled: set<nat>, n: nat)
    requires n < |asks|
  {
    && (n in Ids(s.answers) || n in cancelled || Waits(s, asks, n))
    && !(n in Ids(s.answers) && n in cancelled)
    && !(n in Ids(s.answers) && Waits(s, asks, n))
    && !(n in cancelled && Waits(s, asks, n))
  }

  ghost predicate Ledger(s: Provider, asks: seq<Ask>, cancelled: set<nat>) {
    && AnsweredOnce(s.answers, asks)
    && (forall n :: n in cancelled ==> n < |asks|)
    && (forall k :: InOrder(Waiting(s, k), asks, k))
    && (forall n: nat :: n < |asks| ==> OneFate(s, asks, cancelled, n))
  }

  // ---------- Steps that answer nobody ----------

  ghost predicate Quiet(s: Provider, r: Provider) {
    r.answers == s.answers && forall k :: Waiting(r, k) == Waiting(s, k)
  }

  lemma QuietKeepsLedger(s: Provider, r: Provider, asks: seq<Ask>, cancelled: set<nat>)
    requires Ledger(s, asks, cancelled) && Quiet(s, r)
    ensures Ledger(r, asks, cancelled)
  {
    forall n: nat | n < |asks|
      ensures OneFate(r, asks, cancelled, n)
    {
      assert OneFate(s, asks, cancelled, n);
      assert Waiting(r, KeyOf(asks[n])) == Waiting(s, KeyOf(asks[n]));
    }
  }

  // ---------- Draining a list ----------

  lemma RepliesIds(waiters: seq<nat>, o: Outcome)
    ensures Ids(Replies(waiters, o)) == set n | n in waiters
  {
    var r := Replies(waiters, o);
    forall n | n in waiters
      ensures n in Ids(r)
    {
      var i :| 0 <= i < |waiters| && waiters[i] == n;
      assert r[|waiters| - 1 - i] == Answer(n, o);
    }
  }

  lemma IdsOfSum(a: seq<Answer>, b: seq<Answer>)
    ensures Ids(a + b) == Ids(a) + Ids(b)
  {
    forall x | x in a + b
      ensures x in a || x in b
    {
    }
    forall x | x in a || x in b
      ensures x in a + b
    {
      if x in a {
        var i :| 0 <= i < |a| && a[i] == x;
        assert (a + b)[i] == x;
      } else {
        var i :| 0 <= i < |b| && b[i] == x;
        assert (a + b)[|a| + i] == x;
      }
    }
  }

  /** Those who wait have not been answered. */
  lemma {:induction false} WaitersAreNew(s: Provider, k: string, asks: seq<Ask>, cancelled: set<nat>)
    requires Ledger(s, asks, cancelled)
    ensures forall n :: n in Waiting(s, k) ==>
              n < |asks| && KeyOf(asks[n]) == k && n !in Ids(s.answers) && n !in cancelled
  {
    assert InOrder(Waiting(s, k), asks, k);
    forall n | n in Waiting(s, k)
      ensures n < |asks| && KeyOf(asks[n]) == k && n !in Ids(s.answers) && n !in cancelled
    {
      assert OneFate(s, asks, cancelled, n);
    }
  }

  lemma {:induction false} SettleAnswersOnce(s: Provider, k: string, o: Outcome, asks: seq<Ask>, cancelled: set<nat>)
    requires Ledger(s, asks, cancelled) && k in s.pools
    ensures AnsweredOnce(Settle(s, k, o).answers, asks)
  {
    var r := Settle(s, k, o);
    var news := Replies(s.pools[k].waiters, o);
    WaitersAreNew(s, k, asks, cancelled);
    assert InOrder(Waiting(s, k), asks, k);
    forall i | |s.answers| <= i < |r.answers|
      ensures r.answers[i] == news[i - |s.answers|] && r.answers[i].id in Waiting(s, k)
    {
    }
    forall i, j | 0 <= i < j < |r.answers|
      ensures r.answers[i].id != r.answers[j].id
    {
      if i < |s.answers| <= j {
        assert s.answers[i] in s.answers;
      }
    }
  }

  lemma {:induction false} SettleKeepsLedger(s: Provider, k: string, o: Outcome, asks: seq<Ask>, cancelled: set<nat>)
    requires Ledger(s, asks, cancelled) && k in s.pools
    ensures Ledger(Settle(s, k, o), asks, cancelled)
  {
    var r := Settle(s, k, o);
    var w := Waiting(s, k);
    SettleAnswersOnce(s, k, o, asks, cancelled);
    WaitersAreNew(s, k, asks, cancelled);
    RepliesIds(w, o);
    IdsOfSum(s.answers, Replies(w, o));
    forall j
      ensures Waiting(r, j) == if j == k then [] else Waiting(s, j)
    {
    }
    forall n: nat | n < |asks|
      ensures OneFate(r, asks, cancelled, n)
    {
      assert OneFate(s, asks, cancelled, n);
    }
  }

  /** A group of callers is answered in the order it called. */
  lemma AnsweredInCallOrder(s: Provider, k: string, o: Outcome, asks: seq<Ask>, cancelled: set<nat>, i: nat, j: nat)
    requires Ledger(s, asks, cancelled) && k in s.pools
    requires |s.answers| <= i < j < |Settle(s, k, o).answers|
    ensures Settle(s, k, o).answers[i].id < Settle(s, k, o).answers[j].id
  {
    var w := s.pools[k].waiters;
    assert InOrder(Waiting(s, k), asks, k);
    var news := Replies(w, o);
    assert news[i - |s.answers|] == Answer(w[|w| - 1 - (i - |s.answers|)], o);
    assert news[j - |s.answers|] == Answer(w[|w| - 1 - (j - |s.answers|)], o);
  }

  /** Emptying one list, whatever becomes of the pools' other fields. */
  lemma DrainOneKeepsLedger(s: Provider, d: Drain, asks: seq<Ask>, cancelled: set<nat>) returns (r: Provider)
    requires Ledger(s, asks, cancelled)
    ensures Ledger(r, asks, cancelled) && r.answers == s.answers + Replies(Waiting(s, d.key), d.outcome)
    ensures forall k :: Waiting(r, k) == if k == d.key then [] else Waiting(s, k)
  {
    if d.key in s.pools {
      SettleKeepsLedger(s, d.key, d.outcome, asks, cancelled);
      r := Settle(s, d.key, d.outcome);
    } else {
      r := s;
      assert s.answers + [] == s.answers;
    }
  }

  /** Whatever an operation drains, everybody still has one fate. */
  lemma {:induction false} DrainsKeepLedger(
    s: Provider, ds: seq<Drain>, r: Provider, asks: seq<Ask>, cancelled: set<nat>)
    requires Ledger(s, asks, cancelled) && Drains(s, ds, r)
    ensures Ledger(r, asks, cancelled)
    decreases |ds|
  {
    if ds == [] {
      QuietKeepsLedger(s, r, asks, cancelled);
    } else {
      var m := DrainOneKeepsLedger(s, ds[0], asks, cancelled);
      RestDrains(s, ds, m, r);
      DrainsKeepLedger(m, ds[1..], r, asks, cancelled);
    }
  }

  lemma RestDrains(s: Provider, ds: seq<Drain>, m: Provider, r: Provider)
    requires ds != [] && Drains(s, ds, r)
    requires m.answers == s.answers + Replies(Waiting(s, ds[0].key), ds[0].outcome)
    requires forall k :: Waiting(m, k) == if k == ds[0].key then [] else Waiting(s, k)
    ensures Drains(m, ds[1..], r)
  {
    var rest := ds[1..];
    assert ds == [ds[0]] + rest;
    SameAnswers(s, m, rest);
    Associates(s.answers, Replies(Waiting(s, ds[0].key), ds[0].outcome), AnswersOf(s, rest));
    forall k
      ensures Waiting(r, k) == if Drained(rest, k) then [] else Waiting(m, k)
    {
      DrainedCons(ds[0], rest, k);
    }
  }

  lemma FailKeepsLedger(s: Provider, k: string, status: FailureStatus, asks: seq<Ask>, cancelled: set<nat>)
    requires Inv(s) && Ledger(s, asks, cancelled) && Outstanding(s, k)
    ensures Ledger(FailPool(s, k, status), asks, cancelled)
    ensures FailPool(s, k, status).answers == s.answers + AnswersOf(s, PoolFailDrains(s, k, status))
  {
    FailPoolDrains(s, k, status);
    DrainsKeepLedger(s, PoolFailDrains(s, k, status), FailPool(s, k, status), asks, cancelled);
  }

  /** The callers that wait for the credentials get them; or else the refusal. */
  function OkOutcome(body: Body, now: int): Outcome {
    match ParseBody(body, now) case Some(c) => Granted(c) case None => Denied(InvalidSts)
  }

  /** A completed fetch answers exactly the callers of its drains, among them all of its own pool. */
  lemma FetchOkKeepsLedger(
    s: Provider, k: string, body: Body, now: int, inline: Inline, asks: seq<Ask>, cancelled: set<nat>)
    requires Inv(s) && Ledger(s, asks, cancelled) && Outstanding(s, k)
    ensures var r := FetchOk(s, k, body, now, inline);
            && Ledger(r, asks, cancelled)
            && r.answers == s.answers + AnswersOf(s, OkDrains(s, k, body, now, inline))
            && (forall n :: n in s.pools[k].waiters ==> Answer(n, OkOutcome(body, now)) in r.answers)
            && Waiting(r, k) == []
  {
    var ds := OkDrains(s, k, body, now, inline);
    FetchOkDrains(s, k, body, now, inline);
    DrainsKeepLedger(s, ds, FetchOk(s, k, body, now, inline), asks, cancelled);
    assert ds[|ds| - 1] == Drain(k, OkOutcome(body, now));
    forall n | n in s.pools[k].waiters
      ensures Answer(n, OkOutcome(body, now)) in FetchOk(s, k, body, now, inline).answers
    {
      DrainAnswers(s, ds, |ds| - 1, n);
    }
    assert Drained(ds, k);
  }

  // ---------- A new call ----------

  lemma JoinKeepsOrder(s: Provider, a: Ask, asks: seq<Ask>, k: string)
    requires KeyOf(a) in s.pools && InOrder(Waiting(s, k), asks, k)
    ensures InOrder(Waiting(AddWaiter(s, KeyOf(a), |asks|), k), asks + [a], k)
  {
  }

  lemma JoinKeepsFate(s: Provider, a: Ask, asks: seq<Ask>, cancelled: set<nat>, n: nat)
    requires Ledger(s, asks, cancelled) && KeyOf(a) in s.pools && n <= |asks|
    ensures OneFate(AddWaiter(s, KeyOf(a), |asks|), asks + [a], cancelled, n)
  {
    if n < |asks| {
      assert OneFate(s, asks, cancelled, n);
      assert (asks + [a])[n] == asks[n];
    }
  }

  /** The next call joins the list of the key it asked for. */
  lemma JoinKeepsLedger(s: Provider, a: Ask, asks: seq<Ask>, cancelled: set<nat>)
    requires Ledger(s, asks, cancelled) && KeyOf(a) in s.pools
    ensures Ledger(AddWaiter(s, KeyOf(a), |asks|), asks + [a], cancelled)
  {
    var r := AddWaiter(s, KeyOf(a), |asks|);
    forall k
      ensures InOrder(Waiting(r, k), asks + [a], k)
    {
      JoinKeepsOrder(s, a, asks, k);
    }
    forall n: nat | n < |asks| + 1
      ensures OneFate(r, asks + [a], cancelled, n)
    {
      JoinKeepsFate(s, a, asks, cancelled, n);
    }
  }

  /** The next call is answered at once. */
  lemma HitKeepsLedger(s: Provider, a: Ask, o: Outcome, asks: seq<Ask>, cancelled: set<nat>)
    requires Ledger(s, asks, cancelled)
    ensures Ledger(s.(answers := s.answers + [Answer(|asks|, o)]), asks + [a], cancelled)
  {
    var r := s.(answers := s.answers + [Answer(|asks|, o)]);
    IdsOfSum(s.answers, [Answer(|asks|, o)]);
    forall k
      ensures InOrder(Waiting(r, k), asks + [a], k)
    {
      assert Waiting(r, k) == Waiting(s, k);
      assert InOrder(Waiting(s, k), asks, k);
    }
    forall n: nat | n < |asks| + 1
      ensures OneFate(r, asks + [a], cancelled, n)
    {
      assert Waiting(r, KeyOf((asks + [a])[n])) == Waiting(s, KeyOf((asks + [a])[n]));
      if n < |asks| {
        assert OneFate(s, asks, cancelled, n);
        assert (asks + [a])[n] == asks[n];
      } else {
        assert InOrder(Waiting(s, KeyOf(a)), asks, KeyOf(a));
      }
    }
  }

  /** Whom a call answers: itself, if it hits; callers whose fetch fails inline, if it misses. */
  function CallAnswers(s: Provider, a: Ask, n: nat, now: int, inline: Inline): seq<Answer> {
    if Fresh(s, KeyOf(a), now) then [Answer(n, Granted(s.cache[KeyOf(a)]))]
    else AnswersOf(s, CallDrains(s, a.role, a.disableChaining, now, inline))
  }

  lemma MissKeepsLedger(s: Provider, a: Ask, now: int, inline: Inline, asks: seq<Ask>, cancelled: set<nat>)
    requires Inv(s) && Ledger(s, asks, cancelled) && Misses(s, KeyOf(a), now)
    ensures var r := FindMiss(s, a.role, a.disableChaining, |asks|, now, inline);
            Ledger(r, asks + [a], cancelled) && r.answers == s.answers + CallAnswers(s, a, |asks|, now, inline)
  {
    var k := KeyOf(a);
    var r := StartFetch(EnsurePool(s, k, a.role), k, a.role, a.disableChaining, now, inline);
    MissDrains(s, a.role, a.disableChaining, now, inline);
    DrainsKeepLedger(s, CallDrains(s, a.role, a.disableChaining, now, inline), r, asks, cancelled);
    JoinKeepsLedger(r, a, asks, cancelled);
  }

  /** A call that hits: it is answered, and does not wait. */
  lemma HitAnswers(s: Provider, a: Ask, now: int, inline: Inline, asks: seq<Ask>, cancelled: set<nat>)
    requires Ledger(s, asks, cancelled) && Fresh(s, KeyOf(a), now)
    ensures var r := s.(answers := s.answers + CallAnswers(s, a, |asks|, now, inline));
            Ledger(r, asks + [a], cancelled) && |asks| !in Waiting(r, KeyOf(a))
  {
    HitKeepsLedger(s, a, Granted(s.cache[KeyOf(a)]), asks, cancelled);
    assert InOrder(Waiting(s, KeyOf(a)), asks, KeyOf(a));
  }

  /** A new call gets one fate; nobody loses an answer, and whom it answers besides is exactly said. */
  lemma FindKeepsLedger(
    s: Provider, roleArg: Option<string>, disableChaining: bool, now: int, inline: Inline,
    asks: seq<Ask>, cancelled: set<nat>)
    requires Inv(s) && Ledger(s, asks, cancelled)
    ensures var a := Ask(RoleOf(s, roleArg), disableChaining);
            var r := Find(s, roleArg, disableChaining, |asks|, now, inline);
            && Ledger(r.0, asks + [a], cancelled) && (r.1 <==> Waits(r.0, asks + [a], |asks|))
            && r.0.answers == s.answers + CallAnswers(s, a, |asks|, now, inline)
  {
    var a := Ask(RoleOf(s, roleArg), disableChaining);
    var k := KeyOf(a);
    assert (asks + [a])[|asks|] == a;
    if Fresh(s, k, now) {
      HitAnswers(s, a, now, inline, asks, cancelled);
    } else if !Misses(s, k, now) {
      JoinKeepsLedger(s, a, asks, cancelled);
      assert s.answers + [] == s.answers;
    } else {
      MissKeepsLedger(s, a, now, inline, asks, cancelled);
    }
  }

  // ---------- Cancel ----------

  function Cancel(s: Provider, asks: seq<Ask>, n: nat): Provider
    requires n < |asks| && Waits(s, asks, n)
  {
    var k := KeyOf(asks[n]);
    CancelWaiter(s, k, FirstIndex(s.pools[k].waiters, n))
  }

  /** Dropping one entry of a decreasing list drops exactly that caller, and keeps the order. */
  lemma DropOne(w: seq<nat>, i: nat)
    requires i < |w| && forall p, q :: 0 <= p < q < |w| ==> w[p] > w[q]
    ensures var r := w[..i] + w[i + 1..];
            && (forall p, q :: 0 <= p < q < |r| ==> r[p] > r[q])
            && (forall m :: m in r <==> m in w && m != w[i])
  {
    var r := w[..i] + w[i + 1..];
    forall m | m in w && m != w[i]
      ensures m in r
    {
      var j :| 0 <= j < |w| && w[j] == m;
      assert r[if j < i then j else j - 1] == m;
    }
  }

  lemma DropKeepsOrder(w: seq<nat>, asks: seq<Ask>, k: string, n: nat)
    requires InOrder(w, asks, k) && n in w
    ensures var i := FirstIndex(w, n);
            && InOrder(w[..i] + w[i + 1..], asks, k)
            && forall m :: m in w[..i] + w[i + 1..] <==> m in w && m != n
  {
    DropOne(w, FirstIndex(w, n));
  }

  lemma CancelDrops(s: Provider, asks: seq<Ask>, n: nat, j: string)
    requires InOrder(Waiting(s, j), asks, j) && n < |asks| && Waits(s, asks, n)
    ensures InOrder(Waiting(Cancel(s, asks, n), j), asks, j)
    ensures forall m :: m in Waiting(Cancel(s, asks, n), j) <==> m in Waiting(s, j) && !(m == n && j == KeyOf(asks[n]))
  {
    if j == KeyOf(asks[n]) {
      DropKeepsOrder(Waiting(s, j), asks, j, n);
    } else {
      assert Waiting(Cancel(s, asks, n), j) == Waiting(s, j);
    }
  }

  lemma CancelKeepsLedger(s: Provider, asks: seq<Ask>, cancelled: set<nat>, n: nat)
    requires Ledger(s, asks, cancelled) && n < |asks| && Waits(s, asks, n)
    ensures Ledger(Cancel(s, asks, n), asks, cancelled + {n})
  {
    var r := Cancel(s, asks, n);
    forall j
      ensures InOrder(Waiting(r, j), asks, j)
    {
      assert InOrder(Waiting(s, j), asks, j);
      CancelDrops(s, asks, n, j);
    }
    forall m: nat | m < |asks|
      ensures OneFate(r, asks, cancelled + {n}, m)
    {
      assert OneFate(s, asks, cancelled, m);
      assert InOrder(Waiting(s, KeyOf(asks[m])), asks, KeyOf(asks[m]));
      CancelDrops(s, asks, n, KeyOf(asks[m]));
    }
  }
}

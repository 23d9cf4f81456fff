/**
 * Whole runs of the provider: any interleaving of calls, completed fetches,
 * cancelled calls and new web tokens.
 */
module StsRuns {
  import opened Common
  import opened StsModel
  import opened StsFlight
  import opened StsDrains
  import opened StsLedger

  /** A fetch that came back with credentials. */
  datatype Done = Done(key: string, role: string, auth: Auth, creds: Creds)

  datatype World = World(p: Provider, asks: seq<Ask>, cancelled: set<nat>, done: seq<Done>)

  datatype Event =
    | Call(roleArg: Option<string>, disableChaining: bool, now: int, inline: Inline)
    | Response(key: string, body: Body, time: int, inline: Inline)
    | Failure(failed: string, status: FailureStatus)
    | CancelCall(n: nat)
    | NewToken(token: string)

  function Initial(defaultRole: string, token: string): World {
    World(Provider(defaultRole, token, map[], map[], []), [], {}, [])
  }

  /** Fetches complete only while outstanding, and only a waiting call holds a context to cancel. */
  predicate Enabled(w: World, e: Event) {
    match e
    case Call(_, _, _, _) => true
    case Response(k, _, _, _) => Outstanding(w.p, k)
    case Failure(k, _) => Outstanding(w.p, k)
    case CancelCall(n) => n < |w.asks| && Waits(w.p, w.asks, n)
    case NewToken(_) => true
  }

  /** Calls are numbered in the order they are made. */
  function Step(w: World, e: Event): World
    requires Enabled(w, e)
  {
    match e
    case Call(roleArg, disable, now, inline) =>
      w.(p := Find(w.p, roleArg, disable, |w.asks|, now, inline).0,
         asks := w.asks + [Ask(RoleOf(w.p, roleArg), disable)])
    case Response(k, body, now, inline) =>
      w.(p := FetchOk(w.p, k, body, now, inline),
         done := match ParseBody(body, now)
                 case None => w.done
                 case Some(c) => w.done + [Done(k, w.p.pools[k].role, w.p.pools[k].fetch.value, c)])
    case Failure(k, status) => w.(p := FailPool(w.p, k, status))
    case CancelCall(n) => w.(p := Cancel(w.p, w.asks, n), cancelled := w.cancelled + {n})
    case NewToken(token) => w.(p := w.p.(webToken := token))
  }

  ghost predicate Legal(w: World, events: seq<Event>)
    decreases |events|
  {
    events != [] ==> Enabled(w, events[0]) && Legal(Step(w, events[0]), events[1..])
  }

  function Run(w: World, events: seq<Event>): World
    requires Legal(w, events)
    decreases |events|
  {
    if events == [] then w else Run(Step(w, events[0]), events[1..])
  }

  // ---------- In flight, and answered once ----------

  lemma StepKeepsInv(w: World, e: Event)
    requires Inv(w.p) && Ledger(w.p, w.asks, w.cancelled) && Enabled(w, e)
    ensures Inv(Step(w, e).p) && Ledger(Step(w, e).p, Step(w, e).asks, Step(w, e).cancelled)
  {
    match e
    case Call(roleArg, disable, now, inline) =>
      FindKeepsInv(w.p, roleArg, disable, |w.asks|, now, inline);
      FindKeepsLedger(w.p, roleArg, disable, now, inline, w.asks, w.cancelled);
    case Response(k, body, now, inline) =>
      FetchOkKeepsInv(w.p, k, body, now, inline);
      FetchOkKeepsLedger(w.p, k, body, now, inline, w.asks, w.cancelled);
    case Failure(k, status) =>
      FailKeepsInv(w.p, k, status);
      FailKeepsLedger(w.p, k, status, w.asks, w.cancelled);
    case CancelCall(n) =>
      CancelKeepsInv(w.p, KeyOf(w.asks[n]), FirstIndex(w.p.pools[KeyOf(w.asks[n])].waiters, n));
      CancelKeepsLedger(w.p, w.asks, w.cancelled, n);
    case NewToken(token) =>
      var r := w.p.(webToken := token);
      QuietKeepsLedger(w.p, r, w.asks, w.cancelled);
      assert Queue(r) == Queue(w.p);
      forall k | k in r.pools
        ensures PoolOk(r, k)
      {
        assert PoolOk(w.p, k);
      }
  }

  lemma {:induction false} RunKeepsInv(w: World, events: seq<Event>)
    requires Inv(w.p) && Ledger(w.p, w.asks, w.cancelled) && Legal(w, events)
    ensures var r := Run(w, events); Inv(r.p) && Ledger(r.p, r.asks, r.cancelled)
    decreases |events|
  {
    if events != [] {
      StepKeepsInv(w, events[0]);
      RunKeepsInv(Step(w, events[0]), events[1..]);
    }
  }

  /**
   * In every run: a pool is in flight exactly with a fetch of its own or a place in the
   * default role's queue, and every call has exactly one fate.
   */
  lemma EveryRun(defaultRole: string, token: string, events: seq<Event>)
    requires Legal(Initial(defaultRole, token), events)
    ensures var r := Run(Initial(defaultRole, token), events);
            Inv(r.p) && Ledger(r.p, r.asks, r.cancelled)
  {
    RunKeepsInv(Initial(defaultRole, token), events);
  }

  // ---------- Attended callers ----------

  /** The event is a call that starts a fetch which fails before the call returns. */
  predicate FailsInCall(w: World, e: Event) {
    e.Call? && FailsInline(w.p, RoleOf(w.p, e.roleArg), e.disableChaining, e.now, e.inline)
  }

  lemma StepKeepsAttendedExactly(w: World, e: Event)
    requires Inv(w.p) && Attended(w.p) && Enabled(w, e)
    ensures Attended(Step(w, e).p) <==> !FailsInCall(w, e)
  {
    match e
    case Call(roleArg, disable, now, inline) => FindKeepsAttendedExactly(w.p, roleArg, disable, |w.asks|, now, inline);
    case Response(k, body, now, inline) => FetchOkKeepsAttended(w.p, k, body, now, inline);
    case Failure(k, status) => FailKeepsAttended(w.p, k, status);
    case CancelCall(n) =>
    case NewToken(token) =>
  }

  /** No call of the run starts a fetch that fails before the call returns. */
  ghost predicate Prompt(w: World, events: seq<Event>)
    requires Legal(w, events)
    decreases |events|
  {
    events != [] ==> !FailsInCall(w, events[0]) && Prompt(Step(w, events[0]), events[1..])
  }

  /** After each event of the run every waiting caller has a fetch behind it. */
  ghost predicate AlwaysAttended(w: World, events: seq<Event>)
    requires Legal(w, events)
    decreases |events|
  {
    Attended(w.p) && (events != [] ==> AlwaysAttended(Step(w, events[0]), events[1..]))
  }

  lemma {:induction false} AttendedExactly(w: World, events: seq<Event>)
    requires Inv(w.p) && Attended(w.p) && Ledger(w.p, w.asks, w.cancelled) && Legal(w, events)
    ensures AlwaysAttended(w, events) <==> Prompt(w, events)
    ensures Prompt(w, events) ==> Attended(Run(w, events).p)
    decreases |events|
  {
    if events != [] {
      StepKeepsInv(w, events[0]);
      StepKeepsAttendedExactly(w, events[0]);
      if !FailsInCall(w, events[0]) {
        AttendedExactly(Step(w, events[0]), events[1..]);
      }
    }
  }

  /** A run keeps a fetch behind every waiting caller exactly if no call's fetch fails before the call returns. */
  lemma EveryoneAttendedExactly(defaultRole: string, token: string, events: seq<Event>)
    requires Legal(Initial(defaultRole, token), events)
    ensures AlwaysAttended(Initial(defaultRole, token), events) <==> Prompt(Initial(defaultRole, token), events)
  {
    AttendedExactly(Initial(defaultRole, token), events);
  }

  /**
   * Once nothing is outstanding, a call has been answered, or cancelled, or is stranded,
   * and only one of these; in a run whose calls' fetches do not fail in the call nobody is.
   */
  lemma QuietRunsAnsweredEveryone(defaultRole: string, token: string, events: seq<Event>, n: nat)
    requires Legal(Initial(defaultRole, token), events)
    requires var r := Run(Initial(defaultRole, token), events);
             n < |r.asks| && forall k :: !Outstanding(r.p, k)
    ensures var r := Run(Initial(defaultRole, token), events);
            && (n in Ids(r.p.answers) <==> n !in r.cancelled && !Stranded(r.p, KeyOf(r.asks[n]), n))
            && (Prompt(Initial(defaultRole, token), events) ==> (n in Ids(r.p.answers) <==> n !in r.cancelled))
  {
    EveryRun(defaultRole, token, events);
    AttendedExactly(Initial(defaultRole, token), events);
    var r := Run(Initial(defaultRole, token), events);
    var k := KeyOf(r.asks[n]);
    assert OneFate(r.p, r.asks, r.cancelled, n);
    assert !Outstanding(r.p, Source(r.p, k));
    if Stranded(r.p, k, n) {
      StrandedIsUnattended(r.p, k, n);
    }
  }

  // ---------- What the cache and the answers hold ----------

  /** The last credentials fetched under key k. */
  function Latest(done: seq<Done>, k: string): Option<Creds> {
    if done == [] then None
    else if done[|done| - 1].key == k then Some(done[|done| - 1].creds)
    else Latest(done[..|done| - 1], k)
  }

  lemma LatestAfter(done: seq<Done>, d: Done, k: string)
    ensures Latest(done + [d], k) == if d.key == k then Some(d.creds) else Latest(done, k)
  {
    assert (done + [d])[..|done|] == done;
  }

  lemma {:induction false} LatestIsDone(done: seq<Done>, k: string)
    requires Latest(done, k).Some?
    ensures Fetched(done, k, Latest(done, k).value)
  {
    var n := |done| - 1;
    if done[n].key == k {
    } else {
      LatestIsDone(done[..n], k);
      var i :| 0 <= i < n && done[..n][i].key == k && done[..n][i].creds == Latest(done, k).value;
      assert done[i].key == k;
    }
  }

  /** Some fetch under key k came back with these credentials. */
  ghost predicate Fetched(done: seq<Done>, k: string, c: Creds) {
    exists i :: 0 <= i < |done| && done[i].key == k && done[i].creds == c
  }

  /** The cache holds the last result of each key; what was granted had been fetched under the caller's key. */
  ghost predicate Agreement(w: World) {
    && (forall k :: Latest(w.done, k) == if k in w.p.cache then Some(w.p.cache[k]) else None)
    && (forall i :: 0 <= i < |w.p.answers| ==> AnswerOk(w, w.p.answers[i]))
  }

  ghost predicate AnswerOk(w: World, a: Answer) {
    a.outcome.Granted? ==> a.id < |w.asks| && Fetched(w.done, KeyOf(w.asks[a.id]), a.outcome.creds)
  }

  lemma FetchedGrows(done: seq<Done>, d: Done, k: string, c: Creds)
    requires Fetched(done, k, c)
    ensures Fetched(done + [d], k, c)
  {
    var i :| 0 <= i < |done| && done[i].key == k && done[i].creds == c;
    assert (done + [d])[i] == done[i];
  }

  lemma FetchedNow(done: seq<Done>, d: Done)
    ensures Fetched(done + [d], d.key, d.creds)
  {
    assert (done + [d])[|done|] == d;
  }

  /** What a step grants it grants to callers under whose key the credentials have been fetched. */
  lemma {:induction false} DrainsKeepAnswersOk(w: World, ds: seq<Drain>, r: World)
    requires Ledger(w.p, w.asks, w.cancelled) && Agreement(w) && w.asks <= r.asks
    requires r.p.answers == w.p.answers + AnswersOf(w.p, ds)
    requires forall k, c :: Fetched(w.done, k, c) ==> Fetched(r.done, k, c)
    requires forall i :: 0 <= i < |ds| && ds[i].outcome.Granted? ==> Fetched(r.done, ds[i].key, ds[i].outcome.creds)
    ensures forall i :: 0 <= i < |r.p.answers| ==> AnswerOk(r, r.p.answers[i])
  {
    forall i | 0 <= i < |r.p.answers|
      ensures AnswerOk(r, r.p.answers[i])
    {
      if i < |w.p.answers| {
        assert AnswerOk(w, w.p.answers[i]);
      } else {
        var d := AnswerIsFrom(w.p, ds, i - |w.p.answers|);
        assert InOrder(Waiting(w.p, ds[d].key), w.asks, ds[d].key);
      }
    }
  }

  lemma {:induction false} KicksDeny(roles: seq<string>, inline: Inline)
    ensures forall i :: 0 <= i < |KickDrains(roles, inline)| ==> KickDrains(roles, inline)[i].outcome.Denied?
    decreases |roles|
  {
    if roles != [] {
      KicksDeny(roles[..|roles| - 1], inline);
    }
  }

  /** A step that fetches nothing, leaves the cache and grants nothing. */
  lemma {:induction false} DenialsKeepAgreement(w: World, ds: seq<Drain>, r: World)
    requires Ledger(w.p, w.asks, w.cancelled) && Agreement(w) && w.asks <= r.asks
    requires r.done == w.done && r.p.cache == w.p.cache && r.p.answers == w.p.answers + AnswersOf(w.p, ds)
    requires forall i :: 0 <= i < |ds| ==> ds[i].outcome.Denied?
    ensures Agreement(r)
  {
    DrainsKeepAnswersOk(w, ds, r);
  }

  lemma {:induction false} DoneGrows(w: World, d: Done, cache: map<string, Creds>)
    requires forall k :: Latest(w.done, k) == if k in w.p.cache then Some(w.p.cache[k]) else None
    requires cache == w.p.cache[d.key := d.creds]
    ensures forall k :: Latest(w.done + [d], k) == if k in cache then Some(cache[k]) else None
    ensures forall k, c :: Fetched(w.done, k, c) ==> Fetched(w.done + [d], k, c)
    ensures Fetched(w.done + [d], d.key, d.creds)
  {
    forall k
      ensures Latest(w.done + [d], k) == if k in cache then Some(cache[k]) else None
    {
      LatestAfter(w.done, d, k);
    }
    forall k, c | Fetched(w.done, k, c)
      ensures Fetched(w.done + [d], k, c)
    {
      FetchedGrows(w.done, d, k, c);
    }
    FetchedNow(w.done, d);
  }

  lemma {:induction false} ResponseKeepsAgreement(w: World, k: string, body: Body, now: int, inline: Inline)
    requires Inv(w.p) && Ledger(w.p, w.asks, w.cancelled) && Agreement(w)
    requires Outstanding(w.p, k) && ParseBody(body, now).Some?
    ensures Agreement(Step(w, Response(k, body, now, inline)))
  {
    var creds := ParseBody(body, now).value;
    var r := Step(w, Response(k, body, now, inline));
    SucceedForm(w.p, k, creds, inline);
    FetchOkDrains(w.p, k, body, now, inline);
    KicksDeny(w.p.pools[k].chained, inline);
    DoneGrows(w, Done(k, w.p.pools[k].role, w.p.pools[k].fetch.value, creds), r.p.cache);
    DrainsKeepAnswersOk(w, OkDrains(w.p, k, body, now, inline), r);
  }

  lemma FailKeepsAgreement(w: World, k: string, status: FailureStatus)
    requires Inv(w.p) && Ledger(w.p, w.asks, w.cancelled) && Agreement(w) && Outstanding(w.p, k)
    ensures Agreement(w.(p := FailPool(w.p, k, status)))
  {
    FailForm(w.p, k, status);
    FailPoolDrains(w.p, k, status);
    DenialsKeepAgreement(w, PoolFailDrains(w.p, k, status), w.(p := FailPool(w.p, k, status)));
  }

  lemma {:induction false} HitKeepsAgreement(w: World, a: Ask, r: World)
    requires AnsweredOnce(w.p.answers, w.asks) && Agreement(w) && KeyOf(a) in w.p.cache
    requires r.done == w.done && r.p.cache == w.p.cache && r.asks == w.asks + [a]
    requires r.p.answers == w.p.answers + [Answer(|w.asks|, Granted(w.p.cache[KeyOf(a)]))]
    ensures Agreement(r)
  {
    assert Latest(w.done, KeyOf(a)).Some?;
    LatestIsDone(w.done, KeyOf(a));
    forall i | 0 <= i < |r.p.answers|
      ensures AnswerOk(r, r.p.answers[i])
    {
      if i < |w.p.answers| {
        assert AnswerOk(w, w.p.answers[i]);
      }
    }
  }

  lemma {:induction false} CallsDeny(s: Provider, role: string, disable: bool, now: int, inline: Inline)
    ensures var ds := CallDrains(s, role, disable, now, inline);
            forall i :: 0 <= i < |ds| ==> ds[i].outcome.Denied?
  {
  }

  /** What a call answers agrees with what has been fetched. */
  lemma {:induction false} AnsweredCallAgrees(w: World, a: Ask, now: int, inline: Inline, r: World)
    requires Ledger(w.p, w.asks, w.cancelled) && Agreement(w)
    requires r.done == w.done && r.p.cache == w.p.cache && r.asks == w.asks + [a]
    requires r.p.answers == w.p.answers + CallAnswers(w.p, a, |w.asks|, now, inline)
    ensures Agreement(r)
  {
    if Fresh(w.p, KeyOf(a), now) {
      HitKeepsAgreement(w, a, r);
    } else {
      CallsDeny(w.p, a.role, a.disableChaining, now, inline);
      DenialsKeepAgreement(w, CallDrains(w.p, a.role, a.disableChaining, now, inline), r);
    }
  }

  lemma {:induction false} CallKeepsAgreement(w: World, e: Event)
    requires Inv(w.p) && Ledger(w.p, w.asks, w.cancelled) && Agreement(w) && e.Call?
    ensures Agreement(Step(w, e))
  {
    FindFrame(w.p, e.roleArg, e.disableChaining, |w.asks|, e.now, e.inline);
    FindKeepsLedger(w.p, e.roleArg, e.disableChaining, e.now, e.inline, w.asks, w.cancelled);
    AnsweredCallAgrees(w, Ask(RoleOf(w.p, e.roleArg), e.disableChaining), e.now, e.inline, Step(w, e));
  }

  lemma StepKeepsAgreement(w: World, e: Event)
    requires Inv(w.p) && Ledger(w.p, w.asks, w.cancelled) && Agreement(w) && Enabled(w, e)
    ensures Agreement(Step(w, e))
  {
    match e
    case Call(_, _, _, _) => CallKeepsAgreement(w, e);
    case Response(k, body, now, inline) =>
      if ParseBody(body, now).Some? {
        ResponseKeepsAgreement(w, k, body, now, inline);
      } else {
        FailKeepsAgreement(w, k, InvalidSts);
      }
    case Failure(k, status) => FailKeepsAgreement(w, k, status);
    case CancelCall(_) =>
      assert w.p.answers + [] == w.p.answers;
      DenialsKeepAgreement(w, [], Step(w, e));
    case NewToken(_) =>
      assert w.p.answers + [] == w.p.answers;
      DenialsKeepAgreement(w, [], Step(w, e));
  }

  lemma {:induction false} RunKeepsAgreement(w: World, events: seq<Event>)
    requires Inv(w.p) && Ledger(w.p, w.asks, w.cancelled) && Agreement(w) && Legal(w, events)
    ensures Agreement(Run(w, events))
    decreases |events|
  {
    if events != [] {
      StepKeepsInv(w, events[0]);
      StepKeepsAgreement(w, events[0]);
      RunKeepsAgreement(Step(w, events[0]), events[1..]);
    }
  }

  /** In every run the cache holds, under every key, what the last completed fetch of that key came back with. */
  lemma CacheIsLatest(defaultRole: string, token: string, events: seq<Event>, k: string)
    requires Legal(Initial(defaultRole, token), events)
    ensures var r := Run(Initial(defaultRole, token), events);
            Latest(r.done, k) == if k in r.p.cache then Some(r.p.cache[k]) else None
  {
    RunKeepsAgreement(Initial(defaultRole, token), events);
  }
}

/**
 * Filters and provider together: any number of requests, each with its filter,
 * sharing one credentials provider.  The callbacks the provider makes are
 * delivered to the filters in order, and a filter that is destroyed while it
 * holds a context cancels it.
 */
module LambdaSystem {
  import opened Common
  import opened StsModel
  import opened StsFlight
  import opened StsDrains
  import opened StsLedger
  import S = StsRuns
  import V = StsProvenance
  import M = LambdaModel
  import L = LambdaStream

  /** call[i] is the number of request i's call to find; owner[n] is the request that made call n. */
  datatype System = System(w: S.World, streams: seq<L.Stream>, call: seq<Option<nat>>, owner: seq<nat>)

  /** Where credentials come from: protocol options or the default provider, or the STS provider. */
  datatype Origin =
    | Direct(creds: Option<M.AwsCreds>)
    | Sts(roleArg: Option<string>, disableChaining: bool, now: int, inline: Inline)

  datatype Event =
    | Open
    | Headers(i: nat, route: M.Route, endStream: bool, source: Origin)
    | Data(i: nat, data: string, last: bool)
    | Trailers(i: nat)
    | Destroy(i: nat)
    | Response(key: string, body: Body, now: int, inline: Inline)
    | Failure(key: string, status: FailureStatus)
    | NewToken(token: string)

  function Initial(defaultRole: string, token: string): System {
    System(S.Initial(defaultRole, token), [], [], [])
  }

  function ToAws(c: Creds): M.AwsCreds {
    M.AwsCreds(Some(c.accessKey), Some(c.secretKey), Some(c.sessionToken))
  }

  function AsEvent(o: Outcome): L.Event {
    match o
    case Granted(c) => L.Granted(ToAws(c))
    case Denied(_) => L.Refused
  }

  function FindEvent(source: Origin): S.Event
    requires source.Sts?
  {
    S.Call(source.roleArg, source.disableChaining, source.now, source.inline)
  }

  predicate AsksSts(route: M.Route, source: Origin) {
    route.Aws? && route.fn.Some? && source.Sts?
  }

  predicate Enabled(s: System, e: Event) {
    match e
    case Open => true
    case Headers(i, route, end, source) =>
      i < |s.streams| && s.streams[i].alive && !s.streams[i].started
    case Data(i, data, last) => i < |s.streams| && L.Enabled(s.streams[i], L.Data(data, last))
    case Trailers(i) => i < |s.streams| && L.Enabled(s.streams[i], L.Trailers)
    case Destroy(i) => i < |s.streams| && s.streams[i].alive
    case Response(k, _, _, _) => Outstanding(s.w.p, k)
    case Failure(k, _) => Outstanding(s.w.p, k)
    case NewToken(_) => true
  }

  // ---------- The invariant ----------

  /** Request i's call is still in a pool's list. */
  predicate StillWaits(s: System, i: nat)
    requires i < |s.call|
  {
    s.call[i].Some? && s.call[i].value < |s.w.asks| && Waits(s.w.p, s.w.asks, s.call[i].value)
  }

  /** The credentials c were granted to call n. */
  ghost predicate GrantedTo(answers: seq<Answer>, n: nat, c: M.AwsCreds) {
    exists j :: 0 <= j < |answers| && answers[j].id == n && answers[j].outcome.Granted?
             && c == ToAws(answers[j].outcome.creds)
  }

  /** Call n was denied. */
  ghost predicate DeniedTo(answers: seq<Answer>, n: nat) {
    exists j :: 0 <= j < |answers| && answers[j].id == n && answers[j].outcome.Denied?
  }

  /** What the filter has been told is the answer to its call. */
  ghost predicate ToldTo(answers: seq<Answer>, n: nat, told: L.Told) {
    match told
    case Nothing => true
    case Good(c) => GrantedTo(answers, n, c)
    case Bad => DeniedTo(answers, n)
  }

  ghost predicate StreamOk(s: System, i: nat)
    requires i < |s.streams| == |s.call|
  {
    && L.Inv(s.streams[i])
    && (s.streams[i].alive && s.streams[i].f.context <==> StillWaits(s, i))
    && (s.call[i].Some? ==> ToldTo(s.w.p.answers, s.call[i].value, s.streams[i].told))
    && (s.call[i].Some? ==> s.streams[i].started)
  }

  /** Calls and owners are each other's inverse. */
  ghost predicate Inverse(call: seq<Option<nat>>, owner: seq<nat>) {
    && (forall n :: 0 <= n < |owner| ==> owner[n] < |call| && call[owner[n]] == Some(n))
    && (forall i :: 0 <= i < |call| && call[i].Some? ==> call[i].value < |owner| && owner[call[i].value] == i)
  }

  ghost predicate Paired(s: System) {
    |s.call| == |s.streams| && |s.owner| == |s.w.asks| && Inverse(s.call, s.owner)
  }

  ghost predicate Inv(s: System) {
    && StsFlight.Inv(s.w.p) && Ledger(s.w.p, s.w.asks, s.w.cancelled) && S.Agreement(s.w)
    && Paired(s)
    && forall i :: 0 <= i < |s.streams| ==> StreamOk(s, i)
  }

  // ---------- Delivering callbacks ----------

  /** Each answer goes to the filter that asked. */
  function Deliver(streams: seq<L.Stream>, owner: seq<nat>, news: seq<Answer>): seq<L.Stream>
    requires Deliverable(streams, owner, news)
    decreases |news|
  {
    if news == [] then streams
    else
      var i := owner[news[0].id];
      DeliverableNext(streams, owner, news);
      Deliver(streams[i := L.Step(streams[i], AsEvent(news[0].outcome))], owner, news[1..])
  }

  /** The answers are for different live filters, all of which hold a context. */
  ghost predicate Deliverable(streams: seq<L.Stream>, owner: seq<nat>, news: seq<Answer>) {
    && (forall j :: 0 <= j < |news| ==>
          && news[j].id < |owner| && owner[news[j].id] < |streams|
          && L.Inv(streams[owner[news[j].id]])
          && streams[owner[news[j].id]].alive && streams[owner[news[j].id]].f.context)
    && (forall j, k :: 0 <= j < k < |news| ==> owner[news[j].id] != owner[news[k].id])
  }

  lemma DeliverableNext(streams: seq<L.Stream>, owner: seq<nat>, news: seq<Answer>)
    requires Deliverable(streams, owner, news) && news != []
    ensures var i := owner[news[0].id];
            && L.Enabled(streams[i], AsEvent(news[0].outcome))
            && L.Inv(L.Step(streams[i], AsEvent(news[0].outcome)))
            && Deliverable(streams[i := L.Step(streams[i], AsEvent(news[0].outcome))], owner, news[1..])
  {
    var i := owner[news[0].id];
    L.StepKeepsInv(streams[i], AsEvent(news[0].outcome));
    forall j | 0 <= j < |news[1..]|
      ensures owner[news[1..][j].id] != i
    {
      assert news[1..][j] == news[j + 1];
    }
  }

  /** The answer meant for filter i, if there is one. */
  function AnswerFor(owner: seq<nat>, news: seq<Answer>, i: nat): Option<Answer> {
    if news == [] then None
    else if news[0].id < |owner| && owner[news[0].id] == i then Some(news[0])
    else AnswerFor(owner, news[1..], i)
  }

  lemma {:induction false} DeliverForm(streams: seq<L.Stream>, owner: seq<nat>, news: seq<Answer>, i: nat)
    requires Deliverable(streams, owner, news) && i < |streams|
    ensures var r := Deliver(streams, owner, news);
            && |r| == |streams|
            && match AnswerFor(owner, news, i)
               case None => r[i] == streams[i]
               case Some(a) =>
                 && L.Inv(streams[i]) && L.Enabled(streams[i], AsEvent(a.outcome))
                 && r[i] == L.Step(streams[i], AsEvent(a.outcome))
    decreases |news|
  {
    if news != [] {
      var o := owner[news[0].id];
      DeliverableNext(streams, owner, news);
      var next := streams[o := L.Step(streams[o], AsEvent(news[0].outcome))];
      DeliverForm(next, owner, news[1..], i);
      if o == i {
        NoAnswer(owner, news, 1, i);
      }
    }
  }

  lemma {:induction false} NoAnswer(owner: seq<nat>, news: seq<Answer>, from: nat, i: nat)
    requires from <= |news|
    requires forall j :: from <= j < |news| ==> news[j].id < |owner| && owner[news[j].id] != i
    ensures AnswerFor(owner, news[from..], i) == None
    decreases |news| - from
  {
    if from < |news| {
      assert news[from..][1..] == news[from + 1..];
      NoAnswer(owner, news, from + 1, i);
    }
  }

  lemma {:induction false} AnswerForMeans(owner: seq<nat>, news: seq<Answer>, i: nat)
    ensures match AnswerFor(owner, news, i)
            case Some(a) => a in news && a.id < |owner| && owner[a.id] == i
            case None => forall j :: 0 <= j < |news| && news[j].id < |owner| ==> owner[news[j].id] != i
  {
    if news != [] {
      AnswerForMeans(owner, news[1..], i);
      forall j | 0 <= j < |news| && AnswerFor(owner, news, i).None? && news[j].id < |owner|
        ensures owner[news[j].id] != i
      {
        if j > 0 {
          assert news[j] == news[1..][j - 1];
        }
      }
    }
  }

  // ---------- Steps ----------

  /** The answers the provider has given since. */
  function News(before: Provider, after: Provider): seq<Answer> {
    if |before.answers| <= |after.answers| then after.answers[|before.answers|..] else []
  }

  function Step(s: System, e: Event): System
    requires Inv(s) && Enabled(s, e)
  {
    match e
    case Open => s.(streams := s.streams + [L.NewStream], call := s.call + [None])
    case Headers(i, route, end, source) =>
      if AsksSts(route, source) then AskSts(s, i, route, end, source)
      else
        var lookup := if source.Direct? && source.creds.Some? then M.Found(source.creds.value) else M.NotFound;
        assert StreamOk(s, i);
        s.(streams := s.streams[i := L.Step(s.streams[i], L.Headers(route, end, lookup))])
    case Data(i, data, last) =>
      assert StreamOk(s, i);
      s.(streams := s.streams[i := L.Step(s.streams[i], L.Data(data, last))])
    case Trailers(i) =>
      assert StreamOk(s, i);
      s.(streams := s.streams[i := L.Step(s.streams[i], L.Trailers)])
    case Destroy(i) =>
      assert StreamOk(s, i);
      var w := if s.streams[i].f.context then S.Step(s.w, S.CancelCall(s.call[i].value)) else s.w;
      s.(w := w, streams := s.streams[i := L.Step(s.streams[i], L.Destroy)])
    case Response(k, body, now, inline) => Complete(s, S.Response(k, body, now, inline))
    case Failure(k, status) => Complete(s, S.Failure(k, status))
    case NewToken(token) => s.(w := S.Step(s.w, S.NewToken(token)))
  }

  /** A fetch completes, or a call that misses starts one that may fail inline: waiting callers are answered. */
  predicate Answering(w: S.World, e: S.Event) {
    e.Response? || e.Failure?
    || (e.Call? && !Fresh(w.p, Key(RoleOf(w.p, e.roleArg), e.disableChaining), e.now))
  }

  /** The provider moves, and its callbacks reach the filters. */
  function Complete(s: System, e: S.Event): System
    requires Inv(s) && S.Enabled(s.w, e) && Answering(s.w, e)
  {
    var w := S.Step(s.w, e);
    CompletionDeliverable(s, e);
    s.(w := w, streams := Deliver(s.streams, s.owner, News(s.w.p, w.p)))
  }

  /**
   * A filter asks the STS provider: it is answered from the cache, or it waits, and then
   * callers whose fetch fails inline are refused before it is added.
   */
  function AskSts(s: System, i: nat, route: M.Route, end: bool, source: Origin): System
    requires Inv(s) && Enabled(s, Headers(i, route, end, source)) && AsksSts(route, source)
  {
    var n := |s.w.asks|;
    var e := FindEvent(source);
    assert StreamOk(s, i);
    if Answering(s.w, e) then
      var r := Complete(s, e);
      CompleteLength(s, e);
      System(r.w, r.streams[i := L.Step(s.streams[i], L.Headers(route, end, M.Later))],
             s.call[i := Some(n)], s.owner + [i])
    else
      var c := ToAws(s.w.p.cache[Key(RoleOf(s.w.p, source.roleArg), source.disableChaining)]);
      System(S.Step(s.w, e), s.streams[i := L.Step(s.streams[i], L.Headers(route, end, M.Found(c)))],
             s.call[i := Some(n)], s.owner + [i])
  }

  lemma CompleteLength(s: System, e: S.Event)
    requires Inv(s) && S.Enabled(s.w, e) && Answering(s.w, e)
    ensures |Complete(s, e).streams| == |s.streams|
  {
    CompletionDeliverable(s, e);
    DeliverLength(s.streams, s.owner, News(s.w.p, S.Step(s.w, e).p));
  }

  lemma CompletionExtends(w: S.World, e: S.Event)
    requires StsFlight.Inv(w.p) && Ledger(w.p, w.asks, w.cancelled) && S.Enabled(w, e) && Answering(w, e)
    ensures var r := S.Step(w, e);
            && w.p.answers <= r.p.answers && w.asks <= r.asks && r.cancelled == w.cancelled
            && |r.asks| == |w.asks| + (if e.Call? then 1 else 0)
            && (e.Call? ==> Waits(r.p, r.asks, |w.asks|))
  {
    match e
    case Response(k, body, now, inline) => FetchOkKeepsLedger(w.p, k, body, now, inline, w.asks, w.cancelled);
    case Failure(k, status) => FailKeepsLedger(w.p, k, status, w.asks, w.cancelled);
    case Call(roleArg, disable, now, inline) =>
      FindKeepsLedger(w.p, roleArg, disable, now, inline, w.asks, w.cancelled);
    case _ =>
  }

  /** Between two states of the provider, a caller whose wait is over has been answered. */
  lemma {:induction false} AnsweredWaited(w: S.World, r: S.World, n: nat)
    requires Ledger(w.p, w.asks, w.cancelled) && Ledger(r.p, r.asks, r.cancelled) && n < |w.asks|
    requires w.asks <= r.asks && r.cancelled == w.cancelled && w.p.answers <= r.p.answers
    ensures Waits(w.p, w.asks, n) == (Waits(r.p, r.asks, n) || n in Ids(News(w.p, r.p)))
    ensures !(Waits(r.p, r.asks, n) && n in Ids(News(w.p, r.p)))
  {
    var news := News(w.p, r.p);
    assert r.p.answers == w.p.answers + news;
    IdsOfSum(w.p.answers, news);
    assert OneFate(w.p, w.asks, w.cancelled, n);
    assert OneFate(r.p, r.asks, r.cancelled, n);
  }

  /** Whoever is answered was waiting before, and no longer is. */
  lemma {:induction false} AnsweredWereWaiting(w: S.World, e: S.Event, n: nat)
    requires StsFlight.Inv(w.p) && Ledger(w.p, w.asks, w.cancelled)
    requires S.Enabled(w, e) && Answering(w, e) && n < |w.asks|
    ensures var r := S.Step(w, e);
            && w.asks <= r.asks && w.p.answers <= r.p.answers
            && Waits(w.p, w.asks, n) == (Waits(r.p, r.asks, n) || n in Ids(News(w.p, r.p)))
            && !(Waits(r.p, r.asks, n) && n in Ids(News(w.p, r.p)))
  {
    S.StepKeepsInv(w, e);
    CompletionExtends(w, e);
    AnsweredWaited(w, S.Step(w, e), n);
  }

  /** A call that waits has not been answered. */
  lemma WaitingIsNotAnswered(r: S.World, n: nat, j: nat)
    requires Ledger(r.p, r.asks, r.cancelled) && n < |r.asks| && Waits(r.p, r.asks, n) && j < |r.p.answers|
    ensures r.p.answers[j].id < |r.asks| && r.p.answers[j].id != n
  {
    assert OneFate(r.p, r.asks, r.cancelled, n);
    assert r.p.answers[j] in r.p.answers;
  }

  /** Only calls made before are answered. */
  lemma {:induction false} NewsAreOld(w: S.World, r: S.World, called: bool, j: nat)
    requires Ledger(r.p, r.asks, r.cancelled) && w.p.answers <= r.p.answers && j < |News(w.p, r.p)|
    requires |r.asks| == |w.asks| + (if called then 1 else 0) && (called ==> Waits(r.p, r.asks, |w.asks|))
    ensures News(w.p, r.p)[j].id < |w.asks|
  {
    assert r.p.answers[|w.p.answers| + j] == News(w.p, r.p)[j];
    if called {
      WaitingIsNotAnswered(r, |w.asks|, |w.p.answers| + j);
    }
  }

  /** The filter an answer is for is alive and holds a context. */
  lemma AnswerHasTarget(s: System, e: S.Event, j: nat)
    requires Inv(s) && S.Enabled(s.w, e) && Answering(s.w, e)
    requires j < |News(s.w.p, S.Step(s.w, e).p)|
    ensures var n := News(s.w.p, S.Step(s.w, e).p)[j].id;
            && n < |s.owner| && s.owner[n] < |s.streams|
            && var st := s.streams[s.owner[n]]; L.Inv(st) && st.alive && st.f.context
  {
    var news := News(s.w.p, S.Step(s.w, e).p);
    S.StepKeepsInv(s.w, e);
    CompletionExtends(s.w, e);
    NewsAreOld(s.w, S.Step(s.w, e), e.Call?, j);
    assert news[j] in news;
    var n := news[j].id;
    AnsweredWereWaiting(s.w, e, n);
    assert StreamOk(s, s.owner[n]);
  }

  lemma CompletionDeliverable(s: System, e: S.Event)
    requires Inv(s) && S.Enabled(s.w, e) && Answering(s.w, e)
    ensures Deliverable(s.streams, s.owner, News(s.w.p, S.Step(s.w, e).p))
  {
    var r := S.Step(s.w, e);
    var news := News(s.w.p, r.p);
    forall j | 0 <= j < |news|
      ensures news[j].id < |s.owner| && s.owner[news[j].id] < |s.streams|
      ensures var st := s.streams[s.owner[news[j].id]]; L.Inv(st) && st.alive && st.f.context
    {
      AnswerHasTarget(s, e, j);
    }
    S.StepKeepsInv(s.w, e);
    CompletionExtends(s.w, e);
    forall j, k | 0 <= j < k < |news|
      ensures s.owner[news[j].id] != s.owner[news[k].id]
    {
      assert r.p.answers[|s.w.p.answers| + j] == news[j];
      assert r.p.answers[|s.w.p.answers| + k] == news[k];
    }
  }

  // ---------- Every step keeps the invariant ----------

  lemma ToldToGrows(a: seq<Answer>, b: seq<Answer>, n: nat, told: L.Told)
    requires a <= b && ToldTo(a, n, told)
    ensures ToldTo(b, n, told)
  {
    match told
    case Nothing =>
    case Good(c) =>
      var j :| 0 <= j < |a| && a[j].id == n && a[j].outcome.Granted? && c == ToAws(a[j].outcome.creds);
      assert b[j] == a[j];
    case Bad =>
      var j :| 0 <= j < |a| && a[j].id == n && a[j].outcome.Denied?;
      assert b[j] == a[j];
  }

  lemma {:induction false} DeliverLength(streams: seq<L.Stream>, owner: seq<nat>, news: seq<Answer>)
    requires Deliverable(streams, owner, news)
    ensures |Deliver(streams, owner, news)| == |streams|
    decreases |news|
  {
    if news != [] {
      var i := owner[news[0].id];
      DeliverableNext(streams, owner, news);
      DeliverLength(streams[i := L.Step(streams[i], AsEvent(news[0].outcome))], owner, news[1..]);
    }
  }

  /** A filter that nothing happened to, and whose call neither left nor joined a list. */
  lemma UntouchedStreamOk(s: System, r: System, i: nat)
    requires i < |s.streams| == |s.call| && i < |r.streams| == |r.call| && StreamOk(s, i)
    requires r.streams[i] == s.streams[i] && r.call[i] == s.call[i]
    requires StillWaits(r, i) == StillWaits(s, i) && s.w.p.answers <= r.w.p.answers
    ensures StreamOk(r, i)
  {
    if s.call[i].Some? {
      ToldToGrows(s.w.p.answers, r.w.p.answers, s.call[i].value, s.streams[i].told);
    }
  }

  /** A filter that got the answer to its call. */
  lemma AnsweredStreamOk(s: System, r: System, i: nat, a: Answer)
    requires i < |s.streams| == |s.call| && i < |r.streams| == |r.call| && StreamOk(s, i)
    requires r.call[i] == s.call[i] == Some(a.id) && a in r.w.p.answers && !StillWaits(r, i)
    requires L.Enabled(s.streams[i], AsEvent(a.outcome)) && r.streams[i] == L.Step(s.streams[i], AsEvent(a.outcome))
    ensures StreamOk(r, i)
  {
    L.StepKeepsInv(s.streams[i], AsEvent(a.outcome));
    var j :| 0 <= j < |r.w.p.answers| && r.w.p.answers[j] == a;
  }

  lemma {:induction false} CompleteFrame(s: System, e: S.Event)
    requires Inv(s) && S.Enabled(s.w, e) && Answering(s.w, e)
    ensures var r := Complete(s, e); r.w == S.Step(s.w, e) && r.call == s.call && r.owner == s.owner
  {
  }

  lemma {:induction false} CompleteWaits(s: System, e: S.Event, i: nat)
    requires Inv(s) && S.Enabled(s.w, e) && Answering(s.w, e) && i < |s.call|
    ensures var r := Complete(s, e);
            && r.call == s.call && s.w.asks <= r.w.asks && s.w.p.answers <= r.w.p.answers
            && r.w.p.answers == s.w.p.answers + News(s.w.p, r.w.p)
            && StillWaits(r, i) == (StillWaits(s, i) && s.call[i].value !in Ids(News(s.w.p, r.w.p)))
  {
    CompleteFrame(s, e);
    CompletionExtends(s.w, e);
    if s.call[i].Some? {
      AnsweredWereWaiting(s.w, e, s.call[i].value);
    }
  }

  lemma CompleteKeepsStream(s: System, e: S.Event, i: nat)
    requires Inv(s) && S.Enabled(s.w, e) && Answering(s.w, e) && i < |s.streams|
    ensures var r := Complete(s, e); |r.streams| == |s.streams| == |r.call| && StreamOk(r, i)
  {
    var r := Complete(s, e);
    var news := News(s.w.p, r.w.p);
    CompletionDeliverable(s, e);
    DeliverForm(s.streams, s.owner, news, i);
    CompleteWaits(s, e, i);
    match AnswerFor(s.owner, news, i) {
      case None =>
        CallNotAnswered(s, news, i);
        UntouchedStreamOk(s, r, i);
      case Some(a) =>
        AnswerForMeans(s.owner, news, i);
        assert s.call[s.owner[a.id]] == Some(a.id);
        AnsweredStreamOk(s, r, i, a);
    }
  }

  lemma CallNotAnswered(s: System, news: seq<Answer>, i: nat)
    requires Paired(s) && i < |s.call| && AnswerFor(s.owner, news, i).None?
    ensures s.call[i].Some? ==> s.call[i].value !in Ids(news)
  {
    AnswerForMeans(s.owner, news, i);
  }

  lemma CompleteKeepsInv(s: System, e: S.Event)
    requires Inv(s) && S.Enabled(s.w, e) && Answering(s.w, e) && !e.Call?
    ensures Inv(Complete(s, e))
  {
    var r := Complete(s, e);
    S.StepKeepsInv(s.w, e);
    S.StepKeepsAgreement(s.w, e);
    CompletionExtends(s.w, e);
    CompleteLength(s, e);
    assert r.w.asks == s.w.asks;
    forall i | 0 <= i < |s.streams|
      ensures StreamOk(r, i)
    {
      CompleteKeepsStream(s, e, i);
    }
  }

  /** A call whose answer and cancellation did not change still waits, or still does not. */
  lemma FateTellsWaits(w: S.World, r: S.World, n: nat)
    requires Ledger(w.p, w.asks, w.cancelled) && Ledger(r.p, r.asks, r.cancelled)
    requires n < |w.asks| && w.asks <= r.asks
    requires (n in Ids(w.p.answers) <==> n in Ids(r.p.answers)) && (n in w.cancelled <==> n in r.cancelled)
    ensures Waits(w.p, w.asks, n) == Waits(r.p, r.asks, n)
  {
    assert OneFate(w.p, w.asks, w.cancelled, n);
    assert OneFate(r.p, r.asks, r.cancelled, n);
  }

  /** Filter i moves on its own while it holds no context, before and after. */
  lemma MovedStreamOk(s: System, r: System, i: nat)
    requires i < |s.streams| == |s.call| && StreamOk(s, i)
    requires r.w == s.w && r.call == s.call && |r.streams| == |s.streams|
    requires L.Inv(r.streams[i]) && r.streams[i].told == s.streams[i].told
    requires r.streams[i].alive == s.streams[i].alive && r.streams[i].f.context == s.streams[i].f.context
    requires s.streams[i].started ==> r.streams[i].started
    ensures StreamOk(r, i)
  {
  }

  lemma DataKeepsInv(s: System, i: nat, e: L.Event)
    requires Inv(s) && i < |s.streams| && L.Inv(s.streams[i]) && L.Enabled(s.streams[i], e)
    requires e.Data? || e.Trailers?
    ensures Inv(s.(streams := s.streams[i := L.Step(s.streams[i], e)]))
  {
    var r := s.(streams := s.streams[i := L.Step(s.streams[i], e)]);
    L.StepKeepsInv(s.streams[i], e);
    forall j | 0 <= j < |r.streams|
      ensures StreamOk(r, j)
    {
      assert StreamOk(s, j);
      if j != i {
        UntouchedStreamOk(s, r, j);
      } else {
        DataKeepsContext(s.streams[i], e);
        MovedStreamOk(s, r, j);
      }
    }
  }

  lemma ChunkKeepsContext(f: M.Filter, data: string, last: bool)
    ensures M.DecodeData(f, data, last).0.context == f.context
  {
  }

  lemma DataKeepsContext(st: L.Stream, e: L.Event)
    requires L.Inv(st) && L.Enabled(st, e) && (e.Data? || e.Trailers?)
    ensures var r := L.Step(st, e); r.f.context == st.f.context && r.told == st.told && r.alive && r.started
  {
    match e
    case Data(data, last) => ChunkKeepsContext(st.f, data, last);
    case _ =>
  }

  lemma DirectHeadersKeepInv(s: System, i: nat, route: M.Route, end: bool, source: Origin)
    requires Inv(s) && Enabled(s, Headers(i, route, end, source)) && !AsksSts(route, source)
    ensures Inv(Step(s, Headers(i, route, end, source)))
  {
    var r := Step(s, Headers(i, route, end, source));
    var lookup := if source.Direct? && source.creds.Some? then M.Found(source.creds.value) else M.NotFound;
    assert StreamOk(s, i);
    L.StepKeepsInv(s.streams[i], L.Headers(route, end, lookup));
    forall j | 0 <= j < |r.streams|
      ensures StreamOk(r, j)
    {
      assert StreamOk(s, j);
      if j != i {
        UntouchedStreamOk(s, r, j);
      } else {
        assert s.call[i].None?;
      }
    }
  }

  /** A call that hits is answered at once, and nobody else is. */
  lemma HitNews(w: S.World, e: S.Event)
    requires StsFlight.Inv(w.p) && Ledger(w.p, w.asks, w.cancelled) && e.Call? && !Answering(w, e)
    ensures var r := S.Step(w, e);
            var key := Key(RoleOf(w.p, e.roleArg), e.disableChaining);
            && |r.asks| == |w.asks| + 1 && w.asks <= r.asks && r.cancelled == w.cancelled && key in w.p.cache
            && r.p.answers == w.p.answers + [Answer(|w.asks|, Granted(w.p.cache[key]))]
            && !Waits(r.p, r.asks, |w.asks|)
  {
    FindKeepsLedger(w.p, e.roleArg, e.disableChaining, e.now, e.inline, w.asks, w.cancelled);
  }

  lemma AskStsFrame(s: System, i: nat, route: M.Route, end: bool, source: Origin)
    requires Inv(s) && Enabled(s, Headers(i, route, end, source)) && AsksSts(route, source)
    ensures var r := AskSts(s, i, route, end, source);
            && r.w == S.Step(s.w, FindEvent(source)) && |r.streams| == |s.streams|
            && r.call == s.call[i := Some(|s.w.asks|)] && r.owner == s.owner + [i] && |r.w.asks| == |s.w.asks| + 1
  {
    var e := FindEvent(source);
    if Answering(s.w, e) {
      CompleteLength(s, e);
      CompletionExtends(s.w, e);
    } else {
      HitNews(s.w, e);
    }
  }

  lemma AskStsOthers(s: System, i: nat, route: M.Route, end: bool, source: Origin, j: nat)
    requires Inv(s) && Enabled(s, Headers(i, route, end, source)) && AsksSts(route, source)
    requires j < |s.streams| && j != i
    ensures var r := AskSts(s, i, route, end, source);
            |r.streams| == |r.call| == |s.streams| && StreamOk(r, j)
  {
    var e := FindEvent(source);
    var r := AskSts(s, i, route, end, source);
    AskStsFrame(s, i, route, end, source);
    assert StreamOk(s, j);
    if Answering(s.w, e) {
      CompleteKeepsStream(s, e, j);
      UntouchedStreamOk(Complete(s, e), r, j);
    } else {
      HitLeavesWaiting(s, e, j);
      UntouchedStreamOk(s, r, j);
    }
  }

  lemma HitLeavesWaiting(s: System, e: S.Event, j: nat)
    requires Inv(s) && e.Call? && !Answering(s.w, e) && j < |s.call|
    ensures s.call[j].Some? && s.call[j].value < |s.w.asks| ==>
              var w := S.Step(s.w, e);
              s.w.asks <= w.asks && Waits(w.p, w.asks, s.call[j].value) == Waits(s.w.p, s.w.asks, s.call[j].value)
  {
    HitNews(s.w, e);
    S.StepKeepsInv(s.w, e);
    var w := S.Step(s.w, e);
    IdsOfSum(s.w.p.answers, [w.p.answers[|s.w.p.answers|]]);
    if s.call[j].Some? && s.call[j].value < |s.w.asks| {
      FateTellsWaits(s.w, w, s.call[j].value);
    }
  }

  /** A filter that has just asked for a function, and waits ... */
  lemma WaitingStreamOk(r: System, i: nat, st: L.Stream, route: M.Route, end: bool)
    requires i < |r.streams| == |r.call| && L.Inv(st) && st.alive && !st.started && route.Aws? && route.fn.Some?
    requires r.streams[i] == L.Step(st, L.Headers(route, end, M.Later)) && StillWaits(r, i)
    ensures StreamOk(r, i)
  {
    L.StepKeepsInv(st, L.Headers(route, end, M.Later));
  }

  /** ... or was granted credentials at once. */
  lemma GrantedStreamOk(r: System, i: nat, st: L.Stream, route: M.Route, end: bool, c: M.AwsCreds)
    requires i < |r.streams| == |r.call| && L.Inv(st) && st.alive && !st.started && route.Aws? && route.fn.Some?
    requires r.streams[i] == L.Step(st, L.Headers(route, end, M.Found(c))) && !StillWaits(r, i)
    requires r.call[i].Some? && GrantedTo(r.w.p.answers, r.call[i].value, c)
    ensures StreamOk(r, i)
  {
    L.StepKeepsInv(st, L.Headers(route, end, M.Found(c)));
  }

  lemma {:induction false} AskStsWaits(s: System, i: nat, route: M.Route, end: bool, source: Origin)
    requires Inv(s) && Enabled(s, Headers(i, route, end, source)) && AsksSts(route, source)
    requires Answering(s.w, FindEvent(source))
    ensures var r := AskSts(s, i, route, end, source);
            |r.streams| == |r.call| == |s.streams| && StreamOk(r, i)
  {
    AskStsFrame(s, i, route, end, source);
    assert StreamOk(s, i);
    CompletionExtends(s.w, FindEvent(source));
    var r := AskSts(s, i, route, end, source);
    assert r.streams
        == Complete(s, FindEvent(source)).streams[i := L.Step(s.streams[i], L.Headers(route, end, M.Later))] by {
      CompleteLength(s, FindEvent(source));
    }
    WaitingStreamOk(AskSts(s, i, route, end, source), i, s.streams[i], route, end);
  }

  lemma {:induction false} AskStsHits(s: System, i: nat, route: M.Route, end: bool, source: Origin)
    requires Inv(s) && Enabled(s, Headers(i, route, end, source)) && AsksSts(route, source)
    requires !Answering(s.w, FindEvent(source))
    ensures var r := AskSts(s, i, route, end, source);
            |r.streams| == |r.call| == |s.streams| && StreamOk(r, i)
  {
    var r := AskSts(s, i, route, end, source);
    AskStsFrame(s, i, route, end, source);
    assert StreamOk(s, i);
    HitNews(s.w, FindEvent(source));
    var a := r.w.p.answers[|s.w.p.answers|];
    assert GrantedTo(r.w.p.answers, |s.w.asks|, ToAws(a.outcome.creds));
    GrantedStreamOk(r, i, s.streams[i], route, end, ToAws(a.outcome.creds));
  }

  lemma AskStsSelf(s: System, i: nat, route: M.Route, end: bool, source: Origin)
    requires Inv(s) && Enabled(s, Headers(i, route, end, source)) && AsksSts(route, source)
    ensures var r := AskSts(s, i, route, end, source);
            |r.streams| == |r.call| == |s.streams| && StreamOk(r, i)
  {
    AskStsFrame(s, i, route, end, source);
    if Answering(s.w, FindEvent(source)) {
      AskStsWaits(s, i, route, end, source);
    } else {
      AskStsHits(s, i, route, end, source);
    }
  }

  lemma AskStsPaired(s: System, i: nat, route: M.Route, end: bool, source: Origin)
    requires Inv(s) && Enabled(s, Headers(i, route, end, source)) && AsksSts(route, source)
    ensures Paired(AskSts(s, i, route, end, source))
  {
    AskStsFrame(s, i, route, end, source);
    assert StreamOk(s, i);
    InverseGrows(s.call, s.owner, i);
  }

  lemma InverseGrows(call: seq<Option<nat>>, owner: seq<nat>, i: nat)
    requires Inverse(call, owner) && i < |call| && call[i].None?
    ensures Inverse(call[i := Some(|owner|)], owner + [i])
  {
  }

  lemma AskStsKeepsInv(s: System, i: nat, route: M.Route, end: bool, source: Origin)
    requires Inv(s) && Enabled(s, Headers(i, route, end, source)) && AsksSts(route, source)
    ensures Inv(AskSts(s, i, route, end, source))
  {
    var r := AskSts(s, i, route, end, source);
    AskStsFrame(s, i, route, end, source);
    S.StepKeepsInv(s.w, FindEvent(source));
    S.StepKeepsAgreement(s.w, FindEvent(source));
    AskStsPaired(s, i, route, end, source);
    AskStsSelf(s, i, route, end, source);
    forall j | 0 <= j < |r.streams|
      ensures StreamOk(r, j)
    {
      if j != i {
        AskStsOthers(s, i, route, end, source, j);
      }
    }
  }

  /** Cancelling one call concerns that call alone. */
  lemma CancelFrame(w: S.World, n: nat, m: nat)
    requires StsFlight.Inv(w.p) && Ledger(w.p, w.asks, w.cancelled)
    requires S.Enabled(w, S.CancelCall(n)) && m < |w.asks|
    ensures var r := S.Step(w, S.CancelCall(n));
            && r.asks == w.asks && r.p.answers == w.p.answers
            && Waits(r.p, r.asks, m) == (m != n && Waits(w.p, w.asks, m))
  {
    var r := S.Step(w, S.CancelCall(n));
    S.StepKeepsInv(w, S.CancelCall(n));
    assert OneFate(r.p, r.asks, r.cancelled, m);
    if m != n {
      FateTellsWaits(w, r, m);
    }
  }

  lemma DestroyKeepsInv(s: System, i: nat)
    requires Inv(s) && Enabled(s, Destroy(i))
    ensures Inv(Step(s, Destroy(i)))
  {
    var r := Step(s, Destroy(i));
    assert StreamOk(s, i);
    L.StepKeepsInv(s.streams[i], L.Destroy);
    if s.streams[i].f.context {
      S.StepKeepsInv(s.w, S.CancelCall(s.call[i].value));
      S.StepKeepsAgreement(s.w, S.CancelCall(s.call[i].value));
    }
    forall j | 0 <= j < |r.streams|
      ensures StreamOk(r, j)
    {
      assert StreamOk(s, j);
      if s.streams[i].f.context && s.call[j].Some? {
        CancelFrame(s.w, s.call[i].value, s.call[j].value);
      }
      if j != i {
        UntouchedStreamOk(s, r, j);
      }
    }
  }

  lemma StepKeepsInv(s: System, e: Event)
    requires Inv(s) && Enabled(s, e)
    ensures Inv(Step(s, e))
  {
    match e
    case Open => OpenKeepsInv(s);
    case Headers(i, route, end, source) =>
      if AsksSts(route, source) {
        AskStsKeepsInv(s, i, route, end, source);
      } else {
        DirectHeadersKeepInv(s, i, route, end, source);
      }
    case Data(i, data, last) =>
      assert StreamOk(s, i);
      DataKeepsInv(s, i, L.Data(data, last));
    case Trailers(i) =>
      assert StreamOk(s, i);
      DataKeepsInv(s, i, L.Trailers);
    case Destroy(i) => DestroyKeepsInv(s, i);
    case Response(k, body, now, inline) => CompleteKeepsInv(s, S.Response(k, body, now, inline));
    case Failure(k, status) => CompleteKeepsInv(s, S.Failure(k, status));
    case NewToken(token) => TokenKeepsInv(s, token);
  }

  lemma OpenKeepsInv(s: System)
    requires Inv(s)
    ensures Inv(Step(s, Open))
  {
    var r := Step(s, Open);
    forall j | 0 <= j < |r.streams|
      ensures StreamOk(r, j)
    {
      if j < |s.streams| {
        assert StreamOk(s, j);
        UntouchedStreamOk(s, r, j);
      }
    }
  }

  lemma TokenKeepsInv(s: System, token: string)
    requires Inv(s)
    ensures Inv(Step(s, NewToken(token)))
  {
    var r := Step(s, NewToken(token));
    S.StepKeepsInv(s.w, S.NewToken(token));
    S.StepKeepsAgreement(s.w, S.NewToken(token));
    forall j | 0 <= j < |r.streams|
      ensures StreamOk(r, j)
    {
      assert StreamOk(s, j);
      UntouchedStreamOk(s, r, j);
    }
  }

  // ---------- Whole runs ----------

  ghost predicate Legal(s: System, events: seq<Event>)
    requires Inv(s)
    decreases |events|
  {
    events != [] ==>
      Enabled(s, events[0]) && (StepKeepsInv(s, events[0]); Legal(Step(s, events[0]), events[1..]))
  }

  function Run(s: System, events: seq<Event>): System
    requires Inv(s) && Legal(s, events)
    decreases |events|
  {
    if events == [] then s else StepKeepsInv(s, events[0]); Run(Step(s, events[0]), events[1..])
  }

  lemma {:induction false} RunKeepsInv(s: System, events: seq<Event>)
    requires Inv(s) && Legal(s, events)
    ensures Inv(Run(s, events))
    decreases |events|
  {
    if events != [] {
      StepKeepsInv(s, events[0]);
      RunKeepsInv(Step(s, events[0]), events[1..]);
    }
  }

  lemma InitialInv(defaultRole: string, token: string)
    ensures Inv(Initial(defaultRole, token))
  {
  }

  /**
   * In every run a filter is destroyed holding a context only while its call is in
   * a pool's list, so cancelling it always finds it there; and a live filter holds
   * a context exactly as long as its call waits.
   */
  lemma CancelAlwaysFindsTheContext(defaultRole: string, token: string, events: seq<Event>, i: nat)
    requires Inv(Initial(defaultRole, token)) && Legal(Initial(defaultRole, token), events)
    requires i < |Run(Initial(defaultRole, token), events).streams|
    requires Run(Initial(defaultRole, token), events).streams[i].alive
    ensures var r := Run(Initial(defaultRole, token), events);
            && |r.call| == |r.streams|
            && (r.streams[i].f.context <==> StillWaits(r, i))
            && (r.streams[i].f.context ==> S.Enabled(r.w, S.CancelCall(r.call[i].value)))
  {
    RunKeepsInv(Initial(defaultRole, token), events);
    assert StreamOk(Run(Initial(defaultRole, token), events), i);
  }

  // ---------- Whose credentials sign ----------

  /** What the provider does in one step of the whole, if anything. */
  function ProviderEvent(s: System, e: Event): Option<S.Event>
    requires Inv(s) && Enabled(s, e)
  {
    match e
    case Headers(_, route, _, source) => if AsksSts(route, source) then Some(FindEvent(source)) else None
    case Destroy(i) =>
      assert StreamOk(s, i);
      if s.streams[i].f.context then Some(S.CancelCall(s.call[i].value)) else None
    case Response(k, body, now, inline) => Some(S.Response(k, body, now, inline))
    case Failure(k, status) => Some(S.Failure(k, status))
    case NewToken(token) => Some(S.NewToken(token))
    case _ => None
  }

  lemma StepMovesProvider(s: System, e: Event)
    requires Inv(s) && Enabled(s, e)
    ensures match ProviderEvent(s, e)
            case None => Step(s, e).w == s.w
            case Some(pe) => S.Enabled(s.w, pe) && Step(s, e).w == S.Step(s.w, pe)
  {
    if e.Destroy? {
      assert StreamOk(s, e.i);
    }
  }

  lemma StepExtends(s: System, e: Event)
    requires Inv(s) && Enabled(s, e)
    ensures Step(s, e).w.p.defaultRole == s.w.p.defaultRole && s.w.asks <= Step(s, e).w.asks
  {
    StepMovesProvider(s, e);
    match ProviderEvent(s, e)
    case None =>
    case Some(pe) => V.DefaultStays(s.w, pe);
  }

  lemma {:induction false} RunExtends(s: System, events: seq<Event>)
    requires Inv(s) && Legal(s, events)
    ensures Run(s, events).w.p.defaultRole == s.w.p.defaultRole && s.w.asks <= Run(s, events).w.asks
    decreases |events|
  {
    if events != [] {
      StepKeepsInv(s, events[0]);
      StepExtends(s, events[0]);
      RunExtends(Step(s, events[0]), events[1..]);
    }
  }

  lemma {:induction false} RunKeepsProvenance(asks: iset<Ask>, s: System, events: seq<Event>)
    requires Inv(s) && Legal(s, events) && V.KeysApart(asks) && V.Provenance(asks, s.w)
    requires V.AsksIn(Run(s, events).w, asks)
    ensures V.Provenance(asks, Run(s, events).w)
    decreases |events|
  {
    if events != [] {
      var s1 := Step(s, events[0]);
      StepKeepsInv(s, events[0]);
      RunExtends(s1, events[1..]);
      StepMovesProvider(s, events[0]);
      match ProviderEvent(s, events[0]) {
        case None =>
        case Some(pe) => V.StepKeepsProvenance(asks, s.w, pe);
      }
      RunKeepsProvenance(asks, s1, events[1..]);
    }
  }

  /**
   * In every run none of whose requests share a key, a request that asked the STS
   * provider is signed at most once, over the body that goes upstream, with credentials
   * that a completed fetch of its own role, in its own mode, came back with.
   */
  lemma SignedWithOwnCredentials(defaultRole: string, token: string, events: seq<Event>, i: nat)
    requires Inv(Initial(defaultRole, token)) && Legal(Initial(defaultRole, token), events)
    requires V.KeysApart(V.Asked(Run(Initial(defaultRole, token), events).w))
    requires i < |Run(Initial(defaultRole, token), events).streams|
    requires var r := Run(Initial(defaultRole, token), events);
             i < |r.call| && r.call[i].Some? && L.ForFunction(r.streams[i]) && r.streams[i].f.signatures != []
    ensures var r := Run(Initial(defaultRole, token), events);
            var st := r.streams[i];
            var n := r.call[i].value;
            && n < |r.w.asks|
            && exists d :: 0 <= d < |r.w.done|
                 && V.FetchedFor(r.w.done, d, r.w.p.defaultRole, r.w.asks[n])
                 && st.f.signatures == [M.Signature(Some(ToAws(r.w.done[d].creds)),
                                                    L.Expected(st.route.fn.value, st.body))]
                 && st.f.upstream == Some(L.Expected(st.route.fn.value, st.body))
  {
    var r := Run(Initial(defaultRole, token), events);
    var st := r.streams[i];
    RunKeepsInv(Initial(defaultRole, token), events);
    RunKeepsProvenance(V.Asked(r.w), Initial(defaultRole, token), events);
    assert StreamOk(r, i);
    var j :| 0 <= j < |r.w.p.answers| && r.w.p.answers[j].id == r.call[i].value && r.w.p.answers[j].outcome.Granted?
           && st.told.creds == ToAws(r.w.p.answers[j].outcome.creds);
    V.AnswerIsOwned(V.Asked(r.w), r.w, r.w.p.answers[j]);
  }

  // ---------- Nobody waits in vain ----------

  /** No request's call starts a fetch that fails before the call returns. */
  ghost predicate Prompt(s: System, events: seq<Event>)
    requires Inv(s) && Legal(s, events)
    decreases |events|
  {
    events != [] ==>
      && (match ProviderEvent(s, events[0]) case Some(pe) => !S.FailsInCall(s.w, pe) case None => true)
      && (StepKeepsInv(s, events[0]); Prompt(Step(s, events[0]), events[1..]))
  }

  lemma {:induction false} PromptKeepsAttended(s: System, events: seq<Event>)
    requires Inv(s) && Legal(s, events) && Prompt(s, events) && Attended(s.w.p)
    ensures Attended(Run(s, events).w.p)
    decreases |events|
  {
    if events != [] {
      StepKeepsInv(s, events[0]);
      StepMovesProvider(s, events[0]);
      match ProviderEvent(s, events[0]) {
        case None =>
        case Some(pe) => S.StepKeepsAttendedExactly(s.w, pe);
      }
      PromptKeepsAttended(Step(s, events[0]), events[1..]);
    }
  }

  /**
   * Once no fetch is outstanding, every live request for a function knows its credentials,
   * or was refused, or its call is stranded; and none is in a run whose calls' fetches do
   * not fail in the call.
   */
  lemma NobodyWaitsInVain(defaultRole: string, token: string, events: seq<Event>, i: nat)
    requires Inv(Initial(defaultRole, token)) && Legal(Initial(defaultRole, token), events)
    requires var r := Run(Initial(defaultRole, token), events);
             && i < |r.streams| && r.streams[i].alive && L.ForFunction(r.streams[i])
             && forall k :: !Outstanding(r.w.p, k)
    ensures var r := Run(Initial(defaultRole, token), events);
            && |r.call| == |r.streams|
            && (r.streams[i].told.Nothing? <==>
                  && r.call[i].Some? && r.call[i].value < |r.w.asks|
                  && Stranded(r.w.p, KeyOf(r.w.asks[r.call[i].value]), r.call[i].value))
            && (Prompt(Initial(defaultRole, token), events) ==> !r.streams[i].told.Nothing?)
  {
    RunKeepsInv(Initial(defaultRole, token), events);
    var r := Run(Initial(defaultRole, token), events);
    assert StreamOk(r, i);
    if StillWaits(r, i) {
      var k := KeyOf(r.w.asks[r.call[i].value]);
      assert !Outstanding(r.w.p, Source(r.w.p, k));
      assert Stranded(r.w.p, k, r.call[i].value);
      StrandedIsUnattended(r.w.p, k, r.call[i].value);
      if Prompt(Initial(defaultRole, token), events) {
        PromptKeepsAttended(Initial(defaultRole, token), events);
      }
    }
  }
}

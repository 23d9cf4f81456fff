/**
 * Each request of the whole system on its own: it goes through a legal run of its stream,
 * so what LambdaStream says of streams holds of it; and where its keys come from.
 */
module LambdaRequests {
  import opened Common
  import opened StsModel
  import opened StsLedger
  import opened LambdaSystem
  import S = StsRuns
  import T = StsTokens
  import V = StsProvenance
  import M = LambdaModel
  import L = LambdaStream

  // ---------- What the provider sees ----------

  ghost function ProviderEvents(s: System, events: seq<Event>): seq<S.Event>
    requires Inv(s) && Legal(s, events)
    decreases |events|
  {
    if events == [] then []
    else
      StepKeepsInv(s, events[0]);
      (match ProviderEvent(s, events[0]) case Some(pe) => [pe] case None => [])
      + ProviderEvents(Step(s, events[0]), events[1..])
  }

  lemma {:induction false} OneMoreEvent(w: S.World, pe: Option<S.Event>, rest: seq<S.Event>, r: S.World)
    requires S.Legal(r, rest)
    requires match pe case None => r == w case Some(e) => S.Enabled(w, e) && r == S.Step(w, e)
    ensures var all := (match pe case Some(e) => [e] case None => []) + rest;
            S.Legal(w, all) && S.Run(w, all) == S.Run(r, rest)
  {
    match pe
    case None => assert [] + rest == rest;
    case Some(e) => assert ([e] + rest)[1..] == rest;
  }

  /** The provider of the system runs through what it sees. */
  lemma {:induction false} ProviderRuns(s: System, events: seq<Event>)
    requires Inv(s) && Legal(s, events)
    ensures S.Legal(s.w, ProviderEvents(s, events))
    ensures S.Run(s.w, ProviderEvents(s, events)) == Run(s, events).w
    decreases |events|
  {
    if events != [] {
      var e, rest := events[0], events[1..];
      StepKeepsInv(s, e);
      StepMovesProvider(s, e);
      var r := Step(s, e);
      ProviderRuns(r, rest);
      OneMoreEvent(s.w, ProviderEvent(s, e), ProviderEvents(r, rest), r.w);
    }
  }

  lemma {:induction false} ResponsesAreEvents(s: System, events: seq<Event>, pe: S.Event)
    requires Inv(s) && Legal(s, events) && pe in ProviderEvents(s, events) && pe.Response?
    ensures Response(pe.key, pe.body, pe.time, pe.inline) in events
    decreases |events|
  {
    var e, rest := events[0], events[1..];
    StepKeepsInv(s, e);
    assert events == [e] + rest;
    if ProviderEvent(s, e) != Some(pe) {
      ResponsesAreEvents(Step(s, e), rest, pe);
    }
  }

  // ---------- What a request sees ----------

  /** The provider's answer, if the event brings the request's call one. */
  function Answered(s: System, pe: S.Event, i: nat): Option<L.Event>
    requires Inv(s) && S.Enabled(s.w, pe)
  {
    match AnswerFor(s.owner, News(s.w.p, S.Step(s.w, pe).p), i)
    case Some(a) => Some(AsEvent(a.outcome))
    case None => None
  }

  /** What getCredentials says: at once for a direct origin and a cache hit, and otherwise later. */
  function LookupFor(s: System, route: M.Route, source: Origin): M.Lookup
    requires StsFlight.Inv(s.w.p)
  {
    match source
    case Direct(Some(c)) => M.Found(c)
    case Direct(None) => M.NotFound
    case Sts(roleArg, disable, now, _) =>
      var key := Key(RoleOf(s.w.p, roleArg), disable);
      if !AsksSts(route, source) then M.NotFound
      else if Fresh(s.w.p, key, now) then M.Found(ToAws(s.w.p.cache[key]))
      else M.Later
  }

  /** What request i sees of an event of the system. */
  function StreamEvent(s: System, e: Event, i: nat): Option<L.Event>
    requires Inv(s) && Enabled(s, e)
  {
    match e
    case Open => None
    case Headers(j, route, end, source) =>
      if i == j then Some(L.Headers(route, end, LookupFor(s, route, source)))
      else if AsksSts(route, source) && Answering(s.w, FindEvent(source)) then Answered(s, FindEvent(source), i)
      else None
    case Data(j, data, last) => if i == j then Some(L.Data(data, last)) else None
    case Trailers(j) => if i == j then Some(L.Trailers) else None
    case Destroy(j) => if i == j then Some(L.Destroy) else None
    case Response(k, body, now, inline) => Answered(s, S.Response(k, body, now, inline), i)
    case Failure(k, status) => Answered(s, S.Failure(k, status), i)
    case NewToken(_) => None
  }

  /** From a to b the stream takes the step, if there is one. */
  ghost predicate Takes(a: L.Stream, le: Option<L.Event>, b: L.Stream) {
    match le
    case None => b == a
    case Some(e) => L.Inv(a) && L.Enabled(a, e) && b == L.Step(a, e)
  }

  lemma {:induction false} CompleteMovesStream(s: System, pe: S.Event, i: nat)
    requires Inv(s) && S.Enabled(s.w, pe) && Answering(s.w, pe) && i < |s.streams|
    ensures |Complete(s, pe).streams| == |s.streams|
    ensures Takes(s.streams[i], Answered(s, pe, i), Complete(s, pe).streams[i])
  {
    CompletionDeliverable(s, pe);
    DeliverForm(s.streams, s.owner, News(s.w.p, S.Step(s.w, pe).p), i);
  }

  lemma {:induction false} AskStsMovesStream(s: System, e: Event, i: nat)
    requires Inv(s) && Enabled(s, e) && e.Headers? && AsksSts(e.route, e.source) && i < |s.streams|
    ensures |Step(s, e).streams| == |s.streams|
    ensures Takes(s.streams[i], StreamEvent(s, e, i), Step(s, e).streams[i])
  {
    AskStsFrame(s, e.i, e.route, e.endStream, e.source);
    assert StreamOk(s, e.i);
    if Answering(s.w, FindEvent(e.source)) {
      CompleteMovesStream(s, FindEvent(e.source), i);
    }
  }

  /** An event of the system moves each request by what it sees of it. */
  lemma {:induction false} StepMovesStream(s: System, e: Event, i: nat)
    requires Inv(s) && Enabled(s, e) && i < |s.streams|
    ensures |Step(s, e).streams| == |s.streams| + if e.Open? then 1 else 0
    ensures Takes(s.streams[i], StreamEvent(s, e, i), Step(s, e).streams[i])
  {
    assert StreamOk(s, i);
    match e
    case Headers(_, route, _, source) =>
      if AsksSts(route, source) {
        AskStsMovesStream(s, e, i);
      }
    case Response(k, body, now, inline) => CompleteMovesStream(s, S.Response(k, body, now, inline), i);
    case Failure(k, status) => CompleteMovesStream(s, S.Failure(k, status), i);
    case _ =>
  }

  function ToSeq(le: Option<L.Event>): seq<L.Event> {
    match le case Some(e) => [e] case None => []
  }

  /** What request i, opened or to be opened, sees of the events. */
  ghost function StreamEvents(s: System, events: seq<Event>, i: nat): seq<L.Event>
    requires Inv(s) && Legal(s, events)
    decreases |events|
  {
    if events == [] then []
    else
      StepKeepsInv(s, events[0]);
      (if i < |s.streams| then ToSeq(StreamEvent(s, events[0], i)) else [])
      + StreamEvents(Step(s, events[0]), events[1..], i)
  }

  lemma {:induction false} OneMoreStep(a: L.Stream, le: Option<L.Event>, b: L.Stream, rest: seq<L.Event>)
    requires L.Inv(a) && Takes(a, le, b) && L.Inv(b) && L.Legal(b, rest)
    ensures L.Legal(a, ToSeq(le) + rest) && L.Run(a, ToSeq(le) + rest) == L.Run(b, rest)
  {
    match le
    case None => assert [] + rest == rest;
    case Some(e) =>
      L.StepKeepsInv(a, e);
      assert ([e] + rest)[0] == e && ([e] + rest)[1..] == rest;
  }

  function StreamAt(s: System, i: nat): L.Stream {
    if i < |s.streams| then s.streams[i] else L.NewStream
  }

  lemma {:induction false} StepLength(s: System, e: Event)
    requires Inv(s) && Enabled(s, e)
    ensures |Step(s, e).streams| == |s.streams| + if e.Open? then 1 else 0
  {
    match e
    case Headers(i, route, end, source) =>
      if AsksSts(route, source) {
        AskStsFrame(s, i, route, end, source);
      }
    case Response(k, body, now, inline) => CompleteLength(s, S.Response(k, body, now, inline));
    case Failure(k, status) => CompleteLength(s, S.Failure(k, status));
    case _ =>
  }

  lemma {:induction false} StreamAtMoves(s: System, e: Event, i: nat)
    requires Inv(s) && Enabled(s, e)
    ensures L.Inv(StreamAt(s, i))
    ensures Takes(StreamAt(s, i), if i < |s.streams| then StreamEvent(s, e, i) else None, StreamAt(Step(s, e), i))
  {
    if i < |s.streams| {
      assert StreamOk(s, i);
      StepMovesStream(s, e, i);
    } else {
      StepLength(s, e);
    }
  }

  lemma {:induction false} StreamRuns(s: System, events: seq<Event>, i: nat)
    requires Inv(s) && Legal(s, events)
    ensures L.Inv(StreamAt(s, i)) && L.Legal(StreamAt(s, i), StreamEvents(s, events, i))
    ensures StreamAt(Run(s, events), i) == L.Run(StreamAt(s, i), StreamEvents(s, events, i))
    decreases |events|
  {
    if events == [] {
      if i < |s.streams| {
        assert StreamOk(s, i);
      }
    } else {
      var e, rest := events[0], events[1..];
      StepKeepsInv(s, e);
      StreamAtMoves(s, e, i);
      StreamRuns(Step(s, e), rest, i);
      OneMoreStep(StreamAt(s, i), if i < |s.streams| then StreamEvent(s, e, i) else None, StreamAt(Step(s, e), i),
                  StreamEvents(Step(s, e), rest, i));
    }
  }

  /**
   * In every run of the system each request goes through a legal run of its own stream:
   * what is proved of streams holds of the requests, however many share the provider.
   */
  lemma {:induction false} EachRequestIsAStream(defaultRole: string, token: string, events: seq<Event>, i: nat)
    requires Inv(Initial(defaultRole, token)) && Legal(Initial(defaultRole, token), events)
    requires i < |Run(Initial(defaultRole, token), events).streams|
    ensures var own := StreamEvents(Initial(defaultRole, token), events, i);
            L.Legal(L.NewStream, own) && Run(Initial(defaultRole, token), events).streams[i] == L.Run(L.NewStream, own)
  {
    StreamRuns(Initial(defaultRole, token), events, i);
  }

  /**
   * A request that asked the STS provider is replied to locally once at most, only if its
   * call was denied, and always then unless it was destroyed before.
   */
  lemma {:induction false} DeniedIsReplied(defaultRole: string, token: string, events: seq<Event>, i: nat)
    requires Inv(Initial(defaultRole, token)) && Legal(Initial(defaultRole, token), events)
    requires i < |Run(Initial(defaultRole, token), events).streams|
    ensures var r := Run(Initial(defaultRole, token), events);
            var f := r.streams[i].f;
            && |r.call| == |r.streams|
            && (r.call[i].Some? && L.ForFunction(r.streams[i]) ==>
                  && f.replies <= 1
                  && (f.replies == 1 ==> DeniedTo(r.w.p.answers, r.call[i].value))
                  && (r.streams[i].alive && DeniedTo(r.w.p.answers, r.call[i].value) ==> f.replies == 1))
  {
    var r := Run(Initial(defaultRole, token), events);
    RunKeepsInv(Initial(defaultRole, token), events);
    EachRequestIsAStream(defaultRole, token, events, i);
    L.RepliesOnceBad(StreamEvents(Initial(defaultRole, token), events, i));
    assert StreamOk(r, i);
    if r.call[i].Some? && DeniedTo(r.w.p.answers, r.call[i].value) {
      DeniedIsNotGranted(r.w, r.call[i].value);
    }
  }

  /** A call that was denied no longer waits and was not granted. */
  lemma {:induction false} DeniedIsNotGranted(w: S.World, n: nat)
    requires Ledger(w.p, w.asks, w.cancelled) && n < |w.asks| && DeniedTo(w.p.answers, n)
    ensures !Waits(w.p, w.asks, n) && forall c :: !GrantedTo(w.p.answers, n, c)
  {
    assert OneFate(w.p, w.asks, w.cancelled, n);
    var j :| 0 <= j < |w.p.answers| && w.p.answers[j].id == n && w.p.answers[j].outcome.Denied?;
    assert w.p.answers[j] in w.p.answers;
  }

  // ---------- Where a request's keys come from ----------

  /** The headers with which a request asks the STS provider, in literal terms. */
  predicate AsksFor(e: Event, i: nat, defaultRole: string, a: Ask) {
    && e.Headers? && e.i == i && e.route.Aws? && e.route.fn.Some? && e.source.Sts?
    && a.disableChaining == e.source.disableChaining
    && a.role == match e.source.roleArg case Some(role) => role case None => defaultRole
  }

  /** A request has a call exactly from its headers on, and the call asks for what they say. */
  lemma {:induction false} StepCalls(s: System, e: Event, i: nat)
    requires Inv(s) && Enabled(s, e) && i < |Step(s, e).call|
    ensures var r := Step(s, e);
            || (i < |s.call| && r.call[i] == s.call[i])
            || r.call[i] == None
            || (&& r.call[i] == Some(|s.w.asks|) && |r.w.asks| == |s.w.asks| + 1
                && AsksFor(e, i, s.w.p.defaultRole, r.w.asks[|s.w.asks|]))
  {
    match e
    case Headers(j, route, end, source) =>
      if AsksSts(route, source) {
        AskStsFrame(s, j, route, end, source);
      }
    case Response(k, body, now, inline) => CompleteFrame(s, S.Response(k, body, now, inline));
    case Failure(k, status) => CompleteFrame(s, S.Failure(k, status));
    case _ =>
  }

  lemma {:induction false} AskedByHeaders(s: System, events: seq<Event>, i: nat) returns (e: Event)
    requires Inv(s) && Legal(s, events) && i < |Run(s, events).call| && Run(s, events).call[i].Some?
    requires i >= |s.call| || s.call[i] == None
    ensures var r := Run(s, events);
            && e in events && r.call[i].value < |r.w.asks|
            && AsksFor(e, i, s.w.p.defaultRole, r.w.asks[r.call[i].value])
    decreases |events|
  {
    var s1, rest := Step(s, events[0]), events[1..];
    StepKeepsInv(s, events[0]);
    StepExtends(s, events[0]);
    assert events == [events[0]] + rest;
    if i < |s1.call| && s1.call[i].Some? {
      StepCalls(s, events[0], i);
      CallStays(s1, rest, i);
      RunExtends(s1, rest);
      e := events[0];
    } else {
      e := AskedByHeaders(s1, rest, i);
    }
  }

  lemma {:induction false} StepKeepsCall(s: System, e: Event, i: nat)
    requires Inv(s) && Enabled(s, e) && i < |s.call| && s.call[i].Some?
    ensures i < |Step(s, e).call| && Step(s, e).call[i] == s.call[i]
  {
    assert StreamOk(s, i);
    match e
    case Headers(j, route, end, source) =>
      if AsksSts(route, source) {
        AskStsFrame(s, j, route, end, source);
      }
    case Response(k, body, now, inline) => CompleteFrame(s, S.Response(k, body, now, inline));
    case Failure(k, status) => CompleteFrame(s, S.Failure(k, status));
    case _ =>
  }

  lemma {:induction false} CallStays(s: System, events: seq<Event>, i: nat)
    requires Inv(s) && Legal(s, events) && i < |s.call| && s.call[i].Some?
    ensures i < |Run(s, events).call| && Run(s, events).call[i] == s.call[i]
    decreases |events|
  {
    if events != [] {
      StepKeepsInv(s, events[0]);
      StepKeepsCall(s, events[0], i);
      CallStays(Step(s, events[0]), events[1..], i);
    }
  }

  /** The response's three keys, each in its place. */
  function KeysOf(body: Body): M.AwsCreds {
    M.AwsCreds(body.accessKey, body.secretKey, body.sessionToken)
  }

  /**
   * In every run none of whose requests share a key, the signature of a request that asked
   * the STS provider was made with the access key, secret key and session token of a
   * response to a fetch for the role, and in the mode, that the request's headers name.
   */
  lemma {:induction false} SignedWithResponseKeys(defaultRole: string, token: string, events: seq<Event>, i: nat)
    returns (headers: Event, response: Event, a: Ask, d: nat)
    requires Inv(Initial(defaultRole, token)) && Legal(Initial(defaultRole, token), events)
    requires V.KeysApart(V.Asked(Run(Initial(defaultRole, token), events).w))
    requires i < |Run(Initial(defaultRole, token), events).streams|
    requires var r := Run(Initial(defaultRole, token), events);
             i < |r.call| && r.call[i].Some? && L.ForFunction(r.streams[i]) && r.streams[i].f.signatures != []
    ensures var r := Run(Initial(defaultRole, token), events);
            && headers in events && AsksFor(headers, i, defaultRole, a)
            && response in events && response.Response?
            && d < |r.w.done| && r.w.done[d].key == response.key && V.FetchedFor(r.w.done, d, defaultRole, a)
            && |r.streams[i].f.signatures| == 1
            && r.streams[i].f.signatures[0].keys == Some(KeysOf(response.body))
  {
    var s0 := Initial(defaultRole, token);
    var r := Run(s0, events);
    SignedWithOwnCredentials(defaultRole, token, events, i);
    RunExtends(s0, events);
    headers := AskedByHeaders(s0, events, i);
    a := r.w.asks[r.call[i].value];
    d :| 0 <= d < |r.w.done| && V.FetchedFor(r.w.done, d, r.w.p.defaultRole, a)
         && r.streams[i].f.signatures == [M.Signature(Some(ToAws(r.w.done[d].creds)),
                                                      L.Expected(r.streams[i].route.fn.value, r.streams[i].body))];
    ProviderRuns(s0, events);
    var seen := ProviderEvents(s0, events);
    var m, n := T.DoneTraced(defaultRole, token, seen, d);
    assert seen[m] in seen;
    ResponsesAreEvents(s0, events, seen[m]);
    response := Response(seen[m].key, seen[m].body, seen[m].time, seen[m].inline);
  }
}

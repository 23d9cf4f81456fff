/**
 * One request through the filter: every interleaving of headers, data chunks,
 * trailers, the answer to the credentials request, and destruction.
 */
module LambdaStream {
  import opened Common
  import opened LambdaModel

  /** What the stream has been told about credentials. */
  datatype Told = Nothing | Good(creds: AwsCreds) | Bad

  /**
   * The filter together with what happened to it: the route, the body bytes
   * received, whether the request ended, and the answer about credentials.
   */
  datatype Stream = Stream(
    f: Filter, started: bool, route: Route, body: string, ended: bool, told: Told, alive: bool)

  const NewStream := Stream(FreshFilter, false, NotAws, "", false, Nothing, true)

  datatype Event =
    | Headers(route: Route, endStream: bool, lookup: Lookup)
    | Data(data: string, last: bool)
    | Trailers
    | Granted(creds: AwsCreds)
    | Refused
    | Destroy

  /**
   * Headers come first and once; the request ends once; credentials are answered
   * only while the filter holds a context; nothing follows destruction.
   */
  predicate Enabled(s: Stream, e: Event) {
    s.alive &&
    match e
    case Headers(_, _, _) => !s.started
    case Data(_, _) => s.started && !s.ended
    case Trailers => s.started && !s.ended
    case Granted(_) => s.f.context
    case Refused => s.f.context
    case Destroy => true
  }

  function Verdict(c: AwsCreds): Told {
    if Usable(c) then Good(c) else Bad
  }

  function ToldBy(lookup: Lookup): Told {
    match lookup
    case Found(c) => Verdict(c)
    case NotFound => Bad
    case Later => Nothing
  }

  function Step(s: Stream, e: Event): Stream
    requires Enabled(s, e) && Inv(s)
  {
    match e
    case Headers(route, end, lookup) =>
      var (f, status) := DecodeHeaders(s.f, route, end, lookup);
      s.(f := Deliver(f, status, ""), started := true, route := route, ended := end,
         told := if route.Aws? && route.fn.Some? then ToldBy(lookup) else Nothing)
    case Data(data, last) =>
      var (f, status, rest) := DecodeData(s.f, data, last);
      s.(f := Deliver(f, status, rest), body := s.body + data, ended := last)
    case Trailers =>
      var (f, status) := DecodeTrailers(s.f);
      s.(f := Deliver(f, status, ""), ended := true)
    case Granted(c) => s.(f := OnSuccess(s.f, c), told := Verdict(c))
    case Refused => s.(f := OnFailure(s.f), told := Bad)
    case Destroy => s.(f := OnDestroy(s.f), alive := false)
  }

  /** The body a function should receive, whatever the chunks and the timing were. */
  function Expected(fn: Function, body: string): string {
    if body != "" then Transformed(fn, body) else DefaultBody(fn) + Transformed(fn, "")
  }

  function Transformed(fn: Function, body: string): string {
    match fn.transformer case Some(t) => t(body) case None => body
  }

  function DefaultBody(fn: Function): string {
    match fn.defaultBody case Some(d) => d case None => ""
  }

  /** The request went upstream once, signed once over exactly what went upstream. */
  predicate SentSigned(s: Stream, fn: Function) {
    && s.f.upstream == Some(Expected(fn, s.body))
    && s.told.Good?
    && s.f.signatures == [Signature(Some(s.told.creds), Expected(fn, s.body))]
  }

  predicate NothingSent(s: Stream) {
    s.f.upstream == None && s.f.signatures == []
  }

  /** What a live filter on a route with a function looks like. */
  ghost predicate FilterOk(s: Stream, fn: Function) {
    && s.f.fn == Some(fn)
    && s.f.endStream == s.ended
    && (s.f.hasBody <==> s.body != "")
    && (s.f.context <==> s.told.Nothing?)
    && s.f.state == (match s.told case Nothing => Calling case Good(_) => Complete case Bad => Responded)
    && (s.told.Nothing? ==> s.f.stopped)
    && (s.told.Good? ==> !s.f.stopped && s.f.keys == Some(s.told.creds))
    && (!s.told.Bad? && !(s.told.Good? && s.ended) ==>
          s.f.buffered == s.body && s.f.hashed == if fn.transformer.Some? then "" else s.body)
  }

  ghost predicate Inv(s: Stream) {
    && (!s.started ==> s.f == if s.alive then FreshFilter else OnDestroy(FreshFilter))
    && (!s.started ==> s.body == "" && s.told.Nothing? && !s.ended)
    && (s.started && !(s.route.Aws? && s.route.fn.Some?) ==>
          s.f.fn == None && !s.f.context && !s.f.stopped && s.f.signatures == [])
    && (s.started && s.route.Aws? && s.route.fn.Some? ==>
          && (s.alive ==> FilterOk(s, s.route.fn.value))
          && (s.told.Good? && s.ended ==> SentSigned(s, s.route.fn.value))
          && (!(s.told.Good? && s.ended) ==> NothingSent(s)))
  }

  /** Finalising with the whole body in the buffer. */
  lemma FinalizeSends(f: Filter, fn: Function, body: string)
    requires f.fn == Some(fn) && (f.hasBody <==> body != "")
    requires f.buffered == body && f.hashed == if fn.transformer.Some? then "" else body
    ensures var r := FinalizeRequest(f);
            && r.buffered == r.hashed == Expected(fn, body)
            && r.signatures == f.signatures + [Signature(f.keys, Expected(fn, body))]
  {
    if body == "" {
      assert "" + DefaultBody(fn) == DefaultBody(fn);
      assert DefaultBody(fn) + "" == DefaultBody(fn);
    }
  }

  /** Finalising, without a transformer, while the last chunk is still on its way to the buffer. */
  lemma FinalizeSendsUnbuffered(f: Filter, fn: Function, body: string, data: string)
    requires f.fn == Some(fn) && fn.transformer.None? && (f.hasBody <==> body + data != "")
    requires f.buffered == body && f.hashed == body + data
    ensures var r := FinalizeRequest(f);
            && r.buffered + data == r.hashed == Expected(fn, body + data)
            && r.signatures == f.signatures + [Signature(f.keys, Expected(fn, body + data))]
  {
    if body + data == "" {
      assert body == "" && data == "";
      assert "" + DefaultBody(fn) == DefaultBody(fn);
      assert DefaultBody(fn) + "" == DefaultBody(fn);
    }
  }

  /** What is known of a stream that asked for this function. */
  ghost predicate FunctionOk(s: Stream, fn: Function) {
    && (s.alive ==> FilterOk(s, fn))
    && (if s.told.Good? && s.ended then SentSigned(s, fn) else NothingSent(s))
  }

  /** The stream after headers for a function. */
  function Asked(fn: Function, end: bool, lookup: Lookup): Stream {
    var (f, status) := DecodeHeaders(FreshFilter, Aws(Some(fn)), end, lookup);
    Stream(Deliver(f, status, ""), true, Aws(Some(fn)), "", end, ToldBy(lookup), true)
  }

  lemma AskedAndFound(fn: Function, c: AwsCreds)
    requires Usable(c)
    ensures FunctionOk(Asked(fn, true, Found(c)), fn)
  {
    FinalizeSends(FreshFilter.(protocolOptions := true, endStream := true, fn := Some(fn), state := Complete,
                               keys := Some(c)), fn, "");
    assert forall b: string :: b + "" == b;
  }

  /** Credentials at hand, or refused, or to come. */
  lemma AskedOk(fn: Function, end: bool, lookup: Lookup)
    ensures FunctionOk(Asked(fn, end, lookup), fn)
  {
    if lookup.Found? && Usable(lookup.creds) && end {
      AskedAndFound(fn, lookup.creds);
    }
  }

  lemma HeadersKeepInv(s: Stream, route: Route, end: bool, lookup: Lookup)
    requires Inv(s) && Enabled(s, Headers(route, end, lookup))
    ensures Inv(Step(s, Headers(route, end, lookup)))
  {
    if route.Aws? && route.fn.Some? {
      AskedOk(route.fn.value, end, lookup);
    }
  }

  /** The last chunk, with a transformer: the buffer is completed before it is transformed. */
  lemma LastDataTransformed(s: Stream, data: string)
    requires Inv(s) && Enabled(s, Data(data, true)) && s.route.Aws? && s.route.fn.Some? && s.told.Good?
    requires s.route.fn.value.transformer.Some?
    ensures Inv(Step(s, Data(data, true)))
  {
    var f := s.f.(endStream := true, hasBody := s.f.hasBody || data != "");
    FinalizeSends(f.(buffered := f.buffered + data), s.route.fn.value, s.body + data);
    assert forall b: string :: b + "" == b;
    assert data == "" ==> f.(buffered := f.buffered + data) == f;
  }

  /** The last chunk, without a transformer: the chunk follows the buffer upstream. */
  lemma LastDataPlain(s: Stream, data: string)
    requires Inv(s) && Enabled(s, Data(data, true)) && s.route.Aws? && s.route.fn.Some? && s.told.Good?
    requires s.route.fn.value.transformer.None?
    ensures Inv(Step(s, Data(data, true)))
  {
    var f := s.f.(endStream := true, hasBody := s.f.hasBody || data != "");
    FinalizeSendsUnbuffered(f.(hashed := f.hashed + data), s.route.fn.value, s.body, data);
  }

  /** The stream after a chunk. */
  function Grown(s: Stream, data: string, last: bool): Stream {
    var (f, status, rest) := DecodeData(s.f, data, last);
    s.(f := Deliver(f, status, rest), body := s.body + data, ended := last)
  }

  /** A chunk that ends nothing, or reaches a filter that waits or has replied. */
  lemma GrownOk(s: Stream, fn: Function, data: string, last: bool)
    requires s.alive && FilterOk(s, fn) && NothingSent(s) && !s.ended && !(s.told.Good? && last)
    ensures FunctionOk(Grown(s, data, last), fn)
  {
    if s.told.Bad? {
      GrownIgnored(s, fn, data, last);
    } else {
      GrownBuffered(s, fn, data, last);
    }
  }

  lemma GrownIgnored(s: Stream, fn: Function, data: string, last: bool)
    requires s.alive && FilterOk(s, fn) && NothingSent(s) && !s.ended && s.told.Bad?
    ensures FunctionOk(Grown(s, data, last), fn)
  {
  }

  lemma GrownBuffered(s: Stream, fn: Function, data: string, last: bool)
    requires s.alive && FilterOk(s, fn) && NothingSent(s) && !s.ended
    requires s.told.Nothing? || (s.told.Good? && !last)
    ensures FunctionOk(Grown(s, data, last), fn)
  {
    assert |s.body + data| == |s.body| + |data|;
  }

  lemma OtherDataKeepsInv(s: Stream, data: string, last: bool)
    requires Inv(s) && Enabled(s, Data(data, last)) && !(s.route.Aws? && s.route.fn.Some?)
    ensures Inv(Step(s, Data(data, last)))
  {
  }

  lemma DataKeepsInv(s: Stream, data: string, last: bool)
    requires Inv(s) && Enabled(s, Data(data, last))
    ensures Inv(Step(s, Data(data, last)))
  {
    if !(s.route.Aws? && s.route.fn.Some?) {
      OtherDataKeepsInv(s, data, last);
    } else if !(s.told.Good? && last) {
      GrownOk(s, s.route.fn.value, data, last);
    } else if s.route.fn.value.transformer.Some? {
      LastDataTransformed(s, data);
    } else {
      LastDataPlain(s, data);
    }
  }

  lemma TrailersKeepInv(s: Stream)
    requires Inv(s) && Enabled(s, Trailers)
    ensures Inv(Step(s, Trailers))
  {
    if s.route.Aws? && s.route.fn.Some? && s.told.Good? {
      FinalizeSends(s.f.(endStream := true), s.route.fn.value, s.body);
      assert forall b: string :: b + "" == b;
    }
  }

  lemma GrantedKeepsInv(s: Stream, c: AwsCreds)
    requires Inv(s) && Enabled(s, Granted(c))
    ensures Inv(Step(s, Granted(c)))
  {
    if Usable(c) && s.ended {
      FinalizeSends(s.f.(context := false, state := Complete, keys := Some(c)), s.route.fn.value, s.body);
    }
  }

  lemma StepKeepsInv(s: Stream, e: Event)
    requires Inv(s) && Enabled(s, e)
    ensures Inv(Step(s, e))
  {
    match e
    case Headers(route, end, lookup) => HeadersKeepInv(s, route, end, lookup);
    case Data(data, last) => DataKeepsInv(s, data, last);
    case Trailers => TrailersKeepInv(s);
    case Granted(c) => GrantedKeepsInv(s, c);
    case Refused =>
    case Destroy =>
  }

  ghost predicate Legal(s: Stream, events: seq<Event>)
    requires Inv(s)
    decreases |events|
  {
    events != [] ==>
      Enabled(s, events[0]) && (StepKeepsInv(s, events[0]); Legal(Step(s, events[0]), events[1..]))
  }

  function Run(s: Stream, events: seq<Event>): Stream
    requires Inv(s) && Legal(s, events)
    decreases |events|
  {
    if events == [] then s else StepKeepsInv(s, events[0]); Run(Step(s, events[0]), events[1..])
  }

  lemma {:induction false} RunKeepsInv(s: Stream, events: seq<Event>)
    requires Inv(s) && Legal(s, events)
    ensures Inv(Run(s, events))
    decreases |events|
  {
    if events != [] {
      StepKeepsInv(s, events[0]);
      RunKeepsInv(Step(s, events[0]), events[1..]);
    }
  }

  /** The request asks for a function of an AWS upstream. */
  predicate ForFunction(s: Stream) {
    s.started && s.route.Aws? && s.route.fn.Some?
  }

  /**
   * However the events interleave: a request for a function is signed at most once,
   * and exactly when both usable credentials and the end of the request have come;
   * nothing goes upstream before that; and what goes upstream, the expected body,
   * is what the signature's payload hash was computed over.
   */
  lemma SignedOnceOverWhatIsSent(events: seq<Event>)
    requires Legal(NewStream, events)
    ensures var r := Run(NewStream, events);
            ForFunction(r) ==>
              && |r.f.signatures| <= 1
              && (|r.f.signatures| == 1 <==> r.told.Good? && r.ended)
              && (r.f.upstream.Some? <==> |r.f.signatures| == 1)
              && (r.f.upstream.Some? ==>
                    && r.f.upstream.value == Expected(r.route.fn.value, r.body)
                    && r.f.signatures[0] == Signature(Some(r.told.creds), r.f.upstream.value))
  {
    RunKeepsInv(NewStream, events);
  }

  /** While the filter waits for credentials it holds a context; otherwise it holds none. */
  lemma ContextWhileCalling(events: seq<Event>)
    requires Legal(NewStream, events)
    ensures var r := Run(NewStream, events);
            && (r.alive ==> (r.f.context <==> ForFunction(r) && r.told.Nothing?))
            && (r.alive && ForFunction(r) ==> (r.f.state == Calling <==> r.f.context))
  {
    RunKeepsInv(NewStream, events);
  }

  // ---------- AWS routes that name no function ----------

  /** A stream on such a route: what it lets through, unsigned, is every chunk it has had. */
  ghost predicate Unnamed(s: Stream, data: bool) {
    && s.started && s.route == Aws(None) && s.f.fn == None && s.f.buffered == s.body
    && (s.alive ==> s.f.state == Responded)
    && s.f.signatures == [] && s.f.upstream == if data then Some(s.body) else None
  }

  ghost predicate HasData(events: seq<Event>) {
    exists e :: e in events && e.Data?
  }

  lemma UnnamedStep(s: Stream, e: Event, data: bool)
    requires Inv(s) && Enabled(s, e) && Unnamed(s, data)
    ensures Unnamed(Step(s, e), data || e.Data?)
  {
  }

  lemma {:induction false} UnnamedRun(s: Stream, events: seq<Event>, data: bool)
    requires Inv(s) && Legal(s, events) && Unnamed(s, data)
    ensures Unnamed(Run(s, events), data || HasData(events))
    decreases |events|
  {
    if events != [] {
      var rest := events[1..];
      UnnamedStep(s, events[0], data);
      StepKeepsInv(s, events[0]);
      UnnamedRun(Step(s, events[0]), rest, data || events[0].Data?);
      assert forall e :: e in events <==> e == events[0] || e in rest;
    }
  }

  lemma {:induction false} RouteStays(s: Stream, events: seq<Event>)
    requires Inv(s) && Legal(s, events) && (s.started || !s.alive)
    ensures Run(s, events).route == s.route && Run(s, events).started == s.started
    decreases |events|
  {
    if events != [] {
      StepKeepsInv(s, events[0]);
      RouteStays(Step(s, events[0]), events[1..]);
    }
  }

  lemma UnnamedFromTheStart(events: seq<Event>)
    requires Legal(NewStream, events) && Run(NewStream, events).route == Aws(None)
    ensures Unnamed(Run(NewStream, events), HasData(events))
  {
    StepKeepsInv(NewStream, events[0]);
    var s := Step(NewStream, events[0]);
    RouteStays(s, events[1..]);
    UnnamedRun(s, events[1..], false);
    assert forall e :: e in events <==> e == events[0] || e in events[1..];
  }

  /**
   * On an AWS route something goes upstream without a signature exactly if the route
   * names no function and the request has a body chunk; it is then the whole body.
   */
  lemma DataContinuesUnsignedExactly(events: seq<Event>)
    requires Legal(NewStream, events)
    ensures var r := Run(NewStream, events);
            r.route.Aws? ==>
              && (r.f.upstream.Some? && r.f.signatures == [] <==> r.route.fn.None? && HasData(events))
              && (r.route.fn.None? && HasData(events) ==> r.f.upstream == Some(r.body))
  {
    RunKeepsInv(NewStream, events);
    var r := Run(NewStream, events);
    if r.route == Aws(None) {
      UnnamedFromTheStart(events);
    } else if r.route.Aws? {
      RouteMeansStarted(events);
    }
  }

  lemma RouteMeansStarted(events: seq<Event>)
    requires Legal(NewStream, events) && Run(NewStream, events).route.Aws?
    ensures Run(NewStream, events).started
  {
    StepKeepsInv(NewStream, events[0]);
    RouteStays(Step(NewStream, events[0]), events[1..]);
  }

  /** The shortest such run: the local reply is out, and the chunk goes upstream all the same. */
  lemma UnsignedChunk(data: string, last: bool, lookup: Lookup)
    ensures var events := [Headers(Aws(None), false, lookup), Data(data, last)];
            && Legal(NewStream, events)
            && var f := Run(NewStream, events).f;
               f.replies == 1 && f.upstream == Some(data) && f.signatures == []
  {
    var headers, chunk := Headers(Aws(None), false, lookup), Data(data, last);
    StepKeepsInv(NewStream, headers);
    var s := Step(NewStream, headers);
    StepKeepsInv(s, chunk);
    assert [headers, chunk][1..] == [chunk] && [chunk][1..] == [];
    assert "" + data == data;
    assert Run(s, [chunk]) == Step(s, chunk);
  }

  // ---------- The run told from its events ----------

  /** The body chunks of the events, in order. */
  function Chunks(events: seq<Event>): string {
    if events == [] then ""
    else (if events[0].Data? then events[0].data else "") + Chunks(events[1..])
  }

  predicate Ends(e: Event) {
    match e
    case Headers(_, endStream, _) => endStream
    case Data(_, last) => last
    case Trailers => true
    case _ => false
  }

  /** The event brings the request these credentials, with both keys there. */
  predicate BringsKeys(e: Event, c: AwsCreds) {
    && (e == Granted(c) || (e.Headers? && e.route.Aws? && e.route.fn.Some? && e.lookup == Found(c)))
    && c.accessKey.Some? && c.secretKey.Some?
  }

  predicate LacksAKey(c: AwsCreds) {
    c.accessKey.None? || c.secretKey.None?
  }

  /** The event leaves the request without a function, or without credentials it could be signed with. */
  predicate Hopeless(e: Event) {
    match e
    case Headers(Aws(None), _, _) => true
    case Headers(Aws(Some(_)), _, NotFound) => true
    case Headers(Aws(Some(_)), _, Found(c)) => LacksAKey(c)
    case Granted(c) => LacksAKey(c)
    case Refused => true
    case _ => false
  }

  /** One reply, and exactly once there is no function, or no credentials to be had. */
  predicate Replied(s: Stream, hopeless: bool) {
    && s.f.replies == (if hopeless then 1 else 0)
    && (hopeless <==> s.started && (s.route == Aws(None) || (ForFunction(s) && s.told.Bad?)))
  }

  lemma {:induction false} HeadersReplied(s: Stream, route: Route, end: bool, lookup: Lookup)
    requires Inv(s) && Enabled(s, Headers(route, end, lookup))
    ensures Replied(Step(s, Headers(route, end, lookup)), Hopeless(Headers(route, end, lookup)))
  {
  }

  lemma {:induction false} FinalizeReplies(f: Filter)
    requires f.fn.Some?
    ensures FinalizeRequest(f).replies == f.replies
  {
  }

  lemma {:induction false} DataReplies(f: Filter, data: string, last: bool)
    ensures DecodeData(f, data, last).0.replies == f.replies
  {
    var g := f.(endStream := last, hasBody := f.hasBody || data != "");
    if f.fn.None? {
    } else if Transforms(f) {
      if g.hasBody {
        FinalizeReplies(g.(buffered := g.buffered + data));
      } else {
        FinalizeReplies(g);
      }
    } else {
      FinalizeReplies(g.(hashed := g.hashed + data));
    }
  }

  lemma {:induction false} TrailersReplies(f: Filter)
    ensures DecodeTrailers(f).0.replies == f.replies
  {
    if f.fn.Some? {
      FinalizeReplies(f.(endStream := true));
    }
  }

  lemma {:induction false} BodyReplied(s: Stream, e: Event, hopeless: bool)
    requires Inv(s) && Enabled(s, e) && Replied(s, hopeless) && (e.Data? || e.Trailers?)
    ensures Replied(Step(s, e), hopeless)
  {
    if e.Data? {
      DataReplies(s.f, e.data, e.last);
    } else {
      TrailersReplies(s.f);
    }
  }

  lemma {:induction false} AnswerReplied(s: Stream, e: Event, hopeless: bool)
    requires Inv(s) && Enabled(s, e) && Replied(s, hopeless) && (e.Granted? || e.Refused?)
    ensures !hopeless && Replied(Step(s, e), Hopeless(e))
  {
    if e.Granted? {
      GrantedReplies(s.f, e.creds);
    }
  }

  lemma {:induction false} StepReplied(s: Stream, e: Event, hopeless: bool)
    requires Inv(s) && Enabled(s, e) && Replied(s, hopeless)
    ensures Replied(Step(s, e), hopeless || Hopeless(e))
  {
    match e
    case Headers(route, end, lookup) => HeadersReplied(s, route, end, lookup);
    case Destroy =>
    case Data(_, _) => BodyReplied(s, e, hopeless);
    case Trailers => BodyReplied(s, e, hopeless);
    case Granted(_) => AnswerReplied(s, e, hopeless);
    case Refused => AnswerReplied(s, e, hopeless);
  }

  lemma {:induction false} GrantedReplies(f: Filter, c: AwsCreds)
    requires f.stopped ==> f.fn.Some?
    ensures OnSuccess(f, c).replies == f.replies + if LacksAKey(c) then 1 else 0
  {
  }

  ghost predicate AnyHopeless(events: seq<Event>) {
    exists e :: e in events && Hopeless(e)
  }

  lemma {:induction false} RunReplied(s: Stream, events: seq<Event>, hopeless: bool)
    requires Inv(s) && Legal(s, events) && Replied(s, hopeless)
    ensures Replied(Run(s, events), hopeless || AnyHopeless(events))
    decreases |events|
  {
    if events != [] {
      var rest := events[1..];
      StepReplied(s, events[0], hopeless);
      StepKeepsInv(s, events[0]);
      RunReplied(Step(s, events[0]), rest, hopeless || Hopeless(events[0]));
      assert forall e :: e in events <==> e == events[0] || e in rest;
    }
  }

  /**
   * However the events interleave, the client gets one local reply if the route names no
   * function, or the credentials were refused or lack an access key or a secret key, and
   * none otherwise.
   */
  lemma RepliesExactly(events: seq<Event>)
    requires Legal(NewStream, events)
    ensures Run(NewStream, events).f.replies
         == if exists e :: e in events && Hopeless(e) then 1 else 0
  {
    RunReplied(NewStream, events, false);
  }

  /** The same in terms of what the stream has been told. */
  lemma RepliesOnceBad(events: seq<Event>)
    requires Legal(NewStream, events)
    ensures var r := Run(NewStream, events);
            r.f.replies == if r.started && (r.route == Aws(None) || (ForFunction(r) && r.told.Bad?)) then 1 else 0
  {
    RunReplied(NewStream, events, false);
  }

  /** What the record of the run says, in terms of the events since s. */
  ghost predicate Recorded(s: Stream, events: seq<Event>, r: Stream) {
    && r.body == s.body + Chunks(events)
    && (r.ended <==> s.ended || exists e :: e in events && Ends(e))
    && (r.told.Good? <==> s.told.Good? || exists e, c :: e in events && BringsKeys(e, c))
    && (r.told.Good? ==> s.told == r.told || exists e :: e in events && BringsKeys(e, r.told.creds))
  }

  lemma {:induction false} StepRecorded(s: Stream, e: Event)
    requires Inv(s) && Enabled(s, e)
    ensures var r := Step(s, e);
            && r.body == s.body + (if e.Data? then e.data else "")
            && (r.ended <==> s.ended || Ends(e))
            && (r.told.Good? <==> s.told.Good? || exists c :: BringsKeys(e, c))
            && (r.told.Good? ==> s.told == r.told || BringsKeys(e, r.told.creds))
  {
    match e
    case Headers(route, end, lookup) =>
      if lookup.Found? && route.Aws? && route.fn.Some? && Usable(lookup.creds) {
        assert BringsKeys(e, lookup.creds);
      }
    case Granted(c) =>
      if Usable(c) {
        assert BringsKeys(e, c);
      }
    case _ =>
  }

  lemma {:induction false} RunRecorded(s: Stream, events: seq<Event>)
    requires Inv(s) && Legal(s, events)
    ensures Recorded(s, events, Run(s, events))
    decreases |events|
  {
    if events != [] {
      StepRecorded(s, events[0]);
      StepKeepsInv(s, events[0]);
      RunRecorded(Step(s, events[0]), events[1..]);
      RecordsAdd(s, Step(s, events[0]), events, Run(s, events));
    }
  }

  lemma {:induction false} RecordsAdd(s: Stream, m: Stream, events: seq<Event>, r: Stream)
    requires Inv(s) && events != [] && Enabled(s, events[0]) && m == Step(s, events[0])
    requires Recorded(m, events[1..], r)
    ensures Recorded(s, events, r)
  {
    var e, rest := events[0], events[1..];
    StepRecorded(s, e);
    assert forall x :: x in events <==> x == e || x in rest;
  }

  /**
   * The same in terms of the events alone: a request for a function is signed and sent
   * exactly once its end and credentials with both keys have come, over what its chunks
   * make up, with those credentials.
   */
  lemma SentExactly(events: seq<Event>, fn: Function, end: bool, lookup: Lookup)
    requires Legal(NewStream, events) && Headers(Aws(Some(fn)), end, lookup) in events
    ensures var f := Run(NewStream, events).f;
            if (exists e :: e in events && Ends(e)) && (exists e, c :: e in events && BringsKeys(e, c)) then
              exists e, c :: e in events && BringsKeys(e, c)
                && f.upstream == Some(Expected(fn, Chunks(events)))
                && f.signatures == [Signature(Some(c), Expected(fn, Chunks(events)))]
            else f.upstream == None && f.signatures == []
  {
    RunKeepsInv(NewStream, events);
    RunRecorded(NewStream, events);
    RouteOfTheHeaders(NewStream, events, Headers(Aws(Some(fn)), end, lookup));
    assert "" + Chunks(events) == Chunks(events);
  }

  lemma {:induction false} RouteOfTheHeaders(s: Stream, events: seq<Event>, h: Event)
    requires Inv(s) && Legal(s, events) && h in events && h.Headers?
    ensures Run(s, events).started && Run(s, events).route == h.route
    decreases |events|
  {
    var e, rest := events[0], events[1..];
    StepKeepsInv(s, e);
    if e == h {
      RouteStays(Step(s, e), rest);
    } else {
      RouteOfTheHeaders(Step(s, e), rest, h);
    }
  }

  // ---------- Routes that are not for AWS ----------

  lemma {:induction false} ForeignStep(s: Stream, e: Event)
    requires Inv(s) && Enabled(s, e) && Foreign(s)
    ensures Foreign(Step(s, e))
  {
  }

  /** A stream the filter leaves alone: all its body goes upstream. */
  predicate Foreign(s: Stream) {
    && s.started && s.route == NotAws && s.f.fn == None && s.f.buffered == s.body
    && (s.alive ==> s.f.state == Init)
    && s.f.signatures == [] && s.f.replies == 0 && s.f.upstream == Some(s.body)
  }

  lemma {:induction false} ForeignRun(s: Stream, events: seq<Event>)
    requires Inv(s) && Legal(s, events) && Foreign(s)
    ensures Foreign(Run(s, events))
    decreases |events|
  {
    if events != [] {
      ForeignStep(s, events[0]);
      StepKeepsInv(s, events[0]);
      ForeignRun(Step(s, events[0]), events[1..]);
    }
  }

  /** On a route that is not for AWS no reply is sent, nothing is signed, and all chunks go upstream. */
  lemma NotAwsPassesThrough(events: seq<Event>, end: bool, lookup: Lookup)
    requires Legal(NewStream, events) && Headers(NotAws, end, lookup) in events
    ensures var f := Run(NewStream, events).f;
            f.replies == 0 && f.signatures == [] && f.upstream == Some(Chunks(events))
  {
    var h := Headers(NotAws, end, lookup);
    HeadersComeFirst(events, h);
    StepKeepsInv(NewStream, h);
    ForeignRun(Step(NewStream, h), events[1..]);
    RunRecorded(NewStream, events);
    assert "" + Chunks(events) == Chunks(events);
  }

  /** Before the headers only the destruction of the filter can come, and then nothing follows. */
  lemma HeadersComeFirst(events: seq<Event>, h: Event)
    requires Legal(NewStream, events) && h in events && h.Headers?
    ensures events[0] == h
  {
    StepKeepsInv(NewStream, events[0]);
    if events[0] != h {
      HeadersComeOnce(Step(NewStream, events[0]), events[1..], h);
    }
  }

  lemma {:induction false} HeadersComeOnce(s: Stream, events: seq<Event>, h: Event)
    requires Inv(s) && Legal(s, events) && (s.started || !s.alive) && h.Headers?
    ensures h !in events
    decreases |events|
  {
    if events != [] {
      StepKeepsInv(s, events[0]);
      HeadersComeOnce(Step(s, events[0]), events[1..], h);
    }
  }

  // ---------- Content-Length ----------

  /** The Content-Length the filter leaves on a request it has sent. */
  function LengthLeft(fn: Function, body: string): Option<nat> {
    if fn.transformer.Some? then Some(|Transformed(fn, body)|)
    else if body == "" && fn.defaultBody.Some? then Some(|DefaultBody(fn)|)
    else None
  }

  predicate LengthOk(s: Stream) {
    s.f.contentLength ==
      if ForFunction(s) && s.told.Good? && s.ended then LengthLeft(s.route.fn.value, s.body) else None
  }

  lemma FinalizeLength(f: Filter, fn: Function, body: string)
    requires f.fn == Some(fn) && (f.hasBody <==> body != "") && f.contentLength == None
    requires fn.transformer.Some? ==> f.buffered == body
    ensures FinalizeRequest(f).contentLength == LengthLeft(fn, body)
  {
    if fn.transformer.Some? {
      TransformLength(HandleDefaultBody(f), fn, body);
    }
  }

  lemma TransformLength(f: Filter, fn: Function, body: string)
    requires f.fn == Some(fn) && fn.transformer.Some? && (f.hasBody <==> body != "")
    requires body != "" ==> f.buffered == body
    ensures TransformRequest(f).contentLength == Some(|Transformed(fn, body)|)
  {
  }

  lemma StepKeepsLength(s: Stream, e: Event)
    requires Inv(s) && LengthOk(s) && Enabled(s, e)
    ensures LengthOk(Step(s, e))
  {
    match e
    case Headers(route, end, lookup) => HeadersLength(s, route, end, lookup);
    case Data(data, last) =>
      if ForFunction(s) && s.told.Good? && last {
        DataLength(s, data);
      }
    case Trailers => TrailersLength(s);
    case Granted(c) => GrantedLength(s, c);
    case Refused =>
    case Destroy =>
  }

  lemma TrailersLength(s: Stream)
    requires Inv(s) && LengthOk(s) && Enabled(s, Trailers)
    ensures LengthOk(Step(s, Trailers))
  {
    if ForFunction(s) && s.told.Good? {
      FinalizeLength(s.f.(endStream := true), s.route.fn.value, s.body);
    }
  }

  lemma GrantedLength(s: Stream, c: AwsCreds)
    requires Inv(s) && LengthOk(s) && Enabled(s, Granted(c))
    ensures LengthOk(Step(s, Granted(c)))
  {
    if Usable(c) && s.ended {
      FinalizeLength(s.f.(context := false, state := Complete, keys := Some(c)), s.route.fn.value, s.body);
    }
  }

  lemma HeadersLength(s: Stream, route: Route, end: bool, lookup: Lookup)
    requires Inv(s) && LengthOk(s) && Enabled(s, Headers(route, end, lookup))
    ensures LengthOk(Step(s, Headers(route, end, lookup)))
  {
    if route.Aws? && route.fn.Some? && lookup.Found? && end {
      FinalizeLength(FreshFilter.(protocolOptions := true, endStream := true, fn := route.fn, state := Complete,
                                  keys := Some(lookup.creds)), route.fn.value, "");
    }
  }

  lemma DataLength(s: Stream, data: string)
    requires Inv(s) && LengthOk(s) && Enabled(s, Data(data, true)) && ForFunction(s) && s.told.Good?
    ensures LengthOk(Step(s, Data(data, true)))
  {
    var fn := s.route.fn.value;
    var f := s.f.(endStream := true, hasBody := s.f.hasBody || data != "");
    if fn.transformer.Some? {
      FinalizeLength(f.(buffered := f.buffered + data), fn, s.body + data);
      assert data == "" ==> f.(buffered := f.buffered + data) == f;
    } else {
      FinalizeLength(f.(hashed := f.hashed + data), fn, s.body + data);
    }
  }

  lemma {:induction false} RunKeepsLength(s: Stream, events: seq<Event>)
    requires Inv(s) && LengthOk(s) && Legal(s, events)
    ensures LengthOk(Run(s, events))
    decreases |events|
  {
    if events != [] {
      StepKeepsInv(s, events[0]);
      StepKeepsLength(s, events[0]);
      RunKeepsLength(Step(s, events[0]), events[1..]);
    }
  }

  /**
   * In every run the filter writes a Content-Length exactly on a request it sends with a
   * transformer or with the default body, and it is the length of what it sends except
   * on a bodiless request with both a non-empty default body and a transformer: the
   * transformer runs on an empty buffer and its length replaces the sum.
   */
  lemma ContentLengthExactly(events: seq<Event>)
    requires Legal(NewStream, events)
    ensures var r := Run(NewStream, events);
            ForFunction(r) ==>
              var fn := r.route.fn.value;
              && (r.f.contentLength.Some? <==>
                    r.f.upstream.Some? && (fn.transformer.Some? || (r.body == "" && fn.defaultBody.Some?)))
              && (r.f.contentLength.Some? ==>
                    (r.f.contentLength.value == |r.f.upstream.value| <==>
                       r.body != "" || DefaultBody(fn) == "" || fn.transformer.None?))
  {
    RunKeepsInv(NewStream, events);
    RunKeepsLength(NewStream, events);
  }

  /** Such a request: headers only, with credentials at hand. */
  lemma LengthTooShort(d: string, t: string -> string, c: AwsCreds)
    requires d != "" && Usable(c)
    ensures var events := [Headers(Aws(Some(Function(Some(d), Some(t)))), true, Found(c))];
            && Legal(NewStream, events)
            && var f := Run(NewStream, events).f;
               && f.upstream == Some(d + t("")) && f.contentLength == Some(|t("")|)
               && f.contentLength.value < |f.upstream.value|
  {
    var headers := Headers(Aws(Some(Function(Some(d), Some(t)))), true, Found(c));
    StepKeepsInv(NewStream, headers);
    StepKeepsLength(NewStream, headers);
    assert [headers][1..] == [];
    assert Run(NewStream, [headers]) == Step(NewStream, headers);
  }
}

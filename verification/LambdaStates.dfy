/**
 * The filter's remaining fields over whole streams: its state, whether it is on an AWS
 * route at all, and what it keeps of the body of a request that it has replied to.
 */
module LambdaStates {
  import opened Common
  import opened LambdaModel
  import opened LambdaStream

  // ---------- The state ----------

  /** The state that the stream's story gives. */
  function StateOf(s: Stream): State {
    if !s.alive then Destroyed
    else if !s.started || s.route.NotAws? then Init
    else if s.route.fn.None? || s.told.Bad? then Responded
    else if s.told.Nothing? then Calling
    else Complete
  }

  predicate StateOk(s: Stream) {
    s.f.state == StateOf(s) && (s.f.protocolOptions <==> s.started && s.route.Aws?)
  }

  lemma {:induction false} FinalizeKeepsState(f: Filter)
    requires f.fn.Some?
    ensures FinalizeRequest(f).state == f.state && FinalizeRequest(f).protocolOptions == f.protocolOptions
  {
  }

  lemma {:induction false} DataKeepsState(f: Filter, data: string, last: bool)
    ensures var r := DecodeData(f, data, last).0; r.state == f.state && r.protocolOptions == f.protocolOptions
  {
    var g := f.(endStream := last, hasBody := f.hasBody || data != "");
    if f.fn.None? {
    } else if Transforms(f) {
      if g.hasBody {
        FinalizeKeepsState(g.(buffered := g.buffered + data));
      } else {
        FinalizeKeepsState(g);
      }
    } else {
      FinalizeKeepsState(g.(hashed := g.hashed + data));
    }
  }

  lemma {:induction false} BodyKeepsState(s: Stream, e: Event)
    requires Inv(s) && Enabled(s, e) && (e.Data? || e.Trailers?) && StateOk(s)
    ensures StateOk(Step(s, e))
  {
    if e.Data? {
      DataKeepsState(s.f, e.data, e.last);
    } else if s.f.fn.Some? {
      FinalizeKeepsState(s.f.(endStream := true));
    }
  }

  lemma {:induction false} HeadersSetState(s: Stream, e: Event)
    requires Inv(s) && Enabled(s, e) && e.Headers?
    ensures StateOk(Step(s, e))
  {
  }

  lemma {:induction false} AnswerSetsState(s: Stream, e: Event)
    requires Inv(s) && Enabled(s, e) && (e.Granted? || e.Refused?) && StateOk(s)
    ensures StateOk(Step(s, e))
  {
  }

  lemma {:induction false} StepKeepsState(s: Stream, e: Event)
    requires Inv(s) && Enabled(s, e) && StateOk(s)
    ensures StateOk(Step(s, e))
  {
    match e
    case Headers(_, _, _) => HeadersSetState(s, e);
    case Data(_, _) => BodyKeepsState(s, e);
    case Trailers => BodyKeepsState(s, e);
    case Granted(_) => AnswerSetsState(s, e);
    case Refused => AnswerSetsState(s, e);
    case Destroy =>
  }

  lemma {:induction false} RunKeepsState(s: Stream, events: seq<Event>)
    requires Inv(s) && Legal(s, events) && StateOk(s)
    ensures StateOk(Run(s, events))
    decreases |events|
  {
    if events != [] {
      StepKeepsState(s, events[0]);
      StepKeepsInv(s, events[0]);
      RunKeepsState(Step(s, events[0]), events[1..]);
    }
  }

  /**
   * After every run the state is what happened: destroyed; untouched without an AWS route;
   * replied without a function or usable credentials; waiting for credentials; or complete.
   */
  lemma {:induction false} StateExactly(events: seq<Event>)
    requires Legal(NewStream, events)
    ensures var r := Run(NewStream, events);
            r.f.state == StateOf(r) && (r.f.protocolOptions <==> r.started && r.route.Aws?)
  {
    RunKeepsState(NewStream, events);
  }

  // ---------- What is kept after a reply ----------

  /** The chunks before the event that leaves the request without credentials. */
  function ChunksBeforeReply(events: seq<Event>): string {
    if events == [] || Hopeless(events[0]) then ""
    else (if events[0].Data? then events[0].data else "") + ChunksBeforeReply(events[1..])
  }

  predicate Waiting(s: Stream) {
    !s.started || (ForFunction(s) && s.told.Nothing?)
  }

  lemma {:induction false} RepliedKeeps(s: Stream, e: Event)
    requires Inv(s) && Enabled(s, e) && ForFunction(s) && s.told.Bad?
    ensures var r := Step(s, e); ForFunction(r) && r.told.Bad? && r.f.buffered == s.f.buffered
  {
  }

  lemma {:induction false} RunKeepsBuffer(s: Stream, events: seq<Event>)
    requires Inv(s) && Legal(s, events) && ForFunction(s) && s.told.Bad?
    ensures Run(s, events).f.buffered == s.f.buffered
    decreases |events|
  {
    if events != [] {
      RepliedKeeps(s, events[0]);
      StepKeepsInv(s, events[0]);
      RunKeepsBuffer(Step(s, events[0]), events[1..]);
    }
  }

  /** What one step makes of a stream that waits. */
  lemma {:induction false} WaitingBuffers(s: Stream, e: Event)
    requires Inv(s) && Enabled(s, e) && Waiting(s)
    ensures var r := Step(s, e);
            if ForFunction(r) && r.told.Bad? then Hopeless(e) && r.f.buffered == s.f.buffered
            else if Waiting(r) then
              !Hopeless(e) && r.f.buffered == s.f.buffered + if e.Data? then e.data else ""
            else r.started && !(ForFunction(r) && r.told.Bad?)
  {
    if e.Data? {
      WaitingTakesData(s.f, e.data, e.last);
    }
  }

  lemma {:induction false} WaitingTakesData(f: Filter, data: string, last: bool)
    requires f.fn.Some? && f.state == Calling
    ensures var (r, status, rest) := DecodeData(f, data, last);
            r.buffered == f.buffered && status == StopIterationAndBuffer && rest == data
  {
  }

  /** Credentials are told of once. */
  lemma {:induction false} ToldStays(s: Stream, events: seq<Event>)
    requires Inv(s) && Legal(s, events) && s.started && !Waiting(s)
    ensures Run(s, events).route == s.route && Run(s, events).told == s.told
    decreases |events|
  {
    if events != [] {
      StepKeepsInv(s, events[0]);
      ToldStays(Step(s, events[0]), events[1..]);
    }
  }

  lemma {:induction false} RunBuffersUntilReply(s: Stream, events: seq<Event>)
    requires Inv(s) && Legal(s, events) && Waiting(s)
    requires ForFunction(Run(s, events)) && Run(s, events).told.Bad?
    ensures Run(s, events).f.buffered == s.f.buffered + ChunksBeforeReply(events)
    decreases |events|
  {
    if events != [] {
      var r := Step(s, events[0]);
      WaitingBuffers(s, events[0]);
      StepKeepsInv(s, events[0]);
      if ForFunction(r) && r.told.Bad? {
        RunKeepsBuffer(r, events[1..]);
      } else if Waiting(r) {
        RunBuffersUntilReply(r, events[1..]);
      } else {
        ToldStays(r, events[1..]);
      }
    }
  }

  /**
   * A request that was replied to for want of credentials keeps the chunks that had come
   * by then, and none that come later.
   */
  lemma {:induction false} NothingBufferedAfterReply(events: seq<Event>)
    requires Legal(NewStream, events)
    ensures var r := Run(NewStream, events);
            ForFunction(r) && r.told.Bad? ==> r.f.buffered == ChunksBeforeReply(events) && r.f.upstream == None
  {
    var r := Run(NewStream, events);
    RunKeepsInv(NewStream, events);
    if ForFunction(r) && r.told.Bad? {
      RunBuffersUntilReply(NewStream, events);
      assert "" + ChunksBeforeReply(events) == ChunksBeforeReply(events);
    }
  }
}

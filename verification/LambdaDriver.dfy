/**
 * The filter object driven through a whole stream, event by event: it ends in the state
 * the stream ends in, so what LambdaStream proves of streams holds of the object.
 */
module LambdaDriver {
  import opened Common
  import opened LambdaModel
  import opened LambdaFilter
  import L = LambdaStream

  /** What Envoy does with the status a callback returns. */
  method Act(callbacks: DecoderCallbacks, status: Status, rest: string)
    modifies callbacks
    ensures callbacks.replies == old(callbacks.replies)
    ensures callbacks.buffered == old(callbacks.buffered)
                                  + if status == Continue || status == StopIterationAndBuffer then rest else ""
    ensures callbacks.upstream == if status == Continue then Some(callbacks.buffered) else old(callbacks.upstream)
  {
    if status == Continue || status == StopIterationAndBuffer {
      callbacks.AddDecodedData(rest);
    } else {
      assert callbacks.buffered + "" == callbacks.buffered;
    }
    if status == Continue {
      callbacks.ContinueDecoding();
    }
  }

  method HandleHeaders(filter: AwsLambdaFilter, route: Route, end: bool, lookup: Lookup)
    requires filter.View() == FreshFilter
    modifies filter, filter.callbacks
    ensures var (f, status) := DecodeHeaders(FreshFilter, route, end, lookup); filter.View() == Deliver(f, status, "")
  {
    var status := filter.DecodeHeaders(route, end, lookup);
    assert filter.callbacks.buffered + "" == filter.callbacks.buffered;
    Act(filter.callbacks, status, "");
  }

  method HandleData(filter: AwsLambdaFilter, data: string, last: bool)
    modifies filter, filter.callbacks
    ensures var (f, status, rest) := DecodeData(old(filter.View()), data, last);
            filter.View() == Deliver(f, status, rest)
  {
    var status, rest := filter.DecodeData(data, last);
    assert filter.callbacks.buffered + "" == filter.callbacks.buffered;
    Act(filter.callbacks, status, rest);
  }

  method HandleTrailers(filter: AwsLambdaFilter)
    modifies filter, filter.callbacks
    ensures var (f, status) := DecodeTrailers(old(filter.View())); filter.View() == Deliver(f, status, "")
  {
    var status := filter.DecodeTrailers();
    assert filter.callbacks.buffered + "" == filter.callbacks.buffered;
    Act(filter.callbacks, status, "");
  }

  /** One event reaches the filter. */
  method Handle(filter: AwsLambdaFilter, e: L.Event, ghost s: L.Stream)
    requires filter.View() == s.f && L.Inv(s) && L.Enabled(s, e)
    modifies filter, filter.callbacks
    ensures filter.View() == L.Step(s, e).f
  {
    match e {
      case Headers(route, end, lookup) => HandleHeaders(filter, route, end, lookup);
      case Data(data, last) => HandleData(filter, data, last);
      case Trailers => HandleTrailers(filter);
      case Granted(c) => filter.OnSuccess(c);
      case Refused => filter.OnFailure();
      case Destroy =>
        var cancel := filter.OnDestroy();
    }
  }

  /** From s on, the stream has the events from n on to go, and ends in `last`. */
  ghost predicate ToGo(s: L.Stream, events: seq<L.Event>, n: nat, last: L.Stream) {
    n <= |events| && L.Inv(s) && L.Legal(s, events[n..]) && L.Run(s, events[n..]) == last
  }

  lemma {:induction false} OneLessToGo(s: L.Stream, events: seq<L.Event>, n: nat, last: L.Stream)
    requires n < |events| && ToGo(s, events, n, last)
    ensures L.Enabled(s, events[n]) && ToGo(L.Step(s, events[n]), events, n + 1, last)
  {
    L.StepKeepsInv(s, events[n]);
    assert events[n..][0] == events[n] && events[n..][1..] == events[n + 1..];
  }

  /** A fresh filter through any legal stream. */
  method Drive(events: seq<L.Event>) returns (filter: AwsLambdaFilter)
    requires L.Legal(L.NewStream, events)
    ensures filter.View() == L.Run(L.NewStream, events).f
  {
    var callbacks := new DecoderCallbacks();
    filter := new AwsLambdaFilter(callbacks);
    ghost var s := L.NewStream;
    ghost var last := L.Run(L.NewStream, events);
    assert events[0..] == events;
    for n := 0 to |events|
      invariant fresh(filter) && fresh(filter.callbacks) && filter.View() == s.f
      invariant ToGo(s, events, n, last)
    {
      OneLessToGo(s, events, n, last);
      Handle(filter, events[n], s);
      s := L.Step(s, events[n]);
    }
  }
}

/**
 * Which callback a request gets, told from the events alone: a timer that fires, or a
 * payload line for its inbox and what is in it.
 */
module NatsCalls {
  import opened Common
  import opened NatsModel
  import opened NatsRuns
  import opened NatsSends
  import S = NatsSystem

  /** Event n is a well-formed ack for the inbox: the payload, not empty, of a frame without reply subject. */
  predicate Acks(events: seq<Event>, n: nat, inbox: string)
    requires n < |events|
  {
    events[n].Line? && events[n].text != "" && Due(events, n) == Some(Frame(inbox, None))
  }

  /** The callbacks that event n makes. */
  ghost function Calls(env: Env, events: seq<Event>, n: nat): seq<Callback>
    requires IsRun(env, events) && n < |events|
  {
    var c := Before(env, events, n).c;
    match events[n]
    case Timeout(x) => if x in c.inFlight then [Callback(x, c.inFlight[x], TimedOut)] else []
    case Line(text, _) =>
      (match Due(events, n)
       case Some(Frame(x, None)) =>
         if x !in c.inFlight || text == "" then []
         else if env.ackError(text) == Some("") then [Callback(x, c.inFlight[x], Response)]
         else [Callback(x, c.inFlight[x], Failed)]
       case _ => [])
    case _ => []
  }

  /** Requests fly under inboxes that are neither the heartbeat's nor the connect response's. */
  lemma {:induction false} FlightsAreAcks(env: Env, w: World, x: string)
    requires Inv(env, w) && x in w.c.inFlight
    ensures x != HeartbeatInbox(env) && x != ConnectInbox(env)
  {
    Names(env);
    assert x[1] == 'S' && HeartbeatInbox(env)[1] == 'I' && ConnectInbox(env)[1] == 'I';
  }

  lemma {:induction false} AckCalls(env: Env, c: Client, inbox: string, replyTo: Option<string>, text: string)
    ensures OnPubAck(env, c, inbox, replyTo, text).called
         == c.called + if inbox !in c.inFlight || replyTo.Some? || text == "" then []
                       else if env.ackError(text) == Some("") then [Callback(inbox, c.inFlight[inbox], Response)]
                       else [Callback(inbox, c.inFlight[inbox], Failed)]
  {
  }

  lemma {:induction false} FrameCalls(env: Env, w: World, frame: Frame, text: string, order: seq<string>)
    requires Inv(env, w) && Enumerates(order, w.c.pending)
    ensures var x := frame.subject;
            OnFrame(env, w.c, frame, text, order).called
            == w.c.called + if x !in w.c.inFlight || frame.replyTo.Some? || text == "" then []
                            else if env.ackError(text) == Some("") then [Callback(x, w.c.inFlight[x], Response)]
                            else [Callback(x, w.c.inFlight[x], Failed)]
  {
    AckCalls(env, w.c, frame.subject, frame.replyTo, text);
    if frame.subject in w.c.inFlight {
      FlightsAreAcks(env, w, frame.subject);
    } else if frame.subject == ConnectInbox(env) {
      S.FlushCallsNobody(env, w.c.(phase := Connected, pubPrefix := Some(env.prefixOf(text))), w.c.pending, order);
    }
  }

  lemma {:induction false} LineCalls(env: Env, w: World, e: Event)
    requires Inv(env, w) && Enabled(env, w, e) && e.Line?
    ensures var r := Step(env, w, e).c;
            match w.c.waiting
            case None => r.called == w.c.called
            case Some(frame) => r.called == OnFrame(env, w.c, frame, e.text, e.order).called
  {
    if w.c.waiting.None? {
      S.OperationCallsNobody(env, w.c, e.text);
    }
  }

  lemma {:induction false} OtherCalls(env: Env, w: World, e: Event)
    requires Inv(env, w) && Enabled(env, w, e) && !e.Line?
    ensures Step(env, w, e).c.called
         == w.c.called + if e.Timeout? && e.inbox in w.c.inFlight then
                           [Callback(e.inbox, w.c.inFlight[e.inbox], TimedOut)]
                         else []
  {
  }

  /**
   * In every run each event makes exactly the callbacks it should: a timer that fires
   * times its request out, and a well-formed ack for a request in flight is a response
   * if it parses with an empty error, and otherwise a failure.
   */
  lemma {:induction false} EveryCall(env: Env, events: seq<Event>, n: nat)
    requires IsRun(env, events) && n < |events|
    ensures Before(env, events, n + 1).c.called == Before(env, events, n).c.called + Calls(env, events, n)
  {
    var w, e := Before(env, events, n), events[n];
    EverythingSent(env, events, n);
    BeforeNext(env, events, n);
    if e.Line? {
      LineCalls(env, w, e);
      if w.c.waiting.Some? {
        FrameCalls(env, w, w.c.waiting.value, e.text, e.order);
      }
    } else {
      OtherCalls(env, w, e);
    }
  }

  /** Event n made the i-th callback, and is the cause that its kind names. */
  ghost predicate CalledBy(env: Env, events: seq<Event>, i: nat, cb: Callback, n: nat)
    requires IsRun(env, events)
  {
    && n < |events|
    && |Before(env, events, n).c.called| == i && |Before(env, events, n + 1).c.called| == i + 1
    && (cb.kind == TimedOut <==> events[n] == Timeout(cb.inbox))
    && (cb.kind == Response <==>
          Acks(events, n, cb.inbox) && env.ackError(events[n].text) == Some(""))
    && (cb.kind == Failed <==>
          Acks(events, n, cb.inbox) && env.ackError(events[n].text) != Some(""))
  }

  lemma {:induction false} CalledBySome(env: Env, events: seq<Event>, l: nat, i: nat) returns (n: nat)
    requires IsRun(env, events) && l <= |events| && i < |Before(env, events, l).c.called|
    ensures n < l && CalledBy(env, events, i, Before(env, events, l).c.called[i], n)
    decreases l
  {
    BeforeEnds(env, events);
    if l == 0 {
      assert false;
    } else {
      EveryCall(env, events, l - 1);
      if i < |Before(env, events, l - 1).c.called| {
        n := CalledBySome(env, events, l - 1, i);
      } else {
        n := l - 1;
      }
    }
  }

  /**
   * Every callback of a run says what happened: the request timed out exactly if its
   * timer fired, succeeded exactly if its payload parsed with an empty error, and failed
   * exactly if another well-formed ack came for it.
   */
  lemma {:induction false} KindsAreCauses(env: Env, events: seq<Event>, i: nat) returns (n: nat)
    requires IsRun(env, events) && i < |Run(env, START, events).c.called|
    ensures CalledBy(env, events, i, Run(env, START, events).c.called[i], n)
  {
    BeforeEnds(env, events);
    n := CalledBySome(env, events, |events|, i);
  }
}

/** The client object and PubRequestHandler, proved to follow NatsModel. */
module NatsClient {
  import opened Common
  import opened NatsModel

  /** The connection pool, the dispatcher's timers and the publish callbacks. */
  class Surroundings {
    var sent: seq<Wire>
    var timers: set<string>
    var called: seq<Callback>

    constructor ()
      ensures sent == [] && timers == {} && called == []
    {
      sent, timers, called := [], {}, [];
    }
  }

  class ClientImpl {
    const env: Env
    const out: Surroundings
    var phase: Phase
    var pendingRequestPerInbox: map<string, Pending>
    var pubRequestPerInbox: map<string, nat>
    var sid: nat
    var clusterId: Option<string>
    var discoverPrefix: Option<string>
    var pubPrefix: Option<string>
    var waitingForPayload: Option<Frame>
    var drawn: nat

    ghost function View(): Client
      reads this, out
    {
      Client(phase, pendingRequestPerInbox, pubRequestPerInbox, out.timers, sid, clusterId, discoverPrefix,
             pubPrefix, waitingForPayload, drawn, out.sent, out.called)
    }

    constructor (env: Env, out: Surroundings)
      requires out.sent == [] && out.timers == {} && out.called == []
      ensures this.env == env && this.out == out && View() == NEW_CLIENT
    {
      this.env, this.out := env, out;
      phase, pendingRequestPerInbox, pubRequestPerInbox, sid := NotConnected, map[], map[], 1;
      clusterId, discoverPrefix, pubPrefix, waitingForPayload, drawn := None, None, None, None, 5;
    }

    method Send(message: Wire)
      modifies out`sent
      ensures out.sent == old(out.sent) + [message]
    {
      out.sent := out.sent + [message];
    }

    method Draw() returns (token: string)
      modifies this`drawn
      ensures drawn == old(drawn) + 1 && token == env.token(old(drawn))
    {
      token := env.token(drawn);
      drawn := drawn + 1;
    }

    method MakeRequest(subject: string, cluster: string, discover: string, payload: string, callbacks: nat)
      returns (inbox: string)
      requires phase.Connected? ==> pubPrefix.Some?
      modifies this, out
      ensures (View(), inbox) ==
              NatsModel.MakeRequest(env, old(View()), Pending(subject, payload, callbacks), cluster, discover)
    {
      var token := Draw();
      inbox := Join(RootPubAckInbox(env), token);
      match phase {
        case NotConnected =>
          EnqueuePendingRequest(subject, payload, callbacks, inbox);
          clusterId := Some(cluster);
          discoverPrefix := Some(discover);
          Send(ConnectMsg);
          phase := Connecting;
        case Connecting =>
          EnqueuePendingRequest(subject, payload, callbacks, inbox);
        case Connected =>
          PubPubMsg(subject, payload, callbacks, inbox);
      }
    }

    method EnqueuePendingRequest(subject: string, payload: string, callbacks: nat, inbox: string)
      modifies this`pendingRequestPerInbox
      ensures View() == Enqueue(old(View()), Pending(subject, payload, callbacks), inbox)
    {
      if inbox !in pendingRequestPerInbox {
        pendingRequestPerInbox := pendingRequestPerInbox[inbox := Pending(subject, payload, callbacks)];
      }
    }

    method PubPubMsg(subject: string, payload: string, callbacks: nat, inbox: string)
      requires pubPrefix.Some?
      modifies this`drawn, this`pubRequestPerInbox, out
      ensures View() == NatsModel.PubPubMsg(env, old(View()), Pending(subject, payload, callbacks), inbox)
    {
      out.timers := out.timers + {inbox};
      if inbox !in pubRequestPerInbox {
        pubRequestPerInbox := pubRequestPerInbox[inbox := callbacks];
      }
      var guid := Draw();
      Send(Pub(Join(pubPrefix.value, subject), inbox, PubMsg(ClientId(env), guid, subject, payload)));
    }

    method OnConnected(prefix: string, order: seq<string>)
      requires forall x :: x in order ==> x in pendingRequestPerInbox
      modifies this, out
      ensures View() == NatsModel.OnConnected(env, old(View()), prefix, order)
    {
      phase := Connected;
      pubPrefix := Some(prefix);
      ghost var start := View();
      var i := 0;
      assert order[0..] == order;
      while i < |order|
        invariant 0 <= i <= |order| && pendingRequestPerInbox == start.pending && pubPrefix.Some?
        invariant forall x :: x in order[i..] ==> x in start.pending
        invariant Flush(env, View(), start.pending, order[i..]) == Flush(env, start, start.pending, order)
      {
        assert order[i..][1..] == order[i + 1..];
        var p := pendingRequestPerInbox[order[i]];
        PubPubMsg(p.subject, p.payload, p.callbacks, order[i]);
        i := i + 1;
      }
      pendingRequestPerInbox := map[];
    }

    method CancelRequest(inbox: string)
      modifies this, out`timers
      ensures View() == Cancel(old(View()), inbox)
    {
      if phase == Connected {
        if inbox in pubRequestPerInbox {
          EraseRequest(inbox);
        }
      } else {
        pendingRequestPerInbox := pendingRequestPerInbox - {inbox};
      }
    }

    method EraseRequest(inbox: string)
      modifies this`pubRequestPerInbox, out`timers
      ensures View() == Erase(old(View()), inbox)
    {
      out.timers := out.timers - {inbox};
      pubRequestPerInbox := pubRequestPerInbox - {inbox};
    }

    method OnTimeout(inbox: string)
      modifies this`pubRequestPerInbox, out
      ensures View() == NatsModel.OnTimeout(old(View()), inbox)
    {
      if inbox !in pubRequestPerInbox {
        return;
      }
      out.called := out.called + [Callback(inbox, pubRequestPerInbox[inbox], TimedOut)];
      EraseRequest(inbox);
    }

    method OnPubAck(inbox: string, replyTo: Option<string>, payload: string)
      modifies this`pubRequestPerInbox, out
      ensures View() == NatsModel.OnPubAck(env, old(View()), inbox, replyTo, payload)
    {
      if inbox !in pubRequestPerInbox {
        return;
      }
      var callbacks := pubRequestPerInbox[inbox];
      if replyTo.None? && payload != "" {
        var ack := env.ackError(payload);
        if ack.Some? && ack.value == "" {
          out.called := out.called + [Callback(inbox, callbacks, Response)];
        } else {
          out.called := out.called + [Callback(inbox, callbacks, Failed)];
        }
      }
      EraseRequest(inbox);
    }

    /** `ok` is false when the client throws. */
    method OnResponse(value: string, order: seq<string>) returns (ok: bool)
      requires waitingForPayload.None? ==> Tokens(value) != []
      requires forall x :: x in order ==> x in pendingRequestPerInbox
      modifies this, out
      ensures (View(), !ok) == NatsModel.OnResponse(env, old(View()), value, order)
    {
      if waitingForPayload.Some? {
        OnPayload(value, order);
        ok := true;
      } else {
        ok := OnOperation(value);
      }
    }

    method OnPayload(payload: string, order: seq<string>)
      requires waitingForPayload.Some?
      requires forall x :: x in order ==> x in pendingRequestPerInbox
      modifies this, out
      ensures View() == OnFrame(env, old(View()), old(waitingForPayload.value), payload, order).(waiting := None)
    {
      var frame := waitingForPayload.value;
      if frame.subject == HeartbeatInbox(env) {
        if frame.replyTo.Some? && payload == "" {
          Send(PubEmpty(frame.replyTo.value));
        }
      } else if frame.subject == ConnectInbox(env) {
        if frame.replyTo.None? && payload != "" {
          OnConnected(env.prefixOf(payload), order);
        }
      } else {
        OnPubAck(frame.subject, frame.replyTo, payload);
      }
      waitingForPayload := None;
    }

    method OnOperation(value: string) returns (ok: bool)
      requires Tokens(value) != []
      modifies this, out
      ensures (View(), !ok) == NatsModel.OnOperation(env, old(View()), value)
    {
      ok := true;
      var tokens := Tokens(value);
      if EqualsIgnoreCase(tokens[0], "INFO") {
        ok := OnInfo();
      } else if EqualsIgnoreCase(tokens[0], "MSG") {
        if |tokens| == 4 {
          waitingForPayload := Some(Frame(tokens[1], None));
        } else if |tokens| == 5 {
          waitingForPayload := Some(Frame(tokens[1], Some(tokens[3])));
        } else {
          ok := false;
        }
      } else if EqualsIgnoreCase(tokens[0], "PING") {
        Send(Pong);
      } else if !EqualsIgnoreCase(tokens[0], "+OK") {
        ok := false;
      }
    }

    method OnInfo() returns (ok: bool)
      modifies this`sid, out`sent
      ensures (View(), !ok) == NatsModel.OnInfo(env, old(View()))
    {
      SubInbox(HeartbeatInbox(env));
      SubInbox(Join(RootInbox(env), "*"));
      SubInbox(Join(RootPubAckInbox(env), "*"));
      if discoverPrefix.None? || clusterId.None? {
        return false;
      }
      Send(Pub(Join(discoverPrefix.value, clusterId.value), ConnectInbox(env),
               ConnectRequest(ClientId(env), HeartbeatInbox(env))));
      ok := true;
    }

    method SubInbox(subject: string)
      modifies this`sid, out`sent
      ensures View() == NatsModel.SubInbox(old(View()), subject)
    {
      Send(Sub(subject, sid));
      sid := sid + 1;
    }
  }
}

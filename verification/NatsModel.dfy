/**
 * The NATS Streaming client as a value: its connection phase, its two request
 * maps, the timers it has armed, and everything it sends and calls back.
 */
module NatsModel {
  import opened Common

  datatype Phase = NotConnected | Connecting | Connected

  /** `callbacks` identifies the caller's callbacks. */
  datatype Pending = Pending(subject: string, payload: string, callbacks: nat)

  datatype Body =
    | ConnectRequest(clientId: string, heartbeatInbox: string)
    | PubMsg(clientId: string, guid: string, subject: string, data: string)

  datatype Wire =
    | ConnectMsg
    | Sub(subject: string, sid: nat)
    | Pub(subject: string, replyTo: string, body: Body)
    | PubEmpty(subject: string)
    | Pong

  datatype Kind = Response | Failed | TimedOut

  datatype Callback = Callback(inbox: string, callbacks: nat, kind: Kind)

  /** The arguments of a MSG line whose payload has yet to come. */
  datatype Frame = Frame(subject: string, replyTo: Option<string>)

  datatype Client = Client(
    phase: Phase, pending: map<string, Pending>, inFlight: map<string, nat>, timers: set<string>,
    sid: nat, clusterId: Option<string>, discoverPrefix: Option<string>, pubPrefix: Option<string>,
    waiting: Option<Frame>, drawn: nat, sent: seq<Wire>, called: seq<Callback>)

  /**
   * What the client cannot see into: the n-th token the generator draws, the error
   * text of a PubAck (None when it does not parse), and a ConnectResponse's prefix.
   */
  datatype Env = Env(token: nat -> string, ackError: string -> Option<string>, prefixOf: string -> string)

  // ---------- Names, in the order the constructor draws them ----------

  function Join(prefix: string, subject: string): string {
    prefix + "." + subject
  }

  function HeartbeatInbox(env: Env): string { Join("_INBOX", env.token(0)) }

  function RootInbox(env: Env): string { Join("_INBOX", env.token(1)) }

  function RootPubAckInbox(env: Env): string { Join("_STAN.acks", env.token(2)) }

  function ConnectInbox(env: Env): string { Join(RootInbox(env), env.token(3)) }

  function ClientId(env: Env): string { env.token(4) }

  function PubAckInbox(env: Env, k: nat): string { Join(RootPubAckInbox(env), env.token(k)) }

  const NEW_CLIENT := Client(NotConnected, map[], map[], {}, 1, None, None, None, None, 5, [], [])

  // ---------- Publishing ----------

  /** Put a request in flight: timer, map entry and message.  An entry that is there stays. */
  function PubPubMsg(env: Env, c: Client, p: Pending, inbox: string): Client
    requires c.pubPrefix.Some?
  {
    c.(timers := c.timers + {inbox},
       inFlight := if inbox in c.inFlight then c.inFlight else c.inFlight[inbox := p.callbacks],
       drawn := c.drawn + 1,
       sent := c.sent + [Pub(Join(c.pubPrefix.value, p.subject), inbox,
                             PubMsg(ClientId(env), env.token(c.drawn), p.subject, p.payload))])
  }

  function Enqueue(c: Client, p: Pending, inbox: string): Client {
    c.(pending := if inbox in c.pending then c.pending else c.pending[inbox := p])
  }

  /** The second part is the inbox, the handle's identity. */
  function MakeRequest(env: Env, c: Client, p: Pending, clusterId: string, discoverPrefix: string): (Client, string)
    requires c.phase.Connected? ==> c.pubPrefix.Some?
  {
    var inbox := PubAckInbox(env, c.drawn);
    var c1 := c.(drawn := c.drawn + 1);
    match c.phase
    case NotConnected =>
      (Enqueue(c1, p, inbox).(clusterId := Some(clusterId), discoverPrefix := Some(discoverPrefix),
                              sent := c1.sent + [ConnectMsg], phase := Connecting), inbox)
    case Connecting => (Enqueue(c1, p, inbox), inbox)
    case Connected => (PubPubMsg(env, c1, p, inbox), inbox)
  }

  /** The connect flush: publish the pending requests in the map's order. */
  function Flush(env: Env, c: Client, pending: map<string, Pending>, order: seq<string>): Client
    requires c.pubPrefix.Some? && forall x :: x in order ==> x in pending
    decreases |order|
  {
    if order == [] then c
    else Flush(env, PubPubMsg(env, c, pending[order[0]], order[0]), pending, order[1..])
  }

  function OnConnected(env: Env, c: Client, prefix: string, order: seq<string>): Client
    requires forall x :: x in order ==> x in c.pending
  {
    Flush(env, c.(phase := Connected, pubPrefix := Some(prefix)), c.pending, order).(pending := map[])
  }

  // ---------- Finishing requests ----------

  function Erase(c: Client, inbox: string): Client {
    c.(inFlight := c.inFlight - {inbox}, timers := c.timers - {inbox})
  }

  function Notify(c: Client, inbox: string, kind: Kind): Client
    requires inbox in c.inFlight
  {
    c.(called := c.called + [Callback(inbox, c.inFlight[inbox], kind)])
  }

  /** A PubAck with a reply subject or without payload finishes the request without calling back. */
  predicate MalformedAck(replyTo: Option<string>, payload: string) {
    replyTo.Some? || payload == ""
  }

  function AckKind(env: Env, payload: string): Kind {
    if env.ackError(payload) == Some("") then Response else Failed
  }

  function OnPubAck(env: Env, c: Client, inbox: string, replyTo: Option<string>, payload: string): Client {
    if inbox !in c.inFlight then c
    else if MalformedAck(replyTo, payload) then Erase(c, inbox)
    else Erase(Notify(c, inbox, AckKind(env, payload)), inbox)
  }

  function OnTimeout(c: Client, inbox: string): Client {
    if inbox !in c.inFlight then c else Erase(Notify(c, inbox, TimedOut), inbox)
  }

  function Cancel(c: Client, inbox: string): Client {
    if c.phase.Connected? then (if inbox in c.inFlight then Erase(c, inbox) else c)
    else c.(pending := c.pending - {inbox})
  }

  // ---------- Lines ----------

  function Lower(s: string): string {
    if s == "" then ""
    else [if 'A' <= s[0] <= 'Z' then (s[0] as int + 32) as char else s[0]] + Lower(s[1..])
  }

  predicate EqualsIgnoreCase(a: string, b: string) {
    Lower(a) == Lower(b)
  }

  predicate Delimiter(c: char) {
    c == ' ' || c == '\t'
  }

  function TokenEnd(s: string): (i: nat)
    ensures i <= |s|
  {
    if s == "" || Delimiter(s[0]) then 0 else 1 + TokenEnd(s[1..])
  }

  /** splitToken: the maximal runs without delimiters. */
  function Tokens(s: string): seq<string>
    decreases |s|
  {
    if s == "" then []
    else if Delimiter(s[0]) then Tokens(s[1..])
    else [s[..TokenEnd(s)]] + Tokens(s[TokenEnd(s)..])
  }

  /** What a line that is not a payload asks for. */
  datatype Operation = Info | Msg(frame: Frame) | Ping | Okay | Bad

  function ParseOperation(line: string): Operation
    requires Tokens(line) != []
  {
    var tokens := Tokens(line);
    if EqualsIgnoreCase(tokens[0], "INFO") then Info
    else if EqualsIgnoreCase(tokens[0], "MSG") then
      if |tokens| == 4 then Msg(Frame(tokens[1], None))
      else if |tokens| == 5 then Msg(Frame(tokens[1], Some(tokens[3])))
      else Bad
    else if EqualsIgnoreCase(tokens[0], "PING") then Ping
    else if EqualsIgnoreCase(tokens[0], "+OK") then Okay
    else Bad
  }

  function SubInbox(c: Client, subject: string): Client {
    c.(sent := c.sent + [Sub(subject, c.sid)], sid := c.sid + 1)
  }

  /** The second part tells whether the client threw. */
  function OnInfo(env: Env, c: Client): (Client, bool) {
    var c1 := SubInbox(c, HeartbeatInbox(env));
    var c2 := SubInbox(c1, Join(RootInbox(env), "*"));
    var c3 := SubInbox(c2, Join(RootPubAckInbox(env), "*"));
    if c.discoverPrefix.None? || c.clusterId.None? then (c3, true)
    else
      (c3.(sent := c3.sent + [Pub(Join(c.discoverPrefix.value, c.clusterId.value), ConnectInbox(env),
                                  ConnectRequest(ClientId(env), HeartbeatInbox(env)))]), false)
  }

  function OnOperation(env: Env, c: Client, line: string): (Client, bool)
    requires Tokens(line) != []
  {
    match ParseOperation(line)
    case Info => OnInfo(env, c)
    case Msg(frame) => (c.(waiting := Some(frame)), false)
    case Ping => (c.(sent := c.sent + [Pong]), false)
    case Okay => (c, false)
    case Bad => (c, true)
  }

  /** A whole MSG frame: `order` is the order in which the map iterates, used by a connect response. */
  function OnFrame(env: Env, c: Client, frame: Frame, payload: string, order: seq<string>): Client
    requires forall x :: x in order ==> x in c.pending
  {
    if frame.subject == HeartbeatInbox(env) then
      if frame.replyTo.Some? && payload == "" then c.(sent := c.sent + [PubEmpty(frame.replyTo.value)]) else c
    else if frame.subject == ConnectInbox(env) then
      if frame.replyTo.None? && payload != "" then OnConnected(env, c, env.prefixOf(payload), order) else c
    else OnPubAck(env, c, frame.subject, frame.replyTo, payload)
  }

  function OnResponse(env: Env, c: Client, line: string, order: seq<string>): (Client, bool)
    requires c.waiting.None? ==> Tokens(line) != []
    requires forall x :: x in order ==> x in c.pending
  {
    if c.waiting.Some? then (OnFrame(env, c, c.waiting.value, line, order).(waiting := None), false)
    else OnOperation(env, c, line)
  }
}

/**
 * A run in which a malformed ack ends a request: the filter keeps its handle, nothing is
 * in flight any more, and no reply is coming.
 */
module NatsDropped {
  import opened Common
  import opened NatsModel
  import opened NatsSystem
  import R = NatsRuns
  import T = NatsTokens
  import U = Nuid

  // ---------- Lines made of words ----------

  predicate Word(w: string) {
    w != "" && forall i :: 0 <= i < |w| ==> w[i] != ' ' && w[i] != '\t'
  }

  function Words(ws: seq<string>): string {
    if ws == [] then "" else if |ws| == 1 then ws[0] else ws[0] + " " + Words(ws[1..])
  }

  lemma {:induction false} TokenEndsAtBlank(w: string, rest: string)
    requires forall i :: 0 <= i < |w| ==> !Delimiter(w[i])
    requires rest == "" || Delimiter(rest[0])
    ensures TokenEnd(w + rest) == |w|
    decreases |w|
  {
    if w == "" {
      assert w + rest == rest;
    } else {
      assert (w + rest)[1..] == w[1..] + rest;
      TokenEndsAtBlank(w[1..], rest);
    }
  }

  lemma FirstToken(w: string, rest: string)
    requires Word(w)
    ensures Tokens(w) == [w] && Tokens(w + " " + rest) == [w] + Tokens(rest)
  {
    TokenEndsAtBlank(w, "");
    assert w + "" == w && w[|w|..] == "";
    TokenEndsAtBlank(w, " " + rest);
    var s := w + " " + rest;
    assert s == w + (" " + rest);
    assert s[|w|..] == " " + rest && s[..|w|] == w;
    assert (" " + rest)[1..] == rest;
  }

  lemma {:induction false} TokensOfWords(ws: seq<string>)
    requires forall w :: w in ws ==> Word(w)
    ensures Tokens(Words(ws)) == ws
    decreases |ws|
  {
    if |ws| == 1 {
      assert ws[0] in ws;
      FirstToken(ws[0], "");
      assert ws == [ws[0]];
    } else if |ws| > 1 {
      assert ws[0] in ws;
      FirstToken(ws[0], Words(ws[1..]));
      TokensOfWords(ws[1..]);
      assert ws == [ws[0]] + ws[1..];
    }
  }

  predicate Blank(s: string) {
    forall i :: 0 <= i < |s| ==> s[i] == ' ' || s[i] == '\t'
  }

  /** The words with the gaps around and between them. */
  function Spread(ws: seq<string>, gaps: seq<string>): string
    requires |gaps| == |ws| + 1
    decreases |ws|
  {
    if ws == [] then gaps[0] else gaps[0] + ws[0] + Spread(ws[1..], gaps[1..])
  }

  lemma {:induction false} BlanksAreSkipped(gap: string, rest: string)
    requires Blank(gap)
    ensures Tokens(gap + rest) == Tokens(rest)
    decreases |gap|
  {
    if gap == "" {
      assert gap + rest == rest;
    } else {
      assert (gap + rest)[1..] == gap[1..] + rest;
      BlanksAreSkipped(gap[1..], rest);
    }
  }

  /** Every line is split into its words, however many blanks and tabs part them. */
  lemma {:induction false} TokensOfSpread(ws: seq<string>, gaps: seq<string>)
    requires |gaps| == |ws| + 1 && (forall g :: g in gaps ==> Blank(g))
    requires forall w :: w in ws ==> Word(w)
    requires forall i :: 0 < i < |ws| ==> gaps[i] != ""
    ensures Tokens(Spread(ws, gaps)) == ws
    decreases |ws|
  {
    assert gaps[0] in gaps;
    if ws == [] {
      BlanksAreSkipped(gaps[0], "");
      assert gaps[0] + "" == gaps[0];
    } else {
      var rest := Spread(ws[1..], gaps[1..]);
      assert ws[0] in ws;
      BlanksAreSkipped(gaps[0], ws[0] + rest);
      assert gaps[0] + ws[0] + rest == gaps[0] + (ws[0] + rest);
      GapStarts(ws[1..], gaps[1..]);
      TokenEndsAtBlank(ws[0], rest);
      assert (ws[0] + rest)[..|ws[0]|] == ws[0] && (ws[0] + rest)[|ws[0]|..] == rest;
      TokensOfSpread(ws[1..], gaps[1..]);
      assert ws == [ws[0]] + ws[1..];
    }
  }

  lemma GapStarts(ws: seq<string>, gaps: seq<string>)
    requires |gaps| == |ws| + 1 && Blank(gaps[0]) && (ws != [] ==> gaps[0] != "")
    ensures Spread(ws, gaps) == "" || Delimiter(Spread(ws, gaps)[0])
  {
  }

  lemma MsgIsMsg()
    ensures EqualsIgnoreCase("MSG", "MSG") && !EqualsIgnoreCase("MSG", "INFO")
  {
    assert |Lower("MSG")| == 3 by {
      LowerLength("MSG");
    }
    LowerLength("INFO");
  }

  lemma {:induction false} LowerLength(s: string)
    ensures |Lower(s)| == |s|
  {
    if s != "" {
      LowerLength(s[1..]);
    }
  }

  function MsgLine(subject: string): string {
    Words(["MSG", subject, "1", "2"])
  }

  function MsgLineWithReply(subject: string): string {
    Words(["MSG", subject, "1", "r", "2"])
  }

  lemma MsgLinesParse(subject: string)
    requires Word(subject)
    ensures Tokens(MsgLine(subject)) != [] && ParseOperation(MsgLine(subject)) == Msg(Frame(subject, None))
    ensures Tokens(MsgLineWithReply(subject)) != []
    ensures ParseOperation(MsgLineWithReply(subject)) == Msg(Frame(subject, Some("r")))
  {
    MsgIsMsg();
    TokensOfWords(["MSG", subject, "1", "2"]);
    TokensOfWords(["MSG", subject, "1", "r", "2"]);
  }

  // ---------- Names ----------

  /** Tokens without blanks and dots, such as the generator's. */
  ghost predicate PlainTokens(env: Env) {
    forall i: nat :: i <= 5 ==> Word(env.token(i)) && '.' !in env.token(i)
  }

  predicate Alphanumeric(s: string) {
    forall i :: 0 <= i < |s| ==> '0' <= s[i] <= '9' || 'A' <= s[i] <= 'Z' || 'a' <= s[i] <= 'z'
  }

  lemma {:induction false} NumeralIsAlphanumeric(len: nat, n: nat)
    ensures Alphanumeric(U.Numeral(len, n))
  {
    if len > 0 {
      NumeralIsAlphanumeric(len - 1, n / 62);
      U.DigitAt(n % 62);
    }
  }

  lemma TokenIsPlain(g: U.Generator)
    requires Alphanumeric(g.pre) && |g.pre| > 0
    ensures Word(U.Token(g)) && '.' !in U.Token(g)
  {
    NumeralIsAlphanumeric(U.SEQ_LEN, g.sequence);
    assert Alphanumeric(U.Token(g));
  }

  lemma PrefixIsAlphanumeric(a: nat, b: nat)
    ensures Alphanumeric(U.RandomPrefix(a, b))
  {
    NumeralIsAlphanumeric(U.SEQ_LEN, a % U.MAX_SEQ);
    NumeralIsAlphanumeric(U.PRE_LEN - U.SEQ_LEN, b % (U.BASE * U.BASE));
  }

  lemma LaterTokenIsPlain(g: U.Generator, draws: seq<U.Draws>, i: nat)
    requires U.Valid(g) && Alphanumeric(g.pre) && U.NoReset(g, draws) && i < |draws|
    ensures Word(U.TokenAt(g, draws, i)) && '.' !in U.TokenAt(g, draws, i)
  {
    U.TokenWithinPrefix(g, draws, i);
    TokenIsPlain(U.Ahead(g, i + 1));
  }

  /** The generator's tokens are plain: every environment made from it has this run. */
  lemma GeneratedTokensArePlain(env: Env, g: U.Generator, draws: seq<U.Draws>, a: nat, b: nat)
    requires U.Valid(g) && g.pre == U.RandomPrefix(a, b) && U.NoReset(g, draws) && |draws| > 5
    requires T.TokensFrom(env, g, draws)
    ensures PlainTokens(env)
  {
    PrefixIsAlphanumeric(a, b);
    forall i: nat | i <= 5
      ensures Word(env.token(i)) && '.' !in env.token(i)
    {
      assert env.token(i) == U.TokenAt(g, draws, i);
      LaterTokenIsPlain(g, draws, i);
    }
  }

  lemma JoinIsWord(a: string, b: string)
    requires Word(a) && Word(b)
    ensures Word(Join(a, b))
  {
  }

  lemma NamesDiffer(env: Env)
    requires PlainTokens(env)
    ensures Word(ConnectInbox(env)) && Word(PubAckInbox(env, 5))
    ensures ConnectInbox(env) != HeartbeatInbox(env)
    ensures PubAckInbox(env, 5) != HeartbeatInbox(env) && PubAckInbox(env, 5) != ConnectInbox(env)
  {
    JoinIsWord("_INBOX", env.token(1));
    JoinIsWord(RootInbox(env), env.token(3));
    JoinIsWord("_STAN.acks", env.token(2));
    JoinIsWord(RootPubAckInbox(env), env.token(5));
    var child := Join(env.token(1), env.token(3));
    assert ConnectInbox(env) == Join("_INBOX", child);
    assert child[|env.token(1)|] == '.';
    assert '.' in child;
    if ConnectInbox(env) == HeartbeatInbox(env) {
      R.JoinInjective("_INBOX", child, env.token(0));
    }
    assert PubAckInbox(env, 5)[1] == 'S' && HeartbeatInbox(env)[1] == 'I' && ConnectInbox(env)[1] == 'I';
  }

  // ---------- The run ----------

  const REQUEST := Pending("subject", "payload", 0)

  /** An ack with a reply subject. */
  function AckEvents(env: Env): seq<Event> {
    [Server(MsgLineWithReply(PubAckInbox(env, 5)), [], false), Server("x", [], false)]
  }

  /** The connect response, and the ack after it. */
  function ResponseEvents(env: Env): seq<Event> {
    [Server(MsgLine(ConnectInbox(env)), [PubAckInbox(env, 5)], false), Server("x", [PubAckInbox(env, 5)], false)]
    + AckEvents(env)
  }

  const RELAY := Relay(0, "subject", "payload", "cluster", "discover")

  /** Relay, connect response, then an ack with a reply subject. */
  function Dropping(env: Env): seq<Event> {
    [Open, RELAY] + ResponseEvents(env)
  }

  /** One filter, with one request that nobody has called back. */
  ghost predicate Waits(env: Env, s: System, pending: bool, inFlight: bool, dropped: bool, waiting: Option<Frame>) {
    var inbox := PubAckInbox(env, 5);
    && Inv(env, s) && s.filters == [Filter(Some(inbox), Some(inbox), [], true)] && s.w.c.called == []
    && s.w.c.pending == (if pending then map[inbox := REQUEST] else map[])
    && s.w.c.inFlight == (if inFlight then map[inbox := 0] else map[])
    && s.w.dropped == (if dropped then {inbox} else {})
    && s.w.c.waiting == waiting
  }

  lemma Relays(env: Env)
    ensures var s0 := System(R.START, []);
            && Inv(env, s0) && Enabled(env, s0, Open)
            && var s1 := Step(env, s0, Open);
               && Inv(env, s1) && Enabled(env, s1, RELAY)
               && Waits(env, Step(env, s1, RELAY), true, false, false, None)
  {
    var s0 := System(R.START, []);
    StartInv(env);
    StepKeepsInv(env, s0, Open);
    var s1 := Step(env, s0, Open);
    StepKeepsInv(env, s1, RELAY);
  }

  /** The MSG line itself only makes its payload due. */
  lemma MsgStep(env: Env, s: System, line: string, frame: Frame, order: seq<string>)
    requires Inv(env, s) && s.w.c.waiting == None && Tokens(line) != [] && ParseOperation(line) == Msg(frame)
    requires R.Enumerates(order, s.w.c.pending)
    ensures Enabled(env, s, Server(line, order, false))
    ensures Step(env, s, Server(line, order, false)) == s.(w := s.w.(c := s.w.c.(waiting := Some(frame))))
  {
    assert OnResponse(env, s.w.c, line, order) == (s.w.c.(waiting := Some(frame)), false);
  }

  lemma GetsMsg(env: Env, s: System, line: string, frame: Frame, order: seq<string>, pending: bool, inFlight: bool)
    requires Waits(env, s, pending, inFlight, false, None)
    requires Tokens(line) != [] && ParseOperation(line) == Msg(frame)
    requires order == if pending then [PubAckInbox(env, 5)] else []
    ensures Enabled(env, s, Server(line, order, false))
    ensures Waits(env, Step(env, s, Server(line, order, false)), pending, inFlight, false, Some(frame))
  {
    MsgStep(env, s, line, frame, order);
    StepKeepsInv(env, s, Server(line, order, false));
  }

  lemma ConnectedClient(env: Env, c: Client)
    requires PlainTokens(env) && c.pending == map[PubAckInbox(env, 5) := REQUEST] && c.inFlight == map[]
    requires c.waiting == Some(Frame(ConnectInbox(env), None))
    ensures var r := OnResponse(env, c, "x", [PubAckInbox(env, 5)]).0;
            && r.pending == map[] && r.inFlight == map[PubAckInbox(env, 5) := 0] && r.waiting == None
            && r.called == c.called
  {
    NamesDiffer(env);
    var c1 := c.(phase := Connected, pubPrefix := Some(env.prefixOf("x")));
    assert [PubAckInbox(env, 5)][1..] == [];
    assert Flush(env, c1, c.pending, [PubAckInbox(env, 5)]) == PubPubMsg(env, c1, REQUEST, PubAckInbox(env, 5));
  }

  lemma Connects(env: Env, s: System)
    requires PlainTokens(env) && Waits(env, s, true, false, false, Some(Frame(ConnectInbox(env), None)))
    ensures Enabled(env, s, Server("x", [PubAckInbox(env, 5)], false))
    ensures Waits(env, Step(env, s, Server("x", [PubAckInbox(env, 5)], false)), false, true, false, None)
  {
    StepKeepsInv(env, s, Server("x", [PubAckInbox(env, 5)], false));
    ConnectedClient(env, s.w.c);
  }

  lemma Drops(env: Env, s: System)
    requires PlainTokens(env) && Waits(env, s, false, true, false, Some(Frame(PubAckInbox(env, 5), Some("r"))))
    ensures Enabled(env, s, Server("x", [], false))
    ensures Waits(env, Step(env, s, Server("x", [], false)), false, false, true, None)
  {
    NamesDiffer(env);
    StepKeepsInv(env, s, Server("x", [], false));
  }

  ghost predicate Leads(env: Env, s: System, events: seq<Event>, r: System) {
    Inv(env, s) && Legal(env, s, events) && Run(env, s, events) == r
  }

  lemma LeadsNowhere(env: Env, s: System)
    requires Inv(env, s)
    ensures Leads(env, s, [], s)
  {
  }

  lemma LeadsMore(env: Env, s: System, e: Event, rest: seq<Event>, r: System)
    requires Inv(env, s) && Enabled(env, s, e) && Leads(env, Step(env, s, e), rest, r)
    ensures Leads(env, s, [e] + rest, r)
  {
    assert ([e] + rest)[1..] == rest;
  }

  lemma LeadsTwoMore(env: Env, s: System, e: Event, f: Event, rest: seq<Event>, r: System)
    requires Inv(env, s) && Enabled(env, s, e) && Inv(env, Step(env, s, e)) && Enabled(env, Step(env, s, e), f)
    requires Leads(env, Step(env, Step(env, s, e), f), rest, r)
    ensures Leads(env, s, [e, f] + rest, r)
  {
    LeadsMore(env, Step(env, s, e), f, rest, r);
    LeadsMore(env, s, e, [f] + rest, r);
    assert [e, f] + rest == [e] + ([f] + rest);
  }

  /** The malformed ack ends the request. */
  lemma AckDrops(env: Env, s: System)
    requires PlainTokens(env) && Waits(env, s, false, true, false, None)
    ensures var e, f := AckEvents(env)[0], AckEvents(env)[1];
            && Enabled(env, s, e) && Inv(env, Step(env, s, e)) && Enabled(env, Step(env, s, e), f)
            && Waits(env, Step(env, Step(env, s, e), f), false, false, true, None)
  {
    var inbox := PubAckInbox(env, 5);
    NamesDiffer(env);
    MsgLinesParse(inbox);
    GetsMsg(env, s, MsgLineWithReply(inbox), Frame(inbox, Some("r")), [], false, true);
    Drops(env, Step(env, s, AckEvents(env)[0]));
  }

  /** From the connected client on. */
  lemma AckArrives(env: Env, s: System) returns (r: System)
    requires PlainTokens(env) && Waits(env, s, false, true, false, None)
    ensures Leads(env, s, AckEvents(env), r) && Waits(env, r, false, false, true, None)
  {
    var e, f := AckEvents(env)[0], AckEvents(env)[1];
    AckDrops(env, s);
    r := Step(env, Step(env, s, e), f);
    LeadsNowhere(env, r);
    LeadsTwoMore(env, s, e, f, [], r);
    assert AckEvents(env) == [e, f] + [];
  }

  /** The connect response puts the request in flight. */
  lemma Responds(env: Env, s: System)
    requires PlainTokens(env) && Waits(env, s, true, false, false, None)
    ensures var e, f := ResponseEvents(env)[0], ResponseEvents(env)[1];
            && Enabled(env, s, e) && Inv(env, Step(env, s, e)) && Enabled(env, Step(env, s, e), f)
            && Waits(env, Step(env, Step(env, s, e), f), false, true, false, None)
  {
    NamesDiffer(env);
    MsgLinesParse(ConnectInbox(env));
    GetsMsg(env, s, MsgLine(ConnectInbox(env)), Frame(ConnectInbox(env), None), [PubAckInbox(env, 5)], true, false);
    Connects(env, Step(env, s, ResponseEvents(env)[0]));
  }

  /** From the pending request on. */
  lemma ResponseArrives(env: Env, s: System) returns (r: System)
    requires PlainTokens(env) && Waits(env, s, true, false, false, None)
    ensures Leads(env, s, ResponseEvents(env), r) && Waits(env, r, false, false, true, None)
  {
    var e, f := ResponseEvents(env)[0], ResponseEvents(env)[1];
    Responds(env, s);
    r := AckArrives(env, Step(env, Step(env, s, e), f));
    LeadsTwoMore(env, s, e, f, AckEvents(env), r);
  }

  /**
   * The request has gone from both maps, its timer is disarmed, nobody was called, and
   * the filter still holds the handle it will never be called through.
   */
  lemma MalformedAckLeavesFilterWaiting(env: Env)
    requires PlainTokens(env)
    ensures var s0 := System(R.START, []);
            && Inv(env, s0) && Legal(env, s0, Dropping(env))
            && var r := Run(env, s0, Dropping(env));
               && Waits(env, r, false, false, true, None) && r.w.c.timers == {}
  {
    var s0 := System(R.START, []);
    Relays(env);
    var s1 := Step(env, s0, Open);
    var r := ResponseArrives(env, Step(env, s1, RELAY));
    LeadsTwoMore(env, s0, Open, RELAY, ResponseEvents(env), r);
  }
}

/**
 * The client reads lines one at a time and remembers that a payload is due; a
 * frame parser reads a MSG line together with its payload.  They do the same.
 */
module NatsFrames {
  import opened Common
  import opened NatsModel
  import R = NatsRuns

  /**
   * What a stretch of lines asks the client to do; `order` is the pending map's
   * iteration order when the payload comes, used if it flushes the map.
   */
  datatype Action = Operate(op: Operation) | Receive(frame: Frame, payload: string, order: seq<string>)

  /** A stretch of lines as frames; the second part is a MSG whose payload has not come. */
  datatype Parsed = Parsed(actions: seq<Action>, due: Option<Frame>)

  predicate IsMsg(line: string)
    requires Tokens(line) != []
  {
    ParseOperation(line).Msg?
  }

  /** No operation line is blank; lines after a MSG are payload and may be anything. */
  predicate WellFormed(lines: seq<string>)
    decreases |lines|
  {
    lines == [] ||
    (Tokens(lines[0]) != [] &&
     if IsMsg(lines[0]) then |lines| == 1 || WellFormed(lines[2..]) else WellFormed(lines[1..]))
  }

  function Parse(lines: seq<string>, orders: seq<seq<string>>): Parsed
    requires WellFormed(lines) && |orders| == |lines|
    decreases |lines|
  {
    if lines == [] then Parsed([], None)
    else
      match ParseOperation(lines[0])
      case Msg(frame) =>
        if |lines| == 1 then Parsed([], Some(frame))
        else
          var p := Parse(lines[2..], orders[2..]);
          p.(actions := [Receive(frame, lines[1], orders[1])] + p.actions)
      case op =>
        var p := Parse(lines[1..], orders[1..]);
        p.(actions := [Operate(op)] + p.actions)
  }

  /** What an action does to a client that has no payload due. */
  function Act(env: Env, c: Client, a: Action): (Client, bool)
    requires a.Receive? ==> forall x :: x in a.order ==> x in c.pending
  {
    match a
    case Receive(frame, payload, order) => (OnFrame(env, c, frame, payload, order), false)
    case Operate(Info) => OnInfo(env, c)
    case Operate(Ping) => (c.(sent := c.sent + [Pong]), false)
    case Operate(Okay) => (c, false)
    case Operate(_) => (c, true)
  }

  /** The actions in order, up to and including one at which the client throws. */
  ghost predicate Orderly(env: Env, c: Client, actions: seq<Action>)
    decreases |actions|
  {
    actions != [] ==>
      && (actions[0].Receive? ==> R.Enumerates(actions[0].order, c.pending))
      && (!Act(env, c, actions[0]).1 ==> Orderly(env, Act(env, c, actions[0]).0, actions[1..]))
  }

  function ActAll(env: Env, c: Client, actions: seq<Action>): (Client, bool)
    requires Orderly(env, c, actions)
    decreases |actions|
  {
    if actions == [] then (c, false)
    else
      var (c', threw) := Act(env, c, actions[0]);
      if threw then (c', true) else ActAll(env, c', actions[1..])
  }

  /**
   * The client can be fed the lines one by one: no operation is blank, and each order
   * that comes with a payload enumerates the map that is pending then.
   */
  ghost predicate Feedable(env: Env, c: Client, lines: seq<string>, orders: seq<seq<string>>)
    decreases |lines|
  {
    && |orders| == |lines|
    && (lines != [] ==>
          && (c.waiting.None? ==> Tokens(lines[0]) != [])
          && (c.waiting.Some? ==> R.Enumerates(orders[0], c.pending))
          && var (c', threw) := Line(env, c, lines[0], orders[0]);
             !threw ==> Feedable(env, c', lines[1..], orders[1..]))
  }

  function Line(env: Env, c: Client, line: string, order: seq<string>): (Client, bool)
    requires c.waiting.None? ==> Tokens(line) != []
    requires c.waiting.Some? ==> forall x :: x in order ==> x in c.pending
  {
    OnResponse(env, c, line, if c.waiting.Some? then order else [])
  }

  function FeedLines(env: Env, c: Client, lines: seq<string>, orders: seq<seq<string>>): (Client, bool)
    requires Feedable(env, c, lines, orders)
    decreases |lines|
  {
    if lines == [] then (c, false)
    else
      var (c', threw) := Line(env, c, lines[0], orders[0]);
      if threw then (c', true) else FeedLines(env, c', lines[1..], orders[1..])
  }

  // ---------- Every list of lines can be fed ----------

  /** Some order in which the map can iterate. */
  lemma {:induction false} SomeOrder(pending: map<string, Pending>) returns (order: seq<string>)
    ensures R.Enumerates(order, pending)
    decreases |pending|
  {
    if pending == map[] {
      order := [];
    } else {
      var x :| x in pending;
      var rest := SomeOrder(pending - {x});
      order := [x] + rest;
    }
  }

  /** Whatever the lines say, and however often they repeat, there are orders to feed them with. */
  lemma {:induction false} LinesAreFeedable(env: Env, c: Client, lines: seq<string>) returns (orders: seq<seq<string>>)
    requires if c.waiting.Some? then lines == [] || WellFormed(lines[1..]) else WellFormed(lines)
    ensures Feedable(env, c, lines, orders)
    decreases |lines|
  {
    if lines == [] {
      orders := [];
    } else {
      var order := SomeOrder(c.pending);
      var (c1, threw) := Line(env, c, lines[0], order);
      var rest := seq(|lines| - 1, _ => []);
      if !threw {
        assert c.waiting.Some? ==> c1.waiting.None?;
        assert c.waiting.None? ==> (c1.waiting.Some? <==> IsMsg(lines[0]));
        assert |lines| > 1 ==> lines[1..][1..] == lines[2..];
        rest := LinesAreFeedable(env, c1, lines[1..]);
      }
      orders := [order] + rest;
      assert orders[1..] == rest;
    }
  }

  // ---------- Frames ----------

  lemma {:induction false} FlushIgnoresWaiting(
    env: Env, c: Client, pending: map<string, Pending>, order: seq<string>, w: Option<Frame>)
    requires c.pubPrefix.Some? && forall x :: x in order ==> x in pending
    ensures Flush(env, c.(waiting := w), pending, order) == Flush(env, c, pending, order).(waiting := w)
    decreases |order|
  {
    if order != [] {
      FlushIgnoresWaiting(env, PubPubMsg(env, c, pending[order[0]], order[0]), pending, order[1..], w);
      assert PubPubMsg(env, c.(waiting := w), pending[order[0]], order[0])
          == PubPubMsg(env, c, pending[order[0]], order[0]).(waiting := w);
    }
  }

  /** Handling a frame does not look at, or change, the note that a payload is due. */
  lemma FrameIgnoresWaiting(env: Env, c: Client, frame: Frame, payload: string, order: seq<string>, w: Option<Frame>)
    requires forall x :: x in order ==> x in c.pending
    ensures OnFrame(env, c.(waiting := w), frame, payload, order)
         == OnFrame(env, c, frame, payload, order).(waiting := w)
  {
    if frame.subject == ConnectInbox(env) && frame.replyTo.None? && payload != "" {
      FlushIgnoresWaiting(env, c.(phase := Connected, pubPrefix := Some(env.prefixOf(payload))), c.pending, order, w);
    }
  }

  /**
   * Feeding the client line by line does what the frame parser's actions do, in
   * order; in particular the line after a MSG is its payload even if it reads like
   * an operation.  What stays due is what the parser has left over.
   */
  lemma {:induction false} LinesAreFrames(env: Env, c: Client, lines: seq<string>, orders: seq<seq<string>>)
    requires c.waiting.None? && WellFormed(lines) && Feedable(env, c, lines, orders)
    ensures var p := Parse(lines, orders);
            && Orderly(env, c, p.actions)
            && var (c', threw) := ActAll(env, c, p.actions);
               FeedLines(env, c, lines, orders) == (if threw then c' else c'.(waiting := p.due), threw)
    decreases |lines|
  {
    if lines == [] {
    } else if !IsMsg(lines[0]) {
      var (c1, threw) := Line(env, c, lines[0], orders[0]);
      OperationLine(env, c, lines, orders);
      if !threw {
        LinesAreFrames(env, c1, lines[1..], orders[1..]);
      }
    } else if |lines| == 1 {
      assert lines[1..] == [];
    } else {
      var frame := ParseOperation(lines[0]).frame;
      FrameLines(env, c, lines, orders);
      FrameKeepsWaiting(env, c, frame, lines[1], orders[1]);
      LinesAreFrames(env, OnFrame(env, c, frame, lines[1], orders[1]), lines[2..], orders[2..]);
    }
  }

  lemma {:induction false} OperationLine(env: Env, c: Client, lines: seq<string>, orders: seq<seq<string>>)
    requires c.waiting.None? && WellFormed(lines) && Feedable(env, c, lines, orders) && lines != []
    requires !IsMsg(lines[0])
    ensures var p := Parse(lines, orders);
            var rest := Parse(lines[1..], orders[1..]);
            && p == Parsed([p.actions[0]] + rest.actions, rest.due) && p.actions[0].Operate?
            && p.actions[1..] == rest.actions
            && Act(env, c, p.actions[0]) == Line(env, c, lines[0], orders[0])
            && Line(env, c, lines[0], orders[0]).0.waiting.None?
  {
    var p := Parse(lines, orders);
    assert p.actions[1..] == Parse(lines[1..], orders[1..]).actions;
  }

  /** A MSG line and its payload are one frame. */
  lemma {:induction false} FrameLines(env: Env, c: Client, lines: seq<string>, orders: seq<seq<string>>)
    requires c.waiting.None? && WellFormed(lines) && Feedable(env, c, lines, orders) && |lines| > 1
    requires IsMsg(lines[0])
    ensures var p := Parse(lines, orders);
            var rest := Parse(lines[2..], orders[2..]);
            var frame := ParseOperation(lines[0]).frame;
            && p.due == rest.due && |p.actions| > 0 && p.actions[0] == Receive(frame, lines[1], orders[1])
            && p.actions[1..] == rest.actions
            && R.Enumerates(orders[1], c.pending)
            && var c2 := OnFrame(env, c, frame, lines[1], orders[1]);
               && Feedable(env, c2, lines[2..], orders[2..])
               && FeedLines(env, c, lines, orders) == FeedLines(env, c2, lines[2..], orders[2..])
  {
    var frame := ParseOperation(lines[0]).frame;
    var c1 := Line(env, c, lines[0], orders[0]).0;
    assert c1 == c.(waiting := Some(frame));
    assert lines[1..][0] == lines[1] && lines[1..][1..] == lines[2..];
    assert orders[1..][0] == orders[1] && orders[1..][1..] == orders[2..];
    FrameIgnoresWaiting(env, c, frame, lines[1], orders[1], Some(frame));
    FrameKeepsWaiting(env, c, frame, lines[1], orders[1]);
    assert Line(env, c1, lines[1], orders[1]) == (OnFrame(env, c, frame, lines[1], orders[1]), false);
    var p := Parse(lines, orders);
    assert p.actions[1..] == Parse(lines[2..], orders[2..]).actions;
  }

  lemma FrameKeepsWaiting(env: Env, c: Client, frame: Frame, payload: string, order: seq<string>)
    requires c.waiting.None? && forall x :: x in order ==> x in c.pending
    ensures OnFrame(env, c, frame, payload, order).waiting.None?
  {
    FrameIgnoresWaiting(env, c, frame, payload, order, None);
    assert c.(waiting := None) == c;
  }
}

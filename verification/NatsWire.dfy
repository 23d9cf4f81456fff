/**
 * The bytes the client sends: MessageBuilder followed by the encoder, and a
 * reader of the NATS client protocol that takes the length in a PUB line at its
 * word.
 */
module NatsWire {
  import opened Common
  import opened NatsDecoder

  datatype Op = Pub(subject: string, replyTo: Option<string>, payload: string) | Line(text: string)

  // ---------- Decimal numbers ----------

  function Digit(d: nat): char
    requires d < 10
  {
    ('0' as int + d) as char
  }

  function Decimal(n: nat): (s: string)
    ensures s != ""
  {
    if n < 10 then [Digit(n)] else Decimal(n / 10) + [Digit(n % 10)]
  }

  function ParseDecimal(s: string): Option<nat> {
    if s == "" then None
    else
      var c := s[|s| - 1];
      if !('0' <= c <= '9') then None
      else if |s| == 1 then Some(c as int - '0' as int)
      else
        match ParseDecimal(s[..|s| - 1])
        case None => None
        case Some(h) => Some(10 * h + (c as int - '0' as int))
  }

  lemma {:induction false} DecimalRoundTrip(n: nat)
    ensures ParseDecimal(Decimal(n)) == Some(n)
    ensures ' ' !in Decimal(n) && '\r' !in Decimal(n)
  {
    if n >= 10 {
      DecimalRoundTrip(n / 10);
      var s := Decimal(n);
      assert s[..|s| - 1] == Decimal(n / 10);
    }
  }

  // ---------- Messages ----------

  /** MessageBuilder: the two createPubMessage functions, and one-line messages. */
  function Message(op: Op): string {
    match op
    case Pub(subject, Some(replyTo), payload) => PubLine(subject, replyTo, |payload|) + "\r\n" + payload
    case Pub(subject, None, _) => "PUB " + subject + " 0" + "\r\n"
    case Line(text) => text
  }

  function PubLine(subject: string, replyTo: string, length: nat): string {
    "PUB " + subject + " " + replyTo + " " + Decimal(length)
  }

  function Messages(ops: seq<Op>): seq<string> {
    if ops == [] then [] else [Message(ops[0])] + Messages(ops[1..])
  }

  /** What the encoder writes for a sequence of operations. */
  function Sent(ops: seq<Op>): string {
    Encode(Messages(ops))
  }

  // ---------- The reader ----------

  function FirstSpace(s: string): (i: nat)
    ensures i <= |s| && (forall j :: 0 <= j < i ==> s[j] != ' ') && (i < |s| ==> s[i] == ' ')
  {
    if s == "" || s[0] == ' ' then 0 else 1 + FirstSpace(s[1..])
  }

  function Fields(s: string): seq<string>
    decreases |s|
  {
    var i := FirstSpace(s);
    if i == |s| then [s] else [s[..i]] + Fields(s[i + 1..])
  }

  const PUB := "PUB "

  /** Subject, optional reply subject, and payload length. */
  function PubArguments(line: string): Option<(string, Option<string>, nat)>
    requires PUB <= line
  {
    var fields := Fields(line[4..]);
    if |fields| == 2 then
      match ParseDecimal(fields[1]) case None => None case Some(n) => Some((fields[0], None, n))
    else if |fields| == 3 then
      match ParseDecimal(fields[2]) case None => None case Some(n) => Some((fields[0], Some(fields[1]), n))
    else None
  }

  /** The first operation, and what follows it. */
  function ReadOp(s: string): (r: Option<(Op, string)>)
    ensures r.Some? ==> |r.value.1| < |s|
  {
    var i := FirstCr(s);
    if i + 1 >= |s| || s[i + 1] != '\n' then None
    else
      var line, rest := s[..i], s[i + 2..];
      if !(PUB <= line) then Some((Line(line), rest))
      else
        match PubArguments(line)
        case None => None
        case Some((subject, replyTo, n)) =>
          if |rest| < n + 2 || rest[n..n + 2] != "\r\n" then None
          else Some((Pub(subject, replyTo, rest[..n]), rest[n + 2..]))
  }

  function ReadOps(s: string): Option<seq<Op>>
    decreases |s|
  {
    if s == "" then Some([])
    else
      match ReadOp(s)
      case None => None
      case Some((op, rest)) =>
        match ReadOps(rest)
        case None => None
        case Some(ops) => Some([op] + ops)
  }

  // ---------- Round trip ----------

  predicate Token(s: string) {
    ' ' !in s && '\r' !in s
  }

  /** Operations the builder can write: subjects are single tokens, other lines single lines. */
  predicate Writable(op: Op) {
    match op
    case Pub(subject, Some(replyTo), _) => Token(subject) && Token(replyTo)
    case Pub(subject, None, payload) => Token(subject) && payload == ""
    case Line(text) => '\r' !in text && !(PUB <= text)
  }

  lemma {:induction false} FirstSpaceOf(a: string, rest: string)
    requires ' ' !in a
    ensures FirstSpace(a + " " + rest) == |a| && FirstSpace(a) == |a|
    decreases |a|
  {
    if a != "" {
      assert (a + " " + rest)[1..] == a[1..] + " " + rest;
      FirstSpaceOf(a[1..], rest);
    }
  }

  lemma FieldsCons(a: string, rest: string)
    requires ' ' !in a
    ensures Fields(a + " " + rest) == [a] + Fields(rest) && Fields(a) == [a]
  {
    var s := a + " " + rest;
    FirstSpaceOf(a, rest);
    assert s[..|a|] == a && s[|a| + 1..] == rest;
  }

  lemma ReadLine(line: string, rest: string)
    requires '\r' !in line
    ensures var s := line + "\r\n" + rest;
            FirstCr(s) == |line| && s[..|line|] == line && s[|line| + 1] == '\n' && s[|line| + 2..] == rest
  {
    FirstCrOfLine(line, rest);
  }

  /** A PUB line read back: its arguments, then exactly its payload, whatever bytes that holds. */
  lemma ReadPub(line: string, subject: string, replyTo: Option<string>, payload: string, rest: string)
    requires '\r' !in line && PUB <= line && PubArguments(line) == Some((subject, replyTo, |payload|))
    ensures ReadOp(line + "\r\n" + (payload + "\r\n" + rest)) == Some((Pub(subject, replyTo, payload), rest))
  {
    var after := payload + "\r\n" + rest;
    ReadLine(line, after);
    var n := |payload|;
    assert after[..n] == payload && after[n..n + 2] == "\r\n" && after[n + 2..] == rest;
  }

  lemma PubLineTail(subject: string, replyTo: string, n: nat)
    ensures var line := PubLine(subject, replyTo, n);
            PUB <= line && line[4..] == subject + " " + (replyTo + " " + Decimal(n))
  {
  }

  lemma NoCrInSum(a: string, b: string)
    requires '\r' !in a && '\r' !in b
    ensures '\r' !in a + b
  {
  }

  lemma PubLineIsOneLine(subject: string, replyTo: string, n: nat)
    requires Token(subject) && Token(replyTo)
    ensures '\r' !in PubLine(subject, replyTo, n)
  {
    DecimalRoundTrip(n);
    NoCrInSum("PUB ", subject);
    NoCrInSum("PUB " + subject, " ");
    NoCrInSum("PUB " + subject + " ", replyTo);
    NoCrInSum("PUB " + subject + " " + replyTo, " ");
    NoCrInSum("PUB " + subject + " " + replyTo + " ", Decimal(n));
  }

  lemma PubLineFields(subject: string, replyTo: string, n: nat)
    requires Token(subject) && Token(replyTo)
    ensures Fields(subject + " " + (replyTo + " " + Decimal(n))) == [subject, replyTo, Decimal(n)]
  {
    DecimalRoundTrip(n);
    FieldsCons(subject, replyTo + " " + Decimal(n));
    FieldsCons(replyTo, Decimal(n));
    FieldsCons(Decimal(n), "");
  }

  lemma PubLineReply(subject: string, replyTo: string, n: nat)
    requires Token(subject) && Token(replyTo)
    ensures var line := PubLine(subject, replyTo, n);
            '\r' !in line && PUB <= line && PubArguments(line) == Some((subject, Some(replyTo), n))
  {
    DecimalRoundTrip(n);
    PubLineIsOneLine(subject, replyTo, n);
    PubLineTail(subject, replyTo, n);
    PubLineFields(subject, replyTo, n);
  }

  lemma PubLineNoReply(subject: string)
    requires Token(subject)
    ensures var line := "PUB " + subject + " 0";
            '\r' !in line && PUB <= line && PubArguments(line) == Some((subject, None, 0))
  {
    var line := "PUB " + subject + " 0";
    assert line[4..] == subject + " " + "0";
    FieldsCons(subject, "0");
    FieldsCons("0", "");
    assert ParseDecimal("0") == Some(0);
    assert Fields(line[4..]) == [subject, "0"];
  }

  lemma Reassociate(a: string, b: string, c: string, d: string)
    ensures a + b + c + d == a + (b + c + d)
  {
  }

  lemma ReadsBackOne(op: Op, rest: string)
    requires Writable(op)
    ensures ReadOp(Message(op) + "\r\n" + rest) == Some((op, rest))
  {
    match op
    case Pub(subject, Some(replyTo), payload) =>
      PubLineReply(subject, replyTo, |payload|);
      var line := PubLine(subject, replyTo, |payload|);
      ReadPub(line, subject, Some(replyTo), payload, rest);
      Reassociate(line + "\r\n", payload, "\r\n", rest);
    case Pub(subject, None, payload) =>
      PubLineNoReply(subject);
      var line := "PUB " + subject + " 0";
      ReadPub(line, subject, None, "", rest);
      Reassociate(line + "\r\n", "", "\r\n", rest);
      assert line + "\r\n" + "" == line + "\r\n";
    case Line(text) =>
      ReadLine(text, rest);
  }

  /** Any sequence of operations reads back as written, payloads with CRLF in them included. */
  lemma {:induction false} ReadsBack(ops: seq<Op>)
    requires forall op :: op in ops ==> Writable(op)
    ensures ReadOps(Sent(ops)) == Some(ops)
    decreases |ops|
  {
    if ops != [] {
      assert Messages(ops)[1..] == Messages(ops[1..]);
      ReadsBackOne(ops[0], Sent(ops[1..]));
      ReadsBack(ops[1..]);
      assert [ops[0]] + ops[1..] == ops;
    }
  }
}

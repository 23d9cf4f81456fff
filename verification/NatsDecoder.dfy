/**
 * The NATS line codec: DecoderImpl byte by byte, and the CRLF split that it is
 * meant to compute however the bytes are cut into slices.
 */
module NatsDecoder {
  import opened Common

  datatype State = ValueRootStart | SimpleString | LF | ValueComplete

  /** `pending` is the message being built; `values` what the callbacks have received. */
  datatype Decoder = Decoder(state: State, pending: string, values: seq<string>)

  const START := Decoder(ValueRootStart, "", [])

  /** The decoder after some bytes, or as the throw leaves it. */
  datatype Fed = More(d: Decoder) | Threw(d: Decoder)

  /** One byte. */
  function Byte(d: Decoder, c: char): (r: Fed)
    requires !d.state.ValueComplete?
    ensures r.Threw? ==> r.d == d
    ensures !r.d.state.ValueComplete?
  {
    match d.state
    case LF =>
      if c != '\n' then Threw(d) else More(Decoder(ValueRootStart, "", d.values + [d.pending]))
    case _ =>
      var pending := if d.state.ValueRootStart? then "" else d.pending;
      if c == '\r' then More(Decoder(LF, pending, d.values))
      else More(Decoder(SimpleString, pending + [c], d.values))
  }

  /** All the bytes of a slice, up to one at which the decoder throws. */
  function Feed(d: Decoder, s: string): (r: Fed)
    requires !d.state.ValueComplete?
    ensures !r.d.state.ValueComplete?
    decreases |s|
  {
    if s == "" then More(d)
    else
      var r := Byte(d, s[0]);
      if r.Threw? then r else Feed(r.d, s[1..])
  }

  function FeedAll(d: Decoder, slices: seq<string>): (r: Fed)
    requires !d.state.ValueComplete?
    ensures !r.d.state.ValueComplete?
    decreases |slices|
  {
    if slices == [] then More(d)
    else
      var r := Feed(d, slices[0]);
      if r.Threw? then r else FeedAll(r.d, slices[1..])
  }

  // ---------- The object ----------

  class DecoderImpl {
    var state: State
    var pendingValueRoot: string
    var values: seq<string>

    constructor ()
      ensures View() == START
    {
      state, pendingValueRoot, values := ValueRootStart, "", [];
    }

    ghost function View(): Decoder
      reads this
    {
      Decoder(state, pendingValueRoot, values)
    }

    /** The value after the callback that is due in ValueComplete. */
    ghost function Settled(): Decoder
      reads this
    {
      if state.ValueComplete? then Decoder(ValueRootStart, "", values + [pendingValueRoot]) else View()
    }

    /** How many transitions can follow without a byte being consumed. */
    function Rank(): nat
      reads this
    {
      match state case ValueComplete => 2 case ValueRootStart => 1 case _ => 0
    }

    /** `ok` is false when ProtocolError is thrown; the messages before it have been called back. */
    method ParseSlice(slice: string) returns (ok: bool)
      requires !state.ValueComplete?
      modifies this
      ensures ok <==> Feed(old(View()), slice).More?
      ensures View() == Feed(old(View()), slice).d && !state.ValueComplete?
    {
      var i := 0;
      assert slice[0..] == slice;
      while i < |slice| || state == ValueComplete
        invariant 0 <= i <= |slice|
        invariant Feed(Settled(), slice[i..]) == Feed(old(View()), slice)
        decreases |slice| - i, Rank()
      {
        match state {
          case ValueRootStart =>
            pendingValueRoot := "";
            state := SimpleString;
          case SimpleString =>
            if slice[i] == '\r' {
              state := LF;
            } else {
              pendingValueRoot := pendingValueRoot + [slice[i]];
            }
            i := i + 1;
          case LF =>
            if slice[i] != '\n' {
              return false;
            }
            i := i + 1;
            state := ValueComplete;
          case ValueComplete =>
            values := values + [pendingValueRoot];
            pendingValueRoot := "";
            state := ValueRootStart;
        }
      }
      ok := true;
    }

    method Decode(slices: seq<string>) returns (ok: bool)
      requires !state.ValueComplete?
      modifies this
      ensures ok <==> FeedAll(old(View()), slices).More?
      ensures View() == FeedAll(old(View()), slices).d && !state.ValueComplete?
    {
      var i := 0;
      assert slices[0..] == slices;
      while i < |slices|
        invariant 0 <= i <= |slices| && !state.ValueComplete?
        invariant FeedAll(View(), slices[i..]) == FeedAll(old(View()), slices)
      {
        assert slices[i..][1..] == slices[i + 1..];
        ok := ParseSlice(slices[i]);
        if !ok {
          return;
        }
        i := i + 1;
      }
      ok := true;
    }
  }

  // ---------- Slicing does not matter ----------

  function Concat(slices: seq<string>): string {
    if slices == [] then "" else slices[0] + Concat(slices[1..])
  }

  lemma {:induction false} FeedSum(d: Decoder, a: string, b: string)
    requires !d.state.ValueComplete?
    ensures Feed(d, a + b) == var r := Feed(d, a); if r.Threw? then r else Feed(r.d, b)
    decreases |a|
  {
    if a == "" {
      assert a + b == b;
    } else {
      assert (a + b)[1..] == a[1..] + b;
      if Byte(d, a[0]).More? {
        FeedSum(Byte(d, a[0]).d, a[1..], b);
      }
    }
  }

  /** However the bytes are cut into slices, and wherever the decoder stood before. */
  lemma {:induction false} SlicingIrrelevant(d: Decoder, slices: seq<string>)
    requires !d.state.ValueComplete?
    ensures FeedAll(d, slices) == Feed(d, Concat(slices))
    decreases |slices|
  {
    if slices != [] {
      FeedSum(d, slices[0], Concat(slices[1..]));
      if Feed(d, slices[0]).More? {
        SlicingIrrelevant(Feed(d, slices[0]).d, slices[1..]);
      }
    }
  }

  // ---------- The split that the decoder computes ----------

  /** The position of the first carriage return, or the length. */
  function FirstCr(s: string): (i: nat)
    ensures i <= |s| && (forall j :: 0 <= j < i ==> s[j] != '\r') && (i < |s| ==> s[i] == '\r')
  {
    if s == "" || s[0] == '\r' then 0 else 1 + FirstCr(s[1..])
  }

  /** Where a split stops: in text, at a carriage return that is last, or at one that no line feed follows. */
  datatype End = InText | AtCr | BadCr

  /** The complete lines, the text after them, and where the split stops. */
  datatype Lines = Lines(lines: seq<string>, tail: string, end: End)

  function Split(s: string): Lines
    decreases |s|
  {
    var i := FirstCr(s);
    if i == |s| then Lines([], s, InText)
    else if i + 1 == |s| then Lines([], s[..i], AtCr)
    else if s[i + 1] != '\n' then Lines([], s[..i], BadCr)
    else var l := Split(s[i + 2..]); l.(lines := [s[..i]] + l.lines)
  }

  /** The decoder that has called the lines back, and where it stands. */
  function Standing(values: seq<string>, l: Lines): Fed {
    var text := Decoder(if l.tail == "" then ValueRootStart else SimpleString, l.tail, values + l.lines);
    match l.end
    case InText => More(text)
    case AtCr => More(text.(state := LF))
    case BadCr => Threw(text.(state := LF))
  }

  lemma {:induction false} FeedText(d: Decoder, s: string)
    requires d.state.SimpleString? && '\r' !in s
    ensures Feed(d, s) == More(d.(pending := d.pending + s))
    decreases |s|
  {
    if s == "" {
      assert d.pending + s == d.pending;
    } else {
      FeedText(d.(pending := d.pending + [s[0]]), s[1..]);
      assert d.pending + [s[0]] + s[1..] == d.pending + s;
    }
  }

  lemma FeedLine(values: seq<string>, text: string)
    requires '\r' !in text
    ensures Feed(Decoder(ValueRootStart, "", values), text)
         == More(Decoder(if text == "" then ValueRootStart else SimpleString, text, values))
  {
    if text != "" {
      assert "" + [text[0]] == [text[0]];
      FeedText(Decoder(SimpleString, [text[0]], values), text[1..]);
      assert [text[0]] + text[1..] == text;
    }
  }

  /** A line up to and including its carriage return. */
  lemma FeedLineCr(values: seq<string>, s: string, i: nat)
    requires i < |s| && s[i] == '\r' && '\r' !in s[..i]
    ensures Feed(Decoder(ValueRootStart, "", values), s) == Feed(Decoder(LF, s[..i], values), s[i + 1..])
  {
    assert s == s[..i] + s[i..];
    FeedSum(Decoder(ValueRootStart, "", values), s[..i], s[i..]);
    FeedLine(values, s[..i]);
    assert s[i..][1..] == s[i + 1..];
  }

  /** A decoder that starts on a fresh message computes exactly the split. */
  lemma {:induction false} DecodesSplit(values: seq<string>, s: string)
    ensures Feed(Decoder(ValueRootStart, "", values), s) == Standing(values, Split(s))
    decreases |s|
  {
    var i := FirstCr(s);
    assert values + [] == values;
    if i == |s| {
      FeedLine(values, s);
    } else {
      FeedLineCr(values, s, i);
      if i + 1 < |s| && s[i + 1] == '\n' {
        assert s[i + 1..][1..] == s[i + 2..];
        DecodesSplit(values + [s[..i]], s[i + 2..]);
        AssocCons(values, s[..i], Split(s[i + 2..]).lines);
      }
    }
  }

  lemma AssocCons(a: seq<string>, x: string, b: seq<string>)
    ensures a + [x] + b == a + ([x] + b)
  {
  }

  /** Where a decoder can stand between two slices. */
  predicate Between(d: Decoder) {
    match d.state
    case ValueRootStart => d.pending == ""
    case SimpleString => d.pending != "" && '\r' !in d.pending
    case LF => '\r' !in d.pending
    case ValueComplete => false
  }

  /** The bytes of the message being built. */
  function Carried(d: Decoder): string {
    d.pending + if d.state.LF? then "\r" else ""
  }

  lemma {:induction false} FeedKeepsBetween(d: Decoder, s: string)
    requires Between(d)
    ensures Between(Feed(d, s).d)
    decreases |s|
  {
    if s != "" && Byte(d, s[0]).More? {
      FeedKeepsBetween(Byte(d, s[0]).d, s[1..]);
    }
  }

  lemma CarriedFeeds(d: Decoder)
    requires Between(d)
    ensures Feed(Decoder(ValueRootStart, "", d.values), Carried(d)) == More(d)
  {
    var p := d.pending;
    if d.state.LF? {
      assert (p + "\r")[..|p|] == p && (p + "\r")[|p| + 1..] == "";
      FeedLineCr(d.values, p + "\r", |p|);
    } else {
      FeedLine(d.values, p);
      assert p + "" == p;
    }
  }

  /**
   * In any state between slices, and for any further slices, the decoder computes the
   * split of the bytes it carries followed by those it is given: it has called back the
   * lines of the split, even if it throws, and otherwise is between slices again.
   */
  lemma DecodesSplitFrom(d: Decoder, slices: seq<string>)
    requires Between(d)
    ensures FeedAll(d, slices) == Standing(d.values, Split(Carried(d) + Concat(slices)))
    ensures Between(FeedAll(d, slices).d)
  {
    SlicingIrrelevant(d, slices);
    CarriedFeeds(d);
    FeedSum(Decoder(ValueRootStart, "", d.values), Carried(d), Concat(slices));
    DecodesSplit(d.values, Carried(d) + Concat(slices));
    FeedKeepsBetween(d, Concat(slices));
  }

  // ---------- Round trip ----------

  function Encode(ms: seq<string>): string {
    if ms == [] then "" else ms[0] + "\r\n" + Encode(ms[1..])
  }

  lemma {:induction false} FirstCrOfLine(m: string, rest: string)
    ensures FirstCr(m + "\r\n" + rest) == FirstCr(m)
    decreases |m|
  {
    var s := m + "\r\n" + rest;
    if m != "" && m[0] != '\r' {
      assert s[1..] == m[1..] + "\r\n" + rest;
      FirstCrOfLine(m[1..], rest);
    }
  }

  lemma SplitOfCleanLine(m: string, rest: string)
    requires '\r' !in m
    ensures Split(m + "\r\n" + rest) == Split(rest).(lines := [m] + Split(rest).lines)
  {
    var s := m + "\r\n" + rest;
    FirstCrOfLine(m, rest);
    assert FirstCr(s) == |m|;
    assert s[..|m|] == m && s[|m| + 1] == '\n' && s[|m| + 2..] == rest;
  }

  /** A message with a carriage return comes back cut short, or not at all. */
  lemma SplitOfDirtyLine(m: string, rest: string, l: Lines)
    requires '\r' in m && l.lines != [] && l.lines[0] == m
    ensures Split(m + "\r\n" + rest) != l
  {
    var s := m + "\r\n" + rest;
    FirstCrOfLine(m, rest);
    assert FirstCr(s) < |m|;
    assert |s[..FirstCr(s)]| < |m|;
  }

  predicate CrFree(ms: seq<string>) {
    forall m :: m in ms ==> '\r' !in m
  }

  lemma CrFreeCons(m: string, ms: seq<string>)
    ensures CrFree([m] + ms) <==> '\r' !in m && CrFree(ms)
  {
    if CrFree([m] + ms) {
      assert m in [m] + ms;
      forall x | x in ms
        ensures '\r' !in x
      {
        assert x in [m] + ms;
      }
    }
  }

  /**
   * Decoding what was encoded gives the messages back exactly when none of them
   * contains a carriage return.
   */
  lemma {:induction false} RoundTripExactly(ms: seq<string>)
    ensures Split(Encode(ms)) == Lines(ms, "", InText) <==> CrFree(ms)
    decreases |ms|
  {
    if ms != [] {
      var m, rest := ms[0], ms[1..];
      assert ms == [m] + rest;
      RoundTripExactly(rest);
      CrFreeCons(m, rest);
      if '\r' in m {
        SplitOfDirtyLine(m, Encode(rest), Lines(ms, "", InText));
      } else {
        SplitOfCleanLine(m, Encode(rest));
        ConsLines(m, rest, Split(Encode(rest)));
      }
    }
  }

  lemma ConsLines(m: string, ms: seq<string>, l: Lines)
    ensures l.(lines := [m] + l.lines) == Lines([m] + ms, "", InText) <==> l == Lines(ms, "", InText)
  {
    if [m] + l.lines == [m] + ms {
      assert ([m] + l.lines)[1..] == l.lines;
      assert ([m] + ms)[1..] == ms;
    }
  }

  /**
   * A fresh decoder that is handed the encoding of some messages, in any slices,
   * calls back with exactly those messages, and is at rest, if and only if they
   * contain no carriage return.
   */
  lemma DecoderRoundTrip(ms: seq<string>, slices: seq<string>)
    requires Concat(slices) == Encode(ms)
    ensures FeedAll(START, slices) == More(Decoder(ValueRootStart, "", ms)) <==> CrFree(ms)
  {
    SlicingIrrelevant(START, slices);
    DecodesSplit([], Encode(ms));
    RoundTripExactly(ms);
    var l := Split(Encode(ms));
    assert [] + l.lines == l.lines;
    assert l == Lines(ms, "", InText) <==> l.lines == ms && l.tail == "" && l.end.InText?;
  }
}

/**
 * The NUID generator: 12 characters of prefix and a 10-digit base-62 sequence
 * number.  The random generator's draws are parameters.
 */
module Nuid {
  import opened Common

  const DECIMAL := "0123456789"
  const UPPER := "ABCDEFGHIJKLMNOPQRSTUVWXYZ"
  const LOWER := "abcdefghijklmnopqrstuvwxyz"
  const DIGITS := DECIMAL + UPPER + LOWER
  const BASE: nat := 62
  const PRE_LEN: nat := 12
  const SEQ_LEN: nat := 10
  const MAX_SEQ: nat := 839299365868340224
  const MIN_INC: nat := 33
  const MAX_INC: nat := 333

  function Pow62(k: nat): (r: nat)
    ensures r > 0
  {
    if k == 0 then 1 else 62 * Pow62(k - 1)
  }

  lemma MaxSeqIsPow()
    ensures Pow62(SEQ_LEN) == MAX_SEQ
  {
    assert Pow62(5) == 916132832 by {
      assert Pow62(2) == 3844 && Pow62(3) == 238328 && Pow62(4) == 14776336;
    }
    assert Pow62(7) == 3521614606208 by {
      assert Pow62(6) == 56800235584;
    }
    assert Pow62(9) == 13537086546263552 by {
      assert Pow62(8) == 218340105584896;
    }
  }

  /** The fixed-width base-62 numeral of n, most significant digit first. */
  function Numeral(len: nat, n: nat): (s: string)
    ensures |s| == len
  {
    if len == 0 then "" else Numeral(len - 1, n / 62) + [DIGITS[n % 62]]
  }

  /** Strict lexicographic order of strings of one length. */
  ghost predicate Before(a: string, b: string) {
    |a| == |b| && exists i :: 0 <= i < |a| && a[..i] == b[..i] && a[i] < b[i]
  }

  lemma BeforeIsStrict(a: string, b: string)
    requires Before(a, b)
    ensures a != b
  {
  }

  lemma DecimalAt(k: nat)
    requires k < 10
    ensures DECIMAL[k] as int == '0' as int + k
  {
  }

  lemma UpperAt(k: nat)
    requires k < 26
    ensures UPPER[k] as int == 'A' as int + k
  {
  }

  lemma LowerAt(k: nat)
    requires k < 26
    ensures LOWER[k] as int == 'a' as int + k
  {
  }

  lemma DigitAt(k: nat)
    requires k < 62
    ensures |DIGITS| == 62
    ensures DIGITS[k] as int ==
            if k < 10 then '0' as int + k else if k < 36 then 'A' as int + k - 10 else 'a' as int + k - 36
  {
    if k < 10 {
      DecimalAt(k);
    } else if k < 36 {
      UpperAt(k - 10);
    } else {
      LowerAt(k - 36);
    }
  }

  lemma DigitsIncrease(i: nat, j: nat)
    requires i < j < 62
    ensures |DIGITS| == 62 && DIGITS[i] < DIGITS[j]
  {
    DigitAt(i);
    DigitAt(j);
  }

  lemma BeforeAtLast(p: string, c: char, d: char)
    requires c < d
    ensures Before(p + [c], p + [d])
  {
    assert (p + [c])[..|p|] == p == (p + [d])[..|p|];
    assert (p + [c])[|p|] < (p + [d])[|p|];
  }

  lemma BeforeExtends(p: string, q: string, c: char, d: char)
    requires Before(p, q)
    ensures Before(p + [c], q + [d])
  {
    var i :| 0 <= i < |p| && p[..i] == q[..i] && p[i] < q[i];
    assert (p + [c])[..i] == p[..i] && (q + [d])[..i] == q[..i];
    assert (p + [c])[i] < (q + [d])[i];
  }

  lemma DivLess(n: nat, k: nat)
    requires n < 62 * k
    ensures n / 62 < k
  {
  }

  lemma DivModOrder(n: nat, m: nat)
    requires n < m
    ensures n / 62 < m / 62 || (n / 62 == m / 62 && n % 62 < m % 62)
  {
  }

  lemma NumeralUnfolds(len: nat, n: nat)
    requires len > 0
    ensures Numeral(len, n) == Numeral(len - 1, n / 62) + [DIGITS[n % 62]]
  {
  }

  /** Numerals of one width are ordered as the numbers are. */
  lemma {:induction false} NumeralsInOrder(len: nat, n: nat, m: nat)
    requires n < m < Pow62(len)
    ensures Before(Numeral(len, n), Numeral(len, m))
    decreases len
  {
    assert len > 0;
    NumeralUnfolds(len, n);
    NumeralUnfolds(len, m);
    DivModOrder(n, m);
    if n / 62 < m / 62 {
      DivLess(m, Pow62(len - 1));
      NumeralsInOrder(len - 1, n / 62, m / 62);
      BeforeExtends(Numeral(len - 1, n / 62), Numeral(len - 1, m / 62), DIGITS[n % 62], DIGITS[m % 62]);
    } else {
      DigitsIncrease(n % 62, m % 62);
      BeforeAtLast(Numeral(len - 1, n / 62), DIGITS[n % 62], DIGITS[m % 62]);
    }
  }

  lemma NumeralInjective(len: nat, n: nat, m: nat)
    requires n < Pow62(len) && m < Pow62(len) && Numeral(len, n) == Numeral(len, m)
    ensures n == m
  {
    if n < m {
      NumeralsInOrder(len, n, m);
    } else if m < n {
      NumeralsInOrder(len, m, n);
    }
  }

  // ---------- The generator as a value ----------

  datatype Generator = Generator(pre: string, sequence: nat, inc: nat)

  ghost predicate Valid(g: Generator) {
    |g.pre| == PRE_LEN && g.sequence < MAX_SEQ && MIN_INC <= g.inc < MAX_INC
  }

  /** The four draws a call makes when the sequence runs out. */
  datatype Draws = Draws(pre1: nat, pre2: nat, sequence: nat, inc: nat)

  function RandomPrefix(a: nat, b: nat): string {
    Numeral(SEQ_LEN, a % MAX_SEQ) + Numeral(PRE_LEN - SEQ_LEN, b % (BASE * BASE))
  }

  predicate Resets(g: Generator) {
    g.sequence + g.inc >= MAX_SEQ
  }

  function Next(g: Generator, d: Draws): (r: Generator)
    requires Valid(g)
    ensures Valid(r) && g.sequence + g.inc < 0x1_0000_0000_0000_0000
  {
    if Resets(g) then
      Generator(RandomPrefix(d.pre1, d.pre2), d.sequence % MAX_SEQ, MIN_INC + d.inc % (MAX_INC - MIN_INC))
    else g.(sequence := g.sequence + g.inc)
  }

  function Token(g: Generator): string {
    g.pre + Numeral(SEQ_LEN, g.sequence)
  }

  // ---------- The object ----------

  class NuidGenerator {
    var pre: array<char>
    var sequence: nat
    var inc: nat

    ghost function View(): Generator
      reads this, pre
    {
      Generator(pre[..], sequence, inc)
    }

    constructor (sequence: nat, d: Draws)
      requires sequence < MAX_SEQ
      ensures Valid(View()) && fresh(pre)
      ensures View() == Generator(RandomPrefix(d.pre1, d.pre2), sequence, MIN_INC + d.inc % (MAX_INC - MIN_INC))
    {
      pre := new char[PRE_LEN];
      this.sequence := sequence;
      inc := MIN_INC + d.inc % (MAX_INC - MIN_INC);
      new;
      RandomizePrefix(d.pre1, d.pre2);
    }

    /** Writes len digits of n at `offset`, last digit first. */
    static method Convert(len: nat, n: nat, output: array<char>, offset: nat)
      requires len <= 10 && offset + len <= output.Length
      modifies output
      ensures output[offset..offset + len] == Numeral(len, n)
      ensures output[..offset] == old(output[..offset]) && output[offset + len..] == old(output[offset + len..])
    {
      var i := 1;
      var rest: nat := n;
      while i <= len
        invariant 1 <= i <= len + 1
        invariant Numeral(len, n) == Numeral(len + 1 - i, rest) + output[offset + len + 1 - i..offset + len]
        invariant output[..offset] == old(output[..offset])
        invariant output[offset + len..] == old(output[offset + len..])
      {
        ghost var done := output[offset + len + 1 - i..offset + len];
        output[offset + len - i] := DIGITS[rest % BASE];
        assert output[offset + len - i..offset + len] == [DIGITS[rest % 62]] + done;
        rest := rest / BASE;
        i := i + 1;
      }
    }

    method RandomizePrefix(a: nat, b: nat)
      requires pre.Length == PRE_LEN
      modifies pre
      ensures pre[..] == RandomPrefix(a, b)
    {
      Convert(SEQ_LEN, a % MAX_SEQ, pre, 0);
      assert pre[..SEQ_LEN] == pre[0..0 + SEQ_LEN];
      Convert(PRE_LEN - SEQ_LEN, b % (BASE * BASE), pre, SEQ_LEN);
      assert pre[..] == pre[..SEQ_LEN] + pre[SEQ_LEN..SEQ_LEN + (PRE_LEN - SEQ_LEN)];
    }

    method ResetSequential(d: Draws)
      modifies this`sequence, this`inc
      ensures sequence == d.sequence % MAX_SEQ && inc == MIN_INC + d.inc % (MAX_INC - MIN_INC)
    {
      sequence := d.sequence % MAX_SEQ;
      inc := MIN_INC + d.inc % (MAX_INC - MIN_INC);
    }

    method NextToken(d: Draws) returns (token: string)
      requires Valid(View())
      modifies this, pre
      ensures pre == old(pre) && View() == Next(old(View()), d) && token == Token(View())
    {
      sequence := sequence + inc;
      if sequence >= MAX_SEQ {
        RandomizePrefix(d.pre1, d.pre2);
        ResetSequential(d);
      }
      var digits := new char[SEQ_LEN];
      Convert(SEQ_LEN, sequence, digits, 0);
      assert digits[..] == digits[0..0 + SEQ_LEN];
      token := pre[..] + digits[..];
    }
  }

  // ---------- Tokens are read ----------

  function DigitValue(c: char): nat {
    if '0' <= c <= '9' then c as int - '0' as int
    else if 'A' <= c <= 'Z' then c as int - 'A' as int + 10
    else if 'a' <= c <= 'z' then c as int - 'a' as int + 36
    else 0
  }

  /** A number in base 62, most significant digit first. */
  function ReadNumeral(s: string): nat {
    if s == "" then 0 else 62 * ReadNumeral(s[..|s| - 1]) + DigitValue(s[|s| - 1])
  }

  lemma {:induction false} NumeralReads(len: nat, n: nat)
    requires n < Pow62(len)
    ensures ReadNumeral(Numeral(len, n)) == n
    decreases len
  {
    if len > 0 {
      NumeralUnfolds(len, n);
      DivLess(n, Pow62(len - 1));
      NumeralReads(len - 1, n / 62);
      DigitAt(n % 62);
      assert Numeral(len, n)[..len - 1] == Numeral(len - 1, n / 62);
    }
  }

  /**
   * A token has 22 characters. Read in base 62 its last ten are the sequence number, which
   * went forward by the increment; when that reaches 62^10 the prefix, the sequence number
   * and the increment, between 33 and 332, are all drawn anew.
   */
  lemma {:induction false} NextTokenReads(g: Generator, d: Draws)
    requires Valid(g)
    ensures var h, t := Next(g, d), Token(Next(g, d));
            && |t| == 22 && t[..12] == h.pre
            && if g.sequence + g.inc < 839299365868340224 then
                 h.pre == g.pre && h.inc == g.inc && ReadNumeral(t[12..]) == g.sequence + g.inc
               else
                 && ReadNumeral(t[12..]) == d.sequence % 839299365868340224
                 && ReadNumeral(t[..10]) == d.pre1 % 839299365868340224 && ReadNumeral(t[10..12]) == d.pre2 % 3844
                 && h.inc == 33 + d.inc % 300
  {
    var h, t := Next(g, d), Token(Next(g, d));
    MaxSeqIsPow();
    NumeralReads(SEQ_LEN, h.sequence);
    assert t[12..] == Numeral(SEQ_LEN, h.sequence);
    if Resets(g) {
      var a, b := Numeral(SEQ_LEN, d.pre1 % MAX_SEQ), Numeral(PRE_LEN - SEQ_LEN, d.pre2 % (BASE * BASE));
      assert Pow62(2) == 3844;
      NumeralReads(SEQ_LEN, d.pre1 % MAX_SEQ);
      NumeralReads(PRE_LEN - SEQ_LEN, d.pre2 % (BASE * BASE));
      assert t[..10] == a && t[10..12] == b;
    }
  }

  // ---------- Tokens are distinct ----------

  /** Two tokens agree exactly when both prefix and sequence number do. */
  lemma TokensAgreeExactly(g: Generator, h: Generator)
    requires Valid(g) && Valid(h)
    ensures Token(g) == Token(h) <==> g.pre == h.pre && g.sequence == h.sequence
  {
    MaxSeqIsPow();
    if Token(g) == Token(h) {
      assert Token(g)[..PRE_LEN] == g.pre && Token(h)[..PRE_LEN] == h.pre;
      assert Token(g)[PRE_LEN..] == Numeral(SEQ_LEN, g.sequence);
      assert Token(h)[PRE_LEN..] == Numeral(SEQ_LEN, h.sequence);
      NumeralInjective(SEQ_LEN, g.sequence, h.sequence);
    }
  }

  /** The generator after each of a series of calls. */
  function After(g: Generator, draws: seq<Draws>): (r: Generator)
    requires Valid(g)
    ensures Valid(r)
    decreases |draws|
  {
    if draws == [] then g else After(Next(g, draws[0]), draws[1..])
  }

  ghost predicate NoReset(g: Generator, draws: seq<Draws>)
    requires Valid(g)
    decreases |draws|
  {
    draws != [] ==> !Resets(g) && NoReset(Next(g, draws[0]), draws[1..])
  }

  /** The prefix is kept exactly as long as the sequence stays below its bound. */
  lemma {:induction false} NoResetExactly(g: Generator, draws: seq<Draws>)
    requires Valid(g)
    ensures NoReset(g, draws) <==> g.sequence + |draws| * g.inc < MAX_SEQ
    decreases |draws|
  {
    if draws != [] {
      var rest := |draws| - 1;
      OneMoreStep(rest, g.inc);
      if !Resets(g) {
        NoResetExactly(Next(g, draws[0]), draws[1..]);
      }
    }
  }

  lemma OneMoreStep(k: nat, inc: nat)
    ensures (k + 1) * inc == inc + k * inc && k * inc >= 0
  {
  }

  lemma {:induction false} SteadyCalls(g: Generator, draws: seq<Draws>)
    requires Valid(g) && NoReset(g, draws)
    ensures After(g, draws) == g.(sequence := g.sequence + |draws| * g.inc)
    decreases |draws|
  {
    if draws != [] {
      var rest := |draws| - 1;
      OneMoreStep(rest, g.inc);
      SteadyCalls(Next(g, draws[0]), draws[1..]);
    }
  }

  lemma BehindPrefix(pre: string, a: string, i: nat)
    requires i < |a|
    ensures (pre + a)[..|pre| + i] == pre + a[..i] && (pre + a)[|pre| + i] == a[i]
  {
  }

  /** A common prefix does not change the order. */
  lemma BeforeWithPrefix(pre: string, a: string, b: string)
    requires Before(a, b)
    ensures Before(pre + a, pre + b)
  {
    var i :| 0 <= i < |a| && a[..i] == b[..i] && a[i] < b[i];
    BehindPrefix(pre, a, i);
    BehindPrefix(pre, b, i);
  }

  lemma StepsAreForward(k: nat, inc: nat)
    requires k > 0 && inc > 0
    ensures k * inc > 0
  {
  }

  /**
   * Between two changes of prefix all tokens share the prefix and strictly increase
   * in lexicographic order, whatever the number of calls in between.
   */
  lemma TokensIncrease(g: Generator, draws: seq<Draws>)
    requires Valid(g) && NoReset(g, draws) && draws != []
    ensures var h := After(g, draws); h.pre == g.pre && Before(Token(g), Token(h)) && Token(g) != Token(h)
  {
    var h := After(g, draws);
    SteadyCalls(g, draws);
    StepsAreForward(|draws|, g.inc);
    MaxSeqIsPow();
    NumeralsInOrder(SEQ_LEN, g.sequence, h.sequence);
    BeforeWithPrefix(g.pre, Numeral(SEQ_LEN, g.sequence), Numeral(SEQ_LEN, h.sequence));
    BeforeIsStrict(Token(g), Token(h));
  }

  lemma MultiplesGrow(i: nat, j: nat, inc: nat)
    requires i <= j
    ensures i * inc <= j * inc && (i < j && inc > 0 ==> i * inc < j * inc)
  {
  }

  /** What the (i + 1)-st of a series of calls returns. */
  function TokenAt(g: Generator, draws: seq<Draws>, i: nat): string
    requires Valid(g) && i < |draws|
    decreases i
  {
    var h := Next(g, draws[0]);
    if i == 0 then Token(h) else TokenAt(h, draws[1..], i - 1)
  }

  /** The generator n calls further, within the prefix. */
  function Ahead(g: Generator, n: nat): Generator {
    g.(sequence := g.sequence + n * g.inc)
  }

  lemma AheadOnce(g: Generator, n: nat)
    ensures Ahead(Ahead(g, 1), n) == Ahead(g, n + 1) && Ahead(g, 1) == g.(sequence := g.sequence + g.inc)
  {
  }

  lemma {:induction false} TokenWithinPrefix(g: Generator, draws: seq<Draws>, i: nat)
    requires Valid(g) && NoReset(g, draws) && i < |draws|
    ensures Valid(Ahead(g, i + 1)) && TokenAt(g, draws, i) == Token(Ahead(g, i + 1))
    decreases i
  {
    AheadOnce(g, i);
    if i > 0 {
      TokenWithinPrefix(Ahead(g, 1), draws[1..], i - 1);
    }
  }

  /** No two calls of a series without a change of prefix return the same token. */
  lemma TokensDiffer(g: Generator, draws: seq<Draws>, i: nat, j: nat)
    requires Valid(g) && NoReset(g, draws) && i < j < |draws|
    ensures TokenAt(g, draws, i) != TokenAt(g, draws, j)
  {
    TokenWithinPrefix(g, draws, i);
    TokenWithinPrefix(g, draws, j);
    MultiplesGrow(i + 1, j + 1, g.inc);
    TokensAgreeExactly(Ahead(g, i + 1), Ahead(g, j + 1));
  }

  /** Later calls of such a series return greater tokens. */
  lemma TokensAscend(g: Generator, draws: seq<Draws>, i: nat, j: nat)
    requires Valid(g) && NoReset(g, draws) && i < j < |draws|
    ensures Before(TokenAt(g, draws, i), TokenAt(g, draws, j))
  {
    TokenWithinPrefix(g, draws, i);
    TokenWithinPrefix(g, draws, j);
    MultiplesGrow(i + 1, j + 1, g.inc);
    MaxSeqIsPow();
    var a, b := Ahead(g, i + 1), Ahead(g, j + 1);
    NumeralsInOrder(SEQ_LEN, a.sequence, b.sequence);
    BeforeWithPrefix(g.pre, Numeral(SEQ_LEN, a.sequence), Numeral(SEQ_LEN, b.sequence));
  }
}

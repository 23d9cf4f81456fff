/**
 * Callbacks that cancel other calls. A callback may destroy filters, and a filter that
 * waits cancels its call, which leaves a list that may be the one being drained. The
 * lists are played through here one callback at a time; the outcome is that of a run in
 * which those calls are cancelled first.
 */
module StsReentry {
  import opened Common
  import opened StsModel
  import opened StsFlight
  import opened StsDrains
  import opened StsLedger
  import opened StsRuns

  /** The waiting callers by key, and the answers given. */
  datatype Desk = Desk(lists: map<string, seq<nat>>, answers: seq<Answer>)

  function DeskOf(s: Provider): Desk {
    Desk(map k | k in s.pools :: s.pools[k].waiters, s.answers)
  }

  /** Whose contexts are cancelled in the callback to a caller. */
  type Quits = map<nat, set<nat>>

  /** A caller that is called back holds no context any more. */
  function Leaving(quits: Quits, n: nat): set<nat> {
    if n in quits then quits[n] - {n} else {}
  }

  // ---------- Lists without some callers ----------

  function Keep(w: seq<nat>, gone: set<nat>): (r: seq<nat>)
    ensures |r| <= |w|
    ensures forall n :: n in r <==> n in w && n !in gone
  {
    if w == [] then []
    else
      var last := w[|w| - 1];
      assert w == w[..|w| - 1] + [last];
      Keep(w[..|w| - 1], gone) + if last in gone then [] else [last]
  }

  lemma {:induction false} KeepTwice(w: seq<nat>, a: set<nat>, b: set<nat>)
    ensures Keep(Keep(w, a), b) == Keep(w, a + b)
    decreases |w|
  {
    if w != [] {
      var front, last := w[..|w| - 1], w[|w| - 1];
      KeepTwice(front, a, b);
      if last !in a {
        var kept := Keep(front, a) + [last];
        assert kept[..|kept| - 1] == Keep(front, a);
      } else {
        assert Keep(front, a) + [] == Keep(front, a);
      }
    }
  }

  lemma {:induction false} KeepAll(w: seq<nat>, gone: set<nat>)
    requires forall n :: n in w ==> n !in gone
    ensures Keep(w, gone) == w
    decreases |w|
  {
    if w != [] {
      var front, last := w[..|w| - 1], w[|w| - 1];
      assert w == front + [last];
      KeepAll(front, gone);
    }
  }

  function Rest(w: seq<nat>): (r: seq<nat>)
    requires w != []
    ensures w == r + [w[|w| - 1]]
  {
    w[..|w| - 1]
  }

  /** The caller at the back stays there. */
  lemma KeepBack(w: seq<nat>, gone: set<nat>)
    requires w != [] && w[|w| - 1] !in gone
    ensures var r := Keep(w, gone);
            r != [] && r[|r| - 1] == w[|w| - 1] && Rest(r) == Keep(Rest(w), gone)
  {
  }

  function Without(lists: map<string, seq<nat>>, gone: set<nat>): map<string, seq<nat>> {
    map k | k in lists :: Keep(lists[k], gone)
  }

  ghost function Everyone(lists: map<string, seq<nat>>): set<nat> {
    set k, n | k in lists && n in lists[k] :: n
  }

  /** Each caller is in one place. */
  ghost predicate Once(lists: map<string, seq<nat>>) {
    && (forall k :: k in lists ==> NoDup(lists[k]))
    && (forall j, k, n :: j in lists && k in lists && n in lists[j] && n in lists[k] ==> j == k)
  }

  // ---------- One callback ----------

  lemma SameLists(a: map<string, seq<nat>>, b: map<string, seq<nat>>)
    requires a.Keys == b.Keys && forall j :: j in a ==> a[j] == b[j]
    ensures a == b
  {
  }

  /** The back of list k is called and leaves, and so do those whose contexts its callback cancels. */
  function Called(d: Desk, k: string, o: Outcome, quits: Quits): (r: Desk)
    requires k in d.lists && d.lists[k] != []
    ensures k in r.lists && |r.lists[k]| < |d.lists[k]|
  {
    var w := d.lists[k];
    var n := w[|w| - 1];
    Desk(map j | j in d.lists :: Keep(if j == k then Rest(w) else d.lists[j], Leaving(quits, n)),
         d.answers + [Answer(n, o)])
  }

  /** As the drain does it: first the contexts leave their lists, and then the back of list k is popped. */
  lemma CancelThenPop(d: Desk, k: string, o: Outcome, quits: Quits, j: string)
    requires k in d.lists && d.lists[k] != [] && j in d.lists
    ensures var lists := Without(d.lists, Leaving(quits, d.lists[k][|d.lists[k]| - 1]));
            && lists[k] != [] && lists[k][|lists[k]| - 1] == d.lists[k][|d.lists[k]| - 1]
            && Called(d, k, o, quits).lists[j] == if j == k then Rest(lists[k]) else lists[j]
  {
    KeepBack(d.lists[k], Leaving(quits, d.lists[k][|d.lists[k]| - 1]));
  }

  /** The drains in order, each until its list is empty. */
  function Play(d: Desk, ds: seq<Drain>, quits: Quits): Desk
    decreases |ds|, if ds != [] && ds[0].key in d.lists then |d.lists[ds[0].key]| else 0
  {
    if ds == [] then d
    else if ds[0].key !in d.lists || d.lists[ds[0].key] == [] then Play(d, ds[1..], quits)
    else Play(Called(d, ds[0].key, ds[0].outcome, quits), ds, quits)
  }

  /** Those who were cancelled before their turn. */
  ghost function Gone(d: Desk, ds: seq<Drain>, quits: Quits): set<nat>
    decreases |ds|, if ds != [] && ds[0].key in d.lists then |d.lists[ds[0].key]| else 0
  {
    if ds == [] then {}
    else if ds[0].key !in d.lists || d.lists[ds[0].key] == [] then Gone(d, ds[1..], quits)
    else
      var n := d.lists[ds[0].key][|d.lists[ds[0].key]| - 1];
      GoneWith(d, quits, n, Gone(Called(d, ds[0].key, ds[0].outcome, quits), ds, quits))
  }

  // ---------- Cancelling first ----------

  const NoQuits: Quits := map[]

  /** Lists whose entries are among those of the others', n excepted. */
  ghost predicate Shrunk(lists: map<string, seq<nat>>, less: map<string, seq<nat>>, n: nat) {
    && less.Keys == lists.Keys
    && forall j :: j in lists ==> NoDup(less[j]) && forall m :: m in less[j] ==> m in lists[j] && m != n
  }

  lemma {:induction false} ShrunkIsLess(lists: map<string, seq<nat>>, less: map<string, seq<nat>>, n: nat)
    requires Once(lists) && Shrunk(lists, less, n)
    ensures Once(less) && Everyone(less) <= Everyone(lists) && n !in Everyone(less)
  {
  }

  lemma BackIsOnlyThere(lists: map<string, seq<nat>>, k: string, j: string)
    requires Once(lists) && k in lists && lists[k] != [] && j in lists
    ensures var (w, n) := (lists[k], lists[k][|lists[k]| - 1]);
            var rest := if j == k then Rest(w) else lists[j];
            NoDup(rest) && n !in rest && forall m :: m in rest ==> m in lists[j]
  {
    var w := lists[k];
    assert w[|w| - 1] in w;
  }

  lemma CalledShrinks(d: Desk, k: string, o: Outcome, quits: Quits)
    requires k in d.lists && d.lists[k] != [] && Once(d.lists)
    ensures var r := Called(d, k, o, quits);
            var n := d.lists[k][|d.lists[k]| - 1];
            && r.lists.Keys == d.lists.Keys && Once(r.lists)
            && Everyone(r.lists) <= Everyone(d.lists) && n !in Everyone(r.lists)
  {
    var r := Called(d, k, o, quits);
    var w := d.lists[k];
    var n := w[|w| - 1];
    forall j | j in d.lists
      ensures NoDup(r.lists[j]) && forall m :: m in r.lists[j] ==> m in d.lists[j] && m != n
    {
      BackIsOnlyThere(d.lists, k, j);
      KeepNoDup(if j == k then Rest(w) else d.lists[j], Leaving(quits, n));
    }
    ShrunkIsLess(d.lists, r.lists, n);
  }

  lemma {:induction false} KeepNoDup(w: seq<nat>, gone: set<nat>)
    requires NoDup(w)
    ensures NoDup(Keep(w, gone))
    decreases |w|
  {
    if w != [] {
      var front, last := w[..|w| - 1], w[|w| - 1];
      KeepNoDup(front, gone);
      assert forall i :: 0 <= i < |front| ==> front[i] == w[i];
    }
  }

  lemma {:induction false} GoneAreInLists(d: Desk, ds: seq<Drain>, quits: Quits)
    requires Once(d.lists)
    ensures Gone(d, ds, quits) <= Everyone(d.lists)
    decreases |ds|, if ds != [] && ds[0].key in d.lists then |d.lists[ds[0].key]| else 0
  {
    if ds == [] {
    } else if ds[0].key !in d.lists || d.lists[ds[0].key] == [] {
      GoneAreInLists(d, ds[1..], quits);
    } else {
      CalledShrinks(d, ds[0].key, ds[0].outcome, quits);
      GoneAreInLists(Called(d, ds[0].key, ds[0].outcome, quits), ds, quits);
    }
  }

  /** Cancelled now, by the callback to n, or later. */
  ghost function GoneWith(d: Desk, quits: Quits, n: nat, later: set<nat>): set<nat> {
    (Leaving(quits, n) * Everyone(d.lists)) + later
  }

  lemma KeepBoth(d: Desk, quits: Quits, n: nat, later: set<nat>, w: seq<nat>)
    requires forall m :: m in w ==> m in Everyone(d.lists)
    ensures Keep(w, GoneWith(d, quits, n, later)) == Keep(Keep(w, Leaving(quits, n)), later)
  {
    KeepTwice(w, Leaving(quits, n), later);
    KeepSame(w, GoneWith(d, quits, n, later), Leaving(quits, n) + later);
  }

  lemma InTheLists(lists: map<string, seq<nat>>, j: string, w: seq<nat>)
    requires j in lists && forall m :: m in w ==> m in lists[j]
    ensures forall m :: m in w ==> m in Everyone(lists)
  {
  }

  lemma GoneList(d: Desk, k: string, o: Outcome, quits: Quits, later: set<nat>, j: string)
    requires k in d.lists && d.lists[k] != [] && Once(d.lists) && j in d.lists
    ensures var (w, n) := (d.lists[k], d.lists[k][|d.lists[k]| - 1]);
            var r := Called(d, k, o, quits);
            && (j == k ==> Keep(Rest(w), GoneWith(d, quits, n, later)) == Keep(r.lists[j], later))
            && (j != k ==> Keep(d.lists[j], GoneWith(d, quits, n, later)) == Keep(r.lists[j], later))
  {
    var w := d.lists[k];
    var n := w[|w| - 1];
    var rest := if j == k then Rest(w) else d.lists[j];
    BackIsOnlyThere(d.lists, k, j);
    InTheLists(d.lists, j, rest);
    KeepBoth(d, quits, n, later, rest);
  }

  /** Taking out first those who go now or later gives the same desk after a callback that cancels nobody. */
  lemma CalledCommutes(d: Desk, k: string, o: Outcome, quits: Quits, later: set<nat>)
    requires k in d.lists && d.lists[k] != [] && Once(d.lists)
    requires later <= Everyone(Called(d, k, o, quits).lists)
    ensures var n := d.lists[k][|d.lists[k]| - 1];
            var first := Desk(Without(d.lists, GoneWith(d, quits, n, later)), d.answers);
            var r := Called(d, k, o, quits);
            && first.lists[k] != []
            && Called(first, k, o, NoQuits) == Desk(Without(r.lists, later), r.answers)
  {
    var w := d.lists[k];
    var n := w[|w| - 1];
    var gone := GoneWith(d, quits, n, later);
    var first := Desk(Without(d.lists, gone), d.answers);
    var r := Called(d, k, o, quits);
    CalledShrinks(d, k, o, quits);
    KeepBack(w, gone);
    NothingGone(first, k, o);
    forall j | j in d.lists
      ensures Called(first, k, o, NoQuits).lists[j] == Keep(r.lists[j], later)
    {
      GoneList(d, k, o, quits, later, j);
    }
    SameLists(Called(first, k, o, NoQuits).lists, Without(r.lists, later));
  }

  /** Which callers of the list are gone is all that counts. */
  lemma {:induction false} KeepSame(w: seq<nat>, a: set<nat>, b: set<nat>)
    requires forall n :: n in w ==> (n in a <==> n in b)
    ensures Keep(w, a) == Keep(w, b)
    decreases |w|
  {
    if w != [] {
      assert w == w[..|w| - 1] + [w[|w| - 1]];
      KeepSame(w[..|w| - 1], a, b);
    }
  }

  lemma NothingGone(d: Desk, k: string, o: Outcome)
    requires k in d.lists && d.lists[k] != []
    ensures var r := Called(d, k, o, NoQuits);
            && r.lists.Keys == d.lists.Keys && r.answers == d.answers + [Answer(d.lists[k][|d.lists[k]| - 1], o)]
            && forall j :: j in d.lists ==> r.lists[j] == if j == k then Rest(d.lists[k]) else d.lists[j]
  {
    forall j | j in d.lists
      ensures Keep(if j == k then Rest(d.lists[k]) else d.lists[j], {})
           == if j == k then Rest(d.lists[k]) else d.lists[j]
    {
      KeepAll(if j == k then Rest(d.lists[k]) else d.lists[j], {});
    }
  }

  lemma WithoutNobody(lists: map<string, seq<nat>>)
    ensures Without(lists, {}) == lists
  {
    forall j | j in lists
      ensures Keep(lists[j], {}) == lists[j]
    {
      KeepAll(lists[j], {});
    }
  }

  /** One turn of a play whose next list has somebody in it. */
  lemma PlayOn(d: Desk, ds: seq<Drain>, quits: Quits)
    requires ds != [] && ds[0].key in d.lists && d.lists[ds[0].key] != []
    ensures Play(d, ds, quits) == Play(Called(d, ds[0].key, ds[0].outcome, quits), ds, quits)
  {
  }

  /** The same, of the next callback. */
  lemma CallIsCancelFirst(d: Desk, ds: seq<Drain>, quits: Quits)
    requires ds != [] && ds[0].key in d.lists && d.lists[ds[0].key] != [] && Once(d.lists)
    ensures var next := Called(d, ds[0].key, ds[0].outcome, quits);
            && Play(d, ds, quits) == Play(next, ds, quits)
            && Play(Desk(Without(d.lists, Gone(d, ds, quits)), d.answers), ds, NoQuits)
               == Play(Desk(Without(next.lists, Gone(next, ds, quits)), next.answers), ds, NoQuits)
  {
    var next := Called(d, ds[0].key, ds[0].outcome, quits);
    CalledShrinks(d, ds[0].key, ds[0].outcome, quits);
    GoneAreInLists(next, ds, quits);
    CalledCommutes(d, ds[0].key, ds[0].outcome, quits, Gone(next, ds, quits));
    PlayOn(d, ds, quits);
    PlayOn(Desk(Without(d.lists, Gone(d, ds, quits)), d.answers), ds, NoQuits);
  }

  /** Playing with cancelling callbacks is playing without, after the same cancellations. */
  lemma {:induction false} PlayIsCancelFirst(d: Desk, ds: seq<Drain>, quits: Quits)
    requires Once(d.lists)
    ensures Play(d, ds, quits) == Play(Desk(Without(d.lists, Gone(d, ds, quits)), d.answers), ds, NoQuits)
    decreases |ds|, if ds != [] && ds[0].key in d.lists then |d.lists[ds[0].key]| else 0
  {
    if ds == [] {
      WithoutNobody(d.lists);
    } else if ds[0].key !in d.lists || d.lists[ds[0].key] == [] {
      PlayIsCancelFirst(d, ds[1..], quits);
      assert ds[0].key in d.lists ==> Keep(d.lists[ds[0].key], Gone(d, ds, quits)) == [];
    } else {
      var next := Called(d, ds[0].key, ds[0].outcome, quits);
      CalledShrinks(d, ds[0].key, ds[0].outcome, quits);
      PlayIsCancelFirst(next, ds, quits);
      CallIsCancelFirst(d, ds, quits);
    }
  }

  // ---------- Playing without quits is draining ----------

  lemma {:induction false} RepliesFromBack(w: seq<nat>, o: Outcome)
    requires w != []
    ensures Replies(w, o) == [Answer(w[|w| - 1], o)] + Replies(Rest(w), o)
  {
  }

  /** The desk once list k is drained. */
  function DrainedDesk(d: Desk, k: string, o: Outcome): Desk
    requires k in d.lists
  {
    Desk(d.lists[k := []], d.answers + Replies(d.lists[k], o))
  }

  lemma DrainedAfterCall(d: Desk, k: string, o: Outcome)
    requires k in d.lists && d.lists[k] != []
    ensures DrainedDesk(Called(d, k, o, NoQuits), k, o) == DrainedDesk(d, k, o)
  {
    var next := Called(d, k, o, NoQuits);
    var w := d.lists[k];
    NothingGone(d, k, o);
    RepliesFromBack(w, o);
    Associates(d.answers, [Answer(w[|w| - 1], o)], Replies(Rest(w), o));
    SameLists(next.lists[k := []], d.lists[k := []]);
  }

  /** A list is drained from its back until it is empty. */
  lemma {:induction false} PlayDrainsOne(d: Desk, ds: seq<Drain>)
    requires ds != [] && ds[0].key in d.lists
    ensures Play(d, ds, NoQuits) == Play(DrainedDesk(d, ds[0].key, ds[0].outcome), ds[1..], NoQuits)
    decreases |d.lists[ds[0].key]|
  {
    var (k, o) := (ds[0].key, ds[0].outcome);
    if d.lists[k] == [] {
      assert DrainedDesk(d, k, o) == d by {
        SameLists(d.lists[k := []], d.lists);
        assert d.answers + [] == d.answers;
      }
    } else {
      PlayOn(d, ds, NoQuits);
      PlayDrainsOne(Called(d, k, o, NoQuits), ds);
      DrainedAfterCall(d, k, o);
    }
  }

  /** The lists of the desk are those of the provider, as far as they are drained. */
  ghost predicate Covers(s: Provider, d: Desk, ds: seq<Drain>) {
    forall i :: 0 <= i < |ds| ==> ds[i].key in d.lists && d.lists[ds[i].key] == Waiting(s, ds[i].key)
  }

  lemma CoversRest(s: Provider, d: Desk, ds: seq<Drain>)
    requires ds != [] && OnceEach(ds) && Covers(s, d, ds)
    ensures OnceEach(ds[1..]) && Covers(s, DrainedDesk(d, ds[0].key, ds[0].outcome), ds[1..])
  {
  }

  /** From d to r exactly these lists are drained. */
  ghost predicate Plays(s: Provider, d: Desk, ds: seq<Drain>, r: Desk) {
    && r.answers == d.answers + AnswersOf(s, ds) && r.lists.Keys == d.lists.Keys
    && forall k :: k in d.lists ==> r.lists[k] == if Drained(ds, k) then [] else d.lists[k]
  }

  lemma {:induction false} PlaysMore(s: Provider, d: Desk, ds: seq<Drain>, r: Desk)
    requires ds != [] && Covers(s, d, ds) && Plays(s, DrainedDesk(d, ds[0].key, ds[0].outcome), ds[1..], r)
    ensures Plays(s, d, ds, r)
  {
    Associates(d.answers, Replies(d.lists[ds[0].key], ds[0].outcome), AnswersOf(s, ds[1..]));
    assert ds == [ds[0]] + ds[1..];
    forall j | j in d.lists
      ensures r.lists[j] == if Drained(ds, j) then [] else d.lists[j]
    {
      DrainedCons(ds[0], ds[1..], j);
    }
  }

  /** The drains of an operation, on the desk alone. */
  lemma {:induction false} PlayDrains(s: Provider, d: Desk, ds: seq<Drain>)
    requires OnceEach(ds) && Covers(s, d, ds)
    ensures Plays(s, d, ds, Play(d, ds, NoQuits))
    decreases |ds|
  {
    if ds == [] {
      assert d.answers + [] == d.answers;
    } else {
      CoversRest(s, d, ds);
      PlayDrainsOne(d, ds);
      PlayDrains(s, DrainedDesk(d, ds[0].key, ds[0].outcome), ds[1..]);
      PlaysMore(s, d, ds, Play(d, ds, NoQuits));
    }
  }

  // ---------- A run that cancels first ----------

  function DrainsOf(w: World, e: Event): seq<Drain>
    requires Enabled(w, e) && (e.Response? || e.Failure?)
  {
    match e
    case Response(k, body, now, inline) => OkDrains(w.p, k, body, now, inline)
    case Failure(k, status) => PoolFailDrains(w.p, k, status)
  }

  function CancelEvents(ns: seq<nat>): seq<Event> {
    if ns == [] then [] else [CancelCall(ns[0])] + CancelEvents(ns[1..])
  }

  lemma LedgerIsOnce(w: World)
    requires Ledger(w.p, w.asks, w.cancelled)
    ensures Once(DeskOf(w.p).lists)
  {
    forall k | k in w.p.pools
      ensures InOrder(w.p.pools[k].waiters, w.asks, k)
    {
      assert InOrder(Waiting(w.p, k), w.asks, k);
    }
  }

  lemma {:induction false} NoneTwice(waiting: seq<nat>, asks: seq<Ask>, k: string)
    requires InOrder(waiting, asks, k)
    ensures NoDup(waiting)
  {
  }

  /** The list without its i-th caller, wherever that is. */
  lemma {:induction false} DroppedIsKept(s: Provider, k: string, i: nat, n: nat)
    requires k in s.pools && i < |s.pools[k].waiters| && s.pools[k].waiters[i] == n && NoDup(s.pools[k].waiters)
    ensures CancelWaiter(s, k, i).pools[k].waiters == Keep(s.pools[k].waiters, {n})
  {
    DropIsKeep(s.pools[k].waiters, i);
  }

  lemma {:induction false} CancelledOwn(s: Provider, asks: seq<Ask>, n: nat)
    requires n < |asks| && Waits(s, asks, n) && InOrder(Waiting(s, KeyOf(asks[n])), asks, KeyOf(asks[n]))
    ensures Waiting(Cancel(s, asks, n), KeyOf(asks[n])) == Keep(Waiting(s, KeyOf(asks[n])), {n})
  {
    var k := KeyOf(asks[n]);
    NoneTwice(Waiting(s, k), asks, k);
    DroppedIsKept(s, k, FirstIndex(s.pools[k].waiters, n), n);
  }

  lemma {:induction false} CancelledElsewhere(s: Provider, asks: seq<Ask>, n: nat, k: string)
    requires n < |asks| && Waits(s, asks, n) && InOrder(Waiting(s, k), asks, k) && k != KeyOf(asks[n])
    ensures Waiting(Cancel(s, asks, n), k) == Keep(Waiting(s, k), {n})
  {
    KeepAll(Waiting(s, k), {n});
  }

  lemma {:induction false} CancelledList(w: World, n: nat, k: string)
    requires Ledger(w.p, w.asks, w.cancelled) && Enabled(w, CancelCall(n)) && k in w.p.pools
    ensures Cancel(w.p, w.asks, n).pools[k].waiters == Keep(w.p.pools[k].waiters, {n})
  {
    assert InOrder(Waiting(w.p, k), w.asks, k);
    if k == KeyOf(w.asks[n]) {
      CancelledOwn(w.p, w.asks, n);
    } else {
      CancelledElsewhere(w.p, w.asks, n, k);
    }
  }

  lemma CancelTouchesLists(s: Provider, asks: seq<Ask>, n: nat)
    requires n < |asks| && Waits(s, asks, n)
    ensures var r := Cancel(s, asks, n);
            && r.answers == s.answers && r.pools.Keys == s.pools.Keys
            && forall k :: k in s.pools ==> r.pools[k].(waiters := []) == s.pools[k].(waiters := [])
  {
  }

  lemma KeepMore(w: seq<nat>, n: nat, gone: set<nat>)
    ensures Keep(w + [n], gone) == if n in gone then Keep(w, gone) else Keep(w, gone) + [n]
  {
    assert (w + [n])[..|w|] == w;
    assert Keep(w, gone) + [] == Keep(w, gone);
  }

  lemma {:induction false} KeepSum(a: seq<nat>, b: seq<nat>, gone: set<nat>)
    ensures Keep(a + b, gone) == Keep(a, gone) + Keep(b, gone)
    decreases |b|
  {
    if b == [] {
      assert a + b == a;
    } else {
      var (front, n) := (b[..|b| - 1], b[|b| - 1]);
      KeepSum(a, front, gone);
      KeepMore(a + front, n, gone);
      KeepMore(front, n, gone);
      LastOfBoth(a, b);
      Associates(Keep(a, gone), Keep(front, gone), [n]);
    }
  }

  lemma DropIsKeep(v: seq<nat>, i: nat)
    requires i < |v| && NoDup(v)
    ensures Keep(v, {v[i]}) == v[..i] + v[i + 1..]
  {
    assert v == v[..i] + [v[i]] + v[i + 1..];
    AroundIsKeep(v[..i], v[i], v[i + 1..]);
  }

  lemma AroundIsKeep(a: seq<nat>, n: nat, b: seq<nat>)
    requires n !in a && n !in b
    ensures Keep(a + [n] + b, {n}) == a + b
  {
    KeepSum(a + [n], b, {n});
    KeepMore(a, n, {n});
    KeepAll(a, {n});
    KeepAll(b, {n});
  }

  /** The desk after these callers have cancelled. */
  function CancelledDesk(w: World, gone: set<nat>): Desk {
    Desk(Without(DeskOf(w.p).lists, gone), w.p.answers)
  }

  /** The run has answered, and left waiting, those of the desk. */
  ghost predicate EndsAt(r: World, d: Desk) {
    && r.p.answers == d.answers && r.p.pools.Keys == d.lists.Keys
    && forall k :: k in r.p.pools ==> r.p.pools[k].waiters == d.lists[k]
  }

  lemma OkDrainsPools(s: Provider, k: string, c: Creds, inline: Inline)
    requires Inv(s) && Outstanding(s, k)
    ensures forall d :: d in KickDrains(s.pools[k].chained, inline) + [Drain(k, Granted(c))] ==> d.key in s.pools
  {
    var kicks := KickDrains(s.pools[k].chained, inline);
    ChainedAreQueued(s, k);
    KickedAreRoles(s.pools[k].chained, inline);
    forall d | d in kicks
      ensures d.key in s.pools
    {
      var i :| 0 <= i < |kicks| && kicks[i] == d;
      assert Drained(kicks, d.key);
    }
  }

  lemma FailDrainsPools(s: Provider, k: string, status: FailureStatus)
    requires Inv(s) && Outstanding(s, k)
    ensures forall d :: d in PoolFailDrains(s, k, status) ==> d.key in s.pools
  {
    ChainedAreQueued(s, k);
  }

  lemma CompletionDrains(w: World, e: Event)
    requires Inv(w.p) && Enabled(w, e) && (e.Response? || e.Failure?)
    ensures Drains(w.p, DrainsOf(w, e), Step(w, e).p) && Step(w, e).p.pools.Keys == w.p.pools.Keys
    ensures forall d :: d in DrainsOf(w, e) ==> d.key in w.p.pools
  {
    match e
    case Response(k, body, now, inline) =>
      FetchOkDrains(w.p, k, body, now, inline);
      match ParseBody(body, now) {
        case None => FailDrainsPools(w.p, k, InvalidSts);
        case Some(c) => OkDrainsPools(w.p, k, c, inline);
      }
    case Failure(k, status) =>
      FailPoolDrains(w.p, k, status);
      FailDrainsPools(w.p, k, status);
  }

  /** What the drains do to the provider they do to its desk. */
  lemma {:induction false} DrainsPlay(s: Provider, ds: seq<Drain>, r: Provider)
    requires Drains(s, ds, r) && r.pools.Keys == s.pools.Keys && forall d :: d in ds ==> d.key in s.pools
    ensures var d := Play(DeskOf(s), ds, NoQuits);
            && r.answers == d.answers && r.pools.Keys == d.lists.Keys
            && forall k :: k in r.pools ==> r.pools[k].waiters == d.lists[k]
  {
    forall i | 0 <= i < |ds|
      ensures ds[i].key in s.pools
    {
      assert ds[i] in ds;
    }
    PlayDrains(s, DeskOf(s), ds);
    forall k | k in r.pools
      ensures r.pools[k].waiters == Play(DeskOf(s), ds, NoQuits).lists[k]
    {
      assert Waiting(r, k) == if Drained(ds, k) then [] else Waiting(s, k);
    }
  }

  lemma CompletionPlays(w: World, e: Event)
    requires Inv(w.p) && Enabled(w, e) && (e.Response? || e.Failure?)
    ensures EndsAt(Step(w, e), Play(CancelledDesk(w, {}), DrainsOf(w, e), NoQuits))
  {
    CompletionDrains(w, e);
    WithoutNobody(DeskOf(w.p).lists);
    DrainsPlay(w.p, DrainsOf(w, e), Step(w, e).p);
  }

  lemma CancelMovesDesk(w: World, n: nat, gone: set<nat>)
    requires Inv(w.p) && Ledger(w.p, w.asks, w.cancelled) && Enabled(w, CancelCall(n))
    ensures CancelledDesk(Step(w, CancelCall(n)), gone) == CancelledDesk(w, {n} + gone)
  {
    var r := Step(w, CancelCall(n));
    CancelTouchesLists(w.p, w.asks, n);
    forall k | k in w.p.pools
      ensures Keep(r.p.pools[k].waiters, gone) == Keep(w.p.pools[k].waiters, {n} + gone)
    {
      CancelledList(w, n, k);
      KeepTwice(w.p.pools[k].waiters, {n}, gone);
    }
    SameLists(CancelledDesk(r, gone).lists, CancelledDesk(w, {n} + gone).lists);
  }

  lemma CancelKeepsDrains(w: World, n: nat, e: Event)
    requires Inv(w.p) && Ledger(w.p, w.asks, w.cancelled) && Enabled(w, CancelCall(n))
    requires Enabled(w, e) && (e.Response? || e.Failure?)
    ensures Enabled(Step(w, CancelCall(n)), e) && DrainsOf(Step(w, CancelCall(n)), e) == DrainsOf(w, e)
  {
    CancelTouchesLists(w.p, w.asks, n);
  }

  lemma CancelLeavesOthers(w: World, n: nat, m: nat)
    requires Ledger(w.p, w.asks, w.cancelled) && Enabled(w, CancelCall(n))
    requires m != n && m < |w.asks| && Waits(w.p, w.asks, m)
    ensures Waits(Step(w, CancelCall(n)).p, w.asks, m)
  {
    assert InOrder(Waiting(w.p, KeyOf(w.asks[m])), w.asks, KeyOf(w.asks[m]));
    CancelDrops(w.p, w.asks, n, KeyOf(w.asks[m]));
  }

  function Members(ns: seq<nat>): set<nat> {
    set n | n in ns
  }

  ghost predicate AllWait(w: World, ns: seq<nat>) {
    forall n :: n in ns ==> n < |w.asks| && Waits(w.p, w.asks, n)
  }

  lemma {:induction false} RestWait(w: World, ns: seq<nat>)
    requires Ledger(w.p, w.asks, w.cancelled) && ns != [] && NoDup(ns) && AllWait(w, ns)
    ensures Enabled(w, CancelCall(ns[0])) && NoDup(ns[1..]) && AllWait(Step(w, CancelCall(ns[0])), ns[1..])
    ensures Members(ns) == {ns[0]} + Members(ns[1..])
  {
    var (n, rest) := (ns[0], ns[1..]);
    assert ns == [n] + rest;
    assert n in ns;
    forall m | m in rest
      ensures m < |w.asks| && Waits(Step(w, CancelCall(n)).p, w.asks, m)
    {
      assert m in ns;
      CancelLeavesOthers(w, n, m);
    }
  }

  lemma RunCons(w: World, e: Event, events: seq<Event>)
    requires Enabled(w, e) && Legal(Step(w, e), events)
    ensures Legal(w, [e] + events) && Run(w, [e] + events) == Run(Step(w, e), events)
  {
    assert ([e] + events)[1..] == events;
  }

  lemma RunOne(w: World, e: Event)
    requires Enabled(w, e)
    ensures Legal(w, [e]) && Run(w, [e]) == Step(w, e)
  {
    assert [e][1..] == [];
  }

  /** Cancelling these and then completing is a legal run that ends as the desk without them plays out. */
  ghost predicate Completes(w: World, ns: seq<nat>, e: Event, ds: seq<Drain>) {
    && Legal(w, CancelEvents(ns) + [e])
    && EndsAt(Run(w, CancelEvents(ns) + [e]), Play(CancelledDesk(w, Members(ns)), ds, NoQuits))
  }

  lemma {:induction false} CompletesMore(w: World, ns: seq<nat>, e: Event, ds: seq<Drain>)
    requires Inv(w.p) && Ledger(w.p, w.asks, w.cancelled) && ns != [] && NoDup(ns) && AllWait(w, ns)
    requires Enabled(w, CancelCall(ns[0])) && Completes(Step(w, CancelCall(ns[0])), ns[1..], e, ds)
    ensures Completes(w, ns, e, ds)
  {
    RestWait(w, ns);
    CancelMovesDesk(w, ns[0], Members(ns[1..]));
    EventsCons(ns, e);
    RunCons(w, CancelCall(ns[0]), CancelEvents(ns[1..]) + [e]);
  }

  lemma EventsCons(ns: seq<nat>, e: Event)
    requires ns != []
    ensures CancelEvents(ns) + [e] == [CancelCall(ns[0])] + (CancelEvents(ns[1..]) + [e])
  {
  }

  lemma CompletesAtOnce(w: World, e: Event)
    requires Inv(w.p) && Enabled(w, e) && (e.Response? || e.Failure?)
    ensures Completes(w, [], e, DrainsOf(w, e))
  {
    assert CancelEvents([]) + [e] == [e];
    assert Members([]) == {};
    CompletionPlays(w, e);
    RunOne(w, e);
  }

  lemma {:induction false} CancelsThenCompletes(w: World, ns: seq<nat>, e: Event)
    requires Inv(w.p) && Ledger(w.p, w.asks, w.cancelled) && Enabled(w, e) && (e.Response? || e.Failure?)
    requires NoDup(ns) && AllWait(w, ns)
    ensures Completes(w, ns, e, DrainsOf(w, e))
    decreases |ns|
  {
    if ns == [] {
      CompletesAtOnce(w, e);
    } else {
      RestWait(w, ns);
      StepKeepsInv(w, CancelCall(ns[0]));
      CancelKeepsDrains(w, ns[0], e);
      CancelsThenCompletes(Step(w, CancelCall(ns[0])), ns[1..], e);
      CompletesMore(w, ns, e, DrainsOf(w, e));
    }
  }

  lemma {:induction false} Enumerated(gone: set<nat>) returns (ns: seq<nat>)
    ensures NoDup(ns) && Members(ns) == gone
    decreases |gone|
  {
    if gone == {} {
      ns := [];
    } else {
      var n :| n in gone;
      var rest := Enumerated(gone - {n});
      ns := [n] + rest;
      assert n !in Members(rest);
      assert Members(ns) == {n} + Members(rest);
    }
  }

  lemma WaitersAsked(w: World, n: nat)
    requires Ledger(w.p, w.asks, w.cancelled) && n in Everyone(DeskOf(w.p).lists)
    ensures n < |w.asks| && Waits(w.p, w.asks, n)
  {
    var k :| k in w.p.pools && n in w.p.pools[k].waiters;
    assert InOrder(Waiting(w.p, k), w.asks, k);
  }

  /**
   * A fetch completes, and callbacks cancel other calls in the middle of the drains: the
   * rest is answered as if those calls had been cancelled first, which is a legal run.
   */
  lemma ReentrantDrainIsARun(w: World, e: Event, quits: Quits) returns (ns: seq<nat>)
    requires Inv(w.p) && Ledger(w.p, w.asks, w.cancelled) && Enabled(w, e) && (e.Response? || e.Failure?)
    ensures Members(ns) == Gone(DeskOf(w.p), DrainsOf(w, e), quits)
    ensures Legal(w, CancelEvents(ns) + [e])
    ensures EndsAt(Run(w, CancelEvents(ns) + [e]), Play(DeskOf(w.p), DrainsOf(w, e), quits))
  {
    var d := DeskOf(w.p);
    var gone := Gone(d, DrainsOf(w, e), quits);
    LedgerIsOnce(w);
    GoneAreInLists(d, DrainsOf(w, e), quits);
    PlayIsCancelFirst(d, DrainsOf(w, e), quits);
    ns := Enumerated(gone);
    forall n | n in ns
      ensures n < |w.asks| && Waits(w.p, w.asks, n)
    {
      assert n in gone;
      WaitersAsked(w, n);
    }
    CancelsThenCompletes(w, ns, e);
  }
}

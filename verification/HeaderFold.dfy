/**
 * Turning headers and query parameters into JSON maps: one map with the last value of
 * each key, one with all the values of a repeated key. Also the splitting of the query.
 */
module HeaderFold {
  import opened Common

  datatype Pair = Pair(key: string, value: string)
  datatype Maps = Maps(single: map<string, string>, multi: map<string, seq<string>>)

  // ---------- What is collected for one key ----------

  /** The values of one key, in order. */
  function Values(ps: seq<Pair>, key: string): seq<string> {
    if ps == [] then []
    else
      var p := ps[|ps| - 1];
      Values(ps[..|ps| - 1], key) + if p.key == key then [p.value] else []
  }

  /** How many values before the last are not empty. */
  function Noticed(vs: seq<string>): nat
    requires vs != []
  {
    if |vs| == 1 then 0
    else Noticed(vs[..|vs| - 1]) + if vs[|vs| - 2] != "" then 1 else 0
  }

  /** A value joins the list only when the one before it is not empty. */
  function Collected(vs: seq<string>): seq<string>
    requires vs != []
  {
    if |vs| == 1 then []
    else
      var before, existing, value := Collected(vs[..|vs| - 1]), vs[|vs| - 2], vs[|vs| - 1];
      if existing == "" then before
      else (if before == [] then [existing] else before) + [value]
  }

  lemma {:induction false} CollectedLength(vs: seq<string>)
    requires vs != []
    ensures |Collected(vs)| == if Noticed(vs) == 0 then 0 else Noticed(vs) + 1
    ensures Noticed(vs) <= |vs| - 1
    ensures Noticed(vs) == |vs| - 1 <==> forall i :: 0 <= i < |vs| - 1 ==> vs[i] != ""
    decreases |vs|
  {
    if |vs| > 1 {
      var front := vs[..|vs| - 1];
      CollectedLength(front);
      assert forall i :: 0 <= i < |front| - 1 ==> front[i] == vs[i];
      assert (forall i :: 0 <= i < |vs| - 1 ==> vs[i] != "")
        <==> (forall i :: 0 <= i < |front| - 1 ==> front[i] != "") && vs[|vs| - 2] != "";
    }
  }

  lemma {:induction false} AllCollected(vs: seq<string>)
    requires |vs| >= 2 && forall i :: 0 <= i < |vs| - 1 ==> vs[i] != ""
    ensures Collected(vs) == vs
    decreases |vs|
  {
    var front, value := vs[..|vs| - 1], vs[|vs| - 1];
    assert vs == front + [value];
    if |front| >= 2 {
      AllCollected(front);
    } else {
      assert front == [vs[0]];
    }
  }

  /** A repeated key keeps all its values exactly if none but the last is empty. */
  lemma CollectsAllExactly(vs: seq<string>)
    requires |vs| >= 2
    ensures Collected(vs) == vs <==> forall i :: 0 <= i < |vs| - 1 ==> vs[i] != ""
  {
    CollectedLength(vs);
    if forall i :: 0 <= i < |vs| - 1 ==> vs[i] != "" {
      AllCollected(vs);
    }
  }

  /** The values that come right after one that is not empty. */
  function Followers(vs: seq<string>): seq<string> {
    if |vs| < 2 then [] else (if vs[0] != "" then [vs[1]] else []) + Followers(vs[1..])
  }

  function FirstFull(vs: seq<string>): string {
    if vs == [] then "" else if vs[0] != "" then vs[0] else FirstFull(vs[1..])
  }

  lemma {:induction false} FollowersMore(vs: seq<string>, v: string)
    requires vs != []
    ensures Followers(vs + [v]) == Followers(vs) + if vs[|vs| - 1] != "" then [v] else []
    decreases |vs|
  {
    assert (vs + [v])[1..] == vs[1..] + [v];
    if |vs| == 1 {
      assert [v][1..] == [] && vs[1..] == [];
    } else {
      FollowersMore(vs[1..], v);
      Associates(if vs[0] != "" then [vs[1]] else [], Followers(vs[1..]), if vs[|vs| - 1] != "" then [v] else []);
    }
  }

  lemma {:induction false} FirstFullMore(vs: seq<string>, v: string)
    ensures FirstFull(vs + [v]) == if FirstFull(vs) != "" then FirstFull(vs) else v
    decreases |vs|
  {
    if vs == [] {
      assert [] + [v] == [v] && [v][1..] == [];
    } else {
      assert (vs + [v])[1..] == vs[1..] + [v];
      FirstFullMore(vs[1..], v);
    }
  }

  /** Where nothing follows a full value, only the last can be full. */
  lemma {:induction false} NoFollowers(vs: seq<string>)
    requires vs != []
    ensures Followers(vs) == [] ==> FirstFull(vs) == vs[|vs| - 1]
    ensures Followers(vs) != [] ==> FirstFull(vs) != ""
    decreases |vs|
  {
    if |vs| > 1 {
      NoFollowers(vs[1..]);
    }
  }

  /** What is collected: the first value that is not empty, and all that come right after such a one. */
  lemma {:induction false} CollectedExactly(vs: seq<string>)
    requires vs != []
    ensures Collected(vs) == if Followers(vs) == [] then [] else [FirstFull(vs)] + Followers(vs)
    decreases |vs|
  {
    if |vs| > 1 {
      var front, value := vs[..|vs| - 1], vs[|vs| - 1];
      assert vs == front + [value];
      CollectedExactly(front);
      FollowersMore(front, value);
      FirstFullMore(front, value);
      NoFollowers(front);
    }
  }

  // ---------- The fold ----------

  function Lookup<V>(m: map<string, V>, key: string, default: V): V {
    if key in m then m[key] else default
  }

  function Add(ms: Maps, p: Pair): Maps {
    var existing := Lookup(ms.single, p.key, "");
    var multi := Lookup(ms.multi, p.key, []);
    Maps(ms.single[p.key := p.value],
         if existing == "" then ms.multi
         else ms.multi[p.key := (if multi == [] then [existing] else multi) + [p.value]])
  }

  function Fold(ps: seq<Pair>): Maps {
    if ps == [] then Maps(map[], map[]) else Add(Fold(ps[..|ps| - 1]), ps[|ps| - 1])
  }

  /** What the maps hold for a key, given its values. */
  ghost predicate Holds(ms: Maps, key: string, vs: seq<string>) {
    if vs == [] then key !in ms.single && key !in ms.multi
    else
      && key in ms.single && ms.single[key] == vs[|vs| - 1]
      && Lookup(ms.multi, key, []) == Collected(vs)
      && (key in ms.multi ==> ms.multi[key] != [])
  }

  lemma HoldsMore(ms: Maps, key: string, vs: seq<string>, p: Pair)
    requires Holds(ms, key, vs)
    ensures Holds(Add(ms, p), key, vs + if p.key == key then [p.value] else [])
  {
    var more := vs + if p.key == key then [p.value] else [];
    if p.key != key {
      assert more == vs;
    } else {
      assert more[..|more| - 1] == vs;
    }
  }

  /** For every key: the last value, and the collected ones if there are any. */
  lemma {:induction false} FoldHolds(ps: seq<Pair>, key: string)
    ensures Holds(Fold(ps), key, Values(ps, key))
    decreases |ps|
  {
    if ps != [] {
      var front, p := ps[..|ps| - 1], ps[|ps| - 1];
      FoldHolds(front, key);
      HoldsMore(Fold(front), key, Values(front, key), p);
    }
  }

  /** A repeated key's list is all its values in order, exactly if none but the last is empty. */
  lemma MultiValuesExactly(ps: seq<Pair>, key: string, vs: seq<string>)
    requires vs == Values(ps, key) && |vs| >= 2
    ensures key in Fold(ps).single && Fold(ps).single[key] == vs[|vs| - 1]
    ensures (key in Fold(ps).multi && Fold(ps).multi[key] == vs) <==> forall i :: 0 <= i < |vs| - 1 ==> vs[i] != ""
  {
    FoldHolds(ps, key);
    CollectsAllExactly(vs);
  }

  /** In general the list has the first value that is not empty and those right after such a one. */
  lemma {:induction false} MultiValuesInGeneral(ps: seq<Pair>, key: string)
    ensures var vs := Values(ps, key);
            if Followers(vs) == [] then key !in Fold(ps).multi
            else key in Fold(ps).multi && Fold(ps).multi[key] == [FirstFull(vs)] + Followers(vs)
  {
    var vs := Values(ps, key);
    FoldHolds(ps, key);
    if vs != [] {
      CollectedExactly(vs);
    }
  }

  /** A key that is not repeated has no list. */
  lemma {:induction false} SingleValueHasNoList(ps: seq<Pair>, key: string)
    requires |Values(ps, key)| <= 1
    ensures key !in Fold(ps).multi
    ensures key in Fold(ps).single <==> Values(ps, key) != []
  {
    FoldHolds(ps, key);
  }

  // ---------- The two loops ----------

  /** One header at a time: the value is replaced first, then the old one looked at. */
  method ParseHeaders(headers: seq<Pair>, addRequestMetadata: bool)
    returns (single: map<string, string>, multi: map<string, seq<string>>)
    ensures single == Fold(headers).single
    ensures multi == if addRequestMetadata then Fold(headers).multi else map[]
  {
    single, multi := map[], map[];
    for n := 0 to |headers|
      invariant single == Fold(headers[..n]).single
      invariant multi == if addRequestMetadata then Fold(headers[..n]).multi else map[]
    {
      assert headers[..n + 1][..n] == headers[..n];
      var key, value := headers[n].key, headers[n].value;
      if !addRequestMetadata {
        single := single[key := value];
        continue;
      }
      var existing := if key in single then single[key] else "";
      single := single[key := value];
      if existing == "" {
        continue;
      }
      if key !in multi || multi[key] == [] {
        multi := multi[key := [existing]];
      }
      multi := multi[key := multi[key] + [value]];
      MultiUpdatedTwice(Fold(headers[..n]).multi, key, [existing], [existing] + [value]);
    }
    assert headers[..|headers|] == headers;
  }

  lemma MultiUpdatedTwice(m: map<string, seq<string>>, key: string, a: seq<string>, b: seq<string>)
    ensures m[key := a][key := b] == m[key := b]
  {
  }

  /** One parameter at a time: only an already filled key is looked at. */
  method ParseQueryParameters(params: seq<Pair>)
    returns (single: map<string, string>, multi: map<string, seq<string>>)
    ensures single == Fold(params).single && multi == Fold(params).multi
  {
    single, multi := map[], map[];
    for n := 0 to |params|
      invariant single == Fold(params[..n]).single && multi == Fold(params[..n]).multi
    {
      assert params[..n + 1][..n] == params[..n];
      var key, value := params[n].key, params[n].value;
      if key !in single || single[key] == "" {
        single := single[key := value];
      } else {
        var existing := single[key];
        single := single[key := value];
        if key !in multi || multi[key] == [] {
          multi := multi[key := [existing]];
        }
        multi := multi[key := multi[key] + [value]];
        MultiUpdatedTwice(Fold(params[..n]).multi, key, [existing], [existing] + [value]);
      }
    }
    assert params[..|params|] == params;
  }

  // ---------- Splitting the query string ----------

  /** Name and value are decoded; a parameter without '=' is a name as it stands. */
  function Param(item: string, decode: string -> string): Pair {
    if '=' in item then
      var i := FirstIndex(item, '=');
      Pair(decode(item[..i]), decode(item[i + 1..]))
    else Pair(item, "")
  }

  /** The first '=' ends the name, which is decoded; without one nothing is. */
  lemma {:induction false} ParamExactly(name: string, value: string, decode: string -> string)
    requires '=' !in name
    ensures Param(name + "=" + value, decode) == Pair(decode(name), decode(value))
    ensures Param(name, decode) == Pair(name, "")
  {
    FirstIndexAt(name, '=', value);
  }

  function Parse(data: string, decode: string -> string): seq<Pair>
    decreases |data|
  {
    if data == "" then []
    else if '&' in data then
      var i := FirstIndex(data, '&');
      [Param(data[..i], decode)] + Parse(data[i + 1..], decode)
    else [Param(data, decode)]
  }

  /** What is parsed from an index on; past the end there is nothing. */
  function ParseFrom(data: string, start: nat, decode: string -> string): seq<Pair> {
    if start <= |data| then Parse(data[start..], decode) else []
  }

  /** The parameter from start up to end, and the rest behind the '&'. */
  lemma ParsesOne(data: string, start: nat, end: nat, decode: string -> string, before: seq<Pair>)
    requires start < |data| && start <= end <= |data| && '&' !in data[start..end]
    requires end < |data| ==> data[end] == '&'
    ensures before + ParseFrom(data, start, decode)
         == before + [Param(data[start..end], decode)] + ParseFrom(data, end + 1, decode)
  {
    Associates(before, [Param(data[start..end], decode)], ParseFrom(data, end + 1, decode));
    if end < |data| {
      assert data[start..] == data[start..end] + "&" + data[end + 1..];
      ParsesFirst(data[start..end], data[end + 1..], decode);
    } else {
      assert data[start..] == data[start..end];
      ParsesOnly(data[start..end], decode);
    }
  }

  /** The next '&', or the end of the data. */
  method FindEnd(data: string, start: nat) returns (end: nat)
    requires start < |data|
    ensures start <= end <= |data| && '&' !in data[start..end] && (end < |data| ==> data[end] == '&')
  {
    end := |data|;
    if '&' in data[start..] {
      end := start + FirstIndex(data[start..], '&');
      assert data[start..end] == data[start..][..end - start];
    } else {
      assert data[start..] == data[start..end];
    }
  }

  lemma StartsWhole(data: string, decode: string -> string)
    ensures [] + ParseFrom(data, 0, decode) == Parse(data, decode)
  {
    assert data[0..] == data;
  }

  lemma NothingLeft(data: string, start: nat, decode: string -> string, before: seq<Pair>)
    requires start >= |data|
    ensures before + ParseFrom(data, start, decode) == before
  {
  }

  method ParseParameter(data: string, start: nat, decode: string -> string, params: seq<Pair>)
    returns (more: seq<Pair>, next: nat)
    requires start < |data|
    ensures start < next && more + ParseFrom(data, next, decode) == params + ParseFrom(data, start, decode)
  {
    var end := FindEnd(data, start);
    ParsesOne(data, start, end, decode, params);
    more := params + [Param(data[start..end], decode)];
    next := end + 1;
  }

  method ParseParameters(data: string, decode: string -> string) returns (params: seq<Pair>)
    ensures params == Parse(data, decode)
  {
    params := [];
    var start: nat := 0;
    StartsWhole(data, decode);
    while start < |data|
      invariant params + ParseFrom(data, start, decode) == Parse(data, decode)
    {
      params, start := ParseParameter(data, start, decode, params);
    }
    NothingLeft(data, start, decode, params);
  }

  function JoinAmp(items: seq<string>): string {
    if items == [] then "" else if |items| == 1 then items[0] else items[0] + "&" + JoinAmp(items[1..])
  }

  function ParamsOf(items: seq<string>, decode: string -> string): (ps: seq<Pair>)
    ensures |ps| == |items| && forall i :: 0 <= i < |ps| ==> ps[i] == Param(items[i], decode)
  {
    if items == [] then [] else [Param(items[0], decode)] + ParamsOf(items[1..], decode)
  }

  lemma ParsesFirst(item: string, rest: string, decode: string -> string)
    requires '&' !in item
    ensures Parse(item + "&" + rest, decode) == [Param(item, decode)] + Parse(rest, decode)
  {
    FirstIndexAt(item, '&', rest);
  }

  lemma ParsesOnly(item: string, decode: string -> string)
    requires '&' !in item
    ensures Parse(item, decode) == if item == "" then [] else [Param(item, decode)]
  {
  }

  /** An empty last parameter is not seen. */
  function Trimmed(items: seq<string>): seq<string> {
    if items != [] && items[|items| - 1] == "" then items[..|items| - 1] else items
  }

  lemma TrimmedTail(items: seq<string>, decode: string -> string)
    requires |items| > 1
    ensures ParamsOf(Trimmed(items), decode) == [Param(items[0], decode)] + ParamsOf(Trimmed(items[1..]), decode)
  {
    var rest := items[1..];
    assert Trimmed(items) == [items[0]] + Trimmed(rest);
    assert ([items[0]] + Trimmed(rest))[1..] == Trimmed(rest);
  }

  /** Items joined by '&' come back one by one, except an empty last one. */
  lemma {:induction false} JoinedParses(items: seq<string>, decode: string -> string)
    requires forall s :: s in items ==> '&' !in s
    ensures Parse(JoinAmp(items), decode) == ParamsOf(Trimmed(items), decode)
    decreases |items|
  {
    if |items| == 1 {
      ParsesOnly(items[0], decode);
      assert items[..0] == [] && items[1..] == [];
    } else if |items| > 1 {
      JoinedParses(items[1..], decode);
      ParsesFirst(items[0], JoinAmp(items[1..]), decode);
      TrimmedTail(items, decode);
    }
  }

  function Queried(ps: seq<Pair>, encode: string -> string): (items: seq<string>)
    ensures |items| == |ps| && forall i :: 0 <= i < |ps| ==> items[i] == encode(ps[i].key) + "=" + encode(ps[i].value)
  {
    if ps == [] then []
    else [encode(ps[0].key) + "=" + encode(ps[0].value)] + Queried(ps[1..], encode)
  }

  lemma ParamOfPair(p: Pair, encode: string -> string, decode: string -> string)
    requires forall x :: decode(encode(x)) == x && '=' !in encode(x)
    ensures Param(encode(p.key) + "=" + encode(p.value), decode) == p
  {
    ParamExactly(encode(p.key), encode(p.value), decode);
  }

  lemma {:induction false} ItemsAreClean(ps: seq<Pair>, encode: string -> string)
    requires forall x :: '&' !in encode(x)
    ensures forall s :: s in Queried(ps, encode) ==> '&' !in s && s != ""
  {
    var items := Queried(ps, encode);
    forall s | s in items
      ensures '&' !in s && s != ""
    {
      var i :| 0 <= i < |items| && items[i] == s;
      assert |s| == |encode(ps[i].key)| + 1 + |encode(ps[i].value)|;
    }
  }

  lemma {:induction false} ItemsAreRead(ps: seq<Pair>, encode: string -> string, decode: string -> string)
    requires forall x :: decode(encode(x)) == x && '=' !in encode(x)
    ensures ParamsOf(Queried(ps, encode), decode) == ps
  {
    forall i | 0 <= i < |ps|
      ensures ParamsOf(Queried(ps, encode), decode)[i] == ps[i]
    {
      ParamOfPair(ps[i], encode, decode);
    }
  }

  /** A query string written with an encoding that hides '&' and '=' is read back pair by pair. */
  lemma {:induction false} QueryRoundTrip(ps: seq<Pair>, encode: string -> string, decode: string -> string)
    requires forall x :: decode(encode(x)) == x && '=' !in encode(x) && '&' !in encode(x)
    ensures Parse(JoinAmp(Queried(ps, encode)), decode) == ps
  {
    var items := Queried(ps, encode);
    ItemsAreClean(ps, encode);
    JoinedParses(items, decode);
    assert items != [] ==> items[|items| - 1] in items;
    assert Trimmed(items) == items;
    ItemsAreRead(ps, encode, decode);
  }
}

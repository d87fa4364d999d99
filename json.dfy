/** The JSON value tree of the chart builder (`JSONObject` in chart.cc) with
    value semantics. An object is the sequence of its members in iteration
    order; the indexing operators create what they index, and an assignment
    through a chain of them is `Assign` along a path of steps. `Stringify` is
    the text the serialiser writes; the number formatter is a parameter. */
module JsonValue {

  datatype Json =
    | Null
    | Bool(b: bool)
    | Num(x: real)
    | Str(s: string)
    | Arr(items: seq<Json>)
    | Obj(members: seq<Member>)

  datatype Member = Member(key: string, value: Json)

  datatype Option<T> = None | Some(value: T)

  /** `make_object()`: an object with no members. */
  function MakeObject(): Json
  {
    Obj([])
  }

  /** `make_array()`: an array with no elements. */
  function MakeArray(): Json
  {
    Arr([])
  }

  /** The keys of `ms`, in iteration order. */
  function Keys(ms: seq<Member>): (ks: seq<string>)
    ensures |ks| == |ms|
    ensures forall p :: 0 <= p < |ms| ==> ks[p] == ms[p].key
  {
    seq(|ms|, p requires 0 <= p < |ms| => ms[p].key)
  }

  /** Position of the member with key `k`, or |ms| when there is none. */
  function KeyIndex(ms: seq<Member>, k: string): (i: nat)
    ensures i <= |ms|
    ensures i < |ms| ==> ms[i].key == k
    ensures forall p :: 0 <= p < i ==> ms[p].key != k
    ensures i == |ms| <==> k !in Keys(ms)
  {
    if ms == [] then 0
    else if ms[0].key == k then 0
    else
      var rest := KeyIndex(ms[1..], k);
      assert Keys(ms) == [ms[0].key] + Keys(ms[1..]);
      1 + rest
  }

  /** Appending a member appends its key. */
  lemma KeysSnoc(ms: seq<Member>, m: Member)
    ensures Keys(ms + [m]) == Keys(ms) + [m.key]
  {
  }

  /** The position of a key depends only on the keys. */
  lemma KeyIndexSameKeys(ms: seq<Member>, ns: seq<Member>, k: string)
    requires Keys(ms) == Keys(ns)
    ensures KeyIndex(ms, k) == KeyIndex(ns, k)
  {
    assert forall p :: 0 <= p < |ms| ==> ms[p].key == Keys(ms)[p] == ns[p].key;
  }

  /** No key occurs twice among the members. */
  predicate DistinctKeys(ms: seq<Member>)
  {
    forall p, q :: 0 <= p < q < |ms| ==> ms[p].key != ms[q].key
  }

  /** Every object in the tree has distinct keys. */
  predicate WellFormed(j: Json)
  {
    match j
    case Arr(items) => forall i :: 0 <= i < |items| ==> WellFormed(items[i])
    case Obj(ms) => DistinctKeys(ms) && forall i :: 0 <= i < |ms| ==> WellFormed(ms[i].value)
    case _ => true
  }

  function Nulls(n: nat): (xs: seq<Json>)
    ensures |xs| == n && forall p :: 0 <= p < n ==> xs[p] == Null
  {
    seq(n, _ => Null)
  }

  /** The object `operator[](k)`: the object after the call, and the value
      the returned reference designates. A null entry is added under `k`
      only when `k` is absent; every existing entry stays where it is, with
      its value. */
  function AtKey(j: Json, k: string): (r: (Json, Json))
    requires j.Obj?
    ensures r.0.Obj? && j.members <= r.0.members
    ensures k in Keys(j.members) ==> r.0 == j
    ensures k !in Keys(j.members) ==> |r.0.members| == |j.members| + 1 && r.1 == Null
    ensures k in Keys(r.0.members)
    ensures KeyIndex(r.0.members, k) == KeyIndex(j.members, k)
    ensures r.1 == r.0.members[KeyIndex(r.0.members, k)].value
    ensures DistinctKeys(j.members) ==> DistinctKeys(r.0.members)
  {
    var ms := j.members;
    var i := KeyIndex(ms, k);
    if i < |ms| then (j, ms[i].value)
    else
      var grown := ms + [Member(k, Null)];
      assert Keys(grown) == Keys(ms) + [k];
      assert forall p :: 0 <= p < |ms| ==> grown[p].key != k;
      (Obj(grown), Null)
  }

  function Max(a: nat, b: nat): nat
  {
    if a >= b then a else b
  }

  /** The array `operator[](x)`: the array after the call, and its element
      x. An array of length x or less is first extended to length x + 1 with
      nulls; earlier elements stay unchanged. */
  function AtIndex(j: Json, x: nat): (r: (Json, Json))
    requires j.Arr?
    ensures r.0.Arr? && |r.0.items| == Max(|j.items|, x + 1)
    ensures j.items <= r.0.items
    ensures forall p :: |j.items| <= p < |r.0.items| ==> r.0.items[p] == Null
    ensures r.1 == r.0.items[x]
  {
    if x < |j.items| then (j, j.items[x])
    else (Arr(j.items + Nulls(x + 1 - |j.items|)), Null)
  }

  /** One indexing operator of a chain such as `chart["page_list"][i]`. */
  datatype Step = Key(name: string) | Index(at: nat)

  /** Every indexing operator along the path finds the type it asserts:
      an object under a key step, an array under an index step. */
  predicate Reachable(j: Json, path: seq<Step>)
    decreases |path|
  {
    path == [] ||
    match path[0]
    case Key(k) => j.Obj? && Reachable(AtKey(j, k).1, path[1..])
    case Index(x) => j.Arr? && Reachable(AtIndex(j, x).1, path[1..])
  }

  /** The tree after `j[path[0]][path[1]]... = v`: every operator of the
      chain creates what it indexes, and the last reference is overwritten.
      Through an object, the existing keys keep their order and at most one
      key is appended; through an array, the array grows to cover the index
      and no further. */
  function Assign(j: Json, path: seq<Step>, v: Json): (r: Json)
    requires Reachable(j, path)
    ensures path != [] && path[0].Key? ==>
              r.Obj? && Keys(j.members) <= Keys(r.members) && |r.members| <= |j.members| + 1
    ensures path != [] && path[0].Index? ==> r.Arr? && |r.items| == Max(|j.items|, path[0].at + 1)
    decreases |path|
  {
    if path == [] then v
    else match path[0]
      case Key(k) =>
        var (o, cur) := AtKey(j, k);
        var i := KeyIndex(o.members, k);
        var ms := o.members[i := Member(k, Assign(cur, path[1..], v))];
        assert Keys(ms) == Keys(o.members);
        assert Keys(j.members) == Keys(o.members)[..|j.members|];
        Obj(ms)
      case Index(x) =>
        var (a, cur) := AtIndex(j, x);
        Arr(a.items[x := Assign(cur, path[1..], v)])
  }

  /** Reading along a path without creating anything: a value is found only
      when every key and index on the path already exists, so the same chain
      of indexing operators would find its types and create nothing. */
  function Get(j: Json, path: seq<Step>): (r: Option<Json>)
    ensures r.Some? && path != [] && path[0].Key? ==> j.Obj? && path[0].name in Keys(j.members)
    ensures r.Some? && path != [] && path[0].Index? ==> j.Arr? && path[0].at < |j.items|
    ensures r.Some? ==> Reachable(j, path)
    decreases |path|
  {
    if path == [] then Some(j)
    else match path[0]
      case Key(k) =>
        if j.Obj? && KeyIndex(j.members, k) < |j.members| then
          Get(j.members[KeyIndex(j.members, k)].value, path[1..])
        else None
      case Index(x) =>
        if j.Arr? && x < |j.items| then Get(j.items[x], path[1..]) else None
  }

  /** Reading the first member with key k. */
  lemma GetMember(ms: seq<Member>, p: nat, k: string)
    requires p < |ms| && ms[p].key == k
    requires forall q :: 0 <= q < p ==> ms[q].key != k
    ensures Get(Obj(ms), [Key(k)]) == Some(ms[p].value)
  {
    assert Keys(ms)[p] == k;
    assert KeyIndex(ms, k) == p;
    assert [Key(k)][1..] == [];
  }

  /** Reading through a key the object holds. */
  lemma GetThroughKey(ms: seq<Member>, k: string, rest: seq<Step>)
    requires k in Keys(ms)
    ensures Get(Obj(ms), [Key(k)] + rest) == Get(ms[KeyIndex(ms, k)].value, rest)
  {
    assert ([Key(k)] + rest)[1..] == rest;
  }

  /** Reading through the member at `p`, the first one with key `k`. */
  lemma GetThroughMember(ms: seq<Member>, p: nat, k: string, rest: seq<Step>)
    requires p < |ms| && ms[p].key == k
    requires forall q :: 0 <= q < p ==> ms[q].key != k
    ensures Get(Obj(ms), [Key(k)] + rest) == Get(ms[p].value, rest)
  {
    assert Keys(ms)[p] == k;
    assert KeyIndex(ms, k) == p;
    GetThroughKey(ms, k, rest);
  }

  /** Reading through an index the array holds. */
  lemma GetThroughIndex(items: seq<Json>, x: nat, rest: seq<Step>)
    requires x < |items|
    ensures Get(Arr(items), [Index(x)] + rest) == Get(items[x], rest)
  {
    assert ([Index(x)] + rest)[1..] == rest;
  }

  /** Reading back what was just assigned gives the assigned value. */
  lemma {:induction false} AssignGet(j: Json, path: seq<Step>, v: Json)
    requires Reachable(j, path)
    ensures Get(Assign(j, path, v), path) == Some(v)
    decreases |path|
  {
    if path != [] {
      match path[0]
      case Key(k) =>
        var (o, cur) := AtKey(j, k);
        AssignGet(cur, path[1..], v);
        var r := Assign(j, path, v);
        assert Keys(r.members) == Keys(o.members);
        KeyIndexSameKeys(r.members, o.members, k);
      case Index(x) =>
        var (a, cur) := AtIndex(j, x);
        AssignGet(cur, path[1..], v);
    }
  }

  /** An assignment under one key or index leaves every path that leaves
      the root through another key, or through another index the array
      already had, reading as before. (An index the assignment grew the
      array past now reads as null.) */
  lemma {:induction false} AssignElsewhere(j: Json, path: seq<Step>, v: Json, other: seq<Step>)
    requires Reachable(j, path) && path != [] && other != [] && other[0] != path[0]
    requires other[0].Index? && j.Arr? ==> other[0].at < |j.items|
    ensures Get(Assign(j, path, v), other) == Get(j, other)
  {
    var r := Assign(j, path, v);
    match path[0]
    case Key(k) =>
      if other[0].Key? && j.Obj? {
        var (o, cur) := AtKey(j, k);
        var i := KeyIndex(o.members, k);
        var m := Member(k, Assign(cur, path[1..], v));
        assert forall p :: |j.members| <= p < |o.members| ==> o.members[p].key == k;
        OtherKeyUnmoved(j.members, o.members, i, m, other[0].name);
      }
    case Index(x) =>
      var (a, cur) := AtIndex(j, x);
      if other[0].Index? {
        var y := other[0].at;
        assert y != x && r.items[y] == a.items[y] == j.items[y];
      }
  }

  /** The key step of AssignElsewhere: `os` extends `ms` by members whose
      keys are not k2, and entry i of `os` is replaced by one with the same
      key, which is not k2. Key k2 then sits where it sat in `ms`, with the
      same member, or is still absent. */
  lemma OtherKeyUnmoved(ms: seq<Member>, os: seq<Member>, i: nat, m: Member, k2: string)
    requires ms <= os && i < |os| && os[i].key == m.key && m.key != k2
    requires forall p :: |ms| <= p < |os| ==> os[p].key != k2
    ensures KeyIndex(ms, k2) < |ms| ==>
              KeyIndex(os[i := m], k2) == KeyIndex(ms, k2) && os[i := m][KeyIndex(ms, k2)] == ms[KeyIndex(ms, k2)]
    ensures KeyIndex(ms, k2) == |ms| ==> KeyIndex(os[i := m], k2) == |os|
  {
    var r := os[i := m];
    assert forall p :: 0 <= p < |ms| ==> r[p].key == ms[p].key;
    var q := KeyIndex(ms, k2);
    if q < |ms| {
      assert r[q].key == k2;
      assert KeyIndex(r, k2) == q;
    } else {
      assert k2 !in Keys(r) by {
        forall p | 0 <= p < |r| ensures r[p].key != k2 {
          if p < |ms| {
            assert ms[p].key != k2;
          }
        }
      }
    }
  }

  /** `o[k] = v` for a key the object lacks appends the entry. */
  lemma AssignNewKey(ms: seq<Member>, k: string, v: Json)
    requires k !in Keys(ms)
    ensures Reachable(Obj(ms), [Key(k)])
    ensures Assign(Obj(ms), [Key(k)], v) == Obj(ms + [Member(k, v)])
  {
    assert [Key(k)][1..] == [];
  }

  /** An assignment through a key the object has replaces that entry's
      value in place. */
  lemma AssignThroughKey(ms: seq<Member>, k: string, rest: seq<Step>, v: Json)
    requires k in Keys(ms) && Reachable(ms[KeyIndex(ms, k)].value, rest)
    ensures Reachable(Obj(ms), [Key(k)] + rest)
    ensures Assign(Obj(ms), [Key(k)] + rest, v) ==
              Obj(ms[KeyIndex(ms, k) := Member(k, Assign(ms[KeyIndex(ms, k)].value, rest, v))])
  {
    assert ([Key(k)] + rest)[1..] == rest;
  }

  /** An assignment through an index the array has replaces that element in
      place. */
  lemma AssignThroughIndex(items: seq<Json>, x: nat, rest: seq<Step>, v: Json)
    requires x < |items| && Reachable(items[x], rest)
    ensures Reachable(Arr(items), [Index(x)] + rest)
    ensures Assign(Arr(items), [Index(x)] + rest, v) == Arr(items[x := Assign(items[x], rest, v)])
  {
    assert ([Index(x)] + rest)[1..] == rest;
  }

  /** `a[n] = v` on an array of length n appends `v`. */
  lemma AssignAppend(items: seq<Json>, v: Json)
    ensures Reachable(Arr(items), [Index(|items|)])
    ensures Assign(Arr(items), [Index(|items|)], v) == Arr(items + [v])
  {
    assert [Index(|items|)][1..] == [];
    assert Nulls(1) == [Null];
  }

  /** `o[k][n][field] = v` where `o[k]` is an array whose last element,
      at n, is an object still lacking `field`: that element gains the
      entry. */
  lemma AssignFieldOfLast(ms: seq<Member>, k: string, items: seq<Json>, partial: seq<Member>, field: string, v: Json)
    requires k in Keys(ms) && ms[KeyIndex(ms, k)].value == Arr(items + [Obj(partial)])
    requires field !in Keys(partial)
    ensures Reachable(Obj(ms), [Key(k), Index(|items|), Key(field)])
    ensures Assign(Obj(ms), [Key(k), Index(|items|), Key(field)], v) ==
              Obj(ms[KeyIndex(ms, k) := Member(k, Arr(items + [Obj(partial + [Member(field, v)])]))])
  {
    var all := items + [Obj(partial)];
    AssignNewKey(partial, field, v);
    AssignThroughIndex(all, |items|, [Key(field)], v);
    assert [Key(k), Index(|items|), Key(field)] == [Key(k)] + ([Index(|items|)] + [Key(field)]);
    AssignThroughKey(ms, k, [Index(|items|)] + [Key(field)], v);
    ReplaceLastItem(items, Obj(partial), Obj(partial + [Member(field, v)]));
  }

  /** Replacing the last element of an array. */
  lemma ReplaceLastItem(items: seq<Json>, x: Json, y: Json)
    ensures (items + [x])[|items| := y] == items + [y]
  {
  }

  /** `o[k][n] = v` where `o[k]` is an array of length n: `v` is appended. */
  lemma AssignAppendUnder(ms: seq<Member>, k: string, items: seq<Json>, v: Json)
    requires k in Keys(ms) && ms[KeyIndex(ms, k)].value == Arr(items)
    ensures Reachable(Obj(ms), [Key(k), Index(|items|)])
    ensures Assign(Obj(ms), [Key(k), Index(|items|)], v) ==
              Obj(ms[KeyIndex(ms, k) := Member(k, Arr(items + [v]))])
  {
    AssignAppend(items, v);
    assert [Key(k), Index(|items|)] == [Key(k)] + [Index(|items|)];
    AssignThroughKey(ms, k, [Index(|items|)], v);
  }

  /** Assigning a well-formed value keeps the tree well-formed. */
  lemma {:induction false} AssignWellFormed(j: Json, path: seq<Step>, v: Json)
    requires Reachable(j, path) && WellFormed(j) && WellFormed(v)
    ensures WellFormed(Assign(j, path, v))
    decreases |path|
  {
    if path != [] {
      match path[0]
      case Key(k) =>
        var (o, cur) := AtKey(j, k);
        AtKeyWellFormed(j, k);
        AssignWellFormed(cur, path[1..], v);
        ReplaceMemberWellFormed(o.members, KeyIndex(o.members, k), Member(k, Assign(cur, path[1..], v)));
      case Index(x) =>
        var (a, cur) := AtIndex(j, x);
        AtIndexWellFormed(j, x);
        AssignWellFormed(cur, path[1..], v);
        assert WellFormed(Arr(a.items[x := Assign(cur, path[1..], v)])) by {
          assert forall p :: 0 <= p < |a.items| && p != x ==> a.items[x := Assign(cur, path[1..], v)][p] == a.items[p];
        }
    }
  }

  /** Creating a missing key with a null value keeps an object well-formed. */
  lemma AtKeyWellFormed(j: Json, k: string)
    requires j.Obj? && WellFormed(j)
    ensures WellFormed(AtKey(j, k).0) && WellFormed(AtKey(j, k).1)
  {
    var o := AtKey(j, k).0;
    forall p | 0 <= p < |o.members|
      ensures WellFormed(o.members[p].value)
    {
      if p < |j.members| {
        assert o.members[p] == j.members[p];
      }
    }
  }

  /** Growing an array with nulls keeps it well-formed. */
  lemma AtIndexWellFormed(j: Json, x: nat)
    requires j.Arr? && WellFormed(j)
    ensures WellFormed(AtIndex(j, x).0) && WellFormed(AtIndex(j, x).1)
  {
    var a := AtIndex(j, x).0;
    forall p | 0 <= p < |a.items|
      ensures WellFormed(a.items[p])
    {
      if p < |j.items| {
        assert a.items[p] == j.items[p];
      }
    }
  }

  /** Replacing an entry's value, key unchanged, by a well-formed value keeps
      an object well-formed. */
  lemma ReplaceMemberWellFormed(ms: seq<Member>, i: nat, m: Member)
    requires WellFormed(Obj(ms)) && i < |ms| && ms[i].key == m.key && WellFormed(m.value)
    ensures WellFormed(Obj(ms[i := m]))
  {
    var r := ms[i := m];
    assert forall p :: 0 <= p < |ms| ==> r[p].key == ms[p].key;
    assert forall p :: 0 <= p < |ms| && p != i ==> r[p] == ms[p];
  }

  /** The text `_stringify_to` writes for `j`; `num` is the text of a
      number. */
  function Stringify(j: Json, num: real -> string): (t: string)
    ensures j.Arr? ==> |t| >= 2 && t[0] == '[' && t[|t| - 1] == ']'
    ensures j.Obj? ==> |t| >= 2 && t[0] == '{' && t[|t| - 1] == '}'
    ensures j.Str? ==> |t| == |j.s| + 2 && t[0] == '"' && t[|t| - 1] == '"' && t[1..|t| - 1] == j.s
    decreases j, 1, 0
  {
    match j
    case Null => "null"
    case Bool(b) => if b then "true" else "false"
    case Num(x) => num(x)
    case Str(s) => "\"" + s + "\""
    case Arr(items) => "[" + Elements(j, 0, false, num) + "]"
    case Obj(ms) => "{" + Members(j, 0, false, num) + "}"
  }

  /** The elements from `i` on; `nfirst` says whether one was written
      already, and so whether a comma comes first. */
  function Elements(j: Json, i: nat, nfirst: bool, num: real -> string): (t: string)
    requires j.Arr? && i <= |j.items|
    ensures i == |j.items| ==> t == ""
    ensures nfirst && i < |j.items| ==> |t| > 0 && t[0] == ','
    decreases j, 0, |j.items| - i
  {
    if i == |j.items| then ""
    else (if nfirst then "," else "") + Stringify(j.items[i], num) + Elements(j, i + 1, true, num)
  }

  /** The members from `i` on, each as quoted key, colon, value. */
  function Members(j: Json, i: nat, nfirst: bool, num: real -> string): (t: string)
    requires j.Obj? && i <= |j.members|
    ensures i == |j.members| ==> t == ""
    ensures nfirst && i < |j.members| ==> |t| > 0 && t[0] == ','
    decreases j, 0, |j.members| - i
  {
    if i == |j.members| then ""
    else (if nfirst then "," else "") + EntryText(j.members[i], num) + Members(j, i + 1, true, num)
  }

  /** `t` ends with `u`. */
  predicate EndsWith(t: string, u: string)
  {
    |u| <= |t| && t[|t| - |u|..] == u
  }

  /** One object entry: `"key":value`. */
  function EntryText(m: Member, num: real -> string): (t: string)
    decreases m
  {
    "\"" + m.key + "\":" + Stringify(m.value, num)
  }

  /** Reference definition: the parts with one comma between consecutive
      parts. */
  function Join(parts: seq<string>): (t: string)
    ensures |parts| > 0 ==> parts[0] <= t
    ensures |parts| > 0 ==> EndsWith(t, parts[|parts| - 1])
  {
    if |parts| == 0 then ""
    else if |parts| == 1 then parts[0]
    else Join(parts[..|parts| - 1]) + "," + parts[|parts| - 1]
  }

  /** Joining a first part in front of the rest. */
  lemma {:induction false} JoinCons(a: string, rest: seq<string>)
    ensures Join([a] + rest) == a + (if rest == [] then "" else "," + Join(rest))
    decreases |rest|
  {
    if |rest| > 1 {
      var n := |rest| - 1;
      assert ([a] + rest)[..|rest|] == [a] + rest[..n];
      JoinCons(a, rest[..n]);
    } else if |rest| == 1 {
      assert ([a] + rest)[..1] == [a];
    }
  }

  /** Joining a suffix: its first part, then a comma and the rest if there
      is a rest. */
  lemma JoinStep(ts: seq<string>, i: nat)
    requires i < |ts|
    ensures Join(ts[i..]) == ts[i] + (if i + 1 < |ts| then "," else "") + Join(ts[i + 1..])
  {
    assert ts[i..] == [ts[i]] + ts[i + 1..];
    JoinCons(ts[i], ts[i + 1..]);
  }

  /** Joining one more part at the end. */
  lemma JoinSnoc(ts: seq<string>, i: nat)
    requires i < |ts|
    ensures Join(ts[..i + 1]) == Join(ts[..i]) + (if i > 0 then "," else "") + ts[i]
  {
    assert ts[..i + 1][..i] == ts[..i];
    if i == 0 {
      assert ts[..i] == [];
    }
  }

  /** Regrouping a separator, a part and the rest of a joined text. */
  lemma Regroup(sep: string, t: string, sep2: string, rest: string)
    ensures sep + t + (sep2 + rest) == sep + (t + sep2 + rest)
  {
  }

  /** The texts of the elements, one part each. */
  function ItemTexts(items: seq<Json>, num: real -> string): (ts: seq<string>)
    ensures |ts| == |items|
  {
    seq(|items|, p requires 0 <= p < |items| => Stringify(items[p], num))
  }

  function EntryTexts(ms: seq<Member>, num: real -> string): (ts: seq<string>)
    ensures |ts| == |ms|
  {
    seq(|ms|, p requires 0 <= p < |ms| => EntryText(ms[p], num))
  }

  lemma {:induction false} ElementsJoin(j: Json, i: nat, nfirst: bool, num: real -> string)
    requires j.Arr? && i <= |j.items|
    ensures Elements(j, i, nfirst, num) ==
              (if nfirst && i < |j.items| then "," else "") + Join(ItemTexts(j.items, num)[i..])
    decreases |j.items| - i
  {
    var ts := ItemTexts(j.items, num);
    if i < |j.items| {
      ElementsJoin(j, i + 1, true, num);
      JoinStep(ts, i);
      assert ts[i] == Stringify(j.items[i], num);
      Regroup(if nfirst then "," else "", ts[i], if i + 1 < |ts| then "," else "", Join(ts[i + 1..]));
    }
  }

  lemma {:induction false} MembersJoin(j: Json, i: nat, nfirst: bool, num: real -> string)
    requires j.Obj? && i <= |j.members|
    ensures Members(j, i, nfirst, num) ==
              (if nfirst && i < |j.members| then "," else "") + Join(EntryTexts(j.members, num)[i..])
    decreases |j.members| - i
  {
    var ts := EntryTexts(j.members, num);
    if i < |j.members| {
      MembersJoin(j, i + 1, true, num);
      JoinStep(ts, i);
      assert ts[i] == EntryText(j.members[i], num);
      Regroup(if nfirst then "," else "", ts[i], if i + 1 < |ts| then "," else "", Join(ts[i + 1..]));
    }
  }

  /** An array is its elements' texts, comma separated, inside brackets: no
      comma before the first element or after the last. */
  lemma ArrayText(j: Json, num: real -> string)
    requires j.Arr?
    ensures Stringify(j, num) == "[" + Join(ItemTexts(j.items, num)) + "]"
  {
    ElementsJoin(j, 0, false, num);
    assert ItemTexts(j.items, num)[0..] == ItemTexts(j.items, num);
  }

  /** An object is its `"key":value` entries, comma separated, inside
      braces, in iteration order. */
  lemma ObjectText(j: Json, num: real -> string)
    requires j.Obj?
    ensures Stringify(j, num) == "{" + Join(EntryTexts(j.members, num)) + "}"
  {
    MembersJoin(j, 0, false, num);
    assert EntryTexts(j.members, num)[0..] == EntryTexts(j.members, num);
  }

  /** The texts of the scalars and of the empty containers. */
  lemma ScalarTexts(s: string, num: real -> string)
    ensures Stringify(Null, num) == "null"
    ensures Stringify(Bool(true), num) == "true" && Stringify(Bool(false), num) == "false"
    ensures Stringify(Str(s), num) == ['"'] + s + ['"']
    ensures Stringify(Arr([]), num) == "[]" && Stringify(Obj([]), num) == "{}"
  {
  }

  /** The text of an array holding one string. */
  lemma OneStringText(s: string, num: real -> string)
    ensures Stringify(Arr([Str(s)]), num) == "[\"" + s + "\"]"
  {
    var j := Arr([Str(s)]);
    ArrayText(j, num);
    var ts := ItemTexts(j.items, num);
    assert ts == ["\"" + s + "\""];
    JoinCons(ts[0], []);
  }

  /** The text of an array holding two strings. */
  lemma TwoStringsText(a: string, b: string, num: real -> string)
    ensures Stringify(Arr([Str(a), Str(b)]), num) == "[\"" + a + "\",\"" + b + "\"]"
  {
    var j := Arr([Str(a), Str(b)]);
    ArrayText(j, num);
    var ts := ItemTexts(j.items, num);
    assert ts == ["\"" + a + "\""] + ["\"" + b + "\""];
    JoinCons(ts[0], [ts[1]]);
    JoinCons(ts[1], []);
  }

  /** Strings are written without escaping, so for any strings a and b the
      array holding the one string `a","b` and the array holding the two
      strings a and b have the same text, `["a","b"]`. */
  lemma UnescapedSameText(a: string, b: string, num: real -> string)
    ensures Stringify(Arr([Str(a + "\",\"" + b)]), num) == Stringify(Arr([Str(a), Str(b)]), num)
  {
    OneStringText(a + "\",\"" + b, num);
    TwoStringsText(a, b, num);
  }

  /** Two different trees with the same text: `["a","b"]` is both an array
      of one string and an array of two. */
  lemma UnescapedCollision(num: real -> string)
    ensures Arr([Str("a\",\"b")]) != Arr([Str("a"), Str("b")])
    ensures Stringify(Arr([Str("a\",\"b")]), num) == Stringify(Arr([Str("a"), Str("b")]), num)
  {
    assert Arr([Str("a\",\"b")]).items[0] != Arr([Str("a"), Str("b")]).items[0];
    UnescapedSameText("a", "b", num);
    assert "a" + "\",\"" + "b" == "a\",\"b";
  }
}

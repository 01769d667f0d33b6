/**
 The two mutable collections the source keeps state in: an insertion-ordered
 `Map` and a growable array. The pure functions are the specification; the
 classes update one field in place.
 */
module JsCollections {
  import opened Common

  datatype Entry<+K, +V> = Entry(key: K, value: V)

  // The entries of a Map, oldest first.
  type Entries<K, V> = seq<Entry<K, V>>

  ghost predicate DistinctKeys<K, V>(m: Entries<K, V>) {
    forall i, j :: 0 <= i < j < |m| ==> m[i].key != m[j].key
  }

  // The position of the key, or |m| when it is absent.
  function IndexOf<K(==), V>(m: Entries<K, V>, k: K): (i: nat)
    ensures i <= |m|
    ensures i < |m| ==> m[i].key == k
    ensures forall j :: 0 <= j < i ==> m[j].key != k
  {
    if m == [] || m[0].key == k then 0 else 1 + IndexOf(m[1..], k)
  }

  function Get<K(==), V>(m: Entries<K, V>, k: K): (v: Option<V>) {
    var i := IndexOf(m, k);
    if i < |m| then Some(m[i].value) else None
  }

  // Map.set: a known key keeps its position, a new one goes last.
  function Set<K(==), V>(m: Entries<K, V>, k: K, v: V): (m': Entries<K, V>)
    ensures DistinctKeys(m) ==> DistinctKeys(m')
    ensures |m'| <= |m| + 1
  {
    var i := IndexOf(m, k);
    if i < |m| then m[i := Entry(k, v)] else m + [Entry(k, v)]
  }

  function Delete<K(==), V>(m: Entries<K, V>, k: K): (m': Entries<K, V>)
    ensures DistinctKeys(m) ==> DistinctKeys(m')
  {
    var i := IndexOf(m, k);
    if i < |m| then m[..i] + m[i + 1..] else m
  }

  function Filter<T(!new)>(s: seq<T>, keep: T -> bool): (r: seq<T>)
    ensures |r| <= |s|
  {
    if s == [] then []
    else (if keep(s[0]) then [s[0]] else []) + Filter(s[1..], keep)
  }

  function Map<T, U>(s: seq<T>, f: T -> U): (r: seq<U>)
    ensures |r| == |s| && forall i :: 0 <= i < |s| ==> r[i] == f(s[i])
  {
    seq(|s|, i requires 0 <= i < |s| => f(s[i]))
  }

  // ---- Lemmas ----

  lemma GetMember<K, V>(m: Entries<K, V>, k: K)
    ensures match Get(m, k)
            case Some(v) => Entry(k, v) in m
            case None => forall e :: e in m ==> e.key != k
  {
  }

  lemma GetSet<K, V>(m: Entries<K, V>, k: K, v: V, q: K)
    ensures Get(Set(m, k, v), q) == if q == k then Some(v) else Get(m, q)
  {
    var m', i, j := Set(m, k, v), IndexOf(m, k), IndexOf(m, q);
    if q == k {
      assert m'[i].key == k;
      assert IndexOf(m', q) == i;
    } else if j < |m| {
      assert m'[j] == m[j];
      assert IndexOf(m', q) == j;
    } else {
      assert forall e :: e in m' ==> e == Entry(k, v) || e in m;
    }
  }

  lemma GetIn<K, V>(m: Entries<K, V>, i: nat)
    requires DistinctKeys(m) && i < |m|
    ensures Get(m, m[i].key) == Some(m[i].value)
  {
    var j := IndexOf(m, m[i].key);
  }

  lemma DeleteAt<K, V>(m: Entries<K, V>, i: nat)
    requires DistinctKeys(m) && i < |m|
    ensures Delete(m, m[i].key) == m[..i] + m[i + 1..]
  {
    assert IndexOf(m, m[i].key) == i;
  }

  lemma {:induction false} FilterMembers<T(!new)>(s: seq<T>, keep: T -> bool)
    ensures forall x :: x in Filter(s, keep) <==> x in s && keep(x)
  {
    if s != [] {
      FilterMembers(s[1..], keep);
    }
  }

  lemma Associative<T>(a: seq<T>, b: seq<T>, c: seq<T>)
    ensures (a + b) + c == a + (b + c)
  {
  }

  lemma FilterCons<T(!new)>(x: T, s: seq<T>, keep: T -> bool)
    ensures Filter([x] + s, keep) == if keep(x) then [x] + Filter(s, keep) else Filter(s, keep)
  {
    assert ([x] + s)[1..] == s;
  }

  lemma {:induction false} FilterConcat<T(!new)>(a: seq<T>, b: seq<T>, keep: T -> bool)
    ensures Filter(a + b, keep) == Filter(a, keep) + Filter(b, keep)
  {
    if a == [] {
      assert a + b == b;
    } else {
      var x, rest := a[0], a[1..];
      assert a == [x] + rest;
      Associative([x], rest, b);
      FilterCons(x, rest + b, keep);
      FilterCons(x, rest, keep);
      FilterConcat(rest, b, keep);
      Associative([x], Filter(rest, keep), Filter(b, keep));
    }
  }

  lemma {:induction false} FilterIdempotent<T(!new)>(s: seq<T>, keep: T -> bool)
    requires forall x :: x in s ==> keep(x)
    ensures Filter(s, keep) == s
  {
    if s != [] {
      FilterIdempotent(s[1..], keep);
    }
  }

  lemma {:induction false} FilterNone<T(!new)>(s: seq<T>, keep: T -> bool)
    requires forall x :: x in s ==> !keep(x)
    ensures Filter(s, keep) == []
  {
    if s != [] {
      FilterNone(s[1..], keep);
    }
  }

  lemma {:induction false} FilterSame<T(!new)>(s: seq<T>, p: T -> bool, q: T -> bool)
    requires forall x :: x in s ==> p(x) == q(x)
    ensures Filter(s, p) == Filter(s, q)
  {
    if s != [] {
      FilterSame(s[1..], p, q);
    }
  }

  lemma {:induction false} FilterTwice<T(!new)>(s: seq<T>, p: T -> bool, q: T -> bool)
    requires forall x :: x in s && q(x) ==> p(x)
    ensures Filter(Filter(s, p), q) == Filter(s, q)
  {
    if s != [] {
      FilterTwice(s[1..], p, q);
      FilterConcat(if p(s[0]) then [s[0]] else [], Filter(s[1..], p), q);
    }
  }

  lemma {:induction false} FilterDistinct<K(!new), V(!new)>(m: Entries<K, V>, keep: Entry<K, V> -> bool)
    requires DistinctKeys(m)
    ensures DistinctKeys(Filter(m, keep))
  {
    if m != [] {
      FilterDistinct(m[1..], keep);
      FilterMembers(m[1..], keep);
      var rest := Filter(m[1..], keep);
      forall i | 0 <= i < |rest| ensures rest[i].key != m[0].key {
        assert rest[i] in m[1..];
        var j :| 0 <= j < |m[1..]| && m[1..][j] == rest[i];
        assert m[j + 1] == rest[i];
      }
    }
  }

  lemma GetFilter<K(!new), V(!new)>(m: Entries<K, V>, keep: Entry<K, V> -> bool, k: K)
    requires DistinctKeys(m)
    ensures Get(Filter(m, keep), k)
            == match Get(m, k) case Some(v) => if keep(Entry(k, v)) then Some(v) else None case None => None
  {
    GetMember(Filter(m, keep), k);
    GetMember(m, k);
    FilterMembers(m, keep);
    match Get(Filter(m, keep), k)
    case Some(v) =>
      var i :| 0 <= i < |m| && m[i] == Entry(k, v);
      GetIn(m, i);
    case None =>
      match Get(m, k)
      case Some(v) => assert Entry(k, v) in m;
      case None =>
  }

  lemma SetCons<K, V>(e: Entry<K, V>, m: Entries<K, V>, k: K, v: V)
    ensures Set([e] + m, k, v) == if e.key == k then [Entry(k, v)] + m else [e] + Set(m, k, v)
  {
    assert ([e] + m)[1..] == m;
    var i := IndexOf(m, k);
    if e.key != k && i == |m| {
      Associative([e], m, [Entry(k, v)]);
    } else if e.key != k {
      assert ([e] + m)[1 + i := Entry(k, v)] == [e] + m[i := Entry(k, v)];
    }
  }

  lemma GetCons<K, V>(e: Entry<K, V>, m: Entries<K, V>, k: K)
    ensures Get([e] + m, k) == if e.key == k then Some(e.value) else Get(m, k)
  {
    assert ([e] + m)[1..] == m;
  }

  // Overwriting an entry without changing whether it is kept.
  lemma {:induction false} FilterSet<K(!new), V(!new)>(m: Entries<K, V>, k: K, v: V, keep: Entry<K, V> -> bool)
    requires Get(m, k).Some? ==> keep(Entry(k, Get(m, k).value)) == keep(Entry(k, v))
    ensures Filter(Set(m, k, v), keep) == if keep(Entry(k, v)) then Set(Filter(m, keep), k, v) else Filter(m, keep)
  {
    if m == [] {
      FilterCons(Entry(k, v), [], keep);
    } else {
      var e, rest := m[0], m[1..];
      assert m == [e] + rest;
      SetCons(e, rest, k, v);
      FilterCons(e, rest, keep);
      SetCons(e, Filter(rest, keep), k, v);
      if e.key == k {
        FilterCons(Entry(k, v), rest, keep);
      } else {
        FilterSet(rest, k, v, keep);
        FilterCons(e, Set(rest, k, v), keep);
      }
    }
  }

  // ---- The mutable forms ----

  class OrderedMap<K(==), V> {
    var entries: Entries<K, V>

    constructor ()
      ensures entries == []
    {
      entries := [];
    }

    constructor CopyOf(from: Entries<K, V>)
      ensures entries == from
    {
      entries := from;
    }

    method Put(k: K, v: V)
      modifies this
      ensures entries == Set(old(entries), k, v)
    {
      entries := Set(entries, k, v);
    }

    method Remove(k: K)
      modifies this
      ensures entries == Delete(old(entries), k)
    {
      entries := Delete(entries, k);
    }
  }

  class GrowableArray<T> {
    var items: seq<T>

    constructor ()
      ensures items == []
    {
      items := [];
    }

    constructor CopyOf(from: seq<T>)
      ensures items == from
    {
      items := from;
    }

    method Push(x: T)
      modifies this
      ensures items == old(items) + [x]
    {
      items := items + [x];
    }
  }
}

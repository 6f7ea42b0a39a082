/**
 * Python dicts whose insertion order is observable, as sequences of
 * (key, value) entries, and the few dict and builtin operations the
 * analyzers use on them: `get`, item assignment, a counter increment,
 * `max(..., key=...)` and a stable `sorted(..., reverse=True)`.
 */
module Dicts {
  import opened Wrappers

  function Keys<K, V>(d: seq<(K, V)>): (ks: seq<K>)
    ensures |ks| == |d|
    ensures forall i :: 0 <= i < |d| ==> ks[i] == d[i].0
  {
    seq(|d|, i requires 0 <= i < |d| => d[i].0)
  }

  function Values<K, V>(d: seq<(K, V)>): (vs: seq<V>)
    ensures |vs| == |d|
    ensures forall i :: 0 <= i < |d| ==> vs[i] == d[i].1
  {
    seq(|d|, i requires 0 <= i < |d| => d[i].1)
  }

  /** The invariant of every Python dict: no key occurs twice. */
  predicate DistinctKeys<K(==), V>(d: seq<(K, V)>) {
    forall i, j :: 0 <= i < j < |d| ==> d[i].0 != d[j].0
  }

  /** Position of the first entry with key `k`, or -1 when there is none. */
  function IndexOf<K(==), V>(d: seq<(K, V)>, k: K): (i: int)
    ensures -1 <= i < |d|
    ensures 0 <= i ==> d[i].0 == k
    ensures forall j :: 0 <= j < |d| && (i < 0 || j < i) ==> d[j].0 != k
    ensures i < 0 <==> k !in Keys(d)
  {
    if d == [] then -1
    else if d[0].0 == k then 0
    else
      var i := IndexOf(d[1..], k);
      if i < 0 then -1 else i + 1
  }

  /** `d.get(k)`, with `None` for a missing key. */
  function Lookup<K(==), V>(d: seq<(K, V)>, k: K): (r: Option<V>)
    ensures r.None? <==> k !in Keys(d)
    ensures r.Some? ==> (k, r.value) in d
  {
    var i := IndexOf(d, k);
    if i < 0 then None else Some(d[i].1)
  }

  /** `d.get(k, default)`. */
  function Get<K(==), V>(d: seq<(K, V)>, k: K, default: V): V {
    Lookup(d, k).GetOr(default)
  }

  lemma LookupAt<K, V>(d: seq<(K, V)>, i: nat)
    requires DistinctKeys(d) && i < |d|
    ensures Lookup(d, d[i].0) == Some(d[i].1)
  {
  }

  /** In a dict, the last entry is found by its key and hides no other. */
  lemma LookupLast<K, V>(d: seq<(K, V)>, k: K)
    requires d != [] && DistinctKeys(d)
    ensures Lookup(d, k) == if d[|d| - 1].0 == k then Some(d[|d| - 1].1) else Lookup(d[..|d| - 1], k)
  {
    var n := |d| - 1;
    var init := d[..n];
    var i, j := IndexOf(d, k), IndexOf(init, k);
    if j >= 0 {
      assert d[j].0 == k;
    }
    if i >= 0 && i < n {
      assert init[i].0 == k;
    }
  }

  /**
   * `d[k] = v`: an existing key keeps its position and takes the new value,
   * a new key is appended at the end.
   */
  function Put<K(==,!new), V>(d: seq<(K, V)>, k: K, v: V): (r: seq<(K, V)>)
    ensures Keys(r) == if k in Keys(d) then Keys(d) else Keys(d) + [k]
    ensures Lookup(r, k) == Some(v)
    ensures forall k' :: k' != k ==> Lookup(r, k') == Lookup(d, k')
    ensures DistinctKeys(d) ==> DistinctKeys(r)
    ensures k !in Keys(d) ==> r == d + [(k, v)]
  {
    var i := IndexOf(d, k);
    if i < 0 then
      AppendKeeps(d, k, v);
      d + [(k, v)]
    else
      UpdateKeeps(d, i, v);
      d[i := (k, v)]
  }

  /** `d[k] = v` for each entry of `es`, in order. */
  function PutAll<K(==,!new), V>(d: seq<(K, V)>, es: seq<(K, V)>): (r: seq<(K, V)>)
    ensures DistinctKeys(d) ==> DistinctKeys(r)
  {
    if es == [] then d else Put(PutAll(d, es[..|es| - 1]), es[|es| - 1].0, es[|es| - 1].1)
  }

  /** One more entry of `PutAll`. */
  lemma PutAllStep<K(!new), V>(d: seq<(K, V)>, es: seq<(K, V)>, i: nat)
    requires i < |es|
    ensures PutAll(d, es[..i + 1]) == Put(PutAll(d, es[..i]), es[i].0, es[i].1)
  {
    assert es[..i + 1][..i] == es[..i];
  }

  /** Filling an empty dict from distinct entries yields those entries, in order. */
  lemma {:induction false} PutAllFresh<K(!new), V>(es: seq<(K, V)>)
    requires DistinctKeys(es)
    ensures PutAll([], es) == es
  {
    if es != [] {
      var n := |es| - 1;
      var init := es[..n];
      assert es[n].0 !in Keys(init) by {
        forall i | 0 <= i < n
          ensures Keys(init)[i] != es[n].0
        {
          assert init[i] == es[i];
        }
      }
      PutAllFresh(init);
      assert init + [es[n]] == es;
    }
  }

  lemma AppendKeeps<K, V>(d: seq<(K, V)>, k: K, v: V)
    requires k !in Keys(d)
    ensures Keys(d + [(k, v)]) == Keys(d) + [k]
    ensures forall k' :: k' != k ==> IndexOf(d + [(k, v)], k') == IndexOf(d, k')
    ensures IndexOf(d + [(k, v)], k) == |d|
  {
    var r := d + [(k, v)];
    assert Keys(r) == Keys(d) + [k];
    forall k' | k' != k
      ensures IndexOf(r, k') == IndexOf(d, k')
    {
      AppendIndex(d, k, v, k');
    }
    assert r[|d|].0 == k;
  }

  /** Appending an entry for `k` leaves the position of every other key alone. */
  lemma AppendIndex<K, V>(d: seq<(K, V)>, k: K, v: V, k': K)
    requires k' != k
    ensures IndexOf(d + [(k, v)], k') == IndexOf(d, k')
  {
    var r := d + [(k, v)];
    var b := IndexOf(d, k');
    if b >= 0 {
      assert r[b].0 == k';
    }
    assert r[|d|].0 == k;
  }

  lemma UpdateKeeps<K, V>(d: seq<(K, V)>, i: nat, v: V)
    requires i < |d|
    requires IndexOf(d, d[i].0) == i
    ensures Keys(d[i := (d[i].0, v)]) == Keys(d)
    ensures forall k' :: IndexOf(d[i := (d[i].0, v)], k') == IndexOf(d, k')
  {
    var r := d[i := (d[i].0, v)];
    assert Keys(r) == Keys(d);
    forall k'
      ensures IndexOf(r, k') == IndexOf(d, k')
    {
      var a, b := IndexOf(r, k'), IndexOf(d, k');
      if a >= 0 { assert d[a].0 == k'; }
      if b >= 0 { assert r[b].0 == k'; }
    }
  }

  /** The value a counter dict holds for `k`: `d.get(k, 0)`. */
  function Count<K(==)>(d: seq<(K, nat)>, k: K): nat {
    Get(d, k, 0)
  }

  /** `if k not in d: d[k] = 0` followed by `d[k] += 1`. */
  function Incr<K(==,!new)>(d: seq<(K, nat)>, k: K): (r: seq<(K, nat)>)
    ensures Count(r, k) == Count(d, k) + 1
    ensures forall k' :: k' != k ==> Count(r, k') == Count(d, k')
    ensures Keys(r) == if k in Keys(d) then Keys(d) else Keys(d) + [k]
    ensures DistinctKeys(d) ==> DistinctKeys(r)
  {
    var r := Put<K, nat>(d, k, Count(d, k) + 1);
    CountsAgree(d, r, k);
    r
  }

  lemma CountsAgree<K>(d: seq<(K, nat)>, r: seq<(K, nat)>, k: K)
    requires forall k' :: k' != k ==> Lookup(r, k') == Lookup(d, k')
    ensures forall k' :: k' != k ==> Count(r, k') == Count(d, k')
  {
    forall k' | k' != k
      ensures Count(r, k') == Count(d, k')
    {
      assert Lookup(r, k') == Lookup(d, k');
    }
  }

  /** `sum(d.values())`. */
  function Sum<K>(d: seq<(K, nat)>): nat {
    if d == [] then 0 else Sum(d[..|d| - 1]) + d[|d| - 1].1
  }

  lemma {:induction false} SumUpdate<K>(d: seq<(K, nat)>, i: nat, e: (K, nat))
    requires i < |d|
    ensures Sum(d[i := e]) + d[i].1 == Sum(d) + e.1
  {
    var n := |d| - 1;
    assert d[i := e][..n] == if i == n then d[..n] else d[..n][i := e];
    if i < n {
      SumUpdate(d[..n], i, e);
    }
  }

  lemma SumIncr<K(!new)>(d: seq<(K, nat)>, k: K)
    ensures Sum(Incr(d, k)) == Sum(d) + 1
  {
    var r := Incr(d, k);
    var i := IndexOf(d, k);
    if i < 0 {
      assert r == d + [(k, 1)];
      assert r[..|d|] == d;
    } else {
      var e: (K, nat) := (k, d[i].1 + 1);
      assert r == d[i := e];
      SumUpdate(d, i, e);
    }
  }

  /**
   * `max(d.items(), key=lambda x: x[1])`: Python's `max` replaces its
   * candidate only on a strictly larger key, so the first maximal entry wins.
   */
  function ArgMax<K>(d: seq<(K, nat)>): (m: nat)
    requires |d| > 0
    ensures m < |d|
    ensures forall j :: 0 <= j < |d| ==> d[j].1 <= d[m].1
    ensures forall j :: 0 <= j < m ==> d[j].1 < d[m].1
  {
    if |d| == 1 then 0
    else
      var m := ArgMax(d[..|d| - 1]);
      if d[|d| - 1].1 > d[m].1 then |d| - 1 else m
  }

  predicate NonIncreasing<K>(s: seq<(K, nat)>) {
    forall i, j :: 0 <= i < j < |s| ==> s[i].1 >= s[j].1
  }

  /** The entries of `s` whose count is `c`, in their order in `s`. */
  function WithCount<K>(s: seq<(K, nat)>, c: nat): seq<(K, nat)> {
    if s == [] then []
    else (if s[0].1 == c then [s[0]] else []) + WithCount(s[1..], c)
  }

  /** Inserts `x` before the first entry whose count is not larger. */
  function InsertDesc<K>(x: (K, nat), t: seq<(K, nat)>): seq<(K, nat)> {
    if t == [] || x.1 >= t[0].1 then [x] + t
    else [t[0]] + InsertDesc(x, t[1..])
  }

  /** `sorted(s, key=lambda x: x[1], reverse=True)`, which is stable. */
  function SortDesc<K>(s: seq<(K, nat)>): seq<(K, nat)> {
    if s == [] then [] else InsertDesc(s[0], SortDesc(s[1..]))
  }

  lemma {:induction false} InsertDescPerm<K>(x: (K, nat), t: seq<(K, nat)>)
    ensures multiset(InsertDesc(x, t)) == multiset([x] + t)
  {
    if t == [] || x.1 >= t[0].1 {
    } else {
      InsertDescPerm(x, t[1..]);
      assert t == [t[0]] + t[1..];
    }
  }

  lemma {:induction false} InsertDescSorted<K>(x: (K, nat), t: seq<(K, nat)>)
    requires NonIncreasing(t)
    ensures NonIncreasing(InsertDesc(x, t))
  {
    if t == [] || x.1 >= t[0].1 {
    } else {
      var rest := InsertDesc(x, t[1..]);
      NonIncreasingTail(t);
      InsertDescSorted(x, t[1..]);
      InsertDescPerm(x, t[1..]);
      forall j | 0 <= j < |rest|
        ensures t[0].1 >= rest[j].1
      {
        assert rest[j] in multiset(rest);
        assert rest[j] in multiset([x] + t[1..]);
        assert rest[j] == x || rest[j] in t[1..];
      }
    }
  }

  lemma {:induction false} InsertDescWithCount<K>(x: (K, nat), t: seq<(K, nat)>, c: nat)
    ensures WithCount(InsertDesc(x, t), c) == (if x.1 == c then [x] else []) + WithCount(t, c)
  {
    if t == [] || x.1 >= t[0].1 {
      WithCountCons(x, t, c);
    } else {
      var rest := t[1..];
      InsertDescWithCount(x, rest, c);
      var ins := InsertDesc(x, rest);
      WithCountCons(t[0], ins, c);
      WithCountCons(t[0], rest, c);
      assert [t[0]] + rest == t;
      var a := if x.1 == c then [x] else [];
      var b := if t[0].1 == c then [t[0]] else [];
      assert a == [] || b == [];
      assert b + (a + WithCount(rest, c)) == a + (b + WithCount(rest, c));
    }
  }

  lemma WithCountCons<K>(e: (K, nat), s: seq<(K, nat)>, c: nat)
    ensures WithCount([e] + s, c) == (if e.1 == c then [e] else []) + WithCount(s, c)
  {
    assert ([e] + s)[0] == e && ([e] + s)[1..] == s;
  }

  lemma NonIncreasingTail<K>(t: seq<(K, nat)>)
    requires NonIncreasing(t) && t != []
    ensures NonIncreasing(t[1..])
  {
    forall i, j | 0 <= i < j < |t[1..]| ensures t[1..][i].1 >= t[1..][j].1 {
      assert t[1..][i] == t[i + 1] && t[1..][j] == t[j + 1];
    }
  }

  lemma {:induction false} SortDescSorted<K>(s: seq<(K, nat)>)
    ensures NonIncreasing(SortDesc(s))
  {
    if s != [] {
      SortDescSorted(s[1..]);
      InsertDescSorted(s[0], SortDesc(s[1..]));
    }
  }

  /** The sorted entries are the given ones, each as often as before. */
  lemma {:induction false} SortDescPermutation<K>(s: seq<(K, nat)>)
    ensures multiset(SortDesc(s)) == multiset(s)
  {
    if s != [] {
      SortDescPermutation(s[1..]);
      InsertDescPerm(s[0], SortDesc(s[1..]));
      assert s == [s[0]] + s[1..];
    }
  }

  /** Stability: the entries sharing a count keep their relative order. */
  lemma {:induction false} SortDescStable<K>(s: seq<(K, nat)>, c: nat)
    ensures WithCount(SortDesc(s), c) == WithCount(s, c)
  {
    if s != [] {
      SortDescStable(s[1..], c);
      InsertDescWithCount(s[0], SortDesc(s[1..]), c);
    }
  }

  lemma LookupAll<K, V>(d: seq<(K, V)>)
    ensures DistinctKeys(d) ==> forall i :: 0 <= i < |d| ==> Lookup(d, d[i].0) == Some(d[i].1)
  {
    forall i | 0 <= i < |d| && DistinctKeys(d)
      ensures Lookup(d, d[i].0) == Some(d[i].1)
    {
      LookupAt(d, i);
    }
  }

  lemma SortDescAllStable<K>(s: seq<(K, nat)>)
    ensures forall c :: WithCount(SortDesc(s), c) == WithCount(s, c)
  {
    forall c
      ensures WithCount(SortDesc(s), c) == WithCount(s, c)
    {
      SortDescStable(s, c);
    }
  }
}

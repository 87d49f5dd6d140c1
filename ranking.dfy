/** Ranking of counted keys, as `sorted(items, key=count, reverse=True)[:n]`
    and `Counter.most_common(n)` do it: a stable sort on the count, largest
    first, cut to the first `n` entries. */
module Ranking {

  predicate SortedDesc<K>(s: seq<(K, nat)>) {
    forall i, j :: 0 <= i < j < |s| ==> s[i].1 >= s[j].1
  }

  predicate DistinctKeys<K(==)>(s: seq<(K, nat)>) {
    forall i, j :: 0 <= i < j < |s| ==> s[i].0 != s[j].0
  }

  /** An entry whose count is at least the first count of a sorted list
      can go in front of it. */
  lemma ConsSorted<K>(a: (K, nat), s: seq<(K, nat)>)
    requires SortedDesc(s)
    requires s != [] ==> a.1 >= s[0].1
    ensures SortedDesc([a] + s)
  {
    var r := [a] + s;
    forall i, j | 0 <= i < j < |r| ensures r[i].1 >= r[j].1 {
      if i == 0 {
        assert r[j] == s[j - 1];
      } else {
        assert r[i] == s[i - 1] && r[j] == s[j - 1];
      }
    }
  }

  /** Places `x` before the first entry whose count is not larger: `x` stays
      ahead of the entries that tie with it. */
  function Insert<K(==)>(x: (K, nat), t: seq<(K, nat)>): (r: seq<(K, nat)>)
    requires SortedDesc(t)
    ensures |r| == |t| + 1
    ensures r[0] == x || (t != [] && r[0] == t[0])
    ensures SortedDesc(r)
    ensures multiset(r) == multiset(t) + multiset{x}
  {
    if t == [] || t[0].1 <= x.1 then
      ConsSorted(x, t);
      [x] + t
    else
      assert t == [t[0]] + t[1..];
      var rest := Insert(x, t[1..]);
      assert t[1..] != [] ==> t[0].1 >= t[1..][0].1;
      ConsSorted(t[0], rest);
      assert multiset([t[0]] + rest) == multiset{t[0]} + multiset(rest);
      [t[0]] + rest
  }

  /** The entries of `s` ordered by count, largest first; entries with equal
      counts keep their order in `s`. */
  function SortDesc<K(==)>(s: seq<(K, nat)>): (r: seq<(K, nat)>)
    ensures |r| == |s|
    ensures SortedDesc(r)
    ensures multiset(r) == multiset(s)
  {
    if s == [] then []
    else
      assert s == [s[0]] + s[1..];
      Insert(s[0], SortDesc(s[1..]))
  }

  lemma {:induction false} InsertKeepsKeysDistinct<K>(x: (K, nat), t: seq<(K, nat)>)
    requires SortedDesc(t) && DistinctKeys(t)
    requires forall p :: p in t ==> p.0 != x.0
    ensures DistinctKeys(Insert(x, t))
  {
    if !(t == [] || t[0].1 <= x.1) {
      var rest := Insert(x, t[1..]);
      InsertKeepsKeysDistinct(x, t[1..]);
      forall p | p in rest ensures p.0 != t[0].0 {
        assert p in multiset(rest);
        if p != x {
          var j :| 0 <= j < |t[1..]| && t[1..][j] == p;
          assert t[j + 1] == p;
        }
      }
      assert Insert(x, t) == [t[0]] + rest;
    }
  }

  /** Sorting keeps the keys distinct. */
  lemma {:induction false} SortKeepsKeysDistinct<K>(s: seq<(K, nat)>)
    requires DistinctKeys(s)
    ensures DistinctKeys(SortDesc(s))
  {
    if s != [] {
      var rest := SortDesc(s[1..]);
      SortKeepsKeysDistinct(s[1..]);
      forall p | p in rest ensures p.0 != s[0].0 {
        assert p in multiset(rest);
        var j :| 0 <= j < |s[1..]| && s[1..][j] == p;
        assert s[j + 1] == p;
      }
      InsertKeepsKeysDistinct(s[0], rest);
    }
  }

  /** The entries of `s` whose count is `v`, in their order in `s`. */
  function WithCount<K>(s: seq<(K, nat)>, v: nat): seq<(K, nat)> {
    if s == [] then []
    else (if s[0].1 == v then [s[0]] else []) + WithCount(s[1..], v)
  }

  lemma {:induction false} InsertIsStable<K>(x: (K, nat), t: seq<(K, nat)>, v: nat)
    requires SortedDesc(t)
    ensures WithCount(Insert(x, t), v) == (if x.1 == v then [x] else []) + WithCount(t, v)
  {
    if t == [] || t[0].1 <= x.1 {
      assert ([x] + t)[1..] == t;
    } else {
      var r := Insert(x, t);
      assert r[0] == t[0] && r[1..] == Insert(x, t[1..]);
      InsertIsStable(x, t[1..], v);
    }
  }

  /** Sorting is stable: the entries that share a count come out in the
      order they went in. */
  lemma {:induction false} SortIsStable<K>(s: seq<(K, nat)>, v: nat)
    ensures WithCount(SortDesc(s), v) == WithCount(s, v)
  {
    if s != [] {
      SortIsStable(s[1..], v);
      InsertIsStable(s[0], SortDesc(s[1..]), v);
    }
  }

  function Min(a: nat, b: nat): nat {
    if a < b then a else b
  }

  /** The first `n` entries of the ranking. */
  function Top<K(==)>(s: seq<(K, nat)>, n: nat): seq<(K, nat)> {
    SortDesc(s)[..Min(n, |s|)]
  }

  /** Every entry of `Top(s, n)` is an entry of `s`. */
  lemma TopFromInput<K>(s: seq<(K, nat)>, n: nat)
    ensures forall p :: p in Top(s, n) ==> p in s
  {
    var sorted := SortDesc(s);
    forall p | p in Top(s, n) ensures p in s {
      assert p in sorted;
      assert p in multiset(sorted);
    }
  }

  /** No entry left out of `Top(s, n)` has a larger count than an entry
      kept. */
  lemma TopDominates<K>(s: seq<(K, nat)>, n: nat)
    ensures forall p, i :: p in s && p !in Top(s, n) && 0 <= i < |Top(s, n)| ==> p.1 <= Top(s, n)[i].1
  {
    var sorted := SortDesc(s);
    var top := Top(s, n);
    forall p, i | p in s && p !in top && 0 <= i < |top| ensures p.1 <= top[i].1 {
      assert p in multiset(sorted);
      var j :| 0 <= j < |sorted| && sorted[j] == p;
      assert top[i] == sorted[i];
    }
  }

  /** `Top(s, n)` holds `n` entries of `s` (all of them when there are
      fewer), largest count first, and no entry left out has a larger count
      than any entry kept. */
  lemma TopIsTop<K>(s: seq<(K, nat)>, n: nat)
    ensures |Top(s, n)| == Min(n, |s|)
    ensures SortedDesc(Top(s, n))
    ensures DistinctKeys(s) ==> DistinctKeys(Top(s, n))
    ensures forall p :: p in Top(s, n) ==> p in s
    ensures forall p, i :: p in s && p !in Top(s, n) && 0 <= i < |Top(s, n)| ==> p.1 <= Top(s, n)[i].1
    ensures n >= |s| ==> multiset(Top(s, n)) == multiset(s)
  {
    var sorted := SortDesc(s);
    if DistinctKeys(s) {
      SortKeepsKeysDistinct(s);
    }
    TopFromInput(s, n);
    TopDominates(s, n);
    if n >= |s| {
      assert Top(s, n) == sorted;
    }
  }
}
